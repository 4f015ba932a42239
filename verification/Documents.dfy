/** The loosely typed Firestore documents the migration reads, and the conversions the entities
    apply to their fields: `GetValueOrDefault(...)?.ToString() ?? fallback`, Convert.ToInt32,
    Convert.ToBoolean, Convert.ToDecimal and the ParseDate helpers. */
module Documents {
  import opened Guards
  import opened Text

  /** A Guid; `EmptyGuid` is Guid.Empty. */
  type Guid = nat
  const EmptyGuid: Guid := 0

  /** A DateTimeOffset as a tick count; `DefaultTime` is default(DateTimeOffset). */
  type Time = nat
  const DefaultTime: Time := 0
  /** TimeSpan.FromMinutes(5) in ticks. */
  const FiveMinutes: nat := 3_000_000_000

  /** The range of a C# `int`. */
  type Int32 = x: int | -0x8000_0000 <= x < 0x8000_0000

  /** A field value as the Firestore client library hands it out: null, a string, an integer
      (Int64), a boolean, a Timestamp, a list or a nested map. */
  datatype Value =
    | Null
    | Str(s: string)
    | Int(n: int)
    | Bool(b: bool)
    | Stamp(ticks: Time)
    | List(items: seq<Value>)
    | Dict(fields: map<string, Value>)

  /** `DocumentSnapshot.ToDictionary()`. */
  type Data = map<string, Value>

  /** A document snapshot: its id and its fields. */
  datatype Document = Document(id: string, data: Data)

  /** `data.GetValueOrDefault(key, fallback)`. */
  function Get(data: Data, key: string, fallback: Value): (v: Value)
    ensures key !in data ==> v == fallback
    ensures key in data ==> v == data[key]
  {
    if key in data then data[key] else fallback
  }

  /** `v?.ToString()`: None for null, the string itself for a string; the other kinds print
      their invariant-culture text or their runtime type name. */
  function Render(v: Value): (r: Option<string>)
    ensures r.None? <==> v.Null?
    ensures v.Str? ==> r == Some(v.s)
  {
    match v
    case Null => None
    case Str(s) => Some(s)
    case Int(n) => Some(IntToText(n))
    case Bool(b) => Some(if b then "True" else "False")
    case Stamp(t) => Some("Timestamp: " + NatToText(t))
    case List(_) => Some(ListText)
    case Dict(_) => Some(DictText)
  }

  /** What ToString prints for a Firestore array and for a nested map: their runtime type names. */
  const ListText := "System.Collections.Generic.List`1[System.Object]"
  const DictText := "System.Collections.Generic.Dictionary`2[System.String,System.Object]"

  /** `data.GetValueOrDefault(key, fallback)?.ToString() ?? fallback` for a non-null fallback:
      the fallback for an absent key or a null value, the value's text otherwise. */
  function TextOr(data: Data, key: string, fallback: string): (s: string)
    ensures key !in data || data[key].Null? ==> s == fallback
    ensures key in data && data[key].Str? ==> s == data[key].s
  {
    match Render(Get(data, key, Str(fallback)))
    case Some(s) => s
    case None => fallback
  }

  /** `data.GetValueOrDefault(key, fallback)?.ToString()` for a nullable fallback: the fallback for an
      absent key, None for a null value, the value's text otherwise. */
  function OptionalTextOr(data: Data, key: string, fallback: Option<string>): (s: Option<string>)
    ensures key !in data ==> s == fallback
    ensures key in data ==> s == Render(data[key])
  {
    if key in data then Render(data[key]) else fallback
  }

  /** The boxed form of a nullable string, as passed to GetValueOrDefault. */
  function Box(s: Option<string>): Value {
    match s case None => Null case Some(t) => Str(t)
  }

  /** The messages of the exceptions the conversions throw. */
  const FormatMessage := "The input string was not in a correct format."
  const OverflowMessage := "Value was either too large or too small for an Int32."
  const InvalidCastMessage := "Unable to cast object to type 'System.IConvertible'."
  const NotBooleanMessage := "String was not recognized as a valid Boolean."

  /** Convert.ToInt32(object): null is 0, booleans are 1 and 0, integers must fit in 32 bits,
      strings must parse as an integer in range; every other kind is an invalid cast. */
  function ToInt32(v: Value): (r: Result<Int32>)
    ensures v.Null? ==> r == Ok(0)
    ensures v.Int? ==> (r.Ok? <==> -0x8000_0000 <= v.n < 0x8000_0000)
    ensures r.Ok? && v.Int? ==> r.value == v.n
  {
    match v
    case Null => Ok(0)
    case Int(n) =>
      if -0x8000_0000 <= n < 0x8000_0000 then Ok(n)
      else Err(OverflowMessage)
    case Bool(b) => Ok(if b then 1 else 0)
    case Str(s) =>
      (match ParseInt(s)
       case None => Err(FormatMessage)
       case Some(n) =>
         if -0x8000_0000 <= n < 0x8000_0000 then Ok(n)
         else Err(OverflowMessage))
    case _ => Err(InvalidCastMessage)
  }

  /** Boolean.Parse: "true" or "false" in any letter case, surrounding white space ignored. */
  function ParseBool(s: string): (r: Option<bool>)
    ensures r.Some? ==> s != []
  {
    var t := ToLower(Trim(s));
    if t == "true" then Some(true) else if t == "false" then Some(false) else None
  }

  /** Convert.ToBoolean(object): null is false, integers are true when non-zero, strings must
      read "true" or "false"; every other kind is an invalid cast. */
  function ToBoolean(v: Value): (r: Result<bool>)
    ensures v.Null? ==> r == Ok(false)
    ensures v.Bool? ==> r == Ok(v.b)
    ensures r.Err? ==> !v.Null? && !v.Bool? && !v.Int?
  {
    match v
    case Null => Ok(false)
    case Bool(b) => Ok(b)
    case Int(n) => Ok(n != 0)
    case Str(s) =>
      (match ParseBool(s)
       case None => Err(NotBooleanMessage)
       case Some(b) => Ok(b))
    case _ => Err(InvalidCastMessage)
  }

  /** Convert.ToDecimal(object) on the integral part of the value space: null is 0, booleans are
      1 and 0, integers are themselves, strings must parse as an integer; other kinds fail. */
  function ToDecimal(v: Value): (r: Result<int>)
    ensures v.Null? ==> r == Ok(0)
    ensures v.Int? ==> r == Ok(v.n)
  {
    match v
    case Null => Ok(0)
    case Int(n) => Ok(n)
    case Bool(b) => Ok(if b then 1 else 0)
    case Str(s) =>
      (match ParseInt(s)
       case None => Err(FormatMessage)
       case Some(n) => Ok(n))
    case _ => Err(InvalidCastMessage)
  }

  /** DateTimeOffset.TryParse, reduced to reading a run of decimal digits as a tick count. */
  function TryParseDate(s: Option<string>): Option<Time> {
    match s
    case None => None
    case Some(t) => ParseNat(t)
  }

  /** The entities' ParseDate: a Timestamp converts, a parseable text parses, and anything else,
      absent values included, becomes the current time `now`. It never fails. */
  function ParseDate(v: Value, now: Time): (t: Time)
    ensures v.Stamp? ==> t == v.ticks
    ensures v.Null? ==> t == now
  {
    if v.Stamp? then v.ticks
    else match TryParseDate(Render(v))
      case Some(t) => t
      case None => now
  }

  /** Report.ParseDateNullable: None for null, ParseDate otherwise. */
  function ParseDateNullable(v: Value, now: Time): (t: Option<Time>)
    ensures t.None? <==> v.Null?
    ensures v.Stamp? ==> t == Some(v.ticks)
  {
    if v.Null? then None else Some(ParseDate(v, now))
  }
}
