/** String helpers that stand in for the .NET string operations the entities use:
    char.IsWhiteSpace, string.IsNullOrWhiteSpace, Trim, ToLowerInvariant,
    the EmailAddressAttribute check and the integer/number text forms. */
module Text {
  import opened Guards

  /** char.IsWhiteSpace, restricted to the ASCII and Latin-1 white-space characters. */
  predicate IsWhiteSpace(c: char) {
    c == ' ' || c == '\t' || c == '\n' || c == '\U{000B}' || c == '\U{000C}' || c == '\r'
    || c == '\U{0085}' || c == '\U{00A0}'
  }

  /** string.IsNullOrWhiteSpace on a non-null string: empty, or white space only. */
  predicate IsBlank(s: string) {
    forall i :: 0 <= i < |s| ==> IsWhiteSpace(s[i])
  }

  /** Drops leading white space. */
  function TrimStart(s: string): (r: string)
    ensures |r| <= |s|
    ensures r == [] || !IsWhiteSpace(r[0])
  {
    if |s| > 0 && IsWhiteSpace(s[0]) then TrimStart(s[1..]) else s
  }

  /** TrimStart drops a white-space prefix and keeps the rest. */
  lemma {:induction false} TrimStartDropsPrefix(s: string)
    ensures TrimStart(s) == s[|s| - |TrimStart(s)|..]
    ensures forall i :: 0 <= i < |s| - |TrimStart(s)| ==> IsWhiteSpace(s[i])
  {
    if |s| > 0 && IsWhiteSpace(s[0]) {
      TrimStartDropsPrefix(s[1..]);
    }
  }

  /** Drops trailing white space. */
  function TrimEnd(s: string): (r: string)
    ensures |r| <= |s|
    ensures r == [] || !IsWhiteSpace(r[|r| - 1])
    ensures r != [] ==> r[0] == s[0]
  {
    if |s| > 0 && IsWhiteSpace(s[|s| - 1]) then TrimEnd(s[..|s| - 1]) else s
  }

  /** TrimEnd drops a white-space suffix and keeps the rest. */
  lemma {:induction false} TrimEndDropsSuffix(s: string)
    ensures TrimEnd(s) == s[..|TrimEnd(s)|]
    ensures forall i :: |TrimEnd(s)| <= i < |s| ==> IsWhiteSpace(s[i])
  {
    if |s| > 0 && IsWhiteSpace(s[|s| - 1]) {
      TrimEndDropsSuffix(s[..|s| - 1]);
      assert s[..|s| - 1][..|TrimEnd(s)|] == s[..|TrimEnd(s)|];
    }
  }

  /** string.Trim(): the longest infix that neither starts nor ends with white space. */
  function Trim(s: string): (r: string)
    ensures |r| <= |s|
    ensures IsTrimmed(r)
  {
    TrimEnd(TrimStart(s))
  }

  /** A string with no white space at either end: what Trim returns. */
  predicate IsTrimmed(s: string) {
    s == [] || (!IsWhiteSpace(s[0]) && !IsWhiteSpace(s[|s| - 1]))
  }

  /** A trimmed string is its own trim. */
  lemma TrimmedIsFixed(s: string)
    requires IsTrimmed(s)
    ensures Trim(s) == s
  {
  }

  lemma {:induction false} BlankTrimStart(s: string)
    requires IsBlank(s)
    ensures TrimStart(s) == []
  {
    if |s| > 0 {
      BlankTrimStart(s[1..]);
    }
  }

  /** Trimming removes only white space: it yields the empty string exactly for blank input. */
  lemma TrimEmptyIffBlank(s: string)
    ensures Trim(s) == [] <==> IsBlank(s)
  {
    if IsBlank(s) {
      BlankTrimStart(s);
    } else {
      var i :| 0 <= i < |s| && !IsWhiteSpace(s[i]);
      KeptCharacter(s, i);
    }
  }

  /** A character that is not white space survives trimming. */
  lemma KeptCharacter(s: string, i: nat)
    requires i < |s| && !IsWhiteSpace(s[i])
    ensures Trim(s) != []
  {
    TrimStartDropsPrefix(s);
    var t := TrimStart(s);
    TrimEndDropsSuffix(t);
    var k := |s| - |t|;
    assert t[i - k] == s[i];
  }

  /** Trim is idempotent: a trimmed string is its own trim. */
  lemma TrimIdempotent(s: string)
    ensures Trim(Trim(s)) == Trim(s)
  {
    var r := Trim(s);
    if r != [] {
      assert TrimStart(r) == r;
      assert TrimEnd(r) == r;
    }
  }

  /** The form in which a text field is stored: trimmed, not empty, within its bound. */
  predicate Normal(s: string, max: nat) {
    s != [] && IsTrimmed(s) && |s| <= max
  }

  predicate NormalOptional(s: Option<string>, max: nat) {
    s.Some? ==> IsTrimmed(s.value) && |s.value| <= max
  }

  function TrimOptional(s: Option<string>): (r: Option<string>)
    ensures r.None? <==> s.None?
  {
    match s case None => None case Some(t) => Some(Trim(t))
  }

  /** What normalising a checked text gives: a trimmed, non-empty text within the same bound. */
  lemma NormalizeText(s: string, max: nat)
    requires !IsBlank(s) && |s| <= max
    ensures Normal(Trim(s), max)
  {
    TrimEmptyIffBlank(s);
  }

  /** A normal text is not blank: its first character is not white space. */
  lemma NormalIsNotBlank(s: string, max: nat)
    requires Normal(s, max)
    ensures !IsBlank(s)
  {
  }

  /** ToLowerInvariant on one character (ASCII letters only). */
  function LowerChar(c: char): (d: char)
    ensures IsWhiteSpace(d) <==> IsWhiteSpace(c)
  {
    if 'A' <= c <= 'Z' then (c as int - 'A' as int + 'a' as int) as char else c
  }

  /** string.ToLowerInvariant (ASCII letters only). */
  function ToLower(s: string): (r: string)
    ensures |r| == |s|
  {
    seq(|s|, i requires 0 <= i < |s| => LowerChar(s[i]))
  }

  /** A text without capital letters. */
  predicate IsLower(s: string)
    decreases |s|
  {
    s == [] || (!('A' <= s[0] <= 'Z') && IsLower(s[1..]))
  }

  /** Lower-casing leaves no capital letter. */
  lemma {:induction false} LowerIsLower(s: string)
    ensures IsLower(ToLower(s))
    decreases |s|
  {
    if s != [] {
      assert ToLower(s)[1..] == ToLower(s[1..]);
      LowerIsLower(s[1..]);
    }
  }

  /** A text without capital letters is its own lower case, so lower-casing is idempotent. */
  lemma {:induction false} LowerOfLower(s: string)
    requires IsLower(s)
    ensures ToLower(s) == s
    decreases |s|
  {
    if s != [] {
      LowerOfLower(s[1..]);
      assert ToLower(s) == [LowerChar(s[0])] + ToLower(s[1..]);
    }
  }

  /** A text without capital letters is its own lower case. */
  lemma LowerFixed(s: string)
    requires forall i :: 0 <= i < |s| ==> !('A' <= s[i] <= 'Z')
    ensures ToLower(s) == s
  {
  }

  /** Lower-casing keeps white space where it was, so it commutes with trimming. */
  lemma {:induction false} TrimStartLower(s: string)
    ensures TrimStart(ToLower(s)) == ToLower(TrimStart(s))
  {
    if |s| > 0 && IsWhiteSpace(s[0]) {
      assert ToLower(s)[1..] == ToLower(s[1..]);
      TrimStartLower(s[1..]);
    }
  }

  lemma {:induction false} TrimEndLower(s: string)
    ensures TrimEnd(ToLower(s)) == ToLower(TrimEnd(s))
  {
    if |s| > 0 && IsWhiteSpace(s[|s| - 1]) {
      assert ToLower(s)[..|s| - 1] == ToLower(s[..|s| - 1]);
      TrimEndLower(s[..|s| - 1]);
    }
  }

  lemma TrimLower(s: string)
    ensures Trim(ToLower(s)) == ToLower(Trim(s))
  {
    TrimStartLower(s);
    TrimEndLower(TrimStart(s));
  }

  /** string.IndexOf(c): the first position of c, or -1. */
  function IndexOf(s: string, c: char): (k: int)
    ensures -1 <= k < |s|
    ensures k == -1 <==> c !in s
    ensures k >= 0 ==> s[k] == c && forall j :: 0 <= j < k ==> s[j] != c
  {
    if s == [] then -1
    else if s[0] == c then 0
    else
      var k := IndexOf(s[1..], c);
      if k < 0 then -1 else k + 1
  }

  /** string.LastIndexOf(c): the last position of c, or -1. */
  function LastIndexOf(s: string, c: char): (k: int)
    ensures -1 <= k < |s|
    ensures k == -1 <==> c !in s
    ensures k >= 0 ==> s[k] == c && forall j :: k < j < |s| ==> s[j] != c
  {
    if s == [] then -1
    else if s[|s| - 1] == c then |s| - 1
    else
      var k := LastIndexOf(s[..|s| - 1], c);
      assert k < 0 ==> s == s[..|s| - 1] + [s[|s| - 1]];
      k
  }

  /** EmailAddressAttribute.IsValid on a string: exactly one '@', neither first nor last. */
  predicate IsEmailAddress(s: string) {
    var k := IndexOf(s, '@');
    k > 0 && k != |s| - 1 && k == LastIndexOf(s, '@')
  }

  lemma EmailHasOneAt(s: string)
    requires IsEmailAddress(s)
    ensures '@' in s && s[0] != '@' && s[|s| - 1] != '@'
  {
  }

  /** A blank string is never an e-mail address, so "Email is required." shadows "Email must be valid.". */
  lemma BlankIsNotEmail(s: string)
    requires IsBlank(s)
    ensures !IsEmailAddress(s)
  {
  }

  /** Decimal digits. */
  predicate IsDigit(c: char) { '0' <= c <= '9' }

  function DigitValue(c: char): nat requires IsDigit(c) { c as int - '0' as int }

  function DigitChar(d: nat): (c: char)
    requires d < 10
    ensures IsDigit(c) && DigitValue(c) == d
  {
    ('0' as int + d) as char
  }

  /** The invariant-culture decimal text of a natural number (Int64.ToString for n >= 0). */
  function NatToText(n: nat): (s: string)
    ensures |s| > 0
    ensures forall i :: 0 <= i < |s| ==> IsDigit(s[i])
    decreases n
  {
    if n < 10 then [DigitChar(n)] else NatToText(n / 10) + [DigitChar(n % 10)]
  }

  /** Int64.ToString(): a '-' sign for negative values. */
  function IntToText(n: int): (s: string)
    ensures |s| > 0
  {
    if n < 0 then "-" + NatToText(-n) else NatToText(n)
  }

  /** The value of a non-empty run of decimal digits, or None. */
  function ParseNat(s: string): (r: Option<nat>)
    ensures r.Some? <==> s != [] && forall i :: 0 <= i < |s| ==> IsDigit(s[i])
    decreases |s|
  {
    if s == [] then None
    else if !IsDigit(s[|s| - 1]) then None
    else if |s| == 1 then Some(DigitValue(s[0]))
    else match ParseNat(s[..|s| - 1])
      case None => None
      case Some(v) => Some(10 * v + DigitValue(s[|s| - 1]))
  }

  /** Reading back the decimal text of a number gives the number. */
  lemma {:induction false} ParseNatToText(n: nat)
    ensures ParseNat(NatToText(n)) == Some(n)
    decreases n
  {
    if n >= 10 {
      var s := NatToText(n);
      assert s[..|s| - 1] == NatToText(n / 10);
      ParseNatToText(n / 10);
    }
  }

  /** An optionally signed integer after trimming (Int32.Parse with NumberStyles.Integer, unbounded). */
  function ParseInt(s: string): (r: Option<int>)
  {
    var t := Trim(s);
    var signed := |t| > 0 && (t[0] == '-' || t[0] == '+');
    var digits := ParseNat(if signed then t[1..] else t);
    var r: Option<int> :=
      if digits.None? then None
      else if signed && t[0] == '-' then Some(-(digits.value as int))
      else Some(digits.value);
    r
  }
}
