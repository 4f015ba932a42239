/** The Log entity, an audit record that nothing mutates once built: its guard chain, the
    validating constructor, the Create factory and the unvalidated record the migration writes. */
module Logs {
  import opened Guards
  import opened Text
  import opened Documents

  const IdRequired := "Id cannot be empty."
  const LevelRequired := "Level is required."
  const LevelTooLong := "Level exceeds maximum length of 50 characters."
  const MessageRequired := "Message is required."
  const MessageTooLong := "Message exceeds maximum length of 2000 characters."
  const TimeStampRequired := "Timestamp must be set."

  /** An audit record. */
  datatype LogEntry = LogEntry(id: Guid, level: string, message: string, exception: Option<string>, timeStamp: Time)

  predicate ValidLogFields(id: Guid, level: string, message: string, timeStamp: Time) {
    id != EmptyGuid && !IsBlank(level) && |level| <= 50 && !IsBlank(message) && |message| <= 2000
    && timeStamp != DefaultTime
  }

  /** ValidateParameters: the id, the level (blank, then too long), the message (blank, then too
      long), and last the timestamp. The exception text is not checked. It passes exactly for valid
      fields and otherwise reports the first broken rule in that order: once the rules before it
      hold, each rule is broken exactly when its message is the one reported. */
  function Validate(id: Guid, level: string, message: string, timeStamp: Time): (c: Check)
    ensures c.Pass? <==> ValidLogFields(id, level, message, timeStamp)
    ensures id == EmptyGuid <==> c == Fail(IdRequired)
    ensures id != EmptyGuid ==> (IsBlank(level) <==> c == Fail(LevelRequired))
    ensures id != EmptyGuid && !IsBlank(level) ==> (|level| > 50 <==> c == Fail(LevelTooLong))
    ensures id != EmptyGuid && !IsBlank(level) && |level| <= 50 ==> (IsBlank(message) <==> c == Fail(MessageRequired))
    ensures id != EmptyGuid && !IsBlank(level) && |level| <= 50 && !IsBlank(message)
            ==> (|message| > 2000 <==> c == Fail(MessageTooLong))
    ensures id != EmptyGuid && !IsBlank(level) && |level| <= 50 && !IsBlank(message) && |message| <= 2000
            ==> (timeStamp == DefaultTime <==> c == Fail(TimeStampRequired))
  {
    if id == EmptyGuid then Fail(IdRequired)
    else if IsBlank(level) then Fail(LevelRequired)
    else if |level| > 50 then Fail(LevelTooLong)
    else if IsBlank(message) then Fail(MessageRequired)
    else if |message| > 2000 then Fail(MessageTooLong)
    else if timeStamp == DefaultTime then Fail(TimeStampRequired)
    else Pass
  }

  /** What the validating constructor stores: a real id and timestamp, the level and the message in
      normal form, and a trimmed exception text if there is one. */
  predicate Stored(e: LogEntry) {
    e.id != EmptyGuid && e.timeStamp != DefaultTime
    && Normal(e.level, 50) && Normal(e.message, 2000)
    && (e.exception.Some? ==> IsTrimmed(e.exception.value))
  }

  /** `new Log(id, level, message, exception, timestamp)` as a call that may throw: the record exists
      exactly when validation passes, and then holds the trimmed texts. */
  function NewLog(id: Guid, level: string, message: string, exception: Option<string>, timeStamp: Time): (r: Result<LogEntry>)
    ensures r.Ok? <==> ValidLogFields(id, level, message, timeStamp)
    ensures r.Err? ==> r.message == Validate(id, level, message, timeStamp).message
    ensures r.Ok? ==> Stored(r.value)
    ensures r.Ok? ==> r.value.id == id && r.value.timeStamp == timeStamp
                      && r.value.level == Trim(level) && r.value.message == Trim(message)
                      && r.value.exception == TrimOptional(exception)
  {
    var v := Validate(id, level, message, timeStamp);
    if v.Fail? then Err(v.message)
    else
      NormalizeText(level, 50);
      NormalizeText(message, 2000);
      Ok(LogEntry(id, Trim(level), Trim(message), TrimOptional(exception), timeStamp))
  }

  /** Create, with `id` the fresh Guid and `now` the clock reading: neither is ever the default, so the
      level and the message alone decide whether a record is built. */
  function Create(level: string, message: string, exception: Option<string>, id: Guid, now: Time): (r: Result<LogEntry>)
    requires id != EmptyGuid && now != DefaultTime
    ensures r.Ok? <==> !IsBlank(level) && |level| <= 50 && !IsBlank(message) && |message| <= 2000
    ensures r.Ok? ==> r.value.id == id && r.value.timeStamp == now
  {
    NewLog(id, level, message, exception, now)
  }

  /** The entity's valid-record test through Create: the record keeps its already trimmed texts. */
  lemma CreateTestInputs(id: Guid, now: Time)
    requires id != EmptyGuid && now != DefaultTime
    ensures Create("Information", "This is a test log.", Some("Exception details"), id, now)
            == Ok(LogEntry(id, "Information", "This is a test log.", Some("Exception details"), now))
  {
    var texts := ["Information", "This is a test log.", "Exception details"];
    forall t | t in texts
      ensures Trim(t) == t
    {
      assert IsTrimmed(t);
      TrimmedIsFixed(t);
    }
    assert !IsWhiteSpace("Information"[0]) && !IsWhiteSpace("This is a test log."[0]);
  }

  /** The blank-text tests through Create: an empty or white-space level or message is rejected,
      the level first. */
  lemma CreateRejectsBlankTexts(id: Guid, now: Time)
    requires id != EmptyGuid && now != DefaultTime
    ensures Create("", "Valid message", None, id, now) == Err(LevelRequired)
    ensures Create(" ", "Valid message", None, id, now) == Err(LevelRequired)
    ensures Create("Valid level", "", None, id, now) == Err(MessageRequired)
    ensures Create("Valid level", " ", None, id, now) == Err(MessageRequired)
  {
    assert !IsWhiteSpace("Valid message"[0]) && !IsWhiteSpace("Valid level"[0]);
  }

  /** The length tests through Create: a level of 51 characters and a message of 2001 characters fail
      with their own messages. */
  lemma CreateRejectsLongTexts(id: Guid, now: Time)
    requires id != EmptyGuid && now != DefaultTime
    ensures Create(seq(51, _ => 'A'), "Valid message", None, id, now) == Err(LevelTooLong)
    ensures Create("Info", seq(2001, _ => 'B'), None, id, now) == Err(MessageTooLong)
  {
    assert !IsWhiteSpace("Info"[0]) && !IsWhiteSpace("Valid message"[0]);
    assert !IsWhiteSpace(seq(51, _ => 'A')[0]) && !IsWhiteSpace(seq(2001, _ => 'B')[0]);
  }

  /** `new Log { Level = level, Message = message, Exception = exception }`: the parameterless
      constructor and the property setters, which check nothing and trim nothing. */
  function Unvalidated(level: string, message: string, exception: Option<string>): (e: LogEntry)
    ensures e.id == EmptyGuid && e.timeStamp == DefaultTime
    ensures Validate(e.id, e.level, e.message, e.timeStamp) == Fail(IdRequired)
  {
    LogEntry(EmptyGuid, level, message, exception, DefaultTime)
  }
}
