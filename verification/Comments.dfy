/** The Comment entity: its guard chain, the resolution of a comment's author through the map from
    Firebase ids to user Guids, and the class whose UpdateFromFirestore assigns before it validates. */
module Comments {
  import opened Guards
  import opened Text
  import opened Documents

  // ---------------------------------------------------------------- guard chain

  const IdRequired := "Id cannot be empty."
  const ReportIdRequired := "ReportId cannot be empty."
  const AuthorIdRequired := "AuthorId cannot be empty."
  const AvatarColorRequired := "AvatarColor is required."
  const MessageRequired := "Message is required."
  const RoleRequired := "Role is required."
  const AvatarColorTooLong := "AvatarColor length cannot exceed 50 characters."
  const MessageTooLong := "Message length cannot exceed 500 characters."
  const RoleTooLong := "Role length cannot exceed 50 characters."
  const FutureDate := "CreatedAt cannot be a future date."

  predicate ValidCommentFields(id: Guid, reportId: Guid, authorId: Guid, avatarColor: string, message: string,
                               role: string, createdAt: Time, now: Time) {
    id != EmptyGuid && reportId != EmptyGuid && authorId != EmptyGuid
    && !IsBlank(avatarColor) && !IsBlank(message) && !IsBlank(role)
    && |avatarColor| <= 50 && |message| <= 500 && |role| <= 50
    && createdAt <= now + FiveMinutes
  }

  /** ValidateParameters, with `now` the clock reading: the three Guids, then the three texts for
      blankness, then their lengths, then the creation date against five minutes from now. It passes
      exactly for valid fields and otherwise reports the first broken rule in that order: once the
      rules before it hold, each rule is broken exactly when its message is the one reported. */
  function Validate(id: Guid, reportId: Guid, authorId: Guid, avatarColor: string, message: string, role: string,
                    createdAt: Time, now: Time): (c: Check)
    ensures c.Pass? <==> ValidCommentFields(id, reportId, authorId, avatarColor, message, role, createdAt, now)
    ensures id == EmptyGuid <==> c == Fail(IdRequired)
    ensures id != EmptyGuid ==> (reportId == EmptyGuid <==> c == Fail(ReportIdRequired))
    ensures id != EmptyGuid && reportId != EmptyGuid ==> (authorId == EmptyGuid <==> c == Fail(AuthorIdRequired))
    ensures id != EmptyGuid && reportId != EmptyGuid && authorId != EmptyGuid
            ==> (IsBlank(avatarColor) <==> c == Fail(AvatarColorRequired))
    ensures id != EmptyGuid && reportId != EmptyGuid && authorId != EmptyGuid && !IsBlank(avatarColor)
            ==> (IsBlank(message) <==> c == Fail(MessageRequired))
    ensures id != EmptyGuid && reportId != EmptyGuid && authorId != EmptyGuid && !IsBlank(avatarColor)
            && !IsBlank(message)
            ==> (IsBlank(role) <==> c == Fail(RoleRequired))
    ensures id != EmptyGuid && reportId != EmptyGuid && authorId != EmptyGuid
            && !IsBlank(avatarColor) && !IsBlank(message) && !IsBlank(role)
            ==> (|avatarColor| > 50 <==> c == Fail(AvatarColorTooLong))
    ensures id != EmptyGuid && reportId != EmptyGuid && authorId != EmptyGuid
            && !IsBlank(avatarColor) && !IsBlank(message) && !IsBlank(role) && |avatarColor| <= 50
            ==> (|message| > 500 <==> c == Fail(MessageTooLong))
    ensures id != EmptyGuid && reportId != EmptyGuid && authorId != EmptyGuid
            && !IsBlank(avatarColor) && !IsBlank(message) && !IsBlank(role) && |avatarColor| <= 50 && |message| <= 500
            ==> (|role| > 50 <==> c == Fail(RoleTooLong))
    ensures id != EmptyGuid && reportId != EmptyGuid && authorId != EmptyGuid
            && !IsBlank(avatarColor) && !IsBlank(message) && !IsBlank(role)
            && |avatarColor| <= 50 && |message| <= 500 && |role| <= 50
            ==> (createdAt > now + FiveMinutes <==> c == Fail(FutureDate))
  {
    if id == EmptyGuid then Fail(IdRequired)
    else if reportId == EmptyGuid then Fail(ReportIdRequired)
    else if authorId == EmptyGuid then Fail(AuthorIdRequired)
    else if IsBlank(avatarColor) then Fail(AvatarColorRequired)
    else if IsBlank(message) then Fail(MessageRequired)
    else if IsBlank(role) then Fail(RoleRequired)
    else if |avatarColor| > 50 then Fail(AvatarColorTooLong)
    else if |message| > 500 then Fail(MessageTooLong)
    else if |role| > 50 then Fail(RoleTooLong)
    else if createdAt > now + FiveMinutes then Fail(FutureDate)
    else Pass
  }

  /** A text of `n` copies of one letter. */
  function Repeat(c: char, n: nat): (s: string)
    ensures |s| == n && forall i :: 0 <= i < n ==> s[i] == c
  {
    seq(n, _ => c)
  }

  /** The entity's unit tests through Create: the valid comment, the three blank texts, and the
      message bound, where 500 characters pass and 501 fail with the message-length error. */
  lemma ValidateTestInputs(id: Guid, reportId: Guid, authorId: Guid, now: Time)
    requires id != EmptyGuid && reportId != EmptyGuid && authorId != EmptyGuid
    ensures Validate(id, reportId, authorId, "red", "This is a comment", "user", now, now).Pass?
    ensures Validate(id, reportId, authorId, "", "Message", "user", now, now) == Fail(AvatarColorRequired)
    ensures Validate(id, reportId, authorId, "Avatar", "", "user", now, now) == Fail(MessageRequired)
    ensures Validate(id, reportId, authorId, "Avatar", "Message", "", now, now) == Fail(RoleRequired)
    ensures Validate(id, reportId, authorId, "red", Repeat('A', 500), "user", now, now).Pass?
    ensures Validate(id, reportId, authorId, "red", Repeat('A', 501), "user", now, now) == Fail(MessageTooLong)
  {
    assert !IsWhiteSpace("red"[0]) && !IsWhiteSpace("user"[0]) && !IsWhiteSpace("This is a comment"[0]);
    assert !IsWhiteSpace("Avatar"[0]) && !IsWhiteSpace("Message"[0]);
    assert !IsWhiteSpace(Repeat('A', 500)[0]) && !IsWhiteSpace(Repeat('A', 501)[0]);
  }

  // ---------------------------------------------------------------- the stored form

  /** A snapshot of a comment's fields. */
  datatype CommentState = CommentState(
    id: Guid, reportId: Guid, authorId: Guid, avatarColor: string, message: string, role: string, createdAt: Time)

  /** What the constructor leaves: real Guids and the three texts in normal form. */
  predicate Stored(c: CommentState) {
    c.id != EmptyGuid && c.reportId != EmptyGuid && c.authorId != EmptyGuid
    && Normal(c.avatarColor, 50) && Normal(c.message, 500) && Normal(c.role, 50)
  }

  /** The private constructor once ValidateParameters passed: the texts are trimmed. */
  function Constructed(id: Guid, reportId: Guid, authorId: Guid, avatarColor: string, message: string, role: string,
                       createdAt: Time): CommentState
  {
    CommentState(id, reportId, authorId, Trim(avatarColor), Trim(message), Trim(role), createdAt)
  }

  /** Fields that passed ValidateParameters are stored in normal form, under the given Guids and date. */
  lemma ConstructedIsStored(id: Guid, reportId: Guid, authorId: Guid, avatarColor: string, message: string, role: string,
                            createdAt: Time, now: Time)
    requires ValidCommentFields(id, reportId, authorId, avatarColor, message, role, createdAt, now)
    ensures var c := Constructed(id, reportId, authorId, avatarColor, message, role, createdAt);
            Stored(c) && c.id == id && c.reportId == reportId && c.authorId == authorId && c.createdAt == createdAt
  {
    NormalizeText(avatarColor, 50);
    NormalizeText(message, 500);
    NormalizeText(role, 50);
  }

  // ---------------------------------------------------------------- reading a document

  /** The author's Guid: the text of "authorId" looked up in `userMap`, or None when the key is
      absent or null or the Firebase id is not mapped. The map is only read. */
  function ResolveAuthor(data: Data, userMap: map<string, Guid>): (a: Option<Guid>)
    ensures a.Some? <==> "authorId" in data && !data["authorId"].Null? && Render(data["authorId"]).value in userMap
    ensures a.Some? ==> a.value == userMap[Render(data["authorId"]).value] && a.value in userMap.Values
  {
    match Render(Get(data, "authorId", Null))
    case None => None
    case Some(k) => if k in userMap then Some(userMap[k]) else None
  }

  /** FromFirestore for the comment document `doc` of the report `reportId`, under the fresh Guid
      `id` and the clock `now`: an unresolved author becomes Guid.Empty, absent texts are empty. */
  function NewComment(doc: Document, reportId: Guid, userMap: map<string, Guid>, id: Guid, now: Time): (r: Result<CommentState>)
    ensures var a := ResolveAuthor(doc.data, userMap);
            var v := Validate(id, reportId, if a.Some? then a.value else EmptyGuid, TextOr(doc.data, "avatarColor", ""),
                              TextOr(doc.data, "message", ""), TextOr(doc.data, "role", ""),
                              ParseDate(Get(doc.data, "createdAt", Null), now), now);
            (r.Ok? <==> v.Pass?) && (v.Fail? ==> r == Err(v.message))
    ensures r.Ok? ==> Stored(r.value) && r.value.id == id && r.value.reportId == reportId
    ensures r.Ok? ==> ResolveAuthor(doc.data, userMap) == Some(r.value.authorId)
    ensures r.Ok? ==> && r.value.avatarColor == Trim(TextOr(doc.data, "avatarColor", ""))
                      && r.value.message == Trim(TextOr(doc.data, "message", ""))
                      && r.value.role == Trim(TextOr(doc.data, "role", ""))
                      && r.value.createdAt == ParseDate(Get(doc.data, "createdAt", Null), now)
    ensures r.Ok? ==> r.value.createdAt <= now + FiveMinutes
  {
    var a := ResolveAuthor(doc.data, userMap);
    var authorId := if a.Some? then a.value else EmptyGuid;
    var avatarColor := TextOr(doc.data, "avatarColor", "");
    var message := TextOr(doc.data, "message", "");
    var role := TextOr(doc.data, "role", "");
    var createdAt := ParseDate(Get(doc.data, "createdAt", Null), now);
    var v := Validate(id, reportId, authorId, avatarColor, message, role, createdAt, now);
    if v.Fail? then Err(v.message)
    else
      ConstructedIsStored(id, reportId, authorId, avatarColor, message, role, createdAt, now);
      Ok(Constructed(id, reportId, authorId, avatarColor, message, role, createdAt))
  }

  /** A comment whose author cannot be resolved never exists: FromFirestore throws the author error. */
  lemma UnresolvedAuthorRejected(doc: Document, reportId: Guid, userMap: map<string, Guid>, id: Guid, now: Time)
    requires id != EmptyGuid && reportId != EmptyGuid
    requires ResolveAuthor(doc.data, userMap).None?
    ensures NewComment(doc, reportId, userMap, id, now) == Err(AuthorIdRequired)
  {
  }

  /** A document with only a resolvable author and no texts reads as three empty texts, and the
      first of them is rejected. */
  lemma TextlessDocumentRejected(doc: Document, reportId: Guid, userMap: map<string, Guid>, id: Guid, now: Time)
    requires id != EmptyGuid && reportId != EmptyGuid
    requires var a := ResolveAuthor(doc.data, userMap); a.Some? && a.value != EmptyGuid
    requires "avatarColor" !in doc.data
    ensures NewComment(doc, reportId, userMap, id, now) == Err(AvatarColorRequired)
  {
    assert TextOr(doc.data, "avatarColor", "") == "";
  }

  // ---------------------------------------------------------------- updating from a document

  /** UpdateFromFirestore: a resolved author replaces the current one, the three texts are assigned
      untrimmed with the current values as fallbacks, the creation date is parsed again, and only
      then are the new fields validated, against the clock `now`. */
  function UpdateComment(c: CommentState, data: Data, userMap: map<string, Guid>, now: Time): (u: Outcome<CommentState>)
    ensures u.state.id == c.id && u.state.reportId == c.reportId
  {
    var a := ResolveAuthor(data, userMap);
    var w := c.(authorId := if a.Some? then a.value else c.authorId,
                avatarColor := TextOr(data, "avatarColor", c.avatarColor),
                message := TextOr(data, "message", c.message),
                role := TextOr(data, "role", c.role),
                createdAt := ParseDate(Get(data, "createdAt", Null), now));
    Outcome(Validate(w.id, w.reportId, w.authorId, w.avatarColor, w.message, w.role, w.createdAt, now), w)
  }

  /** Whatever the outcome, an update keeps the author when it is unresolved and every text whose
      key is absent, and re-reads the creation date, which an absent key sets to the clock. */
  lemma UpdateKeepsAbsentFields(c: CommentState, data: Data, userMap: map<string, Guid>, now: Time)
    ensures var w := UpdateComment(c, data, userMap, now).state;
            && (ResolveAuthor(data, userMap).None? ==> w.authorId == c.authorId)
            && ("avatarColor" !in data ==> w.avatarColor == c.avatarColor)
            && ("message" !in data ==> w.message == c.message)
            && ("role" !in data ==> w.role == c.role)
            && ("createdAt" !in data ==> w.createdAt == now)
  {
  }

  /** An update passes exactly when the fields it left behind validate; a rejected update still
      leaves them in place. */
  lemma UpdateValidatesWhatItAssigned(c: CommentState, data: Data, userMap: map<string, Guid>, now: Time)
    ensures var u := UpdateComment(c, data, userMap, now);
            var w := u.state;
            u.check.Pass? <==> ValidCommentFields(w.id, w.reportId, w.authorId, w.avatarColor, w.message, w.role, w.createdAt, now)
  {
  }

  /** An update that empties the message of a stored comment throws, yet the empty message and the
      re-read creation date are already in place. */
  lemma RejectedUpdateKeepsAssignments(c: CommentState, now: Time)
    requires Stored(c)
    ensures UpdateComment(c, map["message" := Str("")], map[], now)
            == Outcome(Fail(MessageRequired), c.(message := "", createdAt := now))
  {
    NormalIsNotBlank(c.avatarColor, 50);
  }

  /** Unlike the constructor, an update does not trim: a padded message is stored as it came. */
  lemma UpdateDoesNotTrim(c: CommentState, now: Time)
    requires Stored(c)
    ensures var u := UpdateComment(c, map["message" := Str(" hi ")], map[], now);
            u.check.Pass? && u.state.message == " hi " && Trim(" hi ") == "hi"
  {
    NormalIsNotBlank(c.avatarColor, 50);
    NormalIsNotBlank(c.role, 50);
    assert !IsWhiteSpace(" hi "[1]);
    assert TrimStart(" hi ") == "hi ";
  }

  // ---------------------------------------------------------------- the entity

  class Comment {
    const id: Guid
    const reportId: Guid
    var authorId: Guid
    var avatarColor: string
    var message: string
    var role: string
    var createdAt: Time

    function State(): CommentState
      reads this
    {
      CommentState(id, reportId, authorId, avatarColor, message, role, createdAt)
    }

    /** The private constructor: ValidateParameters against the clock `now`, then trimmed texts. */
    constructor (id: Guid, reportId: Guid, authorId: Guid, avatarColor: string, message: string, role: string,
                 createdAt: Time, now: Time)
      requires Validate(id, reportId, authorId, avatarColor, message, role, createdAt, now).Pass?
      ensures State() == Constructed(id, reportId, authorId, avatarColor, message, role, createdAt)
      ensures Stored(State())
    {
      this.id := id;
      this.reportId := reportId;
      this.authorId := authorId;
      this.avatarColor := Trim(avatarColor);
      this.message := Trim(message);
      this.role := Trim(role);
      this.createdAt := createdAt;
      new;
      ConstructedIsStored(id, reportId, authorId, avatarColor, message, role, createdAt, now);
    }

    /** `new Comment(...)` as a call that may throw: the comment exists exactly when validation passes. */
    static method New(id: Guid, reportId: Guid, authorId: Guid, avatarColor: string, message: string, role: string,
                      createdAt: Time, now: Time) returns (r: Result<Comment>)
      ensures var v := Validate(id, reportId, authorId, avatarColor, message, role, createdAt, now);
              (r.Ok? <==> v.Pass?) && (v.Fail? ==> r == Err(v.message))
      ensures r.Ok? ==> fresh(r.value) && Stored(r.value.State())
      ensures r.Ok? ==> r.value.State() == Constructed(id, reportId, authorId, avatarColor, message, role, createdAt)
    {
      var v := Validate(id, reportId, authorId, avatarColor, message, role, createdAt, now);
      if v.Fail? {
        return Err(v.message);
      }
      var comment := new Comment(id, reportId, authorId, avatarColor, message, role, createdAt, now);
      return Ok(comment);
    }

    /** Create, with `id` the fresh Guid and `now` the clock, which is also the creation date: the
        date check always passes, so the Guids and the texts alone decide. */
    static method Create(reportId: Guid, authorId: Guid, avatarColor: string, message: string, role: string,
                         id: Guid, now: Time) returns (r: Result<Comment>)
      requires id != EmptyGuid
      ensures r.Ok? <==> ValidCommentFields(id, reportId, authorId, avatarColor, message, role, now, now)
      ensures r.Err? ==> r.message == Validate(id, reportId, authorId, avatarColor, message, role, now, now).message
      ensures r.Ok? ==> fresh(r.value)
      ensures r.Ok? ==> r.value.State() == CommentState(id, reportId, authorId, Trim(avatarColor), Trim(message), Trim(role), now)
    {
      r := New(id, reportId, authorId, avatarColor, message, role, now, now);
    }

    /** FromFirestore for the comment document `doc` of the report `reportId`; the map from
        Firebase ids to user Guids is only read. */
    static method FromFirestore(doc: Document, reportId: Guid, userMap: map<string, Guid>, id: Guid, now: Time)
      returns (r: Result<Comment>)
      ensures r.Ok? <==> NewComment(doc, reportId, userMap, id, now).Ok?
      ensures r.Err? ==> NewComment(doc, reportId, userMap, id, now) == Err(r.message)
      ensures r.Ok? ==> fresh(r.value) && NewComment(doc, reportId, userMap, id, now) == Ok(r.value.State())
    {
      var a := ResolveAuthor(doc.data, userMap);
      var authorId := EmptyGuid;
      if a.Some? {
        authorId := a.value;
      }
      r := New(id, reportId, authorId, TextOr(doc.data, "avatarColor", ""), TextOr(doc.data, "message", ""),
               TextOr(doc.data, "role", ""), ParseDate(Get(doc.data, "createdAt", Null), now), now);
    }

    /** UpdateFromFirestore with the clock `now`: the fields are assigned one by one and validated last. */
    method UpdateFromFirestore(doc: Document, userMap: map<string, Guid>, now: Time) returns (c: Check)
      modifies this
      ensures Outcome(c, State()) == UpdateComment(old(State()), doc.data, userMap, now)
    {
      var a := ResolveAuthor(doc.data, userMap);
      if a.Some? {
        authorId := a.value;
      }
      avatarColor := TextOr(doc.data, "avatarColor", avatarColor);
      message := TextOr(doc.data, "message", message);
      role := TextOr(doc.data, "role", role);
      createdAt := ParseDate(Get(doc.data, "createdAt", Null), now);
      c := Validate(id, reportId, authorId, avatarColor, message, role, createdAt, now);
    }
  }
}
