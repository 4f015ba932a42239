/** The User entity: its guard chains, its Firestore reading and the class whose mutators
    update a stored user in place. */
module Users {
  import opened Guards
  import opened Text
  import opened Documents

  // ---------------------------------------------------------------- guard chains

  const InvalidId := "Invalid Id."
  const NameRequired := "DisplayName is required."
  const NameTooLong := "DisplayName must have a maximum of 100 characters."
  const EmailRequired := "Email is required."
  const EmailInvalid := "Email must be valid."
  const EmailTooLong := "Email must have a maximum of 150 characters."
  const PhotoTooLong := "PhotoUrl must have a maximum of 255 characters."
  const RegionTooLong := "Region must have a maximum of 100 characters."
  const RoleRequired := "Role is required."
  const RoleTooLong := "Role must have a maximum of 50 characters."
  const StatusRequired := "Status is required."
  const StatusTooLong := "Status must have a maximum of 50 characters."
  const CreatedAtRequired := "CreatedAt must be set."
  const NegativeScore := "Score cannot be negative."
  const NegativeReportCount := "ReportCount cannot be negative."

  predicate ValidProfile(displayName: string, email: string, photoUrl: Option<string>, region: Option<string>) {
    !IsBlank(displayName) && |displayName| <= 100
    && !IsBlank(email) && IsEmailAddress(email) && |email| <= 150
    && (photoUrl.Some? ==> |photoUrl.value| <= 255)
    && (region.Some? ==> |region.value| <= 100)
  }

  /** The part of a valid profile that the stored form relies on: everything but the e-mail's shape. */
  predicate ProfileFits(v: UserFields) {
    !IsBlank(v.displayName) && |v.displayName| <= 100 && !IsBlank(v.email) && |v.email| <= 150
    && (v.photoUrl.Some? ==> |v.photoUrl.value| <= 255) && (v.region.Some? ==> |v.region.value| <= 100)
  }

  /** A role or status text: not blank and at most 50 characters. */
  predicate ValidLabel(s: string) {
    !IsBlank(s) && |s| <= 50
  }

  predicate ValidUserFields(id: Guid, displayName: string, email: string, photoUrl: Option<string>, region: Option<string>,
                            role: string, status: string, createdAt: Time) {
    id != EmptyGuid && ValidProfile(displayName, email, photoUrl, region)
    && ValidLabel(role) && ValidLabel(status) && createdAt != DefaultTime
  }

  /** UpdateProfile's guard chain: it passes exactly for a valid profile, and otherwise reports the
      first broken rule in source order: once the rules before it hold, each rule is broken exactly
      when its message is the one reported. A present e-mail without an '@' is reported as invalid. */
  function ProfileCheck(displayName: string, email: string, photoUrl: Option<string>, region: Option<string>): (c: Check)
    ensures c.Pass? <==> ValidProfile(displayName, email, photoUrl, region)
    ensures IsBlank(displayName) <==> c == Fail(NameRequired)
    ensures !IsBlank(displayName) ==> (|displayName| > 100 <==> c == Fail(NameTooLong))
    ensures !IsBlank(displayName) && |displayName| <= 100 ==> (IsBlank(email) <==> c == Fail(EmailRequired))
    ensures !IsBlank(displayName) && |displayName| <= 100 && !IsBlank(email)
            ==> (!IsEmailAddress(email) <==> c == Fail(EmailInvalid))
    ensures !IsBlank(displayName) && |displayName| <= 100 && !IsBlank(email) && IsEmailAddress(email)
            ==> (|email| > 150 <==> c == Fail(EmailTooLong))
    ensures !IsBlank(displayName) && |displayName| <= 100 && !IsBlank(email) && IsEmailAddress(email) && |email| <= 150
            ==> (photoUrl.Some? && |photoUrl.value| > 255 <==> c == Fail(PhotoTooLong))
    ensures !IsBlank(displayName) && |displayName| <= 100 && !IsBlank(email) && IsEmailAddress(email) && |email| <= 150
            && (photoUrl.Some? ==> |photoUrl.value| <= 255)
            ==> (region.Some? && |region.value| > 100 <==> c == Fail(RegionTooLong))
    ensures !IsBlank(displayName) && |displayName| <= 100 && !IsBlank(email) && '@' !in email ==> c == Fail(EmailInvalid)
  {
    if IsBlank(displayName) then Fail(NameRequired)
    else if |displayName| > 100 then Fail(NameTooLong)
    else if IsBlank(email) then Fail(EmailRequired)
    else if !IsEmailAddress(email) then Fail(EmailInvalid)
    else if |email| > 150 then Fail(EmailTooLong)
    else if photoUrl.Some? && |photoUrl.value| > 255 then Fail(PhotoTooLong)
    else if region.Some? && |region.value| > 100 then Fail(RegionTooLong)
    else Pass
  }

  /** ChangeRole's guard chain. */
  function RoleCheck(role: string): (c: Check)
    ensures c.Pass? <==> ValidLabel(role)
    ensures c.Fail? ==> c.message == (if IsBlank(role) then RoleRequired else RoleTooLong)
  {
    if IsBlank(role) then Fail(RoleRequired)
    else if |role| > 50 then Fail(RoleTooLong)
    else Pass
  }

  /** ChangeStatus's guard chain. */
  function StatusCheck(status: string): (c: Check)
    ensures c.Pass? <==> ValidLabel(status)
    ensures c.Fail? ==> c.message == (if IsBlank(status) then StatusRequired else StatusTooLong)
  {
    if IsBlank(status) then Fail(StatusRequired)
    else if |status| > 50 then Fail(StatusTooLong)
    else Pass
  }

  /** SetStats's guard chain: both counters must be non-negative, the score is checked first. */
  function StatsCheck(score: int, reportCount: int): (c: Check)
    ensures c.Pass? <==> score >= 0 && reportCount >= 0
    ensures score < 0 ==> c == Fail(NegativeScore)
    ensures score >= 0 && reportCount < 0 ==> c == Fail(NegativeReportCount)
  {
    if score < 0 then Fail(NegativeScore)
    else if reportCount < 0 then Fail(NegativeReportCount)
    else Pass
  }

  /** User.Validate: passes exactly for valid fields. An empty id is reported before anything else;
      then the first failure of UpdateProfile's, ChangeRole's and ChangeStatus's chains, in that
      order, is reported as they report it; the creation date is checked last. */
  function Validate(id: Guid, displayName: string, email: string, photoUrl: Option<string>, region: Option<string>,
                    role: string, status: string, createdAt: Time): (c: Check)
    ensures c.Pass? <==> ValidUserFields(id, displayName, email, photoUrl, region, role, status, createdAt)
    ensures id == EmptyGuid <==> c == Fail(InvalidId)
    ensures id != EmptyGuid && ProfileCheck(displayName, email, photoUrl, region).Fail?
            ==> c == ProfileCheck(displayName, email, photoUrl, region)
    ensures id != EmptyGuid && ValidProfile(displayName, email, photoUrl, region) && RoleCheck(role).Fail?
            ==> c == RoleCheck(role)
    ensures id != EmptyGuid && ValidProfile(displayName, email, photoUrl, region) && ValidLabel(role) && StatusCheck(status).Fail?
            ==> c == StatusCheck(status)
    ensures id != EmptyGuid && ValidProfile(displayName, email, photoUrl, region) && ValidLabel(role) && ValidLabel(status)
            ==> (createdAt == DefaultTime <==> c == Fail(CreatedAtRequired))
  {
    if id == EmptyGuid then Fail(InvalidId)
    else if IsBlank(displayName) then Fail(NameRequired)
    else if |displayName| > 100 then Fail(NameTooLong)
    else if IsBlank(email) then Fail(EmailRequired)
    else if !IsEmailAddress(email) then Fail(EmailInvalid)
    else if |email| > 150 then Fail(EmailTooLong)
    else if photoUrl.Some? && photoUrl.value != "" && |photoUrl.value| > 255 then Fail(PhotoTooLong)
    else if region.Some? && region.value != "" && |region.value| > 100 then Fail(RegionTooLong)
    else if IsBlank(role) then Fail(RoleRequired)
    else if |role| > 50 then Fail(RoleTooLong)
    else if IsBlank(status) then Fail(StatusRequired)
    else if |status| > 50 then Fail(StatusTooLong)
    else if createdAt == DefaultTime then Fail(CreatedAtRequired)
    else Pass
  }

  /** Validate runs the id check, then exactly the checks of UpdateProfile, ChangeRole and
      ChangeStatus with the same messages in the same order, then the creation date check. */
  lemma ValidateIsMutatorChecks(id: Guid, displayName: string, email: string, photoUrl: Option<string>, region: Option<string>,
                                role: string, status: string, createdAt: Time)
    ensures Validate(id, displayName, email, photoUrl, region, role, status, createdAt)
         == if id == EmptyGuid then Fail(InvalidId)
            else if ProfileCheck(displayName, email, photoUrl, region).Fail? then ProfileCheck(displayName, email, photoUrl, region)
            else if RoleCheck(role).Fail? then RoleCheck(role)
            else if StatusCheck(status).Fail? then StatusCheck(status)
            else if createdAt == DefaultTime then Fail(CreatedAtRequired)
            else Pass
  {
  }

  /** The constructor's three rejected inputs of the entity's unit tests, with their messages. */
  lemma ValidateRejectsTestInputs(id: Guid, createdAt: Time)
    requires id != EmptyGuid && createdAt != DefaultTime
    ensures Validate(id, "", "john@example.com", None, None, "user", "active", createdAt) == Fail(NameRequired)
    ensures Validate(id, "John", "", None, None, "user", "active", createdAt) == Fail(EmailRequired)
    ensures Validate(id, "John", "invalid-email", None, None, "user", "active", createdAt) == Fail(EmailInvalid)
  {
    assert !IsWhiteSpace("John"[0]);
    assert !IsWhiteSpace("invalid-email"[0]);
    assert '@' !in "invalid-email";
  }

  // ---------------------------------------------------------------- stored form

  /** The stored e-mail (trimmed, then lower-cased) is normal and in lower case. */
  lemma NormalizeEmail(s: string)
    requires !IsBlank(s) && |s| <= 150
    ensures Normal(ToLower(Trim(s)), 150) && IsLower(ToLower(Trim(s)))
  {
    NormalizeText(s, 150);
    LowerIsLower(Trim(s));
  }

  /** A snapshot of a user's fields. */
  datatype UserState = UserState(
    id: Guid, firebaseId: string, displayName: string, email: string,
    photoUrl: Option<string>, region: Option<string>, reportCount: Int32, role: string,
    score: Int32, status: string, verified: bool, createdAt: Time, lastLoginAt: Time)

  /** What every stored user satisfies, whichever mutators ran and whether they threw: a real id,
      a trimmed Firebase id, the profile, role and status in normal form, non-negative counters. */
  predicate Stored(u: UserState) {
    u.id != EmptyGuid && IsTrimmed(u.firebaseId)
    && Normal(u.displayName, 100) && Normal(u.email, 150) && IsLower(u.email)
    && NormalOptional(u.photoUrl, 255) && NormalOptional(u.region, 100)
    && Normal(u.role, 50) && Normal(u.status, 50)
    && u.score >= 0 && u.reportCount >= 0
  }

  /** Re-validating a stored user checks only what the stored form does not guarantee:
      the e-mail's shape and the creation date. */
  lemma RevalidateStored(u: UserState)
    requires Stored(u)
    ensures Validate(u.id, u.displayName, u.email, u.photoUrl, u.region, u.role, u.status, u.createdAt).Pass?
        <==> IsEmailAddress(u.email) && u.createdAt != DefaultTime
  {
    NormalIsNotBlank(u.displayName, 100);
    NormalIsNotBlank(u.email, 150);
    NormalIsNotBlank(u.role, 50);
    NormalIsNotBlank(u.status, 50);
  }

  /** " @x" has one '@', neither first nor last, so it passes the e-mail check. */
  lemma SpacedAddressAccepted()
    ensures IsEmailAddress(" @x") && !IsBlank(" @x")
  {
    var e := " @x";
    assert e[0] == ' ' && e[1] == '@' && e[2] == 'x';
    assert e[1..] == "@x";
    assert e[..2] == " @";
    assert IndexOf("@x", '@') == 0;
    assert LastIndexOf(" @", '@') == 1;
    assert !IsWhiteSpace(e[1]);
  }

  /** The stored form of " @x" is "@x". */
  lemma SpacedAddressStored()
    ensures ToLower(Trim(" @x")) == "@x"
  {
    var e := " @x";
    assert IsWhiteSpace(e[0]) && e[1..] == "@x";
    assert TrimStart(e) == TrimStart("@x");
    assert TrimStart("@x") == "@x";
    assert TrimEnd("@x") == "@x";
    assert ToLower("@x")[0] == '@' && ToLower("@x")[1] == 'x';
    assert ToLower("@x") == "@x";
  }

  /** "@x" starts with its '@', so it fails the e-mail check. */
  lemma LeadingAtRejected()
    ensures !IsEmailAddress("@x") && !IsBlank("@x")
  {
    assert IndexOf("@x", '@') == 0;
    assert !IsWhiteSpace("@x"[1]);
  }

  /** Validation sees the raw e-mail but the trimmed one is stored: " @x" passes every profile
      check, yet its stored form "@x" fails the e-mail check when the user is validated again. */
  lemma StoredEmailCanFailRevalidation()
    ensures ProfileCheck("Ana", " @x", None, None).Pass?
    ensures ToLower(Trim(" @x")) == "@x"
    ensures ProfileCheck("Ana", "@x", None, None) == Fail(EmailInvalid)
  {
    SpacedAddressAccepted();
    SpacedAddressStored();
    LeadingAtRejected();
    assert !IsWhiteSpace("Ana"[0]);
  }

  // ---------------------------------------------------------------- reading a document

  /** The values UpdateProfile, ChangeRole, ChangeStatus and SetStats receive. */
  datatype UserFields = UserFields(
    displayName: string, email: string, photoUrl: Option<string>, region: Option<string>,
    role: string, status: string, score: Int32, reportCount: Int32, verified: bool)

  /** The fallbacks FromFirestore uses for absent fields. */
  const NewUserDefaults := UserFields("", "", Some(""), Some(""), "user", "active", 0, 0, false)

  /** The field reading shared by FromFirestore and UpdateFromFirestore: each absent field takes its
      fallback; a null text field takes its fallback too, except the two nullable ones, which
      become None; the counters and the flag go through Convert and can throw, in that order. */
  function ReadUser(data: Data, fallback: UserFields): (r: Result<UserFields>)
    ensures r.Ok? <==> (ToInt32(Get(data, "score", Int(fallback.score))).Ok?
                        && ToInt32(Get(data, "reportCount", Int(fallback.reportCount))).Ok?
                        && ToBoolean(Get(data, "verified", Bool(fallback.verified))).Ok?)
    ensures r.Err? && ToInt32(Get(data, "score", Int(fallback.score))).Err?
            ==> r.message == ToInt32(Get(data, "score", Int(fallback.score))).message
    ensures r.Ok? ==>
      && r.value.displayName == TextOr(data, "displayName", fallback.displayName)
      && r.value.email == TextOr(data, "email", fallback.email)
      && r.value.photoUrl == OptionalTextOr(data, "photoURL", fallback.photoUrl)
      && r.value.region == OptionalTextOr(data, "region", fallback.region)
      && r.value.role == TextOr(data, "role", fallback.role)
      && r.value.status == TextOr(data, "status", fallback.status)
    ensures r.Ok? ==> (("score" !in data ==> r.value.score == fallback.score)
                       && ("reportCount" !in data ==> r.value.reportCount == fallback.reportCount)
                       && ("verified" !in data ==> r.value.verified == fallback.verified))
  {
    match ToInt32(Get(data, "score", Int(fallback.score)))
    case Err(m) => Err(m)
    case Ok(score) =>
      match ToInt32(Get(data, "reportCount", Int(fallback.reportCount)))
      case Err(m) => Err(m)
      case Ok(reportCount) =>
        match ToBoolean(Get(data, "verified", Bool(fallback.verified)))
        case Err(m) => Err(m)
        case Ok(verified) =>
          Ok(UserFields(
            TextOr(data, "displayName", fallback.displayName),
            TextOr(data, "email", fallback.email),
            OptionalTextOr(data, "photoURL", fallback.photoUrl),
            OptionalTextOr(data, "region", fallback.region),
            TextOr(data, "role", fallback.role),
            TextOr(data, "status", fallback.status),
            score, reportCount, verified))
  }

  /** A document with none of the user fields reads as the defaults: role "user", status "active",
      zero counters, not verified, and empty texts that the name check then rejects. */
  lemma EmptyDocumentReadsDefaults(now: Time, id: Guid)
    requires id != EmptyGuid
    ensures ReadUser(map[], NewUserDefaults) == Ok(NewUserDefaults)
    ensures Validate(id, "", "", Some(""), Some(""), "user", "active", now) == Fail(NameRequired)
  {
  }

  /** FromFirestore as a value: the fields read with the new-user defaults, the validating
      constructor under `freshId` with `now` as its clock, then the Firebase id, the stats check and
      the last login date, which is kept at `now` when the document's reads as the default. */
  function NewUser(doc: Document, freshId: Guid, now: Time): (r: Result<UserState>)
    ensures var f := ReadUser(doc.data, NewUserDefaults);
            var createdAt := ParseDate(Get(doc.data, "createdAt", Null), now);
            r.Ok? <==> f.Ok? && Validate(freshId, f.value.displayName, f.value.email, f.value.photoUrl, f.value.region,
                                         f.value.role, f.value.status, createdAt).Pass?
                             && StatsCheck(f.value.score, f.value.reportCount).Pass?
    ensures r.Ok? ==> Stored(r.value) && r.value.id == freshId
    ensures r.Ok? ==> r.value.firebaseId == if IsBlank(doc.id) then "" else Trim(doc.id)
  {
    match ReadUser(doc.data, NewUserDefaults)
    case Err(m) => Err(m)
    case Ok(f) =>
      var createdAt := ParseDate(Get(doc.data, "createdAt", Null), now);
      var lastLoginAt := ParseDate(Get(doc.data, "lastLoginAt", Null), now);
      var v := Validate(freshId, f.displayName, f.email, f.photoUrl, f.region, f.role, f.status, createdAt);
      if v.Fail? then Err(v.message)
      else if StatsCheck(f.score, f.reportCount).Fail? then Err(StatsCheck(f.score, f.reportCount).message)
      else
        NormalizeText(f.displayName, 100);
        NormalizeEmail(f.email);
        NormalizeText(f.role, 50);
        NormalizeText(f.status, 50);
        Ok(UserState(freshId, if IsBlank(doc.id) then "" else Trim(doc.id), Trim(f.displayName), ToLower(Trim(f.email)),
                     TrimOptional(f.photoUrl), TrimOptional(f.region), f.reportCount, Trim(f.role), f.score,
                     Trim(f.status), f.verified, createdAt, if lastLoginAt == DefaultTime then now else lastLoginAt))
  }

  // ---------------------------------------------------------------- updating from a document

  /** The values that leave a user as it is when handed to the mutators. */
  function FieldsOf(u: UserState): UserFields {
    UserFields(u.displayName, u.email, u.photoUrl, u.region, u.role, u.status, u.score, u.reportCount, u.verified)
  }

  /** What UpdateProfile stores for checked values. */
  function WithProfile(u: UserState, v: UserFields): (w: UserState)
    ensures w.id == u.id && w.firebaseId == u.firebaseId && w.role == u.role && w.status == u.status
    ensures w.score == u.score && w.reportCount == u.reportCount && w.verified == u.verified
    ensures w.createdAt == u.createdAt && w.lastLoginAt == u.lastLoginAt
  {
    u.(displayName := Trim(v.displayName), email := ToLower(Trim(v.email)),
       photoUrl := TrimOptional(v.photoUrl), region := TrimOptional(v.region))
  }

  /** The mutator calls of UpdateFromFirestore on read values `v`: UpdateProfile, ChangeRole,
      ChangeStatus and SetStats, each of which may throw after the earlier ones took effect. */
  function MutatorSteps(u: UserState, v: UserFields): (r: Outcome<UserState>)
    ensures r.state.id == u.id && r.state.firebaseId == u.firebaseId
    ensures r.state.createdAt == u.createdAt && r.state.lastLoginAt == u.lastLoginAt
  {
    var profile := ProfileCheck(v.displayName, v.email, v.photoUrl, v.region);
    if profile.Fail? then Outcome(profile, u)
    else
      var u1 := WithProfile(u, v);
      if RoleCheck(v.role).Fail? then Outcome(RoleCheck(v.role), u1)
      else
        var u2 := u1.(role := Trim(v.role));
        if StatusCheck(v.status).Fail? then Outcome(StatusCheck(v.status), u2)
        else
          var u3 := u2.(status := Trim(v.status));
          if StatsCheck(v.score, v.reportCount).Fail? then Outcome(StatsCheck(v.score, v.reportCount), u3)
          else Outcome(Pass, u3.(score := v.score, reportCount := v.reportCount, verified := v.verified))
  }

  /** The rest of UpdateFromFirestore once the mutators returned: the creation date is assigned,
      the last login date unless it is the default, and the stored fields are validated again. */
  function ApplyUpdate(u: UserState, v: UserFields, createdAt: Time, login: Time): (r: Outcome<UserState>)
    ensures r.state.id == u.id && r.state.firebaseId == u.firebaseId
  {
    var m := MutatorSteps(u, v);
    if m.check.Fail? then m
    else
      var w := m.state.(createdAt := createdAt, lastLoginAt := if login == DefaultTime then u.lastLoginAt else login);
      Outcome(Validate(w.id, w.displayName, w.email, w.photoUrl, w.region, w.role, w.status, w.createdAt), w)
  }

  /** UpdateFromFirestore: read the fields with the current values as fallbacks (a conversion may
      throw before anything changed), then apply the mutator steps. */
  function UpdateUser(u: UserState, data: Data, now: Time): (r: Outcome<UserState>)
    ensures r.state.id == u.id && r.state.firebaseId == u.firebaseId
  {
    match ReadUser(data, FieldsOf(u))
    case Err(m) => Outcome(Fail(m), u)
    case Ok(v) => ApplyUpdate(u, v, ParseDate(Get(data, "createdAt", Null), now), ParseDate(Get(data, "lastLoginAt", Null), now))
  }

  /** The profile step keeps the stored form. */
  lemma WithProfileKeepsStored(u: UserState, v: UserFields)
    requires Stored(u) && ProfileFits(v)
    ensures Stored(WithProfile(u, v))
  {
    NormalizeText(v.displayName, 100);
    NormalizeEmail(v.email);
  }

  /** Each mutator keeps the stored form, so their sequence does too, wherever it stops. */
  lemma MutatorsKeepStored(u: UserState, v: UserFields)
    requires Stored(u)
    ensures Stored(MutatorSteps(u, v).state)
  {
    var r := MutatorSteps(u, v);
    if ProfileCheck(v.displayName, v.email, v.photoUrl, v.region).Fail? {
      assert r.state == u;
    } else {
      var u1 := WithProfile(u, v);
      WithProfileKeepsStored(u, v);
      if RoleCheck(v.role).Fail? {
        assert r.state == u1;
      } else {
        NormalizeText(v.role, 50);
        var u2 := u1.(role := Trim(v.role));
        assert Stored(u2);
        if StatusCheck(v.status).Fail? {
          assert r.state == u2;
        } else {
          NormalizeText(v.status, 50);
          var u3 := u2.(status := Trim(v.status));
          assert Stored(u3);
          if StatsCheck(v.score, v.reportCount).Fail? {
            assert r.state == u3;
          } else {
            assert r.state == u3.(score := v.score, reportCount := v.reportCount, verified := v.verified);
          }
        }
      }
    }
  }

  lemma ApplyKeepsStored(u: UserState, v: UserFields, createdAt: Time, login: Time)
    requires Stored(u)
    ensures Stored(ApplyUpdate(u, v, createdAt, login).state)
  {
    MutatorsKeepStored(u, v);
  }

  /** An update, whether it succeeds or throws part-way, leaves a user in stored form. */
  lemma UpdateKeepsStored(u: UserState, data: Data, now: Time)
    requires Stored(u)
    ensures Stored(UpdateUser(u, data, now).state)
  {
    var f := ReadUser(data, FieldsOf(u));
    if f.Ok? {
      ApplyKeepsStored(u, f.value, ParseDate(Get(data, "createdAt", Null), now), ParseDate(Get(data, "lastLoginAt", Null), now));
    }
  }

  /** A successful update stored the document's values, each read with the current value as its
      fallback and normalised as the mutators do, and leaves a user that passes Validate. The last
      login date becomes the document's date unless that reads as the default. */
  lemma UpdateSuccess(u: UserState, data: Data, now: Time)
    requires UpdateUser(u, data, now).check.Pass?
    ensures ReadUser(data, FieldsOf(u)).Ok?
    ensures var w := UpdateUser(u, data, now).state;
            var v := ReadUser(data, FieldsOf(u)).value;
            var login := ParseDate(Get(data, "lastLoginAt", Null), now);
            && Validate(w.id, w.displayName, w.email, w.photoUrl, w.region, w.role, w.status, w.createdAt).Pass?
            && w.id == u.id && w.firebaseId == u.firebaseId
            && w.displayName == Trim(TextOr(data, "displayName", u.displayName))
            && w.email == ToLower(Trim(TextOr(data, "email", u.email)))
            && w.photoUrl == TrimOptional(OptionalTextOr(data, "photoURL", u.photoUrl))
            && w.region == TrimOptional(OptionalTextOr(data, "region", u.region))
            && w.role == Trim(TextOr(data, "role", u.role))
            && w.status == Trim(TextOr(data, "status", u.status))
            && w.score == v.score && w.reportCount == v.reportCount && w.verified == v.verified
            && w.createdAt == ParseDate(Get(data, "createdAt", Null), now)
            && w.lastLoginAt == (if login == DefaultTime then u.lastLoginAt else login)
  {
    var f := ReadUser(data, FieldsOf(u));
    assert f.Ok?;
    var v := f.value;
    var createdAt := ParseDate(Get(data, "createdAt", Null), now);
    var login := ParseDate(Get(data, "lastLoginAt", Null), now);
    var r := ApplyUpdate(u, v, createdAt, login);
    assert UpdateUser(u, data, now) == r;
    assert MutatorSteps(u, v).check.Pass?;
    assert ProfileCheck(v.displayName, v.email, v.photoUrl, v.region).Pass?;
    assert RoleCheck(v.role).Pass? && StatusCheck(v.status).Pass? && StatsCheck(v.score, v.reportCount).Pass?;
  }

  /** A successful update keeps every field whose key the document lacks, except the two dates:
      the creation date and the last login date both become the clock reading `now`. */
  lemma UpdateKeepsAbsentFields(u: UserState, data: Data, now: Time)
    requires Stored(u) && now != DefaultTime && UpdateUser(u, data, now).check.Pass?
    ensures var w := UpdateUser(u, data, now).state;
            && w.id == u.id && w.firebaseId == u.firebaseId
            && ("displayName" !in data ==> w.displayName == u.displayName)
            && ("email" !in data ==> w.email == u.email)
            && ("photoURL" !in data ==> w.photoUrl == u.photoUrl)
            && ("region" !in data ==> w.region == u.region)
            && ("role" !in data ==> w.role == u.role)
            && ("status" !in data ==> w.status == u.status)
            && ("score" !in data ==> w.score == u.score)
            && ("reportCount" !in data ==> w.reportCount == u.reportCount)
            && ("verified" !in data ==> w.verified == u.verified)
            && ("createdAt" !in data ==> w.createdAt == now)
            && ("lastLoginAt" !in data ==> w.lastLoginAt == now)
  {
    UpdateSuccess(u, data, now);
    StoredIsNormalized(u);
  }

  /** The update is not atomic: when the profile checks pass and the role check throws, the new
      profile has been stored all the same. */
  lemma UpdateNotAtomic(u: UserState, data: Data, now: Time)
    requires ReadUser(data, FieldsOf(u)).Ok?
    requires var v := ReadUser(data, FieldsOf(u)).value;
             ProfileCheck(v.displayName, v.email, v.photoUrl, v.region).Pass? && RoleCheck(v.role).Fail?
    ensures var r := UpdateUser(u, data, now);
            && r.check.Fail?
            && r.state.displayName == Trim(TextOr(data, "displayName", u.displayName))
            && r.state.email == ToLower(Trim(TextOr(data, "email", u.email)))
            && r.state.role == u.role
  {
    var v := ReadUser(data, FieldsOf(u)).value;
    assert UpdateUser(u, data, now).state == WithProfile(u, v);
  }

  /** A stored user's own fields pass the mutators' checks, provided its e-mail is well formed. */
  lemma StoredPassesChecks(u: UserState)
    requires Stored(u) && IsEmailAddress(u.email)
    ensures ProfileCheck(u.displayName, u.email, u.photoUrl, u.region).Pass?
    ensures RoleCheck(u.role).Pass? && StatusCheck(u.status).Pass? && StatsCheck(u.score, u.reportCount).Pass?
  {
    NormalIsNotBlank(u.displayName, 100);
    NormalIsNotBlank(u.email, 150);
    NormalIsNotBlank(u.role, 50);
    NormalIsNotBlank(u.status, 50);
  }

  /** Normalising a stored user's own fields gives them back. */
  lemma StoredIsNormalized(u: UserState)
    requires Stored(u)
    ensures WithProfile(u, FieldsOf(u)) == u && Trim(u.role) == u.role && Trim(u.status) == u.status
  {
    TrimmedIsFixed(u.displayName);
    TrimmedIsFixed(u.email);
    LowerOfLower(u.email);
    TrimmedIsFixed(u.role);
    TrimmedIsFixed(u.status);
    if u.photoUrl.Some? {
      TrimmedIsFixed(u.photoUrl.value);
    }
    if u.region.Some? {
      TrimmedIsFixed(u.region.value);
    }
  }

  /** A document that carries none of the user's fields changes nothing but the two dates, which
      both become the migration's clock reading `now`; the user must still hold a valid e-mail. */
  lemma EmptyDocumentResetsDates(u: UserState, now: Time)
    requires Stored(u) && IsEmailAddress(u.email) && now != DefaultTime
    ensures UpdateUser(u, map[], now) == Outcome(Pass, u.(createdAt := now, lastLoginAt := now))
  {
    assert ReadUser(map[], FieldsOf(u)) == Ok(FieldsOf(u));
    ApplyOwnFields(u, now, now);
  }

  /** Handing a stored user its own fields changes only the two dates. */
  lemma ApplyOwnFields(u: UserState, createdAt: Time, login: Time)
    requires Stored(u) && IsEmailAddress(u.email) && createdAt != DefaultTime && login != DefaultTime
    ensures ApplyUpdate(u, FieldsOf(u), createdAt, login) == Outcome(Pass, u.(createdAt := createdAt, lastLoginAt := login))
  {
    StoredPassesChecks(u);
    StoredIsNormalized(u);
    RevalidateStored(u.(createdAt := createdAt, lastLoginAt := login));
  }

  // ---------------------------------------------------------------- the entity

  class User {
    const id: Guid
    var firebaseId: string
    var displayName: string
    var email: string
    var photoUrl: Option<string>
    var region: Option<string>
    var reportCount: Int32
    var role: string
    var score: Int32
    var status: string
    var verified: bool
    var createdAt: Time
    var lastLoginAt: Time

    function State(): UserState
      reads this
    {
      UserState(id, firebaseId, displayName, email, photoUrl, region, reportCount, role, score, status,
                verified, createdAt, lastLoginAt)
    }

    ghost predicate Valid()
      reads this
    {
      Stored(UserState(id, firebaseId, displayName, email, photoUrl, region, reportCount, role, score, status,
                       verified, createdAt, lastLoginAt))
    }

    /** The validating constructor; `now` is the clock reading that becomes LastLoginAt. */
    constructor (id: Guid, displayName: string, email: string, photoUrl: Option<string>, region: Option<string>,
                 role: string, status: string, createdAt: Time, now: Time)
      requires Validate(id, displayName, email, photoUrl, region, role, status, createdAt).Pass?
      ensures Valid()
      ensures State() == UserState(id, "", Trim(displayName), ToLower(Trim(email)), TrimOptional(photoUrl),
                                   TrimOptional(region), 0, Trim(role), 0, Trim(status), false, createdAt, now)
    {
      this.id := id;
      this.firebaseId := "";
      this.displayName := Trim(displayName);
      this.email := ToLower(Trim(email));
      this.photoUrl := TrimOptional(photoUrl);
      this.region := TrimOptional(region);
      this.reportCount := 0;
      this.role := Trim(role);
      this.score := 0;
      this.status := Trim(status);
      this.verified := false;
      this.createdAt := createdAt;
      this.lastLoginAt := now;
      new;
      NormalizeText(displayName, 100);
      NormalizeEmail(email);
      NormalizeText(role, 50);
      NormalizeText(status, 50);
    }

    /** The user as Entity Framework materialises a stored row: the parameterless constructor with
        every property set from the row. */
    constructor Load(s: UserState)
      requires Stored(s)
      ensures Valid() && State() == s
    {
      id := s.id;
      firebaseId := s.firebaseId;
      displayName := s.displayName;
      email := s.email;
      photoUrl := s.photoUrl;
      region := s.region;
      reportCount := s.reportCount;
      role := s.role;
      score := s.score;
      status := s.status;
      verified := s.verified;
      createdAt := s.createdAt;
      lastLoginAt := s.lastLoginAt;
    }

    /** `new User(...)` as a call that may throw: the user exists exactly when Validate passes. */
    static method New(id: Guid, displayName: string, email: string, photoUrl: Option<string>, region: Option<string>,
                      role: string, status: string, createdAt: Time, now: Time) returns (r: Result<User>)
      ensures var v := Validate(id, displayName, email, photoUrl, region, role, status, createdAt);
              (r.Ok? <==> v.Pass?) && (v.Fail? ==> r == Err(v.message))
      ensures r.Ok? ==> fresh(r.value) && r.value.Valid()
      ensures r.Ok? ==> r.value.State()
                        == UserState(id, "", Trim(displayName), ToLower(Trim(email)), TrimOptional(photoUrl),
                                     TrimOptional(region), 0, Trim(role), 0, Trim(status), false, createdAt, now)
    {
      var v := Validate(id, displayName, email, photoUrl, region, role, status, createdAt);
      if v.Fail? {
        return Err(v.message);
      }
      var u := new User(id, displayName, email, photoUrl, region, role, status, createdAt, now);
      return Ok(u);
    }

    /** SetFirebaseId: a blank id is ignored, any other is stored trimmed. */
    method SetFirebaseId(firebaseId: string)
      requires Valid()
      modifies this
      ensures Valid()
      ensures State() == if IsBlank(firebaseId) then old(State()) else old(State()).(firebaseId := Trim(firebaseId))
    {
      if IsBlank(firebaseId) {
        return;
      }
      this.firebaseId := Trim(firebaseId);
    }

    /** UpdateProfile: all four profile fields are replaced, normalised, or none is. */
    method UpdateProfile(displayName: string, email: string, photoUrl: Option<string>, region: Option<string>) returns (c: Check)
      requires Valid()
      modifies this
      ensures Valid()
      ensures c == ProfileCheck(displayName, email, photoUrl, region)
      ensures c.Pass? ==> State() == old(State()).(displayName := Trim(displayName), email := ToLower(Trim(email)),
                                                   photoUrl := TrimOptional(photoUrl), region := TrimOptional(region))
      ensures c.Fail? ==> State() == old(State())
    {
      c := ProfileCheck(displayName, email, photoUrl, region);
      if c.Pass? {
        StoreProfile(UserFields(displayName, email, photoUrl, region, role, status, score, reportCount, verified));
      }
    }

    /** The assignments of UpdateProfile, once its checks passed. */
    method StoreProfile(v: UserFields)
      requires Valid() && ProfileFits(v)
      modifies this
      ensures Valid()
      ensures State() == WithProfile(old(State()), v)
    {
      WithProfileKeepsStored(State(), v);
      this.displayName := Trim(v.displayName);
      this.email := ToLower(Trim(v.email));
      this.photoUrl := TrimOptional(v.photoUrl);
      this.region := TrimOptional(v.region);
    }

    method ChangeRole(role: string) returns (c: Check)
      requires Valid()
      modifies this
      ensures Valid()
      ensures c == RoleCheck(role)
      ensures State() == if c.Pass? then old(State()).(role := Trim(role)) else old(State())
    {
      c := RoleCheck(role);
      if c.Pass? {
        NormalizeText(role, 50);
        this.role := Trim(role);
      }
    }

    method ChangeStatus(status: string) returns (c: Check)
      requires Valid()
      modifies this
      ensures Valid()
      ensures c == StatusCheck(status)
      ensures State() == if c.Pass? then old(State()).(status := Trim(status)) else old(State())
    {
      c := StatusCheck(status);
      if c.Pass? {
        NormalizeText(status, 50);
        this.status := Trim(status);
      }
    }

    method SetStats(score: Int32, reportCount: Int32, verified: bool) returns (c: Check)
      requires Valid()
      modifies this
      ensures Valid()
      ensures c == StatsCheck(score, reportCount)
      ensures State() == if c.Pass? then old(State()).(score := score, reportCount := reportCount, verified := verified)
                         else old(State())
    {
      c := StatsCheck(score, reportCount);
      if c.Pass? {
        this.score := score;
        this.reportCount := reportCount;
        this.verified := verified;
      }
    }

    /** SetLastLoginAt: the default date is ignored. */
    method SetLastLoginAt(lastLoginAt: Time)
      requires Valid()
      modifies this
      ensures Valid()
      ensures State() == if lastLoginAt == DefaultTime then old(State()) else old(State()).(lastLoginAt := lastLoginAt)
    {
      if lastLoginAt != DefaultTime {
        this.lastLoginAt := lastLoginAt;
      }
    }

    /** FromFirestore: reads the fields with the new-user defaults, constructs the user under the id
        `freshId` (Guid.NewGuid) with `now` as the clock, then applies the Firebase id, the stats
        and the last login date. Every failure is a thrown exception: no user. */
    static method FromFirestore(doc: Document, freshId: Guid, now: Time) returns (r: Result<User>)
      ensures r.Ok? <==> NewUser(doc, freshId, now).Ok?
      ensures r.Err? ==> NewUser(doc, freshId, now) == Err(r.message)
      ensures r.Ok? ==> fresh(r.value) && r.value.Valid() && NewUser(doc, freshId, now) == Ok(r.value.State())
    {
      var f := ReadUser(doc.data, NewUserDefaults);
      if f.Err? {
        return Err(f.message);
      }
      var createdAt := ParseDate(Get(doc.data, "createdAt", Null), now);
      var lastLoginAt := ParseDate(Get(doc.data, "lastLoginAt", Null), now);
      var created := New(freshId, f.value.displayName, f.value.email, f.value.photoUrl, f.value.region,
                         f.value.role, f.value.status, createdAt, now);
      if created.Err? {
        return Err(created.message);
      }
      var user := created.value;
      user.SetFirebaseId(doc.id);
      var stats := user.SetStats(f.value.score, f.value.reportCount, f.value.verified);
      if stats.Fail? {
        return Err(stats.message);
      }
      user.SetLastLoginAt(lastLoginAt);
      return Ok(user);
    }

    /** UpdateFromFirestore: the fields are read with the current values as fallbacks, then the
        mutators run one after the other, the dates are assigned and the stored fields are
        validated again; `now` is the clock reading ParseDate falls back to. */
    method UpdateFromFirestore(doc: Document, now: Time) returns (c: Check)
      requires Valid()
      modifies this
      ensures Valid()
      ensures Outcome(c, State()) == UpdateUser(old(State()), doc.data, now)
    {
      var f := ReadUser(doc.data, FieldsOf(State()));
      if f.Err? {
        return Fail(f.message);
      }
      var createdAt := ParseDate(Get(doc.data, "createdAt", Null), now);
      var lastLoginAt := ParseDate(Get(doc.data, "lastLoginAt", Null), now);
      c := ApplyMutators(f.value);
      if c.Fail? {
        return;
      }
      this.createdAt := createdAt;
      SetLastLoginAt(lastLoginAt);
      c := Validate(id, displayName, email, photoUrl, region, role, status, this.createdAt);
    }

    /** The four mutator calls of UpdateFromFirestore. */
    method ApplyMutators(v: UserFields) returns (c: Check)
      requires Valid()
      modifies this
      ensures Valid()
      ensures Outcome(c, State()) == MutatorSteps(old(State()), v)
    {
      ghost var u := State();
      c := UpdateProfile(v.displayName, v.email, v.photoUrl, v.region);
      if c.Fail? {
        return;
      }
      ghost var u1 := WithProfile(u, v);
      assert State() == u1;
      c := ChangeRole(v.role);
      if c.Fail? {
        return;
      }
      c := ChangeStatus(v.status);
      if c.Fail? {
        return;
      }
      c := SetStats(v.score, v.reportCount, v.verified);
    }
  }
}
