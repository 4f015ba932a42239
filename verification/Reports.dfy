/** The Report entity: its guard chain and status vocabulary, the reading of a Firestore report
    with its nested location, and the class whose UpdateFromFirestore rewrites a stored report
    and merges its Location in place. */
module Reports {
  import opened Guards
  import opened Text
  import opened Documents

  // ---------------------------------------------------------------- guard chain

  const UserIdRequired := "UserId must be provided."
  const CategoryRequired := "Category is required."
  const CategoryTooLong := "Category length cannot exceed 50 characters."
  const TitleRequired := "Title is required."
  const TitleTooLong := "Title length cannot exceed 120 characters."
  const DescriptionRequired := "Description is required."
  const DescriptionTooLong := "Description length cannot exceed 2000 characters."
  const StatusRequired := "Status is required."
  const ResolvedTooEarly := "ResolvedAt cannot be before CreatedAt."

  /** The message for a status that is not one of the five; unlike every other message of the
      chain, it starts with an 'I', and it quotes the status. */
  function InvalidStatus(status: string): (m: string)
    ensures |m| == |status| + 18 && m[0] == 'I' && m[16..16 + |status|] == status
  {
    "Invalid status '" + status + "'."
  }

  /** The statuses a report can be in, in the form in which they are stored. */
  const Statuses: set<string> := {"pending", "review", "in progress", "resolved", "rejected"}

  /** IsValidStatus: whether the status, trimmed and lower-cased, is one of the five. Lower-casing
      and trimming commute, so the order does not matter, and a blank status is never valid. */
  function IsValidStatus(status: string): (b: bool)
    ensures b <==> Trim(ToLower(status)) in Statuses
    ensures b ==> !IsBlank(status)
  {
    TrimLower(status);
    TrimEmptyIffBlank(status);
    ToLower(Trim(status)) in Statuses
  }

  predicate ValidReportFields(userId: Guid, category: string, title: string, description: string, status: string) {
    userId != EmptyGuid
    && !IsBlank(category) && |category| <= 50
    && !IsBlank(title) && |title| <= 120
    && !IsBlank(description) && |description| <= 2000
    && IsValidStatus(status)
  }

  /** Report.Validate: passes exactly for valid fields, and otherwise reports the first broken rule
      in source order: once the rules before it hold, each rule is broken exactly when its message is
      the one reported. A status that is present but not one of the five is reported with its text. */
  function Validate(userId: Guid, category: string, title: string, description: string, status: string): (c: Check)
    ensures c.Pass? <==> ValidReportFields(userId, category, title, description, status)
    ensures userId == EmptyGuid <==> c == Fail(UserIdRequired)
    ensures userId != EmptyGuid ==> (IsBlank(category) <==> c == Fail(CategoryRequired))
    ensures userId != EmptyGuid && !IsBlank(category) ==> (|category| > 50 <==> c == Fail(CategoryTooLong))
    ensures userId != EmptyGuid && !IsBlank(category) && |category| <= 50
            ==> (IsBlank(title) <==> c == Fail(TitleRequired))
    ensures userId != EmptyGuid && !IsBlank(category) && |category| <= 50 && !IsBlank(title)
            ==> (|title| > 120 <==> c == Fail(TitleTooLong))
    ensures userId != EmptyGuid && !IsBlank(category) && |category| <= 50 && !IsBlank(title) && |title| <= 120
            ==> (IsBlank(description) <==> c == Fail(DescriptionRequired))
    ensures userId != EmptyGuid && !IsBlank(category) && |category| <= 50 && !IsBlank(title) && |title| <= 120
            && !IsBlank(description)
            ==> (|description| > 2000 <==> c == Fail(DescriptionTooLong))
    ensures userId != EmptyGuid && !IsBlank(category) && |category| <= 50 && !IsBlank(title) && |title| <= 120
            && !IsBlank(description) && |description| <= 2000
            ==> (IsBlank(status) <==> c == Fail(StatusRequired))
    ensures userId != EmptyGuid && !IsBlank(category) && |category| <= 50 && !IsBlank(title) && |title| <= 120
            && !IsBlank(description) && |description| <= 2000 && !IsBlank(status)
            ==> (!IsValidStatus(status) <==> c == Fail(InvalidStatus(status)))
  {
    if userId == EmptyGuid then Fail(UserIdRequired)
    else if IsBlank(category) then Fail(CategoryRequired)
    else if |category| > 50 then Fail(CategoryTooLong)
    else if IsBlank(title) then Fail(TitleRequired)
    else if |title| > 120 then Fail(TitleTooLong)
    else if IsBlank(description) then Fail(DescriptionRequired)
    else if |description| > 2000 then Fail(DescriptionTooLong)
    else if IsBlank(status) then Fail(StatusRequired)
    else if !IsValidStatus(status) then Fail(InvalidStatus(status))
    else Pass
  }

  /** Each of the five statuses is its own normal form, so a stored status validates again and
      normalising it once more changes nothing. */
  lemma StoredStatusIsFixed(s: string)
    requires s in Statuses
    ensures IsValidStatus(s) && ToLower(Trim(s)) == s
  {
    assert IsTrimmed(s);
    TrimmedIsFixed(s);
    assert forall i :: 0 <= i < |s| ==> !('A' <= s[i] <= 'Z');
    LowerFixed(s);
  }

  /** The constructor's rejected inputs of the entity's unit tests, each with the first rule it breaks. */
  lemma ValidateRejectsTestInputs(userId: Guid)
    requires userId != EmptyGuid
    ensures Validate(userId, "", "Valid Title", "Valid Description", "pending") == Fail(CategoryRequired)
    ensures Validate(userId, "Category", "", "Valid Description", "pending") == Fail(TitleRequired)
    ensures Validate(userId, "Category", "Title", "", "pending") == Fail(DescriptionRequired)
    ensures Validate(userId, "Category", "Title", "Description", "") == Fail(StatusRequired)
    ensures Validate(userId, "Category", "Title", "Description", "invalid") == Fail(InvalidStatus("invalid"))
    ensures Validate(EmptyGuid, "Category", "Title", "Description", "pending") == Fail(UserIdRequired)
  {
    assert !IsWhiteSpace("Category"[0]) && !IsWhiteSpace("Title"[0]) && !IsWhiteSpace("Description"[0]);
    assert !IsWhiteSpace("invalid"[0]);
    var t := "invalid";
    assert IsTrimmed(t);
    TrimmedIsFixed(t);
    assert forall i :: 0 <= i < |t| ==> !('A' <= t[i] <= 'Z');
    LowerFixed(t);
    assert t !in Statuses;
  }

  /** ValidateResolvedAt: a resolution date strictly before the creation date throws; an equal or
      later one, or none, passes. */
  function ResolvedAtCheck(resolvedAt: Option<Time>, createdAt: Time): (c: Check)
    ensures c.Fail? <==> resolvedAt.Some? && resolvedAt.value < createdAt
    ensures c.Fail? ==> c.message == ResolvedTooEarly
  {
    if resolvedAt.Some? && resolvedAt.value < createdAt then Fail(ResolvedTooEarly) else Pass
  }

  // ---------------------------------------------------------------- locations

  /** A ReportLocation: its id, address, coordinates (as Convert.ToDecimal gives them) and postal code. */
  datatype Location = Location(id: Guid, address: string, latitude: int, longitude: int, postalCode: string)

  /** `new ReportLocation { Id = id }`: every other field at its default. */
  function BlankLocation(id: Guid): Location {
    Location(id, "", 0, 0, "")
  }

  /** The Location merge of UpdateFromFirestore: each field is read with its current value as the
      fallback and assigned in turn, so a coordinate that does not convert throws after the address
      (and, for the longitude, the latitude) has already been assigned. */
  function MergedLocation(cur: Location, loc: Data): (m: Outcome<Location>)
    ensures m.state.id == cur.id
    ensures m.check.Pass? <==> (ToDecimal(Get(loc, "latitude", Int(cur.latitude))).Ok?
                                && ToDecimal(Get(loc, "longitude", Int(cur.longitude))).Ok?)
    ensures "address" !in loc ==> m.state.address == cur.address
    ensures "latitude" !in loc ==> m.state.latitude == cur.latitude
    ensures "longitude" !in loc ==> m.state.longitude == cur.longitude
    ensures "postalCode" !in loc ==> m.state.postalCode == cur.postalCode
    ensures m.check.Fail? ==> m.state.postalCode == cur.postalCode
  {
    var l1 := cur.(address := TextOr(loc, "address", cur.address));
    match ToDecimal(Get(loc, "latitude", Int(cur.latitude)))
    case Err(e) => Outcome(Fail(e), l1)
    case Ok(lat) =>
      var l2 := l1.(latitude := lat);
      match ToDecimal(Get(loc, "longitude", Int(cur.longitude)))
      case Err(e) => Outcome(Fail(e), l2)
      case Ok(lon) => Outcome(Pass, l2.(longitude := lon, postalCode := TextOr(loc, "postalCode", cur.postalCode)))
  }

  /** The Location FromFirestore builds from a nested "location" map under the fresh id `id`;
      absent keys give an empty address and postal code and zero coordinates. */
  function NewLocation(loc: Data, id: Guid): (r: Result<Location>)
    ensures r.Ok? ==> r.value.id == id
    ensures r.Ok? && "address" !in loc ==> r.value.address == ""
    ensures r.Ok? && "latitude" !in loc ==> r.value.latitude == 0
    ensures r.Ok? && "longitude" !in loc ==> r.value.longitude == 0
    ensures r.Ok? && "postalCode" !in loc ==> r.value.postalCode == ""
  {
    match ToDecimal(Get(loc, "latitude", Int(0)))
    case Err(e) => Err(e)
    case Ok(lat) =>
      match ToDecimal(Get(loc, "longitude", Int(0)))
      case Err(e) => Err(e)
      case Ok(lon) =>
        Ok(Location(id, TextOr(loc, "address", ""), lat, lon, TextOr(loc, "postalCode", "")))
  }

  /** Creating a location is merging the map into a blank one: the two code paths agree. */
  lemma NewLocationIsMergeIntoBlank(loc: Data, id: Guid)
    ensures var m := MergedLocation(BlankLocation(id), loc);
            NewLocation(loc, id) == if m.check.Pass? then Ok(m.state) else Err(m.check.message)
  {
  }

  /** Reading a value again with the result of the first reading as the fallback gives the same text. */
  lemma TextOrTwice(data: Data, key: string, fallback: string)
    ensures TextOr(data, key, TextOr(data, key, fallback)) == TextOr(data, key, fallback)
  {
  }

  /** Merging the same map twice is merging it once. */
  lemma MergeIdempotent(cur: Location, loc: Data)
    requires MergedLocation(cur, loc).check.Pass?
    ensures MergedLocation(MergedLocation(cur, loc).state, loc) == MergedLocation(cur, loc)
  {
    TextOrTwice(loc, "address", cur.address);
    TextOrTwice(loc, "postalCode", cur.postalCode);
  }

  // ---------------------------------------------------------------- reading a document

  /** The text and flag fields a report document provides. */
  datatype ReportFields = ReportFields(category: string, title: string, description: string, status: string, isAnonymous: bool)

  /** The fallbacks FromFirestore uses for absent fields. */
  const NewReportDefaults := ReportFields("outros", "", "", "pending", false)

  /** The field reading shared by FromFirestore and UpdateFromFirestore: an absent or null text takes
      its fallback; the flag goes through Convert.ToBoolean, which can throw. */
  function ReadReport(data: Data, fallback: ReportFields): (r: Result<ReportFields>)
    ensures r.Ok? <==> ToBoolean(Get(data, "isAnonymous", Bool(fallback.isAnonymous))).Ok?
    ensures r.Ok? && "category" !in data ==> r.value.category == fallback.category
    ensures r.Ok? && "title" !in data ==> r.value.title == fallback.title
    ensures r.Ok? && "description" !in data ==> r.value.description == fallback.description
    ensures r.Ok? && "status" !in data ==> r.value.status == fallback.status
    ensures r.Ok? && "isAnonymous" !in data ==> r.value.isAnonymous == fallback.isAnonymous
  {
    match ToBoolean(Get(data, "isAnonymous", Bool(fallback.isAnonymous)))
    case Err(e) => Err(e)
    case Ok(b) =>
      Ok(ReportFields(TextOr(data, "category", fallback.category), TextOr(data, "title", fallback.title),
                      TextOr(data, "description", fallback.description), TextOr(data, "status", fallback.status), b))
  }

  /** ExtractFirstImageUrl: the text of the first element of an "imagemUrls" list; the empty text
      for an empty list, an absent key or any other kind of value. */
  function ExtractFirstImageUrl(data: Data): (url: string)
    ensures ("imagemUrls" !in data || !data["imagemUrls"].List? || data["imagemUrls"].items == []) ==> url == ""
    ensures ("imagemUrls" in data && data["imagemUrls"].List? && data["imagemUrls"].items != []
             && data["imagemUrls"].items[0].Str?) ==> url == data["imagemUrls"].items[0].s
  {
    if "imagemUrls" in data && data["imagemUrls"].List? && data["imagemUrls"].items != [] then
      match Render(data["imagemUrls"].items[0])
      case Some(s) => s
      case None => ""
    else ""
  }

  /** The image UpdateFromFirestore stores: the value's own text, the current image when the key is
      absent or null. */
  function ImageText(data: Data, cur: Option<string>): (image: Option<string>)
    ensures ("imagemUrls" !in data || data["imagemUrls"].Null?) ==> image == cur
    ensures ("imagemUrls" in data && !data["imagemUrls"].Null?) ==> image == Render(data["imagemUrls"])
  {
    match OptionalTextOr(data, "imagemUrls", cur)
    case None => cur
    case Some(s) => Some(s)
  }

  /** For a list of image addresses, FromFirestore stores the first address, while UpdateFromFirestore
      stores the list's type name. */
  lemma UpdateImageIsListText(url: string, cur: Option<string>)
    ensures ExtractFirstImageUrl(map["imagemUrls" := List([Str(url)])]) == url
    ensures ImageText(map["imagemUrls" := List([Str(url)])], cur) == Some(ListText)
  {
  }

  /** Whether the document holds a nested "location" map. */
  predicate HasLocation(data: Data) {
    "location" in data && data["location"].Dict?
  }

  // ---------------------------------------------------------------- the report's fields

  /** A snapshot of a report's fields. */
  datatype ReportState = ReportState(
    id: Guid, firebaseId: string, userId: Guid, category: string, title: string, description: string,
    isAnonymous: bool, status: string, imageUrl1: Option<string>, createdAt: Time, updatedAt: Time,
    resolvedAt: Option<Time>, location: Option<Location>)

  /** What every stored report satisfies: real ids, its texts trimmed, not empty and within their
      bounds, and a status that is one of the five. */
  predicate Stored(r: ReportState) {
    r.id != EmptyGuid && r.userId != EmptyGuid
    && Normal(r.category, 50) && Normal(r.title, 120) && Normal(r.description, 2000)
    && r.status in Statuses
  }

  /** The values that leave a report as it is when read back. */
  function FieldsOf(r: ReportState): ReportFields {
    ReportFields(r.category, r.title, r.description, r.status, r.isAnonymous)
  }

  /** Fields whose stored form is a stored report's. */
  predicate Storable(userId: Guid, f: ReportFields) {
    userId != EmptyGuid
    && Normal(Trim(f.category), 50) && Normal(Trim(f.title), 120) && Normal(Trim(f.description), 2000)
    && ToLower(Trim(f.status)) in Statuses
  }

  /** What validated fields become once stored: trimmed, the status also lower-cased. */
  lemma NormalizeReportFields(userId: Guid, f: ReportFields)
    requires ValidReportFields(userId, f.category, f.title, f.description, f.status)
    ensures Storable(userId, f)
  {
    NormalizeText(f.category, 50);
    NormalizeText(f.title, 120);
    NormalizeText(f.description, 2000);
  }

  /** What the constructor stores, under the fresh id `id` and the clock reading `now`. */
  function Constructed(userId: Guid, f: ReportFields, id: Guid, now: Time): (r: ReportState)
    ensures Storable(userId, f) && id != EmptyGuid ==> Stored(r)
  {
    ReportState(id, "", userId, Trim(f.category), Trim(f.title), Trim(f.description), f.isAnonymous,
                ToLower(Trim(f.status)), None, now, now, None, None)
  }

  /** The object initializer of FromFirestore: the Firebase id, the first image and the three dates. */
  function Initialized(r: ReportState, doc: Document, now: Time): ReportState {
    r.(firebaseId := doc.id, imageUrl1 := Some(ExtractFirstImageUrl(doc.data)),
       createdAt := ParseDate(Get(doc.data, "createdAt", Null), now), updatedAt := ParseDate(Get(doc.data, "updatedAt", Null), now),
       resolvedAt := ParseDateNullable(Get(doc.data, "resolvedAt", Null), now))
  }

  /** FromFirestore: read the fields with the new-report defaults, construct the report (which
      validates), set the Firebase id, the first image and the three dates, then build the location
      when the document has one. `id` and `locationId` are the fresh Guids, `now` the clock. */
  function NewReport(doc: Document, userId: Guid, id: Guid, locationId: Guid, now: Time): (r: Result<ReportState>)
    requires id != EmptyGuid
    ensures var f := ReadReport(doc.data, NewReportDefaults);
            r.Ok? <==> f.Ok? && ValidReportFields(userId, f.value.category, f.value.title, f.value.description, f.value.status)
                       && (HasLocation(doc.data) ==> NewLocation(doc.data["location"].fields, locationId).Ok?)
    ensures var f := ReadReport(doc.data, NewReportDefaults);
            f.Ok? && Validate(userId, f.value.category, f.value.title, f.value.description, f.value.status).Fail?
            ==> r == Err(Validate(userId, f.value.category, f.value.title, f.value.description, f.value.status).message)
    ensures ReadReport(doc.data, NewReportDefaults).Err? ==> r == Err(ReadReport(doc.data, NewReportDefaults).message)
    ensures r.Ok? ==> Stored(r.value)
    ensures r.Ok? ==> var f := ReadReport(doc.data, NewReportDefaults).value;
                      && r.value.category == Trim(f.category) && r.value.title == Trim(f.title)
                      && r.value.description == Trim(f.description) && r.value.status == ToLower(Trim(f.status))
                      && r.value.isAnonymous == f.isAnonymous
                      && r.value.createdAt == ParseDate(Get(doc.data, "createdAt", Null), now)
                      && r.value.updatedAt == ParseDate(Get(doc.data, "updatedAt", Null), now)
                      && r.value.resolvedAt == ParseDateNullable(Get(doc.data, "resolvedAt", Null), now)
    ensures r.Ok? ==> r.value.location == if HasLocation(doc.data)
                                          then Some(NewLocation(doc.data["location"].fields, locationId).value) else None
    ensures r.Ok? ==> r.value.id == id && r.value.userId == userId && r.value.firebaseId == doc.id
    ensures r.Ok? ==> (r.value.location.Some? <==> HasLocation(doc.data))
    ensures r.Ok? ==> (r.value.resolvedAt.None? <==> ("resolvedAt" !in doc.data || doc.data["resolvedAt"].Null?))
    ensures r.Ok? ==> r.value.imageUrl1 == Some(ExtractFirstImageUrl(doc.data))
  {
    match ReadReport(doc.data, NewReportDefaults)
    case Err(e) => Err(e)
    case Ok(f) =>
      var v := Validate(userId, f.category, f.title, f.description, f.status);
      if v.Fail? then Err(v.message)
      else
        NormalizeReportFields(userId, f);
        var r := Initialized(Constructed(userId, f, id, now), doc, now);
        if HasLocation(doc.data) then
          match NewLocation(doc.data["location"].fields, locationId)
          case Err(e) => Err(e)
          case Ok(l) => Ok(r.(location := Some(l)))
        else Ok(r)
  }

  /** The two default texts are already in stored form. */
  lemma DefaultsAreNormal()
    ensures !IsBlank("outros") && Trim("outros") == "outros"
    ensures IsValidStatus("pending") && ToLower(Trim("pending")) == "pending"
  {
    assert !IsWhiteSpace("outros"[0]) && IsTrimmed("outros");
    TrimmedIsFixed("outros");
    StoredStatusIsFixed("pending");
  }

  /** NewReport once the fields were read and validated. */
  lemma NewReportOfValid(doc: Document, userId: Guid, id: Guid, locationId: Guid, now: Time, f: ReportFields)
    requires id != EmptyGuid
    requires ReadReport(doc.data, NewReportDefaults) == Ok(f)
    requires Validate(userId, f.category, f.title, f.description, f.status).Pass?
    ensures var r := Initialized(Constructed(userId, f, id, now), doc, now);
            NewReport(doc, userId, id, locationId, now)
            == if !HasLocation(doc.data) then Ok(r)
               else match NewLocation(doc.data["location"].fields, locationId)
                    case Err(e) => Err(e)
                    case Ok(l) => Ok(r.(location := Some(l)))
  {
  }

  /** A document that has only a title and a description: it yields a report exactly when those
      two validate, and every other field takes its default (category "outros", status
      "pending", not anonymous, an empty image, both dates from the clock, no resolution date and
      no location). */
  lemma AbsentKeysTakeDefaults(doc: Document, userId: Guid, id: Guid, locationId: Guid, now: Time)
    requires id != EmptyGuid
    requires "category" !in doc.data && "status" !in doc.data && "isAnonymous" !in doc.data
    requires "imagemUrls" !in doc.data && "location" !in doc.data
    requires "createdAt" !in doc.data && "updatedAt" !in doc.data && "resolvedAt" !in doc.data
    ensures var r := NewReport(doc, userId, id, locationId, now);
            && (r.Ok? <==> Validate(userId, "outros", TextOr(doc.data, "title", ""), TextOr(doc.data, "description", ""), "pending").Pass?)
            && (r.Ok? ==> r.value == ReportState(id, doc.id, userId, "outros", Trim(TextOr(doc.data, "title", "")),
                                                 Trim(TextOr(doc.data, "description", "")), false, "pending", Some(""),
                                                 now, now, None, None))
  {
    var f := ReportFields("outros", TextOr(doc.data, "title", ""), TextOr(doc.data, "description", ""), "pending", false);
    assert ReadReport(doc.data, NewReportDefaults) == Ok(f);
    DefaultsAreNormal();
    if Validate(userId, f.category, f.title, f.description, f.status).Pass? {
      NewReportOfValid(doc, userId, id, locationId, now, f);
    }
  }

  // ---------------------------------------------------------------- updating from a document

  /** The scalar assignments of UpdateFromFirestore once Validate passed. */
  function AssignReport(r: ReportState, f: ReportFields, userId: Guid, image: Option<string>, updatedAt: Time,
                        resolvedAt: Option<Time>): (w: ReportState)
    ensures w.id == r.id && w.firebaseId == r.firebaseId && w.createdAt == r.createdAt && w.location == r.location
    ensures w.userId == userId
  {
    r.(userId := userId, category := Trim(f.category), title := Trim(f.title), description := Trim(f.description),
       status := ToLower(Trim(f.status)), isAnonymous := f.isAnonymous, imageUrl1 := image, updatedAt := updatedAt,
       resolvedAt := resolvedAt)
  }

  /** The location part of UpdateFromFirestore: for a nested map, the current Location, or a new one
      under `locationId`, is attached first and then merged field by field; otherwise nothing. */
  function LocationStep(r: ReportState, data: Data, locationId: Guid): (u: Outcome<ReportState>)
    ensures u.state == r.(location := u.state.location)
    ensures !HasLocation(data) ==> u == Outcome(Pass, r)
    ensures HasLocation(data) ==> u.state.location.Some?
    ensures HasLocation(data) && r.location.Some? ==> u.state.location.value.id == r.location.value.id
  {
    if HasLocation(data) then
      var cur := if r.location.Some? then r.location.value else BlankLocation(locationId);
      var m := MergedLocation(cur, data["location"].fields);
      Outcome(m.check, r.(location := Some(m.state)))
    else Outcome(Pass, r)
  }

  /** UpdateFromFirestore: read the fields with the current values as fallbacks, validate them
      before anything is assigned, assign the scalar fields, then merge the location. */
  function UpdateReport(r: ReportState, data: Data, userId: Guid, now: Time, locationId: Guid): (u: Outcome<ReportState>)
    ensures u.state.id == r.id && u.state.firebaseId == r.firebaseId && u.state.createdAt == r.createdAt
    ensures u.check.Pass? ==> u.state.userId == userId
  {
    match ReadReport(data, FieldsOf(r))
    case Err(e) => Outcome(Fail(e), r)
    case Ok(f) =>
      var v := Validate(userId, f.category, f.title, f.description, f.status);
      if v.Fail? then Outcome(v, r)
      else
        var w := AssignReport(r, f, userId, ImageText(data, r.imageUrl1), ParseDate(Get(data, "updatedAt", Null), now),
                              ParseDateNullable(Get(data, "resolvedAt", Null), now));
        LocationStep(w, data, locationId)
  }

  /** An update, whether it succeeds, is rejected or throws in the location merge, leaves a report
      in stored form: its status is always one of the five. */
  lemma UpdateKeepsStored(r: ReportState, data: Data, userId: Guid, now: Time, locationId: Guid)
    requires Stored(r)
    ensures Stored(UpdateReport(r, data, userId, now, locationId).state)
  {
    var f := ReadReport(data, FieldsOf(r));
    if f.Ok? && Validate(userId, f.value.category, f.value.title, f.value.description, f.value.status).Pass? {
      NormalizeReportFields(userId, f.value);
    }
  }

  /** A conversion failure or a rejected validation leaves the report exactly as it was. */
  lemma RejectedUpdateChangesNothing(r: ReportState, data: Data, userId: Guid, now: Time, locationId: Guid)
    requires var f := ReadReport(data, FieldsOf(r));
             f.Err? || Validate(userId, f.value.category, f.value.title, f.value.description, f.value.status).Fail?
    ensures var u := UpdateReport(r, data, userId, now, locationId);
            u.check.Fail? && u.state == r
  {
  }

  /** A stored report's own fields pass validation and are their own normal form. */
  lemma StoredRevalidates(r: ReportState)
    requires Stored(r)
    ensures Validate(r.userId, r.category, r.title, r.description, r.status).Pass?
    ensures Trim(r.category) == r.category && Trim(r.title) == r.title && Trim(r.description) == r.description
    ensures ToLower(Trim(r.status)) == r.status
  {
    NormalIsNotBlank(r.category, 50);
    NormalIsNotBlank(r.title, 120);
    NormalIsNotBlank(r.description, 2000);
    StoredStatusIsFixed(r.status);
    TrimmedIsFixed(r.category);
    TrimmedIsFixed(r.title);
    TrimmedIsFixed(r.description);
  }

  /** A successful update keeps every field whose key is absent, except the update date, which
      becomes the clock reading, and the resolution date, which is cleared; the creation date is
      never touched. */
  lemma UpdateKeepsAbsentFields(r: ReportState, data: Data, userId: Guid, now: Time, locationId: Guid)
    requires Stored(r) && UpdateReport(r, data, userId, now, locationId).check.Pass?
    ensures var w := UpdateReport(r, data, userId, now, locationId).state;
            && w.userId == userId && w.createdAt == r.createdAt
            && ("category" !in data ==> w.category == r.category)
            && ("title" !in data ==> w.title == r.title)
            && ("description" !in data ==> w.description == r.description)
            && ("status" !in data ==> w.status == r.status)
            && ("isAnonymous" !in data ==> w.isAnonymous == r.isAnonymous)
            && ("imagemUrls" !in data ==> w.imageUrl1 == r.imageUrl1)
            && ("updatedAt" !in data ==> w.updatedAt == now)
            && ("resolvedAt" !in data ==> w.resolvedAt == None)
            && ("location" !in data ==> w.location == r.location)
  {
    StoredRevalidates(r);
  }

  /** A document with none of the report's fields changes only the two dates it rewrites. */
  lemma EmptyDocumentTouchesDates(r: ReportState, now: Time, locationId: Guid)
    requires Stored(r)
    ensures UpdateReport(r, map[], r.userId, now, locationId) == Outcome(Pass, r.(updatedAt := now, resolvedAt := None))
  {
    StoredRevalidates(r);
    assert ReadReport(map[], FieldsOf(r)) == Ok(FieldsOf(r));
  }

  /** Neither FromFirestore nor UpdateFromFirestore checks the resolution date against the creation
      date: an update can store a resolution date that ValidateResolvedAt rejects. */
  lemma ResolvedAtNotEnforced(r: ReportState, now: Time, locationId: Guid)
    requires Stored(r) && r.createdAt > 0
    ensures var u := UpdateReport(r, map["resolvedAt" := Stamp(0)], r.userId, now, locationId);
            u.check.Pass? && ResolvedAtCheck(u.state.resolvedAt, u.state.createdAt).Fail?
  {
    var data := map["resolvedAt" := Stamp(0)];
    StoredRevalidates(r);
    assert ReadReport(data, FieldsOf(r)) == Ok(FieldsOf(r));
    var w := AssignReport(r, FieldsOf(r), r.userId, ImageText(data, r.imageUrl1), ParseDate(Get(data, "updatedAt", Null), now),
                          ParseDateNullable(Get(data, "resolvedAt", Null), now));
    assert !HasLocation(data);
    assert UpdateReport(r, data, r.userId, now, locationId) == Outcome(Pass, w);
    assert w.resolvedAt == Some(0);
  }

  // ---------------------------------------------------------------- the entity

  class Report {
    const id: Guid
    var firebaseId: string
    var userId: Guid
    var category: string
    var title: string
    var description: string
    var isAnonymous: bool
    var status: string
    var imageUrl1: Option<string>
    var createdAt: Time
    var updatedAt: Time
    var resolvedAt: Option<Time>
    var location: Option<Location>

    function State(): ReportState
      reads this
    {
      ReportState(id, firebaseId, userId, category, title, description, isAnonymous, status, imageUrl1,
                  createdAt, updatedAt, resolvedAt, location)
    }

    ghost predicate Valid()
      reads this
    {
      Stored(State())
    }

    /** The validating constructor, under the fresh id `id` and the clock reading `now`. */
    constructor (userId: Guid, category: string, title: string, description: string, isAnonymous: bool,
                 status: string, id: Guid, now: Time)
      requires id != EmptyGuid && Validate(userId, category, title, description, status).Pass?
      ensures Valid()
      ensures State() == Constructed(userId, ReportFields(category, title, description, status, isAnonymous), id, now)
    {
      NormalizeReportFields(userId, ReportFields(category, title, description, status, isAnonymous));
      this.id := id;
      this.firebaseId := "";
      this.userId := userId;
      this.category := Trim(category);
      this.title := Trim(title);
      this.description := Trim(description);
      this.isAnonymous := isAnonymous;
      this.status := ToLower(Trim(status));
      this.imageUrl1 := None;
      this.createdAt := now;
      this.updatedAt := now;
      this.resolvedAt := None;
      this.location := None;
    }

    /** The report as Entity Framework materialises a stored row with its Location: the
        parameterless constructor with every property set from the row. */
    constructor Load(s: ReportState)
      requires Stored(s)
      ensures Valid() && State() == s
    {
      id := s.id;
      firebaseId := s.firebaseId;
      userId := s.userId;
      category := s.category;
      title := s.title;
      description := s.description;
      isAnonymous := s.isAnonymous;
      status := s.status;
      imageUrl1 := s.imageUrl1;
      createdAt := s.createdAt;
      updatedAt := s.updatedAt;
      resolvedAt := s.resolvedAt;
      location := s.location;
    }

    /** `new Report(...)` as a call that may throw: the report exists exactly when Validate passes. */
    static method New(userId: Guid, category: string, title: string, description: string, isAnonymous: bool,
                      status: string, id: Guid, now: Time) returns (r: Result<Report>)
      requires id != EmptyGuid
      ensures var v := Validate(userId, category, title, description, status);
              (r.Ok? <==> v.Pass?) && (v.Fail? ==> r == Err(v.message))
      ensures r.Ok? ==> fresh(r.value) && r.value.Valid()
      ensures r.Ok? ==> r.value.State() == Constructed(userId, ReportFields(category, title, description, status, isAnonymous), id, now)
    {
      var v := Validate(userId, category, title, description, status);
      if v.Fail? {
        return Err(v.message);
      }
      var report := new Report(userId, category, title, description, isAnonymous, status, id, now);
      return Ok(report);
    }

    /** FromFirestore for the report document `doc` of the user whose Guid is `userId`; `id` and
        `locationId` are the fresh Guids, `now` the clock. */
    static method FromFirestore(doc: Document, userId: Guid, id: Guid, locationId: Guid, now: Time) returns (r: Result<Report>)
      requires id != EmptyGuid
      ensures r.Ok? <==> NewReport(doc, userId, id, locationId, now).Ok?
      ensures r.Err? ==> NewReport(doc, userId, id, locationId, now) == Err(r.message)
      ensures r.Ok? ==> fresh(r.value) && r.value.Valid() && NewReport(doc, userId, id, locationId, now) == Ok(r.value.State())
    {
      var f := ReadReport(doc.data, NewReportDefaults);
      if f.Err? {
        return Err(f.message);
      }
      var made := New(userId, f.value.category, f.value.title, f.value.description, f.value.isAnonymous, f.value.status, id, now);
      if made.Err? {
        return Err(made.message);
      }
      NewReportOfValid(doc, userId, id, locationId, now, f.value);
      var report := made.value;
      assert report.State() == Constructed(userId, f.value, id, now);
      report.Initialize(doc, now);
      ghost var base := report.State();
      assert base == Initialized(Constructed(userId, f.value, id, now), doc, now);
      if HasLocation(doc.data) {
        var l := NewLocation(doc.data["location"].fields, locationId);
        if l.Err? {
          return Err(l.message);
        }
        report.location := Some(l.value);
        assert report.State() == base.(location := Some(l.value));
      }
      return Ok(report);
    }

    /** The object initializer of FromFirestore. */
    method Initialize(doc: Document, now: Time)
      requires Valid()
      modifies this
      ensures Valid()
      ensures State() == Initialized(old(State()), doc, now)
    {
      this.firebaseId := doc.id;
      this.imageUrl1 := Some(ExtractFirstImageUrl(doc.data));
      this.createdAt := ParseDate(Get(doc.data, "createdAt", Null), now);
      this.updatedAt := ParseDate(Get(doc.data, "updatedAt", Null), now);
      this.resolvedAt := ParseDateNullable(Get(doc.data, "resolvedAt", Null), now);
    }

    /** UpdateFromFirestore with the user's Guid `userId`, the clock `now` and the Guid `locationId`
        a new Location would take. */
    method UpdateFromFirestore(doc: Document, userId: Guid, now: Time, locationId: Guid) returns (c: Check)
      requires Valid()
      modifies this
      ensures Valid()
      ensures Outcome(c, State()) == UpdateReport(old(State()), doc.data, userId, now, locationId)
    {
      var f := ReadReport(doc.data, FieldsOf(State()));
      if f.Err? {
        return Fail(f.message);
      }
      var image := ImageText(doc.data, imageUrl1);
      var updatedAt := ParseDate(Get(doc.data, "updatedAt", Null), now);
      var resolvedAt := ParseDateNullable(Get(doc.data, "resolvedAt", Null), now);
      c := Validate(userId, f.value.category, f.value.title, f.value.description, f.value.status);
      if c.Fail? {
        return;
      }
      NormalizeReportFields(userId, f.value);
      Assign(f.value, userId, image, updatedAt, resolvedAt);
      if HasLocation(doc.data) {
        c := MergeLocation(doc.data["location"].fields, locationId);
      }
    }

    /** The scalar assignments of UpdateFromFirestore: the texts, then the other fields. */
    method Assign(f: ReportFields, userId: Guid, image: Option<string>, updatedAt: Time, resolvedAt: Option<Time>)
      requires Valid() && Storable(userId, f)
      modifies this
      ensures Valid()
      ensures State() == AssignReport(old(State()), f, userId, image, updatedAt, resolvedAt)
    {
      AssignTexts(f);
      this.userId := userId;
      this.isAnonymous := f.isAnonymous;
      this.imageUrl1 := image;
      this.updatedAt := updatedAt;
      this.resolvedAt := resolvedAt;
    }

    method AssignTexts(f: ReportFields)
      requires Valid() && Storable(userId, f)
      modifies this
      ensures Valid()
      ensures State() == old(State()).(category := Trim(f.category), title := Trim(f.title),
                                       description := Trim(f.description), status := ToLower(Trim(f.status)))
    {
      this.category := Trim(f.category);
      this.title := Trim(f.title);
      this.description := Trim(f.description);
      this.status := ToLower(Trim(f.status));
    }

    /** The Location merge: the current Location is reused, or a new one under `locationId` is
        attached, and its fields are then assigned one by one; a coordinate that does not convert
        throws with the earlier fields already assigned. */
    method MergeLocation(loc: Data, locationId: Guid) returns (c: Check)
      requires Valid()
      modifies this
      ensures Valid()
      ensures var cur := if old(location).Some? then old(location).value else BlankLocation(locationId);
              var m := MergedLocation(cur, loc);
              c == m.check && State() == old(State()).(location := Some(m.state))
    {
      var cur := if location.Some? then location.value else BlankLocation(locationId);
      location := Some(cur);
      cur := cur.(address := TextOr(loc, "address", cur.address));
      location := Some(cur);
      var lat := ToDecimal(Get(loc, "latitude", Int(cur.latitude)));
      if lat.Err? {
        return Fail(lat.message);
      }
      cur := cur.(latitude := lat.value);
      location := Some(cur);
      var lon := ToDecimal(Get(loc, "longitude", Int(cur.longitude)));
      if lon.Err? {
        return Fail(lon.message);
      }
      cur := cur.(longitude := lon.value);
      location := Some(cur);
      cur := cur.(postalCode := TextOr(loc, "postalCode", cur.postalCode));
      location := Some(cur);
      c := Pass;
    }

    /** ValidateResolvedAt. */
    method ValidateResolvedAt() returns (c: Check)
      ensures c == ResolvedAtCheck(resolvedAt, createdAt)
    {
      if resolvedAt.Some? && resolvedAt.value < createdAt {
        return Fail(ResolvedTooEarly);
      }
      return Pass;
    }
  }
}
