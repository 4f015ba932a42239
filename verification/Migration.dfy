/** The migration service: it walks the Firestore users, then the reports with their comments, and
    creates or updates the SQL rows, recording which Guid each Firebase user id became. */
module Migration {
  import opened Guards
  import opened Text
  import opened Documents
  import Users
  import Reports
  import Comments
  import Logs
  import opened Subcollections
  import opened Rows

  // ---------------------------------------------------------------- the inputs of a run

  /** A report document together with its "comments" subcollection, None when reading the
      subcollection throws. */
  datatype ReportSource = ReportSource(doc: Document, comments: Option<seq<Document>>)

  /** How a user document ended: a new row, an updated row, or an exception caught by the loop. */
  datatype UserOutcome = UserCreated(id: Guid) | UserUpdated(id: Guid) | UserFailed(message: string)

  /** How a report document ended: skipped for want of a mapped user, an exception caught before
      the report was saved, or saved (created or updated) with the outcome of its comments read. */
  datatype ReportOutcome =
    | Skipped
    | Rejected(message: string)
    | Saved(id: Guid, created: bool, comments: Check)

  /** The exception of a Firestore read that fails (a collection snapshot or a subcollection). */
  const ReadFailure := "The Firestore read failed."
  /** The exception GetValue<string> throws for a field that holds something other than a string. */
  const NotAString := "Unable to convert the field value to a string."

  const Information := "Information"
  const Warning := "Warning"
  const Error := "Error"

  /** What LogService.CreateLogAsync writes to the console before the message of a record the
      Logs table rejected. */
  const AuditFailurePrefix := "Falha ao gravar log no banco: "

  // ---------------------------------------------------------------- the tables

  /** The Users table by primary key: each row under its own Guid, every Guid drawn before `next`,
      every row in the form the User entity keeps. */
  predicate UsersTable(users: map<Guid, Users.UserState>, next: Guid) {
    forall g :: g in users ==> users[g].id == g && g < next && Users.Stored(users[g])
  }

  /** The Reports table: like the users, and every report's UserId is a stored user. */
  predicate ReportsTable(reports: map<Guid, Reports.ReportState>, users: map<Guid, Users.UserState>, next: Guid) {
    forall g :: g in reports ==> reports[g].id == g && g < next && Reports.Stored(reports[g]) && reports[g].userId in users
  }

  /** The Comments table in insertion order: every comment's report and author are stored. */
  predicate CommentsTable(comments: seq<Comments.CommentState>, reports: map<Guid, Reports.ReportState>,
                          users: map<Guid, Users.UserState>) {
    forall i :: 0 <= i < |comments| ==>
      Comments.Stored(comments[i]) && comments[i].reportId in reports && comments[i].authorId in users
  }

  /** The Firebase-id map only points at stored users. */
  predicate MapTargetsUsers(userMap: map<string, Guid>, users: map<Guid, Users.UserState>) {
    forall k :: k in userMap ==> userMap[k] in users
  }

  /** The ids of a sequence of documents. */
  function DocIds(docs: seq<Document>): (ids: set<string>)
    ensures forall i :: 0 <= i < |docs| ==> docs[i].id in ids
    ensures forall k :: k in ids ==> exists i :: 0 <= i < |docs| && docs[i].id == k
  {
    set i | 0 <= i < |docs| :: docs[i].id
  }

  // ---------------------------------------------------------------- reports: the pure steps

  /** `doc.ContainsField("userId") ? doc.GetValue<string>("userId") : null` followed by the lookup in
      the Firebase-id map: an exception for a non-string value, None for an absent or null field or
      an unmapped user, the user's Guid otherwise. */
  function Owner(data: Data, userMap: map<string, Guid>): (r: Result<Option<Guid>>)
    ensures r.Err? <==> "userId" in data && !data["userId"].Null? && !data["userId"].Str?
    ensures r.Ok? ==> (r.value.None? <==> "userId" !in data || data["userId"].Null? || data["userId"].s !in userMap)
    ensures r.Ok? && r.value.Some? ==> r.value.value == userMap[data["userId"].s]
  {
    if "userId" !in data then Ok(None)
    else match data["userId"]
      case Null => Ok(None)
      case Str(k) => if k in userMap then Ok(Some(userMap[k])) else Ok(None)
      case _ => Err(NotAString)
  }

  /** Rows that point at users keep pointing at users when the Users table only gains rows. */
  lemma TablesGrowWithUsers(reports: map<Guid, Reports.ReportState>, comments: seq<Comments.CommentState>,
                            users: map<Guid, Users.UserState>, users': map<Guid, Users.UserState>, next: Guid)
    requires users.Keys <= users'.Keys
    requires ReportsTable(reports, users, next) && CommentsTable(comments, reports, users)
    ensures ReportsTable(reports, users', next) && CommentsTable(comments, reports, users')
  {
  }

  /** Comments keep pointing at reports when the Reports table only gains rows. */
  lemma CommentsFollowReports(comments: seq<Comments.CommentState>, reports: map<Guid, Reports.ReportState>,
                              reports': map<Guid, Reports.ReportState>, users: map<Guid, Users.UserState>)
    requires reports.Keys <= reports'.Keys && CommentsTable(comments, reports, users)
    ensures CommentsTable(comments, reports', users)
  {
  }

  /** Appending a stored comment whose report and author exist keeps the Comments table. */
  lemma CommentsAppend(comments: seq<Comments.CommentState>, c: Comments.CommentState,
                       reports: map<Guid, Reports.ReportState>, users: map<Guid, Users.UserState>)
    requires CommentsTable(comments, reports, users)
    requires Comments.Stored(c) && c.reportId in reports && c.authorId in users
    ensures CommentsTable(comments + [c], reports, users)
  {
  }

  // ---------------------------------------------------------------- the service

  class MigrationService {
    /** The Users, Reports and Comments tables. */
    var users: map<Guid, Users.UserState>
    var reports: map<Guid, Reports.ReportState>
    var comments: seq<Comments.CommentState>
    /** `_userMap`: the Firebase id of each migrated user document to the Guid of its row. */
    var userMap: map<string, Guid>
    /** The audit records written to the Logs table, and the lines written to the console instead. */
    var logs: seq<Logs.LogEntry>
    var console: seq<string>
    /** Guid.NewGuid: the next Guid it hands out. */
    var nextGuid: Guid
    /** Whether writing to the Logs table throws. */
    const auditFails: bool

    ghost predicate Valid()
      reads this
    {
      nextGuid != EmptyGuid
      && UsersTable(users, nextGuid) && ReportsTable(reports, users, nextGuid)
      && CommentsTable(comments, reports, users) && MapTargetsUsers(userMap, users)
    }

    /** A service over the stored tables, with an empty Firebase-id map. */
    constructor (users: map<Guid, Users.UserState>, reports: map<Guid, Reports.ReportState>,
                 comments: seq<Comments.CommentState>, next: Guid, auditFails: bool)
      requires next != EmptyGuid
      requires UsersTable(users, next) && ReportsTable(reports, users, next) && CommentsTable(comments, reports, users)
      ensures Valid()
      ensures this.users == users && this.reports == reports && this.comments == comments && userMap == map[]
      ensures logs == [] && console == [] && this.auditFails == auditFails
    {
      this.users := users;
      this.reports := reports;
      this.comments := comments;
      this.userMap := map[];
      this.logs := [];
      this.console := [];
      this.nextGuid := next;
      this.auditFails := auditFails;
    }

    /** Guid.NewGuid called `n` times in a row: the first of the Guids; the tables do not change. */
    method NewGuids(n: nat) returns (g: Guid)
      requires Valid()
      modifies this
      ensures Valid()
      ensures g == old(nextGuid) && nextGuid == old(nextGuid) + n
      ensures users == old(users) && reports == old(reports) && comments == old(comments) && userMap == old(userMap)
      ensures logs == old(logs) && console == old(console)
    {
      g := nextGuid;
      nextGuid := nextGuid + n;
    }

    /** LogAsync: never throws. The record is the unvalidated Log the parameterless constructor
        builds; when the Logs table rejects it, CreateLogAsync catches the failure itself and writes
        the message, prefixed, to the console (the service's own catch is never reached). */
    method LogAsync(level: string, message: string, exception: Option<string>)
      requires Valid()
      modifies this
      ensures Valid()
      ensures users == old(users) && reports == old(reports) && comments == old(comments)
      ensures userMap == old(userMap) && nextGuid == old(nextGuid)
      ensures !auditFails ==> logs == old(logs) + [Logs.Unvalidated(level, message, exception)] && console == old(console)
      ensures auditFails ==> logs == old(logs) && console == old(console) + [AuditFailurePrefix + message]
    {
      if auditFails {
        console := console + [AuditFailurePrefix + message];
      } else {
        logs := logs + [Logs.Unvalidated(level, message, exception)];
      }
    }

    /** GetByFirebaseIdAsync on the Users table: some row whose FirebaseId is `key`, or None when
        there is none. */
    method FindUser(key: string) returns (found: Option<Guid>)
      ensures found.Some? ==> found.value in users && users[found.value].firebaseId == key
      ensures found.None? ==> forall g :: g in users ==> users[g].firebaseId != key
    {
      if g :| g in users && users[g].firebaseId == key {
        return Some(g);
      }
      return None;
    }

    /** GetByFirebaseIdAsync on the Reports table. */
    method FindReport(key: string) returns (found: Option<Guid>)
      ensures found.Some? ==> found.value in reports && reports[found.value].firebaseId == key
      ensures found.None? ==> forall g :: g in reports ==> reports[g].firebaseId != key
    {
      if g :| g in reports && reports[g].firebaseId == key {
        return Some(g);
      }
      return None;
    }


    // -------------------------------------------------------------- users

    /** Saves a user row under its own Guid and maps the Firebase id `key` to it. */
    method PutUser(key: string, u: Users.UserState)
      requires Valid() && Users.Stored(u) && u.id < nextGuid
      modifies this
      ensures Valid()
      ensures users == old(users)[u.id := u] && userMap == old(userMap)[key := u.id]
      ensures reports == old(reports) && comments == old(comments) && nextGuid == old(nextGuid)
      ensures logs == old(logs) && console == old(console)
    {
      TablesGrowWithUsers(reports, comments, users, users[u.id := u], nextGuid);
      users := users[u.id := u];
      userMap := userMap[key := u.id];
    }

    /** User.FromFirestore followed by reading the new entity back as a row. */
    static method BuildUser(doc: Document, id: Guid, now: Time) returns (r: Result<Users.UserState>)
      ensures UserBuilt(r, doc, id, now)
      ensures r.Ok? ==> Users.Stored(r.value) && r.value.id == id
    {
      var made := Users.User.FromFirestore(doc, id, now);
      if made.Err? {
        return Err(made.message);
      }
      r := Ok(made.value.State());
    }

    /** A stored user row loaded as an entity, UpdateFromFirestore on it, and the entity read back;
        the row keeps its Guid and its Firebase id. */
    static method ReloadUser(s: Users.UserState, doc: Document, now: Time) returns (r: Result<Users.UserState>)
      requires Users.Stored(s)
      ensures UserReloaded(r, s, doc.data, now)
      ensures r.Ok? ==> Users.Stored(r.value) && r.value.id == s.id && r.value.firebaseId == s.firebaseId
    {
      Users.UpdateKeepsStored(s, doc.data, now);
      var user := new Users.User.Load(s);
      var c := user.UpdateFromFirestore(doc, now);
      if c.Fail? {
        return Err(c.message);
      }
      r := Ok(user.State());
    }

    /** The creating branch for a document whose Firebase id no user has: FromFirestore under a fresh
        Guid, and on success the new row and its map entry. */
    method CreateUser(doc: Document, now: Time) returns (r: Result<Users.UserState>)
      requires Valid()
      modifies this
      ensures Valid()
      ensures reports == old(reports) && comments == old(comments) && nextGuid == old(nextGuid) + 1
      ensures UserBuilt(r, doc, old(nextGuid), now)
      ensures r.Ok? ==> r.value.id == old(nextGuid)
                        && users == old(users)[old(nextGuid) := r.value] && userMap == old(userMap)[doc.id := old(nextGuid)]
      ensures r.Err? ==> users == old(users) && userMap == old(userMap)
    {
      var id := NewGuids(1);
      r := BuildUser(doc, id, now);
      if r.Ok? {
        PutUser(doc.id, r.value);
        LogAsync(Information, "Usu\U{e1}rio criado: " + r.value.email, None);
      }
    }

    /** The updating branch for the stored user `g`: UpdateFromFirestore on the row as loaded, and
        on success the updated row, still under `g`, and the map entry. */
    method RefreshUser(g: Guid, doc: Document, now: Time) returns (r: Result<Users.UserState>)
      requires Valid() && g in users
      modifies this
      ensures Valid()
      ensures reports == old(reports) && comments == old(comments) && nextGuid == old(nextGuid)
      ensures UserReloaded(r, old(users)[g], doc.data, now)
      ensures r.Ok? ==> r.value.id == g && users == old(users)[g := r.value] && userMap == old(userMap)[doc.id := g]
      ensures r.Err? ==> users == old(users) && userMap == old(userMap)
    {
      r := ReloadUser(users[g], doc, now);
      if r.Ok? {
        PutUser(doc.id, r.value);
        LogAsync(Information, "Usu\U{e1}rio atualizado: " + r.value.email, None);
      }
    }

    /** The try block of the users loop for one document: a user with the document's Firebase id is
        updated in place, otherwise FromFirestore builds one under a fresh Guid; either way the
        document's id is then mapped to the row's Guid. An exception leaves the table and the map
        as they were, and is logged. */
    method MigrateUser(doc: Document, now: Time) returns (existing: Option<Guid>, row: Result<Users.UserState>, o: UserOutcome)
      requires Valid()
      modifies this
      ensures Valid()
      ensures reports == old(reports) && comments == old(comments)
      ensures nextGuid == if existing.None? then old(nextGuid) + 1 else old(nextGuid)
      ensures existing.None? <==> forall g :: g in old(users) ==> old(users)[g].firebaseId != doc.id
      ensures existing.Some? ==> existing.value in old(users) && old(users)[existing.value].firebaseId == doc.id
      ensures existing.None? ==> UserBuilt(row, doc, old(nextGuid), now)
      ensures existing.Some? ==> UserReloaded(row, old(users)[existing.value], doc.data, now)
      ensures row.Err? ==> o == UserFailed(row.message) && users == old(users) && userMap == old(userMap)
      ensures row.Ok? ==> o == (if existing.None? then UserCreated(old(nextGuid)) else UserUpdated(existing.value))
      ensures row.Ok? ==> row.value.id == o.id && users == old(users)[o.id := row.value]
                          && userMap == old(userMap)[doc.id := o.id]
    {
      existing := FindUser(doc.id);
      if existing.None? {
        row := CreateUser(doc, now);
      } else {
        row := RefreshUser(existing.value, doc, now);
      }
      if row.Err? {
        o := UserFailed(row.message);
        LogAsync(Error, "Erro ao migrar usu\U{e1}rio " + doc.id, Some(o.message));
      } else if existing.None? {
        o := UserCreated(row.value.id);
      } else {
        o := UserUpdated(existing.value);
      }
    }

    /** MigrateUsersAsync on the snapshot of the users collection (None when reading it throws, which
        escapes): every document ends in exactly one way, the map gains an entry only for a document
        of the snapshot, and no user row is ever removed or renumbered. */
    method MigrateUsers(snapshot: Option<seq<Document>>, now: Time)
      returns (c: Check, created: nat, updated: nat, ghost failed: nat)
      requires Valid()
      modifies this
      ensures Valid()
      ensures reports == old(reports) && comments == old(comments)
      ensures snapshot.None? ==> c == Fail(ReadFailure) && users == old(users) && userMap == old(userMap)
      ensures snapshot.Some? ==> c == Pass && created + updated + failed == |snapshot.value|
      ensures forall g :: g in old(users) ==> g in users && users[g].id == g
      ensures old(userMap).Keys <= userMap.Keys
      ensures snapshot.Some? ==> userMap.Keys <= old(userMap).Keys + DocIds(snapshot.value)
    {
      LogAsync(Information, "Migrando cole\U{e7}\U{e3}o: users...", None);
      created, updated, failed := 0, 0, 0;
      if snapshot.None? {
        return Fail(ReadFailure), created, updated, failed;
      }
      var docs := snapshot.value;
      ghost var users0, map0 := users, userMap;
      for i := 0 to |docs|
        invariant Valid()
        invariant reports == old(reports) && comments == old(comments)
        invariant created + updated + failed == i
        invariant forall g :: g in users0 ==> g in users && users[g].id == g
        invariant map0.Keys <= userMap.Keys <= map0.Keys + DocIds(docs)
      {
        var existing, row, o := MigrateUser(docs[i], now);
        match o
        case UserCreated(_) => created := created + 1;
        case UserUpdated(_) => updated := updated + 1;
        case UserFailed(_) => failed := failed + 1;
      }
      LogAsync(Information, "Migra\U{e7}\U{e3}o de usu\U{e1}rios conclu\U{ed}da: " + NatToText(created) + " criados, "
                            + NatToText(updated) + " atualizados.", None);
      c := Pass;
    }

    // -------------------------------------------------------------- reports

    /** Saves a report row under its own Guid. */
    method PutReport(r: Reports.ReportState)
      requires Valid() && Reports.Stored(r) && r.id < nextGuid && r.userId in users
      modifies this
      ensures Valid()
      ensures reports == old(reports)[r.id := r]
      ensures users == old(users) && userMap == old(userMap) && comments == old(comments) && nextGuid == old(nextGuid)
      ensures logs == old(logs) && console == old(console)
    {
      CommentsFollowReports(comments, reports, reports[r.id := r], users);
      reports := reports[r.id := r];
    }

    /** Report.FromFirestore followed by reading the new entity back as a row: the report under `id`,
        its Location under `id + 1`, owned by `userId`, keyed by the document's id. */
    static method BuildReport(doc: Document, userId: Guid, id: Guid, now: Time) returns (r: Result<Reports.ReportState>)
      requires id != EmptyGuid
      ensures ReportBuilt(r, doc, userId, id, now)
      ensures r.Ok? ==> Reports.Stored(r.value) && r.value.id == id && r.value.userId == userId
                        && r.value.firebaseId == doc.id
    {
      var made := Reports.Report.FromFirestore(doc, userId, id, LocationGuid(id), now);
      if made.Err? {
        return Err(made.message);
      }
      r := Ok(made.value.State());
    }

    /** A stored report row loaded as an entity, UpdateFromFirestore on it, and the entity read back;
        the row keeps its Guid and its Firebase id and is now owned by `userId`. */
    static method ReloadReport(s: Reports.ReportState, doc: Document, userId: Guid, locationId: Guid, now: Time)
      returns (r: Result<Reports.ReportState>)
      requires Reports.Stored(s)
      ensures ReportReloaded(r, s, doc.data, userId, locationId, now)
      ensures r.Ok? ==> Reports.Stored(r.value) && r.value.id == s.id && r.value.userId == userId
                        && r.value.firebaseId == s.firebaseId
    {
      Reports.UpdateKeepsStored(s, doc.data, userId, now, locationId);
      var report := new Reports.Report.Load(s);
      var c := report.UpdateFromFirestore(doc, userId, now, locationId);
      if c.Fail? {
        return Err(c.message);
      }
      r := Ok(report.State());
    }

    /** The creating branch for a report document whose Firebase id no stored report has:
        FromFirestore for the owner `userId` under two fresh Guids, the report's and its Location's,
        and on success the new row. */
    method CreateReport(doc: Document, userId: Guid, now: Time) returns (r: Result<Reports.ReportState>)
      requires Valid() && userId in users
      modifies this
      ensures Valid()
      ensures users == old(users) && userMap == old(userMap) && comments == old(comments)
      ensures nextGuid == old(nextGuid) + 2
      ensures ReportBuilt(r, doc, userId, old(nextGuid), now)
      ensures r.Ok? ==> r.value.id == old(nextGuid) && reports == old(reports)[old(nextGuid) := r.value]
                        && r.value.userId == userId && r.value.firebaseId == doc.id
      ensures r.Err? ==> reports == old(reports)
    {
      var id := NewGuids(2);
      r := BuildReport(doc, userId, id, now);
      if r.Ok? {
        PutReport(r.value);
        LogAsync(Information, "Report criado: " + r.value.title, None);
      }
    }

    /** The updating branch for the stored report `g`: UpdateFromFirestore for the owner `userId` on
        the row as loaded, with a fresh Guid for a Location it may have to create, and on success the
        updated row, still under `g`. */
    method RefreshReport(g: Guid, doc: Document, userId: Guid, now: Time) returns (r: Result<Reports.ReportState>)
      requires Valid() && g in reports && userId in users
      modifies this
      ensures Valid()
      ensures users == old(users) && userMap == old(userMap) && comments == old(comments)
      ensures nextGuid == old(nextGuid) + 1
      ensures ReportReloaded(r, old(reports)[g], doc.data, userId, old(nextGuid), now)
      ensures r.Ok? ==> r.value.id == g && reports == old(reports)[g := r.value]
                        && r.value.userId == userId && r.value.firebaseId == old(reports)[g].firebaseId
      ensures r.Err? ==> reports == old(reports)
    {
      var loc := NewGuids(1);
      r := ReloadReport(reports[g], doc, userId, loc, now);
      if r.Ok? {
        PutReport(r.value);
        LogAsync(Information, "Report atualizado: " + r.value.title, None);
      }
    }

    /** The create-or-update step for a report whose owner is `userId`: a new report under the next
        Guid when `existing` is None, otherwise the stored report `existing` updated in place. */
    method SaveRow(existing: Option<Guid>, doc: Document, userId: Guid, now: Time) returns (row: Result<Reports.ReportState>)
      requires Valid() && userId in users && (existing.Some? ==> existing.value in reports)
      modifies this
      ensures Valid()
      ensures users == old(users) && userMap == old(userMap) && comments == old(comments)
      ensures nextGuid == if existing.None? then old(nextGuid) + 2 else old(nextGuid) + 1
      ensures existing.None? ==> ReportBuilt(row, doc, userId, old(nextGuid), now)
      ensures existing.Some? ==> ReportReloaded(row, old(reports)[existing.value], doc.data, userId, old(nextGuid), now)
      ensures row.Ok? ==> row.value.id == (if existing.None? then old(nextGuid) else existing.value)
                          && reports == old(reports)[row.value.id := row.value] && row.value.userId == userId
                          && row.value.firebaseId == if existing.None? then doc.id else old(reports)[existing.value].firebaseId
      ensures row.Err? ==> reports == old(reports)
    {
      if existing.None? {
        row := CreateReport(doc, userId, now);
      } else {
        row := RefreshReport(existing.value, doc, userId, now);
      }
    }

    /** Reading and migrating the comments subcollection of the saved report `report`; a read that
        throws is logged like any exception of the report's try block, and nothing is inserted. */
    method SaveComments(report: Reports.ReportState, src: ReportSource, now: Time)
      returns (c: Check, inserted: nat, ghost results: seq<Result<Comments.CommentState>>)
      requires Valid() && report.id in reports
      modifies this
      ensures Valid()
      ensures users == old(users) && reports == old(reports) && userMap == old(userMap)
      ensures c == if src.comments.Some? then Pass else Fail(ReadFailure)
      ensures src.comments.None? ==> results == [] && nextGuid == old(nextGuid)
      ensures src.comments.Some? ==> nextGuid == old(nextGuid) + |src.comments.value|
                                     && BuiltEach(results, src.comments.value, report.id, userMap, old(nextGuid), now)
      ensures comments == old(comments) + Kept(results) && inserted == |Kept(results)|
    {
      if src.comments.None? {
        LogAsync(Error, "Erro ao migrar report " + src.doc.id, Some(ReadFailure));
        return Fail(ReadFailure), 0, [];
      }
      c := Pass;
      inserted, results := MigrateComments(report, src.comments.value, now);
    }

    /** The part of the reports loop's try block after the owner is known: the report is created or
        updated for `userId`, and only a saved report has its comments read and inserted, each under a
        fresh Guid and never looked up. Reading the subcollection may throw after the report was
        saved. */
    method SaveReport(existing: Option<Guid>, src: ReportSource, userId: Guid, now: Time)
      returns (row: Result<Reports.ReportState>, o: ReportOutcome, inserted: nat,
               ghost first: Guid, ghost results: seq<Result<Comments.CommentState>>)
      requires Valid() && userId in users && (existing.Some? ==> existing.value in reports)
      modifies this
      ensures Valid()
      ensures users == old(users) && userMap == old(userMap)
      ensures nextGuid >= old(nextGuid)
      ensures row.Err? ==> o == Rejected(row.message) && reports == old(reports) && comments == old(comments)
                           && inserted == 0
      ensures row.Ok? ==> o == Saved(row.value.id, existing.None?, if src.comments.Some? then Pass else Fail(ReadFailure))
                          && reports == old(reports)[row.value.id := row.value]
      ensures row.Ok? ==> row.value.id == (if existing.None? then old(nextGuid) else existing.value)
                          && row.value.userId == userId
                          && row.value.firebaseId == if existing.None? then src.doc.id else old(reports)[existing.value].firebaseId
      ensures row.Ok? && src.comments.None? ==> comments == old(comments) && inserted == 0
      ensures first == if existing.None? then old(nextGuid) + 2 else old(nextGuid) + 1
      ensures row.Ok? && src.comments.Some? ==> BuiltEach(results, src.comments.value, row.value.id, old(userMap), first, now)
      ensures comments == old(comments) + Kept(results) && inserted == |Kept(results)|
      ensures row.Err? || src.comments.None? ==> results == []
    {
      row := SaveRow(existing, src.doc, userId, now);
      first := nextGuid;
      if row.Err? {
        o := Rejected(row.message);
        LogAsync(Error, "Erro ao migrar report " + src.doc.id, Some(o.message));
        return row, o, 0, first, [];
      }
      var c;
      c, inserted, results := SaveComments(row.value, src, now);
      o := Saved(row.value.id, existing.None?, c);
    }

    /** The try block of the reports loop for one document. The report's owner is resolved through
        the Firebase-id map; an unresolved owner skips the document before anything is written or
        read, a non-text owner field throws. A resolved owner leads to SaveReport: the report is
        created under the next Guid or updated under its own, for that owner. */
    method MigrateReport(src: ReportSource, now: Time)
      returns (existing: Option<Guid>, o: ReportOutcome, inserted: nat, ghost first: Guid,
               ghost results: seq<Result<Comments.CommentState>>)
      requires Valid()
      modifies this
      ensures Valid()
      ensures users == old(users) && userMap == old(userMap) && nextGuid >= old(nextGuid)
      ensures existing.None? <==> forall g :: g in old(reports) ==> old(reports)[g].firebaseId != src.doc.id
      ensures existing.Some? ==> existing.value in old(reports) && old(reports)[existing.value].firebaseId == src.doc.id
      ensures var owner := Owner(src.doc.data, old(userMap));
              && (owner.Err? ==> o == Rejected(owner.message))
              && (owner.Ok? && owner.value.None? <==> o.Skipped?)
              && (o.Saved? ==> o.id in reports && owner == Ok(Some(reports[o.id].userId)))
      ensures o.Saved? ==> o.created == existing.None? && o.id in reports && reports[o.id].firebaseId == src.doc.id
                           && reports == old(reports)[o.id := reports[o.id]]
                           && o.id == (if o.created then old(nextGuid) else existing.value)
                           && (o.comments.Pass? <==> src.comments.Some?)
      ensures !o.Saved? ==> reports == old(reports)
      ensures !o.Saved? || src.comments.None? ==> results == [] && comments == old(comments) && inserted == 0
      ensures o.Saved? ==> first == if o.created then old(nextGuid) + 2 else old(nextGuid) + 1
      ensures o.Saved? && src.comments.Some? ==> BuiltEach(results, src.comments.value, o.id, old(userMap), first, now)
      ensures comments == old(comments) + Kept(results) && inserted == |Kept(results)|
    {
      existing := FindReport(src.doc.id);
      inserted, first, results := 0, nextGuid, [];
      var owner := Owner(src.doc.data, userMap);
      if owner.Err? {
        o := Rejected(owner.message);
        LogAsync(Error, "Erro ao migrar report " + src.doc.id, Some(o.message));
        return;
      }
      if owner.value.None? {
        o := Skipped;
        LogAsync(Warning, "Usu\U{e1}rio n\U{e3}o encontrado para o report " + src.doc.id, None);
        return;
      }
      var row;
      row, o, inserted, first, results := SaveReport(existing, src, owner.value.value, now);
    }

    /** Inserts one comment row. */
    method PutComment(c: Comments.CommentState)
      requires Valid() && Comments.Stored(c) && c.reportId in reports && c.authorId in users
      modifies this
      ensures Valid()
      ensures comments == old(comments) + [c]
      ensures users == old(users) && userMap == old(userMap) && reports == old(reports) && nextGuid == old(nextGuid)
      ensures logs == old(logs) && console == old(console)
    {
      CommentsAppend(comments, c, reports, users);
      comments := comments + [c];
    }

    /** Comment.FromFirestore followed by reading the new entity back as a row: a stored comment of
        the report `reportId` under `id`, whose author is a mapped user. */
    static method BuildComment(doc: Document, reportId: Guid, userMap: map<string, Guid>, id: Guid, now: Time)
      returns (r: Result<Comments.CommentState>)
      ensures CommentBuilt(r, doc, reportId, userMap, id, now)
      ensures r.Ok? ==> Comments.Stored(r.value) && r.value.id == id && r.value.reportId == reportId
                        && r.value.authorId in userMap.Values
    {
      var made := Comments.Comment.FromFirestore(doc, reportId, userMap, id, now);
      if made.Err? {
        return Err(made.message);
      }
      r := Ok(made.value.State());
    }

    /** One pass of the inner loop: FromFirestore on the comment document under the next Guid, and
        the row inserted when it succeeds; an exception is logged and only ends this pass. */
    method MigrateComment(report: Reports.ReportState, doc: Document, now: Time) returns (made: Result<Comments.CommentState>)
      requires Valid() && report.id in reports
      modifies this
      ensures Valid()
      ensures users == old(users) && reports == old(reports) && userMap == old(userMap)
      ensures nextGuid == old(nextGuid) + 1
      ensures CommentBuilt(made, doc, report.id, userMap, old(nextGuid), now)
      ensures comments == if made.Ok? then old(comments) + [made.value] else old(comments)
    {
      var id := NewGuids(1);
      made := BuildComment(doc, report.id, userMap, id, now);
      if made.Ok? {
        PutComment(made.value);
        LogAsync(Information, "Coment\U{e1}rio criado para report " + report.title + ": " + made.value.message, None);
      } else {
        LogAsync(Error, "Erro ao migrar coment\U{e1}rio " + doc.id, Some(made.message));
      }
    }

    /** The inner loop over a saved report's comments: each document is turned into a comment under
        a fresh Guid and inserted, without looking for an earlier copy; one that throws is logged and
        its siblings carry on. The Firebase-id map is only read. `results` is what FromFirestore
        made of each document. */
    method MigrateComments(report: Reports.ReportState, docs: seq<Document>, now: Time)
      returns (inserted: nat, ghost results: seq<Result<Comments.CommentState>>)
      requires Valid() && report.id in reports
      modifies this
      ensures Valid()
      ensures users == old(users) && reports == old(reports) && userMap == old(userMap)
      ensures nextGuid == old(nextGuid) + |docs|
      ensures BuiltEach(results, docs, report.id, userMap, old(nextGuid), now)
      ensures comments == old(comments) + Kept(results) && inserted == |Kept(results)|
    {
      inserted, results := 0, [];
      ghost var first, comments0, authors := nextGuid, comments, userMap;
      for i := 0 to |docs|
        invariant Valid()
        invariant users == old(users) && reports == old(reports) && userMap == authors
        invariant nextGuid == first + i && |results| == i
        invariant BuiltEach(results, docs[..i], report.id, authors, first, now)
        invariant comments == comments0 + Kept(results) && inserted == |Kept(results)|
      {
        ghost var id := nextGuid;
        var made := MigrateComment(report, docs[i], now);
        PointwiseSnoc(results, docs, i, Building(report.id, authors, now), first, made, id);
        KeptSnoc(results, made);
        if made.Ok? {
          AppendAssoc(comments0, Kept(results), [made.value]);
          inserted := inserted + 1;
        }
        results := results + [made];
      }
      assert docs[..|docs|] == docs;
    }

    /** MigrateReportsAsync on the snapshot of the reports collection (None when reading it throws,
        which escapes): every document is skipped, rejected or saved, a saved report's counter
        stays counted when its comments then fail, and the users and the map are left alone. */
    method MigrateReports(snapshot: Option<seq<ReportSource>>, now: Time)
      returns (c: Check, created: nat, updated: nat, skipped: nat, commentsCount: nat, ghost rejected: nat)
      requires Valid()
      modifies this
      ensures Valid()
      ensures users == old(users) && userMap == old(userMap)
      ensures snapshot.None? ==> c == Fail(ReadFailure) && reports == old(reports) && comments == old(comments)
      ensures snapshot.Some? ==> c == Pass && created + updated + skipped + rejected == |snapshot.value|
      ensures forall g :: g in old(reports) ==> g in reports && reports[g].id == g
      ensures old(comments) <= comments && |comments| == |old(comments)| + commentsCount
    {
      LogAsync(Information, "Migrando cole\U{e7}\U{e3}o: reports...", None);
      created, updated, skipped, commentsCount, rejected := 0, 0, 0, 0, 0;
      if snapshot.None? {
        return Fail(ReadFailure), created, updated, skipped, commentsCount, rejected;
      }
      var docs := snapshot.value;
      ghost var reports0, comments0 := reports, comments;
      for i := 0 to |docs|
        invariant Valid()
        invariant users == old(users) && userMap == old(userMap)
        invariant created + updated + skipped + rejected == i
        invariant forall g :: g in reports0 ==> g in reports && reports[g].id == g
        invariant comments0 <= comments && |comments| == |comments0| + commentsCount
      {
        var existing, o, n;
        ghost var first, results;
        existing, o, n, first, results := MigrateReport(docs[i], now);
        match o
        case Skipped => skipped := skipped + 1;
        case Rejected(_) => rejected := rejected + 1;
        case Saved(_, isNew, _) =>
          if isNew {
            created := created + 1;
          } else {
            updated := updated + 1;
          }
        commentsCount := commentsCount + n;
      }
      LogAsync(Information, "Migra\U{e7}\U{e3}o de reports conclu\U{ed}da: " + NatToText(created) + " criados, "
                            + NatToText(updated) + " atualizados, " + NatToText(skipped) + " ignorados, "
                            + NatToText(commentsCount) + " coment\U{e1}rios migrados.", None);
      c := Pass;
    }

    // -------------------------------------------------------------- the run

    /** RunMigrationAsync on the two collection snapshots: the users phase runs to its end before the
        reports phase starts; an exception escaping a phase is logged and rethrown, and no later phase
        runs. */
    method RunMigration(userDocs: Option<seq<Document>>, reportDocs: Option<seq<ReportSource>>, now: Time)
      returns (c: Check)
      requires Valid()
      modifies this
      ensures Valid()
      ensures c.Pass? <==> userDocs.Some? && reportDocs.Some?
      ensures c.Fail? ==> c.message == ReadFailure
      ensures userDocs.None? ==> users == old(users) && userMap == old(userMap)
      ensures userDocs.None? || reportDocs.None? ==> reports == old(reports) && comments == old(comments)
      ensures forall g :: g in old(users) ==> g in users && users[g].id == g
      ensures forall g :: g in old(reports) ==> g in reports && reports[g].id == g
      ensures old(comments) <= comments
      ensures old(userMap).Keys <= userMap.Keys
    {
      LogAsync(Information, "Iniciando processo de migra\U{e7}\U{e3}o...", None);
      var created, updated;
      ghost var failed;
      c, created, updated, failed := MigrateUsers(userDocs, now);
      if c.Pass? {
        var skipped, count;
        ghost var rejected;
        c, created, updated, skipped, count, rejected := MigrateReports(reportDocs, now);
      }
      if c.Fail? {
        LogAsync(Error, "Erro durante o processo de migra\U{e7}\U{e3}o.", Some(c.message));
        return;
      }
      LogAsync(Information, "Migra\U{e7}\U{e3}o conclu\U{ed}da com sucesso!", None);
    }
  }
}
