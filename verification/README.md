# CidadeIntegra migration core in Dafny

CidadeIntegra moves a city-reporting app's data from Firestore into a relational database. This
project models the part of it that does real work:

- **The migration service** (`MigrationService`). A run first walks the `users` collection. Each
  document becomes a new user row, or updates the row that already has the document's Firebase id,
  and the service records which Guid each Firebase user id became (`_userMap`). The run then walks
  the `reports` collection:
  - a report whose `userId` cannot be resolved through that map is skipped;
  - any other report is created or updated for the resolved owner;
  - the documents of the report's `comments` subcollection are then inserted as new comments.

  The service counts what it did. An exception in one document is caught, logged, and does not stop
  the loop. `LogAsync` writes an audit record and never throws: when the Logs table rejects the
  write, the log service catches the failure itself and writes the message, prefixed with
  "Falha ao gravar log no banco: ", to the console.
- **The entities the service relies on**: `User`, `Report` (with its nested `Location`), `Comment`
  and `Log`. Each one has:
  - a fail-fast guard chain in which the first broken rule's message is the exception;
  - a `FromFirestore` factory that substitutes defaults for absent keys;
  - an `UpdateFromFirestore` that falls back to the current values;
  - small mutators that validate and then assign.
- **The API-key filter** in front of the migration endpoint. It answers 500 when no key is
  configured, 403 when the `x-api-key` header is missing or wrong, and otherwise lets the request
  through.

## Layout

| File | Module | Contents |
|---|---|---|
| `Guards.dfy` | `Guards` | `Option`, `Result` (a value or a thrown message), `Check` (a void call that returned or threw) and `Outcome` (what a mutation threw, if anything, and the state it left). |
| `Text.dfy` | `Text` | The .NET string operations the entities use: `IsNullOrWhiteSpace`, `Trim`, `ToLowerInvariant`, the e-mail check, and integer texts. |
| `Documents.dfy` | `Documents` | The loosely typed Firestore values and documents, `GetValueOrDefault(...)?.ToString() ?? fallback`, `Convert.ToInt32` / `ToBoolean` / `ToDecimal`, and the entities' `ParseDate`. |
| `Users.dfy`, `Reports.dfy`, `Comments.dfy` | `Users`, `Reports`, `Comments` | Each entity's guard chains as functions and its Firestore reading as functions. Each entity is also a `class` whose methods update its fields in place. Every method is proved against a function on the `State()` snapshot. |
| `Logs.dfy` | `Logs` | The `Log` record: validating constructor, `Create`, and the unvalidated record the service writes. |
| `ApiKey.dfy` | `ApiKeyGate` | The filter's decision. |
| `Rows.dfy`, `Subcollections.dfy` | `Rows`, `Subcollections` | What a document yields as a row; what a report's comments subcollection yields, position by position. |
| `Migration.dfy` | `Migration` | The class `MigrationService`. It holds the Users, Reports and Comments tables, `_userMap`, the audit log and the Guid generator as fields, and its loops carry their invariants. |

Modelling conventions:

- A Guid is a `nat`; `Guid.Empty` is 0.
- A `DateTimeOffset` is a `nat` tick count; `default` is 0.
- `Guid.NewGuid` is a counter field of the service: `nextGuid` hands out fresh, never-empty Guids
  in order.
- The clock is the parameter `now`.
- A thrown `DomainExceptionValidation` (or a conversion exception) is an `Err` or `Fail` carrying the
  exception's message.

Properties the model proves:

- **Validators.** Each validator passes exactly when the conjunction of its rules holds, and reports
  the first broken rule in source order. `User.Validate` runs exactly the checks of the mutators, in
  the same order and with the same messages.
- **Stored forms.** Constructors and mutators store trimmed and lower-cased values. Every stored
  entity stays in a "stored form" whatever the mutators do, even when one of them throws part-way.
  For reports this means the status is always one of the five.
- **Updates.** A successful `UpdateFromFirestore` keeps every field whose key is absent, except
  those it always rewrites (the dates); for comments this holds whatever the outcome. A rejected report update changes nothing. A rejected user or comment update
  does leave earlier assignments in place.
- **Migration tables.** The migration keeps four table invariants:
  - every row is under its own Guid;
  - every report's owner is a stored user;
  - every comment's report and author are stored;
  - the Firebase-id map only points at stored users.
- **Migration counts and outcomes.** Each document ends in exactly one way, and the counters add up
  to the snapshot's size. An unresolved owner skips a report before anything is written or its
  comments are read.
  Comments are handled as follows:
  - they are only read for a saved report;
  - they are always inserted, never looked up, so a second run inserts them again;
  - each one is independent of its siblings.

Some behaviours that the code has as written are stated as lemmas:

- `UpdateImageIsListText`: on update, a list of image URLs is stored as its type name, not as its
  first URL.
- `StoredEmailCanFailRevalidation`: the raw e-mail is validated, but the trimmed one is stored.
- `ResolvedAtNotEnforced`: `ValidateResolvedAt` is never called.
- `UpdateNotAtomic` and `RejectedUpdateKeepsAssignments`: an update that throws part-way keeps what
  it had already assigned.
- `UpdateDoesNotTrim`: comment updates do not trim.

Three behaviours of the code worth noting:

- The users loop looks a user up by Firebase id only; there is no fallback lookup by e-mail
  (`MigrationService.cs:80`).
- A user's creation date is only required to differ from the default; unlike a comment's, it is not
  checked against the clock (`User.cs:240`).
- `_userMap` is a field of the service instance and is never cleared within a run.

## Model

Source paths are relative to the repository root.

| member | source | states |
|---|---|---|
| Text.Trim | CidadeIntegra/CidadeIntegra.Domain/Entities/User.cs:60 | string.Trim returns a text no longer than its input with no white space at either end |
| Text.TrimEmptyIffBlank | CidadeIntegra/CidadeIntegra.Domain/Entities/User.cs:221 | trimming gives the empty text exactly for an empty or white-space-only text (IsNullOrWhiteSpace) |
| Text.TrimIdempotent | CidadeIntegra/CidadeIntegra.Domain/Entities/User.cs:60 | trimming a trimmed text changes nothing |
| Text.NormalizeText | CidadeIntegra/CidadeIntegra.Domain/Entities/User.cs:60-65 | a text that passed its not-blank and length checks is, once trimmed, non-empty and within the same bound |
| Text.LowerIsLower | CidadeIntegra/CidadeIntegra.Domain/Entities/User.cs:61 | ToLowerInvariant leaves no capital letter |
| Text.LowerOfLower | CidadeIntegra/CidadeIntegra.Domain/Entities/User.cs:61 | lower-casing a text without capitals changes nothing, so lower-casing is idempotent |
| Text.TrimLower | CidadeIntegra/CidadeIntegra.Domain/Entities/Report.cs:170 | trimming and lower-casing commute, so IsValidStatus's order and the constructor's order agree |
| Documents.Get | CidadeIntegra/CidadeIntegra.Domain/Entities/User.cs:80 | GetValueOrDefault gives the fallback exactly for an absent key, the stored value otherwise |
| Documents.Render | CidadeIntegra/CidadeIntegra.Domain/Entities/Comment.cs:75 | `?.ToString()` is null exactly for a null value and is the string itself for a string |
| Documents.TextOr | CidadeIntegra/CidadeIntegra.Domain/Entities/User.cs:80-81 | an absent key or a null value gives the fallback, a string value gives itself |
| Documents.OptionalTextOr | CidadeIntegra/CidadeIntegra.Domain/Entities/User.cs:82-83 | an absent key gives the fallback, a present value its text or null |
| Documents.ToInt32 | CidadeIntegra/CidadeIntegra.Domain/Entities/User.cs:86-87 | null converts to 0; an integer converts exactly when it fits in 32 bits, to itself |
| Documents.ToBoolean | CidadeIntegra/CidadeIntegra.Domain/Entities/User.cs:88 | null is false, a boolean is itself, and only texts and other kinds can throw |
| Documents.ToDecimal | CidadeIntegra/CidadeIntegra.Domain/Entities/Report.cs:102-103 | null converts to 0 and an integer to itself |
| Documents.ParseDate | CidadeIntegra/CidadeIntegra.Domain/Entities/User.cs:136-145 | a Timestamp converts to its own ticks, null becomes the clock reading; it never throws |
| Documents.ParseDateNullable | CidadeIntegra/CidadeIntegra.Domain/Entities/Report.cs:186-190 | null exactly for null, a Timestamp's own ticks for a Timestamp |
| Users.ProfileCheck | CidadeIntegra/CidadeIntegra.Domain/Entities/User.cs:158-169 | UpdateProfile's checks pass exactly for a valid profile; otherwise the first broken rule in source order is reported: once the earlier rules hold, a blank name, an over-long name, a blank e-mail, a malformed e-mail, an over-long e-mail, photo URL or region is broken exactly when its own message is the one thrown; an e-mail without '@' is "Email must be valid." |
| Users.RoleCheck | CidadeIntegra/CidadeIntegra.Domain/Entities/User.cs:179-180 | passes exactly for a non-blank role of at most 50 characters, with the blank message before the length message |
| Users.StatusCheck | CidadeIntegra/CidadeIntegra.Domain/Entities/User.cs:186-187 | the same for the status |
| Users.StatsCheck | CidadeIntegra/CidadeIntegra.Domain/Entities/User.cs:193-194 | passes exactly when both counters are non-negative; a negative score is reported before a negative report count |
| Users.Validate | CidadeIntegra/CidadeIntegra.Domain/Entities/User.cs:209-241 | passes exactly when the id is set, name, e-mail, photo, region, role and status meet their bounds (100/150/255/100/50/50) and the creation date is set; an empty id is reported first (and only then), then the first failure of UpdateProfile's, ChangeRole's and ChangeStatus's chains with their messages, and last "CreatedAt must be set." exactly for the default date |
| Users.ValidateIsMutatorChecks | CidadeIntegra/CidadeIntegra.Domain/Entities/User.cs:219-240 | Validate is the id check, then UpdateProfile's, ChangeRole's and ChangeStatus's checks in that order with the same messages, then the date check |
| Users.ValidateRejectsTestInputs | CidadeIntegra/CidadeIntegra.Domain.Test/Entities/UserTests.cs:43-63 | the unit tests' empty name, empty e-mail and "invalid-email" fail with their own messages |
| Users.NormalizeEmail | CidadeIntegra/CidadeIntegra.Domain/Entities/User.cs:61 | a checked e-mail, trimmed and lower-cased, is non-empty, within 150 characters and has no capital letter |
| Users.RevalidateStored | CidadeIntegra/CidadeIntegra.Domain/Entities/User.cs:133 | re-validating a stored user depends only on its e-mail's shape and its creation date |
| Users.StoredEmailCanFailRevalidation | CidadeIntegra/CidadeIntegra.Domain/Entities/User.cs:57-61 | " @x" passes every profile check, but its stored form "@x" fails the e-mail check when validated again |
| Users.ReadUser | CidadeIntegra/CidadeIntegra.Domain/Entities/User.cs:80-90 | the read fails exactly when a counter or the flag does not convert (the score's error first); each text is the document's text or the fallback; absent counters and flag take the fallback |
| Users.EmptyDocumentReadsDefaults | CidadeIntegra/CidadeIntegra.Domain/Entities/User.cs:80-90 | an empty document reads as role "user", status "active", zero counters, not verified and empty texts, which the name check rejects |
| Users.NewUser | CidadeIntegra/CidadeIntegra.Domain/Entities/User.cs:75-108 | FromFirestore succeeds exactly when the read succeeds, Validate passes and the stats check passes; the user is then in stored form under the fresh Guid with the trimmed Firebase id (empty for a blank one) |
| Users.WithProfile | CidadeIntegra/CidadeIntegra.Domain/Entities/User.cs:171-174 | the profile assignment leaves id, Firebase id, role, status, score, report count, verified flag and both dates alone |
| Users.MutatorSteps | CidadeIntegra/CidadeIntegra.Domain/Entities/User.cs:126-129 | wherever the four mutator calls stop, id, Firebase id and both dates are unchanged |
| Users.ApplyUpdate | CidadeIntegra/CidadeIntegra.Domain/Entities/User.cs:126-133 | the rest of an update never changes the id or the Firebase id |
| Users.UpdateUser | CidadeIntegra/CidadeIntegra.Domain/Entities/User.cs:110-134 | UpdateFromFirestore never changes the id or the Firebase id, whatever it throws |
| Users.WithProfileKeepsStored | CidadeIntegra/CidadeIntegra.Domain/Entities/User.cs:171-174 | storing a checked profile keeps a user in stored form |
| Users.MutatorsKeepStored | CidadeIntegra/CidadeIntegra.Domain/Entities/User.cs:126-129 | the mutator sequence keeps the stored form wherever it stops |
| Users.ApplyKeepsStored | CidadeIntegra/CidadeIntegra.Domain/Entities/User.cs:126-133 | so does the rest of the update |
| Users.UpdateKeepsStored | CidadeIntegra/CidadeIntegra.Domain/Entities/User.cs:110-134 | an update, succeeding or throwing part-way, leaves a user in stored form |
| Users.UpdateSuccess | CidadeIntegra/CidadeIntegra.Domain/Entities/User.cs:110-134 | a successful update leaves a user that passes Validate under the same id and Firebase id, holding every field as read with the current value as fallback: name, e-mail (lower-cased), photo URL, region, role and status trimmed, the converted score, report count and verified flag, the re-parsed creation date, and the parsed last login date unless it is the default |
| Users.UpdateKeepsAbsentFields | CidadeIntegra/CidadeIntegra.Domain/Entities/User.cs:110-134 | a successful update of a stored user keeps every field whose key the document lacks; the creation and last login dates become the clock reading |
| Users.UpdateNotAtomic | CidadeIntegra/CidadeIntegra.Domain/Entities/User.cs:126-128 | when the profile checks pass and ChangeRole throws, the update fails yet the new name and e-mail are stored and the role is not |
| Users.StoredPassesChecks | CidadeIntegra/CidadeIntegra.Domain/Entities/User.cs:155-199 | a stored user with a well-formed e-mail passes every mutator's checks on its own fields |
| Users.StoredIsNormalized | CidadeIntegra/CidadeIntegra.Domain/Entities/User.cs:171-188 | normalising a stored user's own fields gives them back |
| Users.EmptyDocumentResetsDates | CidadeIntegra/CidadeIntegra.Domain/Entities/User.cs:114-133 | an update from an empty document succeeds and changes only the two dates, both to the clock reading |
| Users.ApplyOwnFields | CidadeIntegra/CidadeIntegra.Domain/Entities/User.cs:126-133 | handing a stored user its own fields changes only the two dates |
| Users.User.constructor | CidadeIntegra/CidadeIntegra.Domain/Entities/User.cs:55-71 | for validated arguments: trimmed texts, the e-mail trimmed and lower-cased, zero counters, not verified, last login at the clock reading |
| Users.User.Load | CidadeIntegra/CidadeIntegra.Domain/Entities/User.cs:53 | a stored row materialises as an entity with exactly that state |
| Users.User.New | CidadeIntegra/CidadeIntegra.Domain/Entities/User.cs:55-71 | `new User(...)` yields a user exactly when Validate passes, otherwise Validate's message |
| Users.User.SetFirebaseId | CidadeIntegra/CidadeIntegra.Domain/Entities/User.cs:149-153 | a blank id changes nothing; any other id is stored trimmed and nothing else changes |
| Users.User.UpdateProfile | CidadeIntegra/CidadeIntegra.Domain/Entities/User.cs:155-175 | on passing checks exactly the four profile fields change, normalised; on failure nothing changes |
| Users.User.StoreProfile | CidadeIntegra/CidadeIntegra.Domain/Entities/User.cs:171-174 | the profile assignments, keeping the stored form |
| Users.User.ChangeRole | CidadeIntegra/CidadeIntegra.Domain/Entities/User.cs:177-182 | a valid role is stored trimmed and nothing else changes; an invalid one changes nothing |
| Users.User.ChangeStatus | CidadeIntegra/CidadeIntegra.Domain/Entities/User.cs:184-189 | the same for the status |
| Users.User.SetStats | CidadeIntegra/CidadeIntegra.Domain/Entities/User.cs:191-199 | accepted: exactly score, report count and verified change; rejected (negative score first): nothing changes |
| Users.User.SetLastLoginAt | CidadeIntegra/CidadeIntegra.Domain/Entities/User.cs:201-205 | the default date is ignored; any other becomes the last login and nothing else changes |
| Users.User.FromFirestore | CidadeIntegra/CidadeIntegra.Domain/Entities/User.cs:75-108 | the constructed-then-mutated entity is fresh, valid and equal to NewUser's result, or fails with NewUser's message |
| Users.User.UpdateFromFirestore | CidadeIntegra/CidadeIntegra.Domain/Entities/User.cs:110-134 | what it throws and the state it leaves are UpdateUser's, and the entity stays in stored form |
| Users.User.ApplyMutators | CidadeIntegra/CidadeIntegra.Domain/Entities/User.cs:126-129 | the four mutator calls leave MutatorSteps's outcome |
| Reports.IsValidStatus | CidadeIntegra/CidadeIntegra.Domain/Entities/Report.cs:167-171 | true exactly when the trimmed, lower-cased status is one of "pending", "review", "in progress", "resolved", "rejected"; never for a blank status |
| Reports.Validate | CidadeIntegra/CidadeIntegra.Domain/Entities/Report.cs:148-159 | passes exactly for a set user, category ≤50, title ≤120, description ≤2000 (all non-blank) and a valid status; otherwise the first broken rule in source order is reported: once the earlier rules hold, each of the user, blank/over-long category, title and description, blank status and unknown status rules is broken exactly when its own message is thrown, an unknown status with its text quoted |
| Reports.StoredStatusIsFixed | CidadeIntegra/CidadeIntegra.Domain/Entities/Report.cs:66 | each of the five statuses is valid and its own normal form |
| Reports.ValidateRejectsTestInputs | CidadeIntegra/CidadeIntegra.Domain.Test/Entities/ReportTests.cs:37-75 | the unit tests' invalid inputs each fail with the first rule they break |
| Reports.ResolvedAtCheck | CidadeIntegra/CidadeIntegra.Domain/Entities/Report.cs:161-165 | fails exactly when a resolution date exists and is strictly before the creation date |
| Reports.MergedLocation | CidadeIntegra/CidadeIntegra.Domain/Entities/Report.cs:139-142 | the merge keeps the Location's id and every field whose key is absent; it fails exactly when a coordinate does not convert, and then the postal code is untouched |
| Reports.NewLocation | CidadeIntegra/CidadeIntegra.Domain/Entities/Report.cs:98-105 | a new Location has the fresh id; absent keys give an empty address and postal code and zero coordinates |
| Reports.NewLocationIsMergeIntoBlank | CidadeIntegra/CidadeIntegra.Domain/Entities/Report.cs:98-105 | building a Location equals merging the map into a blank one, so the creating and the updating paths agree |
| Reports.MergeIdempotent | CidadeIntegra/CidadeIntegra.Domain/Entities/Report.cs:136-143 | merging the same location map twice is merging it once |
| Reports.ReadReport | CidadeIntegra/CidadeIntegra.Domain/Entities/Report.cs:77-81 | the read fails exactly when the anonymity flag does not convert; every absent key gives its fallback |
| Reports.ExtractFirstImageUrl | CidadeIntegra/CidadeIntegra.Domain/Entities/Report.cs:192-198 | the first element of an "imagemUrls" list, and "" for an empty list, an absent key or a non-list value |
| Reports.ImageText | CidadeIntegra/CidadeIntegra.Domain/Entities/Report.cs:120 | the current image for an absent or null key, the value's own text otherwise |
| Reports.UpdateImageIsListText | CidadeIntegra/CidadeIntegra.Domain/Entities/Report.cs:120 | for a list of URLs the factory stores the first URL while the update stores the list's type name |
| Reports.NormalizeReportFields | CidadeIntegra/CidadeIntegra.Domain/Entities/Report.cs:62-66 | validated fields, once trimmed (status also lower-cased), are in stored form |
| Reports.Constructed | CidadeIntegra/CidadeIntegra.Domain/Entities/Report.cs:56-69 | the constructor's state is in stored form for storable fields and a real id |
| Reports.NewReport | CidadeIntegra/CidadeIntegra.Domain/Entities/Report.cs:73-109 | FromFirestore yields a report exactly when isAnonymous converts, the read fields (defaults "outros", "pending", empty texts) validate and a nested location's coordinates convert; a conversion or validation failure is thrown with its own message; a built report is in stored form under the fresh Guid, for the owner, keyed by the document's id, with the read texts trimmed, the status lower-cased, the read flag, the three parsed dates, the first image URL, and the Location built from the nested map exactly when there is one |
| Reports.AbsentKeysTakeDefaults | CidadeIntegra/CidadeIntegra.Domain/Entities/Report.cs:77-94 | a document with only title and description yields a report exactly when those validate, with category "outros", status "pending", not anonymous, empty image, dates at the clock reading, no resolution date and no Location |
| Reports.AssignReport | CidadeIntegra/CidadeIntegra.Domain/Entities/Report.cs:126-134 | the scalar assignments set the owner and leave id, Firebase id, creation date and Location alone |
| Reports.LocationStep | CidadeIntegra/CidadeIntegra.Domain/Entities/Report.cs:136-143 | only the Location changes; without a nested map nothing changes; with one a Location is present afterwards and an existing one keeps its id |
| Reports.UpdateReport | CidadeIntegra/CidadeIntegra.Domain/Entities/Report.cs:111-144 | the id, Firebase id and creation date never change; a successful update sets the owner |
| Reports.UpdateKeepsStored | CidadeIntegra/CidadeIntegra.Domain/Entities/Report.cs:124-143 | any update, whether it succeeds, is rejected or throws in the Location merge, leaves the report in stored form with one of the five statuses |
| Reports.RejectedUpdateChangesNothing | CidadeIntegra/CidadeIntegra.Domain/Entities/Report.cs:115-124 | a conversion failure or a failed validation leaves the report exactly as it was |
| Reports.StoredRevalidates | CidadeIntegra/CidadeIntegra.Domain/Entities/Report.cs:148-159 | a stored report's own fields pass Validate and are their own normal form |
| Reports.UpdateKeepsAbsentFields | CidadeIntegra/CidadeIntegra.Domain/Entities/Report.cs:115-143 | after a successful update every field whose key is absent is kept, except the update date (clock reading) and the resolution date (cleared); the creation date is never touched |
| Reports.EmptyDocumentTouchesDates | CidadeIntegra/CidadeIntegra.Domain/Entities/Report.cs:121-134 | an empty document changes only the update date and the resolution date |
| Reports.ResolvedAtNotEnforced | CidadeIntegra/CidadeIntegra.Domain/Entities/Report.cs:122-134 | an update can store a resolution date before the creation date, which ValidateResolvedAt would reject |
| Reports.Report.constructor | CidadeIntegra/CidadeIntegra.Domain/Entities/Report.cs:56-69 | for validated arguments the report holds Constructed's state and is in stored form |
| Reports.Report.Load | CidadeIntegra/CidadeIntegra.Domain/Entities/Report.cs:54 | a stored row materialises as an entity with exactly that state |
| Reports.Report.New | CidadeIntegra/CidadeIntegra.Domain/Entities/Report.cs:56-69 | `new Report(...)` yields a report exactly when Validate passes |
| Reports.Report.FromFirestore | CidadeIntegra/CidadeIntegra.Domain/Entities/Report.cs:73-109 | the entity built is fresh, valid and equal to NewReport's result, or fails with NewReport's message |
| Reports.Report.Initialize | CidadeIntegra/CidadeIntegra.Domain/Entities/Report.cs:87-94 | the object initializer sets the Firebase id, the first image and the three dates |
| Reports.Report.UpdateFromFirestore | CidadeIntegra/CidadeIntegra.Domain/Entities/Report.cs:111-144 | what it throws and the state it leaves are UpdateReport's |
| Reports.Report.Assign | CidadeIntegra/CidadeIntegra.Domain/Entities/Report.cs:126-134 | the scalar assignments, keeping the stored form |
| Reports.Report.AssignTexts | CidadeIntegra/CidadeIntegra.Domain/Entities/Report.cs:127-130 | the four texts are stored trimmed, the status also lower-cased |
| Reports.Report.MergeLocation | CidadeIntegra/CidadeIntegra.Domain/Entities/Report.cs:136-143 | the existing Location, or a new one under the fresh Guid, ends as MergedLocation says, even when a coordinate throws |
| Reports.Report.ValidateResolvedAt | CidadeIntegra/CidadeIntegra.Domain/Entities/Report.cs:161-165 | throws exactly as ResolvedAtCheck says |
| Comments.Validate | CidadeIntegra/CidadeIntegra.Domain/Entities/Comment.cs:112-124 | passes exactly for three set Guids, three non-blank texts within 50/500/50 and a creation date at most five minutes ahead; otherwise the first broken rule in source order is reported: once the earlier rules hold, each of the three Guid, three blank-text, three length and future-date rules is broken exactly when its own message is thrown |
| Comments.ValidateTestInputs | CidadeIntegra/CidadeIntegra.Domain.Test/Entities/CommentTests.cs:10-64 | the tests' valid comment passes, the blank texts fail with their messages, 500 characters pass and 501 fail |
| Comments.ConstructedIsStored | CidadeIntegra/CidadeIntegra.Domain/Entities/Comment.cs:43-49 | fields that pass ValidateParameters are stored in normal form under the given Guids and date |
| Comments.ResolveAuthor | CidadeIntegra/CidadeIntegra.Domain/Entities/Comment.cs:74-79 | an author is found exactly when "authorId" is present, not null and mapped, and is then the mapped Guid |
| Comments.NewComment | CidadeIntegra/CidadeIntegra.Domain/Entities/Comment.cs:69-90 | FromFirestore yields a comment exactly when ValidateParameters passes on the resolved author (Guid.Empty when unresolved), the three texts (empty when absent) and the parsed date, and throws its message otherwise; a built comment is stored under the fresh Guid for the report, by the resolved author, with the three texts trimmed and the parsed date, at most five minutes ahead |
| Comments.UnresolvedAuthorRejected | CidadeIntegra/CidadeIntegra.Domain/Entities/Comment.cs:74-79 | an unresolved author always ends in "AuthorId cannot be empty." |
| Comments.TextlessDocumentRejected | CidadeIntegra/CidadeIntegra.Domain/Entities/Comment.cs:85-87 | a document with a resolved author and no avatar colour is rejected for the missing colour |
| Comments.UpdateComment | CidadeIntegra/CidadeIntegra.Domain/Entities/Comment.cs:92-108 | an update never changes the comment's id or its report |
| Comments.UpdateKeepsAbsentFields | CidadeIntegra/CidadeIntegra.Domain/Entities/Comment.cs:96-105 | whatever the outcome, an unresolved author and every absent text are kept, and the creation date is re-read (the clock reading when absent) |
| Comments.UpdateValidatesWhatItAssigned | CidadeIntegra/CidadeIntegra.Domain/Entities/Comment.cs:102-107 | an update passes exactly when the fields it already assigned validate |
| Comments.RejectedUpdateKeepsAssignments | CidadeIntegra/CidadeIntegra.Domain/Entities/Comment.cs:102-107 | emptying a stored comment's message throws, yet the empty message and the new date stay in place |
| Comments.UpdateDoesNotTrim | CidadeIntegra/CidadeIntegra.Domain/Entities/Comment.cs:102-104 | an update stores a padded message untrimmed |
| Comments.Comment.constructor | CidadeIntegra/CidadeIntegra.Domain/Entities/Comment.cs:39-50 | for validated arguments the comment holds Constructed's state, in stored form |
| Comments.Comment.New | CidadeIntegra/CidadeIntegra.Domain/Entities/Comment.cs:39-50 | the private constructor yields a comment exactly when validation passes |
| Comments.Comment.Create | CidadeIntegra/CidadeIntegra.Domain/Entities/Comment.cs:54-65 | with a fresh Guid and the clock as creation date, the Guids and texts alone decide; the comment holds the given ids and trimmed texts |
| Comments.Comment.FromFirestore | CidadeIntegra/CidadeIntegra.Domain/Entities/Comment.cs:69-90 | the comment built is fresh and equal to NewComment's result, or fails with its message; the map is only read |
| Comments.Comment.UpdateFromFirestore | CidadeIntegra/CidadeIntegra.Domain/Entities/Comment.cs:92-108 | what it throws and the state it leaves are UpdateComment's |
| Logs.Validate | CidadeIntegra/CidadeIntegra.Domain/Entities/Log.cs:54-62 | passes exactly for a set id, a non-blank level ≤50, a non-blank message ≤2000 and a set timestamp; otherwise the first broken rule in source order is reported: once the earlier rules hold, each of the id, blank/over-long level, blank/over-long message and timestamp rules is broken exactly when its own message is thrown |
| Logs.NewLog | CidadeIntegra/CidadeIntegra.Domain/Entities/Log.cs:28-37 | a record exists exactly when validation passes and then holds the trimmed level, message and exception |
| Logs.Create | CidadeIntegra/CidadeIntegra.Domain/Entities/Log.cs:41-50 | with a fresh Guid and the clock, the level and message alone decide; the record carries that id and time |
| Logs.CreateTestInputs | CidadeIntegra/CidadeIntegra.Domain.Test/Entities/LogTests.cs:10-29 | the tests' valid record is built with its texts unchanged |
| Logs.CreateRejectsBlankTexts | CidadeIntegra/CidadeIntegra.Domain.Test/Entities/LogTests.cs:30-43 | empty or blank level or message fail with their messages, the level first |
| Logs.CreateRejectsLongTexts | CidadeIntegra/CidadeIntegra.Domain.Test/Entities/LogTests.cs:44-72 | a 51-character level and a 2001-character message fail with their length messages |
| Logs.Unvalidated | CidadeIntegra/CidadeIntegra.Domain/Entities/Log.cs:26 | the parameterless constructor leaves id and timestamp at their defaults, a record validation would reject |
| ApiKeyGate.Authorize | CidadeIntegra/CidadeIntegra.API/Attributes/ApiKeyAuthorizeAttribute.cs:23-73 | proceeds exactly when a non-empty key is configured and the header equals it; otherwise 500 for no key, 403 "API Key is missing." without a header, 403 "Invalid API Key." for a different header |
| Subcollections.KeptSnoc | CidadeIntegra/CidadeIntegra.Application/Services/MigrationService.cs:174-189 | one more comment document adds its comment when it succeeded and nothing when it threw |
| Subcollections.KeptSplit | CidadeIntegra/CidadeIntegra.Application/Services/MigrationService.cs:174-189 | what a loop that catches every exception keeps of two parts is what it keeps of each |
| Subcollections.KeptValues | CidadeIntegra/CidadeIntegra.Application/Services/MigrationService.cs:174-189 | a comment is inserted exactly when it was the result of some document; nothing is inserted exactly when every document threw |
| Subcollections.BuiltEachUnique | CidadeIntegra/CidadeIntegra.Application/Services/MigrationService.cs:174-178 | a subcollection's results are determined by its documents, the report, the map, the first Guid and the clock |
| Subcollections.BuiltAtIsRow | CidadeIntegra/CidadeIntegra.Application/Services/MigrationService.cs:178 | a comment made at position j is stored, belongs to the report, has a mapped author and holds the j-th Guid drawn |
| Subcollections.CommentsAreRows | CidadeIntegra/CidadeIntegra.Application/Services/MigrationService.cs:174-189 | every comment a subcollection inserts is stored, of that report, by a mapped author, under one of the Guids drawn for it, and there are at most as many as documents |
| Subcollections.BuiltEachSplit | CidadeIntegra/CidadeIntegra.Application/Services/MigrationService.cs:174-189 | comment documents are independent: the results split into those of the first part and those the rest has on its own from the next Guid |
| Subcollections.UnmappedAuthorsAddNothing | CidadeIntegra/CidadeIntegra.Application/Services/MigrationService.cs:174-189 | a subcollection whose authors are all unmapped inserts no comment |
| Migration.Owner | CidadeIntegra/CidadeIntegra.Application/Services/MigrationService.cs:138-142 | a non-string "userId" throws; an absent, null or unmapped one gives no owner; otherwise the mapped Guid |
| Migration.TablesGrowWithUsers | CidadeIntegra/CidadeIntegra.Application/Services/MigrationService.cs:83-101 | reports and comments keep pointing at users when the Users table only gains rows |
| Migration.CommentsFollowReports | CidadeIntegra/CidadeIntegra.Application/Services/MigrationService.cs:151-168 | comments keep pointing at reports when the Reports table only gains rows |
| Migration.CommentsAppend | CidadeIntegra/CidadeIntegra.Application/Services/MigrationService.cs:178-179 | inserting a stored comment whose report and author exist keeps the Comments table invariant |
| Migration.MigrationService.constructor | CidadeIntegra/CidadeIntegra.Application/Services/MigrationService.cs:19-40 | a service over the stored tables starts with an empty Firebase-id map and keeps the four table invariants |
| Migration.MigrationService.NewGuids | CidadeIntegra/CidadeIntegra.Domain/Entities/User.cs:93 | Guid.NewGuid hands out the next Guids in turn and changes no table |
| Migration.MigrationService.LogAsync | CidadeIntegra/CidadeIntegra.Application/Services/LogService.cs:19-39 | never throws; appends the unvalidated record (MigrationService.cs:208-224), or, when the Logs table rejects it, CreateLogAsync's console line "Falha ao gravar log no banco: " followed by the message; no table or map changes |
| Migration.MigrationService.FindUser | CidadeIntegra/CidadeIntegra.Application/Services/MigrationService.cs:80 | a found user has the Firebase id; none found means no user has it |
| Migration.MigrationService.FindReport | CidadeIntegra/CidadeIntegra.Application/Services/MigrationService.cs:135 | the same for reports |
| Migration.MigrationService.PutUser | CidadeIntegra/CidadeIntegra.Application/Services/MigrationService.cs:83-101 | saves the row under its Guid and maps the Firebase id to it, keeping the invariants |
| Migration.MigrationService.BuildUser | CidadeIntegra/CidadeIntegra.Application/Services/MigrationService.cs:85 | the row is what User.FromFirestore builds under the fresh Guid, in stored form |
| Migration.MigrationService.ReloadUser | CidadeIntegra/CidadeIntegra.Application/Services/MigrationService.cs:93-95 | the row is what UpdateFromFirestore makes of the stored row; it keeps its Guid and Firebase id |
| Migration.MigrationService.CreateUser | CidadeIntegra/CidadeIntegra.Application/Services/MigrationService.cs:83-90 | draws one Guid; on success the new row is under it and the document's id maps to it; on failure neither table nor map changes |
| Migration.MigrationService.RefreshUser | CidadeIntegra/CidadeIntegra.Application/Services/MigrationService.cs:91-99 | on success the updated row stays under its Guid and the document's id maps to it; on failure nothing changes |
| Migration.MigrationService.MigrateUser | CidadeIntegra/CidadeIntegra.Application/Services/MigrationService.cs:77-107 | created exactly when no user has the Firebase id, updated when one has; a failure leaves table and map as they were; on success the map sends the document's id to the row's Guid |
| Migration.MigrationService.MigrateUsers | CidadeIntegra/CidadeIntegra.Application/Services/MigrationService.cs:64-113 | a failed snapshot read throws and changes nothing; otherwise created + updated + failed is the number of documents, no user row is lost, and the map gains keys only from the snapshot |
| Migration.MigrationService.PutReport | CidadeIntegra/CidadeIntegra.Application/Services/MigrationService.cs:151-168 | saves the report row under its Guid, keeping the invariants |
| Migration.MigrationService.BuildReport | CidadeIntegra/CidadeIntegra.Application/Services/MigrationService.cs:154 | the row is what Report.FromFirestore builds for the owner under the fresh Guid, keyed by the document's id |
| Migration.MigrationService.ReloadReport | CidadeIntegra/CidadeIntegra.Application/Services/MigrationService.cs:162-164 | the row is what UpdateFromFirestore makes of the stored row for the owner; it keeps its Guid and Firebase id |
| Migration.MigrationService.CreateReport | CidadeIntegra/CidadeIntegra.Application/Services/MigrationService.cs:152-159 | draws two Guids; on success the new row, owned by the resolved user, is under the first |
| Migration.MigrationService.RefreshReport | CidadeIntegra/CidadeIntegra.Application/Services/MigrationService.cs:160-168 | on success the updated row stays under its Guid, now owned by the resolved user |
| Migration.MigrationService.SaveRow | CidadeIntegra/CidadeIntegra.Application/Services/MigrationService.cs:151-168 | creates when no report has the Firebase id, updates otherwise; the saved row carries the resolved owner |
| Migration.MigrationService.SaveComments | CidadeIntegra/CidadeIntegra.Application/Services/MigrationService.cs:170-189 | a failed subcollection read inserts nothing; otherwise each document draws one Guid and exactly the accepted comments are appended |
| Migration.MigrationService.SaveReport | CidadeIntegra/CidadeIntegra.Application/Services/MigrationService.cs:151-189 | a rejected report inserts no comment; a saved one is recorded with its Guid, owner and Firebase id, and its comments are appended in order |
| Migration.MigrationService.MigrateReport | CidadeIntegra/CidadeIntegra.Application/Services/MigrationService.cs:132-195 | an unresolved owner skips the document and writes nothing; a saved report is owned by the mapped user and found by Firebase id; only a saved report's comments are read |
| Migration.MigrationService.PutComment | CidadeIntegra/CidadeIntegra.Application/Services/MigrationService.cs:179 | appends the comment row, keeping the invariants |
| Migration.MigrationService.BuildComment | CidadeIntegra/CidadeIntegra.Application/Services/MigrationService.cs:178 | the row is what Comment.FromFirestore builds, stored, of the report, by a mapped author |
| Migration.MigrationService.MigrateComment | CidadeIntegra/CidadeIntegra.Application/Services/MigrationService.cs:176-188 | draws one Guid; the comment is inserted exactly when FromFirestore accepts it |
| Migration.MigrationService.MigrateComments | CidadeIntegra/CidadeIntegra.Application/Services/MigrationService.cs:174-189 | every document is tried under its own Guid; exactly the accepted comments are appended, in order, and counted |
| Migration.MigrationService.MigrateReports | CidadeIntegra/CidadeIntegra.Application/Services/MigrationService.cs:117-204 | a failed snapshot read throws and changes nothing; otherwise created + updated + skipped + rejected is the number of documents, no report row is lost, comments only grow by the count, and users and map are untouched |
| Migration.MigrationService.RunMigration | CidadeIntegra/CidadeIntegra.Application/Services/MigrationService.cs:42-61 | succeeds exactly when both snapshots are read; a failed users phase runs no reports phase; rows are never lost and the map only grows |

## Left out

- Entity Framework change tracking. The tables are values, and an entity is loaded from a row and
  written back. A tracked entity that an update left half-changed is dropped here. In the running
  system, the next `SaveChanges` on the same context could persist it.
- Database write failures. `CreateAsync` and `UpdateAsync` are assumed to succeed; only Firestore
  reads, conversions and validation throw.
- The repositories and services behind `GetByFirebaseIdAsync`, `CreateAsync` and `UpdateAsync`.
  They are maps with find, insert and update. When several rows share a Firebase id, `FindUser` and
  `FindReport` pick any one of them.
- The clock. One reading, `now`, serves a whole run. The source reads `DateTimeOffset.UtcNow` each
  time.
- `async`/`await`. It is used sequentially, so the model is sequential.
- `ILogger` output and console colours. Only the audit records and the console line that
  `CreateLogAsync` writes for a rejected record are kept; the service's own fallback in `LogAsync`
  is never reached, because `CreateLogAsync` only throws for a null record, which the service
  never passes. An exception's text is its message, not `Exception.ToString()`.
- Log texts are not validated. The service writes unvalidated records, as the source does.
- The API-key filter's logging. Its header lookup is reduced to an optional text: a header
  carrying several values compares as their comma-joined text.
- `Convert.ToDecimal`. Coordinates are integers, since no decimal arithmetic is involved.
- `DateTimeOffset.TryParse`. It is reduced to reading a run of digits as ticks.
- Unicode. White space is the ASCII and Latin-1 set, and lower-casing touches only ASCII letters.
- `EmailAddressAttribute`. It is modelled as "exactly one '@', neither first nor last".
- `ToString` of lists and maps. It prints a fixed type name.
- `Guid.NewGuid`. It is the service's counter. A new report always draws two Guids, its own and one
  for a Location it may create. An update draws one Guid, for a Location it may create.
- `ImageUrl2` and the `ResolvedAt` setter. The migration never sets the second image, and nothing
  calls `ValidateResolvedAt`.
- Reference identity of the owned `Location`. It is a value field of the report.
- The bootstrap and HTTP layers. This covers Firestore initialisation, dependency injection, the
  controllers and the exception middleware, and the EF schema files. They are not part of this
  model.
- Users.UpdateUser: its own contract states only what an update never changes (the id and the
  Firebase id); what it stores is proved in UpdateSuccess, UpdateKeepsAbsentFields,
  UpdateKeepsStored and UpdateNotAtomic.
- Users.MutatorSteps: the same; MutatorsKeepStored and User.ApplyMutators state the rest.
- Users.ApplyUpdate: the same; ApplyKeepsStored and ApplyOwnFields state the rest.
- Reports.UpdateReport: the same; UpdateKeepsAbsentFields, UpdateKeepsStored and
  RejectedUpdateChangesNothing state the rest.
- Comments.UpdateComment: the same; UpdateKeepsAbsentFields and UpdateValidatesWhatItAssigned
  state the rest.
