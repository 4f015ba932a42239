/** The row a user or report document yields, created or updated from Firestore, as the entities'
    own factories and update methods decide it. */
module Rows {
  import opened Guards
  import opened Documents
  import Users
  import Reports

  /** `r` is what User.FromFirestore makes of `doc` under the fresh Guid `id`, read back as a row. */
  predicate UserBuilt(r: Result<Users.UserState>, doc: Document, id: Guid, now: Time) {
    r == Users.NewUser(doc, id, now)
  }

  /** `r` is what UpdateFromFirestore makes of the stored row `s`: the updated row when every step is
      accepted, the exception otherwise. */
  predicate UserReloaded(r: Result<Users.UserState>, s: Users.UserState, data: Data, now: Time) {
    var u := Users.UpdateUser(s, data, now);
    r == if u.check.Pass? then Ok(u.state) else Err(u.check.message)
  }

  /** The Guid drawn right after a new report's own, for the Location FromFirestore may create. */
  function LocationGuid(reportId: Guid): (g: Guid)
    ensures g != EmptyGuid && g != reportId
  {
    reportId + 1
  }

  /** `r` is what Report.FromFirestore makes of `doc` for the owner `userId`, with the report under
      `id` and a Location it creates under the next Guid. */
  predicate ReportBuilt(r: Result<Reports.ReportState>, doc: Document, userId: Guid, id: Guid, now: Time) {
    id != EmptyGuid && r == Reports.NewReport(doc, userId, id, LocationGuid(id), now)
  }

  /** `r` is what UpdateFromFirestore makes of the stored report `s` for the owner `userId`, with
      `locationId` for a Location it creates. */
  predicate ReportReloaded(r: Result<Reports.ReportState>, s: Reports.ReportState, data: Data, userId: Guid,
                           locationId: Guid, now: Time) {
    var u := Reports.UpdateReport(s, data, userId, now, locationId);
    r == if u.check.Pass? then Ok(u.state) else Err(u.check.message)
  }
}
