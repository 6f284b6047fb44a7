/** The one-off import of legacy users: record checks, preflight and the apply transaction. */
module Import {
  import opened Text
  import opened Schema
  import opened Repository

  const PROJECT: string := "main_api"

  datatype LegacyUser = LegacyUser(oldId: int, email: string, hash: StoredPassword, name: string, status: string,
                                   role: string, roleId: Option<string>)

  /** A necessary condition for mail.ParseAddress to accept a string as its own address. */
  predicate AddressShape(email: string) {
    '@' in email
  }

  /** The checks of readUsers on one record, before the duplicate check. */
  predicate WellFormed(u: LegacyUser) {
    && u.email == Lower(Trim(u.email)) && AddressShape(u.email)
    && u.hash.legacy && u.name != ""
    && u.status in {"approved", "pending", "rejected"}
    && u.role in {"admin", "employee", "client"}
  }

  predicate Readable(users: seq<LegacyUser>) {
    && (forall i :: 0 <= i < |users| ==> WellFormed(users[i]))
    && (forall i, j :: 0 <= i < j < |users| ==> users[i].email != users[j].email)
  }

  /** The rows the preflight query may answer for one user; it reads one of them. */
  function PreflightRows(db: Tables, u: LegacyUser): set<string> {
    set id | id in db.accounts
             && (Lower(db.accounts[id].profile.email) == u.email || db.accounts[id].oldId == Some(u.oldId))
  }

  predicate Imported(db: Tables, u: LegacyUser) {
    exists id :: id in db.accounts && db.accounts[id].oldId == Some(u.oldId)
  }

  function AccountOf(u: LegacyUser): Account {
    Account(Profile(u.email, u.email, u.name, "", "", ""), u.hash,
            if u.status == "approved" then Active else if u.status == "pending" then PendingApproval else Inactive,
            u.status == "approved", false, Some(u.oldId))
  }

  function RolesOf(u: LegacyUser): seq<string> {
    [u.role] + if u.roleId.Some? then ["legacy-role-" + u.roleId.value] else []
  }

  function ImportUser(db: Tables, now: nat, u: LegacyUser, id: string)
    : (r: Result<Tables>)
    ensures r.Ok? ==> OnlyDirectory(db, r.value) && r.value.verifications == db.verifications
  {
    if Imported(db, u) then Ok(db)
    else if !Insertable(db.accounts, id, AccountOf(u)) then Err(UniqueViolation)
    else
      var inserted := db.(accounts := db.accounts[id := AccountOf(u)]);
      if !AccountOf(u).status.Active? then Ok(inserted)
      else if Seat(id, PROJECT) in db.access then Err(UniqueViolation)
      else if PROJECT !in db.projects then Err(ForeignKeyViolation)
      else
        var seated := inserted.(access := db.access[Seat(id, PROJECT) := RolesOf(u)]);
        LogSeat(seated, now, AccessGranted, Seat(id, PROJECT), RolesOf(u))
  }

  /** The apply loop: one transaction over all users, each with the UUID drawn for it. */
  function ImportAll(db: Tables, now: nat, users: seq<LegacyUser>, ids: seq<string>)
    : (r: Result<Tables>)
    requires |users| == |ids|
    ensures r.Ok? ==> OnlyDirectory(db, r.value) && r.value.verifications == db.verifications
  {
    if users == [] then Ok(db) else
      var before :- ImportAll(db, now, users[..|users| - 1], ids[..|ids| - 1]);
      ImportUser(before, now, users[|users| - 1], ids[|ids| - 1])
  }

  /** The import with its record checks; the preflight only reads. */
  function ImportUsers(db: Tables, now: nat, users: seq<LegacyUser>, ids: seq<string>): Result<Tables> {
    if |users| != |ids| || !Readable(users) then Err(InvalidInput)
    else if PROJECT !in db.projects then Err(NoRows)
    else ImportAll(db, now, users, ids)
  }
}
