/** The import tool: reading and checking the legacy records, the preflight count, and the apply loop in one
    transaction. */
module LegacyImport {
  import opened Text
  import opened Schema
  import opened Import
  import opened Postgres
  import Repository

  // ---------------------------------------------------------------- reading

  function Normal(row: LegacyUser): LegacyUser {
    row.(email := Lower(Trim(row.email)))
  }

  function Normals(rows: seq<LegacyUser>): (users: seq<LegacyUser>)
    ensures |users| == |rows|
  {
    seq(|rows|, i requires 0 <= i < |rows| => Normal(rows[i]))
  }

  /** The checks on one normalized record. */
  predicate RecordOk(u: LegacyUser) {
    && AddressShape(u.email) && u.hash.legacy && u.name != ""
    && u.status in {"approved", "pending", "rejected"}
    && u.role in {"admin", "employee", "client"}
  }

  lemma NormalIsWellFormed(row: LegacyUser)
    ensures WellFormed(Normal(row)) <==> RecordOk(Normal(row))
  {
    NormalFormIsStable(row.email);
  }

  method ReadUsers(rows: seq<LegacyUser>) returns (r: Result<seq<LegacyUser>>)
    ensures r == if Readable(Normals(rows)) then Ok(Normals(rows)) else Err(InvalidInput)
  {
    hide RecordOk, WellFormed, Lower, Trim;
    var users: seq<LegacyUser> := [];
    var seen: set<string> := {};
    for i := 0 to |rows|
      invariant users == Normals(rows)[..i]
      invariant forall k :: 0 <= k < i ==> WellFormed(Normals(rows)[k])
      invariant forall k, l :: 0 <= k < l < i ==> Normals(rows)[k].email != Normals(rows)[l].email
      invariant forall email :: email in seen <==> exists k :: 0 <= k < i && Normals(rows)[k].email == email
    {
      var u := rows[i].(email := Lower(Trim(rows[i].email)));
      assert u == Normals(rows)[i];
      NormalIsWellFormed(rows[i]);
      if u.email in seen || !RecordOk(u) { return Err(InvalidInput); }
      seen := seen + {u.email};
      users := users + [u];
    }
    assert Normals(rows)[..|rows|] == Normals(rows);
    r := Ok(users);
  }

  // ---------------------------------------------------------------- preflight

  /** The row the preflight query read is not this user's. */
  predicate Conflicts(db: Tables, u: LegacyUser, row: string) {
    row in PreflightRows(db, u) && db.accounts[row].oldId != Some(u.oldId)
  }

  /** For each user whose query finds rows, one of them; the query fixes no order. */
  predicate Picked(db: Tables, users: seq<LegacyUser>, rows: seq<string>) {
    |rows| == |users|
    && forall i :: 0 <= i < |users| && PreflightRows(db, users[i]) != {} ==> rows[i] in PreflightRows(db, users[i])
  }

  datatype Counts = Counts(unseen: nat, existing: nat, conflicts: nat, approved: nat, inactive: nat)

  function Tally(db: Tables, users: seq<LegacyUser>, rows: seq<string>): Counts
    requires |rows| == |users|
  {
    if users == [] then Counts(0, 0, 0, 0, 0) else
      var n := |users| - 1;
      var c := Tally(db, users[..n], rows[..n]);
      var u := users[n];
      var d := if u.status == "approved" then c.(approved := c.approved + 1) else c.(inactive := c.inactive + 1);
      if PreflightRows(db, u) == {} then d.(unseen := d.unseen + 1)
      else if Conflicts(db, u, rows[n]) then d.(conflicts := d.conflicts + 1)
      else d.(existing := d.existing + 1)
  }

  /** Which row a query reads is open; the count is the one for the rows it read. */
  method Preflight(sso: Database, users: seq<LegacyUser>) returns (c: Counts, ghost rows: seq<string>)
    ensures Picked(sso.State(), users, rows) && c == Tally(sso.State(), users, rows)
  {
    hide PreflightRows;
    var unseen, existing, conflicts, approved, inactive := 0, 0, 0, 0, 0;
    rows := [];
    for i := 0 to |users|
      invariant Picked(sso.State(), users[..i], rows)
      invariant Counts(unseen, existing, conflicts, approved, inactive) == Tally(sso.State(), users[..i], rows)
    {
      assert users[..i + 1][..i] == users[..i];
      var u := users[i];
      if u.status == "approved" { approved := approved + 1; } else { inactive := inactive + 1; }
      var found := PreflightRows(sso.State(), u);
      ghost var before := rows;
      if found == {} {
        unseen := unseen + 1;
        rows := rows + [""];
      } else {
        var row :| row in found;
        if Conflicts(sso.State(), u, row) { conflicts := conflicts + 1; } else { existing := existing + 1; }
        rows := rows + [row];
      }
      assert rows[..i] == before;
    }
    assert users[..|users|] == users;
    c := Counts(unseen, existing, conflicts, approved, inactive);
  }

  /** Whichever rows were read: every user is counted once in each breakdown, and without conflicts each user is new or
      imported already. */
  lemma {:induction false} TallyMeans(db: Tables, users: seq<LegacyUser>, rows: seq<string>)
    requires Picked(db, users, rows)
    ensures var c := Tally(db, users, rows);
            && c.unseen + c.existing + c.conflicts == |users| == c.approved + c.inactive
            && (c.conflicts == 0 ==>
                  forall i :: 0 <= i < |users| ==> PreflightRows(db, users[i]) == {} || Imported(db, users[i]))
            && (c.conflicts == 0 <==> forall i :: 0 <= i < |users| ==> !Conflicts(db, users[i], rows[i]))
  {
    hide PreflightRows, Imported;
    if users != [] {
      var n := |users| - 1;
      PickedBefore(db, users, rows);
      TallyMeans(db, users[..n], rows[..n]);
      assert forall i :: 0 <= i < |users| ==> users[i] == if i < n then users[..n][i] else users[n];
      assert forall i :: 0 <= i < |users| ==> rows[i] == if i < n then rows[..n][i] else rows[n];
      PeacefulUser(db, users[n], rows[n]);
    }
  }

  lemma PickedBefore(db: Tables, users: seq<LegacyUser>, rows: seq<string>)
    requires Picked(db, users, rows) && users != []
    ensures Picked(db, users[..|users| - 1], rows[..|users| - 1])
  {
    hide PreflightRows;
    var n := |users| - 1;
    assert forall i :: 0 <= i < n ==> users[..n][i] == users[i] && rows[..n][i] == rows[i];
  }

  lemma PeacefulUser(db: Tables, u: LegacyUser, row: string)
    ensures row in PreflightRows(db, u) && !Conflicts(db, u, row) ==> Imported(db, u)
  {
  }

  // ---------------------------------------------------------------- apply

  method InsertUser(sso: Database, now: nat, u: LegacyUser, id: string) returns (err: Option<Error>)
    modifies sso
    ensures match Import.ImportUser(old(sso.State()), now, u, id)
            case Ok(value) => err.None? && sso.State() == value
            case Err(e) => err == Some(e)
    ensures old(sso.lastId) <= sso.lastId
  {
    hide Repository.QueueEvent, Repository.Insertable, Imported;
    err := None;
    if Imported(sso.State(), u) { return; }
    var status := Inactive;
    var verified := false;
    if u.status == "approved" {
      status := Active;
      verified := true;
    } else if u.status == "pending" {
      status := PendingApproval;
    }
    var account := Account(Profile(u.email, u.email, u.name, "", "", ""), u.hash, status, verified, false,
                           Some(u.oldId));
    assert account == AccountOf(u);
    if !Repository.Insertable(sso.accounts, id, account) { return Some(UniqueViolation); }
    var begun := sso.State();
    sso.accounts := sso.accounts[id := account];
    if status.Active? {
      var roles := [u.role];
      if u.roleId.Some? { roles := roles + ["legacy-role-" + u.roleId.value]; }
      assert roles == RolesOf(u);
      var seat := Seat(id, PROJECT);
      if seat in sso.access { return Some(UniqueViolation); }
      if PROJECT !in sso.projects { return Some(ForeignKeyViolation); }
      sso.access := sso.access[seat := roles];
      err := sso.FinishSeat(begun, now, AccessGranted, seat, roles);
    }
  }

  lemma {:induction false} ImportStops(db: Tables, now: nat, users: seq<LegacyUser>, ids: seq<string>, n: nat)
    requires |users| == |ids| && n <= |users| && ImportAll(db, now, users[..n], ids[..n]).Err?
    ensures ImportAll(db, now, users, ids) == ImportAll(db, now, users[..n], ids[..n])
  {
    hide ImportUser;
    if n == |users| {
      assert users[..n] == users && ids[..n] == ids;
    } else {
      var m := |users| - 1;
      assert users[..m][..n] == users[..n] && ids[..m][..n] == ids[..n];
      ImportStops(db, now, users[..m], ids[..m], n);
    }
  }

  lemma ImportGoesOn(db: Tables, now: nat, users: seq<LegacyUser>, ids: seq<string>, i: nat)
    requires |users| == |ids| && i < |users|
    ensures var before := ImportAll(db, now, users[..i], ids[..i]);
            before.Ok? ==>
              ImportAll(db, now, users[..i + 1], ids[..i + 1]) == ImportUser(before.value, now, users[i], ids[i])
  {
    hide ImportUser;
    assert users[..i + 1][..i] == users[..i] && ids[..i + 1][..i] == ids[..i];
  }

  /** One transaction for the whole file: the first failure rolls everything back. */
  method Apply(sso: Database, now: nat, users: seq<LegacyUser>, ids: seq<string>) returns (err: Option<Error>)
    requires |users| == |ids|
    modifies sso
    ensures Answers(ImportAll(old(sso.State()), now, users, ids), err, old(sso.State()), sso.State())
  {
    hide ImportUser, ImportAll;
    var begun := sso.State();
    err := None;
    assert ImportAll(begun, now, users[..0], ids[..0]) == Ok(begun) by { ImportNone(begun, now); }
    for i := 0 to |users|
      invariant err.None? && ImportAll(begun, now, users[..i], ids[..i]) == Ok(sso.State())
      invariant begun.lastId <= sso.lastId
    {
      ImportGoesOn(begun, now, users, ids, i);
      err := InsertUser(sso, now, users[i], ids[i]);
      if err.Some? {
        ImportStops(begun, now, users, ids, i + 1);
        sso.Rollback(begun);
        return;
      }
    }
    assert users[..|users|] == users && ids[..|ids|] == ids;
  }

  lemma ImportNone(db: Tables, now: nat)
    ensures ImportAll(db, now, [], []) == Ok(db)
  {
  }

  /** The apply step on records read from a file, with the checks made before it. */
  method ApplyFile(sso: Database, now: nat, users: seq<LegacyUser>, ids: seq<string>) returns (err: Option<Error>)
    modifies sso
    ensures Answers(ImportUsers(old(sso.State()), now, users, ids), err, old(sso.State()), sso.State())
  {
    hide ImportAll, Readable;
    if |users| != |ids| || !Readable(users) { return Some(InvalidInput); }
    if PROJECT !in sso.projects { return Some(NoRows); }
    err := Apply(sso, now, users, ids);
  }

  /** The tool: read, count, and only with `apply` and without conflicts write. A dry run changes nothing. */
  method Tool(sso: Database, now: nat, rows: seq<LegacyUser>, ids: seq<string>, apply: bool)
    returns (r: Result<Counts>, ghost read: seq<string>)
    requires |rows| == |ids|
    modifies sso
    ensures !apply || r.Err? ==> RolledBack(old(sso.State()), sso.State())
    ensures Readable(Normals(rows)) ==> Picked(old(sso.State()), Normals(rows), read)
    ensures r.Ok? ==> Readable(Normals(rows)) && r.value == Tally(old(sso.State()), Normals(rows), read)
    ensures apply && r.Ok? ==>
      && r.value.conflicts == 0
      && ImportUsers(old(sso.State()), now, Normals(rows), ids) == Ok(sso.State())
    ensures r.Err? <==>
      || !Readable(Normals(rows))
      || (apply && (Tally(old(sso.State()), Normals(rows), read).conflicts != 0
                    || ImportUsers(old(sso.State()), now, Normals(rows), ids).Err?))
  {
    hide ImportAll, Tally, Readable, Picked;
    read := [];
    var users := ReadUsers(rows);
    if users.Err? { return Err(users.error), []; }
    var counts;
    counts, read := Preflight(sso, users.value);
    if !apply { return Ok(counts), read; }
    if counts.conflicts != 0 { return Err(InvalidInput), read; }
    var err := ApplyFile(sso, now, users.value, ids);
    if err.Some? { return Err(err.value), read; }
    r := Ok(counts);
  }
}
