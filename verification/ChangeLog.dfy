/** The log of changes against the table it describes: replaying the events of a project over the user list
    it had gives the user list it has. */
module ChangeLog {
  import opened Order
  import opened Text
  import opened Schema
  import opened Repository

  /** What a project knows about one user. */
  datatype UserRow = UserRow(oldId: Option<int>, profile: Profile, roles: seq<string>)

  /** The user as the snapshot query lists it, if it does. */
  function Row(db: Tables, project: string, user: string): Option<UserRow> {
    if user in db.accounts && Seat(user, project) in db.access && db.accounts[user].InGoodStanding()
    then Some(UserRow(db.accounts[user].oldId, db.accounts[user].profile, db.access[Seat(user, project)]))
    else None
  }

  /** The consumer's rule for one event: upsert the fields the payload has, delete, or keep. */
  function Consume(row: Option<UserRow>, kind: Kind, payload: Payload): Option<UserRow> {
    match kind
    case AccessRevoked => None
    case SessionsRevoked => row
    case _ =>
      match payload
      case FullUser(oldId, profile, roles) => Some(UserRow(oldId, profile, roles))
      case ProfileOnly(profile, roles) => Some(UserRow(if row.Some? then row.value.oldId else None, profile, roles))
      case UserIdOnly => row
  }

  predicate Concerns(e: SyncEvent, project: string, user: string) {
    e.project == project && e.account == user
  }

  /** One user's row after a run of events. */
  function Replay(row: Option<UserRow>, es: seq<SyncEvent>, project: string, user: string): Option<UserRow> {
    if es == [] then row else
      var before := Replay(row, es[..|es| - 1], project, user);
      var e := es[|es| - 1];
      if Concerns(e, project, user) then Consume(before, e.kind, e.payload) else before
  }

  /** Every event other than a grant finds the user in place. */
  predicate Lands(row: Option<UserRow>, es: seq<SyncEvent>, project: string, user: string) {
    es == [] ||
    (var e := es[|es| - 1];
     && Lands(row, es[..|es| - 1], project, user)
     && (Concerns(e, project, user) && !e.kind.AccessGranted? ==> Replay(row, es[..|es| - 1], project, user).Some?))
  }

  lemma {:induction false} ReplayAppends(row: Option<UserRow>, a: seq<SyncEvent>, b: seq<SyncEvent>, project: string,
                                         user: string)
    ensures Replay(row, a + b, project, user) == Replay(Replay(row, a, project, user), b, project, user)
    ensures Lands(row, a + b, project, user) ==
            (Lands(row, a, project, user) && Lands(Replay(row, a, project, user), b, project, user))
  {
    if b == [] {
      assert a + b == a;
    } else {
      var c := b[..|b| - 1];
      assert (a + b)[..|a + b| - 1] == a + c;
      ReplayAppends(row, a, c, project, user);
    }
  }

  /** Ids drawn from the sequence between two of its values, each greater than the one before. */
  predicate Numbered(es: seq<SyncEvent>, low: nat, high: nat) {
    && (forall i :: 0 <= i < |es| ==> low < es[i].id <= high)
    && (forall i, j :: 0 <= i < j < |es| ==> es[i].id < es[j].id)
  }

  /** A grant carries the whole user, and payloads that carry `old_id` carry the account's own. */
  predicate Genuine(es: seq<SyncEvent>, db: Tables) {
    forall i :: 0 <= i < |es| ==>
      && (es[i].kind.AccessGranted? ==> es[i].payload.FullUser?)
      && (es[i].payload.FullUser? ==>
            es[i].account in db.accounts && es[i].payload.oldId == db.accounts[es[i].account].oldId)
  }

  /** `old_id` never changes after the insert, and accounts are never deleted. */
  predicate KeepsOldIds(a: Tables, b: Tables) {
    forall u :: u in a.accounts ==> u in b.accounts && b.accounts[u].oldId == a.accounts[u].oldId
  }

  function Since(a: Tables, b: Tables): seq<SyncEvent>
    requires |a.events| <= |b.events|
  {
    b.events[|a.events|..]
  }

  predicate ExplainsUser(a: Tables, es: seq<SyncEvent>, b: Tables, p: string, u: string) {
    Replay(Row(a, p, u), es, p, u) == Row(b, p, u) && Lands(Row(a, p, u), es, p, u)
  }

  ghost predicate Explains(a: Tables, es: seq<SyncEvent>, b: Tables) {
    forall p, u :: ExplainsUser(a, es, b, p, u)
  }

  /** The later tables extend the log of the earlier ones, and the extension explains every project's user list. */
  ghost predicate Logs(a: Tables, b: Tables) {
    && a.events <= b.events
    && a.lastId <= b.lastId
    && Numbered(Since(a, b), a.lastId, b.lastId)
    && KeepsOldIds(a, b)
    && Genuine(Since(a, b), b)
    && Explains(a, Since(a, b), b)
  }

  lemma LogsComposes(a: Tables, b: Tables, c: Tables)
    requires Logs(a, b) && Logs(b, c)
    ensures Logs(a, c)
  {
    assert Since(a, c) == Since(a, b) + Since(b, c);
    forall p, u
      ensures ExplainsUser(a, Since(a, c), c, p, u)
    {
      assert ExplainsUser(a, Since(a, b), b, p, u) && ExplainsUser(b, Since(b, c), c, p, u);
      ReplayAppends(Row(a, p, u), Since(a, b), Since(b, c), p, u);
    }
  }

  /** Access is held only by active, verified accounts, and only in existing projects; no id is empty. */
  predicate Standing(db: Tables) {
    && "" !in db.projects && "" !in db.accounts
    && forall s :: s in db.access ==>
         s.account in db.accounts && db.accounts[s.account].InGoodStanding() && s.project in db.projects
  }

  // ---------------------------------------------------------------- one event, many projects

  function Body(db: Tables, project: string, kind: Kind, account: string, payload: Payload): Payload {
    if kind.ProfileUpdated? && Seat(account, project) in db.access
    then payload.WithRoles(db.access[Seat(account, project)]) else payload
  }

  function Batch(db: Tables, projects: seq<string>, kind: Kind, account: string, payload: Payload): seq<SyncEvent> {
    seq(|projects|, i requires 0 <= i < |projects| =>
      SyncEvent(db.lastId + 1 + i, projects[i], kind, account, Body(db, projects[i], kind, account, payload)))
  }

  predicate Distinct(projects: seq<string>) {
    forall i, j :: 0 <= i < j < |projects| ==> projects[i] != projects[j]
  }

  lemma {:induction false} QueueAllEvents(db: Tables, now: nat, projects: seq<string>, kind: Kind, account: string,
                                          payload: Payload)
    requires QueueAll(db, now, projects, kind, account, payload).Ok?
    ensures QueueAll(db, now, projects, kind, account, payload).value.events
            == db.events + Batch(db, projects, kind, account, payload)
  {
    if projects != [] {
      var init := projects[..|projects| - 1];
      QueueAllEvents(db, now, init, kind, account, payload);
      assert Batch(db, projects, kind, account, payload)
             == Batch(db, init, kind, account, payload)
                + [Batch(db, projects, kind, account, payload)[|projects| - 1]];
    }
  }

  lemma {:induction false} ReplayBatch(row: Option<UserRow>, db: Tables, projects: seq<string>, kind: Kind,
                                       account: string,
                                       payload: Payload, project: string, user: string)
    requires Distinct(projects)
    ensures var es := Batch(db, projects, kind, account, payload);
            var hit := user == account && project in projects;
            && Replay(row, es, project, user)
               == (if hit then Consume(row, kind, Body(db, project, kind, account, payload)) else row)
            && Lands(row, es, project, user) == (hit && !kind.AccessGranted? ==> row.Some?)
  {
    if projects != [] {
      var init := projects[..|projects| - 1];
      var es := Batch(db, projects, kind, account, payload);
      assert es[..|es| - 1] == Batch(db, init, kind, account, payload);
      ReplayBatch(row, db, init, kind, account, payload, project, user);
      assert project in projects <==> project in init || project == projects[|projects| - 1];
    }
  }

  lemma ProjectsOf(db: Tables, account: string, origin: string)
    ensures var ps := ProfileProjects(db, account, origin);
            && Distinct(ps)
            && forall p :: p in ps <==> Seat(account, p) in db.access && p != origin
  {
    var ps := ProfileProjects(db, account, origin);
    AscendingHasNoDuplicates(ps);
    forall p | Seat(account, p) in db.access && p != origin
      ensures p in ps
    {
      assert Seat(account, p).project == p;
    }
  }

  /** The step from `a` to `b` changes a user's row as the batch queued from `mid` says. */
  predicate Shift(a: Tables, mid: Tables, b: Tables, projects: seq<string>, kind: Kind, account: string,
                  payload: Payload, p: string, u: string)
  {
    if u == account && p in projects then
      && Row(b, p, u) == Consume(Row(a, p, u), kind, Body(mid, p, kind, account, payload))
      && (!kind.AccessGranted? ==> Row(a, p, u).Some?)
    else
      Row(b, p, u) == Row(a, p, u)
  }

  lemma BatchExplains(a: Tables, mid: Tables, b: Tables, projects: seq<string>, kind: Kind, account: string,
                      payload: Payload)
    requires Distinct(projects)
    requires forall p, u :: Shift(a, mid, b, projects, kind, account, payload, p, u)
    ensures Explains(a, Batch(mid, projects, kind, account, payload), b)
  {
    forall p, u
      ensures ExplainsUser(a, Batch(mid, projects, kind, account, payload), b, p, u)
    {
      assert Shift(a, mid, b, projects, kind, account, payload, p, u);
      ReplayBatch(Row(a, p, u), mid, projects, kind, account, payload, p, u);
    }
  }

  /** Enough for a batch of events, queued from `mid`, to explain the step from `a` to `b`. */
  lemma BatchLogs(a: Tables, mid: Tables, b: Tables, now: nat, projects: seq<string>, kind: Kind, account: string,
                  payload: Payload)
    requires QueueAll(mid, now, projects, kind, account, payload).Ok?
    requires var q := QueueAll(mid, now, projects, kind, account, payload).value;
             b.events == q.events && b.lastId == q.lastId
    requires mid.events == a.events && mid.lastId == a.lastId
    requires Distinct(projects) && KeepsOldIds(a, b)
    requires kind.AccessGranted? ==> payload.FullUser?
    requires payload.FullUser? ==> account in b.accounts && payload.oldId == b.accounts[account].oldId
    requires forall p, u :: Shift(a, mid, b, projects, kind, account, payload, p, u)
    ensures Logs(a, b)
  {
    hide QueueAll;
    QueueAllEvents(mid, now, projects, kind, account, payload);
    BatchExplains(a, mid, b, projects, kind, account, payload);
    var es := Batch(mid, projects, kind, account, payload);
    assert Since(a, b) == es;
  }

  lemma OneIsBatch(db: Tables, now: nat, project: string, kind: Kind, account: string, payload: Payload)
    ensures QueueAll(db, now, [project], kind, account, payload) == QueueEvent(db, now, project, kind, account, payload)
  {
    assert [project][..0] == [];
    assert QueueAll(db, now, [], kind, account, payload) == Ok(db);
  }

  lemma QuietLogs(a: Tables, b: Tables)
    requires b.events == a.events && a.lastId <= b.lastId && KeepsOldIds(a, b)
    requires forall p, u :: Row(b, p, u) == Row(a, p, u)
    ensures Logs(a, b)
  {
    assert Since(a, b) == [];
  }

  // ---------------------------------------------------------------- shapes of a logged transaction

  /** Giving a seat to an account in good standing: the account may be new (`a.accounts` lacks it), the seat may
      exist. */
  lemma SeatShift(a: Tables, mid: Tables, seat: Seat, roles: seq<string>, kind: Kind, payload: Payload)
    requires seat.account in mid.accounts && mid.accounts[seat.account].InGoodStanding()
    requires mid.accounts - {seat.account} == a.accounts - {seat.account}
    requires seat.account in a.accounts ==> a.accounts[seat.account] == mid.accounts[seat.account]
    requires mid.access == a.access[seat := roles]
    requires payload == FullUser(mid.accounts[seat.account].oldId, mid.accounts[seat.account].profile, roles)
    requires kind.AccessGranted? || (kind.RolesChanged? && seat in a.access && seat.account in a.accounts)
    requires seat.account !in a.accounts ==> forall s :: s in a.access ==> s.account != seat.account
    ensures forall p, u :: Shift(a, mid, mid, [seat.project], kind, seat.account, payload, p, u)
  {
    forall p, u ensures Shift(a, mid, mid, [seat.project], kind, seat.account, payload, p, u) {
      if u != seat.account {
        assert u in a.accounts <==> u in mid.accounts - {seat.account};
        assert u in mid.accounts ==>
          mid.accounts[u] == (mid.accounts - {seat.account})[u] == (a.accounts - {seat.account})[u];
      }
    }
  }

  /** The last statements of a logged transaction only append to the two channels. */
  lemma ShiftIgnoresChannels(a: Tables, mid: Tables, b: Tables, projects: seq<string>, kind: Kind, account: string,
                             payload: Payload)
    requires forall p, u :: Shift(a, mid, mid, projects, kind, account, payload, p, u)
    requires b.accounts == mid.accounts && b.access == mid.access
    ensures forall p, u :: Shift(a, mid, b, projects, kind, account, payload, p, u)
  {
    forall p, u ensures Shift(a, mid, b, projects, kind, account, payload, p, u) {
      assert Shift(a, mid, mid, projects, kind, account, payload, p, u);
    }
  }

  lemma SeatLogs(a: Tables, mid: Tables, now: nat, kind: Kind, seat: Seat, roles: seq<string>)
    requires LogSeat(mid, now, kind, seat, roles).Ok?
    requires mid.accounts - {seat.account} == a.accounts - {seat.account}
    requires seat.account in a.accounts ==> a.accounts[seat.account] == mid.accounts[seat.account]
    requires mid.access == a.access[seat := roles]
    requires kind.AccessGranted? || (kind.RolesChanged? && seat in a.access && seat.account in a.accounts)
    requires seat.account !in a.accounts ==> forall s :: s in a.access ==> s.account != seat.account
    requires mid.events == a.events && mid.lastId == a.lastId
    ensures Logs(a, LogSeat(mid, now, kind, seat, roles).value)
  {
    var b := LogSeat(mid, now, kind, seat, roles).value;
    var payload := AccountPayload(mid, seat.account, roles).value;
    OneIsBatch(mid, now, seat.project, kind, seat.account, payload);
    SeatShift(a, mid, seat, roles, kind, payload);
    ShiftIgnoresChannels(a, mid, b, [seat.project], kind, seat.account, payload);
    assert KeepsOldIds(a, b) by {
      forall u | u in a.accounts ensures u in b.accounts && b.accounts[u].oldId == a.accounts[u].oldId {
        if u != seat.account { assert u in a.accounts - {seat.account}; }
      }
    }
    BatchLogs(a, mid, b, now, [seat.project], kind, seat.account, payload);
  }

  // ---------------------------------------------------------------- the transactions

  lemma GrantLogs(a: Tables, now: nat, account: string, project: string, roles: seq<string>)
    requires Standing(a) && GrantAccess(a, now, account, project, roles).Ok?
    ensures Logs(a, GrantAccess(a, now, account, project, roles).value)
  {
    var seat := Seat(account, project);
    var kind := if seat in a.access then RolesChanged else AccessGranted;
    var granted := a.(access := a.access[seat := roles], requests := ApproveWaiting(a.requests, seat));
    SeatLogs(a, granted, now, kind, seat, roles);
  }

  lemma ApproveLogs(a: Tables, now: nat, project: string, request: string, roles: seq<string>)
    requires Standing(a) && ApproveRequest(a, now, project, request, roles).Ok?
    ensures Logs(a, ApproveRequest(a, now, project, request, roles).value)
  {
    var seat := Seat(a.requests[request].account, project);
    var granted := a.(requests := a.requests[request := a.requests[request].(status := Approved)],
                      access := a.access[seat := roles]);
    SeatLogs(a, granted, now, AccessGranted, seat, roles);
  }

  lemma SetRolesLogs(a: Tables, now: nat, project: string, account: string, roles: seq<string>)
    requires Standing(a) && SetProjectRoles(a, now, project, account, roles).Ok?
    ensures Logs(a, SetProjectRoles(a, now, project, account, roles).value)
  {
    var seat := Seat(account, project);
    var changed := a.(access := a.access[seat := roles]);
    SeatLogs(a, changed, now, RolesChanged, seat, roles);
  }

  lemma SeatAdminLogs(a: Tables, now: nat, project: string, account: string)
    requires Standing(a) && SeatAdmin(a, now, project, account).Ok?
    ensures Logs(a, SeatAdmin(a, now, project, account).value)
  {
    var seat := Seat(account, project);
    var roles := AdminRoles(a.access, seat);
    var granted := a.(access := a.access[seat := roles]);
    SeatLogs(a, granted, now, AccessGranted, seat, roles);
  }

  lemma RevokeLogs(a: Tables, now: nat, account: string, project: string)
    requires Standing(a) && RevokeAccess(a, now, account, project).Ok?
    ensures Logs(a, RevokeAccess(a, now, account, project).value)
  {
    var seat := Seat(account, project);
    var b := RevokeAccess(a, now, account, project).value;
    var revoked := a.(access := a.access - {seat}, tokens := RevokeSeat(a.tokens, seat));
    OneIsBatch(revoked, now, project, AccessRevoked, account, UserIdOnly);
    forall p, u ensures Shift(a, revoked, b, [project], AccessRevoked, account, UserIdOnly, p, u) {}
    BatchLogs(a, revoked, b, now, [project], AccessRevoked, account, UserIdOnly);
  }

  lemma DisableShift(a: Tables, mid: Tables, b: Tables, projects: seq<string>, id: string)
    requires Standing(a)
    requires id in a.accounts && b.accounts == a.accounts[id := a.accounts[id].(status := Inactive)]
    requires b.access == map s | s in a.access && s.account != id :: a.access[s]
    requires forall p :: p in projects <==> Seat(id, p) in a.access && p != ""
    ensures forall p, u :: Shift(a, mid, b, projects, AccessRevoked, id, UserIdOnly, p, u)
  {
    forall p, u ensures Shift(a, mid, b, projects, AccessRevoked, id, UserIdOnly, p, u) {}
  }

  lemma DisableLogs(a: Tables, now: nat, id: string)
    requires Standing(a) && DisableAccount(a, now, id).Ok?
    ensures Logs(a, DisableAccount(a, now, id).value)
  {
    var b := DisableAccount(a, now, id).value;
    var revoked := RevokeCredentials(a.(accounts := a.accounts[id := a.accounts[id].(status := Inactive)]), id);
    var projects := ProfileProjects(revoked, id, "");
    ProjectsOf(revoked, id, "");
    DisableShift(a, revoked, b, projects, id);
    BatchLogs(a, revoked, b, now, projects, AccessRevoked, id, UserIdOnly);
  }

  lemma PasswordShift(a: Tables, mid: Tables, b: Tables, projects: seq<string>, id: string, password: StoredPassword)
    requires Standing(a)
    requires b.accounts == SetPassword(a.accounts, id, password)
    requires b.access == a.access
    requires forall p :: p in projects ==> Seat(id, p) in a.access
    ensures forall p, u :: Shift(a, mid, b, projects, SessionsRevoked, id, UserIdOnly, p, u)
  {
    forall p, u ensures Shift(a, mid, b, projects, SessionsRevoked, id, UserIdOnly, p, u) {}
  }

  lemma RevokePasswordLogs(a: Tables, mid: Tables, now: nat, id: string, password: StoredPassword)
    requires Standing(a) && mid == a.(resets := mid.resets)
    requires RevokePasswordSessions(mid, now, id, password).Ok?
    ensures Logs(a, RevokePasswordSessions(mid, now, id, password).value)
  {
    var b := RevokePasswordSessions(mid, now, id, password).value;
    var revoked := RevokeCredentials(mid.(accounts := SetPassword(mid.accounts, id, password)), id);
    var projects := ProfileProjects(revoked, id, "");
    ProjectsOf(revoked, id, "");
    PasswordShift(a, revoked, b, projects, id, password);
    BatchLogs(a, revoked, b, now, projects, SessionsRevoked, id, UserIdOnly);
  }

  /** A profile change reaches every project of the account, and only those. */
  lemma ProfileShift(a: Tables, mid: Tables, b: Tables, projects: seq<string>, id: string, profile: Profile)
    requires Standing(a)
    requires id in a.accounts && mid.accounts == a.accounts[id := a.accounts[id].(profile := profile)]
    requires mid.access == a.access && b.accounts == mid.accounts && b.access == a.access
    requires forall p :: p in projects <==> Seat(id, p) in a.access
    ensures forall p, u :: Shift(a, mid, b, projects, ProfileUpdated, id, ProfileOnly(profile, []), p, u)
  {
    forall p, u ensures Shift(a, mid, b, projects, ProfileUpdated, id, ProfileOnly(profile, []), p, u) {}
  }

  lemma UpdateProfileLogs(a: Tables, now: nat, id: string, login: string, given: string, family: string,
                          name: string, avatar: string)
    requires Standing(a) && UpdateProfile(a, now, id, login, given, family, name, avatar).Ok?
    ensures Logs(a, UpdateProfile(a, now, id, login, given, family, name, avatar).value)
  {
    var b := UpdateProfile(a, now, id, login, given, family, name, avatar).value;
    var profile := Profile(a.accounts[id].profile.email, login, name, given, family, avatar);
    var updated := a.(accounts := a.accounts[id := a.accounts[id].(profile := profile)]);
    var projects := ProfileProjects(updated, id, "");
    ProjectsOf(updated, id, "");
    ProfileShift(a, updated, b, projects, id, profile);
    BatchLogs(a, updated, b, now, projects, ProfileUpdated, id, ProfileOnly(profile, []));
  }

  lemma {:induction false} QueueAllFinds(db: Tables, now: nat, projects: seq<string>, account: string, payload: Payload)
    requires QueueAll(db, now, projects, ProfileUpdated, account, payload).Ok?
    ensures forall i :: 0 <= i < |projects| ==> Seat(account, projects[i]) in db.access
  {
    if projects != [] {
      QueueAllFinds(db, now, projects[..|projects| - 1], account, payload);
    }
  }

  lemma OriginAndRest(db: Tables, id: string, project: string)
    requires Seat(id, project) in db.access
    ensures var projects := [project] + ProfileProjects(db, id, project);
            Distinct(projects) && forall p :: p in projects <==> Seat(id, p) in db.access
  {
    ProjectsOf(db, id, project);
    var rest := ProfileProjects(db, id, project);
    var projects := [project] + rest;
    assert forall i :: 1 <= i < |projects| ==> projects[i] == rest[i - 1] && rest[i - 1] in rest;
    forall p ensures p in projects <==> Seat(id, p) in db.access {
      assert p in projects <==> p == project || p in rest;
    }
  }

  lemma UpdateLegacyProfileLogs(a: Tables, now: nat, project: string, id: string, name: string, avatar: string)
    requires Standing(a) && UpdateLegacyProfile(a, now, project, id, name, avatar).Ok?
    ensures Logs(a, UpdateLegacyProfile(a, now, project, id, name, avatar).value)
  {
    var b := UpdateLegacyProfile(a, now, project, id, name, avatar).value;
    var profile := a.accounts[id].profile.(name := name, given := name, family := "", avatar := avatar);
    var updated := a.(accounts := a.accounts[id := a.accounts[id].(profile := profile)]);
    var projects := [project] + ProfileProjects(updated, id, project);
    QueueAllFinds(updated, now, projects, id, ProfileOnly(profile, []));
    assert projects[0] == project;
    OriginAndRest(updated, id, project);
    ProfileShift(a, updated, b, projects, id, profile);
    BatchLogs(a, updated, b, now, projects, ProfileUpdated, id, ProfileOnly(profile, []));
  }

  /** Changes to accounts that no project lists, and changes that leave every listed column alone. */
  predicate SameRows(a: Tables, b: Tables) {
    && b.events == a.events && a.lastId <= b.lastId && b.access == a.access
    && forall u :: u in a.accounts ==>
         && u in b.accounts
         && b.accounts[u].oldId == a.accounts[u].oldId
         && (a.accounts[u].InGoodStanding() ==>
               b.accounts[u].InGoodStanding() && b.accounts[u].profile == a.accounts[u].profile)
  }

  lemma SameRowsLogs(a: Tables, b: Tables)
    requires Standing(a) && SameRows(a, b)
    ensures Logs(a, b)
  {
    QuietLogs(a, b);
  }
}
