/** The repository in its own form: one field per table, one method per transaction, statements carried out in
    place in the source's order, and a rollback on every failing path. Each method is proved to do what the
    function of the same name in Repository.dfy says; the theorems about runs are about those functions. */
module Postgres {
  import opened Order
  import opened Text
  import opened Schema
  import Repository
  import ChangeLog
  import Replica

  /** A rolled-back transaction leaves every table as it was; ids drawn from the sequence stay drawn. */
  predicate RolledBack(before: Tables, after: Tables) {
    before.lastId <= after.lastId && after == before.(lastId := after.lastId)
  }

  /** How a method's error and its effect on the tables match what the transaction answers. */
  predicate Answers(answer: Result<Tables>, err: Option<Error>, before: Tables, after: Tables) {
    match answer
    case Ok(value) => err.None? && after == value
    case Err(e) => err == Some(e) && RolledBack(before, after)
  }

  lemma QueueNone(db: Tables, now: nat, kind: Kind, account: string, payload: Payload)
    ensures Repository.QueueAll(db, now, [], kind, account, payload) == Ok(db)
  {
  }

  lemma QueueAllGoesOn(db: Tables, now: nat, projects: seq<string>, i: nat, kind: Kind, account: string,
                       payload: Payload)
    requires i < |projects|
    ensures var before := Repository.QueueAll(db, now, projects[..i], kind, account, payload);
            before.Ok? ==> Repository.QueueAll(db, now, projects[..i + 1], kind, account, payload)
                           == Repository.QueueEvent(before.value, now, projects[i], kind, account, payload)
  {
    assert projects[..i + 1][..i] == projects[..i];
  }

  lemma {:induction false} QueueAllStops(db: Tables, now: nat, projects: seq<string>, n: nat, kind: Kind,
                                         account: string, payload: Payload)
    requires n <= |projects| && Repository.QueueAll(db, now, projects[..n], kind, account, payload).Err?
    ensures Repository.QueueAll(db, now, projects, kind, account, payload)
            == Repository.QueueAll(db, now, projects[..n], kind, account, payload)
  {
    hide Repository.QueueEvent;
    if n == |projects| {
      assert projects[..n] == projects;
    } else {
      var init := projects[..|projects| - 1];
      assert init[..n] == projects[..n];
      QueueAllStops(db, now, init, n, kind, account, payload);
    }
  }

  lemma NobodySeated(access: map<Seat, seq<string>>, project: string)
    ensures Repository.SeatAdmins(access, {}, project) == access
  {
  }

  /** What GrantProjectAdmin comes to, past its guards. */
  lemma FinishAdmin(db: Tables, now: nat, project: string, email: string, seat: Seat, roles: seq<string>)
    requires Repository.FirstRow(Repository.VerifiedActive(db.accounts, Lower(Trim(email)))) == Ok(seat.account)
    requires seat.project == project && project in db.projects && roles == Repository.AdminRoles(db.access, seat)
    ensures Repository.GrantProjectAdmin(db, now, project, email)
            == Repository.LogSeat(db.(access := db.access[seat := roles]), now, AccessGranted, seat, roles)
  {
    hide Repository.LogSeat, Repository.FirstRow, Repository.VerifiedActive, Repository.AdminRoles;
  }

  /** The two guards of GrantAccess, and the transaction past them. */
  lemma GrantGuards(db: Tables, now: nat, account: string, project: string, roles: seq<string>)
    ensures var seat := Seat(account, project);
            var answer := Repository.GrantAccess(db, now, account, project, roles);
            if account !in db.accounts || !db.accounts[account].InGoodStanding()
            then Answers(answer, Some(NoRows), db, db)
            else if project !in db.projects then Answers(answer, Some(ForeignKeyViolation), db, db)
            else answer == Repository.LogSeat(
              db.(access := db.access[seat := roles], requests := Repository.ApproveWaiting(db.requests, seat)), now,
              if seat in db.access then RolesChanged else AccessGranted, seat, roles)
  {
    hide Repository.LogSeat, Repository.ApproveWaiting;
  }

  class Database {
    var accounts: map<string, Account>
    var verifications: map<string, Ticket>
    var projects: set<string>
    var clients: map<string, Client>
    var access: map<Seat, seq<string>>
    var requests: map<string, AccessRequest>
    var sessions: map<string, Session>
    var codes: map<string, Code>
    var tokens: map<string, RefreshToken>
    var resets: map<string, Ticket>
    var limits: map<string, Limit>
    var keys: map<string, SigningKey>
    var outbox: map<nat, OutboxRow>
    var events: seq<SyncEvent>
    var lastId: nat

    function State(): Tables
      reads this
    {
      Tables(accounts, verifications, projects, clients, access, requests, sessions, codes, tokens, resets, limits,
             keys, outbox, events, lastId)
    }

    /** A migrated database without rows. */
    constructor ()
      ensures State() == Tables(map[], map[], {}, map[], map[], map[], map[], map[], map[], map[], map[], map[],
                                map[], [], 0)
    {
      accounts, verifications, projects, clients, access := map[], map[], {}, map[], map[];
      requests, sessions, codes, tokens, resets := map[], map[], map[], map[], map[];
      limits, keys, outbox, events, lastId := map[], map[], map[], [], 0;
    }

    method Rollback(begun: Tables)
      modifies this
      ensures State() == begun.(lastId := old(lastId))
    {
      RestoreDirectory(begun);
      RestoreCredentials(begun);
      limits, keys, outbox, events := begun.limits, begun.keys, begun.outbox, begun.events;
    }

    method RestoreDirectory(begun: Tables)
      modifies this`accounts, this`verifications, this`projects, this`clients, this`access, this`requests
      ensures accounts == begun.accounts && verifications == begun.verifications && projects == begun.projects
      ensures clients == begun.clients && access == begun.access && requests == begun.requests
    {
      accounts, verifications, projects := begun.accounts, begun.verifications, begun.projects;
      clients, access, requests := begun.clients, begun.access, begun.requests;
    }

    method RestoreCredentials(begun: Tables)
      modifies this`sessions, this`codes, this`tokens, this`resets
      ensures sessions == begun.sessions && codes == begun.codes && tokens == begun.tokens && resets == begun.resets
    {
      sessions, codes, tokens, resets := begun.sessions, begun.codes, begun.tokens, begun.resets;
    }

    // -------------------------------------------------------------- events.go

    method QueueEvent(now: nat, project: string, kind: Kind, account: string, payload: Payload)
      returns (err: Option<Error>)
      modifies this
      ensures match Repository.QueueEvent(old(State()), now, project, kind, account, payload)
              case Ok(value) => err.None? && State() == value
              case Err(e) => err == Some(e) && State() == old(State())
    {
      var body := payload;
      if kind.ProfileUpdated? {
        if Seat(account, project) !in access { return Some(NoRows); }
        body := payload.WithRoles(access[Seat(account, project)]);
      }
      if project !in projects { return Some(ForeignKeyViolation); }
      outbox := outbox[lastId + 1 := OutboxRow(project, kind, body, now, None, 0)];
      lastId := lastId + 1;
      events := events + [SyncEvent(lastId, project, kind, account, body)];
      err := None;
    }

    /** The loop with which four transactions end: one event per project, stopping at the first failure. */
    method QueueEach(now: nat, targets: seq<string>, kind: Kind, account: string, payload: Payload)
      returns (err: Option<Error>)
      modifies this
      ensures match Repository.QueueAll(old(State()), now, targets, kind, account, payload)
              case Ok(value) => err.None? && State() == value
              case Err(e) => err == Some(e) && old(lastId) <= lastId
    {
      hide Repository.QueueEvent, Repository.QueueAll;
      ghost var start := State();
      err := None;
      assert Repository.QueueAll(start, now, targets[..0], kind, account, payload) == Ok(start) by {
        QueueNone(start, now, kind, account, payload);
      }
      for i := 0 to |targets|
        invariant Repository.QueueAll(start, now, targets[..i], kind, account, payload) == Ok(State())
        invariant err.None?
      {
        QueueAllGoesOn(start, now, targets, i, kind, account, payload);
        err := QueueEvent(now, targets[i], kind, account, payload);
        if err.Some? {
          QueueAllStops(start, now, targets, i + 1, kind, account, payload);
          return;
        }
      }
      assert targets[..|targets|] == targets;
    }

    method ProfileProjects(account: string, origin: string) returns (found: seq<string>)
      ensures found == Repository.ProfileProjects(State(), account, origin)
    {
      var rows := Listing(set s | s in access && s.account == account && s.project != origin :: s.project);
      found := [];
      for i := 0 to |rows|
        invariant found == rows[..i]
      {
        found := found + [rows[i]];
      }
    }

    method AccountPayload(account: string, roles: seq<string>) returns (r: Result<Payload>)
      ensures r == Repository.AccountPayload(State(), account, roles)
    {
      if account !in accounts || !accounts[account].InGoodStanding() { return Err(NoRows); }
      r := Ok(FullUser(accounts[account].oldId, accounts[account].profile, roles));
    }

    /** Payload, then event: how a transaction that gives a seat ends, with a rollback to where it began. */
    method FinishSeat(begun: Tables, now: nat, kind: Kind, seat: Seat, roles: seq<string>) returns (err: Option<Error>)
      requires begun.lastId <= lastId
      modifies this
      ensures Answers(Repository.LogSeat(old(State()), now, kind, seat, roles), err, begun, State())
    {
      var payload := AccountPayload(seat.account, roles);
      if payload.Err? {
        Rollback(begun);
        return Some(payload.error);
      }
      err := QueueEvent(now, seat.project, kind, seat.account, payload.value);
      if err.Some? { Rollback(begun); }
    }

    /** One page of a project's users, read in one snapshot of the database. */
    method Snapshot(project: string, after: string, requestedCursor: Option<nat>)
      returns (cursor: nat, users: seq<(string, ChangeLog.UserRow)>, next: string)
      ensures Replica.PageOf(Replica.Snapshot(State(), project, after, requestedCursor), cursor, users, next)
    {
      hide Replica.View, Replica.UsersAbove, Replica.MaxId, Replica.PageOf;
      var ids := Replica.UsersAbove(State(), project, after);
      var view := Replica.View(State(), project);
      Replica.AboveAreViewed(State(), project, after);
      if requestedCursor.Some? { cursor := requestedCursor.value; } else { cursor := Replica.MaxId(events); }
      users, next := [], "";
      var limit := if |ids| > Replica.PAGE + 1 then Replica.PAGE + 1 else |ids|;
      for i := 0 to limit
        invariant |users| == i && forall k :: 0 <= k < i ==> users[k] == (ids[k], view[ids[k]])
      {
        users := users + [(ids[i], view[ids[i]])];
      }
      if |users| > Replica.PAGE {
        users := users[..Replica.PAGE];
        next := users[Replica.PAGE - 1].0;
      }
      Replica.RowsArePage(State(), project, after, requestedCursor, users);
    }

    /** One page of a project's events above a cursor. */
    method Changes(project: string, after: nat) returns (page: seq<SyncEvent>, cursor: nat)
      ensures (page, cursor) == Replica.Changes(State(), project, after)
    {
      var rows := Replica.Pending(events, project, after);
      page, cursor := [], after;
      var limit := if |rows| > Replica.PAGE then Replica.PAGE else |rows|;
      for i := 0 to limit
        invariant page == rows[..i] && cursor == if i == 0 then after else rows[i - 1].id
      {
        page := page + [rows[i]];
        cursor := rows[i].id;
      }
      assert rows[..|rows|] == rows;
    }

    // -------------------------------------------------------------- admin.go

    method ActivateAccount(id: string) returns (err: Option<Error>)
      modifies this
      ensures Answers(Repository.ActivateAccount(old(State()), id), err, old(State()), State())
    {
      if id !in accounts || !accounts[id].verified || accounts[id].status.Active? { return Some(NoRows); }
      accounts := accounts[id := accounts[id].(status := Active)];
      err := None;
    }

    /** The four statements that end an account's credentials. */
    method DeleteCredentials(id: string)
      modifies this`sessions, this`tokens, this`codes, this`resets
      ensures State() == Repository.RevokeCredentials(old(State()), id)
    {
      hide Repository.RevokeAccount, Repository.SessionsWithout, Repository.CodesWithout, Repository.TicketsWithout;
      sessions := Repository.SessionsWithout(sessions, id);
      tokens := Repository.RevokeAccount(tokens, id);
      codes := Repository.CodesWithout(codes, id);
      resets := Repository.TicketsWithout(resets, id);
    }

    method DisableAccount(now: nat, id: string) returns (err: Option<Error>)
      modifies this
      ensures Answers(Repository.DisableAccount(old(State()), now, id), err, old(State()), State())
    {
      hide Repository.QueueAll, Repository.RevokeCredentials, Repository.ProfileProjects;
      var begun := State();
      if id !in accounts || accounts[id].status.Inactive? || accounts[id].globalAdmin { return Some(NoRows); }
      accounts := accounts[id := accounts[id].(status := Inactive)];
      DeleteCredentials(id);
      var targets := ProfileProjects(id, "");
      err := QueueEach(now, targets, AccessRevoked, id, UserIdOnly);
      if err.Some? {
        Rollback(begun);
        return;
      }
      access := map s | s in access && s.account != id :: access[s];
    }

    method GrantAccess(now: nat, account: string, project: string, roles: seq<string>) returns (err: Option<Error>)
      modifies this
      ensures Answers(Repository.GrantAccess(old(State()), now, account, project, roles), err, old(State()), State())
    {
      hide Answers, Repository.GrantAccess, Repository.LogSeat, Repository.ApproveWaiting;
      var begun := State();
      GrantGuards(begun, now, account, project, roles);
      if account !in accounts || !accounts[account].InGoodStanding() { return Some(NoRows); }
      if project !in projects { return Some(ForeignKeyViolation); }
      var seat := Seat(account, project);
      var kind := if seat in access then RolesChanged else AccessGranted;
      access := access[seat := roles];
      requests := Repository.ApproveWaiting(requests, seat);
      err := FinishSeat(begun, now, kind, seat, roles);
    }

    /** RevokeAccess, and RevokeProjectAccess of management.go. */
    method RevokeAccess(now: nat, account: string, project: string) returns (err: Option<Error>)
      modifies this
      ensures Answers(Repository.RevokeAccess(old(State()), now, account, project), err, old(State()), State())
    {
      hide Repository.QueueEvent, Repository.RevokeSeat;
      var begun := State();
      var seat := Seat(account, project);
      if seat !in access { return Some(NoRows); }
      access := access - {seat};
      tokens := Repository.RevokeSeat(tokens, seat);
      err := QueueEvent(now, project, AccessRevoked, account, UserIdOnly);
      if err.Some? { Rollback(begun); }
    }

    // -------------------------------------------------------------- identity.go

    method AddEmailVerification(now: nat, account: string, hash: string) returns (err: Option<Error>)
      modifies this
      ensures Answers(Repository.AddEmailVerification(old(State()), now, account, hash), err, old(State()), State())
      ensures err.Some? ==> State() == old(State())
    {
      if hash in verifications { return Some(UniqueViolation); }
      if account !in accounts { return Some(ForeignKeyViolation); }
      verifications := verifications[hash := Ticket(account, now + HOUR, false)];
      err := None;
    }

    method CreatePendingAccount(now: nat, id: string, profile: Profile, password: StoredPassword, hash: string)
      returns (err: Option<Error>)
      modifies this
      ensures Answers(Repository.CreatePendingAccount(old(State()), now, id, profile, password, hash), err,
                      old(State()), State())
    {
      hide Repository.AddEmailVerification, Repository.Insertable;
      var begun := State();
      var account := Account(profile, password, PendingApproval, false, false, None);
      if !Repository.Insertable(accounts, id, account) { return Some(UniqueViolation); }
      accounts := accounts[id := account];
      err := AddEmailVerification(now, id, hash);
      if err.Some? { Rollback(begun); }
    }

    method VerifyEmail(now: nat, hash: string) returns (err: Option<Error>)
      modifies this
      ensures Answers(Repository.VerifyEmail(old(State()), now, hash), err, old(State()), State())
    {
      if hash !in verifications || verifications[hash].used || verifications[hash].expires <= now {
        return Some(NoRows);
      }
      var id := verifications[hash].account;
      verifications := verifications[hash := verifications[hash].(used := true)];
      if id in accounts { accounts := accounts[id := accounts[id].(verified := true)]; }
      err := None;
    }

    /** The row is locked, the password checked, and the session inserted, in one transaction. */
    method WithLogin(now: nat, identifier: string, attempt: string, hash: string) returns (r: Result<string>)
      modifies this`sessions
      ensures match Repository.WithLogin(old(State()), now, identifier, attempt, hash)
              case Ok((value, id)) => r == Ok(id) && State() == value
              case Err(e) => r == Err(e) && State() == old(State())
    {
      var row := Repository.FirstRow(Repository.LoginMatches(accounts, identifier));
      if row.Err? { return Err(row.error); }
      var id := row.value;
      if !accounts[id].password.Verifies(attempt) { return Err(InvalidCredentials); }
      if !accounts[id].verified { return Err(Unverified); }
      if accounts[id].status.Inactive? { return Err(Disabled); }
      if hash in sessions { return Err(UniqueViolation); }
      sessions := sessions[hash := Session(id, now + 7 * DAY)];
      r := Ok(id);
    }

    method SessionAccount(now: nat, hash: string) returns (r: Result<string>)
      ensures r == Repository.SessionAccount(State(), now, hash)
    {
      if hash !in sessions || sessions[hash].expires <= now { return Err(NoRows); }
      var id := sessions[hash].account;
      if id !in accounts || accounts[id].status.Inactive? { return Err(NoRows); }
      r := Ok(id);
    }

    method DeleteSession(hash: string)
      modifies this`sessions
      ensures State() == old(State()).(sessions := old(sessions) - {hash})
    {
      sessions := sessions - {hash};
    }

    method UpgradePasswordHash(id: string, previous: StoredPassword, upgraded: StoredPassword)
      modifies this`accounts
      ensures State() == Repository.UpgradePasswordHash(old(State()), id, previous, upgraded)
    {
      if id in accounts && accounts[id].password == previous {
        accounts := accounts[id := accounts[id].(password := upgraded)];
      }
    }

    method RequestAccess(requestId: string, account: string, project: string) returns (err: Option<Error>)
      modifies this`requests
      ensures Answers(Repository.RequestAccess(old(State()), requestId, account, project), err, old(State()), State())
    {
      if account !in accounts || project !in projects { return Some(ForeignKeyViolation); }
      var same := set q | q in requests && requests[q].account == account && requests[q].project == project;
      if same != {} {
        requests := map q | q in requests :: if q in same then requests[q].(status := Waiting) else requests[q];
      } else if requestId in requests {
        return Some(UniqueViolation);
      } else {
        requests := requests[requestId := AccessRequest(account, project, Waiting)];
      }
      err := None;
    }

    method AddPasswordReset(now: nat, account: string, hash: string) returns (err: Option<Error>)
      modifies this`resets
      ensures Answers(Repository.AddPasswordReset(old(State()), now, account, hash), err, old(State()), State())
    {
      if hash in resets { return Some(UniqueViolation); }
      if account !in accounts { return Some(ForeignKeyViolation); }
      resets := resets[hash := Ticket(account, now + 20 * MINUTE, false)];
      err := None;
    }

    /** The five statements of a new password, then an event per project of the account. */
    method RevokePasswordSessions(now: nat, id: string, password: StoredPassword) returns (err: Option<Error>)
      modifies this
      ensures match Repository.RevokePasswordSessions(old(State()), now, id, password)
              case Ok(value) => err.None? && State() == value
              case Err(e) => err == Some(e) && old(lastId) <= lastId
    {
      hide Repository.QueueAll, Repository.RevokeCredentials, Repository.ProfileProjects;
      if id in accounts { accounts := accounts[id := accounts[id].(password := password)]; }
      DeleteCredentials(id);
      var targets := ProfileProjects(id, "");
      err := QueueEach(now, targets, SessionsRevoked, id, UserIdOnly);
    }

    method ResetPassword(now: nat, hash: string, password: StoredPassword) returns (err: Option<Error>)
      modifies this
      ensures Answers(Repository.ResetPassword(old(State()), now, hash, password), err, old(State()), State())
    {
      hide Repository.RevokePasswordSessions;
      var begun := State();
      if hash !in resets || resets[hash].used || resets[hash].expires <= now { return Some(NoRows); }
      var id := resets[hash].account;
      resets := resets[hash := resets[hash].(used := true)];
      err := RevokePasswordSessions(now, id, password);
      if err.Some? { Rollback(begun); }
    }

    method ChangePassword(now: nat, id: string, current: string, password: StoredPassword)
      returns (err: Option<Error>)
      modifies this
      ensures Answers(Repository.ChangePassword(old(State()), now, id, current, password), err, old(State()), State())
    {
      hide Repository.RevokePasswordSessions;
      var begun := State();
      if id !in accounts || accounts[id].status.Inactive? { return Some(NoRows); }
      if !accounts[id].password.Verifies(current) { return Some(InvalidCredentials); }
      err := RevokePasswordSessions(now, id, password);
      if err.Some? { Rollback(begun); }
    }

    method UpdateProfile(now: nat, id: string, login: string, given: string, family: string, name: string,
                         avatar: string) returns (err: Option<Error>)
      modifies this
      ensures Answers(Repository.UpdateProfile(old(State()), now, id, login, given, family, name, avatar), err,
                      old(State()), State())
    {
      hide Repository.QueueAll, Repository.ProfileProjects, Repository.LoginFree;
      var begun := State();
      if id !in accounts || !accounts[id].status.Active? { return Some(NoRows); }
      if !Repository.LoginFree(accounts, id, login) { return Some(UniqueViolation); }
      var profile := Profile(accounts[id].profile.email, login, name, given, family, avatar);
      accounts := accounts[id := accounts[id].(profile := profile)];
      var targets := ProfileProjects(id, "");
      err := QueueEach(now, targets, ProfileUpdated, id, ProfileOnly(profile, []));
      if err.Some? { Rollback(begun); }
    }

    // -------------------------------------------------------------- management.go

    method UpdateLegacyProfile(now: nat, project: string, id: string, name: string, avatar: string)
      returns (err: Option<Error>)
      modifies this
      ensures Answers(Repository.UpdateLegacyProfile(old(State()), now, project, id, name, avatar), err,
                      old(State()), State())
    {
      hide Repository.QueueAll, Repository.ProfileProjects;
      var begun := State();
      if id !in accounts { return Some(NoRows); }
      var profile := accounts[id].profile.(name := name, given := name, family := "", avatar := avatar);
      accounts := accounts[id := accounts[id].(profile := profile)];
      var others := ProfileProjects(id, project);
      err := QueueEach(now, [project] + others, ProfileUpdated, id, ProfileOnly(profile, []));
      if err.Some? { Rollback(begun); }
    }

    method ApproveRequest(now: nat, project: string, request: string, roles: seq<string>)
      returns (err: Option<Error>)
      modifies this
      ensures Answers(Repository.ApproveRequest(old(State()), now, project, request, roles), err, old(State()), State())
    {
      hide Repository.LogSeat;
      var begun := State();
      if request !in requests || requests[request].project != project || !requests[request].status.Waiting? {
        return Some(NoRows);
      }
      var seat := Seat(requests[request].account, project);
      requests := requests[request := requests[request].(status := Approved)];
      if seat.account !in accounts || project !in projects {
        Rollback(begun);
        return Some(ForeignKeyViolation);
      }
      access := access[seat := roles];
      err := FinishSeat(begun, now, AccessGranted, seat, roles);
    }

    method SetProjectRoles(now: nat, project: string, account: string, roles: seq<string>)
      returns (err: Option<Error>)
      modifies this
      ensures Answers(Repository.SetProjectRoles(old(State()), now, project, account, roles), err, old(State()),
                      State())
    {
      hide Repository.LogSeat;
      var begun := State();
      var seat := Seat(account, project);
      if seat !in access { return Some(NoRows); }
      access := access[seat := roles];
      err := FinishSeat(begun, now, RolesChanged, seat, roles);
    }

    // -------------------------------------------------------------- clients.go

    method RegisterClient(id: string, project: string, secretHash: string, redirects: seq<string>)
      returns (err: Option<Error>)
      modifies this
      ensures Answers(Repository.RegisterClient(old(State()), id, project, secretHash, redirects), err,
                      old(State()), State())
    {
      var begun := State();
      projects := projects + {project};
      if id in clients {
        Rollback(begun);
        return Some(UniqueViolation);
      }
      clients := clients[id := Client(project, secretHash, redirects)];
      err := None;
    }

    method GrantProjectAdmin(now: nat, project: string, email: string) returns (err: Option<Error>)
      modifies this
      ensures Answers(Repository.GrantProjectAdmin(old(State()), now, project, email), err, old(State()), State())
    {
      hide Repository.LogSeat, Repository.FirstRow, Repository.VerifiedActive;
      var begun := State();
      var row := Repository.FirstRow(Repository.VerifiedActive(accounts, Lower(Trim(email))));
      if row.Err? { return Some(row.error); }
      if project !in projects { return Some(ForeignKeyViolation); }
      var seat := Seat(row.value, project);
      var roles := ["admin"];
      if seat in access {
        roles := access[seat];
        if "admin" !in roles { roles := roles + ["admin"]; }
      }
      assert roles == Repository.AdminRoles(access, seat);
      access := access[seat := roles];
      FinishAdmin(begun, now, project, email, seat, roles);
      err := FinishSeat(begun, now, AccessGranted, seat, roles);
    }

    method GrantGlobalAdmin(email: string) returns (err: Option<Error>)
      modifies this
      ensures Answers(Repository.GrantGlobalAdmin(old(State()), email), err, old(State()), State())
    {
      hide Repository.FirstRow;
      var row := Repository.FirstRow(Repository.VerifiedActive(accounts, email));
      if row.Err? { return Some(row.error); }
      accounts := accounts[row.value := accounts[row.value].(globalAdmin := true)];
      err := None;
    }

    /** Four statements that commit one by one: a failing one keeps those before it. */
    method EnsureBootstrap(project: string, client: string, secretHash: string, redirect: string, adminId: string,
                           adminEmail: string, adminPassword: Option<StoredPassword>) returns (err: Option<Error>)
      modifies this
      ensures State() == Repository.EnsureBootstrap(old(State()), project, client, secretHash, redirect, adminId,
                                                    adminEmail, adminPassword)
      ensures err == Repository.BootstrapError(old(State()), adminId, adminEmail, adminPassword)
    {
      hide Repository.EnsureAdmin;
      err := None;
      projects := projects + {project};
      if client != "" && secretHash != "" && redirect != "" && client !in clients {
        clients := clients[client := Client(project, secretHash, [redirect])];
      }
      if adminEmail == "" || adminPassword.None? { return; }
      err := EnsureAdmin(project, adminId, adminEmail, adminPassword.value);
    }

    method EnsureAdmin(project: string, adminId: string, adminEmail: string, password: StoredPassword)
      returns (err: Option<Error>)
      modifies this`accounts, this`access
      ensures State() == Repository.EnsureAdmin(old(State()), project, adminId, adminEmail, password)
      ensures adminEmail != "" ==>
        err == Repository.BootstrapError(old(State()), adminId, adminEmail, Some(password))
    {
      hide Repository.WithEmail, Repository.Promote, Repository.SeatAdmins, Repository.Insertable;
      NobodySeated(access, project);
      err := None;
      var present := Repository.WithEmail(accounts, adminEmail);
      if present == {} {
        var admin := Repository.AdminAccount(adminEmail, password);
        if !Repository.Insertable(accounts, adminId, admin) { return Some(UniqueViolation); }
        accounts := accounts[adminId := admin];
        present := {adminId};
      } else {
        accounts := Repository.Promote(accounts, present);
      }
      access := Repository.SeatAdmins(access, present, project);
    }

    // -------------------------------------------------------------- oauth.go

    method CreateAuthorizationCode(now: nat, hash: string, account: string, client: string, redirect: string,
                                   nonce: string, challenge: string, scopes: seq<string>) returns (err: Option<Error>)
      modifies this`codes
      ensures Answers(Repository.CreateAuthorizationCode(old(State()), now, hash, account, client, redirect, nonce,
                                                         challenge, scopes), err, old(State()), State())
    {
      if hash in codes { return Some(UniqueViolation); }
      if account !in accounts || client !in clients { return Some(ForeignKeyViolation); }
      codes := codes[hash := Code(account, client, redirect, nonce, challenge, scopes, now + 2 * MINUTE, false)];
      err := None;
    }

    /** The code is marked used first; a mismatch of client, redirect or challenge rolls that back. */
    method ConsumeAuthorizationCode(now: nat, hash: string, client: string, redirect: string, challenge: string)
      returns (r: Result<Code>)
      modifies this
      ensures match Repository.ConsumeAuthorizationCode(old(State()), now, hash, client, redirect, challenge)
              case Ok((value, code)) => r == Ok(code) && State() == value
              case Err(e) => r == Err(e) && State() == old(State())
    {
      var begun := State();
      if hash !in codes || codes[hash].used || codes[hash].expires <= now { return Err(NoRows); }
      var code := codes[hash];
      codes := codes[hash := code.(used := true)];
      if code.client != client || code.redirect != redirect || code.challenge != challenge {
        Rollback(begun);
        return Err(NoRows);
      }
      r := Ok(code);
    }

    /** Reuse commits the revocation of the family and still answers an error. */
    method RotateRefresh(hash: string, nextHash: string, client: string, project: string, hostNow: nat)
      returns (r: Result<Repository.RefreshGrant>)
      modifies this`tokens
      ensures (State(), r) == Repository.RotateRefresh(old(State()), hash, nextHash, client, project, hostNow)
    {
      if hash !in tokens { return Err(NoRows); }
      var t := tokens[hash];
      if t.client != client || t.project != project { return Err(NoRows); }
      if t.used || t.revoked {
        tokens := Repository.RevokeFamily(tokens, t.family);
        return Err(RefreshReuse);
      }
      if t.expires <= hostNow || t.familyExpires <= hostNow { return Err(NoRows); }
      var begun := tokens;
      tokens := tokens[hash := t.(used := true)];
      if nextHash in tokens {
        tokens := begun;
        return Err(UniqueViolation);
      }
      tokens := tokens[nextHash := RefreshToken(t.family, t.account, client, project, t.scopes, t.familyExpires,
                                                t.familyExpires, false, false)];
      r := Ok(Repository.RefreshGrant(t.account, t.scopes));
    }

    method CreateRefresh(now: nat, hash: string, family: string, account: string, client: string, project: string,
                         scopes: seq<string>) returns (err: Option<Error>)
      modifies this`tokens
      ensures Answers(Repository.CreateRefresh(old(State()), now, hash, family, account, client, project, scopes), err,
                      old(State()), State())
    {
      if hash in tokens { return Some(UniqueViolation); }
      if account !in accounts || client !in clients || project !in projects { return Some(ForeignKeyViolation); }
      tokens := tokens[hash := RefreshToken(family, account, client, project, scopes, now + 7 * DAY, now + 7 * DAY,
                                            false, false)];
      err := None;
    }

    // -------------------------------------------------------------- maintenance.go

    method IncrementAttempt(now: nat, key: string, until: nat) returns (r: Result<nat>)
      modifies this`limits
      ensures match Repository.IncrementAttempt(old(limits), now, key, until)
              case Ok((value, attempts)) => r == Ok(attempts) && limits == value
              case Err(e) => r == Err(e) && limits == old(limits)
    {
      if key !in limits {
        limits := limits[key := Limit(1, until)];
      } else if limits[key].until < now {
        limits := limits[key := Limit(1, until)];
      } else {
        if limits[key].attempts >= Repository.MAX_ATTEMPTS { return Err(InvalidInput); }
        limits := limits[key := Limit(limits[key].attempts + 1, limits[key].until)];
      }
      r := Ok(limits[key].attempts);
    }

    method Execute(now: nat, statement: Repository.Statement)
      modifies this
      ensures State() == Repository.Clean(old(State()), now, statement)
    {
      match statement
      case Limits => limits := map k | k in limits && limits[k].until + DAY >= now :: limits[k];
      case Verifications =>
        verifications := map h | h in verifications && verifications[h].expires + DAY >= now :: verifications[h];
      case Resets => resets := map h | h in resets && resets[h].expires + DAY >= now :: resets[h];
      case Codes => codes := map h | h in codes && codes[h].expires + DAY >= now :: codes[h];
      case Sessions | Tokens => ExecuteGrants(now, statement);
      case Keys | Outbox => ExecuteLater(now, statement);
    }

    method ExecuteGrants(now: nat, statement: Repository.Statement)
      requires statement.Sessions? || statement.Tokens?
      modifies this
      ensures State() == Repository.Clean(old(State()), now, statement)
    {
      if statement.Sessions? {
        sessions := map h | h in sessions && sessions[h].expires >= now :: sessions[h];
      } else {
        tokens := map h | h in tokens && tokens[h].familyExpires + DAY >= now :: tokens[h];
      }
    }

    method ExecuteLater(now: nat, statement: Repository.Statement)
      requires statement.Keys? || statement.Outbox?
      modifies this
      ensures State() == Repository.Clean(old(State()), now, statement)
    {
      match statement
      case Keys =>
        keys := map k | k in keys
                        && (keys[k].publishUntil.Some? ==> keys[k].publishUntil.value + DAY >= now) :: keys[k];
      case Outbox =>
        outbox := map i | i in outbox && (outbox[i].published.Some? ==> outbox[i].published.value + 30 * DAY >= now)
                        :: outbox[i];
    }

    method CleanupExpired(now: nat)
      modifies this
      ensures State() == Repository.CleanAll(old(State()), now, Repository.CLEANUP)
    {
      hide Repository.Clean;
      ghost var start := State();
      for i := 0 to |Repository.CLEANUP|
        invariant State() == Repository.CleanAll(start, now, Repository.CLEANUP[..i])
      {
        assert Repository.CLEANUP[..i + 1][..i] == Repository.CLEANUP[..i];
        Execute(now, Repository.CLEANUP[i]);
      }
      assert Repository.CLEANUP[..|Repository.CLEANUP|] == Repository.CLEANUP;
    }

    // -------------------------------------------------------------- keys.go

    /** `now` is the time the transaction began. */
    method RotateSigningKey(now: nat, kid: string) returns (err: Option<Error>)
      modifies this`keys
      ensures match Repository.RotateSigningKey(old(keys), now, kid)
              case Ok(value) => err.None? && keys == value
              case Err(e) => err == Some(e) && keys == old(keys)
    {
      var begun := keys;
      keys := map k | k in keys ::
        if keys[k].Retired() then keys[k] else keys[k].(publishUntil := Some(now + Repository.PUBLICATION));
      if kid in keys {
        keys := begun;
        return Some(UniqueViolation);
      }
      keys := keys[kid := SigningKey(now, None)];
      err := None;
    }

    /** ORDER BY created_at DESC LIMIT 1 over the active keys. */
    method ActiveSigningKey() returns (r: Result<string>)
      ensures r.Ok? <==> Repository.ActiveKeys(keys) != {}
      ensures r.Err? ==> r.error == NoRows
      ensures r.Ok? ==>
        && r.value in Repository.ActiveKeys(keys)
        && forall k :: k in Repository.ActiveKeys(keys) ==> keys[k].created <= keys[r.value].created
    {
      var active := Repository.ActiveKeys(keys);
      if active == {} { return Err(NoRows); }
      var kid :| kid in active;
      var rest := active - {kid};
      while rest != {}
        invariant kid in active && rest <= active
        invariant forall k :: k in active - rest ==> keys[k].created <= keys[kid].created
        decreases rest
      {
        var k :| k in rest;
        if keys[k].created > keys[kid].created { kid := k; }
        rest := rest - {k};
      }
      r := Ok(kid);
    }

    // -------------------------------------------------------------- outbox.go

    /** One round of a publisher. Any of the oldest unpublished rows may be the one the query returns. */
    method PublishNext(now: nat, acknowledged: bool) returns (picked: Option<nat>)
      modifies this`outbox
      ensures picked.None? <==> Repository.Unpublished(old(outbox)) == {}
      ensures picked.None? ==> outbox == old(outbox)
      ensures picked.Some? ==>
        && Repository.Pickable(old(outbox), picked.value)
        && outbox == Repository.RecordSend(old(outbox), now, picked.value, acknowledged)
    {
      var waiting := Repository.Unpublished(outbox);
      if waiting == {} { return None; }
      var row := Oldest(waiting);
      var sent := outbox[row].(attempts := outbox[row].attempts + 1);
      if acknowledged { sent := sent.(published := Some(now)); }
      outbox := outbox[row := sent];
      picked := Some(row);
    }

    /** ORDER BY created_at LIMIT 1. */
    method Oldest(waiting: set<nat>) returns (row: nat)
      requires waiting != {} && waiting <= outbox.Keys
      ensures row in waiting && forall i :: i in waiting ==> outbox[row].created <= outbox[i].created
    {
      row :| row in waiting;
      var rest := waiting - {row};
      while rest != {}
        invariant row in waiting && rest <= waiting
        invariant forall i :: i in waiting - rest ==> outbox[row].created <= outbox[i].created
        decreases rest
      {
        var i :| i in rest;
        if outbox[i].created < outbox[row].created { row := i; }
        rest := rest - {i};
      }
    }
  }
}
