/** The hourly clean-up cannot be seen: a database in which any clean-up statements run at any times simulates
    one that is never cleaned. */
module Cleanup {
  import opened Text
  import opened Schema
  import opened Repository
  import opened Import
  import opened Service
  import opened ChangeLog
  import opened Credentials

  // ---------------------------------------------------------------- the cleaned and the full table

  predicate Within<K, V(==)>(c: map<K, V>, u: map<K, V>) {
    forall k :: k in c ==> k in u && c[k] == u[k]
  }

  predicate TicketsTrimmed(c: map<string, Ticket>, u: map<string, Ticket>, now: nat) {
    Within(c, u) && forall k :: k in u && k !in c ==> u[k].expires + DAY < now
  }

  predicate CodesTrimmed(c: map<string, Code>, u: map<string, Code>, now: nat) {
    Within(c, u) && forall k :: k in u && k !in c ==> u[k].expires + DAY < now
  }

  predicate SessionsTrimmed(c: map<string, Session>, u: map<string, Session>, now: nat) {
    Within(c, u) && forall k :: k in u && k !in c ==> u[k].expires < now
  }

  /** Families disappear as a whole. */
  predicate TokensTrimmed(c: map<string, RefreshToken>, u: map<string, RefreshToken>, now: nat) {
    && Within(c, u)
    && (forall k :: k in u && k !in c ==> u[k].familyExpires + DAY < now)
    && (forall k, l :: k in u && k !in c && l in c ==> u[k].family != c[l].family)
  }

  predicate LimitsTrimmed(c: map<string, Limit>, u: map<string, Limit>, now: nat) {
    Within(c, u) && forall k :: k in u && k !in c ==> u[k].until + DAY < now
  }

  predicate KeysTrimmed(c: map<string, SigningKey>, u: map<string, SigningKey>, now: nat) {
    && Within(c, u)
    && forall k :: k in u && k !in c ==> u[k].publishUntil.Some? && u[k].publishUntil.value + DAY < now
  }

  predicate OutboxTrimmed(c: map<nat, OutboxRow>, u: map<nat, OutboxRow>, now: nat) {
    && Within(c, u)
    && forall k :: k in u && k !in c ==> u[k].published.Some? && u[k].published.value + 30 * DAY < now
  }

  /** The cleaned database `c` against the full one `u`: only rows past their clean-up time are missing. */
  predicate Trimmed(c: Tables, u: Tables, now: nat) {
    && c == u.(verifications := c.verifications, sessions := c.sessions, codes := c.codes, tokens := c.tokens,
               resets := c.resets, limits := c.limits, keys := c.keys, outbox := c.outbox)
    && TicketsTrimmed(c.verifications, u.verifications, now)
    && TicketsTrimmed(c.resets, u.resets, now)
    && CodesTrimmed(c.codes, u.codes, now)
    && SessionsTrimmed(c.sessions, u.sessions, now)
    && TokensTrimmed(c.tokens, u.tokens, now)
    && LimitsTrimmed(c.limits, u.limits, now)
    && KeysTrimmed(c.keys, u.keys, now)
    && OutboxTrimmed(c.outbox, u.outbox, now)
  }

  /** Both transactions fail alike, or both commit and leave the databases alike. */
  predicate Alike(c: Result<Tables>, u: Result<Tables>, now: nat) {
    if c.Err? then c == u else u.Ok? && Trimmed(c.value, u.value, now)
  }

  lemma LaterTrimmed(c: Tables, u: Tables, now: nat, later: nat)
    requires Trimmed(c, u, now) && now <= later
    ensures Trimmed(c, u, later)
  {
  }

  lemma SettleAlike(c: Tables, u: Tables, rc: Result<Tables>, ru: Result<Tables>, now: nat)
    requires Trimmed(c, u, now) && Alike(rc, ru, now)
    ensures var (c', xc) := Settle(c, rc);
            var (u', xu) := Settle(u, ru);
            Trimmed(c', u', now) && xc == xu
  {
  }

  // ---------------------------------------------------------------- the two channels

  lemma QueueEventAlike(c: Tables, u: Tables, now: nat, project: string, kind: Kind, account: string, payload: Payload)
    requires Trimmed(c, u, now)
    ensures Alike(QueueEvent(c, now, project, kind, account, payload),
                  QueueEvent(u, now, project, kind, account, payload), now)
  {
  }

  lemma {:induction false} QueueAllAlike(c: Tables, u: Tables, now: nat, projects: seq<string>, kind: Kind,
                                         account: string, payload: Payload)
    requires Trimmed(c, u, now)
    ensures Alike(QueueAll(c, now, projects, kind, account, payload),
                  QueueAll(u, now, projects, kind, account, payload), now)
  {
    hide Trimmed, QueueEvent;
    if projects != [] {
      var rc := QueueAll(c, now, projects[..|projects| - 1], kind, account, payload);
      var ru := QueueAll(u, now, projects[..|projects| - 1], kind, account, payload);
      QueueAllAlike(c, u, now, projects[..|projects| - 1], kind, account, payload);
      if rc.Ok? { QueueEventAlike(rc.value, ru.value, now, projects[|projects| - 1], kind, account, payload); }
    }
  }

  lemma LogSeatAlike(c: Tables, u: Tables, now: nat, kind: Kind, seat: Seat, roles: seq<string>)
    requires Trimmed(c, u, now)
    ensures Alike(LogSeat(c, now, kind, seat, roles), LogSeat(u, now, kind, seat, roles), now)
  {
    hide QueueEvent;
    if AccountPayload(u, seat.account, roles).Ok? {
      QueueEventAlike(c, u, now, seat.project, kind, seat.account, AccountPayload(u, seat.account, roles).value);
    }
  }

  // ---------------------------------------------------------------- tables the clean-up leaves alone

  lemma RestAlike(c: Tables, u: Tables, c': Tables, u': Tables, now: nat)
    requires Trimmed(c, u, now)
    requires c' == c.(accounts := c'.accounts, projects := c'.projects, clients := c'.clients, access := c'.access,
                      requests := c'.requests, events := c'.events, lastId := c'.lastId)
    requires u' == u.(accounts := c'.accounts, projects := c'.projects, clients := c'.clients, access := c'.access,
                      requests := c'.requests, events := c'.events, lastId := c'.lastId)
    ensures Trimmed(c', u', now)
  {
  }

  lemma RevokeCredentialsAlike(c: Tables, u: Tables, now: nat, id: string)
    requires Trimmed(c, u, now)
    ensures Trimmed(RevokeCredentials(c, id), RevokeCredentials(u, id), now)
  {
  }

  // ---------------------------------------------------------------- administration

  lemma ActivateAlike(c: Tables, u: Tables, now: nat, id: string)
    requires Trimmed(c, u, now)
    ensures Alike(ActivateAccount(c, id), ActivateAccount(u, id), now)
  {
    if ActivateAccount(u, id).Ok? { RestAlike(c, u, ActivateAccount(c, id).value, ActivateAccount(u, id).value, now); }
  }

  lemma GlobalAdminAlike(c: Tables, u: Tables, now: nat, email: string)
    requires Trimmed(c, u, now)
    ensures Alike(GrantGlobalAdmin(c, email), GrantGlobalAdmin(u, email), now)
  {
    hide FirstRow, VerifiedActive;
    if GrantGlobalAdmin(u, email).Ok? {
      RestAlike(c, u, GrantGlobalAdmin(c, email).value, GrantGlobalAdmin(u, email).value, now);
    }
  }

  lemma DisableAlike(c: Tables, u: Tables, now: nat, id: string)
    requires Trimmed(c, u, now)
    ensures Alike(DisableAccount(c, now, id), DisableAccount(u, now, id), now)
  {
    hide RevokeCredentials, QueueAll, ProfileProjects, Trimmed;
    SameRest(c, u, now);
    if id in u.accounts && !u.accounts[id].status.Inactive? && !u.accounts[id].globalAdmin {
      var accounts := u.accounts[id := u.accounts[id].(status := Inactive)];
      var c1, u1 := c.(accounts := accounts), u.(accounts := accounts);
      RestAlike(c, u, c1, u1, now);
      RevokeCredentialsAlike(c1, u1, now, id);
      var c2, u2 := RevokeCredentials(c1, id), RevokeCredentials(u1, id);
      SameRest(c2, u2, now);
      SameProjects(c2, u2, id, "");
      var ps := ProfileProjects(u2, id, "");
      QueueAllAlike(c2, u2, now, ps, AccessRevoked, id, UserIdOnly);
      if QueueAll(c2, now, ps, AccessRevoked, id, UserIdOnly).Ok? {
        var c3 := QueueAll(c2, now, ps, AccessRevoked, id, UserIdOnly).value;
        var u3 := QueueAll(u2, now, ps, AccessRevoked, id, UserIdOnly).value;
        SameRest(c3, u3, now);
        RestAlike(c3, u3, DisableAccount(c, now, id).value, DisableAccount(u, now, id).value, now);
      }
    }
  }

  lemma SameRest(c: Tables, u: Tables, now: nat)
    requires Trimmed(c, u, now)
    ensures c.accounts == u.accounts && c.projects == u.projects && c.clients == u.clients && c.access == u.access
            && c.requests == u.requests && c.events == u.events && c.lastId == u.lastId
  {
  }

  lemma SameProjects(c: Tables, u: Tables, id: string, origin: string)
    requires c.access == u.access
    ensures ProfileProjects(c, id, origin) == ProfileProjects(u, id, origin)
  {
  }

  lemma GrantAlike(c: Tables, u: Tables, now: nat, account: string, project: string, roles: seq<string>)
    requires Trimmed(c, u, now)
    ensures Alike(GrantAccess(c, now, account, project, roles), GrantAccess(u, now, account, project, roles), now)
  {
    hide LogSeat, ApproveWaiting, Trimmed;
    SameRest(c, u, now);
    var seat := Seat(account, project);
    var c1 := c.(access := c.access[seat := roles], requests := ApproveWaiting(c.requests, seat));
    var u1 := u.(access := u.access[seat := roles], requests := ApproveWaiting(u.requests, seat));
    RestAlike(c, u, c1, u1, now);
    LogSeatAlike(c1, u1, now, if seat in u.access then RolesChanged else AccessGranted, seat, roles);
  }

  lemma ApproveAlike(c: Tables, u: Tables, now: nat, project: string, request: string, roles: seq<string>)
    requires Trimmed(c, u, now)
    ensures Alike(ApproveRequest(c, now, project, request, roles), ApproveRequest(u, now, project, request, roles), now)
  {
    hide LogSeat, Trimmed;
    SameRest(c, u, now);
    if request in u.requests {
      var seat := Seat(u.requests[request].account, project);
      var requests := u.requests[request := u.requests[request].(status := Approved)];
      var c1 := c.(requests := requests, access := c.access[seat := roles]);
      var u1 := u.(requests := requests, access := u.access[seat := roles]);
      RestAlike(c, u, c1, u1, now);
      LogSeatAlike(c1, u1, now, AccessGranted, seat, roles);
    }
  }

  lemma SetRolesAlike(c: Tables, u: Tables, now: nat, project: string, account: string, roles: seq<string>)
    requires Trimmed(c, u, now)
    ensures Alike(SetProjectRoles(c, now, project, account, roles), SetProjectRoles(u, now, project, account, roles),
                  now)
  {
    hide LogSeat, Trimmed;
    SameRest(c, u, now);
    var seat := Seat(account, project);
    var c1, u1 := c.(access := c.access[seat := roles]), u.(access := u.access[seat := roles]);
    RestAlike(c, u, c1, u1, now);
    LogSeatAlike(c1, u1, now, RolesChanged, seat, roles);
  }

  lemma SeatAdminAlike(c: Tables, u: Tables, now: nat, project: string, account: string)
    requires Trimmed(c, u, now)
    ensures Alike(SeatAdmin(c, now, project, account), SeatAdmin(u, now, project, account), now)
  {
    hide LogSeat, Trimmed, AdminRoles;
    SameRest(c, u, now);
    var seat := Seat(account, project);
    var roles := AdminRoles(u.access, seat);
    var c1, u1 := c.(access := c.access[seat := roles]), u.(access := u.access[seat := roles]);
    RestAlike(c, u, c1, u1, now);
    LogSeatAlike(c1, u1, now, AccessGranted, seat, roles);
  }

  lemma RevokeAlike(c: Tables, u: Tables, now: nat, account: string, project: string)
    requires Trimmed(c, u, now)
    ensures Alike(RevokeAccess(c, now, account, project), RevokeAccess(u, now, account, project), now)
  {
    hide QueueEvent, RevokeSeat, Trimmed;
    SameRest(c, u, now);
    var seat := Seat(account, project);
    var c1 := c.(access := c.access - {seat}, tokens := RevokeSeat(c.tokens, seat));
    var u1 := u.(access := u.access - {seat}, tokens := RevokeSeat(u.tokens, seat));
    RevokeSeatAlike(c, u, c1, u1, now, seat);
    QueueEventAlike(c1, u1, now, project, AccessRevoked, account, UserIdOnly);
  }

  lemma RevokeSeatAlike(c: Tables, u: Tables, c1: Tables, u1: Tables, now: nat, seat: Seat)
    requires Trimmed(c, u, now)
    requires c1 == c.(access := c.access - {seat}, tokens := RevokeSeat(c.tokens, seat))
    requires u1 == u.(access := u.access - {seat}, tokens := RevokeSeat(u.tokens, seat))
    ensures Trimmed(c1, u1, now)
  {
    TokensRevoked(c.tokens, u.tokens, now, seat);
  }

  lemma TokensRevoked(c: map<string, RefreshToken>, u: map<string, RefreshToken>, now: nat, seat: Seat)
    requires TokensTrimmed(c, u, now)
    ensures TokensTrimmed(RevokeSeat(c, seat), RevokeSeat(u, seat), now)
  {
  }

  // ---------------------------------------------------------------- identity

  lemma TicketAlike(c: Tables, u: Tables, now: nat, account: string, hash: string)
    requires Trimmed(c, u, now) && hash !in u.verifications
    ensures Alike(AddEmailVerification(c, now, account, hash), AddEmailVerification(u, now, account, hash), now)
  {
  }

  lemma PendingAlike(c: Tables, u: Tables, now: nat, id: string, profile: Profile, password: StoredPassword,
                     hash: string)
    requires Trimmed(c, u, now) && hash !in u.verifications
    ensures Alike(CreatePendingAccount(c, now, id, profile, password, hash),
                  CreatePendingAccount(u, now, id, profile, password, hash), now)
  {
    hide Trimmed, AddEmailVerification, Insertable;
    SameRest(c, u, now);
    var accounts := u.accounts[id := Account(profile, password, PendingApproval, false, false, None)];
    var c1, u1 := c.(accounts := accounts), u.(accounts := accounts);
    RestAlike(c, u, c1, u1, now);
    TicketAlike(c1, u1, now, id, hash);
  }

  lemma RegisterAlike(c: Tables, u: Tables, now: nat, id: string, form: Registration, password: StoredPassword,
                      ticket: string)
    requires Trimmed(c, u, now) && ticket !in u.verifications
    ensures Alike(Register(c, now, id, form, password, ticket), Register(u, now, id, form, password, ticket), now)
  {
    hide Trimmed, CreatePendingAccount, Lower, Trim, LoginShape;
    var email := Lower(Trim(form.email));
    var typed := Lower(Trim(form.login));
    var login := if typed == "" then email else typed;
    var given := Trim(form.given);
    var family := Trim(form.family);
    var full := Trim(given + " " + family);
    var name := if full == "" then Trim(form.name) else full;
    PendingAlike(c, u, now, id, Profile(email, login, name, given, family, ""), password, ticket);
  }

  lemma ResendAlike(c: Tables, u: Tables, now: nat, email: string, ticket: string)
    requires Trimmed(c, u, now) && ticket !in u.verifications
    ensures Alike(ResendVerification(c, now, email, ticket), ResendVerification(u, now, email, ticket), now)
  {
    hide Trimmed, AddEmailVerification, FirstRow, Unconfirmed, Lower, Trim;
    SameRest(c, u, now);
    var row := FirstRow(Unconfirmed(u.accounts, Lower(Trim(email))));
    if row.Ok? { TicketAlike(c, u, now, row.value, ticket); }
  }

  lemma VerifyAlike(c: Tables, u: Tables, now: nat, ticket: string)
    requires Trimmed(c, u, now)
    ensures Alike(VerifyEmail(c, now, ticket), VerifyEmail(u, now, ticket), now)
  {
  }

  lemma ProfileAlike(c: Tables, u: Tables, now: nat, id: string, login: string, given: string, family: string,
                     name: string, avatar: string)
    requires Trimmed(c, u, now)
    ensures Alike(UpdateProfile(c, now, id, login, given, family, name, avatar),
                  UpdateProfile(u, now, id, login, given, family, name, avatar), now)
  {
    hide Trimmed, QueueAll, ProfileProjects, LoginFree;
    SameRest(c, u, now);
    if id in u.accounts {
      var profile := Profile(u.accounts[id].profile.email, login, name, given, family, avatar);
      var accounts := u.accounts[id := u.accounts[id].(profile := profile)];
      var c1, u1 := c.(accounts := accounts), u.(accounts := accounts);
      RestAlike(c, u, c1, u1, now);
      SameProjects(c1, u1, id, "");
      QueueAllAlike(c1, u1, now, ProfileProjects(u1, id, ""), ProfileUpdated, id, ProfileOnly(profile, []));
    }
  }

  lemma LegacyProfileAlike(c: Tables, u: Tables, now: nat, project: string, id: string, name: string, avatar: string)
    requires Trimmed(c, u, now)
    ensures Alike(UpdateLegacyProfile(c, now, project, id, name, avatar),
                  UpdateLegacyProfile(u, now, project, id, name, avatar), now)
  {
    hide Trimmed, QueueAll, ProfileProjects;
    SameRest(c, u, now);
    if id in u.accounts {
      var profile := u.accounts[id].profile.(name := name, given := name, family := "", avatar := avatar);
      var accounts := u.accounts[id := u.accounts[id].(profile := profile)];
      var c1, u1 := c.(accounts := accounts), u.(accounts := accounts);
      RestAlike(c, u, c1, u1, now);
      SameProjects(c1, u1, id, project);
      QueueAllAlike(c1, u1, now, [project] + ProfileProjects(u1, id, project), ProfileUpdated, id,
                    ProfileOnly(profile, []));
    }
  }

  lemma RequestAlike(c: Tables, u: Tables, now: nat, requestId: string, account: string, project: string)
    requires Trimmed(c, u, now)
    ensures Alike(SubmitAccessRequest(c, requestId, account, project),
                  SubmitAccessRequest(u, requestId, account, project), now)
  {
    RequestSame(c, u, requestId, account, project) by { SameRest(c, u, now); }
    if SubmitAccessRequest(u, requestId, account, project).Ok? {
      RestAlike(c, u, SubmitAccessRequest(c, requestId, account, project).value,
                SubmitAccessRequest(u, requestId, account, project).value, now);
    }
  }

  lemma RequestSame(c: Tables, u: Tables, requestId: string, account: string, project: string)
    requires c.accounts == u.accounts && c.projects == u.projects && c.requests == u.requests && c.access == u.access
    ensures var rc := SubmitAccessRequest(c, requestId, account, project);
            var ru := SubmitAccessRequest(u, requestId, account, project);
            if rc.Err? then rc == ru
            else ru.Ok? && rc.value == c.(requests := rc.value.requests)
                 && ru.value == u.(requests := rc.value.requests)
  {
    hide Requested;
  }

  lemma ImportUserAlike(c: Tables, u: Tables, now: nat, user: LegacyUser, id: string)
    requires Trimmed(c, u, now)
    ensures Alike(ImportUser(c, now, user, id), ImportUser(u, now, user, id), now)
  {
    hide Trimmed, LogSeat, Insertable, AccountOf, RolesOf;
    SameRest(c, u, now);
    var accounts := u.accounts[id := AccountOf(user)];
    var c1, u1 := c.(accounts := accounts), u.(accounts := accounts);
    RestAlike(c, u, c1, u1, now);
    var access := u.access[Seat(id, PROJECT) := RolesOf(user)];
    var c2, u2 := c1.(access := access), u1.(access := access);
    RestAlike(c1, u1, c2, u2, now);
    LogSeatAlike(c2, u2, now, AccessGranted, Seat(id, PROJECT), RolesOf(user));
  }

  lemma {:induction false} ImportAllAlike(c: Tables, u: Tables, now: nat, users: seq<LegacyUser>, ids: seq<string>)
    requires Trimmed(c, u, now) && |users| == |ids|
    ensures Alike(ImportAll(c, now, users, ids), ImportAll(u, now, users, ids), now)
  {
    hide Trimmed, ImportUser;
    if users != [] {
      var n := |users| - 1;
      ImportAllAlike(c, u, now, users[..n], ids[..n]);
      var rc, ru := ImportAll(c, now, users[..n], ids[..n]), ImportAll(u, now, users[..n], ids[..n]);
      if rc.Ok? { ImportUserAlike(rc.value, ru.value, now, users[n], ids[n]); }
    }
  }

  lemma ImportAlike(c: Tables, u: Tables, now: nat, users: seq<LegacyUser>, ids: seq<string>)
    requires Trimmed(c, u, now)
    ensures Alike(ImportUsers(c, now, users, ids), ImportUsers(u, now, users, ids), now)
  {
    hide Trimmed, ImportAll, Readable;
    SameRest(c, u, now);
    if |users| == |ids| { ImportAllAlike(c, u, now, users, ids); }
  }

  // ---------------------------------------------------------------- logins and passwords

  predicate SameLogin(c: Result<(Tables, string)>, u: Result<(Tables, string)>, now: nat) {
    if c.Err? then c == u else u.Ok? && c.value.1 == u.value.1 && Trimmed(c.value.0, u.value.0, now)
  }

  lemma LoginAlike(c: Tables, u: Tables, now: nat, identifier: string, password: string, session: string)
    requires Trimmed(c, u, now) && session !in u.sessions
    ensures SameLogin(WithLogin(c, now, identifier, password, session),
                      WithLogin(u, now, identifier, password, session), now)
  {
    hide LoginMatches, FirstRow;
  }

  lemma SessionAlike(c: Tables, u: Tables, now: nat, session: string)
    requires Trimmed(c, u, now)
    ensures SessionAccount(c, now, session) == SessionAccount(u, now, session)
  {
  }

  lemma LogoutAlike(c: Tables, u: Tables, now: nat, session: string)
    requires Trimmed(c, u, now)
    ensures Trimmed(c.(sessions := c.sessions - {session}), u.(sessions := u.sessions - {session}), now)
  {
  }

  lemma UpgradeAlike(c: Tables, u: Tables, now: nat, id: string, previous: StoredPassword, upgraded: StoredPassword)
    requires Trimmed(c, u, now)
    ensures Trimmed(UpgradePasswordHash(c, id, previous, upgraded), UpgradePasswordHash(u, id, previous, upgraded), now)
  {
  }

  lemma ForgotAlike(c: Tables, u: Tables, now: nat, email: string, ticket: string)
    requires Trimmed(c, u, now) && ticket !in u.resets
    ensures Alike(ForgotPassword(c, now, email, ticket), ForgotPassword(u, now, email, ticket), now)
  {
    hide FirstRow, Resettable;
  }

  lemma PasswordAlike(c: Tables, u: Tables, now: nat, id: string, password: StoredPassword)
    requires Trimmed(c, u, now)
    ensures Alike(RevokePasswordSessions(c, now, id, password), RevokePasswordSessions(u, now, id, password), now)
  {
    hide RevokeCredentials, QueueAll, ProfileProjects, Trimmed, SetPassword;
    SameRest(c, u, now);
    var accounts := SetPassword(u.accounts, id, password);
    var c1, u1 := c.(accounts := accounts), u.(accounts := accounts);
    RestAlike(c, u, c1, u1, now);
    RevokeCredentialsAlike(c1, u1, now, id);
    var c2, u2 := RevokeCredentials(c1, id), RevokeCredentials(u1, id);
    SameRest(c2, u2, now);
    SameProjects(c2, u2, id, "");
    QueueAllAlike(c2, u2, now, ProfileProjects(u2, id, ""), SessionsRevoked, id, UserIdOnly);
  }

  lemma UseReset(c: Tables, u: Tables, now: nat, ticket: string)
    requires Trimmed(c, u, now)
    ensures ticket in u.resets && u.resets[ticket].expires > now ==> ticket in c.resets
    ensures ticket in c.resets ==>
      && ticket in u.resets && c.resets[ticket] == u.resets[ticket]
      && var used := c.resets[ticket].(used := true);
         Trimmed(c.(resets := c.resets[ticket := used]), u.(resets := u.resets[ticket := used]), now)
  {
  }

  lemma ResetAlike(c: Tables, u: Tables, now: nat, ticket: string, password: StoredPassword)
    requires Trimmed(c, u, now)
    ensures Alike(SubmitReset(c, now, ticket, password), SubmitReset(u, now, ticket, password), now)
  {
    hide Trimmed, RevokePasswordSessions;
    UseReset(c, u, now, ticket);
    if ticket in c.resets {
      var used := c.resets[ticket].(used := true);
      PasswordAlike(c.(resets := c.resets[ticket := used]), u.(resets := u.resets[ticket := used]), now,
                    c.resets[ticket].account, password);
    }
  }

  lemma ChangeAlike(c: Tables, u: Tables, now: nat, id: string, current: string, password: StoredPassword)
    requires Trimmed(c, u, now)
    ensures Alike(SubmitPassword(c, now, id, current, password), SubmitPassword(u, now, id, current, password), now)
  {
    hide Trimmed, RevokePasswordSessions;
    SameRest(c, u, now);
    PasswordAlike(c, u, now, id, password);
  }

  // ---------------------------------------------------------------- clients, codes and tokens

  lemma ClientAlike(c: Tables, u: Tables, now: nat, id: string, project: string, secretHash: string,
                    redirects: seq<string>)
    requires Trimmed(c, u, now)
    ensures Alike(SubmitClient(c, id, project, secretHash, redirects),
                  SubmitClient(u, id, project, secretHash, redirects), now)
  {
    hide Trimmed;
    SameRest(c, u, now);
    if SubmitClient(u, id, project, secretHash, redirects).Ok? {
      RestAlike(c, u, SubmitClient(c, id, project, secretHash, redirects).value,
                SubmitClient(u, id, project, secretHash, redirects).value, now);
    }
  }

  lemma StoreCode(c: Tables, u: Tables, now: nat, hash: string, code: Code)
    requires Trimmed(c, u, now) && (hash in u.codes ==> hash in c.codes)
    ensures Trimmed(c.(codes := c.codes[hash := code]), u.(codes := u.codes[hash := code]), now)
  {
  }

  lemma AuthorizeAlike(c: Tables, u: Tables, now: nat, input: AuthorizeInput, code: string)
    requires Trimmed(c, u, now) && code !in u.codes
    ensures Alike(Authorize(c, now, input, code), Authorize(u, now, input, code), now)
  {
    hide Trimmed;
    SameRest(c, u, now);
    assert code !in c.codes by { SameCodes(c, u, now, code); }
    if Authorize(u, now, input, code).Ok? {
      StoreCode(c, u, now, code, Authorize(u, now, input, code).value.codes[code]);
    }
  }

  lemma SameCodes(c: Tables, u: Tables, now: nat, code: string)
    requires Trimmed(c, u, now)
    ensures code in c.codes ==> code in u.codes && c.codes[code] == u.codes[code]
    ensures code in u.codes && u.codes[code].expires > now ==> code in c.codes
  {
  }

  predicate SameConsumption(c: Result<(Tables, Code)>, u: Result<(Tables, Code)>, now: nat) {
    if c.Err? then c == u else u.Ok? && c.value.1 == u.value.1 && Trimmed(c.value.0, u.value.0, now)
  }

  lemma ConsumeAlike(c: Tables, u: Tables, now: nat, code: string, client: string, redirect: string, challenge: string)
    requires Trimmed(c, u, now)
    ensures SameConsumption(ConsumeAuthorizationCode(c, now, code, client, redirect, challenge),
                            ConsumeAuthorizationCode(u, now, code, client, redirect, challenge), now)
  {
    hide Trimmed;
    SameCodes(c, u, now, code);
    if code in c.codes { StoreCode(c, u, now, code, c.codes[code].(used := true)); }
  }

  lemma StoreToken(c: Tables, u: Tables, now: nat, hash: string, t: RefreshToken)
    requires Trimmed(c, u, now) && (hash in u.tokens ==> hash in c.tokens)
    requires forall k :: k in u.tokens && k !in c.tokens ==> u.tokens[k].family != t.family
    ensures Trimmed(c.(tokens := c.tokens[hash := t]), u.(tokens := u.tokens[hash := t]), now)
  {
  }

  predicate SameGrants(c: (Tables, Result<Grant>), u: (Tables, Result<Grant>), now: nat) {
    c.1 == u.1 && Trimmed(c.0, u.0, now)
  }

  lemma SameTokens(c: Tables, u: Tables, now: nat, hash: string)
    requires Trimmed(c, u, now)
    ensures hash in c.tokens ==> hash in u.tokens && c.tokens[hash] == u.tokens[hash]
    ensures hash in u.tokens && hash !in c.tokens ==> u.tokens[hash].familyExpires + DAY < now
    ensures hash in c.tokens ==>
      forall k :: k in u.tokens && k !in c.tokens ==> u.tokens[k].family != c.tokens[hash].family
  {
  }

  lemma IssueAlike(c: Tables, u: Tables, now: nat, hash: string, family: string, account: string, client: string,
                   project: string, scopes: seq<string>)
    requires Trimmed(c, u, now) && hash !in u.tokens && forall k :: k in u.tokens ==> u.tokens[k].family != family
    ensures Alike(CreateRefresh(c, now, hash, family, account, client, project, scopes),
                  CreateRefresh(u, now, hash, family, account, client, project, scopes), now)
  {
    hide Trimmed;
    SameRest(c, u, now);
    SameTokens(c, u, now, hash);
    StoreToken(c, u, now, hash,
               RefreshToken(family, account, client, project, scopes, now + 7 * DAY, now + 7 * DAY, false, false));
  }

  lemma ExchangeAlike(c: Tables, u: Tables, now: nat, client: string, code: string, redirect: string, challenge: string,
                      refresh: string, family: string, signed: bool)
    requires Trimmed(c, u, now) && refresh !in u.tokens && forall k :: k in u.tokens ==> u.tokens[k].family != family
    ensures SameGrants(Exchange(c, now, client, code, redirect, challenge, refresh, family, signed),
                       Exchange(u, now, client, code, redirect, challenge, refresh, family, signed), now)
  {
    hide Trimmed, CreateRefresh, ConsumeAuthorizationCode;
    SameRest(c, u, now);
    ConsumeAlike(c, u, now, code, client, redirect, challenge);
    var rc := ConsumeAuthorizationCode(c, now, code, client, redirect, challenge);
    var ru := ConsumeAuthorizationCode(u, now, code, client, redirect, challenge);
    if rc.Ok? && client in c.clients {
      SameRest(rc.value.0, ru.value.0, now);
      ConsumeKeepsTokens(u, now, code, client, redirect, challenge);
      IssueAlike(rc.value.0, ru.value.0, now, refresh, family, rc.value.1.account, client, c.clients[client].project,
                 rc.value.1.scopes);
    }
  }

  lemma ConsumeKeepsTokens(u: Tables, now: nat, code: string, client: string, redirect: string, challenge: string)
    requires ConsumeAuthorizationCode(u, now, code, client, redirect, challenge).Ok?
    ensures ConsumeAuthorizationCode(u, now, code, client, redirect, challenge).value.0.tokens == u.tokens
  {
  }

  /** The token of an expired family is unknown to the cleaned database; the full one refuses it too. */
  predicate SameRefresh(c: (Tables, Result<Grant>), u: (Tables, Result<Grant>), now: nat) {
    && (c.1 == u.1 || (c.1.Err? && u.1.Err?))
    && Trimmed(c.0, u.0, now)
  }

  lemma FamilyAlike(c: Tables, u: Tables, now: nat, family: string)
    requires Trimmed(c, u, now)
    ensures Trimmed(c.(tokens := RevokeFamily(c.tokens, family)), u.(tokens := RevokeFamily(u.tokens, family)), now)
  {
  }

  lemma LostFamily(c: Tables, u: Tables, now: nat, hash: string)
    requires Trimmed(c, u, now) && hash in u.tokens && hash !in c.tokens
    ensures Trimmed(c, u.(tokens := RevokeFamily(u.tokens, u.tokens[hash].family)), now)
  {
  }

  predicate SameRotation(c: (Tables, Result<RefreshGrant>), u: (Tables, Result<RefreshGrant>), now: nat) {
    && (c.1 == u.1 || (c.1.Err? && u.1.Err?))
    && Trimmed(c.0, u.0, now)
  }

  lemma RotateAlike(c: Tables, u: Tables, now: nat, hash: string, next: string, client: string, project: string,
                    hostNow: nat)
    requires Trimmed(c, u, now) && next !in u.tokens && hostNow + DAY >= now
    ensures SameRotation(RotateRefresh(c, hash, next, client, project, hostNow),
                         RotateRefresh(u, hash, next, client, project, hostNow), now)
  {
    hide Trimmed, RevokeFamily;
    SameTokens(c, u, now, hash);
    SameTokens(c, u, now, next);
    if hash in u.tokens && hash !in c.tokens {
      LostFamily(c, u, now, hash);
    } else if hash in c.tokens {
      var t := c.tokens[hash];
      FamilyAlike(c, u, now, t.family);
      StoreToken(c, u, now, hash, t.(used := true));
      var c1 := c.(tokens := c.tokens[hash := t.(used := true)]);
      var u1 := u.(tokens := u.tokens[hash := t.(used := true)]);
      StoreToken(c1, u1, now, next, RefreshToken(t.family, t.account, client, project, t.scopes, t.familyExpires,
                                                 t.familyExpires, false, false));
    }
  }

  lemma RefreshAlike(c: Tables, u: Tables, now: nat, client: string, token: string, next: string, hostNow: nat,
                     signed: bool)
    requires Trimmed(c, u, now) && next !in u.tokens && hostNow + DAY >= now
    ensures SameRefresh(Refresh(c, client, token, next, hostNow, signed),
                        Refresh(u, client, token, next, hostNow, signed), now)
  {
    hide Trimmed, RotateRefresh;
    SameRest(c, u, now);
    if client in c.clients {
      var project := c.clients[client].project;
      RotateAlike(c, u, now, token, next, client, project, hostNow);
      SameRest(RotateRefresh(c, token, next, client, project, hostNow).0,
               RotateRefresh(u, token, next, client, project, hostNow).0, now);
    }
  }

  // ---------------------------------------------------------------- counters, keys and the outbox

  lemma AttemptAlike(c: Tables, u: Tables, now: nat, key: string, until: nat)
    requires Trimmed(c, u, now)
    ensures var rc, ru := IncrementAttempt(c.limits, now, key, until), IncrementAttempt(u.limits, now, key, until);
            if rc.Err? then rc == ru
            else ru.Ok? && rc.value.1 == ru.value.1
                 && Trimmed(c.(limits := rc.value.0), u.(limits := ru.value.0), now)
  {
  }

  lemma RotateKeyAlike(c: Tables, u: Tables, now: nat, kid: string)
    requires Trimmed(c, u, now) && kid !in u.keys
    ensures kid !in c.keys
    ensures Trimmed(c.(keys := RotateSigningKey(c.keys, now, kid).value),
                    u.(keys := RotateSigningKey(u.keys, now, kid).value), now)
  {
    KeysRotated(c.keys, u.keys, now, kid);
  }

  lemma KeysRotated(c: map<string, SigningKey>, u: map<string, SigningKey>, now: nat, kid: string)
    requires KeysTrimmed(c, u, now) && kid !in u
    ensures kid !in c
    ensures KeysTrimmed(RotateSigningKey(c, now, kid).value, RotateSigningKey(u, now, kid).value, now)
  {
  }

  lemma PublishedAlike(c: Tables, u: Tables, now: nat)
    requires Trimmed(c, u, now)
    ensures PublishedKeys(c.keys, now) == PublishedKeys(u.keys, now)
  {
  }

  lemma PickAlike(c: Tables, u: Tables, now: nat, row: nat)
    requires Trimmed(c, u, now)
    ensures Pickable(c.outbox, row) <==> Pickable(u.outbox, row)
  {
    assert Unpublished(c.outbox) == Unpublished(u.outbox);
  }

  lemma SendAlike(c: Tables, u: Tables, now: nat, row: nat, acknowledged: bool)
    requires Trimmed(c, u, now) && row in c.outbox && row in u.outbox
    ensures Trimmed(c.(outbox := RecordSend(c.outbox, now, row, acknowledged)),
                    u.(outbox := RecordSend(u.outbox, now, row, acknowledged)), now)
  {
  }

  lemma LastIdAlike(c: Tables, u: Tables, now: nat, id: nat)
    requires Trimmed(c, u, now)
    ensures Trimmed(c.(lastId := id), u.(lastId := id), now)
  {
  }

  /** A clean-up statement of the cleaned database alone. */
  lemma CleanTrims(c: Tables, u: Tables, now: nat, statement: Statement)
    requires Trimmed(c, u, now)
    requires forall k, l :: k in u.tokens && l in u.tokens && u.tokens[k].family == u.tokens[l].family ==>
               u.tokens[k].familyExpires == u.tokens[l].familyExpires
    ensures Trimmed(Clean(c, now, statement), u, now)
  {
    match statement
    case Tokens => TokensTrim(c.tokens, u.tokens, Clean(c, now, statement).tokens, now);
    case Verifications | Resets => TicketsTrim(c, u, now, statement);
    case Codes | Sessions => CodesTrim(c, u, now, statement);
    case _ => CountersTrim(c, u, now, statement);
  }

  lemma TicketsTrim(c: Tables, u: Tables, now: nat, statement: Statement)
    requires Trimmed(c, u, now) && (statement.Verifications? || statement.Resets?)
    ensures Trimmed(Clean(c, now, statement), u, now)
  {
    hide CodesTrimmed, SessionsTrimmed, TokensTrimmed, LimitsTrimmed, KeysTrimmed, OutboxTrimmed;
  }

  lemma CodesTrim(c: Tables, u: Tables, now: nat, statement: Statement)
    requires Trimmed(c, u, now) && (statement.Codes? || statement.Sessions?)
    ensures Trimmed(Clean(c, now, statement), u, now)
  {
    hide TicketsTrimmed, TokensTrimmed, LimitsTrimmed, KeysTrimmed, OutboxTrimmed;
  }

  lemma CountersTrim(c: Tables, u: Tables, now: nat, statement: Statement)
    requires Trimmed(c, u, now) && (statement.Limits? || statement.Keys? || statement.Outbox?)
    ensures Trimmed(Clean(c, now, statement), u, now)
  {
    hide TicketsTrimmed, CodesTrimmed, SessionsTrimmed, TokensTrimmed;
  }

  lemma TokensTrim(c: map<string, RefreshToken>, u: map<string, RefreshToken>, rest: map<string, RefreshToken>,
                   now: nat)
    requires TokensTrimmed(c, u, now)
    requires rest == map h | h in c && c[h].familyExpires + DAY >= now :: c[h]
    requires forall k, l :: k in u && l in u && u[k].family == u[l].family ==> u[k].familyExpires == u[l].familyExpires
    ensures TokensTrimmed(rest, u, now)
  {
  }

  // ---------------------------------------------------------------- one request

  /** The same answer; only a refused refresh may be refused for another reason. */
  predicate SameReply(r: Request, c: Reply, u: Reply) {
    c == u || (r.OAuth? && r.oauth.DoRefresh? && c.Refused? && u.Refused?)
  }

  predicate SameAnswer(r: Request, c: (Tables, Reply), u: (Tables, Reply), now: nat) {
    SameReply(r, c.1, u.1) && Trimmed(c.0, u.0, now)
  }

  /** The clock of a Go process is at most a day behind the clock of the database. */
  predicate InStep(now: nat, r: Request) {
    r.OAuth? && r.oauth.DoRefresh? ==> r.oauth.hostNow + DAY >= now
  }

  /** The ids of verifications and signing keys are random too. */
  predicate NamesDrawn(db: Tables, drawn: set<string>) {
    db.verifications.Keys <= drawn && db.keys.Keys <= drawn
  }

  predicate Fresh(u: Tables, r: Request) {
    && Drawn(r) !! u.verifications.Keys && Drawn(r) !! u.resets.Keys && Drawn(r) !! u.sessions.Keys
    && Drawn(r) !! u.codes.Keys && Drawn(r) !! u.tokens.Keys && Drawn(r) !! u.keys.Keys
    && forall k :: k in u.tokens ==> u.tokens[k].family !in Drawn(r)
  }

  lemma DirectoryAlike(c: Tables, u: Tables, now: nat, r: DirectoryRequest)
    requires Trimmed(c, u, now) && Fresh(u, Directory(r))
    ensures SameAnswer(Directory(r), HandleDirectory(c, now, r), HandleDirectory(u, now, r), now)
  {
    hide Trimmed, Settle, Register, ResendVerification, VerifyEmail, SubmitProfile, UpdateLegacyProfile,
         SubmitAccessRequest, ImportUsers, Alike;
    match r
    case DoRegister(id, form, password, ticket) =>
      assert ticket in Drawn(Directory(r));
      RegisterAlike(c, u, now, id, form, password, ticket);
      SettleAlike(c, u, Register(c, now, id, form, password, ticket), Register(u, now, id, form, password, ticket),
                  now);
    case DoResendVerification(email, ticket) =>
      assert ticket in Drawn(Directory(r));
      ResendAlike(c, u, now, email, ticket);
      SettleAlike(c, u, ResendVerification(c, now, email, ticket), ResendVerification(u, now, email, ticket), now);
    case DoVerifyEmail(ticket) =>
      VerifyAlike(c, u, now, ticket);
      SettleAlike(c, u, VerifyEmail(c, now, ticket), VerifyEmail(u, now, ticket), now);
    case DoUpdateProfile(account, login, given, family, avatar) =>
      SubmitProfileAlike(c, u, now, account, login, given, family, avatar);
      SettleAlike(c, u, SubmitProfile(c, now, account, login, given, family, avatar),
                  SubmitProfile(u, now, account, login, given, family, avatar), now);
    case DoUpdateLegacyProfile(project, account, name, avatar) =>
      LegacyProfileAlike(c, u, now, project, account, name, avatar);
      SettleAlike(c, u, UpdateLegacyProfile(c, now, project, account, name, avatar),
                  UpdateLegacyProfile(u, now, project, account, name, avatar), now);
    case DoRequestAccess(requestId, account, project) =>
      RequestAlike(c, u, now, requestId, account, project);
      SettleAlike(c, u, SubmitAccessRequest(c, requestId, account, project),
                  SubmitAccessRequest(u, requestId, account, project), now);
    case DoImport(users, ids) =>
      ImportAlike(c, u, now, users, ids);
      SettleAlike(c, u, ImportUsers(c, now, users, ids), ImportUsers(u, now, users, ids), now);
  }

  lemma SubmitProfileAlike(c: Tables, u: Tables, now: nat, id: string, rawLogin: string, rawGiven: string,
                           rawFamily: string, rawAvatar: string)
    requires Trimmed(c, u, now)
    ensures Alike(SubmitProfile(c, now, id, rawLogin, rawGiven, rawFamily, rawAvatar),
                  SubmitProfile(u, now, id, rawLogin, rawGiven, rawFamily, rawAvatar), now)
  {
    hide Trimmed, UpdateProfile, Lower, Trim, LoginShape;
    var given := Trim(rawGiven);
    var family := Trim(rawFamily);
    ProfileAlike(c, u, now, id, Lower(Trim(rawLogin)), given, family, Trim(given + " " + family), Trim(rawAvatar));
  }

  lemma LoginRequestAlike(c: Tables, u: Tables, now: nat, r: LoginRequest)
    requires Trimmed(c, u, now) && Fresh(u, Login(r))
    ensures SameAnswer(Login(r), HandleLogin(c, now, r), HandleLogin(u, now, r), now)
  {
    hide Trimmed, Settle, WithLogin, UpgradePasswordHash, SessionAccount, ForgotPassword, SubmitReset, SubmitPassword,
         Alike;
    match r
    case DoLogin(identifier, attempt, session, _) =>
      assert session in Drawn(Login(r));
      LoginAlike(c, u, now, Lower(Trim(identifier)), attempt, session);
    case FinishUpgrade(g) => UpgradeAlike(c, u, now, g.account, g.previous, g.upgraded);
    case CheckSession(session) => SessionAlike(c, u, now, session);
    case Logout(session) => LogoutAlike(c, u, now, session);
    case DoForgotPassword(email, ticket) =>
      assert ticket in Drawn(Login(r));
      ForgotAlike(c, u, now, email, ticket);
      SettleAlike(c, u, ForgotPassword(c, now, email, ticket), ForgotPassword(u, now, email, ticket), now);
    case DoResetPassword(ticket, password) =>
      ResetAlike(c, u, now, ticket, password);
      SettleAlike(c, u, SubmitReset(c, now, ticket, password), SubmitReset(u, now, ticket, password), now);
    case DoChangePassword(account, attempt, password) =>
      ChangeAlike(c, u, now, account, attempt, password);
      SettleAlike(c, u, SubmitPassword(c, now, account, attempt, password),
                  SubmitPassword(u, now, account, attempt, password), now);
  }

  lemma AdminAlike(c: Tables, u: Tables, now: nat, r: AdminRequest)
    requires Trimmed(c, u, now)
    ensures SameAnswer(Admin(r), HandleAdmin(c, now, r), HandleAdmin(u, now, r), now)
  {
    hide Trimmed, Settle, Alike, ActivateAccount, Disable, GrantAccess, RevokeAccess, ApproveRequest, SetProjectRoles,
         GrantProjectAdmin, GrantGlobalAdmin, Lower, Trim;
    match r
    case DoActivate(account) =>
      ActivateAlike(c, u, now, account);
      SettleAlike(c, u, ActivateAccount(c, account), ActivateAccount(u, account), now);
    case DoDisable(actor, account) =>
      SubmitDisableAlike(c, u, now, actor, account);
      SettleAlike(c, u, Disable(c, now, actor, account), Disable(u, now, actor, account), now);
    case DoGrant(account, project, roles) =>
      GrantAlike(c, u, now, account, project, roles);
      SettleAlike(c, u, GrantAccess(c, now, account, project, roles), GrantAccess(u, now, account, project, roles),
                  now);
    case DoRevoke(account, project) =>
      RevokeAlike(c, u, now, account, project);
      SettleAlike(c, u, RevokeAccess(c, now, account, project), RevokeAccess(u, now, account, project), now);
    case DoApprove(project, requestId, roles) =>
      ApproveAlike(c, u, now, project, requestId, roles);
      SettleAlike(c, u, ApproveRequest(c, now, project, requestId, roles),
                  ApproveRequest(u, now, project, requestId, roles), now);
    case DoSetRoles(project, account, roles) =>
      SetRolesAlike(c, u, now, project, account, roles);
      SettleAlike(c, u, SetProjectRoles(c, now, project, account, roles),
                  SetProjectRoles(u, now, project, account, roles), now);
    case DoGrantProjectAdmin(project, email) =>
      ProjectAdminAlike(c, u, now, project, email);
      SettleAlike(c, u, GrantProjectAdmin(c, now, project, email), GrantProjectAdmin(u, now, project, email), now);
    case DoGrantGlobalAdmin(email) =>
      GlobalAdminAlike(c, u, now, Lower(Trim(email)));
      SettleAlike(c, u, GrantGlobalAdmin(c, Lower(Trim(email))), GrantGlobalAdmin(u, Lower(Trim(email))), now);
  }

  lemma SubmitDisableAlike(c: Tables, u: Tables, now: nat, actor: string, id: string)
    requires Trimmed(c, u, now)
    ensures Alike(Disable(c, now, actor, id), Disable(u, now, actor, id), now)
  {
    hide Trimmed, DisableAccount;
    DisableAlike(c, u, now, id);
  }

  lemma ProjectAdminAlike(c: Tables, u: Tables, now: nat, project: string, email: string)
    requires Trimmed(c, u, now)
    ensures Alike(GrantProjectAdmin(c, now, project, email), GrantProjectAdmin(u, now, project, email), now)
  {
    hide Trimmed, SeatAdmin, FirstRow, VerifiedActive, Lower, Trim;
    SameRest(c, u, now);
    var row := FirstRow(VerifiedActive(u.accounts, Lower(Trim(email))));
    if row.Ok? { SeatAdminAlike(c, u, now, project, row.value); }
  }

  lemma OAuthAlike(c: Tables, u: Tables, now: nat, r: OAuthRequest)
    requires Trimmed(c, u, now) && Fresh(u, OAuth(r)) && InStep(now, OAuth(r))
    ensures SameAnswer(OAuth(r), HandleOAuth(c, now, r), HandleOAuth(u, now, r), now)
  {
    hide Trimmed, Settle, Alike, SubmitClient, Authorize, Exchange, Refresh;
    match r
    case DoRegisterClient(client, project, secretHash, redirects) =>
      ClientAlike(c, u, now, client, project, secretHash, redirects);
      SettleAlike(c, u, SubmitClient(c, client, project, secretHash, redirects),
                  SubmitClient(u, client, project, secretHash, redirects), now);
    case DoAuthorize(input, code) =>
      assert code in Drawn(OAuth(r));
      AuthorizeAlike(c, u, now, input, code);
      SettleAlike(c, u, Authorize(c, now, input, code), Authorize(u, now, input, code), now);
    case DoExchange(client, code, redirect, challenge, refresh, family, signed) =>
      assert refresh in Drawn(OAuth(r)) && family in Drawn(OAuth(r));
      ExchangeAlike(c, u, now, client, code, redirect, challenge, refresh, family, signed);
    case DoRefresh(client, token, next, hostNow, signed) =>
      assert next in Drawn(OAuth(r));
      RefreshAlike(c, u, now, client, token, next, hostNow, signed);
  }

  lemma UpkeepAlike(c: Tables, u: Tables, now: nat, r: UpkeepRequest)
    requires Trimmed(c, u, now) && Fresh(u, Upkeep(r)) && !r.DoClean?
    ensures SameAnswer(Upkeep(r), HandleUpkeep(c, now, r), HandleUpkeep(u, now, r), now)
  {
    hide Trimmed, IncrementAttempt, PublishedKeys, Pickable, RecordSend, RetireActive;
    match r
    case Wait(_) =>
    case Burn(count) =>
      SameRest(c, u, now);
      LastIdAlike(c, u, now, u.lastId + count);
    case DoAttempt(key, until) => AttemptAlike(c, u, now, key, until);
    case DoRotateKey(kid) =>
      assert kid in Drawn(Upkeep(r));
      RotateKeyAlike(c, u, now, kid);
    case FindKey(kid) => PublishedAlike(c, u, now);
    case ListKeys => PublishedAlike(c, u, now);
    case DoPublish(row, acknowledged) =>
      PickAlike(c, u, now, row);
      if Pickable(c.outbox, row) {
        assert row in c.outbox && row in u.outbox by { PickedIsStored(c.outbox, row); PickedIsStored(u.outbox, row); }
        SendAlike(c, u, now, row, acknowledged);
      }
  }

  lemma PickedIsStored(outbox: map<nat, OutboxRow>, row: nat)
    requires Pickable(outbox, row)
    ensures row in outbox
  {
  }

  lemma HandleAlike(c: Tables, u: Tables, now: nat, r: Request)
    requires Trimmed(c, u, now) && Fresh(u, r) && InStep(now, r) && !IsClean(r)
    ensures SameAnswer(r, Handle(c, now, r), Handle(u, now, r), now)
  {
    hide Boot, Trimmed, Fresh, SameAnswer, HandleDirectory, HandleLogin, HandleAdmin, HandleOAuth, HandleUpkeep;
    match r
    case Directory(d) => DirectoryAlike(c, u, now, d);
    case Login(l) => LoginRequestAlike(c, u, now, l);
    case Admin(a) => AdminAlike(c, u, now, a);
    case OAuth(o) => OAuthAlike(c, u, now, o);
    case Upkeep(k) => UpkeepAlike(c, u, now, k);
    case Restart(s) => BootAlike(c, u, now, s);
  }

  lemma BootAlike(c: Tables, u: Tables, now: nat, s: Setup)
    requires Trimmed(c, u, now)
    ensures SameAnswer(Restart(s), Boot(c, s), Boot(u, s), now)
  {
    hide Trimmed;
    SameRest(c, u, now);
    BootReads(c, u, s);
    BootElsewhere(c, s);
    BootElsewhere(u, s);
    RestAlike(c, u, Boot(c, s).0, Boot(u, s).0, now);
  }

  predicate IsClean(r: Request) {
    r.Upkeep? && r.upkeep.DoClean?
  }

  // ---------------------------------------------------------------- whole runs

  function Strip(rs: seq<Request>): seq<Request> {
    if rs == [] then []
    else if IsClean(rs[|rs| - 1]) then Strip(rs[..|rs| - 1])
    else Strip(rs[..|rs| - 1]) + [rs[|rs| - 1]]
  }

  /** The answers of a run, those of the clean-up statements left out. */
  function Answers(w: World, rs: seq<Request>): seq<Reply> {
    if rs == [] then []
    else
      var last := rs[|rs| - 1];
      var before := Run(w, rs[..|rs| - 1]);
      Answers(w, rs[..|rs| - 1]) + if IsClean(last) then [] else [Handle(before.db, before.clock, last).1]
  }

  predicate RunInStep(w: World, rs: seq<Request>) {
    rs == [] || (RunInStep(w, rs[..|rs| - 1]) && InStep(Run(w, rs[..|rs| - 1]).clock, rs[|rs| - 1]))
  }

  predicate SameAnswers(rs: seq<Request>, c: seq<Reply>, u: seq<Reply>) {
    |rs| == |c| == |u| && forall i :: 0 <= i < |rs| ==> SameReply(rs[i], c[i], u[i])
  }

  predicate Simulates(c: World, u: World) {
    && c.clock == u.clock && c.drawn == u.drawn && c.ledger.upgrades == u.ledger.upgrades
    && Trimmed(c.db, u.db, u.clock)
  }

  predicate StartsClean(u: World) {
    CredentialsOk(u) && NamesDrawn(u.db, u.drawn)
  }

  lemma FreshNames(u: World, r: Request)
    requires StartsClean(u) && Admissible(u, r)
    ensures Fresh(u.db, r)
  {
    forall k | k in u.db.tokens ensures u.db.tokens[k].family !in Drawn(r) { assert TokenOk(u, u.db.tokens[k]); }
  }

  lemma FamiliesExpireTogether(u: World)
    requires CredentialsOk(u)
    ensures forall k, l :: k in u.db.tokens && l in u.db.tokens && u.db.tokens[k].family == u.db.tokens[l].family ==>
              u.db.tokens[k].familyExpires == u.db.tokens[l].familyExpires
  {
    forall k, l | k in u.db.tokens && l in u.db.tokens && u.db.tokens[k].family == u.db.tokens[l].family
      ensures u.db.tokens[k].familyExpires == u.db.tokens[l].familyExpires
    {
      assert TokenOk(u, u.db.tokens[k]) && TokenOk(u, u.db.tokens[l]);
    }
  }

  // ---------------------------------------------------------------- names stay random

  lemma SettleNames(a: Tables, result: Result<Tables>, drawn: set<string>)
    requires result.Ok? ==> result.value.verifications.Keys <= a.verifications.Keys + drawn
    ensures Settle(a, result).0.verifications.Keys <= a.verifications.Keys + drawn
  {
  }

  lemma TicketNames(a: Tables, now: nat, account: string, hash: string)
    requires AddEmailVerification(a, now, account, hash).Ok?
    ensures AddEmailVerification(a, now, account, hash).value.verifications.Keys == a.verifications.Keys + {hash}
  {
  }

  lemma PendingNames(a: Tables, now: nat, id: string, profile: Profile, password: StoredPassword, hash: string)
    requires CreatePendingAccount(a, now, id, profile, password, hash).Ok?
    ensures CreatePendingAccount(a, now, id, profile, password, hash).value.verifications.Keys
            == a.verifications.Keys + {hash}
  {
    hide AddEmailVerification, Insertable;
    var account := Account(profile, password, PendingApproval, false, false, None);
    TicketNames(a.(accounts := a.accounts[id := account]), now, id, hash);
  }

  lemma RegisterNames(a: Tables, now: nat, id: string, form: Registration, password: StoredPassword, ticket: string)
    requires Register(a, now, id, form, password, ticket).Ok?
    ensures Register(a, now, id, form, password, ticket).value.verifications.Keys == a.verifications.Keys + {ticket}
  {
    hide CreatePendingAccount, Lower, Trim, LoginShape;
    forall profile | CreatePendingAccount(a, now, id, profile, password, ticket).Ok?
      ensures CreatePendingAccount(a, now, id, profile, password, ticket).value.verifications.Keys
              == a.verifications.Keys + {ticket}
    {
      PendingNames(a, now, id, profile, password, ticket);
    }
  }

  lemma DirectoryNames(a: Tables, now: nat, r: DirectoryRequest)
    ensures HandleDirectory(a, now, r).0.verifications.Keys <= a.verifications.Keys + Drawn(Directory(r))
  {
    hide Settle, Register, AddEmailVerification, FirstRow, Unconfirmed, Lower, Trim, LoginShape, QueueAll, QueueEvent,
         ProfileProjects, LoginFree, RequestAccess, ImportAll, Readable, MarkVerified;
    var drawn := Drawn(Directory(r));
    match r
    case DoRegister(id, form, password, ticket) =>
      if Register(a, now, id, form, password, ticket).Ok? { RegisterNames(a, now, id, form, password, ticket); }
      SettleNames(a, Register(a, now, id, form, password, ticket), drawn);
    case DoResendVerification(email, ticket) =>
      var row := FirstRow(Unconfirmed(a.accounts, Lower(Trim(email))));
      if ResendVerification(a, now, email, ticket).Ok? { TicketNames(a, now, row.value, ticket); }
      SettleNames(a, ResendVerification(a, now, email, ticket), drawn);
    case DoVerifyEmail(ticket) => SettleNames(a, VerifyEmail(a, now, ticket), drawn);
    case DoUpdateProfile(account, login, given, family, avatar) =>
      SettleNames(a, SubmitProfile(a, now, account, login, given, family, avatar), drawn);
    case DoUpdateLegacyProfile(project, account, name, avatar) =>
      SettleNames(a, UpdateLegacyProfile(a, now, project, account, name, avatar), drawn);
    case DoRequestAccess(requestId, account, project) =>
      SettleNames(a, SubmitAccessRequest(a, requestId, account, project), drawn);
    case DoImport(users, ids) => SettleNames(a, ImportUsers(a, now, users, ids), drawn);
  }

  lemma NamesKept(a: Tables, now: nat, r: Request, drawn: set<string>)
    requires NamesDrawn(a, drawn)
    ensures NamesDrawn(Handle(a, now, r).0, drawn + Drawn(r))
  {
    hide Boot, HandleDirectory, Shrinks, Clean, OnlyDirectory, OnlyRevokes;
    match r
    case Directory(d) =>
      DirectoryNames(a, now, d);
      DirectoryOnly(a, now, d);
      DirectoryKeys(a, HandleDirectory(a, now, d).0);
    case Login(l) => LoginKeeps(a, now, l);
    case Admin(m) => AdminKeeps(a, now, m);
    case OAuth(o) => OAuthKeeps(a, now, o);
    case Upkeep(k) => UpkeepNames(a, now, k);
    case Restart(s) => BootElsewhere(a, s);
  }

  predicate NamesSame(a: Tables, b: Tables) {
    b.verifications == a.verifications && b.keys == a.keys
  }

  lemma DirectoryKeys(a: Tables, b: Tables)
    requires OnlyDirectory(a, b)
    ensures b.keys == a.keys
  {
  }

  lemma LoginKeeps(a: Tables, now: nat, r: LoginRequest)
    ensures NamesSame(a, HandleLogin(a, now, r).0)
  {
    hide WithLogin, ForgotPassword, SessionAccount, RevokePasswordSessions;
    if Opens(r) { OpensOne(a, now, r); }
  }

  lemma AdminKeeps(a: Tables, now: nat, r: AdminRequest)
    ensures NamesSame(a, HandleAdmin(a, now, r).0)
  {
    hide Settle, OnlyDirectory, OnlySeats, OnlyRevokes, NamesSame, DisableAccount, GrantAccess, RevokeAccess,
         ApproveRequest, SetProjectRoles, GrantProjectAdmin, ActivateAccount, GrantGlobalAdmin;
    match r
    case DoActivate(account) =>
      AccountsKeep(a, account, "");
      SettleNamesSame(a, ActivateAccount(a, account));
    case DoDisable(actor, account) =>
      RevokesKeep(a, DisableAccount(a, now, account));
      SettleNamesSame(a, Disable(a, now, actor, account));
    case DoGrant(account, project, roles) =>
      SeatsKeep(a, GrantAccess(a, now, account, project, roles));
      SettleNamesSame(a, GrantAccess(a, now, account, project, roles));
    case DoRevoke(account, project) =>
      RevokesKeep(a, RevokeAccess(a, now, account, project));
      SettleNamesSame(a, RevokeAccess(a, now, account, project));
    case DoApprove(project, requestId, roles) =>
      SeatsKeep(a, ApproveRequest(a, now, project, requestId, roles));
      SettleNamesSame(a, ApproveRequest(a, now, project, requestId, roles));
    case DoSetRoles(project, account, roles) =>
      SeatsKeep(a, SetProjectRoles(a, now, project, account, roles));
      SettleNamesSame(a, SetProjectRoles(a, now, project, account, roles));
    case DoGrantProjectAdmin(project, email) =>
      SeatsKeep(a, GrantProjectAdmin(a, now, project, email));
      SettleNamesSame(a, GrantProjectAdmin(a, now, project, email));
    case DoGrantGlobalAdmin(email) =>
      AccountsKeep(a, "", Lower(Trim(email)));
      SettleNamesSame(a, GrantGlobalAdmin(a, Lower(Trim(email))));
  }

  lemma AccountsKeep(a: Tables, id: string, email: string)
    ensures ActivateAccount(a, id).Ok? ==> NamesSame(a, ActivateAccount(a, id).value)
    ensures GrantGlobalAdmin(a, email).Ok? ==> NamesSame(a, GrantGlobalAdmin(a, email).value)
  {
    hide FirstRow, VerifiedActive;
  }

  lemma RevokesKeep(a: Tables, r: Result<Tables>)
    requires r.Ok? ==> OnlyRevokes(a, r.value)
    ensures r.Ok? ==> NamesSame(a, r.value)
  {
  }

  lemma SeatsKeep(a: Tables, r: Result<Tables>)
    requires r.Ok? ==> OnlySeats(a, r.value)
    ensures r.Ok? ==> NamesSame(a, r.value)
  {
  }

  lemma OAuthKeeps(a: Tables, now: nat, r: OAuthRequest)
    ensures NamesSame(a, HandleOAuth(a, now, r).0)
  {
    hide Exchange, Refresh, Authorize, Settle, NamesSame;
    match r
    case DoRegisterClient(client, project, secretHash, redirects) =>
      if SubmitClient(a, client, project, secretHash, redirects).Ok? {
        ClientKeeps(a, client, project, secretHash, redirects);
      }
      SettleNamesSame(a, SubmitClient(a, client, project, secretHash, redirects));
    case DoAuthorize(input, code) =>
      if Authorize(a, now, input, code).Ok? { AuthorizeKeeps(a, now, input, code); }
      SettleNamesSame(a, Authorize(a, now, input, code));
    case DoExchange(client, code, redirect, challenge, refresh, family, signed) =>
      ExchangeKeeps(a, now, client, code, redirect, challenge, refresh, family, signed);
    case DoRefresh(client, token, next, hostNow, signed) => RefreshKeeps(a, client, token, next, hostNow, signed);
  }

  lemma ClientKeeps(a: Tables, id: string, project: string, secretHash: string, redirects: seq<string>)
    requires SubmitClient(a, id, project, secretHash, redirects).Ok?
    ensures NamesSame(a, SubmitClient(a, id, project, secretHash, redirects).value)
  {
  }

  lemma AuthorizeKeeps(a: Tables, now: nat, input: AuthorizeInput, code: string)
    requires Authorize(a, now, input, code).Ok?
    ensures NamesSame(a, Authorize(a, now, input, code).value)
  {
  }

  lemma ExchangeKeeps(a: Tables, now: nat, client: string, code: string, redirect: string, challenge: string,
                      refresh: string, family: string, signed: bool)
    ensures NamesSame(a, Exchange(a, now, client, code, redirect, challenge, refresh, family, signed).0)
  {
    hide Exchange;
    ExchangeCases(a, now, client, code, redirect, challenge, refresh, family, signed);
  }

  lemma RefreshKeeps(a: Tables, client: string, token: string, next: string, hostNow: nat, signed: bool)
    ensures NamesSame(a, Refresh(a, client, token, next, hostNow, signed).0)
  {
    hide Refresh;
    RotationCases(a, client, token, next, hostNow, signed);
  }

  lemma SettleNamesSame(a: Tables, result: Result<Tables>)
    requires result.Ok? ==> NamesSame(a, result.value)
    ensures NamesSame(a, Settle(a, result).0)
  {
  }

  lemma UpkeepNames(a: Tables, now: nat, r: UpkeepRequest)
    ensures HandleUpkeep(a, now, r).0.verifications.Keys <= a.verifications.Keys
    ensures HandleUpkeep(a, now, r).0.keys.Keys <= a.keys.Keys + Drawn(Upkeep(r))
  {
    hide HandleUpkeep, Clean;
    if r.DoClean? {
      CleanNames(a, now, r.statement);
      CleanRequest(a, now, r);
    } else {
      UpkeepElsewhere(a, now, r);
      KeyNames(a, now, r);
    }
  }

  lemma KeyNames(a: Tables, now: nat, r: UpkeepRequest)
    requires !r.DoClean?
    ensures HandleUpkeep(a, now, r).0.keys.Keys <= a.keys.Keys + Drawn(Upkeep(r))
  {
    hide IncrementAttempt, Pickable, RecordSend, PublishedKeys;
  }

  lemma CleanNames(a: Tables, now: nat, statement: Statement)
    ensures Clean(a, now, statement).verifications.Keys <= a.verifications.Keys
    ensures Clean(a, now, statement).keys.Keys <= a.keys.Keys
  {
    match statement { case _ => }
  }

  lemma ServeClean(u: World, r: Request)
    requires StartsClean(u) && Admissible(u, r)
    ensures StartsClean(Serve(u, r))
  {
    hide Handle, NamesDrawn, CredentialsOk;
    ServeOk(u, r);
    NamesKept(u.db, u.clock, r, u.drawn);
  }

  // ---------------------------------------------------------------- the simulation

  lemma OnlyLoginsNoteUpgrades(w: World, r: Request, after: Tables, reply: Reply)
    ensures r.Login? || Note(w, r, after, reply).upgrades == w.ledger.upgrades
  {
  }

  lemma UpgradesAlike(c: World, u: World, r: Request)
    requires Simulates(c, u) && SameReply(r, Handle(c.db, c.clock, r).1, Handle(u.db, u.clock, r).1)
    ensures Serve(c, r).ledger.upgrades == Serve(u, r).ledger.upgrades
  {
    hide Handle, Trimmed, Note;
    SameRest(c.db, u.db, u.clock);
    var (ac, rc) := Handle(c.db, c.clock, r);
    var (au, ru) := Handle(u.db, u.clock, r);
    OnlyLoginsNoteUpgrades(c, r, ac, rc);
    OnlyLoginsNoteUpgrades(u, r, au, ru);
    if r.Login? { LoginNotes(c, u, r, ac, au, rc); }
  }

  lemma LoginNotes(c: World, u: World, r: Request, ac: Tables, au: Tables, reply: Reply)
    requires r.Login? && c.db.accounts == u.db.accounts && c.ledger.upgrades == u.ledger.upgrades
    ensures Note(c, r, ac, reply).upgrades == Note(u, r, au, reply).upgrades
  {
  }

  lemma ServeSimulates(c: World, u: World, r: Request)
    requires Simulates(c, u) && StartsClean(u) && Admissible(u, r) && InStep(c.clock, r) && !IsClean(r)
    ensures Simulates(Serve(c, r), Serve(u, r))
    ensures SameReply(r, Handle(c.db, c.clock, r).1, Handle(u.db, u.clock, r).1)
  {
    hide Handle, Trimmed, Fresh, CredentialsOk, Note, SameReply;
    FreshNames(u, r);
    HandleAlike(c.db, u.db, u.clock, r);
    UpgradesAlike(c, u, r);
    LaterTrimmed(Serve(c, r).db, Serve(u, r).db, u.clock, Serve(u, r).clock);
  }

  lemma CleanSimulates(c: World, u: World, r: Request)
    requires Simulates(c, u) && StartsClean(u) && IsClean(r)
    ensures Simulates(Serve(c, r), u)
  {
    hide Trimmed, Clean, CredentialsOk;
    FamiliesExpireTogether(u);
    CleanTrims(c.db, u.db, u.clock, r.upkeep.statement);
    CleanRequest(c.db, c.clock, r.upkeep);
  }

  lemma ServeBoth(c: World, u: World, r: Request)
    requires Simulates(c, u) && StartsClean(u) && Admissible(c, r) && InStep(c.clock, r) && !IsClean(r)
    ensures Admissible(u, r) && Simulates(Serve(c, r), Serve(u, r)) && StartsClean(Serve(u, r))
    ensures SameReply(r, Handle(c.db, c.clock, r).1, Handle(u.db, u.clock, r).1)
  {
    hide Simulates, StartsClean, Admissible, InStep, Serve, Handle, SameReply;
    SameAdmission(c, u, r);
    ServeSimulates(c, u, r);
    ServeClean(u, r);
  }

  lemma OneMore(w: World, rs: seq<Request>, r: Request)
    requires AdmissibleRun(w, rs) && Admissible(Run(w, rs), r) && !IsClean(r)
    ensures AdmissibleRun(w, rs + [r]) && Run(w, rs + [r]) == Serve(Run(w, rs), r)
    ensures Answers(w, rs + [r]) == Answers(w, rs) + [Handle(Run(w, rs).db, Run(w, rs).clock, r).1]
  {
    hide Serve, Handle, Admissible;
    assert (rs + [r])[..|rs|] == rs;
  }

  /** Whatever clean-up statements a run contains, and wherever, the run without them is admissible too,
      gives the same answers, and ends in the same tables up to rows past their clean-up time. */
  lemma {:induction false} CleanUpIsUnobservable(w: World, rs: seq<Request>)
    requires StartsClean(w) && AdmissibleRun(w, rs) && RunInStep(w, rs)
    ensures AdmissibleRun(w, Strip(rs)) && StartsClean(Run(w, Strip(rs)))
    ensures Simulates(Run(w, rs), Run(w, Strip(rs)))
    ensures SameAnswers(Strip(rs), Answers(w, rs), Answers(w, Strip(rs)))
  {
    hide Trimmed, Serve, StartsClean, Handle, InStep, SameReply, Simulates, Admissible;
    if rs == [] {
      SimulatesItself(w);
    } else {
      var r, before := rs[|rs| - 1], rs[..|rs| - 1];
      CleanUpIsUnobservable(w, before);
      var c, u := Run(w, before), Run(w, Strip(before));
      if IsClean(r) {
        CleanSimulates(c, u, r);
      } else {
        ServeBoth(c, u, r);
        OneMore(w, Strip(before), r);
      }
    }
  }

  lemma SimulatesItself(w: World)
    ensures Simulates(w, w)
  {
  }

  lemma SameAdmission(c: World, u: World, r: Request)
    requires Simulates(c, u)
    ensures Admissible(c, r) == Admissible(u, r)
  {
    hide Trimmed;
  }

  /** A clean-up pass is one run of all eight statements at one time. */
  lemma {:induction false} PassIsRun(w: World, statements: seq<Statement>)
    ensures var rs := seq(|statements|, i requires 0 <= i < |statements| => Upkeep(DoClean(statements[i])));
            Run(w, rs) == w.(db := CleanAll(w.db, w.clock, statements)) && Strip(rs) == []
  {
    hide Clean;
    if statements != [] {
      var n := |statements| - 1;
      var rs := seq(n + 1, i requires 0 <= i < n + 1 => Upkeep(DoClean(statements[i])));
      PassIsRun(w, statements[..n]);
      assert rs[..n] == seq(n, i requires 0 <= i < n => Upkeep(DoClean(statements[..n][i])));
      CleanRequest(CleanAll(w.db, w.clock, statements[..n]), w.clock, rs[n].upkeep);
    }
  }
}
