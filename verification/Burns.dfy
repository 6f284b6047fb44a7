/** Event ids that rolled-back transactions used up cannot be seen: a run does the same whatever ids its events got. */
module Burns {
  import opened Text
  import opened Schema
  import opened Repository
  import opened Import
  import opened Service
  import opened Credentials

  /** Tables that differ in the two channels and the sequence only. */
  predicate SameButIds(a: Tables, b: Tables) {
    a == b.(outbox := a.outbox, events := a.events, lastId := a.lastId)
  }

  ghost predicate SameResult(x: Result<Tables>, y: Result<Tables>) {
    if x.Err? then x == y else y.Ok? && SameButIds(x.value, y.value)
  }

  ghost predicate SameAnswer(x: (Tables, Reply), y: (Tables, Reply)) {
    x.1 == y.1 && SameButIds(x.0, y.0)
  }

  lemma SettleSame(a: Tables, b: Tables, x: Result<Tables>, y: Result<Tables>)
    requires SameButIds(a, b) && SameResult(x, y)
    ensures SameAnswer(Settle(a, x), Settle(b, y))
  {
  }

  // ---------------------------------------------------------------- queueing

  lemma QueueEventSame(a: Tables, b: Tables, now: nat, project: string, kind: Kind, account: string, payload: Payload)
    requires SameButIds(a, b)
    ensures SameResult(QueueEvent(a, now, project, kind, account, payload),
                       QueueEvent(b, now, project, kind, account, payload))
  {
  }

  lemma {:induction false} QueueAllSame(a: Tables, b: Tables, now: nat, projects: seq<string>, kind: Kind,
                                        account: string, payload: Payload)
    requires SameButIds(a, b)
    ensures SameResult(QueueAll(a, now, projects, kind, account, payload),
                       QueueAll(b, now, projects, kind, account, payload))
  {
    hide QueueEvent;
    if projects != [] {
      var n := |projects| - 1;
      QueueAllSame(a, b, now, projects[..n], kind, account, payload);
      var x := QueueAll(a, now, projects[..n], kind, account, payload);
      var y := QueueAll(b, now, projects[..n], kind, account, payload);
      if x.Ok? { QueueEventSame(x.value, y.value, now, projects[n], kind, account, payload); }
    }
  }

  lemma LogSeatSame(a: Tables, b: Tables, now: nat, kind: Kind, seat: Seat, roles: seq<string>)
    requires SameButIds(a, b)
    ensures SameResult(LogSeat(a, now, kind, seat, roles), LogSeat(b, now, kind, seat, roles))
  {
    hide QueueEvent;
    if AccountPayload(a, seat.account, roles).Ok? {
      QueueEventSame(a, b, now, seat.project, kind, seat.account, AccountPayload(a, seat.account, roles).value);
    }
  }

  // ---------------------------------------------------------------- every transaction

  lemma DisableSame(a: Tables, b: Tables, now: nat, id: string)
    requires SameButIds(a, b)
    ensures SameResult(DisableAccount(a, now, id), DisableAccount(b, now, id))
  {
    hide QueueAll, ProfileProjects, SessionsWithout, CodesWithout, TicketsWithout, RevokeAccount;
    if id in a.accounts {
      var accounts := a.accounts[id := a.accounts[id].(status := Inactive)];
      var a1, b1 := RevokeCredentials(a.(accounts := accounts), id), RevokeCredentials(b.(accounts := accounts), id);
      SameProjects(a1, b1, id, "");
      QueueAllSame(a1, b1, now, ProfileProjects(a1, id, ""), AccessRevoked, id, UserIdOnly);
    }
  }

  lemma SameProjects(a: Tables, b: Tables, account: string, origin: string)
    requires a.access == b.access
    ensures ProfileProjects(a, account, origin) == ProfileProjects(b, account, origin)
  {
  }

  lemma GrantSame(a: Tables, b: Tables, now: nat, account: string, project: string, roles: seq<string>)
    requires SameButIds(a, b)
    ensures SameResult(GrantAccess(a, now, account, project, roles), GrantAccess(b, now, account, project, roles))
  {
    hide LogSeat, ApproveWaiting;
    var seat := Seat(account, project);
    var access, requests := a.access[seat := roles], ApproveWaiting(a.requests, seat);
    LogSeatSame(a.(access := access, requests := requests), b.(access := access, requests := requests), now,
                if seat in a.access then RolesChanged else AccessGranted, seat, roles);
  }

  lemma RevokeSame(a: Tables, b: Tables, now: nat, account: string, project: string)
    requires SameButIds(a, b)
    ensures SameResult(RevokeAccess(a, now, account, project), RevokeAccess(b, now, account, project))
  {
    hide QueueEvent, RevokeSeat;
    var seat := Seat(account, project);
    var access, tokens := a.access - {seat}, RevokeSeat(a.tokens, seat);
    QueueEventSame(a.(access := access, tokens := tokens), b.(access := access, tokens := tokens), now, project,
                   AccessRevoked, account, UserIdOnly);
  }

  lemma ApproveSame(a: Tables, b: Tables, now: nat, project: string, request: string, roles: seq<string>)
    requires SameButIds(a, b)
    ensures SameResult(ApproveRequest(a, now, project, request, roles), ApproveRequest(b, now, project, request, roles))
  {
    hide LogSeat;
    if request in a.requests {
      var seat := Seat(a.requests[request].account, project);
      var requests := a.requests[request := a.requests[request].(status := Approved)];
      var access := a.access[seat := roles];
      LogSeatSame(a.(requests := requests, access := access), b.(requests := requests, access := access), now,
                  AccessGranted, seat, roles);
    }
  }

  lemma SetRolesSame(a: Tables, b: Tables, now: nat, project: string, account: string, roles: seq<string>)
    requires SameButIds(a, b)
    ensures SameResult(SetProjectRoles(a, now, project, account, roles),
                       SetProjectRoles(b, now, project, account, roles))
  {
    hide LogSeat;
    var seat := Seat(account, project);
    var access := a.access[seat := roles];
    LogSeatSame(a.(access := access), b.(access := access), now, RolesChanged, seat, roles);
  }

  lemma ProjectAdminSame(a: Tables, b: Tables, now: nat, project: string, email: string)
    requires SameButIds(a, b)
    ensures SameResult(GrantProjectAdmin(a, now, project, email), GrantProjectAdmin(b, now, project, email))
  {
    hide SeatAdmin, FirstRow, VerifiedActive, Lower, Trim;
    var row := FirstRow(VerifiedActive(a.accounts, Lower(Trim(email))));
    if row.Ok? { SeatAdminSame(a, b, now, project, row.value); }
  }

  lemma SeatAdminSame(a: Tables, b: Tables, now: nat, project: string, account: string)
    requires SameButIds(a, b)
    ensures SameResult(SeatAdmin(a, now, project, account), SeatAdmin(b, now, project, account))
  {
    hide LogSeat, AdminRoles;
    var seat := Seat(account, project);
    var access := a.access[seat := AdminRoles(a.access, seat)];
    LogSeatSame(a.(access := access), b.(access := access), now, AccessGranted, seat, AdminRoles(a.access, seat));
  }

  lemma GlobalAdminSame(a: Tables, b: Tables, email: string)
    requires SameButIds(a, b)
    ensures SameResult(GrantGlobalAdmin(a, email), GrantGlobalAdmin(b, email))
  {
    hide FirstRow, VerifiedActive;
  }

  lemma PasswordSame(a: Tables, b: Tables, now: nat, id: string, password: StoredPassword)
    requires SameButIds(a, b)
    ensures SameResult(RevokePasswordSessions(a, now, id, password), RevokePasswordSessions(b, now, id, password))
  {
    hide QueueAll, ProfileProjects, SessionsWithout, CodesWithout, TicketsWithout, RevokeAccount, SetPassword;
    var accounts := SetPassword(a.accounts, id, password);
    var a1, b1 := RevokeCredentials(a.(accounts := accounts), id), RevokeCredentials(b.(accounts := accounts), id);
    SameProjects(a1, b1, id, "");
    QueueAllSame(a1, b1, now, ProfileProjects(a1, id, ""), SessionsRevoked, id, UserIdOnly);
  }

  lemma ResetSame(a: Tables, b: Tables, now: nat, ticket: string, password: StoredPassword)
    requires SameButIds(a, b)
    ensures SameResult(SubmitReset(a, now, ticket, password), SubmitReset(b, now, ticket, password))
  {
    hide RevokePasswordSessions;
    if ticket in a.resets {
      var resets := a.resets[ticket := a.resets[ticket].(used := true)];
      PasswordSame(a.(resets := resets), b.(resets := resets), now, a.resets[ticket].account, password);
    }
  }

  lemma ChangeSame(a: Tables, b: Tables, now: nat, id: string, current: string, password: StoredPassword)
    requires SameButIds(a, b)
    ensures SameResult(SubmitPassword(a, now, id, current, password), SubmitPassword(b, now, id, current, password))
  {
    hide RevokePasswordSessions;
    PasswordSame(a, b, now, id, password);
  }

  lemma ProfileSame(a: Tables, b: Tables, now: nat, id: string, login: string, given: string, family: string,
                    avatar: string)
    requires SameButIds(a, b)
    ensures SameResult(SubmitProfile(a, now, id, login, given, family, avatar),
                       SubmitProfile(b, now, id, login, given, family, avatar))
  {
    hide UpdateProfile, Lower, Trim, LoginShape;
    ProfileUpdateSame(a, b, now, id, Lower(Trim(login)), Trim(given), Trim(family),
                      Trim(Trim(given) + " " + Trim(family)), Trim(avatar));
  }

  lemma ProfileUpdateSame(a: Tables, b: Tables, now: nat, id: string, login: string, given: string, family: string,
                          name: string, avatar: string)
    requires SameButIds(a, b)
    ensures SameResult(UpdateProfile(a, now, id, login, given, family, name, avatar),
                       UpdateProfile(b, now, id, login, given, family, name, avatar))
  {
    hide QueueAll, ProfileProjects, LoginFree;
    SameProjects(a, b, id, "");
    if id in a.accounts {
      var profile := Profile(a.accounts[id].profile.email, login, name, given, family, avatar);
      var accounts := a.accounts[id := a.accounts[id].(profile := profile)];
      var a1, b1 := a.(accounts := accounts), b.(accounts := accounts);
      SameProjects(a1, b1, id, "");
      QueueAllSame(a1, b1, now, ProfileProjects(a1, id, ""), ProfileUpdated, id, ProfileOnly(profile, []));
    }
  }

  lemma LegacyProfileSame(a: Tables, b: Tables, now: nat, project: string, id: string, name: string, avatar: string)
    requires SameButIds(a, b)
    ensures SameResult(UpdateLegacyProfile(a, now, project, id, name, avatar),
                       UpdateLegacyProfile(b, now, project, id, name, avatar))
  {
    hide QueueAll, ProfileProjects;
    if id in a.accounts {
      var profile := a.accounts[id].profile.(name := name, given := name, family := "", avatar := avatar);
      var accounts := a.accounts[id := a.accounts[id].(profile := profile)];
      var a1, b1 := a.(accounts := accounts), b.(accounts := accounts);
      SameProjects(a1, b1, id, project);
      QueueAllSame(a1, b1, now, [project] + ProfileProjects(a1, id, project), ProfileUpdated, id,
                   ProfileOnly(profile, []));
    }
  }

  lemma RegisterSame(a: Tables, b: Tables, now: nat, id: string, form: Registration, password: StoredPassword,
                     ticket: string)
    requires SameButIds(a, b)
    ensures SameResult(Register(a, now, id, form, password, ticket), Register(b, now, id, form, password, ticket))
  {
    hide Insertable, Lower, Trim, LoginShape;
  }

  lemma ImportUserSame(a: Tables, b: Tables, now: nat, u: LegacyUser, id: string)
    requires SameButIds(a, b)
    ensures SameResult(ImportUser(a, now, u, id), ImportUser(b, now, u, id))
  {
    hide LogSeat, Insertable, AccountOf, RolesOf, Imported, SameResult;
    ImportedSame(a, b, u);
    var accounts := a.accounts[id := AccountOf(u)];
    var access := a.access[Seat(id, PROJECT) := RolesOf(u)];
    SameValues(a, b);
    SameValues(a.(accounts := accounts), b.(accounts := accounts));
    SameErrors();
    LogSeatSame(a.(accounts := accounts, access := access), b.(accounts := accounts, access := access), now,
                AccessGranted, Seat(id, PROJECT), RolesOf(u));
  }

  lemma SameValues(a: Tables, b: Tables)
    requires SameButIds(a, b)
    ensures SameResult(Ok(a), Ok(b))
  {
  }

  lemma SameErrors()
    ensures forall e :: SameResult(Err(e), Err(e))
  {
  }

  lemma ImportedSame(a: Tables, b: Tables, u: LegacyUser)
    requires a.accounts == b.accounts
    ensures Imported(a, u) == Imported(b, u)
  {
  }

  lemma {:induction false} ImportSame(a: Tables, b: Tables, now: nat, users: seq<LegacyUser>, ids: seq<string>)
    requires SameButIds(a, b) && |users| == |ids|
    ensures SameResult(ImportAll(a, now, users, ids), ImportAll(b, now, users, ids))
  {
    hide ImportUser;
    if users != [] {
      var n := |users| - 1;
      ImportSame(a, b, now, users[..n], ids[..n]);
      var x, y := ImportAll(a, now, users[..n], ids[..n]), ImportAll(b, now, users[..n], ids[..n]);
      if x.Ok? { ImportUserSame(x.value, y.value, now, users[n], ids[n]); }
    }
  }

  lemma ImportFileSame(a: Tables, b: Tables, now: nat, users: seq<LegacyUser>, ids: seq<string>)
    requires SameButIds(a, b)
    ensures SameResult(ImportUsers(a, now, users, ids), ImportUsers(b, now, users, ids))
  {
    hide ImportAll, Readable;
    if |users| == |ids| { ImportSame(a, b, now, users, ids); }
  }

  // ---------------------------------------------------------------- every request

  lemma DirectorySame(a: Tables, b: Tables, now: nat, r: DirectoryRequest)
    requires SameButIds(a, b)
    ensures SameAnswer(HandleDirectory(a, now, r), HandleDirectory(b, now, r))
  {
    hide SameButIds, SameResult, Settle, Register, ResendVerification, VerifyEmail, SubmitProfile, UpdateLegacyProfile,
         SubmitAccessRequest, ImportUsers;
    match r
    case DoRegister(id, form, password, ticket) =>
      RegisterSame(a, b, now, id, form, password, ticket);
      SettleSame(a, b, Register(a, now, id, form, password, ticket), Register(b, now, id, form, password, ticket));
    case DoResendVerification(email, ticket) =>
      ResendSame(a, b, now, email, ticket);
      SettleSame(a, b, ResendVerification(a, now, email, ticket), ResendVerification(b, now, email, ticket));
    case DoVerifyEmail(ticket) =>
      VerifySame(a, b, now, ticket);
      SettleSame(a, b, VerifyEmail(a, now, ticket), VerifyEmail(b, now, ticket));
    case DoUpdateProfile(account, login, given, family, avatar) =>
      ProfileSame(a, b, now, account, login, given, family, avatar);
      SettleSame(a, b, SubmitProfile(a, now, account, login, given, family, avatar),
                 SubmitProfile(b, now, account, login, given, family, avatar));
    case DoUpdateLegacyProfile(project, account, name, avatar) =>
      LegacyProfileSame(a, b, now, project, account, name, avatar);
      SettleSame(a, b, UpdateLegacyProfile(a, now, project, account, name, avatar),
                 UpdateLegacyProfile(b, now, project, account, name, avatar));
    case DoRequestAccess(requestId, account, project) =>
      RequestSame(a, b, requestId, account, project);
      SettleSame(a, b, SubmitAccessRequest(a, requestId, account, project),
                 SubmitAccessRequest(b, requestId, account, project));
    case DoImport(users, ids) =>
      ImportFileSame(a, b, now, users, ids);
      SettleSame(a, b, ImportUsers(a, now, users, ids), ImportUsers(b, now, users, ids));
  }

  lemma ResendSame(a: Tables, b: Tables, now: nat, email: string, ticket: string)
    requires SameButIds(a, b)
    ensures SameResult(ResendVerification(a, now, email, ticket), ResendVerification(b, now, email, ticket))
  {
    hide FirstRow, Unconfirmed, Lower, Trim;
  }

  lemma VerifySame(a: Tables, b: Tables, now: nat, ticket: string)
    requires SameButIds(a, b)
    ensures SameResult(VerifyEmail(a, now, ticket), VerifyEmail(b, now, ticket))
  {
    hide MarkVerified;
  }

  lemma RequestSame(a: Tables, b: Tables, requestId: string, account: string, project: string)
    requires SameButIds(a, b)
    ensures SameResult(SubmitAccessRequest(a, requestId, account, project),
                       SubmitAccessRequest(b, requestId, account, project))
  {
    hide Requested;
  }

  lemma LoginSame(a: Tables, b: Tables, now: nat, r: LoginRequest)
    requires SameButIds(a, b)
    ensures SameAnswer(HandleLogin(a, now, r), HandleLogin(b, now, r))
  {
    hide SameResult, Settle, SubmitReset, SubmitPassword, WithLogin, ForgotPassword, Lower, Trim;
    match r
    case DoLogin(identifier, attempt, session, _) =>
      SignInSame(a, b, now, Lower(Trim(identifier)), attempt, session);
    case DoForgotPassword(email, ticket) =>
      ForgotSame(a, b, now, email, ticket);
      SettleSame(a, b, ForgotPassword(a, now, email, ticket), ForgotPassword(b, now, email, ticket));
    case DoResetPassword(ticket, password) =>
      ResetSame(a, b, now, ticket, password);
      SettleSame(a, b, SubmitReset(a, now, ticket, password), SubmitReset(b, now, ticket, password));
    case DoChangePassword(account, attempt, password) =>
      ChangeSame(a, b, now, account, attempt, password);
      SettleSame(a, b, SubmitPassword(a, now, account, attempt, password),
                 SubmitPassword(b, now, account, attempt, password));
    case _ =>
  }

  lemma SignInSame(a: Tables, b: Tables, now: nat, identifier: string, attempt: string, session: string)
    requires SameButIds(a, b)
    ensures var x := WithLogin(a, now, identifier, attempt, session);
            var y := WithLogin(b, now, identifier, attempt, session);
            if x.Err? then x == y else y.Ok? && x.value.1 == y.value.1 && SameButIds(x.value.0, y.value.0)
  {
    hide FirstRow, LoginMatches;
  }

  lemma ForgotSame(a: Tables, b: Tables, now: nat, email: string, ticket: string)
    requires SameButIds(a, b)
    ensures SameResult(ForgotPassword(a, now, email, ticket), ForgotPassword(b, now, email, ticket))
  {
    hide FirstRow, Resettable, Lower, Trim;
  }

  lemma AdminSame(a: Tables, b: Tables, now: nat, r: AdminRequest)
    requires SameButIds(a, b)
    ensures SameAnswer(HandleAdmin(a, now, r), HandleAdmin(b, now, r))
  {
    hide SameResult, Settle, DisableAccount, GrantAccess, RevokeAccess, ApproveRequest, SetProjectRoles,
         GrantProjectAdmin, GrantGlobalAdmin, Lower, Trim;
    match r
    case DoActivate(account) => SettleSame(a, b, ActivateAccount(a, account), ActivateAccount(b, account)) by {
        ActivateSame(a, b, account);
      }
    case DoDisable(actor, account) =>
      DisableSame(a, b, now, account);
      SettleSame(a, b, Disable(a, now, actor, account), Disable(b, now, actor, account)) by {
        SubmitDisableSame(a, b, now, actor, account);
      }
    case DoGrant(account, project, roles) =>
      GrantSame(a, b, now, account, project, roles);
      SettleSame(a, b, GrantAccess(a, now, account, project, roles), GrantAccess(b, now, account, project, roles));
    case DoRevoke(account, project) =>
      RevokeSame(a, b, now, account, project);
      SettleSame(a, b, RevokeAccess(a, now, account, project), RevokeAccess(b, now, account, project));
    case DoApprove(project, requestId, roles) =>
      ApproveSame(a, b, now, project, requestId, roles);
      SettleSame(a, b, ApproveRequest(a, now, project, requestId, roles),
                 ApproveRequest(b, now, project, requestId, roles));
    case DoSetRoles(project, account, roles) =>
      SetRolesSame(a, b, now, project, account, roles);
      SettleSame(a, b, SetProjectRoles(a, now, project, account, roles),
                 SetProjectRoles(b, now, project, account, roles));
    case DoGrantProjectAdmin(project, email) =>
      ProjectAdminSame(a, b, now, project, email);
      SettleSame(a, b, GrantProjectAdmin(a, now, project, email), GrantProjectAdmin(b, now, project, email));
    case DoGrantGlobalAdmin(email) =>
      GlobalAdminSame(a, b, Lower(Trim(email)));
      SettleSame(a, b, GrantGlobalAdmin(a, Lower(Trim(email))), GrantGlobalAdmin(b, Lower(Trim(email))));
  }

  lemma ActivateSame(a: Tables, b: Tables, id: string)
    requires SameButIds(a, b)
    ensures SameResult(ActivateAccount(a, id), ActivateAccount(b, id))
  {
  }

  lemma SubmitDisableSame(a: Tables, b: Tables, now: nat, actor: string, id: string)
    requires SameButIds(a, b)
    ensures SameResult(Disable(a, now, actor, id), Disable(b, now, actor, id))
  {
    hide DisableAccount;
    DisableSame(a, b, now, id);
  }

  lemma OAuthSame(a: Tables, b: Tables, now: nat, r: OAuthRequest)
    requires SameButIds(a, b)
    ensures SameAnswer(HandleOAuth(a, now, r), HandleOAuth(b, now, r))
  {
    hide SameResult, SameButIds, Settle, SubmitClient, Authorize, Exchange, Refresh;
    match r
    case DoRegisterClient(client, project, secretHash, redirects) =>
      ClientSame(a, b, client, project, secretHash, redirects);
      SettleSame(a, b, SubmitClient(a, client, project, secretHash, redirects),
                 SubmitClient(b, client, project, secretHash, redirects));
    case DoAuthorize(input, code) =>
      AuthorizeSame(a, b, now, input, code);
      SettleSame(a, b, Authorize(a, now, input, code), Authorize(b, now, input, code));
    case DoExchange(client, code, redirect, challenge, refresh, family, signed) =>
      ExchangeSame(a, b, now, client, code, redirect, challenge, refresh, family, signed);
    case DoRefresh(client, token, next, hostNow, signed) => RefreshSame(a, b, client, token, next, hostNow, signed);
  }

  lemma ClientSame(a: Tables, b: Tables, id: string, project: string, secretHash: string, redirects: seq<string>)
    requires SameButIds(a, b)
    ensures SameResult(SubmitClient(a, id, project, secretHash, redirects),
                       SubmitClient(b, id, project, secretHash, redirects))
  {
  }

  lemma AuthorizeSame(a: Tables, b: Tables, now: nat, input: AuthorizeInput, code: string)
    requires SameButIds(a, b)
    ensures SameResult(Authorize(a, now, input, code), Authorize(b, now, input, code))
  {
    hide Fields, Contains, ChallengeShape;
  }

  lemma ExchangeSame(a: Tables, b: Tables, now: nat, client: string, code: string, redirect: string,
                     challenge: string, refresh: string, family: string, signed: bool)
    requires SameButIds(a, b)
    ensures var x := Exchange(a, now, client, code, redirect, challenge, refresh, family, signed);
            var y := Exchange(b, now, client, code, redirect, challenge, refresh, family, signed);
            x.1 == y.1 && SameButIds(x.0, y.0)
  {
    hide ConsumeAuthorizationCode, CreateRefresh;
    ConsumeSame(a, b, now, code, client, redirect, challenge);
    var x := ConsumeAuthorizationCode(a, now, code, client, redirect, challenge);
    var y := ConsumeAuthorizationCode(b, now, code, client, redirect, challenge);
    if x.Ok? && client in a.clients {
      IssueSame(x.value.0, y.value.0, now, refresh, family, x.value.1.account, client, a.clients[client].project,
                x.value.1.scopes);
    }
  }

  lemma ConsumeSame(a: Tables, b: Tables, now: nat, code: string, client: string, redirect: string, challenge: string)
    requires SameButIds(a, b)
    ensures var x := ConsumeAuthorizationCode(a, now, code, client, redirect, challenge);
            var y := ConsumeAuthorizationCode(b, now, code, client, redirect, challenge);
            if x.Err? then x == y else y.Ok? && x.value.1 == y.value.1 && SameButIds(x.value.0, y.value.0)
  {
  }

  lemma IssueSame(a: Tables, b: Tables, now: nat, hash: string, family: string, account: string, client: string,
                  project: string, scopes: seq<string>)
    requires SameButIds(a, b)
    ensures SameResult(CreateRefresh(a, now, hash, family, account, client, project, scopes),
                       CreateRefresh(b, now, hash, family, account, client, project, scopes))
  {
  }

  lemma RefreshSame(a: Tables, b: Tables, client: string, token: string, next: string, hostNow: nat, signed: bool)
    requires SameButIds(a, b)
    ensures var x := Refresh(a, client, token, next, hostNow, signed);
            var y := Refresh(b, client, token, next, hostNow, signed);
            x.1 == y.1 && SameButIds(x.0, y.0)
  {
    hide RotateRefresh;
    if client in a.clients { RotateSame(a, b, token, next, client, a.clients[client].project, hostNow); }
  }

  lemma RotateSame(a: Tables, b: Tables, hash: string, next: string, client: string, project: string, hostNow: nat)
    requires SameButIds(a, b)
    ensures var x := RotateRefresh(a, hash, next, client, project, hostNow);
            var y := RotateRefresh(b, hash, next, client, project, hostNow);
            x.1 == y.1 && SameButIds(x.0, y.0)
  {
    hide RevokeFamily;
  }

  /** Requests whose answer is about ids: a publisher's round; and lost ids themselves. */
  predicate AboutIds(r: Request) {
    r.Upkeep? && (r.upkeep.DoPublish? || r.upkeep.Burn?)
  }

  lemma UpkeepSame(a: Tables, b: Tables, now: nat, r: UpkeepRequest)
    requires SameButIds(a, b) && !AboutIds(Upkeep(r))
    ensures SameAnswer(HandleUpkeep(a, now, r), HandleUpkeep(b, now, r))
  {
    hide IncrementAttempt, RotateSigningKey, PublishedKeys, Clean;
    if r.DoClean? { CleanSame(a, b, now, r.statement); }
  }

  lemma CleanSame(a: Tables, b: Tables, now: nat, statement: Statement)
    requires SameButIds(a, b)
    ensures SameButIds(Clean(a, now, statement), Clean(b, now, statement))
  {
    match statement { case _ => }
  }

  lemma BootSame(a: Tables, b: Tables, s: Setup)
    requires SameButIds(a, b)
    ensures SameAnswer(Boot(a, s), Boot(b, s))
  {
    hide Boot;
    BootReads(a, b, s);
    BootElsewhere(a, s);
    BootElsewhere(b, s);
  }

  lemma HandleSame(a: Tables, b: Tables, now: nat, r: Request)
    requires SameButIds(a, b) && !AboutIds(r)
    ensures SameAnswer(Handle(a, now, r), Handle(b, now, r))
  {
    hide SameButIds, SameAnswer, HandleDirectory, HandleLogin, HandleAdmin, HandleOAuth, HandleUpkeep, Boot;
    match r
    case Directory(d) => DirectorySame(a, b, now, d);
    case Login(l) => LoginSame(a, b, now, l);
    case Admin(m) => AdminSame(a, b, now, m);
    case OAuth(o) => OAuthSame(a, b, now, o);
    case Upkeep(u) => UpkeepSame(a, b, now, u);
    case Restart(s) => BootSame(a, b, s);
  }

  // ---------------------------------------------------------------- whole runs

  /** The same clock, names, history and tables, up to ids. */
  predicate SameWorld(v: World, w: World) {
    v.clock == w.clock && v.drawn == w.drawn && v.ledger == w.ledger && SameButIds(v.db, w.db)
  }

  lemma NoteSame(v: World, w: World, r: Request, x: Tables, y: Tables, reply: Reply)
    requires SameWorld(v, w) && SameButIds(x, y)
    ensures Note(v, r, x, reply) == Note(w, r, y, reply)
  {
  }

  lemma ServeSame(v: World, w: World, r: Request)
    requires SameWorld(v, w) && !AboutIds(r)
    ensures SameWorld(Serve(v, r), Serve(w, r))
    ensures Handle(v.db, v.clock, r).1 == Handle(w.db, w.clock, r).1
    ensures Admissible(v, r) <==> Admissible(w, r)
  {
    hide Handle, Note, SameButIds;
    HandleSame(v.db, w.db, v.clock, r);
    NoteSame(v, w, r, Handle(v.db, v.clock, r).0, Handle(w.db, w.clock, r).0, Handle(v.db, v.clock, r).1);
  }

  lemma BurnSame(v: World, w: World, count: nat)
    requires SameWorld(v, w)
    ensures SameWorld(Serve(v, Upkeep(Burn(count))), w) && Admissible(v, Upkeep(Burn(count)))
  {
  }

  predicate IsBurn(r: Request) {
    r.Upkeep? && r.upkeep.Burn?
  }

  function WithoutBurns(rs: seq<Request>): seq<Request> {
    if rs == [] then [] else
      WithoutBurns(rs[..|rs| - 1]) + if IsBurn(rs[|rs| - 1]) then [] else [rs[|rs| - 1]]
  }

  /** The answers of a run, those of the lost ids left out. */
  function Replies(w: World, rs: seq<Request>): seq<Reply> {
    if rs == [] then [] else
      var before := Run(w, rs[..|rs| - 1]);
      Replies(w, rs[..|rs| - 1])
      + if IsBurn(rs[|rs| - 1]) then [] else [Handle(before.db, before.clock, rs[|rs| - 1]).1]
  }

  predicate NoRounds(rs: seq<Request>) {
    forall i :: 0 <= i < |rs| ==> !(rs[i].Upkeep? && rs[i].upkeep.DoPublish?)
  }

  lemma OneMore(w: World, rs: seq<Request>, r: Request)
    ensures Run(w, rs + [r]) == Serve(Run(w, rs), r)
    ensures AdmissibleRun(w, rs + [r]) <==> AdmissibleRun(w, rs) && Admissible(Run(w, rs), r)
    ensures WithoutBurns(rs + [r]) == WithoutBurns(rs) + if IsBurn(r) then [] else [r]
    ensures Replies(w, rs + [r])
            == Replies(w, rs) + if IsBurn(r) then [] else [Handle(Run(w, rs).db, Run(w, rs).clock, r).1]
  {
    hide Serve, Handle, Admissible;
    assert (rs + [r])[..|rs|] == rs;
  }

  /** Whatever ids rolled-back transactions used up, and wherever: the run is admissible if and only if the run without
      those losses is, it gives the same answers, and it ends in the same tables up to ids. */
  lemma {:induction false} BurnsAreInvisible(w: World, rs: seq<Request>)
    requires NoRounds(rs)
    ensures SameWorld(Run(w, rs), Run(w, WithoutBurns(rs)))
    ensures AdmissibleRun(w, rs) <==> AdmissibleRun(w, WithoutBurns(rs))
    ensures Replies(w, rs) == Replies(w, WithoutBurns(rs))
  {
    hide Serve, Handle, Admissible, SameWorld, Run, AdmissibleRun, Replies;
    if rs == [] {
      assert WithoutBurns(rs) == rs;
      SameAsItself(Run(w, rs));
    } else {
      var init, r := rs[..|rs| - 1], rs[|rs| - 1];
      assert rs == init + [r];
      BurnsAreInvisible(w, init);
      OneMore(w, init, r);
      var v := Run(w, init);
      if IsBurn(r) {
        assert WithoutBurns(init) + [] == WithoutBurns(init) && Replies(w, init) + [] == Replies(w, init);
        BurnSame(v, Run(w, WithoutBurns(init)), r.upkeep.count);
      } else {
        ServeSame(v, Run(w, WithoutBurns(init)), r);
        OneMore(w, WithoutBurns(init), r);
      }
    }
  }

  lemma SameAsItself(w: World)
    ensures SameWorld(w, w)
  {
  }
}
