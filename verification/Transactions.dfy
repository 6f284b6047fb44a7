/** Every request but a start: the log explains what it does to the user lists, and seats keep their standing. */
module Transactions {
  import opened Text
  import opened Schema
  import opened Repository
  import opened Import
  import opened Service
  import opened ChangeLog

  // ---------------------------------------------------------------- standing is kept

  lemma StandingByAccounts(a: Tables, b: Tables)
    requires Standing(a)
    requires b.access.Keys <= a.access.Keys && b.projects == a.projects && b.accounts.Keys == a.accounts.Keys
    requires forall s :: s in b.access ==> s.account in b.accounts && b.accounts[s.account].InGoodStanding()
    ensures Standing(b)
  {
  }

  lemma StandingByRows(a: Tables, b: Tables)
    requires Standing(a) && SameRows(a, b) && a.projects <= b.projects && "" !in b.projects && "" !in b.accounts
    ensures Standing(b)
  {
  }

  lemma StandingBySeat(a: Tables, mid: Tables, now: nat, kind: Kind, seat: Seat, roles: seq<string>)
    requires Standing(a) && LogSeat(mid, now, kind, seat, roles).Ok? && "" !in mid.accounts
    requires mid.access == a.access[seat := roles] && mid.projects == a.projects
    requires forall u :: u in a.accounts ==> u in mid.accounts && mid.accounts[u] == a.accounts[u]
    ensures Standing(LogSeat(mid, now, kind, seat, roles).value)
  {
  }

  // ---------------------------------------------------------------- the import

  lemma ImportUserLogs(a: Tables, now: nat, u: LegacyUser, id: string)
    requires Standing(a) && ImportUser(a, now, u, id).Ok? && id != ""
    ensures var b := ImportUser(a, now, u, id).value; Logs(a, b) && Standing(b)
  {
    hide Logs, Standing, LogSeat, Imported, Insertable;
    if Imported(a, u) {
      NothingKeeps(a);
    } else {
      assert id !in a.accounts by { InsertableIsNew(a.accounts, id, AccountOf(u)); }
      var inserted := a.(accounts := a.accounts[id := AccountOf(u)]);
      if AccountOf(u).status.Active? {
        NewSeatLogs(a, now, u, id);
      } else {
        NewAccountLogs(a, inserted, id);
      }
    }
  }

  lemma InsertableIsNew(accounts: map<string, Account>, id: string, a: Account)
    requires Insertable(accounts, id, a)
    ensures id !in accounts
  {
  }

  lemma NewAccountLogs(a: Tables, b: Tables, id: string)
    requires Standing(a) && id !in a.accounts && id != "" && id in b.accounts
    requires b == a.(accounts := a.accounts[id := b.accounts[id]])
    ensures Logs(a, b) && Standing(b)
  {
    SameRowsLogs(a, b);
    StandingByRows(a, b);
  }

  lemma NewSeatLogs(a: Tables, now: nat, u: LegacyUser, id: string)
    requires Standing(a) && id !in a.accounts && id != "" && AccountOf(u).status.Active?
    requires var seat := Seat(id, PROJECT);
             var seated := a.(accounts := a.accounts[id := AccountOf(u)], access := a.access[seat := RolesOf(u)]);
             LogSeat(seated, now, AccessGranted, seat, RolesOf(u)).Ok?
    ensures var seat := Seat(id, PROJECT);
            var seated := a.(accounts := a.accounts[id := AccountOf(u)], access := a.access[seat := RolesOf(u)]);
            var b := LogSeat(seated, now, AccessGranted, seat, RolesOf(u)).value;
            Logs(a, b) && Standing(b)
  {
    hide Logs, LogSeat, RolesOf;
    var seat := Seat(id, PROJECT);
    var seated := a.(accounts := a.accounts[id := AccountOf(u)], access := a.access[seat := RolesOf(u)]);
    assert seated.accounts - {id} == a.accounts - {id};
    SeatLogs(a, seated, now, AccessGranted, seat, RolesOf(u));
    StandingBySeat(a, seated, now, AccessGranted, seat, RolesOf(u));
  }

  lemma {:induction false} ImportLogs(a: Tables, now: nat, users: seq<LegacyUser>, ids: seq<string>)
    requires |users| == |ids| && "" !in ids
    requires Standing(a) && ImportAll(a, now, users, ids).Ok?
    ensures var b := ImportAll(a, now, users, ids).value; Logs(a, b) && Standing(b)
  {
    if users == [] {
      QuietLogs(a, a);
    } else {
      var mid := ImportAll(a, now, users[..|users| - 1], ids[..|ids| - 1]).value;
      ImportLogs(a, now, users[..|users| - 1], ids[..|ids| - 1]);
      ImportUserLogs(mid, now, users[|users| - 1], ids[|ids| - 1]);
      LogsComposes(a, mid, ImportAll(a, now, users, ids).value);
    }
  }

  // ---------------------------------------------------------------- the quiet requests

  ghost predicate Keeps(a: Tables, b: Tables) {
    Logs(a, b) && Standing(b)
  }

  /** Nothing a project lists is touched. */
  lemma ElsewhereKeeps(a: Tables, b: Tables)
    requires Standing(a)
    requires b.accounts == a.accounts && b.access == a.access && b.events == a.events && a.lastId <= b.lastId
    requires a.projects <= b.projects && "" !in b.projects
    ensures Keeps(a, b)
  {
    SameRowsLogs(a, b);
  }

  /** One account is inserted or changed, without effect on what a project lists. */
  lemma OneAccountKeeps(a: Tables, b: Tables, id: string)
    requires Standing(a) && id != ""
    requires id in b.accounts && b.accounts == a.accounts[id := b.accounts[id]]
    requires b.access == a.access && b.events == a.events && a.lastId <= b.lastId && b.projects == a.projects
    requires id in a.accounts ==>
      && b.accounts[id].oldId == a.accounts[id].oldId
      && (a.accounts[id].InGoodStanding() ==>
            b.accounts[id].InGoodStanding() && b.accounts[id].profile == a.accounts[id].profile)
    ensures Keeps(a, b)
  {
    assert SameRows(a, b);
    SameRowsLogs(a, b);
    StandingByRows(a, b);
  }

  lemma RegisterKeeps(a: Tables, now: nat, id: string, form: Registration, password: StoredPassword, ticket: string)
    requires Standing(a) && Register(a, now, id, form, password, ticket).Ok? && id != ""
    ensures Keeps(a, Register(a, now, id, form, password, ticket).value)
  {
    var b := Register(a, now, id, form, password, ticket).value;
    assert b == a.(accounts := a.accounts[id := b.accounts[id]], verifications := b.verifications);
    OneAccountKeeps(a, b, id);
  }

  lemma VerifiedKeeps(a: Tables, b: Tables, id: string)
    requires Standing(a)
    requires b == a.(verifications := b.verifications, accounts := MarkVerified(a.accounts, id))
    ensures Keeps(a, b)
  {
    if id in a.accounts {
      OneAccountKeeps(a, b, id);
    } else {
      ElsewhereKeeps(a, b);
    }
  }

  lemma VerifyEmailKeeps(a: Tables, now: nat, ticket: string)
    requires Standing(a) && VerifyEmail(a, now, ticket).Ok?
    ensures Keeps(a, VerifyEmail(a, now, ticket).value)
  {
    VerifiedKeeps(a, VerifyEmail(a, now, ticket).value, a.verifications[ticket].account);
  }

  lemma UpgradeKeeps(a: Tables, id: string, previous: StoredPassword, upgraded: StoredPassword)
    requires Standing(a)
    ensures Keeps(a, UpgradePasswordHash(a, id, previous, upgraded))
  {
    var b := UpgradePasswordHash(a, id, previous, upgraded);
    if id in a.accounts && a.accounts[id].password == previous {
      OneAccountKeeps(a, b, id);
    } else {
      ElsewhereKeeps(a, b);
    }
  }

  lemma ActivateKeeps(a: Tables, id: string)
    requires Standing(a) && ActivateAccount(a, id).Ok?
    ensures Keeps(a, ActivateAccount(a, id).value)
  {
    OneAccountKeeps(a, ActivateAccount(a, id).value, id);
  }

  lemma GrantGlobalAdminKeeps(a: Tables, email: string)
    requires Standing(a) && GrantGlobalAdmin(a, email).Ok?
    ensures Keeps(a, GrantGlobalAdmin(a, email).value)
  {
    OneAccountKeeps(a, GrantGlobalAdmin(a, email).value, FirstRow(VerifiedActive(a.accounts, email)).value);
  }

  // ---------------------------------------------------------------- the logging requests

  lemma DisableKeeps(a: Tables, now: nat, id: string)
    requires Standing(a) && DisableAccount(a, now, id).Ok?
    ensures Keeps(a, DisableAccount(a, now, id).value)
  {
    DisableLogs(a, now, id);
    StandingByAccounts(a, DisableAccount(a, now, id).value);
  }

  lemma RevokeKeeps(a: Tables, now: nat, account: string, project: string)
    requires Standing(a) && RevokeAccess(a, now, account, project).Ok?
    ensures Keeps(a, RevokeAccess(a, now, account, project).value)
  {
    RevokeLogs(a, now, account, project);
    StandingByAccounts(a, RevokeAccess(a, now, account, project).value);
  }

  lemma GrantKeeps(a: Tables, now: nat, account: string, project: string, roles: seq<string>)
    requires Standing(a) && GrantAccess(a, now, account, project, roles).Ok?
    ensures Keeps(a, GrantAccess(a, now, account, project, roles).value)
  {
    GrantLogs(a, now, account, project, roles);
    var seat := Seat(account, project);
    StandingBySeat(a, a.(access := a.access[seat := roles], requests := ApproveWaiting(a.requests, seat)), now,
                   if seat in a.access then RolesChanged else AccessGranted, seat, roles);
  }

  lemma ApproveKeeps(a: Tables, now: nat, project: string, request: string, roles: seq<string>)
    requires Standing(a) && ApproveRequest(a, now, project, request, roles).Ok?
    ensures Keeps(a, ApproveRequest(a, now, project, request, roles).value)
  {
    ApproveLogs(a, now, project, request, roles);
    var seat := Seat(a.requests[request].account, project);
    StandingBySeat(a, a.(requests := a.requests[request := a.requests[request].(status := Approved)],
                         access := a.access[seat := roles]), now, AccessGranted, seat, roles);
  }

  lemma SetRolesKeeps(a: Tables, now: nat, project: string, account: string, roles: seq<string>)
    requires Standing(a) && SetProjectRoles(a, now, project, account, roles).Ok?
    ensures Keeps(a, SetProjectRoles(a, now, project, account, roles).value)
  {
    SetRolesLogs(a, now, project, account, roles);
    var seat := Seat(account, project);
    StandingBySeat(a, a.(access := a.access[seat := roles]), now, RolesChanged, seat, roles);
  }

  lemma SeatAdminKeeps(a: Tables, now: nat, project: string, account: string)
    requires Standing(a) && SeatAdmin(a, now, project, account).Ok?
    ensures Keeps(a, SeatAdmin(a, now, project, account).value)
  {
    hide Logs, LogSeat, AdminRoles;
    SeatAdminLogs(a, now, project, account);
    var seat := Seat(account, project);
    var roles := AdminRoles(a.access, seat);
    StandingBySeat(a, a.(access := a.access[seat := roles]), now, AccessGranted, seat, roles);
  }

  lemma PasswordKeeps(a: Tables, mid: Tables, now: nat, id: string, password: StoredPassword)
    requires Standing(a) && mid == a.(resets := mid.resets)
    requires RevokePasswordSessions(mid, now, id, password).Ok?
    ensures Keeps(a, RevokePasswordSessions(mid, now, id, password).value)
  {
    RevokePasswordLogs(a, mid, now, id, password);
    StandingByAccounts(a, RevokePasswordSessions(mid, now, id, password).value);
  }

  lemma UpdateProfileKeeps(a: Tables, now: nat, id: string, login: string, given: string, family: string,
                           name: string, avatar: string)
    requires Standing(a) && UpdateProfile(a, now, id, login, given, family, name, avatar).Ok?
    ensures Keeps(a, UpdateProfile(a, now, id, login, given, family, name, avatar).value)
  {
    UpdateProfileLogs(a, now, id, login, given, family, name, avatar);
    StandingByAccounts(a, UpdateProfile(a, now, id, login, given, family, name, avatar).value);
  }

  lemma UpdateLegacyProfileKeeps(a: Tables, now: nat, project: string, id: string, name: string, avatar: string)
    requires Standing(a) && UpdateLegacyProfile(a, now, project, id, name, avatar).Ok?
    ensures Keeps(a, UpdateLegacyProfile(a, now, project, id, name, avatar).value)
  {
    UpdateLegacyProfileLogs(a, now, project, id, name, avatar);
    StandingByAccounts(a, UpdateLegacyProfile(a, now, project, id, name, avatar).value);
  }

  // ---------------------------------------------------------------- every request

  lemma SettleKeeps(a: Tables, result: Result<Tables>)
    requires Standing(a) && (result.Ok? ==> Keeps(a, result.value))
    ensures Keeps(a, Settle(a, result).0)
  {
    ElsewhereKeeps(a, a);
  }

  /** New accounts are given ids of their own. */
  predicate Named(r: Request) {
    match r
    case Directory(DoRegister(id, _, _, _)) => id != ""
    case Directory(DoImport(_, ids)) => "" !in ids
    case Restart(s) => s.project != "" && s.adminId != ""
    case _ => true
  }

  lemma DirectoryKeeps(a: Tables, now: nat, r: DirectoryRequest)
    requires Standing(a) && Named(Directory(r))
    ensures Keeps(a, HandleDirectory(a, now, r).0)
  {
    hide Keeps, Standing, Settle, Register, VerifyEmail, UpdateLegacyProfile, ImportAll;
    match r
    case DoRegister(id, form, password, ticket) =>
      var result := Register(a, now, id, form, password, ticket);
      if result.Ok? { RegisterKeeps(a, now, id, form, password, ticket); }
      SettleKeeps(a, result);
    case DoResendVerification(email, ticket) =>
      var result := ResendVerification(a, now, email, ticket);
      if result.Ok? { ResendKeeps(a, now, email, ticket); }
      SettleKeeps(a, result);
    case DoVerifyEmail(ticket) =>
      var result := VerifyEmail(a, now, ticket);
      if result.Ok? { VerifyEmailKeeps(a, now, ticket); }
      SettleKeeps(a, result);
    case DoUpdateProfile(account, login, given, family, avatar) =>
      var result := SubmitProfile(a, now, account, login, given, family, avatar);
      if result.Ok? { ProfileRequestKeeps(a, now, account, login, given, family, avatar); }
      SettleKeeps(a, result);
    case DoUpdateLegacyProfile(project, account, name, avatar) =>
      var result := UpdateLegacyProfile(a, now, project, account, name, avatar);
      if result.Ok? { UpdateLegacyProfileKeeps(a, now, project, account, name, avatar); }
      SettleKeeps(a, result);
    case DoRequestAccess(requestId, account, project) =>
      var result := SubmitAccessRequest(a, requestId, account, project);
      if result.Ok? { RequestKeeps(a, requestId, account, project); }
      SettleKeeps(a, result);
    case DoImport(users, ids) =>
      var result := ImportUsers(a, now, users, ids);
      if result.Ok? { ImportLogs(a, now, users, ids); KeepsIs(a, result.value); }
      SettleKeeps(a, result);
  }

  lemma KeepsIs(a: Tables, b: Tables)
    requires Logs(a, b) && Standing(b)
    ensures Keeps(a, b)
  {
  }

  lemma ResendKeeps(a: Tables, now: nat, email: string, ticket: string)
    requires Standing(a) && ResendVerification(a, now, email, ticket).Ok?
    ensures Keeps(a, ResendVerification(a, now, email, ticket).value)
  {
    ElsewhereKeeps(a, ResendVerification(a, now, email, ticket).value);
  }

  lemma ProfileRequestKeeps(a: Tables, now: nat, id: string, login: string, given: string, family: string,
                            avatar: string)
    requires Standing(a) && SubmitProfile(a, now, id, login, given, family, avatar).Ok?
    ensures Keeps(a, SubmitProfile(a, now, id, login, given, family, avatar).value)
  {
    hide UpdateProfile, Keeps, Standing, Lower, Trim;
    UpdateProfileKeeps(a, now, id, Lower(Trim(login)), Trim(given), Trim(family),
                       Trim(Trim(given) + " " + Trim(family)),
                       Trim(avatar));
  }

  lemma RequestKeeps(a: Tables, requestId: string, account: string, project: string)
    requires Standing(a) && SubmitAccessRequest(a, requestId, account, project).Ok?
    ensures Keeps(a, SubmitAccessRequest(a, requestId, account, project).value)
  {
    hide RequestAccess;
    ElsewhereKeeps(a, SubmitAccessRequest(a, requestId, account, project).value);
  }

  lemma LoginRequestKeeps(a: Tables, now: nat, identifier: string, password: string, session: string)
    requires Standing(a) && WithLogin(a, now, identifier, password, session).Ok?
    ensures Keeps(a, WithLogin(a, now, identifier, password, session).value.0)
  {
    ElsewhereKeeps(a, WithLogin(a, now, identifier, password, session).value.0);
  }

  lemma ForgotKeeps(a: Tables, now: nat, email: string, ticket: string)
    requires Standing(a) && ForgotPassword(a, now, email, ticket).Ok?
    ensures Keeps(a, ForgotPassword(a, now, email, ticket).value)
  {
    ElsewhereKeeps(a, ForgotPassword(a, now, email, ticket).value);
  }

  lemma ResetKeeps(a: Tables, now: nat, ticket: string, password: StoredPassword)
    requires Standing(a) && ResetPassword(a, now, ticket, password).Ok?
    ensures Keeps(a, ResetPassword(a, now, ticket, password).value)
  {
    var mid := a.(resets := a.resets[ticket := a.resets[ticket].(used := true)]);
    PasswordKeeps(a, mid, now, a.resets[ticket].account, password);
  }

  lemma LoginKeeps(a: Tables, now: nat, r: LoginRequest)
    requires Standing(a)
    ensures Keeps(a, HandleLogin(a, now, r).0)
  {
    hide Keeps, Standing, Settle, WithLogin, SessionAccount, ForgotPassword, ResetPassword, RevokePasswordSessions;
    match r
    case DoLogin(identifier, attempt, session, _) =>
      if WithLogin(a, now, Lower(Trim(identifier)), attempt, session).Ok? {
        LoginRequestKeeps(a, now, Lower(Trim(identifier)), attempt, session);
      } else {
        NothingKeeps(a);
      }
    case FinishUpgrade(u) => UpgradeKeeps(a, u.account, u.previous, u.upgraded);
    case CheckSession(session) => NothingKeeps(a);
    case Logout(session) => LogoutKeeps(a, session);
    case DoForgotPassword(email, ticket) =>
      var result := ForgotPassword(a, now, email, ticket);
      if result.Ok? { ForgotKeeps(a, now, email, ticket); }
      SettleKeeps(a, result);
    case DoResetPassword(ticket, password) =>
      var result := SubmitReset(a, now, ticket, password);
      if result.Ok? { ResetKeeps(a, now, ticket, password); }
      SettleKeeps(a, result);
    case DoChangePassword(account, attempt, password) =>
      var result := SubmitPassword(a, now, account, attempt, password);
      if result.Ok? { PasswordKeeps(a, a, now, account, password); }
      SettleKeeps(a, result);
  }

  lemma NothingKeeps(a: Tables)
    requires Standing(a)
    ensures Keeps(a, a)
  {
    ElsewhereKeeps(a, a);
  }

  lemma LogoutKeeps(a: Tables, session: string)
    requires Standing(a)
    ensures Keeps(a, a.(sessions := a.sessions - {session}))
  {
    ElsewhereKeeps(a, a.(sessions := a.sessions - {session}));
  }

  lemma AdminKeeps(a: Tables, now: nat, r: AdminRequest)
    requires Standing(a)
    ensures Keeps(a, HandleAdmin(a, now, r).0)
  {
    hide Keeps, Standing, Settle, ActivateAccount, DisableAccount, GrantAccess, RevokeAccess, ApproveRequest,
         SetProjectRoles, SeatAdmin, GrantGlobalAdmin, FirstRow, VerifiedActive;
    match r
    case DoActivate(account) =>
      if ActivateAccount(a, account).Ok? { ActivateKeeps(a, account); }
      SettleKeeps(a, ActivateAccount(a, account));
    case DoDisable(actor, account) =>
      if Disable(a, now, actor, account).Ok? { DisableKeeps(a, now, account); }
      SettleKeeps(a, Disable(a, now, actor, account));
    case DoGrant(account, project, roles) =>
      if GrantAccess(a, now, account, project, roles).Ok? { GrantKeeps(a, now, account, project, roles); }
      SettleKeeps(a, GrantAccess(a, now, account, project, roles));
    case DoRevoke(account, project) =>
      if RevokeAccess(a, now, account, project).Ok? { RevokeKeeps(a, now, account, project); }
      SettleKeeps(a, RevokeAccess(a, now, account, project));
    case DoApprove(project, requestId, roles) =>
      if ApproveRequest(a, now, project, requestId, roles).Ok? { ApproveKeeps(a, now, project, requestId, roles); }
      SettleKeeps(a, ApproveRequest(a, now, project, requestId, roles));
    case DoSetRoles(project, account, roles) =>
      if SetProjectRoles(a, now, project, account, roles).Ok? { SetRolesKeeps(a, now, project, account, roles); }
      SettleKeeps(a, SetProjectRoles(a, now, project, account, roles));
    case DoGrantProjectAdmin(project, email) =>
      var result := GrantProjectAdmin(a, now, project, email);
      if result.Ok? {
        SeatAdminKeeps(a, now, project, FirstRow(VerifiedActive(a.accounts, Lower(Trim(email)))).value);
      }
      SettleKeeps(a, result);
    case DoGrantGlobalAdmin(email) =>
      var result := GrantGlobalAdmin(a, Lower(Trim(email)));
      if result.Ok? { GrantGlobalAdminKeeps(a, Lower(Trim(email))); }
      SettleKeeps(a, result);
  }

  // ---------------------------------------------------------------- OAuth and upkeep

  lemma ClientKeeps(a: Tables, id: string, project: string, secretHash: string, redirects: seq<string>)
    requires Standing(a) && SubmitClient(a, id, project, secretHash, redirects).Ok?
    ensures Keeps(a, SubmitClient(a, id, project, secretHash, redirects).value)
  {
    ElsewhereKeeps(a, SubmitClient(a, id, project, secretHash, redirects).value);
  }

  lemma AuthorizeKeeps(a: Tables, now: nat, input: AuthorizeInput, code: string)
    requires Standing(a) && Authorize(a, now, input, code).Ok?
    ensures Keeps(a, Authorize(a, now, input, code).value)
  {
    ElsewhereKeeps(a, Authorize(a, now, input, code).value);
  }

  lemma ExchangeKeeps(a: Tables, now: nat, client: string, code: string, redirect: string, challenge: string,
                      refresh: string, family: string, signed: bool)
    requires Standing(a)
    ensures Keeps(a, Exchange(a, now, client, code, redirect, challenge, refresh, family, signed).0)
  {
    hide Exchange, Keeps;
    ExchangeElsewhere(a, now, client, code, redirect, challenge, refresh, family, signed);
    ElsewhereKeeps(a, Exchange(a, now, client, code, redirect, challenge, refresh, family, signed).0);
  }

  lemma RefreshKeeps(a: Tables, client: string, token: string, next: string, hostNow: nat, signed: bool)
    requires Standing(a)
    ensures Keeps(a, Refresh(a, client, token, next, hostNow, signed).0)
  {
    hide Refresh, Keeps;
    RefreshElsewhere(a, client, token, next, hostNow, signed);
    ElsewhereKeeps(a, Refresh(a, client, token, next, hostNow, signed).0);
  }

  lemma OAuthKeeps(a: Tables, now: nat, r: OAuthRequest)
    requires Standing(a)
    ensures Keeps(a, HandleOAuth(a, now, r).0)
  {
    hide Keeps, Standing, Settle, SubmitClient, Authorize, Exchange, Refresh;
    match r
    case DoRegisterClient(client, project, secretHash, redirects) =>
      var result := SubmitClient(a, client, project, secretHash, redirects);
      if result.Ok? { ClientKeeps(a, client, project, secretHash, redirects); }
      SettleKeeps(a, result);
    case DoAuthorize(input, code) =>
      if Authorize(a, now, input, code).Ok? { AuthorizeKeeps(a, now, input, code); }
      SettleKeeps(a, Authorize(a, now, input, code));
    case DoExchange(client, code, redirect, challenge, refresh, family, signed) =>
      ExchangeKeeps(a, now, client, code, redirect, challenge, refresh, family, signed);
    case DoRefresh(client, token, next, hostNow, signed) => RefreshKeeps(a, client, token, next, hostNow, signed);
  }

  lemma UpkeepKeeps(a: Tables, now: nat, r: UpkeepRequest)
    requires Standing(a)
    ensures Keeps(a, HandleUpkeep(a, now, r).0)
  {
    var b := HandleUpkeep(a, now, r).0;
    UpkeepFrame(a, now, r);
    ElsewhereKeeps(a, b);
  }

  lemma UpkeepFrame(a: Tables, now: nat, r: UpkeepRequest)
    ensures var b := HandleUpkeep(a, now, r).0;
            b == a.(verifications := b.verifications, sessions := b.sessions, codes := b.codes, tokens := b.tokens,
                    resets := b.resets, limits := b.limits, keys := b.keys, outbox := b.outbox, lastId := b.lastId)
    ensures a.lastId <= HandleUpkeep(a, now, r).0.lastId
  {
    hide HandleUpkeep;
    if r.DoClean? { CleanRequest(a, now, r); } else { UpkeepElsewhere(a, now, r); }
  }

  lemma TransactionKeeps(a: Tables, now: nat, r: Request)
    requires Standing(a) && Named(r) && !r.Restart?
    ensures Keeps(a, Handle(a, now, r).0)
  {
    hide Keeps, Standing, HandleDirectory, HandleLogin, HandleAdmin, HandleOAuth, HandleUpkeep;
    match r
    case Directory(d) => DirectoryKeeps(a, now, d);
    case Login(l) => LoginKeeps(a, now, l);
    case Admin(m) => AdminKeeps(a, now, m);
    case OAuth(o) => OAuthKeeps(a, now, o);
    case Upkeep(u) => UpkeepKeeps(a, now, u);
    case _ =>
  }
}
