/** The accounts over whole runs: logins are unambiguous, and a password is the last one set. */
module Accounts {
  import opened Order
  import opened Text
  import opened Schema
  import opened Repository
  import opened Import
  import opened Service
  import opened ChangeLog
  import opened Credentials
  import opened Transactions
  import opened History

  // ---------------------------------------------------------------- the invariant

  /** An address and a login that cannot be taken for another account's address. */
  predicate NameOk(p: Profile) {
    && '@' in p.email && Lower(p.email) == p.email && Lower(p.login) == p.login
    && (p.login == p.email || '@' !in p.login)
  }

  /** The unique columns, over two rows. */
  predicate Apart(a: Account, b: Account) {
    && a.profile.email != b.profile.email
    && a.profile.login != b.profile.login
    && (a.oldId.Some? ==> a.oldId != b.oldId)
  }

  predicate AccountsOk(accounts: map<string, Account>) {
    && (forall u :: u in accounts ==> NameOk(accounts[u].profile))
    && (forall u, v :: u in accounts && v in accounts && u != v ==> Apart(accounts[u], accounts[v]))
  }

  /** The stored hashes are of the last passwords set, and a pending upgrade is to the same password. */
  predicate PasswordsOk(w: World) {
    && w.ledger.passwords.Keys == w.db.accounts.Keys
    && (forall u :: u in w.db.accounts ==> w.db.accounts[u].password.password == w.ledger.passwords[u])
    && (forall u :: u in w.ledger.upgrades ==> u.previous.password == u.upgraded.password)
  }

  // ---------------------------------------------------------------- how accounts change

  /** Names and passwords stay. */
  predicate Kept(a: map<string, Account>, b: map<string, Account>) {
    && b.Keys == a.Keys
    && forall u :: u in a ==>
         && b[u].profile.email == a[u].profile.email && b[u].profile.login == a[u].profile.login
         && b[u].oldId == a[u].oldId && b[u].password.password == a[u].password.password
  }

  lemma KeptOk(a: map<string, Account>, b: map<string, Account>)
    requires AccountsOk(a) && Kept(a, b)
    ensures AccountsOk(b)
  {
    forall u, v | u in b && v in b && u != v ensures Apart(b[u], b[v]) { assert Apart(a[u], a[v]); }
  }

  lemma InsertOk(a: map<string, Account>, id: string, account: Account)
    requires AccountsOk(a) && Insertable(a, id, account) && NameOk(account.profile)
    ensures AccountsOk(a[id := account])
  {
    var b := a[id := account];
    forall u, v | u in b && v in b && u != v ensures Apart(b[u], b[v]) {
      if u != id && v != id { assert Apart(a[u], a[v]); }
    }
  }

  lemma RenameOk(a: map<string, Account>, id: string, account: Account)
    requires AccountsOk(a) && id in a && LoginFree(a, id, account.profile.login) && NameOk(account.profile)
    requires account.profile.email == a[id].profile.email && account.oldId == a[id].oldId
    ensures AccountsOk(a[id := account])
  {
    var b := a[id := account];
    forall u, v | u in b && v in b && u != v ensures Apart(b[u], b[v]) {
      assert Apart(a[u], a[v]) && Apart(a[v], a[u]);
    }
  }

  /** A login of the accepted shape is lower case and has no @. */
  lemma LoginShapeIsName(login: string)
    requires LoginShape(login)
    ensures '@' !in login && Lower(login) == login
  {
    forall i | 0 <= i < |login| ensures LowerChar(login[i]) == login[i] { assert login[i] in login; }
  }

  function FormLogin(form: Registration): string {
    if Lower(Trim(form.login)) == "" then Lower(Trim(form.email)) else Lower(Trim(form.login))
  }

  lemma FormIsName(form: Registration, p: Profile)
    requires p.email == Lower(Trim(form.email)) && p.login == FormLogin(form)
    requires AddressShape(p.email) && (p.login == p.email || LoginShape(p.login))
    ensures NameOk(p)
  {
    LowerIsIdempotent(Trim(form.email));
    LowerIsIdempotent(Trim(form.login));
    if p.login != p.email { LoginShapeIsName(p.login); }
  }

  // ---------------------------------------------------------------- the requests that insert or rename

  lemma RegisterAccounts(a: Tables, now: nat, id: string, form: Registration, password: StoredPassword, ticket: string)
    requires AccountsOk(a.accounts) && Register(a, now, id, form, password, ticket).Ok?
    ensures var b := Register(a, now, id, form, password, ticket).value;
            && id !in a.accounts && id in b.accounts && b.accounts == a.accounts[id := b.accounts[id]]
            && b.accounts[id].password == password && AccountsOk(b.accounts)
  {
    hide Lower, Trim, AccountsOk, LoginShape;
    var b := Register(a, now, id, form, password, ticket).value;
    FormIsName(form, b.accounts[id].profile);
    InsertOk(a.accounts, id, b.accounts[id]);
  }

  lemma RenameAccounts(a: Tables, now: nat, id: string, rawLogin: string, rawGiven: string, rawFamily: string,
                       rawAvatar: string)
    requires AccountsOk(a.accounts) && SubmitProfile(a, now, id, rawLogin, rawGiven, rawFamily, rawAvatar).Ok?
    ensures var b := SubmitProfile(a, now, id, rawLogin, rawGiven, rawFamily, rawAvatar).value;
            && id in a.accounts && id in b.accounts && b.accounts == a.accounts[id := b.accounts[id]]
            && b.accounts[id].password == a.accounts[id].password && AccountsOk(b.accounts)
  {
    hide Lower, Trim, AccountsOk, LoginShape;
    var b := SubmitProfile(a, now, id, rawLogin, rawGiven, rawFamily, rawAvatar).value;
    LoginShapeIsName(Lower(Trim(rawLogin)));
    RenamedIsName(a.accounts, id, b.accounts[id].profile);
    RenameOk(a.accounts, id, b.accounts[id]);
  }

  lemma RenamedIsName(accounts: map<string, Account>, id: string, p: Profile)
    requires AccountsOk(accounts) && id in accounts && p.email == accounts[id].profile.email
    requires '@' !in p.login && Lower(p.login) == p.login
    ensures NameOk(p)
  {
  }

  /** An import only inserts: the accounts already there are untouched. */
  predicate Inserts(a: map<string, Account>, b: map<string, Account>) {
    a.Keys <= b.Keys && forall u :: u in a ==> b[u] == a[u]
  }

  lemma ImportUserAccounts(a: Tables, now: nat, u: LegacyUser, id: string)
    requires AccountsOk(a.accounts) && WellFormed(u) && ImportUser(a, now, u, id).Ok?
    ensures var b := ImportUser(a, now, u, id).value; AccountsOk(b.accounts) && Inserts(a.accounts, b.accounts)
  {
    hide AccountsOk, Lower, Trim, RolesOf;
    var b := ImportUser(a, now, u, id).value;
    if !Imported(a, u) {
      LowerIsIdempotent(Trim(u.email));
      InsertOk(a.accounts, id, AccountOf(u));
    }
  }

  lemma {:induction false} ImportAccounts(a: Tables, now: nat, users: seq<LegacyUser>, ids: seq<string>)
    requires |users| == |ids| && forall i :: 0 <= i < |users| ==> WellFormed(users[i])
    requires AccountsOk(a.accounts) && ImportAll(a, now, users, ids).Ok?
    ensures var b := ImportAll(a, now, users, ids).value; AccountsOk(b.accounts) && Inserts(a.accounts, b.accounts)
  {
    hide AccountsOk, WellFormed, ImportUser;
    if users != [] {
      var mid := ImportAll(a, now, users[..|users| - 1], ids[..|ids| - 1]).value;
      ImportAccounts(a, now, users[..|users| - 1], ids[..|ids| - 1]);
      ImportUserAccounts(mid, now, users[|users| - 1], ids[|ids| - 1]);
    }
  }

  // ---------------------------------------------------------------- the requests that keep names

  lemma SameIsKept(a: map<string, Account>)
    ensures Kept(a, a)
  {
  }

  lemma OneIsKept(a: map<string, Account>, id: string, account: Account)
    requires id in a && account.password.password == a[id].password.password && account.oldId == a[id].oldId
    requires account.profile.email == a[id].profile.email && account.profile.login == a[id].profile.login
    ensures Kept(a, a[id := account])
  {
  }

  lemma VerifiedIsKept(a: map<string, Account>, id: string)
    ensures Kept(a, MarkVerified(a, id))
  {
  }

  lemma UpgradeIsKept(a: Tables, id: string, previous: StoredPassword, upgraded: StoredPassword)
    requires previous.password == upgraded.password
    ensures Kept(a.accounts, UpgradePasswordHash(a, id, previous, upgraded).accounts)
  {
    hide Kept;
    SameIsKept(a.accounts);
    if id in a.accounts && a.accounts[id].password == previous {
      OneIsKept(a.accounts, id, a.accounts[id].(password := upgraded));
    }
  }

  lemma SettleKept(a: Tables, result: Result<Tables>)
    requires result.Ok? ==> Kept(a.accounts, result.value.accounts)
    ensures Kept(a.accounts, Settle(a, result).0.accounts)
  {
    SameIsKept(a.accounts);
  }

  lemma AdminIsKept(a: Tables, now: nat, r: AdminRequest)
    ensures Kept(a.accounts, HandleAdmin(a, now, r).0.accounts)
  {
    hide Kept, Settle, OnlyRevokes, GrantAccess, RevokeAccess, ApproveRequest, SetProjectRoles, GrantProjectAdmin,
         ActivateAccount, DisableAccount, GrantGlobalAdmin, Trim, Lower;
    SameIsKept(a.accounts);
    match r
    case DoActivate(account) =>
      if ActivateAccount(a, account).Ok? { ActivateIsKept(a, account); }
      SettleKept(a, ActivateAccount(a, account));
    case DoDisable(actor, account) =>
      if Disable(a, now, actor, account).Ok? { DisableIsKept(a, now, account); }
      SettleKept(a, Disable(a, now, actor, account));
    case DoGrant(account, project, roles) => SettleKept(a, GrantAccess(a, now, account, project, roles));
    case DoRevoke(account, project) =>
      RevokeIsKept(a, now, account, project);
      SettleKept(a, RevokeAccess(a, now, account, project));
    case DoApprove(project, requestId, roles) => SettleKept(a, ApproveRequest(a, now, project, requestId, roles));
    case DoSetRoles(project, account, roles) => SettleKept(a, SetProjectRoles(a, now, project, account, roles));
    case DoGrantProjectAdmin(project, email) => SettleKept(a, GrantProjectAdmin(a, now, project, email));
    case DoGrantGlobalAdmin(email) =>
      if GrantGlobalAdmin(a, Lower(Trim(email))).Ok? { GlobalIsKept(a, Lower(Trim(email))); }
      SettleKept(a, GrantGlobalAdmin(a, Lower(Trim(email))));
  }

  lemma ActivateIsKept(a: Tables, id: string)
    requires ActivateAccount(a, id).Ok?
    ensures Kept(a.accounts, ActivateAccount(a, id).value.accounts)
  {
  }

  lemma DisableIsKept(a: Tables, now: nat, id: string)
    requires DisableAccount(a, now, id).Ok?
    ensures Kept(a.accounts, DisableAccount(a, now, id).value.accounts)
  {
    hide Kept;
    OneIsKept(a.accounts, id, a.accounts[id].(status := Inactive));
  }

  lemma RevokeIsKept(a: Tables, now: nat, account: string, project: string)
    ensures RevokeAccess(a, now, account, project).Ok? ==>
              Kept(a.accounts, RevokeAccess(a, now, account, project).value.accounts)
  {
  }

  lemma GlobalIsKept(a: Tables, email: string)
    requires GrantGlobalAdmin(a, email).Ok?
    ensures Kept(a.accounts, GrantGlobalAdmin(a, email).value.accounts)
  {
  }

  lemma LegacyIsKept(a: Tables, now: nat, project: string, id: string, name: string, avatar: string)
    requires UpdateLegacyProfile(a, now, project, id, name, avatar).Ok?
    ensures Kept(a.accounts, UpdateLegacyProfile(a, now, project, id, name, avatar).value.accounts)
  {
    var b := UpdateLegacyProfile(a, now, project, id, name, avatar).value;
    OneIsKept(a.accounts, id, b.accounts[id]);
  }

  lemma OAuthIsKept(a: Tables, now: nat, r: OAuthRequest)
    ensures HandleOAuth(a, now, r).0.accounts == a.accounts
  {
    hide Settle, SubmitClient, Authorize, Exchange, Refresh;
    match r
    case DoRegisterClient(client, project, secretHash, redirects) =>
      ClientSame(a, client, project, secretHash, redirects);
    case DoAuthorize(input, code) => AuthorizeCases(a, now, input, code);
    case DoExchange(client, code, redirect, challenge, refresh, family, signed) =>
      ExchangeCases(a, now, client, code, redirect, challenge, refresh, family, signed);
    case DoRefresh(client, token, next, hostNow, signed) => RotationCases(a, client, token, next, hostNow, signed);
  }

  lemma ClientSame(a: Tables, id: string, project: string, secretHash: string, redirects: seq<string>)
    ensures Settle(a, SubmitClient(a, id, project, secretHash, redirects)).0.accounts == a.accounts
  {
  }

  lemma UpkeepIsKept(a: Tables, now: nat, r: UpkeepRequest)
    ensures HandleUpkeep(a, now, r).0.accounts == a.accounts
  {
    hide Clean, HandleUpkeep;
    if r.DoClean? { CleanRequest(a, now, r); } else { UpkeepElsewhere(a, now, r); }
  }

  // ---------------------------------------------------------------- every request

  predicate AllOk(w: World) {
    AccountsOk(w.db.accounts) && PasswordsOk(w)
  }

  lemma KeptAllOk(w: World, v: World)
    requires AllOk(w) && Kept(w.db.accounts, v.db.accounts)
    requires v.ledger.passwords == w.ledger.passwords && v.ledger.upgrades == w.ledger.upgrades
    ensures AllOk(v)
  {
    KeptOk(w.db.accounts, v.db.accounts);
  }

  lemma DirectoryAllOk(w: World, r: DirectoryRequest)
    requires AllOk(w)
    ensures AllOk(Serve(w, Directory(r)))
  {
    hide AllOk, HandleDirectory;
    match r
    case DoRegister(_, _, _, _) => RegisterAllOk(w, r);
    case DoImport(_, _) => ImportAllOk(w, r);
    case _ =>
      var v := Serve(w, Directory(r));
      RenamingAllOk(w, v, r);
  }

  lemma RegisterAllOk(w: World, r: DirectoryRequest)
    requires AllOk(w) && r.DoRegister?
    ensures AllOk(Serve(w, Directory(r)))
  {
    hide AccountsOk, Register;
    var result := Register(w.db, w.clock, r.id, r.form, r.password, r.ticket);
    if result.Ok? { RegisterAccounts(w.db, w.clock, r.id, r.form, r.password, r.ticket); }
  }

  lemma ImportAllOk(w: World, r: DirectoryRequest)
    requires AllOk(w) && r.DoImport?
    ensures AllOk(Serve(w, Directory(r)))
  {
    hide AccountsOk, ImportAll, WellFormed;
    var result := ImportUsers(w.db, w.clock, r.users, r.ids);
    if result.Ok? { ImportAccounts(w.db, w.clock, r.users, r.ids); }
  }

  lemma RenamingAllOk(w: World, v: World, r: DirectoryRequest)
    requires AllOk(w) && !r.DoRegister? && !r.DoImport? && v == Serve(w, Directory(r))
    ensures AllOk(v)
  {
    hide AllOk, Kept, Settle, ResendVerification, VerifyEmail, SubmitProfile, UpdateLegacyProfile, SubmitAccessRequest;
    var a := w.db;
    SameIsKept(a.accounts);
    match r
    case DoResendVerification(email, ticket) =>
      ResendSame(a, w.clock, email, ticket);
      SettleKept(a, ResendVerification(a, w.clock, email, ticket));
      KeptAllOk(w, v);
    case DoVerifyEmail(ticket) =>
      if VerifyEmail(a, w.clock, ticket).Ok? { VerifyIsKept(a, w.clock, ticket); }
      SettleKept(a, VerifyEmail(a, w.clock, ticket));
      KeptAllOk(w, v);
    case DoUpdateLegacyProfile(project, account, name, avatar) =>
      if UpdateLegacyProfile(a, w.clock, project, account, name, avatar).Ok? {
        LegacyIsKept(a, w.clock, project, account, name, avatar);
      }
      SettleKept(a, UpdateLegacyProfile(a, w.clock, project, account, name, avatar));
      KeptAllOk(w, v);
    case DoRequestAccess(requestId, account, project) =>
      RequestSame(a, requestId, account, project);
      SettleKept(a, SubmitAccessRequest(a, requestId, account, project));
      KeptAllOk(w, v);
    case DoUpdateProfile(_, _, _, _, _) => RenameAllOk(w, r);
    case _ =>
  }

  lemma ResendSame(a: Tables, now: nat, email: string, ticket: string)
    ensures var r := ResendVerification(a, now, email, ticket); r.Ok? ==> r.value.accounts == a.accounts
  {
  }

  lemma RequestSame(a: Tables, requestId: string, account: string, project: string)
    ensures var r := SubmitAccessRequest(a, requestId, account, project); r.Ok? ==> r.value.accounts == a.accounts
  {
    hide RequestAccess;
  }

  lemma VerifyIsKept(a: Tables, now: nat, ticket: string)
    requires VerifyEmail(a, now, ticket).Ok?
    ensures Kept(a.accounts, VerifyEmail(a, now, ticket).value.accounts)
  {
    hide Kept;
    VerifiedIsKept(a.accounts, a.verifications[ticket].account);
  }

  lemma RenameAllOk(w: World, r: DirectoryRequest)
    requires AllOk(w) && r.DoUpdateProfile?
    ensures AllOk(Serve(w, Directory(r)))
  {
    hide AccountsOk, SubmitProfile;
    var result := SubmitProfile(w.db, w.clock, r.account, r.login, r.given, r.familyName, r.avatar);
    if result.Ok? { RenameAccounts(w.db, w.clock, r.account, r.login, r.given, r.familyName, r.avatar); }
  }

  lemma SetPasswordOk(accounts: map<string, Account>, id: string, password: StoredPassword)
    requires AccountsOk(accounts)
    ensures AccountsOk(SetPassword(accounts, id, password))
  {
    if id in accounts {
      var b := accounts[id := accounts[id].(password := password)];
      forall u, v | u in b && v in b && u != v ensures Apart(b[u], b[v]) { assert Apart(accounts[u], accounts[v]); }
    }
  }

  lemma PasswordAccounts(a: Tables, now: nat, id: string, password: StoredPassword)
    requires RevokePasswordSessions(a, now, id, password).Ok?
    ensures RevokePasswordSessions(a, now, id, password).value.accounts == SetPassword(a.accounts, id, password)
  {
  }

  lemma LoginAllOk(w: World, r: LoginRequest)
    requires AllOk(w) && Admissible(w, Login(r))
    ensures AllOk(Serve(w, Login(r)))
  {
    hide AllOk, Kept, HandleLogin, Opens;
    match r
    case DoLogin(_, _, _, _) => SignInAllOk(w, r);
    case DoForgotPassword(_, _) => ForgotAllOk(w, r);
    case FinishUpgrade(u) => UpgradeAllOk(w, r);
    case DoResetPassword(_, _) => ResetAllOk(w, r);
    case DoChangePassword(_, _, _) => ChangeAllOk(w, r);
    case _ =>
      SessionsOnly(w.db, w.clock, r);
      SameIsKept(w.db.accounts);
      KeptAllOk(w, Serve(w, Login(r)));
  }

  lemma SessionsOnly(a: Tables, now: nat, r: LoginRequest)
    requires r.CheckSession? || r.Logout?
    ensures HandleLogin(a, now, r).0 == a.(sessions := HandleLogin(a, now, r).0.sessions)
  {
    hide SessionAccount;
  }

  /** The hash a login leaves to be upgraded is of the password typed, and so is its replacement. */
  lemma SignInAllOk(w: World, r: LoginRequest)
    requires AllOk(w) && r.DoLogin? && Admissible(w, Login(r))
    ensures AllOk(Serve(w, Login(r)))
  {
    hide AccountsOk, LoginMatches;
    var result := WithLogin(w.db, w.clock, Lower(Trim(r.identifier)), r.attempt, r.session);
    assert result.Ok? ==> result.value.1 in w.db.accounts
                          && w.db.accounts[result.value.1].password.Verifies(r.attempt) by {
      SignedIn(w.db, w.clock, Lower(Trim(r.identifier)), r.attempt, r.session);
    }
  }

  lemma SignedIn(a: Tables, now: nat, identifier: string, attempt: string, session: string)
    ensures var result := WithLogin(a, now, identifier, attempt, session);
            result.Ok? ==>
              && result.value.1 in LoginMatches(a.accounts, identifier) && result.value.1 in a.accounts
              && a.accounts[result.value.1].password.Verifies(attempt)
              && result.value.0.accounts == a.accounts
  {
  }

  lemma ForgotAllOk(w: World, r: LoginRequest)
    requires AllOk(w) && r.DoForgotPassword?
    ensures AllOk(Serve(w, Login(r)))
  {
    hide AllOk, Kept, HandleLogin;
    OpensOne(w.db, w.clock, r);
    SameIsKept(w.db.accounts);
    KeptAllOk(w, Serve(w, Login(r)));
  }

  lemma UpgradeAllOk(w: World, r: LoginRequest)
    requires AllOk(w) && r.FinishUpgrade? && Admissible(w, Login(r))
    ensures AllOk(Serve(w, Login(r)))
  {
    hide AccountsOk, Kept, UpgradePasswordHash;
    UpgradeIsKept(w.db, r.upgrade.account, r.upgrade.previous, r.upgrade.upgraded);
    KeptAllOk(w, Serve(w, Login(r)));
  }

  lemma ResetAllOk(w: World, r: LoginRequest)
    requires AllOk(w) && r.DoResetPassword?
    ensures AllOk(Serve(w, Login(r)))
  {
    hide AccountsOk, RevokePasswordSessions;
    var result := SubmitReset(w.db, w.clock, r.ticket, r.password);
    if result.Ok? {
      var id := w.db.resets[r.ticket].account;
      var used := w.db.(resets := w.db.resets[r.ticket := w.db.resets[r.ticket].(used := true)]);
      PasswordAccounts(used, w.clock, id, r.password);
      SetPasswordOk(w.db.accounts, id, r.password);
    }
  }

  lemma ChangeAllOk(w: World, r: LoginRequest)
    requires AllOk(w) && r.DoChangePassword?
    ensures AllOk(Serve(w, Login(r)))
  {
    hide AccountsOk, RevokePasswordSessions;
    var result := SubmitPassword(w.db, w.clock, r.account, r.attempt, r.password);
    if result.Ok? {
      PasswordAccounts(w.db, w.clock, r.account, r.password);
      SetPasswordOk(w.db.accounts, r.account, r.password);
    }
  }

  lemma PromoteIsKept(a: map<string, Account>, ids: set<string>)
    ensures Kept(a, Promote(a, ids))
  {
  }

  lemma AdminIsNamed(email: string, password: StoredPassword)
    requires AddressShape(email) && Lower(email) == email
    ensures NameOk(AdminAccount(email, password).profile)
  {
  }

  /** The accounts after a start: kept, or one administrator more. */
  lemma BootAccounts(a: Tables, s: Setup)
    ensures var b := Boot(a, s).0;
            || Kept(a.accounts, b.accounts)
            || (&& s.adminEmail != "" && s.adminPassword.Some?
                && var admin := AdminAccount(s.adminEmail, s.adminPassword.value);
                   Insertable(a.accounts, s.adminId, admin) && b.accounts == a.accounts[s.adminId := admin])
  {
    hide Kept, Insertable, EnsureProject, EnsureAdmin;
    SameIsKept(a.accounts);
    if s.adminPassword.Some? {
      AdminsKept(EnsureProject(a, s.project, s.client, s.secretHash, s.redirect), s, s.adminPassword.value);
    }
  }

  lemma AdminsKept(a: Tables, s: Setup, password: StoredPassword)
    ensures var b := EnsureAdmin(a, s.project, s.adminId, s.adminEmail, password);
            var admin := AdminAccount(s.adminEmail, password);
            || Kept(a.accounts, b.accounts)
            || (Insertable(a.accounts, s.adminId, admin) && b.accounts == a.accounts[s.adminId := admin])
  {
    hide Kept, Insertable, Promote, WithEmail, SeatAdmins, Seated, AdminAccount;
    SameIsKept(a.accounts);
    PromoteIsKept(a.accounts, WithEmail(a.accounts, s.adminEmail));
  }

  lemma BootAllOk(w: World, s: Setup)
    requires AllOk(w) && Admissible(w, Restart(s))
    ensures AllOk(Serve(w, Restart(s)))
  {
    hide Boot, AccountsOk, Insertable, AdminAccount, NameOk;
    var v := Serve(w, Restart(s));
    BootAccounts(w.db, s);
    if Kept(w.db.accounts, v.db.accounts) {
      KeptOk(w.db.accounts, v.db.accounts);
    } else {
      var admin := AdminAccount(s.adminEmail, s.adminPassword.value);
      AdminIsNamed(s.adminEmail, s.adminPassword.value);
      assert s.adminId !in w.db.accounts by { InsertableIsNew(w.db.accounts, s.adminId, admin); }
      InsertOk(w.db.accounts, s.adminId, admin);
    }
  }

  lemma ServeAllOk(w: World, r: Request)
    requires AllOk(w) && Admissible(w, r)
    ensures AllOk(Serve(w, r))
  {
    hide AllOk, Kept, HandleDirectory, HandleLogin, HandleAdmin, HandleOAuth, HandleUpkeep, Boot;
    SameIsKept(w.db.accounts);
    match r
    case Restart(s) => BootAllOk(w, s);
    case Directory(d) => DirectoryAllOk(w, d);
    case Login(l) => LoginAllOk(w, l);
    case Admin(m) =>
      AdminIsKept(w.db, w.clock, m);
      KeptAllOk(w, Serve(w, r));
    case OAuth(o) =>
      OAuthIsKept(w.db, w.clock, o);
      KeptAllOk(w, Serve(w, r));
    case Upkeep(u) =>
      UpkeepIsKept(w.db, w.clock, u);
      KeptAllOk(w, Serve(w, r));
  }

  lemma {:induction false} RunAllOk(w: World, rs: seq<Request>)
    requires AllOk(w) && AdmissibleRun(w, rs)
    ensures AllOk(Run(w, rs))
  {
    hide AllOk, Serve, Admissible;
    if rs != [] {
      RunAllOk(w, rs[..|rs| - 1]);
      ServeAllOk(Run(w, rs[..|rs| - 1]), rs[|rs| - 1]);
    }
  }

  // ---------------------------------------------------------------- what the invariant means

  /** In every reachable state, whatever is typed at the login form matches one account at most: the row the query
      reads first is the only one. */
  lemma LoginIsUnambiguous(w: World, rs: seq<Request>, identifier: string, u: string, v: string)
    requires AllOk(w) && AdmissibleRun(w, rs)
    requires var accounts := Run(w, rs).db.accounts;
             u in LoginMatches(accounts, identifier) && v in LoginMatches(accounts, identifier)
    ensures u == v
  {
    hide Serve, Admissible;
    RunAllOk(w, rs);
    MatchIsUnique(Run(w, rs).db.accounts, identifier, u, v);
  }

  lemma MatchIsUnique(accounts: map<string, Account>, identifier: string, u: string, v: string)
    requires AccountsOk(accounts) && u in LoginMatches(accounts, identifier) && v in LoginMatches(accounts, identifier)
    ensures u == v
  {
    assert u != v ==> Apart(accounts[u], accounts[v]);
  }

  /** In every reachable state a login succeeds only with the last password set for the account it finds, however
      many bcrypt upgrades were finished late in between. */
  lemma LastPasswordCounts(w: World, rs: seq<Request>, r: LoginRequest)
    requires AllOk(w) && AdmissibleRun(w, rs) && r.DoLogin?
    requires var v := Run(w, rs); Handle(v.db, v.clock, Login(r)).1.Accepted?
    ensures var v := Run(w, rs);
            var reply := Handle(v.db, v.clock, Login(r)).1;
            && reply.info.UserId? && reply.info.id in v.ledger.passwords
            && r.attempt == v.ledger.passwords[reply.info.id]
  {
    hide Serve, Admissible, WithLogin, AccountsOk, LoginMatches;
    RunAllOk(w, rs);
    var v := Run(w, rs);
    SignedIn(v.db, v.clock, Lower(Trim(r.identifier)), r.attempt, r.session);
  }

  /** Finishing an upgrade changes no account's password, at whatever time after the login it happens. */
  lemma UpgradeIsInvisible(w: World, rs: seq<Request>, upgrade: Upgrade, id: string)
    requires AllOk(w) && AdmissibleRun(w, rs)
    requires upgrade in Run(w, rs).ledger.upgrades && id in Run(w, rs).db.accounts
    ensures var a := Run(w, rs).db;
            var b := UpgradePasswordHash(a, upgrade.account, upgrade.previous, upgrade.upgraded);
            id in b.accounts && b.accounts[id].password.password == a.accounts[id].password.password
  {
    hide Serve, Admissible, UpgradePasswordHash, AccountsOk;
    RunAllOk(w, rs);
    UpgradeIsKept(Run(w, rs).db, upgrade.account, upgrade.previous, upgrade.upgraded);
  }

  // ---------------------------------------------------------------- the import

  /** What a preflight that reported no conflict for a user has established, whichever row it read. */
  predicate NoConflict(db: Tables, u: LegacyUser) {
    PreflightRows(db, u) == {} || Imported(db, u)
  }

  /** The accounts after an import: the old ones, and new ones with the addresses of the file. */
  predicate Grown(a: map<string, Account>, b: map<string, Account>, users: seq<LegacyUser>, ids: seq<string>)
    requires |users| == |ids|
  {
    forall id :: id in b ==>
      || (id in a && b[id] == a[id])
      || exists i :: 0 <= i < |ids| && ids[i] == id && users[i].email == b[id].profile.email
  }

  lemma NewUserFits(db: Tables, mid: Tables, users: seq<LegacyUser>, ids: seq<string>, u: LegacyUser, id: string)
    requires |users| == |ids| && Grown(db.accounts, mid.accounts, users, ids)
    requires AccountsOk(db.accounts) && AccountsOk(mid.accounts)
    requires id !in db.accounts && id !in ids && WellFormed(u) && NoConflict(db, u)
    requires forall i :: 0 <= i < |users| ==> users[i].email != u.email
    requires Inserts(db.accounts, mid.accounts) && !Imported(mid, u)
    ensures Insertable(mid.accounts, id, AccountOf(u))
  {
    assert !Imported(db, u);
    LowerIsIdempotent(Trim(u.email));
    forall o | o in mid.accounts
      ensures mid.accounts[o].profile.email != u.email && Lower(mid.accounts[o].profile.login) != u.email
    {
      assert NameOk(mid.accounts[o].profile);
      if o in db.accounts && mid.accounts[o] == db.accounts[o] {
        assert o !in PreflightRows(db, u);
      }
    }
  }

  lemma ImportUserInserts(mid: Tables, now: nat, u: LegacyUser, id: string)
    requires Standing(mid) && PROJECT in mid.projects && id != "" && !Imported(mid, u)
    requires Insertable(mid.accounts, id, AccountOf(u))
    ensures var r := ImportUser(mid, now, u, id);
            r.Ok? && r.value.accounts == mid.accounts[id := AccountOf(u)] && Imported(r.value, u)
  {
    hide Imported, RolesOf;
    var r := ImportUser(mid, now, u, id);
    assert r.Ok? && r.value.accounts == mid.accounts[id := AccountOf(u)];
    NowImported(r.value, u, id);
  }

  lemma NowImported(db: Tables, u: LegacyUser, id: string)
    requires id in db.accounts && db.accounts[id] == AccountOf(u)
    ensures Imported(db, u)
  {
  }

  lemma ImportUserSucceeds(db: Tables, mid: Tables, now: nat, users: seq<LegacyUser>, ids: seq<string>, u: LegacyUser,
                           id: string)
    requires |users| == |ids| && Grown(db.accounts, mid.accounts, users, ids)
    requires AccountsOk(db.accounts) && AccountsOk(mid.accounts) && Standing(mid) && PROJECT in mid.projects
    requires id != "" && id !in db.accounts && id !in ids && WellFormed(u) && NoConflict(db, u)
    requires forall i :: 0 <= i < |users| ==> users[i].email != u.email
    requires Inserts(db.accounts, mid.accounts)
    ensures var r := ImportUser(mid, now, u, id);
            r.Ok? && Imported(r.value, u) && Grown(db.accounts, r.value.accounts, users + [u], ids + [id])
  {
    hide AccountsOk, WellFormed, NoConflict, Grown, Insertable, Imported, Standing, LogSeat;
    if Imported(mid, u) {
      GrownGrows(db.accounts, mid.accounts, users, ids, u, id);
    } else {
      NewUserFits(db, mid, users, ids, u, id);
      ImportUserInserts(mid, now, u, id);
      GrownGrows(db.accounts, mid.accounts, users, ids, u, id);
      GrownByOne(db.accounts, mid.accounts, users, ids, u, id);
    }
  }

  lemma GrownByOne(a: map<string, Account>, b: map<string, Account>, users: seq<LegacyUser>, ids: seq<string>,
                   u: LegacyUser, id: string)
    requires |users| == |ids| && Grown(a, b, users + [u], ids + [id])
    ensures Grown(a, b[id := AccountOf(u)], users + [u], ids + [id])
  {
    assert (ids + [id])[|ids|] == id && (users + [u])[|ids|].email == AccountOf(u).profile.email;
  }

  lemma GrownGrows(a: map<string, Account>, b: map<string, Account>, users: seq<LegacyUser>, ids: seq<string>,
                   u: LegacyUser, id: string)
    requires |users| == |ids| && Grown(a, b, users, ids)
    ensures Grown(a, b, users + [u], ids + [id])
  {
    forall o | o in b && !(o in a && b[o] == a[o])
      ensures exists i :: 0 <= i < |ids + [id]| && (ids + [id])[i] == o && (users + [u])[i].email == b[o].profile.email
    {
      var i :| 0 <= i < |ids| && ids[i] == o && users[i].email == b[o].profile.email;
      assert (ids + [id])[i] == o && (users + [u])[i] == users[i];
    }
  }

  predicate AllImported(db: Tables, users: seq<LegacyUser>) {
    forall i :: 0 <= i < |users| ==> Imported(db, users[i])
  }

  lemma ImportedStays(a: Tables, b: Tables, users: seq<LegacyUser>)
    requires AllImported(a, users) && Inserts(a.accounts, b.accounts)
    ensures AllImported(b, users)
  {
    forall i | 0 <= i < |users| ensures Imported(b, users[i]) {
      assert Imported(a, users[i]);
      var id :| id in a.accounts && a.accounts[id].oldId == Some(users[i].oldId);
      assert id in b.accounts && b.accounts[id].oldId == Some(users[i].oldId);
    }
  }

  predicate FreshIds(accounts: map<string, Account>, ids: seq<string>) {
    && (forall i :: 0 <= i < |ids| ==> ids[i] != "" && ids[i] !in accounts)
    && (forall i, j :: 0 <= i < j < |ids| ==> ids[i] != ids[j])
  }

  /** An import whose preflight can report no conflict breaks no constraint: the transaction commits, and afterwards
      every user of the file is imported. */
  lemma {:induction false} ImportSucceeds(db: Tables, now: nat, users: seq<LegacyUser>, ids: seq<string>)
    requires |users| == |ids| && Readable(users) && FreshIds(db.accounts, ids)
    requires AccountsOk(db.accounts) && Standing(db) && PROJECT in db.projects
    requires forall i :: 0 <= i < |users| ==> NoConflict(db, users[i])
    ensures var r := ImportAll(db, now, users, ids);
            r.Ok? && Grown(db.accounts, r.value.accounts, users, ids) && AllImported(r.value, users)
  {
    hide AccountsOk, Standing, WellFormed, NoConflict, ImportUser, Imported, Grown;
    if users == [] {
      GrownFromItself(db.accounts, users, ids);
    } else {
      var n := |users| - 1;
      var u, id := users[n], ids[n];
      ImportSucceeds(db, now, users[..n], ids[..n]);
      var mid := ImportAll(db, now, users[..n], ids[..n]).value;
      ImportAccounts(db, now, users[..n], ids[..n]);
      ImportLogs(db, now, users[..n], ids[..n]);
      ImportUserSucceeds(db, mid, now, users[..n], ids[..n], u, id);
      ImportUserAccounts(mid, now, u, id);
      ImportedStays(mid, ImportUser(mid, now, u, id).value, users[..n]);
      assert users == users[..n] + [u] && ids == ids[..n] + [id];
    }
  }

  lemma GrownFromItself(a: map<string, Account>, users: seq<LegacyUser>, ids: seq<string>)
    requires |users| == |ids|
    ensures Grown(a, a, users, ids)
  {
  }

  /** Importing the same users again changes nothing. */
  lemma {:induction false} SecondImportIsNothing(db: Tables, now: nat, users: seq<LegacyUser>, ids: seq<string>)
    requires |users| == |ids| && AllImported(db, users)
    ensures ImportAll(db, now, users, ids) == Ok(db)
  {
    if users != [] {
      SecondImportIsNothing(db, now, users[..|users| - 1], ids[..|ids| - 1]);
    }
  }
}
