/** One account through the requests: what becomes of its row, told from the request and its answer. */
module OneAccount {
  import opened Text
  import opened Schema
  import opened Repository
  import opened Import
  import opened Service
  import opened Credentials
  import opened Accounts
  import opened ChangeLog
  import opened Transactions

  // ---------------------------------------------------------------- the row

  /** A start with an administrator of that address makes the account an administrator. */
  predicate Promotes(s: Setup, email: string) {
    s.adminPassword.Some? && s.adminEmail != "" && s.adminEmail == email
  }

  /** What the profile page asks for. */
  function Renamed(p: Profile, login: string, given: string, familyName: string, avatar: string): Profile {
    p.(login := Lower(Trim(login)), given := Trim(given), family := Trim(familyName),
       name := Trim(Trim(given) + " " + Trim(familyName)), avatar := Trim(avatar))
  }

  /** What a legacy client asks for: one name, which stands for the given name too. */
  function Relabeled(p: Profile, name: string, avatar: string): Profile {
    p.(name := name, given := name, family := "", avatar := avatar)
  }

  function AfterDirectory(db: Tables, r: DirectoryRequest, id: string): Account
    requires id in db.accounts
  {
    var a := db.accounts[id];
    match r
    case DoVerifyEmail(ticket) =>
      if ticket in db.verifications && db.verifications[ticket].account == id then a.(verified := true) else a
    case DoUpdateProfile(account, login, given, familyName, avatar) =>
      if account == id then a.(profile := Renamed(a.profile, login, given, familyName, avatar)) else a
    case DoUpdateLegacyProfile(_, account, name, avatar) =>
      if account == id then a.(profile := Relabeled(a.profile, name, avatar)) else a
    case _ => a
  }

  function AfterLogin(db: Tables, r: LoginRequest, id: string): Account
    requires id in db.accounts
  {
    var a := db.accounts[id];
    match r
    case FinishUpgrade(u) => if u.account == id && u.previous == a.password then a.(password := u.upgraded) else a
    case DoResetPassword(ticket, password) =>
      if ticket in db.resets && db.resets[ticket].account == id then a.(password := password) else a
    case DoChangePassword(account, _, password) => if account == id then a.(password := password) else a
    case _ => a
  }

  function AfterAdmin(db: Tables, r: AdminRequest, id: string): Account
    requires id in db.accounts
  {
    var a := db.accounts[id];
    match r
    case DoActivate(account) => if account == id then a.(status := Active) else a
    case DoDisable(_, account) => if account == id then a.(status := Inactive) else a
    case DoGrantGlobalAdmin(email) => if a.profile.email == Lower(Trim(email)) then a.(globalAdmin := true) else a
    case _ => a
  }

  /** The account after a request: changed by the requests that name it, its address, or a ticket of its own, and by
      nothing else. */
  function AccountNext(db: Tables, r: Request, reply: Reply, id: string): Account
    requires id in db.accounts
  {
    var a := db.accounts[id];
    match r
    case Restart(s) =>
      if Promotes(s, a.profile.email) then a.(status := Active, verified := true, globalAdmin := true) else a
    case Directory(d) => if reply.Accepted? then AfterDirectory(db, d, id) else a
    case Login(l) => if reply.Accepted? then AfterLogin(db, l, id) else a
    case Admin(m) => if reply.Accepted? then AfterAdmin(db, m, id) else a
    case _ => a
  }

  /** The requests that may insert an account of that id. */
  predicate Inserts(r: Request, reply: Reply, id: string) {
    match r
    case Directory(DoRegister(i, _, _, _)) => reply.Accepted? && i == id
    case Directory(DoImport(_, ids)) => reply.Accepted? && id in ids
    case Restart(s) => s.adminPassword.Some? && s.adminEmail != "" && s.adminId == id
    case _ => false
  }

  /** Old accounts become what `AccountNext` says, and new ones are those the request inserts. */
  predicate AccountsFollow(a: Tables, b: Tables, r: Request, reply: Reply) {
    && (forall id :: id in a.accounts ==> id in b.accounts && b.accounts[id] == AccountNext(a, r, reply, id))
    && (forall id :: id in b.accounts && id !in a.accounts ==> Inserts(r, reply, id))
  }

  // ---------------------------------------------------------------- the directory

  lemma RegisterFollows(a: Tables, now: nat, id: string, form: Registration, password: StoredPassword, ticket: string)
    requires Register(a, now, id, form, password, ticket).Ok?
    ensures var b := Register(a, now, id, form, password, ticket).value;
            id !in a.accounts && id in b.accounts && b.accounts == a.accounts[id := b.accounts[id]]
  {
    hide Lower, Trim, LoginShape;
  }

  lemma VerifyFollows(a: Tables, now: nat, ticket: string)
    requires VerifyEmail(a, now, ticket).Ok?
    ensures AccountsFollow(a, VerifyEmail(a, now, ticket).value, Directory(DoVerifyEmail(ticket)), Accepted(Nothing))
  {
  }

  lemma RenameFollows(a: Tables, now: nat, id: string, login: string, given: string, familyName: string,
                      avatar: string)
    requires SubmitProfile(a, now, id, login, given, familyName, avatar).Ok?
    ensures AccountsFollow(a, SubmitProfile(a, now, id, login, given, familyName, avatar).value,
                           Directory(DoUpdateProfile(id, login, given, familyName, avatar)), Accepted(Nothing))
  {
    hide Lower, Trim, LoginShape, LoginFree, QueueAll, ProfileProjects;
  }

  lemma RelabelFollows(a: Tables, now: nat, project: string, id: string, name: string, avatar: string)
    requires UpdateLegacyProfile(a, now, project, id, name, avatar).Ok?
    ensures AccountsFollow(a, UpdateLegacyProfile(a, now, project, id, name, avatar).value,
                           Directory(DoUpdateLegacyProfile(project, id, name, avatar)), Accepted(Nothing))
  {
    hide QueueAll, ProfileProjects;
  }

  lemma {:induction false} ImportFollows(a: Tables, now: nat, users: seq<LegacyUser>, ids: seq<string>)
    requires |users| == |ids| && ImportAll(a, now, users, ids).Ok?
    ensures var b := ImportAll(a, now, users, ids).value;
            && (forall id :: id in a.accounts ==> id in b.accounts && b.accounts[id] == a.accounts[id])
            && (forall id :: id in b.accounts && id !in a.accounts ==> id in ids)
  {
    hide ImportUser;
    if users != [] {
      var n := |users| - 1;
      var mid := ImportAll(a, now, users[..n], ids[..n]).value;
      ImportFollows(a, now, users[..n], ids[..n]);
      ImportUserFollows(mid, now, users[n], ids[n]);
    }
  }

  lemma ImportUserFollows(a: Tables, now: nat, u: LegacyUser, id: string)
    requires ImportUser(a, now, u, id).Ok?
    ensures var b := ImportUser(a, now, u, id).value;
            b.accounts == a.accounts || (id !in a.accounts && b.accounts == a.accounts[id := AccountOf(u)])
  {
    hide Imported, AccountOf, RolesOf;
  }

  lemma DirectoryFollows(a: Tables, now: nat, r: DirectoryRequest)
    ensures var (b, reply) := HandleDirectory(a, now, r); AccountsFollow(a, b, Directory(r), reply)
  {
    hide Register, ResendVerification, VerifyEmail, SubmitProfile, UpdateLegacyProfile, SubmitAccessRequest, ImportAll,
         Readable;
    match r
    case DoRegister(id, form, password, ticket) =>
      if Register(a, now, id, form, password, ticket).Ok? { RegisterFollows(a, now, id, form, password, ticket); }
    case DoResendVerification(email, ticket) => ResendSame(a, now, email, ticket);
    case DoVerifyEmail(ticket) =>
      if VerifyEmail(a, now, ticket).Ok? { VerifyFollows(a, now, ticket); }
    case DoUpdateProfile(id, login, given, familyName, avatar) =>
      if SubmitProfile(a, now, id, login, given, familyName, avatar).Ok? {
        RenameFollows(a, now, id, login, given, familyName, avatar);
      }
    case DoUpdateLegacyProfile(project, id, name, avatar) =>
      if UpdateLegacyProfile(a, now, project, id, name, avatar).Ok? {
        RelabelFollows(a, now, project, id, name, avatar);
      }
    case DoRequestAccess(requestId, account, project) => RequestSame(a, requestId, account, project);
    case DoImport(users, ids) =>
      if ImportUsers(a, now, users, ids).Ok? { ImportFollows(a, now, users, ids); }
  }

  // ---------------------------------------------------------------- logins and passwords

  lemma ResetFollows(a: Tables, now: nat, ticket: string, password: StoredPassword)
    requires SubmitReset(a, now, ticket, password).Ok?
    ensures AccountsFollow(a, SubmitReset(a, now, ticket, password).value, Login(DoResetPassword(ticket, password)),
                           Accepted(Nothing))
  {
    hide RevokePasswordSessions;
    var used := a.(resets := a.resets[ticket := a.resets[ticket].(used := true)]);
    PasswordAccounts(used, now, a.resets[ticket].account, password);
  }

  lemma ChangeFollows(a: Tables, now: nat, id: string, attempt: string, password: StoredPassword)
    requires SubmitPassword(a, now, id, attempt, password).Ok?
    ensures AccountsFollow(a, SubmitPassword(a, now, id, attempt, password).value,
                           Login(DoChangePassword(id, attempt, password)), Accepted(Nothing))
  {
    hide RevokePasswordSessions;
    PasswordAccounts(a, now, id, password);
  }

  lemma OpeningKeeps(a: Tables, now: nat, r: LoginRequest)
    requires Opens(r)
    ensures HandleLogin(a, now, r).0.accounts == a.accounts
  {
    hide HandleLogin;
    OpensOne(a, now, r);
  }

  lemma SameAfterLogin(a: Tables, b: Tables, r: LoginRequest, reply: Reply)
    requires b.accounts == a.accounts
    requires reply.Refused? || !(r.DoResetPassword? || r.DoChangePassword? || r.FinishUpgrade?)
    ensures AccountsFollow(a, b, Login(r), reply)
  {
  }

  lemma UpgradeFollows(a: Tables, u: Upgrade)
    ensures AccountsFollow(a, UpgradePasswordHash(a, u.account, u.previous, u.upgraded), Login(FinishUpgrade(u)),
                           Accepted(Nothing))
  {
    hide UpgradePasswordHash, AfterDirectory, AfterAdmin, Promotes;
    var b := UpgradePasswordHash(a, u.account, u.previous, u.upgraded);
    forall id | id in a.accounts
      ensures id in b.accounts && b.accounts[id] == AfterLogin(a, FinishUpgrade(u), id)
    {
      UpgradedAccount(a, u, id);
    }
    forall id | id in b.accounts ensures id in a.accounts { UpgradedKeys(a, u, id); }
  }

  lemma UpgradedAccount(a: Tables, u: Upgrade, id: string)
    requires id in a.accounts
    ensures var b := UpgradePasswordHash(a, u.account, u.previous, u.upgraded);
            id in b.accounts && b.accounts[id] == AfterLogin(a, FinishUpgrade(u), id)
  {
  }

  lemma UpgradedKeys(a: Tables, u: Upgrade, id: string)
    requires id in UpgradePasswordHash(a, u.account, u.previous, u.upgraded).accounts
    ensures id in a.accounts
  {
  }

  lemma LoginFollows(a: Tables, now: nat, r: LoginRequest)
    ensures var (b, reply) := HandleLogin(a, now, r); AccountsFollow(a, b, Login(r), reply)
  {
    hide WithLogin, ForgotPassword, SubmitReset, SubmitPassword, SessionAccount, UpgradePasswordHash, Lower,
         Trim, AccountsFollow;
    var (b, reply) := HandleLogin(a, now, r);
    match r
    case FinishUpgrade(u) => UpgradeFollows(a, u);
    case DoResetPassword(ticket, password) =>
      if SubmitReset(a, now, ticket, password).Ok? { ResetFollows(a, now, ticket, password); }
      else { SameAfterLogin(a, b, r, reply); }
    case DoChangePassword(id, attempt, password) =>
      if SubmitPassword(a, now, id, attempt, password).Ok? { ChangeFollows(a, now, id, attempt, password); }
      else { SameAfterLogin(a, b, r, reply); }
    case _ =>
      if Opens(r) { OpeningKeeps(a, now, r); }
      SameAfterLogin(a, b, r, reply);
  }

  // ---------------------------------------------------------------- administration

  lemma DisableFollows(a: Tables, now: nat, actor: string, id: string)
    requires Disable(a, now, actor, id).Ok?
    ensures AccountsFollow(a, Disable(a, now, actor, id).value, Admin(DoDisable(actor, id)), Accepted(Nothing))
  {
    hide SessionsWithout, CodesWithout, TicketsWithout, RevokeAccount, ProfileProjects, QueueAll;
  }

  lemma GlobalFollows(a: Tables, email: string)
    requires AccountsOk(a.accounts) && GrantGlobalAdmin(a, Lower(Trim(email))).Ok?
    ensures AccountsFollow(a, GrantGlobalAdmin(a, Lower(Trim(email))).value, Admin(DoGrantGlobalAdmin(email)),
                           Accepted(Nothing))
  {
    hide Lower, Trim;
    var id := FirstRow(VerifiedActive(a.accounts, Lower(Trim(email)))).value;
    forall o | o in a.accounts && o != id ensures a.accounts[o].profile.email != Lower(Trim(email)) {
      assert Apart(a.accounts[id], a.accounts[o]);
    }
  }

  lemma SameFollows(a: Tables, b: Tables, r: AdminRequest, reply: Reply)
    requires b.accounts == a.accounts
    requires reply.Refused? || !(r.DoActivate? || r.DoDisable? || r.DoGrantGlobalAdmin?)
    ensures AccountsFollow(a, b, Admin(r), reply)
  {
  }

  lemma AdminFollows(a: Tables, now: nat, r: AdminRequest)
    requires AccountsOk(a.accounts)
    ensures var (b, reply) := HandleAdmin(a, now, r); AccountsFollow(a, b, Admin(r), reply)
  {
    hide AccountsOk, AccountsFollow, Disable, GrantAccess, RevokeAccess, ApproveRequest, SetProjectRoles,
         GrantProjectAdmin, GrantGlobalAdmin, Lower, Trim, OnlyRevokes;
    var (b, reply) := HandleAdmin(a, now, r);
    if reply.Refused? {
      SameFollows(a, b, r, reply);
    } else {
      match r
      case DoActivate(id) => ActivateFollows(a, id);
      case DoDisable(actor, id) => DisableFollows(a, now, actor, id);
      case DoGrantGlobalAdmin(email) => GlobalFollows(a, email);
      case DoRevoke(account, project) =>
        RevokeAccounts(a, now, account, project);
        SameFollows(a, b, r, reply);
      case _ => SameFollows(a, b, r, reply);
    }
  }

  lemma ActivateFollows(a: Tables, id: string)
    requires ActivateAccount(a, id).Ok?
    ensures AccountsFollow(a, ActivateAccount(a, id).value, Admin(DoActivate(id)), Accepted(Nothing))
  {
  }

  lemma RevokeAccounts(a: Tables, now: nat, account: string, project: string)
    ensures RevokeAccess(a, now, account, project).Ok? ==>
              RevokeAccess(a, now, account, project).value.accounts == a.accounts
  {
    hide RevokeSeat;
  }

  // ---------------------------------------------------------------- a start

  lemma BootFollows(a: Tables, s: Setup)
    ensures var (b, reply) := Boot(a, s); AccountsFollow(a, b, Restart(s), reply)
  {
    hide EnsureAdmin, EnsureClient;
    if s.adminEmail != "" && s.adminPassword.Some? {
      AdminsFollow(EnsureProject(a, s.project, s.client, s.secretHash, s.redirect), s, s.adminPassword.value);
    }
  }

  lemma AdminsFollow(a: Tables, s: Setup, password: StoredPassword)
    requires s.adminEmail != "" && s.adminPassword == Some(password)
    ensures var b := EnsureAdmin(a, s.project, s.adminId, s.adminEmail, password);
            && (forall id :: id in a.accounts ==>
                  && id in b.accounts
                  && b.accounts[id] == (if a.accounts[id].profile.email == s.adminEmail
                                        then a.accounts[id].(status := Active, verified := true, globalAdmin := true)
                                        else a.accounts[id]))
            && (forall id :: id in b.accounts && id !in a.accounts ==> id == s.adminId)
  {
    hide SeatAdmins, Seated, AdminAccount;
    var present := WithEmail(a.accounts, s.adminEmail);
    assert forall id :: id in a.accounts && a.accounts[id].profile.email == s.adminEmail ==> id in present;
  }

  // ---------------------------------------------------------------- every request

  /** Whatever the request and its answer: old accounts become what is said above, and no others appear. */
  lemma AccountStep(a: Tables, now: nat, r: Request)
    requires AccountsOk(a.accounts)
    ensures var (b, reply) := Handle(a, now, r); AccountsFollow(a, b, r, reply)
  {
    hide AccountsOk, HandleDirectory, HandleLogin, HandleAdmin, HandleOAuth, HandleUpkeep, Boot, AfterDirectory,
         AfterLogin, AfterAdmin;
    match r
    case Directory(d) => DirectoryFollows(a, now, d);
    case Login(l) => LoginFollows(a, now, l);
    case Admin(m) => AdminFollows(a, now, m);
    case OAuth(o) => OAuthIsKept(a, now, o);
    case Upkeep(u) => UpkeepIsKept(a, now, u);
    case Restart(s) => BootFollows(a, s);
  }

  lemma ServeFollows(w: World, r: Request)
    requires AllOk(w)
    ensures AccountsFollow(w.db, Service.Serve(w, r).db, r, Handle(w.db, w.clock, r).1)
  {
    hide Handle, AccountsFollow, AccountsOk;
    AccountStep(w.db, w.clock, r);
  }
}
