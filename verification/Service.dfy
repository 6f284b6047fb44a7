/** The use cases, as requests to the tables. A request at this level is one step of a run: a whole
    Exchange or Refresh is one step, while the delayed bcrypt upgrade of a login is a step of its own. */
module Service {
  import opened Text
  import opened Schema
  import opened Repository
  import opened Import

  // ---------------------------------------------------------------- identity.go

  /** ^[a-z0-9._-]{3,32}$ */
  predicate LoginShape(login: string) {
    && 3 <= |login| <= 32
    && forall c :: c in login ==> 'a' <= c <= 'z' || '0' <= c <= '9' || c in {'.', '_', '-'}
  }

  predicate PasswordShape(password: string) {
    12 <= |password| <= 1024
  }

  datatype Registration = Registration(email: string, login: string, given: string, family: string, name: string)

  function Register(db: Tables, now: nat, id: string, form: Registration, password: StoredPassword, ticket: string)
    : Result<Tables>
  {
    var email := Lower(Trim(form.email));
    var typed := Lower(Trim(form.login));
    var login := if typed == "" then email else typed;
    var given := Trim(form.given);
    var family := Trim(form.family);
    var full := Trim(given + " " + family);
    var name := if full == "" then Trim(form.name) else full;
    if !AddressShape(email) || |email| > 254 || |login| > 254 || (login != email && !LoginShape(login))
       || |given| > 100 || |family| > 100 || |name| > 200 || !PasswordShape(password.password)
    then Err(InvalidInput)
    else CreatePendingAccount(db, now, id, Profile(email, login, name, given, family, ""), password, ticket)
  }

  function ResendVerification(db: Tables, now: nat, email: string, ticket: string): Result<Tables> {
    var id :- FirstRow(Unconfirmed(db.accounts, Lower(Trim(email))));
    AddEmailVerification(db, now, id, ticket)
  }

  function ForgotPassword(db: Tables, now: nat, email: string, ticket: string): Result<Tables> {
    var id :- PasswordResetAccount(db, Lower(Trim(email)));
    AddPasswordReset(db, now, id, ticket)
  }

  function SubmitReset(db: Tables, now: nat, ticket: string, password: StoredPassword): Result<Tables> {
    if !PasswordShape(password.password) || |ticket| < 32 then Err(InvalidInput)
    else ResetPassword(db, now, ticket, password)
  }

  function SubmitPassword(db: Tables, now: nat, id: string, current: string, password: StoredPassword)
    : Result<Tables>
  {
    if !PasswordShape(password.password) then Err(InvalidInput)
    else ChangePassword(db, now, id, current, password)
  }

  function SubmitProfile(db: Tables, now: nat, id: string, rawLogin: string, rawGiven: string, rawFamily: string,
                         rawAvatar: string): Result<Tables>
  {
    var login := Lower(Trim(rawLogin));
    var given := Trim(rawGiven);
    var family := Trim(rawFamily);
    var avatar := Trim(rawAvatar);
    if !LoginShape(login) || |given| > 100 || |family| > 100 || |avatar| > 2048 then Err(InvalidInput)
    else UpdateProfile(db, now, id, login, given, family, Trim(given + " " + family), avatar)
  }

  function SubmitAccessRequest(db: Tables, requestId: string, account: string, project: string): Result<Tables> {
    if account !in db.accounts then Err(NoRows)
    else if !db.accounts[account].verified then Err(Unverified)
    else if Seat(account, project) in db.access then Ok(db)
    else RequestAccess(db, requestId, account, project)
  }

  // ---------------------------------------------------------------- admin.go, operator.go

  function Disable(db: Tables, now: nat, actor: string, id: string): Result<Tables> {
    if actor == id then Err(InvalidInput) else DisableAccount(db, now, id)
  }

  /** The secret stands for its hash, as tokens do. */
  function SubmitClient(db: Tables, id: string, project: string, secretHash: string, redirects: seq<string>)
    : Result<Tables>
  {
    if id == "" || project == "" || |secretHash| < 24 || redirects == [] then Err(InvalidInput)
    else RegisterClient(db, id, project, secretHash, redirects)
  }

  // ---------------------------------------------------------------- oauth.go

  const SCOPES: set<string> := {"openid", "profile", "email", "offline_access"}

  /** ^[A-Za-z0-9_-]{43}$ */
  predicate ChallengeShape(challenge: string) {
    && |challenge| == 43
    && forall c :: c in challenge ==> 'A' <= c <= 'Z' || 'a' <= c <= 'z' || '0' <= c <= '9' || c in {'_', '-'}
  }

  datatype AuthorizeInput = AuthorizeInput(client: string, redirect: string, responseType: string, scope: string,
                                           state: string, nonce: string, challenge: string, challengeMethod: string,
                                           user: string)
  {
    /** The first check of Authorize. The scope must contain `openid` between single spaces. */
    predicate WellFormed() {
      && responseType == "code" && Contains(" " + scope + " ", " openid ")
      && 16 <= |state| <= 512 && 16 <= |nonce| <= 256
      && challengeMethod == "S256" && ChallengeShape(challenge)
    }

    function Scopes(): seq<string> {
      Fields(scope)
    }
  }

  function Authorize(db: Tables, now: nat, input: AuthorizeInput, code: string): Result<Tables> {
    if !input.WellFormed() || exists s :: s in input.Scopes() && s !in SCOPES
    then Err(InvalidInput)
    else if input.client !in db.clients then Err(InvalidClient)
    else if input.redirect !in db.clients[input.client].redirects then Err(InvalidInput)
    else if input.user !in db.accounts || !db.accounts[input.user].verified then Err(NoRows)
    else if !db.accounts[input.user].status.Active? then Err(AccessPending)
    else if Seat(input.user, db.clients[input.client].project) !in db.access then Err(AccessPending)
    else CreateAuthorizationCode(db, now, code, input.user, input.client, input.redirect, input.nonce,
                                 input.challenge, input.Scopes())
  }

  /** The account and access checks at the head of issue. Answers the roles that go into the tokens. */
  function Entitlement(db: Tables, user: string, project: string): Result<seq<string>> {
    if user !in db.accounts || !db.accounts[user].InGoodStanding() then Err(NoRows)
    else if Seat(user, project) !in db.access then Err(NoAccess)
    else Ok(db.access[Seat(user, project)])
  }

  datatype Grant = Grant(account: string, roles: seq<string>, scopes: seq<string>)

  /** `challenge` is the S256 transform of the verifier presented; `signed` says whether a signing key was found.
      A failure after ConsumeAuthorizationCode leaves the code used. */
  function Exchange(db: Tables, now: nat, client: string, code: string, redirect: string, challenge: string,
                    refresh: string, family: string, signed: bool): (Tables, Result<Grant>)
  {
    if client !in db.clients then (db, Err(InvalidClient)) else
    match ConsumeAuthorizationCode(db, now, code, client, redirect, challenge)
    case Err(e) => (db, Err(e))
    case Ok((consumed, grant)) =>
      var project := db.clients[client].project;
      match Entitlement(consumed, grant.account, project)
      case Err(e) => (consumed, Err(e))
      case Ok(roles) =>
        match CreateRefresh(consumed, now, refresh, family, grant.account, client, project, grant.scopes)
        case Err(e) => (consumed, Err(e))
        case Ok(issued) =>
          (issued, if signed then Ok(Grant(grant.account, roles, grant.scopes)) else Err(SigningFailed))
  }

  function Refresh(db: Tables, client: string, token: string, next: string, hostNow: nat, signed: bool)
    : (Tables, Result<Grant>)
  {
    if client !in db.clients then (db, Err(InvalidClient)) else
    var project := db.clients[client].project;
    var (rotated, answer) := RotateRefresh(db, token, next, client, project, hostNow);
    match answer
    case Err(e) => (rotated, Err(e))
    case Ok(grant) =>
      match Entitlement(rotated, grant.account, project)
      case Err(e) => (rotated, Err(e))
      case Ok(roles) => (rotated, if signed then Ok(Grant(grant.account, roles, grant.scopes)) else Err(SigningFailed))
  }

  // ---------------------------------------------------------------- requests

  /** A bcrypt hash that a login found, and the hash that is to replace it. */
  datatype Upgrade = Upgrade(account: string, previous: StoredPassword, upgraded: StoredPassword)

  datatype DirectoryRequest =
    | DoRegister(id: string, form: Registration, password: StoredPassword, ticket: string)
    | DoResendVerification(email: string, ticket: string)
    | DoVerifyEmail(ticket: string)
    | DoUpdateProfile(account: string, login: string, given: string, familyName: string, avatar: string)
    | DoUpdateLegacyProfile(project: string, account: string, name: string, avatar: string)
    | DoRequestAccess(requestId: string, account: string, project: string)
    | DoImport(users: seq<LegacyUser>, ids: seq<string>)

  datatype LoginRequest =
    | DoLogin(identifier: string, attempt: string, session: string, upgraded: StoredPassword)
    | FinishUpgrade(upgrade: Upgrade)
    | CheckSession(session: string)
    | Logout(session: string)
    | DoForgotPassword(email: string, ticket: string)
    | DoResetPassword(ticket: string, password: StoredPassword)
    | DoChangePassword(account: string, attempt: string, password: StoredPassword)

  datatype AdminRequest =
    | DoActivate(account: string)
    | DoDisable(actor: string, account: string)
    | DoGrant(account: string, project: string, roles: seq<string>)
    | DoRevoke(account: string, project: string)
    | DoApprove(project: string, requestId: string, roles: seq<string>)
    | DoSetRoles(project: string, account: string, roles: seq<string>)
    | DoGrantProjectAdmin(project: string, email: string)
    | DoGrantGlobalAdmin(email: string)

  datatype OAuthRequest =
    | DoRegisterClient(client: string, project: string, secretHash: string, redirects: seq<string>)
    | DoAuthorize(input: AuthorizeInput, code: string)
    | DoExchange(client: string, code: string, redirect: string, challenge: string, refresh: string, family: string,
                 signed: bool)
    | DoRefresh(client: string, token: string, next: string, hostNow: nat, signed: bool)

  /** The passing of time, transactions that drew event ids and were rolled back, and the background work. */
  datatype UpkeepRequest =
    | Wait(duration: nat)
    | Burn(count: nat)
    | DoAttempt(key: string, until: nat)
    | DoRotateKey(kid: string)
    | FindKey(kid: string)
    | ListKeys
    | DoPublish(row: nat, acknowledged: bool)
    | DoClean(statement: Statement)

  /** What a service is configured with when it starts. */
  datatype Setup = Setup(project: string, client: string, secretHash: string, redirect: string, adminId: string,
                         adminEmail: string, adminPassword: Option<StoredPassword>)

  datatype Request =
    | Directory(directory: DirectoryRequest)
    | Login(login: LoginRequest)
    | Admin(admin: AdminRequest)
    | OAuth(oauth: OAuthRequest)
    | Upkeep(upkeep: UpkeepRequest)
    | Restart(setup: Setup)

  datatype Info =
    | Nothing
    | UserId(id: string)
    | TokenSet(grant: Grant)
    | Attempts(count: nat)
    | KeyIds(kids: set<string>)

  datatype Reply = Accepted(info: Info) | Refused(error: Error)

  function Settle(db: Tables, result: Result<Tables>): (Tables, Reply) {
    match result
    case Ok(value) => (value, Accepted(Nothing))
    case Err(e) => (db, Refused(e))
  }

  /** An unknown address is answered like a known one. */
  function Silently(answer: (Tables, Reply)): (Tables, Reply) {
    (answer.0, if answer.1 == Refused(NoRows) then Accepted(Nothing) else answer.1)
  }

  function HandleDirectory(db: Tables, now: nat, r: DirectoryRequest): (Tables, Reply) {
    match r
    case DoRegister(id, form, password, ticket) => Settle(db, Register(db, now, id, form, password, ticket))
    case DoResendVerification(email, ticket) => Silently(Settle(db, ResendVerification(db, now, email, ticket)))
    case DoVerifyEmail(ticket) => Settle(db, VerifyEmail(db, now, ticket))
    case DoUpdateProfile(account, login, given, family, avatar) =>
      Settle(db, SubmitProfile(db, now, account, login, given, family, avatar))
    case DoUpdateLegacyProfile(project, account, name, avatar) =>
      Settle(db, UpdateLegacyProfile(db, now, project, account, name, avatar))
    case DoRequestAccess(requestId, account, project) =>
      Settle(db, SubmitAccessRequest(db, requestId, account, project))
    case DoImport(users, ids) => Settle(db, ImportUsers(db, now, users, ids))
  }

  function HandleLogin(db: Tables, now: nat, r: LoginRequest): (Tables, Reply) {
    match r
    case DoLogin(identifier, attempt, session, _) =>
      (match WithLogin(db, now, Lower(Trim(identifier)), attempt, session)
       case Ok((value, id)) => (value, Accepted(UserId(id)))
       case Err(e) => (db, Refused(e)))
    case FinishUpgrade(u) => (UpgradePasswordHash(db, u.account, u.previous, u.upgraded), Accepted(Nothing))
    case CheckSession(session) =>
      (db, match SessionAccount(db, now, session) case Ok(id) => Accepted(UserId(id)) case Err(e) => Refused(e))
    case Logout(session) => (db.(sessions := db.sessions - {session}), Accepted(Nothing))
    case DoForgotPassword(email, ticket) => (Settle(db, ForgotPassword(db, now, email, ticket)).0, Accepted(Nothing))
    case DoResetPassword(ticket, password) => Settle(db, SubmitReset(db, now, ticket, password))
    case DoChangePassword(account, attempt, password) => Settle(db, SubmitPassword(db, now, account, attempt, password))
  }

  function HandleAdmin(db: Tables, now: nat, r: AdminRequest): (Tables, Reply) {
    match r
    case DoActivate(account) => Settle(db, ActivateAccount(db, account))
    case DoDisable(actor, account) => Settle(db, Disable(db, now, actor, account))
    case DoGrant(account, project, roles) => Settle(db, GrantAccess(db, now, account, project, roles))
    case DoRevoke(account, project) => Settle(db, RevokeAccess(db, now, account, project))
    case DoApprove(project, requestId, roles) => Settle(db, ApproveRequest(db, now, project, requestId, roles))
    case DoSetRoles(project, account, roles) => Settle(db, SetProjectRoles(db, now, project, account, roles))
    case DoGrantProjectAdmin(project, email) => Settle(db, GrantProjectAdmin(db, now, project, email))
    case DoGrantGlobalAdmin(email) => Settle(db, GrantGlobalAdmin(db, Lower(Trim(email))))
  }

  function Tokens(answer: (Tables, Result<Grant>)): (Tables, Reply) {
    (answer.0, match answer.1 case Ok(g) => Accepted(TokenSet(g)) case Err(e) => Refused(e))
  }

  function HandleOAuth(db: Tables, now: nat, r: OAuthRequest): (Tables, Reply) {
    match r
    case DoRegisterClient(client, project, secretHash, redirects) =>
      Settle(db, SubmitClient(db, client, project, secretHash, redirects))
    case DoAuthorize(input, code) => Settle(db, Authorize(db, now, input, code))
    case DoExchange(client, code, redirect, challenge, refresh, family, signed) =>
      Tokens(Exchange(db, now, client, code, redirect, challenge, refresh, family, signed))
    case DoRefresh(client, token, next, hostNow, signed) => Tokens(Refresh(db, client, token, next, hostNow, signed))
  }

  function Attempt(db: Tables, now: nat, key: string, until: nat): (r: (Tables, Reply))
    ensures r.0 == db.(limits := r.0.limits)
  {
    match IncrementAttempt(db.limits, now, key, until)
    case Ok((limits, count)) => (db.(limits := limits), Accepted(Attempts(count)))
    case Err(e) => (db, Refused(e))
  }

  function RotateKey(db: Tables, now: nat, kid: string): (r: (Tables, Reply))
    ensures r.0 == db.(keys := r.0.keys)
  {
    match RotateSigningKey(db.keys, now, kid)
    case Ok(keys) => (db.(keys := keys), Accepted(Nothing))
    case Err(e) => (db, Refused(e))
  }

  function Publish(db: Tables, now: nat, row: nat, acknowledged: bool): (r: (Tables, Reply))
    ensures r.0 == db.(outbox := r.0.outbox)
  {
    if Pickable(db.outbox, row)
    then (db.(outbox := RecordSend(db.outbox, now, row, acknowledged)), Accepted(Nothing))
    else (db, Refused(NoRows))
  }

  function HandleUpkeep(db: Tables, now: nat, r: UpkeepRequest): (Tables, Reply) {
    match r
    case Wait(_) => (db, Accepted(Nothing))
    case Burn(count) => (db.(lastId := db.lastId + count), Accepted(Nothing))
    case DoAttempt(key, until) => Attempt(db, now, key, until)
    case DoRotateKey(kid) => RotateKey(db, now, kid)
    case FindKey(kid) => (db, if kid in PublishedKeys(db.keys, now) then Accepted(Nothing) else Refused(NoRows))
    case ListKeys => (db, Accepted(KeyIds(PublishedKeys(db.keys, now))))
    case DoPublish(row, acknowledged) => Publish(db, now, row, acknowledged)
    case DoClean(statement) => (Clean(db, now, statement), Accepted(Nothing))
  }

  /** A start of the service: its bootstrap. */
  function Boot(db: Tables, s: Setup): (Tables, Reply) {
    (EnsureBootstrap(db, s.project, s.client, s.secretHash, s.redirect, s.adminId, s.adminEmail, s.adminPassword),
     match BootstrapError(db, s.adminId, s.adminEmail, s.adminPassword)
     case Some(e) => Refused(e)
     case None => Accepted(Nothing))
  }

  /** One request against the tables at a given time: the tables afterwards, and the answer. */
  function Handle(db: Tables, now: nat, r: Request): (Tables, Reply) {
    match r
    case Directory(d) => HandleDirectory(db, now, d)
    case Login(l) => HandleLogin(db, now, l)
    case Admin(a) => HandleAdmin(db, now, a)
    case OAuth(o) => HandleOAuth(db, now, o)
    case Upkeep(u) => HandleUpkeep(db, now, u)
    case Restart(s) => Boot(db, s)
  }

  // ---------------------------------------------------------------- what a request may touch

  lemma CleanRequest(a: Tables, now: nat, r: UpkeepRequest)
    requires r.DoClean?
    ensures HandleUpkeep(a, now, r).0 == Clean(a, now, r.statement)
  {
    hide Clean;
  }

  lemma UpkeepElsewhere(a: Tables, now: nat, r: UpkeepRequest)
    requires !r.DoClean?
    ensures var b := HandleUpkeep(a, now, r).0;
            b == a.(limits := b.limits, keys := b.keys, outbox := b.outbox, lastId := b.lastId) && a.lastId <= b.lastId
  {
    hide Attempt, RotateKey, Publish, PublishedKeys;
  }

  /** A start adds projects, clients, accounts and seats, and takes none away. */
  lemma BootElsewhere(a: Tables, s: Setup)
    ensures var b := Boot(a, s).0;
            && b == a.(projects := b.projects, clients := b.clients, accounts := b.accounts, access := b.access)
            && a.access.Keys <= b.access.Keys && a.accounts.Keys <= b.accounts.Keys
            && forall c :: c in a.clients ==> c in b.clients && b.clients[c] == a.clients[c]
  {
    hide EnsureProject, EnsureAdmin;
    var first := EnsureProject(a, s.project, s.client, s.secretHash, s.redirect);
    ProjectElsewhere(a, s);
    if s.adminPassword.Some? { AdminElsewhere(first, s, s.adminPassword.value); }
  }

  lemma ProjectElsewhere(a: Tables, s: Setup)
    ensures var b := EnsureProject(a, s.project, s.client, s.secretHash, s.redirect);
            forall c :: c in a.clients ==> c in b.clients && b.clients[c] == a.clients[c]
  {
  }

  lemma AdminElsewhere(a: Tables, s: Setup, password: StoredPassword)
    ensures var b := EnsureAdmin(a, s.project, s.adminId, s.adminEmail, password);
            a.access.Keys <= b.access.Keys && a.accounts.Keys <= b.accounts.Keys
  {
    hide WithEmail, Insertable, AdminAccount;
  }

  /** What a start does depends on the four tables it reads. */
  lemma BootReads(c: Tables, u: Tables, s: Setup)
    requires c.accounts == u.accounts && c.projects == u.projects && c.clients == u.clients && c.access == u.access
    ensures var (x, y) := (Boot(c, s), Boot(u, s));
            && x.1 == y.1 && x.0.accounts == y.0.accounts && x.0.projects == y.0.projects
            && x.0.clients == y.0.clients && x.0.access == y.0.access
  {
    hide EnsureProject, EnsureAdmin, Insertable;
    ProjectReads(c, u, s);
    if s.adminPassword.Some? {
      AdminReads(EnsureProject(c, s.project, s.client, s.secretHash, s.redirect),
                EnsureProject(u, s.project, s.client, s.secretHash, s.redirect), s, s.adminPassword.value);
    }
  }

  lemma ProjectReads(c: Tables, u: Tables, s: Setup)
    requires c.clients == u.clients
    ensures EnsureProject(c, s.project, s.client, s.secretHash, s.redirect).clients
            == EnsureProject(u, s.project, s.client, s.secretHash, s.redirect).clients
  {
  }

  lemma AdminReads(c: Tables, u: Tables, s: Setup, password: StoredPassword)
    requires c.accounts == u.accounts && c.access == u.access
    ensures var x := EnsureAdmin(c, s.project, s.adminId, s.adminEmail, password);
            var y := EnsureAdmin(u, s.project, s.adminId, s.adminEmail, password);
            x.accounts == y.accounts && x.access == y.access
  {
    hide AdminAccounts, Seated, SeatAdmins;
  }

  lemma ExchangeElsewhere(a: Tables, now: nat, client: string, code: string, redirect: string, challenge: string,
                          refresh: string, family: string, signed: bool)
    ensures var b := Exchange(a, now, client, code, redirect, challenge, refresh, family, signed).0;
            b == a.(codes := b.codes, tokens := b.tokens)
  {
    hide Entitlement;
  }

  lemma RefreshElsewhere(a: Tables, client: string, token: string, next: string, hostNow: nat, signed: bool)
    ensures var b := Refresh(a, client, token, next, hostNow, signed).0; b == a.(tokens := b.tokens)
  {
    hide Entitlement, RotateRefresh;
  }

  // ---------------------------------------------------------------- runs

  /** The random values a request draws; RandomToken never repeats, and its hash stands for it. */
  function Drawn(r: Request): set<string> {
    match r
    case Directory(DoRegister(_, _, _, ticket)) => {ticket}
    case Directory(DoResendVerification(_, ticket)) => {ticket}
    case Directory(DoRequestAccess(requestId, _, _)) => {requestId}
    case Login(DoLogin(_, _, session, _)) => {session}
    case Login(DoForgotPassword(_, ticket)) => {ticket}
    case OAuth(DoAuthorize(_, code)) => {code}
    case OAuth(DoExchange(_, _, _, _, refresh, family, _)) => {refresh, family}
    case OAuth(DoRefresh(_, _, next, _, _)) => {next}
    case Upkeep(DoRotateKey(kid)) => {kid}
    case _ => {}
  }

  /** The code behind a refresh family, and when the family began. */
  datatype Origin = Origin(code: string, account: string, client: string, scopes: seq<string>, at: nat)

  /** What a run has seen, kept beside the tables: every code ever issued, how often each was consumed,
      the origin of each family, the last password set for each account, and the upgrades still to come. */
  datatype Ledger = Ledger(issued: map<string, Code>, consumed: multiset<string>, origins: map<string, Origin>,
                           passwords: map<string, string>, upgrades: set<Upgrade>)

  datatype World = World(clock: nat, db: Tables, drawn: set<string>, ledger: Ledger)

  function NoteDirectory(ledger: Ledger, r: DirectoryRequest, after: Tables, reply: Reply): Ledger {
    match r
    case DoRegister(id, _, password, _) =>
      if reply.Accepted? then ledger.(passwords := ledger.passwords[id := password.password]) else ledger
    case DoImport(_, _) =>
      ledger.(passwords := map id | id in ledger.passwords.Keys + after.accounts.Keys ::
                             if id in ledger.passwords then ledger.passwords[id]
                             else after.accounts[id].password.password)
    case _ => ledger
  }

  /** A login with a bcrypt hash leaves an upgrade of that hash, to be finished at any later time. */
  function NoteLogin(ledger: Ledger, r: LoginRequest, before: Tables, reply: Reply): Ledger {
    if reply.Refused? then ledger else
    match r
    case DoLogin(_, _, _, upgraded) =>
      if reply.info.UserId? && reply.info.id in before.accounts && before.accounts[reply.info.id].password.legacy
      then ledger.(upgrades := ledger.upgrades
                               + {Upgrade(reply.info.id, before.accounts[reply.info.id].password, upgraded)})
      else ledger
    case DoResetPassword(ticket, password) =>
      if ticket in before.resets && before.resets[ticket].account in before.accounts
      then ledger.(passwords := ledger.passwords[before.resets[ticket].account := password.password]) else ledger
    case DoChangePassword(account, _, password) => ledger.(passwords := ledger.passwords[account := password.password])
    case _ => ledger
  }

  function NoteOAuth(ledger: Ledger, clock: nat, r: OAuthRequest, before: Tables, after: Tables): Ledger {
    match r
    case DoAuthorize(_, code) =>
      if code !in before.codes && code in after.codes
      then ledger.(issued := ledger.issued[code := after.codes[code]]) else ledger
    case DoExchange(client, code, _, _, refresh, family, _) =>
      var spent := if code in before.codes && !before.codes[code].used && code in after.codes && after.codes[code].used
                   then ledger.(consumed := ledger.consumed + multiset{code}) else ledger;
      if refresh !in before.tokens && refresh in after.tokens
      then spent.(origins := ledger.origins[family := Origin(code, after.tokens[refresh].account, client,
                                                             after.tokens[refresh].scopes, clock)])
      else spent
    case _ => ledger
  }

  /** A bootstrap that inserts the administrator sets its password. */
  function NoteRestart(ledger: Ledger, s: Setup, before: Tables, after: Tables): Ledger {
    if s.adminId in after.accounts && s.adminId !in before.accounts
    then ledger.(passwords := ledger.passwords[s.adminId := after.accounts[s.adminId].password.password])
    else ledger
  }

  function Note(w: World, r: Request, after: Tables, reply: Reply): Ledger {
    match r
    case Directory(d) => NoteDirectory(w.ledger, d, after, reply)
    case Login(l) => NoteLogin(w.ledger, l, w.db, reply)
    case OAuth(o) => NoteOAuth(w.ledger, w.clock, o, w.db, after)
    case Restart(s) => NoteRestart(w.ledger, s, w.db, after)
    case _ => w.ledger
  }

  function Elapsed(r: Request): nat {
    match r
    case Upkeep(Wait(duration)) => duration
    case _ => 0
  }

  function Serve(w: World, r: Request): World {
    var answer := Handle(w.db, w.clock, r);
    World(w.clock + Elapsed(r), answer.0, w.drawn + Drawn(r), Note(w, r, answer.0, answer.1))
  }

  /** What the environment promises: fresh random values, non-empty account ids, upgrades only of hashes
      that a login read, upgraded hashes made from the password typed, and a configured administrator with a real
      address in lower case. */
  predicate Admissible(w: World, r: Request) {
    && Drawn(r) !! w.drawn
    && match r
       case Directory(DoRegister(id, _, _, _)) => id != ""
       case Directory(DoImport(_, ids)) => "" !in ids
       case Login(DoLogin(_, attempt, _, upgraded)) => upgraded.password == attempt
       case Login(FinishUpgrade(upgrade)) => upgrade in w.ledger.upgrades
       case OAuth(DoExchange(_, _, _, _, refresh, family, _)) => refresh != family
       case Restart(s) =>
         && s.project != "" && s.adminId != ""
         && (s.adminEmail != "" ==> AddressShape(s.adminEmail) && Lower(s.adminEmail) == s.adminEmail)
       case _ => true
  }

  function Run(w: World, rs: seq<Request>): World {
    if rs == [] then w else Serve(Run(w, rs[..|rs| - 1]), rs[|rs| - 1])
  }

  predicate AdmissibleRun(w: World, rs: seq<Request>) {
    rs == [] || (AdmissibleRun(w, rs[..|rs| - 1]) && Admissible(Run(w, rs[..|rs| - 1]), rs[|rs| - 1]))
  }
}
