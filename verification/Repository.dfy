/** What each repository method does to the tables, one function per transaction.
    A function answers `Err` when the transaction is rolled back; the class in Postgres.dfy
    carries the statements out in place and is proved against these functions. */
module Repository {
  import opened Order
  import opened Text
  import opened Schema

  // ---------------------------------------------------------------- queries

  /** QueryRow reads the first row of its answer; rows are listed by id. */
  function FirstRow(ids: set<string>): (r: Result<string>)
    ensures if ids == {} then r == Err(NoRows) else r.Ok? && r.value in ids
  {
    if ids == {} then Err(NoRows) else Ok(Least(ids))
  }

  function WithEmail(accounts: map<string, Account>, email: string): set<string> {
    set id | id in accounts && accounts[id].profile.email == email
  }

  function VerifiedActive(accounts: map<string, Account>, email: string): set<string> {
    set id | id in WithEmail(accounts, email) && accounts[id].InGoodStanding()
  }

  /** The unique indexes of `accounts`: id, email, lower(login), old_id. */
  predicate Insertable(accounts: map<string, Account>, id: string, a: Account) {
    && id !in accounts
    && forall o | o in accounts ::
         && accounts[o].profile.email != a.profile.email
         && Lower(accounts[o].profile.login) != Lower(a.profile.login)
         && (a.oldId.None? || accounts[o].oldId != a.oldId)
  }

  predicate LoginFree(accounts: map<string, Account>, id: string, login: string) {
    forall o | o in accounts && o != id :: Lower(accounts[o].profile.login) != Lower(login)
  }

  // ---------------------------------------------------------------- what a transaction may touch

  /** Accounts, seats and requests, and the two channels; seats are added or changed, not taken. */
  predicate OnlyDirectory(a: Tables, b: Tables) {
    && a.access.Keys <= b.access.Keys
    && b == a.(accounts := b.accounts, verifications := b.verifications, access := b.access, requests := b.requests,
               outbox := b.outbox, events := b.events, lastId := b.lastId)
  }

  /** The same, with the accounts and their verifications left alone. */
  predicate OnlySeats(a: Tables, b: Tables) {
    OnlyDirectory(a, b) && b.accounts == a.accounts && b.verifications == a.verifications
  }

  /** Accounts, seats and credentials, and the two channels. */
  predicate OnlyRevokes(a: Tables, b: Tables) {
    b == a.(accounts := b.accounts, access := b.access, sessions := b.sessions, tokens := b.tokens, codes := b.codes,
            resets := b.resets, outbox := b.outbox, events := b.events, lastId := b.lastId)
  }

  // ---------------------------------------------------------------- events.go

  /** The projects an account has access to, other than the one the change came from. */
  function ProfileProjects(db: Tables, account: string, origin: string): seq<string> {
    Listing(set s | s in db.access && s.account == account && s.project != origin :: s.project)
  }

  function AccountPayload(db: Tables, account: string, roles: seq<string>): Result<Payload> {
    if account in db.accounts && db.accounts[account].InGoodStanding() then
      Ok(FullUser(db.accounts[account].oldId, db.accounts[account].profile, roles))
    else
      Err(NoRows)
  }

  /** One event in both delivery channels. */
  function QueueEvent(db: Tables, now: nat, project: string, kind: Kind, account: string, payload: Payload)
    : (r: Result<Tables>)
    ensures r.Ok? ==> r.value == db.(outbox := r.value.outbox, events := r.value.events, lastId := db.lastId + 1)
  {
    if kind.ProfileUpdated? && Seat(account, project) !in db.access then Err(NoRows)
    else if project !in db.projects then Err(ForeignKeyViolation)
    else
      var body := if kind.ProfileUpdated? then payload.WithRoles(db.access[Seat(account, project)]) else payload;
      var id := db.lastId + 1;
      Ok(db.(outbox := db.outbox[id := OutboxRow(project, kind, body, now, None, 0)],
             events := db.events + [SyncEvent(id, project, kind, account, body)],
             lastId := id))
  }

  /** One event per listed project, in order. */
  function QueueAll(db: Tables, now: nat, projects: seq<string>, kind: Kind, account: string, payload: Payload)
    : (r: Result<Tables>)
    ensures r.Ok? ==>
      r.value == db.(outbox := r.value.outbox, events := r.value.events, lastId := db.lastId + |projects|)
  {
    if projects == [] then Ok(db) else
      var before :- QueueAll(db, now, projects[..|projects| - 1], kind, account, payload);
      QueueEvent(before, now, projects[|projects| - 1], kind, account, payload)
  }

  /** The end of every transaction that gives a seat: the account's payload with the new roles, then the event. */
  function LogSeat(db: Tables, now: nat, kind: Kind, seat: Seat, roles: seq<string>)
    : (r: Result<Tables>)
    ensures r.Ok? ==> OnlySeats(db, r.value)
  {
    var payload :- AccountPayload(db, seat.account, roles);
    QueueEvent(db, now, seat.project, kind, seat.account, payload)
  }

  // ---------------------------------------------------------------- revocation statements

  function RevokeAccount(tokens: map<string, RefreshToken>, account: string): map<string, RefreshToken> {
    map h | h in tokens :: if tokens[h].account == account then tokens[h].(revoked := true) else tokens[h]
  }

  function RevokeSeat(tokens: map<string, RefreshToken>, seat: Seat): map<string, RefreshToken> {
    map h | h in tokens ::
      if tokens[h].account == seat.account && tokens[h].project == seat.project then tokens[h].(revoked := true)
      else tokens[h]
  }

  function RevokeFamily(tokens: map<string, RefreshToken>, family: string): map<string, RefreshToken> {
    map h | h in tokens :: if tokens[h].family == family then tokens[h].(revoked := true) else tokens[h]
  }

  function SessionsWithout(sessions: map<string, Session>, account: string): map<string, Session> {
    map h | h in sessions && sessions[h].account != account :: sessions[h]
  }

  function CodesWithout(codes: map<string, Code>, account: string): map<string, Code> {
    map h | h in codes && codes[h].account != account :: codes[h]
  }

  function TicketsWithout(tickets: map<string, Ticket>, account: string): map<string, Ticket> {
    map h | h in tickets && tickets[h].account != account :: tickets[h]
  }

  /** Sessions, codes and resets of an account are deleted, its refresh tokens revoked. */
  function RevokeCredentials(db: Tables, account: string): Tables {
    db.(sessions := SessionsWithout(db.sessions, account),
        tokens := RevokeAccount(db.tokens, account),
        codes := CodesWithout(db.codes, account),
        resets := TicketsWithout(db.resets, account))
  }

  // ---------------------------------------------------------------- admin.go

  function ActivateAccount(db: Tables, id: string)
    : (r: Result<Tables>)
    ensures r.Ok? ==> OnlyDirectory(db, r.value)
  {
    if id in db.accounts && db.accounts[id].verified && !db.accounts[id].status.Active? then
      Ok(db.(accounts := db.accounts[id := db.accounts[id].(status := Active)]))
    else Err(NoRows)
  }

  function DisableAccount(db: Tables, now: nat, id: string)
    : (r: Result<Tables>)
    ensures r.Ok? ==> OnlyRevokes(db, r.value)
  {
    if id !in db.accounts || db.accounts[id].status.Inactive? || db.accounts[id].globalAdmin then Err(NoRows)
    else
      var disabled := db.(accounts := db.accounts[id := db.accounts[id].(status := Inactive)]);
      var revoked := RevokeCredentials(disabled, id);
      var queued :- QueueAll(revoked, now, ProfileProjects(revoked, id, ""), AccessRevoked, id, UserIdOnly);
      Ok(queued.(access := map s | s in db.access && s.account != id :: db.access[s]))
  }

  function ApproveWaiting(requests: map<string, AccessRequest>, seat: Seat): map<string, AccessRequest> {
    map q | q in requests ::
      if requests[q].account == seat.account && requests[q].project == seat.project
      then requests[q].(status := Approved) else requests[q]
  }

  function GrantAccess(db: Tables, now: nat, account: string, project: string, roles: seq<string>)
    : (r: Result<Tables>)
    ensures r.Ok? ==> OnlySeats(db, r.value)
  {
    if account !in db.accounts || !db.accounts[account].InGoodStanding() then Err(NoRows)
    else if project !in db.projects then Err(ForeignKeyViolation)
    else
      var seat := Seat(account, project);
      var kind := if seat in db.access then RolesChanged else AccessGranted;
      var granted := db.(access := db.access[seat := roles], requests := ApproveWaiting(db.requests, seat));
      LogSeat(granted, now, kind, seat, roles)
  }

  /** RevokeAccess, and RevokeProjectAccess of management.go: the two differ only in the audit row. */
  function RevokeAccess(db: Tables, now: nat, account: string, project: string)
    : (r: Result<Tables>)
    ensures r.Ok? ==> OnlyRevokes(db, r.value)
  {
    var seat := Seat(account, project);
    if seat !in db.access then Err(NoRows)
    else
      var revoked := db.(access := db.access - {seat}, tokens := RevokeSeat(db.tokens, seat));
      QueueEvent(revoked, now, project, AccessRevoked, account, UserIdOnly)
  }

  // ---------------------------------------------------------------- identity.go

  function AddEmailVerification(db: Tables, now: nat, account: string, hash: string)
    : (r: Result<Tables>)
    ensures r.Ok? ==> r.value == db.(verifications := r.value.verifications)
  {
    if hash in db.verifications then Err(UniqueViolation)
    else if account !in db.accounts then Err(ForeignKeyViolation)
    else Ok(db.(verifications := db.verifications[hash := Ticket(account, now + HOUR, false)]))
  }

  function CreatePendingAccount(db: Tables, now: nat, id: string, profile: Profile, password: StoredPassword,
                                hash: string)
    : (r: Result<Tables>)
    ensures r.Ok? ==> OnlyDirectory(db, r.value)
  {
    var account := Account(profile, password, PendingApproval, false, false, None);
    if !Insertable(db.accounts, id, account) then Err(UniqueViolation)
    else AddEmailVerification(db.(accounts := db.accounts[id := account]), now, id, hash)
  }

  function Unconfirmed(accounts: map<string, Account>, email: string): set<string> {
    set id | id in WithEmail(accounts, email) && !accounts[id].verified
  }

  function MarkVerified(accounts: map<string, Account>, id: string): map<string, Account> {
    if id in accounts then accounts[id := accounts[id].(verified := true)] else accounts
  }

  function VerifyEmail(db: Tables, now: nat, hash: string)
    : (r: Result<Tables>)
    ensures r.Ok? ==> OnlyDirectory(db, r.value)
  {
    if hash in db.verifications && !db.verifications[hash].used && db.verifications[hash].expires > now then
      Ok(db.(verifications := db.verifications[hash := db.verifications[hash].(used := true)],
             accounts := MarkVerified(db.accounts, db.verifications[hash].account)))
    else Err(NoRows)
  }

  function LoginMatches(accounts: map<string, Account>, identifier: string): set<string> {
    set id | id in accounts
             && (accounts[id].profile.email == identifier || Lower(accounts[id].profile.login) == identifier)
  }

  /** WithLogin together with the check Login runs under the row lock. Answers the account that logged in. */
  function WithLogin(db: Tables, now: nat, identifier: string, password: string, hash: string)
    : Result<(Tables, string)>
  {
    var id :- FirstRow(LoginMatches(db.accounts, identifier));
    var a := db.accounts[id];
    if !a.password.Verifies(password) then Err(InvalidCredentials)
    else if !a.verified then Err(Unverified)
    else if a.status.Inactive? then Err(Disabled)
    else if hash in db.sessions then Err(UniqueViolation)
    else Ok((db.(sessions := db.sessions[hash := Session(id, now + 7 * DAY)]), id))
  }

  function SessionAccount(db: Tables, now: nat, hash: string): Result<string> {
    if hash in db.sessions && db.sessions[hash].expires > now
       && db.sessions[hash].account in db.accounts && !db.accounts[db.sessions[hash].account].status.Inactive?
    then Ok(db.sessions[hash].account) else Err(NoRows)
  }

  function UpgradePasswordHash(db: Tables, id: string, previous: StoredPassword, upgraded: StoredPassword): Tables {
    if id in db.accounts && db.accounts[id].password == previous then
      db.(accounts := db.accounts[id := db.accounts[id].(password := upgraded)])
    else db
  }

  /** A repeated request waits again; the pair of account and project is unique. */
  function Requested(requests: map<string, AccessRequest>, requestId: string, account: string, project: string)
    : Result<map<string, AccessRequest>>
  {
    var same := set q | q in requests && requests[q].account == account && requests[q].project == project;
    if same != {} then
      Ok(map q | q in requests :: if q in same then requests[q].(status := Waiting) else requests[q])
    else if requestId in requests then Err(UniqueViolation)
    else Ok(requests[requestId := AccessRequest(account, project, Waiting)])
  }

  function RequestAccess(db: Tables, requestId: string, account: string, project: string): (r: Result<Tables>)
    ensures r.Ok? ==> OnlySeats(db, r.value) && r.value == db.(requests := r.value.requests)
  {
    if account !in db.accounts || project !in db.projects then Err(ForeignKeyViolation)
    else
      var requests :- Requested(db.requests, requestId, account, project);
      Ok(db.(requests := requests))
  }

  function Resettable(accounts: map<string, Account>, email: string): set<string> {
    set id | id in WithEmail(accounts, email) && accounts[id].verified && !accounts[id].status.Inactive?
  }

  function PasswordResetAccount(db: Tables, email: string): Result<string> {
    FirstRow(Resettable(db.accounts, email))
  }

  function AddPasswordReset(db: Tables, now: nat, account: string, hash: string)
    : (r: Result<Tables>)
    ensures r.Ok? ==> r.value == db.(resets := r.value.resets)
  {
    if hash in db.resets then Err(UniqueViolation)
    else if account !in db.accounts then Err(ForeignKeyViolation)
    else Ok(db.(resets := db.resets[hash := Ticket(account, now + 20 * MINUTE, false)]))
  }

  function SetPassword(accounts: map<string, Account>, id: string, password: StoredPassword): map<string, Account> {
    if id in accounts then accounts[id := accounts[id].(password := password)] else accounts
  }

  function RevokePasswordSessions(db: Tables, now: nat, id: string, password: StoredPassword)
    : (r: Result<Tables>)
    ensures r.Ok? ==> OnlyRevokes(db, r.value)
  {
    var revoked := RevokeCredentials(db.(accounts := SetPassword(db.accounts, id, password)), id);
    QueueAll(revoked, now, ProfileProjects(revoked, id, ""), SessionsRevoked, id, UserIdOnly)
  }

  function ResetPassword(db: Tables, now: nat, hash: string, password: StoredPassword): Result<Tables> {
    if hash in db.resets && !db.resets[hash].used && db.resets[hash].expires > now then
      var used := db.(resets := db.resets[hash := db.resets[hash].(used := true)]);
      RevokePasswordSessions(used, now, db.resets[hash].account, password)
    else Err(NoRows)
  }

  function ChangePassword(db: Tables, now: nat, id: string, current: string, password: StoredPassword)
    : Result<Tables>
  {
    if id !in db.accounts || db.accounts[id].status.Inactive? then Err(NoRows)
    else if !db.accounts[id].password.Verifies(current) then Err(InvalidCredentials)
    else RevokePasswordSessions(db, now, id, password)
  }

  function UpdateProfile(db: Tables, now: nat, id: string, login: string, given: string, family: string,
                         name: string, avatar: string)
    : (r: Result<Tables>)
    ensures r.Ok? ==> OnlyDirectory(db, r.value)
  {
    if id !in db.accounts || !db.accounts[id].status.Active? then Err(NoRows)
    else if !LoginFree(db.accounts, id, login) then Err(UniqueViolation)
    else
      var profile := Profile(db.accounts[id].profile.email, login, name, given, family, avatar);
      var updated := db.(accounts := db.accounts[id := db.accounts[id].(profile := profile)]);
      QueueAll(updated, now, ProfileProjects(updated, id, ""), ProfileUpdated, id, ProfileOnly(profile, []))
  }

  // ---------------------------------------------------------------- management.go

  function UpdateLegacyProfile(db: Tables, now: nat, project: string, id: string, name: string, avatar: string)
    : (r: Result<Tables>)
    ensures r.Ok? ==> OnlyDirectory(db, r.value)
  {
    if id !in db.accounts then Err(NoRows)
    else
      var profile := db.accounts[id].profile.(name := name, given := name, family := "", avatar := avatar);
      var updated := db.(accounts := db.accounts[id := db.accounts[id].(profile := profile)]);
      QueueAll(updated, now, [project] + ProfileProjects(updated, id, project), ProfileUpdated, id,
               ProfileOnly(profile, []))
  }

  function ApproveRequest(db: Tables, now: nat, project: string, request: string, roles: seq<string>)
    : (r: Result<Tables>)
    ensures r.Ok? ==> OnlySeats(db, r.value)
  {
    if request !in db.requests || db.requests[request].project != project || !db.requests[request].status.Waiting?
    then Err(NoRows)
    else
      var account := db.requests[request].account;
      var approved := db.(requests := db.requests[request := db.requests[request].(status := Approved)]);
      if account !in db.accounts || project !in db.projects then Err(ForeignKeyViolation) else
      var granted := approved.(access := db.access[Seat(account, project) := roles]);
      LogSeat(granted, now, AccessGranted, Seat(account, project), roles)
  }

  function SetProjectRoles(db: Tables, now: nat, project: string, account: string, roles: seq<string>)
    : (r: Result<Tables>)
    ensures r.Ok? ==> OnlySeats(db, r.value)
  {
    var seat := Seat(account, project);
    if seat !in db.access then Err(NoRows)
    else
      var changed := db.(access := db.access[seat := roles]);
      LogSeat(changed, now, RolesChanged, seat, roles)
  }

  // ---------------------------------------------------------------- clients.go

  function RegisterClient(db: Tables, id: string, project: string, secretHash: string, redirects: seq<string>)
    : Result<Tables>
  {
    if id in db.clients then Err(UniqueViolation)
    else Ok(db.(projects := db.projects + {project},
                clients := db.clients[id := Client(project, secretHash, redirects)]))
  }

  /** The roles of a seat with `admin` among them, appended when it is missing. */
  function AdminRoles(access: map<Seat, seq<string>>, seat: Seat): seq<string> {
    if seat !in access then ["admin"]
    else if "admin" in access[seat] then access[seat]
    else access[seat] + ["admin"]
  }

  function GrantProjectAdmin(db: Tables, now: nat, project: string, email: string)
    : (r: Result<Tables>)
    ensures r.Ok? ==> OnlySeats(db, r.value)
  {
    var account :- FirstRow(VerifiedActive(db.accounts, Lower(Trim(email))));
    SeatAdmin(db, now, project, account)
  }

  function SeatAdmin(db: Tables, now: nat, project: string, account: string)
    : (r: Result<Tables>)
    ensures r.Ok? ==> OnlySeats(db, r.value)
  {
    if project !in db.projects then Err(ForeignKeyViolation) else
    var seat := Seat(account, project);
    var roles := AdminRoles(db.access, seat);
    LogSeat(db.(access := db.access[seat := roles]), now, AccessGranted, seat, roles)
  }

  function GrantGlobalAdmin(db: Tables, email: string)
    : (r: Result<Tables>)
    ensures r.Ok? ==> OnlyDirectory(db, r.value)
  {
    var id :- FirstRow(VerifiedActive(db.accounts, email));
    Ok(db.(accounts := db.accounts[id := db.accounts[id].(globalAdmin := true)]))
  }

  function AdminAccount(email: string, password: StoredPassword): Account {
    Account(Profile(email, email, "Administrator", "", "", ""), password, Active, true, true, None)
  }

  function Promote(accounts: map<string, Account>, ids: set<string>): map<string, Account> {
    map id | id in accounts ::
      if id in ids then accounts[id].(globalAdmin := true, status := Active, verified := true) else accounts[id]
  }

  /** INSERT ... SELECT ... ON CONFLICT DO NOTHING: seats already there keep their roles. */
  function SeatAdmins(access: map<Seat, seq<string>>, ids: set<string>, project: string): map<Seat, seq<string>> {
    (map id | id in ids :: Seat(id, project) := ["admin"]) + access
  }

  /** The configured client, unless one of that name is there or the configuration is incomplete. */
  function EnsureClient(clients: map<string, Client>, project: string, client: string, secretHash: string,
                        redirect: string): map<string, Client>
  {
    if client != "" && secretHash != "" && redirect != "" && client !in clients
    then clients[client := Client(project, secretHash, [redirect])] else clients
  }

  /** The first two statements: the project, then its client when one is configured. */
  function EnsureProject(db: Tables, project: string, client: string, secretHash: string, redirect: string)
    : (r: Tables)
    ensures r == db.(projects := db.projects + {project}, clients := r.clients)
  {
    db.(projects := db.projects + {project},
        clients := EnsureClient(db.clients, project, client, secretHash, redirect))
  }

  /** EnsureBootstrap is not a transaction: each statement commits by itself, and a failing one keeps those before
      it. */
  function EnsureBootstrap(db: Tables, project: string, client: string, secretHash: string, redirect: string,
                           adminId: string, adminEmail: string, adminPassword: Option<StoredPassword>): (r: Tables)
    ensures r == db.(projects := db.projects + {project}, clients := r.clients, accounts := r.accounts,
                     access := r.access)
  {
    var first := EnsureProject(db, project, client, secretHash, redirect);
    if adminEmail == "" || adminPassword.None? then first
    else EnsureAdmin(first, project, adminId, adminEmail, adminPassword.value)
  }

  /** The one failure of the bootstrap: the administrator cannot be inserted. */
  function BootstrapError(db: Tables, adminId: string, adminEmail: string, adminPassword: Option<StoredPassword>)
    : Option<Error>
  {
    if adminEmail != "" && adminPassword.Some? && WithEmail(db.accounts, adminEmail) == {}
       && !Insertable(db.accounts, adminId, AdminAccount(adminEmail, adminPassword.value))
    then Some(UniqueViolation) else None
  }

  /** The accounts after the third statement: the administrator promoted, or inserted when the address is unknown. */
  function AdminAccounts(accounts: map<string, Account>, adminId: string, adminEmail: string, password: StoredPassword)
    : map<string, Account>
  {
    var present := WithEmail(accounts, adminEmail);
    if present != {} then Promote(accounts, present)
    else if Insertable(accounts, adminId, AdminAccount(adminEmail, password))
    then accounts[adminId := AdminAccount(adminEmail, password)] else accounts
  }

  /** The accounts that the fourth statement gives a seat; a failing third statement ends the bootstrap. */
  function Seated(accounts: map<string, Account>, adminId: string, adminEmail: string, password: StoredPassword)
    : set<string>
  {
    var present := WithEmail(accounts, adminEmail);
    if present != {} then present
    else if Insertable(accounts, adminId, AdminAccount(adminEmail, password)) then {adminId} else {}
  }

  /** The last two statements: the administrator's account, then a seat for every account with that address. */
  function EnsureAdmin(db: Tables, project: string, adminId: string, adminEmail: string, password: StoredPassword)
    : (r: Tables)
    ensures r == db.(accounts := r.accounts, access := r.access)
  {
    db.(accounts := AdminAccounts(db.accounts, adminId, adminEmail, password),
        access := SeatAdmins(db.access, Seated(db.accounts, adminId, adminEmail, password), project))
  }

  // ---------------------------------------------------------------- oauth.go

  function CreateAuthorizationCode(db: Tables, now: nat, hash: string, account: string, client: string,
                                   redirect: string, nonce: string, challenge: string, scopes: seq<string>)
    : Result<Tables>
  {
    if hash in db.codes then Err(UniqueViolation)
    else if account !in db.accounts || client !in db.clients then Err(ForeignKeyViolation)
    else Ok(db.(codes := db.codes[hash := Code(account, client, redirect, nonce, challenge, scopes,
                                               now + 2 * MINUTE, false)]))
  }

  /** The code is marked used only when client, redirect and PKCE challenge all match. */
  function ConsumeAuthorizationCode(db: Tables, now: nat, hash: string, client: string, redirect: string,
                                    challenge: string): Result<(Tables, Code)>
  {
    if hash in db.codes && !db.codes[hash].used && db.codes[hash].expires > now then
      var code := db.codes[hash];
      if code.client != client || code.redirect != redirect || code.challenge != challenge then Err(NoRows)
      else Ok((db.(codes := db.codes[hash := code.(used := true)]), code))
    else Err(NoRows)
  }

  datatype RefreshGrant = RefreshGrant(account: string, scopes: seq<string>)

  /** The one transaction that commits a change and still answers an error: reuse revokes the family.
      `hostNow` is the clock of the Go process, `now` that of the database. */
  function RotateRefresh(db: Tables, hash: string, nextHash: string, client: string, project: string, hostNow: nat)
    : (r: (Tables, Result<RefreshGrant>))
    ensures r.0 == db.(tokens := r.0.tokens)
  {
    if hash !in db.tokens then (db, Err(NoRows))
    else
      var t := db.tokens[hash];
      if t.client != client || t.project != project then (db, Err(NoRows))
      else if t.used || t.revoked then (db.(tokens := RevokeFamily(db.tokens, t.family)), Err(RefreshReuse))
      else if t.expires <= hostNow || t.familyExpires <= hostNow then (db, Err(NoRows))
      else if nextHash in db.tokens then (db, Err(UniqueViolation))
      else
        var next := RefreshToken(t.family, t.account, client, project, t.scopes, t.familyExpires, t.familyExpires,
                                 false, false);
        (db.(tokens := db.tokens[hash := t.(used := true)][nextHash := next]), Ok(RefreshGrant(t.account, t.scopes)))
  }

  function CreateRefresh(db: Tables, now: nat, hash: string, family: string, account: string, client: string,
                         project: string, scopes: seq<string>): (r: Result<Tables>)
    ensures r.Ok? ==> r.value == db.(tokens := r.value.tokens)
  {
    if hash in db.tokens then Err(UniqueViolation)
    else if account !in db.accounts || client !in db.clients || project !in db.projects then Err(ForeignKeyViolation)
    else Ok(db.(tokens := db.tokens[hash := RefreshToken(family, account, client, project, scopes,
                                                         now + 7 * DAY, now + 7 * DAY, false, false)]))
  }

  // ---------------------------------------------------------------- maintenance.go

  const MAX_ATTEMPTS: nat := 0x7fff_ffff

  /** The upsert of the attempt counter. `attempts` is a four-byte integer: one attempt too many fails. */
  function IncrementAttempt(limits: map<string, Limit>, now: nat, key: string, until: nat)
    : Result<(map<string, Limit>, nat)>
  {
    if key !in limits || limits[key].until < now then Ok((limits[key := Limit(1, until)], 1))
    else if limits[key].attempts >= MAX_ATTEMPTS then Err(InvalidInput)
    else
      var attempts := limits[key].attempts + 1;
      Ok((limits[key := Limit(attempts, limits[key].until)], attempts))
  }

  /** The eight statements of CleanupExpired. */
  datatype Statement = Limits | Verifications | Resets | Codes | Sessions | Tokens | Keys | Outbox

  const CLEANUP: seq<Statement> := [Limits, Verifications, Resets, Codes, Sessions, Tokens, Keys, Outbox]

  function RecentLimits(limits: map<string, Limit>, now: nat): map<string, Limit> {
    map k | k in limits && limits[k].until + DAY >= now :: limits[k]
  }

  function RecentKeys(keys: map<string, SigningKey>, now: nat): map<string, SigningKey> {
    map k | k in keys && (keys[k].publishUntil.Some? ==> keys[k].publishUntil.value + DAY >= now) :: keys[k]
  }

  function Clean(db: Tables, now: nat, statement: Statement): (r: Tables)
    ensures r == db.(limits := r.limits, verifications := r.verifications, resets := r.resets, codes := r.codes,
                     sessions := r.sessions, tokens := r.tokens, keys := r.keys, outbox := r.outbox)
  {
    match statement
    case Limits =>
      db.(limits := RecentLimits(db.limits, now))
    case Verifications =>
      db.(verifications := map h | h in db.verifications && db.verifications[h].expires + DAY >= now
                           :: db.verifications[h])
    case Resets =>
      db.(resets := map h | h in db.resets && db.resets[h].expires + DAY >= now :: db.resets[h])
    case Codes =>
      db.(codes := map h | h in db.codes && db.codes[h].expires + DAY >= now :: db.codes[h])
    case Sessions =>
      db.(sessions := map h | h in db.sessions && db.sessions[h].expires >= now :: db.sessions[h])
    case Tokens =>
      db.(tokens := map h | h in db.tokens && db.tokens[h].familyExpires + DAY >= now :: db.tokens[h])
    case Keys =>
      db.(keys := RecentKeys(db.keys, now))
    case Outbox =>
      db.(outbox := map i | i in db.outbox
                            && (db.outbox[i].published.Some? ==> db.outbox[i].published.value + 30 * DAY >= now)
                            :: db.outbox[i])
  }

  function CleanAll(db: Tables, now: nat, statements: seq<Statement>): Tables {
    if statements == [] then db
    else Clean(CleanAll(db, now, statements[..|statements| - 1]), now, statements[|statements| - 1])
  }

  // ---------------------------------------------------------------- keys.go

  const PUBLICATION: nat := 10 * MINUTE

  function RetireActive(keys: map<string, SigningKey>, now: nat): map<string, SigningKey> {
    map k | k in keys :: if keys[k].Retired() then keys[k] else keys[k].(publishUntil := Some(now + PUBLICATION))
  }

  /** `now` is the start time of the rotating transaction. */
  function RotateSigningKey(keys: map<string, SigningKey>, now: nat, kid: string): Result<map<string, SigningKey>> {
    if kid in keys then Err(UniqueViolation)
    else Ok(RetireActive(keys, now)[kid := SigningKey(now, None)])
  }

  function ActiveKeys(keys: map<string, SigningKey>): set<string> {
    set k | k in keys && !keys[k].Retired()
  }

  function PublishedKeys(keys: map<string, SigningKey>, now: nat): set<string> {
    set k | k in keys && keys[k].Published(now)
  }

  // ---------------------------------------------------------------- outbox.go

  function Unpublished(outbox: map<nat, OutboxRow>): set<nat> {
    set i | i in outbox && outbox[i].published.None?
  }

  /** A row that may be picked next: unpublished, and no unpublished row is older. */
  predicate Pickable(outbox: map<nat, OutboxRow>, row: nat) {
    && row in Unpublished(outbox)
    && forall i | i in Unpublished(outbox) :: outbox[row].created <= outbox[i].created
  }

  function RecordSend(outbox: map<nat, OutboxRow>, now: nat, row: nat, acknowledged: bool): map<nat, OutboxRow>
    requires row in outbox
  {
    var sent := outbox[row].(attempts := outbox[row].attempts + 1);
    outbox[row := if acknowledged then sent.(published := Some(now)) else sent]
  }
}
