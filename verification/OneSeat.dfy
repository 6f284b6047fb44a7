/** One seat through the requests: who is in which project with which roles, told from the request and its answer. */
module OneSeat {
  import opened Text
  import opened Schema
  import opened Repository
  import opened Import
  import opened Service
  import opened ChangeLog
  import opened Transactions
  import opened Credentials
  import opened Accounts
  import opened History
  import opened OneAccount

  function RolesAt(db: Tables, s: Seat): Option<seq<string>> {
    if s in db.access then Some(db.access[s]) else None
  }

  /** `admin` among the roles, at the end when it was missing. */
  function WithAdmin(roles: Option<seq<string>>): seq<string> {
    match roles
    case None => ["admin"]
    case Some(rs) => if "admin" in rs then rs else rs + ["admin"]
  }

  function AfterAdmin(had: Option<seq<string>>, db: Tables, r: AdminRequest, s: Seat): Option<seq<string>> {
    match r
    case DoGrant(account, project, roles) => if s == Seat(account, project) then Some(roles) else had
    case DoSetRoles(project, account, roles) => if s == Seat(account, project) then Some(roles) else had
    case DoApprove(project, requestId, roles) =>
      if requestId in db.requests && s == Seat(db.requests[requestId].account, project) then Some(roles) else had
    case DoRevoke(account, project) => if s == Seat(account, project) then None else had
    case DoDisable(_, account) => if s.account == account then None else had
    case DoGrantProjectAdmin(project, email) =>
      if s.project == project && s.account in db.accounts && db.accounts[s.account].profile.email == Lower(Trim(email))
      then Some(WithAdmin(had)) else had
    case _ => had
  }

  /** The roles of a seat that had `had`, after a request; only administration and a start touch the seats of accounts
      already there. Of the tables, only addresses and pending requests matter. */
  function RolesNext(had: Option<seq<string>>, db: Tables, r: Request, reply: Reply, s: Seat): Option<seq<string>> {
    match r
    case Restart(setup) =>
      if had.None? && s.project == setup.project && s.account in db.accounts
         && Promotes(setup, db.accounts[s.account].profile.email)
      then Some(["admin"]) else had
    case Admin(m) => if reply.Accepted? then AfterAdmin(had, db, m, s) else had
    case _ => had
  }

  /** The seats of the accounts already there become what `RolesNext` says. */
  ghost predicate SeatsFollow(a: Tables, b: Tables, r: Request, reply: Reply) {
    forall s: Seat :: s.account in a.accounts ==> RolesAt(b, s) == RolesNext(RolesAt(a, s), a, r, reply, s)
  }

  lemma SameSeats(a: Tables, b: Tables, r: Request, reply: Reply)
    requires b.access == a.access && !r.Restart? && (r.Admin? ==> reply.Refused?)
    ensures SeatsFollow(a, b, r, reply)
  {
  }

  // ---------------------------------------------------------------- administration

  /** What LogSeat does not touch. */
  lemma LoggedSeat(mid: Tables, now: nat, kind: Kind, seat: Seat, roles: seq<string>)
    requires LogSeat(mid, now, kind, seat, roles).Ok?
    ensures LogSeat(mid, now, kind, seat, roles).value.access == mid.access
  {
  }

  lemma GrantSeats(a: Tables, now: nat, account: string, project: string, roles: seq<string>)
    requires GrantAccess(a, now, account, project, roles).Ok?
    ensures GrantAccess(a, now, account, project, roles).value.access == a.access[Seat(account, project) := roles]
  {
  }

  lemma SetSeats(a: Tables, now: nat, project: string, account: string, roles: seq<string>)
    requires SetProjectRoles(a, now, project, account, roles).Ok?
    ensures SetProjectRoles(a, now, project, account, roles).value.access == a.access[Seat(account, project) := roles]
  {
  }

  lemma ApproveSeats(a: Tables, now: nat, project: string, requestId: string, roles: seq<string>)
    requires ApproveRequest(a, now, project, requestId, roles).Ok?
    ensures requestId in a.requests
    ensures ApproveRequest(a, now, project, requestId, roles).value.access
            == a.access[Seat(a.requests[requestId].account, project) := roles]
  {
  }

  lemma RevokeSeats(a: Tables, now: nat, account: string, project: string)
    requires RevokeAccess(a, now, account, project).Ok?
    ensures RevokeAccess(a, now, account, project).value.access == a.access - {Seat(account, project)}
  {
    hide RevokeSeat;
  }

  lemma DisableSeats(a: Tables, now: nat, actor: string, id: string)
    requires Disable(a, now, actor, id).Ok?
    ensures SeatsFollow(a, Disable(a, now, actor, id).value, Admin(DoDisable(actor, id)), Accepted(Nothing))
  {
    hide RevokeCredentials, ProfileProjects, QueueAll;
  }

  lemma AdminSeats(a: Tables, now: nat, project: string, email: string)
    requires AccountsOk(a.accounts) && GrantProjectAdmin(a, now, project, email).Ok?
    ensures SeatsFollow(a, GrantProjectAdmin(a, now, project, email).value,
                        Admin(DoGrantProjectAdmin(project, email)), Accepted(Nothing))
  {
    hide Lower, Trim;
    var id := FirstRow(VerifiedActive(a.accounts, Lower(Trim(email)))).value;
    forall o | o in a.accounts && o != id ensures a.accounts[o].profile.email != Lower(Trim(email)) {
      assert Apart(a.accounts[id], a.accounts[o]);
    }
  }

  lemma AdministrationSeats(a: Tables, now: nat, r: AdminRequest)
    requires AccountsOk(a.accounts)
    ensures var (b, reply) := HandleAdmin(a, now, r); SeatsFollow(a, b, Admin(r), reply)
  {
    hide AccountsOk, SeatsFollow, OnlyDirectory, OnlyRevokes, Disable, GrantAccess, RevokeAccess, ApproveRequest,
         SetProjectRoles, GrantProjectAdmin, GrantGlobalAdmin, Lower, Trim;
    var (b, reply) := HandleAdmin(a, now, r);
    if reply.Refused? {
      SameSeats(a, b, Admin(r), reply);
    } else {
      match r
      case DoActivate(_) => QuietAdmin(a, now, r);
      case DoGrantGlobalAdmin(_) => QuietAdmin(a, now, r);
      case DoDisable(actor, id) => DisableSeats(a, now, actor, id);
      case DoGrantProjectAdmin(project, email) => AdminSeats(a, now, project, email);
      case DoGrant(account, project, roles) =>
        GrantSeats(a, now, account, project, roles);
        assert SeatsFollow(a, b, Admin(r), reply) by { OneSeatFollows(a, b, r, Seat(account, project)); }
      case DoSetRoles(project, account, roles) =>
        SetSeats(a, now, project, account, roles);
        assert SeatsFollow(a, b, Admin(r), reply) by { OneSeatFollows(a, b, r, Seat(account, project)); }
      case DoApprove(project, requestId, roles) =>
        ApproveSeats(a, now, project, requestId, roles);
        assert SeatsFollow(a, b, Admin(r), reply) by {
          OneSeatFollows(a, b, r, Seat(a.requests[requestId].account, project));
        }
      case DoRevoke(account, project) =>
        RevokeSeats(a, now, account, project);
        assert SeatsFollow(a, b, Admin(r), reply) by { OneSeatFollows(a, b, r, Seat(account, project)); }
    }
  }

  /** Enough for a request about one seat. */
  lemma OneSeatFollows(a: Tables, b: Tables, r: AdminRequest, seat: Seat)
    requires !r.DoDisable? && !r.DoGrantProjectAdmin?
    requires forall s :: s != seat ==> RolesAt(b, s) == RolesAt(a, s) == AfterAdmin(RolesAt(a, s), a, r, s)
    requires RolesAt(b, seat) == AfterAdmin(RolesAt(a, seat), a, r, seat)
    ensures SeatsFollow(a, b, Admin(r), Accepted(Nothing))
  {
  }

  lemma QuietAdmin(a: Tables, now: nat, r: AdminRequest)
    requires r.DoActivate? || r.DoGrantGlobalAdmin?
    ensures var (b, reply) := HandleAdmin(a, now, r); SeatsFollow(a, b, Admin(r), reply)
  {
    hide FirstRow, VerifiedActive, Lower, Trim;
  }

  // ---------------------------------------------------------------- the directory and starts

  lemma InsertedIsNew(accounts: map<string, Account>, id: string, a: Account)
    requires Insertable(accounts, id, a)
    ensures id !in accounts
  {
  }

  lemma ImportUserSeats(a: Tables, now: nat, u: LegacyUser, id: string)
    requires ImportUser(a, now, u, id).Ok?
    ensures var b := ImportUser(a, now, u, id).value;
            forall s: Seat :: s.account in a.accounts ==> s.account in b.accounts && RolesAt(b, s) == RolesAt(a, s)
  {
    hide Imported, RolesOf, AccountOf, Insertable, LogSeat;
    if Insertable(a.accounts, id, AccountOf(u)) { InsertedIsNew(a.accounts, id, AccountOf(u)); }
    var seated := a.(accounts := a.accounts[id := AccountOf(u)],
                     access := a.access[Seat(id, PROJECT) := RolesOf(u)]);
    if LogSeat(seated, now, AccessGranted, Seat(id, PROJECT), RolesOf(u)).Ok? {
      LoggedSeat(seated, now, AccessGranted, Seat(id, PROJECT), RolesOf(u));
    }
  }

  lemma {:induction false} ImportSeats(a: Tables, now: nat, users: seq<LegacyUser>, ids: seq<string>)
    requires |users| == |ids| && ImportAll(a, now, users, ids).Ok?
    ensures var b := ImportAll(a, now, users, ids).value;
            forall s: Seat :: s.account in a.accounts ==> s.account in b.accounts && RolesAt(b, s) == RolesAt(a, s)
  {
    hide ImportUser;
    if users != [] {
      var n := |users| - 1;
      ImportSeats(a, now, users[..n], ids[..n]);
      ImportUserSeats(ImportAll(a, now, users[..n], ids[..n]).value, now, users[n], ids[n]);
    }
  }

  lemma DirectorySeats(a: Tables, now: nat, r: DirectoryRequest)
    ensures var (b, reply) := HandleDirectory(a, now, r); SeatsFollow(a, b, Directory(r), reply)
  {
    hide SeatsFollow, Register, ResendVerification, VerifyEmail, SubmitProfile, UpdateLegacyProfile,
         SubmitAccessRequest, ImportAll, Readable;
    var (b, reply) := HandleDirectory(a, now, r);
    if r.DoImport? {
      if ImportUsers(a, now, r.users, r.ids).Ok? {
        ImportSeats(a, now, r.users, r.ids);
        assert SeatsFollow(a, b, Directory(r), reply) by { UntouchedSeats(a, b, r, reply); }
      } else {
        SameSeats(a, b, Directory(r), reply);
      }
    } else {
      QuietDirectory(a, now, r);
      SameSeats(a, b, Directory(r), reply);
    }
  }

  lemma UntouchedSeats(a: Tables, b: Tables, r: DirectoryRequest, reply: Reply)
    requires forall s: Seat :: s.account in a.accounts ==> RolesAt(b, s) == RolesAt(a, s)
    ensures SeatsFollow(a, b, Directory(r), reply)
  {
  }

  lemma QuietDirectory(a: Tables, now: nat, r: DirectoryRequest)
    requires !r.DoImport?
    ensures HandleDirectory(a, now, r).0.access == a.access
  {
    hide Lower, Trim, LoginShape, LoginFree, Insertable, QueueAll, ProfileProjects, FirstRow, Unconfirmed, Requested;
  }

  lemma BootSeats(a: Tables, s: Setup)
    requires Standing(a)
    ensures var (b, reply) := Boot(a, s); SeatsFollow(a, b, Restart(s), reply)
  {
    hide EnsureAdmin, EnsureClient;
    if s.adminEmail != "" && s.adminPassword.Some? {
      AdminsSeated(EnsureProject(a, s.project, s.client, s.secretHash, s.redirect), s, s.adminPassword.value);
    }
  }

  lemma AdminsSeated(a: Tables, s: Setup, password: StoredPassword)
    requires s.adminEmail != "" && s.adminPassword == Some(password)
    ensures var b := EnsureAdmin(a, s.project, s.adminId, s.adminEmail, password);
            forall seat: Seat :: seat.account in a.accounts ==>
              RolesAt(b, seat)
              == (if RolesAt(a, seat).None? && seat.project == s.project
                     && a.accounts[seat.account].profile.email == s.adminEmail
                  then Some(["admin"]) else RolesAt(a, seat))
  {
    hide AdminAccounts, AdminAccount;
    var present := WithEmail(a.accounts, s.adminEmail);
    assert forall id :: id in a.accounts && a.accounts[id].profile.email == s.adminEmail ==> id in present;
    var ids := Seated(a.accounts, s.adminId, s.adminEmail, password);
    forall seat: Seat | seat.account in a.accounts
      ensures seat in SeatAdmins(a.access, ids, s.project)
              <==> seat in a.access || (seat.project == s.project && seat.account in ids)
    {
      SeatedIn(a.access, ids, s.project, seat);
    }
  }

  lemma SeatedIn(access: map<Seat, seq<string>>, ids: set<string>, project: string, seat: Seat)
    ensures seat in SeatAdmins(access, ids, project)
            <==> seat in access || (seat.project == project && seat.account in ids)
    ensures seat in access ==> SeatAdmins(access, ids, project)[seat] == access[seat]
    ensures seat !in access && seat in SeatAdmins(access, ids, project) ==>
              SeatAdmins(access, ids, project)[seat] == ["admin"]
  {
    if seat.project == project && seat.account in ids { assert seat == Seat(seat.account, project); }
  }

  // ---------------------------------------------------------------- every request

  lemma ElsewhereSeats(a: Tables, now: nat, r: Request)
    requires r.OAuth? || r.Upkeep? || r.Login?
    ensures Handle(a, now, r).0.access == a.access
  {
    hide HandleLogin, HandleOAuth, HandleUpkeep;
    match r
    case OAuth(o) => OAuthSeats(a, now, o);
    case Upkeep(u) => UpkeepFrame(a, now, u);
    case Login(l) => LoginSeats(a, now, l);
    case _ =>
  }

  lemma OAuthSeats(a: Tables, now: nat, r: OAuthRequest)
    ensures HandleOAuth(a, now, r).0.access == a.access
  {
    hide Authorize, Exchange, Refresh, Settle, SubmitClient;
    match r
    case DoRegisterClient(client, project, secretHash, redirects) =>
      ClientSeats(a, client, project, secretHash, redirects);
    case DoAuthorize(input, code) => AuthorizeCases(a, now, input, code);
    case DoExchange(client, code, redirect, challenge, refresh, family, signed) =>
      ExchangeElsewhere(a, now, client, code, redirect, challenge, refresh, family, signed);
    case DoRefresh(client, token, next, hostNow, signed) =>
      RefreshElsewhere(a, client, token, next, hostNow, signed);
  }

  lemma ClientSeats(a: Tables, id: string, project: string, secretHash: string, redirects: seq<string>)
    ensures Settle(a, SubmitClient(a, id, project, secretHash, redirects)).0.access == a.access
  {
  }

  lemma LoginSeats(a: Tables, now: nat, r: LoginRequest)
    ensures HandleLogin(a, now, r).0.access == a.access
  {
    hide Lower, Trim, QueueAll, ProfileProjects, SessionAccount, FirstRow, LoginMatches, Resettable, SetPassword,
         SessionsWithout, CodesWithout, TicketsWithout, RevokeAccount;
  }

  /** Whatever the request and its answer: the seats of the accounts already there become what is said above. */
  lemma SeatStep(a: Tables, now: nat, r: Request)
    requires AccountsOk(a.accounts) && Standing(a)
    ensures var (b, reply) := Handle(a, now, r); SeatsFollow(a, b, r, reply)
  {
    hide AccountsOk, Standing, SeatsFollow, HandleDirectory, HandleLogin, HandleAdmin, HandleOAuth, HandleUpkeep, Boot;
    match r
    case Directory(d) => DirectorySeats(a, now, d);
    case Admin(m) => AdministrationSeats(a, now, m);
    case Restart(s) => BootSeats(a, s);
    case _ =>
      var (b, reply) := Handle(a, now, r);
      ElsewhereSeats(a, now, r);
      SameSeats(a, b, r, reply);
  }
}
