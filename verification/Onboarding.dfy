/** How accounts come to be: registrations, verification links, imported users and configured administrators, each
    stored as it was asked for, field by field. */
module Onboarding {
  import opened Order
  import opened Text
  import opened Schema
  import opened Repository
  import opened Import
  import opened Service
  import opened ChangeLog
  import opened Transactions
  import opened History
  import opened Credentials
  import opened Accounts
  import opened OneAccount
  import opened OneSeat
  import opened Profiles

  // ---------------------------------------------------------------- one verification link

  function LinkAt(db: Tables, h: string): Option<Ticket> {
    if h in db.verifications then Some(db.verifications[h]) else None
  }

  /** The accounts that are sent a new link when somebody asks for one. */
  predicate Waits(db: Tables, email: string, id: string) {
    id in db.accounts && db.accounts[id].profile.email == Lower(Trim(email)) && !db.accounts[id].verified
  }

  /** What a verification link can be after a request. */
  predicate LinkNext(db: Tables, now: nat, r: Request, reply: Reply, h: string, b: Option<Ticket>) {
    var had := LinkAt(db, h);
    match r
    case Directory(DoRegister(id, _, _, ticket)) =>
      b == if reply.Accepted? && ticket == h then Some(Ticket(id, now + HOUR, false)) else had
    case Directory(DoResendVerification(email, ticket)) =>
      if ticket == h && had.None? then
        if b.Some? then b.value == Ticket(b.value.account, now + HOUR, false) && Waits(db, email, b.value.account)
        else forall id :: id in db.accounts ==> !Waits(db, email, id)
      else b == had
    case Directory(DoVerifyEmail(ticket)) =>
      b == if reply.Accepted? && ticket == h && had.Some? then Some(had.value.(used := true)) else had
    case Upkeep(DoClean(Verifications)) => b == if had.Some? && had.value.expires + DAY < now then None else had
    case _ => b == had
  }

  ghost predicate LinksFollow(a: Tables, now: nat, r: Request, b: Tables, reply: Reply) {
    forall h: string :: LinkNext(a, now, r, reply, h, LinkAt(b, h))
  }

  predicate AboutLinks(r: Request) {
    || (r.Directory? && (r.directory.DoRegister? || r.directory.DoResendVerification? || r.directory.DoVerifyEmail?))
    || (r.Upkeep? && r.upkeep.DoClean?)
  }

  lemma SameLinks(a: Tables, now: nat, r: Request, b: Tables, reply: Reply)
    requires b.verifications == a.verifications && !AboutLinks(r)
    ensures LinksFollow(a, now, r, b, reply)
  {
    hide Waits;
  }

  lemma RegisterLinks(a: Tables, now: nat, r: DirectoryRequest)
    requires r.DoRegister?
    ensures var (b, reply) := HandleDirectory(a, now, r); LinksFollow(a, now, Directory(r), b, reply)
  {
    hide Lower, Trim, LoginShape, Insertable, Waits;
  }

  lemma ResendTables(a: Tables, now: nat, r: DirectoryRequest)
    requires r.DoResendVerification?
    ensures var b := HandleDirectory(a, now, r).0;
            || (b == a && (r.ticket in a.verifications || forall id :: id in a.accounts ==> !Waits(a, r.email, id)))
            || (r.ticket !in a.verifications
                && exists id :: Waits(a, r.email, id)
                                && b == a.(verifications := a.verifications[r.ticket := Ticket(id, now + HOUR, false)]))
  {
    hide Lower, Trim;
    var email := Lower(Trim(r.email));
    assert forall id :: id in Unconfirmed(a.accounts, email) <==> Waits(a, r.email, id);
    if Unconfirmed(a.accounts, email) != {} {
      var id := FirstRow(Unconfirmed(a.accounts, email)).value;
      assert Waits(a, r.email, id);
    }
  }

  lemma ResendLinks(a: Tables, now: nat, r: DirectoryRequest)
    requires r.DoResendVerification?
    ensures var (b, reply) := HandleDirectory(a, now, r); LinksFollow(a, now, Directory(r), b, reply)
  {
    hide HandleDirectory, Waits;
    ResendTables(a, now, r);
  }

  lemma VerifyLinks(a: Tables, now: nat, r: DirectoryRequest)
    requires r.DoVerifyEmail?
    ensures var (b, reply) := HandleDirectory(a, now, r); LinksFollow(a, now, Directory(r), b, reply)
  {
    hide Waits, MarkVerified;
  }

  lemma CleanLinks(a: Tables, now: nat, statement: Statement)
    ensures LinksFollow(a, now, Upkeep(DoClean(statement)), Clean(a, now, statement), Accepted(Nothing))
  {
    hide Waits;
  }

  lemma QuietDirectoryLinks(a: Tables, now: nat, r: DirectoryRequest)
    requires !AboutLinks(Directory(r))
    ensures HandleDirectory(a, now, r).0.verifications == a.verifications
  {
    hide Lower, Trim, LoginShape, LoginFree, QueueAll, ProfileProjects, ImportAll, Readable, RequestAccess;
  }

  lemma AdminLinks(a: Tables, now: nat, r: AdminRequest)
    ensures HandleAdmin(a, now, r).0.verifications == a.verifications
  {
    hide DisableAccount, GrantAccess, RevokeAccess, ApproveRequest, SetProjectRoles, SeatAdmin, FirstRow,
         VerifiedActive, Lower, Trim;
  }

  lemma ElsewhereLinks(a: Tables, now: nat, r: Request)
    requires r.OAuth? || r.Login? || r.Restart?
    ensures Handle(a, now, r).0.verifications == a.verifications
  {
    hide HandleLogin, HandleOAuth, Boot;
    match r
    case OAuth(o) => OAuthLinks(a, now, o);
    case Login(l) => LoginLinks(a, now, l);
    case Restart(s) => BootElsewhere(a, s);
    case _ =>
  }

  lemma OAuthLinks(a: Tables, now: nat, r: OAuthRequest)
    ensures HandleOAuth(a, now, r).0.verifications == a.verifications
  {
    hide Authorize, Exchange, Refresh, Settle, SubmitClient;
    match r
    case DoRegisterClient(client, project, secretHash, redirects) =>
      ClientLinks(a, client, project, secretHash, redirects);
    case DoAuthorize(input, code) => AuthorizeCases(a, now, input, code);
    case DoExchange(client, code, redirect, challenge, refresh, family, signed) =>
      ExchangeElsewhere(a, now, client, code, redirect, challenge, refresh, family, signed);
    case DoRefresh(client, token, next, hostNow, signed) =>
      RefreshElsewhere(a, client, token, next, hostNow, signed);
  }

  lemma ClientLinks(a: Tables, id: string, project: string, secretHash: string, redirects: seq<string>)
    ensures Settle(a, SubmitClient(a, id, project, secretHash, redirects)).0.verifications == a.verifications
  {
  }

  lemma LoginLinks(a: Tables, now: nat, r: LoginRequest)
    ensures HandleLogin(a, now, r).0.verifications == a.verifications
  {
    hide Lower, Trim, QueueAll, ProfileProjects, SessionAccount, FirstRow, LoginMatches, Resettable, SetPassword,
         SessionsWithout, CodesWithout, TicketsWithout, RevokeAccount;
  }

  lemma DirectoryLinks(a: Tables, now: nat, r: DirectoryRequest)
    ensures var (b, reply) := HandleDirectory(a, now, r); LinksFollow(a, now, Directory(r), b, reply)
  {
    hide LinksFollow, HandleDirectory;
    var (b, reply) := HandleDirectory(a, now, r);
    if r.DoRegister? { RegisterLinks(a, now, r); }
    else if r.DoResendVerification? { ResendLinks(a, now, r); }
    else if r.DoVerifyEmail? { VerifyLinks(a, now, r); }
    else {
      QuietDirectoryLinks(a, now, r);
      SameLinks(a, now, Directory(r), b, reply);
    }
  }

  lemma UpkeepLinks(a: Tables, now: nat, r: UpkeepRequest)
    ensures var (b, reply) := HandleUpkeep(a, now, r); LinksFollow(a, now, Upkeep(r), b, reply)
  {
    hide LinksFollow, HandleUpkeep, Clean;
    var (b, reply) := HandleUpkeep(a, now, r);
    if r.DoClean? {
      CleanRequest(a, now, r);
      CleanLinks(a, now, r.statement);
      OneReply(a, now, r);
    } else {
      UpkeepElsewhere(a, now, r);
      SameLinks(a, now, Upkeep(r), b, reply);
    }
  }

  lemma LinkStep(a: Tables, now: nat, r: Request)
    ensures var (b, reply) := Handle(a, now, r); LinksFollow(a, now, r, b, reply)
  {
    hide LinksFollow, HandleDirectory, HandleLogin, HandleAdmin, HandleOAuth, HandleUpkeep, Boot;
    var (b, reply) := Handle(a, now, r);
    match r
    case Directory(d) => DirectoryLinks(a, now, d);
    case Upkeep(u) => UpkeepLinks(a, now, u);
    case Admin(m) =>
      AdminLinks(a, now, m);
      SameLinks(a, now, r, b, reply);
    case _ =>
      ElsewhereLinks(a, now, r);
      SameLinks(a, now, r, b, reply);
  }

  lemma OneReply(a: Tables, now: nat, r: UpkeepRequest)
    requires r.DoClean?
    ensures HandleUpkeep(a, now, r).1 == Accepted(Nothing)
  {
    hide Clean;
  }

  // ---------------------------------------------------------------- links last exactly

  /** Every verification link was drawn at random. */
  predicate LinksDrawn(w: World) {
    w.db.verifications.Keys <= w.drawn
  }

  lemma ServeLinksDrawn(w: World, r: Request)
    requires LinksDrawn(w)
    ensures LinksDrawn(Service.Serve(w, r))
  {
    hide Handle, Waits;
    LinkStep(w.db, w.clock, r);
    var (b, reply) := Handle(w.db, w.clock, r);
    forall h | h in b.verifications ensures h in w.drawn + Drawn(r) {
      assert LinkNext(w.db, w.clock, r, reply, h, LinkAt(b, h));
    }
  }

  lemma {:induction false} RunLinksDrawn(w: World, rs: seq<Request>)
    requires LinksDrawn(w)
    ensures LinksDrawn(Run(w, rs))
  {
    hide Service.Serve, LinksDrawn;
    if rs != [] {
      RunLinksDrawn(w, rs[..|rs| - 1]);
      ServeLinksDrawn(Run(w, rs[..|rs| - 1]), rs[|rs| - 1]);
    }
  }

  /** The link was followed successfully during the run. */
  predicate Followed(w: World, rs: seq<Request>, h: string) {
    rs != [] &&
    (var v := Run(w, rs[..|rs| - 1]);
     Followed(w, rs[..|rs| - 1], h)
     || (rs[|rs| - 1] == Directory(DoVerifyEmail(h)) && Handle(v.db, v.clock, rs[|rs| - 1]).1.Accepted?))
  }

  predicate LinkIs(db: Tables, h: string, account: string, expires: nat, used: bool, clock: nat) {
    (h in db.verifications && db.verifications[h] == Ticket(account, expires, used))
    || (h !in db.verifications && expires + DAY < clock)
  }

  lemma LinkServed(w: World, r: Request, h: string, account: string, expires: nat, used: bool)
    requires LinkIs(w.db, h, account, expires, used, w.clock) && h in w.drawn && Drawn(r) !! w.drawn
    ensures LinkIs(Service.Serve(w, r).db, h, account, expires,
                   used || (r == Directory(DoVerifyEmail(h)) && Handle(w.db, w.clock, r).1.Accepted?),
                   Service.Serve(w, r).clock)
  {
    hide Handle, Waits;
    LinkStep(w.db, w.clock, r);
    var (b, reply) := Handle(w.db, w.clock, r);
    assert LinkNext(w.db, w.clock, r, reply, h, LinkAt(b, h));
  }

  lemma {:induction false} LinkForTheRun(w: World, rs: seq<Request>, h: string, account: string, expires: nat)
    requires AdmissibleRun(w, rs) && h in w.drawn && LinkIs(w.db, h, account, expires, false, w.clock)
    ensures var v := Run(w, rs); h in v.drawn && LinkIs(v.db, h, account, expires, Followed(w, rs, h), v.clock)
  {
    hide Handle, LinkIs;
    if rs != [] {
      LinkForTheRun(w, rs[..|rs| - 1], h, account, expires);
      LinkServed(Run(w, rs[..|rs| - 1]), rs[|rs| - 1], h, account, expires, Followed(w, rs[..|rs| - 1], h));
    }
  }

  lemma VerifyOnTables(a: Tables, now: nat, h: string)
    ensures var (b, reply) := Handle(a, now, Directory(DoVerifyEmail(h)));
            && (reply.Accepted?
                <==> h in a.verifications && !a.verifications[h].used && now < a.verifications[h].expires)
            && (reply.Refused? ==> b == a)
  {
    hide MarkVerified;
  }

  /** The link of a registration verifies the account it was made for, within the hour, once, whatever else happens. */
  lemma LinksLastExactly(w: World, r: DirectoryRequest, rs: seq<Request>)
    requires AllOk(w) && r.DoRegister? && Admissible(w, Directory(r))
    requires Handle(w.db, w.clock, Directory(r)).1.Accepted? && AdmissibleRun(Service.Serve(w, Directory(r)), rs)
    ensures var first := Service.Serve(w, Directory(r));
            var v := Run(first, rs);
            var (b, reply) := Handle(v.db, v.clock, Directory(DoVerifyEmail(r.ticket)));
            && (reply.Accepted? <==> !Followed(first, rs, r.ticket) && v.clock < w.clock + HOUR)
            && (reply.Accepted? ==> forall o :: o in v.db.accounts ==>
                  && o in b.accounts
                  && b.accounts[o] == if o == r.id then v.db.accounts[o].(verified := true) else v.db.accounts[o])
            && (reply.Refused? ==> b == v.db)
  {
    hide Handle, AllOk, Note, Followed, Waits;
    var first := Service.Serve(w, Directory(r));
    LinkStep(w.db, w.clock, Directory(r));
    assert LinkNext(w.db, w.clock, Directory(r), Handle(w.db, w.clock, Directory(r)).1, r.ticket,
                    LinkAt(first.db, r.ticket));
    ServeAllOk(w, Directory(r));
    LinkForTheRun(first, rs, r.ticket, r.id, w.clock + HOUR);
    RunAllOk(first, rs);
    var v := Run(first, rs);
    VerifyOnTables(v.db, v.clock, r.ticket);
    AccountStep(v.db, v.clock, Directory(DoVerifyEmail(r.ticket))) by { NamesOk(v); }
  }

  // ---------------------------------------------------------------- registration

  function FormName(form: Registration): string {
    var joined := Trim(Trim(form.given) + " " + Trim(form.family));
    if joined == "" then Trim(form.name) else joined
  }

  /** An address, a login that is the address or of the pattern, fields of acceptable length, and an id, address, login
      and link that are new. */
  predicate MayRegister(db: Tables, r: DirectoryRequest)
    requires r.DoRegister?
  {
    var email, login := Lower(Trim(r.form.email)), FormLogin(r.form);
    && '@' in email && |email| <= 254 && |login| <= 254 && (login == email || LoginPattern(login))
    && |Trim(r.form.given)| <= 100 && |Trim(r.form.family)| <= 100 && |FormName(r.form)| <= 200
    && 12 <= |r.password.password| <= 1024
    && r.id !in db.accounts && r.ticket !in db.verifications
    && forall o :: o in db.accounts ==>
         db.accounts[o].profile.email != email && db.accounts[o].profile.login != login
  }

  lemma FormIsInsertable(accounts: map<string, Account>, r: DirectoryRequest, a: Account)
    requires AccountsOk(accounts) && r.DoRegister? && a.profile.email == Lower(Trim(r.form.email))
    requires a.profile.login == FormLogin(r.form) && a.oldId.None?
    ensures Insertable(accounts, r.id, a)
            <==> && r.id !in accounts
                 && forall o :: o in accounts ==>
                      accounts[o].profile.email != a.profile.email && accounts[o].profile.login != a.profile.login
  {
    hide Trim;
    LowerIsIdempotent(Trim(r.form.email));
    LowerIsIdempotent(Trim(r.form.login));
    forall o | o in accounts ensures Lower(accounts[o].profile.login) == accounts[o].profile.login {
      assert NameOk(accounts[o].profile);
    }
  }

  lemma RegisterOnTables(a: Tables, now: nat, r: DirectoryRequest)
    requires AccountsOk(a.accounts) && r.DoRegister?
    ensures var (b, reply) := HandleDirectory(a, now, r);
            && (reply.Accepted? <==> MayRegister(a, r))
            && (reply.Refused? ==> b == a)
            && (reply.Accepted? ==>
                  && r.id in b.accounts
                  && b == a.(accounts := a.accounts[r.id := b.accounts[r.id]],
                             verifications := a.verifications[r.ticket := Ticket(r.id, now + HOUR, false)])
                  && b.accounts[r.id] == Account(Profile(Lower(Trim(r.form.email)), FormLogin(r.form), FormName(r.form),
                                                         Trim(r.form.given), Trim(r.form.family), ""),
                                                 r.password, PendingApproval, false, false, None))
  {
    hide Lower, Trim, LoginShape, LoginPattern, AccountsOk, Insertable;
    var email, login := Lower(Trim(r.form.email)), FormLogin(r.form);
    PatternIsShape(login);
    FormIsInsertable(a.accounts, r, Account(Profile(email, login, FormName(r.form), Trim(r.form.given),
                                                    Trim(r.form.family), ""), r.password, PendingApproval, false, false,
                                            None));
  }

  /** A registration succeeds exactly when it may; then the one new account has each field as the form gives it, waits
      for approval and for its address to be verified, and has one link, good for an hour. */
  lemma RegisterAnswers(w: World, rs: seq<Request>, r: DirectoryRequest)
    requires AllOk(w) && AdmissibleRun(w, rs) && r.DoRegister?
    ensures var v := Run(w, rs);
            var (b, reply) := Handle(v.db, v.clock, Directory(r));
            && (reply.Accepted? <==> MayRegister(v.db, r))
            && (reply.Refused? ==> b == v.db)
            && (reply.Accepted? ==>
                  && r.id in b.accounts && b.accounts - {r.id} == v.db.accounts
                  && (var a := b.accounts[r.id];
                      && a.profile.email == Lower(Trim(r.form.email)) && a.profile.login == FormLogin(r.form)
                      && a.profile.given == Trim(r.form.given) && a.profile.family == Trim(r.form.family)
                      && a.profile.name == FormName(r.form) && a.profile.avatar == ""
                      && a.password == r.password && a.status == PendingApproval && !a.verified && !a.globalAdmin
                      && a.oldId == None)
                  && b.verifications == v.db.verifications[r.ticket := Ticket(r.id, v.clock + HOUR, false)]
                  && b == v.db.(accounts := b.accounts, verifications := b.verifications))
  {
    hide Service.Serve, Admissible, HandleDirectory, AccountsOk, Lower, Trim, MayRegister, FormLogin, FormName;
    RunAllOk(w, rs);
    var v := Run(w, rs);
    RegisterOnTables(v.db, v.clock, r);
    NewIdIsNew(v.db, r);
  }

  lemma NewIdIsNew(db: Tables, r: DirectoryRequest)
    requires r.DoRegister?
    ensures MayRegister(db, r) ==> r.id !in db.accounts
  {
  }

  // ---------------------------------------------------------------- the import

  /** The account of a record of the file, field by field. */
  predicate OfRecord(a: Account, u: LegacyUser) {
    && a.profile.email == u.email && a.profile.login == u.email && a.profile.name == u.name
    && a.profile.given == "" && a.profile.family == "" && a.profile.avatar == ""
    && a.password == u.hash && a.oldId == Some(u.oldId) && !a.globalAdmin
    && (a.verified <==> u.status == "approved")
    && (u.status == "approved" ==> a.status.Active?)
    && (u.status == "pending" ==> a.status.PendingApproval?)
    && (u.status == "rejected" ==> a.status.Inactive?)
  }

  /** The seat of a record: its role, and its legacy role when it has one, in the one project of the import. */
  function SeatOfRecord(u: LegacyUser): Option<seq<string>> {
    if u.status != "approved" then None
    else match u.roleId
      case None => Some([u.role])
      case Some(id) => Some([u.role, "legacy-role-" + id])
  }

  predicate ComesFrom(b: Tables, users: seq<LegacyUser>, ids: seq<string>, id: string)
    requires |users| == |ids| && id in b.accounts
  {
    exists i :: 0 <= i < |ids| && ids[i] == id && OfRecord(b.accounts[id], users[i])
                && RolesAt(b, Seat(id, "main_api")) == SeatOfRecord(users[i])
  }

  /** Accounts already there are untouched, new ones come from the file. */
  predicate ImportedFrom(a: Tables, b: Tables, users: seq<LegacyUser>, ids: seq<string>)
    requires |users| == |ids|
  {
    && (forall id :: id in a.accounts ==> id in b.accounts && b.accounts[id] == a.accounts[id])
    && (forall id :: id in b.accounts && id !in a.accounts ==> ComesFrom(b, users, ids, id))
  }

  lemma RecordOf(u: LegacyUser)
    requires WellFormed(u)
    ensures OfRecord(AccountOf(u), u)
    ensures AccountOf(u).status.Active? <==> u.status == "approved"
    ensures u.status == "approved" ==> SeatOfRecord(u) == Some(RolesOf(u))
  {
    hide Lower, Trim;
    if u.roleId.Some? {
      assert [u.role] + ["legacy-role-" + u.roleId.value] == [u.role, "legacy-role-" + u.roleId.value];
    } else {
      assert [u.role] + [] == [u.role];
    }
  }

  lemma RecordInserted(a: Tables, now: nat, u: LegacyUser, id: string)
    requires Standing(a) && WellFormed(u) && ImportUser(a, now, u, id).Ok?
    ensures var b := ImportUser(a, now, u, id).value;
            || b == a
            || (&& id !in a.accounts && id in b.accounts && b.accounts == a.accounts[id := b.accounts[id]]
                && OfRecord(b.accounts[id], u) && RolesAt(b, Seat(id, "main_api")) == SeatOfRecord(u)
                && b.access - {Seat(id, "main_api")} == a.access)
    ensures Imported(ImportUser(a, now, u, id).value, u)
  {
    hide Lower, Trim, WellFormed, OfRecord, AccountOf, RolesOf, Insertable, Imported;
    RecordOf(u);
    if !Imported(a, u) {
      InsertableIsNew(a.accounts, id, AccountOf(u));
      assert Seat(id, PROJECT) !in a.access;
      NowImported(ImportUser(a, now, u, id).value, u, id);
    }
  }

  lemma {:induction false} FileInserted(a: Tables, now: nat, users: seq<LegacyUser>, ids: seq<string>)
    requires |users| == |ids| && Standing(a) && "" !in ids && ImportAll(a, now, users, ids).Ok?
    requires forall i :: 0 <= i < |users| ==> WellFormed(users[i])
    ensures var b := ImportAll(a, now, users, ids).value;
            ImportedFrom(a, b, users, ids) && AllImported(b, users)
  {
    hide Standing, WellFormed, ImportUser, Imported, OfRecord, SeatOfRecord;
    if users != [] {
      var n := |users| - 1;
      var mid := ImportAll(a, now, users[..n], ids[..n]).value;
      FileInserted(a, now, users[..n], ids[..n]);
      ImportLogs(a, now, users[..n], ids[..n]);
      RecordInserted(mid, now, users[n], ids[n]);
      var b := ImportUser(mid, now, users[n], ids[n]).value;
      OneMoreRecord(a, mid, b, users, ids);
      ImportedStays(mid, b, users[..n]);
    }
  }

  lemma OneMoreRecord(a: Tables, mid: Tables, b: Tables, users: seq<LegacyUser>, ids: seq<string>)
    requires |users| == |ids| && users != []
    requires var n := |users| - 1;
             && ImportedFrom(a, mid, users[..n], ids[..n])
             && (|| b == mid
                 || (&& ids[n] !in mid.accounts && ids[n] in b.accounts
                     && b.accounts == mid.accounts[ids[n] := b.accounts[ids[n]]]
                     && OfRecord(b.accounts[ids[n]], users[n])
                     && RolesAt(b, Seat(ids[n], "main_api")) == SeatOfRecord(users[n])
                     && b.access - {Seat(ids[n], "main_api")} == mid.access))
    ensures ImportedFrom(a, b, users, ids)
    ensures Accounts.Inserts(mid.accounts, b.accounts)
  {
    hide OfRecord, SeatOfRecord;
    var n := |users| - 1;
    forall id | id in b.accounts && id !in a.accounts ensures ComesFrom(b, users, ids, id) {
      if id in mid.accounts {
        var i :| 0 <= i < n && ids[..n][i] == id && OfRecord(mid.accounts[id], users[..n][i])
                 && RolesAt(mid, Seat(id, "main_api")) == SeatOfRecord(users[..n][i]);
        SameSeatLater(mid, b, Seat(id, "main_api"), Seat(ids[n], "main_api"));
        assert ids[i] == id && OfRecord(b.accounts[id], users[i]);
      } else {
        assert id == ids[n];
      }
    }
  }

  lemma SameSeatLater(mid: Tables, b: Tables, seat: Seat, other: Seat)
    requires b == mid || (b.access - {other} == mid.access && seat != other)
             || (seat == other && RolesAt(mid, seat) == RolesAt(b, seat))
    ensures RolesAt(b, seat) == RolesAt(mid, seat)
  {
    if b.access - {other} == mid.access && seat != other {
      assert seat in b.access <==> seat in b.access - {other};
    }
  }

  /** An import that succeeds leaves the accounts already there alone and stores each new user as the file has it, with
      a seat exactly when approved; afterwards every user of the file is imported. One that fails changes nothing. */
  lemma ImportAnswers(w: World, rs: seq<Request>, r: DirectoryRequest)
    requires Standing(w.db) && AdmissibleRun(w, rs) && r.DoImport? && Admissible(Run(w, rs), Directory(r))
    ensures var v := Run(w, rs);
            var (b, reply) := Handle(v.db, v.clock, Directory(r));
            && (reply.Refused? ==> b == v.db)
            && (reply.Accepted? ==>
                  |r.users| == |r.ids| && ImportedFrom(v.db, b, r.users, r.ids) && AllImported(b, r.users))
  {
    hide Service.Serve, Standing, WellFormed, ImportAll, AllImported, ImportedFrom;
    RunStands(w, rs);
    var v := Run(w, rs);
    if ImportUsers(v.db, v.clock, r.users, r.ids).Ok? { FileInserted(v.db, v.clock, r.users, r.ids); }
  }

  // ---------------------------------------------------------------- the administrator

  lemma AdminRow(accounts: map<string, Account>, adminId: string, email: string, password: StoredPassword, id: string)
    requires id in AdminAccounts(accounts, adminId, email, password) && id !in accounts
    ensures id == adminId && Seated(accounts, adminId, email, password) == {id}
    ensures AdminAccounts(accounts, adminId, email, password)[id]
            == Account(Profile(email, email, "Administrator", "", "", ""), password, Active, true, true, None)
    ensures forall o :: o in accounts ==> accounts[o].profile.email != email
  {
    hide Insertable;
    assert forall o :: o in accounts && accounts[o].profile.email == email ==> o in WithEmail(accounts, email);
  }

  /** A start with an unknown administrator inserts one, ready to work and with a seat. */
  lemma AdministratorIsInserted(a: Tables, s: Setup, id: string)
    requires id in Boot(a, s).0.accounts && id !in a.accounts
    ensures s.adminPassword.Some? && s.adminEmail != "" && id == s.adminId
    ensures var b := Boot(a, s).0;
            && (forall o :: o in a.accounts ==> a.accounts[o].profile.email != s.adminEmail)
            && (var x := b.accounts[id];
                && x.profile.email == s.adminEmail && x.profile.login == s.adminEmail
                && x.profile.name == "Administrator" && x.profile.given == "" && x.profile.family == ""
                && x.profile.avatar == "" && x.password == s.adminPassword.value
                && x.status.Active? && x.verified && x.globalAdmin && x.oldId.None?)
            && (Seat(id, s.project) !in a.access ==> RolesAt(b, Seat(id, s.project)) == Some(["admin"]))
  {
    hide EnsureClient, Insertable, AdminAccounts, Seated, SeatAdmins;
    if s.adminPassword.Some? && s.adminEmail != "" {
      AdminRow(a.accounts, s.adminId, s.adminEmail, s.adminPassword.value, id);
      SeatedIn(a.access, {id}, s.project, Seat(id, s.project));
    }
  }
}
