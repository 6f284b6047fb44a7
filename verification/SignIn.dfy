/** Passwords over whole runs: who may sign in, change or reset a password, and for how long the session or the link
    that comes of it is good. */
module SignIn {
  import opened Order
  import opened Text
  import opened Schema
  import opened Repository
  import opened Service
  import opened ChangeLog
  import opened Transactions
  import opened History
  import opened Credentials
  import opened Accounts
  import opened Revocation
  import opened OneAccount
  import opened OneCredential
  import opened Lifetimes

  // ---------------------------------------------------------------- signing in

  /** The account of that address or login, verified and not disabled, and the last password set for it. */
  predicate MaySignIn(w: World, identifier: string, attempt: string, id: string) {
    var typed := Lower(Trim(identifier));
    && id in w.db.accounts && id in w.ledger.passwords
    && var a := w.db.accounts[id];
       && (a.profile.email == typed || a.profile.login == typed)
       && a.verified && !a.status.Inactive? && attempt == w.ledger.passwords[id]
  }

  lemma FoundByName(accounts: map<string, Account>, typed: string)
    requires AccountsOk(accounts)
    ensures forall id :: id in LoginMatches(accounts, typed) <==>
                         id in accounts && (accounts[id].profile.email == typed || accounts[id].profile.login == typed)
  {
    forall id | id in accounts ensures Lower(accounts[id].profile.login) == accounts[id].profile.login {
      assert NameOk(accounts[id].profile);
    }
  }

  lemma SignInOnTables(w: World, r: LoginRequest, id: string)
    requires AllOk(w) && r.DoLogin? && r.session !in w.db.sessions
    ensures var (b, reply) := HandleLogin(w.db, w.clock, r);
            && (reply == Accepted(UserId(id)) <==> MaySignIn(w, r.identifier, r.attempt, id))
            && (reply.Accepted? ==> reply.info.UserId?)
            && b == if reply.Refused? then w.db
                    else w.db.(sessions := w.db.sessions[r.session := Session(reply.info.id, w.clock + 7 * DAY)])
  {
    hide Lower, Trim, AccountsOk, LoginMatches;
    var typed := Lower(Trim(r.identifier));
    var found := LoginMatches(w.db.accounts, typed);
    FoundByName(w.db.accounts, typed);
    if found != {} {
      var first := FirstRow(found).value;
      if id in found { MatchIsUnique(w.db.accounts, typed, id, first); }
    }
  }

  /** A login is answered with an account exactly when the account may sign in, and then the one change is its session
      of seven days. */
  lemma LoginAnswers(w: World, rs: seq<Request>, r: LoginRequest, id: string)
    requires CredentialsOk(w) && AllOk(w) && AdmissibleRun(w, rs) && r.DoLogin? && Admissible(Run(w, rs), Login(r))
    ensures var v := Run(w, rs);
            var (b, reply) := Handle(v.db, v.clock, Login(r));
            && (reply == Accepted(UserId(id)) <==> MaySignIn(v, r.identifier, r.attempt, id))
            && (reply.Accepted? ==> reply.info.UserId?)
            && b == if reply.Refused? then v.db
                    else v.db.(sessions := v.db.sessions[r.session := Session(reply.info.id, v.clock + 7 * DAY)])
  {
    hide Service.Serve, HandleLogin, MaySignIn, AllOk, TokensOk, OneLive, LedgerOk, CodeOk;
    RunAllOk(w, rs);
    RunOk(w, rs);
    SignInOnTables(Run(w, rs), r, id);
  }

  // ---------------------------------------------------------------- new passwords

  lemma {:induction false} QueueAllGoes(db: Tables, now: nat, projects: seq<string>, kind: Kind, account: string,
                                        payload: Payload)
    requires forall p :: p in projects ==> p in db.projects && Seat(account, p) in db.access
    ensures QueueAll(db, now, projects, kind, account, payload).Ok?
  {
    if projects != [] {
      QueueAllGoes(db, now, projects[..|projects| - 1], kind, account, payload);
      assert projects[|projects| - 1] in projects;
    }
  }

  /** The events of an account-wide change can always be queued. */
  lemma ProjectsAreThere(a: Tables, mid: Tables, account: string)
    requires Standing(a) && mid.access == a.access && mid.projects == a.projects
    ensures forall p :: p in ProfileProjects(mid, account, "") ==> p in mid.projects && Seat(account, p) in mid.access
  {
    ProjectsOf(mid, account, "");
  }

  lemma PasswordGoes(a: Tables, mid: Tables, now: nat, id: string, password: StoredPassword)
    requires Standing(a) && mid == a.(resets := mid.resets)
    ensures RevokePasswordSessions(mid, now, id, password).Ok?
  {
    hide QueueAll, ProfileProjects, SetPassword, SessionsWithout, CodesWithout, TicketsWithout, RevokeAccount, Standing;
    var revoked := RevokeCredentials(mid.(accounts := SetPassword(mid.accounts, id, password)), id);
    ProjectsAreThere(a, revoked, id);
    QueueAllGoes(revoked, now, ProfileProjects(revoked, id, ""), SessionsRevoked, id, UserIdOnly);
  }

  lemma PasswordElsewhere(a: Tables, now: nat, id: string, password: StoredPassword)
    requires RevokePasswordSessions(a, now, id, password).Ok?
    ensures var b := RevokePasswordSessions(a, now, id, password).value;
            b == a.(accounts := b.accounts, sessions := b.sessions, codes := b.codes, tokens := b.tokens,
                    resets := b.resets, outbox := b.outbox, events := b.events, lastId := b.lastId)
  {
    hide SetPassword, SessionsWithout, CodesWithout, TicketsWithout, RevokeAccount, ProfileProjects, QueueAll;
  }

  /** Nothing but the account's password, its credentials and the log of changes. */
  predicate OnlyPassword(a: Tables, b: Tables, id: string, password: StoredPassword) {
    && id in a.accounts && b.accounts == a.accounts[id := a.accounts[id].(password := password)]
    && Revoked(a, b, id)
    && b == a.(accounts := b.accounts, sessions := b.sessions, codes := b.codes, tokens := b.tokens, resets := b.resets,
               outbox := b.outbox, events := b.events, lastId := b.lastId)
  }

  /** The password typed is the last one set for an account that is not disabled, and the new one is acceptable. */
  predicate MayChange(w: World, r: LoginRequest)
    requires r.DoChangePassword?
  {
    && r.account in w.db.accounts && !w.db.accounts[r.account].status.Inactive?
    && r.account in w.ledger.passwords && r.attempt == w.ledger.passwords[r.account]
    && 12 <= |r.password.password| <= 1024
  }

  lemma ChangeOnTables(w: World, r: LoginRequest)
    requires AllOk(w) && Standing(w.db) && r.DoChangePassword?
    ensures var (b, reply) := HandleLogin(w.db, w.clock, r);
            && (reply.Accepted? <==> MayChange(w, r))
            && (if reply.Accepted? then OnlyPassword(w.db, b, r.account, r.password) else b == w.db)
  {
    hide RevokePasswordSessions, AccountsOk, Standing, Revoked;
    PasswordGoes(w.db, w.db, w.clock, r.account, r.password);
    PasswordRevokes(w.db, w.clock, r.account, r.password);
    PasswordAccounts(w.db, w.clock, r.account, r.password);
    PasswordElsewhere(w.db, w.clock, r.account, r.password);
  }

  /** A password is changed exactly by whoever gives the last one set, and nothing else changes; any other attempt
      leaves the tables as they were. */
  lemma ChangeAnswers(w: World, rs: seq<Request>, r: LoginRequest)
    requires AllOk(w) && Standing(w.db) && AdmissibleRun(w, rs) && r.DoChangePassword?
    ensures var v := Run(w, rs);
            var (b, reply) := Handle(v.db, v.clock, Login(r));
            && (reply.Accepted? <==> MayChange(v, r))
            && (if reply.Accepted? then OnlyPassword(v.db, b, r.account, r.password) else b == v.db)
  {
    hide Service.Serve, Admissible, HandleLogin, AllOk, Standing, MayChange, OnlyPassword;
    RunAllOk(w, rs);
    RunStands(w, rs);
    ChangeOnTables(Run(w, rs), r);
  }

  // ---------------------------------------------------------------- who holds a session or a link

  /** Sessions and reset links belong to accounts that are there and not disabled. */
  predicate HeldByAccounts(db: Tables) {
    && (forall h :: h in db.sessions ==>
          db.sessions[h].account in db.accounts && !db.accounts[db.sessions[h].account].status.Inactive?)
    && (forall h :: h in db.resets ==>
          db.resets[h].account in db.accounts && !db.accounts[db.resets[h].account].status.Inactive?)
  }

  /** An account that is not disabled stays so, unless its epoch ends. */
  lemma EnabledStays(a: Tables, now: nat, r: Request, id: string)
    requires AccountsOk(a.accounts) && id in a.accounts && !a.accounts[id].status.Inactive?
    requires EpochOf(a, r, Handle(a, now, r).1) != Some(id)
    ensures var b := Handle(a, now, r).0; id in b.accounts && !b.accounts[id].status.Inactive?
  {
    hide AccountsOk, Handle, Lower, Trim;
    AccountStep(a, now, r);
  }

  lemma SessionsHeld(w: World, r: Request, h: string)
    requires CredentialsOk(w) && AllOk(w) && Standing(w.db) && HeldByAccounts(w.db) && Admissible(w, r)
    requires h in Service.Serve(w, r).db.sessions
    ensures var b := Service.Serve(w, r).db;
            b.sessions[h].account in b.accounts && !b.accounts[b.sessions[h].account].status.Inactive?
  {
    hide Handle, AccountsOk, Standing, TokensOk, OneLive, LedgerOk, CodeOk, CodesFollow, TokensFollow, ResetsFollow;
    var (b, reply) := Handle(w.db, w.clock, r);
    CredentialStep(w.db, w.clock, r);
    assert SessionAt(b, h) == SessionNext(w.db, w.clock, r, reply, h);
    var id := b.sessions[h].account;
    if r.Login? && r.login.DoLogin? && reply.Accepted? && r.login.session == h {
      SessionIsNew(w, r.login);
    }
    EnabledStays(w.db, w.clock, r, id);
  }

  lemma SessionIsNew(w: World, r: LoginRequest)
    requires AllOk(w) && r.DoLogin? && r.session !in w.db.sessions && Handle(w.db, w.clock, Login(r)).1.Accepted?
    ensures var (b, reply) := Handle(w.db, w.clock, Login(r));
            reply.info.UserId? && r.session in b.sessions && b.sessions[r.session].account == reply.info.id
            && reply.info.id in w.db.accounts && !w.db.accounts[reply.info.id].status.Inactive?
  {
    hide HandleLogin, AllOk;
    var reply := Handle(w.db, w.clock, Login(r)).1;
    SignInOnTables(w, r, "");
    SignInOnTables(w, r, reply.info.id);
  }

  lemma ResetsHeld(w: World, r: Request, h: string)
    requires AllOk(w) && Standing(w.db) && HeldByAccounts(w.db)
    requires h in Service.Serve(w, r).db.resets
    ensures var b := Service.Serve(w, r).db;
            b.resets[h].account in b.accounts && !b.accounts[b.resets[h].account].status.Inactive?
  {
    hide Handle, AccountsOk, Standing, CodesFollow, TokensFollow, SessionsFollow, Lower, Trim;
    var (b, reply) := Handle(w.db, w.clock, r);
    CredentialStep(w.db, w.clock, r);
    assert ResetNext(w.db, w.clock, r, reply, h, ResetAt(b, h));
    EnabledStays(w.db, w.clock, r, b.resets[h].account);
  }

  lemma ServeHeld(w: World, r: Request)
    requires CredentialsOk(w) && AllOk(w) && Standing(w.db) && HeldByAccounts(w.db) && Admissible(w, r)
    ensures HeldByAccounts(Service.Serve(w, r).db)
  {
    hide Service.Serve, CredentialsOk, AllOk, Standing, Admissible;
    var b := Service.Serve(w, r).db;
    forall h | h in b.sessions
      ensures b.sessions[h].account in b.accounts && !b.accounts[b.sessions[h].account].status.Inactive?
    {
      SessionsHeld(w, r, h);
    }
    forall h | h in b.resets
      ensures b.resets[h].account in b.accounts && !b.accounts[b.resets[h].account].status.Inactive?
    {
      ResetsHeld(w, r, h);
    }
  }

  lemma {:induction false} RunHeld(w: World, rs: seq<Request>)
    requires CredentialsOk(w) && AllOk(w) && Standing(w.db) && HeldByAccounts(w.db) && AdmissibleRun(w, rs)
    ensures HeldByAccounts(Run(w, rs).db)
  {
    hide Service.Serve, CredentialsOk, AllOk, Standing, HeldByAccounts, Admissible;
    if rs != [] {
      RunHeld(w, rs[..|rs| - 1]);
      RunOk(w, rs[..|rs| - 1]);
      RunAllOk(w, rs[..|rs| - 1]);
      RunStands(w, rs[..|rs| - 1]);
      ServeHeld(Run(w, rs[..|rs| - 1]), rs[|rs| - 1]);
    }
  }

  // ---------------------------------------------------------------- sessions last exactly

  lemma CheckOnTables(db: Tables, now: nat, h: string)
    requires HeldByAccounts(db)
    ensures Handle(db, now, Login(CheckSession(h)))
            == (db, if h in db.sessions && now < db.sessions[h].expires then Accepted(UserId(db.sessions[h].account))
                    else Refused(NoRows))
  {
  }

  /** A session is good for the account that signed in, for seven days, until a logout or the end of the account's
      epoch, and not a moment longer or shorter. */
  lemma SessionsLastExactly(w: World, r: LoginRequest, id: string, rs: seq<Request>)
    requires CredentialsOk(w) && AllOk(w) && Standing(w.db) && HeldByAccounts(w.db)
    requires r.DoLogin? && Admissible(w, Login(r)) && Handle(w.db, w.clock, Login(r)).1 == Accepted(UserId(id))
    requires AdmissibleRun(Service.Serve(w, Login(r)), rs)
    ensures var first := Service.Serve(w, Login(r));
            var v := Run(first, rs);
            Handle(v.db, v.clock, Login(CheckSession(r.session))).1
            == if !Ended(first, rs, BrowserSession(r.session)) && v.clock < w.clock + 7 * DAY
               then Accepted(UserId(id)) else Refused(NoRows)
  {
    hide HandleLogin, CredentialsOk, AllOk, Standing, HeldByAccounts, Admissible, Ended, Note;
    var first := Service.Serve(w, Login(r));
    NewSession(w, r, id);
    ServeOk(w, Login(r));
    ServeAllOk(w, Login(r));
    ServeKeeps(w, Login(r));
    ServeHeld(w, Login(r));
    LastsExactly(first, BrowserSession(r.session), rs);
    RunHeld(first, rs);
    var v := Run(first, rs);
    CheckOnTables(v.db, v.clock, r.session);
  }

  lemma NewSession(w: World, r: LoginRequest, id: string)
    requires CredentialsOk(w) && AllOk(w) && r.DoLogin? && Admissible(w, Login(r))
    requires Handle(w.db, w.clock, Login(r)).1 == Accepted(UserId(id))
    ensures var b := Handle(w.db, w.clock, Login(r)).0;
            r.session in b.sessions && b.sessions[r.session] == Session(id, w.clock + 7 * DAY)
  {
    hide HandleLogin, AllOk, TokensOk, OneLive, LedgerOk, CodeOk;
    SignInOnTables(w, r, id);
  }

  // ---------------------------------------------------------------- reset links

  /** The link is in the tables, unused and in time, and link and new password are of acceptable length. */
  predicate MayResetBy(w: World, r: LoginRequest)
    requires r.DoResetPassword?
  {
    && r.ticket in w.db.resets && !w.db.resets[r.ticket].used && w.clock < w.db.resets[r.ticket].expires
    && 12 <= |r.password.password| <= 1024 && |r.ticket| >= 32
  }

  lemma ResetOnTables(w: World, r: LoginRequest)
    requires Standing(w.db) && HeldByAccounts(w.db) && r.DoResetPassword?
    ensures var (b, reply) := HandleLogin(w.db, w.clock, r);
            && (reply.Accepted? <==> MayResetBy(w, r))
            && (if reply.Accepted? then OnlyPassword(w.db, b, w.db.resets[r.ticket].account, r.password) else b == w.db)
  {
    hide RevokePasswordSessions, Standing, Revoked;
    if MayResetBy(w, r) {
      var used := w.db.(resets := w.db.resets[r.ticket := w.db.resets[r.ticket].(used := true)]);
      var id := w.db.resets[r.ticket].account;
      PasswordGoes(w.db, used, w.clock, id, r.password);
      ResetRevokes(w.db, w.clock, r.ticket, r.password);
      PasswordAccounts(used, w.clock, id, r.password);
      PasswordElsewhere(used, w.clock, id, r.password);
    }
  }

  /** A password is reset exactly through an unused link in time, and it is that of the account the link was made
      for. */
  lemma ResetAnswers(w: World, rs: seq<Request>, r: LoginRequest)
    requires CredentialsOk(w) && AllOk(w) && Standing(w.db) && HeldByAccounts(w.db) && AdmissibleRun(w, rs)
    requires r.DoResetPassword?
    ensures var v := Run(w, rs);
            var (b, reply) := Handle(v.db, v.clock, Login(r));
            && (reply.Accepted? <==> MayResetBy(v, r))
            && (if reply.Accepted? then OnlyPassword(v.db, b, v.db.resets[r.ticket].account, r.password) else b == v.db)
  {
    hide Service.Serve, Admissible, HandleLogin, CredentialsOk, AllOk, Standing, HeldByAccounts, OnlyPassword;
    RunStands(w, rs);
    RunHeld(w, rs);
    ResetOnTables(Run(w, rs), r);
  }

  /** A reset link that an address got is good for twenty minutes, until the account's epoch ends; using it is such an
      end. */
  lemma LinksLastExactly(w: World, email: string, ticket: string, rs: seq<Request>, r: LoginRequest)
    requires CredentialsOk(w) && AllOk(w) && Standing(w.db) && HeldByAccounts(w.db)
    requires Admissible(w, Login(DoForgotPassword(email, ticket)))
    requires exists id :: MayReset(w.db, email, id)
    requires AdmissibleRun(Service.Serve(w, Login(DoForgotPassword(email, ticket))), rs)
    requires r.DoResetPassword? && r.ticket == ticket && 12 <= |r.password.password| <= 1024 && |ticket| >= 32
    ensures var first := Service.Serve(w, Login(DoForgotPassword(email, ticket)));
            var v := Run(first, rs);
            && ticket in first.db.resets && MayReset(w.db, email, first.db.resets[ticket].account)
            && (Handle(v.db, v.clock, Login(r)).1.Accepted?
                <==> !Ended(first, rs, ResetLink(ticket)) && v.clock < w.clock + 20 * MINUTE)
            && (Handle(v.db, v.clock, Login(r)).1.Accepted? ==>
                  OnlyPassword(v.db, Handle(v.db, v.clock, Login(r)).0, first.db.resets[ticket].account, r.password))
  {
    hide HandleLogin, CredentialsOk, AllOk, Standing, HeldByAccounts, Admissible, Ended, Note, OnlyPassword, MayReset;
    var first := Service.Serve(w, Login(DoForgotPassword(email, ticket)));
    NewLink(w, email, ticket);
    ServeOk(w, Login(DoForgotPassword(email, ticket)));
    ServeAllOk(w, Login(DoForgotPassword(email, ticket)));
    ServeKeeps(w, Login(DoForgotPassword(email, ticket)));
    ServeHeld(w, Login(DoForgotPassword(email, ticket)));
    LastsExactly(first, ResetLink(ticket), rs);
    RunHeld(first, rs);
    RunStands(first, rs);
    ResetOnTables(Run(first, rs), r);
  }

  lemma NewLink(w: World, email: string, ticket: string)
    requires CredentialsOk(w) && Standing(w.db) && Admissible(w, Login(DoForgotPassword(email, ticket)))
    requires exists id :: MayReset(w.db, email, id)
    ensures var b := Handle(w.db, w.clock, Login(DoForgotPassword(email, ticket))).0;
            && ticket in b.resets && MayReset(w.db, email, b.resets[ticket].account)
            && b.resets[ticket] == Ticket(b.resets[ticket].account, w.clock + 20 * MINUTE, false)
  {
    hide HandleLogin, Standing, TokensOk, OneLive, LedgerOk, CodeOk, MayReset, SessionsFollow, CodesFollow,
         TokensFollow;
    var r := Login(DoForgotPassword(email, ticket));
    var (b, reply) := Handle(w.db, w.clock, r);
    CredentialStep(w.db, w.clock, r);
    assert ResetNext(w.db, w.clock, r, reply, ticket, ResetAt(b, ticket));
    var id :| MayReset(w.db, email, id);
    assert id in w.db.accounts by { MayResetIsAccount(w.db, email, id); }
  }

  lemma MayResetIsAccount(db: Tables, email: string, id: string)
    requires MayReset(db, email, id)
    ensures id in db.accounts
  {
  }
}
