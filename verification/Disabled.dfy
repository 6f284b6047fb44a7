/** What being disabled means: from then on the account is out, until somebody brings it back. */
module Disabled {
  import opened Text
  import opened Schema
  import opened Repository
  import opened Import
  import opened Service
  import opened ChangeLog
  import opened Transactions
  import opened History
  import opened Credentials
  import opened Accounts
  import opened OneAccount
  import opened OneCredential
  import opened SignIn
  import opened Issuing

  /** The two ways back: an activation, and a start whose administrator has the account's address. */
  predicate BringsBack(r: Request, id: string, email: string) {
    r == Admin(DoActivate(id)) || (r.Restart? && Promotes(r.setup, email))
  }

  predicate IsOut(db: Tables, id: string, email: string) {
    id in db.accounts && db.accounts[id].status.Inactive? && db.accounts[id].profile.email == email
  }

  lemma OutStays(a: Tables, now: nat, r: Request, id: string, email: string)
    requires AccountsOk(a.accounts) && IsOut(a, id, email) && !BringsBack(r, id, email)
    ensures IsOut(Handle(a, now, r).0, id, email)
  {
    hide AccountsOk, Handle, Lower, Trim;
    AccountStep(a, now, r);
  }

  lemma {:induction false} OutForTheRun(w: World, rs: seq<Request>, id: string, email: string)
    requires AllOk(w) && AdmissibleRun(w, rs) && IsOut(w.db, id, email)
    requires forall i :: 0 <= i < |rs| ==> !BringsBack(rs[i], id, email)
    ensures IsOut(Run(w, rs).db, id, email)
  {
    hide Service.Serve, AllOk, Admissible, IsOut, BringsBack;
    if rs != [] {
      var v := Run(w, rs[..|rs| - 1]);
      var r := rs[|rs| - 1];
      OutForTheRun(w, rs[..|rs| - 1], id, email);
      RunAllOk(w, rs[..|rs| - 1]);
      ServeStaysOut(v, r, id, email);
    }
  }

  lemma ServeStaysOut(w: World, r: Request, id: string, email: string)
    requires AllOk(w) && IsOut(w.db, id, email) && !BringsBack(r, id, email)
    ensures IsOut(Service.Serve(w, r).db, id, email)
  {
    hide Handle, IsOut, BringsBack, AccountsOk;
    OutStays(w.db, w.clock, r, id, email);
  }

  /** The answer gives somebody in the name of the account: a login, a session, or tokens. */
  predicate Admits(reply: Reply, id: string) {
    reply.Accepted? && (reply.info == UserId(id) || (reply.info.TokenSet? && reply.info.grant.account == id))
  }

  /** Nothing of the account is left that could be used, and no project lists it. */
  ghost predicate NothingLeft(w: World, id: string) {
    && (forall h :: h in w.db.sessions ==> w.db.sessions[h].account != id)
    && (forall h :: h in w.db.resets ==> w.db.resets[h].account != id)
    && (forall h :: h in w.db.tokens && w.db.tokens[h].account == id ==> !w.db.tokens[h].Live())
    && (forall s: Seat :: s in w.db.access ==> s.account != id)
    && (forall project :: Row(w.db, project, id).None?)
  }

  lemma OutHasNothing(w: World, id: string, email: string)
    requires CredentialsOk(w) && Standing(w.db) && HeldByAccounts(w.db) && IsOut(w.db, id, email)
    ensures NothingLeft(w, id)
  {
    hide KeysDrawn, OneLive, LedgerOk, CodeOk;
    forall h | h in w.db.tokens && w.db.tokens[h].account == id ensures !w.db.tokens[h].Live() {
      assert TokenOk(w, w.db.tokens[h]);
    }
  }

  lemma TokensNameTheListed(a: Tables, now: nat, r: OAuthRequest, id: string)
    requires forall project :: Row(a, project, id).None?
    ensures !Admits(Handle(a, now, OAuth(r)).1, id)
  {
    hide RotateRefresh, CreateRefresh, Authorize, SubmitClient;
    if r.DoExchange? || r.DoRefresh? {
      if r.client in a.clients { assert Row(a, a.clients[r.client].project, id).None?; }
    }
  }

  lemma NobodyIsAdmitted(w: World, id: string, email: string, r: Request)
    requires CredentialsOk(w) && AllOk(w) && Standing(w.db) && HeldByAccounts(w.db)
    requires IsOut(w.db, id, email) && Admissible(w, r)
    ensures !Admits(Handle(w.db, w.clock, r).1, id)
  {
    hide HandleDirectory, HandleLogin, HandleAdmin, HandleOAuth, HandleUpkeep, Boot, AllOk, Standing, TokensOk, OneLive,
         LedgerOk, CodeOk;
    match r
    case OAuth(x) =>
      assert NothingLeft(w, id) by { OutHasNothing(w, id, email); }
      TokensNameTheListed(w.db, w.clock, x, id);
    case Login(l) =>
      if l.DoLogin? { SignInOnTables(w, l, id); }
      else if l.CheckSession? { CheckOnTables(w.db, w.clock, l.session); }
      else { OtherLogins(w.db, w.clock, l); }
    case _ => OtherReplies(w.db, w.clock, r);
  }

  lemma OtherLogins(a: Tables, now: nat, r: LoginRequest)
    requires !r.DoLogin? && !r.CheckSession?
    ensures var reply := HandleLogin(a, now, r).1; reply.Accepted? ==> reply.info.Nothing?
  {
    hide SubmitReset, SubmitPassword, UpgradePasswordHash, ForgotPassword;
  }

  lemma OtherReplies(a: Tables, now: nat, r: Request)
    requires !r.Login? && !r.OAuth?
    ensures var reply := Handle(a, now, r).1; reply.Accepted? ==> !reply.info.UserId? && !reply.info.TokenSet?
  {
    hide Register, ResendVerification, VerifyEmail, SubmitProfile, UpdateLegacyProfile, SubmitAccessRequest,
         ImportUsers, Disable, GrantAccess, RevokeAccess, ApproveRequest, SetProjectRoles, GrantProjectAdmin,
         GrantGlobalAdmin, ActivateAccount, IncrementAttempt, RotateSigningKey, Clean, EnsureBootstrap;
  }

  /** After a disablement, and until somebody brings the account back: it stays disabled; whatever is asked, nobody is
      admitted in its name; it has no session, no reset link, no live token and no seat; and no project lists it. */
  lemma DisabledIsOut(w: World, actor: string, id: string, rs: seq<Request>, later: Request)
    requires CredentialsOk(w) && AllOk(w) && Standing(w.db) && HeldByAccounts(w.db) && id in w.db.accounts
    requires Handle(w.db, w.clock, Admin(DoDisable(actor, id))).1.Accepted?
    requires AdmissibleRun(Service.Serve(w, Admin(DoDisable(actor, id))), rs)
    requires forall i :: 0 <= i < |rs| ==> !BringsBack(rs[i], id, w.db.accounts[id].profile.email)
    requires Admissible(Run(Service.Serve(w, Admin(DoDisable(actor, id))), rs), later)
    ensures var v := Run(Service.Serve(w, Admin(DoDisable(actor, id))), rs);
            && id in v.db.accounts && v.db.accounts[id].status.Inactive?
            && !Admits(Handle(v.db, v.clock, later).1, id)
            && NothingLeft(v, id)
  {
    hide Handle, CredentialsOk, AllOk, Standing, HeldByAccounts, BringsBack, NothingLeft, Note, Admits;
    var r := Admin(DoDisable(actor, id));
    var first := Service.Serve(w, r);
    var email := w.db.accounts[id].profile.email;
    PutOut(w, actor, id);
    ServeOk(w, r);
    ServeAllOk(w, r);
    ServeKeeps(w, r);
    ServeHeld(w, r);
    OutForTheRun(first, rs, id, email);
    var v := Run(first, rs);
    RunOk(first, rs);
    RunAllOk(first, rs);
    RunStands(first, rs);
    RunHeld(first, rs);
    OutHasNothing(v, id, email);
    NobodyIsAdmitted(v, id, email, later);
  }

  lemma PutOut(w: World, actor: string, id: string)
    requires AllOk(w) && id in w.db.accounts && Handle(w.db, w.clock, Admin(DoDisable(actor, id))).1.Accepted?
    ensures IsOut(Handle(w.db, w.clock, Admin(DoDisable(actor, id))).0, id, w.db.accounts[id].profile.email)
  {
    hide Handle, AccountsOk;
    AccountStep(w.db, w.clock, Admin(DoDisable(actor, id)));
  }
}
