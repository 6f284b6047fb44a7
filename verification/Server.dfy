/** The service on the database object. Serving a request with the methods of Flows.dfy and Postgres.dfy is a step of
    the run machine of Service.dfy, so every theorem about runs holds of the object. */
module Server {
  import opened Text
  import opened Schema
  import opened Postgres
  import opened Service
  import Import
  import LegacyImport
  import Repository
  import Flows

  /** The tables after a request, except that rolled-back transactions may have used up ids. */
  ghost predicate Serves(answer: (Tables, Reply), reply: Reply, after: Tables) {
    reply == answer.1 && RolledBack(answer.0, after)
  }

  function ReplyTo(err: Option<Error>): Reply {
    if err.Some? then Refused(err.value) else Accepted(Nothing)
  }

  lemma AnswersServe(r: Result<Tables>, err: Option<Error>, before: Tables, after: Tables)
    requires Answers(r, err, before, after)
    ensures Serves(Settle(before, r), ReplyTo(err), after)
  {
  }

  lemma SilenceServes(r: Result<Tables>, err: Option<Error>, before: Tables, after: Tables)
    requires if r == Err(NoRows) then err.None? && after == before else Answers(r, err, before, after)
    ensures Serves(Silently(Settle(before, r)), ReplyTo(err), after)
  {
  }

  method ServeDirectory(db: Database, now: nat, r: DirectoryRequest) returns (reply: Reply)
    modifies db
    ensures Serves(HandleDirectory(old(db.State()), now, r), reply, db.State())
  {
    hide Serves, Answers, Settle, Silently, Service.Register, Service.ResendVerification, Repository.VerifyEmail,
         SubmitProfile, Repository.UpdateLegacyProfile, SubmitAccessRequest, Import.ImportUsers;
    ghost var before := db.State();
    var err: Option<Error>;
    match r {
      case DoRegister(id, form, password, ticket) =>
        err := Flows.Register(db, now, id, form, password, ticket);
        AnswersServe(Service.Register(before, now, id, form, password, ticket), err, before, db.State());
      case DoResendVerification(email, ticket) =>
        err := Flows.ResendVerification(db, now, email, ticket);
        SilenceServes(Service.ResendVerification(before, now, email, ticket), err, before, db.State());
      case DoVerifyEmail(ticket) =>
        err := db.VerifyEmail(now, ticket);
        AnswersServe(Repository.VerifyEmail(before, now, ticket), err, before, db.State());
      case DoUpdateProfile(account, login, given, family, avatar) =>
        err := Flows.UpdateProfile(db, now, account, login, given, family, avatar);
        AnswersServe(SubmitProfile(before, now, account, login, given, family, avatar), err, before, db.State());
      case DoUpdateLegacyProfile(project, account, name, avatar) =>
        err := db.UpdateLegacyProfile(now, project, account, name, avatar);
        AnswersServe(Repository.UpdateLegacyProfile(before, now, project, account, name, avatar), err, before,
                     db.State());
      case DoRequestAccess(requestId, account, project) =>
        err := Flows.RequestAccess(db, requestId, account, project);
        AnswersServe(SubmitAccessRequest(before, requestId, account, project), err, before, db.State());
      case DoImport(users, ids) =>
        err := LegacyImport.ApplyFile(db, now, users, ids);
        AnswersServe(Import.ImportUsers(before, now, users, ids), err, before, db.State());
    }
    reply := ReplyTo(err);
  }

  method ServeLogin(db: Database, now: nat, r: LoginRequest) returns (reply: Reply)
    modifies db
    ensures Serves(HandleLogin(old(db.State()), now, r), reply, db.State())
  {
    hide Answers, Repository.WithLogin, Repository.SessionAccount, Repository.UpgradePasswordHash,
         Service.ForgotPassword, SubmitReset, SubmitPassword, Lower, Trim;
    ghost var before := db.State();
    match r {
      case DoLogin(identifier, attempt, session, upgraded) =>
        var id, pending := Flows.Login(db, now, identifier, attempt, session, upgraded);
        reply := if id.Ok? then Accepted(UserId(id.value)) else Refused(id.error);
      case FinishUpgrade(upgrade) =>
        Flows.FinishUpgrade(db, upgrade);
        reply := Accepted(Nothing);
      case CheckSession(session) =>
        var id := db.SessionAccount(now, session);
        reply := if id.Ok? then Accepted(UserId(id.value)) else Refused(id.error);
      case Logout(session) =>
        db.DeleteSession(session);
        reply := Accepted(Nothing);
      case DoForgotPassword(email, ticket) =>
        Flows.ForgotPassword(db, now, email, ticket);
        reply := Accepted(Nothing);
      case DoResetPassword(ticket, password) =>
        var err := Flows.ResetPassword(db, now, ticket, password);
        AnswersServe(SubmitReset(before, now, ticket, password), err, before, db.State());
        reply := ReplyTo(err);
      case DoChangePassword(account, attempt, password) =>
        var err := Flows.ChangePassword(db, now, account, attempt, password);
        AnswersServe(SubmitPassword(before, now, account, attempt, password), err, before, db.State());
        reply := ReplyTo(err);
    }
  }

  method ServeAdmin(db: Database, now: nat, r: AdminRequest) returns (reply: Reply)
    modifies db
    ensures Serves(HandleAdmin(old(db.State()), now, r), reply, db.State())
  {
    hide Serves, Answers, Settle, Repository.ActivateAccount, Disable, Repository.GrantAccess, Repository.RevokeAccess,
         Repository.ApproveRequest, Repository.SetProjectRoles, Repository.GrantProjectAdmin,
         Repository.GrantGlobalAdmin, Lower, Trim;
    ghost var before := db.State();
    var err: Option<Error>;
    match r {
      case DoActivate(account) =>
        err := db.ActivateAccount(account);
        AnswersServe(Repository.ActivateAccount(before, account), err, before, db.State());
      case DoDisable(actor, account) =>
        err := Flows.Disable(db, now, actor, account);
        AnswersServe(Disable(before, now, actor, account), err, before, db.State());
      case DoGrant(account, project, roles) =>
        err := db.GrantAccess(now, account, project, roles);
        AnswersServe(Repository.GrantAccess(before, now, account, project, roles), err, before, db.State());
      case DoRevoke(account, project) =>
        err := db.RevokeAccess(now, account, project);
        AnswersServe(Repository.RevokeAccess(before, now, account, project), err, before, db.State());
      case DoApprove(project, requestId, roles) =>
        err := db.ApproveRequest(now, project, requestId, roles);
        AnswersServe(Repository.ApproveRequest(before, now, project, requestId, roles), err, before, db.State());
      case DoSetRoles(project, account, roles) =>
        err := db.SetProjectRoles(now, project, account, roles);
        AnswersServe(Repository.SetProjectRoles(before, now, project, account, roles), err, before, db.State());
      case DoGrantProjectAdmin(project, email) =>
        err := db.GrantProjectAdmin(now, project, email);
        AnswersServe(Repository.GrantProjectAdmin(before, now, project, email), err, before, db.State());
      case DoGrantGlobalAdmin(email) =>
        err := db.GrantGlobalAdmin(Lower(Trim(email)));
        AnswersServe(Repository.GrantGlobalAdmin(before, Lower(Trim(email))), err, before, db.State());
    }
    reply := ReplyTo(err);
  }

  function TokensReply(r: Result<Grant>): Reply {
    if r.Ok? then Accepted(TokenSet(r.value)) else Refused(r.error)
  }

  method ServeOAuth(db: Database, now: nat, r: OAuthRequest) returns (reply: Reply)
    modifies db
    ensures Serves(HandleOAuth(old(db.State()), now, r), reply, db.State())
  {
    hide Answers, Settle, SubmitClient, Service.Authorize, Service.Exchange, Service.Refresh;
    ghost var before := db.State();
    match r {
      case DoRegisterClient(client, project, secretHash, redirects) =>
        var err := Flows.RegisterClient(db, client, project, secretHash, redirects);
        AnswersServe(SubmitClient(before, client, project, secretHash, redirects), err, before, db.State());
        reply := ReplyTo(err);
      case DoAuthorize(input, code) =>
        var err := Flows.Authorize(db, now, input, code);
        AnswersServe(Service.Authorize(before, now, input, code), err, before, db.State());
        reply := ReplyTo(err);
      case DoExchange(client, code, redirect, challenge, refresh, family, signed) =>
        var grant := Flows.Exchange(db, now, client, code, redirect, challenge, refresh, family, signed);
        reply := TokensReply(grant);
      case DoRefresh(client, token, next, hostNow, signed) =>
        var grant := Flows.Refresh(db, client, token, next, hostNow, signed);
        reply := TokensReply(grant);
    }
  }

  /** Everything but the passing of time, lost ids, and a publisher's round, which picks its row by itself. */
  predicate Served(r: UpkeepRequest) {
    !r.Wait? && !r.Burn? && !r.DoPublish?
  }

  method ServeUpkeep(db: Database, now: nat, r: UpkeepRequest) returns (reply: Reply)
    requires Served(r)
    modifies db
    ensures Serves(HandleUpkeep(old(db.State()), now, r), reply, db.State())
  {
    hide Repository.IncrementAttempt, Repository.RotateSigningKey, Repository.Clean, Repository.PublishedKeys;
    match r {
      case DoAttempt(key, until) =>
        var count := db.IncrementAttempt(now, key, until);
        reply := if count.Ok? then Accepted(Attempts(count.value)) else Refused(count.error);
      case DoRotateKey(kid) =>
        var err := db.RotateSigningKey(now, kid);
        reply := ReplyTo(err);
      case FindKey(kid) =>
        reply := if kid in Repository.PublishedKeys(db.keys, now) then Accepted(Nothing) else Refused(NoRows);
      case ListKeys => reply := Accepted(KeyIds(Repository.PublishedKeys(db.keys, now)));
      case DoClean(statement) =>
        db.Execute(now, statement);
        reply := Accepted(Nothing);
    }
  }

  method ServeRestart(db: Database, s: Setup) returns (reply: Reply)
    modifies db
    ensures Serves(Boot(old(db.State()), s), reply, db.State())
  {
    hide Repository.EnsureBootstrap, Repository.BootstrapError;
    var err := db.EnsureBootstrap(s.project, s.client, s.secretHash, s.redirect, s.adminId, s.adminEmail,
                                  s.adminPassword);
    reply := ReplyTo(err);
  }

  predicate Servable(r: Request) {
    r.Upkeep? ==> Served(r.upkeep)
  }

  /** One request on the object. */
  method Serve(db: Database, now: nat, r: Request) returns (reply: Reply)
    requires Servable(r)
    modifies db
    ensures Serves(Handle(old(db.State()), now, r), reply, db.State())
  {
    hide Serves, HandleDirectory, HandleLogin, HandleAdmin, HandleOAuth, HandleUpkeep, Boot;
    match r {
      case Directory(d) => reply := ServeDirectory(db, now, d);
      case Login(l) => reply := ServeLogin(db, now, l);
      case Admin(a) => reply := ServeAdmin(db, now, a);
      case OAuth(o) => reply := ServeOAuth(db, now, o);
      case Upkeep(u) => reply := ServeUpkeep(db, now, u);
      case Restart(s) => reply := ServeRestart(db, s);
    }
  }
}
