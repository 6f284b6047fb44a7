/** The use cases that drive several repository calls, step by step as the service does: authorization, code
    exchange, refresh, login and the attempt limiter. Proved to do what Service.dfy says. */
module Flows {
  import opened Text
  import opened Schema
  import opened Postgres
  import Import
  import Keys
  import Repository
  import Service

  method Authorize(db: Database, now: nat, input: Service.AuthorizeInput, code: string) returns (err: Option<Error>)
    modifies db
    ensures Answers(Service.Authorize(old(db.State()), now, input, code), err, old(db.State()), db.State())
  {
    hide Repository.CreateAuthorizationCode;
    if !input.WellFormed() { return Some(InvalidInput); }
    var scopes := Fields(input.scope);
    for i := 0 to |scopes|
      invariant forall k :: 0 <= k < i ==> scopes[k] in Service.SCOPES
    {
      if scopes[i] !in Service.SCOPES { return Some(InvalidInput); }
    }
    if input.client !in db.clients { return Some(InvalidClient); }
    var client := db.clients[input.client];
    var found := false;
    for i := 0 to |client.redirects|
      invariant found <==> input.redirect in client.redirects[..i]
    {
      if client.redirects[i] == input.redirect {
        found := true;
        break;
      }
    }
    assert client.redirects[..|client.redirects|] == client.redirects;
    if !found { return Some(InvalidInput); }
    if input.user !in db.accounts || !db.accounts[input.user].verified { return Some(NoRows); }
    if !db.accounts[input.user].status.Active? { return Some(AccessPending); }
    if Seat(input.user, client.project) !in db.access { return Some(AccessPending); }
    err := db.CreateAuthorizationCode(now, code, input.user, input.client, input.redirect, input.nonce,
                                      input.challenge, scopes);
  }

  /** The account and access checks with which both grants end. */
  method Entitle(db: Database, user: string, project: string) returns (r: Result<seq<string>>)
    ensures r == Service.Entitlement(db.State(), user, project)
  {
    if user !in db.accounts || !db.accounts[user].InGoodStanding() { return Err(NoRows); }
    if Seat(user, project) !in db.access { return Err(NoAccess); }
    r := Ok(db.access[Seat(user, project)]);
  }

  method Exchange(db: Database, now: nat, client: string, code: string, redirect: string, challenge: string,
                  refresh: string, family: string, signed: bool) returns (r: Result<Service.Grant>)
    modifies db
    ensures var (after, answer) := Service.Exchange(old(db.State()), now, client, code, redirect, challenge, refresh,
                                                    family, signed);
            r == answer && RolledBack(after, db.State())
  {
    hide Repository.ConsumeAuthorizationCode, Repository.CreateRefresh, Service.Entitlement;
    if client !in db.clients { return Err(InvalidClient); }
    var project := db.clients[client].project;
    var grant := db.ConsumeAuthorizationCode(now, code, client, redirect, challenge);
    if grant.Err? { return Err(grant.error); }
    var roles := Entitle(db, grant.value.account, project);
    if roles.Err? { return Err(roles.error); }
    var err := db.CreateRefresh(now, refresh, family, grant.value.account, client, project, grant.value.scopes);
    if err.Some? { return Err(err.value); }
    if !signed { return Err(SigningFailed); }
    r := Ok(Service.Grant(grant.value.account, roles.value, grant.value.scopes));
  }

  method Refresh(db: Database, client: string, token: string, next: string, hostNow: nat, signed: bool)
    returns (r: Result<Service.Grant>)
    modifies db
    ensures (db.State(), r) == Service.Refresh(old(db.State()), client, token, next, hostNow, signed)
  {
    hide Repository.RotateRefresh, Service.Entitlement;
    if client !in db.clients { return Err(InvalidClient); }
    var project := db.clients[client].project;
    var grant := db.RotateRefresh(token, next, client, project, hostNow);
    if grant.Err? { return Err(grant.error); }
    var roles := Entitle(db, grant.value.account, project);
    if roles.Err? { return Err(roles.error); }
    if !signed { return Err(SigningFailed); }
    r := Ok(Service.Grant(grant.value.account, roles.value, grant.value.scopes));
  }

  /** The login transaction. A legacy hash leaves an upgrade, which a second statement may finish at any later time. */
  method Login(db: Database, now: nat, identifier: string, attempt: string, session: string, upgraded: StoredPassword)
    returns (r: Result<string>, pending: Option<Service.Upgrade>)
    modifies db
    ensures match Repository.WithLogin(old(db.State()), now, Lower(Trim(identifier)), attempt, session)
            case Ok((value, id)) =>
              && r == Ok(id) && db.State() == value
              && id in old(db.accounts)
              && pending == (if old(db.accounts)[id].password.legacy
                             then Some(Service.Upgrade(id, old(db.accounts)[id].password, upgraded)) else None)
            case Err(e) => r == Err(e) && pending.None? && db.State() == old(db.State())
  {
    hide Lower, Trim, Repository.LoginMatches;
    pending := None;
    ghost var matches := Repository.LoginMatches(db.accounts, Lower(Trim(identifier)));
    assert matches <= db.accounts.Keys by { MatchesAreAccounts(db.accounts, Lower(Trim(identifier))); }
    r := db.WithLogin(now, Lower(Trim(identifier)), attempt, session);
    if r.Ok? && db.accounts[r.value].password.legacy {
      pending := Some(Service.Upgrade(r.value, db.accounts[r.value].password, upgraded));
    }
  }

  lemma MatchesAreAccounts(accounts: map<string, Account>, identifier: string)
    ensures Repository.LoginMatches(accounts, identifier) <= accounts.Keys
  {
  }

  method FinishUpgrade(db: Database, upgrade: Service.Upgrade)
    modifies db
    ensures db.State() == Repository.UpgradePasswordHash(old(db.State()), upgrade.account, upgrade.previous,
                                                         upgrade.upgraded)
  {
    db.UpgradePasswordHash(upgrade.account, upgrade.previous, upgrade.upgraded);
  }

  /** One call of Allow. `key` is the hash of scope and value; host and database read the same clock. */
  method Allow(db: Database, now: nat, key: string, value: string, limit: int, window: nat) returns (ok: bool)
    modifies db`limits
    ensures value == "" ==> !ok && db.limits == old(db.limits)
    ensures value != "" ==>
      match Repository.IncrementAttempt(old(db.limits), now, key, now + window)
      case Ok((limits, attempts)) => db.limits == limits && (ok <==> attempts <= limit)
      case Err(_) => db.limits == old(db.limits) && !ok
  {
    if value == "" { return false; }
    var attempts := db.IncrementAttempt(now, key, now + window);
    ok := attempts.Ok? && attempts.value <= limit;
  }

  // ---------------------------------------------------------------- identity.go

  method Register(db: Database, now: nat, id: string, form: Service.Registration, password: StoredPassword,
                  ticket: string) returns (err: Option<Error>)
    modifies db
    ensures Answers(Service.Register(old(db.State()), now, id, form, password, ticket), err, old(db.State()),
                    db.State())
  {
    hide Repository.CreatePendingAccount, Lower, Trim, Service.LoginShape;
    var email := Lower(Trim(form.email));
    var login := Lower(Trim(form.login));
    if login == "" { login := email; }
    var given, family := Trim(form.given), Trim(form.family);
    var name := Trim(given + " " + family);
    if name == "" { name := Trim(form.name); }
    if !Import.AddressShape(email) || |email| > 254 || |login| > 254 { return Some(InvalidInput); }
    if login != email && !Service.LoginShape(login) { return Some(InvalidInput); }
    if |given| > 100 || |family| > 100 || |name| > 200 { return Some(InvalidInput); }
    if !Service.PasswordShape(password.password) { return Some(InvalidInput); }
    err := db.CreatePendingAccount(now, id, Profile(email, login, name, given, family, ""), password, ticket);
  }

  /** An unknown address is answered like a known one. */
  method ResendVerification(db: Database, now: nat, email: string, ticket: string) returns (err: Option<Error>)
    modifies db
    ensures var answer := Service.ResendVerification(old(db.State()), now, email, ticket);
            if answer == Err(NoRows) then err.None? && db.State() == old(db.State())
            else Answers(answer, err, old(db.State()), db.State())
  {
    hide Repository.FirstRow, Repository.Unconfirmed, Lower, Trim;
    var row := Repository.FirstRow(Repository.Unconfirmed(db.accounts, Lower(Trim(email))));
    if row.Err? { return None; }
    err := db.AddEmailVerification(now, row.value, ticket);
  }

  /** Whatever happens, the caller learns nothing. */
  method ForgotPassword(db: Database, now: nat, email: string, ticket: string)
    modifies db
    ensures match Service.ForgotPassword(old(db.State()), now, email, ticket)
            case Ok(value) => db.State() == value
            case Err(_) => RolledBack(old(db.State()), db.State())
  {
    hide Repository.AddPasswordReset, Repository.FirstRow, Repository.Resettable, Lower, Trim;
    var row := Repository.FirstRow(Repository.Resettable(db.accounts, Lower(Trim(email))));
    if row.Err? { return; }
    var _ := db.AddPasswordReset(now, row.value, ticket);
  }

  method ResetPassword(db: Database, now: nat, ticket: string, password: StoredPassword) returns (err: Option<Error>)
    modifies db
    ensures Answers(Service.SubmitReset(old(db.State()), now, ticket, password), err, old(db.State()), db.State())
  {
    hide Repository.ResetPassword;
    if !Service.PasswordShape(password.password) || |ticket| < 32 { return Some(InvalidInput); }
    err := db.ResetPassword(now, ticket, password);
  }

  method ChangePassword(db: Database, now: nat, id: string, current: string, password: StoredPassword)
    returns (err: Option<Error>)
    modifies db
    ensures Answers(Service.SubmitPassword(old(db.State()), now, id, current, password), err, old(db.State()),
                    db.State())
  {
    hide Repository.ChangePassword;
    if !Service.PasswordShape(password.password) { return Some(InvalidInput); }
    err := db.ChangePassword(now, id, current, password);
  }

  method UpdateProfile(db: Database, now: nat, id: string, rawLogin: string, rawGiven: string, rawFamily: string,
                       rawAvatar: string) returns (err: Option<Error>)
    modifies db
    ensures Answers(Service.SubmitProfile(old(db.State()), now, id, rawLogin, rawGiven, rawFamily, rawAvatar), err,
                    old(db.State()), db.State())
  {
    hide Repository.UpdateProfile, Lower, Trim, Service.LoginShape;
    var login := Lower(Trim(rawLogin));
    var given, family, avatar := Trim(rawGiven), Trim(rawFamily), Trim(rawAvatar);
    if !Service.LoginShape(login) || |given| > 100 || |family| > 100 || |avatar| > 2048 { return Some(InvalidInput); }
    err := db.UpdateProfile(now, id, login, given, family, Trim(given + " " + family), avatar);
  }

  method RequestAccess(db: Database, requestId: string, account: string, project: string) returns (err: Option<Error>)
    modifies db
    ensures Answers(Service.SubmitAccessRequest(old(db.State()), requestId, account, project), err, old(db.State()),
                    db.State())
  {
    hide Repository.RequestAccess;
    if account !in db.accounts { return Some(NoRows); }
    if !db.accounts[account].verified { return Some(Unverified); }
    if Seat(account, project) in db.access { return None; }
    err := db.RequestAccess(requestId, account, project);
  }

  // ---------------------------------------------------------------- admin.go, operator.go

  method Disable(db: Database, now: nat, actor: string, id: string) returns (err: Option<Error>)
    modifies db
    ensures Answers(Service.Disable(old(db.State()), now, actor, id), err, old(db.State()), db.State())
  {
    hide Repository.DisableAccount;
    if actor == id { return Some(InvalidInput); }
    err := db.DisableAccount(now, id);
  }

  method RegisterClient(db: Database, id: string, project: string, secretHash: string, redirects: seq<string>)
    returns (err: Option<Error>)
    modifies db
    ensures Answers(Service.SubmitClient(old(db.State()), id, project, secretHash, redirects), err, old(db.State()),
                    db.State())
  {
    hide Repository.RegisterClient;
    if id == "" || project == "" || |secretHash| < 24 || redirects == [] { return Some(InvalidInput); }
    err := db.RegisterClient(id, project, secretHash, redirects);
  }

  // ---------------------------------------------------------------- signing keys

  /** Ensure: a rotation only when no key is active. */
  method EnsureKey(db: Database, now: nat, kid: string) returns (err: Option<Error>)
    modifies db`keys
    ensures old(Repository.ActiveKeys(db.keys)) != {} ==> err.None? && db.keys == old(db.keys)
    ensures old(Repository.ActiveKeys(db.keys)) == {} ==>
      match Repository.RotateSigningKey(old(db.keys), now, kid)
      case Ok(keys) => err.None? && db.keys == keys
      case Err(e) => err == Some(e) && db.keys == old(db.keys)
  {
    err := None;
    if |Repository.ActiveKeys(db.keys)| == 0 { err := db.RotateSigningKey(now, kid); }
  }

  /** The active key is read first; the claims are stamped with a later reading of the clock. */
  method Sign(db: Database, stamped: nat) returns (r: Result<Keys.Token>)
    ensures r.Ok? <==> Repository.ActiveKeys(db.keys) != {}
    ensures r.Ok? ==> r.value == Keys.Sign(r.value.kid, stamped) && r.value.kid in Repository.ActiveKeys(db.keys)
  {
    var kid := db.ActiveSigningKey();
    if kid.Err? { return Err(SigningFailed); }
    r := Ok(Keys.Token(kid.value, stamped / SECOND, stamped / SECOND, (stamped + Keys.LIFETIME) / SECOND));
  }

  /** Verify, past the signature: the key by its published id, then expiry, then not-before. */
  method Verify(db: Database, now: nat, token: Keys.Token) returns (ok: bool)
    ensures ok <==> Keys.Accepts(db.keys, now, token)
  {
    if token.kid !in db.keys || !db.keys[token.kid].Published(now) { return false; }
    if token.expires <= now / SECOND { return false; }
    ok := token.notBefore <= now / SECOND;
  }
}
