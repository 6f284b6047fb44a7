/** What has been used up, revoked or deleted stays so for the rest of the run. */
module Revocation {
  import opened Text
  import opened Schema
  import opened Repository
  import opened Service
  import opened ChangeLog
  import opened History
  import opened Credentials

  datatype Credential =
    | BrowserSession(hash: string)
    | AuthorizationCode(hash: string)
    | RefreshCredential(hash: string)
    | ResetLink(hash: string)

  /** A credential that was given out and can no longer succeed. */
  predicate Dead(w: World, c: Credential) {
    && c.hash in w.drawn
    && match c
       case BrowserSession(h) => h !in w.db.sessions
       case AuthorizationCode(h) => h in w.db.codes ==> w.db.codes[h].used
       case RefreshCredential(h) => h in w.db.tokens ==> !w.db.tokens[h].Live()
       case ResetLink(h) => h !in w.db.resets
  }

  /** A family with a name given out and no live token. */
  predicate DeadFamily(w: World, family: string) {
    family in w.drawn && forall h :: h in w.db.tokens && w.db.tokens[h].family == family ==> !w.db.tokens[h].Live()
  }

  predicate Presents(r: Request, c: Credential) {
    match c
    case BrowserSession(h) => r == Login(CheckSession(h))
    case AuthorizationCode(h) => r.OAuth? && r.oauth.DoExchange? && r.oauth.code == h
    case RefreshCredential(h) => r.OAuth? && r.oauth.DoRefresh? && r.oauth.token == h
    case ResetLink(h) => r.Login? && r.login.DoResetPassword? && r.login.ticket == h
  }

  /** A dead credential is refused, whoever presents it and however. */
  lemma DeadIsRefused(w: World, c: Credential, r: Request)
    requires Dead(w, c) && Presents(r, c)
    ensures Handle(w.db, w.clock, r).1.Refused?
  {
    hide Entitlement, RevokePasswordSessions, RevokeFamily, CreateRefresh;
  }

  // ---------------------------------------------------------------- nothing comes back

  /** A live row that is new has a new key, and its family is new or had a live token before. */
  predicate FreshOrKept(a: Tables, t: RefreshToken, drawn: set<string>) {
    t.family in drawn || exists k :: k in a.tokens && a.tokens[k].Live() && a.tokens[k].family == t.family
  }

  predicate Fades(a: Tables, b: Tables, drawn: set<string>) {
    && b.sessions.Keys <= a.sessions.Keys + drawn && b.resets.Keys <= a.resets.Keys + drawn
    && (forall h :: h in b.codes && h !in drawn ==> h in a.codes && (a.codes[h].used ==> b.codes[h].used))
    && (forall h :: h in b.tokens && h !in drawn ==>
          h in a.tokens && a.tokens[h].family == b.tokens[h].family && (b.tokens[h].Live() ==> a.tokens[h].Live()))
    && (forall h :: h in b.tokens && h in drawn && h !in a.tokens ==> FreshOrKept(a, b.tokens[h], drawn))
  }

  lemma ShrinksFades(a: Tables, b: Tables, drawn: set<string>)
    requires Shrinks(a, b)
    ensures Fades(a, b, drawn)
  {
  }

  lemma OpensFades(a: Tables, b: Tables, drawn: set<string>)
    requires OpensOnly(a, b, drawn)
    ensures Fades(a, b, drawn)
  {
  }

  lemma ExchangeFades(a: Tables, now: nat, client: string, code: string, redirect: string, challenge: string,
                      refresh: string, family: string, signed: bool)
    ensures Fades(a, Exchange(a, now, client, code, redirect, challenge, refresh, family, signed).0, {refresh, family})
  {
    hide Exchange;
    ExchangeCases(a, now, client, code, redirect, challenge, refresh, family, signed);
  }

  lemma RefreshFades(a: Tables, client: string, token: string, next: string, hostNow: nat, signed: bool)
    ensures Fades(a, Refresh(a, client, token, next, hostNow, signed).0, {next})
  {
    hide Refresh;
    var b := Refresh(a, client, token, next, hostNow, signed).0;
    RotationCases(a, client, token, next, hostNow, signed);
    if b == a {
      SameShrinks(a, a);
      ShrinksFades(a, b, {next});
    } else if token in a.tokens && b == a.(tokens := RevokeFamily(a.tokens, a.tokens[token].family)) {
      FamilyShrinks(a, a.tokens[token].family);
      ShrinksFades(a, b, {next});
    } else {
      RotatedFades(a, b, token, next);
    }
  }

  lemma RotatedFades(a: Tables, b: Tables, token: string, next: string)
    requires token in a.tokens && a.tokens[token].Live() && b == a.(tokens := Rotated(a.tokens, token, next))
    ensures Fades(a, b, {next})
  {
  }

  lemma AuthorizeFades(a: Tables, now: nat, input: AuthorizeInput, code: string)
    ensures Fades(a, Settle(a, Authorize(a, now, input, code)).0, {code})
  {
    hide Authorize, Settle;
    AuthorizeCases(a, now, input, code);
  }

  lemma HandleFades(a: Tables, now: nat, r: Request)
    ensures Fades(a, Handle(a, now, r).0, Drawn(r))
  {
    hide Boot, Fades, Shrinks, OpensOnly, HandleDirectory, HandleLogin, HandleAdmin, HandleUpkeep, Settle, SubmitClient,
         Authorize, Exchange, Refresh;
    var b := Handle(a, now, r).0;
    match r
    case Directory(d) =>
      DirectoryOnly(a, now, d);
      DirectoryShrinks(a, b);
      ShrinksFades(a, b, Drawn(r));
    case Login(l) =>
      if Opens(l) {
        OpensOne(a, now, l);
        OpensFades(a, b, Drawn(r));
      } else {
        LoginShrinks(a, now, l);
        ShrinksFades(a, b, Drawn(r));
      }
    case Admin(m) =>
      AdminShrinks(a, now, m);
      ShrinksFades(a, b, Drawn(r));
    case OAuth(DoRegisterClient(client, project, secretHash, redirects)) =>
      ClientAdded(a, client, project, secretHash, redirects);
      ShrinksFades(a, b, Drawn(r));
    case OAuth(DoAuthorize(input, code)) => AuthorizeFades(a, now, input, code);
    case OAuth(DoExchange(client, code, redirect, challenge, refresh, family, signed)) =>
      ExchangeFades(a, now, client, code, redirect, challenge, refresh, family, signed);
    case OAuth(DoRefresh(client, token, next, hostNow, signed)) =>
      RefreshFades(a, client, token, next, hostNow, signed);
    case Upkeep(u) =>
      UpkeepShrinks(a, now, u);
      ShrinksFades(a, b, Drawn(r));
    case Restart(s) =>
      BootShrinks(a, s);
      ShrinksFades(a, b, Drawn(r));
  }

  lemma DeadStays(w: World, c: Credential, r: Request)
    requires Dead(w, c) && Admissible(w, r)
    ensures Dead(Serve(w, r), c)
  {
    hide Handle;
    HandleFades(w.db, w.clock, r);
  }

  lemma DeadFamilyStays(w: World, family: string, r: Request)
    requires CredentialsOk(w) && DeadFamily(w, family) && Admissible(w, r)
    ensures DeadFamily(Serve(w, r), family)
  {
    hide Handle;
    HandleFades(w.db, w.clock, r);
  }

  /** Once dead, a credential is refused for the rest of the run. */
  lemma {:induction false} DeadForever(w: World, c: Credential, rs: seq<Request>)
    requires Dead(w, c) && AdmissibleRun(w, rs)
    ensures Dead(Run(w, rs), c)
  {
    hide Dead, Serve, Admissible;
    if rs != [] {
      DeadForever(w, c, rs[..|rs| - 1]);
      DeadStays(Run(w, rs[..|rs| - 1]), c, rs[|rs| - 1]);
    }
  }

  lemma {:induction false} DeadFamilyForever(w: World, family: string, rs: seq<Request>)
    requires CredentialsOk(w) && DeadFamily(w, family) && AdmissibleRun(w, rs)
    ensures DeadFamily(Run(w, rs), family)
  {
    hide DeadFamily, CredentialsOk, Serve, Admissible;
    if rs != [] {
      DeadFamilyForever(w, family, rs[..|rs| - 1]);
      RunOk(w, rs[..|rs| - 1]);
      DeadFamilyStays(Run(w, rs[..|rs| - 1]), family, rs[|rs| - 1]);
    }
  }

  // ---------------------------------------------------------------- epochs

  /** The credential is in the tables and belongs to the account. */
  predicate HeldBy(db: Tables, c: Credential, account: string) {
    match c
    case BrowserSession(h) => h in db.sessions && db.sessions[h].account == account
    case AuthorizationCode(h) => h in db.codes && db.codes[h].account == account
    case RefreshCredential(h) => h in db.tokens && db.tokens[h].account == account
    case ResetLink(h) => h in db.resets && db.resets[h].account == account
  }

  /** A new password, a reset or a disablement of the account was carried out. */
  predicate EndsEpoch(w: World, r: Request, account: string) {
    && Handle(w.db, w.clock, r).1.Accepted?
    && match r
       case Login(DoChangePassword(id, _, _)) => id == account
       case Login(DoResetPassword(ticket, _)) => ticket in w.db.resets && w.db.resets[ticket].account == account
       case Admin(DoDisable(_, id)) => id == account
       case _ => false
  }

  /** The four revocation statements took effect for the account. */
  predicate Cleared(a: Tables, b: Tables, account: string) {
    && b.sessions == RevokeCredentials(a, account).sessions
    && b.tokens == RevokeCredentials(a, account).tokens
    && b.codes == RevokeCredentials(a, account).codes
    && (forall h :: h in b.resets ==> h in a.resets && b.resets[h].account == a.resets[h].account != account)
  }

  lemma DisableClears(a: Tables, now: nat, id: string)
    requires DisableAccount(a, now, id).Ok?
    ensures Cleared(a, DisableAccount(a, now, id).value, id)
  {
    hide RevokeAccount, SessionsWithout, CodesWithout, ProfileProjects, QueueAll;
  }

  lemma PasswordClears(a: Tables, mid: Tables, now: nat, id: string, password: StoredPassword)
    requires mid == a.(resets := mid.resets) && mid.resets.Keys == a.resets.Keys
    requires forall h :: h in a.resets ==> mid.resets[h].account == a.resets[h].account
    requires RevokePasswordSessions(mid, now, id, password).Ok?
    ensures Cleared(a, RevokePasswordSessions(mid, now, id, password).value, id)
  {
    hide RevokeAccount, SessionsWithout, CodesWithout, ProfileProjects, SetPassword, QueueAll;
  }

  lemma EpochClears(w: World, r: Request, account: string)
    requires EndsEpoch(w, r, account)
    ensures Cleared(w.db, Serve(w, r).db, account)
  {
    hide Cleared, DisableAccount, RevokePasswordSessions;
    match r
    case Login(DoChangePassword(id, _, password)) => PasswordClears(w.db, w.db, w.clock, id, password);
    case Login(DoResetPassword(ticket, password)) =>
      var used := w.db.(resets := w.db.resets[ticket := w.db.resets[ticket].(used := true)]);
      PasswordClears(w.db, used, w.clock, account, password);
    case Admin(DoDisable(_, id)) => DisableClears(w.db, w.clock, id);
    case _ =>
  }

  lemma ClearedIsDead(w: World, v: World, c: Credential, account: string)
    requires KeysDrawn(w) && w.drawn <= v.drawn
    requires Cleared(w.db, v.db, account) && HeldBy(w.db, c, account)
    ensures Dead(v, c)
  {
  }

  /** Credential epochs. After a password change, a password reset or a disablement, no session, refresh token,
      authorization code or reset link the account held before is ever accepted again, whatever happens afterwards:
      re-activation, new grants, clean-ups, the passing of time. */
  lemma EpochIsFinal(w: World, r: Request, account: string, c: Credential, rs: seq<Request>, later: Request)
    requires CredentialsOk(w) && Admissible(w, r) && EndsEpoch(w, r, account) && HeldBy(w.db, c, account)
    requires AdmissibleRun(Serve(w, r), rs) && Presents(later, c)
    ensures var v := Run(Serve(w, r), rs); Handle(v.db, v.clock, later).1.Refused?
  {
    hide Dead, HeldBy, EndsEpoch, Presents, Handle, Admissible;
    EpochClears(w, r, account);
    ClearedIsDead(w, Serve(w, r), c, account);
    DeadForever(Serve(w, r), c, rs);
    DeadIsRefused(Run(Serve(w, r), rs), c, later);
  }

  // ---------------------------------------------------------------- reuse

  lemma ReuseCase(a: Tables, client: string, token: string, next: string, hostNow: nat, signed: bool)
    requires Refresh(a, client, token, next, hostNow, signed).1 == Err(RefreshReuse)
    ensures token in a.tokens && !a.tokens[token].Live()
    ensures Refresh(a, client, token, next, hostNow, signed).0
            == a.(tokens := RevokeFamily(a.tokens, a.tokens[token].family))
  {
  }

  /** Presenting a token that is used or revoked is answered as reuse and kills the family. */
  lemma ReuseKills(w: World, r: OAuthRequest)
    requires CredentialsOk(w) && r.DoRefresh?
    requires Handle(w.db, w.clock, OAuth(r)).1 == Refused(RefreshReuse)
    ensures r.token in w.db.tokens && !w.db.tokens[r.token].Live()
    ensures DeadFamily(Serve(w, OAuth(r)), w.db.tokens[r.token].family)
  {
    hide Refresh, OneLive, LedgerOk, CodeOk;
    ReuseCase(w.db, r.client, r.token, r.next, r.hostNow, r.signed);
    assert TokenOk(w, w.db.tokens[r.token]);
  }

  /** After reuse is detected, no token of the family is ever exchanged again; section 4.14.2 of RFC 9700. */
  lemma ReuseIsFinal(w: World, r: OAuthRequest, rs: seq<Request>, later: OAuthRequest)
    requires CredentialsOk(w) && r.DoRefresh? && Admissible(w, OAuth(r)) && r.token in w.db.tokens
    requires Handle(w.db, w.clock, OAuth(r)).1 == Refused(RefreshReuse)
    requires AdmissibleRun(Serve(w, OAuth(r)), rs) && later.DoRefresh?
    requires var v := Run(Serve(w, OAuth(r)), rs);
             later.token in v.db.tokens && v.db.tokens[later.token].family == w.db.tokens[r.token].family
    ensures var v := Run(Serve(w, OAuth(r)), rs); Handle(v.db, v.clock, OAuth(later)).1.Refused?
  {
    hide Handle, DeadFamily, CredentialsOk, Admissible, Serve;
    ReuseKills(w, r);
    ServeOk(w, OAuth(r));
    DeadFamilyForever(Serve(w, OAuth(r)), w.db.tokens[r.token].family, rs);
    MemberIsRefused(Run(Serve(w, OAuth(r)), rs), w.db.tokens[r.token].family, later);
  }

  lemma MemberIsRefused(w: World, family: string, r: OAuthRequest)
    requires DeadFamily(w, family) && r.DoRefresh? && r.token in w.db.tokens && w.db.tokens[r.token].family == family
    ensures Handle(w.db, w.clock, OAuth(r)).1.Refused?
  {
    hide Entitlement, RevokeFamily;
  }

  // ---------------------------------------------------------------- what the invariant means to a client

  lemma LiveHasSeat(w: World, token: string)
    requires TokensOk(w) && Standing(w.db) && token in w.db.tokens && w.db.tokens[token].Live()
    ensures var t := w.db.tokens[token];
            Seat(t.account, t.project) in w.db.access
            && t.account in w.db.accounts && w.db.accounts[t.account].InGoodStanding()
  {
    assert TokenOk(w, w.db.tokens[token]);
  }

  /** Live refresh token, standing access: a rotation that succeeds is never turned down by the account and access
      checks of issue; only a missing signing key can still fail the request. */
  lemma RotationIsEntitled(w: World, client: string, token: string, next: string, hostNow: nat)
    requires CredentialsOk(w) && Standing(w.db) && client in w.db.clients
    requires var project := w.db.clients[client].project;
             RotateRefresh(w.db, token, next, client, project, hostNow).1.Ok?
    ensures var project := w.db.clients[client].project;
            var (db, answer) := RotateRefresh(w.db, token, next, client, project, hostNow);
            Entitlement(db, answer.value.account, project).Ok?
  {
    hide OneLive, LedgerOk, KeysDrawn, CodeOk, RevokeFamily, TokensOk, Standing;
    LiveHasSeat(w, token);
  }

  /** In every reachable state: members of a family agree on the grant and on the end of its life, seven days after
      the family began; one of them at most is live; and behind a live one stand a seat in its project and a verified,
      active account. */
  lemma FamiliesHold(w: World, rs: seq<Request>, h: string, k: string)
    requires CredentialsOk(w) && Standing(w.db) && AdmissibleRun(w, rs)
    requires var db := Run(w, rs).db; h in db.tokens && k in db.tokens && db.tokens[h].family == db.tokens[k].family
    ensures var v := Run(w, rs);
            var t, u := v.db.tokens[h], v.db.tokens[k];
            && SameGrant(t, u)
            && t.family in v.ledger.origins
            && t.expires == t.familyExpires == v.ledger.origins[t.family].at + 7 * DAY <= v.clock + 7 * DAY
            && (t.Live() && u.Live() ==> h == k)
            && (t.Live() ==>
                  && Seat(t.account, t.project) in v.db.access
                  && t.account in v.db.accounts && v.db.accounts[t.account].InGoodStanding())
  {
    hide Serve, Admissible, Standing;
    RunOk(w, rs);
    var v := Run(w, rs);
    RunStands(w, rs);
    if v.db.tokens[h].Live() { LiveHasSeat(v, h); }
    assert TokenOk(v, v.db.tokens[h]) && TokenOk(v, v.db.tokens[k]);
  }

  /** An exchange uses up the code exactly when the code is unused and unexpired and client, redirect and PKCE
      challenge are the ones it was issued for; in every other case it is refused and changes nothing. */
  lemma ExchangeSpendsExactly(a: Tables, now: nat, client: string, code: string, redirect: string, challenge: string,
                              refresh: string, family: string, signed: bool)
    ensures var (b, answer) := Exchange(a, now, client, code, redirect, challenge, refresh, family, signed);
            if && client in a.clients && code in a.codes && !a.codes[code].used && a.codes[code].expires > now
               && a.codes[code].client == client && a.codes[code].redirect == redirect
               && a.codes[code].challenge == challenge
            then b.codes == a.codes[code := a.codes[code].(used := true)]
            else b == a && answer.Err?
  {
    hide Entitlement, CreateRefresh, ConsumeAuthorizationCode;
    ConsumesExactly(a, now, client, code, redirect, challenge);
  }

  lemma ConsumesExactly(a: Tables, now: nat, client: string, code: string, redirect: string, challenge: string)
    ensures var r := ConsumeAuthorizationCode(a, now, code, client, redirect, challenge);
            if && code in a.codes && !a.codes[code].used && a.codes[code].expires > now
               && a.codes[code].client == client && a.codes[code].redirect == redirect
               && a.codes[code].challenge == challenge
            then r.Ok? && r.value.0 == a.(codes := a.codes[code := a.codes[code].(used := true)])
            else r.Err?
  {
  }

  /** In every reachable state: no code was consumed twice, and two families come from two codes, each with the
      account, client and scopes of its code; sections 4.1.2 of RFC 6749 and 4.6 of RFC 7636. */
  lemma FamiliesTraceToCodes(w: World, rs: seq<Request>, code: string, f: string, g: string)
    requires CredentialsOk(w) && AdmissibleRun(w, rs)
    ensures var l := Run(w, rs).ledger;
            && l.consumed[code] <= 1
            && (f in l.origins ==> OriginOk(l, l.origins[f]))
            && (f in l.origins && g in l.origins && f != g ==> l.origins[f].code != l.origins[g].code)
  {
    hide Serve, Admissible;
    RunOk(w, rs);
  }

  // ---------------------------------------------------------------- lifetimes

  lemma RefreshMeansUnexpired(a: Tables, client: string, token: string, next: string, hostNow: nat, signed: bool)
    requires Refresh(a, client, token, next, hostNow, signed).1.Ok?
    ensures token in a.tokens && hostNow < a.tokens[token].familyExpires
  {
    hide Entitlement, RevokeFamily;
  }

  /** However often a family is rotated, no refresh is accepted seven days after it began. */
  lemma NoLifetimeIsExtended(w: World, rs: seq<Request>, r: OAuthRequest)
    requires CredentialsOk(w) && AdmissibleRun(w, rs) && r.DoRefresh?
    requires var v := Run(w, rs); Handle(v.db, v.clock, OAuth(r)).1.Accepted?
    ensures var v := Run(w, rs);
            && r.token in v.db.tokens && v.db.tokens[r.token].family in v.ledger.origins
            && r.hostNow < v.ledger.origins[v.db.tokens[r.token].family].at + 7 * DAY
  {
    hide Serve, Admissible, Refresh, OneLive, LedgerOk, CodeOk, KeysDrawn;
    RunOk(w, rs);
    var v := Run(w, rs);
    RefreshMeansUnexpired(v.db, r.client, r.token, r.next, r.hostNow, r.signed);
    assert TokenOk(v, v.db.tokens[r.token]);
  }

  lemma IssuedStays(w: World, r: Request, code: string)
    requires KeysDrawn(w) && Admissible(w, r) && code in w.ledger.issued
    ensures code in Serve(w, r).ledger.issued && Serve(w, r).ledger.issued[code] == w.ledger.issued[code]
  {
    hide Handle;
  }

  lemma {:induction false} RunIssuedStays(w: World, rs: seq<Request>, code: string)
    requires CredentialsOk(w) && AdmissibleRun(w, rs) && code in w.ledger.issued
    ensures code in Run(w, rs).ledger.issued && Run(w, rs).ledger.issued[code] == w.ledger.issued[code]
  {
    hide Serve, Admissible, KeysDrawn, TokensOk, OneLive, LedgerOk, CodeOk;
    if rs != [] {
      var n := |rs| - 1;
      RunIssuedStays(w, rs[..n], code);
      RunOk(w, rs[..n]);
      IssuedStays(Run(w, rs[..n]), rs[n], code);
    }
  }

  lemma AuthorizeIssues(w: World, r: OAuthRequest)
    requires r.DoAuthorize? && Handle(w.db, w.clock, OAuth(r)).1.Accepted?
    ensures var l := Serve(w, OAuth(r)).ledger;
            && r.code in l.issued
            && l.issued[r.code] == Code(r.input.user, r.input.client, r.input.redirect, r.input.nonce,
                                        r.input.challenge, r.input.Scopes(), w.clock + 2 * MINUTE, false)
  {
  }

  lemma ExchangeMeansMatch(a: Tables, now: nat, client: string, code: string, redirect: string, challenge: string,
                           refresh: string, family: string, signed: bool)
    requires Exchange(a, now, client, code, redirect, challenge, refresh, family, signed).1.Ok?
    ensures code in a.codes
    ensures var c := a.codes[code];
            var grant := Exchange(a, now, client, code, redirect, challenge, refresh, family, signed).1.value;
            && c.client == client && c.redirect == redirect && c.challenge == challenge && now < c.expires
            && grant.account == c.account && grant.scopes == c.scopes
  {
  }

  /** What a code is good for, whatever happens between its issue and its exchange: only the client and redirect it
      was issued for, with the verifier of its PKCE challenge, within two minutes; the tokens are for the user who
      authorized and the scopes asked for. */
  lemma CodesBuyWhatWasAuthorized(w: World, r: OAuthRequest, rs: seq<Request>, x: OAuthRequest)
    requires CredentialsOk(w) && Admissible(w, OAuth(r)) && AdmissibleRun(Serve(w, OAuth(r)), rs)
    requires r.DoAuthorize? && Handle(w.db, w.clock, OAuth(r)).1.Accepted?
    requires x.DoExchange? && x.code == r.code
    requires var v := Run(Serve(w, OAuth(r)), rs); Handle(v.db, v.clock, OAuth(x)).1.Accepted?
    ensures var v := Run(Serve(w, OAuth(r)), rs);
            var info := Handle(v.db, v.clock, OAuth(x)).1.info;
            && x.client == r.input.client && x.redirect == r.input.redirect && x.challenge == r.input.challenge
            && v.clock < w.clock + 2 * MINUTE
            && info.TokenSet? && info.grant.account == r.input.user && info.grant.scopes == r.input.Scopes()
  {
    hide Serve, Admissible, Exchange, Authorize, KeysDrawn, TokensOk, OneLive, LedgerOk;
    var first := Serve(w, OAuth(r));
    var v := Run(first, rs);
    AuthorizeIssues(w, r);
    ServeOk(w, OAuth(r));
    RunOk(first, rs);
    RunIssuedStays(first, rs, r.code);
    ExchangeMeansMatch(v.db, v.clock, x.client, x.code, x.redirect, x.challenge, x.refresh, x.family, x.signed);
    assert CodeOk(v, r.code);
  }
}
