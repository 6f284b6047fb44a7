/** Refresh-token families, authorization codes, sessions and resets over whole runs. */
module Credentials {
  import opened Text
  import opened Schema
  import opened Repository
  import opened Import
  import opened Service
  import opened ChangeLog

  // ---------------------------------------------------------------- the invariant

  /** Two states of one token row: only `used` and `revoked` may differ. */
  predicate SameGrant(t: RefreshToken, u: RefreshToken) {
    t.(used := false, revoked := false) == u.(used := false, revoked := false)
  }

  function SeatOf(t: RefreshToken): Seat {
    Seat(t.account, t.project)
  }

  /** Every stored credential was drawn at random, and so was every family and every code ever issued. */
  predicate KeysDrawn(w: World) {
    && w.db.sessions.Keys <= w.drawn && w.db.resets.Keys <= w.drawn
    && w.db.codes.Keys <= w.drawn && w.db.tokens.Keys <= w.drawn
    && w.ledger.issued.Keys <= w.drawn && w.ledger.origins.Keys <= w.drawn
  }

  /** A token belongs to the grant its family began with, cannot outlive it, and while live has a seat behind it. */
  predicate TokenOk(w: World, t: RefreshToken) {
    && t.family in w.ledger.origins
    && (var o := w.ledger.origins[t.family];
        && t.account == o.account && t.client == o.client && t.scopes == o.scopes
        && t.expires == t.familyExpires == o.at + 7 * DAY && o.at <= w.clock)
    && t.client in w.db.clients && t.project == w.db.clients[t.client].project
    && (t.Live() ==> SeatOf(t) in w.db.access)
  }

  predicate TokensOk(w: World) {
    forall h :: h in w.db.tokens ==> TokenOk(w, w.db.tokens[h])
  }

  /** At most one token of a family is live. */
  predicate OneLive(tokens: map<string, RefreshToken>) {
    forall h, k ::
      h in tokens && k in tokens && tokens[h].Live() && tokens[k].Live() && tokens[h].family == tokens[k].family ==>
        h == k
  }

  /** A stored code is the one issued, and is marked used exactly when it was consumed. */
  predicate CodeOk(w: World, c: string)
    requires c in w.db.codes
  {
    && c in w.ledger.issued && w.db.codes[c].(used := false) == w.ledger.issued[c].(used := false)
    && (w.db.codes[c].used <==> c in w.ledger.consumed)
  }

  /** A family comes from a consumed code with the same account, client and scopes. */
  predicate OriginOk(ledger: Ledger, o: Origin) {
    && o.code in ledger.consumed && o.code in ledger.issued
    && ledger.issued[o.code].account == o.account
    && ledger.issued[o.code].client == o.client
    && ledger.issued[o.code].scopes == o.scopes
  }

  predicate LedgerOk(ledger: Ledger) {
    && (forall c :: c in ledger.consumed ==> c in ledger.issued && ledger.consumed[c] == 1)
    && (forall f :: f in ledger.origins ==> OriginOk(ledger, ledger.origins[f]))
    && (forall f, g :: f in ledger.origins && g in ledger.origins && f != g ==>
          ledger.origins[f].code != ledger.origins[g].code)
  }

  predicate CredentialsOk(w: World) {
    && KeysDrawn(w) && TokensOk(w) && OneLive(w.db.tokens) && LedgerOk(w.ledger)
    && forall c :: c in w.db.codes ==> CodeOk(w, c)
  }

  // ---------------------------------------------------------------- steps that only take away

  predicate TokensFade(a: map<string, RefreshToken>, b: map<string, RefreshToken>) {
    forall h :: h in b ==> h in a && SameGrant(a[h], b[h]) && (b[h].Live() ==> a[h].Live())
  }

  /** Credentials are removed, used up or revoked, none is added; a live token keeps its seat. */
  predicate Shrinks(a: Tables, b: Tables) {
    && b.sessions.Keys <= a.sessions.Keys && b.resets.Keys <= a.resets.Keys
    && (forall c :: c in b.codes ==> c in a.codes && b.codes[c] == a.codes[c])
    && TokensFade(a.tokens, b.tokens)
    && (forall c :: c in a.clients ==> c in b.clients && b.clients[c] == a.clients[c])
    && (forall h :: h in b.tokens && b.tokens[h].Live() && SeatOf(b.tokens[h]) in a.access ==>
          SeatOf(b.tokens[h]) in b.access)
  }

  predicate SameHistory(a: Ledger, b: Ledger) {
    b.issued == a.issued && b.consumed == a.consumed && b.origins == a.origins
  }

  lemma ShrinkOk(w: World, v: World)
    requires CredentialsOk(w) && Shrinks(w.db, v.db) && SameHistory(w.ledger, v.ledger)
    requires w.drawn <= v.drawn && w.clock <= v.clock
    ensures CredentialsOk(v)
  {
    forall h | h in v.db.tokens ensures TokenOk(v, v.db.tokens[h]) {
      assert TokenOk(w, w.db.tokens[h]);
    }
    forall c | c in v.db.codes ensures CodeOk(v, c) {
      assert CodeOk(w, c);
    }
  }

  lemma DirectoryShrinks(a: Tables, b: Tables)
    requires OnlyDirectory(a, b)
    ensures Shrinks(a, b)
  {
  }

  lemma RevokeSeatShrinks(a: Tables, now: nat, account: string, project: string)
    requires RevokeAccess(a, now, account, project).Ok?
    ensures Shrinks(a, RevokeAccess(a, now, account, project).value)
  {
    var b := RevokeAccess(a, now, account, project).value;
    assert b.access == a.access - {Seat(account, project)} && b.tokens == RevokeSeat(a.tokens, Seat(account, project));
  }

  /** What DisableAccount and a new password do to credentials and seats. */
  lemma RevokeAccountShrinks(a: Tables, b: Tables, id: string)
    requires b.sessions == RevokeCredentials(a, id).sessions && b.tokens == RevokeCredentials(a, id).tokens
    requires b.codes == RevokeCredentials(a, id).codes && b.resets.Keys <= a.resets.Keys && b.clients == a.clients
    requires forall s :: s in a.access && s.account != id ==> s in b.access
    ensures Shrinks(a, b)
  {
  }

  lemma DisableShrinks(a: Tables, now: nat, id: string)
    requires DisableAccount(a, now, id).Ok?
    ensures Shrinks(a, DisableAccount(a, now, id).value)
  {
    RevokeAccountShrinks(a, DisableAccount(a, now, id).value, id);
  }

  lemma PasswordShrinks(a: Tables, mid: Tables, now: nat, id: string, password: StoredPassword)
    requires mid == a.(resets := mid.resets) && mid.resets.Keys <= a.resets.Keys
    requires RevokePasswordSessions(mid, now, id, password).Ok?
    ensures Shrinks(a, RevokePasswordSessions(mid, now, id, password).value)
  {
    RevokeAccountShrinks(a, RevokePasswordSessions(mid, now, id, password).value, id);
  }

  lemma ResetShrinks(a: Tables, now: nat, ticket: string, password: StoredPassword)
    requires ResetPassword(a, now, ticket, password).Ok?
    ensures Shrinks(a, ResetPassword(a, now, ticket, password).value)
  {
    var mid := a.(resets := a.resets[ticket := a.resets[ticket].(used := true)]);
    PasswordShrinks(a, mid, now, a.resets[ticket].account, password);
  }

  lemma CleanShrinks(a: Tables, now: nat, statement: Statement)
    ensures Shrinks(a, Clean(a, now, statement))
  {
    match statement { case _ => }
  }

  lemma FamilyShrinks(a: Tables, family: string)
    ensures Shrinks(a, a.(tokens := RevokeFamily(a.tokens, family)))
  {
  }

  lemma SameShrinks(a: Tables, b: Tables)
    requires b.sessions.Keys <= a.sessions.Keys && b.resets == a.resets && b.codes == a.codes && b.tokens == a.tokens
    requires b.access == a.access && forall c :: c in a.clients ==> c in b.clients && b.clients[c] == a.clients[c]
    ensures Shrinks(a, b)
  {
  }

  // ---------------------------------------------------------------- steps that add a credential

  /** Only sessions and resets are added, under names just drawn. */
  predicate OpensOnly(a: Tables, b: Tables, drawn: set<string>) {
    && b == a.(sessions := b.sessions, resets := b.resets)
    && b.sessions.Keys <= a.sessions.Keys + drawn && b.resets.Keys <= a.resets.Keys + drawn
  }

  lemma OpenOk(w: World, v: World, drawn: set<string>)
    requires CredentialsOk(w) && SameHistory(w.ledger, v.ledger) && w.clock == v.clock
    requires v.drawn == w.drawn + drawn && OpensOnly(w.db, v.db, drawn)
    ensures CredentialsOk(v)
  {
    forall h | h in v.db.tokens ensures TokenOk(v, v.db.tokens[h]) { assert TokenOk(w, w.db.tokens[h]); }
    forall c | c in v.db.codes ensures CodeOk(v, c) { assert CodeOk(w, c); }
  }

  lemma IssueCodeOk(w: World, v: World, h: string, code: Code)
    requires CredentialsOk(w) && h !in w.drawn && !code.used
    requires v == World(w.clock, w.db.(codes := w.db.codes[h := code]), w.drawn + {h},
                        w.ledger.(issued := w.ledger.issued[h := code]))
    ensures CredentialsOk(v)
  {
    assert h !in w.ledger.issued && h !in w.ledger.consumed;
    forall k | k in v.db.tokens ensures TokenOk(v, v.db.tokens[k]) { assert TokenOk(w, w.db.tokens[k]); }
    forall c | c in v.db.codes ensures CodeOk(v, c) { if c != h { assert CodeOk(w, c); } }
    forall f | f in v.ledger.origins ensures OriginOk(v.ledger, v.ledger.origins[f]) {
      assert OriginOk(w.ledger, w.ledger.origins[f]);
    }
  }

  /** A code is consumed: it was never consumed before, and no family came from it. */
  lemma ConsumeOk(w: World, v: World, h: string)
    requires CredentialsOk(w) && h in w.db.codes && !w.db.codes[h].used
    requires v == w.(db := w.db.(codes := w.db.codes[h := w.db.codes[h].(used := true)]),
                     ledger := w.ledger.(consumed := w.ledger.consumed + multiset{h}))
    ensures CredentialsOk(v)
    ensures h in v.ledger.consumed && h in v.ledger.issued
    ensures v.ledger.issued[h].(used := false) == w.db.codes[h]
    ensures forall f :: f in v.ledger.origins ==> v.ledger.origins[f].code != h
  {
    assert CodeOk(w, h);
    forall k | k in v.db.tokens ensures TokenOk(v, v.db.tokens[k]) { assert TokenOk(w, w.db.tokens[k]); }
    forall c | c in v.db.codes ensures CodeOk(v, c) { if c != h { assert CodeOk(w, c); } }
    forall f | f in v.ledger.origins ensures OriginOk(v.ledger, v.ledger.origins[f]) {
      assert OriginOk(w.ledger, w.ledger.origins[f]);
    }
  }

  /** A family begins: a fresh name, a fresh token, a code no other family came from. */
  lemma BegetOk(w: World, v: World, h: string, t: RefreshToken, code: string)
    requires CredentialsOk(w)
    requires h !in w.drawn && t.family !in w.drawn && h != t.family
    requires code in w.ledger.consumed && code in w.ledger.issued
    requires forall f :: f in w.ledger.origins ==> w.ledger.origins[f].code != code
    requires var c := w.ledger.issued[code]; c.account == t.account && c.client == t.client && c.scopes == t.scopes
    requires t.expires == t.familyExpires == w.clock + 7 * DAY
    requires t.client in w.db.clients && t.project == w.db.clients[t.client].project && SeatOf(t) in w.db.access
    requires v == World(w.clock, w.db.(tokens := w.db.tokens[h := t]), w.drawn + {h, t.family},
                        w.ledger.(origins := w.ledger.origins[
                                    t.family := Origin(code, t.account, t.client, t.scopes, w.clock)]))
    ensures CredentialsOk(v)
  {
    forall k | k in v.db.tokens ensures TokenOk(v, v.db.tokens[k]) { if k != h { assert TokenOk(w, w.db.tokens[k]); } }
    forall c | c in v.db.codes ensures CodeOk(v, c) { assert CodeOk(w, c); }
    forall f | f in v.ledger.origins ensures OriginOk(v.ledger, v.ledger.origins[f]) {
      if f != t.family { assert OriginOk(w.ledger, w.ledger.origins[f]); }
    }
    forall k, l | k in v.db.tokens && l in v.db.tokens && v.db.tokens[k].Live() && v.db.tokens[l].Live()
                  && v.db.tokens[k].family == v.db.tokens[l].family
      ensures k == l
    {
      if k != h { assert TokenOk(w, w.db.tokens[k]); }
      if l != h { assert TokenOk(w, w.db.tokens[l]); }
    }
  }

  function Rotated(tokens: map<string, RefreshToken>, h: string, next: string): map<string, RefreshToken>
    requires h in tokens
  {
    tokens[h := tokens[h].(used := true)][next := tokens[h].(expires := tokens[h].familyExpires)]
  }

  lemma RotatedOneLive(tokens: map<string, RefreshToken>, h: string, next: string)
    requires OneLive(tokens) && h in tokens && tokens[h].Live() && next !in tokens
    ensures OneLive(Rotated(tokens, h, next))
  {
    var b := Rotated(tokens, h, next);
    forall k, l | k in b && l in b && b[k].Live() && b[l].Live() && b[k].family == b[l].family
      ensures k == l
    {
      assert k != h && l != h;
      assert k != next ==> tokens[k] == b[k];
      assert l != next ==> tokens[l] == b[l];
    }
  }

  /** A live token is used up and its one successor takes over: the same grant and the same end. */
  lemma RotateOk(w: World, v: World, h: string, next: string)
    requires CredentialsOk(w) && h in w.db.tokens && w.db.tokens[h].Live() && next !in w.drawn
    requires v == w.(db := w.db.(tokens := Rotated(w.db.tokens, h, next)), drawn := w.drawn + {next})
    ensures CredentialsOk(v)
  {
    RotatedOneLive(w.db.tokens, h, next);
    assert TokenOk(w, w.db.tokens[h]);
    forall k | k in v.db.tokens ensures TokenOk(v, v.db.tokens[k]) {
      if k != next && k != h { assert TokenOk(w, w.db.tokens[k]); }
    }
    forall c | c in v.db.codes ensures CodeOk(v, c) { assert CodeOk(w, c); }
  }

  // ---------------------------------------------------------------- the requests of a client

  lemma RefreshOk(w: World, r: OAuthRequest)
    requires CredentialsOk(w) && r.DoRefresh? && Admissible(w, OAuth(r))
    ensures CredentialsOk(Serve(w, OAuth(r)))
  {
    hide CredentialsOk, Entitlement, RevokeFamily;
    var v := Serve(w, OAuth(r));
    RotationCases(w.db, r.client, r.token, r.next, r.hostNow, r.signed);
    if v.db == w.db {
      SameShrinks(w.db, w.db);
      ShrinkOk(w, v);
    } else if && r.token in w.db.tokens
              && v.db == w.db.(tokens := RevokeFamily(w.db.tokens, w.db.tokens[r.token].family)) {
      FamilyShrinks(w.db, w.db.tokens[r.token].family);
      ShrinkOk(w, v);
    } else {
      RotateOk(w, v, r.token, r.next);
    }
  }

  /** The three things a refresh request can do to the tables. */
  lemma RotationCases(a: Tables, client: string, token: string, next: string, hostNow: nat, signed: bool)
    ensures var b := Refresh(a, client, token, next, hostNow, signed).0;
            || b == a
            || (token in a.tokens && b == a.(tokens := RevokeFamily(a.tokens, a.tokens[token].family)))
            || (token in a.tokens && a.tokens[token].Live() && next !in a.tokens
                && b == a.(tokens := Rotated(a.tokens, token, next)))
  {
    hide Entitlement;
  }

  function Spent(codes: map<string, Code>, code: string): map<string, Code>
    requires code in codes
  {
    codes[code := codes[code].(used := true)]
  }

  function FirstToken(family: string, c: Code, client: string, project: string, now: nat): RefreshToken {
    RefreshToken(family, c.account, client, project, c.scopes, now + 7 * DAY, now + 7 * DAY, false, false)
  }

  /** The three things an exchange can do: nothing, spend the code, or spend it and begin a family. */
  lemma ExchangeCases(a: Tables, now: nat, client: string, code: string, redirect: string, challenge: string,
                      refresh: string, family: string, signed: bool)
    ensures var b := Exchange(a, now, client, code, redirect, challenge, refresh, family, signed).0;
            || b == a
            || (&& code in a.codes && !a.codes[code].used
                && (|| b == a.(codes := Spent(a.codes, code))
                    || (&& client in a.clients && a.codes[code].client == client && refresh !in a.tokens
                        && (var t := FirstToken(family, a.codes[code], client, a.clients[client].project, now);
                            && SeatOf(t) in a.access
                            && b == a.(codes := Spent(a.codes, code), tokens := a.tokens[refresh := t])))))
  {
  }

  lemma ExchangeOk(w: World, r: OAuthRequest)
    requires CredentialsOk(w) && r.DoExchange? && Admissible(w, OAuth(r))
    ensures CredentialsOk(Serve(w, OAuth(r)))
  {
    hide CredentialsOk, Exchange;
    var a, v := w.db, Serve(w, OAuth(r));
    ExchangeCases(a, w.clock, r.client, r.code, r.redirect, r.challenge, r.refresh, r.family, r.signed);
    if v.db == a {
      SameShrinks(a, a);
      ShrinkOk(w, v);
    } else {
      SpendOk(w, v, r);
    }
  }

  lemma SpendOk(w: World, v: World, r: OAuthRequest)
    requires CredentialsOk(w) && r.DoExchange? && Admissible(w, OAuth(r)) && v == Serve(w, OAuth(r))
    requires r.code in w.db.codes && !w.db.codes[r.code].used
    requires
      || v.db == w.db.(codes := Spent(w.db.codes, r.code))
      || (&& r.client in w.db.clients && w.db.codes[r.code].client == r.client && r.refresh !in w.db.tokens
          && (var t := FirstToken(r.family, w.db.codes[r.code], r.client, w.db.clients[r.client].project, w.clock);
              && SeatOf(t) in w.db.access
              && v.db == w.db.(codes := Spent(w.db.codes, r.code), tokens := w.db.tokens[r.refresh := t])))
    ensures CredentialsOk(v)
  {
    hide CredentialsOk, Exchange;
    var a := w.db;
    var spent := w.(db := a.(codes := Spent(a.codes, r.code)),
                    ledger := w.ledger.(consumed := w.ledger.consumed + multiset{r.code}));
    ConsumeOk(w, spent, r.code);
    if v.db == spent.db {
      SameShrinks(spent.db, spent.db);
      ShrinkOk(spent, v);
    } else {
      BegetOk(spent, v, r.refresh,
              FirstToken(r.family, a.codes[r.code], r.client, a.clients[r.client].project, w.clock), r.code);
    }
  }

  // ---------------------------------------------------------------- every request

  lemma SettleDirectory(a: Tables, result: Result<Tables>)
    requires result.Ok? ==> OnlyDirectory(a, result.value)
    ensures OnlyDirectory(a, Settle(a, result).0)
  {
  }

  lemma DirectoryOnly(a: Tables, now: nat, r: DirectoryRequest)
    ensures OnlyDirectory(a, HandleDirectory(a, now, r).0)
  {
    hide Settle, OnlyDirectory, AddEmailVerification, CreatePendingAccount, VerifyEmail, UpdateProfile,
         UpdateLegacyProfile, RequestAccess, ImportAll;
    match r
    case DoRegister(id, form, password, ticket) => SettleDirectory(a, Register(a, now, id, form, password, ticket));
    case DoResendVerification(email, ticket) => SettleDirectory(a, ResendVerification(a, now, email, ticket));
    case DoVerifyEmail(ticket) => SettleDirectory(a, VerifyEmail(a, now, ticket));
    case DoUpdateProfile(account, login, given, family, avatar) =>
      SettleDirectory(a, SubmitProfile(a, now, account, login, given, family, avatar));
    case DoUpdateLegacyProfile(project, account, name, avatar) =>
      SettleDirectory(a, UpdateLegacyProfile(a, now, project, account, name, avatar));
    case DoRequestAccess(requestId, account, project) =>
      NothingIsDirectory(a);
      SettleDirectory(a, SubmitAccessRequest(a, requestId, account, project));
    case DoImport(users, ids) => SettleDirectory(a, ImportUsers(a, now, users, ids));
  }

  lemma NothingIsDirectory(a: Tables)
    ensures OnlyDirectory(a, a)
  {
  }

  lemma SettleShrinks(a: Tables, result: Result<Tables>)
    requires result.Ok? ==> Shrinks(a, result.value) || OnlyDirectory(a, result.value)
    ensures Shrinks(a, Settle(a, result).0)
  {
    SameShrinks(a, a);
    if result.Ok? && OnlyDirectory(a, result.value) { DirectoryShrinks(a, result.value); }
  }

  lemma AdminShrinks(a: Tables, now: nat, r: AdminRequest)
    ensures Shrinks(a, HandleAdmin(a, now, r).0)
  {
    hide Settle, Shrinks, OnlyDirectory, OnlyRevokes, ActivateAccount, DisableAccount, GrantAccess, RevokeAccess,
         ApproveRequest, SetProjectRoles, GrantProjectAdmin, GrantGlobalAdmin;
    match r
    case DoActivate(account) => SettleShrinks(a, ActivateAccount(a, account));
    case DoDisable(actor, account) =>
      if Disable(a, now, actor, account).Ok? { DisableShrinks(a, now, account); }
      SettleShrinks(a, Disable(a, now, actor, account));
    case DoGrant(account, project, roles) => SettleShrinks(a, GrantAccess(a, now, account, project, roles));
    case DoRevoke(account, project) =>
      if RevokeAccess(a, now, account, project).Ok? { RevokeSeatShrinks(a, now, account, project); }
      SettleShrinks(a, RevokeAccess(a, now, account, project));
    case DoApprove(project, requestId, roles) => SettleShrinks(a, ApproveRequest(a, now, project, requestId, roles));
    case DoSetRoles(project, account, roles) => SettleShrinks(a, SetProjectRoles(a, now, project, account, roles));
    case DoGrantProjectAdmin(project, email) => SettleShrinks(a, GrantProjectAdmin(a, now, project, email));
    case DoGrantGlobalAdmin(email) => SettleShrinks(a, GrantGlobalAdmin(a, Lower(Trim(email))));
  }

  /** The two login requests that store a credential. */
  predicate Opens(r: LoginRequest) {
    r.DoLogin? || r.DoForgotPassword?
  }

  lemma SessionOpens(a: Tables, now: nat, identifier: string, password: string, session: string)
    requires WithLogin(a, now, identifier, password, session).Ok?
    ensures OpensOnly(a, WithLogin(a, now, identifier, password, session).value.0, {session})
  {
  }

  lemma ResetOpens(a: Tables, now: nat, email: string, ticket: string)
    requires ForgotPassword(a, now, email, ticket).Ok?
    ensures OpensOnly(a, ForgotPassword(a, now, email, ticket).value, {ticket})
  {
  }

  lemma NothingOpens(a: Tables, drawn: set<string>)
    ensures OpensOnly(a, a, drawn)
  {
  }

  lemma OpensOne(a: Tables, now: nat, r: LoginRequest)
    requires Opens(r)
    ensures OpensOnly(a, HandleLogin(a, now, r).0, Drawn(Login(r)))
  {
    hide WithLogin, ForgotPassword, OpensOnly;
    NothingOpens(a, Drawn(Login(r)));
    match r
    case DoLogin(identifier, attempt, session, _) =>
      if WithLogin(a, now, Lower(Trim(identifier)), attempt, session).Ok? {
        SessionOpens(a, now, Lower(Trim(identifier)), attempt, session);
      }
    case DoForgotPassword(email, ticket) =>
      if ForgotPassword(a, now, email, ticket).Ok? { ResetOpens(a, now, email, ticket); }
    case _ =>
  }

  lemma LoginShrinks(a: Tables, now: nat, r: LoginRequest)
    requires !Opens(r)
    ensures Shrinks(a, HandleLogin(a, now, r).0)
  {
    hide Settle, Shrinks, WithLogin, SessionAccount, ForgotPassword, ResetPassword, RevokePasswordSessions;
    match r
    case FinishUpgrade(u) => SameShrinks(a, UpgradePasswordHash(a, u.account, u.previous, u.upgraded));
    case CheckSession(session) => SameShrinks(a, a);
    case Logout(session) => SameShrinks(a, a.(sessions := a.sessions - {session}));
    case DoResetPassword(ticket, password) =>
      if SubmitReset(a, now, ticket, password).Ok? { ResetShrinks(a, now, ticket, password); }
      SettleShrinks(a, SubmitReset(a, now, ticket, password));
    case DoChangePassword(account, attempt, password) =>
      if SubmitPassword(a, now, account, attempt, password).Ok? { PasswordShrinks(a, a, now, account, password); }
      SettleShrinks(a, SubmitPassword(a, now, account, attempt, password));
    case _ =>
  }

  lemma UpkeepShrinks(a: Tables, now: nat, r: UpkeepRequest)
    ensures Shrinks(a, HandleUpkeep(a, now, r).0)
  {
    hide Shrinks, Clean, HandleUpkeep;
    if r.DoClean? {
      CleanRequest(a, now, r);
      CleanShrinks(a, now, r.statement);
    } else {
      UpkeepElsewhere(a, now, r);
      SameShrinks(a, HandleUpkeep(a, now, r).0);
    }
  }

  lemma OAuthOk(w: World, r: OAuthRequest)
    requires CredentialsOk(w) && Admissible(w, OAuth(r))
    ensures CredentialsOk(Serve(w, OAuth(r)))
  {
    hide CredentialsOk;
    match r
    case DoRegisterClient(_, _, _, _) => RegisterOk(w, r);
    case DoAuthorize(_, _) => AuthorizeOk(w, r);
    case DoExchange(_, _, _, _, _, _, _) => ExchangeOk(w, r);
    case DoRefresh(_, _, _, _, _) => RefreshOk(w, r);
  }

  lemma ClientAdded(a: Tables, id: string, project: string, secretHash: string, redirects: seq<string>)
    ensures Shrinks(a, Settle(a, SubmitClient(a, id, project, secretHash, redirects)).0)
  {
    hide Shrinks, Settle;
    var r := SubmitClient(a, id, project, secretHash, redirects);
    if r.Ok? { SameShrinks(a, r.value); }
    SettleShrinks(a, r);
  }

  lemma RegisterOk(w: World, r: OAuthRequest)
    requires CredentialsOk(w) && r.DoRegisterClient?
    ensures CredentialsOk(Serve(w, OAuth(r)))
  {
    hide CredentialsOk, Shrinks, Settle, SubmitClient;
    ClientAdded(w.db, r.client, r.project, r.secretHash, r.redirects);
    ShrinkOk(w, Serve(w, OAuth(r)));
  }

  lemma AuthorizeCases(a: Tables, now: nat, input: AuthorizeInput, code: string)
    ensures var b := Settle(a, Authorize(a, now, input, code)).0;
            || b == a
            || (code !in a.codes && b == a.(codes := a.codes[code := b.codes[code]]) && code in b.codes
                && !b.codes[code].used)
  {
  }

  lemma AuthorizeOk(w: World, r: OAuthRequest)
    requires CredentialsOk(w) && r.DoAuthorize? && Admissible(w, OAuth(r))
    ensures CredentialsOk(Serve(w, OAuth(r)))
  {
    hide CredentialsOk, Shrinks, Settle, Authorize;
    var v := Serve(w, OAuth(r));
    AuthorizeCases(w.db, w.clock, r.input, r.code);
    if v.db == w.db {
      SameShrinks(w.db, w.db);
      ShrinkOk(w, v);
    } else {
      IssueCodeOk(w, v, r.code, v.db.codes[r.code]);
    }
  }

  lemma BootShrinks(a: Tables, s: Setup)
    ensures Shrinks(a, Boot(a, s).0)
  {
    hide Boot;
    BootElsewhere(a, s);
  }

  lemma ServeOk(w: World, r: Request)
    requires CredentialsOk(w) && Admissible(w, r)
    ensures CredentialsOk(Serve(w, r))
  {
    hide CredentialsOk, Shrinks, OpensOnly, HandleDirectory, HandleLogin, HandleAdmin, HandleOAuth, HandleUpkeep, Boot;
    var v := Serve(w, r);
    match r
    case Directory(d) =>
      DirectoryOnly(w.db, w.clock, d);
      DirectoryShrinks(w.db, v.db);
      ShrinkOk(w, v);
    case Login(l) =>
      if Opens(l) {
        OpensOne(w.db, w.clock, l);
        OpenOk(w, v, Drawn(r));
      } else {
        LoginShrinks(w.db, w.clock, l);
        ShrinkOk(w, v);
      }
    case Admin(m) =>
      AdminShrinks(w.db, w.clock, m);
      ShrinkOk(w, v);
    case OAuth(o) => OAuthOk(w, o);
    case Upkeep(u) =>
      UpkeepShrinks(w.db, w.clock, u);
      ShrinkOk(w, v);
    case Restart(s) =>
      BootShrinks(w.db, s);
      ShrinkOk(w, v);
  }

  lemma {:induction false} RunOk(w: World, rs: seq<Request>)
    requires CredentialsOk(w) && AdmissibleRun(w, rs)
    ensures CredentialsOk(Run(w, rs))
  {
    hide CredentialsOk, Serve, Admissible;
    if rs != [] {
      RunOk(w, rs[..|rs| - 1]);
      ServeOk(Run(w, rs[..|rs| - 1]), rs[|rs| - 1]);
    }
  }
}
