/** What a client gets and when: codes, exchanges and refreshes over whole runs, and what the tokens say. */
module Issuing {
  import opened Text
  import opened Schema
  import opened Repository
  import opened Service
  import opened ChangeLog
  import opened Transactions
  import opened History
  import opened Credentials
  import opened Revocation
  import opened OneCredential
  import opened Lifetimes

  /** What the tokens say of a user that a project lists: the roles of the seat, and the scopes that were granted. */
  function GrantOf(db: Tables, user: string, project: string, scopes: seq<string>): Grant
    requires Row(db, project, user).Some?
  {
    Grant(user, Row(db, project, user).value.roles, scopes)
  }

  lemma ListedMeans(db: Tables, user: string, project: string)
    requires Row(db, project, user).Some?
    ensures user in db.accounts && db.accounts[user].status.Active? && db.accounts[user].verified
    ensures Seat(user, project) in db.access
    ensures Row(db, project, user).value.roles == db.access[Seat(user, project)]
  {
  }

  // ---------------------------------------------------------------- authorization

  /** A registered redirect of a known client, a request of the right form for known scopes, by a user whom the client's
      project lists. */
  predicate MayAuthorize(db: Tables, x: AuthorizeInput) {
    && x.responseType == "code" && x.challengeMethod == "S256" && ChallengeShape(x.challenge)
    && 16 <= |x.state| <= 512 && 16 <= |x.nonce| <= 256
    && Contains(" " + x.scope + " ", " openid ")
    && (forall s :: s in Fields(x.scope) ==> s in {"openid", "profile", "email", "offline_access"})
    && x.client in db.clients && x.redirect in db.clients[x.client].redirects
    && Row(db, db.clients[x.client].project, x.user).Some?
  }

  lemma AuthorizeOnTables(a: Tables, now: nat, x: AuthorizeInput, code: string)
    requires code !in a.codes
    ensures var (b, reply) := HandleOAuth(a, now, DoAuthorize(x, code));
            && (reply.Accepted? <==> MayAuthorize(a, x))
            && b == if reply.Refused? then a
                    else a.(codes := a.codes[code := Code(x.user, x.client, x.redirect, x.nonce, x.challenge,
                                                          Fields(x.scope), now + 2 * MINUTE, false)])
  {
    hide ChallengeShape, Contains, Fields;
  }

  /** A code is given out exactly to a user whom the client's project lists, at a registered redirect; it is the one
      change, and it is good for two minutes, for that user, client, redirect, challenge and those scopes. */
  lemma AuthorizeAnswers(w: World, rs: seq<Request>, r: OAuthRequest)
    requires CredentialsOk(w) && AdmissibleRun(w, rs) && r.DoAuthorize? && Admissible(Run(w, rs), OAuth(r))
    ensures var v := Run(w, rs);
            var x := r.input;
            var (b, reply) := Handle(v.db, v.clock, OAuth(r));
            && (reply.Accepted? <==> MayAuthorize(v.db, x))
            && b == if reply.Refused? then v.db
                    else v.db.(codes := v.db.codes[r.code := Code(x.user, x.client, x.redirect, x.nonce, x.challenge,
                                                                  Fields(x.scope), v.clock + 2 * MINUTE, false)])
  {
    hide Service.Serve, HandleOAuth, MayAuthorize, Fields, TokensOk, OneLive, LedgerOk, CodeOk;
    RunOk(w, rs);
    var v := Run(w, rs);
    AuthorizeOnTables(v.db, v.clock, r.input, r.code);
  }

  // ---------------------------------------------------------------- exchange

  /** The code was issued to that client for that redirect and challenge, was never consumed, and its two minutes are
      not over; an epoch of its user may have deleted it. */
  predicate MayExchange(w: World, r: OAuthRequest)
    requires r.DoExchange?
  {
    && r.client in w.db.clients && r.code in w.db.codes && r.code in w.ledger.issued && r.code !in w.ledger.consumed
    && var c := w.ledger.issued[r.code];
       c.client == r.client && c.redirect == r.redirect && c.challenge == r.challenge && w.clock < c.expires
  }

  /** The answer to an exchange that redeems a code. */
  function Exchanging(w: World, r: OAuthRequest): Reply
    requires r.DoExchange? && MayExchange(w, r)
  {
    var c := w.ledger.issued[r.code];
    var project := w.db.clients[r.client].project;
    if Row(w.db, project, c.account).None? then
      if c.account in w.db.accounts && w.db.accounts[c.account].InGoodStanding() then Refused(NoAccess)
      else Refused(NoRows)
    else if !r.signed then Refused(SigningFailed)
    else Accepted(TokenSet(GrantOf(w.db, c.account, project, c.scopes)))
  }

  lemma RedeemsMeans(w: World, r: OAuthRequest)
    requires CredentialsOk(w) && r.DoExchange?
    ensures Redeems(w.db, w.clock, r) <==> MayExchange(w, r)
    ensures MayExchange(w, r) ==> w.db.codes[r.code] == w.ledger.issued[r.code].(used := false)
  {
    hide KeysDrawn, TokensOk, OneLive, LedgerOk;
    if r.code in w.db.codes { assert CodeOk(w, r.code); }
  }

  lemma ExchangeReply(a: Tables, now: nat, r: OAuthRequest)
    requires Standing(a) && r.DoExchange? && r.refresh !in a.tokens
    ensures var reply := HandleOAuth(a, now, r).1;
            if !Redeems(a, now, r) then reply.Refused?
            else
              var c := a.codes[r.code];
              var project := a.clients[r.client].project;
              reply == if Row(a, project, c.account).None? then
                         if c.account in a.accounts && a.accounts[c.account].InGoodStanding() then Refused(NoAccess)
                         else Refused(NoRows)
                       else if !r.signed then Refused(SigningFailed)
                       else Accepted(TokenSet(GrantOf(a, c.account, project, c.scopes)))
  {
  }

  /** Tokens are exchanged exactly for a code that its client redeems, while the client's project lists the user; they
      carry the user and the scopes that were authorized and the roles of the seat. The code is used up whether tokens
      come of it or not, a family begins exactly when the user is listed, and anything else changes nothing. */
  lemma ExchangeAnswers(w: World, rs: seq<Request>, r: OAuthRequest)
    requires CredentialsOk(w) && Standing(w.db) && AdmissibleRun(w, rs)
    requires r.DoExchange? && Admissible(Run(w, rs), OAuth(r))
    ensures var v := Run(w, rs);
            var (b, reply) := Handle(v.db, v.clock, OAuth(r));
            if !MayExchange(v, r) then b == v.db && reply.Refused?
            else
              var c := v.ledger.issued[r.code];
              var project := v.db.clients[r.client].project;
              && reply == Exchanging(v, r)
              && b.codes == v.db.codes[r.code := v.db.codes[r.code].(used := true)]
              && b.tokens == (if Row(v.db, project, c.account).None? then v.db.tokens
                              else v.db.tokens[r.refresh := RefreshToken(r.family, c.account, r.client, project,
                                                                         c.scopes, v.clock + 7 * DAY,
                                                                         v.clock + 7 * DAY, false, false)])
              && b == v.db.(codes := b.codes, tokens := b.tokens)
  {
    hide Service.Serve, HandleOAuth, TokensOk, OneLive, LedgerOk, CodeOk, Standing;
    RunOk(w, rs);
    RunStands(w, rs);
    var v := Run(w, rs);
    ExchangeTables(v.db, v.clock, r);
    ExchangeReply(v.db, v.clock, r);
    RedeemsMeans(v, r);
  }

  /** What an accepted exchange says: the user stands well, has the seat, and the roles are those of the seat. */
  lemma ExchangedRoles(w: World, rs: seq<Request>, r: OAuthRequest)
    requires CredentialsOk(w) && Standing(w.db) && AdmissibleRun(w, rs)
    requires r.DoExchange? && Admissible(Run(w, rs), OAuth(r))
    requires var v := Run(w, rs); Handle(v.db, v.clock, OAuth(r)).1.Accepted?
    ensures var v := Run(w, rs);
            var info := Handle(v.db, v.clock, OAuth(r)).1.info;
            && info.TokenSet? && r.client in v.db.clients
            && info.grant.account in v.db.accounts && v.db.accounts[info.grant.account].InGoodStanding()
            && Seat(info.grant.account, v.db.clients[r.client].project) in v.db.access
            && info.grant.roles == v.db.access[Seat(info.grant.account, v.db.clients[r.client].project)]
  {
    hide Service.Serve, Admissible, Handle, CredentialsOk, Standing;
    ExchangeAnswers(w, rs, r);
  }

  // ---------------------------------------------------------------- refresh

  /** The token was handed to the client that presents it: the one that exchanged the code its family began with. */
  predicate Own(w: World, r: OAuthRequest)
    requires r.DoRefresh?
  {
    && r.token in w.db.tokens && w.db.tokens[r.token].family in w.ledger.origins
    && w.ledger.origins[w.db.tokens[r.token].family].client == r.client
  }

  function OriginOf(w: World, r: OAuthRequest): Origin
    requires r.DoRefresh? && Own(w, r)
  {
    w.ledger.origins[w.db.tokens[r.token].family]
  }

  /** The client's own live token, within seven days of the beginning of its family. */
  predicate MayRefresh(w: World, r: OAuthRequest)
    requires r.DoRefresh?
  {
    Own(w, r) && w.db.tokens[r.token].Live() && r.hostNow < OriginOf(w, r).at + 7 * DAY
  }

  lemma OwnMeans(w: World, r: OAuthRequest)
    requires CredentialsOk(w) && r.DoRefresh?
    ensures Owns(w.db, r) <==> Own(w, r)
    ensures r.next !in w.db.tokens ==> (Rotates(w.db, r) <==> MayRefresh(w, r))
    ensures Own(w, r) ==>
      var t, o := w.db.tokens[r.token], OriginOf(w, r);
      r.client in w.db.clients && t.account == o.account && t.client == r.client && t.scopes == o.scopes
      && t.project == w.db.clients[r.client].project && t.expires == t.familyExpires == o.at + 7 * DAY
  {
    hide KeysDrawn, OneLive, LedgerOk, CodeOk;
    if r.token in w.db.tokens { assert TokenOk(w, w.db.tokens[r.token]); }
  }

  lemma RefreshReply(a: Tables, now: nat, r: OAuthRequest)
    requires r.DoRefresh? && r.next !in a.tokens
    requires Owns(a, r) && a.tokens[r.token].Live() ==>
      Row(a, a.tokens[r.token].project, a.tokens[r.token].account).Some?
    ensures var reply := HandleOAuth(a, now, r).1;
            && (Replays(a, r) ==> reply == Refused(RefreshReuse))
            && (Rotates(a, r) ==>
                  var t := a.tokens[r.token];
                  reply == if !r.signed then Refused(SigningFailed)
                           else Accepted(TokenSet(GrantOf(a, t.account, t.project, t.scopes))))
            && (!Replays(a, r) && !Rotates(a, r) ==> reply.Refused? && reply != Refused(RefreshReuse))
  {
    hide RevokeFamily;
  }

  lemma LiveIsListed(w: World, r: OAuthRequest)
    requires CredentialsOk(w) && Standing(w.db) && r.DoRefresh? && Own(w, r) && w.db.tokens[r.token].Live()
    ensures var t := w.db.tokens[r.token]; Row(w.db, t.project, t.account).Some?
  {
    hide KeysDrawn, OneLive, LedgerOk, CodeOk;
    LiveHasSeat(w, r.token);
  }

  /** A refresh is accepted exactly for the client's own live token in time: the token is used up, its successor has the
      same grant and end, and the tokens carry the user and scopes of the family's beginning and the roles of the seat.
      A token of the client's own that is not live is answered as reuse and takes its family with it. A token presented
      by anybody else, or out of time, changes nothing, whatever its state. */
  lemma RefreshAnswers(w: World, rs: seq<Request>, r: OAuthRequest)
    requires CredentialsOk(w) && Standing(w.db) && AdmissibleRun(w, rs)
    requires r.DoRefresh? && Admissible(Run(w, rs), OAuth(r))
    ensures var v := Run(w, rs);
            var (b, reply) := Handle(v.db, v.clock, OAuth(r));
            && b == v.db.(tokens := b.tokens)
            && (if MayRefresh(v, r) then
                  var t, o := v.db.tokens[r.token], OriginOf(v, r);
                  && r.client in v.db.clients && t.project == v.db.clients[r.client].project
                  && Row(v.db, t.project, o.account).Some?
                  && reply == (if r.signed then Accepted(TokenSet(GrantOf(v.db, o.account, t.project, o.scopes)))
                               else Refused(SigningFailed))
                  && b.tokens == v.db.tokens[r.token := t.(used := true)]
                                            [r.next := RefreshToken(t.family, o.account, r.client, t.project, o.scopes,
                                                                    o.at + 7 * DAY, o.at + 7 * DAY, false, false)]
                else if Own(v, r) && !v.db.tokens[r.token].Live() then
                  && reply == Refused(RefreshReuse)
                  && b.tokens.Keys == v.db.tokens.Keys
                  && (forall h :: h in v.db.tokens ==>
                        b.tokens[h] == if v.db.tokens[h].family == v.db.tokens[r.token].family
                                       then v.db.tokens[h].(revoked := true) else v.db.tokens[h])
                else
                  b == v.db && reply.Refused? && reply != Refused(RefreshReuse))
  {
    hide Service.Serve, HandleOAuth, TokensOk, OneLive, LedgerOk, CodeOk, Standing, Row, Rotates;
    RunOk(w, rs);
    RunStands(w, rs);
    var v := Run(w, rs);
    OwnMeans(v, r);
    if Own(v, r) && v.db.tokens[r.token].Live() { LiveIsListed(v, r); }
    RefreshTables(v.db, v.clock, r);
    RefreshReply(v.db, v.clock, r);
    if Own(v, r) && !v.db.tokens[r.token].Live() { FamilyRows(v.db.tokens, v.db.tokens[r.token].family); }
  }

  lemma FamilyRows(tokens: map<string, RefreshToken>, family: string)
    ensures var b := RevokeFamily(tokens, family);
            && b.Keys == tokens.Keys
            && forall h :: h in tokens ==>
                 b[h] == if tokens[h].family == family then tokens[h].(revoked := true) else tokens[h]
  {
  }

  /** Whatever the state of the tables: a token that was handed to another client, or for another project, is refused,
      and not even its own family notices. */
  lemma OthersChangeNothing(a: Tables, now: nat, r: OAuthRequest)
    requires r.DoRefresh? && r.client in a.clients && r.token in a.tokens
    requires a.tokens[r.token].client != r.client || a.tokens[r.token].project != a.clients[r.client].project
    ensures Handle(a, now, OAuth(r)) == (a, Refused(NoRows))
  {
    hide Entitlement, RevokeFamily;
  }

  /** What an accepted refresh says: the client is the one of the family's beginning, the user stands well, has the
      seat, and the roles are those of the seat. */
  lemma RefreshedRoles(w: World, rs: seq<Request>, r: OAuthRequest)
    requires CredentialsOk(w) && Standing(w.db) && AdmissibleRun(w, rs)
    requires r.DoRefresh? && Admissible(Run(w, rs), OAuth(r))
    requires var v := Run(w, rs); Handle(v.db, v.clock, OAuth(r)).1.Accepted?
    ensures var v := Run(w, rs);
            var info := Handle(v.db, v.clock, OAuth(r)).1.info;
            && info.TokenSet? && r.client in v.db.clients && r.token in v.db.tokens
            && (var t := v.db.tokens[r.token];
                && t.client == r.client && t.project == v.db.clients[r.client].project
                && t.Live() && r.hostNow < t.familyExpires && t.family in v.ledger.origins
                && v.ledger.origins[t.family].client == r.client
                && info.grant.account == v.ledger.origins[t.family].account
                && info.grant.scopes == v.ledger.origins[t.family].scopes)
            && info.grant.account in v.db.accounts && v.db.accounts[info.grant.account].InGoodStanding()
            && Seat(info.grant.account, v.db.clients[r.client].project) in v.db.access
            && info.grant.roles == v.db.access[Seat(info.grant.account, v.db.clients[r.client].project)]
  {
    hide Service.Serve, Admissible, Handle, CredentialsOk, Standing;
    RefreshAnswers(w, rs, r);
    RunOk(w, rs);
    OwnMeans(Run(w, rs), r);
  }

  // ---------------------------------------------------------------- codes and tokens last exactly

  /** A code is redeemed exactly by its client, with its redirect and the verifier of its challenge, within two minutes,
      once, and until the user's epoch ends: whatever else happens in between, nothing spoils it. */
  lemma CodesLastExactly(w: World, r: OAuthRequest, rs: seq<Request>, x: OAuthRequest)
    requires CredentialsOk(w) && Standing(w.db) && r.DoAuthorize? && Admissible(w, OAuth(r))
    requires Handle(w.db, w.clock, OAuth(r)).1.Accepted? && AdmissibleRun(Service.Serve(w, OAuth(r)), rs)
    requires x.DoExchange? && x.code == r.code
    ensures var first := Service.Serve(w, OAuth(r));
            var v := Run(first, rs);
            MayExchange(v, x)
            <==> && !Ended(first, rs, AuthorizationCode(r.code)) && v.clock < w.clock + 2 * MINUTE
                 && x.client == r.input.client && x.redirect == r.input.redirect && x.challenge == r.input.challenge
                 && x.client in v.db.clients
  {
    hide HandleOAuth, CredentialsOk, Standing, Admissible, Ended, Note, MayExchange;
    var first := Service.Serve(w, OAuth(r));
    NewCode(w, r);
    ServeOk(w, OAuth(r));
    ServeKeeps(w, OAuth(r));
    LastsExactly(first, AuthorizationCode(r.code), rs);
    RunOk(first, rs);
    RedeemsMeans(Run(first, rs), x);
  }

  lemma NewCode(w: World, r: OAuthRequest)
    requires CredentialsOk(w) && r.DoAuthorize? && Admissible(w, OAuth(r))
    requires Handle(w.db, w.clock, OAuth(r)).1.Accepted?
    ensures var b := Handle(w.db, w.clock, OAuth(r)).0;
            var x := r.input;
            && r.code in b.codes
            && b.codes[r.code] == Code(x.user, x.client, x.redirect, x.nonce, x.challenge, Fields(x.scope),
                                       w.clock + 2 * MINUTE, false)
  {
    hide HandleOAuth, TokensOk, OneLive, LedgerOk, CodeOk, MayAuthorize, Fields;
    AuthorizeOnTables(w.db, w.clock, r.input, r.code);
  }

  /** A live refresh token is accepted exactly from its client, until the family's seven days are over, the family is
      turned, the seat is lost or the user's epoch ends: nothing else ends a family. */
  lemma TokensLastExactly(w: World, h: string, rs: seq<Request>, x: OAuthRequest)
    requires CredentialsOk(w) && Standing(w.db) && Stored(w.db, RefreshCredential(h)) && AdmissibleRun(w, rs)
    requires x.DoRefresh? && x.token == h && Admissible(Run(w, rs), OAuth(x)) && x.signed
    requires Run(w, rs).clock <= x.hostNow + DAY
    ensures var v := Run(w, rs);
            var t := w.db.tokens[h];
            Handle(v.db, v.clock, OAuth(x)).1.Accepted?
            <==> !Ended(w, rs, RefreshCredential(h)) && x.hostNow < t.familyExpires && x.client == t.client
  {
    hide Handle, CredentialsOk, Standing, Admissible, Ended;
    LastsExactly(w, RefreshCredential(h), rs);
    RunOk(w, rs);
    RefreshAnswers(w, rs, x);
    OwnMeans(Run(w, rs), x);
    TokenHasOrigin(Run(w, rs), h);
  }

  lemma TokenHasOrigin(w: World, h: string)
    requires CredentialsOk(w)
    ensures h in w.db.tokens ==>
      var t := w.db.tokens[h];
      t.family in w.ledger.origins && t.client == w.ledger.origins[t.family].client
      && t.familyExpires == w.ledger.origins[t.family].at + 7 * DAY
  {
    hide KeysDrawn, OneLive, LedgerOk, CodeOk;
    if h in w.db.tokens { assert TokenOk(w, w.db.tokens[h]); }
  }
}
