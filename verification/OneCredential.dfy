/** One stored credential through the requests: a session, an authorization code, a refresh token or a reset link.
    What becomes of its row is told from the request, its answer and the row. */
module OneCredential {
  import opened Text
  import opened Schema
  import opened Repository
  import opened Service
  import opened ChangeLog
  import opened Transactions
  import opened Credentials
  import opened Accounts
  import opened OneAccount

  // ---------------------------------------------------------------- causes

  /** The account whose credentials all end with the request: a new password, a reset or a disablement. */
  function EpochOf(db: Tables, r: Request, reply: Reply): Option<string> {
    if reply.Refused? then None else
    match r
    case Login(DoChangePassword(account, _, _)) => Some(account)
    case Login(DoResetPassword(ticket, _)) => if ticket in db.resets then Some(db.resets[ticket].account) else None
    case Admin(DoDisable(_, account)) => Some(account)
    case _ => None
  }

  /** The exchange presents an unused code in time, by the client, with the redirect and for the challenge it was
      issued for. */
  predicate Redeems(db: Tables, now: nat, r: OAuthRequest)
    requires r.DoExchange?
  {
    && r.client in db.clients && r.code in db.codes
    && var c := db.codes[r.code];
       !c.used && now < c.expires && c.client == r.client && c.redirect == r.redirect && c.challenge == r.challenge
  }

  /** The token is one of the client that presents it. */
  predicate Owns(db: Tables, r: OAuthRequest)
    requires r.DoRefresh?
  {
    && r.client in db.clients && r.token in db.tokens && db.tokens[r.token].client == r.client
    && db.tokens[r.token].project == db.clients[r.client].project
  }

  predicate Rotates(db: Tables, r: OAuthRequest)
    requires r.DoRefresh?
  {
    && Owns(db, r) && db.tokens[r.token].Live() && r.next !in db.tokens
    && r.hostNow < db.tokens[r.token].expires && r.hostNow < db.tokens[r.token].familyExpires
  }

  predicate Replays(db: Tables, r: OAuthRequest)
    requires r.DoRefresh?
  {
    Owns(db, r) && !db.tokens[r.token].Live()
  }

  /** The client's project lists the user of the code. */
  predicate Entitled(db: Tables, r: OAuthRequest)
    requires r.DoExchange? && r.client in db.clients && r.code in db.codes
  {
    Row(db, db.clients[r.client].project, db.codes[r.code].account).Some?
  }

  // ---------------------------------------------------------------- rows

  function SessionAt(db: Tables, h: string): Option<Session> {
    if h in db.sessions then Some(db.sessions[h]) else None
  }

  function CodeAt(db: Tables, h: string): Option<Code> {
    if h in db.codes then Some(db.codes[h]) else None
  }

  function TokenAt(db: Tables, h: string): Option<RefreshToken> {
    if h in db.tokens then Some(db.tokens[h]) else None
  }

  function ResetAt(db: Tables, h: string): Option<Ticket> {
    if h in db.resets then Some(db.resets[h]) else None
  }

  function SessionNext(db: Tables, now: nat, r: Request, reply: Reply, h: string): Option<Session> {
    var had := SessionAt(db, h);
    match r
    case Login(DoLogin(_, _, session, _)) =>
      if reply.Accepted? && reply.info.UserId? && session == h then Some(Session(reply.info.id, now + 7 * DAY)) else had
    case Login(Logout(session)) => if session == h then None else had
    case Upkeep(DoClean(Sessions)) => if had.Some? && had.value.expires < now then None else had
    case _ => if had.Some? && EpochOf(db, r, reply) == Some(had.value.account) then None else had
  }

  function CodeNext(db: Tables, now: nat, r: Request, reply: Reply, h: string): Option<Code> {
    var had := CodeAt(db, h);
    match r
    case OAuth(DoAuthorize(x, code)) =>
      if reply.Accepted? && code == h
      then Some(Code(x.user, x.client, x.redirect, x.nonce, x.challenge, x.Scopes(), now + 2 * MINUTE, false)) else had
    case OAuth(DoExchange(_, code, _, _, _, _, _)) =>
      if had.Some? && code == h && Redeems(db, now, r.oauth) then Some(had.value.(used := true)) else had
    case Upkeep(DoClean(Codes)) => if had.Some? && had.value.expires + DAY < now then None else had
    case _ => if had.Some? && EpochOf(db, r, reply) == Some(had.value.account) then None else had
  }

  /** The first token of a family. */
  function Begun(db: Tables, now: nat, r: OAuthRequest): RefreshToken
    requires r.DoExchange? && Redeems(db, now, r)
  {
    FirstToken(r.family, db.codes[r.code], r.client, db.clients[r.client].project, now)
  }

  function TokenNext(db: Tables, now: nat, r: Request, reply: Reply, h: string): Option<RefreshToken> {
    var had := TokenAt(db, h);
    match r
    case OAuth(x) =>
      if x.DoExchange? && had.None? && x.refresh == h && Redeems(db, now, x) && Entitled(db, x)
      then Some(Begun(db, now, x))
      else if x.DoRefresh? && Rotates(db, x) && x.token == h then Some(db.tokens[h].(used := true))
      else if x.DoRefresh? && Rotates(db, x) && x.next == h
      then Some(db.tokens[x.token].(expires := db.tokens[x.token].familyExpires))
      else if x.DoRefresh? && Replays(db, x) && had.Some? && had.value.family == db.tokens[x.token].family
      then Some(had.value.(revoked := true))
      else had
    case Admin(DoRevoke(account, project)) =>
      if reply.Accepted? && had.Some? && SeatOf(had.value) == Seat(account, project)
      then Some(had.value.(revoked := true)) else had
    case Upkeep(DoClean(Tokens)) => if had.Some? && had.value.familyExpires + DAY < now then None else had
    case _ =>
      if had.Some? && EpochOf(db, r, reply) == Some(had.value.account) then Some(had.value.(revoked := true)) else had
  }

  /** The accounts that may reset their password through an address. */
  predicate MayReset(db: Tables, email: string, id: string) {
    && id in db.accounts && db.accounts[id].profile.email == Lower(Trim(email))
    && db.accounts[id].verified && !db.accounts[id].status.Inactive?
  }

  /** What a reset link can be after a request. */
  predicate ResetNext(db: Tables, now: nat, r: Request, reply: Reply, h: string, b: Option<Ticket>) {
    var had := ResetAt(db, h);
    match r
    case Login(DoForgotPassword(email, ticket)) =>
      if ticket == h && had.None? then
        if b.Some?
        then b.value == Ticket(b.value.account, now + 20 * MINUTE, false) && MayReset(db, email, b.value.account)
        else forall id :: id in db.accounts ==> !MayReset(db, email, id)
      else b == had
    case Upkeep(DoClean(Resets)) => b == if had.Some? && had.value.expires + DAY < now then None else had
    case _ => b == if had.Some? && EpochOf(db, r, reply) == Some(had.value.account) then None else had
  }

  ghost predicate SessionsFollow(a: Tables, now: nat, r: Request, b: Tables, reply: Reply) {
    forall h: string :: SessionAt(b, h) == SessionNext(a, now, r, reply, h)
  }

  ghost predicate CodesFollow(a: Tables, now: nat, r: Request, b: Tables, reply: Reply) {
    forall h: string :: CodeAt(b, h) == CodeNext(a, now, r, reply, h)
  }

  ghost predicate TokensFollow(a: Tables, now: nat, r: Request, b: Tables, reply: Reply) {
    forall h: string :: TokenAt(b, h) == TokenNext(a, now, r, reply, h)
  }

  ghost predicate ResetsFollow(a: Tables, now: nat, r: Request, b: Tables, reply: Reply) {
    forall h: string :: ResetNext(a, now, r, reply, h, ResetAt(b, h))
  }

  /** Every stored credential becomes what is said of it above. */
  ghost predicate CredentialsFollow(a: Tables, now: nat, r: Request, b: Tables, reply: Reply) {
    && SessionsFollow(a, now, r, b, reply) && CodesFollow(a, now, r, b, reply)
    && TokensFollow(a, now, r, b, reply) && ResetsFollow(a, now, r, b, reply)
  }

  // ---------------------------------------------------------------- requests that touch none

  predicate SameCredentials(a: Tables, b: Tables) {
    b.sessions == a.sessions && b.codes == a.codes && b.tokens == a.tokens && b.resets == a.resets
  }

  /** The requests that are not about credentials. */
  predicate Unrelated(r: Request, reply: Reply) {
    match r
    case OAuth(x) => x.DoRegisterClient?
    case Upkeep(u) => !u.DoClean?
    case Admin(m) => reply.Refused? || !(m.DoDisable? || m.DoRevoke?)
    case Login(l) =>
      l.FinishUpgrade? || l.CheckSession? || (reply.Refused? && (l.DoChangePassword? || l.DoResetPassword?))
    case _ => true
  }

  lemma SameSessions(a: Tables, now: nat, r: Request, b: Tables, reply: Reply)
    requires b.sessions == a.sessions && Unrelated(r, reply)
    ensures SessionsFollow(a, now, r, b, reply)
  {
  }

  lemma SameCodes(a: Tables, now: nat, r: Request, b: Tables, reply: Reply)
    requires b.codes == a.codes && Unrelated(r, reply)
    ensures CodesFollow(a, now, r, b, reply)
  {
  }

  lemma SameTokens(a: Tables, now: nat, r: Request, b: Tables, reply: Reply)
    requires b.tokens == a.tokens && Unrelated(r, reply)
    ensures TokensFollow(a, now, r, b, reply)
  {
    hide Redeems, Rotates, Replays, Row;
  }

  lemma SameResets(a: Tables, now: nat, r: Request, b: Tables, reply: Reply)
    requires b.resets == a.resets && Unrelated(r, reply)
    ensures ResetsFollow(a, now, r, b, reply)
  {
    hide MayReset;
  }

  lemma SameFollow(a: Tables, now: nat, r: Request, b: Tables, reply: Reply)
    requires SameCredentials(a, b) && Unrelated(r, reply)
    ensures CredentialsFollow(a, now, r, b, reply)
  {
    hide Unrelated, SessionsFollow, CodesFollow, TokensFollow, ResetsFollow;
    SameSessions(a, now, r, b, reply);
    SameCodes(a, now, r, b, reply);
    SameTokens(a, now, r, b, reply);
    SameResets(a, now, r, b, reply);
  }

  // ---------------------------------------------------------------- the epoch

  /** The four revocations of an account's credentials; the resets may have been marked before they went. */
  predicate Revoked(a: Tables, b: Tables, account: string) {
    var c := RevokeCredentials(a, account);
    b.sessions == c.sessions && b.codes == c.codes && b.tokens == c.tokens && b.resets == c.resets
  }

  lemma EpochFollows(a: Tables, now: nat, r: Request, b: Tables, reply: Reply, account: string)
    requires EpochOf(a, r, reply) == Some(account) && Revoked(a, b, account)
    ensures CredentialsFollow(a, now, r, b, reply)
  {
  }

  lemma DisableRevokes(a: Tables, now: nat, actor: string, id: string)
    requires Disable(a, now, actor, id).Ok?
    ensures Revoked(a, Disable(a, now, actor, id).value, id)
  {
    hide SessionsWithout, CodesWithout, TicketsWithout, RevokeAccount, ProfileProjects, QueueAll;
  }

  lemma PasswordRevokes(a: Tables, now: nat, id: string, password: StoredPassword)
    requires RevokePasswordSessions(a, now, id, password).Ok?
    ensures Revoked(a, RevokePasswordSessions(a, now, id, password).value, id)
  {
    hide SessionsWithout, CodesWithout, TicketsWithout, RevokeAccount, ProfileProjects, QueueAll, SetPassword;
  }

  lemma ResetRevokes(a: Tables, now: nat, ticket: string, password: StoredPassword)
    requires SubmitReset(a, now, ticket, password).Ok?
    ensures ticket in a.resets && Revoked(a, SubmitReset(a, now, ticket, password).value, a.resets[ticket].account)
  {
    hide RevokePasswordSessions, SessionsWithout, CodesWithout, RevokeAccount;
    var id := a.resets[ticket].account;
    var used := a.(resets := a.resets[ticket := a.resets[ticket].(used := true)]);
    PasswordRevokes(used, now, id, password);
    assert TicketsWithout(used.resets, id) == TicketsWithout(a.resets, id);
  }

  // ---------------------------------------------------------------- logins

  lemma SignInFollows(a: Tables, now: nat, r: LoginRequest)
    requires r.DoLogin?
    ensures var (b, reply) := HandleLogin(a, now, r); CredentialsFollow(a, now, Login(r), b, reply)
  {
    hide HandleLogin, SessionsFollow, CodesFollow, TokensFollow, ResetsFollow;
    var (b, reply) := HandleLogin(a, now, r);
    SignInTables(a, now, r);
    SignedRows(a, now, r, b, reply);
  }

  lemma SignInTables(a: Tables, now: nat, r: LoginRequest)
    requires r.DoLogin?
    ensures var (b, reply) := HandleLogin(a, now, r);
            && (reply.Accepted? ==> reply.info.UserId?)
            && b == if reply.Refused? then a
                    else a.(sessions := a.sessions[r.session := Session(reply.info.id, now + 7 * DAY)])
  {
    hide Lower, Trim, LoginMatches, FirstRow;
  }

  lemma SignedRows(a: Tables, now: nat, r: LoginRequest, b: Tables, reply: Reply)
    requires r.DoLogin? && (reply.Accepted? ==> reply.info.UserId?)
    requires b == if reply.Refused? then a
                  else a.(sessions := a.sessions[r.session := Session(reply.info.id, now + 7 * DAY)])
    ensures CredentialsFollow(a, now, Login(r), b, reply)
  {
    hide MayReset;
  }

  lemma ForgotFollows(a: Tables, now: nat, r: LoginRequest)
    requires r.DoForgotPassword?
    ensures var (b, reply) := HandleLogin(a, now, r); CredentialsFollow(a, now, Login(r), b, reply)
  {
    hide HandleLogin, SessionsFollow, CodesFollow, TokensFollow, ResetsFollow, MayReset;
    var (b, reply) := HandleLogin(a, now, r);
    ForgotTables(a, now, r);
    ForgottenElsewhere(a, now, r, b, reply);
    if b == a { NoTicket(a, now, r, b, reply); } else { NewTicket(a, now, r, b, reply); }
  }

  lemma ForgotTables(a: Tables, now: nat, r: LoginRequest)
    requires r.DoForgotPassword?
    ensures var b := HandleLogin(a, now, r).0;
            || (b == a && (r.ticket in a.resets || forall id :: id in a.accounts ==> !MayReset(a, r.email, id)))
            || (r.ticket !in a.resets
                && exists id :: MayReset(a, r.email, id)
                                && b == a.(resets := a.resets[r.ticket := Ticket(id, now + 20 * MINUTE, false)]))
  {
    hide Lower, Trim;
    var email := Lower(Trim(r.email));
    assert forall id :: id in Resettable(a.accounts, email) <==> MayReset(a, r.email, id);
    if Resettable(a.accounts, email) != {} {
      var id := FirstRow(Resettable(a.accounts, email)).value;
      assert MayReset(a, r.email, id);
    }
  }

  lemma ForgottenElsewhere(a: Tables, now: nat, r: LoginRequest, b: Tables, reply: Reply)
    requires r.DoForgotPassword? && b == a.(resets := b.resets)
    ensures SessionsFollow(a, now, Login(r), b, reply) && CodesFollow(a, now, Login(r), b, reply)
    ensures TokensFollow(a, now, Login(r), b, reply)
  {
  }

  lemma NoTicket(a: Tables, now: nat, r: LoginRequest, b: Tables, reply: Reply)
    requires r.DoForgotPassword? && b == a
    requires r.ticket in a.resets || forall id :: id in a.accounts ==> !MayReset(a, r.email, id)
    ensures ResetsFollow(a, now, Login(r), b, reply)
  {
    hide MayReset;
  }

  lemma NewTicket(a: Tables, now: nat, r: LoginRequest, b: Tables, reply: Reply)
    requires r.DoForgotPassword? && r.ticket !in a.resets
    requires exists id :: MayReset(a, r.email, id)
                          && b == a.(resets := a.resets[r.ticket := Ticket(id, now + 20 * MINUTE, false)])
    ensures ResetsFollow(a, now, Login(r), b, reply)
  {
    hide MayReset;
  }

  lemma LoginRequestFollows(a: Tables, now: nat, r: LoginRequest)
    ensures var (b, reply) := HandleLogin(a, now, r); CredentialsFollow(a, now, Login(r), b, reply)
  {
    hide CredentialsFollow, SubmitReset, SubmitPassword, SessionAccount, WithLogin, ForgotPassword, Lower, Trim,
         Revoked;
    var (b, reply) := HandleLogin(a, now, r);
    match r
    case DoLogin(_, _, _, _) => SignInFollows(a, now, r);
    case DoForgotPassword(_, _) => ForgotFollows(a, now, r);
    case Logout(session) => LogoutFollows(a, now, session);
    case DoResetPassword(ticket, password) =>
      if reply.Accepted? {
        ResetRevokes(a, now, ticket, password);
        EpochFollows(a, now, Login(r), b, reply, a.resets[ticket].account);
      } else {
        SameFollow(a, now, Login(r), b, reply);
      }
    case DoChangePassword(account, attempt, password) =>
      if reply.Accepted? {
        ChangeRevokes(a, now, account, attempt, password);
        EpochFollows(a, now, Login(r), b, reply, account);
      } else {
        SameFollow(a, now, Login(r), b, reply);
      }
    case _ => SameFollow(a, now, Login(r), b, reply);
  }

  lemma ChangeRevokes(a: Tables, now: nat, id: string, attempt: string, password: StoredPassword)
    requires SubmitPassword(a, now, id, attempt, password).Ok?
    ensures Revoked(a, SubmitPassword(a, now, id, attempt, password).value, id)
  {
    hide RevokePasswordSessions, Revoked;
    PasswordRevokes(a, now, id, password);
  }

  lemma LogoutFollows(a: Tables, now: nat, session: string)
    ensures var (b, reply) := HandleLogin(a, now, Logout(session));
            CredentialsFollow(a, now, Login(Logout(session)), b, reply)
  {
  }

  // ---------------------------------------------------------------- administration

  lemma RevokeFollows(a: Tables, now: nat, account: string, project: string)
    requires RevokeAccess(a, now, account, project).Ok?
    ensures CredentialsFollow(a, now, Admin(DoRevoke(account, project)), RevokeAccess(a, now, account, project).value,
                              Accepted(Nothing))
  {
    var b := RevokeAccess(a, now, account, project).value;
    assert b.tokens == RevokeSeat(a.tokens, Seat(account, project));
  }

  lemma AdminRequestFollows(a: Tables, now: nat, r: AdminRequest)
    ensures var (b, reply) := HandleAdmin(a, now, r); CredentialsFollow(a, now, Admin(r), b, reply)
  {
    hide CredentialsFollow, Disable, RevokeAccess, ActivateAccount, GrantAccess, ApproveRequest, SetProjectRoles,
         GrantProjectAdmin, GrantGlobalAdmin, OnlyRevokes, Lower, Trim, Revoked;
    var (b, reply) := HandleAdmin(a, now, r);
    if reply.Accepted? && r.DoDisable? {
      DisableRevokes(a, now, r.actor, r.account);
      EpochFollows(a, now, Admin(r), b, reply, r.account);
    } else if reply.Accepted? && r.DoRevoke? {
      RevokeFollows(a, now, r.account, r.project);
    } else {
      SameFollow(a, now, Admin(r), b, reply);
    }
  }

  // ---------------------------------------------------------------- clients

  lemma AuthorizeFollows(a: Tables, now: nat, input: AuthorizeInput, code: string)
    ensures var (b, reply) := HandleOAuth(a, now, DoAuthorize(input, code));
            CredentialsFollow(a, now, OAuth(DoAuthorize(input, code)), b, reply)
  {
  }

  /** An exchange begins a family exactly when it redeems the code and the project lists the user; the account and
      the client are there then. */
  lemma ExchangeFollows(a: Tables, now: nat, r: OAuthRequest)
    requires Standing(a) && r.DoExchange?
    ensures var (b, reply) := HandleOAuth(a, now, r); CredentialsFollow(a, now, OAuth(r), b, reply)
  {
    hide HandleOAuth, Exchange, CredentialsFollow, Exchanged;
    var (b, reply) := HandleOAuth(a, now, r);
    ExchangeTables(a, now, r);
    ExchangedRows(a, now, r, b, reply);
  }

  lemma ExchangeTables(a: Tables, now: nat, r: OAuthRequest)
    requires Standing(a) && r.DoExchange?
    ensures Exchanged(a, now, r, HandleOAuth(a, now, r).0)
  {
  }

  /** What an exchange does to the tables. */
  predicate Exchanged(a: Tables, now: nat, r: OAuthRequest, b: Tables)
    requires r.DoExchange?
  {
    && b == a.(codes := b.codes, tokens := b.tokens)
    && b.codes == (if Redeems(a, now, r) then Spent(a.codes, r.code) else a.codes)
    && b.tokens == (if Redeems(a, now, r) && r.refresh !in a.tokens && Entitled(a, r)
                    then a.tokens[r.refresh := Begun(a, now, r)] else a.tokens)
  }

  lemma ExchangedRows(a: Tables, now: nat, r: OAuthRequest, b: Tables, reply: Reply)
    requires r.DoExchange? && Exchanged(a, now, r, b)
    ensures CredentialsFollow(a, now, OAuth(r), b, reply)
  {
    hide SessionsFollow, CodesFollow, TokensFollow, ResetsFollow, Redeems, Entitled, Begun;
    ExchangedElsewhere(a, now, r, b, reply);
    ExchangedCodes(a, now, r, b, reply);
    ExchangedTokens(a, now, r, b, reply);
  }

  lemma ExchangedElsewhere(a: Tables, now: nat, r: OAuthRequest, b: Tables, reply: Reply)
    requires r.DoExchange? && b == a.(codes := b.codes, tokens := b.tokens)
    ensures SessionsFollow(a, now, OAuth(r), b, reply) && ResetsFollow(a, now, OAuth(r), b, reply)
  {
    hide MayReset;
  }

  lemma ExchangedCodes(a: Tables, now: nat, r: OAuthRequest, b: Tables, reply: Reply)
    requires r.DoExchange?
    requires b.codes == if Redeems(a, now, r) then Spent(a.codes, r.code) else a.codes
    ensures CodesFollow(a, now, OAuth(r), b, reply)
  {
  }

  lemma ExchangedTokens(a: Tables, now: nat, r: OAuthRequest, b: Tables, reply: Reply)
    requires r.DoExchange?
    requires b.tokens == if Redeems(a, now, r) && r.refresh !in a.tokens && Entitled(a, r)
                         then a.tokens[r.refresh := Begun(a, now, r)] else a.tokens
    ensures TokensFollow(a, now, OAuth(r), b, reply)
  {
    hide Entitled, Begun, Redeems, Rotates, Replays;
  }

  lemma RefreshTables(a: Tables, now: nat, r: OAuthRequest)
    requires r.DoRefresh?
    ensures HandleOAuth(a, now, r).0
            == a.(tokens := if Rotates(a, r) then Rotated(a.tokens, r.token, r.next)
                            else if Replays(a, r) then RevokeFamily(a.tokens, a.tokens[r.token].family)
                            else a.tokens)
  {
    hide Entitlement, RevokeFamily;
  }

  lemma RefreshFollows(a: Tables, now: nat, r: OAuthRequest)
    requires r.DoRefresh?
    ensures var (b, reply) := HandleOAuth(a, now, r); CredentialsFollow(a, now, OAuth(r), b, reply)
  {
    hide HandleOAuth, SessionsFollow, CodesFollow, ResetsFollow, Rotates, Replays, TokensFollow;
    var (b, reply) := HandleOAuth(a, now, r);
    RefreshTables(a, now, r);
    RefreshedElsewhere(a, now, r, b, reply);
    RefreshedTokens(a, now, r, b, reply);
  }

  lemma RefreshedElsewhere(a: Tables, now: nat, r: OAuthRequest, b: Tables, reply: Reply)
    requires r.DoRefresh? && b == a.(tokens := b.tokens)
    ensures SessionsFollow(a, now, OAuth(r), b, reply) && CodesFollow(a, now, OAuth(r), b, reply)
    ensures ResetsFollow(a, now, OAuth(r), b, reply)
  {
    hide MayReset;
  }

  lemma RefreshedTokens(a: Tables, now: nat, r: OAuthRequest, b: Tables, reply: Reply)
    requires r.DoRefresh?
    requires b.tokens == if Rotates(a, r) then Rotated(a.tokens, r.token, r.next)
                         else if Replays(a, r) then RevokeFamily(a.tokens, a.tokens[r.token].family)
                         else a.tokens
    ensures TokensFollow(a, now, OAuth(r), b, reply)
  {
    hide Redeems, Entitled;
  }

  lemma ClientFollows(a: Tables, now: nat, r: OAuthRequest)
    requires r.DoRegisterClient?
    ensures var (b, reply) := HandleOAuth(a, now, r); CredentialsFollow(a, now, OAuth(r), b, reply)
  {
    hide CredentialsFollow;
    var (b, reply) := HandleOAuth(a, now, r);
    SameFollow(a, now, OAuth(r), b, reply);
  }

  // ---------------------------------------------------------------- clean-ups and the rest

  lemma CleanFollows(a: Tables, now: nat, statement: Statement)
    ensures CredentialsFollow(a, now, Upkeep(DoClean(statement)), Clean(a, now, statement), Accepted(Nothing))
  {
    hide SessionsFollow, CodesFollow, TokensFollow, ResetsFollow;
    CleanSessions(a, now, statement);
    CleanCodes(a, now, statement);
    CleanTokens(a, now, statement);
    CleanResets(a, now, statement);
  }

  lemma CleanSessions(a: Tables, now: nat, statement: Statement)
    ensures SessionsFollow(a, now, Upkeep(DoClean(statement)), Clean(a, now, statement), Accepted(Nothing))
  {
  }

  lemma CleanCodes(a: Tables, now: nat, statement: Statement)
    ensures CodesFollow(a, now, Upkeep(DoClean(statement)), Clean(a, now, statement), Accepted(Nothing))
  {
  }

  lemma CleanTokens(a: Tables, now: nat, statement: Statement)
    ensures TokensFollow(a, now, Upkeep(DoClean(statement)), Clean(a, now, statement), Accepted(Nothing))
  {
  }

  lemma CleanResets(a: Tables, now: nat, statement: Statement)
    ensures ResetsFollow(a, now, Upkeep(DoClean(statement)), Clean(a, now, statement), Accepted(Nothing))
  {
  }

  lemma UpkeepFollows(a: Tables, now: nat, r: UpkeepRequest)
    ensures var (b, reply) := HandleUpkeep(a, now, r); CredentialsFollow(a, now, Upkeep(r), b, reply)
  {
    hide CredentialsFollow, Clean, HandleUpkeep;
    var (b, reply) := HandleUpkeep(a, now, r);
    if r.DoClean? {
      CleanRequest(a, now, r);
      CleanFollows(a, now, r.statement);
      CleanReply(a, now, r);
    } else {
      UpkeepElsewhere(a, now, r);
      SameFollow(a, now, Upkeep(r), b, reply);
    }
  }

  lemma CleanReply(a: Tables, now: nat, r: UpkeepRequest)
    requires r.DoClean?
    ensures HandleUpkeep(a, now, r).1 == Accepted(Nothing)
  {
    hide Clean;
  }

  /** Whatever the request and its answer: every session, code, token and reset link becomes what is said above. */
  lemma CredentialStep(a: Tables, now: nat, r: Request)
    requires Standing(a)
    ensures var (b, reply) := Handle(a, now, r); CredentialsFollow(a, now, r, b, reply)
  {
    hide Standing, CredentialsFollow, OnlyDirectory, HandleDirectory, HandleLogin, HandleAdmin, HandleOAuth,
         HandleUpkeep, Boot;
    var (b, reply) := Handle(a, now, r);
    match r
    case Directory(d) =>
      DirectoryOnly(a, now, d);
      SameFollow(a, now, r, b, reply) by { DirectoryIsElsewhere(a, b); }
    case Login(l) => LoginRequestFollows(a, now, l);
    case Admin(m) => AdminRequestFollows(a, now, m);
    case OAuth(o) =>
      if o.DoExchange? { ExchangeFollows(a, now, o); }
      else if o.DoRefresh? { RefreshFollows(a, now, o); }
      else if o.DoAuthorize? { AuthorizeFollows(a, now, o.input, o.code); }
      else { ClientFollows(a, now, o); }
    case Upkeep(u) => UpkeepFollows(a, now, u);
    case Restart(s) =>
      BootElsewhere(a, s);
      SameFollow(a, now, r, b, reply);
  }

  lemma DirectoryIsElsewhere(a: Tables, b: Tables)
    requires OnlyDirectory(a, b)
    ensures SameCredentials(a, b)
  {
  }
}
