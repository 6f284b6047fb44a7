/** How long a credential lasts: exactly until its time is over or something on record ends it. */
module Lifetimes {
  import opened Text
  import opened Schema
  import opened Repository
  import opened Service
  import opened ChangeLog
  import opened History
  import opened Credentials
  import opened Accounts
  import opened Revocation
  import opened OneAccount
  import opened OneCredential

  // ---------------------------------------------------------------- one credential

  /** In the tables and good for something. */
  predicate Stored(db: Tables, c: Credential) {
    match c
    case BrowserSession(h) => h in db.sessions
    case AuthorizationCode(h) => h in db.codes && !db.codes[h].used
    case RefreshCredential(h) => h in db.tokens && db.tokens[h].Live()
    case ResetLink(h) => h in db.resets && !db.resets[h].used
  }

  function Holder(db: Tables, c: Credential): string
    requires Stored(db, c)
  {
    match c
    case BrowserSession(h) => db.sessions[h].account
    case AuthorizationCode(h) => db.codes[h].account
    case RefreshCredential(h) => db.tokens[h].account
    case ResetLink(h) => db.resets[h].account
  }

  /** From then on a clean-up may remove the row. */
  function Deadline(db: Tables, c: Credential): nat
    requires Stored(db, c)
  {
    match c
    case BrowserSession(h) => db.sessions[h].expires
    case AuthorizationCode(h) => db.codes[h].expires + DAY
    case RefreshCredential(h) => db.tokens[h].familyExpires + DAY
    case ResetLink(h) => db.resets[h].expires + DAY
  }

  predicate SameRow(a: Tables, b: Tables, c: Credential)
    requires Stored(a, c) && Stored(b, c)
  {
    match c
    case BrowserSession(h) => b.sessions[h] == a.sessions[h]
    case AuthorizationCode(h) => b.codes[h] == a.codes[h]
    case RefreshCredential(h) => b.tokens[h] == a.tokens[h]
    case ResetLink(h) => b.resets[h] == a.resets[h]
  }

  /** A refresh by the client of the family: of this token, in time, or of another one, which is reuse. */
  predicate TurnsFamily(db: Tables, x: OAuthRequest, h: string)
    requires h in db.tokens
  {
    && x.DoRefresh? && Owns(db, x) && db.tokens[x.token].family == db.tokens[h].family
    && (x.token == h ==> x.hostNow < db.tokens[h].expires && x.hostNow < db.tokens[h].familyExpires)
  }

  /** What ends a credential before its time: a new password, a reset or a disablement of the holder; a logout; the one
      exchange of a code; a refresh in the family of a token; the loss of its seat. */
  predicate Ends(w: World, r: Request, c: Credential)
    requires Stored(w.db, c)
  {
    var reply := Handle(w.db, w.clock, r).1;
    || EpochOf(w.db, r, reply) == Some(Holder(w.db, c))
    || match c
       case BrowserSession(h) => r == Login(Logout(h))
       case AuthorizationCode(h) =>
         r.OAuth? && r.oauth.DoExchange? && r.oauth.code == h && Redeems(w.db, w.clock, r.oauth)
       case RefreshCredential(h) =>
         || (r.OAuth? && TurnsFamily(w.db, r.oauth, h))
         || (r.Admin? && r.admin.DoRevoke? && reply.Accepted?
             && Seat(r.admin.account, r.admin.project) == SeatOf(w.db.tokens[h]))
       case ResetLink(h) => false
  }

  // ---------------------------------------------------------------- one request

  /** What a request means to a stored credential: ended, swept after its time, or untouched. */
  predicate Lasts(w: World, r: Request, b: Tables, c: Credential)
    requires Stored(w.db, c)
  {
    if Ends(w, r, c) then !Stored(b, c)
    else (Stored(b, c) && SameRow(w.db, b, c)) || (!Stored(b, c) && Deadline(w.db, c) < w.clock)
  }

  lemma SessionLasts(w: World, r: Request, b: Tables, h: string)
    requires Stored(w.db, BrowserSession(h)) && h !in Drawn(r)
    requires SessionAt(b, h) == SessionNext(w.db, w.clock, r, Handle(w.db, w.clock, r).1, h)
    ensures Lasts(w, r, b, BrowserSession(h))
  {
    hide Handle;
  }

  lemma CodeLasts(w: World, r: Request, b: Tables, h: string)
    requires Stored(w.db, AuthorizationCode(h)) && h !in Drawn(r)
    requires CodeAt(b, h) == CodeNext(w.db, w.clock, r, Handle(w.db, w.clock, r).1, h)
    ensures Lasts(w, r, b, AuthorizationCode(h))
  {
    hide Handle, Redeems;
  }

  lemma ResetLasts(w: World, r: Request, b: Tables, h: string)
    requires Stored(w.db, ResetLink(h)) && h !in Drawn(r)
    requires ResetNext(w.db, w.clock, r, Handle(w.db, w.clock, r).1, h, ResetAt(b, h))
    ensures Lasts(w, r, b, ResetLink(h))
  {
    hide Handle, MayReset;
  }

  lemma TokenLasts(w: World, r: Request, b: Tables, h: string)
    requires Stored(w.db, RefreshCredential(h)) && h !in Drawn(r) && OneLive(w.db.tokens)
    requires r.OAuth? && r.oauth.DoRefresh? ==> r.oauth.next !in w.db.tokens
    requires TokenAt(b, h) == TokenNext(w.db, w.clock, r, Handle(w.db, w.clock, r).1, h)
    ensures Lasts(w, r, b, RefreshCredential(h))
  {
    hide Handle, Redeems, Entitled;
  }

  lemma RequestLasts(w: World, r: Request, c: Credential)
    requires CredentialsOk(w) && Standing(w.db) && Admissible(w, r) && Stored(w.db, c)
    ensures Lasts(w, r, Service.Serve(w, r).db, c)
  {
    hide Handle, Lasts, Standing, TokensOk, LedgerOk, CodeOk, OneLive, SessionNext, CodeNext, TokenNext, ResetNext;
    CredentialStep(w.db, w.clock, r);
    var b := Handle(w.db, w.clock, r).0;
    match c
    case BrowserSession(h) => SessionLasts(w, r, b, h);
    case AuthorizationCode(h) => CodeLasts(w, r, b, h);
    case RefreshCredential(h) => TokenLasts(w, r, b, h);
    case ResetLink(h) => ResetLasts(w, r, b, h);
  }

  // ---------------------------------------------------------------- whole runs

  /** Something in the run ended the credential. */
  predicate Ended(w: World, rs: seq<Request>, c: Credential) {
    rs != [] &&
    (var v := Run(w, rs[..|rs| - 1]);
     Ended(w, rs[..|rs| - 1], c) || (Stored(v.db, c) && Ends(v, rs[|rs| - 1], c)))
  }

  lemma StoredWasDrawn(w: World, c: Credential)
    requires CredentialsOk(w) && Stored(w.db, c)
    ensures c.hash in w.drawn
  {
  }

  /** Once it is not stored any more, it never is again. */
  predicate Gone(w: World, c: Credential) {
    c.hash in w.drawn && !Stored(w.db, c)
  }

  lemma GoneStays(w: World, c: Credential, r: Request)
    requires CredentialsOk(w) && Standing(w.db) && Admissible(w, r) && Gone(w, c)
    ensures Gone(Service.Serve(w, r), c)
  {
    hide Handle, Standing, TokensOk, LedgerOk, CodeOk, OneLive, Redeems, Entitled, Begun, Rotates, Replays, MayReset;
    CredentialStep(w.db, w.clock, r);
    var (b, reply) := Handle(w.db, w.clock, r);
    match c
    case BrowserSession(h) => assert SessionAt(b, h) == SessionNext(w.db, w.clock, r, reply, h);
    case AuthorizationCode(h) => assert CodeAt(b, h) == CodeNext(w.db, w.clock, r, reply, h);
    case RefreshCredential(h) =>
      assert TokenAt(b, h) == TokenNext(w.db, w.clock, r, reply, h);
      if r.OAuth? && r.oauth.DoRefresh? && Rotates(w.db, r.oauth) { RotatesIsLive(w.db, r.oauth); }
    case ResetLink(h) => assert ResetNext(w.db, w.clock, r, reply, h, ResetAt(b, h));
  }

  lemma RotatesIsLive(db: Tables, x: OAuthRequest)
    requires x.DoRefresh? && Rotates(db, x)
    ensures x.token in db.tokens && db.tokens[x.token].Live()
  {
  }

  /** A credential lasts exactly as long as nothing ends it and its time is not over; until then its row is the one it
      began with. */
  lemma {:induction false} LastsExactly(w: World, c: Credential, rs: seq<Request>)
    requires CredentialsOk(w) && Standing(w.db) && AdmissibleRun(w, rs) && Stored(w.db, c)
    ensures var v := Run(w, rs);
            && c.hash in v.drawn && w.clock <= v.clock
            && (Ended(w, rs, c) ==> !Stored(v.db, c))
            && (!Ended(w, rs, c) ==>
                  if Stored(v.db, c) then SameRow(w.db, v.db, c) else Deadline(w.db, c) < v.clock)
  {
    hide Service.Serve, Admissible, Standing, CredentialsOk, Stored, SameRow, Deadline, Ends;
    StoredWasDrawn(w, c);
    if rs == [] {
      ItselfLasts(w.db, c);
    } else {
      var v := Run(w, rs[..|rs| - 1]);
      var r := rs[|rs| - 1];
      LastsExactly(w, c, rs[..|rs| - 1]);
      RunOk(w, rs[..|rs| - 1]);
      RunStands(w, rs[..|rs| - 1]);
      Grows(v, r);
      if Stored(v.db, c) {
        RequestLasts(v, r, c);
        if !Ended(w, rs[..|rs| - 1], c) && !Ends(v, r, c) { RowsCompose(w.db, v.db, Service.Serve(v, r).db, c); }
      } else {
        assert Gone(v, c);
        GoneStays(v, c, r);
      }
    }
  }

  lemma ItselfLasts(a: Tables, c: Credential)
    requires Stored(a, c)
    ensures SameRow(a, a, c)
  {
  }

  lemma RowsCompose(a: Tables, v: Tables, b: Tables, c: Credential)
    requires Stored(a, c) && Stored(v, c) && SameRow(a, v, c)
    ensures Deadline(v, c) == Deadline(a, c)
    ensures Stored(b, c) && SameRow(v, b, c) ==> SameRow(a, b, c)
  {
  }

  lemma Grows(w: World, r: Request)
    ensures w.drawn <= Service.Serve(w, r).drawn && w.clock <= Service.Serve(w, r).clock
  {
    hide Handle;
  }
}
