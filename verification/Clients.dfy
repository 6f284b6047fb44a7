/** Registered clients, told from the requests: who may be registered, and that a client stays as it was registered. */
module Clients {
  import opened Schema
  import opened Repository
  import opened Service
  import opened ChangeLog
  import opened Credentials

  function ClientAt(db: Tables, c: string): Option<Client> {
    if c in db.clients then Some(db.clients[c]) else None
  }

  /** Whether an operator's registration goes through. */
  predicate MayBeRegistered(db: Tables, r: OAuthRequest)
    requires r.DoRegisterClient?
  {
    r.client != "" && r.project != "" && |r.secretHash| >= 24 && r.redirects != [] && r.client !in db.clients
  }

  /** The client of the configuration is registered by the first start that finds it missing. */
  predicate Configures(s: Setup, c: string) {
    c != "" && s.client == c && s.secretHash != "" && s.redirect != ""
  }

  /** What a request makes of a client. */
  function ClientNext(db: Tables, r: Request, c: string): Option<Client> {
    match r
    case OAuth(x) =>
      if x.DoRegisterClient? && x.client == c && MayBeRegistered(db, x)
      then Some(Client(x.project, x.secretHash, x.redirects)) else ClientAt(db, c)
    case Restart(s) =>
      if c !in db.clients && Configures(s, c) then Some(Client(s.project, s.secretHash, [s.redirect]))
      else ClientAt(db, c)
    case _ => ClientAt(db, c)
  }

  /** A registration is accepted exactly when it may; then the project and the client are there, and nothing else has
      changed. A refused one changes nothing. */
  lemma ClientAnswers(a: Tables, now: nat, r: OAuthRequest)
    requires r.DoRegisterClient?
    ensures var (b, reply) := Handle(a, now, OAuth(r));
            if MayBeRegistered(a, r) then
              && reply == Accepted(Nothing)
              && b == a.(projects := b.projects, clients := b.clients)
              && b.projects == a.projects + {r.project}
              && ClientAt(b, r.client) == Some(Client(r.project, r.secretHash, r.redirects))
              && b.clients - {r.client} == a.clients
            else
              reply.Refused? && b == a
  {
  }

  lemma StartClients(a: Tables, now: nat, s: Setup, c: string)
    ensures ClientAt(Handle(a, now, Restart(s)).0, c) == ClientNext(a, Restart(s), c)
  {
    hide EnsureAdmin;
  }

  /** Every request does to every client what is told of it. */
  lemma ClientStep(a: Tables, now: nat, r: Request, c: string)
    ensures ClientAt(Handle(a, now, r).0, c) == ClientNext(a, r, c)
  {
    hide HandleDirectory, HandleLogin, HandleAdmin, HandleUpkeep, Clean, Authorize, Exchange, Refresh, Boot,
         OnlyDirectory;
    match r
    case Directory(d) =>
      DirectoryOnly(a, now, d);
      assert Handle(a, now, r).0.clients == a.clients by { DirectoryLeavesClients(a, HandleDirectory(a, now, d).0); }
    case Login(l) => LoginLeavesClients(a, now, l);
    case Admin(m) => AdminLeavesClients(a, now, m);
    case OAuth(x) =>
      if x.DoRegisterClient? { ClientAnswers(a, now, x); } else { CodesLeaveClients(a, now, x); }
    case Upkeep(u) => UpkeepLeavesClients(a, now, u);
    case Restart(s) => StartClients(a, now, s, c);
  }

  lemma DirectoryLeavesClients(a: Tables, b: Tables)
    requires OnlyDirectory(a, b)
    ensures b.clients == a.clients
  {
  }

  lemma LoginLeavesClients(a: Tables, now: nat, r: LoginRequest)
    ensures HandleLogin(a, now, r).0.clients == a.clients
  {
    hide LoginMatches, SessionAccount, Resettable, RevokeCredentials, QueueAll, ProfileProjects;
  }

  lemma AdminLeavesClients(a: Tables, now: nat, r: AdminRequest)
    ensures HandleAdmin(a, now, r).0.clients == a.clients
  {
    hide RevokeSeat, RevokeAccount, SessionsWithout, CodesWithout, TicketsWithout, QueueAll, QueueEvent, LogSeat;
  }

  lemma CodesLeaveClients(a: Tables, now: nat, r: OAuthRequest)
    requires !r.DoRegisterClient?
    ensures HandleOAuth(a, now, r).0.clients == a.clients
  {
    hide Exchange, Refresh;
    match r
    case DoAuthorize(input, code) => AuthorizeLeavesClients(a, now, input, code);
    case DoExchange(client, code, redirect, challenge, refresh, family, signed) =>
      ExchangeElsewhere(a, now, client, code, redirect, challenge, refresh, family, signed);
    case DoRefresh(client, token, next, hostNow, signed) =>
      RefreshElsewhere(a, client, token, next, hostNow, signed);
    case _ =>
  }

  lemma AuthorizeLeavesClients(a: Tables, now: nat, input: AuthorizeInput, code: string)
    ensures HandleOAuth(a, now, DoAuthorize(input, code)).0.clients == a.clients
  {
  }

  lemma UpkeepLeavesClients(a: Tables, now: nat, r: UpkeepRequest)
    ensures HandleUpkeep(a, now, r).0.clients == a.clients
  {
    hide Clean, HandleUpkeep;
    if r.DoClean? { CleanRequest(a, now, r); } else { UpkeepElsewhere(a, now, r); }
  }

  /** Whatever is served, a client keeps the project, the secret and the redirects it was registered with. */
  lemma {:induction false} ClientsLast(w: World, rs: seq<Request>, c: string)
    requires c in w.db.clients
    ensures ClientAt(Run(w, rs).db, c) == Some(w.db.clients[c])
  {
    hide Handle;
    if rs != [] {
      var v := Run(w, rs[..|rs| - 1]);
      ClientsLast(w, rs[..|rs| - 1], c);
      ClientStep(v.db, v.clock, rs[|rs| - 1], c);
    }
  }
}
