/** Administration over whole runs: which requests succeed, what they leave in the tables and in the log, and that the
    roles in the tokens are the roles last commanded. */
module Administration {
  import opened Text
  import opened Schema
  import opened Repository
  import opened Service
  import opened ChangeLog
  import opened Transactions
  import opened History
  import opened Credentials
  import opened Accounts
  import opened OneAccount
  import opened OneSeat
  import opened OneCredential
  import opened SignIn
  import opened Issuing

  // ---------------------------------------------------------------- the roles last commanded

  /** The roles of a seat told from the requests of a run and their answers, one after the other. */
  function Commanded(w: World, rs: seq<Request>, s: Seat): Option<seq<string>> {
    if rs == [] then RolesAt(w.db, s)
    else
      var v := Run(w, rs[..|rs| - 1]);
      var r := rs[|rs| - 1];
      RolesNext(Commanded(w, rs[..|rs| - 1], s), v.db, r, Handle(v.db, v.clock, r).1, s)
  }

  lemma ServeSeats(w: World, r: Request, s: Seat)
    requires AllOk(w) && Standing(w.db) && s.account in w.db.accounts
    ensures var b := Service.Serve(w, r).db;
            && s.account in b.accounts
            && RolesAt(b, s) == RolesNext(RolesAt(w.db, s), w.db, r, Handle(w.db, w.clock, r).1, s)
  {
    hide Handle, AccountsOk, Standing, RolesNext, RolesAt, AccountNext;
    SeatStep(w.db, w.clock, r);
    AccountStep(w.db, w.clock, r);
  }

  /** Whoever had an account has exactly the roles last commanded for each seat, and no seat that was last revoked. */
  lemma {:induction false} SeatsAreCommanded(w: World, rs: seq<Request>, s: Seat)
    requires AllOk(w) && Standing(w.db) && AdmissibleRun(w, rs) && s.account in w.db.accounts
    ensures s.account in Run(w, rs).db.accounts && RolesAt(Run(w, rs).db, s) == Commanded(w, rs, s)
  {
    hide Service.Serve, Handle, AllOk, Standing, Admissible, RolesAt, RolesNext;
    if rs != [] {
      SeatsAreCommanded(w, rs[..|rs| - 1], s);
      RunAllOk(w, rs[..|rs| - 1]);
      RunStands(w, rs[..|rs| - 1]);
      ServeSeats(Run(w, rs[..|rs| - 1]), rs[|rs| - 1], s);
    }
  }

  /** The roles in the tokens of an exchange or a refresh are the roles last commanded for the user in the client's
      project. */
  lemma TokensSayWhatWasCommanded(w: World, rs: seq<Request>, x: OAuthRequest)
    requires CredentialsOk(w) && AllOk(w) && Standing(w.db) && AdmissibleRun(w, rs)
    requires (x.DoExchange? || x.DoRefresh?) && Admissible(Run(w, rs), OAuth(x))
    requires var v := Run(w, rs); Handle(v.db, v.clock, OAuth(x)).1.Accepted?
    ensures var v := Run(w, rs);
            var info := Handle(v.db, v.clock, OAuth(x)).1.info;
            && info.TokenSet? && x.client in v.db.clients
            && (info.grant.account in w.db.accounts ==>
                  Commanded(w, rs, Seat(info.grant.account, v.db.clients[x.client].project)) == Some(info.grant.roles))
  {
    hide Service.Serve, Handle, CredentialsOk, AllOk, Standing, Admissible, Commanded;
    if x.DoExchange? { ExchangedRoles(w, rs, x); } else { RefreshedRoles(w, rs, x); }
    var v := Run(w, rs);
    var grant := Handle(v.db, v.clock, OAuth(x)).1.info.grant;
    if grant.account in w.db.accounts {
      SeatsAreCommanded(w, rs, Seat(grant.account, v.db.clients[x.client].project));
    }
  }

  // ---------------------------------------------------------------- which requests succeed

  lemma LogSeatGoes(mid: Tables, now: nat, kind: Kind, seat: Seat, roles: seq<string>)
    requires !kind.ProfileUpdated?
    ensures LogSeat(mid, now, kind, seat, roles).Ok?
            <==> seat.account in mid.accounts && mid.accounts[seat.account].InGoodStanding()
                 && seat.project in mid.projects
  {
  }

  /** The user stands well: active and verified. */
  predicate StandsWell(db: Tables, id: string) {
    id in db.accounts && db.accounts[id].status.Active? && db.accounts[id].verified
  }

  /** Whether an administration request succeeds. */
  ghost predicate MaySucceed(db: Tables, r: AdminRequest) {
    match r
    case DoActivate(id) => id in db.accounts && db.accounts[id].verified && !db.accounts[id].status.Active?
    case DoDisable(actor, id) =>
      actor != id && id in db.accounts && !db.accounts[id].status.Inactive? && !db.accounts[id].globalAdmin
    case DoGrant(id, project, _) => StandsWell(db, id) && project in db.projects
    case DoRevoke(id, project) => Seat(id, project) in db.access
    case DoApprove(project, q, _) =>
      && q in db.requests && db.requests[q].project == project && db.requests[q].status.Waiting?
      && StandsWell(db, db.requests[q].account) && project in db.projects
    case DoSetRoles(project, id, _) => Seat(id, project) in db.access
    case DoGrantProjectAdmin(project, email) =>
      project in db.projects && exists id :: StandsWell(db, id) && db.accounts[id].profile.email == Lower(Trim(email))
    case DoGrantGlobalAdmin(email) =>
      exists id :: StandsWell(db, id) && db.accounts[id].profile.email == Lower(Trim(email))
  }

  lemma DisableGoes(a: Tables, now: nat, id: string)
    requires Standing(a)
    ensures DisableAccount(a, now, id).Ok?
            <==> id in a.accounts && !a.accounts[id].status.Inactive? && !a.accounts[id].globalAdmin
  {
    hide SessionsWithout, CodesWithout, TicketsWithout, RevokeAccount, QueueAll, ProfileProjects, Standing;
    if id in a.accounts {
      var revoked := RevokeCredentials(a.(accounts := a.accounts[id := a.accounts[id].(status := Inactive)]), id);
      ProjectsAreThere(a, revoked, id);
      QueueAllGoes(revoked, now, ProfileProjects(revoked, id, ""), AccessRevoked, id, UserIdOnly);
    }
  }

  lemma SeatRequestGoes(a: Tables, now: nat, r: AdminRequest)
    requires Standing(a) && (r.DoGrant? || r.DoRevoke? || r.DoApprove? || r.DoSetRoles?)
    ensures HandleAdmin(a, now, r).1.Accepted? <==> MaySucceed(a, r)
  {
    hide ApproveWaiting, RevokeSeat;
  }

  lemma FoundMeans(a: Tables, email: string)
    ensures forall id :: id in VerifiedActive(a.accounts, email)
                         <==> StandsWell(a, id) && a.accounts[id].profile.email == email
    ensures FirstRow(VerifiedActive(a.accounts, email)).Ok?
            <==> exists id :: StandsWell(a, id) && a.accounts[id].profile.email == email
  {
    var found := VerifiedActive(a.accounts, email);
    assert forall id :: id in found <==> StandsWell(a, id) && a.accounts[id].profile.email == email;
  }

  lemma SeatAdminGoes(a: Tables, now: nat, project: string, id: string)
    requires StandsWell(a, id)
    ensures SeatAdmin(a, now, project, id).Ok? <==> project in a.projects
  {
    hide LogSeat, AdminRoles;
    var seat := Seat(id, project);
    var roles := AdminRoles(a.access, seat);
    LogSeatGoes(a.(access := a.access[seat := roles]), now, AccessGranted, seat, roles);
  }

  lemma ProjectAdminGoes(a: Tables, now: nat, r: AdminRequest)
    requires r.DoGrantProjectAdmin?
    ensures HandleAdmin(a, now, r).1.Accepted? <==> MaySucceed(a, r)
  {
    hide Lower, Trim, SeatAdmin, FirstRow, VerifiedActive, StandsWell;
    var email := Lower(Trim(r.email));
    FoundMeans(a, email);
    var first := FirstRow(VerifiedActive(a.accounts, email));
    if first.Ok? {
      assert first.value in VerifiedActive(a.accounts, email);
      SeatAdminGoes(a, now, r.project, first.value);
    }
  }

  lemma GlobalAdminGoes(a: Tables, now: nat, r: AdminRequest)
    requires r.DoGrantGlobalAdmin?
    ensures HandleAdmin(a, now, r).1.Accepted? <==> MaySucceed(a, r)
  {
    hide Lower, Trim, FirstRow, VerifiedActive, StandsWell;
    FoundMeans(a, Lower(Trim(r.email)));
  }

  /** An administration request succeeds exactly when it may; a refused one changes nothing. */
  lemma AdminAnswers(w: World, rs: seq<Request>, r: AdminRequest)
    requires Standing(w.db) && AdmissibleRun(w, rs)
    ensures var v := Run(w, rs);
            var (b, reply) := Handle(v.db, v.clock, Admin(r));
            && (reply.Accepted? <==> MaySucceed(v.db, r))
            && (reply.Refused? ==> b == v.db)
  {
    hide Service.Serve, Admissible, Standing, MaySucceed, ActivateAccount, Disable, GrantAccess, RevokeAccess,
         ApproveRequest, SetProjectRoles, GrantProjectAdmin, GrantGlobalAdmin, Lower, Trim;
    RunStands(w, rs);
    var v := Run(w, rs);
    match r
    case DoActivate(id) => ActivateGoes(v.db, v.clock, r);
    case DoDisable(actor, id) => DisableRequestGoes(v.db, v.clock, r);
    case DoGrantProjectAdmin(_, _) => ProjectAdminGoes(v.db, v.clock, r);
    case DoGrantGlobalAdmin(_) => GlobalAdminGoes(v.db, v.clock, r);
    case _ => SeatRequestGoes(v.db, v.clock, r);
  }

  lemma ActivateGoes(a: Tables, now: nat, r: AdminRequest)
    requires r.DoActivate?
    ensures HandleAdmin(a, now, r).1.Accepted? <==> MaySucceed(a, r)
  {
  }

  lemma DisableRequestGoes(a: Tables, now: nat, r: AdminRequest)
    requires Standing(a) && r.DoDisable?
    ensures HandleAdmin(a, now, r).1.Accepted? <==> MaySucceed(a, r)
  {
    hide DisableAccount, Standing;
    DisableGoes(a, now, r.account);
  }

  // ---------------------------------------------------------------- what a seat request leaves behind

  /** The seat a request gives or changes. */
  function SeatGiven(db: Tables, r: AdminRequest): Seat
    requires r.DoGrant? || r.DoSetRoles? || (r.DoApprove? && r.requestId in db.requests)
  {
    match r
    case DoGrant(account, project, _) => Seat(account, project)
    case DoSetRoles(project, account, _) => Seat(account, project)
    case DoApprove(project, requestId, _) => Seat(db.requests[requestId].account, project)
  }

  lemma GivenSeat(a: Tables, now: nat, r: AdminRequest)
    requires Standing(a) && (r.DoGrant? || r.DoSetRoles? || r.DoApprove?) && HandleAdmin(a, now, r).1.Accepted?
    ensures r.DoApprove? ==> r.requestId in a.requests
    ensures var b := HandleAdmin(a, now, r).0;
            var seat := SeatGiven(a, r);
            && b.access == a.access[seat := r.roles] && b.accounts == a.accounts
            && b == a.(access := b.access, requests := b.requests, outbox := b.outbox, events := b.events,
                       lastId := b.lastId)
            && StandsWell(a, seat.account)
            && b.events == a.events + [SyncEvent(a.lastId + 1, seat.project,
                                                 if r.DoSetRoles? || (r.DoGrant? && seat in a.access) then RolesChanged
                                                 else AccessGranted,
                                                 seat.account,
                                                 FullUser(a.accounts[seat.account].oldId,
                                                          a.accounts[seat.account].profile, r.roles))]
  {
    hide ApproveWaiting;
  }

  /** A grant, an approval and a change of roles store the roles asked for, in the seat asked for and nowhere else; the
      project lists the user with them; and one event says so. */
  lemma RolesAreStored(w: World, rs: seq<Request>, r: AdminRequest)
    requires Standing(w.db) && AdmissibleRun(w, rs) && (r.DoGrant? || r.DoSetRoles? || r.DoApprove?)
    requires var v := Run(w, rs); Handle(v.db, v.clock, Admin(r)).1.Accepted?
    ensures r.DoApprove? ==> r.requestId in Run(w, rs).db.requests
    ensures var v := Run(w, rs);
            var b := Handle(v.db, v.clock, Admin(r)).0;
            var seat := SeatGiven(v.db, r);
            && seat in b.access && b.access[seat] == r.roles && b.access - {seat} == v.db.access - {seat}
            && b.accounts == v.db.accounts
            && seat.account in v.db.accounts
            && Row(b, seat.project, seat.account)
               == Some(UserRow(v.db.accounts[seat.account].oldId, v.db.accounts[seat.account].profile, r.roles))
            && (forall p, u :: Seat(u, p) != seat ==> Row(b, p, u) == Row(v.db, p, u))
            && |b.events| == |v.db.events| + 1 && v.db.events <= b.events
            && (var e := b.events[|v.db.events|];
                && e.project == seat.project && e.account == seat.account
                && e.kind == (if r.DoSetRoles? || (r.DoGrant? && seat in v.db.access) then RolesChanged
                              else AccessGranted)
                && e.payload == FullUser(v.db.accounts[seat.account].oldId, v.db.accounts[seat.account].profile,
                                         r.roles))
  {
    hide Service.Serve, Admissible, Standing, HandleAdmin;
    RunStands(w, rs);
    var v := Run(w, rs);
    GivenSeat(v.db, v.clock, r);
    var b := Handle(v.db, v.clock, Admin(r)).0;
    forall p, u | Seat(u, p) != SeatGiven(v.db, r) ensures Row(b, p, u) == Row(v.db, p, u) {}
  }

  /** A revocation takes the one seat, revokes the user's tokens for that project and no others, and leaves accounts,
      sessions, codes and reset links alone; one event says so. */
  lemma RevocationTakesOneSeat(w: World, rs: seq<Request>, r: AdminRequest)
    requires Standing(w.db) && AdmissibleRun(w, rs) && r.DoRevoke?
    requires var v := Run(w, rs); Handle(v.db, v.clock, Admin(r)).1.Accepted?
    ensures var v := Run(w, rs);
            var b := Handle(v.db, v.clock, Admin(r)).0;
            && b.access == v.db.access - {Seat(r.account, r.project)}
            && Row(b, r.project, r.account).None?
            && b.tokens.Keys == v.db.tokens.Keys
            && (forall h :: h in v.db.tokens ==>
                  b.tokens[h] == if v.db.tokens[h].account == r.account && v.db.tokens[h].project == r.project
                                 then v.db.tokens[h].(revoked := true) else v.db.tokens[h])
            && b.events == v.db.events + [SyncEvent(v.db.lastId + 1, r.project, AccessRevoked, r.account, UserIdOnly)]
            && b == v.db.(access := b.access, tokens := b.tokens, outbox := b.outbox, events := b.events,
                          lastId := b.lastId)
  {
    hide Service.Serve, Admissible, Standing;
    var v := Run(w, rs);
    RevokedSeat(v.db, v.clock, r);
  }

  lemma RevokedSeat(a: Tables, now: nat, r: AdminRequest)
    requires r.DoRevoke? && HandleAdmin(a, now, r).1.Accepted?
    ensures var b := HandleAdmin(a, now, r).0;
            && b.access == a.access - {Seat(r.account, r.project)}
            && b.tokens == RevokeSeat(a.tokens, Seat(r.account, r.project))
            && b.events == a.events + [SyncEvent(a.lastId + 1, r.project, AccessRevoked, r.account, UserIdOnly)]
            && b == a.(access := b.access, tokens := b.tokens, outbox := b.outbox, events := b.events,
                       lastId := b.lastId)
  {
    hide RevokeSeat;
  }

  // ---------------------------------------------------------------- requests for access

  predicate AsksFor(q: AccessRequest, account: string, project: string) {
    q.account == account && q.project == project
  }

  /** Asking for access: a verified user of a project that is there is put on its list of requests, once, waiting, and
      a request decided earlier waits again; who has access already is not. All others are turned away. Requests of
      other users and for other projects stay as they are. */
  lemma AskingAnswers(a: Tables, now: nat, q: string, account: string, project: string)
    requires q !in a.requests
    ensures var (b, reply) := Handle(a, now, Directory(DoRequestAccess(q, account, project)));
            var verified := account in a.accounts && a.accounts[account].verified;
            && b == a.(requests := b.requests)
            && (reply.Accepted? <==> verified && (Seat(account, project) in a.access || project in a.projects))
            && (reply.Refused? || Seat(account, project) in a.access ==> b == a)
            && (forall p :: p in a.requests ==>
                  p in b.requests && (!AsksFor(a.requests[p], account, project) ==> b.requests[p] == a.requests[p]))
            && (reply.Accepted? && Seat(account, project) !in a.access ==>
                  && (exists p :: p in b.requests && AsksFor(b.requests[p], account, project))
                  && (forall p :: p in b.requests && AsksFor(b.requests[p], account, project) ==>
                        b.requests[p].status.Waiting?
                        && (p in a.requests || forall o :: o in a.requests ==>
                                                 !AsksFor(a.requests[o], account, project))))
            && (forall p :: p in b.requests && p !in a.requests ==>
                  p == q && b.requests[p] == AccessRequest(account, project, Waiting))
  {
    hide Requested;
    RequestedRows(a.requests, q, account, project);
  }

  lemma RequestedRows(requests: map<string, AccessRequest>, q: string, account: string, project: string)
    requires q !in requests
    ensures var r := Requested(requests, q, account, project);
            && r.Ok?
            && (forall p :: p in requests ==>
                  p in r.value && (!AsksFor(requests[p], account, project) ==> r.value[p] == requests[p]))
            && (exists p :: p in r.value && AsksFor(r.value[p], account, project))
            && (forall p :: p in r.value && AsksFor(r.value[p], account, project) ==>
                  r.value[p].status.Waiting?
                  && (p in requests || forall o :: o in requests ==> !AsksFor(requests[o], account, project)))
            && (forall p :: p in r.value && p !in requests ==>
                  p == q && r.value[p] == AccessRequest(account, project, Waiting))
  {
    var same := set p | p in requests && requests[p].account == account && requests[p].project == project;
    assert forall p :: p in same <==> p in requests && AsksFor(requests[p], account, project);
    var next := Requested(requests, q, account, project).value;
    if same == {} {
      assert AsksFor(next[q], account, project);
    } else {
      var p :| p in same;
      assert AsksFor(next[p], account, project);
    }
  }

  /** A grant settles the user's requests for that project, an approval the one it names; no other request changes. */
  lemma RequestsAreSettled(a: Tables, now: nat, r: AdminRequest, q: string)
    requires HandleAdmin(a, now, r).1.Accepted? && q in a.requests
    ensures var b := HandleAdmin(a, now, r).0;
            && q in b.requests
            && b.requests[q] == if (&& r.DoGrant? && a.requests[q].account == r.account
                                    && a.requests[q].project == r.project)
                                   || (r.DoApprove? && r.requestId == q)
                                then a.requests[q].(status := Approved) else a.requests[q]
  {
    hide Disable, RevokeAccess, GrantGlobalAdmin, GrantProjectAdmin, Lower, Trim;
    match r
    case DoDisable(_, id) => if Disable(a, now, r.actor, r.account).Ok? { DisableElsewhere(a, now, r.actor, id); }
    case DoRevoke(_, _) => if RevokeAccess(a, now, r.account, r.project).Ok? { RevokedSeat(a, now, r); }
    case DoGrantProjectAdmin(_, _) => AddressElsewhere(a, now, r);
    case DoGrantGlobalAdmin(_) => AddressElsewhere(a, now, r);
    case _ =>
  }

  lemma DisableElsewhere(a: Tables, now: nat, actor: string, id: string)
    requires Disable(a, now, actor, id).Ok?
    ensures Disable(a, now, actor, id).value.requests == a.requests
  {
    hide SessionsWithout, CodesWithout, TicketsWithout, RevokeAccount, ProfileProjects, QueueAll;
  }

  lemma AddressElsewhere(a: Tables, now: nat, r: AdminRequest)
    requires r.DoGrantProjectAdmin? || r.DoGrantGlobalAdmin?
    ensures HandleAdmin(a, now, r).0.requests == a.requests
  {
    hide Lower, Trim, FirstRow, VerifiedActive, AdminRoles;
  }
}
