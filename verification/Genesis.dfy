/** The life of a database from its migration: the invariants hold of the empty tables, so they hold in every state
    that any run reaches, starts included; and what a restart can do to the change log. */
module Genesis {
  import opened Text
  import opened Schema
  import opened Repository
  import opened Service
  import opened ChangeLog
  import opened Bootstrap
  import opened History
  import opened Replica
  import opened Consumer
  import opened Credentials
  import opened Accounts
  import opened Cleanup
  import opened SignIn
  import opened Onboarding

  const MIGRATED: Tables := Tables(map[], map[], {}, map[], map[], map[], map[], map[], map[], map[], map[], map[],
                                   map[], [], 0)

  const EMPTY: World := World(0, MIGRATED, {}, Ledger(map[], multiset{}, map[], map[], {}))

  lemma EmptyIsSound()
    ensures Standing(MIGRATED) && InOrder(MIGRATED) && CredentialsOk(EMPTY) && AllOk(EMPTY) && StartsClean(EMPTY)
    ensures HeldByAccounts(MIGRATED) && LinksDrawn(EMPTY)
  {
  }

  /** Every state that any run reaches from the migrated database, with starts and restarts anywhere in it: the
      hypotheses of the theorems about runs hold. */
  lemma EveryReachableState(rs: seq<Request>)
    requires AdmissibleRun(EMPTY, rs)
    ensures var v := Run(EMPTY, rs);
            Standing(v.db) && InOrder(v.db) && CredentialsOk(v) && AllOk(v) && StartsClean(v)
            && HeldByAccounts(v.db) && LinksDrawn(v)
  {
    hide Standing, InOrder, CredentialsOk, AllOk, StartsClean, HeldByAccounts, LinksDrawn, Service.Serve, Admissible;
    EmptyIsSound();
    RunStands(EMPTY, rs);
    RunInOrder(EMPTY, rs);
    RunOk(EMPTY, rs);
    RunAllOk(EMPTY, rs);
    RunClean(EMPTY, rs);
    RunHeld(EMPTY, rs);
    RunLinksDrawn(EMPTY, rs);
  }

  lemma {:induction false} RunClean(w: World, rs: seq<Request>)
    requires StartsClean(w) && AdmissibleRun(w, rs)
    ensures StartsClean(Run(w, rs))
  {
    hide StartsClean, Serve, Admissible;
    if rs != [] {
      RunClean(w, rs[..|rs| - 1]);
      ServeClean(Run(w, rs[..|rs| - 1]), rs[|rs| - 1]);
    }
  }

  // ---------------------------------------------------------------- the first start

  /** A configuration with an administrator. */
  predicate Real(s: Setup) {
    && s.project != "" && s.adminId != "" && s.adminPassword.Some?
    && '@' in s.adminEmail && Lower(s.adminEmail) == s.adminEmail
  }

  function FirstWorld(s: Setup): World {
    Serve(EMPTY, Restart(s))
  }

  /** After the first start: one verified, active administrator with a seat, and nothing in the log. */
  lemma FirstTables(s: Setup)
    requires Real(s)
    ensures Admissible(EMPTY, Restart(s))
    ensures var w := FirstWorld(s);
            && w.clock == 0 && w.drawn == {}
            && w.db.accounts == map[s.adminId := AdminAccount(s.adminEmail, s.adminPassword.value)]
            && w.db.projects == {s.project} && w.db.access == map[Seat(s.adminId, s.project) := ["admin"]]
            && w.db == MIGRATED.(accounts := w.db.accounts, projects := w.db.projects, clients := w.db.clients,
                                 access := w.db.access)
  {
    assert WithEmail(MIGRATED.accounts, s.adminEmail) == {};
  }

  lemma FirstStartIsSound(s: Setup)
    requires Real(s)
    ensures var w := FirstWorld(s);
            Standing(w.db) && InOrder(w.db) && CredentialsOk(w) && AllOk(w) && StartsClean(w)
            && HeldByAccounts(w.db) && LinksDrawn(w)
  {
    hide Standing, InOrder, CredentialsOk, AllOk, StartsClean, HeldByAccounts, LinksDrawn, Serve, Admissible;
    FirstTables(s);
    assert [Restart(s)][..0] == [];
    EveryReachableState([Restart(s)]);
  }

  /** From the first start on, as long as no later start gives a new seat: each project's user list is that of the
      first start with the whole log applied in order. */
  lemma WholeLogIsView(s: Setup, rs: seq<Request>, project: string)
    requires Real(s) && AdmissibleRun(FirstWorld(s), rs) && LoggedRun(FirstWorld(s), rs)
    ensures var v := Run(FirstWorld(s), rs);
            View(v.db, project) == ApplyAll(View(FirstWorld(s).db, project), Pending(v.db.events, project, 0))
  {
    hide Standing, View, ApplyAll, Serve, Admissible, Logged;
    var w := FirstWorld(s);
    FirstStartIsSound(s);
    FirstTables(s);
    LogRefinesTable(w, rs, project);
    assert Since(w.db, Run(w, rs).db) == Run(w, rs).db.events;
  }

  // ---------------------------------------------------------------- a restart that contradicts the log

  lemma RevokedTables(a: Tables, s: Setup)
    requires a.projects == {s.project} && a.access == map[Seat(s.adminId, s.project) := ["admin"]]
    requires a.events == [] && a.lastId == 0
    ensures var r := RevokeAccess(a, 0, s.adminId, s.project);
            && r.Ok? && r.value.access == map[] && r.value.accounts == a.accounts && r.value.projects == a.projects
            && r.value.events == [SyncEvent(1, s.project, AccessRevoked, s.adminId, UserIdOnly)]
  {
    hide RevokeSeat;
  }

  lemma SecondStart(b: Tables, s: Setup)
    requires Real(s) && b.access == map[]
    requires b.accounts == map[s.adminId := AdminAccount(s.adminEmail, s.adminPassword.value)]
    ensures var c := Boot(b, s).0;
            && c.events == b.events && c.accounts == b.accounts
            && c.access == map[Seat(s.adminId, s.project) := ["admin"]]
    ensures !Logged(b, Restart(s))
  {
    hide EnsureProject, Insertable;
    assert WithEmail(b.accounts, s.adminEmail) == {s.adminId};
    assert Promote(b.accounts, {s.adminId}) == b.accounts;
    assert SeatAdmins(b.access, {s.adminId}, s.project) == map[Seat(s.adminId, s.project) := ["admin"]];
  }

  /** A concrete failure of the log: revoke the administrator's access, then restart. The seat is back in the table,
      the log says it is revoked, and no event tells a consumer otherwise. */
  lemma RestartAfterRevoke(s: Setup)
    requires Real(s)
    ensures var w := FirstWorld(s);
            var revoked := Serve(w, Admin(DoRevoke(s.adminId, s.project)));
            var restarted := Serve(revoked, Restart(s)).db;
            && Admissible(EMPTY, Restart(s)) && Admissible(w, Admin(DoRevoke(s.adminId, s.project)))
            && Admissible(revoked, Restart(s))
            && s.adminId !in View(revoked.db, s.project) && s.adminId in View(restarted, s.project)
            && restarted.events == revoked.db.events
            && revoked.db.events == [SyncEvent(1, s.project, AccessRevoked, s.adminId, UserIdOnly)]
            && !Logs(revoked.db, restarted)
  {
    hide Logs, Boot, RevokeAccess, Logged, Standing, InOrder, CredentialsOk, AllOk, StartsClean, AdminAccount, View;
    FirstTables(s);
    FirstStartIsSound(s);
    var w := FirstWorld(s);
    RevokedTables(w.db, s);
    var revoked := Serve(w, Admin(DoRevoke(s.adminId, s.project)));
    RunStands(w, [Admin(DoRevoke(s.adminId, s.project))]) by { OneStep(w, Admin(DoRevoke(s.adminId, s.project))); }
    OneStep(w, Admin(DoRevoke(s.adminId, s.project)));
    SecondStart(revoked.db, s);
    BootIsExplained(revoked.db, s);
    ViewIsRows(revoked.db, s.project, s.adminId);
    ViewIsRows(Boot(revoked.db, s).0, s.project, s.adminId);
    AdminStands(s);
  }

  lemma AdminStands(s: Setup)
    requires Real(s)
    ensures AdminAccount(s.adminEmail, s.adminPassword.value).InGoodStanding()
  {
  }

  lemma OneStep(w: World, r: Request)
    ensures Run(w, [r]) == Serve(w, r) && (AdmissibleRun(w, [r]) <==> Admissible(w, r))
  {
    hide Serve, Admissible;
    assert [r][..0] == [];
  }
}
