/** Whole runs: the log of changes explains the table in every reachable state. */
module History {
  import opened Schema
  import opened Repository
  import opened Service
  import opened ChangeLog
  import opened Transactions
  import opened Bootstrap

  /** Every request of the run is logged. */
  predicate LoggedRun(w: World, rs: seq<Request>) {
    rs == [] || (LoggedRun(w, rs[..|rs| - 1]) && Logged(Run(w, rs[..|rs| - 1]).db, rs[|rs| - 1]))
  }

  lemma HandleKeeps(a: Tables, now: nat, r: Request)
    requires Standing(a) && Named(r)
    ensures Standing(Handle(a, now, r).0)
    ensures Logs(a, Handle(a, now, r).0) <==> Logged(a, r)
  {
    hide Keeps, Standing, HandleDirectory, HandleLogin, HandleAdmin, HandleOAuth, HandleUpkeep, Boot, Logs, GivesNoSeat;
    if r.Restart? {
      BootIsExplained(a, r.setup);
    } else {
      TransactionKeeps(a, now, r);
      assert Standing(Handle(a, now, r).0) && Logs(a, Handle(a, now, r).0) by { KeepsMeans(a, Handle(a, now, r).0); }
    }
  }

  lemma KeepsMeans(a: Tables, b: Tables)
    ensures Keeps(a, b) <==> Logs(a, b) && Standing(b)
  {
  }

  lemma AdmissibleIsNamed(w: World, r: Request)
    requires Admissible(w, r)
    ensures Named(r)
  {
  }

  lemma ServeKeeps(w: World, r: Request)
    requires Standing(w.db) && Admissible(w, r)
    ensures Standing(Serve(w, r).db)
    ensures Logs(w.db, Serve(w, r).db) <==> Logged(w.db, r)
  {
    hide Standing, Handle, Note, Logs, Logged, Admissible, Named;
    AdmissibleIsNamed(w, r);
    HandleKeeps(w.db, w.clock, r);
  }

  /** Starts included, every seat always has an account in good standing behind it. */
  lemma {:induction false} RunStands(w: World, rs: seq<Request>)
    requires Standing(w.db) && AdmissibleRun(w, rs)
    ensures Standing(Run(w, rs).db)
  {
    hide Standing, Serve, Admissible, Logs, Logged;
    if rs != [] {
      RunStands(w, rs[..|rs| - 1]);
      ServeKeeps(Run(w, rs[..|rs| - 1]), rs[|rs| - 1]);
    }
  }

  /** The log refines the table: after any run, replaying what the run appended over the user list a project
      started with gives, user by user, the list the snapshot query answers. */
  lemma {:induction false} RunKeeps(w: World, rs: seq<Request>)
    requires Standing(w.db) && AdmissibleRun(w, rs) && LoggedRun(w, rs)
    ensures Keeps(w.db, Run(w, rs).db)
  {
    hide Standing, Serve, Admissible, Logs, Logged, Keeps;
    RunStands(w, rs);
    if rs == [] {
      NothingKeeps(w.db);
    } else {
      var mid := Run(w, rs[..|rs| - 1]);
      RunStands(w, rs[..|rs| - 1]);
      RunKeeps(w, rs[..|rs| - 1]);
      ServeKeeps(mid, rs[|rs| - 1]);
      KeepsMeans(w.db, mid.db);
      LogsComposes(w.db, mid.db, Run(w, rs).db);
      KeepsMeans(w.db, Run(w, rs).db);
    }
  }
}
