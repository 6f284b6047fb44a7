/** Runs of the database object: they are runs of the machine, so what is proved of runs holds of the object. */
module Operation {
  import opened Schema
  import opened Postgres
  import opened Service
  import opened Burns
  import opened ChangeLog
  import opened Consumer
  import opened Credentials
  import opened Revocation
  import opened Accounts
  import opened Genesis
  import Cleanup
  import Onboarding
  import Server
  import SignIn

  // ---------------------------------------------------------------- runs of the object

  lemma BurnStep(w: World, count: nat)
    ensures var v := Service.Serve(w, Upkeep(Burn(count)));
            v.clock == w.clock && v.db == w.db.(lastId := w.db.lastId + count)
  {
  }

  lemma WaitStep(w: World, duration: nat)
    ensures var v := Service.Serve(w, Upkeep(Wait(duration)));
            v.clock == w.clock + duration && v.db == w.db
            && Handle(w.db, w.clock, Upkeep(Wait(duration))).1 == Accepted(Nothing)
  {
  }

  lemma RequestStep(w: World, r: Request)
    requires Server.Servable(r)
    ensures var v := Service.Serve(w, r); v.clock == w.clock && v.db == Handle(w.db, w.clock, r).0
  {
    hide Handle;
  }

  lemma NoRequests(w: World)
    ensures Run(w, []) == w && WithoutBurns([]) == [] && Replies(w, []) == [] && NoRounds([])
  {
  }

  /** Requests that the object serves, with time passing in between. */
  predicate Timed(rs: seq<Request>) {
    forall i :: 0 <= i < |rs| ==> Server.Servable(rs[i]) || (rs[i].Upkeep? && rs[i].upkeep.Wait?)
  }

  /** Any requests served by the object, with time passing in between, are a run of the machine: the same requests in
      the same order, and between them only ids used up by transactions that were rolled back. That run is admissible
      when the requests are, it gives the replies of the requests alone, and it ends in their tables up to ids. */
  method ServeAll(db: Database, ghost w: World, start: nat, rs: seq<Request>)
    returns (replies: seq<Reply>, ghost run: seq<Request>)
    requires w.db == db.State() && w.clock == start && Timed(rs)
    modifies db
    ensures db.State() == Run(w, run).db && WithoutBurns(run) == rs
    ensures AdmissibleRun(w, run) <==> AdmissibleRun(w, rs)
    ensures replies == Replies(w, rs)
    ensures SameWorld(Run(w, run), Run(w, rs))
  {
    hide Handle, Service.Serve, Run, WithoutBurns, Replies, AdmissibleRun, SameWorld;
    var now := start;
    replies, run := [], [];
    NoRequests(w);
    for i := 0 to |rs|
      invariant WithoutBurns(run) == rs[..i] && replies == Replies(w, run) && NoRounds(run)
      invariant db.State() == Run(w, run).db && now == Run(w, run).clock
    {
      var r := rs[i];
      assert rs[..i + 1] == rs[..i] + [r];
      OneMore(w, run, r);
      ghost var before := Run(w, run);
      if r.Upkeep? && r.upkeep.Wait? {
        WaitStep(before, r.upkeep.duration);
        now := now + r.upkeep.duration;
        replies := replies + [Accepted(Nothing)];
        run := run + [r];
      } else {
        RequestStep(before, r);
        var reply := Server.Serve(db, now, r);
        replies := replies + [reply];
        ghost var burned := db.lastId - Run(w, run + [r]).db.lastId;
        OneMore(w, run + [r], Upkeep(Burn(burned)));
        BurnStep(Run(w, run + [r]), burned);
        run := run + [r] + [Upkeep(Burn(burned))];
      }
    }
    assert rs[..|rs|] == rs;
    BurnsAreInvisible(w, run);
  }

  // ---------------------------------------------------------------- what the object keeps

  /** A service from its migration on: starts, restarts, requests and waiting, in any order. As long as the environment
      keeps its promises, the tables of the object have every property of the runs: seats have accounts in good
      standing behind them, the log is in order, each family has one live token, logins are unambiguous. */
  method Operate(rs: seq<Request>) returns (db: Database, replies: seq<Reply>, ghost v: World)
    requires Timed(rs)
    ensures fresh(db) && db.State() == v.db
    ensures replies == Replies(EMPTY, rs) && SameWorld(v, Run(EMPTY, rs))
    ensures AdmissibleRun(EMPTY, rs) ==>
      Standing(db.State()) && InOrder(db.State()) && CredentialsOk(v) && AllOk(v) && Cleanup.StartsClean(v)
      && SignIn.HeldByAccounts(db.State()) && Onboarding.LinksDrawn(v)
  {
    hide Run, Replies, AdmissibleRun, SameWorld, Standing, InOrder, CredentialsOk, AllOk, Cleanup.StartsClean,
         SignIn.HeldByAccounts, Onboarding.LinksDrawn;
    db := new Database();
    ghost var run: seq<Request>;
    replies, run := ServeAll(db, EMPTY, 0, rs);
    v := Run(EMPTY, run);
    if AdmissibleRun(EMPTY, rs) { EveryReachableState(run); }
  }

  lemma {:induction false} RunFrom(w: World, r: Request, rs: seq<Request>)
    ensures Run(w, [r] + rs) == Run(Service.Serve(w, r), rs)
    ensures AdmissibleRun(w, [r] + rs) <==> Admissible(w, r) && AdmissibleRun(Service.Serve(w, r), rs)
  {
    hide Service.Serve, Admissible;
    if rs == [] {
      assert [r] + rs == [r] && [r][..0] == [];
    } else {
      var n := |rs| - 1;
      assert ([r] + rs)[..n + 1] == [r] + rs[..n];
      RunFrom(w, r, rs[..n]);
    }
  }

  /** After a password change, a reset or a disablement served by the object, a credential that the account held before
      is refused by the object, whatever it served in between. */
  method ServeEpoch(db: Database, ghost w: World, start: nat, r: Request, ghost account: string, ghost c: Credential,
                    rs: seq<Request>, later: Request)
    returns (replies: seq<Reply>)
    requires w.db == db.State() && w.clock == start && Timed([r] + rs + [later])
    requires CredentialsOk(w) && HeldBy(w.db, c, account) && EndsEpoch(w, r, account) && Presents(later, c)
    modifies db
    ensures replies == Replies(w, [r] + rs + [later])
    ensures AdmissibleRun(w, [r] + rs) ==> replies != [] && replies[|replies| - 1].Refused?
  {
    hide Run, Replies, AdmissibleRun, SameWorld, CredentialsOk, HeldBy, EndsEpoch, Presents, WithoutBurns, Handle,
         Service.Serve;
    ghost var run;
    replies, run := ServeAll(db, w, start, [r] + rs + [later]);
    if AdmissibleRun(w, [r] + rs) {
      OneMore(w, [r] + rs, later);
      RunFrom(w, r, rs);
      EpochIsFinal(w, r, account, c, rs, later);
      PresentedIsNoBurn(later, c);
    }
  }

  lemma PresentedIsNoBurn(r: Request, c: Credential)
    requires Presents(r, c)
    ensures !IsBurn(r)
  {
  }
}
