/** The consumer beside the database: its page reads and polls, with any requests served in between. */
module Consumer {
  import opened Order
  import opened Schema
  import opened Repository
  import opened Service
  import opened ChangeLog
  import opened Bootstrap
  import opened History
  import opened Replica

  // ---------------------------------------------------------------- applying events to the copy

  function ApplyEvent(users: UserMap, e: SyncEvent): UserMap {
    match Consume(Find(users, e.account), e.kind, e.payload)
    case Some(row) => users[e.account := row]
    case None => users - {e.account}
  }

  function ApplyAll(users: UserMap, es: seq<SyncEvent>): UserMap {
    if es == [] then users else ApplyEvent(ApplyAll(users, es[..|es| - 1]), es[|es| - 1])
  }

  /** The copy of one user follows the replay of that user's row. */
  lemma {:induction false} ApplyIsReplay(users: UserMap, es: seq<SyncEvent>, project: string, u: string)
    requires forall i :: 0 <= i < |es| ==> es[i].project == project
    ensures Find(ApplyAll(users, es), u) == Replay(Find(users, u), es, project, u)
  {
    if es != [] {
      ApplyIsReplay(users, es[..|es| - 1], project, u);
    }
  }

  // ---------------------------------------------------------------- the log is in order

  predicate InOrder(db: Tables) {
    Numbered(db.events, 0, db.lastId)
  }

  lemma KeepsInOrder(a: Tables, b: Tables)
    requires InOrder(a) && Logs(a, b)
    ensures InOrder(b)
  {
    assert b.events == a.events + Since(a, b);
    assert forall i :: 0 <= i < |b.events| ==>
      b.events[i] == if i < |a.events| then a.events[i] else Since(a, b)[i - |a.events|];
  }

  lemma {:induction false} MaxIdBounds(es: seq<SyncEvent>, high: nat)
    requires forall i :: 0 <= i < |es| ==> es[i].id <= high
    ensures forall i :: 0 <= i < |es| ==> es[i].id <= MaxId(es)
    ensures MaxId(es) <= high
  {
    if es != [] {
      MaxIdBounds(es[..|es| - 1], high);
      assert forall i :: 0 <= i < |es| - 1 ==> es[i] == es[..|es| - 1][i];
    }
  }

  predicate Ascending(es: seq<SyncEvent>) {
    forall i, j :: 0 <= i < j < |es| ==> es[i].id < es[j].id
  }

  /** Raising the cursor to an event of the pending list leaves the events after it pending. */
  lemma {:induction false} PendingAdvances(es: seq<SyncEvent>, project: string, after: nat, n: nat)
    requires Ascending(es)
    requires n < |Pending(es, project, after)|
    ensures var p := Pending(es, project, after); Pending(es, project, p[n].id) == p[n + 1..]
  {
    var p := Pending(es, project, after);
    var init := es[..|es| - 1];
    var e := es[|es| - 1];
    var q := Pending(init, project, after);
    PendingIsOwn(es, project, after);
    if n < |q| {
      PendingAdvances(init, project, after, n);
      PendingIsOwn(init, project, after);
      assert q[n] in init;
      assert p[n] == q[n];
      if p != q {
        assert p == q + [e];
        assert p[n + 1..] == q[n + 1..] + [e];
      }
    } else {
      assert p[n] == e;
      AllBelow(es, project, e.id);
    }
  }

  // ---------------------------------------------------------------- the protocol

  datatype Phase = Loading(after: string) | Draining

  /** A consumer of one project next to the database. `first` is the cursor of the first page. `base` is a history
      variable: the user list when that page was read, which the consumer never sees whole. */
  datatype Follower = Follower(world: World, project: string, phase: Phase, cursor: nat, users: UserMap, first: nat,
                               base: UserMap)

  function Advanced(page: SnapshotPage): Phase {
    if page.next == "" then Draining else Loading(page.next)
  }

  /** The first page starts an empty copy and fixes the cursor. */
  function Start(w: World, project: string): Follower {
    var page := Snapshot(w.db, project, "", None);
    Follower(w, project, Advanced(page), page.cursor, page.users, page.cursor, View(w.db, project))
  }

  /** The consumer's next read: another page with the first page's cursor, or another page of changes. */
  function Advance(s: Follower): Follower {
    match s.phase
    case Loading(after) =>
      var page := Snapshot(s.world.db, s.project, after, Some(s.cursor));
      s.(phase := Advanced(page), users := s.users + page.users)
    case Draining =>
      var (events, next) := Changes(s.world.db, s.project, s.cursor);
      s.(cursor := next, users := ApplyAll(s.users, events))
  }

  /** The first events of the next page of changes. */
  function Delivered(s: Follower, n: nat): seq<SyncEvent> {
    var page := Changes(s.world.db, s.project, s.cursor).0;
    if s.phase.Loading? then [] else if n < |page| then page[..n] else page
  }

  /** What happens next: a request of anybody; the consumer's next read; a page of which some events were applied when
      the consumer failed, before its cursor was saved; a return to an older cursor of this load, so that events come
      again; or a new load from the first page. */
  datatype Move = Elsewhere(request: Request) | Read | Interrupted(applied: nat) | Redeliver(cursor: nat) | Reload

  function Play(s: Follower, m: Move): Follower {
    match m
    case Elsewhere(r) => s.(world := Serve(s.world, r))
    case Read => Advance(s)
    case Interrupted(n) => s.(users := ApplyAll(s.users, Delivered(s, n)))
    case Redeliver(cursor) => if s.phase.Draining? && s.first <= cursor <= s.cursor then s.(cursor := cursor) else s
    case Reload => Start(s.world, s.project)
  }

  function PlayAll(s: Follower, ms: seq<Move>): Follower {
    if ms == [] then s else Play(PlayAll(s, ms[..|ms| - 1]), ms[|ms| - 1])
  }

  /** The requests are admissible, and none is a start that gives a seat without an event. */
  predicate Playable(s: Follower, ms: seq<Move>) {
    ms == [] ||
    (var before := PlayAll(s, ms[..|ms| - 1]);
     var m := ms[|ms| - 1];
     && Playable(s, ms[..|ms| - 1])
     && (m.Elsewhere? ==> Admissible(before.world, m.request) && Logged(before.world.db, m.request)))
  }

  // ---------------------------------------------------------------- its invariant

  function Due(s: Follower): seq<SyncEvent> {
    Pending(s.world.db.events, s.project, s.cursor)
  }

  predicate Seen(s: Follower, u: string) {
    s.phase.Draining? || u == s.phase.after || Less(u, s.phase.after)
  }

  /** A user already read: replaying the events still due over the copy gives the present row. */
  predicate Recoverable(s: Follower, u: string) {
    Replay(Find(s.users, u), Due(s), s.project, u) == Row(s.world.db, s.project, u)
  }

  /** Everything logged for the project since the first page. */
  function SinceFirst(s: Follower): seq<SyncEvent> {
    Pending(s.world.db.events, s.project, s.first)
  }

  /** The events since the first page lead from the row at that page to the present row. */
  predicate Explained(s: Follower, u: string) {
    Replay(Find(s.base, u), SinceFirst(s), s.project, u) == Row(s.world.db, s.project, u)
  }

  predicate UserOk(s: Follower, u: string) {
    Explained(s, u) && if Seen(s, u) then Recoverable(s, u) else u !in s.users
  }

  ghost predicate FollowerOk(s: Follower) {
    && Standing(s.world.db) && InOrder(s.world.db) && s.first <= s.cursor <= s.world.db.lastId
    && (s.phase.Loading? ==> s.cursor == s.first)
    && forall u :: UserOk(s, u)
  }

  // ---------------------------------------------------------------- the reads

  /** A page holds exactly the listed users above its lower bound and up to its own cursor. */
  lemma PageCovers(db: Tables, project: string, after: string, requested: Option<nat>, u: string)
    ensures var page := Snapshot(db, project, after, requested);
            var covered := Less(after, u) && (page.next == "" || u == page.next || Less(u, page.next));
            Find(page.users, u) == if covered then Row(db, project, u) else None
    ensures var page := Snapshot(db, project, after, requested);
            page.next != "" ==> Less(after, page.next)
  {
    var ids := UsersAbove(db, project, after);
    assert u in ids <==> u in View(db, project) && Less(after, u);
    ViewIsRows(db, project, u);
    if |ids| > PAGE {
      assert ids[PAGE - 1] in ids;
      AscendingPrefix(ids, PAGE, u);
    }
  }

  lemma StartOk(w: World, project: string)
    requires Standing(w.db) && InOrder(w.db)
    ensures FollowerOk(Start(w, project))
  {
    var s := Start(w, project);
    MaxIdBounds(w.db.events, w.db.lastId);
    AllBelow(w.db.events, project, s.cursor);
    forall u ensures UserOk(s, u) {
      PageCovers(w.db, project, "", None, u);
      ViewIsRows(w.db, project, u);
    }
  }

  /** Reading a page late: the events since the first page lead from the present row to itself. */
  lemma LateRead(s: Follower, u: string)
    requires Explained(s, u)
    ensures Replay(Row(s.world.db, s.project, u), SinceFirst(s), s.project, u) == Row(s.world.db, s.project, u)
  {
    ReplayTwice(Find(s.base, u), SinceFirst(s), s.project, u);
  }

  lemma LoadOk(s: Follower)
    requires FollowerOk(s) && s.phase.Loading?
    ensures FollowerOk(Advance(s))
  {
    var after := s.phase.after;
    var t := Advance(s);
    assert Due(t) == Due(s);
    forall u ensures UserOk(t, u) {
      assert UserOk(s, u);
      PageCovers(s.world.db, s.project, after, Some(s.cursor), u);
      LessIsTotal(after, u);
      LessIsStrict(u);
      if Seen(s, u) {
        if Less(u, after) && Less(after, u) { LessIsTransitive(u, after, u); }
        if t.phase.Loading? && Less(u, after) { LessIsTransitive(u, after, t.phase.after); }
      } else {
        LateRead(s, u);
      }
    }
  }

  lemma DrainOk(s: Follower)
    requires FollowerOk(s) && s.phase.Draining?
    ensures FollowerOk(Advance(s))
    ensures |Changes(s.world.db, s.project, s.cursor).0| < PAGE ==> Due(Advance(s)) == []
  {
    var db := s.world.db;
    var (page, next) := Changes(db, s.project, s.cursor);
    var t := Advance(s);
    PendingIsOwn(db.events, s.project, s.cursor);
    if page == [] {
      assert Due(t) == Due(s) == [];
    } else {
      PendingAdvances(db.events, s.project, s.cursor, |page| - 1);
      assert Due(s) == page + Due(t);
      assert page[|page| - 1] in db.events;
    }
    forall u ensures UserOk(t, u) {
      assert UserOk(s, u);
      ApplyIsReplay(s.users, page, s.project, u);
      assert Due(s) == page + Due(t);
      ReplayAppends(Find(s.users, u), page, Due(t), s.project, u);
    }
  }

  // ---------------------------------------------------------------- failures of the consumer

  lemma InterruptedOk(s: Follower, n: nat)
    requires FollowerOk(s)
    ensures FollowerOk(Play(s, Interrupted(n)))
  {
    hide Standing, InOrder, Poll;
    var t := Play(s, Interrupted(n));
    if s.phase.Draining? {
      DeliveredIsFirst(s, n);
      forall u ensures UserOk(t, u) {
        assert UserOk(s, u);
        PartlyApplied(s, t, Delivered(s, n), u);
      }
    }
  }

  lemma DeliveredIsFirst(s: Follower, n: nat)
    ensures Delivered(s, n) <= Due(s)
    ensures forall i :: 0 <= i < |Delivered(s, n)| ==> Delivered(s, n)[i].project == s.project
  {
    PendingIsOwn(s.world.db.events, s.project, s.cursor);
  }

  lemma PartlyApplied(s: Follower, t: Follower, done: seq<SyncEvent>, u: string)
    requires done <= Due(s) && forall i :: 0 <= i < |done| ==> done[i].project == s.project
    requires Recoverable(s, u) && t == s.(users := ApplyAll(s.users, done))
    ensures Recoverable(t, u)
  {
    hide Pending, Row, ApplyAll;
    var rest := Due(s)[|done|..];
    assert Due(s) == done + rest;
    ApplyIsReplay(s.users, done, s.project, u);
    ReplayAppends(Find(s.users, u), done, rest, s.project, u);
    ReplayAgain(Find(s.users, u), Find(t.users, u), done, rest, s.project, u);
  }

  lemma RedeliverOk(s: Follower, cursor: nat)
    requires FollowerOk(s) && s.phase.Draining? && s.first <= cursor <= s.cursor
    ensures FollowerOk(s.(cursor := cursor))
  {
    var t := s.(cursor := cursor);
    var es := s.world.db.events;
    var n := PendingSplits(es, s.project, s.first, cursor);
    var k := PendingSplits(es, s.project, cursor, s.cursor);
    var skipped, again := SinceFirst(s)[..n], Due(t)[..k];
    assert SinceFirst(s) == skipped + Due(t) && Due(t) == again + Due(s);
    forall u ensures UserOk(t, u) {
      assert UserOk(s, u);
      ReplayAppends(Find(s.base, u), skipped, Due(t), s.project, u);
      ReplayAgain(Replay(Find(s.base, u), skipped, s.project, u), Find(s.users, u), again, Due(s), s.project, u);
    }
  }

  // ---------------------------------------------------------------- other requests in between

  /** The events a request logs are added to those pending. */
  lemma PendingGrows(a: Tables, b: Tables, project: string, cursor: nat)
    requires Logs(a, b)
    ensures Pending(b.events, project, cursor)
            == Pending(a.events, project, cursor) + Pending(Since(a, b), project, cursor)
  {
    PendingAppends(a.events, Since(a, b), project, cursor);
    assert b.events == a.events + Since(a, b);
  }

  lemma UserCarries(row: Option<UserRow>, due: seq<SyncEvent>, a: Tables, b: Tables, project: string, cursor: nat,
                    u: string)
    requires cursor <= a.lastId && Logs(a, b)
    requires Replay(row, due, project, u) == Row(a, project, u)
    ensures Replay(row, due + Pending(Since(a, b), project, cursor), project, u) == Row(b, project, u)
  {
    var more := Pending(Since(a, b), project, cursor);
    assert ExplainsUser(a, Since(a, b), b, project, u);
    ReplayAppends(row, due, more, project, u);
    ReplayPending(Row(a, project, u), Since(a, b), project, cursor, u);
  }

  lemma ElsewhereOk(s: Follower, r: Request)
    requires FollowerOk(s) && Admissible(s.world, r) && Logged(s.world.db, r)
    ensures FollowerOk(Play(s, Elsewhere(r)))
  {
    hide Admissible, Serve, Standing, Logged;
    var a, b := s.world.db, Serve(s.world, r).db;
    var t := Play(s, Elsewhere(r));
    ServeKeeps(s.world, r);
    KeepsInOrder(a, b);
    PendingGrows(a, b, s.project, s.cursor);
    PendingGrows(a, b, s.project, s.first);
    forall u ensures UserOk(t, u) {
      assert UserOk(s, u);
      UserCarries(Find(s.base, u), SinceFirst(s), a, b, s.project, s.first, u);
      if Seen(s, u) { UserCarries(Find(s.users, u), Due(s), a, b, s.project, s.cursor, u); }
    }
  }

  lemma PlayOk(s: Follower, m: Move)
    requires FollowerOk(s) && (m.Elsewhere? ==> Admissible(s.world, m.request) && Logged(s.world.db, m.request))
    ensures FollowerOk(Play(s, m))
  {
    hide Admissible, Serve, Advance, Logged, Start, UserOk, Standing, InOrder, ApplyAll;
    match m
    case Elsewhere(r) => ElsewhereOk(s, r);
    case Read => if s.phase.Loading? { LoadOk(s); } else { DrainOk(s); }
    case Interrupted(n) => InterruptedOk(s, n);
    case Redeliver(cursor) => if s.phase.Draining? && s.first <= cursor <= s.cursor { RedeliverOk(s, cursor); }
    case Reload => StartOk(s.world, s.project);
  }

  lemma {:induction false} PlayAllOk(s: Follower, ms: seq<Move>)
    requires FollowerOk(s) && Playable(s, ms)
    ensures FollowerOk(PlayAll(s, ms))
  {
    hide FollowerOk, Admissible, Play;
    if ms != [] {
      PlayAllOk(s, ms[..|ms| - 1]);
      PlayOk(PlayAll(s, ms[..|ms| - 1]), ms[|ms| - 1]);
    }
  }

  /** Replica convergence. Start from any database in order, let the consumer read its first page, and then let
      page reads, polls, failures, events received again, new loads and requests of anybody alternate in any way:
      whenever a poll of the drained consumer answers fewer than 200 events, its copy is exactly the user list the
      snapshot query gives at that moment. */
  lemma Convergence(w: World, project: string, ms: seq<Move>)
    requires Standing(w.db) && InOrder(w.db)
    requires Playable(Start(w, project), ms)
    requires var s := PlayAll(Start(w, project), ms);
             s.phase.Draining? && |Changes(s.world.db, project, s.cursor).0| < PAGE
    ensures var s := Play(PlayAll(Start(w, project), ms), Read);
            s.users == View(s.world.db, project)
  {
    StartOk(w, project);
    PlayAllOk(Start(w, project), ms);
    ProjectKept(Start(w, project), ms);
    var s := PlayAll(Start(w, project), ms);
    var t := Advance(s);
    DrainOk(s);
    assert forall u :: Find(t.users, u) == Find(View(t.world.db, project), u) by {
      forall u ensures Find(t.users, u) == Find(View(t.world.db, project), u) {
        assert UserOk(t, u);
        ViewIsRows(t.world.db, project, u);
      }
    }
    MapsAgree(t.users, View(t.world.db, project));
  }

  lemma MapsAgree(a: UserMap, b: UserMap)
    requires forall u :: Find(a, u) == Find(b, u)
    ensures a == b
  {
    assert forall u :: u in a <==> u in b by {
      forall u ensures u in a <==> u in b { assert Find(a, u) == Find(b, u); }
    }
    assert forall u | u in a :: a[u] == b[u] by {
      forall u | u in a ensures a[u] == b[u] { assert Find(a, u) == Find(b, u); }
    }
  }

  lemma {:induction false} ProjectKept(s: Follower, ms: seq<Move>)
    ensures PlayAll(s, ms).project == s.project
  {
    hide Serve, Changes, Snapshot, ApplyAll;
    if ms != [] { ProjectKept(s, ms[..|ms| - 1]); }
  }

  /** The log refines the table: the user list after any run is the list before it with the run's events of the
      project applied in order. */
  lemma LogRefinesTable(w: World, rs: seq<Request>, project: string)
    requires Standing(w.db) && AdmissibleRun(w, rs) && LoggedRun(w, rs)
    ensures var after := Run(w, rs).db;
            && w.db.events <= after.events
            && View(after, project)
               == ApplyAll(View(w.db, project), Pending(Since(w.db, after), project, w.db.lastId))
  {
    hide Serve, Admissible, Logged, Standing;
    var a, b := w.db, Run(w, rs).db;
    RunKeeps(w, rs);
    var es := Pending(Since(a, b), project, a.lastId);
    PendingIsOwn(Since(a, b), project, a.lastId);
    forall u ensures Find(View(b, project), u) == Find(ApplyAll(View(a, project), es), u) {
      ViewIsRows(a, project, u);
      ViewIsRows(b, project, u);
      assert ExplainsUser(a, Since(a, b), b, project, u);
      ReplayPending(Row(a, project, u), Since(a, b), project, a.lastId, u);
      ApplyIsReplay(View(a, project), es, project, u);
    }
    MapsAgree(View(b, project), ApplyAll(View(a, project), es));
  }

  /** The log stays in order over every run, starts included. */
  lemma {:induction false} RunInOrder(w: World, rs: seq<Request>)
    requires Standing(w.db) && InOrder(w.db) && AdmissibleRun(w, rs)
    ensures InOrder(Run(w, rs).db)
  {
    hide Serve, Admissible, Standing, InOrder;
    if rs != [] {
      var init := rs[..|rs| - 1];
      RunInOrder(w, init);
      RunStands(w, init);
      ServeInOrder(Run(w, init), rs[|rs| - 1]);
    }
  }

  lemma ServeInOrder(w: World, r: Request)
    requires Standing(w.db) && InOrder(w.db) && Admissible(w, r)
    ensures InOrder(Serve(w, r).db)
  {
    hide Admissible, Standing, Logs, GivesNoSeat, Boot, HandleDirectory, HandleLogin, HandleAdmin, HandleOAuth,
         HandleUpkeep, Note;
    if Logged(w.db, r) {
      ServeKeeps(w, r);
      KeepsInOrder(w.db, Serve(w, r).db);
    } else {
      BootKeepsLog(w.db, r.setup);
    }
  }
}
