/** Why a cursor may be an event id: writing transactions that run at the same time, the advisory lock that each takes
    before it draws an id, and the identity sequence, which is never rolled back. */
module Cursors {
  import opened Schema
  import opened Replica
  import opened Consumer

  /** A consumer that polls for one project. */
  datatype Reader = Reader(project: string, cursor: nat, delivered: seq<SyncEvent>)

  /** `log` is what is committed, in the order of the commits; `open` holds what each running transaction inserted. */
  datatype Site = Site(lastId: nat, log: seq<SyncEvent>, holder: Option<nat>, open: map<nat, seq<SyncEvent>>,
                       reader: Reader)

  datatype Step =
    | Begin(tx: nat)
    | TakeLock(tx: nat)
    | Insert(tx: nat, project: string, kind: Kind, account: string, payload: Payload)
    | Commit(tx: nat)
    | Abort(tx: nat)
    | PollOnce

  /** With `locking`, only the holder of the lock inserts events; taking it waits for the holder to end. */
  predicate Enabled(s: Site, step: Step, locking: bool) {
    match step
    case Begin(tx) => tx !in s.open
    case TakeLock(tx) => tx in s.open && (s.holder.None? || s.holder == Some(tx))
    case Insert(tx, _, _, _, _) => tx in s.open && (locking ==> s.holder == Some(tx))
    case Commit(tx) => tx in s.open
    case Abort(tx) => tx in s.open
    case PollOnce => true
  }

  function Finish(s: Site, tx: nat): Site {
    s.(open := s.open - {tx}, holder := if s.holder == Some(tx) then None else s.holder)
  }

  function Take(s: Site, step: Step): Site
    requires Enabled(s, step, false)
  {
    match step
    case Begin(tx) => s.(open := s.open[tx := []])
    case TakeLock(tx) => s.(holder := Some(tx))
    case Insert(tx, project, kind, account, payload) =>
      var e := SyncEvent(s.lastId + 1, project, kind, account, payload);
      s.(lastId := s.lastId + 1, open := s.open[tx := s.open[tx] + [e]])
    case Commit(tx) => Finish(s.(log := s.log + s.open[tx]), tx)
    case Abort(tx) => Finish(s, tx)
    case PollOnce =>
      var (page, next) := Poll(s.log, s.reader.project, s.reader.cursor);
      s.(reader := s.reader.(cursor := next, delivered := s.reader.delivered + page))
  }

  predicate EnabledRun(s: Site, steps: seq<Step>, locking: bool)
    decreases |steps|, 0
  {
    steps == [] ||
    (EnabledRun(s, steps[..|steps| - 1], locking)
     && Enabled(Run(s, steps[..|steps| - 1], locking), steps[|steps| - 1], locking))
  }

  function Run(s: Site, steps: seq<Step>, locking: bool): Site
    requires EnabledRun(s, steps, locking)
    decreases |steps|, 1
  {
    if steps == [] then s else Take(Run(s, steps[..|steps| - 1], locking), steps[|steps| - 1])
  }

  // ---------------------------------------------------------------- the invariant

  predicate Above(es: seq<SyncEvent>, low: nat, high: nat) {
    forall i :: 0 <= i < |es| ==> low < es[i].id <= high
  }

  /** Committed ids ascend in the order of the commits; only the holder of the lock has events that are not committed,
      and their ids are above every committed one. */
  predicate Ordered(s: Site) {
    && Ascending(s.log) && Above(s.log, 0, s.lastId)
    && (s.holder.Some? ==> s.holder.value in s.open)
    && forall tx :: tx in s.open ==>
         && (s.open[tx] != [] ==> s.holder == Some(tx))
         && Ascending(s.open[tx]) && Above(s.open[tx], MaxId(s.log), s.lastId)
  }

  lemma AppendAscends(a: seq<SyncEvent>, b: seq<SyncEvent>, high: nat)
    requires Ascending(a) && Ascending(b) && Above(b, MaxId(a), high) && Above(a, 0, high)
    ensures Ascending(a + b) && Above(a + b, 0, high) && MaxId(a + b) <= high
  {
    MaxIdBounds(a, high);
    var c := a + b;
    assert forall i :: 0 <= i < |c| ==> c[i] == if i < |a| then a[i] else b[i - |a|];
    MaxIdBounds(c, high);
  }

  lemma InsertOrdered(s: Site, step: Step)
    requires Ordered(s) && step.Insert? && Enabled(s, step, true)
    ensures Ordered(Take(s, step))
  {
    MaxIdBounds(s.log, s.lastId);
    var t := Take(s, step);
    var tx := step.tx;
    assert forall i :: 0 <= i < |t.open[tx]| ==>
      t.open[tx][i] == if i < |s.open[tx]| then s.open[tx][i]
                       else SyncEvent(s.lastId + 1, step.project, step.kind, step.account, step.payload);
  }

  lemma CommitOrdered(s: Site, step: Step)
    requires Ordered(s) && step.Commit? && Enabled(s, step, true)
    ensures Ordered(Take(s, step))
  {
    var tx := step.tx;
    AppendAscends(s.log, s.open[tx], s.lastId);
    if s.open[tx] == [] { assert s.log + s.open[tx] == s.log; }
  }

  lemma TakeOrdered(s: Site, step: Step)
    requires Ordered(s) && Enabled(s, step, true)
    ensures Ordered(Take(s, step))
  {
    match step
    case Insert(_, _, _, _, _) => InsertOrdered(s, step);
    case Commit(_) => CommitOrdered(s, step);
    case _ =>
  }

  lemma {:induction false} RunOrdered(s: Site, steps: seq<Step>)
    requires Ordered(s) && EnabledRun(s, steps, true)
    ensures Ordered(Run(s, steps, true))
  {
    hide Ordered, Take;
    if steps != [] {
      var n := |steps| - 1;
      RunOrdered(s, steps[..n]);
      TakeOrdered(Run(s, steps[..n], true), steps[n]);
    }
  }

  // ---------------------------------------------------------------- what a reader may rely on

  /** The log only grows, and only by events above everything committed. */
  predicate GrowsAbove(a: seq<SyncEvent>, b: seq<SyncEvent>, high: nat) {
    a <= b && Above(b[|a|..], MaxId(a), high)
  }

  lemma GrowsFurther(a: seq<SyncEvent>, b: seq<SyncEvent>, c: seq<SyncEvent>, low: nat, high: nat)
    requires GrowsAbove(a, b, low) && GrowsAbove(b, c, high) && low <= high && Above(b, 0, low)
    ensures GrowsAbove(a, c, high)
  {
    MaxIdBounds(b, low);
    MaxIdBounds(a, low) by { assert forall i :: 0 <= i < |a| ==> a[i] == b[i]; }
    if a != [] { MaxIdIsThere(a); }
    forall i | |a| <= i < |c| ensures MaxId(a) < c[i].id <= high {
      if i < |b| { assert c[i] == b[|a|..][i - |a|]; } else { assert c[i] == c[|b|..][i - |b|]; }
    }
    assert forall i :: 0 <= i < |c[|a|..]| ==> c[|a|..][i] == c[|a| + i];
  }

  lemma {:induction false} MaxIdIsThere(es: seq<SyncEvent>)
    requires es != [] && Above(es, 0, MaxId(es) + 1)
    ensures exists i :: 0 <= i < |es| && es[i].id == MaxId(es)
  {
    var init := es[..|es| - 1];
    var m := MaxId(init);
    if es[|es| - 1].id <= m && init != [] {
      assert forall i :: 0 <= i < |init| ==> init[i] == es[i];
      MaxIdIsThere(init);
      var i :| 0 <= i < |init| && init[i].id == m;
      assert es[i].id == MaxId(es);
    }
  }

  /** Once a reader has seen the greatest committed id, no event with an id up to it is ever committed later. */
  lemma {:induction false} NothingBelowIsCommittedLater(s: Site, steps: seq<Step>)
    requires Ordered(s) && EnabledRun(s, steps, true)
    ensures var t := Run(s, steps, true); s.lastId <= t.lastId && GrowsAbove(s.log, t.log, t.lastId)
  {
    hide Ordered, Take;
    if steps != [] {
      var n := |steps| - 1;
      NothingBelowIsCommittedLater(s, steps[..n]);
      RunOrdered(s, steps[..n]);
      var before := Run(s, steps[..n], true);
      StepGrows(before, steps[n]);
      OrderedBounds(before);
      GrowsFurther(s.log, before.log, Take(before, steps[n]).log, before.lastId, Take(before, steps[n]).lastId);
    }
  }

  lemma OrderedBounds(s: Site)
    requires Ordered(s)
    ensures Above(s.log, 0, s.lastId) && Ascending(s.log)
  {
  }

  lemma StepGrows(s: Site, step: Step)
    requires Ordered(s) && Enabled(s, step, true)
    ensures s.lastId <= Take(s, step).lastId && GrowsAbove(s.log, Take(s, step).log, Take(s, step).lastId)
  {
    if step.Commit? { assert (s.log + s.open[step.tx])[|s.log|..] == s.open[step.tx]; }
  }

  // ---------------------------------------------------------------- delivery

  /** What the reader was given, followed by what is pending at its cursor, is everything pending at `first`. */
  predicate Delivers(s: Site, first: nat) {
    && Pending(s.log, s.reader.project, first)
       == s.reader.delivered + Pending(s.log, s.reader.project, s.reader.cursor)
    && s.reader.cursor <= (if MaxId(s.log) > first then MaxId(s.log) else first)
  }

  lemma PollDelivers(s: Site, first: nat)
    requires Ordered(s) && Delivers(s, first)
    ensures Delivers(Take(s, PollOnce), first)
    ensures |Poll(s.log, s.reader.project, s.reader.cursor).0| < PAGE ==>
      Take(s, PollOnce).reader.delivered == Pending(s.log, s.reader.project, first)
  {
    hide Ordered, Pending, MaxId;
    OrderedBounds(s);
    var p, c := s.reader.project, s.reader.cursor;
    var due := Pending(s.log, p, c);
    var (page, next) := Poll(s.log, p, c);
    if page != [] {
      PendingIsOwn(s.log, p, c);
      MaxIdBounds(s.log, s.lastId);
      PendingAdvances(s.log, p, c, |page| - 1);
      assert due == page + due[|page|..];
    }
  }

  lemma CommitDelivers(s: Site, tx: nat, first: nat)
    requires Ordered(s) && Delivers(s, first) && tx in s.open && first <= MaxId(s.log)
    ensures Delivers(Take(s, Commit(tx)), first)
  {
    hide Pending, MaxId, Ascending;
    var p, c, more := s.reader.project, s.reader.cursor, s.open[tx];
    PendingAppends(s.log, more, p, first);
    PendingAppends(s.log, more, p, c);
    PendingAll(more, p, first, c);
    MaxIdOfAppend(s.log, more);
    assert (s.reader.delivered + Pending(s.log, p, c)) + Pending(more, p, c)
        == s.reader.delivered + (Pending(s.log, p, c) + Pending(more, p, c));
  }

  lemma {:induction false} MaxIdOfAppend(a: seq<SyncEvent>, b: seq<SyncEvent>)
    ensures MaxId(a) <= MaxId(a + b)
  {
    if b == [] {
      assert a + b == a;
    } else {
      assert (a + b)[..|a + b| - 1] == a + b[..|b| - 1];
      MaxIdOfAppend(a, b[..|b| - 1]);
    }
  }

  lemma {:induction false} PendingAll(es: seq<SyncEvent>, project: string, low: nat, high: nat)
    requires forall i :: 0 <= i < |es| ==> es[i].id > low && es[i].id > high
    ensures Pending(es, project, low) == Pending(es, project, high)
  {
    if es != [] { PendingAll(es[..|es| - 1], project, low, high); }
  }

  lemma TakeDelivers(s: Site, step: Step, first: nat)
    requires Ordered(s) && Enabled(s, step, true) && Delivers(s, first) && first <= MaxId(s.log)
    ensures Delivers(Take(s, step), first) && first <= MaxId(Take(s, step).log)
    ensures Take(s, step).reader.project == s.reader.project
  {
    match step
    case PollOnce => PollDelivers(s, first);
    case Commit(tx) =>
      CommitDelivers(s, tx, first);
      MaxIdOfAppend(s.log, s.open[tx]);
    case _ =>
  }

  /** Polling `id > after` while transactions run, commit and abort around it: what was delivered is always the first
      part of the project's events in commit order, each once, and nothing is passed over; when a poll answers fewer
      than a page, everything committed so far has been delivered. */
  lemma {:induction false} PollingIsExact(s: Site, steps: seq<Step>)
    requires Ordered(s) && EnabledRun(s, steps, true)
    requires s.reader.delivered == [] && s.reader.cursor <= MaxId(s.log)
    ensures var t := Run(s, steps, true);
            && t.reader.project == s.reader.project
            && Delivers(t, s.reader.cursor) && s.reader.cursor <= MaxId(t.log)
            && t.reader.delivered <= Pending(t.log, s.reader.project, s.reader.cursor)
            && (steps != [] && steps[|steps| - 1].PollOnce?
                && (var before := Run(s, steps[..|steps| - 1], true);
                    |Poll(before.log, before.reader.project, before.reader.cursor).0| < PAGE)
                ==> t.reader.delivered == Pending(t.log, s.reader.project, s.reader.cursor))
  {
    hide Ordered, Take, Pending, Poll, MaxId;
    var first := s.reader.cursor;
    if steps == [] {
      assert s.reader.delivered + Pending(s.log, s.reader.project, first) == Pending(s.log, s.reader.project, first);
    } else {
      var n := |steps| - 1;
      PollingIsExact(s, steps[..n]);
      RunOrdered(s, steps[..n]);
      var before := Run(s, steps[..n], true);
      TakeDelivers(before, steps[n], first);
      if steps[n].PollOnce? {
        PollDelivers(before, first);
        PollKeepsLog(before);
      }
    }
  }

  lemma PollKeepsLog(s: Site)
    ensures Take(s, PollOnce).log == s.log && Take(s, PollOnce).reader.project == s.reader.project
  {
  }

  // ---------------------------------------------------------------- the lock is needed

  const ONE: Step := Insert(1, "p", SessionsRevoked, "u", UserIdOnly)
  const OTHER: Step := Insert(2, "p", SessionsRevoked, "u", UserIdOnly)

  /** Two transactions of the same project: the second draws its id after the first, and commits before it. */
  function Overtaking(): seq<Step> {
    [Begin(1)] + [Begin(2)] + [ONE] + [OTHER] + [Commit(2)] + [PollOnce] + [Commit(1)] + [PollOnce]
  }

  const EMPTY: Site := Site(0, [], None, map[], Reader("p", 0, []))

  function Event(id: nat): SyncEvent {
    SyncEvent(id, "p", SessionsRevoked, "u", UserIdOnly)
  }

  lemma FirstHalf()
    ensures var steps := [Begin(1)] + [Begin(2)] + [ONE] + [OTHER] + [Commit(2)];
            && EnabledRun(EMPTY, steps, false)
            && Run(EMPTY, steps, false) == Site(2, [Event(2)], None, map[1 := [Event(1)]], Reader("p", 0, []))
  {
    hide Run, EnabledRun;
    var none: seq<SyncEvent> := [];
    assert none + [Event(1)] == [Event(1)] && none + [Event(2)] == [Event(2)];
    Nothing(EMPTY);
    assert [] + [Begin(1)] == [Begin(1)];
    var r := [Begin(1)];
    Then(EMPTY, [], Begin(1), EMPTY.(open := map[1 := []]));
    Then(EMPTY, r, Begin(2), EMPTY.(open := map[1 := [], 2 := []]));
    Then(EMPTY, r + [Begin(2)], ONE, EMPTY.(lastId := 1, open := map[1 := [Event(1)], 2 := []]));
    r := r + [Begin(2)] + [ONE];
    Then(EMPTY, r, OTHER, EMPTY.(lastId := 2, open := map[1 := [Event(1)], 2 := [Event(2)]]));
    Then(EMPTY, r + [OTHER], Commit(2), EMPTY.(lastId := 2, log := [Event(2)], open := map[1 := [Event(1)]]));
  }

  lemma Nothing(s: Site)
    ensures EnabledRun(s, [], false) && Run(s, [], false) == s
  {
  }

  /** Without the lock a reader can miss a committed event for good: its cursor is past the id before the commit. */
  lemma WithoutTheLockEventsAreMissed()
    ensures Ordered(EMPTY) && EnabledRun(EMPTY, Overtaking(), false)
    ensures var t := Run(EMPTY, Overtaking(), false);
            && t.log == [Event(2), Event(1)] && t.reader.delivered == [Event(2)]
            && t.log[1].id < t.reader.cursor
  {
    hide Run, EnabledRun, Poll;
    var r := [Begin(1)] + [Begin(2)] + [ONE] + [OTHER] + [Commit(2)];
    var late := Reader("p", 2, [Event(2)]);
    FirstHalf();
    FirstPoll(Event(1), Event(2));
    Polled(Run(EMPTY, r, false), [Event(2)], 2);
    var none: seq<SyncEvent> := [];
    assert none + [Event(2)] == [Event(2)] == [Event(2)] + none;
    assert [Event(2)] + [Event(1)] == [Event(2), Event(1)];
    Then(EMPTY, r, PollOnce, Site(2, [Event(2)], None, map[1 := [Event(1)]], late));
    Then(EMPTY, r + [PollOnce], Commit(1), Site(2, [Event(2), Event(1)], None, map[], late));
    Polled(Run(EMPTY, r + [PollOnce] + [Commit(1)], false), [], 2);
    Then(EMPTY, r + [PollOnce] + [Commit(1)], PollOnce, Site(2, [Event(2), Event(1)], None, map[], late));
  }

  lemma Polled(s: Site, page: seq<SyncEvent>, next: nat)
    requires Poll(s.log, s.reader.project, s.reader.cursor) == (page, next)
    ensures Take(s, PollOnce) == s.(reader := s.reader.(cursor := next, delivered := s.reader.delivered + page))
  {
  }

  lemma Then(s: Site, steps: seq<Step>, step: Step, after: Site)
    requires EnabledRun(s, steps, false) && Enabled(Run(s, steps, false), step, false)
    requires Take(Run(s, steps, false), step) == after
    ensures EnabledRun(s, steps + [step], false) && Run(s, steps + [step], false) == after
  {
    assert (steps + [step])[..|steps|] == steps;
  }

  lemma FirstPoll(one: SyncEvent, two: SyncEvent)
    requires one.id == 1 && two.id == 2 && one.project == two.project == "p"
    ensures Poll([two], "p", 0) == ([two], 2) && Poll([two, one], "p", 2) == ([], 2)
  {
    assert [two, one][..1] == [two] && [two][..0] == [];
    assert Pending([], "p", 0) == [] && Pending([], "p", 2) == [];
    assert Pending([two], "p", 0) == [two] && Pending([two], "p", 2) == [];
  }
}
