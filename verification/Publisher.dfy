/** Several publishers of the outbox next to the whole service: each round locks a row, sends it, and commits the
    outcome, and may fail or crash at any point. */
module Publisher {
  import opened Schema
  import opened Repository
  import opened Service
  import opened DeliveryChannels

  /** A round under way: the row it has locked, and the answer to its send, if it has one. */
  datatype Holding = Holding(row: nat, acknowledged: Option<bool>)

  /** `acks` counts the acknowledgements of each row; `spoiled` counts the rounds that crashed, or failed to commit,
      after an acknowledgement. Both are kept for the statements only. */
  datatype Site = Site(world: World, holdings: map<nat, Holding>, acks: multiset<nat>, spoiled: multiset<nat>)

  datatype Step =
    | Request(request: Service.Request)
    | Pick(publisher: nat, row: nat)
    | Send(publisher: nat, acknowledged: bool)
    | Finish(publisher: nat)
    | Crash(publisher: nat)
    | Sweep

  predicate Locked(s: Site, row: nat) {
    exists p :: p in s.holdings && s.holdings[p].row == row
  }

  /** FOR UPDATE SKIP LOCKED: the oldest unpublished row that nobody has locked. */
  predicate Pickable(s: Site, row: nat) {
    && row in Unpublished(s.world.db.outbox) && !Locked(s, row)
    && forall i :: i in Unpublished(s.world.db.outbox) && !Locked(s, i) ==>
         s.world.db.outbox[row].created <= s.world.db.outbox[i].created
  }

  predicate Enabled(s: Site, step: Step) {
    match step
    case Request(r) => LeavesOutboxAlone(r)
    case Pick(p, row) => p !in s.holdings && Pickable(s, row)
    case Send(p, _) => p in s.holdings && s.holdings[p].acknowledged.None?
    case Finish(p) => p in s.holdings && s.holdings[p].acknowledged.Some? && s.holdings[p].row in s.world.db.outbox
    case Crash(p) => p in s.holdings
    case Sweep => true
  }

  function Acked(h: Holding): multiset<nat> {
    if h.acknowledged == Some(true) then multiset{h.row} else multiset{}
  }

  function Take(s: Site, step: Step): Site
    requires Enabled(s, step)
  {
    match step
    case Request(r) => s.(world := Serve(s.world, r))
    case Pick(p, row) => s.(holdings := s.holdings[p := Holding(row, None)])
    case Send(p, acknowledged) =>
      var h := s.holdings[p].(acknowledged := Some(acknowledged));
      s.(holdings := s.holdings[p := h], acks := s.acks + Acked(h))
    case Finish(p) =>
      var h := s.holdings[p];
      var outbox := RecordSend(s.world.db.outbox, s.world.clock, h.row, h.acknowledged.value);
      s.(world := s.world.(db := s.world.db.(outbox := outbox)), holdings := s.holdings - {p})
    case Crash(p) => s.(holdings := s.holdings - {p}, spoiled := s.spoiled + Acked(s.holdings[p]))
    case Sweep => s.(world := Serve(s.world, Upkeep(DoClean(Statement.Outbox))))
  }

  predicate EnabledRun(s: Site, steps: seq<Step>)
    decreases |steps|, 0
  {
    steps == [] || (EnabledRun(s, steps[..|steps| - 1]) && Enabled(Run(s, steps[..|steps| - 1]), steps[|steps| - 1]))
  }

  function Run(s: Site, steps: seq<Step>): Site
    requires EnabledRun(s, steps)
    decreases |steps|, 1
  {
    if steps == [] then s else Take(Run(s, steps[..|steps| - 1]), steps[|steps| - 1])
  }

  // ---------------------------------------------------------------- the invariant

  /** Every row of the outbox is the twin of an event; every event's row is its twin, as long as it is there. */
  predicate Paired(c: Channels) {
    && (forall i :: i in c.outbox ==> i <= c.lastId && exists k :: 0 <= k < |c.events| && c.events[k].id == i)
    && (forall k :: 0 <= k < |c.events| ==>
          && c.events[k].id <= c.lastId
          && (c.events[k].id in c.outbox ==> Twin(c.outbox[c.events[k].id], c.events[k])))
  }

  predicate Logged(c: Channels, row: nat) {
    exists k :: 0 <= k < |c.events| && c.events[k].id == row
  }

  /** Published, and perhaps cleaned up since. */
  predicate Done(c: Channels, row: nat) {
    Logged(c, row) && (row in c.outbox ==> c.outbox[row].published.Some?)
  }

  ghost predicate Acknowledged(s: Site, row: nat) {
    exists p :: p in s.holdings && s.holdings[p] == Holding(row, Some(true))
  }

  /** A locked row is unpublished, and has one holder. */
  predicate Exclusive(s: Site) {
    && (forall p :: p in s.holdings ==> s.holdings[p].row in Unpublished(s.world.db.outbox))
    && (forall p, q :: p in s.holdings && q in s.holdings && s.holdings[p].row == s.holdings[q].row ==> p == q)
  }

  /** Every acknowledgement of a row published it, was spoiled, or belongs to the round that holds it. */
  ghost predicate Counted(s: Site) {
    forall i :: s.acks[i] == s.spoiled[i] + (if Done(ChannelsOf(s.world.db), i) then 1 else 0)
                             + (if Acknowledged(s, i) then 1 else 0)
  }

  ghost predicate Sound(s: Site) {
    Paired(ChannelsOf(s.world.db)) && Exclusive(s) && Counted(s)
  }

  // ---------------------------------------------------------------- requests of the service

  lemma GrowthPairs(now: nat, a: Channels, b: Channels)
    requires Paired(a) && Grows(now, a, b)
    ensures Paired(b)
  {
    forall i | i in b.outbox ensures i <= b.lastId && exists k :: 0 <= k < |b.events| && b.events[k].id == i {
      if i in a.outbox && b.outbox[i] == a.outbox[i] {
        var k :| 0 <= k < |a.events| && a.events[k].id == i;
        assert b.events[k].id == i;
      }
    }
    forall k | 0 <= k < |b.events| && b.events[k].id in b.outbox
      ensures Twin(b.outbox[b.events[k].id], b.events[k])
    {
      if k < |a.events| { assert b.events[k] == a.events[k]; }
    }
    assert forall k :: 0 <= k < |b.events| ==> b.events[k] == if k < |a.events| then a.events[k] else b.events[k];
  }

  lemma GrowthKeepsDone(now: nat, a: Channels, b: Channels, row: nat)
    requires Paired(a) && Grows(now, a, b)
    ensures Done(a, row) <==> Done(b, row)
  {
    assert forall k :: 0 <= k < |a.events| ==> a.events[k] == b.events[k];
    if Logged(a, row) {
      var k :| 0 <= k < |a.events| && a.events[k].id == row;
      assert b.events[k].id == row;
    } else if Logged(b, row) {
      var k :| 0 <= k < |b.events| && b.events[k].id == row;
      assert row in b.outbox && row !in a.outbox;
    }
  }

  lemma RequestSound(s: Site, r: Service.Request)
    requires Sound(s) && LeavesOutboxAlone(r)
    ensures Sound(Take(s, Request(r)))
  {
    hide Handle, Paired, Grows, Done, ChannelsOf;
    var a, b := ChannelsOf(s.world.db), ChannelsOf(Serve(s.world, r).db);
    HandleGrows(s.world.db, s.world.clock, r);
    GrowthPairs(s.world.clock, a, b);
    GrowthKeepsRows(s.world.clock, s.world.db, Serve(s.world, r).db);
    var t := Take(s, Request(r));
    forall i ensures Done(a, i) == Done(b, i) { GrowthKeepsDone(s.world.clock, a, b, i); }
    assert forall i :: Acknowledged(s, i) == Acknowledged(t, i);
  }

  lemma GrowthKeepsRows(now: nat, a: Tables, b: Tables)
    requires Paired(ChannelsOf(a)) && Grows(now, ChannelsOf(a), ChannelsOf(b))
    ensures forall i :: i in Unpublished(a.outbox) ==> i in Unpublished(b.outbox)
  {
  }

  // ---------------------------------------------------------------- a publisher's round

  lemma PickSound(s: Site, p: nat, row: nat)
    requires Sound(s) && Enabled(s, Pick(p, row))
    ensures Sound(Take(s, Pick(p, row)))
  {
    hide Paired, Done;
    var t := Take(s, Pick(p, row));
    forall i ensures Acknowledged(s, i) == Acknowledged(t, i) {
      if Acknowledged(s, i) {
        var q :| q in s.holdings && s.holdings[q] == Holding(i, Some(true));
        assert t.holdings[q] == Holding(i, Some(true));
      }
    }
  }

  lemma SendSound(s: Site, p: nat, acknowledged: bool)
    requires Sound(s) && Enabled(s, Send(p, acknowledged))
    ensures Sound(Take(s, Send(p, acknowledged)))
  {
    hide Paired, Done;
    var t := Take(s, Send(p, acknowledged));
    var row := s.holdings[p].row;
    if acknowledged { assert t.holdings[p] == Holding(row, Some(true)); }
    forall i | i != row || !acknowledged ensures Acknowledged(s, i) == Acknowledged(t, i) {
      if Acknowledged(s, i) {
        var q :| q in s.holdings && s.holdings[q] == Holding(i, Some(true));
        assert q != p && t.holdings[q] == Holding(i, Some(true));
      }
    }
    assert !Acknowledged(s, row);
  }

  lemma ReleaseKeeps(s: Site, t: Site, p: nat)
    requires p in s.holdings && t.holdings == s.holdings - {p} && Exclusive(s)
    ensures forall i :: i != s.holdings[p].row ==> Acknowledged(s, i) == Acknowledged(t, i)
    ensures !Acknowledged(t, s.holdings[p].row)
    ensures Acknowledged(s, s.holdings[p].row) <==> s.holdings[p].acknowledged == Some(true)
  {
    forall i | i != s.holdings[p].row ensures Acknowledged(s, i) == Acknowledged(t, i) {
      if Acknowledged(s, i) {
        var q :| q in s.holdings && s.holdings[q] == Holding(i, Some(true));
        assert t.holdings[q] == Holding(i, Some(true));
      }
    }
    if s.holdings[p].acknowledged == Some(true) { assert s.holdings[p] == Holding(s.holdings[p].row, Some(true)); }
  }

  lemma CrashSound(s: Site, p: nat)
    requires Sound(s) && Enabled(s, Crash(p))
    ensures Sound(Take(s, Crash(p)))
  {
    hide Paired, Done, Acknowledged;
    ReleaseKeeps(s, Take(s, Crash(p)), p);
  }

  lemma RecordPairs(c: Channels, now: nat, row: nat, acknowledged: bool)
    requires Paired(c) && row in Unpublished(c.outbox)
    ensures Paired(c.(outbox := RecordSend(c.outbox, now, row, acknowledged)))
  {
  }

  lemma RecordDoes(c: Channels, now: nat, row: nat, acknowledged: bool)
    requires Paired(c) && row in Unpublished(c.outbox)
    ensures var after := c.(outbox := RecordSend(c.outbox, now, row, acknowledged));
            && (forall i :: i != row ==> Done(after, i) == Done(c, i))
            && (Done(after, row) <==> acknowledged) && !Done(c, row)
  {
    hide Logged;
    var after := c.(outbox := RecordSend(c.outbox, now, row, acknowledged));
    forall i ensures Logged(c, i) == Logged(after, i) { SameLogged(c, after, i); }
    RowIsLogged(c, row);
  }

  lemma SameLogged(c: Channels, d: Channels, row: nat)
    requires c.events == d.events
    ensures Logged(c, row) == Logged(d, row)
  {
  }

  lemma RowIsLogged(c: Channels, row: nat)
    requires Paired(c) && row in c.outbox
    ensures Logged(c, row)
  {
  }

  lemma RecordFrees(outbox: map<nat, OutboxRow>, now: nat, row: nat, acknowledged: bool)
    requires row in Unpublished(outbox)
    ensures Unpublished(RecordSend(outbox, now, row, acknowledged))
            == Unpublished(outbox) - (if acknowledged then {row} else {})
  {
  }

  lemma FinishSound(s: Site, p: nat)
    requires Sound(s) && Enabled(s, Finish(p))
    ensures Sound(Take(s, Finish(p)))
  {
    hide Paired, Done, Acknowledged, RecordSend, Unpublished;
    var h := s.holdings[p];
    var t := Take(s, Finish(p));
    ReleaseKeeps(s, t, p);
    RecordPairs(ChannelsOf(s.world.db), s.world.clock, h.row, h.acknowledged.value);
    RecordDoes(ChannelsOf(s.world.db), s.world.clock, h.row, h.acknowledged.value);
    RecordFrees(s.world.db.outbox, s.world.clock, h.row, h.acknowledged.value);
  }

  lemma SweepKeeps(c: Channels, rest: map<nat, OutboxRow>)
    requires Paired(c) && rest.Keys <= c.outbox.Keys
    requires forall i :: i in c.outbox ==> if i in rest then rest[i] == c.outbox[i] else c.outbox[i].published.Some?
    ensures var after := c.(outbox := rest);
            Paired(after) && (forall i :: Done(after, i) == Done(c, i)) && Unpublished(rest) == Unpublished(c.outbox)
  {
    var after := c.(outbox := rest);
    assert forall i :: Logged(c, i) == Logged(after, i);
    assert forall i :: i in rest ==> i in c.outbox && rest[i] == c.outbox[i];
  }

  lemma SweepSound(s: Site)
    requires Sound(s)
    ensures Sound(Take(s, Sweep))
  {
    hide Paired, Done, Unpublished;
    var t := Take(s, Sweep);
    SweepKeeps(ChannelsOf(s.world.db), t.world.db.outbox);
    assert forall i :: Acknowledged(s, i) == Acknowledged(t, i);
  }

  lemma TakeSound(s: Site, step: Step)
    requires Sound(s) && Enabled(s, step)
    ensures Sound(Take(s, step))
  {
    hide Sound, Take;
    match step
    case Request(r) => RequestSound(s, r);
    case Pick(p, row) => PickSound(s, p, row);
    case Send(p, acknowledged) => SendSound(s, p, acknowledged);
    case Finish(p) => FinishSound(s, p);
    case Crash(p) => CrashSound(s, p);
    case Sweep => SweepSound(s);
  }

  /** From a database whose channels are empty, with no round under way. */
  predicate Initial(s: Site) {
    && s.world.db.outbox == map[] && s.world.db.events == []
    && s.holdings == map[] && s.acks == multiset{} && s.spoiled == multiset{}
  }

  lemma {:induction false} RunSound(s: Site, steps: seq<Step>)
    requires Initial(s) && EnabledRun(s, steps)
    ensures Sound(Run(s, steps))
  {
    hide Take;
    if steps != [] {
      hide Sound, Initial;
      RunSound(s, steps[..|steps| - 1]);
      TakeSound(Run(s, steps[..|steps| - 1]), steps[|steps| - 1]);
    }
  }

  // ---------------------------------------------------------------- at least once

  lemma AcknowledgedIsUnpublished(s: Site, row: nat)
    requires Exclusive(s)
    ensures Acknowledged(s, row) ==> row in Unpublished(s.world.db.outbox)
  {
  }

  /** Over any run of requests, rounds, failures, crashes and clean-ups, for every event: its outbox row carries the
      same project, kind and payload; the row is published or gone only after an acknowledgement; at most one round
      holds it; and its acknowledgements are at most one more than the rounds spoiled after one. */
  lemma AtLeastOnce(s: Site, steps: seq<Step>)
    requires Initial(s) && EnabledRun(s, steps)
    ensures var t := Run(s, steps);
            forall k :: 0 <= k < |t.world.db.events| ==>
              var e := t.world.db.events[k];
              && (e.id in t.world.db.outbox ==> Twin(t.world.db.outbox[e.id], e))
              && (e.id !in t.world.db.outbox || t.world.db.outbox[e.id].published.Some? ==> t.acks[e.id] >= 1)
              && t.acks[e.id] <= 1 + t.spoiled[e.id]
    ensures var t := Run(s, steps);
            forall i :: i in t.world.db.outbox ==>
              exists k :: 0 <= k < |t.world.db.events| && t.world.db.events[k].id == i
    ensures Exclusive(Run(s, steps))
  {
    RunSound(s, steps);
    var t := Run(s, steps);
    var c := ChannelsOf(t.world.db);
    forall k | 0 <= k < |c.events|
      ensures c.events[k].id !in c.outbox || c.outbox[c.events[k].id].published.Some? ==> t.acks[c.events[k].id] >= 1
      ensures t.acks[c.events[k].id] <= 1 + t.spoiled[c.events[k].id]
    {
      var row := c.events[k].id;
      assert Logged(c, row);
      AcknowledgedIsUnpublished(t, row);
    }
  }
}
