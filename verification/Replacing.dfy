/** The consumer that replaces a user's row by the payload it receives, where the model's consumer merges fields: it
    ends with the same users, and loses `old_id` exactly where the last thing it wrote lacks that key. */
module Replacing {
  import opened Order
  import opened Schema
  import opened Repository
  import opened Service
  import opened ChangeLog
  import opened Transactions
  import opened Bootstrap
  import opened History
  import opened Replica
  import opened Consumer

  /** As Consume, but a payload without `old_id` leaves none. */
  function ConsumeWhole(row: Option<UserRow>, kind: Kind, payload: Payload): Option<UserRow> {
    match Consume(row, kind, payload)
    case None => None
    case Some(r) =>
      if !kind.SessionsRevoked? && payload.ProfileOnly? then Some(r.(oldId := None)) else Some(r)
  }

  function ApplyWhole(users: UserMap, e: SyncEvent): UserMap {
    match ConsumeWhole(Find(users, e.account), e.kind, e.payload)
    case Some(row) => users[e.account := row]
    case None => users - {e.account}
  }

  function ApplyAllWhole(users: UserMap, es: seq<SyncEvent>): UserMap {
    if es == [] then users else ApplyWhole(ApplyAllWhole(users, es[..|es| - 1]), es[|es| - 1])
  }

  /** What a consumer writes to its copy, in order. */
  datatype Write = PageRead(users: set<string>) | Applied(event: SyncEvent)

  function Writes(es: seq<SyncEvent>): seq<Write> {
    seq(|es|, i requires 0 <= i < |es| => Applied(es[i]))
  }

  /** The replacing consumer beside the merging one, on the same reads. */
  datatype Copy = Copy(users: UserMap, writes: seq<Write>)

  function FirstCopy(page: SnapshotPage): Copy {
    Copy(page.users, [PageRead(page.users.Keys)])
  }

  function Receive(c: Copy, es: seq<SyncEvent>): Copy {
    Copy(ApplyAllWhole(c.users, es), c.writes + Writes(es))
  }

  /** `s` is the merging consumer before the move; both read the same. */
  function PlayCopy(s: Follower, c: Copy, m: Move): Copy {
    match m
    case Elsewhere(_) => c
    case Read =>
      (match s.phase
       case Loading(after) =>
         var page := Snapshot(s.world.db, s.project, after, Some(s.cursor));
         Copy(c.users + page.users, c.writes + [PageRead(page.users.Keys)])
       case Draining => Receive(c, Changes(s.world.db, s.project, s.cursor).0))
    case Interrupted(n) => Receive(c, Delivered(s, n))
    case Redeliver(_) => c
    case Reload => FirstCopy(Snapshot(s.world.db, s.project, "", None))
  }

  function PlayCopies(s: Follower, ms: seq<Move>): Copy {
    if ms == [] then FirstCopy(Snapshot(s.world.db, s.project, "", None))
    else PlayCopy(PlayAll(s, ms[..|ms| - 1]), PlayCopies(s, ms[..|ms| - 1]), ms[|ms| - 1])
  }

  /** Whether the last thing written about a user was a payload without `old_id`: no page with the user and no full
      payload came after it. */
  predicate Stripped(ws: seq<Write>, u: string) {
    ws != [] &&
    (var before := Stripped(ws[..|ws| - 1], u);
     match ws[|ws| - 1]
     case PageRead(users) => u !in users && before
     case Applied(e) =>
       if e.account != u || e.kind.SessionsRevoked? || (!e.kind.AccessRevoked? && e.payload.UserIdOnly?) then before
       else !e.kind.AccessRevoked? && e.payload.ProfileOnly?)
  }

  // ---------------------------------------------------------------- the same users, up to old_id

  predicate SameRow(x: Option<UserRow>, y: Option<UserRow>) {
    x.Some? == y.Some? && (x.Some? ==> x.value.(oldId := None) == y.value.(oldId := None))
  }

  predicate SameUser(a: UserMap, b: UserMap, u: string) {
    SameRow(Find(a, u), Find(b, u))
  }

  lemma {:induction false} ApplySame(a: UserMap, b: UserMap, es: seq<SyncEvent>, u: string)
    requires forall v :: SameUser(a, b, v)
    ensures SameUser(ApplyAllWhole(a, es), ApplyAll(b, es), u)
  {
    if es != [] { ApplySame(a, b, es[..|es| - 1], u); }
    if es != [] {
      var e := es[|es| - 1];
      ApplySame(a, b, es[..|es| - 1], e.account);
    }
  }

  // ---------------------------------------------------------------- where old_id is kept

  /** The copy of a user has the account's `old_id` if it was not stripped, and none if it was. */
  predicate TellsOldId(c: Copy, db: Tables, u: string) {
    u in c.users ==>
      if Stripped(c.writes, u) then c.users[u].oldId == None
      else u in db.accounts && c.users[u].oldId == db.accounts[u].oldId
  }

  predicate Faithful(e: SyncEvent, db: Tables) {
    && (e.kind.AccessGranted? ==> e.payload.FullUser?)
    && (e.payload.FullUser? ==> e.account in db.accounts && e.payload.oldId == db.accounts[e.account].oldId)
  }

  lemma ReceiveOne(c: Copy, e: SyncEvent, db: Tables, u: string)
    requires TellsOldId(c, db, u) && Faithful(e, db)
    ensures TellsOldId(Copy(ApplyWhole(c.users, e), c.writes + [Applied(e)]), db, u)
  {
    var after := c.writes + [Applied(e)];
    assert after[..|after| - 1] == c.writes;
  }

  lemma {:induction false} ReceiveTells(c: Copy, es: seq<SyncEvent>, db: Tables, u: string)
    requires TellsOldId(c, db, u) && forall i :: 0 <= i < |es| ==> Faithful(es[i], db)
    ensures TellsOldId(Receive(c, es), db, u)
  {
    hide TellsOldId, Faithful, ApplyWhole;
    if es == [] {
      assert c.writes + Writes(es) == c.writes;
    } else {
      var init, e := es[..|es| - 1], es[|es| - 1];
      ReceiveTells(c, init, db, u);
      ReceiveOne(Receive(c, init), e, db, u);
      assert Writes(es) == Writes(init) + [Applied(e)];
      assert c.writes + Writes(es) == (c.writes + Writes(init)) + [Applied(e)];
    }
  }

  lemma PageTells(c: Copy, page: SnapshotPage, db: Tables, u: string)
    requires TellsOldId(c, db, u)
    requires u in page.users ==> u in db.accounts && page.users[u].oldId == db.accounts[u].oldId
    ensures TellsOldId(Copy(c.users + page.users, c.writes + [PageRead(page.users.Keys)]), db, u)
  {
    var after := c.writes + [PageRead(page.users.Keys)];
    assert after[..|after| - 1] == c.writes;
  }

  lemma FirstTells(page: SnapshotPage, db: Tables, u: string)
    requires u in page.users ==> u in db.accounts && page.users[u].oldId == db.accounts[u].oldId
    ensures TellsOldId(FirstCopy(page), db, u)
  {
    var w := [PageRead(page.users.Keys)];
    assert w[..0] == [];
  }

  lemma PageIsGenuine(db: Tables, project: string, after: string, requested: Option<nat>, u: string)
    ensures var page := Snapshot(db, project, after, requested);
            u in page.users ==> u in db.accounts && page.users[u].oldId == db.accounts[u].oldId
  {
    hide UsersAbove, MaxId;
  }

  // ---------------------------------------------------------------- the invariant

  /** Events above the first cursor carry the account's own `old_id` when they carry one. */
  predicate GenuineSince(db: Tables, first: nat) {
    forall i :: 0 <= i < |db.events| && db.events[i].id > first ==> Faithful(db.events[i], db)
  }

  ghost predicate CopyOk(s: Follower, c: Copy) {
    && GenuineSince(s.world.db, s.first)
    && (forall u :: SameUser(c.users, s.users, u))
    && (forall u :: TellsOldId(c, s.world.db, u))
  }

  lemma FirstCopyOk(w: World, project: string)
    requires InOrder(w.db)
    ensures CopyOk(Start(w, project), FirstCopy(Snapshot(w.db, project, "", None)))
  {
    hide Snapshot, TellsOldId, InOrder;
    var page := Snapshot(w.db, project, "", None);
    NothingSince(w, project);
    forall u ensures TellsOldId(FirstCopy(page), w.db, u) {
      PageIsGenuine(w.db, project, "", None, u);
      FirstTells(page, w.db, u);
    }
  }

  lemma NothingSince(w: World, project: string)
    requires InOrder(w.db)
    ensures GenuineSince(w.db, Snapshot(w.db, project, "", None).cursor)
  {
    MaxIdBounds(w.db.events, w.db.lastId);
  }

  lemma ReceiveOk(s: Follower, c: Copy, es: seq<SyncEvent>)
    requires CopyOk(s, c) && s.first <= s.cursor && es <= Due(s)
    ensures (forall u :: SameUser(Receive(c, es).users, ApplyAll(s.users, es), u))
            && (forall u :: TellsOldId(Receive(c, es), s.world.db, u))
  {
    hide TellsOldId, SameUser, Faithful, ApplyAll, ApplyAllWhole;
    PendingIsOwn(s.world.db.events, s.project, s.cursor);
    assert forall i :: 0 <= i < |es| ==> Faithful(es[i], s.world.db) by {
      forall i | 0 <= i < |es| ensures Faithful(es[i], s.world.db) {
        assert es[i] == Due(s)[i] && es[i] in s.world.db.events;
      }
    }
    forall u ensures SameUser(Receive(c, es).users, ApplyAll(s.users, es), u) { ApplySame(c.users, s.users, es, u); }
    forall u ensures TellsOldId(Receive(c, es), s.world.db, u) { ReceiveTells(c, es, s.world.db, u); }
  }

  lemma LoadCopyOk(s: Follower, c: Copy)
    requires CopyOk(s, c) && s.phase.Loading?
    ensures CopyOk(Play(s, Read), PlayCopy(s, c, Read))
  {
    hide TellsOldId, Snapshot, GenuineSince;
    var page := Snapshot(s.world.db, s.project, s.phase.after, Some(s.cursor));
    var after := PlayCopy(s, c, Read);
    forall u ensures TellsOldId(after, s.world.db, u) {
      PageIsGenuine(s.world.db, s.project, s.phase.after, Some(s.cursor), u);
      PageTells(c, page, s.world.db, u);
    }
    assert forall u :: SameUser(after.users, Play(s, Read).users, u) by {
      forall u ensures SameUser(after.users, Play(s, Read).users, u) { assert SameUser(c.users, s.users, u); }
    }
  }

  lemma DrainCopyOk(s: Follower, c: Copy)
    requires CopyOk(s, c) && s.first <= s.cursor && s.phase.Draining?
    ensures CopyOk(Play(s, Read), PlayCopy(s, c, Read))
  {
    hide TellsOldId, SameUser, GenuineSince, ApplyAll, ApplyAllWhole;
    ReceiveOk(s, c, Changes(s.world.db, s.project, s.cursor).0);
  }

  lemma InterruptedCopyOk(s: Follower, c: Copy, n: nat)
    requires CopyOk(s, c) && s.first <= s.cursor
    ensures CopyOk(Play(s, Interrupted(n)), PlayCopy(s, c, Interrupted(n)))
  {
    hide TellsOldId, SameUser, GenuineSince, ApplyAll, ApplyAllWhole;
    DeliveredIsFirst(s, n);
    ReceiveOk(s, c, Delivered(s, n));
  }

  lemma LaterFaithful(e: SyncEvent, a: Tables, b: Tables)
    requires Faithful(e, a) && KeepsOldIds(a, b)
    ensures Faithful(e, b)
  {
  }

  lemma LaterTells(c: Copy, a: Tables, b: Tables, u: string)
    requires TellsOldId(c, a, u) && KeepsOldIds(a, b)
    ensures TellsOldId(c, b, u)
  {
  }

  lemma GenuineGrows(a: Tables, b: Tables, first: nat)
    requires GenuineSince(a, first) && Logs(a, b)
    ensures GenuineSince(b, first)
  {
    hide Faithful, Explains;
    assert b.events == a.events + Since(a, b);
    forall i | 0 <= i < |b.events| && b.events[i].id > first ensures Faithful(b.events[i], b) {
      if i < |a.events| {
        assert b.events[i] == a.events[i];
        LaterFaithful(a.events[i], a, b);
      } else {
        GenuineIsFaithful(Since(a, b), b, i - |a.events|);
      }
    }
  }

  lemma GenuineIsFaithful(es: seq<SyncEvent>, db: Tables, i: nat)
    requires Genuine(es, db) && i < |es|
    ensures Faithful(es[i], db)
  {
  }

  lemma ElsewhereCopyOk(s: Follower, c: Copy, r: Request)
    requires CopyOk(s, c) && Standing(s.world.db) && Admissible(s.world, r) && Logged(s.world.db, r)
    ensures CopyOk(Play(s, Elsewhere(r)), c)
  {
    hide Admissible, Serve, Standing, Logged, TellsOldId, GenuineSince, Explains, Genuine;
    var a, b := s.world.db, Serve(s.world, r).db;
    ServeKeeps(s.world, r);
    GenuineGrows(a, b, s.first);
    forall u ensures TellsOldId(c, b, u) { LaterTells(c, a, b, u); }
  }

  lemma PlayCopyOk(s: Follower, c: Copy, m: Move)
    requires FollowerOk(s) && CopyOk(s, c)
    requires m.Elsewhere? ==> Admissible(s.world, m.request) && Logged(s.world.db, m.request)
    ensures CopyOk(Play(s, m), PlayCopy(s, c, m))
  {
    hide UserOk, Standing, InOrder, Admissible, Logged, Serve, TellsOldId, GenuineSince, Start, Advance, Receive,
         ApplyAll, Snapshot, Delivered;
    match m
    case Elsewhere(r) => ElsewhereCopyOk(s, c, r);
    case Read => if s.phase.Loading? { LoadCopyOk(s, c); } else { DrainCopyOk(s, c); }
    case Interrupted(n) => InterruptedCopyOk(s, c, n);
    case Redeliver(_) =>
    case Reload => FirstCopyOk(s.world, s.project);
  }

  lemma {:induction false} PlayCopiesOk(w: World, project: string, ms: seq<Move>)
    requires Standing(w.db) && InOrder(w.db) && Playable(Start(w, project), ms)
    ensures CopyOk(PlayAll(Start(w, project), ms), PlayCopies(Start(w, project), ms))
  {
    hide FollowerOk, CopyOk, Play, PlayCopy, Admissible, Logged, Standing, InOrder, Snapshot, View;
    var s := Start(w, project);
    if ms == [] {
      FirstCopyOk(w, project);
    } else {
      var n := |ms| - 1;
      StartOk(w, project);
      PlayAllOk(s, ms[..n]);
      PlayCopiesOk(w, project, ms[..n]);
      PlayCopyOk(PlayAll(s, ms[..n]), PlayCopies(s, ms[..n]), ms[n]);
    }
  }

  // ---------------------------------------------------------------- what it ends with

  /** In the situation of Convergence the replacing consumer has the same users with the same profiles and roles, and
      it has exactly the user list if and only if no listed user with an `old_id` was stripped of it. */
  lemma ReplacingConverges(w: World, project: string, ms: seq<Move>)
    requires Standing(w.db) && InOrder(w.db)
    requires Playable(Start(w, project), ms)
    requires var s := PlayAll(Start(w, project), ms);
             s.phase.Draining? && |Changes(s.world.db, project, s.cursor).0| < PAGE
    ensures var s := PlayAll(Start(w, project), ms);
            var view := View(s.world.db, project);
            var c := PlayCopy(s, PlayCopies(Start(w, project), ms), Read);
            && (forall u :: SameUser(c.users, view, u))
            && (c.users == view <==> forall u :: u in view && view[u].oldId.Some? ==> !Stripped(c.writes, u))
  {
    hide Standing, InOrder, Playable, PlayAll, PlayCopies, Start, Changes, PlayCopy, Advance, View, GenuineSince,
         FollowerOk, SameRow;
    var s := PlayAll(Start(w, project), ms);
    StartOk(w, project);
    PlayAllOk(Start(w, project), ms);
    Convergence(w, project, ms);
    PlayCopiesOk(w, project, ms);
    var before := PlayCopies(Start(w, project), ms);
    PlayCopyOk(s, before, Read);
    var t, c := Play(s, Read), PlayCopy(s, before, Read);
    ReadKeepsWorld(s);
    ProjectKept(Start(w, project), ms);
    ExactWhereKept(c, t.world.db, project);
  }

  lemma ReadKeepsWorld(s: Follower)
    ensures Play(s, Read).world == s.world && Play(s, Read).project == s.project
  {
    hide Snapshot, Changes, ApplyAll;
  }

  lemma ExactWhereKept(c: Copy, db: Tables, project: string)
    requires (forall u :: SameUser(c.users, View(db, project), u)) && forall u :: TellsOldId(c, db, u)
    ensures var view := View(db, project);
            c.users == view <==> forall u :: u in view && view[u].oldId.Some? ==> !Stripped(c.writes, u)
  {
    hide Stripped;
    var view := View(db, project);
    if c.users == view {
      forall u | u in view && view[u].oldId.Some? ensures !Stripped(c.writes, u) { assert TellsOldId(c, db, u); }
    }
    if forall u :: u in view && view[u].oldId.Some? ==> !Stripped(c.writes, u) {
      forall u ensures Find(c.users, u) == Find(view, u) {
        assert SameUser(c.users, view, u) && TellsOldId(c, db, u);
      }
      MapsAgree(c.users, view);
    }
  }
}
