/** The replica protocol: a consumer that loads snapshot pages read at different times and then drains the
    change log from the first page's cursor ends with the user list the database has. */
module Replica {
  import opened Order
  import opened Schema
  import opened Repository
  import opened Service
  import opened ChangeLog

  type UserMap = map<string, UserRow>

  function Find(users: UserMap, u: string): Option<UserRow> {
    if u in users then Some(users[u]) else None
  }

  /** The snapshot query of a project, without its page limit. */
  function View(db: Tables, project: string): UserMap {
    map u | u in db.accounts && Row(db, project, u).Some? :: Row(db, project, u).value
  }

  lemma ViewIsRows(db: Tables, project: string, u: string)
    ensures Find(View(db, project), u) == Row(db, project, u)
  {
  }

  // ---------------------------------------------------------------- Snapshot

  const PAGE: nat := 200

  function MaxId(es: seq<SyncEvent>): nat {
    if es == [] then 0 else
      var m := MaxId(es[..|es| - 1]);
      if es[|es| - 1].id > m then es[|es| - 1].id else m
  }

  datatype SnapshotPage = SnapshotPage(cursor: nat, users: UserMap, next: string)

  function UsersAbove(db: Tables, project: string, after: string): seq<string> {
    Listing(set u | u in View(db, project) && Less(after, u))
  }

  /** One page, in one read-only transaction. The 201st row is read only to learn whether there is a next page. */
  function Snapshot(db: Tables, project: string, after: string, requested: Option<nat>): SnapshotPage {
    var ids := UsersAbove(db, project, after);
    var more := |ids| > PAGE;
    var page := if more then ids[..PAGE] else ids;
    SnapshotPage(
      if requested.Some? then requested.value else MaxId(db.events),
      map u | u in page && u in View(db, project) :: View(db, project)[u],
      if more then page[PAGE - 1] else "")
  }

  /** A page as a list of rows in the order of their ids. */
  ghost predicate PageOf(page: SnapshotPage, cursor: nat, users: seq<(string, UserRow)>, next: string) {
    && cursor == page.cursor && next == page.next && |users| <= PAGE
    && (forall u :: u in page.users <==> exists i :: 0 <= i < |users| && users[i].0 == u)
    && (forall i :: 0 <= i < |users| ==> users[i].0 in page.users && users[i].1 == page.users[users[i].0])
    && (forall i, j :: 0 <= i < j < |users| ==> Less(users[i].0, users[j].0))
  }

  lemma AboveAreViewed(db: Tables, project: string, after: string)
    ensures Ascends(UsersAbove(db, project, after))
    ensures forall i :: 0 <= i < |UsersAbove(db, project, after)| ==>
            UsersAbove(db, project, after)[i] in View(db, project)
  {
    hide View;
    var ids := UsersAbove(db, project, after);
    forall i | 0 <= i < |ids| ensures ids[i] in View(db, project) { assert ids[i] in ids; }
  }

  /** The first 200 rows of the query, in order, are the page. */
  lemma RowsArePage(db: Tables, project: string, after: string, requested: Option<nat>, users: seq<(string, UserRow)>)
    requires var ids := UsersAbove(db, project, after);
             |users| == (if |ids| > PAGE then PAGE else |ids|)
             && forall k :: 0 <= k < |users| ==>
               ids[k] in View(db, project) && users[k] == (ids[k], View(db, project)[ids[k]])
    ensures var page := Snapshot(db, project, after, requested); PageOf(page, page.cursor, users, page.next)
  {
    hide View, UsersAbove, MaxId, Less;
    var ids := UsersAbove(db, project, after);
    var page := Snapshot(db, project, after, requested);
    AboveAreViewed(db, project, after);
    var shown := if |ids| > PAGE then ids[..PAGE] else ids;
    forall u | u in page.users ensures exists i :: 0 <= i < |users| && users[i].0 == u {
      var i :| 0 <= i < |shown| && shown[i] == u;
      assert users[i].0 == u;
    }
    forall i | 0 <= i < |users| ensures users[i].0 in page.users && users[i].1 == page.users[users[i].0] {
      assert shown[i] == users[i].0;
    }
  }

  // ---------------------------------------------------------------- Changes

  /** The events of a project above a cursor. */
  function Pending(es: seq<SyncEvent>, project: string, after: nat): seq<SyncEvent> {
    if es == [] then [] else
      var e := es[|es| - 1];
      Pending(es[..|es| - 1], project, after) + if e.project == project && e.id > after then [e] else []
  }

  /** The first 200 of them, and the cursor after the last of those. */
  function Poll(es: seq<SyncEvent>, project: string, after: nat): (seq<SyncEvent>, nat) {
    var all := Pending(es, project, after);
    var page := if |all| > PAGE then all[..PAGE] else all;
    (page, if page == [] then after else page[|page| - 1].id)
  }

  function Changes(db: Tables, project: string, after: nat): (seq<SyncEvent>, nat) {
    Poll(db.events, project, after)
  }

  lemma {:induction false} PendingAppends(a: seq<SyncEvent>, b: seq<SyncEvent>, project: string, after: nat)
    ensures Pending(a + b, project, after) == Pending(a, project, after) + Pending(b, project, after)
  {
    if b == [] {
      assert a + b == a;
    } else {
      var c := b[..|b| - 1];
      assert (a + b)[..|a + b| - 1] == a + c;
      PendingAppends(a, c, project, after);
    }
  }

  lemma {:induction false} PendingIsOwn(es: seq<SyncEvent>, project: string, after: nat)
    ensures forall i :: 0 <= i < |Pending(es, project, after)| ==>
      var e := Pending(es, project, after)[i];
      e.project == project && e.id > after && e in es
  {
    if es != [] {
      PendingIsOwn(es[..|es| - 1], project, after);
    }
  }

  /** Events of other projects do not touch a row, so replaying only the pending ones is the same. */
  lemma {:induction false} ReplayPending(row: Option<UserRow>, es: seq<SyncEvent>, project: string, after: nat,
                                         u: string)
    requires forall i :: 0 <= i < |es| ==> es[i].id > after
    ensures Replay(row, Pending(es, project, after), project, u) == Replay(row, es, project, u)
    ensures Lands(row, Pending(es, project, after), project, u) == Lands(row, es, project, u)
  {
    if es != [] {
      var init := es[..|es| - 1];
      ReplayPending(row, init, project, after, u);
      var e := es[|es| - 1];
      if e.project == project {
        assert Pending(es, project, after)[..|Pending(es, project, after)| - 1] == Pending(init, project, after);
      } else {
        assert Pending(es, project, after) == Pending(init, project, after);
      }
    }
  }

  // ---------------------------------------------------------------- replaying again

  /** An event after which nothing of the row before it is left. */
  predicate Decides(e: SyncEvent, project: string, u: string) {
    Concerns(e, project, u) && (e.kind.AccessRevoked? || (!e.kind.SessionsRevoked? && e.payload.FullUser?))
  }

  predicate Decided(es: seq<SyncEvent>, project: string, u: string) {
    es != [] && (Decides(es[|es| - 1], project, u) || Decided(es[..|es| - 1], project, u))
  }

  /** An event that replaces everything but `old_id`. */
  predicate Renews(e: SyncEvent, project: string, u: string) {
    Concerns(e, project, u) && !e.kind.AccessRevoked? && !e.kind.SessionsRevoked? && e.payload.ProfileOnly?
  }

  predicate Renewed(es: seq<SyncEvent>, project: string, u: string) {
    es != [] && (Renews(es[|es| - 1], project, u) || Renewed(es[..|es| - 1], project, u))
  }

  function OldIdOf(row: Option<UserRow>): Option<int> {
    if row.Some? then row.value.oldId else None
  }

  lemma {:induction false} DecidedForgets(x: Option<UserRow>, y: Option<UserRow>, es: seq<SyncEvent>, project: string,
                                          u: string)
    requires Decided(es, project, u)
    ensures Replay(x, es, project, u) == Replay(y, es, project, u)
  {
    if Decided(es[..|es| - 1], project, u) { DecidedForgets(x, y, es[..|es| - 1], project, u); }
  }

  /** Without a deciding event a row is kept, or everything of it but `old_id` is replaced. */
  lemma {:induction false} UndecidedKeeps(x: Option<UserRow>, y: Option<UserRow>, es: seq<SyncEvent>, project: string,
                                          u: string)
    requires !Decided(es, project, u)
    ensures var (p, q) := (Replay(x, es, project, u), Replay(y, es, project, u));
            && OldIdOf(p) == OldIdOf(x)
            && (if Renewed(es, project, u) then p.Some? && q.Some? && q == Some(p.value.(oldId := OldIdOf(y)))
                else p == x && q == y)
  {
    if es != [] { UndecidedKeeps(x, y, es[..|es| - 1], project, u); }
  }

  lemma {:induction false} PartsDecide(a: seq<SyncEvent>, b: seq<SyncEvent>, project: string, u: string)
    ensures Decided(a + b, project, u) <==> Decided(a, project, u) || Decided(b, project, u)
    ensures Renewed(a + b, project, u) <==> Renewed(a, project, u) || Renewed(b, project, u)
  {
    if b == [] {
      assert a + b == a;
    } else {
      assert (a + b)[..|a + b| - 1] == a + b[..|b| - 1];
      PartsDecide(a, b[..|b| - 1], project, u);
    }
  }

  /** Receiving events again does no harm: a row that the later events bring to where the whole stretch leads is
      brought there by the whole stretch as well. */
  lemma ReplayAgain(x: Option<UserRow>, y: Option<UserRow>, a: seq<SyncEvent>, b: seq<SyncEvent>, project: string,
                    u: string)
    requires Replay(y, b, project, u) == Replay(x, a + b, project, u)
    ensures Replay(y, a + b, project, u) == Replay(x, a + b, project, u)
  {
    if Decided(a + b, project, u) {
      DecidedForgets(x, y, a + b, project, u);
    } else {
      PartsDecide(a, b, project, u);
      UndecidedKeeps(x, y, a + b, project, u);
      UndecidedKeeps(y, x, a + b, project, u);
      UndecidedKeeps(y, y, b, project, u);
    }
  }

  /** Replaying a stretch of the log over the row it led to leads to the same row: reading a page late does no harm. */
  lemma ReplayTwice(row: Option<UserRow>, es: seq<SyncEvent>, project: string, u: string)
    ensures var end := Replay(row, es, project, u); Replay(end, es, project, u) == end
  {
    assert es + [] == es;
    ReplayAgain(row, Replay(row, es, project, u), es, [], project, u);
  }

  /** Raising the cursor drops a first part of what is pending. */
  lemma {:induction false} PendingSplits(es: seq<SyncEvent>, project: string, low: nat, high: nat) returns (n: nat)
    requires low <= high && forall i, j :: 0 <= i < j < |es| ==> es[i].id < es[j].id
    ensures n <= |Pending(es, project, low)| && Pending(es, project, high) == Pending(es, project, low)[n..]
  {
    n := 0;
    if es != [] {
      var init, e := es[..|es| - 1], es[|es| - 1];
      n := PendingSplits(init, project, low, high);
      if e.project == project && e.id <= high {
        AllBelow(init, project, high);
        n := |Pending(es, project, low)|;
      }
    }
  }

  lemma {:induction false} AllBelow(es: seq<SyncEvent>, project: string, after: nat)
    requires forall i :: 0 <= i < |es| ==> es[i].id <= after
    ensures Pending(es, project, after) == []
  {
    if es != [] { AllBelow(es[..|es| - 1], project, after); }
  }
}
