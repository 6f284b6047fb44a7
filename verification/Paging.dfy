/** Paging on an unchanging database: the pages concatenate to the whole answer. */
module Paging {
  import opened Order
  import opened Schema
  import opened Repository
  import opened ChangeLog
  import opened Replica
  import opened Consumer

  /** The next page starts where this one ended. */
  lemma UsersAfterPage(db: Tables, project: string, after: string)
    requires |UsersAbove(db, project, after)| > PAGE
    ensures var ids := UsersAbove(db, project, after);
            UsersAbove(db, project, ids[PAGE - 1]) == ids[PAGE..]
  {
    var ids := UsersAbove(db, project, after);
    var last := ids[PAGE - 1];
    var rest := UsersAbove(db, project, last);
    assert last in ids;
    forall x ensures x in rest <==> x in ids[PAGE..] {
      AscendingPrefix(ids, PAGE, x);
      assert ids == ids[..PAGE] + ids[PAGE..];
      if x in rest {
        LessIsTransitive(after, last, x);
        assert x in ids;
        LessIsStrict(x);
        if x in ids[..PAGE] && x != last { LessIsTransitive(x, last, x); }
      }
      if x in ids[PAGE..] {
        var k :| PAGE <= k < |ids| && ids[k] == x;
        assert Less(last, x);
        assert x in ids;
      }
    }
    ListingIsUnique(rest, ids[PAGE..]);
  }

  /** Following NextAfterUser to the end, page after page. */
  function FollowPages(db: Tables, project: string, after: string): seq<string>
    decreases |UsersAbove(db, project, after)|
  {
    var ids := UsersAbove(db, project, after);
    if |ids| > PAGE then
      UsersAfterPage(db, project, after);
      ids[..PAGE] + FollowPages(db, project, ids[PAGE - 1])
    else ids
  }

  /** The walk terminates and lists every user of the project above the start once, in order. */
  lemma {:induction false} PagesAreExact(db: Tables, project: string, after: string)
    ensures FollowPages(db, project, after) == UsersAbove(db, project, after)
    decreases |UsersAbove(db, project, after)|
  {
    var ids := UsersAbove(db, project, after);
    if |ids| > PAGE {
      UsersAfterPage(db, project, after);
      PagesAreExact(db, project, ids[PAGE - 1]);
      assert ids == ids[..PAGE] + ids[PAGE..];
    }
  }

  function PageIds(db: Tables, project: string, after: string): seq<string> {
    var ids := UsersAbove(db, project, after);
    if |ids| > PAGE then ids[..PAGE] else ids
  }

  /** Each Snapshot answer is one step of that walk: its users and its next cursor. */
  lemma SnapshotIsStep(db: Tables, project: string, after: string, requested: Option<nat>)
    ensures var page := Snapshot(db, project, after, requested);
            var ids := UsersAbove(db, project, after);
            && (forall x :: x in page.users <==> x in PageIds(db, project, after))
            && (page.next == "" <==> |ids| <= PAGE)
            && (page.next != "" ==> page.next == ids[PAGE - 1])
  {
    var ids := UsersAbove(db, project, after);
    assert forall x :: x in ids ==> x in View(db, project) && Less(after, x);
    if |ids| > PAGE {
      assert ids[PAGE - 1] in ids;
      assert forall x :: x in ids[..PAGE] ==> x in ids;
    }
  }

  /** Polling Changes to the end on an unchanging log. */
  function FollowChanges(db: Tables, project: string, after: nat, polls: nat): (seq<SyncEvent>, nat)
    decreases polls
  {
    if polls == 0 then ([], after) else
      var (page, next) := Changes(db, project, after);
      var (rest, last) := FollowChanges(db, project, next, polls - 1);
      (page + rest, last)
  }

  /** One poll answers the head of the pending events, and what it leaves is pending at the new cursor. */
  lemma PollIsStep(db: Tables, project: string, after: nat)
    requires InOrder(db)
    ensures var due := Pending(db.events, project, after);
            var (page, next) := Changes(db, project, after);
            && due == page + Pending(db.events, project, next)
            && after <= next
            && |page| == if |due| > PAGE then PAGE else |due|
  {
    var due := Pending(db.events, project, after);
    var (page, next) := Changes(db, project, after);
    PendingIsOwn(db.events, project, after);
    if page != [] {
      PendingAdvances(db.events, project, after, |page| - 1);
      assert due == page + due[|page|..];
    }
  }

  /** The pages of changes concatenate to a prefix of the pending events, with a cursor that never goes back; what
      remains is pending at the last cursor, and nothing remains once the polls number a 200th of the backlog. */
  lemma {:induction false} ChangesAreExact(db: Tables, project: string, after: nat, polls: nat)
    requires InOrder(db)
    ensures var (events, last) := FollowChanges(db, project, after, polls);
            && Pending(db.events, project, after) == events + Pending(db.events, project, last)
            && after <= last
            && (polls * PAGE >= |Pending(db.events, project, after)| ==> Pending(db.events, project, last) == [])
    decreases polls
  {
    hide Pending, Changes;
    if polls > 0 {
      var (page, next) := Changes(db, project, after);
      PollIsStep(db, project, after);
      ChangesAreExact(db, project, next, polls - 1);
    }
  }
}
