/** The fixed-window limiter over whole runs: calls on one key, mixed with calls on other keys and clean-ups. */
module Limiter {
  import opened Schema
  import opened Repository

  /** What can happen to the counters. A Try is a call of Allow on the key in question. */
  datatype Step = Try(at: nat) | OtherKey(key: string, until: nat, at: nat) | Sweep(at: nat)

  predicate InOrder(steps: seq<Step>) {
    forall i, j :: 0 <= i < j < |steps| ==> steps[i].at <= steps[j].at
  }

  predicate Elsewhere(steps: seq<Step>, key: string) {
    forall i :: 0 <= i < |steps| && steps[i].OtherKey? ==> steps[i].key != key
  }

  function Counted(limits: map<string, Limit>, now: nat, key: string, until: nat): map<string, Limit> {
    match IncrementAttempt(limits, now, key, until)
    case Ok((value, _)) => value
    case Err(_) => limits
  }

  /** The counters after a run that began with none. */
  function Counters(steps: seq<Step>, key: string, window: nat): map<string, Limit> {
    if steps == [] then map[] else
      var before := Counters(steps[..|steps| - 1], key, window);
      match steps[|steps| - 1]
      case Try(at) => Counted(before, at, key, at + window)
      case OtherKey(other, until, at) => Counted(before, at, other, until)
      case Sweep(at) => RecentLimits(before, at)
  }

  function Admits(limits: map<string, Limit>, now: nat, key: string, window: nat, limit: int): bool {
    match IncrementAttempt(limits, now, key, now + window)
    case Ok((_, attempts)) => attempts <= limit
    case Err(_) => false
  }

  /** The answers of the tries of a run, in order. */
  function Answers(steps: seq<Step>, key: string, window: nat, limit: int): seq<bool> {
    if steps == [] then [] else
      var init := steps[..|steps| - 1];
      match steps[|steps| - 1]
      case Try(at) => Answers(init, key, window, limit) + [Admits(Counters(init, key, window), at, key, window, limit)]
      case _ => Answers(init, key, window, limit)
  }

  // ---------------------------------------------------------------- windows, from the times of the tries alone

  function Times(steps: seq<Step>): seq<nat> {
    if steps == [] then [] else
      match steps[|steps| - 1]
      case Try(at) => Times(steps[..|steps| - 1]) + [at]
      case _ => Times(steps[..|steps| - 1])
  }

  predicate Rises(times: seq<nat>) {
    forall i, j :: 0 <= i < j < |times| ==> times[i] <= times[j]
  }

  /** When the window opened that the last try falls into: a window is `window` long, its end included,
      and the first try after it opens the next. */
  function Opened(times: seq<nat>, window: nat): nat
    requires times != []
  {
    var last := times[|times| - 1];
    if |times| == 1 then last
    else if Opened(times[..|times| - 1], window) + window < last then last
    else Opened(times[..|times| - 1], window)
  }

  function WindowOf(times: seq<nat>, window: nat, i: nat): nat
    requires i < |times|
  {
    Opened(times[..i + 1], window)
  }

  /** How many tries fall into the window that opened at `start`. */
  function Tries(times: seq<nat>, window: nat, start: nat): nat {
    if times == [] then 0 else
      Tries(times[..|times| - 1], window, start) + if Opened(times, window) == start then 1 else 0
  }

  /** The decision the limiter is meant to take on the last try: it is among the first `limit` of its window. */
  predicate Fits(times: seq<nat>, window: nat, limit: int)
    requires times != []
  {
    Tries(times, window, Opened(times, window)) <= limit
  }

  lemma {:induction false} OpenedBefore(times: seq<nat>, window: nat)
    requires times != [] && Rises(times)
    ensures Opened(times, window) <= times[|times| - 1] <= Opened(times, window) + window
    ensures forall i :: 0 <= i < |times| ==>
      var w := WindowOf(times, window, i); w == Opened(times, window) || w + window < Opened(times, window)
  {
    var n := |times| - 1;
    assert times[..n + 1] == times && WindowOf(times, window, n) == Opened(times, window);
    if n > 0 {
      var init := times[..n];
      OpenedBefore(init, window);
      forall i | 0 <= i < n
        ensures var w := WindowOf(times, window, i); w == Opened(times, window) || w + window < Opened(times, window)
      {
        assert times[..i + 1] == init[..i + 1];
        assert WindowOf(init, window, i) == WindowOf(times, window, i);
      }
    }
  }

  /** Two windows are the same or open more than `window` apart, and a try lies within its window. */
  lemma WindowsAreApart(times: seq<nat>, window: nat, i: nat, j: nat)
    requires Rises(times) && i <= j < |times|
    ensures var (v, w) := (WindowOf(times, window, i), WindowOf(times, window, j)); v == w || v + window < w
    ensures WindowOf(times, window, i) <= times[i] <= WindowOf(times, window, i) + window
  {
    OpenedBefore(times[..j + 1], window);
    assert times[..j + 1][..i + 1] == times[..i + 1];
    assert WindowOf(times[..j + 1], window, i) == WindowOf(times, window, i);
    OpenedBefore(times[..i + 1], window);
  }

  // ---------------------------------------------------------------- the counter keeps the reference

  /** The counter of the key: the tally and end of the open window, or nothing once that window is long over. */
  predicate Tallies(limits: map<string, Limit>, key: string, times: seq<nat>, window: nat, now: nat) {
    if key in limits then
      && times != []
      && limits[key].until == Opened(times, window) + window
      && limits[key].attempts == Least(Tries(times, window, Opened(times, window)), MAX_ATTEMPTS)
    else
      times != [] ==> Opened(times, window) + window < now
  }

  function Least(a: nat, b: nat): (m: nat)
  {
    if a <= b then a else b
  }

  lemma NoTriesYet(times: seq<nat>, window: nat, start: nat)
    requires Rises(times) && times != [] && Opened(times, window) < start
    ensures Tries(times, window, start) == 0
    decreases |times|
  {
    if |times| > 1 {
      OpenedBefore(times, window);
      assert times[..|times| - 1] == times[..|times| - 2 + 1];
      assert WindowOf(times, window, |times| - 2) <= Opened(times, window);
      NoTriesYet(times[..|times| - 1], window, start);
    } else {
      assert times[..0] == [];
    }
  }

  /** What one more try does to the reference. */
  lemma OneMoreTry(times: seq<nat>, window: nat, now: nat)
    requires Rises(times)
    ensures var after := times + [now];
            if times == [] || Opened(times, window) + window < now
            then Opened(after, window) == now && Tries(after, window, now) == 1
            else var o := Opened(times, window);
                 Opened(after, window) == o && Tries(after, window, o) == Tries(times, window, o) + 1
  {
    var after := times + [now];
    assert after[..|after| - 1] == times;
    if times != [] && Opened(times, window) + window < now { NoTriesYet(times, window, now); }
  }

  lemma TryTallies(limits: map<string, Limit>, key: string, times: seq<nat>, window: nat, before: nat, now: nat,
                   limit: int)
    requires Rises(times) && before <= now && Tallies(limits, key, times, window, before)
    requires limit <= MAX_ATTEMPTS
    ensures Tallies(Counted(limits, now, key, now + window), key, times + [now], window, now)
    ensures Admits(limits, now, key, window, limit) <==> Fits(times + [now], window, limit)
  {
    hide Opened, Tries;
    OneMoreTry(times, window, now);
  }

  lemma SweepTallies(limits: map<string, Limit>, key: string, times: seq<nat>, window: nat, before: nat, now: nat)
    requires before <= now && Tallies(limits, key, times, window, before)
    ensures Tallies(RecentLimits(limits, now), key, times, window, now)
  {
    hide Opened, Tries;
  }

  lemma OtherTallies(limits: map<string, Limit>, key: string, times: seq<nat>, window: nat, before: nat, now: nat,
                     other: string, until: nat)
    requires before <= now && Tallies(limits, key, times, window, before) && other != key
    ensures Tallies(Counted(limits, now, other, until), key, times, window, now)
  {
    hide Opened, Tries;
  }

  function Clock(steps: seq<Step>): nat {
    if steps == [] then 0 else steps[|steps| - 1].at
  }

  lemma {:induction false} TimesRise(steps: seq<Step>)
    requires InOrder(steps)
    ensures Rises(Times(steps)) && forall i :: 0 <= i < |Times(steps)| ==> Times(steps)[i] <= Clock(steps)
  {
    if steps != [] {
      var init := steps[..|steps| - 1];
      TimesRise(init);
      assert init != [] ==> Clock(init) == steps[|init| - 1].at;
      if init == [] { assert Times(init) == []; }
    }
  }

  lemma {:induction false} CountersTally(steps: seq<Step>, key: string, window: nat)
    requires InOrder(steps) && Elsewhere(steps, key)
    ensures Tallies(Counters(steps, key, window), key, Times(steps), window, Clock(steps))
  {
    hide Tallies, Counted, RecentLimits;
    if steps == [] {
      NothingTallies(key, window);
    } else {
      var init, now := steps[..|steps| - 1], steps[|steps| - 1].at;
      assert init != [] ==> Clock(init) == steps[|init| - 1].at;
      CountersTally(init, key, window);
      TimesRise(init);
      var limits, times := Counters(init, key, window), Times(init);
      match steps[|steps| - 1]
      case Try(_) => TryTallies(limits, key, times, window, Clock(init), now, 0);
      case OtherKey(other, until, _) => OtherTallies(limits, key, times, window, Clock(init), now, other, until);
      case Sweep(_) => SweepTallies(limits, key, times, window, Clock(init), now);
    }
  }

  lemma NothingTallies(key: string, window: nat)
    ensures Tallies(map[], key, [], window, 0)
  {
  }

  lemma {:induction false} AnswersFit(steps: seq<Step>, key: string, window: nat, limit: int)
    requires InOrder(steps) && Elsewhere(steps, key) && limit <= MAX_ATTEMPTS
    ensures |Answers(steps, key, window, limit)| == |Times(steps)|
    ensures forall i :: 0 <= i < |Times(steps)| ==>
      Answers(steps, key, window, limit)[i] == Fits(Times(steps)[..i + 1], window, limit)
  {
    hide Fits, Admits, Tallies, Counters, Counted;
    if steps != [] {
      var init, last := steps[..|steps| - 1], steps[|steps| - 1];
      AnswersFit(init, key, window, limit);
      if last.Try? {
        CountersTally(init, key, window);
        TimesRise(init);
        assert init != [] ==> Clock(init) == steps[|init| - 1].at;
        TryTallies(Counters(init, key, window), key, Times(init), window, Clock(init), last.at, limit);
        var times := Times(steps);
        assert times[..|times|] == times;
        forall i | 0 <= i < |times|
          ensures Answers(steps, key, window, limit)[i] == Fits(times[..i + 1], window, limit)
        {
          if i < |times| - 1 { assert times[..i + 1] == Times(init)[..i + 1]; }
        }
      }
    }
  }

  // ---------------------------------------------------------------- how many calls are admitted

  /** The admitted tries of the window that opened at `start`. */
  function Admitted(times: seq<nat>, window: nat, limit: int, start: nat): nat {
    if times == [] then 0 else
      Admitted(times[..|times| - 1], window, limit, start)
      + if Opened(times, window) == start && Fits(times, window, limit) then 1 else 0
  }

  /** Each window admits exactly the smaller of its limit and its number of tries. */
  lemma {:induction false} WindowAdmits(times: seq<nat>, window: nat, limit: nat, start: nat)
    ensures Admitted(times, window, limit, start) == Least(limit, Tries(times, window, start))
  {
    if times != [] {
      WindowAdmits(times[..|times| - 1], window, limit, start);
    }
  }

  predicate Inside(t: nat, from: nat, window: nat) {
    from <= t < from + window
  }

  /** The admitted tries at times in [from, from + window). */
  function AdmittedInside(times: seq<nat>, window: nat, limit: int, from: nat): nat {
    if times == [] then 0 else
      AdmittedInside(times[..|times| - 1], window, limit, from)
      + if Inside(times[|times| - 1], from, window) && Fits(times, window, limit) then 1 else 0
  }

  /** The tries of the interval fall into two windows. */
  predicate TwoWindows(times: seq<nat>, window: nat, from: nat, v: nat, w: nat) {
    forall i :: 0 <= i < |times| && Inside(times[i], from, window) ==> WindowOf(times, window, i) in {v, w}
  }

  /** The admitted tries of one window at times in [from, from + window). */
  function AdmittedBoth(times: seq<nat>, window: nat, limit: int, from: nat, start: nat): nat {
    if times == [] then 0 else
      AdmittedBoth(times[..|times| - 1], window, limit, from, start)
      + if Opened(times, window) == start && Inside(times[|times| - 1], from, window) && Fits(times, window, limit)
        then 1 else 0
  }

  /** The try that opens a window is admitted, so a window that opened before the interval has one admission less
      in it. */
  lemma {:induction false} EarlyWindowAdmitsLess(times: seq<nat>, window: nat, limit: nat, from: nat, start: nat)
    requires Rises(times)
    ensures var early := if start < from && limit > 0 && Tries(times, window, start) > 0 then 1 else 0;
            AdmittedBoth(times, window, limit, from, start) + early <= Admitted(times, window, limit, start)
  {
    if times != [] {
      EarlyWindowAdmitsLess(times[..|times| - 1], window, limit, from, start);
      OneMoreTry(times[..|times| - 1], window, times[|times| - 1]);
      assert times == times[..|times| - 1] + [times[|times| - 1]];
    }
  }

  lemma {:induction false} TwoWindowsAdmit(times: seq<nat>, window: nat, limit: nat, from: nat, v: nat, w: nat)
    requires TwoWindows(times, window, from, v, w)
    ensures AdmittedInside(times, window, limit, from)
            <= (if v == w then 0 else AdmittedBoth(times, window, limit, from, v))
               + AdmittedBoth(times, window, limit, from, w)
  {
    hide Fits;
    if times != [] {
      var n := |times| - 1;
      var init := times[..n];
      forall i | 0 <= i < n && Inside(init[i], from, window) ensures WindowOf(init, window, i) in {v, w} {
        assert times[..i + 1] == init[..i + 1];
        assert WindowOf(times, window, i) in {v, w};
      }
      TwoWindowsAdmit(init, window, limit, from, v, w);
      assert times[..n + 1] == times;
      assert Inside(times[n], from, window) ==> WindowOf(times, window, n) in {v, w};
    }
  }

  lemma ThreeWindowsAreTooLong(times: seq<nat>, window: nat, from: nat, i: nat, k: nat)
    requires Rises(times) && i < |times| && k < |times| && Inside(times[i], from, window)
             && Inside(times[k], from, window)
    requires Inside(times[|times| - 1], from, window)
    ensures var (u, v, w) := (WindowOf(times, window, i), WindowOf(times, window, k),
                              WindowOf(times, window, |times| - 1));
            u == v || v == w || u == w
  {
    var n := |times| - 1;
    WindowsAreApart(times, window, i, n);
    WindowsAreApart(times, window, k, n);
    WindowsAreApart(times, window, n, n);
    if i <= k { WindowsAreApart(times, window, i, k); } else { WindowsAreApart(times, window, k, i); }
  }

  /** The first of two windows opened before the interval, and a try fell into it. */
  lemma {:induction false} SomeTwoWindows(times: seq<nat>, window: nat, from: nat) returns (v: nat, w: nat)
    requires Rises(times)
    ensures TwoWindows(times, window, from, v, w)
    ensures v != w ==> v < from && Tries(times, window, v) > 0 && window >= 2
  {
    v, w := 0, 0;
    if times != [] {
      var n := |times| - 1;
      if !Inside(times[n], from, window) {
        v, w := SomeTwoWindows(times[..n], window, from);
        forall i | 0 <= i < |times| && Inside(times[i], from, window) ensures WindowOf(times, window, i) in {v, w} {
          assert times[..i + 1] == times[..n][..i + 1];
          assert WindowOf(times[..n], window, i) in {v, w};
        }
      } else {
        w := WindowOf(times, window, n);
        v := w;
        if i :| 0 <= i < |times| && Inside(times[i], from, window) && WindowOf(times, window, i) != w {
          v := WindowOf(times, window, i);
          forall k | 0 <= k < |times| && Inside(times[k], from, window) ensures WindowOf(times, window, k) in {v, w} {
            ThreeWindowsAreTooLong(times, window, from, i, k);
          }
          WindowsAreApart(times, window, i, n);
          WindowsAreApart(times, window, n, n);
          TryIsCounted(times, window, i);
        }
      }
    }
  }

  lemma {:induction false} TryIsCounted(times: seq<nat>, window: nat, i: nat)
    requires i < |times|
    ensures Tries(times, window, WindowOf(times, window, i)) > 0
  {
    var n := |times| - 1;
    if i == n {
      assert times[..n + 1] == times;
    } else {
      assert times[..n][..i + 1] == times[..i + 1];
      TryIsCounted(times[..n], window, i);
    }
  }

  function Trues(answers: seq<bool>, times: seq<nat>, window: nat, from: nat): nat
    requires |answers| == |times|
  {
    if answers == [] then 0 else
      var n := |answers| - 1;
      Trues(answers[..n], times[..n], window, from) + if answers[n] && Inside(times[n], from, window) then 1 else 0
  }

  lemma {:induction false} TruesAreAdmitted(answers: seq<bool>, times: seq<nat>, window: nat, limit: int, from: nat)
    requires |answers| == |times|
    requires forall i :: 0 <= i < |times| ==> answers[i] == Fits(times[..i + 1], window, limit)
    ensures Trues(answers, times, window, from) == AdmittedInside(times, window, limit, from)
  {
    if times != [] {
      var n := |times| - 1;
      forall i | 0 <= i < n ensures answers[..n][i] == Fits(times[..n][..i + 1], window, limit) {
        assert times[..n][..i + 1] == times[..i + 1];
      }
      TruesAreAdmitted(answers[..n], times[..n], window, limit, from);
      assert times[..n + 1] == times;
    }
  }

  /** The most calls that an interval of the window's length sees admitted: none in an empty interval, the tries of
      one window in a single instant, and otherwise those of two windows but one. */
  function Most(limit: nat, window: nat): nat {
    if limit == 0 || window == 0 then 0 else if window == 1 then limit else 2 * limit - 1
  }

  lemma {:induction false} EmptyInterval(times: seq<nat>, limit: int, from: nat)
    ensures AdmittedInside(times, 0, limit, from) == 0
  {
    if times != [] { EmptyInterval(times[..|times| - 1], limit, from); }
  }

  lemma MostIsEnough(times: seq<nat>, window: nat, limit: nat, from: nat)
    requires Rises(times)
    ensures AdmittedInside(times, window, limit, from) <= Most(limit, window)
  {
    if window == 0 {
      EmptyInterval(times, limit, from);
    } else {
      var v, w := SomeTwoWindows(times, window, from);
      TwoWindowsAdmit(times, window, limit, from, v, w);
      EarlyWindowAdmitsLess(times, window, limit, from, v);
      EarlyWindowAdmitsLess(times, window, limit, from, w);
      WindowAdmits(times, window, limit, v);
      WindowAdmits(times, window, limit, w);
    }
  }

  /** Any run: a try is admitted exactly when it is among the first `limit` of its window, whatever the other keys
      and the clean-ups do; and no interval of the window's length sees twice the limit admitted. */
  lemma FixedWindowBound(steps: seq<Step>, key: string, window: nat, limit: nat, from: nat)
    requires InOrder(steps) && Elsewhere(steps, key) && limit <= MAX_ATTEMPTS
    ensures |Answers(steps, key, window, limit)| == |Times(steps)|
    ensures forall i :: 0 <= i < |Times(steps)| ==>
      Answers(steps, key, window, limit)[i] == Fits(Times(steps)[..i + 1], window, limit)
    ensures Trues(Answers(steps, key, window, limit), Times(steps), window, from) <= Most(limit, window)
  {
    TimesRise(steps);
    AnswersFit(steps, key, window, limit);
    TruesAreAdmitted(Answers(steps, key, window, limit), Times(steps), window, limit, from);
    MostIsEnough(Times(steps), window, limit, from);
  }

  // ---------------------------------------------------------------- the bound is met

  function Repeat(at: nat, count: nat): seq<Step> {
    if count == 0 then [] else Repeat(at, count - 1) + [Try(at)]
  }

  /** With a window of one instant: `limit` tries at once. Otherwise: one try, the rest of its window's limit at its
      last moment, and a whole limit right after. */
  function Busy(limit: nat, window: nat): seq<Step>
    requires limit > 0
  {
    if window == 1 then Repeat(0, limit)
    else [Try(0)] + Repeat(window, limit - 1) + Repeat(window + 1, limit)
  }

  lemma TimesOfOne(steps: seq<Step>, at: nat)
    ensures Times(steps + [Try(at)]) == Times(steps) + [at]
  {
    assert (steps + [Try(at)])[..|steps|] == steps;
  }

  /** `count` more tries at one time of the window that is open, within its limit: all of them are admitted. */
  lemma {:induction false} Fill(steps: seq<Step>, window: nat, limit: nat, from: nat, at: nat, count: nat)
    requires InOrder(steps) && Times(steps) != [] && Clock(steps) <= at && Inside(at, from, window)
    requires var times := Times(steps);
             && at <= Opened(times, window) + window
             && Tries(times, window, Opened(times, window)) + count <= limit
    ensures var times, after := Times(steps), Times(steps + Repeat(at, count));
            && InOrder(steps + Repeat(at, count)) && after != [] && Clock(steps + Repeat(at, count)) <= at
            && Opened(after, window) == Opened(times, window)
            && Tries(after, window, Opened(times, window)) == Tries(times, window, Opened(times, window)) + count
            && AdmittedInside(after, window, limit, from) == AdmittedInside(times, window, limit, from) + count
  {
    hide Opened, Tries, AdmittedInside, Times, InOrder;
    if count == 0 {
      assert steps + [] == steps;
    } else {
      Fill(steps, window, limit, from, at, count - 1);
      var before := steps + Repeat(at, count - 1);
      assert steps + Repeat(at, count) == before + [Try(at)];
      OneTry(before, window, limit, from, at);
    }
  }

  /** One try: what it does to the open window, and whether the interval counts it. */
  lemma OneTry(steps: seq<Step>, window: nat, limit: nat, from: nat, at: nat)
    requires InOrder(steps) && Clock(steps) <= at
    ensures var times, after := Times(steps), Times(steps + [Try(at)]);
            && InOrder(steps + [Try(at)]) && after != [] && Clock(steps + [Try(at)]) == at
            && (if times == [] || Opened(times, window) + window < at
                then Opened(after, window) == at && Tries(after, window, at) == 1
                else var o := Opened(times, window);
                     Opened(after, window) == o && Tries(after, window, o) == Tries(times, window, o) + 1)
            && AdmittedInside(after, window, limit, from)
               == AdmittedInside(times, window, limit, from)
                  + if Inside(at, from, window) && Tries(after, window, Opened(after, window)) <= limit then 1 else 0
  {
    hide Opened, Tries;
    TimesOfOne(steps, at);
    TimesRise(steps);
    OneMoreTry(Times(steps), window, at);
    var after := Times(steps) + [at];
    assert after[..|after| - 1] == Times(steps);
    assert forall i :: 0 <= i < |steps| ==> steps[i].at <= Clock(steps);
  }

  lemma {:induction false} RepeatIsElsewhere(at: nat, count: nat, key: string)
    ensures Elsewhere(Repeat(at, count), key)
  {
    if count > 0 { RepeatIsElsewhere(at, count - 1, key); }
  }

  lemma BusyInstant(limit: nat)
    requires limit > 0
    ensures InOrder(Repeat(0, limit)) && AdmittedInside(Times(Repeat(0, limit)), 1, limit, 0) == limit
  {
    hide Opened, Tries, AdmittedInside, Repeat, InOrder, Times;
    NothingYet(1, 0, limit);
    OneTry([], 1, limit, 0, 0);
    assert [] + [Try(0)] == [Try(0)];
    Fill([Try(0)], 1, limit, 0, 0, limit - 1);
    OneThenRest(0, limit);
  }

  lemma {:induction false} OneThenRest(at: nat, count: nat)
    requires count > 0
    ensures Repeat(at, count) == [Try(at)] + Repeat(at, count - 1)
  {
    if count > 1 { OneThenRest(at, count - 1); }
  }

  lemma BusyWindows(limit: nat, window: nat)
    requires limit > 0 && window >= 2
    ensures InOrder(Busy(limit, window))
    ensures AdmittedInside(Times(Busy(limit, window)), window, limit, window) == 2 * limit - 1
  {
    hide Opened, Tries, AdmittedInside, Repeat, InOrder, Times;
    var first := [Try(0)];
    NothingYet(window, window, limit);
    OneTry([], window, limit, window, 0);
    assert [] + [Try(0)] == first;
    Fill(first, window, limit, window, window, limit - 1);
    var second := first + Repeat(window, limit - 1);
    OneTry(second, window, limit, window, window + 1);
    var third := second + [Try(window + 1)];
    Fill(third, window, limit, window, window + 1, limit - 1);
    OneThenRest(window + 1, limit);
    assert third + Repeat(window + 1, limit - 1) == second + Repeat(window + 1, limit);
  }

  lemma NothingYet(window: nat, from: nat, limit: nat)
    ensures InOrder([]) && Times([]) == [] && AdmittedInside([], window, limit, from) == 0
  {
  }

  /** For every limit and window a run meets the bound, counted from the end of its first window. */
  lemma TheBoundIsMet(key: string, limit: nat, window: nat)
    requires 0 < limit <= MAX_ATTEMPTS && window > 0
    ensures var steps, from := Busy(limit, window), if window == 1 then 0 else window;
            && InOrder(steps) && Elsewhere(steps, key)
            && |Answers(steps, key, window, limit)| == |Times(steps)|
            && Trues(Answers(steps, key, window, limit), Times(steps), window, from) == Most(limit, window)
  {
    hide Opened, Tries, AdmittedInside, Trues, Answers, Times, InOrder, Repeat;
    var steps, from := Busy(limit, window), if window == 1 then 0 else window;
    if window == 1 { BusyInstant(limit); } else { BusyWindows(limit, window); }
    RepeatIsElsewhere(0, limit, key);
    RepeatIsElsewhere(window, limit - 1, key);
    RepeatIsElsewhere(window + 1, limit, key);
    AnswersFit(steps, key, window, limit);
    TruesAreAdmitted(Answers(steps, key, window, limit), Times(steps), window, limit, from);
  }
}
