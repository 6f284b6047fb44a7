/** Signing keys under concurrent rotations. A rotation is a transaction: it begins, waits for the advisory lock, and
    retires the active key with the time at which it began. */
module Keys {
  import opened Schema
  import opened Repository

  // ---------------------------------------------------------------- tokens

  const LIFETIME: nat := 5 * MINUTE

  /** The time claims of a token are whole seconds. */
  datatype Token = Token(kid: string, issued: nat, notBefore: nat, expires: nat)

  function Sign(kid: string, stamped: nat): Token {
    Token(kid, stamped / SECOND, stamped / SECOND, (stamped + LIFETIME) / SECOND)
  }

  predicate Unexpired(token: Token, now: nat) {
    token.expires > now / SECOND
  }

  /** Verify, past the signature: the key is still published and the time claims hold. */
  predicate Accepts(keys: map<string, SigningKey>, now: nat, token: Token) {
    token.kid in PublishedKeys(keys, now) && Unexpired(token, now) && token.notBefore <= now / SECOND
  }

  // ---------------------------------------------------------------- rotations as interleaved transactions

  datatype Rotation = Rotation(kid: string, began: nat)

  datatype Store = Store(clock: nat, keys: map<string, SigningKey>, running: map<nat, Rotation>, holder: Option<nat>)

  datatype Step =
    | Tick(duration: nat)
    | Begin(tx: nat, kid: string)
    | TakeLock(tx: nat)
    | Commit(tx: nat)
    | Abort(tx: nat)
    | Sweep

  /** Any rotation may begin at any time, one by Ensure or by an operator; one at a time holds the lock. */
  predicate Enabled(s: Store, step: Step) {
    match step
    case Begin(tx, _) => tx !in s.running
    case TakeLock(tx) => tx in s.running && s.holder.None?
    case Commit(tx) => tx in s.running && s.holder == Some(tx)
    case Abort(tx) => tx in s.running
    case _ => true
  }

  function Release(s: Store, tx: nat): Store {
    s.(running := s.running - {tx}, holder := if s.holder == Some(tx) then None else s.holder)
  }

  function Take(s: Store, step: Step): Store
    requires Enabled(s, step)
  {
    match step
    case Tick(duration) => s.(clock := s.clock + duration)
    case Begin(tx, kid) => s.(running := s.running[tx := Rotation(kid, s.clock)])
    case TakeLock(tx) => s.(holder := Some(tx))
    case Commit(tx) =>
      (match RotateSigningKey(s.keys, s.running[tx].began, s.running[tx].kid)
       case Ok(keys) => Release(s.(keys := keys), tx)
       case Err(_) => Release(s, tx))
    case Abort(tx) => Release(s, tx)
    case Sweep => s.(keys := RecentKeys(s.keys, s.clock))
  }

  predicate EnabledRun(s: Store, steps: seq<Step>)
    decreases |steps|, 0
  {
    steps == [] ||
    (EnabledRun(s, steps[..|steps| - 1]) && Enabled(Run(s, steps[..|steps| - 1]), steps[|steps| - 1]))
  }

  function Run(s: Store, steps: seq<Step>): Store
    requires EnabledRun(s, steps)
    decreases |steps|, 1
  {
    if steps == [] then s else Take(Run(s, steps[..|steps| - 1]), steps[|steps| - 1])
  }

  // ---------------------------------------------------------------- exactly one active key

  predicate AtMostOne(keys: map<string, SigningKey>) {
    forall k, l :: k in keys && l in keys && !keys[k].Retired() && !keys[l].Retired() ==> k == l
  }

  lemma TakeKeepsOne(s: Store, step: Step)
    requires Enabled(s, step) && AtMostOne(s.keys)
    ensures AtMostOne(Take(s, step).keys)
    ensures |ActiveKeys(s.keys)| == 1 ==> |ActiveKeys(Take(s, step).keys)| == 1
    ensures step.Commit? && s.running[step.tx].kid !in s.keys ==> |ActiveKeys(Take(s, step).keys)| == 1
  {
    var t := Take(s, step);
    if t.keys != s.keys {
      if step.Commit? {
        assert ActiveKeys(t.keys) == {s.running[step.tx].kid};
      } else {
        assert ActiveKeys(t.keys) == ActiveKeys(s.keys);
      }
    }
  }

  predicate Commits(s: Store, steps: seq<Step>)
    requires EnabledRun(s, steps)
  {
    steps != [] &&
    (Commits(s, steps[..|steps| - 1])
     || (var before := Run(s, steps[..|steps| - 1]);
         steps[|steps| - 1].Commit? && before.running[steps[|steps| - 1].tx].kid !in before.keys))
  }

  /** However many rotations overlap, from the first one that commits there is exactly one active key. */
  lemma {:induction false} OneActiveKey(s: Store, steps: seq<Step>)
    requires EnabledRun(s, steps) && AtMostOne(s.keys)
    ensures AtMostOne(Run(s, steps).keys)
    ensures |ActiveKeys(s.keys)| == 1 || Commits(s, steps) ==> |ActiveKeys(Run(s, steps).keys)| == 1
  {
    hide Take, ActiveKeys;
    if steps != [] {
      var n := |steps| - 1;
      OneActiveKey(s, steps[..n]);
      TakeKeepsOne(Run(s, steps[..n]), steps[n]);
    }
  }

  // ---------------------------------------------------------------- no token is stranded

  /** Rotations in a run take at most `duration` from beginning to commit. */
  predicate Prompt(s: Store, steps: seq<Step>, duration: nat)
    requires EnabledRun(s, steps)
  {
    steps == [] ||
    (Prompt(s, steps[..|steps| - 1], duration)
     && (var before := Run(s, steps[..|steps| - 1]);
         steps[|steps| - 1].Commit? ==> before.clock <= before.running[steps[|steps| - 1].tx].began + duration))
  }

  /** A key that was active at time `read` is active or published long enough, or long past its publication. */
  predicate Held(s: Store, kid: string, read: nat, duration: nat) {
    || (kid in s.keys
        && (!s.keys[kid].Retired() || read + PUBLICATION <= s.keys[kid].publishUntil.value + duration))
    || read + PUBLICATION + DAY < s.clock + duration
  }

  lemma TakeHolds(s: Store, step: Step, kid: string, read: nat, duration: nat)
    requires Enabled(s, step) && Held(s, kid, read, duration) && read <= s.clock
    requires step.Commit? ==> s.clock <= s.running[step.tx].began + duration
    ensures Held(Take(s, step), kid, read, duration)
  {
  }

  lemma {:induction false} RunHolds(s: Store, steps: seq<Step>, kid: string, duration: nat)
    requires EnabledRun(s, steps) && Prompt(s, steps, duration) && kid in ActiveKeys(s.keys)
    ensures s.clock <= Run(s, steps).clock && Held(Run(s, steps), kid, s.clock, duration)
  {
    hide Take, Held;
    if steps == [] {
      assert Held(s, kid, s.clock, duration) by { ActiveIsHeld(s, kid, duration); }
    } else {
      var n := |steps| - 1;
      RunHolds(s, steps[..n], kid, duration);
      TakeHolds(Run(s, steps[..n]), steps[n], kid, s.clock, duration);
      ClockRises(Run(s, steps[..n]), steps[n]);
    }
  }

  lemma ActiveIsHeld(s: Store, kid: string, duration: nat)
    requires kid in ActiveKeys(s.keys)
    ensures Held(s, kid, s.clock, duration)
  {
  }

  lemma ClockRises(s: Store, step: Step)
    requires Enabled(s, step)
    ensures s.clock <= Take(s, step).clock
  {
  }

  lemma UnexpiredMeans(stamped: nat, now: nat, kid: string)
    ensures Unexpired(Sign(kid, stamped), now) ==> now < stamped + LIFETIME
    ensures stamped <= now ==> Sign(kid, stamped).notBefore <= now / SECOND
  {
  }

  /** A signature reads the active key and stamps the token at most `lag` later; rotations take at most `duration`.
      If the two together stay within five minutes, the token is accepted until it expires, in every run. */
  lemma NoTokenIsStranded(s: Store, steps: seq<Step>, kid: string, stamped: nat, lag: nat, duration: nat)
    requires EnabledRun(s, steps) && Prompt(s, steps, duration)
    requires kid in ActiveKeys(s.keys) && s.clock <= stamped <= s.clock + lag && lag + duration <= LIFETIME
    ensures var after := Run(s, steps);
            stamped <= after.clock ==>
              (Accepts(after.keys, after.clock, Sign(kid, stamped)) <==> Unexpired(Sign(kid, stamped), after.clock))
  {
    RunHolds(s, steps, kid, duration);
    UnexpiredMeans(stamped, Run(s, steps).clock, kid);
  }

  // ---------------------------------------------------------------- a retired key is published exactly ten minutes

  /** Key ids are random: no rotation of the run draws `kid` again. */
  predicate DrawnOnce(s: Store, steps: seq<Step>, kid: string) {
    && (forall tx :: tx in s.running ==> s.running[tx].kid != kid)
    && (forall i :: 0 <= i < |steps| && steps[i].Begin? ==> steps[i].kid != kid)
  }

  /** The key is published until `until`, and is cleared away no sooner than a day after that. */
  predicate PublishedUntil(s: Store, kid: string, until: nat) {
    && (forall tx :: tx in s.running ==> s.running[tx].kid != kid)
    && (if kid in s.keys then s.keys[kid].publishUntil == Some(until) else until + DAY < s.clock)
  }

  lemma TakeKeepsUntil(s: Store, step: Step, kid: string, until: nat)
    requires Enabled(s, step) && PublishedUntil(s, kid, until) && (step.Begin? ==> step.kid != kid)
    ensures PublishedUntil(Take(s, step), kid, until)
  {
  }

  lemma {:induction false} RunKeepsUntil(s: Store, steps: seq<Step>, kid: string, until: nat)
    requires EnabledRun(s, steps) && PublishedUntil(s, kid, until) && DrawnOnce(s, steps, kid)
    ensures PublishedUntil(Run(s, steps), kid, until)
  {
    hide Take, PublishedUntil;
    if steps != [] {
      var n := |steps| - 1;
      RunKeepsUntil(s, steps[..n], kid, until);
      TakeKeepsUntil(Run(s, steps[..n]), steps[n], kid, until);
    }
  }

  lemma CommitRetires(s: Store, tx: nat, kid: string)
    requires Enabled(s, Commit(tx)) && kid in ActiveKeys(s.keys) && s.running[tx].kid !in s.keys
    requires forall other :: other in s.running ==> s.running[other].kid != kid
    ensures PublishedUntil(Take(s, Commit(tx)), kid, s.running[tx].began + 10 * MINUTE)
  {
  }

  /** Whatever follows a rotation, further rotations and clean-ups included, the key it retired is published until ten
      minutes after the rotation began, and never again. So a token of that key is accepted exactly until the end of
      its five minutes, counted in whole seconds, or of those ten, whichever comes first. */
  lemma RetiredKeysAreAcceptedExactly(s: Store, tx: nat, steps: seq<Step>, kid: string, stamped: nat)
    requires Enabled(s, Commit(tx)) && kid in ActiveKeys(s.keys) && s.running[tx].kid !in s.keys
    requires DrawnOnce(s, steps, kid) && EnabledRun(Take(s, Commit(tx)), steps)
    ensures var v := Run(Take(s, Commit(tx)), steps);
            var end := s.running[tx].began + 10 * MINUTE;
            && (kid in PublishedKeys(v.keys, v.clock) <==> v.clock < end)
            && (stamped <= v.clock ==>
                  (Accepts(v.keys, v.clock, Sign(kid, stamped))
                   <==> v.clock / SECOND < stamped / SECOND + 300 && v.clock < end))
  {
    hide Run, EnabledRun;
    CommitRetires(s, tx, kid);
    var first := Take(s, Commit(tx));
    RunKeepsUntil(first, steps, kid, s.running[tx].began + 10 * MINUTE);
    UnexpiredMeans(stamped, Run(first, steps).clock, kid);
  }

  // ---------------------------------------------------------------- the bound cannot be widened

  predicate Strands(s: Store, steps: seq<Step>, kid: string, stamped: nat) {
    && EnabledRun(s, steps)
    && var after := Run(s, steps);
       && stamped <= after.clock && Unexpired(Sign(kid, stamped), after.clock)
       && !Accepts(after.keys, after.clock, Sign(kid, stamped))
  }

  function Before(wait: nat, duration: nat): Store {
    Store(wait + duration, map["old" := SigningKey(0, None)], map[0 := Rotation("new", wait)], Some(0))
  }

  /** The store at the moment of the read is reached from one with a single active key. */
  lemma BeforeIsReached(wait: nat, duration: nat)
    ensures var start := Store(0, map["old" := SigningKey(0, None)], map[], None);
            var steps := [Tick(wait)] + [Begin(0, "new")] + [TakeLock(0)] + [Tick(duration)];
            EnabledRun(start, steps) && Run(start, steps) == Before(wait, duration)
  {
    var start := Store(0, map["old" := SigningKey(0, None)], map[], None);
    assert [] + [Tick(wait)] == [Tick(wait)];
    Extend(start, [], Tick(wait));
    Extend(start, [Tick(wait)], Begin(0, "new"));
    Extend(start, [Tick(wait)] + [Begin(0, "new")], TakeLock(0));
    Extend(start, [Tick(wait)] + [Begin(0, "new")] + [TakeLock(0)], Tick(duration));
  }

  lemma Extend(s: Store, steps: seq<Step>, step: Step)
    requires EnabledRun(s, steps) && Enabled(Run(s, steps), step)
    ensures EnabledRun(s, steps + [step]) && Run(s, steps + [step]) == Take(Run(s, steps), step)
  {
    assert (steps + [step])[..|steps|] == steps;
  }

  /** When lag and duration exceed five minutes together, an unexpired token can lose its key: the rotation retires
      the key as of the time it began, not the time it commits. */
  lemma LongRotationStrands(lag: nat, duration: nat) returns (wait: nat)
    requires lag + duration > LIFETIME
    ensures var s := Before(wait, duration);
            var stamped := s.clock + lag;
            && "old" in ActiveKeys(s.keys)
            && Strands(s, [Commit(0)] + [Tick(lag + LIFETIME - 1)], "old", stamped)
  {
    wait := SECOND - (duration + lag) % SECOND;
    var s := Before(wait, duration);
    var stamped := s.clock + lag;
    assert stamped % SECOND == 0;
    assert [] + [Commit(0)] == [Commit(0)];
    Extend(s, [], Commit(0));
    Extend(s, [Commit(0)], Tick(lag + LIFETIME - 1));
    var after := Run(s, [Commit(0)] + [Tick(lag + LIFETIME - 1)]);
    assert after.keys["old"].publishUntil == Some(wait + PUBLICATION);
    assert after.clock == stamped + LIFETIME - 1;
    WholeSecond(stamped);
  }

  lemma WholeSecond(stamped: nat)
    requires stamped % SECOND == 0
    ensures (stamped + LIFETIME - 1) / SECOND < (stamped + LIFETIME) / SECOND
  {
  }
}
