/** Manual scene requests over whole runs: when one is honoured, which scene it shows, and how long
    that scene stays. */
module ManualScenes {
  import opened SceneClock
  import opened RateLimit

  /** `c` is a freshly initialised clock. */
  predicate Begins(c: Clock) {
    Start(c.sceneCount, c.origin, c.framePeriod, c.scenePeriod, c.minChange) == Ready(c)
  }

  lemma TickAtOrigin(c: Clock)
    requires Usable(c) && c.sceneIndex == c.frame == 0 && !c.holdActive && c.origin < c.nextDeadline
    requires c.sleep == c.nextDeadline - c.origin
    ensures Tick(c, c.origin) == Outcome(c, true)
  {
    assert (c.origin - c.origin) / c.framePeriod == 0 && (c.origin - c.origin) / c.scenePeriod % c.sceneCount == 0;
  }

  /** Init accepts exactly the settings whose first deadline lies inside 64 bits, and leaves the
      clock as a tick at the origin would. */
  lemma StartIs(count: Index, origin: U64, frameNs: U64, sceneNs: U64, minChange: U64)
    ensures var s := Start(count, origin, frameNs, sceneNs, minChange);
            && (s.Ready? <==> count > 0 && frameNs > 0 && sceneNs > 0 && origin + frameNs < U64_MAX)
            && (s.Ready? ==> Begins(s.clock) && s.clock.nextDeadline == origin + frameNs
                             && Tick(s.clock, origin) == Outcome(s.clock, true))
  {
    var s := Start(count, origin, frameNs, sceneNs, minChange);
    if s.Ready? {
      TickAtOrigin(s.clock);
    }
  }

  // ----- runs

  /** Operation `k` of a run: the clock after it, and the times of all scene changes up to it. */
  ghost predicate StepAt(trace: seq<Clock>, times: seq<seq<U64>>, ops: seq<Op>, k: nat)
    requires |trace| == |times| == |ops| + 1 && k < |ops|
  {
    && trace[k + 1] == Do(trace[k], ops[k])
    && times[k + 1] == times[k] + if trace[k + 1].sceneIndex != trace[k].sceneIndex
                                  then [ActsAt(trace[k], ops[k])] else []
  }

  /** A run from init: `trace[k]` is the clock before operation `k`, `times[k]` when its scene changed. */
  ghost predicate IsRun(trace: seq<Clock>, times: seq<seq<U64>>, ops: seq<Op>) {
    && |trace| == |times| == |ops| + 1 && Begins(trace[0]) && times[0] == []
    && forall k :: 0 <= k < |ops| ==> StepAt(trace, times, ops, k)
  }

  /** Such a run is the one the rate limit speaks of. */
  lemma {:induction false} RunIs(trace: seq<Clock>, times: seq<seq<U64>>, ops: seq<Op>, n: nat)
    requires IsRun(trace, times, ops) && n < |trace|
    ensures trace[n] == After(trace[0], ops, n) && times[n] == ChangeTimes(trace[0], ops, n)
  {
    if n > 0 {
      RunIs(trace, times, ops, n - 1);
      assert StepAt(trace, times, ops, n - 1);
    }
  }

  /** `d` comes from a run of `c`: same settings, a scene in range, and a hold shows its scene. */
  ghost predicate Steady(c: Clock, d: Clock) {
    && d.sceneIndex < d.sceneCount && Usable(d) && (d.holdActive ==> d.sceneIndex == d.manualScene)
    && d.sceneCount == c.sceneCount && d.origin == c.origin && d.scenePeriod == c.scenePeriod
    && d.minChange == c.minChange
  }

  lemma OpKeepsSteady(c: Clock, d: Clock, op: Op, e: Clock)
    requires Steady(c, d) && e == Do(d, op)
    ensures Steady(c, e)
  {
  }

  lemma BeginsSteady(c: Clock)
    requires Begins(c)
    ensures Steady(c, c) && GuardInv(c, [])
  {
  }

  lemma OpKeepsGuard(c: Clock, op: Op, d: Clock, times: seq<U64>, next: seq<U64>)
    requires GuardInv(c, times) && d == Do(c, op)
    requires next == times + if d.sceneIndex != c.sceneIndex then [ActsAt(c, op)] else []
    ensures GuardInv(d, next)
  {
    ChangeIsGuarded(c, op);
  }

  lemma {:induction false} RunInv(trace: seq<Clock>, times: seq<seq<U64>>, ops: seq<Op>, n: nat)
    requires IsRun(trace, times, ops) && n < |trace|
    ensures Steady(trace[0], trace[n]) && GuardInv(trace[n], times[n])
  {
    BeginsSteady(trace[0]);
    if n > 0 {
      RunInv(trace, times, ops, n - 1);
      assert StepAt(trace, times, ops, n - 1);
      OpKeepsSteady(trace[0], trace[n - 1], ops[n - 1], trace[n]);
      OpKeepsGuard(trace[n - 1], ops[n - 1], trace[n], times[n - 1], times[n]);
    }
  }

  // ----- which requests are honoured

  /** No change among `times` is closer to `now` than `gap`; a clock that went back counts as close. */
  predicate Quiet(times: seq<U64>, gap: nat, now: U64) {
    gap == 0 || times == [] || times[|times| - 1] + gap <= now
  }

  lemma AllowedExactlyWhen(c: Clock, times: seq<U64>, now: U64)
    requires GuardInv(c, times)
    ensures ChangeAllowed(c, now) <==> Quiet(times, c.minChange, now)
  {
  }

  /** Operation `n` is a request, and the scene changes before it leave room for it. */
  predicate Honoured(minChange: nat, times: seq<seq<U64>>, ops: seq<Op>, n: nat)
    requires |times| == |ops| + 1 && n < |ops|
  {
    !ops[n].TickOp? && Quiet(times[n], minChange, ops[n].now)
  }

  /** The scene after or before `scene`, the latter computed inside size_t. */
  function Wanted(op: Op, scene: Index, count: Index): int {
    if op.NextOp? then if scene + 1 == count then 0 else scene + 1
    else if scene == 0 then count - 1
    else if scene + count - 1 < SIZE_MODULUS then scene - 1 else scene + count - 1 - SIZE_MODULUS
  }

  /** When a hold of `hold` nanoseconds begun at `now` ends. */
  function HoldEnd(now: U64, hold: U64): U64 {
    if now + hold > U64_MAX then U64_MAX else now + hold
  }

  /** `op` shows the scene it asks for and holds it for the time it asks for. */
  ghost predicate Shows(c: Clock, op: Op, d: Clock)
    requires !op.TickOp?
  {
    && d.sceneIndex == d.manualScene == Wanted(op, c.sceneIndex, c.sceneCount)
    && (d.holdActive <==> op.hold > 0) && (op.hold > 0 ==> d.holdUntil == HoldEnd(op.now, op.hold))
  }

  lemma RequestIs(c: Clock, op: Op, d: Clock)
    requires Steady(c, c) && !op.TickOp? && d == Do(c, op)
    ensures if ChangeAllowed(c, op.now) then Shows(c, op, d) else d == c
  {
    NextIndexIs(c.sceneIndex, c.sceneCount);
    PreviousIndexIs(c.sceneIndex, c.sceneCount);
  }

  /** In every run a request is honoured if and only if the last scene change, automatic or manual, is
      at least the minimum ago, and otherwise changes nothing. An honoured next shows the cyclic
      successor, an honoured previous the cyclic predecessor inside size_t, held for the time asked. */
  lemma RequestShows(trace: seq<Clock>, times: seq<seq<U64>>, ops: seq<Op>, n: nat)
    requires IsRun(trace, times, ops) && n < |ops| && !ops[n].TickOp?
    ensures trace[n].sceneIndex < trace[n].sceneCount == trace[0].sceneCount
    ensures if Honoured(trace[0].minChange, times, ops, n) then Shows(trace[n], ops[n], trace[n + 1])
            else trace[n + 1] == trace[n]
  {
    RunInv(trace, times, ops, n);
    assert StepAt(trace, times, ops, n);
    AllowedExactlyWhen(trace[n], times[n], ops[n].now);
    RequestIs(trace[n], ops[n], trace[n + 1]);
  }

  // ----- what ticks show

  /** A tick shows the held scene until the hold ends; from then on it shows the attract loop's scene,
      unless that is a change the guard refuses. */
  lemma TickShows(c: Clock, now: U64)
    requires Steady(c, c)
    ensures var d, at := Tick(c, now).clock, if now < c.origin then c.origin else now;
            && (d.holdActive <==> c.holdActive && at < c.holdUntil)
            && d.sceneIndex ==
               (if d.holdActive then c.manualScene
                else if ChangeAllowed(c, at) then (at - c.origin) / c.scenePeriod % c.sceneCount
                else c.sceneIndex)
            && d.manualScene == c.manualScene && d.holdUntil == c.holdUntil
  {
  }

  /** Operation `j` leaves a hold that ends at `until` alone: a tick before the end, or a request that
      comes too soon. */
  predicate Undisturbed(c: Clock, times: seq<seq<U64>>, ops: seq<Op>, j: nat, until: U64)
    requires |times| == |ops| + 1 && j < |ops|
  {
    if ops[j].TickOp? then Effective(c, ops[j].now) < until else !Honoured(c.minChange, times, ops, j)
  }

  ghost predicate Holding(d: Clock, scene: Index, until: U64) {
    d.holdActive && d.sceneIndex == d.manualScene == scene && d.holdUntil == until
  }

  lemma TickHolds(c: Clock, op: Op, d: Clock, scene: Index, until: U64)
    requires Steady(c, c) && op.TickOp? && d == Do(c, op)
    requires Holding(c, scene, until) && Effective(c, op.now) < until
    ensures Holding(d, scene, until)
  {
    TickShows(c, op.now);
  }

  lemma HoldStep(trace: seq<Clock>, times: seq<seq<U64>>, ops: seq<Op>, j: nat, scene: Index, until: U64)
    requires IsRun(trace, times, ops) && j < |ops| && Undisturbed(trace[0], times, ops, j, until)
    requires Holding(trace[j], scene, until)
    ensures Holding(trace[j + 1], scene, until)
  {
    if ops[j].TickOp? {
      RunInv(trace, times, ops, j);
      assert StepAt(trace, times, ops, j);
      TickHolds(trace[j], ops[j], trace[j + 1], scene, until);
    } else {
      RequestShows(trace, times, ops, j);
    }
  }

  /** A requested scene stays until the time asked for: no tick before `now + hold` and no refused
      request moves it. */
  lemma {:induction false} HoldKeepsScene(trace: seq<Clock>, times: seq<seq<U64>>, ops: seq<Op>, k: nat, m: nat)
    requires IsRun(trace, times, ops) && k < m <= |ops|
    requires Honoured(trace[0].minChange, times, ops, k) && ops[k].hold > 0
    requires forall j :: k < j < m ==> Undisturbed(trace[0], times, ops, j, HoldEnd(ops[k].now, ops[k].hold))
    ensures Holding(trace[m], trace[k + 1].sceneIndex, HoldEnd(ops[k].now, ops[k].hold))
    decreases m
  {
    if m == k + 1 {
      RequestShows(trace, times, ops, k);
    } else {
      HoldKeepsScene(trace, times, ops, k, m - 1);
      HoldStep(trace, times, ops, m - 1, trace[k + 1].sceneIndex, HoldEnd(ops[k].now, ops[k].hold));
    }
  }

  /** From `c` to `d` at time `at` the screen goes back to the attract loop, if the guard lets it. */
  predicate GivesBack(c: Clock, d: Clock, at: U64, quiet: bool)
    requires Usable(c) && at >= c.origin
  {
    !d.holdActive && d.sceneIndex == if quiet then Automatic(c, at) else c.sceneIndex
  }

  lemma TickAfterHold(c: Clock, op: Op, d: Clock, scene: Index, until: U64)
    requires Steady(c, c) && op.TickOp? && d == Do(c, op)
    requires Holding(c, scene, until) && Effective(c, op.now) >= until
    ensures GivesBack(c, d, Effective(c, op.now), ChangeAllowed(c, Effective(c, op.now)))
  {
    TickShows(c, op.now);
  }

  /** The first tick at or after the end gives the screen back to the attract loop, at once if the last
      change is long enough ago. */
  lemma HoldEnds(trace: seq<Clock>, times: seq<seq<U64>>, ops: seq<Op>, k: nat, m: nat)
    requires IsRun(trace, times, ops) && k < m < |ops| && ops[m].TickOp?
    requires Honoured(trace[0].minChange, times, ops, k) && ops[k].hold > 0
    requires forall j :: k < j < m ==> Undisturbed(trace[0], times, ops, j, HoldEnd(ops[k].now, ops[k].hold))
    requires Effective(trace[0], ops[m].now) >= HoldEnd(ops[k].now, ops[k].hold)
    ensures var at := Effective(trace[0], ops[m].now);
            && Usable(trace[m]) && at >= trace[m].origin
            && GivesBack(trace[m], trace[m + 1], at, Quiet(times[m], trace[0].minChange, at))
  {
    HoldKeepsScene(trace, times, ops, k, m);
    RunInv(trace, times, ops, m);
    assert StepAt(trace, times, ops, m);
    AllowedExactlyWhen(trace[m], times[m], Effective(trace[0], ops[m].now));
    TickAfterHold(trace[m], ops[m], trace[m + 1], trace[k + 1].sceneIndex, HoldEnd(ops[k].now, ops[k].hold));
  }

  lemma WantedBack(scene: Index, count: Index, forward: Op, back: Op)
    requires scene < count && forward.NextOp? && back.PreviousOp?
    ensures 0 <= Wanted(forward, scene, count) < count
    ensures Wanted(back, Wanted(forward, scene, count), count) == scene <==>
            scene + 1 == count || scene + count < SIZE_MODULUS
  {
  }

  /** An honoured next, then anything its hold outlasts, then an honoured previous: the first scene is
      back if and only if it was the last one or its index plus the count stays inside size_t. */
  lemma NextThenPrevious(trace: seq<Clock>, times: seq<seq<U64>>, ops: seq<Op>, k: nat, m: nat)
    requires IsRun(trace, times, ops) && k < m < |ops| && ops[k].NextOp? && ops[m].PreviousOp?
    requires Honoured(trace[0].minChange, times, ops, k) && Honoured(trace[0].minChange, times, ops, m)
    requires ops[k].hold > 0 || m == k + 1
    requires forall j :: k < j < m ==> Undisturbed(trace[0], times, ops, j, HoldEnd(ops[k].now, ops[k].hold))
    ensures trace[m + 1].sceneIndex == trace[k].sceneIndex <==>
            || trace[k].sceneIndex + 1 == trace[0].sceneCount
            || trace[k].sceneIndex + trace[0].sceneCount < SIZE_MODULUS
  {
    if ops[k].hold > 0 {
      HoldKeepsScene(trace, times, ops, k, m);
    }
    RequestShows(trace, times, ops, k);
    RequestShows(trace, times, ops, m);
    WantedBack(trace[k].sceneIndex, trace[0].sceneCount, ops[k], ops[m]);
  }
}
