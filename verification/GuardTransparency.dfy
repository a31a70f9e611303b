/** The guard costs nothing when ticks are frequent: without manual requests the guarded
    runtime shows the same scene at every tick as the unguarded one. */
module GuardTransparency {
  import opened NatArithmetic
  import opened SceneClock

  function TickOps(ticks: seq<U64>): seq<Op> {
    seq(|ticks|, i requires 0 <= i < |ticks| => TickOp(ticks[i]))
  }

  /** The time of tick `n - 1`, or the origin before the first. */
  function TimeOf(origin: U64, ticks: seq<U64>, n: nat): U64
    requires n <= |ticks|
  {
    if n == 0 then origin else ticks[n - 1]
  }

  /** Ticks from the origin on, never going back and never more than `gap` apart. */
  ghost predicate Regular(origin: U64, ticks: seq<U64>, gap: nat) {
    forall i {:trigger TimeOf(origin, ticks, i)} :: 0 <= i < |ticks| ==>
      TimeOf(origin, ticks, i) <= ticks[i] <= TimeOf(origin, ticks, i) + gap
  }

  lemma PeriodsAdvance(period: nat, before: nat, after: nat, gap: nat)
    requires period > 0 && before <= after <= before + gap && gap <= period
    ensures before / period <= after / period <= before / period + 1
    ensures before < (before / period + 1) * period
    ensures after / period * period <= after
    ensures (before / period + 1) * period == before / period * period + period
  {
    var k := before / period;
    DivisionBounds(before, period);
    DivisionBounds(after, period);
    QuotientMonotone(before, after, period);
    assert (k + 2) * period == (k + 1) * period + period;
    QuotientBelow(k + 2, after, period);
  }

  /** At time `at` the clock shows the attract loop's scene, whose change, if any, came less
      than `gap` after the current scene period began. */
  ghost predicate InStep(c: Clock, at: U64, gap: nat) {
    && Usable(c) && !c.holdActive && c.origin <= at
    && c.sceneIndex == Automatic(c, at)
    && (c.hadChange ==>
          c.lastChange < c.origin + (at - c.origin) / c.scenePeriod * c.scenePeriod + gap)
  }

  /** The settings a run never changes. */
  ghost predicate SameSettings(c: Clock, d: Clock) {
    && d.origin == c.origin && d.scenePeriod == c.scenePeriod
    && d.sceneCount == c.sceneCount && d.minChange == c.minChange
  }

  /** `d` follows `c` in a tick at `now`, as far as the scene goes, when nothing is held. */
  ghost predicate Selects(c: Clock, now: U64, d: Clock) {
    Usable(c) && !c.holdActive && c.origin <= now ==>
      && Usable(d) && !d.holdActive && SameSettings(c, d)
      && (if Automatic(c, now) != c.sceneIndex && ChangeAllowed(c, now)
          then d.sceneIndex == Automatic(c, now) && d.hadChange && d.lastChange == now
          else d.sceneIndex == c.sceneIndex && d.hadChange == c.hadChange && d.lastChange == c.lastChange)
  }

  lemma TickSelects(c: Clock, now: U64)
    ensures Selects(c, now, Tick(c, now).clock)
  {
  }

  /** The clocks of a run over `ticks`. */
  ghost function Trace(c: Clock, ticks: seq<U64>): seq<Clock> {
    seq(|ticks| + 1, i requires 0 <= i <= |ticks| => After(c, TickOps(ticks), i))
  }

  ghost predicate SelectsAt(ticks: seq<U64>, trace: seq<Clock>, i: nat)
    requires |trace| == |ticks| + 1 && i < |ticks|
  {
    Selects(trace[i], ticks[i], trace[i + 1])
  }

  ghost predicate SceneRun(c: Clock, ticks: seq<U64>, trace: seq<Clock>) {
    && |trace| == |ticks| + 1 && trace[0] == c
    && forall i :: 0 <= i < |ticks| ==> SelectsAt(ticks, trace, i)
  }

  lemma RunIsSceneRun(c: Clock, ticks: seq<U64>)
    ensures SceneRun(c, ticks, Trace(c, ticks))
  {
    var trace := Trace(c, ticks);
    forall i | 0 <= i < |ticks| ensures SelectsAt(ticks, trace, i) {
      assert TickOps(ticks)[i] == TickOp(ticks[i]);
      TickSelects(After(c, TickOps(ticks), i), ticks[i]);
    }
  }

  /** In a new scene period the guard allows the change. */
  lemma NewPeriodAllowed(c: Clock, before: U64, now: U64, gap: nat)
    requires InStep(c, before, gap) && before <= now <= before + gap
    requires gap <= c.scenePeriod && gap + c.minChange <= c.scenePeriod + 1
    requires (now - c.origin) / c.scenePeriod != (before - c.origin) / c.scenePeriod
    ensures ChangeAllowed(c, now)
    ensures now < c.origin + (now - c.origin) / c.scenePeriod * c.scenePeriod + gap
  {
    PeriodsAdvance(c.scenePeriod, before - c.origin, now - c.origin, gap);
  }

  lemma TickStaysInStep(c: Clock, before: U64, now: U64, gap: nat, d: Clock)
    requires InStep(c, before, gap) && before <= now <= before + gap && Selects(c, now, d)
    requires gap <= c.scenePeriod && gap + c.minChange <= c.scenePeriod + 1
    ensures InStep(d, now, gap) && SameSettings(c, d)
  {
    if (now - c.origin) / c.scenePeriod != (before - c.origin) / c.scenePeriod {
      NewPeriodAllowed(c, before, now, gap);
      PeriodsAdvance(c.scenePeriod, before - c.origin, now - c.origin, gap);
    }
  }

  lemma {:induction false} GuardedRun(c: Clock, ticks: seq<U64>, trace: seq<Clock>, gap: nat, n: nat)
    requires SceneRun(c, ticks, trace) && n <= |ticks|
    requires InStep(c, c.origin, gap) && Regular(c.origin, ticks, gap)
    requires gap <= c.scenePeriod && gap + c.minChange <= c.scenePeriod + 1
    ensures InStep(trace[n], TimeOf(c.origin, ticks, n), gap) && SameSettings(c, trace[n])
  {
    if n > 0 {
      GuardedRun(c, ticks, trace, gap, n - 1);
      assert SelectsAt(ticks, trace, n - 1);
      TickStaysInStep(trace[n - 1], TimeOf(c.origin, ticks, n - 1), ticks[n - 1], gap, trace[n]);
    }
  }

  /** Shows the attract loop's scene, and has not changed later than `at`. */
  ghost predicate Current(c: Clock, at: U64) {
    && Usable(c) && !c.holdActive && c.origin <= at
    && c.sceneIndex == Automatic(c, at) && (c.hadChange ==> c.lastChange <= at)
  }

  lemma TickStaysCurrent(c: Clock, before: U64, now: U64, d: Clock)
    requires Current(c, before) && before <= now && Selects(c, now, d) && c.minChange <= 1
    ensures Current(d, now) && SameSettings(c, d)
  {
    if before < now {
      assert ChangeAllowed(c, now);
    }
  }

  /** With the guard off, or at one nanosecond, every tick shows the attract loop's scene. */
  lemma {:induction false} EagerRun(c: Clock, ticks: seq<U64>, trace: seq<Clock>, gap: nat, n: nat)
    requires SceneRun(c, ticks, trace) && n <= |ticks|
    requires Current(c, c.origin) && Regular(c.origin, ticks, gap) && c.minChange <= 1
    ensures Current(trace[n], TimeOf(c.origin, ticks, n)) && SameSettings(c, trace[n])
  {
    if n > 0 {
      EagerRun(c, ticks, trace, gap, n - 1);
      assert SelectsAt(ticks, trace, n - 1);
      TickStaysCurrent(trace[n - 1], TimeOf(c.origin, ticks, n - 1), ticks[n - 1], trace[n]);
    }
  }

  /** A runtime just initialised. */
  ghost predicate Fresh(c: Clock) {
    Usable(c) && !c.holdActive && !c.hadChange && c.sceneIndex == 0
  }

  lemma FreshInStep(c: Clock, gap: nat)
    requires Fresh(c)
    ensures InStep(c, c.origin, gap) && Current(c, c.origin)
  {
    QuotientUnique(0, c.scenePeriod, 0);
    QuotientUnique(0, c.sceneCount, 0);
  }

  lemma SameSchedule(c: Clock, d: Clock, at: U64)
    requires Usable(c) && c.origin == d.origin <= at
    requires c.scenePeriod == d.scenePeriod && c.sceneCount == d.sceneCount
    ensures d.sceneCount > 0 && d.scenePeriod > 0 && Automatic(d, at) == Automatic(c, at)
  {
  }

  lemma SceneWhenEager(c: Clock, ticks: seq<U64>, gap: nat, n: nat)
    requires Fresh(c) && Regular(c.origin, ticks, gap) && 0 < n <= |ticks| && c.minChange <= 1
    ensures c.origin <= ticks[n - 1]
    ensures After(c, TickOps(ticks), n).sceneIndex == Automatic(c, ticks[n - 1])
  {
    FreshInStep(c, gap);
    RunIsSceneRun(c, ticks);
    EagerRun(c, ticks, Trace(c, ticks), gap, n);
    SameSchedule(c, Trace(c, ticks)[n], ticks[n - 1]);
  }

  lemma SceneWhenGuarded(c: Clock, ticks: seq<U64>, gap: nat, n: nat)
    requires Fresh(c) && Regular(c.origin, ticks, gap) && 0 < n <= |ticks|
    requires c.minChange > 1 && gap + c.minChange <= c.scenePeriod + 1
    ensures c.origin <= ticks[n - 1]
    ensures After(c, TickOps(ticks), n).sceneIndex == Automatic(c, ticks[n - 1])
  {
    FreshInStep(c, gap);
    RunIsSceneRun(c, ticks);
    GuardedRun(c, ticks, Trace(c, ticks), gap, n);
    SameSchedule(c, Trace(c, ticks)[n], ticks[n - 1]);
  }

  lemma SceneAtTick(c: Clock, ticks: seq<U64>, gap: nat, n: nat)
    requires Fresh(c) && Regular(c.origin, ticks, gap) && 0 < n <= |ticks|
    requires c.minChange <= 1 || gap + c.minChange <= c.scenePeriod + 1
    ensures c.origin <= ticks[n - 1]
    ensures After(c, TickOps(ticks), n).sceneIndex == Automatic(c, ticks[n - 1])
  {
    if c.minChange <= 1 {
      SceneWhenEager(c, ticks, gap, n);
    } else {
      SceneWhenGuarded(c, ticks, gap, n);
    }
  }

  lemma StartsFresh(count: Index, origin: U64, frameNs: U64, sceneNs: U64, minChange: U64)
    requires Start(count, origin, frameNs, sceneNs, minChange).Ready?
    ensures var c := Start(count, origin, frameNs, sceneNs, minChange).clock;
            && Fresh(c) && c.origin == origin && c.minChange == minChange
            && c.sceneCount == count > 0 && c.scenePeriod == sceneNs > 0
    ensures Start(count, origin, frameNs, sceneNs, 0).Ready?
  {
  }

  lemma BothShow(guarded: Clock, free: Clock, gap: nat, ticks: seq<U64>, n: nat)
    requires Fresh(guarded) && Fresh(free) && guarded.origin == free.origin && free.minChange == 0
    requires guarded.sceneCount == free.sceneCount && guarded.scenePeriod == free.scenePeriod
    requires gap + guarded.minChange <= guarded.scenePeriod + 1
    requires Regular(guarded.origin, ticks, gap) && 0 < n <= |ticks|
    ensures guarded.origin <= ticks[n - 1]
    ensures After(guarded, TickOps(ticks), n).sceneIndex == After(free, TickOps(ticks), n).sceneIndex
            == Automatic(guarded, ticks[n - 1])
  {
    SceneAtTick(guarded, ticks, gap, n);
    SceneAtTick(free, ticks, gap, n);
    SameSchedule(guarded, free, ticks[n - 1]);
  }

  /** Two runs over the same ticks, one guarded and one not, show the same scene at every tick:
      `(elapsed / scenePeriod) % sceneCount`. */
  lemma GuardedShowsUnguarded(count: Index, origin: U64, frameNs: U64, sceneNs: U64, minChange: U64,
                              gap: nat, ticks: seq<U64>, n: nat)
    requires Start(count, origin, frameNs, sceneNs, minChange).Ready?
    requires gap + minChange <= sceneNs + 1 && Regular(origin, ticks, gap) && 0 < n <= |ticks|
    ensures Start(count, origin, frameNs, sceneNs, 0).Ready?
    ensures origin <= ticks[n - 1]
    ensures var guarded := After(Start(count, origin, frameNs, sceneNs, minChange).clock, TickOps(ticks), n);
            var free := After(Start(count, origin, frameNs, sceneNs, 0).clock, TickOps(ticks), n);
            guarded.sceneIndex == free.sceneIndex == ((ticks[n - 1] - origin) / sceneNs) % count
  {
    StartsFresh(count, origin, frameNs, sceneNs, minChange);
    StartsFresh(count, origin, frameNs, sceneNs, 0);
    BothShow(Start(count, origin, frameNs, sceneNs, minChange).clock,
             Start(count, origin, frameNs, sceneNs, 0).clock, gap, ticks, n);
  }

  // ----- beyond the bound the guard shows

  /** At every tick of every regular run the clock shows the attract loop's scene. */
  ghost predicate Transparent(c: Clock, gap: nat)
    requires c.sceneCount > 0 && c.scenePeriod > 0
  {
    forall ticks, n :: Regular(c.origin, ticks, gap) && 0 < n <= |ticks| && c.origin <= ticks[n - 1] ==>
      After(c, TickOps(ticks), n).sceneIndex == Automatic(c, ticks[n - 1])
  }

  /** One tick per nanosecond up to the end of the first scene period, a jump of `jump`, then
      one per nanosecond up to the start of the third period. */
  function LaggingTicks(c: Clock, jump: nat): (ticks: seq<U64>)
    requires 0 < jump <= c.scenePeriod && c.origin + 2 * c.scenePeriod <= U64_MAX
    ensures |ticks| == 2 * c.scenePeriod + 2 - jump
    ensures forall i :: 0 <= i < |ticks| ==>
              ticks[i] == c.origin + i + if i < c.scenePeriod then 0 else jump - 1
  {
    seq(2 * c.scenePeriod + 2 - jump, i requires 0 <= i < 2 * c.scenePeriod + 2 - jump =>
      c.origin + i + if i < c.scenePeriod then 0 else jump - 1)
  }

  lemma FirstPeriods(c: Clock, at: U64)
    requires Usable(c) && c.sceneCount > 1 && c.origin <= at <= c.origin + 2 * c.scenePeriod
    ensures at < c.origin + c.scenePeriod ==> Automatic(c, at) == 0
    ensures c.origin + c.scenePeriod <= at < c.origin + 2 * c.scenePeriod ==> Automatic(c, at) == 1
    ensures at == c.origin + 2 * c.scenePeriod ==> Automatic(c, at) != 1
  {
    var elapsed := at - c.origin;
    QuotientUnique(elapsed, c.scenePeriod,
                   if elapsed < c.scenePeriod then 0 else if elapsed < 2 * c.scenePeriod then 1 else 2);
  }

  /** Where a lagging run stands after `n` ticks. */
  ghost predicate Lagging(c: Clock, jump: nat, n: nat, d: Clock) {
    && Usable(d) && !d.holdActive && SameSettings(c, d)
    && (if n <= c.scenePeriod then d.sceneIndex == 0 && !d.hadChange
        else d.sceneIndex == 1 && d.hadChange && d.lastChange == c.origin + c.scenePeriod - 1 + jump)
  }

  lemma LagStep(c: Clock, jump: nat, n: nat, d: Clock, at: U64, e: Clock)
    requires Usable(c) && c.sceneCount > 1 && 0 < jump <= c.scenePeriod && n < 2 * c.scenePeriod + 1 - jump
    requires Lagging(c, jump, n, d) && Selects(d, at, e)
    requires at == c.origin + n + if n < c.scenePeriod then 0 else jump - 1
    ensures Lagging(c, jump, n + 1, e)
  {
    FirstPeriods(d, at);
  }

  lemma {:induction false} LagBuildsUp(c: Clock, jump: nat, trace: seq<Clock>, n: nat)
    requires Fresh(c) && c.sceneCount > 1 && 0 < jump <= c.scenePeriod
    requires c.origin + 2 * c.scenePeriod <= U64_MAX && n < 2 * c.scenePeriod + 2 - jump
    requires SceneRun(c, LaggingTicks(c, jump), trace)
    ensures Lagging(c, jump, n, trace[n])
  {
    if n > 0 {
      LagBuildsUp(c, jump, trace, n - 1);
      assert SelectsAt(LaggingTicks(c, jump), trace, n - 1);
      LagStep(c, jump, n - 1, trace[n - 1], LaggingTicks(c, jump)[n - 1], trace[n]);
    }
  }

  lemma LagShows(c: Clock, jump: nat, d: Clock, e: Clock)
    requires Usable(c) && c.sceneCount > 1 && 0 < jump <= c.scenePeriod
    requires c.origin + 2 * c.scenePeriod <= U64_MAX && c.minChange > c.scenePeriod + 1 - jump
    requires Lagging(c, jump, 2 * c.scenePeriod + 1 - jump, d)
    requires Selects(d, c.origin + 2 * c.scenePeriod, e)
    ensures e.sceneIndex == 1 != Automatic(c, c.origin + 2 * c.scenePeriod)
  {
    FirstPeriods(c, c.origin + 2 * c.scenePeriod);
  }

  lemma LagRun(c: Clock, jump: nat, trace: seq<Clock>)
    requires Fresh(c) && c.sceneCount > 1 && 0 < jump <= c.scenePeriod
    requires c.origin + 2 * c.scenePeriod <= U64_MAX && c.minChange > c.scenePeriod + 1 - jump
    requires SceneRun(c, LaggingTicks(c, jump), trace)
    ensures var ticks := LaggingTicks(c, jump);
            && ticks[|ticks| - 1] == c.origin + 2 * c.scenePeriod
            && trace[|ticks|].sceneIndex != Automatic(c, ticks[|ticks| - 1])
  {
    var n := |LaggingTicks(c, jump)|;
    LagBuildsUp(c, jump, trace, n - 1);
    assert SelectsAt(LaggingTicks(c, jump), trace, n - 1);
    LagShows(c, jump, trace[n - 1], trace[n]);
  }

  lemma LagIsRegular(c: Clock, jump: nat, gap: nat)
    requires 0 < jump <= c.scenePeriod && jump <= gap && c.origin + 2 * c.scenePeriod <= U64_MAX
    ensures Regular(c.origin, LaggingTicks(c, jump), gap)
  {
  }

  lemma RefutesTransparency(c: Clock, gap: nat, ticks: seq<U64>)
    requires Usable(c) && Regular(c.origin, ticks, gap) && |ticks| > 0 && c.origin <= ticks[|ticks| - 1]
    requires Trace(c, ticks)[|ticks|].sceneIndex != Automatic(c, ticks[|ticks| - 1])
    ensures !Transparent(c, gap)
  {
    assert After(c, TickOps(ticks), |ticks|).sceneIndex != Automatic(c, ticks[|ticks| - 1]);
  }

  lemma LagIsWrong(c: Clock, jump: nat, ticks: seq<U64>)
    requires Fresh(c) && c.sceneCount > 1 && 0 < jump <= c.scenePeriod
    requires c.origin + 2 * c.scenePeriod <= U64_MAX && c.minChange > c.scenePeriod + 1 - jump
    requires ticks == LaggingTicks(c, jump)
    ensures |ticks| > 0 && c.origin <= ticks[|ticks| - 1]
    ensures Trace(c, ticks)[|ticks|].sceneIndex != Automatic(c, ticks[|ticks| - 1])
  {
    RunIsSceneRun(c, ticks);
    LagRun(c, jump, Trace(c, ticks));
  }

  /** Beyond the bound some regular run shows the wrong scene. */
  lemma GuardCanLag(c: Clock, gap: nat)
    requires Fresh(c) && c.sceneCount > 1 && gap > 0 && c.minChange > 1
    requires gap + c.minChange > c.scenePeriod + 1 && c.origin + 2 * c.scenePeriod <= U64_MAX
    ensures !Transparent(c, gap)
  {
    var jump := if gap < c.scenePeriod then gap else c.scenePeriod;
    LagIsRegular(c, jump, gap);
    LagIsWrong(c, jump, LaggingTicks(c, jump));
    RefutesTransparency(c, gap, LaggingTicks(c, jump));
  }

  lemma {:induction false} SingleScene(c: Clock, ticks: seq<U64>, trace: seq<Clock>, gap: nat, n: nat)
    requires Fresh(c) && c.sceneCount == 1 && SceneRun(c, ticks, trace) && n <= |ticks|
    requires Regular(c.origin, ticks, gap)
    ensures Usable(trace[n]) && !trace[n].holdActive && SameSettings(c, trace[n])
    ensures trace[n].sceneIndex == 0 && c.origin <= TimeOf(c.origin, ticks, n)
  {
    if n > 0 {
      SingleScene(c, ticks, trace, gap, n - 1);
      assert SelectsAt(ticks, trace, n - 1);
      assert TimeOf(c.origin, ticks, n - 1) <= ticks[n - 1];
    }
  }

  /** The guard is invisible to every regular run exactly when the tick gap and the cooldown
      together exceed a scene period by at most one nanosecond (or there is nothing to guard). */
  lemma TransparentExactlyWhen(c: Clock, gap: nat)
    requires Fresh(c) && gap > 0 && c.origin + 2 * c.scenePeriod <= U64_MAX
    ensures Transparent(c, gap) <==>
            (c.sceneCount == 1 || c.minChange <= 1 || gap + c.minChange <= c.scenePeriod + 1)
  {
    if c.sceneCount > 1 && c.minChange > 1 && gap + c.minChange > c.scenePeriod + 1 {
      GuardCanLag(c, gap);
    } else {
      forall ticks, n | Regular(c.origin, ticks, gap) && 0 < n <= |ticks| && c.origin <= ticks[n - 1]
        ensures After(c, TickOps(ticks), n).sceneIndex == Automatic(c, ticks[n - 1])
      {
        if c.sceneCount == 1 {
          RunIsSceneRun(c, ticks);
          SingleScene(c, ticks, Trace(c, ticks), gap, n);
          assert Trace(c, ticks)[n] == After(c, TickOps(ticks), n);
        } else {
          SceneAtTick(c, ticks, gap, n);
        }
      }
    }
  }
}
