/** The photosensitivity guard over whole runs: however ticks and manual requests are
    interleaved, and even if the clock runs backwards, scene changes stay apart. */
module RateLimit {
  import opened SceneClock

  /** The time at which an operation acts. */
  function ActsAt(c: Clock, op: Op): U64 {
    if op.TickOp? then Effective(c, op.now) else op.now
  }

  /** The times of the operations, among the first `n`, that changed the scene shown. */
  function ChangeTimes(c: Clock, ops: seq<Op>, n: nat): seq<U64>
    requires n <= |ops|
  {
    if n == 0 then []
    else
      var before, after := After(c, ops, n - 1), After(c, ops, n);
      ChangeTimes(c, ops, n - 1) +
      if after.sceneIndex != before.sceneIndex then [ActsAt(before, ops[n - 1])] else []
  }

  /** A hold shows the manual scene, and the guard remembers exactly the last change. */
  ghost predicate GuardInv(c: Clock, times: seq<U64>) {
    && (c.holdActive ==> c.sceneIndex == c.manualScene)
    && (c.hadChange <==> times != [])
    && (times != [] ==> c.lastChange == times[|times| - 1])
  }

  ghost predicate Apart(times: seq<U64>, gap: nat) {
    forall j :: 0 < j < |times| ==> times[j - 1] + gap <= times[j]
  }

  /** From `c` to `d` at time `at` the scene changed only if the guard allowed it, and then
      the change was recorded. */
  ghost predicate GuardedStep(c: Clock, d: Clock, at: U64) {
    && (d.holdActive ==> d.sceneIndex == d.manualScene)
    && d.minChange == c.minChange && d.origin == c.origin
    && (if d.sceneIndex != c.sceneIndex
        then ChangeAllowed(c, at) && d.hadChange && d.lastChange == at
        else d.hadChange == c.hadChange && d.lastChange == c.lastChange)
  }

  lemma TickIsGuarded(c: Clock, now: U64)
    requires c.holdActive ==> c.sceneIndex == c.manualScene
    ensures GuardedStep(c, Tick(c, now).clock, Effective(c, now))
  {
    if Usable(c) {
      assert GuardedStep(c, SelectScene(c, Effective(c, now)), Effective(c, now));
    }
  }

  /** Every operation changes the scene only when the guard allows it, and records it. */
  lemma ChangeIsGuarded(c: Clock, op: Op)
    requires c.holdActive ==> c.sceneIndex == c.manualScene
    ensures GuardedStep(c, Do(c, op), ActsAt(c, op))
  {
    if op.TickOp? {
      TickIsGuarded(c, op.now);
    }
  }

  lemma {:induction false} GuardAlongRun(c: Clock, ops: seq<Op>, n: nat)
    requires n <= |ops| && !c.holdActive && !c.hadChange
    ensures GuardInv(After(c, ops, n), ChangeTimes(c, ops, n))
    ensures After(c, ops, n).minChange == c.minChange
    ensures c.minChange > 0 ==> Apart(ChangeTimes(c, ops, n), c.minChange)
  {
    if n > 0 {
      GuardAlongRun(c, ops, n - 1);
      ChangeIsGuarded(After(c, ops, n - 1), ops[n - 1]);
    }
  }

  /** Over every run from a fresh start, consecutive scene changes are at least
      `minChange` nanoseconds apart. */
  lemma ChangesStayApart(count: Index, origin: U64, frameNs: U64, sceneNs: U64, minChange: U64,
                         ops: seq<Op>)
    requires minChange > 0 && Start(count, origin, frameNs, sceneNs, minChange).Ready?
    ensures var c := Start(count, origin, frameNs, sceneNs, minChange).clock;
            Apart(ChangeTimes(c, ops, |ops|), minChange)
  {
    GuardAlongRun(Start(count, origin, frameNs, sceneNs, minChange).clock, ops, |ops|);
  }

  /** How many of `times` lie in the half-open window from `lo` to `hi`. */
  function InWindow(times: seq<U64>, lo: int, hi: int): nat {
    if times == [] then 0
    else
      var last := times[|times| - 1];
      InWindow(times[..|times| - 1], lo, hi) + if lo <= last < hi then 1 else 0
  }

  lemma {:induction false} ApartIsOrdered(times: seq<U64>, gap: nat, j: nat)
    requires Apart(times, gap) && j + 1 < |times|
    ensures times[j] + gap <= times[|times| - 1]
    decreases |times|
  {
    if j + 2 < |times| {
      var shorter := times[..|times| - 1];
      ApartIsOrdered(shorter, gap, j);
      assert shorter[|shorter| - 1] == times[|times| - 2];
    }
  }

  lemma {:induction false} NarrowWindow(times: seq<U64>, lo: int, hi: int, wide: int)
    requires hi <= wide && forall j :: 0 <= j < |times| ==> times[j] < hi
    ensures InWindow(times, lo, wide) == InWindow(times, lo, hi)
  {
    if times != [] {
      NarrowWindow(times[..|times| - 1], lo, hi, wide);
    }
  }

  /** Changes `gap` apart: a half-open window of `k` gaps holds at most `k` of them. */
  lemma {:induction false} WindowHoldsAtMost(times: seq<U64>, gap: nat, lo: int, k: nat)
    requires gap > 0 && Apart(times, gap)
    ensures InWindow(times, lo, lo + k * gap) <= k
  {
    if times != [] {
      var n := |times| - 1;
      var earlier := times[..n];
      assert Apart(earlier, gap);
      if lo <= times[n] < lo + k * gap {
        assert k > 0;
        var hi := lo + (k - 1) * gap;
        assert hi + gap == lo + k * gap;
        forall j | 0 <= j < n ensures earlier[j] < hi {
          ApartIsOrdered(times, gap, j);
        }
        NarrowWindow(earlier, lo, hi, lo + k * gap);
        WindowHoldsAtMost(earlier, gap, lo, k - 1);
      } else {
        WindowHoldsAtMost(earlier, gap, lo, k);
      }
    }
  }

  /** With the cart's half-second guard, no second of any run sees more than two scene
      changes, below the three flashes a second of WCAG 2.1 success criterion 2.3.1. */
  lemma AtMostTwoChangesASecond(count: Index, origin: U64, frameNs: U64, sceneNs: U64,
                                ops: seq<Op>, from_: int)
    requires Start(count, origin, frameNs, sceneNs, MIN_CHANGE_NS).Ready?
    ensures var c := Start(count, origin, frameNs, sceneNs, MIN_CHANGE_NS).clock;
            InWindow(ChangeTimes(c, ops, |ops|), from_, from_ + 1_000_000_000) <= 2
  {
    var c := Start(count, origin, frameNs, sceneNs, MIN_CHANGE_NS).clock;
    ChangesStayApart(count, origin, frameNs, sceneNs, MIN_CHANGE_NS, ops);
    WindowHoldsAtMost(ChangeTimes(c, ops, |ops|), MIN_CHANGE_NS, from_, 2);
  }
}
