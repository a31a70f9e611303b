/** The deadline scheduler over whole runs: every elapsed frame period is accounted for as
    a fired deadline, a dropped one, or the fraction a resynchronising tick throws away. */
module Deadlines {
  import opened NatArithmetic
  import opened SceneClock

  /** Counts over a run: fired deadlines, resynchronising ticks, latest tick. */
  datatype Tally = Tally(fired: nat, resyncs: nat, latest: U64)

  predicate Fires(c: Clock, now: U64) { now >= c.nextDeadline }

  predicate Resyncs(c: Clock, now: U64) { Fires(c, now) && now - c.nextDeadline >= c.framePeriod }

  function CountAt(c: Clock, at: U64, t: Tally): Tally {
    Tally(t.fired + (if Fires(c, at) then 1 else 0), t.resyncs + (if Resyncs(c, at) then 1 else 0), at)
  }

  function Count(c: Clock, op: Op, t: Tally): Tally {
    if op.TickOp? then CountAt(c, Effective(c, op.now), t) else t
  }

  /** One operation: the clock after it, the tally after it, and a tick neither goes back nor fails. */
  ghost predicate StepAt(trace: seq<Clock>, tallies: seq<Tally>, ops: seq<Op>, k: nat)
    requires |trace| == |tallies| == |ops| + 1 && k < |ops|
  {
    && trace[k + 1] == Do(trace[k], ops[k]) && tallies[k + 1] == Count(trace[k], ops[k], tallies[k])
    && (ops[k].TickOp? ==> tallies[k].latest <= Effective(trace[k], ops[k].now) && Tick(trace[k], ops[k].now).ok)
  }

  /** A run of successful ticks at nondecreasing times, with manual requests at any time. */
  ghost predicate SteadyRun(trace: seq<Clock>, tallies: seq<Tally>, ops: seq<Op>) {
    && |trace| == |tallies| == |ops| + 1 && tallies[0] == Tally(0, 0, trace[0].origin)
    && forall k :: 0 <= k < |ops| ==> StepAt(trace, tallies, ops, k)
  }

  /** `n` periods in a row. */
  function Periods(n: nat, period: nat): nat {
    if n == 0 then 0 else Periods(n - 1, period) + period
  }

  lemma {:induction false} PeriodsIs(n: nat, period: nat)
    ensures Periods(n, period) == n * period
  {
    if n > 0 {
      PeriodsIs(n - 1, period);
      assert n * period == (n - 1) * period + period;
    }
  }

  /** `counted` whole periods fit into `due`, which exceeds them by less than one period for
      each resynchronisation. */
  ghost predicate Balanced(period: nat, counted: nat, resyncs: nat, due: int) {
    period > 0 && Periods(counted, period) <= due <= Periods(counted, period) + Periods(resyncs, period - 1)
  }

  /** Elapsed time up to the last deadline, in exact nanoseconds. */
  function Due(c: Clock): int { c.nextDeadline - c.framePeriod - c.origin }

  ghost predicate Ledger(c: Clock, t: Tally) {
    && Usable(c)
    && c.origin + Due(c) <= t.latest < c.nextDeadline
    && Balanced(c.framePeriod, t.fired + c.dropped, t.resyncs, Due(c))
  }

  lemma OnTimeArithmetic(p: nat, counted: nat, resyncs: nat, due: nat)
    requires Balanced(p, counted, resyncs, due)
    ensures Balanced(p, counted + 1, resyncs, due + p)
  {
  }

  lemma PeriodsAdd(a: nat, b: nat, p: nat)
    ensures Periods(a + b, p) == Periods(a, p) + Periods(b, p)
  {
    PeriodsIs(a + b, p);
    PeriodsIs(a, p);
    PeriodsIs(b, p);
    assert (a + b) * p == a * p + b * p;
  }

  lemma PeriodsWithin(late: nat, p: nat)
    requires p > 0
    ensures Periods(late / p, p) <= late < Periods(late / p, p) + p
  {
    PeriodsIs(late / p, p);
    DivisionBounds(late, p);
    assert (late / p + 1) * p == late / p * p + p;
  }

  lemma {:induction false} PeriodsAtLeast(n: nat, p: nat)
    requires p > 0
    ensures n <= Periods(n, p)
  {
    if n > 0 { PeriodsAtLeast(n - 1, p); }
  }

  lemma ResyncArithmetic(p: nat, counted: nat, resyncs: nat, due: nat, late: nat)
    requires Balanced(p, counted, resyncs, due)
    ensures Balanced(p, counted + 1 + late / p, resyncs + 1, due + p + late)
    ensures counted + 1 + late / p <= due + p + late
  {
    var k := late / p;
    PeriodsWithin(late, p);
    PeriodsAdd(counted + 1, k, p);
    PeriodsAtLeast(counted + 1 + k, p);
  }

  lemma {:induction false} ShorterPeriods(n: nat, p: nat)
    requires p > 0
    ensures Periods(n, p - 1) <= Periods(n, p)
  {
    if n > 0 { ShorterPeriods(n - 1, p); }
  }

  lemma PeriodsQuotient(n: nat, elapsed: nat, p: nat)
    requires p > 0
    ensures Periods(n, p) <= elapsed ==> n <= elapsed / p
    ensures elapsed < Periods(n, p) ==> elapsed / p < n
  {
    PeriodsIs(n, p);
    if Periods(n, p) <= elapsed {
      QuotientAtLeast(n, elapsed, p);
    } else {
      QuotientBelow(n, elapsed, p);
    }
  }

  lemma FrameArithmetic(p: nat, counted: nat, resyncs: nat, due: nat, elapsed: nat)
    requires Balanced(p, counted, resyncs, due) && due <= elapsed < due + p
    ensures counted <= elapsed / p <= counted + resyncs
  {
    ShorterPeriods(resyncs, p);
    PeriodsAdd(counted, resyncs, p);
    PeriodsQuotient(counted, elapsed, p);
    PeriodsQuotient(counted + resyncs + 1, elapsed, p);
  }

  /** `d` follows `c` in a successful tick at `at`, as far as deadlines go; `missed` whole
      periods went by since a deadline that was due. */
  ghost predicate DeadlineStep(c: Clock, at: U64, d: Clock, missed: nat) {
    && d.origin == c.origin <= at && d.framePeriod == c.framePeriod && Usable(d)
    && d.sleep == d.nextDeadline - at
    && d.nextDeadline == (if Resyncs(c, at) then at + c.framePeriod
                          else if Fires(c, at) then c.nextDeadline + c.framePeriod
                          else c.nextDeadline)
    && d.dropped == (if Resyncs(c, at) then (c.dropped + missed) % (U64_MAX + 1) else c.dropped)
  }

  function Missed(c: Clock, at: U64): nat
    requires Usable(c)
  {
    if Fires(c, at) then (at - c.nextDeadline) / c.framePeriod else 0
  }

  lemma TickIsDeadlineStep(c: Clock, now: U64)
    requires Usable(c) && Tick(c, now).ok
    ensures DeadlineStep(c, Effective(c, now), Tick(c, now).clock, Missed(c, Effective(c, now)))
    ensures Tick(c, now).clock.frame == (Effective(c, now) - c.origin) / c.framePeriod
  {
  }

  lemma StepKeepsLedger(c: Clock, at: U64, d: Clock, missed: nat, t: Tally)
    requires Ledger(c, t) && t.latest <= at && DeadlineStep(c, at, d, missed)
    requires Resyncs(c, at) ==>
               && Balanced(c.framePeriod, t.fired + c.dropped + 1 + missed, t.resyncs + 1, at - c.origin)
               && t.fired + c.dropped + 1 + missed <= at - c.origin
    requires Fires(c, at) && !Resyncs(c, at) ==>
               Balanced(c.framePeriod, t.fired + c.dropped + 1, t.resyncs, Due(c) + c.framePeriod)
    ensures Ledger(d, CountAt(c, at, t)) && c.dropped <= d.dropped
    ensures 0 < d.sleep <= d.framePeriod && d.origin + Due(d) <= at < d.nextDeadline
  {
    if Resyncs(c, at) {
      assert d.dropped == c.dropped + missed;
      assert CountAt(c, at, t).fired + d.dropped == t.fired + c.dropped + 1 + missed;
    }
  }

  /** A tick moves the ledger on, and the drop counter does not wrap. */
  lemma TickKeepsLedger(c: Clock, at: U64, d: Clock, t: Tally)
    requires Ledger(c, t) && t.latest <= at && DeadlineStep(c, at, d, Missed(c, at))
    ensures Ledger(d, CountAt(c, at, t)) && c.dropped <= d.dropped
    ensures 0 < d.sleep <= d.framePeriod && d.origin + Due(d) <= at < d.nextDeadline
  {
    var counted := t.fired + c.dropped;
    if Resyncs(c, at) {
      ResyncArithmetic(c.framePeriod, counted, t.resyncs, Due(c), at - c.nextDeadline);
      assert Due(c) + c.framePeriod + (at - c.nextDeadline) == at - c.origin;
    } else if Fires(c, at) {
      OnTimeArithmetic(c.framePeriod, counted, t.resyncs, Due(c));
    }
    StepKeepsLedger(c, at, d, Missed(c, at), t);
  }

  lemma LedgerCountsFrames(d: Clock, u: Tally, at: U64)
    requires Ledger(d, u) && d.origin + Due(d) <= at < d.nextDeadline
    requires d.frame == (at - d.origin) / d.framePeriod
    ensures u.fired + d.dropped <= d.frame <= u.fired + d.dropped + u.resyncs
  {
    FrameArithmetic(d.framePeriod, u.fired + d.dropped, u.resyncs, Due(d), at - d.origin);
  }

  lemma TickCountsFrames(c: Clock, now: U64, t: Tally)
    requires Ledger(c, t) && t.latest <= Effective(c, now) && Tick(c, now).ok
    ensures var d, u := Tick(c, now).clock, CountAt(c, Effective(c, now), t);
            && u.fired + d.dropped <= d.frame <= u.fired + d.dropped + u.resyncs
            && c.dropped <= d.dropped && 0 < d.sleep <= d.framePeriod
  {
    var at := Effective(c, now);
    var d, u := Tick(c, now).clock, CountAt(c, at, t);
    TickIsDeadlineStep(c, now);
    TickKeepsLedger(c, at, d, t);
    LedgerCountsFrames(d, u, at);
  }

  lemma RequestKeepsDeadlines(c: Clock, op: Op)
    requires !op.TickOp?
    ensures var d := Do(c, op);
            && d.origin == c.origin && d.framePeriod == c.framePeriod && d.scenePeriod == c.scenePeriod
            && d.sceneCount == c.sceneCount && d.nextDeadline == c.nextDeadline && d.dropped == c.dropped
  {
  }

  lemma OpKeepsLedger(c: Clock, op: Op, t: Tally, d: Clock, u: Tally)
    requires Ledger(c, t) && d == Do(c, op) && u == Count(c, op, t)
    requires op.TickOp? ==> t.latest <= Effective(c, op.now) && Tick(c, op.now).ok
    ensures Ledger(d, u) && d.origin == c.origin
  {
    if op.TickOp? {
      TickIsDeadlineStep(c, op.now);
      TickKeepsLedger(c, Effective(c, op.now), d, t);
    } else {
      RequestKeepsDeadlines(c, op);
    }
  }

  lemma {:induction false} LedgerAlongRun(trace: seq<Clock>, tallies: seq<Tally>, ops: seq<Op>, n: nat)
    requires SteadyRun(trace, tallies, ops) && n < |trace| && Ledger(trace[0], tallies[0])
    ensures Ledger(trace[n], tallies[n])
  {
    if n > 0 {
      LedgerAlongRun(trace, tallies, ops, n - 1);
      assert StepAt(trace, tallies, ops, n - 1);
      OpKeepsLedger(trace[n - 1], ops[n - 1], tallies[n - 1], trace[n], tallies[n]);
    }
  }

  /** Over every run of successful ticks at nondecreasing times, interleaved with any manual
      requests: after each tick the frame counter equals fired plus dropped deadlines up to one
      per resynchronisation, the drop counter has not wrapped, and the sleep is positive and at
      most one frame. */
  lemma DeadlinesConserved(count: Index, origin: U64, frameNs: U64, sceneNs: U64, minChange: U64,
                           trace: seq<Clock>, tallies: seq<Tally>, ops: seq<Op>, n: nat)
    requires SteadyRun(trace, tallies, ops) && n < |ops| && ops[n].TickOp?
    requires Start(count, origin, frameNs, sceneNs, minChange) == Ready(trace[0])
    ensures var d, t := trace[n + 1], tallies[n + 1];
            && t.fired + d.dropped <= d.frame <= t.fired + d.dropped + t.resyncs
            && trace[n].dropped <= d.dropped
            && 0 < d.sleep <= d.framePeriod
  {
    LedgerAlongRun(trace, tallies, ops, n);
    assert StepAt(trace, tallies, ops, n);
    TickCountsFrames(trace[n], ops[n].now, tallies[n]);
  }

  /** A tick fails exactly when a deadline is due in the last frame period of the 64-bit clock:
      the second overflow test of the source never decides. */
  lemma TickFailsOnlyAtTheEnd(c: Clock, now: U64)
    requires Usable(c)
    ensures !Tick(c, now).ok <==>
            Effective(c, now) >= c.nextDeadline && Effective(c, now) > U64_MAX - c.framePeriod
  {
    var d := SelectScene(c, Effective(c, now));
    assert d.nextDeadline == c.nextDeadline && d.framePeriod == c.framePeriod;
  }
}
