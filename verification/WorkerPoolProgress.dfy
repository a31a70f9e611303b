/** Every call into the worker pool ends: outside a rest state some thread can always take
    a step, and every step but a spurious wakeup lowers a measure. */
module WorkerPoolProgress {
  import opened RowBands
  import opened WorkerPool
  import opened WorkerPoolInvariant

  /** The main thread is between calls, or has left the pool for good. */
  predicate AtRest(s: State) { s.main == Idle || s.main == Failed || s.main == Off }

  /** Steps a call takes by itself: not the caller's next call, not a spurious wakeup. */
  predicate Proper(l: Label) { l.Worker? || l.Main? || l.CreateFails? }

  // ----- some thread can step

  /** A worker that is not blocked. */
  ghost predicate CanStep(cfg: Config, s: State) {
    Shape(cfg, s) && (MainEnabled(cfg, s) || exists i :: 0 <= i < cfg.workers && WorkerEnabled(cfg, s, i))
  }

  lemma MutexAdvances(cfg: Config, s: State)
    requires Inv(cfg, s) && s.gate.mutex != Free
    ensures CanStep(cfg, s)
  {
    if s.gate.mutex.ByWorker? {
      assert WorkerEnabled(cfg, s, s.gate.mutex.index);
    }
  }

  lemma SomeOutside(a: set<nat>, n: nat) returns (i: nat)
    requires |a| < n
    ensures i < n && i !in a
  {
    i := 0;
    var rest := a;
    while i in a
      invariant i < n && |rest| < n - i && rest <= a
      invariant forall k :: k in a ==> k < i || k in rest
      decreases n - i
    {
      rest := rest - {i};
      i := i + 1;
    }
  }

  lemma GateOpens(cfg: Config, s: State)
    requires Inv(cfg, s) && s.main == GateSleep
    ensures CanStep(cfg, s)
  {
    if s.gate.mutex == Free {
      var i := SomeOutside(Passed(s.workers), cfg.workers);
      assert AtGate(s.workers[i]) && s.workers[i] == Lock;
      assert WorkerEnabled(cfg, s, i);
    } else {
      MutexAdvances(cfg, s);
    }
  }

  lemma FailedWorkerLeaves(cfg: Config, s: State)
    requires Inv(cfg, s) && s.main.FailJoin?
    ensures CanStep(cfg, s)
  {
    var j := s.main.next;
    if j < s.gate.created && s.workers[j] != Done {
      if s.gate.mutex == Free {
        assert s.workers[j] == Lock && WorkerEnabled(cfg, s, j);
      } else {
        MutexAdvances(cfg, s);
      }
    }
  }

  lemma StartRoundFills(cfg: Config, s: State)
    requires Inv(cfg, s) && (s.main == MainInStart(s.start.round) || s.main == InQuit(s.start.round))
    ensures CanStep(cfg, s)
  {
    var i := SomeOutside(Standing(s.workers, InStart(s.start.round)), cfg.workers);
    assert s.workers[i] == AtStart || s.workers[i].InStop?;
    assert WorkerEnabled(cfg, s, i);
  }

  lemma RunStaysInFrame(cfg: Config, s: State, i: nat)
    requires Inv(cfg, s) && i < cfg.workers && s.workers[i].Run?
    ensures WorkerEnabled(cfg, s, i)
  {
    BandWithin(i, cfg.rows, cfg.workers);
  }

  lemma StopRoundFills(cfg: Config, s: State)
    requires Inv(cfg, s) && s.main == MainInStop(s.stop.round)
    ensures CanStep(cfg, s)
  {
    var i := SomeOutside(Standing(s.workers, InStop(s.stop.round)), cfg.workers);
    if s.workers[i].Run? {
      RunStaysInFrame(cfg, s, i);
    }
    assert WorkerEnabled(cfg, s, i);
  }

  lemma QuitterLeaves(cfg: Config, s: State)
    requires Inv(cfg, s) && s.main.Joining?
    ensures CanStep(cfg, s)
  {
    var j := s.main.next;
    if j < cfg.workers && s.workers[j] != Done {
      assert WorkerEnabled(cfg, s, j);
    }
  }

  lemma SomeThreadSteps(cfg: Config, s: State)
    requires Inv(cfg, s)
    ensures AtRest(s) || CanStep(cfg, s)
  {
    if s.main.GateSleep? {
      GateOpens(cfg, s);
    } else if s.main.FailJoin? {
      FailedWorkerLeaves(cfg, s);
    } else if s.main.Joining? {
      QuitterLeaves(cfg, s);
    } else if s.main == MainInStart(s.start.round) || s.main == InQuit(s.start.round) {
      StartRoundFills(cfg, s);
    } else if s.main == MainInStop(s.stop.round) {
      StopRoundFills(cfg, s);
    } else if s.gate.mutex != Free {
      MutexAdvances(cfg, s);
    }
  }

  /** Every reachable state that is not at rest has an enabled proper step. */
  lemma NoDeadlock(cfg: Config, trace: seq<State>, labels: seq<Label>, k: nat)
    requires ValidConfig(cfg) && IsRun(cfg, trace, labels) && k < |trace|
    ensures AtRest(trace[k]) || CanStep(cfg, trace[k])
  {
    RunKeepsInv(cfg, trace, labels, k);
    SomeThreadSteps(cfg, trace[k]);
  }

  // ----- and every proper step counts down

  /** Steps worker `w` can still take before it must wait for the main thread. */
  function Rank(w: WorkerPc, rows: nat, round: nat, ready: bool): nat {
    match w
    case Unborn => 9
    case Lock => if ready then 5 else 8
    case Check => if ready then 4 else 7
    case Sleep => 6
    case AtStart => 1
    case InStart(t) => if t < round then rows + 6 else 0
    case Test => rows + 5
    case Run(run, row) => if row <= run.hi then 4 + run.hi - row else 4
    case AtStop => 3
    case InStop(_) => 2
    case Done => 0
  }

  ghost function Ranks(cfg: Config, s: State): (ranks: seq<nat>)
    ensures |ranks| == |s.workers|
    ensures forall i :: 0 <= i < |ranks| ==>
              ranks[i] == Rank(s.workers[i], cfg.rows, s.start.round, s.gate.ready)
  {
    seq(|s.workers|, i requires 0 <= i < |s.workers| =>
      Rank(s.workers[i], cfg.rows, s.start.round, s.gate.ready))
  }

  function Sum(a: seq<nat>): nat {
    if a == [] then 0 else a[0] + Sum(a[1..])
  }

  function MainRank(m: MainPc, workers: nat): int {
    match m
    case Creating(n) => 2 * workers + 5 - n
    case FailLock => workers + 4
    case FailSignal => workers + 3
    case FailJoin(j) => workers + 2 - j
    case FailDestroy => 1
    case ReadyLock => 5
    case ReadySignal => 4
    case GateRelock => 3
    case GateTest => 2
    case GateSleep => 1
    case PutJob => 7
    case PutSlots => 6
    case PutGeneration => 5
    case EnterStart => 4
    case MainInStart(_) => 3
    case EnterStop => 2
    case MainInStop(_) => 1
    case QuitFlag => workers + 5
    case EnterQuit => workers + 4
    case InQuit(_) => workers + 3
    case Joining(j) => workers + 2 - j
    case Destroying => 1
    case _ => 0
  }

  /** The current call has yet to complete its start round. */
  predicate RoundAhead(s: State) {
    || s.main.QuitFlag? || s.main.EnterQuit? || (s.main.InQuit? && s.main.ticket == s.start.round)
    || s.main.PutJob? || s.main.PutSlots? || s.main.PutGeneration? || s.main.EnterStart?
    || (s.main.MainInStart? && s.main.ticket == s.start.round)
  }

  ghost function Measure(cfg: Config, s: State): int {
    (if RoundAhead(s) then cfg.workers * (cfg.rows + 7) else 0)
    + Sum(Ranks(cfg, s)) + MainRank(s.main, cfg.workers)
  }

  lemma {:induction false} SumUpdate(a: seq<nat>, b: seq<nat>, i: nat)
    requires i < |a| == |b| && forall j :: 0 <= j < |a| && j != i ==> a[j] == b[j]
    ensures Sum(a) - a[i] == Sum(b) - b[i]
  {
    if i == 0 {
      assert a[1..] == b[1..];
    } else {
      SumUpdate(a[1..], b[1..], i - 1);
    }
  }

  lemma {:induction false} SumAtMost(a: seq<nat>, b: seq<nat>, d: nat)
    requires |a| == |b| && forall j :: 0 <= j < |a| ==> a[j] <= b[j] + d
    ensures Sum(a) <= Sum(b) + |a| * d
  {
    if a != [] {
      SumAtMost(a[1..], b[1..], d);
      assert |a| * d == |a[1..]| * d + d;
    }
  }

  lemma SameRanks(cfg: Config, s: State, t: State)
    requires t.workers == s.workers && t.start.round == s.start.round && t.gate.ready == s.gate.ready
    ensures Ranks(cfg, t) == Ranks(cfg, s)
  {
  }

  /** The step that completes a start round pays for the work it releases. */
  lemma RoundPays(cfg: Config, s: State, t: State)
    requires |t.workers| == |s.workers| == cfg.workers > 0
    requires forall i :: 0 <= i < cfg.workers ==>
               Rank(t.workers[i], cfg.rows, t.start.round, t.gate.ready) <= cfg.rows + 6
    ensures Sum(Ranks(cfg, t)) < Sum(Ranks(cfg, s)) + cfg.workers * (cfg.rows + 7)
  {
    SumAtMost(Ranks(cfg, t), Ranks(cfg, s), cfg.rows + 6);
    assert cfg.workers * (cfg.rows + 7) == cfg.workers * (cfg.rows + 6) + cfg.workers;
  }

  lemma LockCountsDown(cfg: Config, s: State, i: nat)
    requires Shape(cfg, s) && i < cfg.workers && s.workers[i] == Lock
    ensures Measure(cfg, TakeMutex(s, i)) < Measure(cfg, s)
  {
    SumUpdate(Ranks(cfg, TakeMutex(s, i)), Ranks(cfg, s), i);
  }

  lemma SleepCountsDown(cfg: Config, s: State, i: nat)
    requires Shape(cfg, s) && !s.gate.ready && i < cfg.workers && s.workers[i] == Check
    ensures Measure(cfg, TryGate(s, i)) < Measure(cfg, s)
  {
    SumUpdate(Ranks(cfg, TryGate(s, i)), Ranks(cfg, s), i);
  }

  lemma GateCountsDown(cfg: Config, s: State, i: nat)
    requires Shape(cfg, s) && FlagInv(cfg, s) && GateInv(cfg, s) && s.gate.ready
    requires i < cfg.workers && s.workers[i] == Check
    ensures Measure(cfg, TryGate(s, i)) < Measure(cfg, s)
  {
    assert Awake(s.workers) == s.workers;
    SumUpdate(Ranks(cfg, TryGate(s, i)), Ranks(cfg, s), i);
  }

  lemma LastArrivalCountsDown(cfg: Config, s: State, i: nat)
    requires ControlInv(cfg, s) && i < cfg.workers && s.workers[i] == AtStart && s.start.arrived == cfg.workers
    ensures Measure(cfg, ArriveStart(s, i)) < Measure(cfg, s)
  {
    StartRoundFull(cfg, s, i);
    RoundPays(cfg, s, ArriveStart(s, i));
  }

  lemma BeginCountsDown(cfg: Config, s: State, i: nat)
    requires Shape(cfg, s) && i < cfg.workers && s.workers[i] == Test
    ensures Measure(cfg, BeginJob(cfg, s, i)) < Measure(cfg, s)
  {
    BandWithin(i, cfg.rows, cfg.workers);
    SumUpdate(Ranks(cfg, BeginJob(cfg, s, i)), Ranks(cfg, s), i);
  }

  lemma RunCountsRow(cfg: Config, s: State, i: nat)
    requires Shape(cfg, s) && WorkersInv(cfg, s) && WorkerEnabled(cfg, s, i) && s.workers[i].Run?
    ensures Measure(cfg, RunJob(cfg, s, i)) < Measure(cfg, s)
  {
    SumUpdate(Ranks(cfg, RunJob(cfg, s, i)), Ranks(cfg, s), i);
  }

  lemma JobCountsDown(cfg: Config, s: State, i: nat)
    requires Shape(cfg, s) && WorkerEnabled(cfg, s, i)
    requires s.workers[i].InStart? || s.workers[i].InStop? || s.workers[i] == AtStop
          || (s.workers[i] == AtStart && s.start.arrived < cfg.workers)
    ensures Measure(cfg, WorkerStep(cfg, s, i)) < Measure(cfg, s)
  {
    SumUpdate(Ranks(cfg, WorkerStep(cfg, s, i)), Ranks(cfg, s), i);
  }

  lemma WorkerCountsDown(cfg: Config, s: State, i: nat)
    requires ControlInv(cfg, s) && WorkerEnabled(cfg, s, i)
    ensures Measure(cfg, WorkerStep(cfg, s, i)) < Measure(cfg, s)
  {
    if s.workers[i] == Lock {
      LockCountsDown(cfg, s, i);
    } else if s.workers[i] == Check {
      if s.gate.ready { GateCountsDown(cfg, s, i); } else { SleepCountsDown(cfg, s, i); }
    } else if s.workers[i] == Test {
      BeginCountsDown(cfg, s, i);
    } else if s.workers[i].Run? {
      RunCountsRow(cfg, s, i);
    } else if s.workers[i] == AtStart && s.start.arrived == cfg.workers {
      LastArrivalCountsDown(cfg, s, i);
    } else {
      JobCountsDown(cfg, s, i);
    }
  }

  lemma SignalCountsDown(cfg: Config, s: State, t: State)
    requires Shape(cfg, s) && Shape(cfg, t) && MutexInv(cfg, s) && HoldsMutex(s.main)
    requires t.workers == Awake(s.workers) && t.start == s.start && !s.gate.ready && t.gate.ready
    ensures Sum(Ranks(cfg, t)) <= Sum(Ranks(cfg, s))
  {
    SumAtMost(Ranks(cfg, t), Ranks(cfg, s), 0);
  }

  lemma MainArrivalCountsDown(cfg: Config, s: State, inside: MainPc)
    requires Shape(cfg, s) && BarrierSide(cfg, s)
    requires || (s.main.EnterStart? && inside == MainInStart(s.start.round))
             || (s.main.EnterQuit? && inside == InQuit(s.start.round))
    ensures Measure(cfg, MainArriveStart(s, inside)) < Measure(cfg, s)
  {
    var t := MainArriveStart(s, inside);
    if s.start.arrived == cfg.workers {
      EveryoneStands(s.start.arrived, s.workers, InStart(s.start.round));
      RoundPays(cfg, s, t);
    } else {
      SameRanks(cfg, s, t);
    }
  }

  lemma CreateCountsDown(cfg: Config, s: State)
    requires Shape(cfg, s) && GateSide(cfg, s) && s.main.Creating?
    ensures Measure(cfg, Create(s)) < Measure(cfg, s)
  {
    var t := Create(s);
    if s.main.next < cfg.workers {
      SumUpdate(Ranks(cfg, t), Ranks(cfg, s), s.main.next);
    } else {
      SameRanks(cfg, s, t);
    }
  }

  lemma GateMainCountsDown(cfg: Config, s: State)
    requires Shape(cfg, s) && FlagInv(cfg, s) && MainEnabled(cfg, s)
    requires Starting(s.main) || Failing(s.main)
    requires !s.main.FailSignal? && !s.main.ReadySignal? && !s.main.Creating?
    ensures Measure(cfg, MainStep(cfg, s)) < Measure(cfg, s)
  {
    SameRanks(cfg, s, MainStep(cfg, s));
  }

  lemma BroadcastCountsDown(cfg: Config, s: State, t: State)
    requires Shape(cfg, s) && MutexInv(cfg, s) && FlagInv(cfg, s) && (s.main.FailSignal? || s.main.ReadySignal?)
    requires t == if s.main.FailSignal? then SignalFailure(s) else SignalReady(s)
    ensures Measure(cfg, t) < Measure(cfg, s)
  {
    SignalCountsDown(cfg, s, t);
  }

  lemma InitCountsDown(cfg: Config, s: State)
    requires Shape(cfg, s) && GateSide(cfg, s) && MainEnabled(cfg, s) && (Starting(s.main) || Failing(s.main))
    ensures Measure(cfg, MainStep(cfg, s)) < Measure(cfg, s)
  {
    if s.main.FailSignal? || s.main.ReadySignal? {
      BroadcastCountsDown(cfg, s, MainStep(cfg, s));
    } else if s.main.Creating? {
      CreateCountsDown(cfg, s);
    } else {
      GateMainCountsDown(cfg, s);
    }
  }

  lemma CallCountsDown(cfg: Config, s: State)
    requires Shape(cfg, s) && FlagInv(cfg, s) && MainInv(s) && MainEnabled(cfg, s) && Calling(s.main)
    requires !s.main.EnterStart?
    ensures Measure(cfg, MainStep(cfg, s)) < Measure(cfg, s)
  {
    SameRanks(cfg, s, MainStep(cfg, s));
  }

  lemma QuitCountsDown(cfg: Config, s: State)
    requires Shape(cfg, s) && FlagInv(cfg, s) && MainInv(s) && MainEnabled(cfg, s)
    requires s.main.QuitFlag? || (Quitting(s.main) && !s.main.EnterQuit?)
    ensures Measure(cfg, MainStep(cfg, s)) < Measure(cfg, s)
  {
    SameRanks(cfg, s, MainStep(cfg, s));
  }

  lemma MainCountsDown(cfg: Config, s: State)
    requires ControlInv(cfg, s) && MainEnabled(cfg, s)
    ensures Measure(cfg, MainStep(cfg, s)) < Measure(cfg, s)
  {
    if s.main.EnterStart? {
      MainArrivalCountsDown(cfg, s, MainInStart(s.start.round));
    } else if s.main.EnterQuit? {
      MainArrivalCountsDown(cfg, s, InQuit(s.start.round));
    } else if Starting(s.main) || Failing(s.main) {
      InitCountsDown(cfg, s);
    } else if Calling(s.main) {
      CallCountsDown(cfg, s);
    } else {
      QuitCountsDown(cfg, s);
    }
  }

  lemma WakeWorkerCosts(cfg: Config, s: State, i: nat)
    requires Shape(cfg, s) && GateInv(cfg, s) && i < cfg.workers && s.workers[i] == Sleep
    ensures Measure(cfg, s.(workers := s.workers[i := Lock])) <= Measure(cfg, s) + 2
  {
    SumUpdate(Ranks(cfg, s.(workers := s.workers[i := Lock])), Ranks(cfg, s), i);
  }

  lemma WakeMainCosts(cfg: Config, s: State)
    requires Shape(cfg, s) && s.main == GateSleep
    ensures Measure(cfg, s.(main := GateRelock)) <= Measure(cfg, s) + 2
  {
    SameRanks(cfg, s, s.(main := GateRelock));
  }

  /** A proper step lowers the measure; a spurious wakeup raises it by at most two. */
  predicate Descends(l: Label, before: int, after: int) {
    if Proper(l) then after < before else (l.WakeWorker? || l.WakeMain?) && after <= before + 2
  }

  lemma StepCountsDown(cfg: Config, s: State, l: Label, t: State)
    requires ControlInv(cfg, s) && Follows(cfg, s, l, t)
    ensures Proper(l) ==> Measure(cfg, t) < Measure(cfg, s)
    ensures l.WakeWorker? || l.WakeMain? ==> Measure(cfg, t) <= Measure(cfg, s) + 2
  {
    match l
    case Worker(i) => WorkerCountsDown(cfg, s, i);
    case Main => MainCountsDown(cfg, s);
    case CreateFails => SameRanks(cfg, s, t);
    case WakeWorker(i) => WakeWorkerCosts(cfg, s, i);
    case WakeMain => WakeMainCosts(cfg, s);
    case _ =>
  }

  lemma RunCountsDown(cfg: Config, trace: seq<State>, labels: seq<Label>, k: nat)
    requires ValidConfig(cfg) && IsRun(cfg, trace, labels) && k < |labels|
    requires !labels[k].Dispatch? && !labels[k].Redraw? && !labels[k].Shutdown?
    ensures Descends(labels[k], Measure(cfg, trace[k]), Measure(cfg, trace[k + 1]))
  {
    RunKeepsInv(cfg, trace, labels, k);
    assert StepAt(cfg, trace, labels, k);
    StepCountsDown(cfg, trace[k], labels[k], trace[k + 1]);
  }

  /** Spurious wakeups among the labels from `a` to `b`. */
  function Spurious(labels: seq<Label>, a: nat, b: nat): nat
    requires a <= b <= |labels|
  {
    if a == b then 0
    else Spurious(labels, a, b - 1) + if labels[b - 1].WakeWorker? || labels[b - 1].WakeMain? then 1 else 0
  }

  lemma MeasureNonNegative(cfg: Config, s: State)
    requires Shape(cfg, s) && FlagInv(cfg, s)
    ensures Measure(cfg, s) >= 0
  {
    assert cfg.workers * (cfg.rows + 7) >= 0;
  }

  lemma MeasureAlongRun(cfg: Config, trace: seq<State>, labels: seq<Label>, k: nat)
    requires ValidConfig(cfg) && IsRun(cfg, trace, labels) && k < |trace|
    ensures Measure(cfg, trace[k]) >= 0
  {
    RunKeepsInv(cfg, trace, labels, k);
    MeasureNonNegative(cfg, trace[k]);
  }

  /** `steps` steps took the measure from `start` to `now`, with `spurious` wakeups among them. */
  predicate Bounded(steps: int, now: int, start: int, spurious: nat) {
    steps + now <= start + 3 * spurious
  }

  lemma OneStepMore(l: Label, before: int, after: int, start: int, steps: nat, spurious: nat)
    requires Descends(l, before, after) && Bounded(steps, before, start, spurious)
    ensures Bounded(steps + 1, after, start, spurious + if l.WakeWorker? || l.WakeMain? then 1 else 0)
  {
  }

  /** A stretch of any run without a new call is bounded: at most `Measure` steps, plus three
      for each spurious wakeup in it. */
  lemma {:induction false} CallEnds(cfg: Config, trace: seq<State>, labels: seq<Label>, a: nat, b: nat)
    requires ValidConfig(cfg) && IsRun(cfg, trace, labels) && a <= b < |trace|
    requires forall k :: a <= k < b ==> !labels[k].Dispatch? && !labels[k].Redraw? && !labels[k].Shutdown?
    ensures Measure(cfg, trace[b]) >= 0
    ensures Bounded(b - a, Measure(cfg, trace[b]), Measure(cfg, trace[a]), Spurious(labels, a, b))
    decreases b
  {
    MeasureAlongRun(cfg, trace, labels, b);
    if a < b {
      CallEnds(cfg, trace, labels, a, b - 1);
      RunCountsDown(cfg, trace, labels, b - 1);
      OneStepMore(labels[b - 1], Measure(cfg, trace[b - 1]), Measure(cfg, trace[b]), Measure(cfg, trace[a]),
                  b - 1 - a, Spurious(labels, a, b - 1));
    }
  }

  lemma {:induction false} SumOfZeros(a: seq<nat>)
    requires forall i :: 0 <= i < |a| ==> a[i] == 0
    ensures Sum(a) == 0
  {
    if a != [] { SumOfZeros(a[1..]); }
  }

  lemma FreshCallMeasure(cfg: Config, s: State)
    requires ControlInv(cfg, s) && s.main == PutJob
    ensures Measure(cfg, s) <= cfg.workers * (cfg.rows + 9) + 7
  {
    var none := seq(cfg.workers, _ => 0 as nat);
    SumOfZeros(none);
    forall i | 0 <= i < cfg.workers ensures Ranks(cfg, s)[i] <= none[i] + 2 {
      assert s.workers[i] == s.workers[i];
    }
    SumAtMost(Ranks(cfg, s), none, 2);
    assert cfg.workers * (cfg.rows + 9) == cfg.workers * (cfg.rows + 7) + 2 * cfg.workers;
  }

  lemma DispatchBegins(cfg: Config, trace: seq<State>, labels: seq<Label>, a: nat)
    requires ValidConfig(cfg) && IsRun(cfg, trace, labels) && a < |labels| && labels[a].Dispatch?
    ensures Measure(cfg, trace[a + 1]) <= cfg.workers * (cfg.rows + 9) + 7
  {
    RunKeepsInv(cfg, trace, labels, a + 1);
    assert StepAt(cfg, trace, labels, a);
    FreshCallMeasure(cfg, trace[a + 1]);
  }

  lemma {:induction false} NoSpurious(labels: seq<Label>, a: nat, b: nat)
    requires a <= b <= |labels| && forall k :: a <= k < b ==> Proper(labels[k])
    ensures Spurious(labels, a, b) == 0
    decreases b
  {
    if a < b { NoSpurious(labels, a, b - 1); }
  }

  lemma ProperStaysInCall(cfg: Config, s: State, l: Label, t: State)
    requires Follows(cfg, s, l, t) && Proper(l) && (Calling(s.main) || s.main == Idle)
    ensures Calling(t.main) || t.main == Idle
  {
  }

  lemma {:induction false} StaysInCall(cfg: Config, trace: seq<State>, labels: seq<Label>, a: nat, b: nat)
    requires ValidConfig(cfg) && IsRun(cfg, trace, labels) && a < b < |trace| && labels[a].Dispatch?
    requires forall k :: a < k < b ==> Proper(labels[k])
    ensures Calling(trace[b].main) || trace[b].main == Idle
    decreases b
  {
    assert StepAt(cfg, trace, labels, b - 1);
    if a < b - 1 {
      StaysInCall(cfg, trace, labels, a, b - 1);
      ProperStaysInCall(cfg, trace[b - 1], labels[b - 1], trace[b]);
    }
  }

  lemma AtRestReturned(cfg: Config, trace: seq<State>, labels: seq<Label>, b: nat)
    requires ValidConfig(cfg) && IsRun(cfg, trace, labels) && b < |trace| && trace[b].main == Idle
    ensures trace[b].past.returned == |trace[b].past.calls|
  {
    RunKeepsInv(cfg, trace, labels, b);
  }

  /** A dispatch of `workers` threads over `rows` rows takes at most `workers * (rows + 9) + 7` steps
      of all threads together, whatever the schedule, and when no step is left it has returned. */
  lemma DispatchEnds(cfg: Config, trace: seq<State>, labels: seq<Label>, a: nat, b: nat)
    requires ValidConfig(cfg) && IsRun(cfg, trace, labels) && a < b < |trace|
    requires labels[a].Dispatch?
    requires forall k :: a < k < b ==> Proper(labels[k])
    ensures b - a - 1 <= cfg.workers * (cfg.rows + 9) + 7
    ensures !CanStep(cfg, trace[b]) ==> trace[b].main == Idle && trace[b].past.returned == |trace[b].past.calls|
  {
    DispatchBegins(cfg, trace, labels, a);
    CallEnds(cfg, trace, labels, a + 1, b);
    NoSpurious(labels, a + 1, b);
    if !CanStep(cfg, trace[b]) {
      NoDeadlock(cfg, trace, labels, b);
      StaysInCall(cfg, trace, labels, a, b);
      AtRestReturned(cfg, trace, labels, b);
    }
  }
}
