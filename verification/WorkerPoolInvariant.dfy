/** What every step of the worker pool keeps: one invariant over threads, gate, barriers and data. */
module WorkerPoolInvariant {
  import opened RowBands
  import opened WorkerPool

  // ----- where the threads are

  predicate AtGate(w: WorkerPc) { w.Unborn? || w.Lock? || w.Check? || w.Sleep? }

  predicate Failing(m: MainPc) {
    m.FailLock? || m.FailSignal? || m.FailJoin? || m.FailDestroy? || m.Failed?
  }

  predicate Starting(m: MainPc) {
    m.Creating? || m.ReadyLock? || m.ReadySignal? || m.GateTest? || m.GateSleep? || m.GateRelock?
  }

  predicate Unsignalled(m: MainPc) {
    m.Creating? || m.FailLock? || m.FailSignal? || m.ReadyLock? || m.ReadySignal?
  }

  predicate HoldsMutex(m: MainPc) { m.FailSignal? || m.ReadySignal? || m.GateTest? }

  predicate Calling(m: MainPc) {
    || m.PutJob? || m.PutSlots? || m.PutGeneration?
    || m.EnterStart? || m.MainInStart? || m.EnterStop? || m.MainInStop?
  }

  predicate Quitting(m: MainPc) {
    m.EnterQuit? || m.InQuit? || m.Joining? || m.Destroying? || m.Off?
  }

  /** Between leaving the start barrier and arriving at the stop barrier, or already
      released into that region. */
  predicate BetweenBarriers(s: State, i: nat)
    requires i < |s.workers|
  {
    var w := s.workers[i];
    w.Test? || w.Run? || w.AtStop? || (w.InStart? && w.ticket < s.start.round)
  }

  /** The job execution dispatch `call` owes to worker `i`. */
  ghost function Expected(cfg: Config, call: Call, i: nat): JobRun
    requires cfg.workers > 0 && i < |call.slots|
  {
    JobRun(call.job, call.slots[i], Band(i, cfg.rows, cfg.workers),
           Band(i + 1, cfg.rows, cfg.workers), call.generation)
  }

  // ----- the invariant, part by part

  ghost predicate MutexOk(mutex: Mutex, workers: seq<WorkerPc>, mainHolds: bool) {
    && (mutex.ByWorker? ==> mutex.index < |workers|)
    && (forall i :: 0 <= i < |workers| ==> (workers[i] == Check <==> mutex == ByWorker(i)))
    && (mutex == ByMain <==> mainHolds)
  }

  ghost predicate MutexInv(cfg: Config, s: State) {
    MutexOk(s.gate.mutex, s.workers, HoldsMutex(s.main))
  }

  ghost predicate FlagInv(cfg: Config, s: State) {
    && (s.gate.ready <==> !Unsignalled(s.main))
    && (s.gate.shuttingDown <==> Quitting(s.main) || (Failing(s.main) && !Unsignalled(s.main)))
    && (s.gate.active <==> s.main == Idle || Calling(s.main))
    && s.gate.created <= cfg.workers
    && (s.main.Creating? ==> s.main.next == s.gate.created)
    && (!s.main.Creating? && !Failing(s.main) ==> s.gate.created == cfg.workers)
    && (s.main.FailJoin? ==> s.main.next <= s.gate.created)
    && (s.main.Joining? ==> s.main.next <= cfg.workers)
  }

  ghost function Passed(workers: seq<WorkerPc>): set<nat> {
    set i | 0 <= i < |workers| && !AtGate(workers[i])
  }

  /** How many workers the main thread has joined. */
  function Joined(main: MainPc, created: nat, workers: nat): nat {
    match main
    case FailJoin(j) => j
    case FailDestroy => created
    case Failed => created
    case Joining(j) => j
    case Destroying => workers
    case Off => workers
    case _ => 0
  }

  ghost predicate GateOk(workers: seq<WorkerPc>, created: nat, ready: bool, open: bool, joined: nat) {
    && (forall i :: 0 <= i < |workers| ==> (workers[i] == Unborn <==> created <= i))
    && (!ready ==> forall i :: 0 <= i < |workers| ==> AtGate(workers[i]))
    && (ready ==> forall i :: 0 <= i < |workers| ==> workers[i] != Sleep)
    && (open ==> forall i :: 0 <= i < |workers| ==> !AtGate(workers[i]))
    && (forall i :: 0 <= i < |workers| && i < joined ==> workers[i] == Done)
  }

  /** Init has succeeded: every worker is past the gate. */
  predicate Opened(m: MainPc) { !Starting(m) && !Failing(m) }

  ghost predicate GateInv(cfg: Config, s: State) {
    GateOk(s.workers, s.gate.created, s.gate.ready, Opened(s.main), Joined(s.main, s.gate.created, cfg.workers))
  }

  /** The release counter counts the workers past the gate, and init sleeps only below it. */
  ghost predicate ReleasedOk(workers: seq<WorkerPc>, released: nat, failing: bool, sleeping: bool) {
    && released == (if failing then 0 else |Passed(workers)|)
    && (sleeping ==> released < |workers|)
  }

  ghost predicate ReleasedInv(cfg: Config, s: State) {
    ReleasedOk(s.workers, s.gate.released, Failing(s.main), s.main == GateSleep)
  }

  /** Start rounds `r`, stop rounds `q`, calls `n` and returns as the main thread's position
      fixes them. */
  ghost predicate MainOk(main: MainPc, r: nat, q: nat, n: nat, returned: nat) {
    match main
    case Idle => r == q == n == returned
    case QuitFlag => r == q == n == returned
    case EnterQuit => r == q == n == returned
    case InQuit(t) => t == q == n == returned && q <= r <= q + 1
    case Joining(_) => r == q + 1 && q == n == returned
    case Destroying => r == q + 1 && q == n == returned
    case Off => r == q + 1 && q == n == returned
    case PutJob => r == q == returned == n - 1
    case PutSlots => r == q == returned == n - 1
    case PutGeneration => r == q == returned == n - 1
    case EnterStart => r == q == returned == n - 1
    case MainInStart(t) => t == q == returned == n - 1 && q <= r <= q + 1
    case EnterStop => q == returned == n - 1 && r == q + 1
    case MainInStop(t) => t == returned == n - 1 && r == t + 1 && t <= q <= t + 1
    case _ => r == q == n == returned == 0
  }

  ghost predicate MainInv(s: State) {
    MainOk(s.main, s.start.round, s.stop.round, |s.past.calls|, s.past.returned)
  }

  /** Finished runs `n` and rounds `r`, `q` as worker position `w` allows them. */
  ghost predicate WorkerOk(w: WorkerPc, n: nat, r: nat, q: nat, failing: bool, calling: bool, shuttingDown: bool) {
    match w
    case AtStart => n == q && r == q && !failing
    case InStart(t) => n == t == q && q <= r <= q + 1 && !failing
    case Test => n == q && r == q + 1 && !failing
    case Run(run, row) => n == q && r == q + 1 && calling && run.lo <= row <= run.hi
    case AtStop => n == q + 1 && r == q + 1 && calling
    case InStop(t) => n == t + 1 && t <= q <= t + 1 && r == t + 1 && !failing
    case Done => n == q && shuttingDown && (if failing then r == q == 0 else r == q + 1)
    case _ => n == 0 && r == q == 0
  }

  ghost predicate WorkersOk(workers: seq<WorkerPc>, runs: seq<seq<JobRun>>, r: nat, q: nat,
                            failing: bool, calling: bool, shuttingDown: bool)
    requires |runs| == |workers|
  {
    forall i :: 0 <= i < |workers| ==> WorkerOk(workers[i], |runs[i]|, r, q, failing, calling, shuttingDown)
  }

  ghost predicate WorkersInv(cfg: Config, s: State)
    requires Shape(cfg, s)
  {
    WorkersOk(s.workers, s.past.runs, s.start.round, s.stop.round,
              Failing(s.main), Calling(s.main), s.gate.shuttingDown)
  }

  /** The workers at position `pc`. */
  ghost function Standing(workers: seq<WorkerPc>, pc: WorkerPc): set<nat> {
    set i | 0 <= i < |workers| && workers[i] == pc
  }

  ghost predicate BarrierOk(arrived: nat, workers: seq<WorkerPc>, pc: WorkerPc, mainInside: bool) {
    arrived <= |workers| && arrived == |Standing(workers, pc)| + if mainInside then 1 else 0
  }

  predicate MainInStartRound(m: MainPc, round: nat) { m == MainInStart(round) || m == InQuit(round) }

  ghost predicate StartInv(s: State) {
    BarrierOk(s.start.arrived, s.workers, InStart(s.start.round), MainInStartRound(s.main, s.start.round))
  }

  ghost predicate StopInv(s: State) {
    BarrierOk(s.stop.arrived, s.workers, InStop(s.stop.round), s.main == MainInStop(s.stop.round))
  }

  predicate Published(main: MainPc, post: Post, call: Call) {
    main.PutJob? ||
    (post.job == call.job &&
     (main.PutSlots? ||
      (post.slots == call.slots && (main.PutGeneration? || post.generation == call.generation))))
  }

  /** The published fields are those of the call in progress, as far as it has written them. */
  ghost predicate FieldsInv(cfg: Config, s: State) {
    && (forall k :: 0 <= k < |s.past.calls| ==> |s.past.calls[k].slots| == cfg.workers)
    && (Calling(s.main) ==> |s.past.calls| > 0 && Published(s.main, s.post, s.past.calls[|s.past.calls| - 1]))
  }

  /** Worker `i`'s past executions are exactly those the dispatches owed it, in order, and a job it
      is inside of is the one it is owed next. */
  ghost predicate RunsOk(cfg: Config, calls: seq<Call>, i: nat, runs: seq<JobRun>, w: WorkerPc)
    requires cfg.workers > 0 && i < cfg.workers
  {
    && |runs| <= |calls|
    && (forall k :: 0 <= k < |runs| ==>
          |calls[k].slots| == cfg.workers && runs[k] == Expected(cfg, calls[k], i))
    && (w.Run? ==>
          && |runs| < |calls| && |calls[|runs|].slots| == cfg.workers
          && w.run == Expected(cfg, calls[|runs|], i))
  }

  ghost predicate RunsInv(cfg: Config, s: State)
    requires Shape(cfg, s)
  {
    forall i :: 0 <= i < cfg.workers ==> RunsOk(cfg, s.past.calls, i, s.past.runs[i], s.workers[i])
  }

  /** Worker position `w` with `n` finished runs has painted `row` for the call after `returned`. */
  predicate Painted(w: WorkerPc, n: nat, returned: nat, row: nat) {
    n > returned || (w.Run? && row < w.row)
  }

  ghost function PaintedRow(cfg: Config, call: Call, row: nat, old_: int): int {
    cfg.paint(call.job, call.generation, row, old_)
  }

  /** A row holds what it held when the dispatch began, or the painted value. */
  ghost predicate RowOk(cfg: Config, call: Call, row: nat, before: int, now: int, painted: bool) {
    now == if painted then PaintedRow(cfg, call, row, before) else before
  }

  /** During a dispatch every row is painted as far as its owner's progress says. */
  ghost predicate FrameInv(cfg: Config, s: State)
    requires Shape(cfg, s)
  {
    Calling(s.main) && |s.past.calls| > 0 ==>
      forall i, row :: 0 <= i < cfg.workers && 0 <= row < cfg.rows && InBand(row, i, cfg.rows, cfg.workers) ==>
        RowOk(cfg, s.past.calls[|s.past.calls| - 1], row, s.past.base[row], s.frame[row],
              Painted(s.workers[i], |s.past.runs[i]|, s.past.returned, row))
  }

  /** The gate's part of the invariant. */
  ghost predicate GateSide(cfg: Config, s: State) {
    MutexInv(cfg, s) && FlagInv(cfg, s) && GateInv(cfg, s) && ReleasedInv(cfg, s)
  }

  /** The barriers' part of the invariant. */
  ghost predicate BarrierSide(cfg: Config, s: State)
    requires Shape(cfg, s)
  {
    MainInv(s) && WorkersInv(cfg, s) && StartInv(s) && StopInv(s)
  }

  /** Who is where. */
  ghost predicate ControlInv(cfg: Config, s: State) {
    Shape(cfg, s) && GateSide(cfg, s) && BarrierSide(cfg, s)
  }

  /** What they read and write. */
  ghost predicate DataInv(cfg: Config, s: State)
    requires Shape(cfg, s)
  {
    FieldsInv(cfg, s) && RunsInv(cfg, s) && FrameInv(cfg, s)
  }

  ghost predicate Inv(cfg: Config, s: State) {
    ControlInv(cfg, s) && DataInv(cfg, s)
  }

  // ----- counting

  lemma IndexSetSize(a: set<nat>, n: nat)
    requires forall i :: i in a ==> i < n
    ensures |a| <= n
    ensures |a| == n ==> forall i :: 0 <= i < n ==> i in a
  {
    if n == 0 {
      assert a == {};
    } else {
      IndexSetSize(a - {n - 1}, n - 1);
    }
  }

  lemma InitialInv(cfg: Config, image: seq<int>)
    requires ValidConfig(cfg) && |image| == cfg.rows
    ensures Inv(cfg, Initial(cfg, image))
  {
    var s := Initial(cfg, image);
    assert Passed(s.workers) == {} && Standing(s.workers, InStart(0)) == {} && Standing(s.workers, InStop(0)) == {};
  }

  // ----- one worker moves

  lemma StandingKept(workers: seq<WorkerPc>, i: nat, w: WorkerPc, pc: WorkerPc)
    requires i < |workers| && workers[i] != pc && w != pc
    ensures Standing(workers[i := w], pc) == Standing(workers, pc)
  {
  }

  lemma StandingGains(workers: seq<WorkerPc>, i: nat, pc: WorkerPc)
    requires i < |workers| && workers[i] != pc
    ensures |Standing(workers[i := pc], pc)| == |Standing(workers, pc)| + 1
  {
    assert Standing(workers[i := pc], pc) == Standing(workers, pc) + {i};
  }

  lemma NobodyStands(workers: seq<WorkerPc>, pc: WorkerPc)
    requires forall i :: 0 <= i < |workers| ==> workers[i] != pc
    ensures |Standing(workers, pc)| == 0
  {
    assert Standing(workers, pc) == {};
  }

  lemma PassedKept(workers: seq<WorkerPc>, i: nat, w: WorkerPc)
    requires i < |workers| && AtGate(workers[i]) == AtGate(w)
    ensures Passed(workers[i := w]) == Passed(workers)
  {
  }

  lemma PassedGains(workers: seq<WorkerPc>, i: nat, w: WorkerPc)
    requires i < |workers| && AtGate(workers[i]) && !AtGate(w)
    ensures |Passed(workers[i := w])| == |Passed(workers)| + 1
  {
    assert Passed(workers[i := w]) == Passed(workers) + {i};
  }

  /** A worker past the gate moves on: the gate does not notice. */
  lemma GateUnmoved(cfg: Config, s: State, t: State, i: nat, w: WorkerPc)
    requires Shape(cfg, s) && GateSide(cfg, s) && t.gate == s.gate && t.main == s.main
    requires i < |s.workers| && t.workers == s.workers[i := w]
    requires !AtGate(s.workers[i]) && !AtGate(w) && s.workers[i] != Done
    ensures GateSide(cfg, t)
  {
    PassedKept(s.workers, i, w);
  }

  /** A worker moves without arriving at a barrier. */
  lemma BarriersUnmoved(cfg: Config, s: State, t: State, i: nat, w: WorkerPc)
    requires Shape(cfg, s) && Shape(cfg, t) && BarrierSide(cfg, s)
    requires t.gate.shuttingDown == s.gate.shuttingDown && t.start == s.start && t.stop == s.stop
    requires t.main == s.main || (s.main.GateSleep? && t.main.GateRelock?)
    requires t.past.calls == s.past.calls && t.past.returned == s.past.returned
    requires i < cfg.workers && t.workers == s.workers[i := w] && t.past.runs == s.past.runs[i := t.past.runs[i]]
    requires s.workers[i] != InStart(s.start.round) && w != InStart(s.start.round)
    requires s.workers[i] != InStop(s.stop.round) && w != InStop(s.stop.round)
    requires WorkerOk(w, |t.past.runs[i]|, s.start.round, s.stop.round,
                      Failing(s.main), Calling(s.main), s.gate.shuttingDown)
    ensures BarrierSide(cfg, t)
  {
    StandingKept(s.workers, i, w, InStart(s.start.round));
    StandingKept(s.workers, i, w, InStop(s.stop.round));
  }

  lemma TakeMutexInv(cfg: Config, s: State, i: nat)
    requires ControlInv(cfg, s) && i < cfg.workers && s.workers[i] == Lock && s.gate.mutex == Free
    ensures ControlInv(cfg, TakeMutex(s, i))
  {
    var t := TakeMutex(s, i);
    PassedKept(s.workers, i, Check);
    BarriersUnmoved(cfg, s, t, i, Check);
  }

  lemma PassGate(cfg: Config, s: State, t: State, i: nat)
    requires Shape(cfg, s) && GateSide(cfg, s) && i < cfg.workers && s.workers[i] == Check
    requires s.gate.ready && !s.gate.shuttingDown && t.workers == s.workers[i := AtStart]
    requires t.gate == s.gate.(mutex := Free, released := s.gate.released + 1) && t.main == AwakeMain(s.main)
    ensures GateSide(cfg, t)
  {
    PassedGains(s.workers, i, AtStart);
  }

  lemma PassGateInv(cfg: Config, s: State, i: nat)
    requires ControlInv(cfg, s) && i < cfg.workers && s.workers[i] == Check
    requires s.gate.ready && !s.gate.shuttingDown
    ensures ControlInv(cfg, TryGate(s, i))
  {
    var t := TryGate(s, i);
    assert Awake(s.workers) == s.workers;
    PassGate(cfg, s, t, i);
    BarriersUnmoved(cfg, s, t, i, AtStart);
  }

  lemma RefuseGate(cfg: Config, s: State, t: State, i: nat, w: WorkerPc)
    requires Shape(cfg, s) && GateSide(cfg, s) && i < cfg.workers && s.workers[i] == Check
    requires if s.gate.ready then s.gate.shuttingDown && Failing(s.main) && w == Done else w == Sleep
    requires t.workers == s.workers[i := w] && t.gate == s.gate.(mutex := Free) && t.main == s.main
    ensures GateSide(cfg, t)
  {
    if !s.gate.ready {
      PassedKept(s.workers, i, w);
    }
  }

  lemma RefuseGateInv(cfg: Config, s: State, i: nat)
    requires ControlInv(cfg, s) && i < cfg.workers && s.workers[i] == Check
    requires !s.gate.ready || s.gate.shuttingDown
    ensures ControlInv(cfg, TryGate(s, i))
  {
    var t, w := TryGate(s, i), if s.gate.ready then Done else Sleep;
    RefuseGate(cfg, s, t, i, w);
    BarriersUnmoved(cfg, s, t, i, w);
  }

  /** The last worker to arrive in a round finds every other thread waiting in it. */
  lemma RoundFull(arrived: nat, workers: seq<WorkerPc>, pc: WorkerPc, mainInside: bool, i: nat)
    requires BarrierOk(arrived, workers, pc, mainInside) && arrived == |workers|
    requires i < |workers| && workers[i] != pc
    ensures forall j :: 0 <= j < |workers| && j != i ==> workers[j] == pc
    ensures mainInside
  {
    var waiting := Standing(workers, pc);
    var others := waiting + {i};
    assert i !in waiting && |others| == |waiting| + 1;
    IndexSetSize(others, |workers|);
    forall j | 0 <= j < |workers| && j != i ensures workers[j] == pc {
      assert j in others;
    }
  }

  lemma StartRoundFull(cfg: Config, s: State, i: nat)
    requires Shape(cfg, s) && StartInv(s) && s.start.arrived == cfg.workers
    requires i < cfg.workers && !s.workers[i].InStart?
    ensures forall j :: 0 <= j < cfg.workers && j != i ==> s.workers[j] == InStart(s.start.round)
    ensures MainInStartRound(s.main, s.start.round)
  {
    RoundFull(s.start.arrived, s.workers, InStart(s.start.round), MainInStartRound(s.main, s.start.round), i);
  }

  lemma ArriveStartEarly(cfg: Config, s: State, i: nat)
    requires Shape(cfg, s) && BarrierSide(cfg, s) && i < cfg.workers && s.workers[i] == AtStart
    requires s.start.arrived < cfg.workers
    ensures BarrierSide(cfg, ArriveStart(s, i))
  {
    StandingGains(s.workers, i, InStart(s.start.round));
    StandingKept(s.workers, i, InStart(s.start.round), InStop(s.stop.round));
  }

  lemma ArriveStartLast(cfg: Config, s: State, i: nat)
    requires Shape(cfg, s) && BarrierSide(cfg, s) && i < cfg.workers && s.workers[i] == AtStart
    requires s.start.arrived == cfg.workers
    ensures BarrierSide(cfg, ArriveStart(s, i))
  {
    var t := ArriveStart(s, i);
    StartRoundFull(cfg, s, i);
    NobodyStands(t.workers, InStart(t.start.round));
    StandingKept(s.workers, i, InStart(s.start.round), InStop(s.stop.round));
  }

  lemma ArriveStartInv(cfg: Config, s: State, i: nat)
    requires ControlInv(cfg, s) && i < cfg.workers && s.workers[i] == AtStart
    ensures ControlInv(cfg, ArriveStart(s, i))
  {
    GateUnmoved(cfg, s, ArriveStart(s, i), i, InStart(s.start.round));
    if s.start.arrived == cfg.workers {
      ArriveStartLast(cfg, s, i);
    } else {
      ArriveStartEarly(cfg, s, i);
    }
  }

  /** Leaving a barrier, beginning, painting and finishing a job. */
  lemma JobStepInv(cfg: Config, s: State, t: State, i: nat, w: WorkerPc)
    requires ControlInv(cfg, s) && Shape(cfg, t) && i < cfg.workers
    requires t.gate == s.gate && t.main == s.main && t.start == s.start && t.stop == s.stop
    requires t.past.calls == s.past.calls && t.past.returned == s.past.returned
    requires t.workers == s.workers[i := w] && t.past.runs == s.past.runs[i := t.past.runs[i]]
    requires !AtGate(s.workers[i]) && s.workers[i] != Done && !AtGate(w) && !w.InStart? && !w.InStop?
    requires s.workers[i].InStart? ==> s.workers[i].ticket < s.start.round
    requires s.workers[i].InStop? ==> s.workers[i].ticket < s.stop.round
    requires WorkerOk(w, |t.past.runs[i]|, s.start.round, s.stop.round,
                      Failing(s.main), Calling(s.main), s.gate.shuttingDown)
    ensures ControlInv(cfg, t)
  {
    GateUnmoved(cfg, s, t, i, w);
    BarriersUnmoved(cfg, s, t, i, w);
  }

  lemma LeaveStartInv(cfg: Config, s: State, i: nat)
    requires ControlInv(cfg, s) && i < cfg.workers && s.workers[i].InStart?
    requires s.workers[i].ticket < s.start.round
    ensures ControlInv(cfg, LeaveStart(s, i))
  {
    JobStepInv(cfg, s, LeaveStart(s, i), i, Test);
  }

  /** A worker past the start barrier finds the main thread in a call or quitting. */
  lemma CallingOrQuitting(cfg: Config, s: State)
    requires Shape(cfg, s) && FlagInv(cfg, s) && MainInv(s) && s.start.round == s.stop.round + 1
    ensures s.gate.shuttingDown || (Calling(s.main) && |s.past.calls| == s.stop.round + 1)
    ensures !Failing(s.main)
  {
  }

  lemma BeginJobInv(cfg: Config, s: State, i: nat)
    requires ControlInv(cfg, s) && i < cfg.workers && s.workers[i] == Test
    ensures ControlInv(cfg, BeginJob(cfg, s, i))
  {
    BandWithin(i, cfg.rows, cfg.workers);
    CallingOrQuitting(cfg, s);
    JobStepInv(cfg, s, BeginJob(cfg, s, i), i, BeginJob(cfg, s, i).workers[i]);
  }

  lemma RunJobInv(cfg: Config, s: State, i: nat)
    requires ControlInv(cfg, s) && WorkerEnabled(cfg, s, i) && s.workers[i].Run?
    ensures ControlInv(cfg, RunJob(cfg, s, i))
  {
    JobStepInv(cfg, s, RunJob(cfg, s, i), i, RunJob(cfg, s, i).workers[i]);
  }

  lemma StopRoundFull(cfg: Config, s: State, i: nat)
    requires Shape(cfg, s) && StopInv(s) && s.stop.arrived == cfg.workers
    requires i < cfg.workers && !s.workers[i].InStop?
    ensures forall j :: 0 <= j < cfg.workers && j != i ==> s.workers[j] == InStop(s.stop.round)
    ensures s.main == MainInStop(s.stop.round)
  {
    RoundFull(s.stop.arrived, s.workers, InStop(s.stop.round), s.main == MainInStop(s.stop.round), i);
  }

  lemma ArriveStopEarly(cfg: Config, s: State, i: nat)
    requires Shape(cfg, s) && BarrierSide(cfg, s) && i < cfg.workers && s.workers[i] == AtStop
    requires s.stop.arrived < cfg.workers && !Failing(s.main)
    ensures BarrierSide(cfg, ArriveStop(s, i))
  {
    StandingGains(s.workers, i, InStop(s.stop.round));
    StandingKept(s.workers, i, InStop(s.stop.round), InStart(s.start.round));
  }

  lemma ArriveStopLast(cfg: Config, s: State, i: nat)
    requires Shape(cfg, s) && BarrierSide(cfg, s) && i < cfg.workers && s.workers[i] == AtStop
    requires s.stop.arrived == cfg.workers && !Failing(s.main)
    ensures BarrierSide(cfg, ArriveStop(s, i))
  {
    var t := ArriveStop(s, i);
    StopRoundFull(cfg, s, i);
    NobodyStands(t.workers, InStop(t.stop.round));
    StandingKept(s.workers, i, InStop(s.stop.round), InStart(s.start.round));
  }

  lemma ArriveStopInv(cfg: Config, s: State, i: nat)
    requires ControlInv(cfg, s) && i < cfg.workers && s.workers[i] == AtStop
    ensures ControlInv(cfg, ArriveStop(s, i))
  {
    CallingOrQuitting(cfg, s);
    GateUnmoved(cfg, s, ArriveStop(s, i), i, InStop(s.stop.round));
    if s.stop.arrived == cfg.workers {
      ArriveStopLast(cfg, s, i);
    } else {
      ArriveStopEarly(cfg, s, i);
    }
  }

  lemma LeaveStopInv(cfg: Config, s: State, i: nat)
    requires ControlInv(cfg, s) && i < cfg.workers && s.workers[i].InStop?
    requires s.workers[i].ticket < s.stop.round
    ensures ControlInv(cfg, LeaveStop(s, i))
  {
    JobStepInv(cfg, s, LeaveStop(s, i), i, AtStart);
  }

  // ----- what a worker reads and writes

  /** A step that publishes, paints and records nothing keeps the data part. */
  lemma DataUntouched(cfg: Config, s: State, t: State)
    requires Shape(cfg, s) && Shape(cfg, t) && DataInv(cfg, s)
    requires t.post == s.post && t.past == s.past && t.frame == s.frame
    requires t.main == s.main || (!Calling(t.main) && !Calling(s.main))
          || (s.main.EnterStart? && t.main.MainInStart?) || (s.main.MainInStart? && t.main.EnterStop?)
          || (s.main.EnterStop? && t.main.MainInStop?)
    requires forall i :: 0 <= i < cfg.workers ==>
               t.workers[i] == s.workers[i] || (!t.workers[i].Run? && !s.workers[i].Run?)
    ensures DataInv(cfg, t)
  {
  }

  lemma BeginJobRuns(cfg: Config, s: State, i: nat)
    requires Shape(cfg, s) && FieldsInv(cfg, s) && RunsInv(cfg, s) && MainInv(s) && Calling(s.main)
    requires i < cfg.workers && s.workers[i] == Test && !s.gate.shuttingDown
    requires s.start.round == s.stop.round + 1 && |s.past.runs[i]| == |s.past.calls| - 1
    ensures FieldsInv(cfg, BeginJob(cfg, s, i)) && RunsInv(cfg, BeginJob(cfg, s, i))
  {
  }

  lemma BeginJobFrame(cfg: Config, s: State, i: nat)
    requires Shape(cfg, s) && FrameInv(cfg, s)
    requires i < cfg.workers && s.workers[i] == Test && !s.gate.shuttingDown
    ensures FrameInv(cfg, BeginJob(cfg, s, i))
  {
  }

  lemma BeginJobData(cfg: Config, s: State, i: nat)
    requires Shape(cfg, s) && FlagInv(cfg, s) && MainInv(s) && WorkersInv(cfg, s) && DataInv(cfg, s)
    requires i < cfg.workers && s.workers[i] == Test && !s.gate.shuttingDown
    ensures DataInv(cfg, BeginJob(cfg, s, i))
  {
    CallingOrQuitting(cfg, s);
    BeginJobRuns(cfg, s, i);
    BeginJobFrame(cfg, s, i);
  }

  lemma RunJobRuns(cfg: Config, s: State, i: nat)
    requires Shape(cfg, s) && FieldsInv(cfg, s) && RunsInv(cfg, s) && WorkerEnabled(cfg, s, i) && s.workers[i].Run?
    ensures FieldsInv(cfg, RunJob(cfg, s, i)) && RunsInv(cfg, RunJob(cfg, s, i))
  {
  }

  lemma RunJobFrame(cfg: Config, s: State, i: nat)
    requires Shape(cfg, s) && FieldsInv(cfg, s) && MainInv(s) && WorkersInv(cfg, s) && RunsInv(cfg, s)
    requires FrameInv(cfg, s)
    requires WorkerEnabled(cfg, s, i) && s.workers[i].Run?
    ensures FrameInv(cfg, RunJob(cfg, s, i))
  {
    var t, call, y := RunJob(cfg, s, i), s.past.calls[|s.past.calls| - 1], s.workers[i].row;
    BandWithin(i, cfg.rows, cfg.workers);
    assert |s.past.runs[i]| == s.past.returned == |s.past.calls| - 1;
    assert s.workers[i].run == Expected(cfg, call, i);
    forall j, row | 0 <= j < cfg.workers && 0 <= row < cfg.rows && InBand(row, j, cfg.rows, cfg.workers)
      ensures RowOk(cfg, call, row, t.past.base[row], t.frame[row],
                    Painted(t.workers[j], |t.past.runs[j]|, t.past.returned, row))
    {
      assert RowOk(cfg, call, row, s.past.base[row], s.frame[row],
                   Painted(s.workers[j], |s.past.runs[j]|, s.past.returned, row));
      if row == y && y < s.workers[i].run.hi {
        BandsDisjoint(row, i, j, cfg.rows, cfg.workers);
      }
    }
  }

  // ----- steps of the main thread

  /** The main thread moves, and the workers do not. */
  lemma BarriersKept(cfg: Config, s: State, t: State)
    requires Shape(cfg, s) && Shape(cfg, t) && BarrierSide(cfg, s) && MainInv(t)
    requires t.workers == s.workers && t.start == s.start && t.stop == s.stop
    requires t.past.runs == s.past.runs && t.gate.shuttingDown == s.gate.shuttingDown
    requires Failing(t.main) == Failing(s.main) && Calling(t.main) == Calling(s.main)
    requires MainInStartRound(t.main, s.start.round) == MainInStartRound(s.main, s.start.round)
    requires (t.main == MainInStop(s.stop.round)) == (s.main == MainInStop(s.stop.round))
    ensures BarrierSide(cfg, t)
  {
  }

  /** The main thread moves within one part of a call, outside both barriers. */
  lemma BarriersAside(cfg: Config, s: State, t: State)
    requires Shape(cfg, s) && Shape(cfg, t) && BarrierSide(cfg, s)
    requires t.workers == s.workers && t.start == s.start && t.stop == s.stop
    requires t.past == s.past && t.gate.shuttingDown == s.gate.shuttingDown
    requires || (Starting(s.main) && (Starting(t.main) || t.main.Idle?)) || (Failing(s.main) && Failing(t.main))
             || ((s.main.Joining? || s.main.Destroying?) && (t.main.Joining? || t.main.Destroying? || t.main.Off?))
             || (s.main.Idle? && t.main.QuitFlag?)
             || ((s.main.PutJob? || s.main.PutSlots? || s.main.PutGeneration?)
                 && (t.main.PutSlots? || t.main.PutGeneration? || t.main.EnterStart?))
    ensures BarrierSide(cfg, t)
  {
    assert MainInv(t);
    BarriersKept(cfg, s, t);
  }

  lemma MainMovesInv(cfg: Config, s: State, t: State)
    requires Inv(cfg, s) && ControlInv(cfg, t)
    requires t.workers == s.workers && t.past == s.past && t.post == s.post && t.frame == s.frame
    requires (!Calling(t.main) && !Calling(s.main)) || (s.main.MainInStart? && t.main.EnterStop?)
    ensures Inv(cfg, t)
  {
    DataUntouched(cfg, s, t);
  }

  lemma CreateGate(cfg: Config, s: State)
    requires Shape(cfg, s) && GateSide(cfg, s) && s.main.Creating?
    ensures GateSide(cfg, Create(s))
  {
    if s.main.next < cfg.workers {
      PassedKept(s.workers, s.main.next, Lock);
    }
  }

  lemma CreateInv(cfg: Config, s: State)
    requires Inv(cfg, s) && s.main.Creating?
    ensures Inv(cfg, Create(s))
  {
    var t := Create(s);
    CreateGate(cfg, s);
    if s.main.next < cfg.workers {
      StandingKept(s.workers, s.main.next, Lock, InStart(s.start.round));
      StandingKept(s.workers, s.main.next, Lock, InStop(s.stop.round));
    }
    DataUntouched(cfg, s, t);
  }

  lemma CreateFailsInv(cfg: Config, s: State)
    requires Inv(cfg, s) && s.main.Creating?
    ensures Inv(cfg, s.(main := FailLock))
  {
    assert Passed(s.workers) == {};
    DataUntouched(cfg, s, s.(main := FailLock));
  }

  lemma MainLocksGate(cfg: Config, s: State, next: MainPc)
    requires Shape(cfg, s) && GateSide(cfg, s) && s.gate.mutex == Free
    requires || (s.main.FailLock? && next.FailSignal?) || (s.main.ReadyLock? && next.ReadySignal?)
             || (s.main.GateRelock? && next.GateTest?)
    ensures GateSide(cfg, s.(main := next, gate := s.gate.(mutex := ByMain)))
  {
  }

  lemma MainLocksControl(cfg: Config, s: State, next: MainPc)
    requires ControlInv(cfg, s) && s.gate.mutex == Free
    requires || (s.main.FailLock? && next.FailSignal?) || (s.main.ReadyLock? && next.ReadySignal?)
             || (s.main.GateRelock? && next.GateTest?)
    ensures ControlInv(cfg, s.(main := next, gate := s.gate.(mutex := ByMain)))
  {
    MainLocksGate(cfg, s, next);
    BarriersAside(cfg, s, s.(main := next, gate := s.gate.(mutex := ByMain)));
  }

  lemma MainLocksInv(cfg: Config, s: State, next: MainPc)
    requires Inv(cfg, s) && s.gate.mutex == Free
    requires || (s.main.FailLock? && next.FailSignal?) || (s.main.ReadyLock? && next.ReadySignal?)
             || (s.main.GateRelock? && next.GateTest?)
    ensures Inv(cfg, s.(main := next, gate := s.gate.(mutex := ByMain)))
  {
    MainLocksControl(cfg, s, next);
    MainMovesInv(cfg, s, s.(main := next, gate := s.gate.(mutex := ByMain)));
  }

  lemma BroadcastKeeps(workers: seq<WorkerPc>, pc: WorkerPc)
    requires pc.InStart? || pc.InStop?
    ensures Passed(Awake(workers)) == Passed(workers) && Standing(Awake(workers), pc) == Standing(workers, pc)
  {
  }

  lemma SignalGate(cfg: Config, s: State, t: State)
    requires Shape(cfg, s) && GateSide(cfg, s) && (s.main.FailSignal? || s.main.ReadySignal?)
    requires t == if s.main.FailSignal? then SignalFailure(s) else SignalReady(s)
    ensures GateSide(cfg, t)
  {
    BroadcastKeeps(s.workers, InStart(0));
  }

  lemma SignalInv(cfg: Config, s: State, t: State)
    requires Inv(cfg, s) && (s.main.FailSignal? || s.main.ReadySignal?)
    requires t == if s.main.FailSignal? then SignalFailure(s) else SignalReady(s)
    ensures Inv(cfg, t)
  {
    SignalGate(cfg, s, t);
    BroadcastKeeps(s.workers, InStart(s.start.round));
    BroadcastKeeps(s.workers, InStop(s.stop.round));
    DataUntouched(cfg, s, t);
  }

  lemma AllPassed(cfg: Config, s: State)
    requires Shape(cfg, s) && ReleasedInv(cfg, s) && !Failing(s.main) && s.gate.released >= cfg.workers
    ensures forall i :: 0 <= i < cfg.workers ==> !AtGate(s.workers[i])
  {
    IndexSetSize(Passed(s.workers), cfg.workers);
    forall i | 0 <= i < cfg.workers ensures !AtGate(s.workers[i]) {
      assert i in Passed(s.workers);
    }
  }

  lemma AwaitReleasedGate(cfg: Config, s: State)
    requires Shape(cfg, s) && GateSide(cfg, s) && s.main.GateTest?
    ensures GateSide(cfg, AwaitReleased(s))
  {
    if s.gate.released >= cfg.workers {
      AllPassed(cfg, s);
    }
  }

  lemma AwaitReleasedControl(cfg: Config, s: State)
    requires ControlInv(cfg, s) && s.main.GateTest?
    ensures ControlInv(cfg, AwaitReleased(s))
  {
    AwaitReleasedGate(cfg, s);
    BarriersAside(cfg, s, AwaitReleased(s));
  }

  lemma AwaitReleasedInv(cfg: Config, s: State)
    requires Inv(cfg, s) && s.main.GateTest?
    ensures Inv(cfg, AwaitReleased(s))
  {
    AwaitReleasedControl(cfg, s);
    MainMovesInv(cfg, s, AwaitReleased(s));
  }

  lemma JoinedOneMore(workers: seq<WorkerPc>, created: nat, ready: bool, open: bool, joined: nat)
    requires GateOk(workers, created, ready, open, joined)
    requires joined < |workers| && workers[joined] == Done
    ensures GateOk(workers, created, ready, open, joined + 1)
  {
  }

  lemma FailJoinGate(cfg: Config, s: State, next: MainPc)
    requires Shape(cfg, s) && GateSide(cfg, s) && MainEnabled(cfg, s) && s.main.FailJoin?
    requires next == if s.main.next < s.gate.created then FailJoin(s.main.next + 1) else FailDestroy
    ensures GateSide(cfg, s.(main := next))
  {
    if next.FailJoin? {
      JoinedOneMore(s.workers, s.gate.created, s.gate.ready, false, s.main.next);
    }
  }

  lemma FailJoinControl(cfg: Config, s: State)
    requires ControlInv(cfg, s) && MainEnabled(cfg, s) && s.main.FailJoin?
    ensures ControlInv(cfg, MainStep(cfg, s))
  {
    FailJoinGate(cfg, s, MainStep(cfg, s).main);
    BarriersAside(cfg, s, MainStep(cfg, s));
  }

  lemma FailJoinInv(cfg: Config, s: State)
    requires Inv(cfg, s) && MainEnabled(cfg, s) && s.main.FailJoin?
    ensures Inv(cfg, MainStep(cfg, s))
  {
    FailJoinControl(cfg, s);
    MainMovesInv(cfg, s, MainStep(cfg, s));
  }

  lemma FailDestroyControl(cfg: Config, s: State)
    requires ControlInv(cfg, s) && s.main.FailDestroy?
    ensures ControlInv(cfg, s.(main := Failed))
  {
    assert GateSide(cfg, s.(main := Failed));
    BarriersAside(cfg, s, s.(main := Failed));
  }

  lemma FailDestroyInv(cfg: Config, s: State)
    requires Inv(cfg, s) && s.main.FailDestroy?
    ensures Inv(cfg, s.(main := Failed))
  {
    FailDestroyControl(cfg, s);
    MainMovesInv(cfg, s, s.(main := Failed));
  }

  lemma JoinGate(cfg: Config, s: State, next: MainPc)
    requires Shape(cfg, s) && GateSide(cfg, s) && MainEnabled(cfg, s) && s.main.Joining?
    requires next == if s.main.next < cfg.workers then Joining(s.main.next + 1) else Destroying
    ensures GateSide(cfg, s.(main := next))
  {
    if next.Joining? {
      JoinedOneMore(s.workers, s.gate.created, s.gate.ready, true, s.main.next);
    }
  }

  lemma JoinControl(cfg: Config, s: State)
    requires ControlInv(cfg, s) && MainEnabled(cfg, s) && s.main.Joining?
    ensures ControlInv(cfg, MainStep(cfg, s))
  {
    JoinGate(cfg, s, MainStep(cfg, s).main);
    BarriersAside(cfg, s, MainStep(cfg, s));
  }

  lemma JoinInv(cfg: Config, s: State)
    requires Inv(cfg, s) && MainEnabled(cfg, s) && s.main.Joining?
    ensures Inv(cfg, MainStep(cfg, s))
  {
    JoinControl(cfg, s);
    MainMovesInv(cfg, s, MainStep(cfg, s));
  }

  lemma DestroyControl(cfg: Config, s: State)
    requires ControlInv(cfg, s) && s.main.Destroying?
    ensures ControlInv(cfg, s.(main := Off))
  {
    assert GateSide(cfg, s.(main := Off));
    BarriersAside(cfg, s, s.(main := Off));
  }

  lemma DestroyInv(cfg: Config, s: State)
    requires Inv(cfg, s) && s.main.Destroying?
    ensures Inv(cfg, s.(main := Off))
  {
    DestroyControl(cfg, s);
    MainMovesInv(cfg, s, s.(main := Off));
  }

  /** The three stores of a dispatch, one step each. */
  lemma PublishFields(cfg: Config, s: State, next: MainPc, post: Post)
    requires Shape(cfg, s) && DataInv(cfg, s) && |s.past.calls| > 0
    requires || (s.main.PutJob? && next.PutSlots? && post == s.post.(job := LastCall(s).job))
             || (s.main.PutSlots? && next.PutGeneration? && post == s.post.(slots := LastCall(s).slots))
             || (s.main.PutGeneration? && next.EnterStart? && post == s.post.(generation := LastCall(s).generation))
    ensures Shape(cfg, s.(main := next, post := post)) && DataInv(cfg, s.(main := next, post := post))
  {
    assert |LastCall(s).slots| == cfg.workers;
  }

  lemma PublishControl(cfg: Config, s: State, next: MainPc, post: Post)
    requires ControlInv(cfg, s) && |post.slots| == cfg.workers
    requires || (s.main.PutJob? && next.PutSlots?) || (s.main.PutSlots? && next.PutGeneration?)
             || (s.main.PutGeneration? && next.EnterStart?)
    ensures ControlInv(cfg, s.(main := next, post := post))
  {
    assert GateSide(cfg, s.(main := next, post := post));
    BarriersAside(cfg, s, s.(main := next, post := post));
  }

  lemma PublishInv(cfg: Config, s: State, next: MainPc, post: Post)
    requires Inv(cfg, s) && |s.past.calls| > 0
    requires || (s.main.PutJob? && next.PutSlots? && post == s.post.(job := LastCall(s).job))
             || (s.main.PutSlots? && next.PutGeneration? && post == s.post.(slots := LastCall(s).slots))
             || (s.main.PutGeneration? && next.EnterStart? && post == s.post.(generation := LastCall(s).generation))
    ensures Inv(cfg, s.(main := next, post := post))
  {
    PublishFields(cfg, s, next, post);
    PublishControl(cfg, s, next, post);
  }

  lemma EveryoneStands(arrived: nat, workers: seq<WorkerPc>, pc: WorkerPc)
    requires BarrierOk(arrived, workers, pc, false) && arrived == |workers|
    ensures forall i :: 0 <= i < |workers| ==> workers[i] == pc
  {
    IndexSetSize(Standing(workers, pc), |workers|);
    forall i | 0 <= i < |workers| ensures workers[i] == pc {
      assert i in Standing(workers, pc);
    }
  }

  lemma MainArriveStartBarriers(cfg: Config, s: State, inside: MainPc)
    requires Shape(cfg, s) && BarrierSide(cfg, s)
    requires || (s.main.EnterStart? && inside == MainInStart(s.start.round))
             || (s.main.EnterQuit? && inside == InQuit(s.start.round))
    ensures BarrierSide(cfg, MainArriveStart(s, inside))
  {
    if s.start.arrived == cfg.workers {
      EveryoneStands(s.start.arrived, s.workers, InStart(s.start.round));
      NobodyStands(s.workers, InStart(s.start.round + 1));
    }
  }

  lemma MainArriveStartInv(cfg: Config, s: State, inside: MainPc)
    requires Inv(cfg, s)
    requires || (s.main.EnterStart? && inside == MainInStart(s.start.round))
             || (s.main.EnterQuit? && inside == InQuit(s.start.round))
    ensures Inv(cfg, MainArriveStart(s, inside))
  {
    MainArriveStartBarriers(cfg, s, inside);
    assert GateSide(cfg, MainArriveStart(s, inside));
    DataUntouched(cfg, s, MainArriveStart(s, inside));
  }

  lemma MainArriveStopBarriers(cfg: Config, s: State)
    requires Shape(cfg, s) && BarrierSide(cfg, s) && s.main.EnterStop?
    ensures BarrierSide(cfg, MainArriveStop(s))
  {
    if s.stop.arrived == cfg.workers {
      EveryoneStands(s.stop.arrived, s.workers, InStop(s.stop.round));
      NobodyStands(s.workers, InStop(s.stop.round + 1));
    }
  }

  lemma MainArriveStopInv(cfg: Config, s: State)
    requires Inv(cfg, s) && s.main.EnterStop?
    ensures Inv(cfg, MainArriveStop(s))
  {
    MainArriveStopBarriers(cfg, s);
    assert GateSide(cfg, MainArriveStop(s));
    DataUntouched(cfg, s, MainArriveStop(s));
  }

  lemma MainLeavesStartControl(cfg: Config, s: State)
    requires ControlInv(cfg, s) && s.main.MainInStart? && s.main.ticket < s.start.round
    ensures ControlInv(cfg, s.(main := EnterStop))
  {
    assert GateSide(cfg, s.(main := EnterStop));
    BarriersKept(cfg, s, s.(main := EnterStop));
  }

  lemma MainLeavesStartInv(cfg: Config, s: State)
    requires Inv(cfg, s) && s.main.MainInStart? && s.main.ticket < s.start.round
    ensures Inv(cfg, s.(main := EnterStop))
  {
    MainLeavesStartControl(cfg, s);
    MainMovesInv(cfg, s, s.(main := EnterStop));
  }

  lemma MainLeavesQuitControl(cfg: Config, s: State)
    requires ControlInv(cfg, s) && s.main.InQuit? && s.main.ticket < s.start.round
    ensures ControlInv(cfg, s.(main := Joining(0)))
  {
    assert GateSide(cfg, s.(main := Joining(0)));
    BarriersKept(cfg, s, s.(main := Joining(0)));
  }

  lemma MainLeavesQuitInv(cfg: Config, s: State)
    requires Inv(cfg, s) && s.main.InQuit? && s.main.ticket < s.start.round
    ensures Inv(cfg, s.(main := Joining(0)))
  {
    MainLeavesQuitControl(cfg, s);
    MainMovesInv(cfg, s, s.(main := Joining(0)));
  }

  lemma MainReturnsBarriers(cfg: Config, s: State, t: State)
    requires Shape(cfg, s) && BarrierSide(cfg, s) && s.main.MainInStop? && s.main.ticket < s.stop.round
    requires t == s.(main := Idle, past := s.past.(returned := s.past.returned + 1))
    ensures BarrierSide(cfg, t)
  {
  }

  lemma MainReturnsInv(cfg: Config, s: State, t: State)
    requires Inv(cfg, s) && s.main.MainInStop? && s.main.ticket < s.stop.round
    requires t == s.(main := Idle, past := s.past.(returned := s.past.returned + 1))
    ensures Inv(cfg, t)
  {
    MainReturnsBarriers(cfg, s, t);
    assert GateSide(cfg, t);
  }

  lemma RaiseQuitFlagBarriers(cfg: Config, s: State, t: State)
    requires Shape(cfg, s) && BarrierSide(cfg, s) && s.main.QuitFlag?
    requires t == s.(main := EnterQuit, gate := s.gate.(shuttingDown := true))
    ensures BarrierSide(cfg, t)
  {
  }

  lemma RaiseQuitFlagInv(cfg: Config, s: State, t: State)
    requires Inv(cfg, s) && s.main.QuitFlag?
    requires t == s.(main := EnterQuit, gate := s.gate.(shuttingDown := true))
    ensures Inv(cfg, t)
  {
    RaiseQuitFlagBarriers(cfg, s, t);
    assert GateSide(cfg, t);
    MainMovesInv(cfg, s, t);
  }

  lemma StartupKeepsInv(cfg: Config, s: State)
    requires Inv(cfg, s) && MainEnabled(cfg, s) && Starting(s.main)
    ensures Inv(cfg, MainStep(cfg, s))
  {
    match s.main
    case Creating(_) => CreateInv(cfg, s);
    case ReadyLock => MainLocksInv(cfg, s, ReadySignal);
    case GateRelock => MainLocksInv(cfg, s, GateTest);
    case ReadySignal => SignalInv(cfg, s, SignalReady(s));
    case GateTest => AwaitReleasedInv(cfg, s);
  }

  lemma FailureKeepsInv(cfg: Config, s: State)
    requires Inv(cfg, s) && MainEnabled(cfg, s) && Failing(s.main)
    ensures Inv(cfg, MainStep(cfg, s))
  {
    match s.main
    case FailLock => MainLocksInv(cfg, s, FailSignal);
    case FailSignal => SignalInv(cfg, s, SignalFailure(s));
    case FailJoin(_) => FailJoinInv(cfg, s);
    case FailDestroy => FailDestroyInv(cfg, s);
  }

  lemma CallKeepsInv(cfg: Config, s: State)
    requires Inv(cfg, s) && MainEnabled(cfg, s) && Calling(s.main)
    ensures Inv(cfg, MainStep(cfg, s))
  {
    match s.main
    case PutJob => PublishInv(cfg, s, PutSlots, s.post.(job := LastCall(s).job));
    case PutSlots => PublishInv(cfg, s, PutGeneration, s.post.(slots := LastCall(s).slots));
    case PutGeneration => PublishInv(cfg, s, EnterStart, s.post.(generation := LastCall(s).generation));
    case EnterStart => MainArriveStartInv(cfg, s, MainInStart(s.start.round));
    case MainInStart(_) => MainLeavesStartInv(cfg, s);
    case EnterStop => MainArriveStopInv(cfg, s);
    case MainInStop(_) => MainReturnsInv(cfg, s, MainStep(cfg, s));
  }

  lemma QuitKeepsInv(cfg: Config, s: State)
    requires Inv(cfg, s) && MainEnabled(cfg, s) && (s.main.QuitFlag? || Quitting(s.main))
    ensures Inv(cfg, MainStep(cfg, s))
  {
    match s.main
    case QuitFlag => RaiseQuitFlagInv(cfg, s, MainStep(cfg, s));
    case EnterQuit => MainArriveStartInv(cfg, s, InQuit(s.start.round));
    case InQuit(_) => MainLeavesQuitInv(cfg, s);
    case Joining(_) => JoinInv(cfg, s);
    case Destroying => DestroyInv(cfg, s);
  }

  lemma MainKeepsInv(cfg: Config, s: State)
    requires Inv(cfg, s) && MainEnabled(cfg, s)
    ensures Inv(cfg, MainStep(cfg, s))
  {
    if Calling(s.main) {
      CallKeepsInv(cfg, s);
    } else if Starting(s.main) {
      StartupKeepsInv(cfg, s);
    } else if Failing(s.main) {
      FailureKeepsInv(cfg, s);
    } else {
      QuitKeepsInv(cfg, s);
    }
  }

  lemma WorkerKeepsControl(cfg: Config, s: State, i: nat)
    requires ControlInv(cfg, s) && WorkerEnabled(cfg, s, i)
    ensures ControlInv(cfg, WorkerStep(cfg, s, i))
  {
    match s.workers[i]
    case Lock => TakeMutexInv(cfg, s, i);
    case Check =>
      if s.gate.ready && !s.gate.shuttingDown { PassGateInv(cfg, s, i); } else { RefuseGateInv(cfg, s, i); }
    case AtStart => ArriveStartInv(cfg, s, i);
    case InStart(_) => LeaveStartInv(cfg, s, i);
    case Test => BeginJobInv(cfg, s, i);
    case Run(_, _) => RunJobInv(cfg, s, i);
    case AtStop => ArriveStopInv(cfg, s, i);
    case InStop(_) => LeaveStopInv(cfg, s, i);
  }

  lemma OtherStepsData(cfg: Config, s: State, i: nat)
    requires Shape(cfg, s) && DataInv(cfg, s) && WorkerEnabled(cfg, s, i) && Shape(cfg, WorkerStep(cfg, s, i))
    requires !s.workers[i].Run? && (s.workers[i] == Test ==> s.gate.shuttingDown)
    ensures DataInv(cfg, WorkerStep(cfg, s, i))
  {
    DataUntouched(cfg, s, WorkerStep(cfg, s, i));
  }

  lemma WorkerKeepsData(cfg: Config, s: State, i: nat)
    requires Inv(cfg, s) && WorkerEnabled(cfg, s, i) && Shape(cfg, WorkerStep(cfg, s, i))
    ensures DataInv(cfg, WorkerStep(cfg, s, i))
  {
    if s.workers[i] == Test && !s.gate.shuttingDown {
      BeginJobData(cfg, s, i);
    } else if s.workers[i].Run? {
      RunJobRuns(cfg, s, i);
      RunJobFrame(cfg, s, i);
    } else {
      OtherStepsData(cfg, s, i);
    }
  }

  lemma WorkerKeepsInv(cfg: Config, s: State, i: nat)
    requires Inv(cfg, s) && WorkerEnabled(cfg, s, i)
    ensures Inv(cfg, WorkerStep(cfg, s, i))
  {
    WorkerKeepsControl(cfg, s, i);
    WorkerKeepsData(cfg, s, i);
  }

  // ----- choices of the caller and the environment

  /** No worker has finished the new call, so every row is unpainted. */
  lemma DispatchData(cfg: Config, s: State, call: Call, t: State)
    requires Inv(cfg, s) && s.main == Idle && |call.slots| == cfg.workers
    requires t == s.(main := PutJob, past := s.past.(calls := s.past.calls + [call], base := s.frame))
    ensures DataInv(cfg, t)
  {
    forall i | 0 <= i < cfg.workers ensures !s.workers[i].Run? && |s.past.runs[i]| == s.past.returned {
      assert RunsOk(cfg, s.past.calls, i, s.past.runs[i], s.workers[i]);
    }
  }

  lemma DispatchControl(cfg: Config, s: State, call: Call, t: State)
    requires ControlInv(cfg, s) && s.main == Idle && |call.slots| == cfg.workers
    requires t == s.(main := PutJob, past := s.past.(calls := s.past.calls + [call], base := s.frame))
    ensures ControlInv(cfg, t)
  {
    assert GateSide(cfg, t);
  }

  lemma DispatchInv(cfg: Config, s: State, call: Call)
    requires Inv(cfg, s) && Enabled(cfg, s, Dispatch(call))
    ensures Inv(cfg, Apply(cfg, s, Dispatch(call)))
  {
    DispatchControl(cfg, s, call, Apply(cfg, s, Dispatch(call)));
    DispatchData(cfg, s, call, Apply(cfg, s, Dispatch(call)));
  }

  lemma RedrawInv(cfg: Config, s: State, image: seq<int>)
    requires Inv(cfg, s) && Enabled(cfg, s, Redraw(image))
    ensures Inv(cfg, Apply(cfg, s, Redraw(image)))
  {
  }

  lemma ShutdownControl(cfg: Config, s: State, t: State)
    requires ControlInv(cfg, s) && s.main == Idle && t == s.(main := QuitFlag, gate := s.gate.(active := false))
    ensures ControlInv(cfg, t)
  {
    assert GateSide(cfg, t);
    BarriersAside(cfg, s, t);
  }

  lemma ShutdownInv(cfg: Config, s: State)
    requires Inv(cfg, s) && Enabled(cfg, s, Shutdown)
    ensures Inv(cfg, Apply(cfg, s, Shutdown))
  {
    ShutdownControl(cfg, s, Apply(cfg, s, Shutdown));
    MainMovesInv(cfg, s, Apply(cfg, s, Shutdown));
  }

  lemma WakeMainControl(cfg: Config, s: State, t: State)
    requires ControlInv(cfg, s) && s.main == GateSleep && t == s.(main := GateRelock)
    ensures ControlInv(cfg, t)
  {
    assert GateSide(cfg, t);
    BarriersAside(cfg, s, t);
  }

  lemma WakeMainInv(cfg: Config, s: State)
    requires Inv(cfg, s) && Enabled(cfg, s, WakeMain)
    ensures Inv(cfg, Apply(cfg, s, WakeMain))
  {
    WakeMainControl(cfg, s, Apply(cfg, s, WakeMain));
    MainMovesInv(cfg, s, Apply(cfg, s, WakeMain));
  }

  lemma WakeWorkerControl(cfg: Config, s: State, i: nat, t: State)
    requires ControlInv(cfg, s) && i < cfg.workers && s.workers[i] == Sleep && t == s.(workers := s.workers[i := Lock])
    ensures ControlInv(cfg, t)
  {
    PassedKept(s.workers, i, Lock);
    BarriersUnmoved(cfg, s, t, i, Lock);
  }

  lemma WakeWorkerInv(cfg: Config, s: State, i: nat, t: State)
    requires Inv(cfg, s) && i < cfg.workers && s.workers[i] == Sleep && t == s.(workers := s.workers[i := Lock])
    ensures Inv(cfg, t)
  {
    WakeWorkerControl(cfg, s, i, t);
    DataUntouched(cfg, s, t);
  }

  /** Every step of every thread keeps the invariant. */
  lemma StepKeepsInv(cfg: Config, s: State, l: Label)
    requires Inv(cfg, s) && Enabled(cfg, s, l)
    ensures Inv(cfg, Apply(cfg, s, l))
  {
    match l
    case Worker(i) => WorkerKeepsInv(cfg, s, i);
    case Main => MainKeepsInv(cfg, s);
    case CreateFails => CreateFailsInv(cfg, s);
    case Dispatch(call) => DispatchInv(cfg, s, call);
    case Redraw(image) => RedrawInv(cfg, s, image);
    case Shutdown => ShutdownInv(cfg, s);
    case WakeWorker(i) => WakeWorkerInv(cfg, s, i, Apply(cfg, s, l));
    case WakeMain => WakeMainInv(cfg, s);
  }

  lemma {:induction false} RunKeepsInv(cfg: Config, trace: seq<State>, labels: seq<Label>, k: nat)
    requires ValidConfig(cfg) && IsRun(cfg, trace, labels) && k < |trace|
    ensures Inv(cfg, trace[k])
  {
    if k == 0 {
      InitialInv(cfg, trace[0].frame);
    } else {
      RunKeepsInv(cfg, trace, labels, k - 1);
      assert StepAt(cfg, trace, labels, k - 1);
      StepKeepsInv(cfg, trace[k - 1], labels[k - 1]);
    }
  }
}
