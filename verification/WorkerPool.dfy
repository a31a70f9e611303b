/** The render worker pool as a transition system: `workers` pool threads and the
    main thread, a mutex and condition variable guarding the startup gate, and two
    reusable POSIX barriers. A step belongs to one thread; any interleaving of
    steps is a run. */
module WorkerPool {
  import opened RowBands

  /** `paint(job, generation, row, old)` is what a row-local job writes into `row`. */
  datatype Config = Config(workers: nat, rows: nat, paint: (nat, nat, nat, int) -> int)

  ghost predicate ValidConfig(cfg: Config) {
    0 < cfg.workers && 0 < cfg.rows && cfg.workers * cfg.rows <= INT_MAX
  }

  /** The arguments of one dispatch; pointers are opaque identities. */
  datatype Call = Call(job: nat, slots: seq<nat>, generation: nat)

  /** The arguments of one execution of the job function. */
  datatype JobRun = JobRun(job: nat, slot: nat, lo: nat, hi: nat, generation: nat)

  datatype WorkerPc =
    | Unborn
    | Lock                              // wants the startup mutex
    | Check                             // holds it, about to test the gate
    | Sleep                             // waits on the condition variable
    | AtStart | InStart(ticket: nat)    // before / inside the start barrier
    | Test                              // about to read shutting_down
    | Run(run: JobRun, row: nat)        // inside the job, next row to paint
    | AtStop | InStop(ticket: nat)      // before / inside the stop barrier
    | Done

  datatype MainPc =
    | Creating(next: nat)
    | FailLock | FailSignal | FailJoin(next: nat) | FailDestroy | Failed
    | ReadyLock | ReadySignal | GateTest | GateSleep | GateRelock
    | Idle
    | PutJob | PutSlots | PutGeneration
    | EnterStart | MainInStart(ticket: nat) | EnterStop | MainInStop(ticket: nat)
    | QuitFlag | EnterQuit | InQuit(ticket: nat) | Joining(next: nat) | Destroying | Off

  datatype Mutex = Free | ByMain | ByWorker(index: nat)

  /** POSIX barrier: threads that arrived in the current round, and rounds completed. */
  datatype Barrier = Barrier(arrived: nat, round: nat)

  function Arrive(b: Barrier, parties: nat): Barrier {
    if b.arrived + 1 == parties then Barrier(0, b.round + 1) else b.(arrived := b.arrived + 1)
  }

  /** Startup gate and lifetime flags. */
  datatype Gate = Gate(
    mutex: Mutex, ready: bool, released: nat, shuttingDown: bool, active: bool, created: nat)

  /** The fields a dispatch publishes to the workers. */
  datatype Post = Post(job: nat, slots: seq<nat>, generation: nat)

  /** What the proofs observe: the calls made, the frame when the last one was made, each
      worker's finished job executions, and the number of dispatches that returned. */
  datatype History = History(calls: seq<Call>, base: seq<int>, runs: seq<seq<JobRun>>, returned: nat)

  datatype State = State(
    gate: Gate, post: Post, start: Barrier, stop: Barrier,
    workers: seq<WorkerPc>, main: MainPc, frame: seq<int>, past: History)

  /** One step: of a worker, of the main thread, or a choice of the environment. */
  datatype Label =
    | Worker(index: nat)
    | Main
    | CreateFails
    | Dispatch(call: Call)
    | Redraw(image: seq<int>)    // the main thread uses the frame between dispatches
    | Shutdown
    | WakeWorker(index: nat)     // spurious wakeup
    | WakeMain

  ghost predicate Shape(cfg: Config, s: State) {
    && cfg.workers > 0
    && |s.workers| == cfg.workers && |s.past.runs| == cfg.workers && |s.post.slots| == cfg.workers
    && |s.frame| == cfg.rows && |s.past.base| == cfg.rows
  }

  ghost function Initial(cfg: Config, image: seq<int>): State
    requires |image| == cfg.rows
  {
    State(Gate(Free, false, 0, false, false, 0), Post(0, seq(cfg.workers, _ => 0), 0),
          Barrier(0, 0), Barrier(0, 0),
          seq(cfg.workers, _ => Unborn), Creating(0), image,
          History([], image, seq(cfg.workers, _ => []), 0))
  }

  /** pthread_cond_broadcast: every sleeper must take the mutex again. */
  function Awake(workers: seq<WorkerPc>): (woken: seq<WorkerPc>)
    ensures |woken| == |workers|
    ensures forall i :: 0 <= i < |workers| ==>
              woken[i] == if workers[i] == Sleep then Lock else workers[i]
  {
    seq(|workers|, i requires 0 <= i < |workers| =>
      if workers[i] == Sleep then Lock else workers[i])
  }

  function AwakeMain(main: MainPc): MainPc {
    if main == GateSleep then GateRelock else main
  }

  // ----- steps of worker `i`

  function TakeMutex(s: State, i: nat): State
    requires i < |s.workers|
  {
    s.(gate := s.gate.(mutex := ByWorker(i)), workers := s.workers[i := Check])
  }

  /** Under the mutex: sleep until ready, leave if init failed, or pass and tell init. */
  function TryGate(s: State, i: nat): State
    requires i < |s.workers|
  {
    if !s.gate.ready then
      s.(gate := s.gate.(mutex := Free), workers := s.workers[i := Sleep])
    else if s.gate.shuttingDown then
      s.(gate := s.gate.(mutex := Free), workers := s.workers[i := Done])
    else
      s.(gate := s.gate.(mutex := Free, released := s.gate.released + 1),
         workers := Awake(s.workers)[i := AtStart], main := AwakeMain(s.main))
  }

  function ArriveStart(s: State, i: nat): State
    requires i < |s.workers|
  {
    s.(start := Arrive(s.start, |s.workers| + 1), workers := s.workers[i := InStart(s.start.round)])
  }

  function LeaveStart(s: State, i: nat): State
    requires i < |s.workers|
  {
    s.(workers := s.workers[i := Test])
  }

  function BeginJob(cfg: Config, s: State, i: nat): State
    requires cfg.workers > 0 && i < |s.workers| == |s.post.slots|
  {
    if s.gate.shuttingDown then s.(workers := s.workers[i := Done])
    else
      var lo := Band(i, cfg.rows, cfg.workers);
      var hi := Band(i + 1, cfg.rows, cfg.workers);
      s.(workers := s.workers[i := Run(JobRun(s.post.job, s.post.slots[i], lo, hi, s.post.generation), lo)])
  }

  function RunJob(cfg: Config, s: State, i: nat): State
    requires i < |s.workers| == |s.past.runs| && s.workers[i].Run?
    requires s.workers[i].row < s.workers[i].run.hi ==> s.workers[i].row < |s.frame|
  {
    var run, row := s.workers[i].run, s.workers[i].row;
    if row < run.hi then
      s.(frame := s.frame[row := cfg.paint(run.job, run.generation, row, s.frame[row])],
         workers := s.workers[i := Run(run, row + 1)])
    else
      s.(past := s.past.(runs := s.past.runs[i := s.past.runs[i] + [run]]),
         workers := s.workers[i := AtStop])
  }

  function ArriveStop(s: State, i: nat): State
    requires i < |s.workers|
  {
    s.(stop := Arrive(s.stop, |s.workers| + 1), workers := s.workers[i := InStop(s.stop.round)])
  }

  function LeaveStop(s: State, i: nat): State
    requires i < |s.workers|
  {
    s.(workers := s.workers[i := AtStart])
  }

  ghost predicate WorkerEnabled(cfg: Config, s: State, i: nat)
    requires Shape(cfg, s)
  {
    i < cfg.workers &&
    match s.workers[i]
    case Lock => s.gate.mutex == Free
    case InStart(t) => t < s.start.round
    case InStop(t) => t < s.stop.round
    case Run(run, row) => row < run.hi ==> row < |s.frame|   // no write outside the frame
    case Unborn => false
    case Sleep => false
    case Done => false
    case _ => true
  }

  ghost function WorkerStep(cfg: Config, s: State, i: nat): State
    requires Shape(cfg, s) && WorkerEnabled(cfg, s, i)
  {
    match s.workers[i]
    case Lock => TakeMutex(s, i)
    case Check => TryGate(s, i)
    case AtStart => ArriveStart(s, i)
    case InStart(_) => LeaveStart(s, i)
    case Test => BeginJob(cfg, s, i)
    case Run(_, _) => RunJob(cfg, s, i)
    case AtStop => ArriveStop(s, i)
    case InStop(_) => LeaveStop(s, i)
  }

  // ----- steps of the main thread: init, dispatch, shutdown

  /** pthread_create succeeds for the next worker, or all exist. */
  function Create(s: State): State
    requires s.main.Creating?
  {
    var n := s.main.next;
    if n < |s.workers| then
      s.(main := Creating(n + 1), gate := s.gate.(created := n + 1), workers := s.workers[n := Lock])
    else s.(main := ReadyLock)
  }

  function SignalFailure(s: State): State {
    s.(gate := s.gate.(shuttingDown := true, ready := true, mutex := Free),
       workers := Awake(s.workers), main := FailJoin(0))
  }

  function SignalReady(s: State): State {
    s.(gate := s.gate.(ready := true), workers := Awake(s.workers), main := GateTest)
  }

  function AwaitReleased(s: State): State {
    if s.gate.released < |s.workers| then s.(main := GateSleep, gate := s.gate.(mutex := Free))
    else s.(main := Idle, gate := s.gate.(mutex := Free, active := true))
  }

  function MainArriveStart(s: State, inside: MainPc): State {
    s.(main := inside, start := Arrive(s.start, |s.workers| + 1))
  }

  function MainArriveStop(s: State): State {
    s.(main := MainInStop(s.stop.round), stop := Arrive(s.stop, |s.workers| + 1))
  }

  function LastCall(s: State): Call
    requires |s.past.calls| > 0
  {
    s.past.calls[|s.past.calls| - 1]
  }

  ghost predicate MainEnabled(cfg: Config, s: State)
    requires Shape(cfg, s)
  {
    match s.main
    case FailLock => s.gate.mutex == Free
    case ReadyLock => s.gate.mutex == Free
    case GateRelock => s.gate.mutex == Free
    case FailJoin(j) => j < s.gate.created ==> j < |s.workers| && s.workers[j] == Done
    case Joining(j) => j < |s.workers| ==> s.workers[j] == Done
    case MainInStart(t) => t < s.start.round
    case MainInStop(t) => t < s.stop.round
    case InQuit(t) => t < s.start.round
    case PutJob => |s.past.calls| > 0
    case PutSlots => |s.past.calls| > 0
    case PutGeneration => |s.past.calls| > 0
    case GateSleep => false
    case Idle => false      // the next call is the caller's choice
    case Failed => false
    case Off => false
    case _ => true
  }

  ghost function MainStep(cfg: Config, s: State): State
    requires Shape(cfg, s) && MainEnabled(cfg, s)
  {
    match s.main
    case Creating(_) => Create(s)
    case FailLock => s.(main := FailSignal, gate := s.gate.(mutex := ByMain))
    case FailSignal => SignalFailure(s)
    case FailJoin(j) => s.(main := if j < s.gate.created then FailJoin(j + 1) else FailDestroy)
    case FailDestroy => s.(main := Failed)
    case ReadyLock => s.(main := ReadySignal, gate := s.gate.(mutex := ByMain))
    case ReadySignal => SignalReady(s)
    case GateTest => AwaitReleased(s)
    case GateRelock => s.(main := GateTest, gate := s.gate.(mutex := ByMain))
    case PutJob => s.(main := PutSlots, post := s.post.(job := LastCall(s).job))
    case PutSlots => s.(main := PutGeneration, post := s.post.(slots := LastCall(s).slots))
    case PutGeneration => s.(main := EnterStart, post := s.post.(generation := LastCall(s).generation))
    case EnterStart => MainArriveStart(s, MainInStart(s.start.round))
    case MainInStart(_) => s.(main := EnterStop)
    case EnterStop => MainArriveStop(s)
    case MainInStop(_) => s.(main := Idle, past := s.past.(returned := s.past.returned + 1))
    case QuitFlag => s.(main := EnterQuit, gate := s.gate.(shuttingDown := true))
    case EnterQuit => MainArriveStart(s, InQuit(s.start.round))
    case InQuit(_) => s.(main := Joining(0))
    case Joining(j) => s.(main := if j < |s.workers| then Joining(j + 1) else Destroying)
    case Destroying => s.(main := Off)
  }

  // ----- all steps

  ghost predicate Enabled(cfg: Config, s: State, l: Label)
    requires Shape(cfg, s)
  {
    match l
    case Worker(i) => WorkerEnabled(cfg, s, i)
    case Main => MainEnabled(cfg, s)
    case CreateFails => s.main.Creating? && s.main.next < |s.workers|
    case Dispatch(call) => s.main == Idle && s.gate.active && |call.slots| == cfg.workers
    case Redraw(image) => s.main == Idle && |image| == cfg.rows
    case Shutdown => s.main == Idle && s.gate.active
    case WakeWorker(i) => i < cfg.workers && s.workers[i] == Sleep
    case WakeMain => s.main == GateSleep
  }

  ghost function Apply(cfg: Config, s: State, l: Label): State
    requires Shape(cfg, s) && Enabled(cfg, s, l)
  {
    match l
    case Worker(i) => WorkerStep(cfg, s, i)
    case Main => MainStep(cfg, s)
    case CreateFails => s.(main := FailLock)
    case Dispatch(call) =>
      s.(main := PutJob, past := s.past.(calls := s.past.calls + [call], base := s.frame))
    case Redraw(image) => s.(frame := image)
    case Shutdown => s.(main := QuitFlag, gate := s.gate.(active := false))
    case WakeWorker(i) => s.(workers := s.workers[i := Lock])
    case WakeMain => s.(main := GateRelock)
  }

  ghost predicate Follows(cfg: Config, s: State, l: Label, t: State) {
    Shape(cfg, s) && Enabled(cfg, s, l) && t == Apply(cfg, s, l)
  }

  /** `trace[k + 1]` follows from `trace[k]` by `labels[k]`. */
  ghost predicate StepAt(cfg: Config, trace: seq<State>, labels: seq<Label>, k: nat)
    requires |trace| == |labels| + 1 && k < |labels|
  {
    Follows(cfg, trace[k], labels[k], trace[k + 1])
  }

  /** `trace` is a run from the initial state, one state longer than `labels`. */
  ghost predicate IsRun(cfg: Config, trace: seq<State>, labels: seq<Label>)
    requires ValidConfig(cfg)
  {
    && |trace| == |labels| + 1
    && Shape(cfg, trace[0]) && trace[0] == Initial(cfg, trace[0].frame)
    && forall k :: 0 <= k < |labels| ==> StepAt(cfg, trace, labels, k)
  }
}
