/** Lockstep safety, equality with inline mode and clean teardown, in every state of every run. */
module WorkerPoolSafety {
  import opened RowBands
  import opened WorkerPool
  import opened WorkerPoolInvariant

  // ----- lockstep safety

  /** What inline mode's single call over all rows makes of `base`. */
  ghost function InlineFrame(cfg: Config, call: Call, base: seq<int>): seq<int>
    requires |base| == cfg.rows
  {
    seq(cfg.rows, row requires 0 <= row < cfg.rows => PaintedRow(cfg, call, row, base[row]))
  }

  /** Inline mode: one job execution over the whole row range, on the caller's frame. */
  method InlineDispatch(cfg: Config, call: Call, frame: array<int>) returns (run: JobRun)
    requires frame.Length == cfg.rows && |call.slots| > 0
    modifies frame
    ensures frame[..] == InlineFrame(cfg, call, old(frame[..]))
    ensures run == JobRun(call.job, call.slots[0], 0, cfg.rows, call.generation)
  {
    run := JobRun(call.job, call.slots[0], 0, cfg.rows, call.generation);
    for row := 0 to cfg.rows
      invariant frame[..row] == InlineFrame(cfg, call, old(frame[..]))[..row]
      invariant frame[row..] == old(frame[row..])
    {
      assert frame[row] == frame[row..][0] == old(frame[row]);
      frame[row] := cfg.paint(run.job, run.generation, row, frame[row]);
    }
  }

  /** When the main thread may leave the stop barrier, every worker has run its band and the
      frame is the one inline mode would have produced. */
  lemma StopRoundComplete(cfg: Config, s: State)
    requires Inv(cfg, s) && s.main.MainInStop? && s.main.ticket < s.stop.round
    ensures |s.past.calls| > 0 && s.past.returned + 1 == |s.past.calls|
    ensures forall i :: 0 <= i < cfg.workers ==> |s.past.runs[i]| == |s.past.calls|
    ensures s.frame == InlineFrame(cfg, LastCall(s), s.past.base)
  {
    forall i | 0 <= i < cfg.workers ensures |s.past.runs[i]| == |s.past.calls| {
      assert s.workers[i] == s.workers[i];
    }
    forall row | 0 <= row < cfg.rows
      ensures s.frame[row] == PaintedRow(cfg, LastCall(s), row, s.past.base[row])
    {
      var i := Owner(row, cfg.rows, cfg.workers);
      assert Painted(s.workers[i], |s.past.runs[i]|, s.past.returned, row);
    }
  }

  /** Worker `i` ran its own band exactly once for each call, with that call's job, slot and
      generation. */
  ghost predicate RanAll(cfg: Config, calls: seq<Call>, i: nat, runs: seq<JobRun>)
    requires cfg.workers > 0 && i < cfg.workers
  {
    && |runs| == |calls|
    && forall c :: 0 <= c < |calls| ==> |calls[c].slots| == cfg.workers && runs[c] == Expected(cfg, calls[c], i)
  }

  /** Every dispatch so far has returned, each worker ran its band for all of them, and the frame is
      the one inline mode would have produced. */
  ghost predicate Complete(cfg: Config, s: State)
    requires Shape(cfg, s)
  {
    && s.past.returned == |s.past.calls| > 0
    && (forall i :: 0 <= i < cfg.workers ==> RanAll(cfg, s.past.calls, i, s.past.runs[i]))
    && s.frame == InlineFrame(cfg, LastCall(s), s.past.base)
  }

  lemma RunsAreAll(cfg: Config, calls: seq<Call>, i: nat, runs: seq<JobRun>, w: WorkerPc)
    requires cfg.workers > 0 && i < cfg.workers && RunsOk(cfg, calls, i, runs, w) && |runs| == |calls|
    ensures RanAll(cfg, calls, i, runs)
  {
  }

  lemma ReturnIsComplete(cfg: Config, s: State, t: State)
    requires Shape(cfg, s) && RunsInv(cfg, s) && |s.past.calls| > 0 && s.past.returned + 1 == |s.past.calls|
    requires forall i :: 0 <= i < cfg.workers ==> |s.past.runs[i]| == |s.past.calls|
    requires s.frame == InlineFrame(cfg, LastCall(s), s.past.base)
    requires t == s.(main := Idle, past := s.past.(returned := s.past.returned + 1))
    ensures Complete(cfg, t)
  {
    forall i | 0 <= i < cfg.workers ensures RanAll(cfg, s.past.calls, i, s.past.runs[i]) {
      RunsAreAll(cfg, s.past.calls, i, s.past.runs[i], s.workers[i]);
    }
  }

  /** In every interleaving, a dispatch returns complete. */
  lemma DispatchReturnsComplete(cfg: Config, trace: seq<State>, labels: seq<Label>, k: nat)
    requires ValidConfig(cfg) && IsRun(cfg, trace, labels) && k < |labels|
    requires labels[k] == Main && trace[k].main.MainInStop?
    ensures Shape(cfg, trace[k + 1]) && trace[k + 1].main == Idle && Complete(cfg, trace[k + 1])
  {
    RunKeepsInv(cfg, trace, labels, k);
    assert StepAt(cfg, trace, labels, k);
    StopRoundComplete(cfg, trace[k]);
    ReturnIsComplete(cfg, trace[k], trace[k + 1]);
  }

  /** No worker runs dispatch `c` before every worker has finished all dispatches below `c`. */
  lemma NoOvertaking(cfg: Config, trace: seq<State>, labels: seq<Label>, k: nat, i: nat, j: nat)
    requires ValidConfig(cfg) && IsRun(cfg, trace, labels) && k < |trace|
    requires i < cfg.workers && j < cfg.workers
    ensures Shape(cfg, trace[k])
    ensures trace[k].workers[i].Run? ==> |trace[k].past.runs[i]| <= |trace[k].past.runs[j]|
  {
    RunKeepsInv(cfg, trace, labels, k);
  }

  /** The next step of the main thread stores a published field or shutting_down, or the caller
      draws on the frame between dispatches. */
  predicate StoresShared(s: State, l: Label) {
    || l.Redraw?
    || (l.Main? && (s.main.PutJob? || s.main.PutSlots? || s.main.PutGeneration?))
    || (l.Main? && (s.main.QuitFlag? || s.main.FailSignal?))
  }

  lemma NobodyBetween(cfg: Config, s: State, l: Label, i: nat)
    requires ControlInv(cfg, s) && Enabled(cfg, s, l) && StoresShared(s, l) && i < cfg.workers
    ensures !BetweenBarriers(s, i)
  {
    assert WorkerOk(s.workers[i], |s.past.runs[i]|, s.start.round, s.stop.round,
                    Failing(s.main), Calling(s.main), s.gate.shuttingDown);
  }

  /** Whatever value is stored, the main thread stores job, slots, generation, shutting_down or
      pixels only while no worker is between the barriers. */
  lemma NoRacyWrite(cfg: Config, trace: seq<State>, labels: seq<Label>, k: nat, i: nat)
    requires ValidConfig(cfg) && IsRun(cfg, trace, labels) && k < |labels| && i < cfg.workers
    requires StoresShared(trace[k], labels[k])
    ensures i < |trace[k].workers| && !BetweenBarriers(trace[k], i)
  {
    RunKeepsInv(cfg, trace, labels, k);
    assert StepAt(cfg, trace, labels, k);
    NobodyBetween(cfg, trace[k], labels[k], i);
  }

  /** And these are all its stores: any other step of the main thread, the caller or the
      environment leaves the shared fields and the frame as they are. */
  lemma OtherStepsStoreNothing(cfg: Config, s: State, l: Label, t: State)
    requires Follows(cfg, s, l, t) && !l.Worker? && !StoresShared(s, l)
    ensures t.post == s.post && t.frame == s.frame && t.gate.shuttingDown == s.gate.shuttingDown
  {
  }

  // ----- teardown

  /** Every created worker has returned, nobody waits in a barrier and nobody holds the mutex. */
  ghost predicate Clean(cfg: Config, s: State)
    requires Shape(cfg, s)
  {
    && (forall i :: 0 <= i < cfg.workers ==> s.workers[i] == if i < s.gate.created then Done else Unborn)
    && s.start.arrived == 0 && s.stop.arrived == 0 && s.gate.mutex == Free
  }

  lemma JoinedIsClean(cfg: Config, s: State)
    requires ControlInv(cfg, s) && (s.main.FailDestroy? || s.main.Failed? || s.main.Destroying? || s.main.Off?)
    ensures Clean(cfg, s)
  {
    NobodyStands(s.workers, InStart(s.start.round));
    NobodyStands(s.workers, InStop(s.stop.round));
  }

  /** When the barriers are destroyed, after shutdown or failed init, the pool is clean. */
  lemma TeardownIsClean(cfg: Config, trace: seq<State>, labels: seq<Label>, k: nat)
    requires ValidConfig(cfg) && IsRun(cfg, trace, labels) && k < |trace|
    requires var m := trace[k].main; m.FailDestroy? || m.Failed? || m.Destroying? || m.Off?
    ensures Shape(cfg, trace[k]) && Clean(cfg, trace[k])
  {
    RunKeepsInv(cfg, trace, labels, k);
    JoinedIsClean(cfg, trace[k]);
  }

  lemma BarriersUntouched(cfg: Config, s: State)
    requires ControlInv(cfg, s) && (Failing(s.main) || s.main.Creating?)
    ensures forall i :: 0 <= i < cfg.workers ==> AtGate(s.workers[i]) || s.workers[i] == Done
    ensures s.start == Barrier(0, 0) && s.stop == Barrier(0, 0)
  {
    NobodyStands(s.workers, InStart(s.start.round));
    NobodyStands(s.workers, InStop(s.stop.round));
  }

  lemma StaysCreating(cfg: Config, s: State, l: Label, t: State)
    requires Follows(cfg, s, l, t) && (Failing(t.main) || t.main.Creating?)
    ensures Failing(s.main) || s.main.Creating?
  {
  }

  lemma {:induction false} FailingOrCreatingBefore(cfg: Config, trace: seq<State>, labels: seq<Label>, k: nat, j: nat)
    requires ValidConfig(cfg) && IsRun(cfg, trace, labels) && j <= k < |trace|
    requires Failing(trace[k].main) || trace[k].main.Creating?
    ensures Failing(trace[j].main) || trace[j].main.Creating?
    decreases k
  {
    if j < k {
      assert StepAt(cfg, trace, labels, k - 1);
      StaysCreating(cfg, trace[k - 1], labels[k - 1], trace[k]);
      FailingOrCreatingBefore(cfg, trace, labels, k - 1, j);
    }
  }

  /** If init fails, no worker reached a barrier at any point of the run. */
  lemma FailedInitUsesNoBarrier(cfg: Config, trace: seq<State>, labels: seq<Label>, k: nat, j: nat)
    requires ValidConfig(cfg) && IsRun(cfg, trace, labels) && j <= k < |trace|
    requires Failing(trace[k].main)
    ensures Shape(cfg, trace[j])
    ensures forall i :: 0 <= i < cfg.workers ==> AtGate(trace[j].workers[i]) || trace[j].workers[i] == Done
    ensures trace[j].start == Barrier(0, 0) && trace[j].stop == Barrier(0, 0)
  {
    FailingOrCreatingBefore(cfg, trace, labels, k, j);
    RunKeepsInv(cfg, trace, labels, j);
    BarriersUntouched(cfg, trace[j]);
  }
}
