/** The input engine over whole runs of polls, rescans and shutdowns. */
module InputRuns {
  import opened AxisNormalize
  import opened Bytes
  import opened InputEvents
  import opened DesyncReplay
  import opened Discovery
  import opened InputFrame
  import opened InputSpec
  import opened SlotOrder

  /** A rescan finds the candidates `found`, in directory order; init is the first one. */
  datatype Op =
    | PollOp(scripts: seq<seq<Answer>>, snaps: seq<Snapshots>)
    | RescanOp(found: seq<Candidate>)
    | ShutdownOp

  ghost predicate GoodOp(op: Op) {
    match op
    case PollOp(scripts, snaps) => GoodPoll(scripts, snaps)
    case RescanOp(found) => GoodCandidates(found)
    case ShutdownOp => true
  }

  lemma ClaimKeepsShapes(sources: seq<Source>, planned: seq<Candidate>)
    requires Shapes(sources) && GoodCandidates(planned)
    ensures Shapes(ClaimAll(sources, planned))
  {
    forall k | 0 <= k < SLOTS ensures SourceShape(ClaimAll(sources, planned)[k]) {
      ClaimsInOrder(sources, planned, k);
    }
  }

  ghost function Applied(st: Input, op: Op, size: nat): (next: Input)
    requires InputShape(st) && GoodOp(op) && EventSize(size)
    ensures InputShape(next)
  {
    match op
    case PollOp(scripts, snaps) => Polled(st, scripts, snaps, size)
    case RescanOp(found) =>
      PlanKeepsGood(found);
      ClaimKeepsShapes(st.sources, Planned(found));
      st.(sources := ClaimAll(st.sources, Planned(found)))
    case ShutdownOp => EmptyInput()
  }

  ghost predicate Follows(st: Input, op: Op, next: Input, size: nat) {
    EventSize(size) && InputShape(st) && GoodOp(op) && next == Applied(st, op, size)
  }

  lemma PollFollows(st: Input, scripts: seq<seq<Answer>>, snaps: seq<Snapshots>, size: nat)
    requires InputShape(st) && GoodPoll(scripts, snaps) && EventSize(size)
    ensures Follows(st, PollOp(scripts, snaps), Polled(st, scripts, snaps, size), size)
  {
  }

  ghost predicate StepAt(trace: seq<Input>, ops: seq<Op>, size: nat, k: nat)
    requires |trace| == |ops| + 1 && k < |ops|
  {
    Follows(trace[k], ops[k], trace[k + 1], size)
  }

  /** `trace` is a run of `ops` from an empty engine: `trace[k + 1]` is the state after `ops[k]`. */
  ghost predicate IsRun(trace: seq<Input>, ops: seq<Op>, size: nat) {
    && EventSize(size) && |trace| == |ops| + 1 && trace[0] == EmptyInput()
    && forall k :: 0 <= k < |ops| ==> StepAt(trace, ops, size, k)
  }

  lemma RunGrows(trace: seq<Input>, ops: seq<Op>, size: nat, op: Op, next: Input)
    requires IsRun(trace, ops, size) && Follows(trace[|ops|], op, next, size)
    ensures IsRun(trace + [next], ops + [op], size)
  {
    var longer, more := trace + [next], ops + [op];
    forall k | 0 <= k < |more| ensures StepAt(longer, more, size, k) {
      if k < |ops| {
        assert StepAt(trace, ops, size, k);
      }
    }
  }

  lemma {:induction false} RunKeepsShape(trace: seq<Input>, ops: seq<Op>, size: nat, n: nat)
    requires IsRun(trace, ops, size) && n < |trace|
    ensures InputShape(trace[n])
  {
    if n > 0 { assert StepAt(trace, ops, size, n - 1); }
  }

  // ----- generations

  /** A connected source has generation 1; an empty slot has 0, or 2 after a disconnect. */
  ghost predicate GenerationOk(s: Source) {
    if s.fd >= 0 then s.generation == 1 else s.generation == 0 || s.generation == 2
  }

  ghost predicate GenerationsOk(sources: seq<Source>) {
    forall k :: 0 <= k < |sources| ==> GenerationOk(sources[k])
  }

  lemma ReplaceKeepsGenerations(sources: seq<Source>, i: nat, s: Source)
    requires GenerationsOk(sources) && i < |sources| && sources[i].fd >= 0 && DeviceKept(sources[i], s)
    ensures GenerationsOk(sources[i := s])
  {
  }

  lemma MaybePumpKeepsGenerations(st: Input, i: nat, scripts: seq<seq<Answer>>, snaps: seq<Snapshots>, size: nat)
    requires InputShape(st) && i < SLOTS && GoodPoll(scripts, snaps) && EventSize(size) && GenerationsOk(st.sources)
    ensures GenerationsOk(MaybePumped(st, i, scripts, snaps, size).sources)
  {
    if !Skipped(st.sources[i]) {
      PumpKeepsDevice(st, i, scripts[i], snaps[i], size);
      ReplaceKeepsGenerations(st.sources, i, Pumped(st, i, scripts[i], snaps[i], size).sources[i]);
    }
  }

  lemma {:induction false} PumpsKeepGenerations(st: Input, i: nat, scripts: seq<seq<Answer>>, snaps: seq<Snapshots>,
                                                size: nat)
    requires InputShape(st) && i <= SLOTS && GoodPoll(scripts, snaps) && EventSize(size) && GenerationsOk(st.sources)
    ensures GenerationsOk(PumpsFrom(st, i, scripts, snaps, size).sources)
    decreases SLOTS - i
  {
    if i < SLOTS {
      MaybePumpKeepsGenerations(st, i, scripts, snaps, size);
      PumpsKeepGenerations(MaybePumped(st, i, scripts, snaps, size), i + 1, scripts, snaps, size);
    }
  }

  lemma ClaimKeepsGenerations(sources: seq<Source>, planned: seq<Candidate>)
    requires GenerationsOk(sources) && GoodCandidates(planned)
    ensures GenerationsOk(ClaimAll(sources, planned))
  {
    ClaimConnects(sources, planned);
    forall k | 0 <= k < |sources| ensures GenerationOk(ClaimAll(sources, planned)[k]) {
      assert Claimed(sources, planned, ClaimAll(sources, planned), k) && GenerationOk(sources[k]);
    }
  }

  lemma StepKeepsGenerations(st: Input, op: Op, size: nat)
    requires InputShape(st) && GoodOp(op) && EventSize(size) && GenerationsOk(st.sources)
    ensures GenerationsOk(Applied(st, op, size).sources)
  {
    match op
    case PollOp(scripts, snaps) => PumpsKeepGenerations(st, 0, scripts, snaps, size);
    case RescanOp(found) =>
      PlanKeepsGood(found);
      ClaimKeepsGenerations(st.sources, Planned(found));
    case ShutdownOp =>
  }

  /** In every state of every run a connected source has generation 1, however often its slot was
      connected before. */
  lemma {:induction false} GenerationIsOne(trace: seq<Input>, ops: seq<Op>, size: nat, n: nat)
    requires IsRun(trace, ops, size) && n < |trace|
    ensures GenerationsOk(trace[n].sources)
  {
    if n > 0 {
      GenerationIsOne(trace, ops, size, n - 1);
      assert StepAt(trace, ops, size, n - 1);
      StepKeepsGenerations(trace[n - 1], ops[n - 1], size);
    }
  }

  lemma {:induction false} ConnectGeneration(sources: seq<Source>, planned: seq<Candidate>, k: nat)
    requires GoodCandidates(planned) && k < |sources| && Takes(sources, |planned|, k)
    ensures ClaimAll(sources, planned)[k].fd >= 0 && ClaimAll(sources, planned)[k].generation == 1
  {
    ClaimsInOrder(sources, planned, k);
  }

  // ----- what a generation remembers

  lemma MaybePumpKeepsUsed(st: Input, i: nat, scripts: seq<seq<Answer>>, snaps: seq<Snapshots>, size: nat, k: nat)
    requires InputShape(st) && i < SLOTS && k < SLOTS && GoodPoll(scripts, snaps) && EventSize(size)
    requires GenerationsOk(st.sources) && st.sources[k].generation != 0
    ensures MaybePumped(st, i, scripts, snaps, size).sources[k].generation != 0
  {
    if !Skipped(st.sources[i]) {
      PumpKeepsDevice(st, i, scripts[i], snaps[i], size);
      assert GenerationOk(st.sources[i]);
    }
  }

  lemma {:induction false} PumpsKeepUsed(st: Input, i: nat, scripts: seq<seq<Answer>>, snaps: seq<Snapshots>,
                                         size: nat, k: nat)
    requires InputShape(st) && i <= SLOTS && k < SLOTS && GoodPoll(scripts, snaps) && EventSize(size)
    requires GenerationsOk(st.sources) && st.sources[k].generation != 0
    ensures PumpsFrom(st, i, scripts, snaps, size).sources[k].generation != 0
    decreases SLOTS - i
  {
    if i < SLOTS {
      MaybePumpKeepsUsed(st, i, scripts, snaps, size, k);
      MaybePumpKeepsGenerations(st, i, scripts, snaps, size);
      PumpsKeepUsed(MaybePumped(st, i, scripts, snaps, size), i + 1, scripts, snaps, size, k);
    }
  }

  /** A slot that has been used stays marked; an unused one is marked by the step that fills it. */
  lemma UseIsRemembered(st: Input, op: Op, size: nat, k: nat)
    requires InputShape(st) && GoodOp(op) && EventSize(size) && k < SLOTS && !op.ShutdownOp?
    requires GenerationsOk(st.sources)
    ensures Applied(st, op, size).sources[k].generation == 0 <==>
            st.sources[k].generation == 0 && Applied(st, op, size).sources[k].fd < 0
  {
    StepKeepsGenerations(st, op, size);
    assert GenerationOk(st.sources[k]) && GenerationOk(Applied(st, op, size).sources[k]);
    match op
    case PollOp(scripts, snaps) =>
      if st.sources[k].generation != 0 {
        PumpsKeepUsed(st, 0, scripts, snaps, size, k);
      } else {
        PumpsSkipWaiting(st, 0, scripts, snaps, size, k);
      }
    case RescanOp(found) =>
      PlanKeepsGood(found);
      ClaimsInOrder(st.sources, Planned(found), k);
  }

  /** `a` is the start of the run or the state after a shutdown, and there is none from `a` to `n`. */
  ghost predicate SinceStart(ops: seq<Op>, a: nat, n: nat) {
    && a <= n <= |ops| && (a == 0 || ops[a - 1].ShutdownOp?)
    && forall m :: a <= m < n ==> !ops[m].ShutdownOp?
  }

  /** Slot `k` had no device in any state from `a` to `n`. */
  ghost predicate NeverHeld(trace: seq<Input>, a: nat, n: nat, k: nat)
    requires n < |trace|
  {
    forall m :: a <= m <= n ==> k < |trace[m].sources| && trace[m].sources[k].fd < 0
  }

  lemma FreshAt(trace: seq<Input>, ops: seq<Op>, size: nat, a: nat)
    requires IsRun(trace, ops, size) && a < |trace| && (a == 0 || ops[a - 1].ShutdownOp?)
    ensures trace[a] == EmptyInput()
  {
    if a > 0 { assert StepAt(trace, ops, size, a - 1); }
  }

  /** A slot's generation is 0 if and only if the slot has held no device since the last start. */
  lemma {:induction false} GenerationZeroExactlyWhen(trace: seq<Input>, ops: seq<Op>, size: nat, a: nat, n: nat, k: nat)
    requires IsRun(trace, ops, size) && SinceStart(ops, a, n) && k < SLOTS
    ensures |trace[n].sources| == SLOTS
    ensures trace[n].sources[k].generation == 0 <==> NeverHeld(trace, a, n, k)
    decreases n
  {
    RunKeepsShape(trace, ops, size, n);
    if a == n {
      FreshAt(trace, ops, size, a);
    } else {
      GenerationZeroExactlyWhen(trace, ops, size, a, n - 1, k);
      GenerationIsOne(trace, ops, size, n - 1);
      assert StepAt(trace, ops, size, n - 1);
      UseIsRemembered(trace[n - 1], ops[n - 1], size, k);
    }
  }

  /** A connect raises the slot's generation if and only if the slot has held no device since the
      last start: every reconnect lowers it from 2 to 1. */
  lemma ConnectBumpsExactlyWhen(trace: seq<Input>, ops: seq<Op>, size: nat, a: nat, n: nat, k: nat)
    requires IsRun(trace, ops, size) && SinceStart(ops, a, n) && n < |ops| && ops[n].RescanOp? && k < SLOTS
    requires |trace[n].sources| == SLOTS && Takes(trace[n].sources, |Planned(ops[n].found)|, k)
    ensures |trace[n + 1].sources| == SLOTS && trace[n + 1].sources[k].fd >= 0
    ensures trace[n + 1].sources[k].generation > trace[n].sources[k].generation <==> NeverHeld(trace, a, n, k)
  {
    GenerationZeroExactlyWhen(trace, ops, size, a, n, k);
    assert StepAt(trace, ops, size, n);
    PlanKeepsGood(ops[n].found);
    ConnectGeneration(trace[n].sources, Planned(ops[n].found), k);
  }

  // ----- one life of a slot

  lemma DisconnectedGeneration(s: Source)
    requires s.generation == 1
    ensures Disconnected(s).generation == 2
  {
  }

  lemma DisconnectGeneration(st: Input, i: nat, answers: seq<Answer>, snaps: Snapshots, size: nat)
    requires InputShape(st) && i < SLOTS && st.sources[i].generation == 1
    requires GoodSnapshots(snaps) && EventSize(size) && Gone(answers)
    ensures Pumped(st, i, answers, snaps, size).sources[i].generation == 2
  {
    FeedingKeepsDevice(FeedOf(st, i), Events(st.left[i] + Delivered(answers), size), snaps);
    DisconnectedGeneration(ConsumeAll(FeedOf(st, i), Events(st.left[i] + Delivered(answers), size), snaps).source);
  }

  /** One life of a slot: connected with 1, gone with 2, reconnected with 1. */
  lemma {:induction false} ReconnectRepeats(st: Input, i: nat, answers: seq<Answer>, snaps: Snapshots, size: nat,
                                            gone: seq<Source>, planned: seq<Candidate>)
    requires InputShape(st) && GenerationsOk(st.sources) && i < SLOTS && st.sources[i].fd >= 0
    requires GoodSnapshots(snaps) && EventSize(size) && Gone(answers) && GoodCandidates(planned)
    requires gone == Pumped(st, i, answers, snaps, size).sources && Takes(gone, |planned|, i)
    ensures st.sources[i].generation == 1 && gone[i].generation == 2
    ensures ClaimAll(gone, planned)[i].fd >= 0 && ClaimAll(gone, planned)[i].generation == 1
  {
    assert GenerationOk(st.sources[i]);
    DisconnectGeneration(st, i, answers, snaps, size);
    ConnectGeneration(gone, planned, i);
  }

  // ----- waiting

  /** A script of one event and nothing more. */
  function OneEventScript(stamp: seq<Byte>, e: Event): (answers: seq<Answer>)
    requires e.kind < 65536 && e.code < 65536
  {
    [Bytes(Encode(stamp, e)), WouldBlock]
  }

  lemma OneEventDelivered(stamp: seq<Byte>, e: Event, size: nat)
    requires e.kind < 65536 && e.code < 65536 && EventSize(size) && |stamp| == size - 8
    ensures Delivered(OneEventScript(stamp, e)) == Encode(stamp, e) && !Gone(OneEventScript(stamp, e))
    ensures Events(Encode(stamp, e), size) == [e]
  {
    var bytes, answers := Encode(stamp, e), OneEventScript(stamp, e);
    assert answers[1..] == [WouldBlock];
    assert bytes + [] == bytes;
    assert |bytes| == size && bytes[..size] == bytes && bytes[size..] == [];
    DecodeEncode(stamp, e);
  }

  lemma DroppedIsDropping(e: Event)
    requires IsDropped(e)
    ensures Dropping([e], 1)
  {
    assert IsDropped([e][0]);
  }

  /** SYN_DROPPED and then nothing to read: the source is left waiting. */
  lemma DroppedThenQuiet(st: Input, i: nat, stamp: seq<Byte>, snaps: Snapshots, size: nat)
    requires InputShape(st) && i < SLOTS && GoodSnapshots(snaps) && EventSize(size) && |stamp| == size - 8
    requires st.sources[i].link == Connected && st.left[i] == []
    ensures Pumped(st, i, OneEventScript(stamp, Event(EV_SYN, SYN_DROPPED, 0)), snaps, size).sources[i].link == Desync
  {
    var dropped := Event(EV_SYN, SYN_DROPPED, 0);
    OneEventDelivered(stamp, dropped, size);
    assert [] + Encode(stamp, dropped) == Encode(stamp, dropped);
    LeftWaitingExactlyWhen(st, i, OneEventScript(stamp, dropped), snaps, size);
    DroppedIsDropping(dropped);
  }

  lemma WaitingStep(st: Input, op: Op, size: nat, i: nat)
    requires InputShape(st) && GoodOp(op) && EventSize(size) && i < SLOTS && !op.ShutdownOp?
    requires st.sources[i].link == Desync && st.sources[i].fd >= 0
    ensures Applied(st, op, size).sources[i] == st.sources[i]
  {
    match op
    case PollOp(scripts, snaps) => PumpsSkipWaiting(st, 0, scripts, snaps, size, i);
    case RescanOp(found) =>
      PlanKeepsGood(found);
      ClaimsInOrder(st.sources, Planned(found), i);
  }

  /** Once left waiting, a source is unchanged by every poll and every rescan: only a shutdown ends
      the wait. */
  lemma {:induction false} WaitingLastsUntilShutdown(trace: seq<Input>, ops: seq<Op>, size: nat, a: nat, n: nat, i: nat)
    requires IsRun(trace, ops, size) && a <= n < |trace| && i < SLOTS && InputShape(trace[a])
    requires trace[a].sources[i].link == Desync && trace[a].sources[i].fd >= 0
    requires forall k :: a <= k < n ==> !ops[k].ShutdownOp?
    ensures InputShape(trace[n]) && trace[n].sources[i] == trace[a].sources[i]
    decreases n
  {
    RunKeepsShape(trace, ops, size, n);
    if a < n {
      WaitingLastsUntilShutdown(trace, ops, size, a, n - 1, i);
      assert StepAt(trace, ops, size, n - 1);
      WaitingStep(trace[n - 1], ops[n - 1], size, i);
    }
  }

  // ----- laws about slots

  ghost predicate InOrder(law: Law, sources: seq<Source>, seats: seq<Candidate>) {
    Seated(sources, seats) && Upheld(law, sources, seats)
  }

  lemma ReplaceKeepsLaw(law: Law, sources: seq<Source>, i: nat, s: Source, seats: seq<Candidate>)
    requires InOrder(law, sources, seats) && i < SLOTS && DeviceKept(sources[i], s)
    ensures InOrder(law, sources[i := s], seats)
  {
    LosingKeepsLaw(law, sources, sources[i := s], seats);
  }

  lemma MaybePumpKeepsLaw(law: Law, st: Input, i: nat, scripts: seq<seq<Answer>>, snaps: seq<Snapshots>, size: nat,
                          seats: seq<Candidate>)
    requires InputShape(st) && i < SLOTS && GoodPoll(scripts, snaps) && EventSize(size)
    requires InOrder(law, st.sources, seats)
    ensures InOrder(law, MaybePumped(st, i, scripts, snaps, size).sources, seats)
  {
    if !Skipped(st.sources[i]) {
      PumpKeepsDevice(st, i, scripts[i], snaps[i], size);
      ReplaceKeepsLaw(law, st.sources, i, Pumped(st, i, scripts[i], snaps[i], size).sources[i], seats);
    }
  }

  lemma {:induction false} PumpsKeepLaw(law: Law, st: Input, i: nat, scripts: seq<seq<Answer>>, snaps: seq<Snapshots>,
                                        size: nat, seats: seq<Candidate>)
    requires InputShape(st) && i <= SLOTS && GoodPoll(scripts, snaps) && EventSize(size)
    requires InOrder(law, st.sources, seats)
    ensures InOrder(law, PumpsFrom(st, i, scripts, snaps, size).sources, seats)
    decreases SLOTS - i
  {
    if i < SLOTS {
      MaybePumpKeepsLaw(law, st, i, scripts, snaps, size, seats);
      PumpsKeepLaw(law, MaybePumped(st, i, scripts, snaps, size), i + 1, scripts, snaps, size, seats);
    }
  }

  /** The candidates of the slots after a step. */
  ghost function NextSeats(st: Input, seats: seq<Candidate>, op: Op): (next: seq<Candidate>)
    requires |st.sources| == |seats| == SLOTS
    ensures |next| == SLOTS
  {
    if op.RescanOp? then Reseated(st.sources, seats, Planned(op.found)) else seats
  }

  ghost predicate SeatStep(trace: seq<Input>, seats: seq<seq<Candidate>>, ops: seq<Op>, k: nat)
    requires |trace| == |seats| == |ops| + 1 && k < |ops|
  {
    |trace[k].sources| == |seats[k]| == SLOTS && seats[k + 1] == NextSeats(trace[k], seats[k], ops[k])
  }

  /** `seats[k]` are the candidates of the slots in `trace[k]`. */
  ghost predicate SeatRun(trace: seq<Input>, seats: seq<seq<Candidate>>, ops: seq<Op>)
    requires |trace| == |ops| + 1
  {
    && |seats| == |trace| && |seats[0]| == SLOTS
    && forall k :: 0 <= k < |ops| ==> SeatStep(trace, seats, ops, k)
  }

  /** Every run has its seats. */
  lemma {:induction false} SeatsExist(trace: seq<Input>, ops: seq<Op>, size: nat, first: seq<Candidate>)
    returns (seats: seq<seq<Candidate>>)
    requires IsRun(trace, ops, size) && |first| == SLOTS
    ensures SeatRun(trace, seats, ops) && seats[0] == first && forall k :: 0 <= k < |seats| ==> |seats[k]| == SLOTS
    decreases |ops|
  {
    if ops == [] {
      seats := [first];
    } else {
      var n := |ops| - 1;
      var front, earlier := trace[..n + 1], ops[..n];
      forall k | 0 <= k < n ensures StepAt(front, earlier, size, k) {
        assert StepAt(trace, ops, size, k);
      }
      var before := SeatsExist(front, earlier, size, first);
      RunKeepsShape(trace, ops, size, n);
      seats := before + [NextSeats(trace[n], before[n], ops[n])];
      forall k | 0 <= k < |ops| ensures SeatStep(trace, seats, ops, k) {
        if k < n {
          assert SeatStep(front, before, earlier, k);
        }
      }
    }
  }

  /** Step `k`, if it is a rescan, brings only candidates that keep the law with the devices there. */
  ghost predicate FitsAt(law: Law, trace: seq<Input>, seats: seq<seq<Candidate>>, ops: seq<Op>, k: nat)
    requires |trace| == |seats| == |ops| + 1 && k < |ops|
  {
    ops[k].RescanOp? && |trace[k].sources| == |seats[k]| ==>
      && (law.OneSlotPerNode? ==> Uniform(law, ops[k].found))
      && Mergeable(law, trace[k].sources, seats[k], Planned(ops[k].found))
  }

  lemma RescanKeepsLaw(law: Law, sources: seq<Source>, seats: seq<Candidate>, found: seq<Candidate>)
    requires GoodCandidates(found) && InOrder(law, sources, seats) && Mergeable(law, sources, seats, Planned(found))
    requires law.OneSlotPerNode? ==> Uniform(law, found)
    ensures InOrder(law, ClaimAll(sources, Planned(found)), Reseated(sources, seats, Planned(found)))
  {
    PlanKeepsGood(found);
    PlanIsUniform(law, found);
    ClaimKeepsSeats(sources, seats, Planned(found));
    UpheldExactlyWhen(law, sources, seats, Planned(found));
  }

  lemma LawStep(law: Law, trace: seq<Input>, ops: seq<Op>, size: nat, seats: seq<seq<Candidate>>, k: nat)
    requires |trace| == |seats| == |ops| + 1 && k < |ops| && StepAt(trace, ops, size, k)
    requires SeatStep(trace, seats, ops, k)
    requires InOrder(law, trace[k].sources, seats[k]) && FitsAt(law, trace, seats, ops, k)
    ensures InOrder(law, trace[k + 1].sources, seats[k + 1])
  {
    match ops[k]
    case PollOp(scripts, snaps) => PumpsKeepLaw(law, trace[k], 0, scripts, snaps, size, seats[k]);
    case RescanOp(found) => RescanKeepsLaw(law, trace[k].sources, seats[k], found);
    case ShutdownOp =>
  }

  /** After any run from an empty engine whose rescans fit, with any events, desynchronisations,
      disconnects and shutdowns between, a law about slots holds. */
  lemma {:induction false} LawAlongRun(law: Law, trace: seq<Input>, ops: seq<Op>, size: nat,
                                       seats: seq<seq<Candidate>>, n: nat)
    requires IsRun(trace, ops, size) && SeatRun(trace, seats, ops) && n < |trace|
    requires forall k :: 0 <= k < n ==> FitsAt(law, trace, seats, ops, k)
    ensures InOrder(law, trace[n].sources, seats[n])
  {
    if n > 0 {
      LawAlongRun(law, trace, ops, size, seats, n - 1);
      assert StepAt(trace, ops, size, n - 1) && SeatStep(trace, seats, ops, n - 1);
      assert FitsAt(law, trace, seats, ops, n - 1);
      LawStep(law, trace, ops, size, seats, n - 1);
    }
  }

  /** So the owner of each axis in the frame is the best device that can read it, or for rank order
      one that no other has a higher rank than. */
  lemma OwnerStaysBestRanked(law: Law, trace: seq<Input>, ops: seq<Op>, size: nat, seats: seq<seq<Candidate>>, n: nat,
                             f: Frame, slot: nat, j: nat)
    requires IsRun(trace, ops, size) && SeatRun(trace, seats, ops) && n < |trace| && !law.OneSlotPerNode?
    requires forall k :: 0 <= k < n ==> FitsAt(law, trace, seats, ops, k)
    requires Shapes(trace[n].sources) && Merged(trace[n].sources, SLOTS, f)
    requires slot < AXES && f.present[slot] && j < SLOTS && Reads(trace[n].sources, j, slot)
    ensures |seats[n]| == SLOTS && f.owner[slot] < SLOTS && !Breaks(law, seats[n][j], seats[n][f.owner[slot]])
  {
    LawAlongRun(law, trace, ops, size, seats, n);
    OwnerIsBestRanked(law, trace[n].sources, seats[n], f, slot, j);
  }

  // ----- runs that rescan only when nothing is connected

  /** Init always fits, whatever it finds: there is no device yet to disagree with. */
  lemma InitFits(law: Law, sources: seq<Source>, seats: seq<Candidate>, planned: seq<Candidate>)
    requires |sources| == |seats| && forall k :: 0 <= k < |sources| ==> sources[k].fd < 0
    ensures Mergeable(law, sources, seats, planned)
  {
  }

  ghost predicate NothingConnected(sources: seq<Source>) {
    forall i :: 0 <= i < |sources| ==> sources[i].fd < 0
  }

  /** Rescans happen only while no slot is occupied, and a scan lists each node once. */
  ghost predicate RescansWhenEmpty(trace: seq<Input>, ops: seq<Op>)
    requires |trace| == |ops| + 1
  {
    forall k :: 0 <= k < |ops| && ops[k].RescanOp? ==>
      NothingConnected(trace[k].sources) && Uniform(OneSlotPerNode, ops[k].found)
  }

  /** In every run that rescans only while nothing is connected, every law holds in every state: each
      axis is owned by the best-ranked device that can read it, and no node has two slots. */
  lemma EmptyRescansKeepLaws(law: Law, trace: seq<Input>, ops: seq<Op>, size: nat, seats: seq<seq<Candidate>>, n: nat)
    requires IsRun(trace, ops, size) && SeatRun(trace, seats, ops) && n < |trace| && RescansWhenEmpty(trace, ops)
    ensures InOrder(law, trace[n].sources, seats[n])
  {
    forall k | 0 <= k < n ensures FitsAt(law, trace, seats, ops, k) {
      if ops[k].RescanOp? && |trace[k].sources| == |seats[k]| {
        assert NothingConnected(trace[k].sources);
        InitFits(law, trace[k].sources, seats[k], Planned(ops[k].found));
      }
    }
    LawAlongRun(law, trace, ops, size, seats, n);
  }

  /** The owner in such a run. */
  lemma OwnerIsBestAfterInit(trace: seq<Input>, ops: seq<Op>, size: nat, seats: seq<seq<Candidate>>, n: nat,
                             f: Frame, slot: nat, j: nat)
    requires IsRun(trace, ops, size) && SeatRun(trace, seats, ops) && n < |trace| && RescansWhenEmpty(trace, ops)
    requires Shapes(trace[n].sources) && Merged(trace[n].sources, SLOTS, f)
    requires slot < AXES && f.present[slot] && j < SLOTS && Reads(trace[n].sources, j, slot)
    ensures |seats[n]| == SLOTS && f.owner[slot] < SLOTS && !Ahead(seats[n][j], seats[n][f.owner[slot]])
  {
    EmptyRescansKeepLaws(PlanOrder, trace, ops, size, seats, n);
    OwnerIsBestRanked(PlanOrder, trace[n].sources, seats[n], f, slot, j);
  }
}
