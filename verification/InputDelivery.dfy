/** What reaches the cart over whole runs: a claimed device is read until it is gone or left waiting,
    and its actions come out of the queue in order, each once. */
module InputDelivery {
  import opened AxisNormalize
  import opened Bytes
  import opened InputEvents
  import opened DesyncReplay
  import opened Discovery
  import opened InputFrame
  import opened InputSpec
  import opened InputRuns

  // ----- a slot without a device is clean

  /** A slot has a device exactly when it is not absent; without one it keeps no partial event. */
  ghost predicate Linked(st: Input)
    requires |st.sources| == |st.left|
  {
    forall k :: 0 <= k < |st.sources| ==>
      && (st.sources[k].fd >= 0 <==> st.sources[k].link != Absent)
      && (st.sources[k].fd < 0 ==> st.left[k] == [])
  }

  /** What is left in a slot whose device is gone: no key, no reading, no bytes, one generation more. */
  lemma GoneLeavesNothing(st: Input, i: nat, answers: seq<Answer>, snaps: Snapshots, size: nat)
    requires InputShape(st) && i < SLOTS && GoodSnapshots(snaps) && EventSize(size) && Gone(answers)
    ensures var next, was := Pumped(st, i, answers, snaps, size), st.sources[i];
            && next.sources[i] == Source(-1, Absent, (was.generation + 1) % U32, {}, was.axis, was.axisValid,
                                         seq(AXES, _ => 0))
            && next.left[i] == []
  {
    FeedingKeepsDevice(FeedOf(st, i), Events(st.left[i] + Delivered(answers), size), snaps);
  }

  lemma PumpTouchesOneSlot(st: Input, i: nat, scripts: seq<seq<Answer>>, snaps: seq<Snapshots>, size: nat, j: nat)
    requires InputShape(st) && i < SLOTS && GoodPoll(scripts, snaps) && EventSize(size) && j < SLOTS && j != i
    ensures MaybePumped(st, i, scripts, snaps, size).sources[j] == st.sources[j]
    ensures MaybePumped(st, i, scripts, snaps, size).left[j] == st.left[j]
  {
  }

  lemma PumpKeepsLinked(st: Input, i: nat, scripts: seq<seq<Answer>>, snaps: seq<Snapshots>, size: nat)
    requires InputShape(st) && i < SLOTS && GoodPoll(scripts, snaps) && EventSize(size) && Linked(st)
    ensures Linked(MaybePumped(st, i, scripts, snaps, size))
  {
    if !Skipped(st.sources[i]) {
      PumpKeepsDevices(st, i, scripts[i], snaps[i], size);
      if Gone(scripts[i]) {
        GoneLeavesNothing(st, i, scripts[i], snaps[i], size);
      }
    }
  }

  lemma {:induction false} PumpsKeepLinked(st: Input, i: nat, scripts: seq<seq<Answer>>, snaps: seq<Snapshots>,
                                           size: nat)
    requires InputShape(st) && i <= SLOTS && GoodPoll(scripts, snaps) && EventSize(size) && Linked(st)
    ensures Linked(PumpsFrom(st, i, scripts, snaps, size))
    decreases SLOTS - i
  {
    if i < SLOTS {
      PumpKeepsLinked(st, i, scripts, snaps, size);
      PumpsKeepLinked(MaybePumped(st, i, scripts, snaps, size), i + 1, scripts, snaps, size);
    }
  }

  lemma ClaimKeepsLinked(st: Input, found: seq<Candidate>)
    requires InputShape(st) && GoodCandidates(found) && Linked(st)
    ensures |ClaimAll(st.sources, Planned(found))| == SLOTS
    ensures Linked(st.(sources := ClaimAll(st.sources, Planned(found))))
  {
    PlanKeepsGood(found);
    ClaimConnects(st.sources, Planned(found));
    forall k | 0 <= k < SLOTS
      ensures var s := ClaimAll(st.sources, Planned(found))[k];
              (s.fd >= 0 <==> s.link != Absent) && (s.fd < 0 ==> st.left[k] == [])
    {
      assert Claimed(st.sources, Planned(found), ClaimAll(st.sources, Planned(found)), k);
    }
  }

  lemma StepKeepsLinked(st: Input, op: Op, size: nat)
    requires InputShape(st) && GoodOp(op) && EventSize(size) && Linked(st)
    ensures Linked(Applied(st, op, size))
  {
    match op
    case PollOp(scripts, snaps) => PumpsKeepLinked(st, 0, scripts, snaps, size);
    case RescanOp(found) => ClaimKeepsLinked(st, found);
    case ShutdownOp =>
  }

  /** In every state of every run a free slot is absent and its buffer is empty, so a device claimed
      there never has another device's bytes before its own. */
  lemma {:induction false} RunIsLinked(trace: seq<Input>, ops: seq<Op>, size: nat, n: nat)
    requires IsRun(trace, ops, size) && n < |trace|
    ensures InputShape(trace[n]) && Linked(trace[n])
  {
    RunKeepsShape(trace, ops, size, n);
    if n > 0 {
      RunIsLinked(trace, ops, size, n - 1);
      assert StepAt(trace, ops, size, n - 1);
      StepKeepsLinked(trace[n - 1], ops[n - 1], size);
    }
  }

  /** In every state of every run the generation total of a frame is just the number of devices in it:
      it cannot tell that a device went and came back. */
  lemma GenerationTotalCounts(trace: seq<Input>, ops: seq<Op>, size: nat, n: nat, f: Frame)
    requires IsRun(trace, ops, size) && n < |trace|
    requires InputShape(trace[n]) && Merged(trace[n].sources, SLOTS, f)
    ensures var s := trace[n].sources; f.generations == Flag(s[0]) + Flag(s[1]) + Flag(s[2]) + Flag(s[3])
  {
    var s := trace[n].sources;
    GenerationIsOne(trace, ops, size, n);
    RunIsLinked(trace, ops, size, n);
    forall k | 0 <= k < SLOTS ensures GenerationPart(s[k]) == Flag(s[k]) {
      assert GenerationOk(s[k]);
    }
    assert s[..SLOTS] == s;
    GenerationsAre(s);
  }

  // ----- one poll, slot by slot

  /** The events a poll reads from slot `i`. */
  ghost function EventsOf(st: Input, i: nat, scripts: seq<seq<Answer>>, size: nat): seq<Event>
    requires InputShape(st) && i < SLOTS && |scripts| == SLOTS && EventSize(size)
  {
    Events(st.left[i] + Delivered(scripts[i]), size)
  }

  /** What the replay predicts of the device in slot `i` after a poll that leaves it there. */
  ghost predicate Replayed(s: Source, events: seq<Event>, snaps: Snapshots, next: Source)
    requires GoodSnapshots(snaps) && SourceShape(s) && SourceShape(next)
  {
    && next == s.(link := next.link, held := next.held, lastRaw := next.lastRaw)
    && next.link == (if Dropping(events, |events|) then Desync else Connected)
    && (forall code :: 0 <= code < 64 ==>
          (code in next.held <==> KeyDown(events, |events|, snaps, 0, code, code in s.held)))
    && (forall slot :: 0 <= slot < AXES ==>
          next.lastRaw[slot] == AxisValue(events, |events|, snaps, 0, slot, s.axisValid[slot], s.lastRaw[slot]))
  }

  lemma PumpReplays(st: Input, i: nat, scripts: seq<seq<Answer>>, snaps: seq<Snapshots>, size: nat)
    requires InputShape(st) && i < SLOTS && GoodPoll(scripts, snaps) && EventSize(size)
    requires st.sources[i].fd >= 0 && st.sources[i].link == Connected && !Gone(scripts[i])
    ensures Replayed(st.sources[i], EventsOf(st, i, scripts, size), snaps[i],
                     MaybePumped(st, i, scripts, snaps, size).sources[i])
  {
    ReplayRefinement(FeedOf(st, i), EventsOf(st, i, scripts, size), snaps[i]);
  }

  lemma {:induction false} PumpsReach(st: Input, i: nat, scripts: seq<seq<Answer>>, snaps: seq<Snapshots>, size: nat,
                                      j: nat)
    requires InputShape(st) && i <= j < SLOTS && GoodPoll(scripts, snaps) && EventSize(size)
    requires st.sources[j].fd >= 0 && st.sources[j].link == Connected
    ensures var next := PumpsFrom(st, i, scripts, snaps, size).sources[j];
            if Gone(scripts[j]) then next.fd < 0 && next.link == Absent
            else Replayed(st.sources[j], EventsOf(st, j, scripts, size), snaps[j], next)
    decreases SLOTS - i
  {
    var mid := MaybePumped(st, i, scripts, snaps, size);
    if i < j {
      PumpTouchesOneSlot(st, i, scripts, snaps, size, j);
      PumpsReach(mid, i + 1, scripts, snaps, size, j);
    } else {
      PumpsSkipWaiting(mid, i + 1, scripts, snaps, size, j);
      if Gone(scripts[j]) {
        GoneLeavesNothing(st, j, scripts[j], snaps[j], size);
      } else {
        PumpReplays(st, j, scripts, snaps, size);
      }
    }
  }

  /** Every poll reads every connected device: unless it is gone, its keys, axes and link afterwards are
      the replay of all its events. */
  lemma PollReplays(trace: seq<Input>, ops: seq<Op>, size: nat, n: nat, i: nat)
    requires IsRun(trace, ops, size) && n < |ops| && ops[n].PollOp? && i < SLOTS
    requires InputShape(trace[n]) && trace[n].sources[i].link == Connected
    ensures InputShape(trace[n + 1]) && GoodPoll(ops[n].scripts, ops[n].snaps)
    ensures var next := trace[n + 1].sources[i];
            if Gone(ops[n].scripts[i]) then next.fd < 0 && next.link == Absent
            else Replayed(trace[n].sources[i], EventsOf(trace[n], i, ops[n].scripts, size), ops[n].snaps[i], next)
  {
    RunIsLinked(trace, ops, size, n);
    RunKeepsShape(trace, ops, size, n + 1);
    assert StepAt(trace, ops, size, n);
    PumpsReach(trace[n], 0, ops[n].scripts, ops[n].snaps, size, i);
  }

  // ----- connected until gone or left waiting

  /** Poll `m` read a connected device in slot `i`, which stayed, and among its events was a
      SYN_DROPPED with no SYN_REPORT after it. */
  ghost predicate LeftWaitingAt(trace: seq<Input>, ops: seq<Op>, size: nat, m: nat, i: nat)
    requires EventSize(size) && |trace| == |ops| + 1 && m < |ops| && i < SLOTS
  {
    && ops[m].PollOp? && InputShape(trace[m]) && |ops[m].scripts| == SLOTS
    && trace[m].sources[i].link == Connected && !Gone(ops[m].scripts[i])
    && var events := EventsOf(trace[m], i, ops[m].scripts, size); Dropping(events, |events|)
  }

  lemma StartsWaiting(trace: seq<Input>, ops: seq<Op>, size: nat, n: nat, i: nat)
    requires IsRun(trace, ops, size) && n < |ops| && i < SLOTS && InputShape(trace[n]) && InputShape(trace[n + 1])
    requires trace[n].sources[i].link != Desync
    ensures trace[n + 1].sources[i].link == Desync <==> LeftWaitingAt(trace, ops, size, n, i)
  {
    assert StepAt(trace, ops, size, n);
    RunIsLinked(trace, ops, size, n);
    match ops[n]
    case PollOp(scripts, snaps) =>
      if trace[n].sources[i].link == Connected {
        PollReplays(trace, ops, size, n, i);
      } else {
        PumpsSkipWaiting(trace[n], 0, scripts, snaps, size, i);
      }
    case RescanOp(found) =>
      PlanKeepsGood(found);
      ClaimConnects(trace[n].sources, Planned(found));
      assert Claimed(trace[n].sources, Planned(found), trace[n + 1].sources, i);
    case ShutdownOp =>
  }

  /** Poll `m` left the source in slot `i` waiting, and no shutdown came between it and step `n`. */
  ghost predicate WaitsSince(trace: seq<Input>, ops: seq<Op>, size: nat, m: nat, n: nat, i: nat)
    requires EventSize(size) && |trace| == |ops| + 1 && n < |trace| && i < SLOTS
  {
    m < n && LeftWaitingAt(trace, ops, size, m, i) && forall k :: m < k < n ==> !ops[k].ShutdownOp?
  }

  lemma WaitsStill(trace: seq<Input>, ops: seq<Op>, size: nat, m: nat, n: nat, i: nat)
    requires IsRun(trace, ops, size) && n < |trace| && i < SLOTS && WaitsSince(trace, ops, size, m, n, i)
    ensures InputShape(trace[n]) && trace[n].sources[i].link == Desync
  {
    RunIsLinked(trace, ops, size, m + 1);
    StartsWaiting(trace, ops, size, m, i);
    WaitingLastsUntilShutdown(trace, ops, size, m + 1, n, i);
  }

  lemma {:induction false} WaitsBecause(trace: seq<Input>, ops: seq<Op>, size: nat, n: nat, i: nat) returns (m: nat)
    requires IsRun(trace, ops, size) && n < |trace| && i < SLOTS && InputShape(trace[n])
    requires trace[n].sources[i].link == Desync
    ensures WaitsSince(trace, ops, size, m, n, i)
  {
    RunIsLinked(trace, ops, size, n - 1);
    if trace[n - 1].sources[i].link == Desync {
      m := WaitsBecause(trace, ops, size, n - 1, i);
      assert StepAt(trace, ops, size, n - 1);
    } else {
      m := n - 1;
      StartsWaiting(trace, ops, size, m, i);
    }
  }

  /** A source is waiting exactly when some poll left it so and no shutdown came since: nothing else,
      not even being claimed, makes it wait. */
  lemma WaitingExactlyWhen(trace: seq<Input>, ops: seq<Op>, size: nat, n: nat, i: nat)
    requires IsRun(trace, ops, size) && n < |trace| && i < SLOTS
    ensures InputShape(trace[n])
    ensures trace[n].sources[i].link == Desync <==> exists m :: WaitsSince(trace, ops, size, m, n, i)
  {
    RunKeepsShape(trace, ops, size, n);
    if trace[n].sources[i].link == Desync {
      var m := WaitsBecause(trace, ops, size, n, i);
    }
    if m :| WaitsSince(trace, ops, size, m, n, i) {
      WaitsStill(trace, ops, size, m, n, i);
    }
  }

  // ----- the queue over one poll

  /** The actions slot `i` offers to the queue. */
  ghost function Offered(st: Input, i: nat, scripts: seq<seq<Answer>>, size: nat): seq<nat>
    requires InputShape(st) && i < SLOTS && |scripts| == SLOTS && EventSize(size)
  {
    if st.sources[i].link != Connected then []
    else Actions(EventsOf(st, i, scripts, size), |EventsOf(st, i, scripts, size)|)
  }

  /** The actions of the slots from `i` on, slot by slot. */
  ghost function OfferedFrom(st: Input, i: nat, scripts: seq<seq<Answer>>, size: nat): seq<nat>
    requires InputShape(st) && i <= SLOTS && |scripts| == SLOTS && EventSize(size)
    decreases SLOTS - i
  {
    if i == SLOTS then [] else Offered(st, i, scripts, size) + OfferedFrom(st, i + 1, scripts, size)
  }

  /** What a queue of eight still takes of the actions offered. */
  function Fitting(pending: seq<nat>, offered: seq<nat>): seq<nat>
    requires |pending| <= PENDING_MAX
  {
    if |pending| + |offered| <= PENDING_MAX then offered else offered[..PENDING_MAX - |pending|]
  }

  lemma FittingFills(pending: seq<nat>, offered: seq<nat>)
    requires |pending| <= PENDING_MAX
    ensures FirstEight(pending + offered) == pending + Fitting(pending, offered)
  {
  }

  lemma FirstEightTwice(a: seq<nat>, b: seq<nat>, c: seq<nat>)
    ensures FirstEight(FirstEight(a + b) + c) == FirstEight(a + (b + c))
  {
    assert a + (b + c) == a + b + c;
  }

  lemma {:induction false} OfferedSame(st: Input, next: Input, i: nat, scripts: seq<seq<Answer>>, size: nat)
    requires InputShape(st) && InputShape(next) && i <= SLOTS && |scripts| == SLOTS && EventSize(size)
    requires forall j :: i <= j < SLOTS ==> next.sources[j] == st.sources[j] && next.left[j] == st.left[j]
    ensures OfferedFrom(next, i, scripts, size) == OfferedFrom(st, i, scripts, size)
    decreases SLOTS - i
  {
    if i < SLOTS { OfferedSame(st, next, i + 1, scripts, size); }
  }

  lemma PumpOffers(st: Input, i: nat, scripts: seq<seq<Answer>>, snaps: seq<Snapshots>, size: nat)
    requires InputShape(st) && i < SLOTS && GoodPoll(scripts, snaps) && EventSize(size) && Linked(st)
    ensures MaybePumped(st, i, scripts, snaps, size).pending == FirstEight(st.pending + Offered(st, i, scripts, size))
  {
    if Skipped(st.sources[i]) {
      assert st.pending + [] == st.pending;
    } else {
      ReplayRefinement(FeedOf(st, i), EventsOf(st, i, scripts, size), snaps[i]);
    }
  }

  lemma {:induction false} PumpsOffer(st: Input, i: nat, scripts: seq<seq<Answer>>, snaps: seq<Snapshots>, size: nat)
    requires InputShape(st) && i <= SLOTS && GoodPoll(scripts, snaps) && EventSize(size) && Linked(st)
    ensures PumpsFrom(st, i, scripts, snaps, size).pending ==
            FirstEight(st.pending + OfferedFrom(st, i, scripts, size))
    decreases SLOTS - i
  {
    if i == SLOTS {
      assert st.pending + [] == st.pending;
    } else {
      var next := MaybePumped(st, i, scripts, snaps, size);
      PumpOffers(st, i, scripts, snaps, size);
      PumpKeepsLinked(st, i, scripts, snaps, size);
      PumpsOffer(next, i + 1, scripts, snaps, size);
      OfferedSame(st, next, i + 1, scripts, size);
      FirstEightTwice(st.pending, Offered(st, i, scripts, size), OfferedFrom(st, i + 1, scripts, size));
    }
  }

  /** The action a poll hands out, 0 for none. */
  ghost function ActionOf(st: Input, scripts: seq<seq<Answer>>, snaps: seq<Snapshots>, size: nat): nat
    requires InputShape(st) && GoodPoll(scripts, snaps) && EventSize(size)
  {
    Oldest(AllPumped(st, scripts, snaps, size).pending)
  }

  /** What a poll puts into the queue: of the actions of all connected devices' events, slot by slot, as
      many as the queue takes. */
  ghost function AcceptedBy(st: Input, scripts: seq<seq<Answer>>, size: nat): seq<nat>
    requires InputShape(st) && |scripts| == SLOTS && EventSize(size)
  {
    Fitting(st.pending, OfferedFrom(st, 0, scripts, size))
  }

  ghost predicate Real(actions: seq<nat>) { forall k :: 0 <= k < |actions| ==> 1 <= actions[k] <= 6 }

  lemma {:induction false} ActionsAreReal(events: seq<Event>, n: nat)
    requires n <= |events|
    ensures Real(Actions(events, n))
  {
    if n > 0 {
      ActionsAreReal(events, n - 1);
      MapKeyBounds(events[n - 1].code);
    }
  }

  lemma {:induction false} OfferedIsReal(st: Input, i: nat, scripts: seq<seq<Answer>>, size: nat)
    requires InputShape(st) && i <= SLOTS && |scripts| == SLOTS && EventSize(size)
    ensures Real(OfferedFrom(st, i, scripts, size))
    decreases SLOTS - i
  {
    if i < SLOTS {
      ActionsAreReal(EventsOf(st, i, scripts, size), |EventsOf(st, i, scripts, size)|);
      OfferedIsReal(st, i + 1, scripts, size);
    }
  }

  /** An action as a list: none for 0. */
  function Single(action: nat): seq<nat> { if action == 0 then [] else [action] }

  /** Popping hands out the front of the queue and leaves the rest. */
  lemma PopTakesOldest(st: Input)
    requires Real(st.pending)
    ensures Single(Oldest(st.pending)) + Popped(st).pending == st.pending
    ensures Oldest(st.pending) == 0 <==> st.pending == []
    ensures Popped(st) == st.(pending := Popped(st).pending) && Real(Popped(st).pending)
  {
  }

  /** A queue `before` takes `accepted` and hands out `action`, which leaves `after`. */
  ghost predicate QueueMoves(before: seq<nat>, accepted: seq<nat>, action: nat, after: seq<nat>) {
    && Single(action) + after == before + accepted && Real(after)
    && (action == 0 <==> before + accepted == [])
  }

  lemma AllPumpsOffer(st: Input, scripts: seq<seq<Answer>>, snaps: seq<Snapshots>, size: nat)
    requires InputShape(st) && GoodPoll(scripts, snaps) && EventSize(size) && Linked(st)
    ensures AllPumped(st, scripts, snaps, size).pending == st.pending + AcceptedBy(st, scripts, size)
  {
    PumpsOffer(st, 0, scripts, snaps, size);
    FittingFills(st.pending, OfferedFrom(st, 0, scripts, size));
  }

  lemma AcceptedIsReal(st: Input, scripts: seq<seq<Answer>>, size: nat)
    requires InputShape(st) && |scripts| == SLOTS && EventSize(size)
    ensures Real(AcceptedBy(st, scripts, size))
  {
    OfferedIsReal(st, 0, scripts, size);
  }

  lemma QueueFills(st: Input, scripts: seq<seq<Answer>>, snaps: seq<Snapshots>, size: nat)
    requires InputShape(st) && GoodPoll(scripts, snaps) && EventSize(size) && Linked(st) && Real(st.pending)
    ensures AllPumped(st, scripts, snaps, size).pending == st.pending + AcceptedBy(st, scripts, size)
    ensures Real(AllPumped(st, scripts, snaps, size).pending)
  {
    AllPumpsOffer(st, scripts, snaps, size);
    AcceptedIsReal(st, scripts, size);
  }

  lemma PollMovesQueue(st: Input, scripts: seq<seq<Answer>>, snaps: seq<Snapshots>, size: nat)
    requires InputShape(st) && GoodPoll(scripts, snaps) && EventSize(size) && Linked(st) && Real(st.pending)
    ensures QueueMoves(st.pending, AcceptedBy(st, scripts, size), ActionOf(st, scripts, snaps, size),
                       Polled(st, scripts, snaps, size).pending)
  {
    QueueFills(st, scripts, snaps, size);
    PopTakesOldest(AllPumped(st, scripts, snaps, size));
  }

  // ----- the queue over whole runs

  /** What step `op` hands out, 0 for nothing, and what it puts into the queue. */
  ghost predicate LogEntry(st: Input, op: Op, size: nat, action: nat, taken: seq<nat>)
    requires InputShape(st) && GoodOp(op) && EventSize(size)
  {
    match op
    case PollOp(scripts, snaps) =>
      action == ActionOf(st, scripts, snaps, size) && taken == AcceptedBy(st, scripts, size)
    case RescanOp(_) => action == 0 && taken == []
    case ShutdownOp => action == 0 && taken == []
  }

  ghost predicate LogAt(trace: seq<Input>, ops: seq<Op>, size: nat, handed: seq<nat>, accepted: seq<seq<nat>>, k: nat)
    requires |trace| == |ops| + 1 == |handed| + 1 == |accepted| + 1 && k < |ops|
  {
    && InputShape(trace[k]) && GoodOp(ops[k]) && EventSize(size)
    && LogEntry(trace[k], ops[k], size, handed[k], accepted[k])
  }

  /** The log of a whole run: what each step hands out and what it puts into the queue. */
  ghost predicate IsLog(trace: seq<Input>, ops: seq<Op>, size: nat, handed: seq<nat>, accepted: seq<seq<nat>>) {
    && |trace| == |ops| + 1 && |handed| == |accepted| == |ops|
    && forall k :: 0 <= k < |ops| ==> LogAt(trace, ops, size, handed, accepted, k)
  }

  lemma LogGrows(trace: seq<Input>, ops: seq<Op>, size: nat, handed: seq<nat>, accepted: seq<seq<nat>>, op: Op,
                 next: Input, action: nat, taken: seq<nat>)
    requires IsLog(trace, ops, size, handed, accepted) && InputShape(trace[|ops|]) && GoodOp(op) && EventSize(size)
    requires LogEntry(trace[|ops|], op, size, action, taken)
    ensures IsLog(trace + [next], ops + [op], size, handed + [action], accepted + [taken])
  {
    forall k | 0 <= k <= |ops|
      ensures LogAt(trace + [next], ops + [op], size, handed + [action], accepted + [taken], k)
    {
      if k < |ops| {
        assert LogAt(trace, ops, size, handed, accepted, k);
      }
    }
  }

  /** The actions among `handed[a..n]`. */
  function HandedOut(handed: seq<nat>, a: nat, n: nat): seq<nat>
    requires a <= n <= |handed|
  {
    if a == n then [] else HandedOut(handed, a, n - 1) + Single(handed[n - 1])
  }

  /** `accepted[a..n]` in one list. */
  function AllAccepted(accepted: seq<seq<nat>>, a: nat, n: nat): seq<nat>
    requires a <= n <= |accepted|
  {
    if a == n then [] else AllAccepted(accepted, a, n - 1) + accepted[n - 1]
  }

  lemma StepMovesQueue(trace: seq<Input>, ops: seq<Op>, size: nat, handed: seq<nat>, accepted: seq<seq<nat>>, k: nat)
    requires |trace| == |ops| + 1 == |handed| + 1 == |accepted| + 1 && k < |ops| && StepAt(trace, ops, size, k)
    requires LogAt(trace, ops, size, handed, accepted, k) && !ops[k].ShutdownOp?
    requires Linked(trace[k]) && Real(trace[k].pending)
    ensures QueueMoves(trace[k].pending, accepted[k], handed[k], trace[k + 1].pending) || !ops[k].PollOp?
    ensures Single(handed[k]) + trace[k + 1].pending == trace[k].pending + accepted[k] && Real(trace[k + 1].pending)
  {
    match ops[k]
    case PollOp(scripts, snaps) => PollMovesQueue(trace[k], scripts, snaps, size);
    case RescanOp(_) =>
    case ShutdownOp =>
  }

  lemma Conserved(out: seq<nat>, all: seq<nat>, before: seq<nat>, accepted: seq<nat>, one: seq<nat>, after: seq<nat>)
    requires out + before == all && one + after == before + accepted
    ensures out + one + after == all + accepted
  {
    assert out + one + after == out + (one + after);
    assert out + (before + accepted) == out + before + accepted;
  }

  /** Since the last start, the actions handed out followed by those still queued are the accepted
      actions, in order, each once. */
  lemma {:induction false} ActionsConserved(trace: seq<Input>, ops: seq<Op>, size: nat, handed: seq<nat>,
                                            accepted: seq<seq<nat>>, a: nat, n: nat)
    requires IsRun(trace, ops, size) && IsLog(trace, ops, size, handed, accepted) && SinceStart(ops, a, n)
    ensures HandedOut(handed, a, n) + trace[n].pending == AllAccepted(accepted, a, n) && Real(trace[n].pending)
    decreases n
  {
    if n == a {
      FreshAt(trace, ops, size, a);
    } else {
      ActionsConserved(trace, ops, size, handed, accepted, a, n - 1);
      RunIsLinked(trace, ops, size, n - 1);
      assert StepAt(trace, ops, size, n - 1) && LogAt(trace, ops, size, handed, accepted, n - 1);
      StepMovesQueue(trace, ops, size, handed, accepted, n - 1);
      Conserved(HandedOut(handed, a, n - 1), AllAccepted(accepted, a, n - 1), trace[n - 1].pending, accepted[n - 1],
                Single(handed[n - 1]), trace[n].pending);
    }
  }

  /** A poll hands out nothing exactly when nothing was queued and it accepted nothing. */
  lemma IdleExactlyWhen(trace: seq<Input>, ops: seq<Op>, size: nat, handed: seq<nat>, accepted: seq<seq<nat>>,
                        a: nat, n: nat)
    requires IsRun(trace, ops, size) && IsLog(trace, ops, size, handed, accepted) && SinceStart(ops, a, n)
    requires n < |ops| && ops[n].PollOp?
    ensures handed[n] == 0 <==> trace[n].pending == [] && accepted[n] == []
  {
    ActionsConserved(trace, ops, size, handed, accepted, a, n);
    RunIsLinked(trace, ops, size, n);
    assert StepAt(trace, ops, size, n) && LogAt(trace, ops, size, handed, accepted, n);
    StepMovesQueue(trace, ops, size, handed, accepted, n);
  }

  // ----- from init to the first action

  lemma AfterInit(trace: seq<Input>, ops: seq<Op>, size: nat, found: seq<Candidate>, i: nat)
    requires IsRun(trace, ops, size) && |ops| > 0 && ops[0] == RescanOp(found) && i < SLOTS
    ensures InputShape(trace[1]) && |Planned(found)| == |found| && trace[1].pending == [] && trace[1].left[i] == []
    ensures if i < |found| then JustClaimed(trace[1].sources[i], Planned(found)[i])
            else trace[1].sources[i].link == Absent
  {
    RunKeepsShape(trace, ops, size, 1);
    assert StepAt(trace, ops, size, 0);
    InitHoldsTheBest(EmptyInput().sources, found, i);
  }

  lemma OfferedAfterInit(trace: seq<Input>, ops: seq<Op>, size: nat, found: seq<Candidate>, scripts: seq<seq<Answer>>,
                         i: nat)
    requires IsRun(trace, ops, size) && |ops| > 0 && ops[0] == RescanOp(found) && i < SLOTS && |scripts| == SLOTS
    ensures InputShape(trace[1])
    ensures Offered(trace[1], i, scripts, size) ==
            if i < |found| then Actions(Events(Delivered(scripts[i]), size), |Events(Delivered(scripts[i]), size)|)
            else []
  {
    AfterInit(trace, ops, size, found, i);
    assert [] + Delivered(scripts[i]) == Delivered(scripts[i]);
  }

  lemma FirstOffer(st: Input, scripts: seq<seq<Answer>>, snaps: seq<Snapshots>, size: nat)
    requires InputShape(st) && GoodPoll(scripts, snaps) && EventSize(size) && Linked(st) && st.pending == []
    ensures ActionOf(st, scripts, snaps, size) == Oldest(OfferedFrom(st, 0, scripts, size))
  {
    QueueFills(st, scripts, snaps, size);
  }

  /** Init and then a poll: each device found, up to four and best first, is read from its first event
      on, and the poll hands out the first action any of them has, in slot order. */
  lemma InitThenPoll(trace: seq<Input>, ops: seq<Op>, size: nat, found: seq<Candidate>, scripts: seq<seq<Answer>>,
                     snaps: seq<Snapshots>)
    requires IsRun(trace, ops, size) && |ops| > 1 && ops[0] == RescanOp(found) && ops[1] == PollOp(scripts, snaps)
    ensures InputShape(trace[1]) && GoodPoll(scripts, snaps)
    ensures forall i :: 0 <= i < SLOTS ==>
              Offered(trace[1], i, scripts, size) ==
              var events := Events(Delivered(scripts[i]), size);
              if i < |found| then Actions(events, |events|) else []
    ensures ActionOf(trace[1], scripts, snaps, size) == Oldest(OfferedFrom(trace[1], 0, scripts, size))
  {
    RunIsLinked(trace, ops, size, 1);
    assert StepAt(trace, ops, size, 1);
    forall i | 0 <= i < SLOTS
      ensures Offered(trace[1], i, scripts, size) ==
              var events := Events(Delivered(scripts[i]), size);
              if i < |found| then Actions(events, |events|) else []
    {
      OfferedAfterInit(trace, ops, size, found, scripts, i);
    }
    AfterInit(trace, ops, size, found, 0);
    FirstOffer(trace[1], scripts, snaps, size);
  }

  lemma OnePress(code: nat)
    requires MapKey(code) != 0
    ensures Actions([Event(EV_KEY, code, 1)], 1) == [MapKey(code)]
  {
    var events := [Event(EV_KEY, code, 1)];
    assert !Dropping(events, 0) && Actions(events, 0) == [];
    assert ToUint16(1) == 1;
  }

  lemma FirstSlotFirst(st: Input, scripts: seq<seq<Answer>>, snaps: seq<Snapshots>, size: nat, action: nat)
    requires InputShape(st) && GoodPoll(scripts, snaps) && EventSize(size) && Linked(st) && st.pending == []
    requires Offered(st, 0, scripts, size) == [action]
    ensures ActionOf(st, scripts, snaps, size) == action
  {
    FirstOffer(st, scripts, snaps, size);
  }

  lemma PressDelivered(stamp: seq<Byte>, code: nat, size: nat)
    requires EventSize(size) && |stamp| == size - 8 && code < 65536 && MapKey(code) != 0
    ensures var events := Events(Delivered(OneEventScript(stamp, Event(EV_KEY, code, 1))), size);
            Actions(events, |events|) == [MapKey(code)]
  {
    OneEventDelivered(stamp, Event(EV_KEY, code, 1), size);
    OnePress(code);
  }

  lemma FirstPressIsOffered(trace: seq<Input>, ops: seq<Op>, size: nat, found: seq<Candidate>,
                            scripts: seq<seq<Answer>>, stamp: seq<Byte>, code: nat)
    requires IsRun(trace, ops, size) && |ops| > 0 && ops[0] == RescanOp(found) && found != [] && |scripts| == SLOTS
    requires |stamp| == size - 8 && code < 65536 && MapKey(code) != 0
    requires scripts[0] == OneEventScript(stamp, Event(EV_KEY, code, 1))
    ensures InputShape(trace[1]) && Offered(trace[1], 0, scripts, size) == [MapKey(code)]
  {
    OfferedAfterInit(trace, ops, size, found, scripts, 0);
    PressDelivered(stamp, code, size);
  }

  /** A press on the first device init finds is the action of the very next poll: for BTN_NORTH it is
      NEXT. */
  lemma FirstPressIsHandedOut(trace: seq<Input>, ops: seq<Op>, size: nat, found: seq<Candidate>,
                              scripts: seq<seq<Answer>>, snaps: seq<Snapshots>, stamp: seq<Byte>, code: nat)
    requires IsRun(trace, ops, size) && |ops| > 1 && ops[0] == RescanOp(found) && ops[1] == PollOp(scripts, snaps)
    requires found != [] && |scripts| == SLOTS && |stamp| == size - 8 && code < 65536 && MapKey(code) != 0
    requires scripts[0] == OneEventScript(stamp, Event(EV_KEY, code, 1))
    ensures InputShape(trace[1]) && GoodPoll(scripts, snaps)
    ensures ActionOf(trace[1], scripts, snaps, size) == MapKey(code)
    ensures code == 307 ==> ActionOf(trace[1], scripts, snaps, size) == 1
  {
    RunIsLinked(trace, ops, size, 1);
    assert StepAt(trace, ops, size, 1);
    AfterInit(trace, ops, size, found, 0);
    FirstPressIsOffered(trace, ops, size, found, scripts, stamp, code);
    FirstSlotFirst(trace[1], scripts, snaps, size, MapKey(code));
  }
}
