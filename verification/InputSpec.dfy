/** What pumping and polling do to the input state, independent of how reads are cut. */
module InputSpec {
  import opened AxisNormalize
  import opened Bytes
  import opened InputEvents
  import opened DesyncReplay
  import opened Discovery
  import opened InputFrame

  const BUFFER: nat := 256

  /** What read() answers: bytes, EINTR, EAGAIN, 0, or another error. A read takes as many of the
      offered bytes as fit and leaves the rest for the next one. */
  datatype Answer = Bytes(data: seq<Byte>) | Interrupted | WouldBlock | EndOfFile | Failed

  predicate GoodScript(answers: seq<Answer>) {
    forall i :: 0 <= i < |answers| && answers[i].Bytes? ==> answers[i].data != []
  }

  predicate Ending(a: Answer) { a.WouldBlock? || a.EndOfFile? || a.Failed? }

  /** All bytes read before the answer that ends the pump; an exhausted script would block. */
  function Delivered(answers: seq<Answer>): seq<Byte> {
    if answers == [] || Ending(answers[0]) then []
    else (if answers[0].Bytes? then answers[0].data else []) + Delivered(answers[1..])
  }

  /** The pump ends because the device is gone. */
  predicate Gone(answers: seq<Answer>) {
    answers != [] &&
    if Ending(answers[0]) then !answers[0].WouldBlock? else Gone(answers[1..])
  }

  function EmptySource(): Source {
    Source(-1, Absent, 0, {}, seq(AXES, _ => Range(0, 0, 0)), seq(AXES, _ => false), seq(AXES, _ => 0))
  }

  function EmptyInput(): Input {
    Input([EmptySource(), EmptySource(), EmptySource(), EmptySource()], [], [[], [], [], []])
  }

  function Disconnected(s: Source): Source {
    s.(fd := -1, link := Absent, generation := (s.generation + 1) % U32, held := {},
       lastRaw := seq(AXES, _ => 0))
  }

  /** The sources, the action queue and the partial event kept for each source. */
  datatype Input = Input(sources: seq<Source>, pending: seq<nat>, left: seq<seq<Byte>>)

  ghost predicate InputShape(st: Input) {
    Shapes(st.sources) && |st.left| == SLOTS && |st.pending| <= PENDING_MAX
  }

  ghost function FeedOf(st: Input, i: nat): Feed
    requires |st.sources| == SLOTS && i < SLOTS
  {
    Feed(st.sources[i], st.pending, 0)
  }

  /** The state after a pump that consumed everything and kept `rest`. */
  function Settled(st: Input, i: nat, s: Source, pending: seq<nat>, rest: seq<Byte>, gone: bool): Input
    requires |st.sources| == |st.left| == SLOTS && i < SLOTS
  {
    Input(st.sources[i := if gone then Disconnected(s) else s], pending,
          st.left[i := if gone then [] else rest])
  }

  /** One pump of source `i`: every whole event of the leftover followed by the bytes read is
      consumed in order; a partial event stays, unless the device is gone. */
  ghost function Pumped(st: Input, i: nat, answers: seq<Answer>, snaps: Snapshots, size: nat): (next: Input)
    requires InputShape(st) && i < SLOTS && GoodSnapshots(snaps) && EventSize(size)
    ensures InputShape(next)
  {
    var bytes := st.left[i] + Delivered(answers);
    var fed := ConsumeAll(FeedOf(st, i), Events(bytes, size), snaps);
    Settled(st, i, fed.source, fed.pending, Remainder(bytes, size), Gone(answers))
  }

  /** Poll skips empty slots and sources still waiting for a report. */
  predicate Skipped(s: Source) { s.fd < 0 || s.link == Desync }

  ghost predicate GoodPoll(scripts: seq<seq<Answer>>, snaps: seq<Snapshots>) {
    && |scripts| == |snaps| == SLOTS
    && (forall i :: 0 <= i < SLOTS ==> GoodScript(scripts[i]) && GoodSnapshots(snaps[i]))
  }

  ghost function MaybePumped(st: Input, i: nat, scripts: seq<seq<Answer>>, snaps: seq<Snapshots>,
                             size: nat): (next: Input)
    requires InputShape(st) && i < SLOTS && GoodPoll(scripts, snaps) && EventSize(size)
    ensures InputShape(next)
  {
    if Skipped(st.sources[i]) then st else Pumped(st, i, scripts[i], snaps[i], size)
  }

  /** The pumps of one poll, from slot `i` on. */
  ghost function PumpsFrom(st: Input, i: nat, scripts: seq<seq<Answer>>, snaps: seq<Snapshots>,
                           size: nat): (next: Input)
    requires InputShape(st) && i <= SLOTS && GoodPoll(scripts, snaps) && EventSize(size)
    ensures InputShape(next)
    decreases SLOTS - i
  {
    if i == SLOTS then st else PumpsFrom(MaybePumped(st, i, scripts, snaps, size), i + 1, scripts, snaps, size)
  }

  function Popped(st: Input): Input {
    if st.pending == [] then st else st.(pending := st.pending[1..])
  }

  ghost function AllPumped(st: Input, scripts: seq<seq<Answer>>, snaps: seq<Snapshots>, size: nat): (next: Input)
    requires InputShape(st) && GoodPoll(scripts, snaps) && EventSize(size)
    ensures InputShape(next)
  {
    PumpsFrom(st, 0, scripts, snaps, size)
  }

  /** A poll hands out the oldest queued action. */
  ghost function Polled(st: Input, scripts: seq<seq<Answer>>, snaps: seq<Snapshots>, size: nat): (next: Input)
    requires InputShape(st) && GoodPoll(scripts, snaps) && EventSize(size)
    ensures InputShape(next)
  {
    Popped(AllPumped(st, scripts, snaps, size))
  }

  /** The oldest action, or NONE. */
  function Oldest(pending: seq<nat>): nat {
    if pending == [] then 0 else pending[0]
  }

  /** What feeding `bytes` will come to: the final feed and the partial event kept. */
  ghost function Todo(f: Feed, bytes: seq<Byte>, snaps: Snapshots, size: nat): (Feed, seq<Byte>)
    requires SourceShape(f.source) && GoodSnapshots(snaps) && EventSize(size)
  {
    (ConsumeAll(f, Events(bytes, size), snaps), Remainder(bytes, size))
  }

  lemma TodoStep(f: Feed, left: seq<Byte>, more: seq<Byte>, snaps: Snapshots, size: nat)
    requires SourceShape(f.source) && GoodSnapshots(snaps) && EventSize(size) && size <= |left|
    ensures SourceShape(Consume(f, Decode(left[..size]), snaps).source)
    ensures Todo(f, left + more, snaps, size) ==
            Todo(Consume(f, Decode(left[..size]), snaps), left[size..] + more, snaps, size)
  {
    var bytes := left + more;
    assert bytes[..size] == left[..size] && bytes[size..] == left[size..] + more;
  }

  /** With less than an event in hand and nothing more to come, the pump has done its work. */
  lemma PumpIsDone(st: Input, i: nat, answers: seq<Answer>, snaps: Snapshots, size: nat, f: Feed, left: seq<Byte>)
    requires InputShape(st) && i < SLOTS && GoodSnapshots(snaps) && EventSize(size)
    requires SourceShape(f.source) && |left| < size
    requires Todo(f, left, snaps, size) == Todo(FeedOf(st, i), st.left[i] + Delivered(answers), snaps, size)
    ensures Pumped(st, i, answers, snaps, size) == Settled(st, i, f.source, f.pending, left, Gone(answers))
  {
    assert Events(left, size) == [] && Remainder(left, size) == left;
  }

  // ----- chunking

  /** Any interleaving of nonempty chunks and interrupts delivers the chunks' concatenation. */
  function Joined(chunks: seq<Answer>): seq<Byte> {
    if chunks == [] then [] else (if chunks[0].Bytes? then chunks[0].data else []) + Joined(chunks[1..])
  }

  lemma {:induction false} ScriptDelivers(chunks: seq<Answer>, end: Answer, rest: seq<Answer>)
    requires forall i :: 0 <= i < |chunks| ==> !Ending(chunks[i])
    requires Ending(end)
    ensures Delivered(chunks + [end] + rest) == Joined(chunks)
    ensures Gone(chunks + [end] + rest) <==> !end.WouldBlock?
  {
    var script := chunks + [end] + rest;
    if chunks != [] {
      ScriptDelivers(chunks[1..], end, rest);
      assert script[1..] == chunks[1..] + [end] + rest;
    }
  }

  /** However a byte stream is cut into reads, wherever interrupts fall, and whatever would be read
      after the answer that ends it, the pump does the same. */
  lemma ChunkingDoesNotMatter(st: Input, i: nat, chunks: seq<Answer>, other: seq<Answer>, end: Answer,
                              rest: seq<Answer>, otherRest: seq<Answer>, snaps: Snapshots, size: nat)
    requires InputShape(st) && i < SLOTS && GoodSnapshots(snaps) && EventSize(size) && Ending(end)
    requires forall k :: 0 <= k < |chunks| ==> !Ending(chunks[k])
    requires forall k :: 0 <= k < |other| ==> !Ending(other[k])
    requires Joined(chunks) == Joined(other)
    ensures Pumped(st, i, chunks + [end] + rest, snaps, size) == Pumped(st, i, other + [end] + otherRest, snaps, size)
  {
    ScriptDelivers(chunks, end, rest);
    ScriptDelivers(other, end, otherRest);
  }

  lemma {:induction false} EventsSplit(bytes: seq<Byte>, more: seq<Byte>, size: nat)
    requires EventSize(size)
    ensures Events(bytes + more, size) == Events(bytes, size) + Events(Remainder(bytes, size) + more, size)
    ensures Remainder(bytes + more, size) == Remainder(Remainder(bytes, size) + more, size)
    decreases |bytes|
  {
    if |bytes| >= size {
      assert (bytes + more)[..size] == bytes[..size];
      assert (bytes + more)[size..] == bytes[size..] + more;
      EventsSplit(bytes[size..], more, size);
    }
  }

  lemma {:induction false} ConsumeAppend(f: Feed, a: seq<Event>, b: seq<Event>, snaps: Snapshots)
    requires SourceShape(f.source) && GoodSnapshots(snaps)
    ensures ConsumeAll(f, a + b, snaps) == ConsumeAll(ConsumeAll(f, a, snaps), b, snaps)
    decreases |a|
  {
    if a == [] {
      assert a + b == b;
    } else {
      assert (a + b)[1..] == a[1..] + b && (a + b)[0] == a[0];
      ConsumeAppend(Consume(f, a[0], snaps), a[1..], b, snaps);
    }
  }

  /** The snapshots still to come after `taken` of them. */
  function Later(snaps: Snapshots, taken: nat): Snapshots {
    (n: nat) => snaps(n + taken)
  }

  function Offset(f: Feed, taken: nat): Feed { f.(resyncs := f.resyncs + taken) }

  lemma OneLater(f: Feed, e: Event, snaps: Snapshots, taken: nat)
    requires SourceShape(f.source) && GoodSnapshots(snaps) && GoodSnapshots(Later(snaps, taken))
    ensures Consume(Offset(f, taken), e, snaps) == Offset(Consume(f, e, Later(snaps, taken)), taken)
  {
    assert Later(snaps, taken)(f.resyncs) == snaps(f.resyncs + taken);
  }

  lemma LaterIsGood(snaps: Snapshots, taken: nat)
    requires GoodSnapshots(snaps)
    ensures GoodSnapshots(Later(snaps, taken))
  {
  }

  lemma {:induction false} ConsumeLater(f: Feed, events: seq<Event>, snaps: Snapshots, taken: nat)
    requires SourceShape(f.source) && GoodSnapshots(snaps) && GoodSnapshots(Later(snaps, taken))
    ensures ConsumeAll(Offset(f, taken), events, snaps) == Offset(ConsumeAll(f, events, Later(snaps, taken)), taken)
    decreases |events|
  {
    if events != [] {
      OneLater(f, events[0], snaps, taken);
      ConsumeLater(Consume(f, events[0], Later(snaps, taken)), events[1..], snaps, taken);
    }
  }

  lemma FeedsCompose(f: Feed, bytes: seq<Byte>, more: seq<Byte>, snaps: Snapshots, size: nat)
    requires SourceShape(f.source) && GoodSnapshots(snaps) && EventSize(size)
    ensures ConsumeAll(f, Events(bytes + more, size), snaps) ==
            ConsumeAll(ConsumeAll(f, Events(bytes, size), snaps), Events(Remainder(bytes, size) + more, size), snaps)
    ensures Remainder(bytes + more, size) == Remainder(Remainder(bytes, size) + more, size)
  {
    EventsSplit(bytes, more, size);
    ConsumeAppend(f, Events(bytes, size), Events(Remainder(bytes, size) + more, size), snaps);
  }

  lemma StreamsCompose(f: Feed, left: seq<Byte>, first: seq<Byte>, second: seq<Byte>, snaps: Snapshots, size: nat)
    requires SourceShape(f.source) && GoodSnapshots(snaps) && EventSize(size)
    ensures var mid := ConsumeAll(f, Events(left + first, size), snaps);
            ConsumeAll(f, Events(left + (first + second), size), snaps) ==
            ConsumeAll(mid, Events(Remainder(left + first, size) + second, size), snaps)
    ensures Remainder(left + (first + second), size) == Remainder(Remainder(left + first, size) + second, size)
  {
    assert left + (first + second) == left + first + second;
    FeedsCompose(f, left + first, second, snaps, size);
  }

  lemma SettledAgain(st: Input, i: nat, fed: Feed, rest: seq<Byte>)
    requires |st.sources| == |st.left| == SLOTS && i < SLOTS
    ensures var once := Settled(st, i, fed.source, fed.pending, rest, false);
            && FeedOf(once, i) == fed.(resyncs := 0) && once.left[i] == rest
            && forall s, pending, left, gone ::
                 Settled(once, i, s, pending, left, gone) == Settled(st, i, s, pending, left, gone)
  {
  }

  /** A stream may even be cut between two pumps: pumping `first` and then `second` equals pumping
      both at once, the second pump taking its snapshots where the first left off. */
  lemma PumpsCompose(st: Input, i: nat, first: seq<Answer>, second: seq<Answer>, both: seq<Answer>,
                     snaps: Snapshots, size: nat)
    requires InputShape(st) && i < SLOTS && GoodSnapshots(snaps) && EventSize(size)
    requires !Gone(first) && Gone(both) == Gone(second)
    requires Delivered(both) == Delivered(first) + Delivered(second)
    ensures var taken := ConsumeAll(FeedOf(st, i), Events(st.left[i] + Delivered(first), size), snaps).resyncs;
            && GoodSnapshots(Later(snaps, taken))
            && Pumped(Pumped(st, i, first, snaps, size), i, second, Later(snaps, taken), size)
               == Pumped(st, i, both, snaps, size)
  {
    var f := FeedOf(st, i);
    var mid := ConsumeAll(f, Events(st.left[i] + Delivered(first), size), snaps);
    var rest := Remainder(st.left[i] + Delivered(first), size);
    SettledAgain(st, i, mid, rest);
    StreamsCompose(f, st.left[i], Delivered(first), Delivered(second), snaps, size);
    LaterIsGood(snaps, mid.resyncs);
    assert Offset(mid.(resyncs := 0), mid.resyncs) == mid;
    ConsumeLater(mid.(resyncs := 0), Events(rest + Delivered(second), size), snaps, mid.resyncs);
  }

  // ----- a source left waiting stays waiting

  /** A connected source leaves a pump desynchronised exactly when the device is still there and
      some SYN_DROPPED among its events has no SYN_REPORT after it. */
  lemma LeftWaitingExactlyWhen(st: Input, i: nat, answers: seq<Answer>, snaps: Snapshots, size: nat)
    requires InputShape(st) && i < SLOTS && GoodSnapshots(snaps) && EventSize(size)
    requires st.sources[i].link == Connected
    ensures var events := Events(st.left[i] + Delivered(answers), size);
            Pumped(st, i, answers, snaps, size).sources[i].link == Desync <==>
            !Gone(answers) && Dropping(events, |events|)
  {
    var events := Events(st.left[i] + Delivered(answers), size);
    ReplayRefinement(FeedOf(st, i), events, snaps);
  }

  lemma {:induction false} PumpsSkipWaiting(st: Input, i: nat, scripts: seq<seq<Answer>>, snaps: seq<Snapshots>,
                                            size: nat, j: nat)
    requires InputShape(st) && i <= SLOTS && GoodPoll(scripts, snaps) && EventSize(size)
    requires j < SLOTS && (Skipped(st.sources[j]) || j < i)
    ensures PumpsFrom(st, i, scripts, snaps, size).sources[j] == st.sources[j]
    ensures PumpsFrom(st, i, scripts, snaps, size).left[j] == st.left[j]
    decreases SLOTS - i
  {
    if i < SLOTS {
      PumpsSkipWaiting(MaybePumped(st, i, scripts, snaps, size), i + 1, scripts, snaps, size, j);
    }
  }

  // ----- what a pump keeps of a device

  /** Feeding events changes a source's link, keys and readings, nothing else. */
  lemma {:induction false} FeedingKeepsDevice(f: Feed, events: seq<Event>, snaps: Snapshots)
    requires SourceShape(f.source) && GoodSnapshots(snaps)
    ensures var s := ConsumeAll(f, events, snaps).source;
            && s.fd == f.source.fd && s.generation == f.source.generation
            && s.axis == f.source.axis && s.axisValid == f.source.axisValid
    decreases |events|
  {
    if events != [] { FeedingKeepsDevice(Consume(f, events[0], snaps), events[1..], snaps); }
  }

  /** `t` is the device of `s` after a pump: the same one, or gone. */
  predicate DeviceKept(s: Source, t: Source) {
    && t.axis == s.axis && t.axisValid == s.axisValid
    && (if t.fd == s.fd && (t.link == Absent <==> s.link == Absent) then t.generation == s.generation
        else t.fd == -1 && t.link == Absent && t.generation == (s.generation + 1) % U32)
  }

  /** A pump leaves every other slot alone and keeps its own device, unless the device is gone. */
  lemma PumpKeepsDevices(st: Input, i: nat, answers: seq<Answer>, snaps: Snapshots, size: nat)
    requires InputShape(st) && i < SLOTS && GoodSnapshots(snaps) && EventSize(size)
    ensures var next := Pumped(st, i, answers, snaps, size).sources;
            && next == st.sources[i := next[i]]
            && next[i].axis == st.sources[i].axis && next[i].axisValid == st.sources[i].axisValid
            && (if Gone(answers)
                then && next[i].fd == -1 && next[i].link == Absent
                     && next[i].generation == (st.sources[i].generation + 1) % U32
                else && next[i].fd == st.sources[i].fd && next[i].generation == st.sources[i].generation
                     && (next[i].link == Absent <==> st.sources[i].link == Absent))
  {
    FeedingKeepsDevice(FeedOf(st, i), Events(st.left[i] + Delivered(answers), size), snaps);
  }

  lemma PumpKeepsDevice(st: Input, i: nat, answers: seq<Answer>, snaps: Snapshots, size: nat)
    requires InputShape(st) && i < SLOTS && GoodSnapshots(snaps) && EventSize(size) && st.sources[i].fd >= 0
    ensures var next := Pumped(st, i, answers, snaps, size).sources;
            next == st.sources[i := next[i]] && DeviceKept(st.sources[i], next[i])
  {
    PumpKeepsDevices(st, i, answers, snaps, size);
  }

  // ----- descriptors

  ghost function Fds(sources: seq<Source>): set<int> {
    set i | 0 <= i < |sources| && sources[i].fd >= 0 :: sources[i].fd
  }

  /** Each open descriptor belongs to one slot, and a slot has one exactly when it is not absent. */
  ghost predicate Owned(sources: seq<Source>) {
    && (forall i :: 0 <= i < |sources| ==> (sources[i].fd >= 0 <==> sources[i].link != Absent))
    && (forall i, j :: 0 <= i < j < |sources| && sources[i].fd >= 0 ==> sources[i].fd != sources[j].fd)
  }

  lemma ReplaceSource(sources: seq<Source>, i: nat, s: Source)
    requires i < |sources| && Owned(sources) && sources[i].fd >= 0
    requires (s.fd >= 0 <==> s.link != Absent) && (s.fd >= 0 ==> s.fd == sources[i].fd)
    ensures Owned(sources[i := s])
    ensures Fds(sources[i := s]) == if s.fd >= 0 then Fds(sources) else Fds(sources) - {sources[i].fd}
  {
    var next := sources[i := s];
    forall fd | fd in Fds(sources) && fd != sources[i].fd ensures fd in Fds(next) {
      var j :| 0 <= j < |sources| && sources[j].fd >= 0 && sources[j].fd == fd;
      assert next[j].fd == fd;
    }
    if s.fd >= 0 {
      assert next[i].fd in Fds(next);
    }
  }

  /** A pump keeps every descriptor where it is, except that a vanished device gives up its own. */
  lemma PumpKeepsOwnership(st: Input, i: nat, answers: seq<Answer>, snaps: Snapshots, size: nat)
    requires InputShape(st) && Owned(st.sources) && i < SLOTS && st.sources[i].fd >= 0
    requires GoodSnapshots(snaps) && EventSize(size)
    ensures var next := Pumped(st, i, answers, snaps, size).sources;
            && Owned(next)
            && Fds(next) == if Gone(answers) then Fds(st.sources) - {st.sources[i].fd} else Fds(st.sources)
  {
    var next := Pumped(st, i, answers, snaps, size).sources;
    ReplaceSource(st.sources, i, next[i]);
  }

  /** Settling keeps descriptors owned; only a vanished device's own is given up. */
  ghost predicate SettlesOwned(st: Input, i: nat, s: Source, pending: seq<nat>, rest: seq<Byte>, gone: bool)
    requires |st.sources| == |st.left| == SLOTS && i < SLOTS
  {
    var end := Settled(st, i, s, pending, rest, gone);
    Owned(end.sources) && Fds(end.sources) == if gone then Fds(st.sources) - {st.sources[i].fd} else Fds(st.sources)
  }

  lemma SettledIsOwned(st: Input, i: nat, s: Source, pending: seq<nat>, rest: seq<Byte>, gone: bool)
    requires InputShape(st) && Owned(st.sources) && i < SLOTS && st.sources[i].fd >= 0
    requires s.fd == st.sources[i].fd && (s.link == Absent <==> st.sources[i].link == Absent)
    ensures SettlesOwned(st, i, s, pending, rest, gone)
  {
    ReplaceSource(st.sources, i, if gone then Disconnected(s) else s);
  }

  /** Claiming gives each fresh descriptor at most one slot and takes none away. */
  lemma ClaimKeepsOwnership(sources: seq<Source>, slot: nat, c: Candidate)
    requires Owned(sources) && slot < |sources| && sources[slot].fd < 0 && c.fd >= 0 && c.fd !in Fds(sources)
    ensures Owned(sources[slot := Connect(c)])
    ensures Fds(sources[slot := Connect(c)]) == Fds(sources) + {c.fd}
  {
    var next := sources[slot := Connect(c)];
    assert next[slot].fd == c.fd;
    forall i | 0 <= i < |sources| && i != slot && sources[i].fd >= 0 ensures sources[i].fd != c.fd {
      assert sources[i].fd in Fds(sources);
    }
    forall fd | fd in Fds(sources) ensures fd in Fds(next) {
      var j :| 0 <= j < |sources| && sources[j].fd >= 0 && sources[j].fd == fd;
      assert next[j].fd == fd;
    }
  }
}
