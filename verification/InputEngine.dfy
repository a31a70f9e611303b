/** The input engine's objects: the kernel's descriptor table behind the syscall seam, and the
    engine that owns descriptors, partial-event buffers and the action queue. */
module InputEngine {
  import opened AxisNormalize
  import opened Bytes
  import opened InputEvents
  import opened Discovery
  import opened InputFrame
  import opened InputSpec
  import opened InputRuns
  import opened InputDelivery
  import opened SlotOrder

  /** The descriptors open through the seam. `others` belong to the rest of the process. Closing
      requires an open descriptor, so no call below can close one twice. */
  class Kernel {
    var open: set<int>

    const others: set<int>

    constructor (others: set<int>)
      ensures open == {} && this.others == others
    {
      open := {};
      this.others := others;
    }

    /** The lowest descriptor not in use. */
    method Open() returns (fd: int)
      modifies this
      ensures fd >= 0 && fd !in old(open) && fd !in others && open == old(open) + {fd}
    {
      fd := 0;
      ghost var rest := open + others;
      while fd in open || fd in others
        invariant fd >= 0 && forall k :: k in open + others ==> k < fd || k in rest
        decreases |rest|
      {
        assert fd in rest;
        rest := rest - {fd};
        fd := fd + 1;
      }
      open := open + {fd};
    }

    method Close(fd: int)
      requires fd in open
      modifies this
      ensures open == old(open) - {fd}
    {
      open := open - {fd};
    }
  }

  /** One directory entry as discovery finds it: its event number if it is an event node, whether
      it opens, the rank its metadata suggests, and the probe's verdict (0 rejects). */
  datatype Entry = Entry(number: Option<nat>, opens: bool, sysfsRank: nat, probe: nat, prepared: Source)

  ghost predicate GoodEntries(entries: seq<Entry>) {
    forall k :: 0 <= k < |entries| ==> Prepared(entries[k].prepared)
  }

  predicate Admits(e: Entry) { e.number.Some? && e.opens && e.probe > 0 }

  /** The larger of what the metadata and the probe suggest. */
  function Rank(e: Entry): (rank: nat)
    ensures rank >= e.sysfsRank && rank >= e.probe && (rank == e.sysfsRank || rank == e.probe)
  {
    if e.sysfsRank > e.probe then e.sysfsRank else e.probe
  }

  /** The admitted entries, as far as the candidate table reaches. */
  function Admitted(entries: seq<Entry>): seq<Entry> {
    if entries == [] then []
    else
      var before := Admitted(entries[..|entries| - 1]);
      if |before| < CANDIDATE_CAP && Admits(entries[|entries| - 1]) then before + [entries[|entries| - 1]]
      else before
  }

  /** How many entries could be admitted. */
  function Admissible(entries: seq<Entry>): nat {
    if entries == [] then 0
    else Admissible(entries[..|entries| - 1]) + if Admits(entries[|entries| - 1]) then 1 else 0
  }

  lemma {:induction false} AdmittedCount(entries: seq<Entry>)
    ensures |Admitted(entries)| == Fewer(Admissible(entries), CANDIDATE_CAP)
  {
    if entries != [] { AdmittedCount(entries[..|entries| - 1]); }
  }

  /** The first sixteen event nodes that open and pass the probe are admitted, each at its place: none of
      them is dropped, however many follow. */
  lemma {:induction false} FirstAreAdmitted(entries: seq<Entry>, k: nat)
    requires k < |entries| && entries[k].number.Some? && entries[k].opens && entries[k].probe >= 1
    requires Admissible(entries[..k]) < CANDIDATE_CAP
    ensures Admissible(entries[..k]) < |Admitted(entries)| == Fewer(Admissible(entries), CANDIDATE_CAP)
    ensures Admitted(entries)[Admissible(entries[..k])] == entries[k]
    decreases |entries|
  {
    var front := entries[..|entries| - 1];
    AdmittedCount(entries);
    AdmittedCount(front);
    if k < |front| {
      assert front[..k] == entries[..k];
      FirstAreAdmitted(front, k);
    }
  }

  /** The candidates stand for the admitted entries, in directory order. */
  ghost predicate StandsFor(cs: seq<Candidate>, admitted: seq<Entry>) {
    |cs| == |admitted| && forall k :: 0 <= k < |cs| ==>
      cs[k] == Candidate(cs[k].fd, Rank(admitted[k]), if admitted[k].number.Some? then admitted[k].number.value else 0,
                         admitted[k].prepared)
  }

  ghost function CandidateFds(cs: seq<Candidate>): set<int> {
    set k | 0 <= k < |cs| :: cs[k].fd
  }

  ghost predicate Fresh(cs: seq<Candidate>) {
    && (forall k :: 0 <= k < |cs| ==> cs[k].fd >= 0)
    && (forall j, k :: 0 <= j < k < |cs| ==> cs[j].fd != cs[k].fd)
  }

  /** Every open descriptor belongs to one slot or to one candidate still waiting. */
  ghost predicate Holding(open: set<int>, sources: seq<Source>, waiting: seq<Candidate>) {
    Owned(sources) && CandidateFds(waiting) !! Fds(sources) && open == Fds(sources) + CandidateFds(waiting)
  }

  /** What a script still holds: bytes plus answers. */
  function Work(answers: seq<Answer>): nat {
    if answers == [] then 0
    else (if answers[0].Bytes? then |answers[0].data| else 0) + 1 + Work(answers[1..])
  }

  lemma Slices(s: seq<Byte>, at: nat, len: nat, cut: nat)
    requires cut <= len && at + len <= |s|
    ensures s[at..at + len][..cut] == s[at..at + cut] && s[at..at + len][cut..] == s[at + cut..at + len]
  {
  }

  /** Claiming for one candidate of the list and then for the rest. */
  lemma ClaimStep(sources: seq<Source>, planned: seq<Candidate>, k: nat)
    requires k < |planned| && planned[k].fd >= 0
    ensures match FirstFree(sources)
      case Some(slot) =>
        var next := sources[slot := Connect(planned[k])];
        && ClaimAll(sources, planned[k..]) == ClaimAll(next, planned[k + 1..])
        && Fewer(|planned| - k, FreeSlots(sources)) == Fewer(|planned| - k - 1, FreeSlots(next)) + 1
      case None =>
        && ClaimAll(sources, planned[k..]) == ClaimAll(sources, planned[k + 1..])
        && Fewer(|planned| - k, FreeSlots(sources)) == Fewer(|planned| - k - 1, FreeSlots(sources))
  {
    assert planned[k..][0] == planned[k] && planned[k..][1..] == planned[k + 1..];
    match FirstFree(sources)
    case Some(slot) => FillSlot(sources, slot, Connect(planned[k]));
    case None => NoFreeSlots(sources);
  }

  /** What a read of `got` bytes leaves of a script. */
  lemma CutScript(answers: seq<Answer>, got: nat, rest: seq<Answer>)
    requires GoodScript(answers) && answers != [] && answers[0].Bytes? && 0 < got <= |answers[0].data|
    requires rest == if got < |answers[0].data| then [Bytes(answers[0].data[got..])] + answers[1..] else answers[1..]
    ensures GoodScript(rest) && Delivered(answers) == answers[0].data[..got] + Delivered(rest)
    ensures Gone(answers) == Gone(rest) && Work(rest) < Work(answers)
  {
    var data := answers[0].data;
    if got < |data| {
      assert rest[1..] == answers[1..] && data[..got] + data[got..] == data;
      assert data[..got] + (data[got..] + Delivered(answers[1..])) == data + Delivered(answers[1..]);
    } else {
      assert data[..got] == data;
    }
  }

  lemma ListGrows(listed: seq<Candidate>, c: Candidate)
    ensures CandidateFds(listed + [c]) == CandidateFds(listed) + {c.fd}
    ensures Fresh(listed) && c.fd >= 0 && c.fd !in CandidateFds(listed) ==> Fresh(listed + [c])
  {
    var longer := listed + [c];
    assert longer[|listed|] == c;
    forall fd | fd in CandidateFds(listed) ensures fd in CandidateFds(longer) {
      var k :| 0 <= k < |listed| && listed[k].fd == fd;
      assert longer[k].fd == fd;
    }
    forall k | 0 <= k < |listed| ensures listed[k].fd in CandidateFds(listed) {
    }
  }

  lemma ListShrinks(planned: seq<Candidate>, k: nat)
    requires k < |planned| && Fresh(planned)
    ensures planned[k].fd in CandidateFds(planned[k..])
    ensures CandidateFds(planned[k + 1..]) == CandidateFds(planned[k..]) - {planned[k].fd}
  {
    var now, next := planned[k..], planned[k + 1..];
    assert now[0] == planned[k];
    forall fd | fd in CandidateFds(now) && fd != planned[k].fd ensures fd in CandidateFds(next) {
      var j :| 0 <= j < |now| && now[j].fd == fd;
      assert next[j - 1].fd == fd;
    }
    forall fd | fd in CandidateFds(next) ensures fd in CandidateFds(now) && fd != planned[k].fd {
      var j :| 0 <= j < |next| && next[j].fd == fd;
      assert now[j + 1].fd == fd && planned[k + 1 + j].fd == fd;
    }
  }

  lemma {:induction false} InsertKeepsFresh(s: seq<Candidate>, x: Candidate)
    requires Fresh(s) && x.fd >= 0 && x.fd !in CandidateFds(s)
    ensures Fresh(Insert(s, x)) && CandidateFds(Insert(s, x)) == CandidateFds(s) + {x.fd}
  {
    if s == [] || !Ahead(x, s[|s| - 1]) {
      ListGrows(s, x);
    } else {
      var front, last := s[..|s| - 1], s[|s| - 1];
      assert s == front + [last];
      ListGrows(front, last);
      assert last.fd !in CandidateFds(front) && last.fd in CandidateFds(s);
      InsertKeepsFresh(front, x);
      ListGrows(Insert(front, x), last);
    }
  }

  /** Planning moves candidates about without losing or duplicating a descriptor. */
  lemma {:induction false} PlanKeepsFresh(s: seq<Candidate>)
    requires Fresh(s)
    ensures Fresh(Planned(s)) && CandidateFds(Planned(s)) == CandidateFds(s)
  {
    if s != [] {
      var front, last := s[..|s| - 1], s[|s| - 1];
      assert s == front + [last];
      ListGrows(front, last);
      assert last.fd !in CandidateFds(front);
      PlanKeepsFresh(front);
      InsertKeepsFresh(Planned(front), last);
    }
  }

  lemma ReplaceAbsent(sources: seq<Source>, i: nat, s: Source)
    requires i < |sources| && Owned(sources) && sources[i].fd < 0 && s.fd < 0 && s.link == Absent
    ensures Owned(sources[i := s]) && Fds(sources[i := s]) == Fds(sources)
  {
    var next := sources[i := s];
    forall fd | fd in Fds(sources) ensures fd in Fds(next) {
      var j :| 0 <= j < |sources| && sources[j].fd >= 0 && sources[j].fd == fd;
      assert next[j].fd == fd;
    }
  }

  lemma {:induction false} AdmittedGood(entries: seq<Entry>)
    requires GoodEntries(entries)
    ensures GoodEntries(Admitted(entries))
  {
    if entries != [] { AdmittedGood(entries[..|entries| - 1]); }
  }

  lemma StandInsAreGood(cs: seq<Candidate>, entries: seq<Entry>)
    requires StandsFor(cs, Admitted(entries)) && Fresh(cs) && GoodEntries(entries)
    ensures GoodCandidates(cs)
  {
    AdmittedGood(entries);
    forall k | 0 <= k < |cs| ensures Prepared(cs[k].prepared) {
      assert cs[k].prepared == Admitted(entries)[k].prepared;
    }
  }

  /** A directory names each event node once. */
  ghost predicate DistinctEntries(entries: seq<Entry>) {
    forall i, j :: 0 <= i < j < |entries| && entries[i].number.Some? && entries[j].number.Some? ==>
      entries[i].number.value != entries[j].number.value
  }

  /** Nothing else is admitted: without evidence from the probe no metadata suffices. */
  lemma {:induction false} AdmittedMember(entries: seq<Entry>, k: nat)
    requires k < |Admitted(entries)|
    ensures var e := Admitted(entries)[k]; e in entries && e.number.Some? && e.opens && e.probe >= 1
  {
    var front := entries[..|entries| - 1];
    if k < |Admitted(front)| {
      AdmittedMember(front, k);
      assert forall e :: e in front ==> e in entries;
    }
  }

  lemma {:induction false} AdmittedDistinct(entries: seq<Entry>)
    requires DistinctEntries(entries)
    ensures DistinctEntries(Admitted(entries))
  {
    if entries != [] {
      var n := |entries| - 1;
      AdmittedDistinct(entries[..n]);
      forall k | 0 <= k < |Admitted(entries[..n])|
        ensures Admitted(entries[..n])[k].number != entries[n].number || entries[n].number.None?
      {
        AdmittedMember(entries[..n], k);
        var i :| 0 <= i < n && entries[..n][i] == Admitted(entries[..n])[k];
        assert entries[i] == entries[..n][i];
      }
    }
  }

  /** A scan of a directory finds each node once, and so does its plan. */
  lemma ScanFindsNodesOnce(cs: seq<Candidate>, entries: seq<Entry>)
    requires StandsFor(cs, Admitted(entries)) && DistinctEntries(entries)
    ensures Uniform(OneSlotPerNode, cs) && Uniform(OneSlotPerNode, Planned(cs))
  {
    AdmittedDistinct(entries);
    forall i, j | 0 <= i < j < |cs| ensures cs[i].number != cs[j].number {
      AdmittedMember(entries, i);
      AdmittedMember(entries, j);
    }
    PlanKeepsNodes(cs);
  }

  lemma EmptyIsOwned()
    ensures Shapes(EmptyInput().sources) && Owned(EmptyInput().sources) && Fds(EmptyInput().sources) == {}
  {
  }

  class Engine {
    const kernel: Kernel
    const size: nat                 // sizeof(struct input_event)
    const buffers: array<Byte>      // SLOTS partial-event buffers of BUFFER bytes

    var lens: seq<nat>
    var sources: seq<Source>
    var pending: seq<nat>

    ghost predicate Shape()
      reads this, buffers
    {
      && EventSize(size) && buffers.Length == SLOTS * BUFFER
      && |lens| == SLOTS && (forall i :: 0 <= i < SLOTS ==> lens[i] <= BUFFER)
      && Shapes(sources) && |pending| <= PENDING_MAX
    }

    ghost predicate Valid()
      reads this, buffers, kernel
    {
      Shape() && Owned(sources) && kernel.open == Fds(sources)
    }

    ghost function Left(i: nat): seq<Byte>
      requires i < SLOTS && Shape()
      reads this, buffers
    {
      buffers[BUFFER * i..BUFFER * i + lens[i]]
    }

    ghost function State(): Input
      requires Shape()
      reads this, buffers
    {
      Input(sources, pending, [Left(0), Left(1), Left(2), Left(3)])
    }

    /** What changes neither buffers nor lengths keeps every partial event. */
    twostate lemma SameLefts()
      requires old(Shape()) && Shape() && lens == old(lens) && unchanged(buffers)
      ensures State().left == old(State().left)
    {
      assert buffers[..] == old(buffers[..]);
      assert Left(0) == old(Left(0)) && Left(1) == old(Left(1)) && Left(2) == old(Left(2)) && Left(3) == old(Left(3));
    }

    /** A change inside one slot's buffer leaves the other slots' partial events as they were. */
    twostate lemma OthersKept(i: nat)
      requires old(Shape()) && Shape() && i < SLOTS
      requires forall j :: 0 <= j < SLOTS && j != i ==> lens[j] == old(lens[j])
      requires forall x :: 0 <= x < buffers.Length && !(BUFFER * i <= x < BUFFER * (i + 1)) ==>
                 buffers[x] == old(buffers[x])
      ensures forall j :: 0 <= j < SLOTS && j != i ==> Left(j) == old(Left(j))
    {
    }

    twostate lemma SameState()
      requires old(Valid()) && unchanged(this) && unchanged(buffers) && unchanged(kernel)
      ensures Valid() && State() == old(State())
    {
      SameLefts();
    }

    /** All slots empty; discovery runs next. */
    constructor (kernel: Kernel, size: nat)
      requires EventSize(size) && kernel.open == {}
      ensures Valid() && this.kernel == kernel && this.size == size && fresh(buffers)
      ensures State() == EmptyInput()
    {
      this.kernel := kernel;
      this.size := size;
      buffers := new Byte[SLOTS * BUFFER];
      lens := [0, 0, 0, 0];
      sources := [EmptySource(), EmptySource(), EmptySource(), EmptySource()];
      pending := [];
      new;
      EmptyIsOwned();
      assert Left(0) == [] && Left(1) == [] && Left(2) == [] && Left(3) == [];
    }

    // ----- the partial-event buffer

    method MoveDown(base: nat, n: nat)
      requires EventSize(size) && base + size + n <= buffers.Length
      modifies buffers
      ensures buffers[base..base + n] == old(buffers[base + size..base + size + n])
      ensures forall x :: 0 <= x < buffers.Length && !(base <= x < base + n) ==> buffers[x] == old(buffers[..])[x]
    {
      for k := 0 to n
        modifies buffers
        invariant forall x :: base <= x < base + k ==> buffers[x] == old(buffers[..])[x + size]
        invariant forall x :: 0 <= x < buffers.Length && !(base <= x < base + k) ==> buffers[x] == old(buffers[..])[x]
      {
        buffers[base + k] := buffers[base + size + k];
      }
    }

    /** Take the first event out of a buffer and move the rest down. */
    method TakeEvent(i: nat) returns (raw: seq<Byte>)
      requires Shape() && i < SLOTS && size <= lens[i]
      modifies buffers, this`lens
      ensures Shape() && lens == old(lens)[i := old(lens[i]) - size]
      ensures raw == old(Left(i))[..size] && Left(i) == old(Left(i))[size..]
      ensures forall j :: 0 <= j < SLOTS && j != i ==> Left(j) == old(Left(j))
    {
      var base, n := BUFFER * i, lens[i] - size;
      raw := buffers[base..base + size];
      ghost var was := buffers[..];
      Slices(was, base, n + size, size);
      MoveDown(base, n);
      lens := lens[i := n];
      OthersKept(i);
    }

    method Append(i: nat, data: seq<Byte>)
      requires Shape() && i < SLOTS && lens[i] + |data| <= BUFFER
      modifies buffers, this`lens
      ensures Shape() && Left(i) == old(Left(i)) + data
      ensures forall j :: 0 <= j < SLOTS && j != i ==> Left(j) == old(Left(j))
    {
      var at := BUFFER * i + lens[i];
      ghost var was := buffers[..];
      forall k | 0 <= k < |data| {
        buffers[at + k] := data[k];
      }
      lens := lens[i := lens[i] + |data|];
      OthersKept(i);
      assert Left(i) == was[BUFFER * i..at] + data;
    }

    /** read() into the free part of a buffer: never offered an empty one. */
    method Read(i: nat, answers: seq<Answer>) returns (answer: Answer, rest: seq<Answer>)
      requires Shape() && i < SLOTS && GoodScript(answers)
      requires lens[i] < BUFFER
      modifies buffers, this`lens
      ensures Shape() && GoodScript(rest)
      ensures forall j :: 0 <= j < SLOTS && j != i ==> Left(j) == old(Left(j))
      ensures old(Left(i)) + Delivered(answers) == Left(i) + if Ending(answer) then [] else Delivered(rest)
      ensures if Ending(answer) then lens == old(lens) && Gone(answers) == !answer.WouldBlock?
              else Gone(answers) == Gone(rest) && Work(rest) < Work(answers)
    {
      if answers == [] {
        return WouldBlock, [];
      }
      answer, rest := answers[0], answers[1..];
      if answer.Bytes? {
        var data, space := answer.data, BUFFER - lens[i];
        var got := if |data| < space then |data| else space;
        if got < |data| {
          rest := [Bytes(data[got..])] + rest;
        }
        answer := Bytes(data[..got]);
        CutScript(answers, got, rest);
        Append(i, data[..got]);
      }
    }

    // ----- one event

    method ProcessKey(i: nat, code: nat, value: Int32)
      requires Shape() && i < SLOTS
      modifies this`sources, this`pending
      ensures sources == old(sources)[i := old(sources[i]).(held := Pressed(old(sources[i].held), code, value))]
      ensures pending == if EmitsAction(value) then Enqueue(old(pending), MapKey(code)) else old(pending)
    {
      if code < 64 {
        if value != 0 {
          sources := sources[i := sources[i].(held := sources[i].held + {code})];
        } else {
          sources := sources[i := sources[i].(held := sources[i].held - {code})];
        }
      }
      if EmitsAction(value) {
        var action := MapKey(code);
        if action != 0 && action <= 6 && |pending| < PENDING_MAX {
          pending := pending + [action];
        }
      }
    }

    /** Replace keys and axes by what the device reports now. */
    method Resync(i: nat, snap: Snapshot)
      requires Shape() && i < SLOTS && SnapshotShape(snap)
      modifies this`sources
      ensures sources == old(sources)[i := Resynced(old(sources[i]), snap)]
    {
      var s := sources[i];
      if snap.keys.Some? {
        var merged: set<nat> := {};
        for code := 0 to 64
          invariant merged == KeysBelow(snap.keys.value, code)
        {
          if BitTest(snap.keys.value, code) {
            merged := merged + {code};
          }
        }
        s := s.(held := merged);
      }
      ghost var keyed := s;
      for slot := 0 to AXES
        invariant s == keyed.(lastRaw := s.lastRaw) && |s.lastRaw| == AXES
        invariant forall k :: 0 <= k < slot ==> s.lastRaw[k] == SnapshotAxis(old(sources[i]), snap, k)
        invariant forall k :: slot <= k < AXES ==> s.lastRaw[k] == keyed.lastRaw[k]
      {
        if s.axisValid[slot] && snap.axes[slot].Some? {
          s := s.(lastRaw := s.lastRaw[slot := snap.axes[slot].value]);
        }
      }
      assert s == Resynced(old(sources[i]), snap);
      sources := sources[i := s];
    }

    method ConsumeEvent(i: nat, e: Event, snaps: Snapshots, resyncs: nat) returns (taken: nat)
      requires Shape() && i < SLOTS && GoodSnapshots(snaps)
      modifies this`sources, this`pending
      ensures Shape() && |sources| == |old(sources)|
      ensures Feed(sources[i], pending, taken) == Consume(Feed(old(sources[i]), old(pending), resyncs), e, snaps)
      ensures sources == old(sources)[i := sources[i]]
      ensures sources[i].fd == old(sources[i].fd) && (sources[i].link == Absent <==> old(sources[i].link) == Absent)
    {
      taken := resyncs;
      var s := sources[i];
      if e.kind == EV_SYN {
        if e.code == SYN_DROPPED && s.link == Connected {
          sources := sources[i := s.(link := Desync)];
        } else if e.code == SYN_REPORT && s.link == Desync {
          assert SnapshotShape(snaps(resyncs));
          Resync(i, snaps(resyncs));
          sources := sources[i := sources[i].(link := Connected)];
          taken := resyncs + 1;
        }
      } else if e.kind == EV_KEY {
        if s.link == Connected {
          ProcessKey(i, e.code, e.value);
        }
      } else if e.kind == EV_ABS {
        var slot := AxisSlot(e.code);
        if slot.Some? && s.link == Connected {
          sources := sources[i := s.(lastRaw := s.lastRaw[slot.value := e.value])];
        }
      }
      assert SourceShape(sources[i]);
    }

    // ----- pumping

    /** Consume the event `raw` that stood in front of `left`. */
    method ConsumeFront(i: nat, raw: seq<Byte>, snaps: Snapshots, resyncs: nat, ghost left: seq<Byte>,
                        ghost more: seq<Byte>)
      returns (taken: nat)
      requires Shape() && i < SLOTS && GoodSnapshots(snaps) && size <= |left| && raw == left[..size]
      modifies this`sources, this`pending
      ensures Shape() && sources == old(sources)[i := sources[i]]
      ensures sources[i].fd == old(sources[i].fd) && (sources[i].link == Absent <==> old(sources[i].link) == Absent)
      ensures Todo(Feed(sources[i], pending, taken), left[size..] + more, snaps, size) ==
              Todo(Feed(old(sources[i]), old(pending), resyncs), left + more, snaps, size)
    {
      TodoStep(Feed(sources[i], pending, resyncs), left, more, snaps, size);
      taken := ConsumeEvent(i, Decode(raw), snaps, resyncs);
    }

    /** Take one event and consume it. */
    method DrainOne(i: nat, snaps: Snapshots, resyncs: nat, ghost more: seq<Byte>) returns (taken: nat)
      requires Shape() && i < SLOTS && size <= lens[i] && GoodSnapshots(snaps)
      modifies buffers, this`lens, this`sources, this`pending
      ensures Shape() && lens[i] == old(lens[i]) - size
      ensures forall j :: 0 <= j < SLOTS && j != i ==> Left(j) == old(Left(j))
      ensures sources == old(sources)[i := sources[i]]
      ensures sources[i].fd == old(sources[i].fd) && (sources[i].link == Absent <==> old(sources[i].link) == Absent)
      ensures Todo(Feed(sources[i], pending, taken), Left(i) + more, snaps, size) ==
              Todo(Feed(old(sources[i]), old(pending), resyncs), old(Left(i)) + more, snaps, size)
    {
      ghost var left := Left(i);
      var raw := TakeEvent(i);
      taken := ConsumeFront(i, raw, snaps, resyncs, left, more);
      assert Left(i) == left[size..];
    }

    /** Consume every whole event in the buffer. Whatever `more` bytes follow later, what remains
        to be consumed does not change. */
    method Drain(i: nat, snaps: Snapshots, resyncs: nat, ghost more: seq<Byte>) returns (taken: nat)
      requires Shape() && i < SLOTS && GoodSnapshots(snaps)
      modifies buffers, this`lens, this`sources, this`pending
      ensures Shape() && lens[i] < size
      ensures forall j :: 0 <= j < SLOTS && j != i ==> Left(j) == old(Left(j))
      ensures sources == old(sources)[i := sources[i]]
      ensures sources[i].fd == old(sources[i].fd) && (sources[i].link == Absent <==> old(sources[i].link) == Absent)
      ensures Todo(Feed(sources[i], pending, taken), Left(i) + more, snaps, size) ==
              Todo(Feed(old(sources[i]), old(pending), resyncs), old(Left(i)) + more, snaps, size)
    {
      taken := resyncs;
      while size <= lens[i]
        invariant Shape()
        invariant forall j :: 0 <= j < SLOTS && j != i ==> Left(j) == old(Left(j))
        invariant sources == old(sources)[i := sources[i]]
        invariant sources[i].fd == old(sources[i].fd) && (sources[i].link == Absent <==> old(sources[i].link) == Absent)
        invariant Todo(Feed(sources[i], pending, taken), Left(i) + more, snaps, size) ==
                  Todo(Feed(old(sources[i]), old(pending), resyncs), old(Left(i)) + more, snaps, size)
        decreases lens[i]
      {
        taken := DrainOne(i, snaps, taken, more);
      }
    }

    method HandleDisconnect(i: nat)
      requires Shape() && i < SLOTS && (sources[i].fd >= 0 ==> sources[i].fd in kernel.open)
      modifies this`sources, this`lens, kernel
      ensures Shape() && sources == old(sources)[i := Disconnected(old(sources[i]))]
      ensures Left(i) == [] && forall j :: 0 <= j < SLOTS && j != i ==> Left(j) == old(Left(j))
      ensures kernel.open == old(kernel.open) - if old(sources[i].fd) >= 0 then {old(sources[i].fd)} else {}
    {
      if sources[i].fd >= 0 {
        kernel.Close(sources[i].fd);
      }
      sources := sources[i := Disconnected(sources[i])];
      lens := lens[i := 0];
    }

    /** Drain the buffer, then read once. */
    method Round(i: nat, answers: seq<Answer>, snaps: Snapshots, resyncs: nat)
      returns (answer: Answer, rest: seq<Answer>, taken: nat)
      requires Shape() && i < SLOTS && GoodScript(answers) && GoodSnapshots(snaps)
      modifies buffers, this`lens, this`sources, this`pending
      ensures Shape() && GoodScript(rest)
      ensures forall j :: 0 <= j < SLOTS && j != i ==> Left(j) == old(Left(j))
      ensures sources == old(sources)[i := sources[i]]
      ensures sources[i].fd == old(sources[i].fd) && (sources[i].link == Absent <==> old(sources[i].link) == Absent)
      ensures if Ending(answer) then lens[i] < size && Gone(answers) == !answer.WouldBlock?
              else Gone(answers) == Gone(rest) && Work(rest) < Work(answers)
      ensures Todo(Feed(sources[i], pending, taken),
                   Left(i) + if Ending(answer) then [] else Delivered(rest), snaps, size) ==
              Todo(Feed(old(sources[i]), old(pending), resyncs), old(Left(i)) + Delivered(answers), snaps, size)
    {
      taken := Drain(i, snaps, resyncs, Delivered(answers));
      answer, rest := Read(i, answers);
    }

    /** Read and consume until an answer ends the pump. */
    method ReadAll(i: nat, answers: seq<Answer>, snaps: Snapshots, ghost fed: Feed, ghost left: seq<Byte>)
      returns (gone: bool, taken: nat)
      requires Shape() && i < SLOTS && GoodScript(answers) && GoodSnapshots(snaps)
      requires fed == Feed(sources[i], pending, 0) && left == Left(i)
      modifies buffers, this`lens, this`sources, this`pending
      ensures Shape() && lens[i] < size && gone == Gone(answers)
      ensures forall j :: 0 <= j < SLOTS && j != i ==> Left(j) == old(Left(j))
      ensures sources == old(sources)[i := sources[i]]
      ensures sources[i].fd == old(sources[i].fd) && (sources[i].link == Absent <==> old(sources[i].link) == Absent)
      ensures Todo(Feed(sources[i], pending, taken), Left(i), snaps, size) ==
              Todo(fed, left + Delivered(answers), snaps, size)
    {
      var rest, answer := answers, Interrupted;
      taken := 0;
      while !Ending(answer)
        invariant Shape() && GoodScript(rest)
        invariant forall j :: 0 <= j < SLOTS && j != i ==> Left(j) == old(Left(j))
        invariant sources == old(sources)[i := sources[i]]
        invariant sources[i].fd == old(sources[i].fd) && (sources[i].link == Absent <==> old(sources[i].link) == Absent)
        invariant if Ending(answer) then lens[i] < size && Gone(answers) == !answer.WouldBlock?
                  else Gone(answers) == Gone(rest)
        invariant Todo(Feed(sources[i], pending, taken),
                       Left(i) + if Ending(answer) then [] else Delivered(rest), snaps, size) ==
                  Todo(fed, left + Delivered(answers), snaps, size)
        decreases !Ending(answer), Work(rest)
      {
        answer, rest, taken := Round(i, rest, snaps, taken);
      }
      assert Left(i) + [] == Left(i);
      gone := !answer.WouldBlock?;
    }

    lemma LeftsAre(before: Input, i: nat)
      requires Shape() && i < SLOTS && |before.left| == SLOTS
      requires forall j :: 0 <= j < SLOTS && j != i ==> Left(j) == before.left[j]
      ensures State().left == before.left[i := Left(i)]
    {
    }

    /** Nothing whole is left to consume: keep the remainder, or give the device up. */
    method FinishPump(i: nat, gone: bool, ghost before: Input)
      requires Shape() && i < SLOTS && InputShape(before)
      requires sources[i].fd == before.sources[i].fd >= 0 && sources[i].fd in kernel.open
      requires kernel.open == Fds(before.sources)
      requires forall j :: 0 <= j < SLOTS && j != i ==> Left(j) == before.left[j]
      requires sources == before.sources[i := sources[i]]
      requires SettlesOwned(before, i, sources[i], pending, Left(i), gone)
      modifies this`lens, this`sources, kernel
      ensures Valid() && State() == Settled(before, i, old(sources[i]), old(pending), old(Left(i)), gone)
    {
      ghost var end := Settled(before, i, sources[i], pending, Left(i), gone);
      assert Owned(end.sources);
      if gone {
        HandleDisconnect(i);
        LeftsAre(before, i);
        assert sources == end.sources && State().left == end.left;
      } else {
        LeftsAre(before, i);
        assert sources == end.sources && State().left == end.left;
      }
    }

    /** Read and consume everything readable: what is left to do is to settle. */
    method PumpRead(i: nat, answers: seq<Answer>, snaps: Snapshots, ghost before: Input) returns (gone: bool)
      requires Shape() && i < SLOTS && GoodScript(answers) && GoodSnapshots(snaps)
      requires InputShape(before) && before.sources == sources && before.pending == pending
      requires forall j :: 0 <= j < SLOTS ==> Left(j) == before.left[j]
      modifies buffers, this`lens, this`sources, this`pending
      ensures Shape() && gone == Gone(answers)
      ensures forall j :: 0 <= j < SLOTS && j != i ==> Left(j) == before.left[j]
      ensures sources == before.sources[i := sources[i]] && sources[i].fd == before.sources[i].fd
      ensures sources[i].link == Absent <==> before.sources[i].link == Absent
      ensures Pumped(before, i, answers, snaps, size) == Settled(before, i, sources[i], pending, Left(i), gone)
    {
      var taken;
      gone, taken := ReadAll(i, answers, snaps, FeedOf(before, i), before.left[i]);
      PumpIsDone(before, i, answers, snaps, size, Feed(sources[i], pending, taken), Left(i));
    }

    /** One pump: consume everything readable, then keep the remainder or give the device up. */
    method Pump(i: nat, answers: seq<Answer>, snaps: Snapshots)
      requires Valid() && i < SLOTS && sources[i].fd >= 0 && GoodScript(answers) && GoodSnapshots(snaps)
      modifies this`lens, this`sources, this`pending, buffers, kernel
      ensures Valid() && State() == Pumped(old(State()), i, answers, snaps, size)
    {
      ghost var before := State();
      assert sources[i].fd in Fds(sources);
      var gone := PumpRead(i, answers, snaps, before);
      SettledIsOwned(before, i, sources[i], pending, Left(i), gone);
      FinishPump(i, gone, before);
    }

    // ----- polling

    method PumpAll(scripts: seq<seq<Answer>>, snaps: seq<Snapshots>)
      requires Valid() && GoodPoll(scripts, snaps)
      modifies this`lens, this`sources, this`pending, buffers, kernel
      ensures Valid() && State() == AllPumped(old(State()), scripts, snaps, size)
    {
      for i := 0 to SLOTS
        invariant Valid()
        invariant PumpsFrom(State(), i, scripts, snaps, size) == PumpsFrom(old(State()), 0, scripts, snaps, size)
      {
        if sources[i].fd >= 0 && sources[i].link != Desync {
          Pump(i, scripts[i], snaps[i]);
        }
      }
    }

    method PopAction() returns (action: nat)
      requires Valid()
      modifies this`pending
      ensures Valid() && State() == Popped(old(State())) && action == Oldest(old(State()).pending)
      ensures if old(pending) == [] then action == 0 && pending == [] else [action] + pending == old(pending)
    {
      action := 0;
      if |pending| > 0 {
        action := pending[0];
        pending := pending[1..];
      }
      SameLefts();
    }

    /** Pump every slot that may be read and hand out the oldest action. */
    method PollAction(scripts: seq<seq<Answer>>, snaps: seq<Snapshots>) returns (action: nat)
      requires Valid() && GoodPoll(scripts, snaps)
      modifies this`lens, this`sources, this`pending, buffers, kernel
      ensures Valid() && State() == Polled(old(State()), scripts, snaps, size)
      ensures action == ActionOf(old(State()), scripts, snaps, size)
      ensures var queue := AllPumped(old(State()), scripts, snaps, size).pending;
              if queue == [] then action == 0 && pending == [] else [action] + pending == queue
    {
      PumpAll(scripts, snaps);
      action := PopAction();
    }

    /** Pump, hand out the oldest action, and merge the frame. */
    method Poll(scripts: seq<seq<Answer>>, snaps: seq<Snapshots>) returns (action: nat, frame: Frame)
      requires Valid() && GoodPoll(scripts, snaps)
      modifies this`lens, this`sources, this`pending, buffers, kernel
      ensures Valid() && State() == Polled(old(State()), scripts, snaps, size)
      ensures action == ActionOf(old(State()), scripts, snaps, size)
      ensures var queue := AllPumped(old(State()), scripts, snaps, size).pending;
              if queue == [] then action == 0 && pending == [] else [action] + pending == queue
      ensures Merged(sources, SLOTS, frame)
    {
      action := PollAction(scripts, snaps);
      label polled:
      frame := BuildFrame(sources);
      SameState@polled();
    }

    // ----- discovery

    /** Open and classify directory entries into at most CANDIDATE_CAP candidates. */
    method Collect(entries: seq<Entry>) returns (candidates: array<Candidate>, count: nat)
      requires Valid() && GoodEntries(entries)
      modifies kernel
      ensures fresh(candidates) && candidates.Length == CANDIDATE_CAP && count <= CANDIDATE_CAP
      ensures StandsFor(candidates[..count], Admitted(entries)) && Fresh(candidates[..count])
      ensures Holding(kernel.open, sources, candidates[..count])
    {
      candidates := new Candidate[CANDIDATE_CAP];
      count := 0;
      assert candidates[..0] == [];
      for e := 0 to |entries|
        invariant count <= CANDIDATE_CAP
        invariant StandsFor(candidates[..count], Admitted(entries[..e])) && Fresh(candidates[..count])
        invariant CandidateFds(candidates[..count]) !! Fds(sources)
        invariant kernel.open == Fds(sources) + CandidateFds(candidates[..count])
      {
        assert entries[..e + 1][..e] == entries[..e];
        if count < CANDIDATE_CAP && entries[e].number.Some? && entries[e].opens {
          var fd := kernel.Open();
          if entries[e].probe == 0 {
            kernel.Close(fd);
          } else {
            ghost var listed := candidates[..count];
            candidates[count] := Candidate(fd, Rank(entries[e]), entries[e].number.value, entries[e].prepared);
            count := count + 1;
            assert candidates[..count] == listed + [candidates[count - 1]];
            ListGrows(listed, candidates[count - 1]);
          }
        }
      }
      assert entries[..|entries|] == entries;
    }

    /** Give candidate `k` the first free slot, or close it when there is none. */
    method ClaimOne(planned: seq<Candidate>, k: nat) returns (took: bool)
      requires Shape() && k < |planned| && Fresh(planned) && Holding(kernel.open, sources, planned[k..])
      requires Prepared(planned[k].prepared)
      modifies this`sources, kernel
      ensures Shape() && Holding(kernel.open, sources, planned[k + 1..])
      ensures took == old(FirstFree(sources)).Some?
      ensures sources == if took then old(sources)[old(FirstFree(sources)).value := Connect(planned[k])]
                         else old(sources)
    {
      ListShrinks(planned, k);
      var c, slot := planned[k], FirstFree(sources);
      took := slot.Some?;
      if took {
        ClaimKeepsOwnership(sources, slot.value, c);
        sources := sources[slot.value := Connect(c)];
      } else {
        kernel.Close(c.fd);
      }
    }

    /** Give each planned candidate the first free slot; close what finds none. */
    method Claim(planned: seq<Candidate>) returns (claimed: nat)
      requires Shape() && Fresh(planned) && Holding(kernel.open, sources, planned)
      requires GoodCandidates(planned)
      modifies this`sources, kernel
      ensures Valid() && sources == ClaimAll(old(sources), planned)
      ensures forall k :: 0 <= k < SLOTS ==> Claimed(old(sources), planned, sources, k)
      ensures claimed == Fewer(|planned|, old(FreeSlots(sources)))
    {
      claimed := 0;
      assert planned[0..] == planned;
      for k := 0 to |planned|
        invariant Shape() && Holding(kernel.open, sources, planned[k..])
        invariant ClaimAll(sources, planned[k..]) == ClaimAll(old(sources), planned)
        invariant claimed + Fewer(|planned| - k, FreeSlots(sources)) == Fewer(|planned|, old(FreeSlots(sources)))
      {
        ClaimStep(sources, planned, k);
        var took := ClaimOne(planned, k);
        if took {
          claimed := claimed + 1;
        }
      }
      assert CandidateFds(planned[|planned|..]) == {};
      ClaimConnects(old(sources), planned);
    }

    /** Collect the candidates `cs` and put them in planned order. */
    method CollectPlanned(entries: seq<Entry>) returns (planned: seq<Candidate>, ghost cs: seq<Candidate>)
      requires Valid() && GoodEntries(entries)
      modifies kernel
      ensures StandsFor(cs, Admitted(entries)) && Fresh(cs) && GoodCandidates(cs) && |planned| == |cs|
      ensures planned == Planned(cs) && Fresh(planned) && Holding(kernel.open, sources, planned)
    {
      var candidates, count := Collect(entries);
      cs := candidates[..count];
      var kept := Plan(candidates, count);
      planned := candidates[..count];
      PlanKeepsFresh(cs);
      StandInsAreGood(cs, entries);
    }

    /** A discovery pass: collect, plan, claim. `cs` are the candidates it collected. */
    method Discover(entries: seq<Entry>) returns (claimed: nat, ghost cs: seq<Candidate>)
      requires Valid() && GoodEntries(entries)
      modifies this`sources, kernel
      ensures Valid() && StandsFor(cs, Admitted(entries)) && GoodCandidates(cs)
      ensures sources == ClaimAll(old(sources), Planned(cs))
      ensures forall k :: 0 <= k < SLOTS ==> Claimed(old(sources), Planned(cs), sources, k)
      ensures claimed == Fewer(|cs|, old(FreeSlots(sources)))
      ensures State() == old(State()).(sources := sources)
    {
      var planned;
      planned, cs := CollectPlanned(entries);
      PlanKeepsGood(cs);
      claimed := Claim(planned);
      SameLefts();
    }

    // ----- shutdown

    method CloseAll()
      requires Valid()
      modifies this`sources, kernel
      ensures Shape() && kernel.open == {} && sources == EmptyInput().sources
    {
      for i := 0 to SLOTS
        invariant Valid() && forall j :: 0 <= j < i ==> sources[j] == EmptySource()
      {
        if sources[i].fd >= 0 {
          assert sources[i].fd in Fds(sources);
          kernel.Close(sources[i].fd);
          ReplaceSource(sources, i, EmptySource());
        } else {
          ReplaceAbsent(sources, i, EmptySource());
        }
        sources := sources[i := EmptySource()];
      }
      assert sources == EmptyInput().sources;
      EmptyIsOwned();
    }

    /** Close every owned descriptor and forget everything. */
    method Shutdown()
      requires Valid()
      modifies this`lens, this`sources, this`pending, kernel
      ensures Valid() && kernel.open == {} && State() == EmptyInput()
    {
      CloseAll();
      EmptyIsOwned();
      pending := [];
      lens := [0, 0, 0, 0];
      assert Left(0) == [] && Left(1) == [] && Left(2) == [] && Left(3) == [];
    }
  }

  // ----- whole sessions

  lemma InitResult(cs: seq<Candidate>)
    requires GoodCandidates(cs)
    ensures FreeSlots(EmptyInput().sources) == SLOTS && |Planned(cs)| == |cs|
    ensures Filled(ClaimAll(EmptyInput().sources, Planned(cs)), EmptyInput().sources, Planned(cs))
  {
    AllFree(EmptyInput().sources);
    InitFills(EmptyInput().sources, cs);
  }

  /** Init: an empty engine and one discovery pass. The slots hold the best candidates in
      planned order, no node twice. */
  method Init(kernel: Kernel, size: nat, entries: seq<Entry>)
    returns (engine: Engine, claimed: nat, ghost cs: seq<Candidate>)
    requires EventSize(size) && kernel.open == {} && GoodEntries(entries)
    modifies kernel
    ensures fresh(engine) && fresh(engine.buffers) && engine.kernel == kernel && engine.size == size && engine.Valid()
    ensures StandsFor(cs, Admitted(entries)) && claimed == Fewer(|cs|, SLOTS) && |Planned(cs)| == |cs|
    ensures Filled(engine.sources, EmptyInput().sources, Planned(cs))
    ensures DistinctEntries(entries) ==> Uniform(OneSlotPerNode, Planned(cs))
  {
    engine := new Engine(kernel, size);
    claimed, cs := engine.Discover(entries);
    InitResult(cs);
    if DistinctEntries(entries) {
      ScanFindsNodesOnce(cs, entries);
    }
  }

  /** What a caller may ask of an engine; init is a rescan of an empty one. */
  datatype Request =
    | PollNow(scripts: seq<seq<Answer>>, snaps: seq<Snapshots>)
    | Rescan(entries: seq<Entry>)
    | ShutDown

  ghost predicate GoodRequest(r: Request) {
    match r
    case PollNow(scripts, snaps) => GoodPoll(scripts, snaps)
    case Rescan(entries) => GoodEntries(entries)
    case ShutDown => true
  }

  method ServePoll(engine: Engine, scripts: seq<seq<Answer>>, snaps: seq<Snapshots>,
                   ghost trace: seq<Input>, ghost ops: seq<Op>) returns (action: nat)
    requires engine.Valid() && GoodPoll(scripts, snaps)
    requires IsRun(trace, ops, engine.size) && trace[|ops|] == engine.State()
    modifies engine`lens, engine`sources, engine`pending, engine.buffers, engine.kernel
    ensures engine.Valid() && IsRun(trace + [engine.State()], ops + [PollOp(scripts, snaps)], engine.size)
    ensures action == ActionOf(old(engine.State()), scripts, snaps, engine.size)
  {
    PollFollows(engine.State(), scripts, snaps, engine.size);
    var frame;
    action, frame := engine.Poll(scripts, snaps);
    RunGrows(trace, ops, engine.size, PollOp(scripts, snaps), engine.State());
  }

  method ServeRescan(engine: Engine, entries: seq<Entry>, ghost trace: seq<Input>, ghost ops: seq<Op>)
    returns (ghost cs: seq<Candidate>)
    requires engine.Valid() && GoodEntries(entries)
    requires IsRun(trace, ops, engine.size) && trace[|ops|] == engine.State()
    modifies engine`sources, engine.kernel
    ensures engine.Valid() && IsRun(trace + [engine.State()], ops + [RescanOp(cs)], engine.size)
    ensures GoodCandidates(cs)
  {
    var claimed;
    claimed, cs := engine.Discover(entries);
    RunGrows(trace, ops, engine.size, RescanOp(cs), engine.State());
  }

  method ServeShutdown(engine: Engine, ghost trace: seq<Input>, ghost ops: seq<Op>)
    requires engine.Valid() && IsRun(trace, ops, engine.size) && trace[|ops|] == engine.State()
    modifies engine`lens, engine`sources, engine`pending, engine.kernel
    ensures engine.Valid() && IsRun(trace + [engine.State()], ops + [ShutdownOp], engine.size)
  {
    engine.Shutdown();
    RunGrows(trace, ops, engine.size, ShutdownOp, engine.State());
  }

  /** One request carries the run and its log one step further. */
  method Serve(engine: Engine, request: Request, ghost trace: seq<Input>, ghost ops: seq<Op>,
               ghost handed: seq<nat>, ghost accepted: seq<seq<nat>>)
    returns (action: nat, ghost op: Op, ghost taken: seq<nat>)
    requires engine.Valid() && GoodRequest(request)
    requires IsRun(trace, ops, engine.size) && trace[|ops|] == engine.State()
    requires IsLog(trace, ops, engine.size, handed, accepted)
    modifies engine`lens, engine`sources, engine`pending, engine.buffers, engine.kernel
    ensures engine.Valid() && IsRun(trace + [engine.State()], ops + [op], engine.size)
    ensures IsLog(trace + [engine.State()], ops + [op], engine.size, handed + [action], accepted + [taken])
  {
    action, taken := 0, [];
    ghost var before := engine.State();
    match request {
      case PollNow(scripts, snaps) =>
        taken := AcceptedBy(engine.State(), scripts, engine.size);
        action := ServePoll(engine, scripts, snaps, trace, ops);
        op := PollOp(scripts, snaps);
      case Rescan(entries) =>
        ghost var cs := ServeRescan(engine, entries, trace, ops);
        op := RescanOp(cs);
      case ShutDown =>
        ServeShutdown(engine, trace, ops);
        op := ShutdownOp;
    }
    assert InputShape(before) && LogEntry(before, op, engine.size, action, taken);
    LogGrows(trace, ops, engine.size, handed, accepted, op, engine.State(), action, taken);
  }

  /** Any session that ends in a shutdown leaves no descriptor open. Every state in between is
      valid, so the open descriptors are those of the slots, and none is closed twice; and the
      states are a run, of which every theorem about runs holds. `handed` are the actions the cart got,
      one for each request, 0 for none. */
  method Session(kernel: Kernel, size: nat, requests: seq<Request>)
    returns (handed: seq<nat>, ghost trace: seq<Input>, ghost ops: seq<Op>, ghost accepted: seq<seq<nat>>)
    requires EventSize(size) && kernel.open == {} && forall k :: 0 <= k < |requests| ==> GoodRequest(requests[k])
    modifies kernel
    ensures kernel.open == {} && IsRun(trace, ops, size) && |ops| == |requests|
    ensures IsLog(trace, ops, size, handed, accepted)
  {
    var engine := new Engine(kernel, size);
    trace, ops, accepted := [engine.State()], [], [];
    handed := [];
    for k := 0 to |requests|
      invariant fresh(engine) && fresh(engine.buffers) && engine.kernel == kernel && engine.size == size
      invariant engine.Valid()
      invariant IsRun(trace, ops, size) && |ops| == k && trace[k] == engine.State()
      invariant IsLog(trace, ops, size, handed, accepted)
    {
      var action;
      ghost var op, taken;
      action, op, taken := Serve(engine, requests[k], trace, ops, handed, accepted);
      handed, accepted := handed + [action], accepted + [taken];
      trace, ops := trace + [engine.State()], ops + [op];
    }
    engine.Shutdown();
  }
}
