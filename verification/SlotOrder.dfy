/** What a slot's index says about the device in it. Sources store neither rank nor event number, so
    the candidate each slot was claimed for is kept beside them. */
module SlotOrder {
  import opened AxisNormalize
  import opened InputEvents
  import opened Discovery
  import opened InputFrame

  predicate HoldsDevice(s: Source, c: Candidate) {
    s.fd == c.fd && s.axis == c.prepared.axis && s.axisValid == c.prepared.axisValid
  }

  /** Every occupied slot `k` holds the device of candidate `seats[k]`. */
  ghost predicate Seated(sources: seq<Source>, seats: seq<Candidate>) {
    && |sources| == |seats| == SLOTS
    && forall k :: 0 <= k < SLOTS ==>
         && (sources[k].link != Absent ==> sources[k].fd >= 0)
         && (sources[k].fd >= 0 ==> HoldsDevice(sources[k], seats[k]))
  }

  // ----- laws about slots

  /** A later slot's device is not ahead in the plan (rank, then event number), is not of higher
      rank, or is not the same device node as an earlier slot's. */
  datatype Law = PlanOrder | RankOrder | OneSlotPerNode

  predicate Breaks(law: Law, later: Candidate, earlier: Candidate) {
    match law
    case PlanOrder => Ahead(later, earlier)
    case RankOrder => later.rank > earlier.rank
    case OneSlotPerNode => later.number == earlier.number
  }

  /** The law holds between any two occupied slots. */
  ghost predicate Upheld(law: Law, sources: seq<Source>, seats: seq<Candidate>)
    requires |sources| == |seats|
  {
    forall j, k :: 0 <= j < k < |sources| && sources[j].fd >= 0 && sources[k].fd >= 0 ==>
      !Breaks(law, seats[k], seats[j])
  }

  /** The law holds along a list of candidates. */
  ghost predicate Uniform(law: Law, cs: seq<Candidate>) {
    forall i, j :: 0 <= i < j < |cs| ==> !Breaks(law, cs[j], cs[i])
  }

  /** In plan order the owner of an axis in the frame is the best device that can read it; in rank
      order no device that can read it has a higher rank. */
  lemma OwnerIsBestRanked(law: Law, sources: seq<Source>, seats: seq<Candidate>, f: Frame, slot: nat, j: nat)
    requires Shapes(sources) && Seated(sources, seats) && Upheld(law, sources, seats) && !law.OneSlotPerNode?
    requires Merged(sources, SLOTS, f) && slot < AXES && f.present[slot] && j < SLOTS && Reads(sources, j, slot)
    ensures f.owner[slot] < SLOTS && !Breaks(law, seats[j], seats[f.owner[slot]])
  {
    OwnerIsFirst(sources, f, slot, j);
  }

  // ----- what planning does to them

  ghost function Numbers(cs: seq<Candidate>): set<nat> {
    set k | 0 <= k < |cs| :: cs[k].number
  }

  lemma NumbersGrow(cs: seq<Candidate>, c: Candidate)
    ensures Numbers(cs + [c]) == Numbers(cs) + {c.number}
    ensures Uniform(OneSlotPerNode, cs) && c.number !in Numbers(cs) ==> Uniform(OneSlotPerNode, cs + [c])
  {
    var longer := cs + [c];
    assert longer[|cs|] == c;
    forall n | n in Numbers(cs) ensures n in Numbers(longer) {
      var k :| 0 <= k < |cs| && cs[k].number == n;
      assert longer[k].number == n;
    }
    forall k | 0 <= k < |cs| ensures cs[k].number in Numbers(cs) {
    }
  }

  lemma {:induction false} InsertKeepsNodes(s: seq<Candidate>, x: Candidate)
    requires Uniform(OneSlotPerNode, s) && x.number !in Numbers(s)
    ensures Uniform(OneSlotPerNode, Insert(s, x)) && Numbers(Insert(s, x)) == Numbers(s) + {x.number}
  {
    if s == [] || !Ahead(x, s[|s| - 1]) {
      NumbersGrow(s, x);
    } else {
      var front, last := s[..|s| - 1], s[|s| - 1];
      assert s == front + [last];
      NumbersGrow(front, last);
      assert last.number !in Numbers(front);
      InsertKeepsNodes(front, x);
      NumbersGrow(Insert(front, x), last);
    }
  }

  lemma {:induction false} PlanKeepsNodes(cs: seq<Candidate>)
    requires Uniform(OneSlotPerNode, cs)
    ensures Uniform(OneSlotPerNode, Planned(cs)) && Numbers(Planned(cs)) == Numbers(cs)
  {
    if cs != [] {
      var front, last := cs[..|cs| - 1], cs[|cs| - 1];
      assert cs == front + [last];
      NumbersGrow(front, last);
      assert last.number !in Numbers(front);
      PlanKeepsNodes(front);
      InsertKeepsNodes(Planned(front), last);
    }
  }

  /** Every plan is in plan order and in rank order, and names each node once if the scan did. */
  lemma PlanIsUniform(law: Law, found: seq<Candidate>)
    requires law.OneSlotPerNode? ==> Uniform(law, found)
    ensures Uniform(law, Planned(found))
  {
    PlannedSorts(found);
    if law.OneSlotPerNode? {
      PlanKeepsNodes(found);
    }
  }

  // ----- rescans

  /** The candidates of the slots after a claim. */
  function Reseated(sources: seq<Source>, seats: seq<Candidate>, planned: seq<Candidate>): (next: seq<Candidate>)
    requires |sources| == |seats|
    ensures |next| == |seats|
    ensures forall k :: 0 <= k < |seats| ==>
              next[k] == if Takes(sources, |planned|, k) then Taken(sources, planned, k) else seats[k]
  {
    seq(|seats|, k requires 0 <= k < |seats| =>
      if Takes(sources, |planned|, k) then Taken(sources, planned, k) else seats[k])
  }

  /** Candidate `c` in slot `j` and device `d` in slot `k` keep the law. */
  predicate Agree(law: Law, c: Candidate, j: nat, d: Candidate, k: nat) {
    (k < j ==> !Breaks(law, c, d)) && (j < k ==> !Breaks(law, d, c))
  }

  /** Every candidate that will be claimed keeps the law with every device already there. */
  ghost predicate Mergeable(law: Law, sources: seq<Source>, seats: seq<Candidate>, planned: seq<Candidate>)
    requires |sources| == |seats|
  {
    forall j, k :: 0 <= j < |sources| && 0 <= k < |sources| && Takes(sources, |planned|, j) && sources[k].fd >= 0 ==>
      Agree(law, Taken(sources, planned, j), j, seats[k], k)
  }

  /** Which slots are occupied after a claim. */
  lemma OccupiedAfter(sources: seq<Source>, planned: seq<Candidate>, k: nat)
    requires k < |sources| && forall c :: 0 <= c < |planned| ==> planned[c].fd >= 0
    ensures ClaimAll(sources, planned)[k].fd >= 0 <==> sources[k].fd >= 0 || Takes(sources, |planned|, k)
  {
    ClaimsInOrder(sources, planned, k);
  }

  lemma ClaimedAgree(law: Law, sources: seq<Source>, planned: seq<Candidate>, j: nat, k: nat)
    requires j < k < |sources| && Uniform(law, planned)
    requires Takes(sources, |planned|, j) && Takes(sources, |planned|, k)
    ensures !Breaks(law, Taken(sources, planned, k), Taken(sources, planned, j))
  {
    FreeGrows(sources, j, k);
  }

  lemma PairKeepsLaw(law: Law, sources: seq<Source>, seats: seq<Candidate>, planned: seq<Candidate>, j: nat, k: nat)
    requires |sources| == |seats| && j < k < |sources| && Uniform(law, planned)
    requires forall c :: 0 <= c < |planned| ==> planned[c].fd >= 0
    requires Upheld(law, sources, seats) && Mergeable(law, sources, seats, planned)
    requires ClaimAll(sources, planned)[j].fd >= 0 && ClaimAll(sources, planned)[k].fd >= 0
    ensures !Breaks(law, Reseated(sources, seats, planned)[k], Reseated(sources, seats, planned)[j])
  {
    OccupiedAfter(sources, planned, j);
    OccupiedAfter(sources, planned, k);
    if Takes(sources, |planned|, j) && Takes(sources, |planned|, k) {
      ClaimedAgree(law, sources, planned, j, k);
    } else if Takes(sources, |planned|, j) {
      assert Agree(law, Taken(sources, planned, j), j, seats[k], k);
    } else if Takes(sources, |planned|, k) {
      assert Agree(law, Taken(sources, planned, k), k, seats[j], j);
    }
  }

  lemma UpheldBefore(law: Law, sources: seq<Source>, seats: seq<Candidate>, planned: seq<Candidate>)
    requires |sources| == |seats| && forall c :: 0 <= c < |planned| ==> planned[c].fd >= 0
    requires Upheld(law, ClaimAll(sources, planned), Reseated(sources, seats, planned))
    ensures Upheld(law, sources, seats) && Mergeable(law, sources, seats, planned)
  {
    var after, next := ClaimAll(sources, planned), Reseated(sources, seats, planned);
    forall j, k | 0 <= j < k < |sources| && sources[j].fd >= 0 && sources[k].fd >= 0
      ensures !Breaks(law, seats[k], seats[j])
    {
      OccupiedAfter(sources, planned, j);
      OccupiedAfter(sources, planned, k);
      assert !Breaks(law, next[k], next[j]);
    }
    forall j, k | 0 <= j < |sources| && 0 <= k < |sources| && Takes(sources, |planned|, j) && sources[k].fd >= 0
      ensures Agree(law, Taken(sources, planned, j), j, seats[k], k)
    {
      OccupiedAfter(sources, planned, j);
      OccupiedAfter(sources, planned, k);
      assert after[j].fd >= 0 && after[k].fd >= 0;
    }
  }

  /** After any claim a law holds if and only if it held before and every claimed candidate keeps it
      with every device already there: for rank order, none has a higher rank than a device in an
      earlier slot, and no device in a later slot has a higher rank than it; for one slot per node,
      none is the node of a connected device. */
  lemma UpheldExactlyWhen(law: Law, sources: seq<Source>, seats: seq<Candidate>, planned: seq<Candidate>)
    requires |sources| == |seats| && Uniform(law, planned) && forall c :: 0 <= c < |planned| ==> planned[c].fd >= 0
    ensures Upheld(law, ClaimAll(sources, planned), Reseated(sources, seats, planned)) <==>
            Upheld(law, sources, seats) && Mergeable(law, sources, seats, planned)
  {
    var after, next := ClaimAll(sources, planned), Reseated(sources, seats, planned);
    if Upheld(law, sources, seats) && Mergeable(law, sources, seats, planned) {
      forall j, k | 0 <= j < k < |sources| && after[j].fd >= 0 && after[k].fd >= 0
        ensures !Breaks(law, next[k], next[j])
      {
        PairKeepsLaw(law, sources, seats, planned, j, k);
      }
    }
    if Upheld(law, after, next) {
      UpheldBefore(law, sources, seats, planned);
    }
  }

  lemma ClaimKeepsSeats(sources: seq<Source>, seats: seq<Candidate>, planned: seq<Candidate>)
    requires Seated(sources, seats) && forall c :: 0 <= c < |planned| ==> planned[c].fd >= 0
    ensures Seated(ClaimAll(sources, planned), Reseated(sources, seats, planned))
  {
    forall k | 0 <= k < SLOTS
      ensures var s, c := ClaimAll(sources, planned)[k], Reseated(sources, seats, planned)[k];
              (s.link != Absent ==> s.fd >= 0) && (s.fd >= 0 ==> HoldsDevice(s, c))
    {
      ClaimsInOrder(sources, planned, k);
    }
  }

  /** A slot that keeps its device or loses it keeps seats and laws. */
  lemma LosingKeepsLaw(law: Law, sources: seq<Source>, next: seq<Source>, seats: seq<Candidate>)
    requires Seated(sources, seats) && |next| == SLOTS
    requires forall k :: 0 <= k < SLOTS ==>
               && next[k].axis == sources[k].axis && next[k].axisValid == sources[k].axisValid
               && (next[k].fd == sources[k].fd || next[k].fd < 0)
               && (next[k].link != Absent ==> sources[k].link != Absent && next[k].fd == sources[k].fd)
    ensures Seated(next, seats)
    ensures Upheld(law, sources, seats) ==> Upheld(law, next, seats)
  {
  }

  // ----- rescans that break the laws

  /** A pad with one calibrated axis. */
  function Pad(fd: int, rank: nat, number: nat): Candidate {
    Candidate(fd, rank, number,
              Source(-1, Absent, 0, {}, seq(AXES, _ => Range(0, 255, 15)), seq(AXES, k => k == 0), seq(AXES, _ => 0)))
  }

  lemma PadShape(fd: int, rank: nat, number: nat)
    ensures SourceShape(Connect(Pad(fd, rank, number))) && Accepted(Pad(fd, rank, number).prepared.axis[0])
  {
  }

  /** With slot 0 taken and the rest free, two candidates get slots 1 and 2. */
  lemma TwoMore(pad: Candidate, first: Candidate, second: Candidate, free: Source, k: nat)
    requires pad.fd >= 0 && first.fd >= 0 && second.fd >= 0 && free.fd < 0 && k < SLOTS
    ensures var sources := [Connect(pad), free, free, free];
            && ClaimAll(sources, [first, second])[k] ==
               (if k == 1 then Connect(first) else if k == 2 then Connect(second) else sources[k])
            && (Takes(sources, 2, k) <==> k == 1 || k == 2)
            && (k == 1 ==> Taken(sources, [first, second], k) == first)
            && (k == 2 ==> Taken(sources, [first, second], k) == second)
  {
    var sources := [Connect(pad), free, free, free];
    NoFreeSlots(sources[..1]);
    assert sources[..2][..1] == sources[..1] && sources[..3][..2] == sources[..2];
    assert FreeSlots(sources[..2]) == 1 && FreeSlots(sources[..3]) == 2;
    ClaimsInOrder(sources, [first, second], k);
  }

  lemma PlanOfTwo(a: Candidate, b: Candidate)
    ensures Planned([a, b]) == if Ahead(b, a) then [b, a] else [a, b]
  {
    assert [a, b][..1] == [a] && [a][..0] == [];
    assert Planned([a]) == [a];
    assert Insert([], b) == [b];
  }

  lemma FirstPadOwns(sources: seq<Source>, f: Frame)
    requires Shapes(sources) && Reads(sources, 0, 0)
    ensures Merged(sources, SLOTS, f) ==> f.present[0] && f.owner[0] == 0
  {
    if Merged(sources, SLOTS, f) {
      PresentIffReadable(sources, f, 0);
      OwnerIsFirst(sources, f, 0, 0);
    }
  }

  /** The slots after a rescan that finds `again` and `other` beside the one connected `pad`. */
  lemma AfterTwo(pad: Candidate, again: Candidate, other: Candidate, free: Source)
    requires pad.fd >= 0 && again.fd >= 0 && other.fd >= 0 && free.fd < 0 && Ahead(other, again)
    ensures var sources, seats := [Connect(pad), free, free, free], [pad, pad, pad, pad];
            var planned := Planned([again, other]);
            && ClaimAll(sources, planned) == [Connect(pad), Connect(other), Connect(again), free]
            && Reseated(sources, seats, planned) == [pad, other, again, pad]
  {
    PlanOfTwo(again, other);
    TwoMore(pad, other, again, free, 0);
    TwoMore(pad, other, again, free, 1);
    TwoMore(pad, other, again, free, 2);
    TwoMore(pad, other, again, free, 3);
  }

  /** A rank-2 pad sits in slot 0 and nothing else is connected. A rescan finds that pad's node again,
      reopened, and a rank-4 pad. The better pad gets slot 1, the old node a second slot, and every
      frame still gives the axis to the worse pad. */
  lemma RescanCanMisrank(free: Source, f: Frame)
    requires SourceShape(free) && free.fd < 0 && free.link == Absent
    ensures var pad, again, better := Pad(3, 2, 0), Pad(4, 2, 0), Pad(5, 4, 1);
            var sources, seats := [Connect(pad), free, free, free], [pad, pad, pad, pad];
            var planned := Planned([again, better]);
            var after, next := ClaimAll(sources, planned), Reseated(sources, seats, planned);
            && Seated(sources, seats) && (forall law :: Upheld(law, sources, seats))
            && Shapes(after) && Reads(after, 0, 0) && Reads(after, 1, 0)
            && !Upheld(RankOrder, after, next) && !Upheld(OneSlotPerNode, after, next)
            && (Merged(after, SLOTS, f) ==> f.present[0] && f.owner[0] == 0)
  {
    var pad, again, better := Pad(3, 2, 0), Pad(4, 2, 0), Pad(5, 4, 1);
    AfterTwo(pad, again, better, free);
    var after, next := [Connect(pad), Connect(better), Connect(again), free], [pad, better, again, pad];
    PadShape(3, 2, 0);
    PadShape(4, 2, 0);
    PadShape(5, 4, 1);
    assert Breaks(RankOrder, next[1], next[0]) && Breaks(OneSlotPerNode, next[2], next[0]);
    FirstPadOwns(after, f);
  }

  /** Rank order and plan order part: a rank-2 pad with event number 5 is connected, and a rescan
      finds it again and another of equal rank with number 3. Ranks stay in order, the plan does not. */
  lemma EqualRanksStayInOrder(free: Source)
    requires free.fd < 0
    ensures var pad, again, other := Pad(3, 2, 5), Pad(4, 2, 5), Pad(5, 2, 3);
            var sources, seats := [Connect(pad), free, free, free], [pad, pad, pad, pad];
            var planned := Planned([again, other]);
            var after, next := ClaimAll(sources, planned), Reseated(sources, seats, planned);
            Upheld(RankOrder, after, next) && !Upheld(PlanOrder, after, next)
  {
    var pad, again, other := Pad(3, 2, 5), Pad(4, 2, 5), Pad(5, 2, 3);
    AfterTwo(pad, again, other, free);
    var next := [pad, other, again, pad];
    assert Breaks(PlanOrder, next[1], next[0]);
  }
}
