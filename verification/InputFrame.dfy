/** The merged view of all sources handed to the cart once per poll. */
module InputFrame {
  import opened AxisNormalize
  import opened InputEvents
  import opened Discovery

  const U32: nat := 0x1_0000_0000

  datatype Frame = Frame(
    axis: seq<int>, present: seq<bool>, owner: seq<nat>, held: set<nat>, mask: nat, generations: nat)

  /** Source `i` has a usable reading for axis `slot`. */
  predicate Reads(sources: seq<Source>, i: nat, slot: nat)
    requires i < |sources| && slot < AXES && |sources[i].axis| == AXES && |sources[i].axisValid| == AXES
  {
    sources[i].link != Absent && sources[i].axisValid[slot] && Accepted(sources[i].axis[slot])
  }

  ghost predicate Shapes(sources: seq<Source>) {
    |sources| == SLOTS && forall i :: 0 <= i < SLOTS ==> SourceShape(sources[i])
  }

  /** Among the first `n` sources the first with a usable reading owns the axis; without one the
      axis is absent and names the out-of-range owner. */
  ghost predicate AxisMerged(sources: seq<Source>, n: nat, slot: nat, axis: int, present: bool, owner: nat)
    requires Shapes(sources) && n <= SLOTS && slot < AXES
  {
    if present then
      && owner < n && Reads(sources, owner, slot)
      && axis == Normalize(sources[owner].lastRaw[slot], sources[owner].axis[slot])
      && (forall i :: 0 <= i < owner ==> !Reads(sources, i, slot))
    else axis == 0 && owner == SLOTS && (forall i :: 0 <= i < n ==> !Reads(sources, i, slot))
  }

  function Held(sources: seq<Source>): set<nat> {
    set i, code | 0 <= i < |sources| && sources[i].link != Absent && code in sources[i].held :: code
  }

  function Mask(sources: seq<Source>): nat {
    if sources == [] then 0
    else Mask(sources[..|sources| - 1]) +
         if sources[|sources| - 1].link != Absent then PowerOfTwo(|sources| - 1) else 0
  }

  function Generations(sources: seq<Source>): nat {
    if sources == [] then 0
    else (Generations(sources[..|sources| - 1]) +
          if sources[|sources| - 1].link != Absent then sources[|sources| - 1].generation else 0) % U32
  }

  ghost predicate Merged(sources: seq<Source>, n: nat, f: Frame)
    requires Shapes(sources) && n <= SLOTS
  {
    && |f.axis| == |f.present| == |f.owner| == AXES
    && (forall slot :: 0 <= slot < AXES ==>
          AxisMerged(sources, n, slot, f.axis[slot], f.present[slot], f.owner[slot]))
    && f.held == Held(sources[..n]) && f.mask == Mask(sources[..n]) && f.generations == Generations(sources[..n])
  }

  lemma HeldGrows(sources: seq<Source>, i: nat)
    requires i < |sources|
    ensures Held(sources[..i + 1]) == Held(sources[..i]) + (if sources[i].link != Absent then sources[i].held else {})
  {
    assert sources[..i + 1] == sources[..i] + [sources[i]];
  }

  lemma GenerationsSmall(sources: seq<Source>)
    ensures Generations(sources) < U32
  {
  }

  /** What source `i` adds to the parts that are merged over all sources. */
  lemma MergedParts(sources: seq<Source>, i: nat)
    requires i < |sources|
    ensures Held(sources[..i + 1]) == Held(sources[..i]) + (if sources[i].link != Absent then sources[i].held else {})
    ensures Mask(sources[..i + 1]) == Mask(sources[..i]) + (if sources[i].link != Absent then PowerOfTwo(i) else 0)
    ensures Generations(sources[..i + 1]) ==
            if sources[i].link != Absent then (Generations(sources[..i]) + sources[i].generation) % U32
            else Generations(sources[..i])
  {
    assert sources[..i + 1][..i] == sources[..i] && sources[..i + 1][i] == sources[i];
    HeldGrows(sources, i);
    GenerationsSmall(sources[..i]);
  }

  /** The inner loop: let source `i` fill the axes nobody before it owns. */
  method MergeAxes(sources: seq<Source>, i: nat, f0: Frame) returns (f: Frame)
    requires Shapes(sources) && i < SLOTS && sources[i].link != Absent
    requires |f0.axis| == |f0.present| == |f0.owner| == AXES
    requires forall slot :: 0 <= slot < AXES ==>
               AxisMerged(sources, i, slot, f0.axis[slot], f0.present[slot], f0.owner[slot])
    ensures |f.axis| == |f.present| == |f.owner| == AXES
    ensures forall slot :: 0 <= slot < AXES ==>
              AxisMerged(sources, i + 1, slot, f.axis[slot], f.present[slot], f.owner[slot])
    ensures f.held == f0.held && f.mask == f0.mask && f.generations == f0.generations
  {
    f := f0;
    for slot := 0 to AXES
      invariant |f.axis| == |f.present| == |f.owner| == AXES
      invariant f.held == f0.held && f.mask == f0.mask && f.generations == f0.generations
      invariant forall k :: 0 <= k < slot ==>
                  AxisMerged(sources, i + 1, k, f.axis[k], f.present[k], f.owner[k])
      invariant forall k :: slot <= k < AXES ==>
                  AxisMerged(sources, i, k, f.axis[k], f.present[k], f.owner[k])
    {
      if sources[i].axisValid[slot] {
        var normalized := Normalize(sources[i].lastRaw[slot], sources[i].axis[slot]);
        NormalizeInRange(sources[i].lastRaw[slot], sources[i].axis[slot]);
        if normalized != INVALID && !f.present[slot] {
          f := f.(axis := f.axis[slot := normalized], present := f.present[slot := true],
                  owner := f.owner[slot := i]);
        }
      }
    }
  }

  lemma SkipKeepsAxes(sources: seq<Source>, i: nat, f: Frame)
    requires Shapes(sources) && i < SLOTS && sources[i].link == Absent
    requires |f.axis| == |f.present| == |f.owner| == AXES
    requires forall slot :: 0 <= slot < AXES ==>
               AxisMerged(sources, i, slot, f.axis[slot], f.present[slot], f.owner[slot])
    ensures forall slot :: 0 <= slot < AXES ==>
              AxisMerged(sources, i + 1, slot, f.axis[slot], f.present[slot], f.owner[slot])
  {
  }

  method BuildFrame(sources: seq<Source>) returns (f: Frame)
    requires Shapes(sources)
    ensures Merged(sources, SLOTS, f)
  {
    f := Frame(seq(AXES, _ => 0), seq(AXES, _ => false), seq(AXES, _ => SLOTS), {}, 0, 0);
    assert sources[..0] == [];
    for i := 0 to SLOTS
      invariant Merged(sources, i, f)
    {
      MergedParts(sources, i);
      if sources[i].link != Absent {
        f := f.(mask := f.mask + PowerOfTwo(i), generations := (f.generations + sources[i].generation) % U32,
                held := f.held + sources[i].held);
        f := MergeAxes(sources, i, f);
      } else {
        SkipKeepsAxes(sources, i, f);
      }
    }
  }

  /** Slots filled in planned order, as init leaves them. */
  ghost predicate Filled(sources: seq<Source>, empty: seq<Source>, planned: seq<Candidate>) {
    && |sources| == |empty| == SLOTS && Ordered(planned)
    && (forall k :: 0 <= k < SLOTS ==> empty[k].fd < 0 && empty[k].link == Absent)
    && (forall k :: 0 <= k < SLOTS ==>
          if k < |planned| then JustClaimed(sources[k], planned[k]) else sources[k] == empty[k])
  }

  lemma InitFills(empty: seq<Source>, cs: seq<Candidate>)
    requires |empty| == SLOTS && forall k :: 0 <= k < SLOTS ==> empty[k].fd < 0 && empty[k].link == Absent
    requires GoodCandidates(cs)
    ensures Filled(ClaimAll(empty, Planned(cs)), empty, Planned(cs)) && |Planned(cs)| == |cs|
  {
    PlannedSorts(cs);
    forall k | 0 <= k < SLOTS
      ensures |Planned(cs)| == |cs|
      ensures if k < |Planned(cs)| then JustClaimed(ClaimAll(empty, Planned(cs))[k], Planned(cs)[k])
              else ClaimAll(empty, Planned(cs))[k] == empty[k]
    {
      InitHoldsTheBest(empty, cs, k);
    }
    InitHoldsTheBest(empty, cs, 0);
  }

  /** The owner of an axis is the first source that can read it. */
  lemma OwnerIsFirst(sources: seq<Source>, f: Frame, slot: nat, j: nat)
    requires Shapes(sources) && Merged(sources, SLOTS, f) && slot < AXES && j < SLOTS
    requires f.present[slot] && Reads(sources, j, slot)
    ensures f.owner[slot] <= j && Reads(sources, f.owner[slot], slot)
  {
    assert AxisMerged(sources, SLOTS, slot, f.axis[slot], f.present[slot], f.owner[slot]);
  }

  /** An axis is present exactly when some source can read it. */
  lemma PresentIffReadable(sources: seq<Source>, f: Frame, slot: nat)
    requires Shapes(sources) && Merged(sources, SLOTS, f) && slot < AXES
    ensures f.present[slot] <==> exists i :: 0 <= i < SLOTS && Reads(sources, i, slot)
    ensures -100 <= f.axis[slot] <= 100
  {
    assert AxisMerged(sources, SLOTS, slot, f.axis[slot], f.present[slot], f.owner[slot]);
    if f.present[slot] {
      var o := f.owner[slot];
      NormalizeInRange(sources[o].lastRaw[slot], sources[o].axis[slot]);
    }
  }

  // ----- what the frame depends on

  function Flag(s: Source): nat { if s.link != Absent then 1 else 0 }

  function GenerationPart(s: Source): nat { if s.link != Absent then s.generation else 0 }

  lemma FourPrefixes(sources: seq<Source>)
    requires |sources| == SLOTS
    ensures sources == sources[..3] + [sources[3]] && sources[..3] == sources[..2] + [sources[2]]
    ensures sources[..2] == sources[..1] + [sources[1]] && sources[..1] == [] + [sources[0]]
  {
  }

  lemma MaskSnoc(front: seq<Source>, s: Source)
    ensures Mask(front + [s]) == Mask(front) + if s.link != Absent then PowerOfTwo(|front|) else 0
  {
    assert (front + [s])[..|front|] == front;
  }

  lemma GenerationsSnoc(front: seq<Source>, s: Source)
    ensures Generations(front + [s]) == (Generations(front) + GenerationPart(s)) % U32
  {
    assert (front + [s])[..|front|] == front;
  }

  /** One bit of the mask for each slot, slot 0 the lowest. */
  lemma MaskIs(sources: seq<Source>)
    requires |sources| == SLOTS
    ensures Mask(sources) == Flag(sources[0]) + 2 * Flag(sources[1]) + 4 * Flag(sources[2]) + 8 * Flag(sources[3])
  {
    FourPrefixes(sources);
    MaskSnoc([], sources[0]);
    MaskSnoc(sources[..1], sources[1]);
    MaskSnoc(sources[..2], sources[2]);
    MaskSnoc(sources[..3], sources[3]);
    PowersInByte(1);
    PowersInByte(2);
    PowersInByte(3);
  }

  lemma SumWraps(a: nat, b: nat)
    ensures (a % U32 + b) % U32 == (a + b) % U32
  {
  }

  /** The generation total is the sum of the present sources' generations inside 32 bits. */
  lemma GenerationsAre(sources: seq<Source>)
    requires |sources| == SLOTS
    ensures Generations(sources) ==
            (GenerationPart(sources[0]) + GenerationPart(sources[1]) + GenerationPart(sources[2])
             + GenerationPart(sources[3])) % U32
  {
    FourPrefixes(sources);
    GenerationsSnoc([], sources[0]);
    GenerationsSnoc(sources[..1], sources[1]);
    GenerationsSnoc(sources[..2], sources[2]);
    GenerationsSnoc(sources[..3], sources[3]);
    var a, b, c, d := GenerationPart(sources[0]), GenerationPart(sources[1]), GenerationPart(sources[2]),
                      GenerationPart(sources[3]);
    SumWraps(a, b);
    SumWraps(a + b, c);
    SumWraps(a + b + c, d);
  }

  /** Two records that look the same in a frame: both absent, or both present with the same state, no
      matter whether one of them is waiting for a report. */
  predicate LooksLike(a: Source, b: Source) {
    && (a.link == Absent <==> b.link == Absent)
    && (a.link != Absent ==> a.generation == b.generation && a.held == b.held && a.axis == b.axis
                             && a.axisValid == b.axisValid && a.lastRaw == b.lastRaw)
  }

  lemma AxisLooksLike(sources: seq<Source>, others: seq<Source>, f: Frame, g: Frame, slot: nat)
    requires Shapes(sources) && Shapes(others) && Merged(sources, SLOTS, f) && Merged(others, SLOTS, g) && slot < AXES
    requires forall k :: 0 <= k < SLOTS ==> LooksLike(sources[k], others[k])
    ensures f.axis[slot] == g.axis[slot] && f.present[slot] == g.present[slot] && f.owner[slot] == g.owner[slot]
  {
    assert AxisMerged(sources, SLOTS, slot, f.axis[slot], f.present[slot], f.owner[slot]);
    assert AxisMerged(others, SLOTS, slot, g.axis[slot], g.present[slot], g.owner[slot]);
    forall k | 0 <= k < SLOTS ensures Reads(sources, k, slot) == Reads(others, k, slot) {
      assert LooksLike(sources[k], others[k]);
    }
  }

  lemma HeldLooksLike(sources: seq<Source>, others: seq<Source>, code: nat)
    requires |sources| == |others| && code in Held(sources)
    requires forall k :: 0 <= k < |sources| ==> LooksLike(sources[k], others[k])
    ensures code in Held(others)
  {
    var k :| 0 <= k < |sources| && sources[k].link != Absent && code in sources[k].held;
    assert LooksLike(sources[k], others[k]);
  }

  lemma TotalsLookLike(sources: seq<Source>, others: seq<Source>)
    requires |sources| == |others| == SLOTS
    requires forall k :: 0 <= k < SLOTS ==> LooksLike(sources[k], others[k])
    ensures Mask(sources) == Mask(others) && Generations(sources) == Generations(others)
  {
    MaskIs(sources);
    MaskIs(others);
    GenerationsAre(sources);
    GenerationsAre(others);
    forall k | 0 <= k < SLOTS
      ensures Flag(sources[k]) == Flag(others[k]) && GenerationPart(sources[k]) == GenerationPart(others[k])
    {
      assert LooksLike(sources[k], others[k]);
    }
  }

  /** The frame is determined by what the present sources hold: what an absent slot still records does
      not matter, nor which of the present ones are waiting. */
  lemma FrameShowsThePresent(sources: seq<Source>, others: seq<Source>, f: Frame, g: Frame)
    requires Shapes(sources) && Shapes(others) && Merged(sources, SLOTS, f) && Merged(others, SLOTS, g)
    requires forall k :: 0 <= k < SLOTS ==> LooksLike(sources[k], others[k])
    ensures f == g
  {
    forall slot | 0 <= slot < AXES
      ensures f.axis[slot] == g.axis[slot] && f.present[slot] == g.present[slot] && f.owner[slot] == g.owner[slot]
    {
      AxisLooksLike(sources, others, f, g, slot);
    }
    assert sources[..SLOTS] == sources && others[..SLOTS] == others;
    TotalsLookLike(sources, others);
    forall code ensures code in f.held <==> code in g.held {
      if code in f.held { HeldLooksLike(sources, others, code); }
      if code in g.held { HeldLooksLike(others, sources, code); }
    }
    assert f.axis == g.axis && f.present == g.present && f.owner == g.owner;
  }
}
