/** Ranked discovery: the order in which candidates are planned and the slots they claim. */
module Discovery {
  import opened InputEvents

  const CANDIDATE_CAP: nat := 16
  const SLOTS: nat := 4

  /** An admitted device node: open descriptor, rank, event number and probed record. */
  datatype Candidate = Candidate(fd: int, rank: nat, number: nat, prepared: Source)

  ghost predicate GoodCandidates(cs: seq<Candidate>) {
    forall k :: 0 <= k < |cs| ==> cs[k].fd >= 0 && Prepared(cs[k].prepared)
  }

  /** Higher rank first, then lower event number. */
  predicate Ahead(a: Candidate, b: Candidate) {
    a.rank > b.rank || (a.rank == b.rank && a.number < b.number)
  }

  predicate SameKey(a: Candidate, rank: nat, number: nat) { a.rank == rank && a.number == number }

  // ----- insertion order as a function

  function Insert(s: seq<Candidate>, x: Candidate): seq<Candidate> {
    if s == [] || !Ahead(x, s[|s| - 1]) then s + [x]
    else Insert(s[..|s| - 1], x) + [s[|s| - 1]]
  }

  function Planned(s: seq<Candidate>): seq<Candidate> {
    if s == [] then [] else Insert(Planned(s[..|s| - 1]), s[|s| - 1])
  }

  lemma InsertSkips(s: seq<Candidate>, j: nat, key: Candidate)
    requires 0 < j <= |s| && Ahead(key, s[j - 1])
    ensures Insert(s[..j], key) + s[j..] == Insert(s[..j - 1], key) + s[j - 1..]
  {
    assert s[..j][..j - 1] == s[..j - 1] && s[..j][j - 1] == s[j - 1];
    assert [s[j - 1]] + s[j..] == s[j - 1..];
  }

  lemma InsertStops(s: seq<Candidate>, j: nat, key: Candidate)
    requires j <= |s| && (j > 0 ==> !Ahead(key, s[j - 1]))
    ensures Insert(s[..j], key) + s[j..] == s[..j] + [key] + s[j..]
  {
  }

  lemma Assembled(a: seq<Candidate>, s: seq<Candidate>, key: Candidate, j: nat)
    requires j <= |s| < |a| && a[j] == key
    requires forall k :: 0 <= k < j ==> a[k] == s[k]
    requires forall k :: j < k <= |s| ==> a[k] == s[k - 1]
    ensures a[..|s| + 1] == s[..j] + [key] + s[j..]
  {
  }

  /** Shift larger neighbours up and drop the key into the gap. */
  method InsertAt(a: array<Candidate>, i: nat)
    requires i < a.Length
    modifies a
    ensures a[..i + 1] == Insert(old(a[..i]), old(a[i])) && a[i + 1..] == old(a[i + 1..])
  {
    ghost var s, rest := a[..i], a[i + 1..];
    var key, j := a[i], i;
    assert s[..i] == s && s[i..] == [];
    while j > 0 && Ahead(key, a[j - 1])
      invariant 0 <= j <= i && a[i + 1..] == rest
      invariant forall k :: 0 <= k < j ==> a[k] == s[k]
      invariant forall k :: j < k <= i ==> a[k] == s[k - 1]
      invariant Insert(s, key) == Insert(s[..j], key) + s[j..]
    {
      InsertSkips(s, j, key);
      a[j] := a[j - 1];
      j := j - 1;
    }
    InsertStops(s, j, key);
    a[j] := key;
    Assembled(a[..], s, key, j);
  }

  /** The insertion sort of the source, in place on the first `count` candidates. */
  method Plan(a: array<Candidate>, count: nat) returns (kept: nat)
    requires count <= a.Length
    modifies a
    ensures a[..count] == Planned(old(a[..count])) && a[count..] == old(a[count..])
    ensures kept == if count > CANDIDATE_CAP then CANDIDATE_CAP else count
  {
    ghost var was := a[..];
    for i := 0 to count
      invariant a[..i] == Planned(was[..i]) && a[i..] == was[i..]
    {
      assert a[i] == a[i..][0] == was[i];
      assert was[..i + 1][..i] == was[..i];
      InsertAt(a, i);
      assert a[i + 1..] == was[i..][1..] == was[i + 1..];
    }
    kept := if count > CANDIDATE_CAP then CANDIDATE_CAP else count;
  }

  // ----- sorted, stable, and nothing else

  ghost predicate Ordered(s: seq<Candidate>) {
    forall i, j :: 0 <= i < j < |s| ==> !Ahead(s[j], s[i])
  }

  /** The candidates of one key, in order. */
  function Group(s: seq<Candidate>, rank: nat, number: nat): seq<Candidate> {
    if s == [] then []
    else Group(s[..|s| - 1], rank, number) + if SameKey(s[|s| - 1], rank, number) then [s[|s| - 1]] else []
  }

  lemma {:induction false} InsertElements(s: seq<Candidate>, x: Candidate)
    ensures multiset(Insert(s, x)) == multiset(s) + multiset{x}
    ensures forall i :: 0 <= i < |Insert(s, x)| ==> Insert(s, x)[i] == x || Insert(s, x)[i] in s
  {
    if s != [] && Ahead(x, s[|s| - 1]) {
      var n := |s| - 1;
      InsertElements(s[..n], x);
      assert s == s[..n] + [s[n]];
    }
  }

  lemma {:induction false} InsertOrdered(s: seq<Candidate>, x: Candidate)
    requires Ordered(s)
    ensures Ordered(Insert(s, x))
  {
    if s != [] && Ahead(x, s[|s| - 1]) {
      var n := |s| - 1;
      var t := Insert(s[..n], x);
      InsertOrdered(s[..n], x);
      InsertElements(s[..n], x);
      forall i | 0 <= i < |t| ensures !Ahead(s[n], t[i]) {
        if t[i] != x {
          var j :| 0 <= j < n && s[j] == t[i];
        }
      }
    } else if s != [] {
      forall i | 0 <= i < |s| ensures !Ahead(x, s[i]) {
        assert i < |s| - 1 ==> !Ahead(s[|s| - 1], s[i]);
      }
    }
  }

  lemma {:induction false} InsertGroup(s: seq<Candidate>, x: Candidate, rank: nat, number: nat)
    ensures Group(Insert(s, x), rank, number) == Group(s + [x], rank, number)
  {
    if s != [] && Ahead(x, s[|s| - 1]) {
      var n := |s| - 1;
      var t := Insert(s[..n], x);
      InsertGroup(s[..n], x, rank, number);
      assert (t + [s[n]])[..|t|] == t;
      assert (s[..n] + [x])[..n] == s[..n];
      assert (s + [x])[..|s|] == s;
    }
  }

  lemma {:induction false} GroupSnoc(s: seq<Candidate>, t: seq<Candidate>, x: Candidate, rank: nat, number: nat)
    requires Group(s, rank, number) == Group(t, rank, number)
    ensures Group(s + [x], rank, number) == Group(t + [x], rank, number)
  {
    assert (s + [x])[..|s|] == s && (t + [x])[..|t|] == t;
  }

  lemma {:induction false} PlannedElements(s: seq<Candidate>)
    ensures multiset(Planned(s)) == multiset(s)
  {
    if s != [] {
      var front, last := s[..|s| - 1], s[|s| - 1];
      PlannedElements(front);
      InsertElements(Planned(front), last);
      assert s == front + [last];
    }
  }

  lemma {:induction false} PlannedOrdered(s: seq<Candidate>)
    ensures Ordered(Planned(s))
  {
    if s != [] {
      PlannedOrdered(s[..|s| - 1]);
      InsertOrdered(Planned(s[..|s| - 1]), s[|s| - 1]);
    }
  }

  /** Planning yields a permutation, by falling rank and, within a rank, by rising event number. */
  lemma PlannedSorts(s: seq<Candidate>)
    ensures Ordered(Planned(s)) && multiset(Planned(s)) == multiset(s)
    ensures forall i, j :: 0 <= i < j < |Planned(s)| ==>
              var a, b := Planned(s)[i], Planned(s)[j]; a.rank >= b.rank && (a.rank == b.rank ==> a.number <= b.number)
  {
    PlannedElements(s);
    PlannedOrdered(s);
  }

  /** What holds of every candidate holds of every planned one. */
  lemma PlannedMember(s: seq<Candidate>, k: nat)
    requires k < |Planned(s)|
    ensures |Planned(s)| == |s| && Planned(s)[k] in s
  {
    PlannedSorts(s);
    assert |multiset(Planned(s))| == |multiset(s)|;
    assert Planned(s)[k] in multiset(Planned(s));
  }

  lemma PlanKeepsGood(cs: seq<Candidate>)
    requires GoodCandidates(cs)
    ensures GoodCandidates(Planned(cs))
  {
    forall k | 0 <= k < |Planned(cs)| ensures Planned(cs)[k].fd >= 0 && Prepared(Planned(cs)[k].prepared) {
      PlannedMember(cs, k);
    }
  }

  /** Planning is stable: candidates of equal rank and number keep their order. */
  lemma {:induction false} PlannedIsStable(s: seq<Candidate>, rank: nat, number: nat)
    ensures Group(Planned(s), rank, number) == Group(s, rank, number)
  {
    if s != [] {
      var front, x := s[..|s| - 1], s[|s| - 1];
      PlannedIsStable(front, rank, number);
      InsertGroup(Planned(front), x, rank, number);
      GroupSnoc(Planned(front), front, x, rank, number);
      assert s == front + [x];
    }
  }

  lemma {:induction false} GroupMember(s: seq<Candidate>, i: nat)
    requires i < |s|
    ensures s[i] in Group(s, s[i].rank, s[i].number)
  {
    if i < |s| - 1 { GroupMember(s[..|s| - 1], i); }
  }

  lemma {:induction false} GroupComes(s: seq<Candidate>, x: Candidate, rank: nat, number: nat)
    requires x in Group(s, rank, number)
    ensures x in s && SameKey(x, rank, number)
  {
    if x in Group(s[..|s| - 1], rank, number) {
      GroupComes(s[..|s| - 1], x, rank, number);
      assert forall y :: y in s[..|s| - 1] ==> y in s;
    }
  }

  lemma NothingBehindTheLast(s: seq<Candidate>, x: Candidate)
    requires Ordered(s) && x in s
    ensures !Ahead(s[|s| - 1], x)
  {
    var i :| 0 <= i < |s| && s[i] == x;
  }

  lemma GroupEndsInLast(s: seq<Candidate>)
    requires s != []
    ensures var x := s[|s| - 1];
            var g := Group(s, x.rank, x.number);
            g != [] && g[|g| - 1] == x
  {
  }

  /** Both end in the same candidate: the keys cannot be ahead of each other, and within a key
      the groups agree. */
  lemma LastIsLast(s: seq<Candidate>, t: seq<Candidate>)
    requires s != [] && t != [] && Ordered(s) && Ordered(t)
    requires var x, y := s[|s| - 1], t[|t| - 1];
             && Group(s, x.rank, x.number) == Group(t, x.rank, x.number)
             && Group(s, y.rank, y.number) == Group(t, y.rank, y.number)
    ensures s[|s| - 1] == t[|t| - 1]
  {
    var x := s[|s| - 1];
    GroupMember(s, |s| - 1);
    GroupComes(t, x, x.rank, x.number);
    var y := t[|t| - 1];
    GroupMember(t, |t| - 1);
    GroupComes(s, y, y.rank, y.number);
    NothingBehindTheLast(s, y);
    NothingBehindTheLast(t, x);
    GroupEndsInLast(s);
    GroupEndsInLast(t);
  }

  /** Sorted and stable fix the result: no other sequence has both properties. */
  lemma {:induction false} PlanIsUnique(s: seq<Candidate>, t: seq<Candidate>)
    requires Ordered(s) && Ordered(t)
    requires forall rank, number :: Group(s, rank, number) == Group(t, rank, number)
    ensures s == t
    decreases |s|
  {
    if s == [] {
      if t != [] {
        GroupMember(t, 0);
      }
    } else {
      GroupMember(s, 0);
      assert Group(s, s[0].rank, s[0].number) == Group(t, s[0].rank, s[0].number);
      assert t != [];
      LastIsLast(s, t);
      var m, n := |s| - 1, |t| - 1;
      forall rank, number ensures Group(s[..m], rank, number) == Group(t[..n], rank, number) {
        var g, h := Group(s, rank, number), Group(t, rank, number);
        assert g == h;
        if SameKey(s[m], rank, number) {
          assert Group(s[..m], rank, number) == g[..|g| - 1] == h[..|h| - 1] == Group(t[..n], rank, number);
        } else {
          assert Group(s[..m], rank, number) == g && Group(t[..n], rank, number) == h;
        }
      }
      PlanIsUnique(s[..m], t[..n]);
    }
  }

  // ----- claiming slots

  function FirstFree(sources: seq<Source>): (slot: Option<nat>)
    ensures slot.Some? ==> slot.value < |sources| && sources[slot.value].fd < 0
    ensures slot.Some? ==> forall i :: 0 <= i < slot.value ==> sources[i].fd >= 0
    ensures slot.None? ==> forall i :: 0 <= i < |sources| ==> sources[i].fd >= 0
  {
    if sources == [] then None
    else if sources[0].fd < 0 then Some(0)
    else match FirstFree(sources[1..]) case Some(i) => Some(i + 1) case None => None
  }

  /** The source record a claimed candidate becomes. */
  function Connect(c: Candidate): Source {
    c.prepared.(fd := c.fd, link := Connected, generation := (c.prepared.generation + 1) % 0x1_0000_0000)
  }

  /** The record of a slot right after it was claimed: the candidate's descriptor, connected, no key
      held, first generation, and the axes as the probe left them. */
  ghost predicate JustClaimed(s: Source, c: Candidate) {
    s == Source(c.fd, Connected, 1, {}, c.prepared.axis, c.prepared.axisValid, c.prepared.lastRaw)
  }

  function ClaimAll(sources: seq<Source>, cs: seq<Candidate>): (claimed: seq<Source>)
    ensures |claimed| == |sources|
    decreases |cs|
  {
    if cs == [] then sources
    else match FirstFree(sources)
      case Some(slot) => ClaimAll(sources[slot := Connect(cs[0])], cs[1..])
      case None => ClaimAll(sources, cs[1..])
  }

  function FreeSlots(sources: seq<Source>): nat {
    if sources == [] then 0
    else FreeSlots(sources[..|sources| - 1]) + if sources[|sources| - 1].fd < 0 then 1 else 0
  }

  lemma {:induction false} FillSlot(sources: seq<Source>, slot: nat, s: Source)
    requires slot < |sources| && sources[slot].fd < 0 && s.fd >= 0
    ensures FreeSlots(sources) == FreeSlots(sources[slot := s]) + 1
    decreases |sources|
  {
    var front, next := sources[..|sources| - 1], sources[slot := s];
    if slot < |front| {
      FillSlot(front, slot, s);
      assert next[..|next| - 1] == front[slot := s];
    } else {
      assert next[..|next| - 1] == front;
    }
  }

  lemma {:induction false} NoFreeSlots(sources: seq<Source>)
    requires forall i :: 0 <= i < |sources| ==> sources[i].fd >= 0
    ensures FreeSlots(sources) == 0
  {
    if sources != [] { NoFreeSlots(sources[..|sources| - 1]); }
  }

  function Fewer(a: nat, b: nat): nat { if a < b then a else b }

  /** Slot `k` takes one of `count` candidates: it is free, and free slots before it leave one. */
  predicate Takes(sources: seq<Source>, count: nat, k: nat)
    requires k < |sources|
  {
    sources[k].fd < 0 && FreeSlots(sources[..k]) < count
  }

  /** The candidate slot `k` takes: as many come before it as there are free slots before `k`. */
  function Taken(sources: seq<Source>, cs: seq<Candidate>, k: nat): Candidate
    requires k < |sources| && Takes(sources, |cs|, k)
  {
    cs[FreeSlots(sources[..k])]
  }

  /** The first free slot takes the first candidate, and the others what they took anyway. */
  lemma TakesRest(sources: seq<Source>, cs: seq<Candidate>, slot: nat, k: nat)
    requires slot < |sources| && k < |sources| && cs != [] && cs[0].fd >= 0 && sources[slot].fd < 0
    requires forall i :: 0 <= i < slot ==> sources[i].fd >= 0
    ensures var next := sources[slot := Connect(cs[0])];
            if k == slot then Takes(sources, |cs|, k) && Taken(sources, cs, k) == cs[0] && !Takes(next, |cs| - 1, k)
            else Takes(sources, |cs|, k) == Takes(next, |cs| - 1, k) &&
                 (Takes(sources, |cs|, k) ==> Taken(sources, cs, k) == Taken(next, cs[1..], k))
  {
    var next := sources[slot := Connect(cs[0])];
    if k <= slot {
      NoFreeSlots(sources[..k]);
    } else {
      assert next[..k] == sources[..k][slot := Connect(cs[0])];
      FillSlot(sources[..k], slot, Connect(cs[0]));
    }
  }

  /** Claiming, slot by slot: the free slots take the candidates in order, and no other slot changes. */
  lemma {:induction false} ClaimsInOrder(sources: seq<Source>, cs: seq<Candidate>, k: nat)
    requires k < |sources| && forall j :: 0 <= j < |cs| ==> cs[j].fd >= 0
    ensures ClaimAll(sources, cs)[k] == if Takes(sources, |cs|, k) then Connect(Taken(sources, cs, k)) else sources[k]
    decreases |cs|
  {
    if cs != [] {
      match FirstFree(sources)
      case Some(slot) =>
        TakesRest(sources, cs, slot, k);
        ClaimsInOrder(sources[slot := Connect(cs[0])], cs[1..], k);
      case None =>
        ClaimsInOrder(sources, cs[1..], k);
    }
  }

  /** Slot `k` after a claim: the device of the candidate it took, or what it was. */
  ghost predicate Claimed(sources: seq<Source>, cs: seq<Candidate>, next: seq<Source>, k: nat)
    requires k < |sources| == |next|
  {
    if Takes(sources, |cs|, k) then JustClaimed(next[k], Taken(sources, cs, k)) else next[k] == sources[k]
  }

  /** Claiming connects: every slot taken holds its candidate's device, ready to be read, and every other
      slot is as it was. */
  lemma ClaimConnects(sources: seq<Source>, cs: seq<Candidate>)
    requires GoodCandidates(cs)
    ensures forall k :: 0 <= k < |sources| ==> Claimed(sources, cs, ClaimAll(sources, cs), k)
  {
    forall k | 0 <= k < |sources| ensures Claimed(sources, cs, ClaimAll(sources, cs), k) {
      ClaimsInOrder(sources, cs, k);
    }
  }

  lemma {:induction false} AllFree(sources: seq<Source>)
    requires forall i :: 0 <= i < |sources| ==> sources[i].fd < 0
    ensures FreeSlots(sources) == |sources|
  {
    if sources != [] { AllFree(sources[..|sources| - 1]); }
  }

  /** A later free slot has more free slots before it. */
  lemma {:induction false} FreeGrows(sources: seq<Source>, j: nat, k: nat)
    requires j < k <= |sources|
    ensures FreeSlots(sources[..j]) <= FreeSlots(sources[..k])
    ensures sources[j].fd < 0 ==> FreeSlots(sources[..j]) < FreeSlots(sources[..k])
    decreases k
  {
    assert sources[..k][..k - 1] == sources[..k - 1];
    if j < k - 1 {
      FreeGrows(sources, j, k - 1);
    }
  }

  /** After init the occupied slots are exactly the best candidates, best first: slot `i` holds the
      `i`-th of the planned order, and slots beyond the candidates stay empty. */
  lemma InitHoldsTheBest(empty: seq<Source>, cs: seq<Candidate>, i: nat)
    requires |empty| == SLOTS && forall j :: 0 <= j < SLOTS ==> empty[j].fd < 0
    requires i < SLOTS && GoodCandidates(cs)
    ensures |Planned(cs)| == |cs|
    ensures if i < |cs| then JustClaimed(ClaimAll(empty, Planned(cs))[i], Planned(cs)[i])
            else ClaimAll(empty, Planned(cs))[i] == empty[i]
    ensures forall j :: i < j < |cs| ==> !Ahead(Planned(cs)[j], Planned(cs)[i])
  {
    PlannedSorts(cs);
    assert |multiset(Planned(cs))| == |multiset(cs)|;
    PlanKeepsGood(cs);
    AllFree(empty[..i]);
    ClaimConnects(empty, Planned(cs));
    assert Claimed(empty, Planned(cs), ClaimAll(empty, Planned(cs)), i);
  }
}
