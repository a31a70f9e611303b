/** Integer axis calibration with a centre dead band. */
module AxisNormalize {
  import opened NatArithmetic

  const INT32_MIN := -0x8000_0000
  const INT32_MAX := 0x7fff_ffff
  const INVALID := INT32_MIN

  type Int32 = n: int | INT32_MIN <= n <= INT32_MAX

  datatype Range = Range(min: Int32, max: Int32, deadzonePct: Int32)

  /** Division of C: truncation toward zero. */
  function Trunc(a: int, b: int): int
    requires b > 0
  {
    if a < 0 then -(-a / b) else a / b
  }

  predicate Accepted(r: Range) { r.min < r.max && 0 <= r.deadzonePct <= 50 }

  /** The span is computed in 32 bits and must fit. */
  predicate SpanFits(r: Range) { r.max - r.min <= INT32_MAX }

  function Clamped(raw: Int32, r: Range): int
    requires r.min < r.max
  {
    if raw < r.min then r.min else if raw > r.max then r.max else raw
  }

  function Half(r: Range): int { Trunc((r.max - r.min) * r.deadzonePct, 200) }

  function Low(r: Range): int { r.min + Trunc(r.max - r.min, 2) - Half(r) }

  function High(r: Range): int { Low(r) + 2 * Half(r) }

  /** Each side of the dead band keeps room: neither divisor below can be zero when used. */
  lemma BandFits(r: Range)
    requires Accepted(r)
    ensures 0 <= Half(r) && 4 * Half(r) <= r.max - r.min
    ensures r.min <= Low(r) <= High(r) < r.max
    ensures r.max - r.min >= 2 ==> r.min < Low(r)
    ensures (r.max - r.min) % 2 == 0 ==> Low(r) - r.min == r.max - High(r)
  {
    var span := r.max - r.min;
    ProductMonotone(r.deadzonePct, 50, span);
    assert 0 <= span * r.deadzonePct <= 50 * span;
  }

  function Normalize(raw: Int32, r: Range): int
    requires SpanFits(r)
  {
    if !Accepted(r) then INVALID
    else
      BandFits(r);
      var clamped := Clamped(raw, r);
      if Low(r) <= clamped <= High(r) then 0
      else if clamped < Low(r) then Trunc((clamped - Low(r)) * 100, Low(r) - r.min)
      else Trunc((clamped - High(r)) * 100, r.max - High(r))
  }

  // ----- percent of a side

  /** Whole percent of `part` in `whole`. */
  function Percent(part: nat, whole: nat): int
    requires whole > 0
  {
    part * 100 / whole
  }

  lemma PercentMonotone(a: nat, b: nat, whole: nat)
    requires a <= b <= whole && whole > 0
    ensures 0 <= Percent(a, whole) <= Percent(b, whole) <= 100
    ensures Percent(whole, whole) == 100
  {
    QuotientMonotone(a * 100, b * 100, whole);
    QuotientMonotone(b * 100, whole * 100, whole);
    QuotientUnique(whole * 100, whole, 100);
  }

  /** Taking the same amount off both part and whole never raises the percentage. */
  lemma PercentShrinks(part: nat, whole: nat, off: nat)
    requires off <= part <= whole && off < whole
    ensures Percent(part - off, whole - off) <= Percent(part, whole)
  {
    var q := Percent(part - off, whole - off);
    PercentMonotone(part - off, part - off, whole - off);
    DivisionBounds((part - off) * 100, whole - off);
    assert q * whole == q * (whole - off) + q * off;
    ProductMonotone(q, 100, off);
    QuotientAtLeast(q, part * 100, whole);
  }

  /** The value in closed form: minus the percentage below the band, plus the one above. */
  lemma NormalizeIs(raw: Int32, r: Range)
    requires Accepted(r) && SpanFits(r)
    ensures var c := Clamped(raw, r);
            && r.min <= Low(r) <= High(r) < r.max
            && Normalize(raw, r) ==
               (if c < Low(r) then -Percent(Low(r) - c, Low(r) - r.min)
                else if c <= High(r) then 0
                else Percent(c - High(r), r.max - High(r)))
  {
    BandFits(r);
    var c := Clamped(raw, r);
    if c < Low(r) {
      assert -((c - Low(r)) * 100) == (Low(r) - c) * 100;
    }
  }

  // ----- what the decoder promises

  lemma SignedPercent(raw: Int32, r: Range)
    requires Accepted(r) && SpanFits(r)
    ensures -100 <= Normalize(raw, r) <= 100
    ensures Clamped(raw, r) <= Low(r) ==> Normalize(raw, r) <= 0
    ensures High(r) <= Clamped(raw, r) ==> Normalize(raw, r) >= 0
  {
    NormalizeIs(raw, r);
    var c := Clamped(raw, r);
    if c < Low(r) {
      PercentMonotone(Low(r) - c, Low(r) - r.min, Low(r) - r.min);
    } else if c > High(r) {
      PercentMonotone(c - High(r), r.max - High(r), r.max - High(r));
    }
  }

  /** Valid ranges give a percentage, invalid ones the sentinel, and the two never meet. */
  lemma NormalizeInRange(raw: Int32, r: Range)
    requires SpanFits(r)
    ensures Accepted(r) <==> -100 <= Normalize(raw, r) <= 100
    ensures Normalize(raw, r) == INVALID <==> r.max <= r.min || r.deadzonePct < 0 || r.deadzonePct > 50
  {
    if Accepted(r) { SignedPercent(raw, r); }
  }

  function Magnitude(n: int): nat { if n < 0 then -n else n }

  /** `half` is half the width of the dead band: the zone's percentage of half the span, cut to a whole
      number. */
  predicate HalfBand(r: Range, half: nat) {
    200 * half <= (r.max - r.min) * r.deadzonePct < 200 * (half + 1)
  }

  lemma TwoHundredths(n: nat, half: nat)
    ensures 200 * half <= n < 200 * (half + 1) <==> half == n / 200
  {
  }

  lemma SpanShare(span: nat, percent: nat)
    ensures span * percent >= 0
  {
  }

  lemma BandFromPercentage(r: Range)
    requires Accepted(r)
    ensures Half(r) >= 0
    ensures var centre := r.min + (r.max - r.min) / 2; Low(r) == centre - Half(r) && High(r) == centre + Half(r)
  {
    BandFits(r);
  }

  lemma HalfIsBand(r: Range, half: nat)
    requires Accepted(r)
    ensures HalfBand(r, half) <==> half == Half(r)
  {
    var n := (r.max - r.min) * r.deadzonePct;
    SpanShare(r.max - r.min, r.deadzonePct);
    TwoHundredths(n, half);
  }

  /** From range and percentage alone: a raw value of the range lies in the dead band exactly when its
      distance from the centre is at most the dead zone's percentage of half the span, and reads 0
      there. */
  lemma DeadBandExactlyWhen(raw: Int32, r: Range, centre: int)
    requires Accepted(r) && SpanFits(r) && r.min <= raw <= r.max && centre == r.min + (r.max - r.min) / 2
    ensures Low(r) <= raw <= High(r) <==>
            200 * Magnitude(raw - centre) <= (r.max - r.min) * r.deadzonePct
    ensures 200 * Magnitude(raw - centre) <= (r.max - r.min) * r.deadzonePct ==> Normalize(raw, r) == 0
  {
    BandFromPercentage(r);
    HalfIsBand(r, Half(r));
    NormalizeIs(raw, r);
  }

  lemma ReadingIs(raw: Int32, r: Range, low: int, high: int)
    requires Accepted(r) && SpanFits(r) && r.min <= raw <= r.max && low == Low(r) && high == High(r)
    ensures r.min <= low <= high < r.max
    ensures raw < low ==> r.min < low && Normalize(raw, r) == -((low - raw) * 100 / (low - r.min))
    ensures raw > high ==> Normalize(raw, r) == (raw - high) * 100 / (r.max - high)
  {
    NormalizeIs(raw, r);
  }

  /** Outside it the reading is the whole percentage of what the dead band leaves of that side: `half`
      of it is taken off both the distance from the centre and the length of the side. */
  lemma ReadingFromRange(raw: Int32, r: Range, centre: int, half: nat)
    requires Accepted(r) && SpanFits(r) && r.min <= raw <= r.max && centre == r.min + (r.max - r.min) / 2
    requires HalfBand(r, half) && Magnitude(raw - centre) > half
    ensures r.min <= centre - half && centre + half < r.max && (raw < centre ==> r.min < centre - half)
    ensures Normalize(raw, r) ==
            if raw < centre then -((centre - half - raw) * 100 / (centre - half - r.min))
            else (raw - (centre + half)) * 100 / (r.max - (centre + half))
  {
    BandFromPercentage(r);
    HalfIsBand(r, half);
    ReadingIs(raw, r, centre - half, centre + half);
  }

  /** Values outside the range read as its nearer end. */
  lemma OutsideReadsAsEnd(raw: Int32, r: Range)
    requires Accepted(r) && SpanFits(r)
    ensures raw < r.min ==> Normalize(raw, r) == Normalize(r.min, r)
    ensures raw > r.max ==> Normalize(raw, r) == Normalize(r.max, r)
  {
    BandFits(r);
  }

  /** Full throw reaches 100 at the top always, and -100 at the bottom exactly for spans above
      one: with span one the bottom is the centre. */
  lemma FullThrow(raw: Int32, r: Range)
    requires Accepted(r) && SpanFits(r)
    ensures raw >= r.max ==> Normalize(raw, r) == 100
    ensures raw <= r.min ==> (Normalize(raw, r) == -100 <==> r.max - r.min >= 2)
    ensures raw <= r.min && r.max - r.min == 1 ==> Normalize(raw, r) == 0
  {
    NormalizeIs(raw, r);
    BandFits(r);
    if raw >= r.max {
      PercentMonotone(0, 0, r.max - High(r));
    } else if raw <= r.min && r.min < Low(r) {
      PercentMonotone(0, 0, Low(r) - r.min);
    }
  }

  /** Moving the stick up never lowers the reading. */
  lemma NormalizeMonotone(raw: Int32, other: Int32, r: Range)
    requires Accepted(r) && SpanFits(r) && raw <= other
    ensures Normalize(raw, r) <= Normalize(other, r)
  {
    NormalizeIs(raw, r);
    NormalizeIs(other, r);
    SignedPercent(raw, r);
    SignedPercent(other, r);
    var a, b := Clamped(raw, r), Clamped(other, r);
    if b < Low(r) {
      PercentMonotone(Low(r) - b, Low(r) - a, Low(r) - r.min);
    } else if High(r) < a {
      PercentMonotone(a - High(r), b - High(r), r.max - High(r));
    }
  }

  /** For even spans the two sides mirror each other about the centre. */
  lemma NormalizeAntisymmetric(r: Range, off: int)
    requires Accepted(r) && SpanFits(r) && (r.max - r.min) % 2 == 0
    requires var centre := r.min + (r.max - r.min) / 2;
             INT32_MIN <= centre - off <= INT32_MAX && INT32_MIN <= centre + off <= INT32_MAX
    ensures var centre := r.min + (r.max - r.min) / 2;
            Normalize(centre + off, r) == -Normalize(centre - off, r)
  {
    var centre := r.min + (r.max - r.min) / 2;
    BandFits(r);
    NormalizeIs(centre + off, r);
    NormalizeIs(centre - off, r);
  }

  lemma BandGrows(r: Range, wider: Range)
    requires Accepted(r) && Accepted(wider)
    requires r.min == wider.min && r.max == wider.max && r.deadzonePct <= wider.deadzonePct
    ensures Half(r) <= Half(wider)
    ensures Low(wider) == Low(r) - (Half(wider) - Half(r))
    ensures High(wider) == High(r) + (Half(wider) - Half(r))
  {
    var span := r.max - r.min;
    ProductMonotone(r.deadzonePct, wider.deadzonePct, span);
    QuotientMonotone(span * r.deadzonePct, span * wider.deadzonePct, 200);
  }

  /** `m` is the percentage of the side that `c` lies on, the dead band being [low, high]. */
  predicate SidePercent(c: int, min: int, max: int, low: int, high: int, m: int) {
    && min <= low <= high < max && min <= c <= max
    && (c < low ==> m == Percent(low - c, low - min))
    && (low <= c <= high ==> m == 0)
    && (high < c ==> m == Percent(c - high, max - high))
  }

  lemma MagnitudeReads(raw: Int32, r: Range)
    requires Accepted(r) && SpanFits(r)
    ensures SidePercent(Clamped(raw, r), r.min, r.max, Low(r), High(r), Magnitude(Normalize(raw, r)))
  {
    NormalizeIs(raw, r);
    var c := Clamped(raw, r);
    if c < Low(r) {
      PercentMonotone(Low(r) - c, Low(r) - r.min, Low(r) - r.min);
    } else if High(r) < c {
      PercentMonotone(c - High(r), r.max - High(r), r.max - High(r));
    }
  }

  lemma WiderBandReadsLess(c: int, min: int, max: int, low: int, high: int, off: nat, m: nat, calm: nat)
    requires SidePercent(c, min, max, low, high, m) && SidePercent(c, min, max, low - off, high + off, calm)
    ensures calm <= m
  {
    if c < low - off {
      PercentShrinks(low - c, low - min, off);
    } else if high + off < c {
      PercentShrinks(c - high, max - high, off);
    }
  }

  /** A larger dead zone never makes a reading larger. */
  lemma WiderDeadZoneIsCalmer(raw: Int32, r: Range, wider: Range)
    requires Accepted(r) && Accepted(wider) && SpanFits(r)
    requires r.min == wider.min && r.max == wider.max && r.deadzonePct <= wider.deadzonePct
    ensures Magnitude(Normalize(raw, wider)) <= Magnitude(Normalize(raw, r))
  {
    BandGrows(r, wider);
    MagnitudeReads(raw, r);
    MagnitudeReads(raw, wider);
    WiderBandReadsLess(Clamped(raw, r), r.min, r.max, Low(r), High(r), Half(wider) - Half(r),
                       Magnitude(Normalize(raw, r)), Magnitude(Normalize(raw, wider)));
  }
}
