/** The flash checker: flash pairs, the worst one-second window, and the verdict over regions. */
module FlashCheck {

  const FLASH_DELTA: real := 0.10
  const DARK_LIMIT: real := 0.80
  const FLASHES_PER_SECOND: nat := 3

  function Delta(first: real, second: real): (delta: real)
    ensures delta >= first - second && delta >= second - first
    ensures delta == first - second || delta == second - first
  {
    if second < first then first - second else second - first
  }

  predicate IsFlashPair(first: real, second: real) {
    Delta(first, second) >= FLASH_DELTA && (if first < second then first else second) < DARK_LIMIT
  }

  /** The order of two frames does not matter, and they are a flash pair exactly when one is darker than
      0.8 and the other at least 0.1 brighter. */
  lemma FlashPairExactlyWhen(first: real, second: real)
    ensures IsFlashPair(first, second) == IsFlashPair(second, first)
    ensures IsFlashPair(first, second) <==>
            || (first < 0.8 && second >= first + 0.1)
            || (second < 0.8 && first >= second + 0.1)
  {
  }

  /** Frames `k` and `k` + 1 are a flash pair. */
  predicate FlashAt(series: seq<real>, k: nat)
    requires k + 1 < |series|
  {
    IsFlashPair(series[k], series[k + 1])
  }

  /** Luminance change from frame `k` to `k` + 1. */
  function StepAt(series: seq<real>, k: nat): (d: real)
    requires k + 1 < |series|
  {
    Delta(series[k], series[k + 1])
  }

  /** Python's round: to the nearest integer, ties to the even one. */
  function RoundHalfEven(x: real): int {
    var down := x.Floor;
    var rest := x - down as real;
    if rest < 0.5 then down
    else if rest > 0.5 then down + 1
    else if down % 2 == 0 then down else down + 1
  }

  /** Frames in one second, at least one. */
  function Window(fps: real): (window: nat)
    ensures window >= 1
  {
    if RoundHalfEven(fps) < 1 then 1 else RoundHalfEven(fps)
  }

  /** `n` is the integer nearest to `x`, the even one of two that are equally near. */
  predicate Nearest(n: int, x: real) {
    -0.5 <= n as real - x <= 0.5 && ((n as real - x == 0.5 || n as real - x == -0.5) ==> n % 2 == 0)
  }

  lemma RoundIsNearest(x: real, n: int)
    ensures RoundHalfEven(x) == n <==> Nearest(n, x)
  {
    var down := x.Floor;
    assert down as real <= x < (down + 1) as real;
    if Nearest(n, x) {
      assert n == down || n == down + 1;
    }
  }

  /** The window is the whole number of frames nearest to one second, halves going to the even number;
      a rate of half a frame or less gives a window of one. */
  lemma WindowExactlyWhen(fps: real, window: nat)
    ensures Window(fps) == window <==> if fps <= 0.5 then window == 1 else Nearest(window, fps)
    ensures fps >= 0.5 ==> -0.5 <= Window(fps) as real - fps <= 0.5
  {
    RoundIsNearest(fps, RoundHalfEven(fps));
    RoundIsNearest(fps, window);
  }

  function Pairs(series: seq<real>): nat {
    if series == [] then 0 else |series| - 1
  }

  /** Flag k compares frame k with frame k + 1. */
  function Flags(series: seq<real>): (flags: seq<bool>)
    ensures |flags| == Pairs(series)
    ensures forall k :: 0 <= k < |flags| ==> flags[k] == FlashAt(series, k)
  {
    if |series| < 2 then []
    else Flags(series[..|series| - 1]) + [FlashAt(series, |series| - 2)]
  }

  function Count(flags: seq<bool>): nat {
    if flags == [] then 0 else Count(flags[..|flags| - 1]) + if flags[|flags| - 1] then 1 else 0
  }

  /** Python's flags[start:start + window]. */
  function Slice(flags: seq<bool>, start: nat, window: nat): seq<bool>
    requires start <= |flags|
  {
    if start + window <= |flags| then flags[start..start + window] else flags[start..]
  }

  function WindowCount(flags: seq<bool>, start: nat, window: nat): nat
    requires start <= |flags|
  {
    Count(Slice(flags, start, window))
  }

  // ----- counting

  lemma {:induction false} CountConcat(a: seq<bool>, b: seq<bool>)
    ensures Count(a + b) == Count(a) + Count(b)
    decreases |b|
  {
    if b == [] {
      assert a + b == a;
    } else {
      assert (a + b)[..|a + b| - 1] == a + b[..|b| - 1];
      CountConcat(a, b[..|b| - 1]);
    }
  }

  /** A run inside another holds no more flashes. */
  lemma CountInside(flags: seq<bool>, a: nat, b: nat, lo: nat, hi: nat)
    requires lo <= a <= b <= hi <= |flags|
    ensures Count(flags[a..b]) <= Count(flags[lo..hi])
  {
    assert flags[lo..b] == flags[lo..a] + flags[a..b];
    CountConcat(flags[lo..a], flags[a..b]);
    assert flags[lo..hi] == flags[lo..b] + flags[b..hi];
    CountConcat(flags[lo..b], flags[b..hi]);
  }

  lemma {:induction false} CountIsZero(flags: seq<bool>)
    ensures Count(flags) == 0 <==> forall k :: 0 <= k < |flags| ==> !flags[k]
  {
    if flags != [] { CountIsZero(flags[..|flags| - 1]); }
  }

  /** The last flash: cutting the run there leaves one flash fewer. */
  lemma {:induction false} LastFlash(flags: seq<bool>) returns (last: nat)
    requires Count(flags) > 0
    ensures last < |flags| && flags[last] && Count(flags[..last]) == Count(flags) - 1
  {
    if flags[|flags| - 1] {
      last := |flags| - 1;
    } else {
      last := LastFlash(flags[..|flags| - 1]);
      assert flags[..|flags| - 1][..last] == flags[..last];
    }
  }

  lemma FlashAdds(flags: seq<bool>, at: nat)
    requires at < |flags| && flags[at]
    ensures Count(flags) >= Count(flags[..at]) + 1
  {
    assert flags[..at + 1][..at] == flags[..at];
    CountInside(flags, 0, at + 1, 0, |flags|);
    assert flags[0..at + 1] == flags[..at + 1] && flags[0..|flags|] == flags;
  }

  /** Four flashes, in order. */
  ghost predicate Four(flags: seq<bool>, i: nat, j: nat, k: nat, l: nat) {
    i < j < k < l < |flags| && flags[i] && flags[j] && flags[k] && flags[l]
  }

  lemma FourCount(flags: seq<bool>, i: nat, j: nat, k: nat, l: nat)
    requires Four(flags, i, j, k, l)
    ensures Count(flags) >= 4
  {
    FlashAdds(flags, l);
    FlashAdds(flags[..l], k);
    FlashAdds(flags[..k], j);
    FlashAdds(flags[..j], i);
    assert flags[..l][..k] == flags[..k] && flags[..k][..j] == flags[..j] && flags[..j][..i] == flags[..i];
  }

  lemma CountFour(flags: seq<bool>) returns (i: nat, j: nat, k: nat, l: nat)
    requires Count(flags) >= 4
    ensures Four(flags, i, j, k, l)
  {
    l := LastFlash(flags);
    k := LastFlash(flags[..l]);
    assert flags[..l][..k] == flags[..k];
    j := LastFlash(flags[..k]);
    assert flags[..k][..j] == flags[..j];
    i := LastFlash(flags[..j]);
  }

  // ----- the worst window

  function Flashes(flags: seq<bool>, a: nat, b: nat): nat
    requires a <= b <= |flags|
  {
    Count(flags[a..b])
  }

  /** `rate` is the most flashes in any run of at most `window` consecutive pairs. */
  ghost predicate IsWorstRate(flags: seq<bool>, window: nat, rate: nat) {
    && (forall a, b :: 0 <= a <= b <= |flags| && b - a <= window ==> Flashes(flags, a, b) <= rate)
    && (exists a, b :: 0 <= a <= b <= |flags| && b - a <= window && Flashes(flags, a, b) == rate)
  }

  /** Where the loop's windows start. */
  function Starts(flags: seq<bool>, window: nat): (n: nat)
    ensures n >= 1
  {
    if |flags| - window + 1 < 1 then 1 else |flags| - window + 1
  }

  /** Every run of at most `window` pairs lies in one of the windows looked at. */
  lemma SomeWindowCovers(flags: seq<bool>, window: nat, a: nat, b: nat) returns (start: nat)
    requires window >= 1 && a <= b <= |flags| && b - a <= window
    ensures start < Starts(flags, window) && start <= |flags|
    ensures Count(flags[a..b]) <= WindowCount(flags, start, window)
  {
    start := if a < Starts(flags, window) then a else Starts(flags, window) - 1;
    var end := if start + window <= |flags| then start + window else |flags|;
    CountInside(flags, a, b, start, end);
    assert Slice(flags, start, window) == flags[start..end];
  }

  /** The flash count of every window the loop looks at. */
  ghost function Counts(flags: seq<bool>, window: nat): (counts: seq<nat>)
    requires window >= 1
    ensures |counts| == Starts(flags, window) <= |flags| + 1
    ensures forall s :: 0 <= s < |counts| ==> counts[s] == WindowCount(flags, s, window)
  {
    seq(Starts(flags, window), s requires 0 <= s < Starts(flags, window) => WindowCount(flags, s, window))
  }

  /** `rate` is the largest of the first `done` counts, and `at` the first window that has it, -1
      while all are zero. */
  ghost predicate Worst(counts: seq<nat>, done: nat, rate: nat, at: int)
    requires done <= |counts|
  {
    && (forall s :: 0 <= s < done ==> counts[s] <= rate)
    && (if rate == 0 then at == -1
        else 0 <= at < done && counts[at] == rate && forall s :: 0 <= s < at ==> counts[s] < rate)
  }

  lemma WorstStep(counts: seq<nat>, done: nat, rate: nat, at: int)
    requires done < |counts| && Worst(counts, done, rate, at)
    ensures if counts[done] > rate then Worst(counts, done + 1, counts[done], done)
            else Worst(counts, done + 1, rate, at)
  {
  }

  lemma WorstIsWorst(flags: seq<bool>, window: nat, rate: nat, at: int)
    requires window >= 1 && Worst(Counts(flags, window), Starts(flags, window), rate, at)
    ensures IsWorstRate(flags, window, rate)
  {
    var counts := Counts(flags, window);
    forall a, b | 0 <= a <= b <= |flags| && b - a <= window ensures Flashes(flags, a, b) <= rate {
      var start := SomeWindowCovers(flags, window, a, b);
      assert counts[start] <= rate;
    }
    if rate == 0 {
      assert Flashes(flags, 0, 0) == rate;
    } else {
      var end := if at + window <= |flags| then at + window else |flags|;
      assert Slice(flags, at, window) == flags[at..end];
      assert Flashes(flags, at, end) == rate;
    }
  }

  method WorstRate(flags: seq<bool>, window: nat) returns (rate: nat, at: int)
    requires window >= 1
    ensures IsWorstRate(flags, window, rate) && Worst(Counts(flags, window), Starts(flags, window), rate, at)
  {
    rate, at := 0, -1;
    ghost var counts := Counts(flags, window);
    for start := 0 to Starts(flags, window)
      invariant Worst(counts, start, rate, at)
    {
      WorstStep(counts, start, rate, at);
      var count := WindowCount(flags, start, window);
      if count > rate {
        rate, at := count, start;
      }
    }
    WorstIsWorst(flags, window, rate, at);
  }

  /** The rate limit is exceeded exactly when some four flashes fall within one window. */
  lemma ExceededExactlyWhen(flags: seq<bool>, window: nat, rate: nat)
    requires window >= 1 && IsWorstRate(flags, window, rate)
    ensures rate > FLASHES_PER_SECOND <==>
            exists i: nat, j: nat, k: nat, l: nat :: Four(flags, i, j, k, l) && l - i < window
  {
    if rate > FLASHES_PER_SECOND {
      var a, b :| 0 <= a <= b <= |flags| && b - a <= window && Flashes(flags, a, b) == rate;
      var i, j, k, l := CountFour(flags[a..b]);
      assert Four(flags, a + i, a + j, a + k, a + l);
    }
    forall i: nat, j: nat, k: nat, l: nat | Four(flags, i, j, k, l) && l - i < window
      ensures rate > FLASHES_PER_SECOND
    {
      FourCount(flags[i..l + 1], 0, j - i, k - i, l - i);
      assert Flashes(flags, i, l + 1) >= 4;
    }
  }

  // ----- one region

  datatype Region = Region(frames: nat, flashPairs: nat, worstDelta: real, worstDeltaFrame: int,
                           worstRate: nat, worstRateAt: int, rateExceeded: bool, flashFrames: seq<nat>)

  /** The largest of the first `n` steps, and the frame the first such step led to. */
  ghost predicate IsWorstDelta(series: seq<real>, n: nat, worst: real, frame: int)
    requires n == 0 || n < |series|
  {
    && worst >= 0.0 && (forall i :: 0 <= i < n ==> StepAt(series, i) <= worst)
    && (if worst == 0.0 then frame == -1
        else 1 <= frame <= n && StepAt(series, frame - 1) == worst
             && forall i :: 0 <= i < frame - 1 ==> StepAt(series, i) < worst)
  }

  /** The frames that end a flash pair. */
  function FlashFrames(flags: seq<bool>): (frames: seq<nat>)
    ensures |frames| == Count(flags)
  {
    if flags == [] then []
    else FlashFrames(flags[..|flags| - 1]) + if flags[|flags| - 1] then [|flags|] else []
  }

  /** They are listed in order, each once, and none is missed. */
  lemma {:induction false} FlashFramesAre(flags: seq<bool>, frame: nat)
    ensures frame in FlashFrames(flags) <==> 1 <= frame <= |flags| && flags[frame - 1]
    ensures forall i, j :: 0 <= i < j < |FlashFrames(flags)| ==> FlashFrames(flags)[i] < FlashFrames(flags)[j]
  {
    if flags != [] {
      var front := flags[..|flags| - 1];
      FlashFramesAre(front, frame);
      forall i | 0 <= i < |FlashFrames(front)| ensures FlashFrames(front)[i] < |flags| {
        FlashFramesAre(front, FlashFrames(front)[i]);
      }
    }
  }

  function FirstFifty(frames: seq<nat>): (kept: seq<nat>)
    ensures kept <= frames && |kept| <= 50 && (|kept| < 50 ==> kept == frames)
  {
    if |frames| <= 50 then frames else frames[..50]
  }

  ghost predicate Analysed(series: seq<real>, fps: real, r: Region) {
    && r.frames == |series| && r.flashPairs == Count(Flags(series))
    && IsWorstDelta(series, Pairs(series), r.worstDelta, r.worstDeltaFrame)
    && IsWorstRate(Flags(series), Window(fps), r.worstRate)
    && Worst(Counts(Flags(series), Window(fps)), Starts(Flags(series), Window(fps)), r.worstRate, r.worstRateAt)
    && r.rateExceeded == (r.worstRate > FLASHES_PER_SECOND)
    && r.flashFrames == FirstFifty(FlashFrames(Flags(series)))
  }

  method ScanPairs(series: seq<real>) returns (flags: seq<bool>, worst: real, frame: int)
    ensures flags == Flags(series) && IsWorstDelta(series, Pairs(series), worst, frame)
  {
    flags, worst, frame := [], 0.0, -1;
    for index := 1 to Pairs(series) + 1
      invariant |flags| == index - 1
      invariant forall k :: 0 <= k < |flags| ==> flags[k] == FlashAt(series, k)
      invariant IsWorstDelta(series, index - 1, worst, frame)
    {
      var delta := Delta(series[index - 1], series[index]);
      assert delta == StepAt(series, index - 1);
      if delta > worst {
        worst, frame := delta, index;
      }
      flags := flags + [IsFlashPair(series[index - 1], series[index])];
    }
  }

  method Analyse(series: seq<real>, fps: real) returns (r: Region)
    ensures Analysed(series, fps, r)
  {
    var flags, worst, frame := ScanPairs(series);
    var rate, at := WorstRate(flags, Window(fps));
    r := Region(|series|, Count(flags), worst, frame, rate, at, rate > FLASHES_PER_SECOND,
                FirstFifty(FlashFrames(flags)));
  }

  // ----- the verdict

  /** Python's tuple order on (rate_exceeded, flash_pairs, worst_delta). */
  predicate Worse(a: Region, b: Region) {
    if a.rateExceeded != b.rateExceeded then b.rateExceeded
    else if a.flashPairs != b.flashPairs then a.flashPairs < b.flashPairs
    else a.worstDelta < b.worstDelta
  }

  /** The first of the worst regions. */
  method WorstRegion(regions: seq<Region>) returns (at: nat)
    requires regions != []
    ensures at < |regions|
    ensures forall k :: 0 <= k < |regions| ==> !Worse(regions[at], regions[k])
    ensures forall k :: 0 <= k < at ==> Worse(regions[k], regions[at])
  {
    at := 0;
    for n := 1 to |regions|
      invariant at < n
      invariant forall k :: 0 <= k < n ==> !Worse(regions[at], regions[k])
      invariant forall k :: 0 <= k < at ==> Worse(regions[k], regions[at])
    {
      if Worse(regions[at], regions[n]) {
        at := n;
      }
    }
  }

  /** What makes a region the worst: it exceeds the rate limit if any does; among those that agree with
      it there it has the most flash pairs; and among those the largest change. */
  lemma WorstMeans(regions: seq<Region>, at: nat, k: nat)
    requires at < |regions| && k < |regions| && forall n :: 0 <= n < |regions| ==> !Worse(regions[at], regions[n])
    ensures regions[k].rateExceeded ==> regions[at].rateExceeded
    ensures regions[k].rateExceeded == regions[at].rateExceeded ==> regions[k].flashPairs <= regions[at].flashPairs
    ensures regions[k].rateExceeded == regions[at].rateExceeded && regions[k].flashPairs == regions[at].flashPairs ==>
              regions[k].worstDelta <= regions[at].worstDelta
  {
    assert !Worse(regions[at], regions[k]);
  }

  function Status(worst: Region): nat {
    if worst.rateExceeded then 2 else if worst.flashPairs > 0 then 1 else 0
  }

  ghost predicate HasFlash(series: seq<real>) {
    exists i :: 0 <= i < |series| - 1 && FlashAt(series, i)
  }

  /** Four flash pairs start within `window` frames of each other. */
  ghost predicate TooFast(series: seq<real>, window: nat) {
    exists i: nat, j: nat, k: nat, l: nat :: Four(Flags(series), i, j, k, l) && l - i < window
  }

  lemma RegionMeans(series: seq<real>, fps: real, r: Region)
    requires Analysed(series, fps, r)
    ensures r.rateExceeded <==> TooFast(series, Window(fps))
    ensures r.flashPairs > 0 <==> HasFlash(series)
    ensures r.rateExceeded ==> r.flashPairs > 0
  {
    var flags := Flags(series);
    CountIsZero(flags);
    ExceededExactlyWhen(flags, Window(fps), r.worstRate);
    if HasFlash(series) {
      var i :| 0 <= i < |series| - 1 && FlashAt(series, i);
      assert flags[i];
    }
    if r.flashPairs > 0 {
      var i :| 0 <= i < |flags| && flags[i];
      assert FlashAt(series, i);
    }
  }

  ghost predicate AnalysedAll(regions: seq<seq<real>>, fps: real, results: seq<Region>) {
    |results| <= |regions| && forall k :: 0 <= k < |results| ==> Analysed(regions[k], fps, results[k])
  }

  lemma OneMoreRegion(regions: seq<seq<real>>, fps: real, results: seq<Region>, r: Region)
    requires AnalysedAll(regions, fps, results) && |results| < |regions| && Analysed(regions[|results|], fps, r)
    ensures AnalysedAll(regions, fps, results + [r])
  {
    var more := results + [r];
    assert more[..|results|] == results && more[|results|] == r;
    forall k | 0 <= k < |more| ensures Analysed(regions[k], fps, more[k]) {
      if k < |results| {
        assert more[k] == results[k];
      }
    }
  }

  method AnalyseAll(regions: seq<seq<real>>, fps: real) returns (results: seq<Region>)
    ensures |results| == |regions| && AnalysedAll(regions, fps, results)
  {
    results := [];
    for n := 0 to |regions|
      invariant |results| == n && AnalysedAll(regions, fps, results)
    {
      var r := Analyse(regions[n], fps);
      OneMoreRegion(regions, fps, results, r);
      results := results + [r];
    }
  }

  /** The worst region decides for all of them. */
  lemma VerdictMeans(regions: seq<seq<real>>, fps: real, results: seq<Region>, at: nat)
    requires |results| == |regions| && AnalysedAll(regions, fps, results)
    requires at < |results| && forall k :: 0 <= k < |results| ==> !Worse(results[at], results[k])
    ensures Status(results[at]) == 2 <==> exists k :: 0 <= k < |regions| && TooFast(regions[k], Window(fps))
    ensures Status(results[at]) == 0 <==> forall k :: 0 <= k < |regions| ==> !HasFlash(regions[k])
  {
    RegionMeans(regions[at], fps, results[at]);
    forall k | 0 <= k < |regions|
      ensures TooFast(regions[k], Window(fps)) ==> results[at].rateExceeded
      ensures HasFlash(regions[k]) ==> Status(results[at]) != 0
    {
      RegionMeans(regions[k], fps, results[k]);
      assert !Worse(results[at], results[k]);
    }
  }

  /** The whole check: status 2 exactly when some region flashes too fast, 0 exactly when no
      region has any flash pair, 1 otherwise. */
  method Check(regions: seq<seq<real>>, fps: real) returns (status: nat)
    requires regions != []
    ensures status == 2 <==> exists k :: 0 <= k < |regions| && TooFast(regions[k], Window(fps))
    ensures status == 0 <==> forall k :: 0 <= k < |regions| ==> !HasFlash(regions[k])
    ensures status <= 2
  {
    var results := AnalyseAll(regions, fps);
    var at := WorstRegion(results);
    VerdictMeans(regions, fps, results, at);
    status := Status(results[at]);
  }
}
