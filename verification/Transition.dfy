/** The crossfade: its eased weight, its blend and its frame counter. */
module Transition {
  import opened NatArithmetic
  import opened Canvas

  const FRAMES: nat := 15
  const WEIGHT_MAX: nat := 256
  const ONE: nat := 1024

  // ----- the eased weight, for a fade of any number of frames

  /** Position of `step` in a fade of `frames`, scaled to [0, ONE]. */
  function Position(frames: nat, step: nat): nat
    requires frames > 0
  {
    step * ONE / frames
  }

  /** 3 t^2 - 2 t^3 at the scale of ONE cubed. */
  function Smooth(t: int): int {
    3 * t * t * ONE - 2 * t * t * t
  }

  function Eased(t: int): int { Smooth(t) / (ONE * ONE) }

  function Scaled(eased: int): int { (eased * WEIGHT_MAX + ONE / 2) / ONE }

  /** The formula without the early returns. */
  function Formula(frames: nat, step: nat): int
    requires frames > 0
  {
    Scaled(Eased(Position(frames, step)))
  }

  function WeightOf(frames: nat, step: nat): int
    requires frames > 0
  {
    if step == 0 then 0
    else if step >= frames then WEIGHT_MAX
    else
      var w := Formula(frames, step);
      if w > WEIGHT_MAX then WEIGHT_MAX else w
  }

  lemma PositionBounds(frames: nat, step: nat)
    requires frames > 0 && step <= frames
    ensures 0 <= Position(frames, step) <= ONE
    ensures Position(frames, 0) == 0 && Position(frames, frames) == ONE
  {
    ProductMonotone(step, frames, ONE);
    QuotientMonotone(step * ONE, frames * ONE, frames);
    QuotientUnique(frames * ONE, frames, ONE);
    QuotientUnique(0, frames, 0);
  }

  /** One more frame advances the position by less than ONE / frames + 1. */
  lemma PositionStep(frames: nat, step: nat)
    requires frames > 0
    ensures 0 <= Position(frames, step + 1) - Position(frames, step)
    ensures (Position(frames, step + 1) - Position(frames, step)) * frames < ONE + frames
  {
    var p, q := Position(frames, step), Position(frames, step + 1);
    assert (step + 1) * ONE == step * ONE + ONE;
    DivisionBounds(step * ONE, frames);
    DivisionBounds((step + 1) * ONE, frames);
    QuotientMonotone(step * ONE, (step + 1) * ONE, frames);
    assert (p + 1) * frames == p * frames + frames;
    assert (q - p) * frames == q * frames - p * frames;
  }

  lemma SmoothDifference(t: int)
    ensures Smooth(t + 1) - Smooth(t) == 6 * (t * (1023 - t)) + 3070
  {
    var q := t * t;
    assert (t + 1) * (t + 1) == q + 2 * t + 1;
    assert (t + 1) * (t + 1) * (t + 1) == q * t + 3 * q + 3 * t + 1;
    assert t * t * t == q * t;
    assert t * (1023 - t) == 1023 * t - q;
  }

  lemma ProductOfNats(a: nat, b: nat)
    ensures a * b >= 0
  {
  }

  lemma ShiftedSquare(t: int)
    ensures (511 - t) * (512 - t) == (t - 511) * (t - 512) == t * t - 1023 * t + 511 * 512
  {
  }

  lemma Parabola(t: int)
    requires 0 <= t < ONE
    ensures 0 <= t * (1023 - t) <= 511 * 512
  {
    ShiftedSquare(t);
    ProductOfNats(t, 1023 - t);
    if t <= 511 {
      ProductOfNats(511 - t, 512 - t);
    } else {
      ProductOfNats(t - 511, t - 512);
    }
    assert t * (1023 - t) == 1023 * t - t * t;
  }

  /** The curve rises, with a slope of at most one and a half. */
  lemma SmoothStep(t: int)
    requires 0 <= t < ONE
    ensures 0 < Smooth(t + 1) - Smooth(t) <= 1_572_864
  {
    SmoothDifference(t);
    Parabola(t);
  }

  lemma {:induction false} SmoothRange(t: int, u: int)
    requires 0 <= t <= u <= ONE
    ensures 0 <= Smooth(u) - Smooth(t) <= 1_572_864 * (u - t)
    decreases u - t
  {
    if t < u {
      SmoothRange(t, u - 1);
      SmoothStep(u - 1);
    }
  }

  lemma EasedRange(t: int, u: int)
    requires 0 <= t <= u <= ONE
    ensures 0 <= Eased(t) <= Eased(u) <= ONE
    ensures 2 * (Eased(u) - Eased(t)) <= 3 * (u - t) + 1
  {
    SmoothRange(0, t);
    SmoothRange(t, u);
    SmoothRange(u, ONE);
    assert Smooth(0) == 0 && Smooth(ONE) == ONE * ONE * ONE;
  }

  lemma ScaledRange(e: int, f: int)
    requires 0 <= e <= f <= ONE
    ensures 0 <= Scaled(e) <= Scaled(f) <= WEIGHT_MAX
    ensures 4 * (Scaled(f) - Scaled(e)) <= f - e + 3
  {
  }

  /** The weight lies in [0, 256], is exact at both ends, and the early returns only repeat
      what the formula gives there; the final clamp never acts. */
  lemma WeightBounds(frames: nat, step: nat)
    requires frames > 0
    ensures 0 <= WeightOf(frames, step) <= WEIGHT_MAX
    ensures step <= frames ==> WeightOf(frames, step) == Formula(frames, step)
    ensures WeightOf(frames, 0) == 0 && WeightOf(frames, frames) == WEIGHT_MAX
  {
    if step <= frames {
      PositionBounds(frames, step);
      EasedRange(Position(frames, step), ONE);
      EasedRange(0, Position(frames, step));
      ScaledRange(Eased(Position(frames, step)), ONE);
      assert Eased(0) == 0 && Eased(ONE) == ONE && Scaled(0) == 0 && Scaled(ONE) == WEIGHT_MAX;
    }
  }

  lemma ScaleFrames(grown: nat, moved: nat, frames: nat)
    requires 8 * grown <= 3 * moved
    ensures 8 * (grown * frames) <= 3 * (moved * frames)
  {
    ProductMonotone(8 * grown, 3 * moved, frames);
    assert 8 * grown * frames == 8 * (grown * frames) && 3 * moved * frames == 3 * (moved * frames);
  }

  lemma TakeThreeFrames(dt: int, frames: nat)
    ensures (dt - 3) * frames == dt * frames - 3 * frames
  {
  }

  lemma StepArithmetic(frames: nat, dt: nat, de: int, dw: int)
    requires frames > 0 && dt * frames < ONE + frames && 2 * de <= 3 * dt + 1 && 4 * dw <= de + 3
    ensures dw <= 384 / frames + 2
  {
    if dw > 2 {
      ScaleFrames(dw - 2, dt - 3, frames);
      TakeThreeFrames(dt, frames);
      QuotientAtLeast(dw - 2, 384, frames);
    } else {
      QuotientAtLeast(0, 384, frames);
    }
  }

  lemma FormulaStep(frames: nat, step: nat)
    requires step < frames
    ensures 0 <= Formula(frames, step + 1) - Formula(frames, step) <= 384 / frames + 2
  {
    PositionBounds(frames, step);
    PositionBounds(frames, step + 1);
    PositionStep(frames, step);
    var t, u := Position(frames, step), Position(frames, step + 1);
    EasedRange(t, u);
    ScaledRange(Eased(t), Eased(u));
    StepArithmetic(frames, u - t, Eased(u) - Eased(t), Scaled(Eased(u)) - Scaled(Eased(t)));
  }

  /** The weight never falls, and grows by at most 384 / frames + 2 in one step. */
  lemma WeightStep(frames: nat, step: nat)
    requires frames > 0
    ensures 0 <= WeightOf(frames, step + 1) - WeightOf(frames, step) <= 384 / frames + 2
  {
    if step < frames {
      WeightBounds(frames, step);
      WeightBounds(frames, step + 1);
      FormulaStep(frames, step);
    }
  }

  lemma {:induction false} WeightMonotone(frames: nat, step: nat, later: nat)
    requires frames > 0 && step <= later
    ensures WeightOf(frames, step) <= WeightOf(frames, later)
    decreases later - step
  {
    if step < later {
      WeightMonotone(frames, step, later - 1);
      WeightStep(frames, later - 1);
    }
  }

  // ----- the curve the weight follows

  /** The smoothstep curve. */
  function Curve(x: real): real { 3.0 * x * x - 2.0 * x * x * x }

  lemma CurveDifference(x: real, y: real)
    ensures Curve(x) - Curve(y) == (x - y) * (3.0 * (x + y) - 2.0 * (x * x + x * y + y * y))
  {
    var p, q := x * x, y * y;
    assert (x - y) * (x + y) == p - q;
    assert (x - y) * (p + x * y + q) == p * x - q * y;
    assert (x - y) * (3.0 * (x + y) - 2.0 * (p + x * y + q)) ==
           3.0 * ((x - y) * (x + y)) - 2.0 * ((x - y) * (p + x * y + q));
  }

  lemma SameSign(a: real, b: real)
    requires (a >= 0.0 && b >= 0.0) || (a <= 0.0 && b <= 0.0)
    ensures a * b >= 0.0
  {
  }

  lemma HalfProduct(u: real, v: real)
    requires -0.5 <= u <= 0.5 && -0.5 <= v <= 0.5
    ensures u * v <= 0.25
  {
    SameSign(0.5 - u, 0.5 + v);
    SameSign(0.5 + u, 0.5 - v);
    assert (0.5 - u) * (0.5 + v) + (0.5 + u) * (0.5 - v) == 0.5 - 2.0 * (u * v);
  }

  lemma SlopeBounds(x: real, y: real)
    requires 0.0 <= y <= 1.0 && 0.0 <= x <= 1.0
    ensures 0.0 <= 3.0 * (x + y) - 2.0 * (x * x + x * y + y * y) <= 1.5
  {
    var u, v := x - 0.5, y - 0.5;
    HalfProduct(u, u);
    HalfProduct(u, v);
    HalfProduct(v, v);
    SameSign(u, u);
    SameSign(v, v);
    SameSign(u + v, u + v);
    assert (u + v) * (u + v) == u * u + 2.0 * (u * v) + v * v;
    assert u * u == x * x - x + 0.25 && v * v == y * y - y + 0.25 && u * v == x * y - 0.5 * (x + y) + 0.25;
  }

  /** The curve rises, by at most one and a half times the way. */
  lemma CurveRises(y: real, x: real)
    requires 0.0 <= y <= x <= 1.0
    ensures 0.0 <= Curve(x) - Curve(y) <= 1.5 * (x - y)
  {
    CurveDifference(x, y);
    SlopeBounds(x, y);
    var slope := 3.0 * (x + y) - 2.0 * (x * x + x * y + y * y);
    SameSign(x - y, slope);
    SameSign(x - y, 1.5 - slope);
    assert (x - y) * (1.5 - slope) == 1.5 * (x - y) - (x - y) * slope;
  }

  lemma CancelFactor(a: real, f: real)
    requires f > 0.0
    ensures a * f >= 0.0 ==> a >= 0.0
    ensures a * f > 0.0 ==> a > 0.0
  {
    if a <= 0.0 {
      SameSign(-a, f);
      assert a * f == -(-a * f);
    }
  }

  lemma RealProduct(a: int, b: int)
    ensures (a * b) as real == a as real * b as real
  {
  }

  /** A multiple of `f` below another. */
  lemma DivideOut(a: real, b: real, f: real)
    requires f > 0.0
    ensures a * f <= b * f ==> a <= b
    ensures a * f < b * f ==> a < b
  {
    CancelFactor(b - a, f);
    assert (b - a) * f == b * f - a * f;
  }

  lemma PositionScaled(frames: nat, step: nat)
    requires frames > 0
    ensures var p, f := Position(frames, step), frames as real;
            p as real * f <= 1024.0 * step as real < (p as real + 1.0) * f
  {
    var p := Position(frames, step);
    DivisionBounds(step * ONE, frames);
    RealProduct(p, frames);
    RealProduct(p + 1, frames);
    RealProduct(step, ONE);
  }

  lemma Reassociate(a: real, b: real, c: real)
    ensures (a * b) * c == a * (b * c)
  {
  }

  /** From products with `f` to bounds on `x`. */
  lemma BoundsFromProducts(low: real, high: real, f: real, x: real, s: real)
    requires f > 0.0 && x * f == s && 0.0 <= s <= f && low * f <= 1024.0 * s < high * f
    ensures 0.0 <= x <= 1.0 && low <= 1024.0 * x < high
  {
    var scaled, one := 1024.0 * x, 1.0;
    Reassociate(1024.0, x, f);
    assert scaled * f == 1024.0 * s;
    DivideOut(low, scaled, f);
    DivideOut(scaled, high, f);
    CancelFactor(x, f);
    DivideOut(x, one, f);
  }

  lemma PositionIsFloor(frames: nat, step: nat, x: real)
    requires frames > 0 && step <= frames && x * frames as real == step as real
    ensures 0.0 <= x <= 1.0
    ensures Position(frames, step) as real <= 1024.0 * x < Position(frames, step) as real + 1.0
  {
    PositionScaled(frames, step);
    var p := Position(frames, step) as real;
    BoundsFromProducts(p, p + 1.0, frames as real, x, step as real);
  }

  lemma EasedIsFloor(t: int, y: real)
    requires 0 <= t <= ONE && 1024.0 * y == t as real
    ensures Eased(t) as real <= 1024.0 * Curve(y) < Eased(t) as real + 1.0
  {
    var q := t * t;
    assert Smooth(t) == 3072 * q - 2 * (q * t);
    assert t as real == 1024.0 * y && q as real == 1048576.0 * (y * y) && (q * t) as real == 1073741824.0 * (y * y * y);
    assert Smooth(t) as real == 1073741824.0 * Curve(y);
    assert Eased(t) * 1048576 <= Smooth(t) < (Eased(t) + 1) * 1048576;
  }

  /** The weight follows the smoothstep curve, for every number of frames: `step` of `frames` frames is
      the fraction `x` of the fade, and the weight is less than 1.125 below 256 times the curve at `x`
      and at most 0.5 above it. */
  lemma WeightFollowsCurve(frames: nat, step: nat, x: real)
    requires frames > 0 && step <= frames && x * frames as real == step as real
    ensures -1.125 < WeightOf(frames, step) as real - 256.0 * Curve(x) <= 0.5
  {
    WeightBounds(frames, step);
    PositionIsFloor(frames, step, x);
    var t := Position(frames, step);
    var y := t as real / 1024.0;
    EasedIsFloor(t, y);
    CurveRises(y, x);
    assert Scaled(Eased(t)) as real <= Eased(t) as real / 4.0 + 0.5 < Scaled(Eased(t)) as real + 1.0;
  }

  // ----- the cart's fade

  function Weight(step: nat): nat {
    WeightBounds(FRAMES, step);
    WeightOf(FRAMES, step)
  }

  /** The image shown at `step` of a fade. */
  function Blended(from: seq<Pixel>, to: seq<Pixel>, step: nat): seq<Pixel>
    requires |from| == |to|
  {
    var amount := Weight(step);
    if amount == 0 then from
    else if amount >= WEIGHT_MAX then to
    else seq(|from|, i requires 0 <= i < |from| => Mix(from[i], to[i], amount))
  }

  method Copy(destination: array<Pixel>, source: array<Pixel>)
    requires destination.Length == source.Length && destination != source
    modifies destination
    ensures destination[..] == source[..]
  {
    forall i | 0 <= i < destination.Length {
      destination[i] := source[i];
    }
  }

  /** Blend pixel by pixel, with the copy shortcuts at both ends. */
  method Blend(destination: array<Pixel>, from: array<Pixel>, to: array<Pixel>, step: nat)
    requires destination.Length == from.Length == to.Length
    requires destination != from && destination != to
    modifies destination
    ensures destination[..] == Blended(from[..], to[..], step)
  {
    var amount := Weight(step);
    if amount == 0 {
      Copy(destination, from);
      return;
    }
    if amount >= WEIGHT_MAX {
      Copy(destination, to);
      return;
    }
    ghost var image := Blended(from[..], to[..], step);
    for index := 0 to destination.Length
      invariant forall i :: 0 <= i < index ==> destination[i] == image[i]
    {
      destination[index] := Mix(from[index], to[index], amount);
    }
    assert destination[..] == image;
  }

  ghost predicate AllOpaque(image: seq<Pixel>) {
    forall i :: 0 <= i < |image| ==> Opaque(image[i])
  }

  /** On opaque images the shortcuts are invisible: every step mixes every pixel. */
  lemma BlendedPixel(from: seq<Pixel>, to: seq<Pixel>, step: nat, i: nat)
    requires |from| == |to| && AllOpaque(from) && AllOpaque(to) && i < |from|
    ensures |Blended(from, to, step)| == |from|
    ensures Blended(from, to, step)[i] == Mix(from[i], to[i], Weight(step))
  {
    CopyIsMixWhenOpaque(from[i], to[i]);
  }

  /** Whatever the alpha bytes, the shortcuts show the colours that mixing would. */
  lemma BlendedColour(from: seq<Pixel>, to: seq<Pixel>, step: nat, i: nat)
    requires |from| == |to| && i < |from|
    ensures |Blended(from, to, step)| == |from|
    ensures SameColour(Blended(from, to, step)[i], Mix(from[i], to[i], Weight(step)))
  {
    MixEndColours(from[i], to[i]);
  }

  lemma BlendSame(image: seq<Pixel>, step: nat, i: nat)
    requires i < |image|
    ensures |Blended(image, image, step)| == |image| && SameColour(Blended(image, image, step)[i], image[i])
  {
    WeightBounds(FRAMES, step);
    BlendedColour(image, image, step, i);
    MixSame(image[i], Weight(step));
  }

  /** From one step of the fade to the next every channel of every pixel moves from its source
      towards its target, by at most 27 of 255. */
  lemma FadeMotion(from: seq<Pixel>, to: seq<Pixel>, step: nat, i: nat)
    requires |from| == |to| && i < |from|
    ensures var now, next := Blended(from, to, step), Blended(from, to, step + 1);
            && |now| == |next| == |from|
            && BetweenPixels(now[i], from[i], next[i]) && BetweenPixels(next[i], now[i], to[i])
            && Within(next[i], now[i], 27)
  {
    BlendedColour(from, to, step, i);
    BlendedColour(from, to, step + 1, i);
    WeightStep(FRAMES, step);
    WeightBounds(FRAMES, step);
    WeightBounds(FRAMES, step + 1);
    MixMotion(from[i], to[i], Weight(step), Weight(step + 1));
  }

  // ----- both ends of the fade

  const LAST: nat := FRAMES - 1

  lemma LastWeight()
    ensures Weight(LAST) == 253
  {
    assert Position(FRAMES, LAST) == 955;
    assert Smooth(955) == 1_059_773_050;
    assert Eased(955) == 1010;
  }

  /** The first blend is the source itself. */
  lemma FirstBlend(from: seq<Pixel>, to: seq<Pixel>)
    requires |from| == |to|
    ensures Blended(from, to, 0) == from
  {
    WeightBounds(FRAMES, 0);
  }

  /** The last blend is within three of its target. */
  lemma LastBlend(from: seq<Pixel>, to: seq<Pixel>, i: nat)
    requires |from| == |to| && i < |from|
    ensures |Blended(from, to, LAST)| == |from| && Within(to[i], Blended(from, to, LAST)[i], 256 - Weight(LAST))
    ensures 256 - Weight(LAST) == 3
  {
    LastWeight();
    BlendedColour(from, to, LAST, i);
    MixEndColours(from[i], to[i]);
    MixMotion(from[i], to[i], Weight(LAST), 256);
  }

  /** A channel at `live` can follow the last blend towards `target` from any source within
      `bound`. */
  predicate ChannelExits(target: int, live: int, bound: int) {
    target + 3 * (255 - target) / 256 - bound <= live <= target - (3 * target + 255) / 256 + bound
  }

  /** The last blend of a channel ranges between what black and white sources give. */
  lemma MixExtremes(target: int)
    requires 0 <= target <= 255
    ensures MixChannel(0, target, 253) == target - (3 * target + 255) / 256
    ensures MixChannel(255, target, 253) == target + 3 * (255 - target) / 256
    ensures forall source :: 0 <= source <= 255 ==>
              MixChannel(0, target, 253) <= MixChannel(source, target, 253) <= MixChannel(255, target, 253)
  {
  }

  lemma ChannelExitsExactlyWhen(target: int, live: int, bound: int)
    requires 0 <= target <= 255
    ensures (forall source :: 0 <= source <= 255 ==> -bound <= live - MixChannel(source, target, 253) <= bound)
            <==> ChannelExits(target, live, bound)
  {
    MixExtremes(target);
    if forall source :: 0 <= source <= 255 ==> -bound <= live - MixChannel(source, target, 253) <= bound {
      assert -bound <= live - MixChannel(0, target, 253) <= bound;
      assert -bound <= live - MixChannel(255, target, 253) <= bound;
    }
  }

  predicate PixelExits(target: Pixel, live: Pixel, bound: int) {
    && ChannelExits(Red(target), Red(live), bound) && ChannelExits(Green(target), Green(live), bound)
    && ChannelExits(Blue(target), Blue(live), bound)
  }

  lemma GreySource(target: Pixel, live: Pixel, bound: int, grey: int)
    requires 0 <= grey <= 255 && Within(live, Mix(Rgba(grey, grey, grey), target, 253), bound)
    ensures -bound <= Red(live) - MixChannel(grey, Red(target), 253) <= bound
    ensures -bound <= Green(live) - MixChannel(grey, Green(target), 253) <= bound
    ensures -bound <= Blue(live) - MixChannel(grey, Blue(target), 253) <= bound
  {
    RgbaChannels(grey, grey, grey);
    MixChannels(Rgba(grey, grey, grey), target, 253);
  }

  lemma PixelExitsExactlyWhen(target: Pixel, live: Pixel, bound: int)
    ensures (forall source: Pixel :: Within(live, Mix(source, target, 253), bound)) <==> PixelExits(target, live, bound)
  {
    ChannelExitsExactlyWhen(Red(target), Red(live), bound);
    ChannelExitsExactlyWhen(Green(target), Green(live), bound);
    ChannelExitsExactlyWhen(Blue(target), Blue(live), bound);
    if forall source: Pixel :: Within(live, Mix(source, target, 253), bound) {
      forall grey: int | 0 <= grey <= 255
        ensures -bound <= Red(live) - MixChannel(grey, Red(target), 253) <= bound
        ensures -bound <= Green(live) - MixChannel(grey, Green(target), 253) <= bound
        ensures -bound <= Blue(live) - MixChannel(grey, Blue(target), 253) <= bound
      {
        GreySource(target, live, bound, grey);
      }
    }
    forall source: Pixel | PixelExits(target, live, bound) ensures Within(live, Mix(source, target, 253), bound) {
      MixChannels(source, target, 253);
    }
  }

  /** From every source image, pixel `i` of `live` follows the last blend towards `target` within
      `bound`. */
  ghost predicate ExitsFromAll(target: seq<Pixel>, live: seq<Pixel>, bound: int, i: nat)
    requires |target| == |live| && i < |target|
  {
    forall source: seq<Pixel> :: |source| == |target| ==> Within(live[i], Blended(source, target, LAST)[i], bound)
  }

  lemma PlainSource(target: seq<Pixel>, live: seq<Pixel>, bound: int, i: nat, pixel: Pixel)
    requires |target| == |live| && i < |target| && ExitsFromAll(target, live, bound, i)
    ensures Within(live[i], Mix(pixel, target[i], 253), bound)
  {
    var plain: seq<Pixel> := seq(|target|, _ => pixel);
    LastWeight();
    BlendedColour(plain, target, LAST, i);
    assert Within(live[i], Blended(plain, target, LAST)[i], bound);
  }

  lemma AnySource(target: seq<Pixel>, live: seq<Pixel>, bound: int, i: nat, source: seq<Pixel>)
    requires |target| == |live| == |source| && i < |target| && Within(live[i], Mix(source[i], target[i], 253), bound)
    ensures Within(live[i], Blended(source, target, LAST)[i], bound)
  {
    LastWeight();
    BlendedColour(source, target, LAST, i);
  }

  /** The frame `live` follows the last blend towards `target` within `bound`, whatever image the
      fade came from, if and only if every channel satisfies ChannelExits. */
  lemma ExitExactlyWhen(target: seq<Pixel>, live: seq<Pixel>, bound: int, i: nat)
    requires |target| == |live| && i < |target|
    ensures ExitsFromAll(target, live, bound, i) <==> PixelExits(target[i], live[i], bound)
  {
    PixelExitsExactlyWhen(target[i], live[i], bound);
    if ExitsFromAll(target, live, bound, i) {
      forall pixel: Pixel ensures Within(live[i], Mix(pixel, target[i], 253), bound) {
        PlainSource(target, live, bound, i, pixel);
      }
    }
    if PixelExits(target[i], live[i], bound) {
      forall source: seq<Pixel> | |source| == |target|
        ensures Within(live[i], Blended(source, target, LAST)[i], bound)
      {
        AnySource(target, live, bound, i, source);
      }
    }
  }

  // ----- the frame counter

  datatype Fade = Fade(from: nat, to: nat, elapsed: nat, active: bool, ready: bool)

  function Begun(from: nat, to: nat): Fade { Fade(from, to, 0, from != to, false) }

  function Advanced(f: Fade): Fade {
    if !f.active then f
    else f.(elapsed := f.elapsed + 1, active := f.elapsed + 1 < FRAMES)
  }

  predicate NeedsRender(f: Fade) { f.active && !f.ready }

  function Rendered(f: Fade): Fade { if f.active then f.(ready := true) else f }

  class Crossfade {
    var from: nat
    var to: nat
    var elapsed: nat
    var active: bool
    var ready: bool

    function State(): Fade
      reads this
    {
      Fade(from, to, elapsed, active, ready)
    }

    constructor ()
      ensures State() == Fade(0, 0, 0, false, false)
    {
      from, to, elapsed, active, ready := 0, 0, 0, false, false;
    }

    method Begin(source: nat, target: nat)
      modifies this
      ensures State() == Begun(source, target)
    {
      from, to, elapsed := source, target, 0;
      active, ready := source != target, false;
    }

    method Advance()
      modifies this
      ensures State() == Advanced(old(State()))
    {
      if active {
        elapsed := elapsed + 1;
        if elapsed >= FRAMES {
          active := false;
        }
      }
    }

    method MarkRendered()
      modifies this
      ensures State() == Rendered(old(State()))
    {
      if active {
        ready := true;
      }
    }
  }
}
