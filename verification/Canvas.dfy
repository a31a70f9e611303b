/** Packed pixels, channel mixing and their bounds. */
module Canvas {
  import opened NatArithmetic

  /** Little-endian R, G, B, A bytes in a uint32. */
  type Pixel = n: nat | n <= 0xffff_ffff

  function Red(c: Pixel): nat { c % 256 }

  function Green(c: Pixel): nat { c / 256 % 256 }

  function Blue(c: Pixel): nat { c / 65536 % 256 }

  function Alpha(c: Pixel): nat { c / 16777216 }

  predicate Opaque(c: Pixel) { Alpha(c) == 255 }

  function ClampChannel(value: int): int {
    if value < 0 then 0 else if value > 255 then 255 else value
  }

  function Distance(a: int, b: int): nat { if a < b then b - a else a - b }

  /** Clamping gives the nearest channel value. */
  lemma ClampIsNearest(value: int, other: int)
    requires 0 <= other <= 255
    ensures 0 <= ClampChannel(value) <= 255
    ensures Distance(value, ClampChannel(value)) <= Distance(value, other)
  {
  }

  function Rgba(red: int, green: int, blue: int): Pixel {
    ClampChannel(red) + ClampChannel(green) * 256 + ClampChannel(blue) * 65536 + 255 * 16777216
  }

  /** `from + ((to - from) * amount >> 8)`; the shift floors. */
  function MixChannel(from: int, to: int, amount: nat): int {
    from + (to - from) * amount / 256
  }

  function Mix(from: Pixel, to: Pixel, amount: nat): Pixel {
    var a := if amount > 256 then 256 else amount;
    Rgba(MixChannel(Red(from), Red(to), a), MixChannel(Green(from), Green(to), a),
         MixChannel(Blue(from), Blue(to), a))
  }

  // ----- packing

  lemma UnpackRed(r: nat, g: nat, b: nat)
    requires r < 256
    ensures (r + g * 256 + b * 65536 + 255 * 16777216) % 256 == r
  {
  }

  lemma UnpackGreen(r: nat, g: nat, b: nat)
    requires r < 256 && g < 256
    ensures (r + g * 256 + b * 65536 + 255 * 16777216) / 256 == g + 256 * (b + 255 * 256)
    ensures (g + 256 * (b + 255 * 256)) % 256 == g
  {
  }

  lemma UnpackBlue(r: nat, g: nat, b: nat)
    requires r < 256 && g < 256 && b < 256
    ensures (r + g * 256 + b * 65536 + 255 * 16777216) / 65536 == b + 256 * 255
    ensures (b + 256 * 255) % 256 == b
    ensures (r + g * 256 + b * 65536 + 255 * 16777216) / 16777216 == 255
  {
  }

  /** Packing and unpacking are inverse up to the clamp; the result is opaque. */
  lemma RgbaChannels(red: int, green: int, blue: int)
    ensures var c := Rgba(red, green, blue);
            && Red(c) == ClampChannel(red) && Green(c) == ClampChannel(green)
            && Blue(c) == ClampChannel(blue) && Opaque(c)
  {
    var r, g, b := ClampChannel(red), ClampChannel(green), ClampChannel(blue);
    UnpackRed(r, g, b);
    UnpackGreen(r, g, b);
    UnpackBlue(r, g, b);
  }

  /** A pixel is determined by its four bytes. */
  lemma PixelFromChannels(c: Pixel)
    ensures c == Red(c) + Green(c) * 256 + Blue(c) * 65536 + Alpha(c) * 16777216
    ensures 0 <= Alpha(c) <= 255
  {
    ByteSplit(c);
    ByteSplit(c / 256);
    ByteSplit(c / 65536);
    assert c / 16777216 == c / 65536 / 256;
  }

  // ----- mixing one channel

  predicate Between(x: int, a: int, b: int) { a <= x <= b || b <= x <= a }

  lemma FloorBounds(n: int)
    ensures n / 256 * 256 <= n < n / 256 * 256 + 256
  {
  }

  lemma FloorShare(x: int, d: int)
    ensures 0 <= x <= 256 * d ==> 0 <= x / 256 <= d
    ensures 256 * d <= x <= 0 ==> d <= x / 256 <= 0
  {
    FloorBounds(x);
  }

  /** A mixed channel stays between its ends, so the clamp never acts. */
  lemma MixStaysBetween(from: int, to: int, amount: nat)
    requires amount <= 256
    ensures Between(MixChannel(from, to, amount), from, to)
  {
    var d := to - from;
    var x := d * amount;
    if d >= 0 {
      ProductMonotone(amount, 256, d);
      assert 0 <= x <= 256 * d;
    } else {
      ProductMonotone(amount, 256, -d);
      assert x == -(amount * -d);
      assert 256 * d <= x <= 0;
    }
    FloorShare(x, d);
  }

  /** A mixed channel is the weighted mean of its ends in 256 parts, rounded down. */
  lemma MixIsMean(from: int, to: int, amount: nat)
    ensures var m := MixChannel(from, to, amount);
            256 * m <= from * (256 - amount) + to * amount < 256 * (m + 1)
  {
    FloorBounds((to - from) * amount);
    assert from * (256 - amount) + to * amount == 256 * from + (to - from) * amount;
  }

  lemma FloorMotion(x: int, y: int, w: nat)
    requires x <= y <= x + 255 * w
    ensures 0 <= y / 256 - x / 256 <= w
  {
    FloorBounds(x);
    FloorBounds(y);
  }

  lemma ScaledBounds(d: int, w: nat)
    requires -255 <= d <= 255
    ensures d >= 0 ==> 0 <= d * w <= 255 * w
    ensures d <= 0 ==> -255 * w <= d * w <= 0
  {
    if d >= 0 {
      ProductMonotone(d, 255, w);
    } else {
      ProductMonotone(-d, 255, w);
      assert d * w == -(-d * w);
    }
  }

  /** Raising the weight moves a channel towards its target, never away, and by no more than
      the weight itself moved. */
  lemma MixMovesBounded(from: int, to: int, amount: nat, more: nat)
    requires 0 <= from <= 255 && 0 <= to <= 255 && amount <= more <= 256
    ensures var a, b := MixChannel(from, to, amount), MixChannel(from, to, more);
            && Between(a, from, b) && Between(b, a, to)
            && -(more - amount) <= b - a <= more - amount
  {
    var d, w := to - from, more - amount;
    var x, y := d * amount, d * more;
    MixStaysBetween(from, to, amount);
    MixStaysBetween(from, to, more);
    assert y == x + d * w;
    ScaledBounds(d, w);
    if d >= 0 {
      FloorMotion(x, y, w);
    } else {
      FloorMotion(y, x, w);
    }
  }

  // ----- mixing pixels

  predicate BetweenPixels(x: Pixel, a: Pixel, b: Pixel) {
    Between(Red(x), Red(a), Red(b)) && Between(Green(x), Green(a), Green(b)) && Between(Blue(x), Blue(a), Blue(b))
  }

  predicate Within(x: Pixel, y: Pixel, bound: int) {
    && -bound <= Red(x) - Red(y) <= bound
    && -bound <= Green(x) - Green(y) <= bound
    && -bound <= Blue(x) - Blue(y) <= bound
  }

  lemma WithinAdds(x: Pixel, y: Pixel, z: Pixel, a: int, b: int)
    requires Within(x, y, a) && Within(y, z, b)
    ensures Within(x, z, a + b)
  {
  }

  /** The channels of a mix are the mixed channels: no clamp, and always opaque. */
  lemma MixChannels(from: Pixel, to: Pixel, amount: nat)
    requires amount <= 256
    ensures var m := Mix(from, to, amount);
            && Red(m) == MixChannel(Red(from), Red(to), amount)
            && Green(m) == MixChannel(Green(from), Green(to), amount)
            && Blue(m) == MixChannel(Blue(from), Blue(to), amount) && Opaque(m)
  {
    MixStaysBetween(Red(from), Red(to), amount);
    MixStaysBetween(Green(from), Green(to), amount);
    MixStaysBetween(Blue(from), Blue(to), amount);
    RgbaChannels(MixChannel(Red(from), Red(to), amount), MixChannel(Green(from), Green(to), amount),
                 MixChannel(Blue(from), Blue(to), amount));
  }

  /** Between two weights every channel moves from source towards target by at most the
      difference of the weights. */
  lemma MixMotion(from: Pixel, to: Pixel, amount: nat, more: nat)
    requires amount <= more <= 256
    ensures BetweenPixels(Mix(from, to, amount), from, Mix(from, to, more))
    ensures BetweenPixels(Mix(from, to, more), Mix(from, to, amount), to)
    ensures Within(Mix(from, to, more), Mix(from, to, amount), more - amount)
  {
    MixChannels(from, to, amount);
    MixChannels(from, to, more);
    MixMovesBounded(Red(from), Red(to), amount, more);
    MixMovesBounded(Green(from), Green(to), amount, more);
    MixMovesBounded(Blue(from), Blue(to), amount, more);
  }

  lemma MixEnds(from: int, to: int)
    ensures MixChannel(from, to, 0) == from && MixChannel(from, to, 256) == to
  {
  }

  predicate SameColour(c: Pixel, d: Pixel) {
    Red(c) == Red(d) && Green(c) == Green(d) && Blue(c) == Blue(d)
  }

  /** At the ends of the weight range mixing returns the end's colour. */
  lemma MixEndColours(from: Pixel, to: Pixel)
    ensures SameColour(from, Mix(from, to, 0)) && SameColour(to, Mix(from, to, 256))
  {
    MixChannels(from, to, 0);
    MixChannels(from, to, 256);
    MixEnds(Red(from), Red(to));
    MixEnds(Green(from), Green(to));
    MixEnds(Blue(from), Blue(to));
  }

  lemma MixSame(c: Pixel, amount: nat)
    requires amount <= 256
    ensures SameColour(Mix(c, c, amount), c)
  {
    MixChannels(c, c, amount);
    MixStaysBetween(Red(c), Red(c), amount);
    MixStaysBetween(Green(c), Green(c), amount);
    MixStaysBetween(Blue(c), Blue(c), amount);
  }

  lemma SamePixel(c: Pixel, d: Pixel)
    ensures c == d <==> Red(c) == Red(d) && Green(c) == Green(d) && Blue(c) == Blue(d) && Alpha(c) == Alpha(d)
  {
    PixelFromChannels(c);
    PixelFromChannels(d);
  }

  /** The copy shortcuts of the blend agree with mixing exactly on opaque pixels: mixing forces
      the alpha byte, copying keeps it. */
  lemma CopyIsMixWhenOpaque(from: Pixel, to: Pixel)
    ensures Mix(from, to, 0) == from <==> Opaque(from)
    ensures Mix(from, to, 256) == to <==> Opaque(to)
  {
    MixChannels(from, to, 0);
    MixChannels(from, to, 256);
    MixEnds(Red(from), Red(to));
    MixEnds(Green(from), Green(to));
    MixEnds(Blue(from), Blue(to));
    SamePixel(Mix(from, to, 0), from);
    SamePixel(Mix(from, to, 256), to);
  }
}
