/** The canvas writer's PPM and the flash checker's reader of it. */
module Ppm {
  import opened NatArithmetic
  import opened Canvas
  import opened Bytes

  // ----- writing

  const SIZE_MAX := 0xffff_ffff

  datatype Surface = Surface(pixels: seq<Pixel>, width: nat, height: nat, stride: nat)

  predicate Writable(c: Surface) {
    && 0 < c.width && 0 < c.height && c.width <= c.stride
    && c.height <= SIZE_MAX / c.stride && c.stride * c.height <= SIZE_MAX / 4
  }

  /** Dividing instead of multiplying tests exactly that the pixel memory can be addressed. */
  lemma WritableMeans(c: Surface)
    ensures Writable(c) <==> 0 < c.width <= c.stride && 0 < c.height && c.stride * c.height * 4 <= SIZE_MAX
  {
    if 0 < c.width <= c.stride && 0 < c.height && c.stride * c.height * 4 <= SIZE_MAX {
      QuotientAtLeast(c.height, SIZE_MAX, c.stride);
    }
  }

  /** The pixel memory reaches as far as stride and height say. */
  predicate Backed(c: Surface) { c.stride * c.height <= |c.pixels| }

  lemma PixelInside(c: Surface, row: nat, column: nat)
    requires Writable(c) && Backed(c) && row < c.height && column < c.width
    ensures row * c.stride + column < |c.pixels|
  {
    ProductMonotone(row + 1, c.height, c.stride);
    assert (row + 1) * c.stride == row * c.stride + c.stride;
  }

  function Rgb(color: Pixel): seq<Byte> { [Red(color), Green(color), Blue(color)] }

  /** The first `columns` pixels of a row, three bytes each. */
  function RowBytes(c: Surface, row: nat, columns: nat): seq<Byte>
    requires Writable(c) && Backed(c) && row < c.height && columns <= c.width
  {
    if columns == 0 then []
    else
      PixelInside(c, row, columns - 1);
      RowBytes(c, row, columns - 1) + Rgb(c.pixels[row * c.stride + (columns - 1)])
  }

  function Raster(c: Surface, rows: nat): seq<Byte>
    requires Writable(c) && Backed(c) && rows <= c.height
  {
    if rows == 0 then [] else Raster(c, rows - 1) + RowBytes(c, rows - 1, c.width)
  }

  /** printf("%zu"). */
  function Digits(n: nat): seq<Byte> {
    if n < 10 then [48 + n] else Digits(n / 10) + [48 + n % 10]
  }

  function Header(width: nat, height: nat): seq<Byte> {
    [80, 54, 10] + Digits(width) + [32] + Digits(height) + [10] + [50, 53, 53] + [10]
  }

  datatype Written = Written(output: seq<Byte>) | Refused

  // ----- what the raster means

  lemma {:induction false} RowBytesAt(c: Surface, row: nat, columns: nat, column: nat, channel: nat)
    requires Writable(c) && Backed(c) && row < c.height && columns <= c.width
    ensures |RowBytes(c, row, columns)| == 3 * columns
    ensures column < columns && channel < 3 ==>
              row * c.stride + column < |c.pixels| &&
              RowBytes(c, row, columns)[3 * column + channel] == Rgb(c.pixels[row * c.stride + column])[channel]
    decreases columns
  {
    if columns > 0 {
      PixelInside(c, row, columns - 1);
      RowBytesAt(c, row, columns - 1, column, channel);
    }
  }

  lemma {:induction false} RasterGrows(c: Surface, rows: nat, more: nat)
    requires Writable(c) && Backed(c) && rows <= more <= c.height
    ensures |Raster(c, rows)| <= |Raster(c, more)|
    decreases more
  {
    if rows < more { RasterGrows(c, rows, more - 1); }
  }

  /** What is written before the end is no longer than the whole. */
  lemma PartOfRaster(c: Surface, row: nat, columns: nat)
    requires Writable(c) && Backed(c) && row < c.height && columns <= c.width
    ensures |Raster(c, row)| + |RowBytes(c, row, columns)| <= |Raster(c, c.height)|
  {
    RowBytesAt(c, row, columns, 0, 0);
    RowBytesAt(c, row, c.width, 0, 0);
    RasterGrows(c, row + 1, c.height);
  }

  /** One row onto a stream that takes `room` bytes in all. */
  method WriteRow(c: Surface, row: nat, before: seq<Byte>, room: nat) returns (ok: bool, output: seq<Byte>)
    requires Writable(c) && Backed(c) && row < c.height && |before| <= room
    ensures ok == (|before| + |RowBytes(c, row, c.width)| <= room)
    ensures ok ==> output == before + RowBytes(c, row, c.width)
  {
    output := before;
    for column := 0 to c.width
      invariant output == before + RowBytes(c, row, column) && |output| <= room
    {
      PixelInside(c, row, column);
      RowBytesAt(c, row, column + 1, 0, 0);
      RowBytesAt(c, row, c.width, 0, 0);
      var color := c.pixels[row * c.stride + column];
      if |output| + 3 > room {
        return false, output;
      }
      output := output + [Red(color), Green(color), Blue(color)];
    }
    ok := true;
  }

  /** The stream takes `room` bytes and may report an error at the end: the writer succeeds exactly
      when the canvas is valid and the stream took everything. */
  method WritePpm(c: Surface, room: nat, lateError: bool) returns (w: Written)
    requires Backed(c)
    ensures w == if Writable(c) && !lateError && |Header(c.width, c.height)| + |Raster(c, c.height)| <= room
                 then Written(Header(c.width, c.height) + Raster(c, c.height)) else Refused
  {
    if !Writable(c) {
      return Refused;
    }
    var output := Header(c.width, c.height);
    if |output| > room {
      return Refused;
    }
    for row := 0 to c.height
      invariant output == Header(c.width, c.height) + Raster(c, row) && |output| <= room
    {
      PartOfRaster(c, row, c.width);
      var ok;
      ok, output := WriteRow(c, row, output, room);
      if !ok {
        return Refused;
      }
    }
    w := if lateError then Refused else Written(output);
  }

  lemma {:induction false} RasterSize(c: Surface, rows: nat)
    requires Writable(c) && Backed(c) && rows <= c.height
    ensures |Raster(c, rows)| == 3 * (rows * c.width)
  {
    if rows > 0 {
      RasterSize(c, rows - 1);
      RowBytesAt(c, rows - 1, c.width, 0, 0);
      assert rows * c.width == (rows - 1) * c.width + c.width;
    }
  }

  lemma {:induction false} RasterHolds(c: Surface, rows: nat, row: nat, column: nat, channel: nat, at: nat, from_: nat)
    requires Writable(c) && Backed(c) && row < rows <= c.height && column < c.width && channel < 3
    requires at == 3 * (row * c.width + column) + channel && from_ == row * c.stride + column
    ensures from_ < |c.pixels| && at < |Raster(c, rows)| && Raster(c, rows)[at] == Rgb(c.pixels[from_])[channel]
    decreases rows
  {
    PixelInside(c, row, column);
    RasterSize(c, rows);
    RasterSize(c, rows - 1);
    RowBytesAt(c, rows - 1, c.width, column, channel);
    if row < rows - 1 {
      RasterHolds(c, rows - 1, row, column, channel, at, from_);
    }
  }

  /** Row-major RGB: byte `at` of the raster is byte `channel`, counted from the lowest, of pixel
      (`row`, `column`), found at `from_` in memory, whatever the stride. */
  lemma RasterAt(c: Surface, row: nat, column: nat, channel: nat, at: nat, from_: nat)
    requires Writable(c) && Backed(c) && row < c.height && column < c.width && channel < 3
    requires at == 3 * (row * c.width + column) + channel && from_ == row * c.stride + column
    ensures from_ < |c.pixels| && at < |Raster(c, c.height)| == 3 * (c.height * c.width)
    ensures Raster(c, c.height)[at] ==
            c.pixels[from_] / (if channel == 0 then 1 else if channel == 1 then 256 else 65536) % 256
  {
    RasterSize(c, c.height);
    RasterHolds(c, c.height, row, column, channel, at, from_);
  }

  // ----- reading

  predicate IsSpace(b: Byte) { b == 32 || b == 9 || b == 13 || b == 10 }

  predicate IsLineEnd(b: Byte) { b == 13 || b == 10 }

  predicate IsDigit(b: Byte) { 48 <= b <= 57 }

  function SkipSpace(data: seq<Byte>, at: nat): (p: nat)
    requires at <= |data|
    ensures at <= p <= |data| && (p < |data| ==> !IsSpace(data[p]))
    decreases |data| - at
  {
    if at < |data| && IsSpace(data[at]) then SkipSpace(data, at + 1) else at
  }

  function LineEnd(data: seq<Byte>, at: nat): (p: nat)
    requires at <= |data|
    ensures at <= p <= |data|
    ensures at < |data| && !IsLineEnd(data[at]) ==> at < p
    decreases |data| - at
  {
    if at < |data| && !IsLineEnd(data[at]) then LineEnd(data, at + 1) else at
  }

  function TokenEnd(data: seq<Byte>, at: nat): (p: nat)
    requires at <= |data|
    ensures at <= p <= |data|
    decreases |data| - at
  {
    if at < |data| && !IsSpace(data[at]) then TokenEnd(data, at + 1) else at
  }

  /** Where the next token starts: past white space and comments. */
  function TokenStart(data: seq<Byte>, at: nat): (p: nat)
    requires at <= |data|
    ensures at <= p <= |data|
    decreases |data| - at
  {
    var p := SkipSpace(data, at);
    if p < |data| && data[p] == 35 then TokenStart(data, LineEnd(data, p)) else p
  }

  /** Python's int() on bytes: surrounding white space, a sign, digits with single underscores. */
  predicate IsPySpace(b: Byte) { b == 32 || 9 <= b <= 13 }

  function StripLeft(t: seq<Byte>): seq<Byte> {
    if t != [] && IsPySpace(t[0]) then StripLeft(t[1..]) else t
  }

  function StripRight(t: seq<Byte>): seq<Byte> {
    if t != [] && IsPySpace(t[|t| - 1]) then StripRight(t[..|t| - 1]) else t
  }

  /** A digit, or an underscore in front of one. */
  predicate DigitPlace(t: seq<Byte>, i: nat)
    requires i < |t|
  {
    IsDigit(t[i]) || (t[i] == 95 && i + 1 < |t| && IsDigit(t[i + 1]))
  }

  predicate NumberShape(t: seq<Byte>) {
    && t != [] && IsDigit(t[0]) && IsDigit(t[|t| - 1])
    && forall i :: 0 <= i < |t| ==> DigitPlace(t, i)
  }

  function NumberValue(t: seq<Byte>): int {
    if t == [] then 0
    else if IsDigit(t[|t| - 1]) then NumberValue(t[..|t| - 1]) * 10 + (t[|t| - 1] - 48)
    else NumberValue(t[..|t| - 1])
  }

  datatype Int = Int(value: int) | NotInt

  /** An optional sign, then digits. */
  function SignedInt(t: seq<Byte>): Int {
    var signed := t != [] && (t[0] == 43 || t[0] == 45);
    var digits := if signed then t[1..] else t;
    if !NumberShape(digits) then NotInt
    else if signed && t[0] == 45 then Int(-NumberValue(digits))
    else Int(NumberValue(digits))
  }

  function PyInt(token: seq<Byte>): Int { SignedInt(StripRight(StripLeft(token))) }

  datatype Image = Image(width: int, height: int, body: seq<Byte>) | NotPpm | BadNumber | BadDepth | Truncated

  /** Python's `body[:n]`. */
  function UpTo(body: seq<Byte>, n: int): (kept: seq<Byte>)
    ensures kept <= body
    ensures 0 <= n <= |body| ==> |kept| == n
    ensures n > |body| ==> |kept| == |body|
    ensures n < 0 ==> |kept| == if |body| + n > 0 then |body| + n else 0
  {
    if n >= |body| then body
    else if n >= 0 then body[..n]
    else if |body| + n <= 0 then [] else body[..|body| + n]
  }

  function Interpret(data: seq<Byte>, tokens: seq<seq<Byte>>, at: nat): Image
    requires |tokens| == 3
  {
    var width, height, depth := PyInt(tokens[0]), PyInt(tokens[1]), PyInt(tokens[2]);
    if width.NotInt? || height.NotInt? || depth.NotInt? then BadNumber
    else if depth.value != 255 then BadDepth
    else
      var body := if at + 1 <= |data| then data[at + 1..] else [];
      var n := width.value * height.value * 3;
      if |body| < n then Truncated else Image(width.value, height.value, UpTo(body, n))
  }

  /** The tokens from `at` on, and the position behind the last. */
  function Tokens(data: seq<Byte>, at: nat, count: nat): (r: (seq<seq<Byte>>, nat))
    requires at <= |data|
    ensures |r.0| == count && r.1 <= |data|
    decreases count
  {
    if count == 0 then ([], at)
    else
      var start := TokenStart(data, at);
      var end := TokenEnd(data, start);
      var rest := Tokens(data, end, count - 1);
      ([data[start..end]] + rest.0, rest.1)
  }

  function Parse(data: seq<Byte>): Image {
    if |data| < 2 || data[..2] != [80, 54] then NotPpm
    else
      var t := Tokens(data, 2, 3);
      Interpret(data, t.0, t.1)
  }

  lemma {:induction false} TokensSnoc(data: seq<Byte>, at: nat, count: nat)
    requires at <= |data|
    ensures var before := Tokens(data, at, count);
            var start := TokenStart(data, before.1);
            var end := TokenEnd(data, start);
            Tokens(data, at, count + 1) == (before.0 + [data[start..end]], end)
    decreases count
  {
    if count > 0 {
      var start := TokenStart(data, at);
      var end := TokenEnd(data, start);
      TokensSnoc(data, end, count - 1);
      var rest, next := Tokens(data, end, count - 1), TokenStart(data, Tokens(data, end, count - 1).1);
      var last := data[next..TokenEnd(data, next)];
      assert [data[start..end]] + (rest.0 + [last]) == ([data[start..end]] + rest.0) + [last];
    } else {
      var start := TokenStart(data, at);
      assert [data[start..TokenEnd(data, start)]] + [] == [] + [data[start..TokenEnd(data, start)]];
    }
  }

  method PassSpace(data: seq<Byte>, at: nat) returns (position: nat)
    requires at <= |data|
    ensures position == SkipSpace(data, at)
  {
    position := at;
    while position < |data| && IsSpace(data[position])
      invariant at <= position <= |data| && SkipSpace(data, position) == SkipSpace(data, at)
    {
      position := position + 1;
    }
  }

  method PassComment(data: seq<Byte>, at: nat) returns (position: nat)
    requires at <= |data|
    ensures position == LineEnd(data, at)
  {
    position := at;
    while position < |data| && !IsLineEnd(data[position])
      invariant at <= position <= |data| && LineEnd(data, position) == LineEnd(data, at)
    {
      position := position + 1;
    }
  }

  method PassToken(data: seq<Byte>, at: nat) returns (position: nat)
    requires at <= |data|
    ensures position == TokenEnd(data, at)
  {
    position := at;
    while position < |data| && !IsSpace(data[position])
      invariant at <= position <= |data| && TokenEnd(data, position) == TokenEnd(data, at)
    {
      position := position + 1;
    }
  }

  method ReadPpm(data: seq<Byte>) returns (image: Image)
    ensures image == Parse(data)
  {
    if |data| < 2 || data[..2] != [80, 54] {
      return NotPpm;
    }
    var position: nat, tokens: seq<seq<Byte>> := 2, [];
    ghost var done := 2;     // where the last token ended
    while |tokens| < 3
      invariant |tokens| <= 3 && done <= position <= |data|
      invariant (tokens, done) == Tokens(data, 2, |tokens|)
      invariant TokenStart(data, position) == TokenStart(data, done)
      invariant |tokens| == 3 ==> position == done
      decreases 3 - |tokens|, |data| - position
    {
      position := PassSpace(data, position);
      if position < |data| && data[position] == 35 {
        position := PassComment(data, position);
        continue;
      }
      var start := position;
      position := PassToken(data, start);
      TokensSnoc(data, 2, |tokens|);
      tokens := tokens + [data[start..position]];
      done := position;
    }
    image := Interpret(data, tokens, position);
  }

  // ----- the reader undoes the writer

  lemma {:induction false} DigitsReadBack(n: nat)
    ensures |Digits(n)| > 0 && (forall i :: 0 <= i < |Digits(n)| ==> IsDigit(Digits(n)[i]))
    ensures NumberValue(Digits(n)) == n && (Digits(n)[0] == 48 <==> n == 0)
  {
    var d := Digits(n);
    if n < 10 {
      assert d[..0] == [];
      assert NumberValue(d) == NumberValue(d[..0]) * 10 + n;
    } else {
      DigitsReadBack(n / 10);
      assert d[..|d| - 1] == Digits(n / 10);
    }
  }

  lemma PyIntReadsDigits(n: nat)
    ensures PyInt(Digits(n)) == Int(n)
  {
    DigitsReadBack(n);
    var d := Digits(n);
    assert IsDigit(d[0]) && IsDigit(d[|d| - 1]);
    assert StripLeft(d) == d && StripRight(d) == d;
  }

  lemma {:induction false} TokenRunsTo(data: seq<Byte>, at: nat, end: nat)
    requires at <= end < |data| && IsSpace(data[end])
    requires forall k :: at <= k < end ==> !IsSpace(data[k])
    ensures TokenEnd(data, at) == end
    decreases end - at
  {
    if at < end { TokenRunsTo(data, at + 1, end); }
  }

  predicate AllDigits(token: seq<Byte>) {
    token != [] && forall k :: 0 <= k < |token| ==> IsDigit(token[k])
  }

  predicate EndsInSpace(s: seq<Byte>) { s != [] && IsSpace(s[|s| - 1]) }

  predicate StartsWithSpace(s: seq<Byte>) { s != [] && IsSpace(s[0]) }

  /** A number between two separators is the next token. */
  lemma TokenSpan(data: seq<Byte>, before: seq<Byte>, token: seq<Byte>, after: seq<Byte>)
    requires EndsInSpace(before) && AllDigits(token) && StartsWithSpace(after) && data == before + token + after
    ensures TokenStart(data, |before| - 1) == |before| && TokenEnd(data, |before|) == |before| + |token|
    ensures data[|before|..|before| + |token|] == token
  {
    var start, end := |before|, |before| + |token|;
    assert data[start..end] == token && data[end] == after[0];
    forall k | start <= k < end ensures IsDigit(data[k]) {
      assert data[k] == token[k - start];
    }
    assert SkipSpace(data, start) == start;
    TokenRunsTo(data, start, end);
  }

  lemma NextToken(data: seq<Byte>, before: seq<Byte>, token: seq<Byte>, after: seq<Byte>, rest: seq<seq<Byte>>,
                  last: nat)
    requires EndsInSpace(before) && AllDigits(token) && StartsWithSpace(after) && data == before + token + after
    requires Tokens(data, |before| + |token|, |rest|) == (rest, last)
    ensures Tokens(data, |before| - 1, |rest| + 1) == ([token] + rest, last)
  {
    TokenSpan(data, before, token, after);
  }

  function Framed(w: seq<Byte>, h: seq<Byte>, m: seq<Byte>): seq<Byte> {
    [80, 54, 10] + w + [32] + h + [10] + m + [10]
  }

  /** The three places where a header can be cut around a token. */
  lemma FramedSplits(w: seq<Byte>, h: seq<Byte>, m: seq<Byte>, raster: seq<Byte>)
    ensures var data, p0: seq<Byte> := Framed(w, h, m) + raster, [80, 54, 10];
            var p1 := p0 + w + [32];
            var p2 := p1 + h + [10];
            && data == p2 + m + ([10] + raster)
            && data == p1 + h + ([10] + m + [10] + raster)
            && data == p0 + w + ([32] + h + [10] + m + [10] + raster)
  {
  }

  lemma LastToken(data: seq<Byte>, before: seq<Byte>, m: seq<Byte>, after: seq<Byte>)
    requires EndsInSpace(before) && AllDigits(m) && StartsWithSpace(after) && data == before + m + after
    ensures Tokens(data, |before| - 1, 1) == ([m], |before| + |m|)
  {
    NextToken(data, before, m, after, [], |before| + |m|);
    assert [m] + [] == [m];
  }

  lemma LastTwoTokens(data: seq<Byte>, p1: seq<Byte>, h: seq<Byte>, t1: seq<Byte>, p2: seq<Byte>, m: seq<Byte>,
                      t2: seq<Byte>)
    requires EndsInSpace(p1) && AllDigits(h) && StartsWithSpace(t1) && data == p1 + h + t1 && |p2| == |p1| + |h| + 1
    requires EndsInSpace(p2) && AllDigits(m) && StartsWithSpace(t2) && data == p2 + m + t2
    ensures Tokens(data, |p1| - 1, 2) == ([h, m], |p2| + |m|)
  {
    LastToken(data, p2, m, t2);
    NextToken(data, p1, h, t1, [m], |p2| + |m|);
    assert [h] + [m] == [h, m];
  }

  lemma FramedTokens(w: seq<Byte>, h: seq<Byte>, m: seq<Byte>, raster: seq<Byte>)
    requires AllDigits(w) && AllDigits(h) && AllDigits(m)
    ensures Tokens(Framed(w, h, m) + raster, 2, 3) == ([w, h, m], |Framed(w, h, m)| - 1)
  {
    FramedSplits(w, h, m, raster);
    var data, p0: seq<Byte> := Framed(w, h, m) + raster, [80, 54, 10];
    var p1 := p0 + w + [32];
    LastTwoTokens(data, p1, h, [10] + m + [10] + raster, p1 + h + [10], m, [10] + raster);
    NextToken(data, p0, w, [32] + h + [10] + m + [10] + raster, [h, m], |Framed(w, h, m)| - 1);
    assert [w] + [h, m] == [w, h, m];
  }

  lemma InterpretInts(data: seq<Byte>, tokens: seq<seq<Byte>>, width: nat, height: nat, size: nat, at: nat,
                      raster: seq<Byte>)
    requires at < |data| && |tokens| == 3 && size == width * height * 3 && data[at + 1..] == raster
    requires PyInt(tokens[0]) == Int(width) && PyInt(tokens[1]) == Int(height) && PyInt(tokens[2]) == Int(255)
    ensures Interpret(data, tokens, at) == if |raster| < size then Truncated else Image(width, height, raster[..size])
  {
    assert UpTo(raster, |raster|) == raster[..|raster|];
  }

  lemma ParseFrom(data: seq<Byte>, tokens: seq<seq<Byte>>, at: nat)
    requires |data| >= 2 && data[..2] == [80, 54] && Tokens(data, 2, 3) == (tokens, at)
    ensures |tokens| == 3 && Parse(data) == Interpret(data, tokens, at)
  {
  }

  lemma FramedParse(w: seq<Byte>, h: seq<Byte>, m: seq<Byte>, raster: seq<Byte>)
    requires AllDigits(w) && AllDigits(h) && AllDigits(m)
    ensures var data, at := Framed(w, h, m) + raster, |Framed(w, h, m)| - 1;
            Parse(data) == Interpret(data, [w, h, m], at) && data[at + 1..] == raster
  {
    var data, at := Framed(w, h, m) + raster, |Framed(w, h, m)| - 1;
    assert data[..2] == [80, 54];
    FramedTokens(w, h, m, raster);
    ParseFrom(data, [w, h, m], at);
  }

  lemma MaximumReads()
    ensures PyInt([50, 53, 53]) == Int(255) && AllDigits([50, 53, 53])
  {
    var m: seq<Byte> := [50, 53, 53];
    assert m[..2] == [50, 53] && m[..2][..1] == [50] && m[..2][..1][..0] == [];
    assert NumberValue([50]) == 2 && NumberValue([50, 53]) == 25 && NumberValue(m) == 255;
    assert StripLeft(m) == m && StripRight(m) == m;
  }

  /** The reader on anything that starts with a header: the bytes behind it are the raster. */
  lemma ParseHeaded(width: nat, height: nat, size: nat, raster: seq<Byte>)
    requires size == width * height * 3
    ensures Parse(Header(width, height) + raster) ==
            if |raster| < size then Truncated else Image(width, height, raster[..size])
  {
    DigitsReadBack(width);
    DigitsReadBack(height);
    PyIntReadsDigits(width);
    PyIntReadsDigits(height);
    MaximumReads();
    var w, h, m: seq<Byte> := Digits(width), Digits(height), [50, 53, 53];
    assert Header(width, height) == Framed(w, h, m);
    FramedParse(w, h, m, raster);
    InterpretInts(Framed(w, h, m) + raster, [w, h, m], width, height, size, |Framed(w, h, m)| - 1, raster);
  }

  /** Any raster of the right size comes back byte for byte, whatever its first byte is. */
  lemma WholeRaster(width: nat, height: nat, raster: seq<Byte>)
    requires |raster| == width * height * 3
    ensures Parse(Header(width, height) + raster) == Image(width, height, raster)
  {
    ParseHeaded(width, height, |raster|, raster);
    assert raster[..|raster|] == raster;
  }

  lemma RasterBytes(c: Surface)
    requires Writable(c) && Backed(c)
    ensures |Raster(c, c.height)| == c.width * c.height * 3
  {
    RasterSize(c, c.height);
  }

  /** What the writer writes, the reader reads: same size, exactly the row-major RGB bytes. */
  lemma RoundTrip(c: Surface)
    requires Writable(c) && Backed(c)
    ensures Parse(Header(c.width, c.height) + Raster(c, c.height)) == Image(c.width, c.height, Raster(c, c.height))
  {
    RasterBytes(c);
    WholeRaster(c.width, c.height, Raster(c, c.height));
  }

  // ----- any header

  /** White space and comments; a comment runs from `#` to the end of its line. */
  predicate IsGap(gap: seq<Byte>, inComment: bool) {
    if gap == [] then !inComment
    else if inComment then IsGap(gap[1..], gap[0] != 13 && gap[0] != 10)
    else if gap[0] == 35 then IsGap(gap[1..], true)
    else gap[0] in {9, 10, 13, 32} && IsGap(gap[1..], false)
  }

  /** Behind `at` there is a gap up to `start`, and then a word up to `end` that is not a comment. */
  predicate WordAt(data: seq<Byte>, at: nat, start: nat, end: nat) {
    && at <= start < end <= |data| && IsGap(data[at..start], false) && data[start] != 35
    && (forall k :: start <= k < end ==> !IsSpace(data[k])) && (end < |data| ==> IsSpace(data[end]))
  }

  lemma {:induction false} GapIsSkipped(data: seq<Byte>, at: nat, start: nat, inComment: bool)
    requires at <= start < |data| && IsGap(data[at..start], inComment) && !IsSpace(data[start]) && data[start] != 35
    ensures TokenStart(data, if inComment then LineEnd(data, at) else at) == start
    decreases start - at
  {
    if at < start {
      var gap := data[at..start];
      assert gap[0] == data[at] && gap[1..] == data[at + 1..start];
      if inComment {
        GapIsSkipped(data, at + 1, start, data[at] != 13 && data[at] != 10);
      } else {
        GapIsSkipped(data, at + 1, start, data[at] == 35);
      }
    }
  }

  lemma {:induction false} WordEnds(data: seq<Byte>, at: nat, end: nat)
    requires at <= end <= |data| && (end < |data| ==> IsSpace(data[end]))
    requires forall k :: at <= k < end ==> !IsSpace(data[k])
    ensures TokenEnd(data, at) == end
    decreases end - at
  {
    if at < end { WordEnds(data, at + 1, end); }
  }

  lemma WordIsNext(data: seq<Byte>, at: nat, start: nat, end: nat, more: nat)
    requires WordAt(data, at, start, end)
    ensures Tokens(data, at, more + 1) == ([data[start..end]] + Tokens(data, end, more).0, Tokens(data, end, more).1)
  {
    GapIsSkipped(data, at, start, false);
    WordEnds(data, start, end);
  }

  lemma ThreeWords(data: seq<Byte>, at: nat, s1: nat, e1: nat, s2: nat, e2: nat, s3: nat, e3: nat)
    requires WordAt(data, at, s1, e1) && WordAt(data, e1, s2, e2) && WordAt(data, e2, s3, e3)
    ensures Tokens(data, at, 3) == ([data[s1..e1], data[s2..e2], data[s3..e3]], e3)
  {
    WordIsNext(data, e2, s3, e3, 0);
    WordIsNext(data, e1, s2, e2, 1);
    WordIsNext(data, at, s1, e1, 2);
    var a, b, c := data[s1..e1], data[s2..e2], data[s3..e3];
    assert [c] + [] == [c] && [b] + [c] == [b, c] && [a] + [b, c] == [a, b, c];
  }

  /** However white space and comments are put between them, the reader takes the three words behind the
      magic number as width, height and depth, and the bytes behind the last word's delimiter as the
      body. */
  lemma HeaderWords(data: seq<Byte>, s1: nat, e1: nat, s2: nat, e2: nat, s3: nat, e3: nat)
    requires |data| >= 2 && data[0] == 80 && data[1] == 54
    requires WordAt(data, 2, s1, e1) && WordAt(data, e1, s2, e2) && WordAt(data, e2, s3, e3)
    ensures Parse(data) == Interpret(data, [data[s1..e1], data[s2..e2], data[s3..e3]], e3)
  {
    assert data[..2] == [80, 54];
    ThreeWords(data, 2, s1, e1, s2, e2, s3, e3);
    ParseFrom(data, [data[s1..e1], data[s2..e2], data[s3..e3]], e3);
  }

  // ----- numbers as Python reads them

  lemma {:induction false} StripsLeft(pad: seq<Byte>, t: seq<Byte>)
    requires (forall k :: 0 <= k < |pad| ==> IsPySpace(pad[k])) && t != [] && !IsPySpace(t[0])
    ensures StripLeft(pad + t) == t
  {
    if pad == [] {
      assert pad + t == t;
    } else {
      assert (pad + t)[1..] == pad[1..] + t;
      StripsLeft(pad[1..], t);
    }
  }

  lemma {:induction false} StripsRight(t: seq<Byte>, pad: seq<Byte>)
    requires (forall k :: 0 <= k < |pad| ==> IsPySpace(pad[k])) && t != [] && !IsPySpace(t[|t| - 1])
    ensures StripRight(t + pad) == t
  {
    if pad == [] {
      assert t + pad == t;
    } else {
      assert (t + pad)[..|t + pad| - 1] == t + pad[..|pad| - 1];
      StripsRight(t, pad[..|pad| - 1]);
    }
  }

  lemma Stripped(left: seq<Byte>, t: seq<Byte>, right: seq<Byte>)
    requires forall k :: 0 <= k < |left| ==> IsPySpace(left[k])
    requires forall k :: 0 <= k < |right| ==> IsPySpace(right[k])
    requires t != [] && !IsPySpace(t[0]) && !IsPySpace(t[|t| - 1])
    ensures StripRight(StripLeft(left + t + right)) == t
  {
    StripsLeft(left, t + right);
    assert left + (t + right) == left + t + right;
    StripsRight(t, right);
  }

  lemma SignCounts(sign: seq<Byte>, digits: seq<Byte>)
    requires NumberShape(digits) && (sign == [] || sign == [43] || sign == [45])
    ensures SignedInt(sign + digits) == Int(if sign == [45] then -NumberValue(digits) else NumberValue(digits))
  {
    if sign == [] {
      assert sign + digits == digits;
    } else {
      assert (sign + digits)[1..] == digits;
    }
  }

  /** Blank, tab, line feed, vertical tab, form feed and carriage return. */
  predicate IsPadding(pad: seq<Byte>) {
    forall k :: 0 <= k < |pad| ==> pad[k] in {9, 10, 11, 12, 13, 32}
  }

  /** White space around a number does not count, `+` changes nothing and `-` negates. */
  lemma PyIntSigned(left: seq<Byte>, sign: seq<Byte>, digits: seq<Byte>, right: seq<Byte>)
    requires IsPadding(left) && IsPadding(right)
    requires NumberShape(digits) && (sign == [] || sign == [43] || sign == [45])
    ensures PyInt(left + (sign + digits) + right) ==
            Int(if sign == [45] then -NumberValue(digits) else NumberValue(digits))
  {
    var t := sign + digits;
    assert t[|t| - 1] == digits[|digits| - 1] && t[0] == if sign == [] then digits[0] else sign[0];
    Stripped(left, t, right);
    SignCounts(sign, digits);
  }

  lemma {:induction false} LeftPadding(t: seq<Byte>) returns (pad: seq<Byte>)
    ensures IsPadding(pad) && t == pad + StripLeft(t)
  {
    pad := [];
    if t != [] && IsPySpace(t[0]) {
      var rest := LeftPadding(t[1..]);
      pad := [t[0]] + rest;
    }
  }

  lemma {:induction false} RightPadding(t: seq<Byte>) returns (pad: seq<Byte>)
    ensures IsPadding(pad) && t == StripRight(t) + pad
  {
    pad := [];
    if t != [] && IsPySpace(t[|t| - 1]) {
      var rest := RightPadding(t[..|t| - 1]);
      pad := rest + [t[|t| - 1]];
    }
  }

  lemma SignedParts(t: seq<Byte>) returns (sign: seq<Byte>, digits: seq<Byte>)
    requires SignedInt(t).Int?
    ensures NumberShape(digits) && (sign == [] || sign == [43] || sign == [45]) && t == sign + digits
  {
    sign := if t != [] && (t[0] == 43 || t[0] == 45) then [t[0]] else [];
    digits := t[|sign|..];
  }

  /** Nothing else is read as an integer. */
  lemma PyIntParts(token: seq<Byte>) returns (left: seq<Byte>, sign: seq<Byte>, digits: seq<Byte>, right: seq<Byte>)
    requires PyInt(token).Int?
    ensures IsPadding(left) && IsPadding(right) && token == left + (sign + digits) + right
    ensures NumberShape(digits) && (sign == [] || sign == [43] || sign == [45])
  {
    left := LeftPadding(token);
    right := RightPadding(StripLeft(token));
    sign, digits := SignedParts(StripRight(StripLeft(token)));
    assert token == left + (sign + digits) + right;
  }

  lemma NoUnderscore(t: seq<Byte>, k: nat)
    requires NumberShape(t) && k < |t| && 95 !in t
    ensures 48 <= t[k] <= 57
  {
    assert DigitPlace(t, k) && t[k] in t;
  }

  /** Without underscores a number is just digits. */
  lemma PlainNumber(t: seq<Byte>)
    requires 95 !in t
    ensures NumberShape(t) <==> t != [] && forall k :: 0 <= k < |t| ==> 48 <= t[k] <= 57
  {
    if NumberShape(t) {
      forall k | 0 <= k < |t| ensures 48 <= t[k] <= 57 {
        NoUnderscore(t, k);
      }
    }
  }

  lemma {:induction false} UnderscoreHasNoValue(a: seq<Byte>, b: seq<Byte>)
    ensures NumberValue(a + [95] + b) == NumberValue(a + b)
    decreases |b|
  {
    var t := a + [95] + b;
    if b == [] {
      assert t[..|t| - 1] == a && a + b == a;
    } else {
      assert t[..|t| - 1] == a + [95] + b[..|b| - 1] && (a + b)[..|a + b| - 1] == a + b[..|b| - 1];
      UnderscoreHasNoValue(a, b[..|b| - 1]);
    }
  }

  lemma ShapeOfParts(a: seq<Byte>, b: seq<Byte>, t: seq<Byte>)
    requires t == a + [95] + b && NumberShape(t)
    ensures NumberShape(a) && NumberShape(b)
  {
    assert t[|a|] == 95 && DigitPlace(t, |a|);
    assert |a| > 0 && t[0] == a[0];
    assert |b| > 0 && t[|a| + 1] == b[0];
    forall i | 0 <= i < |a| ensures DigitPlace(a, i) {
      assert DigitPlace(t, i) && t[i] == a[i] && (i + 1 < |a| ==> t[i + 1] == a[i + 1]);
    }
    assert DigitPlace(a, |a| - 1);
    forall i | 0 <= i < |b| ensures DigitPlace(b, i) {
      assert DigitPlace(t, |a| + 1 + i) && t[|a| + 1 + i] == b[i] && (i + 1 < |b| ==> t[|a| + 2 + i] == b[i + 1]);
    }
    assert t[|t| - 1] == b[|b| - 1];
  }

  lemma ShapeOfJoin(a: seq<Byte>, b: seq<Byte>, t: seq<Byte>)
    requires t == a + [95] + b && NumberShape(a) && NumberShape(b)
    ensures NumberShape(t)
  {
    forall i | 0 <= i < |t| ensures DigitPlace(t, i) {
      if i < |a| {
        assert DigitPlace(a, i) && t[i] == a[i] && (i + 1 < |a| ==> t[i + 1] == a[i + 1]);
      } else if i == |a| {
        assert t[i + 1] == b[0];
      } else {
        var j := i - |a| - 1;
        assert DigitPlace(b, j) && t[i] == b[j] && (j + 1 < |b| ==> t[i + 1] == b[j + 1]);
      }
    }
    assert t[|t| - 1] == b[|b| - 1];
  }

  /** An underscore may stand exactly between two numbers, and has no value there. */
  lemma UnderscoreJoins(a: seq<Byte>, b: seq<Byte>)
    ensures NumberShape(a + [95] + b) <==> NumberShape(a) && NumberShape(b)
    ensures NumberValue(a + [95] + b) == NumberValue(a + b)
  {
    UnderscoreHasNoValue(a, b);
    if NumberShape(a + [95] + b) {
      ShapeOfParts(a, b, a + [95] + b);
    }
    if NumberShape(a) && NumberShape(b) {
      ShapeOfJoin(a, b, a + [95] + b);
    }
  }

  // ----- sizes

  lemma BodyOf(data: seq<Byte>, tokens: seq<seq<Byte>>, at: nat, n: int)
    requires |tokens| == 3 && Interpret(data, tokens, at).Image?
    requires n == Interpret(data, tokens, at).width * Interpret(data, tokens, at).height * 3
    ensures |Interpret(data, tokens, at).body| == n <==> n >= 0
  {
  }

  /** An accepted image has as many bytes as its size says if and only if the product of its sides is
      not negative: a negative side is not refused, and cuts bytes off instead. */
  lemma ImageIsWholeExactlyWhen(data: seq<Byte>)
    requires Parse(data).Image?
    ensures var image := Parse(data);
            |image.body| == image.width * image.height * 3 <==> image.width * image.height >= 0
  {
    var t := Tokens(data, 2, 3);
    BodyOf(data, t.0, t.1, Parse(data).width * Parse(data).height * 3);
  }
}
