/** evdev events: byte framing, and what one event does to a source and to the action queue. */
module InputEvents {
  import opened NatArithmetic
  import opened AxisNormalize
  import opened Bytes

  datatype Event = Event(kind: nat, code: nat, value: Int32)

  const EV_SYN := 0
  const EV_KEY := 1
  const EV_ABS := 3
  const SYN_REPORT := 0
  const SYN_DROPPED := 3

  // ----- struct input_event: a timestamp, then type, code and value, little endian

  /** 16 bytes on the 32-bit target, 24 on a 64-bit host. */
  predicate EventSize(size: nat) { size == 16 || size == 24 }

  function Word(lo: Byte, hi: Byte): nat { lo + 256 * hi }

  function Signed(word: nat): Int32
    requires word <= 0xffff_ffff
  {
    if word < 0x8000_0000 then word else word - 0x1_0000_0000
  }

  function Decode(raw: seq<Byte>): Event
    requires |raw| >= 8
  {
    var at := |raw| - 8;
    Event(Word(raw[at], raw[at + 1]), Word(raw[at + 2], raw[at + 3]),
          Signed(Word(raw[at + 4], raw[at + 5]) + 65536 * Word(raw[at + 6], raw[at + 7])))
  }

  function Encode(stamp: seq<Byte>, e: Event): seq<Byte>
    requires e.kind < 65536 && e.code < 65536
  {
    var v := if e.value < 0 then e.value + 0x1_0000_0000 else e.value;
    stamp + [e.kind % 256, e.kind / 256, e.code % 256, e.code / 256,
             v % 256, v / 256 % 256, v / 65536 % 256, v / 16777216]
  }

  /** The number that bytes stand for, lowest first. */
  function LittleEndian(bytes: seq<Byte>): nat {
    if bytes == [] then 0 else bytes[0] + 256 * LittleEndian(bytes[1..])
  }

  lemma TwoBytes(a: Byte, b: Byte)
    ensures LittleEndian([a, b]) == Word(a, b) <= 0xffff
  {
    assert [a, b][1..] == [b];
    assert LittleEndian([b]) == b + 256 * LittleEndian([b][1..]);
  }

  lemma FourBytes(a: Byte, b: Byte, c: Byte, d: Byte)
    ensures LittleEndian([a, b, c, d]) == Word(a, b) + 65536 * Word(c, d)
  {
    assert [a, b, c, d][1..] == [b, c, d] && [b, c, d][1..] == [c, d];
    TwoBytes(c, d);
  }

  /** The last eight bytes of an event: type and code in two bytes each, then the value in four, in two's
      complement, each lowest byte first. */
  lemma DecodeMeans(raw: seq<Byte>)
    requires |raw| >= 8
    ensures var e, at := Decode(raw), |raw| - 8;
            && e.kind == LittleEndian(raw[at..at + 2]) && e.code == LittleEndian(raw[at + 2..at + 4])
            && e.value == LittleEndian(raw[at + 4..]) - (if e.value < 0 then 0x1_0000_0000 else 0)
  {
    var at := |raw| - 8;
    assert raw[at..at + 2] == [raw[at], raw[at + 1]] && raw[at + 2..at + 4] == [raw[at + 2], raw[at + 3]];
    assert raw[at + 4..] == [raw[at + 4], raw[at + 5], raw[at + 6], raw[at + 7]];
    TwoBytes(raw[at], raw[at + 1]);
    TwoBytes(raw[at + 2], raw[at + 3]);
    FourBytes(raw[at + 4], raw[at + 5], raw[at + 6], raw[at + 7]);
  }

  lemma LongSplit(v: nat)
    requires v <= 0xffff_ffff
    ensures v % 256 + 256 * (v / 256 % 256) + 65536 * (v / 65536 % 256 + 256 * (v / 16777216)) == v
  {
    ByteSplit(v);
    ByteSplit(v / 256);
    ByteSplit(v / 65536);
    assert v / 16777216 == v / 65536 / 256;
  }

  lemma DecodeEncode(stamp: seq<Byte>, e: Event)
    requires e.kind < 65536 && e.code < 65536
    ensures Decode(Encode(stamp, e)) == e
  {
    LongSplit(if e.value < 0 then e.value + 0x1_0000_0000 else e.value);
  }

  /** The whole events at the front of `bytes`. */
  function Events(bytes: seq<Byte>, size: nat): seq<Event>
    requires EventSize(size)
    decreases |bytes|
  {
    if |bytes| < size then [] else [Decode(bytes[..size])] + Events(bytes[size..], size)
  }

  /** What is left after them. */
  function Remainder(bytes: seq<Byte>, size: nat): (rest: seq<Byte>)
    requires EventSize(size)
    ensures |rest| < size
    decreases |bytes|
  {
    if |bytes| < size then bytes else Remainder(bytes[size..], size)
  }

  /** Events as the device wrote them, each behind its own timestamp. */
  function EncodeAll(stamps: seq<seq<Byte>>, events: seq<Event>): seq<Byte>
    requires |stamps| == |events|
    requires forall i :: 0 <= i < |events| ==> events[i].kind < 65536 && events[i].code < 65536
  {
    if events == [] then [] else Encode(stamps[0], events[0]) + EncodeAll(stamps[1..], events[1..])
  }

  /** Framing undoes encoding, whatever partial event follows. */
  lemma {:induction false} FramingRoundTrip(stamps: seq<seq<Byte>>, events: seq<Event>, tail: seq<Byte>, size: nat)
    requires EventSize(size) && |tail| < size && |stamps| == |events|
    requires forall i :: 0 <= i < |stamps| ==> |stamps[i]| == size - 8
    requires forall i :: 0 <= i < |events| ==> events[i].kind < 65536 && events[i].code < 65536
    ensures Events(EncodeAll(stamps, events) + tail, size) == events
    ensures Remainder(EncodeAll(stamps, events) + tail, size) == tail
  {
    if events == [] {
      assert EncodeAll(stamps, events) + tail == tail;
    } else {
      var first, rest := Encode(stamps[0], events[0]), EncodeAll(stamps[1..], events[1..]) + tail;
      var bytes := EncodeAll(stamps, events) + tail;
      assert bytes == first + rest;
      assert bytes[..size] == first && bytes[size..] == rest;
      DecodeEncode(stamps[0], events[0]);
      FramingRoundTrip(stamps[1..], events[1..], tail, size);
    }
  }

  // ----- sources

  datatype Option<T> = None | Some(value: T)

  datatype Link = Absent | Connected | Desync

  const AXES: nat := 8

  /** Codes of the canonical axes: X, Y, RX, RY, Z, RZ, HAT0X, HAT0Y. */
  const AXIS_CODES: seq<nat> := [0, 1, 3, 4, 2, 5, 16, 17]

  /** One input source; the bit mask of held keys is the set of its codes below 64. */
  datatype Source = Source(
    fd: int, link: Link, generation: nat, held: set<nat>,
    axis: seq<Range>, axisValid: seq<bool>, lastRaw: seq<Int32>)

  ghost predicate SourceShape(s: Source) {
    && |s.axis| == AXES && |s.axisValid| == AXES && |s.lastRaw| == AXES
    && (forall k :: k in s.held ==> k < 64)
    && (forall slot :: 0 <= slot < AXES ==> SpanFits(s.axis[slot]))
  }

  /** The record discovery prepares: zeroed, then calibrated from the device. */
  ghost predicate Prepared(s: Source) {
    SourceShape(s) && s.fd == -1 && s.link == Absent && s.generation == 0 && s.held == {}
  }

  function AxisSlot(code: nat): (slot: Option<nat>)
    ensures slot.Some? ==> slot.value < AXES && AXIS_CODES[slot.value] == code
    ensures slot.None? ==> code !in AXIS_CODES
  {
    if code == 0 then Some(0) else if code == 1 then Some(1)
    else if code == 3 then Some(2) else if code == 4 then Some(3)
    else if code == 2 then Some(4) else if code == 5 then Some(5)
    else if code == 16 then Some(6) else if code == 17 then Some(7) else None
  }

  // ----- actions

  const PENDING_MAX: nat := 8

  /** NONE 0, NEXT 1, PREVIOUS 2, SELECT 3, BACK 4, MENU 5, QUIT 6. */
  function MapKey(code: nat): nat {
    if code == 1 || code == 16 || code == 316 then 6
    else if code == 304 then 3
    else if code == 305 then 4
    else if code == 307 || code == 311 || code == 547 then 1
    else if code == 308 || code == 310 || code == 546 then 2
    else if code == 314 || code == 315 then 5
    else 0
  }

  /** The key map as a table, one row for each mapped code. */
  const KEY_ACTIONS: seq<(nat, nat)> := [
    (1, 6), (16, 6), (304, 3), (305, 4), (307, 1), (308, 2), (310, 2), (311, 1), (314, 5), (315, 5),
    (316, 6), (546, 2), (547, 1)]

  /** A code has an action exactly when the table lists it with that action. */
  lemma MapKeyIsTable(code: nat, action: nat)
    requires action > 0
    ensures MapKey(code) == action <==> (code, action) in KEY_ACTIONS
  {
  }

  /** The documented policy: only a press emits an action. */
  predicate IsPress(value: int) { value == 1 }

  /** Conversion of an int32 to uint16. */
  function ToUint16(value: int): nat { value % 65536 }

  /** The value reaches the repeat test as a uint16. */
  predicate EmitsAction(value: Int32) { IsPress(ToUint16(value)) }

  function Enqueue(pending: seq<nat>, action: nat): seq<nat> {
    if action == 0 || action > 6 || |pending| >= PENDING_MAX then pending else pending + [action]
  }

  // ----- resynchronisation

  /** The ioctl answers at one resynchronisation: the key state bytes, and each axis value. */
  datatype Snapshot = Snapshot(keys: Option<seq<Byte>>, axes: seq<Option<Int32>>)

  predicate SnapshotShape(snap: Snapshot) {
    |snap.axes| == AXES && (snap.keys.Some? ==> |snap.keys.value| == 96)
  }

  type Snapshots = nat -> Snapshot

  ghost predicate GoodSnapshots(snaps: Snapshots) { forall n :: SnapshotShape(snaps(n)) }

  function PowerOfTwo(bit: nat): nat
    ensures PowerOfTwo(bit) > 0
  {
    if bit == 0 then 1 else 2 * PowerOfTwo(bit - 1)
  }

  predicate BitTest(buffer: seq<Byte>, bit: nat)
    requires bit / 8 < |buffer|
  {
    buffer[bit / 8] / PowerOfTwo(bit % 8) % 2 == 1
  }

  /** `n` halved `times` times, rounding down. */
  function Halved(n: nat, times: nat): nat {
    if times == 0 then n else Halved(n / 2, times - 1)
  }

  lemma {:induction false} HalvedTwice(n: nat, a: nat, b: nat)
    ensures Halved(n, a + b) == Halved(Halved(n, a), b)
    decreases a
  {
    if a > 0 { HalvedTwice(n / 2, a - 1, b); }
  }

  lemma HalfOfQuotient(n: nat, p: nat)
    requires p > 0
    ensures n / 2 / p == n / (2 * p)
  {
    var q := n / 2 / p;
    DivisionBounds(n / 2, p);
    assert q * (2 * p) == 2 * (q * p);
    assert (q + 1) * (2 * p) == 2 * ((q + 1) * p);
    QuotientUnique(n, 2 * p, q);
  }

  lemma {:induction false} HalvedIsQuotient(n: nat, times: nat)
    ensures Halved(n, times) == n / PowerOfTwo(times)
  {
    if times > 0 {
      HalvedIsQuotient(n / 2, times - 1);
      HalfOfQuotient(n, PowerOfTwo(times - 1));
    }
  }

  lemma TwiceAProduct(p: nat, high: nat)
    ensures 2 * p * high == 2 * (p * high)
  {
  }

  /** Halving takes whole multiples of the power apart from the rest. */
  lemma {:induction false} HalvedApart(low: nat, high: nat, times: nat)
    ensures Halved(low + PowerOfTwo(times) * high, times) == Halved(low, times) + high
  {
    if times > 0 {
      var part := PowerOfTwo(times - 1) * high;
      TwiceAProduct(PowerOfTwo(times - 1), high);
      assert (low + 2 * part) / 2 == low / 2 + part;
      HalvedApart(low / 2, high, times - 1);
    }
  }

  lemma PowersInByte(bit: nat)
    requires bit <= 8
    ensures PowerOfTwo(bit) == [1, 2, 4, 8, 16, 32, 64, 128, 256][bit]
  {
    if bit > 0 { PowersInByte(bit - 1); }
  }

  lemma {:induction false} PowersMultiply(a: nat, b: nat, factor: nat)
    ensures PowerOfTwo(a) * (PowerOfTwo(b) * factor) == PowerOfTwo(a + b) * factor
  {
    if a > 0 {
      PowersMultiply(a - 1, b, factor);
      TwiceAProduct(PowerOfTwo(a - 1), PowerOfTwo(b) * factor);
      TwiceAProduct(PowerOfTwo(a - 1 + b), factor);
    }
  }

  lemma HighPart(high: nat, bit: nat)
    requires bit < 8
    ensures 256 * high == PowerOfTwo(bit) * (2 * (PowerOfTwo(7 - bit) * high))
  {
    PowersMultiply(bit, 8 - bit, high);
    TwiceAProduct(PowerOfTwo(7 - bit), high);
    PowersInByte(8);
  }

  lemma LowParity(low: nat, above: nat, bit: nat, rest: nat)
    requires above == PowerOfTwo(bit) * (2 * rest)
    ensures Halved(low + above, bit) % 2 == Halved(low, bit) % 2
  {
    HalvedApart(low, 2 * rest, bit);
  }

  /** Higher bytes do not reach the parity of the lower ones. */
  lemma LowBit(low: Byte, high: nat, bit: nat)
    requires bit < 8
    ensures Halved(low + 256 * high, bit) % 2 == Halved(low, bit) % 2
  {
    HighPart(high, bit);
    LowParity(low, 256 * high, bit, PowerOfTwo(7 - bit) * high);
  }

  lemma HighBits(low: Byte, high: nat, bit: nat)
    requires bit >= 8
    ensures Halved(low + 256 * high, bit) == Halved(high, bit - 8)
  {
    HalvedTwice(low + 256 * high, 8, bit - 8);
    HalvedIsQuotient(low + 256 * high, 8);
    PowersInByte(8);
  }

  /** Bit `bit` of the buffer is bit `bit` of the little-endian number it holds: the parity left after
      halving it that often. */
  lemma {:induction false} BitTestMeans(buffer: seq<Byte>, bit: nat)
    requires bit / 8 < |buffer|
    ensures BitTest(buffer, bit) <==> Halved(LittleEndian(buffer), bit) % 2 == 1
    decreases |buffer|
  {
    var high := LittleEndian(buffer[1..]);
    if bit < 8 {
      HalvedIsQuotient(buffer[0], bit);
      LowBit(buffer[0], high, bit);
    } else {
      HighBits(buffer[0], high, bit);
      BitTestMeans(buffer[1..], bit - 8);
      assert (bit - 8) / 8 == bit / 8 - 1 && (bit - 8) % 8 == bit % 8;
    }
  }

  function KeysBelow(buffer: seq<Byte>, limit: nat): set<nat>
    requires limit <= 8 * |buffer|
  {
    set code | 0 <= code < limit && BitTest(buffer, code)
  }

  function SnapshotAxis(s: Source, snap: Snapshot, slot: nat): Int32
    requires |s.axisValid| == AXES && |s.lastRaw| == AXES && SnapshotShape(snap) && slot < AXES
  {
    if s.axisValid[slot] && snap.axes[slot].Some? then snap.axes[slot].value else s.lastRaw[slot]
  }

  function Resynced(s: Source, snap: Snapshot): Source
    requires |s.axisValid| == AXES && |s.lastRaw| == AXES && SnapshotShape(snap)
  {
    s.(held := if snap.keys.Some? then KeysBelow(snap.keys.value, 64) else s.held,
       lastRaw := seq(AXES, slot requires 0 <= slot < AXES => SnapshotAxis(s, snap, slot)))
  }

  // ----- one event

  /** A source being fed, the shared queue, and how many resynchronisations have happened. */
  datatype Feed = Feed(source: Source, pending: seq<nat>, resyncs: nat)

  function Pressed(held: set<nat>, code: nat, value: int): set<nat> {
    if code >= 64 then held else if value != 0 then held + {code} else held - {code}
  }

  function Consume(f: Feed, e: Event, snaps: Snapshots): Feed
    requires |f.source.axisValid| == AXES && |f.source.lastRaw| == AXES && SnapshotShape(snaps(f.resyncs))
  {
    var s := f.source;
    if e.kind == EV_SYN then
      if e.code == SYN_DROPPED && s.link == Connected then f.(source := s.(link := Desync))
      else if e.code == SYN_REPORT && s.link == Desync then
        f.(source := Resynced(s, snaps(f.resyncs)).(link := Connected), resyncs := f.resyncs + 1)
      else f
    else if e.kind == EV_KEY && s.link == Connected then
      Feed(s.(held := Pressed(s.held, e.code, e.value)),
           if EmitsAction(e.value) then Enqueue(f.pending, MapKey(e.code)) else f.pending, f.resyncs)
    else if e.kind == EV_ABS && s.link == Connected && AxisSlot(e.code).Some? then
      f.(source := s.(lastRaw := s.lastRaw[AxisSlot(e.code).value := e.value]))
    else f
  }

  /** One key event on a connected source acts on the queue as documented, if and only if its value
      is not a press that only the conversion makes, or the queue would not take its action. */
  lemma PressOnlyExactlyWhen(f: Feed, e: Event, snaps: Snapshots)
    requires SourceShape(f.source) && GoodSnapshots(snaps) && f.source.link == Connected && e.kind == EV_KEY
    ensures Consume(f, e, snaps).pending == (if IsPress(e.value) then Enqueue(f.pending, MapKey(e.code)) else f.pending)
            <==> !(e.value != 1 && e.value % 65536 == 1 && MapKey(e.code) != 0 && |f.pending| < PENDING_MAX)
  {
    assert SnapshotShape(snaps(f.resyncs));
    assert |f.pending + [MapKey(e.code)]| != |f.pending|;
  }

  /** Value 65537 of BTN_NORTH, larger than a press, still emits NEXT. */
  lemma LargeValueEmits(f: Feed, snaps: Snapshots)
    requires SourceShape(f.source) && GoodSnapshots(snaps) && f.source.link == Connected && f.pending == []
    ensures Consume(f, Event(EV_KEY, 307, 65537), snaps).pending == [1]
  {
    assert SnapshotShape(snaps(f.resyncs));
    assert ToUint16(65537) == 1;
  }

  ghost function ConsumeAll(f: Feed, events: seq<Event>, snaps: Snapshots): (g: Feed)
    requires SourceShape(f.source) && GoodSnapshots(snaps)
    ensures SourceShape(g.source) && g.source.fd == f.source.fd
    ensures g.source.link == Absent <==> f.source.link == Absent
    ensures |f.pending| <= PENDING_MAX ==> |g.pending| <= PENDING_MAX
    decreases |events|
  {
    if events == [] then f else ConsumeAll(Consume(f, events[0], snaps), events[1..], snaps)
  }
}
