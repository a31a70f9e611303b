/** The event engine against an independent reading of the evdev rules: between SYN_DROPPED
    and the next SYN_REPORT nothing counts, that report takes the snapshot, and otherwise the
    last write of each key and axis wins. */
module DesyncReplay {
  import opened AxisNormalize
  import opened InputEvents

  predicate IsDropped(e: Event) { e.kind == EV_SYN && e.code == SYN_DROPPED }

  predicate IsReport(e: Event) { e.kind == EV_SYN && e.code == SYN_REPORT }

  /** Some SYN_DROPPED before event `i` has not been answered by a SYN_REPORT yet. */
  ghost predicate Dropping(events: seq<Event>, i: nat)
    requires i <= |events|
  {
    exists d :: 0 <= d < i && IsDropped(events[d]) && forall r :: d < r < i ==> !IsReport(events[r])
  }

  /** Resynchronising reports among the first `n` events. */
  ghost function Resyncs(events: seq<Event>, n: nat): nat
    requires n <= |events|
  {
    if n == 0 then 0
    else Resyncs(events, n - 1) + if Dropping(events, n - 1) && IsReport(events[n - 1]) then 1 else 0
  }

  /** Whether key `code` is down: the last live key event for it, or the last readable key
      snapshot, decides. */
  ghost predicate KeyDown(events: seq<Event>, n: nat, snaps: Snapshots, from_: nat, code: nat, before: bool)
    requires n <= |events| && GoodSnapshots(snaps) && code < 64
  {
    if n == 0 then before
    else
      var e := events[n - 1];
      if Dropping(events, n - 1) then
        var keys := snaps(from_ + Resyncs(events, n - 1)).keys;
        if IsReport(e) && keys.Some? then BitTest(keys.value, code)
        else KeyDown(events, n - 1, snaps, from_, code, before)
      else if e.kind == EV_KEY && e.code == code then e.value != 0
      else KeyDown(events, n - 1, snaps, from_, code, before)
  }

  /** The value of axis `slot`: the last live event for it, or the last readable snapshot of a
      calibrated axis, decides. */
  ghost function AxisValue(events: seq<Event>, n: nat, snaps: Snapshots, from_: nat, slot: nat,
                           calibrated: bool, before: Int32): Int32
    requires n <= |events| && GoodSnapshots(snaps) && slot < AXES
  {
    if n == 0 then before
    else
      var e := events[n - 1];
      if Dropping(events, n - 1) then
        var value := snaps(from_ + Resyncs(events, n - 1)).axes[slot];
        if IsReport(e) && calibrated && value.Some? then value.value
        else AxisValue(events, n - 1, snaps, from_, slot, calibrated, before)
      else if e.kind == EV_ABS && e.code == AXIS_CODES[slot] then e.value
      else AxisValue(events, n - 1, snaps, from_, slot, calibrated, before)
  }

  /** The actions of live key presses, oldest first. */
  ghost function Actions(events: seq<Event>, n: nat): seq<nat>
    requires n <= |events|
  {
    if n == 0 then []
    else
      var e := events[n - 1];
      Actions(events, n - 1) +
      if !Dropping(events, n - 1) && e.kind == EV_KEY && EmitsAction(e.value) && MapKey(e.code) != 0
      then [MapKey(e.code)] else []
  }

  /** A queue of eight that refuses newcomers when full. */
  function FirstEight(actions: seq<nat>): seq<nat> {
    if |actions| <= PENDING_MAX then actions else actions[..PENDING_MAX]
  }

  lemma DroppingStep(events: seq<Event>, n: nat)
    requires n < |events|
    ensures Dropping(events, n + 1) <==>
            if Dropping(events, n) then !IsReport(events[n]) else IsDropped(events[n])
  {
    if Dropping(events, n + 1) {
      var d :| 0 <= d < n + 1 && IsDropped(events[d]) && forall r :: d < r < n + 1 ==> !IsReport(events[r]);
      if d < n {
        assert Dropping(events, n) && !IsReport(events[n]);
      }
    }
    if Dropping(events, n) && !IsReport(events[n]) {
      var d :| 0 <= d < n && IsDropped(events[d]) && forall r :: d < r < n ==> !IsReport(events[r]);
      assert forall r :: d < r < n + 1 ==> !IsReport(events[r]);
    }
  }

  /** The state the reference predicts after the first `n` events, starting connected. */
  ghost predicate Predicted(f: Feed, events: seq<Event>, n: nat, snaps: Snapshots, g: Feed)
    requires n <= |events| && GoodSnapshots(snaps) && SourceShape(f.source)
  {
    && SourceShape(g.source)
    && g.source == f.source.(link := g.source.link, held := g.source.held, lastRaw := g.source.lastRaw)
    && g.source.link == (if Dropping(events, n) then Desync else Connected)
    && (forall code :: 0 <= code < 64 ==>
          (code in g.source.held <==> KeyDown(events, n, snaps, f.resyncs, code, code in f.source.held)))
    && (forall slot :: 0 <= slot < AXES ==>
          g.source.lastRaw[slot] == AxisValue(events, n, snaps, f.resyncs, slot,
                                              f.source.axisValid[slot], f.source.lastRaw[slot]))
    && g.pending == FirstEight(f.pending + Actions(events, n))
    && g.resyncs == f.resyncs + Resyncs(events, n)
  }

  lemma QueueStep(queue: seq<nat>, action: nat)
    requires 0 < action <= 6
    ensures Enqueue(FirstEight(queue), action) == FirstEight(queue + [action])
  {
  }

  lemma MapKeyBounds(code: nat)
    ensures 0 <= MapKey(code) <= 6
  {
  }

  lemma OneEventQueue(f: Feed, events: seq<Event>, n: nat, snaps: Snapshots, g: Feed)
    requires n < |events| && GoodSnapshots(snaps) && SourceShape(g.source)
    requires g.source.link == (if Dropping(events, n) then Desync else Connected)
    requires g.pending == FirstEight(f.pending + Actions(events, n))
    ensures Consume(g, events[n], snaps).pending == FirstEight(f.pending + Actions(events, n + 1))
  {
    var e := events[n];
    MapKeyBounds(e.code);
    var acted := f.pending + Actions(events, n);
    if !Dropping(events, n) && e.kind == EV_KEY && EmitsAction(e.value) && MapKey(e.code) != 0 {
      QueueStep(acted, MapKey(e.code));
      assert acted + [MapKey(e.code)] == f.pending + Actions(events, n + 1);
    } else {
      assert Actions(events, n + 1) == Actions(events, n);
    }
  }

  lemma OneEventKey(f: Feed, events: seq<Event>, n: nat, snaps: Snapshots, g: Feed, code: nat)
    requires n < |events| && GoodSnapshots(snaps) && SourceShape(g.source) && code < 64
    requires g.source.link == (if Dropping(events, n) then Desync else Connected)
    requires g.resyncs == f.resyncs + Resyncs(events, n)
    requires code in g.source.held <==> KeyDown(events, n, snaps, f.resyncs, code, code in f.source.held)
    ensures code in Consume(g, events[n], snaps).source.held <==>
            KeyDown(events, n + 1, snaps, f.resyncs, code, code in f.source.held)
  {
  }

  /** An event code names at most one axis. */
  lemma OneSlotPerCode(code: nat, slot: nat)
    requires slot < AXES
    ensures code == AXIS_CODES[slot] <==> AxisSlot(code) == Some(slot)
  {
  }

  lemma OneEventAxis(f: Feed, events: seq<Event>, n: nat, snaps: Snapshots, g: Feed, slot: nat)
    requires n < |events| && GoodSnapshots(snaps) && SourceShape(g.source) && SourceShape(f.source) && slot < AXES
    requires g.source.link == (if Dropping(events, n) then Desync else Connected)
    requires g.resyncs == f.resyncs + Resyncs(events, n) && g.source.axisValid == f.source.axisValid
    requires g.source.lastRaw[slot] == AxisValue(events, n, snaps, f.resyncs, slot,
                                                 f.source.axisValid[slot], f.source.lastRaw[slot])
    ensures |Consume(g, events[n], snaps).source.lastRaw| == AXES
    ensures Consume(g, events[n], snaps).source.lastRaw[slot] ==
            AxisValue(events, n + 1, snaps, f.resyncs, slot, f.source.axisValid[slot], f.source.lastRaw[slot])
  {
    OneSlotPerCode(events[n].code, slot);
  }

  lemma OneEventRest(f: Feed, events: seq<Event>, n: nat, snaps: Snapshots, g: Feed)
    requires n < |events| && GoodSnapshots(snaps) && SourceShape(g.source)
    requires g.source.link == (if Dropping(events, n) then Desync else Connected)
    requires g.resyncs == f.resyncs + Resyncs(events, n)
    ensures var h := Consume(g, events[n], snaps);
            && SourceShape(h.source) && h.resyncs == f.resyncs + Resyncs(events, n + 1)
            && h.source == g.source.(link := h.source.link, held := h.source.held, lastRaw := h.source.lastRaw)
            && h.source.link == (if Dropping(events, n + 1) then Desync else Connected)
  {
    DroppingStep(events, n);
  }

  lemma OneEvent(f: Feed, events: seq<Event>, n: nat, snaps: Snapshots, g: Feed)
    requires n < |events| && GoodSnapshots(snaps) && SourceShape(f.source)
    requires Predicted(f, events, n, snaps, g)
    ensures Predicted(f, events, n + 1, snaps, Consume(g, events[n], snaps))
  {
    OneEventRest(f, events, n, snaps, g);
    OneEventQueue(f, events, n, snaps, g);
    var h := Consume(g, events[n], snaps);
    forall code | 0 <= code < 64
      ensures code in h.source.held <==> KeyDown(events, n + 1, snaps, f.resyncs, code, code in f.source.held)
    {
      OneEventKey(f, events, n, snaps, g, code);
    }
    forall slot | 0 <= slot < AXES
      ensures h.source.lastRaw[slot] == AxisValue(events, n + 1, snaps, f.resyncs, slot,
                                                  f.source.axisValid[slot], f.source.lastRaw[slot])
    {
      OneEventAxis(f, events, n, snaps, g, slot);
    }
  }

  lemma {:induction false} ConsumeSnoc(f: Feed, events: seq<Event>, e: Event, snaps: Snapshots)
    requires SourceShape(f.source) && GoodSnapshots(snaps)
    ensures ConsumeAll(f, events + [e], snaps) == Consume(ConsumeAll(f, events, snaps), e, snaps)
    decreases |events|
  {
    if events == [] {
      assert events + [e] == [e];
    } else {
      assert (events + [e])[1..] == events[1..] + [e];
      assert (events + [e])[0] == events[0];
      ConsumeSnoc(Consume(f, events[0], snaps), events[1..], e, snaps);
    }
  }

  lemma {:induction false} ReplayPrefix(f: Feed, events: seq<Event>, n: nat, snaps: Snapshots)
    requires SourceShape(f.source) && GoodSnapshots(snaps) && n <= |events|
    requires f.source.link == Connected && |f.pending| <= PENDING_MAX
    ensures Predicted(f, events, n, snaps, ConsumeAll(f, events[..n], snaps))
  {
    if n == 0 {
      assert f.pending + Actions(events, 0) == f.pending;
    } else {
      ReplayPrefix(f, events, n - 1, snaps);
      assert events[..n] == events[..n - 1] + [events[n - 1]];
      ConsumeSnoc(f, events[..n - 1], events[n - 1], snaps);
      OneEvent(f, events, n - 1, snaps, ConsumeAll(f, events[..n - 1], snaps));
    }
  }

  /** For every event sequence the engine ends in exactly the state the reference predicts. */
  lemma ReplayRefinement(f: Feed, events: seq<Event>, snaps: Snapshots)
    requires SourceShape(f.source) && GoodSnapshots(snaps)
    requires f.source.link == Connected && |f.pending| <= PENDING_MAX
    ensures Predicted(f, events, |events|, snaps, ConsumeAll(f, events, snaps))
  {
    ReplayPrefix(f, events, |events|, snaps);
    assert events[..|events|] == events;
  }

  /** While a source waits for the report, every other event leaves no trace at all. */
  lemma {:induction false} SwallowedLeaveNoTrace(f: Feed, events: seq<Event>, snaps: Snapshots)
    requires SourceShape(f.source) && GoodSnapshots(snaps) && f.source.link == Desync
    requires forall i :: 0 <= i < |events| ==> !IsReport(events[i])
    ensures ConsumeAll(f, events, snaps) == f
    decreases |events|
  {
    if events != [] {
      assert !IsReport(events[0]) && Consume(f, events[0], snaps) == f;
      SwallowedLeaveNoTrace(f, events[1..], snaps);
    }
  }
}
