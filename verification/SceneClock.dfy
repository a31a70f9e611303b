/** The cart's clock: deadline scheduler, attract loop, manual holds and the
    photosensitivity guard on scene changes. Times are uint64 nanoseconds, scene
    indices are size_t on the 32-bit target. */
module SceneClock {

  const U64_MAX := 0xffff_ffff_ffff_ffff
  const SIZE_MODULUS := 0x1_0000_0000
  const MIN_CHANGE_NS := 500_000_000

  type U64 = n: nat | n <= U64_MAX
  type Index = n: nat | n < SIZE_MODULUS

  datatype Clock = Clock(
    sceneCount: Index, sceneIndex: Index, manualScene: Index,
    origin: U64, framePeriod: U64, scenePeriod: U64, holdUntil: U64,
    minChange: U64, lastChange: U64, hadChange: bool,
    nextDeadline: U64, frame: U64, dropped: U64, sleep: U64, holdActive: bool)

  datatype Init = Ready(clock: Clock) | Rejected

  function AddSaturating(left: U64, right: U64): U64 {
    if left > U64_MAX - right then U64_MAX else left + right
  }

  function Start(sceneCount: Index, origin: U64, framePeriod: U64, scenePeriod: U64, minChange: U64): Init {
    if sceneCount == 0 || framePeriod == 0 || scenePeriod == 0 || origin >= U64_MAX - framePeriod then
      Rejected
    else
      Ready(Clock(sceneCount, 0, 0, origin, framePeriod, scenePeriod, 0, minChange, 0, false,
                  origin + framePeriod, 0, 0, framePeriod, false))
  }

  predicate ChangeAllowed(c: Clock, now: U64) {
    || c.minChange == 0 || !c.hadChange
    || (c.lastChange <= now && now - c.lastChange >= c.minChange)
  }

  function RecordChange(c: Clock, now: U64): Clock {
    c.(lastChange := now, hadChange := true)
  }

  /** Clock readings before the origin count as the origin. */
  function Effective(c: Clock, now: U64): U64 {
    if now < c.origin then c.origin else now
  }

  /** The scene the attract loop wants at `now`. */
  function Automatic(c: Clock, now: U64): Index
    requires c.sceneCount > 0 && c.scenePeriod > 0 && now >= c.origin
  {
    ((now - c.origin) / c.scenePeriod) % c.sceneCount
  }

  predicate Usable(c: Clock) { c.sceneCount > 0 && c.framePeriod > 0 && c.scenePeriod > 0 }

  /** Frame counter, hold expiry and scene selection. */
  function SelectScene(c: Clock, now: U64): Clock
    requires Usable(c) && now >= c.origin
  {
    var c := c.(frame := (now - c.origin) / c.framePeriod,
                holdActive := c.holdActive && now < c.holdUntil);
    if c.holdActive then c.(sceneIndex := c.manualScene)
    else
      var automatic := Automatic(c, now);
      if automatic != c.sceneIndex && ChangeAllowed(c, now) then
        RecordChange(c, now).(sceneIndex := automatic)
      else c
  }

  /** A tick reports failure when the deadline arithmetic would leave 64 bits. */
  datatype Outcome = Outcome(clock: Clock, ok: bool)

  function Reschedule(c: Clock, now: U64): Outcome
    requires Usable(c)
  {
    if now < c.nextDeadline then Outcome(c.(sleep := c.nextDeadline - now), true)
    else if now > U64_MAX - c.framePeriod then Outcome(c, false)
    else
      var late := now - c.nextDeadline;
      if late < c.framePeriod then
        if c.nextDeadline > U64_MAX - c.framePeriod then Outcome(c, false)
        else
          var next := c.nextDeadline + c.framePeriod;
          Outcome(c.(nextDeadline := next, sleep := next - now), true)
      else
        var next := now + c.framePeriod;
        Outcome(c.(dropped := (c.dropped + late / c.framePeriod) % (U64_MAX + 1),
                   nextDeadline := next, sleep := next - now), true)
  }

  function Tick(c: Clock, now: U64): Outcome {
    if !Usable(c) then Outcome(c, false)
    else Reschedule(SelectScene(c, Effective(c, now)), Effective(c, now))
  }

  /** size_t arithmetic of the scene after and before the current one. */
  function NextIndex(scene: Index, count: Index): Index
    requires count > 0
  {
    (scene + 1) % SIZE_MODULUS % count
  }

  function PreviousIndex(scene: Index, count: Index): Index
    requires count > 0
  {
    (scene + count - 1) % SIZE_MODULUS % count
  }

  function ShowManual(c: Clock, now: U64, hold: U64, scene: Index): Clock {
    var d := (if scene != c.sceneIndex then RecordChange(c, now) else c)
             .(manualScene := scene, sceneIndex := scene);
    if hold == 0 then d.(holdActive := false)
    else d.(holdUntil := AddSaturating(now, hold), holdActive := true)
  }

  function RequestNext(c: Clock, now: U64, hold: U64): Clock {
    if c.sceneCount == 0 || !ChangeAllowed(c, now) then c
    else ShowManual(c, now, hold, NextIndex(c.sceneIndex, c.sceneCount))
  }

  function RequestPrevious(c: Clock, now: U64, hold: U64): Clock {
    if c.sceneCount == 0 || !ChangeAllowed(c, now) then c
    else ShowManual(c, now, hold, PreviousIndex(c.sceneIndex, c.sceneCount))
  }

  // ----- the runtime object

  class Runtime {
    var sceneCount: Index
    var sceneIndex: Index
    var manualScene: Index
    var origin: U64
    var framePeriod: U64
    var scenePeriod: U64
    var holdUntil: U64
    var minChange: U64
    var lastChange: U64
    var hadChange: bool
    var nextDeadline: U64
    var frame: U64
    var dropped: U64
    var sleep: U64
    var holdActive: bool

    function State(): Clock
      reads this
    {
      Clock(sceneCount, sceneIndex, manualScene, origin, framePeriod, scenePeriod, holdUntil,
            minChange, lastChange, hadChange, nextDeadline, frame, dropped, sleep, holdActive)
    }

    /** memset over the scene and guard fields. */
    method ClearScene()
      modifies this
      ensures sceneIndex == manualScene == holdUntil == lastChange == 0 && !hadChange && !holdActive
      ensures frame == 0 && dropped == 0
    {
      sceneIndex, manualScene, holdUntil, lastChange := 0, 0, 0, 0;
      hadChange, holdActive := false, false;
      frame, dropped := 0, 0;
    }

    method Configure(count: Index, start: U64, frameNs: U64, sceneNs: U64, changeNs: U64)
      returns (ok: bool)
      modifies this
      ensures ok == Start(count, start, frameNs, sceneNs, changeNs).Ready?
      ensures ok ==> State() == Start(count, start, frameNs, sceneNs, changeNs).clock
      ensures !ok ==> State() == old(State())
    {
      if count == 0 || frameNs == 0 || sceneNs == 0 || start >= U64_MAX - frameNs {
        return false;
      }
      ClearScene();
      sceneCount, origin := count, start;
      framePeriod, scenePeriod, minChange := frameNs, sceneNs, changeNs;
      nextDeadline := start + frameNs;
      sleep := frameNs;
      return true;
    }

    /** First half of a tick: frame counter, hold expiry, scene selection. */
    method SelectSceneAt(now: U64)
      requires Usable(State()) && now >= origin
      modifies this
      ensures State() == SelectScene(old(State()), now)
    {
      var elapsed := now - origin;
      frame := elapsed / framePeriod;
      if holdActive && now >= holdUntil {
        holdActive := false;
      }
      if holdActive {
        sceneIndex := manualScene;
      } else {
        var automatic: Index := (elapsed / scenePeriod) % sceneCount;
        if automatic != sceneIndex {
          if ChangeAllowed(State(), now) {
            lastChange, hadChange := now, true;
            sceneIndex := automatic;
          }
        }
      }
    }

    /** Second half of a tick: the deadline and the time to sleep. */
    method RescheduleAt(now: U64) returns (ok: bool)
      requires Usable(State())
      modifies this
      ensures State() == Reschedule(old(State()), now).clock
      ensures ok == Reschedule(old(State()), now).ok
    {
      if now < nextDeadline {
        sleep := nextDeadline - now;
        return true;
      }
      if now > U64_MAX - framePeriod {
        return false;
      }
      var late := now - nextDeadline;
      if late < framePeriod {
        if nextDeadline > U64_MAX - framePeriod {
          return false;
        }
        nextDeadline := nextDeadline + framePeriod;
      } else {
        dropped := (dropped + late / framePeriod) % (U64_MAX + 1);
        nextDeadline := now + framePeriod;
      }
      sleep := nextDeadline - now;
      return true;
    }

    method TickAt(reading: U64) returns (ok: bool)
      modifies this
      ensures State() == Tick(old(State()), reading).clock
      ensures ok == Tick(old(State()), reading).ok
    {
      if sceneCount == 0 || framePeriod == 0 || scenePeriod == 0 {
        return false;
      }
      var now := reading;
      if now < origin {
        now := origin;
      }
      SelectSceneAt(now);
      ok := RescheduleAt(now);
    }

    /** The common tail of both requests. */
    method Show(now: U64, hold: U64)
      modifies this
      ensures State() == ShowManual(old(State()), now, hold, old(manualScene))
    {
      if manualScene != sceneIndex {
        lastChange, hadChange := now, true;
      }
      sceneIndex := manualScene;
      if hold == 0 {
        holdActive := false;
        return;
      }
      holdUntil := AddSaturating(now, hold);
      holdActive := true;
    }

    method Next(now: U64, hold: U64)
      modifies this
      ensures State() == RequestNext(old(State()), now, hold)
    {
      if sceneCount == 0 || !ChangeAllowed(State(), now) {
        return;
      }
      manualScene := NextIndex(sceneIndex, sceneCount);
      Show(now, hold);
    }

    method Previous(now: U64, hold: U64)
      modifies this
      ensures State() == RequestPrevious(old(State()), now, hold)
    {
      if sceneCount == 0 || !ChangeAllowed(State(), now) {
        return;
      }
      manualScene := PreviousIndex(sceneIndex, sceneCount);
      Show(now, hold);
    }
  }

  // ----- runs

  datatype Op = TickOp(now: U64) | NextOp(now: U64, hold: U64) | PreviousOp(now: U64, hold: U64)

  function Do(c: Clock, op: Op): Clock {
    match op
    case TickOp(now) => Tick(c, now).clock
    case NextOp(now, hold) => RequestNext(c, now, hold)
    case PreviousOp(now, hold) => RequestPrevious(c, now, hold)
  }

  /** The clock after each prefix of `ops`; `After(c, ops, |ops|)` is the final one. */
  function After(c: Clock, ops: seq<Op>, n: nat): Clock
    requires n <= |ops|
  {
    if n == 0 then c else Do(After(c, ops, n - 1), ops[n - 1])
  }

  // ----- stepping between scenes

  lemma RemainderBelow(a: nat, d: nat)
    requires a < d
    ensures a % d == a
  {
  }

  lemma RemainderWraps(a: nat, d: nat)
    requires d <= a < 2 * d
    ensures a % d == a - d
  {
  }

  /** `next` steps forward cyclically. */
  lemma NextIndexIs(scene: Index, count: Index)
    requires scene < count
    ensures NextIndex(scene, count) == if scene + 1 == count then 0 else scene + 1
  {
    RemainderBelow(scene + 1, SIZE_MODULUS);
    if scene + 1 == count { RemainderWraps(count, count); } else { RemainderBelow(scene + 1, count); }
  }

  /** `previous` steps back cyclically as long as index plus count stays inside size_t. */
  lemma PreviousIndexIs(scene: Index, count: Index)
    requires scene < count
    ensures PreviousIndex(scene, count) ==
            if scene == 0 then count - 1
            else if scene + count - 1 < SIZE_MODULUS then scene - 1 else scene + count - 1 - SIZE_MODULUS
  {
    var sum := scene + count - 1;
    if scene == 0 {
      RemainderBelow(sum, SIZE_MODULUS);
      RemainderBelow(sum, count);
    } else if sum < SIZE_MODULUS {
      RemainderBelow(sum, SIZE_MODULUS);
      RemainderWraps(sum, count);
    } else {
      RemainderWraps(sum, SIZE_MODULUS);
      RemainderBelow(sum - SIZE_MODULUS, count);
    }
  }

  /** `previous` undoes `next` exactly when the sum of index and count stays inside size_t. */
  lemma PreviousUndoesNext(scene: Index, count: Index)
    requires scene < count
    ensures PreviousIndex(NextIndex(scene, count), count) == scene <==>
            (scene + 1 == count || scene + count < SIZE_MODULUS)
  {
    NextIndexIs(scene, count);
    PreviousIndexIs(NextIndex(scene, count), count);
  }

  /** Three billion scenes are enough to lose the way back. */
  lemma PreviousCanMiss()
    ensures PreviousIndex(NextIndex(2_999_999_998, 3_000_000_000), 3_000_000_000) != 2_999_999_998
  {
    PreviousUndoesNext(2_999_999_998, 3_000_000_000);
  }
}
