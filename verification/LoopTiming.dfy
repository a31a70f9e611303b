/** The main loop with its clock: scene selection and fades over the same turns, and when a scene
    change can arrive before the fade for the one before has ended. */
module LoopTiming {
  import opened NatArithmetic
  import opened SceneClock
  import opened Canvas
  import opened RateLimit
  import opened Transition
  import opened FadeLoop
  import Deadlines

  /** One turn of the loop: the first tick and the requests read the clock at `at`, the second tick
      at `after`. */
  datatype Turn = Turn(at: U64, requests: seq<Op>, after: U64)

  ghost predicate GoodTurn(turn: Turn, gap: nat) {
    && turn.at <= turn.after <= turn.at + gap
    && forall i :: 0 <= i < |turn.requests| ==> !turn.requests[i].TickOp? && turn.requests[i].now == turn.at
  }

  /** What happens to the clock before the loop looks at the scene. */
  function Ops(turn: Turn): (ops: seq<Op>)
    ensures |ops| == |turn.requests| + 1 && ops[0] == TickOp(turn.at)
    ensures forall i :: 0 <= i < |turn.requests| ==> ops[i + 1] == turn.requests[i]
  {
    [TickOp(turn.at)] + turn.requests
  }

  ghost predicate HalfAt(turn: Turn, half: seq<Clock>, j: nat)
    requires |half| == |Ops(turn)| + 1 && j < |Ops(turn)|
  {
    half[j + 1] == Do(half[j], Ops(turn)[j])
  }

  /** The clocks of a turn's first half: `half[j]` is the clock before operation `j`. */
  ghost predicate Half(c: Clock, turn: Turn, half: seq<Clock>) {
    && |half| == |Ops(turn)| + 1 && half[0] == c && Tick(c, turn.at).ok
    && forall j :: 0 <= j < |Ops(turn)| ==> HalfAt(turn, half, j)
  }

  /** The clock the fade logic sees. */
  function Seen(half: seq<Clock>): Clock
    requires |half| > 0
  {
    half[|half| - 1]
  }

  function Shown(c: Clock): Input { Input(c.sceneIndex, c.frame) }

  /** A successful tick takes `c` to `d`. */
  ghost predicate Ticks(c: Clock, now: U64, d: Clock) { Tick(c, now) == Outcome(d, true) }

  /** A loop run: before turn `k` the clock is `clocks[k]` and the screen `screens[k]`. */
  datatype LoopTrace = LoopTrace(turns: seq<Turn>, clocks: seq<Clock>, halves: seq<seq<Clock>>, screens: seq<Screen>)

  ghost predicate Shape(r: LoopTrace) {
    && |r.clocks| == |r.screens| == |r.turns| + 1 && |r.halves| == |r.turns|
    && forall k :: 0 <= k < |r.halves| ==> |r.halves[k]| > 0
  }

  ghost predicate TurnAt(scenes: Scenes, r: LoopTrace, gap: nat, k: nat)
    requires Shape(r) && k < |r.turns|
  {
    && GoodTurn(r.turns[k], gap) && Half(r.clocks[k], r.turns[k], r.halves[k])
    && Ticks(Seen(r.halves[k]), r.turns[k].after, r.clocks[k + 1])
    && Follows(scenes, r.screens[k], Shown(Seen(r.halves[k])), r.screens[k + 1])
    && (if k == 0 then r.clocks[0].origin <= r.turns[0].at
        else r.turns[k - 1].after <= r.turns[k].at <= r.turns[k - 1].at + gap)
  }

  /** A run of the loop whose turns start at most `gap` nanoseconds apart. */
  ghost predicate LoopRun(scenes: Scenes, r: LoopTrace, gap: nat) {
    && Shape(r) && Starts(scenes, r.screens[0]) && r.screens[0].displayed == r.clocks[0].sceneIndex
    && forall k :: 0 <= k < |r.turns| ==> TurnAt(scenes, r, gap, k)
  }

  /** Operation `j` of a turn's first half changes the scene. */
  predicate ChangesAt(half: seq<Clock>, j: nat)
    requires j + 1 < |half|
  {
    half[j].sceneIndex != half[j + 1].sceneIndex
  }

  ghost predicate Changes(half: seq<Clock>) {
    exists j :: 0 <= j < |half| - 1 && ChangesAt(half, j)
  }

  /** A scene change arrives while a fade is running: in the first half of a turn that finds it
      running, or in the second tick of a turn that leaves it running. */
  ghost predicate LateAt(r: LoopTrace, k: nat)
    requires Shape(r) && k < |r.turns|
  {
    || (r.screens[k].fade.active && Changes(r.halves[k]))
    || (r.screens[k + 1].fade.active && r.clocks[k + 1].sceneIndex != Seen(r.halves[k]).sceneIndex)
  }

  /** The fades of a loop run are a run of the fade loop. */
  lemma LoopRunFades(scenes: Scenes, r: LoopTrace, gap: nat) returns (inputs: seq<Input>)
    requires LoopRun(scenes, r, gap)
    ensures IsRun(scenes, r.screens, inputs)
  {
    inputs := seq(|r.turns|, k requires 0 <= k < |r.turns| => Shown(Seen(r.halves[k])));
    forall k | 0 <= k < |r.turns| ensures Follows(scenes, r.screens[k], inputs[k], r.screens[k + 1]) {
      assert TurnAt(scenes, r, gap, k);
    }
  }

  // ----- clocks at one instant

  /** What no operation changes, and what each keeps. */
  ghost predicate Sound(c: Clock) {
    Usable(c) && c.sceneIndex < c.sceneCount && (c.holdActive ==> c.sceneIndex == c.manualScene)
  }

  ghost predicate SameSetup(c: Clock, d: Clock) {
    && d.origin == c.origin && d.sceneCount == c.sceneCount && d.framePeriod == c.framePeriod
    && d.scenePeriod == c.scenePeriod && d.minChange == c.minChange
  }

  ghost predicate SameScene(c: Clock, d: Clock) {
    d.sceneIndex == c.sceneIndex && d.hadChange == c.hadChange && d.lastChange == c.lastChange
  }

  lemma AutomaticBelow(c: Clock, now: U64)
    requires Usable(c) && c.origin <= now
    ensures Automatic(c, now) < c.sceneCount
  {
  }

  lemma TickKeepsSound(c: Clock, now: U64)
    requires Sound(c)
    ensures Sound(Tick(c, now).clock) && SameSetup(c, Tick(c, now).clock)
  {
    AutomaticBelow(c, Effective(c, now));
    TickIsGuarded(c, now);
  }

  lemma IndexMoves(scene: Index, count: Index)
    requires scene < count
    ensures NextIndex(scene, count) < count && PreviousIndex(scene, count) < count
    ensures count > 1 ==> NextIndex(scene, count) != scene && PreviousIndex(scene, count) != scene
  {
    NextIndexIs(scene, count);
    PreviousIndexIs(scene, count);
  }

  lemma OpKeepsSound(c: Clock, op: Op)
    requires Sound(c)
    ensures Sound(Do(c, op)) && SameSetup(c, Do(c, op))
  {
    if op.TickOp? {
      TickKeepsSound(c, op.now);
    } else {
      IndexMoves(c.sceneIndex, c.sceneCount);
    }
  }

  /** Every operation of the first half acts at the turn's time. */
  lemma ActsAtTurn(c: Clock, turn: Turn, gap: nat, j: nat)
    requires GoodTurn(turn, gap) && c.origin <= turn.at && j < |Ops(turn)|
    ensures ActsAt(c, Ops(turn)[j]) == turn.at
  {
    if j > 0 { assert Ops(turn)[j] == turn.requests[j - 1]; }
  }

  /** From `c` to `d` at time `at`: nothing about the scene changes, or the change is at `at` and the
      guard allowed it. */
  ghost predicate Guarded(c: Clock, d: Clock, at: U64) {
    && Sound(d) && SameSetup(c, d)
    && (if d.sceneIndex == c.sceneIndex then SameScene(c, d)
        else ChangeAllowed(c, at) && d.hadChange && d.lastChange == at)
  }

  lemma OpIsGuarded(c: Clock, op: Op, at: U64, d: Clock)
    requires Sound(c) && ActsAt(c, op) == at && d == Do(c, op)
    ensures Guarded(c, d, at)
  {
    OpKeepsSound(c, op);
    ChangeIsGuarded(c, op);
  }

  lemma TickGuarded(c: Clock, at: U64, d: Clock)
    requires Sound(c) && c.origin <= at && Ticks(c, at, d)
    ensures Guarded(c, d, at)
  {
    OpIsGuarded(c, TickOp(at), at, d);
  }

  lemma HalfStep(c: Clock, turn: Turn, gap: nat, half: seq<Clock>, j: nat)
    requires Half(c, turn, half) && GoodTurn(turn, gap) && j < |Ops(turn)| && Sound(half[j])
    requires half[j].origin <= turn.at
    ensures Guarded(half[j], half[j + 1], turn.at)
  {
    assert HalfAt(turn, half, j);
    ActsAtTurn(half[j], turn, gap, j);
    OpIsGuarded(half[j], Ops(turn)[j], turn.at, half[j + 1]);
  }

  /** The first half of a turn: the scene's record is untouched or says `at`. */
  lemma {:induction false} FirstHalf(c: Clock, turn: Turn, gap: nat, half: seq<Clock>, n: nat)
    requires Sound(c) && Half(c, turn, half) && GoodTurn(turn, gap) && c.origin <= turn.at && n <= |Ops(turn)|
    ensures Sound(half[n]) && SameSetup(c, half[n])
    ensures SameScene(c, half[n]) || (half[n].hadChange && half[n].lastChange == turn.at)
  {
    if n > 0 {
      FirstHalf(c, turn, gap, half, n - 1);
      HalfStep(c, turn, gap, half, n - 1);
    }
  }

  /** Where the guard allows nothing, nothing happens to the scene. */
  lemma {:induction false} QuietHalf(c: Clock, turn: Turn, gap: nat, half: seq<Clock>, n: nat)
    requires Sound(c) && Half(c, turn, half) && GoodTurn(turn, gap) && c.origin <= turn.at && n <= |Ops(turn)|
    requires !ChangeAllowed(c, turn.at)
    ensures Sound(half[n]) && SameSetup(c, half[n]) && SameScene(c, half[n])
  {
    if n > 0 {
      QuietHalf(c, turn, gap, half, n - 1);
      HalfStep(c, turn, gap, half, n - 1);
    }
  }

  lemma QuietHalfNeverChanges(c: Clock, turn: Turn, gap: nat, half: seq<Clock>)
    requires Sound(c) && Half(c, turn, half) && GoodTurn(turn, gap) && c.origin <= turn.at && !ChangeAllowed(c, turn.at)
    ensures !Changes(half) && Sound(Seen(half)) && SameSetup(c, Seen(half)) && SameScene(c, Seen(half))
  {
    forall j | 0 <= j < |half| - 1 ensures !ChangesAt(half, j) {
      QuietHalf(c, turn, gap, half, j);
      QuietHalf(c, turn, gap, half, j + 1);
    }
    QuietHalf(c, turn, gap, half, |Ops(turn)|);
  }

  // ----- two ticks at one instant

  /** A tick at `at` would not change the scene. */
  ghost predicate Settled(c: Clock, at: U64) { Tick(c, at).clock.sceneIndex == c.sceneIndex }

  /** After a change at `at` the guard keeps the scene for the rest of that instant. */
  lemma GuardSettles(c: Clock, at: U64)
    requires Sound(c) && c.origin <= at && !ChangeAllowed(c, at)
    ensures Settled(c, at)
  {
    TickIsGuarded(c, at);
  }

  /** Why a tick at `at` left the scene it left. */
  lemma TickSelected(c: Clock, at: U64)
    requires Sound(c) && c.origin <= at
    ensures var d := Tick(c, at).clock;
            && d.origin == c.origin && Usable(d) && (d.holdActive ==> at < d.holdUntil)
            && (d.holdActive || d.sceneIndex == Automatic(d, at) || !ChangeAllowed(d, at))
  {
  }

  /** A scene that is held or wanted stays. */
  lemma HeldOrWantedSettles(c: Clock, at: U64)
    requires Sound(c) && c.origin <= at
    requires if c.holdActive then at < c.holdUntil else c.sceneIndex == Automatic(c, at)
    ensures Settled(c, at)
  {
  }

  lemma TickSettles(c: Clock, at: U64, d: Clock)
    requires Sound(c) && c.origin <= at && d == Tick(c, at).clock
    ensures Settled(d, at)
  {
    TickKeepsSound(c, at);
    TickSelected(c, at);
    if d.holdActive || d.sceneIndex == Automatic(d, at) {
      HeldOrWantedSettles(d, at);
    } else {
      GuardSettles(d, at);
    }
  }

  /** A request that is allowed changes the scene, and one that is not changes nothing. */
  lemma RequestSettles(c: Clock, op: Op, at: U64, d: Clock)
    requires Sound(c) && c.sceneCount > 1 && c.minChange > 0 && c.origin <= at && !op.TickOp? && op.now == at
    requires Settled(c, at) && d == Do(c, op)
    ensures Settled(d, at)
  {
    if ChangeAllowed(c, at) {
      IndexMoves(c.sceneIndex, c.sceneCount);
      OpKeepsSound(c, op);
      GuardSettles(d, at);
    }
  }

  lemma {:induction false} HalfSettles(c: Clock, turn: Turn, gap: nat, half: seq<Clock>, n: nat)
    requires Sound(c) && c.sceneCount > 1 && c.minChange > 0 && Half(c, turn, half) && GoodTurn(turn, gap)
    requires c.origin <= turn.at && 0 < n <= |Ops(turn)|
    ensures Settled(half[n], turn.at)
  {
    FirstHalf(c, turn, gap, half, n - 1);
    assert HalfAt(turn, half, n - 1);
    if n == 1 {
      TickSettles(half[0], turn.at, half[1]);
    } else {
      assert Ops(turn)[n - 1] == turn.requests[n - 2];
      HalfSettles(c, turn, gap, half, n - 1);
      RequestSettles(half[n - 1], Ops(turn)[n - 1], turn.at, half[n]);
    }
  }

  lemma SettledTick(c: Clock, at: U64, d: Clock)
    requires Settled(c, at) && Ticks(c, at, d)
    ensures d.sceneIndex == c.sceneIndex
  {
  }

  // ----- fades in step with the guard

  /** How far a fade with `elapsed` frames can reach from the change that caused it. */
  function Reach(elapsed: nat, gap: nat): nat {
    if gap == 0 then 1 else elapsed * gap
  }

  lemma ReachGrows(elapsed: nat, gap: nat)
    ensures elapsed > 0 ==> Reach(elapsed, gap) + gap == Reach(elapsed + 1, gap) && Reach(elapsed, gap) >= 1
    ensures Reach(1, gap) >= gap
  {
    assert (elapsed + 1) * gap == elapsed * gap + gap;
    assert 1 * gap == gap;
    if elapsed > 0 { ProductMonotone(1, elapsed, gap); }
  }

  lemma ReachWithin(elapsed: nat, gap: nat, minChange: nat)
    requires elapsed <= FRAMES && minChange > 0 && FRAMES * gap <= minChange
    ensures Reach(elapsed, gap) <= minChange
  {
    ProductMonotone(elapsed, FRAMES, gap);
  }

  /** After a turn at `at`: a running fade goes to the scene selected, whose change was less than
      Reach ago; outside a fade another scene is selected only by a change later than `at`. */
  ghost predicate InStep(c: Clock, s: Screen, at: int, gap: nat) {
    && Sound(c) && FadeInv(s)
    && (if s.fade.active
        then c.sceneIndex == s.fade.to && c.hadChange && at < c.lastChange + Reach(s.fade.elapsed, gap)
        else c.sceneIndex != s.displayed ==> c.hadChange && at < c.lastChange)
  }

  lemma NotYet(c: Clock, now: U64, reach: nat)
    requires c.minChange > 0 && c.hadChange && now < c.lastChange + reach && reach <= c.minChange
    ensures !ChangeAllowed(c, now)
  {
  }

  /** The second tick of a turn that leaves a fade running. */
  lemma SecondTickQuiet(d: Clock, at: U64, after: U64, z: Clock, elapsed: nat, gap: nat)
    requires Sound(d) && d.origin <= at <= after <= at + gap && 0 < elapsed < FRAMES && Ticks(d, after, z)
    requires d.hadChange && at < d.lastChange + Reach(elapsed, gap) && d.minChange > 0 && FRAMES * gap <= d.minChange
    ensures Sound(z) && SameSetup(d, z) && SameScene(d, z)
  {
    ReachGrows(elapsed, gap);
    ReachWithin(elapsed + 1, gap, d.minChange);
    NotYet(d, after, Reach(elapsed + 1, gap));
    TickGuarded(d, after, z);
  }

  /** The second tick of a turn that leaves no fade running. */
  lemma SecondTickFree(c: Clock, turn: Turn, gap: nat, half: seq<Clock>, z: Clock)
    requires Sound(c) && c.sceneCount > 1 && c.minChange > 0 && Half(c, turn, half) && GoodTurn(turn, gap)
    requires c.origin <= turn.at && Ticks(Seen(half), turn.after, z)
    ensures Sound(z) && SameSetup(c, z)
    ensures z.sceneIndex != Seen(half).sceneIndex ==> z.hadChange && turn.at < z.lastChange
  {
    FirstHalf(c, turn, gap, half, |Ops(turn)|);
    TickGuarded(Seen(half), turn.after, z);
    if turn.after == turn.at {
      HalfSettles(c, turn, gap, half, |Ops(turn)|);
      SettledTick(Seen(half), turn.at, z);
    }
  }

  /** The guard outlasts a fade: a change is followed by no other for as long as fifteen turns take. */
  ghost predicate GuardOutlasts(c: Clock, gap: nat) {
    c.sceneCount > 1 && c.minChange > 0 && FRAMES * gap <= c.minChange
  }

  /** A turn of the loop that begins in step, at most `gap` after `at`. */
  ghost predicate Entered(c: Clock, s: Screen, at: int, turn: Turn, half: seq<Clock>, z: Clock, gap: nat) {
    && InStep(c, s, at, gap) && GuardOutlasts(c, gap) && GoodTurn(turn, gap) && c.origin <= turn.at <= at + gap
    && Half(c, turn, half) && Ticks(Seen(half), turn.after, z)
  }

  /** A turn that finds a fade running. */
  lemma TurnInFade(scenes: Scenes, c: Clock, s: Screen, at: int, turn: Turn, half: seq<Clock>, z: Clock, gap: nat,
                   next: Screen)
    requires Entered(c, s, at, turn, half, z, gap) && s.fade.active
    requires StepIs(scenes, s, Shown(Seen(half)), next) && FadeInv(next)
    ensures !Changes(half) && (next.fade.active ==> z.sceneIndex == Seen(half).sceneIndex)
    ensures InStep(z, next, turn.at, gap) && SameSetup(c, z)
  {
    ReachGrows(s.fade.elapsed, gap);
    ReachWithin(s.fade.elapsed + 1, gap, c.minChange);
    NotYet(c, turn.at, Reach(s.fade.elapsed + 1, gap));
    QuietHalfNeverChanges(c, turn, gap, half);
    if next.fade.active {
      SecondTickQuiet(Seen(half), turn.at, turn.after, z, next.fade.elapsed, gap);
    } else {
      SecondTickFree(c, turn, gap, half, z);
    }
  }

  /** A turn that finds no fade running. */
  lemma TurnOutsideFade(scenes: Scenes, c: Clock, s: Screen, at: int, turn: Turn, half: seq<Clock>, z: Clock, gap: nat,
                        next: Screen)
    requires Entered(c, s, at, turn, half, z, gap) && !s.fade.active
    requires StepIs(scenes, s, Shown(Seen(half)), next) && FadeInv(next)
    ensures next.fade.active ==> z.sceneIndex == Seen(half).sceneIndex
    ensures InStep(z, next, turn.at, gap) && SameSetup(c, z)
  {
    FirstHalf(c, turn, gap, half, |Ops(turn)|);
    if next.fade.active {
      ReachGrows(1, gap);
      SecondTickQuiet(Seen(half), turn.at, turn.after, z, 1, gap);
    } else {
      SecondTickFree(c, turn, gap, half, z);
    }
  }

  lemma OneTurn(scenes: Scenes, c: Clock, s: Screen, at: int, turn: Turn, half: seq<Clock>, z: Clock, gap: nat,
                next: Screen)
    requires Entered(c, s, at, turn, half, z, gap) && Follows(scenes, s, Shown(Seen(half)), next)
    ensures (s.fade.active ==> !Changes(half)) && (next.fade.active ==> z.sceneIndex == Seen(half).sceneIndex)
    ensures InStep(z, next, turn.at, gap) && GuardOutlasts(z, gap) && z.origin == c.origin
  {
    StepControls(scenes, s, Shown(Seen(half)));
    if s.fade.active {
      TurnInFade(scenes, c, s, at, turn, half, z, gap, next);
    } else {
      TurnOutsideFade(scenes, c, s, at, turn, half, z, gap, next);
    }
  }

  // ----- runs

  ghost predicate FreshClock(c: Clock) {
    Sound(c) && !c.hadChange && !c.holdActive && c.sceneIndex == 0
  }

  /** The state before turn `k`, and the time the fade is counted from. */
  ghost predicate ReadyFor(r: LoopTrace, gap: nat, k: nat, at: int)
    requires Shape(r) && k < |r.turns|
  {
    && InStep(r.clocks[k], r.screens[k], at, gap) && GuardOutlasts(r.clocks[k], gap)
    && r.clocks[k].origin <= r.turns[k].at <= at + gap
  }

  lemma TurnInRun(scenes: Scenes, r: LoopTrace, gap: nat, k: nat, at: int)
    requires LoopRun(scenes, r, gap) && k < |r.turns| && ReadyFor(r, gap, k, at)
    ensures !LateAt(r, k) && InStep(r.clocks[k + 1], r.screens[k + 1], r.turns[k].at, gap)
    ensures GuardOutlasts(r.clocks[k + 1], gap) && r.clocks[k + 1].origin == r.clocks[k].origin
  {
    assert TurnAt(scenes, r, gap, k);
    OneTurn(scenes, r.clocks[k], r.screens[k], at, r.turns[k], r.halves[k], r.clocks[k + 1], gap, r.screens[k + 1]);
  }

  lemma TurnTimes(scenes: Scenes, r: LoopTrace, gap: nat, k: nat)
    requires LoopRun(scenes, r, gap) && k < |r.turns|
    ensures if k == 0 then r.clocks[0].origin <= r.turns[0].at
            else r.turns[k - 1].at <= r.turns[k].at <= r.turns[k - 1].at + gap
  {
    assert TurnAt(scenes, r, gap, k);
    if k > 0 {
      assert TurnAt(scenes, r, gap, k - 1);
    }
  }

  lemma {:induction false} RunInStep(scenes: Scenes, r: LoopTrace, gap: nat, n: nat)
    requires LoopRun(scenes, r, gap) && FreshClock(r.clocks[0]) && GuardOutlasts(r.clocks[0], gap) && 0 < n <= |r.turns|
    ensures InStep(r.clocks[n], r.screens[n], r.turns[n - 1].at, gap) && GuardOutlasts(r.clocks[n], gap)
    ensures r.clocks[n].origin <= r.turns[n - 1].at && !LateAt(r, n - 1)
  {
    TurnTimes(scenes, r, gap, n - 1);
    if n == 1 {
      TurnInRun(scenes, r, gap, 0, r.turns[0].at);
    } else {
      RunInStep(scenes, r, gap, n - 1);
      TurnInRun(scenes, r, gap, n - 1, r.turns[n - 2].at);
    }
  }

  // ----- one scene

  lemma OneSceneStays(c: Clock, d: Clock)
    requires Sound(c) && c.sceneCount == 1 && Sound(d) && SameSetup(c, d)
    ensures d.sceneIndex == c.sceneIndex
  {
  }

  lemma {:induction false} SoundHalf(c: Clock, turn: Turn, half: seq<Clock>, n: nat)
    requires Sound(c) && Half(c, turn, half) && n <= |Ops(turn)|
    ensures Sound(half[n]) && SameSetup(c, half[n])
  {
    if n > 0 {
      SoundHalf(c, turn, half, n - 1);
      assert HalfAt(turn, half, n - 1);
      OpKeepsSound(half[n - 1], Ops(turn)[n - 1]);
    }
  }

  lemma OneSceneHalf(c: Clock, turn: Turn, half: seq<Clock>)
    requires Sound(c) && c.sceneCount == 1 && Half(c, turn, half)
    ensures !Changes(half) && Sound(Seen(half)) && SameSetup(c, Seen(half))
  {
    forall j | 0 <= j < |half| - 1 ensures !ChangesAt(half, j) {
      SoundHalf(c, turn, half, j);
      SoundHalf(c, turn, half, j + 1);
      OneSceneStays(half[j], half[j + 1]);
    }
    SoundHalf(c, turn, half, |Ops(turn)|);
  }

  lemma SoundTick(c: Clock, now: U64, d: Clock)
    requires Sound(c) && Ticks(c, now, d)
    ensures Sound(d) && SameSetup(c, d)
  {
    TickKeepsSound(c, now);
  }

  lemma OneSceneTurn(scenes: Scenes, r: LoopTrace, gap: nat, k: nat)
    requires LoopRun(scenes, r, gap) && k < |r.turns| && Sound(r.clocks[k]) && r.clocks[k].sceneCount == 1
    ensures Sound(r.clocks[k + 1]) && r.clocks[k + 1].sceneCount == 1 && !LateAt(r, k)
  {
    assert TurnAt(scenes, r, gap, k);
    OneSceneHalf(r.clocks[k], r.turns[k], r.halves[k]);
    SoundTick(Seen(r.halves[k]), r.turns[k].after, r.clocks[k + 1]);
    OneSceneStays(Seen(r.halves[k]), r.clocks[k + 1]);
  }

  lemma {:induction false} OneSceneRun(scenes: Scenes, r: LoopTrace, gap: nat, n: nat)
    requires LoopRun(scenes, r, gap) && Sound(r.clocks[0]) && r.clocks[0].sceneCount == 1 && n <= |r.turns|
    ensures Sound(r.clocks[n]) && r.clocks[n].sceneCount == 1 && (n > 0 ==> !LateAt(r, n - 1))
  {
    if n > 0 {
      OneSceneRun(scenes, r, gap, n - 1);
      OneSceneTurn(scenes, r, gap, n - 1);
    }
  }

  // ----- runs from given turns

  ghost predicate SpacedAt(c: Clock, turns: seq<Turn>, gap: nat, k: nat)
    requires k < |turns|
  {
    && GoodTurn(turns[k], gap) && turns[k].after <= U64_MAX - c.framePeriod
    && (if k == 0 then c.origin <= turns[0].at else turns[k - 1].after <= turns[k].at <= turns[k - 1].at + gap)
  }

  ghost predicate Spaced(c: Clock, turns: seq<Turn>, gap: nat) {
    forall k :: 0 <= k < |turns| ==> SpacedAt(c, turns, gap, k)
  }

  lemma {:induction false} StartsLater(c: Clock, turns: seq<Turn>, gap: nat, n: nat)
    requires Spaced(c, turns, gap) && n < |turns|
    ensures c.origin <= turns[n].at
  {
    assert SpacedAt(c, turns, gap, n);
    if n > 0 {
      StartsLater(c, turns, gap, n - 1);
      assert SpacedAt(c, turns, gap, n - 1);
    }
  }

  lemma TickSucceeds(c: Clock, now: U64)
    requires Sound(c) && c.origin <= now <= U64_MAX - c.framePeriod
    ensures Ticks(c, now, Tick(c, now).clock)
  {
    Deadlines.TickFailsOnlyAtTheEnd(c, now);
  }

  lemma {:induction false} HalfPrefix(c: Clock, turn: Turn, n: nat) returns (half: seq<Clock>)
    requires n <= |Ops(turn)|
    ensures |half| == n + 1 && half[0] == c && forall j :: 0 <= j < n ==> half[j + 1] == Do(half[j], Ops(turn)[j])
  {
    if n == 0 {
      half := [c];
    } else {
      var before := HalfPrefix(c, turn, n - 1);
      half := before + [Do(before[n - 1], Ops(turn)[n - 1])];
    }
  }

  /** Every turn that leaves the clock room happens. */
  lemma TurnHappens(c: Clock, turn: Turn, gap: nat) returns (half: seq<Clock>, z: Clock)
    requires Sound(c) && GoodTurn(turn, gap) && c.origin <= turn.at && turn.after <= U64_MAX - c.framePeriod
    ensures Half(c, turn, half) && Ticks(Seen(half), turn.after, z) && Sound(z) && SameSetup(c, z)
  {
    half := HalfPrefix(c, turn, |Ops(turn)|);
    TickSucceeds(c, turn.at);
    SoundHalf(c, turn, half, |Ops(turn)|);
    TickSucceeds(Seen(half), turn.after);
    z := Tick(Seen(half), turn.after).clock;
    SoundTick(Seen(half), turn.after, z);
  }

  /** What every state of a run keeps. */
  ghost predicate Kept(scenes: Scenes, c: Clock, d: Clock, s: Screen) {
    Sound(d) && SameSetup(c, d) && FadeInv(s) && Fits(scenes, s)
  }

  ghost predicate AllKept(scenes: Scenes, c: Clock, r: LoopTrace)
    requires Shape(r)
  {
    forall k :: 0 <= k <= |r.turns| ==> Kept(scenes, c, r.clocks[k], r.screens[k])
  }

  function Extended(r: LoopTrace, turn: Turn, half: seq<Clock>, z: Clock, next: Screen): LoopTrace {
    LoopTrace(r.turns + [turn], r.clocks + [z], r.halves + [half], r.screens + [next])
  }

  lemma RunGrows(scenes: Scenes, r: LoopTrace, gap: nat, turn: Turn, half: seq<Clock>, z: Clock, next: Screen)
    requires LoopRun(scenes, r, gap) && GoodTurn(turn, gap) && Half(r.clocks[|r.turns|], turn, half)
    requires Ticks(Seen(half), turn.after, z) && Follows(scenes, r.screens[|r.turns|], Shown(Seen(half)), next)
    requires if r.turns == [] then r.clocks[0].origin <= turn.at
             else r.turns[|r.turns| - 1].after <= turn.at <= r.turns[|r.turns| - 1].at + gap
    ensures LoopRun(scenes, Extended(r, turn, half, z, next), gap)
  {
    var e := Extended(r, turn, half, z, next);
    forall k | 0 <= k < |e.turns| ensures TurnAt(scenes, e, gap, k) {
      if k < |r.turns| {
        assert TurnAt(scenes, r, gap, k);
      }
    }
  }

  lemma KeptGrows(scenes: Scenes, c: Clock, r: LoopTrace, turn: Turn, half: seq<Clock>, z: Clock, next: Screen)
    requires Shape(r) && |half| > 0 && AllKept(scenes, c, r) && Kept(scenes, c, z, next)
    ensures Shape(Extended(r, turn, half, z, next)) && AllKept(scenes, c, Extended(r, turn, half, z, next))
  {
    var e := Extended(r, turn, half, z, next);
    forall k | 0 <= k <= |e.turns| ensures Kept(scenes, c, e.clocks[k], e.screens[k]) {
      if k <= |r.turns| {
        assert Kept(scenes, c, r.clocks[k], r.screens[k]);
      }
    }
  }

  /** Turns that are well spaced and leave the clock room have a run. */
  lemma {:induction false} LoopExists(scenes: Scenes, c: Clock, s: Screen, turns: seq<Turn>, gap: nat, n: nat)
    returns (r: LoopTrace)
    requires Sound(c) && Starts(scenes, s) && s.displayed == c.sceneIndex && Spaced(c, turns, gap) && n <= |turns|
    ensures LoopRun(scenes, r, gap) && r.turns == turns[..n] && r.clocks[0] == c && r.screens[0] == s
    ensures AllKept(scenes, c, r)
  {
    if n == 0 {
      r := LoopTrace([], [c], [], [s]);
    } else {
      var before := LoopExists(scenes, c, s, turns, gap, n - 1);
      var turn, now := turns[n - 1], before.screens[n - 1];
      assert SpacedAt(c, turns, gap, n - 1) && Kept(scenes, c, before.clocks[n - 1], now);
      StartsLater(c, turns, gap, n - 1);
      var half, z := TurnHappens(before.clocks[n - 1], turn, gap);
      StepControls(scenes, now, Shown(Seen(half)));
      var next := Iterate(scenes, now, Shown(Seen(half)));
      RunGrows(scenes, before, gap, turn, half, z, next);
      KeptGrows(scenes, c, before, turn, half, z, next);
      r := Extended(before, turn, half, z, next);
      assert turns[..n - 1] + [turn] == turns[..n];
    }
  }

  // ----- late runs

  ghost predicate Uninterrupted(c: Clock, gap: nat) {
    forall scenes, r, k :: LoopRun(scenes, r, gap) && r.clocks[0] == c && 0 <= k < |r.turns| ==> !LateAt(r, k)
  }

  const HOLD: U64 := 8_000_000_000

  /** A turn with a request for the next scene. */
  function Asking(at: U64): Turn { Turn(at, [NextOp(at, HOLD)], at) }

  lemma AskingHalf(c: Clock, at: U64, half: seq<Clock>)
    requires Half(c, Asking(at), half)
    ensures |half| == 3 && half[0] == c && half[1] == Tick(c, at).clock && half[2] == RequestNext(half[1], at, HOLD)
  {
    assert HalfAt(Asking(at), half, 0) && HalfAt(Asking(at), half, 1);
  }

  lemma AllowedRequestChanges(c: Clock, at: U64, d: Clock)
    requires Sound(c) && c.sceneCount > 1 && ChangeAllowed(c, at) && d == RequestNext(c, at, HOLD)
    ensures d.sceneIndex != c.sceneIndex
  {
    IndexMoves(c.sceneIndex, c.sceneCount);
  }

  /** A request that is allowed when a turn begins makes the scene change in the turn's first half. */
  lemma AskingChanges(c: Clock, at: U64, half: seq<Clock>)
    requires Sound(c) && c.sceneCount > 1 && c.origin <= at && ChangeAllowed(c, at) && Half(c, Asking(at), half)
    ensures Changes(half)
  {
    AskingHalf(c, at, half);
    HalfStep(c, Asking(at), 0, half, 0);
    if half[1].sceneIndex != c.sceneIndex {
      assert ChangesAt(half, 0);
    } else {
      AllowedRequestChanges(half[1], at, half[2]);
      assert ChangesAt(half, 1);
    }
  }

  function Black(which: nat, frame: nat): seq<Pixel> { [BLACK] }

  function BlankScreen(): Screen { Screen(Fade(0, 0, 0, false, false), 0, [BLACK], [BLACK], [BLACK]) }

  /** What a turn does. */
  lemma TurnDoes(scenes: Scenes, c: Clock, r: LoopTrace, gap: nat, k: nat)
    requires LoopRun(scenes, r, gap) && k < |r.turns| && AllKept(scenes, c, r)
    ensures StepIs(scenes, r.screens[k], Shown(Seen(r.halves[k])), r.screens[k + 1])
    ensures Half(r.clocks[k], r.turns[k], r.halves[k]) && Ticks(Seen(r.halves[k]), r.turns[k].after, r.clocks[k + 1])
    ensures Sound(r.clocks[k]) && SameSetup(c, r.clocks[k])
  {
    assert TurnAt(scenes, r, gap, k) && Kept(scenes, c, r.clocks[k], r.screens[k]);
    StepControls(scenes, r.screens[k], Shown(Seen(r.halves[k])));
  }

  lemma AutomaticAtStart(c: Clock)
    requires Usable(c)
    ensures Automatic(c, c.origin) == 0
  {
    QuotientUnique(0, c.scenePeriod, 0);
    RemainderBelow(0, c.sceneCount);
  }

  /** A tick at which the attract loop still wants scene 0 leaves a fresh clock fresh. */
  lemma FreshTick(c: Clock, at: U64, d: Clock)
    requires FreshClock(c) && c.origin <= at && Automatic(c, at) == 0 && d == Tick(c, at).clock
    ensures FreshClock(d) && SameSetup(c, d)
  {
    TickKeepsSound(c, at);
  }

  lemma FirstAsking(c: Clock, half: seq<Clock>)
    requires FreshClock(c) && c.sceneCount > 1 && Half(c, Asking(c.origin), half)
    ensures Seen(half).sceneIndex != 0
  {
    AutomaticAtStart(c);
    AskingHalf(c, c.origin, half);
    FreshTick(c, c.origin, half[1]);
    AllowedRequestChanges(half[1], c.origin, half[2]);
  }

  /** Without a guard two requests in a row are enough. */
  lemma LateWithoutGuard(c: Clock, gap: nat)
    requires FreshClock(c) && c.sceneCount > 1 && c.minChange == 0 && c.origin <= U64_MAX - c.framePeriod
    ensures !Uninterrupted(c, gap)
  {
    var turns := [Asking(c.origin), Asking(c.origin)];
    var r := LoopExists(Black, c, BlankScreen(), turns, gap, 2);
    TurnDoes(Black, c, r, gap, 0);
    TurnDoes(Black, c, r, gap, 1);
    FirstAsking(c, r.halves[0]);
    AskingChanges(r.clocks[1], c.origin, r.halves[1]);
    assert LateAt(r, 1);
  }

  // ----- a guard shorter than a fade

  /** A turn without requests. */
  function Plain(at: U64): Turn { Turn(at, [], at) }

  lemma PlainHalf(c: Clock, turn: Turn, half: seq<Clock>)
    requires turn.requests == [] && Half(c, turn, half)
    ensures |half| == 2 && half[0] == c && half[1] == Tick(c, turn.at).clock
  {
    assert HalfAt(turn, half, 0);
  }

  lemma StepsFit(first: nat, step: nat, k: nat)
    requires k <= FRAMES
    ensures first + k * step <= first + FRAMES * step
  {
    ProductMonotone(k, FRAMES, step);
  }

  /** The attract loop changes scene in the second tick of turn 0, one nanosecond after that turn
      began; then fifteen turns, `step` apart, of which the last asks for another scene. */
  function LateTurn(first: U64, step: nat, k: nat): Turn
    requires k <= FRAMES && first + FRAMES * step + 1 <= U64_MAX
  {
    StepsFit(first, step, k);
    if k == 0 then Turn(first, [], first + 1)
    else if k < FRAMES then Plain(first + k * step) else Asking(first + k * step)
  }

  function LateTurns(first: U64, step: nat): (turns: seq<Turn>)
    requires first + FRAMES * step + 1 <= U64_MAX
    ensures |turns| == FRAMES + 1 && forall k :: 0 <= k <= FRAMES ==> turns[k] == LateTurn(first, step, k)
  {
    seq(FRAMES + 1, k requires 0 <= k <= FRAMES => LateTurn(first, step, k))
  }

  lemma LateTurnSpaced(c: Clock, first: U64, step: nat, gap: nat, k: nat)
    requires c.origin <= first && 0 < step <= gap && first + FRAMES * step + 1 <= U64_MAX - c.framePeriod
    requires k <= FRAMES
    ensures SpacedAt(c, LateTurns(first, step), gap, k)
  {
    StepsFit(first, step, k);
    if k > 0 {
      assert k * step == (k - 1) * step + step;
    }
  }

  lemma LateTurnsSpaced(c: Clock, first: U64, step: nat, gap: nat)
    requires c.origin <= first && 0 < step <= gap && first + FRAMES * step + 1 <= U64_MAX - c.framePeriod
    ensures Spaced(c, LateTurns(first, step), gap)
  {
    forall k | 0 <= k <= FRAMES ensures SpacedAt(c, LateTurns(first, step), gap, k) {
      LateTurnSpaced(c, first, step, gap, k);
    }
  }

  /** The first period boundary. */
  lemma FirstBoundary(c: Clock)
    requires Usable(c) && c.sceneCount > 1 && c.origin + c.scenePeriod <= U64_MAX
    ensures Automatic(c, c.origin + c.scenePeriod - 1) == 0 && Automatic(c, c.origin + c.scenePeriod) == 1
  {
    QuotientUnique(c.scenePeriod - 1, c.scenePeriod, 0);
    QuotientUnique(c.scenePeriod, c.scenePeriod, 1);
    RemainderBelow(0, c.sceneCount);
    RemainderBelow(1, c.sceneCount);
  }

  /** The second tick of turn 0 shows scene 1. */
  lemma BoundaryTick(c: Clock, at: U64, d: Clock)
    requires FreshClock(c) && c.origin <= at && Automatic(c, at) == 1 && Ticks(c, at, d)
    ensures d.sceneIndex == 1 && d.hadChange && d.lastChange == at
  {
    TickGuarded(c, at, d);
  }

  lemma SameWish(c: Clock, d: Clock, at: U64)
    requires Usable(c) && SameSetup(c, d) && c.origin <= at
    ensures Usable(d) && Automatic(c, at) == Automatic(d, at)
  {
  }

  lemma TurnZero(c: Clock, turn: Turn, half: seq<Clock>, z: Clock)
    requires FreshClock(c) && c.sceneCount > 1 && c.origin + c.scenePeriod <= U64_MAX
    requires turn == Turn(c.origin + c.scenePeriod - 1, [], c.origin + c.scenePeriod)
    requires Half(c, turn, half) && Ticks(Seen(half), turn.after, z)
    ensures Seen(half).sceneIndex == 0 && z.sceneIndex == 1 && z.hadChange && z.lastChange == turn.after
  {
    FirstBoundary(c);
    PlainHalf(c, turn, half);
    FreshTick(c, turn.at, half[1]);
    SameWish(c, half[1], turn.after);
    BoundaryTick(half[1], turn.after, z);
  }

  /** Scene 1 was selected at time `since`, and turn `k` finds its fade with `k - 1` frames shown. */
  ghost predicate FadingSinceChange(c: Clock, s: Screen, since: U64, k: nat) {
    && c.sceneIndex == 1 && c.hadChange && c.lastChange == since
    && (if k <= 1 then !s.fade.active && s.displayed == 0
        else s.fade == Fade(0, 1, k - 1, true, true) && s.displayed == 0)
  }

  /** A plain turn that is not late goes on. */
  lemma PlainTurn(scenes: Scenes, c: Clock, s: Screen, at: U64, half: seq<Clock>, z: Clock, next: Screen, since: U64,
                  k: nat)
    requires Sound(c) && c.origin <= at && FadingSinceChange(c, s, since, k) && 1 <= k < FRAMES
    requires Half(c, Plain(at), half) && Ticks(Seen(half), at, z) && StepIs(scenes, s, Shown(Seen(half)), next)
    requires if k == 1 then !ChangeAllowed(c, at) else !Changes(half)
    requires next.fade.active ==> z.sceneIndex == Seen(half).sceneIndex
    ensures FadingSinceChange(z, next, since, k + 1)
  {
    PlainHalf(c, Plain(at), half);
    HalfStep(c, Plain(at), 0, half, 0);
    if k > 1 {
      assert !ChangesAt(half, 0);
    }
    TickGuarded(Seen(half), at, z);
  }

  /** Turn `k` begins `k * step - 1` after the change. */
  lemma StepTime(since: nat, step: nat, k: nat)
    requires since > 0 && step > 0 && k > 0
    ensures since <= since - 1 + k * step && (k == 1 ==> since - 1 + k * step - since == step - 1)
  {
    ProductMonotone(1, k, step);
  }

  /** Turn `k` is plain and begins `k * step - 1` after the change. */
  ghost predicate PlainAt(turns: seq<Turn>, since: nat, step: nat, k: nat)
    requires k < |turns|
  {
    turns[k] == Plain(turns[k].at) && turns[k].at == since - 1 + k * step
  }

  /** A run over such turns from a blank screen, with no late turn so far. */
  ghost predicate QuietSoFar(c: Clock, since: U64, step: nat, gap: nat, r: LoopTrace, n: nat) {
    && LoopRun(Black, r, gap) && r.clocks[0] == c && r.screens[0] == BlankScreen() && AllKept(Black, c, r)
    && 1 <= n <= FRAMES < |r.turns| && since > 0 && r.turns[0] == Turn(since - 1, [], since)
    && (forall m :: 1 <= m < n ==> PlainAt(r.turns, since, step, m)) && (forall m :: 0 <= m < n ==> !LateAt(r, m))
  }

  lemma NextPlainTurn(c: Clock, since: U64, step: nat, gap: nat, r: LoopTrace, n: nat)
    requires QuietSoFar(c, since, step, gap, r, n) && n > 1 && since == c.origin + c.scenePeriod
    requires c.minChange > 0 && 0 < step <= c.minChange && c.scenePeriod > 0
    requires FadingSinceChange(r.clocks[n - 1], r.screens[n - 1], since, n - 1)
    ensures FadingSinceChange(r.clocks[n], r.screens[n], since, n)
  {
    assert PlainAt(r.turns, since, step, n - 1) && !LateAt(r, n - 1);
    TurnDoes(Black, c, r, gap, n - 1);
    StepTime(since, step, n - 1);
    PlainTurn(Black, r.clocks[n - 1], r.screens[n - 1], r.turns[n - 1].at, r.halves[n - 1], r.clocks[n], r.screens[n],
              since, n - 1);
  }

  lemma FirstTurn(c: Clock, since: U64, step: nat, gap: nat, r: LoopTrace)
    requires QuietSoFar(c, since, step, gap, r, 1) && since == c.origin + c.scenePeriod
    requires FreshClock(c) && c.sceneCount > 1
    ensures FadingSinceChange(r.clocks[1], r.screens[1], since, 1)
  {
    TurnDoes(Black, c, r, gap, 0);
    TurnZero(c, r.turns[0], r.halves[0], r.clocks[1]);
  }

  /** While no turn is late, the clock keeps scene 1 and its fade goes on. */
  lemma {:induction false} LateProgress(c: Clock, since: U64, step: nat, gap: nat, r: LoopTrace, n: nat)
    requires QuietSoFar(c, since, step, gap, r, n) && since == c.origin + c.scenePeriod
    requires FreshClock(c) && c.sceneCount > 1 && c.minChange > 0 && 0 < step <= c.minChange
    ensures FadingSinceChange(r.clocks[n], r.screens[n], since, n)
  {
    if n == 1 {
      FirstTurn(c, since, step, gap, r);
    } else {
      LateProgress(c, since, step, gap, r, n - 1);
      NextPlainTurn(c, since, step, gap, r, n);
    }
  }

  /** The turn after the fourteen plain ones asks, is allowed, and is late. */
  lemma LastTurnIsLate(c: Clock, since: U64, step: nat, gap: nat, r: LoopTrace)
    requires QuietSoFar(c, since, step, gap, r, FRAMES) && since == c.origin + c.scenePeriod
    requires FreshClock(c) && c.sceneCount > 1 && c.minChange > 0 && 0 < step <= c.minChange
    requires r.turns[FRAMES] == Asking(r.turns[FRAMES].at) && r.turns[FRAMES].at >= since + c.minChange
    ensures LateAt(r, FRAMES)
  {
    LateProgress(c, since, step, gap, r, FRAMES);
    TurnDoes(Black, c, r, gap, FRAMES);
    AskingChanges(r.clocks[FRAMES], r.turns[FRAMES].at, r.halves[FRAMES]);
  }

  lemma LateTurnsArePlain(first: U64, step: nat, k: nat)
    requires first + FRAMES * step + 1 <= U64_MAX && 1 <= k < FRAMES
    ensures PlainAt(LateTurns(first, step), first + 1, step, k)
  {
  }

  lemma ShortStep(minChange: nat, gap: nat)
    requires FRAMES * gap > minChange > 0
    ensures var step := minChange / FRAMES + 1;
            0 < step <= gap && step <= minChange && minChange < FRAMES * step <= minChange + FRAMES
  {
  }

  /** With a guard shorter than fifteen turns some turn of such a run is late. */
  lemma LateWithShortGuard(c: Clock, gap: nat)
    requires FreshClock(c) && c.sceneCount > 1 && c.minChange > 0 && FRAMES * gap > c.minChange
    requires c.origin + c.scenePeriod + c.minChange + FRAMES + c.framePeriod <= U64_MAX
    ensures !Uninterrupted(c, gap)
  {
    var step, since := c.minChange / FRAMES + 1, c.origin + c.scenePeriod;
    ShortStep(c.minChange, gap);
    var turns := LateTurns(since - 1, step);
    LateTurnsSpaced(c, since - 1, step, gap);
    var r := LoopExists(Black, c, BlankScreen(), turns, gap, |turns|);
    assert turns[..|turns|] == turns;
    forall k | 1 <= k < FRAMES ensures PlainAt(turns, since, step, k) {
      LateTurnsArePlain(since - 1, step, k);
    }
    if forall m :: 0 <= m < FRAMES ==> !LateAt(r, m) {
      LastTurnIsLate(c, since, step, gap, r);
    }
  }

  // ----- the exact condition

  lemma GuardedRunsAreInTime(c: Clock, gap: nat)
    requires FreshClock(c) && (c.sceneCount == 1 || GuardOutlasts(c, gap))
    ensures Uninterrupted(c, gap)
  {
    forall scenes, r, k | LoopRun(scenes, r, gap) && r.clocks[0] == c && 0 <= k < |r.turns| ensures !LateAt(r, k) {
      if c.sceneCount == 1 {
        OneSceneRun(scenes, r, gap, k + 1);
      } else {
        RunInStep(scenes, r, gap, k + 1);
      }
    }
  }

  /** No scene change arrives before the fade for the one before has ended, in any run whose turns
      start at most `gap` apart, if and only if fifteen gaps fit into the guard's minimum, or there
      is only one scene. */
  lemma UninterruptedExactlyWhen(c: Clock, gap: nat)
    requires FreshClock(c) && c.origin + c.scenePeriod + c.minChange + FRAMES + c.framePeriod <= U64_MAX
    ensures Uninterrupted(c, gap) <==> c.sceneCount == 1 || (c.minChange > 0 && FRAMES * gap <= c.minChange)
  {
    if c.sceneCount == 1 || GuardOutlasts(c, gap) {
      GuardedRunsAreInTime(c, gap);
    } else if c.minChange == 0 {
      LateWithoutGuard(c, gap);
    } else {
      LateWithShortGuard(c, gap);
    }
  }

  const CART_FRAME_NS: U64 := 33_333_333
  const CART_SCENE_NS: U64 := 8_000_000_000

  /** With the cart's settings: exactly when turns start no further apart than one frame period. */
  lemma CartUninterruptedExactlyWhen(count: Index, origin: U64, c: Clock, gap: nat)
    requires count > 1 && origin <= U64_MAX - 10_000_000_000
    requires Start(count, origin, CART_FRAME_NS, CART_SCENE_NS, MIN_CHANGE_NS) == Ready(c)
    ensures Uninterrupted(c, gap) <==> gap <= CART_FRAME_NS
  {
    UninterruptedExactlyWhen(c, gap);
  }

  /** Turns of forty milliseconds are enough for a change to arrive during a fade. */
  lemma CartCanBeLate(count: Index, origin: U64, c: Clock)
    requires count > 1 && origin <= U64_MAX - 10_000_000_000
    requires Start(count, origin, CART_FRAME_NS, CART_SCENE_NS, MIN_CHANGE_NS) == Ready(c)
    ensures exists scenes, r, k ::
              LoopRun(scenes, r, 40_000_000) && r.clocks[0] == c && 0 <= k < |r.turns| && LateAt(r, k)
  {
    CartUninterruptedExactlyWhen(count, origin, c, 40_000_000);
  }
}
