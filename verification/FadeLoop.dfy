/** Fade coordination in the cart's main loop, and what it guarantees over every sequence of
    scene selections: scene changes are never hard cuts. A scene is an uninterpreted function
    from scene number and frame counter to an image. */
module FadeLoop {
  import opened Canvas
  import opened Transition

  type Scenes = (nat, nat) -> seq<Pixel>

  /** What the runtime hands the loop in one iteration. */
  datatype Input = Input(scene: nat, frame: nat)

  datatype Screen = Screen(
    fade: Fade, displayed: nat, low: seq<Pixel>, lowFrom: seq<Pixel>, lowTo: seq<Pixel>)

  ghost predicate Sized(scenes: Scenes, size: nat) {
    forall which, frame :: |scenes(which, frame)| == size
  }

  ghost predicate Fits(scenes: Scenes, s: Screen) {
    |s.lowFrom| == |s.lowTo| == |s.low| && Sized(scenes, |s.low|)
  }

  /** Begin a fade when another scene is wanted and none is running; sample both ends once. */
  function MaybeBegin(scenes: Scenes, s: Screen, input: Input): Screen {
    if input.scene != s.displayed && !s.fade.active then
      var fade := Begun(s.displayed, input.scene);
      if NeedsRender(fade) then
        s.(fade := Rendered(fade), lowFrom := scenes(fade.from, input.frame),
           lowTo := scenes(fade.to, input.frame))
      else s.(fade := fade)
    else s
  }

  /** Present one frame: a blend of the running fade, or the displayed scene. */
  function Present(scenes: Scenes, s: Screen, input: Input): Screen
    requires |s.lowFrom| == |s.lowTo|
  {
    if s.fade.active then
      var fade := Advanced(s.fade);
      s.(low := Blended(s.lowFrom, s.lowTo, s.fade.elapsed), fade := fade,
         displayed := if fade.active then s.displayed else fade.to)
    else s.(low := scenes(s.displayed, input.frame))
  }

  ghost function Iterate(scenes: Scenes, s: Screen, input: Input): Screen
    requires Fits(scenes, s)
  {
    Present(scenes, MaybeBegin(scenes, s, input), input)
  }

  // ----- the loop's objects

  class Loop {
    const scenes: Scenes
    const fade: Crossfade
    const low: array<Pixel>
    const lowFrom: array<Pixel>
    const lowTo: array<Pixel>

    var canvas: array<Pixel>     // where rendering goes
    var displayed: nat

    ghost predicate Valid()
      reads this, low, lowFrom, lowTo
    {
      && canvas == low && low != lowFrom && low != lowTo && lowFrom != lowTo
      && low.Length == lowFrom.Length == lowTo.Length && Sized(scenes, low.Length)
    }

    ghost function State(): Screen
      reads this, fade, low, lowFrom, lowTo
    {
      Screen(fade.State(), displayed, low[..], lowFrom[..], lowTo[..])
    }

    constructor (scenes: Scenes, size: nat, scene: nat)
      requires Sized(scenes, size)
      ensures Valid() && this.scenes == scenes && Fits(scenes, State()) && !fade.active && displayed == scene
      ensures fresh(fade) && fresh(low) && fresh(lowFrom) && fresh(lowTo) && low.Length == size
    {
      this.scenes := scenes;
      fade := new Crossfade();
      low := new Pixel[size];
      lowFrom := new Pixel[size];
      lowTo := new Pixel[size];
      canvas := low;
      displayed := scene;
    }

    method RenderFrame(which: nat, frame: nat)
      requires |scenes(which, frame)| == canvas.Length
      modifies canvas
      ensures canvas[..] == scenes(which, frame)
    {
      var image := scenes(which, frame);
      forall i | 0 <= i < canvas.Length {
        canvas[i] := image[i];
      }
    }

    /** Redirect the canvas, render, and put it back. */
    method RenderSceneInto(destination: array<Pixel>, which: nat, frame: nat)
      requires |scenes(which, frame)| == destination.Length
      modifies this`canvas, destination
      ensures canvas == old(canvas) && destination[..] == scenes(which, frame)
    {
      var saved := canvas;
      canvas := destination;
      RenderFrame(which, frame);
      canvas := saved;
    }

    method Step(input: Input)
      requires Valid()
      modifies this, fade, low, lowFrom, lowTo
      ensures Valid() && State() == Iterate(scenes, old(State()), input)
    {
      if input.scene != displayed && !fade.active {
        fade.Begin(displayed, input.scene);
        if fade.active && !fade.ready {
          RenderSceneInto(lowFrom, fade.from, input.frame);
          RenderSceneInto(lowTo, fade.to, input.frame);
          fade.MarkRendered();
        }
      }
      assert State() == MaybeBegin(scenes, old(State()), input);
      if fade.active {
        Blend(low, lowFrom, lowTo, fade.elapsed);
        fade.Advance();
        if !fade.active {
          displayed := fade.to;
        }
      } else {
        RenderFrame(displayed, input.frame);
      }
    }
  }

  // ----- whole runs

  /** The state the loop starts from: no fade. */
  ghost predicate Starts(scenes: Scenes, s: Screen) {
    Fits(scenes, s) && !s.fade.active
  }

  ghost predicate Follows(scenes: Scenes, s: Screen, input: Input, t: Screen) {
    Fits(scenes, s) && t == Iterate(scenes, s, input)
  }

  /** `trace` is the run of the loop over `inputs`: `trace[k + 1]` is the screen after iteration `k`. */
  ghost predicate IsRun(scenes: Scenes, trace: seq<Screen>, inputs: seq<Input>) {
    && |trace| == |inputs| + 1 && Starts(scenes, trace[0])
    && forall k {:trigger inputs[k]} :: 0 <= k < |inputs| ==> Follows(scenes, trace[k], inputs[k], trace[k + 1])
  }

  /** Between iterations an active fade has shown some but not all of its frames, and the
      display still names its source. */
  ghost predicate FadeInv(s: Screen) {
    s.fade.active ==>
      s.fade.ready && 0 < s.fade.elapsed < FRAMES && s.fade.from == s.displayed != s.fade.to
  }

  /** What one iteration does, case by case. */
  ghost predicate StepIs(scenes: Scenes, s: Screen, input: Input, t: Screen) {
    if s.fade.active then
      && |s.lowFrom| == |s.lowTo| && s.fade.elapsed < FRAMES
      && t.fade == s.fade.(elapsed := s.fade.elapsed + 1, active := s.fade.elapsed + 1 < FRAMES)
      && t.displayed == (if t.fade.active then s.displayed else s.fade.to)
      && t.lowFrom == s.lowFrom && t.lowTo == s.lowTo
      && t.low == Blended(s.lowFrom, s.lowTo, s.fade.elapsed)
    else if input.scene != s.displayed then
      && t.fade == Fade(s.displayed, input.scene, 1, true, true) && t.displayed == s.displayed
      && t.lowFrom == scenes(s.displayed, input.frame) && t.lowTo == scenes(input.scene, input.frame)
      && |t.lowFrom| == |t.lowTo| && t.low == Blended(t.lowFrom, t.lowTo, 0)
    else
      t == s.(low := scenes(s.displayed, input.frame))
  }

  lemma StepControls(scenes: Scenes, s: Screen, input: Input)
    requires Fits(scenes, s) && FadeInv(s)
    ensures var t := Iterate(scenes, s, input);
            FadeInv(t) && Fits(scenes, t) && |t.low| == |s.low| && StepIs(scenes, s, input, t)
  {
  }

  lemma {:induction false} RunKeepsInv(scenes: Scenes, trace: seq<Screen>, inputs: seq<Input>, n: nat)
    requires IsRun(scenes, trace, inputs) && n < |trace|
    ensures FadeInv(trace[n]) && Fits(scenes, trace[n]) && |trace[n].low| == |trace[0].low|
  {
    if n > 0 {
      RunKeepsInv(scenes, trace, inputs, n - 1);
      assert Follows(scenes, trace[n - 1], inputs[n - 1], trace[n]);
      StepControls(scenes, trace[n - 1], inputs[n - 1]);
    }
  }

  /** One iteration somewhere in a run. */
  lemma StepInRun(scenes: Scenes, trace: seq<Screen>, inputs: seq<Input>, n: nat)
    requires IsRun(scenes, trace, inputs) && n < |inputs|
    ensures FadeInv(trace[n]) && FadeInv(trace[n + 1]) && StepIs(scenes, trace[n], inputs[n], trace[n + 1])
  {
    RunKeepsInv(scenes, trace, inputs, n);
    assert Follows(scenes, trace[n], inputs[n], trace[n + 1]);
    StepControls(scenes, trace[n], inputs[n]);
  }

  /** `now` is the screen after `count` frames of a fade begun on `input`. */
  ghost predicate FadingAt(source: nat, input: Input, count: nat, scenes: Scenes, now: Screen) {
    && now.fade == Fade(source, input.scene, count, true, true) && now.displayed == source
    && now.lowFrom == scenes(source, input.frame) && now.lowTo == scenes(input.scene, input.frame)
    && count > 0 && |now.lowFrom| == |now.lowTo| && now.low == Blended(now.lowFrom, now.lowTo, count - 1)
  }

  /** Iteration `b` began a fade that is still running after iteration `n - 1`: every frame since
      is the next blend of one pair of images sampled at `b`, and the display has not moved. */
  ghost predicate FadingSince(scenes: Scenes, trace: seq<Screen>, inputs: seq<Input>, b: nat, n: nat)
    requires |trace| == |inputs| + 1 && b < n <= |inputs|
  {
    && !trace[b].fade.active && inputs[b].scene != trace[b].displayed
    && forall m {:trigger trace[m]} :: b < m <= n ==>
         FadingAt(trace[b].displayed, inputs[b], m - b, scenes, trace[m])
  }

  lemma {:induction false} FadeHistory(scenes: Scenes, trace: seq<Screen>, inputs: seq<Input>, n: nat)
    requires IsRun(scenes, trace, inputs) && n < |trace| && trace[n].fade.active
    ensures var e := trace[n].fade.elapsed;
            0 < e <= n && e < FRAMES && FadingSince(scenes, trace, inputs, n - e, n)
  {
    StepInRun(scenes, trace, inputs, n - 1);
    if trace[n - 1].fade.active {
      FadeHistory(scenes, trace, inputs, n - 1);
    }
  }

  lemma ChangeEndsFade(scenes: Scenes, trace: seq<Screen>, inputs: seq<Input>, n: nat)
    requires IsRun(scenes, trace, inputs) && n < |inputs| && trace[n + 1].displayed != trace[n].displayed
    ensures trace[n].fade.active && trace[n].fade.elapsed == FRAMES - 1 && trace[n + 1].displayed == trace[n].fade.to
    ensures |trace[n].lowFrom| == |trace[n].lowTo|
    ensures trace[n + 1].low == Blended(trace[n].lowFrom, trace[n].lowTo, FRAMES - 1)
  {
    RunKeepsInv(scenes, trace, inputs, n);
    StepInRun(scenes, trace, inputs, n);
  }

  /** The display changes only at the end of a complete fade: the fifteen frames up to and
      including that iteration are the blends at weights 0 to 14 of one sampled pair, whose
      source was displayed all along and whose target is displayed from then on. */
  lemma ChangeNeedsWholeFade(scenes: Scenes, trace: seq<Screen>, inputs: seq<Input>, n: nat)
    requires IsRun(scenes, trace, inputs) && n < |inputs| && trace[n + 1].displayed != trace[n].displayed
    ensures n + 1 >= FRAMES
    ensures var b := n + 1 - FRAMES;
            var source, target := trace[b].displayed, inputs[b].scene;
            && trace[n + 1].displayed == target
            && (forall m :: b <= m <= n ==> trace[m].displayed == source)
            && forall m :: b < m <= n + 1 ==>
                 |scenes(source, inputs[b].frame)| == |scenes(target, inputs[b].frame)| &&
                 trace[m].low == Blended(scenes(source, inputs[b].frame), scenes(target, inputs[b].frame), m - b - 1)
  {
    ChangeEndsFade(scenes, trace, inputs, n);
    FadeHistory(scenes, trace, inputs, n);
    assert FadingSince(scenes, trace, inputs, n + 1 - FRAMES, n);
  }

  /** Two changes of the display are at least fifteen presented frames apart. */
  lemma ChangesFarApart(scenes: Scenes, trace: seq<Screen>, inputs: seq<Input>, m: nat, n: nat)
    requires IsRun(scenes, trace, inputs) && m < n < |inputs|
    requires trace[m + 1].displayed != trace[m].displayed && trace[n + 1].displayed != trace[n].displayed
    ensures n - m >= FRAMES
  {
    ChangeNeedsWholeFade(scenes, trace, inputs, n);
  }

  /** A running fade is never restarted or retargeted. */
  lemma FadeIsNeverRestarted(scenes: Scenes, trace: seq<Screen>, inputs: seq<Input>, n: nat)
    requires IsRun(scenes, trace, inputs) && n < |inputs| && trace[n].fade.active
    ensures var now, next := trace[n], trace[n + 1];
            && next.fade.from == now.fade.from && next.fade.to == now.fade.to
            && next.fade.elapsed == now.fade.elapsed + 1
            && next.lowFrom == now.lowFrom && next.lowTo == now.lowTo
  {
    StepInRun(scenes, trace, inputs, n);
  }

  // ----- no hard cut

  /** Within a fade, consecutive presented frames differ by at most 27 in every channel. */
  lemma FadeFramesMoveSlowly(scenes: Scenes, trace: seq<Screen>, inputs: seq<Input>, n: nat, i: nat)
    requires IsRun(scenes, trace, inputs) && n < |inputs| && trace[n].fade.active && i < |trace[0].low|
    ensures |trace[n].low| == |trace[n + 1].low| == |trace[0].low|
    ensures Within(trace[n + 1].low[i], trace[n].low[i], 27)
  {
    FadeHistory(scenes, trace, inputs, n);
    RunKeepsInv(scenes, trace, inputs, n);
    RunKeepsInv(scenes, trace, inputs, n + 1);
    StepInRun(scenes, trace, inputs, n);
    FadeMotion(trace[n].lowFrom, trace[n].lowTo, trace[n].fade.elapsed - 1, i);
  }

  /** Outside a fade the next frame is the displayed scene, live, and so is the first blend of a
      fade that begins: the entry shows no step of its own. */
  lemma NextFrameIsLive(scenes: Scenes, trace: seq<Screen>, inputs: seq<Input>, n: nat)
    requires IsRun(scenes, trace, inputs) && n < |inputs| && !trace[n].fade.active
    ensures trace[n + 1].low == scenes(trace[n].displayed, inputs[n].frame)
  {
    StepInRun(scenes, trace, inputs, n);
    if inputs[n].scene != trace[n].displayed {
      FirstBlend(trace[n + 1].lowFrom, trace[n + 1].lowTo);
    }
  }

  /** The frame on screen when a fade ends: the last blend of the pair sampled fifteen iterations
      before. */
  lemma ExitFrame(scenes: Scenes, trace: seq<Screen>, inputs: seq<Input>, n: nat)
    requires IsRun(scenes, trace, inputs) && 0 < n <= |inputs| && trace[n - 1].fade.active && !trace[n].fade.active
    ensures n >= FRAMES && trace[n].displayed == inputs[n - FRAMES].scene
    ensures var b := n - FRAMES;
            var source, target := scenes(trace[b].displayed, inputs[b].frame), scenes(inputs[b].scene, inputs[b].frame);
            |source| == |target| == |trace[0].low| && trace[n].low == Blended(source, target, LAST)
  {
    StepInRun(scenes, trace, inputs, n - 1);
    RunKeepsInv(scenes, trace, inputs, n - 1);
    FadeHistory(scenes, trace, inputs, n - 1);
    assert FadingAt(trace[n - FRAMES].displayed, inputs[n - FRAMES], LAST, scenes, trace[n - 1]);
  }

  /** The iteration whose frame counter the displayed scene on screen was drawn at: the sampling
      iteration when a fade has just ended, the one before otherwise. */
  ghost function DrawnAt(trace: seq<Screen>, n: nat): (b: nat)
    requires 0 < n < |trace|
    ensures b < n
  {
    if trace[n - 1].fade.active && n >= FRAMES then n - FRAMES else n - 1
  }

  /** The bound on the step from presented frame `n` to the next, where the displayed scene itself
      moved by at most `drift` since it was drawn. */
  ghost function StepBound(trace: seq<Screen>, n: nat, drift: nat): nat
    requires 0 < n < |trace|
  {
    if trace[n].fade.active then 27 else if trace[n - 1].fade.active then drift + 3 else drift
  }

  lemma ExitStep(scenes: Scenes, trace: seq<Screen>, inputs: seq<Input>, n: nat, i: nat, drift: nat)
    requires IsRun(scenes, trace, inputs) && 0 < n < |inputs| && i < |trace[0].low|
    requires trace[n - 1].fade.active && !trace[n].fade.active && n >= FRAMES
    requires Within(scenes(trace[n].displayed, inputs[n].frame)[i],
                    scenes(trace[n].displayed, inputs[n - FRAMES].frame)[i], drift)
    ensures |trace[n].low| == |trace[n + 1].low| == |trace[0].low|
    ensures Within(trace[n + 1].low[i], trace[n].low[i], drift + 3)
  {
    ExitFrame(scenes, trace, inputs, n);
    NextFrameIsLive(scenes, trace, inputs, n);
    var b := n - FRAMES;
    var source, target := scenes(trace[b].displayed, inputs[b].frame), scenes(inputs[b].scene, inputs[b].frame);
    LastBlend(source, target, i);
    WithinAdds(trace[n + 1].low[i], target[i], trace[n].low[i], drift, 3);
  }

  /** At every point of every run, at both seams of every fade as well as inside it and between
      fades, a presented frame differs from the one before by at most 27 in a channel, or by no
      more than the displayed scene itself moved since it was drawn, plus three when a fade ends. */
  lemma NoHardCut(scenes: Scenes, trace: seq<Screen>, inputs: seq<Input>, n: nat, i: nat, drift: nat)
    requires IsRun(scenes, trace, inputs) && 0 < n < |inputs| && i < |trace[0].low|
    requires !trace[n].fade.active ==>
               Within(scenes(trace[n].displayed, inputs[n].frame)[i],
                      scenes(trace[n].displayed, inputs[DrawnAt(trace, n)].frame)[i], drift)
    ensures |trace[n].low| == |trace[n + 1].low| == |trace[0].low|
    ensures Within(trace[n + 1].low[i], trace[n].low[i], StepBound(trace, n, drift))
  {
    if trace[n].fade.active {
      FadeFramesMoveSlowly(scenes, trace, inputs, n, i);
    } else if trace[n - 1].fade.active {
      ExitFrame(scenes, trace, inputs, n);
      ExitStep(scenes, trace, inputs, n, i, drift);
    } else {
      NextFrameIsLive(scenes, trace, inputs, n);
      NextFrameIsLive(scenes, trace, inputs, n - 1);
      StepInRun(scenes, trace, inputs, n - 1);
    }
  }

  /** Scenes that do not move never show a step above 27, at any point of any run. */
  lemma StillScenesNeverCut(scenes: Scenes, trace: seq<Screen>, inputs: seq<Input>, n: nat, i: nat)
    requires IsRun(scenes, trace, inputs) && 0 < n < |inputs| && i < |trace[0].low|
    requires forall which, frame, other :: scenes(which, frame) == scenes(which, other)
    ensures |trace[n].low| == |trace[n + 1].low| == |trace[0].low|
    ensures Within(trace[n + 1].low[i], trace[n].low[i], 27)
  {
    var which, drawn := trace[n].displayed, inputs[DrawnAt(trace, n)];
    assert scenes(which, inputs[n].frame) == scenes(which, drawn.frame);
    NoHardCut(scenes, trace, inputs, n, i, 0);
  }

  // ----- the exit of a fade into a moving scene

  /** Every input sequence has a run from every start. */
  lemma {:induction false} RunExists(scenes: Scenes, s: Screen, inputs: seq<Input>) returns (trace: seq<Screen>)
    requires Starts(scenes, s)
    ensures IsRun(scenes, trace, inputs) && trace[0] == s
  {
    if inputs == [] {
      trace := [s];
    } else {
      var n := |inputs| - 1;
      var front := RunExists(scenes, s, inputs[..n]);
      RunKeepsInv(scenes, front, inputs[..n], n);
      trace := front + [Iterate(scenes, front[n], inputs[n])];
      forall k | 0 <= k < |inputs| ensures Follows(scenes, trace[k], inputs[k], trace[k + 1]) {
        if k < n {
          assert inputs[..n][k] == inputs[k];
        }
      }
    }
  }

  /** A wanted scene starts a fade, and the fade runs. */
  lemma {:induction false} FadeUnfolds(scenes: Scenes, trace: seq<Screen>, inputs: seq<Input>, b: nat, k: nat)
    requires IsRun(scenes, trace, inputs) && 1 <= k < FRAMES && b + k < |trace|
    requires !trace[b].fade.active && inputs[b].scene != trace[b].displayed
    ensures FadingAt(trace[b].displayed, inputs[b], k, scenes, trace[b + k])
    decreases k
  {
    StepInRun(scenes, trace, inputs, b + k - 1);
    if k > 1 {
      FadeUnfolds(scenes, trace, inputs, b, k - 1);
    }
  }

  /** How a fade begun at iteration `b` ends. */
  lemma FadeEnds(scenes: Scenes, trace: seq<Screen>, inputs: seq<Input>, b: nat)
    requires IsRun(scenes, trace, inputs) && b + FRAMES < |inputs|
    requires !trace[b].fade.active && inputs[b].scene != trace[b].displayed
    ensures var source, target := scenes(trace[b].displayed, inputs[b].frame), scenes(inputs[b].scene, inputs[b].frame);
            && trace[b + FRAMES - 1].displayed == trace[b].displayed && trace[b + FRAMES].displayed == inputs[b].scene
            && |source| == |target| && trace[b + FRAMES].low == Blended(source, target, LAST)
            && trace[b + FRAMES + 1].low == scenes(inputs[b].scene, inputs[b + FRAMES].frame)
  {
    FadeUnfolds(scenes, trace, inputs, b, FRAMES - 1);
    StepInRun(scenes, trace, inputs, b + FRAMES - 1);
    ExitFrame(scenes, trace, inputs, b + FRAMES);
    NextFrameIsLive(scenes, trace, inputs, b + FRAMES);
  }

  const BLACK: Pixel := 0xff00_0000
  const WHITE: Pixel := 0xffff_ffff

  /** Scene 1 turns from black to white at frame 15; every other scene is black. */
  function LateFlash(which: nat, frame: nat): seq<Pixel> {
    if which == 1 && frame >= FRAMES then [WHITE] else [BLACK]
  }

  /** A target that moves while its fade runs is cut to at the exit: the fade samples it once, at
      its start. Here a fade from black to black ends in one step from black to white. */
  lemma ExitCanCut(inputs: seq<Input>) returns (trace: seq<Screen>)
    requires |inputs| == FRAMES + 1 && inputs[0] == Input(1, 0) && inputs[FRAMES] == Input(1, FRAMES)
    ensures IsRun(LateFlash, trace, inputs)
    ensures trace[FRAMES - 1].displayed == 0 && trace[FRAMES].displayed == 1
    ensures |trace[FRAMES].low| == |trace[FRAMES + 1].low| == 1
    ensures Red(trace[FRAMES].low[0]) == 0 && Red(trace[FRAMES + 1].low[0]) == 255
  {
    trace := RunExists(LateFlash, Screen(Fade(0, 0, 0, false, false), 0, [BLACK], [BLACK], [BLACK]), inputs);
    FadeEnds(LateFlash, trace, inputs, 0);
    BlendSame([BLACK], LAST, 0);
  }

  // ----- convergence

  /** Iterations left until the display settles on `wanted`. */
  function Remaining(s: Screen, wanted: nat): int {
    if s.fade.active then FRAMES - s.fade.elapsed + if s.fade.to == wanted then 0 else FRAMES
    else if s.displayed == wanted then 0 else FRAMES
  }

  lemma {:induction false} Settles(scenes: Scenes, trace: seq<Screen>, inputs: seq<Input>, wanted: nat, a: nat, n: nat)
    requires IsRun(scenes, trace, inputs) && a <= n <= |inputs|
    requires forall i :: a <= i < n ==> inputs[i].scene == wanted
    ensures var left := Remaining(trace[n], wanted);
            0 <= left < 2 * FRAMES && (left == 0 || left + (n - a) < 2 * FRAMES)
    decreases n
  {
    RunKeepsInv(scenes, trace, inputs, n);
    if n > a {
      Settles(scenes, trace, inputs, wanted, a, n - 1);
      StepInRun(scenes, trace, inputs, n - 1);
    }
  }

  /** Once the selected scene stays put, the display shows it within thirty iterations. */
  lemma DisplayCatchesUp(scenes: Scenes, trace: seq<Screen>, inputs: seq<Input>, wanted: nat, a: nat, n: nat)
    requires IsRun(scenes, trace, inputs) && a + 2 * FRAMES <= n <= |inputs|
    requires forall i :: a <= i < n ==> inputs[i].scene == wanted
    ensures trace[n].displayed == wanted && !trace[n].fade.active
  {
    Settles(scenes, trace, inputs, wanted, a, n);
    RunKeepsInv(scenes, trace, inputs, n);
  }
}
