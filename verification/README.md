# PSTV demo cart: verified runtime model

This project models the runtime of the PSTV demo cart in Dafny and proves what
it promises over whole runs. Nothing here is compiled into the cart; the
verifier is the only consumer. `dafny verify dfyconfig.toml` checks all of it.

**Render worker pool** (`WorkerPool`, `WorkerPoolInvariant`, `WorkerPoolSafety`,
`WorkerPoolProgress`, `RowBands`). A transition system over per-thread program
counters: the startup gate with its mutex and condition variable (spurious
wakeups included), two reusable POSIX barriers, thread creation that may fail at any index, any number
of dispatches, and shutdown. A thread leaves a barrier round only after all
threads have arrived in it, and fast threads may arrive early in the next. A
job paints its band one row per step, so any interleaving of row writes is a
run. One invariant is kept by every step; lockstep safety, equality with inline
mode, freedom from deadlock, bounded calls and clean teardown follow from it.

**Scene clock and photosensitivity guard** (`SceneClock`, `RateLimit`,
`ManualScenes`, `Deadlines`, `GuardTransparency`). The runtime object with its
deadlines, manual holds and minimum time between scene changes, and laws over
every sequence of ticks and requests: which requests are honoured, what they
show and for how long. The limit behind the guard is success criterion 2.3.1 of
WCAG 2.1, at most three flashes a second.

**Crossfade** (`Canvas`, `Transition`, `FadeLoop`, `LoopTiming`). Channel
mixing, the eased weight and the curve it follows for any number of frames, and
the main loop's fade coordination: no restart, convergence, and a bound on the step between any two presented frames,
at both seams of a fade as well as inside it. `LoopTiming` runs clock and fades
over the same turns of the main loop.

**evdev input engine** (`AxisNormalize`, `InputEvents`, `DesyncReplay`,
`Discovery`, `InputFrame`, `SlotOrder`, `InputSpec`, `InputRuns`,
`InputDelivery`, `InputEngine`). An engine object over a kernel object that hands out and takes
back descriptors: partial-event buffers, event consumption, SYN_DROPPED recovery, the action queue, ranked discovery and
the merged frame. `InputSpec` says what a pump does without mentioning reads,
`InputRuns` what holds over every run of polls, rescans and shutdowns, and
`InputDelivery` what reaches the cart over a run: a claimed device is read until
it is gone or left waiting, and its actions come out in order, each once. The
engine's loops are proved equal to the first, and its sessions to be such runs.

**Flash checker** (`FlashCheck`, `Ppm`). Flash pairs, the worst window, the
verdict, and a PPM reader that undoes the canvas writer and reads any header.

Where code and comments disagree, the model follows the code and proves how far
the comment holds:

- A source left in DESYNC when its pump ends is skipped by every later poll, so
  the report that would resynchronise it is never read, although the comment
  says events are swallowed until SYN_REPORT arrives
  (`cart/src/input_evdev.c:703-704`). `InputRuns.DroppedThenQuiet` is a stream
  that does it, `InputSpec.LeftWaitingExactlyWhen` says exactly when it happens,
  and `InputRuns.WaitingLastsUntilShutdown` that neither polls nor rescans end it.
- `build_frame` says a lower source index means a higher or equal rank
  (`cart/src/input_evdev.c:682-683`). Discovery never stores a rank in a source
  and a rescan fills the first free slots. `SlotOrder.RescanCanMisrank` is a
  rescan that breaks it, and `SlotOrder.UpheldExactlyWhen` says exactly which
  claims keep it. The same theorem covers the finer plan order, which
  `SlotOrder.EqualRanksStayInOrder` tells apart, and one slot per device node:
  a rescan reopens nodes that are already connected
  (`cart/src/input_evdev.c:346-417`), so a node can get a second slot.
- The generation counter is documented to bump on every connect
  (`cart/include/cart/input.h:40`). A claimed slot is overwritten by a zeroed
  record first: `InputRuns.GenerationIsOne` shows 1 after every connect,
  `InputRuns.ReconnectRepeats` a reconnect that does not grow, and
  `InputRuns.ConnectBumpsExactlyWhen` that a connect bumps exactly when the slot
  has held no device since init or the last shutdown. So the generation total of
  a frame is the number of its devices (`InputDelivery.GenerationTotalCounts`).
- Only value 1 is documented to emit an action, no larger value
  (`cart/include/cart/input_actions.h:27-29`). The 32-bit value reaches the test
  as uint16: `InputEvents.LargeValueEmits` is a larger value that emits, and
  `InputEvents.PressOnlyExactlyWhen` the exact condition.
- The easing curve is documented to leave no visible step at the end of a fade
  (`cart/src/transition.c:48-52`), but the main loop samples the target once,
  fifteen frames before it shows it live (`cart/src/pstv-demo-cart.c:264-275`).
  `FadeLoop.ExitCanCut` is a fade that ends in a full step from black to white,
  `Transition.ExitExactlyWhen` says exactly how far the target may have moved,
  and `FadeLoop.NoHardCut` bounds the step by that motion plus three.
- The main loop says the rate limiter guarantees that the next change cannot
  arrive before a fade completes (`cart/src/pstv-demo-cart.c:259-263`). It does
  so exactly when turns of the loop start at most a fifteenth of the minimum
  apart (`LoopTiming.UninterruptedExactlyWhen`), with the cart's settings exactly
  one frame period (`LoopTiming.CartUninterruptedExactlyWhen`);
  `LoopTiming.CartCanBeLate` is a run with turns of 40 ms where a change arrives
  during a fade. That a fade in flight is never interrupted holds for every
  sequence of selections, with no help from the limiter
  (`FadeLoop.FadeIsNeverRestarted`).
- "Full throw always reaches exactly +-100" (`cart/src/input_normalize.c:17-18`)
  fails at the minimum of a span-one range; `AxisNormalize.FullThrow` gives the
  exact condition.

## Model

| member | source | states |
|---|---|---|
| RowBands.BandEnds | cart/src/worker_pool.c:41-42 | for every row and worker count the first band starts at row 0 and the last ends at the row count |
| RowBands.BandSize | cart/src/worker_pool.c:41-42 | band sizes differ by at most one |
| RowBands.BandsDisjoint | cart/src/worker_pool.c:41-45 | no row lies in two bands |
| RowBands.Owner | cart/src/worker_pool.c:41-45 | every row lies in some worker's band, so with BandsDisjoint the bands partition the rows |
| WorkerPoolInvariant.StepKeepsInv | cart/src/worker_pool.c:19-163 | every step of every thread, of the caller and of the environment keeps the pool invariant: mutex ownership, gate flags, release count, barrier arrivals, rounds, published fields, job histories, frame contents |
| WorkerPoolInvariant.RunKeepsInv | cart/src/worker_pool.c:19-163 | the invariant holds in every state of every run |
| WorkerPoolSafety.DispatchReturnsComplete | cart/src/worker_pool.c:123-142 | in every interleaving, when a dispatch returns each worker has run its own band exactly once for each dispatch so far, with that dispatch's job, slot and generation, and the frame equals what inline mode would have made of it |
| WorkerPoolSafety.NoOvertaking | cart/src/worker_pool.c:36-48 | no worker runs a job of one round before every worker has finished the rounds before |
| WorkerPoolSafety.NoRacyWrite | cart/src/worker_pool.c:135-154 | whatever value is stored, the main thread stores job, slots, generation, shutting_down or pixels only while no worker is between the start and stop barriers |
| WorkerPoolSafety.OtherStepsStoreNothing | cart/src/worker_pool.c:88-163 | those are all its stores: no other step of the main thread or the environment changes the shared fields or the frame |
| WorkerPoolSafety.InlineDispatch | cart/src/worker_pool.c:130-133 | the single inline call over all rows, on an array, yields the frame the parallel run is compared with |
| WorkerPoolSafety.TeardownIsClean | cart/src/worker_pool.c:102-107 | when barriers are destroyed, after shutdown or failed init, every created worker has returned, nobody has arrived in a barrier and the mutex is free |
| WorkerPoolSafety.FailedInitUsesNoBarrier | cart/src/worker_pool.c:92-111 | if init fails, no worker was in or past a barrier at any earlier point of the run |
| WorkerPoolProgress.NoDeadlock | cart/src/worker_pool.c:19-163 | every reachable state that is not at rest has an enabled step of some thread |
| WorkerPoolProgress.CallEnds | cart/src/worker_pool.c:88-163 | any stretch of a run without a new call takes at most Measure steps, plus three for each spurious wakeup |
| WorkerPoolProgress.DispatchEnds | cart/src/worker_pool.c:123-142 | a dispatch takes at most workers * (rows + 9) + 7 steps of all threads, whatever the schedule, and when no step is left the call has returned |
| SceneClock.Runtime.Configure | cart/src/runtime.c:15-32 | accepts and rejects as init does; on rejection nothing changes |
| SceneClock.Runtime.TickAt | cart/src/runtime.c:53-103 | the updated fields and the verdict are those of Tick on the old state |
| SceneClock.Runtime.SelectSceneAt | cart/src/runtime.c:64-83 | frame counter, hold expiry, guarded scene selection |
| SceneClock.Runtime.RescheduleAt | cart/src/runtime.c:85-102 | next deadline, dropped deadlines, sleep, overflow failures |
| SceneClock.Runtime.Next | cart/src/runtime.c:105-123 | the updated fields are those of RequestNext on the old state, of which ManualScenes says what they show |
| SceneClock.Runtime.Previous | cart/src/runtime.c:125-144 | the updated fields are those of RequestPrevious on the old state, of which ManualScenes says what they show |
| SceneClock.NextIndexIs | cart/src/runtime.c:113 | next is the cyclic successor for every scene count |
| SceneClock.PreviousIndexIs | cart/src/runtime.c:133-134 | previous of every scene, scene 0 included: the cyclic predecessor unless index plus count leaves size_t, and what it is then |
| SceneClock.PreviousUndoesNext | cart/src/runtime.c:113-134 | previous undoes next if and only if the scene is the last one or index plus count stays inside size_t |
| SceneClock.PreviousCanMiss | cart/src/runtime.c:133-134 | a concrete count and scene where previous does not undo next |
| ManualScenes.StartIs | cart/src/runtime.c:15-32 | init accepts exactly the settings whose first deadline lies inside 64 bits, and leaves the clock as a tick at the origin would |
| ManualScenes.RequestShows | cart/src/runtime.c:105-144 | in every run a request is honoured if and only if there was no scene change yet, automatic or manual, or the last one is at least the minimum ago, and otherwise changes nothing; an honoured next shows the cyclic successor, an honoured previous the cyclic predecessor inside size_t, held until now + hold or the end of 64 bits |
| ManualScenes.TickShows | cart/src/runtime.c:61-83 | a tick shows the held scene before the hold ends, and from then on the attract loop's scene unless that is a change the guard refuses; readings before the origin count as the origin |
| ManualScenes.HoldKeepsScene | cart/src/runtime.c:67-70 | over every run a requested scene stays until the end of its hold, whatever ticks and refused requests come before |
| ManualScenes.HoldEnds | cart/src/runtime.c:67-83 | the first tick at or after the end of the hold gives the screen back to the attract loop, at once if the last change is at least the minimum ago |
| ManualScenes.NextThenPrevious | cart/src/runtime.c:105-144 | an honoured next, anything its hold outlasts, and an honoured previous show the first scene again if and only if it is the last one or index plus count stays inside size_t |
| RateLimit.ChangeIsGuarded | cart/src/runtime.c:36-83 | any tick or request changes the scene only if the guard allows it, records the change at its time, and keeps a hold on its manual scene |
| RateLimit.ChangesStayApart | cart/src/runtime.c:36-51 | over every interleaving of ticks and requests, even with a clock running backwards, consecutive scene changes are at least the minimum apart |
| RateLimit.WindowHoldsAtMost | cart/src/runtime.c:36-51 | a half-open window of k minimums holds at most k changes |
| RateLimit.AtMostTwoChangesASecond | cart/include/cart/runtime.h:12 | with the cart's half-second minimum no second of any run sees more than two changes |
| Deadlines.DeadlinesConserved | cart/src/runtime.c:85-102 | over every run of successful ticks at nondecreasing times with any requests between: fired + dropped <= frame <= fired + dropped + resynchronisations, the drop counter never wraps, and 0 < sleep <= frame period |
| Deadlines.TickFailsOnlyAtTheEnd | cart/src/runtime.c:89-95 | a tick fails if and only if a deadline is due in the last frame period of the 64-bit clock; the second overflow test never decides |
| GuardTransparency.GuardedShowsUnguarded | cart/src/runtime.c:64-83 | two-run refinement: with tick gap plus minimum at most a scene period plus one, guarded and unguarded runtime show (elapsed / period) mod count at every tick |
| GuardTransparency.GuardCanLag | cart/src/runtime.c:77-82 | beyond that bound some regular run shows the wrong scene |
| GuardTransparency.TransparentExactlyWhen | cart/src/runtime.c:36-83 | the guard is invisible to all regular runs if and only if the bound holds, or there is one scene, or the minimum is at most one nanosecond |
| Canvas.RgbaChannels | cart/src/canvas.c:43-57 | packing clamps each channel, unpacking returns it, and the result is opaque |
| Canvas.ClampIsNearest | cart/src/canvas.c:43-50 | clamping gives the channel value nearest to its argument |
| Canvas.MixStaysBetween | cart/src/canvas.c:76-78 | a mixed channel stays between its ends, also for negative differences under a flooring shift, so the clamp never acts |
| Canvas.MixIsMean | cart/src/canvas.c:76-78 | a mixed channel is the weighted mean of its ends in 256 parts, rounded down |
| Canvas.MixMotion | cart/src/canvas.c:59-79 | raising the weight moves every channel towards its target, never past it, by at most the weight's increase |
| Canvas.CopyIsMixWhenOpaque | cart/src/canvas.c:59-79 | mixing at weights 0 and 256 returns an end pixel if and only if that pixel is opaque |
| Transition.WeightBounds | cart/src/transition.c:53-77 | for every frame count the weight lies in [0, 256], is exact at both ends, and the early returns and the clamp agree with the formula |
| Transition.WeightStep | cart/src/transition.c:64-76 | for every frame count the weight never falls and grows by at most 384 / frames + 2 a step |
| Transition.WeightMonotone | cart/src/transition.c:53-77 | for every frame count the weight is monotone in the step |
| Transition.WeightFollowsCurve | cart/src/transition.c:48-77 | for every frame count and step the weight is less than 1.125 below 256 times the smoothstep curve at that fraction of the fade, and at most 0.5 above it |
| Transition.Blend | cart/src/transition.c:79-100 | the array loop with its copy shortcuts produces the blended image |
| Transition.BlendedPixel | cart/src/transition.c:89-99 | on opaque images the copy shortcuts equal mixing, pixel by pixel, at every step |
| Transition.BlendedColour | cart/src/transition.c:89-99 | on any images, opaque or not, the copy shortcuts show the colours mixing would |
| Transition.FadeMotion | cart/src/transition.c:79-100 | between consecutive steps each channel of each pixel moves from source towards target by at most 27, on any images |
| Transition.FirstBlend | cart/src/transition.c:58-93 | the first blend of a fade is its source |
| Transition.LastBlend | cart/src/transition.c:64-99 | the last blend of a fade is within 256 - weight(14) = 3 of its target in every channel |
| Transition.ExitExactlyWhen | cart/src/transition.c:48-99 | a frame follows the last blend within a bound from every source image if and only if each channel lies in the stated range around the sampled target |
| Transition.Crossfade.Begin | cart/src/transition.c:11-21 | the whole new fade state |
| Transition.Crossfade.Advance | cart/src/transition.c:28-35 | counts a frame of an active fade and ends it at the fifteenth |
| Transition.Crossfade.MarkRendered | cart/src/transition.c:42-46 | only an active fade becomes ready |
| FadeLoop.Loop.Step | cart/src/pstv-demo-cart.c:264-285 | one iteration on the three buffers, the fade object and the retargeted canvas equals Iterate on their contents |
| FadeLoop.Loop.RenderSceneInto | cart/src/pstv-demo-cart.c:115-122 | the scene lands in the destination and the canvas is put back |
| FadeLoop.ChangeNeedsWholeFade | cart/src/pstv-demo-cart.c:264-285 | over every sequence of scene selections the displayed scene changes only after exactly fifteen presented blends, at weights 0 to 14, of one pair of images sampled when the fade began, the source being displayed throughout |
| FadeLoop.ChangesFarApart | cart/src/pstv-demo-cart.c:264-285 | two changes of the displayed scene are at least fifteen presented frames apart |
| FadeLoop.FadeIsNeverRestarted | cart/src/pstv-demo-cart.c:264-283 | an active fade keeps its ends and its sampled images and advances by one frame |
| FadeLoop.FadeFramesMoveSlowly | cart/src/pstv-demo-cart.c:276-283 | inside a fade consecutive presented frames differ by at most 27 in every channel |
| FadeLoop.NextFrameIsLive | cart/src/pstv-demo-cart.c:264-285 | outside a fade the next frame is the displayed scene at the current frame counter, also when a fade begins with it |
| FadeLoop.ExitFrame | cart/src/pstv-demo-cart.c:276-283 | the frame on screen when a fade ends is the last blend of the pair sampled fifteen iterations before |
| FadeLoop.NoHardCut | cart/src/pstv-demo-cart.c:264-285 | between any two consecutive presented frames of any run, at entry, inside, at exit and between fades, a channel moves by at most 27, or by what the displayed scene itself moved since it was drawn, plus 3 when a fade ends |
| FadeLoop.StillScenesNeverCut | cart/src/pstv-demo-cart.c:264-285 | scenes that do not depend on the frame counter never show a step above 27 at any point of any run |
| FadeLoop.ExitCanCut | cart/src/pstv-demo-cart.c:264-285 | a run with a moving target whose fade ends in one step from black to white |
| FadeLoop.DisplayCatchesUp | cart/src/pstv-demo-cart.c:264-285 | once the selected scene stays the same, the display shows it within thirty iterations |
| LoopTiming.LoopRunFades | cart/src/pstv-demo-cart.c:228-313 | the screens of a run of clock and fades together are a run of the fade loop |
| LoopTiming.LoopExists | cart/src/pstv-demo-cart.c:228-313 | all well-spaced turns that leave the 64-bit clock room have a run |
| LoopTiming.GuardedRunsAreInTime | cart/src/pstv-demo-cart.c:259-263 | if fifteen gaps fit into the minimum, in every run no tick or request changes the scene while a fade is running |
| LoopTiming.LateWithShortGuard | cart/src/pstv-demo-cart.c:259-263 | if they do not, there is a run with a change during a fade |
| LoopTiming.UninterruptedExactlyWhen | cart/src/pstv-demo-cart.c:228-313 | no change arrives during any fade of any run whose turns start at most a gap apart if and only if the minimum is positive and at least fifteen gaps, or there is one scene |
| LoopTiming.CartUninterruptedExactlyWhen | cart/src/pstv-demo-cart.c:213-216 | with the cart's settings exactly when the gap is at most one frame period, 33333333 ns |
| LoopTiming.CartCanBeLate | cart/src/pstv-demo-cart.c:228-313 | with the cart's settings and turns at most 40 ms apart there is a run where a change arrives during a fade |
| AxisNormalize.BandFits | cart/src/input_normalize.c:38-41 | the dead band lies inside the range, so no divisor is zero when used |
| AxisNormalize.NormalizeInRange | cart/src/input_normalize.c:19-52 | the result is in [-100, 100] if and only if the range is valid, the sentinel otherwise |
| AxisNormalize.DeadBandExactlyWhen | cart/src/input_normalize.c:38-44 | a raw value of the range lies in the dead band if and only if 200 times its distance from the centre is at most span times percentage, and reads 0 there |
| AxisNormalize.ReadingFromRange | cart/src/input_normalize.c:38-51 | outside the dead band the reading is the whole percentage of what the band leaves of that side, from range and percentage alone |
| AxisNormalize.OutsideReadsAsEnd | cart/src/input_normalize.c:32-36 | raw values outside the range read as its nearer end |
| AxisNormalize.FullThrow | cart/src/input_normalize.c:38-51 | 100 at the maximum always; -100 at the minimum if and only if the span is at least two, 0 for span one |
| AxisNormalize.NormalizeMonotone | cart/src/input_normalize.c:32-51 | monotone in the raw value over all of int32 |
| AxisNormalize.NormalizeAntisymmetric | cart/src/input_normalize.c:38-51 | for even spans the two sides mirror each other about the centre |
| AxisNormalize.WiderDeadZoneIsCalmer | cart/src/input_normalize.c:39-51 | a larger dead zone never increases the magnitude of any reading |
| InputEvents.FramingRoundTrip | cart/src/input_evdev.c:622-630 | framing a byte stream returns exactly the events that were encoded, whatever partial event follows, which is the remainder |
| InputEvents.DecodeMeans | cart/src/input_evdev.c:622-628 | the last eight bytes of an event are type and code in two bytes and the value in four, lowest byte first, the value in two's complement |
| InputEvents.BitTestMeans | cart/src/input_evdev.c:111-114 | bit n of a key snapshot is bit n of the little-endian number it holds |
| InputEvents.MapKeyIsTable | cart/src/input_actions.c:25-50 | a key code has an action if and only if the table lists it with that action |
| InputEvents.PressOnlyExactlyWhen | cart/src/input_evdev.c:553-554 | a key event acts on the queue as the documented press-only policy if and only if its value is not congruent to 1 modulo 65536 without being 1, or its code has no action, or the queue is full |
| InputEvents.LargeValueEmits | cart/src/input_actions.c:52-55 | value 65537 emits the action of its key |
| DesyncReplay.ReplayRefinement | cart/src/input_evdev.c:542-613 | for every event sequence held keys, axis values, link state and queue equal an independent replay: events between SYN_DROPPED and the next SYN_REPORT do nothing, readable snapshots replace state at that report, otherwise the last live event for a key or axis decides, and the queue is the first eight actions |
| DesyncReplay.SwallowedLeaveNoTrace | cart/src/input_evdev.c:588-613 | while a source waits for a report, other events change nothing at all |
| InputSpec.ScriptDelivers | cart/src/input_evdev.c:632-651 | any interleaving of chunks and interrupts delivers the concatenated bytes, and the ending answer decides whether the device is gone |
| InputSpec.ChunkingDoesNotMatter | cart/src/input_evdev.c:615-653 | any two ways of cutting one byte stream into reads and interrupts, ended by the same answer, leave the same input state |
| InputSpec.PumpsCompose | cart/src/input_evdev.c:615-653 | a stream may be cut between two pumps: pumping both parts equals pumping all at once |
| InputSpec.LeftWaitingExactlyWhen | cart/src/input_evdev.c:588-598 | a pump leaves a connected source in DESYNC if and only if the device is still there and some SYN_DROPPED among its events has no SYN_REPORT after it |
| InputRuns.DroppedThenQuiet | cart/src/input_evdev.c:588-592 | SYN_DROPPED followed by EAGAIN leaves a connected source in DESYNC |
| InputRuns.WaitingLastsUntilShutdown | cart/src/input_evdev.c:700-706 | a source left in DESYNC is unchanged by every later sequence of polls and rescans; only a shutdown ends the wait |
| InputRuns.GenerationIsOne | cart/src/input_evdev.c:432-436 | in every state of every run of polls, rescans and shutdowns a connected source has generation 1, an empty slot 0, or 2 after a disconnect |
| InputRuns.GenerationZeroExactlyWhen | cart/src/input_evdev.c:432-540 | in every run a slot's generation is 0 if and only if the slot has held no device in any state since init or the last shutdown |
| InputRuns.ConnectBumpsExactlyWhen | cart/src/input_evdev.c:432-436 | in every run a connect raises the slot's generation if and only if the slot has held no device in any state since init or the last shutdown |
| InputRuns.ReconnectRepeats | cart/src/input_evdev.c:432-540 | a slot connected with generation 1 has 2 when its device is gone and 1 again when reconnected |
| InputDelivery.GoneLeavesNothing | cart/src/input_evdev.c:528-540 | a slot whose device is gone keeps no descriptor, key, reading or byte, and has one generation more |
| InputDelivery.RunIsLinked | cart/src/input_evdev.c:333-540 | in every state of every run a slot is absent if and only if it has no descriptor, and its buffer is then empty, so a claimed device never has another's bytes before its own |
| InputDelivery.GenerationTotalCounts | cart/src/input_evdev.c:670 | in every state of every run the generation total of the frame is the number of devices in it |
| InputDelivery.PollReplays | cart/src/input_evdev.c:700-706 | every poll of every run reads every connected device: unless it is gone, its keys, axes and link are then the replay of all its events |
| InputDelivery.WaitingExactlyWhen | cart/src/input_evdev.c:588-598 | in every run a source is in DESYNC if and only if some poll read a SYN_DROPPED with no SYN_REPORT after it while the source was connected, and no shutdown came since; claiming never makes it wait |
| InputDelivery.ActionsConserved | cart/src/input_evdev.c:518-713 | in every run since init or the last shutdown the actions handed out followed by those still queued are the accepted ones in order, each once: of each poll's live presses, slot by slot, as many as the queue of eight takes |
| InputDelivery.IdleExactlyWhen | cart/src/input_evdev.c:708-713 | a poll hands out nothing if and only if nothing was queued and it accepted nothing |
| InputDelivery.InitThenPoll | cart/src/input_evdev.c:462-713 | after init every device found, up to four, offers the actions of all its events to the next poll, which hands out the first of them in slot order |
| InputDelivery.FirstPressIsHandedOut | cart/src/input_evdev.c:462-713 | a press on the first device init finds is the action of the next poll; for BTN_NORTH it is NEXT |
| InputSpec.PumpKeepsOwnership | cart/src/input_evdev.c:528-540 | a pump keeps every descriptor with its slot, except that a vanished device gives up its own |
| InputSpec.ClaimKeepsOwnership | cart/src/input_evdev.c:421-439 | claiming a fresh descriptor adds exactly it and keeps one owner each |
| InputEngine.Kernel.Open | cart/src/input_evdev.c:382-385 | a descriptor nobody has open becomes open |
| InputEngine.Kernel.Close | cart/src/input_evdev.c:505-506 | only an open descriptor may be closed, so no caller closes one twice |
| InputEngine.Engine.constructor | cart/src/input_evdev.c:472-475 | all slots empty and absent, no partial bytes, no pending actions |
| InputEngine.Engine.TakeEvent | cart/src/input_evdev.c:625-628 | the first event leaves the buffer, the rest moves down, other slots' buffers are untouched |
| InputEngine.Engine.Read | cart/src/input_evdev.c:632-640 | reads are offered non-empty space only, and buffer plus stream is conserved |
| InputEngine.Engine.ProcessKey | cart/src/input_evdev.c:542-555 | held keys and queue after one key event |
| InputEngine.Engine.Resync | cart/src/input_evdev.c:557-581 | keys and calibrated axes take the snapshot where it could be read |
| InputEngine.Engine.ConsumeEvent | cart/src/input_evdev.c:583-613 | one event changes one source and the queue as Consume says |
| InputEngine.Engine.HandleDisconnect | cart/src/input_evdev.c:528-540 | the descriptor is closed once, the slot becomes absent, its keys, readings and partial bytes are cleared |
| InputEngine.Engine.Pump | cart/src/input_evdev.c:615-653 | for every script of short reads, interrupts and endings: exactly the events of leftover plus bytes read are consumed in order; on EAGAIN a remainder shorter than an event stays, on disconnect none; ownership holds |
| InputEngine.Engine.PumpAll | cart/src/input_evdev.c:700-706 | slots are pumped in order, absent and DESYNC ones skipped |
| InputEngine.Engine.PopAction | cart/src/input_evdev.c:708-713 | the old queue is the action handed out followed by the new queue; an empty queue hands out 0 and stays empty |
| InputEngine.Engine.Poll | cart/src/input_evdev.c:693-718 | state and frame of one poll, with descriptor ownership kept; the queue after pumping is the action handed out followed by the queue left, and if it is empty the action is 0 |
| InputEngine.Engine.Collect | cart/src/input_evdev.c:346-417 | candidates stand for the admitted entries in directory order, at most sixteen, each with its zeroed and calibrated record; rejected descriptors are closed; every open descriptor is a slot's or a candidate's |
| InputEngine.FirstAreAdmitted | cart/src/input_evdev.c:346-417 | the first sixteen event nodes that open and pass the probe are all admitted, each at its place, however many follow |
| InputEngine.AdmittedMember | cart/src/input_evdev.c:252-280 | nothing else is admitted, whatever its metadata claims |
| InputEngine.Rank | cart/src/input_evdev.c:279 | the rank is the larger of what metadata and probe suggest |
| InputEngine.Engine.Claim | cart/src/input_evdev.c:421-439 | candidates fill first free slots in planned order, each slot taken then connected with its candidate's descriptor and axes, no key held and generation 1, the rest are closed; as many are claimed as there are candidates and free slots |
| InputEngine.Engine.Discover | cart/src/input_evdev.c:333-456 | a pass from any valid state connects the planned candidates in the free slots, leaves the other slots, the queue and the buffers alone, and leaves exactly the slots' descriptors open |
| InputEngine.Engine.Shutdown | cart/src/input_evdev.c:498-512 | no descriptor stays open and everything is forgotten |
| InputEngine.ScanFindsNodesOnce | cart/src/input_evdev.c:346-417 | a scan of a directory without duplicate names finds each node once |
| InputEngine.Init | cart/src/input_evdev.c:462-477 | after init the slots are connected to the first four planned candidates in order, ready to be read, the others are empty, and no node has two slots |
| InputEngine.Session | cart/src/input_evdev.c:333-718 | any sequence of polls, rescans and shutdowns is a run in the sense of InputRuns whose log the actions handed out are, and after a final shutdown no descriptor is open, none having been closed twice |
| Discovery.Plan | cart/src/input_evdev.c:286-302 | the in-place insertion sort leaves Planned of the old contents |
| Discovery.PlannedSorts | cart/src/input_evdev.c:286-302 | planning yields a permutation sorted by rank descending, then event number ascending |
| Discovery.PlannedIsStable | cart/src/input_evdev.c:292-298 | candidates of equal rank and number keep their order |
| Discovery.PlanIsUnique | cart/src/input_evdev.c:286-302 | sorted and stable determine the result |
| Discovery.FirstFree | cart/src/input_evdev.c:325-331 | the lowest free slot, or none if all are taken |
| Discovery.ClaimsInOrder | cart/src/input_evdev.c:421-439 | from any occupancy the free slots take the candidates in order, the m-th free slot the m-th candidate, and no other slot changes |
| Discovery.ClaimConnects | cart/src/input_evdev.c:421-439 | after any claim every slot taken is connected with its candidate's descriptor and axes, no key held and generation 1, and every other slot is as it was |
| Discovery.InitHoldsTheBest | cart/src/input_evdev.c:419-439 | slot i is connected to the i-th planned candidate, and no candidate left out or placed later is ahead of it |
| InputFrame.BuildFrame | cart/src/input_evdev.c:655-691 | each axis belongs to the first source with a usable reading; held keys, mask and generation total are merged over present sources |
| InputFrame.MaskIs | cart/src/input_evdev.c:669 | the mask has one bit for each present source, slot 0 the lowest |
| InputFrame.GenerationsAre | cart/src/input_evdev.c:670 | the generation total is the sum over present sources inside 32 bits |
| InputFrame.FrameShowsThePresent | cart/src/input_evdev.c:655-691 | the frame is determined by what the present sources hold: neither the record of an absent slot nor waiting for a report shows in it |
| InputFrame.PresentIffReadable | cart/src/input_evdev.c:672-689 | an axis is present if and only if some source can read it, and its value is in [-100, 100] |
| InputFrame.OwnerIsFirst | cart/src/input_evdev.c:684-688 | the owner of a present axis is the first source that can read it |
| SlotOrder.OwnerIsBestRanked | cart/src/input_evdev.c:682-688 | while a lower slot means a higher or equal rank, no source that can read an axis has a higher rank than the axis's owner; in plan order none is ahead of it |
| SlotOrder.UpheldExactlyWhen | cart/src/input_evdev.c:419-439 | after any claim a lower slot means a higher or equal rank if and only if it did before, no claimed candidate has a higher rank than a device in an earlier slot, and no device in a later slot has a higher rank than a claimed one; likewise for plan order, and for one slot per device node, which a claim keeps if and only if no claimed candidate is the node of a connected device |
| SlotOrder.PlanIsUniform | cart/src/input_evdev.c:286-302 | every plan is in rank order and plan order, and names each node once if the scan did |
| SlotOrder.EqualRanksStayInOrder | cart/src/input_evdev.c:682-683 | a rescan with an equal rank and a smaller event number that keeps rank order and breaks plan order |
| SlotOrder.RescanCanMisrank | cart/src/input_evdev.c:346-439 | a rescan that finds a connected rank-2 pad again and a rank-4 pad: the better pad ends up behind, the old node gets a second slot, and every frame gives the axis to the worse pad |
| InputRuns.LawAlongRun | cart/src/input_evdev.c:333-718 | over every run of polls, shutdowns and rescans that satisfy the claim's condition, rank order, plan order and one slot per node hold in every state |
| InputRuns.OwnerStaysBestRanked | cart/src/input_evdev.c:333-718 | in such a run no device that can read an axis has a higher rank than its owner, or in plan order is ahead of it |
| InputRuns.SeatsExist | cart/src/input_evdev.c:421-439 | every run has the assignment of candidates to slots that these statements speak of |
| InputRuns.InitFits | cart/src/input_evdev.c:462-477 | whatever init finds satisfies the condition: with no device connected every claim keeps every law |
| InputRuns.EmptyRescansKeepLaws | cart/src/input_evdev.c:333-718 | in every run that rescans only while nothing is connected all three laws hold in every state |
| InputRuns.OwnerIsBestAfterInit | cart/src/input_evdev.c:655-718 | in every such run each axis in the frame is owned by the best-ranked device that can read it |
| Ppm.WritableMeans | cart/src/canvas.c:5-15 | the division tests accept exactly the shapes whose pixel memory can be addressed |
| Ppm.WritePpm | cart/src/canvas.c:154-173 | the nested loop writes the header and the row-major raster if the canvas is valid and the stream takes every byte, and fails otherwise |
| Ppm.RasterAt | cart/src/canvas.c:160-170 | byte by byte: at its row-major place the raster holds byte 0, 1 or 2 of each pixel, counted from the lowest, whatever the stride |
| Ppm.ReadPpm | cart/scripts/capture-flash-check.py:220-247 | the position loop with white space, comments and tokens computes Parse on every byte string, malformed ones included |
| Ppm.HeaderWords | cart/scripts/capture-flash-check.py:220-243 | however white space and comments separate them, the three words behind the magic number are read as width, height and depth, and the bytes behind the last word's delimiter as the body |
| Ppm.PyIntSigned | cart/scripts/capture-flash-check.py:239 | white space around a number does not count, a plus changes nothing and a minus negates |
| Ppm.PyIntParts | cart/scripts/capture-flash-check.py:239 | nothing but padding, an optional sign and a number is read as an integer |
| Ppm.UnderscoreJoins | cart/scripts/capture-flash-check.py:239 | an underscore may stand exactly between two numbers and has no value there |
| Ppm.ImageIsWholeExactlyWhen | cart/scripts/capture-flash-check.py:243-247 | an accepted image has as many bytes as its size says if and only if the product of its sides is not negative: a negative side is not refused |
| Ppm.ParseHeaded | cart/scripts/capture-flash-check.py:241-247 | behind any written header the following bytes are the raster, whatever they are; fewer bytes than needed are refused as truncated |
| Ppm.WholeRaster | cart/scripts/capture-flash-check.py:220-247 | any raster of the right size comes back byte for byte, whatever its first byte is |
| Ppm.RoundTrip | cart/scripts/capture-flash-check.py:220-247 | reading what was written returns width, height and exactly the raster, for every valid canvas |
| FlashCheck.ScanPairs | cart/scripts/capture-flash-check.py:192-198 | one flag for each pair of neighbours, the largest change and the first frame that made it |
| FlashCheck.FlashPairExactlyWhen | cart/scripts/capture-flash-check.py:183-184 | two frames in either order are a flash pair if and only if one is darker than 0.8 and the other at least 0.1 brighter |
| FlashCheck.WindowExactlyWhen | cart/scripts/capture-flash-check.py:199 | the window is the integer nearest to the frame rate, halves going to the even one, and 1 for rates up to one half |
| FlashCheck.WorstRate | cart/scripts/capture-flash-check.py:200-207 | the maximum flash count over all runs of at most a window of consecutive pairs, attained, and the first window that has it |
| FlashCheck.ExceededExactlyWhen | cart/scripts/capture-flash-check.py:200-215 | the limit is exceeded if and only if some four flash pairs fall within one window |
| FlashCheck.FlashFramesAre | cart/scripts/capture-flash-check.py:216 | the frames before the cut to fifty are exactly the flash frames, in order |
| FlashCheck.Analyse | cart/scripts/capture-flash-check.py:187-217 | all report fields of one region |
| FlashCheck.WorstRegion | cart/scripts/capture-flash-check.py:347-348 | the first region that none exceeds in the lexicographic order |
| FlashCheck.WorstMeans | cart/scripts/capture-flash-check.py:347-348 | the worst region exceeds the rate limit if any does, then has the most flash pairs, then the largest change |
| FlashCheck.VerdictMeans | cart/scripts/capture-flash-check.py:347-379 | the worst region decides for all regions |
| FlashCheck.Check | cart/scripts/capture-flash-check.py:333-379 | status 2 if and only if some region has four flash pairs within a window, 0 if and only if no region has any flash pair, 1 otherwise |

## Left out

- Scene drawing and its float sine table: a scene is an uninterpreted function of scene number and frame counter, and a job an uninterpreted row-local function.
- FadeLoop.Loop.RenderFrame: scene numbers are taken as registered, the overlay pass belongs to the uninterpreted image, and the image is written in one step; the pool's interleavings are treated in the worker pool modules.
- WorkerPool: initialisation failures of the mutex, condition variable and barriers themselves (`cart/src/worker_pool.c:67-86`) and NULL arguments are not steps; threads see each other's writes in step order, as the barriers' memory ordering provides; worker count times rows must fit an int, which init does not test.
- Transition.WeightStep: frame counts so large that 1024 times the step leaves 64 bits are treated with unbounded integers; the cart's count is fifteen.
- AxisNormalize.Normalize: the span must fit int32, because the code computes it in 32 bits.
- InputEngine.Engine.Collect: directory reading, sysfs metadata, key and axis capability bits and the calibrated values are given as each entry's rank, probe verdict and prepared record; the error return when the directory cannot be opened and the final sweep over candidates (`cart/src/input_evdev.c:441-453`), which finds every candidate already released, are not modelled.
- LoopTiming.LoopRun: clock readings are nondecreasing, any number of requests may come in a turn with any holds, and a turn whose tick fails ends the run.
- SlotOrder.Seated: the node and device names of a source are not part of the record; the candidate a slot was claimed for stands beside it.
- InputEngine.Engine.Resync: the ioctl answers are parameters; held keys are a set of codes below 64 instead of a bit mask.
- InputEngine.Kernel.Open: opening returns a descriptor that is not in use; whether an entry opens is part of the entry.
- Ppm.WritePpm: size_t is taken as 32 bits wide, as on the target.
- Ppm.ReadPpm: Python's limit on the number of digits in an integer is not modelled.
- FlashCheck.Analyse: luminance values and the frame rate are exact reals, so binary rounding and NaN are not modelled; computing luminance, ffmpeg and the printed report are not part of this model.
- Clock reading, signals, framebuffer mapping and presentation: times are arguments, the presented image is the low-resolution buffer.
- cart/src/input.c: an older engine that is not built.
- Canvas rectangles and circles, the scene registry and presentation scaling would only add easy members.
- The HTTP server, vita-control, benchmark, input watcher, serial and manifest tools, Makefiles, shell wrappers and Buildroot files: process and I/O orchestration.
