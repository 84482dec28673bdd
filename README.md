# TapHoldUpButton gesture state machine in Dafny

TapHoldUpButton is an Android `View`: a circular button that tells a tap from a
press-and-hold. It reports the gesture to a listener through three callbacks:
`onClick`, `onLongHoldStart` and `onLongHoldEnd`. A press inside the circle
posts a hold timer (800 ms) to the view's `Handler` and starts a press-in
scale animation. If the timer runs while the pointer is still down and hold
detection is enabled, a hold starts. Lifting the pointer removes every pending
timer, starts the release-out animation and reports either the end of the
hold or a click. `resetLongHold` ends a hold without waiting for the pointer.

This project models that state machine.

- `gesture.dfy`, module `Gesture`: the widget's state as a value (`Button`)
  and one transition function per entry point and private helper.
  - `touchState` is an `int` holding `MotionEvent.ACTION_DOWN` (0),
    `ACTION_UP` (1) or -1 after a reset.
  - Each animator is a boolean: running or not.
  - The timers posted to the `Handler` are a count, because every posted
    timer runs the same check against the current state.
  - The listener callbacks are appended to an event log, and only while a
    listener is registered.
  - `Inv` is the object invariant: `touchState` is one of the three values,
    the hold flag is set only while down, and nothing is pending once up.
    Every transition keeps it.
- `traces.dfy`, module `Traces`: an `Input` for everything the host can
  deliver, and `Run` over any sequence of inputs. The timer and animator
  callbacks may come in any order. The lemmas there state what a listener
  hears along such runs. Several concrete runs show the behaviour of the
  code on a new widget.
- `button.dfy`, module `View`: the class `TapHoldUpButton` with the same
  fields. Its methods follow the Java methods statement by statement and
  update the fields in place. Each method's postcondition says that the new
  state is the `Gesture` transition applied to the old one. The public entry
  points (the constructor, the listener and hold-detection setters,
  `ResetLongHold`, `OnTouchEvent` and the timer and animator callbacks) also
  keep the object invariant. The private helpers (`EndLongHold`,
  `StartDownAnimation`, `StartUpAnimation`, `Notify`) run in the middle of an
  update, where the invariant may not hold, so they promise only the
  transition.

Where the code departs from what the widget is evidently meant to do, the
model follows the code, and a lemma shows the departure on a concrete run:

- `touchState` has no initialiser, so it starts at Java's default 0, which is
  `ACTION_DOWN`. On a new widget, a press outside the circle is ignored, but
  the following up is acted on and reports a click
  (`Traces.FirstOutsidePressClicks`).
- A second down without an up in between posts a second timer. This happens,
  for example, after an `ACTION_CANCEL`, which the widget does not handle.
  The first timer is not removed, and nothing stops a timer from starting a
  hold that is already under way. Two timers then report two
  `onLongHoldStart` (`Traces.CancelledPressStartsHoldTwice`). On a new
  widget and after an ordinary release, no timer is left over, and this
  cannot happen (`Traces.PressWithNoTimerLeft`).
- `startDownAnimation` checks only the press-in animator. A new press while
  release-out is still running leaves both scale animations running
  (`Traces.PressInCanOverlapReleaseOut`). Only the other direction is
  excluded (`Traces.ReleaseOutNeverDuringPressIn`).
- `resetLongHold` does not remove pending timers, and it leaves `touchState`
  at -1. The pointer's later up is therefore ignored (`Traces.ResetEndsHold`).

## Model

| member | source | states |
|---|---|---|
| `Gesture.Initial` | tapholdupbutton/src/main/java/com/aar/tapholdupbutton/TapHoldUpButton.java:38-43 | a new widget satisfies the invariant, has hold detection on, no hold, no timer, no animation, no listener, and `touchState` already equal to `ACTION_DOWN` (Java's default 0) |
| `Gesture.SetListener` | tapholdupbutton/src/main/java/com/aar/tapholdupbutton/TapHoldUpButton.java:64-66 | registering or dropping the listener changes nothing else and keeps the invariant |
| `Gesture.EnableLongHold` | tapholdupbutton/src/main/java/com/aar/tapholdupbutton/TapHoldUpButton.java:68-70 | switching hold detection changes neither a running hold nor the pointer state, and keeps the invariant |
| `Gesture.ResetLongHold` | tapholdupbutton/src/main/java/com/aar/tapholdupbutton/TapHoldUpButton.java:72-79 | with no hold under way the state is unchanged and nothing is reported; during a hold `touchState` becomes -1, the hold ends with exactly one `LongHoldEnd` if a listener is present, release-out starts unless a scale animation runs, pending timers stay; the invariant is kept |
| `Gesture.TouchEvent` | tapholdupbutton/src/main/java/com/aar/tapholdupbutton/TapHoldUpButton.java:101-137 | a down inside the circle sets the pointer down, adds one pending timer and leaves press-in running; a down outside changes nothing; an up is acted on only while down, and then sets the pointer up, removes all timers, clears the hold and reports exactly one event, `LongHoldEnd` after a hold and `Click` otherwise; every other action leaves the state unchanged; the invariant is kept |
| `Gesture.Consumes` | tapholdupbutton/src/main/java/com/aar/tapholdupbutton/TapHoldUpButton.java:121-136 | `onTouchEvent` handles the event itself exactly when it is a down (inside or not) or when the event changes the state; otherwise it defers to `View` |
| `Gesture.HoldTimerFires` | tapholdupbutton/src/main/java/com/aar/tapholdupbutton/TapHoldUpButton.java:105-117 | the timer is consumed; with hold detection on and the pointer down the hold flag is set and one `LongHoldStart` is reported; otherwise nothing else changes; the invariant is kept |
| `Gesture.EndLongHold` | tapholdupbutton/src/main/java/com/aar/tapholdupbutton/TapHoldUpButton.java:139-144 | the hold flag is cleared and one `LongHoldEnd` is reported if a listener is present; nothing else changes |
| `Gesture.StartDownAnimation` | tapholdupbutton/src/main/java/com/aar/tapholdupbutton/TapHoldUpButton.java:160-184 | afterwards press-in is running whatever release-out is doing; nothing else changes |
| `Gesture.StartUpAnimation` | tapholdupbutton/src/main/java/com/aar/tapholdupbutton/TapHoldUpButton.java:186-207 | while either scale animation runs nothing changes; otherwise release-out starts |
| `Gesture.DownAnimationEnds` | tapholdupbutton/src/main/java/com/aar/tapholdupbutton/TapHoldUpButton.java:176-180 | press-in is no longer running, and release-out is running afterwards exactly when it already was or the pointer is up (not after a reset); the invariant is kept |
| `Gesture.UpAnimationEnds` | tapholdupbutton/src/main/java/com/aar/tapholdupbutton/TapHoldUpButton.java:202-204 | release-out is no longer running; nothing else changes |
| `Traces.Step` | tapholdupbutton/src/main/java/com/aar/tapholdupbutton/TapHoldUpButton.java:64-207 | any single callback only appends to the listener log and keeps the invariant |
| `Traces.Run` | tapholdupbutton/src/main/java/com/aar/tapholdupbutton/TapHoldUpButton.java:72-144 | over any sequence of callbacks the log only grows and the invariant holds throughout: a hold is set only while the pointer is down, and nothing is pending once up |
| `Traces.RunKeepsNesting` | tapholdupbutton/src/main/java/com/aar/tapholdupbutton/TapHoldUpButton.java:105-144 | with one listener throughout, the hold flag is set exactly when the last report was a `LongHoldStart`, every `LongHoldEnd` directly follows a `LongHoldStart`, and a `Click` never does |
| `Traces.ListenerHearsWellNested` | tapholdupbutton/src/main/java/com/aar/tapholdupbutton/TapHoldUpButton.java:105-144 | a listener registered on a new widget and never replaced never hears a click and a hold mixed up |
| `Traces.NoStartWithoutTimer` | tapholdupbutton/src/main/java/com/aar/tapholdupbutton/TapHoldUpButton.java:105-126 | with no timer pending and no new press inside the circle, no `LongHoldStart` is ever reported, the timer count stays zero and no hold begins |
| `Traces.NoHoldAfterRelease` | tapholdupbutton/src/main/java/com/aar/tapholdupbutton/TapHoldUpButton.java:122-133 | after an up that is acted on, no `LongHoldStart` follows until the next press inside the circle |
| `Traces.DisabledHoldNeverStarts` | tapholdupbutton/src/main/java/com/aar/tapholdupbutton/TapHoldUpButton.java:105-109 | while hold detection stays disabled, pending timers run but no hold begins and no `LongHoldStart` is reported |
| `Traces.WhilePressed` | tapholdupbutton/src/main/java/com/aar/tapholdupbutton/TapHoldUpButton.java:105-117 | while the pointer stays down only `LongHoldStart` is reported, at most one per timer that was pending |
| `Traces.PressCycle` | tapholdupbutton/src/main/java/com/aar/tapholdupbutton/TapHoldUpButton.java:102-133 | a press from down inside to up that does not begin during a hold (including the first press on a new widget and a press after a cancelled one) reports either exactly one `Click` or one or more `LongHoldStart` then one `LongHoldEnd`, never both, with no more starts than leftover timers plus one; afterwards the pointer is up, no timer is pending and no hold is set |
| `Traces.PressWithNoTimerLeft` | tapholdupbutton/src/main/java/com/aar/tapholdupbutton/TapHoldUpButton.java:102-133 | a press that begins with no hold and no timer left over (a new widget, or after a release) reports exactly `Click` or exactly `LongHoldStart`, `LongHoldEnd` |
| `Traces.ReleaseOutNeverDuringPressIn` | tapholdupbutton/src/main/java/com/aar/tapholdupbutton/TapHoldUpButton.java:186-188 | no callback starts release-out while press-in is running |
| `Traces.TapIsClick` | tapholdupbutton/src/main/java/com/aar/tapholdupbutton/TapHoldUpButton.java:102-133 | down then up before the timer runs reports one `Click` |
| `Traces.HoldIsStartThenEnd` | tapholdupbutton/src/main/java/com/aar/tapholdupbutton/TapHoldUpButton.java:102-144 | down, timer, up reports `LongHoldStart` then `LongHoldEnd` and no click |
| `Traces.DisabledHoldIsClick` | tapholdupbutton/src/main/java/com/aar/tapholdupbutton/TapHoldUpButton.java:68-133 | disabling hold detection before the timer runs turns a long press into a click |
| `Traces.ResetEndsHold` | tapholdupbutton/src/main/java/com/aar/tapholdupbutton/TapHoldUpButton.java:72-79 | a reset during a hold reports `LongHoldEnd` at once, and the later up reports nothing |
| `Traces.FirstOutsidePressClicks` | tapholdupbutton/src/main/java/com/aar/tapholdupbutton/TapHoldUpButton.java:41 | on a new widget a press outside the circle followed by an up reports a click, because `touchState` starts equal to `ACTION_DOWN` |
| `Traces.CancelledPressStartsHoldTwice` | tapholdupbutton/src/main/java/com/aar/tapholdupbutton/TapHoldUpButton.java:102-119 | down, cancel, down and two timer runs report `LongHoldStart` twice |
| `Traces.PressInCanOverlapReleaseOut` | tapholdupbutton/src/main/java/com/aar/tapholdupbutton/TapHoldUpButton.java:160-162 | a press while release-out runs leaves both scale animations running |
| `View.TapHoldUpButton.constructor` | tapholdupbutton/src/main/java/com/aar/tapholdupbutton/TapHoldUpButton.java:38-62 | the new object's fields are `Gesture.Initial` and satisfy the invariant |
| `View.TapHoldUpButton.SetOnButtonClickListener` | tapholdupbutton/src/main/java/com/aar/tapholdupbutton/TapHoldUpButton.java:64-66 | the new fields are `Gesture.SetListener` of the old ones; the invariant is kept |
| `View.TapHoldUpButton.EnableLongHold` | tapholdupbutton/src/main/java/com/aar/tapholdupbutton/TapHoldUpButton.java:68-70 | the new fields are `Gesture.EnableLongHold` of the old ones; the invariant is kept |
| `View.TapHoldUpButton.ResetLongHold` | tapholdupbutton/src/main/java/com/aar/tapholdupbutton/TapHoldUpButton.java:72-79 | the new fields are `Gesture.ResetLongHold` of the old ones; the invariant is kept |
| `View.TapHoldUpButton.OnTouchEvent` | tapholdupbutton/src/main/java/com/aar/tapholdupbutton/TapHoldUpButton.java:100-137 | the new fields are `Gesture.TouchEvent` of the old ones, the return value is `Gesture.Consumes`; the invariant is kept |
| `View.TapHoldUpButton.RunHoldTimer` | tapholdupbutton/src/main/java/com/aar/tapholdupbutton/TapHoldUpButton.java:105-117 | the new fields are `Gesture.HoldTimerFires` of the old ones; the invariant is kept |
| `View.TapHoldUpButton.OnDownAnimationEnd` | tapholdupbutton/src/main/java/com/aar/tapholdupbutton/TapHoldUpButton.java:174-182 | the new fields are `Gesture.DownAnimationEnds` of the old ones; the invariant is kept |
| `View.TapHoldUpButton.OnUpAnimationEnd` | tapholdupbutton/src/main/java/com/aar/tapholdupbutton/TapHoldUpButton.java:200-205 | the new fields are `Gesture.UpAnimationEnds` of the old ones; the invariant is kept |
| `View.TapHoldUpButton.EndLongHold` | tapholdupbutton/src/main/java/com/aar/tapholdupbutton/TapHoldUpButton.java:139-144 | the new fields are `Gesture.EndLongHold` of the old ones |
| `View.TapHoldUpButton.StartDownAnimation` | tapholdupbutton/src/main/java/com/aar/tapholdupbutton/TapHoldUpButton.java:160-184 | the new fields are `Gesture.StartDownAnimation` of the old ones |
| `View.TapHoldUpButton.StartUpAnimation` | tapholdupbutton/src/main/java/com/aar/tapholdupbutton/TapHoldUpButton.java:186-207 | the new fields are `Gesture.StartUpAnimation` of the old ones |
| `View.TapHoldUpButton.Notify` | tapholdupbutton/src/main/java/com/aar/tapholdupbutton/TapHoldUpButton.java:130-131 | a callback is recorded exactly when a listener is registered |

## Left out

- Drawing (`onDraw`): radius arithmetic on floats and `Canvas` calls.
- The scale value `mScalePercentage` and the animators' per-frame values,
  easing and durations: floating point driven by Android's animation
  framework. Each scale animator is modelled only as running or not.
- The colour animation started at the beginning and at the end of a hold
  (`startColorChangeAnimation`): it interpolates colours through
  `ArgbEvaluator` and nothing in the state machine reads its result.
- The hit test `isInCircle`: floating-point `Math.sqrt` and `Math.pow`. Its
  answer is the `inside` argument of a touch event.
- Real time: the 800 ms hold delay and the 150 ms animation durations. The
  `Handler` is a count of pending timers, and the host may deliver the
  timer and animator callbacks in any order. A callback with nothing posted
  or running cannot be delivered; in `Traces.Run` it is a step that changes
  nothing.
- The listener's identity and the view passed to each callback: only whether
  a listener is registered matters.
- `init`: attribute parsing through `TypedArray` and the paint set-up.
- The demo activity, app/src/main/java/com/aar/example/tapholdupbutton/MainActivity.java,
  which only sets text when a callback arrives.
- `View.onTouchEvent`, to which unhandled events are passed, is outside this
  model; `Consumes` only says when the widget handles an event itself.
