/**
  Runs of the gesture state machine under any order of host callbacks, and
  what the listener hears along them.
 */
module Traces {
  import opened Gesture

  /** `MotionEvent.ACTION_CANCEL`: an action the widget does not handle. */
  const ActionCancel: int := 3

  /** Everything the host can deliver to the widget. */
  datatype Input =
    | Touch(action: int, inside: bool)  // onTouchEvent; `inside` is the hit test's answer
    | HoldTimer                         // a posted hold timer runs
    | PressInEnd                        // the press-in animator ends
    | ReleaseOutEnd                     // the release-out animator ends
    | Reset                             // resetLongHold()
    | EnableHold(enable: bool)          // enableLongHold(enable)
    | ListenerSet(present: bool)        // setOnButtonClickListener

  /**
    One input. A timer or animator callback with nothing posted or running
    cannot be delivered; the run treats it as a step that changes nothing.
   */
  function Step(b: Button, i: Input): (r: Button)
    ensures b.events <= r.events
    ensures Inv(b) ==> Inv(r)
  {
    match i
    case Touch(action, inside) => TouchEvent(b, action, inside)
    case HoldTimer => if b.pendingTimers > 0 then HoldTimerFires(b) else b
    case PressInEnd => if b.downAnim then DownAnimationEnds(b) else b
    case ReleaseOutEnd => if b.upAnim then UpAnimationEnds(b) else b
    case Reset => ResetLongHold(b)
    case EnableHold(enable) => EnableLongHold(b, enable)
    case ListenerSet(present) => SetListener(b, present)
  }

  /** The state after delivering `inputs` in order; the log only grows and the invariant holds throughout. */
  function Run(b: Button, inputs: seq<Input>): (r: Button)
    ensures b.events <= r.events
    ensures Inv(b) ==> Inv(r)
    decreases |inputs|
  {
    if inputs == [] then b else Run(Step(b, inputs[0]), inputs[1..])
  }

  /** The notifications delivered while running `inputs` from `b`. */
  function Emitted(b: Button, inputs: seq<Input>): (e: seq<Event>)
  {
    Run(b, inputs).events[|b.events|..]
  }

  predicate PressesInside(i: Input)
  {
    i.Touch? && i.action == ActionDown && i.inside
  }

  /** Inputs that neither begin nor end a press and leave the listener alone. */
  predicate DuringPress(i: Input)
  {
    match i
    case Touch(action, inside) => action != ActionUp && !(action == ActionDown && inside)
    case HoldTimer => true
    case PressInEnd => true
    case ReleaseOutEnd => true
    case EnableHold(_) => true
    case Reset => false
    case ListenerSet(_) => false
  }

  predicate NoStart(e: seq<Event>)
  {
    forall k :: 0 <= k < |e| ==> e[k] != LongHoldStart
  }

  lemma {:induction false} RunAppend(b: Button, xs: seq<Input>, ys: seq<Input>)
    ensures Run(b, xs + ys) == Run(Run(b, xs), ys)
    decreases |xs|
  {
    if xs == [] {
      assert xs + ys == ys;
    } else {
      assert (xs + ys)[1..] == xs[1..] + ys;
      RunAppend(Step(b, xs[0]), xs[1..], ys);
    }
  }

  lemma RunCons(b: Button, x: Input, rest: seq<Input>)
    ensures Run(b, [x] + rest) == Run(Step(b, x), rest)
  {
    assert ([x] + rest)[1..] == rest;
  }

  // ---------------------------------------------------------------------
  // The log agrees with the hold flag

  /** The hold flag is set exactly when the last notification was a hold start. */
  predicate LogAgrees(b: Button)
  {
    b.longHold <==> (|b.events| > 0 && b.events[|b.events| - 1] == LongHoldStart)
  }

  /**
    Every `LongHoldEnd` directly follows a `LongHoldStart`, and a `Click`
    never does: a press is reported either as a click or as a hold, never both.
   */
  predicate WellNested(e: seq<Event>)
  {
    forall k {:trigger e[k]} :: 0 <= k < |e| ==>
      && (e[k] == LongHoldEnd ==> 0 < k && e[k - 1] == LongHoldStart)
      && (e[k] == Click ==> k == 0 || e[k - 1] != LongHoldStart)
  }

  /** With a listener, a step that notifies appends one event, which matches the hold flags before and after. */
  lemma StepNotifies(b: Button, i: Input)
    requires b.hasListener && !i.ListenerSet?
    ensures var r := Step(b, i);
      && r.hasListener
      && (r.events == b.events ==> r.longHold == b.longHold)
      && (r.events != b.events ==>
            && r.events == b.events + [r.events[|b.events|]]
            && (r.events[|b.events|] == LongHoldStart ==> r.longHold)
            && (r.events[|b.events|] != LongHoldStart ==> !r.longHold)
            && (r.events[|b.events|] == LongHoldEnd ==> b.longHold)
            && (r.events[|b.events|] == Click ==> !b.longHold))
  {
    match i
    case Touch(action, inside) =>
      if action == ActionUp && b.touchState == ActionDown {
        assert Step(b, i).events == b.events + [if b.longHold then LongHoldEnd else Click];
      }
    case _ =>
  }

  lemma StepKeepsNesting(b: Button, i: Input)
    requires Inv(b) && b.hasListener && LogAgrees(b) && WellNested(b.events)
    requires !i.ListenerSet?
    ensures var r := Step(b, i); r.hasListener && LogAgrees(r) && WellNested(r.events)
  {
    var r := Step(b, i);
    StepNotifies(b, i);
    if r.events != b.events {
      var n := |b.events|;
      assert |r.events| == n + 1 && r.events[..n] == b.events;
      assert r.events[n] == LongHoldEnd ==> b.longHold && 0 < n && b.events[n - 1] == LongHoldStart;
      forall k | 0 <= k < |r.events|
        ensures (r.events[k] == LongHoldEnd ==> 0 < k && r.events[k - 1] == LongHoldStart)
        ensures (r.events[k] == Click ==> k == 0 || r.events[k - 1] != LongHoldStart)
      {
        if k < n {
          assert r.events[k] == b.events[k];
          if 0 < k { assert r.events[k - 1] == b.events[k - 1]; }
        } else {
          assert k == n;
          if 0 < k {
            assert r.events[k - 1] == b.events[n - 1];
          }
        }
      }
    }
  }

  lemma {:induction false} RunKeepsNesting(b: Button, inputs: seq<Input>)
    requires Inv(b) && b.hasListener && LogAgrees(b) && WellNested(b.events)
    requires forall k :: 0 <= k < |inputs| ==> !inputs[k].ListenerSet?
    ensures var r := Run(b, inputs); LogAgrees(r) && WellNested(r.events)
    decreases |inputs|
  {
    if inputs != [] {
      StepKeepsNesting(b, inputs[0]);
      RunKeepsNesting(Step(b, inputs[0]), inputs[1..]);
    }
  }

  /**
    A listener registered on a new widget and never replaced hears a log in
    which clicks and holds never mix.
   */
  lemma ListenerHearsWellNested(inputs: seq<Input>)
    requires forall k :: 0 <= k < |inputs| ==> !inputs[k].ListenerSet?
    ensures WellNested(Run(SetListener(Initial(), true), inputs).events)
  {
    RunKeepsNesting(SetListener(Initial(), true), inputs);
  }

  // ---------------------------------------------------------------------
  // No hold without a pending timer

  /** What a run emits is what its first step emits followed by what the rest emits. */
  lemma EmittedSplits(b: Button, s: Button, r: Button)
    requires b.events <= s.events <= r.events
    requires NoStart(s.events[|b.events|..]) && NoStart(r.events[|s.events|..])
    ensures NoStart(r.events[|b.events|..])
  {
    assert r.events[|b.events|..] == s.events[|b.events|..] + r.events[|s.events|..];
  }

  lemma StepWithoutTimer(b: Button, i: Input)
    requires b.pendingTimers == 0 && !PressesInside(i)
    ensures var s := Step(b, i);
      && s.pendingTimers == 0
      && (s.longHold ==> b.longHold)
      && (s.events == b.events || s.events == b.events + [LongHoldEnd] || s.events == b.events + [Click])
  {
  }

  /**
    Without a pending timer and without a new press inside the circle, no
    hold can start: the timer count stays zero and the hold flag can only clear.
   */
  lemma {:induction false} NoStartWithoutTimer(b: Button, inputs: seq<Input>)
    requires b.pendingTimers == 0
    requires forall k :: 0 <= k < |inputs| ==> !PressesInside(inputs[k])
    ensures var r := Run(b, inputs);
      && r.pendingTimers == 0
      && (r.longHold ==> b.longHold)
      && NoStart(r.events[|b.events|..])
    decreases |inputs|
  {
    if inputs != [] {
      var s := Step(b, inputs[0]);
      StepWithoutTimer(b, inputs[0]);
      NoStartWithoutTimer(s, inputs[1..]);
      EmittedSplits(b, s, Run(s, inputs[1..]));
    }
  }

  /**
    After an up that is acted on, no `LongHoldStart` follows until the next
    press inside the circle: a short tap can never turn into a hold.
   */
  lemma NoHoldAfterRelease(b: Button, x: bool, rest: seq<Input>)
    requires b.touchState == ActionDown
    requires forall k :: 0 <= k < |rest| ==> !PressesInside(rest[k])
    ensures NoStart(Emitted(b, [Touch(ActionUp, x)] + rest))
  {
    var u := Step(b, Touch(ActionUp, x));
    RunCons(b, Touch(ActionUp, x), rest);
    NoStartWithoutTimer(u, rest);
    var r := Run(u, rest);
    assert r.events[|b.events|..] == u.events[|b.events|..] + r.events[|u.events|..];
  }

  lemma StepWhileDisabled(b: Button, i: Input)
    requires !b.longHoldEnabled && i != EnableHold(true)
    ensures var s := Step(b, i);
      && !s.longHoldEnabled
      && (s.longHold ==> b.longHold)
      && (s.events == b.events || s.events == b.events + [LongHoldEnd] || s.events == b.events + [Click])
  {
  }

  /**
    With hold detection disabled and not re-enabled, pending timers run but
    no hold starts.
   */
  lemma {:induction false} DisabledHoldNeverStarts(b: Button, inputs: seq<Input>)
    requires !b.longHoldEnabled
    requires forall k :: 0 <= k < |inputs| ==> inputs[k] != EnableHold(true)
    ensures var r := Run(b, inputs);
      && !r.longHoldEnabled
      && (r.longHold ==> b.longHold)
      && NoStart(r.events[|b.events|..])
    decreases |inputs|
  {
    if inputs != [] {
      var s := Step(b, inputs[0]);
      StepWhileDisabled(b, inputs[0]);
      DisabledHoldNeverStarts(s, inputs[1..]);
      EmittedSplits(b, s, Run(s, inputs[1..]));
    }
  }

  // ---------------------------------------------------------------------
  // A press from down to up

  /** The log since `base` consists of hold starts only, and the hold flag says whether there is one. */
  predicate OnlyStartsSince(c: Button, base: nat)
  {
    && base <= |c.events|
    && (forall k :: base <= k < |c.events| ==> c.events[k] == LongHoldStart)
    && (c.longHold <==> |c.events| > base)
  }

  /**
    While the pointer stays down, the listener hears only hold starts, at
    most one per timer that was pending.
   */
  lemma {:induction false} WhilePressed(c: Button, mid: seq<Input>, base: nat)
    requires c.touchState == ActionDown && c.hasListener && OnlyStartsSince(c, base)
    requires forall k :: 0 <= k < |mid| ==> DuringPress(mid[k])
    ensures var r := Run(c, mid);
      && r.touchState == ActionDown && r.hasListener && OnlyStartsSince(r, base)
      && |r.events| + r.pendingTimers <= |c.events| + c.pendingTimers
    decreases |mid|
  {
    if mid != [] {
      var s := Step(c, mid[0]);
      assert s.touchState == ActionDown && s.hasListener;
      assert |s.events| + s.pendingTimers <= |c.events| + c.pendingTimers;
      assert OnlyStartsSince(s, base) by {
        if s.events != c.events {
          assert s.events == c.events + [LongHoldStart];
        }
      }
      WhilePressed(s, mid[1..], base);
    }
  }

  /**
    A whole press: down inside the circle, anything that neither lifts nor
    re-presses the pointer, then up. The listener hears either one `Click`,
    or one or more `LongHoldStart` followed by one `LongHoldEnd` — never
    both — and at most one start per timer, so no more starts than the
    timers left over from earlier presses, plus one. The widget is back up
    with nothing pending and no hold. This holds for any press that does not
    begin during a hold: the first press on a new widget, a press after a
    release, and a press after a cancelled one.
   */
  lemma PressCycle(b: Button, mid: seq<Input>, x: bool)
    requires Inv(b) && !b.longHold && b.hasListener
    requires forall k :: 0 <= k < |mid| ==> DuringPress(mid[k])
    ensures var r := Run(b, [Touch(ActionDown, true)] + mid + [Touch(ActionUp, x)]);
      && r.touchState == ActionUp && r.pendingTimers == 0 && !r.longHold
    ensures var e := Emitted(b, [Touch(ActionDown, true)] + mid + [Touch(ActionUp, x)]);
      && (e == [Click]
          || (|e| >= 2 && e[|e| - 1] == LongHoldEnd && forall j :: 0 <= j < |e| - 1 ==> e[j] == LongHoldStart))
      && |e| <= b.pendingTimers + 2
  {
    var d := Step(b, Touch(ActionDown, true));
    var n := |b.events|;
    assert d.events == b.events && !d.longHold;
    WhilePressed(d, mid, n);
    var m := Run(d, mid);
    var r := Step(m, Touch(ActionUp, x));
    RunAppend(b, [Touch(ActionDown, true)] + mid, [Touch(ActionUp, x)]);
    RunCons(b, Touch(ActionDown, true), mid);
    assert Run(m, [Touch(ActionUp, x)]) == r;
    var e := r.events[n..];
    if m.longHold {
      assert e == m.events[n..] + [LongHoldEnd];
    } else {
      assert m.events == b.events;
      assert e == [Click];
    }
  }

  /**
    A press that begins with no hold under way and no timer left over is
    reported as exactly one `Click` or exactly one `LongHoldStart` followed
    by one `LongHoldEnd`. This covers the first press on a new widget and
    every press after a release, since nothing is pending once up.
   */
  lemma PressWithNoTimerLeft(b: Button, mid: seq<Input>, x: bool)
    requires Inv(b) && !b.longHold && b.pendingTimers == 0 && b.hasListener
    requires forall k :: 0 <= k < |mid| ==> DuringPress(mid[k])
    ensures var e := Emitted(b, [Touch(ActionDown, true)] + mid + [Touch(ActionUp, x)]);
      e == [Click] || e == [LongHoldStart, LongHoldEnd]
  {
    PressCycle(b, mid, x);
  }

  // ---------------------------------------------------------------------
  // Animators

  /**
    Release-out never begins while press-in is running: whenever a step
    starts it, press-in has finished.
   */
  lemma ReleaseOutNeverDuringPressIn(b: Button, i: Input)
    ensures var r := Step(b, i); !b.upAnim && r.upAnim ==> !r.downAnim
  {
  }

  // ---------------------------------------------------------------------
  // Concrete runs on a new widget with a listener

  function Listened(): (b: Button)
  {
    SetListener(Initial(), true)
  }

  /** Down and up before the hold delay: one click. */
  lemma TapIsClick()
    ensures Run(Listened(), [Touch(ActionDown, true), Touch(ActionUp, true)]).events == [Click]
  {
    RunCons(Listened(), Touch(ActionDown, true), [Touch(ActionUp, true)]);
  }

  /** Down, the hold timer runs, then up: hold start then hold end, and no click. */
  lemma HoldIsStartThenEnd()
    ensures Run(Listened(), [Touch(ActionDown, true), HoldTimer, Touch(ActionUp, true)]).events
            == [LongHoldStart, LongHoldEnd]
  {
    var b := Listened();
    RunCons(b, Touch(ActionDown, true), [HoldTimer, Touch(ActionUp, true)]);
    var d := Step(b, Touch(ActionDown, true));
    RunCons(d, HoldTimer, [Touch(ActionUp, true)]);
  }

  /** Hold detection switched off before the timer runs: the long press is a click. */
  lemma DisabledHoldIsClick()
    ensures Run(Listened(), [Touch(ActionDown, true), EnableHold(false), HoldTimer, Touch(ActionUp, true)]).events
            == [Click]
  {
    var b := Listened();
    RunCons(b, Touch(ActionDown, true), [EnableHold(false), HoldTimer, Touch(ActionUp, true)]);
    var d := Step(b, Touch(ActionDown, true));
    RunCons(d, EnableHold(false), [HoldTimer, Touch(ActionUp, true)]);
    var e := Step(d, EnableHold(false));
    RunCons(e, HoldTimer, [Touch(ActionUp, true)]);
  }

  /**
    A reset during a hold ends it at once; lifting the pointer afterwards is
    not acted on, so no click follows.
   */
  lemma ResetEndsHold()
    ensures Run(Listened(), [Touch(ActionDown, true), HoldTimer, Reset, Touch(ActionUp, true)]).events
            == [LongHoldStart, LongHoldEnd]
  {
    var b := Listened();
    RunCons(b, Touch(ActionDown, true), [HoldTimer, Reset, Touch(ActionUp, true)]);
    var d := Step(b, Touch(ActionDown, true));
    RunCons(d, HoldTimer, [Reset, Touch(ActionUp, true)]);
    var h := Step(d, HoldTimer);
    RunCons(h, Reset, [Touch(ActionUp, true)]);
  }

  /**
    `touchState` starts out equal to `ActionDown`, so on a new widget a press
    outside the circle is ignored but the following up is acted on: it clicks.
   */
  lemma FirstOutsidePressClicks()
    ensures Run(Listened(), [Touch(ActionDown, false), Touch(ActionUp, false)]).events == [Click]
  {
    RunCons(Listened(), Touch(ActionDown, false), [Touch(ActionUp, false)]);
  }

  /**
    A cancelled press leaves the pointer down and its timer posted; a new
    press posts a second one, and both recognise a hold.
   */
  lemma CancelledPressStartsHoldTwice()
    ensures Run(Listened(), [Touch(ActionDown, true), Touch(ActionCancel, true), Touch(ActionDown, true),
                             HoldTimer, HoldTimer]).events
            == [LongHoldStart, LongHoldStart]
  {
    var b0 := Listened();
    RunCons(b0, Touch(ActionDown, true), [Touch(ActionCancel, true), Touch(ActionDown, true), HoldTimer, HoldTimer]);
    var b1 := Step(b0, Touch(ActionDown, true));
    RunCons(b1, Touch(ActionCancel, true), [Touch(ActionDown, true), HoldTimer, HoldTimer]);
    var b2 := Step(b1, Touch(ActionCancel, true));
    RunCons(b2, Touch(ActionDown, true), [HoldTimer, HoldTimer]);
    var b3 := Step(b2, Touch(ActionDown, true));
    RunCons(b3, HoldTimer, [HoldTimer]);
  }

  /**
    Press-in is guarded only against itself: a new press while release-out
    is still running leaves both scale animators running.
   */
  lemma PressInCanOverlapReleaseOut()
    ensures var r := Run(Initial(), [Touch(ActionDown, true), PressInEnd, Touch(ActionUp, true), Touch(ActionDown, true)]);
      r.downAnim && r.upAnim
  {
    var b0 := Initial();
    RunCons(b0, Touch(ActionDown, true), [PressInEnd, Touch(ActionUp, true), Touch(ActionDown, true)]);
    var b1 := Step(b0, Touch(ActionDown, true));
    RunCons(b1, PressInEnd, [Touch(ActionUp, true), Touch(ActionDown, true)]);
    var b2 := Step(b1, PressInEnd);
    RunCons(b2, Touch(ActionUp, true), [Touch(ActionDown, true)]);
  }
}
