/**
  The gesture state machine of the TapHoldUpButton widget, as values.

  A `Button` holds every field the widget's touch, timer and animation
  handlers read or write; each entry point of the widget is a function from
  the old state to the new one. Listener notifications are appended to the
  `events` log, and only while a listener is registered. Pending hold timers
  (the `Runnable`s posted to the widget's `Handler`) all run the same check
  against the current state, so they are indistinguishable and are counted.
  Each animator is reduced to "running or not".
 */
module Gesture {

  /** `MotionEvent.ACTION_DOWN` and `MotionEvent.ACTION_UP` as Android defines them. */
  const ActionDown: int := 0
  const ActionUp: int := 1
  /** The value `resetLongHold` stores into `touchState`: neither down nor up. */
  const NoTouch: int := -1

  /** The three listener callbacks. */
  datatype Event = Click | LongHoldStart | LongHoldEnd

  datatype Button = Button(
    touchState: int,      // last acted-on pointer action, or NoTouch after a reset
    longHold: bool,       // a hold has been recognised and not yet ended
    longHoldEnabled: bool,
    downAnim: bool,       // the press-in scale animator is running
    upAnim: bool,         // the release-out scale animator is running
    pendingTimers: nat,   // hold timers posted and not yet run or removed
    hasListener: bool,    // a click listener is registered
    events: seq<Event>)   // every notification delivered to the listener, in order

  /** The values `touchState` can take, and the hold flag only while down. */
  predicate Inv(b: Button)
  {
    && b.touchState in {NoTouch, ActionDown, ActionUp}
    && (b.longHold ==> b.touchState == ActionDown)
    && (b.touchState == ActionUp ==> b.pendingTimers == 0)
  }

  /** The notifications a listener hears for event `e`: none without a listener. */
  function Heard(b: Button, e: Event): (heard: seq<Event>)
  {
    if b.hasListener then [e] else []
  }

  /**
    A freshly constructed widget. `touchState` has no initialiser, so it holds
    Java's default 0, which is `ActionDown`.
   */
  function Initial(): (b: Button)
    ensures Inv(b)
    ensures b.touchState == ActionDown && !b.longHold && b.pendingTimers == 0
    ensures b.longHoldEnabled && !b.downAnim && !b.upAnim
    ensures !b.hasListener && b.events == []
  {
    Button(0, false, true, false, false, 0, false, [])
  }

  /** Delivers `e` to the listener if one is registered. */
  function Notify(b: Button, e: Event): (r: Button)
  {
    if b.hasListener then b.(events := b.events + [e]) else b
  }

  /** `setOnButtonClickListener`: whether a listener is registered afterwards. */
  function SetListener(b: Button, present: bool): (r: Button)
    ensures r.hasListener == present
    ensures r.(hasListener := b.hasListener) == b
    ensures Inv(b) ==> Inv(r)
  {
    b.(hasListener := present)
  }

  /** `enableLongHold`: only the flag changes; a running hold is not touched. */
  function EnableLongHold(b: Button, enable: bool): (r: Button)
    ensures r.longHoldEnabled == enable
    ensures r.(longHoldEnabled := b.longHoldEnabled) == b
    ensures Inv(b) ==> Inv(r)
  {
    b.(longHoldEnabled := enable)
  }

  /**
    `startDownAnimation`: the guard looks only at the press-in animator, so
    press-in may start while release-out is running.
   */
  function StartDownAnimation(b: Button): (r: Button)
    ensures r == b.(downAnim := true)
  {
    if b.downAnim then b else b.(downAnim := true)
  }

  /**
    `startUpAnimation`: release-out starts only when neither scale animator
    is running; otherwise nothing changes.
   */
  function StartUpAnimation(b: Button): (r: Button)
    ensures b.downAnim || b.upAnim ==> r == b
    ensures !b.downAnim && !b.upAnim ==> r == b.(upAnim := true)
  {
    if b.upAnim || b.downAnim then b else b.(upAnim := true)
  }

  /** `endLongHold`: clears the hold flag and announces the end of the hold. */
  function EndLongHold(b: Button): (r: Button)
    ensures !r.longHold
    ensures r.events == b.events + Heard(b, LongHoldEnd)
    ensures r.(longHold := b.longHold, events := b.events) == b
  {
    Notify(b.(longHold := false), LongHoldEnd)
  }

  /**
    `onTouchEvent`. A down inside the circle marks the pointer down, posts one
    more hold timer (earlier ones are not removed) and starts press-in; a down
    outside changes nothing. An up is acted on only while `touchState` is
    down: it marks the pointer up, tries to start release-out, removes every
    pending timer and announces exactly one of `LongHoldEnd` (after a hold)
    or `Click`. Any other action, or an up that is not acted on, changes
    nothing.
   */
  function TouchEvent(b: Button, action: int, inside: bool): (r: Button)
    ensures action == ActionDown && inside ==>
      r == b.(touchState := ActionDown, pendingTimers := b.pendingTimers + 1, downAnim := true)
    ensures action == ActionDown && !inside ==> r == b
    ensures action == ActionUp && b.touchState == ActionDown ==>
      && r.touchState == ActionUp
      && r.pendingTimers == 0
      && !r.longHold
      && r.events == b.events + Heard(b, if b.longHold then LongHoldEnd else Click)
      && r.upAnim == (b.upAnim || !b.downAnim)
      && r.(touchState := b.touchState, pendingTimers := b.pendingTimers, longHold := b.longHold,
            events := b.events, upAnim := b.upAnim) == b
    ensures action != ActionDown && !(action == ActionUp && b.touchState == ActionDown) ==> r == b
    ensures Inv(b) ==> Inv(r)
  {
    if action == ActionDown then
      if inside then
        StartDownAnimation(b.(touchState := ActionDown, pendingTimers := b.pendingTimers + 1))
      else
        b
    else if action == ActionUp && b.touchState == ActionDown then
      var u := StartUpAnimation(b.(touchState := ActionUp)).(pendingTimers := 0);
      if u.longHold then EndLongHold(u) else Notify(u, Click)
    else
      b
  }

  /** Whether `onTouchEvent` handles the event itself (returns `true`) rather than passing it to `View`. */
  function Consumes(b: Button, action: int): (c: bool)
    ensures c <==> TouchEvent(b, action, true) != b || action == ActionDown
  {
    action == ActionDown || (action == ActionUp && b.touchState == ActionDown)
  }

  /**
    One posted hold timer runs. It is gone afterwards. It recognises a hold
    only when hold detection is enabled and the pointer is still down; it
    does not check whether a hold is already under way.
   */
  function HoldTimerFires(b: Button): (r: Button)
    requires b.pendingTimers > 0
    ensures r.pendingTimers == b.pendingTimers - 1
    ensures b.longHoldEnabled && b.touchState == ActionDown ==>
      r.longHold && r.events == b.events + Heard(b, LongHoldStart)
    ensures !(b.longHoldEnabled && b.touchState == ActionDown) ==>
      r.longHold == b.longHold && r.events == b.events
    ensures r.(pendingTimers := b.pendingTimers, longHold := b.longHold, events := b.events) == b
    ensures Inv(b) ==> Inv(r)
  {
    var t := b.(pendingTimers := b.pendingTimers - 1);
    if !t.longHoldEnabled then
      t
    else if t.touchState == ActionDown then
      Notify(t.(longHold := true), LongHoldStart)
    else
      t
  }

  /**
    The press-in animator ends: it is cleared, and release-out is started
    exactly when the pointer has been lifted meanwhile (not after a reset).
   */
  function DownAnimationEnds(b: Button): (r: Button)
    requires b.downAnim
    ensures !r.downAnim
    ensures r.upAnim == (b.upAnim || b.touchState == ActionUp)
    ensures r.(downAnim := true, upAnim := b.upAnim) == b
    ensures Inv(b) ==> Inv(r)
  {
    var d := b.(downAnim := false);
    if d.touchState == ActionUp then StartUpAnimation(d) else d
  }

  /** The release-out animator ends and is cleared. */
  function UpAnimationEnds(b: Button): (r: Button)
    requires b.upAnim
    ensures !r.upAnim && r.(upAnim := true) == b
    ensures Inv(b) ==> Inv(r)
  {
    b.(upAnim := false)
  }

  /**
    `resetLongHold`: nothing at all happens unless a hold is under way. During
    a hold it leaves the pointer neither down nor up, tries to start
    release-out and ends the hold with one `LongHoldEnd`; the pending timers
    stay posted.
   */
  function ResetLongHold(b: Button): (r: Button)
    ensures !b.longHold ==> r == b
    ensures b.longHold ==>
      && r.touchState == NoTouch
      && !r.longHold
      && r.events == b.events + Heard(b, LongHoldEnd)
      && r.upAnim == (b.upAnim || !b.downAnim)
      && r.(touchState := b.touchState, longHold := true, events := b.events, upAnim := b.upAnim) == b
    ensures Inv(b) ==> Inv(r)
  {
    if !b.longHold then
      b
    else
      EndLongHold(StartUpAnimation(b.(touchState := NoTouch)))
  }
}
