/**
  The widget itself: an object whose handlers update its fields in place.
  Each method follows the corresponding Java method statement by statement,
  and its postcondition ties the new state to the transition function of
  module `Gesture`, about which the properties are proved.
 */
module View {
  import Gesture

  class TapHoldUpButton {
    var touchState: int
    var longHold: bool
    var longHoldEnabled: bool
    var downAnim: bool       // downAnim != null
    var upAnim: bool         // upAnim != null
    var pendingTimers: nat   // hold timers posted to the handler and not yet run or removed
    var hasListener: bool    // mClickListener != null
    var events: seq<Gesture.Event>

    /** The fields as a value of the state machine. */
    function State(): Gesture.Button
      reads this
    {
      Gesture.Button(touchState, longHold, longHoldEnabled, downAnim, upAnim, pendingTimers, hasListener, events)
    }

    /** The object invariant: the hold flag only while down, and nothing pending once up. */
    ghost predicate Valid()
      reads this
    {
      Gesture.Inv(State())
    }

    /** Construction; `touchState` keeps Java's default 0. */
    constructor ()
      ensures Valid() && State() == Gesture.Initial()
    {
      touchState := 0;
      longHold := false;
      longHoldEnabled := true;
      downAnim := false;
      upAnim := false;
      pendingTimers := 0;
      hasListener := false;
      events := [];
    }

    method SetOnButtonClickListener(present: bool)
      requires Valid()
      modifies this
      ensures Valid() && State() == Gesture.SetListener(old(State()), present)
    {
      hasListener := present;
    }

    method EnableLongHold(enable: bool)
      requires Valid()
      modifies this
      ensures Valid() && State() == Gesture.EnableLongHold(old(State()), enable)
    {
      longHoldEnabled := enable;
    }

    method ResetLongHold()
      requires Valid()
      modifies this
      ensures Valid() && State() == Gesture.ResetLongHold(old(State()))
    {
      if !longHold {
        return;
      }
      touchState := Gesture.NoTouch;
      StartUpAnimation();
      EndLongHold();
    }

    /**
      `onTouchEvent`; `inside` is the answer of the hit test. `consumed` is
      false where the Java code defers to `View.onTouchEvent`.
     */
    method OnTouchEvent(action: int, inside: bool) returns (consumed: bool)
      requires Valid()
      modifies this
      ensures Valid() && State() == Gesture.TouchEvent(old(State()), action, inside)
      ensures consumed == Gesture.Consumes(old(State()), action)
    {
      if action == Gesture.ActionDown {
        if inside {
          touchState := Gesture.ActionDown;
          pendingTimers := pendingTimers + 1;
          StartDownAnimation();
        }
        return true;
      } else if action == Gesture.ActionUp && touchState == Gesture.ActionDown {
        touchState := Gesture.ActionUp;
        StartUpAnimation();
        pendingTimers := 0;
        if longHold {
          EndLongHold();
        } else {
          Notify(Gesture.Click);
        }
        return true;
      }
      return false;
    }

    /** One posted hold timer runs; the handler drops it afterwards. */
    method RunHoldTimer()
      requires Valid() && pendingTimers > 0
      modifies this
      ensures Valid() && State() == Gesture.HoldTimerFires(old(State()))
    {
      pendingTimers := pendingTimers - 1;
      if !longHoldEnabled {
        return;
      }
      if touchState == Gesture.ActionDown {
        longHold := true;
        Notify(Gesture.LongHoldStart);
      }
    }

    /** The press-in animator's `onAnimationEnd`. */
    method OnDownAnimationEnd()
      requires Valid() && downAnim
      modifies this
      ensures Valid() && State() == Gesture.DownAnimationEnds(old(State()))
    {
      downAnim := false;
      if touchState == Gesture.ActionUp {
        StartUpAnimation();
      }
    }

    /** The release-out animator's `onAnimationEnd`. */
    method OnUpAnimationEnd()
      requires Valid() && upAnim
      modifies this
      ensures Valid() && State() == Gesture.UpAnimationEnds(old(State()))
    {
      upAnim := false;
    }

    method EndLongHold()
      modifies this
      ensures State() == Gesture.EndLongHold(old(State()))
    {
      longHold := false;
      Notify(Gesture.LongHoldEnd);
    }

    method StartDownAnimation()
      modifies this
      ensures State() == Gesture.StartDownAnimation(old(State()))
    {
      if downAnim {
        return;
      }
      downAnim := true;
    }

    method StartUpAnimation()
      modifies this
      ensures State() == Gesture.StartUpAnimation(old(State()))
    {
      if upAnim || downAnim {
        return;
      }
      upAnim := true;
    }

    /** A listener callback, delivered only when a listener is registered. */
    method Notify(e: Gesture.Event)
      modifies this
      ensures State() == Gesture.Notify(old(State()), e)
    {
      if hasListener {
        events := events + [e];
      }
    }
  }
}
