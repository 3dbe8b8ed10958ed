/**
 `PacmanWindow`, the overlay window, as an object whose callbacks update its
 fields in place. Each method is proved to do to `State()` what the matching
 function of `Lifecycle` does, so the lemmas there carry over to any order
 in which the event loop runs the callbacks.
 */
module Window {
  import Planner
  import opened Lifecycle

  class PacmanWindow {
    /** The countdown length in minutes, `_minutes`. */
    const minutes: real
    /** Width and height of the strip window and side of Pac-Man's square. */
    const screenWidth: int
    const screenHeight: int
    const pacmanSize: int
    /** `_animation_duration`, in minutes. */
    const animationDurationMinutes: real
    /** The delay given to the one-shot timer that calls `StartAnimations`. */
    const startDelayMs: real

    /** Whether Pac-Man's label is shown. */
    var visible: bool
    /** `_mouth_open`. */
    var mouthOpen: bool
    /** The picture currently set on the label. */
    var shown: Image
    var phase: Phase
    /** Whether the 500 ms mouth timer has been started. */
    var mouthTimerRunning: bool
    /** `movingAnimation`, once it has been built. */
    var moving: Option<MovingAnimation>

    function Cfg(): Config
    {
      Config(minutes, screenWidth, screenHeight, pacmanSize)
    }

    function State(): WindowState
      reads this
    {
      WindowState(visible, mouthOpen, shown, phase, mouthTimerRunning, moving)
    }

    ghost predicate Valid()
      reads this
    {
      && Lifecycle.Valid(Cfg(), State())
      && animationDurationMinutes == Planner.AnimationDurationMinutes(minutes)
      && startDelayMs == Planner.StartDelayMs(minutes)
    }

    /**
     Plans the animation, hides the label with the open-mouth picture on it
     and schedules `StartAnimations` after `startDelayMs`. The geometry is
     what the windowing system reports for the strip window.
     */
    constructor(counterMinutes: real, width: int, height: int, size: int)
      ensures Valid()
      ensures minutes == counterMinutes && Cfg() == Config(counterMinutes, width, height, size)
      ensures startDelayMs + animationDurationMinutes * Planner.MsPerMinute == counterMinutes * Planner.MsPerMinute
      ensures State() == Initial()
    {
      minutes := counterMinutes;
      animationDurationMinutes := Planner.AnimationDurationMinutes(counterMinutes);
      startDelayMs := Planner.StartDelayMs(counterMinutes);
      screenWidth, screenHeight, pacmanSize := width, height, size;
      mouthOpen := true;
      shown := OpenMouth;
      visible := false;
      phase := Waiting;
      mouthTimerRunning := false;
      moving := None;
    }

    /** `startAnimations`: show the label, then start moving and chewing. */
    method StartAnimations()
      requires Valid()
      modifies this
      ensures Valid()
      ensures State() == Start(Cfg(), old(State()))
      ensures visible && phase == Moving && mouthTimerRunning
      ensures mouthOpen == old(mouthOpen) && shown == old(shown)
    {
      visible := true;
      phase := Moving;
      StartMovingAnimation();
      StartMouthAnimation();
    }

    /**
     `startMovingAnimation`: a single run from the left edge to just past
     the right edge, centred vertically, lasting the planned time.
     */
    method StartMovingAnimation()
      requires animationDurationMinutes == Planner.AnimationDurationMinutes(minutes)
      modifies this
      ensures moving == Some(MovingAnimationFor(Cfg()))
      ensures moving.value.from.y == moving.value.to.y
      ensures visible == old(visible) && mouthOpen == old(mouthOpen) && shown == old(shown)
      ensures phase == old(phase) && mouthTimerRunning == old(mouthTimerRunning)
    {
      moving := Some(MovingAnimationFor(Cfg()));
    }

    /** `startMouthAnimation`: start the periodic mouth timer. */
    method StartMouthAnimation()
      modifies this
      ensures mouthTimerRunning
      ensures visible == old(visible) && mouthOpen == old(mouthOpen) && shown == old(shown)
      ensures phase == old(phase) && moving == old(moving)
    {
      mouthTimerRunning := true;
    }

    /**
     `toggleMouth`: put the closed picture up exactly when the mouth was
     open, then flip the mouth bit; nothing else changes.
     */
    method ToggleMouth()
      requires Valid()
      modifies this
      ensures Valid()
      ensures State() == Toggle(old(State()))
      ensures mouthOpen == !old(mouthOpen)
      ensures (shown == ClosedMouth) == old(mouthOpen)
      ensures visible == old(visible) && phase == old(phase)
      ensures mouthTimerRunning == old(mouthTimerRunning) && moving == old(moving)
    {
      if mouthOpen {
        shown := ClosedMouth;
      } else {
        shown := OpenMouth;
      }
      mouthOpen := !mouthOpen;
    }

    /** `end_of_time`: hide Pac-Man. The mouth timer is not stopped. */
    method EndOfTime()
      requires Valid()
      modifies this
      ensures Valid()
      ensures State() == End(old(State()))
      ensures !visible && phase == Finished
      ensures mouthTimerRunning == old(mouthTimerRunning)
      ensures mouthOpen == old(mouthOpen) && shown == old(shown) && moving == old(moving)
    {
      visible := false;
      phase := Finished;
    }
  }
}
