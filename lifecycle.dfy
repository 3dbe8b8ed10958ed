/**
 The state of the Pac-Man window as a value, the three callbacks the event
 loop runs on it (the delayed start, the mouth tick and the end of the
 moving animation), and what any sequence of those callbacks does to it.
 The class `Window.PacmanWindow` is proved to follow these functions.
 */
module Lifecycle {
  import Planner
  import Geometry

  datatype Option<T> = None | Some(value: T)

  /** The picture on Pac-Man's label. */
  datatype Image = OpenMouth | ClosedMouth

  /**
   Waiting: the start delay is pending and Pac-Man is hidden. Moving:
   `startAnimations` has run. Finished: `end_of_time` has run.
   */
  datatype Phase = Waiting | Moving | Finished

  /** What the window is built from: the countdown and the window geometry. */
  datatype Config = Config(minutes: real, screenWidth: int, screenHeight: int, pacmanSize: int)

  /** The single-run geometry animation that carries Pac-Man across. */
  datatype MovingAnimation = MovingAnimation(durationMs: real, from: Geometry.Rect, to: Geometry.Rect, loopCount: int)

  datatype WindowState = WindowState(
    visible: bool,
    mouthOpen: bool,
    shown: Image,
    phase: Phase,
    mouthTimerRunning: bool,
    moving: Option<MovingAnimation>)

  /** The picture that goes with a mouth state. */
  function ImageFor(mouthOpen: bool): Image
  {
    if mouthOpen then OpenMouth else ClosedMouth
  }

  /**
   The moving animation `startMovingAnimation` builds: it lasts the planned
   animation time and goes from the start rectangle to the end rectangle
   once.
   */
  function MovingAnimationFor(cfg: Config): (a: MovingAnimation)
    ensures a.durationMs > 0.0
    ensures Planner.StartDelayMs(cfg.minutes) + a.durationMs == cfg.minutes * Planner.MsPerMinute
    ensures a.from.y == a.to.y && a.to.x - a.from.x == cfg.screenWidth
  {
    MovingAnimation(
      Planner.AnimationDurationMinutes(cfg.minutes) * Planner.MsPerMinute,
      Geometry.StartRect(cfg.screenHeight, cfg.pacmanSize),
      Geometry.EndRect(cfg.screenWidth, cfg.screenHeight, cfg.pacmanSize),
      1)
  }

  /** The window right after construction: mouth open, label hidden. */
  function Initial(): WindowState
  {
    WindowState(false, true, OpenMouth, Waiting, false, None)
  }

  /** `startAnimations`: show the label, start moving, start the mouth timer. */
  function Start(cfg: Config, s: WindowState): WindowState
  {
    s.(visible := true, phase := Moving, moving := Some(MovingAnimationFor(cfg)), mouthTimerRunning := true)
  }

  /** `toggleMouth`: show the other picture and flip the mouth bit. */
  function Toggle(s: WindowState): WindowState
  {
    s.(shown := if s.mouthOpen then ClosedMouth else OpenMouth, mouthOpen := !s.mouthOpen)
  }

  /** `end_of_time`: hide the label. The mouth timer is left running. */
  function End(s: WindowState): WindowState
  {
    s.(visible := false, phase := Finished)
  }

  /**
   What holds between callbacks: the label is visible exactly while moving,
   the picture matches the mouth bit, and while moving the animation and the
   mouth timer are those `startAnimations` set up.
   */
  ghost predicate Valid(cfg: Config, s: WindowState)
  {
    && (s.visible <==> s.phase == Moving)
    && s.shown == ImageFor(s.mouthOpen)
    && (s.phase == Moving ==> s.moving == Some(MovingAnimationFor(cfg)) && s.mouthTimerRunning)
    && (s.phase == Waiting ==> s.moving == None && !s.mouthTimerRunning)
  }

  lemma InitialValid(cfg: Config)
    ensures Valid(cfg, Initial())
    ensures Initial().mouthOpen && !Initial().visible
  {
  }

  /**
   A tick shows the closed picture exactly when the mouth was open before
   it, flips the bit and nothing else; two ticks in a row restore a valid
   state.
   */
  lemma ToggleSpec(cfg: Config, s: WindowState)
    requires Valid(cfg, s)
    ensures Toggle(s).shown == ClosedMouth <==> s.mouthOpen
    ensures Toggle(s).mouthOpen == !s.mouthOpen
    ensures Toggle(s).(shown := s.shown, mouthOpen := s.mouthOpen) == s
    ensures Toggle(Toggle(s)) == s
  {
  }

  /** The end of the moving animation hides Pac-Man but leaves the mouth ticking. */
  lemma EndKeepsMouthTimer(cfg: Config, s: WindowState)
    requires Valid(cfg, s) && s.phase == Moving
    ensures !End(s).visible && End(s).mouthTimerRunning
    ensures Toggle(End(s)).mouthOpen == !s.mouthOpen
  {
  }

  /** The callbacks of the event loop. */
  datatype Event = DelayElapsed | MouthTick | MoveFinished

  function Step(cfg: Config, s: WindowState, e: Event): WindowState
  {
    match e
    case DelayElapsed => Start(cfg, s)
    case MouthTick => Toggle(s)
    case MoveFinished => End(s)
  }

  /** The state after running the callbacks `evs` in order, starting from `s`. */
  function Run(cfg: Config, s: WindowState, evs: seq<Event>): WindowState
    decreases |evs|
  {
    if evs == [] then s
    else Step(cfg, Run(cfg, s, evs[..|evs| - 1]), evs[|evs| - 1])
  }

  /** Number of mouth ticks among `evs`. */
  function Ticks(evs: seq<Event>): nat
    decreases |evs|
  {
    if evs == [] then 0
    else Ticks(evs[..|evs| - 1]) + (if evs[|evs| - 1] == MouthTick then 1 else 0)
  }

  lemma StepPreservesValid(cfg: Config, s: WindowState, e: Event)
    requires Valid(cfg, s)
    ensures Valid(cfg, Step(cfg, s, e))
  {
  }

  /** Every sequence of callbacks keeps `Valid`. */
  lemma {:induction false} RunPreservesValid(cfg: Config, s: WindowState, evs: seq<Event>)
    requires Valid(cfg, s)
    ensures Valid(cfg, Run(cfg, s, evs))
    decreases |evs|
  {
    if evs != [] {
      RunPreservesValid(cfg, s, evs[..|evs| - 1]);
      StepPreservesValid(cfg, Run(cfg, s, evs[..|evs| - 1]), evs[|evs| - 1]);
    }
  }

  /**
   The mouth strictly alternates: after any sequence of callbacks it is in
   its starting position exactly when an even number of ticks ran, whatever
   else happened in between.
   */
  lemma {:induction false} MouthFollowsTickParity(cfg: Config, s: WindowState, evs: seq<Event>)
    ensures Run(cfg, s, evs).mouthOpen == (s.mouthOpen == (Ticks(evs) % 2 == 0))
    decreases |evs|
  {
    if evs != [] {
      MouthFollowsTickParity(cfg, s, evs[..|evs| - 1]);
    }
  }

  /**
   Only the delayed start shows Pac-Man and only the end of the moving
   animation hides it: starting from a fresh window, the label is visible
   after `evs` exactly when some `DelayElapsed` in `evs` is followed by no
   `MoveFinished`.
   */
  ghost predicate ShownAfter(evs: seq<Event>)
  {
    exists i :: 0 <= i < |evs| && evs[i] == DelayElapsed && NotEndedAfter(evs, i)
  }

  ghost predicate NotEndedAfter(evs: seq<Event>, i: nat)
  {
    forall j :: i < j < |evs| ==> evs[j] != MoveFinished
  }

  lemma {:induction false} VisibleExactlyWhenShown(cfg: Config, evs: seq<Event>)
    ensures Run(cfg, Initial(), evs).visible <==> ShownAfter(evs)
    decreases |evs|
  {
    if evs != [] {
      var n := |evs| - 1;
      var p := evs[..n];
      VisibleExactlyWhenShown(cfg, p);
      match evs[n]
      case DelayElapsed =>
        assert NotEndedAfter(evs, n);
      case MoveFinished =>
        forall i | 0 <= i < |evs| && evs[i] == DelayElapsed
          ensures !NotEndedAfter(evs, i)
        {
          assert i < n && evs[n] == MoveFinished;
        }
      case MouthTick =>
        if ShownAfter(p) {
          var i :| 0 <= i < |p| && p[i] == DelayElapsed && NotEndedAfter(p, i);
          assert evs[i] == DelayElapsed && NotEndedAfter(evs, i);
        }
        if ShownAfter(evs) {
          var i :| 0 <= i < |evs| && evs[i] == DelayElapsed && NotEndedAfter(evs, i);
          assert i < n && p[i] == DelayElapsed && NotEndedAfter(p, i);
        }
    }
  }

  /** Running two sequences of callbacks one after the other. */
  lemma {:induction false} RunAppend(cfg: Config, s: WindowState, a: seq<Event>, b: seq<Event>)
    ensures Run(cfg, s, a + b) == Run(cfg, Run(cfg, s, a), b)
    decreases |b|
  {
    if b != [] {
      var n := |b| - 1;
      assert (a + b)[..|a + b| - 1] == a + b[..n];
      assert (a + b)[|a + b| - 1] == b[n];
      RunAppend(cfg, s, a, b[..n]);
    } else {
      assert a + b == a;
    }
  }

  /** `n` mouth ticks in a row. */
  function Ticking(n: nat): (evs: seq<Event>)
    ensures |evs| == n
    ensures forall i :: 0 <= i < n ==> evs[i] == MouthTick
  {
    seq(n, _ => MouthTick)
  }

  /** A run of ticks changes the mouth bit and the picture and nothing else. */
  lemma {:induction false} TickingOnlyMovesMouth(cfg: Config, s: WindowState, n: nat)
    ensures Run(cfg, s, Ticking(n)).(mouthOpen := s.mouthOpen, shown := s.shown) == s
    decreases n
  {
    if n > 0 {
      assert Ticking(n)[..n - 1] == Ticking(n - 1);
      TickingOnlyMovesMouth(cfg, s, n - 1);
    }
  }

  /**
   The order in which the event loop runs the callbacks: the delayed start,
   `k` ticks while Pac-Man moves, the end of the moving animation, and `m`
   more ticks of the timer nobody stops. While moving Pac-Man is visible on
   the planned animation; afterwards it is hidden, the mouth timer still
   runs, and the mouth keeps alternating with every tick.
   */
  lemma EventLoopOrder(cfg: Config, k: nat, m: nat)
    ensures var mid := Run(cfg, Initial(), [DelayElapsed] + Ticking(k));
      && mid.visible && mid.phase == Moving && mid.mouthTimerRunning
      && mid.moving == Some(MovingAnimationFor(cfg))
      && mid.mouthOpen == (k % 2 == 0) && mid.shown == ImageFor(k % 2 == 0)
    ensures var fin := Run(cfg, Initial(), [DelayElapsed] + Ticking(k) + [MoveFinished] + Ticking(m));
      && !fin.visible && fin.phase == Finished && fin.mouthTimerRunning
      && fin.mouthOpen == ((k + m) % 2 == 0) && fin.shown == ImageFor((k + m) % 2 == 0)
  {
    var started := Run(cfg, Initial(), [DelayElapsed]);
    assert [DelayElapsed][..0] == [];
    assert started == Start(cfg, Initial());
    var a := [DelayElapsed] + Ticking(k);
    RunAppend(cfg, Initial(), [DelayElapsed], Ticking(k));
    var mid := Run(cfg, Initial(), a);
    TickingOnlyMovesMouth(cfg, started, k);
    MouthFollowsTickParity(cfg, Initial(), a);
    assert Ticks(a) == k by { TicksOfStartThenTicking(k); }
    InitialValid(cfg);
    RunPreservesValid(cfg, Initial(), a);

    var b := a + [MoveFinished];
    assert b[..|b| - 1] == a;
    var ended := Run(cfg, Initial(), b);
    assert ended == End(mid);
    RunAppend(cfg, Initial(), b, Ticking(m));
    TickingOnlyMovesMouth(cfg, ended, m);
    var all := b + Ticking(m);
    MouthFollowsTickParity(cfg, ended, Ticking(m));
    assert Ticks(Ticking(m)) == m by { TicksOfTicking(m); }
    RunPreservesValid(cfg, Initial(), all);
  }

  lemma {:induction false} TicksOfTicking(n: nat)
    ensures Ticks(Ticking(n)) == n
    decreases n
  {
    if n > 0 {
      assert Ticking(n)[..n - 1] == Ticking(n - 1);
      TicksOfTicking(n - 1);
    }
  }

  lemma {:induction false} TicksOfStartThenTicking(n: nat)
    ensures Ticks([DelayElapsed] + Ticking(n)) == n
    decreases n
  {
    if n == 0 {
      assert [DelayElapsed] + Ticking(0) == [DelayElapsed];
      assert [DelayElapsed][..0] == [];
    } else {
      var evs := [DelayElapsed] + Ticking(n);
      assert evs[..|evs| - 1] == [DelayElapsed] + Ticking(n - 1);
      TicksOfStartThenTicking(n - 1);
    }
  }
}
