# Pac-Man time guardian, modelled in Dafny

The program shows a countdown as Pac-Man crossing a thin always-on-top strip
at the top of the screen. `PacmanWindow` is built with a countdown length in
minutes. It works out how long the visible animation lasts and how long to
wait before starting it. It schedules a one-shot timer with that wait. When
the timer fires, `startAnimations` shows Pac-Man and starts two things: a
geometry animation from the left edge to just past the right edge, and a
500 ms timer that makes the mouth chew. When the geometry animation
finishes, `end_of_time` hides Pac-Man.

The model has four modules:

- `Planner` (`planner.dfy`): the animation length and the start delay, as
  pure functions over exact `real` minutes.
- `Geometry` (`geometry.dfy`): the start and end rectangles of the trip,
  with Python's floor division written out.
- `Lifecycle` (`lifecycle.dfy`): the window's state as a value and the
  three callbacks as functions on it. A callback sequence is an `Event`
  trace, and `Run` folds a trace over the state. The lemmas cover what any
  callback order does: visibility, the mouth's alternation and the state
  invariant.
- `Window` (`window.dfy`): `PacmanWindow` as a class whose methods update
  its fields in place. Each method is proved to act on `State()` exactly as
  the matching `Lifecycle` function does.

For a zero-minute countdown the code computes `(0 − 0.01) · 60 · 1000 = −600`
ms, and nothing clamps it (`Planner.PlannerExamples`, `Planner.StartDelayMs`).
For any countdown of zero or less the delay is negative.

## Model

| member | source | states |
|---|---|---|
| `Planner.AnimationDurationMinutes` | pacman.py:14-19 | The animation length is always strictly positive and at most 10 minutes. For a positive countdown it never exceeds the countdown. |
| `Planner.StartDelayMs` | pacman.py:21 | The delay plus the animation length (in ms) equals the whole countdown, so the animation ends when the countdown does. For a positive countdown the delay lies in [0, countdown). For a countdown of zero or less it is negative (not clamped). |
| `Planner.DurationTiers` | pacman.py:14-19 | The animation lasts 10 minutes above 15 minutes and 5 minutes in (5, 15]. It equals the countdown in (0, 5], and is 0.01 at zero or below. |
| `Planner.DelayZeroExactlyForShortCountdowns` | pacman.py:14-21 | For a positive countdown the delay is zero exactly when the countdown is at most 5 minutes. |
| `Planner.DurationMonotone` | pacman.py:14-19 | Among positive countdowns, a longer countdown never gets a shorter animation. |
| `Planner.DelayDropsAfterFifteenMinutes` | pacman.py:14-21 | The delay is not monotone. A 15-minute countdown waits 600000 ms but a 16-minute one waits 360000 ms. |
| `Planner.PlannerExamples` | pacman.py:14-21 | Worked values: 6 → (5, 60000), 20 → (10, 600000), 3 → (3, 0), 0 → (0.01, −600). |
| `Geometry.Half` | pacman.py:84 | `n // 2` rounds toward minus infinity: 2q ≤ n < 2q + 2. |
| `Geometry.CentredTop` | pacman.py:84-85 | The top edge `h // 2 - s // 2` centres the Pac-Man square in the window to within one pixel. |
| `Geometry.TripIsHorizontal` | pacman.py:84-85 | Start and end rectangles share y, width and height, all `pacmanSize`. They differ only in x: 0 at the start, the window width at the end. |
| `Lifecycle.MovingAnimationFor` | pacman.py:84-92 | The moving animation has a positive duration. Start delay plus duration equals the countdown in ms. The trip is horizontal over the window's width. |
| `Lifecycle.InitialValid` | pacman.py:62-72 | A new window has the mouth open, the open picture shown and the label hidden, and it satisfies the callback invariant. |
| `Lifecycle.ToggleSpec` | pacman.py:105-112 | A tick shows the closed picture exactly when the mouth was open before it. It negates the mouth bit and changes nothing else. Two ticks restore the state. |
| `Lifecycle.EndKeepsMouthTimer` | pacman.py:114-118 | The end of the animation hides Pac-Man but does not stop the mouth timer, so a later tick still flips the mouth. |
| `Lifecycle.StepPreservesValid` | pacman.py:74-118 | Each callback keeps the invariant. The label is visible exactly while moving, the picture matches the mouth bit, and while moving the animation and the timer are those `startAnimations` set up. |
| `Lifecycle.RunPreservesValid` | pacman.py:74-118 | Any sequence of callbacks keeps that invariant. |
| `Lifecycle.MouthFollowsTickParity` | pacman.py:105-112 | After any callback sequence, the mouth is in its starting position exactly when an even number of ticks ran. |
| `Lifecycle.TickingOnlyMovesMouth` | pacman.py:105-112 | A run of ticks changes only the mouth bit and the picture. |
| `Lifecycle.VisibleExactlyWhenShown` | pacman.py:71-117 | From a new window, Pac-Man is visible after a callback sequence exactly when some delayed start in it is followed by no end of the moving animation. Only `startAnimations` shows the label and only `end_of_time` hides it. |
| `Lifecycle.EventLoopOrder` | pacman.py:28-117 | In the order the event loop runs them (start, k ticks, end, m more ticks), Pac-Man is visible and moving on the planned animation until the end. After the end it is hidden, the mouth timer still runs, and the mouth follows the parity of k + m. |
| `Window.PacmanWindow.constructor` | pacman.py:9-28 | Takes its length and delay from the planner, so their sum is the countdown. Starts hidden with the mouth open and the open picture shown. |
| `Window.PacmanWindow.StartAnimations` | pacman.py:74-78 | Acts as `Lifecycle.Start`: the label becomes visible, the moving animation and the mouth timer start, and the mouth is untouched. The invariant is kept. |
| `Window.PacmanWindow.StartMovingAnimation` | pacman.py:80-96 | Builds the single-run animation from the start rectangle to the end rectangle over the planned length. Nothing else changes. |
| `Window.PacmanWindow.StartMouthAnimation` | pacman.py:98-103 | Starts the mouth timer and changes nothing else. |
| `Window.PacmanWindow.ToggleMouth` | pacman.py:105-112 | Acts as `Lifecycle.Toggle`: negates `mouthOpen` and shows the closed picture exactly when the mouth was open. Nothing else changes. |
| `Window.PacmanWindow.EndOfTime` | pacman.py:114-118 | Acts as `Lifecycle.End`: hides the label and ends the phase. The mouth timer and the mouth are left as they were. |

## Left out

- Window setup, window flags, translucency and the screen-geometry queries (pacman.py:30-53) are toolkit calls. The resulting width, height and Pac-Man size are constructor parameters.
- Loading and scaling the two pictures (pacman.py:55-69) is done by an image library. The pictures are the two values of `Image`.
- Real time is not modelled. That covers the one-shot timer, the 500 ms period of the mouth timer and the interpolation inside the geometry animation. The callbacks are modelled as an ordered `Event` trace, not as timed events. What the toolkit does with a negative or fractional millisecond delay is not part of this model.
- Some orders the event loop never produces are not treated specially, such as a second `startAnimations` creating a second timer. `Run` accepts any order, and `EventLoopOrder` covers the order that does occur.
- Console output and the command-line entry point (pacman.py:120-132) are left out. That includes parsing the minutes with `float` and exiting with status 1 on bad input, which are I/O and a library parser.
- Minutes are exact reals, so IEEE float rounding of the planner's arithmetic is not modelled.
- The millisecond values handed to the toolkit are kept as exact reals: the start delay given to the one-shot timer (pacman.py:28) and the duration given to `setDuration` (pacman.py:89). The toolkit converts both to a 32-bit `int`. That conversion, its rounding and its range (about 35,791 minutes) are not modelled, so the proved facts that the duration is positive and that delay plus duration equals the countdown hold for the planned values, not for what the toolkit schedules. NaN and infinite minutes, which `float` accepts, have no counterpart among the reals.
- The constructor has no default for the countdown: the default `counter_minutes = 5` of `__init__` (pacman.py:9) is not modelled, and every caller passes the minutes explicitly.
