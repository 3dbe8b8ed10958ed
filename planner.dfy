/**
 The countdown planner of the Pac-Man time guardian: from the length of a
 countdown in minutes it derives how long the visible Pac-Man animation lasts
 and how long the window waits before starting it. The source works on
 Python floats; here minutes are exact `real`s, so the tier boundaries and
 the timing identity hold without rounding.
 */
module Planner {

  /** Milliseconds per minute, the `* 60 * 1000` scaling of the source. */
  const MsPerMinute: real := 60.0 * 1000.0

  /** Length of the animation used when the countdown is zero or negative. */
  const MinimumDuration: real := 0.01

  /**
   Minutes during which Pac-Man is visible and moving: 10 for a countdown of
   more than 15 minutes, 5 for one of more than 5, and otherwise the
   countdown itself, or `MinimumDuration` when that is not positive.
   */
  function AnimationDurationMinutes(minutes: real): (d: real)
    ensures 0.0 < d <= 10.0
    ensures minutes > 0.0 ==> d <= minutes
  {
    if minutes > 15.0 then 10.0
    else if minutes > 5.0 then 5.0
    else if minutes > 0.0 then minutes
    else MinimumDuration
  }

  /**
   Milliseconds the window waits before it shows Pac-Man. The wait and the
   animation together fill the whole countdown; for a positive countdown the
   wait is never negative, and for a countdown of zero or less it is, since
   nothing clamps it.
   */
  function StartDelayMs(minutes: real): (ms: real)
    ensures ms + AnimationDurationMinutes(minutes) * MsPerMinute == minutes * MsPerMinute
    ensures minutes > 0.0 ==> 0.0 <= ms < minutes * MsPerMinute
    ensures minutes <= 0.0 ==> ms < 0.0
  {
    (minutes - AnimationDurationMinutes(minutes)) * MsPerMinute
  }

  /** The three tiers of the animation length, stated one by one. */
  lemma DurationTiers(minutes: real)
    ensures minutes > 15.0 ==> AnimationDurationMinutes(minutes) == 10.0
    ensures 5.0 < minutes <= 15.0 ==> AnimationDurationMinutes(minutes) == 5.0
    ensures 0.0 < minutes <= 5.0 ==> AnimationDurationMinutes(minutes) == minutes
    ensures minutes <= 0.0 ==> AnimationDurationMinutes(minutes) == MinimumDuration
  {
  }

  /**
   A countdown of at most 5 minutes is animated from its very start; a
   longer one first waits, and the wait is strictly positive.
   */
  lemma DelayZeroExactlyForShortCountdowns(minutes: real)
    requires minutes > 0.0
    ensures StartDelayMs(minutes) == 0.0 <==> minutes <= 5.0
  {
  }

  /**
   For positive countdowns a longer countdown never gets a shorter
   animation.
   */
  lemma DurationMonotone(m1: real, m2: real)
    requires 0.0 < m1 <= m2
    ensures AnimationDurationMinutes(m1) <= AnimationDurationMinutes(m2)
  {
  }

  /**
   The wait is not monotone in the countdown: crossing 15 minutes doubles
   the animation, so a 16-minute countdown shows Pac-Man sooner (after 6
   minutes) than a 15-minute one (after 10 minutes).
   */
  lemma DelayDropsAfterFifteenMinutes()
    ensures StartDelayMs(15.0) == 600000.0
    ensures StartDelayMs(16.0) == 360000.0
  {
  }

  /** Worked values of the planner, including the unclamped negative wait. */
  lemma PlannerExamples()
    ensures AnimationDurationMinutes(6.0) == 5.0 && StartDelayMs(6.0) == 60000.0
    ensures AnimationDurationMinutes(20.0) == 10.0 && StartDelayMs(20.0) == 600000.0
    ensures AnimationDurationMinutes(3.0) == 3.0 && StartDelayMs(3.0) == 0.0
    ensures AnimationDurationMinutes(0.0) == 0.01 && StartDelayMs(0.0) == -600.0
  {
  }
}
