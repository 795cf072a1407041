/** Tuning constants and the two pure tuning functions of src/config.js:
    the gap size as a function of score, and the scroll-speed ramp. */
module Config {
  import opened Wrappers

  const DESIGN_WIDTH: real := 540.0
  const DESIGN_HEIGHT: real := 960.0

  // PHYSICS
  const FIXED_HZ: real := 60.0
  const GRAVITY: real := 1200.0            // units/s^2, downward
  const FLAP_VELOCITY: real := -280.0      // units/s, negative y is up
  const TERMINAL_VELOCITY: real := 900.0   // units/s, downward cap

  // SPEED
  const SPEED_BASE: real := 120.0

  // DIFFICULTY
  const INITIAL_GAP: real := 200.0
  const MIN_GAP_BY_SCORE: real := 130.0
  const DIFFICULTY_TARGET_SCORE: real := 40.0
  const FAIR_GAP_FACTOR: real := 3.5
  const SPACING: real := 260.0
  const SPACING_JITTER: real := 10.0

  // PIPE, BIRD
  const PIPE_WIDTH: real := 64.0
  const BIRD_WIDTH: real := 48.0
  const BIRD_HEIGHT: real := 48.0

  /** The collision-inset table. Entries the code reads with `??` but the
      shipped table does not define are `None`. */
  datatype HitboxConfig = HitboxConfig(
    birdInsetX: real,
    birdInsetY: real,
    pipeInsetX: Option<real>,
    pipeInsetLeft: Option<real>,
    pipeInsetRight: Option<real>,
    pipeInsetYGap: Option<real>)

  const HITBOX: HitboxConfig := HitboxConfig(10.0, 10.0, Some(8.0), None, None, None)

  // INPUT
  const INPUT_BUFFER_MS: real := 50.0

  function Max(a: real, b: real): real { if a >= b then a else b }
  function Min(a: real, b: real): real { if a <= b then a else b }

  /** SPEED.ramp: the scroll-speed multiplier, a step function of the score. */
  function Ramp(score: real): (m: real)
    ensures 1.0 <= m <= 1.1
  {
    if score >= 30.0 then 1.1
    else if score >= 15.0 then 1.05
    else 1.0
  }

  /** The ramp's three bands; it never decreases as the score grows. */
  lemma RampBands(score: real, later: real)
    requires score <= later
    ensures score < 15.0 ==> Ramp(score) == 1.0
    ensures 15.0 <= score < 30.0 ==> Ramp(score) == 1.05
    ensures 30.0 <= score ==> Ramp(score) == 1.1
    ensures Ramp(score) <= Ramp(later)
  {
  }

  /** The normalised progress `t = min(1, max(0, score / difficultyTargetScore))`. */
  function Progress(score: real): (t: real)
    ensures 0.0 <= t <= 1.0
    ensures score <= 0.0 ==> t == 0.0
    ensures score >= DIFFICULTY_TARGET_SCORE ==> t == 1.0
  {
    Min(1.0, Max(0.0, score / DIFFICULTY_TARGET_SCORE))
  }

  lemma ProgressMonotone(score: real, later: real)
    requires score <= later
    ensures Progress(score) <= Progress(later)
  {
    assert score / DIFFICULTY_TARGET_SCORE <= later / DIFFICULTY_TARGET_SCORE;
  }

  /** The quadratic ease-in `t * t`, for t in [0, 1]. */
  function Ease(t: real): (e: real)
    requires 0.0 <= t <= 1.0
    ensures 0.0 <= e <= t <= 1.0
  {
    assert t * t <= t * 1.0 by { MulMonotone(t, t, 1.0); }
    t * t
  }

  lemma MulMonotone(a: real, b: real, c: real)
    requires 0.0 <= a && b <= c
    ensures a * b <= a * c
  {
    assert a * c - a * b == a * (c - b);
  }

  lemma SquareMonotone(t: real, s: real)
    requires 0.0 <= t <= s
    ensures t * t <= s * s
  {
    MulMonotone(t, t, s);
    MulMonotone(s, t, s);
    assert t * s == s * t;
  }

  lemma EaseMonotone(t: real, s: real)
    requires 0.0 <= t <= s <= 1.0
    ensures Ease(t) <= Ease(s)
  {
    SquareMonotone(t, s);
  }

  /** The gap before the fairness floor: `(1 - eased) * initialGap + eased *
      minGapByScore`, which lies between the two gaps. */
  function RawGap(score: real): (raw: real)
    ensures MIN_GAP_BY_SCORE <= raw <= INITIAL_GAP
  {
    var eased := Ease(Progress(score));
    (1.0 - eased) * INITIAL_GAP + eased * MIN_GAP_BY_SCORE
  }

  /** DIFFICULTY.gapAtScore: the raw gap, floored at 3.5 times the bird's
      height so that the bird always fits. */
  function GapAtScore(score: real, birdHeight: real): (gap: real)
    ensures gap >= birdHeight * FAIR_GAP_FACTOR
    ensures gap >= MIN_GAP_BY_SCORE
    ensures gap == RawGap(score) || gap == birdHeight * FAIR_GAP_FACTOR
  {
    Max(RawGap(score), birdHeight * FAIR_GAP_FACTOR)
  }

  /** The easing input is clamped: no score below zero widens the gap beyond
      the initial one, and no score beyond the target narrows it further. */
  lemma GapAtScoreEnds(score: real, birdHeight: real)
    ensures score <= 0.0 ==> GapAtScore(score, birdHeight) == Max(INITIAL_GAP, birdHeight * FAIR_GAP_FACTOR)
    ensures score >= DIFFICULTY_TARGET_SCORE ==>
      GapAtScore(score, birdHeight) == Max(MIN_GAP_BY_SCORE, birdHeight * FAIR_GAP_FACTOR)
  {
  }

  /** A higher score never gives a wider gap (initialGap >= minGapByScore). */
  lemma GapAtScoreMonotone(score: real, later: real, birdHeight: real)
    requires score <= later
    ensures GapAtScore(later, birdHeight) <= GapAtScore(score, birdHeight)
  {
    ProgressMonotone(score, later);
    EaseMonotone(Progress(score), Progress(later));
  }

  /** With the shipped bird (48 units tall) the floor is 168, so every gap is
      between 168 and 200. */
  lemma ShippedGapRange(score: real)
    ensures 168.0 <= GapAtScore(score, BIRD_HEIGHT) <= 200.0
  {
  }
}
