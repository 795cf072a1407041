/** How src/world.js places a new pipe: the gap size from the difficulty
    curve, a centre drawn inside the screen margins, and the fairness clamp
    that keeps the new gap within reach of the previous one. */
module Generator {
  import opened Wrappers
  import opened Config
  import opened Rng
  import opened Pipes

  /** The optional pipe-placement tuning the world reads: screen margins for
      the gap and a fixed start for the bottom pipe. */
  datatype PipeTuning = PipeTuning(
    marginTop: Option<real>,
    marginBottom: Option<real>,
    bottomStartY: Option<real>)

  const DEFAULT_MARGIN_TOP: real := 60.0
  const DEFAULT_MARGIN_BOTTOM: real := 80.0
  /** The first pipe is placed three quarters across the field. */
  const FIRST_PIPE_X: real := DESIGN_WIDTH * 0.75
  /** Smallest speed the clamp divides by. */
  const SPEED_EPSILON: real := 0.000001
  /** Remaining time below which the upward-reach loop stops. */
  const REACH_EPSILON: real := 0.000001
  /** The shortest time between two flaps: the input buffer or one tick. */
  const FLAP_INTERVAL: real := Max(INPUT_BUFFER_MS / 1000.0, 1.0 / FIXED_HZ)

  lemma FlapIntervalValue()
    ensures FLAP_INTERVAL == 0.05
  {
  }

  function MarginTop(t: PipeTuning): real { t.marginTop.GetOr(DEFAULT_MARGIN_TOP) }
  function MarginBottom(t: PipeTuning): real { t.marginBottom.GetOr(DEFAULT_MARGIN_BOTTOM) }

  /** Lowest and highest gap centre that keep the gap inside the margins. */
  function MinCenter(t: PipeTuning, gap: real): real { MarginTop(t) + gap / 2.0 }
  function MaxCenter(t: PipeTuning, gap: real): real { DESIGN_HEIGHT - MarginBottom(t) - gap / 2.0 }

  /** The whole gap lies between the top margin and the bottom margin. */
  predicate InBand(center: real, t: PipeTuning, gap: real) {
    MinCenter(t, gap) <= center <= MaxCenter(t, gap)
  }

  /** The centre proposed before the clamp: the bottom pipe pinned to the
      configured start (kept inside the band), or a uniform draw `u` across
      the band. */
  function Candidate(t: PipeTuning, gap: real, u: real): (c: real)
    requires 0.0 <= u < 1.0
    ensures MinCenter(t, gap) <= MaxCenter(t, gap) ==> InBand(c, t, gap)
    ensures t.bottomStartY.Some? &&
            MinCenter(t, gap) + gap / 2.0 <= t.bottomStartY.value <= MaxCenter(t, gap) + gap / 2.0 ==>
              c + gap / 2.0 == t.bottomStartY.value
    ensures t.bottomStartY.None? && MinCenter(t, gap) < MaxCenter(t, gap) ==> c < MaxCenter(t, gap)
  {
    var minCenter := MinCenter(t, gap);
    var maxCenter := MaxCenter(t, gap);
    match t.bottomStartY
    case Some(start) =>
      Max(minCenter + gap / 2.0, Min(maxCenter + gap / 2.0, start)) - gap / 2.0
    case None =>
      Range(minCenter, maxCenter, u)
  }

  /** Vertical displacement over `d` seconds right after a flap (positive
      is down); within one flap interval the bird always ends higher. */
  function Segment(d: real): (dy: real)
    requires 0.0 < d <= FLAP_INTERVAL
    ensures FLAP_VELOCITY * d <= dy <= (FLAP_VELOCITY + 30.0) * d
  {
    FlapIntervalValue();
    MulMonotone(d, d, 0.05);
    FLAP_VELOCITY * d + 0.5 * GRAVITY * d * d
  }

  /** Upper bound on the number of segments left in `remaining` seconds. */
  function SegmentsLeft(remaining: real): nat {
    if remaining > 0.0 then (remaining / 0.05).Floor + 1 else 0
  }

  /** Total displacement when flapping at every interval for `remaining`
      seconds, in segments of at most one interval. */
  function UpwardDy(remaining: real): real
    decreases SegmentsLeft(remaining)
  {
    if remaining > REACH_EPSILON then
      FlapIntervalValue();
      var d := Min(remaining, FLAP_INTERVAL);
      Segment(d) + UpwardDy(remaining - d)
    else
      0.0
  }

  /** maxUpwardReach: how far up the bird can climb in `seconds`. */
  function UpwardReach(seconds: real): (r: real)
    ensures r >= 0.0
  {
    Max(0.0, -UpwardDy(seconds))
  }

  lemma {:induction false} UpwardDyBounds(remaining: real)
    ensures remaining <= REACH_EPSILON ==> UpwardDy(remaining) == 0.0
    ensures remaining > REACH_EPSILON ==>
              FLAP_VELOCITY * remaining <= UpwardDy(remaining) <= (FLAP_VELOCITY + 30.0) * (remaining - REACH_EPSILON)
    decreases SegmentsLeft(remaining)
  {
    if remaining > REACH_EPSILON {
      FlapIntervalValue();
      var d := Min(remaining, FLAP_INTERVAL);
      UpwardDyBounds(remaining - d);
    }
  }

  /** The upward capacity grows at between 250 and 280 units per second of
      available time, and is zero when there is (almost) no time. */
  lemma UpwardReachBounds(seconds: real)
    ensures seconds <= REACH_EPSILON ==> UpwardReach(seconds) == 0.0
    ensures seconds > REACH_EPSILON ==>
              250.0 * (seconds - REACH_EPSILON) <= UpwardReach(seconds) <= 280.0 * seconds
  {
    UpwardDyBounds(seconds);
  }

  /** The loop of maxUpwardReach, proved to compute UpwardReach. */
  method MaxUpwardReach(seconds: real) returns (reach: real)
    ensures reach == UpwardReach(seconds)
  {
    FlapIntervalValue();
    var remaining := seconds;
    var totalDy := 0.0;
    while remaining > REACH_EPSILON
      invariant totalDy + UpwardDy(remaining) == UpwardDy(seconds)
      decreases SegmentsLeft(remaining)
    {
      var dtSeg := Min(remaining, FLAP_INTERVAL);
      totalDy := totalDy + Segment(dtSeg);
      remaining := remaining - dtSeg;
    }
    reach := Max(0.0, -totalDy);
  }

  /** maxDownwardReach: free fall from rest, quadratic until the terminal
      velocity is reached, linear after. */
  function DownwardReach(seconds: real): (r: real)
    ensures r >= 0.0
  {
    var tToTerm := TERMINAL_VELOCITY / GRAVITY;
    if seconds <= tToTerm then
      0.5 * GRAVITY * seconds * seconds
    else
      var distToTerm := 0.5 * GRAVITY * tToTerm * tToTerm;
      distToTerm + TERMINAL_VELOCITY * (seconds - tToTerm)
  }

  /** More time never lowers the downward reach. */
  lemma DownwardReachMonotone(s: real, t: real)
    requires 0.0 <= s <= t
    ensures DownwardReach(s) <= DownwardReach(t)
  {
    assert TERMINAL_VELOCITY / GRAVITY == 0.75;
    if t <= 0.75 {
      SquareMonotone(s, t);
    } else if s <= 0.75 {
      SquareMonotone(s, 0.75);
      assert DownwardReach(s) == 600.0 * (s * s) <= 337.5;
    }
  }

  /** The bird never falls faster than the terminal velocity. */
  lemma DownwardReachBelowTerminal(t: real)
    requires 0.0 <= t
    ensures DownwardReach(t) <= TERMINAL_VELOCITY * t
  {
    assert TERMINAL_VELOCITY / GRAVITY == 0.75;
    if t <= 0.75 {
      MulMonotone(t, t, 0.75);
    }
  }

  /** The time the clamp allows between two pipes: their horizontal distance
      (never negative) over the scroll speed for the score. */
  function TimeAvailable(x: real, prevX: real, score: real): (t: real)
    ensures t >= 0.0
    ensures x <= prevX ==> t == 0.0
  {
    Max(0.0, x - prevX) / Max(SPEED_EPSILON, SPEED_BASE * Ramp(score))
  }

  /** Highest centre reachable from `prevCenter`, kept inside the band. */
  function AllowedMin(t: PipeTuning, gap: real, prevCenter: real, time: real): real {
    Max(MinCenter(t, gap), prevCenter - UpwardReach(time))
  }

  /** Lowest centre reachable from `prevCenter`, kept inside the band. */
  function AllowedMax(t: PipeTuning, gap: real, prevCenter: real, time: real): real {
    Min(MaxCenter(t, gap), prevCenter + DownwardReach(time))
  }

  /** The fairness clamp: the candidate moved to the nearest point of the
      window [lo, hi] when the window is not empty; otherwise the point of
      the band nearest the previous centre. */
  function Clamp(c: real, lo: real, hi: real, minCenter: real, maxCenter: real, prevCenter: real): (r: real)
    ensures lo <= hi ==> lo <= r <= hi
    ensures lo <= hi && lo <= c <= hi ==> r == c
    ensures lo <= hi && c < lo ==> r == lo
    ensures lo <= hi && hi < c ==> r == hi
    ensures hi < lo && minCenter <= maxCenter ==> minCenter <= r <= maxCenter
    ensures hi < lo && minCenter <= prevCenter <= maxCenter ==> r == prevCenter
    ensures hi < lo && prevCenter < minCenter <= maxCenter ==> r == minCenter
    ensures hi < lo && maxCenter < prevCenter ==> r == maxCenter
  {
    if lo <= hi then
      var below := if c < lo then lo else c;
      if below > hi then hi else below
    else
      Min(maxCenter, Max(minCenter, prevCenter))
  }

  /** createNextPipe as a function of its inputs, the previous pipe (if any)
      and the uniform draw `u` it would consume. */
  function NewPipe(x: real, score: real, birdHeight: real, t: PipeTuning, prev: Option<Pipe>, u: real): (p: Pipe)
    requires 0.0 <= u < 1.0
    ensures p.x == x && !p.passed
    ensures p.gapSize == GapAtScore(score, birdHeight)
    ensures MinCenter(t, p.gapSize) <= MaxCenter(t, p.gapSize) ==> InBand(p.gapCenterY, t, p.gapSize)
    ensures prev.None? ==> p.gapCenterY == Candidate(t, p.gapSize, u)
    ensures prev.Some? ==>
              var time := TimeAvailable(x, prev.value.x, score);
              var lo := AllowedMin(t, p.gapSize, prev.value.gapCenterY, time);
              var hi := AllowedMax(t, p.gapSize, prev.value.gapCenterY, time);
              (lo <= hi ==> lo <= p.gapCenterY <= hi) &&
              (hi < lo ==> p.gapCenterY == Min(MaxCenter(t, p.gapSize), Max(MinCenter(t, p.gapSize), prev.value.gapCenterY)))
  {
    var gap := GapAtScore(score, birdHeight);
    var candidate := Candidate(t, gap, u);
    var center :=
      match prev
      case None => candidate
      case Some(last) =>
        var time := TimeAvailable(x, last.x, score);
        Clamp(candidate, AllowedMin(t, gap, last.gapCenterY, time), AllowedMax(t, gap, last.gapCenterY, time),
              MinCenter(t, gap), MaxCenter(t, gap), last.gapCenterY);
    Pipe(x, center, gap, false)
  }

  /** The next gap can be reached from the previous one, by climbing with
      repeated flaps or by falling, in the time the two pipes take to pass at
      the scroll speed for `score`. This is the speed the generator assumes.
      In the world that score is the world's own, always 0. The world
      scrolls at the speed for the caller's score, which reaches 1.1 times
      that from score 30 on, so the actual time can be shorter. */
  predicate Reachable(prev: Pipe, next: Pipe, score: real) {
    var time := TimeAvailable(next.x, prev.x, score);
    prev.gapCenterY - UpwardReach(time) <= next.gapCenterY <= prev.gapCenterY + DownwardReach(time)
  }

  /** The fairness guarantee: when the previous centre lies in the new
      pipe's band, the new gap is reachable from it. */
  lemma NewPipeReachable(x: real, score: real, birdHeight: real, t: PipeTuning, prev: Pipe, u: real)
    requires 0.0 <= u < 1.0
    requires InBand(prev.gapCenterY, t, GapAtScore(score, birdHeight))
    ensures Reachable(prev, NewPipe(x, score, birdHeight, t, Some(prev), u), score)
  {
  }

  /** The x of the next pipe: the nominal spacing plus a jitter drawn from
      [-SPACING_JITTER, SPACING_JITTER). */
  function NextX(lastX: real, u: real): (x: real)
    requires 0.0 <= u < 1.0
    ensures lastX + SPACING - SPACING_JITTER <= x < lastX + SPACING + SPACING_JITTER
  {
    lastX + SPACING + Range(-SPACING_JITTER, SPACING_JITTER, u)
  }

  /** A new pipe is due once the last one's right edge is within the spacing
      of the field's right edge. */
  predicate NeedsSpawn(last: Pipe) {
    last.x + PIPE_WIDTH < DESIGN_WIDTH + SPACING
  }
}
