/** The World class of src/world.js: a FIFO queue of pipe pairs updated in
    place, spawning, scrolling and eviction, and scoring and collisions. */
module World {
  import opened Wrappers
  import opened Config
  import opened Rng
  import opened Physics
  import opened Pipes
  import opened Generator
  import opened Queue
  import opened Collisions

  /** The values of the pipe pairs, in queue order. */
  function Values(ps: seq<PipePair>): (vs: seq<Pipe>)
    reads ps
    ensures |vs| == |ps|
    ensures forall i :: 0 <= i < |ps| ==> vs[i] == ps[i].Value()
  {
    seq(|ps|, i reads ps requires 0 <= i < |ps| => ps[i].Value())
  }

  /** The pipe pair at position `i`; distinctness is stated on it so that
      it is only brought in where a proof asks for it. */
  function PairAt(ps: seq<PipePair>, i: nat): PipePair
    requires i < |ps|
  {
    ps[i]
  }

  /** No pipe pair object appears twice in the queue. */
  predicate Distinct(ps: seq<PipePair>) {
    forall i, j :: 0 <= i < j < |ps| ==> PairAt(ps, i) != PairAt(ps, j)
  }

  /** In a queue without repeats, the pair at `i` is no other position's. */
  lemma DistinctAt(ps: seq<PipePair>, i: nat)
    requires Distinct(ps) && i < |ps|
    ensures forall k :: 0 <= k < |ps| && k != i ==> ps[k] != ps[i]
  {
    forall k | 0 <= k < |ps| && k != i
      ensures ps[k] != ps[i]
    {
      if k < i {
        assert PairAt(ps, k) != PairAt(ps, i);
      } else {
        assert PairAt(ps, i) != PairAt(ps, k);
      }
    }
  }

  class World {
    const rng: RNG
    /** The pipe-placement tuning and the ground line the world reads. */
    const tuning: PipeTuning
    const groundLevel: real
    var pipes: seq<PipePair>
    var scrollX: real
    var score: real
    var speed: real

    function View(): seq<Pipe>
      reads this, pipes
    {
      Values(pipes)
    }

    /** The world's own score is never changed from 0, and the queue stays
        ordered and inside the margins wherever they leave room for a gap. */
    predicate Valid()
      reads this, pipes
    {
      Distinct(pipes) && score == 0.0 && QueueInvariant(View(), tuning)
    }

    constructor(rng: RNG, tuning: PipeTuning, groundLevel: real)
      ensures this.rng == rng && this.tuning == tuning && this.groundLevel == groundLevel
      ensures pipes == [] && scrollX == 0.0 && score == 0.0 && speed == SPEED_BASE
      ensures Valid()
    {
      this.rng := rng;
      this.tuning := tuning;
      this.groundLevel := groundLevel;
      pipes := [];
      scrollX := 0.0;
      score := 0.0;
      speed := SPEED_BASE;
    }

    /** reset empties the queue and restores the initial scroll state. */
    method Reset()
      modifies this
      ensures pipes == [] && scrollX == 0.0 && score == 0.0 && speed == SPEED_BASE
      ensures Valid()
    {
      pipes := [];
      scrollX := 0.0;
      score := 0.0;
      speed := SPEED_BASE;
    }

    /** createNextPipe: a fresh pipe pair equal to NewPipe against the current
        tail, drawing from the generator only when the bottom pipe is not
        pinned. */
    method CreateNextPipe(x: real, score: real, birdHeight: real) returns (pipe: PipePair)
      modifies rng
      ensures fresh(pipe)
      ensures var c := DrawCenter(tuning, old(rng.seed));
        pipe.Value() == NewPipe(x, score, birdHeight, tuning, Last(View()), c.u) && rng.seed == c.seed
    {
      ghost var c := DrawCenter(tuning, old(rng.seed));
      ghost var prev := Last(View());
      var gapSize := GapAtScore(score, birdHeight);
      var minCenter := MinCenter(tuning, gapSize);
      var maxCenter := MaxCenter(tuning, gapSize);
      var centerY: real;
      if tuning.bottomStartY.Some? {
        var bottomY := Max(minCenter + gapSize / 2.0, Min(maxCenter + gapSize / 2.0, tuning.bottomStartY.value));
        centerY := bottomY - gapSize / 2.0;
      } else {
        centerY := rng.NextRange(minCenter, maxCenter);
      }
      assert centerY == Candidate(tuning, gapSize, c.u);
      if |pipes| > 0 {
        var last := pipes[|pipes| - 1];
        assert prev == Some(last.Value());
        centerY := ClampToLast(tuning, x, score, gapSize, centerY, last.Value());
      }
      pipe := new PipePair(x, centerY, gapSize);
    }

    /** The fairness clamp of createNextPipe against the tail pair `last`:
        the reach in the time the tail takes to scroll to `x`, at the speed
        for `score`. */
    static method ClampToLast(t: PipeTuning, x: real, score: real, gapSize: real, candidate: real, last: Pipe)
      returns (centerY: real)
      ensures var time := TimeAvailable(x, last.x, score);
        centerY == Clamp(candidate, AllowedMin(t, gapSize, last.gapCenterY, time),
                         AllowedMax(t, gapSize, last.gapCenterY, time),
                         MinCenter(t, gapSize), MaxCenter(t, gapSize), last.gapCenterY)
    {
      var minCenter := MinCenter(t, gapSize);
      var maxCenter := MaxCenter(t, gapSize);
      var dx := Max(0.0, x - last.x);
      var speedForScore := SPEED_BASE * Ramp(score);
      var tAvail := dx / Max(SPEED_EPSILON, speedForScore);
      var upCap := MaxUpwardReach(tAvail);
      var downCap := DownwardReach(tAvail);
      var allowedMin := Max(minCenter, last.gapCenterY - upCap);
      var allowedMax := Min(maxCenter, last.gapCenterY + downCap);
      assert tAvail == TimeAvailable(x, last.x, score);
      centerY := candidate;
      if allowedMin <= allowedMax {
        if centerY < allowedMin {
          centerY := allowedMin;
        }
        if centerY > allowedMax {
          centerY := allowedMax;
        }
      } else {
        centerY := Min(maxCenter, Max(minCenter, last.gapCenterY));
      }
    }

    /** spawnIfNeeded, proved to act as Spawn on the queue and the generator
        state; the world's score it passes on is always 0. */
    method SpawnIfNeeded(birdHeight: real)
      requires Valid()
      modifies this, rng
      ensures Valid()
      ensures var s := Spawn(old(View()), old(rng.seed), score, birdHeight, tuning);
        View() == s.pipes && rng.seed == s.seed
      ensures scrollX == old(scrollX) && score == old(score) && speed == old(speed)
    {
      ghost var before := View();
      ghost var seed := rng.seed;
      AppendIfNeeded(birdHeight);
      SpawnKeepsInvariant(before, seed, score, birdHeight, tuning);
    }

    /** The body of spawnIfNeeded: the first pipe pair on an empty queue,
        otherwise one more pair once the tail is close enough. */
    method AppendIfNeeded(birdHeight: real)
      requires Distinct(pipes)
      modifies this, rng
      ensures Distinct(pipes)
      ensures var s := Spawn(old(View()), old(rng.seed), score, birdHeight, tuning);
        View() == s.pipes && rng.seed == s.seed
      ensures scrollX == old(scrollX) && score == old(score) && speed == old(speed)
    {
      if |pipes| == 0 {
        AppendFirst(birdHeight);
      } else {
        var last := pipes[|pipes| - 1];
        assert last.Value() == View()[|pipes| - 1];
        if last.x + PIPE_WIDTH < DESIGN_WIDTH + SPACING {
          AppendNext(birdHeight);
        }
      }
    }

    /** The first branch of spawnIfNeeded. */
    method AppendFirst(birdHeight: real)
      requires pipes == []
      modifies this, rng
      ensures var m := FirstPipe(old(rng.seed), birdHeight, tuning);
        View() == [m.pipe] && rng.seed == m.seed
      ensures Distinct(pipes)
      ensures scrollX == old(scrollX) && score == old(score) && speed == old(speed)
    {
      var first := CreateNextPipe(FIRST_PIPE_X, 0.0, birdHeight);
      Push(first);
    }

    /** The second branch of spawnIfNeeded, once the tail is close enough. */
    method AppendNext(birdHeight: real)
      requires Distinct(pipes) && |pipes| > 0
      modifies this, rng
      ensures var m := NextPipe(old(View()), old(rng.seed), score, birdHeight, tuning);
        View() == old(View()) + [m.pipe] && rng.seed == m.seed
      ensures Distinct(pipes)
      ensures scrollX == old(scrollX) && score == old(score) && speed == old(speed)
    {
      var next := CreateAfterTail(birdHeight);
      Push(next);
    }

    /** The second branch of spawnIfNeeded up to the push: the jittered
        spacing after the tail, then the pipe pair built against it. */
    method CreateAfterTail(birdHeight: real) returns (next: PipePair)
      requires |pipes| > 0
      modifies rng
      ensures fresh(next)
      ensures var m := NextPipe(View(), old(rng.seed), score, birdHeight, tuning);
        next.Value() == m.pipe && rng.seed == m.seed
    {
      var last := pipes[|pipes| - 1];
      var jitter := rng.NextRange(-SPACING_JITTER, SPACING_JITTER);
      var nextX := last.x + SPACING + jitter;
      assert nextX == NextX(last.x, Draw(rng.seed));
      next := CreateNextPipe(nextX, score, birdHeight);
    }

    /** The push onto the end of the queue. */
    method Push(pipe: PipePair)
      requires Distinct(pipes) && pipe !in pipes
      modifies this
      ensures pipes == old(pipes) + [pipe]
      ensures View() == old(View()) + [pipe.Value()]
      ensures Distinct(pipes)
      ensures scrollX == old(scrollX) && score == old(score) && speed == old(speed)
    {
      assert forall j :: 0 <= j < |pipes| ==> PairAt(pipes + [pipe], j) == PairAt(pipes, j);
      pipes := pipes + [pipe];
    }

    /** step: every pipe moves left by the same speed * dt, with the speed
        set from the caller's score; then off-screen pipes leave the head. */
    method Step(dt: real, score: real)
      requires Valid()
      modifies this, pipes
      ensures Valid()
      ensures speed == SPEED_BASE * Ramp(score)
      ensures View() == Evict(Scroll(old(View()), Travel(speed, dt)))
      ensures scrollX == old(scrollX) && this.score == old(this.score)
    {
      ghost var before := View();
      speed := SPEED_BASE * Ramp(score);
      var d := Travel(speed, dt);
      assert View() == before;
      ShiftPipes(d);
      ghost var scrolled := View();
      assert scrolled == Scroll(before, d);
      ScrollKeepsInvariant(before, d, tuning);
      EvictOffScreen();
      assert View() == Evict(scrolled);
      EvictKeepsInvariant(scrolled, tuning);
    }

    /** The loop of step that moves every pipe pair left by `d` in place. */
    method ShiftPipes(d: real)
      requires Distinct(pipes)
      modifies pipes
      ensures View() == Scroll(old(View()), d)
    {
      ghost var before := View();
      var i := 0;
      while i < |pipes|
        invariant 0 <= i <= |pipes| == |before|
        invariant forall k :: 0 <= k < i ==> pipes[k].Value() == before[k].(x := before[k].x - d)
        invariant forall k :: i <= k < |pipes| ==> pipes[k].Value() == before[k]
      {
        DistinctAt(pipes, i);
        pipes[i].x := pipes[i].x - d;
        i := i + 1;
      }
    }

    /** The loop of step that drops off-screen pipe pairs from the head. */
    method EvictOffScreen()
      requires Distinct(pipes)
      modifies this
      ensures View() == Evict(old(View()))
      ensures Distinct(pipes)
      ensures speed == old(speed) && scrollX == old(scrollX) && score == old(score)
    {
      ghost var before := View();
      ghost var k := 0;
      while |pipes| > 0 && pipes[0].x + PIPE_WIDTH < EVICT_MARGIN
        invariant 0 <= k <= |before| && View() == before[k..]
        invariant forall i :: 0 <= i < k ==> OffScreen(before[i])
        invariant Distinct(pipes)
        invariant speed == old(speed) && scrollX == old(scrollX) && score == old(score)
        decreases |pipes|
      {
        ghost var current := View();
        assert forall j :: 0 <= j < |pipes| - 1 ==> PairAt(pipes[1..], j) == PairAt(pipes, j + 1);
        pipes := pipes[1..];
        assert View() == current[1..];
        k := k + 1;
      }
      EvictDropsPrefix(before, k);
    }

    /** checkScoreAndCollisions, proved to act as Check: the callbacks it
        fires are returned in order as events, and only scored flags change,
        so the queue stays valid. */
    method CheckScoreAndCollisions(bird: Bird, ghostMode: bool) returns (hit: bool, events: seq<Event>)
      requires Valid()
      modifies pipes
      ensures var out := Check(old(View()), bird.GetAABB(), ghostMode, groundLevel);
        hit == out.hit && events == out.events && View() == out.pipes
      ensures Valid()
    {
      var birdBox := bird.GetAABB();
      ghost var before := View();
      CheckOnlySetsFlags(before, birdBox, ghostMode, groundLevel);
      SameGeometryKeepsInvariant(before, Check(before, birdBox, ghostMode, groundLevel).pipes, tuning);
      hit, events := VisitPipes(birdBox, ghostMode);
      if hit {
        return;
      }
      if !ghostMode && (bird.y + bird.height >= groundLevel || bird.y <= 0.0) {
        events := events + [Hit];
        hit := true;
      }
    }

    /** The loop of checkScoreAndCollisions over the queue: each pipe pair
        is scored, then tested for overlap, and the first overlap ends it. */
    method VisitPipes(birdBox: AABB, ghostMode: bool) returns (hit: bool, events: seq<Event>)
      requires Distinct(pipes)
      modifies pipes
      ensures var out := Visit(old(View()), birdBox, ghostMode);
        hit == out.hit && events == out.events && View() == out.pipes
    {
      ghost var before := View();
      hit := false;
      events := [];
      var i := 0;
      while i < |pipes|
        invariant 0 <= i <= |pipes| == |before|
        invariant forall j {:trigger HitsPipe(before[j], birdBox)} :: 0 <= j < i ==> ghostMode || !HitsPipe(before[j], birdBox)
        invariant forall k :: 0 <= k < i ==> pipes[k].Value() == Mark(before[k], birdBox.x)
        invariant forall k :: i <= k < |pipes| ==> pipes[k].Value() == before[k]
        invariant events == PassEvents(before[..i], birdBox.x)
      {
        var overlaps;
        events, overlaps := VisitPipe(before, i, birdBox, events);
        if !ghostMode && overlaps {
          events := events + [Hit];
          hit := true;
          VisitAtHit(before, birdBox, i);
          ViewAfterMarking(before, i + 1, birdBox.x);
          return;
        }
        i := i + 1;
      }
      assert before[..i] == before;
      VisitWithoutHit(before, birdBox, ghostMode);
      ViewAfterMarking(before, i, birdBox.x);
    }

    /** The body of the loop for the pair at `i`: it is scored (and a Pass
        event recorded) when the bird has passed it, then tested for
        overlap; no other pair changes. */
    method VisitPipe(ghost before: seq<Pipe>, i: nat, birdBox: AABB, events: seq<Event>)
      returns (events': seq<Event>, overlaps: bool)
      requires Distinct(pipes)
      requires i < |pipes| == |before|
      requires forall k :: 0 <= k < i ==> pipes[k].Value() == Mark(before[k], birdBox.x)
      requires forall k :: i <= k < |pipes| ==> pipes[k].Value() == before[k]
      requires events == PassEvents(before[..i], birdBox.x)
      modifies pipes[i]
      ensures forall k :: 0 <= k <= i ==> pipes[k].Value() == Mark(before[k], birdBox.x)
      ensures forall k :: i < k < |pipes| ==> pipes[k].Value() == before[k]
      ensures events' == PassEvents(before[..i + 1], birdBox.x)
      ensures overlaps == HitsPipe(before[i], birdBox)
    {
      DistinctAt(pipes, i);
      PassEventsOneMore(before, i, birdBox.x);
      var pipe := pipes[i];
      events' := events;
      if !pipe.passed && pipe.x + PIPE_WIDTH < birdBox.x {
        pipe.passed := true;
        events' := events' + [Pass];
      }
      overlaps := Overlaps(pipe, birdBox);
      HitsPipeIgnoresMark(before[i], birdBox.x, birdBox);
    }

    /** The collision test of checkScoreAndCollisions on one pipe pair. */
    static method Overlaps(pipe: PipePair, birdBox: AABB) returns (b: bool)
      ensures b == HitsPipe(pipe.Value(), birdBox)
    {
      var segments := pipe.GetAABBs();
      b := Overlap(birdBox, segments.top) || Overlap(birdBox, segments.bottom);
    }

    /** The value view after the first `n` pairs have been marked. */
    lemma ViewAfterMarking(before: seq<Pipe>, n: nat, birdX: real)
      requires n <= |pipes| == |before|
      requires forall k :: 0 <= k < n ==> pipes[k].Value() == Mark(before[k], birdX)
      requires forall k :: n <= k < |pipes| ==> pipes[k].Value() == before[k]
      ensures View() == MarkAll(before[..n], birdX) + before[n..]
    {
    }
  }
}
