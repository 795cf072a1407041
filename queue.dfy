/** The world's pipe queue as a sequence of pipe values: scrolling, eviction
    from the head, spawning at the tail, and the invariants these keep. */
module Queue {
  import opened Wrappers
  import opened Config
  import opened Rng
  import opened Pipes
  import opened Generator

  /** A pipe whose right edge is this far left of the field is evicted. */
  const EVICT_MARGIN: real := -20.0

  predicate OffScreen(p: Pipe) {
    p.x + PIPE_WIDTH < EVICT_MARGIN
  }

  /** The distance the field scrolls in `dt` seconds at `speed`. */
  function Travel(speed: real, dt: real): real {
    speed * dt
  }

  /** Every pipe moved left by `d`. */
  function Scroll(ps: seq<Pipe>, d: real): seq<Pipe> {
    seq(|ps|, i requires 0 <= i < |ps| => ps[i].(x := ps[i].x - d))
  }

  /** Eviction from the head: drops the longest off-screen prefix. */
  function Evict(ps: seq<Pipe>): (qs: seq<Pipe>)
    ensures |qs| <= |ps| && qs == ps[|ps| - |qs|..]
    ensures forall i :: 0 <= i < |ps| - |qs| ==> OffScreen(ps[i])
    ensures |qs| > 0 ==> !OffScreen(qs[0])
  {
    if |ps| > 0 && OffScreen(ps[0]) then Evict(ps[1..]) else ps
  }

  /** Evict removes exactly the off-screen pipes ahead of the first one
      still on screen. */
  lemma {:induction false} EvictDropsPrefix(ps: seq<Pipe>, k: nat)
    requires k <= |ps|
    requires forall i :: 0 <= i < k ==> OffScreen(ps[i])
    requires k == |ps| || !OffScreen(ps[k])
    ensures Evict(ps) == ps[k..]
  {
    if k > 0 {
      EvictDropsPrefix(ps[1..], k - 1);
      assert ps[1..][k - 1..] == ps[k..];
    }
  }

  function Last(ps: seq<Pipe>): Option<Pipe> {
    if |ps| == 0 then None else Some(ps[|ps| - 1])
  }

  /** The draw the centre takes and the generator state after it: none when
      the bottom pipe is pinned, one otherwise. */
  datatype CenterDraw = CenterDraw(u: real, seed: bv32)

  function DrawCenter(t: PipeTuning, seed: bv32): (c: CenterDraw)
    ensures 0.0 <= c.u < 1.0
    ensures t.bottomStartY.Some? ==> c.seed == seed
    ensures t.bottomStartY.None? ==> c.seed == Step(seed) && c.u == Draw(c.seed)
  {
    if t.bottomStartY.Some? then CenterDraw(0.0, seed) else CenterDraw(Draw(Step(seed)), Step(seed))
  }

  datatype Spawned = Spawned(pipes: seq<Pipe>, seed: bv32)

  /** A pipe made by createNextPipe and the generator state after it. */
  datatype Made = Made(pipe: Pipe, seed: bv32)

  /** The first pipe: at FIRST_PIPE_X, built with score 0 and no previous
      pipe. */
  function FirstPipe(seed: bv32, birdHeight: real, t: PipeTuning): Made {
    var c := DrawCenter(t, seed);
    Made(NewPipe(FIRST_PIPE_X, 0.0, birdHeight, t, None, c.u), c.seed)
  }

  /** The pipe after the tail: a jittered spacing (one draw), then the pipe
      built against the tail. */
  function NextPipe(ps: seq<Pipe>, seed: bv32, score: real, birdHeight: real, t: PipeTuning): Made
    requires |ps| > 0
  {
    var jitterSeed := Step(seed);
    var c := DrawCenter(t, jitterSeed);
    Made(NewPipe(NextX(ps[|ps| - 1].x, Draw(jitterSeed)), score, birdHeight, t, Last(ps), c.u), c.seed)
  }

  /** spawnIfNeeded on values: the first pipe when the queue is empty;
      afterwards, once the last pipe is close enough, one more pipe. */
  function Spawn(ps: seq<Pipe>, seed: bv32, score: real, birdHeight: real, t: PipeTuning): Spawned {
    if |ps| == 0 then
      var m := FirstPipe(seed, birdHeight, t);
      Spawned([m.pipe], m.seed)
    else if NeedsSpawn(ps[|ps| - 1]) then
      var m := NextPipe(ps, seed, score, birdHeight, t);
      Spawned(ps + [m.pipe], m.seed)
    else
      Spawned(ps, seed)
  }

  /** x strictly increases from each pipe to the next. */
  predicate Ordered(ps: seq<Pipe>) {
    forall i :: 0 < i < |ps| ==> ps[i - 1].x < ps[i].x
  }

  /** An ordered queue is sorted by x: every pipe lies left of every later
      one. */
  lemma {:induction false} OrderedSorted(ps: seq<Pipe>, i: nat, j: nat)
    requires Ordered(ps)
    requires i < j < |ps|
    ensures ps[i].x < ps[j].x
    decreases j - i
  {
    if i + 1 < j {
      OrderedSorted(ps, i + 1, j);
    }
  }

  /** Every gap whose band is not empty lies inside it. */
  predicate Banded(ps: seq<Pipe>, t: PipeTuning) {
    forall i :: 0 <= i < |ps| ==>
      (MinCenter(t, ps[i].gapSize) <= MaxCenter(t, ps[i].gapSize) ==> InBand(ps[i].gapCenterY, t, ps[i].gapSize))
  }

  /** Every gap is reachable from the one before it, whenever that one lies
      in the later pipe's band. Time is measured at the scroll speed for
      `score`, as Reachable says. */
  predicate Fair(ps: seq<Pipe>, t: PipeTuning, score: real) {
    forall i :: 0 < i < |ps| ==>
      (InBand(ps[i - 1].gapCenterY, t, ps[i].gapSize) ==> Reachable(ps[i - 1], ps[i], score))
  }

  /** The shape the world keeps its queue in: ordered, and every gap inside
      the margins wherever they leave room for it. */
  predicate QueueInvariant(ps: seq<Pipe>, t: PipeTuning) {
    Ordered(ps) && Banded(ps, t)
  }

  lemma ScrollKeepsInvariant(ps: seq<Pipe>, d: real, t: PipeTuning)
    requires QueueInvariant(ps, t)
    ensures QueueInvariant(Scroll(ps, d), t)
  {
  }

  /** Scrolling moves every pipe by the same amount, so the distances, and
      with them the time between consecutive gaps, are unchanged. */
  lemma ScrollKeepsFair(ps: seq<Pipe>, d: real, t: PipeTuning, score: real)
    requires Fair(ps, t, score)
    ensures Fair(Scroll(ps, d), t, score)
  {
    var qs := Scroll(ps, d);
    forall i | 0 < i < |qs|
      ensures InBand(qs[i - 1].gapCenterY, t, qs[i].gapSize) ==> Reachable(qs[i - 1], qs[i], score)
    {
      assert qs[i].x - qs[i - 1].x == ps[i].x - ps[i - 1].x;
      assert TimeAvailable(qs[i].x, qs[i - 1].x, score) == TimeAvailable(ps[i].x, ps[i - 1].x, score);
    }
  }

  lemma SuffixKeepsInvariant(ps: seq<Pipe>, k: nat, t: PipeTuning)
    requires k <= |ps|
    requires QueueInvariant(ps, t)
    ensures QueueInvariant(ps[k..], t)
  {
  }

  lemma SuffixKeepsFair(ps: seq<Pipe>, k: nat, t: PipeTuning, score: real)
    requires k <= |ps|
    requires Fair(ps, t, score)
    ensures Fair(ps[k..], t, score)
  {
    var qs := ps[k..];
    forall i | 0 < i < |qs|
      ensures InBand(qs[i - 1].gapCenterY, t, qs[i].gapSize) ==> Reachable(qs[i - 1], qs[i], score)
    {
      assert qs[i - 1] == ps[k + i - 1] && qs[i] == ps[k + i];
    }
  }

  lemma EvictKeepsInvariant(ps: seq<Pipe>, t: PipeTuning)
    requires QueueInvariant(ps, t)
    ensures QueueInvariant(Evict(ps), t)
  {
    var qs := Evict(ps);
    SuffixKeepsInvariant(ps, |ps| - |qs|, t);
  }

  lemma EvictKeepsFair(ps: seq<Pipe>, t: PipeTuning, score: real)
    requires Fair(ps, t, score)
    ensures Fair(Evict(ps), t, score)
  {
    var qs := Evict(ps);
    SuffixKeepsFair(ps, |ps| - |qs|, t, score);
  }

  /** Two queues that differ at most in the scored flags. */
  predicate SameGeometry(ps: seq<Pipe>, qs: seq<Pipe>) {
    |ps| == |qs| &&
    forall i :: 0 <= i < |ps| ==> qs[i] == ps[i].(passed := qs[i].passed)
  }

  lemma SameGeometryKeepsInvariant(ps: seq<Pipe>, qs: seq<Pipe>, t: PipeTuning)
    requires SameGeometry(ps, qs)
    requires QueueInvariant(ps, t)
    ensures QueueInvariant(qs, t)
  {
    assert forall i :: 0 <= i < |qs| ==> qs[i].x == ps[i].x;
  }

  lemma SameGeometryKeepsFair(ps: seq<Pipe>, qs: seq<Pipe>, t: PipeTuning, score: real)
    requires SameGeometry(ps, qs)
    requires Fair(ps, t, score)
    ensures Fair(qs, t, score)
  {
    forall i | 0 < i < |qs|
      ensures InBand(qs[i - 1].gapCenterY, t, qs[i].gapSize) ==> Reachable(qs[i - 1], qs[i], score)
    {
      assert qs[i - 1].x == ps[i - 1].x && qs[i - 1].gapCenterY == ps[i - 1].gapCenterY;
      assert qs[i].x == ps[i].x && qs[i].gapCenterY == ps[i].gapCenterY && qs[i].gapSize == ps[i].gapSize;
    }
  }

  /** What spawning does to the queue: at most one pipe is appended, at the
      tail, existing pipes untouched; the first pipe of an empty queue sits at
      FIRST_PIPE_X with the score-0 gap; a later one only when the last pipe
      is close enough, within the jitter of the nominal spacing after it. */
  lemma SpawnAppendsAtMostOne(ps: seq<Pipe>, seed: bv32, score: real, birdHeight: real, t: PipeTuning)
    ensures var qs := Spawn(ps, seed, score, birdHeight, t).pipes;
      && |ps| <= |qs| <= |ps| + 1
      && qs[..|ps|] == ps
      && (|ps| == 0 ==> |qs| == 1 && qs[0].x == FIRST_PIPE_X &&
                          qs[0].gapSize == GapAtScore(0.0, birdHeight) && !qs[0].passed)
      && (|ps| > 0 ==> (|qs| == |ps| + 1 <==> NeedsSpawn(ps[|ps| - 1])))
      && (|ps| > 0 && |qs| == |ps| + 1 ==>
            ps[|ps| - 1].x + SPACING - SPACING_JITTER <= qs[|ps|].x < ps[|ps| - 1].x + SPACING + SPACING_JITTER &&
            qs[|ps|].gapSize == GapAtScore(score, birdHeight) && !qs[|ps|].passed)
  {
  }

  /** Appending a pipe right of the tail and inside its band keeps the
      queue ordered and banded. */
  lemma AppendKeepsInvariant(ps: seq<Pipe>, p: Pipe, t: PipeTuning)
    requires QueueInvariant(ps, t)
    requires |ps| > 0 ==> ps[|ps| - 1].x < p.x
    requires MinCenter(t, p.gapSize) <= MaxCenter(t, p.gapSize) ==> InBand(p.gapCenterY, t, p.gapSize)
    ensures QueueInvariant(ps + [p], t)
  {
    var qs := ps + [p];
    assert forall i :: 0 <= i < |ps| ==> qs[i] == ps[i];
  }

  /** Spawning keeps the queue ordered and inside the margins. */
  lemma SpawnKeepsInvariant(ps: seq<Pipe>, seed: bv32, score: real, birdHeight: real, t: PipeTuning)
    requires QueueInvariant(ps, t)
    ensures QueueInvariant(Spawn(ps, seed, score, birdHeight, t).pipes, t)
  {
    if |ps| == 0 {
      AppendKeepsInvariant(ps, NewPipe(FIRST_PIPE_X, 0.0, birdHeight, t, None, DrawCenter(t, seed).u), t);
    } else if NeedsSpawn(ps[|ps| - 1]) {
      var jitterSeed := Step(seed);
      var x := NextX(ps[|ps| - 1].x, Draw(jitterSeed));
      AppendKeepsInvariant(ps, NewPipe(x, score, birdHeight, t, Last(ps), DrawCenter(t, jitterSeed).u), t);
    }
  }

  /** A pipe generated against the tail keeps every consecutive pair
      reachable. */
  lemma AppendNewPipeKeepsFair(ps: seq<Pipe>, x: real, score: real, birdHeight: real, t: PipeTuning, u: real)
    requires 0.0 <= u < 1.0
    requires Fair(ps, t, score)
    ensures Fair(ps + [NewPipe(x, score, birdHeight, t, Last(ps), u)], t, score)
  {
    var p := NewPipe(x, score, birdHeight, t, Last(ps), u);
    var qs := ps + [p];
    assert forall i :: 0 <= i < |ps| ==> qs[i] == ps[i];
    if |ps| > 0 && InBand(ps[|ps| - 1].gapCenterY, t, p.gapSize) {
      NewPipeReachable(x, score, birdHeight, t, ps[|ps| - 1], u);
    }
  }

  /** The fairness guarantee of the generator holds for the whole queue:
      spawning keeps every consecutive pair reachable. */
  lemma SpawnKeepsFair(ps: seq<Pipe>, seed: bv32, score: real, birdHeight: real, t: PipeTuning)
    requires Fair(ps, t, score)
    ensures Fair(Spawn(ps, seed, score, birdHeight, t).pipes, t, score)
  {
    if |ps| > 0 && NeedsSpawn(ps[|ps| - 1]) {
      var jitterSeed := Step(seed);
      var x := NextX(ps[|ps| - 1].x, Draw(jitterSeed));
      AppendNewPipeKeepsFair(ps, x, score, birdHeight, t, DrawCenter(t, jitterSeed).u);
    }
  }
}
