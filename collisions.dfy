/** checkScoreAndCollisions of src/world.js on pipe values: which pipes get
    scored, which callbacks fire in which order, and when the run ends. */
module Collisions {
  import opened Config
  import opened Physics
  import opened Pipes
  import opened Queue

  /** The callbacks, recorded in the order they fire: onPass and onHit. */
  datatype Event = Pass | Hit

  /** The pipe is scored on this call: not yet passed, and its right edge is
      left of the bird. */
  predicate Scores(p: Pipe, birdX: real) {
    !p.passed && p.x + PIPE_WIDTH < birdX
  }

  function Mark(p: Pipe, birdX: real): Pipe {
    if Scores(p, birdX) then p.(passed := true) else p
  }

  function MarkAll(ps: seq<Pipe>, birdX: real): seq<Pipe> {
    seq(|ps|, i requires 0 <= i < |ps| => Mark(ps[i], birdX))
  }

  /** One onPass per pipe scored, in queue order. */
  function PassEvents(ps: seq<Pipe>, birdX: real): seq<Event> {
    if |ps| == 0 then []
    else PassEvents(ps[..|ps| - 1], birdX) + (if Scores(ps[|ps| - 1], birdX) then [Pass] else [])
  }

  /** Index of the first pipe the bird box overlaps, or |ps| when there is
      none or collisions are bypassed. */
  function FirstHit(ps: seq<Pipe>, box: AABB, ghostMode: bool): (k: nat)
    ensures k <= |ps|
    ensures ghostMode ==> k == |ps|
    ensures k < |ps| ==> HitsPipe(ps[k], box)
    ensures forall j {:trigger HitsPipe(ps[j], box)} :: 0 <= j < k ==> ghostMode || !HitsPipe(ps[j], box)
  {
    if ghostMode || |ps| == 0 then |ps|
    else if HitsPipe(ps[0], box) then 0
    else 1 + FirstHit(ps[1..], box, ghostMode)
  }

  /** The bird touches the ground line or the top of the field. */
  predicate OutOfField(box: AABB, groundLevel: real) {
    box.y + box.h >= groundLevel || box.y <= 0.0
  }

  /** The result, the callbacks fired and the pipes afterwards. */
  datatype Outcome = Outcome(hit: bool, events: seq<Event>, pipes: seq<Pipe>)

  /** checkScoreAndCollisions: pipes are visited in order, each scored pipe
      fires onPass; the first overlapping pipe fires onHit and ends the
      visit; otherwise the ground and ceiling are tested. With ghostMode no
      hit is reported. */
  function Check(ps: seq<Pipe>, box: AABB, ghostMode: bool, groundLevel: real): Outcome {
    var v := Visit(ps, box, ghostMode);
    if !v.hit && !ghostMode && OutOfField(box, groundLevel) then
      Outcome(true, v.events + [Hit], v.pipes)
    else
      v
  }

  /** The visit of the queue alone: it stops at the first overlapping pipe. */
  function Visit(ps: seq<Pipe>, box: AABB, ghostMode: bool): Outcome {
    var k := FirstHit(ps, box, ghostMode);
    if k < |ps| then
      Outcome(true, PassEvents(ps[..k + 1], box.x) + [Hit], MarkAll(ps[..k + 1], box.x) + ps[k + 1..])
    else
      Outcome(false, PassEvents(ps, box.x), MarkAll(ps, box.x))
  }

  function CountPassed(ps: seq<Pipe>): nat {
    if |ps| == 0 then 0
    else CountPassed(ps[..|ps| - 1]) + (if ps[|ps| - 1].passed then 1 else 0)
  }

  function PassCount(es: seq<Event>): nat {
    if |es| == 0 then 0
    else PassCount(es[..|es| - 1]) + (if es[|es| - 1] == Pass then 1 else 0)
  }

  lemma {:induction false} CountPassedAppend(a: seq<Pipe>, b: seq<Pipe>)
    ensures CountPassed(a + b) == CountPassed(a) + CountPassed(b)
    decreases |b|
  {
    if |b| == 0 {
      assert a + b == a;
    } else {
      CountPassedAppend(a, b[..|b| - 1]);
      assert (a + b)[..|a + b| - 1] == a + b[..|b| - 1];
    }
  }

  /** Each onPass corresponds to exactly one flag set by the marking. */
  lemma {:induction false} PassEventsCount(ps: seq<Pipe>, birdX: real)
    ensures PassCount(PassEvents(ps, birdX)) + CountPassed(ps) == CountPassed(MarkAll(ps, birdX))
  {
    if |ps| > 0 {
      var pre := ps[..|ps| - 1];
      PassEventsCount(pre, birdX);
      assert MarkAll(ps, birdX)[..|ps| - 1] == MarkAll(pre, birdX);
      var es := PassEvents(pre, birdX);
      if Scores(ps[|ps| - 1], birdX) {
        assert (es + [Pass])[..|es|] == es;
      } else {
        assert es + [] == es;
      }
    }
  }

  lemma {:induction false} PassEventsArePasses(ps: seq<Pipe>, birdX: real)
    ensures Hit !in PassEvents(ps, birdX)
  {
    if |ps| > 0 {
      PassEventsArePasses(ps[..|ps| - 1], birdX);
    }
  }

  /** Marking already-marked pipes scores nothing more. */
  lemma {:induction false} PassEventsAfterMark(ps: seq<Pipe>, birdX: real)
    ensures PassEvents(MarkAll(ps, birdX), birdX) == []
  {
    if |ps| > 0 {
      PassEventsAfterMark(ps[..|ps| - 1], birdX);
      assert MarkAll(ps, birdX)[..|ps| - 1] == MarkAll(ps[..|ps| - 1], birdX);
    }
  }

  lemma HitsPipeIgnoresPassed(p: Pipe, b: bool, box: AABB)
    ensures HitsPipe(p.(passed := b), box) == HitsPipe(p, box)
  {
    assert Boxes(p.(passed := b), HITBOX) == Boxes(p, HITBOX);
  }

  lemma HitsPipeIgnoresMark(p: Pipe, birdX: real, box: AABB)
    ensures HitsPipe(Mark(p, birdX), box) == HitsPipe(p, box)
  {
    HitsPipeIgnoresPassed(p, true, box);
  }

  /** The queue after the first `n` pipes are marked, pipe by pipe. */
  lemma MarkPrefixAt(ps: seq<Pipe>, n: nat, birdX: real)
    requires n <= |ps|
    ensures |MarkAll(ps[..n], birdX) + ps[n..]| == |ps|
    ensures forall i :: 0 <= i < |ps| ==>
      (MarkAll(ps[..n], birdX) + ps[n..])[i] == if i < n then Mark(ps[i], birdX) else ps[i]
  {
  }

  /** Marking a pipe only sets its flag, and only when the bird has passed it. */
  predicate MarkedFrom(p: Pipe, q: Pipe, birdX: real) {
    && q == p.(passed := q.passed)
    && (p.passed ==> q.passed)
    && (q.passed && !p.passed ==> p.x + PIPE_WIDTH < birdX)
  }

  lemma VisitOnlySetsFlags(ps: seq<Pipe>, box: AABB, ghostMode: bool)
    ensures var qs := Visit(ps, box, ghostMode).pipes;
      |qs| == |ps| && forall i :: 0 <= i < |ps| ==> MarkedFrom(ps[i], qs[i], box.x)
  {
    var k := FirstHit(ps, box, ghostMode);
    var n := if k < |ps| then k + 1 else |ps|;
    MarkPrefixAt(ps, n, box.x);
    assert ps[..|ps|] == ps;
    assert ps[|ps|..] == [];
    assert MarkAll(ps, box.x) + [] == MarkAll(ps, box.x);
  }

  /** Only the scored flags change; a flag is never cleared, and it is set
      only for a pipe whose right edge is left of the bird. */
  lemma CheckOnlySetsFlags(ps: seq<Pipe>, box: AABB, ghostMode: bool, groundLevel: real)
    ensures var out := Check(ps, box, ghostMode, groundLevel);
      && SameGeometry(ps, out.pipes)
      && (forall i :: 0 <= i < |ps| && ps[i].passed ==> out.pipes[i].passed)
      && (forall i :: 0 <= i < |ps| && out.pipes[i].passed && !ps[i].passed ==> ps[i].x + PIPE_WIDTH < box.x)
  {
    VisitOnlySetsFlags(ps, box, ghostMode);
  }

  /** onHit does not count as an onPass. */
  lemma PassCountHit(es: seq<Event>)
    ensures PassCount(es + [Hit]) == PassCount(es)
  {
    assert (es + [Hit])[..|es|] == es;
  }

  /** In the visit alone, onPass fires once per flag it sets. */
  lemma VisitPassesMatchFlags(ps: seq<Pipe>, box: AABB, ghostMode: bool)
    ensures var v := Visit(ps, box, ghostMode);
      PassCount(v.events) + CountPassed(ps) == CountPassed(v.pipes)
  {
    var k := FirstHit(ps, box, ghostMode);
    if k < |ps| {
      var pre, suf := ps[..k + 1], ps[k + 1..];
      PassEventsCount(pre, box.x);
      PassCountHit(PassEvents(pre, box.x));
      CountPassedAppend(pre, suf);
      CountPassedAppend(MarkAll(pre, box.x), suf);
      assert pre + suf == ps;
    } else {
      PassEventsCount(ps, box.x);
    }
  }

  /** onPass fires exactly once per flag that goes from false to true. */
  lemma CheckPassesMatchFlags(ps: seq<Pipe>, box: AABB, ghostMode: bool, groundLevel: real)
    ensures var out := Check(ps, box, ghostMode, groundLevel);
      PassCount(out.events) + CountPassed(ps) == CountPassed(out.pipes)
  {
    var v := Visit(ps, box, ghostMode);
    VisitPassesMatchFlags(ps, box, ghostMode);
    PassCountHit(v.events);
  }

  /** With collisions bypassed nothing is reported hit, onHit never fires,
      and every pipe left of the bird is still scored. */
  lemma CheckGhostMode(ps: seq<Pipe>, box: AABB, groundLevel: real)
    ensures var out := Check(ps, box, true, groundLevel);
      && !out.hit
      && Hit !in out.events
      && out.pipes == MarkAll(ps, box.x)
  {
    PassEventsArePasses(ps, box.x);
  }

  /** Without ghost mode the call reports a hit exactly when the bird
      overlaps some pipe or leaves the field, and onHit fires exactly then,
      as the last callback. */
  lemma CheckHitIff(ps: seq<Pipe>, box: AABB, groundLevel: real)
    ensures var out := Check(ps, box, false, groundLevel);
      && (out.hit <==> (exists i :: 0 <= i < |ps| && HitsPipe(ps[i], box)) || OutOfField(box, groundLevel))
      && (out.hit <==> Hit in out.events)
      && (out.hit ==> out.events[|out.events| - 1] == Hit && Hit !in out.events[..|out.events| - 1])
  {
    var out := Check(ps, box, false, groundLevel);
    assert ps[..|ps|] == ps;
    var k := FirstHit(ps, box, false);
    var n := if k < |ps| then k + 1 else |ps|;
    PassEventsArePasses(ps[..n], box.x);
    if out.hit {
      var es := PassEvents(ps[..n], box.x);
      assert out.events == es + [Hit];
      assert out.events[..|out.events| - 1] == es;
    }
  }

  /** The visit stops at the first overlapping pipe: it and the pipes before
      it are marked, the pipes after it are left exactly as they were. */
  lemma CheckStopsAtFirstHit(ps: seq<Pipe>, box: AABB, groundLevel: real, i: nat)
    requires i < |ps| && HitsPipe(ps[i], box)
    requires forall j {:trigger HitsPipe(ps[j], box)} :: 0 <= j < i ==> !HitsPipe(ps[j], box)
    ensures var out := Check(ps, box, false, groundLevel);
      && out.hit
      && out.pipes[..i + 1] == MarkAll(ps[..i + 1], box.x)
      && out.pipes[i + 1..] == ps[i + 1..]
  {
    assert FirstHit(ps, box, false) == i;
  }

  /** Marking one more pipe of a partly marked queue. */
  lemma MarkOneMore(ps: seq<Pipe>, i: nat, birdX: real)
    requires i < |ps|
    ensures (MarkAll(ps[..i], birdX) + ps[i..])[i := Mark(ps[i], birdX)]
      == MarkAll(ps[..i + 1], birdX) + ps[i + 1..]
  {
  }

  /** The events of a visit that has gone one pipe further. */
  lemma PassEventsOneMore(ps: seq<Pipe>, i: nat, birdX: real)
    requires i < |ps|
    ensures PassEvents(ps[..i + 1], birdX)
      == PassEvents(ps[..i], birdX) + (if Scores(ps[i], birdX) then [Pass] else [])
  {
    assert ps[..i + 1][..i] == ps[..i];
  }

  /** The visit once it has stopped at pipe `i`. */
  lemma VisitAtHit(ps: seq<Pipe>, box: AABB, i: nat)
    requires i < |ps| && HitsPipe(ps[i], box)
    requires forall j {:trigger HitsPipe(ps[j], box)} :: 0 <= j < i ==> !HitsPipe(ps[j], box)
    ensures Visit(ps, box, false)
      == Outcome(true, PassEvents(ps[..i + 1], box.x) + [Hit], MarkAll(ps[..i + 1], box.x) + ps[i + 1..])
  {
    assert FirstHit(ps, box, false) == i;
  }

  /** The visit once every pipe has been visited without a hit. */
  lemma VisitWithoutHit(ps: seq<Pipe>, box: AABB, ghostMode: bool)
    requires forall j {:trigger HitsPipe(ps[j], box)} :: 0 <= j < |ps| ==> ghostMode || !HitsPipe(ps[j], box)
    ensures Visit(ps, box, ghostMode) == Outcome(false, PassEvents(ps, box.x), MarkAll(ps, box.x))
  {
    assert FirstHit(ps, box, ghostMode) == |ps|;
  }

  lemma FirstHitSameGeometry(ps: seq<Pipe>, qs: seq<Pipe>, box: AABB, ghostMode: bool)
    requires SameGeometry(ps, qs)
    ensures FirstHit(ps, box, ghostMode) == FirstHit(qs, box, ghostMode)
  {
    forall i | 0 <= i < |ps|
      ensures HitsPipe(qs[i], box) == HitsPipe(ps[i], box)
    {
      HitsPipeIgnoresPassed(ps[i], qs[i].passed, box);
    }
  }

  lemma MarkAllIdempotent(ps: seq<Pipe>, birdX: real)
    ensures MarkAll(MarkAll(ps, birdX), birdX) == MarkAll(ps, birdX)
  {
  }

  /** The visit repeated on the queue it left: nothing more is scored. */
  lemma VisitAgainScoresNothing(ps: seq<Pipe>, box: AABB, ghostMode: bool)
    ensures var once := Visit(ps, box, ghostMode);
      var twice := Visit(once.pipes, box, ghostMode);
      && twice.pipes == once.pipes
      && PassCount(twice.events) == 0
      && twice.hit == once.hit
  {
    var once := Visit(ps, box, ghostMode);
    VisitOnlySetsFlags(ps, box, ghostMode);
    assert SameGeometry(ps, once.pipes);
    FirstHitSameGeometry(ps, once.pipes, box, ghostMode);
    var k := FirstHit(ps, box, ghostMode);
    if k < |ps| {
      var marked := MarkAll(ps[..k + 1], box.x);
      assert once.pipes[..k + 1] == marked;
      assert once.pipes[k + 1..] == ps[k + 1..];
      MarkAllIdempotent(ps[..k + 1], box.x);
      PassEventsAfterMark(ps[..k + 1], box.x);
      assert PassEvents(once.pipes[..k + 1], box.x) + [Hit] == [Hit];
    } else {
      assert once.pipes == MarkAll(ps, box.x);
      MarkAllIdempotent(ps, box.x);
      PassEventsAfterMark(ps, box.x);
    }
    assert PassCount([Hit]) == 0;
  }

  /** Monotonic scoring: checking again with the bird where it is changes
      no pipe and fires no onPass, however often it is repeated. */
  lemma CheckAgainScoresNothing(ps: seq<Pipe>, box: AABB, ghostMode: bool, groundLevel: real)
    ensures var once := Check(ps, box, ghostMode, groundLevel);
      var twice := Check(once.pipes, box, ghostMode, groundLevel);
      && twice.pipes == once.pipes
      && PassCount(twice.events) == 0
      && twice.hit == once.hit
  {
    var v := Visit(ps, box, ghostMode);
    VisitAgainScoresNothing(ps, box, ghostMode);
    PassCountHit(Visit(v.pipes, box, ghostMode).events);
  }
}
