# Obstacle generation, physics and collisions of a side-scrolling flap game

This project models, in Dafny, the deterministic core of a Flappy-Bird-style
game. The core spans four source files:

- **`src/utils/rng.js`**:
  - a Mulberry32 pseudo-random generator over a 32-bit state;
  - the string-to-seed hash used for reproducible runs.
- **`src/config.js`**:
  - the tuning constants;
  - the gap-size difficulty curve `gapAtScore`;
  - the scroll-speed ramp.
- **`src/physics.js`**: the bird's body and the strict box-overlap test.
- **`src/world.js`**:
  - the pipe-pair queue, and spawning with the reachability fairness clamp;
  - scrolling and eviction;
  - scoring and collision detection.

The model takes the source's own form:

- **`rng.dfy` (module `Rng`):**
  - The generator is a class `RNG` whose `seed` is a `bv32`. `Math.imul`, the shifts and the xors become `bv32` operations.
  - Its methods are proved against the functions `Draw`, `Step`, `Advance` and `Draws`.
  - The string hash is a `for` loop over UTF-16 code units, proved equal to a left fold (`HashSeed`).
- **`config.dfy` (module `Config`):** constants and the pure curves `Ramp` and `GapAtScore`.
- **`physics.dfy` (module `Physics`):** the class `Bird`, whose `Flap` and `Step` update fields in place, and the pure `Overlap`.
- **`pipes.dfy` (module `Pipes`):** the class `PipePair`, with its value view `Pipe` and its two hit boxes.
- **`generator.dfy` (module `Generator`):** what `createNextPipe` computes, as functions.
  - The margins and the candidate centre.
  - `maxUpwardReach`: both a loop method and its specification function.
  - `maxDownwardReach`.
  - The fairness clamp.
  - `NewPipe`, the whole placement.
- **`queue.dfy` (module `Queue`):** the queue on values, with the invariants it keeps.
  - Operations: `Scroll`, `Evict` and `Spawn`.
  - `QueueInvariant`: x strictly increases along the queue and every gap lies inside the margins whenever they leave room for it (gapSize ≤ DESIGN_HEIGHT − marginTop − marginBottom); margins that leave no room constrain nothing.
  - `Fair`: every gap can be reached from the one before it. Time is measured at the scroll speed for the score the generator is given. In the world that score is always 0, so the speed is the base 120. The world itself scrolls at the speed for the caller's score, up to 132, so from score 15 on `Fair` is a promise about the generator's assumed speed, not about the actual scroll.
- **`collisions.dfy` (module `Collisions`):** `checkScoreAndCollisions` on values.
  - It returns the hit result, the callbacks fired and the marked queue.
  - Lemmas cover monotone scoring, one `onPass` per flag set, ghost mode, and stopping at the first hit.
- **`world.dfy` (module `World`):** the class `World`.
  - It holds a sequence of `PipePair` objects that the methods update in place.
  - Each method is proved to act on the value view `View()` exactly as the functions of `Queue` and `Collisions` do.
  - `Valid()` (distinct pairs, score 0, ordered and banded queue) is established by the constructor and `Reset`. `SpawnIfNeeded`, `Step` and `CheckScoreAndCollisions` keep it. The helper methods they call (`AppendIfNeeded`, `AppendFirst`, `AppendNext`, `Push`, `EvictOffScreen`) keep only the distinctness of the pairs; `ShiftPipes` and `VisitPipes` promise no part of `Valid()`.

Some behaviour of the code, which the model reproduces:

- **The world's own `score` is always 0.** It is assigned only in the constructor and in `reset`. As a result:
  - `spawnIfNeeded` builds every pipe with the score-0 gap (`GapAtScoreEnds`): `max(200, 3.5 × birdHeight)`.
  - The clamp computes its speed from that same score.
  - `step`, by contrast, uses the score its caller passes.
- **`Bird.getAABB` returns the sprite box with no inset.** The bird insets in the hitbox table are never read.
- **Of the pipe insets, the shipped hitbox table defines only `pipeInsetX = 8`.** Each pipe column is therefore inset by 4 on both sides.

## Model

The contracts below are stated against definitions that model the source directly: `Physics.Overlap` (src/physics.js:30-34); `Rng.HashSeed` (src/utils/rng.js:3-11); `Rng.Step` and `Rng.Mix` (src/utils/rng.js:21-24); `Queue.Scroll` (src/world.js:201-203); `Queue.Spawn` (src/world.js:68-108); `Collisions.Check` and `Collisions.Visit` (src/world.js:209-235).

| member | source | states |
|---|---|---|
| Rng.HashStringToSeed | src/utils/rng.js:3-12 | the loop over the code units followed by the avalanche returns HashSeed of the input: a function of the sequence of UTF-16 code units alone |
| Rng.HashPrefixAppend | src/utils/rng.js:5-8 | the hash loop absorbs its input as a stream: the state after a + b is the state after b, started from the state after a |
| Rng.RNG.constructor | src/utils/rng.js:15-17 | the stored state is the seed reduced modulo 2^32 (`seed >>> 0`) |
| Rng.RNG.Next | src/utils/rng.js:19-25 | the state advances by 0x6D2B79F5 modulo 2^32, and the result is Draw of the new state alone, so it lies in [0, 1) |
| Rng.ToUnit | src/utils/rng.js:24 | the output is k / 2^32 for the 32-bit value k, hence in [0, 1) |
| Rng.Draw | src/utils/rng.js:21-24 | the number produced from a state lies in [0, 1) |
| Rng.Draws | src/utils/rng.js:19-25 | the stream of n draws has n elements, each in [0, 1) |
| Rng.NextMany | src/utils/rng.js:19-25 | n calls of next return the stream Draws of the starting state and leave the state advanced by n steps |
| Rng.SameSeedSameDraws | src/utils/rng.js:15-25 | two generators built from the same seed return the same numbers, call for call |
| Rng.AdvanceAdd | src/utils/rng.js:21 | advancing n steps and then m steps is advancing n + m steps |
| Rng.DrawsSplit | src/utils/rng.js:19-25 | n + m draws are the first n draws followed by m draws from the state those left behind |
| Rng.Scale | src/utils/rng.js:28 | the span times a draw lies in [0, span) for a positive span and is 0 for an empty span |
| Rng.Range | src/utils/rng.js:27-29 | nextRange's value lies in [min, max) when min < max and equals min when min == max |
| Rng.RNG.NextRange | src/utils/rng.js:27-29 | exactly one next() is consumed, and the result is Range over that draw |
| Rng.IntRange | src/utils/rng.js:31-33 | the floor of nextRange(min, maxInclusive + 1) lies in [min, maxInclusive] whenever min <= maxInclusive |
| Rng.RNG.NextInt | src/utils/rng.js:31-33 | exactly one next() is consumed, and the result is IntRange over that draw |
| Config.Ramp | src/config.js:17-21 | the speed multiplier is always between 1 and 1.1 |
| Config.RampBands | src/config.js:17-21 | the multiplier is 1.0 below 15, 1.05 on [15, 30) and 1.1 from 30; it never decreases as the score grows |
| Config.Progress | src/config.js:32 | the easing input is clamped to [0, 1]: 0 for scores <= 0 and 1 from the target score on |
| Config.Ease | src/config.js:33 | the quadratic ease maps [0, 1] into [0, t] |
| Config.RawGap | src/config.js:34 | the interpolated gap lies between minGapByScore and initialGap |
| Config.GapAtScore | src/config.js:30-38 | the gap is at least 3.5 times the bird's height and at least minGapByScore; it is either the raw gap or that floor |
| Config.GapAtScoreEnds | src/config.js:32-37 | for score <= 0 the gap is max(initialGap, 3.5h); for score >= difficultyTargetScore it is max(minGapByScore, 3.5h) |
| Config.GapAtScoreMonotone | src/config.js:27-37 | a higher score never gives a wider gap |
| Config.ShippedGapRange | src/config.js:27-49 | with the shipped 48-unit bird every gap lies in [168, 200] |
| Physics.OverlapSymmetric | src/physics.js:30-34 | the overlap test is symmetric in its two boxes |
| Physics.EdgeContactIsNoOverlap | src/physics.js:30-34 | boxes that only touch along an edge do not overlap (the comparisons are strict) |
| Physics.OverlapIffSharedInterior | src/physics.js:30-34 | for boxes of positive size, the test holds exactly when some point lies strictly inside both |
| Physics.FallVelocity | src/physics.js:19-21 | the new vertical velocity is the old one plus gravity·dt, capped at the terminal velocity |
| Physics.VelocityAfterSteps | src/physics.js:18-23 | in free fall from within the cap, after n steps the velocity is min(vy + n·gravity·dt, terminal velocity) |
| Physics.Bird.constructor | src/physics.js:4-12 | a new bird is at the given position, at rest, of the configured size, and alive |
| Physics.Bird.Flap | src/physics.js:14-16 | vy becomes the flap velocity whatever it was (an override, so repeating it changes nothing); no other field changes |
| Physics.Bird.Step | src/physics.js:18-23 | vy becomes FallVelocity of the old vy; y moves by exactly the new vy·dt; x, vx, size and alive are unchanged |
| Physics.Bird.GetAABB | src/physics.js:25-27 | the box is exactly {x, y, width, height}, with no inset |
| Pipes.ShippedInsets | src/world.js:28-32 | with the shipped table, both side insets fall back to half of pipeInsetX (4), and the gap inset to 0 |
| Pipes.Boxes | src/world.js:24-49 | both segment boxes share the inset column and have non-negative size; the column stays within the pipe; the top box starts at y = 0 and ends above the gap; the bottom box starts at the gap's lower edge plus the gap inset and reaches the field's bottom |
| Pipes.InsideGapNoHit | src/world.js:24-49 | a bird box within the field and vertically inside the gap hits neither segment |
| Pipes.OutsideGapHits | src/world.js:24-49 | a bird box in the inset column that reaches above or below the gap (and into the field) hits a segment |
| Pipes.PipePair.constructor | src/world.js:17-22 | a new pair has the given position, centre and gap, and is not yet passed |
| Pipes.PipePair.GetAABBs | src/world.js:24-49 | the boxes of the pair's current value: a 56-wide column 4 units right of its edge, the top box from 0, the bottom box from the gap's lower edge |
| Generator.FlapIntervalValue | src/world.js:137-140 | the shortest time between flaps is 0.05 s (the input buffer exceeds one tick) |
| Generator.Candidate | src/world.js:115-128 | the proposed centre lies in [minCenter, maxCenter] whenever that band is not empty; a pinned bottom start inside the band is honoured exactly; a uniform draw stays below maxCenter |
| Generator.Segment | src/world.js:149-151 | within one flap interval the bird ends higher: the displacement lies between vFlap·d and (vFlap + 30)·d |
| Generator.UpwardReach | src/world.js:145-156 | the upward capacity is never negative |
| Generator.UpwardDyBounds | src/world.js:146-153 | the accumulated displacement is 0 when no time remains, and otherwise lies between vFlap·s and (vFlap + 30)·(s − 1e-6) |
| Generator.UpwardReachBounds | src/world.js:145-156 | the upward capacity is 0 when there is (almost) no time, and otherwise between 250·(s − 1e-6) and 280·s |
| Generator.MaxUpwardReach | src/world.js:145-156 | the loop terminates and returns UpwardReach of its argument |
| Generator.DownwardReach | src/world.js:158-165 | the downward capacity is never negative |
| Generator.DownwardReachMonotone | src/world.js:158-165 | more time never lowers the downward capacity |
| Generator.DownwardReachBelowTerminal | src/world.js:158-165 | the bird never falls farther than the terminal velocity times the time |
| Generator.TimeAvailable | src/world.js:133-135 | the transition time is never negative, and is 0 when the new pipe is not right of the previous one |
| Generator.Clamp | src/world.js:173-182 | with a non-empty window, the result lies in the window: the candidate when inside it, otherwise the nearer end. With an empty window, it is the previous centre moved into the static band |
| Generator.NewPipe | src/world.js:110-197 | the pipe has the requested x, the gap for the score, is not passed, and lies in the band when the band is not empty; without a previous pipe it is the candidate; with one it lies in [allowedMin, allowedMax], or is the fallback centre when that window is empty |
| Generator.NewPipeReachable | src/world.js:130-183 | fairness: when the previous centre lies in the new band, the new gap is reachable from it within the upward and downward capacities for the time the pipes take to pass at the scroll speed for the score the generator is given (0 in the world), not at the speed the world actually scrolls |
| Generator.NextX | src/world.js:89-93 | the next x lies in [last.x + spacing − jitter, last.x + spacing + jitter) |
| Queue.Evict | src/world.js:204-206 | eviction drops a head prefix whose every pipe is off screen, keeps the rest in order, and leaves a head that is on screen |
| Queue.EvictDropsPrefix | src/world.js:204-206 | the dropped prefix is exactly the run of off-screen pipes before the first one on screen |
| Queue.DrawCenter | src/world.js:118-128 | no draw is consumed when the bottom pipe is pinned, and exactly one otherwise |
| Queue.OrderedSorted | src/world.js:87-95 | a queue with strictly increasing consecutive x is sorted: every pipe lies left of every later one |
| Queue.ScrollKeepsInvariant | src/world.js:201-203 | scrolling keeps the queue ordered and inside the margins wherever they leave room for the gap |
| Queue.ScrollKeepsFair | src/world.js:201-203 | scrolling keeps every consecutive pair reachable (distances are unchanged) |
| Queue.SuffixKeepsInvariant | src/world.js:205-206 | dropping a head prefix keeps the queue ordered and inside the margins wherever they leave room for the gap |
| Queue.SuffixKeepsFair | src/world.js:205-206 | dropping a head prefix keeps every consecutive pair reachable |
| Queue.EvictKeepsInvariant | src/world.js:205-206 | eviction keeps the queue ordered and inside the margins wherever they leave room for the gap |
| Queue.EvictKeepsFair | src/world.js:205-206 | eviction keeps every consecutive pair reachable |
| Queue.SameGeometryKeepsInvariant | src/world.js:213-216 | changing only the scored flags keeps the queue ordered and inside the margins wherever they leave room for the gap |
| Queue.SameGeometryKeepsFair | src/world.js:213-216 | changing only the scored flags keeps every consecutive pair reachable |
| Queue.SpawnAppendsAtMostOne | src/world.js:68-108 | spawning appends at most one pipe at the tail and leaves the existing pipes untouched. On an empty queue it adds exactly one, unscored, at 0.75·DESIGN_WIDTH, with the score-0 gap. Otherwise it appends exactly when the tail is within the spacing, at a jittered spacing after the tail |
| Queue.AppendKeepsInvariant | src/world.js:94-95 | appending a pipe right of the tail and inside its band keeps the queue ordered and inside the margins wherever they leave room for the gap |
| Queue.SpawnKeepsInvariant | src/world.js:68-108 | spawning keeps the queue ordered and inside the margins wherever they leave room for the gap |
| Queue.AppendNewPipeKeepsFair | src/world.js:130-185 | a pipe generated against the tail keeps every consecutive pair reachable |
| Queue.SpawnKeepsFair | src/world.js:68-108 | spawning keeps every consecutive pair reachable, with time measured at the scroll speed for the score Spawn is given |
| Collisions.FirstHit | src/world.js:211-225 | the first overlapping pipe: no pipe before it overlaps; with ghostMode there is none |
| Collisions.CountPassedAppend | src/world.js:213-216 | the scored count of a concatenation is the sum of the counts |
| Collisions.PassEventsCount | src/world.js:211-216 | over a visited prefix, onPass fires once per flag the marking sets |
| Collisions.PassEventsArePasses | src/world.js:213-216 | the scoring step never fires onHit |
| Collisions.PassEventsAfterMark | src/world.js:213-216 | visiting pipes that are already marked fires no onPass |
| Collisions.HitsPipeIgnoresPassed | src/world.js:218-222 | the collision test does not depend on the scored flag |
| Collisions.HitsPipeIgnoresMark | src/world.js:213-222 | scoring a pipe before testing it does not change the collision result |
| Collisions.MarkPrefixAt | src/world.js:211-216 | after the first n pipes are visited, each of them is marked and each later pipe is unchanged |
| Collisions.VisitOnlySetsFlags | src/world.js:211-226 | the loop changes no pipe's geometry; a flag is only ever set, and only for a pipe the bird has passed |
| Collisions.CheckOnlySetsFlags | src/world.js:209-235 | passed only flips from false to true, only for pipes whose right edge is left of the bird, and nothing else about a pipe changes |
| Collisions.PassCountHit | src/world.js:223 | onHit does not count as an onPass |
| Collisions.VisitPassesMatchFlags | src/world.js:211-226 | in the loop, onPass fires exactly once per flag it sets |
| Collisions.CheckPassesMatchFlags | src/world.js:209-235 | onPass fires exactly once per flag that flips |
| Collisions.CheckGhostMode | src/world.js:209-235 | with ghostMode the call returns false and never fires onHit, but still marks every passed pipe |
| Collisions.CheckHitIff | src/world.js:209-235 | without ghostMode it returns true exactly when some pipe overlaps or the bird touches the ground or the top; onHit fires exactly then, once, as the last callback |
| Collisions.CheckStopsAtFirstHit | src/world.js:218-225 | at the first overlapping pipe the call returns: that pipe and those before it are marked, later pipes are left as they were |
| Collisions.MarkOneMore | src/world.js:211-216 | marking pipe i of a queue whose first i pipes are marked gives the queue whose first i + 1 are |
| Collisions.PassEventsOneMore | src/world.js:213-216 | visiting one more pipe adds one onPass exactly when that pipe scores |
| Collisions.VisitAtHit | src/world.js:218-225 | the loop's result once it stops at the first overlapping pipe |
| Collisions.VisitWithoutHit | src/world.js:211-226 | the loop's result once every pipe is visited without a hit |
| Collisions.FirstHitSameGeometry | src/world.js:218-222 | queues that differ only in scored flags have the same first hit |
| Collisions.MarkAllIdempotent | src/world.js:213-214 | marking twice marks nothing more |
| Collisions.VisitAgainScoresNothing | src/world.js:211-226 | repeating the loop on the queue it left changes no pipe, fires no onPass and gives the same result |
| Collisions.CheckAgainScoresNothing | src/world.js:209-235 | monotone scoring: checking again with the bird where it is changes no pipe, fires no onPass and reports the same result |
| World.World.constructor | src/world.js:53-59 | a new world has an empty queue, no scroll, score 0, the base speed, and is valid |
| World.World.Reset | src/world.js:61-66 | reset empties the queue, restores scroll, score and speed, and leaves the world valid |
| World.World.CreateNextPipe | src/world.js:110-197 | a fresh pipe pair whose value is NewPipe against the current tail, over the draw it consumed; the generator state is the one after that draw |
| World.World.ClampToLast | src/world.js:130-183 | the clamp computed with the two reach functions equals Clamp over the window [AllowedMin, AllowedMax] for the time available |
| World.World.SpawnIfNeeded | src/world.js:68-108 | the queue and generator state become Spawn of the old ones, built with the world's score; the world stays valid and nothing else changes |
| World.World.AppendIfNeeded | src/world.js:68-108 | the queue and generator state become Spawn of the old ones; the pairs stay distinct |
| World.World.AppendFirst | src/world.js:69-75 | on an empty queue, the queue becomes the first pipe and the generator the state after it |
| World.World.AppendNext | src/world.js:87-95 | the next pipe is appended to the old queue, and the generator is left in the state after it |
| World.World.CreateAfterTail | src/world.js:87-94 | the jittered spacing and the pipe built against the tail, as NextPipe describes them |
| World.World.Push | src/world.js:75 | the pair is added at the tail, and the value view grows by its value |
| World.World.Step | src/world.js:199-207 | the speed becomes base·ramp(score); the queue becomes the eviction of the old queue scrolled by speed·dt; the world stays valid |
| World.World.ShiftPipes | src/world.js:201-203 | every pair moves left by the same amount and nothing else changes |
| World.World.EvictOffScreen | src/world.js:205-206 | the queue becomes Evict of the old one |
| World.World.CheckScoreAndCollisions | src/world.js:209-236 | the result, the callbacks in firing order and the new queue are those of Check; the world stays valid |
| World.World.VisitPipes | src/world.js:211-226 | the loop over the pairs computes Visit on the queue: result, events and new queue |
| World.World.VisitPipe | src/world.js:212-222 | one iteration: the pair is marked and its onPass recorded, its overlap is the collision test on its old value, and no other pair changes |
| World.World.Overlaps | src/world.js:218-222 | the test against both segment boxes is HitsPipe on the pair's value |
| World.World.ViewAfterMarking | src/world.js:211-216 | after n iterations the value view is the first n pipes marked followed by the rest unchanged |

## Left out

- IEEE-754 arithmetic. Positions, velocities, gaps and times are exact reals, so rounding, overflow to infinity and NaN are not modelled. The `1e-6` guards are exact constants.
- The JavaScript number behind `this.seed` is never masked, so it grows by 0x6D2B79F5 on every call. The model keeps the state modulo 2^32. That is exact while the number stays below 2^53, i.e. for about the first 4.9·10^6 calls of one generator. After that, `+=` rounds to an even double, and the stream departs from `Step`/`Draws`. Those later calls are not modelled.
- `RNG` constructor: the seed is taken as an integer. A fractional or non-finite seed is not modelled.
- Rng.Range: the range for inverted bounds (`min > max`) is computed but nothing is stated about it, because the code makes no promise there.
- `console.debug` tracing and the URL-derived `FLAGS` are not modelled. The ghost-mode flag is a parameter of `CheckScoreAndCollisions`.
- `GROUND_LEVEL` and `PIPE_TUNING` are imported by `src/world.js` but not defined in `src/config.js`. They are constructor parameters of `World`:
  - a ground line;
  - `PipeTuning`, with optional margins (defaults 60 and 80) and an optional pinned bottom start.
- The `onPass` and `onHit` callbacks are modelled as a returned sequence of events in firing order. What the callbacks themselves do is not modelled.
- In `spawnIfNeeded`, the `last &&` test is always true for a non-empty queue. The model tests only the distance condition.
- The `COLORS` table and the hitbox bird insets are not used by the core. The bird insets are only recorded in the `HitboxConfig` datatype.
- World.World.Valid carries ordering and the band, but not fairness. Fairness of the whole queue (`Fair`) is proved on values instead: `SpawnKeepsFair`, `ScrollKeepsFair` and `EvictKeepsFair`. It holds when every gap lies in the next pipe's band.
- The loops of `step` and `checkScoreAndCollisions` are split into helper methods (`ShiftPipes`, `EvictOffScreen`, `VisitPipes`, `VisitPipe`), each proved against the same value-level functions.
- `src/main.js`, `src/render.js`, `src/utils/alphaCollider.js`, `src/audio.js`, `src/haptics.js`, `src/assets.js`, `src/storage.js` and `src/localization.js` are not part of this model. They cover the game loop, drawing, audio, storage and UI.
