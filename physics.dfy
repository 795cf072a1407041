/** The bird's body and the box-overlap test of src/physics.js. */
module Physics {
  import opened Config

  /** An axis-aligned box `{x, y, w, h}`; y grows downward. */
  datatype AABB = AABB(x: real, y: real, w: real, h: real)

  /** aabbOverlap: strict comparisons on both axes. */
  function Overlap(a: AABB, b: AABB): bool {
    a.x < b.x + b.w && a.x + a.w > b.x && a.y < b.y + b.h && a.y + a.h > b.y
  }

  lemma OverlapSymmetric(a: AABB, b: AABB)
    ensures Overlap(a, b) == Overlap(b, a)
  {
  }

  /** Boxes that only touch along an edge do not overlap. */
  lemma EdgeContactIsNoOverlap(a: AABB, b: AABB)
    requires a.x + a.w == b.x || b.x + b.w == a.x || a.y + a.h == b.y || b.y + b.h == a.y
    ensures !Overlap(a, b)
  {
  }

  /** The point (px, py) lies strictly inside the box. */
  predicate Inside(px: real, py: real, a: AABB) {
    a.x < px < a.x + a.w && a.y < py < a.y + a.h
  }

  /** For boxes of positive size, the strict test holds exactly when some
      point lies strictly inside both. */
  lemma OverlapIffSharedInterior(a: AABB, b: AABB)
    requires a.w > 0.0 && a.h > 0.0 && b.w > 0.0 && b.h > 0.0
    ensures Overlap(a, b) <==> exists px, py :: Inside(px, py, a) && Inside(px, py, b)
  {
    if Overlap(a, b) {
      var px := (Max(a.x, b.x) + Min(a.x + a.w, b.x + b.w)) / 2.0;
      var py := (Max(a.y, b.y) + Min(a.y + a.h, b.y + b.h)) / 2.0;
      assert Inside(px, py, a) && Inside(px, py, b);
    }
    if exists px, py :: Inside(px, py, a) && Inside(px, py, b) {
      var px, py :| Inside(px, py, a) && Inside(px, py, b);
      assert Overlap(a, b);
    }
  }

  /** The vertical velocity after one `step(dt)`: gravity added, then capped
      at the terminal velocity. */
  function FallVelocity(vy: real, dt: real): (v: real)
    ensures v <= TERMINAL_VELOCITY
    ensures v <= vy + GRAVITY * dt
    ensures v == vy + GRAVITY * dt || v == TERMINAL_VELOCITY
  {
    var v := vy + GRAVITY * dt;
    if v > TERMINAL_VELOCITY then TERMINAL_VELOCITY else v
  }

  /** The vertical velocity after `n` steps of `dt` with no flap in between. */
  function VelocityAfter(vy: real, dt: real, n: nat): real {
    if n == 0 then vy else FallVelocity(VelocityAfter(vy, dt, n - 1), dt)
  }

  /** Free fall from a velocity within the cap: after n fixed steps the
      velocity is the uncapped one, n * gravity * dt higher, or the cap,
      whichever is smaller; in particular it never exceeds the cap. */
  lemma {:induction false} VelocityAfterSteps(vy: real, dt: real, n: nat)
    requires vy <= TERMINAL_VELOCITY && dt >= 0.0
    ensures VelocityAfter(vy, dt, n) == Min(vy + (n as real) * (GRAVITY * dt), TERMINAL_VELOCITY)
    ensures VelocityAfter(vy, dt, n) <= TERMINAL_VELOCITY
  {
    if n > 0 {
      VelocityAfterSteps(vy, dt, n - 1);
      var g := GRAVITY * dt;
      assert ((n - 1) as real) * g + g == (n as real) * g;
    }
  }

  class Bird {
    var x: real
    var y: real
    var vx: real
    var vy: real
    var width: real
    var height: real
    var alive: bool

    /** A bird at rest, of the configured size, alive. */
    constructor(x: real, y: real)
      ensures this.x == x && this.y == y
      ensures vx == 0.0 && vy == 0.0
      ensures width == BIRD_WIDTH && height == BIRD_HEIGHT
      ensures alive
    {
      this.x := x;
      this.y := y;
      vx := 0.0;
      vy := 0.0;
      width := BIRD_WIDTH;
      height := BIRD_HEIGHT;
      alive := true;
    }

    /** flap overrides the vertical velocity, whatever it was. */
    method Flap()
      modifies this
      ensures vy == FLAP_VELOCITY
      ensures x == old(x) && y == old(y) && vx == old(vx)
      ensures width == old(width) && height == old(height) && alive == old(alive)
    {
      vy := FLAP_VELOCITY;
    }

    /** step(dt): gravity with a terminal-velocity cap, then the position
        moves by the new velocity times dt. */
    method Step(dt: real)
      modifies this
      ensures vy == FallVelocity(old(vy), dt)
      ensures y == old(y) + vy * dt
      ensures x == old(x) && vx == old(vx)
      ensures width == old(width) && height == old(height) && alive == old(alive)
    {
      vy := vy + GRAVITY * dt;
      if vy > TERMINAL_VELOCITY {
        vy := TERMINAL_VELOCITY;
      }
      y := y + vy * dt;
    }

    /** getAABB: the sprite box itself, with no inset. */
    function GetAABB(): (box: AABB)
      reads this
      ensures box.x == x && box.y == y
      ensures box.w == width && box.h == height
    {
      AABB(x, y, width, height)
    }
  }
}
