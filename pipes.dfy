/** A pipe pair of src/world.js and the two hit boxes it exposes. */
module Pipes {
  import opened Wrappers
  import opened Config
  import opened Physics

  /** The value of a pipe pair: left edge, gap centre, gap height, and
      whether the bird has already scored it. */
  datatype Pipe = Pipe(x: real, gapCenterY: real, gapSize: real, passed: bool)

  /** The top and bottom segment hit boxes of one pipe pair. */
  datatype Segments = Segments(top: AABB, bottom: AABB)

  /** Left inset: the explicit one, else half of the symmetric inset, else 0. */
  function InsetLeft(hb: HitboxConfig): real {
    hb.pipeInsetLeft.GetOr(hb.pipeInsetX.GetOr(0.0) * 0.5)
  }

  function InsetRight(hb: HitboxConfig): real {
    hb.pipeInsetRight.GetOr(hb.pipeInsetX.GetOr(0.0) * 0.5)
  }

  function InsetYGap(hb: HitboxConfig): real {
    hb.pipeInsetYGap.GetOr(0.0)
  }

  /** With the shipped hitbox table both sides fall back to half of the
      symmetric inset of 8, and the gap edges are not inset. */
  lemma ShippedInsets()
    ensures InsetLeft(HITBOX) == 4.0 && InsetRight(HITBOX) == 4.0
    ensures InsetYGap(HITBOX) == 0.0
  {
  }

  /** getAABBs. Both boxes share the inset column; the top box hangs from
      y = 0 down to the gap, the bottom one starts below the gap and reaches
      the bottom of the field. */
  function Boxes(p: Pipe, hb: HitboxConfig): (s: Segments)
    ensures s.top.x == p.x + InsetLeft(hb) && s.bottom.x == s.top.x
    ensures s.top.w >= 0.0 && s.bottom.w == s.top.w
    ensures s.top.h >= 0.0 && s.bottom.h >= 0.0
    ensures InsetLeft(hb) >= 0.0 && InsetRight(hb) >= 0.0 && s.top.w > 0.0 ==>
              p.x <= s.top.x && s.top.x + s.top.w <= p.x + PIPE_WIDTH
    ensures s.top.y == 0.0
    ensures InsetYGap(hb) >= 0.0 ==>
              s.top.y + s.top.h <= Max(0.0, p.gapCenterY - p.gapSize / 2.0)
    ensures s.bottom.y == p.gapCenterY + p.gapSize / 2.0 + InsetYGap(hb)
    ensures InsetYGap(hb) >= 0.0 ==> s.bottom.y + s.bottom.h == Max(s.bottom.y, DESIGN_HEIGHT)
  {
    var topHeight := Max(0.0, p.gapCenterY - p.gapSize / 2.0);
    var bottomY := p.gapCenterY + p.gapSize / 2.0;
    var bottomHeight := Max(0.0, DESIGN_HEIGHT - bottomY);
    var insetLeft := InsetLeft(hb);
    var insetRight := InsetRight(hb);
    var insetYGap := InsetYGap(hb);
    var hitboxX := p.x + insetLeft;
    var hitboxW := Max(0.0, PIPE_WIDTH - insetLeft - insetRight);
    Segments(
      AABB(hitboxX, 0.0, hitboxW, Max(0.0, topHeight - insetYGap)),
      AABB(hitboxX, bottomY + insetYGap, hitboxW, Max(0.0, bottomHeight - insetYGap)))
  }

  /** The collision test applied to one pipe pair: either segment overlaps. */
  predicate HitsPipe(p: Pipe, box: AABB) {
    var s := Boxes(p, HITBOX);
    Overlap(box, s.top) || Overlap(box, s.bottom)
  }

  /** A bird box that stays within the field and vertically within the gap
      hits neither segment. */
  lemma InsideGapNoHit(p: Pipe, box: AABB)
    requires 0.0 <= p.gapCenterY - p.gapSize / 2.0 <= box.y
    requires box.y + box.h <= p.gapCenterY + p.gapSize / 2.0
    ensures !HitsPipe(p, box)
  {
    ShippedInsets();
  }

  /** Conversely, a bird box of positive size in the pipe's inset column that
      reaches above the gap (but is not wholly above the field) or below it
      (but is not wholly below the field) hits. */
  lemma OutsideGapHits(p: Pipe, box: AABB)
    requires box.w > 0.0 && box.h > 0.0
    requires box.x < p.x + 60.0 && box.x + box.w > p.x + 4.0
    requires (box.y < p.gapCenterY - p.gapSize / 2.0 && box.y + box.h > 0.0) ||
             (box.y + box.h > p.gapCenterY + p.gapSize / 2.0 && box.y < DESIGN_HEIGHT)
    ensures HitsPipe(p, box)
  {
    ShippedInsets();
  }

  /** A pipe pair whose position and scored flag the world updates in place. */
  class PipePair {
    var x: real
    var gapCenterY: real
    var gapSize: real
    var passed: bool

    /** A new pipe pair has not been scored yet. */
    constructor(x: real, gapCenterY: real, gapSize: real)
      ensures Value() == Pipe(x, gapCenterY, gapSize, false)
    {
      this.x := x;
      this.gapCenterY := gapCenterY;
      this.gapSize := gapSize;
      passed := false;
    }

    function Value(): Pipe
      reads this
    {
      Pipe(x, gapCenterY, gapSize, passed)
    }

    /** getAABBs with the shipped hitbox table: a 56-wide column starting 4
        right of the pipe's edge, the top box from y = 0, the bottom box from
        the gap's lower edge. */
    function GetAABBs(): (s: Segments)
      reads this
      ensures s == Boxes(Value(), HITBOX)
      ensures s.top.x == x + 4.0 && s.bottom.x == x + 4.0
      ensures s.top.w == 56.0 && s.bottom.w == 56.0
      ensures s.top.y == 0.0 && s.bottom.y == gapCenterY + gapSize / 2.0
    {
      ShippedInsets();
      Boxes(Value(), HITBOX)
    }
  }
}
