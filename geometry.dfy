/** Plane geometry of the platformer: 2D vectors over exact reals, the two
    collision axes, and the axis-aligned box overlap test used by every
    collision pass of an entity. The model takes every z component of the
    game's vectors to be 0; see README, "Left out". */
module Geometry {

  /** The three kinds of entity a level is made of. */
  datatype EntityType = Player | Enemy | Platform

  datatype Vec2 = Vec2(x: real, y: real)

  const Zero: Vec2 := Vec2(0.0, 0.0)

  /** The two axes along which collisions are resolved, one pass each. */
  datatype Axis = X | Y

  /** The component of `v` along `ax`. */
  function Get(v: Vec2, ax: Axis): real {
    match ax
    case X => v.x
    case Y => v.y
  }

  /** `v` with its component along `ax` replaced by `c`. */
  function With(v: Vec2, ax: Axis, c: real): (r: Vec2)
    ensures Get(r, ax) == c
    ensures ax == X ==> r.y == v.y
    ensures ax == Y ==> r.x == v.x
  {
    match ax
    case X => v.(x := c)
    case Y => v.(y := c)
  }

  function Abs(x: real): (r: real)
    ensures r >= 0.0 && (r == x || r == -x)
  {
    if x < 0.0 then -x else x
  }

  /** Squared euclidean distance; `distance(a, b) < d` is `DistSq(a, b) < d * d`. */
  function DistSq(a: Vec2, b: Vec2): (r: real)
    ensures r >= 0.0
  {
    var dx, dy := a.x - b.x, a.y - b.y;
    SquareZero(dx);
    SquareZero(dy);
    dx * dx + dy * dy
  }

  lemma SquareZero(d: real)
    ensures d * d >= 0.0
  {
    if d < 0.0 {
      assert d * d == (-d) * (-d);
    }
  }

  /** What a collision test sees of an entity: whether it takes part in
      collisions at all, its kind, and its box centred on its position. */
  datatype Box = Box(active: bool, kind: EntityType, center: Vec2, width: real, height: real)
  {
    /** The box's extent along `ax`: its width on X, its height on Y. */
    function Extent(ax: Axis): real {
      match ax
      case X => width
      case Y => height
    }
  }

  /** Signed gap between two boxes along `ax`: centre distance minus the sum
      of the half-extents. Negative means the projections overlap. */
  function Gap(a: Box, b: Box, ax: Axis): real {
    Abs(Get(a.center, ax) - Get(b.center, ax)) - (a.Extent(ax) + b.Extent(ax)) / 2.0
  }

  /** The overlap test of Entity::CheckCollision: both boxes active and the
      gap strictly negative on both axes. */
  predicate Collides(a: Box, b: Box) {
    a.active && b.active && Gap(a, b, X) < 0.0 && Gap(a, b, Y) < 0.0
  }

  /** Reference definition: the open interval (lo, hi) of each box along an
      axis. Two boxes collide exactly when their intervals overlap on both axes. */
  function Lo(b: Box, ax: Axis): real { Get(b.center, ax) - b.Extent(ax) / 2.0 }
  function Hi(b: Box, ax: Axis): real { Get(b.center, ax) + b.Extent(ax) / 2.0 }

  predicate IntervalsOverlap(a: Box, b: Box, ax: Axis) {
    Lo(a, ax) < Hi(b, ax) && Lo(b, ax) < Hi(a, ax)
  }

  lemma GapNegativeIffOverlap(a: Box, b: Box, ax: Axis)
    ensures Gap(a, b, ax) < 0.0 <==> IntervalsOverlap(a, b, ax)
  {
    if Get(a.center, ax) < Get(b.center, ax) {
      assert Abs(Get(a.center, ax) - Get(b.center, ax)) == Get(b.center, ax) - Get(a.center, ax);
    } else {
      assert Abs(Get(a.center, ax) - Get(b.center, ax)) == Get(a.center, ax) - Get(b.center, ax);
    }
  }

  /** Collision is exactly interval overlap on both axes between two active boxes. */
  lemma CollidesIffOverlapBothAxes(a: Box, b: Box)
    ensures Collides(a, b) <==> a.active && b.active && IntervalsOverlap(a, b, X) && IntervalsOverlap(a, b, Y)
  {
    GapNegativeIffOverlap(a, b, X);
    GapNegativeIffOverlap(a, b, Y);
  }

  /** An inactive box collides with nothing. */
  lemma InactiveNeverCollides(a: Box, b: Box)
    requires !a.active || !b.active
    ensures !Collides(a, b) && !Collides(b, a)
  {
  }

  /** The test does not depend on which entity asks. */
  lemma CollidesSymmetric(a: Box, b: Box)
    ensures Collides(a, b) == Collides(b, a)
  {
    assert Abs(a.center.x - b.center.x) == Abs(b.center.x - a.center.x);
    assert Abs(a.center.y - b.center.y) == Abs(b.center.y - a.center.y);
  }

  /** Boxes whose projections on one axis are disjoint (or merely touch) never collide. */
  lemma SeparatedNeverCollides(a: Box, b: Box, ax: Axis)
    requires Hi(a, ax) <= Lo(b, ax) || Hi(b, ax) <= Lo(a, ax)
    ensures !Collides(a, b)
  {
    GapNegativeIffOverlap(a, b, ax);
  }

  /** An active box of positive extent collides with itself. */
  lemma SelfCollides(a: Box)
    requires a.active && a.width > 0.0 && a.height > 0.0
    ensures Collides(a, a)
  {
  }
}
