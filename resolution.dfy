/** Axis-separated collision resolution (Entity::CheckCollisionsY and
    Entity::CheckCollisionsX): one pass over the platform list along one
    axis, pushing the mover out of every platform it overlaps, against the
    sign of its velocity on that axis. */
module Resolution {
  import opened Geometry
  import opened Bodies

  /** How deep the mover reaches into `o` along `ax`. */
  function Penetration(b: Body, o: Box, ax: Axis): (d: real)
    ensures d >= 0.0
    ensures Collides(b.Bounds(), o) ==>
              d == (b.Extent(ax) + o.Extent(ax)) / 2.0 - Abs(Get(b.position, ax) - Get(o.center, ax))
  {
    Abs(Abs(Get(b.position, ax) - Get(o.center, ax)) - b.Extent(ax) / 2.0 - o.Extent(ax) / 2.0)
  }

  /** One platform of a pass: when the mover overlaps `o` it records o's kind
      and, if it moves along `ax`, is pushed back by the penetration depth,
      stopped on that axis, and the flag for its direction is set. */
  function Push(b: Body, o: Box, ax: Axis): (r: Body)
    ensures OnlyAxisChanged(b, r, ax)
    ensures !Collides(b.Bounds(), o) ==> r == b
    ensures Collides(b.Bounds(), o) ==> r.lastCollision == o.kind
    ensures Get(b.velocity, ax) == 0.0 ==> r == b.(lastCollision := r.lastCollision)
  {
    if !Collides(b.Bounds(), o) then b
    else
      var seen := b.(lastCollision := o.kind);
      var d := Penetration(b, o, ax);
      match ax
      case X =>
        if b.velocity.x > 0.0 then
          seen.(position := b.position.(x := b.position.x - d), velocity := b.velocity.(x := 0.0), collidedRight := true)
        else if b.velocity.x < 0.0 then
          seen.(position := b.position.(x := b.position.x + d), velocity := b.velocity.(x := 0.0), collidedLeft := true)
        else
          seen
      case Y =>
        if b.velocity.y > 0.0 then
          seen.(position := b.position.(y := b.position.y - d), velocity := b.velocity.(y := 0.0), collidedTop := true)
        else if b.velocity.y < 0.0 then
          seen.(position := b.position.(y := b.position.y + d), velocity := b.velocity.(y := 0.0), collidedBottom := true)
        else
          seen
  }

  /** A vertical push writes only the vertical fields. */
  lemma PushYFields(b: Body, o: Box)
    ensures var r := Push(b, o, Y);
      r == b.(position := r.position, velocity := r.velocity, collidedTop := r.collidedTop,
              collidedBottom := r.collidedBottom, lastCollision := r.lastCollision)
  {
  }

  lemma PushXFields(b: Body, o: Box)
    ensures var r := Push(b, o, X);
      r == b.(position := r.position, velocity := r.velocity, collidedLeft := r.collidedLeft,
              collidedRight := r.collidedRight, lastCollision := r.lastCollision)
  {
  }

  /** Moving along the axis into `o`, the mover is pushed back against its
      velocity by exactly the penetration depth, stopped on that axis, and
      the flag for its direction is set (the other flag is left alone). */
  lemma PushStops(b: Body, o: Box, ax: Axis)
    requires Collides(b.Bounds(), o) && Get(b.velocity, ax) != 0.0
    ensures var r := Push(b, o, ax);
      && Get(r.velocity, ax) == 0.0
      && (Get(b.velocity, ax) > 0.0 ==>
            && Get(r.position, ax) == Get(b.position, ax) - Penetration(b, o, ax)
            && r.HitAhead(ax) && r.HitBehind(ax) == b.HitBehind(ax))
      && (Get(b.velocity, ax) < 0.0 ==>
            && Get(r.position, ax) == Get(b.position, ax) + Penetration(b, o, ax)
            && r.HitBehind(ax) && r.HitAhead(ax) == b.HitAhead(ax))
  {
  }

  /** Running into the near face of a platform leaves the mover flush
      against that face, no longer overlapping it. */
  lemma PushSeparates(b: Body, o: Box, ax: Axis)
    requires Collides(b.Bounds(), o)
    requires (Get(b.velocity, ax) > 0.0 && Get(b.position, ax) <= Get(o.center, ax))
          || (Get(b.velocity, ax) < 0.0 && Get(o.center, ax) <= Get(b.position, ax))
    ensures var r := Push(b, o, ax);
      && (Get(b.velocity, ax) > 0.0 ==> Hi(r.Bounds(), ax) == Lo(o, ax))
      && (Get(b.velocity, ax) < 0.0 ==> Lo(r.Bounds(), ax) == Hi(o, ax))
      && !Collides(r.Bounds(), o)
  {
    var r := Push(b, o, ax);
    PushStops(b, o, ax);
    assert r.Extent(ax) == b.Extent(ax) by { assert OnlyAxisChanged(b, r, ax); }
    SeparatedNeverCollides(r.Bounds(), o, ax);
  }

  /** A whole pass: the platforms are met in list order, each against the
      state the earlier ones left. */
  function Resolve(b: Body, ps: seq<Partner>, ax: Axis): Body
    decreases |ps|
  {
    if ps == [] then b
    else
      var prev := Resolve(b, ps[..|ps| - 1], ax);
      Push(prev, PartnerBox(prev, ps[|ps| - 1]), ax)
  }

  /** A pass writes only the position and velocity components along its
      axis, the two flags of that axis and lastCollision. */
  lemma {:induction false} ResolveOnlyAxis(b: Body, ps: seq<Partner>, ax: Axis)
    ensures OnlyAxisChanged(b, Resolve(b, ps, ax), ax)
    decreases |ps|
  {
    if ps != [] {
      ResolveOnlyAxis(b, ps[..|ps| - 1], ax);
    }
  }

  /** An inactive entity is never resolved against anything. */
  lemma {:induction false} ResolveInactive(b: Body, ps: seq<Partner>, ax: Axis)
    requires !b.isActive
    ensures Resolve(b, ps, ax) == b
    decreases |ps|
  {
    if ps != [] {
      ResolveInactive(b, ps[..|ps| - 1], ax);
    }
  }

  /** An entity at rest along the axis is neither moved nor flagged, even
      when it overlaps platforms: only lastCollision may change. */
  lemma {:induction false} ResolveAtRest(b: Body, ps: seq<Partner>, ax: Axis)
    requires Get(b.velocity, ax) == 0.0
    ensures Resolve(b, ps, ax) == b.(lastCollision := Resolve(b, ps, ax).lastCollision)
    decreases |ps|
  {
    if ps != [] {
      ResolveAtRest(b, ps[..|ps| - 1], ax);
    }
  }

  /** A pass either leaves the mover's position, velocity and flags on the
      axis untouched, or stops it exactly once: velocity zero and the one
      flag matching the sign of the incoming velocity newly set. */
  lemma {:induction false} ResolveStopsAtMostOnce(b: Body, ps: seq<Partner>, ax: Axis)
    ensures var r := Resolve(b, ps, ax);
      || (&& Get(r.position, ax) == Get(b.position, ax)
          && Get(r.velocity, ax) == Get(b.velocity, ax)
          && r.HitAhead(ax) == b.HitAhead(ax) && r.HitBehind(ax) == b.HitBehind(ax))
      || (&& Get(r.velocity, ax) == 0.0
          && (Get(b.velocity, ax) > 0.0 ==> r.HitAhead(ax) && r.HitBehind(ax) == b.HitBehind(ax))
          && (Get(b.velocity, ax) < 0.0 ==> r.HitBehind(ax) && r.HitAhead(ax) == b.HitAhead(ax))
          && Get(b.velocity, ax) != 0.0)
    decreases |ps|
  {
    if ps != [] {
      var prev := Resolve(b, ps[..|ps| - 1], ax);
      ResolveStopsAtMostOnce(b, ps[..|ps| - 1], ax);
      var o := PartnerBox(prev, ps[|ps| - 1]);
      assert Resolve(b, ps, ax) == Push(prev, o, ax);
    }
  }

  /** The velocity along the axis after a pass is either unchanged or zero,
      and it is zero with a flag of the axis set whenever it changed. */
  lemma ResolveVelocity(b: Body, ps: seq<Partner>, ax: Axis)
    ensures var r := Resolve(b, ps, ax);
      Get(r.velocity, ax) == Get(b.velocity, ax)
      || (Get(r.velocity, ax) == 0.0 && (r.HitAhead(ax) || r.HitBehind(ax)))
  {
    ResolveStopsAtMostOnce(b, ps, ax);
  }

  /** Flags already set are never cleared by a pass. */
  lemma ResolveKeepsFlags(b: Body, ps: seq<Partner>, ax: Axis)
    ensures var r := Resolve(b, ps, ax);
      (b.HitAhead(ax) ==> r.HitAhead(ax)) && (b.HitBehind(ax) ==> r.HitBehind(ax))
  {
    ResolveStopsAtMostOnce(b, ps, ax);
  }

  /** Landing: an entity falling (velocity.y < 0) into a single platform
      whose centre is below its own comes to rest standing exactly on the
      platform's top face, with collidedBottom set and no overlap left. */
  lemma LandsOnPlatform(b: Body, o: Box)
    requires Collides(b.Bounds(), o)
    requires b.velocity.y < 0.0 && o.center.y <= b.position.y
    ensures var r := Resolve(b, [Another(o)], Y);
      && r.collidedBottom && r.velocity.y == 0.0
      && r.position.y == o.center.y + (o.height + b.height) / 2.0
      && r.position.x == b.position.x
      && !Collides(r.Bounds(), o)
  {
    assert [Another(o)][..0] == [];
    PushSeparates(b, o, Y);
  }
}
