/** One simulation step of an entity (Entity::Update without the
    model-matrix rebuild): clear the collision flags, run the AI (enemies)
    or the kill check (players), advance the animation, fire a pending jump,
    set the velocity, then move and resolve along Y and after that along X. */
module Stepping {
  import opened Geometry
  import opened Bodies
  import Resolution
  import Combat
  import Behaviour

  /** Time an animation frame is shown while the entity moves. */
  const FrameDuration: real := 0.25

  /** Animation: while the entity has an intent to move, the frame timer
      runs and every FrameDuration the frame index advances, wrapping to 0;
      with no intent the index snaps back to the idle frame 0. */
  function Animate(b: Body, dt: real): (r: Body)
    ensures r == b.(animIndex := r.animIndex, animTime := r.animTime)
    ensures !b.animated ==> r == b
    ensures b.animated && b.movement == Zero ==> r.animIndex == 0 && r.animTime == b.animTime
    ensures b.animated && b.movement != Zero && b.animTime + dt < FrameDuration ==>
              r.animIndex == b.animIndex && r.animTime == b.animTime + dt
    ensures b.animated && b.movement != Zero && b.animTime + dt >= FrameDuration
              && 0 <= b.animIndex < b.animFrames ==>
              r.animTime == 0.0 && r.animIndex == (b.animIndex + 1) % b.animFrames
    ensures b.animated && 0 <= b.animIndex < b.animFrames ==> 0 <= r.animIndex < r.animFrames
  {
    if !b.animated then b
    else if b.movement != Zero then
      var t := b.animTime + dt;
      if t >= FrameDuration then
        var next := b.animIndex + 1;
        b.(animTime := 0.0, animIndex := if next >= b.animFrames then 0 else next)
      else
        b.(animTime := t)
    else
      b.(animIndex := 0)
  }

  /** A requested jump adds jumpPower to the vertical velocity once. */
  function Launch(b: Body): (r: Body)
    ensures !r.jump
    ensures r.velocity == b.velocity.(y := b.velocity.y + (if b.jump then b.jumpPower else 0.0))
    ensures r == b.(jump := false, velocity := r.velocity)
  {
    if b.jump then b.(velocity := b.velocity.(y := b.velocity.y + b.jumpPower), jump := false) else b
  }

  /** Horizontal velocity is set afresh from the intent; then acceleration
      is applied to both components. */
  function Accelerate(b: Body, dt: real): Body {
    b.(velocity := Vec2(b.movement.x * b.speed + b.acceleration.x * dt,
                        b.velocity.y + b.acceleration.y * dt))
  }

  /** Integrate the position along one axis. */
  function Move(b: Body, ax: Axis, dt: real): Body {
    b.(position := With(b.position, ax, Get(b.position, ax) + Get(b.velocity, ax) * dt))
  }

  /** The collision flags describe the current step only. */
  function ClearFlags(b: Body): Body {
    b.(collidedTop := false, collidedBottom := false, collidedLeft := false, collidedRight := false)
  }

  /** The enemy AI or the player's kill check, by entity type; platforms do neither. */
  function Engage(b: Body, player: Vec2, enemies: seq<Box>): (r: (Body, seq<bool>))
    ensures |r.1| == |enemies|
  {
    if b.entityType == Enemy then (Behaviour.Think(b, player), Activity(enemies))
    else if b.entityType == Player then Combat.KillCheck(b, enemies)
    else (b, Activity(enemies))
  }

  /** The state just before the Y move: flags cleared, AI or kill check run,
      animation advanced, jump fired, velocity set. */
  function Prepare(b: Body, dt: real, player: Vec2, enemies: seq<Box>): (r: (Body, seq<bool>))
    ensures |r.1| == |enemies|
  {
    var engaged := Engage(ClearFlags(b), player, enemies);
    (Accelerate(Launch(Animate(engaged.0, dt)), dt), engaged.1)
  }

  /** The movement half of a step: move along Y and resolve against the
      platforms, then the same along X. */
  function Travel(b: Body, dt: real, platforms: seq<Partner>): Body {
    var afterY := Resolution.Resolve(Move(b, Y, dt), platforms, Y);
    Resolution.Resolve(Move(afterY, X, dt), platforms, X)
  }

  /** One step of an entity. Returns its new state and the new isActive of
      every enemy in `enemies`. */
  function Step(b: Body, dt: real, player: Vec2, platforms: seq<Partner>, enemies: seq<Box>): (r: (Body, seq<bool>))
    ensures |r.1| == |enemies|
    ensures !b.isActive ==> r == (b, Activity(enemies))
  {
    if !b.isActive then (b, Activity(enemies))
    else
      var prepared := Prepare(b, dt, player, enemies);
      (Travel(prepared.0, dt, platforms), prepared.1)
  }

  /** What the engage stage may change: the fields of an AI step or of a
      kill check, never the flags, animation, jump or shape. */
  lemma EngageOnly(b: Body, player: Vec2, enemies: seq<Box>)
    ensures var r := Engage(b, player, enemies).0;
      && r.collidedTop == b.collidedTop && r.collidedBottom == b.collidedBottom
      && r.collidedLeft == b.collidedLeft && r.collidedRight == b.collidedRight
      && r.animated == b.animated && r.animFrames == b.animFrames
      && r.animIndex == b.animIndex && r.animTime == b.animTime
      && r.jump == b.jump && r.jumpPower == b.jumpPower
      && r.speed == b.speed && r.acceleration == b.acceleration
      && r.width == b.width && r.height == b.height
      && r.entityType == b.entityType && r.aiType == b.aiType
      && (r.isActive ==> b.isActive)
      && r.enemiesKilled >= b.enemiesKilled
      && (b.entityType != Player ==> r.enemiesKilled == b.enemiesKilled && r.isActive == b.isActive)
  {
    if b.entityType == Player {
      Combat.KillCheckOnly(b, enemies);
    }
  }

  /** Both collision passes leave everything but positions, velocities,
      flags and lastCollision as they found it. */
  lemma ResolveBothOnly(b: Body, platforms: seq<Partner>, dt: real)
    ensures var afterY := Resolution.Resolve(Move(b, Y, dt), platforms, Y);
      var r := Resolution.Resolve(Move(afterY, X, dt), platforms, X);
      r == b.(position := r.position, velocity := r.velocity,
              collidedTop := r.collidedTop, collidedBottom := r.collidedBottom,
              collidedLeft := r.collidedLeft, collidedRight := r.collidedRight,
              lastCollision := r.lastCollision)
      && r.collidedTop == afterY.collidedTop && r.collidedBottom == afterY.collidedBottom
      && r.position.y == afterY.position.y && r.velocity.y == afterY.velocity.y
  {
    var afterY := Resolution.Resolve(Move(b, Y, dt), platforms, Y);
    Resolution.ResolveOnlyAxis(Move(b, Y, dt), platforms, Y);
    Resolution.ResolveOnlyAxis(Move(afterY, X, dt), platforms, X);
  }

  /** The flags an active step reports are those its own two passes set:
      they do not depend on the flags it started with. */
  lemma StepFlagsAreFresh(b: Body, t: bool, bo: bool, l: bool, ri: bool,
                          dt: real, player: Vec2, platforms: seq<Partner>, enemies: seq<Box>)
    requires b.isActive
    ensures Step(b, dt, player, platforms, enemies)
         == Step(b.(collidedTop := t, collidedBottom := bo, collidedLeft := l, collidedRight := ri),
                 dt, player, platforms, enemies)
  {
    var b' := b.(collidedTop := t, collidedBottom := bo, collidedLeft := l, collidedRight := ri);
    assert ClearFlags(b) == ClearFlags(b');
  }

  /** With no platforms, an active step ends with all four flags clear. */
  lemma NoPlatformsNoFlags(b: Body, dt: real, player: Vec2, enemies: seq<Box>)
    requires b.isActive
    ensures var r := Step(b, dt, player, [], enemies).0;
      !r.collidedTop && !r.collidedBottom && !r.collidedLeft && !r.collidedRight
  {
    EngageOnly(ClearFlags(b), player, enemies);
  }

  /** A pending jump is always consumed, and the vertical velocity entering
      the Y move includes jumpPower exactly when a jump was pending. */
  lemma JumpIsOneShot(b: Body, dt: real, player: Vec2, platforms: seq<Partner>, enemies: seq<Box>)
    requires b.isActive
    ensures !Step(b, dt, player, platforms, enemies).0.jump
    ensures var engaged := Engage(ClearFlags(b), player, enemies).0;
      Prepare(b, dt, player, enemies).0.velocity.y
        == engaged.velocity.y + (if b.jump then b.jumpPower else 0.0) + b.acceleration.y * dt
  {
    var engaged := Engage(ClearFlags(b), player, enemies).0;
    EngageOnly(ClearFlags(b), player, enemies);
    ResolveBothOnly(Prepare(b, dt, player, enemies).0, platforms, dt);
  }

  /** Horizontal velocity does not accumulate: before the X pass it is the
      intent times speed plus the horizontal acceleration, whatever it was;
      after the pass it is that value, or zero with a side flag set. */
  lemma HorizontalVelocity(b: Body, dt: real, player: Vec2, platforms: seq<Partner>, enemies: seq<Box>)
    requires b.isActive
    ensures var r := Step(b, dt, player, platforms, enemies).0;
      var vx := r.movement.x * b.speed + b.acceleration.x * dt;
      && Prepare(b, dt, player, enemies).0.velocity.x == vx
      && (r.velocity.x == vx || (r.velocity.x == 0.0 && (r.collidedLeft || r.collidedRight)))
  {
    var engaged := Engage(ClearFlags(b), player, enemies).0;
    EngageOnly(ClearFlags(b), player, enemies);
    var p := Prepare(b, dt, player, enemies).0;
    assert p.velocity.x == engaged.movement.x * b.speed + b.acceleration.x * dt;
    assert p.movement == engaged.movement;
    var afterY := Resolution.Resolve(Move(p, Y, dt), platforms, Y);
    Resolution.ResolveOnlyAxis(Move(p, Y, dt), platforms, Y);
    assert afterY.velocity.x == p.velocity.x && afterY.movement == p.movement;
    var r := Resolution.Resolve(Move(afterY, X, dt), platforms, X);
    Resolution.ResolveOnlyAxis(Move(afterY, X, dt), platforms, X);
    Resolution.ResolveVelocity(Move(afterY, X, dt), platforms, X);
    assert r.movement == p.movement;
  }

  /** The vertical velocity after a step is the one the Y move used, or
      zero with collidedTop or collidedBottom set. */
  lemma VerticalVelocity(b: Body, dt: real, player: Vec2, platforms: seq<Partner>, enemies: seq<Box>)
    requires b.isActive
    ensures var r := Step(b, dt, player, platforms, enemies).0;
      var vy := Prepare(b, dt, player, enemies).0.velocity.y;
      r.velocity.y == vy || (r.velocity.y == 0.0 && (r.collidedTop || r.collidedBottom))
  {
    var p := Prepare(b, dt, player, enemies).0;
    ResolveBothOnly(p, platforms, dt);
    Resolution.ResolveVelocity(Move(p, Y, dt), platforms, Y);
  }

  /** A frame index inside [0, animFrames) stays inside it, and an animated
      entity left without intent to move shows frame 0. */
  lemma FrameIndexInRange(b: Body, dt: real, player: Vec2, platforms: seq<Partner>, enemies: seq<Box>)
    requires b.animated && 0 <= b.animIndex < b.animFrames
    ensures var r := Step(b, dt, player, platforms, enemies).0;
      && 0 <= r.animIndex < r.animFrames
      && (b.isActive && r.movement == Zero ==> r.animIndex == 0)
  {
    if b.isActive {
      EngageOnly(ClearFlags(b), player, enemies);
      ResolveBothOnly(Prepare(b, dt, player, enemies).0, platforms, dt);
    }
  }

  /** A step never revives the entity or an enemy, never lowers the kill
      counter, and only a player's step can raise it or end its own life.
      Width, height, type and animation setup are left as they were. */
  lemma StepMonotone(b: Body, dt: real, player: Vec2, platforms: seq<Partner>, enemies: seq<Box>)
    ensures var (r, acts) := Step(b, dt, player, platforms, enemies);
      && (r.isActive ==> b.isActive)
      && (forall i :: 0 <= i < |enemies| && acts[i] ==> enemies[i].active)
      && r.enemiesKilled >= b.enemiesKilled
      && (b.entityType != Player ==> r.enemiesKilled == b.enemiesKilled && r.isActive == b.isActive)
      && (b.entityType != Player ==> acts == Activity(enemies))
      && r.width == b.width && r.height == b.height
      && r.entityType == b.entityType && r.aiType == b.aiType
      && r.animated == b.animated && r.animFrames == b.animFrames
  {
    if b.isActive {
      EngageOnly(ClearFlags(b), player, enemies);
      ResolveBothOnly(Prepare(b, dt, player, enemies).0, platforms, dt);
      if b.entityType == Player {
        forall i | 0 <= i < |enemies|
          ensures Combat.KillCheck(ClearFlags(b), enemies).1[i] ==> enemies[i].active
        {
          Combat.KillCheckOnlyStomped(ClearFlags(b), enemies, i);
        }
      }
    }
  }
}
