/** The Entity object of the platformer: its fields, updated in place by
    the collision passes, the kill check, the AI behaviours and the step
    update. Every method is proved to leave the entity (and the enemies it
    touches) in the state the corresponding function of Resolution, Combat,
    Behaviour or Stepping computes from the state it started in. */
module Entities {
  import opened Geometry
  import opened Bodies
  import Resolution
  import Combat
  import Behaviour
  import Stepping

  /** The elements of an array of entities are distinct objects, as the
      elements of an array of Entity values always are. */
  predicate Distinct(es: array<Entity>)
    reads es
  {
    forall i, j :: 0 <= i < j < es.Length ==> es[i] != es[j]
  }

  /** No entity is both a platform and an enemy. */
  predicate Disjoint(platforms: array<Entity>, enemies: array<Entity>)
    reads platforms, enemies
  {
    forall i, j :: 0 <= i < platforms.Length && 0 <= j < enemies.Length ==> platforms[i] != enemies[j]
  }

  /** The boxes of a list of entities, in order. */
  function BoxesOf(es: array<Entity>): (r: seq<Box>)
    reads es, set i | 0 <= i < es.Length :: es[i]
    ensures |r| == es.Length
    ensures forall i :: 0 <= i < es.Length ==> r[i] == es[i].Bounds()
  {
    seq(es.Length, i requires 0 <= i < es.Length reads es, set j | 0 <= j < es.Length :: es[j] => es[i].Bounds())
  }

  /** The player's position as the AI sees it (a behaviour that needs it is
      never given a null player). */
  function PositionOf(p: Entity?): Vec2
    reads p
  {
    if p == null then Zero else p.position
  }

  class Entity {
    // Fields the step only reads; the level sets them when it builds the entity.
    const entityType: EntityType
    const aiType: AIType
    const acceleration: Vec2
    const speed: real
    const width: real
    const height: real
    const jumpPower: real
    const animated: bool
    const animFrames: int

    // Fields the step updates in place.
    var isActive: bool
    var aiState: AIState
    var position: Vec2
    var movement: Vec2
    var velocity: Vec2
    var jump: bool
    var collidedTop: bool
    var collidedBottom: bool
    var collidedLeft: bool
    var collidedRight: bool
    var lastCollision: EntityType
    var animIndex: int
    var animTime: real
    var enemiesKilled: int

    /** A new entity is at rest at the origin with no movement intent; the
        read-only fields are the ones the level chooses for it. */
    constructor(entityType: EntityType, aiType: AIType, width: real, height: real, speed: real,
                acceleration: Vec2, jumpPower: real, animated: bool, animFrames: int)
      ensures position == Zero && movement == Zero && velocity == Zero
      ensures this.entityType == entityType && this.aiType == aiType
      ensures this.width == width && this.height == height && this.speed == speed
      ensures this.acceleration == acceleration && this.jumpPower == jumpPower
      ensures this.animated == animated && this.animFrames == animFrames
    {
      this.entityType := entityType;
      this.aiType := aiType;
      this.width := width;
      this.height := height;
      this.speed := speed;
      this.acceleration := acceleration;
      this.jumpPower := jumpPower;
      this.animated := animated;
      this.animFrames := animFrames;
      position := Zero;
      movement := Zero;
      velocity := Zero;
    }

    /** The entity's current state as a value. */
    function Snapshot(): Body
      reads this
    {
      Body(isActive, entityType, aiType, aiState, position, movement, acceleration, velocity,
           speed, width, height, jump, jumpPower,
           collidedTop, collidedBottom, collidedLeft, collidedRight, lastCollision,
           animated, animFrames, animIndex, animTime, enemiesKilled)
    }

    /** The entity's collision box, equal to `Snapshot().Bounds()`. It is built
        from the five fields it uses so that the loop proofs need not unfold
        the whole snapshot for every box. */
    function Bounds(): (box: Box)
      reads this
    {
      Box(isActive, entityType, position, width, height)
    }

    /** The platform list as a collision pass of this entity meets it. */
    function PartnersOf(ps: array<Entity>): (r: seq<Partner>)
      reads ps, set i | 0 <= i < ps.Length && ps[i] != this :: ps[i]
      ensures |r| == ps.Length
      ensures forall i :: 0 <= i < ps.Length ==>
                r[i] == if ps[i] == this then Itself else Another(ps[i].Bounds())
    {
      seq(ps.Length, i requires 0 <= i < ps.Length reads ps, set j | 0 <= j < ps.Length && ps[j] != this :: ps[j] =>
            if ps[i] == this then Itself else Another(ps[i].Bounds()))
    }

    /** The overlap test; on a hit it records the other entity's type. */
    method CheckCollision(other: Entity) returns (hit: bool)
      modifies this`lastCollision
      ensures hit == Collides(Bounds(), other.Bounds())
      ensures lastCollision == if hit then other.entityType else old(lastCollision)
    {
      if !isActive || !other.isActive {
        return false;
      }
      var xdist := Abs(position.x - other.position.x) - (width + other.width) / 2.0;
      var ydist := Abs(position.y - other.position.y) - (height + other.height) / 2.0;
      if xdist < 0.0 && ydist < 0.0 {
        lastCollision := other.entityType;
        return true;
      }
      return false;
    }

    /** One platform of the vertical pass: on a hit, push back by the
        penetration against the vertical velocity and stop. */
    method PushOutOfY(platform: Entity)
      modifies this`position, this`velocity, this`collidedTop, this`collidedBottom, this`lastCollision
      ensures var r := Resolution.Push(old(Snapshot()), old(platform.Bounds()), Y);
        && position == r.position && velocity == r.velocity
        && collidedTop == r.collidedTop && collidedBottom == r.collidedBottom
        && lastCollision == r.lastCollision
    {
      var hit := CheckCollision(platform);
      if hit {
        var ydist := Abs(position.y - platform.position.y);
        var penetrationY := Abs(ydist - height / 2.0 - platform.height / 2.0);
        if velocity.y > 0.0 {
          position := position.(y := position.y - penetrationY);
          velocity := velocity.(y := 0.0);
          collidedTop := true;
        } else if velocity.y < 0.0 {
          position := position.(y := position.y + penetrationY);
          velocity := velocity.(y := 0.0);
          collidedBottom := true;
        }
      }
    }

    /** One platform of the horizontal pass. */
    method PushOutOfX(platform: Entity)
      modifies this`position, this`velocity, this`collidedLeft, this`collidedRight, this`lastCollision
      ensures var r := Resolution.Push(old(Snapshot()), old(platform.Bounds()), X);
        && position == r.position && velocity == r.velocity
        && collidedLeft == r.collidedLeft && collidedRight == r.collidedRight
        && lastCollision == r.lastCollision
    {
      var hit := CheckCollision(platform);
      if hit {
        var xdist := Abs(position.x - platform.position.x);
        var penetrationX := Abs(xdist - width / 2.0 - platform.width / 2.0);
        if velocity.x > 0.0 {
          position := position.(x := position.x - penetrationX);
          velocity := velocity.(x := 0.0);
          collidedRight := true;
        } else if velocity.x < 0.0 {
          position := position.(x := position.x + penetrationX);
          velocity := velocity.(x := 0.0);
          collidedLeft := true;
        }
      }
    }

    /** Vertical pass over the platform list: moving up into a platform
        sets collidedTop, moving down sets collidedBottom. */
    method CheckCollisionsY(platforms: array<Entity>)
      modifies this`position, this`velocity, this`collidedTop, this`collidedBottom, this`lastCollision
      ensures Snapshot() == Resolution.Resolve(old(Snapshot()), old(PartnersOf(platforms)), Y)
    {
      ghost var start := Snapshot();
      ghost var ps := PartnersOf(platforms);
      var i := 0;
      while i < platforms.Length
        invariant 0 <= i <= platforms.Length
        invariant forall j :: 0 <= j < platforms.Length ==>
                    ps[j] == if platforms[j] == this then Itself else Another(platforms[j].Bounds())
        invariant Snapshot() == Resolution.Resolve(start, ps[..i], Y)
      {
        Resolution.PushYFields(Snapshot(), platforms[i].Bounds());
        PushOutOfY(platforms[i]);
        assert ps[..i + 1][..i] == ps[..i];
        i := i + 1;
      }
      assert ps[..platforms.Length] == ps;
    }

    /** Horizontal pass: moving right into a platform sets collidedRight,
        moving left sets collidedLeft. */
    method CheckCollisionsX(platforms: array<Entity>)
      modifies this`position, this`velocity, this`collidedLeft, this`collidedRight, this`lastCollision
      ensures Snapshot() == Resolution.Resolve(old(Snapshot()), old(PartnersOf(platforms)), X)
    {
      ghost var start := Snapshot();
      ghost var ps := PartnersOf(platforms);
      var i := 0;
      while i < platforms.Length
        invariant 0 <= i <= platforms.Length
        invariant forall j :: 0 <= j < platforms.Length ==>
                    ps[j] == if platforms[j] == this then Itself else Another(platforms[j].Bounds())
        invariant Snapshot() == Resolution.Resolve(start, ps[..i], X)
      {
        Resolution.PushXFields(Snapshot(), platforms[i].Bounds());
        PushOutOfX(platforms[i]);
        assert ps[..i + 1][..i] == ps[..i];
        i := i + 1;
      }
      assert ps[..platforms.Length] == ps;
    }

    /** One enemy of the kill check: a stomp deactivates the enemy,
        any other contact deactivates this player. */
    method StompOn(enemy: Entity)
      requires enemy != this
      modifies this`position, this`velocity, this`isActive, this`enemiesKilled, this`lastCollision, enemy`isActive
      ensures var r := Combat.Stomp(old(Snapshot()), old(enemy.Bounds()));
        && position == r.0.position && velocity == r.0.velocity && isActive == r.0.isActive
        && enemiesKilled == r.0.enemiesKilled && lastCollision == r.0.lastCollision
        && enemy.isActive == r.1
    {
      var hit := CheckCollision(enemy);
      if hit {
        var ydist := Abs(position.y - enemy.position.y);
        var penetrationY := Abs(ydist - height / 2.0 - enemy.height / 2.0);
        if velocity.y < 0.0 {
          position := position.(y := position.y + penetrationY);
          velocity := velocity.(y := 0.0);
          enemy.isActive := false;
          enemiesKilled := enemiesKilled + 1;
        } else {
          isActive := false;
        }
      }
    }

    /** StompOn stated on the whole player: every field it does not write
        keeps its value. */
    method KillStep(enemy: Entity)
      requires enemy != this
      modifies this`position, this`velocity, this`isActive, this`enemiesKilled, this`lastCollision, enemy`isActive
      ensures var r := Combat.Stomp(old(Snapshot()), old(enemy.Bounds()));
        Snapshot() == r.0 && enemy.isActive == r.1
    {
      Combat.StompFields(Snapshot(), enemy.Bounds());
      StompOn(enemy);
    }

    /** The player's kill check against every enemy, in order. */
    method CheckIfEnemyOrPlayerKilled(enemies: array<Entity>)
      requires Distinct(enemies)
      requires forall i :: 0 <= i < enemies.Length ==> enemies[i] != this
      modifies this`position, this`velocity, this`isActive, this`enemiesKilled, this`lastCollision
      modifies (set i | 0 <= i < enemies.Length :: enemies[i])`isActive
      ensures var r := Combat.KillCheck(old(Snapshot()), old(BoxesOf(enemies)));
        && Snapshot() == r.0
        && forall i :: 0 <= i < enemies.Length ==> enemies[i].isActive == r.1[i]
    {
      ghost var es := BoxesOf(enemies);
      ghost var acts := Combat.KillCheck(Snapshot(), es).1;
      ghost var states := Combat.KillTrace(Snapshot(), es);
      var i := 0;
      while i < enemies.Length
        invariant 0 <= i <= enemies.Length
        invariant Snapshot() == states[i]
        invariant forall j :: 0 <= j < enemies.Length ==>
                    enemies[j].isActive == if j < i then acts[j] else es[j].active
      {
        assert enemies[i].Bounds() == es[i];
        label before:
        KillStep(enemies[i]);
        assert enemies[i].isActive == acts[i];
        assert forall j :: 0 <= j < enemies.Length && j != i ==>
                 enemies[j].isActive == old@before(enemies[j].isActive);
        i := i + 1;
      }
    }

    /** A walker always heads left. */
    method AIWalker()
      modifies this`movement
      ensures Snapshot() == Behaviour.WalkerStep(old(Snapshot()))
    {
      movement := Vec2(-1.0, 0.0);
    }

    /** Wait until the player is within 3 units, then walk towards its side. */
    method AIWaitAndGo(player: Entity)
      modifies this`aiState, this`movement
      ensures Snapshot() == Behaviour.WaitAndGoStep(old(Snapshot()), old(player.position))
    {
      match aiState
      case Idle =>
        if DistSq(position, player.position) < Behaviour.WaitAndGoRange * Behaviour.WaitAndGoRange {
          aiState := Walking;
        }
      case Walking =>
        if player.position.x < position.x {
          movement := Vec2(-1.0, 0.0);
        } else {
          movement := Vec2(1.0, 0.0);
        }
      case _ =>
    }

    /** Wait until the player is within 5 units, then lurch once towards it,
        hopping when at ground height, and wait again. */
    method AILurcher(player: Entity)
      modifies this`aiState, this`movement, this`velocity
      ensures Snapshot() == Behaviour.LurcherStep(old(Snapshot()), old(player.position))
    {
      match aiState
      case Idle =>
        if DistSq(position, player.position) < Behaviour.SpringRange * Behaviour.SpringRange {
          aiState := Lurching;
        }
      case Lurching =>
        if position.x < player.position.x {
          movement := Vec2(Behaviour.LurchSpeed, 0.0);
        } else {
          movement := Vec2(-Behaviour.LurchSpeed, 0.0);
        }
        if position.y == Behaviour.LurchGround {
          velocity := velocity.(y := velocity.y + Behaviour.LurchHop);
        }
        aiState := Idle;
      case _ =>
    }

    /** Wait until the player is within 5 units, then glide once towards it,
        sinking slightly, and wait again. */
    method AIGlider(player: Entity)
      modifies this`aiState, this`movement, this`velocity
      ensures Snapshot() == Behaviour.GliderStep(old(Snapshot()), old(player.position))
    {
      match aiState
      case Idle =>
        if DistSq(position, player.position) < Behaviour.SpringRange * Behaviour.SpringRange {
          aiState := Gliding;
        }
      case Gliding =>
        if position.x < player.position.x {
          movement := Vec2(1.0, 0.0);
        } else {
          movement := Vec2(-1.0, 0.0);
        }
        velocity := velocity.(y := velocity.y - Behaviour.GlideSink);
        aiState := Idle;
      case _ =>
    }

    /** Dispatch on aiType; every behaviour but the walker reads the player. */
    method AI(player: Entity?)
      requires aiType != Walker ==> player != null
      modifies this`aiState, this`movement, this`velocity
      ensures Snapshot() == Behaviour.Think(old(Snapshot()), old(PositionOf(player)))
    {
      match aiType
      case Walker => AIWalker();
      case WaitAndGo => AIWaitAndGo(player);
      case Lurcher => AILurcher(player);
      case Glider => AIGlider(player);
    }

    /** The collision flags describe one step only. */
    method ClearFlags()
      modifies this`collidedTop, this`collidedBottom, this`collidedLeft, this`collidedRight
      ensures Snapshot() == Stepping.ClearFlags(old(Snapshot()))
    {
      collidedTop := false;
      collidedBottom := false;
      collidedLeft := false;
      collidedRight := false;
    }

    /** Stage one of a step: clear the collision flags, then run the AI
        (an enemy) or the kill check (a player). */
    method Engage(player: Entity?, enemies: array<Entity>)
      requires entityType == Enemy && aiType != Walker ==> player != null
      requires entityType == Player ==>
                 Distinct(enemies) && forall i :: 0 <= i < enemies.Length ==> enemies[i] != this
      modifies this`collidedTop, this`collidedBottom, this`collidedLeft, this`collidedRight
      modifies this`aiState, this`movement, this`position, this`velocity, this`isActive
      modifies this`enemiesKilled, this`lastCollision
      modifies (set i | 0 <= i < enemies.Length :: enemies[i])`isActive
      ensures var r := Stepping.Engage(Stepping.ClearFlags(old(Snapshot())), old(PositionOf(player)), old(BoxesOf(enemies)));
        && Snapshot() == r.0
        && forall i :: 0 <= i < enemies.Length && enemies[i] != this ==> enemies[i].isActive == r.1[i]
    {
      ClearFlags();
      if entityType == Enemy {
        AI(player);
      } else if entityType == Player {
        CheckIfEnemyOrPlayerKilled(enemies);
      }
    }

    /** Stage two: advance the animation frame timer. */
    method Animate(deltaTime: real)
      modifies this`animTime, this`animIndex
      ensures Snapshot() == Stepping.Animate(old(Snapshot()), deltaTime)
    {
      if animated {
        if movement != Zero {
          animTime := animTime + deltaTime;
          if animTime >= Stepping.FrameDuration {
            animTime := 0.0;
            animIndex := animIndex + 1;
            if animIndex >= animFrames {
              animIndex := 0;
            }
          }
        } else {
          animIndex := 0;
        }
      }
    }

    /** Stage three: fire a pending jump, set the horizontal velocity from
        the intent and apply the acceleration. */
    method Accelerate(deltaTime: real)
      modifies this`velocity, this`jump
      ensures Snapshot() == Stepping.Accelerate(Stepping.Launch(old(Snapshot())), deltaTime)
    {
      if jump {
        velocity := velocity.(y := velocity.y + jumpPower);
        jump := false;
      }
      velocity := velocity.(x := movement.x * speed);
      velocity := Vec2(velocity.x + acceleration.x * deltaTime, velocity.y + acceleration.y * deltaTime);
    }

    /** Stages one to three: everything a step does before the entity moves. */
    method Prepare(deltaTime: real, player: Entity?, enemies: array<Entity>)
      requires entityType == Enemy && aiType != Walker ==> player != null
      requires entityType == Player ==>
                 Distinct(enemies) && forall i :: 0 <= i < enemies.Length ==> enemies[i] != this
      modifies this`collidedTop, this`collidedBottom, this`collidedLeft, this`collidedRight
      modifies this`aiState, this`movement, this`position, this`velocity, this`isActive
      modifies this`enemiesKilled, this`lastCollision, this`animTime, this`animIndex, this`jump
      modifies (set i | 0 <= i < enemies.Length :: enemies[i])`isActive
      ensures var r := Stepping.Prepare(old(Snapshot()), deltaTime, old(PositionOf(player)), old(BoxesOf(enemies)));
        && Snapshot() == r.0
        && forall i :: 0 <= i < enemies.Length && enemies[i] != this ==> enemies[i].isActive == r.1[i]
    {
      Engage(player, enemies);
      Animate(deltaTime);
      Accelerate(deltaTime);
    }

    /** Integrate the position along one axis. */
    method MoveAlong(ax: Axis, deltaTime: real)
      modifies this`position
      ensures Snapshot() == Stepping.Move(old(Snapshot()), ax, deltaTime)
    {
      match ax
      case Y => position := position.(y := position.y + velocity.y * deltaTime);
      case X => position := position.(x := position.x + velocity.x * deltaTime);
    }

    /** Stages four and five: move along Y and resolve against the platforms,
        then the same along X. */
    method Travel(deltaTime: real, platforms: array<Entity>)
      modifies this`position, this`velocity, this`collidedTop, this`collidedBottom
      modifies this`collidedLeft, this`collidedRight, this`lastCollision
      ensures Snapshot() == Stepping.Travel(old(Snapshot()), deltaTime, old(PartnersOf(platforms)))
    {
      MoveAlong(Y, deltaTime);
      CheckCollisionsY(platforms);
      MoveAlong(X, deltaTime);
      CheckCollisionsX(platforms);
    }

    /** One simulation step of this entity against the player, the
        platforms and the enemies of the level. */
    method Update(deltaTime: real, player: Entity?, platforms: array<Entity>, enemies: array<Entity>)
      requires isActive && entityType == Enemy && aiType != Walker ==> player != null
      requires isActive && entityType == Player ==>
                 && Distinct(enemies)
                 && (forall i :: 0 <= i < enemies.Length ==> enemies[i] != this)
                 && Disjoint(platforms, enemies)
      modifies this, (set i | 0 <= i < enemies.Length :: enemies[i])`isActive
      ensures var r := Stepping.Step(old(Snapshot()), deltaTime, old(PositionOf(player)),
                                     old(PartnersOf(platforms)), old(BoxesOf(enemies)));
        && Snapshot() == r.0
        && forall i :: 0 <= i < enemies.Length && enemies[i] != this ==> enemies[i].isActive == r.1[i]
    {
      if !isActive {
        return;
      }
      ghost var ps := PartnersOf(platforms);
      Prepare(deltaTime, player, enemies);
      assert PartnersOf(platforms) == ps;
      Travel(deltaTime, platforms);
    }
  }
}
