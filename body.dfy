/** The value of one entity: every field the per-step simulation of
    Entity.cpp reads or writes, as one immutable record. The class in
    Entities holds the same fields and is specified by functions over this
    record. */
module Bodies {
  import opened Geometry

  /** Behaviour selector of an enemy. */
  datatype AIType = Walker | WaitAndGo | Lurcher | Glider

  /** Sub-state of an enemy's behaviour. */
  datatype AIState = Idle | Walking | Attacking | Lurching | Gliding

  datatype Body = Body(
    isActive: bool,
    entityType: EntityType,
    aiType: AIType,
    aiState: AIState,
    position: Vec2,
    movement: Vec2,
    acceleration: Vec2,
    velocity: Vec2,
    speed: real,
    width: real,
    height: real,
    jump: bool,
    jumpPower: real,
    collidedTop: bool,
    collidedBottom: bool,
    collidedLeft: bool,
    collidedRight: bool,
    lastCollision: EntityType,
    animated: bool,       // the entity has an animation-frame list
    animFrames: int,
    animIndex: int,
    animTime: real,
    enemiesKilled: int)
  {
    /** The entity's collision box. */
    function Bounds(): Box {
      Box(isActive, entityType, position, width, height)
    }

    /** Extent along `ax`: that of its collision box. */
    function Extent(ax: Axis): real {
      Bounds().Extent(ax)
    }

    /** The flag set when the entity is stopped while moving towards +ax:
        collidedRight on X, collidedTop on Y. */
    function HitAhead(ax: Axis): bool {
      match ax
      case X => collidedRight
      case Y => collidedTop
    }

    /** The flag set when the entity is stopped while moving towards -ax:
        collidedLeft on X, collidedBottom on Y. */
    function HitBehind(ax: Axis): bool {
      match ax
      case X => collidedLeft
      case Y => collidedBottom
    }
  }

  /** `r` differs from `b` at most in what one collision pass along `ax` may
      write: the position and velocity components along `ax`, the two flags
      of `ax` and lastCollision. */
  predicate OnlyAxisChanged(b: Body, r: Body, ax: Axis) {
    r == b.(position := With(b.position, ax, Get(r.position, ax)),
            velocity := With(b.velocity, ax, Get(r.velocity, ax)),
            collidedTop := if ax == Y then r.collidedTop else b.collidedTop,
            collidedBottom := if ax == Y then r.collidedBottom else b.collidedBottom,
            collidedLeft := if ax == X then r.collidedLeft else b.collidedLeft,
            collidedRight := if ax == X then r.collidedRight else b.collidedRight,
            lastCollision := r.lastCollision)
  }

  /** A platform as a collision pass meets it: either the moving entity
      itself (an entity may appear in its own platform list) or another
      entity, seen through its box, which the pass never changes. */
  datatype Partner = Itself | Another(box: Box)

  /** The box a partner presents to the current state `b` of the mover. */
  function PartnerBox(b: Body, p: Partner): (o: Box)
    ensures p.Itself? ==> o == b.Bounds()
  {
    match p
    case Itself => b.Bounds()
    case Another(o) => o
  }

  /** The isActive flags of a list of boxes. */
  function Activity(es: seq<Box>): (r: seq<bool>)
    ensures |r| == |es| && forall i :: 0 <= i < |es| ==> r[i] == es[i].active
  {
    seq(|es|, i requires 0 <= i < |es| => es[i].active)
  }
}
