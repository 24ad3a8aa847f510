/** Enemy AI (Entity::AI and its four behaviours): each step a behaviour
    looks at the player's position and updates the enemy's movement intent,
    its AI sub-state and, for the lurcher and the glider, its vertical
    velocity. Nothing else about the enemy changes. */
module Behaviour {
  import opened Geometry
  import opened Bodies

  /** A wait-and-go enemy starts walking once the player is closer than this. */
  const WaitAndGoRange: real := 3.0
  /** Lurchers and gliders spring once the player is closer than this. */
  const SpringRange: real := 5.0
  /** Horizontal intent of a lurch. */
  const LurchSpeed: real := 3.0
  /** The ground height at which a lurch also hops. */
  const LurchGround: real := -2.25
  /** Vertical velocity added by a lurch hop. */
  const LurchHop: real := 3.0
  /** Vertical velocity taken away by a glide. */
  const GlideSink: real := 0.001

  /** The player is strictly within `range` of the enemy (straight-line
      distance, compared squared). */
  predicate Near(b: Body, player: Vec2, range: real) {
    DistSq(b.position, player) < range * range
  }

  /** The state a behaviour enters when the player comes near. */
  function Engaged(t: AIType): AIState {
    match t
    case Walker => Walking
    case WaitAndGo => Walking
    case Lurcher => Lurching
    case Glider => Gliding
  }

  /** The trigger distance of a behaviour. */
  function Range(t: AIType): real {
    if t == WaitAndGo then WaitAndGoRange else SpringRange
  }

  /** The states a behaviour can be found in when it starts from Idle:
      Attacking is declared but never entered, and the lurcher and glider
      never rest outside Idle and their own pulse state. */
  predicate Reachable(t: AIType, s: AIState) {
    match t
    case Walker => true
    case WaitAndGo => s == Idle || s == Walking
    case Lurcher => s == Idle || s == Lurching
    case Glider => s == Idle || s == Gliding
  }

  function WalkerStep(b: Body): (r: Body)
    ensures AIOnly(b, r)
  {
    b.(movement := Vec2(-1.0, 0.0))
  }

  function WaitAndGoStep(b: Body, player: Vec2): (r: Body)
    ensures AIOnly(b, r)
  {
    match b.aiState
    case Idle => if Near(b, player, WaitAndGoRange) then b.(aiState := Walking) else b
    case Walking =>
      b.(movement := if player.x < b.position.x then Vec2(-1.0, 0.0) else Vec2(1.0, 0.0))
    case _ => b  // Attacking does nothing; the other states have no case
  }

  function LurcherStep(b: Body, player: Vec2): (r: Body)
    ensures AIOnly(b, r)
  {
    match b.aiState
    case Idle => if Near(b, player, SpringRange) then b.(aiState := Lurching) else b
    case Lurching =>
      b.(movement := if b.position.x < player.x then Vec2(LurchSpeed, 0.0) else Vec2(-LurchSpeed, 0.0),
         velocity := if b.position.y == LurchGround
                     then b.velocity.(y := b.velocity.y + LurchHop) else b.velocity,
         aiState := Idle)
    case _ => b
  }

  function GliderStep(b: Body, player: Vec2): (r: Body)
    ensures AIOnly(b, r)
  {
    match b.aiState
    case Idle => if Near(b, player, SpringRange) then b.(aiState := Gliding) else b
    case Gliding =>
      b.(movement := if b.position.x < player.x then Vec2(1.0, 0.0) else Vec2(-1.0, 0.0),
         velocity := b.velocity.(y := b.velocity.y - GlideSink),
         aiState := Idle)
    case _ => b
  }

  /** `r` differs from `b` at most in what an AI step writes: the
      intent, the vertical velocity and the AI state; a new intent is always
      horizontal. */
  predicate AIOnly(b: Body, r: Body) {
    && r == b.(movement := r.movement, velocity := b.velocity.(y := r.velocity.y), aiState := r.aiState)
    && (r.movement != b.movement ==> r.movement.y == 0.0)
  }

  /** One AI step of an enemy, dispatched on its aiType. */
  function Think(b: Body, player: Vec2): (r: Body)
    ensures AIOnly(b, r)
  {
    match b.aiType
    case Walker => WalkerStep(b)
    case WaitAndGo => WaitAndGoStep(b, player)
    case Lurcher => LurcherStep(b, player)
    case Glider => GliderStep(b, player)
  }

  /** A walker heads left every step, whatever its state. */
  lemma WalkerAlwaysLeft(b: Body, player: Vec2)
    requires b.aiType == Walker
    ensures Think(b, player).movement == Vec2(-1.0, 0.0)
    ensures Think(b, player).aiState == b.aiState
  {
  }

  /** An idle enemy leaves Idle exactly when the player is within its
      behaviour's range, entering that behaviour's engaged state; the step
      that does so changes neither intent nor velocity. */
  lemma LeavesIdleOnlyWhenNear(b: Body, player: Vec2)
    requires b.aiType != Walker && b.aiState == Idle
    ensures var r := Think(b, player);
      && r.aiState == (if Near(b, player, Range(b.aiType)) then Engaged(b.aiType) else Idle)
      && r.movement == b.movement && r.velocity == b.velocity
  {
  }

  /** The states of every behaviour stay among those reachable from Idle;
      in particular a wait-and-go enemy never attacks. */
  lemma StaysReachable(b: Body, player: Vec2)
    requires Reachable(b.aiType, b.aiState)
    ensures Reachable(b.aiType, Think(b, player).aiState)
  {
  }

  /** A walking wait-and-go enemy heads towards the player's side; when the
      player is level with it, it heads right. */
  lemma WaitAndGoFollows(b: Body, player: Vec2)
    requires b.aiType == WaitAndGo && b.aiState == Walking
    ensures var r := Think(b, player);
      && r.aiState == Walking
      && (player.x < b.position.x ==> r.movement == Vec2(-1.0, 0.0))
      && (player.x >= b.position.x ==> r.movement == Vec2(1.0, 0.0))
  {
  }

  /** Attacking is never entered by any behaviour. */
  lemma AttackingNeverEntered(b: Body, player: Vec2)
    requires b.aiState != Attacking
    ensures Think(b, player).aiState != Attacking
  {
  }

  /** A lurch or a glide lasts one step. */
  lemma PulseEnds(b: Body, player: Vec2)
    requires b.aiType in {Lurcher, Glider} && b.aiState == Engaged(b.aiType)
    ensures Think(b, player).aiState == Idle
  {
  }

  /** A lurcher or a glider that springs is Idle again one step later,
      heading towards the player's side; when level with the player it
      heads left. */
  lemma SpringIsOnePulse(b: Body, player: Vec2)
    requires b.aiType in {Lurcher, Glider} && b.aiState == Idle
    requires Near(b, player, SpringRange)
    ensures var r := Think(Think(b, player), player);
      var speed := if b.aiType == Lurcher then LurchSpeed else 1.0;
      && r.aiState == Idle
      && r.position == b.position
      && r.movement == (if b.position.x < player.x then Vec2(speed, 0.0) else Vec2(-speed, 0.0))
  {
    var mid := Think(b, player);
    assert mid.aiState == Engaged(b.aiType) && mid.position == b.position;
  }

  /** A behaviour in a state its switch has no case for (for a wait-and-go
      enemy: Attacking, Lurching or Gliding) leaves the enemy unchanged. */
  lemma UnhandledStateIsNoOp(b: Body, player: Vec2)
    requires b.aiType != Walker
    requires b.aiState != Idle && b.aiState != Engaged(b.aiType)
    ensures Think(b, player) == b
  {
  }

  /** A glide takes GlideSink off the vertical velocity, heads right when the
      player is strictly to the right and left otherwise, and ends in Idle. */
  lemma GlideSinks(b: Body, player: Vec2)
    requires b.aiType == Glider && b.aiState == Gliding
    ensures var r := Think(b, player);
      && r.velocity.y == b.velocity.y - GlideSink
      && r.velocity.x == b.velocity.x
      && r.aiState == Idle
      && r.movement == (if b.position.x < player.x then Vec2(1.0, 0.0) else Vec2(-1.0, 0.0))
  {
  }

  /** A lurch heads towards the player as it stands at that step: right at
      LurchSpeed when the player is strictly to the right, left otherwise;
      the lurcher is Idle again afterwards. */
  lemma LurchHeads(b: Body, player: Vec2)
    requires b.aiType == Lurcher && b.aiState == Lurching
    ensures var r := Think(b, player);
      && r.aiState == Idle
      && r.movement == (if b.position.x < player.x then Vec2(LurchSpeed, 0.0) else Vec2(-LurchSpeed, 0.0))
  {
  }

  /** A lurch adds the hop only when the lurcher stands exactly at ground height. */
  lemma LurchHopsOnlyOnGround(b: Body, player: Vec2)
    requires b.aiType == Lurcher && b.aiState == Lurching
    ensures var r := Think(b, player);
      r.velocity.y == (if b.position.y == LurchGround then b.velocity.y + LurchHop else b.velocity.y)
  {
  }
}
