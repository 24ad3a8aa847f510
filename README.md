# Platformer entity simulation in Dafny

This project models the per-step simulation of one `Entity` of a 2D
platformer (`P4/SDLProject/Entity.cpp`). The player, the enemies and the
platforms are all entities. In one step, an entity:

- clears its four collision flags;
- runs its AI (an enemy) or the stomp/kill check against the enemy list (a player);
- advances its animation frame;
- fires a pending jump and sets its velocity from the movement intent and the acceleration;
- moves along Y and resolves collisions with the platform list;
- then does the same along X.

The model has two layers:

- **Values.** The modules `Geometry`, `Bodies`, `Resolution`, `Combat`,
  `Behaviour` and `Stepping` describe an entity as an immutable record
  (`Bodies.Body`). Every operation is a function over that record, and the
  promised properties are proved as lemmas about those functions.
- **Objects.** The module `Entities` holds the class `Entity`. Its fields
  are updated in place. The platform and enemy lists are `array<Entity>`.
  Every method is proved to leave the entity, and the enemies it touches,
  in the state the corresponding function computes from the state it
  started in (`Snapshot()` is the entity's fields as a `Body`).

Numbers are exact reals. `fabs` is `Abs`. Vectors are two-dimensional: every
z component is taken to be 0 (see "## Left out"). Under that reading a test
`glm::distance(a, b) < r` is `DistSq(a, b) < r * r`, which is the same test
for non-negative `r`, and `glm::length(movement) != 0` is `movement != Zero`.

Conventions the model follows from the code:

- A lurch heads towards the player: its intent is +3 when `position.x < player->position.x` (Entity.cpp 122-123), and -3 otherwise.
- Y grows upwards: a mover with `velocity.y < 0` is falling, and hitting a platform then sets `collidedBottom` (Entity.cpp 35-38).
- The frame index stays in range only if it starts in range: line 163 increments it and line 164 resets it only when it reaches `animFrames` (Stepping.FrameIndexInRange).

## Model

| member | source | states |
|---|---|---|
| Geometry.CollidesIffOverlapBothAxes | P4/SDLProject/Entity.cpp:13-22 | the overlap test holds exactly when both entities are active and their extents overlap on both axes (reference definition by intervals) |
| Geometry.GapNegativeIffOverlap | P4/SDLProject/Entity.cpp:15-17 | a strictly negative gap on an axis is exactly an overlap of the two open intervals on that axis |
| Geometry.InactiveNeverCollides | P4/SDLProject/Entity.cpp:14 | if either entity is inactive there is no collision, in either direction |
| Geometry.CollidesSymmetric | P4/SDLProject/Entity.cpp:15-17 | the overlap test gives the same answer whichever entity asks |
| Geometry.SeparatedNeverCollides | P4/SDLProject/Entity.cpp:15-17 | boxes whose projections on one axis are disjoint or only touch do not collide |
| Geometry.SelfCollides | P4/SDLProject/Entity.cpp:13-22 | an active entity with positive extents collides with itself, which matters when it is in its own platform list |
| Entities.Entity.CheckCollision | P4/SDLProject/Entity.cpp:13-22 | the result is the overlap test of the two boxes; lastCollision becomes the other entity's type on a hit and is unchanged otherwise; nothing else changes |
| Resolution.Penetration | P4/SDLProject/Entity.cpp:28-29 | the penetration depth is never negative, and for overlapping boxes it is the sum of the half-extents minus the centre distance |
| Resolution.Push | P4/SDLProject/Entity.cpp:27-39 | one platform changes only that axis's position and velocity, that axis's flags and lastCollision; no overlap means no change; a hit records the platform's type; zero velocity on the axis means only lastCollision may change |
| Resolution.PushStops | P4/SDLProject/Entity.cpp:30-39 | moving towards +axis the mover is pushed back by the penetration and collidedTop/collidedRight is set; moving towards -axis it is pushed forward and collidedBottom/collidedLeft is set; the velocity becomes zero and the other flag is kept |
| Resolution.PushSeparates | P4/SDLProject/Entity.cpp:27-39 | running into the near face of a platform leaves the mover flush against that face and no longer overlapping |
| Resolution.ResolveOnlyAxis | P4/SDLProject/Entity.cpp:24-42 | a whole pass changes only that axis's position and velocity, that axis's two flags and lastCollision |
| Resolution.ResolveInactive | P4/SDLProject/Entity.cpp:24-42 | a pass leaves an inactive entity unchanged |
| Resolution.ResolveAtRest | P4/SDLProject/Entity.cpp:30-39 | with zero velocity on the axis, a pass moves nothing and sets no flag; only lastCollision may change |
| Resolution.ResolveStopsAtMostOnce | P4/SDLProject/Entity.cpp:24-62 | after a pass the axis state is either unchanged, or the entity was stopped with the one flag matching its incoming direction set |
| Resolution.ResolveVelocity | P4/SDLProject/Entity.cpp:24-62 | after a pass the velocity on the axis is unchanged, or zero with a flag of that axis set |
| Resolution.ResolveKeepsFlags | P4/SDLProject/Entity.cpp:33-38 | a pass never clears a flag that is already set |
| Resolution.LandsOnPlatform | P4/SDLProject/Entity.cpp:24-42 | an entity falling into a platform below it ends standing on the platform's top face, with collidedBottom set, vertical velocity zero, x unchanged and no overlap |
| Entities.Entity.PushOutOfY | P4/SDLProject/Entity.cpp:26-40 | one platform of the vertical pass, done on the fields, gives the fields Resolution.Push computes along Y |
| Entities.Entity.PushOutOfX | P4/SDLProject/Entity.cpp:46-60 | one platform of the horizontal pass, done on the fields, gives the fields Resolution.Push computes along X |
| Entities.Entity.CheckCollisionsY | P4/SDLProject/Entity.cpp:24-42 | the vertical pass over the platform array leaves the entity as Resolution.Resolve along Y computes; it writes only position, velocity, collidedTop, collidedBottom and lastCollision, and no platform is modified |
| Entities.Entity.CheckCollisionsX | P4/SDLProject/Entity.cpp:44-62 | the same for the horizontal pass, writing only position, velocity, collidedLeft, collidedRight and lastCollision |
| Combat.Stomp | P4/SDLProject/Entity.cpp:67-77 | no contact changes nothing; contact while moving down deactivates the enemy, zeroes the player's vertical velocity, lifts the player by the penetration and adds exactly one kill; any other contact deactivates the player and leaves the enemy as it was |
| Combat.KillTrace | P4/SDLProject/Entity.cpp:64-78 | the kill check meets the enemies in array order, each against the player state the earlier ones left, and each enemy's new isActive is what its own meeting decided |
| Combat.KillCheckCounts | P4/SDLProject/Entity.cpp:74 | the kill counter grows by exactly the number of enemies the check deactivated |
| Combat.KillCheckOnly | P4/SDLProject/Entity.cpp:64-78 | the check changes only position.y, velocity.y, isActive (never from false to true), lastCollision and enemiesKilled (never lowered) |
| Combat.KillCheckOnlyStomped | P4/SDLProject/Entity.cpp:70-76 | an enemy's isActive changes only if the player overlapped it while moving down, and then from true to false; every other enemy is unchanged |
| Combat.KillCheckInactive | P4/SDLProject/Entity.cpp:14 | an inactive player touches no enemy and is not changed |
| Combat.StompThenDie | P4/SDLProject/Entity.cpp:64-78 | if two enemies overlap a falling player, the first is stomped; that stops the player, so touching the second kills it |
| Entities.Entity.StompOn | P4/SDLProject/Entity.cpp:66-77 | one enemy of the loop, done on the fields, gives the player fields and the enemy flag that Combat.Stomp computes |
| Entities.Entity.KillStep | P4/SDLProject/Entity.cpp:66-77 | the same step stated on the whole player: every field StompOn does not write keeps its value |
| Entities.Entity.CheckIfEnemyOrPlayerKilled | P4/SDLProject/Entity.cpp:64-78 | the loop over the enemy array leaves the player as Combat.KillCheck computes, and each enemy's isActive is that enemy's entry of the check; no other enemy field changes |
| Behaviour.WalkerStep | P4/SDLProject/Entity.cpp:98-100 | a walker step changes at most the intent, the vertical velocity and the AI state, and any new intent is horizontal |
| Behaviour.WaitAndGoStep | P4/SDLProject/Entity.cpp:102-114 | a wait-and-go step changes at most the intent, the vertical velocity and the AI state, and any new intent is horizontal |
| Behaviour.LurcherStep | P4/SDLProject/Entity.cpp:116-128 | a lurcher step changes at most the intent, the vertical velocity and the AI state, and any new intent is horizontal |
| Behaviour.GliderStep | P4/SDLProject/Entity.cpp:130-142 | a glider step changes at most the intent, the vertical velocity and the AI state, and any new intent is horizontal |
| Behaviour.Think | P4/SDLProject/Entity.cpp:81-96 | the AI dispatch has the same frame as every behaviour |
| Behaviour.WalkerAlwaysLeft | P4/SDLProject/Entity.cpp:98-100 | a walker heads left, (-1, 0), every step, whatever its state, and its state is unchanged |
| Behaviour.LeavesIdleOnlyWhenNear | P4/SDLProject/Entity.cpp:104-105 | an idle enemy enters its behaviour's engaged state exactly when the player is strictly within its range (3 for wait-and-go, 5 for lurcher and glider), otherwise it stays idle; intent and velocity are unchanged in that step |
| Behaviour.StaysReachable | P4/SDLProject/Entity.cpp:102-142 | starting from a state reachable from Idle, an AI step stays among the states that behaviour can reach |
| Behaviour.WaitAndGoFollows | P4/SDLProject/Entity.cpp:107-110 | a walking wait-and-go enemy keeps walking and heads to the player's side: left if the player is left of it, otherwise right |
| Behaviour.AttackingNeverEntered | P4/SDLProject/Entity.cpp:102-142 | no behaviour ever enters Attacking |
| Behaviour.PulseEnds | P4/SDLProject/Entity.cpp:116-142 | a lurch or a glide lasts one step: the state is Idle again afterwards |
| Behaviour.SpringIsOnePulse | P4/SDLProject/Entity.cpp:116-142 | a lurcher or glider that springs is Idle again two steps later, with an intent of speed 3 (lurcher) or 1 (glider) towards the player's side |
| Behaviour.UnhandledStateIsNoOp | P4/SDLProject/Entity.cpp:102-142 | a wait-and-go, lurcher or glider enemy in a state its switch has no case for (for wait-and-go: Attacking, which is an explicit no-op, Lurching or Gliding) is left unchanged by an AI step |
| Behaviour.GlideSinks | P4/SDLProject/Entity.cpp:135-139 | a gliding glider loses 0.001 of vertical velocity, keeps its horizontal velocity, heads right (1, 0) when the player is strictly to its right and left (-1, 0) otherwise, and returns to Idle |
| Behaviour.LurchHeads | P4/SDLProject/Entity.cpp:121-125 | a lurching lurcher heads right at speed 3 when the player, as it stands at that step, is strictly to its right and left at speed 3 otherwise, and returns to Idle |
| Behaviour.LurchHopsOnlyOnGround | P4/SDLProject/Entity.cpp:124 | a lurch adds 3 to the vertical velocity exactly when the lurcher stands at height -2.25 |
| Entities.Entity.AIWalker | P4/SDLProject/Entity.cpp:98-100 | the method leaves the enemy as Behaviour.WalkerStep computes |
| Entities.Entity.AIWaitAndGo | P4/SDLProject/Entity.cpp:102-114 | the method leaves the enemy as Behaviour.WaitAndGoStep computes from the player's position |
| Entities.Entity.AILurcher | P4/SDLProject/Entity.cpp:116-128 | the method leaves the enemy as Behaviour.LurcherStep computes from the player's position |
| Entities.Entity.AIGlider | P4/SDLProject/Entity.cpp:130-142 | the method leaves the enemy as Behaviour.GliderStep computes from the player's position |
| Entities.Entity.AI | P4/SDLProject/Entity.cpp:81-96 | dispatch on aiType leaves the enemy as Behaviour.Think computes |
| Stepping.Animate | P4/SDLProject/Entity.cpp:156-168 | only the frame index and timer change, and only for an animated entity; no intent means frame 0; the timer runs while moving; reaching 0.25 resets it and advances the index modulo animFrames; an index in range stays in range |
| Stepping.Launch | P4/SDLProject/Entity.cpp:170-173 | a pending jump adds jumpPower to the vertical velocity once, and the jump request is always cleared |
| Stepping.Step | P4/SDLProject/Entity.cpp:147 | a step of an inactive entity changes nothing, neither the entity nor any enemy |
| Stepping.EngageOnly | P4/SDLProject/Entity.cpp:153-154 | the AI or kill-check stage leaves flags, animation, jump and shape alone, never revives the entity and never lowers the kill counter; a non-player keeps its isActive and counter |
| Stepping.ResolveBothOnly | P4/SDLProject/Entity.cpp:178-182 | the two passes change only positions, velocities, flags and lastCollision, and the X pass keeps what the Y pass decided for Y |
| Stepping.StepFlagsAreFresh | P4/SDLProject/Entity.cpp:148-151 | the flags an active step ends with do not depend on the flags it started with |
| Stepping.NoPlatformsNoFlags | P4/SDLProject/Entity.cpp:148-151 | with no platforms, an active step ends with all four flags clear |
| Stepping.JumpIsOneShot | P4/SDLProject/Entity.cpp:170-176 | after a step the jump request is clear, and the vertical velocity entering the Y move includes jumpPower exactly when a jump was pending |
| Stepping.HorizontalVelocity | P4/SDLProject/Entity.cpp:175-182 | before the X pass the horizontal velocity is movement.x * speed + acceleration.x * deltaTime, whatever it was; after the pass it is that value, or zero with a side flag set |
| Stepping.VerticalVelocity | P4/SDLProject/Entity.cpp:176-179 | the vertical velocity after a step is the one the Y move used, or zero with collidedTop or collidedBottom set |
| Stepping.FrameIndexInRange | P4/SDLProject/Entity.cpp:156-168 | a frame index in [0, animFrames) stays there, and an active entity left without movement intent shows frame 0 |
| Stepping.StepMonotone | P4/SDLProject/Entity.cpp:144-186 | a step never revives the entity or an enemy and never lowers the kill counter; only a player's step can raise it, end its own life or change an enemy's isActive (lines 153-154); type, AI type, size and animation set-up are unchanged |
| Entities.Entity.constructor | P4/SDLProject/Entity.cpp:3-11 | a new entity is at the origin with zero movement intent and zero velocity |
| Entities.Entity.ClearFlags | P4/SDLProject/Entity.cpp:148-151 | the four collision flags become false and nothing else changes |
| Entities.Entity.Engage | P4/SDLProject/Entity.cpp:148-154 | flags cleared, then the AI of an enemy or the kill check of a player, exactly as Stepping.Engage computes, enemies included |
| Entities.Entity.Animate | P4/SDLProject/Entity.cpp:156-168 | the method leaves the entity as Stepping.Animate computes |
| Entities.Entity.Accelerate | P4/SDLProject/Entity.cpp:170-176 | the method leaves the entity as Stepping.Launch followed by Stepping.Accelerate computes |
| Entities.Entity.Prepare | P4/SDLProject/Entity.cpp:148-176 | everything before the first move, as Stepping.Prepare computes, enemies included |
| Entities.Entity.MoveAlong | P4/SDLProject/Entity.cpp:178 | the position moves by velocity times deltaTime along one axis, as Stepping.Move computes |
| Entities.Entity.Travel | P4/SDLProject/Entity.cpp:178-182 | move and resolve along Y, then along X, as Stepping.Travel computes |
| Entities.Entity.Update | P4/SDLProject/Entity.cpp:144-182 | a whole step leaves the entity, and every enemy other than itself, in the state Stepping.Step computes; an inactive entity is unchanged |

## Left out

- `Render` and `DrawSpriteFromTextureAtlas` (Entity.cpp 188-239) are not modelled. They are graphics-library calls.
- The model-matrix rebuild at the end of `Update` (lines 184-185) and the identity model matrix in the constructor (line 10) are not modelled. They are foreign matrix calls.
- IEEE-754 `float` semantics are not modelled. All arithmetic is exact real arithmetic, so rounding is not captured. The comparison `position.y == -2.25` is exact real equality.
- The z component of the vectors is not modelled; the model takes every z to be 0. The constructor zeroes it (Entity.cpp 5-8), no step writes `position.z`, and every intent the AI sets has z = 0 (lines 99, 108-109, 122-123, 136-137). z is read only by the distance tests at lines 105, 119 and 133 (a 3D distance, which equals the modelled 2D one only when the two entities' z are equal), by `glm::length(movement)` at line 157, and by `velocity.z += acceleration.z * deltaTime` at line 176 (zero when `acceleration.z` is 0).
- `Entity.h` is not part of this model. Its field declarations become the class fields; default initialisers and the level's set-up code are not modelled.
- The fields a step only reads (type, AI type, size, speed, acceleration, jump power, animation set-up) are `const` fields. The level assigns them once.
- Entities.Entity.constructor: it takes type, AI type, size, speed, acceleration, jump power and animation set-up as parameters, because those fields are `const`. The source's constructor sets speed and acceleration to zero and leaves the others to the level.
- `animIndices` is modelled only as the boolean `animated` (the pointer is not null). The frame list's contents are used only by rendering.
- `platformCount` and `enemyCount` are the array lengths. A count smaller than the array is not modelled.
- Entities.Entity.CheckIfEnemyOrPlayerKilled: it requires that the enemy entries are distinct objects and that the player is not one of them. An array of `Entity` values gives distinct objects. The second condition is the callers' convention.
- Entities.Entity.Update: for a player, it also requires that no entity is both a platform and an enemy. The postcondition says nothing about an enemy entry that is the entity itself.
- Entities.Entity.AI: it requires a non-null player for every behaviour except the walker. The source would dereference a null pointer there.
- `enemiesKilled` and `animIndex` are unbounded integers. A C `int` overflow is not modelled.
