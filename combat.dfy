/** The player-versus-enemy rule (Entity::CheckIfEnemyOrPlayerKilled): a
    player that meets an enemy while moving down stomps it, any other
    contact kills the player. */
module Combat {
  import opened Geometry
  import opened Bodies
  import Resolution

  /** One enemy `e` met by the player `b`: the player's new state and the
      enemy's new isActive. */
  function Stomp(b: Body, e: Box): (r: (Body, bool))
    ensures !Collides(b.Bounds(), e) ==> r == (b, e.active)
    ensures Collides(b.Bounds(), e) && b.velocity.y < 0.0 ==>
              && !r.1 && r.0.isActive
              && r.0.enemiesKilled == b.enemiesKilled + 1
              && r.0.velocity.y == 0.0
              && r.0.position.y == b.position.y + Resolution.Penetration(b, e, Y)
    ensures Collides(b.Bounds(), e) && b.velocity.y >= 0.0 ==>
              !r.0.isActive && r.1 == e.active && r.0.enemiesKilled == b.enemiesKilled
    ensures Collides(b.Bounds(), e) ==> r.0.lastCollision == e.kind
    ensures StompOnly(b, r.0)
  {
    if !Collides(b.Bounds(), e) then (b, e.active)
    else
      var seen := b.(lastCollision := e.kind);
      if b.velocity.y < 0.0 then
        var d := Resolution.Penetration(b, e, Y);
        (seen.(position := b.position.(y := b.position.y + d),
               velocity := b.velocity.(y := 0.0),
               enemiesKilled := b.enemiesKilled + 1), false)
      else
        (seen.(isActive := false), e.active)
  }

  /** The fields a stomp or a death may write, one by one. */
  lemma StompFields(b: Body, e: Box)
    ensures var r := Stomp(b, e).0;
      r == b.(position := r.position, velocity := r.velocity, isActive := r.isActive,
              enemiesKilled := r.enemiesKilled, lastCollision := r.lastCollision)
  {
  }

  /** `r` differs from `b` at most in what the kill check writes: position.y,
      velocity.y, isActive (only ever cleared), lastCollision and
      enemiesKilled (never lowered). */
  predicate StompOnly(b: Body, r: Body) {
    && r == b.(position := b.position.(y := r.position.y),
               velocity := b.velocity.(y := r.velocity.y),
               isActive := r.isActive,
               lastCollision := r.lastCollision,
               enemiesKilled := r.enemiesKilled)
    && (r.isActive ==> b.isActive)
    && r.enemiesKilled >= b.enemiesKilled
  }

  /** The whole enemy list, in order; each enemy is met by the player as
      the earlier enemies left it. Returns the player's new state and the
      new isActive of every enemy. */
  function KillCheck(b: Body, es: seq<Box>): (r: (Body, seq<bool>))
    ensures |r.1| == |es|
    decreases |es|
  {
    if es == [] then (b, [])
    else
      var prev := KillCheck(b, es[..|es| - 1]);
      var last := Stomp(prev.0, es[|es| - 1]);
      (last.0, prev.1 + [last.1])
  }

  /** The player's state before each enemy of the check, and after the
      last one: each enemy meets the state the one before it left. */
  lemma {:induction false} KillTrace(b: Body, es: seq<Box>) returns (states: seq<Body>)
    ensures |states| == |es| + 1 && states[0] == b
    ensures forall k {:trigger Stomp(states[k], es[k])} :: 0 <= k < |es| ==>
              && states[k + 1] == Stomp(states[k], es[k]).0
              && KillCheck(b, es).1[k] == Stomp(states[k], es[k]).1
    ensures states[|es|] == KillCheck(b, es).0
    decreases |es|
  {
    if es == [] {
      states := [b];
    } else {
      var n := |es| - 1;
      var prev := KillTrace(b, es[..n]);
      states := prev + [Stomp(prev[n], es[n]).0];
      forall k | 0 <= k < |es|
        ensures && states[k + 1] == Stomp(states[k], es[k]).0
                && KillCheck(b, es).1[k] == Stomp(states[k], es[k]).1
      {
        if k < n {
          assert es[..n][k] == es[k];
        }
      }
    }
  }

  /** Number of enemies that were active before and are inactive after. */
  function Kills(es: seq<Box>, acts: seq<bool>): nat
    requires |es| == |acts|
    decreases |es|
  {
    if es == [] then 0
    else
      var n := |es| - 1;
      Kills(es[..n], acts[..n]) + (if es[n].active && !acts[n] then 1 else 0)
  }

  /** The kill counter grows by exactly the number of enemies the check
      deactivated, so it never decreases. */
  lemma {:induction false} KillCheckCounts(b: Body, es: seq<Box>)
    ensures var (r, acts) := KillCheck(b, es);
      r.enemiesKilled == b.enemiesKilled + Kills(es, acts)
    decreases |es|
  {
    if es != [] {
      var n := |es| - 1;
      var (prev, acts) := KillCheck(b, es[..n]);
      KillCheckCounts(b, es[..n]);
      var (next, a) := Stomp(prev, es[n]);
      var all := acts + [a];
      assert all[..n] == acts;
      assert es[n].active && !a ==> Collides(prev.Bounds(), es[n]) && prev.velocity.y < 0.0;
    }
  }

  /** The player's state changes only in what a stomp or a death writes. */
  lemma {:induction false} KillCheckOnly(b: Body, es: seq<Box>)
    ensures StompOnly(b, KillCheck(b, es).0)
    decreases |es|
  {
    if es != [] {
      KillCheckOnly(b, es[..|es| - 1]);
    }
  }

  /** An enemy's isActive changes only when the player, as it stood when
      that enemy was checked, overlapped it while moving down; and then it
      goes from true to false. Enemies the player did not stomp are unchanged. */
  lemma {:induction false} KillCheckOnlyStomped(b: Body, es: seq<Box>, i: nat)
    requires i < |es|
    ensures var acts := KillCheck(b, es).1;
      var at := KillCheck(b, es[..i]).0;
      acts[i] != es[i].active ==>
        es[i].active && !acts[i] && Collides(at.Bounds(), es[i]) && at.velocity.y < 0.0
    decreases |es|
  {
    var n := |es| - 1;
    var (prev, acts) := KillCheck(b, es[..n]);
    var (next, a) := Stomp(prev, es[n]);
    assert KillCheck(b, es).1 == acts + [a];
    if i < n {
      KillCheckOnlyStomped(b, es[..n], i);
      assert es[..n][..i] == es[..i];
    } else {
      assert es[..i] == es[..n];
    }
  }

  /** A player that is already inactive touches nothing. */
  lemma {:induction false} KillCheckInactive(b: Body, es: seq<Box>)
    requires !b.isActive
    ensures KillCheck(b, es) == (b, Activity(es))
    decreases |es|
  {
    if es != [] {
      var n := |es| - 1;
      KillCheckInactive(b, es[..n]);
      assert Activity(es) == Activity(es[..n]) + [es[n].active];
    }
  }

  /** Two enemies in a row: the second meets the player as the first left it. */
  lemma KillCheckPair(b: Body, e1: Box, e2: Box)
    ensures var first := Stomp(b, e1);
      var second := Stomp(first.0, e2);
      KillCheck(b, [e1, e2]) == (second.0, [first.1, second.1])
  {
    var first := Stomp(b, e1);
    assert [e1][..0] == [];
    assert KillCheck(b, []) == (b, []);
    assert [] + [first.1] == [first.1];
    assert KillCheck(b, [e1]) == (first.0, [first.1]);
    assert [e1, e2][..1] == [e1];
    assert [first.1] + [Stomp(first.0, e2).1] == [first.1, Stomp(first.0, e2).1];
  }

  /** Two enemies overlapping the player at once: the first is stomped, which
      stops the player, so contact with the second one is no longer a stomp
      and kills the player. */
  lemma StompThenDie(b: Body, e1: Box, e2: Box)
    requires Collides(b.Bounds(), e1) && b.velocity.y < 0.0
    requires Collides(Stomp(b, e1).0.Bounds(), e2)
    ensures var (r, acts) := KillCheck(b, [e1, e2]);
      !r.isActive && acts == [false, e2.active] && r.enemiesKilled == b.enemiesKilled + 1
  {
    KillCheckPair(b, e1, e2);
  }
}
