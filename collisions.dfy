/** `checkCollisions` of game.js on values.

    The source walks `projectiles` and, for each one, `enemies` with nested
    `forEach` calls and `splice`s both arrays while they are being walked. A
    `forEach` visits index k only while k is still below the array's current
    length, and both arrays only shrink here, so each pass is an index walk
    against the current length. Two consequences are kept as written:
    - after a removal, the element shifted into the freed slot is skipped;
    - the inner pass keeps testing the projectile it started with, even after
      it was spliced out, and each later hit splices whatever now sits at that
      projectile's old index (possibly another projectile, possibly nothing). */
module Collisions {
  import opened Util
  import opened Geometry
  import opened Entities

  /** The part of the game state the projectile pass changes. */
  datatype Arena = Arena(shots: seq<ShotState>, enemies: seq<EnemyState>, score: int)

  /** The inner `enemies.forEach` for the projectile `shot` that was visited at
      index `slot`, resumed at enemy index `e`. */
  function InnerPass(shot: ShotState, slot: nat, a: Arena, e: nat, points: int): (r: Arena)
    decreases |a.enemies| - e
    ensures |r.shots| <= |a.shots|
    ensures |r.enemies| <= |a.enemies|
  {
    if e >= |a.enemies| then a
    else if IsColliding(ShotBounds(shot), EnemyBounds(a.enemies[e])) then
      InnerPass(shot, slot, Arena(Splice(a.shots, slot), Splice(a.enemies, e), a.score + points), e + 1, points)
    else
      InnerPass(shot, slot, a, e + 1, points)
  }

  /** The outer `projectiles.forEach`, resumed at projectile index `p`. */
  function ProjectilePass(a: Arena, p: nat, points: int): (r: Arena)
    decreases |a.shots| - p
    ensures |r.shots| <= |a.shots|
    ensures |r.enemies| <= |a.enemies|
  {
    if p >= |a.shots| then a
    else ProjectilePass(InnerPass(a.shots[p], p, a, 0, points), p + 1, points)
  }

  lemma MulDistributes(p: int, x: int, y: int)
    ensures p * (x + y) == p * x + p * y
  {
  }

  /** The inner pass only removes: what is left of both lists was there before. */
  lemma {:induction false} InnerPassOnlyRemoves(shot: ShotState, slot: nat, a: Arena, e: nat, points: int)
    ensures var r := InnerPass(shot, slot, a, e, points);
            multiset(r.shots) <= multiset(a.shots) && multiset(r.enemies) <= multiset(a.enemies)
    decreases |a.enemies| - e
  {
    if e < |a.enemies| {
      if IsColliding(ShotBounds(shot), EnemyBounds(a.enemies[e])) {
        var a' := Arena(Splice(a.shots, slot), Splice(a.enemies, e), a.score + points);
        SpliceMultiset(a.shots, slot);
        SpliceMultiset(a.enemies, e);
        InnerPassOnlyRemoves(shot, slot, a', e + 1, points);
        var r := InnerPass(shot, slot, a', e + 1, points);
        assert multiset(r.shots) <= multiset(a'.shots) <= multiset(a.shots);
        assert multiset(r.enemies) <= multiset(a'.enemies) <= multiset(a.enemies);
        assert InnerPass(shot, slot, a, e, points) == r;
      } else {
        InnerPassOnlyRemoves(shot, slot, a, e + 1, points);
        assert InnerPass(shot, slot, a, e, points) == InnerPass(shot, slot, a, e + 1, points);
      }
    }
  }

  /** The projectile pass only removes projectiles and enemies; it never adds or alters one. */
  lemma {:induction false} ProjectilePassOnlyRemoves(a: Arena, p: nat, points: int)
    ensures var r := ProjectilePass(a, p, points);
            multiset(r.shots) <= multiset(a.shots) && multiset(r.enemies) <= multiset(a.enemies)
    decreases |a.shots| - p
  {
    if p < |a.shots| {
      var a' := InnerPass(a.shots[p], p, a, 0, points);
      InnerPassOnlyRemoves(a.shots[p], p, a, 0, points);
      ProjectilePassOnlyRemoves(a', p + 1, points);
    }
  }

  /** Every hit removes exactly one enemy and pays `points`. */
  lemma {:induction false} InnerPassScore(shot: ShotState, slot: nat, a: Arena, e: nat, points: int)
    ensures var r := InnerPass(shot, slot, a, e, points);
            r.score == a.score + points * (|a.enemies| - |r.enemies|)
    decreases |a.enemies| - e
  {
    if e < |a.enemies| {
      if IsColliding(ShotBounds(shot), EnemyBounds(a.enemies[e])) {
        var a' := Arena(Splice(a.shots, slot), Splice(a.enemies, e), a.score + points);
        InnerPassScore(shot, slot, a', e + 1, points);
        var r := InnerPass(shot, slot, a', e + 1, points);
        MulDistributes(points, 1, |a'.enemies| - |r.enemies|);
      } else {
        InnerPassScore(shot, slot, a, e + 1, points);
      }
    }
  }

  /** The score grows by `points` for every enemy the pass removes. */
  lemma {:induction false} ProjectilePassScore(a: Arena, p: nat, points: int)
    ensures var r := ProjectilePass(a, p, points);
            r.score == a.score + points * (|a.enemies| - |r.enemies|)
    decreases |a.shots| - p
  {
    if p < |a.shots| {
      var a' := InnerPass(a.shots[p], p, a, 0, points);
      InnerPassScore(a.shots[p], p, a, 0, points);
      ProjectilePassScore(a', p + 1, points);
      var r := ProjectilePass(a', p + 1, points);
      MulDistributes(points, |a.enemies| - |a'.enemies|, |a'.enemies| - |r.enemies|);
    }
  }

  /** The second half of `checkCollisions`: does the player's box overlap any enemy's? */
  predicate PlayerStruck(player: PlayerState, enemies: seq<EnemyState>) {
    exists i :: 0 <= i < |enemies| && IsColliding(PlayerBounds(player), EnemyBounds(enemies[i]))
  }

  /** An enemy that the projectile does not touch keeps its multiplicity. */
  lemma {:induction false} InnerPassSparesMissed(shot: ShotState, slot: nat, a: Arena, e: nat, points: int, v: EnemyState)
    requires !IsColliding(ShotBounds(shot), EnemyBounds(v))
    ensures multiset(InnerPass(shot, slot, a, e, points).enemies)[v] == multiset(a.enemies)[v]
    decreases |a.enemies| - e
  {
    if e < |a.enemies| {
      if IsColliding(ShotBounds(shot), EnemyBounds(a.enemies[e])) {
        var a' := Arena(Splice(a.shots, slot), Splice(a.enemies, e), a.score + points);
        assert a.enemies[e] != v;
        SpliceMultiset(a.enemies, e);
        assert multiset(a'.enemies)[v] == multiset(a.enemies)[v];
        InnerPassSparesMissed(shot, slot, a', e + 1, points, v);
        assert InnerPass(shot, slot, a, e, points) == InnerPass(shot, slot, a', e + 1, points);
      } else {
        InnerPassSparesMissed(shot, slot, a, e + 1, points, v);
        assert InnerPass(shot, slot, a, e, points) == InnerPass(shot, slot, a, e + 1, points);
      }
    }
  }

  /** Only hit enemies are removed: an enemy that no projectile touches survives
      the whole pass (with its multiplicity). */
  lemma {:induction false} ProjectilePassSparesMissed(a: Arena, p: nat, points: int, v: EnemyState)
    requires forall s :: s in a.shots ==> !IsColliding(ShotBounds(s), EnemyBounds(v))
    ensures multiset(ProjectilePass(a, p, points).enemies)[v] == multiset(a.enemies)[v]
    decreases |a.shots| - p
  {
    if p < |a.shots| {
      var a' := InnerPass(a.shots[p], p, a, 0, points);
      InnerPassSparesMissed(a.shots[p], p, a, 0, points, v);
      InnerPassOnlyRemoves(a.shots[p], p, a, 0, points);
      forall s | s in a'.shots ensures !IsColliding(ShotBounds(s), EnemyBounds(v)) {
        assert multiset(a'.shots)[s] > 0;
        assert multiset(a.shots)[s] > 0;
      }
      ProjectilePassSparesMissed(a', p + 1, points, v);
    }
  }

  /** No projectile touching any enemy: the inner pass changes nothing. */
  lemma {:induction false} InnerPassNoContact(shot: ShotState, slot: nat, a: Arena, e: nat, points: int)
    requires forall v :: v in a.enemies ==> !IsColliding(ShotBounds(shot), EnemyBounds(v))
    ensures InnerPass(shot, slot, a, e, points) == a
    decreases |a.enemies| - e
  {
    if e < |a.enemies| {
      assert a.enemies[e] in a.enemies;
      InnerPassNoContact(shot, slot, a, e + 1, points);
    }
  }

  /** No projectile touching any enemy: projectiles, enemies and score are unchanged. */
  lemma {:induction false} ProjectilePassNoContact(a: Arena, p: nat, points: int)
    requires forall s, v :: s in a.shots && v in a.enemies ==> !IsColliding(ShotBounds(s), EnemyBounds(v))
    ensures ProjectilePass(a, p, points) == a
    decreases |a.shots| - p
  {
    if p < |a.shots| {
      assert a.shots[p] in a.shots;
      InnerPassNoContact(a.shots[p], p, a, 0, points);
      ProjectilePassNoContact(a, p + 1, points);
    }
  }

  /** One projectile overlapping one enemy: both are removed and the score grows by one hit. */
  lemma SingleHit(s: ShotState, v: EnemyState, score: int, points: int)
    requires IsColliding(ShotBounds(s), EnemyBounds(v))
    ensures ProjectilePass(Arena([s], [v], score), 0, points) == Arena([], [], score + points)
  {
    var a1 := Arena(Splice([s], 0), Splice([v], 0), score + points);
    assert a1 == Arena([], [], score + points);
    assert InnerPass(s, 0, Arena([s], [v], score), 0, points) == InnerPass(s, 0, a1, 1, points);
  }

  /** The projectile that `splice` shifts into a freed slot is never visited:
      two projectiles each on their own enemy, yet only the first scores. */
  lemma ShiftedProjectileIsSkipped(points: int)
    ensures var s0, s1 := ShotState(20.0, 100), ShotState(520.0, 100);
            var v0, v1 := EnemyState(0.0, 90, 2), EnemyState(500.0, 90, 2);
            ProjectilePass(Arena([s0, s1], [v0, v1], 0), 0, points) == Arena([s1], [v1], points)
  {
    var s0, s1 := ShotState(20.0, 100), ShotState(520.0, 100);
    var v0, v1 := EnemyState(0.0, 90, 2), EnemyState(500.0, 90, 2);
    assert IsColliding(ShotBounds(s0), EnemyBounds(v0));
    assert !IsColliding(ShotBounds(s0), EnemyBounds(v1));
    var a1 := Arena([s1], [v1], points);
    assert Arena(Splice([s0, s1], 0), Splice([v0, v1], 0), 0 + points) == a1;
    assert InnerPass(s0, 0, Arena([s0, s1], [v0, v1], 0), 0, points) == InnerPass(s0, 0, a1, 1, points);
    assert InnerPass(s0, 0, a1, 1, points) == a1;
  }

  /** A projectile that hits two enemies in one inner pass also splices out the
      unrelated projectile that slid into its index. */
  lemma SecondHitRemovesNeighbour(points: int)
    ensures var s0, s1 := ShotState(20.0, 100), ShotState(700.0, 300);
            var v0, v1, v2 := EnemyState(0.0, 90, 2), EnemyState(300.0, 90, 2), EnemyState(10.0, 95, 2);
            ProjectilePass(Arena([s0, s1], [v0, v1, v2], 0), 0, points) == Arena([], [v1], points + points)
  {
    var s0, s1 := ShotState(20.0, 100), ShotState(700.0, 300);
    var v0, v1, v2 := EnemyState(0.0, 90, 2), EnemyState(300.0, 90, 2), EnemyState(10.0, 95, 2);
    assert IsColliding(ShotBounds(s0), EnemyBounds(v0));
    assert IsColliding(ShotBounds(s0), EnemyBounds(v2));
    var a0 := Arena([s0, s1], [v0, v1, v2], 0);
    var a1 := Arena([s1], [v1, v2], points);
    var a2 := Arena([], [v1], points + points);
    assert Arena(Splice(a0.shots, 0), Splice(a0.enemies, 0), 0 + points) == a1;
    assert Arena(Splice(a1.shots, 0), Splice(a1.enemies, 1), points + points) == a2;
    assert InnerPass(s0, 0, a0, 0, points) == InnerPass(s0, 0, a1, 1, points);
    assert InnerPass(s0, 0, a1, 1, points) == InnerPass(s0, 0, a2, 2, points);
    assert InnerPass(s0, 0, a2, 2, points) == a2;
    assert ProjectilePass(a0, 0, points) == ProjectilePass(a2, 1, points);
  }
}
