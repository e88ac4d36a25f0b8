/**
 * Bullets: pooled projectiles. Each firing resets all per-flight hit state (piercing flag,
 * hit list, bounce counter, world-bound collision).
 */
module Bullets {
  import opened Wrappers
  import Enemies

  const White: int := 0xffffff

  /** `tint && tint !== 0xffffff`: only a non-zero, non-white tint is applied, else it is cleared. */
  function TintFor(t: int): (r: Option<int>)
    ensures r.Some? <==> t != 0 && t != White
    ensures r.Some? ==> r.value == t
  {
    if t != 0 && t != White then Some(t) else None
  }

  /** `bullet.damage || 1`: an unset (or zero) damage hits for 1. */
  function HitDamage(damage: int): (d: int)
    ensures d != 0
    ensures damage != 0 ==> d == damage
  {
    if damage == 0 then 1 else damage
  }

  class Bullet {
    var active: bool
    var visible: bool
    /** 0 stands for the `undefined` damage of a bullet that was never fired. */
    var damage: int
    var isEnemyBullet: bool
    var bounceCount: int
    var isPiercing: bool
    var hitEnemies: seq<Enemies.Enemy>
    var collideWorldBounds: bool
    var bounce: real
    /** Flight direction (radians) and speed given to the physics body. */
    var rotation: real
    var speed: real
    var texture: string
    var tint: Option<int>

    /** A new pooled bullet; a game object starts active and visible. */
    constructor ()
      ensures bounceCount == 0 && !isPiercing && hitEnemies == [] && !isEnemyBullet
      ensures active && visible && damage == 0 && !collideWorldBounds && tint.None?
    {
      active, visible := true, true;
      damage := 0;
      isEnemyBullet := false;
      bounceCount := 0;
      isPiercing := false;
      hitEnemies := [];
      collideWorldBounds := false;
      bounce := 0.0;
      rotation, speed := 0.0, 0.0;
      texture := "bullet";
      tint := None;
    }

    /** The flight parameters that `fire` gives a bullet. */
    ghost predicate Launched(rot: real, spd: real, dmg: int, t: int, isEnemy: bool)
      reads this
    {
      && active && visible
      && rotation == rot && speed == spd
      && damage == dmg && isEnemyBullet == isEnemy
      && texture == (if isEnemy then "bullet_enemy" else "bullet")
      && tint == TintFor(t)
      && hitEnemies == []
    }

    /** The per-firing reset: no hit state of an earlier flight survives. */
    ghost predicate Reset()
      reads this
    {
      !collideWorldBounds && bounce == 0.0 && bounceCount == 0 && !isPiercing && hitEnemies == []
    }

    method Fire(rot: real, spd: real, dmg: int, t: int, isEnemy: bool)
      modifies this
      ensures Launched(rot, spd, dmg, t, isEnemy) && Reset()
    {
      active, visible := true, true;
      texture := if isEnemy then "bullet_enemy" else "bullet";
      tint := TintFor(t);
      damage := dmg;
      isEnemyBullet := isEnemy;
      rotation, speed := rot, spd;
      collideWorldBounds := false;
      bounce := 0.0;
      bounceCount := 0;
      isPiercing := false;
      hitEnemies := [];
    }

    /** An unconditional `setTint`. */
    method SetTint(t: int)
      modifies this
      ensures tint == Some(t)
      ensures active == old(active) && visible == old(visible) && damage == old(damage)
      ensures rotation == old(rotation) && speed == old(speed) && hitEnemies == old(hitEnemies)
      ensures isPiercing == old(isPiercing) && bounceCount == old(bounceCount)
      ensures collideWorldBounds == old(collideWorldBounds) && bounce == old(bounce)
      ensures isEnemyBullet == old(isEnemyBullet) && texture == old(texture)
    {
      tint := Some(t);
    }

    /** Leaves the field outside the world only when it is not bouncing off the world bounds. */
    method PreUpdate(inBounds: bool)
      modifies this
      ensures active == (old(active) && (collideWorldBounds || inBounds))
      ensures visible == (old(visible) && (collideWorldBounds || inBounds))
      ensures damage == old(damage) && hitEnemies == old(hitEnemies) && isPiercing == old(isPiercing)
      ensures bounceCount == old(bounceCount) && collideWorldBounds == old(collideWorldBounds)
    {
      if !collideWorldBounds && !inBounds {
        active, visible := false, false;
      }
    }

    /** What a non-piercing hit does to the bullet: it is switched off and stopped. */
    method Deactivate()
      modifies this
      ensures !active && !visible
      ensures damage == old(damage) && hitEnemies == old(hitEnemies) && isPiercing == old(isPiercing)
      ensures bounceCount == old(bounceCount) && collideWorldBounds == old(collideWorldBounds)
    {
      active, visible := false, false;
      speed := 0.0;
    }
  }

  /** The pool never hands out the same bullet twice to one volley. */
  predicate Distinct(supply: seq<Bullet>) {
    forall i, j :: 0 <= i < j < |supply| ==> supply[i] != supply[j]
  }
}
