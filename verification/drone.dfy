/**
 * The drone: a satellite that orbits the player and, at most once a second, shoots a player
 * bullet at the nearest active enemy within range. Positions and bearings are geometry
 * supplied by the caller: `dists[j]` and `bearings[j]` are the distance and angle from the
 * drone to enemy `j`.
 */
module Drones {
  import opened Wrappers
  import Enemies
  import opened Bullets

  /** `Math.PI * 2`, the double nearest 2π. */
  const Tau: real := 6.283185307179586
  const RotationSpeed: real := 0.002
  const DroneFireRate: int := 1000
  const DroneDamage: int := 2
  const DroneRange: real := 400.0
  const DroneBulletSpeed: real := 400.0
  const Cyan: int := 0x00ffff

  /** The starting angle of drone `index` of `total`: the drones share the circle evenly. */
  function StartAngle(index: nat, total: nat): (a: real)
    requires total > 0
    ensures index < total ==> 0.0 <= a < Tau
    ensures a * total as real == Tau * index as real
  {
    var step := Tau / total as real;
    assert step * total as real == Tau;
    assert index < total ==> step * index as real < step * total as real;
    step * index as real
  }

  /** Neighbouring drones are a constant `2π/total` apart. */
  lemma EvenlySpaced(index: nat, total: nat)
    requires total > 0
    ensures StartAngle(index + 1, total) - StartAngle(index, total) == Tau / total as real
  {
    var step := Tau / total as real;
    assert StartAngle(index + 1, total) == step * (index as real + 1.0);
  }

  /**
   * `k` is what the drone's scan yields: some active enemy strictly within range, no active
   * enemy nearer, and every active enemy before it farther (ties keep the earlier one); or
   * none when no active enemy is within range.
   */
  ghost predicate IsNearest(es: seq<Enemies.Enemy>, dists: seq<real>, k: Option<nat>)
    requires |dists| == |es|
    reads es
  {
    match k
    case None => forall j :: 0 <= j < |es| && es[j].active ==> dists[j] >= DroneRange
    case Some(n) =>
      && n < |es| && es[n].active && dists[n] < DroneRange
      && (forall j :: 0 <= j < |es| && es[j].active ==> dists[n] <= dists[j])
      && (forall j :: 0 <= j < n && es[j].active ==> dists[n] < dists[j])
  }

  /** The scan's result is determined by the enemies and their distances. */
  lemma NearestUnique(es: seq<Enemies.Enemy>, dists: seq<real>, a: Option<nat>, b: Option<nat>)
    requires |dists| == |es|
    requires IsNearest(es, dists, a) && IsNearest(es, dists, b)
    ensures a == b
  {
  }

  /** The running minimum over the enemy list, starting from the range. */
  method SelectTarget(es: seq<Enemies.Enemy>, dists: seq<real>) returns (nearest: Option<nat>)
    requires |dists| == |es|
    ensures IsNearest(es, dists, nearest)
  {
    nearest := None;
    var minDist := DroneRange;
    for i := 0 to |es|
      invariant nearest.None? ==> minDist == DroneRange
      invariant nearest.Some? ==>
        nearest.value < i && es[nearest.value].active && minDist == dists[nearest.value] < DroneRange
      invariant forall j :: 0 <= j < i && es[j].active ==> minDist <= dists[j]
      invariant nearest.Some? ==> forall j :: 0 <= j < nearest.value && es[j].active ==> minDist < dists[j]
    {
      if es[i].active && dists[i] < minDist {
        minDist := dists[i];
        nearest := Some(i);
      }
    }
  }

  class Drone {
    var active: bool
    var orbitAngle: real
    var rotation: real
    var lastFireTime: int

    constructor (index: nat, total: nat)
      requires total > 0
      ensures active && orbitAngle == StartAngle(index, total) && lastFireTime == 0
    {
      active := true;
      orbitAngle := StartAngle(index, total);
      rotation := 0.0;
      lastFireTime := 0;
    }

    /**
     * One frame: nothing happens while the drone or its player is inactive; otherwise the
     * drone advances along its orbit and, when more than a second has passed since its last
     * shot, tries to fire. `target` is the enemy the scan chose, when a scan was made.
     */
    method Update(time: int, delta: int, playerActive: bool, es: seq<Enemies.Enemy>, dists: seq<real>,
                  bearings: seq<real>, supply: seq<Bullet>) returns (target: Option<nat>, fired: bool)
      requires |dists| == |es| == |bearings| && |supply| <= 1
      modifies this, supply
      ensures !old(active) || !playerActive ==> unchanged(this) && unchanged(supply) && target.None? && !fired
      ensures old(active) && playerActive ==>
        orbitAngle == old(orbitAngle) + RotationSpeed * delta as real && rotation == orbitAngle
      ensures active == old(active)
      ensures old(active) && playerActive && time > old(lastFireTime) + DroneFireRate ==>
        IsNearest(es, dists, target)
      ensures fired <==> old(active) && playerActive && time > old(lastFireTime) + DroneFireRate
                         && target.Some? && |supply| == 1
      ensures lastFireTime == if fired then time else old(lastFireTime)
      ensures fired ==> DroneShot(supply[0], bearings[target.value])
      ensures !fired ==> unchanged(supply)
    {
      target, fired := None, false;
      if !active || !playerActive {
        return;
      }
      orbitAngle := orbitAngle + RotationSpeed * delta as real;
      rotation := orbitAngle;
      if time > lastFireTime + DroneFireRate {
        target, fired := Fire(time, es, dists, bearings, supply);
      }
    }

    /** Aims at the nearest enemy in range and shoots a cyan bullet when the pool has one. */
    method Fire(time: int, es: seq<Enemies.Enemy>, dists: seq<real>, bearings: seq<real>, supply: seq<Bullet>)
      returns (target: Option<nat>, fired: bool)
      requires |dists| == |es| == |bearings| && |supply| <= 1
      modifies this, supply
      ensures IsNearest(es, dists, target)
      ensures fired <==> target.Some? && |supply| == 1
      ensures lastFireTime == if fired then time else old(lastFireTime)
      ensures active == old(active) && orbitAngle == old(orbitAngle) && rotation == old(rotation)
      ensures fired ==> DroneShot(supply[0], bearings[target.value])
      ensures !fired ==> unchanged(supply)
    {
      fired := false;
      target := SelectTarget(es, dists);
      if target.Some? && |supply| == 1 {
        var b := supply[0];
        b.Fire(bearings[target.value], DroneBulletSpeed, DroneDamage, 0, false);
        b.SetTint(Cyan);
        lastFireTime := time;
        fired := true;
      }
    }
  }

  /** A drone shot: a fresh player bullet of speed 400 and damage 2, tinted cyan. */
  ghost predicate DroneShot(b: Bullet, bearing: real)
    reads b
  {
    && b.active && b.visible && b.rotation == bearing
    && b.speed == DroneBulletSpeed && b.damage == DroneDamage
    && !b.isEnemyBullet && b.tint == Some(Cyan) && b.Reset()
  }
}
