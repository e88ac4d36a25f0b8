/**
 * Weapons: cooldown gating and the four firing patterns (standard, shotgun fan, piercing
 * laser, ricochet). The bullets the pool handed out are passed in as `supply`, in request order.
 */
module Weapons {
  import opened Wrappers
  import opened Config
  import opened Bullets

  datatype Pattern = Standard | Spread | Piercing | Bounce

  /** The `switch (config.id)`: three named patterns, every other id shoots the standard way. */
  function PatternOf(id: string): (p: Pattern)
    ensures p == Spread <==> id == "shotgun"
    ensures p == Piercing <==> id == "laser"
    ensures p == Bounce <==> id == "ricochet"
    ensures p == Standard <==> id !in {"shotgun", "laser", "ricochet"}
  {
    if id == "shotgun" then Spread
    else if id == "laser" then Piercing
    else if id == "ricochet" then Bounce
    else Standard
  }

  /** The four weapon templates each reach their own pattern. */
  lemma TemplatePatterns()
    ensures PatternOf(Pistol.id) == Standard && PatternOf(Shotgun.id) == Spread
    ensures PatternOf(Laser.id) == Piercing && PatternOf(Ricochet.id) == Bounce
  {
  }

  /** How many bullets a volley asks the pool for. */
  function Requests(cfg: WeaponConfig): nat {
    if PatternOf(cfg.id) == Spread then cfg.count else 1
  }

  /** The angular offset of shotgun bullet `i` out of `count`: `(i - (count - 1) / 2) * spread`. */
  function ShotgunOffset(i: int, count: int, spread: real): real {
    (i as real - (count - 1) as real / 2.0) * spread
  }

  /** Bullets `i` and `count - 1 - i` sit symmetrically about the aim. */
  lemma OffsetsSymmetric(i: int, count: int, spread: real)
    ensures ShotgunOffset(i, count, spread) == -ShotgunOffset(count - 1 - i, count, spread)
  {
    calc {
      ShotgunOffset(count - 1 - i, count, spread);
      ((count - 1 - i) as real - (count - 1) as real / 2.0) * spread;
      ((count - 1) as real / 2.0 - i as real) * spread;
      -ShotgunOffset(i, count, spread);
    }
  }

  /** The sum of the offsets of the first `n` shotgun bullets. */
  function OffsetSum(n: nat, count: int, spread: real): real {
    if n == 0 then 0.0 else OffsetSum(n - 1, count, spread) + ShotgunOffset(n - 1, count, spread)
  }

  lemma {:induction false} OffsetSumClosedForm(n: nat, count: int, spread: real)
    ensures OffsetSum(n, count, spread) == (n as real * (n as real - 1.0) / 2.0 - n as real * (count - 1) as real / 2.0) * spread
  {
    if n > 0 {
      OffsetSumClosedForm(n - 1, count, spread);
      var m := (n - 1) as real;
      var h := (count - 1) as real / 2.0;
      assert OffsetSum(n - 1, count, spread) == (m * (m - 1.0) / 2.0 - m * h) * spread;
      assert ShotgunOffset(n - 1, count, spread) == (m - h) * spread;
      assert m * (m - 1.0) / 2.0 - m * h + (m - h) == (m + 1.0) * m / 2.0 - (m + 1.0) * h;
    }
  }

  /** A whole shotgun fan is balanced: its offsets sum to zero. */
  lemma OffsetsCancel(count: nat, spread: real)
    ensures OffsetSum(count, count, spread) == 0.0
  {
    OffsetSumClosedForm(count, count, spread);
    var c := count as real;
    assert c * (c - 1.0) / 2.0 - c * (count - 1) as real / 2.0 == 0.0;
  }

  /** The configured shotgun (5 bullets, spread 0.5) fans out at -1, -0.5, 0, 0.5 and 1 rad. */
  lemma ShotgunFan()
    ensures Shotgun.count == 5 && Shotgun.spread == 0.5
    ensures forall i :: 0 <= i < 5 ==> ShotgunOffset(i, 5, 0.5) == [-1.0, -0.5, 0.0, 0.5, 1.0][i]
  {
  }

  /** The standard shot's random deviation `(random - 0.5) * spread` stays within half the spread. */
  lemma StandardDeviationBound(jitter: real, spread: real)
    requires 0.0 <= jitter < 1.0 && spread >= 0.0
    ensures -spread / 2.0 <= (jitter - 0.5) * spread <= spread / 2.0
  {
    assert (jitter - 0.5) * spread <= 0.5 * spread;
    assert -0.5 * spread <= (jitter - 0.5) * spread;
  }

  /**
   * What a successful volley of `cfg` leaves in the bullets the pool handed out. The pool
   * serves requests in order until it runs dry, so `supply` holds the bullets of the first
   * `|supply|` requests.
   */
  ghost predicate Volley(cfg: WeaponConfig, aim: real, jitter: real, supply: seq<Bullet>)
    reads supply
  {
    match PatternOf(cfg.id)
    case Spread =>
      forall i :: 0 <= i < |supply| ==>
        supply[i].Launched(aim + ShotgunOffset(i, cfg.count, cfg.spread), cfg.speed, cfg.damage, cfg.color, false)
        && supply[i].Reset()
    case Standard =>
      |supply| == 1 ==>
        supply[0].Launched(aim + (jitter - 0.5) * cfg.spread, cfg.speed, cfg.damage, cfg.color, false)
        && supply[0].Reset()
    case Piercing =>
      |supply| == 1 ==>
        var b := supply[0];
        b.Launched(aim, cfg.speed * 2.0, cfg.damage, cfg.color, false)
        && b.isPiercing && !b.collideWorldBounds && b.bounce == 0.0 && b.bounceCount == 0
    case Bounce =>
      |supply| == 1 ==>
        var b := supply[0];
        b.Launched(aim, cfg.speed, cfg.damage, cfg.color, false)
        && b.collideWorldBounds && b.bounce == 1.0 && b.bounceCount == 3 && !b.isPiercing
  }

  class Weapon {
    const config: WeaponConfig
    var lastFired: int

    constructor (cfg: WeaponConfig)
      ensures config == cfg && lastFired == 0
    {
      config := cfg;
      lastFired := 0;
    }

    /** Strictly more than `fireRate` ms since the last shot. */
    predicate CanFire(time: int)
      reads this
    {
      time > lastFired + config.fireRate
    }

    /**
     * Fires a volley when the cooldown allows. `aim` is the player's aim angle, `jitter` the
     * random draw in [0, 1) of the standard shot. A pool miss skips only that bullet; the
     * cooldown is spent and the call reports success all the same.
     */
    method Fire(time: int, aim: real, jitter: real, supply: seq<Bullet>) returns (fired: bool, recoil: real)
      requires |supply| <= Requests(config) && Distinct(supply)
      modifies this, supply
      ensures fired == old(CanFire(time))
      ensures lastFired == if fired then time else old(lastFired)
      ensures fired ==> Volley(config, aim, jitter, supply)
      ensures !fired ==> unchanged(supply)
      ensures recoil == if fired && PatternOf(config.id) == Spread then config.recoil else 0.0
    {
      recoil := 0.0;
      if !CanFire(time) {
        return false, 0.0;
      }
      fired := true;
      lastFired := time;
      match PatternOf(config.id)
      case Spread =>
        FireShotgun(aim, supply);
        recoil := config.recoil;
      case Piercing =>
        FireLaser(aim, supply);
      case Bounce =>
        FireRicochet(aim, supply);
      case Standard =>
        FireStandard(aim, jitter, supply);
    }

    method FireStandard(aim: real, jitter: real, supply: seq<Bullet>)
      requires |supply| <= 1
      modifies supply
      ensures |supply| == 1 ==>
        supply[0].Launched(aim + (jitter - 0.5) * config.spread, config.speed, config.damage, config.color, false)
        && supply[0].Reset()
    {
      if |supply| == 1 {
        supply[0].Fire(aim + (jitter - 0.5) * config.spread, config.speed, config.damage, config.color, false);
      }
    }

    /** One bullet per pool request, fanned symmetrically about the aim. */
    method FireShotgun(aim: real, supply: seq<Bullet>)
      requires |supply| <= config.count && Distinct(supply)
      modifies supply
      ensures forall i :: 0 <= i < |supply| ==>
        supply[i].Launched(aim + ShotgunOffset(i, config.count, config.spread), config.speed, config.damage, config.color, false)
        && supply[i].Reset()
    {
      for i := 0 to |supply|
        invariant forall j :: 0 <= j < i ==>
          supply[j].Launched(aim + ShotgunOffset(j, config.count, config.spread), config.speed, config.damage, config.color, false)
          && supply[j].Reset()
      {
        supply[i].Fire(aim + ShotgunOffset(i, config.count, config.spread), config.speed, config.damage, config.color, false);
      }
    }

    /** A double-speed bullet marked piercing after `fire` has reset the flag. */
    method FireLaser(aim: real, supply: seq<Bullet>)
      requires |supply| <= 1
      modifies supply
      ensures |supply| == 1 ==>
        var b := supply[0];
        b.Launched(aim, config.speed * 2.0, config.damage, config.color, false)
        && b.isPiercing && !b.collideWorldBounds && b.bounce == 0.0 && b.bounceCount == 0
    {
      if |supply| == 1 {
        supply[0].Fire(aim, config.speed * 2.0, config.damage, config.color, false);
        supply[0].isPiercing := true;
      }
    }

    /** A bullet that collides with the world bounds and has three bounces left. */
    method FireRicochet(aim: real, supply: seq<Bullet>)
      requires |supply| <= 1
      modifies supply
      ensures |supply| == 1 ==>
        var b := supply[0];
        b.Launched(aim, config.speed, config.damage, config.color, false)
        && b.collideWorldBounds && b.bounce == 1.0 && b.bounceCount == 3 && !b.isPiercing
    {
      if |supply| == 1 {
        supply[0].Fire(aim, config.speed, config.damage, config.color, false);
        supply[0].collideWorldBounds := true;
        supply[0].bounce := 1.0;
        supply[0].bounceCount := 3;
      }
    }
  }
}
