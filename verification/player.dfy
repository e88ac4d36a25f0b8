/**
 * The player: hp with the shielded and silent damage paths, ammo and reload, XP and level-up,
 * dash flags, the ability cooldown and the kill counter with its vampirism heal.
 * Scene reactions (game over, level-up, ability effects) are returned to the caller.
 */
module Players {
  import opened Wrappers
  import opened Config
  import opened Bullets
  import opened Weapons

  /** The player's delayed callbacks. */
  datatype PlayerTimer = ReloadTimer | InvulnerabilityTimer | DashEndTimer | DashCooldownTimer
  {
    function Delay(): int {
      match this
      case ReloadTimer => ReloadTime
      case InvulnerabilityTimer => InvulnerabilityTime
      case DashEndTimer => DashDuration
      case DashCooldownTimer => DashCooldown
    }
  }

  datatype Stats = Stats(speed: real, fireRate: real, doubleShotChance: real, vampirism: bool, kills: int)

  // ---------------------------------------------------------------- experience

  datatype XpState = XpState(xp: int, level: int, next: int)

  /** `Math.floor(next * 1.2)`; Euclidean division by a positive divisor is the floor. */
  function Grow(next: int): (r: int)
    ensures r as real <= next as real * 1.2 < r as real + 1.0
  {
    next * 6 / 5
  }

  /** The XP needed to leave level `k + 1`: 100, then each threshold grown by Grow. */
  function Threshold(k: nat): (r: int)
    ensures r >= XpBaseReq
  {
    if k == 0 then XpBaseReq else Grow(Threshold(k - 1))
  }

  lemma FirstThresholds()
    ensures Threshold(0) == 100 && Threshold(1) == 120 && Threshold(2) == 144 && Threshold(3) == 172
  {
  }

  /** Every level costs strictly more XP than the one before. */
  lemma {:induction false} ThresholdsIncrease(j: nat, k: nat)
    requires j < k
    ensures Threshold(j) < Threshold(k)
    decreases k
  {
    if j < k - 1 {
      ThresholdsIncrease(j, k - 1);
    }
  }

  /** One `gainXp(amount)`: at most one level-up, whatever the amount. */
  function GainXpSpec(s: XpState, amount: int): XpState {
    var x := s.xp + amount;
    if x >= s.next then XpState(x - s.next, s.level + 1, Grow(s.next)) else s.(xp := x)
  }

  /** The XP record of a player: non-negative XP, level at least 1, the level's threshold. */
  predicate XpValid(s: XpState) {
    s.xp >= 0 && s.level >= 1 && s.next == Threshold(s.level - 1)
  }

  lemma GainXpStep(s: XpState, amount: int)
    requires XpValid(s) && amount >= 0
    ensures XpValid(GainXpSpec(s, amount))
    ensures GainXpSpec(s, amount).level == if s.xp + amount >= s.next then s.level + 1 else s.level
  {
  }

  /** `k` successive `gainXp(amount)` calls. */
  function GainXpTimes(s: XpState, k: nat, amount: int): (r: XpState)
    requires XpValid(s) && amount >= 0
    ensures XpValid(r) && s.level <= r.level <= s.level + k
  {
    if k == 0 then s
    else
      var t := GainXpTimes(s, k - 1, amount);
      GainXpStep(t, amount);
      GainXpSpec(t, amount)
  }

  /** Input sampled this tick. */
  datatype Input = Input(pointerDown: bool, reloadJustDown: bool, dashDown: bool, abilityDown: bool, aim: real)

  /** The whole observable state of the player, as one value. */
  datatype PlayerView = PlayerView(
    hp: real, maxHp: real, invulnerable: bool, magnetActive: bool,
    xp: int, level: int, xpToNextLevel: int,
    ammo: int, isReloading: bool, isDashing: bool, canDash: bool,
    weapon: Weapon, activeAbility: Option<Ability>, abilityCooldownTimer: int,
    stats: Stats, pending: multiset<PlayerTimer>)

  function Min(a: real, b: real): real {
    if a < b then a else b
  }

  /** hp after a hit of `amount`, clamped at zero. */
  function Clamped(hp: real, amount: real): (r: real)
    ensures r >= 0.0 && (r == 0.0 || r == hp - amount)
    ensures amount >= 0.0 && hp >= 0.0 ==> r <= hp
  {
    if hp - amount < 0.0 then 0.0 else hp - amount
  }

  class Player {
    var hp: real
    var maxHp: real
    var invulnerable: bool
    var magnetActive: bool
    var xp: int
    var level: int
    var xpToNextLevel: int
    var ammo: int
    var isReloading: bool
    var isDashing: bool
    var canDash: bool
    var weapon: Weapon
    var activeAbility: Option<Ability>
    var abilityCooldownTimer: int
    var stats: Stats
    /** Delayed callbacks scheduled and not yet run. */
    var pending: multiset<PlayerTimer>

    function View(): PlayerView
      reads this
    {
      PlayerView(hp, maxHp, invulnerable, magnetActive, xp, level, xpToNextLevel, ammo, isReloading,
                 isDashing, canDash, weapon, activeAbility, abilityCooldownTimer, stats, pending)
    }

    function XpOf(): XpState
      reads this
    {
      XpState(xp, level, xpToNextLevel)
    }

    ghost predicate Valid()
      reads this
    {
      0.0 <= hp <= maxHp && 0 <= ammo <= AmmoMax && XpValid(XpOf()) && stats.kills >= 0
    }

    constructor ()
      ensures Valid() && fresh(weapon)
      ensures hp == maxHp == PlayerHp && ammo == AmmoMax && !isReloading
      ensures xp == 0 && level == 1 && xpToNextLevel == XpBaseReq
      ensures weapon.config == Pistol && weapon.lastFired == 0 && activeAbility.None? && abilityCooldownTimer == 0
      ensures stats == Stats(PlayerSpeed, PlayerFireRate, 0.0, false, 0)
      ensures !isDashing && canDash && !invulnerable && !magnetActive && pending == multiset{}
    {
      weapon := new Weapon(Pistol);
      activeAbility := None;
      abilityCooldownTimer := 0;
      stats := Stats(PlayerSpeed, PlayerFireRate, 0.0, false, 0);
      hp, maxHp := PlayerHp, PlayerHp;
      xp, level, xpToNextLevel := 0, 1, XpBaseReq;
      ammo, isReloading := AmmoMax, false;
      isDashing, canDash := false, true;
      invulnerable, magnetActive := false, false;
      pending := multiset{};
    }

    // ------------------------------------------------------------ damage

    /**
     * A non-silent hit is ignored while invulnerable; otherwise hp drops (clamped at zero) and
     * a non-silent hit starts the invulnerability window. `gameOver` asks the scene to end the
     * run: it is set whenever the hit was applied and hp is at zero.
     */
    method TakeDamage(amount: real, silent: bool) returns (gameOver: bool)
      requires Valid() && amount >= 0.0
      modifies this
      ensures Valid()
      ensures old(invulnerable) && !silent ==> View() == old(View()) && !gameOver
      ensures !(old(invulnerable) && !silent) ==>
        && View() == old(View()).(
             hp := Clamped(old(hp), amount),
             invulnerable := old(invulnerable) || !silent,
             pending := old(pending) + if silent then multiset{} else multiset{InvulnerabilityTimer})
        && (gameOver <==> hp <= 0.0)
    {
      if invulnerable && !silent {
        return false;
      }
      hp := hp - amount;
      if hp < 0.0 {
        hp := 0.0;
      }
      if !silent {
        invulnerable := true;
        pending := pending + multiset{InvulnerabilityTimer};
      }
      gameOver := hp <= 0.0;
    }

    method InvulnerabilityOver()
      requires InvulnerabilityTimer in pending
      requires Valid()
      modifies this
      ensures Valid()
      ensures View() == old(View()).(invulnerable := false, pending := old(pending) - multiset{InvulnerabilityTimer})
    {
      invulnerable := false;
      pending := pending - multiset{InvulnerabilityTimer};
    }

    // ------------------------------------------------------------ experience

    /** Adds `amount` XP; `leveledUp` asks the scene to open the level-up screen. */
    method GainXp(amount: int) returns (leveledUp: bool)
      requires Valid() && amount >= 0
      modifies this
      ensures Valid()
      ensures XpOf() == GainXpSpec(old(XpOf()), amount)
      ensures leveledUp <==> level == old(level) + 1
      ensures View().(xp := old(xp), level := old(level), xpToNextLevel := old(xpToNextLevel)) == old(View())
    {
      GainXpStep(XpOf(), amount);
      xp := xp + amount;
      leveledUp := false;
      if xp >= xpToNextLevel {
        LevelUp();
        leveledUp := true;
      }
    }

    method LevelUp()
      modifies this
      ensures View() == old(View()).(xp := old(xp) - old(xpToNextLevel), level := old(level) + 1,
                                     xpToNextLevel := Grow(old(xpToNextLevel)))
    {
      xp := xp - xpToNextLevel;
      level := level + 1;
      xpToNextLevel := Grow(xpToNextLevel);
    }

    // ------------------------------------------------------------ ammo and reload

    /**
     * Shoots while the pointer is held, ammo remains and no reload runs; each shot the weapon
     * accepts costs exactly one round, and running dry starts a reload.
     */
    method HandleShooting(time: int, pointerDown: bool, aim: real, jitter: real, supply: seq<Bullet>)
      returns (fired: bool)
      requires Valid() && |supply| <= Requests(weapon.config) && Distinct(supply)
      modifies this, weapon, supply
      ensures Valid()
      ensures fired <==> pointerDown && !old(isReloading) && old(ammo) > 0 && old(weapon.CanFire(time))
      ensures ammo == old(ammo) - (if fired then 1 else 0)
      ensures isReloading <==> old(isReloading) || (pointerDown && ammo == 0)
      ensures pending == old(pending) + if isReloading && !old(isReloading) then multiset{ReloadTimer} else multiset{}
      ensures View() == old(View()).(ammo := ammo, isReloading := isReloading, pending := pending)
      ensures weapon.lastFired == if fired then time else old(weapon.lastFired)
      ensures fired ==> Volley(weapon.config, aim, jitter, supply)
      ensures !fired ==> unchanged(supply)
    {
      fired := false;
      if pointerDown && !isReloading && ammo > 0 {
        var recoil;
        fired, recoil := weapon.Fire(time, aim, jitter, supply);
        if fired {
          ammo := ammo - 1;
          if ammo <= 0 {
            Reload();
          }
        }
      } else if pointerDown && ammo <= 0 && !isReloading {
        Reload();
      }
    }

    /** A manual reload starts only when none runs and the magazine is not full. */
    method HandleReload(justDown: bool)
      requires Valid()
      modifies this
      ensures Valid()
      ensures isReloading <==> old(isReloading) || (justDown && ammo < AmmoMax)
      ensures pending == old(pending) + if isReloading && !old(isReloading) then multiset{ReloadTimer} else multiset{}
      ensures View() == old(View()).(isReloading := isReloading, pending := pending)
    {
      if justDown && !isReloading && ammo < AmmoMax {
        Reload();
      }
    }

    method Reload()
      requires Valid()
      modifies this
      ensures Valid()
      ensures View() == old(View()).(isReloading := true, pending := old(pending) + multiset{ReloadTimer})
    {
      isReloading := true;
      pending := pending + multiset{ReloadTimer};
    }

    /** The reload-complete callback: a full magazine. */
    method ReloadDone()
      requires Valid() && ReloadTimer in pending
      modifies this
      ensures Valid()
      ensures View() == old(View()).(ammo := AmmoMax, isReloading := false, pending := old(pending) - multiset{ReloadTimer})
    {
      ammo := AmmoMax;
      isReloading := false;
      pending := pending - multiset{ReloadTimer};
    }

    // ------------------------------------------------------------ dash

    /** A dash starts only when allowed and none runs; it schedules its end and its cooldown. */
    method HandleDash(dashDown: bool) returns (dashed: bool)
      requires Valid()
      modifies this
      ensures Valid()
      ensures dashed <==> dashDown && old(canDash) && !old(isDashing)
      ensures dashed ==> View() == old(View()).(isDashing := true, canDash := false,
                                                pending := old(pending) + multiset{DashEndTimer, DashCooldownTimer})
      ensures !dashed ==> View() == old(View())
    {
      dashed := dashDown && canDash && !isDashing;
      if dashed {
        isDashing := true;
        canDash := false;
        pending := pending + multiset{DashEndTimer, DashCooldownTimer};
      }
    }

    method DashOver()
      requires DashEndTimer in pending
      requires Valid()
      modifies this
      ensures Valid()
      ensures View() == old(View()).(isDashing := false, pending := old(pending) - multiset{DashEndTimer})
    {
      isDashing := false;
      pending := pending - multiset{DashEndTimer};
    }

    method DashReady()
      requires DashCooldownTimer in pending
      requires Valid()
      modifies this
      ensures Valid()
      ensures View() == old(View()).(canDash := true, pending := old(pending) - multiset{DashCooldownTimer})
    {
      canDash := true;
      pending := pending - multiset{DashCooldownTimer};
    }

    // ------------------------------------------------------------ ability

    /**
     * Uses the equipped ability when its key is down and the cooldown has strictly passed;
     * `used` is the single `abilityUsed` event for the scene.
     */
    method HandleAbility(time: int, keyDown: bool) returns (used: Option<Ability>)
      requires Valid()
      modifies this
      ensures Valid()
      ensures used.Some? <==> keyDown && old(activeAbility).Some? && time > old(abilityCooldownTimer)
      ensures used.Some? ==> used == activeAbility && View() == old(View()).(abilityCooldownTimer := time + used.value.cooldown)
      ensures used.None? ==> View() == old(View())
    {
      used := None;
      if keyDown && activeAbility.Some? && time > abilityCooldownTimer {
        used := ActivateAbility(time);
      }
    }

    method ActivateAbility(time: int) returns (used: Option<Ability>)
      requires activeAbility.Some?
      requires Valid()
      modifies this
      ensures Valid()
      ensures used == activeAbility
      ensures View() == old(View()).(abilityCooldownTimer := time + old(activeAbility).value.cooldown)
    {
      abilityCooldownTimer := time + activeAbility.value.cooldown;
      used := activeAbility;
    }

    // ------------------------------------------------------------ kills and equipment

    /** Counts a kill; with vampirism every fifth kill heals 1 hp, capped at maxHp. */
    method OnKill()
      requires Valid()
      modifies this
      ensures Valid()
      ensures stats == old(stats).(kills := old(stats.kills) + 1)
      ensures hp == if stats.vampirism && stats.kills % 5 == 0 then Min(old(hp) + 1.0, maxHp) else old(hp)
      ensures View() == old(View()).(stats := stats, hp := hp)
    {
      stats := stats.(kills := stats.kills + 1);
      if stats.vampirism && stats.kills % 5 == 0 {
        hp := Min(hp + 1.0, maxHp);
      }
    }

    /** Replaces the weapon with a new one of the named template; its cooldown starts afresh. */
    method EquipWeapon(id: string)
      requires WeaponFor(id).Some?
      requires Valid()
      modifies this
      ensures Valid()
      ensures fresh(weapon) && weapon.config == WeaponFor(id).value && weapon.lastFired == 0
      ensures View() == old(View()).(weapon := weapon)
    {
      weapon := new Weapon(WeaponFor(id).value);
    }

    method EquipAbility(a: Ability)
      requires Valid()
      modifies this
      ensures Valid()
      ensures View() == old(View()).(activeAbility := Some(a))
    {
      activeAbility := Some(a);
    }

    // ------------------------------------------------------------ per tick

    /**
     * Outside the arena the player takes silent damage proportional to the frame time; the
     * result reports the danger-zone flag and whether the run ended.
     */
    method CheckDangerZone(delta: int, inBounds: bool) returns (gameOver: bool, danger: bool)
      requires Valid() && delta >= 0
      modifies this
      ensures Valid()
      ensures danger == !inBounds
      ensures inBounds ==> View() == old(View()) && !gameOver
      ensures !inBounds ==>
        View() == old(View()).(hp := Clamped(old(hp), DangerDamagePerSec * (delta as real / 1000.0)))
        && (gameOver <==> hp <= 0.0)
    {
      gameOver := false;
      danger := !inBounds;
      if !inBounds {
        gameOver := TakeDamage(DangerDamagePerSec * (delta as real / 1000.0), true);
      }
    }

    /** The reload key, then the dash: the part of a frame's controls that does not shoot. */
    method ReloadThenDash(input: Input) returns (dashed: bool)
      requires Valid()
      modifies this
      ensures Valid()
      ensures dashed <==> input.dashDown && old(canDash) && !old(isDashing)
      ensures isReloading <==> old(isReloading) || (input.reloadJustDown && old(ammo) < AmmoMax)
      ensures View() == old(View()).(
        isReloading := isReloading, isDashing := old(isDashing) || dashed, canDash := old(canDash) && !dashed,
        pending := old(pending)
          + (if isReloading && !old(isReloading) then multiset{ReloadTimer} else multiset{})
          + (if dashed then multiset{DashEndTimer, DashCooldownTimer} else multiset{}))
    {
      HandleReload(input.reloadJustDown);
      dashed := HandleDash(input.dashDown);
    }

    /** The reload key, the dash and the trigger, in frame order. */
    method HandleControls(time: int, input: Input, jitter: real, supply: seq<Bullet>)
      returns (dashed: bool, fired: bool)
      requires Valid()
      requires |supply| <= Requests(weapon.config) && Distinct(supply)
      modifies this, weapon, supply
      ensures Valid() && weapon == old(weapon)
      ensures dashed <==> input.dashDown && old(canDash) && !old(isDashing)
      ensures isDashing == (old(isDashing) || dashed) && canDash == (old(canDash) && !dashed)
      ensures fired <==> && input.pointerDown && old(ammo) > 0 && old(weapon.CanFire(time))
                         && !old(isReloading) && !(input.reloadJustDown && old(ammo) < AmmoMax)
      ensures ammo == old(ammo) - (if fired then 1 else 0)
      ensures isReloading <==>
        old(isReloading) || (input.reloadJustDown && old(ammo) < AmmoMax) || (input.pointerDown && ammo == 0)
      ensures pending == old(pending)
        + (if isReloading && !old(isReloading) then multiset{ReloadTimer} else multiset{})
        + (if dashed then multiset{DashEndTimer, DashCooldownTimer} else multiset{})
      ensures View() == old(View()).(ammo := ammo, isReloading := isReloading, isDashing := isDashing,
                                     canDash := canDash, pending := pending)
      ensures weapon.lastFired == if fired then time else old(weapon.lastFired)
      ensures fired ==> Volley(weapon.config, input.aim, jitter, supply)
      ensures !fired ==> unchanged(supply)
    {
      dashed := ReloadThenDash(input);
      assert weapon.CanFire(time) == old(weapon.CanFire(time));
      fired := HandleShooting(time, input.pointerDown, input.aim, jitter, supply);
    }

    /**
     * One frame: reload key, dash, shooting, danger zone, ability, in that order. Reports
     * whether the run ended and which ability was used.
     */
    method Update(time: int, delta: int, input: Input, inBounds: bool, jitter: real, supply: seq<Bullet>)
      returns (gameOver: bool, danger: bool, used: Option<Ability>)
      requires Valid() && delta >= 0
      requires |supply| <= Requests(weapon.config) && Distinct(supply)
      modifies this, weapon, supply
      ensures Valid() && weapon == old(weapon)
      ensures danger == !inBounds
      ensures gameOver ==> !inBounds && hp == 0.0
      ensures hp == 0.0 ==> gameOver || old(hp) == 0.0
      ensures used.Some? <==> input.abilityDown && old(activeAbility).Some? && time > old(abilityCooldownTimer)
      ensures used.Some? ==> used == activeAbility && abilityCooldownTimer == time + used.value.cooldown
      ensures xp == old(xp) && level == old(level) && stats == old(stats) && maxHp == old(maxHp)
    {
      var dashed, fired := HandleControls(time, input, jitter, supply);
      assert hp == old(hp) && maxHp == old(maxHp) && XpOf() == old(XpOf()) && stats == old(stats);
      assert activeAbility == old(activeAbility) && abilityCooldownTimer == old(abilityCooldownTimer);
      gameOver, danger := CheckDangerZone(delta, inBounds);
      used := HandleAbility(time, input.abilityDown);
    }
  }
}
