/**
 * The constant tables of the game (difficulty profiles, player base stats, combo, weapons,
 * abilities, skills, XP) and the `GameState` settings record.
 */
module Config {
  import opened Wrappers

  // ---------------------------------------------------------------- arena and difficulty

  const GameWidth: int := 1600
  const GameHeight: int := 1200

  /** A difficulty profile: scalars applied to contact damage, enemy speed and score. */
  datatype Difficulty = Difficulty(name: string, damageMult: real, speedMult: real, scoreMult: real)

  const Easy := Difficulty("Easy", 0.5, 0.8, 0.5)
  const Normal := Difficulty("Normal", 1.0, 1.0, 1.0)
  const Hardcore := Difficulty("Hardcore", 2.0, 1.3, 2.0)

  // ---------------------------------------------------------------- player base stats

  const PlayerSpeed: real := 300.0
  const PlayerHp: real := 100.0
  const AmmoMax: int := 30
  const PlayerFireRate: real := 200.0
  const ReloadTime: int := 1000
  const DashSpeed: int := 600
  const DashDuration: int := 200
  const DashCooldown: int := 1000
  const InvulnerabilityTime: int := 1000

  /** Damage per second taken outside the arena (the danger zone). */
  const DangerDamagePerSec: real := 5.0

  // ---------------------------------------------------------------- combo

  /** Milliseconds without a kill before the combo resets. */
  const ComboResetTime: int := 3000
  /** Kills per multiplier step. */
  const ComboMultiplierStep: int := 5

  // ---------------------------------------------------------------- weapons

  datatype WeaponConfig = WeaponConfig(
    id: string, name: string, fireRate: int, damage: int, speed: real,
    spread: real, count: nat, recoil: real, color: int)

  const Pistol := WeaponConfig("pistol", "Pistol", 200, 1, 600.0, 0.1, 1, 200.0, 0xffff00)
  const Shotgun := WeaponConfig("shotgun", "Shotgun", 800, 1, 500.0, 0.5, 5, 400.0, 0xffaa00)
  const Laser := WeaponConfig("laser", "Laser", 1000, 5, 1200.0, 0.0, 1, 100.0, 0x00ffff)
  const Ricochet := WeaponConfig("ricochet", "Ricochet", 300, 1, 500.0, 0.2, 1, 200.0, 0xff00ff)

  function UpperChar(c: char): char {
    if 'a' <= c <= 'z' then (c as int - 32) as char else c
  }

  /** ASCII upper-casing, enough for the weapon ids the game passes. */
  function Upper(s: string): (r: string)
    ensures |r| == |s| && forall i :: 0 <= i < |s| ==> r[i] == UpperChar(s[i])
  {
    seq(|s|, i requires 0 <= i < |s| => UpperChar(s[i]))
  }

  /** The `WEAPONS` table indexed by the upper-cased id; any other key is missing. */
  function WeaponFor(id: string): (c: Option<WeaponConfig>)
    ensures c.Some? <==> Upper(id) in {"PISTOL", "SHOTGUN", "LASER", "RICOCHET"}
    ensures c.Some? ==> c.value in {Pistol, Shotgun, Laser, Ricochet}
  {
    var key := Upper(id);
    if key == "PISTOL" then Some(Pistol)
    else if key == "SHOTGUN" then Some(Shotgun)
    else if key == "LASER" then Some(Laser)
    else if key == "RICOCHET" then Some(Ricochet)
    else None
  }

  /** Every weapon template is found again under its own id (the ids the skills pass). */
  lemma WeaponIdsResolve()
    ensures WeaponFor("pistol") == Some(Pistol)
    ensures WeaponFor("shotgun") == Some(Shotgun)
    ensures WeaponFor("laser") == Some(Laser)
    ensures WeaponFor("ricochet") == Some(Ricochet)
  {
    assert Upper("pistol") == "PISTOL";
    assert Upper("shotgun") == "SHOTGUN";
    assert Upper("laser") == "LASER";
    assert Upper("ricochet") == "RICOCHET";
  }

  // ---------------------------------------------------------------- abilities

  /** The two active abilities; each carries its own effect parameters. */
  datatype Ability =
    | TimeSlow(cooldown: int, duration: int, factor: real)
    | NovaBlast(cooldown: int, radius: real, damage: int, force: real)
  {
    function Id(): string {
      match this
      case TimeSlow(_, _, _) => "time_slow"
      case NovaBlast(_, _, _, _) => "nova_blast"
    }
  }

  const TimeSlowAbility := TimeSlow(15000, 5000, 0.3)
  const NovaBlastAbility := NovaBlast(10000, 300.0, 10, 500.0)

  // ---------------------------------------------------------------- skills

  /** The level-up skills, in the order of the `SKILLS` table. */
  datatype Skill =
    | RapidFire | SpeedBoots | MaxHp
    | WeaponShotgun | WeaponLaser | WeaponRicochet
    | AbilityTimeSlow | AbilityNova

  const Skills: seq<Skill> :=
    [RapidFire, SpeedBoots, MaxHp, WeaponShotgun, WeaponLaser, WeaponRicochet, AbilityTimeSlow, AbilityNova]

  lemma SkillsDistinct()
    ensures forall i, j :: 0 <= i < j < |Skills| ==> Skills[i] != Skills[j]
  {
  }

  /** The weapon id a weapon skill equips. */
  function EquippedWeapon(s: Skill): string
    requires s.WeaponShotgun? || s.WeaponLaser? || s.WeaponRicochet?
  {
    match s
    case WeaponShotgun => "shotgun"
    case WeaponLaser => "laser"
    case WeaponRicochet => "ricochet"
  }

  /** The ability an ability skill equips. */
  function EquippedAbility(s: Skill): Ability
    requires s.AbilityTimeSlow? || s.AbilityNova?
  {
    if s.AbilityTimeSlow? then TimeSlowAbility else NovaBlastAbility
  }

  /**
   * The `condition` of a skill for a player holding the weapon `weaponId` and the ability
   * `ability`; a skill without a condition is always offered.
   */
  function Offerable(s: Skill, weaponId: string, ability: Option<Ability>): (ok: bool)
    ensures (s.WeaponShotgun? || s.WeaponLaser? || s.WeaponRicochet?) ==>
              (ok <==> weaponId != EquippedWeapon(s))
    ensures (s.AbilityTimeSlow? || s.AbilityNova?) ==>
              (ok <==> ability.None? || ability.value.Id() != EquippedAbility(s).Id())
    ensures (s.RapidFire? || s.SpeedBoots? || s.MaxHp?) ==> ok
  {
    match s
    case WeaponShotgun => weaponId != "shotgun"
    case WeaponLaser => weaponId != "laser"
    case WeaponRicochet => weaponId != "ricochet"
    case AbilityTimeSlow => ability.None? || ability.value.Id() != "time_slow"
    case AbilityNova => ability.None? || ability.value.Id() != "nova_blast"
    case _ => true
  }

  // ---------------------------------------------------------------- XP

  const XpBaseReq: int := 100
  const XpOrbValue: int := 20

  // ---------------------------------------------------------------- settings

  /**
   * What `parseInt(localStorage.getItem(key)) || fallback` yields: `stored` is the parsed
   * integer, `None` when the key is missing or does not parse (NaN). Zero is falsy, so it
   * also falls back.
   */
  function StoredOr(stored: Option<int>, fallback: int): (r: int)
    ensures stored.Some? && stored.value != 0 ==> r == stored.value
    ensures stored.None? || stored.value == 0 ==> r == fallback
  {
    if stored.Some? && stored.value != 0 then stored.value else fallback
  }

  /** `localStorage.getItem('arcade_lang') || 'en'`: a missing or empty string falls back. */
  function StoredLangOr(stored: Option<string>): (r: string)
    ensures stored.Some? && stored.value != "" ==> r == stored.value
    ensures stored.None? || stored.value == "" ==> r == "en"
  {
    if stored.Some? && stored.value != "" then stored.value else "en"
  }

  /** A saved volume of 0 (muted) does not survive a reload: it comes back as 100. */
  lemma MutedVolumeReloadsLoud()
    ensures StoredOr(Some(0), 100) == 100
    ensures forall v :: v != 0 ==> StoredOr(Some(v), 100) == v
  {
  }

  /** The global settings record. Storage writes are not modelled; the fields are the state. */
  class GameState {
    var difficulty: Difficulty
    var highScore: int
    var volume: int
    var lang: string

    /** The values loaded at start-up from the parsed stored entries. */
    constructor Load(storedHighScore: Option<int>, storedVolume: Option<int>, storedLang: Option<string>)
      ensures difficulty == Normal
      ensures highScore == StoredOr(storedHighScore, 0)
      ensures volume == StoredOr(storedVolume, 100)
      ensures lang == StoredLangOr(storedLang)
    {
      difficulty := Normal;
      highScore := StoredOr(storedHighScore, 0);
      volume := StoredOr(storedVolume, 100);
      lang := StoredLangOr(storedLang);
    }

    /** Records `score` only when it beats the high score, so the high score never decreases. */
    method SaveHighScore(score: int)
      modifies this
      ensures highScore == if score > old(highScore) then score else old(highScore)
      ensures highScore >= old(highScore) && highScore >= score
      ensures difficulty == old(difficulty) && volume == old(volume) && lang == old(lang)
    {
      if score > highScore {
        highScore := score;
      }
    }

    method SaveVolume(v: int)
      modifies this
      ensures volume == v
      ensures difficulty == old(difficulty) && highScore == old(highScore) && lang == old(lang)
    {
      volume := v;
    }

    method SaveLang(l: string)
      modifies this
      ensures lang == l
      ensures difficulty == old(difficulty) && highScore == old(highScore) && volume == old(volume)
    {
      lang := l;
    }
  }
}
