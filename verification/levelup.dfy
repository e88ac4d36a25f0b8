/**
 * The level-up screen: which skills are offered (the conditions of the `SKILLS` table, a
 * shuffle, the first three) and what choosing one does to the player and the paused game.
 * The shuffle is random; it reaches the model as the shuffled sequence itself.
 */
module LevelUp {
  import opened Wrappers
  import opened Config
  import opened Players
  import Game

  /** The skills of `skills` whose condition holds for the player, in table order. */
  function Available(skills: seq<Skill>, weaponId: string, ability: Option<Ability>): (r: seq<Skill>)
    ensures |r| <= |skills|
    ensures forall s :: s in r <==> s in skills && Offerable(s, weaponId, ability)
  {
    if skills == [] then []
    else
      var rest := Available(skills[1..], weaponId, ability);
      assert forall s :: s in skills <==> s == skills[0] || s in skills[1..];
      if Offerable(skills[0], weaponId, ability) then [skills[0]] + rest else rest
  }

  predicate Distinct(s: seq<Skill>) {
    forall i, j :: 0 <= i < j < |s| ==> s[i] != s[j]
  }

  /** Filtering a table without repeats gives a list without repeats. */
  lemma {:induction false} AvailableDistinct(skills: seq<Skill>, weaponId: string, ability: Option<Ability>)
    requires Distinct(skills)
    ensures Distinct(Available(skills, weaponId, ability))
  {
    if skills != [] {
      assert Distinct(skills[1..]);
      AvailableDistinct(skills[1..], weaponId, ability);
      assert skills[0] !in skills[1..];
    }
  }

  /** A sequence has no repeats exactly when every element occurs in it at most once. */
  lemma {:induction false} DistinctCounts(s: seq<Skill>)
    ensures Distinct(s) <==> forall x :: multiset(s)[x] <= 1
  {
    if s != [] {
      DistinctCounts(s[1..]);
      assert s == [s[0]] + s[1..];
      assert multiset(s) == multiset{s[0]} + multiset(s[1..]);
      if Distinct(s) {
        assert Distinct(s[1..]);
        assert s[0] !in multiset(s[1..]);
      }
      if forall x :: multiset(s)[x] <= 1 {
        forall x ensures multiset(s[1..])[x] <= 1 {
          assert multiset(s)[x] == (if x == s[0] then 1 else 0) + multiset(s[1..])[x];
        }
        assert multiset(s[1..])[s[0]] == 0;
        forall i, j | 0 <= i < j < |s| ensures s[i] != s[j] {
          if i == 0 {
            assert s[j] in s[1..];
          } else {
            assert s[i] == s[1..][i - 1] && s[j] == s[1..][j - 1];
          }
        }
      }
    }
  }

  function OfferSize(n: nat): nat {
    if n < 3 then n else 3
  }

  /** `Shuffle(available).slice(0, 3)`: the first three skills of the shuffled list. */
  function Offer(shuffled: seq<Skill>): (offer: seq<Skill>)
    ensures |offer| == OfferSize(|shuffled|)
    ensures offer <= shuffled
  {
    shuffled[..OfferSize(|shuffled|)]
  }

  /**
   * For any shuffle of the available skills: every offered skill is a skill of the table whose
   * condition holds, none is offered twice, three are offered when at least three are
   * available, and when at most three are available all of them are offered.
   */
  lemma OfferSound(weaponId: string, ability: Option<Ability>, shuffled: seq<Skill>)
    requires multiset(shuffled) == multiset(Available(Skills, weaponId, ability))
    ensures forall s :: s in Offer(shuffled) ==> s in Skills && Offerable(s, weaponId, ability)
    ensures Distinct(Offer(shuffled))
    ensures |Offer(shuffled)| == OfferSize(|Available(Skills, weaponId, ability)|)
    ensures |Available(Skills, weaponId, ability)| <= 3 ==>
              forall s :: s in Available(Skills, weaponId, ability) ==> s in Offer(shuffled)
  {
    var available := Available(Skills, weaponId, ability);
    SkillsDistinct();
    AvailableDistinct(Skills, weaponId, ability);
    DistinctCounts(available);
    DistinctCounts(shuffled);
    assert |shuffled| == |multiset(shuffled)| == |available|;
    forall s | s in Offer(shuffled) ensures s in available {
      assert s in multiset(shuffled);
    }
    forall s | s in available ensures s in shuffled {
      assert s in multiset(available);
    }
  }

  /** A filter that keeps every skill returns the table itself. */
  lemma {:induction false} AllAvailable(skills: seq<Skill>, weaponId: string, ability: Option<Ability>)
    requires forall s :: s in skills ==> Offerable(s, weaponId, ability)
    ensures Available(skills, weaponId, ability) == skills
  {
    if skills != [] {
      AllAvailable(skills[1..], weaponId, ability);
      assert [skills[0]] + skills[1..] == skills;
    }
  }

  /** With the pistol and no ability every one of the eight skills is available. */
  lemma StartingOffer()
    ensures Available(Skills, "pistol", None) == Skills
  {
    assert "pistol" != "shotgun" && "pistol" != "laser" && "pistol" != "ricochet";
    AllAvailable(Skills, "pistol", None);
  }

  /** Once the shotgun is held its skill is no longer offered; every other skill is. */
  lemma ShotgunNotOfferedTwice()
    ensures forall s :: s in Available(Skills, "shotgun", None) <==> s != WeaponShotgun
  {
    assert "shotgun" != "laser" && "shotgun" != "ricochet";
  }

  /**
   * What `apply` of skill `s` leaves in `p`, against the state before: each skill changes
   * exactly its own part of the player, and max_hp throws after raising the maximum.
   */
  twostate predicate SkillApplied(p: Player, s: Skill)
    reads p, p.weapon
  {
    && (s.RapidFire? ==>
          p.View() == old(p.View()).(stats := old(p.stats).(fireRate := old(p.stats.fireRate) * 0.85))
          // the weapon's cooldown reads its own template, so the fire-rate skill does not change it
          && p.weapon == old(p.weapon) && forall t :: p.weapon.CanFire(t) == old(p.weapon.CanFire(t)))
    && (s.SpeedBoots? ==>
          p.View() == old(p.View()).(stats := old(p.stats).(speed := old(p.stats.speed) * 1.1)))
    && (s.MaxHp? ==> p.View() == old(p.View()).(maxHp := old(p.maxHp) + 20.0))
    && ((s.WeaponShotgun? || s.WeaponLaser? || s.WeaponRicochet?) ==>
          && fresh(p.weapon) && p.weapon.config.id == EquippedWeapon(s) && p.weapon.lastFired == 0
          && p.View() == old(p.View()).(weapon := p.weapon))
    && ((s.AbilityTimeSlow? || s.AbilityNova?) ==>
          p.View() == old(p.View()).(activeAbility := Some(EquippedAbility(s))))
  }

  /**
   * A skill's `apply`. `max_hp` raises the maximum by 20 and then calls `player.heal`, which
   * the player does not have: the call throws, so the skill reports it did not complete and
   * the current hp stays as it was.
   */
  method ApplySkill(p: Player, s: Skill) returns (completed: bool)
    requires p.Valid()
    modifies p
    ensures p.Valid()
    ensures completed <==> !s.MaxHp?
    ensures SkillApplied(p, s)
  {
    WeaponIdsResolve();
    completed := true;
    match s
    case RapidFire =>
      p.stats := p.stats.(fireRate := p.stats.fireRate * 0.85);
    case SpeedBoots =>
      p.stats := p.stats.(speed := p.stats.speed * 1.1);
    case MaxHp =>
      p.maxHp := p.maxHp + 20.0;
      completed := false;
    case WeaponShotgun =>
      p.EquipWeapon("shotgun");
    case WeaponLaser =>
      p.EquipWeapon("laser");
    case WeaponRicochet =>
      p.EquipWeapon("ricochet");
    case AbilityTimeSlow =>
      p.EquipAbility(TimeSlowAbility);
    case AbilityNova =>
      p.EquipAbility(NovaBlastAbility);
  }

  /** The overlay launched over the paused game scene with the game's player. */
  class LevelUpScene {
    const game: Game.GameScene
    const player: Player
    var offered: seq<Skill>
    var running: bool

    /** `create`: offers the first three of the shuffled available skills. */
    constructor (game: Game.GameScene, shuffled: seq<Skill>)
      requires multiset(shuffled) ==
               multiset(Available(Skills, game.player.weapon.config.id, game.player.activeAbility))
      ensures this.game == game && player == game.player && running
      ensures offered == Offer(shuffled)
    {
      this.game := game;
      player := game.player;
      offered := Offer(shuffled);
      running := true;
    }

    /**
     * Applies the chosen card's skill once and, when that completes, closes the overlay and
     * resumes the game; a skill whose `apply` throws leaves both as they were.
     */
    method SelectSkill(s: Skill) returns (completed: bool)
      requires s in offered && running
      requires game.Valid() && player == game.player
      modifies this, player, game
      ensures game.Valid() && offered == old(offered)
      ensures completed <==> !s.MaxHp?
      ensures SkillApplied(player, s)
      ensures running == !completed
      ensures game.paused == (old(game.paused) && !completed)
      ensures game.ComboOf() == old(game.ComboOf()) && game.PaceOf() == old(game.PaceOf())
      ensures game.score == old(game.score) && game.isGameOver == old(game.isGameOver)
      ensures game.player == player && game.enemies == old(game.enemies)
    {
      completed := ApplySkill(player, s);
      if completed {
        running := false;
        game.paused := false;
      }
    }
  }
}
