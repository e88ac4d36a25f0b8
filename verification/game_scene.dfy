/**
 * The game scene: it owns the player, the enemy group, the combo and score, the difficulty
 * pace and the game-over flag, and resolves hits, contacts and abilities.
 */
module Game {
  import opened Wrappers
  import opened Config
  import opened Enemies
  import opened Bullets
  import opened Weapons
  import opened Players
  import opened Combat

  /** The contact damage an enemy deals, scaled by the difficulty. */
  function ContactDamage(d: Difficulty): (r: real)
    ensures d.damageMult >= 0.0 ==> r >= 0.0
    ensures d == Easy ==> r == 5.0
    ensures d == Normal ==> r == 10.0
    ensures d == Hardcore ==> r == 20.0
  {
    10.0 * d.damageMult
  }

  predicate DistinctEnemies(es: seq<Enemy>) {
    forall i, j :: 0 <= i < j < |es| ==> es[i] != es[j]
  }

  /** The views of a list of enemies, in order. */
  ghost function Views(es: seq<Enemy>): (vs: seq<EnemyView>)
    reads es
    ensures |vs| == |es| && forall j :: 0 <= j < |es| ==> vs[j] == es[j].View()
  {
    seq(|es|, j requires 0 <= j < |es| reads es => es[j].View())
  }

  /** A bullet's ricochet state. */
  function RicochetOf(b: Bullet): Ricochet
    reads b
  {
    Ricochet(b.bounceCount, b.collideWorldBounds, b.bounce)
  }

  class GameScene {
    var player: Player
    var gs: GameState
    var difficulty: Difficulty
    /** The enemy group's children, in the order the group created them. */
    var enemies: seq<Enemy>
    var combo: int
    var comboMultiplier: int
    var comboTimer: int
    var score: real
    var isGameOver: bool
    var physicsPaused: bool
    /** Paused for the level-up screen. */
    var paused: bool
    var spawnDelay: real
    var baseSpeed: real
    var currentSpeed: real
    var difficultyTimer: int
    /** Slow-motion restore callbacks scheduled and not yet run. */
    var slowRestores: nat

    function ComboOf(): Combo
      reads this
    {
      Combo(combo, comboMultiplier, comboTimer)
    }

    function PaceOf(): Pace
      reads this
    {
      Pace(spawnDelay, baseSpeed, currentSpeed, difficultyTimer)
    }

    ghost predicate Valid()
      reads this, player
    {
      && ComboInvariant(ComboOf())
      && PaceInvariant(PaceOf())
      && score >= 0.0
      && difficulty.damageMult >= 0.0 && difficulty.scoreMult >= 0.0
      && player.Valid()
      && (player.hp == 0.0 ==> isGameOver)
      && DistinctEnemies(enemies)
    }

    /** `create`: a new player, no streak, no score, the starting pace of the chosen difficulty. */
    constructor (state: GameState)
      requires state.difficulty in {Easy, Normal, Hardcore}
      ensures Valid() && fresh(player)
      ensures gs == state && difficulty == state.difficulty
      ensures ComboOf() == NoCombo && score == 0.0 && enemies == []
      ensures PaceOf() == StartPace(difficulty)
      ensures !isGameOver && !physicsPaused && !paused && slowRestores == 0
    {
      gs := state;
      difficulty := state.difficulty;
      player := new Player();
      enemies := [];
      combo, comboMultiplier, comboTimer := 0, 1, 0;
      score := 0.0;
      isGameOver, physicsPaused, paused := false, false, false;
      spawnDelay := InitialSpawnDelay;
      baseSpeed, currentSpeed := state.difficulty.speedMult, state.difficulty.speedMult;
      difficultyTimer := 0;
      slowRestores := 0;
    }

    // ------------------------------------------------------------ combo

    method IncreaseCombo()
      modifies this
      ensures ComboOf() == Combat.IncreaseCombo(old(ComboOf()))
      ensures PaceOf() == old(PaceOf()) && score == old(score) && isGameOver == old(isGameOver)
      ensures player == old(player) && enemies == old(enemies) && difficulty == old(difficulty)
      ensures paused == old(paused) && physicsPaused == old(physicsPaused) && slowRestores == old(slowRestores)
      ensures gs == old(gs)
    {
      combo := combo + 1;
      comboTimer := ComboResetTime;
      var newMult := StreakMultiplier(combo);
      if newMult > comboMultiplier {
        comboMultiplier := newMult;
      }
    }

    method ResetCombo()
      modifies this
      ensures ComboOf() == NoCombo
      ensures PaceOf() == old(PaceOf()) && score == old(score) && isGameOver == old(isGameOver)
      ensures player == old(player) && enemies == old(enemies) && difficulty == old(difficulty)
      ensures paused == old(paused) && physicsPaused == old(physicsPaused) && slowRestores == old(slowRestores)
      ensures gs == old(gs)
    {
      combo, comboMultiplier, comboTimer := 0, 1, 0;
    }

    // ------------------------------------------------------------ per tick

    /** The scene's own timers in `update`: difficulty escalation, then combo decay. */
    method Tick(delta: int)
      requires Valid() && delta >= 0
      modifies this
      ensures Valid()
      ensures PaceOf() == DifficultyTick(old(PaceOf()), delta)
      ensures ComboOf() == DecayCombo(old(ComboOf()), delta)
      ensures score == old(score) && isGameOver == old(isGameOver) && player == old(player)
      ensures enemies == old(enemies) && paused == old(paused) && slowRestores == old(slowRestores)
      ensures gs == old(gs)
    {
      DifficultyTickKeeps(PaceOf(), delta);
      difficultyTimer := difficultyTimer + delta;
      if difficultyTimer >= EscalationPeriod {
        IncreaseDifficulty();
        difficultyTimer := 0;
      }
      if combo > 0 {
        comboTimer := comboTimer - delta;
        if comboTimer <= 0 {
          ResetCombo();
        }
      }
    }

    /**
     * One frame of a running game: the player's frame (which may end the run and may use an
     * ability), then the scene's timers. A finished game does nothing (restart is left out).
     */
    method Update(time: int, delta: int, input: Input, inBounds: bool, jitter: real,
                  supply: seq<Bullet>, dists: seq<real>)
      requires Valid() && delta >= 0
      requires |supply| <= Requests(player.weapon.config) && Distinct(supply)
      requires |dists| == |enemies|
      modifies this, player, player.weapon, supply, enemies, gs
      ensures Valid() && player == old(player) && enemies == old(enemies)
      ensures old(isGameOver) ==> unchanged(this, old(player), old(player.weapon), old(gs)) && unchanged(old(enemies))
      ensures isGameOver && !old(isGameOver) ==> player.hp == 0.0 && !inBounds
      ensures !old(isGameOver) ==> difficultyTimer == DifficultyTick(old(PaceOf()), delta).timer
      ensures !old(isGameOver) ==>
        && spawnDelay == DifficultyTick(old(PaceOf()), delta).spawnDelay
        && baseSpeed == DifficultyTick(old(PaceOf()), delta).baseSpeed
      ensures !old(isGameOver) && !input.abilityDown ==>
        ComboOf() == DecayCombo(old(ComboOf()), delta) && PaceOf() == DifficultyTick(old(PaceOf()), delta)
      ensures score == old(score)
    {
      if isGameOver {
        return;
      }
      var gameOver, danger, used := player.Update(time, delta, input, inBounds, jitter, supply);
      if gameOver {
        GameOver();
      }
      if used.Some? {
        HandleAbilityUsed(used.value, dists);
      }
      Tick(delta);
    }

    // ------------------------------------------------------------ spawning and difficulty

    /**
     * `spawnEnemy`: the group hands out an enemy (or none when full); a random draw below 0.3
     * makes it a SPRINTER. It starts at the current speed multiplier and targets the player.
     */
    method SpawnEnemy(acquired: Option<Enemy>, roll: real)
      requires Valid()
      modifies this, if acquired.Some? then {acquired.value} else {}
      ensures Valid()
      ensures old(isGameOver) || acquired.None? ==> enemies == old(enemies)
      ensures old(isGameOver) && acquired.Some? ==> unchanged(acquired.value)
      ensures !old(isGameOver) && acquired.Some? ==>
        var e := acquired.value;
        && e.active && e.visible && e.hasTarget && !e.isKnockedBack
        && e.kind == (if roll < 0.3 then Sprinter else Chaser)
        && e.hp == TemplateOf(e.kind).hp
        && e.currentSpeed == TemplateOf(e.kind).speed * currentSpeed
        && e in enemies
        && enemies == old(enemies) + if e in old(enemies) then [] else [e]
      ensures ComboOf() == old(ComboOf()) && PaceOf() == old(PaceOf()) && score == old(score)
      ensures isGameOver == old(isGameOver) && player == old(player) && paused == old(paused)
    {
      if isGameOver {
        return;
      }
      if acquired.Some? {
        var e := acquired.value;
        var key := if roll < 0.3 then "SPRINTER" else "CHASER";
        e.Spawn(Some(key), currentSpeed);
        e.SetTarget();
        if e !in enemies {
          enemies := enemies + [e];
        }
      }
    }

    method IncreaseDifficulty()
      modifies this
      ensures PaceOf() == Escalate(old(PaceOf()))
      ensures ComboOf() == old(ComboOf()) && score == old(score) && isGameOver == old(isGameOver)
      ensures player == old(player) && enemies == old(enemies) && difficulty == old(difficulty)
      ensures paused == old(paused) && slowRestores == old(slowRestores) && gs == old(gs)
    {
      spawnDelay := Max(MinSpawnDelay, spawnDelay * 0.9);
      baseSpeed := baseSpeed * SpeedGrowth;
      currentSpeed := baseSpeed;
    }

    // ------------------------------------------------------------ hits

    /**
     * A player bullet overlapping an enemy. Inactive bullets or enemies are ignored; a piercing
     * bullet hits each enemy at most once per firing; any other bullet is spent by the hit. A
     * kill releases the enemy, scores it at the multiplier standing before the kill, extends
     * the streak, grants a flat 20 XP and counts one kill for the player.
     */
    method HandleBulletHitEnemy(bullet: Bullet, enemy: Enemy) returns (killed: bool)
      requires Valid()
      modifies this, player, bullet, enemy
      ensures Valid() && player == old(player) && enemies == old(enemies)
      ensures var ignored := !old(bullet.active) || !old(enemy.active)
                             || (old(bullet.isPiercing) && enemy in old(bullet.hitEnemies));
        && (ignored ==> !killed && unchanged(this, player, bullet, enemy))
        && (!ignored ==>
             var hit := AfterHit(old(enemy.View()), HitDamage(old(bullet.damage)));
             && (killed <==> Died(hit))
             && enemy.View() == (if killed then hit.(active := false, visible := false) else hit)
             && (old(bullet.isPiercing) ==> bullet.active && bullet.hitEnemies == old(bullet.hitEnemies) + [enemy])
             && (!old(bullet.isPiercing) ==> !bullet.active && bullet.hitEnemies == old(bullet.hitEnemies)))
      ensures killed ==>
        && score == old(score) + KillScore(TemplateOf(enemy.kind).score, difficulty.scoreMult, old(comboMultiplier))
        && ComboOf() == Combat.IncreaseCombo(old(ComboOf()))
        && player.XpOf() == GainXpSpec(old(player.XpOf()), XpOrbValue)
        && player.stats.kills == old(player.stats.kills) + 1
        && (paused <==> old(paused) || player.level > old(player.level))
      ensures !killed ==> score == old(score) && ComboOf() == old(ComboOf()) && unchanged(player) && paused == old(paused)
      ensures PaceOf() == old(PaceOf()) && isGameOver == old(isGameOver)
    {
      killed := false;
      if !bullet.active || !enemy.active {
        return;
      }
      if bullet.isPiercing {
        if enemy in bullet.hitEnemies {
          return;
        }
        bullet.hitEnemies := bullet.hitEnemies + [enemy];
      } else {
        bullet.Deactivate();
      }
      killed := enemy.TakeDamage(HitDamage(bullet.damage));
      if killed {
        enemy.Deactivate();
        RewardKill(enemy.Config().score);
      }
    }

    /**
     * What a bullet kill earns: score at the current multiplier, one more in the streak,
     * a flat 20 XP (opening the level-up screen when a level is reached) and a counted kill.
     */
    method RewardKill(enemyScore: int)
      requires Valid() && enemyScore >= 0
      modifies this, player
      ensures Valid() && player == old(player) && enemies == old(enemies)
      ensures score == old(score) + KillScore(enemyScore, difficulty.scoreMult, old(comboMultiplier))
      ensures ComboOf() == Combat.IncreaseCombo(old(ComboOf()))
      ensures player.XpOf() == GainXpSpec(old(player.XpOf()), XpOrbValue)
      ensures player.stats.kills == old(player.stats.kills) + 1 && player.hp >= old(player.hp)
      ensures paused <==> old(paused) || player.level > old(player.level)
      ensures PaceOf() == old(PaceOf()) && isGameOver == old(isGameOver) && difficulty == old(difficulty)
    {
      score := score + KillScore(enemyScore, difficulty.scoreMult, comboMultiplier);
      IncreaseCombo();
      var leveledUp := player.GainXp(XpOrbValue);
      if leveledUp {
        TriggerLevelUp();
      }
      player.OnKill();
    }

    /**
     * The world-bounds event: a body that is not a bullet, or a bullet with no bounces left,
     * is ignored; otherwise one bounce is spent.
     */
    method HandleBulletHitWorld(hit: Option<Bullet>)
      modifies if hit.Some? then {hit.value} else {}
      ensures hit.Some? ==> RicochetOf(hit.value) == WorldHit(old(RicochetOf(hit.value)))
      ensures hit.Some? ==> hit.value.active == old(hit.value.active) && hit.value.damage == old(hit.value.damage)
    {
      if hit.None? || hit.value.bounceCount == 0 {
        return;
      }
      var b := hit.value;
      b.bounceCount := b.bounceCount - 1;
      if b.bounceCount <= 0 {
        b.collideWorldBounds := false;
        b.bounce := 0.0;
      }
    }

    /**
     * The player touching an enemy: ignored for an inactive enemy or a finished game; otherwise
     * contact damage is applied and the streak ends only if the player actually lost hp.
     */
    method HandleEnemyOverlap(enemy: Enemy)
      requires Valid()
      modifies this, player, gs
      ensures Valid() && player == old(player) && enemies == old(enemies)
      ensures !old(enemy.active) || old(isGameOver) ==> unchanged(this, old(player), old(gs))
      ensures old(enemy.active) && !old(isGameOver) ==>
        && player.hp == (if old(player.invulnerable) then old(player.hp) else Clamped(old(player.hp), ContactDamage(difficulty)))
        && player.invulnerable
        && (ComboOf() == if player.hp < old(player.hp) then NoCombo else old(ComboOf()))
        && (isGameOver <==> player.hp == 0.0)
      ensures score == old(score) && PaceOf() == old(PaceOf())
    {
      if !enemy.active || isGameOver {
        return;
      }
      var damage := ContactDamage(difficulty);
      var currentHp := player.hp;
      var gameOver := player.TakeDamage(damage, false);
      if gameOver {
        GameOver();
      }
      if player.hp < currentHp {
        ResetCombo();
      }
    }

    // ------------------------------------------------------------ abilities

    /** Dispatches an `abilityUsed` event to its effect. */
    method HandleAbilityUsed(ability: Ability, dists: seq<real>)
      requires Valid() && |dists| == |enemies|
      modifies this, player, enemies
      ensures Valid() && player == old(player) && enemies == old(enemies)
      ensures ability.TimeSlow? ==>
        && currentSpeed == baseSpeed * ability.factor && slowRestores == old(slowRestores) + 1
        && unchanged(player) && unchanged(enemies) && ComboOf() == old(ComboOf())
      ensures ability.NovaBlast? ==>
        && (forall j :: 0 <= j < |enemies| ==>
              enemies[j].View() == NovaEffect(old(enemies[j].View()), dists[j], ability.radius, ability.damage))
        && var kills := NovaKillCount(old(Views(enemies)), dists, ability.radius, ability.damage, |enemies|);
           && ComboOf() == IncreaseTimes(old(ComboOf()), kills)
           && player.XpOf() == GainXpTimes(old(player.XpOf()), kills, XpOrbValue)
           && player.stats == old(player.stats) && player.hp == old(player.hp)
           && (paused <==> old(paused) || player.level > old(player.level))
           && currentSpeed == old(currentSpeed) && slowRestores == old(slowRestores)
      ensures score == old(score) && isGameOver == old(isGameOver) && baseSpeed == old(baseSpeed)
      ensures spawnDelay == old(spawnDelay) && difficultyTimer == old(difficultyTimer)
    {
      match ability
      case TimeSlow(_, _, factor) =>
        currentSpeed := baseSpeed * factor;
        slowRestores := slowRestores + 1;
      case NovaBlast(_, radius, damage, _) =>
        NovaBlast(radius, damage, dists);
    }

    /** The slow-motion restore: new spawns use the base multiplier as it stands now. */
    method SlowRestore()
      requires slowRestores > 0
      modifies this
      ensures PaceOf() == SlowEnd(old(PaceOf())) && slowRestores == old(slowRestores) - 1
      ensures ComboOf() == old(ComboOf()) && score == old(score) && isGameOver == old(isGameOver)
      ensures player == old(player) && enemies == old(enemies) && paused == old(paused)
    {
      currentSpeed := baseSpeed;
      slowRestores := slowRestores - 1;
    }

    /**
     * The nova blast: every active enemy within `radius` takes `damage`; each one killed is
     * released and extends the streak and grants 20 XP, without score or a counted kill.
     */
    method NovaBlast(radius: real, damage: int, dists: seq<real>)
      requires Valid() && |dists| == |enemies|
      modifies this, player, enemies
      ensures Valid() && player == old(player) && enemies == old(enemies)
      ensures forall j :: 0 <= j < |enemies| ==>
        enemies[j].View() == NovaEffect(old(enemies[j].View()), dists[j], radius, damage)
      ensures var kills := NovaKillCount(old(Views(enemies)), dists, radius, damage, |enemies|);
        && ComboOf() == IncreaseTimes(old(ComboOf()), kills)
        && player.XpOf() == GainXpTimes(old(player.XpOf()), kills, XpOrbValue)
      ensures player.stats == old(player.stats) && player.hp == old(player.hp)
      ensures paused <==> old(paused) || player.level > old(player.level)
      ensures PaceOf() == old(PaceOf()) && score == old(score) && isGameOver == old(isGameOver)
      ensures slowRestores == old(slowRestores)
    {
      var es := enemies;
      ghost var before := Views(es);
      ghost var kills := 0;
      for i := 0 to |es|
        invariant Valid() && player == old(player) && enemies == es && DistinctEnemies(es)
        invariant forall j :: 0 <= j < i ==> es[j].View() == NovaEffect(before[j], dists[j], radius, damage)
        invariant forall j :: i <= j < |es| ==> es[j].View() == before[j]
        invariant kills == NovaKillCount(before, dists, radius, damage, i)
        invariant ComboOf() == IncreaseTimes(old(ComboOf()), kills)
        invariant player.XpOf() == GainXpTimes(old(player.XpOf()), kills, XpOrbValue)
        invariant player.stats == old(player.stats) && player.hp == old(player.hp)
        invariant player.level >= old(player.level)
        invariant paused <==> old(paused) || player.level > old(player.level)
        invariant PaceOf() == old(PaceOf()) && score == old(score) && isGameOver == old(isGameOver)
        invariant slowRestores == old(slowRestores)
      {
        label before_strike:
        var killed := NovaStrike(es[i], dists[i], radius, damage);
        forall j | 0 <= j < |es| && j != i
          ensures es[j].View() == old@before_strike(es[j].View())
        {
          assert es[j] != es[i];
        }
        if killed {
          kills := kills + 1;
        }
      }
    }

    /** The blast on one enemy of the group. */
    method NovaStrike(e: Enemy, dist: real, radius: real, damage: int) returns (killed: bool)
      requires Valid()
      modifies this, player, e
      ensures Valid() && player == old(player) && enemies == old(enemies)
      ensures e.View() == NovaEffect(old(e.View()), dist, radius, damage)
      ensures killed <==> NovaKills(old(e.View()), dist, radius, damage)
      ensures ComboOf() == if killed then Combat.IncreaseCombo(old(ComboOf())) else old(ComboOf())
      ensures player.XpOf() == if killed then GainXpSpec(old(player.XpOf()), XpOrbValue) else old(player.XpOf())
      ensures player.stats == old(player.stats) && player.hp == old(player.hp)
      ensures paused <==> old(paused) || player.level > old(player.level)
      ensures PaceOf() == old(PaceOf()) && score == old(score) && isGameOver == old(isGameOver)
      ensures slowRestores == old(slowRestores)
    {
      killed := false;
      if e.active && dist <= radius {
        killed := e.TakeDamage(damage);
        if killed {
          e.Deactivate();
          IncreaseCombo();
          var leveledUp := player.GainXp(XpOrbValue);
          if leveledUp {
            TriggerLevelUp();
          }
        }
      }
    }

    // ------------------------------------------------------------ level-up and game over

    /** Pauses the scene for the level-up screen. */
    method TriggerLevelUp()
      modifies this
      ensures paused
      ensures ComboOf() == old(ComboOf()) && PaceOf() == old(PaceOf()) && score == old(score)
      ensures isGameOver == old(isGameOver) && player == old(player) && enemies == old(enemies)
      ensures slowRestores == old(slowRestores) && gs == old(gs) && difficulty == old(difficulty)
    {
      paused := true;
    }

    /** Ends the run: physics stops and the floored score is offered as a high score. */
    method GameOver()
      requires score >= 0.0
      modifies this, gs
      ensures isGameOver && physicsPaused
      ensures gs.highScore == if score.Floor > old(gs.highScore) then score.Floor else old(gs.highScore)
      ensures gs.volume == old(gs.volume) && gs.lang == old(gs.lang) && gs.difficulty == old(gs.difficulty)
      ensures ComboOf() == old(ComboOf()) && PaceOf() == old(PaceOf()) && score == old(score)
      ensures player == old(player) && enemies == old(enemies) && paused == old(paused)
      ensures slowRestores == old(slowRestores) && gs == old(gs) && difficulty == old(difficulty)
    {
      isGameOver := true;
      physicsPaused := true;
      gs.SaveHighScore(score.Floor);
    }
  }
}
