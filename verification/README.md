# Arcade shooter combat core in Dafny

This project models the combat bookkeeping of a top-down Phaser arcade shooter and proves
properties about it. The game's objects are Dafny classes that hold their own fields:

- the game scene, with its combo streak, score, difficulty pace and game-over flag;
- the player, with hp, ammo and reload, XP and level, dash, ability cooldown and kill counter;
- pooled enemies and bullets;
- the weapon and its four firing patterns;
- powerups, the two experience-orb kinds, and the orbiting drone;
- the level-up overlay and the settings record.

Their methods update the fields in place. Each method states its new state against a
specification function, and lemmas prove the promised properties about those functions:

- the combo multiplier only rises during a streak, and the streak expires once its window has elapsed;
- the spawn delay runs 2000, 1800, 1620 ms and reaches its 500 ms floor at the fourteenth escalation;
- XP thresholds run 100, 120, 144, 172 and strictly increase;
- the shotgun fan is symmetric and sums to zero;
- the world-bounds handler ends a ricochet bullet's wall collision at its third call;
- an enemy with no hp left keeps reporting death;
- an orb pays its value exactly once;
- skill offers are sound, distinct and three long;
- the volume toggle has a four-step cycle.

Modelling conventions:

- **Timers.** Delayed callbacks (`delayedCall`) are recorded in a `pending` multiset on the
  object that scheduled them. Each callback body is its own method, which requires its
  callback to be pending and removes it.
- **Randomness, input and geometry.** Randomness, pointer and keyboard input, and geometry
  (distances, bearings, "inside the world bounds") are parameters.
- **Object pools.** A pool `get` becomes an `Option` or, for a volley, the sequence of
  bullets the pool handed out, in request order.
- **Numbers.** The millisecond clock and counters are `int`. Player hp, score, speeds and
  multipliers are exact `real`s.

Where the code departs from the game's stated design, the model follows the code:

- The combo multiplier is `1 + floor(combo / 5)` with a 3000 ms window, not fixed thresholds
  and a 2000 ms window.
- `takeDamage` has no dead-enemy guard. Callers prevent a double kill by checking `active`.
- A nova-blast kill extends the streak and grants XP, but it gives no score and does not
  count as a kill for the player.
- A kill grants a flat 20 XP. Only the floating text shows 20 × the multiplier.

## Model

| member | source | states |
|---|---|---|
| Config.WeaponFor | src/entities/Weapon.js:7 | the template is found by the ASCII upper-cased id, and only the four weapon keys resolve |
| Config.WeaponIdsResolve | src/utils/Config.js:43-90 | each weapon id the game passes resolves to its own template |
| Config.SkillsDistinct | src/utils/Config.js:112-169 | the eight skills of the table are pairwise distinct |
| Config.Offerable | src/utils/Config.js:112-167 | a weapon skill is offered iff the held weapon's id differs; an ability skill iff no ability is held or its id differs; the other skills always |
| Config.StoredOr | src/utils/Config.js:182-183 | a stored non-zero integer is kept; a missing, unparsable or zero entry gives the fallback |
| Config.StoredLangOr | src/utils/Config.js:184 | a stored non-empty language is kept, otherwise 'en' |
| Config.MutedVolumeReloadsLoud | src/utils/Config.js:183 | a saved volume of 0 reloads as 100; any other saved volume reloads as itself |
| Config.GameState.Load | src/utils/Config.js:180-184 | start-up defaults: Normal difficulty, high score 0, volume 100, language 'en' |
| Config.GameState.SaveHighScore | src/utils/Config.js:186-191 | the high score changes only to a higher score, so it never decreases; the other settings are untouched |
| Config.GameState.SaveVolume | src/utils/Config.js:193-196 | the volume becomes exactly the argument; nothing else changes |
| Config.GameState.SaveLang | src/utils/Config.js:198-201 | the language becomes exactly the argument; nothing else changes |
| Enemies.ResolveType | src/entities/Enemy.js:53 | the type is SPRINTER iff the key is 'SPRINTER'; a missing key or any key other than the two table keys gives CHASER |
| Enemies.ResolveKeyOf | src/entities/Enemy.js:1-16 | each type's own table key resolves to that type |
| Enemies.AfterHit | src/entities/Enemy.js:97-114 | a hit lowers hp by exactly the damage, sets the knockback flag, schedules one knockback end, and changes nothing else |
| Enemies.HitResults | src/entities/Enemy.js:97-120 | one died/alive answer per hit |
| Enemies.NoDeadGuard | src/entities/Enemy.js:97-120 | once hp is at or below zero, every further non-negative hit reports a death again |
| Enemies.TemplateHitCounts | src/entities/Enemy.js:2-15 | a fresh CHASER hit three times for 1 answers false, false, true; a SPRINTER dies on the first hit |
| Enemies.Enemy.constructor | src/entities/Enemy.js:19-44 | the resolved type's hp and speed, not knocked back, no target |
| Enemies.Enemy.Spawn | src/entities/Enemy.js:47-73 | active and visible again, with the resolved template's hp and base speed, current speed = base × multiplier, and the knockback flag cleared |
| Enemies.Enemy.SetTarget | src/entities/Enemy.js:75-77 | only the target changes |
| Enemies.Enemy.Update | src/entities/Enemy.js:79-95 | steers iff active, targeted and not knocked back |
| Enemies.Enemy.TakeDamage | src/entities/Enemy.js:97-121 | the new state is AfterHit of the old one; the result is true iff hp is now at or below zero |
| Enemies.Enemy.KnockbackOver | src/entities/Enemy.js:112-114 | the knockback flag is cleared only while the enemy is active; one callback is consumed |
| Enemies.Enemy.Deactivate | src/scenes/GameScene.js:295-298 | a killed enemy is inactive and hidden; nothing else changes |
| Bullets.TintFor | src/entities/Bullet.js:26-30 | a tint is applied iff it is non-zero and not white, and then it is exactly that tint |
| Bullets.HitDamage | src/scenes/GameScene.js:292 | an unset (zero) damage hits for 1; any other damage hits for itself |
| Bullets.Bullet.constructor | src/entities/Bullet.js:4-10 | no bounces, not piercing, empty hit list, not an enemy bullet |
| Bullets.Bullet.Fire | src/entities/Bullet.js:12-50 | active with the given direction, speed, damage and owner; tint per TintFor; all hit state reset (no bounces, not piercing, empty hit list, no world collision) |
| Bullets.Bullet.SetTint | src/entities/Drone.js:68 | the tint is set unconditionally; the flight and hit state are untouched |
| Bullets.Bullet.PreUpdate | src/entities/Bullet.js:52-58 | the bullet is switched off iff it left the world while not colliding with the world bounds |
| Bullets.Bullet.Deactivate | src/scenes/GameScene.js:286-289 | a spent bullet is inactive and hidden, and its hit state is kept |
| Weapons.PatternOf | src/entities/Weapon.js:24-38 | 'shotgun', 'laser' and 'ricochet' each select their own pattern; every other id selects the standard shot |
| Weapons.TemplatePatterns | src/entities/Weapon.js:24-38 | the four templates reach the standard, spread, piercing and bounce patterns |
| Weapons.OffsetsSymmetric | src/entities/Weapon.js:71 | bullets i and count−1−i of the fan have opposite offsets |
| Weapons.OffsetSumClosedForm | src/entities/Weapon.js:67-74 | the first n offsets sum to (n(n−1)/2 − n(count−1)/2) × spread |
| Weapons.OffsetsCancel | src/entities/Weapon.js:67-74 | a whole fan's offsets sum to zero |
| Weapons.ShotgunFan | src/entities/Weapon.js:71 | the shotgun template fans at −1, −0.5, 0, 0.5 and 1 |
| Weapons.StandardDeviationBound | src/entities/Weapon.js:57 | the standard shot's random deviation lies within half the spread |
| Weapons.Weapon.constructor | src/entities/Weapon.js:4-12 | the given template and lastFired = 0 |
| Weapons.Weapon.Fire | src/entities/Weapon.js:18-51 | fires iff time > lastFired + fireRate (strict). Only then lastFired becomes time and the handed-out bullets carry the pattern's volley. It reports success even with no bullet. A refused call leaves the bullets untouched. Recoil applies only to the spread pattern |
| Weapons.Weapon.FireStandard | src/entities/Weapon.js:53-61 | one bullet at aim + (jitter − 0.5) × spread, at template speed, damage and colour |
| Weapons.Weapon.FireShotgun | src/entities/Weapon.js:63-83 | handed-out bullet i flies at aim + ShotgunOffset(i); a pool miss skips only that bullet |
| Weapons.Weapon.FireLaser | src/entities/Weapon.js:85-97 | one bullet at twice the speed, marked piercing after the reset in `fire` |
| Weapons.Weapon.FireRicochet | src/entities/Weapon.js:99-110 | one bullet colliding with the world bounds, bounce 1, bounceCount 3 |
| Players.Grow | src/entities/Player.js:246 | the result is floor(next × 1.2) |
| Players.Threshold | src/entities/Player.js:243-249 | every level's threshold is at least 100 |
| Players.FirstThresholds | src/entities/Player.js:246 | the thresholds run 100, 120, 144, 172 |
| Players.ThresholdsIncrease | src/entities/Player.js:246 | each level costs strictly more XP than every earlier one |
| Players.GainXpStep | src/entities/Player.js:233-249 | one gain keeps the XP record valid and raises the level by at most one, exactly when the threshold is reached |
| Players.GainXpTimes | src/entities/Player.js:233-241 | k gains keep the record valid and raise the level by at most k |
| Players.Clamped | src/entities/Player.js:204-205 | hp after a hit is never negative, never above the old hp, and either 0 or hp − amount |
| Players.Player.constructor | src/entities/Player.js:6-73 | full hp and ammo, level 1 needing 100 XP, the pistol, no ability, base stats, can dash |
| Players.Player.TakeDamage | src/entities/Player.js:201-221 | non-silent damage while invulnerable changes nothing. Otherwise hp is clamped at 0. Only non-silent damage sets invulnerability and schedules its end. The game ends whenever the hit applied and hp is 0 |
| Players.Player.InvulnerabilityOver | src/entities/Player.js:212-215 | invulnerability cleared; one callback consumed |
| Players.Player.GainXp | src/entities/Player.js:233-241 | the XP record becomes GainXpSpec of the old one; reports a level-up iff the level rose by one |
| Players.Player.LevelUp | src/entities/Player.js:243-249 | xp −= threshold, level + 1, threshold := Grow(threshold) |
| Players.Player.HandleShooting | src/entities/Player.js:137-151 | fires iff the pointer is down, no reload runs, ammo > 0 and the weapon is ready. Each shot costs exactly one round. Running dry with the pointer down starts exactly one reload |
| Players.Player.HandleReload | src/entities/Player.js:186-190 | a manual reload starts only when none runs and the magazine is not full |
| Players.Player.Reload | src/entities/Player.js:192-199 | reloading, with one reload callback scheduled |
| Players.Player.ReloadDone | src/entities/Player.js:194-198 | a full magazine of 30 and no reload running |
| Players.Player.HandleDash | src/entities/Player.js:164-184 | dashes iff the key is down, a dash is allowed and none runs; then it is dashing, cannot dash, and its end and cooldown are scheduled |
| Players.Player.DashOver | src/entities/Player.js:175-178 | the dash ends |
| Players.Player.DashReady | src/entities/Player.js:180-182 | dashing is allowed again |
| Players.Player.HandleAbility | src/entities/Player.js:153-157 | the equipped ability is used iff its key is down and time > cooldown timer (strict); exactly one use is reported and the timer becomes time + cooldown |
| Players.Player.ActivateAbility | src/entities/Player.js:159-162 | timer := time + cooldown; reports the equipped ability |
| Players.Player.OnKill | src/entities/Player.js:259-265 | kills + 1; with vampirism every fifth kill heals 1, capped at maxHp |
| Players.Player.EquipWeapon | src/entities/Player.js:251-253 | a fresh weapon of the named template with its cooldown reset |
| Players.Player.EquipAbility | src/entities/Player.js:255-257 | the ability is equipped; nothing else changes |
| Players.Player.CheckDangerZone | src/entities/Player.js:91-113 | reports danger iff out of bounds. Out of bounds, silent damage of 5 per second of the frame is applied and may end the game |
| Players.Player.ReloadThenDash | src/entities/Player.js:78-79 | a reload starts iff none runs and the key was pressed with a part-empty magazine; a dash starts iff its key is down, a dash is allowed and none runs; exactly their callbacks are scheduled and nothing else changes |
| Players.Player.HandleControls | src/entities/Player.js:78-86 | reload key, then dash, then trigger. A reload starts iff none ran and either the key was pressed with a part-empty magazine or the shot emptied it. It dashes iff the key is down, a dash is allowed and none runs. It fires iff the trigger is down, ammo remains, no reload runs (including one the key just started) and the weapon is ready. Each shot costs one round. Exactly the matching callbacks are scheduled, and hp, XP, stats and ability are unchanged |
| Players.Player.Update | src/entities/Player.js:75-89 | danger iff out of bounds. The game ends only through danger-zone damage to 0. The ability is used iff its key is down and it is ready. XP, level, stats and maxHp are unchanged |
| Combat.StreakMultiplier | src/scenes/GameScene.js:219 | a streak of `count` earns 1 + count div 5 |
| Combat.IncreaseCombo | src/scenes/GameScene.js:215-231 | combo + 1 and a full 3000 ms window. The multiplier never decreases and reaches the streak's own. It preserves the combo invariant |
| Combat.DecayCombo | src/scenes/GameScene.js:131-135 | decay runs only during a streak: the timer drops by delta, and once it reaches 0 the combo resets to 0 / ×1 / 0 |
| Combat.ComboExpires | src/scenes/GameScene.js:130-137 | with no kill, ticks adding up to the remaining window end the streak |
| Combat.ComboSurvives | src/scenes/GameScene.js:130-137 | ticks shorter in sum than the window leave the streak, with only its timer reduced |
| Combat.StreakOfKills | src/scenes/GameScene.js:215-231 | k kills from nothing give a valid streak of exactly k |
| Combat.KillScore | src/scenes/GameScene.js:300 | a kill is worth at least the enemy's score × the difficulty's score factor |
| Combat.StartPace | src/scenes/GameScene.js:72-75 | spawn delay 2000, both speed multipliers at the difficulty's, timer 0 |
| Combat.Escalate | src/scenes/GameScene.js:263-267 | spawn delay max(500, delay × 0.9), never rising from at or above the floor. Base speed × 1.05, and the current multiplier is reset to the base |
| Combat.DifficultyTick | src/scenes/GameScene.js:123-128 | escalates and restarts the timer at 0 (the excess is dropped) once the timer reaches 30000; otherwise only accumulates |
| Combat.DifficultyTickKeeps | src/scenes/GameScene.js:123-128 | a tick keeps the pace invariant, never raises the spawn delay and never lowers the base speed |
| Combat.SpawnDelayNonIncreasing | src/scenes/GameScene.js:264 | further escalations never raise the spawn delay |
| Combat.SpawnDelaySchedule | src/scenes/GameScene.js:264 | 2000 → 1800 → 1620 |
| Combat.SpawnDelayFloor | src/scenes/GameScene.js:264 | above 500 for the first 13 escalations, exactly 500 from the fourteenth on |
| Combat.SlowMotionMeetsEscalation | src/scenes/GameScene.js:352-360 | an escalation during slow motion ends it; the later restore uses the escalated base |
| Combat.WorldHit | src/scenes/GameScene.js:322-332 | a count of 0 is untouched; otherwise count − 1, and collision ends at the last bounce |
| Combat.BouncesExactly | src/scenes/GameScene.js:322-332 | a bullet armed with n bounces still collides through n − 1 calls of the world-bounds handler and stops at the n-th |
| Combat.NovaEffect | src/scenes/GameScene.js:370-389 | only active enemies within the radius are hit; a hit lowers hp by the damage, and the enemy is released iff it died |
| Combat.NovaKillCount | src/scenes/GameScene.js:370-389 | at most one kill per enemy |
| Combat.NovaScenario | src/scenes/GameScene.js:370-389 | radius 300, damage 10: an hp-5 enemy at 250 is killed once; one at 350 is untouched |
| Game.ContactDamage | src/scenes/GameScene.js:341 | contact damage is 5, 10 or 20 on Easy, Normal or Hardcore |
| Game.GameScene.constructor | src/scenes/GameScene.js:10-105 | new player, no streak, score 0, the difficulty's starting pace, not over |
| Game.GameScene.IncreaseCombo | src/scenes/GameScene.js:215-231 | the combo fields become Combat.IncreaseCombo of the old ones; nothing else changes |
| Game.GameScene.ResetCombo | src/scenes/GameScene.js:233-238 | combo 0, multiplier 1, timer 0 |
| Game.GameScene.Tick | src/scenes/GameScene.js:123-137 | the pace becomes DifficultyTick and the combo DecayCombo of the old ones |
| Game.GameScene.Update | src/scenes/GameScene.js:107-138 | a finished game changes nothing. The run ends only with the player at 0 hp out of bounds. The spawn delay, base speed and difficulty timer advance as DifficultyTick says. Without an ability use, the combo decays as DecayCombo says and the whole pace is DifficultyTick's. The score is unchanged |
| Game.GameScene.SpawnEnemy | src/scenes/GameScene.js:240-261 | nothing when over or the group is full. Otherwise the enemy respawns as SPRINTER iff the roll is below 0.3, at the current speed multiplier, targeting the player, and joins the group |
| Game.GameScene.IncreaseDifficulty | src/scenes/GameScene.js:263-277 | the pace becomes Escalate of the old one |
| Game.GameScene.HandleBulletHitEnemy | src/scenes/GameScene.js:279-320 | an inactive bullet or enemy is ignored. A piercing bullet hits an enemy at most once per firing. Any other bullet is spent before the damage. A kill releases the enemy, scores at the pre-kill multiplier, extends the streak, grants 20 XP and counts one kill |
| Game.GameScene.RewardKill | src/scenes/GameScene.js:300-305 | score += KillScore at the old multiplier; combo step; XP per GainXpSpec; kills + 1; paused iff a level was reached |
| Game.GameScene.HandleBulletHitWorld | src/scenes/GameScene.js:322-332 | when the world-bounds handler runs, the bullet's ricochet state becomes WorldHit of the old one |
| Game.GameScene.HandleEnemyOverlap | src/scenes/GameScene.js:334-350 | ignored for an inactive enemy or a finished game. Otherwise contact damage is applied, and the streak resets iff hp actually dropped |
| Game.GameScene.HandleAbilityUsed | src/scenes/GameScene.js:352-391 | time slow sets the current multiplier to base × factor and schedules a restore; nova blast applies NovaBlast |
| Game.GameScene.SlowRestore | src/scenes/GameScene.js:357-360 | the current multiplier returns to the base as it stands now |
| Game.GameScene.NovaBlast | src/scenes/GameScene.js:361-390 | each enemy becomes NovaEffect of its old view. The combo and XP advance once per kill counted by NovaKillCount. Score, kills and hp are unchanged |
| Game.GameScene.NovaStrike | src/scenes/GameScene.js:371-387 | one enemy's NovaEffect; a kill steps the combo and grants 20 XP |
| Game.GameScene.TriggerLevelUp | src/scenes/GameScene.js:393-396 | the scene is paused |
| Game.GameScene.GameOver | src/scenes/GameScene.js:398-404 | over, physics paused, floor(score) offered to SaveHighScore |
| LevelUp.Available | src/scenes/LevelUpScene.js:34 | exactly the table's skills whose condition holds |
| LevelUp.AvailableDistinct | src/scenes/LevelUpScene.js:34 | filtering the table introduces no repeats |
| LevelUp.Offer | src/scenes/LevelUpScene.js:35 | a prefix of the shuffled list of length min(3, n) |
| LevelUp.OfferSound | src/scenes/LevelUpScene.js:34-35 | for any shuffle, every offered skill satisfies its condition and none repeats. min(3, available) skills are offered, and all of them when at most three are available |
| LevelUp.StartingOffer | src/scenes/LevelUpScene.js:34 | with the pistol and no ability all eight skills are available |
| LevelUp.ShotgunNotOfferedTwice | src/utils/Config.js:134-138 | holding the shotgun removes exactly its skill from the offer |
| LevelUp.ApplySkill | src/utils/Config.js:112-169 | SkillApplied: rapid_fire scales stats.fireRate by 0.85, leaving the weapon's cooldown alone; speed_boots scales speed by 1.1. max_hp raises maxHp by 20 and then fails. Weapon skills equip a fresh weapon; ability skills equip the template. Nothing else in the player changes |
| LevelUp.LevelUpScene.constructor | src/scenes/LevelUpScene.js:8-40 | offers Offer of the shuffled available skills for the game's player |
| LevelUp.LevelUpScene.SelectSkill | src/scenes/LevelUpScene.js:69-79 | the player ends in the state SkillApplied gives for the chosen skill. The game resumes and the overlay closes iff the apply completed. The game's combo, pace, score and enemies are unchanged |
| Menu.NextVolume | src/scenes/MenuScene.js:178-182 | 100 → 0 → 25 → 50; any other value → 100; always one of the four |
| Menu.VolumeCycle | src/scenes/MenuScene.js:178-182 | four presses return to the start and no fewer do |
| Menu.VolumeJoinsCycle | src/scenes/MenuScene.js:182 | from any stored volume one press joins the cycle |
| Menu.NextLang | src/scenes/MenuScene.js:190 | 'en' → 'ru'; anything else → 'en' |
| Menu.LangCycle | src/scenes/MenuScene.js:190 | two presses restore the language |
| Menu.ToggleVolume | src/scenes/MenuScene.js:176-187 | the saved volume is NextVolume of the old one |
| Menu.ToggleLang | src/scenes/MenuScene.js:189-193 | the saved language is NextLang of the old one |
| Orbs.CollectStep | src/entities/ExpOrb.js:26-43 | a collect pays the value if not yet collected, else 0, and marks the orb collected |
| Orbs.CollectedPaysNothing | src/entities/ExpOrb.js:27 | a collected orb pays 0 however often it is collected |
| Orbs.PaidExactlyOnce | src/entities/ExpOrb.js:26-43 | any positive number of collects pays exactly the value in total |
| Orbs.ExpOrb.constructor | src/entities/ExpOrb.js:2-9 | value defaults to 10; not collected |
| Orbs.ExpOrb.Collect | src/entities/ExpOrb.js:26-43 | one CollectStep on the orb's flag |
| Orbs.XPOrb.constructor | src/entities/XPOrb.js:2-12 | stores the given value |
| Orbs.XPOrb.Spawn | src/entities/XPOrb.js:14-22 | active, visible, the given value, drift components in [−50, 50] |
| Orbs.XPOrb.Collect | src/entities/XPOrb.js:24-29 | inactive, hidden, stopped |
| Powerups.PowerupType.Duration | src/entities/Powerup.js:3-8 | only SHIELD (5000) and MAGNET (10000) last |
| Powerups.KeysCoverTypes | src/entities/Powerup.js:26-28 | every kind is among the keys a random pick chooses from |
| Powerups.SpawnType | src/entities/Powerup.js:26-31 | the given type, or the key at the random index |
| Powerups.Powerup.constructor | src/entities/Powerup.js:11-18 | spawned at once |
| Powerups.Powerup.Spawn | src/entities/Powerup.js:20-52 | active and visible as SpawnType, with one despawn callback scheduled |
| Powerups.Powerup.DespawnDone | src/entities/Powerup.js:48-51 | the powerup disappears |
| Powerups.Powerup.Collect | src/entities/Powerup.js:54-98 | an inactive powerup does nothing. Otherwise it is switched off, so a second collect does nothing, and its despawn is cancelled. HEAL gives min(hp + 20, maxHp), AMMO gives 30, SHIELD and MAGNET set their flag and schedule its end |
| Powerups.ApplyEffect | src/entities/Powerup.js:62-86 | the per-kind effect on the player; only the named field changes |
| Powerups.Powerup.ShieldDone | src/entities/Powerup.js:74-77 | invulnerability cleared |
| Powerups.Powerup.MagnetDone | src/entities/Powerup.js:83-85 | magnet cleared |
| Powerups.HealBounds | src/entities/Powerup.js:64 | a heal never lowers hp and never exceeds maxHp |
| Drones.StartAngle | src/entities/Drone.js:13 | drone i of n starts at angle 2π·i/n, within [0, 2π) |
| Drones.EvenlySpaced | src/entities/Drone.js:13 | neighbouring drones are 2π/n apart |
| Drones.NearestUnique | src/entities/Drone.js:44-57 | the nearest-target characterisation admits one answer |
| Drones.SelectTarget | src/entities/Drone.js:44-57 | the active enemy at minimal distance strictly below 400, earliest on ties; none if no active enemy is in range |
| Drones.Drone.constructor | src/entities/Drone.js:6-23 | active, StartAngle, lastFireTime 0 |
| Drones.Drone.Update | src/entities/Drone.js:25-40 | nothing while the drone or player is inactive. It fires only when time > lastFireTime + 1000 and a target and a bullet exist; only then lastFireTime := time |
| Drones.Drone.Fire | src/entities/Drone.js:42-76 | aims at SelectTarget's enemy. A speed-400, damage-2 cyan player bullet is fired iff a target and a bullet exist; otherwise lastFireTime is unchanged |

## Left out

- Rendering, tweens, particles, camera effects, text, the hp bar, sound and the parallax
  background have no model. They have no effect on game state.
- Phaser physics and geometry are not modelled: velocities, knockback and recoil impulses,
  `moveToObject`, danger-zone pushback, drone positions and trigonometry. Distances,
  bearings and "inside the world bounds" are parameters.
- Phaser group capacities (100 enemies, 50 bullets) are not modelled. A pool `get` may
  simply hand out nothing.
- JavaScript floating-point rounding is not modelled: hp, score, speeds and multipliers are
  exact reals. The one exception is `Math.floor(next × 1.2)`, which is modelled exactly on
  integers.
- The firing order of scheduled callbacks by deadline is not modelled. Each callback is a
  method that can run once its callback is pending.
- Restarting the scene on R after game over is scene-manager code and is not modelled.
- Game.GameScene.Update: it does not restate every field of the player and the enemies. In a
  frame that uses an ability, it does not restate the combo or the current speed multiplier.
  Its parts (Player.Update, GameOver, HandleAbilityUsed, Tick) carry those contracts.
- Players.Player.Update: it states the frame's outcome (danger, game over, ability use,
  unchanged XP and stats). The exact ammo, reload and dash state are stated by
  HandleControls.
- Game.GameScene.HandleBulletHitWorld: the handler is registered on the physics world's
  `worldbounds` event (src/scenes/GameScene.js:21). Phaser raises that event only for
  bodies with `onWorldBounds` set, and no code sets it. In the game as written the handler
  never runs, and a ricochet bullet keeps bouncing until it hits an enemy. The model states
  what the handler does when it is called, as Combat.BouncesExactly does.
- Enemies.ResolveType: a key that is not one of the two table keys but names an inherited
  property of the table object (such as 'toString') passes the lookup in the code. The
  model maps it to CHASER instead. Every caller passes 'SPRINTER' or 'CHASER'.
- Config.WeaponFor: the id is upper-cased over ASCII letters only. JavaScript's
  `toUpperCase` also maps non-ASCII letters, but every id the game passes is plain ASCII.
- Players.Player.EquipWeapon: it requires a known weapon id. An unknown id leaves the
  weapon without a template, and the next `canFire` throws.
- LevelUp.ApplySkill: the max_hp skill's `player.heal` does not exist. Its effect is not
  invented: the model records the throw as an incomplete apply, so the game stays paused.
- Combat.SlowMotionMeetsEscalation: the slow-motion multiplier is the one new spawns use.
  Enemies already on the field keep their speed, as in the code.
- Drones.Drone.constructor: it requires at least one drone. With zero drones the angle is
  a division by zero. No code in the game constructs a drone.
- Powerups.Powerup.Spawn: an explicit type that is not one of the four keys is not
  modelled, because the code then crashes reading its colour. Nothing in the game spawns
  powerups.
- The `difficulty` selection and the screen-shake settings of the menu call `GameState`
  methods that do not exist, so they are not modelled. `Lang.js` is not part of this model.
