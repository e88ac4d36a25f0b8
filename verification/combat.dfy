/**
 * The game scene's rules on plain values: the combo streak and its decay, difficulty
 * escalation and the slow-motion swap, the ricochet bounce counter, kill scoring and the
 * effect of a nova blast on one enemy.
 */
module Combat {
  import opened Config
  import opened Enemies

  // ---------------------------------------------------------------- combo

  /** `combo`, `comboMultiplier` and `comboTimer` (ms left in the streak window). */
  datatype Combo = Combo(count: int, multiplier: int, timer: int)

  const NoCombo := Combo(0, 1, 0)

  /** The multiplier a streak of `count` kills earns: one more per ComboMultiplierStep kills. */
  function StreakMultiplier(count: int): (m: int)
    ensures count >= 0 ==> m >= 1 && (m - 1) * ComboMultiplierStep <= count < m * ComboMultiplierStep
  {
    1 + count / ComboMultiplierStep
  }

  /** What the combo fields always satisfy between calls. */
  predicate ComboInvariant(c: Combo) {
    && c.count >= 0
    && c.multiplier == StreakMultiplier(c.count)
    && 0 <= c.timer <= ComboResetTime
    && (c.count == 0 <==> c.timer == 0)
  }

  /**
   * `increaseCombo`: one more kill, a full window again, and a multiplier that only rises
   * towards the streak's own.
   */
  function IncreaseCombo(c: Combo): (r: Combo)
    ensures r.count == c.count + 1 && r.timer == ComboResetTime
    ensures r.multiplier >= c.multiplier && r.multiplier >= StreakMultiplier(r.count)
    ensures ComboInvariant(c) ==> ComboInvariant(r)
  {
    var n := c.count + 1;
    var m := StreakMultiplier(n);
    Combo(n, if m > c.multiplier then m else c.multiplier, ComboResetTime)
  }

  /** The per-tick decay: it only runs during a streak, which ends once the window is used up. */
  function DecayCombo(c: Combo, delta: int): (r: Combo)
    ensures c.count <= 0 ==> r == c
    ensures c.count > 0 ==> (r.count == c.count <==> delta < c.timer)
    ensures c.count > 0 && delta >= c.timer ==> r == NoCombo
    ensures ComboInvariant(c) && delta >= 0 ==> ComboInvariant(r)
  {
    if c.count > 0 then
      var t := c.timer - delta;
      if t <= 0 then NoCombo else c.(timer := t)
    else c
  }

  function Sum(deltas: seq<int>): int {
    if deltas == [] then 0 else deltas[0] + Sum(deltas[1..])
  }

  predicate AllNonNegative(deltas: seq<int>) {
    forall i :: 0 <= i < |deltas| ==> deltas[i] >= 0
  }

  lemma {:induction false} SumNonNegative(deltas: seq<int>)
    requires AllNonNegative(deltas)
    ensures Sum(deltas) >= 0
    decreases |deltas|
  {
    if deltas != [] {
      TailNonNegative(deltas);
      SumNonNegative(deltas[1..]);
    }
  }

  lemma TailNonNegative(deltas: seq<int>)
    requires AllNonNegative(deltas) && deltas != []
    ensures AllNonNegative(deltas[1..])
  {
    forall i | 0 <= i < |deltas[1..]|
      ensures deltas[1..][i] >= 0
    {
      assert deltas[1..][i] == deltas[i + 1];
    }
  }

  /** The combo after ticks of the given lengths with no kill in between. */
  function DecayAll(c: Combo, deltas: seq<int>): (r: Combo)
    decreases |deltas|
  {
    if deltas == [] then c else DecayAll(DecayCombo(c, deltas[0]), deltas[1..])
  }

  /** A streak with no kill is over once its window has elapsed. */
  lemma {:induction false} ComboExpires(c: Combo, deltas: seq<int>)
    requires ComboInvariant(c) && AllNonNegative(deltas) && Sum(deltas) >= c.timer
    ensures DecayAll(c, deltas) == NoCombo
    decreases |deltas|
  {
    if deltas != [] {
      TailNonNegative(deltas);
      SumNonNegative(deltas[1..]);
      ComboExpires(DecayCombo(c, deltas[0]), deltas[1..]);
    }
  }

  /** ... and still running, unchanged but for its timer, while the window has not elapsed. */
  lemma {:induction false} ComboSurvives(c: Combo, deltas: seq<int>)
    requires c.count > 0 && Sum(deltas) < c.timer
    requires AllNonNegative(deltas)
    ensures DecayAll(c, deltas) == c.(timer := c.timer - Sum(deltas))
    decreases |deltas|
  {
    if deltas != [] {
      TailNonNegative(deltas);
      SumNonNegative(deltas[1..]);
      ComboSurvives(DecayCombo(c, deltas[0]), deltas[1..]);
    }
  }

  /** `k` kills in a row, each inside the window of the previous one. */
  function IncreaseTimes(c: Combo, k: nat): Combo {
    if k == 0 then c else IncreaseCombo(IncreaseTimes(c, k - 1))
  }

  /** From no streak, `k` kills give a streak of `k` with its own multiplier. */
  lemma {:induction false} StreakOfKills(k: nat)
    ensures ComboInvariant(IncreaseTimes(NoCombo, k))
    ensures IncreaseTimes(NoCombo, k).count == k
  {
    if k > 0 {
      StreakOfKills(k - 1);
    }
  }

  /** The score a kill is worth, at the multiplier standing before the kill's own combo step. */
  function KillScore(enemyScore: int, scoreMult: real, multiplier: int): (s: real)
    ensures enemyScore >= 0 && scoreMult >= 0.0 && multiplier >= 1 ==> s >= enemyScore as real * scoreMult
  {
    enemyScore as real * scoreMult * multiplier as real
  }

  // ---------------------------------------------------------------- difficulty

  const InitialSpawnDelay: real := 2000.0
  const MinSpawnDelay: real := 500.0
  const EscalationPeriod: int := 30000
  const SpeedGrowth: real := 1.05

  /**
   * `enemySpawnDelay`, `baseEnemySpeedMultiplier`, `currentEnemySpeedMultiplier` (the one new
   * spawns use) and `difficultyTimer`.
   */
  datatype Pace = Pace(spawnDelay: real, baseSpeed: real, currentSpeed: real, timer: int)

  function StartPace(d: Difficulty): (p: Pace)
    ensures p.spawnDelay == InitialSpawnDelay && p.currentSpeed == p.baseSpeed == d.speedMult && p.timer == 0
  {
    Pace(InitialSpawnDelay, d.speedMult, d.speedMult, 0)
  }

  function Max(a: real, b: real): real {
    if a < b then b else a
  }

  /**
   * `increaseDifficulty`: spawns 10% more often down to the floor, enemies 5% faster; the
   * current multiplier is reset to the new base, which also ends an active slow-motion.
   */
  function Escalate(p: Pace): (r: Pace)
    ensures r.spawnDelay >= MinSpawnDelay
    ensures p.spawnDelay >= MinSpawnDelay ==> r.spawnDelay <= p.spawnDelay
    ensures r.spawnDelay == MinSpawnDelay || r.spawnDelay == p.spawnDelay * 0.9
    ensures r.baseSpeed == p.baseSpeed * SpeedGrowth && r.currentSpeed == r.baseSpeed && r.timer == p.timer
  {
    Pace(Max(MinSpawnDelay, p.spawnDelay * 0.9), p.baseSpeed * SpeedGrowth, p.baseSpeed * SpeedGrowth, p.timer)
  }

  /** The difficulty part of one `update`: escalate once the timer reaches 30 s, then restart it. */
  function DifficultyTick(p: Pace, delta: int): (r: Pace)
    ensures p.timer + delta >= EscalationPeriod ==> r == Escalate(p).(timer := 0)
    ensures p.timer + delta < EscalationPeriod ==> r == p.(timer := p.timer + delta)
  {
    var t := p.timer + delta;
    if t >= EscalationPeriod then Escalate(p).(timer := 0) else p.(timer := t)
  }

  /** What the pace always satisfies: a spawn delay between the floor and the start, a timer below 30 s. */
  predicate PaceInvariant(p: Pace) {
    MinSpawnDelay <= p.spawnDelay <= InitialSpawnDelay && 0 <= p.timer < EscalationPeriod && p.baseSpeed > 0.0
  }

  lemma DifficultyTickKeeps(p: Pace, delta: int)
    requires PaceInvariant(p) && 0 <= delta
    ensures PaceInvariant(DifficultyTick(p, delta))
    ensures DifficultyTick(p, delta).spawnDelay <= p.spawnDelay
    ensures DifficultyTick(p, delta).baseSpeed >= p.baseSpeed
  {
  }

  /** The pace after `k` escalations. */
  function EscalateTimes(p: Pace, k: nat): (r: Pace)
    ensures r.spawnDelay >= MinSpawnDelay || (k == 0 && r == p)
  {
    if k == 0 then p else Escalate(EscalateTimes(p, k - 1))
  }

  /** The spawn delay never grows with further escalations. */
  lemma {:induction false} SpawnDelayNonIncreasing(p: Pace, j: nat, k: nat)
    requires p.spawnDelay >= MinSpawnDelay && j <= k
    ensures EscalateTimes(p, k).spawnDelay <= EscalateTimes(p, j).spawnDelay
    decreases k
  {
    if j < k {
      SpawnDelayNonIncreasing(p, j, k - 1);
    }
  }

  /** 2000 ms, then 1800 ms, then 1620 ms. */
  lemma SpawnDelaySchedule(d: Difficulty)
    ensures EscalateTimes(StartPace(d), 1).spawnDelay == 1800.0
    ensures EscalateTimes(StartPace(d), 2).spawnDelay == 1620.0
  {
  }

  /** The floor is reached at the fourteenth escalation and kept from then on. */
  lemma {:induction false} SpawnDelayFloor(d: Difficulty, k: nat)
    ensures k < 14 ==> EscalateTimes(StartPace(d), k).spawnDelay > MinSpawnDelay
    ensures k >= 14 ==> EscalateTimes(StartPace(d), k).spawnDelay == MinSpawnDelay
  {
    var p := StartPace(d);
    SpawnDelaySchedule(d);
    assert EscalateTimes(p, 3).spawnDelay == 1458.0;
    assert EscalateTimes(p, 4).spawnDelay == 1312.2;
    assert EscalateTimes(p, 5).spawnDelay == 1180.98;
    assert EscalateTimes(p, 6).spawnDelay == 1062.882;
    assert EscalateTimes(p, 7).spawnDelay == 956.5938;
    assert EscalateTimes(p, 8).spawnDelay == 860.93442;
    assert EscalateTimes(p, 9).spawnDelay == 774.840978;
    assert EscalateTimes(p, 10).spawnDelay == 697.3568802;
    assert EscalateTimes(p, 11).spawnDelay == 627.62119218;
    assert EscalateTimes(p, 12).spawnDelay == 564.859072962;
    assert EscalateTimes(p, 13).spawnDelay == 508.3731656658;
    assert EscalateTimes(p, 14).spawnDelay == MinSpawnDelay;
    if k < 14 {
      SpawnDelayNonIncreasing(p, k, 13);
    } else {
      SpawnDelayNonIncreasing(p, 14, k);
    }
  }

  /** The slow-motion start: new spawns use the base multiplier scaled by `factor`. */
  function SlowStart(p: Pace, factor: real): Pace {
    p.(currentSpeed := p.baseSpeed * factor)
  }

  /** The slow-motion end: the multiplier in force is the base at that moment. */
  function SlowEnd(p: Pace): Pace {
    p.(currentSpeed := p.baseSpeed)
  }

  /**
   * An escalation during slow-motion ends it at once, and the later restore uses the
   * escalated base rather than the one in force when the slow began.
   */
  lemma SlowMotionMeetsEscalation(p: Pace, factor: real)
    ensures Escalate(SlowStart(p, factor)) == Escalate(p)
    ensures SlowEnd(Escalate(SlowStart(p, factor))).currentSpeed == p.baseSpeed * SpeedGrowth
  {
  }

  // ---------------------------------------------------------------- ricochet

  /** A bullet's `bounceCount`, world-bound collision flag and bounce factor. */
  datatype Ricochet = Ricochet(count: int, collides: bool, bounce: real)

  /**
   * `handleBulletHitWorld` on a bullet: a zero count is left alone; otherwise the count drops
   * by one and the last bounce turns world-bound collision off.
   */
  function WorldHit(b: Ricochet): (r: Ricochet)
    ensures b.count == 0 ==> r == b
    ensures b.count != 0 ==> r.count == b.count - 1
    ensures b.count != 0 ==> (r.collides <==> b.collides && r.count > 0)
  {
    if b.count == 0 then b
    else if b.count - 1 <= 0 then Ricochet(b.count - 1, false, 0.0)
    else b.(count := b.count - 1)
  }

  function WorldHits(b: Ricochet, k: nat): Ricochet
    decreases k
  {
    if k == 0 then b else WorldHits(WorldHit(b), k - 1)
  }

  /**
   * A bullet armed with `n` bounces keeps colliding with the world through its first `n - 1`
   * wall hits and stops at the `n`-th, with nothing left to count.
   */
  lemma {:induction false} BouncesExactly(n: nat, k: nat)
    requires n > 0
    ensures k < n ==> WorldHits(Ricochet(n, true, 1.0), k) == Ricochet(n - k, true, 1.0)
    ensures WorldHits(Ricochet(n, true, 1.0), n) == Ricochet(0, false, 0.0)
    decreases n
  {
    if n > 1 {
      BouncesExactly(n - 1, if k > 0 then k - 1 else 0);
      assert WorldHit(Ricochet(n, true, 1.0)) == Ricochet(n - 1, true, 1.0);
    }
  }

  // ---------------------------------------------------------------- nova blast

  /** Whether the blast reaches an enemy: only active ones within the radius. */
  predicate NovaReaches(v: EnemyView, dist: real, radius: real) {
    v.active && dist <= radius
  }

  /** Whether the blast kills the enemy. */
  predicate NovaKills(v: EnemyView, dist: real, radius: real, damage: int) {
    NovaReaches(v, dist, radius) && Died(AfterHit(v, damage))
  }

  /** The enemy after the blast: hit when reached, and released (inactive, hidden) on a kill. */
  function NovaEffect(v: EnemyView, dist: real, radius: real, damage: int): (r: EnemyView)
    ensures !NovaReaches(v, dist, radius) ==> r == v
    ensures NovaReaches(v, dist, radius) ==> r.hp == v.hp - damage && r.isKnockedBack
    ensures NovaReaches(v, dist, radius) ==> (r.active <==> !NovaKills(v, dist, radius, damage))
    ensures r.kind == v.kind && r.baseSpeed == v.baseSpeed && r.currentSpeed == v.currentSpeed
  {
    if NovaReaches(v, dist, radius) then
      var w := AfterHit(v, damage);
      if Died(w) then w.(active := false, visible := false) else w
    else v
  }

  /** How many of the first `n` enemies the blast kills. */
  function NovaKillCount(vs: seq<EnemyView>, dists: seq<real>, radius: real, damage: int, n: nat): (k: nat)
    requires n <= |vs| == |dists|
    ensures k <= n
  {
    if n == 0 then 0
    else NovaKillCount(vs, dists, radius, damage, n - 1) + if NovaKills(vs[n - 1], dists[n - 1], radius, damage) then 1 else 0
  }

  /** Radius 300, damage 10: an hp-5 enemy at 250 dies and counts once; at 350 it is untouched. */
  lemma NovaScenario(v: EnemyView)
    requires v.active && v.hp == 5
    ensures NovaKills(v, 250.0, 300.0, 10) && !NovaEffect(v, 250.0, 300.0, 10).active
    ensures NovaKillCount([v], [250.0], 300.0, 10, 1) == 1
    ensures NovaEffect(v, 350.0, 300.0, 10) == v
  {
  }
}
