/**
 * Enemies: the closed table of enemy templates, type-key validation, and the pooled enemy
 * object whose `spawn` re-applies a template and whose `takeDamage` reports death.
 */
module Enemies {
  import opened Wrappers

  datatype EnemyType = Chaser | Sprinter

  /** One row of `ENEMY_TYPES`. */
  datatype Template = Template(texture: string, speed: real, hp: int, score: int, scale: real)

  function TemplateOf(t: EnemyType): Template {
    match t
    case Chaser => Template("enemy_chaser", 100.0, 3, 100, 1.0)
    case Sprinter => Template("enemy_sprinter", 150.0, 1, 150, 0.8)
  }

  /** The table key of a type. */
  function KeyOf(t: EnemyType): string {
    match t
    case Chaser => "CHASER"
    case Sprinter => "SPRINTER"
  }

  /**
   * `(type && ENEMY_TYPES[type]) ? type : 'CHASER'`: a key names its own type; a missing,
   * empty or unknown key falls back to CHASER.
   */
  function ResolveType(key: Option<string>): (t: EnemyType)
    ensures t == Sprinter <==> key == Some("SPRINTER")
  {
    if key == Some("SPRINTER") then Sprinter else Chaser
  }

  /** Resolving a type's own key gives that type back. */
  lemma ResolveKeyOf(t: EnemyType)
    ensures ResolveType(Some(KeyOf(t))) == t
  {
  }

  /** The whole observable state of an enemy, as one value. */
  datatype EnemyView = EnemyView(
    active: bool, visible: bool, kind: EnemyType, hp: int,
    baseSpeed: real, currentSpeed: real, isKnockedBack: bool, hasTarget: bool,
    knockbackTimers: nat)

  /**
   * The effect of `takeDamage(damage)`: hp drops by exactly `damage`, the knockback flag is
   * set and one knockback-end callback is scheduled. Nothing guards a dead enemy.
   */
  function AfterHit(v: EnemyView, damage: int): (w: EnemyView)
    ensures w.hp == v.hp - damage && w.isKnockedBack
    ensures w.knockbackTimers == v.knockbackTimers + 1
    ensures w.(hp := v.hp, isKnockedBack := v.isKnockedBack, knockbackTimers := v.knockbackTimers) == v
  {
    v.(hp := v.hp - damage, isKnockedBack := true, knockbackTimers := v.knockbackTimers + 1)
  }

  /** Whether `takeDamage` reports a death for the enemy after the hit. */
  predicate Died(after: EnemyView) {
    after.hp <= 0
  }

  /** The died/alive answers of successive hits on one enemy. */
  function HitResults(v: EnemyView, damages: seq<int>): (r: seq<bool>)
    ensures |r| == |damages|
    decreases |damages|
  {
    if damages == [] then []
    else
      var w := AfterHit(v, damages[0]);
      [Died(w)] + HitResults(w, damages[1..])
  }

  /** Once hp is at or below zero, every further hit reports a death again. */
  lemma {:induction false} NoDeadGuard(v: EnemyView, damages: seq<int>)
    requires v.hp <= 0
    requires forall i :: 0 <= i < |damages| ==> damages[i] >= 0
    ensures forall i :: 0 <= i < |damages| ==> HitResults(v, damages)[i]
    decreases |damages|
  {
    if damages != [] {
      var w := AfterHit(v, damages[0]);
      NoDeadGuard(w, damages[1..]);
      forall i | 0 <= i < |damages|
        ensures HitResults(v, damages)[i]
      {
        if i > 0 {
          assert HitResults(v, damages)[i] == HitResults(w, damages[1..])[i - 1];
        }
      }
    }
  }

  /** A fresh CHASER needs three hits of damage 1; a SPRINTER dies on the first. */
  lemma TemplateHitCounts(v: EnemyView)
    ensures v.hp == TemplateOf(Chaser).hp ==> HitResults(v, [1, 1, 1]) == [false, false, true]
    ensures v.hp == TemplateOf(Sprinter).hp ==> HitResults(v, [1]) == [true]
  {
  }

  class Enemy {
    var active: bool
    var visible: bool
    var kind: EnemyType
    var hp: int
    var baseSpeed: real
    var currentSpeed: real
    var isKnockedBack: bool
    var hasTarget: bool
    /** Knockback-end callbacks scheduled and not yet run. */
    var knockbackTimers: nat

    function View(): EnemyView
      reads this
    {
      EnemyView(active, visible, kind, hp, baseSpeed, currentSpeed, isKnockedBack, hasTarget, knockbackTimers)
    }

    /** The template of the current type (`this.config`). */
    function Config(): Template
      reads this
    {
      TemplateOf(kind)
    }

    /** A new enemy from the pool; a game object starts active and visible. */
    constructor (key: Option<string>)
      ensures kind == ResolveType(key)
      ensures hp == TemplateOf(kind).hp
      ensures baseSpeed == TemplateOf(kind).speed && currentSpeed == baseSpeed
      ensures active && visible && !isKnockedBack && !hasTarget && knockbackTimers == 0
    {
      kind := ResolveType(key);
      hp := TemplateOf(ResolveType(key)).hp;
      baseSpeed := TemplateOf(ResolveType(key)).speed;
      currentSpeed := TemplateOf(ResolveType(key)).speed;
      active, visible := true, true;
      isKnockedBack, hasTarget := false, false;
      knockbackTimers := 0;
    }

    /** Re-uses a pooled enemy: the template of the resolved type is applied afresh. */
    method Spawn(key: Option<string>, speedMultiplier: real)
      modifies this
      ensures active && visible
      ensures kind == ResolveType(key)
      ensures hp == TemplateOf(kind).hp
      ensures baseSpeed == TemplateOf(kind).speed
      ensures currentSpeed == baseSpeed * speedMultiplier
      ensures !isKnockedBack
      ensures hasTarget == old(hasTarget) && knockbackTimers == old(knockbackTimers)
    {
      active, visible := true, true;
      kind := ResolveType(key);
      hp := TemplateOf(kind).hp;
      baseSpeed := TemplateOf(kind).speed;
      currentSpeed := baseSpeed * speedMultiplier;
      isKnockedBack := false;
    }

    method SetTarget()
      modifies this
      ensures View() == old(View()).(hasTarget := true)
    {
      hasTarget := true;
    }

    /** Whether this tick steers towards the target: only an active, targeted, free enemy does. */
    method Update() returns (steers: bool)
      ensures steers <==> active && hasTarget && !isKnockedBack
    {
      if !active {
        return false;
      }
      steers := hasTarget && !isKnockedBack;
    }

    /** Applies `damage` and answers whether the enemy died (hp at or below zero). */
    method TakeDamage(damage: int) returns (died: bool)
      modifies this
      ensures View() == AfterHit(old(View()), damage)
      ensures died <==> hp <= 0
    {
      hp := hp - damage;
      isKnockedBack := true;
      knockbackTimers := knockbackTimers + 1;
      died := hp <= 0;
    }

    /** The 200 ms knockback-end callback: it clears the flag only while the enemy is active. */
    method KnockbackOver()
      requires knockbackTimers > 0
      modifies this
      ensures knockbackTimers == old(knockbackTimers) - 1
      ensures isKnockedBack == (old(isKnockedBack) && !active)
      ensures View().(isKnockedBack := old(isKnockedBack), knockbackTimers := old(knockbackTimers)) == old(View())
    {
      if active {
        isKnockedBack := false;
      }
      knockbackTimers := knockbackTimers - 1;
    }

    /** What a kill does to the enemy object: it leaves the field and goes back to the pool. */
    method Deactivate()
      modifies this
      ensures View() == old(View()).(active := false, visible := false)
    {
      active, visible := false, false;
    }
  }
}
