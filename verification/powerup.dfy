/**
 * Powerups: a pickup of one of four kinds that despawns after ten seconds unless collected,
 * and whose collection heals, refills ammo, shields or magnetises the player. Timed effects
 * are scheduled callbacks, run later as their own methods.
 */
module Powerups {
  import opened Wrappers
  import opened Config
  import opened Players

  datatype PowerupType = Heal | Shield | Ammo | Magnet
  {
    /** How long the effect lasts (ms); 0 for the instant ones. */
    function Duration(): (d: int)
      ensures d >= 0 && (d > 0 <==> this.Shield? || this.Magnet?)
    {
      match this
      case Heal => 0
      case Shield => 5000
      case Ammo => 0
      case Magnet => 10000
    }

    function Color(): int {
      match this
      case Heal => 0x00ff00
      case Shield => 0x00ffff
      case Ammo => 0xffff00
      case Magnet => 0xff00ff
    }
  }

  /** `Object.keys(POWERUP_TYPES)`, in declaration order. */
  const Keys: seq<PowerupType> := [Heal, Shield, Ammo, Magnet]

  /** Every kind is one of the keys, so a random pick can yield any of them. */
  lemma KeysCoverTypes(t: PowerupType)
    ensures exists i :: 0 <= i < |Keys| && Keys[i] == t
  {
    match t
    case Heal => assert Keys[0] == t;
    case Shield => assert Keys[1] == t;
    case Ammo => assert Keys[2] == t;
    case Magnet => assert Keys[3] == t;
  }

  const DespawnDelay: int := 10000
  const HealAmount: real := 20.0

  /** The callbacks a powerup schedules: its own despawn, and the end of a timed effect. */
  datatype PowerupTimer = Despawn | ShieldEnd(target: Player) | MagnetEnd(target: Player)
  {
    function Delay(): int {
      match this
      case Despawn => DespawnDelay
      case ShieldEnd(_) => Shield.Duration()
      case MagnetEnd(_) => Magnet.Duration()
    }
  }

  /** The type `spawn` settles on: the given one, or the key at the random index `roll`. */
  function SpawnType(given: Option<PowerupType>, roll: nat): (t: PowerupType)
    requires roll < |Keys|
    ensures given.Some? ==> t == given.value
    ensures given.None? ==> t == Keys[roll]
  {
    if given.Some? then given.value else Keys[roll]
  }

  class Powerup {
    var active: bool
    var visible: bool
    var kind: PowerupType
    var tint: int
    var pending: multiset<PowerupTimer>

    /** The constructor spawns the powerup at once. */
    constructor (given: Option<PowerupType>, roll: nat)
      requires roll < |Keys|
      ensures active && visible && kind == SpawnType(given, roll) && tint == kind.Color()
      ensures pending == multiset{Despawn}
    {
      active, visible := true, true;
      var t := SpawnType(given, roll);
      kind, tint := t, t.Color();
      pending := multiset{Despawn};
    }

    /** Shows the powerup as the given kind (or a random one) and schedules its despawn. */
    method Spawn(given: Option<PowerupType>, roll: nat)
      requires roll < |Keys|
      modifies this
      ensures active && visible && kind == SpawnType(given, roll) && tint == kind.Color()
      ensures pending == old(pending) + multiset{Despawn}
    {
      active, visible := true, true;
      kind := SpawnType(given, roll);
      tint := kind.Color();
      pending := pending + multiset{Despawn};
    }

    /** The despawn callback: the uncollected powerup disappears. */
    method DespawnDone()
      requires Despawn in pending
      modifies this
      ensures !active && !visible && kind == old(kind) && tint == old(tint)
      ensures pending == old(pending) - multiset{Despawn}
    {
      active, visible := false, false;
      pending := pending - multiset{Despawn};
    }

    /**
     * Picking the powerup up. An inactive powerup does nothing; otherwise it is switched off
     * (so a second collect does nothing), its despawn is cancelled and the effect of its kind
     * is applied to the player.
     */
    method Collect(player: Player)
      requires player.Valid()
      modifies this, player
      ensures player.Valid()
      ensures !old(active) ==> unchanged(this) && unchanged(player)
      ensures old(active) ==> !active && !visible && kind == old(kind) && tint == old(tint)
      ensures old(active) ==> pending == old(pending) - multiset{Despawn} + match kind
        case Shield => multiset{ShieldEnd(player)}
        case Magnet => multiset{MagnetEnd(player)}
        case _ => multiset{}
      ensures old(active) && kind.Heal? ==>
        player.View() == old(player.View()).(hp := Min(old(player.hp) + HealAmount, old(player.maxHp)))
      ensures old(active) && kind.Ammo? ==> player.View() == old(player.View()).(ammo := AmmoMax)
      ensures old(active) && kind.Shield? ==> player.View() == old(player.View()).(invulnerable := true)
      ensures old(active) && kind.Magnet? ==> player.View() == old(player.View()).(magnetActive := true)
    {
      if !active {
        return;
      }
      active, visible := false, false;
      pending := pending - multiset{Despawn};
      ApplyEffect(kind, player);
      match kind
      case Shield =>
        pending := pending + multiset{ShieldEnd(player)};
      case Magnet =>
        pending := pending + multiset{MagnetEnd(player)};
      case _ =>
    }

    /** Five seconds after a shield pickup the player is vulnerable again. */
    method ShieldDone(player: Player)
      requires ShieldEnd(player) in pending
      modifies this, player
      ensures player.View() == old(player.View()).(invulnerable := false)
      ensures pending == old(pending) - multiset{ShieldEnd(player)}
      ensures active == old(active) && visible == old(visible) && kind == old(kind) && tint == old(tint)
    {
      player.invulnerable := false;
      pending := pending - multiset{ShieldEnd(player)};
    }

    /** Ten seconds after a magnet pickup the magnet is off. */
    method MagnetDone(player: Player)
      requires MagnetEnd(player) in pending
      modifies this, player
      ensures player.View() == old(player.View()).(magnetActive := false)
      ensures pending == old(pending) - multiset{MagnetEnd(player)}
      ensures active == old(active) && visible == old(visible) && kind == old(kind) && tint == old(tint)
    {
      player.magnetActive := false;
      pending := pending - multiset{MagnetEnd(player)};
    }
  }

  /** The effect of a pickup of kind `t` on the player. */
  method ApplyEffect(t: PowerupType, player: Player)
    requires player.Valid()
    modifies player
    ensures player.Valid()
    ensures t.Heal? ==> player.View() == old(player.View()).(hp := Min(old(player.hp) + HealAmount, old(player.maxHp)))
    ensures t.Ammo? ==> player.View() == old(player.View()).(ammo := AmmoMax)
    ensures t.Shield? ==> player.View() == old(player.View()).(invulnerable := true)
    ensures t.Magnet? ==> player.View() == old(player.View()).(magnetActive := true)
  {
    match t
    case Heal =>
      player.hp := Min(player.hp + HealAmount, player.maxHp);
    case Ammo =>
      player.ammo := AmmoMax;
    case Shield =>
      player.invulnerable := true;
    case Magnet =>
      player.magnetActive := true;
  }

  /** A heal never overfills and never lowers hp: it is `hp + 20` capped at the maximum. */
  lemma HealBounds(hp: real, maxHp: real)
    requires 0.0 <= hp <= maxHp
    ensures hp <= Min(hp + HealAmount, maxHp) <= maxHp
    ensures Min(hp + HealAmount, maxHp) == maxHp <==> hp + HealAmount >= maxHp
  {
  }
}
