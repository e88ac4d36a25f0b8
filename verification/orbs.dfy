/**
 * The two experience-orb classes: `ExpOrb`, which pays out its value once, and the pooled
 * `XPOrb`, which is spawned with a value and a random drift and switched off when collected.
 */
module Orbs {
  import opened Wrappers

  // ---------------------------------------------------------------- ExpOrb

  const DefaultOrbValue: int := 10

  /** One `collect` on an orb with the given flag: the amount returned and the new flag. */
  datatype Collection = Collection(amount: int, collected: bool)

  function CollectStep(collected: bool, value: int): (c: Collection)
    ensures c.collected
    ensures c.amount == (if collected then 0 else value)
  {
    if collected then Collection(0, true) else Collection(value, true)
  }

  /** The total paid out by `k` successive `collect` calls starting from the flag `collected`. */
  function PaidOver(collected: bool, value: int, k: nat): int
    decreases k
  {
    if k == 0 then 0
    else
      var c := CollectStep(collected, value);
      c.amount + PaidOver(c.collected, value, k - 1)
  }

  /** Once collected, an orb pays nothing however often it is collected again. */
  lemma {:induction false} CollectedPaysNothing(value: int, k: nat)
    ensures PaidOver(true, value, k) == 0
  {
    if k > 0 {
      CollectedPaysNothing(value, k - 1);
    }
  }

  /** Any positive number of `collect` calls on a fresh orb pays out exactly its value. */
  lemma PaidExactlyOnce(value: int, k: nat)
    requires k >= 1
    ensures PaidOver(false, value, k) == value
  {
    CollectedPaysNothing(value, k - 1);
  }

  class ExpOrb {
    const value: int
    var isCollected: bool

    /** `value = 10` is a default parameter: a missing value stands for 10. */
    constructor (value: Option<int>)
      ensures this.value == (if value.Some? then value.value else DefaultOrbValue)
      ensures !isCollected
    {
      this.value := if value.Some? then value.value else DefaultOrbValue;
      isCollected := false;
    }

    /** Pays the value the first time and 0 on every later call. */
    method Collect() returns (amount: int)
      modifies this
      ensures Collection(amount, isCollected) == CollectStep(old(isCollected), value)
    {
      if isCollected {
        return 0;
      }
      isCollected := true;
      return value;
    }
  }

  // ---------------------------------------------------------------- XPOrb

  /** Bounds of `Phaser.Math.Between(-50, 50)` for each drift component. */
  const MaxDrift: int := 50

  class XPOrb {
    var value: int
    var active: bool
    var visible: bool
    /** Body velocity; `collect` stops the body. */
    var vx: int
    var vy: int

    /** A new orb stores its value; a game object starts active and visible, at rest. */
    constructor (value: int)
      ensures this.value == value && active && visible && vx == 0 && vy == 0
    {
      this.value := value;
      active, visible := true, true;
      vx, vy := 0, 0;
    }

    /** Takes the orb from the pool with `value` and the drift `(rx, ry)` drawn by the caller. */
    method Spawn(value: int, rx: int, ry: int)
      requires -MaxDrift <= rx <= MaxDrift && -MaxDrift <= ry <= MaxDrift
      modifies this
      ensures active && visible && this.value == value
      ensures vx == rx && vy == ry
      ensures -MaxDrift <= vx <= MaxDrift && -MaxDrift <= vy <= MaxDrift
    {
      active, visible := true, true;
      this.value := value;
      vx, vy := rx, ry;
    }

    /** Puts the orb back: inactive, hidden and at rest; the value is kept. */
    method Collect()
      modifies this
      ensures !active && !visible && vx == 0 && vy == 0 && value == old(value)
    {
      active, visible := false, false;
      vx, vy := 0, 0;
    }
  }
}
