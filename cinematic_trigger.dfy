/**
 * The one-shot zone trigger: a player-layer test on whatever enters the
 * zone, then the zone event, at most once when the trigger is one-time-only
 * (in which case the trigger's object also switches itself off).
 */
module Trigger {

  /**
   * The layer-mask test. The shift count of a C# `int` shift is taken modulo
   * 32, which for every layer number is the Euclidean remainder.
   */
  predicate IsPlayer(mask: bv32, layer: int)
  {
    ((1 as bv32) << ((layer % 32) as bv5)) & mask != 0
  }

  /** The layer a shift count selects: the layer number modulo 32. */
  function ShiftCount(layer: int): bv5
  {
    (layer % 32) as bv5
  }

  /** Bit `k` of `mask`, read from the other end: shift the mask down and look at its lowest bit. */
  predicate BitSet(mask: bv32, k: bv5)
  {
    (mask >> k) & 1 == 1
  }

  /** The test accepts a layer exactly when that layer's bit is set in the mask. */
  lemma IsPlayerReadsLayerBit(mask: bv32, layer: int)
    ensures IsPlayer(mask, layer) <==> BitSet(mask, ShiftCount(layer))
  {
    SelectedBitIsLowBit(mask, ShiftCount(layer));
    LowBitIsSelectedBit(mask, ShiftCount(layer));
  }

  lemma SelectedBitIsLowBit(mask: bv32, s: bv5)
    ensures ((1 as bv32) << s) & mask != 0 ==> (mask >> s) & 1 == 1
  {
  }

  lemma LowBitIsSelectedBit(mask: bv32, s: bv5)
    ensures (mask >> s) & 1 == 1 ==> ((1 as bv32) << s) & mask != 0
  {
  }

  /** A mask holding the single layer `k` accepts exactly the layers whose shift count is `k`. */
  lemma SingleLayerMask(k: bv5, layer: int)
    ensures IsPlayer((1 as bv32) << k, layer) <==> ShiftCount(layer) == k
  {
    var s := ShiftCount(layer);
    if s == k {
      OwnBitIsSet(k);
    } else {
      DistinctBitsAreDisjoint(k, s);
    }
  }

  lemma OwnBitIsSet(a: bv5)
    ensures ((1 as bv32) << a) & ((1 as bv32) << a) != 0
  {
  }

  lemma DistinctBitsAreDisjoint(a: bv5, b: bv5)
    requires a != b
    ensures ((1 as bv32) << b) & ((1 as bv32) << a) == 0
  {
  }

  /** The trigger's state: the fire-once flag, whether its object is active, and how often the zone event has fired. */
  datatype Zone = Zone(alreadyTriggered: bool, active: bool, fired: nat)

  const Fresh: Zone := Zone(false, true, 0)

  /** ExecuteTrigger: mark the trigger used, fire the zone event, and switch the object off when one-time-only. */
  function ExecuteSpec(z: Zone, oneTimeOnly: bool): (r: Zone)
    ensures r.alreadyTriggered && r.fired == z.fired + 1
    ensures r.active == (z.active && !oneTimeOnly)
  {
    Zone(true, if oneTimeOnly then false else z.active, z.fired + 1)
  }

  /** OnTriggerEnter2D for a collider on `layer`: only the player's layer, and only once when one-time-only. */
  function EnterSpec(z: Zone, mask: bv32, oneTimeOnly: bool, layer: int): (r: Zone)
    ensures !IsPlayer(mask, layer) ==> r == z
    ensures oneTimeOnly && z.alreadyTriggered ==> r == z
    ensures IsPlayer(mask, layer) && !(oneTimeOnly && z.alreadyTriggered) ==> r == ExecuteSpec(z, oneTimeOnly)
  {
    if IsPlayer(mask, layer) then
      if oneTimeOnly && z.alreadyTriggered then z
      else ExecuteSpec(z, oneTimeOnly)
    else z
  }

  /** The zone after colliders on `layers` enter it, in order. */
  function Entries(z: Zone, mask: bv32, oneTimeOnly: bool, layers: seq<int>): Zone
    decreases |layers|
  {
    if layers == [] then z
    else Entries(EnterSpec(z, mask, oneTimeOnly, layers[0]), mask, oneTimeOnly, layers[1..])
  }

  /** How many of `layers` are the player's. */
  function PlayerEntries(mask: bv32, layers: seq<int>): nat
    decreases |layers|
  {
    if layers == [] then 0
    else (if IsPlayer(mask, layers[0]) then 1 else 0) + PlayerEntries(mask, layers[1..])
  }

  /** A one-time-only trigger fires at most once over any sequence of entries, and never again once used. */
  lemma {:induction false} OneTimeFiresAtMostOnce(z: Zone, mask: bv32, layers: seq<int>)
    ensures Entries(z, mask, true, layers).fired <= z.fired + (if z.alreadyTriggered then 0 else 1)
    ensures z.alreadyTriggered ==> Entries(z, mask, true, layers) == z
    decreases |layers|
  {
    if layers != [] {
      OneTimeFiresAtMostOnce(EnterSpec(z, mask, true, layers[0]), mask, layers[1..]);
    }
  }

  /** Without one-time-only, every player entry fires, and nothing else does. */
  lemma {:induction false} RepeatableFiresPerPlayerEntry(z: Zone, mask: bv32, layers: seq<int>)
    ensures Entries(z, mask, false, layers).fired == z.fired + PlayerEntries(mask, layers)
    ensures Entries(z, mask, false, layers).active == z.active
    decreases |layers|
  {
    if layers != [] {
      RepeatableFiresPerPlayerEntry(EnterSpec(z, mask, false, layers[0]), mask, layers[1..]);
    }
  }

  /** Entries from other layers only leave the zone as it was. */
  lemma {:induction false} NonPlayersChangeNothing(z: Zone, mask: bv32, oneTimeOnly: bool, layers: seq<int>)
    requires forall i :: 0 <= i < |layers| ==> !IsPlayer(mask, layers[i])
    ensures Entries(z, mask, oneTimeOnly, layers) == z
    decreases |layers|
  {
    if layers != [] {
      assert !IsPlayer(mask, layers[0]);
      forall i | 0 <= i < |layers[1..]| ensures !IsPlayer(mask, layers[1..][i]) {
        assert layers[1..][i] == layers[i + 1];
      }
      NonPlayersChangeNothing(z, mask, oneTimeOnly, layers[1..]);
    }
  }

  class CinematicTrigger {
    const playerLayer: bv32
    const oneTimeOnly: bool
    var alreadyTriggered: bool
    var active: bool          // the trigger's game object
    ghost var fired: nat      // OnZoneEntered invocations

    ghost function State(): Zone
      reads this
    {
      Zone(alreadyTriggered, active, fired)
    }

    constructor(playerLayer: bv32, oneTimeOnly: bool)
      ensures this.playerLayer == playerLayer && this.oneTimeOnly == oneTimeOnly
      ensures State() == Fresh
    {
      this.playerLayer := playerLayer;
      this.oneTimeOnly := oneTimeOnly;
      alreadyTriggered := false;
      active := true;
      fired := 0;
    }

    method OnTriggerEnter2D(layer: int)
      modifies this
      ensures State() == EnterSpec(old(State()), playerLayer, oneTimeOnly, layer)
    {
      if IsPlayer(playerLayer, layer) {
        if oneTimeOnly && alreadyTriggered {
          return;
        }
        ExecuteTrigger();
      }
    }

    method ExecuteTrigger()
      modifies this
      ensures State() == ExecuteSpec(old(State()), oneTimeOnly)
    {
      alreadyTriggered := true;
      fired := fired + 1;
      if oneTimeOnly {
        active := false;
      }
    }
  }
}
