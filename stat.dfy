/*
 * The stat record of a battle participant: seven numeric slots indexed by an
 * enumeration (include/battle/stat.hpp). Stat values are floats in the source;
 * here they are reals, so float rounding is not modelled.
 */
module Stat {

  datatype StatType = Health | Shield | Power | MaxHealth | MaxShield | Mana | MaxMana

  /** Number of slots in a stat array. */
  const StatCount: nat := 7

  /** The slot a stat lives in: the enumeration's underlying value. */
  function Index(t: StatType): (i: nat)
    ensures i < StatCount
  {
    match t
    case Health => 0
    case Shield => 1
    case Power => 2
    case MaxHealth => 3
    case MaxShield => 4
    case Mana => 5
    case MaxMana => 6
  }

  /** The stat that lives in slot `i`; the inverse of Index. */
  function FromIndex(i: nat): (t: StatType)
    requires i < StatCount
    ensures Index(t) == i
  {
    if i == 0 then Health
    else if i == 1 then Shield
    else if i == 2 then Power
    else if i == 3 then MaxHealth
    else if i == 4 then MaxShield
    else if i == 5 then Mana
    else MaxMana
  }

  /** Distinct stats occupy distinct slots (every slot has a stat: FromIndex). */
  lemma IndexIsInjective()
    ensures forall t: StatType, u: StatType :: Index(t) == Index(u) ==> t == u
  {
  }

  lemma FromIndexOfIndex(t: StatType)
    ensures FromIndex(Index(t)) == t
  {
    IndexIsInjective();
  }

  /** A fixed-size array of stat values (std::array<float, 7>). */
  type StatArray = s: seq<real> | |s| == StatCount witness [0.0, 0.0, 0.0, 0.0, 0.0, 0.0, 0.0]

  /** get_stat: the slot of `a` that `t` names; always in bounds. */
  function GetStat(t: StatType, a: StatArray): (v: real)
    ensures v in a
  {
    a[Index(t)]
  }

  /** Every slot of a stat array is read by exactly the stat that owns it, and by no other. */
  lemma GetStatCoversSlots(a: StatArray, i: nat)
    requires i < StatCount
    ensures GetStat(FromIndex(i), a) == a[i]
    ensures forall t: StatType :: Index(t) == i <==> t == FromIndex(i)
  {
    IndexIsInjective();
  }

  /** The array after a write through the reference get_stat returns. */
  function WithStat(t: StatType, a: StatArray, v: real): (r: StatArray)
    ensures GetStat(t, r) == v
    ensures forall u: StatType :: u != t ==> GetStat(u, r) == GetStat(u, a)
  {
    IndexIsInjective();
    a[Index(t) := v]
  }

  /** Writing through get_stat's reference into a mutable stat array. */
  method WriteStat(t: StatType, a: array<real>, v: real)
    requires a.Length == StatCount
    modifies a
    ensures a[..] == WithStat(t, old(a[..]), v)
  {
    a[Index(t)] := v;
  }
}
