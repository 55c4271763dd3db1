/*
 * The battle context as the battle screen sees it. The type battle_context_t
 * and its mutators (damage_enemy_by, heal_player_by, ...) are declared in a
 * header that is not part of this model, so how a call changes the stats,
 * and which events it emits, is kept abstract: a `Mutator` is any function
 * from the two stat records and a call to new stat records plus the
 * battle events the call emitted, in order.
 */
module Battle {
  import opened Stat

  /** A mutator call on the battle context, with its amount. */
  datatype Call =
    | DamageEnemy(amount: real)
    | DamageEnemyShield(amount: real)
    | HealEnemy(amount: real)
    | HealEnemyShield(amount: real)
    | DamagePlayer(amount: real)
    | DamagePlayerShield(amount: real)
    | HealPlayer(amount: real)
    | HealPlayerShield(amount: real)
    | RestorePlayerMana

  /** The events the battle screen's listener handles. */
  datatype BattleEvent =
    | EnemyDamaged(amount: real)
    | EnemyShieldDamaged(amount: real)
    | EnemyHealed(amount: real)
    | EnemyShieldHealed(amount: real)
    | PlayerDamaged(amount: real)
    | PlayerShieldDamaged(amount: real)
    | PlayerHealed(amount: real)
    | PlayerShieldHealed(amount: real)
    | EnemyStunned(turns: int)

  /** Whether a call is aimed at the enemy's stats rather than the player's. */
  predicate TargetsEnemy(c: Call)
  {
    c.DamageEnemy? || c.DamageEnemyShield? || c.HealEnemy? || c.HealEnemyShield?
  }

  /** The stat records of the two sides of one battle. */
  datatype Sides = Sides(player: StatArray, enemy: StatArray)

  /** What running calls leaves: the new stats and the events emitted, in order. */
  datatype Outcome = Outcome(sides: Sides, events: seq<BattleEvent>)

  /** The unseen mutators, as one function over (stats, call). */
  type Mutator = (Sides, Call) -> Outcome

  /** Running calls one after another, each on the stats the previous one left. */
  function RunCalls(apply: Mutator, s: Sides, calls: seq<Call>): Outcome
  {
    if calls == [] then Outcome(s, [])
    else
      var prev := RunCalls(apply, s, calls[..|calls| - 1]);
      var last := apply(prev.sides, calls[|calls| - 1]);
      Outcome(last.sides, prev.events + last.events)
  }

  /**
   * Running two call lists back to back is running their concatenation: the
   * second starts from the stats the first left, and the events come in order.
   */
  lemma {:induction false} RunCallsAppend(apply: Mutator, s: Sides, a: seq<Call>, b: seq<Call>)
    ensures RunCalls(apply, s, a + b).sides == RunCalls(apply, RunCalls(apply, s, a).sides, b).sides
    ensures RunCalls(apply, s, a + b).events == RunCalls(apply, s, a).events + RunCalls(apply, RunCalls(apply, s, a).sides, b).events
    decreases |b|
  {
    if b != [] {
      var k := |b| - 1;
      assert (a + b)[..|a + b| - 1] == a + b[..k];
      assert (a + b)[|a + b| - 1] == b[k];
      RunCallsAppend(apply, s, a, b[..k]);
    } else {
      assert a + b == a;
    }
  }

  /** One more call runs the mutator on the stats the earlier calls left. */
  lemma RunCallsSnoc(apply: Mutator, s: Sides, calls: seq<Call>, i: nat)
    requires i < |calls|
    ensures var prev := RunCalls(apply, s, calls[..i]);
            var last := apply(prev.sides, calls[i]);
            RunCalls(apply, s, calls[..i + 1]) == Outcome(last.sides, prev.events + last.events)
  {
    assert calls[..i + 1][..i] == calls[..i];
  }

  /** One call alone runs as the mutator itself. */
  lemma RunSingleCall(apply: Mutator, s: Sides, c: Call)
    ensures RunCalls(apply, s, [c]) == apply(s, c)
  {
    assert [c][..0] == [];
  }
}
