/*
 * The four demon AIs (src/main.cpp:1814-1946). Each looks at the player's and
 * the enemy's stats, takes exactly one branch in a fixed priority order
 * (self-heal, shield-restore, armor-piercing attack, pounce), shows one
 * message and makes two calls on the battle context. Ending the enemy turn
 * is the battle screen's part (BattleScreen.RunEnemyTurn).
 */
module EnemyAi {
  import opened Stat
  import opened Battle

  datatype Tier = FirstAi | SecondAi | ThirdAi | FourthAi

  datatype Branch = SelfHeal | ShieldRestore | ArmorPiercing | Pounce

  /** What one enemy turn does: the branch taken, the message box text, the calls in order. */
  datatype Action = Action(branch: Branch, message: string, calls: seq<Call>)

  const HealMessage: string := "The demon attempts to heal himself!"
  const RestoreMessage: string := "The demon attempts to restore his shield!"
  const PierceMessage: string := "The demon performs\nan armor-piercing attack!"
  const PounceMessage: string := "The demon pounces at the player."

  // ---------------------------------------------------------------------------
  // The four AIs as written
  // ---------------------------------------------------------------------------

  function First(ps: StatArray, es: StatArray): Action
  {
    if GetStat(Health, es) <= GetStat(MaxHealth, es) * 0.2 then
      Action(SelfHeal, HealMessage, [HealEnemy(10.0), DamageEnemyShield(5.0)])
    else
      Action(Pounce, PounceMessage, [DamagePlayer(30.0), DamagePlayerShield(3.0)])
  }

  function Second(ps: StatArray, es: StatArray): Action
  {
    if GetStat(Health, es) <= GetStat(MaxHealth, es) * 0.3 then
      Action(SelfHeal, HealMessage, [HealEnemy(12.0), DamageEnemyShield(4.0)])
    else if GetStat(Shield, ps) >= GetStat(MaxShield, ps) * 0.8 then
      Action(ArmorPiercing, PierceMessage, [DamagePlayerShield(20.0), DamagePlayer(5.0)])
    else
      Action(Pounce, PounceMessage, [DamagePlayer(35.0), DamagePlayerShield(4.0)])
  }

  function Third(ps: StatArray, es: StatArray): Action
  {
    if GetStat(Health, es) <= GetStat(MaxHealth, es) * 0.3 then
      Action(SelfHeal, HealMessage, [HealEnemy(14.0), DamageEnemyShield(3.0)])
    else if GetStat(Shield, es) <= GetStat(MaxShield, es) * 0.2 then
      Action(ShieldRestore, RestoreMessage, [HealEnemyShield(10.0), DamageEnemy(5.0)])
    else if GetStat(Shield, ps) >= GetStat(MaxShield, ps) * 0.7 then
      Action(ArmorPiercing, PierceMessage, [DamagePlayerShield(25.0), DamagePlayer(7.0)])
    else
      Action(Pounce, PounceMessage, [DamagePlayer(40.0), DamagePlayerShield(5.0)])
  }

  function Fourth(ps: StatArray, es: StatArray): Action
  {
    if GetStat(Health, es) <= GetStat(MaxHealth, es) * 0.3 then
      Action(SelfHeal, HealMessage, [HealEnemy(18.0), DamageEnemyShield(4.0)])
    else if GetStat(Shield, es) <= GetStat(MaxShield, es) * 0.3 then
      Action(ShieldRestore, RestoreMessage, [HealEnemyShield(20.0), DamageEnemy(5.0)])
    else if GetStat(Shield, ps) >= GetStat(MaxShield, ps) * 0.6 then
      Action(ArmorPiercing, PierceMessage, [DamagePlayerShield(30.0), DamagePlayer(15.0)])
    else
      Action(Pounce, PounceMessage, [DamagePlayer(50.0), DamagePlayerShield(7.0)])
  }

  // ---------------------------------------------------------------------------
  // The design the four AIs follow: a threshold table and a priority order
  // ---------------------------------------------------------------------------

  /** Enemy health, as a fraction of its maximum, at or below which the demon heals. */
  function HealRatio(t: Tier): real
  {
    if t == FirstAi then 0.2 else 0.3
  }

  /** Whether the tier has a shield-restore branch. */
  predicate HasRestore(t: Tier) { t == ThirdAi || t == FourthAi }

  /** Enemy shield fraction at or below which the demon restores its shield. */
  function RestoreRatio(t: Tier): real
    requires HasRestore(t)
  {
    if t == ThirdAi then 0.2 else 0.3
  }

  /** Whether the tier has an armor-piercing branch. */
  predicate HasPierce(t: Tier) { t != FirstAi }

  /** Player shield fraction at or above which the demon pierces armor. */
  function PierceRatio(t: Tier): real
    requires HasPierce(t)
  {
    match t
    case SecondAi => 0.8
    case ThirdAi => 0.7
    case FourthAi => 0.6
  }

  predicate HealFires(t: Tier, es: StatArray)
  {
    GetStat(Health, es) <= GetStat(MaxHealth, es) * HealRatio(t)
  }

  predicate RestoreFires(t: Tier, es: StatArray)
  {
    HasRestore(t) && GetStat(Shield, es) <= GetStat(MaxShield, es) * RestoreRatio(t)
  }

  predicate PierceFires(t: Tier, ps: StatArray)
  {
    HasPierce(t) && GetStat(Shield, ps) >= GetStat(MaxShield, ps) * PierceRatio(t)
  }

  /** The first branch, in priority order, whose condition holds. */
  function Priority(t: Tier, ps: StatArray, es: StatArray): Branch
  {
    if HealFires(t, es) then SelfHeal
    else if RestoreFires(t, es) then ShieldRestore
    else if PierceFires(t, ps) then ArmorPiercing
    else Pounce
  }

  function MessageOf(b: Branch): string
  {
    match b
    case SelfHeal => HealMessage
    case ShieldRestore => RestoreMessage
    case ArmorPiercing => PierceMessage
    case Pounce => PounceMessage
  }

  /**
   * The two calls each branch makes, with positive amounts: self-heal heals the
   * enemy then chips its shield; shield-restore restores the enemy's shield then
   * hurts it; armor-piercing hits the player's shield then the player; pounce
   * hits the player then the player's shield.
   */
  predicate CallsFit(b: Branch, calls: seq<Call>)
  {
    |calls| == 2 && calls[0] != RestorePlayerMana && calls[1] != RestorePlayerMana
    && calls[0].amount > 0.0 && calls[1].amount > 0.0
    && match b
       case SelfHeal => calls[0].HealEnemy? && calls[1].DamageEnemyShield?
       case ShieldRestore => calls[0].HealEnemyShield? && calls[1].DamageEnemy?
       case ArmorPiercing => calls[0].DamagePlayerShield? && calls[1].DamagePlayer?
       case Pounce => calls[0].DamagePlayer? && calls[1].DamagePlayerShield?
  }

  /** The enemy turn of the given AI, as written. */
  function Decide(t: Tier, ps: StatArray, es: StatArray): (a: Action)
    ensures a.branch == Priority(t, ps, es)
    ensures a.message == MessageOf(a.branch)
    ensures CallsFit(a.branch, a.calls)
  {
    match t
    case FirstAi => First(ps, es)
    case SecondAi => Second(ps, es)
    case ThirdAi => Third(ps, es)
    case FourthAi => Fourth(ps, es)
  }

  /** Only the tiers that have a branch can take it. */
  lemma BranchesOfTier(t: Tier, ps: StatArray, es: StatArray)
    ensures Decide(t, ps, es).branch == ShieldRestore ==> t == ThirdAi || t == FourthAi
    ensures Decide(t, ps, es).branch == ArmorPiercing ==> t != FirstAi
  {
  }

  /** A demon low enough on health heals, whatever the player's shield. */
  lemma HealWinsRegardlessOfPlayer(t: Tier, ps1: StatArray, ps2: StatArray, es: StatArray)
    requires HealFires(t, es)
    ensures Decide(t, ps1, es) == Decide(t, ps2, es)
    ensures Decide(t, ps1, es).branch == SelfHeal
  {
  }

  /** The demon pounces exactly when no other branch's condition holds. */
  lemma PounceOnlyWhenNothingElseFires(t: Tier, ps: StatArray, es: StatArray)
    ensures Decide(t, ps, es).branch == Pounce <==> !HealFires(t, es) && !RestoreFires(t, es) && !PierceFires(t, ps)
  {
  }

  /** The later AIs heal no later than the first: with a non-negative maximum, its trigger implies theirs. */
  lemma LaterTiersHealNoLater(t: Tier, es: StatArray)
    requires GetStat(MaxHealth, es) >= 0.0
    requires HealFires(FirstAi, es)
    ensures HealFires(t, es)
  {
  }

  /** The fourth AI's shield-restore covers every case where the third's fires. */
  lemma FourthRestoresNoLater(es: StatArray)
    requires GetStat(MaxShield, es) >= 0.0
    requires RestoreFires(ThirdAi, es)
    ensures RestoreFires(FourthAi, es)
  {
  }

  /** No AI touches the player's mana or heals the player. */
  lemma AiNeverHelpsPlayer(t: Tier, ps: StatArray, es: StatArray)
    ensures forall c :: c in Decide(t, ps, es).calls ==> !c.HealPlayer? && !c.HealPlayerShield? && !c.RestorePlayerMana?
  {
  }
}
