/*
 * Ritual definitions (ritual_maker, src/main.cpp:452-487), the factory that
 * builds a ritual's minigame (the make closures of cplayer_state,
 * src/main.cpp:513-560), and the player's catalog of six rituals in three
 * pools (fill_ps, src/main.cpp:1653-1811). Shape positions are screen
 * geometry and are not modelled; only each shape's radius is, and for the drag
 * ritual the number of targets and tokens.
 */
module Rituals {
  import opened Minigames
  import opened Battle

  /** What a ritual's init function adds to a fresh minigame. */
  datatype Setup =
    | SymbolSetup(points: seq<real>)
    | AuraSetup(points: seq<real>)
    | DragSetup(targets: nat, draggables: nat)

  /** A ritual_maker: label (name), description, kind, time in seconds, mana cost, minigame, effect. */
  datatype RitualDef = RitualDef(
    name: string,
    desc: string,
    kind: RitualType,
    time: real,
    reqMana: real,
    setup: Setup,
    effect: seq<Call>)

  function GameOf(s: Setup): Game
  {
    match s
    case SymbolSetup(_) => Symbol
    case AuraSetup(_) => Aura
    case DragSetup(_, _) => Drag
  }

  /** Number of shapes the setup adds: points, or drag tokens. */
  function ShapeCount(s: Setup): nat
  {
    match s
    case SymbolSetup(ps) => |ps|
    case AuraSetup(ps) => |ps|
    case DragSetup(_, n) => n
  }

  /** The shape radii of a freshly made minigame. */
  function InitialRadii(s: Setup): (r: seq<real>)
    ensures |r| == ShapeCount(s)
  {
    match s
    case SymbolSetup(ps) => seq(|ps|, k requires 0 <= k < |ps| => ShapeRadius(Symbol, ps[k]))
    case AuraSetup(ps) => seq(|ps|, k requires 0 <= k < |ps| => ShapeRadius(Aura, ps[k]))
    case DragSetup(_, n) => seq(n, k => TokenRadius)
  }

  /** The hit (or deposit) flags of a freshly made minigame. */
  function InitialHits(s: Setup): (h: seq<bool>)
    ensures s.AuraSetup? ==> h == []
    ensures !s.AuraSetup? ==> |h| == ShapeCount(s) && forall k :: 0 <= k < |h| ==> !h[k]
  {
    if s.AuraSetup? then [] else seq(ShapeCount(s), k => false)
  }

  /**
   * make(): a fresh minigame of the ritual's variant and kind, with the
   * ritual's points, targets and tokens added in order, not yet started.
   */
  method Make(def: RitualDef) returns (m: RitualMinigame)
    ensures fresh(m) && m.Valid()
    ensures m.game == GameOf(def.setup) && m.kind == def.kind
    ensures m.state == Invalid && m.curr == -1
    ensures m.radii == InitialRadii(def.setup) && m.hits == InitialHits(def.setup)
    ensures m.targets == if def.setup.DragSetup? then def.setup.targets else 0
  {
    var g := GameOf(def.setup);
    m := new RitualMinigame(g, def.kind);
    match def.setup
    case SymbolSetup(ps) =>
      AddPoints(m, ps);
    case AuraSetup(ps) =>
      AddPoints(m, ps);
    case DragSetup(nt, nd) =>
      var i := 0;
      while i < nt
        invariant 0 <= i <= nt
        invariant m.Valid() && m.targets == i && m.hits == [] && m.radii == []
        invariant m.state == Invalid && m.curr == -1
      {
        m.AddTarget();
        i := i + 1;
      }
      i := 0;
      while i < nd
        invariant 0 <= i <= nd
        invariant m.Valid() && m.targets == nt && m.state == Invalid && m.curr == -1
        invariant |m.hits| == |m.radii| == i
        invariant forall k :: 0 <= k < i ==> !m.hits[k] && m.radii[k] == TokenRadius
      {
        m.AddDraggable();
        i := i + 1;
      }
  }

  /** The point-adding loop of the symbol and aura init functions. */
  method AddPoints(m: RitualMinigame, ps: seq<real>)
    requires m.Valid() && m.game != Drag && m.hits == [] && m.radii == []
    modifies m`hits, m`radii
    ensures m.Valid()
    ensures m.radii == seq(|ps|, k requires 0 <= k < |ps| => ShapeRadius(m.game, ps[k]))
    ensures m.hits == if m.game == Symbol then seq(|ps|, k => false) else []
  {
    var i := 0;
    while i < |ps|
      invariant 0 <= i <= |ps|
      invariant m.Valid()
      invariant |m.radii| == i && forall k :: 0 <= k < i ==> m.radii[k] == ShapeRadius(m.game, ps[k])
      invariant m.hits == if m.game == Symbol then seq(i, k => false) else []
    {
      m.AddPoint(ps[i]);
      i := i + 1;
    }
  }

  // ---------------------------------------------------------------------------
  // The catalog (fill_ps)
  // ---------------------------------------------------------------------------

  /** n copies of the radius x: the points a loop of the init function adds. */
  function Repeat(x: real, n: nat): (r: seq<real>)
    ensures |r| == n && forall k :: 0 <= k < n ==> r[k] == x
  {
    if n == 0 then [] else Repeat(x, n - 1) + [x]
  }

  const Fireball: RitualDef := RitualDef(
    "Fireball",
    "Easy ritual.\nConnect the dots.\nLow HP damage.\nMinimal shield damage.",
    Complete, 4.0, 15.0,
    SymbolSetup([10.0, 10.0, 10.0, 10.0, 10.0]),
    [DamageEnemy(20.0), DamageEnemyShield(5.0)])

  const RendShield: RitualDef := RitualDef(
    "Rend shield",
    "Medium ritual.\nPrevent dots from disappearing.\nMinimal HP damage.\nLarge shield damage.",
    Resist, 6.0, 20.0,
    AuraSetup([20.0, 20.0, 20.0]),
    [DamageEnemy(5.0), DamageEnemyShield(25.0)])

  /** Eighteen points around the screen's border: 6 along the top, 4 down the right, 6 back along the bottom, 2 up the left. */
  const Obliterate: RitualDef := RitualDef(
    "Obliterate",
    "Hard ritual.\nConnect the dots.\nMassive HP damage.\nLow shield damage.",
    Complete, 4.0, 50.0,
    SymbolSetup(Repeat(12.0, 6 + 4 + 6 + 2)),
    [DamageEnemyShield(20.0), DamageEnemy(60.0)])

  /** One target in the middle of the screen and six randomly placed tokens. */
  const Heal: RitualDef := RitualDef(
    "Heal",
    "Easy ritual.\nCollect the dots.\nMedium HP heal.\nMinimal shield self-damage.",
    Complete, 5.0, 30.0,
    DragSetup(1, 6),
    [DamagePlayerShield(10.0), HealPlayer(35.0)])

  /** One target in the middle of the screen and three pairs of tokens at the sides. */
  const RepairShield: RitualDef := RitualDef(
    "Repair shield",
    "Medium ritual.\nCollect the dots.\nMinimal HP self-damage.\nMedium shield restoration.",
    Complete, 6.0, 40.0,
    DragSetup(1, 3 * 2),
    [DamagePlayer(5.0), HealPlayerShield(25.0)])

  /** Seven points on a diagonal (i from -3 to 3). */
  const RestoreMana: RitualDef := RitualDef(
    "Restore mana",
    "Medium ritual.\nRestores your mana.",
    Resist, 4.0, 0.0,
    AuraSetup(Repeat(20.0, 7)),
    [RestorePlayerMana])

  const AttackPool: seq<RitualDef> := [Fireball, RendShield, Obliterate]
  const UtilityPool: seq<RitualDef> := [Heal, RepairShield]
  const ManaPool: seq<RitualDef> := [RestoreMana]

  function Catalog(): seq<RitualDef>
  {
    AttackPool + UtilityPool + ManaPool
  }

  /** In the catalog, the resist rituals are exactly the aura rituals. */
  lemma ResistIsAura()
    ensures forall r :: r in Catalog() ==> (r.kind == Resist <==> GameOf(r.setup) == Aura)
  {
  }

  /** Attack rituals act on the enemy only; utility and mana rituals on the player only. */
  lemma EffectsTargetTheRightSide()
    ensures forall r, c :: r in AttackPool && c in r.effect ==> TargetsEnemy(c)
    ensures forall r, c :: r in UtilityPool + ManaPool && c in r.effect ==> !TargetsEnemy(c)
  {
  }

  /** The mana pool, which the menu casts without a mana check, holds only free rituals. */
  lemma ManaPoolIsFree()
    ensures forall r :: r in ManaPool ==> r.reqMana == 0.0
  {
  }

  /** Shapes to add, with every point radius large enough to keep a fresh zone alive. */
  predicate SafeSetup(s: Setup)
  {
    && ShapeCount(s) > 0
    && match s
       case SymbolSetup(ps) => forall k :: 0 <= k < |ps| ==> ps[k] >= 2.0
       case AuraSetup(ps) => forall k :: 0 <= k < |ps| ==> ps[k] >= 2.0
       case DragSetup(_, _) => true
  }

  /** A fresh minigame built from a safe setup: no point hit yet, no zone below the failure radius. */
  lemma SafeSetupStartsUndecided(s: Setup)
    requires SafeSetup(s)
    ensures s.AuraSetup? || !AllHit(InitialHits(s))
    ensures !AnyDead(InitialRadii(s))
  {
    var radii := InitialRadii(s);
    assert forall k :: 0 <= k < |radii| ==> radii[k] >= DeadRadius;
    if !s.AuraSetup? {
      assert !InitialHits(s)[0];
    }
  }

  /**
   * Every catalog minigame starts undecided: its time is positive, it has at
   * least one shape, a symbol or drag minigame has none hit and an aura
   * minigame has no zone below the failure radius. So none is decided on its
   * first update except by running out of time.
   */
  lemma CatalogStartsUndecided()
    ensures forall r :: r in Catalog() ==>
              && r.time > 0.0
              && ShapeCount(r.setup) > 0
              && (r.setup.AuraSetup? || !AllHit(InitialHits(r.setup)))
              && !AnyDead(InitialRadii(r.setup))
  {
    assert Catalog() == [Fireball, RendShield, Obliterate, Heal, RepairShield, RestoreMana];
    forall r | r in Catalog()
      ensures SafeSetup(r.setup)
    {
    }
    forall r | r in Catalog()
      ensures (r.setup.AuraSetup? || !AllHit(InitialHits(r.setup))) && !AnyDead(InitialRadii(r.setup))
    {
      SafeSetupStartsUndecided(r.setup);
    }
  }
}
