/*
 * The ritual minigames of src/main.cpp: the base contract shared by every
 * minigame (a state and a countdown), the three variants "symbol"
 * (sequential hit), "aura" (sustained hover) and "drag" (drag to target),
 * and the ritual context that owns the minigame being played.
 *
 * The C++ class hierarchy is modelled as one class whose constant `game` tag
 * says which variant it is; the fields of the base class and of each variant
 * live side by side. Pointer geometry is replaced by per-frame inputs
 * (`Pointer`): which shapes are under the pointer, and which drag tokens are
 * within capture distance (60) of some target.
 */
module Minigames {

  datatype MinigameState = InProgress | Failure | Success | Invalid

  /** Timeout polarity: a resist ritual is won by lasting, a complete ritual lost. */
  datatype RitualType = Resist | Complete

  datatype Game = Symbol | Aura | Drag

  /** What the pointer does during one frame. */
  datatype Pointer = Pointer(hovered: set<nat>, nearTarget: set<nat>)

  function Abs(x: real): real { if x < 0.0 then -x else x }

  /** std::max: the second argument when the first is smaller. */
  function Max(a: real, b: real): real { if a < b then b else a }

  /** std::min: the second argument when it is smaller. */
  function Min(a: real, b: real): real { if b < a then b else a }

  // ---------------------------------------------------------------------------
  // Base contract (ritual_minigame_base)
  // ---------------------------------------------------------------------------

  /** The terminal state the base update forces once the countdown runs out. */
  function TimeoutOutcome(kind: RitualType): (s: MinigameState)
    ensures s == Success <==> kind == Resist
    ensures s == Failure <==> kind == Complete
  {
    match kind
    case Resist => Success
    case Complete => Failure
  }

  /** The state left by the base update, given the countdown it has just lowered. */
  function Clock(kind: RitualType, s: MinigameState, timeLeft: real): MinigameState
  {
    if timeLeft <= 0.0 then TimeoutOutcome(kind) else s
  }

  /** Total of a sequence of frame times. */
  function Sum(dts: seq<real>): real
  {
    if dts == [] then 0.0 else Sum(dts[..|dts| - 1]) + dts[|dts| - 1]
  }

  /** The base update applied once per frame time in `dts`: (state, time left). */
  function RunClock(kind: RitualType, s: MinigameState, t: real, dts: seq<real>): (MinigameState, real)
  {
    if dts == [] then (s, t)
    else
      var prev := RunClock(kind, s, t, dts[..|dts| - 1]);
      var left := prev.1 - dts[|dts| - 1];
      (Clock(kind, prev.0, left), left)
  }

  /**
   * Every base update lowers the countdown by exactly its frame time, and the
   * frame on which the countdown is at or below zero ends in the timeout
   * outcome of the ritual's kind, whatever the state was before.
   */
  lemma {:induction false} ClockRunsDown(kind: RitualType, s: MinigameState, t: real, dts: seq<real>)
    ensures RunClock(kind, s, t, dts).1 == t - Sum(dts)
    ensures dts != [] && t - Sum(dts) <= 0.0 ==> RunClock(kind, s, t, dts).0 == TimeoutOutcome(kind)
  {
    if dts != [] {
      ClockRunsDown(kind, s, t, dts[..|dts| - 1]);
    }
  }

  // ---------------------------------------------------------------------------
  // Symbol ritual: points hit in strict index order
  // ---------------------------------------------------------------------------

  /** all_hit: every point has been hit. */
  predicate AllHit(h: seq<bool>)
  {
    forall i :: 0 <= i < |h| ==> h[i]
  }

  /** all_hit_before(i): every point with a smaller index has been hit. */
  predicate AllHitBefore(h: seq<bool>, i: nat)
    requires i <= |h|
  {
    forall j :: 0 <= j < i ==> h[j]
  }

  /** Hits respect the unlock order: a hit point's predecessors are all hit. */
  predicate InOrder(h: seq<bool>)
  {
    forall i, j :: 0 <= j < i < |h| && h[i] ==> h[j]
  }

  /**
   * The hit flags after one pass of the symbol update over the points, in
   * index order: point k becomes hit when it is hovered and every earlier
   * point is hit by then (earlier points may have been hit in this same pass).
   */
  function NextHits(h: seq<bool>, hovered: set<nat>): (r: seq<bool>)
    ensures |r| == |h|
    ensures forall i :: 0 <= i < |h| && h[i] ==> r[i]
    decreases |h|
  {
    if h == [] then []
    else
      var k := |h| - 1;
      var p := NextHits(h[..k], hovered);
      p + [h[k] || (k in hovered && AllHit(p))]
  }

  lemma {:induction false} NextHitsPrefix(h: seq<bool>, hovered: set<nat>, n: nat)
    requires n <= |h|
    ensures NextHits(h, hovered)[..n] == NextHits(h[..n], hovered)
    decreases |h|
  {
    if n == |h| {
      assert h[..n] == h;
    } else {
      var k := |h| - 1;
      assert h[..k][..n] == h[..n];
      NextHitsPrefix(h[..k], hovered, n);
    }
  }

  /**
   * Point i is hit after the pass exactly when it was hit before, or it is
   * hovered and all points before it are hit after the pass.
   */
  lemma NextHitsAt(h: seq<bool>, hovered: set<nat>, i: nat)
    requires i < |h|
    ensures NextHits(h, hovered)[i] == (h[i] || (i in hovered && AllHitBefore(NextHits(h, hovered), i)))
  {
    var r := NextHits(h, hovered);
    NextHitsPrefix(h, hovered, i + 1);
    NextHitsPrefix(h, hovered, i);
    assert h[..i + 1][..i] == h[..i];
    assert r[..i + 1][i] == r[i];
    assert AllHit(r[..i]) == AllHitBefore(r, i) by {
      assert forall j :: 0 <= j < i ==> r[..i][j] == r[j];
    }
  }

  /** A point is newly hit only when it is hovered and all its predecessors are hit. */
  lemma NewHitNeedsPredecessors(h: seq<bool>, hovered: set<nat>, i: nat)
    requires i < |h| && !h[i] && NextHits(h, hovered)[i]
    ensures i in hovered
    ensures forall j :: 0 <= j < i ==> NextHits(h, hovered)[j]
  {
    NextHitsAt(h, hovered, i);
  }

  /** The symbol update keeps the unlock order. */
  lemma NextHitsInOrder(h: seq<bool>, hovered: set<nat>)
    requires InOrder(h)
    ensures InOrder(NextHits(h, hovered))
  {
    var r := NextHits(h, hovered);
    forall i, j | 0 <= j < i < |r| && r[i]
      ensures r[j]
    {
      NextHitsAt(h, hovered, i);
    }
  }

  /** The radius a hit point shrinks to in one frame. */
  function ShrinkHit(r: real, dt: real): (s: real)
    ensures s >= 0.0
    ensures 0.0 <= dt <= r ==> s == r - dt
  {
    Max(0.0, Abs(r - dt))
  }

  /** Radii after a frame: hit points shrink, the others keep their size. */
  function Shrink(radii: seq<real>, hits: seq<bool>, dt: real): (r: seq<real>)
    requires |hits| == |radii|
    ensures |r| == |radii|
    ensures forall i :: 0 <= i < |r| && !hits[i] ==> r[i] == radii[i]
    ensures forall i :: 0 <= i < |r| && hits[i] ==> r[i] == ShrinkHit(radii[i], dt) && r[i] >= 0.0
  {
    seq(|radii|, i requires 0 <= i < |radii| => if hits[i] then ShrinkHit(radii[i], dt) else radii[i])
  }

  // ---------------------------------------------------------------------------
  // Aura ritual: zones grow while hovered and decay otherwise
  // ---------------------------------------------------------------------------

  /** A zone whose radius is below this has lapsed. */
  const DeadRadius: real := 5.0
  const MaxAuraRadius: real := 75.0
  const GrowRate: real := 2.78
  const DecayRate: real := 0.74

  /** any_dead: some zone has lapsed. */
  predicate AnyDead(radii: seq<real>)
  {
    exists i :: 0 <= i < |radii| && radii[i] < DeadRadius
  }

  /** A hovered zone's radius after one frame. */
  function Grow(r: real, dt: real): (s: real)
    ensures s <= MaxAuraRadius
    ensures 0.0 <= r && 0.0 <= dt ==> s == Min(MaxAuraRadius, r + dt * GrowRate)
  {
    Min(MaxAuraRadius, Abs(r + dt * GrowRate))
  }

  /** A zone's radius after one frame without the pointer on it. */
  function Decay(r: real, dt: real): (s: real)
    ensures s >= 0.0
    ensures 0.0 <= dt * DecayRate <= r ==> s == r - dt * DecayRate
  {
    Max(0.0, Abs(r - dt * DecayRate))
  }

  /** Radii of all zones after one frame. */
  function Resize(radii: seq<real>, hovered: set<nat>, dt: real): (r: seq<real>)
    ensures |r| == |radii|
    ensures forall i :: 0 <= i < |r| ==> r[i] == if i in hovered then Grow(radii[i], dt) else Decay(radii[i], dt)
  {
    seq(|radii|, i requires 0 <= i < |radii| => if i in hovered then Grow(radii[i], dt) else Decay(radii[i], dt))
  }

  // ---------------------------------------------------------------------------
  // Drag ritual: tokens carried one at a time and deposited near targets
  // ---------------------------------------------------------------------------

  /** Radius of a fresh drag token. */
  const TokenRadius: real := 7.0 * 3.0

  /** The drag state the update's loop works on: deposit flags, radii, held token (-1: none). */
  datatype Tokens = Tokens(hits: seq<bool>, radii: seq<real>, curr: int)

  predicate WellFormed(s: Tokens)
  {
    |s.hits| == |s.radii| && -1 <= s.curr < |s.hits|
  }

  /** At most one token is held, and the held token is not yet deposited. */
  predicate HeldOk(s: Tokens)
  {
    |s.hits| == |s.radii| && (s.curr == -1 || (0 <= s.curr < |s.hits| && !s.hits[s.curr]))
  }

  /** The update's first step: let go of a held token that is already deposited. */
  function Release(s: Tokens): (r: Tokens)
    requires WellFormed(s)
    ensures HeldOk(r) && r.hits == s.hits && r.radii == s.radii
  {
    if s.curr != -1 && s.hits[s.curr] then s.(curr := -1) else s
  }

  /**
   * One token's turn in the update's loop: it is picked up when undeposited,
   * hovered and nothing is held; it is deposited (radius 0, released) when
   * undeposited and within capture distance of a target, held or not.
   */
  function TokenStep(s: Tokens, i: nat, p: Pointer, targets: nat): (r: Tokens)
    requires WellFormed(s) && i < |s.hits|
    ensures WellFormed(r) && |r.hits| == |s.hits|
  {
    var curr := if !s.hits[i] && i in p.hovered && s.curr == -1 then i else s.curr;
    if targets > 0 && i in p.nearTarget && !s.hits[i] then
      Tokens(s.hits[i := true], s.radii[i := 0.0], if curr == i then -1 else curr)
    else
      s.(curr := curr)
  }

  /** The first n turns of the update's loop. */
  function DragPass(s: Tokens, p: Pointer, targets: nat, n: nat): (r: Tokens)
    requires WellFormed(s) && n <= |s.hits|
    ensures WellFormed(r) && |r.hits| == |s.hits|
  {
    if n == 0 then s else TokenStep(DragPass(s, p, targets, n - 1), n - 1, p, targets)
  }

  /** The pass never holds a deposited token, nor more than one token. */
  lemma {:induction false} DragPassKeepsHeldOk(s: Tokens, p: Pointer, targets: nat, n: nat)
    requires WellFormed(s) && HeldOk(s) && n <= |s.hits|
    ensures HeldOk(DragPass(s, p, targets, n))
  {
    if n > 0 {
      DragPassKeepsHeldOk(s, p, targets, n - 1);
    }
  }

  /**
   * After the first n turns, token i is deposited exactly when it already was,
   * or it is among those n and within capture distance of a target: holding
   * plays no part. A token deposited in the pass has radius 0; the radius of
   * any other token is unchanged.
   */
  lemma {:induction false} DragPassDeposits(s: Tokens, p: Pointer, targets: nat, n: nat, i: nat)
    requires WellFormed(s) && n <= |s.hits| && i < |s.hits|
    ensures DragPass(s, p, targets, n).hits[i] <==> s.hits[i] || (i < n && targets > 0 && i in p.nearTarget)
    ensures !s.hits[i] && DragPass(s, p, targets, n).hits[i] ==> DragPass(s, p, targets, n).radii[i] == 0.0
    ensures !DragPass(s, p, targets, n).hits[i] || s.hits[i] ==> DragPass(s, p, targets, n).radii[i] == s.radii[i]
  {
    if n > 0 {
      DragPassDeposits(s, p, targets, n - 1, i);
    }
  }

  // ---------------------------------------------------------------------------
  // The minigame object
  // ---------------------------------------------------------------------------

  /** Scale from a symbol_point radius to the radius of the shape drawn for it. */
  function ShapeRadius(game: Game, pointRadius: real): real
    requires game != Drag
  {
    if game == Symbol then pointRadius * 2.8 else pointRadius * 3.1
  }

  class RitualMinigame {
    /** Which variant this is (the dynamic type of the C++ object). */
    const game: Game
    const kind: RitualType
    var state: MinigameState
    var timeLeft: real
    /** Symbol: a hit flag per point. Drag: a deposit flag per token. Aura: unused. */
    var hits: seq<bool>
    /** Symbol and aura: radius of each point's shape. Drag: radius of each token. */
    var radii: seq<real>
    /** Drag: number of targets. */
    var targets: nat
    /** Drag: index of the held token, or -1. */
    var curr: int

    ghost predicate Valid()
      reads this
    {
      && (game == Aura ==> hits == [])
      && (game != Aura ==> |hits| == |radii|)
      && (game == Symbol ==> InOrder(hits))
      && (game == Drag ==> WellFormed(Tokens(hits, radii, curr)))
      && (game != Drag ==> curr == -1 && targets == 0)
    }

    constructor (game: Game, kind: RitualType)
      ensures this.game == game && this.kind == kind
      ensures state == Invalid && hits == [] && radii == [] && targets == 0 && curr == -1
      ensures Valid()
    {
      this.game := game;
      this.kind := kind;
      state := Invalid;
      timeLeft := 0.0;
      hits := [];
      radii := [];
      targets := 0;
      curr := -1;
    }

    /** add_point of the symbol and aura rituals. */
    method AddPoint(pointRadius: real)
      requires Valid() && game != Drag
      modifies this`hits, this`radii
      ensures Valid()
      ensures radii == old(radii) + [ShapeRadius(game, pointRadius)]
      ensures hits == if game == Symbol then old(hits) + [false] else old(hits)
    {
      radii := radii + [ShapeRadius(game, pointRadius)];
      if game == Symbol {
        hits := hits + [false];
      }
    }

    /** add_target of the drag ritual. */
    method AddTarget()
      requires Valid() && game == Drag
      modifies this`targets
      ensures Valid() && targets == old(targets) + 1
    {
      targets := targets + 1;
    }

    /** add_draggable of the drag ritual. */
    method AddDraggable()
      requires Valid() && game == Drag
      modifies this`hits, this`radii
      ensures Valid()
      ensures hits == old(hits) + [false] && radii == old(radii) + [TokenRadius]
    {
      hits := hits + [false];
      radii := radii + [TokenRadius];
    }

    /** start_minigame. */
    method Start(t: real)
      modifies this`state, this`timeLeft
      ensures state == InProgress && timeLeft == t
    {
      timeLeft := t;
      state := InProgress;
    }

    /** The base class's update: count down, and on timeout force the kind's outcome. */
    method Tick(dt: real)
      modifies this`state, this`timeLeft
      ensures timeLeft == old(timeLeft) - dt
      ensures state == Clock(kind, old(state), timeLeft)
    {
      timeLeft := timeLeft - dt;
      if timeLeft <= 0.0 {
        if kind == Resist {
          state := Success;
        } else if kind == Complete {
          state := Failure;
        }
      }
    }

    /**
     * symbol_ritual::update. Success is decided on the flags as they were
     * before this frame's hits, so the last hit is reported one update later;
     * that success overrides a timeout failure of the same frame and stops
     * the shrinking.
     */
    method UpdateSymbol(dt: real, hovered: set<nat>)
      requires Valid() && game == Symbol
      modifies this`state, this`timeLeft, this`hits, this`radii
      ensures Valid()
      ensures timeLeft == old(timeLeft) - dt
      ensures AllHit(old(hits)) ==> state == Success && hits == old(hits) && radii == old(radii)
      ensures !AllHit(old(hits)) ==>
                && state == Clock(kind, old(state), timeLeft)
                && hits == NextHits(old(hits), hovered)
                && radii == Shrink(old(radii), hits, dt)
    {
      Tick(dt);
      if AllHit(hits) {
        state := Success;
        return;
      }
      ghost var h0 := hits;
      PassPoints(dt, hovered);
      NextHitsInOrder(h0, hovered);
    }

    /**
     * The loop over the points of symbol_ritual::update: in index order, a
     * hovered point whose predecessors are all hit becomes hit, and every hit
     * point's radius shrinks.
     */
    method PassPoints(dt: real, hovered: set<nat>)
      requires |hits| == |radii|
      modifies this`hits, this`radii
      ensures hits == NextHits(old(hits), hovered)
      ensures radii == Shrink(old(radii), hits, dt)
    {
      ghost var h0, r0 := hits, radii;
      ghost var target := NextHits(h0, hovered);
      var i := 0;
      while i < |radii|
        invariant 0 <= i <= |radii| == |r0| == |hits| == |h0|
        invariant forall k :: 0 <= k < i ==> hits[k] == target[k]
        invariant forall k :: i <= k < |hits| ==> hits[k] == h0[k]
        invariant forall k :: 0 <= k < i ==> radii[k] == if target[k] then ShrinkHit(r0[k], dt) else r0[k]
        invariant forall k :: i <= k < |radii| ==> radii[k] == r0[k]
      {
        assert AllHitBefore(hits, i) == AllHitBefore(target, i);
        NextHitsAt(h0, hovered, i);
        if AllHitBefore(hits, i) && i in hovered {
          if !hits[i] {
            hits := hits[i := true];
          }
        }
        if hits[i] {
          radii := radii[i := ShrinkHit(radii[i], dt)];
        }
        i := i + 1;
      }
    }

    /**
     * aura_ritual::update. A zone below DeadRadius at the start of the frame
     * fails the ritual even when the base update has just declared success;
     * the aura itself never declares success.
     */
    method UpdateAura(dt: real, hovered: set<nat>)
      requires Valid() && game == Aura
      modifies this`state, this`timeLeft, this`radii
      ensures Valid()
      ensures timeLeft == old(timeLeft) - dt
      ensures state == if AnyDead(old(radii)) then Failure else Clock(kind, old(state), timeLeft)
      ensures state == Success ==> old(state) == Success || (kind == Resist && timeLeft <= 0.0)
      ensures radii == Resize(old(radii), hovered, dt)
    {
      Tick(dt);
      if AnyDead(radii) {
        state := Failure;
      }
      ghost var r0 := radii;
      ghost var s1, t1 := state, timeLeft;
      var i := 0;
      while i < |radii|
        invariant state == s1 && timeLeft == t1
        invariant 0 <= i <= |radii| == |r0|
        invariant forall k :: 0 <= k < i ==> radii[k] == if k in hovered then Grow(r0[k], dt) else Decay(r0[k], dt)
        invariant forall k :: i <= k < |radii| ==> radii[k] == r0[k]
      {
        if i in hovered {
          radii := radii[i := Grow(radii[i], dt)];
        } else {
          radii := radii[i := Decay(radii[i], dt)];
        }
        i := i + 1;
      }
    }

    /**
     * drag_ritual::update. Success is decided on the deposit flags as they
     * were before this frame's deposits, so it too comes one update late.
     */
    method UpdateDrag(dt: real, p: Pointer)
      requires Valid() && game == Drag
      modifies this`state, this`timeLeft, this`hits, this`radii, this`curr
      ensures Valid()
      ensures timeLeft == old(timeLeft) - dt
      ensures state == if AllHit(old(hits)) then Success else Clock(kind, old(state), timeLeft)
      ensures |hits| == |old(hits)| && HeldOk(Tokens(hits, radii, curr))
      ensures Tokens(hits, radii, curr) == DragPass(Release(Tokens(old(hits), old(radii), old(curr))), p, targets, |hits|)
    {
      Tick(dt);
      if AllHit(hits) {
        state := Success;
      }
      if curr != -1 && hits[curr] {
        curr := -1;
      }
      ghost var s0 := Tokens(hits, radii, curr);
      PassTokens(p);
      DragPassKeepsHeldOk(s0, p, targets, |hits|);
    }

    /**
     * The loop over the tokens of drag_ritual::update: each token in turn may
     * be picked up, and is deposited when it is within capture distance of a
     * target.
     */
    method PassTokens(p: Pointer)
      requires WellFormed(Tokens(hits, radii, curr))
      modifies this`hits, this`radii, this`curr
      ensures |hits| == |old(hits)|
      ensures Tokens(hits, radii, curr) == DragPass(Tokens(old(hits), old(radii), old(curr)), p, targets, |hits|)
    {
      ghost var s0 := Tokens(hits, radii, curr);
      var i := 0;
      while i < |hits|
        invariant 0 <= i <= |hits| == |s0.hits|
        invariant Tokens(hits, radii, curr) == DragPass(s0, p, targets, i)
      {
        if !hits[i] && i in p.hovered && curr == -1 {
          curr := i;
        }
        if targets > 0 && i in p.nearTarget && !hits[i] {
          radii := radii[i := 0.0];
          hits := hits[i := true];
          if curr == i {
            curr := -1;
          }
        }
        i := i + 1;
      }
    }

    /** The virtual update, dispatched on the variant. */
    method Update(dt: real, p: Pointer)
      requires Valid()
      modifies this`state, this`timeLeft, this`hits, this`radii, this`curr
      ensures Valid()
      ensures timeLeft == old(timeLeft) - dt
      ensures old(state) != Invalid ==> state != Invalid
      ensures game == Symbol ==>
                && (AllHit(old(hits)) ==> state == Success && hits == old(hits) && radii == old(radii))
                && (!AllHit(old(hits)) ==>
                      && state == Clock(kind, old(state), timeLeft)
                      && hits == NextHits(old(hits), p.hovered)
                      && radii == Shrink(old(radii), hits, dt))
      ensures game == Aura ==>
                && state == (if AnyDead(old(radii)) then Failure else Clock(kind, old(state), timeLeft))
                && radii == Resize(old(radii), p.hovered, dt)
      ensures game == Drag ==>
                && state == (if AllHit(old(hits)) then Success else Clock(kind, old(state), timeLeft))
                && |hits| == |old(hits)| && HeldOk(Tokens(hits, radii, curr))
                && Tokens(hits, radii, curr) == DragPass(Release(Tokens(old(hits), old(radii), old(curr))), p, targets, |hits|)
    {
      match game
      case Symbol => UpdateSymbol(dt, p.hovered);
      case Aura => UpdateAura(dt, p.hovered);
      case Drag => UpdateDrag(dt, p);
    }
  }

  // ---------------------------------------------------------------------------
  // battle_ritual_context
  // ---------------------------------------------------------------------------

  class RitualContext {
    var minigame: RitualMinigame?

    constructor ()
      ensures minigame == null
    {
      minigame := null;
    }

    ghost predicate Valid()
      reads this, minigame
    {
      minigame != null ==> minigame.Valid()
    }

    /** valid(): a minigame is present and has been started. */
    predicate Ready()
      reads this, minigame
    {
      minigame != null && minigame.state != Invalid
    }

    function IsFailure(): bool
      reads this, minigame
      requires Ready()
    {
      minigame.state == Failure
    }

    function IsInProgress(): bool
      reads this, minigame
      requires Ready()
    {
      minigame.state == InProgress
    }

    function IsSuccess(): bool
      reads this, minigame
      requires Ready()
    {
      minigame.state == Success
    }

    /** Exactly one outcome query answers yes once a minigame is playing. */
    lemma OutcomeQueriesPartition()
      requires Ready()
      ensures IsInProgress() || IsFailure() || IsSuccess()
      ensures !(IsInProgress() && IsFailure()) && !(IsInProgress() && IsSuccess()) && !(IsFailure() && IsSuccess())
    {
    }

    /** set_and_start_minigame: install a new minigame and start its countdown. */
    method SetAndStart(t: real, m: RitualMinigame)
      requires m.Valid()
      modifies this, m`state, m`timeLeft
      ensures minigame == m && Valid() && Ready()
      ensures m.state == InProgress && m.timeLeft == t
    {
      minigame := m;
      m.Start(t);
    }

    /** update: advance the minigame by one frame. */
    method Update(dt: real, p: Pointer)
      requires Valid() && Ready()
      modifies minigame
      ensures Valid() && Ready()
      ensures minigame.timeLeft == old(minigame.timeLeft) - dt
    {
      minigame.Update(dt, p);
    }
  }
}
