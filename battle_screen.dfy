/*
 * The battle screen (src/main.cpp:828-1542): the per-frame update with its
 * precedence order (enemy shake, then scripted texts, then queued
 * notifications, then the battle_screen_state machine), ritual execution
 * behind the mana gate, ritual outcome handling, the enemy turn and the
 * notification queue fed by the battle-event listener.
 *
 * The menus are reduced to the choice the player makes in a frame; message
 * boxes are recorded in `messages`, in the order they are pushed; every call
 * made on a battle context is recorded in `log`.
 */
module Screen {
  import opened Stat
  import opened Minigames
  import opened Battle
  import opened Notifications
  import opened EnemyAi
  import opened Rituals

  datatype ScreenState =
    | PlayerMenu | PlayerRitual | EnemyTurn | BeforeEnemyTurn | BeforePlayerTurn
    | ToNextCtx | ToGameOver | GameOver

  /** A scripted text: the frame time it still has on screen, and the text. */
  datatype ScriptedEvent = ScriptedEvent(time: real, text: string)

  /** One battle context: the two sides' stats and the enemy's AI. */
  datatype Encounter = Encounter(sides: Sides, ai: Tier)

  /** A ritual the player picks in a menu this frame: pool and position in it. */
  datatype Choice = NoChoice | AttackChoice(index: nat) | UtilityChoice(index: nat) | ManaChoice(index: nat)

  /** Everything a frame reads from outside: the pointer over the minigame and the menu choice. */
  datatype FrameInput = FrameInput(pointer: Pointer, choice: Choice)

  /** ssvu::getSecondsToFT: seconds as frame time, at 60 frames a second. */
  function SecondsToFrames(s: real): real
  {
    s * 60.0
  }

  // ---------------------------------------------------------------------------
  // Scripted events
  // ---------------------------------------------------------------------------

  /** The erase-remove step: the events with time left, in their order. */
  function Keep(q: seq<ScriptedEvent>): (r: seq<ScriptedEvent>)
    ensures |r| <= |q|
    ensures forall e :: e in r ==> e in q && e.time > 0.0
    ensures forall e :: e in q && e.time > 0.0 ==> e in r
  {
    if q == [] then []
    else
      var init := Keep(q[..|q| - 1]);
      var last := q[|q| - 1];
      assert q == q[..|q| - 1] + [last];
      if last.time > 0.0 then init + [last] else init
  }

  lemma {:induction false} KeepAppend(a: seq<ScriptedEvent>, b: seq<ScriptedEvent>)
    ensures Keep(a + b) == Keep(a) + Keep(b)
    decreases |b|
  {
    if b == [] {
      assert a + b == a;
    } else {
      var k := |b| - 1;
      assert (a + b)[..|a + b| - 1] == a + b[..k];
      KeepAppend(a, b[..k]);
    }
  }

  /** A queue with no expired event is kept whole. */
  lemma {:induction false} KeepUnexpired(q: seq<ScriptedEvent>)
    requires forall e :: e in q ==> e.time > 0.0
    ensures Keep(q) == q
  {
    if q != [] {
      var init := q[..|q| - 1];
      assert forall e :: e in init ==> e in q;
      KeepUnexpired(init);
      assert q == init + [q[|q| - 1]];
    }
  }

  /** update_scripted_events: the front event runs for dt, then every expired event is dropped. */
  function AdvanceScripted(q: seq<ScriptedEvent>, dt: real): seq<ScriptedEvent>
    requires q != []
  {
    Keep([q[0].(time := q[0].time - dt)] + q[1..])
  }

  lemma KeepSingle(x: ScriptedEvent)
    ensures Keep([x]) == if x.time > 0.0 then [x] else []
  {
    assert [x][..0] == [];
  }

  /**
   * With no expired event queued, advancing touches only the front event: it
   * loses dt and leaves the queue once its time is used up, while the events
   * behind it wait with their time intact and in order.
   */
  lemma AdvanceOnlyFront(q: seq<ScriptedEvent>, dt: real)
    requires q != [] && forall e :: e in q ==> e.time > 0.0
    ensures AdvanceScripted(q, dt) ==
              (if q[0].time - dt > 0.0 then [q[0].(time := q[0].time - dt)] else []) + q[1..]
  {
    var x := q[0].(time := q[0].time - dt);
    var rest := q[1..];
    KeepAppend([x], rest);
    KeepSingle(x);
    assert forall e :: e in rest ==> e.time > 0.0 by {
      assert forall e :: e in rest ==> e in q;
    }
    KeepUnexpired(rest);
  }

  /** Concatenation is associative; stated over any element type so no element is inspected. */
  lemma AppendAssoc<T>(a: seq<T>, b: seq<T>, c: seq<T>)
    ensures (a + b) + c == a + (b + c)
  {
  }

  // ---------------------------------------------------------------------------
  // Menu choices
  // ---------------------------------------------------------------------------

  /** Whether the menus offer the choice: only existing catalog entries are listed. */
  predicate Offered(c: Choice)
  {
    match c
    case NoChoice => true
    case AttackChoice(i) => i < |AttackPool|
    case UtilityChoice(i) => i < |UtilityPool|
    case ManaChoice(i) => i < |ManaPool|
  }

  function Chosen(c: Choice): RitualDef
    requires Offered(c) && c != NoChoice
  {
    match c
    case AttackChoice(i) => AttackPool[i]
    case UtilityChoice(i) => UtilityPool[i]
    case ManaChoice(i) => ManaPool[i]
  }

  /** Whether the cast goes ahead: mana rituals always, the others when the mana covers the cost. */
  predicate Accepted(c: Choice, mana: real)
    requires Offered(c) && c != NoChoice
  {
    c.ManaChoice? || Chosen(c).reqMana <= mana
  }

  /** The encounter with the player's mana set to v, every other stat as it was. */
  function WithMana(e: Encounter, v: real): (r: Encounter)
    ensures GetStat(Mana, r.sides.player) == v && r.ai == e.ai && r.sides.enemy == e.sides.enemy
    ensures forall t :: t != Mana ==> GetStat(t, r.sides.player) == GetStat(t, e.sides.player)
  {
    e.(sides := e.sides.(player := WithStat(Mana, e.sides.player, v)))
  }

  function Flushed(ns: seq<string>): seq<string>
  {
    if ns == [] then [] else [Joined(ns)]
  }

  const StartText: string := "Battle start!"
  const EnemyTurnText: string := "Enemy turn!"
  const PlayerTurnText: string := "Player turn!"
  const FailureText: string := "Failure!"
  const SuccessText: string := "Success!"
  const NoManaText: string := "Not enough mana."
  const NextDemonText: string := "The next demon approaches..."
  const WonText: string := "You won!"
  const GameOverText: string := "Game over!"

  /** Number of encounters hard-coded in the screen's "next demon" check. */
  const HardCodedEncounters: nat := 4

  // ---------------------------------------------------------------------------
  // The battle_screen_state machine
  // ---------------------------------------------------------------------------

  /**
   * What the state dispatch of a frame depends on: whether the menu cast a
   * ritual, the minigame's outcome after its update, whether the enemy and
   * the player are out of health, and whether another demon follows.
   */
  datatype Reading = Reading(cast: bool, outcome: MinigameState, enemyDead: bool, playerDead: bool, moreDemons: bool)

  /** The state after one dispatch. */
  function Next(s: ScreenState, r: Reading): (n: ScreenState)
    ensures n == PlayerMenu <==>
              (s == PlayerMenu && !r.cast) || (s == BeforePlayerTurn && !r.playerDead) || (s == ToNextCtx && r.moreDemons)
    ensures n == PlayerRitual <==> (s == PlayerMenu && r.cast) || (s == PlayerRitual && r.outcome == InProgress)
    ensures n == EnemyTurn <==> s == BeforeEnemyTurn && !r.enemyDead
    ensures n == BeforeEnemyTurn <==> s == PlayerRitual && r.outcome != InProgress
    ensures n == BeforePlayerTurn <==> s == EnemyTurn
    ensures n == ToNextCtx <==> (s == BeforeEnemyTurn && r.enemyDead) || (s == ToNextCtx && !r.moreDemons)
    ensures n == ToGameOver <==> s == BeforePlayerTurn && r.playerDead
    ensures n == GameOver <==> s == ToGameOver || s == GameOver
  {
    match s
    case PlayerMenu => if r.cast then PlayerRitual else PlayerMenu
    case PlayerRitual => if r.outcome == InProgress then PlayerRitual else BeforeEnemyTurn
    case EnemyTurn => BeforePlayerTurn
    case BeforeEnemyTurn => if r.enemyDead then ToNextCtx else EnemyTurn
    case BeforePlayerTurn => if r.playerDead then ToGameOver else PlayerMenu
    case ToNextCtx => if r.moreDemons then PlayerMenu else ToNextCtx
    case ToGameOver => GameOver
    case GameOver => GameOver
  }

  /**
   * The reading of a frame: the state and encounter before it, the choice
   * made, the minigame outcome after it, the current index and the number of
   * battle contexts.
   */
  function Observe(s: ScreenState, e: Encounter, c: Choice, outcome: MinigameState, idx: nat, count: nat): Reading
    requires Offered(c)
  {
    Reading(
      s == PlayerMenu && c != NoChoice && Accepted(c, GetStat(Mana, e.sides.player)),
      outcome,
      GetStat(Health, e.sides.enemy) <= 0.0,
      GetStat(Health, e.sides.player) <= 0.0,
      idx + 1 < count)
  }

  class BattleScreen {
    var state: ScreenState
    var ctxs: seq<Encounter>
    var ctxIdx: nat
    /** Enemy-shake countdown: while positive, the frame does nothing else. */
    var enemyShake: real
    /** The application's screen-shake amount, set when a ritual fails. */
    var appShake: real
    var scripted: seq<ScriptedEvent>
    var notifications: seq<string>
    /** Message boxes pushed, in order. */
    var messages: seq<string>
    /** Calls made on battle contexts, in order. */
    var log: seq<Call>
    /** The effect of the ritual being played, applied on success. */
    var successEffect: seq<Call>
    /** Whether the screen has popped itself off the screen stack. */
    var popped: bool
    const ritual: RitualContext
    /** The battle contexts' mutators. */
    const apply: Mutator

    ghost predicate Valid()
      reads this, ritual, ritual.minigame
    {
      && ctxIdx < |ctxs|
      && ritual.Valid()
      && (state == PlayerRitual ==> ritual.Ready())
      && (forall e :: e in scripted ==> e.time > 0.0)
    }

    /** curr_bctx(). */
    function Current(): Encounter
      reads this`ctxs, this`ctxIdx
      requires ctxIdx < |ctxs|
    {
      ctxs[ctxIdx]
    }

    /**
     * Whether the current context's events reach the listener: init_battle
     * subscribes it to the context that is current when the screen is built,
     * the first one, and to no other.
     */
    predicate Listening()
      reads this`ctxIdx
    {
      ctxIdx == 0
    }

    /** The notifications queued for events emitted on the current context. */
    function Heard(events: seq<BattleEvent>): seq<string>
      reads this`ctxIdx
    {
      if Listening() then Notes(events) else []
    }

    /** The installed minigame's state, Invalid when there is none. */
    function MinigameOutcome(): MinigameState
      reads this, ritual, ritual.minigame
    {
      if ritual.minigame != null then ritual.minigame.state else Invalid
    }

    /**
     * Nothing of the ritual in play, the application shake, the stored effect
     * or the pop has changed since the start of the frame: the minigame's
     * countdown is paused.
     */
    twostate predicate Paused()
      reads this, ritual, ritual.minigame
    {
      && ritual.minigame == old(ritual.minigame)
      && (ritual.minigame != null ==>
            && ritual.minigame.timeLeft == old(ritual.minigame.timeLeft)
            && ritual.minigame.state == old(ritual.minigame.state)
            && ritual.minigame.hits == old(ritual.minigame.hits)
            && ritual.minigame.radii == old(ritual.minigame.radii)
            && ritual.minigame.curr == old(ritual.minigame.curr)
            && ritual.minigame.targets == old(ritual.minigame.targets))
      && appShake == old(appShake) && successEffect == old(successEffect) && popped == old(popped)
    }

    /** The minigame now installed is a fresh start of def's minigame. */
    ghost predicate Started(def: RitualDef)
      reads this, ritual, ritual.minigame
    {
      && ritual.minigame != null
      && ritual.minigame.game == GameOf(def.setup)
      && ritual.minigame.kind == def.kind
      && ritual.minigame.state == InProgress
      && ritual.minigame.timeLeft == SecondsToFrames(def.time)
      && ritual.minigame.radii == InitialRadii(def.setup)
      && ritual.minigame.hits == InitialHits(def.setup)
      && ritual.minigame.curr == -1
    }

    /** `appShake` is the application's shake as the screen finds it; the screen does not reset it. */
    constructor (ctxs: seq<Encounter>, apply: Mutator, appShake: real)
      requires |ctxs| > 0
      ensures Valid() && fresh(ritual) && ritual.minigame == null
      ensures this.ctxs == ctxs && this.apply == apply && ctxIdx == 0 && state == PlayerMenu
      ensures scripted == [ScriptedEvent(SecondsToFrames(1.7), StartText)]
      ensures enemyShake == 0.0 && notifications == [] && messages == [] && log == [] && !popped
      ensures this.appShake == appShake && successEffect == []
    {
      state := PlayerMenu;
      this.ctxs := ctxs;
      ctxIdx := 0;
      enemyShake := 0.0;
      this.appShake := appShake;
      notifications := [];
      messages := [];
      log := [];
      successEffect := [];
      popped := false;
      this.apply := apply;
      ritual := new RitualContext();
      scripted := [ScriptedEvent(SecondsToFrames(1.7), StartText)];
    }

    /** reset(): back to the first encounter's menu. */
    method Reset()
      requires Valid()
      modifies this`state, this`ctxIdx
      ensures Valid() && state == PlayerMenu && ctxIdx == 0
    {
      state := PlayerMenu;
      ctxIdx := 0;
    }

    /** add_scripted_text: queue a text for the given number of seconds. */
    method AddScriptedText(seconds: real, text: string)
      requires seconds > 0.0
      requires forall e :: e in scripted ==> e.time > 0.0
      modifies this`scripted
      ensures scripted == old(scripted) + [ScriptedEvent(SecondsToFrames(seconds), text)]
      ensures forall e :: e in scripted ==> e.time > 0.0
    {
      scripted := scripted + [ScriptedEvent(SecondsToFrames(seconds), text)];
    }

    /** display_msg_box. */
    method DisplayMessage(text: string)
      modifies this`messages
      ensures messages == old(messages) + [text]
    {
      messages := messages + [text];
    }

    /** event_listener: queue the event's text, and shake the enemy when it is hit. */
    method OnEvent(e: BattleEvent)
      modifies this`notifications, this`enemyShake
      ensures notifications == old(notifications) + [Entry(e)]
      ensures enemyShake == ShakeOn(old(enemyShake), e)
    {
      notifications := notifications + [Describe(e) + "."];
      match e
      case EnemyDamaged(a) =>
        enemyShake := a * 3.0;
      case EnemyShieldDamaged(a) =>
        enemyShake := a * 2.0;
      case _ =>
    }

    /** The listener run on each event a call emitted, in order. */
    method Deliver(events: seq<BattleEvent>)
      modifies this`notifications, this`enemyShake
      ensures notifications == old(notifications) + Notes(events)
      ensures enemyShake == ShakeAfter(old(enemyShake), events)
    {
      ghost var n0, s0 := notifications, enemyShake;
      var i := 0;
      while i < |events|
        invariant 0 <= i <= |events|
        invariant notifications == n0 + Notes(events[..i])
        invariant enemyShake == ShakeAfter(s0, events[..i])
      {
        OnEvent(events[i]);
        assert notifications == n0 + Notes(events[..i + 1]) by {
          NotesSnoc(events, i);
          AppendAssoc(n0, Notes(events[..i]), [Entry(events[i])]);
        }
        ShakeAfterSnoc(s0, events, i);
        i := i + 1;
      }
      assert events[..i] == events;
    }

    /** One call on the current battle context; the listener hears the events it emits. */
    method ApplyCall(c: Call)
      requires ctxIdx < |ctxs|
      modifies this`ctxs, this`log, this`notifications, this`enemyShake
      ensures var out := apply(old(Current()).sides, c);
              && ctxs == old(ctxs)[ctxIdx := old(Current()).(sides := out.sides)]
              && log == old(log) + [c]
              && notifications == old(notifications) + Heard(out.events)
              && enemyShake == (if Listening() then ShakeAfter(old(enemyShake), out.events) else old(enemyShake))
    {
      var out := apply(Current().sides, c);
      ctxs := ctxs[ctxIdx := ctxs[ctxIdx].(sides := out.sides)];
      log := log + [c];
      if Listening() {
        Deliver(out.events);
      }
    }

    /** Calls made on the current battle context, one after another. */
    method ApplyCalls(calls: seq<Call>)
      requires ctxIdx < |ctxs|
      modifies this`ctxs, this`log, this`notifications, this`enemyShake
      ensures var run := RunCalls(apply, old(Current()).sides, calls);
              && ctxs == old(ctxs)[ctxIdx := old(Current()).(sides := run.sides)]
              && log == old(log) + calls
              && notifications == old(notifications) + Heard(run.events)
              && enemyShake == (if Listening() then ShakeAfter(old(enemyShake), run.events) else old(enemyShake))
      decreases |calls|
    {
      if calls != [] {
        ghost var e0, c0, l0, n0, s0 := Current(), ctxs, log, notifications, enemyShake;
        var init, last := calls[..|calls| - 1], calls[|calls| - 1];
        assert calls == init + [last];
        ApplyCalls(init);
        ghost var run := RunCalls(apply, e0.sides, init);
        ghost var out := apply(run.sides, last);
        ghost var ctxs1 := ctxs;
        ApplyCall(last);
        assert ctxs == c0[ctxIdx := e0.(sides := out.sides)] by {
          assert ctxs1[ctxIdx] == e0.(sides := run.sides);
          assert ctxs == ctxs1[ctxIdx := e0.(sides := out.sides)];
        }
        assert notifications == n0 + Heard(run.events + out.events) by {
          NotesAppend(run.events, out.events);
          AppendAssoc(n0, Heard(run.events), Heard(out.events));
        }
        assert enemyShake == if Listening() then ShakeAfter(s0, run.events + out.events) else s0 by {
          ShakeAfterAppend(s0, run.events, out.events);
        }
        assert log == l0 + calls by {
          AppendAssoc(l0, init, [last]);
        }
      }
    }

    /**
     * execute_ritual: announce the ritual, store its effect, enter the ritual
     * state and start a fresh minigame for the ritual's time.
     */
    method ExecuteRitual(def: RitualDef)
      requires Valid()
      modifies this`scripted, this`successEffect, this`state, ritual
      ensures Valid() && Started(def) && fresh(ritual.minigame)
      ensures scripted == old(scripted) + [ScriptedEvent(SecondsToFrames(1.7), def.name)]
      ensures successEffect == def.effect && state == PlayerRitual
    {
      AddScriptedText(1.7, def.name);
      successEffect := def.effect;
      state := PlayerRitual;
      var m := Make(def);
      ritual.SetAndStart(SecondsToFrames(def.time), m);
    }

    /**
     * The menu entry for a ritual. An attack or utility ritual is cast only
     * when its cost is at most the player's mana, which then drops by exactly
     * the cost; otherwise only "Not enough mana." is shown. A mana ritual is
     * cast without the check.
     */
    method Choose(c: Choice)
      requires Valid() && Offered(c) && c != NoChoice && state == PlayerMenu
      modifies this`ctxs, this`messages, this`scripted, this`successEffect, this`state, ritual
      ensures Valid()
      ensures var def := Chosen(c);
              var mana := GetStat(Mana, old(Current()).sides.player);
              if Accepted(c, mana) then
                && ctxs == (if c.ManaChoice? then old(ctxs) else old(ctxs)[ctxIdx := WithMana(old(Current()), mana - def.reqMana)])
                && state == PlayerRitual && successEffect == def.effect && messages == old(messages)
                && scripted == old(scripted) + [ScriptedEvent(SecondsToFrames(1.7), def.name)]
                && Started(def) && fresh(ritual.minigame)
              else
                && ctxs == old(ctxs) && state == PlayerMenu && messages == old(messages) + [NoManaText]
                && scripted == old(scripted) && successEffect == old(successEffect)
                && ritual.minigame == old(ritual.minigame)
    {
      var def := Chosen(c);
      if c.ManaChoice? {
        ExecuteRitual(def);
      } else {
        var mana := GetStat(Mana, Current().sides.player);
        if def.reqMana <= mana {
          ctxs := ctxs[ctxIdx := WithMana(Current(), mana - def.reqMana)];
          ExecuteRitual(def);
        } else {
          DisplayMessage(NoManaText);
        }
      }
    }

    /** update_menu: the player's choice this frame, if any, through the mana gate. */
    method UpdateMenu(c: Choice)
      requires Valid() && Offered(c) && state == PlayerMenu
      modifies this`ctxs, this`messages, this`scripted, this`successEffect, this`state, ritual
      ensures Valid() && old(messages) <= messages
      ensures var cast := c != NoChoice && Accepted(c, GetStat(Mana, old(Current()).sides.player));
              state == (if cast then PlayerRitual else PlayerMenu) && (cast ==> Started(Chosen(c)))
      ensures c == NoChoice ==>
                && ctxs == old(ctxs) && messages == old(messages) && scripted == old(scripted)
                && successEffect == old(successEffect) && ritual.minigame == old(ritual.minigame)
      ensures c != NoChoice ==>
                var def := Chosen(c);
                var mana := GetStat(Mana, old(Current()).sides.player);
                if Accepted(c, mana) then
                  && ctxs == (if c.ManaChoice? then old(ctxs) else old(ctxs)[ctxIdx := WithMana(old(Current()), mana - def.reqMana)])
                  && successEffect == def.effect && messages == old(messages)
                  && scripted == old(scripted) + [ScriptedEvent(SecondsToFrames(1.7), def.name)]
                  && fresh(ritual.minigame)
                else
                  && ctxs == old(ctxs) && messages == old(messages) + [NoManaText]
                  && scripted == old(scripted) && successEffect == old(successEffect)
                  && ritual.minigame == old(ritual.minigame)
    {
      if c != NoChoice {
        Choose(c);
      }
    }

    /**
     * update_ritual: run the minigame for a frame, then act on its outcome.
     * In progress: nothing more. Failure: shake the application, announce it,
     * and go to the enemy turn with no effect. Success: announce it, apply the
     * stored effect once to the current context, and go to the enemy turn.
     */
    method UpdateRitual(dt: real, p: Pointer)
      requires Valid() && state == PlayerRitual
      modifies this`state, this`scripted, this`appShake, this`ctxs, this`log, this`notifications, this`enemyShake
      modifies ritual.minigame
      ensures Valid() && ritual.Ready()
      ensures ritual.minigame.timeLeft == old(ritual.minigame.timeLeft) - dt
      ensures ritual.minigame.state == InProgress ==>
                && state == PlayerRitual && scripted == old(scripted) && ctxs == old(ctxs) && log == old(log)
                && notifications == old(notifications) && enemyShake == old(enemyShake) && appShake == old(appShake)
      ensures ritual.minigame.state == Failure ==>
                && state == BeforeEnemyTurn && appShake == 40.0
                && scripted == old(scripted) + [ScriptedEvent(SecondsToFrames(1.1), FailureText)]
                && ctxs == old(ctxs) && log == old(log)
                && notifications == old(notifications) && enemyShake == old(enemyShake)
      ensures ritual.minigame.state == Success ==>
                var run := RunCalls(apply, old(Current()).sides, old(successEffect));
                && state == BeforeEnemyTurn
                && scripted == old(scripted) + [ScriptedEvent(SecondsToFrames(1.1), SuccessText)]
                && ctxs == old(ctxs)[ctxIdx := old(Current()).(sides := run.sides)]
                && log == old(log) + old(successEffect)
                && notifications == old(notifications) + Heard(run.events)
                && enemyShake == (if Listening() then ShakeAfter(old(enemyShake), run.events) else old(enemyShake))
                && appShake == old(appShake)
    {
      ritual.Update(dt, p);
      if ritual.IsInProgress() {
      } else if ritual.IsFailure() {
        appShake := 40.0;
        AddScriptedText(1.1, FailureText);
        state := BeforeEnemyTurn;
      } else if ritual.IsSuccess() {
        AddScriptedText(1.1, SuccessText);
        ApplyCalls(successEffect);
        state := BeforeEnemyTurn;
      }
    }

    /** The enemy's AI on the current context, then end_enemy_turn. */
    method RunEnemyTurn()
      requires Valid()
      modifies this`state, this`messages, this`ctxs, this`log, this`notifications, this`enemyShake
      ensures Valid()
      ensures var e := old(Current());
              var a := Decide(e.ai, e.sides.player, e.sides.enemy);
              var run := RunCalls(apply, e.sides, a.calls);
              && state == BeforePlayerTurn
              && messages == old(messages) + [a.message]
              && log == old(log) + a.calls
              && ctxs == old(ctxs)[ctxIdx := e.(sides := run.sides)]
              && notifications == old(notifications) + Heard(run.events)
              && enemyShake == (if Listening() then ShakeAfter(old(enemyShake), run.events) else old(enemyShake))
    {
      var e := Current();
      var a := Decide(e.ai, e.sides.player, e.sides.enemy);
      DisplayMessage(a.message);
      ApplyCalls(a.calls);
      state := BeforePlayerTurn;
    }

    /** update_scripted_events. */
    method UpdateScriptedEvents(dt: real)
      requires Valid() && scripted != []
      modifies this`scripted
      ensures Valid()
      ensures scripted == AdvanceScripted(old(scripted), dt)
    {
      var front := scripted[0].(time := scripted[0].time - dt);
      scripted := Keep([front] + scripted[1..]);
    }

    /** Show every queued notification in one message box, in queue order, and empty the queue. */
    method FlushNotifications()
      modifies this`notifications, this`messages
      ensures notifications == []
      ensures messages == old(messages) + Flushed(old(notifications))
    {
      if notifications != [] {
        var acc := "";
        var i := 0;
        while i < |notifications|
          invariant 0 <= i <= |notifications|
          invariant acc == Joined(notifications[..i])
        {
          assert notifications[..i + 1][..i] == notifications[..i];
          acc := acc + notifications[i] + "\n";
          i := i + 1;
        }
        assert notifications[..i] == notifications;
        DisplayMessage(acc);
        notifications := [];
      }
    }

    /** The before_enemy_turn step: a demon out of health is beaten (success()), otherwise its turn is announced. */
    method CheckEnemy()
      requires Valid() && state == BeforeEnemyTurn
      modifies this`state, this`scripted
      ensures Valid()
      ensures if GetStat(Health, Current().sides.enemy) <= 0.0
              then state == ToNextCtx && scripted == old(scripted)
              else state == EnemyTurn && scripted == old(scripted) + [ScriptedEvent(SecondsToFrames(1.7), EnemyTurnText)]
    {
      if GetStat(Health, Current().sides.enemy) <= 0.0 {
        state := ToNextCtx;
      } else {
        AddScriptedText(1.7, EnemyTurnText);
        state := EnemyTurn;
      }
    }

    /** The before_player_turn step: a player out of health loses (game_over()), otherwise their turn is announced. */
    method CheckPlayer()
      requires Valid() && state == BeforePlayerTurn
      modifies this`state, this`scripted
      ensures Valid()
      ensures if GetStat(Health, Current().sides.player) <= 0.0
              then state == ToGameOver && scripted == old(scripted)
              else state == PlayerMenu && scripted == old(scripted) + [ScriptedEvent(SecondsToFrames(1.7), PlayerTurnText)]
    {
      if GetStat(Health, Current().sides.player) <= 0.0 && state != ToGameOver {
        state := ToGameOver;
      } else {
        AddScriptedText(1.7, PlayerTurnText);
        state := PlayerMenu;
      }
    }

    /**
     * The to_next_ctx step as written: the index moves on first, then the
     * sprite of the new current context is read, then the hard-coded count of
     * four encounters decides between the next demon and the win.
     * `readsPastEnd` says whether that read falls past the last context. With
     * the four contexts the game builds, it does exactly on the frame that
     * shows "You won!".
     */
    method NextContextAsWritten() returns (readsPastEnd: bool)
      requires Valid() && state == ToNextCtx
      modifies this`state, this`ctxIdx, this`messages
      ensures ctxIdx == old(ctxIdx) + 1
      ensures readsPastEnd <==> ctxIdx >= |ctxs|
      ensures if ctxIdx < HardCodedEncounters
              then state == PlayerMenu && messages == old(messages) + [NextDemonText]
              else state == ToNextCtx && messages == old(messages) + [WonText]
      ensures |ctxs| == HardCodedEncounters ==> (messages == old(messages) + [WonText] <==> readsPastEnd)
    {
      ctxIdx := ctxIdx + 1;
      readsPastEnd := ctxIdx >= |ctxs|;
      if ctxIdx < HardCodedEncounters {
        DisplayMessage(NextDemonText);
        assert messages[|messages| - 1] == NextDemonText && NextDemonText[0] != WonText[0];
        state := PlayerMenu;
      } else {
        DisplayMessage(WonText);
      }
    }

    /**
     * The to_next_ctx step as intended: move to the next battle context when
     * there is one and announce the next demon; after the last demon, stay on
     * its context and show the win.
     */
    method NextContext()
      requires Valid() && state == ToNextCtx
      modifies this`state, this`ctxIdx, this`messages
      ensures Valid()
      ensures if old(ctxIdx) + 1 < |ctxs|
              then ctxIdx == old(ctxIdx) + 1 && state == PlayerMenu && messages == old(messages) + [NextDemonText]
              else ctxIdx == old(ctxIdx) && state == ToNextCtx && messages == old(messages) + [WonText]
    {
      if ctxIdx + 1 < |ctxs| {
        ctxIdx := ctxIdx + 1;
        DisplayMessage(NextDemonText);
        state := PlayerMenu;
      } else {
        DisplayMessage(WonText);
      }
    }

    /** The to_game_over step: show "Game over!" and move to game_over. */
    method EnterGameOver()
      requires Valid() && state == ToGameOver
      modifies this`state, this`messages
      ensures Valid() && state == GameOver && messages == old(messages) + [GameOverText]
    {
      state := GameOver;
      DisplayMessage(GameOverText);
    }

    /** The game_over step: the screen pops itself off the screen stack, and stays in game_over. */
    method Leave()
      requires state == GameOver
      modifies this`popped
      ensures popped
    {
      popped := true;
    }

    /** The player_menu and player_ritual branches of the battle_screen_state dispatch. */
    method PlayerStep(dt: real, input: FrameInput)
      requires Valid() && Offered(input.choice) && (state == PlayerMenu || state == PlayerRitual)
      modifies this`state, this`ctxs, this`appShake, this`scripted, this`notifications
      modifies this`enemyShake, this`messages, this`log, this`successEffect
      modifies ritual, ritual.minigame
      ensures Valid()
      ensures old(messages) <= messages
      ensures state == Next(old(state), Observe(old(state), old(Current()), input.choice, MinigameOutcome(), ctxIdx, |ctxs|))
      ensures old(state) == PlayerRitual ==> ritual.minigame == old(ritual.minigame) && ritual.Ready()
    {
      if state == PlayerMenu {
        UpdateMenu(input.choice);
      } else {
        UpdateRitual(dt, input.pointer);
      }
    }

    /** The remaining branches of the dispatch: the enemy turn, the two checks, the next context and the game over. */
    method BattleStep()
      requires Valid() && state != PlayerMenu && state != PlayerRitual
      modifies this`state, this`ctxs, this`ctxIdx, this`notifications
      modifies this`enemyShake, this`messages, this`log, this`popped, this`scripted
      ensures Valid()
      ensures old(messages) <= messages
      ensures state == Next(old(state), Observe(old(state), old(Current()), NoChoice, Invalid, old(ctxIdx), |ctxs|))
      ensures ctxIdx == if old(state) == ToNextCtx && old(ctxIdx) + 1 < |ctxs| then old(ctxIdx) + 1 else old(ctxIdx)
      ensures old(state) == ToGameOver ==> messages == old(messages) + [GameOverText]
      ensures popped <==> old(popped) || old(state) == GameOver
    {
      match state
      case EnemyTurn =>
        RunEnemyTurn();
      case BeforeEnemyTurn =>
        CheckEnemy();
      case BeforePlayerTurn =>
        CheckPlayer();
      case ToNextCtx =>
        NextContext();
      case ToGameOver =>
        EnterGameOver();
      case GameOver =>
        Leave();
    }

    /** The battle_screen_state dispatch at the end of an unblocked frame. */
    method Dispatch(dt: real, input: FrameInput)
      requires Valid() && Offered(input.choice)
      modifies this`state, this`ctxs, this`ctxIdx, this`appShake, this`scripted, this`notifications
      modifies this`enemyShake, this`messages, this`log, this`successEffect, this`popped
      modifies ritual, ritual.minigame
      ensures Valid()
      ensures old(messages) <= messages
      ensures state == Next(old(state), Observe(old(state), old(Current()), input.choice, MinigameOutcome(), old(ctxIdx), |ctxs|))
      ensures ctxIdx == if old(state) == ToNextCtx && old(ctxIdx) + 1 < |ctxs| then old(ctxIdx) + 1 else old(ctxIdx)
      ensures old(state) == PlayerRitual ==> ritual.minigame == old(ritual.minigame) && ritual.Ready()
      ensures old(state) == ToGameOver ==> messages == old(messages) + [GameOverText]
      ensures popped <==> old(popped) || old(state) == GameOver
    {
      if state == PlayerMenu || state == PlayerRitual {
        PlayerStep(dt, input);
      } else {
        BattleStep();
      }
    }

    /**
     * update: one frame. A shaking enemy takes the whole frame; otherwise the
     * shake is cleared and a queued scripted text takes the frame; otherwise
     * the queued notifications are flushed and the state machine runs.
     */
    method Update(dt: real, input: FrameInput)
      requires Valid() && Offered(input.choice)
      modifies this`state, this`ctxs, this`ctxIdx, this`appShake, this`scripted, this`notifications
      modifies this`enemyShake, this`messages, this`log, this`successEffect, this`popped
      modifies ritual, ritual.minigame
      ensures Valid()
      ensures old(enemyShake) > 0.0 ==>
                && enemyShake == old(enemyShake) - dt
                && state == old(state) && ctxIdx == old(ctxIdx) && ctxs == old(ctxs) && log == old(log)
                && scripted == old(scripted) && notifications == old(notifications) && messages == old(messages)
                && Paused()
      ensures old(enemyShake) <= 0.0 && old(scripted) != [] ==>
                && enemyShake == 0.0
                && scripted == AdvanceScripted(old(scripted), dt)
                && state == old(state) && ctxIdx == old(ctxIdx) && ctxs == old(ctxs) && log == old(log)
                && notifications == old(notifications) && messages == old(messages)
                && Paused()
      ensures old(enemyShake) <= 0.0 && old(scripted) == [] ==>
                && old(messages) + Flushed(old(notifications)) <= messages
                && state == Next(old(state), Observe(old(state), old(Current()), input.choice, MinigameOutcome(), old(ctxIdx), |ctxs|))
                && ctxIdx == (if old(state) == ToNextCtx && old(ctxIdx) + 1 < |ctxs| then old(ctxIdx) + 1 else old(ctxIdx))
    {
      if enemyShake > 0.0 {
        enemyShake := enemyShake - dt;
        return;
      } else {
        enemyShake := 0.0;
      }
      if scripted != [] {
        UpdateScriptedEvents(dt);
        return;
      }
      FlushNotifications();
      Dispatch(dt, input);
    }
  }
}
