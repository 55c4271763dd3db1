# Battle orchestration of "ggj2016", modelled in Dafny

This project models the battle core of SuperV1234's Global Game Jam 2016 game.
The player casts rituals. Each ritual is played as a timed minigame, and its
effect lands on the demon only if the minigame succeeds. The demons answer
with a fixed-priority AI. The model covers:

- **Stat records** (`stat.dfy`, module `Stat`). These are seven float slots
  indexed by an enumeration. `get_stat` is a read, a pure write, and an
  in-place write into an array.
- **Battle contexts** (`battle.dfy`, module `Battle`). The mutators of
  `battle_context_t` live in a header that is not part of this model. They
  are an abstract `Mutator`, a function from the two stat records and one call
  to new stat records plus the battle events that call emitted. `RunCalls`
  runs a list of calls in order.
- **Minigames** (`minigames.dfy`, module `Minigames`). These are the base
  countdown, the three variants (symbol, aura and drag) and the ritual context
  that owns the minigame being played.
  - The C++ class hierarchy is one class whose constant `game` tag names the
    variant.
  - Each per-frame update is a method. It is proved against a pure function of
    the old state: `NextHits`, `Shrink`, `Resize` and `DragPass`.
  - Properties are then proved about those functions: unlock order, the
    at-most-one held token, and exactly which tokens get deposited.
  - Pointer geometry becomes per-frame input: the set of hovered shapes, and
    the tokens within capture distance of a target.
- **Rituals** (`rituals.dfy`, module `Rituals`). These are the ritual
  definitions, the factory that builds a fresh minigame, and the six-ritual
  catalog in three pools.
- **Notifications** (`notifications.dfy`, module `Notifications`). This is the
  text the battle screen's event listener queues for each battle event, plus
  the "." appended to every entry. It also covers the enemy-shake value that
  hits on the enemy set, and the message the queue is flushed into.
- **Enemy AI** (`enemy_ai.dfy`, module `EnemyAi`). These are the four demon
  AIs as written. Each is proved to follow one threshold table and one
  priority order.
- **The battle screen** (`battle_screen.dfy`, module `Screen`). This is the
  frame update with its precedence: the enemy shake, then scripted texts, then
  the notification flush, then the `battle_screen_state` machine.
  - The menus with their mana gate, `execute_ritual`, the ritual outcome
    handling, the enemy turn and the scripted-text queue are modelled here.
  - Message boxes are recorded in `messages`, in the order they are pushed.
  - Every call made on a battle context is recorded in `log`.
  - The state a frame leads to is proved equal to a pure transition function,
    `Next`, of what the frame observed.

Stat values are floats in the source. Here they are `real`, so every
comparison is exact. Seconds become frame time at 60 frames a second, as
`ssvu::getSecondsToFT` does.

The screen's listener is subscribed only to the context that is current when
the screen is built (`init_battle`, src/main.cpp:1372-1388). The model keeps
this: events emitted on later contexts queue no notification and shake
nothing (`Screen.BattleScreen.Listening`).

## Model

| member | source | states |
|---|---|---|
| Stat.Index | include/battle/stat.hpp:8-19 | Every stat type's underlying value is a slot below `stat_count` (7). |
| Stat.FromIndex | include/battle/stat.hpp:8-19 | Every slot below 7 belongs to a stat type, and that type's index is the slot (the inverse of `Index`). |
| Stat.IndexIsInjective | include/battle/stat.hpp:8-17 | Distinct stat types have distinct underlying values. |
| Stat.FromIndexOfIndex | include/battle/stat.hpp:8-17 | Going from a stat type to its slot and back gives the same type. |
| Stat.GetStat | include/battle/stat.hpp:27-31 | `get_stat` reads one of the array's own values; the index is always in bounds. |
| Stat.GetStatCoversSlots | include/battle/stat.hpp:25-31 | Each slot of a stat array is read by the stat that owns it, and by no other. |
| Stat.WithStat | include/battle/stat.hpp:27-31 | Writing through the reference `get_stat` returns sets that stat to the value and leaves every other stat unchanged. |
| Stat.WriteStat | include/battle/stat.hpp:27-31 | The in-place write into a seven-slot array leaves exactly the array `WithStat` describes. |
| Battle.RunCallsAppend | src/main.cpp:1141-1147 | Running two lists of mutator calls back to back is running their concatenation: the second starts from the stats the first left, and the events come in order. |
| Notifications.Truncate | src/main.cpp:1238-1250 | The `(int)` cast truncates toward zero: the result lies within one of the value, on zero's side. |
| Notifications.NatToString | src/main.cpp:1212-1228 | `std::to_string` of a natural number is non-empty, all decimal digits, and has no leading zero. |
| Notifications.ParseNatToString | src/main.cpp:1212-1228 | Reading the printed digits back gives the number (a round trip). |
| Notifications.IntToString | src/main.cpp:1212-1228 | The text starts with '-' exactly when the integer is negative. |
| Notifications.ParseIntToString | src/main.cpp:1212-1228 | Printing an integer and reading it back gives the integer. |
| Notifications.Describe | src/main.cpp:1236-1370 | A player event's text starts with "The player ", and every other event's text with "The enemy ". |
| Notifications.Note | src/main.cpp:1231-1234 | A queued entry is the text unchanged, followed by exactly one '.'. |
| Notifications.Notes | src/main.cpp:1236-1370 | A run of events queues exactly one entry per event: entry k is the entry for event k, in event order. |
| Notifications.NotesAppend | src/main.cpp:1236-1370 | The entries for two runs of events are the entries of the first, then those of the second. |
| Notifications.ShakeAfterNoHit | src/main.cpp:1270-1310 | Events that neither damage the enemy nor its shield leave the enemy shake as it was. |
| Notifications.ShakeAfterLastHit | src/main.cpp:1270-1310 | After a run of events, the shake is the one set by the last hit on the enemy (3 times the damage, or 2 times for shield damage), whatever came before it. |
| Notifications.ShakeAfterAppend | src/main.cpp:1270-1310 | The shake after two runs of events is the second run applied to the shake the first left. |
| Notifications.JoinedAppend | src/main.cpp:1435-1442 | The flushed text of two queues is the text of the first followed by that of the second. |
| Notifications.JoinedAt | src/main.cpp:1435-1442 | Each queued entry appears whole in the flushed text, followed by a newline, after all earlier entries and before all later ones. |
| Minigames.TimeoutOutcome | src/main.cpp:68-83 | On timeout, a resist ritual succeeds and a complete ritual fails. |
| Minigames.ClockRunsDown | src/main.cpp:68-83 | Over any sequence of frames, the countdown drops by exactly the total frame time. Once it reaches zero, the state is the kind's timeout outcome, whatever it was before. |
| Minigames.NextHits | src/main.cpp:167-199 | One pass over the symbol points keeps the number of points and never un-hits a point. |
| Minigames.NextHitsAt | src/main.cpp:122-199 | After the pass, point i is hit exactly when it was hit before, or when it is hovered and every earlier point is hit (earlier points may have been hit in the same pass). |
| Minigames.NewHitNeedsPredecessors | src/main.cpp:183-189 | A point newly hit in a frame was hovered, and all its predecessors are hit. |
| Minigames.NextHitsInOrder | src/main.cpp:122-199 | The symbol pass keeps the unlock order: a hit point's predecessors are all hit. |
| Minigames.ShrinkHit | src/main.cpp:192-198 | A hit point's radius never goes negative, and it shrinks by exactly the frame time while it is larger than that time. |
| Minigames.Shrink | src/main.cpp:176-199 | Hit points shrink by `ShrinkHit`, and the other points keep their radius. |
| Minigames.Grow | src/main.cpp:271-277 | A hovered aura zone never exceeds 75, and otherwise grows by 2.78 per unit of frame time. |
| Minigames.Decay | src/main.cpp:278-283 | An unhovered zone never goes below 0, and otherwise decays by 0.74 per unit of frame time. |
| Minigames.Resize | src/main.cpp:262-284 | Every zone is resized in one frame: hovered zones grow, the others decay. |
| Minigames.Release | src/main.cpp:389-392 | Dropping a held token that is already deposited leaves at most one held token, and that token is undeposited. |
| Minigames.TokenStep | src/main.cpp:394-426 | One token's turn keeps the drag state well formed, with the same number of tokens. |
| Minigames.DragPass | src/main.cpp:394-426 | Any prefix of the token loop keeps the drag state well formed. |
| Minigames.DragPassKeepsHeldOk | src/main.cpp:379-432 | The token loop never holds a deposited token, nor more than one token. |
| Minigames.DragPassDeposits | src/main.cpp:394-426 | A token ends the pass deposited exactly when it was deposited before, or it is within capture distance of a target while targets exist; holding plays no part. A newly deposited token has radius 0, and every other token keeps its radius. |
| Minigames.RitualMinigame.constructor | src/main.cpp:45-93 | A new minigame is invalid (not started), holds no shapes and no targets, and holds no token. |
| Minigames.RitualMinigame.AddPoint | src/main.cpp:143-165 | A symbol point appends its shape's radius (2.8 times the point's radius) and an unhit flag. The aura's `add_point` (src/main.cpp:240-251) appends 3.1 times the radius and no flag. |
| Minigames.RitualMinigame.AddTarget | src/main.cpp:352-363 | A drag target adds one target. |
| Minigames.RitualMinigame.AddDraggable | src/main.cpp:365-377 | A drag token appends an undeposited token of radius 21. |
| Minigames.RitualMinigame.Start | src/main.cpp:86-90 | Starting sets the countdown and the in-progress state. |
| Minigames.RitualMinigame.Tick | src/main.cpp:68-83 | The base update lowers the countdown by the frame time, then forces the kind's timeout outcome when the countdown is at or below zero. |
| Minigames.RitualMinigame.UpdateSymbol | src/main.cpp:167-199 | If every point was already hit, the minigame succeeds (overriding a timeout of the same frame) and nothing else changes. Otherwise the hits and radii become `NextHits` and `Shrink` of the old ones, and the unlock order is kept. |
| Minigames.RitualMinigame.PassPoints | src/main.cpp:176-199 | The in-place loop over the points computes exactly `NextHits` and `Shrink`. |
| Minigames.RitualMinigame.UpdateAura | src/main.cpp:253-289 | A lapsed zone (radius below 5) at the start of the frame fails the ritual, even over a timeout success. The aura declares success only through a resist timeout. The radii become `Resize` of the old ones. |
| Minigames.RitualMinigame.UpdateDrag | src/main.cpp:379-432 | The minigame succeeds if every token was already deposited, and otherwise follows the timeout rule. The tokens become `DragPass` of the released old state, and at most one undeposited token is held. |
| Minigames.RitualMinigame.PassTokens | src/main.cpp:394-426 | The in-place loop over the tokens computes exactly `DragPass`. |
| Minigames.RitualMinigame.Update | src/main.cpp:45-93 | The virtual update dispatches on the variant with that variant's full contract. A started minigame never becomes invalid again. |
| Minigames.RitualContext.constructor | src/main.cpp:583-615 | A new ritual context holds no minigame. |
| Minigames.RitualContext.OutcomeQueriesPartition | src/main.cpp:617-633 | Once a minigame is playing, exactly one of `is_in_progress`, `is_failure` and `is_success` answers yes. |
| Minigames.RitualContext.SetAndStart | src/main.cpp:636-641 | The context now owns the given minigame, started with the given time, so `valid()` holds. |
| Minigames.RitualContext.Update | src/main.cpp:643-652 | The owned minigame advances by one frame and stays valid. |
| Rituals.InitialRadii | src/main.cpp:513-560 | A fresh minigame has one radius per point or token. |
| Rituals.InitialHits | src/main.cpp:513-560 | A fresh symbol or drag minigame has one unhit flag per shape, and an aura minigame has none. |
| Rituals.Make | src/main.cpp:513-560 | `make()` returns a fresh, unstarted minigame of the ritual's variant and kind, with its points, targets and tokens added in order. |
| Rituals.AddPoints | src/main.cpp:1653-1811 | The init functions' point loops add one shape per point, scaled by the variant, in order. |
| Rituals.ResistIsAura | src/main.cpp:1653-1811 | In the catalog, the resist rituals are exactly the aura rituals. |
| Rituals.EffectsTargetTheRightSide | src/main.cpp:1653-1811 | Attack rituals act only on the enemy, and utility and mana rituals only on the player. |
| Rituals.ManaPoolIsFree | src/main.cpp:1653-1811 | The mana pool, which the menu casts without a mana check, holds only rituals that cost nothing. |
| Rituals.SafeSetupStartsUndecided | src/main.cpp:513-560 | A setup with points of radius at least 2 starts with no shape hit and no zone lapsed. |
| Rituals.CatalogStartsUndecided | src/main.cpp:1653-1811 | Every catalog ritual has positive time and at least one shape, and starts with nothing hit and no zone lapsed. So only a timeout can decide it on its first frame. |
| EnemyAi.Decide | src/main.cpp:1814-1946 | Each of the four AIs takes the first branch, in the order self-heal, shield-restore, armor-piercing, pounce, whose threshold fires. It shows that branch's message and makes that branch's two calls, both with positive amounts. |
| EnemyAi.BranchesOfTier | src/main.cpp:1814-1946 | Only the third and fourth demons restore their shield, and the first never pierces armor. |
| EnemyAi.HealWinsRegardlessOfPlayer | src/main.cpp:1814-1946 | A demon low enough on health heals whatever the player's stats are. |
| EnemyAi.PounceOnlyWhenNothingElseFires | src/main.cpp:1814-1946 | A demon pounces exactly when none of its other branches' conditions holds. |
| EnemyAi.LaterTiersHealNoLater | src/main.cpp:1814-1946 | Whenever the first demon would heal, every demon would. |
| EnemyAi.FourthRestoresNoLater | src/main.cpp:1872-1946 | Whenever the third demon would restore its shield, the fourth would. |
| EnemyAi.AiNeverHelpsPlayer | src/main.cpp:1814-1946 | No AI heals the player, restores the player's shield, or restores the player's mana. |
| Screen.Keep | src/main.cpp:1200-1203 | The erase-remove step keeps exactly the scripted events with time left, and no others. |
| Screen.KeepAppend | src/main.cpp:1200-1203 | Filtering a concatenation filters each part, in order. |
| Screen.KeepUnexpired | src/main.cpp:1200-1203 | A queue with no expired event is kept whole. |
| Screen.AdvanceOnlyFront | src/main.cpp:1193-1204 | Advancing the scripted queue touches only the front event. It loses the frame time and leaves once its time is used up; the events behind it keep their time and order. |
| Screen.WithMana | src/main.cpp:1016-1021 | Paying mana changes the player's mana stat, and no other stat of either side. |
| Screen.Next | src/main.cpp:1444-1510 | Each `battle_screen_state` is entered exactly through its transitions. The player menu follows a menu frame without a cast, a surviving player's turn check, or a next context. The ritual follows a cast or an ongoing minigame. The enemy turn follows only a check the demon survived, and the player's turn check follows only the enemy turn. The next-context state follows a beaten demon, or stays when no demon follows. The game-over states follow only a dead player or themselves. |
| Screen.BattleScreen.constructor | src/main.cpp:1391-1405 | A new screen starts at the first context's player menu, with "Battle start!" queued for 1.7 s, no enemy shake, no stored effect, and nothing queued or shown. The application's shake is left as the screen finds it. |
| Screen.BattleScreen.Reset | src/main.cpp:881-885 | Reset goes back to the first context's player menu. |
| Screen.BattleScreen.AddScriptedText | src/main.cpp:939-977 | The text is appended to the scripted queue with its time in frames. |
| Screen.BattleScreen.DisplayMessage | src/main.cpp:1067-1076 | One message box is pushed with the text. |
| Screen.BattleScreen.OnEvent | src/main.cpp:1236-1370 | The listener queues the event's entry and updates the shake by that event. |
| Screen.BattleScreen.Deliver | src/main.cpp:1372-1378 | The listener, run on each event in turn, queues `Notes` of the events and leaves `ShakeAfter` of them. |
| Screen.BattleScreen.ApplyCall | src/main.cpp:1372-1378 | One mutator call changes only the current context. It is logged, and what it emits is heard when the listener is subscribed. |
| Screen.BattleScreen.ApplyCalls | src/main.cpp:1141-1147 | A list of calls on the current context has the effect of `RunCalls`: new stats, calls logged in order, and notifications and shake for every emitted event. |
| Screen.BattleScreen.ExecuteRitual | src/main.cpp:992-1001 | Casting announces the ritual's name for 1.7 s, stores its effect, enters the ritual state, and starts a fresh minigame of that ritual for its time in frames. |
| Screen.BattleScreen.Choose | src/main.cpp:1016-1025 | An attack or utility ritual (the utility gate is at src/main.cpp:1048-1057) is cast exactly when its cost is at most the player's mana, which then drops by exactly the cost. Otherwise only "Not enough mana." is shown and nothing else changes. A mana ritual (src/main.cpp:1108-1115) is cast with no check and no cost. |
| Screen.BattleScreen.UpdateMenu | src/main.cpp:1157 | With no choice, nothing changes. A chosen ritual is cast exactly when it passes the mana gate: the chosen ritual's minigame starts, its name is queued, its effect is stored, and for an attack or utility ritual the player's mana drops by exactly the cost. A rejected ritual shows only "Not enough mana." and changes nothing else. |
| Screen.BattleScreen.UpdateRitual | src/main.cpp:1170-1187 | While the minigame is in progress, nothing else changes, neither shake included. On failure, the screen shakes at 40, "Failure!" is queued, no effect is applied, the enemy shake is kept, and the enemy turn follows. On success, "Success!" is queued, the stored effect is applied once to the current context, the enemy shake follows the events it emitted, the screen shake is kept, and the enemy turn follows. |
| Screen.BattleScreen.RunEnemyTurn | src/main.cpp:1452-1456 | The current demon's AI decision is shown and its calls are applied to the current context. The enemy shake is the one the calls' hits on the enemy set (self-damage on its shield included) when the first context listens. The player's turn check follows (`end_enemy_turn`). |
| Screen.BattleScreen.UpdateScriptedEvents | src/main.cpp:1193-1204 | The queue becomes `AdvanceScripted` of the old queue, and every queued event keeps time left. |
| Screen.BattleScreen.FlushNotifications | src/main.cpp:1435-1442 | A non-empty queue is shown as one message box, each entry followed by a newline in queue order, and the queue is emptied. |
| Screen.BattleScreen.CheckEnemy | src/main.cpp:1458-1469 | A demon at or below zero health is beaten (`success()`). Otherwise "Enemy turn!" is queued and the enemy turn follows. |
| Screen.BattleScreen.CheckPlayer | src/main.cpp:1470-1482 | A player at or below zero health loses (`game_over()`). Otherwise "Player turn!" is queued and the player menu follows. |
| Screen.BattleScreen.NextContextAsWritten | src/main.cpp:1483-1500 | As written, the index moves on first, then the new current context is read (`readsPastEnd` says whether that read is past the last context), and then the index is compared with the hard-coded 4: below it, "The next demon approaches..." and the menu; otherwise "You won!". With four contexts, "You won!" is shown exactly when the read is past the end. |
| Screen.BattleScreen.NextContext | src/main.cpp:1483-1500 | As intended: the step moves to the next context and announces the next demon when there is one. After the last demon it stays on that context and shows "You won!". |
| Screen.BattleScreen.EnterGameOver | src/main.cpp:1502-1506 | The to_game_over step shows "Game over!" and moves to game_over. |
| Screen.BattleScreen.Leave | src/main.cpp:1507-1510 | The game_over step pops the screen. |
| Screen.BattleScreen.PlayerStep | src/main.cpp:1444-1451 | The menu and ritual branches step the state machine by `Next` and keep the context index. A ritual frame keeps the installed minigame, which stays started. |
| Screen.BattleScreen.BattleStep | src/main.cpp:1452-1510 | The other six branches step the state machine by `Next`, move the context index only on a beaten demon with another to come, show "Game over!" on to_game_over, and pop the screen exactly on game_over. |
| Screen.BattleScreen.Dispatch | src/main.cpp:1444-1510 | The state after the dispatch is `Next` of what the frame observed. The context index moves only on a beaten demon with another to come. Messages are only ever appended: to_game_over shows exactly "Game over!", and the screen pops itself exactly on a game_over frame. |
| Screen.BattleScreen.Update | src/main.cpp:1407-1511 | A shaking enemy takes the whole frame: only the shake counts down. Otherwise the shake is cleared, and a queued scripted text takes the frame: only the scripted queue advances. In both blocked frames the minigame is paused (its countdown, state, hits, radii, held token and targets are kept), and so are the screen shake, the stored effect and the pop. Otherwise the queued notifications are flushed first, and the state machine steps by `Next`. |

## Left out

- Rendering, sound, music, the menu graphics, the bitmap texts and sprite
  positions (including the dragged token following the pointer) are left out.
  They do not affect the battle's state.
- Geometry is replaced by per-frame inputs. Which shapes are hovered, and which
  tokens are within the capture distance (60) of a target, are given sets.
  Shape positions and the random placement of drag tokens are not modelled.
- The screen stack is not modelled: `msgbox_screen`, the menu screens, their
  "Go back" and "Inspect enemy" entries, and `pop_screen` from a menu. Message
  boxes are recorded in `messages`. A menu's choice is the `Choice` of a frame,
  and only existing catalog entries can be chosen.
- `ritual_maker::desc()` and the float formatting of its mana text are left
  out; the description is kept as the plain string.
- `battle_context_t`, its stats wrappers, `battle_event` and the mutators are
  not part of this model. The mutators are an abstract function, and the
  events are the nine kinds the listener handles.
- Float rounding is not modelled: stats and radii are reals.
- The application's own shake countdown is not modelled; only the value 40 set
  on a failed ritual is.
- The uninitialised `_time_left` before `start_minigame` is not modelled; the
  model starts it at 0.
- Notifications.Truncate: does not model out-of-range float-to-int casts,
  which are undefined behaviour in C++.
- Minigames.RitualContext.Update: states only the countdown and validity; the
  full per-frame effect is the contract of `Minigames.RitualMinigame.Update`,
  which it calls.
- Screen.BattleScreen.Dispatch: states the state machine, the context index,
  the two inline branches (to_game_over and game_over) and that messages are
  only appended. What the other branches do to stats, texts and notifications
  is stated by the methods they call (`UpdateMenu`, `UpdateRitual`,
  `RunEnemyTurn`, `CheckEnemy`, `CheckPlayer`, `NextContext`).
- Screen.BattleScreen.Update: in an unblocked frame, states that the flushed
  message is shown before anything the dispatch shows, rather than listing
  every message.
- The to_next_ctx step of the dispatch uses the corrected
  `Screen.BattleScreen.NextContext` (see Findings). After "You won!" the screen
  stays in to_next_ctx on the last context, as the source's state does.

## Findings

| source | as written | input that shows it | evidently intended | confidence | as-written member | corrected member |
|---|---|---|---|---|---|---|
| src/main.cpp:1483-1500 | The step increments `_ctx_idx`, then reads `curr_bctx()` at the new index to build the enemy sprite, and only then tests the index against 4. | `main` builds exactly four battle contexts (src/main.cpp:2014-2023). Beating the fourth demon moves the index from 3 to 4, and `_ctxs[4]` is read past the end of the vector, on this frame and on every later frame. | Move on, and read the next context, only when another context exists. After the last demon, stay on its context and show "You won!". | high; not executed | Screen.BattleScreen.NextContextAsWritten | Screen.BattleScreen.NextContext |

The as-written member returns `readsPastEnd`, which says whether the read of
the new current context falls past the last context. Its contract shows the
discrepancy: with four contexts, "You won!" is shown exactly when that read is
past the end.
