# CB2: the game room, the headless client and the instruction renderer

CB2 is a two-player collaborative game. A leader, who sees the whole map, sends
text instructions to a follower, who moves through a hexagonal world
collecting sets of cards. This project models four parts of the code and
proves what they promise:

- **The game room of the server** (`server/state.py`). `State` keeps the
  registered actors with their queues of pending moves. For every player it
  also keeps an action history, a sync flag, an objectives flag, a map flag
  and a queue of turn states. It runs the turn rules, validates and
  broadcasts moves, and hands out one message at a time to each player.
  The model has two layers:
  - `RoomModel` describes the room as a value, with one function per
    operation.
  - `RoomState` holds the classes `State` and `Actor`. Their methods update
    the fields in place, with the source's loops, and each is proved to
    compute the matching `RoomModel` function while keeping the room's
    invariant.
  - `TurnRules` holds the turn arithmetic. `RoomInvariant` proves that every
    operation keeps the invariant. `RoomProperties` proves the guarantees
    the room gives its players.
- **The action record** (`server/messages/action.py`): colour equality, the
  censor that hides an invalid selection from the follower, and the `Turn`
  and `Walk` constructors (module `ActionMessages`).
- **The headless Python client** (`py_client/cb2_client.py`):
  - `ClientActions` models the lead, follow and feedback actions and the
    messages they become.
  - `ClientGame` models the client's copy of the game (`Game`): the one-shot
    initial state, the role and turn checks of `step`, and the handling of
    server messages.
  - `ClientConnection` models the connection life cycle (`Cb2Client`), from
    BEGIN through the queue to GAME_STARTED.
- **The instruction renderer** (`server/db_tools/print_instructions.py`): the
  greedy word wrap of `draw_wrapped` and the trajectory of `draw_instruction`
  (module `InstructionLayout`).

The model follows the code as written, including where the code fails:

- `handle_*` on an unknown player raises `KeyError`, modelled as an error
  result.
- `has_pending_messages` raises `KeyError` for a player whose objectives flag
  or turn queue has not been created yet.
- The client's `Game` never sets its `actor` attribute. A movement sent
  through `step` therefore reaches `message_to_server` with `None` and raises
  `AttributeError`.
- A state sync or a live-feedback message reaches code that reads attributes
  `Game` never defines, and raises `AttributeError`.
- The client never clears `queued_messages`, so every `step` sends all the
  pongs queued so far again.

Times are integer milliseconds, passed in as `now`.

The code the room calls but does not define is passed in as the
`Collaborators` value: `HecsCoord.add`, the distance test, `CardSelectAction`,
and the `MapProvider`'s map rendering, dealing of new cards, collision test
and valid-set test (`selected_valid_set`, which alone decides whether the
selected cards are collected and scored). The same goes for the fresh uuid of `handle_objective` and the id from
the id assigner. The four `MapProvider` card queries the room relies on
(`card_by_location`, `set_selected`, `selected_cards`, `remove_card`) are
written out over the board as a list of cards; "## Left out" says what each
one assumes.

## Model

| member | source | states |
|---|---|---|
| ActionMessages.ColorEquals | server/messages/action.py:37-38 | two colours compare equal exactly when they are the same colour |
| ActionMessages.CensorActionForFollower | server/messages/action.py:41-49 | the censored action never has a red border; a red border becomes blue; only the border colour can change; an action without a red border passes unchanged |
| ActionMessages.CensorIdempotent | server/messages/action.py:41-49 | censoring an already censored action changes nothing, whichever follower it is for |
| ActionMessages.NewHecsCoord | server/messages/action.py:75 | a coordinate is built exactly from three coordinates; any other number of them raises `TypeError` |
| ActionMessages.ConstructorsAsWrittenAlwaysRaise | server/messages/action.py:70-93 | `Turn` and `Walk` as written produce no action for any argument: `Turn` raises `TypeError` on its two-coordinate displacement, and `Walk` raises `AttributeError` on the `datetime.timedelta` lookup, on which `Turn` with a three-coordinate displacement fails as well |
| ActionMessages.Turn | server/messages/action.py:70-81 | the caller's actor id and a zero border radius; a rotation in place by the angle, with the rotate animation, no displacement or border, expiring ten seconds after `now` |
| ActionMessages.Walk | server/messages/action.py:83-93 | the caller's actor id and a zero border radius; a walking step by the displacement without rotation or border, expiring ten seconds after `now` |
| ActionMessages.CensorKeepsMoves | server/messages/action.py:41-49 | a follower sees every move built by `Turn` and `Walk` unchanged |
| TurnRules.NextTurn | server/state.py:235-251 | the turn ends iff time is up or it is forced, and then exactly one turn is used up; an ended turn passes to the other role with its full allowance of moves and a new deadline; otherwise the same role keeps its deadline with one move fewer, never below zero; start, sets and score are kept |
| TurnRules.TurnsAlternate | server/state.py:236-242 | ending a turn hands it to the other role, and ending the next one hands it back |
| TurnRules.InitialTurn | server/state.py:59-62 | a game starts with the leader to move, 5 moves, 6 turns, no sets and no score |
| TurnRules.BonusTurns | server/state.py:203-210 | a set earns between 0 and 5 extra turns, and none from the sixth set on |
| TurnRules.CollectSet | server/state.py:211-218 | a collected set adds one set, one point and the bonus turns for the sets before it, and changes nothing else |
| TurnRules.CollectSets | server/state.py:200-219 | collecting k sets adds k sets and k points |
| TurnRules.TotalBonusValues | server/state.py:203-210 | the first 1 to 5 sets of a game earn 5, 9, 13, 16 and 19 bonus turns in total, and the total never exceeds 19 |
| TurnRules.CollectSetsTurns | server/state.py:200-219 | from the start of a game, k sets add exactly that cumulative bonus to the turns left and leave the turn and moves alone |
| RoomModel.ActorView.AddAction | server/state.py:529-530 | the action joins the back of the queue and nothing else changes |
| RoomModel.ActorView.Step | server/state.py:549-555 | without actions nothing changes; otherwise the head action is consumed and the actor moves by its displacement and turns by its rotation, keeping its id, asset and role |
| RoomModel.ActorView.Drop | server/state.py:557-561 | without actions nothing changes; otherwise only the head action is removed |
| RoomModel.AppendEach | server/state.py:77-81 | every listed id ends up with a queue, and no other queue appears |
| RoomModel.SetEach | server/state.py:374-377 | every listed id ends up with a flag, and no other flag appears |
| RoomModel.Without | server/state.py:356-357 | the actor order without the removed id holds exactly the other ids, still without duplicates |
| RoomModel.CardAt | server/state.py:266-268 | a card is found only if it lies at the location; no card is found only when none does |
| RoomModel.SetSelected | server/state.py:273-275 | the cards with the given id get the new selection flag, and every other card is unchanged |
| RoomModel.SelectedCards | server/state.py:179 | the selected cards are exactly the cards on the board that are selected |
| RoomModel.RemoveCard | server/state.py:226 | the board keeps exactly the cards with another id |
| RoomModel.CardSelects | server/state.py:186-189 | one outline action per card, in the order of the cards |
| RoomModel.Room.RecordTurnState | server/state.py:73-81 | the new turn state becomes current; only the turn queues change, and every registered actor has one |
| RoomModel.Room.DrainTurnState | server/state.py:83-90 | nothing is handed out iff the player's queue is missing or empty; otherwise the oldest turn state is handed out and removed; only that player's queue changes, and the queue exists afterwards |
| RoomModel.Room.RecordAction | server/state.py:96-102 | only the action histories change, and every registered actor has one |
| RoomModel.Room.RecordActions | server/state.py:186-189 | only the action histories change, and none disappears |
| RoomModel.Room.EndTurnIfOver | server/state.py:235-251 | the turn state becomes `NextTurn` of the old one; only the turn state and the turn queues change |
| RoomModel.Room.DesyncAll | server/state.py:374-377 | only the sync flags change, and every registered actor has one |
| RoomModel.Room.DropActor | server/state.py:156 | only the dropping actor changes |
| RoomModel.Room.DropAndDesync | server/state.py:156-157 | the actor loses its head action and is marked unsynced; nothing else changes |
| RoomModel.Room.StepActor | server/state.py:168 | only the stepping actor changes |
| RoomModel.Room.SteppedOnCards | server/state.py:265-277 | only the board and the action histories change, and no history disappears |
| RoomModel.Room.DispatchActor | server/state.py:150-177 | the turn state stays a running turn, the actor order is kept, and only the dispatched actor changes |
| RoomModel.Room.ExecuteAction | server/state.py:167-172 | the executing actor takes its step and no other actor changes |
| RoomModel.Room.DispatchAll | server/state.py:150-177 | the actor loop keeps the set of actors, their order and a running turn |
| RoomModel.Room.DispatchAllNext | server/state.py:150 | the actor loop dispatches each actor after the ones before it in insertion order |
| RoomModel.Room.RefreshTick | server/state.py:135-144 | only the tick time and the turn queues change |
| RoomModel.Room.TurnTimeout | server/state.py:146-147 | only the turn state and the turn queues change, and the turn state stays a running turn |
| RoomModel.Room.HighlightSelection | server/state.py:179-198 | the selection becomes invalid exactly when the selected cards collide; the cards changed exactly when that flag flips; only the action histories change |
| RoomModel.Room.ClearCard | server/state.py:222-226 | only the board and the action histories change |
| RoomModel.Room.ClearCards | server/state.py:222-226 | only the board and the action histories change |
| RoomModel.Room.CollectValidSet | server/state.py:200-227 | the turn state becomes `CollectSet` of the old one; only the board, the histories and the turn queues change besides |
| RoomModel.Room.MarkMapStale | server/state.py:229-233 | the map is re-rendered from the board and every registered actor gets a map flag |
| RoomModel.Room.EndGame | server/state.py:125-132 | the room is done and the game-over state names no role, has no moves, and carries the game's start, sets and score |
| RoomModel.Room.Register | server/state.py:347-350 | the new actor is filed, with an empty action history and a cleared sync flag |
| RoomModel.Room.Enroll | server/state.py:348 | a new id goes to the end of the actor order; a known id keeps its place |
| RoomModel.Room.CreateActor | server/state.py:344-353 | the new actor has the requested role and no actions, its history is empty, and no other actor changes |
| RoomModel.Room.PopSpawnPoint | server/state.py:345 | the last spawn point is taken when there is one; otherwise the origin, with the room unchanged |
| RoomModel.Room.FreeActor | server/state.py:355-366 | the actor, its action history, its objectives flag and its turn queue are gone; the map flags stay |
| RoomModel.Room.Forget | server/state.py:356-363 | exactly the actor, its history, its objectives flag and its turn queue are deleted, and its id leaves the order |
| RoomModel.Room.Unenroll | server/state.py:356-357 | exactly the actor is deleted, and its id leaves the order |
| RoomModel.Room.IsSynced | server/state.py:379-380 | the sync flag of a known player; a `KeyError` exactly for an unknown one |
| RoomModel.Room.DrainActions | server/state.py:442-450 | hands out the player's whole action history and leaves it empty; nothing for an unknown player |
| RoomModel.Room.DrainObjectives | server/state.py:452-462 | hands out the objectives unless they are fresh for the player, an unknown player counting as stale; afterwards they are fresh |
| RoomModel.Room.DrainMapUpdate | server/state.py:464-474 | hands out the map unless it is fresh for the player, an unknown player counting as stale; afterwards it is fresh |
| RoomModel.Room.DrainQueued | server/state.py:418-440 | for a synced player, its pending actions go out first, then the objectives when they are stale for it and not empty, then its oldest turn state, which leaves its queue; nothing goes out exactly when none of these is pending |
| RoomModel.Room.StateSyncFor | server/state.py:478-483 | the sync counts the actors and lists each actor's state in insertion order |
| RoomModel.Room.CardinalityOfOrder | server/state.py:483 | in a valid room the population equals the length of the actor list |
| RoomModel.Room.SyncMessageForTransmission | server/state.py:488-494 | the player is marked synced and gets the state sync addressed to it |
| RoomModel.Room.QueueAction | server/state.py:308 | only the acting actor changes |
| RoomModel.CompleteFirst | server/state.py:328-332 | the list keeps its length and only completion flags can change |
| RoomModel.CompleteFirstAt | server/state.py:328-332 | exactly the first objective with the uuid is marked completed; without one nothing changes |
| RoomModel.InitialRoom | server/state.py:31-68 | a new room is valid, has no actors, is not done, and starts with the initial turn state |
| RoomState.Actor.constructor | server/state.py:509-515 | a new actor stands at its spawn point with heading 0 and nothing queued |
| RoomState.Actor.AddAction | server/state.py:529-530 | the actor's value becomes `ActorView.AddAction` of the old one |
| RoomState.Actor.Peek | server/state.py:545-547 | returns the head action, which stays queued |
| RoomState.Actor.Step | server/state.py:549-555 | the actor's value becomes `ActorView.Step` of the old one |
| RoomState.Actor.Drop | server/state.py:557-561 | the actor's value becomes `ActorView.Drop` of the old one |
| RoomState.AppendToEach | server/state.py:77-81 | the loop computes `AppendEach` |
| RoomState.SetForEach | server/state.py:374-377 | the loop computes `SetEach` |
| RoomState.CompleteFirstLoop | server/state.py:328-332 | the loop with `break` computes `CompleteFirst` |
| RoomState.State.constructor | server/state.py:31-68 | a new state is valid and holds `InitialRoom` |
| RoomState.State.RecordTurnState | server/state.py:73-81 | keeps the room valid and performs `Room.RecordTurnState` |
| RoomState.State.DrainTurnState | server/state.py:83-90 | keeps the room valid and performs and returns `Room.DrainTurnState` |
| RoomState.State.RecordAction | server/state.py:96-102 | keeps the room valid and performs `Room.RecordAction` |
| RoomState.State.EndTurnIfOver | server/state.py:235-251 | keeps the room valid and performs `Room.EndTurnIfOver` |
| RoomState.State.Desync | server/state.py:371-372 | keeps the room valid and clears only the player's sync flag |
| RoomState.State.DesyncAll | server/state.py:374-377 | keeps the room valid and performs `Room.DesyncAll` |
| RoomState.State.CheckForSteppedOnCards | server/state.py:265-277 | keeps the room valid and performs `Room.SteppedOnCards` |
| RoomState.State.RejectAction | server/state.py:155-166 | keeps the room valid and performs `Room.DropAndDesync` |
| RoomState.State.DropActor | server/state.py:156 | keeps the room valid and performs `Room.DropActor` |
| RoomState.State.StepActor | server/state.py:168 | keeps the room valid and performs `Room.StepActor` |
| RoomState.State.ExecuteAction | server/state.py:167-172 | keeps the room valid and performs `Room.ExecuteAction` |
| RoomState.State.DispatchActor | server/state.py:150-177 | keeps the room valid and performs `Room.DispatchActor` |
| RoomState.State.DispatchNext | server/state.py:150-177 | dispatching the next actor extends the loop's `DispatchAll` by one actor |
| RoomState.State.DispatchActors | server/state.py:150-177 | the actor loop keeps the room valid and performs `Room.DispatchAll` over the insertion order |
| RoomState.State.RefreshTick | server/state.py:135-144 | keeps the room valid and performs `Room.RefreshTick` |
| RoomState.State.TurnTimeout | server/state.py:146-147 | keeps the room valid and performs `Room.TurnTimeout` |
| RoomState.State.OutlineCards | server/state.py:186-189 | the loop broadcasts one outline per selected card, in order |
| RoomState.State.HighlightSelection | server/state.py:179-198 | keeps the room valid and performs and returns `Room.HighlightSelection` |
| RoomState.State.ClearCard | server/state.py:222-226 | keeps the room valid and performs `Room.ClearCard` |
| RoomState.State.ClearCards | server/state.py:222-226 | keeps the room valid and performs `Room.ClearCards` |
| RoomState.State.CollectValidSet | server/state.py:200-227 | keeps the room valid and performs `Room.CollectValidSet` |
| RoomState.State.MarkMapStale | server/state.py:229-233 | keeps the room valid and performs `Room.MarkMapStale` |
| RoomState.State.Update | server/state.py:113-233 | one iteration of the update loop keeps the room valid and performs `Room.UpdateStep` |
| RoomState.State.EndGame | server/state.py:125-132 | keeps the room valid and performs `Room.EndGame` |
| RoomState.State.Play | server/state.py:134-233 | keeps the room valid and performs `Room.Play` |
| RoomState.State.SettleSelection | server/state.py:179-233 | keeps the room valid and performs `Room.SettleSelection` |
| RoomState.State.HandleAction | server/state.py:303-308 | keeps the room valid and performs and returns `Room.HandleAction` |
| RoomState.State.QueueAction | server/state.py:308 | keeps the room valid and performs `Room.QueueAction` |
| RoomState.State.HandleActions | server/state.py:280-284 | the loop over a packet's actions keeps the room valid and performs `Room.HandleActions` |
| RoomState.State.HandleObjective | server/state.py:310-320 | keeps the room valid and performs and returns `Room.HandleObjective` |
| RoomState.State.HandleObjectiveComplete | server/state.py:322-334 | keeps the room valid and performs and returns `Room.HandleObjectiveComplete` |
| RoomState.State.PublishObjectives | server/state.py:318-320 | keeps the room valid; the objectives become the new list and every registered actor's objectives flag is set, with nothing else changed |
| RoomState.State.HandleTurnComplete | server/state.py:336-342 | keeps the room valid and performs and returns `Room.HandleTurnComplete` |
| RoomState.State.HandlePacket | server/state.py:279-301 | keeps the room valid and performs and returns `Room.HandlePacket` |
| RoomState.State.CreateActor | server/state.py:344-353 | files a fresh actor object under the new id, returns that id, keeps the room valid and performs `Room.CreateActor` |
| RoomState.State.PopSpawnPoint | server/state.py:345 | keeps the room valid and performs and returns `Room.PopSpawnPoint` |
| RoomState.State.Register | server/state.py:347-350 | files the actor object, keeps the room valid and performs `Room.Register` |
| RoomState.State.OpenQueues | server/state.py:349-350 | keeps the room valid; only the player's action history, now empty, and its cleared sync flag change |
| RoomState.State.Enroll | server/state.py:348 | files the actor object, keeps the room valid and performs `Room.Enroll` |
| RoomState.State.FreeActor | server/state.py:355-366 | keeps the room valid and performs `Room.FreeActor` |
| RoomState.State.Forget | server/state.py:356-363 | keeps the room valid and performs `Room.Forget` |
| RoomState.State.Unenroll | server/state.py:356-357 | keeps the room valid, removes the actor and performs `Room.Unenroll` |
| RoomState.State.CloseQueues | server/state.py:358-363 | keeps the room valid and deletes only the player's history, objectives flag and turn queue |
| RoomState.State.IsSynced | server/state.py:379-380 | returns `Room.IsSynced` |
| RoomState.State.HasPendingMessages | server/state.py:388-398 | the loop over the actors returns `Room.HasPendingMessages` |
| RoomState.State.DrainActions | server/state.py:442-450 | keeps the room valid and performs and returns `Room.DrainActions` |
| RoomState.State.DrainObjectives | server/state.py:452-462 | keeps the room valid and performs and returns `Room.DrainObjectives` |
| RoomState.State.DrainMapUpdate | server/state.py:464-474 | keeps the room valid and performs and returns `Room.DrainMapUpdate` |
| RoomState.State.StateSyncFor | server/state.py:478-483 | the loop over the actors returns `Room.StateSyncFor` |
| RoomState.State.SyncMessageForTransmission | server/state.py:488-494 | keeps the room valid and performs and returns `Room.SyncMessageForTransmission` |
| RoomState.State.DrainMessage | server/state.py:400-440 | keeps the room valid and performs and returns `Room.DrainMessage`, whose priority order (map, state sync, actions, objectives, turn states) `StaleMapComesFirst`, `DesyncedPlayerGetsStateSync` and `SyncedPlayerDrainsInPriorityOrder` state |
| RoomState.State.DrainQueued | server/state.py:418-440 | keeps the room valid and performs and returns `Room.DrainQueued`: the player's actions first, then stale non-empty objectives, then its oldest turn state, and `None` exactly when none is pending |
| RoomState.EnrollConsistent | server/state.py:348 | filing a new actor object under its own id keeps the state consistent |
| RoomState.UnenrollConsistent | server/state.py:357 | deleting an actor keeps the state consistent |
| RoomInvariant.DispatchActorKeepsValid | server/state.py:150-177 | one iteration of the actor loop keeps the room valid, whether it rejects or executes |
| RoomInvariant.DispatchAllKeepsValid | server/state.py:150-177 | the whole actor loop keeps the room valid |
| RoomInvariant.UpdateStepKeepsValid | server/state.py:113-233 | a valid room that is not done has a running turn, and one update iteration keeps it valid |
| RoomInvariant.PlayKeepsValid | server/state.py:134-233 | a step of a game in progress keeps the room valid |
| RoomInvariant.SettleSelectionKeepsValid | server/state.py:179-233 | the card selection part of the update keeps the room valid |
| RoomInvariant.CreateActorKeepsValid | server/state.py:344-353 | creating an actor keeps the room valid, even when the id is already in use |
| RoomInvariant.RegisterKeepsValid | server/state.py:347-350 | registering an actor under its own id keeps the room valid |
| RoomInvariant.EnrollKeepsValid | server/state.py:348 | filing an actor whose queues exist keeps the room valid |
| RoomInvariant.FreeActorKeepsValid | server/state.py:355-366 | freeing an actor keeps the room valid |
| RoomInvariant.HandleActionsKeepsValid | server/state.py:280-284 | queuing a packet's actions keeps the room valid |
| RoomInvariant.HandlePacketKeepsValid | server/state.py:279-301 | every packet a player can send keeps the room valid |
| RoomInvariant.DrainMessageKeepsValid | server/state.py:400-440 | draining a message keeps the room valid |
| RoomInvariant.DrainQueuedKeepsValid | server/state.py:418-440 | draining the queues of a synced player keeps the room valid |
| RoomProperties.AppendEachQueues | server/state.py:77-81 | each listed queue gets the item once at its back, a missing queue is created, and every other queue is untouched |
| RoomProperties.SetEachFlags | server/state.py:374-377 | each listed flag gets the value and every other flag is untouched |
| RoomProperties.RecordTurnStateQueues | server/state.py:73-81 | every registered player's turn queue gets the new turn state once, at its back |
| RoomProperties.RecordActionQueues | server/state.py:96-102 | every registered player's history gets the action once, at its back |
| RoomProperties.TurnStatesFirstInFirstOut | server/state.py:73-90 | after a new turn state is recorded, draining yields the oldest queued one, or the new one when none was queued |
| RoomProperties.DrainTwiceYieldsNothing | server/state.py:442-474 | a second drain of actions, objectives or the map right after the first hands out nothing |
| RoomProperties.StaleMapComesFirst | server/state.py:405-409 | a player whose map is stale gets the map before anything else |
| RoomProperties.DesyncedPlayerGetsStateSync | server/state.py:411-416 | an unsynced player with a fresh map gets the state sync and is synced afterwards |
| RoomProperties.SyncedPlayerDrainsInPriorityOrder | server/state.py:418-437 | a synced player with a fresh map gets its pending actions first, then the objectives when they are stale and not empty, then its oldest queued turn state |
| RoomProperties.NothingToSendMeansNothingLeft | server/state.py:400-440 | when nothing is sent, the player's map is fresh, it is synced, and its history, objectives flag and turn queue are clear |
| RoomProperties.PendingFromAnswers | server/state.py:388-398 | the loop answers whether some player has something pending when every player has its queues, and raises only when one lacks a queue |
| RoomProperties.HasPendingMessagesAnswers | server/state.py:388-398 | `has_pending_messages` answers the same question over the registered players |
| RoomProperties.DispatchRejects | server/state.py:150-177 | a move out of turn, with no moves left, or invalid is dropped and its actor desynced; the actor does not move and turn, histories and board stay |
| RoomProperties.SteppedOnCardsAppends | server/state.py:265-277 | checking for a stepped-on card only appends to the players' histories |
| RoomProperties.DispatchAccepts | server/state.py:167-172 | a valid move by the player whose turn it is, with moves left, is executed and counted with `NextTurn`, sync flags stay, and every player is sent the move next |
| RoomProperties.HandleActionOwnOnly | server/state.py:303-308 | an action with another id only desyncs the sender; the sender's own action is queued on it alone; an unknown sender raises `KeyError` |
| RoomProperties.HandleActionsQueuesAll | server/state.py:280-284 | a packet of the player's own actions queues them all, in order, behind the ones already queued |
| RoomProperties.OnlyLeaderSetsObjectives | server/state.py:310-320 | only a leader's objective is added, at the back with the fresh uuid, and then every player's objectives are stale |
| RoomProperties.OnlyFollowerCompletesObjectives | server/state.py:322-334 | only a follower completes an objective, exactly the first one with the uuid, and then every player's objectives are stale |
| RoomProperties.OnlyCurrentPlayerEndsTurn | server/state.py:336-342 | only the player whose turn it is ends it; the turn passes to the other role with full moves and one turn fewer |
| RoomProperties.TurnCompleteAfterGameOverIsIgnored | server/state.py:336-342 | once the game has ended, a leader or follower who ends the turn changes nothing, since the game-over state names no role |
| RoomProperties.StateSyncCountsEveryone | server/state.py:478-483 | a state sync counts every registered actor and lists each one once, in insertion order |
| RoomProperties.CollectingASetScores | server/state.py:200-219 | a collected set scores one point and adds the bonus turns for the sets collected before it |
| ClientActions.NewLeadAction | py_client/cb2_client.py:61-67 | a lead action is built iff it is not SEND_INSTRUCTION or its instruction is text or bytes; a missing instruction fails the assertion, any other object raises `TypeError` |
| ClientActions.NewFollowAction | py_client/cb2_client.py:123-126 | a follow action is built iff it is not INSTRUCTION_DONE or it has a uuid; otherwise the assertion fails |
| ClientActions.FeedbackReply | py_client/cb2_client.py:103-111 | a message goes out exactly for positive or negative feedback and is that feedback; a reason is given exactly for MAX |
| ClientActions.LeadReplyCases | py_client/cb2_client.py:69-91 | a lead action fails only for a move without an actor; it sends a message exactly when it gives no reason, and nothing only for NONE and MAX; a move sends the one action the actor built |
| ClientActions.FollowReplyCases | py_client/cb2_client.py:128-146 | the same for follow actions |
| ClientActions.MovesCarryActorId | py_client/cb2_client.py:69-91 | with builders that stamp the actor's id, every move sent and queued carries the id of the actor it was built on |
| ClientActions.LocalActor.constructor | py_client/cb2_client.py:255 | a new client actor has the given id, role, location and heading, and nothing queued |
| ClientActions.LocalActor.AddAction | py_client/cb2_client.py:89 | the action joins the back of the actor's queue |
| ClientActions.LeadMessageToServer | py_client/cb2_client.py:69-91 | answers `LeadReply` for the actor's pose; the actor gets exactly the sent moves queued, and its pose does not change |
| ClientActions.FollowMessageToServer | py_client/cb2_client.py:128-146 | answers `FollowReply` for the actor's pose; the actor gets exactly the sent moves queued, and its pose does not change |
| ClientActions.Queue | py_client/cb2_client.py:88-91 | builds the move, queues it on the actor and sends it; fails when there is no actor |
| ClientActions.ActionMessageToServer | py_client/cb2_client.py:213 | answers `ActionReply` for whichever action; the actor gets exactly the sent moves queued |
| ClientGame.TurnOf | py_client/cb2_client.py:201 | the turn is known exactly when a turn state has arrived, and is that state's turn; before that, reading it raises `AttributeError` |
| ClientGame.StepCheckAllows | py_client/cb2_client.py:198-212 | `step` goes ahead iff the action is allowed for the player's role in the current turn; once a turn state has arrived it refuses only with `ValueError`, and a game-over state refuses everything; the wrong role always gets `ValueError`, and the right role before any turn state gets `AttributeError` |
| ClientGame.CanAct | py_client/cb2_client.py:227-230 | a known turn says whether the player may act, which a leader always may; an unknown turn raises |
| ClientGame.AllowedPlayerCanAct | py_client/cb2_client.py:198-230 | an action `step` lets through is one the player may act on |
| ClientGame.ActionsFor | py_client/cb2_client.py:281-288 | the actions picked for an actor are among the received ones and carry its id |
| ClientGame.DeliverAppends | py_client/cb2_client.py:280-288 | after an actions message every known actor but the player has its own actions appended in order; the player's queue and the known actors stay |
| ClientGame.Arrivals | py_client/cb2_client.py:254-255 | a state sync brings exactly the actors it names |
| ClientGame.Game.constructor | py_client/cb2_client.py:164-176 | a new game has no state, no actors, no turn, no player and nothing queued |
| ClientGame.Game.InitialState | py_client/cb2_client.py:181-189 | the state is handed out once, the first time it is asked for after initialisation, and never before |
| ClientGame.Game.Initialize | py_client/cb2_client.py:246-257 | a first call takes over the map, props, turn state, player and a new actor per actor of the sync; a later call changes nothing |
| ClientGame.Game.TakeOver | py_client/cb2_client.py:250-257 | the map, props, turn state and player are taken over and the initial state is ready |
| ClientGame.Game.AddArrivals | py_client/cb2_client.py:254-255 | the loop files a new actor for each actor of the sync, later entries overriding earlier ones |
| ClientGame.Game.HandleMessage | py_client/cb2_client.py:279-303 | fails exactly on a state sync or live feedback; actions are delivered; turn state, map and objectives are replaced by their messages; a ping queues a pong; no actor moves |
| ClientGame.Game.DeliverActions | py_client/cb2_client.py:280-288 | the loop over an actions message performs `Deliver`, and no actor moves |
| ClientGame.Game.Step | py_client/cb2_client.py:191-217 | a refused action sends nothing; an accepted one sends its message, if any, then every queued message; a failed reply sends nothing |
| ClientConnection.WaitOn | py_client/cb2_client.py:446-449 | the wait always ends: it returns, or raises when a receive times out, and it returns "Timed out waiting for game" when the events run out |
| ClientConnection.ReceiveMoves | py_client/cb2_client.py:446-486 | one event keeps the client waiting or ends the wait: a game starts only with the whole initial state; being booted returns to CONNECTED; a closed socket ends it in place; a receive that times out, and only that, raises `TimeoutError` in place |
| ClientConnection.WaitOnEnds | py_client/cb2_client.py:423-486 | a game is joined exactly when the client is in GAME_STARTED, holding all four parts; a failed wait leaves it waiting or, booted, in CONNECTED; the wait raises only `TimeoutError`, after a receive timed out |
| ClientConnection.StartNeedsAdmission | py_client/cb2_client.py:462-486 | a client in the queue joins a game only after a join response admitted it |
| ClientConnection.Cb2Client.constructor | py_client/cb2_client.py:317-320 | a new client is in BEGIN with no socket, no game and no player |
| ClientConnection.Cb2Client.Connect | py_client/cb2_client.py:330-346 | connects exactly from BEGIN, then in CONNECTED; otherwise nothing changes and the reason is given |
| ClientConnection.Cb2Client.Reset | py_client/cb2_client.py:348-364 | from any state, back to BEGIN with no socket, game or player |
| ClientConnection.Cb2Client.JoinQueue | py_client/cb2_client.py:408-421 | joins exactly from CONNECTED or GAME_OVER with a known queue type, sending its join message; otherwise nothing is sent, the state stays and the reason names the state or the queue type |
| ClientConnection.Cb2Client.WaitForGame | py_client/cb2_client.py:423-486 | outside the queue it refuses and changes nothing; in the queue the state moves as `WaitOn` says, it returns or raises as `WaitOn` ends, a started game is a new valid `Game` whose initial state is not yet retrieved, holding the map, props, turn state, player id and role that arrived and exactly the actors of the state sync, and otherwise the game stays as it was |
| ClientConnection.Cb2Client.JoinGame | py_client/cb2_client.py:375-395 | succeeds iff the queue can be joined and the wait admits the player, and then returns the new valid game in GAME_STARTED, initialised and with its initial state not yet retrieved; joining the queue sends its join message and leaves the state where the wait ended; otherwise nothing is sent and the state stays; a failure keeps the old game and is `TimeoutError` exactly when a receive timed out, an assertion failure otherwise |
| InstructionLayout.JoinSplit | server/db_tools/print_instructions.py:43 | splitting on spaces and joining with spaces gives back the text |
| InstructionLayout.SplitJoin | server/db_tools/print_instructions.py:43 | joining words without spaces and splitting again gives back the words |
| InstructionLayout.SplitHasNoSpaces | server/db_tools/print_instructions.py:43 | no word of a split holds a space |
| InstructionLayout.WrapFrom | server/db_tools/print_instructions.py:46-52 | the wrap adds one line per break to the finished lines and keeps them as they were |
| InstructionLayout.Lines | server/db_tools/print_instructions.py:51-52 | one line per group, each its words joined by spaces |
| InstructionLayout.GroupsNonEmpty | server/db_tools/print_instructions.py:46-52 | every line holds at least one word |
| InstructionLayout.WrapKeepsWords | server/db_tools/print_instructions.py:46-52 | the lines hold every word once and in order |
| InstructionLayout.WrapShape | server/db_tools/print_instructions.py:46-52 | the greedy wrap is well wrapped: a line with more than one word fits in the width plus one, and each line break is where the next word would not fit |
| InstructionLayout.WellWrappedGrow | server/db_tools/print_instructions.py:50-51 | a word that fits keeps the lines well wrapped |
| InstructionLayout.WellWrappedBreak | server/db_tools/print_instructions.py:47-49 | a word that does not fit starts a line and keeps the lines well wrapped |
| InstructionLayout.WrapProperties | server/db_tools/print_instructions.py:42-52 | the wrap of any text has at least one line, holds the text's words in order after an empty first word, and is well wrapped |
| InstructionLayout.WrapLines | server/db_tools/print_instructions.py:42-52 | the loop builds exactly the lines of `Wrap` |
| InstructionLayout.Trajectory | server/db_tools/print_instructions.py:60-63 | one point per move where it started, then where the last one ended; no points without moves |
| InstructionLayout.QuotedText | server/db_tools/print_instructions.py:66 | the wrapped text is the instruction between two double quotes |

## Left out

- Logging, the websocket and HTTP session, `asyncio`, `pygame` rendering, image files, and the database queries of `print_instructions.py` are left out: they are I/O.
- `IdAssigner`, `uuid4`, `random.shuffle`, `HecsCoord.add` and the `MapProvider`'s `map`, `add_random_cards`, `selected_cards_collide` and `selected_valid_set` are parameters. Their code is not part of this model.
- `RoomModel.CardAt`: `MapProvider.card_by_location` is not part of this model; it is assumed to return the first card of the board at the location, or `None`.
- `RoomModel.SetSelected`: `MapProvider.set_selected` is not part of this model; it is assumed to change the flag of every card with the id and nothing else.
- `RoomModel.SelectedCards`: `MapProvider.selected_cards` is not part of this model; it is assumed to list the selected cards in board order.
- `RoomModel.RemoveCard`: `MapProvider.remove_card` is not part of this model; it is assumed to remove every card with the id and keep the others in order.
- `RoomModel.Room.EndGame`: messages/turn_state.py is not part of this model. `GameOverMessage` is assumed to build a turn state like any other, with no role to play, no moves, -1 turns left, the current time as its turn end and the game-over mark. The client reads `turn` and `game_over` on the same turn state, which supports this. `handle_turn_complete` and the client's `step` compare the player's role with that turn.
- Python floats (an action's colour channels, `rotation`, `border_radius` and `duration_s`, an actor's heading, a state sync's `rotation_degrees`) are modelled as `real`: there is no rounding, no NaN and no infinity, so the equality tests and the additions of headings are exact.
- `RoomModel.ValidAction`: the distance test of `valid_action` is a floating-point square root over `HecsCoord.cartesian`, so it is the parameter `withinReach`. Only the 60.01-degree rotation limit is written out.
- `RoomState.State.Update`: one iteration reads the clock once, as `now`. The source calls `datetime.now()` separately for the tick, the timeout and the turn end. The sleep and the slow-poll warning are left out.
- `State.is_synced_all` is not modelled. It calls `self.synced`, which does not exist, and nothing in the core calls it.
- `State.map`, `cards`, `done`, `turn_state`, `calculate_score`, `selected_cards`, `get_actor` and the `Actor` getters are not modelled separately: they only read one field or call the map provider.
- `ClientGame.Game.Step`: the model stops after the messages are sent. The `_wait_for_tick` loop, which depends on the network, and the returned `_state()` are left out.
- `ClientConnection.Cb2Client.WaitForGame`: wall-clock time is not modelled. A `ws.receive` that runs out of the remaining time is the event `ReceiveTimeout`, which raises `TimeoutError` (aiohttp raises `asyncio.TimeoutError`, which is `TimeoutError` from Python 3.11 on). The deadline check at the head of the loop is the end of the given event sequence.
- `Cb2Client._wait_for_tick`, `Game.over`, the context-manager methods, `CheckTask` and `_send_message`'s closed-socket check are left out: they depend on the network or the event loop.
- The actions that `WalkForwardsAction` and its siblings build come from server/actor.py, which is not part of this model. They are the parameter `build`.
- `Game._handle_state_sync` and `_live_feedback_handler` are modelled only as the `AttributeError` they raise when reached. Their bodies cannot run as written.
- `print_instructions.main` and `ReadConfigOrDie` are left out: they read configuration files and a database.

## Findings

| source | as written | input that shows it | evidently intended | confidence | as-written member | corrected member |
|---|---|---|---|---|---|---|
| server/messages/action.py:75 | `Turn` builds its displacement as `HecsCoord(0, 0)`, with two coordinates where every other construction passes three (server/state.py:345) | `Turn(1, 60)` raises `TypeError` before it reaches the expiration | a rotation in place, with the zero displacement `HecsCoord(0, 0, 0)` | not executed | ActionMessages.ConstructorsAsWrittenAlwaysRaise | ActionMessages.Turn |
| server/messages/action.py:80 | `Turn` computes its expiration with `datetime.timedelta`, but `datetime` is the class imported from the module, which has no attribute `timedelta`; with line 75 corrected, this lookup raises `AttributeError` | `Turn(1, 60)` with the displacement `HecsCoord(0, 0, 0)` (`TurnBuiltFrom(1, 60, [0, 0, 0])`) | a rotation action expiring ten seconds from now | not executed | ActionMessages.ConstructorsAsWrittenAlwaysRaise | ActionMessages.Turn |
| server/messages/action.py:93 | `Walk` uses the same `datetime.timedelta` lookup | `Walk(1, HecsCoord(0, 1, 0))` raises `AttributeError` | a walking action expiring ten seconds from now | not executed | ActionMessages.ConstructorsAsWrittenAlwaysRaise | ActionMessages.Walk |
