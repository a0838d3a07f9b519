// server/state.py as values: a `Room` holds everything a `State` object
// holds, and each operation of `State` (and of its `Actor`s) is a function
// from the room before to the room after. The imperative classes in
// room_state.dfy are proved to compute exactly these functions; the
// properties of the game rules are proved about them in room_properties.dfy.
module RoomModel {
  import opened Common
  import opened ActionMessages
  import opened TurnRules

  /** `assets.AssetId` as far as actors use it. */
  datatype AssetId = PlayerAsset | FollowerBotAsset

  /** A card on the board: the part of a card prop the room logic reads. */
  datatype Card = Card(id: int, location: HecsCoord, selected: bool)

  /** `map_update.Tile`. */
  datatype Tile = Tile(assetId: int, cell: HecsCoord, rotationDegrees: int)

  /** `prop.Prop` reduced to its generic information. */
  datatype Prop = Prop(id: int, location: HecsCoord, rotationDegrees: int, collide: bool, borderRadius: int)

  /** `map_update.MapUpdate`. */
  datatype MapUpdate = MapUpdate(rows: int, cols: int, tiles: seq<Tile>, props: seq<Prop>)

  /** `objective.ObjectiveMessage`: an instruction from the leader. */
  datatype Objective = Objective(sender: Role, text: string, uuid: string, completed: bool, cancelled: bool)

  /** `state_sync.Actor`: what a state sync says about one actor. */
  datatype ActorState = ActorState(actorId: int, assetId: AssetId, location: HecsCoord, headingDegrees: real)

  /** `state_sync.StateSync`: the number of actors, their states, and the addressee. */
  datatype StateSync = StateSync(population: nat, actors: seq<ActorState>, playerId: int)

  /** The packets `handle_packet` distinguishes. */
  datatype MessageToServer =
    | ActionsMessage(actions: seq<Action>)
    | ObjectiveMessage(objective: Objective)
    | ObjectiveCompletedMessage(uuid: string)
    | TurnCompleteMessage
    | StateSyncRequestMessage
    | UnknownMessage

  /** The messages `drain_message` hands out. */
  datatype MessageFromServer =
    | MapUpdateFromServer(mapUpdate: MapUpdate)
    | StateSyncFromServer(state: StateSync)
    | ActionsFromServer(actions: seq<Action>)
    | ObjectivesFromServer(objectives: seq<Objective>)
    | GameStateFromServer(turnState: TurnState)

  /**
   * The code the room calls but that is not part of this model:
   * `HecsCoord.add`, the distance test of `valid_action` (a float square
   * root over `HecsCoord.cartesian`), `card.CardSelectAction`, and the
   * `MapProvider` queries `selected_cards_collide`, `selected_valid_set`,
   * `add_random_cards(3)` and `map()`.
   */
  datatype Collaborators = Collaborators(
    add: (HecsCoord, HecsCoord) -> HecsCoord,
    withinReach: HecsCoord -> bool,
    cardSelect: (int, bool, Option<Color>) -> Action,
    selectedCardsCollide: seq<Card> -> bool,
    selectedValidSet: seq<Card> -> bool,
    addRandomCards: seq<Card> -> seq<Card>,
    render: seq<Card> -> MapUpdate)

  /** `valid_action`: a step must stay within reach, a rotation must not exceed 60.01 degrees. */
  predicate ValidAction(action: Action, withinReach: HecsCoord -> bool)
  {
    && !(action.actionType == Translate && !withinReach(action.displacement))
    && !(action.actionType == Rotate && action.rotation > 60.01)
  }

  /** `Actor`: an actor's identity, its queue of pending actions and its pose. */
  datatype ActorView = ActorView(id: int, assetId: AssetId, role: Role, actions: seq<Action>,
                                 location: HecsCoord, heading: real)
  {
    predicate HasActions()
    {
      |actions| > 0
    }

    /** `Actor.add_action`: queue an action at the back. */
    function AddAction(action: Action): (v: ActorView)
      ensures v.actions == actions + [action]
      ensures v.(actions := actions) == this
    {
      this.(actions := actions + [action])
    }

    /** `Actor.step`: consume the head action and apply its displacement and rotation. */
    function Step(add: (HecsCoord, HecsCoord) -> HecsCoord): (v: ActorView)
      ensures !HasActions() ==> v == this
      ensures HasActions() ==>
                v.actions == actions[1..]
                && v.location == add(location, actions[0].displacement)
                && v.heading == heading + actions[0].rotation
      ensures v.id == id && v.assetId == assetId && v.role == role
    {
      if !HasActions() then this
      else this.(actions := actions[1..],
                 location := add(location, actions[0].displacement),
                 heading := heading + actions[0].rotation)
    }

    /** `Actor.drop`: discard the head action without acting on it. */
    function Drop(): (v: ActorView)
      ensures !HasActions() ==> v == this
      ensures HasActions() ==> v.actions == actions[1..] && v.(actions := actions) == this
    {
      if !HasActions() then this else this.(actions := actions[1..])
    }

    /** `Actor.state`. */
    function State(): ActorState
    {
      ActorState(id, assetId, location, heading)
    }
  }

  /**
   * Appends `x` to the queue of every id in `ids`, creating the queues that
   * are missing (the loop of `record_turn_state`, and of `record_action`
   * where the queues already exist).
   */
  function AppendEach<T>(h: map<int, seq<T>>, ids: seq<int>, x: T): (h': map<int, seq<T>>)
    ensures h'.Keys == h.Keys + Elems(ids)
    decreases |ids|
  {
    if ids == [] then h
    else
      var last := ids[|ids| - 1];
      var prev := AppendEach(h, ids[..|ids| - 1], x);
      assert Elems(ids) == Elems(ids[..|ids| - 1]) + {last} by {
        assert ids == ids[..|ids| - 1] + [last];
      }
      prev[last := (if last in prev then prev[last] else []) + [x]]
  }

  /** Sets the flag of every id in `ids` to `v` (the loops of `desync_all` and of the stale markers). */
  function SetEach(m: map<int, bool>, ids: seq<int>, v: bool): (m': map<int, bool>)
    ensures m'.Keys == m.Keys + Elems(ids)
    decreases |ids|
  {
    if ids == [] then m
    else
      var prev := SetEach(m, ids[..|ids| - 1], v);
      assert Elems(ids) == Elems(ids[..|ids| - 1]) + {ids[|ids| - 1]} by {
        assert ids == ids[..|ids| - 1] + [ids[|ids| - 1]];
      }
      prev[ids[|ids| - 1] := v]
  }

  /** Appending for one more id of `ids` appends to one more queue. */
  lemma AppendEachNext<T>(h: map<int, seq<T>>, ids: seq<int>, i: int, x: T)
    requires 0 <= i < |ids|
    ensures AppendEach(h, ids[..i + 1], x)
         == var prev := AppendEach(h, ids[..i], x);
            prev[ids[i] := (if ids[i] in prev then prev[ids[i]] else []) + [x]]
  {
    assert ids[..i + 1][..i] == ids[..i];
  }

  /** Setting for one more id of `ids` sets one more flag. */
  lemma SetEachNext(m: map<int, bool>, ids: seq<int>, i: int, v: bool)
    requires 0 <= i < |ids|
    ensures SetEach(m, ids[..i + 1], v) == SetEach(m, ids[..i], v)[ids[i] := v]
  {
    assert ids[..i + 1][..i] == ids[..i];
  }

  /** `ids` without `x`, in order (the actor order after `del self._actors[x]`). */
  function Without(ids: seq<int>, x: int): (r: seq<int>)
    ensures Elems(r) == Elems(ids) - {x}
    ensures NoDuplicates(ids) ==> NoDuplicates(r)
  {
    if ids == [] then []
    else
      var rest := Without(ids[1..], x);
      assert Elems(ids) == {ids[0]} + Elems(ids[1..]);
      if ids[0] == x then rest
      else
        assert Elems([ids[0]] + rest) == {ids[0]} + Elems(rest);
        assert NoDuplicates(ids) ==> NoDuplicates(ids[1..]) && ids[0] !in Elems(rest);
        ConsNoDuplicates(ids[0], rest);
        [ids[0]] + rest
  }

  /** Appending a new element to a sequence without duplicates keeps it so. */
  lemma SnocNoDuplicates(s: seq<int>, x: int)
    requires NoDuplicates(s) && x !in Elems(s)
    ensures NoDuplicates(s + [x]) && Elems(s + [x]) == Elems(s) + {x}
  {
    forall i, j | 0 <= i < j < |s + [x]|
      ensures (s + [x])[i] != (s + [x])[j]
    {
      if j == |s| {
        assert s[i] in Elems(s);
      }
    }
  }

  /** Putting a new element in front of a sequence without duplicates keeps it so. */
  lemma ConsNoDuplicates(x: int, s: seq<int>)
    ensures NoDuplicates(s) && x !in Elems(s) ==> NoDuplicates([x] + s)
  {
    if NoDuplicates(s) && x !in Elems(s) {
      forall i, j | 0 <= i < j < |[x] + s|
        ensures ([x] + s)[i] != ([x] + s)[j]
      {
        if i == 0 {
          assert s[j - 1] in Elems(s);
        }
      }
    }
  }

  /** `MapProvider.card_by_location`: the first card lying at `location`. */
  function CardAt(board: seq<Card>, location: HecsCoord): (card: Option<Card>)
    ensures card.Some? ==> card.value in board && card.value.location == location
    ensures card.None? ==> forall c | c in board :: c.location != location
  {
    if board == [] then None
    else if board[0].location == location then Some(board[0])
    else CardAt(board[1..], location)
  }

  /** `MapProvider.set_selected`: set the selection flag of the card with id `cardId`. */
  function SetSelected(board: seq<Card>, cardId: int, selected: bool): (b: seq<Card>)
    ensures |b| == |board|
    ensures forall i | 0 <= i < |b| ::
              b[i] == if board[i].id == cardId then board[i].(selected := selected) else board[i]
  {
    seq(|board|, i requires 0 <= i < |board| =>
      if board[i].id == cardId then board[i].(selected := selected) else board[i])
  }

  /** `MapProvider.selected_cards`: the selected cards, in board order. */
  function SelectedCards(board: seq<Card>): (cards: seq<Card>)
    ensures forall c :: c in cards <==> c in board && c.selected
  {
    if board == [] then []
    else if board[0].selected then [board[0]] + SelectedCards(board[1..])
    else SelectedCards(board[1..])
  }

  /** `MapProvider.remove_card`: the board without the cards with id `cardId`. */
  function RemoveCard(board: seq<Card>, cardId: int): (b: seq<Card>)
    ensures forall c :: c in b <==> c in board && c.id != cardId
  {
    if board == [] then []
    else if board[0].id == cardId then RemoveCard(board[1..], cardId)
    else [board[0]] + RemoveCard(board[1..], cardId)
  }

  /** The `CardSelectAction`s that outline `cards` with `color`. */
  function CardSelects(cards: seq<Card>, selected: bool, color: Option<Color>, env: Collaborators): (acts: seq<Action>)
    ensures |acts| == |cards|
    ensures forall i | 0 <= i < |cards| :: acts[i] == env.cardSelect(cards[i].id, selected, color)
  {
    seq(|cards|, i requires 0 <= i < |cards| => env.cardSelect(cards[i].id, selected, color))
  }

  /** Everything a `State` holds, with `Actor` objects replaced by their values. */
  datatype Room = Room(
    actors: map<int, ActorView>,
    order: seq<int>,                          // the insertion order of `_actors`
    actionHistory: map<int, seq<Action>>,
    synced: map<int, bool>,
    objectives: seq<Objective>,
    objectivesStale: map<int, bool>,
    mapUpdate: MapUpdate,
    mapStale: map<int, bool>,
    turnHistory: map<int, seq<TurnState>>,    // one FIFO queue per player
    turnState: TurnState,
    lastTick: int,
    spawnPoints: seq<HecsCoord>,
    board: seq<Card>,                         // the cards of the `MapProvider`
    done: bool)
  {
    /**
     * What the room keeps true between operations: the actor order lists
     * each registered actor once, every registered actor has an action
     * history and a sync flag, a game-over state only appears once the game
     * is done, and the moves left are never negative.
     */
    ghost predicate Valid()
    {
      && NoDuplicates(order)
      && actors.Keys == Elems(order)
      && (forall id | id in actors :: actors[id].id == id)
      && actors.Keys <= actionHistory.Keys
      && actors.Keys <= synced.Keys
      && (turnState.GameOver? ==> done)
      && (turnState.TurnUpdate? ==> turnState.movesRemaining >= 0)
    }

    /** `record_turn_state`: make `ts` current and queue a copy for every registered actor. */
    function RecordTurnState(ts: TurnState): (r: Room)
      ensures r == this.(turnState := ts, turnHistory := r.turnHistory)
      ensures r.turnHistory.Keys == turnHistory.Keys + Elems(order)
    {
      this.(turnState := ts, turnHistory := AppendEach(turnHistory, order, ts))
    }

    /** `drain_turn_state`: pop the oldest queued turn state of `id`, or `None`. */
    function DrainTurnState(id: int): (res: (Room, Option<TurnState>))
      ensures res.0 == this.(turnHistory := res.0.turnHistory) && id in res.0.turnHistory
      ensures res.0.turnHistory == turnHistory[id := res.0.turnHistory[id]]
      ensures res.1.None? <==> id !in turnHistory || turnHistory[id] == []
      ensures res.1.None? ==> res.0.turnHistory[id] == []
      ensures res.1.Some? ==> turnHistory[id] == [res.1.value] + res.0.turnHistory[id]
    {
      var queue := if id in turnHistory then turnHistory[id] else [];
      if queue == [] then (this.(turnHistory := turnHistory[id := []]), None)
      else (this.(turnHistory := turnHistory[id := queue[1..]]), Some(queue[0]))
    }

    /** `record_action`: append `action` to the history of every registered actor. */
    function RecordAction(action: Action): (r: Room)
      ensures r == this.(actionHistory := r.actionHistory)
      ensures r.actionHistory.Keys == actionHistory.Keys + Elems(order)
    {
      this.(actionHistory := AppendEach(actionHistory, order, action))
    }

    /** The `record_action` calls of a loop over `actions`, in order. */
    function RecordActions(actions: seq<Action>): (r: Room)
      ensures r == this.(actionHistory := r.actionHistory)
      ensures actionHistory.Keys <= r.actionHistory.Keys
      decreases |actions|
    {
      if actions == [] then this
      else
        var prev := RecordActions(actions[..|actions| - 1]);
        assert actions == actions[..|actions| - 1] + [actions[|actions| - 1]];
        prev.RecordAction(actions[|actions| - 1])
    }

    /** `end_turn_if_over(force)` at time `now`. */
    function EndTurnIfOver(now: int, force: bool): (r: Room)
      ensures r == this.(turnState := NextTurn(turnState, now, force), turnHistory := r.turnHistory)
    {
      RecordTurnState(NextTurn(turnState, now, force))
    }

    /** `desync`: mark `id` as needing a state sync. */
    function Desync(id: int): Room
    {
      this.(synced := synced[id := false])
    }

    /** `desync_all`: mark every registered actor as needing a state sync. */
    function DesyncAll(): (r: Room)
      ensures r == this.(synced := r.synced)
      ensures r.synced.Keys == synced.Keys + Elems(order)
    {
      this.(synced := SetEach(synced, order, false))
    }

    /** `actor.drop()` on the registered actor `id`. */
    function DropActor(id: int): (r: Room)
      requires id in actors
      ensures id in r.actors && r == this.(actors := actors[id := r.actors[id]])
    {
      this.(actors := actors[id := actors[id].Drop()])
    }

    /** Drop the head action of `id` and desync it: how the dispatch rejects an action. */
    function DropAndDesync(id: int): (r: Room)
      requires id in actors
      ensures r == this.(actors := actors[id := actors[id].Drop()], synced := synced[id := false])
    {
      DropActor(id).Desync(id)
    }

    /** `actor.step()` on the registered actor `id`. */
    function StepActor(id: int, add: (HecsCoord, HecsCoord) -> HecsCoord): (r: Room)
      requires id in actors
      ensures id in r.actors && r == this.(actors := actors[id := r.actors[id]])
    {
      this.(actors := actors[id := actors[id].Step(add)])
    }

    /**
     * `check_for_stepped_on_cards`: a translation that ends on a card toggles
     * that card's selection and broadcasts the outline in `color`.
     */
    function SteppedOnCards(id: int, action: Action, color: Color, env: Collaborators): (r: Room)
      requires id in actors
      ensures r == this.(board := r.board, actionHistory := r.actionHistory)
      ensures actionHistory.Keys <= r.actionHistory.Keys
    {
      var card := CardAt(board, actors[id].location);
      if action.actionType == Translate && card.Some? then
        var selected := !card.value.selected;
        this.(board := SetSelected(board, card.value.id, selected))
            .RecordAction(env.cardSelect(card.value.id, selected, Some(color)))
      else this
    }

    /**
     * One iteration of the actor loop of `update` for actor `id`: its head
     * action is dropped (and the actor desynced) when it is not the actor's
     * turn, no moves are left or the action is invalid; otherwise the action
     * is executed, broadcast, checked against the cards, and counted as a move.
     */
    function DispatchActor(id: int, now: int, color: Color, env: Collaborators): (r: Room)
      requires turnState.TurnUpdate? && id in actors
      ensures r.turnState.TurnUpdate? && r.order == order
      ensures id in r.actors && r.actors == actors[id := r.actors[id]]
    {
      var actor := actors[id];
      if !actor.HasActions() then this
      else
        var proposed := actor.actions[0];
        if turnState.turn != actor.role || turnState.movesRemaining == 0
           || !ValidAction(proposed, env.withinReach)
        then DropAndDesync(id)
        else ExecuteAction(id, now, color, env)
    }

    /**
     * The accepted branch of the dispatch: the head action of `id` is
     * executed, broadcast, checked against the cards, and counted as a move.
     */
    function ExecuteAction(id: int, now: int, color: Color, env: Collaborators): (r: Room)
      requires turnState.TurnUpdate? && id in actors && actors[id].HasActions()
      ensures r.turnState.TurnUpdate? && r.order == order
      ensures r.actors == actors[id := actors[id].Step(env.add)]
    {
      var proposed := actors[id].actions[0];
      var stepped := StepActor(id, env.add);
      var recorded := stepped.RecordAction(proposed);
      var checked := recorded.SteppedOnCards(id, proposed, color, env);
      checked.EndTurnIfOver(now, false)
    }

    /** The actor loop of `update`, over the actors `ids` in order. */
    function DispatchAll(ids: seq<int>, now: int, color: Color, env: Collaborators): (r: Room)
      requires turnState.TurnUpdate? && Elems(ids) <= actors.Keys
      ensures r.turnState.TurnUpdate? && r.actors.Keys == actors.Keys && r.order == order
      decreases |ids|
    {
      if ids == [] then this
      else
        assert ids[|ids| - 1] in Elems(ids);
        DispatchAll(ids[..|ids| - 1], now, color, env).DispatchActor(ids[|ids| - 1], now, color, env)
    }

    /** Dispatching one more actor of `ids` dispatches it after the ones before. */
    lemma DispatchAllNext(ids: seq<int>, i: int, now: int, color: Color, env: Collaborators)
      requires turnState.TurnUpdate? && Elems(ids) <= actors.Keys && 0 <= i < |ids|
      ensures Elems(ids[..i]) <= actors.Keys && Elems(ids[..i + 1]) <= actors.Keys
      ensures ids[i] in DispatchAll(ids[..i], now, color, env).actors
      ensures DispatchAll(ids[..i + 1], now, color, env)
           == DispatchAll(ids[..i], now, color, env).DispatchActor(ids[i], now, color, env)
    {
      assert ids[..i + 1][..i] == ids[..i];
      assert ids[i] in Elems(ids);
    }

    /** The once-a-second rebroadcast of the current turn state. */
    function RefreshTick(now: int): (r: Room)
      ensures r == this.(lastTick := r.lastTick, turnHistory := r.turnHistory)
    {
      if now > lastTick + 1000 then this.(lastTick := now).RecordTurnState(turnState) else this
    }

    /** The check that ends the turn once its time is up. */
    function TurnTimeout(now: int): (r: Room)
      requires turnState.TurnUpdate?
      ensures r == this.(turnState := r.turnState, turnHistory := r.turnHistory) && r.turnState.TurnUpdate?
    {
      if now >= turnState.turnEnd then EndTurnIfOver(now, false) else this
    }

    /**
     * The outline updates of `update`: a colliding selection is outlined in
     * red and marks the set invalid; an invalid set that no longer collides
     * is outlined in blue again. Returns the room, the new invalid flag and
     * whether the cards changed.
     */
    function HighlightSelection(selected: seq<Card>, invalid: bool, env: Collaborators): (res: (Room, bool, bool))
      ensures res.0 == this.(actionHistory := res.0.actionHistory)
      ensures actionHistory.Keys <= res.0.actionHistory.Keys
      ensures res.1 == env.selectedCardsCollide(board)
      ensures res.2 == (env.selectedCardsCollide(board) != invalid)
    {
      if env.selectedCardsCollide(board) && !invalid then
        (RecordActions(CardSelects(selected, true, Some(Red), env)), true, true)
      else if !env.selectedCardsCollide(board) && invalid then
        (RecordActions(CardSelects(selected, true, Some(Blue), env)), false, true)
      else (this, invalid, false)
    }

    /** Deselect, broadcast and remove one card of a collected set. */
    function ClearCard(card: Card, env: Collaborators): (r: Room)
      ensures r == this.(board := r.board, actionHistory := r.actionHistory)
      ensures actionHistory.Keys <= r.actionHistory.Keys
    {
      var recorded := this.(board := SetSelected(board, card.id, false))
                          .RecordAction(env.cardSelect(card.id, false, None));
      recorded.(board := RemoveCard(recorded.board, card.id))
    }

    /** The loop that clears the cards of a collected set. */
    function ClearCards(cards: seq<Card>, env: Collaborators): (r: Room)
      ensures r == this.(board := r.board, actionHistory := r.actionHistory)
      ensures actionHistory.Keys <= r.actionHistory.Keys
      decreases |cards|
    {
      if cards == [] then this
      else ClearCards(cards[..|cards| - 1], env).ClearCard(cards[|cards| - 1], env)
    }

    /** Collecting a valid set: award the bonus, clear the set and deal three new cards. */
    function CollectValidSet(selected: seq<Card>, env: Collaborators): (r: Room)
      requires turnState.TurnUpdate?
      ensures r == this.(turnState := CollectSet(turnState), turnHistory := r.turnHistory,
                         board := r.board, actionHistory := r.actionHistory)
    {
      var awarded := RecordTurnState(CollectSet(turnState)).ClearCards(selected, env);
      awarded.(board := env.addRandomCards(awarded.board))
    }

    /** Re-render the map and mark it stale for every registered actor. */
    function MarkMapStale(env: Collaborators): (r: Room)
      ensures r == this.(mapUpdate := env.render(board), mapStale := r.mapStale)
      ensures r.mapStale.Keys == mapStale.Keys + Elems(order)
    {
      this.(mapUpdate := env.render(board), mapStale := SetEach(mapStale, order, true))
    }

    /**
     * One iteration of the `update` loop at time `now`, with the
     * invalid-set flag the loop carries; returns the room and the new flag.
     */
    function UpdateStep(now: int, invalid: bool, env: Collaborators): (res: (Room, bool))
      requires turnState.TurnUpdate? && Elems(order) <= actors.Keys
    {
      if turnState.turnsLeft == -1 then (EndGame(now), invalid) else Play(now, invalid, env)
    }

    /**
     * The end of the game at time `now`: the room is done and the game-over
     * state, which carries the game's start, sets and score, is recorded.
     */
    function EndGame(now: int): (r: Room)
      requires turnState.TurnUpdate?
      ensures r.done && r.turnState == GameOverState(turnState, now)
      ensures r.turnState.GameOver? && r.turnState.turn == NoRole && r.turnState.movesRemaining == 0
      ensures r.turnState.gameStart == turnState.gameStart && r.turnState.setsCollected == turnState.setsCollected
      ensures r.turnState.score == turnState.score
    {
      this.(done := true).RecordTurnState(GameOverState(turnState, now))
    }

    /**
     * A step of a game in progress: the turn-state rebroadcast, the turn
     * timeout, the actor loop, then the card selection.
     */
    function Play(now: int, invalid: bool, env: Collaborators): (res: (Room, bool))
      requires turnState.TurnUpdate? && Elems(order) <= actors.Keys
    {
      var ticked := RefreshTick(now).TurnTimeout(now);
      var color := if !invalid then Blue else Red;
      ticked.DispatchAll(ticked.order, now, color, env).SettleSelection(invalid, env)
    }

    /**
     * The card selection part of `update`: outline the selected cards,
     * collect them when they form a valid set, and re-render the map when
     * the cards changed.
     */
    function SettleSelection(invalid: bool, env: Collaborators): (res: (Room, bool))
      requires turnState.TurnUpdate?
    {
      var selected := SelectedCards(board);
      var (highlighted, invalid', changed) := HighlightSelection(selected, invalid, env);
      if env.selectedValidSet(highlighted.board) then
        (highlighted.CollectValidSet(selected, env).MarkMapStale(env), false)
      else if changed then (highlighted.MarkMapStale(env), invalid')
      else (highlighted, invalid')
    }

    /** Registering the actor `view` under `id` with an empty action queue, unsynced. */
    function Register(id: int, view: ActorView): (r: Room)
      ensures r == this.(actors := actors[id := view], order := r.order,
                         actionHistory := actionHistory[id := []], synced := synced[id := false])
    {
      OpenQueues(id).Enroll(id, view)
    }

    /** An empty action queue and a cleared sync flag for `id`. */
    function OpenQueues(id: int): Room
    {
      this.(actionHistory := actionHistory[id := []], synced := synced[id := false])
    }

    /** `_actors[id] = actor`: a new key goes to the end of the insertion order. */
    function Enroll(id: int, view: ActorView): (r: Room)
      ensures r == this.(actors := actors[id := view], order := r.order)
      ensures id in actors ==> r.order == order
      ensures id !in actors ==> r.order == order + [id]
    {
      this.(actors := actors[id := view], order := if id in actors then order else order + [id])
    }

    /** `create_actor(role)` with `newId` from the id assigner. */
    function CreateActor(role: Role, newId: int): (r: Room)
      ensures newId in r.actors && r.actors[newId].role == role && r.actors[newId].actions == []
      ensures r.actors == actors[newId := r.actors[newId]]
      ensures r.actionHistory == actionHistory[newId := []]
    {
      var (popped, spawn) := PopSpawnPoint();
      var asset := if role == Leader then PlayerAsset else FollowerBotAsset;
      popped.Register(newId, ActorView(newId, asset, role, [], spawn, 0.0)).DesyncAll()
    }

    /** `_spawn_points.pop()`: the last spawn point, or the origin when none are left. */
    function PopSpawnPoint(): (res: (Room, HecsCoord))
      ensures |spawnPoints| > 0 ==> res == (this.(spawnPoints := spawnPoints[..|spawnPoints| - 1]),
                                           spawnPoints[|spawnPoints| - 1])
      ensures |spawnPoints| == 0 ==> res == (this, Origin)
    {
      if |spawnPoints| > 0 then (this.(spawnPoints := spawnPoints[..|spawnPoints| - 1]), spawnPoints[|spawnPoints| - 1])
      else (this, Origin)
    }

    /** `free_actor(id)`: forget the actor and its queues, then desync everyone. */
    function FreeActor(id: int): (r: Room)
      ensures id !in r.actors && r.actors == actors - {id}
      ensures id !in r.actionHistory && id !in r.objectivesStale && id !in r.turnHistory
      ensures r.mapStale == mapStale
    {
      Forget(id).DesyncAll()
    }

    /** The deletions of `free_actor(id)`; its sync flag and map flag stay. */
    function Forget(id: int): (r: Room)
      ensures r == this.(actors := actors - {id}, order := r.order, actionHistory := actionHistory - {id},
                         objectivesStale := objectivesStale - {id}, turnHistory := turnHistory - {id})
      ensures Elems(r.order) == Elems(order) - {id}
    {
      Unenroll(id).CloseQueues(id)
    }

    /** `del _actors[id]`, when present. */
    function Unenroll(id: int): (r: Room)
      ensures r == this.(actors := actors - {id}, order := r.order)
      ensures Elems(r.order) == Elems(order) - {id}
    {
      this.(actors := actors - {id}, order := Without(order, id))
    }

    /** The deletion of the queues and the objectives flag of `id`, when present. */
    function CloseQueues(id: int): Room
    {
      this.(actionHistory := actionHistory - {id}, objectivesStale := objectivesStale - {id},
            turnHistory := turnHistory - {id})
    }

    /** `is_synced`: the sync flag of `id`; a `KeyError` for an id never seen. */
    function IsSynced(id: int): (r: Result<bool>)
      ensures r.Ok? <==> id in synced
      ensures r.Ok? ==> r.value == synced[id]
    {
      if id in synced then Ok(synced[id]) else Err(KeyError(id))
    }

    /**
     * The loop of `has_pending_messages` over the actors `ids`. It raises a
     * `KeyError` when it reaches an actor with no objectives flag or no turn
     * queue yet.
     */
    function PendingFrom(ids: seq<int>): (r: Result<bool>)
    {
      if ids == [] then Ok(false)
      else
        var id := ids[0];
        if id !in synced then Err(KeyError(id))
        else if !synced[id] then Ok(true)
        else if id !in actionHistory then Err(KeyError(id))
        else if |actionHistory[id]| > 0 then Ok(true)
        else if id !in objectivesStale then Err(KeyError(id))
        else if objectivesStale[id] then Ok(true)
        else if id !in turnHistory then Err(KeyError(id))
        else if turnHistory[id] != [] then Ok(true)
        else PendingFrom(ids[1..])
    }

    /** `has_pending_messages`. */
    function HasPendingMessages(): Result<bool>
    {
      PendingFrom(order)
    }

    /** `drain_actions`: hand out and clear the action history of `id`. */
    function DrainActions(id: int): (res: (Room, seq<Action>))
      ensures id !in actionHistory ==> res == (this, [])
      ensures id in actionHistory ==>
                res.1 == actionHistory[id] && res.0 == this.(actionHistory := actionHistory[id := []])
    {
      if id !in actionHistory then (this, [])
      else (this.(actionHistory := actionHistory[id := []]), actionHistory[id])
    }

    /**
     * `drain_objectives`: the objective list when it is stale for `id` (an
     * id never seen counts as stale), after which it is fresh; else `[]`.
     */
    function DrainObjectives(id: int): (res: (Room, seq<Objective>))
      ensures res.0 == this.(objectivesStale := objectivesStale[id := false])
      ensures res.1 == if id in objectivesStale && !objectivesStale[id] then [] else objectives
    {
      if id in objectivesStale && !objectivesStale[id] then (this, [])
      else (this.(objectivesStale := objectivesStale[id := false]), objectives)
    }

    /** `drain_map_update`: the map when it is stale for `id` (an id never seen counts as stale). */
    function DrainMapUpdate(id: int): (res: (Room, Option<MapUpdate>))
      ensures res.0 == this.(mapStale := mapStale[id := false])
      ensures res.1 == if id in mapStale && !mapStale[id] then None else Some(mapUpdate)
    {
      if id in mapStale && !mapStale[id] then (this, None)
      else (this.(mapStale := mapStale[id := false]), Some(mapUpdate))
    }

    /** `state(actor_id)`: the state sync of the room addressed to `playerId`. */
    function StateSyncFor(playerId: int): (s: StateSync)
      requires Elems(order) <= actors.Keys
      ensures s.population == |actors| && |s.actors| == |order|
      ensures forall i | 0 <= i < |order| :: s.actors[i] == actors[order[i]].State()
    {
      assert forall i | 0 <= i < |order| :: order[i] in Elems(order);
      StateSync(|actors|, seq(|order|, i requires 0 <= i < |order| => actors[order[i]].State()), playerId)
    }

    /** There are as many registered actors as entries in the actor order. */
    lemma CardinalityOfOrder()
      requires Valid()
      ensures |actors| == |order|
    {
      DistinctCardinality(order);
    }

    /** `sync_message_for_transmission`: the state sync for `id`, after which `id` is synced. */
    function SyncMessageForTransmission(id: int): (res: (Room, StateSync))
      requires Elems(order) <= actors.Keys
      ensures res.0 == this.(synced := synced[id := true])
      ensures res.1 == StateSyncFor(id)
    {
      (this.(synced := synced[id := true]), StateSyncFor(id))
    }

    /**
     * `drain_message`: the next message for `player`, trying in order the
     * map, a state sync, the actions, the objectives and the turn states.
     */
    function DrainMessage(player: int): (res: (Room, Result<Option<MessageFromServer>>))
      requires Elems(order) <= actors.Keys
    {
      var (r1, map_) := DrainMapUpdate(player);
      if map_.Some? then (r1, Ok(Some(MapUpdateFromServer(map_.value))))
      else if player !in r1.synced then (r1, Err(KeyError(player)))
      else if !r1.synced[player] then
        var (r2, sync) := r1.SyncMessageForTransmission(player);
        (r2, Ok(Some(StateSyncFromServer(sync))))
      else r1.DrainQueued(player)
    }

    /**
     * The tail of `drain_message` for a synced player, in priority order: its
     * pending actions, then the objectives when they are stale for it and not
     * empty, then its oldest queued turn state; `None` when none of these is
     * pending. It never raises.
     */
    function DrainQueued(player: int): (res: (Room, Result<Option<MessageFromServer>>))
      ensures var actions := if player in actionHistory then actionHistory[player] else [];
              var objectivesDue := (player !in objectivesStale || objectivesStale[player]) && objectives != [];
              var turns := if player in turnHistory then turnHistory[player] else [];
              && (actions != [] ==> res.1 == Ok(Some(ActionsFromServer(actions))))
              && (actions == [] && objectivesDue ==> res.1 == Ok(Some(ObjectivesFromServer(objectives))))
              && (actions == [] && !objectivesDue && turns != [] ==>
                    res.1 == Ok(Some(GameStateFromServer(turns[0])))
                    && player in res.0.turnHistory && res.0.turnHistory[player] == turns[1..])
              && (res.1 == Ok(None) <==> actions == [] && !objectivesDue && turns == [])
    {
      var (r3, actions) := DrainActions(player);
      if |actions| > 0 then (r3, Ok(Some(ActionsFromServer(actions))))
      else
        var (r4, objectives') := r3.DrainObjectives(player);
        if |objectives'| > 0 then (r4, Ok(Some(ObjectivesFromServer(objectives'))))
        else
          var (r5, turn) := r4.DrainTurnState(player);
          if turn.Some? then (r5, Ok(Some(GameStateFromServer(turn.value))))
          else (r5, Ok(None))
    }

    /** `handle_action`: queue `action` on actor `id` if it is that actor's own. */
    function HandleAction(id: int, action: Action): (res: (Room, Result<()>))
    {
      if action.id != id then (Desync(id), Ok(()))
      else if id !in actors then (this, Err(KeyError(id)))
      else (QueueAction(id, action), Ok(()))
    }

    /** `add_action` on the registered actor `id`. */
    function QueueAction(id: int, action: Action): (r: Room)
      requires id in actors
      ensures id in r.actors && r == this.(actors := actors[id := r.actors[id]])
    {
      this.(actors := actors[id := actors[id].AddAction(action)])
    }

    /** The loop of `handle_packet` over the actions of one packet; an exception ends it. */
    function HandleActions(id: int, actions: seq<Action>): (res: (Room, Result<()>))
      decreases |actions|
    {
      if actions == [] then (this, Ok(()))
      else
        var (r1, status) := HandleAction(id, actions[0]);
        if status.Err? then (r1, status) else r1.HandleActions(id, actions[1..])
    }

    /** `handle_objective`: a leader's objective gets `uuid` and is queued for everyone. */
    function HandleObjective(id: int, objective: Objective, uuid: string): (res: (Room, Result<()>))
    {
      if id !in actors then (this, Err(KeyError(id)))
      else if actors[id].role != Leader then (this, Ok(()))
      else (this.(objectives := objectives + [objective.(uuid := uuid)],
                  objectivesStale := SetEach(objectivesStale, order, true)), Ok(()))
    }

    /** `handle_objective_complete`: a follower completes the first objective with `uuid`. */
    function HandleObjectiveComplete(id: int, uuid: string): (res: (Room, Result<()>))
    {
      if id !in actors then (this, Err(KeyError(id)))
      else if actors[id].role != Follower then (this, Ok(()))
      else (this.(objectives := CompleteFirst(objectives, uuid),
                  objectivesStale := SetEach(objectivesStale, order, true)), Ok(()))
    }

    /** `handle_turn_complete`: the player whose turn it is ends it early. */
    function HandleTurnComplete(id: int, now: int): (res: (Room, Result<()>))
    {
      if id !in actors then (this, Err(KeyError(id)))
      else if actors[id].role != turnState.turn then (this, Ok(()))
      else (EndTurnIfOver(now, true), Ok(()))
    }

    /** `handle_packet`: dispatch a packet from player `id`; `uuid` is the fresh `uuid4().hex`. */
    function HandlePacket(id: int, message: MessageToServer, now: int, uuid: string): (res: (Room, Result<()>))
    {
      match message
      case ActionsMessage(actions) => HandleActions(id, actions)
      case ObjectiveMessage(objective) => HandleObjective(id, objective, uuid)
      case ObjectiveCompletedMessage(u) => HandleObjectiveComplete(id, u)
      case TurnCompleteMessage => HandleTurnComplete(id, now)
      case StateSyncRequestMessage => (Desync(id), Ok(()))
      case UnknownMessage => (this, Ok(()))
    }
  }

  /** A sequence without duplicates has as many distinct elements as entries. */
  lemma {:induction false} DistinctCardinality(s: seq<int>)
    requires NoDuplicates(s)
    ensures |Elems(s)| == |s|
  {
    if s != [] {
      var last := s[|s| - 1];
      var init := s[..|s| - 1];
      assert NoDuplicates(init);
      DistinctCardinality(init);
      assert Elems(s) == Elems(init) + {last};
      assert last !in Elems(init);
    }
  }

  /** The objectives after the first one with `uuid` is marked completed. */
  function CompleteFirst(objectives: seq<Objective>, uuid: string): (r: seq<Objective>)
    ensures |r| == |objectives|
    ensures forall i | 0 <= i < |r| :: r[i].(completed := objectives[i].completed) == objectives[i]
  {
    if objectives == [] then []
    else if objectives[0].uuid == uuid then [objectives[0].(completed := true)] + objectives[1..]
    else [objectives[0]] + CompleteFirst(objectives[1..], uuid)
  }

  /**
   * When the first objective with `uuid` sits at index `i`, completing the
   * first one marks exactly that objective completed.
   */
  lemma {:induction false} CompleteFirstAt(objectives: seq<Objective>, uuid: string, i: int)
    requires 0 <= i <= |objectives|
    requires forall k | 0 <= k < i :: objectives[k].uuid != uuid
    requires i < |objectives| ==> objectives[i].uuid == uuid
    ensures CompleteFirst(objectives, uuid)
         == if i < |objectives| then objectives[i := objectives[i].(completed := true)] else objectives
    decreases i
  {
    if objectives != [] && objectives[0].uuid != uuid {
      assert i > 0;
      CompleteFirstAt(objectives[1..], uuid, i - 1);
      if i < |objectives| {
        assert [objectives[0]] + objectives[1..][i - 1 := objectives[i].(completed := true)]
            == objectives[i := objectives[i].(completed := true)];
      } else {
        assert [objectives[0]] + objectives[1..] == objectives;
      }
    } else if objectives != [] {
      assert i == 0;
      assert [objectives[0].(completed := true)] + objectives[1..] == objectives[0 := objectives[0].(completed := true)];
    }
  }

  /** The room a new `State` starts with at time `now`. */
  function InitialRoom(now: int, board: seq<Card>, spawnPoints: seq<HecsCoord>, env: Collaborators): (r: Room)
    ensures r.Valid() && r.actors == map[] && !r.done
    ensures r.turnState == InitialTurn(now)
  {
    Room(map[], [], map[], map[], [], map[], env.render(board), map[], map[],
         InitialTurn(now), now, spawnPoints, board, false)
  }
}
