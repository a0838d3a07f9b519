// server/state.py as it is written: a `State` object whose dictionaries and
// queues its methods update in place, and the `Actor` objects it owns. Each
// method is proved to leave the object in the state that the function of
// the same name in RoomModel computes from the state before.
module RoomState {
  import opened Common
  import opened ActionMessages
  import opened TurnRules
  import opened RoomModel

  /** `Actor`: one player's avatar with its queue of pending actions. */
  class Actor {
    const id: int
    const assetId: AssetId
    const role: Role
    var actions: seq<Action>
    var location: HecsCoord
    var heading: real

    /** The actor as a value. */
    function View(): ActorView
      reads this
    {
      ActorView(id, assetId, role, actions, location, heading)
    }

    constructor (id: int, assetId: AssetId, role: Role, spawn: HecsCoord)
      ensures View() == ActorView(id, assetId, role, [], spawn, 0.0)
    {
      this.id := id;
      this.assetId := assetId;
      this.role := role;
      actions := [];
      location := spawn;
      heading := 0.0;
    }

    /** `add_action`. */
    method AddAction(action: Action)
      modifies this`actions
      ensures View() == old(View()).AddAction(action)
    {
      actions := actions + [action];
    }

    /** `has_actions`. */
    predicate HasActions()
      reads this
    {
      |actions| > 0
    }

    /** `peek`: the head action, which stays queued. */
    method Peek() returns (action: Action)
      requires HasActions()
      ensures [action] + View().actions[1..] == View().actions
    {
      action := actions[0];
    }

    /** `step`: consume the head action and move by it. */
    method Step(add: (HecsCoord, HecsCoord) -> HecsCoord)
      modifies this
      ensures View() == old(View()).Step(add)
    {
      if !HasActions() {
        return;
      }
      var action := actions[0];
      actions := actions[1..];
      location := add(location, action.displacement);
      heading := heading + action.rotation;
    }

    /** `drop`: discard the head action. */
    method Drop()
      modifies this`actions
      ensures View() == old(View()).Drop()
    {
      if !HasActions() {
        return;
      }
      actions := actions[1..];
    }
  }

  /** The values of the actors in `m`. */
  function ViewsOf(m: map<int, Actor>): (views: map<int, ActorView>)
    reads m.Values
    ensures views.Keys == m.Keys
  {
    map id | id in m :: m[id].View()
  }

  /** Actor objects that did not change have the same values. */
  twostate lemma ViewsKept(m: map<int, Actor>)
    requires forall id | id in m :: unchanged(m[id])
    ensures ViewsOf(m) == old(ViewsOf(m))
  {
    forall id | id in m
      ensures ViewsOf(m)[id] == old(ViewsOf(m))[id]
    {
      assert unchanged(m[id]);
    }
  }

  /** The values of a map of actor objects, one entry at a time. */
  lemma ViewsOfSplit(m: map<int, Actor>, id: int)
    requires id in m
    ensures ViewsOf(m) == ViewsOf(m - {id})[id := m[id].View()]
  {
    assert m == (m - {id})[id := m[id]];
  }

  /** Registering an actor object adds its value. */
  lemma ViewsOfPut(m: map<int, Actor>, id: int, actor: Actor)
    ensures ViewsOf(m[id := actor]) == ViewsOf(m)[id := actor.View()]
  {
  }

  /** Forgetting an actor object removes its value. */
  lemma ViewsOfRemove(m: map<int, Actor>, id: int)
    ensures ViewsOf(m - {id}) == ViewsOf(m) - {id}
  {
  }

  /** The loop that appends `x` to the queue of each id of `ids` in turn. */
  method AppendToEach<T>(h: map<int, seq<T>>, ids: seq<int>, x: T) returns (h': map<int, seq<T>>)
    ensures h' == AppendEach(h, ids, x)
  {
    h' := h;
    var i := 0;
    while i < |ids|
      invariant 0 <= i <= |ids|
      invariant h' == AppendEach(h, ids[..i], x)
    {
      var id := ids[i];
      AppendEachNext(h, ids, i, x);
      var queue := if id in h' then h'[id] else [];
      h' := h'[id := queue + [x]];
      i := i + 1;
    }
    assert ids[..i] == ids;
  }

  /** The loop that sets the flag of each id of `ids` to `v` in turn. */
  method SetForEach(m: map<int, bool>, ids: seq<int>, v: bool) returns (m': map<int, bool>)
    ensures m' == SetEach(m, ids, v)
  {
    m' := m;
    var i := 0;
    while i < |ids|
      invariant 0 <= i <= |ids|
      invariant m' == SetEach(m, ids[..i], v)
    {
      SetEachNext(m, ids, i, v);
      m' := m'[ids[i] := v];
      i := i + 1;
    }
    assert ids[..i] == ids;
  }

  /**
   * What a `State` keeps true, on the values of its fields: `Room.Valid`,
   * and distinct ids name distinct actor objects.
   */
  ghost predicate Consistent(actors: map<int, Actor>, order: seq<int>, actionHistory: map<int, seq<Action>>,
                             synced: map<int, bool>, turnState: TurnState, done: bool)
  {
    && NoDuplicates(order)
    && actors.Keys == Elems(order)
    && (forall id | id in actors :: actors[id].id == id)
    && actors.Keys <= actionHistory.Keys
    && actors.Keys <= synced.Keys
    && (turnState.GameOver? ==> done)
    && (turnState.TurnUpdate? ==> turnState.movesRemaining >= 0)
    && (forall i, j | i in actors && j in actors && i != j :: actors[i] != actors[j])
  }

  /** Registering an actor object not registered yet, whose queues exist, keeps the state consistent. */
  lemma EnrollConsistent(actors: map<int, Actor>, order: seq<int>, actionHistory: map<int, seq<Action>>,
                         synced: map<int, bool>, turnState: TurnState, done: bool, id: int, actor: Actor)
    requires Consistent(actors, order, actionHistory, synced, turnState, done)
    requires actor.id == id && actor !in actors.Values && id in actionHistory && id in synced
    ensures Consistent(actors[id := actor], if id in actors then order else order + [id],
                       actionHistory, synced, turnState, done)
  {
    if id !in actors {
      SnocNoDuplicates(order, id);
    }
  }

  /** Forgetting an actor keeps the state consistent. */
  lemma UnenrollConsistent(actors: map<int, Actor>, order: seq<int>, actionHistory: map<int, seq<Action>>,
                           synced: map<int, bool>, turnState: TurnState, done: bool, id: int)
    requires Consistent(actors, order, actionHistory, synced, turnState, done)
    ensures Consistent(actors - {id}, Without(order, id), actionHistory, synced, turnState, done)
  {
  }

  /** The loop of `handle_objective_complete` that marks the first objective with `uuid` completed. */
  method CompleteFirstLoop(objectives: seq<Objective>, uuid: string) returns (r: seq<Objective>)
    ensures r == CompleteFirst(objectives, uuid)
  {
    var i := 0;
    while i < |objectives| && objectives[i].uuid != uuid
      invariant 0 <= i <= |objectives|
      invariant forall k | 0 <= k < i :: objectives[k].uuid != uuid
    {
      i := i + 1;
    }
    CompleteFirstAt(objectives, uuid, i);
    r := objectives;
    if i < |objectives| {
      r := r[i := r[i].(completed := true)];
    }
  }

  /** `State`: the bookkeeping of one game room. */
  class State {
    var actors: map<int, Actor>
    var order: seq<int>                       // the insertion order of `_actors`
    var actionHistory: map<int, seq<Action>>
    var synced: map<int, bool>
    var objectives: seq<Objective>
    var objectivesStale: map<int, bool>
    var mapUpdate: MapUpdate
    var mapStale: map<int, bool>
    var turnHistory: map<int, seq<TurnState>>
    var turnState: TurnState
    var lastTick: int
    var spawnPoints: seq<HecsCoord>
    var board: seq<Card>                      // the cards of the `MapProvider`
    var done: bool

    /** The room as a value. */
    function Model(): Room
      reads this, actors.Values
    {
      Room(ViewsOf(actors), order, actionHistory, synced, objectives, objectivesStale,
           mapUpdate, mapStale, turnHistory, turnState, lastTick, spawnPoints, board, done)
    }

    /** `Room.Valid` stated on the fields, and no actor object registered twice. */
    ghost predicate Valid()
      reads this
    {
      Consistent(actors, order, actionHistory, synced, turnState, done)
    }

    constructor (now: int, board: seq<Card>, spawnPoints: seq<HecsCoord>, env: Collaborators)
      ensures Valid() && Model() == InitialRoom(now, board, spawnPoints, env)
    {
      actors := map[];
      order := [];
      actionHistory := map[];
      synced := map[];
      objectives := [];
      objectivesStale := map[];
      mapUpdate := env.render(board);
      mapStale := map[];
      turnHistory := map[];
      turnState := InitialTurn(now);
      lastTick := now;
      this.spawnPoints := spawnPoints;
      this.board := board;
      done := false;
    }

    /** `record_turn_state`. */
    method RecordTurnState(ts: TurnState)
      requires Valid()
      requires ts.TurnUpdate? ==> ts.movesRemaining >= 0
      requires ts.GameOver? ==> done
      modifies this`turnState, this`turnHistory
      ensures Valid() && Model() == old(Model()).RecordTurnState(ts)
    {
      turnHistory := AppendToEach(turnHistory, order, ts);
      turnState := ts;
      ViewsKept(actors);
    }

    /** `drain_turn_state`. */
    method DrainTurnState(id: int) returns (turn: Option<TurnState>)
      requires Valid()
      modifies this`turnHistory
      ensures Valid() && (Model(), turn) == old(Model()).DrainTurnState(id)
    {
      ghost var before := Model();
      if id !in turnHistory {
        turnHistory := turnHistory[id := []];
      }
      if turnHistory[id] == [] {
        turn := None;
        assert turnHistory == before.turnHistory[id := []];
      } else {
        turn := Some(turnHistory[id][0]);
        turnHistory := turnHistory[id := turnHistory[id][1..]];
      }
      ViewsKept(actors);
    }

    /** `record_action`. */
    method RecordAction(action: Action)
      requires Valid()
      modifies this`actionHistory
      ensures Valid() && Model() == old(Model()).RecordAction(action)
    {
      actionHistory := AppendToEach(actionHistory, order, action);
      ViewsKept(actors);
    }

    /** `end_turn_if_over(force)` at time `now`. */
    method EndTurnIfOver(now: int, force: bool)
      requires Valid()
      modifies this`turnState, this`turnHistory
      ensures Valid() && Model() == old(Model()).EndTurnIfOver(now, force)
    {
      RecordTurnState(NextTurn(turnState, now, force));
    }

    /** `desync`. */
    method Desync(id: int)
      requires Valid()
      modifies this`synced
      ensures Valid() && Model() == old(Model()).Desync(id)
    {
      synced := synced[id := false];
      ViewsKept(actors);
    }

    /** `desync_all`. */
    method DesyncAll()
      requires Valid()
      modifies this`synced
      ensures Valid() && Model() == old(Model()).DesyncAll()
    {
      synced := SetForEach(synced, order, false);
      ViewsKept(actors);
    }

    /** `check_for_stepped_on_cards`. */
    method CheckForSteppedOnCards(id: int, action: Action, color: Color, env: Collaborators)
      requires Valid() && id in actors
      modifies this`board, this`actionHistory
      ensures Valid() && Model() == old(Model()).SteppedOnCards(id, action, color, env)
    {
      var card := CardAt(board, actors[id].location);
      if action.actionType == Translate && card.Some? {
        var selected := !card.value.selected;
        board := SetSelected(board, card.value.id, selected);
        ViewsKept(actors);
        RecordAction(env.cardSelect(card.value.id, selected, Some(color)));
      }
    }

    /** How the actor loop of `update` rejects the head action of `id`. */
    method RejectAction(id: int)
      requires Valid() && id in actors
      modifies this`synced, actors[id]
      ensures Valid() && Model() == old(Model()).DropAndDesync(id)
    {
      DropActor(id);
      Desync(id);
    }

    /** `actor.drop()` on the registered actor `id`. */
    method DropActor(id: int)
      requires Valid() && id in actors
      modifies actors[id]
      ensures Valid() && Model() == old(Model()).DropActor(id)
    {
      ViewsOfSplit(actors, id);
      actors[id].Drop();
      ViewsKept(actors - {id});
      ViewsOfSplit(actors, id);
    }

    /** `actor.step()` on the registered actor `id`. */
    method StepActor(id: int, add: (HecsCoord, HecsCoord) -> HecsCoord)
      requires Valid() && id in actors
      modifies actors[id]
      ensures Valid() && Model() == old(Model()).StepActor(id, add)
    {
      ViewsOfSplit(actors, id);
      actors[id].Step(add);
      ViewsKept(actors - {id});
      ViewsOfSplit(actors, id);
    }

    /** How the actor loop of `update` executes the head action of `id`. */
    method ExecuteAction(id: int, now: int, color: Color, env: Collaborators)
      requires Valid() && turnState.TurnUpdate? && id in actors && actors[id].HasActions()
      modifies this`actionHistory, this`board, this`turnState, this`turnHistory, actors[id]
      ensures Valid() && Model() == old(Model()).ExecuteAction(id, now, color, env)
    {
      var proposed := actors[id].Peek();
      StepActor(id, env.add);
      RecordAction(proposed);
      CheckForSteppedOnCards(id, proposed, color, env);
      EndTurnIfOver(now, false);
    }

    /** One iteration of the actor loop of `update`, for actor `id`. */
    method DispatchActor(id: int, now: int, color: Color, env: Collaborators)
      requires Valid() && turnState.TurnUpdate? && id in actors
      modifies this`synced, this`actionHistory, this`board, this`turnState, this`turnHistory, actors[id]
      ensures Valid() && Model() == old(Model()).DispatchActor(id, now, color, env)
    {
      var actor := actors[id];
      if !actor.HasActions() {
        return;
      }
      var proposed := actor.Peek();
      if turnState.turn != actor.role {
        RejectAction(id);
        return;
      }
      if turnState.movesRemaining == 0 {
        RejectAction(id);
        return;
      }
      if ValidAction(proposed, env.withinReach) {
        ExecuteAction(id, now, color, env);
      } else {
        RejectAction(id);
      }
    }

    /** Dispatches `order[i]` after the actors before it in `order` were dispatched from `start`. */
    method DispatchNext(ghost start: Room, i: int, now: int, color: Color, env: Collaborators)
      requires Valid() && turnState.TurnUpdate? && 0 <= i < |order|
      requires start.turnState.TurnUpdate? && Elems(order) <= start.actors.Keys
      requires Model() == start.DispatchAll(order[..i], now, color, env)
      modifies this`synced, this`actionHistory, this`board, this`turnState, this`turnHistory, actors.Values
      ensures Valid() && turnState.TurnUpdate?
      ensures Model() == start.DispatchAll(order[..i + 1], now, color, env)
    {
      start.DispatchAllNext(order, i, now, color, env);
      assert order[i] in Elems(order);
      DispatchActor(order[i], now, color, env);
    }

    /** The actor loop of `update`, over the actors in insertion order. */
    method DispatchActors(now: int, color: Color, env: Collaborators)
      requires Valid() && turnState.TurnUpdate?
      modifies this`synced, this`actionHistory, this`board, this`turnState, this`turnHistory, actors.Values
      ensures Valid() && turnState.TurnUpdate?
      ensures Model() == old(Model()).DispatchAll(order, now, color, env)
    {
      ghost var start := Model();
      var i := 0;
      while i < |order|
        invariant 0 <= i <= |order|
        invariant Valid() && turnState.TurnUpdate?
        invariant Model() == start.DispatchAll(order[..i], now, color, env)
      {
        DispatchNext(start, i, now, color, env);
        i := i + 1;
      }
      assert order[..i] == order;
    }

    /** The once-a-second rebroadcast of the turn state in `update`. */
    method RefreshTick(now: int)
      requires Valid()
      modifies this`lastTick, this`turnState, this`turnHistory
      ensures Valid() && Model() == old(Model()).RefreshTick(now)
    {
      if now > lastTick + 1000 {
        lastTick := now;
        ViewsKept(actors);
        RecordTurnState(turnState);
      }
    }

    /** The end of a turn whose time is up, in `update`. */
    method TurnTimeout(now: int)
      requires Valid() && turnState.TurnUpdate?
      modifies this`turnState, this`turnHistory
      ensures Valid() && Model() == old(Model()).TurnTimeout(now)
    {
      if now >= turnState.turnEnd {
        EndTurnIfOver(now, false);
      }
    }

    /** The loop that outlines the selected `cards` in `color`. */
    method OutlineCards(cards: seq<Card>, color: Color, env: Collaborators)
      requires Valid()
      modifies this`actionHistory
      ensures Valid() && Model() == old(Model()).RecordActions(CardSelects(cards, true, Some(color), env))
    {
      var i := 0;
      while i < |cards|
        invariant 0 <= i <= |cards|
        invariant Valid()
        invariant Model() == old(Model()).RecordActions(CardSelects(cards[..i], true, Some(color), env))
      {
        ghost var selects := CardSelects(cards[..i + 1], true, Some(color), env);
        assert selects[..i] == CardSelects(cards[..i], true, Some(color), env);
        RecordAction(env.cardSelect(cards[i].id, true, Some(color)));
        i := i + 1;
      }
      assert cards[..i] == cards;
    }

    /**
     * The outline updates of `update`; returns the new invalid-set flag and
     * whether the cards changed.
     */
    method HighlightSelection(selected: seq<Card>, invalid: bool, env: Collaborators)
      returns (invalid': bool, changed: bool)
      requires Valid()
      modifies this`actionHistory
      ensures Valid() && (Model(), invalid', changed) == old(Model()).HighlightSelection(selected, invalid, env)
    {
      invalid' := invalid;
      changed := false;
      if env.selectedCardsCollide(board) && !invalid' {
        invalid' := true;
        changed := true;
        OutlineCards(selected, Red, env);
      }
      if !env.selectedCardsCollide(board) && invalid' {
        invalid' := false;
        changed := true;
        OutlineCards(selected, Blue, env);
      }
    }

    /** Deselect, broadcast and remove one card of a collected set. */
    method ClearCard(card: Card, env: Collaborators)
      requires Valid()
      modifies this`board, this`actionHistory
      ensures Valid() && Model() == old(Model()).ClearCard(card, env)
    {
      ghost var before := Model();
      board := SetSelected(board, card.id, false);
      ViewsKept(actors);
      assert Model() == before.(board := SetSelected(before.board, card.id, false));
      RecordAction(env.cardSelect(card.id, false, None));
      ghost var recorded := Model();
      board := RemoveCard(board, card.id);
      ViewsKept(actors);
      assert Model() == recorded.(board := RemoveCard(recorded.board, card.id));
    }

    /** The loop that deselects, broadcasts and removes the cards of a collected set. */
    method ClearCards(cards: seq<Card>, env: Collaborators)
      requires Valid()
      modifies this`board, this`actionHistory
      ensures Valid() && Model() == old(Model()).ClearCards(cards, env)
    {
      var i := 0;
      while i < |cards|
        invariant 0 <= i <= |cards|
        invariant Valid()
        invariant Model() == old(Model()).ClearCards(cards[..i], env)
      {
        assert cards[..i + 1][..i] == cards[..i];
        ClearCard(cards[i], env);
        i := i + 1;
      }
      assert cards[..i] == cards;
    }

    /** Collecting a valid set in `update`. */
    method CollectValidSet(selected: seq<Card>, env: Collaborators)
      requires Valid() && turnState.TurnUpdate?
      modifies this`turnState, this`turnHistory, this`board, this`actionHistory
      ensures Valid() && Model() == old(Model()).CollectValidSet(selected, env)
    {
      RecordTurnState(CollectSet(turnState));
      ClearCards(selected, env);
      board := env.addRandomCards(board);
      ViewsKept(actors);
    }

    /** Re-rendering the map for everyone in `update`. */
    method MarkMapStale(env: Collaborators)
      requires Valid()
      modifies this`mapUpdate, this`mapStale
      ensures Valid() && Model() == old(Model()).MarkMapStale(env)
    {
      mapUpdate := env.render(board);
      mapStale := SetForEach(mapStale, order, true);
      ViewsKept(actors);
    }

    /**
     * One iteration of the `update` loop at time `now`, with the invalid-set
     * flag the loop carries; returns the new flag.
     */
    method Update(now: int, invalid: bool, env: Collaborators) returns (invalid': bool)
      requires Valid() && !done
      modifies this, actors.Values
      ensures Valid() && (Model(), invalid') == old(Model()).UpdateStep(now, invalid, env)
    {
      if turnState.turnsLeft == -1 {
        EndGame(now);
        return invalid;
      }
      invalid' := Play(now, invalid, env);
    }

    /** The end of the game in `update`: the room is done and the final score is recorded. */
    method EndGame(now: int)
      requires Valid() && turnState.TurnUpdate?
      modifies this`done, this`turnState, this`turnHistory
      ensures Valid() && Model() == old(Model()).EndGame(now)
    {
      var gameOver := GameOverState(turnState, now);
      done := true;
      ViewsKept(actors);
      RecordTurnState(gameOver);
    }

    /** A step of `update` while the game is in progress. */
    method Play(now: int, invalid: bool, env: Collaborators) returns (invalid': bool)
      requires Valid() && turnState.TurnUpdate?
      modifies this`lastTick, this`turnState, this`turnHistory, this`synced, this`actionHistory, this`board,
               this`mapUpdate, this`mapStale, actors.Values
      ensures Valid() && (Model(), invalid') == old(Model()).Play(now, invalid, env)
    {
      RefreshTick(now);
      TurnTimeout(now);
      var color := if !invalid then Blue else Red;
      DispatchActors(now, color, env);
      invalid' := SettleSelection(invalid, env);
    }

    /** The card selection part of `update`. */
    method SettleSelection(invalid: bool, env: Collaborators) returns (invalid': bool)
      requires Valid() && turnState.TurnUpdate?
      modifies this`turnState, this`turnHistory, this`actionHistory, this`board, this`mapUpdate, this`mapStale
      ensures Valid() && (Model(), invalid') == old(Model()).SettleSelection(invalid, env)
    {
      var selected := SelectedCards(board);
      var changed;
      invalid', changed := HighlightSelection(selected, invalid, env);
      if env.selectedValidSet(board) {
        invalid' := false;
        changed := true;
        CollectValidSet(selected, env);
      }
      if changed {
        MarkMapStale(env);
      }
    }

    /** `handle_action`: queue `action` on actor `id` if it is that actor's own. */
    method HandleAction(id: int, action: Action) returns (status: Result<()>)
      requires Valid()
      modifies this`synced, actors.Values
      ensures Valid() && (Model(), status) == old(Model()).HandleAction(id, action)
    {
      if action.id != id {
        Desync(id);
        return Ok(());
      }
      if id !in actors {
        return Err(KeyError(id));
      }
      QueueAction(id, action);
      status := Ok(());
    }

    /** `add_action` on the registered actor `id`. */
    method QueueAction(id: int, action: Action)
      requires Valid() && id in actors
      modifies actors[id]
      ensures Valid() && Model() == old(Model()).QueueAction(id, action)
    {
      ViewsOfSplit(actors, id);
      actors[id].AddAction(action);
      ViewsKept(actors - {id});
      ViewsOfSplit(actors, id);
    }

    /** The loop of `handle_packet` over the actions of one packet; an exception ends it. */
    method HandleActions(id: int, actions: seq<Action>) returns (status: Result<()>)
      requires Valid()
      modifies this`synced, actors.Values
      ensures Valid() && (Model(), status) == old(Model()).HandleActions(id, actions)
    {
      var i := 0;
      while i < |actions|
        invariant 0 <= i <= |actions|
        invariant Valid()
        invariant Model().HandleActions(id, actions[i..]) == old(Model()).HandleActions(id, actions)
      {
        assert actions[i..][1..] == actions[i + 1..];
        status := HandleAction(id, actions[i]);
        if status.Err? {
          return;
        }
        i := i + 1;
      }
      status := Ok(());
    }

    /** `handle_objective`: a leader's objective gets `uuid` and is queued for everyone. */
    method HandleObjective(id: int, objective: Objective, uuid: string) returns (status: Result<()>)
      requires Valid()
      modifies this`objectives, this`objectivesStale
      ensures Valid() && (Model(), status) == old(Model()).HandleObjective(id, objective, uuid)
    {
      if id !in actors {
        return Err(KeyError(id));
      }
      if actors[id].role != Leader {
        return Ok(());
      }
      PublishObjectives(objectives + [objective.(uuid := uuid)]);
      status := Ok(());
    }

    /** `handle_objective_complete`: a follower completes the first objective with `uuid`. */
    method HandleObjectiveComplete(id: int, uuid: string) returns (status: Result<()>)
      requires Valid()
      modifies this`objectives, this`objectivesStale
      ensures Valid() && (Model(), status) == old(Model()).HandleObjectiveComplete(id, uuid)
    {
      if id !in actors {
        return Err(KeyError(id));
      }
      if actors[id].role != Follower {
        return Ok(());
      }
      var completed := CompleteFirstLoop(objectives, uuid);
      PublishObjectives(completed);
      status := Ok(());
    }

    /** Replaces the objectives and marks them stale for every registered actor. */
    method PublishObjectives(updated: seq<Objective>)
      requires Valid()
      modifies this`objectives, this`objectivesStale
      ensures Valid()
      ensures Model() == old(Model()).(objectives := updated, objectivesStale := SetEach(old(objectivesStale), order, true))
    {
      objectives := updated;
      objectivesStale := SetForEach(objectivesStale, order, true);
      ViewsKept(actors);
    }

    /** `handle_turn_complete`: the player whose turn it is ends it early. */
    method HandleTurnComplete(id: int, now: int) returns (status: Result<()>)
      requires Valid()
      modifies this`turnState, this`turnHistory
      ensures Valid() && (Model(), status) == old(Model()).HandleTurnComplete(id, now)
    {
      if id !in actors {
        return Err(KeyError(id));
      }
      if actors[id].role != turnState.turn {
        return Ok(());
      }
      EndTurnIfOver(now, true);
      status := Ok(());
    }

    /** `handle_packet`: dispatch a packet from player `id`; `uuid` is the fresh `uuid4().hex`. */
    method HandlePacket(id: int, message: MessageToServer, now: int, uuid: string) returns (status: Result<()>)
      requires Valid()
      modifies this`synced, this`objectives, this`objectivesStale, this`turnState, this`turnHistory, actors.Values
      ensures Valid() && (Model(), status) == old(Model()).HandlePacket(id, message, now, uuid)
    {
      match message
      case ActionsMessage(actions) =>
        status := HandleActions(id, actions);
      case ObjectiveMessage(objective) =>
        status := HandleObjective(id, objective, uuid);
      case ObjectiveCompletedMessage(u) =>
        status := HandleObjectiveComplete(id, u);
      case TurnCompleteMessage =>
        status := HandleTurnComplete(id, now);
      case StateSyncRequestMessage =>
        Desync(id);
        status := Ok(());
      case UnknownMessage =>
        status := Ok(());
    }

    /** `create_actor(role)` with `newId` from the id assigner; returns the new actor's id. */
    method CreateActor(role: Role, newId: int) returns (actorId: int)
      requires Valid()
      modifies this`actors, this`order, this`actionHistory, this`synced, this`spawnPoints
      ensures actorId == newId && newId in actors && fresh(actors[newId])
      ensures Valid() && Model() == old(Model()).CreateActor(role, newId)
    {
      var spawn := PopSpawnPoint();
      ghost var popped := Model();
      var asset := if role == Leader then PlayerAsset else FollowerBotAsset;
      var actor := new Actor(newId, asset, role, spawn);
      ViewsKept(actors);
      assert Model() == popped;
      Register(newId, actor);
      DesyncAll();
      actorId := newId;
    }

    /** `_spawn_points.pop()`, or the origin when none are left. */
    method PopSpawnPoint() returns (spawn: HecsCoord)
      requires Valid()
      modifies this`spawnPoints
      ensures Valid() && (Model(), spawn) == old(Model()).PopSpawnPoint()
    {
      spawn := Origin;
      if |spawnPoints| > 0 {
        spawn := spawnPoints[|spawnPoints| - 1];
        spawnPoints := spawnPoints[..|spawnPoints| - 1];
      }
      ViewsKept(actors);
    }

    /** The registration of a new actor object under `id` in `create_actor`. */
    method Register(id: int, actor: Actor)
      requires Valid() && actor.id == id && actor !in actors.Values
      modifies this`actors, this`order, this`actionHistory, this`synced
      ensures actors == old(actors)[id := actor]
      ensures Valid() && Model() == old(Model()).Register(id, actor.View())
    {
      OpenQueues(id);
      Enroll(id, actor);
    }

    /** An empty action queue and a cleared sync flag for `id`. */
    method OpenQueues(id: int)
      requires Valid()
      modifies this`actionHistory, this`synced
      ensures Valid() && Model() == old(Model()).OpenQueues(id)
    {
      actionHistory := actionHistory[id := []];
      synced := synced[id := false];
      ViewsKept(actors);
    }

    /** `_actors[id] = actor` for an actor object not registered yet. */
    method Enroll(id: int, actor: Actor)
      requires Valid() && actor.id == id && actor !in actors.Values
      requires id in actionHistory && id in synced
      modifies this`actors, this`order
      ensures actors == old(actors)[id := actor]
      ensures Valid() && Model() == old(Model()).Enroll(id, actor.View())
    {
      ghost var before := actors;
      EnrollConsistent(actors, order, actionHistory, synced, turnState, done, id, actor);
      order := if id in actors then order else order + [id];
      actors := actors[id := actor];
      ViewsKept(before);
      ViewsOfPut(before, id, actor);
    }

    /** `free_actor(id)`: forget the actor and its queues, then desync everyone. */
    method FreeActor(id: int)
      requires Valid()
      modifies this`actors, this`order, this`actionHistory, this`objectivesStale, this`turnHistory, this`synced
      ensures Valid() && Model() == old(Model()).FreeActor(id)
    {
      Forget(id);
      DesyncAll();
    }

    /** The deletions of `free_actor(id)`, before everyone is desynced. */
    method Forget(id: int)
      requires Valid()
      modifies this`actors, this`order, this`actionHistory, this`objectivesStale, this`turnHistory
      ensures Valid() && Model() == old(Model()).Forget(id)
    {
      Unenroll(id);
      CloseQueues(id);
    }

    /** `del _actors[id]`, when present. */
    method Unenroll(id: int)
      requires Valid()
      modifies this`actors, this`order
      ensures Valid() && id !in actors && Model() == old(Model()).Unenroll(id)
    {
      ghost var before := actors;
      UnenrollConsistent(actors, order, actionHistory, synced, turnState, done, id);
      actors := actors - {id};
      order := Without(order, id);
      ViewsKept(before);
      ViewsOfRemove(before, id);
    }

    /** The deletion of the queues and the objectives flag of an actor no longer registered. */
    method CloseQueues(id: int)
      requires Valid() && id !in actors
      modifies this`actionHistory, this`objectivesStale, this`turnHistory
      ensures Valid() && Model() == old(Model()).CloseQueues(id)
    {
      actionHistory := actionHistory - {id};
      objectivesStale := objectivesStale - {id};
      turnHistory := turnHistory - {id};
      ViewsKept(actors);
    }

    /** `is_synced`. */
    method IsSynced(id: int) returns (r: Result<bool>)
      ensures r == Model().IsSynced(id)
    {
      if id !in synced {
        return Err(KeyError(id));
      }
      r := Ok(synced[id]);
    }

    /** `has_pending_messages`: the loop over the actors in insertion order. */
    method HasPendingMessages() returns (r: Result<bool>)
      ensures r == Model().HasPendingMessages()
    {
      var i := 0;
      while i < |order|
        invariant 0 <= i <= |order|
        invariant Model().PendingFrom(order[i..]) == Model().PendingFrom(order)
      {
        var id := order[i];
        assert order[i..][1..] == order[i + 1..];
        if id !in synced {
          return Err(KeyError(id));
        }
        if !synced[id] {
          return Ok(true);
        }
        if id !in actionHistory {
          return Err(KeyError(id));
        }
        if |actionHistory[id]| > 0 {
          return Ok(true);
        }
        if id !in objectivesStale {
          return Err(KeyError(id));
        }
        if objectivesStale[id] {
          return Ok(true);
        }
        if id !in turnHistory {
          return Err(KeyError(id));
        }
        if turnHistory[id] != [] {
          return Ok(true);
        }
        i := i + 1;
      }
      r := Ok(false);
    }

    /** `drain_actions`. */
    method DrainActions(id: int) returns (actions: seq<Action>)
      requires Valid()
      modifies this`actionHistory
      ensures Valid() && (Model(), actions) == old(Model()).DrainActions(id)
    {
      if id !in actionHistory {
        return [];
      }
      actions := actionHistory[id];
      actionHistory := actionHistory[id := []];
      ViewsKept(actors);
    }

    /** `drain_objectives`. */
    method DrainObjectives(id: int) returns (drained: seq<Objective>)
      requires Valid()
      modifies this`objectivesStale
      ensures Valid() && (Model(), drained) == old(Model()).DrainObjectives(id)
    {
      if id !in objectivesStale {
        objectivesStale := objectivesStale[id := true];
        assert objectivesStale[id := false] == old(objectivesStale)[id := false];
      }
      if !objectivesStale[id] {
        ViewsKept(actors);
        return [];
      }
      objectivesStale := objectivesStale[id := false];
      ViewsKept(actors);
      drained := objectives;
    }

    /** `drain_map_update`. */
    method DrainMapUpdate(id: int) returns (update: Option<MapUpdate>)
      requires Valid()
      modifies this`mapStale
      ensures Valid() && (Model(), update) == old(Model()).DrainMapUpdate(id)
    {
      if id !in mapStale {
        mapStale := mapStale[id := true];
        assert mapStale[id := false] == old(mapStale)[id := false];
      }
      if !mapStale[id] {
        ViewsKept(actors);
        return None;
      }
      mapStale := mapStale[id := false];
      ViewsKept(actors);
      update := Some(mapUpdate);
    }

    /** `state(actor_id)`: the loop collecting the actor states in insertion order. */
    method StateSyncFor(playerId: int) returns (s: StateSync)
      requires Valid()
      ensures s == Model().StateSyncFor(playerId)
    {
      var states: seq<ActorState> := [];
      var i := 0;
      while i < |order|
        invariant 0 <= i <= |order|
        invariant |states| == i
        invariant forall k | 0 <= k < i :: states[k] == Model().actors[order[k]].State()
      {
        assert order[i] in Elems(order);
        states := states + [actors[order[i]].View().State()];
        i := i + 1;
      }
      s := StateSync(|actors|, states, playerId);
      assert |Model().actors| == |actors| by {
        assert Model().actors.Keys == actors.Keys;
      }
    }

    /** `sync_message_for_transmission`. */
    method SyncMessageForTransmission(id: int) returns (s: StateSync)
      requires Valid()
      modifies this`synced
      ensures Valid() && (Model(), s) == old(Model()).SyncMessageForTransmission(id)
    {
      s := StateSyncFor(id);
      synced := synced[id := true];
      ViewsKept(actors);
    }

    /** `drain_message`: the next message for `player`, or `None` when nothing is pending. */
    method DrainMessage(player: int) returns (r: Result<Option<MessageFromServer>>)
      requires Valid()
      modifies this`mapStale, this`synced, this`actionHistory, this`objectivesStale, this`turnHistory
      ensures Valid() && (Model(), r) == old(Model()).DrainMessage(player)
    {
      var update := DrainMapUpdate(player);
      if update.Some? {
        return Ok(Some(MapUpdateFromServer(update.value)));
      }
      var synced' := IsSynced(player);
      if synced'.Err? {
        return Err(synced'.error);
      }
      if !synced'.value {
        var sync := SyncMessageForTransmission(player);
        return Ok(Some(StateSyncFromServer(sync)));
      }
      r := DrainQueued(player);
    }

    /** The tail of `drain_message` for a synced player. */
    method DrainQueued(player: int) returns (r: Result<Option<MessageFromServer>>)
      requires Valid()
      modifies this`actionHistory, this`objectivesStale, this`turnHistory
      ensures Valid() && (Model(), r) == old(Model()).DrainQueued(player)
    {
      var actions := DrainActions(player);
      if |actions| > 0 {
        return Ok(Some(ActionsFromServer(actions)));
      }
      var objectives' := DrainObjectives(player);
      if |objectives'| > 0 {
        return Ok(Some(ObjectivesFromServer(objectives')));
      }
      var turn := DrainTurnState(player);
      if turn.Some? {
        return Ok(Some(GameStateFromServer(turn.value)));
      }
      r := Ok(None);
    }
  }
}
