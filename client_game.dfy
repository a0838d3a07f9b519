// The game a headless client plays (py_client/cb2_client.py, `Game`): the
// state it keeps from the server's messages, the one-shot hand-out of the
// initial state, the role and turn checks of `step`, and how incoming
// actions are queued on the other actors.
module ClientGame {
  import opened Common
  import opened ActionMessages
  import opened TurnRules
  import opened RoomModel
  import opened ClientActions

  /** `state_sync.Actor` as the client reads it. */
  datatype NetActor = NetActor(actorId: int, role: Role, location: HecsCoord, rotationDegrees: real)

  /** `state_sync.StateSync` as the client reads it. */
  datatype ClientStateSync = ClientStateSync(playerId: int, playerRole: Role, actors: seq<NetActor>)

  /** `prop.PropUpdate`. */
  datatype PropUpdate = PropUpdate(props: seq<Prop>)

  /** `rooms.RoomManagementResponse`, of which the client only reads join responses. */
  datatype RoomResponse =
    | JoinResponse(joined: bool, placeInQueue: int, role: Role, bootedFromQueue: bool)
    | OtherRoomResponse

  /** `message_from_server.MessageFromServer`, by message type. */
  datatype ServerMessage =
    | ActionsMsg(actions: seq<Action>)
    | StateSyncMsg(state: ClientStateSync)
    | RoomManagementMsg(response: RoomResponse)
    | GameStateMsg(turnState: TurnState)
    | MapUpdateMsg(mapUpdate: MapUpdate)
    | ObjectiveMsg(objectives: seq<Objective>)
    | PingMsg
    | LiveFeedbackMsg(signal: int)
    | PropUpdateMsg(propUpdate: PropUpdate)
    | StateMachineTickMsg

  /** What `Game._state` hands the caller. */
  datatype Snapshot = Snapshot(mapUpdate: Option<MapUpdate>, propUpdate: Option<PropUpdate>,
                               turnState: Option<TurnState>, instructions: seq<Objective>,
                               actors: map<int, LocalView>)

  /**
   * `self.turn_state.turn`: the role whose turn it is. Before any turn state
   * arrived the attribute is read on `None`, which raises.
   */
  function TurnOf(turnState: Option<TurnState>): (r: Result<Role>)
    ensures r.Ok? <==> turnState.Some?
    ensures r.Ok? ==> r.value == turnState.value.turn
    ensures r.Err? ==> r.error == AttributeError("turn")
  {
    if turnState.Some? then Ok(turnState.value.turn)
    else Err(AttributeError("turn"))
  }

  /**
   * The checks `Game.step` makes before it sends anything: the first one
   * that fails raises its `ValueError`; the player's role is checked before
   * the turn.
   */
  function StepCheck(role: Role, turnState: Option<TurnState>, action: PlayerAction): Result<()>
  {
    match action
    case Follow(_) =>
      if role != Follower then Err(ValueError("Not a follower, cannot send follow action"))
      else if TurnOf(turnState).Err? then Err(TurnOf(turnState).error)
      else if TurnOf(turnState).value != Follower then Err(ValueError("Not your turn, cannot send follow action"))
      else Ok(())
    case Lead(_) =>
      if role != Leader then Err(ValueError("Not a leader, cannot send lead action"))
      else if TurnOf(turnState).Err? then Err(TurnOf(turnState).error)
      else if TurnOf(turnState).value != Leader then Err(ValueError("Not your turn, cannot send lead action"))
      else Ok(())
    case LeadFeedback(_) =>
      if role != Leader then Err(ValueError("Not a leader, cannot send lead feedback action"))
      else if TurnOf(turnState).Err? then Err(TurnOf(turnState).error)
      else if TurnOf(turnState).value != Follower then Err(ValueError("Not follower turn, cannot send lead feedback action"))
      else Ok(())
  }

  /** Who may take which action: followers move in their turn, leaders move in theirs and give feedback in the follower's. */
  predicate Allowed(role: Role, turn: Role, action: PlayerAction)
  {
    match action
    case Follow(_) => role == Follower && turn == Follower
    case Lead(_) => role == Leader && turn == Leader
    case LeadFeedback(_) => role == Leader && turn == Follower
  }

  /**
   * `step` goes ahead exactly when the action is allowed for the player's
   * role in the current turn. Once a turn state has arrived every refusal is
   * a `ValueError`, and a game-over state, whose turn is no role, refuses
   * every action. A refused action by a player of the wrong role raises
   * `ValueError` whatever the turn state; a player of the right role before
   * any turn state raises `AttributeError`.
   */
  lemma StepCheckAllows(role: Role, turnState: Option<TurnState>, action: PlayerAction)
    ensures StepCheck(role, turnState, action).Ok?
        <==> TurnOf(turnState).Ok? && Allowed(role, TurnOf(turnState).value, action)
    ensures turnState.Some? && StepCheck(role, turnState, action).Err? ==>
              StepCheck(role, turnState, action).error.ValueError?
    ensures turnState.Some? && turnState.value.turn == NoRole ==> StepCheck(role, turnState, action).Err?
    ensures (action.Follow? && role != Follower) || (!action.Follow? && role != Leader) ==>
              StepCheck(role, turnState, action).Err? && StepCheck(role, turnState, action).error.ValueError?
    ensures turnState.None? && ((action.Follow? && role == Follower) || (!action.Follow? && role == Leader)) ==>
              StepCheck(role, turnState, action) == Err(AttributeError("turn"))
  {
  }

  /**
   * `_can_act`: whether the player may act now, which a leader always may.
   * The turn is read first, so a missing turn raises even for a leader.
   */
  function CanAct(role: Role, turnState: Option<TurnState>): (r: Result<bool>)
    ensures r.Ok? <==> TurnOf(turnState).Ok?
    ensures r.Ok? ==> (r.value <==> role == TurnOf(turnState).value || role == Leader)
  {
    match TurnOf(turnState)
    case Err(e) => Err(e)
    case Ok(turn) => Ok(role == turn || role == Leader)
  }

  /** An action `step` lets through is one the player may act on. */
  lemma AllowedPlayerCanAct(role: Role, turnState: Option<TurnState>, action: PlayerAction)
    requires StepCheck(role, turnState, action).Ok?
    ensures CanAct(role, turnState) == Ok(true)
  {
    StepCheckAllows(role, turnState, action);
  }

  /** The actions of `actions` addressed to actor `id`, in order. */
  function ActionsFor(actions: seq<Action>, id: int): (r: seq<Action>)
    ensures forall a | a in r :: a in actions && a.id == id
    ensures |r| <= |actions|
  {
    if actions == [] then []
    else ActionsFor(actions[..|actions| - 1], id)
         + (if actions[|actions| - 1].id == id then [actions[|actions| - 1]] else [])
  }

  /**
   * The loop of `_handle_message` over an actions message, on the actors'
   * queues: each action is appended to its actor's queue, except the
   * player's own actions and those of actors the client does not know.
   */
  function Deliver(queues: map<int, seq<Action>>, actions: seq<Action>, me: int): map<int, seq<Action>>
  {
    if actions == [] then queues
    else
      var before := Deliver(queues, actions[..|actions| - 1], me);
      var a := actions[|actions| - 1];
      if a.id == me || a.id !in before then before
      else before[a.id := before[a.id] + [a]]
  }

  /**
   * After an actions message every known actor other than the player has
   * all the actions addressed to it appended, in order, and the player's
   * own queue and the set of known actors do not change.
   */
  lemma {:induction false} DeliverAppends(queues: map<int, seq<Action>>, actions: seq<Action>, me: int)
    ensures Deliver(queues, actions, me).Keys == queues.Keys
    ensures forall id | id in queues ::
              Deliver(queues, actions, me)[id] == queues[id] + (if id == me then [] else ActionsFor(actions, id))
    decreases |actions|
  {
    if actions != [] {
      DeliverAppends(queues, actions[..|actions| - 1], me);
    }
  }

  /** `Game`: the client's copy of the game. */
  class Game {
    var mapUpdate: Option<MapUpdate>
    var propUpdate: Option<PropUpdate>
    var actor: LocalActor?                     // `Game.actor`, which nothing assigns
    var actors: map<int, LocalActor>
    var turnState: Option<TurnState>
    var instructions: seq<Objective>
    var objectives: Option<seq<Objective>>     // set by the first objectives message
    var queuedMessages: seq<ClientMessage>
    var outbox: seq<ClientMessage>             // handed to `Cb2Client._send_message`, in order
    var playerId: int
    var playerRole: Role
    var initialStateReady: bool
    var initialStateRetrieved: bool

    /** Every actor object is filed under its own id, so no object is filed twice. */
    ghost predicate Valid()
      reads this, actors.Values
    {
      && (forall id | id in actors :: actors[id].id == id)
      && (initialStateRetrieved ==> initialStateReady)
    }

    /** The actors as values. */
    function Views(): (views: map<int, LocalView>)
      reads this`actors, actors.Values
      ensures views.Keys == actors.Keys
    {
      LocalViewsOf(actors)
    }

    /** The queue of each actor. */
    function Queues(): (queues: map<int, seq<Action>>)
      reads this`actors, actors.Values
      ensures queues.Keys == actors.Keys
    {
      map id | id in actors :: actors[id].actions
    }

    /** `_state`. */
    function State(): Snapshot
      reads this, actors.Values
    {
      Snapshot(mapUpdate, propUpdate, turnState, instructions, Views())
    }

    /** `Game(client)`, which runs `_reset`. */
    constructor ()
      ensures Valid() && !initialStateReady && !initialStateRetrieved
      ensures actors == map[] && actor == null && turnState.None? && queuedMessages == [] && outbox == []
      ensures mapUpdate.None? && propUpdate.None? && playerId == -1 && playerRole == NoRole
    {
      mapUpdate := None;
      propUpdate := None;
      actor := null;
      actors := map[];
      turnState := None;
      instructions := [];
      objectives := None;
      queuedMessages := [];
      outbox := [];
      playerId := -1;
      playerRole := NoRole;
      initialStateReady := false;
      initialStateRetrieved := false;
    }

    /**
     * `initial_state`: the state, the first time it is asked for after
     * `_initialize`; `None` before that and on every later call.
     */
    method InitialState() returns (r: Option<Snapshot>)
      requires Valid()
      modifies this`initialStateRetrieved
      ensures Valid()
      ensures r.Some? <==> old(initialStateReady && !initialStateRetrieved)
      ensures r.Some? ==> r.value == State()
      ensures initialStateRetrieved <==> old(initialStateRetrieved || initialStateReady)
    {
      if initialStateRetrieved {
        return None;
      }
      if !initialStateReady {
        return None;
      }
      initialStateRetrieved := true;
      r := Some(State());
    }

    /**
     * `_initialize`: takes over the first state sync, map, props and turn
     * state, with a fresh actor for each actor of the sync; a second call
     * changes nothing.
     */
    method Initialize(sync: ClientStateSync, map': MapUpdate, props: PropUpdate, turn: TurnState)
      requires Valid()
      modifies this`mapUpdate, this`propUpdate, this`playerId, this`playerRole, this`actors,
               this`turnState, this`initialStateReady
      ensures Valid() && initialStateReady
      ensures old(initialStateReady) ==> unchanged(this)
      ensures !old(initialStateReady) ==>
                && mapUpdate == Some(map') && propUpdate == Some(props) && turnState == Some(turn)
                && playerId == sync.playerId && playerRole == sync.playerRole
                && LocalViewsOf(actors) == old(LocalViewsOf(actors)) + Arrivals(sync.actors)
    {
      if initialStateReady {
        return;
      }
      AddArrivals(sync.actors);
      TakeOver(sync, map', props, turn);
    }

    /** The assignments of `_initialize` besides the actors. */
    method TakeOver(sync: ClientStateSync, map': MapUpdate, props: PropUpdate, turn: TurnState)
      requires Valid()
      modifies this`mapUpdate, this`propUpdate, this`playerId, this`playerRole, this`turnState,
               this`initialStateReady
      ensures Valid() && initialStateReady
      ensures mapUpdate == Some(map') && propUpdate == Some(props) && turnState == Some(turn)
      ensures playerId == sync.playerId && playerRole == sync.playerRole
    {
      mapUpdate, propUpdate, turnState := Some(map'), Some(props), Some(turn);
      playerId, playerRole := sync.playerId, sync.playerRole;
      initialStateReady := true;
    }

    /** The loop of `_initialize` that files a fresh actor for each actor of a state sync. */
    method AddArrivals(net: seq<NetActor>)
      requires Valid()
      modifies this`actors
      ensures Valid()
      ensures LocalViewsOf(actors) == old(LocalViewsOf(actors)) + Arrivals(net)
    {
      var filed := actors;
      var i := 0;
      while i < |net|
        invariant 0 <= i <= |net|
        invariant forall id | id in filed :: filed[id].id == id
        invariant LocalViewsOf(filed) == old(LocalViewsOf(actors)) + Arrivals(net[..i])
      {
        var arrival := new LocalActor(net[i].actorId, net[i].role, net[i].location, net[i].rotationDegrees);
        ghost var view := LocalView(net[i].actorId, net[i].role, [], net[i].location, net[i].rotationDegrees);
        assert arrival.View() == view;
        LocalViewsOfPut(filed, net[i].actorId, arrival);
        filed := filed[net[i].actorId := arrival];
        assert net[..i + 1][..i] == net[..i];
        assert Arrivals(net[..i + 1]) == Arrivals(net[..i])[net[i].actorId := view];
        MapOverridePut(old(LocalViewsOf(actors)), Arrivals(net[..i]), net[i].actorId, view);
        i := i + 1;
      }
      assert net[..i] == net;
      actors := filed;
    }

    /**
     * `_handle_message`. A state sync and a live feedback signal reach code
     * that reads attributes `Game` never sets and raise; every other message
     * updates the part of the game it is about.
     */
    method HandleMessage(message: ServerMessage) returns (r: Result<()>)
      requires Valid()
      modifies this`turnState, this`mapUpdate, this`objectives, this`queuedMessages, actors.Values
      ensures Valid()
      ensures r.Err? <==> message.StateSyncMsg? || message.LiveFeedbackMsg?
      ensures message.StateSyncMsg? ==> r == Err(AttributeError("state_sync"))
      ensures message.LiveFeedbackMsg? ==> r == Err(AttributeError("_live_feedback_handler"))
      ensures Queues() == if message.ActionsMsg? then Deliver(old(Queues()), message.actions, playerId)
                          else old(Queues())
      ensures turnState == if message.GameStateMsg? then Some(message.turnState) else old(turnState)
      ensures mapUpdate == if message.MapUpdateMsg? then Some(message.mapUpdate) else old(mapUpdate)
      ensures objectives == if message.ObjectiveMsg? then Some(message.objectives) else old(objectives)
      ensures queuedMessages == old(queuedMessages) + if message.PingMsg? then [PongMessage] else []
      ensures forall id | id in actors :: actors[id].location == old(actors[id].location)
                                          && actors[id].heading == old(actors[id].heading)
    {
      r := Ok(());
      match message
      case ActionsMsg(actions) =>
        DeliverActions(actions);
      case StateSyncMsg(_) =>
        r := Err(AttributeError("state_sync"));
      case GameStateMsg(ts) =>
        turnState := Some(ts);
      case MapUpdateMsg(m) =>
        mapUpdate := Some(m);
      case ObjectiveMsg(objs) =>
        objectives := Some(objs);
      case PingMsg =>
        queuedMessages := queuedMessages + [PongMessage];
      case LiveFeedbackMsg(_) =>
        r := Err(AttributeError("_live_feedback_handler"));
      case _ =>
    }

    /** The loop of `_handle_message` over the actions of an actions message. */
    method DeliverActions(actions: seq<Action>)
      requires Valid()
      modifies actors.Values
      ensures Queues() == Deliver(old(Queues()), actions, playerId)
      ensures forall id | id in actors :: actors[id].location == old(actors[id].location)
                                          && actors[id].heading == old(actors[id].heading)
    {
      var i := 0;
      while i < |actions|
        invariant 0 <= i <= |actions|
        invariant Valid()
        invariant Queues() == Deliver(old(Queues()), actions[..i], playerId)
        invariant forall id | id in actors :: actors[id].location == old(actors[id].location)
                                            && actors[id].heading == old(actors[id].heading)
      {
        var a := actions[i];
        assert actions[..i + 1][..i] == actions[..i];
        if a.id != playerId && a.id in actors {
          ghost var before := Queues();
          assert forall id | id in actors && id != a.id :: actors[id] != actors[a.id];
          actors[a.id].AddAction(a);
          assert Queues() == before[a.id := before[a.id] + [a]];
        }
        i := i + 1;
      }
      assert actions[..i] == actions;
    }

    /**
     * `step`, up to the wait for the next tick: an action the player may
     * not take is refused before anything is sent; otherwise its message,
     * if any, and then every queued message are handed to the client.
     */
    method Step(action: PlayerAction, build: MoveBuilder) returns (r: Result<()>)
      requires Valid()
      modifies this`outbox, actor
      ensures Valid()
      ensures StepCheck(old(playerRole), old(turnState), action).Err? ==>
                r == StepCheck(old(playerRole), old(turnState), action) && outbox == old(outbox)
      ensures StepCheck(old(playerRole), old(turnState), action).Ok? ==>
                var reply := ActionReply(action, old(PoseOf(actor)), build);
                && (reply.Err? ==> r == Err(reply.error) && outbox == old(outbox))
                && (reply.Ok? ==>
                      && r == Ok(())
                      && outbox == old(outbox) + (if reply.value.0.Some? then [reply.value.0.value] else [])
                                   + queuedMessages)
      ensures actor != null ==>
                actor.actions == old(actor.actions)
                  + if StepCheck(old(playerRole), old(turnState), action).Ok?
                    then QueuedBy(ActionReply(action, old(PoseOf(actor)), build)) else []
    {
      var check := StepCheck(playerRole, turnState, action);
      if check.Err? {
        return check;
      }
      var reply := ActionMessageToServer(action, actor, build);
      if reply.Err? {
        return Err(reply.error);
      }
      var (message, _) := reply.value;
      if message.Some? {
        outbox := outbox + [message.value];
      }
      outbox := outbox + queuedMessages;
      r := Ok(());
    }
  }

  /** The actors a state sync brings, later entries overriding earlier ones with the same id. */
  function Arrivals(net: seq<NetActor>): (views: map<int, LocalView>)
    ensures views.Keys == set a | a in net :: a.actorId
  {
    if net == [] then map[]
    else
      var a := net[|net| - 1];
      Arrivals(net[..|net| - 1])[a.actorId := LocalView(a.actorId, a.role, [], a.location, a.rotationDegrees)]
  }

  /** Overriding with a map and then updating a key is overriding with the updated map. */
  lemma MapOverridePut<K, V>(a: map<K, V>, b: map<K, V>, k: K, v: V)
    ensures (a + b)[k := v] == a + b[k := v]
  {
  }

  /**
   * The values of a map of the client's actor objects. The server's
   * `RoomState.ViewsOf` does the same for its own actor class; the two
   * classes hold different fields, so each has its own abstraction.
   */
  function LocalViewsOf(m: map<int, LocalActor>): (views: map<int, LocalView>)
    reads m.Values
    ensures views.Keys == m.Keys
  {
    map id | id in m :: m[id].View()
  }

  /** Filing an actor object adds its value. */
  lemma LocalViewsOfPut(m: map<int, LocalActor>, id: int, actor: LocalActor)
    ensures LocalViewsOf(m[id := actor]) == LocalViewsOf(m)[id := actor.View()]
  {
  }
}
