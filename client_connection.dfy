// The connection life cycle of the headless client (py_client/cb2_client.py,
// `Cb2Client`): BEGIN, CONNECTED, IN_QUEUE, IN_GAME_INIT and GAME_STARTED,
// with the wait for a game read as a fold over the websocket events that
// arrive before the deadline.
module ClientConnection {
  import opened Common
  import opened TurnRules
  import opened RoomModel
  import opened ClientActions
  import opened ClientGame

  /** `Cb2Client.State`. */
  datatype ClientState = NoState | Begin | Connected | InQueue | InGameInit | GameStarted | GameEnded
                       | ErrorState | MaxState

  /** `Cb2Client.QueueType`. */
  datatype QueueType = QueueNone | LeaderOnly | FollowerOnly | DefaultQueue | QueueMax

  /** `str()` of a client state, as Python prints an enum member. */
  function StateName(s: ClientState): string
  {
    match s
    case NoState => "State.NONE"
    case Begin => "State.BEGIN"
    case Connected => "State.CONNECTED"
    case InQueue => "State.IN_QUEUE"
    case InGameInit => "State.IN_GAME_INIT"
    case GameStarted => "State.GAME_STARTED"
    case GameEnded => "State.GAME_OVER"
    case ErrorState => "State.ERROR"
    case MaxState => "State.MAX"
  }

  /** `str()` of a queue type. */
  function QueueName(q: QueueType): string
  {
    match q
    case QueueNone => "QueueType.NONE"
    case LeaderOnly => "QueueType.LEADER_ONLY"
    case FollowerOnly => "QueueType.FOLLOWER_ONLY"
    case DefaultQueue => "QueueType.DEFAULT"
    case QueueMax => "QueueType.MAX"
  }

  /** The message that puts the player in a queue of the given type, if it is one. */
  function JoinMessage(q: QueueType): Option<ClientMessage>
  {
    match q
    case DefaultQueue => Some(JoinQueueMessage)
    case LeaderOnly => Some(JoinLeaderQueueMessage)
    case FollowerOnly => Some(JoinFollowerQueueMessage)
    case _ => None
  }

  /**
   * What one `ws.receive` yields: nothing, an error, the close, some other
   * frame or a text message; or it runs out of the time left before the
   * deadline, and raises `TimeoutError`.
   */
  datatype WsEvent = NoEvent | WsError | WsClosed | WsOtherFrame | WsText(message: ServerMessage) | ReceiveTimeout

  /** The state and the local variables of `_wait_for_game` between two receives. */
  datatype Progress = Progress(state: ClientState, sync: Option<ClientStateSync>, mapUpdate: Option<MapUpdate>,
                               props: Option<PropUpdate>, turn: Option<TurnState>)
  {
    /** All four parts of the initial state have arrived. */
    predicate Complete()
    {
      sync.Some? && mapUpdate.Some? && props.Some? && turn.Some?
    }

    /** Nothing of the initial state has arrived yet. */
    predicate Empty()
    {
      sync.None? && mapUpdate.None? && props.None? && turn.None?
    }
  }

  /** Whether `_wait_for_game` keeps waiting, returns (and with what), or raises. */
  datatype Verdict = Pending | Finished(joined: bool, reason: string) | Raised(error: PyError)

  /** The wait returned a started game. */
  predicate Joined(v: Verdict)
  {
    v.Finished? && v.joined
  }

  /** Where `_wait_for_game` starts once the client is in the queue. */
  const Queued: Progress := Progress(InQueue, None, None, None, None)

  /** A join response that lets the player into a game. */
  predicate Admits(e: WsEvent)
  {
    e.WsText? && e.message.RoomManagementMsg? && e.message.response.JoinResponse? && e.message.response.joined
  }

  /** A join response that boots the player from the queue. */
  predicate Boots(e: WsEvent)
  {
    e.WsText? && e.message.RoomManagementMsg? && e.message.response.JoinResponse? && e.message.response.bootedFromQueue
  }

  /** One iteration of the loop of `_wait_for_game` on one received event. */
  function Receive(p: Progress, e: WsEvent): (Progress, Verdict)
  {
    match e
    case WsClosed => (p, Finished(false, "Socket closed."))
    case ReceiveTimeout => (p, Raised(TimeoutError))
    case WsText(message) =>
      if p.state == InQueue && Boots(e) then (p.(state := Connected), Finished(false, "Booted from queue"))
      else
        var joined := p.(state := if p.state == InQueue && Admits(e) then InGameInit else p.state);
        var init := joined.state == InGameInit;
        var got := joined.(
          sync := if init && message.StateSyncMsg? then Some(message.state) else joined.sync,
          mapUpdate := if init && message.MapUpdateMsg? then Some(message.mapUpdate) else joined.mapUpdate,
          props := if init && message.PropUpdateMsg? then Some(message.propUpdate) else joined.props,
          turn := if init && message.GameStateMsg? then Some(message.turnState) else joined.turn);
        if init && got.Complete() then (got.(state := GameStarted), Finished(true, ""))
        else (got, Pending)
    case _ => (p, Pending)
  }

  /**
   * The loop of `_wait_for_game` over the events that arrive before the
   * deadline; running out of events is the deadline check at the head of
   * the loop finding the deadline passed.
   */
  function WaitOn(p: Progress, events: seq<WsEvent>): (r: (Progress, Verdict))
    ensures !r.1.Pending?
    decreases |events|
  {
    if events == [] then (p, Finished(false, "Timed out waiting for game"))
    else
      var step := Receive(p, events[0]);
      if step.1.Pending? then WaitOn(step.0, events[1..]) else step
  }

  /** The states `_wait_for_game` passes through while it waits. */
  predicate Waiting(p: Progress)
  {
    (p.state == InQueue && p.Empty()) || p.state == InGameInit
  }

  /**
   * One received event either keeps the client waiting, or ends the wait
   * in GAME_STARTED with the whole initial state, back in CONNECTED after
   * being booted, or in place when the socket closes or the receive times
   * out.
   */
  lemma ReceiveMoves(p: Progress, e: WsEvent)
    requires Waiting(p)
    ensures var (q, v) := Receive(p, e);
            && (v.Pending? ==> Waiting(q))
            && (Joined(v) <==> q.state == GameStarted)
            && (q.state == GameStarted ==> q.Complete() && (p.state == InGameInit || Admits(e)))
            && (q.state == Connected <==> p.state == InQueue && Boots(e))
            && (q.state == Connected ==> v == Finished(false, "Booted from queue"))
            && (v.Finished? && !v.joined && q.state != Connected ==> e.WsClosed? && q == p)
            && (v.Raised? <==> e.ReceiveTimeout?)
            && (v.Raised? ==> v.error == TimeoutError && q == p)
  {
  }

  /**
   * However the wait ends, a game has started exactly when the client is in
   * GAME_STARTED, and then it holds a state sync, a map, the props and a
   * turn state; a wait that fails leaves the client in the queue, in the
   * game's initialisation, or (booted) back in CONNECTED. It raises only
   * `TimeoutError`, and only when a receive timed out.
   */
  lemma {:induction false} WaitOnEnds(p: Progress, events: seq<WsEvent>)
    requires Waiting(p)
    ensures var (q, v) := WaitOn(p, events);
            && (Joined(v) <==> q.state == GameStarted)
            && (Joined(v) ==> q.Complete() && v.reason == "")
            && (!Joined(v) ==> Waiting(q) || q.state == Connected)
            && (q.state == Connected ==> v == Finished(false, "Booted from queue"))
            && (v.Raised? ==> v.error == TimeoutError && ReceiveTimeout in events)
    decreases |events|
  {
    if events != [] {
      ReceiveMoves(p, events[0]);
      if Receive(p, events[0]).1.Pending? {
        WaitOnEnds(Receive(p, events[0]).0, events[1..]);
      }
    }
  }

  /** A client still in the queue joins a game only after a join response admitted it. */
  lemma {:induction false} StartNeedsAdmission(p: Progress, events: seq<WsEvent>)
    requires p.state == InQueue && p.Empty()
    ensures Joined(WaitOn(p, events).1) ==> exists i | 0 <= i < |events| :: Admits(events[i])
    decreases |events|
  {
    if events != [] && !Admits(events[0]) {
      var step := Receive(p, events[0]);
      assert step.1.Pending? ==> step.0 == p;
      if step.1.Pending? {
        StartNeedsAdmission(p, events[1..]);
        if Joined(WaitOn(p, events).1) {
          var i :| 0 <= i < |events[1..]| && Admits(events[1..][i]);
          assert Admits(events[i + 1]);
        }
      }
    }
  }

  /** `Cb2Client`: the connection and the game it joined. */
  class Cb2Client {
    var initState: ClientState
    var socketOpen: bool                      // `session` and `ws` are set
    var outbox: seq<ClientMessage>            // what `_send_message` put on the socket, in order
    var playerId: int
    var playerRole: Option<Role>
    var game: Game?

    /** `Cb2Client(url)`, which runs `Reset`. */
    constructor ()
      ensures initState == Begin && !socketOpen && outbox == [] && game == null
      ensures playerId == -1 && playerRole.None?
    {
      initState := Begin;
      socketOpen := false;
      outbox := [];
      playerId := -1;
      playerRole := None;
      game := null;
    }

    /** `Connect`: opens the socket, but only from BEGIN. */
    method Connect() returns (ok: bool, reason: string)
      modifies this`initState, this`socketOpen
      ensures ok <==> old(initState) == Begin
      ensures ok ==> initState == Connected && socketOpen && reason == ""
      ensures !ok ==> initState == old(initState) && socketOpen == old(socketOpen)
                      && reason == "Server is not in the BEGIN state. Call Reset() first?"
    {
      if initState != Begin {
        return false, "Server is not in the BEGIN state. Call Reset() first?";
      }
      socketOpen := true;
      initState := Connected;
      return true, "";
    }

    /** `Reset`: closes the socket and forgets the game, from any state. */
    method Reset()
      modifies this`initState, this`socketOpen, this`playerId, this`playerRole, this`game
      ensures initState == Begin && !socketOpen && game == null && playerId == -1 && playerRole.None?
    {
      socketOpen := false;
      playerRole := None;
      playerId := -1;
      initState := Begin;
      game := null;
    }

    /**
     * `_join_queue`: sends the join message of the queue type, only from
     * CONNECTED or GAME_OVER; an unknown queue type sends nothing and leaves
     * the state alone.
     */
    method JoinQueue(queueType: QueueType) returns (ok: bool, reason: string)
      modifies this`initState, this`outbox
      ensures ok <==> old(initState) in {Connected, GameEnded} && JoinMessage(queueType).Some?
      ensures ok ==> initState == InQueue && outbox == old(outbox) + [JoinMessage(queueType).value] && reason == ""
      ensures !ok ==> initState == old(initState) && outbox == old(outbox)
      ensures old(initState) !in {Connected, GameEnded} ==>
                reason == "Not ready to join game. State: " + StateName(old(initState))
      ensures old(initState) in {Connected, GameEnded} && JoinMessage(queueType).None? ==>
                reason == "Invalid queue type " + QueueName(queueType)
    {
      if initState != Connected && initState != GameEnded {
        return false, "Not ready to join game. State: " + StateName(initState);
      }
      var message := JoinMessage(queueType);
      if message.None? {
        return false, "Invalid queue type " + QueueName(queueType);
      }
      outbox := outbox + [message.value];
      initState := InQueue;
      return true, "";
    }

    /**
     * `_wait_for_game` over the events received before the deadline: the
     * state moves as `WaitOn` says, a started game is a fresh `Game`
     * initialised with what arrived, and a receive that times out raises.
     */
    method WaitForGame(events: seq<WsEvent>) returns (r: Result<(bool, string)>)
      modifies this`initState, this`game
      ensures old(initState) != InQueue ==>
                r == Ok((false, "Not in queue, yet waiting for game.")) && initState == old(initState)
                && game == old(game)
      ensures old(initState) == InQueue ==>
                var (q, v) := WaitOn(Queued, events);
                && initState == q.state
                && (v.Finished? ==> r == Ok((v.joined, v.reason)))
                && (v.Raised? ==> r == Err(v.error))
                && (!Joined(v) ==> game == old(game))
                && (Joined(v) ==> && game != null && fresh(game) && game.initialStateReady
                                  && game.mapUpdate == q.mapUpdate && game.propUpdate == q.props
                                  && game.turnState == q.turn
                                  && q.sync.Some? && game.playerId == q.sync.value.playerId
                                  && game.playerRole == q.sync.value.playerRole
                                  && game.Valid() && !game.initialStateRetrieved
                                  && LocalViewsOf(game.actors) == Arrivals(q.sync.value.actors))
    {
      if initState != InQueue {
        return Ok((false, "Not in queue, yet waiting for game."));
      }
      var p := Queued;
      var i := 0;
      while i < |events|
        invariant 0 <= i <= |events|
        invariant initState == p.state && game == old(game)
        invariant WaitOn(p, events[i..]) == WaitOn(Queued, events)
      {
        assert events[i..][1..] == events[i + 1..];
        var step := Receive(p, events[i]);
        p := step.0;
        initState := p.state;
        match step.1
        case Raised(error) =>
          return Err(error);
        case Finished(joined, reason) =>
          if joined {
            game := StartedGame(p.sync.value, p.mapUpdate.value, p.props.value, p.turn.value);
          }
          return Ok((joined, reason));
        case Pending =>
        i := i + 1;
      }
      return Ok((false, "Timed out waiting for game"));
    }

    /** The `Game` that `_wait_for_game` builds and initialises once the game starts. */
    static method StartedGame(sync: ClientStateSync, map': MapUpdate, props: PropUpdate, turn: TurnState)
      returns (started: Game)
      ensures fresh(started) && started.Valid() && started.initialStateReady && !started.initialStateRetrieved
      ensures && started.mapUpdate == Some(map') && started.propUpdate == Some(props)
              && started.turnState == Some(turn)
              && started.playerId == sync.playerId && started.playerRole == sync.playerRole
      ensures LocalViewsOf(started.actors) == Arrivals(sync.actors)
    {
      started := new Game();
      started.Initialize(sync, map', props, turn);
      assert LocalViewsOf(map[]) == map[];
    }

    /**
     * `JoinGame`: sends the join message of the queue type and waits for a
     * game, failing its assertions when either step does not succeed; the
     * `TimeoutError` of a receive that runs out of time passes through.
     */
    method JoinGame(queueType: QueueType, events: seq<WsEvent>) returns (r: Result<Game>)
      modifies this`initState, this`outbox, this`game
      ensures var queued := old(initState) in {Connected, GameEnded} && JoinMessage(queueType).Some?;
              && (r.Ok? <==> queued && Joined(WaitOn(Queued, events).1))
              && (r.Ok? ==> && r.value == game && fresh(game) && initState == GameStarted
                            && game.Valid() && game.initialStateReady && !game.initialStateRetrieved)
              && (queued ==> outbox == old(outbox) + [JoinMessage(queueType).value]
                             && initState == WaitOn(Queued, events).0.state)
              && (!queued ==> outbox == old(outbox) && initState == old(initState) && game == old(game))
              && (r.Err? ==> game == old(game))
              && (r.Err? ==> (r.error == TimeoutError <==> queued && WaitOn(Queued, events).1.Raised?))
              && (r.Err? && r.error != TimeoutError ==> r.error.AssertionError?)
    {
      var queued, why := JoinQueue(queueType);
      if !queued {
        return Err(AssertionError("Failed to join queue: " + why));
      }
      var waited := WaitForGame(events);
      WaitOnEnds(Queued, events);
      if waited.Err? {
        return Err(waited.error);
      }
      var (joined, reason) := waited.value;
      if !joined {
        return Err(AssertionError("Failed to join game: " + reason));
      }
      return Ok(game);
    }
  }
}
