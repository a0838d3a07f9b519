// What server/state.py promises its players, proved about the room model:
// every registered player receives each broadcast exactly once and in
// order, a drained message is not handed out twice, `has_pending_messages`
// says whether any player still has something to receive, only the player
// whose turn it is moves, and players can only queue their own actions.
module RoomProperties {
  import opened Common
  import opened ActionMessages
  import opened TurnRules
  import opened RoomModel
  import opened RoomInvariant

  /**
   * Appending `x` for every id of a list without duplicates puts `x` at the
   * back of each listed queue (a new queue for an id that had none) and
   * leaves every other queue alone.
   */
  lemma {:induction false} AppendEachQueues<T>(h: map<int, seq<T>>, ids: seq<int>, x: T, id: int)
    requires NoDuplicates(ids)
    ensures id in Elems(ids) ==> AppendEach(h, ids, x)[id] == (if id in h then h[id] else []) + [x]
    ensures id !in Elems(ids) && id in h ==> AppendEach(h, ids, x)[id] == h[id]
    decreases |ids|
  {
    if ids != [] {
      var init := ids[..|ids| - 1];
      var last := ids[|ids| - 1];
      assert ids == init + [last];
      assert Elems(ids) == Elems(init) + {last};
      assert NoDuplicates(init);
      assert forall k | 0 <= k < |init| :: init[k] == ids[k] != ids[|ids| - 1];
      assert last !in Elems(init);
      AppendEachQueues(h, init, x, id);
    }
  }

  /** Setting a flag for every id of a list sets the listed flags and leaves the others alone. */
  lemma {:induction false} SetEachFlags(m: map<int, bool>, ids: seq<int>, v: bool, id: int)
    ensures id in Elems(ids) ==> SetEach(m, ids, v)[id] == v
    ensures id !in Elems(ids) && id in m ==> SetEach(m, ids, v)[id] == m[id]
    decreases |ids|
  {
    if ids != [] {
      var init := ids[..|ids| - 1];
      assert ids == init + [ids[|ids| - 1]];
      assert Elems(ids) == Elems(init) + {ids[|ids| - 1]};
      SetEachFlags(m, init, v, id);
    }
  }

  /** `record_turn_state` queues the new turn state once at the back of every registered player's queue. */
  lemma RecordTurnStateQueues(room: Room, ts: TurnState, id: int)
    requires room.Valid() && id in room.actors
    ensures var r := room.RecordTurnState(ts);
            r.turnState == ts
            && r.turnHistory[id] == (if id in room.turnHistory then room.turnHistory[id] else []) + [ts]
  {
    AppendEachQueues(room.turnHistory, room.order, ts, id);
  }

  /** `record_action` appends the action once to every registered player's history. */
  lemma RecordActionQueues(room: Room, action: Action, id: int)
    requires room.Valid() && id in room.actors
    ensures room.RecordAction(action).actionHistory[id] == room.actionHistory[id] + [action]
  {
    AppendEachQueues(room.actionHistory, room.order, action, id);
  }

  /**
   * Turn states reach a player first in, first out: after a new turn state
   * is recorded, draining yields the oldest one still queued, or the new one
   * when nothing was queued.
   */
  lemma TurnStatesFirstInFirstOut(room: Room, ts: TurnState, id: int)
    requires room.Valid() && id in room.actors
    ensures var queue := if id in room.turnHistory then room.turnHistory[id] else [];
            room.RecordTurnState(ts).DrainTurnState(id).1 == Some(if queue == [] then ts else queue[0])
  {
    RecordTurnStateQueues(room, ts, id);
  }

  /** A drained queue is empty: draining again hands out nothing. */
  lemma DrainTwiceYieldsNothing(room: Room, id: int)
    ensures room.DrainActions(id).0.DrainActions(id).1 == []
    ensures room.DrainObjectives(id).0.DrainObjectives(id).1 == []
    ensures room.DrainMapUpdate(id).0.DrainMapUpdate(id).1 == None
  {
  }

  /** The map, when stale for a player, is the first thing `drain_message` hands out. */
  lemma StaleMapComesFirst(room: Room, player: int)
    requires Elems(room.order) <= room.actors.Keys
    requires player !in room.mapStale || room.mapStale[player]
    ensures room.DrainMessage(player).1 == Ok(Some(MapUpdateFromServer(room.mapUpdate)))
  {
  }

  /** A desynced player receives a state sync (once the map is fresh), after which it is synced. */
  lemma DesyncedPlayerGetsStateSync(room: Room, player: int)
    requires Elems(room.order) <= room.actors.Keys
    requires player in room.mapStale && !room.mapStale[player]
    requires player in room.synced && !room.synced[player]
    ensures var (r, msg) := room.DrainMessage(player);
            msg == Ok(Some(StateSyncFromServer(room.StateSyncFor(player)))) && r.IsSynced(player) == Ok(true)
  {
  }

  /**
   * Once its map is fresh and it is synced, a player receives its pending
   * actions first, then the objectives when they are stale for it, then its
   * oldest queued turn state.
   */
  lemma SyncedPlayerDrainsInPriorityOrder(room: Room, player: int)
    requires Elems(room.order) <= room.actors.Keys
    requires player in room.mapStale && !room.mapStale[player]
    requires player in room.synced && room.synced[player]
    ensures var msg := room.DrainMessage(player).1;
            var actions := if player in room.actionHistory then room.actionHistory[player] else [];
            var objectivesDue := (player !in room.objectivesStale || room.objectivesStale[player])
                                 && room.objectives != [];
            var turns := if player in room.turnHistory then room.turnHistory[player] else [];
            && (actions != [] ==> msg == Ok(Some(ActionsFromServer(actions))))
            && (actions == [] && objectivesDue ==> msg == Ok(Some(ObjectivesFromServer(room.objectives))))
            && (actions == [] && !objectivesDue && turns != [] ==> msg == Ok(Some(GameStateFromServer(turns[0]))))
  {
  }

  /**
   * When `drain_message` has nothing to send, nothing is left for that
   * player: its map is fresh, it is synced, and its action history,
   * objectives flag and turn queue are clear.
   */
  lemma NothingToSendMeansNothingLeft(room: Room, player: int)
    requires Elems(room.order) <= room.actors.Keys
    ensures var (r, msg) := room.DrainMessage(player);
            msg == Ok(None) ==>
              && player in r.mapStale && !r.mapStale[player]
              && player in r.synced && r.synced[player]
              && (player in r.actionHistory ==> r.actionHistory[player] == [])
              && player in r.objectivesStale && !r.objectivesStale[player]
              && player in r.turnHistory && r.turnHistory[player] == []
  {
    var r1 := room.DrainMapUpdate(player).0;
    if player in r1.synced && r1.synced[player] {
      var (r3, actions) := r1.DrainActions(player);
      if actions == [] {
        var (r4, objectives') := r3.DrainObjectives(player);
        if objectives' == [] {
          var (r5, turn) := r4.DrainTurnState(player);
          assert turn.None? ==> r5.turnHistory[player] == [];
        }
      }
    }
  }

  /** Whether the player `id` still has something to receive; only for a player with every queue. */
  predicate HasPending(room: Room, id: int)
    requires Tracked(room, id)
  {
    !room.synced[id] || |room.actionHistory[id]| > 0 || room.objectivesStale[id] || room.turnHistory[id] != []
  }

  /** The player `id` has a sync flag, an action history, an objectives flag and a turn queue. */
  predicate Tracked(room: Room, id: int)
  {
    id in room.synced && id in room.actionHistory && id in room.objectivesStale && id in room.turnHistory
  }

  /**
   * The loop of `has_pending_messages` answers whether one of the players
   * has something pending, when every player has all of its queues, and
   * raises a `KeyError` only when some player lacks one.
   */
  lemma {:induction false} PendingFromAnswers(room: Room, ids: seq<int>)
    ensures (forall id | id in ids :: Tracked(room, id)) ==>
              room.PendingFrom(ids) == Ok(exists id | id in ids :: HasPending(room, id))
    ensures room.PendingFrom(ids).Err? ==> exists id | id in ids :: !Tracked(room, id)
    decreases |ids|
  {
    if ids != [] {
      PendingFromAnswers(room, ids[1..]);
      assert forall id | id in ids :: id == ids[0] || id in ids[1..];
      if forall id | id in ids :: Tracked(room, id) {
        assert Tracked(room, ids[0]);
        if !HasPending(room, ids[0]) {
          assert (exists id | id in ids :: HasPending(room, id))
              == (exists id | id in ids[1..] :: HasPending(room, id));
        }
      }
    }
  }

  /** `has_pending_messages` over the registered players. */
  lemma HasPendingMessagesAnswers(room: Room)
    ensures (forall id | id in room.order :: Tracked(room, id)) ==>
              room.HasPendingMessages() == Ok(exists id | id in room.order :: HasPending(room, id))
    ensures room.HasPendingMessages().Err? ==> exists id | id in room.order :: !Tracked(room, id)
  {
    PendingFromAnswers(room, room.order);
  }

  /**
   * The actor loop refuses a move out of turn, or with no moves left, or
   * out of reach: the move is dropped, its actor is desynced so that it
   * snaps back, and nothing else changes.
   */
  lemma DispatchRejects(room: Room, id: int, now: int, color: Color, env: Collaborators)
    requires room.turnState.TurnUpdate? && id in room.actors && room.actors[id].HasActions()
    requires room.actors[id].role != room.turnState.turn || room.turnState.movesRemaining == 0
             || !ValidAction(room.actors[id].actions[0], env.withinReach)
    ensures var r := room.DispatchActor(id, now, color, env);
            && r.actors[id].actions == room.actors[id].actions[1..]
            && r.actors[id].location == room.actors[id].location
            && r.synced == room.synced[id := false]
            && r.turnState == room.turnState && r.actionHistory == room.actionHistory && r.board == room.board
  {
  }

  /** Checking for a stepped-on card only appends to the players' action histories. */
  lemma SteppedOnCardsAppends(room: Room, id: int, action: Action, color: Color, env: Collaborators, other: int)
    requires room.Valid() && id in room.actors && other in room.actors
    ensures var r := room.SteppedOnCards(id, action, color, env);
            |room.actionHistory[other]| <= |r.actionHistory[other]|
            && r.actionHistory[other][..|room.actionHistory[other]|] == room.actionHistory[other]
  {
    var card := CardAt(room.board, room.actors[id].location);
    if action.actionType == Translate && card.Some? {
      var selected := !card.value.selected;
      var outlined := room.(board := SetSelected(room.board, card.value.id, selected));
      ValidFrame(room, outlined);
      RecordActionQueues(outlined, env.cardSelect(card.value.id, selected, Some(color)), other);
    }
  }

  /**
   * A valid move by the player whose turn it is, with moves left, is
   * carried out: its actor steps, the move is counted against the turn,
   * and every player is sent the move.
   */
  lemma DispatchAccepts(room: Room, id: int, other: int, now: int, color: Color, env: Collaborators)
    requires room.Valid() && room.turnState.TurnUpdate? && id in room.actors && room.actors[id].HasActions()
    requires room.actors[id].role == room.turnState.turn && room.turnState.movesRemaining > 0
    requires ValidAction(room.actors[id].actions[0], env.withinReach)
    requires other in room.actors
    ensures var r := room.DispatchActor(id, now, color, env);
            && r.actors[id] == room.actors[id].Step(env.add)
            && r.turnState == NextTurn(room.turnState, now, false)
            && r.synced == room.synced
            && |room.actionHistory[other]| < |r.actionHistory[other]|
            && r.actionHistory[other][|room.actionHistory[other]|] == room.actors[id].actions[0]
  {
    var proposed := room.actors[id].actions[0];
    var stepped := room.StepActor(id, env.add);
    ValidActorUpdate(room, id, room.actors[id].Step(env.add));
    var recorded := stepped.RecordAction(proposed);
    RecordActionQueues(stepped, proposed, other);
    ValidFrame(stepped, recorded);
    SteppedOnCardsAppends(recorded, id, proposed, color, env, other);
    var checked := recorded.SteppedOnCards(id, proposed, color, env);
    assert checked.actionHistory[other][|room.actionHistory[other]|]
        == checked.actionHistory[other][..|recorded.actionHistory[other]|][|room.actionHistory[other]|];
    assert room.DispatchActor(id, now, color, env) == checked.EndTurnIfOver(now, false);
  }

  /** A player can only queue actions carrying its own id; anything else just resyncs it. */
  lemma HandleActionOwnOnly(room: Room, id: int, action: Action)
    ensures action.id != id ==>
              room.HandleAction(id, action) == (room.(synced := room.synced[id := false]), Ok(()))
    ensures action.id == id && id in room.actors ==>
              var (r, status) := room.HandleAction(id, action);
              status == Ok(()) && r.actors[id].actions == room.actors[id].actions + [action]
              && r.actors == room.actors[id := r.actors[id]] && r.synced == room.synced
    ensures action.id == id && id !in room.actors ==> room.HandleAction(id, action).1 == Err(KeyError(id))
  {
  }

  /** A packet of a player's own actions queues them all, in order, behind those already queued. */
  lemma {:induction false} HandleActionsQueuesAll(room: Room, id: int, actions: seq<Action>)
    requires id in room.actors
    requires forall k | 0 <= k < |actions| :: actions[k].id == id
    ensures var (r, status) := room.HandleActions(id, actions);
            status == Ok(()) && id in r.actors
            && r.actors[id].actions == room.actors[id].actions + actions
            && r.actors.Keys == room.actors.Keys
    decreases |actions|
  {
    if actions != [] {
      var r1 := room.HandleAction(id, actions[0]).0;
      HandleActionsQueuesAll(r1, id, actions[1..]);
      assert room.actors[id].actions + actions == room.actors[id].actions + [actions[0]] + actions[1..];
    }
  }

  /**
   * Only the leader sets objectives: the objective gets the fresh uuid and
   * goes to the back of the list, which becomes stale for every player.
   */
  lemma OnlyLeaderSetsObjectives(room: Room, id: int, objective: Objective, uuid: string, other: int)
    requires id in room.actors && other in room.order
    ensures var (r, status) := room.HandleObjective(id, objective, uuid);
            status == Ok(())
            && (room.actors[id].role != Leader ==> r == room)
            && (room.actors[id].role == Leader ==>
                  r.objectives == room.objectives + [objective.(uuid := uuid)] && r.objectivesStale[other])
  {
    SetEachFlags(room.objectivesStale, room.order, true, other);
  }

  /**
   * Only a follower completes objectives, and only the first objective with
   * the given uuid, which becomes completed; every player is told.
   */
  lemma OnlyFollowerCompletesObjectives(room: Room, id: int, uuid: string, other: int, k: int)
    requires id in room.actors && other in room.order
    requires 0 <= k <= |room.objectives|
    requires forall j | 0 <= j < k :: room.objectives[j].uuid != uuid
    requires k < |room.objectives| ==> room.objectives[k].uuid == uuid
    ensures var (r, status) := room.HandleObjectiveComplete(id, uuid);
            status == Ok(())
            && (room.actors[id].role != Follower ==> r == room)
            && (room.actors[id].role == Follower ==>
                  r.objectives == (if k < |room.objectives|
                                   then room.objectives[k := room.objectives[k].(completed := true)]
                                   else room.objectives)
                  && r.objectivesStale[other])
  {
    CompleteFirstAt(room.objectives, uuid, k);
    SetEachFlags(room.objectivesStale, room.order, true, other);
  }

  /**
   * Only the player whose turn it is can end it early; the turn then passes
   * to the other role with its full allowance of moves.
   */
  lemma OnlyCurrentPlayerEndsTurn(room: Room, id: int, now: int)
    requires id in room.actors
    ensures var (r, status) := room.HandleTurnComplete(id, now);
            status == Ok(())
            && (room.actors[id].role != room.turnState.turn ==> r == room)
            && (room.actors[id].role == room.turnState.turn ==>
                  r.turnState.turn == Opposite(room.turnState.turn)
                  && r.turnState.movesRemaining == MovesPerTurn(r.turnState.turn)
                  && r.turnState.turnsLeft == room.turnState.turnsLeft - 1)
  {
  }

  /**
   * Once the game is over its turn state names no role, so a leader or a
   * follower who ends the turn changes nothing.
   */
  lemma TurnCompleteAfterGameOverIsIgnored(room: Room, id: int, ended: int, now: int)
    requires room.turnState.TurnUpdate?
    requires id in room.actors && room.actors[id].role != NoRole
    ensures room.EndGame(ended).HandleTurnComplete(id, now) == (room.EndGame(ended), Ok(()))
  {
  }

  /** A state sync describes every registered actor once, in insertion order. */
  lemma StateSyncCountsEveryone(room: Room, player: int)
    requires room.Valid()
    ensures var s := room.StateSyncFor(player);
            s.population == |s.actors| == |room.order|
            && forall i | 0 <= i < |room.order| :: s.actors[i].actorId == room.order[i]
  {
    room.CardinalityOfOrder();
    forall i | 0 <= i < |room.order|
      ensures room.StateSyncFor(player).actors[i].actorId == room.order[i]
    {
      assert room.order[i] in Elems(room.order);
    }
  }

  /**
   * A collected set scores a point and adds the bonus turns for the number
   * of sets collected before it.
   */
  lemma CollectingASetScores(room: Room, selected: seq<Card>, env: Collaborators)
    requires room.turnState.TurnUpdate?
    ensures var r := room.CollectValidSet(selected, env);
            r.turnState.score == room.turnState.score + 1
            && r.turnState.turnsLeft == room.turnState.turnsLeft + BonusTurns(room.turnState.setsCollected)
  {
  }
}
