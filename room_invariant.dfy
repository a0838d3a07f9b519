// The operations of server/state.py keep `Room.Valid`: the actor order, the
// registered actors, their action histories and sync flags stay in step,
// a game-over state only appears once the game is done, and no turn ever
// has a negative number of moves left.
module RoomInvariant {
  import opened Common
  import opened ActionMessages
  import opened TurnRules
  import opened RoomModel

  /**
   * A room stays valid through any change that keeps the actors and their
   * order, only adds action histories and sync flags, and leaves a turn
   * state that is well-formed for the new room.
   */
  lemma ValidFrame(a: Room, b: Room)
    requires a.Valid() && b.actors == a.actors && b.order == a.order
    requires a.actionHistory.Keys <= b.actionHistory.Keys && a.synced.Keys <= b.synced.Keys
    requires b.turnState.GameOver? ==> b.done
    requires b.turnState.TurnUpdate? ==> b.turnState.movesRemaining >= 0
    ensures b.Valid()
  {
  }

  /** Replacing a registered actor by a value with the same id keeps the room valid. */
  lemma ValidActorUpdate(a: Room, id: int, v: ActorView)
    requires a.Valid() && id in a.actors && v.id == id
    ensures a.(actors := a.actors[id := v]).Valid()
  {
  }

  /** One iteration of the actor loop keeps the room valid, whether it rejects or executes. */
  lemma DispatchActorKeepsValid(room: Room, id: int, now: int, color: Color, env: Collaborators)
    requires room.Valid() && room.turnState.TurnUpdate? && id in room.actors
    ensures room.DispatchActor(id, now, color, env).Valid()
  {
    var actor := room.actors[id];
    if actor.HasActions() {
      var proposed := actor.actions[0];
      if room.turnState.turn != actor.role || room.turnState.movesRemaining == 0
         || !ValidAction(proposed, env.withinReach) {
        var dropped := room.DropActor(id);
        ValidActorUpdate(room, id, actor.Drop());
        ValidFrame(dropped, dropped.Desync(id));
      } else {
        var stepped := room.StepActor(id, env.add);
        ValidActorUpdate(room, id, actor.Step(env.add));
        var recorded := stepped.RecordAction(proposed);
        ValidFrame(stepped, recorded);
        var checked := recorded.SteppedOnCards(id, proposed, color, env);
        ValidFrame(recorded, checked);
        ValidFrame(checked, checked.EndTurnIfOver(now, false));
      }
    }
  }

  /** The whole actor loop keeps the room valid. */
  lemma {:induction false} DispatchAllKeepsValid(room: Room, ids: seq<int>, now: int, color: Color, env: Collaborators)
    requires room.Valid() && room.turnState.TurnUpdate? && Elems(ids) <= room.actors.Keys
    ensures room.DispatchAll(ids, now, color, env).Valid()
    decreases |ids|
  {
    if ids != [] {
      var init := ids[..|ids| - 1];
      var last := ids[|ids| - 1];
      assert ids == init + [last];
      assert Elems(init) <= Elems(ids) && last in Elems(ids);
      DispatchAllKeepsValid(room, init, now, color, env);
      DispatchActorKeepsValid(room.DispatchAll(init, now, color, env), last, now, color, env);
    }
  }

  /**
   * One iteration of the `update` loop keeps the room valid; a room that is
   * valid and not done is in the middle of a game, as `update` needs.
   */
  lemma UpdateStepKeepsValid(room: Room, now: int, invalid: bool, env: Collaborators)
    requires room.Valid() && !room.done
    ensures room.turnState.TurnUpdate? && Elems(room.order) <= room.actors.Keys
    ensures room.UpdateStep(now, invalid, env).0.Valid()
  {
    if room.turnState.turnsLeft == -1 {
      var finished := room.(done := true);
      ValidFrame(room, finished);
      ValidFrame(finished, room.EndGame(now));
    } else {
      PlayKeepsValid(room, now, invalid, env);
    }
  }

  /** A step of a game in progress keeps the room valid. */
  lemma PlayKeepsValid(room: Room, now: int, invalid: bool, env: Collaborators)
    requires room.Valid() && room.turnState.TurnUpdate?
    ensures room.Play(now, invalid, env).0.Valid()
  {
    var refreshed := room.RefreshTick(now);
    ValidFrame(room, refreshed);
    var ticked := refreshed.TurnTimeout(now);
    ValidFrame(refreshed, ticked);
    var color := if !invalid then Blue else Red;
    DispatchAllKeepsValid(ticked, ticked.order, now, color, env);
    SettleSelectionKeepsValid(ticked.DispatchAll(ticked.order, now, color, env), invalid, env);
  }

  /** The card selection part of `update` keeps the room valid. */
  lemma SettleSelectionKeepsValid(room: Room, invalid: bool, env: Collaborators)
    requires room.Valid() && room.turnState.TurnUpdate?
    ensures room.SettleSelection(invalid, env).0.Valid()
  {
    var selected := SelectedCards(room.board);
    var highlighted := room.HighlightSelection(selected, invalid, env).0;
    ValidFrame(room, highlighted);
    var collected := highlighted.CollectValidSet(selected, env);
    ValidFrame(highlighted, collected);
    ValidFrame(collected, collected.MarkMapStale(env));
    ValidFrame(highlighted, highlighted.MarkMapStale(env));
  }

  /** `create_actor` keeps the room valid, also when the id assigner hands out an id in use. */
  lemma CreateActorKeepsValid(room: Room, role: Role, newId: int)
    requires room.Valid()
    ensures room.CreateActor(role, newId).Valid()
  {
    var popped := room.PopSpawnPoint();
    ValidFrame(room, popped.0);
    var asset := if role == Leader then PlayerAsset else FollowerBotAsset;
    var registered := popped.0.Register(newId, ActorView(newId, asset, role, [], popped.1, 0.0));
    RegisterKeepsValid(popped.0, newId, ActorView(newId, asset, role, [], popped.1, 0.0));
    ValidFrame(registered, registered.DesyncAll());
  }

  /** Registering an actor under its own id keeps the room valid. */
  lemma RegisterKeepsValid(room: Room, id: int, view: ActorView)
    requires room.Valid() && view.id == id
    ensures room.Register(id, view).Valid()
  {
    ValidFrame(room, room.OpenQueues(id));
    EnrollKeepsValid(room.OpenQueues(id), id, view);
  }

  /** Registering an actor whose queues exist, under its own id, keeps the room valid. */
  lemma EnrollKeepsValid(room: Room, id: int, view: ActorView)
    requires room.Valid() && view.id == id && id in room.actionHistory && id in room.synced
    ensures room.Enroll(id, view).Valid()
  {
    if id !in room.actors {
      SnocNoDuplicates(room.order, id);
    }
  }

  /** `free_actor` keeps the room valid. */
  lemma FreeActorKeepsValid(room: Room, id: int)
    requires room.Valid()
    ensures room.FreeActor(id).Valid()
  {
    var unenrolled := room.Unenroll(id);
    assert unenrolled.Valid();
    var closed := unenrolled.CloseQueues(id);
    assert closed.Valid();
    ValidFrame(closed, closed.DesyncAll());
  }

  /** Queuing the actions of one packet keeps the room valid. */
  lemma {:induction false} HandleActionsKeepsValid(room: Room, id: int, actions: seq<Action>)
    requires room.Valid()
    ensures room.HandleActions(id, actions).0.Valid()
    decreases |actions|
  {
    if actions != [] {
      var (r1, status) := room.HandleAction(id, actions[0]);
      if actions[0].id == id && id in room.actors {
        assert room.actors[id].AddAction(actions[0]).id == id;
      }
      assert r1.Valid();
      if status.Ok? {
        HandleActionsKeepsValid(r1, id, actions[1..]);
      }
    }
  }

  /** Every packet a player can send keeps the room valid. */
  lemma HandlePacketKeepsValid(room: Room, id: int, message: MessageToServer, now: int, uuid: string)
    requires room.Valid()
    ensures room.HandlePacket(id, message, now, uuid).0.Valid()
  {
    if message.ActionsMessage? {
      HandleActionsKeepsValid(room, id, message.actions);
    }
  }

  /** Draining a message keeps the room valid. */
  lemma DrainMessageKeepsValid(room: Room, player: int)
    requires room.Valid()
    ensures Elems(room.order) <= room.actors.Keys
    ensures room.DrainMessage(player).0.Valid()
  {
    var r1 := room.DrainMapUpdate(player).0;
    ValidFrame(room, r1);
    ValidFrame(r1, r1.SyncMessageForTransmission(player).0);
    DrainQueuedKeepsValid(r1, player);
  }

  /** Draining the queues of a synced player keeps the room valid. */
  lemma DrainQueuedKeepsValid(room: Room, player: int)
    requires room.Valid()
    ensures room.DrainQueued(player).0.Valid()
  {
    var r3 := room.DrainActions(player).0;
    ValidFrame(room, r3);
    var r4 := r3.DrainObjectives(player).0;
    ValidFrame(r3, r4);
    ValidFrame(r4, r4.DrainTurnState(player).0);
  }
}
