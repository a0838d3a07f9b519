// The actions a headless client player can take (py_client/cb2_client.py,
// `LeadAction`, `LeadFeedbackAction`, `FollowAction`): which codes exist,
// which constructor arguments they insist on, and the message each one
// turns into. Movement codes also queue the move on the client's own actor.
module ClientActions {
  import opened Common
  import opened ActionMessages

  /** `LeadAction.ActionCode`. */
  datatype LeadCode = LeadNone | LeadForwards | LeadBackwards | LeadTurnLeft | LeadTurnRight
                    | EndTurn | Interrupt | SendInstruction | LeadMax

  /** `FollowAction.ActionCode`. */
  datatype FollowCode = FollowNone | FollowForwards | FollowBackwards | FollowTurnLeft | FollowTurnRight
                      | InstructionDone | FollowMax

  /** `LeadFeedbackAction.ActionCode`. */
  datatype FeedbackCode = FeedbackNone | PositiveFeedback | NegativeFeedback | FeedbackMax

  /** The four moves an actor can build an action for. */
  datatype Movement = Forwards | Backwards | TurnLeft | TurnRight

  /** A Python argument as far as the constructors inspect it: `None`, `str`, `bytes` or anything else. */
  datatype Payload = PyNone | Str(text: string) | Bytes(data: seq<bv8>) | OtherObject

  /** The client-to-server messages of `client_messages`. */
  datatype ClientMessage =
    | ActionsToServer(actions: seq<Action>)
    | EndTurnMessage
    | InterruptMessage
    | InstructionMessage(text: Payload)
    | InstructionDoneMessage(uuid: Payload)
    | PositiveFeedbackMessage
    | NegativeFeedbackMessage
    | PongMessage
    | LeaveMessage
    | JoinQueueMessage
    | JoinLeaderQueueMessage
    | JoinFollowerQueueMessage

  /** What `message_to_server` returns: the message to send, if any, and the reason when there is none. */
  type Reply = (Option<ClientMessage>, string)

  datatype LeadAction = LeadAction(code: LeadCode, instruction: Payload)
  datatype FollowAction = FollowAction(code: FollowCode, uuid: Payload)

  /** Anything `Game.step` accepts. */
  datatype PlayerAction = Lead(lead: LeadAction) | Follow(follow: FollowAction) | LeadFeedback(feedback: FeedbackCode)

  /** What an actor's move builders read from it: its id, location and heading. */
  datatype Pose = Pose(id: int, location: HecsCoord, heading: real)

  /**
   * The action the client's actor builds for a move from its pose
   * (`WalkForwardsAction` and its siblings of server/actor.py, which is not
   * part of this model).
   */
  type MoveBuilder = (Pose, Movement) -> Action

  /**
   * A builder that stamps every action with the id of the actor that built
   * it, which is what the server's `handle_action` requires of a queued move.
   */
  ghost predicate StampsActorId(build: MoveBuilder)
  {
    forall pose, m :: build(pose, m).id == pose.id
  }

  /** `LeadAction.__init__`: an instruction is required, and must be text, exactly for SEND_INSTRUCTION. */
  function NewLeadAction(code: LeadCode, instruction: Payload): (r: Result<LeadAction>)
    ensures r.Ok? <==> code != SendInstruction || instruction.Str? || instruction.Bytes?
    ensures r.Ok? ==> r.value == LeadAction(code, instruction)
    ensures code == SendInstruction && instruction.PyNone? ==> r.Err? && r.error.AssertionError?
    ensures code == SendInstruction && instruction.OtherObject? ==> r.Err? && r.error.TypeError?
  {
    if code == SendInstruction && instruction.PyNone? then
      Err(AssertionError("Instruction must be provided for SEND_INSTRUCTION"))
    else if code == SendInstruction && !(instruction.Str? || instruction.Bytes?) then
      Err(TypeError("Instruction must be a string or bytes"))
    else
      Ok(LeadAction(code, instruction))
  }

  /** `FollowAction.__init__`: INSTRUCTION_DONE needs the uuid of the instruction it completes. */
  function NewFollowAction(code: FollowCode, uuid: Payload): (r: Result<FollowAction>)
    ensures r.Ok? <==> code != InstructionDone || !uuid.PyNone?
    ensures r.Ok? ==> r.value == FollowAction(code, uuid)
    ensures r.Err? ==> r.error.AssertionError?
  {
    if code == InstructionDone && uuid.PyNone? then
      Err(AssertionError("Instruction UUID must be provided for INSTRUCTION_DONE"))
    else
      Ok(FollowAction(code, uuid))
  }

  /** The move a lead code stands for, if any. */
  function LeadMovement(code: LeadCode): Option<Movement>
  {
    match code
    case LeadForwards => Some(Forwards)
    case LeadBackwards => Some(Backwards)
    case LeadTurnLeft => Some(TurnLeft)
    case LeadTurnRight => Some(TurnRight)
    case _ => None
  }

  /** The move a follow code stands for, if any. */
  function FollowMovement(code: FollowCode): Option<Movement>
  {
    match code
    case FollowForwards => Some(Forwards)
    case FollowBackwards => Some(Backwards)
    case FollowTurnLeft => Some(TurnLeft)
    case FollowTurnRight => Some(TurnRight)
    case _ => None
  }

  /** The actor method that builds the action for a move. */
  function BuilderName(m: Movement): string
  {
    match m
    case Forwards => "WalkForwardsAction"
    case Backwards => "WalkBackwardsAction"
    case TurnLeft => "TurnLeftAction"
    case TurnRight => "TurnRightAction"
  }

  /**
   * What `message_to_server` answers for a move, given the pose of the actor
   * it is handed (`None` when that actor is `None`): calling the builder on
   * `None` raises, otherwise the built action goes out on its own.
   */
  function MoveReply(m: Movement, pose: Option<Pose>, build: MoveBuilder): Result<Reply>
  {
    if pose.None? then Err(AttributeError(BuilderName(m)))
    else Ok((Some(ActionsToServer([build(pose.value, m)])), ""))
  }

  /** `LeadAction.message_to_server`, as a function of the actor's pose. */
  function LeadReply(lead: LeadAction, pose: Option<Pose>, build: MoveBuilder): Result<Reply>
  {
    if LeadMovement(lead.code).Some? then MoveReply(LeadMovement(lead.code).value, pose, build)
    else if lead.code == EndTurn then Ok((Some(EndTurnMessage), ""))
    else if lead.code == Interrupt then Ok((Some(InterruptMessage), ""))
    else if lead.code == SendInstruction then Ok((Some(InstructionMessage(lead.instruction)), ""))
    else Ok((None, "Invalid lead action"))
  }

  /** `FollowAction.message_to_server`, as a function of the actor's pose. */
  function FollowReply(follow: FollowAction, pose: Option<Pose>, build: MoveBuilder): Result<Reply>
  {
    if FollowMovement(follow.code).Some? then MoveReply(FollowMovement(follow.code).value, pose, build)
    else if follow.code == InstructionDone then Ok((Some(InstructionDoneMessage(follow.uuid)), ""))
    else Ok((None, "Invalid follow action"))
  }

  /**
   * `LeadFeedbackAction.message_to_server`: feedback goes out for the two
   * feedback codes, NONE quietly sends nothing, and anything else is refused.
   */
  function FeedbackReply(code: FeedbackCode): (reply: Reply)
    ensures reply.0.Some? <==> code == PositiveFeedback || code == NegativeFeedback
    ensures reply.0.Some? ==> reply.0.value == (if code == PositiveFeedback then PositiveFeedbackMessage
                                                 else NegativeFeedbackMessage)
    ensures reply.1 != "" <==> code == FeedbackMax
  {
    match code
    case PositiveFeedback => (Some(PositiveFeedbackMessage), "")
    case NegativeFeedback => (Some(NegativeFeedbackMessage), "")
    case FeedbackNone => (None, "")
    case FeedbackMax => (None, "Invalid lead feedback action")
  }

  /** The answer of `message_to_server` for any player action. */
  function ActionReply(action: PlayerAction, pose: Option<Pose>, build: MoveBuilder): Result<Reply>
  {
    match action
    case Lead(lead) => LeadReply(lead, pose, build)
    case Follow(follow) => FollowReply(follow, pose, build)
    case LeadFeedback(code) => Ok(FeedbackReply(code))
  }

  /** The actions a reply puts on the wire, which are also the ones queued on the actor. */
  function QueuedBy(r: Result<Reply>): seq<Action>
  {
    if r.Ok? && r.value.0.Some? && r.value.0.value.ActionsToServer? then r.value.0.value.actions else []
  }

  /**
   * A lead action sends exactly one message, with an empty reason, unless
   * its code is NONE or MAX; a movement sends the single action the actor
   * built and fails only when there is no actor.
   */
  lemma LeadReplyCases(lead: LeadAction, pose: Option<Pose>, build: MoveBuilder)
    ensures var r := LeadReply(lead, pose, build);
            && (r.Err? <==> LeadMovement(lead.code).Some? && pose.None?)
            && (r.Ok? ==> (r.value.0.Some? <==> r.value.1 == ""))
            && (r.Ok? && r.value.0.None? <==> lead.code == LeadNone || lead.code == LeadMax)
            && (|QueuedBy(r)| > 0 <==> LeadMovement(lead.code).Some? && pose.Some?)
            && (LeadMovement(lead.code).Some? && pose.Some? ==>
                  QueuedBy(r) == [build(pose.value, LeadMovement(lead.code).value)])
  {
  }

  /**
   * A follow action sends exactly one message, with an empty reason, unless
   * its code is NONE or MAX; a movement sends the single action the actor
   * built and fails only when there is no actor.
   */
  lemma FollowReplyCases(follow: FollowAction, pose: Option<Pose>, build: MoveBuilder)
    ensures var r := FollowReply(follow, pose, build);
            && (r.Err? <==> FollowMovement(follow.code).Some? && pose.None?)
            && (r.Ok? ==> (r.value.0.Some? <==> r.value.1 == ""))
            && (r.Ok? && r.value.0.None? <==> follow.code == FollowNone || follow.code == FollowMax)
            && (|QueuedBy(r)| > 0 <==> FollowMovement(follow.code).Some? && pose.Some?)
            && (FollowMovement(follow.code).Some? && pose.Some? ==>
                  QueuedBy(r) == [build(pose.value, FollowMovement(follow.code).value)])
  {
  }

  /**
   * With builders that stamp the actor's id, every move `message_to_server`
   * sends and queues carries the id of the actor it was built on.
   */
  lemma MovesCarryActorId(action: PlayerAction, pose: Option<Pose>, build: MoveBuilder)
    requires StampsActorId(build)
    ensures forall i | 0 <= i < |QueuedBy(ActionReply(action, pose, build))| ::
              pose.Some? && QueuedBy(ActionReply(action, pose, build))[i].id == pose.value.id
  {
    match action
    case Lead(lead) =>
      LeadReplyCases(lead, pose, build);
      assert ActionReply(action, pose, build) == LeadReply(lead, pose, build);
    case Follow(follow) =>
      FollowReplyCases(follow, pose, build);
      assert ActionReply(action, pose, build) == FollowReply(follow, pose, build);
    case LeadFeedback(code) =>
      assert ActionReply(action, pose, build) == Ok(FeedbackReply(code));
      assert QueuedBy(ActionReply(action, pose, build)) == [];
  }

  /** A client actor as a value. */
  datatype LocalView = LocalView(id: int, role: Role, actions: seq<Action>, location: HecsCoord, heading: real)

  /** `actor.Actor` as the client keeps it: an id, a role, a pose and a queue of actions to animate. */
  class LocalActor {
    const id: int
    const role: Role
    var actions: seq<Action>
    var location: HecsCoord
    var heading: real

    /** The actor as a value. */
    function View(): LocalView
      reads this
    {
      LocalView(id, role, actions, location, heading)
    }

    /** `Actor(actor_id, 0, role, location, False, rotation)`: an actor with nothing queued. */
    constructor (id: int, role: Role, location: HecsCoord, heading: real)
      ensures this.id == id && this.role == role && actions == []
      ensures this.location == location && this.heading == heading
    {
      this.id := id;
      this.role := role;
      actions := [];
      this.location := location;
      this.heading := heading;
    }

    /** `add_action`. */
    method AddAction(action: Action)
      modifies this`actions
      ensures actions == old(actions) + [action]
    {
      actions := actions + [action];
    }
  }

  /** The pose `message_to_server` reads from the actor it is handed. */
  function PoseOf(actor: LocalActor?): Option<Pose>
    reads actor
  {
    if actor == null then None else Some(Pose(actor.id, actor.location, actor.heading))
  }

  /** `LeadAction.message_to_server`: builds the reply and queues a move on the actor. */
  method LeadMessageToServer(lead: LeadAction, actor: LocalActor?, build: MoveBuilder) returns (r: Result<Reply>)
    modifies actor
    ensures r == LeadReply(lead, old(PoseOf(actor)), build)
    ensures actor != null ==> actor.actions == old(actor.actions) + QueuedBy(r)
    ensures actor != null ==> actor.location == old(actor.location) && actor.heading == old(actor.heading)
  {
    var move := LeadMovement(lead.code);
    if move.None? {
      r := LeadReply(lead, PoseOf(actor), build);
      return;
    }
    r := Queue(move.value, actor, build);
  }

  /** `FollowAction.message_to_server`: builds the reply and queues a move on the actor. */
  method FollowMessageToServer(follow: FollowAction, actor: LocalActor?, build: MoveBuilder) returns (r: Result<Reply>)
    modifies actor
    ensures r == FollowReply(follow, old(PoseOf(actor)), build)
    ensures actor != null ==> actor.actions == old(actor.actions) + QueuedBy(r)
    ensures actor != null ==> actor.location == old(actor.location) && actor.heading == old(actor.heading)
  {
    var move := FollowMovement(follow.code);
    if move.None? {
      r := FollowReply(follow, PoseOf(actor), build);
      return;
    }
    r := Queue(move.value, actor, build);
  }

  /** The movement branch both `message_to_server` methods share: build, queue, send. */
  method Queue(m: Movement, actor: LocalActor?, build: MoveBuilder) returns (r: Result<Reply>)
    modifies actor
    ensures r == MoveReply(m, old(PoseOf(actor)), build)
    ensures actor != null ==> actor.actions == old(actor.actions) + QueuedBy(r)
    ensures actor != null ==> actor.location == old(actor.location) && actor.heading == old(actor.heading)
  {
    if actor == null {
      r := Err(AttributeError(BuilderName(m)));
      return;
    }
    var action := build(Pose(actor.id, actor.location, actor.heading), m);
    actor.AddAction(action);
    r := Ok((Some(ActionsToServer([action])), ""));
  }

  /** `message_to_server` of whichever action the player took. */
  method ActionMessageToServer(action: PlayerAction, actor: LocalActor?, build: MoveBuilder) returns (r: Result<Reply>)
    modifies actor
    ensures r == ActionReply(action, old(PoseOf(actor)), build)
    ensures actor != null ==> actor.actions == old(actor.actions) + QueuedBy(r)
    ensures actor != null ==> actor.location == old(actor.location) && actor.heading == old(actor.heading)
  {
    match action
    case Lead(lead) =>
      r := LeadMessageToServer(lead, actor, build);
    case Follow(follow) =>
      r := FollowMessageToServer(follow, actor, build);
    case LeadFeedback(code) =>
      r := Ok(FeedbackReply(code));
  }
}
