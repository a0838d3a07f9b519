// server/messages/action.py: the `Action` record every move, turn and card
// outline travels in, the colour equality it uses, the follower censor and
// the `Turn`/`Walk` constructors.
module ActionMessages {
  import opened Common

  datatype ActionType = Init | Instant | Rotate | Translate | Outline | Death

  datatype AnimationType = NoAnimation | Idle | Walking | InstantAnimation | TranslateAnimation
                         | AccelDecel | Skipping | RotateAnimation

  /** An RGBA colour; the Python floats are modelled as reals. */
  datatype Color = Color(r: real, g: real, b: real, a: real)

  /** The red outline the server puts on an invalid selection of cards. */
  const Red: Color := Color(1.0, 0.0, 0.0, 1.0)
  /** The blue outline of a valid selection. */
  const Blue: Color := Color(0.0, 0.0, 1.0, 1.0)
  /** The border of a plain move: no outline at all. */
  const Transparent: Color := Color(0.0, 0.0, 0.0, 0.0)

  /**
   * `Action`: one animation step of one actor (or card). Times are integer
   * milliseconds; `expiration` is the instant after which it is stale.
   */
  datatype Action = Action(
    id: int,
    actionType: ActionType,
    animationType: AnimationType,
    displacement: HecsCoord,
    rotation: real,
    borderRadius: real,
    borderColor: Color,
    durationS: real,
    expiration: int)

  /** `Color.__eq__`: componentwise comparison of the four channels. */
  function ColorEquals(x: Color, y: Color): (eq: bool)
    ensures eq <==> x == y
  {
    x.r == y.r && x.g == y.g && x.b == y.b && x.a == y.a
  }

  /**
   * `CensorActionForFollower`: hides from a follower that a selection is
   * invalid by turning a red border blue. `follower` is only logged.
   */
  function CensorActionForFollower(action: Action, follower: int): (censored: Action)
    ensures censored.borderColor != Red
    ensures censored.(borderColor := action.borderColor) == action
    ensures ColorEquals(action.borderColor, Red) ==> censored.borderColor == Blue
    ensures !ColorEquals(action.borderColor, Red) ==> censored == action
  {
    if ColorEquals(action.borderColor, Red) then action.(borderColor := Blue) else action
  }

  /** Censoring twice is censoring once, for any follower. */
  lemma CensorIdempotent(action: Action, follower: int, other: int)
    ensures CensorActionForFollower(CensorActionForFollower(action, follower), other)
         == CensorActionForFollower(action, follower)
  {
  }

  /**
   * `HecsCoord(*coords)`: the coordinate takes exactly the three coordinates
   * `a`, `r` and `c`; a call with any other number of them raises `TypeError`.
   */
  function NewHecsCoord(coords: seq<int>): (r: Result<HecsCoord>)
    ensures r.Ok? <==> |coords| == 3
    ensures r.Ok? ==> r.value == HecsCoord(coords[0], coords[1], coords[2])
    ensures r.Err? ==> r.error.TypeError?
  {
    if |coords| == 3 then Ok(HecsCoord(coords[0], coords[1], coords[2]))
    else Err(TypeError("HecsCoord takes the three coordinates a, r and c"))
  }

  /**
   * The exception `datetime.timedelta(...)` raises where `datetime` is the
   * class imported from the module: the class has no attribute `timedelta`.
   */
  const TimedeltaLookup: PyError := AttributeError("timedelta")

  /**
   * The body of `Turn` as written, with the coordinates its displacement is
   * built from. The arguments of `Action` are evaluated in order: the
   * displacement first, then the expiration's `datetime.timedelta` lookup.
   */
  function TurnBuiltFrom(id: int, angle: real, coords: seq<int>): (r: Result<Action>)
  {
    var displacement := NewHecsCoord(coords);
    if displacement.Err? then Err(displacement.error) else Err(TimedeltaLookup)
  }

  /** `Turn` as written: its displacement is `HecsCoord(0, 0)`, with two coordinates. */
  function TurnAsWritten(id: int, angle: real): (r: Result<Action>)
  {
    TurnBuiltFrom(id, angle, [0, 0])
  }

  /** `Walk` as written: the same `datetime.timedelta` lookup raises. */
  function WalkAsWritten(id: int, displacement: HecsCoord): (r: Result<Action>)
  {
    Err(TimedeltaLookup)
  }

  /**
   * No arguments make the written constructors produce an action: `Turn`
   * fails on its two-coordinate displacement, before it reaches the
   * `datetime.timedelta` lookup on which `Walk` fails. With the displacement
   * corrected to `HecsCoord(0, 0, 0)`, `Turn` still fails on that lookup.
   */
  lemma ConstructorsAsWrittenAlwaysRaise(id: int, angle: real, displacement: HecsCoord)
    ensures TurnAsWritten(id, angle).Err? && TurnAsWritten(id, angle).error.TypeError?
    ensures TurnBuiltFrom(id, angle, [0, 0, 0]) == Err(AttributeError("timedelta"))
    ensures WalkAsWritten(id, displacement) == Err(AttributeError("timedelta"))
    ensures NewHecsCoord([0, 0]).Err? && NewHecsCoord([0, 0, 0]) == Ok(Origin)
  {
  }

  /** How long a `Turn` or `Walk` stays current: ten seconds. */
  const ActionLifetimeMs: int := 10_000

  /**
   * `Turn` as evidently intended: a rotation in place by `angle` degrees
   * that expires ten seconds after `now`.
   */
  function Turn(id: int, angle: real, now: int): (action: Action)
    ensures action.id == id && action.borderRadius == 0.0
    ensures action.actionType == Rotate && action.animationType == RotateAnimation
    ensures action.displacement == Origin && action.rotation == angle
    ensures action.borderColor == Transparent && action.durationS == 0.0
    ensures action.expiration == now + ActionLifetimeMs
  {
    Action(id, Rotate, RotateAnimation, Origin, angle, 0.0, Transparent, 0.0, now + ActionLifetimeMs)
  }

  /**
   * `Walk` as evidently intended: a walking step by `displacement` without
   * rotation that expires ten seconds after `now`.
   */
  function Walk(id: int, displacement: HecsCoord, now: int): (action: Action)
    ensures action.id == id && action.borderRadius == 0.0
    ensures action.actionType == Translate && action.animationType == Walking
    ensures action.displacement == displacement && action.rotation == 0.0
    ensures action.borderColor == Transparent && action.durationS == 0.0
    ensures action.expiration == now + ActionLifetimeMs
  {
    Action(id, Translate, Walking, displacement, 0.0, 0.0, Transparent, 0.0, now + ActionLifetimeMs)
  }

  /** A follower sees the moves built by `Turn` and `Walk` exactly as sent. */
  lemma CensorKeepsMoves(id: int, angle: real, displacement: HecsCoord, now: int, follower: int)
    ensures CensorActionForFollower(Turn(id, angle, now), follower) == Turn(id, angle, now)
    ensures CensorActionForFollower(Walk(id, displacement, now), follower) == Walk(id, displacement, now)
  {
  }
}
