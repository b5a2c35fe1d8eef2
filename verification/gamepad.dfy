/**
  The emulated gamepad: how key codes map to buttons and stick directives,
  the three-level state machine of each stick axis, and the records the
  gamepad sink writes for a button action, a stick action and a sync.

  The sink's file descriptor is not modelled: a write is the record it
  would put on the device, returned to the caller.
 */
module Gamepad {
  import opened InputCodes

  /** Press state of a key as reported in an EV_KEY record's value. */
  datatype ButtonState = Release | Press | Repeat

  /** The raw value a button state is written as (its discriminant). */
  function ButtonStateValue(s: ButtonState): (v: i32)
    ensures 0 <= v <= 2
    ensures v == 0 <==> s == Release
    ensures v == 1 <==> s == Press
    ensures v == 2 <==> s == Repeat
  {
    match s
    case Release => 0
    case Press => 1
    case Repeat => 2
  }

  /** Conversion of a raw EV_KEY value to a press state. The program treats
      any value outside 0..=2 as unreachable; here that is `None`. */
  function ButtonStateFrom(value: int): (r: Option<ButtonState>)
    ensures r.Some? <==> 0 <= value <= 2
    ensures r.Some? ==> ButtonStateValue(r.value) == value
  {
    if value == 0 then Some(Release)
    else if value == 1 then Some(Press)
    else if value == 2 then Some(Repeat)
    else None
  }

  datatype GamepadButton = A | B | X | Y

  /** The event code each button is reported under. */
  function ButtonCode(b: GamepadButton): u16
  {
    match b
    case A => BTN_A
    case B => BTN_B
    case X => BTN_X
    case Y => BTN_Y
  }

  /** The button table: Enter and Space both press A, G is Y, E is X, C is B,
      independently of the press state. Each ensures gives the full set of
      keys that reach one button. */
  function MapButton(key: int): (r: Option<GamepadButton>)
    ensures r == Some(A) <==> key == KEY_ENTER as int || key == KEY_SPACE as int
    ensures r == Some(Y) <==> key == KEY_G as int
    ensures r == Some(X) <==> key == KEY_E as int
    ensures r == Some(B) <==> key == KEY_C as int
  {
    if key == KEY_ENTER || key == KEY_SPACE then Some(A)
    else if key == KEY_G then Some(Y)
    else if key == KEY_E then Some(X)
    else if key == KEY_C then Some(B)
    else None
  }

  /** Level of one stick axis: up/left, centre, down/right. */
  datatype Level = Low | Neutral | High

  /** The value a level is written as: the extremes of a signed 16-bit axis. */
  function LevelValue(l: Level): (v: i16)
    ensures v > 0 <==> l == High
    ensures v < 0 <==> l == Low
    ensures l == High ==> v == I16_MAX
    ensures l == Low ==> v == I16_MIN
    ensures l == Neutral ==> v == 0
  {
    match l
    case High => I16_MAX
    case Neutral => 0
    case Low => I16_MIN
  }

  /** How a reader of the emulated device decodes an axis value back into a
      level; values no level is written as have no decoding. */
  function LevelOf(v: int): (r: Option<Level>)
    ensures r.Some? ==> LevelValue(r.value) == v
    ensures forall l: Level :: LevelValue(l) == v ==> r == Some(l)
  {
    if v == I16_MAX then Some(High)
    else if v == 0 then Some(Neutral)
    else if v == I16_MIN then Some(Low)
    else None
  }

  /** The two axes of the left stick. */
  datatype Axis = Horizontal | Vertical

  function Other(a: Axis): Axis
  {
    if a == Horizontal then Vertical else Horizontal
  }

  /** The absolute-axis code each axis is reported under. */
  function AxisCode(a: Axis): u16
  {
    match a
    case Horizontal => ABS_X
    case Vertical => ABS_Y
  }

  /** A request to move one axis of the left stick to a level. */
  datatype StickAction = StickAction(axis: Axis, level: Level)

  /** Reference table of the direction keys: the axis each one moves and the
      level it requests while pressed. W/S are up/down, A/D are left/right. */
  function DirectionKey(key: int): Option<StickAction>
  {
    if key == KEY_W as int then Some(StickAction(Vertical, Low))
    else if key == KEY_S as int then Some(StickAction(Vertical, High))
    else if key == KEY_A as int then Some(StickAction(Horizontal, Low))
    else if key == KEY_D as int then Some(StickAction(Horizontal, High))
    else None
  }

  /** The stick table. A press of a direction key requests its direction, a
      release of either key of an axis requests the centre, and a repeat
      requests nothing. */
  function MapStick(key: int, state: ButtonState): (r: Option<StickAction>)
    ensures state == Repeat ==> r == None
    ensures state == Press ==> r == DirectionKey(key)
    ensures state == Release ==>
      r == (match DirectionKey(key)
            case Some(d) => Some(StickAction(d.axis, Neutral))
            case None => None)
  {
    match state
    case Press => DirectionKey(key)
    case Release =>
      if key == KEY_W as int || key == KEY_S as int then Some(StickAction(Vertical, Neutral))
      else if key == KEY_A as int || key == KEY_D as int then Some(StickAction(Horizontal, Neutral))
      else None
    case Repeat => None
  }

  /** The axis state machine. A request for the centre always wins, a request
      from the centre always takes effect, and a request for the opposite
      extreme cancels to the centre instead of flipping. */
  function Next(cur: Level, req: Level): (r: Level)
    ensures req == Neutral ==> r == Neutral
    ensures cur == Neutral || cur == req ==> r == req
    ensures r != Neutral ==> r == req
    ensures r == High ==> cur != Low
    ensures r == Low ==> cur != High
  {
    match (cur, req)
    case (High, High) => High
    case (High, Neutral) => Neutral
    case (High, Low) => Neutral
    case (Neutral, High) => High
    case (Neutral, Neutral) => Neutral
    case (Neutral, Low) => Low
    case (Low, High) => Neutral
    case (Low, Neutral) => Neutral
    case (Low, Low) => Low
  }

  /** The mutable state of the gamepad sink: one level per axis. */
  datatype Pad = Pad(x: Level, y: Level)

  /** Both axes start centred. */
  const InitialPad: Pad := Pad(Neutral, Neutral)

  function Get(p: Pad, a: Axis): Level
  {
    match a
    case Horizontal => p.x
    case Vertical => p.y
  }

  function Set(p: Pad, a: Axis, l: Level): (q: Pad)
    ensures Get(q, a) == l
    ensures Get(q, Other(a)) == Get(p, Other(a))
  {
    match a
    case Horizontal => p.(x := l)
    case Vertical => p.(y := l)
  }

  /** Applies the state machine to the axis an action names. */
  function UpdateStick(p: Pad, action: StickAction): (q: Pad)
    ensures Get(q, action.axis) == Next(Get(p, action.axis), action.level)
    ensures Get(q, Other(action.axis)) == Get(p, Other(action.axis))
  {
    Set(p, action.axis, Next(Get(p, action.axis), action.level))
  }

  /** A stick action: update the named axis, then write one EV_ABS record
      carrying that axis's new level. */
  function StickActionEffect(p: Pad, action: StickAction): (r: (Pad, Event))
    ensures Get(r.0, action.axis) == Next(Get(p, action.axis), action.level)
    ensures Get(r.0, Other(action.axis)) == Get(p, Other(action.axis))
    ensures r.1.kind == EV_ABS && r.1.code == AxisCode(action.axis)
    ensures LevelOf(r.1.value) == Some(Get(r.0, action.axis))
  {
    var q := UpdateStick(p, action);
    (q, Event(EV_ABS, AxisCode(action.axis), LevelValue(Get(q, action.axis))))
  }

  /** A button action: one EV_KEY record for the button carrying the press
      state; the sink's state is not involved. */
  function ButtonRecord(b: GamepadButton, s: ButtonState): (e: Event)
    ensures e.kind == EV_KEY && e.code == ButtonCode(b)
    ensures ButtonStateFrom(e.value) == Some(s)
  {
    Event(EV_KEY, ButtonCode(b), ButtonStateValue(s))
  }

  /** The synchronisation marker closing a batch of changes. */
  const SyncRecord: Event := Event(EV_SYN, SYN_REPORT, 0)

  /** Outcome of constructing the sink. */
  datatype Setup =
    | SetupPanics        // name too long, or the device could not be opened or registered
    | SetupRejected      // the kernel refused to create the device
    | SetupReady(pad: Pad)

  /** Construction of the sink. `registers` stands for the device open, the
      capability ioctls and the device description write all succeeding, and
      `creates` for the device-creation ioctl succeeding; both are answers of
      the kernel. The name must fit uinput's name field. */
  function NewGamepad(devName: seq<u8>, registers: bool, creates: bool): (r: Setup)
    ensures r.SetupPanics? <==> |devName| > UINPUT_MAX_NAME_SIZE || !registers
    ensures r.SetupReady? <==> |devName| <= UINPUT_MAX_NAME_SIZE && registers && creates
    ensures r.SetupReady? ==> Get(r.pad, Horizontal) == Neutral && Get(r.pad, Vertical) == Neutral
  {
    if |devName| > UINPUT_MAX_NAME_SIZE || !registers then SetupPanics
    else if creates then SetupReady(InitialPad)
    else SetupRejected
  }
}
