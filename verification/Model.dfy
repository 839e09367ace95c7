/** Values every other module shares: buttons, the decoded controller state and a point in time. */
module Model {

  datatype Option<+T> = None | Some(value: T)

  /** A monotonic clock reading, in nanoseconds. */
  type Time = nat

  newtype Byte = x: int | 0 <= x < 256

  const NS_PER_MS: nat := 1_000_000

  function Ms(ms: nat): (t: Time)
    ensures t > 0 <==> ms > 0
  {
    ms * NS_PER_MS
  }

  /** The saturating difference of two clock readings. */
  function Since(now: Time, start: Time): nat {
    if now < start then 0 else now - start
  }

  datatype Button =
    | Square | Cross | Circle | Triangle
    | L1 | R1 | L2 | R2
    | Create | Options | L3 | R3 | PS
    | Touchpad | TouchpadLeft | TouchpadRight | Mic
    | DpadUp | DpadDown | DpadLeft | DpadRight
    | FnLeft | FnRight | LeftPaddle | RightPaddle
    | L2Analog | R2Analog

  datatype Axis = LeftX | LeftY | RightX | RightY

  /** The decoded controller state: the pressed buttons and the analog values. */
  datatype GamepadState = GamepadState(
    buttons: set<Button>,
    leftX: Byte, leftY: Byte, rightX: Byte, rightY: Byte,
    l2Analog: Byte, r2Analog: Byte,
    seqNumber: Byte,
    batteryPct: Byte, batteryCharging: bool, headphoneConnected: bool)
  {
    predicate Pressed(b: Button) {
      b in buttons
    }

    function Set(b: Button, pressed: bool): GamepadState {
      this.(buttons := if pressed then buttons + {b} else buttons - {b})
    }

    function Stick(axis: Axis): Byte {
      match axis
      case LeftX => leftX
      case LeftY => leftY
      case RightX => rightX
      case RightY => rightY
    }

    function SetStick(axis: Axis, value: Byte): GamepadState {
      match axis
      case LeftX => this.(leftX := value)
      case LeftY => this.(leftY := value)
      case RightX => this.(rightX := value)
      case RightY => this.(rightY := value)
    }
  }

  const NEUTRAL: GamepadState :=
    GamepadState({}, 128, 128, 128, 128, 0, 0, 0, 0, false, false)

  const REPORT_SIZE: nat := 64

  /** A USB input report. */
  type Report = r: seq<Byte> | |r| == REPORT_SIZE witness seq(REPORT_SIZE, _ => 0)

  /** A decoded controller report and the raw USB bytes it came from. */
  datatype ControllerFrame = ControllerFrame(state: GamepadState, raw: Report)

  predicate ContactActive(raw: Report, base: nat)
    requires base + 3 < REPORT_SIZE
  {
    raw[base] < 0x80
  }

  function ContactX(raw: Report, base: nat): nat
    requires base + 3 < REPORT_SIZE
  {
    raw[base + 2] as nat % 16 * 256 + raw[base + 1] as nat
  }

  /** Which half of the touchpad a click falls on, judged by the first active contact. */
  function TouchpadSplitButton(raw: Report): Option<Button> {
    if raw[10] / 2 % 2 == 0 then None
    else if ContactActive(raw, 33) then Some(if ContactX(raw, 33) < 960 then TouchpadLeft else TouchpadRight)
    else if ContactActive(raw, 37) then Some(if ContactX(raw, 37) < 960 then TouchpadLeft else TouchpadRight)
    else None
  }

  function MaxByte(a: Byte, b: Byte): Byte {
    if a < b then b else a
  }

  /** The largest of the values that are present. */
  function MaxOption(a: Option<Byte>, b: Option<Byte>): Option<Byte> {
    match (a, b)
    case (None, _) => b
    case (_, None) => a
    case (Some(x), Some(y)) => Some(MaxByte(x, y))
  }

  /** The earlier of two optional times; an absent time is never earlier. */
  function Earlier(a: Option<Time>, b: Option<Time>): Option<Time> {
    match (a, b)
    case (None, _) => b
    case (_, None) => a
    case (Some(x), Some(y)) => Some(if x <= y then x else y)
  }

  /** The earliest of several optional times. */
  function Earliest(times: seq<Option<Time>>): (r: Option<Time>)
    ensures r.None? <==> forall i :: 0 <= i < |times| ==> times[i].None?
    ensures r.Some? ==> r in times
    ensures forall i :: 0 <= i < |times| && times[i].Some? ==> r.Some? && r.value <= times[i].value
  {
    if times == [] then None else Earlier(times[0], Earliest(times[1..]))
  }

  predicate NoneDueBy(deadline: Option<Time>, now: Time) {
    deadline.Some? ==> now < deadline.value
  }
}
