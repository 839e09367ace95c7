/** DS5 input reports over USB and Bluetooth (src/codec/ds5_usb.rs, src/codec/ds5_bt.rs). */
module Codec {
  import opened Model
  import opened Mapping
  import opened Runtime
  import opened Pipeline
  import opened PipelineRuns
  import opened Crc

  const INPUT_REPORT_ID: Byte := 0x01

  const BT_INPUT_REPORT_ID: Byte := 0x31

  const BT_REPORT_SIZE: nat := 78

  const BT_CRC_OFFSET: nat := 74

  const BT_INPUT_SEED: Byte := 0xA1

  /** The bit of this weight. */
  function Bit(b: nat, weight: nat): (r: nat)
    requires weight > 0
    ensures r <= 1
  {
    b / weight % 2
  }

  predicate Flag(b: Byte, weight: nat)
    requires weight > 0
  {
    Bit(b as nat, weight) == 1
  }

  /** The four directions a hat value stands for; 8 and above are neutral. */
  function HatDirections(hat: nat): set<Button> {
    if hat == 0 then {DpadUp}
    else if hat == 1 then {DpadUp, DpadRight}
    else if hat == 2 then {DpadRight}
    else if hat == 3 then {DpadDown, DpadRight}
    else if hat == 4 then {DpadDown}
    else if hat == 5 then {DpadDown, DpadLeft}
    else if hat == 6 then {DpadLeft}
    else if hat == 7 then {DpadUp, DpadLeft}
    else {}
  }

  /** Whether a report says the button is down: the bit assignment of the three button bytes. */
  predicate Reported(raw: Report, b: Button) {
    match b
    case Square => Flag(raw[8], 0x10)
    case Cross => Flag(raw[8], 0x20)
    case Circle => Flag(raw[8], 0x40)
    case Triangle => Flag(raw[8], 0x80)
    case L1 => Flag(raw[9], 0x01)
    case R1 => Flag(raw[9], 0x02)
    case L2 => Flag(raw[9], 0x04)
    case R2 => Flag(raw[9], 0x08)
    case Create => Flag(raw[9], 0x10)
    case Options => Flag(raw[9], 0x20)
    case L3 => Flag(raw[9], 0x40)
    case R3 => Flag(raw[9], 0x80)
    case PS => Flag(raw[10], 0x01)
    case Touchpad => Flag(raw[10], 0x02)
    case Mic => Flag(raw[10], 0x04)
    case FnLeft => Flag(raw[10], 0x10)
    case FnRight => Flag(raw[10], 0x20)
    case LeftPaddle => Flag(raw[10], 0x40)
    case RightPaddle => Flag(raw[10], 0x80)
    case _ => b in HatDirections(raw[8] as nat % 16)
  }

  /** The state a report describes. */
  function ParsedState(raw: Report): GamepadState {
    GamepadState(
      (set b: Button | Reported(raw, b)),
      raw[1], raw[2], raw[3], raw[4], raw[5], raw[6], raw[7],
      (if raw[53] as nat % 16 < 10 then raw[53] as nat % 16 * 10 else 100) as Byte,
      raw[53] as nat / 16 == 1 || raw[53] as nat / 16 == 2,
      Flag(raw[54], 0x01))
  }

  /** The directions of the hat nibble, case by case. */
  method ParseHat(hat: nat, state: GamepadState) returns (state': GamepadState)
    ensures state' == state.(buttons := state.buttons + HatDirections(hat))
  {
    state' := state;
    match hat {
      case 0 => state' := state'.Set(DpadUp, true);
      case 1 =>
        state' := state'.Set(DpadUp, true);
        state' := state'.Set(DpadRight, true);
      case 2 => state' := state'.Set(DpadRight, true);
      case 3 =>
        state' := state'.Set(DpadDown, true);
        state' := state'.Set(DpadRight, true);
      case 4 => state' := state'.Set(DpadDown, true);
      case 5 =>
        state' := state'.Set(DpadDown, true);
        state' := state'.Set(DpadLeft, true);
      case 6 => state' := state'.Set(DpadLeft, true);
      case 7 =>
        state' := state'.Set(DpadUp, true);
        state' := state'.Set(DpadLeft, true);
      case _ =>
    }
    assert state'.buttons == state.buttons + HatDirections(hat);
  }

  /** `state'` has these buttons as reported and is otherwise `state`. */
  ghost predicate Took(state': GamepadState, state: GamepadState, raw: Report, buttons: set<Button>) {
    && state' == state.(buttons := state'.buttons)
    && forall b :: state'.Pressed(b) <==> if b in buttons then Reported(raw, b) else state.Pressed(b)
  }

  method ParseFace(raw: Report, state: GamepadState) returns (state': GamepadState)
    ensures Took(state', state, raw, {Square, Cross, Circle, Triangle})
  {
    hide Flag, HatDirections;
    state' := state.Set(Square, Flag(raw[8], 0x10));
    state' := state'.Set(Cross, Flag(raw[8], 0x20));
    state' := state'.Set(Circle, Flag(raw[8], 0x40));
    state' := state'.Set(Triangle, Flag(raw[8], 0x80));
  }

  method ParseShoulders(raw: Report, state: GamepadState) returns (state': GamepadState)
    ensures Took(state', state, raw, {L1, R1, L2, R2})
  {
    hide Flag, HatDirections;
    state' := state.Set(L1, Flag(raw[9], 0x01));
    state' := state'.Set(R1, Flag(raw[9], 0x02));
    state' := state'.Set(L2, Flag(raw[9], 0x04));
    state' := state'.Set(R2, Flag(raw[9], 0x08));
  }

  method ParseMenu(raw: Report, state: GamepadState) returns (state': GamepadState)
    ensures Took(state', state, raw, {Create, Options, L3, R3})
  {
    hide Flag, HatDirections;
    state' := state.Set(Create, Flag(raw[9], 0x10));
    state' := state'.Set(Options, Flag(raw[9], 0x20));
    state' := state'.Set(L3, Flag(raw[9], 0x40));
    state' := state'.Set(R3, Flag(raw[9], 0x80));
  }

  method ParseSystem(raw: Report, state: GamepadState) returns (state': GamepadState)
    ensures Took(state', state, raw, {PS, Touchpad, Mic})
  {
    hide Flag, HatDirections;
    state' := state.Set(PS, Flag(raw[10], 0x01));
    state' := state'.Set(Touchpad, Flag(raw[10], 0x02));
    state' := state'.Set(Mic, Flag(raw[10], 0x04));
  }

  method ParseEdge(raw: Report, state: GamepadState) returns (state': GamepadState)
    ensures Took(state', state, raw, {FnLeft, FnRight, LeftPaddle, RightPaddle})
  {
    hide Flag, HatDirections;
    state' := state.Set(FnLeft, Flag(raw[10], 0x10));
    state' := state'.Set(FnRight, Flag(raw[10], 0x20));
    state' := state'.Set(LeftPaddle, Flag(raw[10], 0x40));
    state' := state'.Set(RightPaddle, Flag(raw[10], 0x80));
  }

  /** The five groups of flags and the hat are all the buttons there are. */
  lemma AllTaken(raw: Report, start: GamepadState, face: GamepadState, hat: GamepadState, shoulders: GamepadState,
                 menu: GamepadState, system: GamepadState, edge: GamepadState)
    requires start.buttons == {} && Took(face, start, raw, {Square, Cross, Circle, Triangle})
    requires hat == face.(buttons := face.buttons + HatDirections(raw[8] as nat % 16))
    requires Took(shoulders, hat, raw, {L1, R1, L2, R2}) && Took(menu, shoulders, raw, {Create, Options, L3, R3})
    requires Took(system, menu, raw, {PS, Touchpad, Mic})
    requires Took(edge, system, raw, {FnLeft, FnRight, LeftPaddle, RightPaddle})
    ensures edge == start.(buttons := set b: Button | Reported(raw, b))
  {
    hide Flag;
    forall b: Button ensures b in edge.buttons <==> Reported(raw, b) {
      assert edge.Pressed(b) <==> b in edge.buttons;
    }
  }

  method ParseInput(data: Bytes) returns (r: Option<GamepadState>)
    ensures r == if |data| < REPORT_SIZE || data[0] != INPUT_REPORT_ID then None else Some(ParsedState(data[..REPORT_SIZE]))
  {
    hide Flag, Took, HatDirections, Reported;
    if |data| < REPORT_SIZE || data[0] != INPUT_REPORT_ID {
      return None;
    }
    var raw: Report := data[..REPORT_SIZE];
    var state := NEUTRAL.(leftX := raw[1], leftY := raw[2], rightX := raw[3], rightY := raw[4],
                          l2Analog := raw[5], r2Analog := raw[6], seqNumber := raw[7]);
    ghost var start := state;
    state := ParseFace(raw, state);
    ghost var face := state;
    state := ParseHat(raw[8] as nat % 16, state);
    ghost var hat := state;
    state := ParseShoulders(raw, state);
    ghost var shoulders := state;
    state := ParseMenu(raw, state);
    ghost var menu := state;
    state := ParseSystem(raw, state);
    ghost var system := state;
    state := ParseEdge(raw, state);
    AllTaken(raw, start, face, hat, shoulders, menu, system, state);
    var level := raw[53] as nat % 16;
    var charging := raw[53] as nat / 16;
    state := state.(batteryPct := (if level < 10 then level * 10 else 100) as Byte,
                    batteryCharging := charging == 1 || charging == 2,
                    headphoneConnected := Flag(raw[54], 0x01));
    return Some(state);
  }

  function DecodeUsb(raw: Bytes): Option<ControllerFrame> {
    if |raw| < REPORT_SIZE || raw[0] != INPUT_REPORT_ID then None
    else Some(ControllerFrame(ParsedState(raw[..REPORT_SIZE]), raw[..REPORT_SIZE]))
  }

  method DecodeUsbInput(raw: Bytes) returns (r: Option<ControllerFrame>)
    ensures r == DecodeUsb(raw)
  {
    if |raw| < REPORT_SIZE {
      return None;
    }
    var source: Report := raw[..REPORT_SIZE];
    var state := ParseInput(source);
    if state.None? {
      return None;
    }
    assert source[..REPORT_SIZE] == source;
    return Some(ControllerFrame(state.value, source));
  }

  // --------------------------------------------------------------- encoding

  function DpadValue(state: GamepadState): Byte {
    var (up, down, left, right) :=
      (state.Pressed(DpadUp), state.Pressed(DpadDown), state.Pressed(DpadLeft), state.Pressed(DpadRight));
    if up && !down && !left && !right then 0
    else if up && !down && !left && right then 1
    else if !up && !down && !left && right then 2
    else if !up && down && !left && right then 3
    else if !up && down && !left && !right then 4
    else if !up && down && left && !right then 5
    else if !up && !down && left && !right then 6
    else if up && !down && left && !right then 7
    else 8
  }

  function Weight(state: GamepadState, b: Button, weight: nat): nat {
    if state.Pressed(b) then weight else 0
  }

  function FaceByte(state: GamepadState): nat {
    DpadValue(state) as nat + Weight(state, Square, 0x10) + Weight(state, Cross, 0x20)
    + Weight(state, Circle, 0x40) + Weight(state, Triangle, 0x80)
  }

  function ShoulderByte(state: GamepadState): nat {
    Weight(state, L1, 0x01) + Weight(state, R1, 0x02) + Weight(state, L2, 0x04) + Weight(state, R2, 0x08)
    + Weight(state, Create, 0x10) + Weight(state, Options, 0x20) + Weight(state, L3, 0x40) + Weight(state, R3, 0x80)
  }

  function SystemByte(state: GamepadState): nat {
    Weight(state, PS, 0x01) + Weight(state, Touchpad, 0x02) + Weight(state, Mic, 0x04)
    + Weight(state, FnLeft, 0x10) + Weight(state, FnRight, 0x20)
    + Weight(state, LeftPaddle, 0x40) + Weight(state, RightPaddle, 0x80)
  }

  /** The state written over the bytes of the report it came from. */
  function Encoded(raw: Report, state: GamepadState, seqNo: Byte): Report {
    [INPUT_REPORT_ID, state.leftX, state.leftY, state.rightX, state.rightY, state.l2Analog, state.r2Analog, seqNo,
     FaceByte(state) as Byte, ShoulderByte(state) as Byte, SystemByte(state) as Byte,
     (raw[11] as nat % 16) as Byte] + raw[12..]
  }

  /** Sets one flag per pressed button; the masks are disjoint, so setting is adding. */
  method SetFlags(state: GamepadState, start: Byte, table: seq<(Button, nat)>) returns (b: nat)
    ensures b == start as nat + Weights(state, table)
  {
    b := start as nat;
    for i := 0 to |table|
      invariant b == start as nat + Weights(state, table[..i])
    {
      assert table[..i + 1][..i] == table[..i];
      if state.Pressed(table[i].0) {
        b := b + table[i].1;
      }
    }
    assert table[..|table|] == table;
  }

  function Weights(state: GamepadState, table: seq<(Button, nat)>): nat {
    if table == [] then 0
    else Weights(state, table[..|table| - 1]) + Weight(state, table[|table| - 1].0, table[|table| - 1].1)
  }

  method ApplyState(raw: Report, state: GamepadState, seqNo: Byte) returns (raw': Report)
    ensures raw' == Encoded(raw, state, seqNo)
  {
    hide FaceByte, ShoulderByte, SystemByte, DpadValue, Weights;
    ByteBounds(state);
    raw' := raw[0 := INPUT_REPORT_ID][1 := state.leftX][2 := state.leftY][3 := state.rightX][4 := state.rightY];
    raw' := raw'[5 := state.l2Analog][6 := state.r2Analog][7 := seqNo];
    var b0 := SetFlags(state, DpadValue(state), [(Square, 0x10), (Cross, 0x20), (Circle, 0x40), (Triangle, 0x80)]);
    var b1 := SetFlags(state, 0, [(L1, 0x01), (R1, 0x02), (L2, 0x04), (R2, 0x08),
                                  (Create, 0x10), (Options, 0x20), (L3, 0x40), (R3, 0x80)]);
    var b2 := SetFlags(state, 0, [(PS, 0x01), (Touchpad, 0x02), (Mic, 0x04), (FnLeft, 0x10), (FnRight, 0x20),
                                  (LeftPaddle, 0x40), (RightPaddle, 0x80)]);
    TableWeights(state);
    raw' := raw'[8 := b0 as Byte][9 := b1 as Byte][10 := b2 as Byte];
    raw' := raw'[11 := (raw'[11] as nat % 16) as Byte];
  }

  lemma ByteBounds(state: GamepadState)
    ensures FaceByte(state) < 256 && ShoulderByte(state) < 256 && SystemByte(state) < 256
  {
  }

  lemma TableWeights(state: GamepadState)
    ensures DpadValue(state) as nat
            + Weights(state, [(Square, 0x10), (Cross, 0x20), (Circle, 0x40), (Triangle, 0x80)]) == FaceByte(state)
    ensures Weights(state, [(L1, 0x01), (R1, 0x02), (L2, 0x04), (R2, 0x08),
                            (Create, 0x10), (Options, 0x20), (L3, 0x40), (R3, 0x80)]) == ShoulderByte(state)
    ensures Weights(state, [(PS, 0x01), (Touchpad, 0x02), (Mic, 0x04), (FnLeft, 0x10), (FnRight, 0x20),
                            (LeftPaddle, 0x40), (RightPaddle, 0x80)]) == SystemByte(state)
  {
    Four(state, (Square, 0x10), (Cross, 0x20), (Circle, 0x40), (Triangle, 0x80));
    Four(state, (L1, 0x01), (R1, 0x02), (L2, 0x04), (R2, 0x08));
    Four(state, (Create, 0x10), (Options, 0x20), (L3, 0x40), (R3, 0x80));
    Joined(state, [(L1, 0x01), (R1, 0x02), (L2, 0x04), (R2, 0x08)],
           [(Create, 0x10), (Options, 0x20), (L3, 0x40), (R3, 0x80)]);
    assert [(L1, 0x01), (R1, 0x02), (L2, 0x04), (R2, 0x08)] + [(Create, 0x10), (Options, 0x20), (L3, 0x40), (R3, 0x80)]
        == [(L1, 0x01), (R1, 0x02), (L2, 0x04), (R2, 0x08), (Create, 0x10), (Options, 0x20), (L3, 0x40), (R3, 0x80)];
    Four(state, (PS, 0x01), (Touchpad, 0x02), (Mic, 0x04), (FnLeft, 0x10));
    Joined(state, [(PS, 0x01), (Touchpad, 0x02), (Mic, 0x04), (FnLeft, 0x10)],
           [(FnRight, 0x20), (LeftPaddle, 0x40), (RightPaddle, 0x80)]);
    assert [(PS, 0x01), (Touchpad, 0x02), (Mic, 0x04), (FnLeft, 0x10)] + [(FnRight, 0x20), (LeftPaddle, 0x40), (RightPaddle, 0x80)]
        == [(PS, 0x01), (Touchpad, 0x02), (Mic, 0x04), (FnLeft, 0x10), (FnRight, 0x20), (LeftPaddle, 0x40), (RightPaddle, 0x80)];
    Three(state, (FnRight, 0x20), (LeftPaddle, 0x40), (RightPaddle, 0x80));
  }

  lemma {:induction false} Joined(state: GamepadState, s: seq<(Button, nat)>, t: seq<(Button, nat)>)
    ensures Weights(state, s + t) == Weights(state, s) + Weights(state, t)
  {
    if t == [] {
      assert s + t == s;
    } else {
      Joined(state, s, t[..|t| - 1]);
      assert (s + t)[..|s + t| - 1] == s + t[..|t| - 1];
    }
  }

  lemma Three(state: GamepadState, a: (Button, nat), b: (Button, nat), c: (Button, nat))
    ensures Weights(state, [a, b, c]) == Weight(state, a.0, a.1) + Weight(state, b.0, b.1) + Weight(state, c.0, c.1)
  {
    Joined(state, [a], [b]);
    Joined(state, [a] + [b], [c]);
    assert [a] + [b] + [c] == [a, b, c];
  }

  lemma Four(state: GamepadState, a: (Button, nat), b: (Button, nat), c: (Button, nat), d: (Button, nat))
    ensures Weights(state, [a, b, c, d])
            == Weight(state, a.0, a.1) + Weight(state, b.0, b.1) + Weight(state, c.0, c.1) + Weight(state, d.0, d.1)
  {
    Three(state, a, b, c);
    Joined(state, [a, b, c], [d]);
    assert [a, b, c] + [d] == [a, b, c, d];
  }

  // ------------------------------------------------------------- round trips

  lemma NibbleBits(n: nat)
    requires n < 16
    ensures n == n % 2 + n / 2 % 2 * 2 + n / 4 % 2 * 4 + n / 8 % 2 * 8
  {
  }

  lemma Halves(k: nat, n: nat)
    requires n < 16
    ensures (16 * k + n) / 2 == 8 * k + n / 2 && (16 * k + n) / 4 == 4 * k + n / 4 && (16 * k + n) / 8 == 2 * k + n / 8
  {
  }

  lemma LowBits(b: nat)
    ensures b % 16 == Bit(b, 1) + Bit(b, 2) * 2 + Bit(b, 4) * 4 + Bit(b, 8) * 8
  {
    var k, n := b / 16, b % 16;
    NibbleBits(n);
    Halves(k, n);
    EvenPlus(8 * k, n);
    EvenPlus(4 * k, n / 2);
    EvenPlus(2 * k, n / 4);
    EvenPlus(k, n / 8);
  }

  lemma EvenPlus(k: nat, n: nat)
    ensures (2 * k + n) % 2 == n % 2
  {
  }

  lemma HighBits(b: nat)
    requires b < 256
    ensures b / 16 * 16 == Bit(b, 16) * 16 + Bit(b, 32) * 32 + Bit(b, 64) * 64 + Bit(b, 128) * 128
  {
    NibbleBits(b / 16);
    assert b / 16 / 2 == b / 32 && b / 16 / 4 == b / 64 && b / 16 / 8 == b / 128;
  }

  /** A neutral hat has one spelling on the way out. */
  function NormalHat(hat: nat): nat {
    if hat < 8 then hat else 8
  }

  lemma HatRoundTrip(raw: Report)
    ensures DpadValue(ParsedState(raw)) as nat == NormalHat(raw[8] as nat % 16)
  {
    var hat, state := raw[8] as nat % 16, ParsedState(raw);
    assert state.Pressed(DpadUp) <==> DpadUp in HatDirections(hat);
    assert state.Pressed(DpadDown) <==> DpadDown in HatDirections(hat);
    assert state.Pressed(DpadLeft) <==> DpadLeft in HatDirections(hat);
    assert state.Pressed(DpadRight) <==> DpadRight in HatDirections(hat);
  }

  /** A reported flag keeps its weight on the way through. */
  lemma WeightOf(raw: Report, b: Button, byte: Byte, weight: nat)
    requires weight > 0 && (Reported(raw, b) <==> Flag(byte, weight))
    ensures Weight(ParsedState(raw), b, weight) == Bit(byte as nat, weight) * weight
  {
    hide HatDirections, Reported, Bit;
    assert ParsedState(raw).Pressed(b) <==> Reported(raw, b);
  }

  lemma FaceRoundTrip(raw: Report)
    ensures FaceByte(ParsedState(raw)) == raw[8] as nat / 16 * 16 + NormalHat(raw[8] as nat % 16)
  {
    HatRoundTrip(raw);
    WeightOf(raw, Square, raw[8], 16);
    WeightOf(raw, Cross, raw[8], 32);
    WeightOf(raw, Circle, raw[8], 64);
    WeightOf(raw, Triangle, raw[8], 128);
    HighBits(raw[8] as nat);
    hide Weight, ParsedState, Reported, Flag, Bit;
  }

  lemma ShoulderBits(raw: Report)
    ensures var b := raw[9] as nat;
            ShoulderByte(ParsedState(raw)) == Bit(b, 1) + Bit(b, 2) * 2 + Bit(b, 4) * 4 + Bit(b, 8) * 8
              + Bit(b, 16) * 16 + Bit(b, 32) * 32 + Bit(b, 64) * 64 + Bit(b, 128) * 128
  {
    hide Bit, ParsedState, HatDirections, Weight, Flag;
    WeightOf(raw, L1, raw[9], 1);
    WeightOf(raw, R1, raw[9], 2);
    WeightOf(raw, L2, raw[9], 4);
    WeightOf(raw, R2, raw[9], 8);
    WeightOf(raw, Create, raw[9], 16);
    WeightOf(raw, Options, raw[9], 32);
    WeightOf(raw, L3, raw[9], 64);
    WeightOf(raw, R3, raw[9], 128);
  }

  lemma ShoulderRoundTrip(raw: Report)
    ensures ShoulderByte(ParsedState(raw)) == raw[9] as nat
  {
    hide Bit, ParsedState, ShoulderByte;
    ShoulderBits(raw);
    LowBits(raw[9] as nat);
    HighBits(raw[9] as nat);
  }

  lemma SystemBits(raw: Report)
    ensures var b := raw[10] as nat;
            SystemByte(ParsedState(raw)) == Bit(b, 1) + Bit(b, 2) * 2 + Bit(b, 4) * 4
              + Bit(b, 16) * 16 + Bit(b, 32) * 32 + Bit(b, 64) * 64 + Bit(b, 128) * 128
  {
    hide Bit, ParsedState, HatDirections, Weight, Flag;
    WeightOf(raw, PS, raw[10], 1);
    WeightOf(raw, Touchpad, raw[10], 2);
    WeightOf(raw, Mic, raw[10], 4);
    WeightOf(raw, FnLeft, raw[10], 16);
    WeightOf(raw, FnRight, raw[10], 32);
    WeightOf(raw, LeftPaddle, raw[10], 64);
    WeightOf(raw, RightPaddle, raw[10], 128);
  }

  lemma SystemRoundTrip(raw: Report)
    ensures SystemByte(ParsedState(raw)) == raw[10] as nat - Bit(raw[10] as nat, 8) * 8
  {
    hide Bit, ParsedState, SystemByte;
    SystemBits(raw);
    LowBits(raw[10] as nat);
    HighBits(raw[10] as nat);
  }

  function WithoutBit3(b: Byte): (r: Byte)
    ensures r as nat == b as nat - Bit(b as nat, 8) * 8
  {
    if Flag(b, 8) then (b as nat - 8) as Byte else b
  }

  /** The report that passes through: only the sequence number, three reserved fields and odd hats may differ. */
  function PassedThrough(raw: Report, seqNo: Byte): Report {
    raw[7 := seqNo]
       [8 := (raw[8] as nat / 16 * 16 + NormalHat(raw[8] as nat % 16)) as Byte]
       [10 := WithoutBit3(raw[10])]
       [11 := (raw[11] as nat % 16) as Byte]
  }

  lemma EncodeAfterParse(raw: Report, seqNo: Byte)
    requires raw[0] == INPUT_REPORT_ID
    ensures Encoded(raw, ParsedState(raw), seqNo) == PassedThrough(raw, seqNo)
  {
    FaceRoundTrip(raw);
    ShoulderRoundTrip(raw);
    SystemRoundTrip(raw);
    hide FaceByte, ShoulderByte, SystemByte;
    assert Encoded(raw, ParsedState(raw), seqNo)[12..] == raw[12..];
  }

  lemma NothingFilters(frame: ControllerFrame, r: Runtimes, now: Time, observe: bool)
    requires r.turbo == [] && r.combo == []
    ensures Filter(frame, EMPTY_MAPPING, r, now, observe) == FirstStage(frame.state, [], [])
  {
    hide TurboNext;
    assert TurbosNext([], frame.state, now, observe) == [] && CombosNext([], frame.state) == [];
    assert ComboHeld([], frame.state) == {} && (set b | b in EMPTY_MAPPING.blockedButtons) == {};
    assert Suppress(frame.state, {}) == frame.state;
  }

  /** With nothing configured a frame's state comes out as it went in. */
  lemma EmptyMappingPasses(frame: ControllerFrame, start: Time, now: Time, observe: bool)
    ensures RuntimesOk(FreshRuntimes(EMPTY_MAPPING, start), EMPTY_MAPPING)
    ensures var o := Transform(frame, EMPTY_MAPPING, FreshRuntimes(EMPTY_MAPPING, start), now, observe);
            o.output.state == frame.state && o.output.keyboard == {} && o.runtimes == FreshRuntimes(EMPTY_MAPPING, start)
  {
    FreshOk(EMPTY_MAPPING, start);
    var r := FreshRuntimes(EMPTY_MAPPING, start);
    assert r.turbo == [] && r.combo == [] && r.macros == [];
    hide Filter, MacroArmed, MacroAt, Snapshot, FreshRuntimes, TurboSafe, MacroSafe, Matches;
    NothingFilters(frame, r, now, observe);
    var first := Filter(frame, EMPTY_MAPPING, r, now, observe);
    assert MacrosArmed(r.macros, first.l1, first.combo, now, observe) == [];
    NothingAssembled(Snapshot(frame, EMPTY_MAPPING), frame.state);
    hide Assemble;
  }

  lemma NothingAssembled(snapshot: GamepadState, state: GamepadState)
    ensures var o := Assemble(snapshot, EMPTY_MAPPING, FirstStage(state, [], []), [], []);
            o.output.state == state && o.output.keyboard == {} && o.runtimes == Runtimes([], [], [])
  {
  }

  /**
   * Passthrough over USB: decoding a valid report, running it through an empty mapping and encoding
   * the result gives back the same bytes but for the fields `PassedThrough` lists.
   */
  lemma UsbPassthrough(raw: Report, seqNo: Byte, start: Time, now: Time, observe: bool)
    requires raw[0] == INPUT_REPORT_ID
    ensures RuntimesOk(FreshRuntimes(EMPTY_MAPPING, start), EMPTY_MAPPING)
    ensures DecodeUsb(raw).Some?
    ensures var frame := DecodeUsb(raw).value;
            var o := Transform(frame, EMPTY_MAPPING, FreshRuntimes(EMPTY_MAPPING, start), now, observe);
            Encoded(frame.raw, o.output.state, seqNo) == PassedThrough(raw, seqNo)
  {
    assert raw[..REPORT_SIZE] == raw;
    EmptyMappingPasses(DecodeUsb(raw).value, start, now, observe);
    EncodeAfterParse(raw, seqNo);
  }

  // --------------------------------------------------------------- Bluetooth

  predicate CrcHolds(raw: Bytes)
    requires |raw| >= BT_REPORT_SIZE
  {
    PsCrc32(BT_INPUT_SEED, raw[..BT_CRC_OFFSET]) == Word(raw[BT_CRC_OFFSET..BT_REPORT_SIZE])
  }

  predicate BtAccepted(raw: Bytes) {
    |raw| >= BT_REPORT_SIZE && raw[0] == BT_INPUT_REPORT_ID && CrcHolds(raw)
  }

  /** The USB report inside a Bluetooth one: the payload behind a USB report id. */
  function UsbBacking(raw: Bytes): Report
    requires |raw| >= BT_REPORT_SIZE
  {
    [INPUT_REPORT_ID] + raw[2..65]
  }

  method DecodeBtInput(raw: Bytes) returns (r: Option<ControllerFrame>)
    ensures r == if BtAccepted(raw) then DecodeUsb(UsbBacking(raw)) else None
    ensures r.Some? <==> BtAccepted(raw)
  {
    hide Update, Word;
    if |raw| < BT_REPORT_SIZE || raw[0] != BT_INPUT_REPORT_ID {
      return None;
    }
    var source := raw[..BT_REPORT_SIZE];
    assert source[..BT_CRC_OFFSET] == raw[..BT_CRC_OFFSET];
    assert source[BT_CRC_OFFSET..] == raw[BT_CRC_OFFSET..BT_REPORT_SIZE];
    var expected := Word(source[BT_CRC_OFFSET..]);
    var seeded := Crc32LeUpdate(ONES, [BT_INPUT_SEED]);
    var crc := Crc32LeUpdate(seeded, source[..BT_CRC_OFFSET]);
    if Not(crc) != expected {
      return None;
    }
    assert source[2..65] == raw[2..65];
    var backing := UsbBacking(source);
    assert backing[..REPORT_SIZE] == backing;
    var state := ParseInput(backing);
    return Some(ControllerFrame(state.value, backing));
  }

  /** A valid Bluetooth wrapping of a payload decodes to the same frame as the payload over USB. */
  lemma WrappingDecodesAlike(usb: Report, bt: Bytes)
    requires usb[0] == INPUT_REPORT_ID && |bt| >= BT_REPORT_SIZE && bt[2..65] == usb[1..]
    ensures DecodeUsb(UsbBacking(bt)) == DecodeUsb(usb)
  {
    assert UsbBacking(bt) == usb;
  }

  /** Passthrough over Bluetooth: a valid wrapping of a report gives what the report gives over USB. */
  lemma BtPassthrough(usb: Report, bt: Bytes, seqNo: Byte, start: Time, now: Time, observe: bool)
    requires usb[0] == INPUT_REPORT_ID && BtAccepted(bt) && bt[2..65] == usb[1..]
    ensures RuntimesOk(FreshRuntimes(EMPTY_MAPPING, start), EMPTY_MAPPING)
    ensures DecodeUsb(UsbBacking(bt)).Some?
    ensures var frame := DecodeUsb(UsbBacking(bt)).value;
            var o := Transform(frame, EMPTY_MAPPING, FreshRuntimes(EMPTY_MAPPING, start), now, observe);
            Encoded(frame.raw, o.output.state, seqNo) == PassedThrough(usb, seqNo)
  {
    WrappingDecodesAlike(usb, bt);
    UsbPassthrough(usb, seqNo, start, now, observe);
  }

  /** `raw` and `raw'` agree on the checked bytes except inside the four bytes from `at` on. */
  predicate DifferWithin(raw: Bytes, raw': Bytes, at: nat)
    requires at + 4 <= BT_REPORT_SIZE <= |raw| && BT_REPORT_SIZE <= |raw'|
  {
    && raw[..at] == raw'[..at]
    && raw[at + 4..BT_REPORT_SIZE] == raw'[at + 4..BT_REPORT_SIZE]
    && raw[..BT_REPORT_SIZE] != raw'[..BT_REPORT_SIZE]
  }

  function State(raw: Bytes): bv32
    requires |raw| >= BT_REPORT_SIZE
  {
    Update(Update(ONES, [BT_INPUT_SEED]), raw[..BT_REPORT_SIZE])
  }

  /** A report is intact exactly when all 78 bytes leave the fixed residue. */
  lemma IntactByResidue(raw: Bytes)
    requires |raw| >= BT_REPORT_SIZE
    ensures CrcHolds(raw) <==> State(raw) == Shifts(ONES, 32)
  {
    hide Update, Word, Shifts;
    Residue(BT_INPUT_SEED, raw[..BT_CRC_OFFSET], raw[BT_CRC_OFFSET..BT_REPORT_SIZE]);
    assert raw[..BT_CRC_OFFSET] + raw[BT_CRC_OFFSET..BT_REPORT_SIZE] == raw[..BT_REPORT_SIZE];
  }

  /**
   * Error detection: any change to an accepted report that stays within four adjacent bytes, the
   * checksum bytes included, is rejected.
   */
  lemma BurstRejected(raw: Bytes, raw': Bytes, at: nat)
    requires at + 4 <= BT_REPORT_SIZE <= |raw| && BT_REPORT_SIZE <= |raw'|
    requires BtAccepted(raw) && DifferWithin(raw, raw', at)
    ensures !BtAccepted(raw')
  {
    hide Update, Word, Shifts;
    var before, w, w', after := raw[..at], raw[at..at + 4], raw'[at..at + 4], raw[at + 4..BT_REPORT_SIZE];
    assert raw[..BT_REPORT_SIZE] == before + w + after;
    assert raw'[..BT_REPORT_SIZE] == before + w' + after;
    BurstChangesState(Update(ONES, [BT_INPUT_SEED]), before, w, w', after);
    IntactByResidue(raw);
    IntactByResidue(raw');
  }

  /** In particular any single changed byte among the checked 78 is caught. */
  lemma SingleByteRejected(raw: Bytes, i: nat, b: Byte)
    requires BtAccepted(raw) && i < BT_REPORT_SIZE && raw[i] != b
    ensures !BtAccepted(raw[i := b])
  {
    hide CrcHolds;
    var at := if i <= BT_CRC_OFFSET then i else BT_CRC_OFFSET;
    var raw' := raw[i := b];
    assert raw[..BT_REPORT_SIZE][i] != raw'[..BT_REPORT_SIZE][i];
    BurstRejected(raw, raw', at);
  }
}
