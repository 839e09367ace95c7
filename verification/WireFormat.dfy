/** The DualSense USB input report, bit by bit, on the way in and on the way out (src/codec/ds5_usb.rs, src/codec/types.rs). */
module WireFormat {
  import opened Model
  import opened Repeat
  import opened Codec

  /** Bit `weight` of a report byte is set. */
  predicate BitSet(b: Byte, weight: nat)
    requires weight > 0
  {
    b as nat / weight % 2 == 1
  }

  lemma BitOf(raw: Report, b: Button, byte: Byte, weight: nat)
    requires weight > 0 && (Reported(raw, b) <==> Flag(byte, weight))
    ensures ParsedState(raw).Pressed(b) <==> BitSet(byte, weight)
  {
    hide Reported;
    assert ParsedState(raw).Pressed(b) <==> Reported(raw, b);
  }

  /** What each bit of the face byte means; the numbers are the wire format. */
  lemma FaceBits(raw: Report)
    ensures var s := ParsedState(raw);
            && (s.Pressed(Square) <==> BitSet(raw[8], 0x10)) && (s.Pressed(Cross) <==> BitSet(raw[8], 0x20))
            && (s.Pressed(Circle) <==> BitSet(raw[8], 0x40)) && (s.Pressed(Triangle) <==> BitSet(raw[8], 0x80))
  {
    hide Flag, BitSet, ParsedState, HatDirections;
    BitOf(raw, Square, raw[8], 0x10);
    BitOf(raw, Cross, raw[8], 0x20);
    BitOf(raw, Circle, raw[8], 0x40);
    BitOf(raw, Triangle, raw[8], 0x80);
  }

  /** The second button byte. */
  lemma ShoulderBits(raw: Report)
    ensures var s := ParsedState(raw);
            && (s.Pressed(L1) <==> BitSet(raw[9], 0x01)) && (s.Pressed(R1) <==> BitSet(raw[9], 0x02))
            && (s.Pressed(L2) <==> BitSet(raw[9], 0x04)) && (s.Pressed(R2) <==> BitSet(raw[9], 0x08))
            && (s.Pressed(Create) <==> BitSet(raw[9], 0x10)) && (s.Pressed(Options) <==> BitSet(raw[9], 0x20))
            && (s.Pressed(L3) <==> BitSet(raw[9], 0x40)) && (s.Pressed(R3) <==> BitSet(raw[9], 0x80))
  {
    hide Flag, BitSet, ParsedState, HatDirections;
    BitOf(raw, L1, raw[9], 0x01);
    BitOf(raw, R1, raw[9], 0x02);
    BitOf(raw, L2, raw[9], 0x04);
    BitOf(raw, R2, raw[9], 0x08);
    BitOf(raw, Create, raw[9], 0x10);
    BitOf(raw, Options, raw[9], 0x20);
    BitOf(raw, L3, raw[9], 0x40);
    BitOf(raw, R3, raw[9], 0x80);
  }

  /** The third button byte; its bit 3 is reserved. */
  lemma SystemBits(raw: Report)
    ensures var s := ParsedState(raw);
            && (s.Pressed(PS) <==> BitSet(raw[10], 0x01)) && (s.Pressed(Touchpad) <==> BitSet(raw[10], 0x02))
            && (s.Pressed(Mic) <==> BitSet(raw[10], 0x04))
  {
    hide Flag, BitSet, ParsedState, HatDirections;
    BitOf(raw, PS, raw[10], 0x01);
    BitOf(raw, Touchpad, raw[10], 0x02);
    BitOf(raw, Mic, raw[10], 0x04);
  }

  lemma EdgeBits(raw: Report)
    ensures var s := ParsedState(raw);
            && (s.Pressed(FnLeft) <==> BitSet(raw[10], 0x10)) && (s.Pressed(FnRight) <==> BitSet(raw[10], 0x20))
            && (s.Pressed(LeftPaddle) <==> BitSet(raw[10], 0x40)) && (s.Pressed(RightPaddle) <==> BitSet(raw[10], 0x80))
  {
    hide Flag, BitSet, ParsedState, HatDirections;
    BitOf(raw, FnLeft, raw[10], 0x10);
    BitOf(raw, FnRight, raw[10], 0x20);
    BitOf(raw, LeftPaddle, raw[10], 0x40);
    BitOf(raw, RightPaddle, raw[10], 0x80);
  }

  lemma HatReported(raw: Report, b: Button)
    requires Reported(raw, b) <==> b in HatDirections(raw[8] as nat % 16)
    ensures ParsedState(raw).Pressed(b) <==> b in HatDirections(raw[8] as nat % 16)
  {
    hide Reported;
    assert ParsedState(raw).Pressed(b) <==> Reported(raw, b);
  }

  lemma HatMeans(hat: nat)
    ensures var dirs := HatDirections(hat);
            && (DpadUp in dirs <==> hat == 7 || hat == 0 || hat == 1) && (DpadRight in dirs <==> 1 <= hat <= 3)
            && (DpadDown in dirs <==> 3 <= hat <= 5) && (DpadLeft in dirs <==> 5 <= hat <= 7)
            && TouchpadLeft !in dirs && TouchpadRight !in dirs && L2Analog !in dirs && R2Analog !in dirs
  {
  }

  /** The hat runs clockwise from up; half steps hold two directions. The rest is never reported. */
  lemma HatBits(raw: Report)
    ensures var s, hat := ParsedState(raw), raw[8] as nat % 16;
            && (s.Pressed(DpadUp) <==> hat == 7 || hat == 0 || hat == 1) && (s.Pressed(DpadRight) <==> 1 <= hat <= 3)
            && (s.Pressed(DpadDown) <==> 3 <= hat <= 5) && (s.Pressed(DpadLeft) <==> 5 <= hat <= 7)
            && !s.Pressed(TouchpadLeft) && !s.Pressed(TouchpadRight) && !s.Pressed(L2Analog) && !s.Pressed(R2Analog)
  {
    hide Flag, ParsedState, HatDirections;
    HatMeans(raw[8] as nat % 16);
    HatReported(raw, DpadUp);
    HatReported(raw, DpadRight);
    HatReported(raw, DpadDown);
    HatReported(raw, DpadLeft);
    HatReported(raw, TouchpadLeft);
    HatReported(raw, TouchpadRight);
    HatReported(raw, L2Analog);
    HatReported(raw, R2Analog);
  }

  /** The other fields of a report. */
  lemma FieldBytes(raw: Report)
    ensures var s := ParsedState(raw);
            && s.leftX == raw[1] && s.leftY == raw[2] && s.rightX == raw[3] && s.rightY == raw[4]
            && s.l2Analog == raw[5] && s.r2Analog == raw[6] && s.seqNumber == raw[7]
            && s.batteryPct as nat == (if raw[53] as nat % 16 <= 10 then raw[53] as nat % 16 * 10 else 100)
            && (s.batteryCharging <==> raw[53] as nat / 16 in {1, 2})
            && (s.headphoneConnected <==> raw[54] as nat % 2 == 1)
  {
  }

  /** A touchpad click belongs to the half that the first finger on it touches; the halves meet at x = 960. */
  lemma SplitByFirstFinger(raw: Report)
    ensures var x1 := raw[35] as nat % 16 * 256 + raw[34] as nat;
            var x2 := raw[39] as nat % 16 * 256 + raw[38] as nat;
            TouchpadSplitButton(raw) ==
            if !BitSet(raw[10], 0x02) then None
            else if raw[33] < 0x80 then Some(if x1 < 960 then TouchpadLeft else TouchpadRight)
            else if raw[37] < 0x80 then Some(if x2 < 960 then TouchpadLeft else TouchpadRight)
            else None
  {
  }

  // ------------------------------------------------------ encode, then parse

  lemma Peel(p: nat, u: nat)
    requires p <= 1
    ensures (p + 2 * u) % 2 == p && (p + 2 * u) / 2 == u
  {
  }

  lemma HalvesOf(v: nat)
    ensures v / 2 / 2 == v / 4 && v / 4 / 2 == v / 8 && v / 8 / 2 == v / 16
    ensures v / 16 / 2 == v / 32 && v / 32 / 2 == v / 64 && v / 64 / 2 == v / 128
  {
  }

  /** A sum of distinct weights has exactly those bits. */
  lemma EightBits(p0: nat, p1: nat, p2: nat, p3: nat, p4: nat, p5: nat, p6: nat, p7: nat)
    requires p0 <= 1 && p1 <= 1 && p2 <= 1 && p3 <= 1 && p4 <= 1 && p5 <= 1 && p6 <= 1 && p7 <= 1
    ensures var v := p0 + 2 * p1 + 4 * p2 + 8 * p3 + 16 * p4 + 32 * p5 + 64 * p6 + 128 * p7;
            && v / 1 % 2 == p0 && v / 2 % 2 == p1 && v / 4 % 2 == p2 && v / 8 % 2 == p3
            && v / 16 % 2 == p4 && v / 32 % 2 == p5 && v / 64 % 2 == p6 && v / 128 % 2 == p7
  {
    var u7 := p7;
    var u6 := p6 + 2 * u7;
    var u5 := p5 + 2 * u6;
    var u4 := p4 + 2 * u5;
    var u3 := p3 + 2 * u4;
    var u2 := p2 + 2 * u3;
    var u1 := p1 + 2 * u2;
    HalvesOf(p0 + 2 * u1);
    Peel(p0, u1);
    Peel(p1, u2);
    Peel(p2, u3);
    Peel(p3, u4);
    Peel(p4, u5);
    Peel(p5, u6);
    Peel(p6, u7);
    Peel(p7, 0);
  }

  function One(state: GamepadState, b: Button): (p: nat)
    ensures p <= 1
  {
    if state.Pressed(b) then 1 else 0
  }

  lemma ShoulderEncoded(state: GamepadState)
    ensures var v := ShoulderByte(state);
            && v / 1 % 2 == One(state, L1) && v / 2 % 2 == One(state, R1) && v / 4 % 2 == One(state, L2)
            && v / 8 % 2 == One(state, R2) && v / 16 % 2 == One(state, Create) && v / 32 % 2 == One(state, Options)
            && v / 64 % 2 == One(state, L3) && v / 128 % 2 == One(state, R3)
  {
    EightBits(One(state, L1), One(state, R1), One(state, L2), One(state, R2),
              One(state, Create), One(state, Options), One(state, L3), One(state, R3));
  }

  lemma SystemEncoded(state: GamepadState)
    ensures var v := SystemByte(state);
            && v / 1 % 2 == One(state, PS) && v / 2 % 2 == One(state, Touchpad) && v / 4 % 2 == One(state, Mic)
            && v / 8 % 2 == 0 && v / 16 % 2 == One(state, FnLeft) && v / 32 % 2 == One(state, FnRight)
            && v / 64 % 2 == One(state, LeftPaddle) && v / 128 % 2 == One(state, RightPaddle)
  {
    EightBits(One(state, PS), One(state, Touchpad), One(state, Mic), 0,
              One(state, FnLeft), One(state, FnRight), One(state, LeftPaddle), One(state, RightPaddle));
  }

  lemma FaceEncoded(state: GamepadState)
    ensures var v := FaceByte(state);
            && v % 16 == DpadValue(state) as nat
            && v / 16 % 2 == One(state, Square) && v / 32 % 2 == One(state, Cross)
            && v / 64 % 2 == One(state, Circle) && v / 128 % 2 == One(state, Triangle)
  {
    var d, s, c, o, t := DpadValue(state) as nat, One(state, Square), One(state, Cross), One(state, Circle), One(state, Triangle);
    hide DpadValue;
    assert FaceByte(state) == d + 16 * (s + 2 * (c + 2 * (o + 2 * t)));
    FaceParts(d, s, c, o, t);
  }

  lemma FaceParts(d: nat, s: nat, c: nat, o: nat, t: nat)
    requires d < 16 && s <= 1 && c <= 1 && o <= 1 && t <= 1
    ensures var v := d + 16 * (s + 2 * (c + 2 * (o + 2 * t)));
            v % 16 == d && v / 16 % 2 == s && v / 32 % 2 == c && v / 64 % 2 == o && v / 128 % 2 == t
  {
    var v := d + 16 * (s + 2 * (c + 2 * (o + 2 * t)));
    assert v / 16 == s + 2 * (c + 2 * (o + 2 * t));
    HalvesOf(v);
    Peel(s, c + 2 * (o + 2 * t));
    Peel(c, o + 2 * t);
    Peel(o, t);
    Peel(t, 0);
  }

  /** The pressed directions are one of the eight a hat can show; a hat shows no other combination. */
  predicate HatCanShow(state: GamepadState) {
    && !(state.Pressed(DpadUp) && state.Pressed(DpadDown))
    && !(state.Pressed(DpadLeft) && state.Pressed(DpadRight))
  }

  predicate IsDpad(b: Button) {
    b in {DpadUp, DpadDown, DpadLeft, DpadRight}
  }

  /** The buttons that a report has a flag for. */
  predicate HasFlag(b: Button) {
    !IsDpad(b) && b !in {TouchpadLeft, TouchpadRight, L2Analog, R2Analog}
  }

  /** The dpad survives a report exactly when a hat can show it, and else reads as released. */
  lemma DpadSurvives(state: GamepadState, b: Button)
    requires IsDpad(b)
    ensures b in HatDirections(DpadValue(state) as nat) <==> HatCanShow(state) && state.Pressed(b)
  {
  }

  lemma EncodedBytes(raw: Report, state: GamepadState, seqNo: Byte)
    ensures var r := Encoded(raw, state, seqNo);
            && r[0] == 0x01
            && r[1] == state.leftX && r[2] == state.leftY && r[3] == state.rightX && r[4] == state.rightY
            && r[5] == state.l2Analog && r[6] == state.r2Analog && r[7] == seqNo
            && r[8] as nat == FaceByte(state) && r[9] as nat == ShoulderByte(state) && r[10] as nat == SystemByte(state)
            && r[11] as nat == raw[11] as nat % 16
            && r[12..] == raw[12..]
  {
    ByteBounds(state);
    hide FaceByte, ShoulderByte, SystemByte;
  }

  /** A flag that was encoded is parsed back. */
  lemma FlagBack(raw: Report, state: GamepadState, seqNo: Byte, b: Button)
    requires HasFlag(b)
    ensures ParsedState(Encoded(raw, state, seqNo)).Pressed(b) <==> state.Pressed(b)
  {
    hide ParsedState, Encoded, FaceByte, ShoulderByte, SystemByte, DpadValue;
    var report := Encoded(raw, state, seqNo);
    EncodedBytes(raw, state, seqNo);
    if b in {Square, Cross, Circle, Triangle} {
      FaceEncoded(state);
      FaceBits(report);
    } else if b in {L1, R1, L2, R2, Create, Options, L3, R3} {
      ShoulderEncoded(state);
      ShoulderBits(report);
    } else {
      SystemEncoded(state);
      SystemBits(report);
      EdgeBits(report);
    }
  }

  lemma DpadBack(raw: Report, state: GamepadState, seqNo: Byte, b: Button)
    requires IsDpad(b)
    ensures ParsedState(Encoded(raw, state, seqNo)).Pressed(b) <==> HatCanShow(state) && state.Pressed(b)
  {
    hide Encoded, FaceByte, DpadValue, ParsedState, HatDirections;
    var report := Encoded(raw, state, seqNo);
    EncodedBytes(raw, state, seqNo);
    FaceEncoded(state);
    HatReported(report, b);
    DpadSurvives(state, b);
  }

  /** Parsing an encoded report gives back the state that was encoded. */
  lemma EncodeThenParse(raw: Report, state: GamepadState, seqNo: Byte)
    ensures var back := ParsedState(Encoded(raw, state, seqNo));
            && (forall b :: HasFlag(b) ==> (back.Pressed(b) <==> state.Pressed(b)))
            && (forall b :: IsDpad(b) ==> (back.Pressed(b) <==> HatCanShow(state) && state.Pressed(b)))
            && back.leftX == state.leftX && back.leftY == state.leftY
            && back.rightX == state.rightX && back.rightY == state.rightY
            && back.l2Analog == state.l2Analog && back.r2Analog == state.r2Analog && back.seqNumber == seqNo
  {
    hide Encoded, HasFlag, IsDpad, HatCanShow;
    forall b | HasFlag(b) ensures ParsedState(Encoded(raw, state, seqNo)).Pressed(b) <==> state.Pressed(b) {
      FlagBack(raw, state, seqNo, b);
    }
    forall b | IsDpad(b)
      ensures ParsedState(Encoded(raw, state, seqNo)).Pressed(b) <==> HatCanShow(state) && state.Pressed(b)
    {
      DpadBack(raw, state, seqNo, b);
    }
    EncodedBytes(raw, state, seqNo);
    FieldBytes(Encoded(raw, state, seqNo));
    hide ParsedState;
  }
}
