/** The checksum by its published values, and what an accepted Bluetooth report is made of (src/codec/ds5_bt.rs). */
module CrcValues {
  import opened Model
  import opened Crc
  import Codec

  /** Eight steps of the division, written out. */
  lemma EightShifts(c: bv32)
    ensures Shifts(c, 8) == Shift(Shift(Shift(Shift(Shift(Shift(Shift(Shift(c))))))))
  {
    hide Shift;
    assert Shifts(c, 1) == Shift(c);
    assert Shifts(c, 3) == Shift(Shift(Shifts(c, 1)));
    assert Shifts(c, 5) == Shift(Shift(Shifts(c, 3)));
    assert Shifts(c, 7) == Shift(Shift(Shifts(c, 5)));
  }

  /** The fixed residue is the published one. */
  lemma ResidueValue()
    ensures Shifts(ONES, 32) == 0xDEBB_20E3
  {
    ShiftsAdd(ONES, 8, 8);
    ShiftsAdd(ONES, 16, 8);
    ShiftsAdd(ONES, 24, 8);
    EightShifts(0xFFFF_FFFF);
    EightShifts(0x2DFD_1072);
    EightShifts(0xBE26_ED00);
    EightShifts(0x00BE_26ED);
    hide Shifts;
  }

  /** A report is intact exactly when its 78 bytes behind the seed leave the published residue. */
  lemma IntactMeans(raw: Bytes)
    requires |raw| >= 78
    ensures Codec.CrcHolds(raw) <==> Update(Update(0xFFFF_FFFF, [0xA1]), raw[..78]) == 0xDEBB_20E3
  {
    hide Update, Shifts;
    ResidueValue();
    Codec.IntactByResidue(raw);
  }

  /** One byte of a message, by the value it leaves. */
  lemma Feed(c: bv32, b: Byte, r: bv32)
    requires Shift(Shift(Shift(Shift(Shift(Shift(Shift(Shift(Xor(c, Bits(b)))))))))) == r
    ensures Absorb(c, b) == r
  {
    hide Shift, Bits, Shifts, Xor;
    EightShifts(Xor(c, Bits(b)));
  }

  lemma LowDigits()
    ensures Bits(0x31) == 0x31 && Bits(0x32) == 0x32 && Bits(0x33) == 0x33
  {
  }

  lemma MiddleDigits()
    ensures Bits(0x34) == 0x34 && Bits(0x35) == 0x35 && Bits(0x36) == 0x36
  {
  }

  lemma HighDigits()
    ensures Bits(0x37) == 0x37 && Bits(0x38) == 0x38 && Bits(0x39) == 0x39
  {
  }

  lemma DigitsOneToThree()
    ensures Absorb(0xFFFF_FFFF, 0x31) == 0x7C23_1048
    ensures Absorb(0x7C23_1048, 0x32) == 0xB0AC_BB32
    ensures Absorb(0xB0AC_BB32, 0x33) == 0x77B7_9C2D
  {
    LowDigits();
    hide Bits, Absorb;
    Feed(0xFFFF_FFFF, 0x31, 0x7C23_1048);
    Feed(0x7C23_1048, 0x32, 0xB0AC_BB32);
    Feed(0xB0AC_BB32, 0x33, 0x77B7_9C2D);
  }

  lemma DigitsFourToSix()
    ensures Absorb(0x77B7_9C2D, 0x34) == 0x641C_1F5C
    ensures Absorb(0x641C_1F5C, 0x35) == 0x340A_C5E3
    ensures Absorb(0x340A_C5E3, 0x36) == 0xF68D_2C9E
  {
    MiddleDigits();
    hide Bits, Absorb;
    Feed(0x77B7_9C2D, 0x34, 0x641C_1F5C);
    Feed(0x641C_1F5C, 0x35, 0x340A_C5E3);
    Feed(0x340A_C5E3, 0x36, 0xF68D_2C9E);
  }

  lemma DigitsSevenToNine()
    ensures Absorb(0xF68D_2C9E, 0x37) == 0xAFFC_9660
    ensures Absorb(0xAFFC_9660, 0x38) == 0x651F_2550
    ensures Absorb(0x651F_2550, 0x39) == 0x340B_C6D9
  {
    HighDigits();
    hide Bits, Absorb;
    Feed(0xF68D_2C9E, 0x37, 0xAFFC_9660);
    Feed(0xAFFC_9660, 0x38, 0x651F_2550);
    Feed(0x651F_2550, 0x39, 0x340B_C6D9);
  }

  /** The check value of CRC-32: the checksum of the nine digits is 0xCBF43926. */
  lemma CheckValue()
    ensures PsCrc32(0x31, [0x32, 0x33, 0x34, 0x35, 0x36, 0x37, 0x38, 0x39]) == 0xCBF4_3926
  {
    hide Absorb, Bits, Shifts, Shift;
    DigitsOneToThree();
    DigitsFourToSix();
    DigitsSevenToNine();
    var c := Update(ONES, [0x31]);
    assert [] + [0x31 as Byte] == [0x31];
    UpdateOne(ONES, [], 0x31);
    UpdateOne(c, [], 0x32);
    assert [] + [0x32 as Byte] == [0x32];
    UpdateOne(c, [0x32], 0x33);
    assert [0x32] + [0x33] == [0x32, 0x33];
    UpdateOne(c, [0x32, 0x33], 0x34);
    assert [0x32, 0x33] + [0x34] == [0x32, 0x33, 0x34];
    UpdateOne(c, [0x32, 0x33, 0x34], 0x35);
    assert [0x32, 0x33, 0x34] + [0x35] == [0x32, 0x33, 0x34, 0x35];
    UpdateOne(c, [0x32, 0x33, 0x34, 0x35], 0x36);
    assert [0x32, 0x33, 0x34, 0x35] + [0x36] == [0x32, 0x33, 0x34, 0x35, 0x36];
    UpdateOne(c, [0x32, 0x33, 0x34, 0x35, 0x36], 0x37);
    assert [0x32, 0x33, 0x34, 0x35, 0x36] + [0x37] == [0x32, 0x33, 0x34, 0x35, 0x36, 0x37];
    UpdateOne(c, [0x32, 0x33, 0x34, 0x35, 0x36, 0x37], 0x38);
    assert [0x32, 0x33, 0x34, 0x35, 0x36, 0x37] + [0x38] == [0x32, 0x33, 0x34, 0x35, 0x36, 0x37, 0x38];
    UpdateOne(c, [0x32, 0x33, 0x34, 0x35, 0x36, 0x37, 0x38], 0x39);
    assert [0x32, 0x33, 0x34, 0x35, 0x36, 0x37, 0x38] + [0x39] == [0x32, 0x33, 0x34, 0x35, 0x36, 0x37, 0x38, 0x39];
    hide Update;
  }

  // ------------------------------------------------------- Bluetooth reports

  /** Which Bluetooth reports are accepted: 78 bytes, report id 0x31, and a checksum seeded with 0xA1 over the first 74. */
  lemma AcceptedMeans(raw: Bytes)
    ensures Codec.BtAccepted(raw) <==>
            |raw| >= 78 && raw[0] == 0x31 && Update(Update(0xFFFF_FFFF, [0xA1]), raw[..78]) == 0xDEBB_20E3
  {
    hide Update, Codec.CrcHolds;
    if |raw| >= 78 {
      IntactMeans(raw);
    }
  }

  /** The report inside: the payload from byte 2 on, each byte one place earlier, behind report id 0x01. */
  lemma InsideIs(raw: Bytes)
    requires |raw| >= 78
    ensures var inside := Codec.UsbBacking(raw);
            |inside| == 64 && inside[0] == 0x01 && forall i :: 1 <= i < 64 ==> inside[i] == raw[i + 1]
  {
  }
}
