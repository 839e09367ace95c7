/** The reflected CRC-32 that guards Bluetooth reports (src/codec/ds5_bt.rs; section 8 of RFC 1952). */
module Crc {
  import opened Model

  type Bytes = seq<Byte>

  const POLYNOMIAL: bv32 := 0xEDB88320

  const ONES: bv32 := 0xFFFF_FFFF

  function BitOf(b: Byte, weight: nat, mask: bv32): bv32
    requires weight > 0
  {
    if b as nat / weight % 2 == 1 then mask else 0
  }

  /** A byte as the low eight bits of a word. */
  function Bits(b: Byte): bv32 {
    BitOf(b, 1, 0x01) | BitOf(b, 2, 0x02) | BitOf(b, 4, 0x04) | BitOf(b, 8, 0x08)
    | BitOf(b, 16, 0x10) | BitOf(b, 32, 0x20) | BitOf(b, 64, 0x40) | BitOf(b, 128, 0x80)
  }

  // The machine operations under names of their own, so that proofs about the algorithm can hide them.

  function Xor(a: bv32, b: bv32): bv32 {
    a ^ b
  }

  function Not(c: bv32): bv32 {
    !c
  }

  function Half(c: bv32): bv32 {
    c >> 1
  }

  predicate Odd(c: bv32) {
    c & 1 != 0
  }

  /** One bit of polynomial division. */
  function Shift(c: bv32): bv32 {
    if Odd(c) then Xor(Half(c), POLYNOMIAL) else Half(c)
  }

  function Shifts(c: bv32, n: nat): bv32 {
    if n == 0 then c else Shift(Shifts(c, n - 1))
  }

  function Absorb(c: bv32, b: Byte): bv32 {
    Shifts(Xor(c, Bits(b)), 8)
  }

  function Update(c: bv32, bytes: Bytes): bv32 {
    if bytes == [] then c else Absorb(Update(c, bytes[..|bytes| - 1]), bytes[|bytes| - 1])
  }

  method Crc32LeUpdate(start: bv32, bytes: Bytes) returns (crc: bv32)
    ensures crc == Update(start, bytes)
  {
    crc := start;
    for i := 0 to |bytes|
      invariant crc == Update(start, bytes[..i])
    {
      assert bytes[..i + 1][..i] == bytes[..i];
      crc := crc ^ Bits(bytes[i]);
      ghost var mixed := crc;
      for k := 0 to 8
        invariant crc == Shifts(mixed, k)
      {
        if crc & 1 != 0 {
          crc := (crc >> 1) ^ POLYNOMIAL;
        } else {
          crc := crc >> 1;
        }
      }
    }
    assert bytes[..|bytes|] == bytes;
  }

  /** The checksum of a message behind a one-byte seed. */
  function PsCrc32(seed: Byte, data: Bytes): bv32 {
    Not(Update(Update(ONES, [seed]), data))
  }

  function Up(c: bv32): bv32 {
    c << 8
  }

  /** Four bytes read as a little-endian word. */
  function Word(w: Bytes): bv32
    requires |w| == 4
  {
    Xor(Xor(Xor(Bits(w[0]), Up(Bits(w[1]))), Up(Up(Bits(w[2])))), Up(Up(Up(Bits(w[3])))))
  }

  // ------------------------------------------- what the machine operations obey

  lemma XorCancels(a: bv32, b: bv32, x: bv32)
    requires Xor(a, x) == Xor(b, x)
    ensures a == b
  {
  }

  lemma XorCommutes(a: bv32, b: bv32)
    ensures Xor(a, b) == Xor(b, a)
  {
  }

  lemma XorAssociates(a: bv32, b: bv32, x: bv32)
    ensures Xor(a, Xor(b, x)) == Xor(Xor(a, b), x)
  {
  }

  lemma XorMoves(a: bv32, b: bv32, x: bv32)
    ensures Xor(Xor(a, x), b) == Xor(Xor(a, b), x)
    ensures Xor(a, Xor(b, x)) == Xor(Xor(a, b), x)
  {
    hide Xor;
    XorAssociates(a, b, x);
    XorAssociates(a, x, b);
    XorCommutes(b, x);
  }

  lemma XorTwice(a: bv32, x: bv32)
    ensures Xor(Xor(a, x), x) == a
  {
  }

  lemma XorPairs(a: bv32, b: bv32, x: bv32)
    ensures Xor(Xor(a, x), Xor(b, x)) == Xor(a, b)
  {
    hide Xor;
    XorMoves(Xor(a, x), b, x);
    XorMoves(a, b, x);
    XorTwice(Xor(a, b), x);
  }

  lemma HalfXor(a: bv32, b: bv32)
    ensures Half(Xor(a, b)) == Xor(Half(a), Half(b))
    ensures Odd(Xor(a, b)) <==> (Odd(a) != Odd(b))
  {
  }

  /** The polynomial's top bit remembers the bit that was shifted out. */
  lemma ShiftInjective(a: bv32, b: bv32)
    requires Shift(a) == Shift(b)
    ensures a == b
  {
  }

  // --------------------------------------------------- the step is a bijection

  lemma ShiftLinear(a: bv32, b: bv32)
    ensures Shift(Xor(a, b)) == Xor(Shift(a), Shift(b))
  {
    hide Xor, Half, Odd;
    HalfXor(a, b);
    XorPairs(Half(a), Half(b), POLYNOMIAL);
    XorMoves(Half(a), Half(b), POLYNOMIAL);
  }

  lemma {:induction false} ShiftsInjective(a: bv32, b: bv32, n: nat)
    requires Shifts(a, n) == Shifts(b, n)
    ensures a == b
  {
    hide Shift;
    if n > 0 {
      ShiftInjective(Shifts(a, n - 1), Shifts(b, n - 1));
      ShiftsInjective(a, b, n - 1);
    }
  }

  lemma {:induction false} ShiftsLinear(a: bv32, b: bv32, n: nat)
    ensures Shifts(Xor(a, b), n) == Xor(Shifts(a, n), Shifts(b, n))
  {
    hide Shift, Xor;
    if n > 0 {
      ShiftsLinear(a, b, n - 1);
      ShiftLinear(Shifts(a, n - 1), Shifts(b, n - 1));
    }
  }

  lemma {:induction false} ShiftsAdd(c: bv32, m: nat, n: nat)
    ensures Shifts(c, m + n) == Shifts(Shifts(c, m), n)
  {
    hide Shift;
    if n > 0 {
      ShiftsAdd(c, m, n - 1);
    }
  }

  /** Different states stay different, whatever follows. */
  lemma {:induction false} UpdateInjective(a: bv32, b: bv32, bytes: Bytes)
    requires Update(a, bytes) == Update(b, bytes)
    ensures a == b
  {
    hide Shifts, Xor, Bits;
    if bytes != [] {
      var n := |bytes| - 1;
      var x, y := Update(a, bytes[..n]), Update(b, bytes[..n]);
      ShiftsInjective(Xor(x, Bits(bytes[n])), Xor(y, Bits(bytes[n])), 8);
      XorCancels(x, y, Bits(bytes[n]));
      UpdateInjective(a, b, bytes[..n]);
    }
  }

  lemma {:induction false} UpdateAppend(c: bv32, s: Bytes, t: Bytes)
    ensures Update(c, s + t) == Update(Update(c, s), t)
  {
    hide Absorb;
    if t == [] {
      assert s + t == s;
    } else {
      assert (s + t)[..|s + t| - 1] == s + t[..|t| - 1];
      UpdateAppend(c, s, t[..|t| - 1]);
    }
  }

  // ------------------------------------------------------ four bytes at a time

  predicate Below8(c: bv32) {
    c & 0xFFFF_FF00 == 0
  }

  predicate Below24(c: bv32) {
    c & 0xFF00_0000 == 0
  }

  lemma BitsSmall(b: Byte)
    ensures Below8(Bits(b)) && Below24(Bits(b)) && Below24(Up(Bits(b))) && Below24(Up(Up(Bits(b))))
  {
  }

  lemma EvenShifts(c: bv32)
    ensures !Odd(c << 8) && !Odd(c << 7) && !Odd(c << 6) && !Odd(c << 5)
    ensures !Odd(c << 4) && !Odd(c << 3) && !Odd(c << 2) && !Odd(c << 1)
  {
  }

  lemma HalvesHigh(c: bv32)
    requires Below24(c)
    ensures Half(c << 8) == c << 7 && Half(c << 7) == c << 6
  {
  }

  lemma HalvesUpper(c: bv32)
    requires Below24(c)
    ensures Half(c << 6) == c << 5 && Half(c << 5) == c << 4
  {
  }

  lemma HalvesLower(c: bv32)
    requires Below24(c)
    ensures Half(c << 4) == c << 3 && Half(c << 3) == c << 2
  {
  }

  lemma HalvesLow(c: bv32)
    requires Below24(c)
    ensures Half(c << 2) == c << 1 && Half(c << 1) == c
  {
  }

  /** Eight bits of division undo a shift by a byte. */
  lemma ShiftsOfUp(c: bv32)
    requires Below24(c)
    ensures Shifts(Up(c), 8) == c
  {
    hide Odd, Half, Xor, Below24;
    EvenShifts(c);
    HalvesHigh(c);
    HalvesUpper(c);
    HalvesLower(c);
    HalvesLow(c);
    var s := Up(c);
    assert Shifts(s, 1) == Shift(Shifts(s, 0)) == c << 7;
    assert Shifts(s, 2) == Shift(Shifts(s, 1)) == c << 6;
    assert Shifts(s, 3) == Shift(Shifts(s, 2)) == c << 5;
    assert Shifts(s, 4) == Shift(Shifts(s, 3)) == c << 4;
    assert Shifts(s, 5) == Shift(Shifts(s, 4)) == c << 3;
    assert Shifts(s, 6) == Shift(Shifts(s, 5)) == c << 2;
    assert Shifts(s, 7) == Shift(Shifts(s, 6)) == c << 1;
    assert Shifts(s, 8) == Shift(Shifts(s, 7)) == c;
  }

  /** Absorbing a byte later is absorbing it further up now. */
  lemma AbsorbLater(x: bv32, n: nat, b: Byte, lifted: bv32)
    requires Shifts(lifted, n) == Bits(b)
    ensures Absorb(Shifts(x, n), b) == Shifts(Xor(x, lifted), n + 8)
  {
    hide Xor, Shift, Bits;
    ShiftsLinear(x, lifted, n);
    ShiftsAdd(Xor(x, lifted), n, 8);
  }

  lemma Lifted(b: Byte)
    ensures Shifts(Up(Bits(b)), 8) == Bits(b)
    ensures Shifts(Up(Up(Bits(b))), 16) == Bits(b)
    ensures Shifts(Up(Up(Up(Bits(b)))), 24) == Bits(b)
  {
    BitsSmall(b);
    hide Up, Bits, Shift;
    var x := Bits(b);
    ShiftsOfUp(x);
    ShiftsOfUp(Up(x));
    ShiftsOfUp(Up(Up(x)));
    ShiftsAdd(Up(Up(x)), 8, 8);
    ShiftsAdd(Up(Up(Up(x))), 8, 16);
  }

  lemma UpdateOne(c: bv32, bytes: Bytes, b: Byte)
    ensures Update(c, bytes + [b]) == Absorb(Update(c, bytes), b)
  {
    hide Absorb;
    assert (bytes + [b])[..|bytes|] == bytes;
  }

  /** Four bytes are absorbed as one word. */
  lemma UpdateWord(c: bv32, w: Bytes)
    requires |w| == 4
    ensures Update(c, w) == Shifts(Xor(c, Word(w)), 32)
  {
    hide Up, Xor, Bits, Shift, Absorb;
    var b0, b1, b2, b3 := Bits(w[0]), Up(Bits(w[1])), Up(Up(Bits(w[2]))), Up(Up(Up(Bits(w[3]))));
    Lifted(w[1]);
    Lifted(w[2]);
    Lifted(w[3]);
    UpdateOne(c, [], w[0]);
    UpdateOne(c, [w[0]], w[1]);
    UpdateOne(c, [w[0], w[1]], w[2]);
    UpdateOne(c, [w[0], w[1], w[2]], w[3]);
    assert [] + [w[0]] == [w[0]] && [w[0]] + [w[1]] == [w[0], w[1]];
    assert [w[0], w[1]] + [w[2]] == [w[0], w[1], w[2]] && [w[0], w[1], w[2]] + [w[3]] == w;
    AbsorbLater(c, 0, w[0], b0);
    AbsorbLater(Xor(c, b0), 8, w[1], b1);
    AbsorbLater(Xor(Xor(c, b0), b1), 16, w[2], b2);
    AbsorbLater(Xor(Xor(Xor(c, b0), b1), b2), 24, w[3], b3);
    XorMoves(c, b0, b1);
    XorMoves(c, Xor(b0, b1), b2);
    XorMoves(c, Xor(Xor(b0, b1), b2), b3);
  }

  // ------------------------------------------------- words determine their bytes

  /** The bits of a byte are the tests of its word. */
  lemma BitsTests(b: Byte)
    ensures (Bits(b) & 0x01 != 0) == (b as nat % 2 == 1)
    ensures (Bits(b) & 0x02 != 0) == (b as nat / 2 % 2 == 1)
    ensures (Bits(b) & 0x04 != 0) == (b as nat / 4 % 2 == 1)
    ensures (Bits(b) & 0x08 != 0) == (b as nat / 8 % 2 == 1)
    ensures (Bits(b) & 0x10 != 0) == (b as nat / 16 % 2 == 1)
    ensures (Bits(b) & 0x20 != 0) == (b as nat / 32 % 2 == 1)
    ensures (Bits(b) & 0x40 != 0) == (b as nat / 64 % 2 == 1)
    ensures (Bits(b) & 0x80 != 0) == (b as nat / 128 % 2 == 1)
  {
  }

  lemma BitsInjective(a: Byte, b: Byte)
    requires Bits(a) == Bits(b)
    ensures a == b
  {
    BitsTests(a);
    BitsTests(b);
    SameTop(a as nat, b as nat);
    SameBottom(a as nat, b as nat);
  }

  lemma HalfEqual(a: nat, b: nat)
    requires a / 2 == b / 2 && (a % 2 == 1) == (b % 2 == 1)
    ensures a == b
  {
  }

  lemma SameTop(a: nat, b: nat)
    requires a < 256 && b < 256
    requires (a / 16 % 2 == 1) == (b / 16 % 2 == 1) && (a / 32 % 2 == 1) == (b / 32 % 2 == 1)
    requires (a / 64 % 2 == 1) == (b / 64 % 2 == 1) && (a / 128 % 2 == 1) == (b / 128 % 2 == 1)
    ensures a / 16 == b / 16
  {
    assert a / 16 / 2 == a / 32 && a / 32 / 2 == a / 64 && a / 64 / 2 == a / 128;
    assert b / 16 / 2 == b / 32 && b / 32 / 2 == b / 64 && b / 64 / 2 == b / 128;
    HalfEqual(a / 128, b / 128);
    HalfEqual(a / 64, b / 64);
    HalfEqual(a / 32, b / 32);
    HalfEqual(a / 16, b / 16);
  }

  lemma SameBottom(a: nat, b: nat)
    requires a / 16 == b / 16
    requires (a % 2 == 1) == (b % 2 == 1) && (a / 2 % 2 == 1) == (b / 2 % 2 == 1)
    requires (a / 4 % 2 == 1) == (b / 4 % 2 == 1) && (a / 8 % 2 == 1) == (b / 8 % 2 == 1)
    ensures a == b
  {
    assert a / 2 / 2 == a / 4 && a / 4 / 2 == a / 8 && a / 8 / 2 == a / 16;
    assert b / 2 / 2 == b / 4 && b / 4 / 2 == b / 8 && b / 8 / 2 == b / 16;
    HalfEqual(a / 8, b / 8);
    HalfEqual(a / 4, b / 4);
    HalfEqual(a / 2, b / 2);
    HalfEqual(a, b);
  }

  predicate AllBelow8(x0: bv32, x1: bv32, x2: bv32, x3: bv32) {
    Below8(x0) && Below8(x1) && Below8(x2) && Below8(x3)
  }

  function Packed(x0: bv32, x1: bv32, x2: bv32, x3: bv32): bv32 {
    Xor(Xor(Xor(x0, Up(x1)), Up(Up(x2))), Up(Up(Up(x3))))
  }

  lemma PackedLow(x0: bv32, x1: bv32, x2: bv32, x3: bv32)
    requires AllBelow8(x0, x1, x2, x3)
    ensures Packed(x0, x1, x2, x3) & 0xFF == x0
    ensures (Packed(x0, x1, x2, x3) >> 8) & 0xFF == x1
  {
  }

  lemma PackedHigh(x0: bv32, x1: bv32, x2: bv32, x3: bv32)
    requires AllBelow8(x0, x1, x2, x3)
    ensures (Packed(x0, x1, x2, x3) >> 16) & 0xFF == x2
    ensures (Packed(x0, x1, x2, x3) >> 24) & 0xFF == x3
  {
  }

  lemma WordInjective(w: Bytes, w': Bytes)
    requires |w| == 4 && |w'| == 4 && Word(w) == Word(w')
    ensures w == w'
  {
    hide Bits, Xor, Up;
    forall i | 0 <= i < 4 ensures Below8(Bits(w[i])) && Below8(Bits(w'[i])) {
      BitsSmall(w[i]);
      BitsSmall(w'[i]);
    }
    PackedLow(Bits(w[0]), Bits(w[1]), Bits(w[2]), Bits(w[3]));
    PackedHigh(Bits(w[0]), Bits(w[1]), Bits(w[2]), Bits(w[3]));
    PackedLow(Bits(w'[0]), Bits(w'[1]), Bits(w'[2]), Bits(w'[3]));
    PackedHigh(Bits(w'[0]), Bits(w'[1]), Bits(w'[2]), Bits(w'[3]));
    BitsInjective(w[0], w'[0]);
    BitsInjective(w[1], w'[1]);
    BitsInjective(w[2], w'[2]);
    BitsInjective(w[3], w'[3]);
  }

  // --------------------------------------------------------- error detection

  /** Any change confined to four adjacent bytes changes the checksum state. */
  lemma BurstChangesState(c: bv32, before: Bytes, w: Bytes, w': Bytes, after: Bytes)
    requires |w| == 4 && |w'| == 4 && w != w'
    ensures Update(c, before + w + after) != Update(c, before + w' + after)
  {
    hide Update, Xor, Word, Shifts;
    var s := Update(c, before);
    UpdateAppend(c, before, w);
    UpdateAppend(c, before, w');
    UpdateAppend(c, before + w, after);
    UpdateAppend(c, before + w', after);
    if Update(c, before + w + after) == Update(c, before + w' + after) {
      UpdateInjective(Update(s, w), Update(s, w'), after);
      UpdateWord(s, w);
      UpdateWord(s, w');
      ShiftsInjective(Xor(s, Word(w)), Xor(s, Word(w')), 32);
      XorCommutes(s, Word(w));
      XorCommutes(s, Word(w'));
      XorCancels(Word(w), Word(w'), s);
      WordInjective(w, w');
    }
  }

  lemma ComplementXor(c: bv32)
    ensures Xor(c, Not(c)) == ONES
  {
  }

  /** A message carries its own checksum exactly when message and checksum together leave a fixed residue. */
  lemma Residue(seed: Byte, data: Bytes, tail: Bytes)
    requires |tail| == 4
    ensures PsCrc32(seed, data) == Word(tail) <==>
            Update(Update(ONES, [seed]), data + tail) == Shifts(ONES, 32)
  {
    hide Update, Xor, Word, Shifts, Not;
    var start := Update(ONES, [seed]);
    var c := Update(start, data);
    UpdateAppend(start, data, tail);
    UpdateWord(c, tail);
    ComplementXor(c);
    if Shifts(Xor(c, Word(tail)), 32) == Shifts(ONES, 32) {
      ShiftsInjective(Xor(c, Word(tail)), ONES, 32);
      XorCommutes(c, Word(tail));
      XorCommutes(c, Not(c));
      XorCancels(Word(tail), Not(c), c);
    }
  }
}
