/**
 * The 16-bit shift register behind the frame check sequence of RFC 1662, appendix C, one bit at a
 * time, and the algebra the checksum rests on: the register is linear and loses nothing.
 */
module CrcRegister {
  import opened Octets

  function Xor(x: bv16, y: bv16): bv16 {
    x ^ y
  }

  /** One shift of the register; 0x8408 is the polynomial, lowest power first. */
  function BitStep(x: bv16): bv16 {
    if x & 1 == 1 then (x >> 1) ^ 0x8408 else x >> 1
  }

  function Bits8(x: bv16): bv16 {
    BitStep(BitStep(BitStep(BitStep(BitStep(BitStep(BitStep(BitStep(x))))))))
  }

  /** One transmitted bit, the lowest of the given word, enters the register. */
  function Serial(fcs: bv16, bit: bv16): bv16 {
    BitStep(Xor(fcs, bit & 1))
  }

  /** The eight bits of an octet, least significant first, as RFC 1662 transmits them. */
  function SerialOctet(fcs: bv16, c: byte): bv16 {
    var w := c as bv16;
    var f0 := Serial(fcs, w);
    var f1 := Serial(f0, w >> 1);
    var f2 := Serial(f1, w >> 2);
    var f3 := Serial(f2, w >> 3);
    var f4 := Serial(f3, w >> 4);
    var f5 := Serial(f4, w >> 5);
    var f6 := Serial(f5, w >> 6);
    Serial(f6, w >> 7)
  }

  // ---- Linearity -----------------------------------------------------------------------------

  lemma LowBit(x: bv16, y: bv16)
    ensures (x ^ y) & 1 == 1 <==> ((x & 1 == 1) != (y & 1 == 1))
    ensures (x ^ y) >> 1 == (x >> 1) ^ (y >> 1)
  {
  }

  lemma Cancel(a: bv16, b: bv16, c: bv16)
    ensures (a ^ c) ^ (b ^ c) == a ^ b
    ensures (a ^ c) ^ b == (a ^ b) ^ c
    ensures a ^ (b ^ c) == (a ^ b) ^ c
  {
  }

  lemma XorZero(x: bv16)
    ensures Xor(x, 0) == x
  {
  }

  lemma BitStepOfXor(x: bv16, y: bv16)
    ensures BitStep(x ^ y) == BitStep(x) ^ BitStep(y)
  {
    LowBit(x, y);
    Cancel(x >> 1, y >> 1, 0x8408);
  }

  lemma BitStepLinear(x: bv16, y: bv16)
    ensures BitStep(Xor(x, y)) == Xor(BitStep(x), BitStep(y))
  {
    BitStepOfXor(x, y);
  }

  lemma Bits8Linear(x: bv16, y: bv16)
    ensures Bits8(Xor(x, y)) == Xor(Bits8(x), Bits8(y))
  {
    var x1, y1 := BitStep(x), BitStep(y);
    var x2, y2 := BitStep(x1), BitStep(y1);
    var x3, y3 := BitStep(x2), BitStep(y2);
    var x4, y4 := BitStep(x3), BitStep(y3);
    var x5, y5 := BitStep(x4), BitStep(y4);
    var x6, y6 := BitStep(x5), BitStep(y5);
    var x7, y7 := BitStep(x6), BitStep(y6);
    BitStepLinear(x, y);
    BitStepLinear(x1, y1);
    BitStepLinear(x2, y2);
    BitStepLinear(x3, y3);
    BitStepLinear(x4, y4);
    BitStepLinear(x5, y5);
    BitStepLinear(x6, y6);
    BitStepLinear(x7, y7);
  }

  lemma Bits8OfHigh(h: bv16)
    requires h & 0xff == 0
    ensures Bits8(h) == h >> 8
  {
  }

  // ---- Bits entering one at a time -----------------------------------------------------------

  lemma OneBit(r: bv16)
    ensures (r & 1) & 1 == r & 1 && (r & 1) >> 1 == 0
  {
  }

  lemma EnterOfXor(f: bv16, r: bv16, l: bv16)
    requires l & 1 == r & 1 && l >> 1 == 0
    ensures BitStep(f ^ r) == BitStep(f ^ l) ^ (r >> 1)
  {
    LowBit(f, r);
    LowBit(f, l);
    Cancel(f >> 1, r >> 1, 0x8408);
  }

  lemma Enter(f: bv16, r: bv16, l: bv16)
    requires l & 1 == r & 1 && l >> 1 == 0
    ensures BitStep(Xor(f, r)) == Xor(BitStep(Xor(f, l)), r >> 1)
  {
    EnterOfXor(f, r, l);
  }

  /** A bit may enter when its turn comes, or with its whole word before the first shift. */
  lemma EnterSerial(f: bv16, r: bv16)
    ensures BitStep(Xor(f, r)) == Xor(Serial(f, r), r >> 1)
  {
    OneBit(r);
    Enter(f, r, r & 1);
  }

  lemma OctetShifts(w: bv16)
    requires w <= 0xff
    ensures (w >> 1) >> 1 == w >> 2 && (w >> 2) >> 1 == w >> 3 && (w >> 3) >> 1 == w >> 4
    ensures (w >> 4) >> 1 == w >> 5 && (w >> 5) >> 1 == w >> 6 && (w >> 6) >> 1 == w >> 7 && (w >> 7) >> 1 == 0
  {
  }

  /** Bit by bit is the same as the octet at once followed by eight shifts. */
  lemma SerialIsBits8(fcs: bv16, c: byte)
    ensures SerialOctet(fcs, c) == Bits8(Xor(fcs, c as bv16))
  {
    var w := c as bv16;
    var f0 := Serial(fcs, w);
    var f1 := Serial(f0, w >> 1);
    var f2 := Serial(f1, w >> 2);
    var f3 := Serial(f2, w >> 3);
    var f4 := Serial(f3, w >> 4);
    var f5 := Serial(f4, w >> 5);
    var f6 := Serial(f5, w >> 6);
    OctetShifts(w);
    EnterSerial(fcs, w);
    EnterSerial(f0, w >> 1);
    EnterSerial(f1, w >> 2);
    EnterSerial(f2, w >> 3);
    EnterSerial(f3, w >> 4);
    EnterSerial(f4, w >> 5);
    EnterSerial(f5, w >> 6);
    EnterSerial(f6, w >> 7);
    XorZero(Serial(f6, w >> 7));
  }

  // ---- Nothing is lost -----------------------------------------------------------------------

  lemma BitStepInjective(x: bv16, y: bv16)
    requires BitStep(x) == BitStep(y)
    ensures x == y
  {
  }

  lemma Bits8Injective(x: bv16, y: bv16)
    requires Bits8(x) == Bits8(y)
    ensures x == y
  {
    var x1, y1 := BitStep(x), BitStep(y);
    var x2, y2 := BitStep(x1), BitStep(y1);
    var x3, y3 := BitStep(x2), BitStep(y2);
    var x4, y4 := BitStep(x3), BitStep(y3);
    var x5, y5 := BitStep(x4), BitStep(y4);
    var x6, y6 := BitStep(x5), BitStep(y5);
    var x7, y7 := BitStep(x6), BitStep(y6);
    BitStepInjective(x7, y7);
    BitStepInjective(x6, y6);
    BitStepInjective(x5, y5);
    BitStepInjective(x4, y4);
    BitStepInjective(x3, y3);
    BitStepInjective(x2, y2);
    BitStepInjective(x1, y1);
    BitStepInjective(x, y);
  }
}
