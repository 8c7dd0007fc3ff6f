/**
 * The 16-bit frame check sequence of RFC 1662, appendix C: the table-driven form of the source
 * refines the bit-serial form, and what its error detection is worth.
 */
module PppFcs {
  import opened CrcRegister
  import opened CrcTable
  import opened Octets

  const INIT_FCS: bv16 := 0xffff
  const GOOD_FCS: bv16 := 0xf0b8

  type Step = (bv16, byte) -> bv16

  /** A register taken through a message, one octet a step. */
  function Fold(step: Step, fcs: bv16, msg: seq<byte>): bv16 {
    if msg == [] then fcs else step(Fold(step, fcs, msg[..|msg| - 1]), msg[|msg| - 1])
  }

  /** The bit-serial frame check sequence of a whole message. */
  function SerialFcs(fcs: bv16, msg: seq<byte>): bv16 {
    Fold(SerialOctet, fcs, msg)
  }

  /** The macro PPP_FCS. */
  function FcsStep(fcs: bv16, c: byte): bv16 {
    (fcs >> 8) ^ Entry(((fcs ^ (c as bv16)) & 0xff) as byte)
  }

  function Fcs(fcs: bv16, msg: seq<byte>): bv16 {
    Fold(FcsStep, fcs, msg)
  }

  function Inverted(fcs: bv16): bv16 {
    fcs ^ 0xffff
  }

  function Checksum(msg: seq<byte>): bv16 {
    Inverted(Fcs(INIT_FCS, msg))
  }

  /** pppd_rfc1662_checksum. */
  method PppdChecksum(buf: seq<byte>) returns (fcs: bv16)
    ensures fcs == Checksum(buf)
  {
    fcs := INIT_FCS;
    for x := 0 to |buf|
      invariant fcs == Fcs(INIT_FCS, buf[..x])
    {
      fcs := FcsStep(fcs, buf[x]);
      assert buf[..x + 1][..x] == buf[..x];
    }
    assert buf[..|buf|] == buf;
    fcs := fcs ^ 0xffff;
  }

  // ---- Refinement ----------------------------------------------------------------------------

  lemma Parts(f: bv16, c: byte, i: byte)
    requires i == ((f ^ (c as bv16)) & 0xff) as byte
    ensures Xor(f, c as bv16) == Xor(i as bv16, f & 0xff00)
    ensures (f & 0xff00) & 0xff == 0 && (f & 0xff00) >> 8 == f >> 8
  {
  }

  lemma LookUp(f: bv16, i: byte, hi: bv16)
    requires hi & 0xff == 0 && hi >> 8 == f >> 8
    ensures Xor(Entry(i), f >> 8) == Bits8(Xor(i as bv16, hi))
  {
    TableIsBitSerial(i);
    Bits8Linear(i as bv16, hi);
    Bits8OfHigh(hi);
  }

  lemma StepOf(f: bv16, c: byte, i: byte)
    requires i == ((f ^ (c as bv16)) & 0xff) as byte
    ensures FcsStep(f, c) == Xor(Entry(i), f >> 8)
  {
  }

  /** One table step is eight shifts of the register with the octet entered. */
  lemma StepIsBits8(f: bv16, c: byte)
    ensures FcsStep(f, c) == Bits8(Xor(f, c as bv16))
  {
    var i := ((f ^ (c as bv16)) & 0xff) as byte;
    Parts(f, c, i);
    LookUp(f, i, f & 0xff00);
    StepOf(f, c, i);
  }

  lemma {:induction false} FoldAgrees(s: Step, t: Step, f: bv16, msg: seq<byte>)
    requires forall g, c :: s(g, c) == t(g, c)
    ensures Fold(s, f, msg) == Fold(t, f, msg)
  {
    if msg != [] {
      FoldAgrees(s, t, f, msg[..|msg| - 1]);
    }
  }

  /** For every message and start value the table-driven FCS is the bit-serial one. */
  lemma TableRefinesSerial(fcs: bv16, msg: seq<byte>)
    ensures Fcs(fcs, msg) == SerialFcs(fcs, msg)
  {
    forall g: bv16, c: byte
      ensures FcsStep(g, c) == SerialOctet(g, c)
    {
      StepIsBits8(g, c);
      SerialIsBits8(g, c);
    }
    FoldAgrees(FcsStep, SerialOctet, fcs, msg);
  }

  // ---- Error detection -----------------------------------------------------------------------

  lemma XorUndone(f: bv16, c: bv16)
    ensures Xor(Xor(f, c), c) == f && Xor(c, Xor(f, c)) == f
  {
  }

  /** For a fixed octet the step loses nothing of the register. */
  lemma StepInjective(f: bv16, g: bv16, c: byte)
    requires FcsStep(f, c) == FcsStep(g, c)
    ensures f == g
  {
    var w := c as bv16;
    StepIsBits8(f, c);
    StepIsBits8(g, c);
    Bits8Injective(Xor(f, w), Xor(g, w));
    XorUndone(f, w);
    XorUndone(g, w);
  }

  lemma {:induction false} FoldInjective(s: Step, f: bv16, g: bv16, msg: seq<byte>)
    requires forall x, y, c :: s(x, c) == s(y, c) ==> x == y
    requires Fold(s, f, msg) == Fold(s, g, msg)
    ensures f == g
  {
    if msg != [] {
      FoldInjective(s, f, g, msg[..|msg| - 1]);
    }
  }

  lemma FcsInjective(f: bv16, g: bv16, msg: seq<byte>)
    requires Fcs(f, msg) == Fcs(g, msg)
    ensures f == g
  {
    forall x: bv16, y: bv16, c: byte | FcsStep(x, c) == FcsStep(y, c)
      ensures x == y
    {
      StepInjective(x, y, c);
    }
    FoldInjective(FcsStep, f, g, msg);
  }

  lemma {:induction false} FoldConcat(s: Step, f: bv16, a: seq<byte>, b: seq<byte>)
    ensures Fold(s, f, a + b) == Fold(s, Fold(s, f, a), b)
  {
    if b == [] {
      assert a + b == a;
    } else {
      var n := |b| - 1;
      assert (a + b)[..|a + b| - 1] == a + b[..n];
      FoldConcat(s, f, a, b[..n]);
    }
  }

  lemma FoldOfPair(s: Step, f: bv16, a: byte, b: byte)
    ensures Fold(s, f, [a, b]) == s(s(f, a), b)
  {
    assert [a, b][..1] == [a] && [a][..0] == [];
    assert Fold(s, f, [a]) == s(f, a);
  }

  lemma FcsOfPair(f: bv16, msg: seq<byte>, a: byte, b: byte)
    ensures Fcs(f, msg + [a, b]) == FcsStep(FcsStep(Fcs(f, msg), a), b)
  {
    FoldConcat(FcsStep, f, msg, [a, b]);
    FoldOfPair(FcsStep, Fcs(f, msg), a, b);
  }

  /** Two octets, entered one after the other, as one word at the input of the register. */
  function Word(a: byte, b: byte): bv16 {
    (a as bv16) | ((b as bv16) << 8)
  }

  lemma WordSplits(f: bv16, a: byte, b: byte)
    ensures Xor(f, Word(a, b)) == Xor(Xor(f, a as bv16), (b as bv16) << 8)
    ensures ((b as bv16) << 8) & 0xff == 0 && ((b as bv16) << 8) >> 8 == b as bv16
  {
  }

  lemma TwoSteps(f: bv16, a: byte, b: byte)
    ensures FcsStep(FcsStep(f, a), b) == Bits8(Bits8(Xor(f, Word(a, b))))
  {
    WordSplits(f, a, b);
    Bits8Linear(Xor(f, a as bv16), (b as bv16) << 8);
    Bits8OfHigh((b as bv16) << 8);
    StepIsBits8(f, a);
    StepIsBits8(FcsStep(f, a), b);
  }

  lemma WordDetermines(a: byte, b: byte, c: byte, d: byte)
    requires Word(a, b) == Word(c, d)
    ensures a == c && b == d
  {
  }

  /** From a fixed register, different pairs of octets lead to different registers. */
  lemma PairInjective(f: bv16, a: byte, b: byte, c: byte, d: byte)
    requires FcsStep(FcsStep(f, a), b) == FcsStep(FcsStep(f, c), d)
    ensures a == c && b == d
  {
    var x, y := Xor(f, Word(a, b)), Xor(f, Word(c, d));
    TwoSteps(f, a, b);
    TwoSteps(f, c, d);
    Bits8Injective(Bits8(x), Bits8(y));
    Bits8Injective(x, y);
    SameWord(f, Word(a, b), Word(c, d));
    WordDetermines(a, b, c, d);
  }

  lemma SameWord(f: bv16, x: bv16, y: bv16)
    requires Xor(f, x) == Xor(f, y)
    ensures x == y
  {
    XorSwaps(f, x);
    XorSwaps(f, y);
    XorUndone(x, f);
    XorUndone(y, f);
  }

  lemma XorSwaps(x: bv16, y: bv16)
    ensures Xor(x, y) == Xor(y, x)
  {
  }

  lemma InvertedTwice(f: bv16)
    ensures Inverted(Inverted(f)) == f
  {
  }

  lemma SameChecksum(m: seq<byte>, n: seq<byte>)
    requires Checksum(m) == Checksum(n)
    ensures Fcs(INIT_FCS, m) == Fcs(INIT_FCS, n)
  {
    InvertedTwice(Fcs(INIT_FCS, m));
    InvertedTwice(Fcs(INIT_FCS, n));
  }

  /** Two messages that differ only within two adjacent octets always have different checksums. */
  lemma {:induction false} BurstDetected(m: seq<byte>, n: seq<byte>, i: nat)
    requires |m| == |n| && i + 2 <= |m| && m != n
    requires forall j :: 0 <= j < |m| && j != i && j != i + 1 ==> m[j] == n[j]
    ensures Checksum(m) != Checksum(n)
  {
    var p, q := m[..i], m[i + 2..];
    assert m == (p + [m[i], m[i + 1]]) + q && n == (p + [n[i], n[i + 1]]) + q;
    var f, g := Fcs(INIT_FCS, p + [m[i], m[i + 1]]), Fcs(INIT_FCS, p + [n[i], n[i + 1]]);
    FoldConcat(FcsStep, INIT_FCS, p + [m[i], m[i + 1]], q);
    FoldConcat(FcsStep, INIT_FCS, p + [n[i], n[i + 1]], q);
    if Checksum(m) == Checksum(n) {
      SameChecksum(m, n);
      FcsInjective(f, g, q);
      FcsOfPair(INIT_FCS, p, m[i], m[i + 1]);
      FcsOfPair(INIT_FCS, p, n[i], n[i + 1]);
      PairInjective(Fcs(INIT_FCS, p), m[i], m[i + 1], n[i], n[i + 1]);
    }
  }

  // ---- The transmitted FCS -------------------------------------------------------------------

  /** The checksum as it follows the data, least significant octet first. */
  function Trailer(msg: seq<byte>): seq<byte> {
    [LowOctet(Checksum(msg)), HighOctet(Checksum(msg))]
  }

  lemma ComplementEnters(f: bv16)
    ensures Xor(f, Word(LowOctet(Inverted(f)), HighOctet(Inverted(f)))) == 0xffff
  {
  }

  lemma OnesLeaveGood()
    ensures Bits8(Bits8(0xffff)) == GOOD_FCS
  {
  }

  lemma GoodPairExactly(f: bv16, a: byte, b: byte)
    ensures FcsStep(FcsStep(f, a), b) == GOOD_FCS <==> a == LowOctet(Inverted(f)) && b == HighOctet(Inverted(f))
  {
    var lo, hi := LowOctet(Inverted(f)), HighOctet(Inverted(f));
    ComplementEnters(f);
    TwoSteps(f, lo, hi);
    OnesLeaveGood();
    if FcsStep(FcsStep(f, a), b) == GOOD_FCS {
      PairInjective(f, a, b, lo, hi);
    }
  }

  /** Message plus two octets leave the good value exactly when the octets are the checksum. */
  lemma GoodFcsExactly(msg: seq<byte>, a: byte, b: byte)
    ensures Fcs(INIT_FCS, msg + [a, b]) == GOOD_FCS <==> [a, b] == Trailer(msg)
  {
    FcsOfPair(INIT_FCS, msg, a, b);
    GoodPairExactly(Fcs(INIT_FCS, msg), a, b);
  }

  // ---- Undetected errors ---------------------------------------------------------------------

  /** The message received when the bits of e are inverted on the way. */
  function Disturbed(m: seq<byte>, e: seq<byte>): (n: seq<byte>)
    requires |m| == |e|
    ensures |n| == |m|
  {
    seq(|m|, i requires 0 <= i < |m| => m[i] ^ e[i])
  }

  ghost predicate LinearAt(s: Step, f: bv16, g: bv16, c: byte, d: byte) {
    s(Xor(f, g), c ^ d) == Xor(s(f, c), s(g, d))
  }

  lemma Regroup(f: bv16, g: bv16, c: byte, d: byte)
    ensures Xor(Xor(f, g), (c ^ d) as bv16) == Xor(Xor(f, c as bv16), Xor(g, d as bv16))
  {
  }

  lemma StepLinear(f: bv16, g: bv16, c: byte, d: byte)
    ensures LinearAt(FcsStep, f, g, c, d)
  {
    Regroup(f, g, c, d);
    StepIsBits8(f, c);
    StepIsBits8(g, d);
    StepIsBits8(Xor(f, g), c ^ d);
    Bits8Linear(Xor(f, c as bv16), Xor(g, d as bv16));
  }

  lemma {:induction false} FoldLinear(s: Step, f: bv16, g: bv16, m: seq<byte>, e: seq<byte>)
    requires forall x, y, c, d :: LinearAt(s, x, y, c, d)
    requires |m| == |e|
    ensures Fold(s, Xor(f, g), Disturbed(m, e)) == Xor(Fold(s, f, m), Fold(s, g, e))
  {
    if m != [] {
      var n := |m| - 1;
      FoldLinear(s, f, g, m[..n], e[..n]);
      assert Disturbed(m, e)[..n] == Disturbed(m[..n], e[..n]);
      assert LinearAt(s, Fold(s, f, m[..n]), Fold(s, g, e[..n]), m[n], e[n]);
    }
  }

  lemma XorSame(x: bv16, y: bv16)
    ensures Xor(x, y) == x <==> y == 0
  {
    XorZero(x);
    if Xor(x, y) == x {
      SameWord(x, y, 0);
    }
  }

  lemma FoldSame(s: Step, f: bv16, m: seq<byte>, e: seq<byte>)
    requires forall x, y, c, d :: LinearAt(s, x, y, c, d)
    requires |m| == |e|
    ensures Fold(s, f, Disturbed(m, e)) == Fold(s, f, m) <==> Fold(s, 0, e) == 0
  {
    XorZero(f);
    FoldLinear(s, f, 0, m, e);
    XorSame(Fold(s, f, m), Fold(s, 0, e));
  }

  /** Whether an error goes unnoticed depends on the error alone, never on the message. */
  lemma UndetectedExactly(m: seq<byte>, e: seq<byte>)
    requires |m| == |e|
    ensures Checksum(Disturbed(m, e)) == Checksum(m) <==> Fcs(0, e) == 0
  {
    forall f: bv16, g: bv16, c: byte, d: byte
      ensures LinearAt(FcsStep, f, g, c, d)
    {
      StepLinear(f, g, c, d);
    }
    FoldSame(FcsStep, INIT_FCS, m, e);
    if Checksum(Disturbed(m, e)) == Checksum(m) {
      SameChecksum(Disturbed(m, e), m);
    }
  }

  // ---- The start value -----------------------------------------------------------------------

  /** Octets put in front of a message go unnoticed exactly when they lead back to the start value. */
  lemma PrefixUnnoticedExactly(p: seq<byte>, m: seq<byte>)
    ensures Checksum(p + m) == Checksum(m) <==> Fcs(INIT_FCS, p) == INIT_FCS
  {
    FoldConcat(FcsStep, INIT_FCS, p, m);
    if Checksum(p + m) == Checksum(m) {
      SameChecksum(p + m, m);
      FcsInjective(Fcs(INIT_FCS, p), INIT_FCS, m);
    }
  }

  lemma FoldOfOne(s: Step, f: bv16, a: byte)
    ensures Fold(s, f, [a]) == s(f, a)
  {
    assert [a][..0] == [];
  }

  lemma FcsOfOne(f: bv16, a: byte)
    ensures Fcs(f, [a]) == FcsStep(f, a)
  {
    FoldOfOne(FcsStep, f, a);
  }

  lemma ZeroMoves()
    ensures FcsStep(0xffff, 0x00) == 0x0f87
  {
    StepIsBits8(0xffff, 0x00);
    XorZero(0xffff);
    assert Bits8(0xffff) == 0x0f87;
  }

  /** A zero in front of a message is always noticed, which a start value of zero could not do. */
  lemma LeadingZeroDetected(m: seq<byte>)
    ensures Checksum([0x00] + m) != Checksum(m)
  {
    ZeroMoves();
    FcsOfOne(INIT_FCS, 0x00);
    PrefixUnnoticedExactly([0x00], m);
  }
}
