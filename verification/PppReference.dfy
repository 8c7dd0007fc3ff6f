/** Octets that RFC 1662 fixes: check values of its frame check sequence, escapes, and whole frames. */
module PppReference {
  import opened CrcRegister
  import opened Octets
  import opened PppFcs
  import opened PppFraming
  import opened PppStuffing

  /** The digits 1 to 9 in ASCII. */
  const DIGITS: seq<byte> := [0x31, 0x32, 0x33, 0x34, 0x35, 0x36, 0x37, 0x38, 0x39]

  /** Octet `c` takes the register from `f` to `g`. */
  lemma Leads(f: bv16, c: byte, g: bv16)
    requires Bits8(Xor(f, c as bv16)) == g
    ensures FcsStep(f, c) == g
  {
    StepIsBits8(f, c);
  }

  lemma FcsNext(msg: seq<byte>, c: byte, f: bv16, g: bv16)
    requires Fcs(0xffff, msg) == f && FcsStep(f, c) == g
    ensures Fcs(0xffff, msg + [c]) == g
  {
    FoldConcat(FcsStep, 0xffff, msg, [c]);
    FcsOfOne(f, c);
  }

  lemma FirstDigits()
    ensures Fcs(0xffff, DIGITS[..5]) == 0x44bf
  {
    Leads(0xffff, 0x31, 0x2f8d);
    Leads(0x2f8d, 0x32, 0x4d53);
    Leads(0x4d53, 0x33, 0x634b);
    Leads(0x634b, 0x34, 0x8b13);
    Leads(0x8b13, 0x35, 0x44bf);
    FcsNext([], 0x31, 0xffff, 0x2f8d);
    FcsNext([] + [0x31], 0x32, 0x2f8d, 0x4d53);
    FcsNext([] + [0x31] + [0x32], 0x33, 0x4d53, 0x634b);
    FcsNext([] + [0x31] + [0x32] + [0x33], 0x34, 0x634b, 0x8b13);
    FcsNext([] + [0x31] + [0x32] + [0x33] + [0x34], 0x35, 0x8b13, 0x44bf);
    assert DIGITS[..5] == [] + [0x31] + [0x32] + [0x33] + [0x34] + [0x35];
  }

  lemma LastDigits()
    ensures Fcs(0xffff, DIGITS) == 0x6f91
  {
    FirstDigits();
    Leads(0x44bf, 0x36, 0x198d);
    Leads(0x198d, 0x37, 0x1ac8);
    Leads(0x1ac8, 0x38, 0xf795);
    Leads(0xf795, 0x39, 0x6f91);
    var d := DIGITS[..5];
    FcsNext(d, 0x36, 0x44bf, 0x198d);
    FcsNext(d + [0x36], 0x37, 0x198d, 0x1ac8);
    FcsNext(d + [0x36] + [0x37], 0x38, 0x1ac8, 0xf795);
    FcsNext(d + [0x36] + [0x37] + [0x38], 0x39, 0xf795, 0x6f91);
    assert DIGITS == d + [0x36] + [0x37] + [0x38] + [0x39];
  }

  /** The check values of the 16-bit FCS: of the empty message, and of the nine digits. */
  lemma CheckValues()
    ensures Checksum([]) == 0x0000 && Checksum(DIGITS) == 0x906e
  {
    LastDigits();
    assert Fcs(0xffff, []) == 0xffff;
  }

  /** The examples of section 4.2 of RFC 1662. */
  lemma EscapeExamples()
    ensures Escaped(0x7e) == [0x7d, 0x5e] && Escaped(0x7d) == [0x7d, 0x5d] && Escaped(0x03) == [0x7d, 0x23]
    ensures Escaped(0x11) == [0x7d, 0x31] && Escaped(0x13) == [0x7d, 0x33] && Escaped(0x20) == [0x20]
  {
  }

  lemma {:induction false} StuffedPlain(s: seq<byte>)
    requires forall i :: 0 <= i < |s| ==> !NeedsEscape(s[i])
    ensures Stuffed(s) == s
  {
    if s != [] {
      StuffedPlain(s[..|s| - 1]);
    }
  }

  lemma DigitsBody()
    ensures Stuffed(DIGITS + [0x6e, 0x90]) == DIGITS + [0x6e, 0x90]
  {
    var body := DIGITS + [0x6e, 0x90];
    assert forall i :: 0 <= i < |body| ==> !NeedsEscape(body[i]);
    StuffedPlain(body);
  }

  /** A frame without escapes: flag, the digits, their check sequence low octet first, flag. */
  lemma DigitsFrame()
    ensures Encoded(DIGITS) == [0x7e] + DIGITS + [0x6e, 0x90] + [0x7e]
  {
    CheckValues();
    assert Trailer(DIGITS) == [0x6e, 0x90];
    DigitsBody();
  }

  lemma EscapesSteps()
    ensures FcsStep(0xffff, 0xff) == 0x00ff && FcsStep(0x00ff, 0x03) == 0x3de3 && FcsStep(0x3de3, 0x7e) == 0x4f51
  {
    Leads(0xffff, 0xff, 0x00ff);
    Leads(0x00ff, 0x03, 0x3de3);
    Leads(0x3de3, 0x7e, 0x4f51);
  }

  const ESCAPES: seq<byte> := [0xff, 0x03, 0x7e]

  lemma EscapesChecksum()
    ensures Checksum(ESCAPES) == 0xb0ae
  {
    EscapesSteps();
    FcsNext([], 0xff, 0xffff, 0x00ff);
    FcsNext([] + [0xff], 0x03, 0x00ff, 0x3de3);
    FcsNext([] + [0xff] + [0x03], 0x7e, 0x3de3, 0x4f51);
    assert ESCAPES == [] + [0xff] + [0x03] + [0x7e];
  }

  lemma StuffedSnoc(s: seq<byte>, c: byte)
    ensures Stuffed(s + [c]) == Stuffed(s) + Escaped(c)
  {
    assert (s + [c])[..|s|] == s;
  }

  lemma EscapesBody()
    ensures Stuffed(ESCAPES + [0xae, 0xb0]) == [0xff, 0x7d, 0x23, 0x7d, 0x5e, 0xae, 0xb0]
  {
    EscapeExamples();
    StuffedSnoc([], 0xff);
    StuffedSnoc([] + [0xff], 0x03);
    StuffedSnoc([] + [0xff] + [0x03], 0x7e);
    StuffedSnoc([] + [0xff] + [0x03] + [0x7e], 0xae);
    StuffedSnoc([] + [0xff] + [0x03] + [0x7e] + [0xae], 0xb0);
    EscapesJoined();
  }

  lemma EscapesJoined()
    ensures ESCAPES + [0xae, 0xb0] == [] + [0xff] + [0x03] + [0x7e] + [0xae] + [0xb0]
  {
  }

  /** A frame with escapes: the address and control octets of PPP, and a flag as data. */
  lemma EscapesFrame()
    ensures Encoded(ESCAPES) == [0x7e, 0xff, 0x7d, 0x23, 0x7d, 0x5e, 0xae, 0xb0, 0x7e]
  {
    EscapesChecksum();
    assert Trailer(ESCAPES) == [0xae, 0xb0];
    EscapesBody();
  }
}
