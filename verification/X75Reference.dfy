/**
 * The octets that X.75 and ISO 7776 fix: addresses by role, control fields by their weights, and
 * whole frames.
 */
module X75Reference {
  import opened Octets
  import opened X75Types
  import opened X75Wire

  function Weight(b: bool, w: byte): byte {
    if b then w else 0
  }

  /** Modulo 8: N(S) counts from bit 2, the poll bit is bit 5, N(R) counts from bit 6. */
  lemma StandardHeaders(mode: Mode, ns: byte, nr: byte, pf: bool)
    requires !mode.extended && ns < 8 && nr < 8
    ensures InfoHeader(mode, ns, nr, pf) == [2 * ns + Weight(pf, 16) + 32 * nr]
    ensures ControlHeader(mode, Code(RR), nr, pf) == [1 + Weight(pf, 16) + 32 * nr]
    ensures ControlHeader(mode, Code(RNR), nr, pf) == [5 + Weight(pf, 16) + 32 * nr]
    ensures ControlHeader(mode, Code(REJ), nr, pf) == [9 + Weight(pf, 16) + 32 * nr]
  {
  }

  /** Modulo 128: N(S) or the type in the first octet, poll bit and N(R) in the second. */
  lemma ExtendedHeaders(mode: Mode, ns: byte, nr: byte, pf: bool)
    requires mode.extended && ns < 128 && nr < 128
    ensures InfoHeader(mode, ns, nr, pf) == [2 * ns, Weight(pf, 1) + 2 * nr]
    ensures ControlHeader(mode, Code(RR), nr, pf) == [1, Weight(pf, 1) + 2 * nr]
    ensures ControlHeader(mode, Code(RNR), nr, pf) == [5, Weight(pf, 1) + 2 * nr]
    ensures ControlHeader(mode, Code(REJ), nr, pf) == [9, Weight(pf, 1) + 2 * nr]
  {
  }

  /** Unnumbered frames have the same single octet in both moduli. */
  lemma UnnumberedHeaders(mode: Mode, pf: bool)
    ensures ControlHeader(mode, Code(SABM), 0, pf) == [0x2f + Weight(pf, 16)]
    ensures ControlHeader(mode, Code(SABME), 0, pf) == [0x6f + Weight(pf, 16)]
    ensures ControlHeader(mode, Code(DISC), 0, pf) == [0x43 + Weight(pf, 16)]
    ensures ControlHeader(mode, Code(UA), 0, pf) == [0x63 + Weight(pf, 16)]
    ensures ControlHeader(mode, Code(DM), 0, pf) == [0x0f + Weight(pf, 16)]
  {
  }

  /** What a FRMR reports: the rejected control field, V(S), V(R), command or response, the reason. */
  lemma FrmrOctets(mode: Mode, p: Pdu, vs: byte, vr: byte)
    requires p.FrmrFrame? && vs == Octet(p.vs) && vr == Octet(p.vr)
    ensures var r := p.rejectedCr.Response?;
            && (!mode.extended && vs < 8 && vr < 8 ==>
                  FrmrBody(mode, p) == [0x87, p.control0, 2 * vs + Weight(r, 16) + 32 * vr, p.reason])
            && (mode.extended && vs < 128 && vr < 128 ==>
                  FrmrBody(mode, p) == [0x87, p.control0, p.control1, 2 * vs, Weight(r, 1) + 2 * vr, p.reason])
  {
  }

  /** Commands of the DCE and responses of the DTE have address A or C, the others B or D. */
  lemma Addresses(mode: Mode, cr: CommandResponse)
    requires !cr.Unset?
    ensures Address(mode, cr) == match (mode.mlp, mode.dce == cr.Command?)
                                 case (false, true) => 0x03
                                 case (false, false) => 0x01
                                 case (true, true) => 0x0f
                                 case (true, false) => 0x07
  {
  }

  /** The type that the first control octet stands for, in either modulus. */
  predicate TypeIs(t: FrameType, c: byte) {
    && (t.I? <==> c & 0x01 == 0)
    && (t.RR? <==> c & 0x0f == 0x01) && (t.RNR? <==> c & 0x0f == 0x05) && (t.REJ? <==> c & 0x0f == 0x09)
    && (t.SABM? <==> c & 0xef == 0x2f) && (t.SABME? <==> c & 0xef == 0x6f) && (t.DISC? <==> c & 0xef == 0x43)
    && (t.UA? <==> c & 0xef == 0x63) && (t.DM? <==> c & 0xef == 0x0f) && (t.FRMR? <==> c & 0xef == 0x87)
  }

  lemma TypeOctets(c: byte)
    ensures c & 0x01 == 0 ==> TypeIs(I, c)
    ensures c & 0x03 == 1 ==> TypeIs(SupervisoryType(c & 0x0f), c)
    ensures c & 0x03 == 3 ==> TypeIs(UnnumberedType(c & 0xef), c)
    ensures c & 0x01 != 0 ==> c & 0x03 == 1 || c & 0x03 == 3
  {
  }

  /**
   * Any octets at all: what is too short is refused and nothing else is, and the type of the rest
   * is the one its control octet stands for.
   */
  lemma DecodesByOctet(mode: Mode, skb: seq<byte>, junk: Frame)
    ensures Decode(mode, skb, junk).Rejected?
       <==> |skb| < 2 || (mode.extended && skb[1] & 0x03 != 3 && |skb| < 3)
    ensures var d := Decode(mode, skb, junk); d.Decoded? ==> TypeIs(d.frame.ftype, skb[1])
  {
    if |skb| >= 2 {
      var c := skb[1];
      TypeOctets(c);
      LowestBits(c);
      assert skb[1..][0] == c;
    }
  }

  lemma LowestBits(c: byte)
    ensures c & 0x03 == 3 ==> c & 0x01 != 0
    ensures c & 0x03 == 1 ==> c & 0x01 != 0
  {
  }

  /** The first frames of a connection: a DTE asks, a DCE accepts, data, an acknowledgement, the end. */
  lemma FirstFrames(data: seq<byte>)
    ensures Encode(Mode(false, false, false), UFrame(SABM, true, Command)) == [0x01, 0x3f]
    ensures Encode(Mode(false, false, true), UFrame(UA, true, Response)) == [0x01, 0x73]
    ensures Encode(Mode(false, false, false), IFrame(0, 0, false, data)) == [0x01, 0x00] + data
    ensures Encode(Mode(false, false, true), SFrame(RR, 1, false, Response)) == [0x01, 0x21]
    ensures Encode(Mode(false, false, true), UFrame(DISC, true, Command)) == [0x03, 0x53]
    ensures Encode(Mode(true, true, false), UFrame(SABME, true, Command)) == [0x07, 0x7f]
    ensures Encode(Mode(true, true, true), SFrame(RR, 1, false, Response)) == [0x07, 0x01, 0x02]
  {
    assert [0x01] + ([0x00] + data) == [0x01, 0x00] + data;
  }
}
