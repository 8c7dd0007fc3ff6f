/** The octets of X.75 frames: address, control field and payload. */
module X75Wire {
  import opened Octets
  import opened X75Types


  const ADDR_A: byte := 0x03
  const ADDR_B: byte := 0x01
  const ADDR_C: byte := 0x0F
  const ADDR_D: byte := 0x07

  const SPF: byte := 0x10
  const EPF: byte := 0x01

  // ---- Frame types and their codes ---------------------------------------------------------

  function Code(t: FrameType): byte {
    match t
    case I => 0x00
    case RR => 0x01
    case RNR => 0x05
    case REJ => 0x09
    case SABM => 0x2F
    case SABME => 0x6F
    case DISC => 0x43
    case DM => 0x0F
    case UA => 0x63
    case FRMR => 0x87
    case Unknown(c) => c
    case Illegal => 0x00
  }

  function SupervisoryType(c: byte): FrameType {
    if c == 0x01 then RR else if c == 0x05 then RNR else if c == 0x09 then REJ else Unknown(c)
  }

  function UnnumberedType(c: byte): FrameType {
    if c == 0x2F then SABM else if c == 0x6F then SABME else if c == 0x43 then DISC
    else if c == 0x0F then DM else if c == 0x63 then UA else if c == 0x87 then FRMR else Unknown(c)
  }

  // ---- Decoding ----------------------------------------------------------------------------

  datatype Decoded = Rejected | Decoded(frame: Frame, data: seq<byte>)

  /** `junk` is what the uninitialised frame structure happens to contain. */
  function DecodeAddress(mode: Mode, a: byte, junk: CommandResponse): CommandResponse {
    var command := if mode.mlp then (if mode.dce then ADDR_D else ADDR_C)
                   else (if mode.dce then ADDR_B else ADDR_A);
    var response := if mode.mlp then (if mode.dce then ADDR_C else ADDR_D)
                    else (if mode.dce then ADDR_A else ADDR_B);
    if a == response then Response else if a == command then Command else junk
  }

  function DecodeExtended(cr: CommandResponse, ctl: seq<byte>, junk: Frame): Decoded
    requires |ctl| >= 1
  {
    if ctl[0] & 0x01 == 0 then
      if |ctl| < 2 then Rejected
      else Decoded(
        Frame(I, ((ctl[0] >> 1) & 0x7F) as nat, ((ctl[1] >> 1) & 0x7F) as nat, ctl[1] & EPF != 0, cr, ctl[0], ctl[1]),
        ctl[2..])
    else if ctl[0] & 0x03 == 1 then
      if |ctl| < 2 then Rejected
      else Decoded(
        Frame(SupervisoryType(ctl[0] & 0x0F), junk.ns, ((ctl[1] >> 1) & 0x7F) as nat, ctl[1] & EPF != 0, cr,
              ctl[0], ctl[1]),
        ctl[2..])
    else
      Decoded(
        Frame(UnnumberedType(ctl[0] & 0xEF), junk.ns, junk.nr, ctl[0] & SPF != 0, cr, ctl[0], 0x00), ctl[1..])
  }

  function DecodeStandard(cr: CommandResponse, ctl: seq<byte>, junk: Frame): Decoded
    requires |ctl| >= 1
  {
    var c, pf := ctl[0], ctl[0] & SPF != 0;
    var f :=
      if c & 0x01 == 0 then
        Frame(I, ((c >> 1) & 0x07) as nat, ((c >> 5) & 0x07) as nat, pf, cr, c, junk.control1)
      else if c & 0x03 == 1 then
        Frame(SupervisoryType(c & 0x0F), junk.ns, ((c >> 5) & 0x07) as nat, pf, cr, c, junk.control1)
      else
        Frame(UnnumberedType(c & 0xEF), junk.ns, junk.nr, pf, cr, c, junk.control1);
    Decoded(f, ctl[1..])
  }

  function DecodeControl(mode: Mode, cr: CommandResponse, ctl: seq<byte>, junk: Frame): Decoded
    requires |ctl| >= 1
  {
    if mode.extended then DecodeExtended(cr, ctl, junk) else DecodeStandard(cr, ctl, junk)
  }

  function Decode(mode: Mode, skb: seq<byte>, junk: Frame): Decoded {
    if |skb| < 2 then Rejected
    else
      DecodeControl(mode, DecodeAddress(mode, skb[0], junk.cr), skb[1..], junk)
  }

  // ---- Encoding ----------------------------------------------------------------------------

  function Address(mode: Mode, cr: CommandResponse): byte {
    if mode.mlp then (if mode.dce == cr.Command? then ADDR_C else ADDR_D)
    else (if mode.dce == cr.Command? then ADDR_A else ADDR_B)
  }

  /** A sequence number as the octet the shifts are applied to. */
  function Octet(n: nat): byte {
    (n % 256) as byte
  }

  function Bit(b: bool, mask: byte): byte {
    if b then mask else 0
  }

  function InfoHeader(mode: Mode, ns: byte, nr: byte, pf: bool): seq<byte> {
    if mode.extended then [ns << 1, Bit(pf, EPF) | (nr << 1)]
    else [Bit(pf, SPF) | (nr << 5) | (ns << 1)]
  }

  function ControlHeader(mode: Mode, code: byte, nr: byte, pf: bool): seq<byte> {
    if mode.extended then
      if code & 0x03 == 3 then [code | Bit(pf, SPF)]
      else [code, (nr << 1) | Bit(pf, EPF)]
    else
      if code & 0x03 == 1 then [code | Bit(pf, SPF) | (nr << 5)]
      else [code | Bit(pf, SPF)]
  }

  function FrmrBody(mode: Mode, p: Pdu): seq<byte>
    requires p.FrmrFrame?
  {
    var response := p.rejectedCr.Response?;
    if mode.extended then
      [Code(FRMR), p.control0, p.control1, (Octet(p.vs) << 1) & 0xFE,
       ((Octet(p.vr) << 1) & 0xFE) | Bit(response, 0x01), p.reason]
    else
      [Code(FRMR), p.control0,
       ((Octet(p.vs) << 1) & 0x0E) | ((Octet(p.vr) << 5) & 0xE0) | Bit(response, 0x10), p.reason]
  }

  function CrOf(p: Pdu): CommandResponse {
    match p
    case IFrame(_, _, _, _) => Command
    case SFrame(_, _, _, cr) => cr
    case UFrame(_, _, cr) => cr
    case FrmrFrame(_, _, _, _, _, _) => Response
  }

  /** Everything after the address octet. */
  function FrameOctets(mode: Mode, p: Pdu): seq<byte> {
    match p
    case IFrame(ns, nr, pf, data) => InfoHeader(mode, Octet(ns), Octet(nr), pf) + data
    case SFrame(t, nr, pf, _) => ControlHeader(mode, Code(t), Octet(nr), pf)
    case UFrame(t, pf, _) => ControlHeader(mode, Code(t), 0, pf)
    case FrmrFrame(_, _, _, _, _, _) => FrmrBody(mode, p)
  }

  function Encode(mode: Mode, p: Pdu): seq<byte> {
    [Address(mode, CrOf(p))] + FrameOctets(mode, p)
  }

  // ---- Round trip --------------------------------------------------------------------------

  /** The other end of the link: same modulus and procedure, opposite role. */
  function Peer(mode: Mode): Mode {
    mode.(dce := !mode.dce)
  }

  /** PDUs that the endpoint builds: proper types, sequence numbers below the modulus. */
  predicate Proper(m: nat, p: Pdu) {
    match p
    case IFrame(ns, nr, _, _) => ns < m && nr < m
    case SFrame(t, nr, _, cr) => IsSupervisory(t) && nr < m && !cr.Unset?
    case UFrame(t, _, cr) => IsUnnumbered(t) && !cr.Unset?
    case FrmrFrame(_, _, vs, vr, _, _) => vs < m && vr < m
  }

  /** `f` and `data` say what `p` says. */
  predicate Carries(f: Frame, data: seq<byte>, p: Pdu) {
    match p
    case IFrame(ns, nr, pf, payload) =>
      f.ftype.I? && f.ns == ns && f.nr == nr && f.pf == pf && f.cr.Command? && data == payload
    case SFrame(t, nr, pf, cr) => f.ftype == t && f.nr == nr && f.pf == pf && f.cr == cr && data == []
    case UFrame(t, pf, cr) => f.ftype == t && f.pf == pf && f.cr == cr && data == []
    case FrmrFrame(_, _, _, _, _, _) => f.ftype.FRMR? && !f.pf && f.cr.Response? && |data| >= 3
  }

  lemma OctetOf(n: nat)
    requires n < 128
    ensures Octet(n) < 0x80 && Octet(n) as nat == n
    ensures n < 8 ==> Octet(n) < 0x08
  {
  }

  lemma InfoBits(ns: byte, nr: byte, pf: bool)
    ensures ns < 0x80 ==> (ns << 1) & 0x01 == 0 && ((ns << 1) >> 1) & 0x7F == ns
    ensures nr < 0x80 ==> var c := Bit(pf, EPF) | (nr << 1); (c >> 1) & 0x7F == nr && (c & EPF != 0) == pf
    ensures ns < 0x08 && nr < 0x08 ==>
              var c := Bit(pf, SPF) | (nr << 5) | (ns << 1);
              c & 0x01 == 0 && (c >> 1) & 0x07 == ns && (c >> 5) & 0x07 == nr && (c & SPF != 0) == pf
  {
  }

  lemma SupervisoryBits(t: FrameType, nr: byte, pf: bool)
    requires IsSupervisory(t)
    ensures Code(t) & 0x03 == 1 && SupervisoryType(Code(t) & 0x0F) == t
    ensures nr < 0x80 ==> var c := (nr << 1) | Bit(pf, EPF); (c >> 1) & 0x7F == nr && (c & EPF != 0) == pf
    ensures nr < 0x08 ==>
              var c := Code(t) | Bit(pf, SPF) | (nr << 5);
              c & 0x03 == 1 && SupervisoryType(c & 0x0F) == t && (c >> 5) & 0x07 == nr && (c & SPF != 0) == pf
  {
  }

  lemma UnnumberedBits(t: FrameType, pf: bool)
    requires IsUnnumbered(t)
    ensures var c := Code(t) | Bit(pf, SPF);
            Code(t) & 0x03 == 3 && c & 0x03 == 3 && c & 0x01 == 1
            && UnnumberedType(c & 0xEF) == t && (c & SPF != 0) == pf
  {
  }

  lemma AddressRoundTrip(mode: Mode, cr: CommandResponse, junk: CommandResponse)
    requires !cr.Unset?
    ensures DecodeAddress(Peer(mode), Address(mode, cr), junk) == cr
  {
  }

  predicate FitsModulus(mode: Mode, n: byte) {
    if mode.extended then n < 0x80 else n < 0x08
  }

  lemma InfoRoundTrip(mode: Mode, ns: byte, nr: byte, pf: bool, data: seq<byte>, junk: Frame)
    requires FitsModulus(mode, ns) && FitsModulus(mode, nr)
    ensures var d := DecodeControl(mode, Command, InfoHeader(mode, ns, nr, pf) + data, junk);
            d.Decoded? && Carries(d.frame, d.data, IFrame(ns as nat, nr as nat, pf, data))
  {
    InfoBits(ns, nr, pf);
    var h := InfoHeader(mode, ns, nr, pf);
    assert (h + data)[|h|..] == data;
  }

  lemma SupervisoryRoundTrip(mode: Mode, t: FrameType, nr: byte, pf: bool, cr: CommandResponse, junk: Frame)
    requires IsSupervisory(t) && FitsModulus(mode, nr)
    ensures var d := DecodeControl(mode, cr, ControlHeader(mode, Code(t), nr, pf), junk);
            d.Decoded? && Carries(d.frame, d.data, SFrame(t, nr as nat, pf, cr))
  {
    SupervisoryBits(t, nr, pf);
  }

  lemma UnnumberedRoundTrip(mode: Mode, t: FrameType, pf: bool, cr: CommandResponse, junk: Frame)
    requires IsUnnumbered(t)
    ensures var d := DecodeControl(mode, cr, ControlHeader(mode, Code(t), 0, pf), junk);
            d.Decoded? && Carries(d.frame, d.data, UFrame(t, pf, cr))
  {
    UnnumberedBits(t, pf);
  }

  lemma FrmrRoundTrip(mode: Mode, p: Pdu, junk: Frame)
    requires p.FrmrFrame?
    ensures var d := DecodeControl(mode, Response, FrmrBody(mode, p), junk);
            d.Decoded? && Carries(d.frame, d.data, p)
  {
    UnnumberedBits(FRMR, false);
  }

  /**
   * What one end encodes the other end decodes: type, N(S), N(R), P/F bit, command/response and
   * payload, for both moduli, both procedures and whatever the frame structure contained before.
   */
  lemma RoundTrip(mode: Mode, p: Pdu, junk: Frame)
    requires Proper(Modulus(mode), p)
    ensures var d := Decode(Peer(mode), Encode(mode, p), junk); d.Decoded? && Carries(d.frame, d.data, p)
  {
    AddressRoundTrip(mode, CrOf(p), junk.cr);
    var skb := Encode(mode, p);
    assert skb[1..] == FrameOctets(mode, p);
    match p
    case IFrame(ns, nr, pf, data) =>
      OctetOf(ns);
      OctetOf(nr);
      InfoRoundTrip(mode, Octet(ns), Octet(nr), pf, data, junk);
    case SFrame(t, nr, pf, cr) =>
      OctetOf(nr);
      SupervisoryRoundTrip(mode, t, Octet(nr), pf, cr, junk);
    case UFrame(t, pf, cr) => UnnumberedRoundTrip(mode, t, pf, cr, junk);
    case FrmrFrame(_, _, _, _, _, _) => FrmrRoundTrip(mode, p, junk);
  }

  /** Unnumbered frames have one octet of control, and are understood across the moduli too. */
  lemma UnnumberedCrosses(mode: Mode, other: Mode, p: Pdu, junk: Frame)
    requires mode.mlp == other.mlp && mode.dce != other.dce
    requires p.UFrame? && IsUnnumbered(p.ftype) && !p.cr.Unset?
    ensures var d := Decode(mode, Encode(other, p), junk); d.Decoded? && Carries(d.frame, d.data, p)
  {
    var skb := Encode(other, p);
    AddressRoundTrip(Peer(mode), p.cr, junk.cr);
    AddressCrosses(mode, other, p.cr);
    assert Peer(Peer(mode)) == mode;
    UnnumberedBits(p.ftype, p.pf);
    UnnumberedRoundTrip(mode, p.ftype, p.pf, p.cr, junk);
    assert skb[1..] == ControlHeader(mode, Code(p.ftype), 0, p.pf);
  }

  lemma AddressCrosses(mode: Mode, other: Mode, cr: CommandResponse)
    requires mode.mlp == other.mlp && mode.dce != other.dce
    ensures Address(other, cr) == Address(Peer(mode), cr)
  {
  }

  /**
   * Whatever arrives, a decoded frame has a known or unknown type but never the illegal one, and
   * the sequence numbers of I and S frames are below the modulus.
   */
  lemma DecodedInRange(mode: Mode, skb: seq<byte>, junk: Frame)
    ensures var d := Decode(mode, skb, junk);
            d.Decoded? ==>
              && !d.frame.ftype.Illegal?
              && (d.frame.ftype.I? ==> d.frame.ns < Modulus(mode))
              && (d.frame.ftype.I? || IsSupervisory(d.frame.ftype) ==> d.frame.nr < Modulus(mode))
  {
    LowBits();
  }

  lemma LowBits()
    ensures forall b: byte {:trigger (b >> 1) & 0x7F} :: ((b >> 1) & 0x7F) as nat < 128
    ensures forall b: byte {:trigger (b >> 1) & 0x07} :: ((b >> 1) & 0x07) as nat < 8
    ensures forall b: byte {:trigger (b >> 5) & 0x07} :: ((b >> 5) & 0x07) as nat < 8
  {
  }
}
