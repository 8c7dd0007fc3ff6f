/**
 * Specification functions of the X.75 operations. Loops of the source appear here in closed form;
 * module X75Link proves that its loops compute exactly these functions.
 */
module X75Spec {
  import opened Modular
  import opened X75Types

  // ---- Timers ----------------------------------------------------------------------------

  const T1_STARTED := Timer(true, true, T1Expiry)
  const T2_STARTED := Timer(true, true, T2Expiry)

  function Stopped(t: Timer): Timer {
    Timer(false, false, t.handler)
  }

  function StartT1(s: Cb): Cb {
    s.(t1 := T1_STARTED)
  }

  function StopT1(s: Cb): Cb {
    s.(t1 := Stopped(s.t1))
  }

  /** As written, the T2 handler is installed on the T1 timer and T2 keeps whatever it had. */
  function StartT2(s: Cb): Cb {
    if s.conf.repairs.ownT2 then
      s.(t2 := T2_STARTED)
    else
      s.(t2 := Timer(true, true, s.t2.handler), t1 := s.t1.(handler := T2Expiry))
  }

  function StopT2(s: Cb): Cb {
    s.(t2 := Stopped(s.t2))
  }

  // ---- Transmission ----------------------------------------------------------------------

  function Transmit(s: Cb, p: Pdu): Cb {
    s.(log := s.log.(sent := s.log.sent + [p],
                     lastNr := if p.IFrame? || p.SFrame? then p.nr else s.log.lastNr))
  }

  function ControlPdu(vr: nat, t: FrameType, pf: bool, cr: CommandResponse): Pdu {
    if IsSupervisory(t) then SFrame(t, vr, pf, cr) else UFrame(t, pf, cr)
  }

  function SendControl(s: Cb, t: FrameType, pf: bool, cr: CommandResponse): Cb {
    Transmit(s, ControlPdu(s.vr, t, pf, cr))
  }

  function TransmitFrmr(s: Cb): Cb {
    Transmit(s, FrmrFrame(s.frmrData.control0, s.frmrData.control1, s.flow.vs, s.vr, s.frmrData.cr, s.frmrType))
  }

  function SetAckPending(s: Cb, b: bool): Cb {
    s.(cond := s.cond.(ackPending := b))
  }

  function EnquiryResponse(s: Cb): Cb {
    SetAckPending(SendControl(s, RR, true, Response), false)
  }

  function TimeoutResponse(s: Cb): Cb {
    SetAckPending(SendControl(s, RR, false, Response), false)
  }

  function CheckNeedResponse(s: Cb, cr: CommandResponse, pf: bool): Cb {
    if cr == Command && pf then EnquiryResponse(s) else s
  }

  function ConnectType(mode: Mode): FrameType {
    if mode.extended then SABME else SABM
  }

  function EstablishDataLink(s: Cb): Cb {
    StopT2(StartT1(SendControl(s.(cond := NO_CONDITION, n2count := 0), ConnectType(s.conf.mode), true, Command)))
  }

  // ---- Queues ----------------------------------------------------------------------------

  function Cleared(q: Flow): Flow {
    q.(released := q.released + q.ackQ + q.writeQ, ackQ := [], writeQ := [], ackNs := [])
  }

  function ClearQueues(s: Cb): Cb {
    s.(flow := Cleared(s.flow))
  }

  /** Number of frames that an acknowledgement up to `nr` frees. */
  function AckCount(m: nat, q: Flow, nr: nat): (k: nat)
    ensures k <= |q.ackQ|
  {
    Min(|q.ackQ|, Gap(q.va, nr, m))
  }

  function Acked(m: nat, q: Flow, nr: nat): Flow {
    var k := AckCount(m, q, nr);
    q.(released := q.released + q.ackQ[..k], ackQ := q.ackQ[k..], ackNs := Dropped(q.ackNs, k),
       va := Wrap(q.va + k, m))
  }

  function Dropped(ns: seq<nat>, k: nat): seq<nat> {
    if k <= |ns| then ns[k..] else []
  }

  function FramesAcked(s: Cb, nr: nat): Cb {
    s.(flow := Acked(s.M(), s.flow, nr))
  }

  function Requeued(repairs: Repairs, q: Flow): Flow {
    q.(writeQ := if repairs.headRequeue then q.ackQ + q.writeQ else q.writeQ + q.ackQ,
       ackQ := [], ackNs := [])
  }

  function Requeue(s: Cb): Cb {
    s.(flow := Requeued(s.conf.repairs, s.flow))
  }

  predicate ValidNr(s: Cb, nr: nat) {
    Gap(s.flow.va, nr, s.M()) <= Gap(s.flow.va, s.flow.vs, s.M())
  }

  function CheckIframesAcked(s: Cb, nr: nat): Cb {
    if s.flow.vs == nr then
      StopT1(FramesAcked(s, nr)).(n2count := 0)
    else if s.flow.va != nr then
      StartT1(FramesAcked(s, nr))
    else
      s
  }

  // ---- The window sender -----------------------------------------------------------------

  function SendStart(q: Flow): nat {
    if q.ackQ == [] then q.va else q.vs
  }

  function SendEnd(c: Conf, q: Flow): nat {
    Wrap(q.va + c.window, c.M())
  }

  predicate CanSend(c: Conf, q: Flow) {
    SendStart(q) != SendEnd(c, q) && q.writeQ != []
  }

  /** How many frames one call transmits: the open part of the window or the whole queue. */
  function SendCount(c: Conf, q: Flow): (k: nat)
    ensures k <= |q.writeQ|
  {
    if CanSend(c, q) then Min(|q.writeQ|, Gap(SendStart(q), SendEnd(c, q), c.M())) else 0
  }

  function Numbers(m: nat, start: nat, k: nat): (ns: seq<nat>)
    ensures |ns| == k
    ensures forall i :: 0 <= i < k ==> ns[i] == Wrap(start + i, m)
  {
    seq<nat>(k, i requires 0 <= i < k => Wrap(start + i, m))
  }

  function Advanced(c: Conf, q: Flow): Flow {
    if CanSend(c, q) then
      var k := SendCount(c, q);
      q.(vs := Wrap(SendStart(q) + k, c.M()),
         ackQ := q.ackQ + q.writeQ[..k],
         ackNs := q.ackNs + Numbers(c.M(), SendStart(q), k),
         writeQ := q.writeQ[k..])
    else q
  }

  function Burst(m: nat, start: nat, vr: nat, msgs: seq<Msgb>): (b: seq<Pdu>)
    ensures |b| == |msgs|
    ensures forall i :: 0 <= i < |b| ==> b[i] == IFrame(Wrap(start + i, m), vr, false, msgs[i].data)
  {
    seq(|msgs|, i requires 0 <= i < |msgs| => IFrame(Wrap(start + i, m), vr, false, msgs[i].data))
  }

  /** The I frames the next Kick transmits. */
  function NextBurst(s: Cb): (b: seq<Pdu>) {
    Burst(s.M(), SendStart(s.flow), s.vr, s.flow.writeQ[..SendCount(s.conf, s.flow)])
  }

  predicate KickEnabled(s: Cb) {
    !s.cond.peerBusy && CanSend(s.conf, s.flow)
  }

  function Kick(s: Cb): Cb {
    if KickEnabled(s) then
      s.(flow := Advanced(s.conf, s.flow),
         log := s.log.(sent := s.log.sent + NextBurst(s), lastNr := s.vr),
         cond := s.cond.(ackPending := false),
         t1 := if s.t1.running then s.t1 else T1_STARTED)
    else
      s
  }

  // ---- Received frames, one function per link state ---------------------------------------

  function Notify(s: Cb, n: Notice): Cb {
    s.(log := s.log.(notices := s.log.notices + [n]))
  }

  /** Timers stopped, conditions cleared, V(S), V(R) and V(A) zeroed. */
  function ResetVariables(s: Cb): Cb {
    s.(t1 := Stopped(s.t1), t2 := Stopped(s.t2), cond := NO_CONDITION, n2count := 0, vr := 0,
       flow := s.flow.(vs := 0, va := 0), log := s.log.(lastNr := 0))
  }

  /** The resets of states 0, 1 and 4: as written the unacknowledged frames stay where they are. */
  function ResetInPlace(s: Cb): Cb {
    var s1 := ResetVariables(s).(state := Connected);
    if s.conf.repairs.resetRequeue then Requeue(s1) else s1
  }

  function GoDisconnected(s: Cb, n: Notice): Cb {
    Notify(StopT2(StartT1(s.(state := Disconnected))), n)
  }

  function Machine0(s: Cb, f: Frame): Cb {
    match f.ftype
    case SABM | SABME =>
      if f.ftype == ConnectType(s.conf.mode) then
        Notify(ResetInPlace(SendControl(s, UA, f.pf, Response)), ConnectIndication(Ok))
      else
        SendControl(s, DM, f.pf, Response)
    case DISC => SendControl(s, UA, f.pf, Response)
    case _ => s
  }

  function Machine1(s: Cb, f: Frame): Cb {
    match f.ftype
    case SABM | SABME =>
      SendControl(s, if f.ftype == ConnectType(s.conf.mode) then UA else DM, f.pf, Response)
    case DISC => SendControl(s, DM, f.pf, Response)
    case UA =>
      if f.pf then Notify(ResetInPlace(s), ConnectConfirmation(Ok)) else s
    case DM =>
      if f.pf then GoDisconnected(ClearQueues(s), DisconnectIndication(Refused)) else s
    case _ => s
  }

  function Machine2(s: Cb, f: Frame): Cb {
    match f.ftype
    case SABM | SABME => SendControl(s, DM, f.pf, Response)
    case DISC => SendControl(s, UA, f.pf, Response)
    case UA =>
      if f.pf then GoDisconnected(s, DisconnectConfirmation(Ok)) else s
    case DM =>
      if f.pf then GoDisconnected(s, DisconnectConfirmation(NotConnected)) else s
    case I | RR | RNR | REJ =>
      if f.pf then SendControl(s, DM, f.pf, Response) else s
    case _ => s
  }

  const FRMR_W: bv8 := 0x01
  const FRMR_Z: bv8 := 0x08

  function EnterFrameReject(s: Cb, f: Frame, reason: bv8): Cb {
    StopT2(StartT1(TransmitFrmr(s.(frmrData := f, frmrType := reason)))).(state := FrameReject, n2count := 0)
  }

  /** RR, RNR and REJ up to the check of N(R). */
  function SupervisoryHead(s: Cb, f: Frame): Cb {
    CheckNeedResponse(s.(cond := s.cond.(peerBusy := f.ftype.RNR?)), f.cr, f.pf)
  }

  /** A REJ with a valid N(R): acknowledge, then everything else goes back to the write queue. */
  function GoBack(s: Cb, nr: nat): Cb {
    Requeue(StopT1(FramesAcked(s, nr)).(n2count := 0))
  }

  function SupervisoryTail(s: Cb, f: Frame): Cb {
    if !ValidNr(s, f.nr) then EnterFrameReject(s, f, FRMR_Z)
    else if f.ftype.REJ? then GoBack(s, f.nr)
    else CheckIframesAcked(s, f.nr)
  }

  function Supervisory(s: Cb, f: Frame): Cb {
    SupervisoryTail(SupervisoryHead(s, f), f)
  }

  /** Acknowledgement part of an I frame with a valid N(R). */
  function AckFromInfo(s: Cb, nr: nat): Cb {
    if s.cond.peerBusy then FramesAcked(s, nr) else CheckIframesAcked(s, nr)
  }

  /** An in-sequence I frame: deliver, then acknowledge now (poll) or later (T2). */
  function AcceptInfo(s: Cb, pf: bool, data: seq<bv8>): Cb {
    var s1 := s.(log := s.log.(delivered := s.log.delivered + [data]), vr := Wrap(s.vr + 1, s.M()),
                 cond := s.cond.(reject := false));
    if pf then EnquiryResponse(s1)
    else if s1.cond.ackPending then s1
    else StartT2(SetAckPending(s1, true))
  }

  /** An out-of-sequence I frame: at most one REJ until the gap closes. */
  function RefuseInfo(s: Cb, pf: bool): Cb {
    if s.cond.reject then
      if pf then EnquiryResponse(s) else s
    else
      SetAckPending(SendControl(s.(cond := s.cond.(reject := true)), REJ, pf, Response), false)
  }

  function InfoTail(s: Cb, f: Frame, data: seq<bv8>): Cb {
    if f.ns == s.vr then AcceptInfo(s, f.pf, data) else RefuseInfo(s, f.pf)
  }

  function Info(s: Cb, f: Frame, data: seq<bv8>): Cb {
    if ValidNr(s, f.nr) then InfoTail(AckFromInfo(s, f.nr), f, data) else EnterFrameReject(s, f, FRMR_Z)
  }

  function Machine3(s: Cb, f: Frame, data: seq<bv8>): Cb {
    match f.ftype
    case SABM | SABME =>
      if f.ftype == ConnectType(s.conf.mode) then
        Requeue(ResetVariables(SendControl(s, UA, f.pf, Response)))
      else
        SendControl(s, DM, f.pf, Response)
    case DISC => GoDisconnected(SendControl(ClearQueues(s), UA, f.pf, Response), DisconnectIndication(Ok))
    case DM => GoDisconnected(ClearQueues(s), DisconnectIndication(NotConnected))
    case RR | RNR | REJ => Supervisory(s, f)
    case I => Info(s, f, data)
    case FRMR => Requeue(EstablishDataLink(s)).(state := AwaitingConnection)
    case Illegal => EnterFrameReject(s, f, FRMR_W)
    case _ => s
  }

  function Machine4(s: Cb, f: Frame): Cb {
    match f.ftype
    case SABM | SABME =>
      if f.ftype == ConnectType(s.conf.mode) then
        Notify(ResetInPlace(SendControl(s, UA, f.pf, Response)), ConnectIndication(Ok))
      else
        SendControl(s, DM, f.pf, Response)
    case _ => s
  }

  function Machine(s: Cb, f: Frame, data: seq<bv8>): Cb {
    match s.state
    case Disconnected => Machine0(s, f)
    case AwaitingConnection => Machine1(s, f)
    case AwaitingRelease => Machine2(s, f)
    case Connected => Machine3(s, f, data)
    case FrameReject => Machine4(s, f)
  }

  function DataInput(s: Cb, f: Frame, data: seq<bv8>): Cb {
    Kick(Machine(s, f, data))
  }

  // ---- Timer expiry ----------------------------------------------------------------------

  /** N2 retries exhausted. */
  function GiveUp(s: Cb, n: Notice): Cb {
    Notify(ClearQueues(s).(state := Disconnected, t1 := s.t1.(running := false)), n)
  }

  function Retry(s: Cb): Cb {
    s.(n2count := s.n2count + 1)
  }

  function T1Body(s: Cb): Cb {
    match s.state
    case Disconnected =>
      if s.conf.mode.dce && s.n2count != s.conf.n2 then
        StartT1(SendControl(Retry(s), DM, false, Response))
      else
        StartT1(EstablishDataLink(s.(state := AwaitingConnection)))
    case AwaitingConnection =>
      if s.n2count == s.conf.n2 then GiveUp(s, DisconnectIndication(TimedOut))
      else StartT1(SendControl(Retry(s), ConnectType(s.conf.mode), true, Command))
    case AwaitingRelease =>
      if s.n2count == s.conf.n2 then GiveUp(s, DisconnectConfirmation(TimedOut))
      else StartT1(SendControl(Retry(s), DISC, true, Command))
    case Connected =>
      if s.n2count == s.conf.n2 then GiveUp(StopT2(s), DisconnectIndication(TimedOut))
      else StartT1(Kick(Requeue(Retry(s))))
    case FrameReject =>
      if s.n2count == s.conf.n2 then GiveUp(s, DisconnectIndication(TimedOut))
      else StartT1(TransmitFrmr(Retry(s)))
  }

  function T1Routine(s: Cb): Cb {
    if s.t1.armed || !s.t1.running then s else T1Body(s)
  }

  function T2Routine(s: Cb): Cb {
    if s.t2.armed || !s.t2.running then s else
    var s1 := if s.cond.ackPending then TimeoutResponse(s) else s;
    s1.(t2 := s1.t2.(running := false))
  }

  /** The osmo timer stops being pending, then its handler runs. */
  function FireT1Timer(s: Cb): Cb {
    if !s.t1.armed then s else
    var s1 := s.(t1 := s.t1.(armed := false));
    match s.t1.handler
    case NoHandler => s1
    case T1Expiry => T1Routine(s1)
    case T2Expiry => T2Routine(s1)
  }

  /** Nothing ever installs the T1 handler on T2. */
  function FireT2Timer(s: Cb): Cb {
    if !s.t2.armed then s else
    var s1 := s.(t2 := s.t2.(armed := false));
    if s.t2.handler.T2Expiry? then T2Routine(s1) else s1
  }

  // ---- Local requests --------------------------------------------------------------------

  function ConnectReq(s: Cb): Cb {
    if s.state.AwaitingConnection? || s.state.Connected? || s.state.FrameReject? then s
    else EstablishDataLink(s).(state := AwaitingConnection)
  }

  function DisconnectReq(s: Cb): Cb {
    match s.state
    case Disconnected | AwaitingRelease => s
    case AwaitingConnection =>
      StartT1(SendControl(s, DISC, true, Command).(state := Disconnected))
    case Connected | FrameReject =>
      StopT2(StartT1(SendControl(ClearQueues(s).(n2count := 0), DISC, true, Command))).(state := AwaitingRelease)
  }

  function Enqueued(q: Flow, msg: Msgb): Flow {
    q.(writeQ := q.writeQ + [msg], accepted := q.accepted + [msg])
  }

  predicate TakesData(s: Cb) {
    s.state.Connected? || s.state.FrameReject?
  }

  function DataReq(s: Cb, msg: Msgb): Cb {
    if TakesData(s) then Kick(s.(flow := Enqueued(s.flow, msg))) else s
  }

  // ---- All stimuli --------------------------------------------------------------------------

  function Step(s: Cb, e: Event): Cb {
    match e
    case Receive(f, data) => DataInput(s, f, data)
    case FireT1 => FireT1Timer(s)
    case FireT2 => FireT2Timer(s)
    case ConnectRequest => ConnectReq(s)
    case DisconnectRequest => DisconnectReq(s)
    case DataRequest(msg) => DataReq(s, msg)
  }

  /** A decoded frame carries sequence numbers below the modulus. */
  predicate InRange(m: nat, e: Event) {
    e.Receive? && (e.frame.ftype.I? || IsSupervisory(e.frame.ftype)) ==> e.frame.nr < m
  }
}
