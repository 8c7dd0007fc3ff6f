/**
 * What an endpoint says to the other end and tells its user, kind by kind: which stimuli call for
 * a UA, a DM, a connect command, a DISC, a FRMR, a REJ or an RR, which lead from one link state to
 * another, and which callback reports what reason.
 */
module X75Signals {
  import opened Modular
  import opened X75Types
  import opened X75Spec
  import opened X75Frame
  import opened X75Window

  // ---- Stimuli ---------------------------------------------------------------------------------

  /** A connect command of the modulus this end uses. */
  predicate Offered(s: Cb, e: Event) {
    e.Receive? && if s.conf.mode.extended then e.frame.ftype.SABME? else e.frame.ftype.SABM?
  }

  /** A connect command of the other modulus. */
  predicate Misoffered(s: Cb, e: Event) {
    e.Receive? && if s.conf.mode.extended then e.frame.ftype.SABM? else e.frame.ftype.SABME?
  }

  predicate Final(e: Event, t: FrameType) {
    e.Receive? && e.frame.ftype == t && e.frame.pf
  }

  predicate HasNr(t: FrameType) {
    t.I? || t.RR? || t.RNR? || t.REJ?
  }

  /** T1 expires and retries are left. */
  predicate Retries(s: Cb, e: Event) {
    T1Fires(s, e) && s.n2count != s.conf.n2
  }

  /** T1 expires and none are. */
  predicate Exhausts(s: Cb, e: Event) {
    T1Fires(s, e) && s.n2count == s.conf.n2 && !s.state.Disconnected?
  }

  /** A frame that cannot be accepted in the data transfer state. */
  predicate Unacceptable(s: Cb, e: Event) {
    && e.Receive? && s.state.Connected?
    && (e.frame.ftype.Illegal? || (HasNr(e.frame.ftype) && !ValidNr(s, e.frame.nr)))
  }

  predicate ValidInfo(s: Cb, e: Event) {
    e.Receive? && s.state.Connected? && e.frame.ftype.I? && ValidNr(s, e.frame.nr)
  }

  predicate OutOfSequence(s: Cb, e: Event) {
    ValidInfo(s, e) && e.frame.ns != s.vr
  }

  // ---- Link states -----------------------------------------------------------------------------

  predicate Opens(s: Cb, e: Event) {
    || (Offered(s, e) && (s.state.Disconnected? || s.state.Connected? || s.state.FrameReject?))
    || (Final(e, UA) && s.state.AwaitingConnection?)
  }

  /** The end starts to ask for a connection. */
  predicate Seeks(s: Cb, e: Event) {
    || (e.ConnectRequest? && (s.state.Disconnected? || s.state.AwaitingRelease?))
    || (e.Receive? && e.frame.ftype.FRMR? && s.state.Connected?)
    || (T1Fires(s, e) && s.state.Disconnected? && !(s.conf.mode.dce && s.n2count != s.conf.n2))
  }

  predicate Releases(s: Cb, e: Event) {
    e.DisconnectRequest? && (s.state.Connected? || s.state.FrameReject?)
  }

  predicate Closes(s: Cb, e: Event) {
    || (e.Receive? && (e.frame.ftype.DISC? || e.frame.ftype.DM?) && s.state.Connected?)
    || (Final(e, DM) && (s.state.AwaitingConnection? || s.state.AwaitingRelease?))
    || (Final(e, UA) && s.state.AwaitingRelease?)
    || (e.DisconnectRequest? && s.state.AwaitingConnection?)
    || Exhausts(s, e)
  }

  function NextState(s: Cb, e: Event): LinkState {
    if Opens(s, e) then Connected
    else if Closes(s, e) then Disconnected
    else if Seeks(s, e) then AwaitingConnection
    else if Releases(s, e) then AwaitingRelease
    else if Unacceptable(s, e) then FrameReject
    else s.state
  }

  // ---- Callbacks -------------------------------------------------------------------------------

  /** The callback of the step, with its reason. */
  function Told(s: Cb, e: Event): seq<Notice> {
    if Opens(s, e) then
      if s.state.AwaitingConnection? then [ConnectConfirmation(Ok)]
      else if s.state.Connected? then []
      else [ConnectIndication(Ok)]
    else if Closes(s, e) && !e.DisconnectRequest? then
      if s.state.AwaitingRelease? then [DisconnectConfirmation(ReleaseReason(e))]
      else [DisconnectIndication(LossReason(s, e))]
    else []
  }

  /** A release is confirmed by a UA, found done by a DM, or given up. */
  function ReleaseReason(e: Event): Reason {
    if !e.Receive? then TimedOut else if e.frame.ftype.UA? then Ok else NotConnected
  }

  /** A connection is ended by a DISC, found gone by a DM, refused by a DM, or given up. */
  function LossReason(s: Cb, e: Event): Reason {
    if !e.Receive? then TimedOut
    else if e.frame.ftype.DISC? then Ok
    else if s.state.Connected? then NotConnected
    else Refused
  }

  // ---- Frames ----------------------------------------------------------------------------------

  predicate Disc(e: Event) {
    e.Receive? && e.frame.ftype.DISC?
  }

  predicate SaysUa(s: Cb, e: Event) {
    || (Offered(s, e) && !s.state.AwaitingRelease?)
    || (Disc(e) && (s.state.Disconnected? || s.state.AwaitingRelease? || s.state.Connected?))
  }

  predicate SaysDm(s: Cb, e: Event) {
    || (Misoffered(s, e) && !s.state.AwaitingRelease?)
    || (Disc(e) && s.state.AwaitingConnection?)
    || (s.state.AwaitingRelease? && (Offered(s, e) || Misoffered(s, e)))
    || (s.state.AwaitingRelease? && e.Receive? && HasNr(e.frame.ftype) && e.frame.pf)
  }

  predicate SaysConnect(s: Cb, e: Event) {
    Seeks(s, e) || (Retries(s, e) && s.state.AwaitingConnection?)
  }

  predicate SaysDisc(s: Cb, e: Event) {
    || Releases(s, e)
    || (e.DisconnectRequest? && s.state.AwaitingConnection?)
    || (Retries(s, e) && s.state.AwaitingRelease?)
  }

  /** W for an undefined control field, Z for an N(R) out of range. */
  function FrmrReason(f: Frame): bv8 {
    if f.ftype.Illegal? then 0x01 else 0x08
  }

  function Frmr(s: Cb, f: Frame, reason: bv8): Pdu {
    FrmrFrame(f.control0, f.control1, s.flow.vs, s.vr, f.cr, reason)
  }

  /** The unnumbered frame that the stimulus calls for. */
  function Signals(s: Cb, e: Event): seq<Pdu> {
    if SaysUa(s, e) then [UFrame(UA, e.frame.pf, Response)]
    else if SaysDm(s, e) then [UFrame(DM, e.frame.pf, Response)]
    else if Retries(s, e) && s.state.Disconnected? && s.conf.mode.dce then [UFrame(DM, false, Response)]
    else if SaysConnect(s, e) then [UFrame(if s.conf.mode.extended then SABME else SABM, true, Command)]
    else if SaysDisc(s, e) then [UFrame(DISC, true, Command)]
    else if Unacceptable(s, e) then [Frmr(s, e.frame, FrmrReason(e.frame))]
    else if Retries(s, e) && s.state.FrameReject? then [Frmr(s, s.frmrData, s.frmrType)]
    else []
  }

  predicate T2Due(s: Cb, e: Event) {
    && s.cond.ackPending && s.t2.running
    && ((e.FireT2? && s.t2.armed && s.t2.handler.T2Expiry?)
        || (e.FireT1? && s.t1.armed && s.t1.handler.T2Expiry? && !s.t2.armed))
  }

  /** A poll that is answered by an RR. */
  predicate Enquired(s: Cb, e: Event) {
    && e.Receive? && s.state.Connected? && e.frame.pf
    && (if e.frame.ftype.I? then ValidInfo(s, e) && (OutOfSequence(s, e) ==> s.cond.reject)
        else IsSupervisory(e.frame.ftype) && e.frame.cr.Command?)
  }

  /** N(R) of what is sent after the stimulus: one more if it brought the expected frame. */
  function Expected(s: Cb, e: Event): nat {
    if ValidInfo(s, e) && e.frame.ns == s.vr then Wrap(s.vr + 1, s.M()) else s.vr
  }

  /** The supervisory frame that the stimulus calls for. */
  function Acks(s: Cb, e: Event): seq<Pdu> {
    if Enquired(s, e) then [SFrame(RR, Expected(s, e), true, Response)]
    else if OutOfSequence(s, e) && !s.cond.reject then [SFrame(REJ, s.vr, e.frame.pf, Response)]
    else if T2Due(s, e) then [SFrame(RR, s.vr, false, Response)]
    else []
  }

  // ---- The endpoint does just that -------------------------------------------------------------

  /** The link state and the callback are those the stimulus calls for. */
  predicate Goes(s: Cb, e: Event, t: Cb) {
    t.state == NextState(s, e) && t.log.notices == s.log.notices + Told(s, e)
  }

  predicate Says(s: Cb, e: Event, t: Cb, sent: seq<Pdu>) {
    t.log.sent == s.log.sent + sent && Goes(s, e, t)
  }

  lemma Nothing(s: Cb)
    ensures s.log.sent + [] == s.log.sent && s.log.notices + [] == s.log.notices
  {
  }

  lemma NothingMore(u: seq<Pdu>)
    ensures u + [] == u && [] + u == u
  {
  }

  lemma Machine0Says(s: Cb, f: Frame, data: seq<bv8>)
    requires s.state.Disconnected?
    ensures Says(s, Receive(f, data), Machine0(s, f), Signals(s, Receive(f, data)))
  {
    Nothing(s);
    match f.ftype
    case SABM | SABME =>
    case DISC =>
    case _ =>
  }

  lemma Machine1Says(s: Cb, f: Frame, data: seq<bv8>)
    requires s.state.AwaitingConnection?
    ensures Says(s, Receive(f, data), Machine1(s, f), Signals(s, Receive(f, data)))
  {
    Nothing(s);
    match f.ftype
    case SABM | SABME =>
    case DISC =>
    case UA =>
    case DM =>
    case _ =>
  }

  lemma Machine2Says(s: Cb, f: Frame, data: seq<bv8>)
    requires s.state.AwaitingRelease?
    ensures Says(s, Receive(f, data), Machine2(s, f), Signals(s, Receive(f, data)))
  {
    Nothing(s);
    match f.ftype
    case SABM | SABME | DISC =>
    case UA | DM =>
    case I | RR | RNR | REJ =>
    case _ =>
  }

  lemma Machine4Says(s: Cb, f: Frame, data: seq<bv8>)
    requires s.state.FrameReject?
    ensures Says(s, Receive(f, data), Machine4(s, f), Signals(s, Receive(f, data)))
  {
    Nothing(s);
    match f.ftype
    case SABM | SABME =>
    case _ =>
  }

  lemma UnnumberedSays(s: Cb, f: Frame, data: seq<bv8>)
    requires s.state.Connected? && !HasNr(f.ftype)
    ensures Says(s, Receive(f, data), Machine3(s, f, data), Signals(s, Receive(f, data)))
  {
    Nothing(s);
    match f.ftype
    case SABM | SABME =>
    case DISC | DM =>
    case FRMR =>
    case _ =>
  }

  lemma HeadSays(s: Cb, f: Frame, data: seq<bv8>)
    requires s.state.Connected? && IsSupervisory(f.ftype)
    ensures SupervisoryHead(s, f).log.sent == s.log.sent + Acks(s, Receive(f, data))
  {
    Nothing(s);
  }

  /** What is left to do for a numbered frame once it has been answered: nothing, or a FRMR. */
  lemma TailSays(s: Cb, s1: Cb, f: Frame, data: seq<bv8>)
    requires s.state.Connected? && IsSupervisory(f.ftype)
    requires s1.state == s.state && s1.flow == s.flow && s1.vr == s.vr && s1.conf == s.conf
    requires s1.log.notices == s.log.notices
    ensures var (t, e) := (SupervisoryTail(s1, f), Receive(f, data));
            t.log.sent == s1.log.sent + Signals(s, e) && Goes(s, e, t)
  {
    Nothing(s1);
    AckingKeeps(s1, f.nr);
    FrameRejectKeeps(s1, f, FRMR_Z);
  }

  lemma SupervisorySays(s: Cb, f: Frame, data: seq<bv8>)
    requires s.state.Connected? && IsSupervisory(f.ftype)
    ensures Says(s, Receive(f, data), Supervisory(s, f), Acks(s, Receive(f, data)) + Signals(s, Receive(f, data)))
  {
    var e := Receive(f, data);
    HeadKeeps(s, f);
    HeadSays(s, f, data);
    TailSays(s, SupervisoryHead(s, f), f, data);
    Joined(s.log.sent, Acks(s, e), Signals(s, e));
  }

  lemma Joined(xs: seq<Pdu>, a: seq<Pdu>, u: seq<Pdu>)
    ensures (xs + a) + u == xs + (a + u)
  {
  }

  lemma InfoTailSays(s: Cb, s1: Cb, f: Frame, data: seq<bv8>)
    requires s.state.Connected? && f.ftype.I? && ValidNr(s, f.nr) && OnlyAcks(s, s1)
    ensures InfoTail(s1, f, data).log.sent == s.log.sent + Acks(s, Receive(f, data))
  {
    Nothing(s);
  }

  lemma InfoSays(s: Cb, f: Frame, data: seq<bv8>)
    requires s.state.Connected? && f.ftype.I?
    ensures Says(s, Receive(f, data), Info(s, f, data), Acks(s, Receive(f, data)) + Signals(s, Receive(f, data)))
  {
    var e := Receive(f, data);
    if ValidNr(s, f.nr) {
      Nothing(s);
      AckingKeeps(s, f.nr);
      InfoTailKeeps(AckFromInfo(s, f.nr), f, data);
      InfoTailSays(s, AckFromInfo(s, f.nr), f, data);
      NothingMore(Acks(s, e));
      assert Signals(s, e) == [];
    } else {
      BadInfoSays(s, f, data);
      NothingMore(Signals(s, e));
    }
  }

  lemma BadInfoSays(s: Cb, f: Frame, data: seq<bv8>)
    requires s.state.Connected? && f.ftype.I? && !ValidNr(s, f.nr)
    ensures Acks(s, Receive(f, data)) == []
    ensures Says(s, Receive(f, data), Info(s, f, data), Signals(s, Receive(f, data)))
  {
    Nothing(s);
  }

  lemma MachineSays(s: Cb, f: Frame, data: seq<bv8>)
    ensures Says(s, Receive(f, data), Machine(s, f, data), Acks(s, Receive(f, data)) + Signals(s, Receive(f, data)))
  {
    match s.state
    case Disconnected => Machine0Says(s, f, data);
    case AwaitingConnection => Machine1Says(s, f, data);
    case AwaitingRelease => Machine2Says(s, f, data);
    case FrameReject => Machine4Says(s, f, data);
    case Connected =>
      if IsSupervisory(f.ftype) {
        SupervisorySays(s, f, data);
      } else if f.ftype.I? {
        InfoSays(s, f, data);
      } else {
        UnnumberedSays(s, f, data);
      }
  }

  /** `p` is the I frame for entry n of the ack queue: without poll bit and with the current V(R). */
  predicate InfoFor(t: Cb, p: Pdu, n: int) {
    0 <= n < |t.flow.ackQ| == |t.flow.ackNs| ==> p == IFrame(t.flow.ackNs[n], t.vr, false, t.flow.ackQ[n].data)
  }

  /** The I frames for the newest entries of the ack queue; none to a busy peer. */
  predicate Infos(t: Cb, ps: seq<Pdu>) {
    && |ps| <= |t.flow.ackQ| && (t.cond.peerBusy ==> ps == [])
    && forall i :: 0 <= i < |ps| ==> ps[i].IFrame? && InfoFor(t, ps[i], |t.flow.ackQ| - |ps| + i)
  }

  lemma KickSays(s: Cb) returns (infos: seq<Pdu>)
    ensures var t := Kick(s);
            && Infos(t, infos) && t.log.sent == s.log.sent + infos
            && t.state == s.state && t.log.notices == s.log.notices && t.vr == s.vr
  {
    infos := if KickEnabled(s) then NextBurst(s) else [];
    if KickEnabled(s) {
      KickSizes(s);
    }
  }

  lemma KickSizes(s: Cb)
    requires KickEnabled(s)
    ensures Infos(Kick(s), NextBurst(s))
  {
    var (t, k) := (Kick(s), SendCount(s.conf, s.flow));
    assert |t.flow.ackQ| == |s.flow.ackQ| + k && |t.flow.ackNs| == |s.flow.ackNs| + k;
    assert |NextBurst(s)| == k;
  }

  /** T1 expires in the data transfer state: everything unacknowledged goes out again. */
  lemma RetransmitSays(s: Cb, s1: Cb) returns (infos: seq<Pdu>)
    requires Retries(s, FireT1) && s.state.Connected? && s1 == s.(t1 := s.t1.(armed := false))
    ensures var t := T1Body(s1); Infos(t, infos) && Says(s, FireT1, t, infos)
  {
    infos := KickSays(Requeue(Retry(s1)));
    var u := Kick(Requeue(Retry(s1)));
    assert T1Body(s1) == StartT1(u);
    assert Infos(StartT1(u), infos);
    Nothing(s);
  }

  lemma RepeatSays(s: Cb, s1: Cb)
    requires T1Fires(s, FireT1) && s1 == s.(t1 := s.t1.(armed := false))
    requires s.state.Connected? ==> s.n2count == s.conf.n2
    ensures Says(s, FireT1, T1Body(s1), Signals(s, FireT1))
  {
    Nothing(s);
  }

  lemma T1BodySays(s: Cb, s1: Cb) returns (infos: seq<Pdu>)
    requires T1Fires(s, FireT1) && s1 == s.(t1 := s.t1.(armed := false))
    ensures var t := T1Body(s1); Infos(t, infos) && Says(s, FireT1, t, Signals(s, FireT1) + infos)
  {
    infos := [];
    if s.state.Connected? && s.n2count != s.conf.n2 {
      infos := RetransmitSays(s, s1);
      NothingMore(infos);
      assert Signals(s, FireT1) == [];
    } else {
      RepeatSays(s, s1);
      NothingMore(Signals(s, FireT1));
    }
  }

  lemma T2RoutineSays(s: Cb, e: Event, s1: Cb)
    requires e == FireT2 || (e == FireT1 && !T1Fires(s, e))
    requires s1.log == s.log && s1.state == s.state && s1.cond == s.cond && s1.vr == s.vr
    requires T2Due(s, e) <==> s1.cond.ackPending && s1.t2.running && !s1.t2.armed
    ensures Says(s, e, T2Routine(s1), Acks(s, e))
  {
    Nothing(s);
  }

  lemma T1Says(s: Cb) returns (infos: seq<Pdu>)
    ensures var t := Step(s, FireT1);
            Infos(t, infos) && Says(s, FireT1, t, Acks(s, FireT1) + Signals(s, FireT1) + infos)
  {
    infos := [];
    Nothing(s);
    var s1 := s.(t1 := s.t1.(armed := false));
    if T1Fires(s, FireT1) {
      infos := T1BodySays(s, s1);
      assert Step(s, FireT1) == T1Body(s1) && Acks(s, FireT1) == [];
    } else if s.t1.armed && s.t1.handler.T2Expiry? {
      T2RoutineSays(s, FireT1, s1);
    }
  }

  lemma T2Says(s: Cb)
    ensures Says(s, FireT2, Step(s, FireT2), Acks(s, FireT2))
  {
    Nothing(s);
    if s.t2.armed && s.t2.handler.T2Expiry? {
      T2RoutineSays(s, FireT2, s.(t2 := s.t2.(armed := false)));
    }
  }

  lemma RequestSays(s: Cb, e: Event) returns (infos: seq<Pdu>)
    requires e.ConnectRequest? || e.DisconnectRequest? || e.DataRequest?
    ensures var t := Step(s, e);
            && Infos(t, infos) && Says(s, e, t, Acks(s, e) + Signals(s, e) + infos)
  {
    infos := [];
    NothingMore(Signals(s, e));
    match e
    case ConnectRequest => ConnectReqSays(s);
    case DisconnectRequest => DisconnectReqSays(s);
    case DataRequest(msg) => infos := DataReqSays(s, msg);
  }

  lemma DataReqSays(s: Cb, msg: Msgb) returns (infos: seq<Pdu>)
    ensures var (t, e) := (DataReq(s, msg), DataRequest(msg));
            && Infos(t, infos) && Says(s, e, t, infos) && Acks(s, e) == Signals(s, e) == [] && [] + [] + infos == infos
  {
    infos := [];
    Nothing(s);
    if TakesData(s) {
      infos := KickSays(s.(flow := Enqueued(s.flow, msg)));
    }
  }

  lemma ConnectReqSays(s: Cb)
    ensures Says(s, ConnectRequest, ConnectReq(s), Signals(s, ConnectRequest))
  {
    Nothing(s);
  }

  lemma DisconnectReqSays(s: Cb)
    ensures Says(s, DisconnectRequest, DisconnectReq(s), Signals(s, DisconnectRequest))
  {
    Nothing(s);
  }

  /**
   * For every stimulus in every state: the supervisory frame it calls for, the unnumbered frame it
   * calls for, and then the newest entries of the ack queue, none of them to a busy peer; the link
   * state it leads to; and the callback it causes.
   */
  lemma SignalsStep(s: Cb, e: Event) returns (infos: seq<Pdu>)
    ensures var t := Step(s, e);
            && Infos(t, infos) && Says(s, e, t, Acks(s, e) + Signals(s, e) + infos)
  {
    match e
    case Receive(f, data) =>
      MachineSays(s, f, data);
      infos := KickSays(Machine(s, f, data));
      Joined(s.log.sent, Acks(s, e) + Signals(s, e), infos);
    case FireT1 => infos := T1Says(s);
    case FireT2 =>
      T2Says(s);
      infos := [];
    case _ => infos := RequestSays(s, e);
  }
}
