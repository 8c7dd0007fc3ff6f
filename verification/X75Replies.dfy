/** What an endpoint transmits and announces: responses, rejects and connection callbacks. */
module X75Replies {
  import opened Modular
  import opened Runs
  import opened X75Types
  import opened X75Spec
  import opened X75Frame
  import opened X75Window

  // ---- Counting PDUs -----------------------------------------------------------------------

  function Count(p: Pdu -> bool, xs: seq<Pdu>): nat {
    if xs == [] then 0 else Count(p, xs[..|xs| - 1]) + (if p(xs[|xs| - 1]) then 1 else 0)
  }

  lemma CountAppend(p: Pdu -> bool, xs: seq<Pdu>, x: Pdu)
    ensures Count(p, xs + [x]) == Count(p, xs) + (if p(x) then 1 else 0)
  {
    assert (xs + [x])[..|xs|] == xs;
  }

  lemma {:induction false} CountNone(p: Pdu -> bool, xs: seq<Pdu>, ys: seq<Pdu>)
    requires forall i :: 0 <= i < |ys| ==> !p(ys[i])
    ensures Count(p, xs + ys) == Count(p, xs)
  {
    if ys == [] {
      assert xs + ys == xs;
    } else {
      var n := |ys| - 1;
      CountNone(p, xs, ys[..n]);
      assert xs + ys == (xs + ys[..n]) + [ys[n]];
      CountAppend(p, xs + ys[..n], ys[n]);
    }
  }

  lemma {:induction false} CountAll(p: Pdu -> bool, xs: seq<Pdu>, ys: seq<Pdu>)
    requires forall i :: 0 <= i < |ys| ==> p(ys[i])
    ensures Count(p, xs + ys) == Count(p, xs) + |ys|
  {
    if ys == [] {
      assert xs + ys == xs;
    } else {
      var n := |ys| - 1;
      CountAll(p, xs, ys[..n]);
      assert xs + ys == (xs + ys[..n]) + [ys[n]];
      CountAppend(p, xs + ys[..n], ys[n]);
    }
  }

  predicate IsFinal(p: Pdu) {
    (p.SFrame? || p.UFrame?) && p.cr.Response? && p.pf
  }

  predicate IsRej(p: Pdu) {
    p.SFrame? && p.ftype.REJ?
  }

  function Finals(s: Cb): nat {
    Count(IsFinal, s.log.sent)
  }

  function Rejs(s: Cb): nat {
    Count(IsRej, s.log.sent)
  }

  lemma Sending(s: Cb, p: Pdu)
    ensures Finals(Transmit(s, p)) == Finals(s) + (if IsFinal(p) then 1 else 0)
    ensures Rejs(Transmit(s, p)) == Rejs(s) + (if IsRej(p) then 1 else 0)
  {
    CountAppend(IsFinal, s.log.sent, p);
    CountAppend(IsRej, s.log.sent, p);
  }

  lemma SendingControl(s: Cb, t: FrameType, pf: bool, cr: CommandResponse)
    ensures Finals(SendControl(s, t, pf, cr)) == Finals(s) + (if pf && cr.Response? then 1 else 0)
    ensures Rejs(SendControl(s, t, pf, cr)) == Rejs(s) + (if t.REJ? then 1 else 0)
  {
    Sending(s, ControlPdu(s.vr, t, pf, cr));
  }

  lemma SendingFrmr(s: Cb, f: Frame, reason: bv8)
    ensures Finals(EnterFrameReject(s, f, reason)) == Finals(s)
    ensures Rejs(EnterFrameReject(s, f, reason)) == Rejs(s)
  {
    var s1 := s.(frmrData := f, frmrType := reason);
    Sending(s1, FrmrFrame(f.control0, f.control1, s.flow.vs, s.vr, f.cr, reason));
  }

  lemma KickReplies(s: Cb)
    ensures Finals(Kick(s)) == Finals(s) && Rejs(Kick(s)) == Rejs(s)
    ensures Kick(s).cond.reject == s.cond.reject && Kick(s).state == s.state
    ensures Kick(s).log.delivered == s.log.delivered && Kick(s).log.notices == s.log.notices
  {
    CountNone(IsFinal, s.log.sent, NextBurst(s));
    CountNone(IsRej, s.log.sent, NextBurst(s));
  }

  // ---- Every poll is answered exactly once -------------------------------------------------

  /** Frames to which the current state gives an answer mirroring the poll bit. */
  predicate Answerable(s: Cb, f: Frame) {
    match s.state
    case Disconnected | AwaitingConnection => f.ftype.SABM? || f.ftype.SABME? || f.ftype.DISC?
    case AwaitingRelease =>
      f.ftype.SABM? || f.ftype.SABME? || f.ftype.DISC? || f.ftype.I? || IsSupervisory(f.ftype)
    case Connected =>
      || f.ftype.SABM? || f.ftype.SABME? || f.ftype.DISC?
      || (f.ftype.I? && ValidNr(s, f.nr))
      || (IsSupervisory(f.ftype) && f.cr.Command?)
    case FrameReject => f.ftype.SABM? || f.ftype.SABME?
  }

  /** Event `e` is the out-of-sequence I frame that makes the endpoint reject. */
  predicate RejectsNow(s: Cb, e: Event) {
    && e.Receive? && s.state.Connected? && e.frame.ftype.I? && ValidNr(s, e.frame.nr)
    && e.frame.ns != s.vr && !s.cond.reject
  }

  predicate AcceptsNow(s: Cb, e: Event) {
    && e.Receive? && s.state.Connected? && e.frame.ftype.I? && ValidNr(s, e.frame.nr)
    && e.frame.ns == s.vr
  }

  /** The step zeroes the link variables or starts to establish the link anew. */
  predicate LinkReset(s: Cb, e: Event) {
    match e
    case Receive(f, _) =>
      (match s.state
       case Disconnected | FrameReject => ConnectFrame(s, f)
       case AwaitingConnection => f.ftype.UA? && f.pf
       case Connected => ConnectFrame(s, f) || f.ftype.FRMR?
       case AwaitingRelease => false)
    case ConnectRequest => s.state.Disconnected? || s.state.AwaitingRelease?
    case FireT1 => T1Fires(s, e) && s.state.Disconnected? && !(s.conf.mode.dce && s.n2count != s.conf.n2)
    case _ => false
  }

  /** How a step from `s` to `t` under `e` changes the counts. */
  predicate RepliesAs(s: Cb, e: Event, t: Cb) {
    && Finals(t) == Finals(s) + (if e.Receive? && e.frame.pf && Answerable(s, e.frame) then 1 else 0)
    && Rejs(t) == Rejs(s) + (if RejectsNow(s, e) then 1 else 0)
    && t.cond.reject == (RejectsNow(s, e) || (s.cond.reject && !AcceptsNow(s, e) && !LinkReset(s, e)))
    && |t.log.delivered| == |s.log.delivered| + (if AcceptsNow(s, e) then 1 else 0)
  }

  lemma HeadReplies(s: Cb, f: Frame)
    ensures var t := SupervisoryHead(s, f);
            && Finals(t) == Finals(s) + (if f.cr.Command? && f.pf then 1 else 0) && Rejs(t) == Rejs(s)
            && t.cond.reject == s.cond.reject && t.log.delivered == s.log.delivered
  {
    SendingControl(s.(cond := s.cond.(peerBusy := f.ftype.RNR?)), RR, true, Response);
  }

  lemma SupervisoryTailReplies(s: Cb, f: Frame)
    ensures var t := SupervisoryTail(s, f);
            && Finals(t) == Finals(s) && Rejs(t) == Rejs(s)
            && t.cond.reject == s.cond.reject && t.log.delivered == s.log.delivered
  {
    AckingKeeps(s, f.nr);
    SendingFrmr(s, f, FRMR_Z);
    FrameRejectKeeps(s, f, FRMR_Z);
  }

  lemma SupervisoryReplies(s: Cb, f: Frame)
    requires s.state.Connected? && IsSupervisory(f.ftype)
    ensures var t := Supervisory(s, f);
            && Finals(t) == Finals(s) + (if f.cr.Command? && f.pf then 1 else 0) && Rejs(t) == Rejs(s)
            && t.cond.reject == s.cond.reject && t.log.delivered == s.log.delivered
  {
    HeadReplies(s, f);
    SupervisoryTailReplies(SupervisoryHead(s, f), f);
  }

  lemma AcceptReplies(s: Cb, pf: bool, data: seq<bv8>)
    ensures var t := AcceptInfo(s, pf, data);
            Finals(t) == Finals(s) + (if pf then 1 else 0) && Rejs(t) == Rejs(s) && !t.cond.reject
            && |t.log.delivered| == |s.log.delivered| + 1
  {
    var s1 := s.(log := s.log.(delivered := s.log.delivered + [data]), vr := Wrap(s.vr + 1, s.M()),
                 cond := s.cond.(reject := false));
    SendingControl(s1, RR, true, Response);
  }

  lemma RefuseReplies(s: Cb, pf: bool)
    ensures var t := RefuseInfo(s, pf);
            Finals(t) == Finals(s) + (if pf then 1 else 0) && Rejs(t) == Rejs(s) + (if s.cond.reject then 0 else 1)
            && t.cond.reject && t.log.delivered == s.log.delivered
  {
    SendingControl(s, RR, true, Response);
    SendingControl(s.(cond := s.cond.(reject := true)), REJ, pf, Response);
  }

  lemma InfoReplies(s: Cb, f: Frame, data: seq<bv8>)
    requires s.state.Connected? && f.ftype.I?
    ensures RepliesAs(s, Receive(f, data), Info(s, f, data))
  {
    if ValidNr(s, f.nr) {
      AckingKeeps(s, f.nr);
      InfoTailReplies(AckFromInfo(s, f.nr), f, data);
    } else {
      SendingFrmr(s, f, FRMR_Z);
      FrameRejectKeeps(s, f, FRMR_Z);
    }
  }

  lemma InfoTailReplies(s: Cb, f: Frame, data: seq<bv8>)
    ensures var t, accepts := InfoTail(s, f, data), f.ns == s.vr;
            && Finals(t) == Finals(s) + (if f.pf then 1 else 0)
            && Rejs(t) == Rejs(s) + (if accepts || s.cond.reject then 0 else 1)
            && t.cond.reject == !accepts
            && |t.log.delivered| == |s.log.delivered| + (if accepts then 1 else 0)
  {
    AcceptReplies(s, f.pf, data);
    RefuseReplies(s, f.pf);
  }

  /** Nothing was sent or delivered. */
  predicate Mute(s: Cb, t: Cb) {
    t.log.sent == s.log.sent && t.log.delivered == s.log.delivered
  }

  /** At most one PDU was sent, which is no REJ; the reject condition was left alone or dropped. */
  predicate Answers(s: Cb, t: Cb, final: bool, reset: bool) {
    && (if t.log.sent == s.log.sent then !final
        else
          && |t.log.sent| == |s.log.sent| + 1
          && var p := t.log.sent[|s.log.sent|]; t.log.sent == s.log.sent + [p] && IsFinal(p) == final && !IsRej(p))
    && t.cond.reject == (s.cond.reject && !reset) && t.log.delivered == s.log.delivered
  }

  lemma ControlAnswers(s: Cb, t: FrameType, pf: bool, cr: CommandResponse)
    requires !t.REJ?
    ensures Answers(s, SendControl(s, t, pf, cr), pf && cr.Response?, false)
  {
    assert |SendControl(s, t, pf, cr).log.sent| != |s.log.sent|;
  }

  lemma ThenMute(s: Cb, t: Cb, u: Cb, final: bool, reset: bool)
    requires Answers(s, t, final, false) && Mute(t, u) && u.cond.reject == (t.cond.reject && !reset)
    ensures Answers(s, u, final, reset)
  {
  }

  lemma ResetMute(s: Cb, n: Notice)
    ensures var t := Notify(ResetInPlace(s), n); Mute(s, t) && !t.cond.reject
    ensures var t := Requeue(ResetVariables(s)); Mute(s, t) && !t.cond.reject
  {
  }

  lemma DisconnectingMute(s: Cb, n: Notice)
    ensures Mute(s, GoDisconnected(s, n)) && GoDisconnected(s, n).cond == s.cond
    ensures Mute(s, ClearQueues(s)) && ClearQueues(s).cond == s.cond
  {
  }

  lemma EstablishAnswers(s: Cb)
    ensures Answers(s, EstablishDataLink(s), false, true)
  {
    var s1 := s.(cond := NO_CONDITION, n2count := 0);
    var c := SendControl(s1, ConnectType(s.conf.mode), true, Command);
    ControlAnswers(s1, ConnectType(s.conf.mode), true, Command);
    assert Mute(c, EstablishDataLink(s)) && EstablishDataLink(s).cond == NO_CONDITION;
  }

  /** Accepting a SABM or SABME of the right kind, and refusing the other. */
  lemma ConnectAnswers(s: Cb, f: Frame, n: Notice)
    ensures Answers(s, Notify(ResetInPlace(SendControl(s, UA, f.pf, Response)), n), f.pf, true)
    ensures Answers(s, Requeue(ResetVariables(SendControl(s, UA, f.pf, Response))), f.pf, true)
    ensures Answers(s, SendControl(s, DM, f.pf, Response), f.pf, false)
  {
    var c := SendControl(s, UA, f.pf, Response);
    ControlAnswers(s, DM, f.pf, Response);
    ControlAnswers(s, UA, f.pf, Response);
    ResetMute(c, n);
    ThenMute(s, c, Notify(ResetInPlace(c), n), f.pf, true);
    ThenMute(s, c, Requeue(ResetVariables(c)), f.pf, true);
  }

  lemma Machine0Answers(s: Cb, f: Frame)
    ensures Answers(s, Machine0(s, f), f.pf && (f.ftype.SABM? || f.ftype.SABME? || f.ftype.DISC?), ConnectFrame(s, f))
  {
    match f.ftype
    case SABM | SABME => ConnectAnswers(s, f, ConnectIndication(Ok));
    case DISC => ControlAnswers(s, UA, f.pf, Response);
    case _ =>
  }

  lemma Machine1Answers(s: Cb, f: Frame)
    ensures Answers(s, Machine1(s, f), f.pf && (f.ftype.SABM? || f.ftype.SABME? || f.ftype.DISC?), f.ftype.UA? && f.pf)
  {
    match f.ftype
    case SABM | SABME => ControlAnswers(s, if f.ftype == ConnectType(s.conf.mode) then UA else DM, f.pf, Response);
    case DISC => ControlAnswers(s, DM, f.pf, Response);
    case UA => ResetMute(s, ConnectConfirmation(Ok));
    case DM =>
      DisconnectingMute(s, DisconnectIndication(Refused));
      DisconnectingMute(ClearQueues(s), DisconnectIndication(Refused));
    case _ =>
  }

  lemma Machine2Answers(s: Cb, f: Frame)
    ensures Answers(s, Machine2(s, f),
                    f.pf && (f.ftype.SABM? || f.ftype.SABME? || f.ftype.DISC? || f.ftype.I? || IsSupervisory(f.ftype)), false)
  {
    match f.ftype
    case SABM | SABME => ControlAnswers(s, DM, f.pf, Response);
    case DISC => ControlAnswers(s, UA, f.pf, Response);
    case UA => DisconnectingMute(s, DisconnectConfirmation(Ok));
    case DM => DisconnectingMute(s, DisconnectConfirmation(NotConnected));
    case I | RR | RNR | REJ => ControlAnswers(s, DM, f.pf, Response);
    case _ =>
  }

  lemma Machine4Answers(s: Cb, f: Frame)
    ensures Answers(s, Machine4(s, f), f.pf && (f.ftype.SABM? || f.ftype.SABME?), ConnectFrame(s, f))
  {
    match f.ftype
    case SABM | SABME => ConnectAnswers(s, f, ConnectIndication(Ok));
    case _ =>
  }

  lemma DisconnectedAnswers(s: Cb, f: Frame, data: seq<bv8>)
    requires f.ftype.DISC? || f.ftype.DM?
    ensures Answers(s, Machine3(s, f, data), f.pf && f.ftype.DISC?, false)
  {
    var c := ClearQueues(s);
    if f.ftype.DISC? {
      var u := SendControl(c, UA, f.pf, Response);
      ControlAnswers(c, UA, f.pf, Response);
      DisconnectingMute(u, DisconnectIndication(Ok));
      ThenMute(c, u, GoDisconnected(u, DisconnectIndication(Ok)), f.pf, false);
    } else {
      DisconnectingMute(c, DisconnectIndication(NotConnected));
    }
  }

  lemma FrmrAnswers(s: Cb, f: Frame, data: seq<bv8>)
    requires f.ftype.FRMR? || f.ftype.Illegal?
    ensures Answers(s, Machine3(s, f, data), false, f.ftype.FRMR?)
  {
    if f.ftype.FRMR? {
      EstablishAnswers(s);
      assert Mute(EstablishDataLink(s), Machine3(s, f, data));
    } else {
      var p := FrmrFrame(f.control0, f.control1, s.flow.vs, s.vr, f.cr, FRMR_W);
      FrameRejectKeeps(s, f, FRMR_W);
      assert Machine3(s, f, data).log.sent == s.log.sent + [p];
    }
  }

  lemma Machine3Answers(s: Cb, f: Frame, data: seq<bv8>)
    requires !IsSupervisory(f.ftype) && !f.ftype.I?
    ensures Answers(s, Machine3(s, f, data), f.pf && (f.ftype.SABM? || f.ftype.SABME? || f.ftype.DISC?),
                    ConnectFrame(s, f) || f.ftype.FRMR?)
  {
    match f.ftype
    case SABM | SABME => ConnectAnswers(s, f, ConnectIndication(Ok));
    case DISC | DM => DisconnectedAnswers(s, f, data);
    case FRMR | Illegal => FrmrAnswers(s, f, data);
    case _ =>
  }

  lemma AnswersCount(s: Cb, t: Cb, final: bool, reset: bool)
    requires Answers(s, t, final, reset)
    ensures Finals(t) == Finals(s) + (if final then 1 else 0) && Rejs(t) == Rejs(s)
  {
    if t.log.sent != s.log.sent {
      var p := t.log.sent[|s.log.sent|];
      CountAppend(IsFinal, s.log.sent, p);
      CountAppend(IsRej, s.log.sent, p);
    }
  }

  /** For everything but the I frames of state 3 the answer tells the whole story. */
  lemma AnswersSuffice(s: Cb, f: Frame, data: seq<bv8>, t: Cb)
    requires !(s.state.Connected? && f.ftype.I?)
    requires Answers(s, t, f.pf && Answerable(s, f), LinkReset(s, Receive(f, data)))
    ensures RepliesAs(s, Receive(f, data), t)
  {
    AnswersCount(s, t, f.pf && Answerable(s, f), LinkReset(s, Receive(f, data)));
  }

  lemma IdleReplies(s: Cb, f: Frame, data: seq<bv8>)
    requires !s.state.Connected?
    ensures RepliesAs(s, Receive(f, data), Machine(s, f, data))
  {
    match s.state {
      case Disconnected => Machine0Answers(s, f);
      case AwaitingConnection => Machine1Answers(s, f);
      case AwaitingRelease => Machine2Answers(s, f);
      case FrameReject => Machine4Answers(s, f);
    }
    AnswersSuffice(s, f, data, Machine(s, f, data));
  }

  lemma ConnectedReplies(s: Cb, f: Frame, data: seq<bv8>)
    requires s.state.Connected?
    ensures RepliesAs(s, Receive(f, data), Machine3(s, f, data))
  {
    if IsSupervisory(f.ftype) {
      SupervisoryReplies(s, f);
    } else if f.ftype.I? {
      InfoReplies(s, f, data);
    } else {
      Machine3Answers(s, f, data);
      AnswersSuffice(s, f, data, Machine3(s, f, data));
    }
  }

  lemma ReceiveReplies(s: Cb, f: Frame, data: seq<bv8>)
    ensures RepliesAs(s, Receive(f, data), DataInput(s, f, data))
  {
    if s.state.Connected? {
      ConnectedReplies(s, f, data);
    } else {
      IdleReplies(s, f, data);
    }
    KickReplies(Machine(s, f, data));
  }

  lemma FrmrRepeats(s: Cb)
    ensures Answers(s, StartT1(TransmitFrmr(s)), false, false)
  {
    var p := FrmrFrame(s.frmrData.control0, s.frmrData.control1, s.flow.vs, s.vr, s.frmrData.cr, s.frmrType);
    assert StartT1(TransmitFrmr(s)).log.sent == s.log.sent + [p];
  }

  lemma T1BodyAnswers(s: Cb)
    requires !s.state.Connected?
    ensures Answers(s, T1Body(s), false, s.state.Disconnected? && !(s.conf.mode.dce && s.n2count != s.conf.n2))
  {
    var s1 := Retry(s);
    match s.state
    case Disconnected =>
      ControlAnswers(s1, DM, false, Response);
      EstablishAnswers(s.(state := AwaitingConnection));
    case AwaitingConnection => ControlAnswers(s1, ConnectType(s.conf.mode), true, Command);
    case AwaitingRelease => ControlAnswers(s1, DISC, true, Command);
    case FrameReject => FrmrRepeats(s1);
  }

  lemma T1BodyReplies(s: Cb)
    ensures var t := T1Body(s);
            && Finals(t) == Finals(s) && Rejs(t) == Rejs(s) && t.log.delivered == s.log.delivered
            && t.cond.reject == (s.cond.reject && !(s.state.Disconnected? && !(s.conf.mode.dce && s.n2count != s.conf.n2)))
  {
    if s.state.Connected? {
      KickReplies(Requeue(Retry(s)));
    } else {
      T1BodyAnswers(s);
      AnswersCount(s, T1Body(s), false, s.state.Disconnected? && !(s.conf.mode.dce && s.n2count != s.conf.n2));
    }
  }

  lemma T2RoutineReplies(s: Cb)
    ensures var t := T2Routine(s);
            Finals(t) == Finals(s) && Rejs(t) == Rejs(s) && t.log.delivered == s.log.delivered
            && t.cond.reject == s.cond.reject
  {
    SendingControl(s, RR, false, Response);
  }

  lemma TimerReplies(s: Cb, e: Event)
    requires e.FireT1? || e.FireT2?
    ensures RepliesAs(s, e, Step(s, e))
  {
    var s1, s2 := s.(t1 := s.t1.(armed := false)), s.(t2 := s.t2.(armed := false));
    if e.FireT1? {
      if T1Fires(s, e) {
        T1BodyReplies(s1);
      }
      T2RoutineReplies(s1);
    } else {
      T2RoutineReplies(s2);
    }
  }

  lemma ConnectReqAnswers(s: Cb)
    ensures Answers(s, ConnectReq(s), false, LinkReset(s, ConnectRequest))
  {
    EstablishAnswers(s);
    assert Mute(EstablishDataLink(s), EstablishDataLink(s).(state := AwaitingConnection));
  }

  lemma DisconnectReqAnswers(s: Cb)
    ensures Answers(s, DisconnectReq(s), false, false)
  {
    match s.state
    case Disconnected | AwaitingRelease =>
    case AwaitingConnection => ControlAnswers(s, DISC, true, Command);
    case Connected | FrameReject => ControlAnswers(ClearQueues(s).(n2count := 0), DISC, true, Command);
  }

  lemma RequestReplies(s: Cb, e: Event)
    requires e.ConnectRequest? || e.DisconnectRequest? || e.DataRequest?
    ensures RepliesAs(s, e, Step(s, e))
  {
    match e
    case ConnectRequest =>
      ConnectReqAnswers(s);
      AnswersCount(s, ConnectReq(s), false, LinkReset(s, e));
    case DisconnectRequest =>
      DisconnectReqAnswers(s);
      AnswersCount(s, DisconnectReq(s), false, false);
    case DataRequest(msg) => KickReplies(s.(flow := Enqueued(s.flow, msg)));
  }

  /**
   * In every state and for every stimulus: a poll the state answers gets exactly one final
   * response and nothing else gets one; a REJ is sent exactly when the reject condition is
   * raised; and that condition lasts until an I frame is accepted or the link is reset.
   */
  lemma RepliesStep(s: Cb, e: Event)
    ensures RepliesAs(s, e, Step(s, e))
  {
    match e
    case Receive(f, data) => ReceiveReplies(s, f, data);
    case FireT1 | FireT2 => TimerReplies(s, e);
    case _ => RequestReplies(s, e);
  }

  // ---- A single outstanding reject ---------------------------------------------------------

  predicate NoProgress(s: Cb, e: Event) {
    !AcceptsNow(s, e) && !LinkReset(s, e)
  }

  lemma {:induction false} RejectLasts(s: Cb, es: seq<Event>)
    requires s.cond.reject && Each(Step, NoProgress, s, es)
    ensures Run(Step, s, es).cond.reject
  {
    if es != [] {
      RejectLasts(s, es[..|es| - 1]);
      RepliesStep(Run(Step, s, es[..|es| - 1]), es[|es| - 1]);
    }
  }

  predicate SendsRej(s: Cb, e: Event) {
    Rejs(Step(s, e)) > Rejs(s)
  }

  /** Between two REJ frames an I frame is accepted or the link is reset. */
  lemma {:induction false} SingleReject(s: Cb, first: Event, es: seq<Event>, second: Event)
    requires SendsRej(s, first)
    requires SendsRej(Run(Step, Step(s, first), es), second)
    ensures !Each(Step, NoProgress, Step(s, first), es)
  {
    var s1 := Step(s, first);
    RepliesStep(s, first);
    RepliesStep(Run(Step, s1, es), second);
    if Each(Step, NoProgress, s1, es) {
      RejectLasts(s1, es);
    }
  }

  // ---- Connection callbacks ----------------------------------------------------------------

  /** Exactly one callback was made, telling of a connection or of a disconnection. */
  predicate Announced(before: seq<Notice>, after: seq<Notice>, connect: bool, confirm: bool) {
    && |after| == |before| + 1 && after[..|before|] == before
    && var n := after[|before|];
       IsConnect(n) == connect && (n.ConnectConfirmation? || n.DisconnectConfirmation?) == confirm
  }

  /** The callbacks of a step from `s` to `t`, read off the two link states alone. */
  predicate NoticesAs(s: Cb, e: Event, t: Cb) {
    if t.state.Connected? && !s.state.Connected? then
      Announced(s.log.notices, t.log.notices, true, s.state.AwaitingConnection?)
    else if t.state.Disconnected? && !s.state.Disconnected? && !e.DisconnectRequest? then
      Announced(s.log.notices, t.log.notices, false, s.state.AwaitingRelease?)
    else
      t.log.notices == s.log.notices
  }

  lemma SupervisoryNotices(s: Cb, f: Frame)
    requires s.state.Connected? && IsSupervisory(f.ftype)
    ensures var t := Supervisory(s, f);
            t.log.notices == s.log.notices && (t.state.Connected? || t.state.FrameReject?)
  {
    HeadKeeps(s, f);
    var s1 := SupervisoryHead(s, f);
    AckingKeeps(s1, f.nr);
    FrameRejectKeeps(s1, f, FRMR_Z);
  }

  lemma InfoNotices(s: Cb, f: Frame, data: seq<bv8>)
    requires s.state.Connected? && f.ftype.I?
    ensures var t := Info(s, f, data);
            t.log.notices == s.log.notices && (t.state.Connected? || t.state.FrameReject?)
  {
    AckingKeeps(s, f.nr);
    FrameRejectKeeps(s, f, FRMR_Z);
    InfoTailKeeps(AckFromInfo(s, f.nr), f, data);
  }

  lemma UnnumberedNotices(s: Cb, f: Frame, data: seq<bv8>)
    requires s.state.Connected? && !IsSupervisory(f.ftype) && !f.ftype.I?
    ensures NoticesAs(s, Receive(f, data), Machine3(s, f, data))
  {
    match f.ftype
    case SABM | SABME =>
    case DISC | DM =>
    case FRMR =>
    case _ =>
  }

  lemma IdleNotices(s: Cb, f: Frame, data: seq<bv8>)
    requires !s.state.Connected?
    ensures NoticesAs(s, Receive(f, data), Machine(s, f, data))
  {
    match s.state
    case Disconnected =>
    case AwaitingConnection =>
    case AwaitingRelease =>
    case _ =>
  }

  lemma ReceiveNotices(s: Cb, f: Frame, data: seq<bv8>)
    ensures NoticesAs(s, Receive(f, data), DataInput(s, f, data))
  {
    if !s.state.Connected? {
      IdleNotices(s, f, data);
    } else if IsSupervisory(f.ftype) {
      SupervisoryNotices(s, f);
    } else if f.ftype.I? {
      InfoNotices(s, f, data);
    } else {
      UnnumberedNotices(s, f, data);
    }
    KickReplies(Machine(s, f, data));
  }

  lemma T1BodyNotices(s: Cb)
    ensures NoticesAs(s, FireT1, T1Body(s))
  {
    match s.state
    case Connected => KickReplies(Requeue(Retry(s)));
    case _ =>
  }

  /** The upper layer is told of exactly the state changes it has to know about. */
  lemma NoticesStep(s: Cb, e: Event)
    ensures NoticesAs(s, e, Step(s, e))
  {
    match e
    case Receive(f, data) => ReceiveNotices(s, f, data);
    case FireT1 => T1BodyNotices(s.(t1 := s.t1.(armed := false)));
    case DataRequest(msg) => KickReplies(s.(flow := Enqueued(s.flow, msg)));
    case _ =>
  }
}
