/**
 * One step of an endpoint in the data transfer state, seen from the link: how the sending side
 * moves in absolute numbers, and exactly which frames the step puts on the line.
 */
module X75Outputs {
  import opened Modular
  import opened X75Types
  import opened X75Spec
  import opened X75Frame
  import opened X75Window
  import opened X75Accounting

  // ---- The sending side in absolute numbers ------------------------------------------------

  /** V(A) counted from the start of the connection. */
  function VaAbs(q: Flow): nat {
    |q.released|
  }

  function VsAbs(m: nat, q: Flow): nat {
    |q.released| + Gap(q.va, q.vs, m)
  }

  /**
   * The window invariant between two cooperating ends: V(S) is within the window even when the
   * ack queue has just been requeued, and everything up to V(S) is still at hand.
   */
  ghost predicate FlowOk(c: Conf, q: Flow) {
    && WindowInv(c, q)
    && Gap(q.va, q.vs, c.M()) <= c.window
    && (q.ackQ == [] ==> Gap(q.va, q.vs, c.M()) <= |q.writeQ|)
  }

  lemma AckedOk(c: Conf, q: Flow, nr: nat)
    requires FlowOk(c, q) && nr < c.M() && Gap(q.va, nr, c.M()) <= Gap(q.va, q.vs, c.M())
    ensures FlowOk(c, Acked(c.M(), q, nr)) && VsAbs(c.M(), Acked(c.M(), q, nr)) == VsAbs(c.M(), q)
    ensures VaAbs(Acked(c.M(), q, nr)) == VaAbs(q) + (if q.ackQ == [] then 0 else Gap(q.va, nr, c.M()))
  {
    AckedKeepsWindow(c, q, nr);
  }

  lemma RequeuedOk(c: Conf, q: Flow)
    requires FlowOk(c, q)
    ensures FlowOk(c, Requeued(c.repairs, q)) && VsAbs(c.M(), Requeued(c.repairs, q)) == VsAbs(c.M(), q)
  {
  }

  lemma EnqueuedOk(c: Conf, q: Flow, msg: Msgb)
    requires FlowOk(c, q)
    ensures FlowOk(c, Enqueued(q, msg)) && VsAbs(c.M(), Enqueued(q, msg)) == VsAbs(c.M(), q)
  {
  }

  /** Going back never leaves V(S) behind where it was. */
  lemma AdvancedOk(c: Conf, q: Flow)
    requires FlowOk(c, q)
    ensures FlowOk(c, Advanced(c, q)) && VsAbs(c.M(), Advanced(c, q)) >= VsAbs(c.M(), q)
    ensures Advanced(c, q).released == q.released && Advanced(c, q).accepted == q.accepted
  {
    AdvancedKeepsWindow(c, q);
    if CanSend(c, q) {
      GapWrap(SendStart(q), SendEnd(c, q), c.M());
      assert SendCount(c, q) > 0;
    }
  }

  // ---- Events of a connection between two ends of this implementation ------------------------

  /** Local events, and I, RR and REJ frames with a valid N(R). */
  predicate LinkEvent(s: Cb, e: Event) {
    e.Receive? ==>
      && (e.frame.ftype.I? || e.frame.ftype.RR? || e.frame.ftype.REJ?)
      && e.frame.nr < s.M() && ValidNr(s, e.frame.nr)
  }

  function Freed(s: Cb, e: Event): nat {
    if e.Receive? && s.flow.ackQ != [] then Gap(s.flow.va, e.frame.nr, s.M()) else 0
  }

  lemma MachineOk(s: Cb, f: Frame)
    requires s.state.Connected? && FlowOk(s.conf, s.flow) && (f.ftype.I? || f.ftype.RR? || f.ftype.REJ?)
    requires f.nr < s.M() && ValidNr(s, f.nr)
    ensures FlowOk(s.conf, MachineFlow(s, f)) && VsAbs(s.M(), MachineFlow(s, f)) == VsAbs(s.M(), s.flow)
    ensures VaAbs(MachineFlow(s, f)) == VaAbs(s.flow) + if s.flow.ackQ == [] then 0 else Gap(s.flow.va, f.nr, s.M())
  {
    AckedOk(s.conf, s.flow, f.nr);
    RequeuedOk(s.conf, Acked(s.M(), s.flow, f.nr));
  }

  lemma PreKickOk(s: Cb, e: Event)
    requires s.state.Connected? && FlowOk(s.conf, s.flow) && LinkEvent(s, e)
    requires !e.DisconnectRequest? && (T1Fires(s, e) ==> s.n2count != s.conf.n2)
    ensures FlowOk(s.conf, PreKick(s, e)) && VsAbs(s.M(), PreKick(s, e)) == VsAbs(s.M(), s.flow)
    ensures VaAbs(PreKick(s, e)) == VaAbs(s.flow) + Freed(s, e)
  {
    RequeuedOk(s.conf, s.flow);
    match e
    case Receive(f, _) => MachineOk(s, f);
    case DataRequest(msg) => EnqueuedOk(s.conf, s.flow, msg);
    case _ =>
  }

  /** V(A) moves by what was freed, V(S) never moves back, and both stay within the window. */
  lemma FlowStep(s: Cb, e: Event)
    requires s.state.Connected? && FlowOk(s.conf, s.flow) && LinkEvent(s, e)
    requires !e.DisconnectRequest? && (T1Fires(s, e) ==> s.n2count != s.conf.n2)
    ensures var t := Step(s, e);
            && t.conf == s.conf && FlowOk(t.conf, t.flow)
            && VsAbs(s.M(), t.flow) >= VsAbs(s.M(), s.flow)
            && VaAbs(t.flow) == VaAbs(s.flow) + Freed(s, e)
  {
    PreKickOk(s, e);
    StepFlow(s, e);
    AdvancedOk(s.conf, PreKick(s, e));
  }

  // ---- What goes out -------------------------------------------------------------------------

  predicate IsReply(p: Pdu, vr: nat) {
    p.SFrame? && (p.ftype.RR? || p.ftype.REJ?) && p.nr == vr && p.cr.Response?
  }

  /** At most one response so far. */
  predicate OnlyReply(s: Cb) {
    |s.log.sent| <= 1 && (|s.log.sent| == 1 ==> IsReply(s.log.sent[0], s.vr))
  }

  /**
   * The step sent at most one response and then the last `k` frames of the ack queue, numbered
   * as the window invariant numbers them; everything carries the current V(R).
   */
  ghost predicate Output(t: Cb, k: nat) {
    && k <= |t.flow.ackQ| == |t.flow.ackNs|
    && k <= |t.log.sent| <= k + 1
    && (|t.log.sent| == k + 1 ==> IsReply(t.log.sent[0], t.vr))
    && (forall i {:trigger t.log.sent[i]} :: |t.log.sent| - k <= i < |t.log.sent| ==>
          var n := |t.flow.ackQ| - (|t.log.sent| - i);
          t.log.sent[i] == IFrame(t.flow.ackNs[n], t.vr, false, t.flow.ackQ[n].data))
  }

  lemma KickSizes(s: Cb)
    requires KickEnabled(s) && |s.flow.ackNs| == |s.flow.ackQ|
    ensures var (t, k) := (Kick(s), SendCount(s.conf, s.flow));
            |t.log.sent| == |s.log.sent| + k && |t.flow.ackQ| == |t.flow.ackNs| == |s.flow.ackQ| + k
  {
  }

  lemma KickedFrame(s: Cb, i: nat)
    requires KickEnabled(s) && |s.flow.ackNs| == |s.flow.ackQ| && i < SendCount(s.conf, s.flow)
    ensures var (t, k) := (Kick(s), SendCount(s.conf, s.flow));
            && |t.log.sent| == |s.log.sent| + k && |t.flow.ackQ| == |t.flow.ackNs| == |s.flow.ackQ| + k
            && t.log.sent[|s.log.sent| + i]
            == IFrame(t.flow.ackNs[|s.flow.ackQ| + i], t.vr, false, t.flow.ackQ[|s.flow.ackQ| + i].data)
  {
    KickSizes(s);
    assert Kick(s).log.sent[|s.log.sent| + i] == NextBurst(s)[i];
  }

  lemma KickOutput(s: Cb) returns (k: nat)
    requires OnlyReply(s) && |s.flow.ackNs| == |s.flow.ackQ|
    ensures Output(Kick(s), k) && |Kick(s).flow.ackQ| == |s.flow.ackQ| + k
    ensures Kick(s).vr == s.vr && Kick(s).cond.peerBusy == s.cond.peerBusy
    ensures Kick(s).state == s.state && Kick(s).log.delivered == s.log.delivered
  {
    k := 0;
    if KickEnabled(s) {
      k := SendCount(s.conf, s.flow);
      var t, r := Kick(s), |s.log.sent|;
      KickSizes(s);
      forall i | r <= i < |t.log.sent|
        ensures var n := |t.flow.ackQ| - (|t.log.sent| - i);
                t.log.sent[i] == IFrame(t.flow.ackNs[n], t.vr, false, t.flow.ackQ[n].data)
      {
        KickedFrame(s, i - r);
      }
    }
  }

  /** The event accepts an in-sequence I frame. */
  predicate Accepts(s: Cb, e: Event) {
    e.Receive? && e.frame.ftype.I? && e.frame.ns == s.vr
  }

  /** The receiving side after the step. */
  predicate ReceivedAs(s: Cb, e: Event, t: Cb) {
    && !t.cond.peerBusy
    && (if Accepts(s, e) then t.vr == Wrap(s.vr + 1, s.M()) && t.log.delivered == s.log.delivered + [e.data]
        else t.vr == s.vr && t.log.delivered == s.log.delivered)
  }

  lemma HeadOut(s: Cb, f: Frame)
    requires !s.cond.peerBusy && s.log.sent == [] && !f.ftype.RNR?
    ensures OnlyReply(SupervisoryHead(s, f)) && !SupervisoryHead(s, f).cond.peerBusy
  {
  }

  lemma TailOut(s: Cb, f: Frame)
    requires !s.cond.peerBusy && OnlyReply(s) && ValidNr(s, f.nr)
    ensures var t := SupervisoryTail(s, f);
            && t.state == s.state && OnlyReply(t) && !t.cond.peerBusy
            && t.vr == s.vr && t.log.delivered == s.log.delivered
  {
    AckingKeeps(s, f.nr);
  }

  lemma SupervisoryOut(s: Cb, f: Frame, data: seq<bv8>)
    requires s.state.Connected? && !s.cond.peerBusy && s.log.sent == [] && (f.ftype.RR? || f.ftype.REJ?)
    requires ValidNr(s, f.nr)
    ensures var t := Supervisory(s, f); t.state.Connected? && OnlyReply(t) && ReceivedAs(s, Receive(f, data), t)
  {
    HeadKeeps(s, f);
    HeadOut(s, f);
    TailOut(SupervisoryHead(s, f), f);
  }

  lemma InfoTailOut(s: Cb, f: Frame, data: seq<bv8>)
    requires s.state.Connected? && !s.cond.peerBusy && s.log.sent == [] && f.ftype.I?
    ensures var t := InfoTail(s, f, data); OnlyReply(t) && ReceivedAs(s, Receive(f, data), t)
  {
  }

  lemma InfoOut(s: Cb, f: Frame, data: seq<bv8>)
    requires s.state.Connected? && !s.cond.peerBusy && s.log.sent == [] && f.ftype.I?
    requires ValidNr(s, f.nr)
    ensures var t := Info(s, f, data); t.state.Connected? && OnlyReply(t) && ReceivedAs(s, Receive(f, data), t)
  {
    AckingKeeps(s, f.nr);
    InfoTailKeeps(AckFromInfo(s, f.nr), f, data);
    InfoTailOut(AckFromInfo(s, f.nr), f, data);
  }

  lemma ReceiveOut(s: Cb, f: Frame, data: seq<bv8>) returns (k: nat)
    requires s.state.Connected? && !s.cond.peerBusy && s.log.sent == [] && FlowOk(s.conf, s.flow)
    requires LinkEvent(s, Receive(f, data))
    ensures var t := DataInput(s, f, data);
            && t.state.Connected? && Output(t, k) && ReceivedAs(s, Receive(f, data), t)
            && |t.flow.ackQ| == |MachineFlow(s, f).ackQ| + k
  {
    var s1 := Machine(s, f, data);
    MachineFlowIs(s, f, data);
    PreKickOk(s, Receive(f, data));
    if f.ftype.I? {
      InfoOut(s, f, data);
    } else {
      SupervisoryOut(s, f, data);
    }
    k := KickOutput(s1);
  }

  lemma T1BodyOut(s: Cb) returns (k: nat)
    requires s.state.Connected? && !s.cond.peerBusy && s.log.sent == [] && s.n2count != s.conf.n2
    ensures var t := T1Body(s);
            && t.state.Connected? && Output(t, k) && !t.cond.peerBusy
            && t.vr == s.vr && t.log.delivered == s.log.delivered && |t.flow.ackQ| == k
  {
    k := KickOutput(Requeue(Retry(s)));
    Retransmits(s);
    StartKeepsOutput(Kick(Requeue(Retry(s))), k);
  }

  lemma Retransmits(s: Cb)
    requires s.state.Connected? && s.n2count != s.conf.n2
    ensures T1Body(s) == StartT1(Kick(Requeue(Retry(s))))
  {
  }

  lemma StartKeepsOutput(t: Cb, k: nat)
    requires Output(t, k)
    ensures Output(StartT1(t), k)
    ensures StartT1(t).state == t.state && StartT1(t).vr == t.vr && StartT1(t).cond == t.cond && StartT1(t).log == t.log
    ensures StartT1(t).flow == t.flow
  {
  }

  lemma T2RoutineOut(s: Cb)
    requires s.log.sent == [] && |s.flow.ackNs| == |s.flow.ackQ|
    ensures var t := T2Routine(s);
            && t.state == s.state && Output(t, 0) && t.cond.peerBusy == s.cond.peerBusy
            && t.vr == s.vr && t.log.delivered == s.log.delivered
  {
  }

  lemma T2RoutineFlow(s: Cb)
    ensures T2Routine(s).flow == s.flow
  {
  }

  lemma TimerOut(s: Cb, e: Event) returns (k: nat)
    requires s.state.Connected? && !s.cond.peerBusy && s.log.sent == [] && |s.flow.ackNs| == |s.flow.ackQ|
    requires (e.FireT1? || e.FireT2?) && (T1Fires(s, e) ==> s.n2count != s.conf.n2)
    ensures var t := Step(s, e);
            && t.state.Connected? && Output(t, k) && ReceivedAs(s, e, t)
            && |t.flow.ackQ| == |PreKick(s, e).ackQ| + k
  {
    var s1, s2 := s.(t1 := s.t1.(armed := false)), s.(t2 := s.t2.(armed := false));
    T2RoutineOut(s1);
    T2RoutineOut(s2);
    T2RoutineFlow(s1);
    T2RoutineFlow(s2);
    k := 0;
    if T1Fires(s, e) {
      k := T1BodyOut(s1);
      assert Step(s, e) == T1Body(s1);
    }
  }

  /** All link events at once. */
  lemma StepOutput(s: Cb, e: Event) returns (k: nat)
    requires s.state.Connected? && !s.cond.peerBusy && s.log.sent == [] && FlowOk(s.conf, s.flow)
    requires LinkEvent(s, e) && !e.DisconnectRequest? && (T1Fires(s, e) ==> s.n2count != s.conf.n2)
    ensures var t := Step(s, e);
            && t.state.Connected? && Output(t, k) && ReceivedAs(s, e, t)
            && |t.flow.ackQ| == |PreKick(s, e).ackQ| + k
  {
    k := 0;
    match e
    case Receive(f, data) => k := ReceiveOut(s, f, data);
    case FireT1 | FireT2 => k := TimerOut(s, e);
    case DataRequest(msg) => k := KickOutput(s.(flow := Enqueued(s.flow, msg)));
    case _ =>
  }

  // ---- The sender leaves nothing behind that it may send ---------------------------------------

  lemma KickIsAdvance(s: Cb)
    requires !s.cond.peerBusy
    ensures Kick(s).flow == Advanced(s.conf, s.flow)
  {
  }

  /** A step that leaves frames waiting before its last Kick does perform that Kick. */
  lemma StepAdvances(s: Cb, e: Event)
    requires s.state.Connected? && !s.cond.peerBusy && s.log.sent == [] && FlowOk(s.conf, s.flow)
    requires LinkEvent(s, e) && !e.DisconnectRequest? && (T1Fires(s, e) ==> s.n2count != s.conf.n2)
    ensures Step(s, e).flow == Advanced(s.conf, PreKick(s, e)) || Step(s, e).flow == PreKick(s, e) == s.flow
  {
    match e
    case Receive(f, data) =>
      var k := ReceiveOut(s, f, data);
      MachineFlowIs(s, f, data);
      var s1 := Machine(s, f, data);
      assert Kick(s1).cond.peerBusy == s1.cond.peerBusy;
      KickIsAdvance(s1);
    case FireT1 =>
      if T1Fires(s, e) {
        var s1 := s.(t1 := s.t1.(armed := false));
        assert Step(s, e) == StartT1(Kick(Requeue(Retry(s1))));
        KickIsAdvance(Requeue(Retry(s1)));
      }
    case DataRequest(msg) => KickIsAdvance(s.(flow := Enqueued(s.flow, msg)));
    case _ =>
  }
}
