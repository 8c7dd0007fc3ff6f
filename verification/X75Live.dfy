/**
 * What keeps an end of a connection going once T2 has a timer of its own: unacknowledged data is
 * guarded by T1, a pending acknowledgement by T2, and nothing that may be sent is held back.
 */
module X75Live {
  import opened Modular
  import opened X75Types
  import opened X75Spec
  import opened X75Frame
  import opened X75Window
  import opened X75Accounting
  import opened X75Timers
  import opened X75Retries
  import opened X75Replies
  import opened X75Outputs
  import opened X75System

  ghost predicate Live(x: Cb) {
    && x.conf.repairs.ownT2
    && T1Live(x) && AckInv(x) && T2Sound(x)
    && KickedOut(x.conf, x.flow) && Conserved(x.flow)
  }

  lemma AccountedFor(q: Flow)
    requires Conserved(q)
    ensures |q.accepted| == |q.released| + |q.ackQ| + |q.writeQ|
  {
    assert |multiset(q.accepted)| == |q.accepted|;
  }

  /** In an orderly connection no event of the link disturbs any of this. */
  lemma StepKeepsLive(x: Cb, e: Event)
    requires SenderOk(x) && LinkEvent(x, e) && !Ends(x, e) && Live(x) && x.log.sent == []
    ensures Live(Step(x, e))
  {
    GuardedStep(x, e);
    AckStep(x, e);
    ConservedStep(x, e);
    KicksOut(x, e);
  }

  lemma KicksOut(x: Cb, e: Event)
    requires SenderOk(x) && LinkEvent(x, e) && !Ends(x, e) && KickedOut(x.conf, x.flow) && x.log.sent == []
    ensures Step(x, e).conf == x.conf && KickedOut(x.conf, Step(x, e).flow)
  {
    StepFlow(x, e);
    StepAdvances(x, e);
    PreKickOk(x, e);
    BurstExactly(x.conf, PreKick(x, e));
  }

  lemma ActKeepsLive(x: Cb, e: Event)
    requires SenderOk(x) && LinkEvent(x, e) && !Ends(x, e) && Live(x)
    ensures Live(Act(x, e))
  {
    AfreshKeeps(x, e);
    StepKeepsLive(Afresh(x), e);
  }

  // ---- What an end tells the other -------------------------------------------------------------

  /** Frames as the other end sends them: no poll, and supervisory frames are responses. */
  predicate Unpolled(e: Event) {
    e.Receive? ==> if e.frame.ftype.I? then !e.frame.pf else e.frame.cr.Response?
  }

  lemma InfoTells(s: Cb, f: Frame, data: seq<bv8>)
    requires !f.pf && s.log.sent == []
    ensures var t := InfoTail(s, f, data);
            && (f.ns == s.vr ==> t.cond.ackPending && !t.cond.reject)
            && (f.ns != s.vr && t.log.sent == [] ==> t.cond == s.cond && s.cond.reject)
  {
  }

  /** A Kick that sends nothing changes nothing. */
  lemma KickTells(s: Cb)
    requires FlowOk(s.conf, s.flow) && Kick(s).log.sent == []
    ensures Kick(s) == s
  {
    if KickEnabled(s) {
      GapWrap(SendStart(s.flow), SendEnd(s.conf, s.flow), s.M());
    }
  }

  lemma SupervisoryTells(s: Cb, f: Frame)
    requires s.state.Connected? && !s.cond.peerBusy && ValidNr(s, f.nr)
    requires (f.ftype.RR? || f.ftype.REJ?) && f.cr.Response?
    ensures var t := Supervisory(s, f); t.cond == s.cond && t.log == s.log
  {
    AckingKeeps(SupervisoryHead(s, f), f.nr);
  }

  /** What a frame of the other end leads to, before the last Kick. */
  lemma MachineTells(s: Cb, f: Frame, data: seq<bv8>)
    requires SenderOk(s) && s.log.sent == [] && LinkEvent(s, Receive(f, data)) && Unpolled(Receive(f, data))
    ensures var t := Machine(s, f, data);
            && (f.ftype.I? && f.ns == s.vr ==> t.cond.ackPending)
            && (f.ftype.I? && f.ns != s.vr && t.log.sent == [] ==> t.cond == s.cond && s.cond.reject)
            && (!f.ftype.I? ==> t.cond == s.cond && t.log == s.log)
  {
    if f.ftype.I? {
      AckingKeeps(s, f.nr);
      InfoTells(AckFromInfo(s, f.nr), f, data);
    } else {
      SupervisoryTells(s, f);
    }
  }

  /**
   * An end that says nothing on a frame of the other has accepted it and will acknowledge it, or
   * has refused it in the reject condition, or the frame carried no data; a pending
   * acknowledgement stays pending.
   */
  lemma SilenceTells(s: Cb, f: Frame, data: seq<bv8>)
    requires SenderOk(s) && s.log.sent == [] && LinkEvent(s, Receive(f, data)) && Unpolled(Receive(f, data))
    requires Step(s, Receive(f, data)).log.sent == []
    ensures var (t, e) := (Step(s, Receive(f, data)), Receive(f, data));
            && (Accepts(s, e) ==> t.cond.ackPending)
            && (!Accepts(s, e) ==> t.cond == s.cond)
            && (f.ftype.I? && !Accepts(s, e) ==> s.cond.reject)
  {
    MachineTells(s, f, data);
    MachineFlowIs(s, f, data);
    PreKickOk(s, Receive(f, data));
    KickTells(Machine(s, f, data));
  }

  lemma ReceiveCalms(s: Cb, f: Frame, data: seq<bv8>)
    ensures Step(s, Receive(f, data)).n2count <= s.n2count
  {
    MachineCalm(s, f, data);
  }

  // ---- Expiries --------------------------------------------------------------------------------

  /** T1 expires at an end with unacknowledged data: everything outstanding goes out again. */
  lemma RetransmissionIs(s: Cb) returns (k: nat)
    requires SenderOk(s) && Live(s) && s.log.sent == [] && s.flow.ackQ != [] && s.n2count != s.conf.n2
    ensures !Ends(s, FireT1)
    ensures var t := Step(s, FireT1);
            && Output(t, k) && 1 <= k == |t.flow.ackQ| && t.n2count == s.n2count + 1
            && t.flow.released == s.flow.released
  {
    assert T1Fires(s, FireT1);
    k := StepOutput(s, FireT1);
    StepAdvances(s, FireT1);
    PreKickOk(s, FireT1);
    BurstExactly(s.conf, PreKick(s, FireT1));
    RetryCounts(s);
  }

  lemma RetryCounts(s: Cb)
    requires T1Fires(s, FireT1) && s.state.Connected? && s.n2count != s.conf.n2
    ensures Step(s, FireT1).n2count == s.n2count + 1
  {
    Retransmits(s.(t1 := s.t1.(armed := false)));
  }

  /** T2 expires at an end with a pending acknowledgement: an RR goes out. */
  lemma AcknowledgementIs(s: Cb)
    requires SenderOk(s) && Live(s) && s.log.sent == [] && s.cond.ackPending
    ensures var t := Step(s, FireT2);
            t.log.sent == [SFrame(RR, s.vr, false, Response)] && t.flow == s.flow && t.log.delivered == s.log.delivered
  {
  }
}
