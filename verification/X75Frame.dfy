/** What the helpers of X75Spec leave alone. */
module X75Frame {
  import opened Modular
  import opened X75Types
  import opened X75Spec

  lemma HeadKeeps(s: Cb, f: Frame)
    ensures var t := SupervisoryHead(s, f);
            && t.conf == s.conf && t.state == s.state && t.flow == s.flow && t.vr == s.vr && t.n2count == s.n2count
            && t.t1 == s.t1 && t.t2 == s.t2 && t.cond.reject == s.cond.reject
            && t.log.notices == s.log.notices && t.log.delivered == s.log.delivered
  {
  }

  /** Acknowledging frames changes the sending side, T1 and the retry counter only. */
  predicate OnlyAcks(s: Cb, t: Cb) {
    && t.conf == s.conf && t.state == s.state && t.vr == s.vr && t.cond == s.cond && t.log == s.log && t.t2 == s.t2
    && (t.n2count == s.n2count || t.n2count == 0)
  }

  lemma AckingKeeps(s: Cb, nr: nat)
    ensures OnlyAcks(s, FramesAcked(s, nr)) && OnlyAcks(s, CheckIframesAcked(s, nr))
    ensures OnlyAcks(s, AckFromInfo(s, nr)) && OnlyAcks(s, GoBack(s, nr))
  {
  }

  lemma AckedNothing(m: nat, q: Flow)
    requires q.va < m
    ensures Acked(m, q, q.va) == q
  {
    assert q.ackQ[..0] == [] && q.released + [] == q.released && q.ackNs[0..] == q.ackNs;
  }

  lemma AckingFlow(s: Cb, nr: nat)
    requires s.flow.va < s.M()
    ensures CheckIframesAcked(s, nr).flow == Acked(s.M(), s.flow, nr)
    ensures AckFromInfo(s, nr).flow == Acked(s.M(), s.flow, nr)
    ensures GoBack(s, nr).flow == Requeued(s.conf.repairs, Acked(s.M(), s.flow, nr))
  {
    AckedNothing(s.M(), s.flow);
  }

  /** Taking or refusing an I frame changes the receiving side only. */
  lemma InfoTailKeeps(s: Cb, f: Frame, data: seq<bv8>)
    ensures var t := InfoTail(s, f, data);
            && t.conf == s.conf && t.state == s.state && t.flow == s.flow && t.n2count == s.n2count
            && t.log.notices == s.log.notices
  {
  }

  lemma FrameRejectKeeps(s: Cb, f: Frame, reason: bv8)
    ensures var t := EnterFrameReject(s, f, reason);
            && t.conf == s.conf && t.state.FrameReject? && t.flow == s.flow && t.vr == s.vr && t.cond == s.cond
            && t.n2count == 0 && t.t1 == T1_STARTED && t.t2 == Stopped(s.t2)
            && t.log.notices == s.log.notices && t.log.delivered == s.log.delivered
  {
  }
}
