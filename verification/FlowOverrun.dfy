/**
 * A run of the code as written that exceeds the bound of FlowControl: with window 1 a reset leaves
 * the unacknowledged frame in the ack queue and opens the window again behind it.
 */
module FlowOverrun {
  import opened Runs
  import opened X75Types
  import opened X75Spec
  import opened X75Window
  import opened X75Findings
  import opened FlowControl

  /** `m` unacknowledged, `w` waiting. */
  ghost predicate Piled(s: Cb, m: Msgb, w: seq<Msgb>) {
    && s.conf == Conf(AS_WRITTEN, Mode(false, false, true), 1, 20) && s.cond == NO_CONDITION
    && s.flow == Flow(1, 0, w, [m], [0], [m] + w, [])
  }

  function Requests(w: seq<Msgb>): (es: seq<Event>)
    ensures |es| == |w|
  {
    seq(|w|, i requires 0 <= i < |w| => DataRequest(w[i]))
  }

  lemma FirstSent(m: Msgb)
    ensures var s := HostStep(Accepted(true, 1), DataRequest(m)); s.state.Connected? && Piled(s, m, [])
  {
    AcceptedIs(true, 1);
  }

  lemma NextWaits(s: Cb, m: Msgb, w: seq<Msgb>, n: Msgb)
    requires s.state.Connected? && Piled(s, m, w) && |w| <= MAX_WRITE_QUEUE
    ensures var t := HostStep(s, DataRequest(n)); t.state.Connected? && Piled(t, m, w + [n])
  {
    assert ([m] + w) + [n] == [m] + (w + [n]);
  }

  lemma {:induction false} PilesUp(s: Cb, m: Msgb, w: seq<Msgb>)
    requires s.state.Connected? && Piled(s, m, []) && |w| <= MAX_WRITE_QUEUE + 1
    ensures var t := Run(HostStep, s, Requests(w)); t.state.Connected? && Piled(t, m, w)
  {
    if w != [] {
      var k := |w| - 1;
      PilesUp(s, m, w[..k]);
      assert Requests(w)[..k] == Requests(w[..k]) && w[..k] + [w[k]] == w;
      NextWaits(Run(HostStep, s, Requests(w[..k])), m, w[..k], w[k]);
    }
  }

  /** An RR with an N(R) that nothing sent so far can answer. */
  function WrongRr(): Event {
    Receive(NO_FRAME.(ftype := RR, nr := 5), [])
  }

  lemma Rejected(s: Cb, m: Msgb, w: seq<Msgb>)
    requires s.state.Connected? && Piled(s, m, w)
    ensures var t := HostStep(s, WrongRr()); t.state.FrameReject? && Piled(t, m, w)
  {
  }

  lemma ResetReopens(s: Cb, m: Msgb, w: seq<Msgb>)
    requires s.state.FrameReject? && Piled(s, m, w) && w != []
    ensures var t := HostStep(s, Unnumbered(SABM, true));
            && t.state.Connected? && t.cond == NO_CONDITION && t.conf == s.conf
            && t.flow.ackQ == [m, w[0]] && t.flow.writeQ == w[1..] && t.flow.vs == 1 && t.flow.va == 0
  {
    var r := Notify(ResetInPlace(SendControl(s, UA, true, Response)), ConnectIndication(Ok));
    assert Machine4(s, NO_FRAME.(ftype := SABM, pf := true)) == r;
    assert SendCount(r.conf, r.flow) == 1;
  }

  lemma OneMore(s: Cb, n: Msgb)
    requires s.state.Connected? && s.cond == NO_CONDITION && s.conf.window == 1 && s.M() == 8
    requires s.flow.vs == 1 && s.flow.va == 0 && s.flow.ackQ != [] && |s.flow.writeQ| == MAX_WRITE_QUEUE
    ensures Pending(HostStep(s, DataRequest(n)).flow) == Pending(s.flow) + 1
  {
  }

  /**
   * One frame sent, nine waiting, an unacceptable RR, a SABM and one more request: eleven frames
   * where nine and the window make ten.
   */
  lemma Overrun(m: Msgb, w: seq<Msgb>, n: Msgb)
    requires |w| == MAX_WRITE_QUEUE + 1
    ensures var s0 := HostStep(Accepted(true, 1), DataRequest(m));
            var s1 := HostStep(Run(HostStep, s0, Requests(w)), WrongRr());
            var s2 := HostStep(s1, Unnumbered(SABM, true));
            var s3 := HostStep(s2, DataRequest(n));
            && WithinBound(s0.conf, s0) && !KeepsFrames(s1, Unnumbered(SABM, true))
            && Pending(s3.flow) == 11 && MAX_WRITE_QUEUE + 1 + s3.conf.window == 10
  {
    var s0 := HostStep(Accepted(true, 1), DataRequest(m));
    FirstSent(m);
    PilesUp(s0, m, w);
    var s := Run(HostStep, s0, Requests(w));
    Rejected(s, m, w);
    ResetReopens(HostStep(s, WrongRr()), m, w);
    var s2 := HostStep(HostStep(s, WrongRr()), Unnumbered(SABM, true));
    OneMore(s2, n);
    StepFlow(s2, DataRequest(n));
  }
}
