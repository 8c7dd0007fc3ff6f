/**
 * Reachable states in which the code as written loses one of the guarantees; the exact conditions
 * are stated in X75Window, X75Accounting and X75Timers.
 */
module X75Findings {
  import opened Modular
  import opened Runs
  import opened X75Types
  import opened X75Wire
  import opened X75Spec
  import opened X75Window
  import opened X75Accounting
  import opened X75Timers
  import opened X75Outputs
  import opened X75System
  import opened X75GoBackN

  const NO_FRAME := Frame(I, 0, 0, false, Unset, 0, 0)

  /** A registered endpoint in standard mode with the given role and window. */
  function Registered(dce: bool, window: nat): Cb {
    Cb(Conf(AS_WRITTEN, Mode(false, false, dce), window, 20), Disconnected, Flow(0, 0, [], [], [], [], []), 0,
       NO_CONDITION, 0, T1_STARTED, Timer(false, false, NoHandler), NO_FRAME, 0, Log([], [], [], 0))
  }

  function Unnumbered(t: FrameType, pf: bool): Event {
    Receive(NO_FRAME.(ftype := t, pf := pf), [])
  }

  /** The same endpoint once a SABM has arrived. */
  function Accepted(dce: bool, window: nat): Cb {
    Step(Registered(dce, window), Unnumbered(SABM, true))
  }

  lemma AcceptedIs(dce: bool, window: nat)
    ensures Accepted(dce, window)
         == Registered(dce, window).(state := Connected, t1 := Timer(false, false, T1Expiry),
              log := Log([UFrame(UA, true, Response)], [ConnectIndication(Ok)], [], 0))
  {
  }

  /**
   * A FRMR while a frame is unacknowledged: the frame goes out again before the link is
   * re-established, and the UA then zeroes V(S) and V(A) under it.
   */
  lemma StrandedFrame(m: Msgb)
    ensures var s1 := Step(Accepted(true, 7), DataRequest(m));
            var s2 := Step(s1, Unnumbered(FRMR, false));
            var s3 := Step(s2, Unnumbered(UA, true));
            && s2.state.AwaitingConnection? && s2.flow.ackQ == [m]
            && s3.state.Connected? && s3.flow.ackQ == [m] && s3.flow.vs == s3.flow.va == 0
            && !WindowInv(s3.conf, s3.flow)
  {
    var s1 := Step(Accepted(true, 7), DataRequest(m));
    DataSent(m);
    SentAnew(s1, m);
    ZeroedUnder(Step(s1, Unnumbered(FRMR, false)), m);
  }

  /** One frame sent with number 0 and not acknowledged. */
  ghost predicate OneOut(s: Cb, m: Msgb) {
    s.conf == Conf(AS_WRITTEN, Mode(false, false, true), 7, 20) && s.flow == Flow(1, 0, [], [m], [0], [m], [])
  }

  lemma DataSent(m: Msgb)
    ensures var s := Step(Accepted(true, 7), DataRequest(m)); s.state.Connected? && OneOut(s, m) && JustSent(s)
  {
    AcceptedIs(true, 7);
  }

  predicate JustSent(s: Cb) {
    s.t1 == T1_STARTED && s.cond == NO_CONDITION && s.vr == 0
  }

  /** The frame goes back to the write queue and out again at once. */
  lemma SentAnew(s: Cb, m: Msgb)
    requires s.state.Connected? && OneOut(s, m)
    ensures var t := Step(s, Unnumbered(FRMR, false)); t.state.AwaitingConnection? && OneOut(t, m)
  {
    var q := Requeue(EstablishDataLink(s)).(state := AwaitingConnection);
    assert q.flow == Flow(1, 0, [m], [], [], [m], []) && q.cond == NO_CONDITION;
    assert Advanced(q.conf, q.flow) == Flow(1, 0, [], [m], [0], [m], []);
  }

  lemma ZeroedUnder(s: Cb, m: Msgb)
    requires s.state.AwaitingConnection? && OneOut(s, m)
    ensures var t := Step(s, Unnumbered(UA, true));
            && t.state.Connected? && t.flow.ackQ == [m] && t.flow.vs == t.flow.va == 0 && !WindowInv(t.conf, t.flow)
  {
  }

  lemma HandlerReplaced(s: Cb, m: Msgb, data: seq<bv8>)
    requires s.state.Connected? && OneOut(s, m) && JustSent(s)
    ensures var t := Step(s, Receive(NO_FRAME, data));
            t.state.Connected? && t.flow.ackQ == [m] && T1Hijacked(t) && t.t1.armed && !T1Live(t)
  {
    assert AckFromInfo(s, 0) == s;
    assert InfoTail(s, NO_FRAME, data).flow == s.flow;
  }

  /**
   * Data is unacknowledged and an I frame arrives: from then on T1 claims to run, but neither
   * timer will ever fire the retransmission.
   */
  lemma StuckData(m: Msgb, data: seq<bv8>)
    ensures var s1 := Step(Accepted(true, 7), DataRequest(m));
            var s2 := Step(s1, Receive(NO_FRAME, data));
            && T1Live(s1) && s2.state.Connected? && s2.flow.ackQ == [m]
            && T1Hijacked(s2) && s2.t1.armed && !T1Live(s2)
  {
    DataSent(m);
    HandlerReplaced(Step(Accepted(true, 7), DataRequest(m)), m, data);
  }

  /** Two ends with window 1 at the start of a connection. */
  function Fresh(dce: bool): Cb {
    Registered(dce, 1).(state := Connected, t1 := Timer(false, false, T1Expiry))
  }

  /** Window 1, `m` unacknowledged, `n` waiting, nothing on the line. */
  function Waiting(m: Msgb, n: Msgb): Cb {
    Fresh(false).(flow := Flow(1, 0, [n], [m], [0], [m, n], []), t1 := T1_STARTED)
  }

  lemma AfterFirst(m: Msgb)
    ensures Act(Fresh(false), DataRequest(m))
         == Fresh(false).(flow := Flow(1, 0, [], [m], [0], [m], []), t1 := T1_STARTED,
                          log := Log([IFrame(0, 0, false, m.data)], [], [], 0))
  {
  }

  lemma AfterSecond(m: Msgb, n: Msgb)
    ensures Act(Act(Fresh(false), DataRequest(m)), DataRequest(n)) == Waiting(m, n)
  {
    AfterFirst(m);
  }

  /** T1 expires: the younger frame goes out under the number of the older one. */
  lemma AfterExpiry(m: Msgb, n: Msgb)
    ensures Act(Waiting(m, n), FireT1)
         == Waiting(m, n).(flow := Flow(1, 0, [m], [n], [0], [m, n], []), n2count := 1,
                           log := Log([IFrame(0, 0, false, n.data)], [], [], 0))
  {
  }

  lemma AfterArrival(n: Msgb)
    ensures var h := Item(IFrame(0, 0, false, n.data), 0, 0);
            Take(Fresh(true), h, NO_FRAME).log.delivered == [n.data]
  {
    RoundTrip(Mode(false, false, false), IFrame(0, 0, false, n.data), NO_FRAME);
  }

  /** Two requests, the loss of everything sent, an expiry of T1 and a delivery. */
  function Scenario(m: Msgb, n: Msgb): seq<Action> {
    [Local(true, DataRequest(m))] + [Local(true, DataRequest(n))] + [Lose(true, 0)] + [Local(true, FireT1)]
    + [Deliver(false, NO_FRAME)]
  }

  function Z0(): Sys {
    Start(Fresh(false), Fresh(true))
  }

  lemma UntilLoss(m: Msgb, n: Msgb)
    ensures Run(SysStep, Z0(), [Local(true, DataRequest(m))] + [Local(true, DataRequest(n))] + [Lose(true, 0)])
         == Start(Waiting(m, n), Fresh(true))
  {
    AfterFirst(m);
    AfterSecond(m, n);
    var x0, x1, x2 := Local(true, DataRequest(m)), Local(true, DataRequest(n)), Lose(true, 0);
    var a1 := Act(Fresh(false), DataRequest(m));
    var z1 := Sys(Open(a1), Open(Fresh(true)), Labelled(a1), []);
    assert SysStep(Z0(), x0) == z1;
    assert Labelled(Waiting(m, n)) == [];
    assert SysStep(z1, x1) == Sys(Open(Waiting(m, n)), Open(Fresh(true)), Labelled(a1), []);
    RunSnoc(SysStep, Z0(), [], x0);
    RunSnoc(SysStep, Z0(), [x0], x1);
    RunSnoc(SysStep, Z0(), [x0] + [x1], x2);
  }

  /** The state after the expiry of T1. */
  function Resent(m: Msgb, n: Msgb): Sys {
    SysStep(Start(Waiting(m, n), Fresh(true)), Local(true, FireT1))
  }

  lemma ResentIs(m: Msgb, n: Msgb)
    ensures Resent(m, n) == Sys(Open(Act(Waiting(m, n), FireT1)), Open(Fresh(true)),
                                [Item(IFrame(0, 0, false, n.data), 0, 0)], [])
  {
    var t := Act(Waiting(m, n), FireT1);
    AfterExpiry(m, n);
    assert Labelled(t) == [Label(t, 0)] && Label(t, 0) == Item(IFrame(0, 0, false, n.data), 0, 0);
  }

  lemma DeliveredIs(m: Msgb, n: Msgb)
    ensures var y := SysStep(Resent(m, n), Deliver(false, NO_FRAME));
            y.a.cb.flow.accepted == [m, n] && y.b.cb.log.delivered == [n.data]
  {
    ResentIs(m, n);
    AfterExpiry(m, n);
    AfterArrival(n);
  }

  lemma FinalState(m: Msgb, n: Msgb)
    ensures Run(SysStep, Z0(), Scenario(m, n)) == SysStep(Resent(m, n), Deliver(false, NO_FRAME))
  {
    UntilLoss(m, n);
    var xs := [Local(true, DataRequest(m))] + [Local(true, DataRequest(n))] + [Lose(true, 0)];
    RunSnoc(SysStep, Z0(), xs, Local(true, FireT1));
    RunSnoc(SysStep, Z0(), xs + [Local(true, FireT1)], Deliver(false, NO_FRAME));
  }

  lemma NotAPrefix(a: Cb, b: Cb, m: Msgb, n: Msgb)
    requires a.flow.accepted == [m, n] && b.log.delivered == [n.data] && m.data != n.data
    ensures !Prefix(a, b)
  {
    assert b.log.delivered[0] != a.flow.accepted[0].data;
  }

  /**
   * Two frames are accepted with window 1, the first is lost, T1 expires: the second frame is sent
   * under the number of the first and delivered in its place.
   */
  lemma OutOfOrder(m: Msgb, n: Msgb)
    requires m.data != n.data
    ensures StartedPair(Z0().a.cb, Z0().b.cb)
    ensures var y := Run(SysStep, Z0(), Scenario(m, n));
            && y.a.cb.flow.accepted == [m, n] && y.b.cb.log.delivered == [n.data]
            && !Prefix(y.a.cb, y.b.cb)
  {
    FinalState(m, n);
    DeliveredIs(m, n);
    var y := Run(SysStep, Z0(), Scenario(m, n));
    NotAPrefix(y.a.cb, y.b.cb, m, n);
  }
}
