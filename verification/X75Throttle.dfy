/**
 * A condition under which the code as written is safe, checkable by the upper layer before each
 * request: it never keeps more than a window of frames unacknowledged.
 */
module X75Throttle {
  import opened Modular
  import opened Runs
  import opened X75Types
  import opened X75Wire
  import opened X75Spec
  import opened X75Frame
  import opened X75Window
  import opened X75Accounting
  import opened X75Outputs
  import opened X75System
  import opened X75GoBackN

  predicate Drained(s: Cb) {
    s.flow.writeQ == []
  }

  /** Data is handed in only while fewer frames than the window are unacknowledged. */
  predicate Throttled(z: Sys, x: Action) {
    var s := Actor(z, x).cb;
    x.Local? && x.e.DataRequest? ==> |s.flow.ackQ| < s.conf.window
  }

  /** What fits into the window goes out at once. */
  lemma AdvancedDrains(c: Conf, q: Flow)
    requires WindowInv(c, q) && |q.ackQ| + |q.writeQ| <= c.window
    ensures Advanced(c, q).writeQ == []
  {
    if q.writeQ != [] {
      GapWrap(SendStart(q), SendEnd(c, q), c.M());
      assert SendCount(c, q) == |q.writeQ|;
    }
  }

  /** Before its last Kick a step holds no more frames than it started with, plus a new one. */
  lemma PreKickHolds(s: Cb, e: Event)
    requires s.state.Connected? && LinkEvent(s, e) && !e.DisconnectRequest?
    requires T1Fires(s, e) ==> s.n2count != s.conf.n2
    ensures |PreKick(s, e).ackQ| + |PreKick(s, e).writeQ|
         <= |s.flow.ackQ| + |s.flow.writeQ| + (if e.DataRequest? then 1 else 0)
  {
    match e
    case Receive(f, _) =>
    case _ =>
  }

  lemma DrainedStep(s: Cb, e: Event)
    requires SenderOk(s) && Drained(s) && s.log.sent == [] && LinkEvent(s, e) && !Ends(s, e)
    requires e.DataRequest? ==> |s.flow.ackQ| < s.conf.window
    ensures Drained(Step(s, e))
  {
    StepAdvances(s, e);
    PreKickOk(s, e);
    PreKickHolds(s, e);
    AdvancedDrains(s.conf, PreKick(s, e));
  }

  /** An empty write queue is never in the wrong order. */
  lemma DrainedKeepsOrder(s: Cb, e: Event)
    requires Drained(s)
    ensures KeepsOrder(s, e)
  {
  }

  lemma LocalDrained(x: Cb, e: Event)
    requires SenderOk(x) && Drained(x) && !e.Receive? && !Ends(x, e)
    requires e.DataRequest? ==> |x.flow.ackQ| < x.conf.window
    ensures Drained(Act(x, e))
  {
    DrainedStep(Afresh(x), e);
  }

  lemma TakeDrained(x: Cb, p: Cb, h: Item, junk: Frame)
    requires SenderOk(x) && Drained(x) && ReceiverOk(x, p) && AckOk(x, p, h) && Numbered(h.pdu)
    requires p.conf.mode == Peer(x.conf.mode)
    ensures Drained(Take(x, h, junk))
  {
    ArrivalIs(x, p, h, junk);
    var e := ArrivalEvent(x, h, junk);
    AckIsValid(x, p, h, e);
    DrainedStep(Afresh(x), e);
  }

  predicate BothDrained(z: Sys) {
    Drained(z.a.Last()) && Drained(z.b.Last())
  }

  lemma DrainedAtA(z: Sys, x: Action)
    requires SysInv(z) && NoForgery(z, x) && Drained(z.a.Last())
    requires x.Local? && x.e.DataRequest? ==> |z.a.cb.flow.ackQ| < z.a.cb.conf.window
    ensures Drained(StepAtA(z, x).a.Last()) && StepAtA(z, x).b == z.b
  {
    StepAtAKeeps(z, x);
    if z.a.Open? && !Leaves(z.a.cb, z.ba, x) {
      match x
      case Local(_, e) => LocalDrained(z.a.cb, e);
      case Deliver(_, junk) =>
        if z.ba != [] {
          assert AckOk(z.a.cb, z.b.Last(), z.ba[0]);
          TakeDrained(z.a.cb, z.b.Last(), z.ba[0], junk);
        }
      case Lose(_, i) =>
    }
  }

  lemma SysStepDrained(z: Sys, x: Action)
    requires DataInv(z) && BothDrained(z) && Admissible(z, x) && Throttled(z, x)
    ensures DataInv(SysStep(z, x)) && BothDrained(SysStep(z, x))
  {
    var s := Actor(z, x);
    if s.Open? {
      DrainedKeepsOrder(s.cb, EventAt(s.cb, Incoming(z, x), x));
    }
    DataStepKeeps(z, x);
    if AtA(x) {
      DrainedAtA(z, x);
    } else {
      SwapKeeps(z);
      DrainedAtA(Swap(z), x);
    }
  }

  /** Go-back-N safety of the code as written under a throttled upper layer, with no repair at all. */
  lemma {:induction false} GoBackNThrottled(a: Cb, b: Cb, xs: seq<Action>)
    requires StartedPair(a, b)
    requires Each(SysStep, Admissible, Start(a, b), xs) && Each(SysStep, Throttled, Start(a, b), xs)
    ensures BothPrefixes(Run(SysStep, Start(a, b), xs))
  {
    StartedData(a, b);
    ThrottledFrom(Start(a, b), xs);
  }

  lemma {:induction false} ThrottledFrom(z: Sys, xs: seq<Action>)
    requires DataInv(z) && BothDrained(z)
    requires Each(SysStep, Admissible, z, xs) && Each(SysStep, Throttled, z, xs)
    ensures DataInv(Run(SysStep, z, xs)) && BothDrained(Run(SysStep, z, xs))
  {
    if xs != [] {
      ThrottledFrom(z, xs[..|xs| - 1]);
      SysStepDrained(Run(SysStep, z, xs[..|xs| - 1]), xs[|xs| - 1]);
    }
  }

  // ---- Why the order matters -------------------------------------------------------------------

  /** Entry i of the ack queue, last sent as number V(A) + i, is the frame accepted under that number. */
  ghost predicate WellNumbered(q: Flow) {
    && |q.released| + |q.ackQ| <= |q.accepted|
    && forall i :: 0 <= i < |q.ackQ| ==> q.ackQ[i] == q.accepted[|q.released| + i]
  }

  lemma OrderedIsWellNumbered(q: Flow)
    requires Ordered(q)
    ensures WellNumbered(q)
  {
    forall i | 0 <= i < |q.ackQ| ensures q.ackQ[i] == q.accepted[|q.released| + i] {
      assert (q.released + q.ackQ)[|q.released| + i] == q.ackQ[i];
    }
  }

  /** A queue that goes back behind younger frames is sent under the wrong numbers at once. */
  lemma TailRequeueMisnumbers(c: Conf, q: Flow)
    requires FlowOk(c, q) && Ordered(q) && Distinct(q.accepted)
    requires !c.repairs.headRequeue && q.ackQ != [] && q.writeQ != []
    ensures !WellNumbered(Advanced(c, Requeued(c.repairs, q)))
  {
    var r := Requeued(c.repairs, q);
    assert SendCount(c, r) > 0;
    var t := Advanced(c, r);
    var n := |q.released|;
    assert t.ackQ[0] == q.writeQ[0];
    assert q.accepted[n] == q.ackQ[0] && q.accepted[n + |q.ackQ|] == q.writeQ[0] by {
      assert q.accepted == q.released + (q.ackQ + q.writeQ);
    }
  }

  lemma ReorderingIsRequeue(s: Cb, e: Event)
    requires s.state.Connected? && LinkEvent(s, e) && !Ends(s, e) && !KeepsOrder(s, e)
    ensures var q := if e.Receive? then Acked(s.M(), s.flow, e.frame.nr) else s.flow;
            PreKick(s, e) == Requeued(s.conf.repairs, q) && q.ackQ != [] && q.writeQ != []
  {
    match e
    case Receive(f, _) =>
    case _ =>
  }

  /** A step puts a frame on the line under a number that belongs to another exactly when it reorders. */
  lemma MisnumbersExactly(s: Cb, e: Event)
    requires SenderOk(s) && InSequence(s) && s.log.sent == []
    requires LinkEvent(s, e) && !Ends(s, e) && FreshData(s, e)
    ensures WellNumbered(Step(s, e).flow) <==> KeepsOrder(s, e)
  {
    OrderedStep(s, e);
    if KeepsOrder(s, e) {
      OrderedIsWellNumbered(Step(s, e).flow);
    } else {
      ReorderingMisnumbers(s, e);
    }
  }

  lemma ReorderingMisnumbers(s: Cb, e: Event)
    requires SenderOk(s) && InSequence(s) && s.log.sent == []
    requires LinkEvent(s, e) && !Ends(s, e) && !KeepsOrder(s, e)
    ensures !WellNumbered(Step(s, e).flow)
  {
    StepAdvances(s, e);
    ReorderingIsRequeue(s, e);
    var q := if e.Receive? then Acked(s.M(), s.flow, e.frame.nr) else s.flow;
    if e.Receive? {
      AckedOk(s.conf, s.flow, e.frame.nr);
      AckedKeepsOrder(s.M(), s.flow, e.frame.nr);
    }
    TailRequeueMisnumbers(s.conf, q);
  }
}
