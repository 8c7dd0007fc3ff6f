/**
 * Go-back-N: in every reachable state of a connection the payloads delivered at each end are a
 * prefix of those accepted at the other, as long as the queues keep the order of acceptance.
 */
module X75GoBackN {
  import opened Modular
  import opened Runs
  import opened X75Types
  import opened X75Wire
  import opened X75Spec
  import opened X75Window
  import opened X75Accounting
  import opened X75Outputs
  import opened X75System

  /** The event that action `x` causes at the acting end `s`, with `inn` its incoming channel. */
  function EventAt(s: Cb, inn: seq<Item>, x: Action): Event {
    match x
    case Local(_, e) => e
    case Deliver(_, junk) => if inn == [] then ConnectRequest else ArrivalEvent(s, inn[0], junk)
    case Lose(_, _) => ConnectRequest
  }

  /** Frames come from the channel only, and every buffer is handed in once. */
  predicate Admissible(z: Sys, x: Action) {
    NoForgery(z, x) && (x.Local? ==> FreshData(Actor(z, x).cb, x.e))
  }

  /** The action does not append unacknowledged frames behind younger ones. */
  predicate InOrder(z: Sys, x: Action) {
    Actor(z, x).Open? ==> KeepsOrder(Actor(z, x).cb, EventAt(Actor(z, x).cb, Incoming(z, x), x))
  }

  // ---- The invariant -------------------------------------------------------------------------

  ghost predicate Prefix(s: Cb, r: Cb) {
    && |r.log.delivered| <= |s.flow.accepted|
    && forall i :: 0 <= i < |r.log.delivered| ==> r.log.delivered[i] == s.flow.accepted[i].data
  }

  /** An I frame in transit carries what was accepted under its number. */
  ghost predicate Carried(s: Cb, x: Item) {
    x.pdu.IFrame? ==> x.ns < |s.flow.accepted| && x.pdu.data == s.flow.accepted[x.ns].data
  }

  ghost predicate InSequence(s: Cb) {
    Ordered(s.flow) && Distinct(s.flow.accepted)
  }

  ghost predicate DataDir(s: Cb, r: Cb, fwd: seq<Item>) {
    InSequence(s) && Prefix(s, r) && forall i :: 0 <= i < |fwd| ==> Carried(s, fwd[i])
  }

  ghost predicate DataPair(x: Cb, p: Cb, inn: seq<Item>, out: seq<Item>) {
    DataDir(x, p, out) && DataDir(p, x, inn)
  }

  /** An end that has left took nothing more and gave nothing back. */
  predicate Recorded(x: End) {
    x.Left? ==> x.cb.flow.accepted == x.last.flow.accepted && x.cb.log.delivered == x.last.log.delivered
  }

  ghost predicate DataInv(z: Sys) {
    && SysInv(z) && Recorded(z.a) && Recorded(z.b)
    && DataPair(z.a.Last(), z.b.Last(), z.ba, z.ab)
  }

  // ---- One end -------------------------------------------------------------------------------

  /** The ack queue is the stretch of accepted frames from V(A) on. */
  lemma AckQueueIs(s: Cb, n: nat)
    requires Ordered(s.flow) && n < |s.flow.ackQ|
    ensures VaAbs(s.flow) + n < |s.flow.accepted| && s.flow.accepted[VaAbs(s.flow) + n] == s.flow.ackQ[n]
  {
    assert s.flow.accepted[VaAbs(s.flow) + n] == (s.flow.released + s.flow.ackQ)[VaAbs(s.flow) + n];
  }

  lemma NewCarried(t: Cb, k: nat, i: nat)
    requires SenderOk(t) && InSequence(t) && Output(t, k) && i < |t.log.sent|
    ensures Carried(t, Label(t, i))
  {
    if t.log.sent[i].IFrame? {
      var n := |t.flow.ackQ| - (|t.log.sent| - i);
      NewInfo(t, k, i);
      AckQueueSpans(t, n);
      AckQueueIs(t, n);
    }
  }

  lemma CarriedOn(s: Cb, t: Cb, fwd: seq<Item>, k: nat)
    requires forall i :: 0 <= i < |fwd| ==> Carried(s, fwd[i])
    requires s.flow.accepted <= t.flow.accepted && SenderOk(t) && InSequence(t) && Output(t, k)
    ensures forall i :: 0 <= i < |fwd| + |t.log.sent| ==> Carried(t, (fwd + Labelled(t))[i])
  {
    forall i | 0 <= i < |fwd| + |t.log.sent| ensures Carried(t, (fwd + Labelled(t))[i]) {
      if i < |fwd| {
        assert Carried(s, fwd[i]);
      } else {
        NewCarried(t, k, i - |fwd|);
      }
    }
  }

  lemma ActInSequence(x: Cb, e: Event)
    requires SenderOk(x) && InSequence(x) && InRange(x.M(), e) && FreshData(x, e) && KeepsOrder(x, e)
    ensures var t := Act(x, e); InSequence(t) && x.flow.accepted <= t.flow.accepted
  {
    var q := Afresh(x);
    assert OrderHolds(q.conf)(q);
    OrderHoldsStep(q, e);
    StepAccepts(q, e);
  }

  /** The acting end as a sender. */
  lemma SendsCarried(x: Cb, p: Cb, out: seq<Item>, e: Event)
    requires SenderOk(x) && LinkEvent(x, e) && !Ends(x, e) && FreshData(x, e) && KeepsOrder(x, e)
    requires DataDir(x, p, out)
    ensures var t := Act(x, e); DataDir(t, p, out + Labelled(t))
  {
    var k := ActorStep(x, e);
    ActInSequence(x, e);
    CarriedOn(x, Act(x, e), out, k);
  }

  // ---- Both ends -----------------------------------------------------------------------------

  lemma LocalData(x: Cb, p: Cb, inn: seq<Item>, out: seq<Item>, e: Event)
    requires SenderOk(x) && !e.Receive? && !Ends(x, e) && FreshData(x, e) && KeepsOrder(x, e)
    requires DataPair(x, p, inn, out)
    ensures var t := Act(x, e); DataPair(t, p, inn, out + Labelled(t))
  {
    var k := ActorStep(x, e);
    SendsCarried(x, p, out, e);
  }

  /** At most one payload more, and the right one. */
  lemma DeliveredNext(p: Cb, x: Cb, t: Cb, h: Item, e: Event)
    requires SenderOk(p) && ReceiverOk(p, x) && InfoOk(p, x, h) && AckOk(x, p, h) && p.M() == x.M()
    requires e.Receive? && Carries(e.frame, e.data, h.pdu) && ReceivedAs(x, e, t)
    requires Carried(p, h) && Prefix(p, x)
    ensures Prefix(p, t)
  {
    AcceptedIsNext(p, x, h, e);
  }

  lemma DeliverData(x: Cb, p: Cb, inn: seq<Item>, out: seq<Item>, junk: Frame)
    requires Pair(x, p, inn, out) && inn != [] && Numbered(inn[0].pdu)
    requires DataPair(x, p, inn, out) && KeepsOrder(x, ArrivalEvent(x, inn[0], junk))
    ensures var t := Take(x, inn[0], junk); DataPair(t, p, inn[1..], out + Labelled(t))
  {
    var h, e := inn[0], ArrivalEvent(x, inn[0], junk);
    assert AckOk(x, p, h) && InfoOk(p, x, h) && Carried(p, h);
    ArrivalIs(x, p, h, junk);
    AckIsValid(x, p, h, e);
    var k := ActorStep(x, e);
    SendsCarried(x, p, out, e);
    DeliveredNext(p, x, Act(x, e), h, e);
  }

  /** A farewell carries nothing. */
  lemma PartingData(x: Cb, p: Cb, inn: seq<Item>, out: seq<Item>, t: Cb)
    requires DataPair(x, p, inn, out) && Parting(t, x) && (t.log.sent != [] ==> t.log.sent[0].UFrame?)
    ensures DataPair(x, p, inn, out + Labelled(t)) && (inn != [] ==> DataPair(x, p, inn[1..], out + Labelled(t)))
  {
    var all := out + Labelled(t);
    forall i | 0 <= i < |all| ensures Carried(x, all[i]) {
      if i < |out| {
        assert Carried(x, out[i]);
      }
    }
  }

  lemma LoseData(x: Cb, p: Cb, inn: seq<Item>, out: seq<Item>, i: nat)
    requires DataPair(x, p, inn, out)
    ensures DataPair(x, p, inn, Without(out, i))
  {
    var w := Without(out, i);
    forall j | 0 <= j < |w| ensures Carried(x, w[j]) {
      WithoutIs(out, i, j);
    }
  }

  // ---- The system ------------------------------------------------------------------------------

  lemma LocalDataAtA(z: Sys, e: Event)
    requires DataInv(z) && z.a.Open? && !e.Receive? && FreshData(z.a.cb, e) && KeepsOrder(z.a.cb, e)
    ensures var y := Becomes(z, Act(z.a.cb, e));
            Recorded(y.a) && DataPair(y.a.Last(), y.b.Last(), y.ba, y.ab)
  {
    var (s, p, t) := (z.a.cb, z.b.Last(), Act(z.a.cb, e));
    if Ends(s, e) {
      EndParts(s, e);
      PartingData(s, p, z.ba, z.ab, t);
    } else {
      var k := ActorStep(s, e);
      LocalData(s, p, z.ba, z.ab, e);
    }
  }

  lemma ByeDataAtA(z: Sys, junk: Frame)
    requires DataInv(z) && z.a.Open? && z.ba != [] && z.ba[0].pdu.UFrame?
    ensures var y := Becomes(z, Take(z.a.cb, z.ba[0], junk)).(ba := z.ba[1..]);
            Recorded(y.a) && DataPair(y.a.Last(), y.b.Last(), y.ba, y.ab)
  {
    var (s, p, h) := (z.a.cb, z.b.Last(), z.ba[0]);
    var e := ArrivalEvent(s, h, junk);
    assert AckOk(s, p, h);
    ArrivalIs(s, p, h, junk);
    DiscParts(s, e.frame, e.data);
    PartingData(s, p, z.ba, z.ab, Act(s, e));
  }

  lemma DeliverDataAtA(z: Sys, junk: Frame)
    requires DataInv(z) && z.a.Open? && z.ba != [] && KeepsOrder(z.a.cb, ArrivalEvent(z.a.cb, z.ba[0], junk))
    ensures var y := Becomes(z, Take(z.a.cb, z.ba[0], junk)).(ba := z.ba[1..]);
            Recorded(y.a) && DataPair(y.a.Last(), y.b.Last(), y.ba, y.ab)
  {
    assert AckOk(z.a.cb, z.b.Last(), z.ba[0]);
    if z.ba[0].pdu.UFrame? {
      ByeDataAtA(z, junk);
    } else {
      DeliverAtA(z, junk);
      DeliverData(z.a.cb, z.b.Last(), z.ba, z.ab, junk);
    }
  }

  lemma DataAtAKeeps(z: Sys, x: Action)
    requires DataInv(z) && NoForgery(z, x)
    requires z.a.Open? ==> (x.Local? ==> FreshData(z.a.cb, x.e)) && KeepsOrder(z.a.cb, EventAt(z.a.cb, z.ba, x))
    ensures DataInv(StepAtA(z, x))
  {
    StepAtAKeeps(z, x);
    match x
    case Local(_, e) =>
      if z.a.Open? {
        LocalDataAtA(z, e);
      }
    case Deliver(_, junk) =>
      if z.a.Open? && z.ba != [] {
        DeliverDataAtA(z, junk);
      }
    case Lose(_, i) => LoseData(z.a.Last(), z.b.Last(), z.ba, z.ab, i);
  }

  lemma SwapData(z: Sys)
    requires DataInv(z)
    ensures DataInv(Swap(z))
  {
    SwapKeeps(z);
  }

  lemma DataStepKeeps(z: Sys, x: Action)
    requires DataInv(z) && Admissible(z, x) && InOrder(z, x)
    ensures DataInv(SysStep(z, x))
  {
    if AtA(x) {
      DataAtAKeeps(z, x);
    } else {
      SwapData(z);
      DataAtAKeeps(Swap(z), x);
      SwapData(StepAtA(Swap(z), x));
    }
  }

  lemma StartedData(a: Cb, b: Cb)
    requires StartedPair(a, b)
    ensures DataInv(Start(a, b))
  {
    StartedInv(a, b);
  }

  ghost predicate BothPrefixes(z: Sys) {
    Prefix(z.a.cb, z.b.cb) && Prefix(z.b.cb, z.a.cb)
  }

  /**
   * Go-back-N safety of the code as written, for any interleaving of requests, losses and timer
   * expiries: as long as no step appends unacknowledged frames behind younger ones, everything
   * delivered at either end is a prefix of what the other end accepted, also when one of them has
   * left and the other goes on receiving.
   */
  lemma {:induction false} GoBackN(a: Cb, b: Cb, xs: seq<Action>)
    requires StartedPair(a, b)
    requires Each(SysStep, Admissible, Start(a, b), xs) && Each(SysStep, InOrder, Start(a, b), xs)
    ensures BothPrefixes(Run(SysStep, Start(a, b), xs))
  {
    StartedData(a, b);
    GoBackNFrom(Start(a, b), xs);
  }

  lemma {:induction false} GoBackNFrom(z: Sys, xs: seq<Action>)
    requires DataInv(z) && Each(SysStep, Admissible, z, xs) && Each(SysStep, InOrder, z, xs)
    ensures DataInv(Run(SysStep, z, xs))
  {
    if xs != [] {
      GoBackNFrom(z, xs[..|xs| - 1]);
      DataStepKeeps(Run(SysStep, z, xs[..|xs| - 1]), xs[|xs| - 1]);
    }
  }

  // ---- With insertion at the head --------------------------------------------------------------

  predicate HeadRequeue(z: Sys) {
    z.a.Last().conf.repairs.headRequeue && z.b.Last().conf.repairs.headRequeue
  }

  lemma HeadRequeueAtA(z: Sys, x: Action)
    requires SysInv(z) && NoForgery(z, x) && HeadRequeue(z)
    ensures HeadRequeue(StepAtA(z, x))
  {
    if z.a.Open? && !x.Lose? {
      StepFlow(Afresh(z.a.cb), EventAt(z.a.cb, z.ba, x));
    }
  }

  lemma HeadRequeueStays(z: Sys, x: Action)
    requires SysInv(z) && NoForgery(z, x) && HeadRequeue(z)
    ensures HeadRequeue(SysStep(z, x))
  {
    if AtA(x) {
      HeadRequeueAtA(z, x);
    } else {
      SwapKeeps(z);
      HeadRequeueAtA(Swap(z), x);
    }
  }

  /** With insertion at the head of the write queue no further condition is needed. */
  lemma {:induction false} GoBackNRepaired(a: Cb, b: Cb, xs: seq<Action>)
    requires StartedPair(a, b) && a.conf.repairs.headRequeue && b.conf.repairs.headRequeue
    requires Each(SysStep, Admissible, Start(a, b), xs)
    ensures BothPrefixes(Run(SysStep, Start(a, b), xs))
  {
    StartedData(a, b);
    RepairedFrom(Start(a, b), xs);
  }

  lemma {:induction false} RepairedFrom(z: Sys, xs: seq<Action>)
    requires DataInv(z) && HeadRequeue(z) && Each(SysStep, Admissible, z, xs)
    ensures DataInv(Run(SysStep, z, xs)) && HeadRequeue(Run(SysStep, z, xs))
  {
    if xs != [] {
      var y, x := Run(SysStep, z, xs[..|xs| - 1]), xs[|xs| - 1];
      RepairedFrom(z, xs[..|xs| - 1]);
      HeadRequeueStays(y, x);
      DataStepKeeps(y, x);
    }
  }
}
