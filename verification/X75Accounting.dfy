/** Conservation and order of the frames accepted from the upper layer. */
module X75Accounting {
  import opened Modular
  import opened Runs
  import opened X75Types
  import opened X75Spec
  import opened X75Window

  /** Every accepted frame is in exactly one place: freed, unacknowledged, or waiting. */
  ghost predicate Conserved(q: Flow) {
    multiset(q.accepted) == multiset(q.released) + multiset(q.ackQ) + multiset(q.writeQ)
  }

  /** The same, in the order in which the frames were accepted. */
  ghost predicate Ordered(q: Flow) {
    q.accepted == q.released + q.ackQ + q.writeQ
  }

  ghost predicate Distinct(msgs: seq<Msgb>) {
    forall i, j :: 0 <= i < j < |msgs| ==> msgs[i] != msgs[j]
  }

  lemma AckedConserves(m: nat, q: Flow, nr: nat)
    requires Conserved(q)
    ensures Conserved(Acked(m, q, nr))
  {
    var k := AckCount(m, q, nr);
    assert q.ackQ == q.ackQ[..k] + q.ackQ[k..];
  }

  lemma AdvancedConserves(c: Conf, q: Flow)
    requires Conserved(q)
    ensures Conserved(Advanced(c, q))
  {
    var k := SendCount(c, q);
    assert q.writeQ == q.writeQ[..k] + q.writeQ[k..];
  }

  lemma MachineConserves(s: Cb, f: Frame)
    requires Conserved(s.flow)
    ensures Conserved(MachineFlow(s, f))
  {
    RequeueConserves(s.conf.repairs, ZeroedFlow(s.flow));
    ClearConserves(s.flow);
    match s.state
    case Connected => ConnectedConserves(s, f);
    case Disconnected =>
    case AwaitingConnection =>
    case AwaitingRelease =>
    case FrameReject =>
  }

  lemma ConnectedConserves(s: Cb, f: Frame)
    requires Conserved(s.flow) && s.state.Connected?
    ensures Conserved(MachineFlow(s, f))
  {
    AckedConserves(s.M(), s.flow, f.nr);
    RequeueConserves(s.conf.repairs, s.flow);
    RequeueConserves(s.conf.repairs, ZeroedFlow(s.flow));
    RequeueConserves(s.conf.repairs, Acked(s.M(), s.flow, f.nr));
    ClearConserves(s.flow);
  }

  lemma ClearConserves(q: Flow)
    requires Conserved(q)
    ensures Conserved(Cleared(q))
  {
  }

  lemma PreKickConserves(s: Cb, e: Event)
    requires Conserved(s.flow)
    ensures Conserved(PreKick(s, e))
  {
    RequeueConserves(s.conf.repairs, s.flow);
    ClearConserves(s.flow);
    match e
    case Receive(f, _) => MachineConserves(s, f);
    case _ =>
  }

  lemma RequeueConserves(repairs: Repairs, q: Flow)
    requires Conserved(q)
    ensures Conserved(Requeued(repairs, q))
  {
  }

  /** No step of the code, from any state and for any stimulus, loses or duplicates a frame. */
  lemma ConservedStep(s: Cb, e: Event)
    requires Conserved(s.flow) && s.flow.va < s.M()
    ensures Conserved(Step(s, e).flow)
  {
    StepFlow(s, e);
    PreKickConserves(s, e);
    AdvancedConserves(s.conf, PreKick(s, e));
  }

  /** The frames that the step moves from the ack queue back to the write queue. */
  function Requeuing(s: Cb, e: Event): seq<Msgb> {
    if e.Receive? then
      var f := e.frame;
      if ResetsInPlace(s, f) then
        if s.conf.repairs.resetRequeue then s.flow.ackQ else []
      else if !s.state.Connected? then []
      else if ConnectFrame(s, f) || f.ftype.FRMR? then s.flow.ackQ
      else if f.ftype.REJ? && ValidNr(s, f.nr) then Acked(s.M(), s.flow, f.nr).ackQ
      else []
    else if T1Fires(s, e) && s.state.Connected? && s.n2count != s.conf.n2 then s.flow.ackQ
    else []
  }

  /**
   * The one way to lose the order: unacknowledged frames are appended behind frames that were
   * accepted after them.
   */
  predicate Reorders(s: Cb, e: Event) {
    !s.conf.repairs.headRequeue && Requeuing(s, e) != [] && s.flow.writeQ != []
  }

  lemma AckedKeepsOrder(m: nat, q: Flow, nr: nat)
    ensures Ordered(Acked(m, q, nr)) <==> Ordered(q)
  {
    var k, q' := AckCount(m, q, nr), Acked(m, q, nr);
    assert q.ackQ == q.ackQ[..k] + q.ackQ[k..];
    assert q'.released + q'.ackQ == q.released + q.ackQ;
  }

  lemma AdvancedKeepsOrder(c: Conf, q: Flow)
    ensures Ordered(Advanced(c, q)) <==> Ordered(q)
  {
    if CanSend(c, q) {
      var k, q' := SendCount(c, q), Advanced(c, q);
      assert q.writeQ == q.writeQ[..k] + q.writeQ[k..];
      assert q'.released + q'.ackQ + q'.writeQ == q.released + q.ackQ + q.writeQ;
    }
  }

  lemma RequeueOrder(repairs: Repairs, q: Flow)
    requires Ordered(q) && Distinct(q.accepted)
    ensures Ordered(Requeued(repairs, q)) <==> (repairs.headRequeue || q.ackQ == [] || q.writeQ == [])
  {
    var q' := Requeued(repairs, q);
    assert q.released + q.ackQ + q.writeQ == q.released + (q.ackQ + q.writeQ);
    assert q'.released + q'.ackQ + q'.writeQ == q.released + q'.writeQ;
    if !repairs.headRequeue && q.ackQ != [] && q.writeQ != [] {
      var n := |q.released|;
      assert q.accepted[n] == q.ackQ[0] && q.accepted[n + |q.ackQ|] == q.writeQ[0];
      assert (q.released + q'.writeQ)[n] == q.writeQ[0];
    } else {
      assert q'.writeQ == q.ackQ + q.writeQ;
    }
  }

  /** Exactly which steps of the code keep the order. */
  lemma OrderedStep(s: Cb, e: Event)
    requires Ordered(s.flow) && Distinct(s.flow.accepted)
    requires s.flow.va < s.M()
    ensures Ordered(Step(s, e).flow) <==> !Reorders(s, e)
  {
    var q := PreKick(s, e);
    StepFlow(s, e);
    AdvancedKeepsOrder(s.conf, q);
    PreKickOrder(s, e);
  }

  lemma MachineOrder(s: Cb, f: Frame, data: seq<bv8>)
    requires Ordered(s.flow) && Distinct(s.flow.accepted)
    ensures Ordered(MachineFlow(s, f)) <==> !Reorders(s, Receive(f, data))
  {
    var a := Acked(s.M(), s.flow, f.nr);
    AckedKeepsOrder(s.M(), s.flow, f.nr);
    RequeueOrder(s.conf.repairs, s.flow);
    RequeueOrder(s.conf.repairs, a);
    RequeueOrder(s.conf.repairs, ZeroedFlow(s.flow));
    match s.state
    case Connected =>
    case _ =>
  }

  lemma EnqueuedKeepsOrder(q: Flow, msg: Msgb)
    requires Ordered(q)
    ensures Ordered(Enqueued(q, msg))
  {
    assert q.released + q.ackQ + (q.writeQ + [msg]) == q.released + q.ackQ + q.writeQ + [msg];
  }

  lemma PreKickOrder(s: Cb, e: Event)
    requires Ordered(s.flow) && Distinct(s.flow.accepted)
    ensures Ordered(PreKick(s, e)) <==> !Reorders(s, e)
  {
    match e
    case Receive(f, data) => MachineOrder(s, f, data);
    case FireT1 => RequeueOrder(s.conf.repairs, s.flow);
    case DataRequest(msg) => EnqueuedKeepsOrder(s.flow, msg);
    case _ =>
  }

  /** Buffers handed in are new: the caller passes ownership of each of them once. */
  predicate FreshData(s: Cb, e: Event) {
    e.DataRequest? ==> e.msg !in s.flow.accepted
  }

  function Taken(s: Cb, e: Event): seq<Msgb> {
    if e.DataRequest? && TakesData(s) then [e.msg] else []
  }

  lemma PreKickAccepts(s: Cb, e: Event)
    ensures PreKick(s, e).accepted == s.flow.accepted + Taken(s, e)
  {
    match e
    case Receive(f, _) =>
    case _ =>
  }

  lemma StepAccepts(s: Cb, e: Event)
    requires s.flow.va < s.M()
    ensures Step(s, e).flow.accepted == s.flow.accepted + Taken(s, e)
  {
    StepFlow(s, e);
    PreKickAccepts(s, e);
  }

  ghost function ConservedHolds(c: Conf): Cb -> bool {
    (s: Cb) => s.conf == c && s.flow.va < c.M() && Conserved(s.flow)
  }

  /** Conservation over every run of the code as written. */
  lemma {:induction false} ConservedRun(s: Cb, es: seq<Event>)
    requires Conserved(s.flow) && s.flow.va < s.M()
    requires Each(Step, InRangeFor, s, es)
    ensures Conserved(Run(Step, s, es).flow)
  {
    var inv := ConservedHolds(s.conf);
    forall t, e | inv(t) && InRangeFor(t, e) ensures inv(Step(t, e)) {
      ConservedStep(t, e);
      VaBounded(t, e);
    }
    Invariant(Step, inv, InRangeFor, s, es);
  }

  ghost function OrderHolds(c: Conf): Cb -> bool {
    (s: Cb) => s.conf == c && s.flow.va < c.M() && Distinct(s.flow.accepted) && Ordered(s.flow)
  }

  predicate OrderAssumptions(s: Cb, e: Event) {
    InRange(s.M(), e) && FreshData(s, e)
  }

  predicate KeepsOrder(s: Cb, e: Event) {
    !Reorders(s, e)
  }

  lemma OrderHoldsStep(s: Cb, e: Event)
    requires OrderHolds(s.conf)(s) && OrderAssumptions(s, e)
    ensures OrderHolds(s.conf)(Step(s, e)) <==> KeepsOrder(s, e)
  {
    OrderedStep(s, e);
    VaBounded(s, e);
    StepAccepts(s, e);
    var a, a' := s.flow.accepted, Step(s, e).flow.accepted;
    assert a' == a || (e.DataRequest? && a' == a + [e.msg]);
  }

  /** Over any run: the order holds throughout exactly when no step reorders. */
  lemma {:induction false} OrderedRun(s: Cb, es: seq<Event>)
    requires Ordered(s.flow) && Distinct(s.flow.accepted) && s.flow.va < s.M()
    requires Each(Step, OrderAssumptions, s, es)
    ensures Throughout(Step, OrderHolds(s.conf), s, es) <==> Each(Step, KeepsOrder, s, es)
  {
    var inv := OrderHolds(s.conf);
    forall t, e | inv(t) && OrderAssumptions(t, e) ensures inv(Step(t, e)) <==> KeepsOrder(t, e) {
      OrderHoldsStep(t, e);
    }
    InvariantIff(Step, inv, OrderAssumptions, KeepsOrder, s, es);
  }

  /** With insertion at the head the order simply holds. */
  lemma {:induction false} OrderedRunRepaired(s: Cb, es: seq<Event>)
    requires Ordered(s.flow) && Distinct(s.flow.accepted) && s.flow.va < s.M()
    requires s.conf.repairs.headRequeue && Each(Step, OrderAssumptions, s, es)
    ensures Ordered(Run(Step, s, es).flow)
  {
    var inv := OrderHolds(s.conf);
    forall t, e | inv(t) && OrderAssumptions(t, e) ensures inv(Step(t, e)) {
      OrderHoldsStep(t, e);
    }
    Invariant(Step, inv, OrderAssumptions, s, es);
  }
}
