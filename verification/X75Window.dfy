/**
 * The window invariant of one endpoint against an arbitrary peer, and what becomes of every frame
 * that the upper layer hands in.
 */
module X75Window {
  import opened Modular
  import opened Runs
  import opened X75Types
  import opened X75Spec
  import opened X75Frame

  // ---- What a step does to the sending side ------------------------------------------------

  function ZeroedFlow(q: Flow): Flow {
    q.(vs := 0, va := 0)
  }

  function ResetFlow(repairs: Repairs, q: Flow): Flow {
    if repairs.resetRequeue then Requeued(repairs, ZeroedFlow(q)) else ZeroedFlow(q)
  }

  predicate ConnectFrame(s: Cb, f: Frame) {
    f.ftype == ConnectType(s.conf.mode)
  }

  function MachineFlow(s: Cb, f: Frame): Flow {
    match s.state
    case Disconnected | FrameReject =>
      if ConnectFrame(s, f) then ResetFlow(s.conf.repairs, s.flow) else s.flow
    case AwaitingConnection =>
      if f.ftype.UA? && f.pf then ResetFlow(s.conf.repairs, s.flow)
      else if f.ftype.DM? && f.pf then Cleared(s.flow)
      else s.flow
    case AwaitingRelease => s.flow
    case Connected =>
      if ConnectFrame(s, f) then Requeued(s.conf.repairs, ZeroedFlow(s.flow))
      else if f.ftype.DISC? || f.ftype.DM? then Cleared(s.flow)
      else if f.ftype.FRMR? then Requeued(s.conf.repairs, s.flow)
      else if f.ftype.REJ? && ValidNr(s, f.nr) then Requeued(s.conf.repairs, Acked(s.M(), s.flow, f.nr))
      else if (f.ftype.RR? || f.ftype.RNR? || f.ftype.I?) && ValidNr(s, f.nr) then Acked(s.M(), s.flow, f.nr)
      else s.flow
  }

  predicate T1Fires(s: Cb, e: Event) {
    e.FireT1? && s.t1.armed && s.t1.running && s.t1.handler == T1Expiry
  }

  /** The sending side after the step, before a final Kick. */
  function PreKick(s: Cb, e: Event): Flow {
    match e
    case Receive(f, _) => MachineFlow(s, f)
    case FireT1 =>
      if T1Fires(s, e) && !s.state.Disconnected? && s.n2count == s.conf.n2 then Cleared(s.flow)
      else if T1Fires(s, e) && s.state.Connected? then Requeued(s.conf.repairs, s.flow)
      else s.flow
    case DisconnectRequest => if TakesData(s) then Cleared(s.flow) else s.flow
    case DataRequest(msg) => if TakesData(s) then Enqueued(s.flow, msg) else s.flow
    case FireT2 | ConnectRequest => s.flow
  }

  lemma SupervisoryFlow(s: Cb, f: Frame)
    requires s.flow.va < s.M() && s.state.Connected? && IsSupervisory(f.ftype)
    ensures Supervisory(s, f).flow == MachineFlow(s, f)
    ensures Supervisory(s, f).conf == s.conf
  {
    HeadKeeps(s, f);
    SupervisoryTailFlow(SupervisoryHead(s, f), f);
  }

  lemma SupervisoryTailFlow(s: Cb, f: Frame)
    requires s.flow.va < s.M() && s.state.Connected? && IsSupervisory(f.ftype)
    ensures SupervisoryTail(s, f).flow == MachineFlow(s, f)
    ensures SupervisoryTail(s, f).conf == s.conf
  {
    AckingKeeps(s, f.nr);
    AckingFlow(s, f.nr);
    FrameRejectKeeps(s, f, FRMR_Z);
  }

  lemma InfoFlow(s: Cb, f: Frame, data: seq<bv8>)
    requires s.flow.va < s.M() && s.state.Connected? && f.ftype.I?
    ensures Info(s, f, data).flow == MachineFlow(s, f)
    ensures Info(s, f, data).conf == s.conf
  {
    AckingKeeps(s, f.nr);
    AckingFlow(s, f.nr);
    FrameRejectKeeps(s, f, FRMR_Z);
    InfoTailKeeps(AckFromInfo(s, f.nr), f, data);
  }

  lemma UnnumberedFlow(s: Cb, f: Frame, data: seq<bv8>)
    requires s.state.Connected? && !IsSupervisory(f.ftype) && !f.ftype.I?
    ensures Machine3(s, f, data).flow == MachineFlow(s, f)
    ensures Machine3(s, f, data).conf == s.conf
  {
    match f.ftype
    case SABM | SABME =>
    case DISC | DM =>
    case FRMR =>
    case _ =>
  }

  lemma Machine3Flow(s: Cb, f: Frame, data: seq<bv8>)
    requires s.flow.va < s.M() && s.state.Connected?
    ensures Machine3(s, f, data).flow == MachineFlow(s, f)
    ensures Machine3(s, f, data).conf == s.conf
  {
    if IsSupervisory(f.ftype) {
      SupervisoryFlow(s, f);
    } else if f.ftype.I? {
      InfoFlow(s, f, data);
    } else {
      UnnumberedFlow(s, f, data);
    }
  }

  lemma IdleFlow(s: Cb, f: Frame, data: seq<bv8>)
    requires s.flow.va < s.M() && !s.state.Connected?
    ensures Machine(s, f, data).flow == MachineFlow(s, f)
    ensures Machine(s, f, data).conf == s.conf
  {
    match s.state
    case Disconnected =>
    case AwaitingConnection =>
    case AwaitingRelease =>
    case _ =>
  }

  lemma MachineFlowIs(s: Cb, f: Frame, data: seq<bv8>)
    requires s.flow.va < s.M()
    ensures Machine(s, f, data).flow == MachineFlow(s, f)
    ensures Machine(s, f, data).conf == s.conf
  {
    if s.state.Connected? {
      Machine3Flow(s, f, data);
    } else {
      IdleFlow(s, f, data);
    }
  }

  lemma T1Flow(s: Cb)
    requires s.t1.armed && s.t1.running && s.t1.handler == T1Expiry
    ensures FireT1Timer(s).conf == s.conf
    ensures var q := PreKick(s, FireT1); FireT1Timer(s).flow == q || FireT1Timer(s).flow == Advanced(s.conf, q)
  {
    var s1 := s.(t1 := s.t1.(armed := false));
    assert FireT1Timer(s) == T1Body(s1);
  }

  /** Every step ends with the flow of PreKick, possibly advanced by one Kick. */
  lemma StepFlow(s: Cb, e: Event)
    requires s.flow.va < s.M()
    ensures Step(s, e).conf == s.conf
    ensures var q := PreKick(s, e); Step(s, e).flow == q || Step(s, e).flow == Advanced(s.conf, q)
  {
    match e
    case Receive(f, data) => MachineFlowIs(s, f, data);
    case FireT1 =>
      if T1Fires(s, e) {
        T1Flow(s);
      }
    case _ =>
  }

  lemma VaBounded(s: Cb, e: Event)
    requires s.flow.va < s.M() && InRange(s.M(), e)
    ensures Step(s, e).flow.va < s.M() && Step(s, e).conf == s.conf
  {
    StepFlow(s, e);
    PreKickVa(s, e);
  }

  lemma PreKickVa(s: Cb, e: Event)
    requires s.flow.va < s.M() && InRange(s.M(), e)
    ensures PreKick(s, e).va < s.M()
  {
    match e
    case Receive(f, _) =>
      match s.state {
        case Connected =>
        case _ =>
      }
    case _ =>
  }

  // ---- The window invariant ----------------------------------------------------------------

  predicate Bounded(c: Conf, q: Flow) {
    1 <= c.window < c.M() && q.vs < c.M() && q.va < c.M()
  }

  /**
   * The ack queue is empty or spans exactly V(A)..V(S); it never exceeds the window; and its
   * entry i was last sent with N(S) = V(A) + i.
   */
  ghost predicate WindowInv(c: Conf, q: Flow) {
    && Bounded(c, q)
    && (q.ackQ == [] || |q.ackQ| == Gap(q.va, q.vs, c.M()))
    && |q.ackQ| <= c.window
    && |q.ackNs| == |q.ackQ|
    && forall i :: 0 <= i < |q.ackNs| ==> q.ackNs[i] == Wrap(q.va + i, c.M())
  }

  lemma AdvancedKeepsWindow(c: Conf, q: Flow)
    requires WindowInv(c, q)
    ensures WindowInv(c, Advanced(c, q))
  {
    if CanSend(c, q) {
      var start, k, m := SendStart(q), SendCount(c, q), c.M();
      GapWrap(start, SendEnd(c, q), m);
      var q' := Advanced(c, q);
      assert |q'.ackQ| == |q.ackQ| + k == Gap(q'.va, q'.vs, m);
      forall i | 0 <= i < |q'.ackNs| ensures q'.ackNs[i] == Wrap(q'.va + i, m) {
        if i >= |q.ackNs| {
          assert q'.ackNs[i] == Numbers(m, start, k)[i - |q.ackNs|];
        }
      }
    }
  }

  lemma SendEndIs(c: Conf, q: Flow)
    requires WindowInv(c, q)
    ensures Gap(SendStart(q), SendEnd(c, q), c.M()) == c.window - |q.ackQ|
    ensures SendStart(q) == SendEnd(c, q) <==> |q.ackQ| == c.window
  {
    var m := c.M();
    AddMod(q.va, |q.ackQ|, m);
    AddMod(q.va, c.window, m);
    GapOfMod(q.va + |q.ackQ|, c.window - |q.ackQ|, m);
    if q.ackQ != [] {
      GapWrap(q.va, q.vs, m);
    }
  }

  /** Frames wait only behind a full window. */
  predicate KickedOut(c: Conf, q: Flow) {
    q.writeQ == [] || |q.ackQ| == c.window
  }

  /** A burst is as long as the window and the write queue allow, and leaves nothing it could send. */
  lemma BurstExactly(c: Conf, q: Flow)
    requires WindowInv(c, q)
    ensures SendCount(c, q) == Min(|q.writeQ|, c.window - |q.ackQ|)
    ensures |Advanced(c, q).ackQ| == |q.ackQ| + SendCount(c, q)
    ensures Advanced(c, q).ackQ + Advanced(c, q).writeQ == q.ackQ + q.writeQ
    ensures KickedOut(c, Advanced(c, q))
  {
    SendEndIs(c, q);
    var k := SendCount(c, q);
    assert q.writeQ == q.writeQ[..k] + q.writeQ[k..];
  }

  lemma AckedKeepsWindow(c: Conf, q: Flow, nr: nat)
    requires WindowInv(c, q) && nr < c.M()
    ensures WindowInv(c, Acked(c.M(), q, nr))
  {
  }

  /**
   * A valid N(R) frees exactly the N(R) - V(A) oldest frames if any are unacknowledged, and none
   * otherwise, whatever the peer.
   */
  lemma AckedExactly(c: Conf, q: Flow, nr: nat)
    requires WindowInv(c, q) && nr < c.M() && Gap(q.va, nr, c.M()) <= Gap(q.va, q.vs, c.M())
    ensures var (t, k) := (Acked(c.M(), q, nr), if q.ackQ == [] then 0 else (nr - q.va) % c.M());
            && k <= |q.ackQ| && t.released == q.released + q.ackQ[..k] && t.ackQ == q.ackQ[k..]
            && t.va == (if q.ackQ == [] then q.va else nr) && t.vs == q.vs
  {
    GapWrap(q.va, nr, c.M());
  }

  /** A reset with frames still in the ack queue is beyond repair by the Kick that follows it. */
  lemma AdvancedKeepsStranded(c: Conf, q: Flow)
    requires Bounded(c, q) && q.vs == 0 && q.va == 0 && q.ackQ != []
    ensures !WindowInv(c, q) && !WindowInv(c, Advanced(c, q))
  {
  }

  /** Received frame `f` zeroes V(S) and V(A) without touching the ack queue (as written). */
  predicate ResetsInPlace(s: Cb, f: Frame) {
    match s.state
    case Disconnected | FrameReject => ConnectFrame(s, f)
    case AwaitingConnection => f.ftype.UA? && f.pf
    case _ => false
  }

  /** The one way to lose the window invariant: such a reset while frames are unacknowledged. */
  predicate StrandsFrames(s: Cb, e: Event) {
    e.Receive? && ResetsInPlace(s, e.frame) && !s.conf.repairs.resetRequeue && s.flow.ackQ != []
  }

  lemma SmallerKeepsWindow(c: Conf, q: Flow)
    requires Bounded(c, q)
    ensures WindowInv(c, Cleared(q)) && WindowInv(c, Requeued(c.repairs, q))
    ensures WindowInv(c, Requeued(c.repairs, ZeroedFlow(q)))
    ensures q.ackQ == [] && q.ackNs == [] ==> WindowInv(c, ZeroedFlow(q))
  {
  }

  lemma ConnectedWindow(s: Cb, f: Frame)
    requires WindowInv(s.conf, s.flow) && s.state.Connected?
    requires f.ftype.I? || IsSupervisory(f.ftype) ==> f.nr < s.M()
    ensures WindowInv(s.conf, MachineFlow(s, f))
  {
    SmallerKeepsWindow(s.conf, s.flow);
    if f.ftype.I? || IsSupervisory(f.ftype) {
      var a := Acked(s.M(), s.flow, f.nr);
      AckedKeepsWindow(s.conf, s.flow, f.nr);
      SmallerKeepsWindow(s.conf, a);
    }
  }

  lemma IdleWindow(s: Cb, f: Frame, data: seq<bv8>)
    requires WindowInv(s.conf, s.flow) && !s.state.Connected?
    ensures !StrandsFrames(s, Receive(f, data)) ==> WindowInv(s.conf, MachineFlow(s, f))
    ensures StrandsFrames(s, Receive(f, data)) ==> MachineFlow(s, f) == ZeroedFlow(s.flow)
  {
    SmallerKeepsWindow(s.conf, s.flow);
  }

  lemma PreKickWindow(s: Cb, e: Event)
    requires WindowInv(s.conf, s.flow) && InRange(s.M(), e)
    ensures !StrandsFrames(s, e) ==> WindowInv(s.conf, PreKick(s, e))
    ensures StrandsFrames(s, e) ==> PreKick(s, e) == ZeroedFlow(s.flow) && s.flow.ackQ != []
  {
    SmallerKeepsWindow(s.conf, s.flow);
    match e
    case Receive(f, data) =>
      if s.state.Connected? {
        ConnectedWindow(s, f);
      } else {
        IdleWindow(s, f, data);
      }
    case _ =>
  }

  /** Exactly which steps of the code keep the window invariant, whatever the peer sends. */
  lemma WindowStep(s: Cb, e: Event)
    requires WindowInv(s.conf, s.flow) && InRange(s.M(), e)
    ensures Step(s, e).conf == s.conf
    ensures WindowInv(s.conf, Step(s, e).flow) <==> !StrandsFrames(s, e)
  {
    var q := PreKick(s, e);
    PreKickWindow(s, e);
    StepFlow(s, e);
    if StrandsFrames(s, e) {
      AdvancedKeepsStranded(s.conf, q);
    } else {
      AdvancedKeepsWindow(s.conf, q);
    }
  }

  ghost function WindowHolds(c: Conf): Cb -> bool {
    (s: Cb) => s.conf == c && WindowInv(c, s.flow)
  }

  predicate InRangeFor(s: Cb, e: Event) {
    InRange(s.M(), e)
  }

  predicate KeepsFrames(s: Cb, e: Event) {
    !StrandsFrames(s, e)
  }

  /** Over any run against any peer: the invariant holds throughout exactly when no step strands a frame. */
  lemma {:induction false} WindowRun(s: Cb, es: seq<Event>)
    requires WindowInv(s.conf, s.flow)
    requires Each(Step, InRangeFor, s, es)
    ensures Throughout(Step, WindowHolds(s.conf), s, es) <==> Each(Step, KeepsFrames, s, es)
  {
    var inv := WindowHolds(s.conf);
    forall t, e | inv(t) && InRangeFor(t, e) ensures inv(Step(t, e)) <==> KeepsFrames(t, e) {
      WindowStep(t, e);
    }
    InvariantIff(Step, inv, InRangeFor, KeepsFrames, s, es);
  }

  /** With the reset repair it simply holds. */
  lemma {:induction false} WindowRunRepaired(s: Cb, es: seq<Event>)
    requires WindowInv(s.conf, s.flow) && s.conf.repairs.resetRequeue
    requires Each(Step, InRangeFor, s, es)
    ensures WindowInv(s.conf, Run(Step, s, es).flow)
  {
    var inv := WindowHolds(s.conf);
    forall t, e | inv(t) && InRangeFor(t, e) ensures inv(Step(t, e)) {
      WindowStep(t, e);
    }
    Invariant(Step, inv, InRangeFor, s, es);
  }
}
