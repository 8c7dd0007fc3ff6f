/**
 * Flow control by the other end: whether it is busy, read off what it has said, and what waits
 * because of it. Nothing is sent to a busy end, and to one that is not busy nothing is held back.
 */
module X75Busy {
  import opened Modular
  import opened Runs
  import opened X75Types
  import opened X75Spec
  import opened X75Frame
  import opened X75Window
  import opened X75Replies
  import opened X75Signals

  predicate SaysBusy(s: Cb, e: Event) {
    e.Receive? && s.state.Connected? && e.frame.ftype.RNR?
  }

  predicate SaysReady(s: Cb, e: Event) {
    e.Receive? && s.state.Connected? && (e.frame.ftype.RR? || e.frame.ftype.REJ?)
  }

  /** The connection is set up or asked for anew. */
  predicate Anew(s: Cb, e: Event) {
    Opens(s, e) || Seeks(s, e)
  }

  /** An RNR has been received, and since then no RR, REJ or reset. */
  predicate PeerBusy(s: Cb, es: seq<Event>) {
    es != []
    && var (t, e) := (Run(Step, s, es[..|es| - 1]), es[|es| - 1]);
       SaysBusy(t, e) || (PeerBusy(s, es[..|es| - 1]) && !SaysReady(t, e) && !Anew(t, e))
  }

  // ---- The condition is the history ------------------------------------------------------------

  predicate BusyAs(s: Cb, e: Event, t: Cb) {
    t.cond.peerBusy <==> SaysBusy(s, e) || (s.cond.peerBusy && !SaysReady(s, e) && !Anew(s, e))
  }

  lemma KickBusy(s: Cb)
    ensures Kick(s).cond.peerBusy == s.cond.peerBusy
  {
  }

  lemma SupervisoryBusy(s: Cb, f: Frame)
    requires s.state.Connected? && IsSupervisory(f.ftype)
    ensures Supervisory(s, f).cond.peerBusy == f.ftype.RNR?
  {
    var s1 := SupervisoryHead(s, f);
    assert s1.cond.peerBusy == f.ftype.RNR?;
    AckingKeeps(s1, f.nr);
    FrameRejectKeeps(s1, f, FRMR_Z);
  }

  lemma InfoBusy(s: Cb, f: Frame, data: seq<bv8>)
    ensures Info(s, f, data).cond.peerBusy == s.cond.peerBusy
  {
    AckingKeeps(s, f.nr);
    FrameRejectKeeps(s, f, FRMR_Z);
  }

  lemma UnnumberedBusy(s: Cb, f: Frame, data: seq<bv8>)
    requires s.state.Connected? && !IsSupervisory(f.ftype) && !f.ftype.I?
    ensures BusyAs(s, Receive(f, data), Machine3(s, f, data))
  {
    match f.ftype
    case SABM | SABME =>
    case DISC | DM =>
    case FRMR =>
    case _ =>
  }

  lemma IdleBusy(s: Cb, f: Frame, data: seq<bv8>)
    requires !s.state.Connected?
    ensures BusyAs(s, Receive(f, data), Machine(s, f, data))
  {
    match s.state
    case Disconnected =>
    case AwaitingConnection =>
    case AwaitingRelease =>
    case _ =>
  }

  lemma ReceiveBusy(s: Cb, f: Frame, data: seq<bv8>)
    ensures BusyAs(s, Receive(f, data), DataInput(s, f, data))
  {
    if !s.state.Connected? {
      IdleBusy(s, f, data);
    } else if IsSupervisory(f.ftype) {
      SupervisoryBusy(s, f);
    } else if f.ftype.I? {
      InfoBusy(s, f, data);
    } else {
      UnnumberedBusy(s, f, data);
    }
    KickBusy(Machine(s, f, data));
  }

  lemma T1BodyBusy(s: Cb)
    ensures T1Body(s).cond.peerBusy
         <==> s.cond.peerBusy && !(s.state.Disconnected? && !(s.conf.mode.dce && s.n2count != s.conf.n2))
  {
    match s.state
    case Connected => KickBusy(Requeue(Retry(s)));
    case _ =>
  }

  lemma BusyStep(s: Cb, e: Event)
    ensures BusyAs(s, e, Step(s, e))
  {
    match e
    case Receive(f, data) => ReceiveBusy(s, f, data);
    case FireT1 => T1BodyBusy(s.(t1 := s.t1.(armed := false)));
    case DataRequest(msg) => KickBusy(s.(flow := Enqueued(s.flow, msg)));
    case _ =>
  }

  /** Over any run the condition bit says exactly what the history says. */
  lemma {:induction false} BusyExactly(s: Cb, es: seq<Event>)
    requires !s.cond.peerBusy
    ensures Run(Step, s, es).cond.peerBusy <==> PeerBusy(s, es)
  {
    if es != [] {
      BusyExactly(s, es[..|es| - 1]);
      BusyStep(Run(Step, s, es[..|es| - 1]), es[|es| - 1]);
    }
  }

  // ---- Nothing is sent to a busy end -------------------------------------------------------------

  predicate IsInfo(p: Pdu) {
    p.IFrame?
  }

  /** I frames sent so far. */
  function InfosSent(s: Cb): nat {
    Count(IsInfo, s.log.sent)
  }

  lemma InfosSentStep(s: Cb, e: Event) returns (infos: seq<Pdu>)
    ensures var t := Step(s, e);
            && Infos(t, infos) && t.log.sent == s.log.sent + Acks(s, e) + Signals(s, e) + infos
            && InfosSent(t) == InfosSent(s) + |infos|
  {
    infos := SignalsStep(s, e);
    AnswersAreNoInfos(s, e);
    CountSent(s.log.sent, Acks(s, e), Signals(s, e), infos);
  }

  predicate NoInfos(ps: seq<Pdu>) {
    forall i :: 0 <= i < |ps| ==> !IsInfo(ps[i])
  }

  lemma AnswersAreNoInfos(s: Cb, e: Event)
    ensures NoInfos(Acks(s, e)) && NoInfos(Signals(s, e))
  {
  }

  lemma CountSent(xs: seq<Pdu>, a: seq<Pdu>, u: seq<Pdu>, infos: seq<Pdu>)
    requires NoInfos(a) && NoInfos(u)
    requires forall i :: 0 <= i < |infos| ==> IsInfo(infos[i])
    ensures Count(IsInfo, xs + a + u + infos) == Count(IsInfo, xs) + |infos|
    ensures xs + (a + u + infos) == xs + a + u + infos
  {
    CountNone(IsInfo, xs, a);
    CountNone(IsInfo, xs + a, u);
    CountAll(IsInfo, xs + a + u, infos);
    Joined(xs, a, u);
    Joined(xs, a + u, infos);
  }

  predicate LeavesBusy(s: Cb, e: Event) {
    !SaysReady(s, e) && !Anew(s, e)
  }

  lemma {:induction false} StaysSilent(s: Cb, es: seq<Event>)
    requires s.cond.peerBusy && Each(Step, LeavesBusy, s, es)
    ensures Run(Step, s, es).cond.peerBusy && InfosSent(Run(Step, s, es)) == InfosSent(s)
  {
    if es != [] {
      var t, e := Run(Step, s, es[..|es| - 1]), es[|es| - 1];
      StaysSilent(s, es[..|es| - 1]);
      BusyStep(t, e);
      var infos := InfosSentStep(t, e);
    }
  }

  /**
   * From an RNR received in the data transfer state until the next RR, REJ or reset no I frame
   * goes out, whatever else arrives, expires or is requested.
   */
  lemma {:induction false} NothingToABusyPeer(s: Cb, rnr: Event, es: seq<Event>)
    requires SaysBusy(s, rnr) && Each(Step, LeavesBusy, Step(s, rnr), es)
    ensures InfosSent(Run(Step, Step(s, rnr), es)) == InfosSent(s)
  {
    BusyStep(s, rnr);
    var infos := InfosSentStep(s, rnr);
    StaysSilent(Step(s, rnr), es);
  }

  // ---- And nothing is held back from one that is not ----------------------------------------------

  lemma KickLets(s: Cb)
    requires WindowInv(s.conf, s.flow) && !s.cond.peerBusy
    ensures KickedOut(s.conf, Kick(s).flow)
  {
    BurstExactly(s.conf, s.flow);
  }

  /**
   * An RR or REJ with a valid N(R) lets go everything the window has room for, also when the other
   * end was busy before: what was waiting, and after a REJ everything from N(R) on.
   */
  lemma ReadyLetsGo(s: Cb, e: Event)
    requires WindowInv(s.conf, s.flow) && SaysReady(s, e) && e.frame.nr < s.M() && ValidNr(s, e.frame.nr)
    ensures var (t, q) := (Step(s, e), PreKick(s, e));
            && t.state.Connected? && KickedOut(t.conf, t.flow) && t.flow.ackQ + t.flow.writeQ == q.ackQ + q.writeQ
            && InfosSent(t) == InfosSent(s) + Min(|q.writeQ|, s.conf.window - |q.ackQ|)
  {
    ReadyAdvances(s, e);
    PreKickWindow(s, e);
    BurstExactly(s.conf, PreKick(s, e));
    StateStays(s, e);
    KickCount(s, e);
  }

  lemma ReadyAdvances(s: Cb, e: Event)
    requires SaysReady(s, e) && s.flow.va < s.M()
    ensures Step(s, e).flow == Advanced(s.conf, PreKick(s, e)) && Step(s, e).conf == s.conf
  {
    SupervisoryBusy(s, e.frame);
    SupervisoryFlow(s, e.frame);
  }

  lemma StateStays(s: Cb, e: Event)
    requires SaysReady(s, e) && ValidNr(s, e.frame.nr)
    ensures Step(s, e).state.Connected?
  {
    var infos := SignalsStep(s, e);
  }

  /** The I frames of a step are those its last Kick appends to the ack queue. */
  lemma KickCount(s: Cb, e: Event)
    requires SaysReady(s, e) && s.flow.va < s.M() && ValidNr(s, e.frame.nr)
    ensures var q := PreKick(s, e); InfosSent(Step(s, e)) == InfosSent(s) + |Step(s, e).flow.ackQ| - |q.ackQ|
  {
    var s1 := Supervisory(s, e.frame);
    SupervisoryFlow(s, e.frame);
    SupervisorySays(s, e.frame, e.data);
    AnswersAreNoInfos(s, e);
    CountNone(IsInfo, s.log.sent, Acks(s, e) + Signals(s, e));
    KickSends(s1);
  }

  lemma KickSends(s: Cb)
    ensures InfosSent(Kick(s)) == InfosSent(s) + |Kick(s).flow.ackQ| - |s.flow.ackQ|
  {
    if KickEnabled(s) {
      CountAll(IsInfo, s.log.sent, NextBurst(s));
    }
  }

  /** Data waits in the data transfer state only behind a full window or a busy end. */
  predicate Prompt(s: Cb) {
    s.state.Connected? && !s.cond.peerBusy ==> KickedOut(s.conf, s.flow)
  }

  lemma KickPrompts(s: Cb)
    requires WindowInv(s.conf, s.flow)
    ensures Prompt(Kick(s)) && Kick(s).conf == s.conf
  {
    if !s.cond.peerBusy {
      KickLets(s);
    }
  }

  lemma ReceivePrompts(s: Cb, f: Frame, data: seq<bv8>)
    requires WindowInv(s.conf, s.flow) && InRange(s.M(), Receive(f, data)) && KeepsFrames(s, Receive(f, data))
    ensures Prompt(DataInput(s, f, data))
  {
    MachineFlowIs(s, f, data);
    PreKickWindow(s, Receive(f, data));
    KickPrompts(Machine(s, f, data));
  }

  lemma T1Prompts(s: Cb)
    requires WindowInv(s.conf, s.flow) && Prompt(s)
    ensures Prompt(T1Body(s))
  {
    if s.state.Connected? && s.n2count != s.conf.n2 {
      SmallerKeepsWindow(s.conf, s.flow);
      KickPrompts(Requeue(Retry(s)));
      assert T1Body(s) == StartT1(Kick(Requeue(Retry(s))));
    }
  }

  lemma PromptStep(s: Cb, e: Event)
    requires WindowInv(s.conf, s.flow) && Prompt(s) && InRange(s.M(), e) && KeepsFrames(s, e)
    ensures Prompt(Step(s, e))
  {
    match e
    case Receive(f, data) => ReceivePrompts(s, f, data);
    case FireT1 => T1Prompts(s.(t1 := s.t1.(armed := false)));
    case DataRequest(msg) =>
      if TakesData(s) {
        KickPrompts(s.(flow := Enqueued(s.flow, msg)));
      }
    case _ =>
  }

  predicate Orderly(s: Cb, e: Event) {
    InRange(s.M(), e) && KeepsFrames(s, e)
  }

  ghost predicate PromptInv(s: Cb) {
    WindowInv(s.conf, s.flow) && Prompt(s)
  }

  lemma {:induction false} PromptRun(s: Cb, es: seq<Event>)
    requires PromptInv(s) && Each(Step, Orderly, s, es)
    ensures PromptInv(Run(Step, s, es)) && Run(Step, s, es).conf == s.conf
  {
    if es != [] {
      var t, e := Run(Step, s, es[..|es| - 1]), es[|es| - 1];
      PromptRun(s, es[..|es| - 1]);
      PromptStep(t, e);
      WindowStep(t, e);
    }
  }

  /**
   * Over any run against any peer on which no reset strands frames: in the data transfer state
   * frames wait only behind a full window, or because the other end has said that it is busy.
   */
  lemma {:induction false} NothingHeldBack(s: Cb, es: seq<Event>)
    requires PromptInv(s) && !s.cond.peerBusy && Each(Step, Orderly, s, es)
    ensures var t := Run(Step, s, es);
            t.state.Connected? && !PeerBusy(s, es) ==> t.flow.writeQ == [] || |t.flow.ackQ| == s.conf.window
  {
    PromptRun(s, es);
    BusyExactly(s, es);
  }
}
