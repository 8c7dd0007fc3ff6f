/**
 * When an endpoint gives up on the other: the retry counter counts the expiries of T1 since the
 * last sign of life, and T1 runs exactly while there is something to wait for.
 */
module X75GivingUp {
  import opened Modular
  import opened Runs
  import opened X75Types
  import opened X75Spec
  import opened X75Frame
  import opened X75Window
  import opened X75Timers
  import opened X75Retries
  import opened X75Outputs
  import opened X75Signals
  import opened X75Busy

  // ---- The retry counter -----------------------------------------------------------------------

  /**
   * The other end acknowledges everything sent, in an RR or RNR, or in an I frame unless it is
   * busy; or it rejects with a valid N(R).
   */
  predicate AcksAll(s: Cb, e: Event) {
    && e.Receive? && s.state.Connected?
    && var f := e.frame;
       || ((f.ftype.RR? || f.ftype.RNR?) && f.nr == s.flow.vs)
       || (f.ftype.I? && f.nr == s.flow.vs && !s.cond.peerBusy)
       || (f.ftype.REJ? && ValidNr(s, f.nr))
  }

  /** Everything that clears the retry counter. */
  predicate Clears(s: Cb, e: Event) {
    AcksAll(s, e) || Anew(s, e) || Releases(s, e) || Unacceptable(s, e)
  }

  predicate CountsAs(s: Cb, e: Event, t: Cb) {
    && t.conf == s.conf
    && t.n2count == if Clears(s, e) then 0 else if Retries(s, e) then s.n2count + 1 else s.n2count
  }

  lemma KickCounts(s: Cb)
    ensures Kick(s).n2count == s.n2count && Kick(s).conf == s.conf
  {
  }

  lemma SupervisoryCounts(s: Cb, f: Frame, data: seq<bv8>)
    requires s.state.Connected? && IsSupervisory(f.ftype)
    ensures CountsAs(s, Receive(f, data), Supervisory(s, f))
  {
    HeadKeeps(s, f);
    FrameRejectKeeps(SupervisoryHead(s, f), f, FRMR_Z);
  }

  lemma InfoCounts(s: Cb, f: Frame, data: seq<bv8>)
    requires s.state.Connected? && f.ftype.I?
    ensures CountsAs(s, Receive(f, data), Info(s, f, data))
  {
    FrameRejectKeeps(s, f, FRMR_Z);
    InfoTailKeeps(AckFromInfo(s, f.nr), f, data);
  }

  lemma UnnumberedCounts(s: Cb, f: Frame, data: seq<bv8>)
    requires s.state.Connected? && !HasNr(f.ftype)
    ensures CountsAs(s, Receive(f, data), Machine3(s, f, data))
  {
    match f.ftype
    case SABM | SABME =>
    case DISC | DM =>
    case FRMR =>
    case _ =>
  }

  lemma IdleCounts(s: Cb, f: Frame, data: seq<bv8>)
    requires !s.state.Connected?
    ensures CountsAs(s, Receive(f, data), Machine(s, f, data))
  {
    match s.state
    case Disconnected =>
    case AwaitingConnection =>
    case AwaitingRelease =>
    case _ =>
  }

  lemma ReceiveCounts(s: Cb, f: Frame, data: seq<bv8>)
    ensures CountsAs(s, Receive(f, data), DataInput(s, f, data))
  {
    if !s.state.Connected? {
      IdleCounts(s, f, data);
    } else if IsSupervisory(f.ftype) {
      SupervisoryCounts(s, f, data);
    } else if f.ftype.I? {
      InfoCounts(s, f, data);
    } else {
      UnnumberedCounts(s, f, data);
    }
    KickCounts(Machine(s, f, data));
  }

  lemma T1Counts(s: Cb)
    requires T1Fires(s, FireT1)
    ensures CountsAs(s, FireT1, T1Body(s.(t1 := s.t1.(armed := false))))
  {
    match s.state
    case Connected => KickCounts(Requeue(Retry(s.(t1 := s.t1.(armed := false)))));
    case _ =>
  }

  /** Exactly which stimuli clear the retry counter, and which raise it. */
  lemma CountStep(s: Cb, e: Event)
    ensures CountsAs(s, e, Step(s, e))
  {
    match e
    case Receive(f, data) => ReceiveCounts(s, f, data);
    case FireT1 =>
      if T1Fires(s, e) {
        T1Counts(s);
      }
    case DataRequest(msg) => KickCounts(s.(flow := Enqueued(s.flow, msg)));
    case _ =>
  }

  /** Expiries of T1 since the retry counter was last cleared. */
  function Unanswered(s: Cb, es: seq<Event>): nat {
    if es == [] then 0 else
      var (t, e) := (Run(Step, s, es[..|es| - 1]), es[|es| - 1]);
      if Clears(t, e) then 0 else Unanswered(s, es[..|es| - 1]) + if T1Fires(t, e) then 1 else 0
  }

  lemma {:induction false} UnansweredExactly(s: Cb, es: seq<Event>)
    requires s.n2count == 0
    ensures var t := Run(Step, s, es);
            t.conf == s.conf && (t.state.Connected? ==> t.n2count == Unanswered(s, es))
  {
    if es != [] {
      var t, e := Run(Step, s, es[..|es| - 1]), es[|es| - 1];
      UnansweredExactly(s, es[..|es| - 1]);
      CountStep(t, e);
      var infos := SignalsStep(t, e);
    }
  }

  /**
   * Over any run: when T1 expires in the data transfer state, the endpoint gives up and reports a
   * timeout exactly if this is expiry number N2 + 1 since everything was last acknowledged, a REJ
   * came, or the connection was set up.
   */
  lemma {:induction false} GivesUpExactly(s: Cb, es: seq<Event>)
    requires s.n2count == 0
    requires var t := Run(Step, s, es); t.state.Connected? && T1Fires(t, FireT1)
    ensures var t := Run(Step, s, es);
            if Unanswered(s, es) == s.conf.n2 then
              && Step(t, FireT1).state.Disconnected?
              && Step(t, FireT1).log.notices == t.log.notices + [DisconnectIndication(TimedOut)]
            else
              Step(t, FireT1).state.Connected? && Step(t, FireT1).log.notices == t.log.notices
  {
    UnansweredExactly(s, es);
    var infos := SignalsStep(Run(Step, s, es), FireT1);
  }

  // ---- T1 runs only while there is something to wait for -------------------------------------------

  /**
   * In the data transfer state T1 runs while something is unacknowledged, and otherwise only
   * because of a busy end.
   */
  ghost predicate Paced(s: Cb) {
    s.state.Connected? ==>
      && FlowOk(s.conf, s.flow)
      && (s.flow.ackQ != [] ==> s.t1.running)
      && (s.t1.running && !s.cond.peerBusy ==> s.flow.ackQ != [])
  }

  /** The same before a Kick, which may yet send. */
  ghost predicate Pacing(s: Cb) {
    && FlowOk(s.conf, s.flow)
    && (s.flow.ackQ != [] ==> s.t1.running)
    && (s.t1.running && !s.cond.peerBusy ==> s.flow.ackQ != [] || s.flow.writeQ != [])
  }

  lemma KickPaces(s: Cb)
    requires Pacing(s)
    ensures Paced(Kick(s)) && FlowOk(s.conf, Kick(s).flow)
  {
    AdvancedOk(s.conf, s.flow);
    BurstExactly(s.conf, s.flow);
    if KickEnabled(s) {
      assert Kick(s).flow == Advanced(s.conf, s.flow);
    } else if !s.cond.peerBusy {
      SendEndIs(s.conf, s.flow);
    }
  }

  lemma CheckAckedPaces(s: Cb, nr: nat)
    requires FlowOk(s.conf, s.flow) && nr < s.M() && ValidNr(s, nr)
    requires s.flow.ackQ != [] ==> s.t1.running
    ensures Pacing(CheckIframesAcked(s, nr))
  {
    AckedOk(s.conf, s.flow, nr);
    if s.flow.vs == nr {
      AckedAll(s.conf, s.flow);
    }
  }

  lemma GoBackPaces(s: Cb, nr: nat)
    requires FlowOk(s.conf, s.flow) && nr < s.M() && ValidNr(s, nr)
    ensures Pacing(GoBack(s, nr))
  {
    AckedOk(s.conf, s.flow, nr);
    RequeuedOk(s.conf, Acked(s.M(), s.flow, nr));
  }

  lemma SupervisoryPaces(s: Cb, f: Frame)
    requires Paced(s) && s.state.Connected? && IsSupervisory(f.ftype) && f.nr < s.M()
    ensures Supervisory(s, f).state.Connected? ==> Pacing(Supervisory(s, f))
  {
    HeadKeeps(s, f);
    var s1 := SupervisoryHead(s, f);
    if ValidNr(s, f.nr) {
      CheckAckedPaces(s1, f.nr);
      GoBackPaces(s1, f.nr);
    } else {
      FrameRejectKeeps(s1, f, FRMR_Z);
    }
  }

  lemma AckPaces(s: Cb, nr: nat)
    requires Paced(s) && s.state.Connected? && nr < s.M() && ValidNr(s, nr)
    ensures Pacing(AckFromInfo(s, nr))
  {
    if s.cond.peerBusy {
      AckedOk(s.conf, s.flow, nr);
    } else {
      CheckAckedPaces(s, nr);
    }
  }

  lemma InfoPaces(s: Cb, f: Frame, data: seq<bv8>)
    requires Paced(s) && s.state.Connected? && f.ftype.I? && f.nr < s.M()
    ensures Info(s, f, data).state.Connected? ==> Pacing(Info(s, f, data))
  {
    if ValidNr(s, f.nr) {
      var s1 := AckFromInfo(s, f.nr);
      AckPaces(s, f.nr);
      InfoTailKeeps(s1, f, data);
      TailPaces(s1, f, data);
    } else {
      FrameRejectKeeps(s, f, FRMR_Z);
    }
  }

  lemma TailPaces(s: Cb, f: Frame, data: seq<bv8>)
    ensures var t := InfoTail(s, f, data); t.t1.running == s.t1.running && t.cond.peerBusy == s.cond.peerBusy
  {
  }

  lemma UnnumberedPaces(s: Cb, f: Frame, data: seq<bv8>)
    requires Paced(s) && s.state.Connected? && !HasNr(f.ftype)
    ensures Machine3(s, f, data).state.Connected? ==> Pacing(Machine3(s, f, data))
  {
    var u := Requeue(ResetVariables(SendControl(s, UA, f.pf, Response)));
    ResetPaces(u);
    match f.ftype
    case SABM | SABME =>
      var d := SendControl(s, DM, f.pf, Response);
      assert Machine3(s, f, data) == u || Machine3(s, f, data) == d;
    case DISC | DM =>
    case FRMR =>
    case _ =>
  }

  lemma ResetPaces(u: Cb)
    requires !u.t1.running && u.flow.ackQ == [] && u.flow.vs == 0 && u.flow.va == 0 && WindowInv(u.conf, u.flow)
    ensures Pacing(u)
  {
  }

  /** A connection starts with T1 stopped and nothing unacknowledged. */
  lemma IdlePaces(s: Cb, f: Frame, data: seq<bv8>)
    requires WindowInv(s.conf, s.flow) && !s.state.Connected? && KeepsFrames(s, Receive(f, data))
    ensures Machine(s, f, data).state.Connected? ==> Pacing(Machine(s, f, data))
  {
    SmallerKeepsWindow(s.conf, s.flow);
    match s.state
    case Disconnected =>
    case AwaitingConnection =>
    case AwaitingRelease =>
    case _ =>
  }

  lemma ReceivePaces(s: Cb, f: Frame, data: seq<bv8>)
    requires WindowInv(s.conf, s.flow) && Paced(s) && Orderly(s, Receive(f, data))
    ensures Paced(DataInput(s, f, data))
  {
    if !s.state.Connected? {
      IdlePaces(s, f, data);
    } else if IsSupervisory(f.ftype) {
      SupervisoryPaces(s, f);
    } else if f.ftype.I? {
      InfoPaces(s, f, data);
    } else {
      UnnumberedPaces(s, f, data);
    }
    ThenKickPaces(Machine(s, f, data));
  }

  lemma ThenKickPaces(s: Cb)
    requires s.state.Connected? ==> Pacing(s)
    ensures Paced(Kick(s))
  {
    if s.state.Connected? {
      KickPaces(s);
    }
  }

  lemma T1Paces(s: Cb)
    requires Paced(s) && T1Fires(s, FireT1) && s.state.Connected?
    ensures Paced(Step(s, FireT1))
  {
    var s1 := s.(t1 := s.t1.(armed := false));
    assert Step(s, FireT1) == T1Body(s1);
    if s.n2count != s.conf.n2 {
      var s2 := Requeue(Retry(s1));
      RequeuedOk(s.conf, s.flow);
      KickPaces(s2);
      assert T1Body(s1) == StartT1(Kick(s2));
    }
  }

  lemma DataPaces(s: Cb, msg: Msgb)
    requires Paced(s)
    ensures Paced(DataReq(s, msg))
  {
    if s.state.Connected? {
      EnqueuedOk(s.conf, s.flow, msg);
      KickPaces(s.(flow := Enqueued(s.flow, msg)));
    }
  }

  lemma TimerPaces(s: Cb, e: Event)
    requires Paced(s) && (e.FireT1? || e.FireT2?)
    ensures Paced(Step(s, e))
  {
    if T1Fires(s, e) && s.state.Connected? {
      T1Paces(s);
    } else if s.state.Connected? {
      T2RoutineFlow(s.(t1 := s.t1.(armed := false)));
      T2RoutineFlow(s.(t2 := s.t2.(armed := false)));
    } else {
      var infos := SignalsStep(s, e);
    }
  }

  lemma PacedStep(s: Cb, e: Event)
    requires WindowInv(s.conf, s.flow) && Paced(s) && Orderly(s, e)
    ensures Paced(Step(s, e))
  {
    match e
    case Receive(f, data) => ReceivePaces(s, f, data);
    case FireT1 | FireT2 => TimerPaces(s, e);
    case DataRequest(msg) => DataPaces(s, msg);
    case _ =>
  }

  lemma {:induction false} PacedThroughout(s: Cb, es: seq<Event>)
    requires WindowInv(s.conf, s.flow) && Paced(s) && Each(Step, Orderly, s, es)
    ensures var t := Run(Step, s, es); WindowInv(t.conf, t.flow) && Paced(t)
  {
    if es != [] {
      var t, e := Run(Step, s, es[..|es| - 1]), es[|es| - 1];
      PacedThroughout(s, es[..|es| - 1]);
      PacedStep(t, e);
      WindowStep(t, e);
    }
  }

  /**
   * Over any run against any peer on which no reset strands frames: in the data transfer state T1
   * runs exactly while something is unacknowledged, unless the other end has said that it is busy.
   */
  lemma {:induction false} PacedRun(s: Cb, es: seq<Event>)
    requires WindowInv(s.conf, s.flow) && Paced(s) && !s.cond.peerBusy && Each(Step, Orderly, s, es)
    ensures var t := Run(Step, s, es);
            t.state.Connected? && !PeerBusy(s, es) ==> (t.t1.running <==> t.flow.ackQ != [])
  {
    PacedThroughout(s, es);
    BusyExactly(s, es);
  }

  // ---- A busy end is given up on -------------------------------------------------------------------

  /** T1 expires, or the other end says once more that it is busy and has received nothing new. */
  predicate StillBusy(s: Cb, e: Event) {
    e.FireT1? || (e.Receive? && e.frame.ftype.RNR? && e.frame.cr.Response? && e.frame.nr == s.flow.va)
  }

  /** Data is not acknowledged, the other end is busy, and T1 has expired k times. */
  predicate Held(s: Cb, k: nat) {
    && s.state.Connected? && s.cond.peerBusy && s.t1 == T1_STARTED
    && s.flow.va < s.M() && s.flow.va != s.flow.vs && s.n2count == k
  }

  lemma HeldStep(s: Cb, e: Event, k: nat)
    requires Held(s, k) && StillBusy(s, e) && (e.FireT1? ==> k < s.conf.n2)
    ensures Held(Step(s, e), if e.FireT1? then k + 1 else k) && Step(s, e).conf == s.conf
  {
    if e.FireT1? {
      var s2 := Requeue(Retry(s.(t1 := s.t1.(armed := false))));
      assert Kick(s2) == s2 && Step(s, e) == StartT1(s2);
    } else {
      var s1 := SupervisoryHead(s, e.frame);
      assert s1 == s && CheckIframesAcked(s1, e.frame.nr) == s1;
    }
  }

  /**
   * An RNR that acknowledges nothing new is no sign of life: after N2 + 1 expiries of T1 a busy
   * end is given up on, however often it has said in between that it is busy.
   */
  lemma {:induction false} BusyIsGivenUp(s: Cb, es: seq<Event>)
    requires Held(s, 0) && Each(Step, StillBusy, s, es) && CountT1(es) <= s.conf.n2
    ensures var t := Run(Step, s, es); Held(t, CountT1(es)) && t.conf == s.conf
    ensures CountT1(es) == s.conf.n2 ==> Step(Run(Step, s, es), FireT1).state.Disconnected?
  {
    if es != [] {
      var before := es[..|es| - 1];
      BusyIsGivenUp(s, before);
      HeldStep(Run(Step, s, before), es[|es| - 1], CountT1(before));
    }
  }
}
