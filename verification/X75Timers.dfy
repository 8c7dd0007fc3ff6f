/**
 * What the two timers guarantee: unacknowledged data is retransmitted, received data is
 * acknowledged, and a silent peer is given up on.
 */
module X75Timers {
  import opened Modular
  import opened Runs
  import opened X75Types
  import opened X75Spec
  import opened X75Frame
  import opened X75Window

  // ---- T1: no stuck data -------------------------------------------------------------------

  /** A running T1 is pending and will call the T1 handler; a stopped one is not pending. */
  predicate T1Sound(s: Cb) {
    s.t1.armed == s.t1.running && (s.t1.running ==> s.t1.handler.T1Expiry?)
  }

  /** In the data transfer state, unacknowledged frames are guarded by a sound, running T1. */
  predicate T1Live(s: Cb) {
    T1Sound(s) && (s.state.Connected? && s.flow.ackQ != [] ==> s.t1.running)
  }

  /** Event `e` accepts an I frame whose acknowledgement is postponed by starting T2. */
  predicate StartsT2(s: Cb, e: Event) {
    && e.Receive? && s.state.Connected? && e.frame.ftype.I? && ValidNr(s, e.frame.nr)
    && e.frame.ns == s.vr && !e.frame.pf && !s.cond.ackPending
  }

  /** T1 is running once the N(R) of a valid I frame has been processed. */
  predicate T1RunsAfterAck(s: Cb, nr: nat) {
    if s.cond.peerBusy || (s.flow.vs != nr && s.flow.va == nr) then s.t1.running
    else s.flow.vs != nr
  }

  /** As written, starting T2 then replaces the handler of the running T1. */
  predicate HijacksT1(s: Cb, e: Event) {
    !s.conf.repairs.ownT2 && StartsT2(s, e) && T1RunsAfterAck(s, e.frame.nr)
  }

  predicate T1Hijacked(s: Cb) {
    s.t1.running && s.t1.handler.T2Expiry?
  }

  lemma KickLive(s: Cb)
    ensures T1Live(s) ==> T1Live(Kick(s))
    ensures T1Hijacked(s) ==> T1Hijacked(Kick(s))
  {
  }

  lemma AckedAll(c: Conf, q: Flow)
    requires WindowInv(c, q)
    ensures Acked(c.M(), q, q.vs).ackQ == []
  {
  }

  lemma FramesAckedLive(s: Cb, nr: nat)
    requires T1Live(s)
    ensures T1Live(FramesAcked(s, nr))
  {
    assert s.flow.ackQ == [] ==> FramesAcked(s, nr).flow.ackQ == [];
  }

  lemma CheckAckedLive(s: Cb, nr: nat)
    requires WindowInv(s.conf, s.flow) && T1Live(s)
    ensures T1Live(CheckIframesAcked(s, nr))
  {
    if s.flow.vs == nr {
      AckedAll(s.conf, s.flow);
    }
  }

  lemma GoBackLive(s: Cb, nr: nat)
    requires T1Live(s)
    ensures T1Live(GoBack(s, nr))
  {
  }

  lemma AckLive(s: Cb, nr: nat)
    requires WindowInv(s.conf, s.flow) && T1Live(s)
    ensures T1Live(AckFromInfo(s, nr))
    ensures AckFromInfo(s, nr).t1.running == T1RunsAfterAck(s, nr)
  {
    FramesAckedLive(s, nr);
    CheckAckedLive(s, nr);
  }

  lemma FrameRejectLive(s: Cb, f: Frame, reason: bv8)
    ensures T1Live(EnterFrameReject(s, f, reason))
  {
  }

  lemma SupervisoryLive(s: Cb, f: Frame)
    requires WindowInv(s.conf, s.flow) && T1Live(s) && s.state.Connected? && IsSupervisory(f.ftype)
    ensures T1Live(Supervisory(s, f))
  {
    HeadKeeps(s, f);
    SupervisoryTailLive(SupervisoryHead(s, f), f);
  }

  lemma SupervisoryTailLive(s: Cb, f: Frame)
    requires WindowInv(s.conf, s.flow) && T1Live(s)
    ensures T1Live(SupervisoryTail(s, f))
  {
    CheckAckedLive(s, f.nr);
    GoBackLive(s, f.nr);
    FrameRejectLive(s, f, FRMR_Z);
  }

  lemma InfoLive(s: Cb, f: Frame, data: seq<bv8>)
    requires WindowInv(s.conf, s.flow) && T1Live(s) && s.state.Connected? && f.ftype.I?
    ensures HijacksT1(s, Receive(f, data)) ==> T1Hijacked(Info(s, f, data))
    ensures !HijacksT1(s, Receive(f, data)) ==> T1Live(Info(s, f, data))
  {
    AckLive(s, f.nr);
    AckingKeeps(s, f.nr);
    FrameRejectLive(s, f, FRMR_Z);
    var s1 := AckFromInfo(s, f.nr);
    AcceptLive(s1, f.pf, data);
    RefuseLive(s1, f.pf);
  }

  lemma AcceptLive(s: Cb, pf: bool, data: seq<bv8>)
    requires T1Live(s)
    ensures var h := !s.conf.repairs.ownT2 && !pf && !s.cond.ackPending && s.t1.running;
            (h ==> T1Hijacked(AcceptInfo(s, pf, data))) && (!h ==> T1Live(AcceptInfo(s, pf, data)))
  {
  }

  lemma RefuseLive(s: Cb, pf: bool)
    requires T1Live(s)
    ensures T1Live(RefuseInfo(s, pf))
  {
  }

  lemma UnnumberedLive(s: Cb, f: Frame, data: seq<bv8>)
    requires T1Live(s) && s.state.Connected? && !IsSupervisory(f.ftype) && !f.ftype.I?
    ensures T1Live(Machine3(s, f, data))
  {
    match f.ftype
    case SABM | SABME =>
    case DISC | DM =>
    case FRMR =>
    case _ =>
  }

  lemma IdleLive(s: Cb, f: Frame, data: seq<bv8>)
    requires T1Live(s) && !s.state.Connected? && !StrandsFrames(s, Receive(f, data))
    ensures T1Live(Machine(s, f, data))
  {
    match s.state
    case Disconnected =>
    case AwaitingConnection =>
    case AwaitingRelease =>
    case _ =>
  }

  lemma Machine3Live(s: Cb, f: Frame, data: seq<bv8>)
    requires WindowInv(s.conf, s.flow) && T1Live(s) && s.state.Connected?
    ensures HijacksT1(s, Receive(f, data)) ==> T1Hijacked(Machine3(s, f, data))
    ensures !HijacksT1(s, Receive(f, data)) ==> T1Live(Machine3(s, f, data))
  {
    if IsSupervisory(f.ftype) {
      SupervisoryLive(s, f);
    } else if f.ftype.I? {
      InfoLive(s, f, data);
    } else {
      UnnumberedLive(s, f, data);
    }
  }

  lemma ReceiveLive(s: Cb, f: Frame, data: seq<bv8>)
    requires WindowInv(s.conf, s.flow) && T1Live(s) && !StrandsFrames(s, Receive(f, data))
    ensures T1Live(DataInput(s, f, data)) <==> !HijacksT1(s, Receive(f, data))
  {
    if s.state.Connected? {
      Machine3Live(s, f, data);
    } else {
      IdleLive(s, f, data);
    }
    KickLive(Machine(s, f, data));
  }

  lemma T1BodyLive(s: Cb)
    requires !s.t1.armed
    ensures T1Live(T1Body(s))
  {
    match s.state
    case Connected =>
    case _ =>
  }

  lemma TimerLive(s: Cb)
    requires T1Live(s)
    ensures T1Live(FireT1Timer(s)) && T1Live(FireT2Timer(s))
  {
    T1BodyLive(s.(t1 := s.t1.(armed := false)));
  }

  lemma RequestLive(s: Cb, e: Event)
    requires T1Live(s) && (e.ConnectRequest? || e.DisconnectRequest? || e.DataRequest?)
    ensures T1Live(Step(s, e))
  {
    match e
    case DataRequest(msg) => KickLive(s.(flow := Enqueued(s.flow, msg)));
    case _ =>
  }

  /** Window invariant and live T1 together. */
  ghost predicate Guarded(s: Cb) {
    WindowInv(s.conf, s.flow) && T1Live(s)
  }

  predicate KeepsGuard(s: Cb, e: Event) {
    !StrandsFrames(s, e) && !HijacksT1(s, e)
  }

  /** Exactly which steps of the code keep every unacknowledged frame guarded by T1. */
  lemma GuardedStep(s: Cb, e: Event)
    requires Guarded(s) && InRange(s.M(), e)
    ensures Guarded(Step(s, e)) <==> KeepsGuard(s, e)
  {
    WindowStep(s, e);
    if !StrandsFrames(s, e) {
      match e
      case Receive(f, data) => ReceiveLive(s, f, data);
      case FireT1 | FireT2 => TimerLive(s);
      case _ => RequestLive(s, e);
    }
  }

  ghost function GuardHolds(c: Conf): Cb -> bool {
    (s: Cb) => s.conf == c && Guarded(s)
  }

  /** Over any run against any peer: data is guarded throughout exactly when no step breaks the guard. */
  lemma {:induction false} GuardedRun(s: Cb, es: seq<Event>)
    requires Guarded(s) && Each(Step, InRangeFor, s, es)
    ensures Throughout(Step, GuardHolds(s.conf), s, es) <==> Each(Step, KeepsGuard, s, es)
  {
    var inv := GuardHolds(s.conf);
    forall t, e | inv(t) && InRangeFor(t, e) ensures inv(Step(t, e)) <==> KeepsGuard(t, e) {
      GuardedStep(t, e);
      WindowStep(t, e);
    }
    InvariantIff(Step, inv, InRangeFor, KeepsGuard, s, es);
  }

  /** With T2 on its own timer and requeueing resets, no run ever leaves data unguarded. */
  lemma {:induction false} GuardedRunRepaired(s: Cb, es: seq<Event>)
    requires Guarded(s) && Each(Step, InRangeFor, s, es)
    requires s.conf.repairs.ownT2 && s.conf.repairs.resetRequeue
    ensures Guarded(Run(Step, s, es))
  {
    var inv := GuardHolds(s.conf);
    forall t, e | inv(t) && InRangeFor(t, e) ensures inv(Step(t, e)) {
      GuardedStep(t, e);
      WindowStep(t, e);
    }
    Invariant(Step, inv, InRangeFor, s, es);
  }

  // ---- T2: no forgotten acknowledgement ----------------------------------------------------

  /** The peer has been told V(R), or a response is pending and T2 is running. */
  predicate AckInv(s: Cb) {
    s.state.Connected? ==>
      && (s.log.lastNr == s.vr || s.cond.ackPending)
      && (s.cond.ackPending ==> s.t2.running)
  }

  /** A running T2 is pending and will call the T2 handler; a stopped one is not pending. */
  predicate T2Sound(s: Cb) {
    s.t2.armed == s.t2.running && (s.t2.running ==> s.t2.handler.T2Expiry?)
  }

  /** As written, T2 is started without ever having been given its handler. */
  predicate StartsMuteT2(s: Cb, e: Event) {
    !s.conf.repairs.ownT2 && StartsT2(s, e) && !s.t2.handler.T2Expiry?
  }

  lemma KickAcks(s: Cb)
    ensures Kick(s).t2 == s.t2 && Kick(s).state == s.state
    ensures AckInv(s) ==> AckInv(Kick(s))
  {
  }

  lemma HeadAcks(s: Cb, f: Frame)
    requires AckInv(s) && s.state.Connected?
    ensures AckInv(SupervisoryHead(s, f))
  {
  }

  lemma SupervisoryTailAcks(s: Cb, f: Frame)
    requires AckInv(s)
    ensures AckInv(SupervisoryTail(s, f))
    ensures T2Sound(s) ==> T2Sound(SupervisoryTail(s, f))
    ensures SupervisoryTail(s, f).t2.handler == s.t2.handler
  {
    AckingKeeps(s, f.nr);
    FrameRejectKeeps(s, f, FRMR_Z);
  }

  lemma SupervisoryAcks(s: Cb, f: Frame)
    requires AckInv(s) && s.state.Connected? && IsSupervisory(f.ftype)
    ensures AckInv(Supervisory(s, f))
    ensures T2Sound(s) ==> T2Sound(Supervisory(s, f))
    ensures Supervisory(s, f).t2.handler == s.t2.handler
  {
    HeadKeeps(s, f);
    HeadAcks(s, f);
    SupervisoryTailAcks(SupervisoryHead(s, f), f);
  }

  lemma InfoAcks(s: Cb, f: Frame, data: seq<bv8>)
    requires AckInv(s) && s.state.Connected? && f.ftype.I?
    ensures AckInv(Info(s, f, data))
    ensures T2Sound(s) ==> (T2Sound(Info(s, f, data)) <==> !StartsMuteT2(s, Receive(f, data)))
    ensures !s.conf.repairs.ownT2 ==> Info(s, f, data).t2.handler == s.t2.handler
  {
    AckingKeeps(s, f.nr);
    FrameRejectKeeps(s, f, FRMR_Z);
    var s1 := AckFromInfo(s, f.nr);
    AcceptAcks(s1, f.pf, data);
    RefuseAcks(s1, f.pf);
  }

  lemma AcceptAcks(s: Cb, pf: bool, data: seq<bv8>)
    requires AckInv(s) && s.state.Connected?
    ensures AckInv(AcceptInfo(s, pf, data))
    ensures T2Sound(s) ==>
              (T2Sound(AcceptInfo(s, pf, data))
               <==> s.conf.repairs.ownT2 || pf || s.cond.ackPending || s.t2.handler.T2Expiry?)
    ensures !s.conf.repairs.ownT2 ==> AcceptInfo(s, pf, data).t2.handler == s.t2.handler
  {
  }

  lemma RefuseAcks(s: Cb, pf: bool)
    requires AckInv(s) && s.state.Connected?
    ensures AckInv(RefuseInfo(s, pf)) && RefuseInfo(s, pf).t2 == s.t2
  {
  }

  lemma UnnumberedAcks(s: Cb, f: Frame, data: seq<bv8>)
    requires AckInv(s) && s.state.Connected? && !IsSupervisory(f.ftype) && !f.ftype.I?
    ensures AckInv(Machine3(s, f, data))
    ensures T2Sound(s) ==> T2Sound(Machine3(s, f, data))
    ensures Machine3(s, f, data).t2.handler == s.t2.handler
  {
    match f.ftype
    case SABM | SABME =>
    case DISC | DM =>
    case FRMR =>
    case _ =>
  }

  lemma IdleAcks(s: Cb, f: Frame, data: seq<bv8>)
    requires !s.state.Connected?
    ensures AckInv(Machine(s, f, data))
    ensures T2Sound(s) ==> T2Sound(Machine(s, f, data))
    ensures Machine(s, f, data).t2.handler == s.t2.handler
  {
    match s.state
    case Disconnected =>
    case AwaitingConnection =>
    case AwaitingRelease =>
    case _ =>
  }

  lemma ReceiveAcks(s: Cb, f: Frame, data: seq<bv8>)
    requires AckInv(s)
    ensures AckInv(DataInput(s, f, data))
    ensures T2Sound(s) ==> (T2Sound(DataInput(s, f, data)) <==> !StartsMuteT2(s, Receive(f, data)))
    ensures !s.conf.repairs.ownT2 ==> DataInput(s, f, data).t2.handler == s.t2.handler
  {
    KickAcks(Machine(s, f, data));
    if !s.state.Connected? {
      IdleAcks(s, f, data);
    } else if IsSupervisory(f.ftype) {
      SupervisoryAcks(s, f);
    } else if f.ftype.I? {
      InfoAcks(s, f, data);
    } else {
      UnnumberedAcks(s, f, data);
    }
  }

  lemma T1BodyAcks(s: Cb)
    requires AckInv(s)
    ensures AckInv(T1Body(s)) && T1Body(s).t2.handler == s.t2.handler
    ensures T2Sound(s) ==> T2Sound(T1Body(s))
  {
    match s.state
    case Connected => KickAcks(Requeue(Retry(s)));
    case _ =>
  }

  lemma T2RoutineAcks(s: Cb)
    requires AckInv(s)
    ensures AckInv(T2Routine(s)) && T2Routine(s).t2.handler == s.t2.handler
  {
  }

  lemma TimerAcks(s: Cb, e: Event)
    requires AckInv(s) && (e.FireT1? || e.FireT2?)
    ensures AckInv(Step(s, e)) && Step(s, e).t2.handler == s.t2.handler
    ensures T2Sound(s) ==> T2Sound(Step(s, e))
  {
    var s1, s2 := s.(t1 := s.t1.(armed := false)), s.(t2 := s.t2.(armed := false));
    T1BodyAcks(s1);
    T2RoutineAcks(s1);
    T2RoutineAcks(s2);
  }

  lemma RequestAcks(s: Cb, e: Event)
    requires AckInv(s) && (e.ConnectRequest? || e.DisconnectRequest? || e.DataRequest?)
    ensures AckInv(Step(s, e)) && Step(s, e).t2.handler == s.t2.handler
    ensures T2Sound(s) ==> T2Sound(Step(s, e))
  {
    match e
    case DataRequest(msg) => KickAcks(s.(flow := Enqueued(s.flow, msg)));
    case _ =>
  }

  /**
   * Every step of the code as written keeps the bookkeeping of acknowledgements, and it keeps a
   * working T2 behind it exactly when it does not start a T2 that has no handler.
   */
  lemma AckStep(s: Cb, e: Event)
    requires AckInv(s)
    ensures AckInv(Step(s, e))
    ensures T2Sound(s) ==> (T2Sound(Step(s, e)) <==> !StartsMuteT2(s, e))
    ensures !s.conf.repairs.ownT2 ==> Step(s, e).t2.handler == s.t2.handler
  {
    match e
    case Receive(f, data) => ReceiveAcks(s, f, data);
    case FireT1 | FireT2 => TimerAcks(s, e);
    case _ => RequestAcks(s, e);
  }

  ghost function AckHolds(c: Conf): Cb -> bool {
    (s: Cb) => s.conf == c && s.flow.va < c.M() && AckInv(s) && T2Sound(s)
  }

  /** With T2 on its own timer no received frame is ever left without a coming acknowledgement. */
  lemma {:induction false} AckRunRepaired(s: Cb, es: seq<Event>)
    requires AckInv(s) && T2Sound(s) && s.conf.repairs.ownT2 && s.flow.va < s.M()
    requires Each(Step, InRangeFor, s, es)
    ensures AckInv(Run(Step, s, es)) && T2Sound(Run(Step, s, es))
  {
    var inv := AckHolds(s.conf);
    forall t, e | inv(t) && InRangeFor(t, e) ensures inv(Step(t, e)) {
      AckStep(t, e);
      VaBounded(t, e);
    }
    Invariant(Step, inv, InRangeFor, s, es);
  }

  ghost function MuteHolds(c: Conf): Cb -> bool {
    (s: Cb) => s.conf == c && s.flow.va < c.M() && AckInv(s) && s.t2.handler.NoHandler?
  }

  /**
   * As written, with T2 registered without a handler, the bookkeeping holds in every reachable
   * state, but no expiry of T2 ever transmits anything.
   */
  lemma {:induction false} AckRunAsWritten(s: Cb, es: seq<Event>)
    requires AckInv(s) && s.t2.handler.NoHandler? && !s.conf.repairs.ownT2 && s.flow.va < s.M()
    requires Each(Step, InRangeFor, s, es)
    ensures var t := Run(Step, s, es); AckInv(t) && FireT2Timer(t).log == t.log
  {
    var inv := MuteHolds(s.conf);
    forall t, e | inv(t) && InRangeFor(t, e) ensures inv(Step(t, e)) {
      AckStep(t, e);
      VaBounded(t, e);
    }
    Invariant(Step, inv, InRangeFor, s, es);
  }
}
