/**
 * Outside the data transfer state: T1 is always pending, until the endpoint gives up; T2 is off;
 * and a FRMR that is repeated still reports the frame that led to it.
 */
module X75Watch {
  import opened Runs
  import opened X75Types
  import opened X75Spec
  import opened X75Frame
  import opened X75Window
  import opened X75Timers
  import opened X75Signals
  import opened X75Busy

  /** State 0 with T1 off and nothing to send. */
  predicate Asleep(s: Cb) {
    s.state.Disconnected? && !s.t1.running && !s.t1.armed && s.flow.writeQ == []
  }

  /** States 1, 2 and 4 wait for T1, with its own handler; state 0 does too, or is asleep. */
  predicate Watched(s: Cb) {
    s.state.Connected? || s.t1 == T1_STARTED || Asleep(s)
  }

  /** After giving up the endpoint sleeps until it is connected or asks for a connection. */
  predicate WatchedAs(s: Cb, e: Event, t: Cb) {
    Watched(t) && (Asleep(t) <==> Exhausts(s, e) || (Asleep(s) && !Anew(s, e)))
  }

  lemma KickWatches(s: Cb)
    ensures Watched(s) ==> Watched(Kick(s))
    ensures Asleep(Kick(s)) == Asleep(s)
  {
  }

  lemma SupervisoryWatches(s: Cb, f: Frame)
    requires s.state.Connected? && IsSupervisory(f.ftype)
    ensures Watched(Supervisory(s, f)) && !Asleep(Supervisory(s, f))
  {
    var s1 := SupervisoryHead(s, f);
    HeadKeeps(s, f);
    AckingKeeps(s1, f.nr);
    FrameRejectKeeps(s1, f, FRMR_Z);
  }

  lemma InfoWatches(s: Cb, f: Frame, data: seq<bv8>)
    requires s.state.Connected?
    ensures Watched(Info(s, f, data)) && !Asleep(Info(s, f, data))
  {
    AckingKeeps(s, f.nr);
    InfoTailKeeps(AckFromInfo(s, f.nr), f, data);
    FrameRejectKeeps(s, f, FRMR_Z);
  }

  lemma UnnumberedWatches(s: Cb, f: Frame, data: seq<bv8>)
    requires s.state.Connected? && !HasNr(f.ftype)
    ensures Watched(Machine3(s, f, data)) && !Asleep(Machine3(s, f, data))
  {
    match f.ftype
    case SABM | SABME =>
    case DISC | DM =>
    case FRMR =>
    case _ =>
  }

  lemma IdleWatches(s: Cb, f: Frame, data: seq<bv8>)
    requires !s.state.Connected? && Watched(s)
    ensures WatchedAs(s, Receive(f, data), Machine(s, f, data))
  {
    match s.state
    case Disconnected =>
    case AwaitingConnection =>
    case AwaitingRelease =>
    case _ =>
  }

  lemma ReceiveWatches(s: Cb, f: Frame, data: seq<bv8>)
    requires Watched(s)
    ensures WatchedAs(s, Receive(f, data), DataInput(s, f, data))
  {
    if !s.state.Connected? {
      IdleWatches(s, f, data);
    } else if IsSupervisory(f.ftype) {
      SupervisoryWatches(s, f);
    } else if f.ftype.I? {
      InfoWatches(s, f, data);
    } else {
      UnnumberedWatches(s, f, data);
    }
    KickWatches(Machine(s, f, data));
  }

  lemma T1Watches(s: Cb)
    requires Watched(s) && T1Fires(s, FireT1)
    ensures WatchedAs(s, FireT1, T1Body(s.(t1 := s.t1.(armed := false))))
  {
    match s.state
    case Connected => KickWatches(Requeue(Retry(s.(t1 := s.t1.(armed := false)))));
    case _ =>
  }

  /**
   * In every state but the data transfer state T1 is pending and will call its own handler, or the
   * endpoint sleeps; and it falls asleep exactly by giving up.
   */
  lemma WatchStep(s: Cb, e: Event)
    requires Watched(s)
    ensures WatchedAs(s, e, Step(s, e))
  {
    match e
    case Receive(f, data) => ReceiveWatches(s, f, data);
    case FireT1 =>
      if T1Fires(s, e) {
        T1Watches(s);
      }
    case DataRequest(msg) => KickWatches(s.(flow := Enqueued(s.flow, msg)));
    case _ =>
  }

  /** The endpoint has given up, and since then has neither been connected nor asked for it. */
  predicate GivenUp(s: Cb, es: seq<Event>) {
    es != []
    && var (t, e) := (Run(Step, s, es[..|es| - 1]), es[|es| - 1]);
       Exhausts(t, e) || (GivenUp(s, es[..|es| - 1]) && !Anew(t, e))
  }

  /** Over any run: outside the data transfer state T1 is pending unless the endpoint has given up. */
  lemma {:induction false} WatchedRun(s: Cb, es: seq<Event>)
    requires !s.state.Connected? && s.t1 == T1_STARTED
    ensures var t := Run(Step, s, es);
            && Watched(t) && (Asleep(t) <==> GivenUp(s, es))
            && (!t.state.Connected? && !GivenUp(s, es) ==> t.t1 == T1_STARTED)
  {
    if es != [] {
      WatchedRun(s, es[..|es| - 1]);
      WatchStep(Run(Step, s, es[..|es| - 1]), es[|es| - 1]);
    }
  }

  // ---- T2 ----------------------------------------------------------------------------------------

  /** T2 runs in the data transfer state only. */
  predicate T2Watched(s: Cb) {
    s.state.Connected? || (!s.t2.running && !s.t2.armed)
  }

  /** The handler of T2 is called while T2 counts as running; as written T1 may call it too. */
  predicate T2Expires(s: Cb, e: Event) {
    && s.t2.running
    && ((e.FireT2? && s.t2.armed && s.t2.handler.T2Expiry?)
        || (e.FireT1? && s.t1.armed && s.t1.handler.T2Expiry? && !s.t2.armed))
  }

  /** T2 runs from the frame that starts it until it expires or the connection ends or starts anew. */
  predicate T2As(s: Cb, e: Event, t: Cb) {
    && T2Watched(t) && (Opens(s, e) ==> !t.t2.armed)
    && (t.t2.running <==>
          StartsT2(s, e) || (s.t2.running && t.state.Connected? && !Opens(s, e) && !T2Expires(s, e)))
  }

  lemma KickLeavesT2(s: Cb)
    ensures Kick(s).t2 == s.t2 && Kick(s).state == s.state
  {
  }

  lemma MachineT2(s: Cb, f: Frame, data: seq<bv8>)
    requires T2Watched(s)
    ensures T2As(s, Receive(f, data), Machine(s, f, data))
  {
    match s.state
    case Connected =>
      if IsSupervisory(f.ftype) {
        SupervisoryT2(s, f, data);
      } else if f.ftype.I? {
        InfoT2(s, f, data);
      } else {
        UnnumberedT2(s, f, data);
      }
    case Disconnected =>
    case AwaitingConnection =>
    case AwaitingRelease =>
    case FrameReject =>
  }

  lemma SupervisoryT2(s: Cb, f: Frame, data: seq<bv8>)
    requires s.state.Connected? && IsSupervisory(f.ftype)
    ensures T2As(s, Receive(f, data), Supervisory(s, f))
  {
    HeadKeeps(s, f);
    AckingKeeps(SupervisoryHead(s, f), f.nr);
    FrameRejectKeeps(SupervisoryHead(s, f), f, FRMR_Z);
  }

  lemma InfoT2(s: Cb, f: Frame, data: seq<bv8>)
    requires s.state.Connected? && f.ftype.I?
    ensures T2As(s, Receive(f, data), Info(s, f, data))
  {
    FrameRejectKeeps(s, f, FRMR_Z);
    if ValidNr(s, f.nr) {
      AckingKeeps(s, f.nr);
      InfoTailKeeps(AckFromInfo(s, f.nr), f, data);
      InfoTailT2(s, AckFromInfo(s, f.nr), f, data);
    }
  }

  lemma InfoTailT2(s: Cb, s1: Cb, f: Frame, data: seq<bv8>)
    requires s.state.Connected? && f.ftype.I? && ValidNr(s, f.nr) && OnlyAcks(s, s1)
    ensures InfoTail(s1, f, data).t2.running <==> StartsT2(s, Receive(f, data)) || s.t2.running
  {
  }

  lemma UnnumberedT2(s: Cb, f: Frame, data: seq<bv8>)
    requires s.state.Connected? && !HasNr(f.ftype)
    ensures T2As(s, Receive(f, data), Machine3(s, f, data))
  {
    match f.ftype
    case SABM | SABME =>
    case DISC | DM =>
    case FRMR =>
    case _ =>
  }

  lemma T1BodyT2(s: Cb)
    requires T2Watched(s)
    ensures T2Watched(T1Body(s)) && (T1Body(s).t2.running <==> s.t2.running && T1Body(s).state.Connected?)
  {
    match s.state
    case Connected => KickLeavesT2(Requeue(Retry(s)));
    case _ =>
  }

  /** When T2 runs, whatever the stimulus. */
  lemma T2WatchStep(s: Cb, e: Event)
    requires T2Watched(s)
    ensures T2As(s, e, Step(s, e))
  {
    match e
    case Receive(f, data) =>
      MachineT2(s, f, data);
      KickLeavesT2(Machine(s, f, data));
    case FireT1 => T1BodyT2(s.(t1 := s.t1.(armed := false)));
    case DataRequest(msg) => KickLeavesT2(s.(flow := Enqueued(s.flow, msg)));
    case _ =>
  }

  /** Over any run T2 is off outside the data transfer state, so that no RR is sent there. */
  lemma {:induction false} T2WatchedRun(s: Cb, es: seq<Event>)
    requires T2Watched(s)
    ensures T2Watched(Run(Step, s, es))
    ensures forall e :: !Run(Step, s, es).state.Connected? ==> Acks(Run(Step, s, es), e) == []
  {
    if es != [] {
      T2WatchedRun(s, es[..|es| - 1]);
      T2WatchStep(Run(Step, s, es[..|es| - 1]), es[|es| - 1]);
    }
  }

  // ---- The rejected frame ----------------------------------------------------------------------

  /** The frame last found unacceptable, and what is wrong with it. */
  function Offence(s: Cb, es: seq<Event>): (Frame, bv8) {
    if es == [] then (s.frmrData, s.frmrType) else
      var (t, e) := (Run(Step, s, es[..|es| - 1]), es[|es| - 1]);
      if Unacceptable(t, e) then (e.frame, FrmrReason(e.frame)) else Offence(s, es[..|es| - 1])
  }

  lemma KickRemembers(s: Cb)
    ensures Kick(s).frmrData == s.frmrData && Kick(s).frmrType == s.frmrType
  {
  }

  predicate Remembers(s: Cb, e: Event, t: Cb) {
    (t.frmrData, t.frmrType) == if Unacceptable(s, e) then (e.frame, FrmrReason(e.frame)) else (s.frmrData, s.frmrType)
  }

  predicate SameComplaint(s: Cb, t: Cb) {
    t.frmrData == s.frmrData && t.frmrType == s.frmrType
  }

  lemma HelpersRemember(s: Cb, f: Frame, data: seq<bv8>)
    ensures SameComplaint(s, SupervisoryHead(s, f)) && SameComplaint(s, InfoTail(s, f, data))
  {
  }

  lemma AckingRemembers(s: Cb, nr: nat)
    ensures SameComplaint(s, CheckIframesAcked(s, nr)) && SameComplaint(s, AckFromInfo(s, nr))
    ensures SameComplaint(s, GoBack(s, nr))
  {
  }

  lemma SupervisoryRemembers(s: Cb, f: Frame, data: seq<bv8>)
    requires s.state.Connected? && IsSupervisory(f.ftype)
    ensures Remembers(s, Receive(f, data), Supervisory(s, f))
  {
    HeadKeeps(s, f);
    HelpersRemember(s, f, data);
    AckingRemembers(SupervisoryHead(s, f), f.nr);
  }

  lemma InfoRemembers(s: Cb, f: Frame, data: seq<bv8>)
    requires s.state.Connected? && f.ftype.I?
    ensures Remembers(s, Receive(f, data), Info(s, f, data))
  {
    AckingRemembers(s, f.nr);
    HelpersRemember(AckFromInfo(s, f.nr), f, data);
  }

  lemma MachineRemembers(s: Cb, f: Frame, data: seq<bv8>)
    ensures Remembers(s, Receive(f, data), Machine(s, f, data))
  {
    match s.state
    case Connected =>
      if IsSupervisory(f.ftype) {
        SupervisoryRemembers(s, f, data);
      } else if f.ftype.I? {
        InfoRemembers(s, f, data);
      } else {
        UnnumberedRemembers(s, f, data);
      }
    case Disconnected =>
    case AwaitingConnection =>
    case AwaitingRelease =>
    case FrameReject =>
  }

  lemma UnnumberedRemembers(s: Cb, f: Frame, data: seq<bv8>)
    requires s.state.Connected? && !HasNr(f.ftype)
    ensures Remembers(s, Receive(f, data), Machine3(s, f, data))
  {
    match f.ftype
    case SABM | SABME =>
    case DISC | DM =>
    case FRMR =>
    case _ =>
  }

  lemma RememberStep(s: Cb, e: Event)
    ensures Remembers(s, e, Step(s, e))
  {
    match e
    case Receive(f, data) =>
      MachineRemembers(s, f, data);
      KickRemembers(Machine(s, f, data));
    case FireT1 => T1BodyRemembers(s.(t1 := s.t1.(armed := false)));
    case DataRequest(msg) => KickRemembers(s.(flow := Enqueued(s.flow, msg)));
    case _ =>
  }

  lemma T1BodyRemembers(s: Cb)
    ensures T1Body(s).frmrData == s.frmrData && T1Body(s).frmrType == s.frmrType
  {
    match s.state
    case Connected => KickRemembers(Requeue(Retry(s)));
    case _ =>
  }

  /**
   * Over any run: when T1 expires in the frame reject state with retries left, the FRMR that goes
   * out reports the frame last found unacceptable, with the current V(S) and V(R).
   */
  lemma {:induction false} FrmrRepeats(s: Cb, es: seq<Event>)
    ensures var t := Run(Step, s, es);
            && (t.frmrData, t.frmrType) == Offence(s, es)
            && (t.state.FrameReject? && Retries(t, FireT1) ==>
                  Step(t, FireT1).log.sent == t.log.sent + [Frmr(t, Offence(s, es).0, Offence(s, es).1)])
  {
    if es != [] {
      FrmrRepeats(s, es[..|es| - 1]);
      RememberStep(Run(Step, s, es[..|es| - 1]), es[|es| - 1]);
    }
  }
}
