/**
 * The one way in which data gets stuck although both ends are up: a REJ is lost after everything
 * sent has been received. The receiver does not repeat a REJ, I frames never carry a poll bit, and
 * so neither end tells the other anything new until the sender gives up.
 */
module X75Deadlock {
  import opened Modular
  import opened Runs
  import opened X75Types
  import opened X75Wire
  import opened X75Spec
  import opened X75Frame
  import opened X75Window
  import opened X75Accounting
  import opened X75Timers
  import opened X75Outputs
  import opened X75System
  import opened X75GoBackN
  import opened X75Live
  import opened X75Moves
  import opened X75Progress

  predicate Idle(s: Cb) {
    s.flow.ackQ == [] && s.flow.writeQ == []
  }

  /**
   * End `a` has data waiting behind a full window that end `b` has received completely; `b` has
   * rejected a repetition, has no data of its own, owes no acknowledgement, and what it has said
   * and is still on the line is nothing new.
   */
  predicate Muted(a: Cb, b: Cb, ba: seq<Item>) {
    && VrAbs(b) < |a.flow.accepted| && VrAbs(b) == VaAbs(a.flow) + a.conf.window
    && b.cond.reject && !b.cond.ackPending && Idle(b)
    && forall i :: 0 <= i < |ba| && Numbered(ba[i].pdu) ==> ba[i].nr <= VaAbs(a.flow)
  }

  predicate MutedToB(z: Sys) {
    Muted(z.a.Last(), z.b.Last(), z.ba)
  }

  // ---- From every other state everything arrives ------------------------------------------------

  /** Both ends may still let T1 expire without giving up. */
  predicate RetriesLeft(z: Sys) {
    z.a.cb.n2count < z.a.cb.conf.n2 && z.b.cb.n2count < z.b.cb.conf.n2
  }

  lemma ByOwnData(z: Sys) returns (y: Sys)
    requires CanRepeat(z) && RetriesLeft(z) && !Idle(z.b.cb)
    ensures Finished(z, y)
  {
    SwapGoing(z);
    WindowIsOpen(Swap(z));
    T1AtB(z);
    ReachSelf(z);
    ReachStep(z, z, Local(false, FireT1));
    var w := SysStep(z, Local(false, FireT1));
    y := OnceMore(w);
    ReachOn(z, w, y);
  }

  lemma ByOldNews(z: Sys, i: nat) returns (y: Sys)
    requires CanRepeat(z) && i < |z.ba| && z.ba[i].nr > Va(z)
    ensures Finished(z, y)
  {
    var w := NewsComes(z, i);
    y := OnceMore(w);
    ReachOn(z, w, y);
  }

  /** a learns of it, and sees that its window is not full. */
  lemma NewsComes(z: Sys, i: nat) returns (w: Sys)
    requires CanRepeat(z) && i < |z.ba| && z.ba[i].nr > Va(z)
    ensures Reaches(z, w) && CanRepeat(w) && Total(w) == Total(z) && Rx(w) < Va(w) + w.a.cb.conf.window
  {
    w := DrainToA(z);
    NewsIsLast(z, i);
    Standing(z);
  }

  lemma NewsIsLast(z: Sys, i: nat)
    requires Going(z) && i < |z.ba|
    ensures z.ba[i].nr <= LastNr(z.ba, Va(z))
  {
    assert BackOk(z.a.cb, z.b.cb, z.ba);
  }

  lemma Arrives(z: Sys) returns (y: Sys)
    requires Going(z) && RetriesLeft(z) && !MutedToB(z)
    ensures Finished(z, y)
  {
    Standing(z);
    if Rx(z) == Total(z) {
      ReachSelf(z);
      y := z;
    } else if Informed(z) || !z.b.cb.cond.reject || Rx(z) < Va(z) + z.a.cb.conf.window {
      y := OnceMore(z);
    } else if !Idle(z.b.cb) {
      y := ByOwnData(z);
    } else {
      var i :| 0 <= i < |z.ba| && Numbered(z.ba[i].pdu) && z.ba[i].nr > Va(z);
      y := ByOldNews(z, i);
    }
  }

  // ---- From a muted state nothing does -----------------------------------------------------------

  lemma DeafReceive(s: Cb, f: Frame, data: seq<bv8>)
    requires SenderOk(s) && s.log.sent == [] && Idle(s) && s.cond.reject && !s.cond.ackPending
    requires LinkEvent(s, Receive(f, data)) && Unpolled(Receive(f, data)) && !Accepts(s, Receive(f, data))
    ensures var t := Step(s, Receive(f, data)); t.log == s.log && t.cond == s.cond && Idle(t)
  {
    MachineFlowIs(s, f, data);
    if f.ftype.I? {
      AckingKeeps(s, f.nr);
    } else {
      SupervisoryTells(s, f);
    }
  }

  lemma DeafTimer(s: Cb, e: Event)
    requires SenderOk(s) && s.log.sent == [] && Idle(s) && s.cond.reject && !s.cond.ackPending
    requires (e.FireT1? || e.FireT2? || e.ConnectRequest?) && !Ends(s, e)
    ensures var t := Step(s, e); t.log == s.log && t.cond == s.cond && Idle(t)
  {
    if T1Fires(s, e) {
      Retransmits(s.(t1 := s.t1.(armed := false)));
    }
  }

  /** What the other end sends is unpolled, and nothing of it is new. */
  lemma NothingNew(a: Cb, b: Cb, ba: seq<Item>, h: Item, e: Event)
    requires Muted(a, b, ba) && SenderOk(a) && ReceiverOk(a, b) && InfoOk(a, b, h) && AckOk(b, a, h)
    requires SenderOk(b) && ReceiverOk(b, a) && a.M() == b.M()
    requires Numbered(h.pdu) && e.Receive? && Carries(e.frame, e.data, h.pdu)
    ensures LinkEvent(b, e) && Unpolled(e) && !Accepts(b, e)
  {
    AckIsValid(b, a, h, e);
    AcceptedIsNext(a, b, h, e);
    WithinWindow(a);
  }

  /** A step of the muted end. */
  lemma MutedActs(a: Cb, b: Cb, ba: seq<Item>, e: Event)
    requires Muted(a, b, ba) && SenderOk(b) && LinkEvent(b, e) && !Ends(b, e) && !e.DataRequest?
    requires e.Receive? ==> Unpolled(e) && !Accepts(b, e)
    ensures var t := Act(b, e);
            Muted(a, t, ba + Labelled(t)) && t.log.delivered == b.log.delivered
  {
    AfreshKeeps(b, e);
    var s := Afresh(b);
    match e {
      case Receive(f, data) => DeafReceive(s, f, data);
      case FireT1 | FireT2 | ConnectRequest => DeafTimer(s, e);
    }
    assert ba + Labelled(Act(b, e)) == ba;
  }

  /** A farewell of the muted end acknowledges nothing. */
  lemma MutedParts(a: Cb, b: Cb, ba: seq<Item>, t: Cb)
    requires Muted(a, b, ba) && Parting(t, b) && (t.log.sent != [] ==> t.log.sent[0].UFrame?)
    ensures Muted(a, b, ba + Labelled(t))
  {
  }

  lemma MutedLocal(z: Sys, e: Event)
    requires SysInv(z) && z.a.Open? && Muted(z.b.Last(), z.a.cb, z.ab) && !e.Receive? && !e.DataRequest?
    ensures var y := StepAtA(z, Local(true, e));
            && Muted(y.b.Last(), y.a.Last(), y.ab)
            && y.a.Last().log.delivered == z.a.cb.log.delivered
  {
    var (b, a) := (z.a.cb, z.b.Last());
    LocalAtA(z, e);
    if Ends(b, e) {
      EndParts(b, e);
      MutedParts(a, b, z.ab, Act(b, e));
    } else {
      MutedActs(a, b, z.ab, e);
    }
  }

  lemma MutedBye(z: Sys, junk: Frame)
    requires SysInv(z) && z.a.Open? && z.ba != [] && z.ba[0].pdu.UFrame? && Muted(z.b.Last(), z.a.cb, z.ab)
    ensures var y := StepAtA(z, Deliver(true, junk));
            && Muted(y.b.Last(), y.a.Last(), y.ab)
            && y.a.Last().log.delivered == z.a.cb.log.delivered
  {
    var (b, a, h) := (z.a.cb, z.b.Last(), z.ba[0]);
    var e := ArrivalEvent(b, h, junk);
    assert AckOk(b, a, h);
    ArrivalIs(b, a, h, junk);
    DiscParts(b, e.frame, e.data);
    MutedParts(a, b, z.ab, Act(b, e));
  }

  lemma MutedFrame(z: Sys, junk: Frame)
    requires SysInv(z) && z.a.Open? && z.ba != [] && Numbered(z.ba[0].pdu) && Muted(z.b.Last(), z.a.cb, z.ab)
    ensures var t := Take(z.a.cb, z.ba[0], junk);
            Muted(z.b.Last(), t, z.ab + Labelled(t)) && t.log.delivered == z.a.cb.log.delivered
  {
    var (b, a, h) := (z.a.cb, z.b.Last(), z.ba[0]);
    var e := ArrivalEvent(b, h, junk);
    assert AckOk(b, a, h) && InfoOk(a, b, h);
    ArrivalIs(b, a, h, junk);
    NothingNew(a, b, z.ab, h, e);
    MutedActs(a, b, z.ab, e);
  }

  lemma MutedLoss(a: Cb, b: Cb, ba: seq<Item>, i: nat)
    requires Muted(a, b, ba)
    ensures Muted(a, b, Without(ba, i))
  {
    var w := Without(ba, i);
    forall j | 0 <= j < |w| && Numbered(w[j].pdu) ensures w[j].nr <= VaAbs(a.flow) {
      WithoutIs(ba, i, j);
    }
  }

  lemma MutedStepAtB(z: Sys, x: Action)
    requires SysInv(z) && NoForgery(z, x) && Muted(z.b.Last(), z.a.Last(), z.ab)
    requires x.Local? ==> !x.e.DataRequest?
    ensures var y := StepAtA(z, x);
            && Muted(y.b.Last(), y.a.Last(), y.ab)
            && y.a.Last().log.delivered == z.a.Last().log.delivered
  {
    match x
    case Local(_, e) =>
      if z.a.Open? {
        MutedLocal(z, e);
      }
    case Deliver(_, junk) =>
      if z.a.Open? && z.ba != [] {
        DeliverAtA(z, junk);
        assert AckOk(z.a.cb, z.b.Last(), z.ba[0]);
        if z.ba[0].pdu.UFrame? {
          MutedBye(z, junk);
        } else {
          MutedFrame(z, junk);
        }
      }
    case Lose(_, i) => MutedLoss(z.b.Last(), z.a.Last(), z.ab, i);
  }

  /** A step of the end that waits. */
  lemma MutedStepAtA(z: Sys, x: Action)
    requires SysInv(z) && NoForgery(z, x) && MutedToB(z)
    ensures MutedToB(StepAtA(z, x))
  {
    match x
    case Local(_, e) =>
      if z.a.Open? {
        if Ends(z.a.cb, e) {
          LocalAtA(z, e);
        } else {
          WaitingLocal(z, e);
        }
      }
    case Deliver(_, junk) =>
      if z.a.Open? && z.ba != [] {
        assert AckOk(z.a.cb, z.b.Last(), z.ba[0]);
        if z.ba[0].pdu.UFrame? {
          DeliverAtA(z, junk);
        } else {
          WaitingHears(z, junk);
        }
      }
    case Lose(_, i) =>
  }

  lemma WaitingActs(a: Cb, e: Event)
    requires SenderOk(a) && LinkEvent(a, e) && !Ends(a, e)
    ensures var t := Act(a, e);
            && t.conf == a.conf && |a.flow.accepted| <= |t.flow.accepted|
            && VaAbs(t.flow) == VaAbs(a.flow) + Freed(a, e)
  {
    var k := SentNumbers(a, e);
    StepAccepts(Afresh(a), e);
  }

  lemma WaitingLocal(z: Sys, e: Event)
    requires SysInv(z) && MutedToB(z) && z.a.Open? && !e.Receive? && !Ends(z.a.cb, e)
    ensures MutedToB(StepAtA(z, Local(true, e)))
  {
    WaitingActs(z.a.cb, e);
    LocalAtA(z, e);
  }

  lemma WaitingHears(z: Sys, junk: Frame)
    requires SysInv(z) && MutedToB(z) && z.a.Open? && z.ba != [] && Numbered(z.ba[0].pdu)
    ensures MutedToB(StepAtA(z, Deliver(true, junk)))
  {
    var (a, b, h) := (z.a.cb, z.b.Last(), z.ba[0]);
    var e := ArrivalEvent(a, h, junk);
    assert AckOk(a, b, h);
    ArrivalIs(a, b, h, junk);
    AckIsValid(a, b, h, e);
    WaitingActs(a, e);
    DeliverAtA(z, junk);
  }

  predicate NoDataAtB(z: Sys, x: Action) {
    NoForgery(z, x) && (x.Local? && !x.atA ==> !x.e.DataRequest?)
  }

  lemma MutedStays(z: Sys, x: Action)
    requires SysInv(z) && MutedToB(z) && NoDataAtB(z, x)
    ensures MutedToB(SysStep(z, x)) && SysInv(SysStep(z, x))
    ensures SysStep(z, x).b.Last().log.delivered == z.b.Last().log.delivered
  {
    SysStepKeeps(z, x);
    if AtA(x) {
      StepAtAKeeps(z, x);
      MutedStepAtA(z, x);
    } else {
      SwapKeeps(z);
      MutedStepAtB(Swap(z), x);
    }
  }

  /** Whatever else is requested, repeated or lost: only new data at b can break the silence. */
  lemma {:induction false} MutedForever(z: Sys, xs: seq<Action>)
    requires SysInv(z) && MutedToB(z) && Each(SysStep, NoDataAtB, z, xs)
    ensures var y := Run(SysStep, z, xs);
            SysInv(y) && MutedToB(y) && y.b.Last().log.delivered == z.b.Last().log.delivered
  {
    if xs != [] {
      MutedForever(z, xs[..|xs| - 1]);
      MutedStays(Run(SysStep, z, xs[..|xs| - 1]), xs[|xs| - 1]);
    }
  }

  // ---- Exactly -----------------------------------------------------------------------------------

  lemma {:induction false} MutedPatiently(z: Sys, xs: seq<Action>)
    requires SysInv(z) && MutedToB(z) && AllPatient(xs)
    ensures MutedToB(Run(SysStep, z, xs)) && SysInv(Run(SysStep, z, xs))
  {
    if xs != [] {
      var n := |xs| - 1;
      assert AllPatient(xs[..n]) && Patient(xs[n]);
      MutedPatiently(z, xs[..n]);
      MutedStays(Run(SysStep, z, xs[..n]), xs[n]);
    }
  }

  /**
   * While both ends have a retry left, everything accepted at `a` can still be delivered at `b` by
   * deliveries and timer expiries alone exactly when the connection is not muted.
   */
  lemma {:induction false} ArrivesExactly(z: Sys)
    requires Going(z) && RetriesLeft(z)
    ensures (exists y :: Finished(z, y)) <==> !MutedToB(z)
  {
    if MutedToB(z) {
      forall y | Finished(z, y) ensures false {
        var xs: seq<Action> :| AllPatient(xs) && Run(SysStep, z, xs) == y;
        MutedPatiently(z, xs);
      }
    } else {
      var y := Arrives(z);
    }
  }

  // ---- Every reachable state with both ends open ---------------------------------------------------

  /** At the start of a connection the timers are as a reset leaves them. */
  predicate Rested(s: Cb) {
    s.conf.repairs.ownT2 && T1Sound(s) && T2Sound(s) && s.log.lastNr == 0
  }

  ghost predicate LiveInv(z: Sys) {
    SysInv(z) && Live(z.a.Last()) && Live(z.b.Last())
  }

  lemma LiveHears(z: Sys, junk: Frame)
    requires LiveInv(z) && z.a.Open? && z.ba != [] && Numbered(z.ba[0].pdu)
    ensures Live(Take(z.a.cb, z.ba[0], junk))
  {
    var (s, h) := (z.a.cb, z.ba[0]);
    assert AckOk(s, z.b.Last(), h);
    ArrivalIs(s, z.b.Last(), h, junk);
    AckIsValid(s, z.b.Last(), h, ArrivalEvent(s, h, junk));
    ActKeepsLive(s, ArrivalEvent(s, h, junk));
  }

  lemma LiveAtA(z: Sys, x: Action)
    requires LiveInv(z) && NoForgery(z, x)
    ensures LiveInv(StepAtA(z, x))
  {
    StepAtAKeeps(z, x);
    match x
    case Local(_, e) =>
      if z.a.Open? {
        LiveLocal(z, e);
      }
    case Deliver(_, junk) =>
      if z.a.Open? && z.ba != [] {
        LiveDelivery(z, junk);
      }
    case Lose(_, _) =>
  }

  lemma LiveLocal(z: Sys, e: Event)
    requires LiveInv(z) && z.a.Open? && !e.Receive?
    ensures Live(StepAtA(z, Local(true, e)).a.Last())
  {
    LocalAtA(z, e);
    if !Ends(z.a.cb, e) {
      ActKeepsLive(z.a.cb, e);
    }
  }

  lemma LiveDelivery(z: Sys, junk: Frame)
    requires LiveInv(z) && z.a.Open? && z.ba != []
    ensures Live(StepAtA(z, Deliver(true, junk)).a.Last())
  {
    DeliverAtA(z, junk);
    assert AckOk(z.a.cb, z.b.Last(), z.ba[0]);
    if Numbered(z.ba[0].pdu) {
      LiveHears(z, junk);
    }
  }

  lemma LiveStep(z: Sys, x: Action)
    requires LiveInv(z) && NoForgery(z, x)
    ensures LiveInv(SysStep(z, x))
  {
    if AtA(x) {
      LiveAtA(z, x);
    } else {
      SwapKeeps(z);
      LiveAtA(Swap(z), x);
      SwapKeeps(StepAtA(Swap(z), x));
    }
  }

  lemma {:induction false} LiveRun(a: Cb, b: Cb, xs: seq<Action>)
    requires StartedPair(a, b) && Rested(a) && Rested(b) && Each(SysStep, NoForgery, Start(a, b), xs)
    ensures LiveInv(Run(SysStep, Start(a, b), xs))
  {
    if xs == [] {
      StartedInv(a, b);
    } else {
      LiveRun(a, b, xs[..|xs| - 1]);
      LiveStep(Run(SysStep, Start(a, b), xs[..|xs| - 1]), xs[|xs| - 1]);
    }
  }

  /**
   * After any run with any losses, requests and repetitions: as long as both ends are open and have
   * a retry left, everything accepted can still arrive, without a further request, exactly when the
   * connection is not muted.
   */
  lemma {:induction false} ProgressExactly(a: Cb, b: Cb, xs: seq<Action>)
    requires StartedPair(a, b) && Rested(a) && Rested(b) && Each(SysStep, NoForgery, Start(a, b), xs)
    ensures var z := Run(SysStep, Start(a, b), xs);
            BothOpen(z) && RetriesLeft(z) ==> ((exists y :: Finished(z, y)) <==> !MutedToB(z))
  {
    LiveRun(a, b, xs);
    var z := Run(SysStep, Start(a, b), xs);
    if BothOpen(z) && RetriesLeft(z) {
      ArrivesExactly(z);
    }
  }

  lemma PatientAtA(z: Sys, x: Action)
    requires SysInv(z) && Patient(x)
    ensures StepAtA(z, x).a.Last().flow.accepted == z.a.Last().flow.accepted
  {
    if z.a.Open? {
      StepAccepts(Afresh(z.a.cb), EventAt(z.a.cb, z.ba, x));
    }
  }

  lemma PatientStep(z: Sys, x: Action)
    requires SysInv(z) && Patient(x)
    ensures SysStep(z, x).a.Last().flow.accepted == z.a.Last().flow.accepted
  {
    if AtA(x) {
      PatientAtA(z, x);
    } else {
      SwapKeeps(z);
      StepAtAKeeps(Swap(z), x);
    }
  }

  lemma {:induction false} PatientData(z: Sys, xs: seq<Action>)
    requires DataInv(z) && HeadRequeue(z) && AllPatient(xs)
    ensures var y := Run(SysStep, z, xs);
            DataInv(y) && HeadRequeue(y) && y.a.Last().flow.accepted == z.a.Last().flow.accepted
  {
    if xs != [] {
      var n := |xs| - 1;
      var y := Run(SysStep, z, xs[..n]);
      assert AllPatient(xs[..n]) && Patient(xs[n]);
      PatientData(z, xs[..n]);
      PatientStep(y, xs[n]);
      HeadRequeueStays(y, xs[n]);
      DataStepKeeps(y, xs[n]);
    }
  }

  /** With insertion at the head what arrives is what was accepted, payload by payload. */
  lemma {:induction false} EverythingArrives(z: Sys, y: Sys)
    requires DataInv(z) && HeadRequeue(z) && z.a.Open? && Finished(z, y)
    ensures |y.b.cb.log.delivered| == |z.a.cb.flow.accepted| && Prefix(z.a.cb, y.b.cb)
  {
    var xs: seq<Action> :| AllPatient(xs) && Run(SysStep, z, xs) == y;
    PatientData(z, xs);
  }
}
