/**
 * The receiving side against any peer: what is delivered, which number is expected next, and when
 * an acknowledgement is owed.
 */
module X75Receiving {
  import opened Modular
  import opened Runs
  import opened X75Types
  import opened X75Spec
  import opened X75Frame
  import opened X75Window
  import opened X75Replies
  import opened X75Signals
  import opened X75Busy

  /** The stimulus brings the expected I frame. */
  predicate Brings(s: Cb, e: Event) {
    ValidInfo(s, e) && e.frame.ns == s.vr
  }

  /** `t` has received what `s` had, and what `e` brings. */
  predicate ReceivesAs(s: Cb, e: Event, t: Cb) {
    && t.conf == s.conf
    && t.vr == (if Opens(s, e) then 0 else if Brings(s, e) then Wrap(s.vr + 1, s.M()) else s.vr)
    && t.log.delivered == s.log.delivered + if Brings(s, e) then [e.data] else []
  }

  /** After `acks` an acknowledgement is owed if it was before, or for what has just come. */
  predicate OwesAs(s: Cb, e: Event, t: Cb, acks: seq<Pdu>) {
    t.cond.ackPending <==> acks == [] && !Anew(s, e) && (Brings(s, e) || s.cond.ackPending)
  }

  predicate Received(s: Cb, e: Event, t: Cb) {
    ReceivesAs(s, e, t) && OwesAs(s, e, t, Acks(s, e))
  }

  lemma NothingDelivered(s: Cb)
    ensures s.log.delivered + [] == s.log.delivered
  {
  }

  lemma SupervisoryReceives(s: Cb, f: Frame, data: seq<bv8>)
    requires s.state.Connected? && IsSupervisory(f.ftype)
    ensures Received(s, Receive(f, data), Supervisory(s, f))
  {
    NothingDelivered(s);
    var s1 := SupervisoryHead(s, f);
    assert s1.cond.ackPending <==> s.cond.ackPending && Acks(s, Receive(f, data)) == [];
    HeadKeeps(s, f);
    AckingKeeps(s1, f.nr);
    FrameRejectKeeps(s1, f, FRMR_Z);
  }

  lemma InfoTailReceives(s: Cb, s1: Cb, f: Frame, data: seq<bv8>)
    requires s.state.Connected? && f.ftype.I? && ValidNr(s, f.nr) && OnlyAcks(s, s1)
    ensures Received(s, Receive(f, data), InfoTail(s1, f, data))
  {
    NothingDelivered(s);
  }

  lemma InfoReceives(s: Cb, f: Frame, data: seq<bv8>)
    requires s.state.Connected? && f.ftype.I?
    ensures Received(s, Receive(f, data), Info(s, f, data))
  {
    if ValidNr(s, f.nr) {
      AckingKeeps(s, f.nr);
      InfoTailReceives(s, AckFromInfo(s, f.nr), f, data);
    } else {
      NothingDelivered(s);
      FrameRejectKeeps(s, f, FRMR_Z);
    }
  }

  lemma UnnumberedReceives(s: Cb, f: Frame, data: seq<bv8>)
    requires s.state.Connected? && !HasNr(f.ftype)
    ensures Received(s, Receive(f, data), Machine3(s, f, data))
  {
    NothingDelivered(s);
    match f.ftype
    case SABM | SABME =>
    case DISC | DM =>
    case FRMR =>
    case _ =>
  }

  lemma IdleReceives(s: Cb, f: Frame, data: seq<bv8>)
    requires !s.state.Connected?
    ensures Received(s, Receive(f, data), Machine(s, f, data))
  {
    NothingDelivered(s);
    match s.state
    case Disconnected =>
    case AwaitingConnection =>
    case AwaitingRelease =>
    case _ =>
  }

  lemma MachineReceives(s: Cb, f: Frame, data: seq<bv8>)
    ensures Received(s, Receive(f, data), Machine(s, f, data))
  {
    if !s.state.Connected? {
      IdleReceives(s, f, data);
    } else if IsSupervisory(f.ftype) {
      SupervisoryReceives(s, f, data);
    } else if f.ftype.I? {
      InfoReceives(s, f, data);
    } else {
      UnnumberedReceives(s, f, data);
    }
  }

  /** A Kick that sends pays what is owed. */
  lemma KickPays(s: Cb)
    requires Bounded(s.conf, s.flow)
    ensures var t := Kick(s);
            && t.vr == s.vr && t.conf == s.conf && t.log.delivered == s.log.delivered
            && (t.cond.ackPending <==> s.cond.ackPending && t.log.sent == s.log.sent)
  {
    if KickEnabled(s) {
      GapWrap(SendStart(s.flow), SendEnd(s.conf, s.flow), s.M());
      assert |Kick(s).log.sent| > |s.log.sent|;
    }
  }

  lemma PreKickBounded(s: Cb, e: Event)
    requires Bounded(s.conf, s.flow) && InRange(s.M(), e)
    ensures Bounded(s.conf, PreKick(s, e))
  {
    PreKickVa(s, e);
  }

  lemma AdvancedBounded(c: Conf, q: Flow)
    requires Bounded(c, q)
    ensures Bounded(c, Advanced(c, q))
  {
    if CanSend(c, q) {
      GapWrap(SendStart(q), SendEnd(c, q), c.M());
    }
  }

  // ---- One step --------------------------------------------------------------------------------

  predicate CarriesNr(p: Pdu) {
    p.IFrame? || p.SFrame?
  }

  /** Frames with an N(R) sent so far. */
  function NrsSent(s: Cb): nat {
    Count(CarriesNr, s.log.sent)
  }

  lemma CountNrs(xs: seq<Pdu>, a: seq<Pdu>, u: seq<Pdu>, infos: seq<Pdu>)
    requires forall i :: 0 <= i < |a| ==> CarriesNr(a[i])
    requires forall i :: 0 <= i < |u| ==> !CarriesNr(u[i])
    requires forall i :: 0 <= i < |infos| ==> CarriesNr(infos[i])
    ensures Count(CarriesNr, xs + (a + u + infos)) == Count(CarriesNr, xs) + |a| + |infos|
  {
    CountAll(CarriesNr, xs, a);
    CountNone(CarriesNr, xs + a, u);
    CountAll(CarriesNr, xs + a + u, infos);
    Joined(xs, a, u);
    Joined(xs, a + u, infos);
  }

  lemma SignalsHaveNone(s: Cb, e: Event)
    ensures forall i :: 0 <= i < |Signals(s, e)| ==> !CarriesNr(Signals(s, e)[i])
    ensures forall i :: 0 <= i < |Acks(s, e)| ==> CarriesNr(Acks(s, e)[i])
  {
  }

  /** An acknowledgement is owed unless a frame with an N(R) went out. */
  predicate Owing(s: Cb, e: Event, t: Cb) {
    t.cond.ackPending <==> NrsSent(t) == NrsSent(s) && !Anew(s, e) && (Brings(s, e) || s.cond.ackPending)
  }

  lemma OwingIs(s: Cb, e: Event, infos: seq<Pdu>)
    requires var t := Step(s, e); Infos(t, infos) && Says(s, e, t, Acks(s, e) + Signals(s, e) + infos)
    requires OwesAs(s, e, Step(s, e), Acks(s, e) + infos)
    ensures Owing(s, e, Step(s, e))
  {
    SignalsHaveNone(s, e);
    CountNrs(s.log.sent, Acks(s, e), Signals(s, e), infos);
  }

  lemma ReceiveStep(s: Cb, f: Frame, data: seq<bv8>, infos: seq<Pdu>)
    requires Bounded(s.conf, s.flow) && InRange(s.M(), Receive(f, data))
    requires var e := Receive(f, data); Says(s, e, Step(s, e), Acks(s, e) + Signals(s, e) + infos)
    ensures var (e, t) := (Receive(f, data), Step(s, Receive(f, data)));
            ReceivesAs(s, e, t) && OwesAs(s, e, t, Acks(s, e) + infos)
  {
    var e, m := Receive(f, data), Machine(s, f, data);
    MachineReceives(s, f, data);
    MachineSays(s, f, data);
    MachineFlowIs(s, f, data);
    PreKickBounded(s, e);
    KickPays(m);
    SentMore(m.log.sent, s.log.sent, Acks(s, e) + Signals(s, e), infos);
  }

  lemma SentMore(m: seq<Pdu>, xs: seq<Pdu>, ys: seq<Pdu>, infos: seq<Pdu>)
    requires m == xs + ys
    ensures xs + (ys + infos) == m <==> infos == []
  {
    assert |xs + (ys + infos)| == |m| + |infos|;
  }

  lemma TimerStep(s: Cb, e: Event, infos: seq<Pdu>)
    requires Bounded(s.conf, s.flow) && (e.FireT1? || e.FireT2?)
    requires Says(s, e, Step(s, e), Acks(s, e) + Signals(s, e) + infos)
    ensures ReceivesAs(s, e, Step(s, e)) && OwesAs(s, e, Step(s, e), Acks(s, e) + infos)
  {
    NothingDelivered(s);
    if T1Fires(s, e) {
      T1Step(s, infos);
    }
  }

  lemma T1Step(s: Cb, infos: seq<Pdu>)
    requires Bounded(s.conf, s.flow) && T1Fires(s, FireT1)
    requires Says(s, FireT1, Step(s, FireT1), Acks(s, FireT1) + Signals(s, FireT1) + infos)
    ensures ReceivesAs(s, FireT1, Step(s, FireT1)) && OwesAs(s, FireT1, Step(s, FireT1), Acks(s, FireT1) + infos)
  {
    NothingDelivered(s);
    if s.state.Connected? && s.n2count != s.conf.n2 {
      var s2 := Requeue(Retry(s.(t1 := s.t1.(armed := false))));
      KickPays(s2);
      assert Step(s, FireT1) == StartT1(Kick(s2));
    }
  }

  lemma RequestStep(s: Cb, e: Event, infos: seq<Pdu>)
    requires Bounded(s.conf, s.flow) && (e.ConnectRequest? || e.DisconnectRequest? || e.DataRequest?)
    requires Infos(Step(s, e), infos) && Says(s, e, Step(s, e), Acks(s, e) + Signals(s, e) + infos)
    ensures ReceivesAs(s, e, Step(s, e)) && OwesAs(s, e, Step(s, e), Acks(s, e) + infos)
  {
    NothingDelivered(s);
    match e
    case DataRequest(msg) =>
      if TakesData(s) {
        KickPays(s.(flow := Enqueued(s.flow, msg)));
      }
    case ConnectRequest =>
    case DisconnectRequest =>
  }

  /**
   * For every stimulus from any peer: an I frame is delivered exactly when it is the expected one;
   * V(R) counts these and starts at zero with a connection; an acknowledgement is owed from an
   * accepted frame until something with an N(R) is sent.
   */
  lemma ReceivingStep(s: Cb, e: Event)
    requires Bounded(s.conf, s.flow) && InRange(s.M(), e)
    ensures Bounded(s.conf, Step(s, e).flow) && ReceivesAs(s, e, Step(s, e)) && Owing(s, e, Step(s, e))
  {
    var infos := SignalsStep(s, e);
    match e {
      case Receive(f, data) => ReceiveStep(s, f, data, infos);
      case FireT1 | FireT2 => TimerStep(s, e, infos);
      case _ => RequestStep(s, e, infos);
    }
    OwingIs(s, e, infos);
    PreKickBounded(s, e);
    StepFlow(s, e);
    AdvancedBounded(s.conf, PreKick(s, e));
  }

  // ---- Whole runs --------------------------------------------------------------------------------

  /** The payloads of the expected I frames of a run. */
  function Payloads(s: Cb, es: seq<Event>): seq<seq<bv8>> {
    if es == [] then [] else
      var (t, e) := (Run(Step, s, es[..|es| - 1]), es[|es| - 1]);
      Payloads(s, es[..|es| - 1]) + if Brings(t, e) then [e.data] else []
  }

  /** How many of them came since the connection was opened. */
  function Taken(s: Cb, es: seq<Event>): nat {
    if es == [] then 0 else
      var (t, e) := (Run(Step, s, es[..|es| - 1]), es[|es| - 1]);
      if Opens(t, e) then 0 else Taken(s, es[..|es| - 1]) + if Brings(t, e) then 1 else 0
  }

  /** One came, and no frame with an N(R) has gone out since. */
  predicate Owes(s: Cb, es: seq<Event>) {
    es != []
    && var (t, e) := (Run(Step, s, es[..|es| - 1]), es[|es| - 1]);
       NrsSent(Step(t, e)) == NrsSent(t) && !Anew(t, e) && (Brings(t, e) || Owes(s, es[..|es| - 1]))
  }

  ghost predicate ReceivingInv(s: Cb, es: seq<Event>, t: Cb) {
    && t.conf == s.conf && Bounded(t.conf, t.flow)
    && t.log.delivered == s.log.delivered + Payloads(s, es)
    && t.vr == Taken(s, es) % s.M() && (t.cond.ackPending <==> Owes(s, es))
  }

  lemma HistoryNext(s: Cb, es: seq<Event>, t: Cb, e: Event)
    requires t == Run(Step, s, es)
    ensures Payloads(s, es + [e]) == Payloads(s, es) + if Brings(t, e) then [e.data] else []
    ensures Taken(s, es + [e]) == if Opens(t, e) then 0 else Taken(s, es) + if Brings(t, e) then 1 else 0
    ensures Owes(s, es + [e])
       <==> NrsSent(Step(t, e)) == NrsSent(t) && !Anew(t, e) && (Brings(t, e) || Owes(s, es))
  {
    assert (es + [e])[..|es|] == es;
  }

  /** A number and its remainder, when one starts anew or counts one more. */
  lemma ModNext(n: nat, m: nat, anew: bool, more: bool)
    requires m > 1
    ensures (if anew then 0 else n + if more then 1 else 0) % m
         == if anew then 0 else if more then Wrap(n % m + 1, m) else n % m
  {
    AddMod(n, 1, m);
  }

  lemma NumberNext(n: nat, t: Cb, e: Event, u: Cb)
    requires ReceivesAs(t, e, u) && t.vr == n % t.M()
    ensures u.vr == (if Opens(t, e) then 0 else n + if Brings(t, e) then 1 else 0) % t.M()
  {
    ModNext(n, t.M(), Opens(t, e), Brings(t, e));
  }

  lemma ReceivingNext(s: Cb, es: seq<Event>, t: Cb, e: Event)
    requires ReceivingInv(s, es, t) && t == Run(Step, s, es) && InRangeFor(t, e)
    ensures ReceivingInv(s, es + [e], Step(t, e))
  {
    ReceivingStep(t, e);
    NumberNext(Taken(s, es), t, e, Step(t, e));
    HistoryNext(s, es, t, e);
    PayloadsNext(s.log.delivered, Payloads(s, es), if Brings(t, e) then [e.data] else []);
  }

  lemma PayloadsNext(d: seq<seq<bv8>>, p: seq<seq<bv8>>, q: seq<seq<bv8>>)
    ensures d + p + q == d + (p + q)
  {
  }

  lemma ReceivingStart(s: Cb)
    requires Bounded(s.conf, s.flow) && s.vr == 0 && !s.cond.ackPending
    ensures ReceivingInv(s, [], s)
  {
    NothingDelivered(s);
  }

  /**
   * Over any run against any peer: what is delivered are exactly the payloads of the expected
   * frames, in order; V(R) is their number since the connection was opened, modulo 8 or 128; and an
   * acknowledgement is pending exactly if one came since a frame with an N(R) was last sent.
   */
  lemma {:induction false} ReceivingRun(s: Cb, es: seq<Event>)
    requires Bounded(s.conf, s.flow) && s.vr == 0 && !s.cond.ackPending && Each(Step, InRangeFor, s, es)
    ensures ReceivingInv(s, es, Run(Step, s, es))
  {
    if es == [] {
      ReceivingStart(s);
    } else {
      var before, e := es[..|es| - 1], es[|es| - 1];
      ReceivingRun(s, before);
      ReceivingNext(s, before, Run(Step, s, before), e);
      assert before + [e] == es;
    }
  }
}
