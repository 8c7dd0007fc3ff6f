/** The retry counter, and how long an endpoint keeps trying when the peer is silent. */
module X75Retries {
  import opened Modular
  import opened Runs
  import opened X75Types
  import opened X75Spec
  import opened X75Frame
  import opened X75Window
  import opened X75Timers

  predicate RetriesBounded(s: Cb) {
    s.n2count <= s.conf.n2
  }

  /** The counter stays or is zeroed. */
  predicate Calmer(s: Cb, t: Cb) {
    t.conf == s.conf && (t.n2count == s.n2count || t.n2count == 0)
  }

  lemma SupervisoryCalm(s: Cb, f: Frame)
    ensures Calmer(s, Supervisory(s, f))
  {
    HeadKeeps(s, f);
    var s1 := SupervisoryHead(s, f);
    AckingKeeps(s1, f.nr);
    FrameRejectKeeps(s1, f, FRMR_Z);
  }

  lemma InfoCalm(s: Cb, f: Frame, data: seq<bv8>)
    ensures Calmer(s, Info(s, f, data))
  {
    AckingKeeps(s, f.nr);
    FrameRejectKeeps(s, f, FRMR_Z);
    InfoTailKeeps(AckFromInfo(s, f.nr), f, data);
  }

  lemma UnnumberedCalm(s: Cb, f: Frame, data: seq<bv8>)
    requires !IsSupervisory(f.ftype) && !f.ftype.I?
    ensures Calmer(s, Machine3(s, f, data))
  {
    match f.ftype
    case SABM | SABME =>
    case DISC | DM =>
    case FRMR =>
    case _ =>
  }

  lemma IdleCalm(s: Cb, f: Frame, data: seq<bv8>)
    requires !s.state.Connected?
    ensures Calmer(s, Machine(s, f, data))
  {
    match s.state
    case Disconnected =>
    case AwaitingConnection =>
    case AwaitingRelease =>
    case _ =>
  }

  lemma MachineCalm(s: Cb, f: Frame, data: seq<bv8>)
    ensures Calmer(s, Machine(s, f, data))
  {
    if !s.state.Connected? {
      IdleCalm(s, f, data);
    } else if IsSupervisory(f.ftype) {
      SupervisoryCalm(s, f);
    } else if f.ftype.I? {
      InfoCalm(s, f, data);
    } else {
      UnnumberedCalm(s, f, data);
    }
  }

  lemma T1BodyRetries(s: Cb)
    requires RetriesBounded(s)
    ensures RetriesBounded(T1Body(s)) && T1Body(s).conf == s.conf
  {
    match s.state
    case Connected =>
    case _ =>
  }

  lemma TimerRetries(s: Cb, e: Event)
    requires RetriesBounded(s) && (e.FireT1? || e.FireT2?)
    ensures RetriesBounded(Step(s, e)) && Step(s, e).conf == s.conf
  {
    T1BodyRetries(s.(t1 := s.t1.(armed := false)));
  }

  /** The retry counter never passes N2, whatever happens. */
  lemma RetriesStep(s: Cb, e: Event)
    requires RetriesBounded(s)
    ensures RetriesBounded(Step(s, e)) && Step(s, e).conf == s.conf
  {
    match e
    case Receive(f, data) => MachineCalm(s, f, data);
    case FireT1 | FireT2 => TimerRetries(s, e);
    case _ =>
  }

  // ---- A silent peer -----------------------------------------------------------------------

  /** The number of T1 expiries after which the endpoint falls silent itself. */
  function ExpiriesLeft(s: Cb): (k: nat)
    requires RetriesBounded(s)
    ensures 1 <= k <= 2 * s.conf.n2 + 2
  {
    if s.state.Disconnected? then
      (if s.conf.mode.dce then s.conf.n2 - s.n2count else 0) + 1 + (s.conf.n2 + 1)
    else
      s.conf.n2 - s.n2count + 1
  }

  predicate Quiet(s: Cb) {
    s.state.Disconnected? && !s.t1.running && !s.t1.armed
  }

  /** Each expiry uses up exactly one of them. */
  lemma T1BodyCounts(s: Cb)
    requires RetriesBounded(s) && s.t1.running && !s.t1.armed
    ensures RetriesBounded(T1Body(s))
    ensures ExpiriesLeft(s) == 1 ==> Quiet(T1Body(s))
    ensures ExpiriesLeft(s) > 1 ==> T1Body(s).t1 == T1_STARTED && ExpiriesLeft(T1Body(s)) == ExpiriesLeft(s) - 1
  {
    T1BodyRetries(s);
    match s.state
    case Connected =>
    case _ =>
  }

  function CountT1(es: seq<Event>): nat {
    if es == [] then 0
    else CountT1(es[..|es| - 1]) + (if es[|es| - 1].FireT1? then 1 else 0)
  }

  ghost predicate OnlyTimers(es: seq<Event>) {
    forall i :: 0 <= i < |es| ==> es[i].FireT1? || es[i].FireT2?
  }

  lemma T2StepCounts(s: Cb)
    requires RetriesBounded(s)
    ensures var t := Step(s, FireT2);
            t.t1 == s.t1 && t.state == s.state && t.n2count == s.n2count && t.conf == s.conf
  {
  }

  /**
   * With no frames from the peer and no local requests the endpoint gives up after exactly
   * ExpiriesLeft expiries of T1, at most 2 * N2 + 2, and until then T1 stays armed.
   */
  lemma {:induction false} SilentPeer(s: Cb, es: seq<Event>)
    requires RetriesBounded(s) && s.t1 == T1_STARTED && OnlyTimers(es)
    ensures var t := Run(Step, s, es);
            if CountT1(es) < ExpiriesLeft(s) then
              RetriesBounded(t) && t.t1 == T1_STARTED && ExpiriesLeft(t) == ExpiriesLeft(s) - CountT1(es)
            else RetriesBounded(t) && Quiet(t)
  {
    if es != [] {
      var es', e := es[..|es| - 1], es[|es| - 1];
      SilentPeer(s, es');
      var t := Run(Step, s, es');
      if e.FireT1? {
        T1ExpiryCounts(t);
      } else {
        T2StepCounts(t);
      }
    }
  }

  lemma T1ExpiryCounts(s: Cb)
    requires RetriesBounded(s)
    ensures RetriesBounded(Step(s, FireT1))
    ensures Quiet(s) ==> Quiet(Step(s, FireT1))
    ensures s.t1 == T1_STARTED ==>
              if ExpiriesLeft(s) == 1 then Quiet(Step(s, FireT1))
              else Step(s, FireT1).t1 == T1_STARTED && ExpiriesLeft(Step(s, FireT1)) == ExpiriesLeft(s) - 1
  {
    TimerRetries(s, FireT1);
    if s.t1 == T1_STARTED {
      var s1 := s.(t1 := s.t1.(armed := false));
      T1BodyCounts(s1);
      assert ExpiriesLeft(s1) == ExpiriesLeft(s);
      assert Step(s, FireT1) == T1Body(s1);
    }
  }

  /** T1 claims to run but is not pending: no event will ever come from it. */
  predicate Deaf(s: Cb) {
    s.t1.running && !s.t1.armed
  }

  /**
   * As written, a T1 that carries the T2 handler fires once without effect on the link; from then
   * on no sequence of timer expiries moves the endpoint out of its state.
   */
  lemma {:induction false} HijackedIsDeaf(s: Cb, es: seq<Event>)
    requires OnlyTimers(es)
    requires Deaf(s) || (T1Hijacked(s) && s.t1.armed && CountT1(es) > 0)
    ensures Deaf(Run(Step, s, es)) && Run(Step, s, es).state == s.state && Run(Step, s, es).flow == s.flow
  {
    if es != [] {
      var es', e := es[..|es| - 1], es[|es| - 1];
      if Deaf(s) || CountT1(es') > 0 {
        HijackedIsDeaf(s, es');
        DeafStep(Run(Step, s, es'), e);
      } else {
        OnlyT2Hijacked(s, es');
        HijackedStep(Run(Step, s, es'), e);
      }
    }
  }

  lemma DeafStep(s: Cb, e: Event)
    requires Deaf(s) && (e.FireT1? || e.FireT2?)
    ensures Deaf(Step(s, e)) && Step(s, e).state == s.state && Step(s, e).flow == s.flow
  {
  }

  lemma HijackedStep(s: Cb, e: Event)
    requires T1Hijacked(s) && s.t1.armed && (e.FireT1? || e.FireT2?)
    ensures Step(s, e).state == s.state && Step(s, e).flow == s.flow
    ensures if e.FireT1? then Deaf(Step(s, e)) else T1Hijacked(Step(s, e)) && Step(s, e).t1.armed
  {
  }

  lemma {:induction false} OnlyT2Hijacked(s: Cb, es: seq<Event>)
    requires OnlyTimers(es) && T1Hijacked(s) && s.t1.armed && CountT1(es) == 0
    ensures var t := Run(Step, s, es); T1Hijacked(t) && t.t1.armed && t.state == s.state && t.flow == s.flow
  {
    if es != [] {
      OnlyT2Hijacked(s, es[..|es| - 1]);
      HijackedStep(Run(Step, s, es[..|es| - 1]), es[|es| - 1]);
    }
  }
}
