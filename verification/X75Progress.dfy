/**
 * Progress: when, from a state with both ends open, everything accepted at end `a` can still be
 * delivered at end `b` without a further request, as soon as no more frames are lost. T2 has a
 * timer of its own here; nothing else is repaired.
 */
module X75Progress {
  import opened Modular
  import opened Runs
  import opened X75Types
  import opened X75Spec
  import opened X75Window
  import opened X75Accounting
  import opened X75Timers
  import opened X75Outputs
  import opened X75System
  import opened X75Live
  import opened X75Moves

  // ---- Continuations ---------------------------------------------------------------------------

  /** A delivery or a timer expiry: no request, no loss, no forgery. */
  predicate Patient(x: Action) {
    x.Deliver? || (x.Local? && (x.e.FireT1? || x.e.FireT2?))
  }

  ghost predicate AllPatient(xs: seq<Action>) {
    forall i :: 0 <= i < |xs| ==> Patient(xs[i])
  }

  ghost predicate Reaches(z: Sys, y: Sys) {
    exists xs: seq<Action> :: AllPatient(xs) && Run(SysStep, z, xs) == y
  }

  lemma ReachSelf(z: Sys)
    ensures Reaches(z, z)
  {
    assert AllPatient([]) && Run(SysStep, z, []) == z;
  }

  lemma ReachStep(z: Sys, y: Sys, x: Action)
    requires Reaches(z, y) && Patient(x)
    ensures Reaches(z, SysStep(y, x))
  {
    var xs: seq<Action> :| AllPatient(xs) && Run(SysStep, z, xs) == y;
    RunSnoc(SysStep, z, xs, x);
    assert AllPatient(xs + [x]);
  }

  lemma {:induction false} RunConcat(z: Sys, xs: seq<Action>, ys: seq<Action>)
    ensures Run(SysStep, z, xs + ys) == Run(SysStep, Run(SysStep, z, xs), ys)
  {
    if ys == [] {
      assert xs + ys == xs;
    } else {
      var n := |ys| - 1;
      RunConcat(z, xs, ys[..n]);
      assert (xs + ys)[..|xs + ys| - 1] == xs + ys[..n];
    }
  }

  lemma ReachOn(z: Sys, y: Sys, w: Sys)
    requires Reaches(z, y) && Reaches(y, w)
    ensures Reaches(z, w)
  {
    var xs: seq<Action> :| AllPatient(xs) && Run(SysStep, z, xs) == y;
    var ys: seq<Action> :| AllPatient(ys) && Run(SysStep, y, ys) == w;
    RunConcat(z, xs, ys);
    assert AllPatient(xs + ys);
  }

  // ---- The direction from a to b ---------------------------------------------------------------

  /** Frames delivered at b. */
  function Rx(z: Sys): nat {
    VrAbs(z.b.cb)
  }

  function Va(z: Sys): nat {
    VaAbs(z.a.cb.flow)
  }

  function Vs(z: Sys): nat {
    VsAbs(z.a.cb.M(), z.a.cb.flow)
  }

  /** Frames accepted at a. */
  function Total(z: Sys): nat {
    |z.a.cb.flow.accepted|
  }

  lemma Standing(z: Sys)
    requires Going(z)
    ensures Va(z) <= Rx(z) <= Vs(z) == Va(z) + |z.a.cb.flow.ackQ| <= Total(z)
    ensures |z.a.cb.flow.ackQ| <= z.a.cb.conf.window
    ensures Vs(z) < Total(z) ==> Vs(z) == Va(z) + z.a.cb.conf.window
  {
    AccountedFor(z.a.cb.flow);
  }

  /** The frames on the line lead b up to V(S). */
  predicate Covered(z: Sys) {
    Recv(z.ab, Rx(z)) == Vs(z)
  }

  /** a knows what b has received, or will be told. */
  predicate Informed(z: Sys) {
    z.b.cb.cond.ackPending || Va(z) == Rx(z) || (z.ba != [] && z.ba[|z.ba| - 1].nr == Rx(z))
  }

  predicate HasInfo(items: seq<Item>) {
    exists i :: 0 <= i < |items| && items[i].pdu.IFrame?
  }

  /** a is informed, or the frames on the line will make b speak. */
  predicate Eager(z: Sys) {
    Informed(z) || Rx(z) < Recv(z.ab, Rx(z)) || (!z.b.cb.cond.reject && HasInfo(z.ab))
  }

  // ---- Single moves ----------------------------------------------------------------------------

  function ToB(z: Sys): Sys {
    SysStep(z, Deliver(false, JUNK))
  }

  function ToA(z: Sys): Sys {
    SysStep(z, Deliver(true, JUNK))
  }

  lemma BHears(z: Sys)
    requires Going(z) && z.ab != []
    ensures var y := ToB(z);
            && Going(y) && y.a == z.a && y.ab == z.ab[1..] && y.ba == z.ba + Labelled(y.b.cb)
            && Hears(z.b.cb, y.b.cb, z.ab[0])
  {
    SwapGoing(z);
    FrameArrives(Swap(z));
    SwapGoing(StepAtA(Swap(z), Deliver(true, JUNK)));
  }

  lemma LastOf(items: seq<Item>, t: Cb)
    requires t.log.sent != []
    ensures var all := items + Labelled(t);
            all != [] && all[|all| - 1] == Labelled(t)[|t.log.sent| - 1]
  {
  }

  lemma ToBKeepsCovered(z: Sys)
    requires Going(z) && z.ab != [] && Covered(z)
    ensures Covered(ToB(z))
  {
    BHears(z);
  }

  lemma InfoBehind(items: seq<Item>)
    requires HasInfo(items) && !items[0].pdu.IFrame?
    ensures HasInfo(items[1..])
  {
    var i :| 0 <= i < |items| && items[i].pdu.IFrame?;
    assert items[1..][i - 1].pdu.IFrame?;
  }

  /** b has said nothing on the frame. */
  lemma SilentKeepsEager(z: Sys, y: Sys)
    requires z.ab != [] && Hears(z.b.cb, y.b.cb, z.ab[0]) && y.b.cb.log.sent == []
    requires y.a == z.a && y.ab == z.ab[1..] && y.ba == z.ba && Eager(z)
    ensures Eager(y)
  {
    if !z.ab[0].pdu.IFrame? && HasInfo(z.ab) {
      InfoBehind(z.ab);
    }
  }

  lemma ToBKeepsEager(z: Sys)
    requires Going(z) && z.ab != [] && Eager(z)
    ensures Eager(ToB(z))
  {
    var y := ToB(z);
    BHears(z);
    if y.b.cb.log.sent != [] {
      LastOf(z.ba, y.b.cb);
    } else {
      assert y.ba == z.ba + [] == z.ba;
      SilentKeepsEager(z, y);
    }
  }

  /** Everything on the line from a is delivered. */
  lemma {:induction false} DrainToB(z: Sys) returns (y: Sys)
    requires Going(z) && Covered(z)
    ensures Reaches(z, y) && Going(y) && y.a == z.a && y.ab == [] && Rx(y) == Vs(z)
    ensures Eager(z) ==> Informed(y)
    decreases |z.ab|
  {
    ReachSelf(z);
    if z.ab == [] {
      y := z;
    } else {
      BHears(z);
      ToBKeepsCovered(z);
      if Eager(z) {
        ToBKeepsEager(z);
      }
      ReachStep(z, z, Deliver(false, JUNK));
      y := DrainToB(ToB(z));
      ReachOn(z, ToB(z), y);
    }
  }

  lemma AHears(z: Sys)
    requires Going(z) && z.ba != []
    ensures var y := ToA(z);
            && Going(y) && y.b == z.b && y.ba == z.ba[1..] && y.ab == z.ab + Labelled(y.a.cb)
            && Hears(z.a.cb, y.a.cb, z.ba[0])
  {
    FrameArrives(z);
  }

  lemma ToAKeepsCovered(z: Sys)
    requires Going(z) && z.ba != [] && Covered(z)
    ensures Covered(ToA(z))
  {
    AHears(z);
    RecvConcat(z.ab, Labelled(ToA(z).a.cb), Rx(z));
  }

  function LastNr(items: seq<Item>, nr: nat): nat {
    if items == [] then nr else items[|items| - 1].nr
  }

  /** Nothing but deliveries at a. */
  ghost predicate Listened(z: Sys, y: Sys) {
    && Reaches(z, y) && Going(y) && y.b == z.b && Total(y) == Total(z)
    && y.a.cb.n2count <= z.a.cb.n2count && y.a.cb.conf == z.a.cb.conf
    && (Covered(z) ==> Covered(y))
  }

  lemma ListenedOnce(z: Sys)
    requires Going(z) && z.ba != []
    ensures Listened(z, ToA(z)) && Va(ToA(z)) == z.ba[0].nr && ToA(z).ba == z.ba[1..]
  {
    AHears(z);
    if Covered(z) {
      ToAKeepsCovered(z);
    }
    ReachSelf(z);
    ReachStep(z, z, Deliver(true, JUNK));
  }

  lemma ListenedOn(z: Sys, w: Sys, y: Sys)
    requires Listened(z, w) && Listened(w, y)
    ensures Listened(z, y)
  {
    ReachOn(z, w, y);
  }

  /** Everything on the line from b is delivered: a has seen the last acknowledgement. */
  lemma {:induction false} DrainToA(z: Sys) returns (y: Sys)
    requires Going(z)
    ensures Listened(z, y) && y.ba == [] && Va(y) == LastNr(z.ba, Va(z))
    decreases |z.ba|
  {
    if z.ba == [] {
      ReachSelf(z);
      y := z;
    } else {
      ListenedOnce(z);
      y := DrainToA(ToA(z));
      ListenedOn(z, ToA(z), y);
    }
  }

  /** b's pending acknowledgement goes out. */
  lemma T2AtB(z: Sys)
    requires Going(z) && z.b.cb.cond.ackPending
    ensures var y := SysStep(z, Local(false, FireT2));
            && Going(y) && y.a == z.a && y.ab == z.ab && Rx(y) == Rx(z)
            && y.ba != [] && y.ba[|y.ba| - 1].nr == Rx(y)
  {
    SwapGoing(z);
    T2Expires(Swap(z));
    var w := StepAtA(Swap(z), Local(true, FireT2));
    SwapGoing(w);
    LastOf(z.ba, w.a.cb);
  }

  /** b sends its own unacknowledged data again, and with it an acknowledgement. */
  lemma T1AtB(z: Sys)
    requires Going(z) && z.b.cb.flow.ackQ != [] && z.b.cb.n2count != z.b.cb.conf.n2
    ensures var y := SysStep(z, Local(false, FireT1));
            && Going(y) && y.a == z.a && y.ab == z.ab && Rx(y) == Rx(z)
            && y.ba != [] && y.ba[|y.ba| - 1].nr == Rx(y)
  {
    SwapGoing(z);
    var k := T1Expires(Swap(z));
    var w := StepAtA(Swap(z), Local(true, FireT1));
    SwapGoing(w);
    LastOf(z.ba, w.a.cb);
  }

  /** a sends everything outstanding again: whatever was lost, the line now leads up to V(S). */
  lemma T1AtA(z: Sys)
    requires Going(z) && z.a.cb.flow.ackQ != [] && z.a.cb.n2count != z.a.cb.conf.n2
    ensures var y := SysStep(z, Local(true, FireT1));
            && Going(y) && y.b == z.b && y.ba == z.ba && Va(y) == Va(z) && Total(y) == Total(z)
            && y.a.cb.conf == z.a.cb.conf
            && Covered(y) && HasInfo(y.ab)
  {
    var k := T1Expires(z);
    Resent(z, SysStep(z, Local(true, FireT1)), k);
  }

  lemma Resent(z: Sys, y: Sys, k: nat)
    requires Going(z) && Going(y) && y.b == z.b && y.ab == z.ab + Labelled(y.a.cb)
    requires Repeats(z.a.cb, y.a.cb, k)
    ensures Covered(y) && HasInfo(y.ab)
  {
    var t := y.a.cb;
    Standing(z);
    Standing(y);
    AllBelow(z);
    RecvBelow(z.ab, Rx(z), Vs(z));
    RecvConcat(z.ab, Labelled(t), Rx(z));
    RecvSent(t, k, Recv(z.ab, Rx(z)));
    NewestIsInfo(t, k);
    assert y.ab[|y.ab| - 1] == Label(t, |t.log.sent| - 1);
  }

  lemma AllBelow(z: Sys)
    requires Going(z)
    ensures forall i :: 0 <= i < |z.ab| && z.ab[i].pdu.IFrame? ==> z.ab[i].ns < Vs(z)
  {
    forall i | 0 <= i < |z.ab| && z.ab[i].pdu.IFrame? ensures z.ab[i].ns < Vs(z) {
      assert InfoOk(z.a.cb, z.b.cb, z.ab[i]);
    }
  }

  lemma NewestIsInfo(t: Cb, k: nat)
    requires Output(t, k) && k >= 1
    ensures t.log.sent != [] && t.log.sent[|t.log.sent| - 1].IFrame?
  {
  }

  // ---- Covered and informed: everything arrives -------------------------------------------------

  /** Both ends open, and b has been given everything accepted at a. */
  ghost predicate Finished(z: Sys, y: Sys) {
    Reaches(z, y) && Going(y) && Total(y) == Total(z) && Rx(y) == Total(z)
  }

  /** b has spoken: its last frame on the line, or what a knows, says what b has received. */
  ghost predicate Spoken(z: Sys, w: Sys) {
    && Reaches(z, w) && Going(w) && w.a == z.a && w.ab == z.ab && Rx(w) == Rx(z)
    && LastNr(w.ba, Va(w)) == Rx(w)
  }

  lemma Speaks(z: Sys) returns (w: Sys)
    requires Going(z) && Informed(z) && Va(z) < Rx(z)
    ensures Spoken(z, w)
  {
    ReachSelf(z);
    w := z;
    if z.b.cb.cond.ackPending {
      T2AtB(z);
      ReachStep(z, z, Local(false, FireT2));
      w := SysStep(z, Local(false, FireT2));
    }
  }

  /** b's acknowledgement comes to a, and the window opens. */
  lemma Acknowledge(z: Sys) returns (y: Sys)
    requires Going(z) && Covered(z) && Informed(z) && Va(z) < Rx(z)
    ensures Reaches(z, y) && Going(y) && Total(y) == Total(z) && Rx(y) == Rx(z)
    ensures Covered(y) && Va(y) == Rx(y)
  {
    var w := Speaks(z);
    y := DrainToA(w);
    ReachOn(z, w, y);
  }

  /** Without T1, by deliveries and acknowledgements alone. */
  lemma {:induction false} FlowsOn(z: Sys) returns (y: Sys)
    requires Going(z) && Covered(z) && Informed(z)
    ensures Finished(z, y)
    decreases Total(z) - Va(z)
  {
    var w := DrainToB(z);
    Standing(z);
    Standing(w);
    if Rx(w) == Total(w) {
      y := w;
    } else {
      WindowIsOpen(w);
      var v := Acknowledge(w);
      Standing(v);
      ReachOn(z, w, v);
      y := FlowsOn(v);
      ReachOn(z, v, y);
    }
  }

  lemma WindowIsOpen(z: Sys)
    requires Going(z)
    ensures z.a.cb.conf.window >= 1
  {
  }

  // ---- Getting there ----------------------------------------------------------------------------

  /** a may still retransmit, and has something to retransmit. */
  ghost predicate CanRepeat(z: Sys) {
    Going(z) && Rx(z) < Total(z) && z.a.cb.n2count < z.a.cb.conf.n2
  }

  lemma UnacknowledgedIsGuarded(z: Sys)
    requires Going(z) && Rx(z) < Total(z)
    ensures z.a.cb.flow.ackQ != []
  {
    Standing(z);
    WindowIsOpen(z);
  }

  /** a has repeated everything outstanding, and b has been told or will answer. */
  ghost predicate SentAgain(z: Sys, w: Sys) {
    Reaches(z, w) && Going(w) && Total(w) == Total(z) && Covered(w) && Eager(w)
  }

  lemma RepeatsAll(z: Sys) returns (w: Sys)
    requires CanRepeat(z)
    requires Informed(z) || !z.b.cb.cond.reject || Rx(z) < Va(z) + z.a.cb.conf.window
    ensures SentAgain(z, w)
  {
    UnacknowledgedIsGuarded(z);
    T1AtA(z);
    ReachSelf(z);
    ReachStep(z, z, Local(true, FireT1));
    w := SysStep(z, Local(true, FireT1));
    FullWindow(z, w);
  }

  lemma FullWindow(z: Sys, w: Sys)
    requires Going(z) && Going(w) && Rx(z) < Total(z) && Total(w) == Total(z) && Covered(w) && HasInfo(w.ab)
    requires w.b == z.b && w.ba == z.ba && Va(w) == Va(z) && w.a.cb.conf == z.a.cb.conf
    requires Informed(z) || !z.b.cb.cond.reject || Rx(z) < Va(z) + z.a.cb.conf.window
    ensures Eager(w)
  {
    Standing(w);
  }

  /** One expiry of T1 at a, when that makes b speak or a is informed anyway. */
  lemma OnceMore(z: Sys) returns (y: Sys)
    requires CanRepeat(z)
    requires Informed(z) || !z.b.cb.cond.reject || Rx(z) < Va(z) + z.a.cb.conf.window
    ensures Finished(z, y)
  {
    var w := RepeatsAll(z);
    var v := DrainToB(w);
    ReachOn(z, w, v);
    y := FlowsOn(v);
    ReachOn(z, v, y);
  }
}
