/**
 * The moves of a connection whose ends are both open, in terms of absolute numbers: a delivery, an
 * expiry of T1 over unacknowledged data, an expiry of T2 with a pending acknowledgement.
 */
module X75Moves {
  import opened Modular
  import opened X75Types
  import opened X75Wire
  import opened X75Spec
  import opened X75Window
  import opened X75Accounting
  import opened X75Outputs
  import opened X75System
  import opened X75Live

  // ---- What a receiver makes of the frames on the line -----------------------------------------

  /** The number a receiver expects after these frames when it expects `r` before. */
  function Recv(items: seq<Item>, r: nat): (n: nat)
    ensures r <= n
    decreases |items|
  {
    if items == [] then r
    else Recv(items[1..], if items[0].pdu.IFrame? && items[0].ns == r then r + 1 else r)
  }

  lemma {:induction false} RecvConcat(u: seq<Item>, v: seq<Item>, r: nat)
    ensures Recv(u + v, r) == Recv(v, Recv(u, r))
    decreases |u|
  {
    if u == [] {
      assert u + v == v;
    } else {
      assert (u + v)[1..] == u[1..] + v;
      RecvConcat(u[1..], v, if u[0].pdu.IFrame? && u[0].ns == r then r + 1 else r);
    }
  }

  lemma {:induction false} RecvBelow(items: seq<Item>, r: nat, n: nat)
    requires r <= n && forall i :: 0 <= i < |items| && items[i].pdu.IFrame? ==> items[i].ns < n
    ensures Recv(items, r) <= n
    decreases |items|
  {
    if items != [] {
      RecvBelow(items[1..], if items[0].pdu.IFrame? && items[0].ns == r then r + 1 else r, n);
    }
  }

  /** The I frames of a step, from the i-th frame sent on. */
  lemma {:induction false} RecvBurst(t: Cb, k: nat, i: nat, r: nat)
    requires SenderOk(t) && Output(t, k) && i <= |t.log.sent| <= i + k
    requires r <= VsAbs(t.M(), t.flow) <= r + (|t.log.sent| - i)
    ensures Recv(Labelled(t)[i..], r) == VsAbs(t.M(), t.flow)
    decreases |t.log.sent| - i
  {
    if i < |t.log.sent| {
      NewInfo(t, k, i);
      var items := Labelled(t)[i..];
      assert items[0] == Label(t, i) && items[1..] == Labelled(t)[i + 1..];
      RecvBurst(t, k, i + 1, if items[0].ns == r then r + 1 else r);
    }
  }

  /** A receiver that expects one of the k newest numbers, or the next, takes all that are new to it. */
  lemma RecvSent(t: Cb, k: nat, r: nat)
    requires SenderOk(t) && Output(t, k) && r <= VsAbs(t.M(), t.flow) <= r + k
    ensures Recv(Labelled(t), r) == VsAbs(t.M(), t.flow)
  {
    var items := Labelled(t);
    if |t.log.sent| == k {
      assert items[0..] == items;
      RecvBurst(t, k, 0, r);
    } else {
      RecvBurst(t, k, 1, r);
    }
  }

  // ---- Both ends open --------------------------------------------------------------------------

  ghost predicate Going(z: Sys) {
    SysInv(z) && BothOpen(z) && Live(z.a.cb) && Live(z.b.cb)
  }

  lemma SwapGoing(z: Sys)
    requires Going(z)
    ensures Going(Swap(z))
  {
    SwapKeeps(z);
  }

  /** How many of the frames sent are new, in a step that may also send old ones again. */
  lemma SentNumbers(x: Cb, e: Event) returns (k: nat)
    requires SenderOk(x) && LinkEvent(x, e) && !Ends(x, e)
    ensures var t := Act(x, e);
            && SenderOk(t) && MovedOn(x, t) && Output(t, k) && ReceivedAs(x, e, t)
            && VaAbs(t.flow) == VaAbs(x.flow) + Freed(x, e)
            && VsAbs(x.M(), t.flow) <= VsAbs(x.M(), x.flow) + k
            && |t.flow.ackQ| == |PreKick(Afresh(x), e).ackQ| + k
  {
    AfreshKeeps(x, e);
    var s := Afresh(x);
    k := StepOutput(s, e);
    StepKeepsSender(s, e);
    PreKickOk(s, e);
    StepFlow(s, e);
    SpanGrows(s.conf, PreKick(s, e), Step(s, e).flow, k);
  }

  lemma SpanGrows(c: Conf, q: Flow, t: Flow, k: nat)
    requires FlowOk(c, q) && FlowOk(c, t) && (t == q || t == Advanced(c, q)) && |t.ackQ| == |q.ackQ| + k
    ensures VsAbs(c.M(), t) <= VsAbs(c.M(), q) + k
  {
  }

  /** What holds of the acting end after any move. */
  ghost predicate Moved(x: Cb, t: Cb) {
    && t.conf == x.conf && t.flow.accepted == x.flow.accepted
    && VsAbs(x.M(), x.flow) <= VsAbs(x.M(), t.flow)
    && (t.log.sent != [] ==> Labelled(t)[|t.log.sent| - 1].nr == VrAbs(t))
  }

  lemma ActMoves(x: Cb, e: Event)
    requires SenderOk(x) && LinkEvent(x, e) && !Ends(x, e) && !e.DataRequest?
    ensures Moved(x, Act(x, e))
  {
    var k := SentNumbers(x, e);
    StepAccepts(Afresh(x), e);
  }

  // ---- A delivery ------------------------------------------------------------------------------

  const JUNK := Frame(I, 0, 0, false, Unset, 0, 0)

  lemma HeadIsNumbered(z: Sys)
    requires Going(z) && z.ba != []
    ensures Numbered(z.ba[0].pdu) && AckOk(z.a.cb, z.b.cb, z.ba[0]) && InfoOk(z.b.cb, z.a.cb, z.ba[0])
  {
    assert AckOk(z.a.cb, z.b.cb, z.ba[0]);
  }

  /** The acting end after a delivery. */
  ghost predicate Hears(x: Cb, t: Cb, h: Item) {
    && Moved(x, t) && t.n2count <= x.n2count
    && VaAbs(t.flow) == h.nr
    && Recv(Labelled(t), VsAbs(x.M(), x.flow)) == VsAbs(x.M(), t.flow)
    && var taken := h.pdu.IFrame? && h.ns == VrAbs(x);
       && VrAbs(t) == VrAbs(x) + (if taken then 1 else 0)
       && (t.log.sent == [] ==>
             && (if taken then t.cond.ackPending else t.cond == x.cond)
             && (h.pdu.IFrame? && !taken ==> x.cond.reject))
  }

  /** With nothing unacknowledged there is nothing to acknowledge either. */
  lemma FreedIs(x: Cb, p: Cb, h: Item, e: Event)
    requires SenderOk(x) && Live(x) && ReceiverOk(x, p) && AckOk(x, p, h) && Numbered(h.pdu)
    requires e.Receive? && Carries(e.frame, e.data, h.pdu)
    ensures VaAbs(x.flow) + Freed(x, e) == h.nr
  {
    WithinWindow(x);
    GapOfMod(VaAbs(x.flow), h.nr - VaAbs(x.flow), x.M());
  }

  lemma HearsAct(x: Cb, p: Cb, h: Item, e: Event)
    requires SenderOk(x) && Live(x) && ReceiverOk(x, p) && AckOk(x, p, h) && Numbered(h.pdu)
    requires SenderOk(p) && ReceiverOk(p, x) && InfoOk(p, x, h) && p.M() == x.M()
    requires e.Receive? && Carries(e.frame, e.data, h.pdu)
    ensures LinkEvent(x, e) && Hears(x, Act(x, e), h)
  {
    var s, t := Afresh(x), Act(x, e);
    AckIsValid(x, p, h, e);
    var k := SentNumbers(x, e);
    ActMoves(x, e);
    FreedIs(x, p, h, e);
    RecvSent(t, k, VsAbs(x.M(), x.flow));
    AcceptedIsNext(p, x, h, e);
    ReceiveCalms(s, e.frame, e.data);
    if t.log.sent == [] {
      SilenceTells(s, e.frame, e.data);
    }
  }

  /** The oldest frame for end `a` arrives. */
  lemma FrameArrives(z: Sys)
    requires Going(z) && z.ba != []
    ensures var y := StepAtA(z, Deliver(true, JUNK));
            && Going(y) && y.b == z.b && y.ba == z.ba[1..] && y.ab == z.ab + Labelled(y.a.cb)
            && Hears(z.a.cb, y.a.cb, z.ba[0])
  {
    var (x, p, h) := (z.a.cb, z.b.cb, z.ba[0]);
    var e := ArrivalEvent(x, h, JUNK);
    HeadIsNumbered(z);
    ArrivalIs(x, p, h, JUNK);
    HearsAct(x, p, h, e);
    ActKeepsLive(x, e);
    StepAtAKeeps(z, Deliver(true, JUNK));
  }

  // ---- Expiries --------------------------------------------------------------------------------

  /** The acting end after an expiry of T1. */
  ghost predicate Repeats(x: Cb, t: Cb, k: nat) {
    && Moved(x, t) && t.n2count == x.n2count + 1 && VaAbs(t.flow) == VaAbs(x.flow) && VrAbs(t) == VrAbs(x)
    && SenderOk(t) && Output(t, k) && 1 <= k == |t.flow.ackQ|
  }

  lemma T1Expires(z: Sys) returns (k: nat)
    requires Going(z) && z.a.cb.flow.ackQ != [] && z.a.cb.n2count != z.a.cb.conf.n2
    ensures var y := StepAtA(z, Local(true, FireT1));
            && Going(y) && y.b == z.b && y.ba == z.ba && y.ab == z.ab + Labelled(y.a.cb)
            && Repeats(z.a.cb, y.a.cb, k)
  {
    var x := z.a.cb;
    k := RetransmissionIs(Afresh(x));
    ActMoves(x, FireT1);
    ActKeepsLive(x, FireT1);
    var k' := SentNumbers(x, FireT1);
    StepAtAKeeps(z, Local(true, FireT1));
  }

  lemma T2Expires(z: Sys)
    requires Going(z) && z.a.cb.cond.ackPending
    ensures var y := StepAtA(z, Local(true, FireT2));
            && Going(y) && y.b == z.b && y.ba == z.ba && y.ab == z.ab + Labelled(y.a.cb)
            && Moved(z.a.cb, y.a.cb) && y.a.cb.log.sent != [] && y.a.cb.flow == z.a.cb.flow
            && VrAbs(y.a.cb) == VrAbs(z.a.cb)
  {
    var x := z.a.cb;
    AcknowledgementIs(Afresh(x));
    ActMoves(x, FireT2);
    ActKeepsLive(x, FireT2);
    StepAtAKeeps(z, Local(true, FireT2));
  }
}
