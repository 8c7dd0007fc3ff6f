/**
 * Two endpoints and two channels that may lose frames but not reorder them, followed from the
 * start of a connection. Here only the sequence numbers matter: whatever is requested, lost or
 * repeated, and in whatever order the queues are, every N(R) that arrives is acceptable, so that
 * neither end ever rejects a frame of the other. Payloads are the subject of X75GoBackN.
 */
module X75System {
  import opened Modular
  import opened Runs
  import opened X75Types
  import opened X75Wire
  import opened X75Spec
  import opened X75Window
  import opened X75Outputs

  /**
   * A frame on the line. The octets are those of `pdu`; `ns` and `nr` are the absolute sequence
   * numbers behind the modular ones and exist for the proof only.
   */
  datatype Item = Item(pdu: Pdu, ns: nat, nr: nat)

  /**
   * An end takes part until it leaves the data transfer state; `last` is its control block just
   * before, and exists for the proof only.
   */
  datatype End = Open(cb: Cb) | Left(cb: Cb, last: Cb) {
    function Last(): Cb {
      if Open? then cb else last
    }
  }

  datatype Sys = Sys(a: End, b: End, ab: seq<Item>, ba: seq<Item>)

  datatype Action =
    | Local(atA: bool, e: Event)           // a request or a timer expiry
    | Deliver(toA: bool, junk: Frame)      // the oldest frame arrives
    | Lose(fromA: bool, i: nat)            // any frame in transit disappears

  // ---- One endpoint acts ---------------------------------------------------------------------

  /** The same control block with an empty record of sent frames. */
  function Afresh(s: Cb): Cb {
    s.(log := s.log.(sent := []))
  }

  function Act(s: Cb, e: Event): Cb {
    Step(Afresh(s), e)
  }

  /** V(R) counted from the start of the connection. */
  function VrAbs(s: Cb): nat {
    |s.log.delivered|
  }

  /** The frames of the last step, I frames last, with their absolute numbers. */
  function Labelled(t: Cb): (items: seq<Item>)
    ensures |items| == |t.log.sent|
    ensures forall i :: 0 <= i < |items| ==> items[i] == Label(t, i)
  {
    seq(|t.log.sent|, i requires 0 <= i < |t.log.sent| => Label(t, i))
  }

  function Label(t: Cb, i: nat): Item
    requires i < |t.log.sent|
  {
    var back, vs := |t.log.sent| - i, VsAbs(t.M(), t.flow);
    Item(t.log.sent[i], if t.log.sent[i].IFrame? && back <= vs then vs - back else 0, VrAbs(t))
  }

  /** The octets of the frame, sent by an end in the opposite role, as this end decodes them. */
  function Arrival(s: Cb, item: Item, junk: Frame): Decoded {
    Decode(s.conf.mode, Encode(Peer(s.conf.mode), item.pdu), junk)
  }

  function ArrivalEvent(s: Cb, item: Item, junk: Frame): Event {
    match Arrival(s, item, junk)
    case Rejected => ConnectRequest
    case Decoded(f, data) => Receive(f, data)
  }

  function Take(s: Cb, item: Item, junk: Frame): Cb {
    if Arrival(s, item, junk).Rejected? then Afresh(s) else Act(s, ArrivalEvent(s, item, junk))
  }

  // ---- The system ----------------------------------------------------------------------------

  function Without(items: seq<Item>, i: nat): seq<Item> {
    if i < |items| then items[..i] + items[i + 1..] else items
  }

  function Swap(z: Sys): Sys {
    Sys(z.b, z.a, z.ba, z.ab)
  }

  function After(t: Cb, last: Cb): End {
    if t.state.Connected? then Open(t) else Left(t, last)
  }

  /** End `a` becomes `t`, and what it sent is on the line. */
  function Becomes(z: Sys, t: Cb): Sys {
    z.(a := After(t, z.a.cb), ab := z.ab + Labelled(t))
  }

  /** An action at end `a`, or a loss on its outgoing channel. */
  function StepAtA(z: Sys, x: Action): Sys {
    match x
    case Local(_, e) => if z.a.Left? then z else Becomes(z, Act(z.a.cb, e))
    case Deliver(_, junk) =>
      if z.a.Left? || z.ba == [] then z
      else Becomes(z, Take(z.a.cb, z.ba[0], junk)).(ba := z.ba[1..])
    case Lose(_, i) => z.(ab := Without(z.ab, i))
  }

  function AtA(x: Action): bool {
    match x
    case Local(atA, _) => atA
    case Deliver(toA, _) => toA
    case Lose(fromA, _) => fromA
  }

  function SysStep(z: Sys, x: Action): Sys {
    if AtA(x) then StepAtA(z, x) else Swap(StepAtA(Swap(z), x))
  }

  predicate BothOpen(z: Sys) {
    z.a.Open? && z.b.Open?
  }

  function Actor(z: Sys, x: Action): End {
    if AtA(x) then z.a else z.b
  }

  function Incoming(z: Sys, x: Action): seq<Item> {
    if AtA(x) then z.ba else z.ab
  }

  /** Frames come from the channel only. */
  predicate NoForgery(z: Sys, x: Action) {
    x.Local? ==> !x.e.Receive?
  }

  // ---- The invariant -------------------------------------------------------------------------

  ghost predicate SenderOk(s: Cb) {
    && s.state.Connected? && !s.cond.peerBusy
    && FlowOk(s.conf, s.flow)
    && s.flow.va == VaAbs(s.flow) % s.M()
  }

  ghost predicate ReceiverOk(s: Cb, r: Cb) {
    && r.vr == VrAbs(r) % s.M()
    && VaAbs(s.flow) <= VrAbs(r) <= VsAbs(s.M(), s.flow)
  }

  /** An I frame in transit from `s` to `r` has been sent, and is not too old to be told apart. */
  ghost predicate InfoOk(s: Cb, r: Cb, x: Item) {
    x.pdu.IFrame? ==>
      x.ns < VsAbs(s.M(), s.flow) && x.pdu.ns == x.ns % s.M() && VrAbs(r) <= x.ns + s.conf.window
  }

  ghost predicate ForwardOk(s: Cb, r: Cb, fwd: seq<Item>) {
    && (forall i :: 0 <= i < |fwd| ==> InfoOk(s, r, fwd[i]))
    && (forall i, j :: 0 <= i < j < |fwd| && fwd[i].pdu.IFrame? && fwd[j].pdu.IFrame? ==>
          fwd[i].ns < fwd[j].ns + s.conf.window)
  }

  /** What an end sends: I frames without poll bit, RR and REJ responses, and a last DISC or UA. */
  predicate Sendable(p: Pdu) {
    match p
    case IFrame(_, _, pf, _) => !pf
    case SFrame(t, _, _, cr) => (t.RR? || t.REJ?) && cr.Response?
    case UFrame(t, _, cr) => (t.DISC? || t.UA?) && !cr.Unset?
    case FrmrFrame(_, _, _, _, _, _) => false
  }

  predicate Numbered(p: Pdu) {
    p.IFrame? || p.SFrame?
  }

  /** A frame on its way back to `s` acknowledges something that `r` has and `s` still keeps. */
  ghost predicate AckOk(s: Cb, r: Cb, x: Item) {
    && Sendable(x.pdu)
    && (x.pdu.IFrame? ==> x.pdu.ns < s.M())
    && (Numbered(x.pdu) ==> x.pdu.nr == x.nr % s.M())
    && VaAbs(s.flow) <= x.nr <= VrAbs(r)
  }

  ghost predicate BackOk(s: Cb, r: Cb, back: seq<Item>) {
    && (forall i :: 0 <= i < |back| ==> AckOk(s, r, back[i]))
    && (forall i, j :: 0 <= i < j < |back| ==> back[i].nr <= back[j].nr)
  }

  /** Data flows from `s` to `r` over `fwd`; acknowledgements come back over `back`. */
  ghost predicate Dir(s: Cb, r: Cb, fwd: seq<Item>, back: seq<Item>) {
    SenderOk(s) && ReceiverOk(s, r) && ForwardOk(s, r, fwd) && BackOk(s, r, back)
  }

  ghost predicate Pair(x: Cb, p: Cb, inn: seq<Item>, out: seq<Item>) {
    && p.conf.mode == Peer(x.conf.mode)
    && Dir(x, p, out, inn) && Dir(p, x, inn, out)
  }

  /** A DISC is sent by an end as it leaves, a UA as it leaves because the other has left. */
  predicate ByeOk(x: End, p: End, out: seq<Item>) {
    forall i :: 0 <= i < |out| && out[i].pdu.UFrame? ==>
      if out[i].pdu.ftype.DISC? then x.Left? else x.Left? && p.Left?
  }

  predicate EndOk(x: End) {
    x.Left? ==> !x.cb.state.Connected? && !x.cb.state.FrameReject?
  }

  ghost predicate SysInv(z: Sys) {
    && Pair(z.a.Last(), z.b.Last(), z.ba, z.ab)
    && ByeOk(z.a, z.b, z.ab) && ByeOk(z.b, z.a, z.ba)
    && EndOk(z.a) && EndOk(z.b)
  }

  // ---- Lemmas about one direction ------------------------------------------------------------

  /** The ack queue spans V(A)..V(S). */
  lemma AckQueueSpans(s: Cb, n: nat)
    requires SenderOk(s) && n < |s.flow.ackQ|
    ensures VsAbs(s.M(), s.flow) == VaAbs(s.flow) + |s.flow.ackQ|
    ensures s.flow.ackNs[n] == (VaAbs(s.flow) + n) % s.M()
  {
    AddMod(VaAbs(s.flow), n, s.M());
  }

  lemma WithinWindow(s: Cb)
    requires SenderOk(s)
    ensures VsAbs(s.M(), s.flow) <= VaAbs(s.flow) + s.conf.window
  {
  }

  /** A newly sent I frame is in order with everything older. */
  lemma NewInfo(t: Cb, k: nat, i: nat)
    requires SenderOk(t) && Output(t, k) && i < |t.log.sent| && t.log.sent[i].IFrame?
    ensures i + k >= |t.log.sent|
    ensures var x, back := Label(t, i), |t.log.sent| - i;
            && x.ns + back == VsAbs(t.M(), t.flow) && VaAbs(t.flow) <= x.ns
            && x.pdu.ns == x.ns % t.M() && x.pdu.nr == t.vr && !x.pdu.pf
  {
    var n := |t.flow.ackQ| - (|t.log.sent| - i);
    AckQueueSpans(t, n);
  }

  /** `t` is `s` after sending: nothing on the sending side has moved back. */
  ghost predicate MovedOn(s: Cb, t: Cb) {
    && t.conf == s.conf
    && VsAbs(s.M(), t.flow) >= VsAbs(s.M(), s.flow)
  }

  lemma InfoMovesOn(s: Cb, t: Cb, r: Cb, x: Item)
    requires InfoOk(s, r, x) && MovedOn(s, t)
    ensures InfoOk(t, r, x)
  {
  }

  lemma NewInfoOk(t: Cb, r: Cb, k: nat, i: nat)
    requires SenderOk(t) && Output(t, k) && i < |t.log.sent| && VrAbs(r) <= VsAbs(t.M(), t.flow)
    ensures InfoOk(t, r, Label(t, i))
  {
    if t.log.sent[i].IFrame? {
      NewInfo(t, k, i);
      WithinWindow(t);
    }
  }

  lemma NewSpread(s: Cb, t: Cb, r: Cb, x: Item, k: nat, j: nat)
    requires MovedOn(s, t) && SenderOk(t) && Output(t, k) && InfoOk(s, r, x) && x.pdu.IFrame?
    requires j < |t.log.sent| && t.log.sent[j].IFrame?
    ensures x.ns < Label(t, j).ns + t.conf.window
  {
    NewInfo(t, k, j);
    WithinWindow(t);
  }

  lemma ForwardInfoAppend(s: Cb, t: Cb, r: Cb, fwd: seq<Item>, k: nat, i: nat)
    requires ReceiverOk(s, r) && ForwardOk(s, r, fwd)
    requires MovedOn(s, t) && SenderOk(t) && Output(t, k)
    requires i < |fwd| + |t.log.sent|
    ensures InfoOk(t, r, (fwd + Labelled(t))[i])
  {
    if i < |fwd| {
      InfoMovesOn(s, t, r, fwd[i]);
    } else {
      NewInfoOk(t, r, k, i - |fwd|);
    }
  }

  lemma ForwardSpreadAppend(s: Cb, t: Cb, r: Cb, fwd: seq<Item>, k: nat, i: nat, j: nat)
    requires ForwardOk(s, r, fwd) && MovedOn(s, t) && SenderOk(t) && Output(t, k)
    requires i < j < |fwd| + |t.log.sent|
    ensures var all := fwd + Labelled(t);
            all[i].pdu.IFrame? && all[j].pdu.IFrame? ==> all[i].ns < all[j].ns + t.conf.window
  {
    var all := fwd + Labelled(t);
    if all[i].pdu.IFrame? && all[j].pdu.IFrame? {
      if j < |fwd| {
        assert all[i] == fwd[i] && all[j] == fwd[j];
      } else if i < |fwd| {
        assert InfoOk(s, r, fwd[i]);
        NewSpread(s, t, r, fwd[i], k, j - |fwd|);
      } else {
        NewInfo(t, k, i - |fwd|);
        NewInfo(t, k, j - |fwd|);
      }
    }
  }

  lemma ForwardAppend(s: Cb, t: Cb, r: Cb, fwd: seq<Item>, k: nat)
    requires ReceiverOk(s, r) && ForwardOk(s, r, fwd)
    requires MovedOn(s, t) && SenderOk(t) && Output(t, k)
    ensures ForwardOk(t, r, fwd + Labelled(t))
  {
    var all := fwd + Labelled(t);
    forall i | 0 <= i < |all| ensures InfoOk(t, r, all[i]) {
      ForwardInfoAppend(s, t, r, fwd, k, i);
    }
    forall i, j | 0 <= i < j < |all| && all[i].pdu.IFrame? && all[j].pdu.IFrame?
      ensures all[i].ns < all[j].ns + t.conf.window
    {
      ForwardSpreadAppend(s, t, r, fwd, k, i, j);
    }
  }

  /** A frame sent now acknowledges exactly what has been received. */
  lemma NewAckOk(s: Cb, t: Cb, k: nat, i: nat)
    requires Output(t, k) && i < |t.log.sent| && ReceiverOk(s, t) && s.M() == t.M()
    requires SenderOk(t)
    ensures AckOk(s, t, Label(t, i)) && Label(t, i).nr == VrAbs(t)
  {
    if t.log.sent[i].IFrame? {
      NewInfo(t, k, i);
    }
  }

  lemma BackAppend(s: Cb, r: Cb, t: Cb, back: seq<Item>, k: nat)
    requires BackOk(s, r, back) && VrAbs(r) <= VrAbs(t) && ReceiverOk(s, t) && s.M() == t.M()
    requires SenderOk(t) && Output(t, k)
    ensures BackOk(s, t, back + Labelled(t))
  {
    var all := back + Labelled(t);
    forall i | 0 <= i < |all| ensures AckOk(s, t, all[i]) {
      if i < |back| {
        assert AckOk(s, r, back[i]);
      } else {
        NewAckOk(s, t, k, i - |back|);
      }
    }
    forall i, j | 0 <= i < j < |all| ensures all[i].nr <= all[j].nr {
      if i < |back| <= j {
        assert AckOk(s, r, back[i]);
      }
    }
  }

  // ---- What one end does -----------------------------------------------------------------------

  predicate Ends(s: Cb, e: Event) {
    e.DisconnectRequest? || (T1Fires(s, e) && s.n2count == s.conf.n2)
  }

  lemma StepVaIs(s: Cb, e: Event)
    requires SenderOk(s) && LinkEvent(s, e) && !Ends(s, e)
    ensures Step(s, e).flow.va == Wrap(s.flow.va + Freed(s, e), s.M()) && Freed(s, e) < s.M()
  {
    StepFlow(s, e);
    PreKickVaIs(s, e);
    assert Advanced(s.conf, PreKick(s, e)).va == PreKick(s, e).va;
  }

  /** V(A) stays the remainder of its absolute counterpart. */
  lemma VaStays(n: nat, k: nat, m: nat, va: nat)
    requires m > 0 && k < m && va == n % m
    ensures Wrap(va + k, m) == (n + k) % m
  {
    AddMod(n, k, m);
  }

  lemma PreKickVaIs(s: Cb, e: Event)
    requires SenderOk(s) && LinkEvent(s, e) && !Ends(s, e)
    ensures PreKick(s, e).va == Wrap(s.flow.va + Freed(s, e), s.M()) && Freed(s, e) < s.M()
  {
    GapWrap(s.flow.va, s.flow.vs, s.M());
    match e
    case Receive(f, _) =>
    case _ =>
  }

  lemma StepVaMod(s: Cb, e: Event)
    requires SenderOk(s) && LinkEvent(s, e) && !Ends(s, e)
    ensures var t := Step(s, e); t.flow.va == VaAbs(t.flow) % s.M() && VaAbs(t.flow) == VaAbs(s.flow) + Freed(s, e)
  {
    FlowStep(s, e);
    StepVaIs(s, e);
    VaStays(VaAbs(s.flow), Freed(s, e), s.M(), s.flow.va);
  }

  lemma StepKeepsSender(s: Cb, e: Event)
    requires SenderOk(s) && LinkEvent(s, e) && !Ends(s, e)
    requires var t := Step(s, e); t.state.Connected? && !t.cond.peerBusy
    ensures var t := Step(s, e);
            SenderOk(t) && MovedOn(s, t) && VaAbs(t.flow) == VaAbs(s.flow) + Freed(s, e)
  {
    FlowStep(s, e);
    StepVaMod(s, e);
  }

  /** Clearing the record of sent frames changes nothing else. */
  lemma AfreshKeeps(x: Cb, e: Event)
    requires SenderOk(x) && LinkEvent(x, e) && !Ends(x, e)
    ensures var q := Afresh(x);
            SenderOk(q) && LinkEvent(q, e) && !Ends(q, e)
            && Freed(q, e) == Freed(x, e) && Accepts(q, e) == Accepts(x, e)
  {
  }

  /** The acting end, before looking at the channels. */
  lemma ActorStep(x: Cb, e: Event) returns (k: nat)
    requires SenderOk(x) && LinkEvent(x, e) && !Ends(x, e)
    ensures var t := Act(x, e);
            && SenderOk(t) && MovedOn(x, t) && Output(t, k) && ReceivedAs(x, e, t)
            && VaAbs(t.flow) == VaAbs(x.flow) + Freed(x, e)
  {
    AfreshKeeps(x, e);
    k := StepOutput(Afresh(x), e);
    StepKeepsSender(Afresh(x), e);
  }

  // ---- Both directions -------------------------------------------------------------------------

  lemma BackLater(s: Cb, t: Cb, r: Cb, back: seq<Item>)
    requires BackOk(s, r, back) && s.M() == t.M()
    requires forall i :: 0 <= i < |back| ==> VaAbs(t.flow) <= back[i].nr
    ensures BackOk(t, r, back)
  {
    forall i | 0 <= i < |back| ensures AckOk(t, r, back[i]) {
      assert AckOk(s, r, back[i]);
    }
  }

  lemma ForwardLater(s: Cb, r: Cb, fwd: seq<Item>, q: Cb)
    requires ForwardOk(s, r, fwd) && VrAbs(q) == VrAbs(r)
    ensures ForwardOk(s, q, fwd)
  {
    forall i | 0 <= i < |fwd| ensures InfoOk(s, q, fwd[i]) {
      assert InfoOk(s, r, fwd[i]);
    }
  }

  /** The acting end as a sender: its new frames join `out`, the acknowledgements left are `inn`. */
  lemma SenderSide(x: Cb, t: Cb, p: Cb, out: seq<Item>, inn: seq<Item>, rest: seq<Item>, k: nat)
    requires Dir(x, p, out, inn) && SenderOk(t) && MovedOn(x, t) && Output(t, k)
    requires VaAbs(t.flow) <= VrAbs(p) && BackOk(t, p, rest)
    ensures Dir(t, p, out + Labelled(t), rest)
  {
    ForwardAppend(x, t, p, out, k);
  }

  /** The acting end as a receiver: its new acknowledgements join `out`. */
  lemma ReceiverSide(x: Cb, t: Cb, p: Cb, out: seq<Item>, inn: seq<Item>, rest: seq<Item>, k: nat)
    requires Dir(p, x, inn, out) && SenderOk(t) && Output(t, k) && p.M() == t.M()
    requires ReceiverOk(p, t) && VrAbs(x) <= VrAbs(t) && ForwardOk(p, t, rest)
    ensures Dir(p, t, rest, out + Labelled(t))
  {
    BackAppend(p, x, t, out, k);
  }

  lemma LocalPair(x: Cb, p: Cb, inn: seq<Item>, out: seq<Item>, e: Event)
    requires Pair(x, p, inn, out) && !e.Receive? && !Ends(x, e)
    ensures var t := Act(x, e); Pair(t, p, inn, out + Labelled(t))
  {
    var k := ActorStep(x, e);
    var t := Act(x, e);
    assert VaAbs(t.flow) == VaAbs(x.flow);
    BackLater(x, t, p, inn);
    SenderSide(x, t, p, out, inn, inn, k);
    ForwardLater(p, x, inn, t);
    ReceiverSide(x, t, p, out, inn, inn, k);
  }

  /** The frame arrives as it was sent. */
  lemma ArrivalIs(x: Cb, p: Cb, h: Item, junk: Frame)
    requires AckOk(x, p, h) && p.conf.mode == Peer(x.conf.mode)
    ensures var e := ArrivalEvent(x, h, junk);
            e.Receive? && Take(x, h, junk) == Act(x, e) && Carries(e.frame, e.data, h.pdu)
  {
    assert Peer(Peer(x.conf.mode)) == x.conf.mode;
    RoundTrip(Peer(x.conf.mode), h.pdu, junk);
  }

  /** Its N(R) is always acceptable: no end rejects a frame of the other. */
  lemma AckIsValid(x: Cb, p: Cb, h: Item, e: Event)
    requires SenderOk(x) && ReceiverOk(x, p) && AckOk(x, p, h) && Numbered(h.pdu)
    requires e.Receive? && Carries(e.frame, e.data, h.pdu)
    ensures LinkEvent(x, e) && VaAbs(x.flow) + Freed(x, e) <= h.nr
  {
    WithinWindow(x);
    GapOfMod(VaAbs(x.flow), h.nr - VaAbs(x.flow), x.M());
  }

  /** An I frame has the expected N(S) exactly when it is the expected frame. */
  lemma AcceptedIsNext(p: Cb, x: Cb, h: Item, e: Event)
    requires SenderOk(p) && ReceiverOk(p, x) && InfoOk(p, x, h) && AckOk(x, p, h) && p.M() == x.M()
    requires e.Receive? && Carries(e.frame, e.data, h.pdu)
    ensures Accepts(x, e) <==> h.pdu.IFrame? && h.ns == VrAbs(x)
    ensures Accepts(x, e) ==> VrAbs(x) < VsAbs(p.M(), p.flow)
  {
    WithinWindow(p);
    if Accepts(x, e) {
      ModInjective(h.ns, VrAbs(x), p.M());
    }
  }

  /** The receiving end after a delivery: one payload more at most, and the right one. */
  lemma DeliveryReceiver(p: Cb, x: Cb, t: Cb, inn: seq<Item>, e: Event)
    requires inn != [] && SenderOk(p) && ReceiverOk(p, x) && ForwardOk(p, x, inn) && p.M() == x.M()
    requires AckOk(x, p, inn[0]) && e.Receive? && Carries(e.frame, e.data, inn[0].pdu) && ReceivedAs(x, e, t)
    ensures ReceiverOk(p, t) && VrAbs(x) <= VrAbs(t)
    ensures ForwardOk(p, t, inn[1..])
  {
    var rest := inn[1..];
    if Accepts(x, e) {
      assert InfoOk(p, x, inn[0]);
      AcceptedIsNext(p, x, inn[0], e);
      AddMod(VrAbs(x), 1, p.M());
      forall i | 0 <= i < |rest| ensures InfoOk(p, t, rest[i]) {
        assert InfoOk(p, x, inn[i + 1]);
      }
    } else {
      forall i | 0 <= i < |rest| ensures InfoOk(p, t, rest[i]) {
        assert InfoOk(p, x, inn[i + 1]);
      }
    }
  }

  lemma DeliverPair(x: Cb, p: Cb, inn: seq<Item>, out: seq<Item>, junk: Frame)
    requires Pair(x, p, inn, out) && inn != [] && Numbered(inn[0].pdu)
    ensures var t := Take(x, inn[0], junk); Pair(t, p, inn[1..], out + Labelled(t))
  {
    var h, e := inn[0], ArrivalEvent(x, inn[0], junk);
    assert AckOk(x, p, h);
    ArrivalIs(x, p, h, junk);
    AckIsValid(x, p, h, e);
    var k := ActorStep(x, e);
    var t, rest := Act(x, e), inn[1..];
    assert BackOk(x, p, rest);
    BackLater(x, t, p, rest);
    SenderSide(x, t, p, out, inn, rest, k);
    DeliveryReceiver(p, x, t, inn, e);
    ReceiverSide(x, t, p, out, inn, rest, k);
  }

  lemma WithoutIs(items: seq<Item>, i: nat, j: nat)
    requires j < |Without(items, i)|
    ensures var j' := if j < i || i >= |items| then j else j + 1;
            j' < |items| && Without(items, i)[j] == items[j']
  {
  }

  lemma LoseForward(s: Cb, r: Cb, fwd: seq<Item>, i: nat)
    requires ForwardOk(s, r, fwd)
    ensures ForwardOk(s, r, Without(fwd, i))
  {
    var w := Without(fwd, i);
    forall j | 0 <= j < |w| ensures InfoOk(s, r, w[j]) {
      WithoutIs(fwd, i, j);
    }
    forall j, k | 0 <= j < k < |w| && w[j].pdu.IFrame? && w[k].pdu.IFrame?
      ensures w[j].ns < w[k].ns + s.conf.window
    {
      WithoutIs(fwd, i, j);
      WithoutIs(fwd, i, k);
    }
  }

  lemma LoseBack(s: Cb, r: Cb, back: seq<Item>, i: nat)
    requires BackOk(s, r, back)
    ensures BackOk(s, r, Without(back, i))
  {
    var w := Without(back, i);
    forall j | 0 <= j < |w| ensures AckOk(s, r, w[j]) {
      WithoutIs(back, i, j);
    }
    forall j, k | 0 <= j < k < |w| ensures w[j].nr <= w[k].nr {
      WithoutIs(back, i, j);
      WithoutIs(back, i, k);
    }
  }

  lemma LosePair(x: Cb, p: Cb, inn: seq<Item>, out: seq<Item>, i: nat)
    requires Pair(x, p, inn, out)
    ensures Pair(x, p, inn, Without(out, i))
  {
    LoseForward(x, p, out, i);
    LoseBack(p, x, out, i);
  }

  // ---- Leaving ---------------------------------------------------------------------------------

  /** A step that does not keep the end in the data transfer state. */
  predicate Parting(t: Cb, x: Cb) {
    && !t.state.Connected? && !t.state.FrameReject?
    && t.conf == x.conf && t.log.delivered == x.log.delivered && t.flow.accepted == x.flow.accepted
    && |t.log.sent| <= 1
  }

  /** Giving up sends nothing, a disconnect request sends a DISC. */
  lemma EndParts(x: Cb, e: Event)
    requires Ends(x, e) && x.state.Connected?
    ensures var t := Act(x, e);
            Parting(t, x) && (t.log.sent != [] ==> t.log.sent[0] == UFrame(DISC, true, Command))
  {
  }

  /** A DISC is answered by a UA. */
  lemma DiscParts(x: Cb, f: Frame, data: seq<bv8>)
    requires x.state.Connected? && f.ftype.DISC?
    ensures var t := Act(x, Receive(f, data));
            Parting(t, x) && t.log.sent == [UFrame(UA, f.pf, Response)]
  {
    var q := Afresh(x);
    var m := GoDisconnected(SendControl(ClearQueues(q), UA, f.pf, Response), DisconnectIndication(Ok));
    assert Machine3(q, f, data) == m;
    assert m.flow.writeQ == [] && Kick(m) == m;
  }

  lemma PartingPair(x: Cb, p: Cb, inn: seq<Item>, rest: seq<Item>, out: seq<Item>, t: Cb)
    requires Pair(x, p, inn, out) && (rest == inn || (inn != [] && rest == inn[1..]))
    requires Parting(t, x) && (t.log.sent != [] ==> t.log.sent[0].UFrame? && Sendable(t.log.sent[0]))
    ensures Pair(x, p, rest, out + Labelled(t))
  {
    var all := out + Labelled(t);
    forall i | 0 <= i < |all| ensures InfoOk(x, p, all[i]) && AckOk(p, x, all[i]) {
      if i < |out| {
        assert InfoOk(x, p, out[i]) && AckOk(p, x, out[i]);
      }
    }
    assert ForwardOk(x, p, all) && BackOk(p, x, all);
    assert ForwardOk(p, x, rest) && BackOk(x, p, rest);
  }

  // ---- The system ------------------------------------------------------------------------------

  /** How an end leaves: by itself, or because a DISC of the other end arrives. */
  predicate Leaves(s: Cb, inn: seq<Item>, x: Action) {
    match x
    case Local(_, e) => Ends(s, e)
    case Deliver(_, _) => inn != [] && inn[0].pdu.UFrame?
    case Lose(_, _) => false
  }

  lemma LocalAtA(z: Sys, e: Event)
    requires SysInv(z) && z.a.Open? && !e.Receive?
    ensures SysInv(Becomes(z, Act(z.a.cb, e)))
    ensures Becomes(z, Act(z.a.cb, e)).a.Left? <==> Ends(z.a.cb, e)
  {
    var (s, p, t) := (z.a.cb, z.b.Last(), Act(z.a.cb, e));
    if Ends(s, e) {
      EndParts(s, e);
      PartingPair(s, p, z.ba, z.ba, z.ab, t);
    } else {
      LocalPair(s, p, z.ba, z.ab, e);
      var k := ActorStep(s, e);
      StaysBye(z, t, k);
    }
  }

  /** An end that stays sends neither DISC nor UA. */
  lemma StaysBye(z: Sys, t: Cb, k: nat)
    requires SysInv(z) && z.a.Open? && t.state.Connected? && Output(t, k)
    ensures ByeOk(Open(t), z.b, z.ab + Labelled(t)) && ByeOk(z.b, Open(t), z.ba)
  {
  }

  lemma ByeAtA(z: Sys, junk: Frame)
    requires SysInv(z) && z.a.Open? && z.ba != [] && z.ba[0].pdu.UFrame?
    ensures var y := Becomes(z, Take(z.a.cb, z.ba[0], junk)).(ba := z.ba[1..]); SysInv(y) && y.a.Left?
  {
    var (s, p, h) := (z.a.cb, z.b.Last(), z.ba[0]);
    var e, t := ArrivalEvent(s, h, junk), Take(s, h, junk);
    assert AckOk(s, p, h);
    ArrivalIs(s, p, h, junk);
    DiscParts(s, e.frame, e.data);
    PartingPair(s, p, z.ba, z.ba[1..], z.ab, t);
  }

  lemma FrameAtA(z: Sys, junk: Frame)
    requires SysInv(z) && z.a.Open? && z.ba != [] && Numbered(z.ba[0].pdu)
    ensures var y := Becomes(z, Take(z.a.cb, z.ba[0], junk)).(ba := z.ba[1..]); SysInv(y) && y.a.Open?
  {
    var (s, p, h) := (z.a.cb, z.b.Last(), z.ba[0]);
    var e := ArrivalEvent(s, h, junk);
    assert AckOk(s, p, h);
    DeliverPair(s, p, z.ba, z.ab, junk);
    ArrivalIs(s, p, h, junk);
    AckIsValid(s, p, h, e);
    var k := ActorStep(s, e);
    StaysBye(z, Act(s, e), k);
  }

  lemma DeliverAtA(z: Sys, junk: Frame)
    requires SysInv(z) && z.a.Open? && z.ba != []
    ensures var y := Becomes(z, Take(z.a.cb, z.ba[0], junk)).(ba := z.ba[1..]);
            SysInv(y) && (y.a.Left? <==> z.ba[0].pdu.UFrame?)
  {
    assert AckOk(z.a.cb, z.b.Last(), z.ba[0]);
    if z.ba[0].pdu.UFrame? {
      ByeAtA(z, junk);
    } else {
      FrameAtA(z, junk);
    }
  }

  lemma LoseAtA(z: Sys, i: nat)
    requires SysInv(z)
    ensures SysInv(z.(ab := Without(z.ab, i)))
  {
    LosePair(z.a.Last(), z.b.Last(), z.ba, z.ab, i);
    var w := Without(z.ab, i);
    forall j | 0 <= j < |w| && w[j].pdu.UFrame?
      ensures if w[j].pdu.ftype.DISC? then z.a.Left? else z.a.Left? && z.b.Left?
    {
      WithoutIs(z.ab, i, j);
    }
  }

  lemma StepAtAKeeps(z: Sys, x: Action)
    requires SysInv(z) && NoForgery(z, x)
    ensures SysInv(StepAtA(z, x))
    ensures z.a.Open? ==> (StepAtA(z, x).a.Left? <==> Leaves(z.a.cb, z.ba, x))
    ensures StepAtA(z, x).b == z.b && (z.a.Left? ==> StepAtA(z, x).a == z.a)
  {
    if z.a.Open? {
      match x
      case Local(_, e) => LocalAtA(z, e);
      case Deliver(_, junk) =>
        if z.ba != [] {
          DeliverAtA(z, junk);
        }
      case Lose(_, i) => LoseAtA(z, i);
    } else if x.Lose? {
      LoseAtA(z, x.i);
    }
  }

  lemma SwapKeeps(z: Sys)
    requires SysInv(z)
    ensures SysInv(Swap(z))
  {
    assert Peer(Peer(z.a.Last().conf.mode)) == z.a.Last().conf.mode;
  }

  /**
   * One step of the system, for any action: the numbers stay consistent, and an end leaves exactly
   * when it gives up after N2 retries, is told to disconnect, or receives the DISC of an end that
   * has left.
   */
  lemma SysStepKeeps(z: Sys, x: Action)
    requires SysInv(z) && NoForgery(z, x)
    ensures SysInv(SysStep(z, x))
    ensures Actor(z, x).Open? ==>
              (Actor(SysStep(z, x), x).Left? <==> Leaves(Actor(z, x).cb, Incoming(z, x), x))
  {
    if AtA(x) {
      StepAtAKeeps(z, x);
    } else {
      SwapKeeps(z);
      StepAtAKeeps(Swap(z), x);
      SwapKeeps(StepAtA(Swap(z), x));
    }
  }

  lemma {:induction false} SysRunKeeps(z: Sys, xs: seq<Action>)
    requires SysInv(z) && Each(SysStep, NoForgery, z, xs)
    ensures SysInv(Run(SysStep, z, xs))
  {
    if xs != [] {
      SysRunKeeps(z, xs[..|xs| - 1]);
      SysStepKeeps(Run(SysStep, z, xs[..|xs| - 1]), xs[|xs| - 1]);
    }
  }

  // ---- No false rejects ------------------------------------------------------------------------

  /** An end at the start of a connection. */
  predicate Started(s: Cb) {
    && s.state.Connected? && s.cond == NO_CONDITION && s.vr == 0 && 1 <= s.conf.window < s.M()
    && s.flow == Flow(0, 0, [], [], [], [], []) && s.log.delivered == []
  }

  predicate StartedPair(a: Cb, b: Cb) {
    Started(a) && Started(b) && b.conf.mode == Peer(a.conf.mode)
  }

  function Start(a: Cb, b: Cb): Sys {
    Sys(Open(a), Open(b), [], [])
  }

  lemma StartedInv(a: Cb, b: Cb)
    requires StartedPair(a, b)
    ensures SysInv(Start(a, b))
  {
    assert SenderOk(a) && SenderOk(b);
    assert ReceiverOk(a, b) && ReceiverOk(b, a);
  }

  /** The receiver `s` will find the N(R) of each of these frames between its V(A) and V(S). */
  ghost predicate AllValid(s: Cb, items: seq<Item>) {
    forall i :: 0 <= i < |items| && Numbered(items[i].pdu) ==>
      items[i].pdu.nr < s.M() && ValidNr(s, items[i].pdu.nr)
  }

  lemma BackIsValid(s: Cb, r: Cb, back: seq<Item>)
    requires SenderOk(s) && ReceiverOk(s, r) && BackOk(s, r, back)
    ensures AllValid(s, back)
  {
    forall i | 0 <= i < |back| && Numbered(back[i].pdu)
      ensures back[i].pdu.nr < s.M() && ValidNr(s, back[i].pdu.nr)
    {
      assert AckOk(s, r, back[i]);
      WithinWindow(s);
      GapOfMod(VaAbs(s.flow), back[i].nr - VaAbs(s.flow), s.M());
    }
  }

  /**
   * Over any run of the code as written or repaired, for any requests, expiries, losses and
   * deliveries: every N(R) in transit is acceptable to the end it travels to, even while its V(A)
   * lags after a requeue, and neither end ever enters the frame reject state.
   */
  lemma {:induction false} NoFalseRejects(a: Cb, b: Cb, xs: seq<Action>)
    requires StartedPair(a, b) && Each(SysStep, NoForgery, Start(a, b), xs)
    ensures var z := Run(SysStep, Start(a, b), xs);
            && !z.a.cb.state.FrameReject? && !z.b.cb.state.FrameReject?
            && (z.a.Open? ==> AllValid(z.a.cb, z.ba)) && (z.b.Open? ==> AllValid(z.b.cb, z.ab))
  {
    StartedInv(a, b);
    SysRunKeeps(Start(a, b), xs);
    var z := Run(SysStep, Start(a, b), xs);
    BackIsValid(z.a.Last(), z.b.Last(), z.ba);
    BackIsValid(z.b.Last(), z.a.Last(), z.ab);
  }
}
