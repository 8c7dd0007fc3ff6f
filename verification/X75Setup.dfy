/**
 * Two endpoints set up and release a connection, exchanging the octets of the frames they send:
 * in spite of losses, when both ask at once, when their moduli differ, and when nobody answers.
 */
module X75Setup {
  import opened Octets
  import opened Runs
  import opened X75Types
  import opened X75Wire
  import opened X75Spec
  import opened X75System
  import opened X75GoBackN

  // ---- One end hears the other -------------------------------------------------------------------

  /** `to` receives frame `p` of `from`. */
  function Hear(to: Cb, from: Cb, p: Pdu, junk: Frame): Cb {
    match Decode(to.conf.mode, Encode(from.conf.mode, p), junk)
    case Rejected => Afresh(to)
    case Decoded(f, data) => Act(to, Receive(f, data))
  }

  /** Ends of one link: the same procedure and opposite roles. Their moduli may differ. */
  predicate Linked(a: Cb, b: Cb) {
    a.conf.mode.mlp == b.conf.mode.mlp && a.conf.mode.dce != b.conf.mode.dce
  }

  predicate SameModulus(a: Cb, b: Cb) {
    a.conf.mode.extended == b.conf.mode.extended
  }

  /** Unnumbered frames have one octet of control in either modulus, and are always understood. */
  lemma HearIs(to: Cb, from: Cb, p: Pdu, junk: Frame) returns (f: Frame, data: seq<byte>)
    requires Linked(to, from) && p.UFrame? && IsUnnumbered(p.ftype) && !p.cr.Unset?
    ensures Hear(to, from, p, junk) == Act(to, Receive(f, data)) && f.ftype == p.ftype && f.pf == p.pf && f.cr == p.cr
  {
    var d := Decode(to.conf.mode, Encode(from.conf.mode, p), junk);
    UnnumberedCrosses(to.conf.mode, from.conf.mode, p, junk);
    f, data := d.frame, d.data;
  }

  // ---- The phases of an end ------------------------------------------------------------------------

  /** Disconnected, with nothing queued. */
  predicate Resting(s: Cb) {
    s.state.Disconnected? && s.flow.writeQ == [] && s.flow.ackQ == [] && s.flow.ackNs == []
  }

  function ConnectCommand(mode: Mode): Pdu {
    UFrame(if mode.extended then SABME else SABM, true, Command)
  }

  /** What a connection does not touch: parameters, queues, and everything delivered or told so far. */
  predicate Carried(s: Cb, t: Cb, told: seq<Notice>) {
    && t.conf == s.conf && t.flow == s.flow.(vs := t.flow.vs, va := t.flow.va)
    && t.log.delivered == s.log.delivered && t.log.notices == s.log.notices + told
  }

  /** End `s` has asked for a connection and repeated its command k times. */
  predicate Asking(s: Cb, t: Cb, k: nat) {
    && t.state.AwaitingConnection? && t.n2count == k && t.t1 == T1_STARTED && Carried(s, t, [])
    && t.log.sent == [ConnectCommand(s.conf.mode)]
  }

  /** End `s` has a connection at its very beginning, and last sent `sent`. */
  predicate Begun(s: Cb, t: Cb, told: Notice, sent: seq<Pdu>) {
    && t.state.Connected? && t.flow.vs == t.flow.va == t.vr == 0 && t.cond == NO_CONDITION && t.n2count == 0
    && !t.t1.running && !t.t1.armed && !t.t2.running && !t.t2.armed
    && Carried(s, t, [told]) && t.log.sent == sent
  }

  const UA_FINAL := UFrame(UA, true, Response)

  lemma Asks(s: Cb)
    requires Resting(s)
    ensures Asking(s, Act(s, ConnectRequest), 0)
  {
    assert s.log.notices + [] == s.log.notices;
  }

  lemma AsksAgain(s: Cb, t: Cb, k: nat)
    requires Asking(s, t, k) && k < s.conf.n2
    ensures Asking(s, Act(t, FireT1), k + 1)
  {
  }

  lemma StopsAsking(s: Cb, t: Cb)
    requires Asking(s, t, s.conf.n2)
    ensures var u := Act(t, FireT1);
            && u.state.Disconnected? && !u.t1.running && !u.t1.armed && u.log.sent == []
            && u.log.notices == s.log.notices + [DisconnectIndication(TimedOut)]
  {
  }

  lemma KickOfNothing(t: Cb)
    requires t.flow.writeQ == []
    ensures Kick(t) == t
  {
  }

  lemma AcceptsConnect(s: Cb, a: Cb, p: Pdu, junk: Frame)
    requires Resting(s) && Linked(s, a) && p == ConnectCommand(s.conf.mode)
    ensures Begun(s, Hear(s, a, p, junk), ConnectIndication(Ok), [UA_FINAL])
  {
    var f, data := HearIs(s, a, p, junk);
    AcceptsFrame(Afresh(s), f);
    KickOfNothing(Machine0(Afresh(s), f));
  }

  lemma AcceptsFrame(s: Cb, f: Frame)
    requires Resting(s) && s.log.sent == [] && f.pf && f.ftype == ConnectCommand(s.conf.mode).ftype
    ensures Begun(s, Machine0(s, f), ConnectIndication(Ok), [UA_FINAL])
  {
    var t := Notify(ResetInPlace(SendControl(s, UA, true, Response)), ConnectIndication(Ok));
    assert Machine0(s, f) == t;
    assert t.flow == s.flow.(vs := 0, va := 0);
  }

  /** The connect command comes again: the other end has not heard the UA. */
  lemma AcceptsAgain(s: Cb, t: Cb, a: Cb, p: Pdu, junk: Frame)
    requires Resting(s) && Begun(s, t, ConnectIndication(Ok), [UA_FINAL])
    requires Linked(t, a) && p == ConnectCommand(s.conf.mode)
    ensures Begun(s, Hear(t, a, p, junk), ConnectIndication(Ok), [UA_FINAL])
  {
    var f, data := HearIs(t, a, p, junk);
    AcceptsFrameAgain(s, Afresh(t), f, data);
    KickOfNothing(Machine3(Afresh(t), f, data));
  }

  lemma AcceptsFrameAgain(s: Cb, t: Cb, f: Frame, data: seq<byte>)
    requires Resting(s) && Begun(s, t, ConnectIndication(Ok), [])
    requires f.pf && f.ftype == ConnectCommand(s.conf.mode).ftype
    ensures Begun(s, Machine3(t, f, data), ConnectIndication(Ok), [UA_FINAL])
  {
    var u := Requeue(ResetVariables(SendControl(t, UA, true, Response)));
    assert Machine3(t, f, data) == u;
    assert u.flow == t.flow;
  }

  lemma IsAccepted(s: Cb, t: Cb, b: Cb, k: nat, junk: Frame)
    requires Resting(s) && Asking(s, t, k) && Linked(t, b)
    ensures Begun(s, Hear(t, b, UA_FINAL, junk), ConnectConfirmation(Ok), [])
  {
    var f, data := HearIs(t, b, UA_FINAL, junk);
    var m := Machine(Afresh(t), f, data);
    assert m.flow == t.flow.(vs := 0, va := 0);
    KickOfNothing(m);
  }

  // ---- Attempts ------------------------------------------------------------------------------------

  datatype Two = Two(a: Cb, b: Cb)

  /** What becomes of the command of end `a` before T1 expires there: it is lost, or its answer is. */
  datatype Fate = CommandLost | AnswerLost(junk: Frame)

  function Attempt(z: Two, fate: Fate): Two {
    if z.a.log.sent == [] then z
    else Two(Act(z.a, FireT1), if fate.AnswerLost? then Hear(z.b, z.a, z.a.log.sent[0], fate.junk) else z.b)
  }

  /** At last the command arrives, and so does the answer. */
  function Completed(z: Two, junk: Frame): Two {
    if z.a.log.sent == [] then z else
      var b := Hear(z.b, z.a, z.a.log.sent[0], junk);
      Two(if b.log.sent == [] then z.a else Hear(z.a, b, b.log.sent[0], junk), b)
  }

  /** The requester's k-th attempt; the other end has not heard of it, or already has a connection. */
  predicate Trying(a: Cb, b: Cb, z: Two, k: nat) {
    && Resting(a) && Resting(b) && Linked(a, b) && SameModulus(a, b)
    && Asking(a, z.a, k) && (z.b == b || Begun(b, z.b, ConnectIndication(Ok), [UA_FINAL]))
  }

  lemma CommandHeard(a: Cb, b: Cb, z: Two, k: nat, junk: Frame)
    requires Trying(a, b, z, k)
    ensures Begun(b, Hear(z.b, z.a, z.a.log.sent[0], junk), ConnectIndication(Ok), [UA_FINAL])
  {
    if z.b == b {
      AcceptsConnect(b, z.a, z.a.log.sent[0], junk);
    } else {
      AcceptsAgain(b, z.b, z.a, z.a.log.sent[0], junk);
    }
  }

  lemma {:induction false} KeepsTrying(a: Cb, b: Cb, fates: seq<Fate>)
    requires Resting(a) && Resting(b) && Linked(a, b) && SameModulus(a, b) && |fates| <= a.conf.n2
    ensures Trying(a, b, Run(Attempt, Two(Act(a, ConnectRequest), b), fates), |fates|)
  {
    if fates == [] {
      Asks(a);
    } else {
      var n := |fates| - 1;
      var z := Run(Attempt, Two(Act(a, ConnectRequest), b), fates[..n]);
      KeepsTrying(a, b, fates[..n]);
      AsksAgain(a, z.a, n);
      if fates[n].AnswerLost? {
        CommandHeard(a, b, z, n, fates[n].junk);
      }
    }
  }

  /**
   * A connect request succeeds in spite of up to N2 losses of the command or of its answer: both
   * ends are connected with all variables zero and their queues as they were, the one has been told
   * of the confirmation and the other, once only, of the connection.
   */
  lemma {:induction false} SetUpDespiteLosses(a: Cb, b: Cb, fates: seq<Fate>, junk: Frame)
    requires Resting(a) && Resting(b) && Linked(a, b) && SameModulus(a, b) && |fates| <= a.conf.n2
    ensures var z := Completed(Run(Attempt, Two(Act(a, ConnectRequest), b), fates), junk);
            && Begun(a, z.a, ConnectConfirmation(Ok), []) && Begun(b, z.b, ConnectIndication(Ok), [UA_FINAL])
  {
    var z := Run(Attempt, Two(Act(a, ConnectRequest), b), fates);
    KeepsTrying(a, b, fates);
    CommandHeard(a, b, z, |fates|, junk);
    IsAccepted(a, z.a, Hear(z.b, z.a, z.a.log.sent[0], junk), |fates|, junk);
  }

  /** One loss more and the request fails with a timeout. */
  lemma {:induction false} SetUpTimesOut(a: Cb, b: Cb, fates: seq<Fate>)
    requires Resting(a) && Resting(b) && Linked(a, b) && SameModulus(a, b) && |fates| == a.conf.n2 + 1
    ensures var z := Run(Attempt, Two(Act(a, ConnectRequest), b), fates);
            z.a.state.Disconnected? && z.a.log.notices == a.log.notices + [DisconnectIndication(TimedOut)]
  {
    var z := Run(Attempt, Two(Act(a, ConnectRequest), b), fates[..a.conf.n2]);
    KeepsTrying(a, b, fates[..a.conf.n2]);
    StopsAsking(a, z.a);
  }

  /** An end that has never had a connection or data. */
  predicate Unused(s: Cb) {
    && Resting(s) && 1 <= s.conf.window < s.M() && s.flow.accepted == [] && s.flow.released == []
    && s.log.delivered == []
  }

  /** From there on everything proved of a started pair applies, go-back-N safety among it. */
  lemma {:induction false} SetUpThenGoBackN(a: Cb, b: Cb, fates: seq<Fate>, junk: Frame, xs: seq<Action>)
    requires Unused(a) && Unused(b) && Linked(a, b) && SameModulus(a, b) && |fates| <= a.conf.n2
    ensures var z := Completed(Run(Attempt, Two(Act(a, ConnectRequest), b), fates), junk);
            && StartedPair(z.a, z.b)
            && (Each(SysStep, Admissible, Start(z.a, z.b), xs) && Each(SysStep, InOrder, Start(z.a, z.b), xs)
                ==> BothPrefixes(Run(SysStep, Start(z.a, z.b), xs)))
  {
    var z := Completed(Run(Attempt, Two(Act(a, ConnectRequest), b), fates), junk);
    SetUpDespiteLosses(a, b, fates, junk);
    if Each(SysStep, Admissible, Start(z.a, z.b), xs) && Each(SysStep, InOrder, Start(z.a, z.b), xs) {
      GoBackN(z.a, z.b, xs);
    }
  }

  // ---- Both ask at once, and ends that do not fit -----------------------------------------------------

  /** Both ends have asked, and each hears the other's command before any answer. */
  lemma AnswersWhileAsking(s: Cb, t: Cb, k: nat, a: Cb, p: Pdu, junk: Frame)
    requires Resting(s) && Asking(s, t, k) && Linked(t, a) && p == ConnectCommand(s.conf.mode)
    ensures var u := Hear(t, a, p, junk);
            Asking(s, u.(log := u.log.(sent := t.log.sent)), k) && u.log.sent == [UA_FINAL]
  {
    var f, data := HearIs(t, a, p, junk);
    var u := SendControl(Afresh(t), UA, true, Response);
    assert Machine1(Afresh(t), f) == u;
    KickOfNothing(u);
  }

  /** Both ends have asked: each answers the other's command, and the answers connect both. */
  lemma Collision(a: Cb, b: Cb, junk: Frame)
    requires Resting(a) && Resting(b) && Linked(a, b) && SameModulus(a, b)
    ensures var (a1, b1) := (Act(a, ConnectRequest), Act(b, ConnectRequest));
            && a1.log.sent == [ConnectCommand(a.conf.mode)] == b1.log.sent
            && var (a2, b2) := (Hear(a1, b1, b1.log.sent[0], junk), Hear(b1, a1, a1.log.sent[0], junk));
               && a2.log.sent == [UA_FINAL] == b2.log.sent
               && Begun(a, Hear(a2, b2, b2.log.sent[0], junk), ConnectConfirmation(Ok), [])
               && Begun(b, Hear(b2, a2, a2.log.sent[0], junk), ConnectConfirmation(Ok), [])
  {
    var (a1, b1) := (Act(a, ConnectRequest), Act(b, ConnectRequest));
    Asks(a);
    Asks(b);
    var (a2, b2) := (Hear(a1, b1, b1.log.sent[0], junk), Hear(b1, a1, a1.log.sent[0], junk));
    AnswersWhileAsking(a, a1, 0, b1, b1.log.sent[0], junk);
    AnswersWhileAsking(b, b1, 0, a1, a1.log.sent[0], junk);
    AfterCollision(a, a1, a2, b2, junk);
    AfterCollision(b, b1, b2, a2, junk);
  }

  lemma AfterCollision(s: Cb, t: Cb, u: Cb, p: Cb, junk: Frame)
    requires Resting(s) && Asking(s, u.(log := u.log.(sent := t.log.sent)), 0) && Linked(u, p)
    ensures Begun(s, Hear(u, p, UA_FINAL, junk), ConnectConfirmation(Ok), [])
  {
    var v := u.(log := u.log.(sent := t.log.sent));
    IsAccepted(s, v, p, 0, junk);
    assert Afresh(u) == Afresh(v);
  }

  const DM_FINAL := UFrame(DM, true, Response)

  /** An end of the other modulus refuses: the requester is told so, and neither is connected. */
  lemma MismatchRefused(a: Cb, b: Cb, junk: Frame)
    requires Resting(a) && Resting(b) && Linked(a, b) && !SameModulus(a, b)
    ensures var z := Completed(Two(Act(a, ConnectRequest), b), junk);
            && z.a.state.Disconnected? && z.a.log.notices == a.log.notices + [DisconnectIndication(Refused)]
            && z.b == Afresh(b).(log := z.b.log) && z.b.log.notices == b.log.notices && z.b.log.sent == [DM_FINAL]
  {
    var a1 := Act(a, ConnectRequest);
    Asks(a);
    Refuses(b, a1, junk);
    IsRefused(a, a1, Hear(b, a1, a1.log.sent[0], junk), junk);
  }

  lemma Refuses(s: Cb, a: Cb, junk: Frame)
    requires Resting(s) && Linked(s, a) && !SameModulus(s, a)
    ensures var t := Hear(s, a, ConnectCommand(a.conf.mode), junk);
            t == Afresh(s).(log := t.log) && t.log.notices == s.log.notices && t.log.sent == [DM_FINAL]
  {
    var f, data := HearIs(s, a, ConnectCommand(a.conf.mode), junk);
    KickOfNothing(Machine(Afresh(s), f, data));
  }

  lemma IsRefused(s: Cb, t: Cb, b: Cb, junk: Frame)
    requires Resting(s) && Asking(s, t, 0) && Linked(t, b)
    ensures var u := Hear(t, b, DM_FINAL, junk);
            u.state.Disconnected? && u.log.notices == s.log.notices + [DisconnectIndication(Refused)]
  {
    var f, data := HearIs(t, b, DM_FINAL, junk);
    KickOfNothing(Machine(Afresh(t), f, data));
  }

  // ---- Release -----------------------------------------------------------------------------------------

  const DISC_POLL := UFrame(DISC, true, Command)

  /** End `s` has been told to disconnect and has repeated its DISC k times. */
  predicate Releasing(s: Cb, t: Cb, k: nat) {
    && t.state.AwaitingRelease? && t.n2count == k && t.t1 == T1_STARTED && t.conf == s.conf
    && t.flow == Cleared(s.flow) && t.log.notices == s.log.notices && t.log.sent == [DISC_POLL]
  }

  /** The connection of end `s` is over, its queues are dropped, and its user has been told why. */
  predicate Over(s: Cb, t: Cb, told: Notice, sent: seq<Pdu>) {
    && t.state.Disconnected? && t.conf == s.conf && t.flow == Cleared(s.flow)
    && t.log.notices == s.log.notices + [told] && t.log.sent == sent
  }

  lemma StartsRelease(s: Cb)
    requires s.state.Connected?
    ensures Releasing(s, Act(s, DisconnectRequest), 0)
  {
  }

  lemma ReleasesAgain(s: Cb, t: Cb, k: nat)
    requires Releasing(s, t, k) && k < s.conf.n2
    ensures Releasing(s, Act(t, FireT1), k + 1)
  {
  }

  lemma HearsDisc(s: Cb, a: Cb, junk: Frame)
    requires s.state.Connected? && Linked(s, a)
    ensures Over(s, Hear(s, a, DISC_POLL, junk), DisconnectIndication(Ok), [UA_FINAL])
  {
    var f, data := HearIs(s, a, DISC_POLL, junk);
    DiscParts(s, f, data);
    DiscEnds(Afresh(s), f, data);
  }

  lemma DiscEnds(s: Cb, f: Frame, data: seq<byte>)
    requires s.state.Connected? && f.ftype.DISC? && s.log.sent == []
    ensures var t := DataInput(s, f, data);
            && t.state.Disconnected? && t.conf == s.conf && t.flow == Cleared(s.flow)
            && t.log.notices == s.log.notices + [DisconnectIndication(Ok)]
  {
    var m := GoDisconnected(SendControl(ClearQueues(s), UA, f.pf, Response), DisconnectIndication(Ok));
    assert Machine3(s, f, data) == m;
    KickOfNothing(m);
  }

  lemma HearsDiscAgain(s: Cb, t: Cb, a: Cb, junk: Frame)
    requires Over(s, t, DisconnectIndication(Ok), [UA_FINAL]) && Linked(t, a)
    ensures Over(s, Hear(t, a, DISC_POLL, junk), DisconnectIndication(Ok), [UA_FINAL])
  {
    var f, data := HearIs(t, a, DISC_POLL, junk);
    KickOfNothing(Machine(Afresh(t), f, data));
  }

  lemma IsReleased(s: Cb, t: Cb, b: Cb, k: nat, junk: Frame)
    requires Releasing(s, t, k) && Linked(t, b)
    ensures Over(s, Hear(t, b, UA_FINAL, junk), DisconnectConfirmation(Ok), [])
  {
    var f, data := HearIs(t, b, UA_FINAL, junk);
    KickOfNothing(Machine(Afresh(t), f, data));
  }

  predicate Leaving(a: Cb, b: Cb, z: Two, k: nat) {
    && a.state.Connected? && b.state.Connected? && Linked(a, b)
    && Releasing(a, z.a, k) && (z.b == b || Over(b, z.b, DisconnectIndication(Ok), [UA_FINAL]))
  }

  lemma DiscHeard(a: Cb, b: Cb, z: Two, k: nat, junk: Frame)
    requires Leaving(a, b, z, k)
    ensures Over(b, Hear(z.b, z.a, z.a.log.sent[0], junk), DisconnectIndication(Ok), [UA_FINAL])
  {
    if z.b == b {
      HearsDisc(b, z.a, junk);
    } else {
      HearsDiscAgain(b, z.b, z.a, junk);
    }
  }

  lemma {:induction false} KeepsReleasing(a: Cb, b: Cb, fates: seq<Fate>)
    requires a.state.Connected? && b.state.Connected? && Linked(a, b) && |fates| <= a.conf.n2
    ensures Leaving(a, b, Run(Attempt, Two(Act(a, DisconnectRequest), b), fates), |fates|)
  {
    if fates == [] {
      StartsRelease(a);
    } else {
      var n := |fates| - 1;
      var z := Run(Attempt, Two(Act(a, DisconnectRequest), b), fates[..n]);
      KeepsReleasing(a, b, fates[..n]);
      ReleasesAgain(a, z.a, n);
      if fates[n].AnswerLost? {
        DiscHeard(a, b, z, n, fates[n].junk);
      }
    }
  }

  /**
   * A disconnect request ends a connection at both ends in spite of up to N2 losses: all queues
   * are dropped, the one end is told of the confirmation and the other, once only, of the end.
   */
  lemma {:induction false} ReleaseDespiteLosses(a: Cb, b: Cb, fates: seq<Fate>, junk: Frame)
    requires a.state.Connected? && b.state.Connected? && Linked(a, b) && |fates| <= a.conf.n2
    ensures var z := Completed(Run(Attempt, Two(Act(a, DisconnectRequest), b), fates), junk);
            && Over(a, z.a, DisconnectConfirmation(Ok), []) && Over(b, z.b, DisconnectIndication(Ok), [UA_FINAL])
  {
    var z := Run(Attempt, Two(Act(a, DisconnectRequest), b), fates);
    KeepsReleasing(a, b, fates);
    DiscHeard(a, b, z, |fates|, junk);
    IsReleased(a, z.a, Hear(z.b, z.a, z.a.log.sent[0], junk), |fates|, junk);
  }
}
