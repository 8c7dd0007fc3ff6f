/**
 * A run into the muted state of X75Deadlock with all three repairs in place: window 1, one lost
 * frame, and data that never arrives.
 */
module X75LostReject {
  import opened Runs
  import opened X75Types
  import opened X75Wire
  import opened X75Spec
  import opened X75Outputs
  import opened X75System
  import opened X75Deadlock

  const JUNK := Frame(I, 0, 0, false, Unset, 0, 0)
  const REPAIRED := Repairs(true, true, true)

  /** An end with window 1 at the start of a connection. */
  function Fresh(dce: bool): Cb {
    Cb(Conf(REPAIRED, Mode(false, false, dce), 1, 20), Connected, Flow(0, 0, [], [], [], [], []), 0,
       NO_CONDITION, 0, Timer(false, false, T1Expiry), Timer(false, false, NoHandler), JUNK, 0, Log([], [], [], 0))
  }

  /** `m` unacknowledged, `n` waiting; `sent` went out in the last step. */
  function Sender(m: Msgb, n: Msgb, retries: nat, sent: seq<Pdu>): Cb {
    Fresh(false).(flow := Flow(1, 0, [n], [m], [0], [m, n], []), t1 := T1_STARTED, n2count := retries,
                  log := Log(sent, [], [], 0))
  }

  /** `m` delivered. */
  function Receiver(m: Msgb): Cb {
    Fresh(true).(vr := 1, cond := Conditions(true, false, false), t2 := T2_STARTED, log := Log([], [], [m.data], 0))
  }

  /** The repetition of `m` rejected. */
  function Rejecting(m: Msgb): Cb {
    Receiver(m).(cond := Conditions(false, true, false),
                 log := Log([SFrame(REJ, 1, false, Response)], [], [m.data], 1))
  }

  function First(m: Msgb): Pdu {
    IFrame(0, 0, false, m.data)
  }

  lemma AfterFirst(m: Msgb)
    ensures Act(Fresh(false), DataRequest(m))
         == Fresh(false).(flow := Flow(1, 0, [], [m], [0], [m], []), t1 := T1_STARTED,
                          log := Log([First(m)], [], [], 0))
  {
  }

  lemma AfterSecond(m: Msgb, n: Msgb)
    ensures Act(Act(Fresh(false), DataRequest(m)), DataRequest(n)) == Sender(m, n, 0, [])
  {
    AfterFirst(m);
  }

  lemma AfterExpiry(m: Msgb, n: Msgb)
    ensures Act(Sender(m, n, 0, []), FireT1) == Sender(m, n, 1, [First(m)])
  {
    var q := Requeue(Retry(Sender(m, n, 0, []).(t1 := T1_STARTED.(armed := false))));
    assert q.flow == Flow(1, 0, [m, n], [], [], [m, n], []);
    assert Advanced(q.conf, q.flow) == Flow(1, 0, [n], [m], [0], [m, n], []);
    assert NextBurst(q) == [First(m)];
  }

  lemma Arriving(m: Msgb, s: Cb)
    requires s.conf.mode == Mode(false, false, true)
    ensures var e := ArrivalEvent(s, Item(First(m), 0, 0), JUNK);
            e.Receive? && Carries(e.frame, e.data, First(m)) && Take(s, Item(First(m), 0, 0), JUNK) == Act(s, e)
  {
    RoundTrip(Mode(false, false, false), First(m), JUNK);
  }

  lemma AfterArrival(m: Msgb)
    ensures Take(Fresh(true), Item(First(m), 0, 0), JUNK) == Receiver(m)
  {
    Arriving(m, Fresh(true));
  }

  lemma AfterRepetition(m: Msgb)
    ensures Take(Receiver(m), Item(First(m), 0, 0), JUNK) == Rejecting(m)
  {
    Arriving(m, Receiver(m));
  }

  function Z(a: Cb, b: Cb, ab: seq<Item>, ba: seq<Item>): Sys {
    Sys(Open(a), Open(b), ab, ba)
  }

  function Scenario(m: Msgb, n: Msgb): seq<Action> {
    [Local(true, DataRequest(m))] + [Local(true, DataRequest(n))] + [Deliver(false, JUNK)]
    + [Local(true, FireT1)] + [Deliver(false, JUNK)] + [Lose(false, 0)]
  }

  lemma Requested(m: Msgb, n: Msgb)
    ensures Run(SysStep, Start(Fresh(false), Fresh(true)),
                [Local(true, DataRequest(m))] + [Local(true, DataRequest(n))])
         == Z(Sender(m, n, 0, []), Fresh(true), [Item(First(m), 0, 0)], [])
  {
    AfterFirst(m);
    AfterSecond(m, n);
    var z := Start(Fresh(false), Fresh(true));
    var a1 := Act(Fresh(false), DataRequest(m));
    assert Labelled(a1) == [Item(First(m), 0, 0)] && Labelled(Sender(m, n, 0, [])) == [];
    assert SysStep(z, Local(true, DataRequest(m))) == Z(a1, Fresh(true), Labelled(a1), []);
    RunSnoc(SysStep, z, [], Local(true, DataRequest(m)));
    RunSnoc(SysStep, z, [Local(true, DataRequest(m))], Local(true, DataRequest(n)));
  }

  lemma DeliveryAtB(a: Cb, b: Cb, h: Item, t: Cb)
    requires t == Take(b, h, JUNK) && t.state.Connected?
    ensures SysStep(Z(a, b, [h], []), Deliver(false, JUNK)) == Z(a, t, [], Labelled(t))
  {
  }

  lemma Repeated(m: Msgb, n: Msgb)
    ensures SysStep(Z(Sender(m, n, 0, []), Receiver(m), [], []), Local(true, FireT1))
         == Z(Sender(m, n, 1, [First(m)]), Receiver(m), [Item(First(m), 0, 0)], [])
  {
    AfterExpiry(m, n);
    var t := Sender(m, n, 1, [First(m)]);
    assert Labelled(t) == [Label(t, 0)] == [Item(First(m), 0, 0)];
  }

  lemma Silenced(m: Msgb, n: Msgb)
    ensures Run(SysStep, Start(Fresh(false), Fresh(true)), Scenario(m, n))
         == Z(Sender(m, n, 1, [First(m)]), Rejecting(m), [], [])
  {
    var z := Start(Fresh(false), Fresh(true));
    var x2 := [Local(true, DataRequest(m))] + [Local(true, DataRequest(n))];
    var x3 := x2 + [Deliver(false, JUNK)];
    var x4 := x3 + [Local(true, FireT1)];
    var x5 := x4 + [Deliver(false, JUNK)];
    var h := Item(First(m), 0, 0);
    Requested(m, n);
    AfterArrival(m);
    DeliveryAtB(Sender(m, n, 0, []), Fresh(true), h, Receiver(m));
    RunSnoc(SysStep, z, x2, Deliver(false, JUNK));
    assert Labelled(Receiver(m)) == [];
    Repeated(m, n);
    RunSnoc(SysStep, z, x3, Local(true, FireT1));
    AfterRepetition(m);
    DeliveryAtB(Sender(m, n, 1, [First(m)]), Receiver(m), h, Rejecting(m));
    RunSnoc(SysStep, z, x4, Deliver(false, JUNK));
    assert |Labelled(Rejecting(m))| == 1;
    RunSnoc(SysStep, z, x5, Lose(false, 0));
  }

  /**
   * Two frames are accepted and the first is delivered; before it is acknowledged T1 expires, and
   * the REJ on the repetition is lost. Both ends are open with retries left, and muted.
   */
  lemma LostReject(m: Msgb, n: Msgb)
    ensures var (a, b) := (Fresh(false), Fresh(true)); StartedPair(a, b) && Rested(a) && Rested(b)
    ensures var z := Run(SysStep, Start(Fresh(false), Fresh(true)), Scenario(m, n));
            && BothOpen(z) && RetriesLeft(z) && MutedToB(z)
            && z.a.cb.flow.accepted == [m, n] && z.b.cb.log.delivered == [m.data]
  {
    Silenced(m, n);
  }
}
