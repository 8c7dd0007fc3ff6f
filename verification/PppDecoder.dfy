/**
 * The decoder of octet-stuffed frames, section 4.1 of RFC 1662, as a machine that takes one octet
 * a step, and what one pass over a stream yields.
 */
module PppDecoder {
  import opened Octets
  import opened PppStuffing

  /** struct rfc1662_vars with the part of the destination buffer it governs. */
  datatype State = State(frame: seq<byte>, escape: byte)

  const IDLE := State([], 0)

  datatype Outcome = Silent | Packet(payload: seq<byte>) | Overflow

  datatype Result = Result(state: State, outcome: Outcome)

  function DecodeFlag(st: State): Result {
    if st.escape != 0 then Result(st, Silent)
    else if |st.frame| >= 2 then Result(IDLE, Packet(st.frame[..|st.frame| - 2]))
    else Result(IDLE, Silent)
  }

  function DecodeOctet(dsize: nat, st: State, ch: byte): Result {
    if ch == FLAG then DecodeFlag(st)
    else if ch == ESCAPE then Result(st.(escape := TRANS), Silent)
    else if |st.frame| < dsize then Result(State(st.frame + [ch ^ st.escape], 0), Silent)
    else Result(st.(escape := 0), Overflow)
  }

  /** What the consumer of packets sees of an outcome: empty packets are not passed on. */
  function Queued(o: Outcome): seq<seq<byte>> {
    if o.Packet? && o.payload != [] then [o.payload] else []
  }

  datatype Fed = Fed(state: State, packets: seq<seq<byte>>)

  function Then(first: seq<seq<byte>>, rest: Fed): Fed {
    Fed(rest.state, first + rest.packets)
  }

  /** One pass over a stream; an octet that does not fit is dropped. */
  function Feed(dsize: nat, st: State, src: seq<byte>): Fed
    decreases |src|
  {
    if src == [] then Fed(st, []) else
      var r := DecodeOctet(dsize, st, src[0]);
      Then(Queued(r.outcome), Feed(dsize, r.state, src[1..]))
  }

  lemma ThenThen(p: seq<seq<byte>>, q: seq<seq<byte>>, f: Fed)
    ensures Then(p, Then(q, f)) == Then(p + q, f)
  {
    assert p + (q + f.packets) == (p + q) + f.packets;
  }

  predicate NoOverflow(dsize: nat, st: State, src: seq<byte>)
    decreases |src|
  {
    src == [] ||
    (var r := DecodeOctet(dsize, st, src[0]);
     !r.outcome.Overflow? && NoOverflow(dsize, r.state, src[1..]))
  }

  lemma FeedOne(dsize: nat, st: State, c: byte)
    ensures Feed(dsize, st, [c])
         == Fed(DecodeOctet(dsize, st, c).state, Queued(DecodeOctet(dsize, st, c).outcome))
    ensures NoOverflow(dsize, st, [c]) <==> !DecodeOctet(dsize, st, c).outcome.Overflow?
  {
    assert [c][1..] == [];
  }

  lemma {:induction false} FeedConcat(dsize: nat, st: State, a: seq<byte>, b: seq<byte>)
    ensures Feed(dsize, st, a + b) == Then(Feed(dsize, st, a).packets, Feed(dsize, Feed(dsize, st, a).state, b))
    decreases |a|
  {
    if a == [] {
      assert a + b == b;
    } else {
      var r := DecodeOctet(dsize, st, a[0]);
      var x, y := Feed(dsize, r.state, a[1..]), Feed(dsize, Feed(dsize, r.state, a[1..]).state, b);
      assert (a + b)[1..] == a[1..] + b;
      FeedConcat(dsize, r.state, a[1..], b);
      ThenThen(Queued(r.outcome), x.packets, y);
    }
  }

  lemma {:induction false} NoOverflowConcat(dsize: nat, st: State, a: seq<byte>, b: seq<byte>)
    ensures NoOverflow(dsize, st, a + b)
       <==> NoOverflow(dsize, st, a) && NoOverflow(dsize, Feed(dsize, st, a).state, b)
    decreases |a|
  {
    if a == [] {
      assert a + b == b;
    } else {
      assert (a + b)[1..] == a[1..] + b;
      NoOverflowConcat(dsize, DecodeOctet(dsize, st, a[0]).state, a[1..], b);
    }
  }

  // ---- Round trip ----------------------------------------------------------------------------

  /** A stream takes the decoder from one state to another, yields the packets and overflows nothing. */
  predicate Leads(dsize: nat, st: State, src: seq<byte>, to: State, packets: seq<seq<byte>>) {
    Feed(dsize, st, src) == Fed(to, packets) && NoOverflow(dsize, st, src)
  }

  lemma LeadsOn(dsize: nat, s: State, a: seq<byte>, t: State, p: seq<seq<byte>>,
                b: seq<byte>, u: State, q: seq<seq<byte>>)
    requires Leads(dsize, s, a, t, p) && Leads(dsize, t, b, u, q)
    ensures Leads(dsize, s, a + b, u, p + q)
  {
    FeedConcat(dsize, s, a, b);
    NoOverflowConcat(dsize, s, a, b);
  }

  lemma EscapedDecodes(dsize: nat, frame: seq<byte>, c: byte)
    requires |frame| < dsize
    ensures Leads(dsize, State(frame, 0), Escaped(c), State(frame + [c], 0), [])
  {
    EscapeTurns(c);
    if NeedsEscape(c) {
      var t := c ^ TRANS;
      FeedOne(dsize, State(frame, 0), ESCAPE);
      FeedOne(dsize, State(frame, TRANS), t);
      LeadsOn(dsize, State(frame, 0), [ESCAPE], State(frame, TRANS), [], [t], State(frame + [c], 0), []);
      assert Escaped(c) == [ESCAPE] + [t];
    } else {
      FeedOne(dsize, State(frame, 0), c);
    }
  }

  lemma {:induction false} StuffedDecodes(dsize: nat, s: seq<byte>)
    requires |s| <= dsize
    ensures Leads(dsize, IDLE, Stuffed(s), State(s, 0), [])
  {
    if s != [] {
      var n := |s| - 1;
      StuffedDecodes(dsize, s[..n]);
      EscapedDecodes(dsize, s[..n], s[n]);
      LeadsOn(dsize, IDLE, Stuffed(s[..n]), State(s[..n], 0), [], Escaped(s[n]), State(s[..n] + [s[n]], 0), []);
      assert s[..n] + [s[n]] == s;
    }
  }

  lemma FlagDecodes(dsize: nat, st: State)
    ensures Leads(dsize, st, [FLAG], DecodeFlag(st).state, Queued(DecodeFlag(st).outcome))
  {
    FeedOne(dsize, st, FLAG);
  }

  lemma BodyDecodes(dsize: nat, raw: seq<byte>, trailer: seq<byte>)
    requires |trailer| == 2 && |raw| + 2 <= dsize
    ensures Leads(dsize, IDLE, Stuffed(raw + trailer) + [FLAG], IDLE, Queued(Packet(raw)))
  {
    var body := raw + trailer;
    StuffedDecodes(dsize, body);
    FlagDecodes(dsize, State(body, 0));
    assert body[..|body| - 2] == raw;
    LeadsOn(dsize, IDLE, Stuffed(body), State(body, 0), [], [FLAG], IDLE, Queued(Packet(raw)));
  }

  /**
   * Outside an open escape a frame ends what went before it and yields its data, whatever stands
   * in the place of the frame check sequence: the decoder drops those two octets unread.
   */
  lemma FrameDecodes(dsize: nat, st: State, raw: seq<byte>, trailer: seq<byte>)
    requires st.escape == 0 && |trailer| == 2 && |raw| + 2 <= dsize
    ensures Leads(dsize, st, Frame(raw, trailer), IDLE, Queued(DecodeFlag(st).outcome) + Queued(Packet(raw)))
  {
    FlagDecodes(dsize, st);
    BodyDecodes(dsize, raw, trailer);
    LeadsOn(dsize, st, [FLAG], IDLE, Queued(DecodeFlag(st).outcome),
            Stuffed(raw + trailer) + [FLAG], IDLE, Queued(Packet(raw)));
    assert Frame(raw, trailer) == [FLAG] + (Stuffed(raw + trailer) + [FLAG]);
  }

  // ---- Frames that do not fit ------------------------------------------------------------------

  function Cut(s: seq<byte>, n: nat): seq<byte> {
    if |s| <= n then s else s[..n]
  }

  lemma CutNext(s: seq<byte>, c: byte, n: nat)
    ensures Cut(s + [c], n) == if |s| < n then Cut(s, n) + [c] else Cut(s, n)
    ensures |Cut(s, n)| < n <==> |s| < n
  {
    if |s| >= n {
      assert (s + [c])[..n] == s[..n];
    }
  }

  lemma OctetIsCut(dsize: nat, s: seq<byte>, c: byte, escape: byte)
    requires c != FLAG && c != ESCAPE
    ensures Feed(dsize, State(Cut(s, dsize), escape), [c]) == Fed(State(Cut(s + [c ^ escape], dsize), 0), [])
  {
    FeedOne(dsize, State(Cut(s, dsize), escape), c);
    CutNext(s, c ^ escape, dsize);
  }

  lemma EscapedIsCut(dsize: nat, s: seq<byte>, c: byte)
    ensures Feed(dsize, State(Cut(s, dsize), 0), Escaped(c)) == Fed(State(Cut(s + [c], dsize), 0), [])
  {
    EscapeTurns(c);
    var st := State(Cut(s, dsize), 0);
    if NeedsEscape(c) {
      var t := c ^ TRANS;
      FeedOne(dsize, st, ESCAPE);
      OctetIsCut(dsize, s, t, TRANS);
      FeedConcat(dsize, st, [ESCAPE], [t]);
      assert Escaped(c) == [ESCAPE] + [t];
    } else {
      assert c ^ 0 == c;
      OctetIsCut(dsize, s, c, 0);
    }
  }

  lemma {:induction false} StuffedIsCut(dsize: nat, s: seq<byte>)
    ensures Feed(dsize, IDLE, Stuffed(s)) == Fed(State(Cut(s, dsize), 0), [])
  {
    if s != [] {
      var n := |s| - 1;
      StuffedIsCut(dsize, s[..n]);
      EscapedIsCut(dsize, s[..n], s[n]);
      FeedConcat(dsize, IDLE, Stuffed(s[..n]), Escaped(s[n]));
      assert s[..n] + [s[n]] == s;
    }
  }

  lemma BodyIsCut(dsize: nat, s: seq<byte>)
    ensures Feed(dsize, IDLE, Stuffed(s) + [FLAG]) == Feed(dsize, State(Cut(s, dsize), 0), [FLAG])
  {
    StuffedIsCut(dsize, s);
    FeedConcat(dsize, IDLE, Stuffed(s), [FLAG]);
    ThenNothing(Feed(dsize, State(Cut(s, dsize), 0), [FLAG]));
  }

  lemma ThenNothing(f: Fed)
    ensures Then([], f) == f
  {
  }

  /** What is handed on of a frame with content `s`: what fits, without its last two octets. */
  function Kept(s: seq<byte>, dsize: nat): seq<byte>
    requires |s| >= 2 && dsize >= 2
  {
    Cut(s, dsize)[..|Cut(s, dsize)| - 2]
  }

  /** A frame of any length: one too long for the buffer is not dropped but cut short. */
  lemma FrameIsCut(dsize: nat, st: State, raw: seq<byte>, trailer: seq<byte>)
    requires st.escape == 0 && |trailer| == 2 && dsize >= 2
    ensures Feed(dsize, st, Frame(raw, trailer))
         == Fed(IDLE, Queued(DecodeFlag(st).outcome) + Queued(Packet(Kept(raw + trailer, dsize))))
  {
    var s := raw + trailer;
    BodyIsCut(dsize, s);
    FeedOne(dsize, st, FLAG);
    FeedOne(dsize, State(Cut(s, dsize), 0), FLAG);
    FeedConcat(dsize, st, [FLAG], Stuffed(s) + [FLAG]);
    assert Frame(raw, trailer) == [FLAG] + (Stuffed(s) + [FLAG]);
  }

  function NonEmpty(packets: seq<seq<byte>>): seq<seq<byte>> {
    if packets == [] then [] else Queued(Packet(packets[0])) + NonEmpty(packets[1..])
  }

  /** The frames of a list of packets, with any rule for the two octets of the trailer. */
  function Frames(fcs: seq<byte> -> seq<byte>, packets: seq<seq<byte>>): seq<byte> {
    if packets == [] then [] else Frame(packets[0], fcs(packets[0])) + Frames(fcs, packets[1..])
  }

  ghost predicate AllFit(dsize: nat, fcs: seq<byte> -> seq<byte>, packets: seq<seq<byte>>) {
    forall i :: 0 <= i < |packets| ==> |packets[i]| + 2 <= dsize && |fcs(packets[i])| == 2
  }

  /** Decoding the frames of any list of packets yields the list, without its empty packets. */
  lemma {:induction false} FramesDecode(dsize: nat, fcs: seq<byte> -> seq<byte>, packets: seq<seq<byte>>)
    requires AllFit(dsize, fcs, packets)
    ensures Leads(dsize, IDLE, Frames(fcs, packets), IDLE, NonEmpty(packets))
  {
    if packets != [] {
      var p := packets[0];
      FramesDecode(dsize, fcs, packets[1..]);
      FrameDecodes(dsize, IDLE, p, fcs(p));
      assert Queued(DecodeFlag(IDLE).outcome) + Queued(Packet(p)) == Queued(Packet(p));
      LeadsOn(dsize, IDLE, Frame(p, fcs(p)), IDLE, Queued(Packet(p)),
              Frames(fcs, packets[1..]), IDLE, NonEmpty(packets[1..]));
    }
  }

  lemma NonEmptyFirst(noise: seq<seq<byte>>, packets: seq<seq<byte>>)
    requires packets != []
    ensures (noise + Queued(Packet(packets[0]))) + NonEmpty(packets[1..]) == noise + NonEmpty(packets)
  {
  }

  lemma FramesEndNoise(dsize: nat, st: State, fcs: seq<byte> -> seq<byte>, packets: seq<seq<byte>>)
    requires packets != [] && AllFit(dsize, fcs, packets) && st.escape == 0
    ensures Leads(dsize, st, Frames(fcs, packets), IDLE, Queued(DecodeFlag(st).outcome) + NonEmpty(packets))
  {
    var p := packets[0];
    var q := Queued(DecodeFlag(st).outcome) + Queued(Packet(p));
    FrameDecodes(dsize, st, p, fcs(p));
    FramesDecode(dsize, fcs, packets[1..]);
    LeadsOn(dsize, st, Frame(p, fcs(p)), IDLE, q, Frames(fcs, packets[1..]), IDLE, NonEmpty(packets[1..]));
    NonEmptyFirst(Queued(DecodeFlag(st).outcome), packets);
  }

  /**
   * After any noise that does not end in an open escape, the frames that follow are received in
   * full: their first flag ends the noise, and only the noise.
   */
  lemma {:induction false} Resynchronises(dsize: nat, st: State, noise: seq<byte>,
                                          fcs: seq<byte> -> seq<byte>, packets: seq<seq<byte>>)
    requires packets != [] && AllFit(dsize, fcs, packets)
    requires Feed(dsize, st, noise).state.escape == 0
    ensures Feed(dsize, st, noise + Frames(fcs, packets))
         == Fed(IDLE, Feed(dsize, st, noise + [FLAG]).packets + NonEmpty(packets))
  {
    var s := Feed(dsize, st, noise).state;
    FeedConcat(dsize, st, noise, Frames(fcs, packets));
    FeedConcat(dsize, st, noise, [FLAG]);
    FlagDecodes(dsize, s);
    FramesEndNoise(dsize, s, fcs, packets);
    ThenThen(Feed(dsize, st, noise).packets, Queued(DecodeFlag(s).outcome), Fed(IDLE, NonEmpty(packets)));
  }
}
