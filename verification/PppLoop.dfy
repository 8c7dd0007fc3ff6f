/**
 * The read loop of src/ppp/pppd.c as a function: the decoder stops at every packet, and the loop
 * starts it again at the octet where it stopped, so that closing flags are read twice.
 */
module PppLoop {
  import opened Octets
  import opened PppDecoder
  import opened PppStuffing

  // ---- One call of the decoder ---------------------------------------------------------------

  /** Where a call of the decoder stopped, and why. */
  datatype Stop = Stop(state: State, outcome: Outcome, at: nat)

  function Scan(dsize: nat, st: State, src: seq<byte>, i: nat): (r: Stop)
    requires i < |src|
    ensures i <= r.at < |src|
    decreases |src| - i
  {
    var r := DecodeOctet(dsize, st, src[i]);
    if r.outcome == Silent && i + 1 < |src| then Scan(dsize, r.state, src, i + 1)
    else Stop(r.state, r.outcome, i)
  }

  /** Only the end of the input, a flag or an overflow stops a call. */
  lemma {:induction false} ScanStops(dsize: nat, st: State, src: seq<byte>, i: nat)
    requires i < |src|
    ensures var r := Scan(dsize, st, src, i);
            && (r.outcome.Silent? ==> r.at == |src| - 1)
            && (r.outcome.Packet? ==> src[r.at] == FLAG && r.state == IDLE)
            && (r.outcome.Overflow? ==> src[r.at] != FLAG && src[r.at] != ESCAPE && |r.state.frame| >= dsize)
    decreases |src| - i
  {
    if DecodeOctet(dsize, st, src[i]).outcome == Silent && i + 1 < |src| {
      ScanStops(dsize, DecodeOctet(dsize, st, src[i]).state, src, i + 1);
    }
  }

  /** A call hands over what one pass yields up to where it stopped. */
  lemma {:induction false} ScanFeeds(dsize: nat, st: State, src: seq<byte>, i: nat)
    requires i < |src|
    ensures var r := Scan(dsize, st, src, i);
            Feed(dsize, st, src[i..]) == Then(Queued(r.outcome), Feed(dsize, r.state, src[r.at + 1..]))
    decreases |src| - i
  {
    assert src[i..][1..] == src[i + 1..];
    if DecodeOctet(dsize, st, src[i]).outcome == Silent && i + 1 < |src| {
      ScanFeeds(dsize, DecodeOctet(dsize, st, src[i]).state, src, i + 1);
    }
  }

  lemma {:induction false} ScanFits(dsize: nat, st: State, src: seq<byte>, i: nat)
    requires i < |src|
    ensures var r := Scan(dsize, st, src, i);
            NoOverflow(dsize, st, src[i..|src| - 1]) <==>
            r.at == |src| - 1 || (!r.outcome.Overflow? && NoOverflow(dsize, r.state, src[r.at + 1..|src| - 1]))
    decreases |src| - i
  {
    if i + 1 < |src| {
      assert src[i..|src| - 1][1..] == src[i + 1..|src| - 1];
      if DecodeOctet(dsize, st, src[i]).outcome == Silent {
        ScanFits(dsize, DecodeOctet(dsize, st, src[i]).state, src, i + 1);
      }
    }
  }

  lemma {:induction false} ScanShifts(dsize: nat, st: State, src: seq<byte>, k: nat, i: nat)
    requires k + i < |src|
    ensures var (r, q) := (Scan(dsize, st, src, k + i), Scan(dsize, st, src[k..], i));
            r == q.(at := k + q.at)
    decreases |src| - i
  {
    if DecodeOctet(dsize, st, src[k + i]).outcome == Silent && k + i + 1 < |src| {
      ScanShifts(dsize, DecodeOctet(dsize, st, src[k + i]).state, src, k, i + 1);
    }
  }

  // ---- The loop ------------------------------------------------------------------------------

  /** The decoder, bytes_read and the packets handed on, at the head of the loop. */
  datatype Loop = Loop(state: State, read: nat, queued: seq<seq<byte>>)

  function Turn(dsize: nat, chunk: seq<byte>, l: Loop): (next: Loop)
    requires l.read < |chunk|
    ensures next.read < |chunk|
  {
    var r := Scan(dsize, l.state, chunk, l.read);
    Loop(r.state, r.at, l.queued + Queued(r.outcome))
  }

  predicate Ended(chunk: seq<byte>, l: Loop) {
    l.read + 1 == |chunk|
  }

  function Turns(dsize: nat, chunk: seq<byte>, l: Loop, n: nat): (end: Loop)
    requires l.read < |chunk|
    ensures end.read < |chunk|
    decreases n
  {
    if n == 0 || Ended(chunk, l) then l else Turns(dsize, chunk, Turn(dsize, chunk, l), n - 1)
  }

  /** An octet already read as a closing flag changes nothing when it is read again. */
  lemma FlagAgain(dsize: nat, chunk: seq<byte>, k: nat, end: nat)
    requires k < end <= |chunk| && chunk[k] == FLAG
    ensures Feed(dsize, IDLE, chunk[k..end]) == Feed(dsize, IDLE, chunk[k + 1..end])
    ensures NoOverflow(dsize, IDLE, chunk[k..end]) <==> NoOverflow(dsize, IDLE, chunk[k + 1..end])
  {
    assert chunk[k..end][1..] == chunk[k + 1..end];
  }

  /** What is still to come makes up the given whole, and nothing of it hangs the loop. */
  ghost predicate Ahead(dsize: nat, chunk: seq<byte>, whole: Fed, l: Loop)
    requires l.read < |chunk|
  {
    if Ended(chunk, l) then Fed(l.state, l.queued) == whole
    else
      && Then(l.queued, Feed(dsize, l.state, chunk[l.read..])) == whole
      && NoOverflow(dsize, l.state, chunk[l.read..|chunk| - 1])
  }

  /** Octets to come; an idle decoder at a flag has dealt with it. */
  function Distance(chunk: seq<byte>, l: Loop): nat
    requires l.read < |chunk|
  {
    2 * (|chunk| - l.read) + if l.state == IDLE && chunk[l.read] == FLAG then 0 else 1
  }

  lemma TurnLeaves(dsize: nat, chunk: seq<byte>, whole: Fed, l: Loop)
    requires l.read < |chunk| && !Ended(chunk, l) && Ahead(dsize, chunk, whole, l)
    ensures var r := Scan(dsize, l.state, chunk, l.read);
            whole == Then(l.queued + Queued(r.outcome), Feed(dsize, r.state, chunk[r.at + 1..]))
  {
    var r := Scan(dsize, l.state, chunk, l.read);
    ScanFeeds(dsize, l.state, chunk, l.read);
    ThenThen(l.queued, Queued(r.outcome), Feed(dsize, r.state, chunk[r.at + 1..]));
  }

  lemma AheadAtFlag(dsize: nat, chunk: seq<byte>, whole: Fed, k: nat, q: seq<seq<byte>>)
    requires k + 1 < |chunk| && chunk[k] == FLAG
    requires whole == Then(q, Feed(dsize, IDLE, chunk[k + 1..])) && NoOverflow(dsize, IDLE, chunk[k + 1..|chunk| - 1])
    ensures Ahead(dsize, chunk, whole, Loop(IDLE, k, q))
  {
    FlagAgain(dsize, chunk, k, |chunk|);
    FlagAgain(dsize, chunk, k, |chunk| - 1);
    assert chunk[k..] == chunk[k..|chunk|] && chunk[k + 1..] == chunk[k + 1..|chunk|];
  }

  lemma AheadAtEnd(dsize: nat, chunk: seq<byte>, whole: Fed, l: Loop)
    requires Ended(chunk, l) && whole == Then(l.queued, Feed(dsize, l.state, chunk[l.read + 1..]))
    ensures Ahead(dsize, chunk, whole, l)
  {
    assert chunk[l.read + 1..] == [];
  }

  lemma TurnKeeps(dsize: nat, chunk: seq<byte>, whole: Fed, l: Loop)
    requires l.read < |chunk| && !Ended(chunk, l) && Ahead(dsize, chunk, whole, l)
    ensures Ahead(dsize, chunk, whole, Turn(dsize, chunk, l))
  {
    var r := Scan(dsize, l.state, chunk, l.read);
    TurnLeaves(dsize, chunk, whole, l);
    if r.at + 1 < |chunk| {
      ScanStops(dsize, l.state, chunk, l.read);
      ScanFits(dsize, l.state, chunk, l.read);
      AheadAtFlag(dsize, chunk, whole, r.at, l.queued + Queued(r.outcome));
    } else {
      AheadAtEnd(dsize, chunk, whole, Turn(dsize, chunk, l));
    }
  }

  lemma TurnAdvances(dsize: nat, chunk: seq<byte>, l: Loop)
    requires l.read < |chunk| && !Ended(chunk, l) && NoOverflow(dsize, l.state, chunk[l.read..|chunk| - 1])
    ensures Distance(chunk, Turn(dsize, chunk, l)) < Distance(chunk, l)
  {
    ScanStops(dsize, l.state, chunk, l.read);
    ScanFits(dsize, l.state, chunk, l.read);
  }

  lemma {:induction false} TurnsEnd(dsize: nat, chunk: seq<byte>, whole: Fed, l: Loop, n: nat)
    requires l.read < |chunk| && Ahead(dsize, chunk, whole, l) && Distance(chunk, l) <= n
    ensures Ended(chunk, Turns(dsize, chunk, l, n))
    ensures Ahead(dsize, chunk, whole, Turns(dsize, chunk, l, n))
    decreases n
  {
    if !Ended(chunk, l) {
      TurnKeeps(dsize, chunk, whole, l);
      TurnAdvances(dsize, chunk, l);
      TurnsEnd(dsize, chunk, whole, Turn(dsize, chunk, l), n - 1);
    }
  }

  /** Once an octet before the last has nowhere to go, the loop turns for ever. */
  lemma {:induction false} TurnsHang(dsize: nat, chunk: seq<byte>, l: Loop, n: nat)
    requires l.read < |chunk| && !NoOverflow(dsize, l.state, chunk[l.read..|chunk| - 1])
    ensures !Ended(chunk, Turns(dsize, chunk, l, n))
    decreases n
  {
    if n != 0 {
      var r := Scan(dsize, l.state, chunk, l.read);
      ScanStops(dsize, l.state, chunk, l.read);
      ScanFits(dsize, l.state, chunk, l.read);
      if r.outcome.Packet? {
        FlagAgain(dsize, chunk, r.at, |chunk| - 1);
      }
      TurnsHang(dsize, chunk, Turn(dsize, chunk, l), n - 1);
    }
  }

  // ---- What a read yields --------------------------------------------------------------------

  /** What a read makes of the decoder; a read of one octet never enters the loop. */
  function Read(dsize: nat, st: State, chunk: seq<byte>): Fed {
    if |chunk| <= 1 then Fed(st, []) else Feed(dsize, st, chunk)
  }

  /**
   * The loop over one read ends exactly when every octet but the last finds room, and then it has
   * done what one pass over the read does.
   */
  lemma LoopEndsExactly(dsize: nat, st: State, chunk: seq<byte>)
    requires chunk != []
    ensures (exists n: nat :: Ended(chunk, Turns(dsize, chunk, Loop(st, 0, []), n)))
       <==> NoOverflow(dsize, st, chunk[..|chunk| - 1])
  {
    var start := Loop(st, 0, []);
    if NoOverflow(dsize, st, chunk[..|chunk| - 1]) {
      LoopReads(dsize, st, chunk);
    } else {
      assert chunk[0..|chunk| - 1] == chunk[..|chunk| - 1];
      forall n: nat
        ensures !Ended(chunk, Turns(dsize, chunk, start, n))
      {
        TurnsHang(dsize, chunk, start, n);
      }
    }
  }

  lemma LoopReads(dsize: nat, st: State, chunk: seq<byte>)
    requires chunk != [] && NoOverflow(dsize, st, chunk[..|chunk| - 1])
    ensures var end := Turns(dsize, chunk, Loop(st, 0, []), 2 * |chunk| + 1);
            Ended(chunk, end) && Fed(end.state, end.queued) == Read(dsize, st, chunk)
  {
    assert chunk[0..] == chunk && chunk[0..|chunk| - 1] == chunk[..|chunk| - 1];
    TurnsEnd(dsize, chunk, Read(dsize, st, chunk), Loop(st, 0, []), 2 * |chunk| + 1);
  }

  /** A read of one octet goes unnoticed exactly when the octet would have changed nothing. */
  lemma LoneOctetHarmlessExactly(dsize: nat, st: State, c: byte)
    requires st.escape == 0 || st.escape == TRANS
    ensures Read(dsize, st, [c]) == Feed(dsize, st, [c]) <==>
            || (c == FLAG && (st.escape == TRANS || st.frame == []))
            || (c == ESCAPE && st.escape == TRANS)
            || (c != FLAG && c != ESCAPE && st.escape == 0 && |st.frame| >= dsize)
  {
    FeedOne(dsize, st, c);
  }

  // ---- Streams -------------------------------------------------------------------------------

  function Joined(chunks: seq<seq<byte>>): seq<byte> {
    if chunks == [] then [] else chunks[0] + Joined(chunks[1..])
  }

  /** The decoder over a sequence of reads. */
  function ReadAll(dsize: nat, st: State, chunks: seq<seq<byte>>): Fed
    decreases |chunks|
  {
    if chunks == [] then Fed(st, []) else
      var r := Read(dsize, st, chunks[0]);
      Then(r.packets, ReadAll(dsize, r.state, chunks[1..]))
  }

  ghost predicate AllEnd(dsize: nat, st: State, chunks: seq<seq<byte>>)
    decreases |chunks|
  {
    chunks == [] ||
    (&& chunks[0] != []
     && (exists n: nat :: Ended(chunks[0], Turns(dsize, chunks[0], Loop(st, 0, []), n)))
     && AllEnd(dsize, Read(dsize, st, chunks[0]).state, chunks[1..]))
  }

  /** However a stream is cut into reads of two octets or more, its packets are those of one pass. */
  lemma {:induction false} ChunkIndependent(dsize: nat, st: State, chunks: seq<seq<byte>>)
    requires forall i :: 0 <= i < |chunks| ==> |chunks[i]| >= 2
    requires NoOverflow(dsize, st, Joined(chunks))
    ensures AllEnd(dsize, st, chunks)
    ensures ReadAll(dsize, st, chunks) == Feed(dsize, st, Joined(chunks))
    decreases |chunks|
  {
    if chunks != [] {
      var c := chunks[0];
      FeedConcat(dsize, st, c, Joined(chunks[1..]));
      NoOverflowConcat(dsize, st, c, Joined(chunks[1..]));
      NoOverflowConcat(dsize, st, c[..|c| - 1], c[|c| - 1..]);
      assert c == c[..|c| - 1] + c[|c| - 1..];
      LoopEndsExactly(dsize, st, c);
      ChunkIndependent(dsize, Feed(dsize, st, c).state, chunks[1..]);
    }
  }
}
