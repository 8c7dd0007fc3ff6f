/** The decoder object of src/ppp/pppd.c and its read loop, updating their state in place. */
module PppDriver {
  import opened Octets
  import opened PppDecoder
  import opened PppFraming
  import opened PppLoop
  import opened PppStuffing

  const EINVAL := 22

  function ReturnValue(o: Outcome): int {
    match o
    case Silent => 0
    case Packet(payload) => |payload|
    case Overflow => -EINVAL
  }

  class Deframer {
    var deframedBytes: nat
    var escape: byte
    const dst: array<byte>
    /** The packets handed to queue_packet so far. */
    var queued: seq<seq<byte>>

    ghost predicate Valid()
      reads this
    {
      deframedBytes <= dst.Length
    }

    ghost function View(): State
      requires Valid()
      reads this, dst
    {
      State(dst[..deframedBytes], escape)
    }

    constructor (dsize: nat)
      ensures Valid() && View() == IDLE && queued == [] && dst.Length == dsize && fresh(dst)
    {
      deframedBytes, escape, queued := 0, 0, [];
      dst := new byte[dsize];
    }

    /** The octet cases of pppd_rfc1662_decode; done tells that the call returns here. */
    method TakeOctet(octet: byte) returns (done: bool, rv: int)
      requires Valid()
      modifies this`deframedBytes, this`escape, dst
      ensures Valid()
      ensures View() == DecodeOctet(dst.Length, old(View()), octet).state
      ensures var o := DecodeOctet(dst.Length, old(View()), octet).outcome;
              && done == !o.Silent? && rv == ReturnValue(o)
              && (o.Packet? ==> rv <= dst.Length && dst[..rv] == o.payload)
    {
      done, rv := false, 0;
      var ch := octet;
      if ch == FLAG {
        if escape != 0 {
          return;
        }
        if deframedBytes >= 2 {
          deframedBytes := deframedBytes - 2;
        } else if deframedBytes == 1 {
          deframedBytes := deframedBytes - 1;
          return;
        } else {
          return;
        }
        rv := deframedBytes;
        deframedBytes := 0;
        escape := 0;
        done := true;
      } else if ch == ESCAPE {
        escape := TRANS;
      } else {
        ch := ch ^ escape;
        escape := 0;
        if deframedBytes < dst.Length {
          dst[deframedBytes] := ch;
          deframedBytes := deframedBytes + 1;
          return;
        }
        done, rv := true, -EINVAL;
      }
    }

    /** pppd_rfc1662_decode; previous is what *count held before the call. */
    method Decode(src: seq<byte>, previous: nat) returns (rv: int, count: nat)
      requires Valid()
      modifies this`deframedBytes, this`escape, dst
      ensures Valid()
      ensures src == [] ==> rv == 0 && count == previous && View() == old(View())
      ensures src != [] ==>
                var r := Scan(dst.Length, old(View()), src, 0);
                && View() == r.state && count == r.at && rv == ReturnValue(r.outcome)
                && (r.outcome.Packet? ==> rv <= dst.Length && dst[..rv] == r.outcome.payload)
    {
      rv, count := 0, previous;
      var i := 0;
      while i < |src|
        invariant i <= |src| && Valid()
        invariant i == 0 ==> View() == old(View()) && count == previous
        invariant i < |src| ==> Scan(dst.Length, old(View()), src, 0) == Scan(dst.Length, View(), src, i)
        invariant 0 < i == |src| ==>
                    count == i - 1 && Scan(dst.Length, old(View()), src, 0) == Stop(View(), Silent, count)
      {
        count := i;
        var done, value := TakeOctet(src[i]);
        if done {
          return value, count;
        }
        i := i + 1;
      }
    }

    /** The loop of pppd_input_cb over what one read returned. */
    method InputCb(chunk: seq<byte>) returns (rv: int)
      requires Valid()
      requires chunk != [] ==> NoOverflow(dst.Length, View(), chunk[..|chunk| - 1])
      modifies this, dst
      ensures Valid()
      ensures rv == if chunk == [] then -1 else 0
      ensures Fed(View(), queued) == Then(old(queued), Read(dst.Length, old(View()), chunk))
    {
      if |chunk| <= 0 {
        return -1;
      }
      var bytesRead, count := 0, 0;
      ghost var whole := Then(queued, Read(dst.Length, View(), chunk));
      assert chunk[0..] == chunk && chunk[0..|chunk| - 1] == chunk[..|chunk| - 1];
      while bytesRead != |chunk| - 1
        invariant 0 <= bytesRead < |chunk| && Valid()
        invariant Ahead(dst.Length, chunk, whole, Loop(View(), bytesRead, queued))
        decreases Distance(chunk, Loop(View(), bytesRead, queued))
      {
        ghost var l := Loop(View(), bytesRead, queued);
        ghost var r := Scan(dst.Length, View(), chunk, bytesRead);
        TurnKeeps(dst.Length, chunk, whole, l);
        TurnAdvances(dst.Length, chunk, l);
        ScanShifts(dst.Length, View(), chunk, bytesRead, 0);
        rv, count := Decode(chunk[bytesRead..], count);
        bytesRead := bytesRead + count;
        if rv > 0 {
          queued := queued + [dst[..rv]];
        }
        assert Loop(View(), bytesRead, queued) == Turn(dst.Length, chunk, l);
      }
      rv := 0;
    }
  }

  // ---- From packets to packets ---------------------------------------------------------------

  /**
   * Whatever packets are encoded one after the other, and however the stream is cut into reads of
   * two octets or more, the reads end and hand on the packets in order, without the empty ones.
   */
  lemma {:induction false} PacketsArrive(dsize: nat, packets: seq<seq<byte>>, chunks: seq<seq<byte>>)
    requires forall i :: 0 <= i < |packets| ==> |packets[i]| + 2 <= dsize
    requires forall i :: 0 <= i < |chunks| ==> |chunks[i]| >= 2
    requires Joined(chunks) == EncodedAll(packets)
    ensures AllEnd(dsize, IDLE, chunks)
    ensures ReadAll(dsize, IDLE, chunks) == Fed(IDLE, NonEmpty(packets))
  {
    RoundTrip(dsize, packets);
    ChunkIndependent(dsize, IDLE, chunks);
  }
}
