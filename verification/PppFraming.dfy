/** The encoder of the source, and its round trip through the decoder. */
module PppFraming {
  import opened Octets
  import opened PppDecoder
  import opened PppEncoder
  import opened PppFcs
  import opened PppStuffing

  function Encoded(raw: seq<byte>): seq<byte> {
    Frame(raw, Trailer(raw))
  }

  /** pppd_rfc1662_encode; the caller provides the room. */
  method Encode(raw: seq<byte>, out: array<byte>) returns (pos: nat)
    requires out.Length >= |Encoded(raw)|
    modifies out
    ensures pos == |Encoded(raw)| && out[..pos] == Encoded(raw)
    ensures forall k :: pos <= k < out.Length ==> out[k] == old(out[k])
  {
    var fcs := PppdChecksum(raw);
    pos := EncodeWith(raw, LowOctet(fcs), HighOctet(fcs), out);
  }

  /** Between its flags an encoding holds no flag, no control octet and no escape without its octet. */
  lemma EncodedShape(raw: seq<byte>)
    ensures |Encoded(raw)| == |raw| + 4 + Escapes(Encoded(raw)) <= 2 * |raw| + 6
    ensures Encoded(raw)[0] == Encoded(raw)[|Encoded(raw)| - 1] == FLAG
    ensures Transparent(Encoded(raw)[1..|Encoded(raw)| - 1])
  {
    FrameLength(raw, Trailer(raw));
    FrameShape(raw, Trailer(raw));
  }

  function EncodedAll(packets: seq<seq<byte>>): seq<byte> {
    if packets == [] then [] else Encoded(packets[0]) + EncodedAll(packets[1..])
  }

  lemma {:induction false} EncodedAreFrames(packets: seq<seq<byte>>)
    ensures EncodedAll(packets) == Frames(Trailer, packets)
  {
    if packets != [] {
      EncodedAreFrames(packets[1..]);
    }
  }

  /** Decoding the encodings of any list of packets that fit yields the list, without its empty packets. */
  lemma RoundTrip(dsize: nat, packets: seq<seq<byte>>)
    requires forall i :: 0 <= i < |packets| ==> |packets[i]| + 2 <= dsize
    ensures Feed(dsize, IDLE, EncodedAll(packets)) == Fed(IDLE, NonEmpty(packets))
    ensures NoOverflow(dsize, IDLE, EncodedAll(packets))
  {
    EncodedAreFrames(packets);
    FramesDecode(dsize, Trailer, packets);
  }
}
