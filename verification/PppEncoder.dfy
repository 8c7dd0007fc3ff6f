/** The loop of pppd_rfc1662_encode. */
module PppEncoder {
  import opened Octets
  import opened PppStuffing

  /** Writes one octet, escaped where section 4.2 of RFC 1662 asks for it. */
  method Put(c: byte, out: array<byte>, start: nat) returns (pos: nat)
    requires start + |Escaped(c)| <= out.Length
    modifies out
    ensures pos == start + |Escaped(c)|
    ensures out[..pos] == old(out[..start]) + Escaped(c)
    ensures forall k :: pos <= k < out.Length ==> out[k] == old(out[k])
  {
    var e := c;
    pos := start;
    if e < 0x20 || e == ESCAPE || e == FLAG {
      e := e ^ TRANS;
      out[pos] := ESCAPE;
      pos := pos + 1;
    }
    out[pos] := e;
    pos := pos + 1;
  }

  /** What has been written when x octets of the body are done. */
  function Begun(body: seq<byte>, x: nat): seq<byte>
    requires x <= |body|
  {
    [FLAG] + Stuffed(body[..x])
  }

  lemma BegunNext(body: seq<byte>, x: nat)
    requires x < |body|
    ensures Begun(body, x + 1) == Begun(body, x) + Escaped(body[x])
    ensures |Begun(body, x)| + |Escaped(body[x])| <= 1 + |Stuffed(body)|
  {
    StuffedNext(body, x);
  }

  /** Writes the frame of raw with the given frame check sequence, low octet first. */
  method EncodeWith(raw: seq<byte>, lo: byte, hi: byte, out: array<byte>) returns (pos: nat)
    requires out.Length >= |Frame(raw, [lo, hi])|
    modifies out
    ensures pos == |Frame(raw, [lo, hi])| && out[..pos] == Frame(raw, [lo, hi])
    ensures forall k :: pos <= k < out.Length ==> out[k] == old(out[k])
  {
    ghost var body := raw + [lo, hi];
    out[0] := FLAG;
    pos := 1;
    var x := 0;
    while x < |raw| + 2
      invariant x <= |body| && pos == |Begun(body, x)| <= 1 + |Stuffed(body)|
      invariant out[..pos] == Begun(body, x)
      invariant forall k :: pos <= k < out.Length ==> out[k] == old(out[k])
    {
      var e := if x < |raw| then raw[x] else if x == |raw| then lo else hi;
      BegunNext(body, x);
      pos := Put(e, out, pos);
      x := x + 1;
    }
    assert body[..|body|] == body;
    out[pos] := FLAG;
    pos := pos + 1;
  }
}
