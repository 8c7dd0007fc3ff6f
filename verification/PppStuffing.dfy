/** Octet stuffing, section 4.2 of RFC 1662: what it produces, and what it never produces. */
module PppStuffing {
  import opened Octets

  const FLAG: byte := 0x7e
  const ESCAPE: byte := 0x7d
  const TRANS: byte := 0x20

  predicate NeedsEscape(c: byte) {
    c < 0x20 || c == ESCAPE || c == FLAG
  }

  function Escaped(c: byte): seq<byte> {
    if NeedsEscape(c) then [ESCAPE, c ^ TRANS] else [c]
  }

  function Stuffed(s: seq<byte>): seq<byte> {
    if s == [] then [] else Stuffed(s[..|s| - 1]) + Escaped(s[|s| - 1])
  }

  /** The data and a trailer between two flags. */
  function Frame(raw: seq<byte>, trailer: seq<byte>): seq<byte> {
    [FLAG] + Stuffed(raw + trailer) + [FLAG]
  }

  lemma {:induction false} StuffedGrows(s: seq<byte>, n: nat)
    requires n <= |s|
    ensures |Stuffed(s[..n])| <= |Stuffed(s)|
    decreases |s| - n
  {
    if n < |s| {
      StuffedGrows(s, n + 1);
      assert s[..n + 1][..n] == s[..n];
    } else {
      assert s[..n] == s;
    }
  }

  lemma StuffedNext(s: seq<byte>, x: nat)
    requires x < |s|
    ensures Stuffed(s[..x + 1]) == Stuffed(s[..x]) + Escaped(s[x])
    ensures |Stuffed(s[..x])| + |Escaped(s[x])| <= |Stuffed(s)|
  {
    assert s[..x + 1][..x] == s[..x];
    StuffedGrows(s, x + 1);
  }

  // ---- Transparency --------------------------------------------------------------------------

  /** No flag and no octet below 0x20, and every escape is followed by an ordinary octet. */
  ghost predicate Transparent(t: seq<byte>) {
    && (forall i :: 0 <= i < |t| ==> t[i] != FLAG && t[i] >= 0x20)
    && (forall i :: 0 <= i < |t| && t[i] == ESCAPE ==> i + 1 < |t| && t[i + 1] != ESCAPE)
  }

  function Escapes(t: seq<byte>): nat {
    if t == [] then 0 else (if t[0] == ESCAPE then 1 else 0) + Escapes(t[1..])
  }

  lemma {:induction false} EscapesJoin(s: seq<byte>, t: seq<byte>)
    ensures Escapes(s + t) == Escapes(s) + Escapes(t)
  {
    if s == [] {
      assert s + t == t;
    } else {
      assert (s + t)[1..] == s[1..] + t;
      EscapesJoin(s[1..], t);
    }
  }

  lemma EscapeTurns(c: byte)
    ensures (c ^ TRANS) ^ TRANS == c && c ^ 0 == c
    ensures NeedsEscape(c) ==> c ^ TRANS != FLAG && c ^ TRANS != ESCAPE && c ^ TRANS >= 0x20
  {
  }

  lemma EscapedTransparent(c: byte)
    ensures Transparent(Escaped(c)) && |Escaped(c)| == 1 + Escapes(Escaped(c)) <= 2
  {
    EscapeTurns(c);
    if NeedsEscape(c) {
      var t := c ^ TRANS;
      assert Escaped(c)[1..] == [t] && [t][1..] == [];
      assert Escapes([t]) == 0;
    } else {
      assert Escaped(c)[1..] == [];
    }
  }

  lemma TransparentJoin(s: seq<byte>, t: seq<byte>)
    requires Transparent(s) && Transparent(t)
    ensures Transparent(s + t)
  {
  }

  lemma {:induction false} StuffedTransparent(s: seq<byte>)
    ensures Transparent(Stuffed(s)) && |Stuffed(s)| == |s| + Escapes(Stuffed(s)) <= 2 * |s|
  {
    if s != [] {
      var n := |s| - 1;
      StuffedTransparent(s[..n]);
      EscapedTransparent(s[n]);
      TransparentJoin(Stuffed(s[..n]), Escaped(s[n]));
      EscapesJoin(Stuffed(s[..n]), Escaped(s[n]));
    }
  }

  /** Every frame is a transparent body between two flags. */
  lemma FrameShape(raw: seq<byte>, trailer: seq<byte>)
    ensures var f := Frame(raw, trailer); |f| >= 2 && f[0] == f[|f| - 1] == FLAG && Transparent(f[1..|f| - 1])
  {
    StuffedTransparent(raw + trailer);
    assert Frame(raw, trailer)[1..|Frame(raw, trailer)| - 1] == Stuffed(raw + trailer);
  }

  /** Its length is that of the content, the two flags and the escapes in it. */
  lemma FrameLength(raw: seq<byte>, trailer: seq<byte>)
    ensures |Frame(raw, trailer)| == |raw| + |trailer| + 2 + Escapes(Frame(raw, trailer))
    ensures |Frame(raw, trailer)| <= 2 * (|raw| + |trailer|) + 2
  {
    var body := Stuffed(raw + trailer);
    StuffedTransparent(raw + trailer);
    EscapesJoin([FLAG], body);
    EscapesJoin([FLAG] + body, [FLAG]);
    assert [FLAG][1..] == [];
  }
}
