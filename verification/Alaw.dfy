/**
 * The sample codecs of src/yate.c: the loops that invert the expansion table, and the guarantee
 * that an octet sent as A-law and expanded on the way comes back unchanged.
 */
module Alaw {
  import opened Octets
  import opened AlawTable

  const SAMPLES := 65536

  // ---- The law is monotone -------------------------------------------------------------------

  lemma LevelRises(u: nat)
    requires u < 127
    ensures Level(u) + 16 <= Level(u + 1)
  {
    match u / 16
    case 0 =>
    case 1 =>
    case 2 =>
    case 3 =>
    case 4 =>
    case 5 =>
    case 6 =>
    case _ =>
  }

  lemma {:induction false} LevelsRise(u: nat, w: nat)
    requires u < w <= 127
    ensures Level(u) + 16 <= Level(w)
    decreases w - u
  {
    LevelRises(u);
    if u + 1 < w {
      LevelsRise(u + 1, w);
    }
  }

  lemma LevelRange(u: nat)
    requires u <= 127
    ensures 8 <= Level(u) <= 32256
  {
    if u > 0 {
      LevelsRise(0, u);
    }
    if u < 127 {
      LevelsRise(u, 127);
    }
  }

  /** In the negative half the samples rise as the codes fall. */
  lemma SamplesRise(v: nat, w: nat)
    requires v < w < 256 && (w < 128 || 128 <= v)
    ensures if w < 128 then Sample(v) + 16 <= Sample(w) else Sample(w) + 16 <= Sample(v)
  {
    if w < 128 {
      LevelsRise(v, w);
    } else {
      LevelsRise(v - 128, w - 128);
    }
  }

  // ---- Which samples a code stands for -------------------------------------------------------

  /** From eight above the sample of the code below up to eight above its own sample. */
  predicate Owns(v: nat, i: nat) {
    if v < 128 then
      i <= 32767 && (v == 0 || Sample(v - 1) + 8 <= i) && (v == 127 || i < Sample(v) + 8)
    else
      32768 <= i < SAMPLES && v <= 255 && (v == 255 || Sample(v + 1) + 8 <= i) && (v == 128 || i < Sample(v) + 8)
  }

  lemma OneOwner(v: nat, w: nat, i: nat)
    requires Owns(v, i) && Owns(w, i)
    ensures v == w
  {
    var (lo, hi) := if v < w then (v, w) else (w, v);
    if lo < hi < 128 {
      if lo + 1 < hi {
        SamplesRise(lo, hi - 1);
      }
    } else if 128 <= lo < hi {
      if lo + 1 < hi {
        SamplesRise(lo + 1, hi);
      }
    }
  }

  lemma OwnsItsSample(v: nat)
    requires v < 256
    ensures 0 <= Sample(v) < SAMPLES && Owns(v, Sample(v))
  {
    if v < 128 {
      LevelRange(v);
      if v > 0 {
        SamplesRise(v - 1, v);
      }
    } else {
      LevelRange(v - 128);
      if v < 255 {
        SamplesRise(v, v + 1);
      }
    }
  }

  /** The inverse table is complete: every sample stands for the code that owns it. */
  ghost predicate Built(s2a: seq<byte>) {
    |s2a| == SAMPLES && forall v: byte, i: nat :: Owns(v as nat, i) ==> s2a[i] == Flip(v)
  }

  ghost predicate BuiltTo(s2a: seq<byte>, n: nat)
    requires n <= |s2a| == SAMPLES
  {
    forall v: byte, i: nat :: i < n && Owns(v as nat, i) ==> s2a[i] == Flip(v)
  }

  lemma SameCode(v: byte, w: byte)
    requires v as nat == w as nat
    ensures v == w
  {
  }

  lemma FlipTwice(v: byte)
    ensures Flip(Flip(v)) == v
  {
  }

  lemma BuiltOn(before: seq<byte>, after: seq<byte>, n: nat, v: byte)
    requires n < |before| == SAMPLES && BuiltTo(before, n) && Owns(v as nat, n)
    requires after == before[n := Flip(v)]
    ensures BuiltTo(after, n + 1)
  {
    forall w: byte, i: nat | i < n + 1 && Owns(w as nat, i)
      ensures after[i] == Flip(w)
    {
      if i == n {
        OneOwner(v as nat, w as nat, n);
        SameCode(v, w);
      }
    }
  }

  // ---- The loops -----------------------------------------------------------------------------

  lemma Below(v: byte, w: byte)
    ensures v < w <==> v as nat < w as nat
  {
  }

  lemma StepUp(v: byte)
    requires v < 0x7f
    ensures (v + 1) as nat == v as nat + 1
  {
  }

  lemma StepDown(v: byte)
    requires v > 0x80
    ensures (v - 1) as nat == v as nat - 1
  {
  }

  lemma Expanded(v: byte)
    ensures Expand(Flip(v)) == Sample(v as nat)
  {
    TableIsAlaw(Flip(v));
    FlipTwice(v);
  }

  /** At the head of the loop: the sample before i belongs to code u or to the one below it. */
  predicate AtPositive(u: nat, i: int) {
    u <= 127 && (u == 0 || Sample(u - 1) + 8 < i) && (u == 127 || i <= Sample(u) + 8)
  }

  predicate AtNegative(u: nat, i: int) {
    128 <= u <= 255 && (u == 255 || Sample(u + 1) + 8 < i) && (u == 128 || i <= Sample(u) + 8)
  }

  lemma PositiveNext(u: nat, i: nat)
    requires AtPositive(u, i) && i <= 32767
    ensures var w := if u < 127 && i - 8 >= Sample(u) then u + 1 else u; Owns(w, i) && AtPositive(w, i + 1)
  {
    if u + 1 < 127 {
      SamplesRise(u, u + 1);
    }
  }

  lemma NegativeNext(u: nat, i: nat)
    requires AtNegative(u, i) && 32768 <= i < SAMPLES
    ensures var w := if u > 128 && i - 8 >= Sample(u) then u - 1 else u; Owns(w, i) && AtNegative(w, i + 1)
  {
    if u - 1 > 128 {
      SamplesRise(u - 1, u);
    }
  }

  /** The if of the positive loop: on to the next code when sample i is far enough above this one. */
  method Rise(v: byte, val: byte, i: nat) returns (w: byte, code: byte)
    requires AtPositive(v as nat, i) && val == Flip(v) && i <= 32767
    ensures AtPositive(w as nat, i + 1) && code == Flip(w) && Owns(w as nat, i)
  {
    w, code := v, val;
    Expanded(v);
    PositiveNext(v as nat, i);
    Below(v, 0x7f);
    if v < 0x7f && i - 8 >= Expand(val) {
      StepUp(v);
      w := v + 1;
      code := w ^ 0xd5;
    }
  }

  method Fall(v: byte, val: byte, i: nat) returns (w: byte, code: byte)
    requires AtNegative(v as nat, i) && val == Flip(v) && 32768 <= i < SAMPLES
    ensures AtNegative(w as nat, i + 1) && code == Flip(w) && Owns(w as nat, i)
  {
    w, code := v, val;
    Expanded(v);
    NegativeNext(v as nat, i);
    Below(0x80, v);
    if v > 0x80 && i - 8 >= Expand(val) {
      StepDown(v);
      w := v - 1;
      code := w ^ 0xd5;
    }
  }

  /** The positive half of yate_codec_alaw_slin_init. */
  method InitPositive(s2a: array<byte>)
    requires s2a.Length == SAMPLES
    modifies s2a
    ensures BuiltTo(s2a[..], 32768)
  {
    var v: byte, val: byte := 0, 0xd5;
    for i := 0 to 32768
      invariant AtPositive(v as nat, i) && val == Flip(v)
      invariant BuiltTo(s2a[..], i)
    {
      v, val := Rise(v, val, i);
      BuiltOn(s2a[..], s2a[..][i := val], i, v);
      s2a[i] := val;
    }
  }

  /** The negative half. */
  method InitNegative(s2a: array<byte>)
    requires s2a.Length == SAMPLES && BuiltTo(s2a[..], 32768)
    modifies s2a
    ensures Built(s2a[..])
  {
    var v: byte, val: byte := 0xff, 0x2a;
    for i := 32768 to 65536
      invariant AtNegative(v as nat, i) && val == Flip(v)
      invariant BuiltTo(s2a[..], i)
    {
      v, val := Fall(v, val, i);
      BuiltOn(s2a[..], s2a[..][i := val], i, v);
      s2a[i] := val;
    }
  }

  /** An octet goes out as A-law, is expanded on the way and comes back as what it was. */
  lemma RoundTrip(s2a: seq<byte>, code: byte)
    requires Built(s2a)
    ensures Expand(code) < SAMPLES && s2a[Expand(code)] == code
  {
    var v := Flip(code);
    FlipTwice(code);
    Expanded(v);
    OwnsItsSample(v as nat);
  }

  // ---- What the table gives for any sample -----------------------------------------------------

  lemma {:induction false} ReachPositive(i: nat) returns (u: nat)
    requires i <= 32767
    ensures AtPositive(u, i)
  {
    u := 0;
    if i == 0 {
      LevelRange(0);
    } else {
      u := ReachPositive(i - 1);
      PositiveNext(u, i - 1);
      u := if u < 127 && (i - 1) - 8 >= Sample(u) then u + 1 else u;
    }
  }

  lemma {:induction false} ReachNegative(i: nat) returns (u: nat)
    requires 32768 <= i < SAMPLES
    ensures AtNegative(u, i)
    decreases i
  {
    u := 255;
    if i == 32768 {
      LevelRange(127);
    } else {
      u := ReachNegative(i - 1);
      NegativeNext(u, i - 1);
      u := if u > 128 && (i - 1) - 8 >= Sample(u) then u - 1 else u;
    }
  }

  lemma OwnerNumber(i: nat) returns (w: nat)
    requires i < SAMPLES
    ensures w < 256 && Owns(w, i)
  {
    if i <= 32767 {
      var u := ReachPositive(i);
      PositiveNext(u, i);
      w := if u < 127 && i - 8 >= Sample(u) then u + 1 else u;
    } else {
      var u := ReachNegative(i);
      NegativeNext(u, i);
      w := if u > 128 && i - 8 >= Sample(u) then u - 1 else u;
    }
  }

  lemma NextByte(v: byte)
    requires v < 0xff
    ensures (v + 1) as nat == v as nat + 1
  {
  }

  lemma {:induction false} AsByte(w: nat) returns (v: byte)
    requires w < 256
    ensures v as nat == w
  {
    v := 0;
    if w > 0 {
      v := AsByte(w - 1);
      Below(v, 0xff);
      NextByte(v);
      v := v + 1;
    }
  }

  /** Every sample belongs to a code. */
  lemma Owner(i: nat) returns (v: byte)
    requires i < SAMPLES
    ensures Owns(v as nat, i)
  {
    var w := OwnerNumber(i);
    v := AsByte(w);
  }

  predicate SameHalf(i: int, j: int) {
    i < 32768 <==> j < 32768
  }

  /** `e` is the first expanded value of its half above i - 8, or the last of all. */
  ghost predicate FirstAbove(i: int, e: int) {
    && SameHalf(i, e)
    && (forall c: byte :: SameHalf(Expand(c), e) && Expand(c) > i - 8 ==> e <= Expand(c))
    && (e > i - 8 || forall c: byte :: SameHalf(Expand(c), e) ==> Expand(c) <= e)
  }

  lemma OwnedBelow(v: nat, w: nat, i: nat)
    requires Owns(v, i) && w < 256 && (w < 128 <==> v < 128)
    ensures Sample(w) > i - 8 ==> Sample(v) <= Sample(w)
    ensures Sample(v) <= i - 8 ==> Sample(w) <= Sample(v)
  {
    if w < v {
      SamplesRise(w, v);
      if v < 128 && w + 1 < v {
        SamplesRise(w, v - 1);
      }
    } else if v < w {
      SamplesRise(v, w);
      if 128 <= v && v + 1 < w {
        SamplesRise(v + 1, w);
      }
    }
  }

  lemma HalfOf(v: nat)
    requires v < 256
    ensures Sample(v) < 32768 <==> v < 128
  {
    LevelRange(if v < 128 then v else v - 128);
  }

  /** The table gives every sample the code of the first expanded value above it less eight. */
  lemma CodedExactly(s2a: seq<byte>, i: nat)
    requires Built(s2a) && i < SAMPLES
    ensures FirstAbove(i, Expand(s2a[i]))
  {
    var v := Owner(i);
    Expanded(v);
    HalfOf(v as nat);
    forall c: byte | SameHalf(Expand(c), Expand(s2a[i]))
      ensures Expand(c) > i - 8 ==> Expand(s2a[i]) <= Expand(c)
      ensures Expand(s2a[i]) <= i - 8 ==> Expand(c) <= Expand(s2a[i])
    {
      FlipTwice(c);
      Expanded(Flip(c));
      HalfOf(Flip(c) as nat);
      OwnedBelow(v as nat, Flip(c) as nat, i);
    }
  }

  /** The silence sample has a code that is not 0, which is how a complete table is told from an empty one. */
  lemma BuiltIsNotEmpty(s2a: seq<byte>)
    requires Built(s2a)
    ensures s2a[0] == 0xd5
  {
    var v: byte := 0;
    assert Level(0) == 8 && v as nat == 0;
    assert Owns(v as nat, 0);
    assert s2a[0] == Flip(v);
  }

  class Codec {
    const s2a: array<byte>

    ghost predicate Valid()
      reads this, s2a
    {
      s2a.Length == SAMPLES && (s2a[0] == 0 || Built(s2a[..]))
    }

    constructor ()
      ensures Valid() && fresh(s2a)
    {
      s2a := new byte[SAMPLES](i => 0);
    }

    /** yate_codec_slin_to_alaw. */
    method SlinToAlaw(input: seq<nat>, out: array<byte>)
      requires Valid() && |input| <= out.Length && out != s2a
      requires forall k :: 0 <= k < |input| ==> input[k] < SAMPLES
      modifies s2a, out
      ensures Valid() && Built(s2a[..])
      ensures forall k :: 0 <= k < |input| ==> out[k] == s2a[input[k]]
      ensures out[|input|..] == old(out[|input|..])
    {
      if s2a[0] == 0 {
        InitPositive(s2a);
        InitNegative(s2a);
      } else {
        BuiltIsNotEmpty(s2a[..]);
      }
      for i := 0 to |input|
        invariant Built(s2a[..])
        invariant forall k :: 0 <= k < i ==> out[k] == s2a[input[k]]
        invariant forall k :: i <= k < out.Length ==> out[k] == old(out[k])
      {
        out[i] := s2a[input[i]];
      }
    }

    /** yate_codec_alaw_to_slin. */
    method AlawToSlin(input: seq<byte>, out: array<nat>)
      requires |input| <= out.Length
      modifies out
      ensures forall k :: 0 <= k < |input| ==> out[k] == Expand(input[k])
      ensures out[|input|..] == old(out[|input|..])
    {
      for i := 0 to |input|
        invariant forall k :: 0 <= k < i ==> out[k] == Expand(input[k])
        invariant forall k :: i <= k < out.Length ==> out[k] == old(out[k])
      {
        out[i] := Expand(input[i]);
      }
    }
  }
}
