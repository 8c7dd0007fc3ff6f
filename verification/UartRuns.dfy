/** What the receiver delivers over any run, for any bits, timer expiries and switching on and off. */
module UartRuns {
  import opened Runs
  import opened UartSpec

  /** The receiver was last switched on. */
  predicate On(es: seq<Event>) {
    es != [] && var e := es[|es| - 1]; if e.Enabled? then e.rx else On(es[..|es| - 1])
  }

  /** The bits that came while the receiver was switched on. */
  function Heard(es: seq<Event>): seq<bool> {
    if es == [] then [] else
      var (before, e) := (es[..|es| - 1], es[|es| - 1]);
      Heard(before) + if e.Bit? && On(before) then [e.bit] else []
  }

  function Flat(out: seq<seq<nat>>): seq<nat> {
    if out == [] then [] else Flat(out[..|out| - 1]) + out[|out| - 1]
  }

  /** Everything handed to the call-back, and what waits in the buffer. */
  function Received(s: Rx): seq<nat> {
    Flat(s.out) + s.msg
  }

  function DataSoFar(c: Cfg, r: seq<bool>): (data: seq<bool>)
    requires c.Valid() && r != []
    ensures |data| <= c.dataBits
  {
    if |r| <= 1 + c.dataBits then r[1..] else r[1..1 + c.dataBits]
  }

  /** The receiver is in the middle of the character whose first bits are r. */
  ghost predicate At(c: Cfg, s: Rx, r: seq<bool>)
    requires c.Valid()
  {
    && s.bitCount == |r| < c.Total()
    && (r != [] ==> s.shiftReg == Char(DataSoFar(c, r)))
  }

  /** Something waits exactly while the timer is armed, and there is room for one more character. */
  predicate Buffered(c: Cfg, s: Rx) {
    s.flags == {} && (s.armed <==> s.msg != []) && |s.msg| < c.rxBufSize
  }

  lemma FlushKeeps(c: Cfg, s: Rx)
    requires c.Valid() && c.hasCb && s.flags == {}
    ensures Received(FlushRx(c, s)) == Received(s) && FlushRx(c, s).msg == []
    ensures FlushRx(c, s).armed <==> s.armed && s.msg == []
  {
    assert (s.out + [s.msg])[..|s.out|] == s.out;
  }

  lemma RxChAdds(c: Cfg, s: Rx, ch: nat)
    requires c.Valid() && c.hasCb && c.rxBufSize >= 2 && Buffered(c, s)
    ensures Received(RxCh(c, s, ch)) == Received(s) + [ch] && Buffered(c, RxCh(c, s, ch))
  {
    var t := s.(msg := s.msg + [ch]);
    assert Received(t) == Received(s) + [ch];
    FlushKeeps(c, t);
  }

  /** Parser and machine agree on what has been found and on the character under way. */
  ghost predicate Agrees(c: Cfg, s: Rx, r: seq<bool>, found: seq<nat>)
    requires c.Valid()
  {
    At(c, s, r) && Buffered(c, s) && Received(s) == found
  }

  ghost predicate Usable(c: Cfg) {
    c.Valid() && c.hasCb && c.rxBufSize >= 2 && c.Total() <= 255
  }

  lemma DataBit(c: Cfg, s: Rx, r: seq<bool>, found: seq<nat>, b: bool)
    requires Usable(c) && Agrees(c, s, r, found) && 0 < |r| <= c.dataBits
    ensures Agrees(c, LaterBit(c, s, b), r + [b], found)
  {
    CharShifts(r[1..], b);
    assert (r + [b])[1..] == r[1..] + [b];
  }

  lemma TrailingBit(c: Cfg, s: Rx, r: seq<bool>, found: seq<nat>, b: bool)
    requires Usable(c) && Agrees(c, s, r, found) && c.dataBits < |r| < c.Total() - 1
    ensures Agrees(c, LaterBit(c, s, b), r + [b], found)
  {
    assert DataSoFar(c, r + [b]) == DataSoFar(c, r);
  }

  lemma LastBit(c: Cfg, s: Rx, r: seq<bool>, found: seq<nat>, b: bool)
    requires Usable(c) && Agrees(c, s, r, found) && |r| == c.Total() - 1
    ensures Agrees(c, LaterBit(c, s, b), [], found + [Char((r + [b])[1..1 + c.dataBits])])
  {
    var t := s.(bitCount := c.Total());
    assert (r + [b])[1..1 + c.dataBits] == DataSoFar(c, r);
    assert Received(t) == Received(s);
    RxChAdds(c, t, t.shiftReg);
  }

  lemma BitAgrees(c: Cfg, s: Rx, r: seq<bool>, found: seq<nat>, b: bool)
    requires Usable(c) && Agrees(c, s, r, found) && s.running
    ensures var u := Under(r, b); Agrees(c, RxBit(c, s, b), Rest(c, u), found + Found(c, u))
  {
    if r == [] {
      assert found + [] == found;
    } else if |r| == c.Total() - 1 {
      LastBit(c, s, r, found, b);
    } else if |r| <= c.dataBits {
      DataBit(c, s, r, found, b);
    } else {
      TrailingBit(c, s, r, found, b);
    }
  }

  lemma TimeoutAgrees(c: Cfg, s: Rx, r: seq<bool>, found: seq<nat>)
    requires Usable(c) && Agrees(c, s, r, found)
    ensures Agrees(c, TimerCb(c, s), r, found)
  {
    FlushKeeps(c, s.(armed := false));
  }

  lemma EnableAgrees(c: Cfg, s: Rx, r: seq<bool>, found: seq<nat>, rx: bool)
    requires Usable(c) && Agrees(c, s, r, found)
    ensures Agrees(c, Enable(c, s, rx), r, found)
  {
    FlushKeeps(c, s);
  }

  lemma StepAgrees(c: Cfg, s: Rx, e: Event, bits: seq<bool>)
    requires Usable(c) && Agrees(c, s, Unfinished(c, bits), Decoded(c, bits))
    ensures var now := bits + if e.Bit? && s.running then [e.bit] else [];
            Agrees(c, Step(c)(s, e), Unfinished(c, now), Decoded(c, now))
  {
    if e.Bit? && s.running {
      DecodedSnoc(c, bits, e.bit);
      BitAgrees(c, s, Unfinished(c, bits), Decoded(c, bits), e.bit);
    } else {
      assert bits + [] == bits;
      if e.Timeout? {
        TimeoutAgrees(c, s, Unfinished(c, bits), Decoded(c, bits));
      } else if e.Enabled? {
        EnableAgrees(c, s, Unfinished(c, bits), Decoded(c, bits), e.rx);
      }
    }
  }

  lemma StepRuns(c: Cfg, s: Rx, e: Event)
    ensures Step(c)(s, e).running <==> if e.Enabled? then e.rx else s.running
  {
    match e
    case Bit(b) => assert RxBit(c, s, b).running == s.running;
    case Timeout => assert Step(c)(s, e) == TimerCb(c, s);
    case Enabled(rx) =>
  }

  lemma {:induction false} RunsWhenOn(c: Cfg, es: seq<Event>)
    ensures Run(Step(c), INIT, es).running <==> On(es)
  {
    if es != [] {
      var before := es[..|es| - 1];
      RunsWhenOn(c, before);
      StepRuns(c, Run(Step(c), INIT, before), es[|es| - 1]);
    }
  }

  /**
   * Over any run what the call-back has been handed and what waits in the buffer is exactly what
   * the parser finds in the bits heard; what waits fits, and the timer that will flush it is armed.
   */
  lemma {:induction false} ReceivesDecoded(c: Cfg, es: seq<Event>)
    requires Usable(c)
    ensures Agrees(c, Run(Step(c), INIT, es), Unfinished(c, Heard(es)), Decoded(c, Heard(es)))
  {
    if es != [] {
      var before := es[..|es| - 1];
      ReceivesDecoded(c, before);
      RunsWhenOn(c, before);
      StepAgrees(c, Run(Step(c), INIT, before), es[|es| - 1], Heard(before));
    }
  }

  /** Nothing waits in a receiver that is switched off. */
  lemma {:induction false} OffIsEmpty(c: Cfg, es: seq<Event>)
    requires Usable(c) && !On(es)
    ensures Run(Step(c), INIT, es).msg == []
  {
    if es != [] {
      var before, e := es[..|es| - 1], es[|es| - 1];
      var s := Run(Step(c), INIT, before);
      RunsWhenOn(c, before);
      ReceivesDecoded(c, before);
      if !On(before) {
        OffIsEmpty(c, before);
        OffStaysEmpty(c, s, e);
      } else {
        FlushKeeps(c, s);
      }
    }
  }

  lemma OffStaysEmpty(c: Cfg, s: Rx, e: Event)
    requires !s.running && s.msg == []
    ensures Step(c)(s, e).msg == []
  {
    match e
    case Bit(b) =>
    case Timeout => assert Step(c)(s, e) == TimerCb(c, s);
    case Enabled(rx) =>
  }

  lemma TimeoutEmpties(c: Cfg, s: Rx)
    requires Usable(c) && Buffered(c, s)
    ensures TimerCb(c, s).msg == []
  {
    FlushKeeps(c, s.(armed := false));
  }

  /**
   * Whenever the timer has expired or the receiver has just been switched off, the call-back has
   * been handed everything, and the timer is off.
   */
  lemma {:induction false} HandedOver(c: Cfg, es: seq<Event>)
    requires Usable(c) && es != [] && (es[|es| - 1].Timeout? || es[|es| - 1] == Enabled(false))
    ensures var s := Run(Step(c), INIT, es);
            s.msg == [] && !s.armed && Flat(s.out) == Decoded(c, Heard(es))
  {
    var before, s := es[..|es| - 1], Run(Step(c), INIT, es);
    ReceivesDecoded(c, before);
    ReceivesDecoded(c, es);
    if es[|es| - 1].Timeout? {
      TimeoutEmpties(c, Run(Step(c), INIT, before));
    } else {
      OffIsEmpty(c, es);
    }
    EmptyReceived(s);
  }

  lemma EmptyReceived(s: Rx)
    requires s.msg == []
    ensures Received(s) == Flat(s.out)
  {
  }

  ghost predicate Filled(c: Cfg, out: seq<seq<nat>>) {
    forall i :: 0 <= i < |out| ==> 1 <= |out[i]| <= c.rxBufSize
  }

  /** The call-back is never handed an empty buffer, nor one with more than it was made for. */
  lemma {:induction false} BuffersAreFilled(c: Cfg, es: seq<Event>)
    requires Usable(c)
    ensures Filled(c, Run(Step(c), INIT, es).out)
  {
    if es != [] {
      BuffersAreFilled(c, es[..|es| - 1]);
      ReceivesDecoded(c, es[..|es| - 1]);
      StepFills(c, Run(Step(c), INIT, es[..|es| - 1]), es[|es| - 1]);
    }
  }

  lemma StepFills(c: Cfg, s: Rx, e: Event)
    requires Usable(c) && Buffered(c, s) && Filled(c, s.out)
    ensures Filled(c, Step(c)(s, e).out)
  {
    match e
    case Bit(b) => BitFills(c, s, b);
    case Timeout =>
      FlushFills(c, s.(armed := false));
      assert Step(c)(s, e) == TimerCb(c, s);
    case Enabled(rx) => FlushFills(c, s);
  }

  lemma FlushFills(c: Cfg, s: Rx)
    requires Filled(c, s.out) && s.flags == {} && |s.msg| <= c.rxBufSize
    ensures Filled(c, FlushRx(c, s).out)
  {
  }

  lemma BitFills(c: Cfg, s: Rx, b: bool)
    requires Usable(c) && Buffered(c, s) && Filled(c, s.out)
    ensures Filled(c, RxBit(c, s, b).out)
  {
    forall t: Rx, ch: nat | t.msg == s.msg && t.flags == {} && t.out == s.out
      ensures Filled(c, RxCh(c, t, ch).out)
    {
      FlushFills(c, t.(msg := t.msg + [ch]));
    }
  }

  /** With a character of more than 255 bits the octet that counts them never reaches the end. */
  lemma {:induction false} LongCharactersAreLost(c: Cfg, es: seq<Event>)
    requires c.Valid() && c.Total() > 255
    ensures var s := Run(Step(c), INIT, es); s.msg == [] && s.out == [] && s.flags == {} && s.bitCount <= 255
  {
    if es != [] {
      LongCharactersAreLost(c, es[..|es| - 1]);
    }
  }

  // ---- Room for one more -------------------------------------------------------------------

  /** A receiver switched on, a start bit, and ones: k bits of a character. */
  function Beginning(k: nat): seq<Event>
    requires k >= 1
  {
    if k == 1 then [Enabled(true)] + [Bit(false)] else Beginning(k - 1) + [Bit(true)]
  }

  predicate Midway(s: Rx, k: nat) {
    s.running && s.bitCount == k && s.msg == []
  }

  lemma OneBitMore(c: Cfg, s: Rx, k: nat)
    requires c.Valid() && c.Total() <= 255 && 1 <= k && k + 1 < c.Total() && Midway(s, k)
    ensures Midway(RxBit(c, s, true), k + 1)
  {
  }

  lemma LastBitFills(c: Cfg, s: Rx)
    requires c.Valid() && c.Total() <= 255 && Midway(s, c.Total() - 1)
    ensures |RxBit(c, s, true).msg| == 1
  {
  }

  lemma {:induction false} BeginningIs(c: Cfg, k: nat)
    requires c.Valid() && c.Total() <= 255 && 1 <= k < c.Total()
    ensures Midway(Run(Step(c), INIT, Beginning(k)), k)
  {
    if k == 1 {
      var on := [Enabled(true)];
      RunSnoc(Step(c), INIT, [], Enabled(true));
      assert [] + on == on;
      RunSnoc(Step(c), INIT, on, Bit(false));
    } else {
      BeginningIs(c, k - 1);
      RunSnoc(Step(c), INIT, Beginning(k - 1), Bit(true));
      OneBitMore(c, Run(Step(c), INIT, Beginning(k - 1)), k - 1);
    }
  }

  /** The first character stays in the buffer, whatever its size. */
  lemma FirstStays(c: Cfg)
    requires c.Valid() && c.Total() <= 255
    ensures |Run(Step(c), INIT, Beginning(c.Total())).msg| == 1
  {
    var n := c.Total() - 1;
    BeginningIs(c, n);
    RunSnoc(Step(c), INIT, Beginning(n), Bit(true));
    LastBitFills(c, Run(Step(c), INIT, Beginning(n)));
  }

  /** The buffer has room for one more character in every reachable state exactly if it holds two. */
  lemma {:induction false} RoomExactly(c: Cfg)
    requires c.Valid() && c.hasCb && c.Total() <= 255
    ensures (forall es :: |Run(Step(c), INIT, es).msg| < c.rxBufSize) <==> c.rxBufSize >= 2
  {
    if c.rxBufSize >= 2 {
      forall es ensures |Run(Step(c), INIT, es).msg| < c.rxBufSize {
        ReceivesDecoded(c, es);
      }
    } else {
      FirstStays(c);
    }
  }

  // ---- Characters on the line ----------------------------------------------------------------

  /** An idle gap, and a character: its data bits, and whatever follows them. */
  datatype Item = Item(gap: nat, data: seq<bool>, tail: seq<bool>)

  predicate WellFormed(c: Cfg, i: Item) {
    |i.data| == c.dataBits && |i.tail| == c.ParityBits() + c.stopBits
  }

  function Ones(n: nat): (bits: seq<bool>)
    ensures |bits| == n
  {
    seq(n, i => true)
  }

  function OnLine(i: Item): seq<bool> {
    Ones(i.gap) + ([false] + i.data + i.tail)
  }

  function Line(items: seq<Item>, gap: nat): seq<bool> {
    if items == [] then Ones(gap) else OnLine(items[0]) + Line(items[1..], gap)
  }

  function Chars(c: Cfg, items: seq<Item>): seq<nat>
    requires c.Valid() && forall i :: 0 <= i < |items| ==> WellFormed(c, items[i])
  {
    if items == [] then [] else
      assert WellFormed(c, items[0]);
      [Char(items[0].data)] + Chars(c, items[1..])
  }

  lemma {:induction false} IdleSkipped(c: Cfg, n: nat, bits: seq<bool>)
    requires c.Valid()
    ensures Decoded(c, Ones(n) + bits) == Decoded(c, bits)
  {
    if n == 0 {
      assert Ones(n) + bits == bits;
    } else {
      assert (Ones(n) + bits)[1..] == Ones(n - 1) + bits;
      IdleSkipped(c, n - 1, bits);
    }
  }

  lemma CharacterFound(c: Cfg, data: seq<bool>, tail: seq<bool>, rest: seq<bool>)
    requires c.Valid() && |data| == c.dataBits && |tail| == c.ParityBits() + c.stopBits
    ensures Decoded(c, ([false] + data + tail) + rest) == [Char(data)] + Decoded(c, rest)
  {
    var bits := ([false] + data + tail) + rest;
    assert bits[1..1 + c.dataBits] == data && bits[c.Total()..] == rest;
  }

  /**
   * The parser recovers the characters sent, whatever the gaps between them and whatever stands
   * in the place of their parity and stop bits: none of these is looked at.
   */
  lemma {:induction false} LineDecoded(c: Cfg, items: seq<Item>, gap: nat)
    requires c.Valid() && forall i :: 0 <= i < |items| ==> WellFormed(c, items[i])
    ensures Decoded(c, Line(items, gap)) == Chars(c, items)
  {
    if items == [] {
      IdleSkipped(c, gap, []);
      assert Ones(gap) + [] == Ones(gap);
    } else {
      var (i, rest) := (items[0], Line(items[1..], gap));
      var character := [false] + i.data + i.tail;
      assert OnLine(i) + rest == Ones(i.gap) + (character + rest);
      IdleSkipped(c, i.gap, character + rest);
      CharacterFound(c, i.data, i.tail, rest);
      LineDecoded(c, items[1..], gap);
    }
  }

  /** Characters sent are received, in order, however the timer and the buffer cut them up. */
  lemma {:induction false} ReceivesWhatIsSent(c: Cfg, es: seq<Event>, items: seq<Item>, gap: nat)
    requires Usable(c) && (forall i :: 0 <= i < |items| ==> WellFormed(c, items[i]))
    requires Heard(es) == Line(items, gap)
    ensures Received(Run(Step(c), INIT, es)) == Chars(c, items)
    ensures Buffered(c, Run(Step(c), INIT, es))
  {
    ReceivesDecoded(c, es);
    LineDecoded(c, items, gap);
  }
}
