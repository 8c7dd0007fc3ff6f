/** The receiver object of src/v110/soft_uart.c, updated in place, one method a function. */
module SoftUart {
  import opened Runs
  import opened UartRuns
  import opened UartSpec

  class Receiver {
    const cfg: Cfg
    var running: bool
    var bitCount: nat
    var shiftReg: nat
    var parityBit: bool
    var flags: set<nat>
    var msg: seq<nat>
    /** Whether the receive timer is scheduled. */
    var armed: bool
    /** The buffers handed to rx_cb so far. */
    var out: seq<seq<nat>>

    ghost function View(): Rx
      reads this
    {
      Rx(running, bitCount, shiftReg, parityBit, flags, msg, armed, out)
    }

    /** osmo_soft_uart_alloc and osmo_soft_uart_configure with a configuration that passes its checks. */
    constructor (c: Cfg)
      requires c.Valid()
      ensures cfg == c && View() == INIT
    {
      cfg := c;
      running, bitCount, shiftReg, parityBit, flags, msg, armed, out := false, 0, 0, false, {}, [], false, [];
    }

    /** suart_flush_rx. */
    method Flush()
      modifies this`armed, this`msg, this`out
      ensures View() == FlushRx(cfg, old(View()))
    {
      if |msg| != 0 || flags != {} {
        armed := false;
        if cfg.hasCb {
          out := out + [msg];
        }
        msg := [];
      }
    }

    /** suart_rx_ch; the message buffer has room for rx_buf_size characters. */
    method Character(ch: nat)
      requires |msg| < cfg.rxBufSize
      modifies this`armed, this`msg, this`out
      ensures View() == RxCh(cfg, old(View()), ch)
    {
      msg := msg + [ch];
      var msgLen := |msg|;
      if msgLen == 1 {
        armed := true;
      } else if msgLen >= cfg.rxBufSize || flags != {} {
        Flush();
      }
    }

    /** The last stop bit completes the character. */
    method Complete()
      requires |msg| < cfg.rxBufSize
      modifies this`bitCount, this`armed, this`msg, this`out
      ensures View() == RxCh(cfg, old(View()), old(shiftReg)).(bitCount := 0)
    {
      Character(shiftReg);
      bitCount := 0;
    }

    /** The stop bit case of osmo_uart_rx_bit. */
    method TakeStop(bit: bool)
      requires |msg| < cfg.rxBufSize
      modifies this`flags, this`bitCount, this`armed, this`msg, this`out
      ensures View() == StopBit(cfg, old(View()), bit)
    {
      if !bit {
        flags := flags + MaskBits(F_FRAMING_ERROR, 0);
      }
      if bitCount == 1 + cfg.dataBits + cfg.ParityBits() + cfg.stopBits {
        Complete();
      }
    }

    /** The cases of osmo_uart_rx_bit after the start bit. */
    method TakeLater(bit: bool)
      requires |msg| < cfg.rxBufSize
      modifies this`bitCount, this`shiftReg, this`parityBit, this`flags, this`armed, this`msg, this`out
      ensures View() == LaterBit(cfg, old(View()), bit)
    {
      bitCount := (bitCount + 1) % 256;
      if bitCount <= 1 + cfg.dataBits {
        shiftReg := shiftReg / 2;
        if bit {
          shiftReg := shiftReg + 0x80;
        }
      } else if cfg.parity && bitCount == 1 + cfg.dataBits + 1 {
        parityBit := bit;
      } else if bitCount <= 1 + cfg.dataBits + cfg.ParityBits() + cfg.stopBits {
        TakeStop(bit);
      }
    }

    /** osmo_uart_rx_bit. */
    method Take(bit: bool)
      requires |msg| < cfg.rxBufSize
      modifies this
      ensures View() == RxBit(cfg, old(View()), bit)
    {
      if !running {
        return;
      }
      if bitCount == 0 {
        if !bit {
          flags := {};
          shiftReg := 0;
          bitCount := bitCount + 1;
        }
        return;
      }
      TakeLater(bit);
    }

    /** suart_rx_timer_cb, when the timer expires. */
    method TimerExpiry()
      requires armed
      modifies this`armed, this`msg, this`out
      ensures View() == TimerCb(cfg, old(View()))
    {
      armed := false;
      Flush();
    }

    /** The receive half of osmo_soft_uart_enable. */
    method SetEnabled(rx: bool)
      modifies this
      ensures View() == Enable(cfg, old(View()), rx)
    {
      if !rx && running {
        Flush();
        running := false;
      } else if rx && !running {
        running := true;
      }
    }

    /**
     * osmo_soft_uart_rx_ubits: after any run, any number of bits is taken one by one, and the
     * buffer never lacks the room for the character they complete.
     */
    method TakeBits(bits: seq<bool>, ghost before: seq<Event>)
      requires Usable(cfg) && View() == Run(Step(cfg), INIT, before)
      modifies this
      ensures View() == Run(Step(cfg), INIT, before + Bits(bits))
    {
      assert before + Bits([]) == before;
      for i := 0 to |bits|
        invariant View() == Run(Step(cfg), INIT, before + Bits(bits[..i]))
      {
        NextBit(cfg, before, bits, i);
        Take(bits[i]);
      }
      assert bits[..|bits|] == bits;
    }
  }

  function Bits(bits: seq<bool>): (es: seq<Event>)
    ensures |es| == |bits|
  {
    seq(|bits|, i requires 0 <= i < |bits| => Bit(bits[i]))
  }

  lemma BitsNext(before: seq<Event>, bits: seq<bool>, i: nat)
    requires i < |bits|
    ensures before + Bits(bits[..i + 1]) == before + Bits(bits[..i]) + [Bit(bits[i])]
  {
  }

  /** There is always room for one more character. */
  lemma RoomLeft(c: Cfg, es: seq<Event>)
    requires Usable(c)
    ensures |Run(Step(c), INIT, es).msg| < c.rxBufSize
  {
    ReceivesDecoded(c, es);
  }

  lemma NextBit(c: Cfg, before: seq<Event>, bits: seq<bool>, i: nat)
    requires Usable(c) && i < |bits|
    ensures var s := Run(Step(c), INIT, before + Bits(bits[..i]));
            && |s.msg| < c.rxBufSize
            && Run(Step(c), INIT, before + Bits(bits[..i + 1])) == RxBit(c, s, bits[i])
  {
    var es := before + Bits(bits[..i]);
    RoomLeft(c, es);
    RunSnoc(Step(c), INIT, es, Bit(bits[i]));
    BitsNext(before, bits, i);
  }
}
