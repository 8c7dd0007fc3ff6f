/**
 * The X.75 control block as the source keeps it: fields updated in place, loops over the queues.
 * Every method is proved equal to its specification function in X75Spec, for the code as written.
 */
module X75Link {
  import opened Modular
  import opened Octets
  import opened X75Types
  import opened X75Wire
  import Spec = X75Spec

  class Link {
    var mode: Mode
    var state: LinkState
    var vs: nat
    var vr: nat
    var va: nat
    var condition: Conditions
    var n2: nat
    var n2count: nat
    var t1: Timer
    var t2: Timer
    var writeQueue: seq<Msgb>
    var ackQueue: seq<Msgb>
    var window: nat
    var frmrData: Frame
    var frmrType: byte

    ghost var log: Log
    ghost var accepted: seq<Msgb>
    ghost var released: seq<Msgb>
    ghost var ackNs: seq<nat>

    /** The control block as a value. */
    ghost function View(): Cb
      reads this
    {
      Cb(Conf(AS_WRITTEN, mode, window, n2), state,
         Flow(vs, va, writeQueue, ackQueue, ackNs, accepted, released),
         vr, condition, n2count, t1, t2, frmrData, frmrType, log)
    }

    ghost predicate Valid()
      reads this
    {
      1 <= window < Modulus(mode) && vs < Modulus(mode) && vr < Modulus(mode) && va < Modulus(mode)
    }

    /** x75_register on a zeroed control block: standard mode, single link, DCE, window 7, N2 = 20. */
    constructor ()
      ensures Valid() && View().flow == Flow(0, 0, [], [], [], [], [])
      ensures state.Disconnected? && mode == Mode(false, false, true) && window == 7 && n2 == 20
      ensures n2count == 0 && condition == NO_CONDITION && vr == 0 && log == Log([], [], [], 0)
      ensures t1 == Spec.T1_STARTED && t2 == Timer(false, false, NoHandler)
    {
      mode := Mode(false, false, true);
      state := Disconnected;
      vs, vr, va := 0, 0, 0;
      condition := NO_CONDITION;
      n2, n2count := 20, 0;
      t1, t2 := Timer(true, true, T1Expiry), Timer(false, false, NoHandler);
      writeQueue, ackQueue := [], [];
      window := 7;
      frmrData, frmrType := Frame(I, 0, 0, false, Unset, 0, 0), 0;
      log := Log([], [], [], 0);
      accepted, released, ackNs := [], [], [];
    }

    /**
     * x75_setparms: refused unless the window fits the modulus; the mode changes only when
     * disconnected. N2 is kept in 16 bits.
     */
    method SetParms(newMode: Mode, newWindow: nat, newT1: nat, newT2: nat, newN2: nat) returns (ok: bool)
      requires Valid()
      modifies this`mode, this`window, this`n2
      ensures ok <==> newT1 >= 1 && newT2 >= 1 && newN2 >= 1
                      && (old(state).Disconnected? ==> 1 <= newWindow < Modulus(newMode))
      ensures View().conf == (if !ok then old(View()).conf
                              else if old(state).Disconnected? then Conf(AS_WRITTEN, newMode, newWindow, newN2 % 0x1_0000)
                              else Conf(AS_WRITTEN, old(mode), old(window), newN2 % 0x1_0000))
      ensures ok && old(state).Disconnected? ==> 1 <= window < Modulus(mode)
      ensures View() == old(View()).(conf := View().conf)
      ensures Valid() <==> vs < Modulus(mode) && vr < Modulus(mode) && va < Modulus(mode)
      ensures !(old(mode).extended && !newMode.extended) ==> Valid()
    {
      if newT1 < 1 || newT2 < 1 || newN2 < 1 {
        return false;
      }
      if state.Disconnected? {
        if newMode.extended {
          if newWindow < 1 || newWindow > 127 {
            return false;
          }
        } else {
          if newWindow < 1 || newWindow > 7 {
            return false;
          }
        }
        mode := newMode;
        window := newWindow;
      }
      n2 := newN2 % 0x1_0000;
      return true;
    }

    // ---- x75_timer.c: start and stop -------------------------------------------------------

    method StartT1Timer()
      modifies this`t1
      ensures View() == Spec.StartT1(old(View()))
    {
      t1 := Timer(true, true, T1Expiry);
    }

    method StartT2Timer()
      modifies this`t1, this`t2
      ensures View() == Spec.StartT2(old(View()))
    {
      t1 := t1.(handler := T2Expiry);
      t2 := t2.(running := true, armed := true);
    }

    method StopT1Timer()
      modifies this`t1
      ensures View() == Spec.StopT1(old(View()))
    {
      t1 := t1.(running := false, armed := false);
    }

    method StopT2Timer()
      modifies this`t2
      ensures View() == Spec.StopT2(old(View()))
    {
      t2 := t2.(running := false, armed := false);
    }

    // ---- x75_out.c and x75_subr.c: transmission --------------------------------------------

    /** Hands the octets of `p` to the data_transmit callback. */
    method DataTransmit(skb: seq<byte>, ghost p: Pdu)
      requires skb == Encode(mode, p)
      modifies this`log
      ensures View() == Spec.Transmit(old(View()), p)
    {
      log := log.(sent := log.sent + [p], lastNr := if p.IFrame? || p.SFrame? then p.nr else log.lastNr);
    }

    /** x75_transmit_buffer: pushes the address octet. */
    method TransmitBuffer(skb: seq<byte>, cr: CommandResponse, ghost p: Pdu)
      requires !cr.Unset? && cr == CrOf(p) && skb == FrameOctets(mode, p)
      modifies this`log
      ensures View() == Spec.Transmit(old(View()), p)
    {
      var a: byte;
      if mode.mlp {
        if mode.dce {
          a := if cr.Command? then ADDR_C else ADDR_D;
        } else {
          a := if cr.Command? then ADDR_D else ADDR_C;
        }
      } else {
        if mode.dce {
          a := if cr.Command? then ADDR_A else ADDR_B;
        } else {
          a := if cr.Command? then ADDR_B else ADDR_A;
        }
      }
      DataTransmit([a] + skb, p);
    }

    /** The control octets of an I frame. */
    method PushHeader(ns: byte, nr: byte, poll: bool) returns (header: seq<byte>)
      ensures header == InfoHeader(mode, ns, nr, poll)
    {
      if mode.extended {
        header := [ns << 1, Bit(poll, EPF) | (nr << 1)];
      } else {
        header := [Bit(poll, SPF) | (nr << 5) | (ns << 1)];
      }
    }

    /** x75_send_iframe. */
    method SendIframe(skb: Msgb, poll: bool)
      modifies this`log
      ensures View() == Spec.Transmit(old(View()), IFrame(vs, vr, poll, skb.data))
      ensures log == old(log).(sent := old(log).sent + [IFrame(vs, vr, poll, skb.data)], lastNr := vr)
    {
      var header := PushHeader(Octet(vs), Octet(vr), poll);
      TransmitBuffer(header + skb.data, Command, IFrame(vs, vr, poll, skb.data));
    }

    /** x75_send_control. */
    method SendControl(frametype: FrameType, poll: bool, cr: CommandResponse)
      requires (IsSupervisory(frametype) || IsUnnumbered(frametype)) && !cr.Unset?
      modifies this`log
      ensures View() == Spec.SendControl(old(View()), frametype, poll, cr)
    {
      var c := Code(frametype);
      ghost var p := Spec.ControlPdu(vr, frametype, poll, cr);
      var octets: seq<byte>;
      if mode.extended {
        if c & 0x03 == 3 {
          octets := [c | Bit(poll, SPF)];
        } else {
          octets := [c, (Octet(vr) << 1) | Bit(poll, EPF)];
        }
      } else {
        octets := [c | Bit(poll, SPF)];
        if c & 0x03 == 1 {
          octets := [octets[0] | (Octet(vr) << 5)];
        }
      }
      SupervisoryCodes(frametype);
      assert octets == FrameOctets(mode, p);
      TransmitBuffer(octets, cr, p);
    }

    /** x75_transmit_frmr. */
    method TransmitFrmr()
      modifies this`log
      ensures View() == Spec.TransmitFrmr(old(View()))
    {
      var response := frmrData.cr.Response?;
      ghost var p := FrmrFrame(frmrData.control0, frmrData.control1, vs, vr, frmrData.cr, frmrType);
      var octets: seq<byte>;
      if mode.extended {
        octets := [Code(FRMR), frmrData.control0, frmrData.control1, (Octet(vs) << 1) & 0xFE,
                   ((Octet(vr) << 1) & 0xFE) | Bit(response, 0x01), frmrType];
      } else {
        octets := [Code(FRMR), frmrData.control0,
                   ((Octet(vs) << 1) & 0x0E) | ((Octet(vr) << 5) & 0xE0) | Bit(response, 0x10), frmrType];
      }
      TransmitBuffer(octets, Response, p);
    }

    method EnquiryResponse()
      modifies this`log, this`condition
      ensures View() == Spec.EnquiryResponse(old(View()))
    {
      SendControl(RR, true, Response);
      condition := condition.(ackPending := false);
    }

    method TimeoutResponse()
      modifies this`log, this`condition
      ensures View() == Spec.TimeoutResponse(old(View()))
    {
      SendControl(RR, false, Response);
      condition := condition.(ackPending := false);
    }

    method CheckNeedResponse(cr: CommandResponse, pf: bool)
      modifies this`log, this`condition
      ensures View() == Spec.CheckNeedResponse(old(View()), cr, pf)
    {
      if cr.Command? && pf {
        EnquiryResponse();
      }
    }

    method EstablishDataLink()
      modifies this
      ensures View() == Spec.EstablishDataLink(old(View()))
    {
      ClearConditions();
      if mode.extended {
        SendControl(SABME, true, Command);
      } else {
        SendControl(SABM, true, Command);
      }
      StartT1Timer();
      StopT2Timer();
    }

    // ---- x75_subr.c: the queues ------------------------------------------------------------

    method ClearQueues()
      modifies this`writeQueue, this`ackQueue, this`released, this`ackNs
      ensures View() == Spec.ClearQueues(old(View()))
    {
      released := released + ackQueue + writeQueue;
      ackNs := [];
      writeQueue := [];
      ackQueue := [];
    }

    /** x75_frames_acked: one frame at a time until V(A) reaches N(R). */
    method FramesAcked(nr: nat)
      requires va < Modulus(mode) && nr < Modulus(mode)
      modifies this`va, this`ackQueue, this`released, this`ackNs
      ensures View() == Spec.FramesAcked(old(View()), nr)
      ensures va < Modulus(mode)
    {
      var modulus := if mode.extended then 128 else 8;
      ghost var q := View().flow;
      if va != nr {
        AckLoop(modulus, nr);
      } else {
        assert q.released + q.ackQ[..0] == q.released;
      }
      assert View().flow == Spec.Acked(modulus, q, nr);
    }

    /** The loop of x75_frames_acked. */
    method AckLoop(modulus: nat, nr: nat)
      requires va < modulus && nr < modulus
      modifies this`va, this`ackQueue, this`released, this`ackNs
      ensures var k := Min(|old(ackQueue)|, Gap(old(va), nr, modulus));
              && ackQueue == old(ackQueue)[k..]
              && released == old(released) + old(ackQueue)[..k]
              && ackNs == Spec.Dropped(old(ackNs), k)
              && va == Wrap(old(va) + k, modulus) && va < modulus
    {
      ghost var k := 0;
      while ackQueue != [] && va != nr
        invariant 0 <= k <= |old(ackQueue)| && va < modulus
        invariant k + Gap(va, nr, modulus) == Gap(old(va), nr, modulus)
        invariant ackQueue == old(ackQueue)[k..]
        invariant released == old(released) + old(ackQueue)[..k]
        invariant ackNs == Spec.Dropped(old(ackNs), k)
        invariant va == Wrap(old(va) + k, modulus)
        decreases |ackQueue|
      {
        GapNext(va, nr, modulus);
        WrapNext(old(va), k, modulus);
        released := released + [ackQueue[0]];
        ackQueue := ackQueue[1..];
        ackNs := Spec.Dropped(old(ackNs), k + 1);
        va := (va + 1) % modulus;
        k := k + 1;
      }
    }

    /** x75_requeue_frames: the ack queue goes to the tail of the write queue. */
    method RequeueFrames()
      modifies this`writeQueue, this`ackQueue, this`ackNs
      ensures View() == Spec.Requeue(old(View()))
    {
      ghost var k := 0;
      while ackQueue != []
        invariant 0 <= k <= |old(ackQueue)|
        invariant ackQueue == old(ackQueue)[k..]
        invariant writeQueue == old(writeQueue) + old(ackQueue)[..k]
        decreases |ackQueue|
      {
        var skb := ackQueue[0];
        ackQueue := ackQueue[1..];
        writeQueue := writeQueue + [skb];
        k := k + 1;
      }
      ackNs := [];
    }

    /** x75_validate_nr: walks from V(A) to V(S). */
    method ValidateNr(nr: nat) returns (valid: bool)
      requires va < Modulus(mode) && vs < Modulus(mode) && nr < Modulus(mode)
      ensures valid <==> Spec.ValidNr(View(), nr)
    {
      var modulus := if mode.extended then 128 else 8;
      var vc := va;
      ghost var k := 0;
      while vc != vs
        invariant vc < modulus && vc == Wrap(va + k, modulus)
        invariant k + Gap(vc, vs, modulus) == Gap(va, vs, modulus)
        invariant Gap(va, nr, modulus) >= k
        decreases Gap(vc, vs, modulus)
      {
        if nr == vc {
          return true;
        }
        GapNext(vc, vs, modulus);
        WrapNext(va, k, modulus);
        vc := (vc + 1) % modulus;
        k := k + 1;
      }
      return nr == vs;
    }

    method CheckIframesAcked(nr: nat)
      requires Valid() && nr < Modulus(mode)
      modifies this
      ensures View() == Spec.CheckIframesAcked(old(View()), nr) && Valid()
    {
      if vs == nr {
        FramesAcked(nr);
        StopT1Timer();
        n2count := 0;
      } else if va != nr {
        FramesAcked(nr);
        StartT1Timer();
      }
    }

    // ---- x75_out.c: the window sender ------------------------------------------------------

    method Kick()
      requires Valid()
      modifies this
      ensures View() == Spec.Kick(old(View())) && Valid()
    {
      var modulus := if mode.extended then 128 else 8;
      var start := if |ackQueue| == 0 then va else vs;
      WrapIsMod(va + window, modulus);
      var end := (va + window) % modulus;
      if !condition.peerBusy && start != end && writeQueue != [] {
        SendBurst(modulus, start, end);
      }
    }

    /** The body of x75_kick once the window is known to be open. */
    method SendBurst(modulus: nat, start: nat, end: nat)
      requires Valid() && modulus == Modulus(mode) && Spec.KickEnabled(View())
      requires start == Spec.SendStart(View().flow) && end == Spec.SendEnd(View().conf, View().flow)
      modifies this
      ensures View() == Spec.Kick(old(View())) && Valid()
    {
      ghost var s := View();
      SendLoop(modulus, start, end);
      assert View().flow == Spec.Advanced(s.conf, s.flow);
      BurstSent();
    }

    /** The frames sent acknowledge what was pending; T1 guards them. */
    method BurstSent()
      modifies this`condition, this`t1
      ensures View() == (var s := old(View()); s.(cond := s.cond.(ackPending := false),
                                                  t1 := if s.t1.running then s.t1 else Spec.T1_STARTED))
    {
      condition := condition.(ackPending := false);
      if !t1.running {
        StartT1Timer();
      }
    }

    /** What the loop has done after `j` frames of `w`, starting from the given queues. */
    static ghost predicate Moved(m: nat, start: nat, vr: nat, w: seq<Msgb>, j: nat,
                                 ack0: seq<Msgb>, ns0: seq<nat>, sent0: seq<Pdu>,
                                 ack: seq<Msgb>, ns: seq<nat>, sent: seq<Pdu>)
      requires j <= |w|
    {
      && ack == ack0 + w[..j]
      && ns == ns0 + Spec.Numbers(m, start, j)
      && sent == sent0 + Spec.Burst(m, start, vr, w[..j])
    }

    static lemma MovedNext(m: nat, start: nat, vr: nat, w: seq<Msgb>, j: nat,
                           ack0: seq<Msgb>, ns0: seq<nat>, sent0: seq<Pdu>,
                           ack: seq<Msgb>, ns: seq<nat>, sent: seq<Pdu>)
      requires j < |w| && Moved(m, start, vr, w, j, ack0, ns0, sent0, ack, ns, sent)
      ensures var n := Wrap(start + j, m);
              Moved(m, start, vr, w, j + 1, ack0, ns0, sent0,
                    ack + [w[j]], ns + [n], sent + [IFrame(n, vr, false, w[j].data)])
    {
      assert w[..j + 1] == w[..j] + [w[j]];
      assert Spec.Numbers(m, start, j + 1) == Spec.Numbers(m, start, j) + [Wrap(start + j, m)];
      assert Spec.Burst(m, start, vr, w[..j + 1])
          == Spec.Burst(m, start, vr, w[..j]) + [IFrame(Wrap(start + j, m), vr, false, w[j].data)];
    }

    static lemma MovedNone(m: nat, start: nat, vr: nat, w: seq<Msgb>, ack0: seq<Msgb>, ns0: seq<nat>, sent0: seq<Pdu>)
      ensures Moved(m, start, vr, w, 0, ack0, ns0, sent0, ack0, ns0, sent0)
    {
    }

    method Dequeue() returns (skb: Msgb)
      requires writeQueue != []
      modifies this`writeQueue
      ensures skb == old(writeQueue)[0] && writeQueue == old(writeQueue)[1..]
    {
      skb := writeQueue[0];
      writeQueue := writeQueue[1..];
    }

    static lemma LaterFrames(w: seq<Msgb>, j: nat)
      requires j <= |w| && w[j..] != []
      ensures j < |w| && w[j..][0] == w[j] && w[j..][1..] == w[j + 1..]
    {
    }

    static lemma Turned(start: nat, end: nat, at: nat, j: nat, gap: nat, m: nat)
      requires m > 0 && start < m && end < m && at < m && j < gap == Gap(start, end, m)
      requires at == Wrap(start + j, m) && Gap(at, end, m) + j == gap
      ensures var next := (at + 1) % m;
              next < m && next == Wrap(start + j + 1, m)
              && Gap(next, end, m) + j + 1 == gap && (next == end <==> j + 1 == gap)
    {
      GapNext(at, end, m);
      WrapNext(start, j, m);
    }

    /** The do-while loop of x75_kick: the frame about to be sent is in neither queue. */
    method SendLoop(modulus: nat, start: nat, end: nat)
      requires modulus == Modulus(mode) && start < modulus && end < modulus && start != end && writeQueue != []
      modifies this`vs, this`writeQueue, this`ackQueue, this`ackNs, this`log
      ensures var k := Min(|old(writeQueue)|, Gap(start, end, modulus));
              && vs == Wrap(start + k, modulus) && vs < modulus
              && writeQueue == old(writeQueue)[k..]
              && Moved(modulus, start, vr, old(writeQueue), k, old(ackQueue), old(ackNs), old(log).sent,
                       ackQueue, ackNs, log.sent)
              && log == old(log).(sent := log.sent, lastNr := vr)
    {
      ghost var w := writeQueue;
      ghost var gap := Gap(start, end, modulus);
      ghost var k := Min(|w|, gap);
      ghost var j := 0;
      vs := start;
      MovedNone(modulus, start, vr, w, ackQueue, ackNs, log.sent);
      var skb := Dequeue();
      var more := true;
      while more
        invariant 0 <= j <= k && more == (j < k)
        invariant more ==> skb == w[j] && writeQueue == w[j + 1..]
        invariant !more ==> writeQueue == w[j..]
        invariant vs == Wrap(start + j, modulus) && vs < modulus
        invariant Gap(vs, end, modulus) + j == gap
        invariant Moved(modulus, start, vr, w, j, old(ackQueue), old(ackNs), old(log).sent, ackQueue, ackNs, log.sent)
        invariant log == old(log).(sent := log.sent, lastNr := if j == 0 then old(log).lastNr else vr)
        decreases k - j
      {
        Turned(start, end, vs, j, gap, modulus);
        MovedNext(modulus, start, vr, w, j, old(ackQueue), old(ackNs), old(log).sent, ackQueue, ackNs, log.sent);
        SendNext(modulus, skb);
        j := j + 1;
        if vs != end && writeQueue != [] {
          LaterFrames(w, j);
          skb := Dequeue();
        } else {
          more := false;
        }
      }
    }

    /** Transmit a copy, advance V(S), keep the original in the ack queue. */
    method SendNext(modulus: nat, skb: Msgb)
      requires modulus == Modulus(mode)
      modifies this`vs, this`ackQueue, this`ackNs, this`log
      ensures vs == (old(vs) + 1) % modulus
      ensures ackQueue == old(ackQueue) + [skb] && ackNs == old(ackNs) + [old(vs)]
      ensures log == old(log).(sent := old(log).sent + [IFrame(old(vs), vr, false, skb.data)], lastNr := vr)
    {
      SendIframe(skb, false);
      ackNs := ackNs + [vs];
      vs := (vs + 1) % modulus;
      ackQueue := ackQueue + [skb];
    }

    // ---- x75_in.c --------------------------------------------------------------------------

    method Notify(n: Notice)
      modifies this`log
      ensures View() == Spec.Notify(old(View()), n)
    {
      log := log.(notices := log.notices + [n]);
    }

    method ZeroVariables()
      requires Valid()
      modifies this`vs, this`vr, this`va, this`log
      ensures View() == var s := old(View());
                        s.(vr := 0, flow := s.flow.(vs := 0, va := 0), log := s.log.(lastNr := 0))
      ensures Valid()
    {
      vs := 0;
      vr := 0;
      va := 0;
      log := log.(lastNr := 0);
    }

    method ClearConditions()
      modifies this`condition, this`n2count
      ensures View() == old(View()).(cond := NO_CONDITION, n2count := 0)
    {
      condition := NO_CONDITION;
      n2count := 0;
    }

    method ResetVariables()
      requires Valid()
      modifies this`t1, this`t2, this`condition, this`n2count, this`vs, this`vr, this`va, this`log
      ensures View() == Spec.ResetVariables(old(View())) && Valid()
    {
      StopT1Timer();
      StopT2Timer();
      ClearConditions();
      ZeroVariables();
    }

    method Accept(pf: bool)
      requires Valid()
      modifies this
      ensures View() == Spec.Notify(Spec.ResetInPlace(Spec.SendControl(old(View()), UA, pf, Response)), ConnectIndication(Ok))
      ensures Valid()
    {
      SendControl(UA, pf, Response);
      ResetVariables();
      state := Connected;
      Notify(ConnectIndication(Ok));
    }

    method GoDisconnected(n: Notice)
      modifies this
      ensures View() == Spec.GoDisconnected(old(View()), n)
    {
      state := Disconnected;
      StartT1Timer();
      StopT2Timer();
      Notify(n);
    }

    method State0Machine(f: Frame)
      requires Valid()
      modifies this
      ensures View() == Spec.Machine0(old(View()), f) && Valid()
    {
      match f.ftype
      case SABM =>
        if mode.extended {
          SendControl(DM, f.pf, Response);
        } else {
          Accept(f.pf);
        }
      case SABME =>
        if mode.extended {
          Accept(f.pf);
        } else {
          SendControl(DM, f.pf, Response);
        }
      case DISC => SendControl(UA, f.pf, Response);
      case _ =>
    }

    method Confirm()
      requires Valid()
      modifies this
      ensures View() == Spec.Notify(Spec.ResetInPlace(old(View())), ConnectConfirmation(Ok)) && Valid()
    {
      ResetVariables();
      state := Connected;
      Notify(ConnectConfirmation(Ok));
    }

    method Abandon(n: Notice)
      requires Valid()
      modifies this
      ensures View() == Spec.GoDisconnected(Spec.ClearQueues(old(View())), n) && Valid()
    {
      ClearQueues();
      GoDisconnected(n);
    }

    method State1Machine(f: Frame)
      requires Valid()
      modifies this
      ensures View() == Spec.Machine1(old(View()), f) && Valid()
    {
      match f.ftype
      case SABM =>
        if mode.extended {
          SendControl(DM, f.pf, Response);
        } else {
          SendControl(UA, f.pf, Response);
        }
      case SABME =>
        if mode.extended {
          SendControl(UA, f.pf, Response);
        } else {
          SendControl(DM, f.pf, Response);
        }
      case DISC => SendControl(DM, f.pf, Response);
      case UA =>
        if f.pf {
          Confirm();
        }
      case DM =>
        if f.pf {
          Abandon(DisconnectIndication(Refused));
        }
      case _ =>
    }

    method State2Machine(f: Frame)
      requires Valid()
      modifies this
      ensures View() == Spec.Machine2(old(View()), f) && Valid()
    {
      match f.ftype
      case SABM | SABME => SendControl(DM, f.pf, Response);
      case DISC => SendControl(UA, f.pf, Response);
      case UA =>
        if f.pf {
          GoDisconnected(DisconnectConfirmation(Ok));
        }
      case DM =>
        if f.pf {
          GoDisconnected(DisconnectConfirmation(NotConnected));
        }
      case I | RR | RNR | REJ =>
        if f.pf {
          SendControl(DM, f.pf, Response);
        }
      case _ =>
    }

    method RememberFrame(f: Frame, reason: byte)
      modifies this`frmrData, this`frmrType
      ensures View() == old(View()).(frmrData := f, frmrType := reason)
    {
      frmrData := f;
      frmrType := reason;
    }

    method EnterFrameReject(f: Frame, reason: byte)
      requires Valid()
      modifies this
      ensures View() == Spec.EnterFrameReject(old(View()), f, reason) && Valid()
    {
      RememberFrame(f, reason);
      TransmitFrmr();
      StartT1Timer();
      StopT2Timer();
      state := FrameReject;
      n2count := 0;
    }

    /** The RNR, RR and REJ cases of state 3. */
    method ReceiveSupervisory(f: Frame)
      requires Valid() && IsSupervisory(f.ftype) && f.nr < Modulus(mode)
      modifies this
      ensures View() == Spec.Supervisory(old(View()), f) && Valid()
    {
      condition := condition.(peerBusy := f.ftype.RNR?);
      CheckNeedResponse(f.cr, f.pf);
      SupervisoryTail(f);
    }

    method SupervisoryTail(f: Frame)
      requires Valid() && IsSupervisory(f.ftype) && f.nr < Modulus(mode)
      modifies this
      ensures View() == Spec.SupervisoryTail(old(View()), f) && Valid()
    {
      var valid := ValidateNr(f.nr);
      if !valid {
        EnterFrameReject(f, Spec.FRMR_Z);
      } else if f.ftype.REJ? {
        FramesAcked(f.nr);
        StopT1Timer();
        n2count := 0;
        RequeueFrames();
      } else {
        CheckIframesAcked(f.nr);
      }
    }

    /** Hand over the data, advance V(R) and drop the reject condition. */
    method DataIndication(data: seq<byte>)
      requires Valid()
      modifies this`log, this`vr, this`condition
      ensures View() == (var s := old(View());
                         s.(log := s.log.(delivered := s.log.delivered + [data]), vr := Wrap(s.vr + 1, s.M()),
                            cond := s.cond.(reject := false)))
      ensures Valid()
    {
      var modulus := if mode.extended then 128 else 8;
      log := log.(delivered := log.delivered + [data]);
      WrapIsMod(vr + 1, modulus);
      vr := (vr + 1) % modulus;
      condition := condition.(reject := false);
    }

    /** An in-sequence I frame. */
    method AcceptInfo(pf: bool, data: seq<byte>)
      requires Valid()
      modifies this
      ensures View() == Spec.AcceptInfo(old(View()), pf, data) && Valid()
    {
      DataIndication(data);
      if pf {
        EnquiryResponse();
      } else {
        if !condition.ackPending {
          condition := condition.(ackPending := true);
          StartT2Timer();
        }
      }
    }

    /** An out-of-sequence I frame. */
    method RefuseInfo(pf: bool)
      requires Valid()
      modifies this
      ensures View() == Spec.RefuseInfo(old(View()), pf) && Valid()
    {
      if condition.reject {
        if pf {
          EnquiryResponse();
        }
      } else {
        condition := condition.(reject := true);
        SendControl(REJ, pf, Response);
        condition := condition.(ackPending := false);
      }
    }

    method AckFromInfo(nr: nat)
      requires Valid() && nr < Modulus(mode)
      modifies this
      ensures View() == Spec.AckFromInfo(old(View()), nr) && Valid()
    {
      if condition.peerBusy {
        FramesAcked(nr);
      } else {
        CheckIframesAcked(nr);
      }
    }

    /** The I case of state 3. */
    method ReceiveInfo(f: Frame, data: seq<byte>)
      requires Valid() && f.nr < Modulus(mode)
      modifies this
      ensures View() == Spec.Info(old(View()), f, data) && Valid()
    {
      var valid := ValidateNr(f.nr);
      if !valid {
        EnterFrameReject(f, Spec.FRMR_Z);
        return;
      }
      AckFromInfo(f.nr);
      if f.ns == vr {
        AcceptInfo(f.pf, data);
      } else {
        RefuseInfo(f.pf);
      }
    }

    method Reconnect(pf: bool)
      requires Valid()
      modifies this
      ensures View() == Spec.Requeue(Spec.ResetVariables(Spec.SendControl(old(View()), UA, pf, Response))) && Valid()
    {
      SendControl(UA, pf, Response);
      ResetVariables();
      RequeueFrames();
    }

    method AcceptDisconnect(pf: bool)
      requires Valid()
      modifies this
      ensures View() == Spec.GoDisconnected(Spec.SendControl(Spec.ClearQueues(old(View())), UA, pf, Response),
                                            DisconnectIndication(Ok))
      ensures Valid()
    {
      ClearQueues();
      SendControl(UA, pf, Response);
      GoDisconnected(DisconnectIndication(Ok));
    }

    method EstablishAnew()
      requires Valid()
      modifies this
      ensures View() == Spec.Requeue(Spec.EstablishDataLink(old(View()))).(state := AwaitingConnection) && Valid()
    {
      EstablishDataLink();
      RequeueFrames();
      state := AwaitingConnection;
    }

    method State3Machine(f: Frame, data: seq<byte>)
      requires Valid() && (f.ftype.I? || IsSupervisory(f.ftype) ==> f.nr < Modulus(mode))
      modifies this
      ensures View() == Spec.Machine3(old(View()), f, data) && Valid()
    {
      match f.ftype
      case SABM =>
        if mode.extended {
          SendControl(DM, f.pf, Response);
        } else {
          Reconnect(f.pf);
        }
      case SABME =>
        if mode.extended {
          Reconnect(f.pf);
        } else {
          SendControl(DM, f.pf, Response);
        }
      case DISC => AcceptDisconnect(f.pf);
      case DM => Abandon(DisconnectIndication(NotConnected));
      case RNR | RR | REJ => ReceiveSupervisory(f);
      case I => ReceiveInfo(f, data);
      case FRMR => EstablishAnew();
      case Illegal => EnterFrameReject(f, Spec.FRMR_W);
      case _ =>
    }

    method State4Machine(f: Frame)
      requires Valid()
      modifies this
      ensures View() == Spec.Machine4(old(View()), f) && Valid()
    {
      match f.ftype
      case SABM =>
        if mode.extended {
          SendControl(DM, f.pf, Response);
        } else {
          Accept(f.pf);
        }
      case SABME =>
        if mode.extended {
          Accept(f.pf);
        } else {
          SendControl(DM, f.pf, Response);
        }
      case _ =>
    }

    method Dispatch(f: Frame, data: seq<byte>)
      requires Valid() && (f.ftype.I? || IsSupervisory(f.ftype) ==> f.nr < Modulus(mode))
      modifies this
      ensures View() == Spec.Machine(old(View()), f, data) && Valid()
    {
      match state
      case Disconnected => State0Machine(f);
      case AwaitingConnection => State1Machine(f);
      case AwaitingRelease => State2Machine(f);
      case Connected => State3Machine(f, data);
      case FrameReject => State4Machine(f);
    }

    /** x75_data_input; `junk` is the initial content of the frame structure. */
    method DataInput(skb: seq<byte>, junk: Frame)
      requires Valid()
      modifies this
      ensures Valid()
      ensures View() == match Decode(old(mode), skb, junk)
                        case Rejected => old(View())
                        case Decoded(f, data) => Spec.DataInput(old(View()), f, data)
    {
      DecodedInRange(mode, skb, junk);
      var d := Decode(mode, skb, junk);
      if d.Decoded? {
        Dispatch(d.frame, d.data);
        Kick();
      }
    }

    // ---- x75_timer.c: expiry ---------------------------------------------------------------

    method GiveUp(n: Notice)
      requires Valid()
      modifies this
      ensures View() == Spec.GiveUp(old(View()), n) && Valid()
    {
      ClearQueues();
      state := Disconnected;
      Notify(n);
      t1 := t1.(running := false);
    }

    method RetransmitOrGiveUp()
      requires Valid() && state.Connected?
      modifies this
      ensures View() == Spec.T1Body(old(View())) && Valid()
    {
      if n2count == n2 {
        StopT2Timer();
        GiveUp(DisconnectIndication(TimedOut));
      } else {
        n2count := n2count + 1;
        RequeueFrames();
        Kick();
        StartT1Timer();
      }
    }

    method PollOrConnect()
      requires Valid() && state.Disconnected?
      modifies this
      ensures View() == Spec.T1Body(old(View())) && Valid()
    {
      if mode.dce && n2count != n2 {
        n2count := n2count + 1;
        SendControl(DM, false, Response);
      } else {
        state := AwaitingConnection;
        EstablishDataLink();
      }
      StartT1Timer();
    }

    /** States 1, 2 and 4: repeat the command or the FRMR, or give up. */
    method RepeatOrGiveUp()
      requires Valid() && !state.Connected? && !state.Disconnected?
      modifies this
      ensures View() == Spec.T1Body(old(View())) && Valid()
    {
      if n2count == n2 {
        if state.AwaitingRelease? {
          GiveUp(DisconnectConfirmation(TimedOut));
        } else {
          GiveUp(DisconnectIndication(TimedOut));
        }
        return;
      }
      n2count := n2count + 1;
      if state.AwaitingConnection? {
        SendControl(if mode.extended then SABME else SABM, true, Command);
      } else if state.AwaitingRelease? {
        SendControl(DISC, true, Command);
      } else {
        TransmitFrmr();
      }
      StartT1Timer();
    }

    method T1TimerExpiry()
      requires Valid()
      modifies this
      ensures View() == Spec.T1Routine(old(View())) && Valid()
    {
      if t1.armed || !t1.running {
        return;
      }
      match state
      case Disconnected => PollOrConnect();
      case Connected => RetransmitOrGiveUp();
      case _ => RepeatOrGiveUp();
    }

    method T2TimerExpiry()
      requires Valid()
      modifies this
      ensures View() == Spec.T2Routine(old(View())) && Valid()
    {
      if t2.armed || !t2.running {
        return;
      }
      if condition.ackPending {
        condition := condition.(ackPending := false);
        TimeoutResponse();
      }
      t2 := t2.(running := false);
    }

    /** The timer library fires the timer x75_cb::t1timer. */
    method T1Fires()
      requires Valid()
      modifies this
      ensures View() == Spec.FireT1Timer(old(View())) && Valid()
    {
      if t1.armed {
        t1 := t1.(armed := false);
        match t1.handler
        case NoHandler =>
        case T1Expiry => T1TimerExpiry();
        case T2Expiry => T2TimerExpiry();
      }
    }

    /** The timer library fires the timer x75_cb::t2timer. */
    method T2Fires()
      requires Valid()
      modifies this
      ensures View() == Spec.FireT2Timer(old(View())) && Valid()
    {
      if t2.armed {
        t2 := t2.(armed := false);
        if t2.handler.T2Expiry? {
          T2TimerExpiry();
        }
      }
    }

    // ---- x75_iface.c: requests -------------------------------------------------------------

    /** `ok` is X75_OK; otherwise X75_CONNECTED. */
    method ConnectRequest() returns (ok: bool)
      requires Valid()
      modifies this
      ensures View() == Spec.ConnectReq(old(View())) && Valid()
      ensures ok <==> !(old(state).Connected? || old(state).FrameReject?)
    {
      if state.AwaitingConnection? {
        return true;
      }
      if state.Connected? || state.FrameReject? {
        return false;
      }
      EstablishDataLink();
      state := AwaitingConnection;
      return true;
    }

    method Release()
      requires Valid()
      modifies this
      ensures var s := Spec.ClearQueues(old(View())).(n2count := 0);
              View() == Spec.StopT2(Spec.StartT1(Spec.SendControl(s, DISC, true, Command))).(state := AwaitingRelease)
      ensures Valid()
    {
      ClearQueues();
      n2count := 0;
      SendControl(DISC, true, Command);
      StartT1Timer();
      StopT2Timer();
      state := AwaitingRelease;
    }

    /** `ok` is X75_OK; otherwise X75_NOTCONNECTED. */
    method DisconnectRequest() returns (ok: bool)
      requires Valid()
      modifies this
      ensures View() == Spec.DisconnectReq(old(View())) && Valid()
      ensures ok <==> !(old(state).Disconnected? || old(state).AwaitingConnection?)
    {
      match state
      case Disconnected => return false;
      case AwaitingConnection =>
        SendControl(DISC, true, Command);
        state := Disconnected;
        StartT1Timer();
        return false;
      case AwaitingRelease => return true;
      case _ =>
        Release();
        return true;
    }

    /** `ok` is X75_OK; otherwise X75_NOTCONNECTED and the buffer is not taken. */
    method DataRequest(skb: Msgb) returns (ok: bool)
      requires Valid()
      modifies this
      ensures View() == Spec.DataReq(old(View()), skb) && Valid()
      ensures ok <==> Spec.TakesData(old(View()))
    {
      if !state.Connected? && !state.FrameReject? {
        return false;
      }
      accepted := accepted + [skb];
      writeQueue := writeQueue + [skb];
      Kick();
      return true;
    }
  }

  lemma SupervisoryCodes(t: FrameType)
    ensures IsSupervisory(t) ==> Code(t) & 0x03 == 1
    ensures IsUnnumbered(t) ==> Code(t) & 0x03 == 3
  {
  }
}
