/** The TCP side of yate_x75: when data is taken from the socket, and how much can pile up. */
module FlowControl {
  import opened Modular
  import opened Runs
  import opened X75Types
  import opened Octets
  import opened X75Spec
  import opened X75Window
  import opened X75Accounting
  import opened X75Link

  const MAX_WRITE_QUEUE := 8
  const READ_BLOCK_SIZE := 128

  /** x75_can_write. */
  predicate CanWrite(s: Cb) {
    (s.state.Connected? || s.state.FrameReject?) && |s.flow.writeQ| <= MAX_WRITE_QUEUE
  }

  /** Data enters through telnet_rx_cb only; all other stimuli reach the endpoint directly. */
  function HostStep(s: Cb, e: Event): Cb {
    if e.DataRequest? && !CanWrite(s) then s else Step(s, e)
  }

  /** telnet_rx_cb with `chunk` waiting in the socket (empty: end of file or error). */
  method TelnetRx(link: Link, chunk: seq<byte>, id: nat) returns (ok: bool, disconnected: bool)
    requires link.Valid() && |chunk| <= READ_BLOCK_SIZE
    modifies link
    ensures link.Valid()
    ensures ok <==> CanWrite(old(link.View())) && chunk != []
    ensures ok <==> (old(link.state).Connected? || old(link.state).FrameReject?) && old(|link.writeQueue|) <= 8
                    && chunk != []
    ensures disconnected <==> CanWrite(old(link.View())) && chunk == []
    ensures link.View() == if chunk == [] then old(link.View())
                           else HostStep(old(link.View()), DataRequest(Msgb(id, chunk)))
  {
    if !(link.state.Connected? || link.state.FrameReject?) || |link.writeQueue| > MAX_WRITE_QUEUE {
      return false, false;
    }
    if |chunk| <= 0 {
      return false, true;
    }
    var rc := link.DataRequest(Msgb(id, chunk));
    return true, false;
  }

  /** A block is admitted exactly in states 3 and 4, while at most eight frames wait; or nothing happens. */
  lemma AdmittedExactly(s: Cb, msg: Msgb)
    requires s.flow.va < s.M()
    ensures var t := HostStep(s, DataRequest(msg));
            if (s.state.Connected? || s.state.FrameReject?) && |s.flow.writeQ| <= 8 then
              t.flow.accepted == s.flow.accepted + [msg]
            else t == s
  {
    StepAccepts(s, DataRequest(msg));
  }

  function Pending(q: Flow): nat {
    |q.writeQ| + |q.ackQ|
  }

  lemma PreKickPending(s: Cb, e: Event)
    ensures Pending(PreKick(s, e)) <= Pending(s.flow) + (if e.DataRequest? then 1 else 0)
  {
    match e
    case Receive(f, _) =>
      match s.state {
        case Connected =>
        case _ =>
      }
    case _ =>
  }

  lemma StepPending(s: Cb, e: Event)
    requires s.flow.va < s.M()
    ensures Pending(Step(s, e).flow) <= Pending(s.flow) + (if e.DataRequest? then 1 else 0)
  {
    StepFlow(s, e);
    PreKickPending(s, e);
  }

  /** The window invariant, and no more than nine frames and the window in the two queues. */
  ghost predicate WithinBound(c: Conf, s: Cb) {
    s.conf == c && WindowInv(c, s.flow) && Pending(s.flow) <= MAX_WRITE_QUEUE + 1 + c.window
  }

  lemma BoundStep(s: Cb, e: Event)
    requires WithinBound(s.conf, s) && InRangeFor(s, e)
    ensures WithinBound(s.conf, HostStep(s, e)) <==> KeepsFrames(s, e)
  {
    WindowStep(s, e);
    StepPending(s, e);
  }

  ghost function BoundHolds(c: Conf): Cb -> bool {
    (s: Cb) => WithinBound(c, s)
  }

  /**
   * Over any run against any peer: the two queues together hold at most nine frames plus the
   * window, and the ack queue spans V(A)..V(S), throughout exactly when no reset strands a frame,
   * however often frames are requeued.
   */
  lemma {:induction false} FlowControlBound(s: Cb, es: seq<Event>)
    requires WithinBound(s.conf, s) && Each(HostStep, InRangeFor, s, es)
    ensures Throughout(HostStep, BoundHolds(s.conf), s, es) <==> Each(HostStep, KeepsFrames, s, es)
  {
    var inv := BoundHolds(s.conf);
    forall t, e | inv(t) && InRangeFor(t, e) ensures inv(HostStep(t, e)) <==> KeepsFrames(t, e) {
      BoundStep(t, e);
    }
    InvariantIff(HostStep, inv, InRangeFor, KeepsFrames, s, es);
  }
}
