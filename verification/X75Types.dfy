/** The entities of the X.75 link layer: link states, frames, timers and the control block. */
module X75Types {
  datatype LinkState =
    | Disconnected        // X75_STATE_0
    | AwaitingConnection  // X75_STATE_1
    | AwaitingRelease     // X75_STATE_2
    | Connected           // X75_STATE_3
    | FrameReject         // X75_STATE_4

  datatype Mode = Mode(extended: bool, mlp: bool, dce: bool)

  function Modulus(mode: Mode): (m: nat) {
    if mode.extended then 128 else 8
  }

  /** A message buffer. Two buffers are the same object exactly when their ids agree. */
  datatype Msgb = Msgb(id: nat, data: seq<bv8>)

  datatype FrameType =
    | I
    | RR | RNR | REJ
    | SABM | SABME | DISC | DM | UA | FRMR
    | Unknown(code: bv8)
    | Illegal

  predicate IsSupervisory(t: FrameType) {
    t.RR? || t.RNR? || t.REJ?
  }

  predicate IsUnnumbered(t: FrameType) {
    t.SABM? || t.SABME? || t.DISC? || t.DM? || t.UA? || t.FRMR?
  }

  /** `Unset` stands for a byte the decoder left untouched and that is neither 1 nor 2. */
  datatype CommandResponse = Command | Response | Unset

  /** The decoded header (`struct x75_frame`). */
  datatype Frame = Frame(
    ftype: FrameType, ns: nat, nr: nat, pf: bool, cr: CommandResponse,
    control0: bv8, control1: bv8)

  /** What an endpoint hands to its data_transmit callback. I frames are always commands. */
  datatype Pdu =
    | IFrame(ns: nat, nr: nat, pf: bool, data: seq<bv8>)
    | SFrame(ftype: FrameType, nr: nat, pf: bool, cr: CommandResponse)
    | UFrame(ftype: FrameType, pf: bool, cr: CommandResponse)
    | FrmrFrame(control0: bv8, control1: bv8, vs: nat, vr: nat, rejectedCr: CommandResponse, reason: bv8)

  datatype Reason = Ok | NotConnected | Refused | TimedOut

  /** The four connection callbacks. */
  datatype Notice =
    | ConnectConfirmation(reason: Reason)
    | ConnectIndication(reason: Reason)
    | DisconnectConfirmation(reason: Reason)
    | DisconnectIndication(reason: Reason)

  predicate IsConnect(n: Notice) {
    n.ConnectConfirmation? || n.ConnectIndication?
  }

  /** The function an osmo timer calls when it fires. */
  datatype Handler = NoHandler | T1Expiry | T2Expiry

  /** `running` is the flag of the control block, `armed` says that the osmo timer is pending. */
  datatype Timer = Timer(running: bool, armed: bool, handler: Handler)

  /**
   * Three places where the code departs from its evident intent. All three switches are off in
   * the code as written; each theorem says which of them it needs, if any.
   *  - headRequeue: unacknowledged frames go back to the head of the write queue, not its tail;
   *  - resetRequeue: every reset of V(S), V(R), V(A) requeues the unacknowledged frames;
   *  - ownT2: starting T2 installs its handler on T2 itself, not on T1.
   */
  datatype Repairs = Repairs(headRequeue: bool, resetRequeue: bool, ownT2: bool)

  const AS_WRITTEN := Repairs(false, false, false)

  /** Parameters of a connection. */
  datatype Conf = Conf(repairs: Repairs, mode: Mode, window: nat, n2: nat) {
    function M(): (m: nat) {
      Modulus(mode)
    }
  }

  /** The bits of `condition`. */
  datatype Conditions = Conditions(ackPending: bool, reject: bool, peerBusy: bool)

  const NO_CONDITION := Conditions(false, false, false)

  /**
   * The sending side: V(S), V(A) and the two queues. The last three fields are not in the source;
   * they record the fate of every frame.
   */
  datatype Flow = Flow(
    vs: nat, va: nat, writeQ: seq<Msgb>, ackQ: seq<Msgb>,
    ackNs: seq<nat>,        // N(S) of the last transmission of each entry of ackQ
    accepted: seq<Msgb>,    // accepted by x75_data_request
    released: seq<Msgb>)    // freed: acknowledged, or dropped with the queues

  /** What went through the callbacks. Not in the source. */
  datatype Log = Log(
    sent: seq<Pdu>,             // handed to data_transmit
    notices: seq<Notice>,       // connection callbacks
    delivered: seq<seq<bv8>>,   // handed to data_indication
    lastNr: nat)                // last N(R) transmitted on this connection, 0 after a reset

  /** The control block (`struct x75_cb`). */
  datatype Cb = Cb(
    conf: Conf, state: LinkState, flow: Flow, vr: nat, cond: Conditions, n2count: nat,
    t1: Timer, t2: Timer, frmrData: Frame, frmrType: bv8, log: Log)
  {
    function M(): (m: nat) {
      conf.M()
    }
  }

  /** Stimuli of an endpoint. */
  datatype Event =
    | Receive(frame: Frame, data: seq<bv8>)
    | FireT1
    | FireT2
    | ConnectRequest
    | DisconnectRequest
    | DataRequest(msg: Msgb)
}
