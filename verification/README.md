# Verified model of the osmo-yate data services

This project models, in Dafny, the protocol code of a gateway that carries modem-style data over
ISDN calls, and proves what that code keeps, delivers and loses. `dafny verify dfyconfig.toml`
checks everything.

## What is modelled

**The X.75 link layer** (`src/x75`), a LAPB-style balanced protocol: five link states, send and
receive variables modulo 8 or 128, a sliding window, a write queue and a queue of unacknowledged
frames, REJ and timer recovery, delayed acknowledgement, N2 retries.

- `X75Types` holds the entities, `X75Spec` one function per operation of the source on a control
  block as a value, `X75Link` the control block as an object whose methods have the loops and
  branches of the source. Each method of `X75Link.Link` is proved equal to its function.
- `Step` takes any received frame, timer expiry or local request. `Runs` gives runs over it, and
  the induction principle for invariants.
- What these functions amount to is stated apart from them, for one endpoint against an arbitrary
  peer: `X75Signals` which frames, link states and callbacks a stimulus calls for; `X75Window` and
  `X75Accounting` the sending side, `X75Receiving` the receiving side; `X75Busy` flow control by the
  other end; `X75Timers`, `X75Watch`, `X75Retries` and `X75GivingUp` timers and retries; `X75Replies`
  polls and rejects.
- `X75Wire` is the frame coder and decoder, `X75Reference` the octets that the standard fixes.
- `X75Setup` lets two ends set up and release a connection. `X75System` joins two connected ends by
  two channels that carry the coded octets and may lose, but not reorder, frames, and follows each
  end until it leaves the data transfer state; this layer is about sequence numbers only.
  `X75GoBackN` adds the payloads, and `X75Throttle` the callers that limit their requests.
- `X75Live`, `X75Moves`, `X75Progress` and `X75Deadlock` decide when everything accepted can still
  arrive. `X75Findings` and `X75LostReject` hold concrete runs.
- `FlowControl` adds the TCP side, `FlowOverrun` a run that exceeds its bound.
- Fields that the source does not have record what happened: which frames were accepted, freed and
  sent under which number, what went through the callbacks.

**PPP framing** (`src/ppp/pppd.c`): the frame check sequence of RFC 1662 appendix C (`CrcRegister`,
`CrcTable`, `PppFcs`), octet stuffing (`PppStuffing`, `PppEncoder`, `PppFraming`), the decoder and
the read loop, as functions (`PppDecoder`, `PppLoop`) and as an object (`PppDriver`); `PppReference`
holds octets that the RFC fixes.

**The soft UART receiver** (`src/v110/soft_uart.c`): `UartSpec` (machine and reference parser),
`UartRuns` (runs) and `SoftUart` (object).

**The A-law sample codecs** (`src/yate.c`, `src/a2s.h`): `AlawTable` and `Alaw`.

## Where the code departs from its intent

The model follows the code. A configuration carries three switches (`Repairs`); all three are off
in the code as written, and `X75Link` is proved for that setting only. For each departure there is
a theorem that says exactly which steps lose the guarantee, one that the repair restores it on
every run, and a concrete run of the code as written that loses it.

| switch | the code as written | exact condition | with the repair | concrete run |
|---|---|---|---|---|
| `headRequeue` | unacknowledged frames go to the tail of the write queue, behind younger ones (`src/x75/x75_subr.c:54-63`) | `OrderedStep`, `OrderedRun`, `MisnumbersExactly` | `OrderedRunRepaired`, `GoBackNRepaired` | `OutOfOrder` |
| `resetRequeue` | the resets of states 0, 1 and 4 zero V(S) and V(A) and leave the unacknowledged frames where they are (`src/x75/x75_in.c:40-42`, `138-140`, `473-475`, `493-495`) | `WindowStep`, `WindowRun` | `WindowRunRepaired` | `StrandedFrame` |
| `ownT2` | starting T2 installs its handler on T1 (`src/x75/x75_timer.c:31`) | `GuardedStep`, `GuardedRun`, `AckStep` | `GuardedRunRepaired`, `AckRunRepaired` | `StuckData` |

A fourth departure has no switch. The source counts the frames of each queue in a variable of its
own, and `x75_clear_queues` empties the two lists without resetting these counters
(`src/x75/x75_subr.c:16-20`), so that afterwards they run ahead of the lists. The model takes the
lengths of the lists instead: this one fault is repaired everywhere, also in the theorems about the
code as written.

Even with all three repairs a connection can fall silent. A receiver sends one REJ and waits for the
missing frame (`src/x75/x75_in.c:379-418`), and the sender never puts a poll bit into an I frame
(`src/x75/x75_out.c:48-98`). If a full window has been received, its acknowledgement lost, and the
REJ that answers the repetition is lost too, no repetition draws an answer any more
(`MutedForever`), and the sender gives up after N2 expiries although both ends and both directions
work. `ProgressExactly` shows that this is the only way to get stuck, and `LostReject` is a run into
it.

Go-back-N safety of the code as written needs no repair when the upper layer hands in data only
while fewer frames than the window are unacknowledged (`GoBackNThrottled`).

An end that says it is busy is given up on as well, unless it acknowledges everything sent: T1 goes
on running, nothing is repeated, and an RNR with an old N(R) does not clear the retry counter
(`BusyIsGivenUp`). Where the other end is not busy, T1 runs exactly while something is
unacknowledged (`PacedRun`), and giving up takes N2 + 1 expiries (`GivesUpExactly`).

Other departures are modelled as they are: `x75_kick` runs in every state, so I frames also go out
in states 1 and 4; a disconnect request in state 1 keeps both queues; a DISC or DM frame in state 3
leads to state 0 with T1 running, which then connects again; the frame structure that
`x75_decode` fills is not initialised, so that an unknown address leaves the old command/response
value (`junk` in `X75Wire.Decode`); the PPP decoder drops the check sequence without looking at it,
and cuts a frame too long for its buffer short instead of dropping it (`FrameIsCut`);
the read loop of `pppd_input_cb` skips a read of one octet and never ends when an octet before the
last finds no room; the flag of a UART framing error is the number 0, so that setting it sets
nothing and a bad stop bit goes unreported.

## Model

| member | source | states |
|---|---|---|
| X75GoBackN.GoBackN | src/x75/x75_out.c:48-98 | two ends of the code as written, any interleaving of requests, expiries, losses and deliveries: while no step appends unacknowledged frames behind younger ones, what each end delivers is a prefix of what the other accepted |
| X75GoBackN.GoBackNRepaired | src/x75/x75_subr.c:45-64 | the same with insertion at the head (the line the source has commented out), without any further condition |
| X75Setup.SetUpDespiteLosses | src/x75/x75_out.c:138-153 | through the coded octets, in both moduli: a connect request between two disconnected ends succeeds in spite of up to N2 losses of the command or its answer; both ends are connected with all variables zero and timers stopped, one told of the confirmation and the other once of the connection |
| X75Setup.SetUpTimesOut | src/x75/x75_timer.c:105-125 | after one loss more the requester is disconnected and told of a timeout |
| X75Setup.SetUpThenGoBackN | src/x75/x75_in.c:18-159 | two unused ends so connected are a started pair, to which go-back-N safety applies |
| X75Setup.Collision | src/x75/x75_in.c:92-143 | when both ends ask at once each answers the other, and the answers connect both |
| X75Setup.MismatchRefused | src/x75/x75_in.c:21-70 | ends of different moduli: a DM answers, the requester is told of a refusal, and neither is connected |
| X75Setup.ReleaseDespiteLosses | src/x75/x75_iface.c:126-160 | a disconnect request ends the connection at both ends in spite of up to N2 losses, with all queues dropped and each user told once |
| X75Signals.SignalsStep | src/x75/x75_in.c:18-507 | for every stimulus in every state, kind by kind: which of UA, DM, SABM or SABME, DISC, FRMR, RR and REJ is sent with which bits and numbers, followed by the newest entries of the ack queue and nothing else; the next link state; the callback with its reason |
| X75System.NoFalseRejects | src/x75/x75_in.c:319-418 | two ends of the code as written or repaired, any run of requests, expiries, losses and deliveries: neither end enters the frame reject state, and every N(R) on the line is valid at its receiver |
| X75System.SysStepKeeps | src/x75/x75_in.c:225-445 | an open end leaves the data transfer state exactly when its retries run out, its user disconnects, or a DISC of the other end arrives; the other goes on receiving, and the numbers of both ends and of everything on the line keep agreeing, whatever is queued under them |
| X75Deadlock.ProgressExactly | src/x75/x75_timer.c:148-182 | after any run of two ends with T2 on its own timer, while both are open and have a retry left, deliveries and expiries alone can still bring everything accepted at one end to the other if and only if the connection is not muted |
| X75Deadlock.EverythingArrives | src/x75/x75_out.c:48-98 | with insertion at the head what has then arrived is what was accepted, payload by payload |
| X75Deadlock.MutedForever | src/x75/x75_in.c:379-418 | once muted, whatever is requested, repeated or lost, nothing more is delivered at the rejecting end until it has data of its own to send |
| X75LostReject.LostReject | src/x75/x75_in.c:379-418 | with all three repairs: two frames accepted, the first repeated because T1 expired early, and the loss of one REJ mutes the connection |
| X75Throttle.GoBackNThrottled | src/x75/x75_iface.c:162-174 | the code as written is safe when data is requested only while fewer frames than the window are unacknowledged |
| X75Throttle.MisnumbersExactly | src/x75/x75_subr.c:45-64 | a step puts a frame under the number of another exactly when it appends unacknowledged frames behind waiting ones |
| X75Findings.OutOfOrder | src/x75/x75_subr.c:54-63 | two accepted frames, one loss, one expiry: the second is delivered in place of the first |
| X75Findings.StrandedFrame | src/x75/x75_in.c:138-140 | a FRMR and a UA leave a frame in the ack queue with V(S) = V(A) = 0 |
| X75Findings.StuckData | src/x75/x75_timer.c:27-35 | an I frame arriving while data is unacknowledged turns T1 into a timer that never retransmits |
| X75Window.WindowStep | src/x75/x75_out.c:48-98 | against any peer, a step keeps "the ack queue is empty or spans V(A)..V(S), never exceeds the window, entry i was sent as V(A)+i" exactly when it does not zero the variables over unacknowledged frames |
| X75Window.WindowRun | src/x75/x75_in.c:512-534 | the same over whole runs: throughout if and only if no step strands frames |
| X75Window.WindowRunRepaired | src/x75/x75_in.c:249-252 | with the requeue of the state 3 reset in the other resets too, it holds over every run |
| X75Window.StepFlow | src/x75/x75_in.c:512-534 | every stimulus changes the sending side by one of the queue operations and at most one window burst |
| X75Window.BurstExactly | src/x75/x75_out.c:48-98 | a burst is as long as the window and the write queue allow, keeps the order, and leaves frames waiting only behind a full window |
| X75Busy.BusyExactly | src/x75/x75_in.c:300-358 | over any run the busy condition is on exactly if an RNR was received in state 3 and since then no RR, REJ or reset |
| X75Busy.NothingToABusyPeer | src/x75/x75_out.c:57-58 | from an RNR until the next RR, REJ or reset no I frame goes out, whatever happens |
| X75Busy.ReadyLetsGo | src/x75/x75_in.c:319-358 | an RR or REJ with a valid N(R) sends as many waiting frames as the window has room for, also after an RNR |
| X75Busy.NothingHeldBack | src/x75/x75_out.c:48-98 | over any run against any peer that strands nothing: in state 3 frames wait only behind a full window or because the other end has said that it is busy |
| X75Receiving.ReceivingStep | src/x75/x75_in.c:360-418 | from any peer an I frame is delivered exactly when it is the expected one; V(R) counts these; an acknowledgement is owed until a frame with an N(R) is sent |
| X75Receiving.ReceivingRun | src/x75/x75_in.c:379-418 | over any run: delivered are exactly the payloads of the expected frames, V(R) is their number modulo 8 or 128, and an acknowledgement is pending exactly if one came since an N(R) was last sent |
| X75Accounting.ConservedStep | src/x75/x75_subr.c:27-64 | every step of the code as written keeps accepted = freed + unacknowledged + waiting, as multisets |
| X75Accounting.ConservedRun | src/x75/x75_subr.c:27-64 | the same over every run |
| X75Accounting.OrderedStep | src/x75/x75_subr.c:45-64 | a step keeps the equality as ordered concatenation exactly when it requeues nothing behind waiting frames |
| X75Accounting.OrderedRun | src/x75/x75_subr.c:45-64 | the same over whole runs |
| X75Accounting.OrderedRunRepaired | src/x75/x75_subr.c:54-63 | with insertion at the head the order holds over every run |
| X75Accounting.StepAccepts | src/x75/x75_iface.c:162-174 | frames enter only by a data request, in states 3 and 4, at the end of the write queue |
| X75Timers.GuardedStep | src/x75/x75_out.c:174-184 | unacknowledged data in state 3 keeps T1 running with its own handler exactly when the step neither strands frames nor starts T2 over a running T1 |
| X75Timers.GuardedRun | src/x75/x75_timer.c:148-182 | the same over whole runs |
| X75Timers.GuardedRunRepaired | src/x75/x75_timer.c:27-35 | with T2 on its own timer no run leaves data unguarded |
| X75Timers.AckStep | src/x75/x75_in.c:379-418 | after every step in state 3 the last N(R) sent equals V(R), or a response is pending and T2 counts as running; T2 keeps a working handler exactly when it is not started without one |
| X75Timers.AckRunRepaired | src/x75/x75_timer.c:54-73 | no forgotten acknowledgement over any run with T2 on its own timer |
| X75Timers.AckRunAsWritten | src/x75/x75_timer.c:27-35 | as written, in every reachable state an expiry of T2 transmits nothing |
| X75Retries.RetriesStep | src/x75/x75_timer.c:75-186 | the retry counter never exceeds N2 |
| X75Retries.SilentPeer | src/x75/x75_timer.c:75-186 | with a silent peer the endpoint is disconnected with T1 stopped after exactly the stated number of T1 expiries, at most 2 N2 + 2 |
| X75Retries.HijackedIsDeaf | src/x75/x75_timer.c:27-35 | once T1 carries the T2 handler no timer expiry ever moves the endpoint |
| X75GivingUp.CountStep | src/x75/x75_out.c:174-184 | the retry counter is cleared exactly by a frame that acknowledges everything, a valid REJ, a rejected frame, a release, or a connection asked for or set up anew, and raised exactly by an expiry of T1 that has retries left |
| X75GivingUp.GivesUpExactly | src/x75/x75_timer.c:148-182 | over any run: an expiry of T1 in state 3 ends the connection, with a timeout reported, exactly if it is number N2 + 1 since the counter was last cleared |
| X75GivingUp.PacedRun | src/x75/x75_out.c:94-96 | over any run that strands nothing: in state 3 T1 runs exactly while something is unacknowledged, unless the other end has said that it is busy |
| X75GivingUp.BusyIsGivenUp | src/x75/x75_in.c:300-317 | a busy end that acknowledges nothing new is given up on after N2 + 1 expiries, however often it repeats its RNR |
| X75Watch.WatchedRun | src/x75/x75_timer.c:85-182 | over any run: outside state 3 T1 is pending with its own handler, except from giving up until a connection is asked for or set up |
| X75Watch.T2WatchStep | src/x75/x75_timer.c:27-73 | T2 runs exactly from the I frame that starts it until it expires, or the connection ends or starts anew |
| X75Watch.T2WatchedRun | src/x75/x75_timer.c:43-73 | over any run T2 is off outside state 3, so that no RR is sent there |
| X75Watch.FrmrRepeats | src/x75/x75_timer.c:167-179 | over any run: a FRMR repeated by T1 reports the frame last found unacceptable, and why |
| X75Replies.RepliesStep | src/x75/x75_in.c:18-507 | in every state each answered poll gets exactly one final response and nothing else does; a REJ is sent exactly when the reject condition is raised; the condition lasts until an I frame is accepted or the link reset |
| X75Replies.SingleReject | src/x75/x75_in.c:379-418 | between two REJ frames an in-sequence I frame is accepted or the link is reset |
| X75Replies.NoticesStep | src/x75/x75_iface.c:182-204 | the four connection callbacks are made exactly at the state changes they announce |
| X75Window.AckedExactly | src/x75/x75_subr.c:27-43 | at an endpoint that keeps the window invariant, against any peer, a valid N(R) frees exactly the oldest (N(R) - V(A)) mod M frames if any are unacknowledged, and none otherwise; V(A) advances by their number and V(S) stays where it is |
| X75Outputs.AckedOk | src/x75/x75_subr.c:27-43 | between cooperating ends it also keeps V(A) and V(S) at the numbers of frames freed and sent |
| X75Outputs.FlowStep | src/x75/x75_out.c:48-98 | between cooperating ends V(A) advances by what was freed, V(S) never moves back, and both stay within the window, even just after a requeue |
| X75Outputs.StepOutput | src/x75/x75_out.c:18-98 | a step sends at most one response and then the newest entries of the ack queue under their numbers, all with the current V(R) |
| X75Wire.RoundTrip | src/x75/x75_subr.c:90-245 | the opposite role decodes type, N(S), N(R), poll/final, command/response and payload of every proper frame, for both moduli and both procedures |
| X75Wire.DecodedInRange | src/x75/x75_subr.c:90-206 | whatever arrives, decoded sequence numbers are below the modulus and no frame has the illegal type |
| X75Reference.StandardHeaders | src/x75/x75_out.c:36-40 | modulo 8: the control octet as a sum of weights |
| X75Reference.ExtendedHeaders | src/x75/x75_out.c:26-33 | modulo 128: both control octets |
| X75Reference.UnnumberedHeaders | src/x75/x75_subr.c:214-245 | the codes of the unnumbered frames |
| X75Reference.FrmrOctets | src/x75/x75_subr.c:251-291 | the octets of a FRMR, with V(S), V(R), role and reason |
| X75Reference.DecodesByOctet | src/x75/x75_subr.c:90-206 | for any octets: exactly what is too short is refused, and the type is the one the control octet stands for |
| X75Reference.Addresses | src/x75/x75_out.c:100-130 | the address by procedure, role and command or response |
| X75Reference.FirstFrames | src/x75/x75_out.c:100-136 | whole frames octet by octet |
| X75Link.Link.constructor | src/x75/x75_iface.c:14-37 | the registered control block: state 0, standard mode, DCE, window 7, T1 started, T2 without handler |
| X75Link.Link.SetParms | src/x75/x75_iface.c:76-102 | when parameters are refused, that mode and window change in state 0 only, that nothing but the configuration changes, and when the sequence variables stay below the new modulus; any N2 is taken and cut to 16 bits |
| X75Link.Link.StartT1Timer | src/x75/x75_timer.c:17-25 | T1 running with its handler |
| X75Link.Link.StartT2Timer | src/x75/x75_timer.c:27-35 | T2 running, but the handler installed on T1 |
| X75Link.Link.TransmitBuffer | src/x75/x75_out.c:100-136 | the address octet makes the octets the coding of the frame |
| X75Link.Link.SendIframe | src/x75/x75_out.c:18-46 | the control octets of an I frame with the current V(S) and V(R) |
| X75Link.Link.SendControl | src/x75/x75_subr.c:214-245 | the control octets of S and U frames |
| X75Link.Link.TransmitFrmr | src/x75/x75_subr.c:251-291 | the octets of a FRMR frame |
| X75Link.Link.EstablishDataLink | src/x75/x75_out.c:138-153 | conditions and retries cleared, SABM sent in standard and SABME in extended mode, T1 started, T2 stopped |
| X75Link.Link.EnquiryResponse | src/x75/x75_out.c:155-163 | an RR response with the final bit ends a pending acknowledgement |
| X75Link.Link.TimeoutResponse | src/x75/x75_out.c:165-172 | an RR response without it |
| X75Link.Link.CheckNeedResponse | src/x75/x75_out.c:186-189 | a polled command is answered at once |
| X75Link.Link.ClearQueues | src/x75/x75_subr.c:16-20 | both queues emptied, every frame in them freed |
| X75Link.Link.FramesAcked | src/x75/x75_subr.c:27-43 | the loop frees the frames up to N(R), at most the whole ack queue, and advances V(A) by their number |
| X75Link.Link.RequeueFrames | src/x75/x75_subr.c:45-64 | the loop appends the whole ack queue to the write queue |
| X75Link.Link.ValidateNr | src/x75/x75_subr.c:70-84 | the loop ends, and accepts exactly the N(R) at cyclic distance from V(A) not beyond V(S) |
| X75Link.Link.CheckIframesAcked | src/x75/x75_out.c:174-184 | T1 stopped when everything is acknowledged, restarted when something new is |
| X75Link.Link.Kick | src/x75/x75_out.c:48-98 | the do-while loop sends exactly the open part of the window or the whole queue, numbered from V(S), or from V(A) when nothing is unacknowledged |
| X75Link.Link.State0Machine | src/x75/x75_in.c:18-83 | the disconnected state, case by case |
| X75Link.Link.State1Machine | src/x75/x75_in.c:89-159 | the state awaiting connection |
| X75Link.Link.State2Machine | src/x75/x75_in.c:165-219 | the state awaiting release |
| X75Link.Link.State3Machine | src/x75/x75_in.c:225-445 | the data transfer state |
| X75Link.Link.State4Machine | src/x75/x75_in.c:451-507 | the frame reject state |
| X75Link.Link.DataInput | src/x75/x75_in.c:512-534 | decode, dispatch on the state, and a window burst in every state; an undecodable frame changes nothing |
| X75Link.Link.T1TimerExpiry | src/x75/x75_timer.c:75-186 | what a T1 expiry does in each state |
| X75Link.Link.T2TimerExpiry | src/x75/x75_timer.c:54-73 | a pending acknowledgement is sent |
| X75Link.Link.T1Fires | src/x75/x75_timer.c:17-35 | T1 stops being pending and calls whichever handler was last installed on it |
| X75Link.Link.T2Fires | src/x75/x75_timer.c:27-47 | T2 stops being pending and calls a handler only if it was ever given one |
| X75Link.Link.ConnectRequest | src/x75/x75_iface.c:104-124 | new state and return value |
| X75Link.Link.DisconnectRequest | src/x75/x75_iface.c:126-160 | new state and return value, with the queues kept in state 1 |
| X75Link.Link.DataRequest | src/x75/x75_iface.c:162-174 | the buffer is queued and the window sender run, or refused outside states 3 and 4 |
| FlowControl.TelnetRx | src/yate_x75.c:160-184 | data is read from the socket only while the link can take it |
| FlowControl.AdmittedExactly | src/yate_x75.c:50-66 | a block enters the write queue exactly in states 3 and 4 while at most eight frames wait there; otherwise nothing changes |
| FlowControl.FlowControlBound | src/yate_x75.c:50-64 | with data entering this way, on any run against any peer, write queue plus ack queue stay within nine frames plus the window, and the window invariant holds, throughout if and only if no reset strands frames |
| FlowOverrun.Overrun | src/x75/x75_in.c:473-475 | window 1, one frame unacknowledged and nine waiting; an unacceptable RR, a SABM and one more request leave eleven frames where the bound is ten |
| CrcTable.TableIsBitSerial | src/ppp/pppd.c:24-57 | each of the 256 table entries is the bit-serial remainder of its index |
| PppFcs.PppdChecksum | src/ppp/pppd.c:59-71 | the loop computes the table-driven frame check sequence |
| PppFcs.TableRefinesSerial | src/ppp/pppd.c:22-71 | for every message and start value it equals the bit-serial one with polynomial 0x8408, bits least significant first |
| PppFcs.GoodFcsExactly | src/ppp/pppd.c:20-21 | a message and two more octets leave 0xF0B8 exactly when the two octets are its transmitted checksum |
| PppFcs.StepInjective | src/ppp/pppd.c:22 | for a fixed octet the step is injective on the register |
| PppFcs.BurstDetected | src/ppp/pppd.c:59-71 | two messages of equal length that differ only within two adjacent octets have different checksums |
| PppFcs.UndetectedExactly | src/ppp/pppd.c:59-71 | an error pattern goes unnoticed exactly when its own register from zero is zero, whatever the message |
| PppFcs.PrefixUnnoticedExactly | src/ppp/pppd.c:59-71 | octets put in front of a message go unnoticed exactly when they lead from the start value back to it |
| PppFcs.LeadingZeroDetected | src/ppp/pppd.c:20-21 | a zero in front of any message changes its checksum |
| PppReference.CheckValues | src/ppp/pppd.c:59-71 | the checksums of the empty message and of the nine digits |
| PppReference.EscapeExamples | src/ppp/pppd.c:94-100 | the examples of section 4.2 of RFC 1662 |
| PppReference.DigitsFrame | src/ppp/pppd.c:73-105 | a whole frame without escapes |
| PppReference.EscapesFrame | src/ppp/pppd.c:73-105 | a whole frame with escapes |
| PppEncoder.Put | src/ppp/pppd.c:94-100 | one octet is written, escaped where it must be |
| PppEncoder.EncodeWith | src/ppp/pppd.c:80-104 | the loop writes the stuffed frame and nothing beyond it |
| PppFraming.Encode | src/ppp/pppd.c:73-105 | the output buffer holds exactly the encoding of the packet with its checksum |
| PppFraming.EncodedShape | src/ppp/pppd.c:73-105 | between its two flags an encoding has no flag, no octet below 0x20 and no escape without an ordinary octet after it; its length is n + 4 plus the escapes, at most 2n + 6 |
| PppFraming.RoundTrip | src/ppp/pppd.c:73-164 | decoding the concatenated encodings of any list of packets that fit yields the list in order, without its empty packets |
| PppDecoder.FrameDecodes | src/ppp/pppd.c:117-147 | outside an open escape a frame ends what went before and yields its data, whatever its two check octets are |
| PppDecoder.FrameIsCut | src/ppp/pppd.c:124-158 | a frame of any length: what fits the buffer is handed on without its last two octets |
| PppDecoder.Resynchronises | src/ppp/pppd.c:107-164 | after any noise that does not end in an open escape the frames that follow are received in full |
| PppLoop.LoopEndsExactly | src/ppp/pppd.c:181-193 | the read loop ends if and only if every octet of the read but the last finds room |
| PppLoop.LoopReads | src/ppp/pppd.c:181-193 | and then it has done what one pass over the read does, although closing flags are read twice |
| PppLoop.LoneOctetHarmlessExactly | src/ppp/pppd.c:181-183 | a read of one octet goes unnoticed exactly when the octet would have changed nothing |
| PppLoop.ChunkIndependent | src/ppp/pppd.c:172-195 | however a stream is cut into reads of two octets or more, all loops end and the packets are those of one pass |
| PppDriver.Deframer.TakeOctet | src/ppp/pppd.c:112-159 | the octet cases of the decoder on its buffer |
| PppDriver.Deframer.Decode | src/ppp/pppd.c:107-164 | a call stops at the first packet or overflow, with that octet's index in count and the packet in the buffer |
| PppDriver.Deframer.InputCb | src/ppp/pppd.c:172-195 | one read leaves state and queued packets as one pass over it does, or untouched for a single octet |
| PppDriver.PacketsArrive | src/ppp/pppd.c:73-195 | encoded packets, cut into reads in any way, all arrive in order |
| UartSpec.CharShifts | src/v110/soft_uart.c:123-127 | shifting a bit in at the top appends it as the next binary digit of the character |
| UartRuns.ReceivesDecoded | src/v110/soft_uart.c:68-164 | over any run of bits, timer expiries and switching on and off, callback buffers plus pending buffer are exactly the characters a reference parser finds; the pending buffer has room for one more, and its timer is armed exactly while it is not empty |
| UartRuns.HandedOver | src/v110/soft_uart.c:151-155 | over any run that ends with a timer expiry or with switching off, the buffer is empty, the timer off, and the call-back has been handed exactly what the parser finds |
| UartRuns.BuffersAreFilled | src/v110/soft_uart.c:68-98 | no buffer handed over is empty or longer than it was made for |
| UartRuns.RunsWhenOn | src/v110/soft_uart.c:251-258 | the receiver listens exactly while it was last switched on |
| UartRuns.RoomExactly | src/v110/soft_uart.c:83-98 | the buffer has room for one more character in every reachable state if and only if it is made for two or more |
| UartRuns.LongCharactersAreLost | src/v110/soft_uart.c:122-147 | a character of more than 255 bits in all never completes |
| UartRuns.LineDecoded | src/v110/soft_uart.c:101-148 | the parser recovers sent characters whatever the gaps and whatever stands in their parity and stop bits |
| UartRuns.ReceivesWhatIsSent | src/v110/soft_uart.c:68-164 | characters sent are received in order, however buffer and timer cut them up |
| SoftUart.Receiver.Flush | src/v110/soft_uart.c:68-80 | a non-empty buffer is handed over and the timer stopped |
| SoftUart.Receiver.Character | src/v110/soft_uart.c:83-98 | the first character arms the timer, the last that fits flushes |
| SoftUart.Receiver.Take | src/v110/soft_uart.c:101-148 | one bit, with the octet-wide bit counter |
| SoftUart.Receiver.TimerExpiry | src/v110/soft_uart.c:151-155 | the buffer is flushed |
| SoftUart.Receiver.SetEnabled | src/v110/soft_uart.c:251-258 | switching off flushes |
| SoftUart.Receiver.TakeBits | src/v110/soft_uart.c:158-164 | a block of bits is taken bit by bit and never overflows the buffer |
| AlawTable.TableIsAlaw | src/a2s.h:1-34 | each of the 256 entries is the sample that A-law (section 3 of ITU-T G.711) gives for its code |
| Alaw.InitPositive | src/yate.c:33-38 | the loop gives every non-negative sample the code whose interval holds it |
| Alaw.InitNegative | src/yate.c:39-44 | the same for the negative samples, which completes the table |
| Alaw.CodedExactly | src/yate.c:33-44 | the table gives every sample the code of the first expanded value of its half above the sample less eight |
| Alaw.RoundTrip | src/yate.c:23-68 | an octet expanded to its sample comes back as the same octet |
| Alaw.Codec.SlinToAlaw | src/yate.c:47-60 | every sample is looked up in a complete table, built on the first call |
| Alaw.Codec.AlawToSlin | src/yate.c:62-68 | every octet is expanded by the table |

## Left out

- GoBackN: as written it holds only under the stated condition on requeues; `OutOfOrder` shows the condition is needed, `MisnumbersExactly` that it is exact for each step. The model starts from two connected ends with empty queues and follows each until it leaves the data transfer state; connection set-up and release between two ends are the subject of `X75Setup`, where the other end's timers do not expire meanwhile; what an end does afterwards belongs to the one-endpoint theorems.
- ProgressExactly: one direction at a time, and it says that everything can arrive, not how soon; it takes T2 on its own timer, since as written a running T1 may have lost its handler (`HijackedIsDeaf`), and a retry left at both ends, since one more expiry would otherwise disconnect.
- FlowControlBound: counts frames, not octets.
- ClearQueues: the queue counters of the source are modelled as the lengths of the queues; `x75_clear_queues` empties the lists but cannot reset the counters, so the real counters can run ahead of them.
- SetParms: after a switch from extended to standard mode in state 0 with a sequence variable of 8 or more the object is no longer `Valid`, and its other methods are not modelled until a connection has reset the variables. Lowering N2 below the retry counter during a connection defeats the equality test of the retry limit, so the retry theorems are about runs without it. T1 and T2 durations are not modelled: a running timer may fire at any time.
- InputCb: its precondition is the exact condition under which the loop of the source ends; `LoopEndsExactly` proves that.
- Encode: the room in the output buffer is a precondition; the source writes without a check.
- ReceivesDecoded: assumes a receive call-back and a buffer of at least two characters, which is exactly what keeps room for the next one (`RoomExactly`); what the source does to memory beyond a buffer of one character is not modelled. Changing the configuration during a run is not modelled.
- UART parity and break: the parity bit is stored and never checked and the break flag never set, as in the source.
- `x75_unregister` and `x75_getparms`: they free or copy and decide nothing.
- Contents of the FRMR information field beyond its octets: nothing in the repository reads them.
- Allocation failure, message headroom, debug output and GSMTAP.
- Sockets, pseudo-terminals, processes and the select loop; reads are parameters.
- libosmocore, the HDLC coder and the TRAU and I.460 code: not part of this model.
- The UART transmitter, which the source leaves unfinished.
- The V.110 bit reshuffling of `src/yate_v110.c`, a fixed permutation.
- Conversions between samples and floating point in `src/yate.c`.
- Fax and the parsing of control messages: glue without protocol state.
