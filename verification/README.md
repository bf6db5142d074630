# PhotonTCP in Dafny

PhotonTCP is a small TCP-like transport whose frames travel as QR images. Its engines take the time as
an argument and do no input or output, and this project models them one by one and proves what they
promise, for every input, every run and every interleaving.

* **Selective Repeat ARQ** (`Serial`, `Rto`, `Packets`, `ArqModel`, `ArqStored`, `ArqEndpoint`): one endpoint,
  written once for 32-bit serial numbers and for unbounded positions. `ArqSafety`, `ArqSystem` and
  `ArqTheorems` join two endpoints by a network that keeps every packet ever sent and may deliver any of them
  any number of times; `ArqWrap` shows that the 32-bit pair refines the unbounded one; `ArqProgress`,
  `ArqLiveness` and `ArqHistory` add progress from every reachable state, round-trip samples, NACKs and the
  retry budget; `ArqRepair` and `ArqTimers` say what is sent again and why, `ArqHeaders` what packets say and
  how windows are kept, `RtoWeights` what the smoothed estimates are worth; `ArqOvertaking` is the run in which
  submission order is lost.
* **Streams and sessions** (`Mux`, `MuxStreams`, `MuxPair`, `MuxProgress`, `MuxEngine`, `Session`, `SessionEngine`,
  `SessionPair`, `SessionControl`, `SessionLifecycle`): a mux is a product of stand-alone endpoints; a session
  keeps what they deliver until it is taken; two sessions over a bad channel carry every stream in order, which
  puts all layers together; and the lifecycle inside a session is the stand-alone one.
* **Connection lifecycle** (`Lifecycle`, `LifecycleEngine`, `LifecycleLocal`, `LifecycleSilence`,
  `LifecycleKeepAlive`, `LifecyclePair`, `LifecycleHandshake`, `LifecycleLoss`, `LifecycleReopen`,
  `LifecycleFifo`): handshake and close within one incarnation, from the first CLOSED to the next one, alone,
  with a silent peer, with an idle peer, over the lossy network, when a handshake packet or the reply to a FIN is
  lost, over a lossless ordered link, and opened again.
* **File transfer** (`Scanning`, `Framing`, `FileTransfer`, `FileHandshake`): length-prefixed frames over a
  byte stream cut anywhere, and the completion handshake on top.
* **Frames** (`Crc`, `Header`, `Loopback`, `Optical`, `KivyDevices`): the wire format with a bit-level
  CRC-32 (section 8 of RFC 1952), the noisy link, the rolling nonce with its window, and the hand-off between
  threads on the mobile side.

The objects the source updates in place are classes here, and each method is proved to do exactly what a
function of the old state says; the theorems are about those functions. Round-trip arithmetic follows
sections 2, 3 and 5 of RFC 6298, serial numbers sections 3.1 and 3.2 of RFC 1982. One `pump` of a session is
the calls `Align`, one `Frame` per frame taken, and `Clocks` of the `Session` model.

Where the code and its own documentation differ, the code is modelled:

* A NACK updates the peer's window but does not flush, and `send` looks only at the window
  (photontcp/reliability/arq.py:310-314 and 402-413), so a later submission can leave before queued ones.
  Delivery is therefore proved against the emitted chunks, and submission order exactly where it holds.
* The retry test is strict (photontcp/session/state_machine.py:487), so one more copy than
  `max_control_retries` goes out.
* `CLOSE_WAIT` and `CLOSED` do not acknowledge a repeated FIN, although the comments present resending as the
  cure for a lost reply (photontcp/session/state_machine.py:43-48). Resending cures the loss exactly while the
  peer is ESTABLISHED or in FIN_WAIT (`LifecycleLoss.LostReplyIsCuredIff`), as it is when both sides close at
  once; a passive side that acknowledged, and a side that closed, never do again. The side that waits then
  ends with TIMED_OUT or, when (max_control_retries + 2) * control_rto is not below idle_timeout, as with the default
  settings, with a CLOSED that nothing backs (`LifecycleLoss.LostFinAckIsNotCured`,
  `LifecycleLoss.LastLostFinAckIsNotCured`).
* A close is said to wait for both FINs (photontcp/session/state_machine.py:70-74), but the two flags outlive it:
  a machine that is opened again after a graceful close can be closed by a single FIN_ACK. It keeps the promise
  exactly if neither flag is set when it is opened (`LifecycleReopen.ClosesFairlyIffClear`).
* The reorder slot of the loopback link releases the older frame first (photontcp/channel/loopback.py:194-207)
  and so only delays.
* The state diagram in photontcp/session/states.py shows FIN_WAIT closing on FIN_ACK alone and CLOSE_WAIT
  waiting for a local close(); the machine needs both FINs acknowledged and sends the second one by itself.
* A sound frame with an unknown type byte raises ValueError, which `pump` does not catch; the model lets it escape.

Assumptions: windows are at least 1 and below 2^31 (below 2^30 for progress on the wire; the field has two bytes),
stream ids fit one byte, RTO bounds satisfy 0 < min <= initial <= max, time does not run backwards, and the
handshake's sequence numbers need no reduction (isn + 2 < 2^32). The link of the whole-stack theorem hands over
frames of packets that were sent, whole, cut, lengthened, or damaged in one stretch of up to four bytes that does
not reach across an end of the checksum field, or anywhere inside the length and checksum fields. Heavier damage,
and frames from elsewhere, are covered too wherever the decoder refuses them; that none of these passes the CRC-32
by chance, and that no sound frame bears an unknown type byte, is assumed.

## Model

| member | source | states |
|---|---|---|
| `ArqTheorems.EveryRunDeliversInOrder` | photontcp/reliability/arq.py:227-413 | In every run of two endpoints over a network that loses, repeats and reorders, what each side delivered is the first chunks the other emitted, once and in order; first unacknowledged position <= receive base <= next position; every buffered or in-flight payload is the one emitted at its position; nothing raises |
| `ArqSystem.StepKeepsInv` | photontcp/reliability/arq.py:295-451 | The joint sender/receiver invariant in both directions is kept by every step: submission, any packet the peer ever sent, any timer |
| `ArqSystem.RunKeepsInv` | photontcp/reliability/arq.py:295-451 | The joint invariant holds in every reachable state |
| `ArqTheorems.NoZeroWindowDeadlock` | photontcp/reliability/arq.py:211-225 | Both receivers always advertise at least 1, every acknowledgement ever sent did, and a queue that is not empty means something is in flight |
| `ArqTheorems.BytesAreConserved` | photontcp/reliability/arq.py:184-196 | Acknowledged + in flight + queued bytes are the bytes submitted, and no byte is counted acknowledged before the peer delivered it |
| `ArqTheorems.OrderSurvivesEverySubmission` | photontcp/reliability/arq.py:310-314 | Emitted followed by queued is submitted after any next submission, if and only if the queue is empty or the window is full |
| `ArqTheorems.RunKeepsOrder` | photontcp/reliability/arq.py:244-250 | While no NACK opens the window over a queue, every run keeps emitted ++ queued equal to submitted |
| `ArqTheorems.DeliveryFollowsSubmission` | photontcp/reliability/arq.py:295-369 | In such runs what a receiver delivered is a prefix of what the peer's application submitted (over positions) |
| `ArqWrap.WireDeliveryFollowsSubmission` | photontcp/reliability/arq.py:295-369 | The same for the 32-bit endpoints, however often their numbers wrap |
| `ArqOvertaking.LaterDataOvertakes` | photontcp/reliability/arq.py:402-413 | A legal run in which a NACK widens the window over queued chunks and the next submission leaves before them: submit order is not kept in general |
| `Prelude.ChunksRebuildData` | photontcp/reliability/arq.py:306-309 | Chunking loses nothing: chunks are non-empty, at most max_payload long and concatenate back to the data |
| `Prelude.ChunksAreFull` | photontcp/reliability/arq.py:306-309 | Every chunk but the last has exactly max_payload bytes, so there are as few chunks as can be |
| `ArqSafety.FlushFillsWindow` | photontcp/reliability/arq.py:244-250 | Flushing emits exactly as many queued chunks, in order, as the window has room for |
| `ArqSafety.AckDropsPrefix` | photontcp/reliability/arq.py:389-396 | A cumulative acknowledgement removes exactly the entries before it, which are the oldest ones, and counts their bytes |
| `ArqSafety.DrainDelivers` | photontcp/reliability/arq.py:336-343 | Draining hands up exactly the run of buffered chunks that continues the stream and leaves the rest |
| `ArqWrap.EveryWireRunDeliversInOrder` | photontcp/reliability/serial.py:41-96 | Every legal run of the 32-bit endpoints, over any number of wraps, delivers in order, never raises, and emits and queues exactly what was submitted, as long as each packet it delivers comes from one sent fewer than 2^31 positions before; windows are below 2^31 |
| `ArqWrap.NeverFarAhead` | photontcp/reliability/serial.py:50-59 | The opposite distance needs no assumption: in every run a delivered packet that is not 2^31 positions late is not 2^31 ahead either |
| `ArqWrap.EveryShortWireRunDeliversInOrder` | photontcp/reliability/serial.py:41-96 | With nothing assumed of the network, the same holds of every run that emits fewer than 2^31 chunks each way |
| `ArqWrap.LiftRun` | photontcp/reliability/arq.py:317-451 | Every 32-bit run whose packets are not stale is the image of a run over unbounded positions that delivers nothing stale |
| `ArqWrap.ImagesHaveFreshOrigins` | photontcp/reliability/arq.py:317-451 | and only such runs are: the image of an unbounded run that delivers nothing stale meets that assumption |
| `ArqWrap.ShortRunsHaveFreshOrigins` | photontcp/reliability/serial.py:50-59 | Every 32-bit run that emits fewer than 2^31 chunks each way meets it |
| `ArqWrap.RunWires` | photontcp/reliability/arq.py:317-451 | Refinement over whole runs: the 32-bit pair is the image of the unbounded pair under reduction modulo 2^32, step by step |
| `ArqWrap.EveryWirePacketHasAnOrigin` | photontcp/reliability/arq.py:227-242 | Every packet the 32-bit network can deliver is the image of one the unbounded network can deliver |
| `ArqWrap.ShortTransfersAreAlwaysFresh` | photontcp/reliability/serial.py:50-59 | With fewer than 2^31 chunks each way no packet is ever too stale: the assumption on the network disappears |
| `Serial.ComparisonsUnwrap` | photontcp/reliability/serial.py:50-96 | The five comparisons and the signed distance of two serials agree with those of the positions they stand for, when those are less than 2^31 apart |
| `Serial.AdditionUnwraps` | photontcp/reliability/serial.py:41-47 | Serial addition is addition of positions, reduced |
| `Serial.OnlyOppositesAreUnordered` | photontcp/reliability/serial.py:50-84 | Exactly one of less, equal, greater holds, except at distance 2^31, where neither order holds |
| `ArqProgress.RoundAcksWindow` | photontcp/reliability/arq.py:332-451 | With all timers run out and no packet at its retry cap, one lossless tick round is a legal run that delivers and acknowledges everything that was in flight: the work left shrinks by the whole window |
| `ArqProgress.RunKeepsOneSession` | photontcp/reliability/arq.py:227-261 | Whatever happens, both ends and all they have in flight stay under one session id |
| `ArqLiveness.EveryRoundShrinksTheWork` | photontcp/reliability/arq.py:332-451 | After any run from the start, such a round leaves strictly less while anything is left |
| `ArqProgress.TransferFinishes` | photontcp/reliability/arq.py:415-451 | From any state of the invariant under one session id, as many spaced lossless rounds as chunks are left acknowledge them all; the peer has then delivered everything submitted |
| `ArqLiveness.EveryTransferFinishes` | photontcp/reliability/arq.py:415-451 | From the start, after any legal run, rounds in that number finish the transfer (over positions) |
| `ArqLiveness.EveryWireRoundShrinksTheWork` | photontcp/reliability/arq.py:332-451 | After any run of the 32-bit endpoints, a lossless round is legal and leaves strictly less while anything is left |
| `ArqLiveness.EveryWireTransferFinishes` | photontcp/reliability/arq.py:415-451 | After any run of the 32-bit endpoints, rounds in that number finish the transfer |
| `MuxProgress.EveryMuxTransferFinishes` | photontcp/stream/mux.py:209-245 | After any run of two 32-bit muxes, mux rounds in which nothing is lost finish every stream that has as many of them as chunks left |
| `MuxProgress.MuxRoundOfStream` | photontcp/stream/mux.py:209-245 | A lossless round of two muxes is a lossless round of every stream at once |
| `ArqHistory.AckSamplesOnlyUnambiguous` | photontcp/reliability/arq.py:389-396 | Karn: an acknowledgement feeds the estimator exactly ack time minus the only transmission time of each newly covered position sent once, none negative |
| `ArqHistory.HistoryOfEveryRun` | photontcp/reliability/arq.py:263-278 | Each run asks for each position at most once, in increasing order, so NACKs never exceed delivered chunks plus one; retransmission counts and times match the wire |
| `ArqHistory.RunAsksOnce` | photontcp/reliability/arq.py:357-380 | The record of NACKs asked stays within {rcv_base} and no position is asked for twice |
| `ArqHistory.RunFollowsLog` | photontcp/reliability/arq.py:389-396 | The estimator of each side is exactly what its log of unambiguous round trips and timeouts makes of its first state |
| `ArqHistory.EstimatesFollowTheWire` | photontcp/reliability/rto.py:103-135 | In every run, if the unambiguous round trips lie in a range, so does srtt, and the RTO in its bounds |
| `ArqHistory.SilenceIsBounded` | photontcp/reliability/arq.py:435-451 | Timeouts alone resend at most outstanding*max_retx packets and report failure at most once, exactly when the endpoint becomes failed |
| `ArqRepair.NackSendsTheHole` | photontcp/reliability/arq.py:402-413 | A NACK of the session that names a position in flight has exactly that chunk, with the payload emitted there, sent once more: one transmission at that time, its count raised by one, the rest of the window untouched; naming any other position sends nothing |
| `ArqRepair.HoleIsAskedFor` | photontcp/reliability/arq.py:357-369 | Data ahead of the next expected position draws an ACK and, exactly if that position was not asked for before and something is buffered behind it, a NACK for it |
| `ArqRepair.DrainIsExact` | photontcp/reliability/arq.py:336-343 | Draining takes exactly the unbroken run of buffered chunks and keeps every chunk behind the next gap |
| `ArqRepair.HoleIsRepaired` | photontcp/reliability/arq.py:332-413 | A lost chunk is repaired without any timer: later data, its NACK, the chunk again and its acknowledgement deliver it with all that waited right behind it, and take all of that out of flight |
| `ArqRepair.EveryHoleIsRepaired` | photontcp/reliability/arq.py:332-413 | So after any legal run from the start |
| `ArqTimers.TickIsSelective` | photontcp/reliability/arq.py:415-451 | A tick sends an entry again if and only if the endpoint is not failed, now - send_time >= rto, and no entry up to it that is due has spent its budget; the packets are exactly those entries', in order; SEND_FAILED exactly if a due entry has spent its budget; one back-off if something was sent again and nothing failed |
| `ArqTimers.EveryRepeatWasDue` | photontcp/reliability/arq.py:415-451 | In every run, whatever is transmitted again without a NACK for it comes at least the RTO of that moment after its last transmission |
| `ArqHeaders.EveryPacketHasItsHeader` | photontcp/reliability/arq.py:227-292 | Every packet a side ever sends is DATA, ACK or NACK of its session and stream with version 1, flags 0, 0 or 8, no payload but in DATA, and no more window than it has; over positions and over 32-bit serials |
| `ArqHeaders.RepliesSayWhereWeAre` | photontcp/reliability/arq.py:252-292 | The ACK, and the NACK if any, that answer data carry the next number to send, the next one expected and the free places, as they are after the data |
| `ArqHeaders.NewDataSaysNow` | photontcp/reliability/arq.py:227-242 | New data carries the next expected number and the free places of the moment |
| `ArqHeaders.EveryWindowIsKept` | photontcp/reliability/arq.py:211-225 | Flow control in every run: after new data is sent no more is in flight than the own window and the window the last ACK or NACK brought |
| `ArqHistory.RunKeepsSane` | photontcp/reliability/rto.py:103-135 | In every reachable state both RTOs lie in [min_rto, max_rto] and no estimate is negative |
| `Rto.HistoryStaysBounded` | photontcp/reliability/rto.py:103-135 | Over any history, srtt stays within the range of the samples and rto within its bounds |
| `RtoWeights.EstimatesAreWeightedSums` | photontcp/reliability/rto.py:118-124 | After any history, srtt is (7/8)^n times the old one plus the sum of 1/8 * (7/8)^(n-1-i) * r_i over its n round trips, and rttvar the same with 3/4 and 1/4 over the distances of each round trip from the average before it; timeouts change neither |
| `RtoWeights.EstimatesFromTheFirst` | photontcp/reliability/rto.py:115-124 | The first round trip r counts as srtt = r and rttvar = r / 2, whatever timeouts came before; the later ones are weighed as above |
| `RtoWeights.TimeoutAfterSample` | photontcp/reliability/rto.py:126-128 | After any history that ends in a round trip the RTO is srtt + 4 * rttvar, held between min_rto and max_rto |
| `RtoWeights.SteadyRoundTrips` | photontcp/reliability/rto.py:118-124 | n equal round trips shrink the error of srtt to (7/8)^n of what it was |
| `RtoWeights.SteadyRoundTripsCalm` | photontcp/reliability/rto.py:118-124 | Once srtt is exact, n equal round trips leave (3/4)^n of rttvar |
| `Rto.BackoffReachesCeiling` | photontcp/reliability/rto.py:130-135 | n timeouts multiply the RTO by 2^n up to max_rto and change nothing else |
| `Rto.RtoEstimator.OnSample` | photontcp/reliability/rto.py:103-128 | Raises exactly on negative samples, leaving the state alone; otherwise the step whose weights `RtoWeights` gives |
| `Rto.RtoEstimator.OnTimeout` | photontcp/reliability/rto.py:130-135 | Doubles the RTO up to the ceiling |
| `Rto.RtoEstimator.Clone` | photontcp/reliability/rto.py:79-91 | A new estimator with the same configuration, no samples and nothing shared |
| `ArqEngine.ArqEndpoint.Send` | photontcp/reliability/arq.py:295-315 | Updates the object exactly as the model's Send |
| `ArqEngine.ArqEndpoint.FlushPending` | photontcp/reliability/arq.py:244-250 | Updates the object exactly as the model's Flush |
| `ArqEngine.ArqEndpoint.OnData` | photontcp/reliability/arq.py:332-369 | For any serial number that arrives: exactly the model's OnData; buffered serials stay strictly inside the window |
| `ArqEngine.ArqEndpoint.LowestMissingSeq` | photontcp/reliability/arq.py:263-278 | The walk up from rcv_base finds rcv_base itself whenever anything is buffered, and nothing otherwise |
| `ArqEngine.ArqEndpoint.PruneNacked` | photontcp/reliability/arq.py:371-380 | Keeps exactly the records strictly ahead of rcv_base |
| `ArqEngine.ArqEndpoint.OnAck` | photontcp/reliability/arq.py:382-400 | Exactly the model's OnAck, the raising sample included |
| `ArqEngine.ArqEndpoint.OnNack` | photontcp/reliability/arq.py:402-413 | Exactly the model's OnNack, which `ArqRepair.NackSendsTheHole` describes |
| `ArqEngine.ArqEndpoint.OnTick` | photontcp/reliability/arq.py:415-451 | Exactly the model's OnTick, which `ArqTimers.TickIsSelective` describes |
| `ArqEngine.ArqEndpoint.OnPacket` | photontcp/reliability/arq.py:317-330 | Dispatch by type, foreign sessions ignored |
| `MuxPair.EveryStreamDeliversInOrder` | photontcp/stream/mux.py:162-245 | In every run of two muxes, each stream delivers a prefix of what the peer's endpoint of that stream emitted, and behaves as a stand-alone pair given that stream's inputs |
| `MuxPair.EveryWireStreamDeliversInOrder` | photontcp/stream/mux.py:162-245 | The same for the 32-bit muxes themselves, on every stream none of whose packets arrives 2^31 or more positions late; with fewer than 2^31 chunks each way none can |
| `MuxStreams.RunIsLaneRun` | photontcp/stream/mux.py:162-255 | A mux run projected on one stream is exactly the run of a stand-alone endpoint fed that stream's inputs: endpoint, packets and deliveries |
| `MuxStreams.StreamsAreIndependent` | photontcp/stream/mux.py:199-245 | Two runs that agree on one stream's inputs agree on all that stream does: a hole elsewhere delays nothing |
| `MuxStreams.StepShows` | photontcp/stream/mux.py:185-255 | One mux step is, for each stream, one endpoint step or none; failures are reported for exactly the failing stream |
| `MuxStreams.OpeningIsLowest` | photontcp/stream/mux.py:185-197 | open_stream hands out the lowest free id of this peer's parity |
| `MuxStreams.EveryOpeningIsLowest` | photontcp/stream/mux.py:185-197 | and does so after any run |
| `MuxStreams.OpenedIdsNeverCollide` | photontcp/stream/mux.py:185-197 | The two peers never open the same id |
| `Mux.ReactStores` | photontcp/stream/mux.py:162-183 | An endpoint speaks on its own stream only, whatever it is given |
| `MuxEngine.StreamMux.Endpoint` | photontcp/stream/mux.py:162-180 | An unseen stream gets a new endpoint and estimator shared with no other; a seen one keeps its own |
| `MuxEngine.StreamMux.OpenStream` | photontcp/stream/mux.py:185-197 | The loop finds the model's lowest free id and opens it |
| `MuxEngine.StreamMux.Send` | photontcp/stream/mux.py:199-207 | Updates the dictionary of objects exactly as the model |
| `MuxEngine.StreamMux.OnPacket` | photontcp/stream/mux.py:209-228 | Exactly the model's routing; control packets change nothing |
| `MuxEngine.StreamMux.OnTick` | photontcp/stream/mux.py:230-245 | Ticks every endpoint in dictionary order and joins their outputs |
| `MuxEngine.StreamMux.SetSessionId` | photontcp/stream/mux.py:247-255 | Renames the session in every endpoint and for later ones |
| `SessionPair.EveryStreamArrivesInOrder` | photontcp/session/session.py:235-518 | The whole stack: whatever two applications call and whatever the channel loses, repeats or reorders, from handshake to close, as long as each frame is understood or refused, what one application received on a stream is the beginning of what the other end emitted there, and emitted plus queued chunks are exactly the submitted ones |
| `SessionPair.EveryStreamSurvivesTheLink` | photontcp/session/session.py:235-518 | The same over a link that may hand over, any number of times, the frame of any packet sent, as it was, cut, lengthened, or damaged in up to four consecutive bytes |
| `SessionPair.LinkIsUnderstood` | photontcp/session/session.py:402-424 | Over such a link every frame decodes to a packet that was sent or is refused |
| `SessionPair.EveryStreamFollowsSubmission` | photontcp/session/session.py:235-518 | As long as no NACK opens a window over a queue, an application receives what the other one submitted on the stream, in that order |
| `SessionPair.StepReflects` | photontcp/session/session.py:235-518 | Seen from one stream, each call is one step of a stand-alone endpoint under the agreed session id, or none; before the id is agreed nothing is in flight |
| `SessionPair.RunReflects` | photontcp/session/session.py:360-518 | A run of two sessions is, on each stream, a legal run of two stand-alone 32-bit endpoints |
| `Session.EveryStreamIsKept` | photontcp/session/session.py:273-299 | For any calls in any order: per stream, everything returned followed by what is buffered is what a stand-alone endpoint given that stream's inputs delivers |
| `Session.DoKeepsStream` | photontcp/session/session.py:506-518 | On each stream a call gives out from the front of the buffer what it does not leave there |
| `Session.DoRunsMux` | photontcp/session/session.py:426-453 | The mux inside a session makes exactly the steps its calls name |
| `Session.ImpairedFramesAreIgnored` | photontcp/session/session.py:402-413 | A frame that was cut, lengthened or damaged by the link leaves the session exactly as it was |
| `Session.PlanesAreSeparate` | photontcp/session/session.py:433-453 | Control frames never touch streams or buffers; data frames reach the mux whatever the lifecycle state, and refresh its idle timer and nothing else |
| `SessionControl.EveryControlIsKept` | photontcp/session/session.py:360-453 | For any calls in any order: the machine inside the session, its events and its packets on the control stream are those of a stand-alone machine given connect, close, the control clock, each sound SYN, SYN_ACK, FIN, FIN_ACK or HEARTBEAT on stream 0 (ACK in SYN_RCVD only) and the activity of each sound data frame |
| `SessionControl.DoRunsMachine` | photontcp/session/session.py:426-453 | One call makes exactly that step of the machine, and sends its packets and then the mux's |
| `SessionControl.RaisesExactly` | photontcp/session/session.py:248-271 | A call raises exactly when it sends outside ESTABLISHED or takes a sound frame whose type byte is none of the eight, both changing nothing, or when the stream's own engine raises |
| `SessionLifecycle.SessionsAgree` | photontcp/session/session.py:235-518 | Two sessions over the whole stack, neither opened a second time: the accepting one is established only if the connecting one was, that one only if it was answered, both then under the proposed id; at most one sees the peer close first |
| `SessionLifecycle.SessionsCloseTogether` | photontcp/session/session.py:235-518 | When a frame closes one of them, the other has acknowledged its FIN and sent its own |
| `SessionLifecycle.RunMirrors` | photontcp/session/session.py:426-453 | Such a run of two sessions is a legal run of the two lifecycles |
| `Session.AcksOnlyOpen` | photontcp/session/session.py:438-444 | A control ACK changes anything if and only if a responder of that session is waiting for it |
| `SessionEngine.SessionDriver.Pump` | photontcp/session/session.py:360-424 | One pump is: align the session id, take the frames there are (up to the limit), run both timers; an escaping error stops it there |
| `SessionEngine.SessionDriver.SendOn` | photontcp/session/session.py:248-271 | Raises and changes nothing outside ESTABLISHED; otherwise the aligned mux sends |
| `SessionEngine.SessionDriver.RecvOn` | photontcp/session/session.py:273-287 | Returns and clears one stream's buffer |
| `SessionEngine.SessionDriver.RecvAll` | photontcp/session/session.py:289-299 | Returns and clears all buffers |
| `SessionEngine.SessionDriver.RoutePacket` | photontcp/session/session.py:426-453 | Exactly the model's routing, which `SessionControl` and `Session.DoRunsMux` describe |
| `LifecyclePair.HandshakeAgrees` | photontcp/session/state_machine.py:299-375 | Over a losing, repeating, reordering network: the responder is established only if the initiator was, the initiator only if the responder sent SYN_ACK, and both then hold the initiator's session id |
| `LifecycleHandshake.SynAckDrawsAck` | photontcp/session/state_machine.py:329-375 | Any machine answers a SYN_ACK with an ACK, of the fields given, if and only if it names the session and the machine is in SYN_SENT or ESTABLISHED |
| `LifecycleHandshake.LostHandshakeIsCuredIff` | photontcp/session/state_machine.py:299-375 | In every reachable state with the responder in SYN_RCVD: with everything in flight lost it can still become ESTABLISHED if and only if a copy of the SYN_ACK is left and the initiator is ESTABLISHED, or in SYN_SENT with a SYN left or the next SYN_ACK due before the idle time-out; otherwise it ends, if at all, with CONNECT_FAILED or TIMED_OUT |
| `LifecyclePair.EveryPacketIsLawful` | photontcp/session/state_machine.py:209-230 | Every control packet ever sent is one of six, every field fixed by the two initial sequence numbers and the proposed id |
| `LifecyclePair.EveryControlHeader` | photontcp/session/state_machine.py:209-230 | Every control packet ever sent is empty, on stream 0 of the session, with version 1, window 0 and flags 1, 3, 2, 4, 6 or 0 by its kind |
| `LifecyclePair.OnlyOneIsPassive` | photontcp/session/state_machine.py:378-398 | At most one side ever sees the peer close first; both are never in CLOSE_WAIT |
| `LifecyclePair.GracefulCloseIsShared` | photontcp/session/state_machine.py:400-432 | When a packet closes one side, the other has acknowledged its FIN and sent its own |
| `LifecycleLocal.EveryLifeIsOk` | photontcp/session/state_machine.py:232-502 | In one incarnation, whatever arrives: the pending packet is the one the state awaits, the close flags fit the state, events follow (ESTABLISHED PEER_CLOSED?)? then exactly one terminal event |
| `LifecycleLocal.PacketClosesOnlyAfterBothFins` | photontcp/session/state_machine.py:400-432 | A packet moves a machine to CLOSED only after its FIN was acknowledged and it acknowledged the peer's; CLOSED is surfaced last |
| `LifecycleLocal.StampsAreExact` | photontcp/session/state_machine.py:280-520 | last_recv moves exactly when the peer is heard, last_send exactly when something is sent |
| `LifecycleReopen.ClosesFairlyIffClear` | photontcp/session/state_machine.py:70-74 | When a closed machine is opened again, its next close waits for both FINs, whatever happens, if and only if neither flag of an earlier close is left set |
| `LifecycleReopen.GracefulCloseSpoilsTheNext` | photontcp/session/state_machine.py:400-432 | After any close by packet they are set, and a run of the next life is closed by one FIN_ACK alone |
| `LifecycleLocal.PassiveAcksOnce` | photontcp/session/state_machine.py:378-432 | The passive side acknowledges a FIN exactly once in its life, however many arrive |
| `LifecycleLoss.FinDrawsFinAck` | photontcp/session/state_machine.py:378-436 | Any machine answers a FIN with a FIN_ACK if and only if it names the session and the machine is ESTABLISHED or in FIN_WAIT; otherwise it only refreshes its idle timer |
| `LifecycleLoss.ClosedAnswersNothing` | photontcp/session/state_machine.py:299-345 | Until it is opened again, a closed machine sends nothing, whatever it is given |
| `LifecycleLoss.LostReplyIsCuredIff` | photontcp/session/state_machine.py:43-58 | In every reachable state in which a side waits for its FIN_ACK: with everything in flight lost it can still be acknowledged if and only if the peer is ESTABLISHED or in FIN_WAIT and a copy is left to send; otherwise it ends, if at all, with TIMED_OUT or CLOSED |
| `LifecycleLoss.ResendingInVain` | photontcp/session/state_machine.py:461-502 | Resending on time to a peer in CLOSE_WAIT or CLOSED, every copy arriving, ends with TIMED_OUT after the last copy if (copies left + 1) * control_rto comes before the idle time-out, with CLOSED if not |
| `LifecycleLoss.LonelyCloseEnds` | photontcp/session/state_machine.py:461-502 | For any tick times at least control_rto apart: TIMED_OUT if the tick after the last copy comes inside the idle time-out, CLOSED otherwise |
| `LifecycleLoss.LostFinAckIsNotCured` | photontcp/session/state_machine.py:378-432 | A legal run, for any settings: one FIN_ACK is lost, all max_control_retries + 2 copies of the FIN arrive, and the side that closed still gives up or goes idle |
| `LifecycleLoss.LastLostFinAckIsNotCured` | photontcp/session/state_machine.py:400-432 | Another: the last FIN_ACK is lost, the side that sent it is closed, and its peer resends in vain |
| `LifecycleLoss.LostFinAckByDefault` | photontcp/session/states.py:83-98 | With the default settings such a run ends with CLOSED |
| `LifecycleLoss.LostFinAckOptically` | photontcp/optical/peer.py:53-54 | With those of the optical peer it ends with TIMED_OUT after seven copies |
| `LifecycleSilence.SilenceEnds` | photontcp/session/state_machine.py:438-511 | Every machine that hears nothing more closes, by the retry limit where a packet is pending, by one idle time-out otherwise; one of the two always applies |
| `LifecycleSilence.GivesUpExactly` | photontcp/session/state_machine.py:478-511 | Exactly max_control_retries + 1 copies go out before the machine gives up, with the one event that tells the phase |
| `LifecycleSilence.ResendsAreBounded` | photontcp/session/state_machine.py:478-520 | Whatever the tick times, no more copies than that, and nothing else but heartbeats while established |
| `LifecycleSilence.IdleEnds` | photontcp/session/state_machine.py:461-476 | One tick at or after last_recv + idle_timeout closes any machine that ever heard anything |
| `LifecycleFifo.EveryCloseCompletes` | photontcp/session/state_machine.py:263-432 | Over a lossless ordered link, any interleaving of deliveries and close() calls makes at most ten effective moves, and at rest both sides are closed gracefully once either FIN was sent |
| `LifecycleFifo.StepKeepsLink` | photontcp/session/state_machine.py:345-432 | Each FIN is in flight or acknowledged, each FIN_ACK in flight or received; the handshake order is kept |
| `LifecycleFifo.StepLowersEnergy` | photontcp/session/state_machine.py:248-432 | Every effective move strictly lowers a measure of what is in flight and may still be set off |
| `LifecycleKeepAlive.HeartbeatsKeepBothAlive` | photontcp/session/state_machine.py:511-520 | Two established machines, each ticking at times of its own at least every gap, over a link that delivers in order within a delay, stay established and surface nothing, in every interleaving, provided heartbeat interval, gap and delay together stay within both idle time-outs |
| `LifecycleKeepAlive.BeyondTheBoundOneTimesOut` | photontcp/session/state_machine.py:461-476 | The bound is tight: beyond it, with a delay up to the gap, a legal run with nothing lost ends in TIMED_OUT |
| `LifecycleKeepAlive.DataKeepsAlive` | photontcp/session/state_machine.py:280-297 | A session that data reaches more often than the idle time-out stays established and surfaces nothing, without any control packet |
| `LifecycleKeepAlive.DataPostponesIdle` | photontcp/session/state_machine.py:280-297 | In ESTABLISHED, FIN_WAIT and CLOSE_WAIT data puts the idle time-out off by its full length; elsewhere it changes nothing |
| `LifecycleKeepAlive.TickInTouch` | photontcp/session/state_machine.py:511-520 | A tick in such a run sends one heartbeat exactly when one is due |
| `LifecycleKeepAlive.HandshakePutsInTouch` | photontcp/session/state_machine.py:248-375 | A handshake quicker than a heartbeat leaves both sides in that position |
| `LifecycleEngine.SessionStateMachine.Connect` | photontcp/session/state_machine.py:248-261 | Updates the object exactly as the model step |
| `LifecycleEngine.SessionStateMachine.Close` | photontcp/session/state_machine.py:263-278 | Updates the object exactly as the model step |
| `LifecycleEngine.SessionStateMachine.NoteActivity` | photontcp/session/state_machine.py:280-297 | Refreshes the idle timer in the three open states only |
| `LifecycleEngine.SessionStateMachine.OnPacket` | photontcp/session/state_machine.py:299-436 | Updates the object exactly as the model step, whose replies `LifecycleHandshake.SynAckDrawsAck` and `LifecycleLoss.FinDrawsFinAck` pin down |
| `LifecycleEngine.SessionStateMachine.OnTick` | photontcp/session/state_machine.py:438-520 | Updates the object exactly as the model step |
| `Header.RoundTrip` | photontcp/packet/header.py:91-195 | A frame decodes to a packet if and only if that packet encodes to it |
| `Header.EncodesInRange` | photontcp/packet/header.py:91-133 | Exactly the packets whose fields fit can be encoded, and each decodes to itself |
| `Header.FieldsOnTheWire` | photontcp/packet/header.py:40-50 | Byte by byte: which offset holds which field, and the number of each packet type |
| `Header.DamageIsRejected` | photontcp/packet/header.py:152-182 | Damage to up to four consecutive bytes all before or all behind the checksum field, or any damage inside the length and checksum fields, is rejected |
| `Header.WrongLengthIsRejected` | photontcp/packet/header.py:152-170 | So is a packed frame with bytes missing at its end or added to it |
| `Header.ArrivesSoundOrNotAtAll` | photontcp/packet/header.py:136-195 | Whatever arrives over a link that damages, cuts or lengthens frames decodes to a packet that was sent, or is rejected |
| `Header.CorruptionIsRejected` | photontcp/channel/loopback.py:149-162 | XORing any byte of any packed frame with any non-zero mask makes decoding reject it |
| `Crc.BurstsAreDetected` | photontcp/packet/crc.py:19-32 | Strings that differ only inside four consecutive bytes have different CRC-32s |
| `Crc.StandardCheckValue` | photontcp/packet/crc.py:19-32 | The bit-level definition gives the standard check value 0xCBF43926 for the digits 1 to 9 |
| `Scanning.ScanIsIncremental` | photontcp/app/file_codec.py:189-241 | Feeding a then b gives the frames, residue and error of feeding a ++ b, whether or not it raises |
| `Scanning.SplitDoesNotMatter` | photontcp/app/file_codec.py:174-241 | However a stream is cut into feeds, frames and error are those of the whole stream |
| `Scanning.PrefixScans` | photontcp/app/file_codec.py:189-241 | A prefix of a frame stream yields a prefix of the frames and leaves exactly the rest |
| `Scanning.Reassembler.Feed` | photontcp/app/file_codec.py:189-241 | The consuming loop returns the scan of buffer and data and keeps its residue; where it raises, found frames are lost and the buffer starts at the bad one |
| `Framing.FileFramesRoundTrip` | photontcp/app/file_codec.py:103-126 | Any list of file frames, cut anywhere, comes back whole and in order with nothing left |
| `Framing.FileFramesOnTheWire` | photontcp/app/file_codec.py:103-126 | Length, type number and body at their offsets; a frame encodes exactly if its body is below 16 MiB |
| `Framing.FileFrameErrors` | photontcp/app/file_codec.py:189-241 | Refused exactly: a length of 0 or above 16 MiB as soon as it is there, and an unknown type once the frame is complete; waited for exactly while bytes are missing |
| `Framing.MessagesOnTheWire` | photontcp/app/codec.py:59-100 | A message is its big-endian length and its text, at most 1 MiB |
| `Framing.MessageErrors` | photontcp/app/codec.py:140-179 | Refused exactly: a length above 1 MiB as soon as it is there, and text that does not read once it is complete |
| `Framing.MessagesRoundTrip` | photontcp/app/codec.py:59-179 | The same for chat messages, given that JSON text reads back as written |
| `Framing.MoreBytesSameFront` | photontcp/app/codec.py:140-179 | More bytes never change a frame that was read, nor an error |
| `FileHandshake.VerdictIsShared` | photontcp/app/file.py:261-523 | For every file, chunk size, cutting of the streams and reading of the offer: nothing raises; a complete sender has a complete receiver with exactly the data, a failed one a failed receiver; with nothing under way both are COMPLETE if the offer reads with the data's digest, and both FAILED otherwise |
| `FileHandshake.CompletionIsMutual` | photontcp/app/file.py:261-523 | When offers read back as written neither end ever fails, the receiver only ever holds a prefix of the file, and with nothing under way both are COMPLETE |
| `FileHandshake.ToReceiverKeeps` | photontcp/app/file.py:436-523 | Delivering any piece moves the receiver along the sender's frames and puts exactly the due replies under way |
| `FileHandshake.ToSenderKeeps` | photontcp/app/file.py:261-303 | Delivering any piece moves the sender along the replies and puts exactly the due frames under way |
| `FileTransfer.AcceptedSenderRaises` | photontcp/app/file.py:281-303 | An accepted sender raises if and only if its longest chunk plus the type byte exceeds the frame limit; it then sends no chunk and stays in SENDING |
| `FileTransfer.FileSender.SendAllChunksAndDone` | photontcp/app/file.py:281-303 | The offset loop sends exactly the encoded chunks in order, then DONE, up to the first that does not fit |
| `FileTransfer.FileSender.HandleFrame` | photontcp/app/file.py:261-279 | Exactly the model step of the sender |
| `FileTransfer.FileSender.Begin` | photontcp/app/file.py:214-238 | Queues the offer once; raises otherwise, leaving the state alone |
| `FileTransfer.FileSender.Take` | photontcp/app/file.py:254-259 | One delivered piece: reassembled, then handled frame by frame |
| `FileTransfer.FileReceiver.HandleFrame` | photontcp/app/file.py:436-469 | Exactly the model step of the receiver |
| `FileTransfer.FileReceiver.HandleDone` | photontcp/app/file.py:507-523 | Verifies the digest, replies accordingly and ends |
| `FileTransfer.FileReceiver.Take` | photontcp/app/file.py:429-434 | One delivered piece: reassembled, then handled frame by frame |
| `Optical.ExactlyOnceIffSeenLately` | photontcp/optical/channel.py:423-456 | While the window spans less than 65536 sends, each captured frame enters the inbox exactly once in first-capture order, if and only if no frame is captured again after eight others |
| `Optical.EveryFilmedPacketOnce` | photontcp/optical/channel.py:402-456 | The whole capture loop on any images, blank, garbled or repeated: the inbox is the captured packets once each |
| `Optical.IdentitySkipIsInvisible` | photontcp/optical/channel.py:429-433 | Skipping an array already decoded changes nothing |
| `Optical.LookAllKeepsMirror` | photontcp/optical/channel.py:418-456 | The set always holds exactly the frames of the bounded queue, none twice |
| `Optical.FramesAreNumbered` | photontcp/optical/channel.py:350-377 | The i-th frame shown carries i modulo 65536 |
| `Optical.NonceOnTheWire` | photontcp/optical/channel.py:350-377 | The nonce is that number in two big-endian bytes in front of the frame |
| `Optical.RemembersLastEight` | photontcp/optical/channel.py:434-456 | What is remembered for comparison is exactly the last eight frames let in |
| `Optical.OpticalChannel.SendFrame` | photontcp/optical/channel.py:325-377 | Shows nonce and frame and advances the nonce; a closed channel shows nothing; a frame that does not fit raises and uses up no nonce |
| `Optical.OpticalChannel.CaptureLoop` | photontcp/optical/channel.py:402-456 | The loop with queue and set leaves exactly the model's inbox |
| `KivyDevices.EveryShownFrameIsRenderedOrSuperseded` | photontcp/mobile/kivy_devices.py:222-315 | Under every interleaving: callbacks never pile up, a frame stored on an open display is taken, replaced by a newer one or waits with a render on the way, and at rest the newest frame is drawn |
| `KivyDevices.DisplayStepKeeps` | photontcp/mobile/kivy_devices.py:240-304 | The scheduled flag is set exactly when one callback is owed or queued |
| `KivyDevices.ReadsNeverWakeStale` | photontcp/mobile/kivy_devices.py:396-501 | Under every interleaving with one reader: while open, the event is set exactly when a frame waits, a read it wakes takes the newest frame, frames come back in order, and close leaves no read blocked |
| `KivyDevices.CameraStepKeeps` | photontcp/mobile/kivy_devices.py:416-524 | The camera invariant is kept by every lock section and every unlocked step |
| `Loopback.SlotNeverReorders` | photontcp/channel/loopback.py:186-210 | Whatever the draws, what the partner gets followed by what is held is every surviving copy in sending order |
| `Loopback.LoopbackChannel.SendFrame` | photontcp/channel/loopback.py:164-210 | The given frame, or its one damaged image, passes the slot exactly as in the model step; a closed channel discards |
| `Loopback.LinkDelivers` | photontcp/channel/loopback.py:149-210 | Whatever the draws, every frame the partner is given decodes to a packet that was sent, or is rejected |

## Left out

- Floats: RTO arithmetic and clocks are over reals; rounding is not modelled.
- JSON, UTF-8 and SHA-256: functions given as parameters; reading back what was written is assumed, collisions play no part.
- QR encoding and decoding, image arrays, OpenCV, the Kivy widget tree: an image is an identity and the bytes it decodes to, if any.
- Random draws of the loopback link: free choices of the network; its latency and jitter are accepted and ignored by the source too.
- A second incarnation: the statements about two lifecycles and two sessions are about the first one, as the flags of a close outlive it (`LifecycleReopen`).
- Channel output: a session gives out packets, and encoding them (which can raise on fields out of range) is `Header.Pack` on its own.
- SessionEngine.SessionDriver.Pump: the frames available and the clock readings are arguments; the channel and the clock are not objects here.
- FileTransfer.FileSender.Take: what is handed to `send_on` is a result, so the error `send_on` raises outside ESTABLISHED does not show here; `SessionEngine.SessionDriver.SendOn` states it.
- FileReceiver without automatic acceptance: it stays idle after an offer; only its steps are modelled.
- KivyDevices.ReadsNeverWakeStale: one reading thread, as the channel has; with two readers one may take the frame that woke the other. The image returned again when nothing new came is not modelled.
- Locks themselves, the lazy start of the capture thread and the display's hold time.
- LifecycleFifo.EveryCloseCompletes: timers are not part of that link, where the source expects every reply before a retransmission is due (photontcp/session/state_machine.py:62-64); the runs of `LifecyclePair` and `LifecycleLoss` include them.
- MuxPair.EveryStreamDeliversInOrder: both muxes already share the session id; `SessionPair` includes its adoption.
- SessionPair.EveryStreamArrivesInOrder: beyond 2^31 chunks per stream and direction a packet 2^31 or more positions late must not arrive, as the source's serial numbers need; applications do not send on stream 0, which its documentation excludes.
- Progress of a whole session: proved for endpoints and muxes; the frames and the handshake around them are in `SessionPair`, for safety only.
- Chat facade, peer driver, build and version scripts, examples: thin wrappers over what is modelled.
