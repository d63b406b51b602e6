# KNS, modelled and proved

KNS simulates packet networks event by event: links that carry one transmission at a time, shortest-path routing,
and TCP sessions with reassembly, retransmission and congestion control. This project models that behaviour in Dafny
and proves what it promises. Verify it with `dafny verify dfyconfig.toml`.

The files, by subject:

- **Shared.** `Common` (an optional value, the first of a list, smaller and larger), `Wire` (a link's fixed part),
  `Word32`, `Arithmetic`.
- **One TCP session.** `Connection` gives each operation of an endpoint as a function on its whole state, over the
  parts in `TcpState`, `SendBuffer`, `ReceiveBuffer`, `RetransmissionTimer` and `CongestionControl`. `Session` puts two
  endpoints, the packets under way and the timed events together over a network with fixed routing tables; a run is a
  sequence of choices of what each hop does with a packet and which numbers are drawn. `TcpConnection` and
  `TcpSession` are the same as objects updated in place, each method proved to reach the specified state.
- **What holds of every session.** `SessionStream` numbers the pieces of a stream modulo 2^32 and `SessionSafety` keeps
  the invariant; `SessionResults` draws the conclusions (the server reads a prefix, the client stores what is not
  acknowledged, the handshake agrees). `SessionWaves`, `SessionFilling` and `SessionStore` show that nothing is sent
  twice while traffic is generated, and `SessionWindow` what the receiver's window therefore admits. `SessionKarn` has
  the resend cap and Karn's rule, `SessionDrain` the bound on events, `SessionClock` their order in time,
  `SessionTraffic` and `SessionBurst` when the traffic ends and how much of it gets out, and `SessionClosing`,
  `SessionLastAck` and `SessionGivenUp` how the two ends close and what the server reads meanwhile; `SessionReplies` has
  what an end answers, `SessionHistory` ties the client's timer and window to the events of the run, `SessionBackoff`
  says when it sends again, and `SessionDuplicates` when it does so early. `Reassembly` describes the stream as consecutive pieces.
- **Sessions in the engine.** `SessionDeeds` lists what each event body asks of the engine, `Simulation` (module
  `Simulations`) ties the engine's queue to those of its sessions through a ledger of events, `SimulationRuns` runs both
  side by side, `SimulationResults` says what holds of whole simulations, and `SimulationOrder` that their links keep every
  session's packets in order, from which `SessionOrder` concludes that no SYN outlives the handshake.
- **Runs that exist.** `SessionPath` follows the handshake over two links that take time, `SessionBatch` a batch of
  segments; `SessionWitness` has runs in which data gets through and runs in which wrapped numbers are refused,
  `SessionLostAck` one that strands the client in CLOSING, and `SessionStranded` one that strands a segment.
- **Routing.** `PathAlgebra` states the laws of path costs, `Dijkstra` proves the lazy-deletion search over them for
  all metrics, `RouteMeaning` says what the distances mean in plain numbers, `RoutingTable` has the next hops, `Forwarding`
  hop-by-hop delivery with one table per node, and `LoopFreedom` shows that tables built by separate searches never send a packet round in circles.
- **Engine, links, topology.** `Link` and `Topology` are the objects; `EventQueue` the ordered queue; `Engine` gives
  sending, releasing, forwarding by the tables and topology changes as functions on the engine's state, `EngineSafety`
  their invariant, `EngineRuns`, `EngineCapacity` and `EngineRoutes` what follows for every run, and `SimulationEngine`
  the object that drives the others.

Conventions. Sequence numbers are 32-bit words and wrap wherever the code lets them; comparisons are the code's plain
unsigned ones. Times, delays and bandwidths are exact reals, with an explicit infinity for path costs. Random drops,
the initial sequence number, payload bytes and packet sizes are inputs of a step; for a session alone, so is what the
network does with a packet, which in a simulation is what the engine's links do; so are, in the engine's
specification, the tables a rebuild computes, which the object computes itself. A priority queue is the
sorted list of its contents. History (the stream queued, the transmissions made, the events executed) is carried along
to be spoken about and never read by an operation.

Where KNS's own design documents and its code differ, the code is modelled: the documents still call retransmission,
delayed acknowledgement, fast retransmit and congestion control planned, and the code has them.

Results that say where a promise stops: reassembly is independent of arrival order only when the capacity holds every
piece that fits it (`Reassembly.OrderIndependentIff`); one window of acknowledgements adds one segment only while
cwnd/mss ≤ mss (`CongestionControl.OneSegmentPerRoundTrip`); past the top of the sequence space an acknowledgement of
everything in flight is refused (`Connection.WholeFlightAcknowledgedIff`, reached by `SessionWitness.FirstAckAcceptedIff`)
and so is a wrapped segment whose predecessor was lost (`SessionWindow.MissingAdmittedIff`, reached by
`SessionWitness.AfterLossAdmittedIff`); events run out of order when one is queued later than it was built and behind
what has run (`EngineRuns.EventsRunInOrder`, reached by `EngineRuns.PastFailureBreaksOrder`); a forwarded packet that is
dropped counts as two losses (`EngineRuns.ForwardedDropCountsTwice`); one segment refused by the window or the network
ends a session's traffic unfinished (`SessionTraffic.RefusalIsFinal`), so over links that take time no session sends more
than one window (`SessionBurst.AllSentIff`); a stored segment is neither sent again nor given up once the network has
refused its resend and no other timer of it waits (`SessionBackoff.StepGuardsIff`, reached by
`SessionStranded.RefusedResendStrands`); a close never completes when the server's FIN reaches the client before the
acknowledgement of its own (`SessionClosing.CloseCompletesIff`, reached by `SessionLostAck.LostAckStrands`); a segment
size of 2^31 can leave a window of zero (`CongestionControl.RecoveryEndsAtZeroIff`).

## Model

| member | source | states |
|---|---|---|
| `SessionResults.ServerReadsPrefix` | core/src/network/transport/tcp/TCPConnection.cpp:300-411 | In every run of a session over a losing, reordering network and for every initial number, while the client is established: SND.UNA, RCV.NXT and SND.NXT are the 32-bit numbers of pieces j ≤ k ≤ n of the client's stream, and the bytes the server handed over are exactly the first k pieces |
| `SessionResults.ServerReadsPlainPrefix` | core/src/network/transport/tcp/TCPConnection.cpp:300-411 | The same in plain integers when the stream fits below 2^32: SND.UNA ≤ RCV.NXT ≤ SND.NXT, and the bytes handed over are the stream up to RCV.NXT |
| `SessionResults.HandshakeAgreement` | core/src/network/transport/tcp/TCPConnection.cpp:221-335 | In every run, under loss, reordering and SYN retransmission: when both ends are established and no data was sent, each expects exactly the number the other sends next, modulo 2^32 |
| `SessionWindow.MissingAdmittedIff` | core/src/network/transport/tcp/buffer/TCPReceiveBuffer.cpp:8-35 | In every run, for every initial number: a piece the server has neither handed over nor stored is admitted exactly when its 32-bit number is not below RCV.NXT, which fails exactly when the piece, and not yet RCV.NXT, lies past 2^32; there is always room for it |
| `SessionFilling.FillingStep` | core/src/engine/events/PacketGenerationEvent.cpp:26-121 | Every event while the traffic is generated keeps the invariant or ends the generation: all segments are generated at one instant, at most one acknowledgement reaches the client between two of them, so no timer and no fast retransmission sends anything twice, and every piece under way or stored is one the server has not handed over |
| `SessionWindow.WindowNeverRejects` | core/src/network/transport/tcp/TCPConnection.cpp:605-640 | Below 2^32 the window test admits every segment of the stream neither handed over nor stored, and refuses exactly the others, so out-of-order data never blocks the missing segment |
| `SessionResults.ClientCoversFlight` | core/src/network/transport/tcp/TCPConnection.cpp:542-585 | In every run, for every initial number, the client stores exactly the pieces from SND.UNA to SND.NXT, at most a window of them, and SND.UNA never passes 2^32; below it the buffer is a chain of plain numbers |
| `SessionSafety.StepKeepsInv` | core/src/engine/events/PacketReceivedEvent.cpp:61-418 | Every event body keeps the phase invariant (not started, opening, open, over) on which the session results rest |
| `SessionPath.HandshakeCompletes` | core/src/engine/events/PacketReceivedEvent.cpp:136-216 | Over two links that take time and carry one packet at a time each way, some run establishes both ends in six hops, for every initial number |
| `SessionBatch.BatchLeaves` | core/src/engine/events/PacketGenerationEvent.cpp:26-121 | Over such a path up to twenty equal segments that fit the window leave at one instant and follow one another over the first link |
| `SessionWitness.FirstDataArrives` | core/src/engine/events/PacketReceivedEvent.cpp:260-364 | Over such a path, for every initial number and every first payload that fits the window, some run hands exactly that payload over |
| `SessionWitness.FirstAckAcceptedIff` | core/src/network/transport/tcp/TCPConnection.cpp:355-370 | When the network takes only the first payload and that arrives, the acknowledgement that comes back is accepted, and empties the send buffer, exactly when the payload ends below 2^32; otherwise the client refuses it and keeps the payload |
| `SessionWitness.AckRefusedAtTheTop` | core/src/network/transport/tcp/TCPConnection.cpp:355-370 | Initial number 2^32 - 2 and two bytes over such a path: SND.UNA is 2^32 - 1, SND.NXT is 1, and the acknowledgement 1 is refused |
| `SessionWitness.AfterLossAdmittedIff` | core/src/network/transport/tcp/buffer/TCPReceiveBuffer.cpp:8-18 | Two equal segments leave and the relay loses the first: the second is stored exactly when its number has not wrapped; otherwise the server refuses a piece it does not have |
| `SessionWitness.LineIsRelayed` | core/src/network/Routing.cpp:132-144 | Under hop count, tables lead over a relay that is the only neighbour of both ends, so the runs above exist over real tables |
| `SessionDuplicates.DuplicatesAreCounted` | core/src/network/transport/tcp/TCPConnection.cpp:379-396 | In every run the loss detector of an established end has counted exactly the acknowledgements that repeated its SND.UNA since SND.UNA or SND.NXT last moved, counting anew after every third |
| `SessionDuplicates.ThirdResends` | core/src/engine/events/PacketReceivedEvent.cpp:216-233 | In every run an event puts one fast retransmission into the queue if it is the third such repetition, and none otherwise |
| `SessionDuplicates.DueResendGoesOut` | core/src/engine/events/TCPFastRetransmitEvent.cpp:24-150 | A resend that runs with resends left, the oldest stored segment for a fast one, puts the segment as it was stored on its way if the network takes it, arms its timer and is remembered in its entry |
| `SessionHistory.TimerFollowsHistory` | core/src/network/transport/tcp/TCPConnection.cpp:689-702 | In every run the client's timer is what its own operations make of a history read off the run: a time-out for each time-out of the oldest segment with resends left, a sample for each acknowledgement that advances SND.UNA over a segment sent once, a reset when the connection is given up |
| `SessionHistory.WindowFollowsHistory` | core/src/engine/events/PacketReceivedEvent.cpp:180-191 | In every run the client's congestion window is what the controller's calls make of such a history: what is acknowledged, duplicates, losses, fast retransmissions |
| `SessionBackoff.TimersBackOff` | core/src/engine/events/PacketReceivedEvent.cpp:192-207 | In every run a retransmission timer is set for min(60, rto 2^min(k, 6)) from now: rto estimated from the samples so far, k the time-outs of the oldest segment since the last sample |
| `SessionBackoff.OldestIsGuarded` | core/src/engine/events/TCPTimeoutEvent.cpp:23-82 | In every run in which the network refuses no resend, the oldest stored segment of an established client has its timer or its resend waiting |
| `SessionBackoff.StepGuardsIff` | core/src/engine/events/TCPRetransmissionEvent.cpp:26-136 | A step leaves the oldest segment without either exactly if its resend is due, the network refuses it and no other timer of it waits |
| `SessionStranded.RefusedResendStrands` | core/src/engine/events/TCPRetransmissionEvent.cpp:26-136 | For every initial number and any first payload that fits the window, in some run over a path of two links the relay loses the only segment, the client's own link refuses its resend, and nothing waits any more: the segment stays stored and its connection established whatever follows |
| `SessionBackoff.SynGoesOut` | core/src/engine/events/TCPHandshakeTimeoutEvent.cpp:23-74 | A SYN, first or again under the same number, goes on its way if the network takes it, and its timer fires a second later |
| `SessionBackoff.AtMostSixSyns` | core/src/engine/events/TCPHandshakeTimeoutEvent.cpp:23-74 | In every run the SYN is offered to the network at most 1 + 5 times |
| `SessionGivenUp.GivenUpForGood` | core/src/network/transport/tcp/TCPConnection.cpp:807-828 | In every run a connection given up for want of resends is closed with nothing stored and a timer as new, and never stores or sends a segment again |
| `SessionReplies.FinIsAcknowledged` | core/src/engine/events/PacketReceivedEvent.cpp:370-393 | An end that takes a FIN sends exactly the acknowledgement the sender of the FIN waits for |
| `SessionReplies.FinIsAnswered` | core/src/engine/events/PacketReceivedEvent.cpp:393-407 | An established end that takes a FIN sends its own at once and waits in LAST_ACK for the number that closes it |
| `SessionReplies.DataIsAcknowledged` | core/src/engine/events/PacketReceivedEvent.cpp:260-364 | An end that takes a segment acknowledges the number it then expects: 0.2 later if the segment was the next one and no acknowledgement is being put off, and at once otherwise |
| `SessionReplies.DelayedAckGoesIff` | core/src/engine/events/TCPDelayedAckEvent.cpp:23-101 | An acknowledgement that was put off goes out exactly if its end is still established, still owes one and has expected no other number since |
| `SessionLastAck.LastAckClosesIff` | core/include/network/transport/tcp/TCPStateMachine.hpp:69-81 | A server in LAST_ACK is closed by an acknowledgement of its FIN and by nothing else, and is closed at every moment from then on if and only if no SYN reaches it |
| `SessionLastAck.ServerClosesForGood` | core/include/network/transport/tcp/TCPStateMachine.hpp:69-81 | In every run, once no copy of the SYN is under way, a server in LAST_ACK that takes the acknowledgement of its FIN is closed from then on, whatever follows |
| `SessionLastAck.EntersTimed` | core/src/engine/events/PacketReceivedEvent.cpp:370-391 | A client enters TIME_WAIT with its last timer set for 0.1 from then |
| `SessionLastAck.TimeWaitEnds` | core/src/engine/events/PacketReceivedEvent.cpp:370-391 | In every run a client in TIME_WAIT has its last timer waiting, so it is closed by the time nothing waits |
| `SessionClosing.CloseCompletesIff` | core/include/network/transport/tcp/TCPStateMachine.hpp:69-108 | In every run a client that has sent its FIN gets to TIME_WAIT, in whatever follows, if and only if the acknowledgement of that FIN reaches it before the server's FIN, that FIN reaches it too, and no retransmission fails before; it stands in CLOSING if and only if the FIN came first and none has failed |
| `SessionClosing.ClosingIsFinal` | core/include/network/transport/tcp/TCPStateMachine.hpp:83-117 | In every continuation a client in CLOSING stays there, unless a retransmission fails and closes it |
| `SessionLostAck.LostAckStrands` | core/src/engine/events/PacketReceivedEvent.cpp:370-411 | For every initial number and any twenty equal segments that fit the window, a run in which the first link drops the server's acknowledgement of the FIN and carries the server's own FIN leaves the client in CLOSING for good |
| `SessionClosing.ServerReadsOn` | core/src/network/transport/tcp/TCPConnection.cpp:605-640 | Whatever becomes of the client, a FIN or a failure, for as long as the server stays established what it has handed over is a prefix of the stream and RCV.NXT the number of the next piece |
| `SessionKarn.AtMostFiveResends` | core/src/network/transport/tcp/TCPConnection.cpp:798-805 | In every run, for every initial number, no segment is put on the wire more than 1 + 5 times, time-outs and fast retransmissions together |
| `SessionKarn.KarnsRule` | core/src/network/transport/tcp/buffer/TCPSendBuffer.cpp:112-153 | In every run, a sample reaching the client's estimator is the time since the transmission of a segment that the arriving acknowledgement covers, that was sent exactly once, and that no continuation of the run sends again (RFC 6298 section 3) |
| `SessionDrain.EveryEventDrains` | core/src/engine/events/TCPTimeoutEvent.cpp:23-82 | A natural number, counting unsent packets, unused resends, hops to go by the routing tables and pending timers, strictly decreases at every event of a session |
| `SessionDrain.SessionsAreBounded` | core/src/engine/events/PacketGenerationEvent.cpp:26-121 | Over the tables built for any network of n nodes and any metric a session executes at most 1196 + 315 (n - 2) events, whatever is lost or delayed, and it can go no further exactly when its queue is empty |
| `SessionTraffic.RefusalIsFinal` | core/src/engine/events/PacketGenerationEvent.cpp:31-120 | In every run, a due generation either sends its segment or, if an end is not established, the window has no room or the network refuses the segment, ends the traffic for good: in no continuation is another segment sent or the connection closed, because only a successful generation schedules the next |
| `SessionBurst.AllSentIff` | core/src/engine/events/PacketGenerationEvent.cpp:43-120 | In every run in which packets take time and all segments have one size, no more than one window is ever sent, and all twenty segments get out if and only if they fit the window together and the client's own link refuses none |
| `SessionClock.SessionRunsInOrder` | core/src/engine/core/SimulationEngine.cpp:107-133 | A session's events run strictly in the order of time and identifier, nothing is ever due in the past, and the clock never goes back |
| `SessionClock.BodiesScheduleAhead` | core/src/engine/events/PacketReceivedEvent.cpp:190-258 | Every event body schedules at or after the time it runs, under a new identifier, so nothing it sets off comes before what has run |
| `SessionClock.TimerTakesTime` | core/src/network/transport/tcp/timer/RTOManager.cpp:7-13 | No retransmission timer expires sooner than 0.2 or later than 60 |
| `SimulationResults.SimulationsSplit` | core/src/engine/core/SimulationEngine.cpp:119-133 | A simulation started on any network with connections between any nodes is a run of the engine in which every session makes a run of its own, with what the engine's links do with its packets as its choices; each session's queue is its part of the engine's |
| `SimulationResults.ServersReadPrefixes` | core/src/network/transport/tcp/TCPConnection.cpp:300-411 | So in every simulation, while a client is established, its server has handed over exactly the first pieces of the client's stream |
| `SimulationResults.SimulationsDrain` | core/src/engine/core/SimulationEngine.cpp:119-133 | On a network of n nodes that does not change, a simulation of m connections runs at most m (1196 + 315 (n - 2)) events, whatever is dropped, and stops exactly when the engine's queue is empty |
| `SimulationResults.PacketsKeepOrder` | core/src/engine/core/SimulationEngine.cpp:174-235 | Of two packets of a session under way on one link in one direction, the one its session sent first comes first in its queue |
| `SimulationResults.OpeningTied` | core/src/engine/core/SimulationEngine.cpp:376-380 | Connections started one after another put exactly their first events into the engine's queue, 0.05 apart |
| `SimulationRuns.TurnKeepsTied` | core/src/engine/events/PacketReceivedEvent.cpp:61-81 | When the engine runs an event and its session runs the body, every session's queue is again its part of the engine's: forwarding is the session's next hop, and the body's packets and timers are the engine's sends and events |
| `SimulationOrder.SessionsKeepOrder` | core/src/engine/core/SimulationEngine.cpp:174-235 | In every simulation, of two packets of a session for the same end on their way to the same node, the one sent first arrives first, because all of them travel the one road of the tables |
| `SimulationOrder.ServersCloseForGood` | core/include/network/transport/tcp/TCPStateMachine.hpp:69-81 | In every simulation a server in LAST_ACK waits for the acknowledgement of its FIN and is closed from then on, whatever its session does next |
| `SessionOrder.NoSynOnceMet` | core/src/network/transport/tcp/TCPConnection.cpp:221-298 | In every run over a network that keeps order, no packet of the client gets past a SYN, so no SYN is under way once the server is established |
| `SessionDeeds.BodiesSendFromHome` | core/src/network/utils/PacketUtils.cpp:5-35 | What a body sends starts at the end that sends it, and no timer brings a packet |
| `SessionDeeds.BodiesAreDeeds` | core/src/engine/events/PacketReceivedEvent.cpp:136-411 | Every event body leaves exactly the queue that sending the packets and setting the timers listed for it leads to, whatever becomes of each packet |
| `SessionDeeds.DeedsWant` | core/src/engine/events/PacketReceivedEvent.cpp:370-411 | What a body sends, at most two packets, is settled before the network is asked |
| `EngineRuns.NothingOvertakes` | core/src/engine/core/SimulationEngine.cpp:174-235 | In every run, under any topology changes, packets over one link in one direction arrive in the order they were sent |
| `TcpSessions.TcpSession.HandshakeEvent` | core/src/engine/events/TCPHandshakeEvent.cpp:26-75 | The SYN, and its timer only if the network took it |
| `TcpSessions.TcpSession.HandshakeTimeoutEvent` | core/src/engine/events/TCPHandshakeTimeoutEvent.cpp:23-74 | Another SYN while SYN_SENT and retries remain |
| `TcpSessions.TcpSession.SynReceived` | core/src/engine/events/PacketReceivedEvent.cpp:136-156 | State change and SYN-ACK, or nothing |
| `TcpSessions.TcpSession.SynAckReceived` | core/src/engine/events/PacketReceivedEvent.cpp:158-178 | The client established and acknowledging, whichever end the packet reached |
| `TcpSessions.TcpSession.AckReceived` | core/src/engine/events/PacketReceivedEvent.cpp:180-258 | Acknowledgement, timer re-armed for the oldest segment, fast retransmission, start and close of traffic |
| `TcpSessions.TcpSession.DataReceived` | core/src/engine/events/PacketReceivedEvent.cpp:260-364 | In-order data delays its acknowledgement once; out-of-order or second data is acknowledged at once; refused data not at all |
| `TcpSessions.TcpSession.FinReceived` | core/src/engine/events/PacketReceivedEvent.cpp:370-411 | Acknowledgement of the FIN, the TIME_WAIT timer, and the receiver's own FIN |
| `TcpSessions.TcpSession.PacketGenerationEvent` | core/src/engine/events/PacketGenerationEvent.cpp:26-121 | Window-gated sending: network first, store after, timer for the first outstanding segment |
| `TcpSessions.TcpSession.DelayedAckEvent` | core/src/engine/events/TCPDelayedAckEvent.cpp:23-101 | The delayed acknowledgement, unless RCV.NXT has moved |
| `TcpSessions.TcpSession.TimeoutEvent` | core/src/engine/events/TCPTimeoutEvent.cpp:23-82 | Only the oldest segment times out; at the cap the connection fails |
| `TcpSessions.TcpSession.RetransmissionEvent` | core/src/engine/events/TCPRetransmissionEvent.cpp:26-136 | The stored segment marked, sent and its timer re-armed |
| `TcpSessions.TcpSession.FastRetransmitEvent` | core/src/engine/events/TCPFastRetransmitEvent.cpp:24-150 | The oldest segment resent and the window cut |
| `TcpSessions.TcpSession.CloseEvent` | core/src/engine/events/TCPConnectionCloseEvent.cpp:17-63 | The client's FIN |
| `TcpSessions.TcpSession.ProcessEvent` | core/src/engine/core/SimulationEngine.cpp:119-133 | The head of the queue, run at its time on the objects, is one step of the specified session, so the run theorems hold of the objects |
| `Connection.SendBufferCoversFlight` | core/src/network/transport/tcp/TCPConnection.cpp:713-752 | For any history of sends, acknowledgement numbers (mid-segment, stale or beyond SND.NXT), resends, time-outs and incoming data whose accepted bytes end below 2^32: the send buffer is a chain covering exactly the unacknowledged range, empty iff UNA = NXT, within the window |
| `Connection.StraysChangeNothing` | core/src/network/transport/tcp/TCPConnection.cpp:250-370 | An acknowledgement of what an endpoint has not sent, or has had acknowledged, changes nothing |
| `Connection.WholeFlightAcknowledgedIff` | core/src/network/transport/tcp/TCPConnection.cpp:355-370 | The acknowledgement of everything in flight is accepted if and only if the flight does not run past 2^32 - 1; otherwise it changes nothing |
| `Connection.QueueKeepsChain` | core/src/network/transport/tcp/TCPConnection.cpp:542-585 | Queueing succeeds exactly when the payload is not empty and fits the window beside the flight, and leaves a chain of plain numbers exactly when an accepted payload ends below 2^32 |
| `Connection.AckKeepsChain` | core/src/network/transport/tcp/TCPConnection.cpp:351-410 | An acknowledgement is accepted exactly when UNA < ack ≤ NXT, and then UNA is that number and the chain covers what is above it |
| `TcpConnections.TcpConnection.constructor` | core/src/network/transport/tcp/TCPConnection.cpp:17-53 | A fresh endpoint with the controller it is given, SND.UNA observed as the baseline for duplicates |
| `TcpConnections.TcpConnection.ReceiveSyn` | core/src/network/transport/tcp/TCPConnection.cpp:221-246 | The whole endpoint after a SYN, accepted or not |
| `TcpConnections.TcpConnection.ReceiveSynAck` | core/src/network/transport/tcp/TCPConnection.cpp:248-298 | The whole endpoint after a SYN-ACK: only in SYN_SENT and for the number after the ISN |
| `TcpConnections.TcpConnection.ReceiveAck` | core/src/network/transport/tcp/TCPConnection.cpp:300-411 | The whole endpoint after an acknowledgement, in all its cases: handshake, FIN, beyond NXT, stale, duplicate, new |
| `TcpConnections.TcpConnection.OnAcknowledged` | core/src/network/transport/tcp/TCPConnection.cpp:713-752 | Buffer, SND.UNA, congestion window and timer after a cumulative acknowledgement |
| `TcpConnections.TcpConnection.ReceiveFin` | core/src/network/transport/tcp/TCPConnection.cpp:413-428 | The whole endpoint after a FIN; the next expected number is overwritten even over a gap |
| `TcpConnections.TcpConnection.SendSyn` | core/src/network/transport/tcp/TCPConnection.cpp:430-449 | A fresh ISN when the state allows it; no change on the retransmit path |
| `TcpConnections.TcpConnection.SendFin` | core/src/network/transport/tcp/TCPConnection.cpp:474-477 | The state after sending a FIN |
| `TcpConnections.TcpConnection.ExpireTimeWait` | core/src/network/transport/tcp/TCPConnection.cpp:479-482 | The state after TIME_WAIT |
| `TcpConnections.TcpConnection.HasRoom` | core/src/network/transport/tcp/TCPConnection.cpp:515-540 | The send window's test on 32-bit words |
| `TcpConnections.TcpConnection.QueueSentSegment` | core/src/network/transport/tcp/TCPConnection.cpp:542-585 | The segment stored and SND.NXT moved, or nothing, with the duplicate count restarted |
| `TcpConnections.TcpConnection.ReceiveData` | core/src/network/transport/tcp/TCPConnection.cpp:605-640 | The whole endpoint after data, and exactly the bytes handed over |
| `TcpConnections.TcpConnection.GetRetransmissionCount` | core/src/network/transport/tcp/TCPConnection.cpp:782-796 | The resend count of the first entry with the number, or 0 |
| `TcpConnections.TcpConnection.MarkSegmentRetransmitted` | core/src/network/transport/tcp/TCPConnection.cpp:771-780 | The entry re-stamped, flagged and counted |
| `TcpConnections.TcpConnection.OnSendTimeout` | core/src/network/transport/tcp/TCPConnection.cpp:689-702 | Backoff and loss response |
| `TcpConnections.TcpConnection.FailRetransmission` | core/src/network/transport/tcp/TCPConnection.cpp:807-824 | Closed and cleared, once |
| `TcpConnections.TcpConnection.ResetLossDetection` | core/src/network/transport/tcp/TCPConnection.cpp:838-850 | The duplicate streak restarts at SND.UNA |
| `ReceiveBuffer.PushKeepsValid` | core/src/network/transport/tcp/buffer/TCPReceiveBuffer.cpp:8-55 | Any push leaves the entries strictly sorted, the byte count exact and within capacity |
| `ReceiveBuffer.DrainKeepsValid` | core/src/network/transport/tcp/buffer/TCPReceiveBuffer.cpp:57-80 | A drain keeps that, and stops exactly where the next expected byte is missing |
| `ReceiveBuffer.TcpReceiveBuffer.Push` | core/src/network/transport/tcp/buffer/TCPReceiveBuffer.cpp:8-55 | Stored in place exactly when the admission test passes |
| `ReceiveBuffer.TcpReceiveBuffer.FindPosition` | core/src/network/transport/tcp/buffer/TCPReceiveBuffer.cpp:37-47 | Binary search finds the first entry not below the number |
| `ReceiveBuffer.TcpReceiveBuffer.ConsumeContiguous` | core/src/network/transport/tcp/buffer/TCPReceiveBuffer.cpp:57-80 | Everything contiguous leaves the buffer and is handed over in order |
| `Reassembly.OrderIndependentIff` | core/src/network/transport/tcp/buffer/TCPReceiveBuffer.cpp:8-80 | Reassembly gives the same buffer for every arrival order and any repeats if and only if the capacity holds all the pieces that fit it one by one (or is unlimited) |
| `Reassembly.OutcomeHoldsAccepted` | core/src/network/transport/tcp/buffer/TCPReceiveBuffer.cpp:8-80 | After any arrivals the buffer is exactly what the accepted pieces determine: next byte at the end of the longest run, the rest stored sorted |
| `Reassembly.OrdersThatDiffer` | core/src/network/transport/tcp/buffer/TCPReceiveBuffer.cpp:18-23 | For every smaller capacity, two concrete arrival orders with different outcomes |
| `Reassembly.AdmissionTest` | core/src/network/transport/tcp/buffer/TCPReceiveBuffer.cpp:8-35 | A piece is admitted exactly when it is neither handed over nor stored and the free space holds it |
| `Reassembly.ArrivalStep` | core/src/network/transport/tcp/buffer/TCPReceiveBuffer.cpp:8-80 | One arrival turns the buffer for a set of pieces into the buffer for that set and the piece, or changes nothing |
| `SendBuffer.TcpSendBuffer.Push` | core/src/network/transport/tcp/buffer/TCPSendBuffer.cpp:8-24 | Appended unless the capacity (0 for none) is reached |
| `SendBuffer.TcpSendBuffer.IndexOf` | core/src/network/transport/tcp/buffer/TCPSendBuffer.cpp:26-57 | The first entry with the number, or none |
| `SendBuffer.TcpSendBuffer.Acknowledge` | core/src/network/transport/tcp/buffer/TCPSendBuffer.cpp:59-76 | Exactly the leading entries ending at or below the number leave |
| `SendBuffer.TcpSendBuffer.PopFront` | core/src/network/transport/tcp/buffer/TCPSendBuffer.cpp:78-91 | The oldest entry, if any, is taken out |
| `SendBuffer.TcpSendBuffer.MarkRetransmitted` | core/src/network/transport/tcp/buffer/TCPSendBuffer.cpp:93-110 | Only the first entry with the number changes |
| `SendBuffer.TcpSendBuffer.AcknowledgeAndGetRtt` | core/src/network/transport/tcp/buffer/TCPSendBuffer.cpp:112-153 | The same entries leave, and the sample is the age of the first of them never resent and of positive age |
| `SendBuffer.SampleIsFirst` | core/src/network/transport/tcp/buffer/TCPSendBuffer.cpp:112-153 | The sample is the age of the first removed segment that was sent once and some time ago; there is none exactly if there is no such segment |
| `SendBuffer.ThreeDuplicates` | core/src/network/transport/tcp/recovery/TCPLossDetector.cpp:5-35 | Fast retransmit is indicated exactly when the last four acknowledgements of any history are equal |
| `SendBuffer.TcpLossDetector.ObserveAck` | core/src/network/transport/tcp/recovery/TCPLossDetector.cpp:5-29 | Count, last number and answer after an observation |
| `RetransmissionTimer.EstimateStaysInSampleRange` | core/src/network/transport/tcp/timer/RTTEstimator.cpp:8-49 | Over any history with samples in [lo, hi]: SRTT stays in [lo, hi] and RTTVAR within max(hi/2, hi - lo) |
| `RetransmissionTimer.TimeoutClosedForm` | core/src/network/transport/tcp/timer/RTOManager.cpp:7-35 | After any history the timeout is min(60, rto · 2^min(k, 6)) for k timeouts since the last sample, and lies in [0.2, 60] |
| `RetransmissionTimer.BackoffCountsTheStreak` | core/src/network/transport/tcp/timer/RTOManager.cpp:15-35 | The backoff factor is 2^min(k, 6) for the current streak of k timeouts |
| `RetransmissionTimer.SteadyPathConverges` | core/src/network/transport/tcp/timer/RTTEstimator.cpp:8-49 | On a path of constant round-trip time SRTT is that time at once and RTTVAR shrinks by three quarters a sample |
| `RetransmissionTimer.EstimateMovesByEighths` | core/src/network/transport/tcp/timer/RTTEstimator.cpp:33-39 | RFC 6298 section 2.3: whatever the history, n samples of a new round trip leave (7/8)^n of the gap between it and the smoothed estimate |
| `RetransmissionTimer.SpreadBeforeMove` | core/src/network/transport/tcp/timer/RTTEstimator.cpp:33-48 | A further sample makes the variance 3/4 of what it was and 1/4 of the distance from the estimate before the sample, and the timeout the clamped estimate plus four variances |
| `RetransmissionTimer.FirstSampleSets` | core/src/network/transport/tcp/timer/RTTEstimator.cpp:17-31 | RFC 6298 section 2.2: the first sample is the estimate, half of it the variance |
| `RetransmissionTimer.ResetForgets` | core/src/network/transport/tcp/timer/RTOManager.cpp:37-41 | Nothing before a reset counts |
| `RetransmissionTimer.RttEstimator.Update` | core/src/network/transport/tcp/timer/RTTEstimator.cpp:8-49 | First sample, later samples and non-positive samples |
| `RetransmissionTimer.RtoManager.OnTimeout` | core/src/network/transport/tcp/timer/RTOManager.cpp:15-24 | Doubled backoff, capped, and the timeout it gives |
| `RetransmissionTimer.RtoManager.OnAcknowledgement` | core/src/network/transport/tcp/timer/RTOManager.cpp:26-35 | The sample taken and the backoff undone |
| `CongestionControl.WindowsKeepTheirFloors` | core/src/network/transport/tcp/congestion/NewRenoCongestionControl.cpp:59-228 | For all three algorithms, over every call sequence with 3·mss < 2^32: mss ≤ cwnd, 2·mss ≤ ssthresh, and in NewReno recovery the saved threshold is ssthresh |
| `CongestionControl.OneSegmentPerRoundTrip` | core/src/network/transport/tcp/congestion/RenoCongestionControl.cpp:78-97 | floor(cwnd/mss) acknowledgements in congestion avoidance add at most one segment if and only if cwnd/mss ≤ mss or the window is about to saturate (RFC 5681 section 3.1) |
| `CongestionControl.SlowStart` | core/src/network/transport/tcp/congestion/RenoCongestionControl.cpp:56-78 | RFC 5681 section 3.1: below ssthresh every acknowledgement adds what it acknowledges but no more than a segment, so a window of full acknowledgements doubles the window |
| `CongestionControl.FastRecovery` | core/src/network/transport/tcp/congestion/RenoCongestionControl.cpp:114-177 | RFC 5681 section 3.2: half of what was in flight, three segments, one for every further duplicate, and half of what was in flight when everything is acknowledged |
| `CongestionControl.NeverDividesByZero` | core/src/network/transport/tcp/congestion/RenoCongestionControl.cpp:78-97 | No call sequence ever divides by a zero window, for any segment size but 0, which is refused, and 2^31 |
| `CongestionControl.RecoveryEndsAtZeroIff` | core/src/network/transport/tcp/congestion/RenoCongestionControl.cpp:114-177 | A recovery over fewer than two bytes in flight leaves a window of zero exactly for segments of 2^31 bytes, whose double wraps to zero |
| `CongestionControl.OnAck` | core/src/network/transport/tcp/congestion/TahoeCongestionControl.cpp:55-97 | One acknowledgement never shrinks the window, adds at most one segment, and changes nothing else |
| `CongestionControl.Grown` | core/src/network/transport/tcp/congestion/RenoCongestionControl.cpp:56-98 | Slow start below ssthresh, max(1, mss²/cwnd) from it on, saturating without wrap-around |
| `CongestionControl.OnLoss` | core/src/network/transport/tcp/congestion/NewRenoCongestionControl.cpp:107-127 | A loss restarts from one segment, ends recovery, and halves the window into the threshold, except that a loss in NewReno recovery leaves the threshold alone |
| `CongestionControl.Deflated` | core/src/network/transport/tcp/congestion/NewRenoCongestionControl.cpp:203-225 | A partial acknowledgement takes off exactly what it covers and gives one segment back for a segment or more, never below one segment |
| `CongestionControl.Create` | core/src/network/transport/tcp/congestion/TahoeCongestionControl.cpp:9-26 | mss 0 is refused; otherwise the windows start sound |
| `CongestionControl.TahoeCongestionControl.constructor` | core/src/network/transport/tcp/congestion/TahoeCongestionControl.cpp:9-26 | A fresh Tahoe controller: a window of one segment, a threshold of the initial value but at least two segments |
| `CongestionControl.TahoeCongestionControl.OnAck` | core/src/network/transport/tcp/congestion/TahoeCongestionControl.cpp:55-97 | Slow start below the threshold, at most a segment per call and mss²/cwnd (at least 1) above it, both saturating |
| `CongestionControl.TahoeCongestionControl.OnLoss` | core/src/network/transport/tcp/congestion/TahoeCongestionControl.cpp:99-113 | Half the window, at least two segments, becomes the threshold, the window one segment; a fast retransmission is treated the same |
| `CongestionControl.RenoCongestionControl.OnAck` | core/src/network/transport/tcp/congestion/RenoCongestionControl.cpp:56-98 | The same two regimes as Tahoe, in recovery too |
| `CongestionControl.RenoCongestionControl.OnLoss` | core/src/network/transport/tcp/congestion/RenoCongestionControl.cpp:100-112 | A time-out sets the threshold from half the window and leaves recovery with one segment |
| `CongestionControl.RenoCongestionControl.OnFastRetransmit` | core/src/network/transport/tcp/congestion/RenoCongestionControl.cpp:114-142 | Recovery begins at half the flight, at least two segments, inflated by three |
| `CongestionControl.RenoCongestionControl.OnDuplicateAck` | core/src/network/transport/tcp/congestion/RenoCongestionControl.cpp:144-158 | One more segment while recovering, saturating; nothing otherwise |
| `CongestionControl.RenoCongestionControl.OnRecoveryAck` | core/src/network/transport/tcp/congestion/RenoCongestionControl.cpp:160-177 | A complete acknowledgement ends recovery at the threshold; a partial one changes nothing |
| `CongestionControl.NewRenoCongestionControl.OnAck` | core/src/network/transport/tcp/congestion/NewRenoCongestionControl.cpp:59-105 | The two regimes, but no growth while recovering |
| `CongestionControl.NewRenoCongestionControl.OnLoss` | core/src/network/transport/tcp/congestion/NewRenoCongestionControl.cpp:107-127 | A time-out in recovery takes the threshold saved when recovery began, otherwise half the window |
| `CongestionControl.NewRenoCongestionControl.OnFastRetransmit` | core/src/network/transport/tcp/congestion/NewRenoCongestionControl.cpp:129-157 | The threshold and its saved copy from half the flight, the window inflated by three segments |
| `CongestionControl.NewRenoCongestionControl.OnDuplicateAck` | core/src/network/transport/tcp/congestion/NewRenoCongestionControl.cpp:159-173 | A duplicate in recovery inflates the window by one segment |
| `CongestionControl.NewRenoCongestionControl.OnRecoveryAck` | core/src/network/transport/tcp/congestion/NewRenoCongestionControl.cpp:175-228 | A partial acknowledgement deflates the window and stays in recovery, a complete one ends it at the threshold |
| `TcpState.TcpStateMachine.OnListen` | core/include/network/transport/tcp/TCPStateMachine.hpp:16-23 | The next of the eleven states, and acceptance exactly when the state changes (or is LISTEN already) |
| `TcpState.TcpStateMachine.OnSynSent` | core/include/network/transport/tcp/TCPStateMachine.hpp:25-31 | The next of the eleven states, and acceptance exactly when the state changes |
| `TcpState.TcpStateMachine.OnSynReceived` | core/include/network/transport/tcp/TCPStateMachine.hpp:33-41 | The next of the eleven states, and acceptance exactly when the state changes |
| `TcpState.TcpStateMachine.OnEstablished` | core/include/network/transport/tcp/TCPStateMachine.hpp:43-53 | The next of the eleven states, and acceptance exactly when the state changes |
| `TcpState.TcpStateMachine.OnFinSent` | core/include/network/transport/tcp/TCPStateMachine.hpp:55-67 | The next of the eleven states, and acceptance exactly when the state changes |
| `TcpState.TcpStateMachine.OnFinAcked` | core/include/network/transport/tcp/TCPStateMachine.hpp:69-81 | The next of the eleven states, and acceptance exactly when the state changes |
| `TcpState.TcpStateMachine.OnPeerFin` | core/include/network/transport/tcp/TCPStateMachine.hpp:83-100 | The next of the eleven states, and acceptance exactly when the state changes |
| `TcpState.TcpStateMachine.OnTimeWaitDone` | core/include/network/transport/tcp/TCPStateMachine.hpp:102-108 | The next of the eleven states, and acceptance exactly when the state changes |
| `TcpState.TcpStateMachine.OnRetransmissionFailure` | core/include/network/transport/tcp/TCPStateMachine.hpp:110-117 | The next of the eleven states, and acceptance exactly when the state changes |
| `TcpState.OnlyClosingIsStuck` | core/include/network/transport/tcp/TCPStateMachine.hpp:16-117 | Of the eleven states CLOSING is the one that no trigger but a failure leaves |
| `TcpState.MovesByTheDiagram` | core/include/network/transport/tcp/TCPStateMachine.hpp:16-117 | Failures apart, the machine moves exactly along the state diagram of RFC 793 but for what is named: no close before the connection is established, no way out of CLOSING, a SYN opens a closed end, and a closing end can be established again |
| `TcpState.TimeWaitIff` | core/include/network/transport/tcp/TCPStateMachine.hpp:69-117 | The state machine alone: after a FIN, TIME_WAIT is passed exactly by the sequences of triggers in which the acknowledgement comes before the peer's FIN and no failure before that |
| `Dijkstra.BuildDijkstra` | core/src/network/Routing.cpp:14-96 | For all four metrics, zero-cost links included, the lazy-deletion search ends with the optimum over all walks of up links for every node, the worst value exactly where no walk leads, and a parent tree rooted at the source |
| `Dijkstra.RelaxNode` | core/src/network/Routing.cpp:77-92 | One pass over a node's links keeps the search invariant and leaves nothing better to offer |
| `Dijkstra.NothingBeats` | core/src/network/Routing.cpp:68-93 | With an empty heap no walk of any length beats the distance found |
| `Dijkstra.Settle` | core/src/network/Routing.cpp:69-75 | A live entry settles its node for good: no later entry is better |
| `Dijkstra.TopIsSoonest` | core/src/network/Routing.cpp:68-75 | When a node is settled nothing offered to a node still waiting is ahead of it by distance, then number |
| `Dijkstra.WalkBeatsWorst` | core/src/network/Routing.cpp:21-27 | Every walk is better than the initial value, so that value marks exactly the unreached nodes |
| `RouteMeaning.TableIsShortest` | core/src/network/Routing.cpp:43-64 | In a table for delay, hop count or delay over bandwidth the distance of a node is the total of that quantity over a walk through the row's next hop, and no walk at all has less; it is infinite exactly for nodes no walk reaches |
| `RouteMeaning.TableIsWidest` | core/src/network/Routing.cpp:43-64 | In a table for bandwidth it is a bandwidth that every link of a walk through the next hop carries, and every walk has a link that carries no more |
| `RouteMeaning.DelayIsTotal` | core/src/network/Routing.cpp:43-64 | Under the delay metric a walk costs the sum of its links' delays |
| `RouteMeaning.DelayBandwidthIsTotal` | core/src/network/Routing.cpp:43-64 | Under the delay-bandwidth metric it costs the sum of delay over bandwidth |
| `Dijkstra.BandwidthIsNarrowest` | core/src/network/Routing.cpp:62-66 | The bandwidth cost of a walk is that of its narrowest link |
| `Dijkstra.HopCountIsLength` | core/src/network/Routing.cpp:51-52 | The hop-count cost of a walk is its length |
| `PathAlgebra.BetterIsStrictOrder` | core/src/network/Routing.cpp:38-40 | The comparison is a strict order in which ties are equal costs |
| `PathAlgebra.CombineExtends` | core/src/network/Routing.cpp:62-66 | Going further never improves a path |
| `PathAlgebra.CombineMonotone` | core/src/network/Routing.cpp:62-66 | A path no better stays no better over the same link |
| `RoutingTable.BuildRoutingTable` | core/src/network/Routing.cpp:98-152 | Every row's next hop is -1 exactly for the source and unreachable nodes, and otherwise a neighbour over an up link that starts an optimal walk, the first step down the search's own tree |
| `RoutingTable.NextHop` | core/src/network/Routing.cpp:132-144 | The walk up the parents ends, its -1 fallback is never taken for a reachable node, and it finds the first hop of an optimal walk |
| `RoutingTable.UnreachedIffNoWalk` | core/src/network/Routing.cpp:124-130 | The code's unreachability test holds exactly for nodes no walk reaches |
| `Forwarding.RebuildRoutingTables` | core/src/engine/core/SimulationEngine.cpp:465-474 | One right table per root, each from a search of its own |
| `LoopFreedom.LoopFree` | core/src/engine/core/SimulationEngine.cpp:465-474 | For all four metrics, links that cost nothing included, following the tables never leads round in a circle |
| `LoopFreedom.BuiltTablesArrive` | core/src/engine/core/SimulationEngine.cpp:465-474 | For all four metrics, following the tables from any node that can reach d arrives within n - 1 hops |
| `LoopFreedom.TreePathIsCautious` | core/src/network/Routing.cpp:68-93 | Among walks as good as its own the search picks one whose worst node, by distance and then number, is as far ahead as possible |
| `LoopFreedom.LastHopIsNoTie` | core/src/network/Routing.cpp:84-92 | The parent is the first settled node to offer the final distance |
| `Forwarding.HopsGetCloser` | core/src/engine/core/SimulationEngine.cpp:67-76 | With positive additive link costs the next hop is strictly closer by its own table, built by another search |
| `Forwarding.ForwardingArrives` | core/src/engine/core/SimulationEngine.cpp:67-76 | With positive additive costs any optimal tables, however ties were broken, lead from any node that can reach d to d within n - 1 hops |
| `Forwarding.ForwardedIffReachable` | core/src/network/utils/PacketUtils.cpp:9-35 | A packet finds a next hop, and an up link to it, exactly when its destination is reachable |
| `Forwarding.StrandedStays` | core/src/network/utils/PacketUtils.cpp:9-13 | Without a route a packet never moves |
| `Forwarding.SelectLink` | core/src/network/utils/PacketUtils.cpp:19-32 | The first up link to the next hop, or none |
| `Links.SlotsAgree` | core/src/network/Link.cpp:115-190 | In all three modes the busy time consulted, the busy time moved and the queue belong to one slot |
| `Links.CarryKeepsSane` | core/src/network/Link.cpp:289-308 | A transmission goes last in its slot, departs no sooner than the last arrival, and leaves other slots alone |
| `Links.ReleaseHead` | core/src/network/Link.cpp:310-338 | Releasing the head leaves the rest of the queues as they were |
| `Links.Link.ReserveTransmission` | core/src/network/Link.cpp:154-190 | The busy time of the direction's slot never moves back |
| `Links.Link.EnqueueTransmission` | core/src/network/Link.cpp:289-308 | Appended to its slot if the link is up and the slot holds fewer than 32 |
| `Links.Link.DequeueTransmission` | core/src/network/Link.cpp:310-338 | The oldest equal entry goes; true exactly if there was one |
| `EventQueues.ScheduledSorted` | core/src/engine/core/EventQueue.cpp:10-30 | The queue stays strictly ordered by timestamp and id |
| `EventQueues.EventQueue.Schedule` | core/src/engine/core/EventQueue.cpp:22-30 | The event takes its place in the order |
| `EventQueues.EventQueue.Next` | core/src/engine/core/EventQueue.cpp:33-41 | The earliest event is taken, lowest id first, or none |
| `EngineRuns.TransitAgrees` | core/src/engine/core/SimulationEngine.cpp:82-105 | In every run, under any topology changes: packets_in_transit, the keys of pending arrivals and the link queues are the same multiset, and all are empty once the event queue drains |
| `EngineRuns.WireIsFifo` | core/src/network/Link.cpp:115-190 | In every run each slot's queue is a FIFO of non-overlapping transmissions of at most 32, none after the busy time, and the next arrival releases its head |
| `EngineCapacity.PacketsTakeTheirTime` | core/src/engine/core/SimulationEngine.cpp:174-184 | In every run, under any topology changes, every packet under way or ever arrived over a link that is still there took its propagation delay and 8 bits a byte at the link's rate, exactly |
| `EngineCapacity.LinksKeepTheirRate` | core/src/engine/core/SimulationEngine.cpp:174-191 | In every run and any span of time, the packets that leave and arrive over one slot of a link have together no more bits than bandwidth times the span |
| `EngineCapacity.LinksKeepTheirMode` | core/src/network/Link.cpp:115-190 | In every run, under any topology changes, packets go over a link from end to end, over a simplex link one way only, and of two in one direction, or in either of a half-duplex link, the later arrival has not left before the earlier |
| `EngineCapacity.OppositeTraffic` | core/src/network/Link.cpp:115-190 | A transmission means nothing to the traffic against it on a full-duplex link and keeps it waiting on a half-duplex one; on a simplex link there is none |
| `EngineCapacity.SendOccupies` | core/src/engine/core/SimulationEngine.cpp:180-212 | A packet leaves when its slot is free and keeps it busy until it has taken its time, dropped or not |
| `EngineRuns.EventsRunInOrder` | core/src/engine/core/Event.cpp:15-19 | With identifiers given when events are built: in every run, what has run and what waits are strictly increasing in timestamp and identifier if and only if every event queued after it was built came after the last one run by then; packets always do, and the clock shows the last event's time |
| `EngineRuns.ClockAdvances` | core/src/engine/core/SimulationEngine.cpp:107-133 | In such a run the clock never moves back once an event has run |
| `EngineRuns.PastFailureBreaksOrder` | core/src/engine/core/SimulationEngine.cpp:485-487 | Over any topology a link failure scheduled for a time already past is accepted, runs after a later event and takes the clock back |
| `EngineRoutes.ForwardedIffPossible` | core/src/network/utils/PacketUtils.cpp:5-35 | In every run, whatever the topology has become, a packet away from its destination is sent on if and only if a walk of up links leads there, the next link has room, and the link does not drop it |
| `EngineRoutes.RoutesArrive` | core/src/engine/core/SimulationEngine.cpp:465-474 | In every run, whatever the topology has become, the tables lead from any node to any it can reach within nodes - 1 hops |
| `EngineRoutes.RoutesAreShortest` | core/src/engine/core/SimulationEngine.cpp:465-474 | In every run, whatever the topology has become, under delay, hop count or delay over bandwidth the tables lead over the start of a walk that no other walk is shorter than |
| `EngineRoutes.RemovedNodeIsCutOff` | core/src/network/Topology.cpp:132-178 | After a node is removed and the tables rebuilt, no other node reaches it or has it for a next hop, and no link away from it is lost |
| `EngineRoutes.DownLinkIsAvoided` | core/src/network/Topology.cpp:208-216 | After the only link between two nodes is taken down and the tables rebuilt, it is a next hop no more, and every other link stays as it was |
| `EngineRoutes.RaisedLinkJoins` | core/src/network/Topology.cpp:208-216 | After a link is brought up its ends reach each other |
| `EngineRoutes.NewLinkJoins` | core/src/network/Topology.cpp:21-64 | After a link is created its ends reach each other, and the links there were stay as they were |
| `EngineRoutes.RemovedLinkIsGone` | core/src/network/Topology.cpp:180-206 | The oldest link between the two nodes is gone, and no other |
| `EngineRoutes.RunKeepsRouted` | core/src/engine/core/SimulationEngine.cpp:435-483 | After every accepted change the tables are those of the topology as it is, and no other event disturbs that |
| `EngineRuns.PacketsAccounted` | core/src/engine/core/SimulationEngine.cpp:153-238 | sent plus the surplus loss counts equals delivered plus in transit plus lost, exactly; hence delivered + transit ≤ sent ≤ delivered + transit + lost |
| `EngineRuns.VerdictMeansNoLoss` | core/src/engine/core/SimulationEngine.cpp:347-374 | On a drained run the traffic verdict holds exactly when something was sent and no loss counted |
| `EngineRuns.ForwardedDropCountsTwice` | core/src/engine/events/PacketReceivedEvent.cpp:70-77 | A drop on a later hop counts two losses for one packet, which is why the bounds are not an equation |
| `Engine.ForecastIffIdle` | core/src/engine/core/SimulationEngine.cpp:139-151 | The arrival forecast never exceeds the arrival sendPacket computes, and equals it exactly when the direction is idle |
| `EngineSafety.StepKeepsInv` | core/src/engine/events/PacketReceivedEvent.cpp:61-81 | Every event and outside call keeps the engine invariant |
| `EngineSafety.LaunchKeepsCoherent` | core/src/engine/core/SimulationEngine.cpp:175-237 | A sent packet enters all three places at once, last in its slot |
| `EngineSafety.ReleaseKeepsCoherent` | core/src/network/utils/PacketUtils.cpp:37-75 | An arriving packet leaves all three places at once |
| `EngineSafety.ChangeKeepsCoherent` | core/src/network/Topology.cpp:125-216 | Creating, removing and toggling nodes and links under traffic keeps the three in agreement |
| `SimulationEngines.SimulationEngine.constructor` | core/src/engine/core/SimulationEngine.cpp:15-33 | An idle engine over a copy of the topology whose links are the caller's objects, with the tables built |
| `SimulationEngines.SimulationEngine.Rebuild` | core/src/engine/core/SimulationEngine.cpp:465-474 | The tables built for the topology as it is, and nothing else changed |
| `SimulationEngines.SimulationEngine.SendPacket` | core/src/engine/core/SimulationEngine.cpp:153-238 | The engine after a send: link down, wrong end, full, dropped or on its way |
| `SimulationEngines.SimulationEngine.SendThroughTopology` | core/src/network/utils/PacketUtils.cpp:5-35 | The engine after a send by its own table over the first up link to the next hop |
| `SimulationEngines.SimulationEngine.PickLink` | core/src/network/utils/PacketUtils.cpp:19-32 | The first up link to the next hop in the node's own list, which is the first of all links that leads there |
| `SimulationEngines.SimulationEngine.RemovePacketInTransit` | core/src/engine/core/SimulationEngine.cpp:82-105 | Only the oldest matching record goes; true exactly if there was one |
| `SimulationEngines.SimulationEngine.ReleasePacket` | core/src/network/utils/PacketUtils.cpp:37-75 | The slot freed if the link is still there, the record removed in any case |
| `SimulationEngines.SimulationEngine.ReceivePacket` | core/src/engine/events/PacketReceivedEvent.cpp:61-81 | Release, then forward (a failure counts a loss) or deliver |
| `SimulationEngines.SimulationEngine.Reshape` | core/src/engine/core/SimulationEngine.cpp:435-483 | A change the topology takes is followed by new tables for it; a refused one changes nothing |
| `SimulationEngines.SimulationEngine.ScheduleBuilt` | core/src/engine/core/EventQueue.cpp:22-30 | An event built earlier takes its place in the queue under the identifier it was built with |
| `SimulationEngines.SimulationEngine.ProcessEvent` | core/src/engine/core/SimulationEngine.cpp:119-133 | The head of the queue, run on the objects, is one step of the specified engine whose rebuilds are right, for any actions of the event body; those of a session's events are fixed by SimulationRuns.InputOf |
| `SimulationEngines.SimulationEngine.Perform` | core/src/engine/core/SimulationEngine.cpp:435-483 | The engine after a send, an event built or queued, or a topology change with its rebuild |
| `Topologies.Topology.constructor` | core/src/network/Topology.cpp:8-19 | A topology without links |
| `Topologies.Topology.Copy` | core/src/engine/core/SimulationEngine.cpp:15-18 | A copy with lists of its own and the same link objects |
| `Topologies.Topology.AddLinkPtr` | core/src/network/Topology.cpp:21-64 | Refused for the first failing test, changing nothing; otherwise last in the list, both adjacency lists and the interfaces, missing nodes created |
| `Topologies.Topology.AddNode` | core/src/network/Topology.cpp:125-130 | A node with the next index and no links |
| `Topologies.Topology.RemoveNode` | core/src/network/Topology.cpp:132-178 | Exactly the links at the node go, everywhere, in order; the index stays |
| `Topologies.Topology.RemoveLink` | core/src/network/Topology.cpp:180-206 | The oldest link between the two nodes goes, everywhere; false exactly if there is none |
| `Topologies.Topology.SetLinkUp` | core/src/network/Topology.cpp:208-216 | That link alone is toggled; adjacency lists share the object |
| `Topologies.AttachKeepsStep` | core/src/network/Topology.cpp:56-61 | List, adjacency and interfaces stay in step when a link is added |
| `Topologies.DetachKeepsStep` | core/src/network/Topology.cpp:145-168 | They stay in step when one is removed |
| `Topologies.AdjacencyFindsOldest` | core/src/network/utils/PacketUtils.cpp:19-28 | Searching a node's adjacency list finds the link that searching the whole list would |
| `Topologies.RoutingAccepts` | core/src/network/Topology.cpp:90-102 | A topology in step is one the search accepts, and lists every link, simplex ones too, at both its ends |

## Left out

- SessionResults.ServerReadsPrefix: speaks of runs while the client is established; SessionClosing.ServerReadsOn goes on from there until the server takes a FIN.
- SessionWindow.WindowNeverRejects: assumes the stream fits below 2^32, because beyond it the 32-bit comparison refuses missing pieces; SessionWindow.MissingAdmittedIff says exactly which, for every initial number.
- Topology changes under sessions: a session's routing tables are fixed while it runs; EngineRoutes covers tables rebuilt under topology changes.
- SimulationResults.SimulationsSplit: connections are all started before the first event, from startTCPConnection; none is started, and nothing else is scheduled, while the simulation runs.
- CongestionControl.WindowsKeepTheirFloors: assumes 3·mss < 2^32, because 2·mss and 3·mss wrap beyond; NeverDividesByZero and RecoveryEndsAtZeroIff cover every segment size.
- Delivery: the code does not promise that data arrives (a duplicate data segment is dropped without an acknowledgement), so none is proved.
- Flight against cwnd: `canSend` does not consult the congestion window, so no such bound holds. `onRecoveryAck` has no caller in the session; it is covered by the controllers' own call sequences.
- Cost of the link taken: forwarding uses the oldest parallel link to the next hop, not the cheapest, so the path taken may cost more than the table says; its hops are still those of LoopFreedom.BuiltTablesArrive.
- Engine events: packet arrivals are only built by sending; a caller that builds an arrival event by hand, or changes the topology through getTopology without a rebuild, is not modelled.
- SimulationEngines.SimulationEngine.ProcessEvent: takes the actions of the event body as an input, because link failures and other callers have bodies of their own; for the events of sessions SimulationRuns.TurnKeepsTied says what they are.
- SessionLastAck.ServerClosesForGood: asks that no copy of the SYN be under way, because the network of a session on its own may reorder packets; LastAckClosesIff is the exact condition, and in a simulation none is left by then (SimulationOrder.ServersCloseForGood).
- Negative packet sizes: `setGlobalPacketSize` accepts them and they would make a transmission end before it starts; sizes here are natural numbers.
- Topologies.Topology.constructor: a negative node count, which the code refuses with an exception, is ruled out by its type.
- Congestion objects: a connection holds its controller as a value, because the code's virtual dispatch has no counterpart here; the three classes are proved equal to the same functions.
- CUBIC (powers and cube roots of doubles), IEEE rounding, congestion history samples, loss probabilities as numbers, latency statistics, listeners and RST replies, packet and latency observers, JSON and CSV, the graphical application.
- Setters the engine does not use during a run (`setMode`, `setSendWindow`, `setBandwidthMbps`, `setDelayMs`, `advanceTime`) and the legacy queue counters of Link.
