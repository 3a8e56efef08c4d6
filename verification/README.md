# MyuTCP: a verified model

MyuTCP is a TCP stack in user space over UDP and libuv. This project models one connection of it, the sessions on both
ends and the network between them, and the containers they rest on, and proves what the protocol promises.

The layers, from the bottom up:

- `RingBuffer.dfy`, `Checksum.dfy` and `Timers.dfy` hold the circular buffer, the Internet checksum (sections 1 and 2 of
  RFC 1071) and the timer manager, each as the class or loop the program has, proved against plain sequences, sums and
  maps.
- `Session.dfy` says on plain values what each operation of a session does, with the program's 32-bit arithmetic,
  branches and constants, mistakes included. `TcpSession.dfy` is the session object: every method changes its fields,
  ring buffers and timer manager in place and is proved to do what the function on values says. `Driver.dfy` ties runs
  of the object to runs on values.
- `Endpoint.dfy` adds what an observer knows (bytes accepted and read, acknowledgments, segment boundaries) and the
  events: calls of the application, packets, timer expiries. `Streams.dfy`, `Alignment.dfy`, `Runs.dfy`, `Window.dfy`,
  `WindowRuns.dfy`, `Segments.dfy`, `Tracking.dfy`, `Timing.dfy`, `Crossing.dfy` and `Progress.dfy` prove what holds over
  every run of one endpoint, whatever packets reach it.
- `Reception.dfy`, `Network.dfy`, `Connection.dfy`, `Boundaries.dfy` and `Reassembly.dfy` put a client and a server
  together. The network is every packet either side has handed to its driver: each may be delivered at any time, in any
  order, any number of times or never; packets that fail the checksum and resets from nowhere may arrive as well.
- `Effects.dfy` says of every event what the whole new state is and what goes out, `Advertising.dfy` what window each
  packet carries, `Silence.dfy` that a reset ends everything, `Duplicates.dfy` what the duplicate counter counts, and
  `Wire.dfy` where the fields lie in the header, and which changes of them the checksum notices.
- `Exchange.dfy` shows that connections are made, used and closed when nothing is lost.
- `ReadyQueue.dfy` holds the stack's ready queue, with the application's reactions as a parameter, and `Stack.dfy` the
  stack object: the table of session objects, what a packet does to them, and the queue.
- `Departures.dfy` states exactly when the program meets a claim that it does not always meet.

Conventions. The initial sequence number, the initial `last_ack_received_`, the auto-close flag and the receive window
size are arbitrary; the program's window size is 1. Whether a packet passes the checksum is a parameter of `Input`;
`Checksum.dfy` says what the verdict means. Where the draining loop would spin for ever, the session is marked `hung`
and takes no further event.

The program's own description promises TCP Reno with fast retransmit and fast recovery. The code never gets there:
`SingleRuns.FastRetransmitUnreachable` proves that the branch is dead, because acknowledgments equal to `sendUnack` are
not counted. The model follows the code, also where a comment of
`stop_timers_up_to` includes the given number and the code does not.

## Model

| member | source | states |
|---|---|---|
| Connection.DeliveryIsPrefix | src/core/tcb.cpp:128-256 | for every run of a client, a server and a network that loses, duplicates and reorders packets, corrupts them in ways the checksum notices, and injects resets: the bytes each side read, followed by its receive buffer, are a prefix of the bytes the other side's `send` accepted |
| Connection.AcksAlwaysSound | src/core/tcb.cpp:128-144 | in every run, for every side that is established: `sendUnack` <= the peer's `recvNext` <= `sendNext` as stream positions, no acknowledgment under way says more than the peer holds, and the bytes popped from the send buffer are stored by the peer |
| Connection.ServerFollowsClient | src/core/tcb.cpp:798-814 | in every run, a server that is or was established has a client that was established before |
| Connection.AtEstablishment | src/core/tcb.cpp:705-725 | the step that establishes a side leaves `recvNext` one past the peer's initial number and `sendUnack` one past its own, and the peer expects that number |
| Connection.PeersSynced | src/core/tcb.cpp:717-734 | in every run, the peer of an established side has that side's number |
| Connection.HandshakeNumbers | src/core/tcb.cpp:774-814 | the same for the next step of any run, under loss, duplication and retransmission |
| Connection.NoSimultaneousOpen | src/core/tcb.cpp:726-733 | a client against a listening server never meets a bare SYN, so simultaneous open cannot arise in the system |
| Connection.AlwaysConsistent | src/core/tcb.cpp:572-631 | every reachable system keeps the invariant that both links rest on |
| Connection.SystemStep | src/core/tcb.cpp:572-631 | one step of either side keeps that invariant, whatever the step is |
| Network.SenderStep | src/core/tcb.cpp:132-144 | no step of a sender releases a byte its peer does not hold, or takes back a byte it sent |
| Network.ReceiverStep | src/core/tcb.cpp:206-256 | whatever a receiver takes in continues the sender's stream, FIN handling included |
| Network.PoppedStep | src/core/tcb.cpp:132-144 | bytes leave the send buffer through an acceptable acknowledgment in ESTABLISHED and in no other event, and exactly up to its number |
| Boundaries.AcksAtBoundaries | src/core/tcb.cpp:132-154 | in every run, for every side that is established: its segments partition [`sendUnack`, `sendNext`), the peer's `recvNext` and every acknowledgment under way stand on segment boundaries, and every outstanding segment is tracked by a timer |
| Boundaries.WholeIncoming | src/core/tcb.cpp:206-256 | a whole segment, early, late or duplicated, leaves the receiver with whole segments only |
| Tracking.SegmentsAlwaysTracked | src/core/tcb.cpp:352-416 | over every run of one endpoint against arbitrary packets, in ESTABLISHED and in CLOSE_WAIT until this side closes: each segment has been transmitted between one and five times, and keeps a timer entry while in flight, armed with count one below its transmissions until they are used up |
| Segments.TrySendTracked | src/core/tcb.cpp:418-439 | trying to send adds at most one segment, at the end of the window, with a fresh sequence number and an armed timer |
| Segments.ExpireTracked | src/core/tcb.cpp:370-416 | an expiry leaves every segment tracked: transmitted one to five times, and guarded by a running timer or used up |
| Segments.AcceptTracked | src/core/tcb.cpp:132-154 | an acceptable acknowledgment takes the timer of no segment that it does not cover |
| Timing.RetransmissionSchedule | src/core/tcb.cpp:352-408 | in every timed run, the timer with count i was started RTO * (2^i - 1) ms after the first transmission for RTO * 2^i ms, and no timer of a packet is armed more than 31000 ms after that |
| Timing.GivenUpOnTime | src/core/tcb.cpp:376-382 | the expiry after the fifth transmission comes exactly 31000 ms after the first, sends nothing and arms nothing; every earlier one sends the packet, refreshed, and hands on its origin |
| Timing.SegmentSchedule | src/core/tcb.cpp:352-408 | in every timed run and every state, the n-th transmission of a segment whose timer runs was RTO * (2^(n-1) - 1) ms after its first, for n from one to five |
| Timing.ExpirySends | src/core/tcb.cpp:373-413 | a retransmission renews the acknowledgment number and the window of its packet and changes nothing else |
| Timing.EventEvolves | src/core/tcb.cpp:293-368 | no event but an expiry leaves a timer changed: timers are stopped, dropped, or started for a first transmission |
| Reassembly.DrainExact | src/core/tcb.cpp:218-232 | for every receive window and every disjoint set of stored segments: the draining loop takes exactly the contiguous run from `recvNext`, in order, and keeps the rest; it spins for ever if and only if the run does not fit |
| Reassembly.DrainTerminates | src/core/tcb.cpp:218-232 | with enough room the loop ends with every stored key beyond `recvNext`, and `recvNext` at the first byte that is not held |
| Reassembly.RunEndIsLongest | src/core/tcb.cpp:218-232 | the run is the longest contiguous one: every byte of it is held and the byte at its end is not |
| Reassembly.IncomingBeyond | src/core/tcb.cpp:206-256 | any whole segment leaves all stored keys beyond `recvNext` unless the loop spins |
| Reassembly.NothingDeliverableWaits | src/core/tcb.cpp:206-256 | in every run without sequence wrap, with receive windows of any size, whenever both sides are established and the loop does not spin: nothing that could be delivered is left waiting |
| SingleRuns.AlwaysAligned | src/core/tcb.cpp:328-368 | over every run against arbitrary packets: the send buffer is the accepted stream from `sendUnack` on and `sendNext` - `sendUnack` <= buffered <= 1024 while this side has not closed, and in every state every emitted segment is the stream slice at its number, unless FIN_WAIT_1 took a FIN that acknowledged this side's own |
| Crossing.SlicesWithoutGuard | src/core/tcb.cpp:736-751 | in every run in which no FIN taken in FIN_WAIT_1 is also the expected acknowledgment, all segments are slices, those sent after crossing FINs included |
| Crossing.ShiftedAfterCrossing | src/core/tcb.cpp:741-750 | in every run with such a FIN, every segment emitted from then on is the stream one position before its number, and is a slice in its place if and only if the stream repeats itself there |
| Crossing.ShiftedExactly | src/core/tcb.cpp:741-750 | the send buffer is shifted after a run if and only if some event of the run passed that guard |
| Crossing.ShiftGuard | src/core/tcb.cpp:741-750 | one event shifts it if and only if it is an intact FIN, taken in FIN_WAIT_1, that acknowledges `sendUnack` + 1 |
| Crossing.ClosingFinIsBare | src/core/tcb.cpp:668-672 | the FIN of a session that closes an established connection carries no ACK, so FINs that cross on the wire never pass the guard |
| SingleRuns.AcksIncrease | src/core/tcb.cpp:132-166 | accepted acknowledgments strictly increase and the duplicate counter never exceeds one, for any initial `last_ack_received_` |
| SingleRuns.FastRetransmitUnreachable | src/core/tcb.cpp:170-178 | the three-duplicates branch is never entered: an acceptable acknowledgment only releases, counts, grows the window and sends |
| SingleRuns.NeverWaits | src/core/tcb.cpp:240-254 | with the configured receive window of one byte the out-of-order map is empty and the draining loop never spins, in every run |
| SingleRuns.UnackStep | src/core/tcb.cpp:128-144 | in ESTABLISHED `sendUnack` moves to an acceptable acknowledgment number and not otherwise |
| SingleRuns.NotReestablished | src/core/tcb.cpp:572-631 | a session becomes established at most once |
| Alignment.StreamStep | src/core/tcb.cpp:508-526 | every event keeps the window on the stream and no emitted byte leaves it |
| Streams.TrySendAligned | src/core/tcb.cpp:418-439 | trying to send keeps the alignment and emits the slice of the stream that follows what was sent |
| Streams.NoFastRetransmit | src/core/tcb.cpp:158-178 | with at most one duplicate counted the counter cannot reach three |
| Alignment.TrySendCrossed | src/core/tcb.cpp:430-438 | what goes out after a crossed close is the slice at its number as long as `sendUnack` stands at the first buffered byte |
| WindowRuns.WindowFollowsReno | src/core/tcb.cpp:181-197 | over runs, from every reached state with window 1 and any threshold t >= 1: as long as nothing times out and 32 bits hold it (expiries that give up are allowed), k accepted acknowledgments later the window is 2^k up to the first power of two P >= t and P + (k - log2 P) from there on, and a fully used window stays fully used |
| WindowRuns.TimeoutRestartsSlowStart | src/core/tcb.cpp:384-391 | over runs: after a timeout that sends again the threshold is the old window c plus one for even c and (c + 1) / 2 for odd c, and k accepted acknowledgments later the window stands on the same curve for it |
| WindowRuns.WindowUsedExactly | src/core/tcb.cpp:181-197 | in every run from a new session without a timeout that sends again the window is 2^k up to k = 3 and k + 5 from there on, and exactly min(window, buffered) bytes are in flight in ESTABLISHED |
| WindowRuns.WindowStep | src/core/tcb.cpp:181-197 | no event but a timeout that sends again moves window or threshold, an expiry that gives up included, except that an accepted acknowledgment grows the window by the rule |
| WindowRuns.UseStep | src/core/tcb.cpp:181-199 | no event but a timeout that sends again leaves a fully used window not fully used |
| Window.WindowRespected | src/core/tcb.cpp:430-438 | after trying to send, the bytes in flight are within the window if and only if they were before: the exact condition under which `allowance` does not underflow |
| Window.TrySendFills | src/core/tcb.cpp:430-438 | the window is filled to the byte when it was not overrun |
| Window.TrySendOverruns | src/core/tcb.cpp:430-438 | the rest of the buffer is sent when it was |
| Window.TrySendIdempotent | src/core/tcb.cpp:866-869 | a second call sends nothing, from every aligned state, underflow included |
| Window.AllowanceIsUsable | include/myutcp/core/sw.h:15-23 | what `_handle_try_send` allows itself equals what `get_usable_window_size` reports if and only if the window is not overrun |
| Window.GrownIsReno | src/core/tcb.cpp:181-197 | for every threshold t and count k within 32 bits: k applications of the 32-bit rule give 2^k up to the first power of two P >= t and P + (k - log2 P) from there on |
| Window.RenoBounds | src/core/tcb.cpp:181-197 | that window is at least 1 and below 2t + k |
| WindowRuns.CurveStep | src/core/tcb.cpp:181-199 | every event but a timeout that sends again keeps the window on its curve |
| Progress.TransitionsBounded | src/core/tcb.cpp:661-851 | after `connect` or `listen` a connection changes its state at most seven times in any run, and CLOSED is final |
| Progress.NeverReentered | src/core/tcb.cpp:705-884 | a state that has been left, ESTABLISHED for one, is never entered again |
| Progress.StateForward | src/core/tcb.cpp:596-630 | every event leaves the state or moves it strictly forward in the rank that ends in CLOSED |
| Endpoints.DispatchState | src/core/tcb.cpp:596-630 | where a packet can take a session from each of the ten states |
| Endpoints.CloseState | src/core/tcb.cpp:661-693 | where `close` takes a session from each state |
| Driver.HandleAll | src/core/tcb.cpp:572-631 | an object that handles the events of a run ends in exactly the state the run theorems speak about |
| Driver.Handle | src/core/tcb.cpp:572-693 | the same for one event of any kind |
| Progress.TimeWaitEnds | src/core/tcb.cpp:886-907 | in every run TIME_WAIT has its timer armed, and its expiry closes the session |
| Window.TimeoutCollapses | src/core/tcb.cpp:384-391 | a timeout that sends again leaves a window of 1 and a threshold set by the old window's parity |
| Connection.SendTakesWhatFits | src/core/tcb.cpp:508-526 | `send` accepts a prefix of the data, and leaves something only when the buffer is full |
| Exchange.HandshakeCompletes | src/core/tcb.cpp:633-814 | from every pair of new sessions, the five turns of a handshake without loss establish both, at rest and in agreement about both numbers |
| Exchange.AnyPacketAnytime | src/network/UdpDriver.cpp:24-28 | in every run, a packet once handed to the network may reach the other side at any later time, however often, and so may any damaged packet and any reset: loss, delay, duplication and reordering are all in the model |
| Exchange.PerfectNetworkDelivers | src/core/tcb.cpp:418-526 | for every byte sequence (below 2^32 with the initial number) there is a run in which all of it is accepted, delivered, read and acknowledged: the safety theorems are not met by doing nothing |
| Exchange.ByteTransfers | src/core/tcb.cpp:862-884 | one byte goes from application to application in four turns, and the window grows by its rule |
| Exchange.TeardownCompletes | src/core/tcb.cpp:661-851 | from every pair of sessions at rest, seven turns without loss take both to CLOSED |
| Reception.IncomingAnswered | src/core/tcb.cpp:233-255 | every payload, in order or not, is answered by exactly one pure acknowledgment of what is held afterwards, with the room that is left |
| Reception.InOrderDelivers | src/core/tcb.cpp:209-211 | a payload that arrives in order and fits is appended at once, and nothing delivered before is touched |
| Departures.CoveredTimerSurvives | src/core/tcb.cpp:135-135 | the timer of an acknowledged segment stays armed if and only if the segment is the single byte before the acknowledgment number |
| Departures.OneByteIsSentAgain | src/network/TimerManager.cpp:57-66 | for every quiet established session: one byte is sent and acknowledged, and its timer is still armed |
| Departures.ThresholdFalls | src/core/tcb.cpp:384-391 | after a timeout the threshold is at most the old window if and only if the window was odd; an even window c gives c + 1 |
| Departures.FinAckExact | src/core/tcb.cpp:871-880 | for a FIN with any payload: the number acknowledged is one past the FIN's own, and covers the bytes held and the FIN, and no more, if and only if the FIN came in order and nothing was taken in with it |
| Departures.FinWait1Ends | src/core/tcb.cpp:739-745 | the acknowledgment that ends FIN_WAIT_1 covers the FIN if and only if nothing but the FIN was in flight |
| Departures.SimultaneousOpenMisaligns | src/core/tcb.cpp:726-733 | after a simultaneous open the SYN-ACK carries the number of the first data byte, which then counts as sent although no data packet exists |
| Departures.OvertakingFinMisplaces | src/core/tcb.cpp:741-750 | the shifted case exists: when the peer's FIN with ACK overtakes its acknowledgment, a byte accepted in between goes out one number after its place |
| Departures.CloseAbandonsData | src/core/tcb.cpp:661-672 | after an active close the only armed timer guards the FIN: bytes in flight or buffered are never sent again |
| Departures.LastFinSkipsNumber | src/core/tcb.cpp:829-835 | the FIN that CLOSE_WAIT sends by itself moves `sendNext` by two, and LAST_ACK still accepts its acknowledgment |
| Departures.SecondLapConfuses | src/core/tcb.cpp:206-214 | a receiver of exactly 2^32 bytes takes a late duplicate of the first segment; what it holds stays a prefix if and only if the stream repeats those bytes there |
| Window.GivesUp | src/core/tcb.cpp:376-382 | an expiry that gives up touches the timers and nothing else: window, threshold and packets stay; the fired timer is gone and the others run on |
| Advertising.RoomAdvertised | include/myutcp/core/tcb.h:272-274 | in every event and every state, each packet that goes out (data, control, pure acknowledgment, retransmission) advertises 1024 minus the bytes in the receive buffer at that moment |
| Silence.ResetSilences | src/core/tcb.cpp:853-860 | in every run, from every state: after an intact RST the session is closed, no timer runs and no packet goes out, whatever happens next; what had arrived can still be read |
| Silence.RunTimersOwned | src/core/tcb.cpp:293-416 | over every run of a session, against any packets, the timer table owns its timers |
| Duplicates.DuplicatesCounted | src/core/tcb.cpp:158-166 | in every run `last_ack_received_` is the greater of its random initial value and the last accepted acknowledgment, and one duplicate is counted exactly while that acknowledgment equals the initial value |
| Effects.ResetCloses | src/core/tcb.cpp:853-860 | an intact RST closes the session in every state; no timer stays armed, nothing goes out, both buffers stay |
| Effects.IgnoredPackets | src/core/tcb.cpp:572-591 | a damaged packet changes nothing, nor does one without RST, ACK, SYN and FIN |
| Effects.ClosedForgets | src/core/tcb.cpp:597-600 | a packet for a closed session only clears the wish to close and tells the peer's window |
| Effects.TrySendSends | src/core/tcb.cpp:418-439 | one attempt to send adds at most one packet: number, acknowledgment, flag, window, payload and timer given outright; everything else stays |
| Effects.ConnectSends | src/core/tcb.cpp:633-659 | `connect` sends a SYN at `iss`, guards it with a timer of one second, and sets the window to `iss` + 1 |
| Effects.ListenAnswersSyn | src/core/tcb.cpp:774-796 | a listening session answers any packet with SYN by a guarded SYN-ACK at `iss` and ignores all others |
| Effects.SynSentEnds | src/core/tcb.cpp:705-734 | in SYN_SENT the expected SYN-ACK is acknowledged, stops the SYN's timer, establishes and tries to send, in this order; other SYN-ACKs are ignored; a bare SYN is answered by a guarded SYN-ACK |
| Effects.SynReceivedEnds | src/core/tcb.cpp:798-814 | in SYN_RECEIVED the expected acknowledgment stops the timer of the SYN-ACK, establishes and tries to send; anything else is ignored |
| Effects.EstablishedEffect | src/core/tcb.cpp:862-884 | the whole new state for any packet in ESTABLISHED: acknowledgment, then payload, then FIN, with one pure acknowledgment for each of the latter two |
| Effects.AckEffect | src/core/tcb.cpp:128-204 | a number in (`sendUnack`, `sendNext`] releases bytes, timers and remembered packets, counts and grows; two attempts to send follow it, one follows any other number |
| Effects.StoreExact | src/core/tcb.cpp:240-248 | exactly numbers strictly inside the receive window are stored, and the last payload at a number wins |
| Effects.FinWait1Ends | src/core/tcb.cpp:736-751 | in FIN_WAIT_1 a FIN is answered by a pure acknowledgment of it and leads to CLOSE_WAIT; the expected acknowledgment stops the timer of this side's FIN |
| Effects.FinWait2Ends | src/core/tcb.cpp:753-761 | in FIN_WAIT_2 a FIN is acknowledged and starts the TIME_WAIT timer |
| Effects.TimeWaitAnswers | src/core/tcb.cpp:763-772 | in TIME_WAIT a repeated FIN is acknowledged again and nothing else happens |
| Effects.TimeWaitExpires | src/core/tcb.cpp:901-907 | the TIME_WAIT timer closes the session and touches no other timer |
| Effects.CloseWaitEnds | src/core/tcb.cpp:816-836 | in CLOSE_WAIT every packet is acknowledged; the last FIN goes out exactly when closing is wanted and nothing is buffered or in flight, and its timer is the only one left |
| Effects.LastAckEnds | src/core/tcb.cpp:838-851 | in LAST_ACK exactly the acknowledgment one past `sendUnack` closes the session and stops the timer at that number; all others run on |
| Effects.ListenOpens | src/core/tcb.cpp:695-702 | `listen` opens a closed session and is ignored elsewhere |
| Effects.CloseEstablished | src/core/tcb.cpp:661-672 | `close` in ESTABLISHED tries to send once more, then the FIN goes out, and its timer is the only one left |
| Effects.CloseAfterPeer | src/core/tcb.cpp:673-676 | `close` in CLOSE_WAIT sends FIN with ACK, guarded; the timers of data run on |
| Effects.CloseElsewhere | src/core/tcb.cpp:677-692 | `close` during the handshake sends a RST and stops every timer; in the other states it does nothing |
| Effects.SendAppends | src/core/tcb.cpp:508-526 | `send` appends what fits and tries to send once; without data it does nothing |
| Effects.RecvTakes | src/core/tcb.cpp:528-552 | `recv` takes what was asked for or all there is; where that empties the buffer in CLOSE_WAIT and the flag is set, a guarded FIN with ACK goes out and the session is in LAST_ACK |
| Effects.TimeoutSends | src/core/tcb.cpp:370-416 | a timeout sends the packet with the current acknowledgment number and window, collapses the window, and is guarded for twice the time |
| Departures.ThirdDuplicate | src/core/tcb.cpp:170-178 | what the dead branch would do: window c / 2 + 4, threshold c / 2, and the packet found goes out as new data at `sendNext` |
| Departures.RememberedPacketIsFound | src/core/tcb.cpp:350-350 | a data packet is remembered under its number in network order, the first one stays, and looking up its own number finds it exactly when that number reads the same in both orders (or something was there before) |
| Wire.HeaderLayout | include/myutcp/core/segment.h:7-38 | every byte of the summed header stands at the offset of its field |
| Wire.HeaderInjective | include/myutcp/core/segment.h:7-38 | the 20 bytes determine the header |
| Wire.HeaderSum | src/core/tcb.cpp:448-459 | modulo 65535 the sum of a header is 256 times its ports, numbers, window and flags plus its data offset, checksum and urgent pointer |
| Wire.HeaderDetection | src/core/tcb.cpp:473-506 | an accepted packet whose header is exchanged for any other is accepted if and only if both weigh the same modulo 65535 (all zeros apart) |
| Wire.FieldDetection | src/core/tcb.cpp:473-506 | one changed field (numbers, ports, window, checksum) goes unnoticed if and only if it is congruent modulo 65535; changed flags never do |
| Wire.FlagBits | include/myutcp/core/tcb.h:52-60 | the flag byte holds each flag at its bit |
| Wire.WireRoundTrip | src/core/tcb.cpp:258-282 | a packet as it goes out is accepted as it is, and its bytes determine it |
| Timers.StopExact | src/network/TimerManager.cpp:4-12 | stopping silences exactly the timer at the number |
| Timers.StartExact | src/network/TimerManager.cpp:92-106 | starting runs the new timer in place of any at its number and leaves the others |
| Timers.RestartExact | src/network/TimerManager.cpp:84-106 | the same from the timer's own callback |
| Timers.DropExact | src/network/TimerManager.cpp:14-33 | dropping silences exactly the timer at the number and takes exactly its entry |
| Timers.StopUpToExact | src/network/TimerManager.cpp:70-82 | stopping up to n spares exactly the timers from n on |
| Timers.FireExact | src/network/TimerManager.cpp:84-90 | firing takes exactly the fired timer |
| Stacks.KnownPeerIsServed | include/myutcp/core/stack.h:116-119 | a known peer's packet leaves the table and all other sessions, and that peer's session becomes what `input` makes of it |
| Stacks.DamageIsIgnored | include/myutcp/core/stack.h:116-119 | a damaged packet of a known peer changes nothing |
| Stacks.DataIsServed | include/myutcp/core/stack.h:116-119 | through the stack, a payload in order that fits is appended and acknowledged |
| Stacks.EraseExact | include/myutcp/core/stack.h:76-81 | closing removes exactly that peer from the table; every other peer keeps its session |
| Stacks.ClosedPeerStartsOver | include/myutcp/core/stack.h:121-138 | after a close the peer is a stranger again: a bare SYN opens a new session, anything else is refused |
| Stacks.ServedAsIfAlone | include/myutcp/core/stack.h:104-139 | over every sequence of packets and closes, each peer's session is exactly what it would be in a stack that knows no other peer |
| RingBuffer.RingQueue.constructor | include/myutcp/core/RingBuffer.h:12-12 | a new queue holds nothing |
| RingBuffer.RingQueue.Push | include/myutcp/core/RingBuffer.h:14-17 | appends; a full queue loses its oldest element and nothing else, for every capacity and across wraparound |
| RingBuffer.RingQueue.Advance | include/myutcp/core/RingBuffer.h:131-139 | `head` moves one slot, and so does `tail` when the queue was full |
| RingBuffer.RingQueue.PushBatch | include/myutcp/core/RingBuffer.h:24-35 | appends all values or none, and says which |
| RingBuffer.RingQueue.TryPush | include/myutcp/core/RingBuffer.h:38-44 | appends if and only if there is room |
| RingBuffer.RingQueue.PeekRange | include/myutcp/core/RingBuffer.h:46-58 | the clamped slice of the contents, which stay as they are; where offset plus count wraps 64 bits, an exception |
| RingBuffer.RingQueue.PopFront | include/myutcp/core/RingBuffer.h:60-67 | drops a clamped prefix of the contents |
| RingBuffer.RingQueue.Pop | include/myutcp/core/RingBuffer.h:69-78 | takes the oldest element out, if there is one |
| RingBuffer.RingQueue.Front | include/myutcp/core/RingBuffer.h:80-86 | the oldest element |
| RingBuffer.RingQueue.Back | include/myutcp/core/RingBuffer.h:88-96 | the newest element |
| RingBuffer.RingQueue.At | include/myutcp/core/RingBuffer.h:120-128 | the element at a logical index |
| RingBuffer.RingQueue.Empty | include/myutcp/core/RingBuffer.h:98-100 | true exactly when the contents are empty |
| RingBuffer.RingQueue.Full | include/myutcp/core/RingBuffer.h:102-104 | true exactly when they fill the capacity |
| RingBuffer.RingQueue.Clear | include/myutcp/core/RingBuffer.h:114-118 | leaves nothing |
| Checksum.RoundTrip | src/core/tcb.cpp:441-506 | every header and payload up to 131054 bytes is accepted once its checksum is computed |
| Checksum.Detection | src/core/tcb.cpp:473-506 | one aligned word of an accepted packet changed from a to b is noticed unless a and b are congruent modulo 65535, and only then (all zeros apart) |
| Checksum.OrderDoesNotMatter | src/core/tcb.cpp:473-506 | rearranging aligned words never changes the verdict |
| Checksum.VerdictOnBytes | src/core/tcb.cpp:473-506 | the verdict on header and payload is the verdict on their concatenation |
| Checksum.NoOverflow | src/core/tcb.cpp:445-463 | the 32-bit accumulator does not overflow, and header then payload sum to the concatenation |
| Checksum.SumConcat | src/core/tcb.cpp:448-463 | sums of even-length pieces add up |
| Checksum.AddToSum | src/core/tcb.cpp:448-457 | the accumulating loop adds the little-endian words, an odd last byte as a word |
| Checksum.Fold | src/core/tcb.cpp:465-468 | the fold loop ends in at most two rounds with the residue modulo 65535 in 1..65535 |
| Checksum.CalculateChecksum | src/core/tcb.cpp:441-471 | stores the complement of the residue and changes no other field |
| Checksum.VerifyChecksum | src/core/tcb.cpp:473-506 | accepts exactly when the residue is 65535 |
| Timers.AlwaysOwned | src/network/TimerManager.cpp:4-117 | over every sequence of calls and expiries, every armed handle is the one the table holds at its sequence number |
| Timers.NoTwoArmed | src/network/TimerManager.cpp:92-106 | so no sequence number has two armed timers |
| Timers.DropUpToExact | src/network/TimerManager.cpp:57-66 | dropping up to n leaves exactly the entries from n on, armed as they were |
| Timers.StopAllDisarms | src/network/TimerManager.cpp:108-117 | stopping all timers disarms every one and ends the TIME_WAIT timer, and keeps the entries; dropping all takes the entries and keeps the TIME_WAIT timer |
| TimerManagement.TimerManager.constructor | include/myutcp/network/TimerManager.h:12-16 | a new manager holds no timer |
| TimerManagement.TimerManager.StartTimer | src/network/TimerManager.cpp:92-106 | the entry gets a new handle; an older handle at the number is disarmed |
| TimerManagement.TimerManager.StopTimer | src/network/TimerManager.cpp:4-12 | disarms the handle at the number and keeps the entry |
| TimerManagement.TimerManager.DropTimer | src/network/TimerManager.cpp:14-33 | disarms the handle at the number and removes the entry |
| TimerManagement.TimerManager.DropTimerUpTo | src/network/TimerManager.cpp:57-66 | the loop ends having dropped every entry below the bound |
| TimerManagement.TimerManager.DropAllTimers | src/network/TimerManager.cpp:35-55 | the loop ends having dropped every entry |
| TimerManagement.TimerManager.StopTimersUpTo | src/network/TimerManager.cpp:70-82 | disarms every entry strictly below the bound and keeps the table |
| TimerManagement.TimerManager.StopAllTimers | src/network/TimerManager.cpp:108-117 | disarms every entry and the TIME_WAIT timer |
| TimerManagement.TimerManager.Expired | src/network/TimerManager.cpp:84-90 | a one-shot timer is disarmed when it fires; its entry stays |
| ReadyQueue.AlwaysReady | include/myutcp/core/stack.h:24-29 | over every run of triggers and idle callbacks: a session is flagged exactly when it is queued, none is queued twice, and the idle handle is active exactly when the queue is not empty |
| ReadyQueue.TriggerIsServed | include/myutcp/core/tcb.h:208-214 | no trigger is lost: a session triggered at any time is served by an idle callback that follows |
| ReadyQueue.WaitingMeansActive | include/myutcp/core/stack.h:24-29 | while a session waits the idle handle is active, and the next callback serves it |
| ReadyQueue.ServeKeeps | include/myutcp/core/stack.h:182-191 | a trigger made inside the dispatch loop leaves its session either still to come in the batch or queued for the next one, and no other session is queued by the loop |
| ReadyQueue.DispatchServesOnce | include/myutcp/core/stack.h:175-192 | one dispatch serves every flagged session once |
| Stacks.TcpStack.constructor | include/myutcp/core/stack.h:39-48 | no session, nothing ready |
| Stacks.TcpStack.EnqueueReadySession | include/myutcp/core/stack.h:24-29 | queues the session and activates the idle handle |
| Stacks.TcpStack.TriggerEvent | include/myutcp/core/tcb.h:208-214 | queues a session that is not flagged and flags it; a flagged one changes nothing |
| Stacks.TcpStack.OnIdleDispatch | include/myutcp/core/stack.h:175-192 | the swapped batch is served in order, whatever the callbacks trigger meanwhile |
| Stacks.TcpStack.OnReceive | include/myutcp/core/stack.h:104-139 | a packet goes to the `input` of its peer's session and changes no other; for an unknown peer exactly a bare SYN creates a session, which listens and takes the packet; anything else is answered with a RST |
| Stacks.TcpStack.CreateSession | include/myutcp/core/stack.h:57-100 | an existing session is kept and returned, a missing one is created with the configured fields |
| Stacks.TcpStack.OnClosed | include/myutcp/core/stack.h:76-81 | removes the peer's session from the table and no other |
| Stacks.PacketsStaySeparate | include/myutcp/core/stack.h:104-139 | after any packets and closes, a packet of one peer leaves every other peer's session as it is |
| Stacks.StepKnown | include/myutcp/core/stack.h:95-99 | no two peers share a session, whatever arrives and closes |
| Stacks.SynOpens | include/myutcp/core/stack.h:123-129 | an intact bare SYN of an unknown peer opens a session with the configured fields that answers with a SYN-ACK and guards it; a damaged one leaves a listening session behind; every other session and peer stays |
| Stacks.StrangersAreRefused | include/myutcp/core/stack.h:130-137 | any other packet of an unknown peer changes nothing and is answered with a RST |
| Stacks.RefusalFailsChecksum | include/myutcp/core/stack.h:130-137 | that RST carries no checksum, so a session that receives it discards it |
| TcpSessions.TcpSession.constructor | src/core/tcb.cpp:7-33 | both buffers empty, window 1, threshold 8, CLOSED |
| TcpSessions.TcpSession.SendPureAck | src/core/tcb.cpp:258-282 | emits one packet at `sendNext` with the given acknowledgment number and the free buffer space as window; moves nothing |
| TcpSessions.TcpSession.SendControlPacket | src/core/tcb.cpp:293-326 | emits one packet; SYN and FIN take a sequence number and start a timer, others do neither |
| TcpSessions.TcpSession.SendPayloadPacket | src/core/tcb.cpp:328-368 | emits the payload at `sendNext`, remembers it under the network-order number, starts its timer; an empty payload does nothing |
| TcpSessions.TcpSession.HandleTrySend | src/core/tcb.cpp:418-439 | sends the buffered bytes after those in flight, as many as the 32-bit allowance says, in ESTABLISHED and CLOSE_WAIT only |
| TcpSessions.TcpSession.BackOff | src/core/tcb.cpp:384-391 | window 1 and the new threshold |
| TcpSessions.TcpSession.Resend | src/core/tcb.cpp:399-413 | the packet goes out with its timer at RTO * 2^count |
| TcpSessions.TcpSession.HandleRetransmit | src/core/tcb.cpp:370-416 | gives up at the fifth count, else backs off and sends the refreshed packet |
| TcpSessions.TcpSession.Expire | src/core/tcb.cpp:352-356 | the fired timer is disarmed and its callback runs with the captured packet and count |
| TcpSessions.TcpSession.Release | src/core/tcb.cpp:132-154 | pops exactly the acknowledged bytes and moves `sendUnack` |
| TcpSessions.TcpSession.CountDuplicates | src/core/tcb.cpp:158-165 | a larger number resets the counter, an equal one counts |
| TcpSessions.TcpSession.FastRetransmit | src/core/tcb.cpp:170-178 | the default callback and the window reduction |
| TcpSessions.TcpSession.ResendRemembered | src/core/tcb.cpp:85-95 | looks the packet up under the host-order number |
| TcpSessions.TcpSession.Grow | src/core/tcb.cpp:181-197 | doubles below the threshold, else adds one, in 32 bits |
| TcpSessions.TcpSession.AcceptAck | src/core/tcb.cpp:132-197 | all effects of an acceptable acknowledgment before sending |
| TcpSessions.TcpSession.HandleAck | src/core/tcb.cpp:128-204 | accepts exactly numbers in (`sendUnack`, `sendNext`], then tries to send |
| TcpSessions.TcpSession.Take | src/core/tcb.cpp:209-214 | takes the whole payload or none of it |
| TcpSessions.TcpSession.TakeStored | src/core/tcb.cpp:219-228 | takes the first stored segment, or marks the session as spinning when it does not fit |
| TcpSessions.TcpSession.DrainOutOfOrder | src/core/tcb.cpp:218-232 | the loop refines the draining function that `Reassembly.DrainExact` characterises |
| TcpSessions.TcpSession.Store | src/core/tcb.cpp:240-248 | stores numbers strictly inside the receive window |
| TcpSessions.TcpSession.HandleIncomingPacket | src/core/tcb.cpp:206-256 | takes or stores, then acknowledges `recvNext` |
| TcpSessions.TcpSession.Connect | src/core/tcb.cpp:633-659 | SYN at `iss`, window at `iss` + 1 |
| TcpSessions.TcpSession.Listen | src/core/tcb.cpp:695-702 | CLOSED becomes LISTEN; anything else is ignored |
| TcpSessions.TcpSession.HandleSynSent | src/core/tcb.cpp:705-734 | establishes on a SYN-ACK of its SYN; answers a bare SYN |
| TcpSessions.TcpSession.HandleListen | src/core/tcb.cpp:774-796 | answers a SYN with a SYN-ACK at `iss` |
| TcpSessions.TcpSession.HandleSynReceived | src/core/tcb.cpp:798-814 | establishes on the acknowledgment of its SYN-ACK |
| TcpSessions.TcpSession.HandleEstablished | src/core/tcb.cpp:862-884 | acknowledgment, payload, FIN, in this order |
| TcpSessions.TcpSession.HandleFinWait1 | src/core/tcb.cpp:736-751 | FIN_WAIT_2 on the expected acknowledgment, CLOSE_WAIT on a FIN |
| TcpSessions.TcpSession.HandleFinWait2 | src/core/tcb.cpp:753-761 | TIME_WAIT and its timer on a FIN |
| TcpSessions.TcpSession.HandleTimeWait | src/core/tcb.cpp:763-772 | acknowledges a repeated FIN |
| TcpSessions.TcpSession.HandleCloseWait | src/core/tcb.cpp:816-836 | acknowledges, tries to send, and closes when nothing is left |
| TcpSessions.TcpSession.HandleLastAck | src/core/tcb.cpp:838-851 | CLOSED on the acknowledgment of the FIN |
| TcpSessions.TcpSession.HandleReset | src/core/tcb.cpp:853-860 | CLOSED with all timers stopped |
| TcpSessions.TcpSession.Input | src/core/tcb.cpp:572-595 | drops packets that fail the checksum, closes on RST, drops packets without ACK, SYN or FIN |
| TcpSessions.TcpSession.Dispatch | src/core/tcb.cpp:596-630 | the handler of the state |
| TcpSessions.TcpSession.Send | src/core/tcb.cpp:508-526 | accepts a prefix that fits, says how much, and tries to send |
| TcpSessions.TcpSession.Close | src/core/tcb.cpp:661-693 | the four ways to close and the states that ignore it |
| TcpSessions.TcpSession.Recv | src/core/tcb.cpp:528-552 | returns the clamped prefix of the receive buffer and closes at end of file |
| TcpSessions.TcpSession.ReadAll | src/core/tcb.cpp:554-570 | returns and removes the whole receive buffer |
| TcpSessions.TcpSession.UsableRecvWindow | src/core/tcb.cpp:258-270 | the free space of the receive buffer |
| TcpSessions.TcpSession.ReduceWindow | src/core/tcb.cpp:172-177 | half the window plus three, and the counter cleared |
| TcpSessions.TcpSession.Open | src/core/tcb.cpp:648-658 | the first packet of either side at `iss`, the window at `iss` + 1 |
| TcpSessions.TcpSession.Advance | src/core/tcb.cpp:717-719 | moves `sendUnack` and stops the timer of what was acknowledged |
| TcpSessions.TcpSession.Establish | src/core/tcb.cpp:721-725 | ESTABLISHED, then a first attempt to send |
| TcpSessions.TcpSession.AnswerSynAck | src/core/tcb.cpp:717-720 | takes the peer's number and acknowledges it |
| TcpSessions.TcpSession.AnswerSyn | src/core/tcb.cpp:729-732 | SYN_RECEIVED with a SYN-ACK at `sendNext` |
| TcpSessions.TcpSession.TakeFin | src/core/tcb.cpp:876-880 | `recvNext` one past the FIN, its acknowledgment, and the next state |
| TcpSessions.TcpSession.SendLastFin | src/core/tcb.cpp:829-835 | stops all timers, sends the FIN, LAST_ACK |
| TcpSessions.TcpSession.StartClose | src/core/tcb.cpp:668-672 | stops all timers, sends the FIN, FIN_WAIT_1 |
| TcpSessions.TcpSession.FinishClose | src/core/tcb.cpp:673-676 | FIN with ACK, LAST_ACK |
| TcpSessions.TcpSession.Abort | src/core/tcb.cpp:677-689 | RST, all timers stopped, CLOSED |
| TcpSessions.TcpSession.TakeBytes | src/core/tcb.cpp:530-536 | the loop over single bytes returns and removes a prefix |
| TcpSessions.TcpSession.CloseAtEof | src/core/tcb.cpp:538-543 | closes in CLOSE_WAIT when the buffer is empty and the flag says so |
| TcpSessions.TcpSession.TwoMslTimeout | src/core/tcb.cpp:901-907 | TIME_WAIT ends |

## Left out

- Connection.DeliveryIsPrefix: a stream of 2^32 bytes or more is covered when the first data byte's number is at least 1024 (the window then stops where the numbers wrap); below that a duplicate from the first lap is taken for new data (`Departures.SecondLapConfuses`), and the run is outside `NoLap`. The other theorems over runs share this condition.
- Reassembly.NothingDeliverableWaits: only while both sides are ESTABLISHED, and only for sequence numbers that do not wrap, because the program compares them as plain integers.
- SingleRuns.AlwaysAligned: simultaneous open is outside the runs of one endpoint (`Departures.SimultaneousOpenMisaligns`).
- Connection.AcksAlwaysSound: speaks of senders in ESTABLISHED, because a FIN taken out of order moves `recvNext` past bytes that were not received (`Departures.FinAckExact`).
- Boundaries.AcksAtBoundaries: speaks of senders in ESTABLISHED; acknowledgments are not accepted in later states.
- Tracking.SegmentsAlwaysTracked: says nothing after this side closes, when data timers are stopped or abandoned.
- Timing.RetransmissionSchedule: timers fire exactly when they are due; lateness of the event loop is not modelled.
- Corruption that leaves the 16-bit sum as it is: such a packet cannot arrive in the system model; `Checksum.Detection` and `Wire.HeaderDetection` say which changes those are.
- Liveness and full delivery: the program abandons data after five transmissions and `close` discards unsent bytes, so no claim of eventual delivery under loss is made; `Exchange` shows that runs without loss deliver everything.
- Destination addresses: data retransmissions go to a default captured address; in the model they join the same network.
- The contents of the map of remembered packets: kept as the program keeps it, network-order keys included; no run theorem speaks of it, since it is read in the dead branch only (`Departures.RememberedPacketIsFound`, `Departures.ThirdDuplicate`).
- Round-trip time: the program records two time points and never uses them; the timeout is constant.
- Reuse of a session object after CLOSED, and packets of earlier connections.
- Callbacks of the application inside the handlers (`on_established`, `on_data`, `on_closed`): they are taken not to call back into the session; the stack's own `on_closed`, which erases the session, is an event of its own; triggers from the ready queue's callback are modelled.
- Heap lifetime: sessions erased while queued, handles replaced in `start_timer` and destructors.
- Random numbers: `_generate_initial_seq` and the constructor's distribution are parameters.
- libuv, sockets, address parsing, simulated loss and serialisation in `src/network/UdpDriver.cpp`: sending is adding a packet to the network.
- Logging, `state_to_string`, `parse_flags_to_string`, the builders of example programs and CMake files.
