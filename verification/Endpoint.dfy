/** A session together with what an observer knows about its past, and the events that can happen to it. */
module Endpoints {
  import opened Types
  import opened Session
  import BQ = BoundedQueue

  datatype Event =
    | CallConnect
    | CallListen
    | CallSend(data: seq<u8>)
    | CallRecv(count: nat)
    | CallClose
    | Deliver(packet: Packet, intact: bool)
    | TimerExpires(handle: nat)
    | TwoMslExpires

  /**
   * `iss` is the initial sequence number drawn for the connection and `passive` tells a server's session from a
   * client's. The rest is history: which phases were reached, whether the send buffer was shifted, the bytes `send`
   * accepted, the bytes read, the acknowledgments accepted, the stream positions at which `sendNext` stood while the
   * connection was established or closed by the peer alone, and the number of timeouts: expiries that send again.
   */
  datatype Endpoint = Endpoint(
    tcb: Tcb,
    iss: u32,
    passive: bool,
    begun: bool,
    synced: bool,
    established: bool,
    activeClosed: bool,
    shifted: bool,
    accepted: seq<u8>,
    readOut: seq<u8>,
    acks: seq<u32>,
    cuts: seq<nat>,
    timeouts: nat)

  function New(iss: u32, passive: bool, recvWindowSize: u32, lastAck: u32, autoClose: bool): Endpoint {
    Endpoint(Initial(recvWindowSize, lastAck, autoClose), iss, passive, false, false, false, false, false,
             [], [], [], [0], 0)
  }

  /** A bare SYN that reaches a session which has sent one itself. */
  predicate SimultaneousOpen(t: Tcb, packet: Packet) {
    t.state == SYN_SENT && packet.flags.syn && !packet.flags.ack
  }

  /**
   * A session is opened once, by its own side of the handshake; a timer fires only while armed; a session that
   * spins in its draining loop does nothing any more.
   */
  predicate Possible(e: Endpoint, ev: Event) {
    && !e.tcb.hung
    && match ev
       case CallConnect => !e.begun && !e.passive
       case CallListen => !e.begun && e.passive
       case TimerExpires(handle) => handle in e.tcb.timers.armed
       case TwoMslExpires => e.tcb.timers.twoMsl
       case _ => true
  }

  /** Simultaneous open is left out: it puts the SYN-ACK on the first data byte's sequence number. */
  predicate Enabled(e: Endpoint, ev: Event) {
    && Possible(e, ev)
    && (ev.Deliver? && ev.intact && !ev.packet.flags.rst ==> !SimultaneousOpen(e.tcb, ev.packet))
  }

  function Perform(t: Tcb, iss: u32, ev: Event): Tcb
    requires ev.TimerExpires? ==> ev.handle in t.timers.armed
  {
    match ev
    case CallConnect => Connect(t, iss)
    case CallListen => Listen(t)
    case CallSend(data) => Send(t, data)
    case CallRecv(count) => Recv(t, count)
    case CallClose => Close(t)
    case Deliver(packet, intact) => Input(t, packet, intact, iss)
    case TimerExpires(handle) => Expire(t, handle)
    case TwoMslExpires => TwoMslTimeout(t)
  }

  /** An expiry that sends its packet again, as opposed to one that gives it up. */
  predicate TimesOut(t: Tcb, ev: Event)
    requires ev.TimerExpires? ==> ev.handle in t.timers.armed
  {
    ev.TimerExpires? && t.timers.armed[ev.handle].count + 1 < MAX_RETRANSMIT_COUNT
  }

  /** The number of bytes that left the send buffer because they were acknowledged. */
  function Popped(t: Tcb, stream: seq<u8>): int {
    |stream| - |t.sendBuffer|
  }

  /** The number of bytes sent at least once. */
  function Sent(t: Tcb, stream: seq<u8>): int {
    Popped(t, stream) + InFlight(t)
  }

  function WithCut(cuts: seq<nat>, position: int): seq<nat> {
    if cuts != [] && cuts[|cuts| - 1] < position then cuts + [position] else cuts
  }

  /**
   * FIN_WAIT_1 became CLOSE_WAIT through a FIN that also acknowledged this side's FIN: `sendUnack` moved, and the send
   * buffer did not. From then on the buffer stands one number after its place in the stream.
   */
  predicate Shifts(t: Tcb, u: Tcb) {
    t.state == FIN_WAIT_1 && u.state == CLOSE_WAIT && u.sendUnack != t.sendUnack
  }

  function Accepting(e: Endpoint, ev: Event): seq<u8> {
    if ev.CallSend? then e.accepted + ev.data[..SendRoom(e.tcb, ev.data)] else e.accepted
  }

  function Next(e: Endpoint, ev: Event): Endpoint
    requires Possible(e, ev)
  {
    var t := Perform(e.tcb, e.iss, ev);
    Endpoint(
      t,
      e.iss,
      e.passive,
      e.begun || ev.CallConnect? || ev.CallListen?,
      e.synced || t.state == SYN_RECEIVED || t.state == ESTABLISHED,
      e.established || t.state == ESTABLISHED,
      e.activeClosed || t.state == FIN_WAIT_1,
      e.shifted || Shifts(e.tcb, t),
      Accepting(e, ev),
      if ev.CallRecv? then e.readOut + e.tcb.recvBuffer[..ReadCount(e.tcb, ev.count)] else e.readOut,
      if e.tcb.state == ESTABLISHED && ev.Deliver? && t.sendUnack != e.tcb.sendUnack then e.acks + [t.sendUnack]
      else e.acks,
      if t.state == ESTABLISHED || (t.state == CLOSE_WAIT && !e.activeClosed)
      then WithCut(e.cuts, Sent(t, Accepting(e, ev)))
      else e.cuts,
      if TimesOut(e.tcb, ev) then e.timeouts + 1 else e.timeouts)
  }

  /** Every event of `trace` is enabled when its turn comes. */
  predicate Runs(e: Endpoint, trace: seq<Event>)
    decreases |trace|
  {
    trace == [] || (Enabled(e, trace[0]) && Runs(Next(e, trace[0]), trace[1..]))
  }

  function After(e: Endpoint, trace: seq<Event>): Endpoint
    requires Runs(e, trace)
    decreases |trace|
  {
    if trace == [] then e else After(Next(e, trace[0]), trace[1..])
  }

  /** The connection has not yet been closed from either side. */
  predicate Active(e: Endpoint) {
    !e.begun || e.tcb.state in {LISTEN, SYN_SENT, SYN_RECEIVED, ESTABLISHED}
  }

  /** How the history flags go with the state. */
  predicate Phases(e: Endpoint) {
    var s := e.tcb.state;
    && (!e.begun ==> s == CLOSED && !e.synced)
    && (s == LISTEN ==> e.begun && e.passive && !e.synced)
    && (s == SYN_SENT ==> e.begun && !e.passive && !e.synced)
    && (s == SYN_RECEIVED ==> e.begun && e.passive && e.synced && !e.established)
    && (s == ESTABLISHED ==> e.established && !e.activeClosed)
    && (s in {FIN_WAIT_1, FIN_WAIT_2, CLOSE_WAIT, LAST_ACK, TIME_WAIT} ==> e.established)
    && (s in {FIN_WAIT_1, FIN_WAIT_2, TIME_WAIT} ==> e.activeClosed)
    && (e.shifted ==> e.activeClosed && s != FIN_WAIT_1)
    && (e.activeClosed ==> e.established)
    && (e.established ==> e.synced)
    && (e.synced ==> e.begun)
    && (!e.passive && e.synced ==> e.established)
  }

  predicate SameSendSide(a: Tcb, b: Tcb) {
    && a.state == b.state
    && a.sendBuffer == b.sendBuffer
    && a.timers == b.timers
    && a.sendUnack == b.sendUnack
    && a.sendNext == b.sendNext
    && a.sendWindowSize == b.sendWindowSize
    && a.ssthresh == b.ssthresh
    && a.lastAckReceived == b.lastAckReceived
    && a.dupAckCount == b.dupAckCount
  }

  predicate SameRecvSide(a: Tcb, b: Tcb) {
    && a.recvBuffer == b.recvBuffer
    && a.ooo == b.ooo
    && a.recvNext == b.recvNext
    && a.recvWindowSize == b.recvWindowSize
    && a.hung == b.hung
  }

  lemma {:induction false} DrainKeeps(t: Tcb)
    ensures SameSendSide(t, Drain(t)) && Drain(t).out == t.out && Drain(t).recvWindowSize == t.recvWindowSize
    decreases t.ooo.Keys
  {
    if t.hung || !NextIsStored(t) || TakeStored(t).hung {
    } else {
      DrainKeeps(TakeStored(t));
    }
  }

  lemma TakeKeeps(t: Tcb, data: seq<u8>, packet: Packet)
    ensures SameSendSide(t, Take(t, data)) && SameSendSide(t, Store(t, packet))
  {
    if BQ.Fits(t.recvBuffer, CAPACITY, data) {
    } else {
    }
  }

  /** Taking in a payload leaves the sending side alone. */
  lemma IncomingKeeps(t: Tcb, packet: Packet)
    ensures SameSendSide(t, HandleIncoming(t, packet))
  {
    hide Take, Store, Drain;
    TakeKeeps(t, packet.payload, packet);
    DrainKeeps(Take(t, packet.payload));
  }

  lemma TrySendKeeps(t: Tcb)
    ensures SameRecvSide(t, TrySend(t)) && TrySend(t).state == t.state
  {
  }

  lemma AcceptKeeps(t: Tcb, ackNum: u32)
    requires AckAcceptable(t, ackNum)
    ensures SameRecvSide(t, AcceptAck(t, ackNum)) && AcceptAck(t, ackNum).state == t.state
  {
    var counted := CountDuplicates(Release(t, ackNum), ackNum);
    assert SameRecvSide(t, counted) && counted.state == t.state;
    if counted.dupAckCount == 3 {
      assert SameRecvSide(t, FastRetransmit(counted, ackNum));
    }
  }

  /** Acknowledgments leave the receiving side and the state alone. */
  lemma AckKeeps(t: Tcb, packet: Packet)
    ensures SameRecvSide(t, HandleAck(t, packet)) && HandleAck(t, packet).state == t.state
  {
    if AckAcceptable(t, packet.ackNum) {
      AcceptKeeps(t, packet.ackNum);
      TrySendKeeps(AcceptAck(t, packet.ackNum));
    }
  }

  lemma EstablishedState(t: Tcb, packet: Packet)
    requires t.state == ESTABLISHED
    ensures HandleEstablished(t, packet).state in {ESTABLISHED, CLOSE_WAIT}
    ensures !packet.flags.fin ==> HandleEstablished(t, packet).state == ESTABLISHED
  {
    AckKeeps(t, packet);
    IncomingKeeps(Acked(t, packet), packet);
  }

  lemma EstablishedIsDispatched(t: Tcb, packet: Packet, iss: u32)
    requires t.state == ESTABLISHED
    ensures Dispatch(t, packet, iss) == HandleEstablished(t, packet)
  {
  }

  /** Where a packet can take a session. */
  lemma {:induction false} DispatchState(t: Tcb, packet: Packet, iss: u32)
    requires !SimultaneousOpen(t, packet)
    ensures var s := Dispatch(t, packet, iss).state;
      match t.state
      case CLOSED => s == CLOSED
      case LISTEN => s in {LISTEN, SYN_RECEIVED}
      case SYN_SENT => s in {SYN_SENT, ESTABLISHED}
      case SYN_RECEIVED => s in {SYN_RECEIVED, ESTABLISHED}
      case ESTABLISHED => s in {ESTABLISHED, CLOSE_WAIT}
      case FIN_WAIT_1 => s in {FIN_WAIT_1, FIN_WAIT_2, CLOSE_WAIT}
      case FIN_WAIT_2 => s in {FIN_WAIT_2, TIME_WAIT}
      case CLOSE_WAIT => s in {CLOSE_WAIT, LAST_ACK}
      case LAST_ACK => s in {LAST_ACK, CLOSED}
      case TIME_WAIT => s == TIME_WAIT
    ensures !packet.flags.fin && Dispatch(t, packet, iss).state == CLOSE_WAIT ==> t.state == CLOSE_WAIT
  {
    if t.state == ESTABLISHED {
      EstablishedState(t, packet);
    }
  }

  lemma PhasesDeliver(e: Endpoint, packet: Packet, intact: bool)
    requires Phases(e) && Enabled(e, Deliver(packet, intact))
    ensures Phases(Next(e, Deliver(packet, intact)))
    ensures Active(Next(e, Deliver(packet, intact))) ==> Active(e)
  {
    hide Dispatch;
    if intact && !packet.flags.rst {
      DispatchState(e.tcb.(peerWindow := packet.window), packet, e.iss);
    }
  }

  lemma CloseState(t: Tcb)
    ensures var s := Close(t).state;
      match t.state
      case ESTABLISHED => s == FIN_WAIT_1
      case CLOSE_WAIT => s == LAST_ACK
      case SYN_SENT => s == CLOSED
      case SYN_RECEIVED => s == CLOSED
      case _ => s == t.state
  {
  }

  /** Where anything but a packet can take a session. */
  lemma CallState(t: Tcb, iss: u32, ev: Event)
    requires !ev.Deliver? && (ev.TimerExpires? ==> ev.handle in t.timers.armed)
    ensures var s := Perform(t, iss, ev).state;
      match ev
      case CallConnect => s == SYN_SENT
      case CallListen => s == if t.state == CLOSED then LISTEN else t.state
      case CallRecv(_) => s == t.state || (t.state == CLOSE_WAIT && s == LAST_ACK)
      case CallClose => s == Close(t).state
      case TwoMslExpires => s == CLOSED
      case _ => s == t.state
  {
    hide Close, TrySend;
    match ev
    case CallRecv(count) => CloseState(t.(recvBuffer := t.recvBuffer[ReadCount(t, count)..]));
    case CallSend(data) => TrySendKeeps(t.(sendBuffer := t.sendBuffer + data[..SendRoom(t, data)]));
    case _ =>
  }

  lemma PhasesStep(e: Endpoint, ev: Event)
    requires Phases(e) && Enabled(e, ev)
    ensures Phases(Next(e, ev))
    ensures Active(Next(e, ev)) ==> Active(e)
  {
    hide Perform, Close;
    if ev.Deliver? {
      PhasesDeliver(e, ev.packet, ev.intact);
    } else {
      CallState(e.tcb, e.iss, ev);
      CloseState(e.tcb);
    }
  }
}
