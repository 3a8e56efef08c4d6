/** One TCP session on plain values: what every call does to the session's fields and what it hands to the driver. */
module Session {
  import opened Types
  import opened Timers
  import BQ = BoundedQueue

  type Buffer = s: seq<u8> | |s| <= CAPACITY

  /**
   * The fields of a session. `out` lists every packet handed to the UDP driver so far. `hung` is set when the loop
   * that drains the out-of-order map would never leave; nothing happens in such a session any more.
   */
  datatype Tcb = Tcb(
    state: TcpState,
    sendBuffer: Buffer,
    recvBuffer: Buffer,
    ooo: map<u32, seq<u8>>,
    inflight: map<u32, Packet>,
    userWantToClose: bool,
    peerWindow: u16,
    timers: Table,
    sendUnack: u32,
    sendNext: u32,
    sendWindowSize: u32,
    recvNext: u32,
    recvWindowSize: u32,
    ssthresh: u32,
    lastAckReceived: u32,
    dupAckCount: nat,
    autoCloseOnEof: bool,
    out: seq<Packet>,
    hung: bool)

  /** A new session. The program sets `recvWindowSize` to 1 and draws `lastAck` from 0..10000. */
  function Initial(recvWindowSize: u32, lastAck: u32, autoClose: bool): Tcb {
    Tcb(CLOSED, [], [], map[], map[], false, 0, EMPTY, 0, 0, 1, 0, recvWindowSize, 8, lastAck, 0, autoClose, [], false)
  }

  function UsableRecvWindow(t: Tcb): u16 {
    CAPACITY - |t.recvBuffer|
  }

  function InFlight(t: Tcb): u32 {
    Wrap32(t.sendNext - t.sendUnack)
  }

  // Sending

  function SendPureAck(t: Tcb, ackNum: u32): Tcb {
    t.(out := t.out + [Packet(t.sendNext, ackNum, FLAG_ACK, UsableRecvWindow(t), [])])
  }

  function ControlPacket(t: Tcb, flags: Flags): Packet {
    Packet(t.sendNext, t.recvNext, flags, UsableRecvWindow(t), [])
  }

  function SendControl(t: Tcb, flags: Flags): Tcb {
    var packet := ControlPacket(t, flags);
    if flags.syn || flags.fin then
      t.(timers := StartTimer(t.timers, t.sendNext, INITIAL_RTO, packet, 0),
         sendNext := Wrap32(t.sendNext + 1),
         out := t.out + [packet])
    else
      t.(out := t.out + [packet])
  }

  function PayloadPacket(t: Tcb, data: seq<u8>, flags: Flags): Packet {
    Packet(t.sendNext, t.recvNext, flags, UsableRecvWindow(t), data)
  }

  /** `try_emplace` under the key as stored in the header, that is, in network order. */
  function Remember(inflight: map<u32, Packet>, packet: Packet): map<u32, Packet> {
    if Htonl(packet.seqNum) in inflight then inflight else inflight[Htonl(packet.seqNum) := packet]
  }

  function SendPayload(t: Tcb, data: seq<u8>, flags: Flags): Tcb {
    if data == [] then t
    else
      var packet := PayloadPacket(t, data, flags);
      t.(inflight := Remember(t.inflight, packet),
         timers := StartTimer(t.timers, t.sendNext, INITIAL_RTO, packet, 0),
         sendNext := Wrap32(t.sendNext + |data|),
         out := t.out + [packet])
  }

  predicate MaySend(state: TcpState) {
    state == ESTABLISHED || state == CLOSE_WAIT
  }

  function Allowance(t: Tcb): u32 {
    Wrap32(t.sendWindowSize - InFlight(t))
  }

  function TrySend(t: Tcb): Tcb {
    if !MaySend(t.state) || Allowance(t) == 0 then t
    else SendPayload(t, BQ.PeekRange(t.sendBuffer, InFlight(t), Allowance(t)), FLAG_ACK)
  }

  // Retransmission

  function HalvedThreshold(cwnd: u32): u32 {
    if cwnd % 2 == 1 then Wrap32(cwnd + 1) / 2 else cwnd + 1
  }

  function Refreshed(t: Tcb, packet: Packet): Packet {
    packet.(ackNum := t.recvNext, window := UsableRecvWindow(t))
  }

  function BackOff(t: Tcb): Tcb {
    t.(ssthresh := HalvedThreshold(t.sendWindowSize), sendWindowSize := 1)
  }

  function Resend(t: Tcb, packet: Packet, count: nat, seqNum: u32): Tcb {
    t.(timers := StartTimer(t.timers, seqNum, INITIAL_RTO * Pow2(count), packet, count), out := t.out + [packet])
  }

  function HandleRetransmit(t: Tcb, packet: Packet, retransmitCount: nat, seqNum: u32): Tcb {
    var stopped := t.(timers := StopTimer(t.timers, seqNum));
    if retransmitCount + 1 >= MAX_RETRANSMIT_COUNT then stopped
    else Resend(BackOff(stopped), Refreshed(t, packet), retransmitCount + 1, seqNum)
  }

  /** Timer `h` fires: the loop disarms it, then its callback runs. */
  function Expire(t: Tcb, h: nat): Tcb
    requires h in t.timers.armed
  {
    var timer := t.timers.armed[h];
    HandleRetransmit(t.(timers := Fire(t.timers, h)), timer.packet, timer.count, timer.packet.seqNum)
  }

  // Acknowledgments

  predicate AckAcceptable(t: Tcb, ackNum: u32) {
    t.sendUnack < ackNum <= t.sendNext
  }

  /** Everything the acknowledgment releases. */
  function Release(t: Tcb, ackNum: u32): Tcb
    requires AckAcceptable(t, ackNum)
  {
    t.(timers := DropUpTo(t.timers, ackNum - 1),
       sendBuffer := BQ.PopFront(t.sendBuffer, ackNum - t.sendUnack),
       sendUnack := ackNum,
       inflight := map k | k in t.inflight && ackNum <= k :: t.inflight[k])
  }

  function CountDuplicates(t: Tcb, ackNum: u32): Tcb {
    if t.lastAckReceived < ackNum then t.(lastAckReceived := ackNum, dupAckCount := 0)
    else if t.lastAckReceived == ackNum then t.(dupAckCount := t.dupAckCount + 1)
    else t
  }

  /** The default callback for three duplicate acknowledgments, then the window reduction. */
  function FastRetransmit(t: Tcb, ackNum: u32): Tcb {
    ReduceWindow(ResendRemembered(t.(timers := StopTimer(t.timers, ackNum)), ackNum))
  }

  function ResendRemembered(t: Tcb, ackNum: u32): Tcb {
    if ackNum in t.inflight then SendPayload(t, t.inflight[ackNum].payload, t.inflight[ackNum].flags) else t
  }

  function ReduceWindow(t: Tcb): Tcb {
    t.(ssthresh := t.sendWindowSize / 2, sendWindowSize := Wrap32(t.sendWindowSize / 2 + 3), dupAckCount := 0)
  }

  function GrowWindow(cwnd: u32, ssthresh: u32): u32 {
    if cwnd < ssthresh then Wrap32(cwnd * 2) else Wrap32(cwnd + 1)
  }

  function Grow(t: Tcb): Tcb {
    t.(sendWindowSize := GrowWindow(t.sendWindowSize, t.ssthresh))
  }

  function AcceptAck(t: Tcb, ackNum: u32): Tcb
    requires AckAcceptable(t, ackNum)
  {
    var counted := CountDuplicates(Release(t, ackNum), ackNum);
    Grow(if counted.dupAckCount == 3 then FastRetransmit(counted, ackNum) else counted)
  }

  function HandleAck(t: Tcb, packet: Packet): Tcb {
    if AckAcceptable(t, packet.ackNum) then TrySend(AcceptAck(t, packet.ackNum)) else t
  }

  // Receiving

  function Append(t: Tcb, data: seq<u8>): Tcb
    requires BQ.Fits(t.recvBuffer, CAPACITY, data)
  {
    t.(recvBuffer := t.recvBuffer + data, recvNext := Wrap32(t.recvNext + |data|))
  }

  /** The first stored segment, in the map's order, is the one expected next. */
  predicate NextIsStored(t: Tcb) {
    t.recvNext in t.ooo && forall k :: k in t.ooo ==> t.recvNext <= k
  }

  /** One round of the draining loop. */
  function TakeStored(t: Tcb): Tcb
    requires NextIsStored(t)
  {
    var data := t.ooo[t.recvNext];
    if BQ.Fits(t.recvBuffer, CAPACITY, data) then Append(t, data).(ooo := t.ooo - {t.recvNext}) else t.(hung := true)
  }

  function Drain(t: Tcb): Tcb
    decreases t.ooo.Keys
  {
    if t.hung || !NextIsStored(t) then t
    else
      var next := TakeStored(t);
      if next.hung then next else Drain(next)
  }

  /** An in-order payload that does not fit is discarded; the stored segments are tried either way. */
  function Take(t: Tcb, data: seq<u8>): Tcb {
    if BQ.Fits(t.recvBuffer, CAPACITY, data) then Append(t, data) else t
  }

  function Store(t: Tcb, packet: Packet): Tcb {
    if t.recvNext < packet.seqNum < Wrap32(t.recvNext + t.recvWindowSize)
    then t.(ooo := t.ooo[packet.seqNum := packet.payload])
    else t
  }

  function HandleIncoming(t: Tcb, packet: Packet): Tcb {
    var taken := if packet.seqNum == t.recvNext then Drain(Take(t, packet.payload)) else Store(t, packet);
    if taken.hung then taken else SendPureAck(taken, taken.recvNext)
  }

  // The connection state machine

  /** The first packet of a connection, a SYN or SYN-ACK at `iss`. */
  function Open(t: Tcb, iss: u32, flags: Flags, state: TcpState): Tcb {
    SendControl(t.(state := state, sendNext := iss, sendUnack := iss), flags).(sendNext := Wrap32(iss + 1))
  }

  function Connect(t: Tcb, iss: u32): Tcb {
    Open(t, iss, FLAG_SYN, SYN_SENT)
  }

  function Listen(t: Tcb): Tcb {
    if t.state == CLOSED then t.(state := LISTEN) else t
  }

  /** The acknowledgment of a SYN or FIN: exactly one past `sendUnack`. */
  predicate AcksNext(t: Tcb, packet: Packet) {
    packet.flags.ack && packet.ackNum == Wrap32(t.sendUnack + 1)
  }

  function Advance(t: Tcb, ackNum: u32): Tcb {
    t.(sendUnack := ackNum, timers := StopTimer(t.timers, Wrap32(ackNum - 1)))
  }

  function Synchronize(t: Tcb, packet: Packet): Tcb {
    t.(recvNext := Wrap32(packet.seqNum + 1))
  }

  function AnswerSynAck(t: Tcb, packet: Packet): Tcb {
    SendPureAck(Advance(Synchronize(t, packet), packet.ackNum), Wrap32(packet.seqNum + 1))
  }

  function AnswerSyn(t: Tcb, packet: Packet): Tcb {
    SendControl(Synchronize(t, packet).(state := SYN_RECEIVED), FLAG_SYN_ACK)
  }

  function Establish(t: Tcb): Tcb {
    TrySend(t.(state := ESTABLISHED))
  }

  function HandleSynSent(t: Tcb, packet: Packet): Tcb {
    if packet.flags.syn && packet.flags.ack then
      if AcksNext(t, packet) then Establish(AnswerSynAck(t, packet)) else t
    else if packet.flags.syn then AnswerSyn(t, packet)
    else t
  }

  function HandleListen(t: Tcb, packet: Packet, iss: u32): Tcb {
    if packet.flags.syn then Open(Synchronize(t, packet), iss, FLAG_SYN_ACK, SYN_RECEIVED) else t
  }

  function HandleSynReceived(t: Tcb, packet: Packet): Tcb {
    if AcksNext(t, packet) then Establish(Advance(t, packet.ackNum)) else t
  }

  /** A FIN is taken at once, whatever its sequence number. */
  function TakeFin(t: Tcb, packet: Packet, next: TcpState): Tcb {
    var after := Wrap32(packet.seqNum + 1);
    SendPureAck(t.(recvNext := after), after).(state := next)
  }

  /** The acknowledgment part of `handle_established`. */
  function Acked(t: Tcb, packet: Packet): Tcb {
    if packet.flags.ack then TrySend(HandleAck(t, packet)) else t
  }

  /** Its payload part. */
  function Fed(t: Tcb, packet: Packet): Tcb {
    if packet.payload != [] then HandleIncoming(t, packet) else t
  }

  /** Its FIN part. */
  function Finished(t: Tcb, packet: Packet): Tcb {
    if packet.flags.fin && !t.hung then TakeFin(t, packet, CLOSE_WAIT) else t
  }

  function HandleEstablished(t: Tcb, packet: Packet): Tcb {
    Finished(Fed(Acked(t, packet), packet), packet)
  }

  function HandleFinWait1(t: Tcb, packet: Packet): Tcb {
    var acked := if AcksNext(t, packet) then Advance(t, packet.ackNum).(state := FIN_WAIT_2) else t;
    if packet.flags.fin then TakeFin(acked, packet, CLOSE_WAIT) else acked
  }

  function HandleFinWait2(t: Tcb, packet: Packet): Tcb {
    if packet.flags.fin then
      var last := TakeFin(t, packet, TIME_WAIT);
      last.(timers := last.timers.(twoMsl := true))
    else t
  }

  function HandleTimeWait(t: Tcb, packet: Packet): Tcb {
    if packet.flags.fin then TakeFin(t, packet, TIME_WAIT) else t
  }

  predicate ReadyForLastFin(t: Tcb) {
    t.userWantToClose && t.sendBuffer == [] && t.sendUnack == t.sendNext
  }

  function SendLastFin(t: Tcb): Tcb {
    var closing := SendControl(t.(timers := StopAll(t.timers)), FLAG_FIN);
    closing.(sendNext := Wrap32(closing.sendNext + 1), state := LAST_ACK)
  }

  function HandleCloseWait(t: Tcb, packet: Packet): Tcb {
    var tried := TrySend(SendPureAck(t, t.recvNext));
    if ReadyForLastFin(tried) then SendLastFin(tried) else tried
  }

  function HandleLastAck(t: Tcb, packet: Packet): Tcb {
    if AcksNext(t, packet) then Advance(t, packet.ackNum).(state := CLOSED) else t
  }

  function HandleReset(t: Tcb): Tcb {
    t.(timers := StopAll(t.timers), state := CLOSED)
  }

  function Dispatch(t: Tcb, packet: Packet, iss: u32): Tcb {
    match t.state
    case CLOSED => t.(userWantToClose := false)
    case LISTEN => HandleListen(t, packet, iss)
    case SYN_SENT => HandleSynSent(t, packet)
    case SYN_RECEIVED => HandleSynReceived(t, packet)
    case ESTABLISHED => HandleEstablished(t, packet)
    case FIN_WAIT_1 => HandleFinWait1(t, packet)
    case FIN_WAIT_2 => HandleFinWait2(t, packet)
    case CLOSE_WAIT => HandleCloseWait(t, packet)
    case LAST_ACK => HandleLastAck(t, packet)
    case TIME_WAIT => HandleTimeWait(t, packet)
  }

  /** `intact` is the verdict of the checksum; `iss` is used only when a SYN reaches a listening session. */
  function Input(t: Tcb, packet: Packet, intact: bool, iss: u32): Tcb {
    if !intact then t
    else if packet.flags.rst then HandleReset(t)
    else if !packet.flags.ack && !packet.flags.syn && !packet.flags.fin then t
    else Dispatch(t.(peerWindow := packet.window), packet, iss)
  }

  // Calls of the application

  function SendRoom(t: Tcb, data: seq<u8>): nat {
    BQ.Min(|data|, CAPACITY - |t.sendBuffer|)
  }

  function Send(t: Tcb, data: seq<u8>): Tcb {
    if data == [] then t
    else TrySend(t.(sendBuffer := t.sendBuffer + data[..SendRoom(t, data)]))
  }

  function StartClose(t: Tcb): Tcb {
    SendControl(t.(timers := StopAll(t.timers), state := FIN_WAIT_1), FLAG_FIN).(userWantToClose := true)
  }

  function FinishClose(t: Tcb): Tcb {
    SendControl(t.(state := LAST_ACK), FLAG_FIN_ACK).(userWantToClose := true)
  }

  function Close(t: Tcb): Tcb {
    match t.state
    case ESTABLISHED => StartClose(TrySend(t))
    case CLOSE_WAIT => FinishClose(t)
    case SYN_SENT => Abort(t)
    case SYN_RECEIVED => Abort(t)
    case _ => t
  }

  function Abort(t: Tcb): Tcb {
    var reset := SendControl(t, FLAG_RST);
    reset.(timers := StopAll(reset.timers), state := CLOSED)
  }

  function ReadCount(t: Tcb, n: nat): nat {
    BQ.Min(n, |t.recvBuffer|)
  }

  function Recv(t: Tcb, n: nat): Tcb {
    CloseAtEof(t.(recvBuffer := t.recvBuffer[ReadCount(t, n)..]))
  }

  function CloseAtEof(t: Tcb): Tcb {
    if t.recvBuffer == [] && t.state == CLOSE_WAIT && t.autoCloseOnEof then Close(t) else t
  }

  function TwoMslTimeout(t: Tcb): Tcb {
    t.(state := CLOSED, timers := t.timers.(twoMsl := false))
  }
}
