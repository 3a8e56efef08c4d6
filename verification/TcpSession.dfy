/** The session object. Each method is tied to the function on values that says what it does. */
module TcpSessions {
  import opened Types
  import S = Session
  import RingBuffer
  import TimerManagement

  class TcpSession {
    const sendBuffer: RingBuffer.RingQueue<u8>
    const recvBuffer: RingBuffer.RingQueue<u8>
    const timerManager: TimerManagement.TimerManager

    var state: TcpState
    var ooo: map<u32, seq<u8>>
    var inflight: map<u32, Packet>
    var userWantToClose: bool
    var peerWindow: u16
    var sendUnack: u32
    var sendNext: u32
    var sendWindowSize: u32
    var recvNext: u32
    var recvWindowSize: u32
    var ssthresh: u32
    var lastAckReceived: u32
    var dupAckCount: nat
    var autoCloseOnEof: bool
    var hung: bool

    /** The packets handed to the UDP driver, oldest first. */
    var out: seq<Packet>

    ghost function Footprint(): set<object> {
      {this, sendBuffer, sendBuffer.buffer, recvBuffer, recvBuffer.buffer, timerManager}
    }

    ghost predicate Valid()
      reads Footprint()
    {
      && sendBuffer != recvBuffer
      && sendBuffer.buffer != recvBuffer.buffer
      && sendBuffer.Valid() && sendBuffer.capacity == CAPACITY
      && recvBuffer.Valid() && recvBuffer.capacity == CAPACITY
    }

    ghost function View(): S.Tcb
      requires Valid()
      reads Footprint()
    {
      S.Tcb(state, sendBuffer.contents, recvBuffer.contents, ooo, inflight, userWantToClose, peerWindow,
            timerManager.View(), sendUnack, sendNext, sendWindowSize, recvNext, recvWindowSize, ssthresh,
            lastAckReceived, dupAckCount, autoCloseOnEof, out, hung)
    }

    constructor (recvWindowSize: u32, lastAck: u32, autoClose: bool)
      ensures Valid() && fresh(Footprint())
      ensures View() == S.Initial(recvWindowSize, lastAck, autoClose)
    {
      sendBuffer := new RingBuffer.RingQueue<u8>(CAPACITY);
      recvBuffer := new RingBuffer.RingQueue<u8>(CAPACITY);
      timerManager := new TimerManagement.TimerManager();
      state, ooo, inflight, userWantToClose, peerWindow := CLOSED, map[], map[], false, 0;
      sendUnack, sendNext, sendWindowSize := 0, 0, 1;
      recvNext, this.recvWindowSize := 0, recvWindowSize;
      ssthresh, lastAckReceived, dupAckCount := 8, lastAck, 0;
      autoCloseOnEof, out, hung := autoClose, [], false;
    }

    function UsableRecvWindow(): (w: u16)
      requires Valid()
      reads Footprint()
      ensures w == S.UsableRecvWindow(View())
    {
      CAPACITY - recvBuffer.size
    }

    method SendPureAck(ackNum: u32)
      requires Valid()
      modifies `out
      ensures Valid() && View() == S.SendPureAck(old(View()), ackNum)
    {
      out := out + [Packet(sendNext, ackNum, FLAG_ACK, UsableRecvWindow(), [])];
    }

    method SendControlPacket(flags: Flags)
      requires Valid()
      modifies `out, `sendNext, timerManager
      ensures Valid() && View() == S.SendControl(old(View()), flags)
    {
      var packet := Packet(sendNext, recvNext, flags, UsableRecvWindow(), []);
      if flags.syn || flags.fin {
        timerManager.StartTimer(sendNext, INITIAL_RTO, packet, 0);
        sendNext := Wrap32(sendNext + 1);
      }
      out := out + [packet];
    }

    method SendPayloadPacket(payload: seq<u8>, flags: Flags)
      requires Valid()
      modifies `out, `sendNext, `inflight, timerManager
      ensures Valid() && View() == S.SendPayload(old(View()), payload, flags)
    {
      hide Htonl, Wrap32;
      if payload == [] {
        return;
      }
      var packet := Packet(sendNext, recvNext, flags, UsableRecvWindow(), payload);
      if Htonl(packet.seqNum) !in inflight {
        inflight := inflight[Htonl(packet.seqNum) := packet];
      }
      timerManager.StartTimer(sendNext, INITIAL_RTO, packet, 0);
      sendNext := Wrap32(sendNext + |payload|);
      out := out + [packet];
    }

    method HandleTrySend()
      requires Valid()
      modifies `out, `sendNext, `inflight, timerManager
      ensures Valid() && View() == S.TrySend(old(View()))
    {
      if state != ESTABLISHED && state != CLOSE_WAIT {
        return;
      }
      var inFlight := Wrap32(sendNext - sendUnack);
      var allowance := Wrap32(sendWindowSize - inFlight);
      if allowance == 0 {
        return;
      }
      var data := sendBuffer.PeekRange(inFlight, allowance);
      SendPayloadPacket(data.value, FLAG_ACK);
    }

    method BackOff()
      requires Valid()
      modifies `ssthresh, `sendWindowSize
      ensures Valid() && View() == S.BackOff(old(View()))
    {
      var cwnd := sendWindowSize;
      if cwnd % 2 == 1 {
        ssthresh := (if cwnd == 0xFFFF_FFFF then 0 else cwnd + 1) / 2;
      } else {
        ssthresh := cwnd + 1;
      }
      sendWindowSize := 1;
    }

    method Resend(packet: Packet, count: nat, seqNum: u32)
      requires Valid()
      modifies `out, timerManager
      ensures Valid() && View() == S.Resend(old(View()), packet, count, seqNum)
    {
      timerManager.StartTimer(seqNum, INITIAL_RTO * Pow2(count), packet, count);
      out := out + [packet];
    }

    method HandleRetransmit(packet: Packet, retransmitCount: nat, seqNum: u32) returns (resent: bool)
      requires Valid()
      modifies `out, `ssthresh, `sendWindowSize, timerManager
      ensures Valid() && View() == S.HandleRetransmit(old(View()), packet, retransmitCount, seqNum)
      ensures resent == (retransmitCount + 1 < MAX_RETRANSMIT_COUNT)
    {
      var again := packet.(ackNum := recvNext, window := UsableRecvWindow());
      var count := retransmitCount + 1;
      timerManager.StopTimer(seqNum);
      if count >= MAX_RETRANSMIT_COUNT {
        return false;
      }
      BackOff();
      Resend(again, count, seqNum);
      resent := true;
    }

    /** What the event loop does when the timer behind `handle` expires. */
    method Expire(handle: nat)
      requires Valid() && handle in View().timers.armed
      modifies `out, `ssthresh, `sendWindowSize, timerManager
      ensures Valid() && View() == S.Expire(old(View()), handle)
    {
      var timer := timerManager.Expired(handle);
      var _ := HandleRetransmit(timer.packet, timer.count, timer.packet.seqNum);
    }

    method Release(ackNum: u32)
      requires Valid() && S.AckAcceptable(View(), ackNum)
      modifies `sendUnack, `inflight, sendBuffer`tail, sendBuffer`size, sendBuffer`contents, timerManager
      ensures Valid() && View() == S.Release(old(View()), ackNum)
    {
      timerManager.DropTimerUpTo(ackNum - 1);
      var acked := ackNum - sendUnack;
      sendBuffer.PopFront(acked);
      sendUnack := ackNum;
      inflight := map k | k in inflight && ackNum <= k :: inflight[k];
    }

    method CountDuplicates(ackNum: u32)
      requires Valid()
      modifies `lastAckReceived, `dupAckCount
      ensures Valid() && View() == S.CountDuplicates(old(View()), ackNum)
    {
      if lastAckReceived < ackNum {
        lastAckReceived := ackNum;
        dupAckCount := 0;
      } else if lastAckReceived == ackNum {
        dupAckCount := dupAckCount + 1;
      }
    }

    method FastRetransmit(ackNum: u32)
      requires Valid()
      modifies `out, `sendNext, `inflight, `ssthresh, `sendWindowSize, `dupAckCount, timerManager
      ensures Valid() && View() == S.FastRetransmit(old(View()), ackNum)
    {
      timerManager.StopTimer(ackNum);
      ResendRemembered(ackNum);
      ReduceWindow();
    }

    method ResendRemembered(ackNum: u32)
      requires Valid()
      modifies `out, `sendNext, `inflight, timerManager
      ensures Valid() && View() == S.ResendRemembered(old(View()), ackNum)
    {
      if ackNum in inflight {
        var packet := inflight[ackNum];
        SendPayloadPacket(packet.payload, packet.flags);
      }
    }

    method ReduceWindow()
      requires Valid()
      modifies `ssthresh, `sendWindowSize, `dupAckCount
      ensures Valid() && View() == S.ReduceWindow(old(View()))
    {
      var cwnd := sendWindowSize;
      ssthresh := cwnd / 2;
      sendWindowSize := Wrap32(cwnd / 2 + 3);
      dupAckCount := 0;
    }

    method AcceptAck(ackNum: u32)
      requires Valid() && S.AckAcceptable(View(), ackNum)
      modifies Footprint()
      ensures Valid() && View() == S.AcceptAck(old(View()), ackNum)
    {
      Release(ackNum);
      CountDuplicates(ackNum);
      if dupAckCount == 3 {
        FastRetransmit(ackNum);
      }
      Grow();
    }

    method Grow()
      requires Valid()
      modifies `sendWindowSize
      ensures Valid() && View() == S.Grow(old(View()))
    {
      if sendWindowSize < ssthresh {
        sendWindowSize := Wrap32(sendWindowSize * 2);
      } else {
        sendWindowSize := Wrap32(sendWindowSize + 1);
      }
    }

    method HandleAck(packet: Packet) returns (accepted: bool)
      requires Valid()
      modifies Footprint()
      ensures Valid() && View() == S.HandleAck(old(View()), packet)
      ensures accepted == S.AckAcceptable(old(View()), packet.ackNum)
    {
      if !(sendUnack < packet.ackNum <= sendNext) {
        return false;
      }
      AcceptAck(packet.ackNum);
      HandleTrySend();
      accepted := true;
    }

    method Take(payload: seq<u8>)
      requires Valid()
      modifies `recvNext, recvBuffer, recvBuffer.buffer
      ensures Valid() && View() == S.Take(old(View()), payload)
    {
      var pushed := recvBuffer.PushBatch(payload);
      if pushed {
        recvNext := Wrap32(recvNext + |payload|);
      }
    }

    method TakeStored()
      requires Valid() && S.NextIsStored(View())
      modifies `ooo, `recvNext, `hung, recvBuffer, recvBuffer.buffer
      ensures Valid() && View() == S.TakeStored(old(View()))
    {
      var payload := ooo[recvNext];
      var pushed := recvBuffer.PushBatch(payload);
      if pushed {
        ooo := ooo - {recvNext};
        recvNext := Wrap32(recvNext + |payload|);
      } else {
        hung := true;
      }
    }

    /** The loop over the out-of-order map; `hung` is set where the program would spin for ever. */
    method DrainOutOfOrder()
      requires Valid()
      modifies `ooo, `recvNext, `hung, recvBuffer, recvBuffer.buffer
      ensures Valid() && View() == S.Drain(old(View()))
    {
      while !hung && recvNext in ooo && forall k | k in ooo :: recvNext <= k
        invariant Valid()
        invariant S.Drain(View()) == S.Drain(old(View()))
        decreases !hung, ooo.Keys
      {
        TakeStored();
      }
    }

    method Store(packet: Packet)
      requires Valid()
      modifies `ooo
      ensures Valid() && View() == S.Store(old(View()), packet)
    {
      var windowEnd := Wrap32(recvNext + recvWindowSize);
      if packet.seqNum > recvNext && packet.seqNum < windowEnd {
        ooo := ooo[packet.seqNum := packet.payload];
      }
    }

    method HandleIncomingPacket(packet: Packet) returns (inOrder: bool)
      requires Valid()
      modifies `ooo, `recvNext, `hung, `out, recvBuffer, recvBuffer.buffer
      ensures Valid() && View() == S.HandleIncoming(old(View()), packet)
      ensures inOrder == (packet.seqNum == old(recvNext))
    {
      inOrder := packet.seqNum == recvNext;
      if inOrder {
        Take(packet.payload);
        DrainOutOfOrder();
      } else {
        Store(packet);
      }
      if !hung {
        SendPureAck(recvNext);
      }
    }

    method Open(iss: u32, flags: Flags, next: TcpState)
      requires Valid()
      modifies `state, `sendNext, `sendUnack, `out, timerManager
      ensures Valid() && View() == S.Open(old(View()), iss, flags, next)
    {
      state := next;
      sendNext := iss;
      sendUnack := iss;
      assert View() == old(View()).(state := next, sendNext := iss, sendUnack := iss);
      SendControlPacket(flags);
      sendNext := Wrap32(iss + 1);
    }

    method Connect(iss: u32)
      requires Valid()
      modifies Footprint()
      ensures Valid() && View() == S.Connect(old(View()), iss)
    {
      Open(iss, FLAG_SYN, SYN_SENT);
    }

    method Listen()
      requires Valid()
      modifies `state
      ensures Valid() && View() == S.Listen(old(View()))
    {
      if state != CLOSED {
        return;
      }
      state := LISTEN;
    }

    method Advance(ackNum: u32)
      requires Valid()
      modifies `sendUnack, timerManager
      ensures Valid() && View() == S.Advance(old(View()), ackNum)
    {
      sendUnack := ackNum;
      timerManager.StopTimer(Wrap32(ackNum - 1));
    }

    method Establish()
      requires Valid()
      modifies Footprint()
      ensures Valid() && View() == S.Establish(old(View()))
    {
      state := ESTABLISHED;
      HandleTrySend();
    }

    method AnswerSynAck(packet: Packet)
      requires Valid()
      modifies `recvNext, `sendUnack, `out, timerManager
      ensures Valid() && View() == S.AnswerSynAck(old(View()), packet)
    {
      recvNext := Wrap32(packet.seqNum + 1);
      Advance(packet.ackNum);
      SendPureAck(recvNext);
    }

    method AnswerSyn(packet: Packet)
      requires Valid()
      modifies `recvNext, `state, `sendNext, `out, timerManager
      ensures Valid() && View() == S.AnswerSyn(old(View()), packet)
    {
      recvNext := Wrap32(packet.seqNum + 1);
      state := SYN_RECEIVED;
      SendControlPacket(FLAG_SYN_ACK);
    }

    method HandleSynSent(packet: Packet)
      requires Valid()
      modifies Footprint()
      ensures Valid() && View() == S.HandleSynSent(old(View()), packet)
    {
      if packet.flags.syn && packet.flags.ack {
        if packet.ackNum == Wrap32(sendUnack + 1) {
          AnswerSynAck(packet);
          Establish();
        }
      } else if packet.flags.syn {
        AnswerSyn(packet);
      }
    }

    method HandleListen(packet: Packet, iss: u32)
      requires Valid()
      modifies Footprint()
      ensures Valid() && View() == S.HandleListen(old(View()), packet, iss)
    {
      if packet.flags.syn {
        recvNext := Wrap32(packet.seqNum + 1);
        Open(iss, FLAG_SYN_ACK, SYN_RECEIVED);
      }
    }

    method HandleSynReceived(packet: Packet)
      requires Valid()
      modifies Footprint()
      ensures Valid() && View() == S.HandleSynReceived(old(View()), packet)
    {
      if !packet.flags.ack || packet.ackNum != Wrap32(sendUnack + 1) {
        return;
      }
      Advance(packet.ackNum);
      Establish();
    }

    method HandleEstablished(packet: Packet)
      requires Valid()
      modifies Footprint()
      ensures Valid() && View() == S.HandleEstablished(old(View()), packet)
    {
      if packet.flags.ack {
        var _ := HandleAck(packet);
        HandleTrySend();
      }
      if packet.payload != [] {
        var _ := HandleIncomingPacket(packet);
      }
      if packet.flags.fin && !hung {
        TakeFin(packet, CLOSE_WAIT);
      }
    }

    method TakeFin(packet: Packet, next: TcpState)
      requires Valid()
      modifies `recvNext, `out, `state
      ensures Valid() && View() == S.TakeFin(old(View()), packet, next)
    {
      recvNext := Wrap32(packet.seqNum + 1);
      SendPureAck(recvNext);
      state := next;
    }

    method HandleFinWait1(packet: Packet)
      requires Valid()
      modifies Footprint()
      ensures Valid() && View() == S.HandleFinWait1(old(View()), packet)
    {
      if packet.flags.ack && packet.ackNum == Wrap32(sendUnack + 1) {
        state := FIN_WAIT_2;
        Advance(packet.ackNum);
      }
      if packet.flags.fin {
        TakeFin(packet, CLOSE_WAIT);
      }
    }

    method HandleFinWait2(packet: Packet)
      requires Valid()
      modifies Footprint()
      ensures Valid() && View() == S.HandleFinWait2(old(View()), packet)
    {
      if packet.flags.fin {
        TakeFin(packet, TIME_WAIT);
        timerManager.twoMsl := true;
      }
    }

    method HandleTimeWait(packet: Packet)
      requires Valid()
      modifies Footprint()
      ensures Valid() && View() == S.HandleTimeWait(old(View()), packet)
    {
      if packet.flags.fin {
        TakeFin(packet, TIME_WAIT);
      }
    }

    method SendLastFin()
      requires Valid()
      modifies `state, `sendNext, `out, timerManager
      ensures Valid() && View() == S.SendLastFin(old(View()))
    {
      timerManager.StopAllTimers();
      SendControlPacket(FLAG_FIN);
      sendNext := Wrap32(sendNext + 1);
      state := LAST_ACK;
    }

    method HandleCloseWait(packet: Packet)
      requires Valid()
      modifies Footprint()
      ensures Valid() && View() == S.HandleCloseWait(old(View()), packet)
    {
      SendPureAck(recvNext);
      HandleTrySend();
      if userWantToClose && sendBuffer.Empty() && sendUnack == sendNext {
        SendLastFin();
      }
    }

    method HandleLastAck(packet: Packet)
      requires Valid()
      modifies Footprint()
      ensures Valid() && View() == S.HandleLastAck(old(View()), packet)
    {
      if !packet.flags.ack || packet.ackNum != Wrap32(sendUnack + 1) {
        return;
      }
      Advance(packet.ackNum);
      state := CLOSED;
    }

    method HandleReset()
      requires Valid()
      modifies Footprint()
      ensures Valid() && View() == S.HandleReset(old(View()))
    {
      timerManager.StopAllTimers();
      state := CLOSED;
    }

    method Input(packet: Packet, intact: bool, iss: u32)
      requires Valid()
      modifies Footprint()
      ensures Valid() && View() == S.Input(old(View()), packet, intact, iss)
    {
      if !intact {
        return;
      }
      if packet.flags.rst {
        HandleReset();
        return;
      }
      if !packet.flags.ack && !packet.flags.syn && !packet.flags.fin {
        return;
      }
      peerWindow := packet.window;
      Dispatch(packet, iss);
    }

    method Dispatch(packet: Packet, iss: u32)
      requires Valid()
      modifies Footprint()
      ensures Valid() && View() == S.Dispatch(old(View()), packet, iss)
    {
      match state {
        case CLOSED => userWantToClose := false;
        case LISTEN => HandleListen(packet, iss);
        case SYN_SENT => HandleSynSent(packet);
        case SYN_RECEIVED => HandleSynReceived(packet);
        case ESTABLISHED => HandleEstablished(packet);
        case FIN_WAIT_1 => HandleFinWait1(packet);
        case FIN_WAIT_2 => HandleFinWait2(packet);
        case CLOSE_WAIT => HandleCloseWait(packet);
        case LAST_ACK => HandleLastAck(packet);
        case TIME_WAIT => HandleTimeWait(packet);
      }
    }

    method Send(data: seq<u8>) returns (written: nat)
      requires Valid()
      modifies Footprint()
      ensures Valid() && View() == S.Send(old(View()), data)
      ensures written == S.SendRoom(old(View()), data)
    {
      if data == [] {
        return 0;
      }
      var free := CAPACITY - sendBuffer.size;
      written := if |data| < free then |data| else free;
      var _ := sendBuffer.PushBatch(data[..written]);
      HandleTrySend();
    }

    method StartClose()
      requires Valid()
      modifies `state, `sendNext, `out, `userWantToClose, timerManager
      ensures Valid() && View() == S.StartClose(old(View()))
    {
      timerManager.StopAllTimers();
      state := FIN_WAIT_1;
      SendControlPacket(FLAG_FIN);
      userWantToClose := true;
    }

    method FinishClose()
      requires Valid()
      modifies `state, `sendNext, `out, `userWantToClose, timerManager
      ensures Valid() && View() == S.FinishClose(old(View()))
    {
      state := LAST_ACK;
      SendControlPacket(FLAG_FIN_ACK);
      userWantToClose := true;
    }

    method Abort()
      requires Valid()
      modifies `state, `sendNext, `out, timerManager
      ensures Valid() && View() == S.Abort(old(View()))
    {
      SendControlPacket(FLAG_RST);
      timerManager.StopAllTimers();
      state := CLOSED;
    }

    method Close()
      requires Valid()
      modifies Footprint()
      ensures Valid() && View() == S.Close(old(View()))
    {
      if state == ESTABLISHED {
        HandleTrySend();
        StartClose();
      } else if state == CLOSE_WAIT {
        FinishClose();
      } else if state == SYN_SENT || state == SYN_RECEIVED {
        Abort();
      }
    }

    method Recv(n: nat) returns (got: seq<u8>)
      requires Valid()
      modifies Footprint()
      ensures Valid() && View() == S.Recv(old(View()), n)
      ensures got == old(View()).recvBuffer[..S.ReadCount(old(View()), n)]
    {
      got := TakeBytes(if n < recvBuffer.size then n else recvBuffer.size);
      CloseAtEof();
    }

    method ReadAll() returns (got: seq<u8>)
      requires Valid()
      modifies Footprint()
      ensures Valid() && View() == S.Recv(old(View()), |old(View()).recvBuffer|)
      ensures got == old(View()).recvBuffer
    {
      got := TakeBytes(recvBuffer.size);
      CloseAtEof();
    }

    /** The read loop of both calls above: front, then pop, one byte at a time. */
    method TakeBytes(count: nat) returns (got: seq<u8>)
      requires Valid() && count <= recvBuffer.size
      modifies recvBuffer`tail, recvBuffer`size, recvBuffer`contents
      ensures Valid()
      ensures got == old(View()).recvBuffer[..count]
      ensures View() == old(View()).(recvBuffer := old(View()).recvBuffer[count..])
    {
      got := [];
      ghost var was := recvBuffer.contents;
      for i := 0 to count
        invariant recvBuffer.Valid() && recvBuffer.contents == was[i..]
        invariant got == was[..i]
      {
        got := got + [recvBuffer.Front()];
        recvBuffer.PopFront(1);
      }
    }

    method CloseAtEof()
      requires Valid()
      modifies Footprint()
      ensures Valid() && View() == S.CloseAtEof(old(View()))
    {
      if recvBuffer.Empty() && state == CLOSE_WAIT && autoCloseOnEof {
        Close();
      }
    }

    method TwoMslTimeout()
      requires Valid()
      modifies Footprint()
      ensures Valid() && View() == S.TwoMslTimeout(old(View()))
    {
      state := CLOSED;
      timerManager.twoMsl := false;
    }
  }
}
