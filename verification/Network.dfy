/**
 * A client, a server and the network between them. The network is what the two sessions have handed to their
 * drivers: a packet may be delivered at any time, in any order, any number of times or never. Besides those, packets
 * that fail the checksum and resets from nowhere may arrive.
 */
module Network {
  import opened Types
  import opened Session
  import opened Endpoints
  import opened Streams
  import opened Alignment
  import opened Reception

  datatype System = System(client: Endpoint, server: Endpoint)

  datatype Turn = Turn(atClient: bool, event: Event)

  predicate Deliverable(peer: Endpoint, ev: Event) {
    ev.Deliver? && ev.intact && !ev.packet.flags.rst ==> ev.packet in peer.tcb.out
  }

  predicate CanStep(s: System, turn: Turn) {
    if turn.atClient then Possible(s.client, turn.event) && Deliverable(s.server, turn.event)
    else Possible(s.server, turn.event) && Deliverable(s.client, turn.event)
  }

  function DeliveredTo(r: Endpoint): seq<u8> {
    Delivered(r.tcb, r.readOut)
  }

  /** The receiver `r` knows no more of the stream of `s` than `s` has sent, and `s` releases no more than `r` has. */
  ghost predicate Bounds(s: Endpoint, r: Endpoint) {
    && DeliveredTo(r) <= s.accepted
    && Popped(s.tcb, s.accepted) <= |DeliveredTo(r)| <= Bound(s)
  }

  /** While one side is open, the receiver expects the byte after those it has. */
  predicate Expects(s: Endpoint, r: Endpoint) {
    r.synced && (Active(s) || Active(r)) ==> r.tcb.recvNext == Wrap32(Base(s) + |DeliveredTo(r)|)
  }

  /** Acknowledgments on their way to an open sender cover only what the receiver has. */
  ghost predicate Acknowledges(s: Endpoint, r: Endpoint) {
    Active(s) ==>
      forall p :: p in r.tcb.out && p.flags.ack ==> Offset(Base(s), p.ackNum) <= |DeliveredTo(r)|
  }

  /** A side that took a FIN has a peer that is no longer open. */
  predicate FinTaken(s: Endpoint, r: Endpoint) {
    r.tcb.state == CLOSE_WAIT || r.shifted ==> !Active(s)
  }

  ghost predicate Stored(s: Endpoint, r: Endpoint) {
    && (!r.established ==> DeliveredTo(r) == [] && r.tcb.ooo == map[])
    && (Active(r) ==>
          forall k :: k in r.tcb.ooo ==> Piece(Base(s), s.accepted, Bound(s), k, r.tcb.ooo[k]))
  }

  /** The stream from `s` to `r`. */
  ghost predicate Link(s: Endpoint, r: Endpoint) {
    Bounds(s, r) && Expects(s, r) && Acknowledges(s, r) && FinTaken(s, r) && Stored(s, r)
  }

  ghost predicate Sound(e: Endpoint) {
    Phases(e) && StreamInv(e)
  }

  ghost predicate Consistent(s: System) {
    && Sound(s.client) && !s.client.passive
    && Sound(s.server) && s.server.passive
    && Link(s.client, s.server)
    && Link(s.server, s.client)
  }

  /** Bytes leave the send buffer only through an acceptable acknowledgment in ESTABLISHED. */
  predicate Acceptance(e: Endpoint, ev: Event) {
    && ev.Deliver? && ev.intact && !ev.packet.flags.rst && ev.packet.flags.ack
    && e.tcb.state == ESTABLISHED && AckAcceptable(e.tcb, ev.packet.ackNum)
  }

  lemma AckedPopped(e: Endpoint, packet: Packet)
    requires Sound(e) && e.tcb.state == ESTABLISHED && |e.accepted| < 0x1_0000_0000
    ensures var u := HandleEstablished(e.tcb, packet);
      Popped(u, e.accepted) ==
        if packet.flags.ack && AckAcceptable(e.tcb, packet.ackNum) then packet.ackNum - Base(e)
        else Popped(e.tcb, e.accepted)
  {
    hide Acked, HandleIncoming, AllHonest;
    var acked := Acked(e.tcb, packet);
    HandleAckAligned(e.tcb, ClaimsOf(e), packet);
    IncomingKeeps(acked, packet);
  }

  lemma TrySendKeepsBuffer(t: Tcb)
    ensures TrySend(t).sendBuffer == t.sendBuffer
  {
  }

  lemma DispatchPopped(t: Tcb, packet: Packet, iss: u32)
    requires t.state != ESTABLISHED
    ensures Dispatch(t, packet, iss).sendBuffer == t.sendBuffer
  {
    hide TrySend;
    match t.state
    case SYN_SENT =>
      if AcksNext(t, packet) {
        TrySendKeepsBuffer(AnswerSynAck(t, packet).(state := ESTABLISHED));
      } else {
      }
    case SYN_RECEIVED =>
      if AcksNext(t, packet) {
        TrySendKeepsBuffer(Advance(t, packet.ackNum).(state := ESTABLISHED));
      } else {
      }
    case CLOSE_WAIT =>
      TrySendKeepsBuffer(SendPureAck(t, t.recvNext));
      if ReadyForLastFin(TrySend(SendPureAck(t, t.recvNext))) {
      } else {
      }
    case FIN_WAIT_1 =>
      if AcksNext(t, packet) {
      } else {
      }
    case _ =>
  }

  lemma InputPopped(e: Endpoint, packet: Packet, intact: bool)
    requires Sound(e) && |e.accepted| < 0x1_0000_0000
    ensures var u := Input(e.tcb, packet, intact, e.iss);
      Popped(u, e.accepted) ==
        if Acceptance(e, Deliver(packet, intact)) then packet.ackNum - Base(e) else Popped(e.tcb, e.accepted)
  {
    hide StreamInv, HandleEstablished;
    if intact && !packet.flags.rst && (packet.flags.ack || packet.flags.syn || packet.flags.fin) {
      var told := e.(tcb := e.tcb.(peerWindow := packet.window));
      ToldSound(e, packet);
      if e.tcb.state == ESTABLISHED {
        AckedPopped(told, packet);
      } else {
        DispatchPopped(told.tcb, packet, e.iss);
      }
    }
  }

  lemma CloseKeepsBuffer(t: Tcb)
    ensures Close(t).sendBuffer == t.sendBuffer
  {
    match t.state
    case ESTABLISHED => TrySendIsPayload(t);
    case CLOSE_WAIT =>
    case SYN_SENT =>
    case SYN_RECEIVED =>
    case _ =>
  }

  lemma {:induction false} PoppedStep(e: Endpoint, ev: Event)
    requires Sound(e) && Possible(e, ev) && |e.accepted| < 0x1_0000_0000
    ensures var f := Next(e, ev);
      && f.iss == e.iss && f.passive == e.passive
      && e.accepted <= f.accepted
      && Popped(f.tcb, f.accepted) ==
           if Acceptance(e, ev) then ev.packet.ackNum - Base(e) else Popped(e.tcb, e.accepted)
  {
    hide Input, Close, Expire, TrySend, StreamInv, Phases;
    match ev
    case Deliver(packet, intact) => InputPopped(e, packet, intact);
    case CallRecv(count) => CloseKeepsBuffer(e.tcb.(recvBuffer := e.tcb.recvBuffer[ReadCount(e.tcb, count)..]));
    case CallClose => CloseKeepsBuffer(e.tcb);
    case TimerExpires(handle) => ExpireKeeps(e.tcb, handle);
    case CallSend(data) => TrySendKeepsBuffer(e.tcb.(sendBuffer := e.tcb.sendBuffer + data[..SendRoom(e.tcb, data)]));
    case _ =>
  }

  lemma LinkFromSender(s: Endpoint, f: Endpoint, r: Endpoint)
    requires Link(s, r)
    requires f.iss == s.iss && s.accepted <= f.accepted && Bound(s) <= Bound(f) <= |f.accepted|
    requires Active(f) ==> Active(s)
    requires Popped(f.tcb, f.accepted) <= |DeliveredTo(r)|
    ensures Link(f, r)
  {
    forall k | Active(r) && k in r.tcb.ooo ensures Piece(Base(f), f.accepted, Bound(f), k, r.tcb.ooo[k]) {
      assert Piece(Base(s), s.accepted, Bound(s), k, r.tcb.ooo[k]);
    }
  }

  /** The sender's step keeps the link: what it releases, the receiver has. */
  lemma {:induction false} SenderStep(s: Endpoint, r: Endpoint, ev: Event)
    requires Sound(s) && Enabled(s, ev) && |s.accepted| <= |Next(s, ev).accepted| < 0x1_0000_0000
    requires Link(s, r) && Deliverable(r, ev)
    ensures Link(Next(s, ev), r)
  {
    hide Next, Perform, Phases;
    PoppedStep(s, ev);
    StreamStep(s, ev);
    PhasesStep(s, ev);
    if Acceptance(s, ev) {
      assert Offset(Base(s), ev.packet.ackNum) == ev.packet.ackNum - Base(s);
    }
    LinkFromSender(s, Next(s, ev), r);
  }

  /** Every packet emitted on the way from `r` to `f` acknowledges what `r` or what `f` expects. */
  ghost predicate Answers(r: Endpoint, f: Endpoint) {
    && r.tcb.out <= f.tcb.out
    && forall i :: |r.tcb.out| <= i < |f.tcb.out| ==>
         f.tcb.out[i].ackNum == f.tcb.recvNext || (r.synced && f.tcb.out[i].ackNum == r.tcb.recvNext)
  }

  lemma LinkToReceiver(s: Endpoint, r: Endpoint, f: Endpoint)
    requires Link(s, r) && StreamInv(f) && |s.accepted| < 0x1_0000_0000
    requires DeliveredTo(r) <= DeliveredTo(f) <= s.accepted && |DeliveredTo(f)| <= Bound(s)
    requires Expects(s, f) && FinTaken(s, f) && Stored(s, f)
    requires Active(s) ==> Answers(r, f)
    ensures Link(s, f)
  {
    if Active(s) {
      forall p | p in f.tcb.out && p.flags.ack ensures Offset(Base(s), p.ackNum) <= |DeliveredTo(f)| {
        assert Honest(ClaimsOf(f), p);
        OffsetOfPosition(Base(s), |DeliveredTo(r)|);
        OffsetOfPosition(Base(s), |DeliveredTo(f)|);
        var i :| 0 <= i < |f.tcb.out| && f.tcb.out[i] == p;
        if i < |r.tcb.out| {
          assert p == r.tcb.out[i];
        }
      }
    }
  }

  /** A step that takes nothing in. */
  ghost predicate Idle(r: Endpoint, f: Endpoint) {
    && DeliveredTo(f) == DeliveredTo(r) && f.tcb.ooo == r.tcb.ooo && f.tcb.recvNext == r.tcb.recvNext
    && Emits(r.tcb, f.tcb, r.tcb.recvNext)
    && f.synced == r.synced && (r.established ==> f.established)
    && (Active(f) ==> Active(r))
  }

  lemma IdleStep(s: Endpoint, r: Endpoint, f: Endpoint)
    requires Link(s, r) && StreamInv(f) && |s.accepted| < 0x1_0000_0000
    requires Idle(r, f) && FinTaken(s, f)
    ensures Link(s, f)
  {
    LinkToReceiver(s, r, f);
  }

  lemma ReceivingNow(s: Endpoint, r: Endpoint)
    requires Sound(s) && Sound(r) && Link(s, r) && |s.accepted| < 0x1_0000_0000
    requires r.tcb.state == ESTABLISHED
    ensures Receiving(r.tcb, Base(s), s.accepted, Bound(s), r.readOut)
  {
  }

  lemma SegmentIsPiece(s: Endpoint, r: Endpoint, p: Packet)
    requires Sound(s) && Sound(r) && Link(r, s) && Active(r)
    requires p in s.tcb.out && p.payload != []
    ensures Piece(Base(s), s.accepted, Bound(s), p.seqNum, p.payload)
  {
    assert Honest(ClaimsOf(s), p);
  }

  lemma FedReceives(s: Endpoint, r: Endpoint, t: Tcb, p: Packet)
    requires Receiving(t, Base(s), s.accepted, Bound(s), r.readOut)
    requires p.payload != [] ==> Piece(Base(s), s.accepted, Bound(s), p.seqNum, p.payload)
    ensures Receiving(Fed(t, p), Base(s), s.accepted, Bound(s), r.readOut)
    ensures Delivered(t, r.readOut) <= Delivered(Fed(t, p), r.readOut)
  {
    if p.payload != [] {
      IncomingReceiving(t, Base(s), s.accepted, Bound(s), r.readOut, p);
    }
  }

  /** What an established session holds after a packet of its peer. */
  lemma EstablishedReceives(s: Endpoint, r: Endpoint, p: Packet)
    requires Sound(s) && Sound(r) && Link(s, r) && Link(r, s) && |s.accepted| < 0x1_0000_0000
    requires r.tcb.state == ESTABLISHED && p in s.tcb.out
    ensures var u := HandleEstablished(r.tcb, p);
      && DeliveredTo(r) <= Delivered(u, r.readOut)
      && Delivered(u, r.readOut) <= s.accepted && |Delivered(u, r.readOut)| <= Bound(s)
      && (u.state == ESTABLISHED ==> Receiving(u, Base(s), s.accepted, Bound(s), r.readOut))
  {
    hide Acked, Fed, StreamInv, Bound, Link;
    var acked := Acked(r.tcb, p);
    assert Receiving(acked, Base(s), s.accepted, Bound(s), r.readOut) by {
      ReceivingNow(s, r);
      AckedReceives(s, r, p);
    }
    if p.payload != [] {
      SegmentIsPiece(s, r, p);
    }
    AckedReceives(s, r, p);
    FedReceives(s, r, acked, p);
  }

  lemma AckedReceives(s: Endpoint, r: Endpoint, p: Packet)
    requires Sound(r) && r.tcb.state == ESTABLISHED
    ensures SameRecvSide(r.tcb, Acked(r.tcb, p))
  {
    HandleAckEmits(r.tcb, p);
  }

  lemma EstablishedAnswers(r: Endpoint, p: Packet)
    requires Sound(r) && r.tcb.state == ESTABLISHED && !p.flags.fin
    ensures Answers(r, Moved(r, HandleEstablished(r.tcb, p)))
  {
    HandleAckEmits(r.tcb, p);
    if p.payload != [] {
      IncomingEmits(Acked(r.tcb, p), p);
    }
  }

  // Events of the application and of the timers

  lemma CloseEmits(t: Tcb)
    ensures Emits(t, Close(t), t.recvNext) && SameRecvSide(t, Close(t))
    ensures Close(t).state != CLOSE_WAIT
  {
    hide TrySend, StartClose, FinishClose, Abort;
    match t.state
    case ESTABLISHED =>
      TrySendEmits(t);
      TrySendKeeps(t);
      StartCloseEmits(TrySend(t));
      EmitsTwice(t, TrySend(t), Close(t), t.recvNext);
    case CLOSE_WAIT => FinishCloseEmits(t);
    case SYN_SENT => AbortEmits(t);
    case SYN_RECEIVED => AbortEmits(t);
    case _ =>
  }

  lemma StartCloseEmits(t: Tcb)
    ensures Emits(t, StartClose(t), t.recvNext) && SameRecvSide(t, StartClose(t)) && StartClose(t).state == FIN_WAIT_1
  {
  }

  lemma FinishCloseEmits(t: Tcb)
    ensures Emits(t, FinishClose(t), t.recvNext) && SameRecvSide(t, FinishClose(t)) && FinishClose(t).state == LAST_ACK
  {
  }

  lemma AbortEmits(t: Tcb)
    ensures Emits(t, Abort(t), t.recvNext) && SameRecvSide(t, Abort(t)) && Abort(t).state == CLOSED
  {
  }

  lemma ExpireEmits(t: Tcb, handle: nat)
    requires handle in t.timers.armed
    ensures Emits(t, Expire(t, handle), t.recvNext)
  {
    if t.timers.armed[handle].count + 1 >= MAX_RETRANSMIT_COUNT {
    } else {
    }
  }

  lemma ReadKeepsDelivered(t: Tcb, read: seq<u8>, count: nat)
    ensures var n := ReadCount(t, count);
      (read + t.recvBuffer[..n]) + t.recvBuffer[n..] == Delivered(t, read)
  {
  }

  lemma RecvIdle(r: Endpoint, count: nat)
    requires Sound(r) && Possible(r, CallRecv(count))
    ensures var f := Next(r, CallRecv(count));
      Idle(r, f) && (f.tcb.state == CLOSE_WAIT || f.shifted ==> r.tcb.state == CLOSE_WAIT || r.shifted)
  {
    var left := r.tcb.(recvBuffer := r.tcb.recvBuffer[ReadCount(r.tcb, count)..]);
    ReadKeepsDelivered(r.tcb, r.readOut, count);
    PhasesStep(r, CallRecv(count));
    CloseEmits(left);
    if left.recvBuffer == [] && left.state == CLOSE_WAIT && left.autoCloseOnEof {
    } else {
    }
  }

  lemma SendIdle(r: Endpoint, data: seq<u8>)
    requires Sound(r) && Possible(r, CallSend(data))
    ensures var f := Next(r, CallSend(data));
      Idle(r, f) && (f.tcb.state == CLOSE_WAIT || f.shifted ==> r.tcb.state == CLOSE_WAIT || r.shifted)
  {
    if data != [] {
      var filled := r.tcb.(sendBuffer := r.tcb.sendBuffer + data[..SendRoom(r.tcb, data)]);
      TrySendKeeps(filled);
      TrySendEmits(filled);
    }
  }

  lemma CloseIdle(r: Endpoint)
    requires Sound(r) && Possible(r, CallClose)
    ensures var f := Next(r, CallClose);
      Idle(r, f) && (f.tcb.state == CLOSE_WAIT || f.shifted ==> r.tcb.state == CLOSE_WAIT || r.shifted)
  {
    PhasesStep(r, CallClose);
    CloseEmits(r.tcb);
  }

  lemma OtherIdle(r: Endpoint, ev: Event)
    requires Sound(r) && Possible(r, ev)
    requires ev.CallConnect? || ev.CallListen? || ev.TimerExpires? || ev.TwoMslExpires?
    ensures var f := Next(r, ev);
      Idle(r, f) && (f.tcb.state == CLOSE_WAIT || f.shifted ==> r.tcb.state == CLOSE_WAIT || r.shifted)
  {
    if ev.TimerExpires? {
      ExpireKeeps(r.tcb, ev.handle);
      ExpireEmits(r.tcb, ev.handle);
    }
  }

  lemma LocalIdle(r: Endpoint, ev: Event)
    requires Sound(r) && Possible(r, ev) && !ev.Deliver?
    ensures var f := Next(r, ev);
      Idle(r, f) && (f.tcb.state == CLOSE_WAIT || f.shifted ==> r.tcb.state == CLOSE_WAIT || r.shifted)
  {
    hide Next, Perform, Idle, Phases, StreamInv;
    match ev
    case CallRecv(count) => RecvIdle(r, count);
    case CallSend(data) => SendIdle(r, data);
    case CallClose => CloseIdle(r);
    case _ => OtherIdle(r, ev);
  }

  // Packets

  lemma ListenTakes(t: Tcb, p: Packet, iss: u32)
    requires p.flags.syn
    ensures var u := HandleListen(t, p, iss);
      && u.state == SYN_RECEIVED && u.recvBuffer == t.recvBuffer && u.ooo == t.ooo
      && u.recvNext == Wrap32(p.seqNum + 1) && Emits(t, u, u.recvNext)
  {
  }

  lemma ListenReceives(s: Endpoint, r: Endpoint, p: Packet)
    requires Sound(s) && Sound(r) && Link(s, r) && |s.accepted| < 0x1_0000_0000
    requires r.tcb.state == LISTEN && p in s.tcb.out
    requires StreamInv(Moved(r, HandleListen(r.tcb, p, r.iss)))
    ensures Link(s, Moved(r, HandleListen(r.tcb, p, r.iss)))
  {
    hide StreamInv, Link;
    SenderHonest(s, p);
    if p.flags.syn {
      ListenTakes(r.tcb, p, r.iss);
      SynReceives(s, r, p, HandleListen(r.tcb, p, r.iss));
    } else {
      assert Moved(r, r.tcb) == r;
    }
  }

  lemma SynReceives(s: Endpoint, r: Endpoint, p: Packet, u: Tcb)
    requires Phases(r) && Link(s, r) && |s.accepted| < 0x1_0000_0000 && r.tcb.state == LISTEN
    requires u.state == SYN_RECEIVED && u.recvBuffer == r.tcb.recvBuffer && u.ooo == r.tcb.ooo && u.recvNext == Base(s)
    requires Emits(r.tcb, u, u.recvNext)
    requires StreamInv(Moved(r, u))
    ensures Link(s, Moved(r, u))
  {
    hide StreamInv;
    LinkToReceiver(s, r, Moved(r, u));
  }

  lemma SynSentReceives(s: Endpoint, r: Endpoint, p: Packet)
    requires Sound(s) && Sound(r) && Link(s, r) && |s.accepted| < 0x1_0000_0000
    requires r.tcb.state == SYN_SENT && p in s.tcb.out && !SimultaneousOpen(r.tcb, p)
    requires StreamInv(Moved(r, HandleSynSent(r.tcb, p)))
    ensures Link(s, Moved(r, HandleSynSent(r.tcb, p)))
  {
    hide TrySend, StreamInv, Link;
    SenderHonest(s, p);
    if p.flags.syn && AcksNext(r.tcb, p) {
      var v := AnswerSynAck(r.tcb, p).(state := ESTABLISHED);
      SynAckReceives(s, r, p, v);
    } else {
      assert Moved(r, r.tcb) == r;
    }
  }

  lemma SynAckReceives(s: Endpoint, r: Endpoint, p: Packet, v: Tcb)
    requires Phases(r) && Link(s, r) && |s.accepted| < 0x1_0000_0000 && !r.established && !r.synced && Active(r)
    requires v.recvBuffer == r.tcb.recvBuffer && v.ooo == r.tcb.ooo && v.recvNext == Base(s) && v.state == ESTABLISHED
    requires Emits(r.tcb, v, v.recvNext)
    requires StreamInv(Moved(r, TrySend(v)))
    ensures Link(s, Moved(r, TrySend(v)))
  {
    hide StreamInv, TrySend;
    TrySendKeeps(v);
    TrySendEmits(v);
    EmitsTwice(r.tcb, v, TrySend(v), v.recvNext);
    LinkToReceiver(s, r, Moved(r, TrySend(v)));
  }

  lemma DataReceives(s: Endpoint, r: Endpoint, p: Packet)
    requires Sound(s) && Sound(r) && Link(s, r) && Link(r, s) && |s.accepted| < 0x1_0000_0000
    requires r.tcb.state == ESTABLISHED && p in s.tcb.out
    requires StreamInv(Moved(r, HandleEstablished(r.tcb, p)))
    ensures Link(s, Moved(r, HandleEstablished(r.tcb, p)))
  {
    hide HandleEstablished, StreamInv;
    assert Honest(ClaimsOf(s), p) by {
      SenderHonest(s, p);
    }
    EstablishedReceives(s, r, p);
    EstablishedState(r.tcb, p);
    if !p.flags.fin {
      EstablishedAnswers(r, p);
    }
    LinkToReceiver(s, r, Moved(r, HandleEstablished(r.tcb, p)));
  }

  lemma SenderHonest(s: Endpoint, p: Packet)
    requires StreamInv(s) && p in s.tcb.out
    ensures Honest(ClaimsOf(s), p)
  {
  }

  lemma SynReceivedDispatch(t: Tcb, p: Packet, iss: u32)
    requires t.state == SYN_RECEIVED
    ensures SameRecvSide(t, Dispatch(t, p, iss)) && Emits(t, Dispatch(t, p, iss), t.recvNext)
  {
    SynReceivedEmits(t, p);
  }

  lemma SettledReceives(s: Endpoint, r: Endpoint, p: Packet)
    requires Sound(s) && Sound(r) && Link(s, r) && |s.accepted| < 0x1_0000_0000
    requires Settled(r.tcb.state) && p in s.tcb.out
    requires StreamInv(Moved(r, Dispatch(r.tcb, p, r.iss)))
    ensures Link(s, Moved(r, Dispatch(r.tcb, p, r.iss)))
  {
    hide Dispatch, StreamInv;
    var f := Moved(r, Dispatch(r.tcb, p, r.iss));
    SenderHonest(s, p);
    SettledDispatch(r.tcb, p, r.iss);
    DispatchState(r.tcb, p, r.iss);
    if r.tcb.state == SYN_RECEIVED {
      SynReceivedDispatch(r.tcb, p, r.iss);
    }
    LinkToReceiver(s, r, f);
  }

  lemma DispatchReceives(s: Endpoint, r: Endpoint, p: Packet)
    requires Sound(s) && Sound(r) && Link(s, r) && Link(r, s) && |s.accepted| < 0x1_0000_0000
    requires p in s.tcb.out && !SimultaneousOpen(r.tcb, p)
    requires StreamInv(Moved(r, Dispatch(r.tcb, p, r.iss)))
    ensures Link(s, Moved(r, Dispatch(r.tcb, p, r.iss)))
  {
    match r.tcb.state
    case LISTEN => ListenReceives(s, r, p);
    case SYN_SENT => SynSentReceives(s, r, p);
    case ESTABLISHED => DataReceives(s, r, p);
    case _ => SettledReceives(s, r, p);
  }

  lemma ToldReceives(s: Endpoint, r: Endpoint, p: Packet)
    requires Sound(s) && Sound(r) && Link(s, r) && Link(r, s)
    requires |s.accepted| < 0x1_0000_0000 && |r.accepted| < 0x1_0000_0000
    requires p in s.tcb.out && !SimultaneousOpen(r.tcb, p)
    ensures Link(s, Moved(r, Dispatch(r.tcb.(peerWindow := p.window), p, r.iss)))
  {
    hide Dispatch, Phases, StreamInv, Link;
    var told := r.(tcb := r.tcb.(peerWindow := p.window));
    ToldSound(r, p);
    ToldLinks(s, r, p);
    DispatchStep(told, p);
    DispatchReceives(s, told, p);
  }

  lemma ToldLinks(s: Endpoint, r: Endpoint, p: Packet)
    requires Link(s, r) && Link(r, s)
    ensures Link(s, r.(tcb := r.tcb.(peerWindow := p.window)))
    ensures Link(r.(tcb := r.tcb.(peerWindow := p.window)), s)
  {
  }

  lemma ToldSound(r: Endpoint, p: Packet)
    requires Sound(r)
    ensures Sound(r.(tcb := r.tcb.(peerWindow := p.window)))
  {
    FewerTimersHonest(ClaimsOf(r), r.tcb, r.tcb.(peerWindow := p.window));
    SameWindowStep(r, r.tcb.(peerWindow := p.window));
  }

  lemma MovedNowhere(r: Endpoint)
    requires Phases(r)
    ensures Moved(r, r.tcb) == r
  {
  }

  lemma ResetReceives(s: Endpoint, r: Endpoint)
    requires Sound(r) && Link(s, r) && |s.accepted| < 0x1_0000_0000
    ensures Link(s, Moved(r, HandleReset(r.tcb)))
  {
    hide StreamInv;
    ResetStep(r);
    IdleStep(s, r, Moved(r, HandleReset(r.tcb)));
  }

  lemma InputReceives(s: Endpoint, r: Endpoint, p: Packet, intact: bool)
    requires Sound(s) && Sound(r) && Link(s, r) && Link(r, s)
    requires |s.accepted| < 0x1_0000_0000 && |r.accepted| < 0x1_0000_0000
    requires Enabled(r, Deliver(p, intact)) && Deliverable(s, Deliver(p, intact))
    ensures Link(s, Moved(r, Input(r.tcb, p, intact, r.iss)))
  {
    hide Dispatch, StreamInv, Link, Phases, HandleReset;
    if !intact || (!p.flags.rst && !p.flags.ack && !p.flags.syn && !p.flags.fin) {
      assert Moved(r, r.tcb) == r by {
        MovedNowhere(r);
      }
    } else if p.flags.rst {
      ResetReceives(s, r);
    } else {
      ToldReceives(s, r, p);
    }
  }

  /** A link does not depend on the logs of acknowledgments and timeouts. */
  lemma SameLink(s: Endpoint, f: Endpoint, g: Endpoint)
    requires Link(s, f)
    requires g.tcb == f.tcb && g.readOut == f.readOut && g.begun == f.begun
    requires g.synced == f.synced && g.established == f.established && g.shifted == f.shifted
    ensures Link(s, g)
  {
  }

  /** The receiver's step keeps the link: what it takes in continues the sender's stream. */
  lemma {:induction false} ReceiverStep(s: Endpoint, r: Endpoint, ev: Event)
    requires Sound(s) && Sound(r) && Link(s, r) && Link(r, s)
    requires Enabled(r, ev) && Deliverable(s, ev)
    requires |s.accepted| < 0x1_0000_0000 && |r.accepted| <= |Next(r, ev).accepted| < 0x1_0000_0000
    ensures Link(s, Next(r, ev))
  {
    hide Input, StreamInv, Idle, Link;
    match ev
    case Deliver(p, intact) =>
      InputReceives(s, r, p, intact);
      SameLink(s, Moved(r, Input(r.tcb, p, intact, r.iss)), Next(r, ev));
    case _ =>
      LocalIdle(r, ev);
      StreamStep(r, ev);
      FinStays(s, r, Next(r, ev));
      IdleStep(s, r, Next(r, ev));
  }

  lemma FinStays(s: Endpoint, r: Endpoint, f: Endpoint)
    requires Link(s, r)
    requires f.tcb.state == CLOSE_WAIT || f.shifted ==> r.tcb.state == CLOSE_WAIT || r.shifted
    ensures FinTaken(s, f)
  {
  }
}
