/** The receiving side: what arrives in order, what waits out of order, and which acknowledgments go out. */
module Reception {
  import opened Types
  import opened Session
  import opened Endpoints
  import opened Streams
  import BQ = BoundedQueue

  /** `data` is what the stream holds at sequence number `k`, up to `bound`. */
  predicate Piece(base: u32, stream: seq<u8>, bound: nat, k: u32, data: seq<u8>) {
    var i := Offset(base, k);
    && data != []
    && i + |data| <= bound <= |stream|
    && data == stream[i..i + |data|]
  }

  /** Everything the application got or can get: the bytes it read, then the receive buffer. */
  function Delivered(t: Tcb, read: seq<u8>): seq<u8> {
    read + t.recvBuffer
  }

  /** The receiver holds a prefix of the peer's stream, expects the byte after it, and stores pieces of the rest. */
  ghost predicate Receiving(t: Tcb, base: u32, stream: seq<u8>, bound: nat, read: seq<u8>) {
    && Delivered(t, read) <= stream
    && |Delivered(t, read)| <= bound <= |stream| < 0x1_0000_0000
    && t.recvNext == Wrap32(base + |Delivered(t, read)|)
    && forall k :: k in t.ooo ==> Piece(base, stream, bound, k, t.ooo[k])
  }

  lemma OffsetOfPosition(base: u32, n: nat)
    requires n < 0x1_0000_0000
    ensures Offset(base, Wrap32(base + n)) == n
  {
  }

  lemma ExtendPrefix(got: seq<u8>, stream: seq<u8>, data: seq<u8>)
    requires got <= stream && |got| + |data| <= |stream|
    requires data == stream[|got|..|got| + |data|]
    ensures got + data <= stream
  {
    assert got == stream[..|got|];
  }

  lemma AppendReceiving(t: Tcb, base: u32, stream: seq<u8>, bound: nat, read: seq<u8>, data: seq<u8>)
    requires Receiving(t, base, stream, bound, read) && BQ.Fits(t.recvBuffer, CAPACITY, data)
    requires Piece(base, stream, bound, t.recvNext, data)
    ensures Receiving(Append(t, data), base, stream, bound, read)
    ensures Delivered(t, read) <= Delivered(Append(t, data), read)
  {
    var got := Delivered(t, read);
    OffsetOfPosition(base, |got|);
    assert Delivered(Append(t, data), read) == got + data;
    ExtendPrefix(got, stream, data);
    WrapAdd(base + |got|, |data|);
  }

  lemma {:induction false} DrainReceiving(t: Tcb, base: u32, stream: seq<u8>, bound: nat, read: seq<u8>)
    requires Receiving(t, base, stream, bound, read)
    ensures Receiving(Drain(t), base, stream, bound, read)
    ensures Delivered(t, read) <= Delivered(Drain(t), read)
    decreases t.ooo.Keys
  {
    if t.hung || !NextIsStored(t) {
    } else {
      var next, data := TakeStored(t), t.ooo[t.recvNext];
      if BQ.Fits(t.recvBuffer, CAPACITY, data) {
        AppendReceiving(t, base, stream, bound, read, data);
        assert next.ooo == t.ooo - {t.recvNext};
        DrainReceiving(next, base, stream, bound, read);
      }
    }
  }

  /** A segment of the peer's stream, whenever it arrives, leaves the receiver with a prefix. */
  lemma IncomingReceiving(t: Tcb, base: u32, stream: seq<u8>, bound: nat, read: seq<u8>, packet: Packet)
    requires Receiving(t, base, stream, bound, read)
    requires Piece(base, stream, bound, packet.seqNum, packet.payload)
    ensures Receiving(HandleIncoming(t, packet), base, stream, bound, read)
    ensures Delivered(t, read) <= Delivered(HandleIncoming(t, packet), read)
  {
    if packet.seqNum == t.recvNext {
      if BQ.Fits(t.recvBuffer, CAPACITY, packet.payload) {
        AppendReceiving(t, base, stream, bound, read, packet.payload);
      }
      DrainReceiving(Take(t, packet.payload), base, stream, bound, read);
    } else {
      assert Receiving(Store(t, packet), base, stream, bound, read);
    }
  }

  // Which acknowledgment number a new packet carries

  /** Between `t` and `u` only packets with acknowledgment number `a` were emitted. */
  ghost predicate Emits(t: Tcb, u: Tcb, a: u32) {
    && t.out <= u.out
    && forall i :: |t.out| <= i < |u.out| ==> u.out[i].ackNum == a
  }

  lemma EmitsTwice(t: Tcb, u: Tcb, v: Tcb, a: u32)
    requires Emits(t, u, a) && Emits(u, v, a)
    ensures Emits(t, v, a)
  {
  }

  lemma TrySendEmits(t: Tcb)
    ensures Emits(t, TrySend(t), t.recvNext)
  {
    TrySendIsPayload(t);
  }

  lemma HandleAckEmits(t: Tcb, packet: Packet)
    requires FewDuplicates(t)
    ensures Emits(t, Acked(t, packet), t.recvNext) && SameRecvSide(t, Acked(t, packet))
    ensures Acked(t, packet).state == t.state
  {
    AckKeeps(t, packet);
    TrySendKeeps(HandleAck(t, packet));
    TrySendEmits(HandleAck(t, packet));
    if AckAcceptable(t, packet.ackNum) {
      NoFastRetransmit(t, packet.ackNum);
      AcceptKeeps(t, packet.ackNum);
      TrySendEmits(AcceptAck(t, packet.ackNum));
    }
  }

  lemma IncomingEmits(t: Tcb, packet: Packet)
    ensures Emits(t, HandleIncoming(t, packet), HandleIncoming(t, packet).recvNext)
  {
    if packet.seqNum == t.recvNext {
      DrainKeeps(Take(t, packet.payload));
    } else {
      assert Store(t, packet).out == t.out;
    }
  }

  lemma {:induction false} DrainAppends(t: Tcb)
    ensures t.recvBuffer <= Drain(t).recvBuffer
    decreases t.ooo.Keys
  {
    if t.hung || !NextIsStored(t) || TakeStored(t).hung {
    } else {
      DrainAppends(TakeStored(t));
    }
  }

  /** A payload that arrives in order and fits is delivered at once, and what was delivered before stays. */
  lemma InOrderDelivers(t: Tcb, packet: Packet)
    requires packet.seqNum == t.recvNext && BQ.Fits(t.recvBuffer, CAPACITY, packet.payload)
    ensures t.recvBuffer + packet.payload <= HandleIncoming(t, packet).recvBuffer
  {
    DrainAppends(Take(t, packet.payload));
  }

  /**
   * Every payload, whatever its number, is answered by exactly one packet: a pure acknowledgment of what the session
   * holds afterwards, with the room that is left.
   */
  lemma IncomingAnswered(t: Tcb, packet: Packet)
    ensures var u := HandleIncoming(t, packet);
      u.hung || u.out == t.out + [Packet(t.sendNext, u.recvNext, FLAG_ACK, CAPACITY - |u.recvBuffer|, [])]
  {
    if packet.seqNum == t.recvNext {
      DrainKeeps(Take(t, packet.payload));
    } else {
    }
  }

  /** States in which neither the handshake nor data moves the receiving side. */
  predicate Settled(state: TcpState) {
    state !in {LISTEN, SYN_SENT, ESTABLISHED}
  }

  lemma SynReceivedEmits(t: Tcb, packet: Packet)
    ensures var u := HandleSynReceived(t, packet);
      SameRecvSide(t, u) && Emits(t, u, t.recvNext)
  {
    if AcksNext(t, packet) {
      var v := Advance(t, packet.ackNum).(state := ESTABLISHED);
      TrySendKeeps(v);
      TrySendEmits(v);
    }
  }

  lemma CloseWaitEmits(t: Tcb, packet: Packet)
    ensures var u := HandleCloseWait(t, packet);
      SameRecvSide(t, u) && Emits(t, u, t.recvNext)
  {
    var v := SendPureAck(t, t.recvNext);
    TrySendKeeps(v);
    TrySendEmits(v);
    if ReadyForLastFin(TrySend(v)) {
      assert Emits(TrySend(v), SendLastFin(TrySend(v)), t.recvNext);
    }
  }

  /** Nothing is taken in; without a FIN, only the current acknowledgment number goes out. */
  ghost predicate NothingTaken(t: Tcb, u: Tcb, fin: bool) {
    && u.recvBuffer == t.recvBuffer && u.ooo == t.ooo
    && (!fin ==> u.recvNext == t.recvNext && Emits(t, u, t.recvNext))
  }

  lemma FinWait1Takes(t: Tcb, packet: Packet)
    ensures NothingTaken(t, HandleFinWait1(t, packet), packet.flags.fin)
  {
    if AcksNext(t, packet) {
    } else {
    }
  }

  lemma LateTakes(t: Tcb, packet: Packet)
    ensures NothingTaken(t, HandleFinWait2(t, packet), packet.flags.fin)
    ensures NothingTaken(t, HandleTimeWait(t, packet), packet.flags.fin)
    ensures NothingTaken(t, HandleLastAck(t, packet), packet.flags.fin)
  {
    if AcksNext(t, packet) {
    } else {
    }
  }

  lemma SettledDispatch(t: Tcb, packet: Packet, iss: u32)
    requires Settled(t.state)
    ensures NothingTaken(t, Dispatch(t, packet, iss), packet.flags.fin)
  {
    match t.state
    case CLOSED =>
    case SYN_RECEIVED => SynReceivedEmits(t, packet);
    case FIN_WAIT_1 => FinWait1Takes(t, packet);
    case FIN_WAIT_2 => LateTakes(t, packet);
    case CLOSE_WAIT => CloseWaitEmits(t, packet);
    case LAST_ACK => LateTakes(t, packet);
    case TIME_WAIT => LateTakes(t, packet);
  }
}
