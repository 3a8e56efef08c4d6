/** Where the program departs from the obvious claim: exactly when the claim holds, and inputs on which it fails. */
module Departures {
  import opened Types
  import opened Session
  import opened Endpoints
  import opened Streams
  import opened Alignment
  import opened Reception
  import opened Segments
  import T = Timers
  import BQ = BoundedQueue

  // Timers of acknowledged segments

  /** The acknowledgment covers the whole packet. */
  predicate Covered(p: Packet, ackNum: u32) {
    p.seqNum + |p.payload| <= ackNum
  }

  /**
   * The timer of a segment that an acknowledgment covers stays armed exactly when the segment is the single byte just
   * before the acknowledgment number.
   */
  lemma CoveredTimerSurvives(t: Tcb, base: u32, cuts: seq<nat>, released: int, ackNum: u32, h: nat)
    requires Tracked(t, base, cuts, released) && AckAcceptable(t, ackNum) && FewDuplicates(t)
    requires h in t.timers.armed && Covered(t.timers.armed[h].packet, ackNum)
    ensures var p := t.timers.armed[h].packet;
      h in AcceptAck(t, ackNum).timers.armed <==> |p.payload| == 1 && p.seqNum + 1 == ackNum
  {
    hide AcceptAck;
    assert Running(t, base, cuts, t.timers.armed[h]);
    AcceptFacts(t, ackNum);
    T.DropUpToExact(t.timers, ackNum - 1);
  }

  /** An established session with nothing to send and nothing in flight. */
  predicate Quiet(t: Tcb) {
    t.state == ESTABLISHED && t.sendBuffer == [] && t.sendNext == t.sendUnack < 0xFFFF_FFFE && t.sendWindowSize >= 1
  }

  lemma SendsOneByte(t: Tcb, b: u8)
    requires Quiet(t)
    ensures var u := Send(t, [b]);
      && u.sendUnack == t.sendUnack && u.sendNext == t.sendNext + 1 && u.dupAckCount == t.dupAckCount
      && u.lastAckReceived == t.lastAckReceived
      && u.timers == T.StartTimer(t.timers, t.sendNext, INITIAL_RTO, PayloadPacket(t, [b], FLAG_ACK), 0)
  {
    hide TrySend, Chunk;
    FilledByte(t, b);
    TrySendIsPayload(t.(sendBuffer := [b]));
  }

  lemma FilledByte(t: Tcb, b: u8)
    requires Quiet(t)
    ensures Send(t, [b]) == TrySend(t.(sendBuffer := [b])) && Chunk(t.(sendBuffer := [b])) == [b]
  {
    hide TrySend;
    assert [b][..SendRoom(t, [b])] == [b];
    assert t.sendBuffer + [b] == [b];
    assert BQ.PeekRange([b], 0, Allowance(t)) == [b];
  }

  /** For every such session: one byte is sent and acknowledged, and yet its timer is armed and will send it again. */
  lemma OneByteIsSentAgain(t: Tcb, b: u8)
    requires Quiet(t) && FewDuplicates(t) && T.Owned(t.timers)
    ensures
      var sent := Send(t, [b]);
      && AckAcceptable(sent, t.sendNext + 1)
      && var h := t.timers.next;
         var acked := AcceptAck(sent, t.sendNext + 1);
         && acked.sendUnack == acked.sendNext
         && h in acked.timers.armed && acked.timers.armed[h].packet.payload == [b]
  {
    hide Send, AcceptAck;
    SendsOneByte(t, b);
    var sent := Send(t, [b]);
    AcceptFacts(sent, t.sendNext + 1);
    AcceptMoves(sent, t.sendNext + 1);
    assert t.timers.next in sent.timers.armed;
    T.StartKeepsOwned(t.timers, t.sendNext, INITIAL_RTO, PayloadPacket(t, [b], FLAG_ACK), 0);
    T.DropUpToExact(sent.timers, t.sendNext);
  }

  lemma AcceptMoves(t: Tcb, ackNum: u32)
    requires FewDuplicates(t) && AckAcceptable(t, ackNum)
    ensures AcceptAck(t, ackNum).sendUnack == ackNum && AcceptAck(t, ackNum).sendNext == t.sendNext
  {
    NoFastRetransmit(t, ackNum);
  }

  // The threshold after a timeout

  /** After a timeout the threshold is no more than the window was exactly when the window was odd. */
  lemma ThresholdFalls(cwnd: u32)
    requires cwnd >= 1
    ensures HalvedThreshold(cwnd) <= cwnd <==> cwnd % 2 == 1
    ensures cwnd % 2 == 0 ==> HalvedThreshold(cwnd) == cwnd + 1
    ensures cwnd % 2 == 1 && cwnd < 0xFFFF_FFFF ==> HalvedThreshold(cwnd) == (cwnd + 1) / 2
  {
  }

  // The branch for three duplicates

  /** Byte order is turned round twice. */
  lemma HtonlTwice(x: u32)
    ensures Htonl(Htonl(x)) == x
  {
    hide Htonl;
    var a, b, c, d := x / 0x100_0000, x / 0x1_0000 % 0x100, x / 0x100 % 0x100, x % 0x100;
    FourBytes(x);
    HtonlBytes(a, b, c, d);
    HtonlBytes(d, c, b, a);
  }

  lemma FourBytes(x: u32)
    ensures x == ((x / 0x100_0000 * 0x100 + x / 0x1_0000 % 0x100) * 0x100 + x / 0x100 % 0x100) * 0x100 + x % 0x100
  {
    var y := x / 0x100;
    assert y / 0x100 == x / 0x1_0000 && y / 0x1_0000 == x / 0x100_0000;
  }

  lemma HtonlBytes(a: u8, b: u8, c: u8, d: u8)
    ensures Htonl(((a * 0x100 + b) * 0x100 + c) * 0x100 + d) == ((d * 0x100 + c) * 0x100 + b) * 0x100 + a
  {
    var high := (a * 0x100 + b) * 0x100 + c;
    var x := high * 0x100 + d;
    assert x / 0x100 == high && x % 0x100 == d;
    assert x / 0x1_0000 == a * 0x100 + b && high % 0x100 == c;
    assert x / 0x100_0000 == a && (a * 0x100 + b) % 0x100 == b;
  }

  /**
   * A data packet is remembered under its number in network order, unless one is remembered there already, and looked
   * up in host order: the lookup of its own number finds something exactly when the number reads the same in both, or
   * something was there before.
   */
  lemma RememberedPacketIsFound(t: Tcb, data: seq<u8>, flags: Flags)
    requires data != []
    ensures var u, key := SendPayload(t, data, flags), Htonl(t.sendNext);
      && (forall k :: k in u.inflight <==> k in t.inflight || k == key)
      && (forall k :: k in t.inflight ==> u.inflight[k] == t.inflight[k])
      && (key !in t.inflight ==>
            u.inflight[key] == Packet(t.sendNext, t.recvNext, flags, CAPACITY - |t.recvBuffer|, data))
      && (t.sendNext in u.inflight <==> Htonl(t.sendNext) == t.sendNext || t.sendNext in t.inflight)
  {
    hide Htonl;
  }

  /**
   * What the branch for three duplicates would do, if it were reached: the window becomes half of what it was plus four
   * and the threshold half of it; a packet found under the acknowledgment number goes out as new data, at `sendNext`.
   */
  lemma ThirdDuplicate(t: Tcb, ackNum: u32)
    requires AckAcceptable(t, ackNum) && t.lastAckReceived == ackNum && t.dupAckCount == 2
    ensures var u := AcceptAck(t, ackNum);
      && u.ssthresh == t.sendWindowSize / 2 && u.sendWindowSize == t.sendWindowSize / 2 + 4 && u.dupAckCount == 0
      && if ackNum in t.inflight && t.inflight[ackNum].payload != [] then
           var lost := t.inflight[ackNum];
           && u.out == t.out + [Packet(t.sendNext, t.recvNext, lost.flags, CAPACITY - |t.recvBuffer|, lost.payload)]
           && u.sendNext == Wrap32(t.sendNext + |lost.payload|)
         else
           u.out == t.out && u.sendNext == t.sendNext
    ensures T.Owned(t.timers) ==>
      forall h :: h in t.timers.armed && t.timers.armed[h].seqNum == ackNum ==> h !in AcceptAck(t, ackNum).timers.armed
  {
    hide Release, ResendRemembered, T.StopTimer, T.Owned;
    var counted := Release(t, ackNum).(dupAckCount := 3);
    if T.Owned(t.timers) {
      StoppedStays(t, counted, ackNum);
    }
    ReleaseRemembers(t, ackNum);
    ResendsAsNew(counted.(timers := T.StopTimer(counted.timers, ackNum)), ackNum);
  }

  lemma StoppedStays(t: Tcb, counted: Tcb, ackNum: u32)
    requires T.Owned(t.timers) && AckAcceptable(t, ackNum) && counted == Release(t, ackNum).(dupAckCount := 3)
    ensures var u := ResendRemembered(counted.(timers := T.StopTimer(counted.timers, ackNum)), ackNum);
      forall h :: h in t.timers.armed && t.timers.armed[h].seqNum == ackNum ==> h !in u.timers.armed
  {
    hide Htonl;
    T.DropUpToExact(t.timers, ackNum - 1);
  }

  lemma ResendsAsNew(t: Tcb, ackNum: u32)
    ensures var u := ResendRemembered(t, ackNum);
      && u.sendWindowSize == t.sendWindowSize
      && if ackNum in t.inflight && t.inflight[ackNum].payload != [] then
           var lost := t.inflight[ackNum];
           && u.out == t.out + [Packet(t.sendNext, t.recvNext, lost.flags, CAPACITY - |t.recvBuffer|, lost.payload)]
           && u.sendNext == Wrap32(t.sendNext + |lost.payload|)
         else
           u.out == t.out && u.sendNext == t.sendNext
  {
    hide T.StartTimer, Htonl;
  }

  lemma ReleaseRemembers(t: Tcb, ackNum: u32)
    requires AckAcceptable(t, ackNum)
    ensures var u := Release(t, ackNum);
      && u.out == t.out && u.sendNext == t.sendNext && u.recvNext == t.recvNext && u.recvBuffer == t.recvBuffer
      && u.sendWindowSize == t.sendWindowSize && u.lastAckReceived == t.lastAckReceived
      && u.dupAckCount == t.dupAckCount
      && (ackNum in u.inflight <==> ackNum in t.inflight)
      && (ackNum in t.inflight ==> u.inflight[ackNum] == t.inflight[ackNum])
  {
  }

  // FIN

  /** How far draining moves `recvNext`: by the bytes it appends, and it appends some if it starts at all. */
  lemma {:induction false} DrainMoves(t: Tcb)
    requires forall k :: k in t.ooo ==> t.ooo[k] != []
    ensures var u := Drain(t);
      && |t.recvBuffer| <= |u.recvBuffer| && u.recvNext == Wrap32(t.recvNext + (|u.recvBuffer| - |t.recvBuffer|))
      && (!t.hung && !u.hung ==> (|u.recvBuffer| == |t.recvBuffer| <==> !NextIsStored(t)))
    decreases t.ooo.Keys
  {
    if t.hung || !NextIsStored(t) || TakeStored(t).hung {
      DrainStops(t);
    } else {
      var next := TakeStored(t);
      StoredMoves(t);
      DrainGoesOn(t);
      hide TakeStored, NextIsStored, Drain, Wrap32;
      DrainMoves(next);
      WrapAdd(t.recvNext + (|next.recvBuffer| - |t.recvBuffer|), |Drain(next).recvBuffer| - |next.recvBuffer|);
    }
  }

  lemma DrainStops(t: Tcb)
    requires t.hung || !NextIsStored(t) || TakeStored(t).hung
    ensures var u := Drain(t);
      && u.recvBuffer == t.recvBuffer && u.recvNext == t.recvNext == Wrap32(t.recvNext + 0)
      && (u.hung <==> t.hung || NextIsStored(t))
  {
  }

  lemma DrainGoesOn(t: Tcb)
    requires !t.hung && NextIsStored(t) && !TakeStored(t).hung
    ensures Drain(t) == Drain(TakeStored(t))
  {
  }

  lemma StoredMoves(t: Tcb)
    requires NextIsStored(t) && !TakeStored(t).hung && t.ooo[t.recvNext] != []
    ensures var u := TakeStored(t);
      && |t.recvBuffer| < |u.recvBuffer| && u.recvNext == Wrap32(t.recvNext + (|u.recvBuffer| - |t.recvBuffer|))
      && u.ooo == t.ooo - {t.recvNext}
  {
  }

  /** A payload is discarded, and nothing stored is taken in its place. */
  predicate TakesNothing(t: Tcb, p: Packet) {
    p.payload == [] || (!BQ.Fits(t.recvBuffer, CAPACITY, p.payload) && !NextIsStored(t))
  }

  lemma TakeMoves(t: Tcb, data: seq<u8>)
    ensures var u := Take(t, data);
      && u.recvNext == Wrap32(t.recvNext + (|u.recvBuffer| - |t.recvBuffer|))
      && u.ooo == t.ooo && u.hung == t.hung
      && (if BQ.Fits(t.recvBuffer, CAPACITY, data) then |u.recvBuffer| == |t.recvBuffer| + |data| else u == t)
  {
  }

  /** How far `recvNext` moves from `t` to `u`. */
  predicate MovesBy(t: Tcb, u: Tcb, k: int) {
    0 <= k <= CAPACITY && |u.recvBuffer| == |t.recvBuffer| + k && u.recvNext == Wrap32(t.recvNext + k)
  }

  lemma InOrderMoves(t: Tcb, p: Packet) returns (k: int)
    requires (forall k :: k in t.ooo ==> t.ooo[k] != []) && !t.hung && !Fed(t, p).hung
    requires p.payload != [] && p.seqNum == t.recvNext
    ensures MovesBy(t, Fed(t, p), k) && (k == 0 <==> TakesNothing(t, p))
  {
    var taken := Take(t, p.payload);
    var u := Drain(taken);
    TakeMoves(t, p.payload);
    DrainMoves(taken);
    WrapAdd(t.recvNext + (|taken.recvBuffer| - |t.recvBuffer|), |u.recvBuffer| - |taken.recvBuffer|);
    k := |u.recvBuffer| - |t.recvBuffer|;
    FedInOrder(t, p);
    hide Fed, Take, Drain;
  }

  lemma FedInOrder(t: Tcb, p: Packet)
    requires p.payload != [] && p.seqNum == t.recvNext
    ensures var u, v := Fed(t, p), Drain(Take(t, p.payload));
      u.recvBuffer == v.recvBuffer && u.recvNext == v.recvNext && u.hung == v.hung
  {
    hide Take, Drain;
  }

  lemma StaysPut(n: u32, k: int)
    requires 0 <= k <= CAPACITY
    ensures n == Wrap32(n + k) <==> k == 0
  {
  }

  /** A payload leaves `recvNext` at the packet's number exactly when it was there before and nothing is taken. */
  lemma FedMoves(t: Tcb, p: Packet) returns (k: int)
    requires (forall k :: k in t.ooo ==> t.ooo[k] != []) && !t.hung && !Fed(t, p).hung
    ensures MovesBy(t, Fed(t, p), k)
    ensures p.seqNum == Fed(t, p).recvNext <==> p.seqNum == t.recvNext && TakesNothing(t, p)
  {
    hide TakesNothing, Drain, Take;
    k := 0;
    if p.payload == [] {
      NoPayload(t, p);
    } else if p.seqNum == t.recvNext {
      k := InOrderMoves(t, p);
      StaysPut(t.recvNext, k);
    } else {
    }
  }

  lemma NoPayload(t: Tcb, p: Packet)
    requires p.payload == []
    ensures TakesNothing(t, p)
  {
  }

  /**
   * A FIN is taken whatever its sequence number and payload, and the number acknowledged is one past its own. It
   * covers the received bytes and the FIN, no more and no less, exactly when the FIN came in order and nothing was
   * taken in with it; any payload that is taken in with the FIN is acknowledged short.
   */
  lemma {:induction false} FinAckExact(t: Tcb, base: u32, stream: seq<u8>, bound: nat, read: seq<u8>, p: Packet)
    requires t.state == ESTABLISHED && Receiving(t, base, stream, bound, read) && !t.hung && FewDuplicates(t)
    requires p.flags.fin && !HandleEstablished(t, p).hung
    ensures var u := HandleEstablished(t, p);
      && u.state == CLOSE_WAIT && u.out != [] && u.out[|u.out| - 1].ackNum == u.recvNext == Wrap32(p.seqNum + 1)
      && (u.recvNext == Wrap32(base + |Delivered(u, read)| + 1) <==> p.seqNum == t.recvNext && TakesNothing(t, p))
  {
    hide Acked, Fed, TakesNothing;
    var acked := Acked(t, p);
    var fed := Fed(acked, p);
    HandleAckEmits(t, p);
    FedState(acked, p);
    var k := FedMoves(acked, p);
    SameTaking(t, acked, p);
    WrapAdd(base + |Delivered(t, read)|, k);
    FinNumber(base + |Delivered(fed, read)|, p.seqNum);
  }

  lemma FedState(t: Tcb, p: Packet)
    ensures Fed(t, p).state == t.state
  {
    hide HandleIncoming;
    if p.payload != [] {
      IncomingKeeps(t, p);
    }
  }

  lemma SameTaking(t: Tcb, u: Tcb, p: Packet)
    requires SameRecvSide(t, u)
    ensures TakesNothing(t, p) <==> TakesNothing(u, p)
  {
  }

  lemma FinNumber(end: int, seqNum: u32)
    ensures Wrap32(seqNum + 1) == Wrap32(end + 1) <==> seqNum == Wrap32(end)
  {
  }

  /** The acknowledgment that ends FIN_WAIT_1 acknowledges the FIN exactly when nothing but the FIN was in flight. */
  lemma FinWait1Ends(t: Tcb, p: Packet)
    requires t.state == FIN_WAIT_1 && !p.flags.fin && HandleFinWait1(t, p).state == FIN_WAIT_2
    ensures p.ackNum == t.sendNext <==> InFlight(t) == 1
  {
  }

  /** Closing an established session disarms every data timer: bytes in flight or buffered are never sent again. */
  lemma CloseAbandonsData(t: Tcb)
    requires t.state == ESTABLISHED && T.Owned(t.timers)
    ensures var u := Close(t);
      && u.state == FIN_WAIT_1 && u.out != []
      && var fin := u.out[|u.out| - 1];
         && fin.flags == FLAG_FIN && fin.payload == [] && u.sendNext == Wrap32(fin.seqNum + 1)
         && forall h :: h in u.timers.armed ==> u.timers.armed[h].packet == fin
  {
    hide TrySend;
    TrySendOwned(t);
    T.StopAllDisarms(TrySend(t).timers);
  }

  /** The FIN that CLOSE_WAIT sends by itself moves `sendNext` by two, and yet LAST_ACK accepts its acknowledgment. */
  lemma LastFinSkipsNumber(t: Tcb, ack: Packet)
    requires ReadyForLastFin(t)
    requires ack.flags.ack && ack.ackNum == Wrap32(t.sendNext + 1)
    ensures var u := SendLastFin(t);
      && u.out != [] && u.out[|u.out| - 1].seqNum == t.sendNext && u.sendNext == Wrap32(t.sendNext + 2)
      && HandleLastAck(u, ack).state == CLOSED && HandleLastAck(u, ack).sendUnack != u.sendNext
  {
    var closing := SendControl(t.(timers := T.StopAll(t.timers)), FLAG_FIN);
    assert closing.out == t.out + [ControlPacket(t, FLAG_FIN)];
    WrapAdd(t.sendNext + 1, 1);
  }

  // Simultaneous open

  /**
   * After a simultaneous open the SYN-ACK goes out at the sequence number of the first data byte. Once it is
   * acknowledged the session takes that byte for sent, although no data packet exists.
   */
  lemma {:induction false} SimultaneousOpenMisaligns(e: Endpoint, syn: Packet, ack: Packet)
    requires StreamInv(e) && e.tcb.state == SYN_SENT && e.tcb.sendWindowSize == 1
    requires syn.flags.syn && !syn.flags.ack
    requires AcksNext(HandleSynSent(e.tcb, syn), ack)
    ensures
      var synced := HandleSynSent(e.tcb, syn);
      var u := HandleSynReceived(synced, ack);
      && synced.out == e.tcb.out + [synced.out[|synced.out| - 1]]
      && synced.out[|synced.out| - 1].flags == FLAG_SYN_ACK && synced.out[|synced.out| - 1].seqNum == Base(e)
      && u.state == ESTABLISHED && u.out == synced.out
      && u.sendUnack == Base(e) && InFlight(u) == 1
      && (u.sendBuffer == [] ==> !Aligned(u, Base(e), e.accepted))
  {
    hide TrySend, AllHonest;
    var synced := HandleSynSent(e.tcb, syn);
    assert synced == AnswerSyn(e.tcb, syn);
    WindowClosed(Advance(synced, ack.ackNum).(state := ESTABLISHED));
  }

  lemma WindowClosed(t: Tcb)
    requires InFlight(t) == 1 == t.sendWindowSize
    ensures TrySend(t) == t
  {
    hide SendPayload;
    assert Allowance(t) == 0;
  }

  // A FIN that overtakes an acknowledgment

  /** A session that has closed actively with everything acknowledged, and its next events. */
  function AfterOvertaking(t: Tcb, b: u8, fin: Packet, last: Packet): Tcb {
    HandleCloseWait(HandleFinWait1(Send(Close(t), [b]), fin), last)
  }

  lemma ClosesQuietly(t: Tcb)
    requires Quiet(t)
    ensures var u := Close(t);
      && u.state == FIN_WAIT_1 && u.sendBuffer == [] && u.sendUnack == t.sendUnack
      && u.sendNext == t.sendNext + 1 && u.sendWindowSize == t.sendWindowSize
  {
    assert Chunk(t) == [];
    TrySendIsPayload(t);
  }

  /**
   * The peer's FIN with ACK overtakes its acknowledgment, so FIN_WAIT_1 turns into CLOSE_WAIT and the session sends
   * again. A byte accepted in between goes out one sequence number after its place in the stream.
   */
  lemma {:induction false} OvertakingFinMisplaces(t: Tcb, base: u32, stream: seq<u8>, b: u8, fin: Packet, last: Packet)
    requires Quiet(t) && Aligned(t, base, stream) && |stream| < 0xFFFF_FFFF
    requires fin.flags.fin && fin.flags.ack && fin.ackNum == t.sendUnack + 1
    ensures
      var u := AfterOvertaking(t, b, fin, last);
      && u.out != []
      && var p := u.out[|u.out| - 1];
         p.payload == [b] && Offset(base, p.seqNum) == |stream| + 1
         && !IsSlice(base, stream + [b], |stream + [b]|, p)
  {
    hide Close, Send, HandleFinWait1, HandleCloseWait;
    ClosesQuietly(t);
    QueuedByte(Close(t), b);
    var queued := Close(t).(sendBuffer := [b]);
    OvertakenShifts(queued, fin);
    LastByteGoes(HandleFinWait1(queued, fin), b, last);
    OffsetOfPosition(base, |stream| + 1);
  }

  lemma OvertakenShifts(t: Tcb, fin: Packet)
    requires t.state == FIN_WAIT_1 && fin.flags.fin && AcksNext(t, fin) && t.sendNext == Wrap32(t.sendUnack + 1)
    ensures var u := HandleFinWait1(t, fin);
      && u.state == CLOSE_WAIT && u.sendBuffer == t.sendBuffer && u.sendWindowSize == t.sendWindowSize
      && u.sendNext == u.sendUnack == t.sendNext
  {
  }

  lemma LastByteGoes(t: Tcb, b: u8, p: Packet)
    requires t.state == CLOSE_WAIT && t.sendBuffer == [b] && t.sendWindowSize >= 1 && t.sendNext == t.sendUnack
    ensures var u := HandleCloseWait(t, p);
      && u.out != [] && u.out[|u.out| - 1].payload == [b] && u.out[|u.out| - 1].seqNum == t.sendNext
  {
    hide TrySend;
    var answered := SendPureAck(t, t.recvNext);
    assert BQ.PeekRange([b], 0, Allowance(answered)) == [b];
    assert Chunk(answered) == [b];
    TrySendIsPayload(answered);
  }

  lemma QueuedByte(t: Tcb, b: u8)
    requires t.state == FIN_WAIT_1 && t.sendBuffer == []
    ensures Send(t, [b]) == t.(sendBuffer := [b])
  {
    hide TrySend;
    assert [b][..SendRoom(t, [b])] == [b];
    assert t.sendBuffer + [b] == [b];
    TrySendStops(t.(sendBuffer := [b]));
  }

  // Streams of 2^32 bytes and more

  /**
   * A receiver that has exactly 2^32 bytes expects the number of the first one again. It takes a late duplicate of the
   * first segment for new data, and keeps a prefix of the stream if and only if the stream repeats those bytes there.
   */
  lemma SecondLapConfuses(t: Tcb, base: u32, stream: seq<u8>, read: seq<u8>, p: Packet)
    requires Delivered(t, read) <= stream && |Delivered(t, read)| == 0x1_0000_0000
    requires t.recvNext == Wrap32(base + |Delivered(t, read)|) && t.ooo == map[] && !t.hung
    requires p.payload != [] && 0x1_0000_0000 + |p.payload| <= |stream| && BQ.Fits(t.recvBuffer, CAPACITY, p.payload)
    requires p.seqNum == base && p.payload == stream[..|p.payload|]
    ensures var u, n := HandleIncoming(t, p), |p.payload|;
      && IsSlice(base, stream, |stream|, p)
      && Delivered(u, read) == stream[..0x1_0000_0000] + stream[..n]
      && (Delivered(u, read) <= stream <==> stream[..n] == stream[0x1_0000_0000..0x1_0000_0000 + n])
  {
    var lap, n := 0x1_0000_0000, |p.payload|;
    var taken := Take(t, p.payload);
    assert Drain(taken) == taken;
    assert Delivered(taken, read) == Delivered(t, read) + p.payload;
    assert Delivered(t, read) == stream[..lap];
    assert stream[..lap + n] == stream[..lap] + stream[lap..lap + n];
    if stream[..lap] + stream[..n] <= stream {
      assert (stream[..lap] + stream[..n])[lap..] == stream[..n];
    }
  }
}
