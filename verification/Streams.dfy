/** How the sequence numbers, the send buffer and the emitted segments follow the stream the application wrote. */
module Streams {
  import opened Types
  import opened Session
  import opened Endpoints
  import T = Timers
  import BQ = BoundedQueue

  /** The position in the stream that sequence number `x` stands for, when the stream starts at `base`. */
  function Offset(base: u32, x: u32): u32 {
    Wrap32(x - base)
  }

  /** The packet's payload is what the stream holds at the packet's sequence number, up to `bound`. */
  predicate IsSlice(base: u32, stream: seq<u8>, bound: nat, p: Packet) {
    var i := Offset(base, p.seqNum);
    && i + |p.payload| <= bound <= |stream|
    && p.payload == stream[i..i + |p.payload|]
  }

  /** The send buffer is the unacknowledged rest of the stream. */
  predicate Buffered(t: Tcb, base: u32, stream: seq<u8>) {
    && 0 <= Popped(t, stream)
    && t.sendBuffer == stream[Popped(t, stream)..]
    && base + Popped(t, stream) < 0x1_0000_0000
  }

  /** `sendUnack` is the number of the first buffered byte; it has not wrapped, although `sendNext` may have. */
  predicate Placed(t: Tcb, base: u32, stream: seq<u8>) {
    Buffered(t, base, stream) && t.sendUnack == base + Popped(t, stream)
  }

  /** The window lies on the stream. */
  predicate Aligned(t: Tcb, base: u32, stream: seq<u8>) {
    Placed(t, base, stream) && InFlight(t) <= |t.sendBuffer|
  }

  /** The duplicate counter cannot reach three: an acknowledgment equal to the last one is never acceptable twice. */
  predicate FewDuplicates(t: Tcb) {
    t.dupAckCount == 0 || (t.dupAckCount == 1 && t.lastAckReceived <= t.sendUnack)
  }

  lemma NextOnStream(t: Tcb, base: u32, stream: seq<u8>)
    requires Aligned(t, base, stream)
    ensures t.sendNext == Wrap32(base + Sent(t, stream))
    ensures Sent(t, stream) < 0x1_0000_0000 ==> Offset(base, t.sendNext) == Sent(t, stream)
  {
  }

  /** What every packet of an endpoint says, in terms of the endpoint's history. */
  datatype Claims = Claims(
    iss: u32, stream: seq<u8>, bound: nat, sliced: bool, active: bool, synced: bool, passive: bool)

  predicate Honest(c: Claims, p: Packet) {
    && (c.sliced && p.payload != [] ==> IsSlice(Wrap32(c.iss + 1), c.stream, c.bound, p))
    && (p.flags.fin ==> !c.active)
    && (p.flags.syn ==> p.seqNum == c.iss && (c.passive ==> p.flags.ack))
    && (p.flags.ack ==> c.synced)
  }

  ghost predicate AllHonest(c: Claims, t: Tcb) {
    && (forall p :: p in t.out ==> Honest(c, p))
    && (forall h :: h in t.timers.armed ==> Honest(c, t.timers.armed[h].packet))
  }

  /** A later state of the same endpoint claims no more. */
  predicate Follows(c: Claims, d: Claims) {
    && d.iss == c.iss && d.passive == c.passive
    && c.stream <= d.stream
    && c.bound <= d.bound <= |d.stream|
    && (d.sliced ==> c.sliced)
    && (d.active ==> c.active)
    && (c.synced ==> d.synced)
  }

  lemma FollowingHonest(c: Claims, d: Claims, t: Tcb)
    requires Follows(c, d) && AllHonest(c, t)
    ensures AllHonest(d, t)
  {
  }

  // One lemma for every way to send

  lemma PureAckHonest(c: Claims, t: Tcb, ackNum: u32)
    requires AllHonest(c, t) && c.synced
    ensures AllHonest(c, SendPureAck(t, ackNum))
  {
  }

  lemma FewerTimersHonest(c: Claims, t: Tcb, u: Tcb)
    requires AllHonest(c, t)
    requires u.out == t.out
    requires forall h :: h in u.timers.armed ==> h in t.timers.armed && u.timers.armed[h] == t.timers.armed[h]
    ensures AllHonest(c, u)
  {
  }

  lemma ControlHonest(c: Claims, t: Tcb, flags: Flags)
    requires AllHonest(c, t)
    requires Honest(c, ControlPacket(t, flags))
    ensures AllHonest(c, SendControl(t, flags))
  {
  }

  lemma PayloadHonest(c: Claims, t: Tcb, data: seq<u8>)
    requires AllHonest(c, t)
    requires data != [] ==> Honest(c, PayloadPacket(t, data, FLAG_ACK))
    ensures AllHonest(c, SendPayload(t, data, FLAG_ACK))
  {
  }

  lemma ResendHonest(c: Claims, t: Tcb, packet: Packet, count: nat, seqNum: u32)
    requires AllHonest(c, t) && Honest(c, packet)
    ensures AllHonest(c, Resend(t, packet, count, seqNum))
  {
  }

  lemma RefreshedHonest(c: Claims, t: Tcb, packet: Packet)
    requires Honest(c, packet)
    ensures Honest(c, Refreshed(t, packet))
  {
  }

  lemma {:induction false} RetransmitHonest(c: Claims, t: Tcb, h: nat)
    requires AllHonest(c, t) && h in t.timers.armed
    ensures AllHonest(c, Expire(t, h))
  {
    hide Honest, T.StartTimer;
    var timer := t.timers.armed[h];
    var fired := t.(timers := T.Fire(t.timers, h));
    var stopped := fired.(timers := T.StopTimer(fired.timers, timer.packet.seqNum));
    FewerTimersHonest(c, t, stopped);
    if timer.count + 1 < MAX_RETRANSMIT_COUNT {
      RefreshedHonest(c, fired, timer.packet);
      FewerTimersHonest(c, stopped, BackOff(stopped));
      ResendHonest(c, BackOff(stopped), Refreshed(fired, timer.packet), timer.count + 1, timer.packet.seqNum);
    }
  }

  // The sending side of an established connection

  /** What `_handle_try_send` hands to `_send_payload_packet`. */
  function Chunk(t: Tcb): seq<u8> {
    if !MaySend(t.state) || Allowance(t) == 0 then []
    else BQ.PeekRange(t.sendBuffer, InFlight(t), Allowance(t))
  }

  lemma TrySendIsPayload(t: Tcb)
    ensures TrySend(t) == SendPayload(t, Chunk(t), FLAG_ACK)
  {
  }

  lemma TrySendStops(t: Tcb)
    ensures !MaySend(t.state) ==> TrySend(t) == t
  {
  }

  lemma TrySendOwned(t: Tcb)
    requires T.Owned(t.timers)
    ensures T.Owned(TrySend(t).timers)
  {
    TrySendIsPayload(t);
    if Chunk(t) != [] {
      T.StartKeepsOwned(t.timers, t.sendNext, INITIAL_RTO, PayloadPacket(t, Chunk(t), FLAG_ACK), 0);
    }
  }

  lemma ChunkIsSlice(t: Tcb, base: u32, stream: seq<u8>)
    requires Buffered(t, base, stream) && InFlight(t) <= |t.sendBuffer| && |stream| < 0x1_0000_0000
    ensures var i := Sent(t, stream);
      i + |Chunk(t)| <= |stream| && Chunk(t) == stream[i..i + |Chunk(t)|]
  {
    var data := t.sendBuffer;
    assert data == stream[Popped(t, stream)..];
    forall k | 0 <= k < |Chunk(t)| ensures Chunk(t)[k] == stream[Sent(t, stream) + k] {
      assert Chunk(t)[k] == data[InFlight(t) + k];
    }
  }

  /** Even when more is in flight than is buffered, as after a FIN, what goes out is the stream at its number. */
  lemma ChunkPlaced(t: Tcb, base: u32, stream: seq<u8>)
    requires Placed(t, base, stream) && |stream| < 0x1_0000_0000 && Chunk(t) != []
    ensures var i := Sent(t, stream);
      && i + |Chunk(t)| <= |stream| && Chunk(t) == stream[i..i + |Chunk(t)|]
      && Offset(base, t.sendNext) == i
  {
    assert InFlight(t) < |t.sendBuffer|;
    ChunkIsSlice(t, base, stream);
    NextOnStream(t, base, stream);
  }

  lemma WindowGrows(next: u32, unack: u32, k: nat)
    requires Wrap32(next - unack) + k < 0x1_0000_0000
    ensures Wrap32(Wrap32(next + k) - unack) == Wrap32(next - unack) + k
  {
  }

  lemma PayloadAligned(t: Tcb, base: u32, stream: seq<u8>, data: seq<u8>)
    requires Aligned(t, base, stream)
    requires InFlight(t) + |data| <= |t.sendBuffer|
    ensures var u := SendPayload(t, data, FLAG_ACK);
      Aligned(u, base, stream) && InFlight(u) == InFlight(t) + |data| && u.sendBuffer == t.sendBuffer
  {
    if data != [] {
      WindowGrows(t.sendNext, t.sendUnack, |data|);
    }
  }

  lemma ChunkHonest(t: Tcb, c: Claims)
    requires Aligned(t, Wrap32(c.iss + 1), c.stream) && |c.stream| < 0x1_0000_0000
    requires c.bound == Sent(t, c.stream) && c.synced
    requires AllHonest(c, t)
    ensures AllHonest(c.(bound := c.bound + |Chunk(t)|), TrySend(t))
  {
    hide TrySend, Chunk, SendPayload, AllHonest;
    var base, data := Wrap32(c.iss + 1), Chunk(t);
    var d := c.(bound := c.bound + |data|);
    TrySendIsPayload(t);
    ChunkIsSlice(t, base, c.stream);
    FollowingHonest(c, d, t);
    NextOnStream(t, base, c.stream);
    PayloadHonest(d, t, data);
  }

  /** Trying to send keeps the alignment and emits nothing but slices. */
  lemma {:induction false} TrySendAligned(t: Tcb, c: Claims)
    requires Aligned(t, Wrap32(c.iss + 1), c.stream) && |c.stream| < 0x1_0000_0000
    requires c.bound == Sent(t, c.stream) && c.synced
    requires AllHonest(c, t)
    ensures var u := TrySend(t);
      && Aligned(u, Wrap32(c.iss + 1), c.stream)
      && Sent(u, c.stream) == c.bound + |Chunk(t)|
      && AllHonest(c.(bound := Sent(u, c.stream)), u)
      && (FewDuplicates(t) ==> FewDuplicates(u)) && u.sendUnack == t.sendUnack
  {
    hide TrySend, Chunk, SendPayload, AllHonest;
    TrySendIsPayload(t);
    ChunkIsSlice(t, Wrap32(c.iss + 1), c.stream);
    PayloadAligned(t, Wrap32(c.iss + 1), c.stream, Chunk(t));
    PayloadKeeps(t, Chunk(t));
    ChunkHonest(t, c);
  }

  lemma PayloadKeeps(t: Tcb, data: seq<u8>)
    ensures var u := SendPayload(t, data, FLAG_ACK);
      && u.sendUnack == t.sendUnack && u.dupAckCount == t.dupAckCount && u.lastAckReceived == t.lastAckReceived
  {
  }

  lemma ReleaseAligned(t: Tcb, base: u32, stream: seq<u8>, ackNum: u32)
    requires Aligned(t, base, stream) && AckAcceptable(t, ackNum)
    ensures var u := Release(t, ackNum);
      Aligned(u, base, stream) && Sent(u, stream) == Sent(t, stream)
  {
    var u := Release(t, ackNum);
    var k := ackNum - t.sendUnack;
    assert InFlight(t) == t.sendNext - t.sendUnack;
    assert u.sendBuffer == t.sendBuffer[k..];
    assert stream[Popped(t, stream)..][k..] == stream[Popped(t, stream) + k..];
  }

  /** The three-duplicates branch is not taken. */
  lemma NoFastRetransmit(t: Tcb, ackNum: u32)
    requires FewDuplicates(t) && AckAcceptable(t, ackNum)
    ensures var counted := CountDuplicates(Release(t, ackNum), ackNum);
      counted.dupAckCount <= 1 && FewDuplicates(counted) && AcceptAck(t, ackNum) == Grow(counted)
  {
  }

  lemma AcceptAligned(t: Tcb, c: Claims, ackNum: u32)
    requires Aligned(t, Wrap32(c.iss + 1), c.stream) && AckAcceptable(t, ackNum) && FewDuplicates(t)
    requires c.bound == Sent(t, c.stream)
    requires AllHonest(c, t)
    ensures var u := AcceptAck(t, ackNum);
      && Aligned(u, Wrap32(c.iss + 1), c.stream) && c.bound == Sent(u, c.stream)
      && FewDuplicates(u)
      && AllHonest(c, u)
      && u.sendUnack == ackNum
  {
    NoFastRetransmit(t, ackNum);
    ReleaseAligned(t, Wrap32(c.iss + 1), c.stream, ackNum);
    FewerTimersHonest(c, t, Release(t, ackNum));
  }

  lemma HandleAckAligned(t: Tcb, c: Claims, packet: Packet)
    requires Aligned(t, Wrap32(c.iss + 1), c.stream) && |c.stream| < 0x1_0000_0000 && FewDuplicates(t)
    requires c.bound == Sent(t, c.stream) && c.synced
    requires AllHonest(c, t)
    ensures var u := Acked(t, packet);
      && Aligned(u, Wrap32(c.iss + 1), c.stream)
      && FewDuplicates(u)
      && AllHonest(c.(bound := Sent(u, c.stream)), u)
      && c.bound <= Sent(u, c.stream)
      && u.sendUnack == if packet.flags.ack && AckAcceptable(t, packet.ackNum) then packet.ackNum else t.sendUnack
  {
    if packet.flags.ack {
      var acked := HandleAck(t, packet);
      if AckAcceptable(t, packet.ackNum) {
        AcceptAligned(t, c, packet.ackNum);
        TrySendAligned(AcceptAck(t, packet.ackNum), c);
      }
      TrySendAligned(acked, c.(bound := Sent(acked, c.stream)));
    }
  }

  lemma SameSideAligned(t: Tcb, u: Tcb, base: u32, stream: seq<u8>)
    requires SameSendSide(t, u) && Aligned(t, base, stream) && FewDuplicates(t)
    ensures Aligned(u, base, stream) && Sent(u, stream) == Sent(t, stream) && FewDuplicates(u)
  {
  }
}
