/** Stream alignment over whole runs of one endpoint, whatever packets reach it. */
module Alignment {
  import opened Types
  import opened Session
  import opened Endpoints
  import opened Streams
  import T = Timers

  function Base(e: Endpoint): u32 {
    Wrap32(e.iss + 1)
  }

  /** Established, or closed by the peer alone: the phases in which data is sent. */
  predicate OnStream(e: Endpoint) {
    e.tcb.state == ESTABLISHED || (e.tcb.state == CLOSE_WAIT && !e.activeClosed)
  }

  /** How much of the stream the emitted segments may cover. */
  function Bound(e: Endpoint): nat {
    if !e.established || Sent(e.tcb, e.accepted) < 0 then 0
    else if OnStream(e) then Sent(e.tcb, e.accepted)
    else |e.accepted|
  }

  function ClaimsOf(e: Endpoint): Claims {
    Claims(e.iss, e.accepted, Bound(e), !e.shifted, Active(e), e.synced, e.passive)
  }

  /** The parts of the invariant that do not speak about packets. */
  predicate Positions(e: Endpoint) {
    && Buffered(e.tcb, Base(e), e.accepted)
    && e.tcb.dupAckCount <= 1
    && (!e.established ==> Popped(e.tcb, e.accepted) == 0 && e.tcb.dupAckCount == 0)
    && (e.tcb.state in {SYN_SENT, SYN_RECEIVED} ==> e.tcb.sendUnack == e.iss && e.tcb.sendNext == Base(e))
    && (OnStream(e) ==> Aligned(e.tcb, Base(e), e.accepted) && FewDuplicates(e.tcb))
    && (e.tcb.state in {FIN_WAIT_1, CLOSE_WAIT} && !e.shifted ==> Placed(e.tcb, Base(e), e.accepted))
  }

  ghost predicate StreamInv(e: Endpoint) {
    Positions(e) && AllHonest(ClaimsOf(e), e.tcb)
  }

  /** The invariant holds again and no sent byte was taken back. */
  ghost predicate Advanced(e: Endpoint, f: Endpoint) {
    StreamInv(f) && Bound(e) <= Bound(f)
  }

  lemma Conclude(e: Endpoint, c: Claims)
    requires Positions(e) && Follows(c, ClaimsOf(e)) && AllHonest(c, e.tcb)
    ensures StreamInv(e) && c.bound <= Bound(e)
  {
    FollowingHonest(c, ClaimsOf(e), e.tcb);
  }

  lemma OpenHonest(c: Claims, t: Tcb, flags: Flags, state: TcpState)
    requires AllHonest(c, t)
    requires flags.syn && !flags.fin && (flags.ack ==> c.synced) && (c.passive ==> flags.ack)
    ensures AllHonest(c, Open(t, c.iss, flags, state))
  {
    ControlHonest(c, t.(state := state, sendNext := c.iss, sendUnack := c.iss), flags);
  }

  lemma ConnectStep(e: Endpoint)
    requires Phases(e) && StreamInv(e) && Enabled(e, CallConnect)
    ensures Advanced(e, Next(e, CallConnect))
  {
    OpenHonest(ClaimsOf(e), e.tcb, FLAG_SYN, SYN_SENT);
    Conclude(Next(e, CallConnect), ClaimsOf(e));
  }

  lemma ListenStep(e: Endpoint)
    requires Phases(e) && StreamInv(e) && Enabled(e, CallListen)
    ensures Advanced(e, Next(e, CallListen))
  {
    Conclude(Next(e, CallListen), ClaimsOf(e));
  }

  /** Adding accepted bytes to the buffer before anything is sent. */
  lemma AppendAligned(t: Tcb, base: u32, stream: seq<u8>, data: seq<u8>)
    requires Buffered(t, base, stream) && |t.sendBuffer| + |data| <= CAPACITY
    ensures var u := t.(sendBuffer := t.sendBuffer + data);
      && Buffered(u, base, stream + data) && Popped(u, stream + data) == Popped(t, stream)
      && (Aligned(t, base, stream) ==> Aligned(u, base, stream + data))
  {
    assert (stream + data)[Popped(t, stream)..] == stream[Popped(t, stream)..] + data;
  }

  /** Sending after a crossed close: a slice as long as the buffer is in its place. */
  lemma TrySendCrossed(c: Claims, t: Tcb)
    requires AllHonest(c, t) && c.synced && c.bound == |c.stream| < 0x1_0000_0000
    requires c.sliced ==> Placed(t, Wrap32(c.iss + 1), c.stream)
    ensures AllHonest(c, TrySend(t))
  {
    hide TrySend, Chunk, SendPayload, AllHonest;
    TrySendIsPayload(t);
    if c.sliced && Chunk(t) != [] {
      ChunkPlaced(t, Wrap32(c.iss + 1), c.stream);
    }
    PayloadHonest(c, t, Chunk(t));
  }

  /** The claims that hold after trying to send: on the stream the bound moves with the window. */
  function Tried(t: Tcb, c: Claims, onStream: bool): Claims
    requires onStream ==> 0 <= Sent(TrySend(t), c.stream)
  {
    if onStream then c.(bound := Sent(TrySend(t), c.stream)) else c
  }

  predicate MayTry(t: Tcb, c: Claims, onStream: bool) {
    && |c.stream| < 0x1_0000_0000
    && (onStream ==>
          c.synced && Aligned(t, Wrap32(c.iss + 1), c.stream) && c.bound == Sent(t, c.stream) && FewDuplicates(t))
    && (!onStream && MaySend(t.state) ==>
          c.synced && c.bound == |c.stream| && (c.sliced ==> Placed(t, Wrap32(c.iss + 1), c.stream)))
  }

  lemma TrySendStep(t: Tcb, c: Claims, onStream: bool)
    requires AllHonest(c, t) && MayTry(t, c, onStream)
    ensures var u := TrySend(t);
      && (onStream ==> Aligned(u, Wrap32(c.iss + 1), c.stream) && FewDuplicates(u) && c.bound <= Sent(u, c.stream))
      && AllHonest(Tried(t, c, onStream), u)
      && u.sendBuffer == t.sendBuffer && u.sendUnack == t.sendUnack && u.dupAckCount == t.dupAckCount
      && (!MaySend(t.state) ==> u == t)
  {
    if onStream {
      TrySendAligned(t, c);
    } else if MaySend(t.state) {
      TrySendCrossed(c, t);
    }
  }

  lemma SendPositions(e: Endpoint, after: Endpoint, filled: Tcb)
    requires Phases(e) && Positions(e) && after == e.(tcb := after.tcb, accepted := after.accepted)
    requires filled == e.tcb.(sendBuffer := filled.sendBuffer)
    requires Buffered(filled, Base(e), after.accepted) && Popped(filled, after.accepted) == Popped(e.tcb, e.accepted)
    requires after.tcb.state == e.tcb.state && after.tcb.sendBuffer == filled.sendBuffer
    requires after.tcb.sendUnack == e.tcb.sendUnack && after.tcb.dupAckCount == e.tcb.dupAckCount
    requires !MaySend(e.tcb.state) ==> after.tcb.sendNext == e.tcb.sendNext
    requires OnStream(e) ==> Aligned(after.tcb, Base(e), after.accepted) && FewDuplicates(after.tcb)
    ensures Positions(after) && OnStream(after) == OnStream(e)
  {
  }

  function Filled(t: Tcb, more: seq<u8>): Tcb
    requires |t.sendBuffer| + |more| <= CAPACITY
  {
    t.(sendBuffer := t.sendBuffer + more)
  }

  /** The claims while `more` is in the buffer and nothing of it is sent. */
  function FilledClaims(e: Endpoint, more: seq<u8>): Claims {
    var all := e.accepted + more;
    ClaimsOf(e).(stream := all, bound := if MaySend(e.tcb.state) && !OnStream(e) then |all| else Bound(e))
  }

  lemma FilledReady(e: Endpoint, more: seq<u8>)
    requires Phases(e) && StreamInv(e)
    requires |e.tcb.sendBuffer| + |more| <= CAPACITY && |e.accepted + more| < 0x1_0000_0000
    ensures var filled, c := Filled(e.tcb, more), FilledClaims(e, more);
      && AllHonest(c, filled) && MayTry(filled, c, OnStream(e)) && Bound(e) <= c.bound
      && Buffered(filled, Base(e), e.accepted + more)
      && Popped(filled, e.accepted + more) == Popped(e.tcb, e.accepted)
  {
    hide AllHonest;
    var filled, c := Filled(e.tcb, more), FilledClaims(e, more);
    AppendAligned(e.tcb, Base(e), e.accepted, more);
    FollowingHonest(ClaimsOf(e), c, e.tcb);
    FewerTimersHonest(c, e.tcb, filled);
  }

  lemma TriedFollows(e: Endpoint, f: Endpoint, more: seq<u8>)
    requires Phases(e) && Positions(e) && |e.tcb.sendBuffer| + |more| <= CAPACITY
    requires f == e.(tcb := TrySend(Filled(e.tcb, more)), accepted := e.accepted + more)
    requires Positions(f) && OnStream(f) == OnStream(e)
    requires OnStream(e) ==> FilledClaims(e, more).bound <= Sent(f.tcb, f.accepted)
    ensures Follows(Tried(Filled(e.tcb, more), FilledClaims(e, more), OnStream(e)), ClaimsOf(f))
    ensures FilledClaims(e, more).bound <= Tried(Filled(e.tcb, more), FilledClaims(e, more), OnStream(e)).bound
  {
    hide TrySend;
    TrySendKeeps(Filled(e.tcb, more));
  }

  lemma SendCore(e: Endpoint, more: seq<u8>)
    requires Phases(e) && StreamInv(e)
    requires |e.tcb.sendBuffer| + |more| <= CAPACITY && |e.accepted + more| < 0x1_0000_0000
    ensures Advanced(e, e.(tcb := TrySend(Filled(e.tcb, more)), accepted := e.accepted + more))
  {
    hide TrySend, AllHonest, MayTry, Phases, Follows, FilledClaims;
    var filled, c := Filled(e.tcb, more), FilledClaims(e, more);
    var after := e.(tcb := TrySend(filled), accepted := e.accepted + more);
    FilledReady(e, more);
    FilledStream(e, more);
    TrySendStep(filled, c, OnStream(e));
    TrySendKeeps(filled);
    SendPositions(e, after, filled);
    hide Positions, Tried;
    TriedFollows(e, after, more);
    Conclude(after, Tried(filled, c, OnStream(e)));
  }

  lemma FilledStream(e: Endpoint, more: seq<u8>)
    ensures FilledClaims(e, more).stream == e.accepted + more && FilledClaims(e, more).iss == e.iss
  {
  }

  lemma SendStep(e: Endpoint, data: seq<u8>)
    requires Phases(e) && StreamInv(e) && Enabled(e, CallSend(data))
    requires |Next(e, CallSend(data)).accepted| < 0x1_0000_0000
    ensures Advanced(e, Next(e, CallSend(data)))
  {
    hide TrySend, StreamInv;
    var more := data[..SendRoom(e.tcb, data)];
    if data != [] {
      var filled := Filled(e.tcb, more);
      SendCore(e, more);
      TrySendKeeps(filled);
      SameHistory(e.(tcb := TrySend(filled), accepted := e.accepted + more), Next(e, CallSend(data)));
    } else {
      assert e.accepted + more == e.accepted;
      SameHistory(e, Next(e, CallSend(data)));
    }
  }

  // Packets that change the state of the connection

  /** An endpoint whose session moved on to `t`, with the flags that follow from the new state. */
  function Moved(e: Endpoint, t: Tcb): Endpoint {
    e.(tcb := t,
       synced := e.synced || t.state == SYN_RECEIVED || t.state == ESTABLISHED,
       established := e.established || t.state == ESTABLISHED,
       activeClosed := e.activeClosed || t.state == FIN_WAIT_1,
       shifted := e.shifted || Shifts(e.tcb, t))
  }

  lemma SynReceivedStep(e: Endpoint, packet: Packet)
    requires Phases(e) && StreamInv(e) && e.tcb.state == LISTEN
    ensures Advanced(e, Moved(e, HandleListen(e.tcb, packet, e.iss)))
  {
    if packet.flags.syn {
      var c := ClaimsOf(e).(synced := true);
      FollowingHonest(ClaimsOf(e), c, e.tcb);
      OpenHonest(c, Synchronize(e.tcb, packet), FLAG_SYN_ACK, SYN_RECEIVED);
      Conclude(Moved(e, HandleListen(e.tcb, packet, e.iss)), c);
    }
  }

  /** The handshake ends: the window starts at the first byte of the stream. */
  lemma EstablishStep(e: Endpoint, t: Tcb, c: Claims)
    requires c == ClaimsOf(e).(synced := true) && AllHonest(c, t) && Phases(e) && Active(e) && !e.established
    requires |e.accepted| < 0x1_0000_0000
    requires Buffered(t, Base(e), e.accepted) && Popped(t, e.accepted) == 0 && t.dupAckCount == 0
    requires t.sendUnack == t.sendNext == Base(e)
    ensures Advanced(e, Moved(e, Establish(t)))
  {
    var start := t.(state := ESTABLISHED);
    FewerTimersHonest(c, t, start);
    TrySendStep(start, c, true);
    Conclude(Moved(e, Establish(t)), Tried(start, c, true));
  }

  lemma SynSentStep(e: Endpoint, packet: Packet)
    requires Phases(e) && StreamInv(e) && e.tcb.state == SYN_SENT && !SimultaneousOpen(e.tcb, packet)
    requires |e.accepted| < 0x1_0000_0000
    ensures Advanced(e, Moved(e, HandleSynSent(e.tcb, packet)))
  {
    if packet.flags.syn && AcksNext(e.tcb, packet) {
      var c := ClaimsOf(e).(synced := true);
      var t := Advance(Synchronize(e.tcb, packet), packet.ackNum);
      FollowingHonest(ClaimsOf(e), c, e.tcb);
      FewerTimersHonest(c, e.tcb, t);
      PureAckHonest(c, t, Wrap32(packet.seqNum + 1));
      EstablishStep(e, AnswerSynAck(e.tcb, packet), c);
    }
  }

  lemma SynReceivedAckStep(e: Endpoint, packet: Packet)
    requires Phases(e) && StreamInv(e) && e.tcb.state == SYN_RECEIVED
    requires |e.accepted| < 0x1_0000_0000
    ensures Advanced(e, Moved(e, HandleSynReceived(e.tcb, packet)))
  {
    if AcksNext(e.tcb, packet) {
      FewerTimersHonest(ClaimsOf(e), e.tcb, Advance(e.tcb, packet.ackNum));
      EstablishStep(e, Advance(e.tcb, packet.ackNum), ClaimsOf(e));
    }
  }

  lemma IncomingHonest(c: Claims, t: Tcb, packet: Packet)
    requires AllHonest(c, t) && c.synced
    ensures AllHonest(c, HandleIncoming(t, packet))
  {
    if packet.seqNum == t.recvNext {
      DrainKeeps(Take(t, packet.payload));
      FewerTimersHonest(c, t, Drain(Take(t, packet.payload)));
    } else {
      FewerTimersHonest(c, t, Store(t, packet));
    }
  }

  lemma TakeFinHonest(c: Claims, t: Tcb, packet: Packet, next: TcpState)
    requires AllHonest(c, t) && c.synced
    ensures AllHonest(c, TakeFin(t, packet, next))
  {
    FewerTimersHonest(c, t, t.(recvNext := Wrap32(packet.seqNum + 1)));
    PureAckHonest(c, t.(recvNext := Wrap32(packet.seqNum + 1)), Wrap32(packet.seqNum + 1));
  }

  lemma EstablishedStep(e: Endpoint, packet: Packet)
    requires Phases(e) && StreamInv(e) && e.tcb.state == ESTABLISHED
    requires |e.accepted| < 0x1_0000_0000
    ensures Advanced(e, Moved(e, HandleEstablished(e.tcb, packet)))
  {
    var c, acked := ClaimsOf(e), Acked(e.tcb, packet);
    HandleAckAligned(e.tcb, c, packet);
    AckKeeps(e.tcb, packet);
    TrySendKeeps(HandleAck(e.tcb, packet));
    FedStep(e, acked, c.(bound := Sent(acked, e.accepted)), packet);
  }

  lemma FedHonest(t: Tcb, c: Claims, packet: Packet)
    requires AllHonest(c, t) && c.synced
    ensures AllHonest(c, Fed(t, packet)) && SameSendSide(t, Fed(t, packet))
  {
    if packet.payload != [] {
      IncomingKeeps(t, packet);
      IncomingHonest(c, t, packet);
    }
  }

  lemma OnStreamStep(e: Endpoint, u: Tcb, c: Claims)
    requires Phases(e) && e.tcb.state == ESTABLISHED && u.state in {ESTABLISHED, CLOSE_WAIT}
    requires Bound(e) <= Sent(u, e.accepted)
    requires Aligned(u, Base(e), e.accepted) && FewDuplicates(u) && AllHonest(c, u)
    requires c == Claims(e.iss, e.accepted, Sent(u, e.accepted), !e.shifted, true, true, e.passive)
    ensures Advanced(e, Moved(e, u))
  {
    hide AllHonest;
    Conclude(Moved(e, u), c);
  }

  /** The rest of `handle_established`, after the acknowledgment. */
  lemma FedStep(e: Endpoint, t: Tcb, c: Claims, packet: Packet)
    requires Phases(e) && e.tcb.state == t.state == ESTABLISHED && Bound(e) <= Sent(t, e.accepted)
    requires Aligned(t, Base(e), e.accepted) && FewDuplicates(t) && AllHonest(c, t)
    requires c == Claims(e.iss, e.accepted, Sent(t, e.accepted), !e.shifted, true, true, e.passive)
    ensures Advanced(e, Moved(e, Finished(Fed(t, packet), packet)))
  {
    hide Fed, AllHonest, StreamInv, Phases, Bound;
    var fed := Fed(t, packet);
    FedHonest(t, c, packet);
    SameSideAligned(t, fed, Base(e), e.accepted);
    if packet.flags.fin && !fed.hung {
      TakeFinHonest(c, fed, packet, CLOSE_WAIT);
      SameSideAligned(t, TakeFin(fed, packet, CLOSE_WAIT).(state := ESTABLISHED), Base(e), e.accepted);
      OnStreamStep(e, TakeFin(fed, packet, CLOSE_WAIT), c);
    } else {
      OnStreamStep(e, fed, c);
    }
  }

  /** Steps that neither send data nor touch the send buffer. */
  lemma QuietStep(e: Endpoint, t: Tcb)
    requires Phases(e) && StreamInv(e) && Phases(Moved(e, t))
    requires t.sendBuffer == e.tcb.sendBuffer && t.dupAckCount == e.tcb.dupAckCount
    requires t.state != ESTABLISHED && t.state !in {SYN_SENT, SYN_RECEIVED} && !OnStream(Moved(e, t))
    requires t.state in {FIN_WAIT_1, CLOSE_WAIT} && !Moved(e, t).shifted ==> Placed(t, Base(e), e.accepted)
    requires AllHonest(ClaimsOf(Moved(e, t)), t)
    ensures Advanced(e, Moved(e, t))
  {
  }

  lemma FinWait1Honest(c: Claims, t: Tcb, packet: Packet)
    requires AllHonest(c, t) && c.synced
    ensures AllHonest(c, HandleFinWait1(t, packet))
  {
    hide Honest;
    var acked := if AcksNext(t, packet) then Advance(t, packet.ackNum).(state := FIN_WAIT_2) else t;
    FewerTimersHonest(c, t, acked);
    TakeFinHonest(c, acked, packet, CLOSE_WAIT);
  }

  /** Where FIN_WAIT_1 goes, and that `sendUnack` moves exactly on the expected acknowledgment. */
  lemma FinWait1Moves(t: Tcb, packet: Packet)
    requires t.state == FIN_WAIT_1
    ensures var u := HandleFinWait1(t, packet);
      && u.state in {FIN_WAIT_1, FIN_WAIT_2, CLOSE_WAIT} && u.sendBuffer == t.sendBuffer
      && u.dupAckCount == t.dupAckCount && u.sendNext == t.sendNext
      && u.sendUnack == (if AcksNext(t, packet) then packet.ackNum else t.sendUnack)
      && (u.state == CLOSE_WAIT <==> packet.flags.fin)
      && (u.state == FIN_WAIT_1 ==> !AcksNext(t, packet))
  {
    if AcksNext(t, packet) {
    } else {
    }
  }

  lemma FinWait1Step(e: Endpoint, packet: Packet)
    requires Phases(e) && StreamInv(e) && e.tcb.state == FIN_WAIT_1
    ensures Advanced(e, Moved(e, HandleFinWait1(e.tcb, packet)))
  {
    hide HandleFinWait1, AllHonest;
    var u := HandleFinWait1(e.tcb, packet);
    FinWait1Moves(e.tcb, packet);
    FinWait1Honest(ClaimsOf(e), e.tcb, packet);
    FollowingHonest(ClaimsOf(e), ClaimsOf(Moved(e, u)), u);
    QuietStep(e, u);
  }

  lemma TimeWaitStep(e: Endpoint, packet: Packet)
    requires Phases(e) && StreamInv(e) && e.tcb.state in {FIN_WAIT_2, TIME_WAIT} && packet.flags.fin
    ensures Advanced(e, Moved(e, TakeFin(e.tcb, packet, TIME_WAIT)))
    ensures Advanced(e, Moved(e, HandleFinWait2(e.tcb, packet)))
  {
    var u := TakeFin(e.tcb, packet, TIME_WAIT);
    TakeFinHonest(ClaimsOf(e), e.tcb, packet, TIME_WAIT);
    FewerTimersHonest(ClaimsOf(e), u, HandleFinWait2(e.tcb, packet));
    QuietStep(e, u);
    QuietStep(e, HandleFinWait2(e.tcb, packet));
  }

  lemma LastAckStep(e: Endpoint, packet: Packet)
    requires Phases(e) && StreamInv(e) && e.tcb.state == LAST_ACK
    ensures Advanced(e, Moved(e, HandleLastAck(e.tcb, packet)))
  {
    if AcksNext(e.tcb, packet) {
      FewerTimersHonest(ClaimsOf(e), e.tcb, HandleLastAck(e.tcb, packet));
      ClosedStep(e, HandleLastAck(e.tcb, packet));
    } else {
      assert Moved(e, e.tcb) == e;
    }
  }

  /** The connection goes to CLOSED with no timer left that was not armed before. */
  lemma ClosedStep(e: Endpoint, t: Tcb)
    requires Phases(e) && StreamInv(e) && t.state == CLOSED
    requires t.sendBuffer == e.tcb.sendBuffer && t.dupAckCount == e.tcb.dupAckCount
    requires AllHonest(ClaimsOf(e), t)
    ensures Advanced(e, Moved(e, t))
  {
    FollowingHonest(ClaimsOf(e), ClaimsOf(Moved(e, t)), t);
  }

  lemma FinHonest(c: Claims, t: Tcb, flags: Flags)
    requires AllHonest(c, t) && c.synced && !c.active
    requires flags.fin && !flags.syn
    ensures AllHonest(c, SendControl(t, flags))
  {
    ControlHonest(c, t, flags);
  }

  lemma LastFinStep(e: Endpoint, tried: Tcb, d: Claims)
    requires Phases(e) && StreamInv(e) && e.tcb.state == CLOSE_WAIT
    requires AllHonest(d, tried) && d.synced && !d.active && tried.sendBuffer == e.tcb.sendBuffer
    requires tried.dupAckCount == e.tcb.dupAckCount
    requires d.iss == e.iss && d.passive == e.passive && d.stream == e.accepted && d.sliced == !e.shifted
    requires d.bound <= |e.accepted|
    ensures Advanced(e, Moved(e, SendLastFin(tried)))
  {
    hide AllHonest;
    var stopped := tried.(timers := T.StopAll(tried.timers));
    FewerTimersHonest(d, tried, stopped);
    FinHonest(d, stopped, FLAG_FIN);
    FewerTimersHonest(d, SendControl(stopped, FLAG_FIN), SendLastFin(tried));
    FollowingHonest(d, ClaimsOf(Moved(e, SendLastFin(tried))), SendLastFin(tried));
    QuietStep(e, SendLastFin(tried));
  }

  lemma CloseWaitStep(e: Endpoint, packet: Packet)
    requires Phases(e) && StreamInv(e) && e.tcb.state == CLOSE_WAIT
    requires |e.accepted| < 0x1_0000_0000
    ensures Advanced(e, Moved(e, HandleCloseWait(e.tcb, packet)))
  {
    hide TrySend, AllHonest, SendLastFin;
    var c, on := ClaimsOf(e), OnStream(e);
    var answered := SendPureAck(e.tcb, e.tcb.recvNext);
    PureAckHonest(c, e.tcb, e.tcb.recvNext);
    TrySendStep(answered, c, on);
    TrySendKeeps(answered);
    var tried, d := TrySend(answered), Tried(answered, c, on);
    if ReadyForLastFin(tried) {
      LastFinStep(e, tried, d);
    } else {
      Conclude(Moved(e, tried), d);
    }
  }

  lemma AbortStep(e: Endpoint)
    requires Phases(e) && StreamInv(e) && e.tcb.state in {SYN_SENT, SYN_RECEIVED}
    ensures Advanced(e, Moved(e, Abort(e.tcb)))
  {
    ControlHonest(ClaimsOf(e), e.tcb, FLAG_RST);
    FewerTimersHonest(ClaimsOf(e), SendControl(e.tcb, FLAG_RST), Abort(e.tcb));
    ClosedStep(e, Abort(e.tcb));
  }

  lemma ResetStep(e: Endpoint)
    requires Phases(e) && StreamInv(e)
    ensures Advanced(e, Moved(e, HandleReset(e.tcb)))
  {
    FewerTimersHonest(ClaimsOf(e), e.tcb, HandleReset(e.tcb));
    ClosedStep(e, HandleReset(e.tcb));
  }

  lemma StartCloseStep(e: Endpoint)
    requires Phases(e) && StreamInv(e) && e.tcb.state == ESTABLISHED
    requires |e.accepted| < 0x1_0000_0000
    ensures Advanced(e, Moved(e, StartClose(TrySend(e.tcb))))
  {
    var c, tried := ClaimsOf(e), TrySend(e.tcb);
    TrySendStep(e.tcb, c, true);
    var d := Tried(e.tcb, c, true).(active := false);
    var stopped := tried.(timers := T.StopAll(tried.timers), state := FIN_WAIT_1);
    FollowingHonest(Tried(e.tcb, c, true), d, tried);
    FewerTimersHonest(d, tried, stopped);
    FinHonest(d, stopped, FLAG_FIN);
    FewerTimersHonest(d, SendControl(stopped, FLAG_FIN), StartClose(tried));
    FollowingHonest(d, ClaimsOf(Moved(e, StartClose(tried))), StartClose(tried));
    QuietStep(e, StartClose(tried));
  }

  lemma FinishCloseStep(e: Endpoint)
    requires Phases(e) && StreamInv(e) && e.tcb.state == CLOSE_WAIT
    ensures Advanced(e, Moved(e, FinishClose(e.tcb)))
  {
    var c, last := ClaimsOf(e), e.tcb.(state := LAST_ACK);
    FewerTimersHonest(c, e.tcb, last);
    FinHonest(c, last, FLAG_FIN_ACK);
    FewerTimersHonest(c, SendControl(last, FLAG_FIN_ACK), FinishClose(e.tcb));
    FollowingHonest(c, ClaimsOf(Moved(e, FinishClose(e.tcb))), FinishClose(e.tcb));
    QuietStep(e, FinishClose(e.tcb));
  }

  lemma CloseStep(e: Endpoint)
    requires Phases(e) && StreamInv(e)
    requires |e.accepted| < 0x1_0000_0000
    ensures Advanced(e, Moved(e, Close(e.tcb)))
  {
    hide StreamInv, Phases, Bound, StartClose, FinishClose, Abort, TrySend;
    if e.tcb.state == ESTABLISHED {
      StartCloseStep(e);
    } else if e.tcb.state == CLOSE_WAIT {
      FinishCloseStep(e);
    } else if e.tcb.state in {SYN_SENT, SYN_RECEIVED} {
      AbortStep(e);
    } else {
      IgnoredStep(e);
    }
  }

  /** Reading changes nothing on the sending side. */
  lemma ReadStep(e: Endpoint, count: nat)
    requires Phases(e) && StreamInv(e)
    ensures var read := e.(tcb := e.tcb.(recvBuffer := e.tcb.recvBuffer[ReadCount(e.tcb, count)..]));
      Phases(read) && StreamInv(read) && Bound(read) == Bound(e)
  {
    hide AllHonest;
    var read := e.(tcb := e.tcb.(recvBuffer := e.tcb.recvBuffer[ReadCount(e.tcb, count)..]));
    FewerTimersHonest(ClaimsOf(e), e.tcb, read.tcb);
    assert ClaimsOf(read) == ClaimsOf(e);
  }

  /** Steps that leave the sending positions as they are. */
  lemma SameWindowStep(e: Endpoint, u: Tcb)
    requires Phases(e) && StreamInv(e) && AllHonest(ClaimsOf(e), u)
    requires u.state == e.tcb.state && u.sendBuffer == e.tcb.sendBuffer
    requires u.sendUnack == e.tcb.sendUnack && u.sendNext == e.tcb.sendNext
    requires u.dupAckCount == e.tcb.dupAckCount && u.lastAckReceived == e.tcb.lastAckReceived
    ensures Advanced(e, Moved(e, u)) && Moved(e, u) == e.(tcb := u)
  {
    hide AllHonest;
    var f := e.(tcb := u);
    assert Moved(e, u) == f;
    assert InFlight(u) == InFlight(e.tcb) && OnStream(f) == OnStream(e);
    assert ClaimsOf(f) == ClaimsOf(e);
  }

  lemma TimerStep(e: Endpoint, handle: nat)
    requires Phases(e) && StreamInv(e) && handle in e.tcb.timers.armed
    ensures Advanced(e, Moved(e, Expire(e.tcb, handle)))
  {
    RetransmitHonest(ClaimsOf(e), e.tcb, handle);
    ExpireKeeps(e.tcb, handle);
    SameWindowStep(e, Expire(e.tcb, handle));
  }

  lemma ExpireKeeps(t: Tcb, handle: nat)
    requires handle in t.timers.armed
    ensures var u := Expire(t, handle);
      && u.state == t.state && u.sendBuffer == t.sendBuffer && u.sendUnack == t.sendUnack && u.sendNext == t.sendNext
      && u.dupAckCount == t.dupAckCount && u.lastAckReceived == t.lastAckReceived
      && SameRecvSide(t, u)
  {
    if t.timers.armed[handle].count + 1 >= MAX_RETRANSMIT_COUNT {
    } else {
    }
  }

  lemma IgnoredStep(e: Endpoint)
    requires Phases(e) && StreamInv(e)
    ensures Advanced(e, Moved(e, e.tcb))
  {
    SameWindowStep(e, e.tcb);
  }

  lemma ClosedPacketStep(e: Endpoint)
    requires Phases(e) && StreamInv(e) && e.tcb.state == CLOSED
    ensures Advanced(e, Moved(e, e.tcb.(userWantToClose := false)))
  {
    FewerTimersHonest(ClaimsOf(e), e.tcb, e.tcb.(userWantToClose := false));
    SameWindowStep(e, e.tcb.(userWantToClose := false));
  }

  lemma FinWait2Step(e: Endpoint, packet: Packet)
    requires Phases(e) && StreamInv(e) && e.tcb.state == FIN_WAIT_2
    ensures Advanced(e, Moved(e, HandleFinWait2(e.tcb, packet)))
  {
    hide StreamInv, Phases;
    if packet.flags.fin {
      TimeWaitStep(e, packet);
    } else {
      IgnoredStep(e);
    }
  }

  lemma LateStep(e: Endpoint, packet: Packet)
    requires Phases(e) && StreamInv(e) && e.tcb.state == TIME_WAIT
    ensures Advanced(e, Moved(e, HandleTimeWait(e.tcb, packet)))
  {
    hide StreamInv, Phases;
    if packet.flags.fin {
      TimeWaitStep(e, packet);
    } else {
      IgnoredStep(e);
    }
  }

  lemma DispatchStep(e: Endpoint, packet: Packet)
    requires Phases(e) && StreamInv(e) && !SimultaneousOpen(e.tcb, packet)
    requires |e.accepted| < 0x1_0000_0000
    ensures Advanced(e, Moved(e, Dispatch(e.tcb, packet, e.iss)))
  {
    hide StreamInv, Phases, Bound, Moved, HandleListen, HandleSynSent, HandleSynReceived, HandleEstablished;
    hide HandleFinWait1, HandleFinWait2, HandleCloseWait, HandleLastAck, HandleTimeWait;
    match e.tcb.state
    case CLOSED => ClosedPacketStep(e);
    case LISTEN => SynReceivedStep(e, packet);
    case SYN_SENT => SynSentStep(e, packet);
    case SYN_RECEIVED => SynReceivedAckStep(e, packet);
    case ESTABLISHED => EstablishedStep(e, packet);
    case FIN_WAIT_1 => FinWait1Step(e, packet);
    case FIN_WAIT_2 => FinWait2Step(e, packet);
    case CLOSE_WAIT => CloseWaitStep(e, packet);
    case LAST_ACK => LastAckStep(e, packet);
    case TIME_WAIT => LateStep(e, packet);
  }

  /** The invariant does not depend on what was read, acknowledged or timed. */
  lemma SameHistory(e: Endpoint, f: Endpoint)
    requires StreamInv(e)
    requires f.tcb == e.tcb && f.iss == e.iss && f.passive == e.passive && f.accepted == e.accepted
    requires f.synced == e.synced && f.established == e.established
    requires f.activeClosed == e.activeClosed && f.shifted == e.shifted
    requires Active(f) ==> Active(e)
    ensures StreamInv(f) && Bound(f) == Bound(e)
  {
    FollowingHonest(ClaimsOf(e), ClaimsOf(f), e.tcb);
  }

  lemma Told(e: Endpoint, packet: Packet)
    requires Phases(e) && StreamInv(e)
    ensures var told := e.(tcb := e.tcb.(peerWindow := packet.window));
      Phases(told) && Advanced(e, told)
  {
    var told := e.(tcb := e.tcb.(peerWindow := packet.window));
    FewerTimersHonest(ClaimsOf(e), e.tcb, told.tcb);
    SameWindowStep(e, told.tcb);
  }

  lemma ToldStep(e: Endpoint, packet: Packet)
    requires Phases(e) && StreamInv(e) && !SimultaneousOpen(e.tcb, packet)
    requires |e.accepted| < 0x1_0000_0000
    ensures Advanced(e, Moved(e, Dispatch(e.tcb.(peerWindow := packet.window), packet, e.iss)))
  {
    hide Dispatch, StreamInv, Phases, Bound;
    Told(e, packet);
    DispatchStep(e.(tcb := e.tcb.(peerWindow := packet.window)), packet);
  }

  lemma InputStep(e: Endpoint, packet: Packet, intact: bool)
    requires Phases(e) && StreamInv(e) && Enabled(e, Deliver(packet, intact))
    requires |e.accepted| < 0x1_0000_0000
    ensures Advanced(e, Moved(e, Input(e.tcb, packet, intact, e.iss)))
  {
    if !intact {
      SameWindowStep(e, e.tcb);
    } else if packet.flags.rst {
      ResetStep(e);
    } else if !packet.flags.ack && !packet.flags.syn && !packet.flags.fin {
      SameWindowStep(e, e.tcb);
    } else {
      ToldStep(e, packet);
    }
  }

  lemma RecvStep(e: Endpoint, count: nat)
    requires Phases(e) && StreamInv(e) && Enabled(e, CallRecv(count))
    requires |e.accepted| < 0x1_0000_0000
    ensures Advanced(e, Next(e, CallRecv(count)))
  {
    var read := e.(tcb := e.tcb.(recvBuffer := e.tcb.recvBuffer[ReadCount(e.tcb, count)..]));
    ReadStep(e, count);
    CloseStep(read);
    var after := Next(e, CallRecv(count));
    if read.tcb.recvBuffer == [] && read.tcb.state == CLOSE_WAIT && read.tcb.autoCloseOnEof {
      SameHistory(Moved(read, Close(read.tcb)), after);
    } else {
      SameHistory(read, after);
    }
  }

  lemma SameHistoryMoved(e: Endpoint, ev: Event)
    requires Phases(e) && Enabled(e, ev) && !ev.CallConnect? && !ev.CallListen? && !ev.CallSend?
    requires Advanced(e, Moved(e, Perform(e.tcb, e.iss, ev)))
    ensures Advanced(e, Next(e, ev))
  {
    hide Perform, StreamInv, Bound, Phases;
    MovedIsActive(e, ev);
    SameHistory(Moved(e, Perform(e.tcb, e.iss, ev)), Next(e, ev));
  }

  lemma MovedIsActive(e: Endpoint, ev: Event)
    requires Phases(e) && Enabled(e, ev) && !ev.CallConnect? && !ev.CallListen?
    ensures Active(Next(e, ev)) ==> Active(Moved(e, Perform(e.tcb, e.iss, ev)))
  {
    hide Perform;
  }

  lemma ExpiryStep(e: Endpoint)
    requires Phases(e) && StreamInv(e)
    ensures Advanced(e, Moved(e, TwoMslTimeout(e.tcb)))
  {
    FewerTimersHonest(ClaimsOf(e), e.tcb, TwoMslTimeout(e.tcb));
    ClosedStep(e, TwoMslTimeout(e.tcb));
  }

  /** Every event keeps the alignment; no assumption is made about the packets that arrive. */
  lemma {:induction false} StreamStep(e: Endpoint, ev: Event)
    requires Phases(e) && StreamInv(e) && Enabled(e, ev)
    requires |Next(e, ev).accepted| < 0x1_0000_0000
    ensures Advanced(e, Next(e, ev))
  {
    hide StreamInv, Phases, Bound, Moved, Next, Close, Input, Expire, TwoMslTimeout;
    match ev
    case CallConnect => ConnectStep(e);
    case CallListen => ListenStep(e);
    case CallSend(data) => SendStep(e, data);
    case CallRecv(count) => AcceptedStays(e, ev); RecvStep(e, count);
    case CallClose => AcceptedStays(e, ev); CloseStep(e); SameHistoryMoved(e, ev);
    case Deliver(packet, intact) => AcceptedStays(e, ev); InputStep(e, packet, intact); SameHistoryMoved(e, ev);
    case TimerExpires(handle) => TimerStep(e, handle); SameHistoryMoved(e, ev);
    case TwoMslExpires => ExpiryStep(e); SameHistoryMoved(e, ev);
  }

  lemma AcceptedStays(e: Endpoint, ev: Event)
    requires Possible(e, ev) && !ev.CallSend?
    ensures Next(e, ev).accepted == e.accepted
  {
    hide Perform;
  }
}
