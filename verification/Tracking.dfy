/** Segments, timers and transmission counts over whole runs of one endpoint, whatever packets reach it. */
module Tracking {
  import opened Types
  import opened Session
  import opened Endpoints
  import opened Streams
  import opened Alignment
  import opened Network
  import opened Connection
  import opened SingleRuns
  import opened Window
  import opened Segments
  import T = Timers

  /** The cuts describe the window, and its segments are tracked. */
  ghost predicate Charted(t: Tcb, base: u32, stream: seq<u8>, cuts: seq<nat>) {
    CutsUpTo(cuts, Sent(t, stream)) && Tracked(t, base, cuts, Popped(t, stream))
  }

  /** During the handshake every timer guards the SYN at `iss`. */
  ghost predicate OnlyHandshake(t: Tcb, iss: u32) {
    && T.Owned(t.timers)
    && forall h :: h in t.timers.armed ==> t.timers.armed[h].seqNum == iss && t.timers.armed[h].packet.seqNum == iss
  }

  /** Up to this side's own close: the handshake, and the phases in which data is sent. */
  predicate Followed(e: Endpoint) {
    Active(e) || OnStream(e)
  }

  ghost predicate Charting(e: Endpoint) {
    Followed(e) ==>
      if OnStream(e) then Charted(e.tcb, Base(e), e.accepted, e.cuts)
      else OnlyHandshake(e.tcb, e.iss) && e.cuts == [0]
  }

  // Established sessions

  lemma TrySendCharted(t: Tcb, base: u32, stream: seq<u8>, cuts: seq<nat>)
    requires Aligned(t, base, stream) && |stream| < 0x1_0000_0000
    requires Charted(t, base, stream, cuts)
    ensures Charted(TrySend(t), base, stream, WithCut(cuts, Sent(TrySend(t), stream)))
  {
    hide TrySend, Tracked, CutsUpTo;
    TrySendTracked(t, base, stream, cuts, Popped(t, stream));
    SendFacts(t);
  }

  lemma AcceptCharted(t: Tcb, c: Claims, cuts: seq<nat>, ackNum: u32)
    requires Aligned(t, Wrap32(c.iss + 1), c.stream) && |c.stream| < 0x1_0000_0000 && FewDuplicates(t)
    requires AckAcceptable(t, ackNum) && c.bound == Sent(t, c.stream) && AllHonest(c, t)
    requires Charted(t, Wrap32(c.iss + 1), c.stream, cuts)
    ensures Charted(AcceptAck(t, ackNum), Wrap32(c.iss + 1), c.stream, cuts)
  {
    hide AcceptAck, Tracked, CutsUpTo, AllHonest;
    AcceptAligned(t, c, ackNum);
    AcceptTracked(t, Wrap32(c.iss + 1), c.stream, cuts, ackNum);
  }

  /** The acknowledgment part of `handle_established`: at most one segment is added. */
  lemma AckedCharted(t: Tcb, c: Claims, cuts: seq<nat>, packet: Packet)
    requires Aligned(t, Wrap32(c.iss + 1), c.stream) && |c.stream| < 0x1_0000_0000 && FewDuplicates(t)
    requires c.bound == Sent(t, c.stream) && AllHonest(c, t)
    requires Charted(t, Wrap32(c.iss + 1), c.stream, cuts)
    ensures var u := Acked(t, packet);
      Charted(u, Wrap32(c.iss + 1), c.stream, WithCut(cuts, Sent(u, c.stream)))
  {
    hide TrySend, AcceptAck, Charted, AllHonest;
    var base := Wrap32(c.iss + 1);
    if !packet.flags.ack {
      WithNoCut(t, base, c.stream, cuts);
    } else if AckAcceptable(t, packet.ackNum) {
      AcceptAligned(t, c, packet.ackNum);
      AcceptCharted(t, c, cuts, packet.ackNum);
      TrySendIdempotent(AcceptAck(t, packet.ackNum), base, c.stream);
      TrySendCharted(AcceptAck(t, packet.ackNum), base, c.stream, cuts);
    } else {
      TrySendCharted(t, base, c.stream, cuts);
    }
  }

  lemma WithNoCut(t: Tcb, base: u32, stream: seq<u8>, cuts: seq<nat>)
    requires Charted(t, base, stream, cuts)
    ensures WithCut(cuts, Sent(t, stream)) == cuts
  {
  }

  lemma SameCharted(t: Tcb, u: Tcb, base: u32, stream: seq<u8>, cuts: seq<nat>)
    requires Charted(t, base, stream, cuts) && u.timers == t.timers && u.out == t.out
    requires u.sendBuffer == t.sendBuffer && InFlight(u) == InFlight(t)
    ensures Charted(u, base, stream, cuts)
  {
    SameTracked(t, u, base, cuts, Popped(t, stream));
  }

  lemma IncomingSendsBare(t: Tcb, packet: Packet)
    ensures var u := HandleIncoming(t, packet);
      u.out == t.out || exists p :: u.out == t.out + [p] && p.payload == []
  {
    if packet.seqNum == t.recvNext {
      DrainKeeps(Take(t, packet.payload));
    }
  }

  lemma FedCharted(t: Tcb, base: u32, stream: seq<u8>, cuts: seq<nat>, packet: Packet)
    requires Charted(t, base, stream, cuts)
    ensures Charted(Fed(t, packet), base, stream, cuts) && Sent(Fed(t, packet), stream) == Sent(t, stream)
  {
    hide HandleIncoming, Tracked, CutsUpTo;
    if packet.payload != [] {
      IncomingKeeps(t, packet);
      IncomingSendsBare(t, packet);
      var u := HandleIncoming(t, packet);
      if u.out == t.out {
        SameTracked(t, u, base, cuts, Popped(t, stream));
      } else {
        var p :| u.out == t.out + [p] && p.payload == [];
        BareTracked(t, u, base, cuts, Popped(t, stream), p);
      }
    }
  }

  lemma FinishedCharted(t: Tcb, base: u32, stream: seq<u8>, cuts: seq<nat>, packet: Packet)
    requires Charted(t, base, stream, cuts)
    ensures Charted(Finished(t, packet), base, stream, cuts) && Sent(Finished(t, packet), stream) == Sent(t, stream)
  {
    hide Tracked, CutsUpTo;
    if packet.flags.fin && !t.hung {
      var u := TakeFin(t, packet, CLOSE_WAIT);
      BareTracked(t, u, base, cuts, Popped(t, stream), u.out[|t.out|]);
    }
  }

  lemma EstablishedCharted(t: Tcb, c: Claims, cuts: seq<nat>, packet: Packet)
    requires t.state == ESTABLISHED
    requires Aligned(t, Wrap32(c.iss + 1), c.stream) && |c.stream| < 0x1_0000_0000 && FewDuplicates(t)
    requires c.bound == Sent(t, c.stream) && AllHonest(c, t)
    requires Charted(t, Wrap32(c.iss + 1), c.stream, cuts)
    ensures var u := HandleEstablished(t, packet);
      Charted(u, Wrap32(c.iss + 1), c.stream, WithCut(cuts, Sent(u, c.stream)))
  {
    hide Acked, Fed, Charted, AllHonest;
    var acked := Acked(t, packet);
    AckedCharted(t, c, cuts, packet);
    FedCharted(acked, Wrap32(c.iss + 1), c.stream, WithCut(cuts, Sent(acked, c.stream)), packet);
    FinishedCharted(Fed(acked, packet), Wrap32(c.iss + 1), c.stream, WithCut(cuts, Sent(acked, c.stream)), packet);
  }

  /** The peer has closed: this side answers and goes on sending. */
  lemma CloseWaitCharted(t: Tcb, base: u32, stream: seq<u8>, cuts: seq<nat>, packet: Packet)
    requires t.state == CLOSE_WAIT && HandleCloseWait(t, packet).state == CLOSE_WAIT
    requires Aligned(t, base, stream) && |stream| < 0x1_0000_0000
    requires Charted(t, base, stream, cuts)
    ensures var u := HandleCloseWait(t, packet);
      Charted(u, base, stream, WithCut(cuts, Sent(u, stream)))
  {
    hide TrySend, Tracked, SendLastFin;
    var answered := SendPureAck(t, t.recvNext);
    BareTracked(t, answered, base, cuts, Popped(t, stream), answered.out[|t.out|]);
    TrySendCharted(answered, base, stream, cuts);
    LastFinLeaves(TrySend(answered));
  }

  lemma LastFinLeaves(t: Tcb)
    ensures SendLastFin(t).state == LAST_ACK
  {
  }

  lemma ExpireCharted(t: Tcb, base: u32, stream: seq<u8>, cuts: seq<nat>, h: nat)
    requires Aligned(t, base, stream) && |stream| < 0x1_0000_0000
    requires Charted(t, base, stream, cuts) && h in t.timers.armed
    ensures Charted(Expire(t, h), base, stream, cuts) && Sent(Expire(t, h), stream) == Sent(t, stream)
  {
    hide Expire, Tracked;
    ExpireKeeps(t, h);
    ExpireTracked(t, base, cuts, Popped(t, stream), Sent(t, stream), h);
  }

  lemma SendCharted(t: Tcb, base: u32, stream: seq<u8>, cuts: seq<nat>, more: seq<u8>)
    requires Aligned(t, base, stream) && |stream + more| < 0x1_0000_0000 && |t.sendBuffer| + |more| <= CAPACITY
    requires Charted(t, base, stream, cuts)
    ensures var u := TrySend(t.(sendBuffer := t.sendBuffer + more));
      Charted(u, base, stream + more, WithCut(cuts, Sent(u, stream + more)))
  {
    hide TrySend;
    var filled := t.(sendBuffer := t.sendBuffer + more);
    AppendAligned(t, base, stream, more);
    SameTracked(t, filled, base, cuts, Popped(t, stream));
    TrySendCharted(filled, base, stream + more, cuts);
  }

  // The handshake

  lemma OpenHandshake(t: Tcb, iss: u32, flags: Flags, state: TcpState)
    requires OnlyHandshake(t, iss) && flags.syn
    ensures OnlyHandshake(Open(t, iss, flags, state), iss)
  {
    var opening := t.(state := state, sendNext := iss, sendUnack := iss);
    T.StartKeepsOwned(t.timers, iss, INITIAL_RTO, ControlPacket(opening, flags), 0);
  }

  lemma RestartHandshake(t: Tcb, u: Tcb, iss: u32, delay: nat, p: Packet, count: nat)
    requires OnlyHandshake(t, iss) && p.seqNum == iss && u.timers == T.StartTimer(t.timers, iss, delay, p, count)
    ensures OnlyHandshake(u, iss)
  {
    T.StartKeepsOwned(t.timers, iss, delay, p, count);
  }

  lemma StopHandshake(t: Tcb, iss: u32, h: nat)
    requires OnlyHandshake(t, iss)
    ensures OnlyHandshake(t.(timers := T.StopTimer(T.Fire(t.timers, h), iss)), iss)
  {
  }

  lemma ExpireHandshake(t: Tcb, iss: u32, h: nat)
    requires OnlyHandshake(t, iss) && h in t.timers.armed
    ensures OnlyHandshake(Expire(t, h), iss)
  {
    hide T.StartTimer, T.StopTimer, T.Owned;
    var timer := t.timers.armed[h];
    StopHandshake(t, iss, h);
    if timer.count + 1 < MAX_RETRANSMIT_COUNT {
      RestartHandshake(t.(timers := T.StopTimer(T.Fire(t.timers, h), iss)), Expire(t, h), iss,
                       INITIAL_RTO * Pow2(timer.count + 1), Refreshed(t, timer.packet), timer.count + 1);
    }
  }

  /** The acknowledgment of the SYN leaves no timer armed. */
  lemma HandshakeEnds(t: Tcb, iss: u32, ackNum: u32)
    requires OnlyHandshake(t, iss) && ackNum == Wrap32(iss + 1)
    ensures Advance(t, ackNum).timers.armed == map[] && T.Owned(Advance(t, ackNum).timers)
  {
  }

  lemma EstablishCharted(e: Endpoint, t: Tcb)
    requires Buffered(t, Base(e), e.accepted) && Popped(t, e.accepted) == 0 && |e.accepted| < 0x1_0000_0000
    requires t.sendUnack == t.sendNext == Base(e)
    requires t.timers.armed == map[] && T.Owned(t.timers) && forall p :: p in t.out ==> p.payload == []
    ensures Charted(Establish(t), Base(e), e.accepted, WithCut([0], Sent(Establish(t), e.accepted)))
    ensures Establish(t).state == ESTABLISHED
  {
    hide TrySend;
    TrySendKeeps(t.(state := ESTABLISHED));
    TrySendCharted(t.(state := ESTABLISHED), Base(e), e.accepted, [0]);
  }

  /** Before the connection is established no data has been sent. */
  lemma NoDataYet(e: Endpoint)
    requires Sound(e) && !e.established
    ensures forall p :: p in e.tcb.out ==> p.payload == []
  {
    forall p | p in e.tcb.out ensures p.payload == [] {
      SenderHonest(e, p);
    }
  }

  lemma SynSentCharted(e: Endpoint, t: Tcb, packet: Packet)
    requires Sound(e) && Charting(e) && e.tcb.state == SYN_SENT && |e.accepted| < 0x1_0000_0000
    requires t == e.tcb.(peerWindow := packet.window) && !SimultaneousOpen(t, packet)
    ensures var u := HandleSynSent(t, packet);
      if u.state == ESTABLISHED then Charted(u, Base(e), e.accepted, WithCut([0], Sent(u, e.accepted)))
      else OnlyHandshake(u, e.iss)
  {
    hide Establish, AllHonest;
    if packet.flags.syn && AcksNext(t, packet) {
      HandshakeEnds(Synchronize(t, packet), e.iss, packet.ackNum);
      NoDataYet(e);
      EstablishCharted(e, AnswerSynAck(t, packet));
    }
  }

  lemma SynReceivedCharted(e: Endpoint, t: Tcb, packet: Packet)
    requires Sound(e) && Charting(e) && e.tcb.state == SYN_RECEIVED && |e.accepted| < 0x1_0000_0000
    requires t == e.tcb.(peerWindow := packet.window)
    ensures var u := HandleSynReceived(t, packet);
      if u.state == ESTABLISHED then Charted(u, Base(e), e.accepted, WithCut([0], Sent(u, e.accepted)))
      else OnlyHandshake(u, e.iss)
  {
    hide Establish, AllHonest;
    if AcksNext(t, packet) {
      HandshakeEnds(t, e.iss, packet.ackNum);
      NoDataYet(e);
      EstablishCharted(e, Advance(t, packet.ackNum));
    }
  }

  /** What the tables say after an event, if the connection is still open. */
  ghost predicate ChartedAfter(e: Endpoint, u: Tcb, stream: seq<u8>) {
    if u.state in {ESTABLISHED, CLOSE_WAIT} then Charted(u, Base(e), stream, WithCut(e.cuts, Sent(u, stream)))
    else OnlyHandshake(u, e.iss) && e.cuts == [0]
  }

  lemma DispatchCharted(e: Endpoint, t: Tcb, packet: Packet)
    requires Sound(e) && Charting(e) && Followed(e) && |e.accepted| < 0x1_0000_0000
    requires t == e.tcb.(peerWindow := packet.window) && !SimultaneousOpen(t, packet)
    requires Dispatch(t, packet, e.iss).state != LAST_ACK
    ensures ChartedAfter(e, Dispatch(t, packet, e.iss), e.accepted)
  {
    hide HandleEstablished, HandleSynSent, HandleSynReceived, HandleCloseWait, StreamInv, Charted;
    match t.state
    case CLOSED =>
    case LISTEN =>
      if packet.flags.syn {
        OpenHandshake(Synchronize(t, packet), e.iss, FLAG_SYN_ACK, SYN_RECEIVED);
      }
    case SYN_SENT => SynSentCharted(e, t, packet); DispatchState(t, packet, e.iss);
    case SYN_RECEIVED => SynReceivedCharted(e, t, packet); DispatchState(t, packet, e.iss);
    case ESTABLISHED =>
      EstablishedState(t, packet);
      EstablishedToldCharted(e, t, packet);
    case CLOSE_WAIT =>
      DispatchState(t, packet, e.iss);
      SoundPositions(e);
      SameCharted(e.tcb, t, Base(e), e.accepted, e.cuts);
      CloseWaitCharted(t, Base(e), e.accepted, e.cuts, packet);
    case _ =>
  }

  lemma EstablishedToldCharted(e: Endpoint, t: Tcb, packet: Packet)
    requires Sound(e) && Charting(e) && e.tcb.state == ESTABLISHED && |e.accepted| < 0x1_0000_0000
    requires t == e.tcb.(peerWindow := packet.window)
    ensures ChartedAfter(e, HandleEstablished(t, packet), e.accepted)
  {
    hide HandleEstablished, Charted, AllHonest, StreamInv;
    EstablishedState(t, packet);
    ToldSound(e, packet);
    SoundPositions(e.(tcb := t));
    SameCharted(e.tcb, t, Base(e), e.accepted, e.cuts);
    EstablishedCharted(t, ClaimsOf(e.(tcb := t)), e.cuts, packet);
  }

  // Any event

  lemma SameAfter(e: Endpoint, u: Tcb)
    requires Phases(e) && Followed(e) && Charting(e)
    requires u.state == e.tcb.state && u.timers == e.tcb.timers && u.out == e.tcb.out
    requires u.sendBuffer == e.tcb.sendBuffer && u.sendUnack == e.tcb.sendUnack && u.sendNext == e.tcb.sendNext
    ensures ChartedAfter(e, u, e.accepted)
  {
    hide T.Owned;
    if OnStream(e) {
      SameCharted(e.tcb, u, Base(e), e.accepted, e.cuts);
      WithNoCut(u, Base(e), e.accepted, e.cuts);
    }
  }

  lemma ResetHandshake(t: Tcb, iss: u32)
    requires OnlyHandshake(t, iss)
    ensures OnlyHandshake(HandleReset(t), iss)
  {
    T.ApplyKeepsOwned(t.timers, T.StopEvery);
  }

  lemma InputCharted(e: Endpoint, packet: Packet, intact: bool)
    requires Sound(e) && Charting(e) && Followed(e) && |e.accepted| < 0x1_0000_0000
    requires Enabled(e, Deliver(packet, intact)) && Followed(Next(e, Deliver(packet, intact)))
    ensures ChartedAfter(e, Next(e, Deliver(packet, intact)).tcb, e.accepted)
  {
    hide Dispatch, ChartedAfter, Charting, StreamInv;
    if intact && packet.flags.rst {
      assert e.tcb.state == CLOSED;
      ResetCharted(e);
    } else if intact && (packet.flags.ack || packet.flags.syn || packet.flags.fin) {
      var t := e.tcb.(peerWindow := packet.window);
      DispatchState(t, packet, e.iss);
      DispatchCharted(e, t, packet);
    } else {
      SameAfter(e, e.tcb);
    }
  }

  lemma ResetCharted(e: Endpoint)
    requires Charting(e) && Followed(e) && e.tcb.state == CLOSED
    ensures ChartedAfter(e, HandleReset(e.tcb), e.accepted)
  {
    ResetHandshake(e.tcb, e.iss);
  }

  lemma TimerCharted(e: Endpoint, h: nat)
    requires Sound(e) && Charting(e) && Followed(e) && h in e.tcb.timers.armed && |e.accepted| < 0x1_0000_0000
    ensures ChartedAfter(e, Expire(e.tcb, h), e.accepted)
  {
    hide Expire, AllHonest, T.Owned;
    ExpireKeeps(e.tcb, h);
    if OnStream(e) {
      ExpireCharted(e.tcb, Base(e), e.accepted, e.cuts, h);
      WithNoCut(Expire(e.tcb, h), Base(e), e.accepted, e.cuts);
    } else {
      ExpireHandshake(e.tcb, e.iss, h);
    }
  }

  lemma CallSendCharted(e: Endpoint, data: seq<u8>)
    requires Sound(e) && Charting(e) && Followed(e) && |Accepting(e, CallSend(data))| < 0x1_0000_0000
    ensures ChartedAfter(e, Send(e.tcb, data), Accepting(e, CallSend(data)))
  {
    hide AllHonest, Tracked, TrySend, T.Owned;
    var more := data[..SendRoom(e.tcb, data)];
    if data == [] {
      assert e.accepted + more == e.accepted;
      SameAfter(e, e.tcb);
    } else {
      TrySendStops(e.tcb.(sendBuffer := e.tcb.sendBuffer + more));
      TrySendKeeps(e.tcb.(sendBuffer := e.tcb.sendBuffer + more));
      if OnStream(e) {
        SendCharted(e.tcb, Base(e), e.accepted, e.cuts, more);
      }
    }
  }

  lemma ChartedStep(e: Endpoint, ev: Event)
    requires Sound(e) && Charting(e) && Enabled(e, ev) && |Next(e, ev).accepted| < 0x1_0000_0000
    requires Followed(e) && Followed(Next(e, ev))
    ensures ChartedAfter(e, Next(e, ev).tcb, Next(e, ev).accepted)
  {
    hide Close, Send, Input, Expire, StreamInv, Charted, T.Owned;
    AcceptedGrows(e, ev);
    match ev
    case CallConnect => OpenHandshake(e.tcb, e.iss, FLAG_SYN, SYN_SENT);
    case CallListen =>
    case CallSend(data) => CallSendCharted(e, data);
    case CallRecv(count) => RecvCharted(e, count);
    case CallClose => CloseState(e.tcb); ClosingCharted(e);
    case Deliver(packet, intact) => InputCharted(e, packet, intact);
    case TimerExpires(h) => TimerCharted(e, h);
    case TwoMslExpires => TwoMslCharted(e);
  }

  lemma RecvCharted(e: Endpoint, count: nat)
    requires Charting(e) && Followed(e) && Phases(e) && Possible(e, CallRecv(count))
    requires Followed(Next(e, CallRecv(count)))
    ensures ChartedAfter(e, Recv(e.tcb, count), e.accepted)
  {
    hide Close, T.Owned, Charted;
    var left := e.tcb.(recvBuffer := e.tcb.recvBuffer[ReadCount(e.tcb, count)..]);
    CloseState(left);
    SameAfter(e, left);
  }

  lemma TwoMslCharted(e: Endpoint)
    requires Charting(e) && Followed(e) && e.tcb.state == CLOSED
    ensures ChartedAfter(e, TwoMslTimeout(e.tcb), e.accepted)
  {
  }

  lemma ClosingCharted(e: Endpoint)
    requires Charting(e) && Followed(e) && Close(e.tcb).state == e.tcb.state && e.tcb.state != ESTABLISHED
    ensures ChartedAfter(e, Close(e.tcb), e.accepted)
  {
  }

  lemma ChartingStep(e: Endpoint, ev: Event)
    requires Sound(e) && Charting(e) && Enabled(e, ev) && |Next(e, ev).accepted| < 0x1_0000_0000
    ensures Charting(Next(e, ev))
  {
    hide Perform, StreamInv, Charted, OnlyHandshake;
    PhasesStep(e, ev);
    AcceptedGrows(e, ev);
    if Followed(Next(e, ev)) {
      FollowedBefore(e, ev);
      ChartedStep(e, ev);
    }
  }

  lemma FollowedBefore(e: Endpoint, ev: Event)
    requires Phases(e) && Enabled(e, ev) && Followed(Next(e, ev))
    ensures Followed(e)
  {
    hide Perform, Dispatch, Close;
    PhasesStep(e, ev);
    if Next(e, ev).tcb.state == CLOSE_WAIT {
      ClosedByPeer(e, ev);
    }
  }

  /** CLOSE_WAIT is entered from ESTABLISHED or from FIN_WAIT_1. */
  lemma ClosedByPeer(e: Endpoint, ev: Event)
    requires Enabled(e, ev) && Next(e, ev).tcb.state == CLOSE_WAIT
    ensures e.tcb.state in {ESTABLISHED, FIN_WAIT_1, CLOSE_WAIT}
  {
    hide Dispatch, Close;
    if ev.Deliver? {
      DispatchState(e.tcb.(peerWindow := ev.packet.window), ev.packet, e.iss);
    } else {
      hide Perform;
      CallState(e.tcb, e.iss, ev);
      CloseState(e.tcb);
    }
  }

  lemma {:induction false} RunCharted(e: Endpoint, trace: seq<Event>)
    requires Sound(e) && Charting(e)
    requires Runs(e, trace) && NoSecondLap(e, After(e, trace)) && |e.accepted| < 0x1_0000_0000
    ensures Charting(After(e, trace))
    decreases |trace|
  {
    hide Next, Sound, Charting;
    if trace == [] {
    } else {
      FirstEvent(e, trace);
      ChartingStep(e, trace[0]);
      RunCharted(Next(e, trace[0]), trace[1..]);
    }
  }

  /** The number of transmissions of the `k`-th segment. */
  function Transmissions(f: Endpoint, k: nat): nat
    requires k < |f.cuts|
  {
    Copies(f.tcb.out, Start(Base(f), f.cuts, k))
  }

  /** The timer at the segment's sequence number is armed and counts the segment's transmissions. */
  predicate TimerRuns(f: Endpoint, k: nat)
    requires k < |f.cuts|
  {
    var x, ts := Start(Base(f), f.cuts, k), f.tcb.timers;
    && x in ts.entries && ts.entries[x] in ts.armed
    && var timer := ts.armed[ts.entries[x]];
       timer.seqNum == x && timer.count + 1 == Transmissions(f, k) && timer.delay == INITIAL_RTO * Pow2(timer.count)
  }

  /** The segments of an established connection, from its first byte to `sendNext`. */
  ghost predicate SegmentsTracked(f: Endpoint) {
    var released := f.tcb.sendUnack - Base(f);
    && CutsUpTo(f.cuts, released + InFlight(f.tcb))
    && (forall p :: p in f.tcb.out && p.payload != [] ==> IsSegment(Base(f), f.cuts, p))
    && (forall k: nat :: k + 1 < |f.cuts| ==> 1 <= Transmissions(f, k) <= MAX_RETRANSMIT_COUNT)
    && (forall k: nat :: k + 1 < |f.cuts| && f.cuts[k] >= released ==>
          Start(Base(f), f.cuts, k) in f.tcb.timers.entries
          && (TimerRuns(f, k) || Transmissions(f, k) == MAX_RETRANSMIT_COUNT))
  }

  lemma ChartedTracks(f: Endpoint)
    requires Sound(f) && Charting(f) && OnStream(f)
    ensures SegmentsTracked(f)
  {
    AlignedNow(f);
    forall k: nat | k + 1 < |f.cuts| && f.cuts[k] >= Popped(f.tcb, f.accepted)
      ensures TimerRuns(f, k) || Transmissions(f, k) == MAX_RETRANSMIT_COUNT
    {
      GuardedRuns(f, k);
    }
  }

  lemma GuardedRuns(f: Endpoint, k: nat)
    requires k < |f.cuts| && Guarded(f.tcb, Start(Base(f), f.cuts, k))
    requires T.Owned(f.tcb.timers) && AllRunning(f.tcb, Base(f), f.cuts)
    ensures TimerRuns(f, k) || Transmissions(f, k) == MAX_RETRANSMIT_COUNT
  {
    var x, ts := Start(Base(f), f.cuts, k), f.tcb.timers;
    if ts.entries[x] in ts.armed {
      assert Running(f.tcb, Base(f), f.cuts, ts.armed[ts.entries[x]]);
    }
  }

  /**
   * In every run, whatever packets arrive, until this side closes: the session emits whole segments only, transmits
   * each at most five times, and keeps a timer entry for each one in flight, armed until the transmissions are used up.
   */
  lemma SegmentsAlwaysTracked(start: Endpoint, trace: seq<Event>)
    requires StartsAlone(start) && Runs(start, trace) && NoSecondLap(start, After(start, trace))
    requires OnStream(After(start, trace))
    ensures SegmentsTracked(After(start, trace))
  {
    hide SegmentsTracked, Sound, Charting;
    NewSound(start);
    assert Charting(start) by {
      NewCharting(start);
    }
    RunSound(start, trace);
    RunCharted(start, trace);
    ChartedTracks(After(start, trace));
  }

  lemma NewCharting(start: Endpoint)
    requires StartsAlone(start)
    ensures Charting(start)
  {
  }
}
