/**
 * Sending after an active close. The session sends again when FIN_WAIT_1 takes a FIN. If that FIN does not acknowledge
 * this side's own, everything sent is still in its place in the stream; if it does, everything sent from then on is
 * one number late.
 */
module Crossing {
  import opened Types
  import opened Session
  import opened Endpoints
  import opened Streams
  import opened Alignment
  import opened Reception
  import opened Network
  import opened Connection
  import opened SingleRuns
  import opened Tracking
  import opened Departures
  import T = Timers

  /** The guard of the failing branch: a FIN that FIN_WAIT_1 takes also acknowledges this side's FIN. */
  predicate AcknowledgesFin(t: Tcb, ev: Event) {
    && t.state == FIN_WAIT_1
    && ev.Deliver? && ev.intact && !ev.packet.flags.rst
    && ev.packet.flags.fin && AcksNext(t, ev.packet)
  }

  /** The buffer is shifted by the events that pass the guard, and by no others. */
  lemma ShiftGuard(e: Endpoint, ev: Event)
    requires Possible(e, ev)
    ensures Next(e, ev).shifted <==> e.shifted || AcknowledgesFin(e.tcb, ev)
  {
    hide Perform;
    if e.tcb.state == FIN_WAIT_1 {
      if ev.Deliver? {
        PacketGuard(e.tcb, ev.packet, ev.intact, e.iss);
        DeliverPerforms(e, ev);
      } else {
        CallState(e.tcb, e.iss, ev);
        CloseState(e.tcb);
      }
    }
  }

  lemma DeliverPerforms(e: Endpoint, ev: Event)
    requires ev.Deliver?
    ensures Perform(e.tcb, e.iss, ev) == Input(e.tcb, ev.packet, ev.intact, e.iss)
  {
  }

  lemma PacketGuard(t: Tcb, p: Packet, intact: bool, iss: u32)
    requires t.state == FIN_WAIT_1
    ensures Shifts(t, Input(t, p, intact, iss)) <==> AcknowledgesFin(t, Deliver(p, intact))
  {
    hide HandleFinWait1;
    FinWait1Moves(t.(peerWindow := p.window), p);
  }

  /** Some event of the run passes the guard. */
  predicate TakesAcknowledgingFin(e: Endpoint, trace: seq<Event>)
    requires Runs(e, trace)
    decreases |trace|
  {
    trace != []
    && (AcknowledgesFin(e.tcb, trace[0]) || TakesAcknowledgingFin(Next(e, trace[0]), trace[1..]))
  }

  lemma {:induction false} ShiftedExactly(e: Endpoint, trace: seq<Event>)
    requires Runs(e, trace)
    ensures After(e, trace).shifted <==> e.shifted || TakesAcknowledgingFin(e, trace)
    decreases |trace|
  {
    hide Next, AcknowledgesFin;
    if trace == [] {
    } else {
      ShiftGuard(e, trace[0]);
      ShiftedExactly(Next(e, trace[0]), trace[1..]);
    }
  }

  /** The payload is what the stream holds one position before the packet's sequence number. */
  predicate IsShifted(base: u32, stream: seq<u8>, p: Packet) {
    var i := Offset(base, p.seqNum);
    && 1 <= i && i - 1 + |p.payload| <= |stream|
    && p.payload == stream[i - 1..i - 1 + |p.payload|]
  }

  /** A shifted segment is a slice all the same exactly when the stream repeats itself there. */
  lemma ShiftedIsSlice(base: u32, stream: seq<u8>, p: Packet)
    requires IsShifted(base, stream, p)
    ensures var i, n := Offset(base, p.seqNum), |p.payload|;
      IsSlice(base, stream, |stream|, p) <==> i + n <= |stream| && stream[i..i + n] == stream[i - 1..i - 1 + n]
  {
  }

  // After the shift

  ghost predicate AllShifted(t: Tcb, base: u32, stream: seq<u8>, n: nat) {
    && n <= |t.out|
    && (forall i :: n <= i < |t.out| && t.out[i].payload != [] ==> IsShifted(base, stream, t.out[i]))
    && (forall h :: h in t.timers.armed && t.timers.armed[h].packet.payload != [] ==>
          IsShifted(base, stream, t.timers.armed[h].packet))
  }

  /** The buffer stands one number after its place. */
  predicate Displaced(t: Tcb, base: u32, stream: seq<u8>) {
    Buffered(t, base, stream) && t.sendUnack == Wrap32(base + Popped(t, stream) + 1)
  }

  lemma LongerShifted(t: Tcb, base: u32, stream: seq<u8>, more: seq<u8>, n: nat)
    requires AllShifted(t, base, stream, n) && stream <= more
    ensures AllShifted(t, base, more, n)
  {
  }

  /** No new packet and no new timer. */
  lemma FewerShifted(t: Tcb, u: Tcb, base: u32, stream: seq<u8>, n: nat)
    requires AllShifted(t, base, stream, n) && u.out == t.out
    requires forall h :: h in u.timers.armed ==> h in t.timers.armed && u.timers.armed[h] == t.timers.armed[h]
    ensures AllShifted(u, base, stream, n)
  {
  }

  lemma PureAckShifted(t: Tcb, base: u32, stream: seq<u8>, n: nat, ackNum: u32)
    requires AllShifted(t, base, stream, n)
    ensures AllShifted(SendPureAck(t, ackNum), base, stream, n)
  {
  }

  lemma ControlShifted(t: Tcb, base: u32, stream: seq<u8>, n: nat, flags: Flags)
    requires AllShifted(t, base, stream, n)
    ensures AllShifted(SendControl(t, flags), base, stream, n)
  {
  }

  lemma PayloadShifted(t: Tcb, base: u32, stream: seq<u8>, n: nat, data: seq<u8>)
    requires AllShifted(t, base, stream, n)
    requires data != [] ==> IsShifted(base, stream, PayloadPacket(t, data, FLAG_ACK))
    ensures AllShifted(SendPayload(t, data, FLAG_ACK), base, stream, n)
  {
  }

  /** Whatever goes out of a displaced buffer is one number late. */
  lemma ChunkShifted(t: Tcb, base: u32, stream: seq<u8>)
    requires Displaced(t, base, stream) && |stream| < 0x1_0000_0000 && Chunk(t) != []
    ensures IsShifted(base, stream, PayloadPacket(t, Chunk(t), FLAG_ACK))
  {
    assert InFlight(t) < |t.sendBuffer|;
    ChunkIsSlice(t, base, stream);
    DisplacedNext(t, base, stream);
    hide Chunk, Displaced;
  }

  lemma DisplacedNext(t: Tcb, base: u32, stream: seq<u8>)
    requires Displaced(t, base, stream) && Sent(t, stream) + 1 < 0x1_0000_0000
    ensures Offset(base, t.sendNext) == Sent(t, stream) + 1
  {
    OffsetAcross(base, t.sendUnack, t.sendNext, Popped(t, stream) + 1);
  }

  lemma AcrossFlight(unack: u32, next: u32)
    ensures next == Wrap32(unack + Wrap32(next - unack))
  {
  }

  lemma OffsetAcross(base: u32, unack: u32, next: u32, k: nat)
    requires unack == Wrap32(base + k) && k + Wrap32(next - unack) < 0x1_0000_0000
    ensures Offset(base, next) == k + Wrap32(next - unack)
  {
    hide Wrap32, Offset;
    AcrossFlight(unack, next);
    WrapAdd(base + k, Wrap32(next - unack));
    assert base + k + Wrap32(next - unack) == base + (k + Wrap32(next - unack));
    OffsetOfPosition(base, k + Wrap32(next - unack));
  }

  lemma TrySendShifted(t: Tcb, base: u32, stream: seq<u8>, n: nat)
    requires AllShifted(t, base, stream, n) && |stream| < 0x1_0000_0000
    requires t.state == CLOSE_WAIT ==> Displaced(t, base, stream)
    requires t.state != ESTABLISHED
    ensures AllShifted(TrySend(t), base, stream, n)
  {
    hide SendPayload, IsShifted;
    TrySendIsPayload(t);
    if t.state == CLOSE_WAIT {
      if Chunk(t) != [] {
        ChunkShifted(t, base, stream);
      }
      PayloadShifted(t, base, stream, n, Chunk(t));
    }
  }

  lemma ExpireShifted(t: Tcb, base: u32, stream: seq<u8>, n: nat, h: nat)
    requires AllShifted(t, base, stream, n) && h in t.timers.armed
    ensures AllShifted(Expire(t, h), base, stream, n)
  {
    hide IsShifted, Expire;
    SameShift(base, stream, t.timers.armed[h].packet, Refreshed(t, t.timers.armed[h].packet));
    ExpirePackets(t, h);
  }

  /** `u` has emitted at most `p` and armed timers for `p` only. */
  ghost predicate OnlyPacket(t: Tcb, u: Tcb, p: Packet) {
    && (u.out == t.out || u.out == t.out + [p])
    && forall g :: g in u.timers.armed ==>
         (g in t.timers.armed && u.timers.armed[g] == t.timers.armed[g]) || u.timers.armed[g].packet == p
  }

  lemma ResendOnly(t: Tcb, u: Tcb, p: Packet, count: nat, seqNum: u32)
    requires u.out == t.out && OnlyPacket(t, u, p)
    ensures OnlyPacket(t, Resend(u, p, count, seqNum), p)
  {
  }

  /** The packets and timers of an expiry: at most its own packet, refreshed. */
  lemma ExpirePackets(t: Tcb, h: nat)
    requires h in t.timers.armed
    ensures OnlyPacket(t, Expire(t, h), Refreshed(t, t.timers.armed[h].packet))
  {
    hide Resend, BackOff;
    var timer := t.timers.armed[h];
    var stopped := t.(timers := T.StopTimer(T.Fire(t.timers, h), timer.packet.seqNum));
    assert OnlyPacket(t, stopped, Refreshed(t, timer.packet));
    if timer.count + 1 < MAX_RETRANSMIT_COUNT {
      BackOffOnly(stopped);
      ResendOnly(t, BackOff(stopped), Refreshed(t, timer.packet), timer.count + 1, timer.packet.seqNum);
    }
  }

  lemma BackOffOnly(t: Tcb)
    ensures BackOff(t).out == t.out && BackOff(t).timers == t.timers
  {
  }

  lemma SameShift(base: u32, stream: seq<u8>, p: Packet, q: Packet)
    requires q.seqNum == p.seqNum && q.payload == p.payload
    ensures IsShifted(base, stream, p) <==> IsShifted(base, stream, q)
  {
  }

  // From the guard on

  /** What holds once the buffer is shifted; `n` packets were out before. */
  ghost predicate Shifting(e: Endpoint, n: nat) {
    && e.tcb.state in {CLOSE_WAIT, LAST_ACK, CLOSED} && e.begun && e.shifted
    && (e.tcb.state == CLOSE_WAIT ==> Displaced(e.tcb, Base(e), e.accepted))
    && AllShifted(e.tcb, Base(e), e.accepted, n)
  }

  /** In FIN_WAIT_1 no data timer is armed. */
  predicate BareTimers(t: Tcb) {
    t.state == FIN_WAIT_1 ==> forall h :: h in t.timers.armed ==> t.timers.armed[h].packet.payload == []
  }

  lemma CrossingShifts(e: Endpoint, ev: Event)
    requires Sound(e) && BareTimers(e.tcb) && Possible(e, ev) && AcknowledgesFin(e.tcb, ev)
    ensures Shifting(Next(e, ev), |e.tcb.out|)
  {
    hide Input, AllHonest;
    var t, p := e.tcb.(peerWindow := ev.packet.window), ev.packet;
    ShiftGuard(e, ev);
    InputIsFinWait1(e.tcb, p, e.iss);
    FinWait1Moves(t, p);
    CrossingEmits(t, p, Base(e), e.accepted);
    SoundPlaced(e);
  }

  lemma SoundPlaced(e: Endpoint)
    requires Sound(e) && e.tcb.state == FIN_WAIT_1
    ensures Placed(e.tcb, Base(e), e.accepted)
  {
  }

  lemma InputIsFinWait1(t: Tcb, p: Packet, iss: u32)
    requires t.state == FIN_WAIT_1 && p.flags.fin && !p.flags.rst
    ensures Input(t, p, true, iss) == HandleFinWait1(t.(peerWindow := p.window), p)
  {
  }

  lemma CrossingEmits(t: Tcb, p: Packet, base: u32, stream: seq<u8>)
    requires t.state == FIN_WAIT_1 && BareTimers(t) && AcksNext(t, p) && p.flags.fin
    ensures AllShifted(HandleFinWait1(t, p), base, stream, |t.out|)
  {
    var acked := Advance(t, p.ackNum).(state := FIN_WAIT_2);
    assert AllShifted(acked, base, stream, |t.out|);
    PureAckShifted(acked.(recvNext := Wrap32(p.seqNum + 1)), base, stream, |t.out|, Wrap32(p.seqNum + 1));
  }

  lemma CloseShifted(t: Tcb, base: u32, stream: seq<u8>, n: nat)
    requires AllShifted(t, base, stream, n) && t.state in {CLOSE_WAIT, LAST_ACK, CLOSED}
    ensures AllShifted(Close(t), base, stream, n)
    ensures Close(t).sendBuffer == t.sendBuffer && Close(t).state in {LAST_ACK, CLOSED}
  {
    hide AllShifted;
    if t.state == CLOSE_WAIT {
      FewerShifted(t, t.(state := LAST_ACK), base, stream, n);
      ControlShifted(t.(state := LAST_ACK), base, stream, n, FLAG_FIN_ACK);
      FewerShifted(SendControl(t.(state := LAST_ACK), FLAG_FIN_ACK), Close(t), base, stream, n);
    }
  }

  lemma CloseWaitShifted(t: Tcb, base: u32, stream: seq<u8>, n: nat, p: Packet)
    requires AllShifted(t, base, stream, n) && t.state == CLOSE_WAIT && Displaced(t, base, stream)
    requires |stream| < 0x1_0000_0000
    ensures var u := HandleCloseWait(t, p);
      && AllShifted(u, base, stream, n) && u.state in {CLOSE_WAIT, LAST_ACK}
      && (u.state == CLOSE_WAIT ==> Displaced(u, base, stream))
  {
    hide AllShifted, TrySend;
    var answered := SendPureAck(t, t.recvNext);
    var tried := TrySend(answered);
    PureAckShifted(t, base, stream, n, t.recvNext);
    TrySendShifted(answered, base, stream, n);
    TrySendKeeps(answered);
    TrySendKeepsBuffer(answered);
    TrySendUnack(answered);
    if ReadyForLastFin(tried) {
      LastFinShifted(tried, base, stream, n);
    } else {
    }
  }

  lemma LastFinShifted(t: Tcb, base: u32, stream: seq<u8>, n: nat)
    requires AllShifted(t, base, stream, n)
    ensures AllShifted(SendLastFin(t), base, stream, n)
  {
    hide AllShifted;
    var stopped := t.(timers := T.StopAll(t.timers));
    FewerShifted(t, stopped, base, stream, n);
    ControlShifted(stopped, base, stream, n, FLAG_FIN);
    FewerShifted(SendControl(stopped, FLAG_FIN), SendLastFin(t), base, stream, n);
  }

  lemma DispatchShifted(t: Tcb, base: u32, stream: seq<u8>, n: nat, p: Packet, iss: u32)
    requires AllShifted(t, base, stream, n) && t.state in {CLOSE_WAIT, LAST_ACK, CLOSED}
    requires (t.state == CLOSE_WAIT ==> Displaced(t, base, stream)) && |stream| < 0x1_0000_0000
    ensures var u := Dispatch(t, p, iss);
      && AllShifted(u, base, stream, n) && u.state in {CLOSE_WAIT, LAST_ACK, CLOSED}
      && (u.state == CLOSE_WAIT ==> Displaced(u, base, stream))
  {
    hide AllShifted, HandleCloseWait;
    match t.state
    case CLOSE_WAIT => CloseWaitShifted(t, base, stream, n, p);
    case LAST_ACK => FewerShifted(t, HandleLastAck(t, p), base, stream, n);
    case CLOSED => FewerShifted(t, t.(userWantToClose := false), base, stream, n);
  }

  lemma InputShifted(e: Endpoint, p: Packet, intact: bool, n: nat)
    requires Shifting(e, n) && |e.accepted| < 0x1_0000_0000
    ensures var u := Input(e.tcb, p, intact, e.iss);
      && AllShifted(u, Base(e), e.accepted, n) && u.state in {CLOSE_WAIT, LAST_ACK, CLOSED}
      && (u.state == CLOSE_WAIT ==> Displaced(u, Base(e), e.accepted))
  {
    hide AllShifted, Dispatch;
    var told := e.tcb.(peerWindow := p.window);
    FewerShifted(e.tcb, HandleReset(e.tcb), Base(e), e.accepted, n);
    FewerShifted(e.tcb, told, Base(e), e.accepted, n);
    DispatchShifted(told, Base(e), e.accepted, n, p, e.iss);
  }

  lemma SendShifted(e: Endpoint, data: seq<u8>, n: nat)
    requires Shifting(e, n) && |Accepting(e, CallSend(data))| < 0x1_0000_0000
    ensures var u, stream := Send(e.tcb, data), Accepting(e, CallSend(data));
      && AllShifted(u, Base(e), stream, n) && u.state == e.tcb.state
      && (u.state == CLOSE_WAIT ==> Displaced(u, Base(e), stream))
  {
    hide AllShifted, TrySend;
    var more := data[..SendRoom(e.tcb, data)];
    LongerShifted(e.tcb, Base(e), e.accepted, e.accepted + more, n);
    if data == [] {
      assert e.accepted + more == e.accepted;
    } else {
      var filled := Filled(e.tcb, more);
      if e.tcb.state == CLOSE_WAIT {
        AppendAligned(e.tcb, Base(e), e.accepted, more);
      }
      FewerShifted(e.tcb, filled, Base(e), e.accepted + more, n);
      TrySendShifted(filled, Base(e), e.accepted + more, n);
      TrySendKeeps(filled);
      TrySendKeepsBuffer(filled);
      TrySendUnack(filled);
    }
  }

  lemma RecvShifted(e: Endpoint, count: nat, n: nat)
    requires Shifting(e, n)
    ensures var u := Recv(e.tcb, count);
      && AllShifted(u, Base(e), e.accepted, n) && u.state in {CLOSE_WAIT, LAST_ACK, CLOSED}
      && (u.state == CLOSE_WAIT ==> Displaced(u, Base(e), e.accepted))
  {
    hide AllShifted, Close;
    var left := e.tcb.(recvBuffer := e.tcb.recvBuffer[ReadCount(e.tcb, count)..]);
    FewerShifted(e.tcb, left, Base(e), e.accepted, n);
    CloseShifted(left, Base(e), e.accepted, n);
  }

  lemma TimerShifted(e: Endpoint, h: nat, n: nat)
    requires Shifting(e, n) && h in e.tcb.timers.armed
    ensures var u := Expire(e.tcb, h);
      && AllShifted(u, Base(e), e.accepted, n) && u.state == e.tcb.state
      && (u.state == CLOSE_WAIT ==> Displaced(u, Base(e), e.accepted))
  {
    hide AllShifted, Expire;
    ExpireShifted(e.tcb, Base(e), e.accepted, n, h);
    ExpireKeeps(e.tcb, h);
  }

  lemma ShiftingStep(e: Endpoint, ev: Event, n: nat)
    requires Shifting(e, n) && Possible(e, ev) && |Next(e, ev).accepted| < 0x1_0000_0000
    ensures Shifting(Next(e, ev), n)
  {
    hide Input, Send, Recv, Expire, Close, AllShifted, Displaced;
    AcceptedGrows(e, ev);
    match ev
    case CallSend(data) => SendShifted(e, data, n);
    case CallRecv(count) => RecvShifted(e, count, n);
    case CallClose => CloseShifted(e.tcb, Base(e), e.accepted, n);
    case Deliver(packet, intact) => InputShifted(e, packet, intact, n);
    case TimerExpires(handle) => TimerShifted(e, handle, n);
    case TwoMslExpires => FewerShifted(e.tcb, TwoMslTimeout(e.tcb), Base(e), e.accepted, n);
    case _ =>
  }

  lemma {:induction false} RunShifting(e: Endpoint, trace: seq<Event>, n: nat)
    requires Sound(e) && Shifting(e, n)
    requires Runs(e, trace) && NoSecondLap(e, After(e, trace)) && |e.accepted| < 0x1_0000_0000
    ensures Shifting(After(e, trace), n)
    decreases |trace|
  {
    hide Next, Sound, Shifting;
    if trace == [] {
    } else {
      FirstEvent(e, trace);
      ShiftingStep(e, trace[0], n);
      RunShifting(Next(e, trace[0]), trace[1..], n);
    }
  }

  // Up to the guard

  lemma BareExpire(t: Tcb, h: nat)
    requires BareTimers(t) && h in t.timers.armed
    ensures BareTimers(Expire(t, h))
  {
    hide Expire;
    ExpireKeeps(t, h);
    ExpirePackets(t, h);
  }

  /** FIN_WAIT_1 is entered by closing an established session only. */
  lemma BareStep(e: Endpoint, ev: Event)
    requires Sound(e) && Charting(e) && BareTimers(e.tcb) && Enabled(e, ev)
    ensures BareTimers(Next(e, ev).tcb)
  {
    hide Perform, Charting, StreamInv, Close;
    if Next(e, ev).tcb.state == FIN_WAIT_1 {
      if e.tcb.state == FIN_WAIT_1 {
        BareStays(e.tcb, e.iss, ev);
      } else {
        BareEntry(e, ev);
      }
    }
  }

  lemma BareStays(t: Tcb, iss: u32, ev: Event)
    requires t.state == FIN_WAIT_1 && BareTimers(t) && (ev.TimerExpires? ==> ev.handle in t.timers.armed)
    requires Perform(t, iss, ev).state == FIN_WAIT_1
    ensures BareTimers(Perform(t, iss, ev))
  {
    hide Expire, TrySend;
    match ev
    case TimerExpires(h) => BareExpire(t, h);
    case CallSend(data) => TrySendStops(t.(sendBuffer := t.sendBuffer + data[..SendRoom(t, data)]));
    case Deliver(packet, intact) => FinWait1Moves(t.(peerWindow := packet.window), packet);
    case _ =>
  }

  lemma BareEntry(e: Endpoint, ev: Event)
    requires Sound(e) && Charting(e) && Enabled(e, ev)
    requires e.tcb.state != FIN_WAIT_1 && Next(e, ev).tcb.state == FIN_WAIT_1
    ensures BareTimers(Next(e, ev).tcb)
  {
    hide Dispatch, Close, StreamInv, TrySend, Expire;
    if ev.Deliver? {
      DispatchState(e.tcb.(peerWindow := ev.packet.window), ev.packet, e.iss);
    } else {
      CallState(e.tcb, e.iss, ev);
      CloseState(e.tcb);
      CloseAbandonsData(e.tcb);
    }
  }

  lemma {:induction false} RunBare(e: Endpoint, trace: seq<Event>)
    requires Sound(e) && Charting(e) && BareTimers(e.tcb)
    requires Runs(e, trace) && NoSecondLap(e, After(e, trace)) && |e.accepted| < 0x1_0000_0000
    ensures BareTimers(After(e, trace).tcb)
    decreases |trace|
  {
    hide Next, Sound, Charting, BareTimers;
    if trace == [] {
    } else {
      FirstEvent(e, trace);
      ChartingStep(e, trace[0]);
      BareStep(e, trace[0]);
      RunBare(Next(e, trace[0]), trace[1..]);
    }
  }

  // The theorem

  /** From the event that passes the guard on, to the end of the run. */
  lemma {:induction false} ShiftLasts(start: Endpoint, before: seq<Event>, ev: Event, after: seq<Event>)
    requires StartsAlone(start) && Runs(start, before)
    requires var e := After(start, before);
      && AcknowledgesFin(e.tcb, ev) && Enabled(e, ev)
      && Runs(Next(e, ev), after) && NoSecondLap(start, After(Next(e, ev), after))
    ensures var e := After(start, before);
      Shifting(After(Next(e, ev), after), |e.tcb.out|)
  {
    hide Next, Sound, Shifting, AcknowledgesFin, StartsAlone, Runs, After, NoSecondLap;
    var e := After(start, before);
    LapsFit(start, before, ev, after);
    UpToGuard(start, before);
    AtGuard(e, ev, After(Next(e, ev), after));
    RunShifting(Next(e, ev), after, |e.tcb.out|);
  }

  /**
   * In every run: from the event that passes the guard on, every data segment is the stream one position before its
   * sequence number, and is a slice in its place exactly when the stream repeats itself there.
   */
  lemma {:induction false} ShiftedAfterCrossing(
      start: Endpoint, before: seq<Event>, ev: Event, after: seq<Event>, i: nat)
    requires StartsAlone(start) && Runs(start, before)
    requires var e := After(start, before);
      && AcknowledgesFin(e.tcb, ev) && Enabled(e, ev)
      && Runs(Next(e, ev), after) && NoSecondLap(start, After(Next(e, ev), after))
      && |e.tcb.out| <= i < |After(Next(e, ev), after).tcb.out|
      && After(Next(e, ev), after).tcb.out[i].payload != []
    ensures
      var f := After(Next(After(start, before), ev), after);
      var p := f.tcb.out[i];
      var at, n := Offset(Base(f), p.seqNum), |p.payload|;
      && f.shifted && IsShifted(Base(f), f.accepted, p)
      && (IsSlice(Base(f), f.accepted, |f.accepted|, p) <==>
            at + n <= |f.accepted| && f.accepted[at..at + n] == f.accepted[at - 1..at - 1 + n])
  {
    hide Next, Shifting, IsShifted, IsSlice, AcknowledgesFin, StartsAlone, Runs, After, NoSecondLap, Offset;
    var f := After(Next(After(start, before), ev), after);
    ShiftLasts(start, before, ev, after);
    ShiftingPacket(f, |After(start, before).tcb.out|, i);
    ShiftedIsSlice(Base(f), f.accepted, f.tcb.out[i]);
  }

  lemma LapsFit(start: Endpoint, before: seq<Event>, ev: Event, after: seq<Event>)
    requires Runs(start, before) && Enabled(After(start, before), ev)
    requires Runs(Next(After(start, before), ev), after)
    requires NoSecondLap(start, After(Next(After(start, before), ev), after))
    ensures
      var e := After(start, before);
      var f := After(Next(e, ev), after);
      && NoSecondLap(start, e) && NoSecondLap(e, f) && NoSecondLap(Next(e, ev), f)
      && Next(e, ev).accepted <= f.accepted
  {
    hide Next, Runs, After;
    var e := After(start, before);
    RunGrows(start, before);
    AcceptedGrows(e, ev);
    RunGrows(Next(e, ev), after);
  }

  lemma UpToGuard(start: Endpoint, before: seq<Event>)
    requires StartsAlone(start) && Runs(start, before) && NoSecondLap(start, After(start, before))
    ensures var e := After(start, before);
      Sound(e) && BareTimers(e.tcb) && |e.accepted| < 0x1_0000_0000
  {
    hide Sound, Charting, Runs, After, AckLog, NoSecondLap;
    StartSound(start);
    assert Charting(start) by {
      NewCharting(start);
    }
    RunSound(start, before);
    RunBare(start, before);
  }

  lemma AtGuard(e: Endpoint, ev: Event, f: Endpoint)
    requires Sound(e) && BareTimers(e.tcb) && Enabled(e, ev) && AcknowledgesFin(e.tcb, ev)
    requires NoSecondLap(e, f) && Next(e, ev).accepted <= f.accepted
    ensures var g := Next(e, ev);
      Sound(g) && Shifting(g, |e.tcb.out|) && |g.accepted| < 0x1_0000_0000
  {
    hide Next, StreamInv, Phases, Shifting, AcknowledgesFin;
    StepStaysSmall(e, ev, f);
    CrossingShifts(e, ev);
    PhasesStep(e, ev);
    StreamStep(e, ev);
  }

  lemma ShiftingPacket(f: Endpoint, n: nat, i: nat)
    requires Shifting(f, n) && n <= i < |f.tcb.out| && f.tcb.out[i].payload != []
    ensures f.shifted && IsShifted(Base(f), f.accepted, f.tcb.out[i])
  {
  }

  /** In every run without such an event, every data segment is a slice in its place, crossing FINs included. */
  lemma {:induction false} SlicesWithoutGuard(start: Endpoint, trace: seq<Event>)
    requires StartsAlone(start) && Runs(start, trace) && NoSecondLap(start, After(start, trace))
    requires !TakesAcknowledgingFin(start, trace)
    ensures SegmentsAreSlices(After(start, trace), |After(start, trace).accepted|)
  {
    hide Runs, After, NoSecondLap, TakesAcknowledgingFin, SegmentsAreSlices, WindowOnStream;
    ShiftedExactly(start, trace);
    AlwaysAligned(start, trace);
  }

  /** The FIN of a session that closes an established connection acknowledges nothing, so it never passes the guard. */
  lemma ClosingFinIsBare(t: Tcb, u: Tcb)
    requires t.state == ESTABLISHED && T.Owned(t.timers)
    ensures Close(t).out != [] && Close(t).out[|Close(t).out| - 1].flags == FLAG_FIN
    ensures !AcksNext(u, Close(t).out[|Close(t).out| - 1])
  {
    hide Close;
    CloseAbandonsData(t);
  }
}
