/** The congestion window over whole runs: its growth by accepted acknowledgments, its collapse, and its exact use. */
module WindowRuns {
  import opened Types
  import opened Session
  import opened Endpoints
  import opened Streams
  import opened Alignment
  import opened Network
  import opened Connection
  import opened SingleRuns
  import opened Window
  import BQ = BoundedQueue

  // What one event does to the window

  predicate SameWindow(t: Tcb, u: Tcb) {
    u.sendWindowSize == t.sendWindowSize && u.ssthresh == t.ssthresh
  }

  lemma TrySendSameWindow(t: Tcb)
    ensures SameWindow(t, TrySend(t)) && TrySend(t).sendBuffer == t.sendBuffer && TrySend(t).state == t.state
  {
  }

  lemma CloseSameWindow(t: Tcb)
    ensures SameWindow(t, Close(t))
  {
    hide TrySend;
    match t.state
    case ESTABLISHED => TrySendSameWindow(t);
    case CLOSE_WAIT =>
    case SYN_SENT =>
    case SYN_RECEIVED =>
    case _ =>
  }

  lemma HandshakeSameWindow(t: Tcb, packet: Packet)
    ensures SameWindow(t, HandleSynSent(t, packet)) && SameWindow(t, HandleSynReceived(t, packet))
  {
    hide TrySend;
    TrySendSameWindow(AnswerSynAck(t, packet).(state := ESTABLISHED));
    TrySendSameWindow(Advance(t, packet.ackNum).(state := ESTABLISHED));
  }

  lemma CloseWaitSameWindow(t: Tcb, packet: Packet)
    ensures SameWindow(t, HandleCloseWait(t, packet))
  {
    hide TrySend;
    TrySendSameWindow(SendPureAck(t, t.recvNext));
    if ReadyForLastFin(TrySend(SendPureAck(t, t.recvNext))) {
    } else {
    }
  }

  lemma SettledSameWindow(t: Tcb, packet: Packet, iss: u32)
    requires t.state != ESTABLISHED
    ensures SameWindow(t, Dispatch(t, packet, iss))
  {
    hide HandleSynSent, HandleSynReceived, HandleCloseWait;
    HandshakeSameWindow(t, packet);
    CloseWaitSameWindow(t, packet);
    match t.state
    case FIN_WAIT_1 =>
      if AcksNext(t, packet) {
      } else {
      }
    case LAST_ACK =>
      if AcksNext(t, packet) {
      } else {
      }
    case _ =>
  }

  /** The window's rule in an event: it grows with an accepted acknowledgment and stays as it is otherwise. */
  predicate Grows(t: Tcb, u: Tcb, accepted: bool) {
    && u.ssthresh == t.ssthresh
    && u.sendWindowSize == if accepted then GrowWindow(t.sendWindowSize, t.ssthresh) else t.sendWindowSize
  }

  lemma AcceptWindow(t: Tcb, ackNum: u32)
    requires AckAcceptable(t, ackNum) && FewDuplicates(t)
    ensures Grows(t, AcceptAck(t, ackNum), true) && InFlight(AcceptAck(t, ackNum)) <= InFlight(t)
  {
    NoFastRetransmit(t, ackNum);
  }

  lemma AckedWindow(t: Tcb, packet: Packet)
    requires FewDuplicates(t)
    ensures Grows(t, Acked(t, packet), packet.flags.ack && AckAcceptable(t, packet.ackNum))
  {
    hide TrySend, AcceptAck;
    if packet.flags.ack {
      if AckAcceptable(t, packet.ackNum) {
        AcceptWindow(t, packet.ackNum);
        TrySendSameWindow(AcceptAck(t, packet.ackNum));
      }
      TrySendSameWindow(HandleAck(t, packet));
    }
  }

  /** The payload and FIN parts of `handle_established` leave the window alone. */
  lemma FinishedSameWindow(t: Tcb, packet: Packet)
    ensures var u := Finished(Fed(t, packet), packet);
      SameWindow(t, u) && u.sendBuffer == t.sendBuffer && u.sendUnack == t.sendUnack && u.sendNext == t.sendNext
  {
    hide HandleIncoming;
    if packet.payload != [] {
      IncomingKeeps(t, packet);
    }
    if packet.flags.fin && !Fed(t, packet).hung {
    } else {
    }
  }

  lemma EstablishedWindow(t: Tcb, packet: Packet)
    requires FewDuplicates(t)
    ensures Grows(t, HandleEstablished(t, packet), packet.flags.ack && AckAcceptable(t, packet.ackNum))
  {
    hide Acked, Fed, Finished;
    AckedWindow(t, packet);
    FinishedSameWindow(Acked(t, packet), packet);
  }

  lemma PacketWindow(e: Endpoint, packet: Packet, intact: bool)
    requires Sound(e)
    ensures Grows(e.tcb, Input(e.tcb, packet, intact, e.iss), Acceptance(e, Deliver(packet, intact)))
  {
    hide HandleEstablished, Dispatch, StreamInv;
    if intact && !packet.flags.rst && (packet.flags.ack || packet.flags.syn || packet.flags.fin) {
      var told := e.tcb.(peerWindow := packet.window);
      if e.tcb.state == ESTABLISHED {
        SoundPositions(e);
        EstablishedIsDispatched(told, packet, e.iss);
        EstablishedWindow(told, packet);
      } else {
        SettledSameWindow(told, packet, e.iss);
      }
    }
  }

  /** Any event but a timeout, an expiry that gives up included. */
  lemma WindowStep(e: Endpoint, ev: Event)
    requires Sound(e) && Enabled(e, ev) && !TimesOut(e.tcb, ev)
    ensures Grows(e.tcb, Next(e, ev).tcb, Acceptance(e, ev))
  {
    hide Close, Input, TrySend, StreamInv, Expire;
    match ev
    case TimerExpires(h) => GivesUp(e.tcb, h);
    case Deliver(packet, intact) => PacketWindow(e, packet, intact);
    case CallSend(data) => TrySendSameWindow(e.tcb.(sendBuffer := e.tcb.sendBuffer + data[..SendRoom(e.tcb, data)]));
    case CallRecv(count) => CloseSameWindow(e.tcb.(recvBuffer := e.tcb.recvBuffer[ReadCount(e.tcb, count)..]));
    case CallClose => CloseSameWindow(e.tcb);
    case _ =>
  }

  /** The log grows exactly with an accepted acknowledgment. */
  lemma AcksStep(e: Endpoint, ev: Event)
    requires Sound(e) && Enabled(e, ev) && |e.accepted| < 0x1_0000_0000
    ensures Next(e, ev).acks == if Acceptance(e, ev) then e.acks + [ev.packet.ackNum] else e.acks
  {
    if e.tcb.state == ESTABLISHED {
      UnackStep(e, ev);
    }
  }

  // How fully it is used

  /** An established session has exactly min(window, buffered) bytes in flight. */
  predicate FullyUsed(t: Tcb) {
    t.state == ESTABLISHED ==> InFlight(t) == BQ.Min(t.sendWindowSize, |t.sendBuffer|)
  }

  /** One more acknowledgment does not wrap the window. */
  predicate MayGrow(t: Tcb) {
    GrowWindow(t.sendWindowSize, t.ssthresh) >= t.sendWindowSize
  }

  lemma AckedUse(t: Tcb, c: Claims, packet: Packet)
    requires Aligned(t, Wrap32(c.iss + 1), c.stream) && FewDuplicates(t) && t.state == ESTABLISHED
    requires |c.stream| < 0x1_0000_0000 && c.bound == Sent(t, c.stream) && c.synced && AllHonest(c, t)
    requires FullyUsed(t) && (packet.flags.ack && AckAcceptable(t, packet.ackNum) ==> MayGrow(t))
    ensures FullyUsed(Acked(t, packet))
  {
    hide TrySend, AllHonest, AcceptAck, GrowWindow;
    var base := Wrap32(c.iss + 1);
    if packet.flags.ack {
      if AckAcceptable(t, packet.ackNum) {
        var v := AcceptAck(t, packet.ackNum);
        AcceptAligned(t, c, packet.ackNum);
        AcceptKeeps(t, packet.ackNum);
        AcceptWindow(t, packet.ackNum);
        TrySendFills(v, base, c.stream);
        TrySendSameWindow(v);
        TrySendIdempotent(v, base, c.stream);
      } else {
        TrySendFills(t, base, c.stream);
        TrySendSameWindow(t);
      }
    }
  }

  /** The establishment of the connection fills the initial window. */
  lemma EstablishUse(t: Tcb, base: u32, stream: seq<u8>)
    requires Buffered(t, base, stream) && Popped(t, stream) == 0 && t.sendUnack == t.sendNext == base
    ensures InFlight(Establish(t)) == BQ.Min(t.sendWindowSize, |t.sendBuffer|)
    ensures Establish(t).sendBuffer == t.sendBuffer && SameWindow(t, Establish(t))
  {
    hide TrySend;
    TrySendFills(t.(state := ESTABLISHED), base, stream);
    TrySendSameWindow(t.(state := ESTABLISHED));
  }

  lemma HandshakeUse(e: Endpoint, t: Tcb, packet: Packet)
    requires Sound(e) && t == e.tcb.(peerWindow := packet.window) && e.tcb.state != ESTABLISHED
    requires Dispatch(t, packet, e.iss).state == ESTABLISHED && !SimultaneousOpen(t, packet)
    ensures var u := Dispatch(t, packet, e.iss);
      InFlight(u) == BQ.Min(u.sendWindowSize, |u.sendBuffer|)
  {
    hide Establish, StreamInv;
    DispatchState(t, packet, e.iss);
    assert Positions(e) by {
      SoundPositions(e);
    }
    if t.state == SYN_SENT {
      EstablishUse(AnswerSynAck(t, packet), Base(e), e.accepted);
    } else {
      EstablishUse(Advance(t, packet.ackNum), Base(e), e.accepted);
    }
  }

  lemma EstablishedUse(e: Endpoint, t: Tcb, packet: Packet)
    requires Sound(e) && e.tcb == t && t.state == ESTABLISHED && |e.accepted| < 0x1_0000_0000
    requires FullyUsed(t) && (packet.flags.ack && AckAcceptable(t, packet.ackNum) ==> MayGrow(t))
    ensures FullyUsed(HandleEstablished(t, packet))
  {
    hide Acked, Finished, StreamInv;
    SoundPositions(e);
    AckedUse(t, ClaimsOf(e), packet);
    AckKeepsState(t, packet);
    FinishedSameWindow(Acked(t, packet), packet);
  }

  lemma AckKeepsState(t: Tcb, packet: Packet)
    ensures Acked(t, packet).state == t.state
  {
    hide HandleAck, TrySend;
    if packet.flags.ack {
      AckKeeps(t, packet);
      TrySendKeeps(HandleAck(t, packet));
    }
  }

  lemma PacketUse(e: Endpoint, packet: Packet, intact: bool)
    requires Sound(e) && FullyUsed(e.tcb) && Enabled(e, Deliver(packet, intact)) && |e.accepted| < 0x1_0000_0000
    requires Acceptance(e, Deliver(packet, intact)) ==> MayGrow(e.tcb)
    ensures FullyUsed(Input(e.tcb, packet, intact, e.iss))
  {
    hide HandleEstablished, Dispatch, StreamInv;
    if intact && !packet.flags.rst && (packet.flags.ack || packet.flags.syn || packet.flags.fin) {
      var told := e.tcb.(peerWindow := packet.window);
      ToldSound(e, packet);
      if e.tcb.state == ESTABLISHED {
        EstablishedIsDispatched(told, packet, e.iss);
        EstablishedUse(e.(tcb := told), told, packet);
      } else if Dispatch(told, packet, e.iss).state == ESTABLISHED {
        HandshakeUse(e, told, packet);
      }
    }
  }

  lemma SendUse(e: Endpoint, data: seq<u8>)
    requires Sound(e) && FullyUsed(e.tcb)
    ensures FullyUsed(Send(e.tcb, data))
  {
    hide TrySend, AllHonest;
    var more := data[..SendRoom(e.tcb, data)];
    AppendAligned(e.tcb, Base(e), e.accepted, more);
    TrySendSameWindow(Filled(e.tcb, more));
    if e.tcb.state == ESTABLISHED {
      TrySendFills(Filled(e.tcb, more), Base(e), e.accepted + more);
    }
  }

  lemma CloseUse(t: Tcb)
    ensures Close(t).state != ESTABLISHED || Close(t) == t
  {
    CloseState(t);
  }

  /** Any event but a timeout leaves the window fully used. */
  lemma UseStep(e: Endpoint, ev: Event)
    requires Sound(e) && FullyUsed(e.tcb) && Enabled(e, ev) && !TimesOut(e.tcb, ev) && |e.accepted| < 0x1_0000_0000
    requires Acceptance(e, ev) ==> MayGrow(e.tcb)
    ensures FullyUsed(Next(e, ev).tcb)
  {
    hide Close, Input, Send, TrySend, StreamInv, MayGrow, Expire;
    match ev
    case TimerExpires(h) => GivesUp(e.tcb, h);
    case Deliver(packet, intact) => PacketUse(e, packet, intact);
    case CallSend(data) => SendUse(e, data);
    case CallRecv(count) => CloseUse(e.tcb.(recvBuffer := e.tcb.recvBuffer[ReadCount(e.tcb, count)..]));
    case CallClose => CloseUse(e.tcb);
    case _ =>
  }

  // Runs without a timeout, from wherever they start

  /** `n` acknowledgments ago the window was one segment and the threshold `t`, and no timeout has come since. */
  predicate OnCurve(e: Endpoint, t: u32, n: nat) {
    && t >= 1 && e.tcb.ssthresh == t && n <= |e.acks|
    && e.tcb.sendWindowSize == Reno(t, |e.acks| - n)
  }

  /** 32 bits hold the window. */
  predicate CurveFits(t: u32, k: int) {
    t >= 1 && Pow2(Level(t)) + k < 0x1_0000_0000
  }

  lemma CurveGrows(t: u32, k: nat)
    requires CurveFits(t, k + 1)
    ensures Reno(t, k) < 0x1_0000_0000
    ensures Reno(t, k) <= GrowWindow(Reno(t, k), t) == Reno(t, k + 1)
  {
    hide Reno, Level, Pow2, GrowWindow;
    GrowReno(t, k);
    RenoStep(t, k);
  }

  lemma CurveStep(e: Endpoint, ev: Event, t: u32, n: nat)
    requires Sound(e) && OnCurve(e, t, n) && Enabled(e, ev) && !TimesOut(e.tcb, ev) && |e.accepted| < 0x1_0000_0000
    requires CurveFits(t, |Next(e, ev).acks| - n)
    ensures OnCurve(Next(e, ev), t, n) && |e.acks| <= |Next(e, ev).acks|
    ensures FullyUsed(e.tcb) ==> FullyUsed(Next(e, ev).tcb)
  {
    hide Next, Reno, Level, Pow2, GrowWindow, StreamInv, Phases, FullyUsed;
    AcksStep(e, ev);
    WindowStep(e, ev);
    if Acceptance(e, ev) {
      CurveGrows(t, |e.acks| - n);
    }
    if FullyUsed(e.tcb) {
      UseStep(e, ev);
    }
  }

  /** The logs of acknowledgments and timeouts only grow. */
  lemma LogsGrow(e: Endpoint, ev: Event)
    requires Possible(e, ev)
    ensures |e.acks| <= |Next(e, ev).acks|
    ensures Next(e, ev).timeouts == if TimesOut(e.tcb, ev) then e.timeouts + 1 else e.timeouts
  {
    hide Perform;
  }

  lemma {:induction false} RunLogsGrow(e: Endpoint, trace: seq<Event>)
    requires Runs(e, trace)
    ensures |e.acks| <= |After(e, trace).acks| && e.timeouts <= After(e, trace).timeouts
    decreases |trace|
  {
    hide Next;
    if trace == [] {
    } else {
      LogsGrow(e, trace[0]);
      RunLogsGrow(Next(e, trace[0]), trace[1..]);
    }
  }

  lemma {:induction false} RunOnCurve(e: Endpoint, trace: seq<Event>, t: u32, n: nat)
    requires Sound(e) && AckLog(e) && (!e.established ==> e.acks == []) && |e.accepted| < 0x1_0000_0000
    requires Runs(e, trace) && NoSecondLap(e, After(e, trace)) && After(e, trace).timeouts == e.timeouts
    requires OnCurve(e, t, n) && CurveFits(t, |After(e, trace).acks| - n)
    ensures OnCurve(After(e, trace), t, n)
    ensures FullyUsed(e.tcb) ==> FullyUsed(After(e, trace).tcb)
    decreases |trace|
  {
    hide Next, Sound, AckLog, OnCurve, FullyUsed, Pow2, Level;
    if trace == [] {
    } else {
      LogsGrow(e, trace[0]);
      RunLogsGrow(Next(e, trace[0]), trace[1..]);
      FirstEvent(e, trace);
      AckLogStep(e, trace[0]);
      CurveStep(e, trace[0], t, n);
      RunOnCurve(Next(e, trace[0]), trace[1..], t, n);
    }
  }

  // The theorems

  lemma {:induction false} ReachedSound(start: Endpoint, before: seq<Event>)
    requires StartsAlone(start) && Runs(start, before) && NoSecondLap(start, After(start, before))
    ensures var e := After(start, before);
      && Sound(e) && AckLog(e) && (!e.established ==> e.acks == []) && |e.accepted| < 0x1_0000_0000
  {
    hide Sound, AckLog, NoSecondLap, Runs, After;
    StartSound(start);
    RunSound(start, before);
  }

  lemma {:induction false} LapsFrom(start: Endpoint, before: seq<Event>, rest: seq<Event>)
    requires Runs(start, before) && Runs(After(start, before), rest)
    requires NoSecondLap(start, After(After(start, before), rest))
    ensures NoSecondLap(start, After(start, before))
    ensures NoSecondLap(After(start, before), After(After(start, before), rest))
  {
    hide Runs, After;
    RunGrows(start, before);
    RunGrows(After(start, before), rest);
  }

  /**
   * From every state a run reaches with a window of one segment and any threshold `t`: as long as nothing times out
   * (a timer that gives its packet up may expire) and 32 bits hold the window, `k` accepted acknowledgments later it is
   * 2^k up to the first power of two P >= t and P + (k - log2 P) from there on. If it was fully used it still is.
   */
  lemma {:induction false} WindowFollowsReno(start: Endpoint, before: seq<Event>, rest: seq<Event>)
    requires StartsAlone(start) && Runs(start, before) && Runs(After(start, before), rest)
    requires NoSecondLap(start, After(After(start, before), rest))
    requires
      var e := After(start, before);
      var f := After(e, rest);
      && e.tcb.sendWindowSize == 1 && e.tcb.ssthresh >= 1 && f.timeouts == e.timeouts
      && CurveFits(e.tcb.ssthresh, |f.acks| - |e.acks|)
    ensures
      var e := After(start, before);
      var f := After(e, rest);
      && |e.acks| <= |f.acks|
      && f.tcb.sendWindowSize == Reno(e.tcb.ssthresh, |f.acks| - |e.acks|)
      && f.tcb.ssthresh == e.tcb.ssthresh
      && (FullyUsed(e.tcb) ==> FullyUsed(f.tcb))
  {
    hide Runs, After, StartsAlone, Sound, AckLog, NoSecondLap, CurveFits, Reno, FullyUsed;
    var e := After(start, before);
    LapsFrom(start, before, rest);
    ReachedSound(start, before);
    StartsOnCurve(e);
    RunOnCurve(e, rest, e.tcb.ssthresh, |e.acks|);
  }

  lemma StartsOnCurve(e: Endpoint)
    requires e.tcb.sendWindowSize == 1 && e.tcb.ssthresh >= 1
    ensures OnCurve(e, e.tcb.ssthresh, |e.acks|)
  {
    assert Pow2(0) == 1;
  }

  /**
   * After a timeout that sends again, in any run: the window restarts at one segment, and `k` accepted acknowledgments
   * later, without another timeout, it stands on the same curve for the new threshold.
   */
  lemma {:induction false} TimeoutRestartsSlowStart(start: Endpoint, before: seq<Event>, h: nat, rest: seq<Event>)
    requires StartsAlone(start) && Runs(start, before)
    requires
      var t := After(start, before).tcb;
      && h in t.timers.armed && t.timers.armed[h].count + 1 < MAX_RETRANSMIT_COUNT
      && 1 <= t.sendWindowSize < 0xFFFF_FFFF && Enabled(After(start, before), TimerExpires(h))
    requires
      var e := Next(After(start, before), TimerExpires(h));
      && Runs(e, rest) && NoSecondLap(start, After(e, rest)) && After(e, rest).timeouts == e.timeouts
      && CurveFits(HalvedThreshold(After(start, before).tcb.sendWindowSize), |After(e, rest).acks| - |e.acks|)
    ensures
      var t := After(start, before).tcb;
      var e := Next(After(start, before), TimerExpires(h));
      var f := After(e, rest);
      && f.tcb.ssthresh == (if t.sendWindowSize % 2 == 0 then t.sendWindowSize + 1 else (t.sendWindowSize + 1) / 2)
      && |e.acks| <= |f.acks|
      && f.tcb.sendWindowSize == Reno(f.tcb.ssthresh, |f.acks| - |e.acks|)
  {
    hide StartsAlone, CurveFits, Reno, NoSecondLap, Next, Expire;
    var e := After(start, before);
    ExpiryStart(e, h);
    RunsTogether(start, before, [TimerExpires(h)]);
    OneEvent(e, TimerExpires(h));
    WindowFollowsReno(start, before + [TimerExpires(h)], rest);
  }

  lemma ExpiryStart(e: Endpoint, h: nat)
    requires h in e.tcb.timers.armed && e.tcb.timers.armed[h].count + 1 < MAX_RETRANSMIT_COUNT
    requires 1 <= e.tcb.sendWindowSize < 0xFFFF_FFFF && Possible(e, TimerExpires(h))
    ensures var t, u := e.tcb, Next(e, TimerExpires(h)).tcb;
      && u.sendWindowSize == 1 && u.ssthresh >= 1 && u.ssthresh == HalvedThreshold(t.sendWindowSize)
      && u.ssthresh == (if t.sendWindowSize % 2 == 0 then t.sendWindowSize + 1 else (t.sendWindowSize + 1) / 2)
  {
    hide Expire;
    TimeoutCollapses(e.tcb, h);
  }

  lemma OneEvent(e: Endpoint, ev: Event)
    requires Enabled(e, ev)
    ensures Runs(e, [ev]) && After(e, [ev]) == Next(e, ev)
  {
    hide Next;
    assert [ev][1..] == [];
    assert Runs(Next(e, ev), []);
  }

  lemma {:induction false} RunsTogether(e: Endpoint, a: seq<Event>, b: seq<Event>)
    requires Runs(e, a) && Runs(After(e, a), b)
    ensures Runs(e, a + b) && After(e, a + b) == After(After(e, a), b)
    decreases |a|
  {
    hide Next;
    if a == [] {
      assert a + b == b;
    } else {
      assert (a + b)[1..] == a[1..] + b;
      RunsTogether(Next(e, a[0]), a[1..], b);
    }
  }

  /** Enough room in the sequence space for the window not to wrap: 48 bytes suffice. */
  predicate WindowFits(start: Endpoint, final: Endpoint) {
    Base(start) >= 48 || |final.accepted| + 48 < 0x1_0000_0000
  }

  lemma FewAcks(e: Endpoint, final: Endpoint)
    requires StreamInv(e) && AckLog(e) && WindowFits(e, final) && |e.accepted| <= |final.accepted|
    ensures |e.acks| + 32 < 0xFFFF_FFFF
  {
  }

  /** From a new session on and without a timeout, the window is 2^k up to 8 and then k + 5, and used to the byte. */
  lemma {:induction false} WindowUsedExactly(start: Endpoint, trace: seq<Event>)
    requires StartsAlone(start) && Runs(start, trace)
    requires NoSecondLap(start, After(start, trace)) && WindowFits(start, After(start, trace))
    requires After(start, trace).timeouts == 0
    ensures var f := After(start, trace);
      var k := |f.acks|;
      && f.tcb.sendWindowSize == (if k <= 3 then Pow2(k) else k + 5)
      && f.tcb.ssthresh == 8
      && (f.tcb.state == ESTABLISHED ==> InFlight(f.tcb) == BQ.Min(f.tcb.sendWindowSize, |f.tcb.sendBuffer|))
  {
    hide StartsAlone, Runs, After, NoSecondLap, Sound, AckLog, Reno, Level, Pow2, WindowFits;
    var f := After(start, trace);
    NewWindow(start);
    Level8();
    RunGrows(start, trace);
    ReachedSound(start, trace);
    FitsAtEnd(start, f);
    FewAcksReached(f);
    WindowFollowsReno(start, [], trace);
    Reno8(|f.acks|);
  }

  lemma FitsAtEnd(start: Endpoint, f: Endpoint)
    requires WindowFits(start, f) && f.iss == start.iss
    ensures WindowFits(f, f)
  {
  }

  lemma Reno8(k: nat)
    ensures Reno(8, k) == if k <= 3 then Pow2(k) else k + 5
  {
    Level8();
  }

  lemma NewWindow(start: Endpoint)
    requires StartsAlone(start)
    ensures Runs(start, []) && After(start, []) == start && start.acks == [] && start.timeouts == 0
    ensures start.tcb.sendWindowSize == 1 && start.tcb.ssthresh == 8 && FullyUsed(start.tcb)
  {
  }

  lemma FewAcksReached(f: Endpoint)
    requires Sound(f) && AckLog(f) && WindowFits(f, f)
    ensures |f.acks| + 32 < 0xFFFF_FFFF
  {
    FewAcks(f, f);
  }
}
