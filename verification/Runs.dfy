/** What holds over every run of one endpoint, against a network that may deliver any packet whatever. */
module SingleRuns {
  import opened Types
  import opened Session
  import opened Endpoints
  import opened Streams
  import opened Alignment
  import opened Reception
  import opened Network
  import opened Connection

  predicate StartsAlone(e: Endpoint) {
    e == New(e.iss, e.passive, e.tcb.recvWindowSize, e.tcb.lastAckReceived, e.tcb.autoCloseOnEof)
  }

  lemma StartSound(e: Endpoint)
    requires StartsAlone(e)
    ensures Sound(e) && AckLog(e) && e.acks == [] && e.accepted == [] && !e.established
  {
    NewSound(e);
  }

  lemma StepStaysSmall(e: Endpoint, ev: Event, final: Endpoint)
    requires StreamInv(e) && Possible(e, ev) && NoSecondLap(e, final) && Next(e, ev).accepted <= final.accepted
    ensures |Next(e, ev).accepted| < 0x1_0000_0000
  {
    if Base(e) >= CAPACITY {
      AcceptedSmall(e, ev);
    }
  }

  lemma {:induction false} RunGrows(e: Endpoint, trace: seq<Event>)
    requires Runs(e, trace)
    ensures e.accepted <= After(e, trace).accepted && After(e, trace).iss == e.iss
    decreases |trace|
  {
    hide Next;
    if trace == [] {
    } else {
      AcceptedGrows(e, trace[0]);
      RunGrows(Next(e, trace[0]), trace[1..]);
    }
  }

  lemma FirstEvent(e: Endpoint, trace: seq<Event>)
    requires Sound(e) && trace != [] && Runs(e, trace) && NoSecondLap(e, After(e, trace))
    ensures var f := Next(e, trace[0]);
      Sound(f) && |f.accepted| < 0x1_0000_0000 && NoSecondLap(f, After(e, trace))
  {
    hide Next, StreamInv, Phases, AllHonest;
    AcceptedGrows(e, trace[0]);
    RunGrows(Next(e, trace[0]), trace[1..]);
    StepStaysSmall(e, trace[0], After(e, trace));
    PhasesStep(e, trace[0]);
    StreamStep(e, trace[0]);
  }

  // Acknowledgments

  /** The accepted acknowledgments increase strictly, each releases at least a byte, the last one is `sendUnack`. */
  predicate AckLog(e: Endpoint) {
    && (forall i, j :: 0 <= i < j < |e.acks| ==> e.acks[i] < e.acks[j])
    && (e.acks != [] && e.tcb.state == ESTABLISHED ==> e.acks[|e.acks| - 1] == e.tcb.sendUnack)
    && |e.acks| <= Popped(e.tcb, e.accepted)
  }

  lemma DispatchUnack(e: Endpoint, packet: Packet)
    requires Sound(e) && e.tcb.state == ESTABLISHED && |e.accepted| < 0x1_0000_0000
    ensures HandleEstablished(e.tcb, packet).sendUnack ==
      if packet.flags.ack && AckAcceptable(e.tcb, packet.ackNum) then packet.ackNum else e.tcb.sendUnack
  {
    HandleAckAligned(e.tcb, ClaimsOf(e), packet);
    IncomingKeeps(Acked(e.tcb, packet), packet);
  }

  /** In ESTABLISHED `sendUnack` moves only to an acceptable acknowledgment. */
  lemma UnackStep(e: Endpoint, ev: Event)
    requires Sound(e) && Possible(e, ev) && e.tcb.state == ESTABLISHED && |e.accepted| < 0x1_0000_0000
    ensures Next(e, ev).tcb.sendUnack == if Acceptance(e, ev) then ev.packet.ackNum else e.tcb.sendUnack
  {
    hide Close, HandleEstablished, TrySend, Expire;
    match ev
    case Deliver(packet, intact) =>
      if intact && !packet.flags.rst {
        ToldSound(e, packet);
        DispatchUnack(e.(tcb := e.tcb.(peerWindow := packet.window)), packet);
      }
    case CallRecv(count) => CloseUnack(e.tcb.(recvBuffer := e.tcb.recvBuffer[ReadCount(e.tcb, count)..]));
    case CallClose => CloseUnack(e.tcb);
    case TimerExpires(handle) => ExpireKeeps(e.tcb, handle);
    case CallSend(data) => TrySendUnack(e.tcb.(sendBuffer := e.tcb.sendBuffer + data[..SendRoom(e.tcb, data)]));
    case _ =>
  }

  lemma TrySendUnack(t: Tcb)
    ensures TrySend(t).sendUnack == t.sendUnack && TrySend(t).dupAckCount == t.dupAckCount
  {
  }

  lemma CloseUnack(t: Tcb)
    ensures Close(t).sendUnack == t.sendUnack
  {
    hide TrySend;
    match t.state
    case ESTABLISHED => TrySendUnack(t);
    case CLOSE_WAIT =>
    case SYN_SENT =>
    case SYN_RECEIVED =>
    case _ =>
  }

  lemma AckLogStep(e: Endpoint, ev: Event)
    requires Sound(e) && AckLog(e) && Enabled(e, ev) && |Next(e, ev).accepted| < 0x1_0000_0000
    requires !e.established ==> e.acks == []
    ensures AckLog(Next(e, ev)) && (!Next(e, ev).established ==> Next(e, ev).acks == [])
  {
    hide Perform, StreamInv;
    AcceptedGrows(e, ev);
    PoppedStep(e, ev);
    PhasesStep(e, ev);
    if e.tcb.state == ESTABLISHED {
      UnackStep(e, ev);
      AlignedNow(e);
    } else {
      NotReestablished(e, ev);
    }
  }

  lemma AlignedNow(e: Endpoint)
    requires Sound(e) && OnStream(e)
    ensures Aligned(e.tcb, Base(e), e.accepted)
  {
  }

  lemma PacketReestablishes(e: Endpoint, packet: Packet)
    requires Phases(e) && e.tcb.state != ESTABLISHED && !SimultaneousOpen(e.tcb, packet)
    ensures Dispatch(e.tcb.(peerWindow := packet.window), packet, e.iss).state == ESTABLISHED ==> !e.established
  {
    hide Dispatch;
    DispatchState(e.tcb.(peerWindow := packet.window), packet, e.iss);
  }

  lemma SoundPositions(e: Endpoint)
    requires StreamInv(e)
    ensures Positions(e) && AllHonest(ClaimsOf(e), e.tcb)
  {
  }

  /** A session becomes established once. */
  lemma NotReestablished(e: Endpoint, ev: Event)
    requires Phases(e) && Enabled(e, ev) && e.tcb.state != ESTABLISHED
    ensures Next(e, ev).tcb.state == ESTABLISHED ==> !e.established
  {
    hide Dispatch, Phases;
    if !ev.Deliver? {
      hide Perform, Close;
      CallState(e.tcb, e.iss, ev);
      CloseState(e.tcb);
    } else if ev.intact && !ev.packet.flags.rst {
      PacketReestablishes(e, ev.packet);
    } else {
    }
  }

  lemma {:induction false} RunSound(e: Endpoint, trace: seq<Event>)
    requires Sound(e) && AckLog(e) && (!e.established ==> e.acks == [])
    requires Runs(e, trace) && NoSecondLap(e, After(e, trace)) && |e.accepted| < 0x1_0000_0000
    ensures var f := After(e, trace);
      Sound(f) && AckLog(f) && (!f.established ==> f.acks == []) && |f.accepted| < 0x1_0000_0000
    decreases |trace|
  {
    hide Next, Sound, AckLog;
    if trace == [] {
    } else {
      FirstEvent(e, trace);
      AckLogStep(e, trace[0]);
      RunSound(Next(e, trace[0]), trace[1..]);
    }
  }

  /** The send buffer is the accepted stream from `sendUnack` on, and the window lies inside it. */
  predicate WindowOnStream(f: Endpoint) {
    var released := f.tcb.sendUnack - Base(f);
    && 0 <= released <= |f.accepted|
    && f.tcb.sendBuffer == f.accepted[released..]
    && InFlight(f.tcb) <= |f.tcb.sendBuffer| <= CAPACITY
    && f.tcb.sendNext == Wrap32(Base(f) + released + InFlight(f.tcb))
  }

  /** Every data segment ever emitted is what the stream holds at its sequence number. */
  ghost predicate SegmentsAreSlices(f: Endpoint, bound: nat) {
    forall p :: p in f.tcb.out && p.payload != [] ==> IsSlice(Base(f), f.accepted, bound, p)
  }

  /**
   * Stream alignment, whatever packets arrive: it holds while the connection is on the stream, and segments are
   * slices in every state unless FIN_WAIT_1 has taken a FIN that acknowledged this side's own.
   */
  lemma {:induction false} AlwaysAligned(start: Endpoint, trace: seq<Event>)
    requires StartsAlone(start) && Runs(start, trace) && NoSecondLap(start, After(start, trace))
    ensures var f := After(start, trace);
      && (OnStream(f) ==> WindowOnStream(f) && SegmentsAreSlices(f, f.tcb.sendUnack - Base(f) + InFlight(f.tcb)))
      && (!f.shifted ==> SegmentsAreSlices(f, |f.accepted|))
  {
    hide WindowOnStream, SegmentsAreSlices, Sound, AckLog, StartsAlone, Runs, After, NoSecondLap, OnStream;
    StartSound(start);
    RunSound(start, trace);
    SlicesOf(After(start, trace));
  }

  lemma SlicesOf(f: Endpoint)
    requires Sound(f) && |f.accepted| < 0x1_0000_0000
    ensures OnStream(f) ==> WindowOnStream(f) && SegmentsAreSlices(f, f.tcb.sendUnack - Base(f) + InFlight(f.tcb))
    ensures !f.shifted ==> SegmentsAreSlices(f, |f.accepted|)
  {
    if OnStream(f) {
      NextOnStream(f.tcb, Base(f), f.accepted);
    }
    forall p | p in f.tcb.out && p.payload != [] && !f.shifted
      ensures IsSlice(Base(f), f.accepted, Bound(f), p)
    {
      SenderHonest(f, p);
    }
  }

  /** Accepted acknowledgments strictly increase, and the duplicate counter never exceeds one. */
  lemma {:induction false} AcksIncrease(start: Endpoint, trace: seq<Event>)
    requires StartsAlone(start) && Runs(start, trace) && NoSecondLap(start, After(start, trace))
    ensures var f := After(start, trace);
      && (forall i, j :: 0 <= i < j < |f.acks| ==> f.acks[i] < f.acks[j])
      && f.tcb.dupAckCount <= 1
  {
    NewSound(start);
    RunSound(start, trace);
  }

  /** So fast retransmit never happens: an acceptable acknowledgment only releases, counts, grows and sends. */
  lemma {:induction false} FastRetransmitUnreachable(start: Endpoint, trace: seq<Event>, packet: Packet)
    requires StartsAlone(start) && Runs(start, trace) && NoSecondLap(start, After(start, trace))
    requires After(start, trace).tcb.state == ESTABLISHED && AckAcceptable(After(start, trace).tcb, packet.ackNum)
    ensures
      var t := After(start, trace).tcb;
      var counted := CountDuplicates(Release(t, packet.ackNum), packet.ackNum);
      counted.dupAckCount < 3 && HandleAck(t, packet) == TrySend(Grow(counted))
  {
    NewSound(start);
    RunSound(start, trace);
    NoFastRetransmit(After(start, trace).tcb, packet.ackNum);
  }

  // The configured receive window

  /** With the configured receive window nothing waits out of order, so the draining loop never spins. */
  predicate NothingWaits(t: Tcb) {
    t.recvWindowSize <= 1 && t.ooo == map[] && !t.hung
  }

  lemma IncomingWaits(t: Tcb, packet: Packet)
    requires NothingWaits(t)
    ensures NothingWaits(HandleIncoming(t, packet))
  {
    if packet.seqNum == t.recvNext {
      assert Drain(Take(t, packet.payload)) == Take(t, packet.payload);
    } else {
      assert Store(t, packet) == t;
    }
  }

  lemma AckedKeepsWindow(t: Tcb, packet: Packet)
    ensures SameRecvSide(t, Acked(t, packet))
  {
    if packet.flags.ack {
      AckKeeps(t, packet);
      TrySendKeeps(HandleAck(t, packet));
    }
  }

  lemma EstablishedWaits(t: Tcb, packet: Packet)
    requires NothingWaits(t)
    ensures NothingWaits(HandleEstablished(t, packet))
  {
    AckedKeepsWindow(t, packet);
    if packet.payload != [] {
      IncomingWaits(Acked(t, packet), packet);
    }
  }

  lemma SettledWaits(t: Tcb, packet: Packet, iss: u32)
    requires NothingWaits(t) && t.state != ESTABLISHED
    ensures NothingWaits(Dispatch(t, packet, iss))
  {
    hide TrySend;
    match t.state
    case SYN_SENT =>
      if packet.flags.syn && AcksNext(t, packet) {
        TrySendKeeps(AnswerSynAck(t, packet).(state := ESTABLISHED));
      } else {
      }
    case SYN_RECEIVED => SynReceivedEmits(t, packet);
    case CLOSE_WAIT => CloseWaitEmits(t, packet);
    case FIN_WAIT_1 =>
      if AcksNext(t, packet) {
      } else {
      }
    case LAST_ACK =>
    case _ =>
  }

  lemma WaitsStep(e: Endpoint, ev: Event)
    requires NothingWaits(e.tcb) && Possible(e, ev)
    ensures NothingWaits(Next(e, ev).tcb)
  {
    hide TrySend, Close, Dispatch, Expire, HandleEstablished;
    match ev
    case Deliver(packet, intact) =>
      var told := e.tcb.(peerWindow := packet.window);
      if told.state == ESTABLISHED {
        EstablishedDispatch(told, packet, e.iss);
      } else {
        SettledWaits(told, packet, e.iss);
      }
    case CallRecv(count) => CloseEmits(e.tcb.(recvBuffer := e.tcb.recvBuffer[ReadCount(e.tcb, count)..]));
    case CallClose => CloseEmits(e.tcb);
    case TimerExpires(handle) => ExpireKeeps(e.tcb, handle);
    case CallSend(data) => TrySendKeeps(e.tcb.(sendBuffer := e.tcb.sendBuffer + data[..SendRoom(e.tcb, data)]));
    case _ =>
  }

  lemma EstablishedDispatch(t: Tcb, packet: Packet, iss: u32)
    requires NothingWaits(t) && t.state == ESTABLISHED
    ensures NothingWaits(Dispatch(t, packet, iss))
  {
    EstablishedWaits(t, packet);
  }

  /** With a receive window of one byte, the out-of-order map stays empty in every run and no run hangs. */
  lemma {:induction false} NeverWaits(e: Endpoint, trace: seq<Event>)
    requires NothingWaits(e.tcb) && Runs(e, trace)
    ensures NothingWaits(After(e, trace).tcb)
    decreases |trace|
  {
    hide Next, NothingWaits;
    if trace == [] {
    } else {
      WaitsStep(e, trace[0]);
      NeverWaits(Next(e, trace[0]), trace[1..]);
    }
  }
}
