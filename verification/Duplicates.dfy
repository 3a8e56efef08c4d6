/** The duplicate counter over whole runs: what it counts, and why it never reaches three. */
module Duplicates {
  import opened Types
  import opened Session
  import opened Endpoints
  import opened Streams
  import opened Alignment
  import opened Network
  import opened Connection
  import opened SingleRuns
  import opened Window
  import opened WindowRuns
  import opened Effects

  /** The counter moves with an accepted acknowledgment only: a new maximum resets it, an equal number counts. */
  predicate Counts(t: Tcb, u: Tcb, accepted: bool, ackNum: u32) {
    && u.lastAckReceived == (if accepted && t.lastAckReceived < ackNum then ackNum else t.lastAckReceived)
    && u.dupAckCount == if accepted && t.lastAckReceived < ackNum then 0
                        else if accepted && t.lastAckReceived == ackNum then t.dupAckCount + 1
                        else t.dupAckCount
  }

  lemma AcceptingCounts(t: Tcb, u: Tcb, ackNum: u32)
    requires t.sendUnack < ackNum && Accepts(t, u, ackNum)
    ensures Counts(t, u, true, ackNum)
  {
  }

  lemma SendingCounts(t: Tcb, u: Tcb)
    ensures SendsMore(t, u) ==> Counts(t, u, false, 0)
  {
  }

  lemma EstablishedCounts(t: Tcb, p: Packet, iss: u32)
    requires t.state == ESTABLISHED && Heard(p) && FewDuplicates(t)
    ensures Counts(t, Input(t, p, true, iss), p.flags.ack && AckAcceptable(t, p.ackNum), p.ackNum)
  {
    hide Input, SendsMore, Accepts;
    var accepted, tried, acked, fed := EstablishedEffect(t, p, iss);
    if p.flags.ack {
      if AckAcceptable(t, p.ackNum) {
        AcceptingCounts(t.(peerWindow := p.window), accepted, p.ackNum);
        SendingCounts(accepted, tried);
      }
      SendingCounts(tried, acked);
    }
  }

  lemma SettledCounts(t: Tcb, p: Packet, iss: u32)
    requires t.state != ESTABLISHED && Heard(p)
    ensures Counts(t, Input(t, p, true, iss), false, 0)
  {
    hide Input, Quiets, Guards, GuardsOnly, SendsMore, TrySend;
    match t.state
    case CLOSED => ClosedForgets(t, p, iss);
    case LISTEN => ListenAnswersSyn(t, p, iss);
    case SYN_SENT =>
      var synced := SynSentEnds(t, p, iss);
      SendingCounts(synced, Input(t, p, true, iss));
    case SYN_RECEIVED =>
      var synced := SynReceivedEnds(t, p, iss);
      SendingCounts(synced, Input(t, p, true, iss));
    case FIN_WAIT_1 => var _ := FinWait1Ends(t, p, iss);
    case FIN_WAIT_2 => FinWait2Ends(t, p, iss);
    case CLOSE_WAIT =>
      CloseWaitEnds(t, p, iss);
      SendingCounts(SendPureAck(t.(peerWindow := p.window), t.recvNext), Input(t, p, true, iss));
    case LAST_ACK => LastAckEnds(t, p, iss);
    case TIME_WAIT => TimeWaitAnswers(t, p, iss);
  }

  lemma PacketCounts(e: Endpoint, p: Packet, intact: bool)
    requires Sound(e)
    ensures Counts(e.tcb, Input(e.tcb, p, intact, e.iss), Acceptance(e, Deliver(p, intact)), p.ackNum)
  {
    hide StreamInv, Dispatch;
    if intact && Heard(p) {
      if e.tcb.state == ESTABLISHED {
        SoundPositions(e);
        EstablishedCounts(e.tcb, p, e.iss);
      } else {
        SettledCounts(e.tcb, p, e.iss);
      }
    }
  }

  lemma CloseCounts(t: Tcb)
    ensures Counts(t, Close(t), false, 0)
  {
    hide Close, Guards, GuardsOnly, QuietsAll;
    if t.state == ESTABLISHED {
      var _ := CloseEstablished(t);
    } else if t.state == CLOSE_WAIT {
      CloseAfterPeer(t);
    } else {
      CloseElsewhere(t);
    }
  }

  lemma CountStep(e: Endpoint, ev: Event)
    requires Sound(e) && Enabled(e, ev)
    ensures Counts(e.tcb, Next(e, ev).tcb, Acceptance(e, ev), if ev.Deliver? then ev.packet.ackNum else 0)
  {
    hide Close, Input, TrySend, StreamInv, Expire, Guards;
    match ev
    case TimerExpires(h) =>
      if TimesOut(e.tcb, ev) {
        TimeoutSends(e.tcb, h);
      } else {
        GivesUp(e.tcb, h);
      }
    case Deliver(packet, intact) => PacketCounts(e, packet, intact);
    case CallSend(data) => TrySendSends(e.tcb.(sendBuffer := e.tcb.sendBuffer + data[..SendRoom(e.tcb, data)]));
    case CallRecv(count) => CloseCounts(e.tcb.(recvBuffer := e.tcb.recvBuffer[ReadCount(e.tcb, count)..]));
    case CallClose => CloseCounts(e.tcb);
    case _ =>
  }

  /** Since `first` was drawn for it: the counter holds the maximum, and one duplicate of `first` at most. */
  predicate Counted(e: Endpoint, first: u32) {
    if e.acks == [] then e.tcb.lastAckReceived == first && e.tcb.dupAckCount == 0
    else
      var last := e.acks[|e.acks| - 1];
      && e.tcb.lastAckReceived == (if first < last then last else first)
      && e.tcb.dupAckCount == if last == first then 1 else 0
  }

  lemma CountedStep(e: Endpoint, ev: Event, first: u32)
    requires Sound(e) && AckLog(e) && Counted(e, first) && Enabled(e, ev) && |e.accepted| < 0x1_0000_0000
    ensures Counted(Next(e, ev), first)
  {
    hide Next, Sound;
    AcksStep(e, ev);
    CountStep(e, ev);
  }

  lemma {:induction false} RunCounted(e: Endpoint, trace: seq<Event>, first: u32)
    requires Sound(e) && AckLog(e) && (!e.established ==> e.acks == []) && |e.accepted| < 0x1_0000_0000
    requires Runs(e, trace) && NoSecondLap(e, After(e, trace)) && Counted(e, first)
    ensures Counted(After(e, trace), first)
    decreases |trace|
  {
    hide Next, Sound, AckLog, Counted;
    if trace == [] {
    } else {
      FirstEvent(e, trace);
      AckLogStep(e, trace[0]);
      CountedStep(e, trace[0], first);
      RunCounted(Next(e, trace[0]), trace[1..], first);
    }
  }

  /**
   * In every run, `last_ack_received_` is the greater of its random initial value and the last accepted acknowledgment,
   * and one duplicate is counted exactly while that acknowledgment equals the initial value: duplicates that a peer
   * sends are not counted at all.
   */
  lemma {:induction false} DuplicatesCounted(start: Endpoint, trace: seq<Event>)
    requires StartsAlone(start) && Runs(start, trace) && NoSecondLap(start, After(start, trace))
    ensures var f, first := After(start, trace), start.tcb.lastAckReceived;
      && (f.acks == [] ==> f.tcb.lastAckReceived == first && f.tcb.dupAckCount == 0)
      && (f.acks != [] ==>
            var last := f.acks[|f.acks| - 1];
            && f.tcb.lastAckReceived == (if first < last then last else first)
            && f.tcb.dupAckCount == if last == first then 1 else 0)
  {
    hide Sound, AckLog, Runs, After, NoSecondLap;
    StartSound(start);
    StartsCounted(start);
    RunCounted(start, trace, start.tcb.lastAckReceived);
  }

  lemma StartsCounted(e: Endpoint)
    requires StartsAlone(e)
    ensures Counted(e, e.tcb.lastAckReceived)
  {
  }
}
