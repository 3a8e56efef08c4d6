/** Segment boundaries across the network: what the receiver has and acknowledges always ends where a segment ends. */
module Boundaries {
  import opened Types
  import opened Session
  import opened Endpoints
  import opened Streams
  import opened Alignment
  import opened Reception
  import opened Network
  import opened Connection
  import opened SingleRuns
  import opened Segments
  import opened Tracking
  import BQ = BoundedQueue

  /** The stored piece is one whole segment. */
  ghost predicate WholePiece(base: u32, cuts: seq<nat>, key: u32, data: seq<u8>) {
    exists k: nat :: k + 1 < |cuts| && key == Start(base, cuts, k) && cuts[k] + |data| == cuts[k + 1]
  }

  /** The receiver has whole segments only, in order and out of order. */
  ghost predicate WholeSegments(t: Tcb, base: u32, cuts: seq<nat>, read: seq<u8>) {
    && |Delivered(t, read)| in cuts
    && forall k :: k in t.ooo ==> WholePiece(base, cuts, k, t.ooo[k])
  }

  lemma WholeAppended(t: Tcb, base: u32, cuts: seq<nat>, read: seq<u8>, last: int, data: seq<u8>)
    requires CutsUpTo(cuts, last) && last < 0x1_0000_0000 && WholeSegments(t, base, cuts, read)
    requires t.recvNext == Wrap32(base + |Delivered(t, read)|) && BQ.Fits(t.recvBuffer, CAPACITY, data)
    requires WholePiece(base, cuts, t.recvNext, data)
    ensures WholeSegments(Append(t, data), base, cuts, read)
    ensures Append(t, data).recvNext == Wrap32(base + |Delivered(Append(t, data), read)|)
  {
    var k: nat :| k + 1 < |cuts| && t.recvNext == Start(base, cuts, k) && cuts[k] + |data| == cuts[k + 1];
    var j :| 0 <= j < |cuts| && cuts[j] == |Delivered(t, read)|;
    assert Start(base, cuts, j) == Start(base, cuts, k);
    DistinctStarts(base, cuts, last, j, k);
    hide CutsUpTo, WholePiece, Start;
    assert |Delivered(Append(t, data), read)| == cuts[k + 1];
    WrapAdd(base + |Delivered(t, read)|, |data|);
  }

  lemma {:induction false} WholeDrained(t: Tcb, base: u32, cuts: seq<nat>, read: seq<u8>, last: int)
    requires CutsUpTo(cuts, last) && last < 0x1_0000_0000 && WholeSegments(t, base, cuts, read)
    requires t.recvNext == Wrap32(base + |Delivered(t, read)|)
    ensures WholeSegments(Drain(t), base, cuts, read)
    decreases t.ooo.Keys
  {
    hide CutsUpTo, WholePiece;
    if t.hung || !NextIsStored(t) {
    } else {
      var next, data := TakeStored(t), t.ooo[t.recvNext];
      if BQ.Fits(t.recvBuffer, CAPACITY, data) {
        WholeAppended(t, base, cuts, read, last, data);
        assert next.ooo == t.ooo - {t.recvNext};
        WholeDrained(next, base, cuts, read, last);
      }
    }
  }

  /** A whole segment, whenever it arrives, leaves the receiver at a boundary. */
  lemma {:induction false} WholeIncoming(t: Tcb, base: u32, cuts: seq<nat>, read: seq<u8>, last: int, packet: Packet)
    requires CutsUpTo(cuts, last) && last < 0x1_0000_0000 && WholeSegments(t, base, cuts, read)
    requires t.recvNext == Wrap32(base + |Delivered(t, read)|)
    requires WholePiece(base, cuts, packet.seqNum, packet.payload)
    ensures WholeSegments(HandleIncoming(t, packet), base, cuts, read)
  {
    hide CutsUpTo, WholePiece;
    if packet.seqNum == t.recvNext {
      if BQ.Fits(t.recvBuffer, CAPACITY, packet.payload) {
        WholeAppended(t, base, cuts, read, last, packet.payload);
      }
      WholeDrained(Take(t, packet.payload), base, cuts, read, last);
    } else {
      assert WholeSegments(Store(t, packet), base, cuts, read);
    }
  }

  // The system

  /**
   * While `s` is established: the byte count `r` has, every acknowledgment of `r` and the byte count `s` released
   * are segment boundaries of `s`, and what `r` stored are whole segments.
   */
  ghost predicate AtBoundaries(s: Endpoint, r: Endpoint) {
    s.tcb.state == ESTABLISHED ==>
      && Popped(s.tcb, s.accepted) in s.cuts
      && |DeliveredTo(r)| in s.cuts
      && (forall p :: p in r.tcb.out && p.flags.ack ==> Offset(Base(s), p.ackNum) in s.cuts)
      && (Active(r) ==> forall k :: k in r.tcb.ooo ==> WholePiece(Base(s), s.cuts, k, r.tcb.ooo[k]))
  }

  lemma LongerWholePiece(base: u32, cuts: seq<nat>, more: seq<nat>, key: u32, data: seq<u8>)
    requires WholePiece(base, cuts, key, data) && cuts <= more
    ensures WholePiece(base, more, key, data)
  {
    var k: nat :| k + 1 < |cuts| && key == Start(base, cuts, k) && cuts[k] + |data| == cuts[k + 1];
    assert key == Start(base, more, k);
  }

  /** Nothing has been sent: everything is at position 0. */
  lemma BoundariesAtStart(s: Endpoint, r: Endpoint, cuts: seq<nat>)
    requires Link(s, r) && Sound(s) && !s.established && cuts != [] && cuts[0] == 0
    ensures Popped(s.tcb, s.accepted) in cuts && |DeliveredTo(r)| in cuts
    ensures Active(s) ==> forall p :: p in r.tcb.out && p.flags.ack ==> Offset(Base(s), p.ackNum) in cuts
    ensures Active(r) ==> forall k :: k in r.tcb.ooo ==> WholePiece(Base(s), cuts, k, r.tcb.ooo[k])
  {
    assert 0 in cuts;
  }

  lemma CutsGrow(s: Endpoint, ev: Event)
    requires Possible(s, ev)
    ensures s.cuts <= Next(s, ev).cuts
  {
    hide Perform;
  }

  lemma ChartedCuts(f: Endpoint)
    requires Charting(f) && f.tcb.state == ESTABLISHED && f.begun
    ensures f.cuts != [] && f.cuts[0] == 0 && CutsUpTo(f.cuts, Sent(f.tcb, f.accepted))
  {
  }

  lemma SenderBoundaries(s: Endpoint, r: Endpoint, ev: Event)
    requires Sound(s) && Charting(s) && Link(s, r) && AtBoundaries(s, r)
    requires Enabled(s, ev) && Deliverable(r, ev)
    requires |s.accepted| <= |Next(s, ev).accepted| < 0x1_0000_0000
    ensures AtBoundaries(Next(s, ev), r)
  {
    hide Perform, StreamInv, Charting, Link, Next, WholePiece;
    var f := Next(s, ev);
    PoppedStep(s, ev);
    PhasesStep(s, ev);
    if f.tcb.state == ESTABLISHED {
      CutsGrow(s, ev);
      if s.tcb.state == ESTABLISHED {
        OngoingBoundaries(s, r, ev);
      } else {
        NotReestablished(s, ev);
        ChartingStep(s, ev);
        ChartedCuts(f);
        BoundariesAtStart(s, r, f.cuts);
      }
    }
  }

  lemma OngoingBoundaries(s: Endpoint, r: Endpoint, ev: Event)
    requires Sound(s) && AtBoundaries(s, r) && s.tcb.state == ESTABLISHED
    requires Enabled(s, ev) && Deliverable(r, ev) && s.cuts <= Next(s, ev).cuts
    requires Next(s, ev).iss == s.iss && s.accepted <= Next(s, ev).accepted
    requires Popped(Next(s, ev).tcb, Next(s, ev).accepted) ==
      if Acceptance(s, ev) then ev.packet.ackNum - Base(s) else Popped(s.tcb, s.accepted)
    ensures AtBoundaries(Next(s, ev), r)
  {
    hide Next, StreamInv, WholePiece;
    var f := Next(s, ev);
    if Acceptance(s, ev) {
      AlignedNow(s);
      assert Offset(Base(s), ev.packet.ackNum) == ev.packet.ackNum - Base(s);
    }
    forall k | Active(r) && k in r.tcb.ooo ensures WholePiece(Base(f), f.cuts, k, r.tcb.ooo[k]) {
      LongerWholePiece(Base(s), s.cuts, f.cuts, k, r.tcb.ooo[k]);
    }
  }

  // The receiver's step

  /** What an open sender's peer acknowledges is what it expects after the step, or what it expected before. */
  lemma DispatchAnswers(s: Endpoint, r: Endpoint, p: Packet)
    requires Sound(r) && !p.flags.fin && !SimultaneousOpen(r.tcb, p)
    ensures Answers(r, Moved(r, Dispatch(r.tcb, p, r.iss)))
  {
    hide TrySend, HandleEstablished, StreamInv;
    match r.tcb.state
    case LISTEN =>
    case SYN_SENT =>
      if p.flags.syn && AcksNext(r.tcb, p) {
        var v := AnswerSynAck(r.tcb, p).(state := ESTABLISHED);
        TrySendKeeps(v);
        TrySendEmits(v);
      } else {
      }
    case ESTABLISHED => EstablishedAnswers(r, p);
    case _ => SettledAnswers(r, p);
  }

  lemma SettledAnswers(r: Endpoint, p: Packet)
    requires Settled(r.tcb.state) && !p.flags.fin
    ensures Answers(r, Moved(r, Dispatch(r.tcb, p, r.iss)))
  {
    hide Dispatch;
    SettledDispatch(r.tcb, p, r.iss);
  }

  lemma InputAnswers(s: Endpoint, r: Endpoint, p: Packet)
    requires Sound(s) && Sound(r) && Active(s) && p in s.tcb.out && !p.flags.rst
    requires Enabled(r, Deliver(p, true))
    ensures Answers(r, Next(r, Deliver(p, true)))
  {
    hide Dispatch, StreamInv;
    SenderHonest(s, p);
    ToldSound(r, p);
    DispatchAnswers(s, r.(tcb := r.tcb.(peerWindow := p.window)), p);
  }

  lemma ReceiverAnswers(s: Endpoint, r: Endpoint, ev: Event)
    requires Sound(s) && Sound(r) && Active(s) && Enabled(r, ev) && Deliverable(s, ev)
    ensures Answers(r, Next(r, ev))
  {
    hide Dispatch, Perform, StreamInv;
    if !ev.Deliver? {
      LocalIdle(r, ev);
    } else if ev.intact && !ev.packet.flags.rst {
      InputAnswers(s, r, ev.packet);
    } else {
      DroppedAnswers(r, ev);
    }
  }

  lemma DroppedAnswers(r: Endpoint, ev: Event)
    requires Possible(r, ev) && ev.Deliver? && (!ev.intact || ev.packet.flags.rst)
    ensures Answers(r, Next(r, ev))
  {
  }

  lemma SegmentIsWhole(s: Endpoint, p: Packet)
    requires Charting(s) && s.begun && s.tcb.state == ESTABLISHED && p in s.tcb.out && p.payload != []
    ensures WholePiece(Base(s), s.cuts, p.seqNum, p.payload)
  {
    var k: nat :| SegmentAt(Base(s), s.cuts, k, p);
  }

  /** What an established receiver holds after a packet of an established sender. */
  lemma EstablishedWhole(s: Endpoint, r: Endpoint, p: Packet)
    requires Sound(s) && Sound(r) && Link(s, r) && Charting(s) && AtBoundaries(s, r)
    requires s.tcb.state == ESTABLISHED == r.tcb.state && |s.accepted| < 0x1_0000_0000 && p in s.tcb.out
    ensures WholeSegments(HandleEstablished(r.tcb, p), Base(s), s.cuts, r.readOut)
  {
    hide Acked, HandleIncoming, StreamInv, WholePiece, Charting;
    ReceivingNow(s, r);
    AckedReceives(s, r, p);
    ChartedCuts(s);
    AlignedNow(s);
    if p.payload != [] {
      SegmentIsWhole(s, p);
      WholeIncoming(Acked(r.tcb, p), Base(s), s.cuts, r.readOut, Sent(s.tcb, s.accepted), p);
    }
  }

  lemma OtherDispatchTakes(t: Tcb, p: Packet, iss: u32)
    requires t.state != ESTABLISHED && !SimultaneousOpen(t, p)
    ensures Dispatch(t, p, iss).recvBuffer == t.recvBuffer && Dispatch(t, p, iss).ooo == t.ooo
  {
    hide TrySend;
    if Settled(t.state) {
      SettledDispatch(t, p, iss);
    } else if t.state == SYN_SENT && p.flags.syn && AcksNext(t, p) {
      TrySendKeeps(AnswerSynAck(t, p).(state := ESTABLISHED));
    } else {
    }
  }

  /** What the receiver holds after any event, as far as boundaries are concerned. */
  lemma ReceivedWhole(s: Endpoint, r: Endpoint, ev: Event)
    requires Sound(s) && Sound(r) && Link(s, r) && Charting(s) && AtBoundaries(s, r)
    requires s.tcb.state == ESTABLISHED && |s.accepted| < 0x1_0000_0000
    requires Enabled(r, ev) && Deliverable(s, ev)
    ensures var f := Next(r, ev);
      && |DeliveredTo(f)| in s.cuts
      && (Active(f) ==> forall k :: k in f.tcb.ooo ==> WholePiece(Base(s), s.cuts, k, f.tcb.ooo[k]))
  {
    hide Dispatch, StreamInv, WholePiece, Charting, Link, Close, Send, Expire, HandleEstablished;
    PhasesStep(r, ev);
    if ev.Deliver? {
      if ev.intact && !ev.packet.flags.rst && (ev.packet.flags.ack || ev.packet.flags.syn || ev.packet.flags.fin) {
        ToldSound(r, ev.packet);
        ToldBoundaries(s, r, ev.packet);
        DispatchWhole(s, r.(tcb := r.tcb.(peerWindow := ev.packet.window)), ev.packet);
      }
    } else {
      LocalIdle(r, ev);
    }
  }

  lemma ToldBoundaries(s: Endpoint, r: Endpoint, p: Packet)
    requires Link(s, r) && AtBoundaries(s, r)
    ensures Link(s, r.(tcb := r.tcb.(peerWindow := p.window)))
    ensures AtBoundaries(s, r.(tcb := r.tcb.(peerWindow := p.window)))
  {
  }

  lemma DispatchWhole(s: Endpoint, r: Endpoint, p: Packet)
    requires Sound(s) && Sound(r) && Link(s, r) && Charting(s) && AtBoundaries(s, r)
    requires s.tcb.state == ESTABLISHED && |s.accepted| < 0x1_0000_0000
    requires p in s.tcb.out && !SimultaneousOpen(r.tcb, p)
    ensures var u := Dispatch(r.tcb, p, r.iss);
      && |Delivered(u, r.readOut)| in s.cuts
      && (Active(r) ==> forall k :: k in u.ooo ==> WholePiece(Base(s), s.cuts, k, u.ooo[k]))
  {
    hide HandleEstablished, StreamInv, WholePiece, Charting, Link;
    if r.tcb.state == ESTABLISHED {
      EstablishedWhole(s, r, p);
    } else {
      OtherDispatchTakes(r.tcb, p, r.iss);
    }
  }

  lemma ReceiverBoundaries(s: Endpoint, r: Endpoint, ev: Event)
    requires Sound(s) && Sound(r) && Link(s, r) && Charting(s) && AtBoundaries(s, r)
    requires Enabled(r, ev) && Deliverable(s, ev) && |s.accepted| < 0x1_0000_0000
    requires Link(s, Next(r, ev)) && Sound(Next(r, ev))
    ensures AtBoundaries(s, Next(r, ev))
  {
    hide Next, StreamInv, WholePiece, Charting;
    if s.tcb.state == ESTABLISHED {
      ReceivedWhole(s, r, ev);
      ReceiverAnswers(s, r, ev);
      var f := Next(r, ev);
      forall p | p in f.tcb.out && p.flags.ack ensures Offset(Base(s), p.ackNum) in s.cuts {
        AnswerAtBoundary(s, r, f, p);
      }
    }
  }

  lemma AnswerAtBoundary(s: Endpoint, r: Endpoint, f: Endpoint, p: Packet)
    requires Sound(f) && Link(s, r) && Link(s, f) && Answers(r, f) && AtBoundaries(s, r)
    requires s.tcb.state == ESTABLISHED && Active(s) && |s.accepted| < 0x1_0000_0000
    requires |DeliveredTo(f)| in s.cuts && p in f.tcb.out && p.flags.ack
    ensures Offset(Base(s), p.ackNum) in s.cuts
  {
    hide StreamInv, Stored, Acknowledges;
    SenderHonest(f, p);
    OffsetOfPosition(Base(s), |DeliveredTo(r)|);
    OffsetOfPosition(Base(s), |DeliveredTo(f)|);
    var i :| 0 <= i < |f.tcb.out| && f.tcb.out[i] == p;
    if i < |r.tcb.out| {
      assert p == r.tcb.out[i];
    }
  }

  ghost predicate BoundaryInv(s: System) {
    && Consistent(s) && Small(s)
    && Charting(s.client) && Charting(s.server)
    && AtBoundaries(s.client, s.server) && AtBoundaries(s.server, s.client)
  }

  lemma SideBoundaries(e: Endpoint, peer: Endpoint, ev: Event)
    requires Sound(e) && Sound(peer) && Link(e, peer) && Link(peer, e) && e.passive != peer.passive
    requires Charting(e) && Charting(peer) && AtBoundaries(e, peer) && AtBoundaries(peer, e)
    requires Possible(e, ev) && Deliverable(peer, ev)
    requires |Next(e, ev).accepted| < 0x1_0000_0000 && |peer.accepted| < 0x1_0000_0000
    ensures var f := Next(e, ev);
      Charting(f) && AtBoundaries(f, peer) && AtBoundaries(peer, f)
  {
    hide Next, StreamInv, Link, Charting, AtBoundaries, Phases;
    NoSimultaneousOpen(e, peer, ev);
    AcceptedGrows(e, ev);
    SideStep(e, peer, ev);
    ChartingStep(e, ev);
    SenderBoundaries(e, peer, ev);
    ReceiverBoundaries(peer, e, ev);
  }

  lemma BoundaryStep(s: System, turn: Turn)
    requires BoundaryInv(s) && CanStep(s, turn) && Small(Step(s, turn))
    ensures BoundaryInv(Step(s, turn))
  {
    hide Next, Sound, Link, Charting, AtBoundaries;
    SystemStep(s, turn);
    if turn.atClient {
      SideBoundaries(s.client, s.server, turn.event);
    } else {
      SideBoundaries(s.server, s.client, turn.event);
    }
  }

  lemma {:induction false} RunBoundaries(s: System, trace: seq<Turn>)
    requires BoundaryInv(s) && SystemRuns(s, trace) && NoLap(s, SystemAfter(s, trace))
    ensures BoundaryInv(SystemAfter(s, trace))
    decreases |trace|
  {
    hide Consistent, Small, NoLap, Step, CanStep, Charting, AtBoundaries;
    if trace == [] {
    } else {
      FirstStep(s, trace);
      BoundaryStep(s, trace[0]);
      RunBoundaries(Step(s, trace[0]), trace[1..]);
    }
  }

  /**
   * From some cut on, the segments are exactly those between `sendUnack` and `sendNext`; the peer's `recvNext` and
   * every acknowledgment under way stand at cuts as well.
   */
  ghost predicate Partitioned(s: Endpoint, r: Endpoint) {
    && CutsUpTo(s.cuts, s.tcb.sendUnack - Base(s) + InFlight(s.tcb))
    && s.tcb.sendUnack - Base(s) in s.cuts
    && Offset(Base(s), r.tcb.recvNext) in s.cuts
    && (forall p :: p in r.tcb.out && p.flags.ack ==> Offset(Base(s), p.ackNum) in s.cuts)
  }

  lemma InvPartitions(s: Endpoint, r: Endpoint)
    requires Sound(s) && Link(s, r) && Charting(s) && AtBoundaries(s, r) && |s.accepted| < 0x1_0000_0000
    requires s.tcb.state == ESTABLISHED && r.synced
    ensures Partitioned(s, r) && SegmentsTracked(s)
  {
    hide Stored, Acknowledges, StreamInv, Charting, SegmentsTracked;
    AlignedNow(s);
    ChartedCuts(s);
    ChartedTracks(s);
    OffsetOfPosition(Base(s), |DeliveredTo(r)|);
  }

  /** In every run of the system, for each side that is established. */
  lemma AcksAtBoundaries(start: System, trace: seq<Turn>)
    requires Starts(start) && SystemRuns(start, trace)
    requires NoLap(start, SystemAfter(start, trace))
    ensures var f := SystemAfter(start, trace);
      && (f.client.tcb.state == ESTABLISHED ==> Partitioned(f.client, f.server) && SegmentsTracked(f.client))
      && (f.server.tcb.state == ESTABLISHED ==> Partitioned(f.server, f.client) && SegmentsTracked(f.server))
  {
    hide Partitioned, SegmentsTracked, AtBoundaries, Charting, Link, Sound;
    StartsConsistent(start);
    NewCharting(start.client);
    NewCharting(start.server);
    NotYetAtBoundaries(start);
    RunBoundaries(start, trace);
    PeersSynced(start, trace);
    var f := SystemAfter(start, trace);
    if f.client.tcb.state == ESTABLISHED {
      EstablishedNow(f.client);
      InvPartitions(f.client, f.server);
    }
    if f.server.tcb.state == ESTABLISHED {
      EstablishedNow(f.server);
      InvPartitions(f.server, f.client);
    }
  }

  lemma EstablishedNow(e: Endpoint)
    requires Sound(e) && e.tcb.state == ESTABLISHED
    ensures e.established
  {
  }

  lemma NotYetAtBoundaries(start: System)
    requires Starts(start)
    ensures AtBoundaries(start.client, start.server) && AtBoundaries(start.server, start.client)
  {
  }
}
