/** What holds over every run of a client, a server and the network between them. */
module Connection {
  import opened Types
  import opened Session
  import opened Endpoints
  import opened Streams
  import opened Alignment
  import opened Reception
  import opened Network

  function Step(s: System, turn: Turn): System
    requires CanStep(s, turn)
  {
    if turn.atClient then s.(client := Next(s.client, turn.event)) else s.(server := Next(s.server, turn.event))
  }

  predicate SystemRuns(s: System, trace: seq<Turn>)
    decreases |trace|
  {
    trace == [] || (CanStep(s, trace[0]) && SystemRuns(Step(s, trace[0]), trace[1..]))
  }

  function SystemAfter(s: System, trace: seq<Turn>): System
    requires SystemRuns(s, trace)
    decreases |trace|
  {
    if trace == [] then s else SystemAfter(Step(s, trace[0]), trace[1..])
  }

  /** Two new sessions. Receive windows, initial numbers and the auto-close flags are arbitrary. */
  predicate Starts(s: System) {
    && s.client == New(s.client.iss, false, s.client.tcb.recvWindowSize, s.client.tcb.lastAckReceived,
                       s.client.tcb.autoCloseOnEof)
    && s.server == New(s.server.iss, true, s.server.tcb.recvWindowSize, s.server.tcb.lastAckReceived,
                       s.server.tcb.autoCloseOnEof)
  }

  /**
   * A stream's positions stay below 2^32. It is enough that the first data byte's sequence number is at least 1024:
   * acknowledgments stop being acceptable where `sendNext` wraps, and one more buffer is all `send` takes then.
   */
  predicate NoSecondLap(start: Endpoint, final: Endpoint) {
    Base(start) >= CAPACITY || |final.accepted| < 0x1_0000_0000
  }

  predicate Small(s: System) {
    |s.client.accepted| < 0x1_0000_0000 && |s.server.accepted| < 0x1_0000_0000
  }

  lemma AcceptedGrows(e: Endpoint, ev: Event)
    requires Possible(e, ev)
    ensures e.accepted <= Next(e, ev).accepted && Next(e, ev).iss == e.iss
  {
    hide Perform;
  }

  lemma SendFits(t: Tcb, data: seq<u8>)
    ensures data != [] ==> Send(t, data).sendBuffer == t.sendBuffer + data[..SendRoom(t, data)]
  {
    if data != [] {
      TrySendIsPayload(t.(sendBuffer := t.sendBuffer + data[..SendRoom(t, data)]));
    }
  }

  /** `send` takes a prefix of the data, and leaves something only when the buffer is full. */
  lemma SendTakesWhatFits(t: Tcb, data: seq<u8>)
    requires data != []
    ensures var n := SendRoom(t, data);
      && n <= |data| && Send(t, data).sendBuffer == t.sendBuffer + data[..n]
      && (n == |data| || |Send(t, data).sendBuffer| == CAPACITY)
  {
    SendFits(t, data);
  }

  /** An endpoint that starts high enough never accepts 2^32 bytes. */
  lemma AcceptedSmall(e: Endpoint, ev: Event)
    requires StreamInv(e) && Possible(e, ev) && Base(e) >= CAPACITY
    ensures |Next(e, ev).accepted| < 0x1_0000_0000
  {
  }

  lemma NewSound(e: Endpoint)
    requires e == New(e.iss, e.passive, e.tcb.recvWindowSize, e.tcb.lastAckReceived, e.tcb.autoCloseOnEof)
    ensures Sound(e)
  {
  }

  lemma StartsConsistent(s: System)
    requires Starts(s)
    ensures Consistent(s)
  {
    NewSound(s.client);
    NewSound(s.server);
  }

  /** In a system of a client and a server no simultaneous open arises. */
  lemma NoSimultaneousOpen(e: Endpoint, peer: Endpoint, ev: Event)
    requires Sound(e) && Sound(peer) && e.passive != peer.passive
    requires Possible(e, ev) && Deliverable(peer, ev)
    ensures Enabled(e, ev)
  {
    if ev.Deliver? && ev.intact && !ev.packet.flags.rst {
      SenderHonest(peer, ev.packet);
    }
  }

  lemma SideStep(e: Endpoint, peer: Endpoint, ev: Event)
    requires Sound(e) && Sound(peer) && Link(e, peer) && Link(peer, e) && e.passive != peer.passive
    requires Possible(e, ev) && Deliverable(peer, ev)
    requires |Next(e, ev).accepted| < 0x1_0000_0000 && |peer.accepted| < 0x1_0000_0000
    ensures var f := Next(e, ev);
      Sound(f) && Link(f, peer) && Link(peer, f) && f.passive == e.passive
  {
    hide StreamInv, Phases, Link, Perform;
    AcceptedGrows(e, ev);
    NoSimultaneousOpen(e, peer, ev);
    PhasesStep(e, ev);
    StreamStep(e, ev);
    SenderStep(e, peer, ev);
    ReceiverStep(peer, e, ev);
  }

  lemma {:induction false} SystemStep(s: System, turn: Turn)
    requires Consistent(s) && CanStep(s, turn) && Small(Step(s, turn))
    ensures Consistent(Step(s, turn))
  {
    hide Sound, Link, Next;
    if turn.atClient {
      SideStep(s.client, s.server, turn.event);
    } else {
      SideStep(s.server, s.client, turn.event);
    }
  }

  lemma {:induction false} SystemGrows(s: System, trace: seq<Turn>)
    requires SystemRuns(s, trace)
    ensures var f := SystemAfter(s, trace);
      && s.client.accepted <= f.client.accepted && f.client.iss == s.client.iss
      && s.server.accepted <= f.server.accepted && f.server.iss == s.server.iss
    decreases |trace|
  {
    if trace == [] {
    } else {
      AcceptedGrows(if trace[0].atClient then s.client else s.server, trace[0].event);
      SystemGrows(Step(s, trace[0]), trace[1..]);
    }
  }

  lemma StepSmall(s: System, turn: Turn, final: System)
    requires Consistent(s) && CanStep(s, turn) && Small(s)
    requires NoSecondLap(s.client, final.client) && NoSecondLap(s.server, final.server)
    requires Step(s, turn).client.accepted <= final.client.accepted
    requires Step(s, turn).server.accepted <= final.server.accepted
    ensures Small(Step(s, turn))
  {
    hide Next;
    var e := if turn.atClient then s.client else s.server;
    if Base(e) >= CAPACITY {
      AcceptedSmall(e, turn.event);
    }
  }

  predicate NoLap(s: System, final: System) {
    NoSecondLap(s.client, final.client) && NoSecondLap(s.server, final.server)
  }

  lemma FirstStep(s: System, trace: seq<Turn>)
    requires Consistent(s) && Small(s) && trace != [] && SystemRuns(s, trace) && NoLap(s, SystemAfter(s, trace))
    ensures var next := Step(s, trace[0]);
      Consistent(next) && Small(next) && NoLap(next, SystemAfter(s, trace))
  {
    hide Consistent, Next;
    var next := Step(s, trace[0]);
    AcceptedGrows(if trace[0].atClient then s.client else s.server, trace[0].event);
    SystemGrows(next, trace[1..]);
    StepSmall(s, trace[0], SystemAfter(s, trace));
    SystemStep(s, trace[0]);
  }

  lemma {:induction false} RunConsistent(s: System, trace: seq<Turn>)
    requires Consistent(s) && Small(s) && SystemRuns(s, trace) && NoLap(s, SystemAfter(s, trace))
    ensures Consistent(SystemAfter(s, trace)) && Small(SystemAfter(s, trace))
    decreases |trace|
  {
    hide Consistent, Small, NoLap, Step, CanStep;
    if trace == [] {
    } else {
      FirstStep(s, trace);
      RunConsistent(Step(s, trace[0]), trace[1..]);
    }
  }

  /** Every reachable system is consistent, under arbitrary loss, duplication, reordering and timing. */
  lemma {:induction false} AlwaysConsistent(start: System, trace: seq<Turn>)
    requires Starts(start) && SystemRuns(start, trace)
    requires NoLap(start, SystemAfter(start, trace))
    ensures Consistent(SystemAfter(start, trace)) && Small(SystemAfter(start, trace))
  {
    StartsConsistent(start);
    RunConsistent(start, trace);
  }

  /**
   * Reliable transmission: what the server's application read, followed by what waits in its receive buffer, is a
   * prefix of what the client's `send` accepted, and the other way round.
   */
  lemma {:induction false} DeliveryIsPrefix(start: System, trace: seq<Turn>)
    requires Starts(start) && SystemRuns(start, trace)
    requires NoLap(start, SystemAfter(start, trace))
    ensures var f := SystemAfter(start, trace);
      && f.server.readOut + f.server.tcb.recvBuffer <= f.client.accepted
      && f.client.readOut + f.client.tcb.recvBuffer <= f.server.accepted
  {
    AlwaysConsistent(start, trace);
  }

  // The handshake

  /** The server is established only after the client, and either side only after the other has its number. */
  predicate Agreement(s: System) {
    && (s.server.established ==> s.client.established)
    && (s.client.established ==> s.server.synced)
  }

  lemma OnlyPacketsEstablish(e: Endpoint, ev: Event)
    requires Sound(e) && Enabled(e, ev) && !e.established && !ev.Deliver?
    ensures !Next(e, ev).established
  {
    hide Perform, Close;
    CallState(e.tcb, e.iss, ev);
    CloseState(e.tcb);
  }

  lemma EstablishedBy(e: Endpoint, peer: Endpoint, ev: Event)
    requires Sound(e) && Enabled(e, ev) && Deliverable(peer, ev)
    requires !e.established && Next(e, ev).established
    ensures ev.Deliver? && ev.packet in peer.tcb.out && AcksNext(e.tcb, ev.packet)
    ensures e.tcb.state == if e.passive then SYN_RECEIVED else SYN_SENT
  {
    hide StreamInv, TrySend, HandleEstablished, HandleListen, HandleCloseWait;
    if ev.Deliver? {
      DispatchState(e.tcb.(peerWindow := ev.packet.window), ev.packet, e.iss);
    } else {
      OnlyPacketsEstablish(e, ev);
    }
  }

  /** The packet that establishes a session was sent by a peer that had this side's number. */
  lemma EstablishedPeerSynced(e: Endpoint, peer: Endpoint, ev: Event)
    requires Sound(e) && Sound(peer) && Enabled(e, ev) && Deliverable(peer, ev)
    requires !e.established && Next(e, ev).established
    ensures peer.synced
  {
    hide Next, StreamInv, Phases;
    EstablishedBy(e, peer, ev);
    SenderHonest(peer, ev.packet);
  }

  lemma SyncedStays(e: Endpoint, ev: Event)
    requires Possible(e, ev)
    ensures (e.synced ==> Next(e, ev).synced) && (e.established ==> Next(e, ev).established)
  {
    hide Perform;
  }

  lemma AgreementStep(s: System, turn: Turn)
    requires Consistent(s) && Agreement(s) && CanStep(s, turn)
    ensures Agreement(Step(s, turn))
  {
    hide Next, StreamInv, Link;
    var e, peer := if turn.atClient then s.client else s.server, if turn.atClient then s.server else s.client;
    NoSimultaneousOpen(e, peer, turn.event);
    SyncedStays(e, turn.event);
    if !e.established && Next(e, turn.event).established {
      EstablishedPeerSynced(e, peer, turn.event);
      SyncedClient(s.client);
    }
  }

  /** A client that has its peer's number is established. */
  lemma SyncedClient(c: Endpoint)
    requires Sound(c) && !c.passive
    ensures c.synced ==> c.established
  {
  }

  lemma {:induction false} RunAgreement(s: System, trace: seq<Turn>)
    requires Consistent(s) && Small(s) && SystemRuns(s, trace) && NoLap(s, SystemAfter(s, trace))
    requires Agreement(s)
    ensures Agreement(SystemAfter(s, trace))
    decreases |trace|
  {
    hide Consistent, Small, NoLap, Step, Agreement;
    if trace == [] {
    } else {
      FirstStep(s, trace);
      AgreementStep(s, trace[0]);
      RunAgreement(Step(s, trace[0]), trace[1..]);
    }
  }

  lemma AgreementHolds(start: System, trace: seq<Turn>)
    requires Starts(start) && SystemRuns(start, trace)
    requires NoLap(start, SystemAfter(start, trace))
    ensures Agreement(SystemAfter(start, trace))
  {
    StartsConsistent(start);
    RunAgreement(start, trace);
  }

  /** Handshake agreement over every run. */
  lemma {:induction false} ServerFollowsClient(start: System, trace: seq<Turn>)
    requires Starts(start) && SystemRuns(start, trace)
    requires NoLap(start, SystemAfter(start, trace))
    ensures SystemAfter(start, trace).server.established ==> SystemAfter(start, trace).client.established
  {
    AgreementHolds(start, trace);
  }

  /** And an established side's peer always has that side's number. */
  lemma {:induction false} PeersSynced(start: System, trace: seq<Turn>)
    requires Starts(start) && SystemRuns(start, trace)
    requires NoLap(start, SystemAfter(start, trace))
    ensures var f := SystemAfter(start, trace);
      && (f.client.established ==> f.server.synced)
      && (f.server.established ==> f.client.synced)
  {
    hide SystemRuns, SystemAfter, NoLap, Starts, Sound, Link;
    AlwaysConsistent(start, trace);
    AgreementHolds(start, trace);
    EstablishedSynced(SystemAfter(start, trace).client);
  }

  lemma EstablishedSynced(e: Endpoint)
    requires Sound(e)
    ensures e.established ==> e.synced
  {
  }

  // Acknowledgments

  /** `sendUnack`, the peer's `recvNext` and `sendNext`, as positions in the stream, are in this order. */
  ghost predicate AcksSound(s: Endpoint, r: Endpoint) {
    s.tcb.state == ESTABLISHED ==>
      var has := Offset(Base(s), r.tcb.recvNext);
      && s.tcb.sendUnack == Base(s) + Popped(s.tcb, s.accepted)
      && s.tcb.sendNext == Wrap32(Base(s) + Sent(s.tcb, s.accepted))
      && 0 <= Popped(s.tcb, s.accepted) <= has <= Sent(s.tcb, s.accepted)
      && s.accepted[..Popped(s.tcb, s.accepted)] <= DeliveredTo(r) <= s.accepted
      && forall p :: p in r.tcb.out && p.flags.ack ==> Offset(Base(s), p.ackNum) <= has
  }

  lemma LinkAcksSound(s: Endpoint, r: Endpoint)
    requires Sound(s) && Link(s, r) && |s.accepted| < 0x1_0000_0000 && (s.established ==> r.synced)
    ensures AcksSound(s, r)
  {
    if s.tcb.state == ESTABLISHED {
      OffsetOfPosition(Base(s), |DeliveredTo(r)|);
      NextOnStream(s.tcb, Base(s), s.accepted);
    }
  }

  /** While a sender is established, the bytes it released are stored by its peer, and no ACK under way says more. */
  lemma {:induction false} AcksAlwaysSound(start: System, trace: seq<Turn>)
    requires Starts(start) && SystemRuns(start, trace)
    requires NoLap(start, SystemAfter(start, trace))
    ensures var f := SystemAfter(start, trace);
      AcksSound(f.client, f.server) && AcksSound(f.server, f.client)
  {
    hide Sound, Link, AcksSound;
    AlwaysConsistent(start, trace);
    PeersSynced(start, trace);
    var f := SystemAfter(start, trace);
    LinkAcksSound(f.client, f.server);
    LinkAcksSound(f.server, f.client);
  }

  // The numbers of the handshake

  lemma EstablishedFresh(e: Endpoint, ev: Event)
    requires Sound(e) && Enabled(e, ev) && |Next(e, ev).accepted| < 0x1_0000_0000
    requires !e.established && Next(e, ev).established
    ensures var f := Next(e, ev);
      && f.tcb.state == ESTABLISHED && f.tcb.sendUnack == Base(e)
      && f.iss == e.iss && Bound(e) == 0
  {
    hide Perform, AllHonest;
    PoppedStep(e, ev);
    StreamStep(e, ev);
    PhasesStep(e, ev);
    NewlyEstablished(e, ev);
  }

  lemma NewlyEstablished(e: Endpoint, ev: Event)
    requires Possible(e, ev) && !e.established && Next(e, ev).established
    ensures Next(e, ev).tcb.state == ESTABLISHED
  {
    hide Perform;
  }

  lemma NothingReadYet(e: Endpoint, peer: Endpoint, ev: Event)
    requires Link(peer, e) && !e.established && Possible(e, ev) && ev.Deliver?
    requires e.tcb.state in {SYN_SENT, SYN_RECEIVED} && Next(e, ev).tcb.state == ESTABLISHED
    ensures DeliveredTo(Next(e, ev)) == []
  {
    hide Dispatch;
    EstablishingTakesNothing(e.tcb.(peerWindow := ev.packet.window), ev.packet, e.iss);
  }

  lemma EstablishingTakesNothing(t: Tcb, packet: Packet, iss: u32)
    requires t.state in {SYN_SENT, SYN_RECEIVED}
    ensures Dispatch(t, packet, iss).recvBuffer == t.recvBuffer
  {
    hide TrySend;
    if t.state == SYN_RECEIVED {
      SynReceivedEmits(t, packet);
    } else if packet.flags.syn && AcksNext(t, packet) {
      TrySendKeeps(AnswerSynAck(t, packet).(state := ESTABLISHED));
    } else {
    }
  }

  /** When an endpoint becomes established, each number expected is the one after the other's SYN. */
  lemma {:induction false} AtEstablishment(e: Endpoint, peer: Endpoint, ev: Event)
    requires Sound(e) && Sound(peer) && Link(e, peer) && Link(peer, e) && e.passive != peer.passive
    requires Possible(e, ev) && Deliverable(peer, ev)
    requires |Next(e, ev).accepted| < 0x1_0000_0000 && |peer.accepted| < 0x1_0000_0000
    requires !e.established && Next(e, ev).established
    ensures var f := Next(e, ev);
      && f.tcb.sendUnack == Wrap32(e.iss + 1)
      && f.tcb.recvNext == Wrap32(peer.iss + 1)
      && peer.synced && peer.tcb.recvNext == Wrap32(e.iss + 1)
  {
    hide Next, StreamInv, Acknowledges, Stored;
    NoSimultaneousOpen(e, peer, ev);
    EstablishedPeerSynced(e, peer, ev);
    EstablishedBy(e, peer, ev);
    EstablishedFresh(e, ev);
    PhasesStep(e, ev);
    SideStep(e, peer, ev);
    NothingReadYet(e, peer, ev);
  }

  /** The same, for every run of the system. */
  lemma {:induction false} HandshakeNumbers(start: System, trace: seq<Turn>, turn: Turn)
    requires Starts(start) && SystemRuns(start, trace) && CanStep(SystemAfter(start, trace), turn)
    requires var last := Step(SystemAfter(start, trace), turn);
      Small(last) && NoLap(start, last)
    ensures
      var before := SystemAfter(start, trace);
      var after := Step(before, turn);
      && (!before.client.established && after.client.established ==>
            && after.client.tcb.sendUnack == Wrap32(start.client.iss + 1)
            && after.client.tcb.recvNext == Wrap32(start.server.iss + 1)
            && after.server.tcb.recvNext == Wrap32(start.client.iss + 1))
      && (!before.server.established && after.server.established ==>
            && after.server.tcb.sendUnack == Wrap32(start.server.iss + 1)
            && after.server.tcb.recvNext == Wrap32(start.client.iss + 1)
            && after.client.tcb.recvNext == Wrap32(start.server.iss + 1))
  {
    hide Next, Sound, Link;
    var before := SystemAfter(start, trace);
    SystemGrows(start, trace);
    AcceptedGrows(if turn.atClient then before.client else before.server, turn.event);
    AlwaysConsistent(start, trace);
    if turn.atClient {
      if !before.client.established && Next(before.client, turn.event).established {
        AtEstablishment(before.client, before.server, turn.event);
      }
    } else if !before.server.established && Next(before.server, turn.event).established {
      AtEstablishment(before.server, before.client, turn.event);
    }
  }
}
