/** What the protocol does when the network is kind: connections are made, and everything sent arrives. */
module Exchange {
  import opened Types
  import opened Session
  import opened Endpoints
  import opened Streams
  import opened Alignment
  import opened Network
  import opened Connection
  import A = Advertising

  function Last(t: Tcb): Packet
    requires t.out != []
  {
    t.out[|t.out| - 1]
  }

  /** Established, with nothing waiting in any buffer. */
  predicate Resting(t: Tcb) {
    && t.state == ESTABLISHED && !t.hung
    && t.sendBuffer == [] && t.recvBuffer == [] && t.ooo == map[]
    && t.sendNext == t.sendUnack
    && FewDuplicates(t)
  }

  /** Both sides rest and each expects the number the other sends next. */
  predicate Calm(s: System) {
    && Resting(s.client.tcb) && Resting(s.server.tcb)
    && s.server.tcb.recvNext == s.client.tcb.sendNext
    && s.client.tcb.recvNext == s.server.tcb.sendNext
  }

  // What the network may do

  lemma {:induction false} WireKeeps(s: System, trace: seq<Turn>)
    requires SystemRuns(s, trace)
    ensures s.client.tcb.out <= SystemAfter(s, trace).client.tcb.out
    ensures s.server.tcb.out <= SystemAfter(s, trace).server.tcb.out
    decreases |trace|
  {
    hide Perform;
    if trace == [] {
    } else {
      var e, ev := if trace[0].atClient then s.client else s.server, trace[0].event;
      A.RoomAdvertised(e.tcb, e.iss, ev);
      WireKeeps(Step(s, trace[0]), trace[1..]);
    }
  }

  /**
   * In every run, a packet that was ever handed to the network may reach the other side at any later time, however
   * often and whatever has reached it before; so may any damaged packet and any reset.
   */
  lemma {:induction false} AnyPacketAnytime(
      s: System, trace: seq<Turn>, atClient: bool, p: Packet, q: Packet, rst: Packet)
    requires SystemRuns(s, trace) && p in (if atClient then s.server else s.client).tcb.out && rst.flags.rst
    requires !(if atClient then SystemAfter(s, trace).client else SystemAfter(s, trace).server).tcb.hung
    ensures var f := SystemAfter(s, trace);
      && CanStep(f, Turn(atClient, Deliver(p, true)))
      && CanStep(f, Turn(atClient, Deliver(q, false)))
      && CanStep(f, Turn(atClient, Deliver(rst, true)))
  {
    WireKeeps(s, trace);
  }

  // The handshake

  lemma ListenAnswers(t: Tcb, syn: Packet, iss: u32)
    requires t.state == LISTEN && syn.flags == FLAG_SYN && syn.payload == []
    ensures var u := Input(t, syn, true, iss);
      && u.state == SYN_RECEIVED && u.out != [] && u.recvNext == Wrap32(syn.seqNum + 1)
      && u.sendUnack == iss && u.sendNext == Wrap32(iss + 1)
      && Last(u).flags == FLAG_SYN_ACK && Last(u).seqNum == iss && Last(u).ackNum == u.recvNext
      && Last(u).payload == []
      && u.sendBuffer == t.sendBuffer && u.recvBuffer == t.recvBuffer && u.ooo == t.ooo && u.hung == t.hung
      && u.dupAckCount == t.dupAckCount && u.sendWindowSize == t.sendWindowSize && u.ssthresh == t.ssthresh
  {
  }

  lemma NothingToSend(t: Tcb)
    requires t.sendBuffer == []
    ensures TrySend(t) == t
  {
    assert Chunk(t) == [];
    TrySendIsPayload(t);
  }

  lemma ClientEstablishes(t: Tcb, p: Packet, iss: u32)
    requires t.state == SYN_SENT && t.sendBuffer == [] && t.recvBuffer == [] && t.ooo == map[] && !t.hung
    requires t.sendNext == Wrap32(t.sendUnack + 1) && t.dupAckCount == 0
    requires p.flags == FLAG_SYN_ACK && p.ackNum == t.sendNext
    ensures var u := Input(t, p, true, iss);
      && Resting(u) && u.sendNext == t.sendNext && u.recvNext == Wrap32(p.seqNum + 1) && u.out != []
      && Last(u).flags == FLAG_ACK && Last(u).ackNum == u.recvNext && Last(u).payload == []
      && u.sendWindowSize == t.sendWindowSize && u.ssthresh == t.ssthresh
  {
    hide TrySend;
    var told := t.(peerWindow := p.window);
    NothingToSend(AnswerSynAck(told, p).(state := ESTABLISHED));
  }

  lemma ServerEstablishes(t: Tcb, p: Packet, iss: u32)
    requires t.state == SYN_RECEIVED && t.sendBuffer == [] && t.recvBuffer == [] && t.ooo == map[] && !t.hung
    requires t.sendNext == Wrap32(t.sendUnack + 1) && t.dupAckCount == 0
    requires p.flags == FLAG_ACK && p.ackNum == t.sendNext
    ensures var u := Input(t, p, true, iss);
      Resting(u) && u.sendNext == t.sendNext && u.recvNext == t.recvNext
  {
    hide TrySend;
    NothingToSend(Advance(t.(peerWindow := p.window), p.ackNum).(state := ESTABLISHED));
  }

  /** Some run leads from `s` to `f`. */
  ghost predicate Reaches(s: System, f: System) {
    exists trace :: SystemRuns(s, trace) && SystemAfter(s, trace) == f
  }

  lemma {:induction false} RunsTwice(s: System, a: seq<Turn>, b: seq<Turn>)
    requires SystemRuns(s, a) && SystemRuns(SystemAfter(s, a), b)
    ensures SystemRuns(s, a + b) && SystemAfter(s, a + b) == SystemAfter(SystemAfter(s, a), b)
    decreases |a|
  {
    hide Step, CanStep;
    if a == [] {
      assert a + b == b;
    } else {
      assert (a + b)[1..] == a[1..] + b;
      RunsTwice(Step(s, a[0]), a[1..], b);
    }
  }

  lemma ReachesTwice(s: System, f: System, g: System)
    requires Reaches(s, f) && Reaches(f, g)
    ensures Reaches(s, g)
  {
    hide Step, CanStep, SystemRuns, SystemAfter;
    var a :| SystemRuns(s, a) && SystemAfter(s, a) == f;
    var b :| SystemRuns(f, b) && SystemAfter(f, b) == g;
    RunsTwice(s, a, b);
  }

  /** One more turn. */
  lemma ReachesNext(s: System, f: System, turn: Turn)
    requires Reaches(s, f) && CanStep(f, turn)
    ensures Reaches(s, Step(f, turn))
  {
    hide Step, CanStep;
    assert SystemRuns(f, [turn]) && SystemAfter(f, [turn]) == Step(f, turn) by {
      assert SystemRuns(Step(f, turn), []);
      assert [turn][1..] == [];
    }
    ReachesTwice(s, f, Step(f, turn));
  }

  lemma ReachesItself(s: System)
    ensures Reaches(s, s)
  {
    assert SystemRuns(s, []) && SystemAfter(s, []) == s;
  }

  /** A session as it is before its first event, apart from LISTEN. */
  predicate Fresh(t: Tcb) {
    && t.sendBuffer == [] && t.recvBuffer == [] && t.ooo == map[] && !t.hung && t.dupAckCount == 0
    && t.sendWindowSize == 1 && t.ssthresh == 8
  }

  lemma CallsOpen(e: Endpoint)
    requires Fresh(e.tcb) && e.tcb.state == CLOSED && !e.begun
    ensures !e.passive ==> Possible(e, CallConnect) && var u := Next(e, CallConnect).tcb;
      && u.state == SYN_SENT && Fresh(u) && u.sendUnack == e.iss && u.sendNext == Base(e)
      && u.out != [] && Last(u).flags == FLAG_SYN && Last(u).seqNum == e.iss && Last(u).payload == []
    ensures e.passive ==>
      Possible(e, CallListen) && Next(e, CallListen).tcb.state == LISTEN && Fresh(Next(e, CallListen).tcb)
  {
  }

  lemma StartsFresh(s: System)
    requires Starts(s)
    ensures !s.client.begun && !s.client.passive && s.client.tcb.state == CLOSED
    ensures Fresh(s.client.tcb) && Blank(s.client)
    ensures !s.server.begun && s.server.passive && s.server.tcb.state == CLOSED
    ensures Fresh(s.server.tcb) && Blank(s.server)
  {
  }

  /** Nothing was accepted, read or acknowledged. */
  predicate Blank(e: Endpoint) {
    e.accepted == [] && e.readOut == []
  }

  lemma DeliversNothing(e: Endpoint, ev: Event)
    requires Possible(e, ev) && Blank(e) && (ev.Deliver? || ev.CallConnect? || ev.CallListen?)
    ensures Blank(Next(e, ev)) && Next(e, ev).iss == e.iss && Next(e, ev).passive == e.passive
    ensures Next(e, ev).tcb == Perform(e.tcb, e.iss, ev)
  {
    hide Perform;
  }

  /** Without loss, five turns connect the two sides. */
  lemma HandshakeCompletes(start: System) returns (f: System)
    requires Starts(start)
    ensures Reaches(start, f) && Calm(f) && Blank(f.client) && Blank(f.server)
    ensures f.client.tcb.sendNext == Wrap32(start.client.iss + 1)
    ensures f.server.tcb.sendNext == Wrap32(start.server.iss + 1)
    ensures f.client.tcb.sendWindowSize == 1 && f.client.tcb.ssthresh == 8
  {
    hide Next, Perform, Input, Reaches, Step, Starts, SystemRuns, SystemAfter;
    StartsFresh(start);
    var c0, s0 := start.client, start.server;
    CallsOpen(c0);
    CallsOpen(s0);
    DeliversNothing(s0, CallListen);
    DeliversNothing(c0, CallConnect);
    var s1, c1 := Next(s0, CallListen), Next(c0, CallConnect);
    var syn := Deliver(Last(c1.tcb), true);
    DeliversNothing(s1, syn);
    DeliverIsInput(s1.tcb, s1.iss, syn);
    ListenAnswers(s1.tcb, syn.packet, s1.iss);
    var s2 := Next(s1, syn);
    var synAck := Deliver(Last(s2.tcb), true);
    DeliversNothing(c1, synAck);
    DeliverIsInput(c1.tcb, c1.iss, synAck);
    ClientEstablishes(c1.tcb, synAck.packet, c1.iss);
    var c2 := Next(c1, synAck);
    var ack := Deliver(Last(c2.tcb), true);
    DeliversNothing(s2, ack);
    DeliverIsInput(s2.tcb, s2.iss, ack);
    ServerEstablishes(s2.tcb, ack.packet, s2.iss);
    f := System(c2, Next(s2, ack));
    FiveTurns(start, CallListen, CallConnect, syn, synAck, ack);
  }

  lemma DeliverIsInput(t: Tcb, iss: u32, ev: Event)
    requires ev.Deliver?
    ensures Perform(t, iss, ev) == Input(t, ev.packet, ev.intact, iss)
  {
  }

  /** Server, client, server, client, server. */
  lemma FiveTurns(s: System, a: Event, b: Event, c: Event, d: Event, e: Event)
    requires Possible(s.server, a) && Possible(s.client, b) && !a.Deliver? && !b.Deliver?
    requires var s1, c1 := Next(s.server, a), Next(s.client, b);
      && Possible(s1, c) && Deliverable(c1, c)
      && var s2 := Next(s1, c);
         && Possible(c1, d) && Deliverable(s2, d)
         && var c2 := Next(c1, d);
            && Possible(s2, e) && Deliverable(c2, e)
    ensures var s2, c2 := Next(Next(s.server, a), c), Next(Next(s.client, b), d);
      Reaches(s, System(c2, Next(s2, e)))
  {
    hide Next, Possible, Reaches;
    var s1, c1 := Next(s.server, a), Next(s.client, b);
    var s2, c2 := Next(s1, c), Next(c1, d);
    ReachesItself(s);
    ReachesNext(s, s, Turn(false, a));
    ReachesNext(s, System(s.client, s1), Turn(true, b));
    ReachesNext(s, System(c1, s1), Turn(false, c));
    ReachesNext(s, System(c1, s2), Turn(true, d));
    ReachesNext(s, System(c2, s2), Turn(false, e));
  }

  // Data

  /** A rested session takes in a byte that is expected, and acknowledges it. */
  lemma ByteArrives(t: Tcb, p: Packet, iss: u32)
    requires Resting(t) && p.flags == FLAG_ACK && |p.payload| == 1
    requires p.seqNum == t.recvNext && p.ackNum == t.sendNext
    ensures var u := Input(t, p, true, iss);
      && u.recvBuffer == p.payload && u.recvNext == Wrap32(t.recvNext + 1) && u.out != []
      && Last(u).flags == FLAG_ACK && Last(u).ackNum == u.recvNext && Last(u).payload == []
      && u.sendNext == t.sendNext
      && Resting(u.(recvBuffer := []))
  {
    hide TrySend, HandleIncoming;
    var told := t.(peerWindow := p.window);
    NothingToSend(told);
    assert HandleAck(told, p) == told;
    assert Acked(told, p) == told;
    PayloadTaken(told, p);
  }

  lemma PayloadTaken(t: Tcb, p: Packet)
    requires Resting(t) && |p.payload| == 1 && p.seqNum == t.recvNext
    ensures HandleIncoming(t, p) == SendPureAck(Append(t, p.payload), Wrap32(t.recvNext + 1))
    ensures HandleIncoming(t, p).recvBuffer == p.payload
  {
    var taken := Take(t, p.payload);
    assert taken == Append(t, p.payload) && taken.recvBuffer == [] + p.payload == p.payload;
    assert Drain(taken) == taken;
  }

  /** The acknowledgment of the one byte in flight brings the sender to rest, with a larger window. */
  lemma AckArrives(t: Tcb, p: Packet, b: u8, iss: u32)
    requires t.state == ESTABLISHED && !t.hung && t.sendBuffer == [b] && t.recvBuffer == [] && t.ooo == map[]
    requires FewDuplicates(t) && t.sendNext == t.sendUnack + 1
    requires p.flags == FLAG_ACK && p.payload == [] && p.ackNum == t.sendNext
    ensures var u := Input(t, p, true, iss);
      && Resting(u) && u.sendNext == t.sendNext && u.recvNext == t.recvNext
      && u.sendWindowSize == GrowWindow(t.sendWindowSize, t.ssthresh) && u.ssthresh == t.ssthresh
  {
    hide TrySend;
    var told := t.(peerWindow := p.window);
    NoFastRetransmit(told, p.ackNum);
    var accepted := AcceptAck(told, p.ackNum);
    assert accepted.sendBuffer == [b][1..] == [];
    NothingToSend(accepted);
    assert Acked(told, p) == accepted;
  }

  lemma ByteIsNext(t: Tcb, b: u8)
    requires Resting(t) && t.sendWindowSize >= 1
    ensures Send(t, [b]) == SendPayload(t.(sendBuffer := [b]), [b], FLAG_ACK)
  {
    hide TrySend, SendPayload;
    var filled := t.(sendBuffer := t.sendBuffer + [b]);
    assert [b][..SendRoom(t, [b])] == [b];
    assert filled.sendBuffer == [b];
    assert Chunk(filled) == [b];
    TrySendIsPayload(filled);
  }

  lemma ByteLeaves(t: Tcb, b: u8)
    requires Resting(t) && t.sendNext < 0xFFFF_FFFE && t.sendWindowSize >= 1
    ensures var u := Send(t, [b]);
      && u.out != [] && Last(u) == Packet(t.sendNext, t.recvNext, FLAG_ACK, CAPACITY, [b])
      && u.sendBuffer == [b] && u.sendNext == t.sendNext + 1 && u.sendUnack == t.sendUnack
      && u.state == ESTABLISHED && !u.hung && u.recvBuffer == [] && u.ooo == map[] && u.recvNext == t.recvNext
      && FewDuplicates(u) && u.sendWindowSize == t.sendWindowSize && u.ssthresh == t.ssthresh
  {
    hide Send;
    ByteIsNext(t, b);
  }

  lemma ByteIsRead(t: Tcb)
    requires t.state == ESTABLISHED && |t.recvBuffer| == 1
    ensures Recv(t, 1) == t.(recvBuffer := [])
  {
  }

  /** What an event adds to the history of an endpoint. */
  lemma HistoryOf(e: Endpoint, ev: Event)
    requires Possible(e, ev)
    ensures var f := Next(e, ev);
      && f.tcb == Perform(e.tcb, e.iss, ev) && f.iss == e.iss
      && f.accepted == Accepting(e, ev)
      && f.readOut == if ev.CallRecv? then e.readOut + e.tcb.recvBuffer[..ReadCount(e.tcb, ev.count)] else e.readOut
  {
    hide Perform;
  }

  lemma PerformCalls(t: Tcb, iss: u32, data: seq<u8>, count: nat)
    ensures Perform(t, iss, CallSend(data)) == Send(t, data) && Perform(t, iss, CallRecv(count)) == Recv(t, count)
  {
  }

  /** Client, server, server, client. */
  lemma FourTurns(s: System, a: Event, b: Event, c: Event, d: Event)
    requires Possible(s.client, a) && !a.Deliver?
    requires var c1 := Next(s.client, a);
      && Possible(s.server, b) && Deliverable(c1, b)
      && var s1 := Next(s.server, b);
         && Possible(s1, c) && !c.Deliver?
         && var s2 := Next(s1, c);
            && Possible(c1, d) && Deliverable(s2, d)
    ensures Reaches(s, System(Next(Next(s.client, a), d), Next(Next(s.server, b), c)))
  {
    hide Next, Possible, Reaches;
    var c1, s1 := Next(s.client, a), Next(s.server, b);
    var s2 := Next(s1, c);
    ReachesItself(s);
    ReachesNext(s, s, Turn(true, a));
    ReachesNext(s, System(c1, s.server), Turn(false, b));
    ReachesNext(s, System(c1, s1), Turn(false, c));
    ReachesNext(s, System(c1, s2), Turn(true, d));
  }

  /** One byte goes from the client's application to the server's, and both sides rest again. */
  lemma ByteTransfers(s: System, b: u8) returns (f: System)
    requires Calm(s) && s.client.tcb.sendNext < 0xFFFF_FFFE && s.client.tcb.sendWindowSize >= 1
    ensures Reaches(s, f) && Calm(f)
    ensures f.server.readOut == s.server.readOut + [b] && f.client.accepted == s.client.accepted + [b]
    ensures f.client.tcb.sendNext == s.client.tcb.sendNext + 1
    ensures f.client.tcb.ssthresh == s.client.tcb.ssthresh
    ensures f.client.tcb.sendWindowSize == GrowWindow(s.client.tcb.sendWindowSize, s.client.tcb.ssthresh)
  {
    hide Next, Perform, Input, Send, Recv, Reaches, Accepting;
    var c0, s0 := s.client, s.server;
    var sending, reading := CallSend([b]), CallRecv(1);
    ByteLeaves(c0.tcb, b);
    HistoryOf(c0, sending);
    PerformCalls(c0.tcb, c0.iss, [b], 1);
    AcceptsByte(c0, b);
    var c1 := Next(c0, sending);
    var segment := Deliver(Last(c1.tcb), true);
    HistoryOf(s0, segment);
    DeliverIsInput(s0.tcb, s0.iss, segment);
    ByteArrives(s0.tcb, segment.packet, s0.iss);
    var s1 := Next(s0, segment);
    HistoryOf(s1, reading);
    PerformCalls(s1.tcb, s1.iss, [b], 1);
    ByteIsRead(s1.tcb);
    var s2 := Next(s1, reading);
    var ack := Deliver(Last(s2.tcb), true);
    HistoryOf(c1, ack);
    DeliverIsInput(c1.tcb, c1.iss, ack);
    AckArrives(c1.tcb, ack.packet, b, c1.iss);
    DeliversStays(c1, ack);
    DeliversStays(s0, segment);
    f := System(Next(c1, ack), s2);
    FourTurns(s, sending, segment, reading, ack);
  }

  lemma AcceptsByte(e: Endpoint, b: u8)
    requires e.tcb.sendBuffer == []
    ensures Accepting(e, CallSend([b])) == e.accepted + [b]
  {
    assert [b][..SendRoom(e.tcb, [b])] == [b];
  }

  lemma DeliversStays(e: Endpoint, ev: Event)
    requires ev.Deliver?
    ensures Accepting(e, ev) == e.accepted
  {
  }

  /** Room in the sequence space and for the congestion window. */
  predicate RoomFor(t: Tcb, n: nat) {
    && t.sendNext + n < 0xFFFF_FFFF
    && t.ssthresh == 8 && 1 <= t.sendWindowSize
    && n < 0xFFFE_0000 && (t.sendWindowSize <= 14 || t.sendWindowSize + n < 0xFFFF_0000)
  }

  lemma {:induction false} BytesTransfer(s: System, data: seq<u8>) returns (f: System)
    requires Calm(s) && RoomFor(s.client.tcb, |data|)
    ensures Reaches(s, f) && Calm(f)
    ensures f.server.readOut == s.server.readOut + data && f.client.accepted == s.client.accepted + data
    decreases |data|
  {
    hide Reaches, Resting;
    if data == [] {
      ReachesItself(s);
      f := s;
    } else {
      var next := ByteTransfers(s, data[0]);
      GrowIsSmall(s.client.tcb.sendWindowSize);
      f := BytesTransfer(next, data[1..]);
      ReachesTwice(s, next, f);
      assert data == [data[0]] + data[1..];
    }
  }

  lemma GrowIsSmall(cwnd: u32)
    requires 1 <= cwnd < 0xFFFF_0000
    ensures 1 <= GrowWindow(cwnd, 8) <= (if cwnd < 8 then 14 else cwnd + 1)
  {
  }

  /**
   * For every byte sequence, from every pair of new sessions there is a run in which the connection is made, all of it
   * is accepted, delivered, read by the server's application and acknowledged.
   */
  lemma PerfectNetworkDelivers(start: System, data: seq<u8>) returns (f: System)
    requires Starts(start)
    requires Wrap32(start.client.iss + 1) + |data| < 0xFFFE_0000
    ensures Reaches(start, f) && Calm(f)
    ensures f.client.accepted == data && f.server.readOut == data
  {
    hide Reaches, Resting, Starts;
    var connected := HandshakeCompletes(start);
    f := BytesTransfer(connected, data);
    ReachesTwice(start, connected, f);
  }

  // The teardown

  lemma ClientCloses(t: Tcb)
    requires Resting(t)
    ensures var u := Close(t);
      && u.state == FIN_WAIT_1 && !u.hung && u.sendUnack == t.sendUnack && u.out != []
      && Last(u).flags == FLAG_FIN && Last(u).seqNum == t.sendNext && Last(u).payload == []
  {
    hide TrySend;
    NothingToSend(t);
  }

  lemma ServerTakesFin(t: Tcb, p: Packet, iss: u32)
    requires Resting(t) && p.flags == FLAG_FIN && p.payload == []
    ensures var u := Input(t, p, true, iss);
      && u.state == CLOSE_WAIT && !u.hung && u.sendUnack == u.sendNext == t.sendNext && u.out != []
      && Last(u).flags == FLAG_ACK && Last(u).ackNum == Wrap32(p.seqNum + 1)
  {
  }

  lemma ServerCloses(t: Tcb)
    requires t.state == CLOSE_WAIT
    ensures var u := Close(t);
      && u.state == LAST_ACK && u.hung == t.hung && u.sendUnack == t.sendUnack && u.out != []
      && Last(u).flags == FLAG_FIN_ACK && Last(u).seqNum == t.sendNext
      && forall p :: p in t.out ==> p in u.out
  {
  }

  lemma ClientWaits(t: Tcb, p: Packet, iss: u32)
    requires t.state == FIN_WAIT_1 && p.flags == FLAG_ACK && p.ackNum == Wrap32(t.sendUnack + 1)
    ensures Input(t, p, true, iss).state == FIN_WAIT_2 && Input(t, p, true, iss).hung == t.hung
  {
  }

  lemma ClientTakesFin(t: Tcb, p: Packet, iss: u32)
    requires t.state == FIN_WAIT_2 && p.flags == FLAG_FIN_ACK
    ensures var u := Input(t, p, true, iss);
      && u.state == TIME_WAIT && u.hung == t.hung && u.timers.twoMsl && u.out != []
      && Last(u).flags == FLAG_ACK && Last(u).ackNum == Wrap32(p.seqNum + 1)
  {
  }

  lemma ServerEnds(t: Tcb, p: Packet, iss: u32)
    requires t.state == LAST_ACK && p.flags == FLAG_ACK && p.ackNum == Wrap32(t.sendUnack + 1)
    ensures Input(t, p, true, iss).state == CLOSED
  {
  }

  lemma PerformCloses(t: Tcb, iss: u32)
    ensures Perform(t, iss, CallClose) == Close(t) && Perform(t, iss, TwoMslExpires).state == CLOSED
  {
  }

  /** The first four turns: the client closes, the server acknowledges and closes as well. */
  lemma BothClose(s: System) returns (f: System)
    requires Calm(s)
    ensures Reaches(s, f) && f.client.accepted == s.client.accepted && f.server.readOut == s.server.readOut
    ensures f.client.tcb.state == FIN_WAIT_2 && !f.client.tcb.hung
    ensures var t := f.server.tcb;
      && t.state == LAST_ACK && !t.hung && t.out != []
      && Last(t).flags == FLAG_FIN_ACK && Last(t).seqNum == t.sendUnack
  {
    hide Next, Perform, Input, Close, Reaches, Step;
    var c0, s0 := s.client, s.server;
    ClientCloses(c0.tcb);
    PerformCloses(c0.tcb, c0.iss);
    HistoryOf(c0, CallClose);
    var c1 := Next(c0, CallClose);
    var fin := Deliver(Last(c1.tcb), true);
    Received(s0, fin);
    ServerTakesFin(s0.tcb, fin.packet, s0.iss);
    hide Resting;
    var s1 := Next(s0, fin);
    var ack := Deliver(Last(s1.tcb), true);
    Received(c1, ack);
    ClientWaits(c1.tcb, ack.packet, c1.iss);
    ServerCloses(s1.tcb);
    PerformCloses(s1.tcb, s1.iss);
    HistoryOf(s1, CallClose);
    FourTurns(s, CallClose, fin, CallClose, ack);
    f := System(Next(c1, ack), Next(s1, CallClose));
  }

  /** Without loss, seven turns close both sides: the client first, then the server. */
  lemma TeardownCompletes(s: System) returns (f: System)
    requires Calm(s)
    ensures Reaches(s, f) && f.client.tcb.state == CLOSED && f.server.tcb.state == CLOSED
    ensures f.client.accepted == s.client.accepted && f.server.readOut == s.server.readOut
  {
    hide Next, Perform, Input, Close, Reaches, Step, Resting;
    var closing := BothClose(s);
    var c, r := closing.client, closing.server;
    var finAck := Deliver(Last(r.tcb), true);
    Received(c, finAck);
    ClientTakesFin(c.tcb, finAck.packet, c.iss);
    ReachesNext(s, closing, Turn(true, finAck));
    StepOf(closing, finAck);
    f := Ending(s, Next(c, finAck), r);
  }

  lemma StepOf(s: System, ev: Event)
    requires CanStep(s, Turn(true, ev))
    ensures Step(s, Turn(true, ev)) == System(Next(s.client, ev), s.server)
  {
    hide Next;
  }

  lemma Received(e: Endpoint, ev: Event)
    requires ev.Deliver? && Possible(e, ev)
    ensures Next(e, ev).tcb == Input(e.tcb, ev.packet, ev.intact, e.iss)
    ensures Next(e, ev).accepted == e.accepted && Next(e, ev).readOut == e.readOut && Next(e, ev).iss == e.iss
  {
    hide Perform, Input;
    HistoryOf(e, ev);
    DeliverIsInput(e.tcb, e.iss, ev);
  }

  /** The last two turns: the server takes the acknowledgment of its FIN, and the client's timer expires. */
  lemma Ending(s: System, c: Endpoint, r: Endpoint) returns (f: System)
    requires Reaches(s, System(c, r)) && !c.tcb.hung && !r.tcb.hung
    requires c.tcb.state == TIME_WAIT && c.tcb.timers.twoMsl && r.tcb.state == LAST_ACK
    requires c.tcb.out != [] && Last(c.tcb).flags == FLAG_ACK && Last(c.tcb).ackNum == Wrap32(r.tcb.sendUnack + 1)
    ensures Reaches(s, f) && f.client.tcb.state == CLOSED && f.server.tcb.state == CLOSED
    ensures f.client.accepted == c.accepted && f.server.readOut == r.readOut
  {
    hide Next, Perform, Input, Reaches;
    var last := Deliver(Last(c.tcb), true);
    Received(r, last);
    ServerEnds(r.tcb, last.packet, r.iss);
    ReachesNext(s, System(c, r), Turn(false, last));
    HistoryOf(c, TwoMslExpires);
    PerformCloses(c.tcb, c.iss);
    ReachesNext(s, System(c, Next(r, last)), Turn(true, TwoMslExpires));
    f := System(Next(c, TwoMslExpires), Next(r, last));
  }
}
