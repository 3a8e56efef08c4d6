/** The stack: which session a packet reaches and what it does there, and the ready queue that callbacks update. */
module Stacks {
  import opened Types
  import opened TcpSessions
  import opened Streams
  import C = Checksum
  import E = Effects
  import R = ReadyQueue
  import S = Session
  import T = Timers

  /** A peer, by address and port. */
  datatype Peer = Peer(ip: string, port: u16)

  /** What the receive callback does with a packet: hand it to a session, create one for it, or answer with a RST. */
  datatype Route = ToExisting(session: R.Session) | ToNew(session: R.Session) | Refused

  /** Sessions by peer, and the identity of the next one to be created. */
  datatype Table = Table(sessions: map<Peer, R.Session>, next: R.Session)

  /** The peers' sessions, their fields, and the peers that were sent a RST, oldest first. */
  datatype Host = Host(table: Table, tcbs: map<R.Session, S.Tcb>, refused: seq<Peer>)

  /** What a packet brings along: the verdict of its checksum, and the numbers drawn for a session it may create. */
  datatype Arrival = Arrival(peer: Peer, packet: Packet, intact: bool, iss: u32, lastAck: u32)

  function RouteOf(table: Table, peer: Peer, flags: Flags): Route {
    if peer in table.sessions then ToExisting(table.sessions[peer])
    else if flags == FLAG_SYN then ToNew(table.next)
    else Refused
  }

  function Insert(table: Table, peer: Peer): Table {
    Table(table.sessions[peer := table.next], table.next + 1)
  }

  /** The configured receive window and the default of the auto-close flag. */
  function Fresh(lastAck: u32): S.Tcb {
    S.Initial(1, lastAck, true)
  }

  function Receive(h: Host, a: Arrival): Host
    requires Known(h)
  {
    match RouteOf(h.table, a.peer, a.packet.flags)
    case ToExisting(s) => h.(tcbs := h.tcbs[s := S.Input(h.tcbs[s], a.packet, a.intact, a.iss)])
    case ToNew(s) =>
      h.(table := Insert(h.table, a.peer),
         tcbs := h.tcbs[s := S.Input(S.Listen(Fresh(a.lastAck)), a.packet, a.intact, a.iss)])
    case Refused => h.(refused := h.refused + [a.peer])
  }

  /** A closed session is erased from the table. */
  function Erase(h: Host, peer: Peer): Host {
    h.(table := h.table.(sessions := h.table.sessions - {peer}))
  }

  /** Every session in the table exists, no two peers share one, and none is older than its number says. */
  ghost predicate Known(h: Host) {
    && (forall p :: p in h.table.sessions ==> h.table.sessions[p] in h.tcbs)
    && (forall s :: s in h.tcbs ==> s < h.table.next)
    && (forall p, q :: p in h.table.sessions && q in h.table.sessions && h.table.sessions[p] == h.table.sessions[q]
          ==> p == q)
  }

  datatype Event = Received(arrival: Arrival) | Closed(peer: Peer)

  ghost function Step(h: Host, ev: Event): Host
    requires Known(h)
  {
    match ev
    case Received(a) => Receive(h, a)
    case Closed(peer) => Erase(h, peer)
  }

  lemma StepKnown(h: Host, ev: Event)
    requires Known(h)
    ensures Known(Step(h, ev))
  {
    hide S.Input;
  }

  ghost function After(h: Host, events: seq<Event>): (r: Host)
    requires Known(h)
    ensures Known(r)
    decreases |events|
  {
    if events == [] then h
    else
      StepKnown(h, events[0]);
      After(Step(h, events[0]), events[1..])
  }

  const NOBODY: Host := Host(Table(map[], 0), map[], [])

  /** A packet touches the session of its own peer and no other. */
  lemma OnlyOwnSession(h: Host, a: Arrival, q: Peer)
    requires Known(h) && q != a.peer && q in h.table.sessions
    ensures var g := Receive(h, a);
      && q in g.table.sessions && g.table.sessions[q] == h.table.sessions[q]
      && g.tcbs[g.table.sessions[q]] == h.tcbs[h.table.sessions[q]]
  {
    hide S.Input;
  }

  /**
   * After any packets and closes, from an empty stack: a packet of one peer leaves every other peer's session as it is.
   */
  lemma {:induction false} PacketsStaySeparate(events: seq<Event>, a: Arrival, q: Peer)
    requires q != a.peer && q in After(NOBODY, events).table.sessions
    ensures var h := After(NOBODY, events);
      var g := Receive(h, a);
      q in g.table.sessions && g.tcbs[g.table.sessions[q]] == h.tcbs[h.table.sessions[q]]
  {
    hide S.Input, After;
    OnlyOwnSession(After(NOBODY, events), a, q);
  }

  /** The session that a peer's packets reach. */
  function SessionOf(h: Host, peer: Peer): S.Tcb
    requires peer in h.table.sessions && h.table.sessions[peer] in h.tcbs
  {
    h.tcbs[h.table.sessions[peer]]
  }

  /** A known peer's packet is handed to that peer's session: the table and everything else stay as they are. */
  lemma KnownPeerIsServed(h: Host, a: Arrival)
    requires Known(h) && a.peer in h.table.sessions
    ensures var g, s := Receive(h, a), h.table.sessions[a.peer];
      && g.table == h.table && g.refused == h.refused && g.tcbs.Keys == h.tcbs.Keys
      && SessionOf(g, a.peer) == S.Input(SessionOf(h, a.peer), a.packet, a.intact, a.iss)
      && forall q :: q in h.tcbs && q != s ==> g.tcbs[q] == h.tcbs[q]
  {
    hide S.Input;
  }

  /** A damaged packet of a known peer changes nothing at all. */
  lemma DamageIsIgnored(h: Host, a: Arrival)
    requires Known(h) && a.peer in h.table.sessions && !a.intact
    ensures Receive(h, a) == h
  {
    E.IgnoredPackets(SessionOf(h, a.peer), a.packet, a.intact, a.iss);
    hide S.Input;
    assert Receive(h, a).tcbs == h.tcbs;
  }

  /**
   * An intact data packet of a known peer with an established session, in order and small enough for the buffer, is
   * appended and acknowledged through the stack, unless the session spins over what it had stored.
   */
  lemma DataIsServed(h: Host, a: Arrival)
    requires Known(h) && a.peer in h.table.sessions && a.intact
    requires SessionOf(h, a.peer).state == ESTABLISHED && FewDuplicates(SessionOf(h, a.peer))
    requires a.packet.flags == FLAG_ACK && a.packet.payload != []
    requires a.packet.seqNum == SessionOf(h, a.peer).recvNext
    requires |SessionOf(h, a.peer).recvBuffer| + |a.packet.payload| <= CAPACITY
    ensures var t, u := SessionOf(h, a.peer), SessionOf(Receive(h, a), a.peer);
      && t.recvBuffer + a.packet.payload <= u.recvBuffer
      && (!u.hung ==>
            && |t.out| < |u.out| && t.out <= u.out
            && var ack := u.out[|u.out| - 1];
               && ack.flags == FLAG_ACK && ack.ackNum == u.recvNext && ack.payload == []
               && ack.window == CAPACITY - |u.recvBuffer|)
  {
    hide S.Input, E.SendsMore, E.Accepts;
    var t := SessionOf(h, a.peer);
    KnownPeerIsServed(h, a);
    var accepted, tried, acked, fed := E.EstablishedEffect(t, a.packet, a.iss);
    E.OutGrows(t, a.packet, a.iss);
  }

  /** Closing a session takes its peer out of the table, and no other peer. */
  lemma EraseExact(h: Host, peer: Peer)
    ensures var g := Erase(h, peer);
      && peer !in g.table.sessions && g.table.next == h.table.next && g.refused == h.refused && g.tcbs == h.tcbs
      && (forall q :: q != peer ==> (q in g.table.sessions <==> q in h.table.sessions))
      && forall q :: q != peer && q in h.table.sessions ==> g.table.sessions[q] == h.table.sessions[q]
  {
  }

  /** After a close the peer is a stranger: a bare SYN opens a new session for it, anything else is refused. */
  lemma ClosedPeerStartsOver(h: Host, a: Arrival)
    requires Known(h)
    ensures var g := Receive(Erase(h, a.peer), a);
      if a.packet.flags == FLAG_SYN then
        && a.peer in g.table.sessions && g.table.sessions[a.peer] == h.table.next && h.table.next !in h.tcbs
        && forall s :: s in h.tcbs ==> s in g.tcbs && g.tcbs[s] == h.tcbs[s]
      else
        g == Erase(h, a.peer).(refused := h.refused + [a.peer])
  {
    hide S.Input, S.Listen;
  }

  /**
   * A bare SYN of an unknown peer opens a session with the configured receive window, an initial window of one segment,
   * a threshold of 8, and closing at end of file. An intact SYN is answered; after a damaged one the session listens.
   */
  lemma SynOpens(h: Host, a: Arrival)
    requires Known(h) && a.peer !in h.table.sessions && a.packet.flags == FLAG_SYN
    ensures var g := Receive(h, a);
      && g.table.sessions == h.table.sessions[a.peer := h.table.next] && g.table.next == h.table.next + 1
      && g.refused == h.refused && h.table.next in g.tcbs && g.tcbs - {h.table.next} == h.tcbs
      && var t := g.tcbs[h.table.next];
         && t.recvWindowSize == 1 && t.sendWindowSize == 1 && t.ssthresh == 8 && t.autoCloseOnEof
         && t.lastAckReceived == a.lastAck && t.dupAckCount == 0 && !t.userWantToClose && !t.hung
         && t.sendBuffer == [] && t.recvBuffer == [] && t.ooo == map[] && t.inflight == map[]
         && if a.intact then
              var synAck := Packet(a.iss, Wrap32(a.packet.seqNum + 1), FLAG_SYN_ACK, 1024, []);
              && t.state == SYN_RECEIVED && t.recvNext == Wrap32(a.packet.seqNum + 1)
              && t.sendUnack == a.iss && t.sendNext == Wrap32(a.iss + 1) && t.out == [synAck]
              && t.timers.armed == map[0 := T.Armed(a.iss, 1000, synAck, 0)]
            else
              t.state == LISTEN && t.out == [] && t.timers.armed == map[]
  {
    var listening := S.Listen(Fresh(a.lastAck));
    if a.intact {
      E.ListenAnswersSyn(listening, a.packet, a.iss);
    } else {
      E.IgnoredPackets(listening, a.packet, a.intact, a.iss);
    }
    hide S.Input;
  }

  /** What a peer's session is, if there is one. */
  ghost function Held(h: Host, q: Peer): Option<S.Tcb>
    requires Known(h)
  {
    if q in h.table.sessions then Some(SessionOf(h, q)) else None
  }

  /** What an event would do to the session of `q` in a stack that knows no other peer. */
  function AloneStep(t: Option<S.Tcb>, ev: Event, q: Peer): Option<S.Tcb> {
    match ev
    case Received(a) =>
      if a.peer != q then t
      else if t.Some? then Some(S.Input(t.value, a.packet, a.intact, a.iss))
      else if a.packet.flags == FLAG_SYN then Some(S.Input(S.Listen(Fresh(a.lastAck)), a.packet, a.intact, a.iss))
      else None
    case Closed(peer) => if peer == q then None else t
  }

  function Alone(t: Option<S.Tcb>, events: seq<Event>, q: Peer): Option<S.Tcb>
    decreases |events|
  {
    if events == [] then t else Alone(AloneStep(t, events[0], q), events[1..], q)
  }

  lemma HeldStep(h: Host, ev: Event, q: Peer)
    requires Known(h)
    ensures Known(Step(h, ev)) && Held(Step(h, ev), q) == AloneStep(Held(h, q), ev, q)
  {
    hide S.Input, S.Listen, Fresh, S.Initial;
    StepKnown(h, ev);
    if ev.Received? && ev.arrival.peer != q && q in h.table.sessions {
      OnlyOwnSession(h, ev.arrival, q);
    }
  }

  /** Over every sequence of packets and closes, each peer is served exactly as if there were no other. */
  lemma {:induction false} ServedAsIfAlone(h: Host, events: seq<Event>, q: Peer)
    requires Known(h)
    ensures Held(After(h, events), q) == Alone(Held(h, q), events, q)
    decreases |events|
  {
    hide Known, Held, AloneStep, Step;
    if events == [] {
    } else {
      HeldStep(h, events[0], q);
      ServedAsIfAlone(Step(h, events[0]), events[1..], q);
    }
  }

  /** Any other packet of an unknown peer creates nothing, touches nothing and is answered with a RST. */
  lemma StrangersAreRefused(h: Host, a: Arrival)
    requires Known(h) && a.peer !in h.table.sessions && a.packet.flags != FLAG_SYN
    ensures Receive(h, a) == h.(refused := h.refused + [a.peer])
  {
  }

  /** The RST is sent with a header of zeros, and its checksum is never computed. */
  const REFUSAL: C.Header := C.Header(0, 0, 0, 0, 0, 4, 0, 0, 0)

  /** So a peer that verifies checksums, as every session does, discards it. */
  lemma RefusalFailsChecksum()
    ensures !C.Accepts(REFUSAL, [])
  {
    var bytes := C.HeaderBytes(REFUSAL);
    RefusalBytes();
    C.NoOverflow(bytes, []);
    assert bytes + [] == bytes;
    C.SumSplit(bytes, 12);
    ZerosSum(bytes[..12]);
    ZerosSum(bytes[14..]);
    hide C.SumWords, C.HeaderBytes;
  }

  lemma RefusalBytes()
    ensures var bytes := C.HeaderBytes(REFUSAL);
      && (forall i :: 0 <= i < 20 && i != 13 ==> bytes[i] == 0)
      && bytes[13] == 4
  {
  }

  lemma {:induction false} ZerosSum(data: seq<u8>)
    requires forall i :: 0 <= i < |data| ==> data[i] == 0
    ensures C.SumWords(data) == 0
  {
    if |data| <= 1 {
    } else {
      ZerosSum(data[2..]);
    }
  }

  class TcpStack {
    var sessions: map<Peer, R.Session>
    var nextSession: R.Session
    var objects: map<R.Session, TcpSession>
    var refused: seq<Peer>
    var readyQueue: seq<R.Session>
    var inReadyQueue: set<R.Session>
    var idleActive: bool

    /** Every object the sessions consist of. */
    ghost var parts: set<object>

    /** The sessions are valid objects and share nothing. */
    ghost predicate Valid()
      reads this, parts
    {
      && this !in parts
      && (forall s :: s in objects ==> objects[s].Footprint() <= parts && objects[s].Valid())
      && (forall s, q :: s in objects && q in objects && s != q ==> objects[s].Footprint() !! objects[q].Footprint())
    }

    ghost function Tcbs(): map<R.Session, S.Tcb>
      requires Valid()
      reads this, parts
    {
      map s | s in objects :: objects[s].View()
    }

    ghost function Hosted(): Host
      requires Valid()
      reads this, parts
    {
      Host(Table(sessions, nextSession), Tcbs(), refused)
    }

    ghost function Ready(): R.Ready
      reads this
    {
      R.Ready(readyQueue, inReadyQueue, idleActive)
    }

    constructor ()
      ensures Valid() && Hosted() == NOBODY && Ready() == R.NONE_READY
    {
      sessions, nextSession, objects, refused := map[], 0, map[], [];
      readyQueue, inReadyQueue, idleActive := [], {}, false;
      parts := {};
    }

    /** The receive callback that `listen` installs. */
    method OnReceive(a: Arrival)
      requires Valid() && Known(Hosted())
      modifies this, parts
      ensures Valid() && Hosted() == Receive(old(Hosted()), a)
      ensures Ready() == old(Ready())
    {
      hide TcpSession.Valid, TcpSession.View, TcpSession.Footprint, S.Input, S.Listen, S.Initial, Valid, Tcbs;
      assert sessions == Hosted().table.sessions && nextSession == Hosted().table.next;
      if a.peer in sessions {
        HoldsAll(sessions[a.peer]);
        Deliver(sessions[a.peer], a);
      } else if a.packet.flags == FLAG_SYN {
        HoldsAll(nextSession);
        var created := CreateSession(a.peer, a.lastAck);
        HoldsAll(created);
        Open(created);
        Deliver(created, a);
      } else {
        Refuse(a.peer);
      }
    }

    lemma HoldsAll(s: R.Session)
      requires Valid()
      ensures s in objects <==> s in Tcbs()
    {
    }

    /** Answers with a RST. */
    method Refuse(peer: Peer)
      requires Valid()
      modifies `refused
      ensures Valid() && Tcbs() == old(Tcbs()) && refused == old(refused) + [peer]
    {
      hide TcpSession.Valid, TcpSession.View, TcpSession.Footprint;
      refused := refused + [peer];
    }

    /** `input` of the session that was found. */
    method Deliver(s: R.Session, a: Arrival)
      requires Valid() && s in objects && s in Tcbs()
      modifies parts
      ensures unchanged(this) && Valid()
      ensures Tcbs() == old(Tcbs())[s := S.Input(old(Tcbs())[s], a.packet, a.intact, a.iss)]
    {
      hide TcpSession.Valid, TcpSession.View, TcpSession.Footprint, S.Input;
      objects[s].Input(a.packet, a.intact, a.iss);
    }

    /** `listen` of the session that was created. */
    method Open(s: R.Session)
      requires Valid() && s in objects && s in Tcbs()
      modifies parts
      ensures unchanged(this) && Valid()
      ensures Tcbs() == old(Tcbs())[s := S.Listen(old(Tcbs())[s])]
    {
      hide TcpSession.Valid, TcpSession.View, TcpSession.Footprint, S.Listen;
      PartOfItself(objects[s]);
      objects[s].Listen();
    }

    lemma PartOfItself(session: TcpSession)
      ensures session in session.Footprint()
    {
    }

    /** Creates a session object; `try_emplace` puts it into the table unless the peer has one already. */
    method CreateSession(peer: Peer, lastAck: u32) returns (s: R.Session)
      requires Valid() && nextSession !in objects
      modifies `sessions, `nextSession, `objects, `parts
      ensures Valid() && fresh(parts - old(parts)) && peer in sessions && s == sessions[peer]
      ensures peer in old(sessions) ==>
        sessions == old(sessions) && nextSession == old(nextSession) && Tcbs() == old(Tcbs())
      ensures peer !in old(sessions) ==>
        && s == old(nextSession) && nextSession == s + 1 && sessions == old(sessions)[peer := s]
        && Tcbs() == old(Tcbs())[s := Fresh(lastAck)]
    {
      hide TcpSession.Valid, TcpSession.View, TcpSession.Footprint, S.Initial, Valid, Tcbs;
      var session := new TcpSession(1, lastAck, true);
      if peer !in sessions {
        Emplace(peer, session);
      }
      s := sessions[peer];
    }

    /** The table takes over an object that shares nothing with the others. */
    method Emplace(peer: Peer, session: TcpSession)
      requires Valid() && nextSession !in objects
      requires session.Valid() && session.Footprint() !! parts && this !in session.Footprint()
      modifies `sessions, `nextSession, `objects, `parts
      ensures Valid() && parts == old(parts) + session.Footprint()
      ensures nextSession == old(nextSession) + 1 && sessions == old(sessions)[peer := old(nextSession)]
      ensures Tcbs() == old(Tcbs())[old(nextSession) := old(session.View())]
    {
      hide TcpSession.Valid, TcpSession.View, TcpSession.Footprint;
      objects := objects[nextSession := session];
      sessions := sessions[peer := nextSession];
      nextSession := nextSession + 1;
      parts := parts + session.Footprint();
    }

    method OnClosed(peer: Peer)
      requires Valid()
      modifies `sessions
      ensures Valid() && Hosted() == Erase(old(Hosted()), peer)
    {
      hide TcpSession.Valid, TcpSession.View, TcpSession.Footprint;
      sessions := sessions - {peer};
    }

    method EnqueueReadySession(s: R.Session)
      modifies `readyQueue, `idleActive
      ensures Ready() == R.Enqueue(old(Ready()), s)
    {
      readyQueue := readyQueue + [s];
      if !idleActive {
        idleActive := true;
      }
    }

    /** The session's `_trigger_event`, with the stack's callback installed. */
    method TriggerEvent(s: R.Session)
      modifies `readyQueue, `inReadyQueue, `idleActive
      ensures Ready() == R.Trigger(old(Ready()), s)
    {
      if s !in inReadyQueue {
        inReadyQueue := inReadyQueue + {s};
        EnqueueReadySession(s);
      }
    }

    /** What the application's callback does, as far as triggers are concerned. */
    method AppLogic(triggers: seq<R.Session>)
      modifies `readyQueue, `inReadyQueue, `idleActive
      ensures Ready() == R.TriggerAll(old(Ready()), triggers)
    {
      var i := 0;
      while i < |triggers|
        invariant 0 <= i <= |triggers|
        invariant R.TriggerAll(Ready(), triggers[i..]) == R.TriggerAll(old(Ready()), triggers)
      {
        assert triggers[i..][0] == triggers[i] && triggers[i..][1..] == triggers[i + 1..];
        TriggerEvent(triggers[i]);
        i := i + 1;
      }
    }

    /** `reactions[i]` is what the callback of the `i`-th session triggers; without a callback it is empty. */
    method OnIdleDispatch(reactions: seq<seq<R.Session>>) returns (served: seq<R.Session>)
      modifies `readyQueue, `inReadyQueue, `idleActive
      ensures Ready() == R.Dispatch(old(Ready()), reactions)
      ensures served == R.ServedBy(old(Ready()), R.Idle(reactions))
    {
      idleActive := false;
      served := [];
      if readyQueue == [] {
        return;
      }
      var processingBatch := readyQueue;
      readyQueue := [];
      var i := 0;
      while i < |processingBatch|
        invariant 0 <= i <= |processingBatch| && served == processingBatch[..i]
        invariant R.Serve(Ready(), processingBatch, i, reactions) == R.Dispatch(old(Ready()), reactions)
      {
        var s := processingBatch[i];
        inReadyQueue := inReadyQueue - {s};
        served := served + [s];
        AppLogic(R.Reaction(reactions, i));
        i := i + 1;
      }
    }
  }
}
