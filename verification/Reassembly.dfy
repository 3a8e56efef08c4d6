/** Reassembly for a receive window of any size: what the draining loop takes, and when it never ends. */
module Reassembly {
  import opened Types
  import opened Session
  import opened Endpoints
  import opened Alignment
  import opened Network
  import opened Connection
  import opened SingleRuns
  import opened Segments
  import opened Tracking
  import opened Boundaries
  import BQ = BoundedQueue

  /** Stored pieces are not empty, do not wrap and do not overlap. */
  predicate Disjoint(ooo: map<u32, seq<u8>>) {
    && (forall k :: k in ooo ==> ooo[k] != [] && k + |ooo[k]| < 0x1_0000_0000)
    && (forall j, k :: j in ooo && k in ooo && j < k ==> j + |ooo[j]| <= k)
  }

  predicate FromOn(ooo: map<u32, seq<u8>>, n: u32) {
    forall k :: k in ooo ==> n <= k
  }

  predicate Beyond(ooo: map<u32, seq<u8>>, n: u32) {
    forall k :: k in ooo ==> n < k
  }

  predicate Holds(ooo: map<u32, seq<u8>>, k: u32, i: int) {
    k in ooo && k <= i < k + |ooo[k]|
  }

  /** Some stored piece holds the byte numbered `i`. */
  ghost predicate Held(ooo: map<u32, seq<u8>>, i: int) {
    exists k :: Holds(ooo, k, i)
  }

  /** Where the contiguous run of stored pieces that starts at `n` ends. */
  function RunEnd(ooo: map<u32, seq<u8>>, n: u32): u32
    decreases ooo.Keys
  {
    if n in ooo && n + |ooo[n]| < 0x1_0000_0000 then RunEnd(ooo - {n}, n + |ooo[n]|) else n
  }

  lemma PieceTaken(ooo: map<u32, seq<u8>>, n: u32)
    requires Disjoint(ooo) && FromOn(ooo, n) && n in ooo
    ensures Disjoint(ooo - {n}) && FromOn(ooo - {n}, n + |ooo[n]|)
  {
  }

  lemma HeldAfterTaking(ooo: map<u32, seq<u8>>, n: u32, i: int)
    requires Disjoint(ooo) && n in ooo && n + |ooo[n]| <= i
    ensures Held(ooo, i) <==> Held(ooo - {n}, i)
  {
    forall k | k != n ensures Holds(ooo, k, i) == Holds(ooo - {n}, k, i) {
    }
    if Held(ooo, i) {
      var k :| Holds(ooo, k, i);
      assert Holds(ooo - {n}, k, i);
    }
    if Held(ooo - {n}, i) {
      var k :| Holds(ooo - {n}, k, i);
      assert Holds(ooo, k, i);
    }
  }

  /** The run is contiguous, ends at a byte that is missing, and nothing stored lies across its end. */
  lemma {:induction false} RunEndIsLongest(ooo: map<u32, seq<u8>>, n: u32)
    requires Disjoint(ooo) && FromOn(ooo, n)
    ensures n <= RunEnd(ooo, n)
    ensures forall i :: n <= i < RunEnd(ooo, n) ==> Held(ooo, i)
    ensures !Held(ooo, RunEnd(ooo, n))
    decreases ooo.Keys
  {
    if n !in ooo {
    } else {
      var next := n + |ooo[n]|;
      PieceTaken(ooo, n);
      RunEndIsLongest(ooo - {n}, next);
      HeldAfterTaking(ooo, n, RunEnd(ooo, n));
      forall i | n <= i < RunEnd(ooo, n) ensures Held(ooo, i) {
        if i < next {
          assert Holds(ooo, n, i);
        } else {
          HeldAfterTaking(ooo, n, i);
        }
      }
    }
  }

  /** Nothing stored starts at the end of the run, or lies across it. */
  lemma NothingAtEnd(ooo: map<u32, seq<u8>>, n: u32, k: u32)
    requires Disjoint(ooo) && FromOn(ooo, n) && k in ooo
    ensures k != RunEnd(ooo, n) && (k < RunEnd(ooo, n) ==> k + |ooo[k]| <= RunEnd(ooo, n))
  {
    RunEndIsLongest(ooo, n);
    assert !Holds(ooo, k, RunEnd(ooo, n));
  }

  /** Piece `k` stands in `data` at its distance from `n`. */
  predicate Placed(data: seq<u8>, n: u32, k: u32, piece: seq<u8>) {
    n <= k && k - n + |piece| <= |data| && data[k - n..k - n + |piece|] == piece
  }

  /** The pieces from `n` on. */
  function From(ooo: map<u32, seq<u8>>, n: u32): map<u32, seq<u8>> {
    map k | k in ooo && n <= k :: ooo[k]
  }

  /** The draining loop as a whole: it takes the run, in order, or spins forever if the run does not fit. */
  ghost predicate Drained(t: Tcb, u: Tcb) {
    var end := RunEnd(t.ooo, t.recvNext);
    && (u.hung <==> |t.recvBuffer| + (end - t.recvNext) > CAPACITY)
    && (!u.hung ==>
          && u.recvNext == end
          && u.ooo == From(t.ooo, end)
          && |u.recvBuffer| == |t.recvBuffer| + (end - t.recvNext)
          && t.recvBuffer <= u.recvBuffer
          && forall k :: k in t.ooo && k < end ==> Placed(u.recvBuffer[|t.recvBuffer|..], t.recvNext, k, t.ooo[k]))
  }

  lemma PlacedLater(buffer: seq<u8>, data: seq<u8>, all: seq<u8>, n: u32, k: u32, piece: seq<u8>)
    requires buffer + data <= all && n + |data| < 0x1_0000_0000
    requires Placed(all[|buffer + data|..], n + |data|, k, piece)
    ensures Placed(all[|buffer|..], n, k, piece)
  {
    var later := all[|buffer + data|..];
    assert forall i :: 0 <= i < |later| ==> later[i] == all[|buffer|..][i + |data|];
    assert later[k - n - |data|..k - n - |data| + |piece|] == all[|buffer|..][k - n..k - n + |piece|];
  }

  /** Pieces placed after the first one are placed after both. */
  lemma AllPlaced(ooo: map<u32, seq<u8>>, n: u32, end: u32, buffer: seq<u8>, all: seq<u8>)
    requires Disjoint(ooo) && FromOn(ooo, n) && n in ooo && buffer + ooo[n] <= all
    requires forall k :: k in ooo - {n} && k < end ==> Placed(all[|buffer + ooo[n]|..], n + |ooo[n]|, k, (ooo - {n})[k])
    ensures forall k :: k in ooo && k < end ==> Placed(all[|buffer|..], n, k, ooo[k])
  {
    forall k | k in ooo && k < end ensures Placed(all[|buffer|..], n, k, ooo[k]) {
      if k == n {
        assert all[..|buffer + ooo[n]|] == buffer + ooo[n];
        assert all[|buffer|..][0..|ooo[n]|] == ooo[n];
      } else {
        assert k in ooo - {n};
        PlacedLater(buffer, ooo[n], all, n, k, ooo[k]);
      }
    }
  }

  lemma RunEndStep(ooo: map<u32, seq<u8>>, n: u32)
    requires Disjoint(ooo) && FromOn(ooo, n) && n in ooo
    ensures n + |ooo[n]| <= RunEnd(ooo - {n}, n + |ooo[n]|) == RunEnd(ooo, n)
  {
    PieceTaken(ooo, n);
    RunEndIsLongest(ooo - {n}, n + |ooo[n]|);
  }

  lemma FromStep(ooo: map<u32, seq<u8>>, n: u32, end: u32)
    requires n < end
    ensures From(ooo - {n}, end) == From(ooo, end)
  {
  }

  /** One round of the loop, seen from its end. */
  lemma DrainOne(t: Tcb, next: Tcb, u: Tcb)
    requires Disjoint(t.ooo) && FromOn(t.ooo, t.recvNext) && t.recvNext in t.ooo
    requires next.ooo == t.ooo - {t.recvNext} && next.recvNext == t.recvNext + |t.ooo[t.recvNext]|
    requires next.recvBuffer == t.recvBuffer + t.ooo[t.recvNext]
    requires Drained(next, u)
    ensures Drained(t, u)
  {
    hide Placed, RunEnd, FromOn, From;
    RunEndStep(t.ooo, t.recvNext);
    var end := RunEnd(t.ooo, t.recvNext);
    if !u.hung {
      FromStep(t.ooo, t.recvNext, end);
      AllPlaced(t.ooo, t.recvNext, end, t.recvBuffer, u.recvBuffer);
    } else {
    }
  }

  lemma DrainNone(t: Tcb)
    requires !t.hung && FromOn(t.ooo, t.recvNext) && t.recvNext !in t.ooo
    ensures Drained(t, t)
  {
    assert From(t.ooo, t.recvNext) == t.ooo;
  }

  lemma DrainStuck(t: Tcb)
    requires Disjoint(t.ooo) && FromOn(t.ooo, t.recvNext) && t.recvNext in t.ooo
    requires !BQ.Fits(t.recvBuffer, CAPACITY, t.ooo[t.recvNext])
    ensures Drained(t, t.(hung := true))
  {
    PieceTaken(t.ooo, t.recvNext);
    RunEndIsLongest(t.ooo - {t.recvNext}, t.recvNext + |t.ooo[t.recvNext]|);
  }

  lemma {:induction false} DrainExact(t: Tcb)
    requires !t.hung && Disjoint(t.ooo) && FromOn(t.ooo, t.recvNext)
    ensures Drained(t, Drain(t))
    decreases t.ooo.Keys
  {
    hide Drained, RunEnd;
    if t.recvNext !in t.ooo {
      DrainNone(t);
    } else if BQ.Fits(t.recvBuffer, CAPACITY, t.ooo[t.recvNext]) {
      PieceTaken(t.ooo, t.recvNext);
      DrainExact(TakeStored(t));
      DrainOne(t, TakeStored(t), Drain(TakeStored(t)));
    } else {
      DrainStuck(t);
    }
  }

  /** With enough room the loop ends and nothing that could be delivered is left waiting. */
  lemma {:induction false} DrainTerminates(t: Tcb)
    requires !t.hung && Disjoint(t.ooo) && FromOn(t.ooo, t.recvNext)
    requires |t.recvBuffer| + (RunEnd(t.ooo, t.recvNext) - t.recvNext) <= CAPACITY
    ensures !Drain(t).hung && Beyond(Drain(t).ooo, Drain(t).recvNext)
    ensures !Held(t.ooo, Drain(t).recvNext)
    ensures forall i :: t.recvNext <= i < Drain(t).recvNext ==> Held(t.ooo, i)
  {
    DrainExact(t);
    RunEndIsLongest(t.ooo, t.recvNext);
    forall k | k in Drain(t).ooo ensures Drain(t).recvNext < k {
      NothingAtEnd(t.ooo, t.recvNext, k);
    }
  }

  // Runs of the system

  lemma PieceEnds(base: u32, cuts: seq<nat>, last: int, j: u32, piece: seq<u8>)
    requires CutsUpTo(cuts, last) && base + last < 0x1_0000_0000 && WholePiece(base, cuts, j, piece)
    ensures piece != [] && j + |piece| <= base + last
  {
    var a: nat :| a + 1 < |cuts| && j == Start(base, cuts, a) && cuts[a] + |piece| == cuts[a + 1];
    NextCut(cuts, last, a, |cuts| - 1);
  }

  lemma NextCut(cuts: seq<nat>, last: int, a: nat, b: nat)
    requires CutsUpTo(cuts, last) && a < |cuts| && b < |cuts| && cuts[a] < cuts[b]
    ensures a < b && cuts[a + 1] <= cuts[b]
  {
    if a + 1 < b {
      assert cuts[a + 1] < cuts[b];
    }
  }

  lemma PiecesApart(base: u32, cuts: seq<nat>, last: int, j: u32, first: seq<u8>, k: u32, second: seq<u8>)
    requires CutsUpTo(cuts, last) && base + last < 0x1_0000_0000 && j < k
    requires WholePiece(base, cuts, j, first) && WholePiece(base, cuts, k, second)
    ensures j + |first| <= k
  {
    var a: nat :| a + 1 < |cuts| && j == Start(base, cuts, a) && cuts[a] + |first| == cuts[a + 1];
    var b: nat :| b + 1 < |cuts| && k == Start(base, cuts, b) && cuts[b] + |second| == cuts[b + 1];
    StartInPlace(base, cuts, last, a);
    StartInPlace(base, cuts, last, b);
    hide CutsUpTo, Start;
    NextCut(cuts, last, a, b);
  }

  lemma StartInPlace(base: u32, cuts: seq<nat>, last: int, a: nat)
    requires CutsUpTo(cuts, last) && base + last < 0x1_0000_0000 && a < |cuts|
    ensures Start(base, cuts, a) == base + cuts[a]
  {
    if a < |cuts| - 1 {
      assert cuts[a] < cuts[|cuts| - 1];
    }
  }

  lemma WholeDisjoint(base: u32, cuts: seq<nat>, last: int, ooo: map<u32, seq<u8>>)
    requires CutsUpTo(cuts, last) && base + last < 0x1_0000_0000
    requires forall k :: k in ooo ==> WholePiece(base, cuts, k, ooo[k])
    ensures Disjoint(ooo)
  {
    hide CutsUpTo, WholePiece;
    forall k | k in ooo ensures ooo[k] != [] && k + |ooo[k]| < 0x1_0000_0000 {
      PieceEnds(base, cuts, last, k, ooo[k]);
    }
    forall j, k | j in ooo && k in ooo && j < k ensures j + |ooo[j]| <= k {
      PiecesApart(base, cuts, last, j, ooo[j], k, ooo[k]);
    }
  }

  /** Unless the session spins, everything stored lies beyond the byte expected next. */
  predicate WaitsBeyond(t: Tcb) {
    !t.hung ==> Beyond(t.ooo, t.recvNext)
  }

  /** A whole segment of the peer's stream, whenever it arrives. */
  lemma {:induction false} IncomingBeyond(t: Tcb, base: u32, cuts: seq<nat>, last: int, packet: Packet)
    requires CutsUpTo(cuts, last) && base + last < 0x1_0000_0000
    requires !t.hung && WaitsBeyond(t) && forall k :: k in t.ooo ==> WholePiece(base, cuts, k, t.ooo[k])
    requires WholePiece(base, cuts, packet.seqNum, packet.payload)
    ensures WaitsBeyond(HandleIncoming(t, packet))
  {
    hide CutsUpTo, WholePiece, Drain;
    if packet.seqNum == t.recvNext {
      var taken := Take(t, packet.payload);
      WholeDisjoint(base, cuts, last, t.ooo);
      WholeDisjoint(base, cuts, last, t.ooo[packet.seqNum := packet.payload]);
      TakenFromOn(t, packet);
      if |taken.recvBuffer| + (RunEnd(taken.ooo, taken.recvNext) - taken.recvNext) <= CAPACITY {
        DrainTerminates(taken);
      } else {
        DrainExact(taken);
      }
    } else {
      StoreBeyond(t, packet);
    }
  }

  lemma TakenFromOn(t: Tcb, packet: Packet)
    requires packet.seqNum == t.recvNext && Beyond(t.ooo, t.recvNext)
    requires Disjoint(t.ooo[packet.seqNum := packet.payload])
    ensures FromOn(Take(t, packet.payload).ooo, Take(t, packet.payload).recvNext)
    ensures Take(t, packet.payload).ooo == t.ooo && !Take(t, packet.payload).hung == !t.hung
  {
    var more := t.ooo[packet.seqNum := packet.payload];
    forall k | k in t.ooo ensures t.recvNext + |packet.payload| <= k {
      assert more[k] == t.ooo[k] && packet.seqNum in more;
    }
    assert more[t.recvNext] == packet.payload;
  }

  lemma StoreBeyond(t: Tcb, packet: Packet)
    requires Beyond(t.ooo, t.recvNext)
    ensures Beyond(Store(t, packet).ooo, t.recvNext) && Store(t, packet).recvNext == t.recvNext
  {
  }

  ghost predicate InOrder(s: Endpoint, r: Endpoint) {
    s.tcb.state == ESTABLISHED && r.tcb.state == ESTABLISHED ==> WaitsBeyond(r.tcb)
  }

  lemma NothingStoredYet(s: Endpoint, r: Endpoint)
    requires Sound(s) && Link(s, r) && Active(r) && !s.established
    ensures r.tcb.ooo == map[]
  {
    assert forall k :: k !in r.tcb.ooo;
  }

  lemma SenderInOrder(s: Endpoint, r: Endpoint, ev: Event)
    requires Sound(s) && Sound(r) && Link(s, r) && InOrder(s, r) && Enabled(s, ev)
    ensures InOrder(Next(s, ev), r)
  {
    hide Perform, StreamInv, Link;
    if Next(s, ev).tcb.state == ESTABLISHED && r.tcb.state == ESTABLISHED && s.tcb.state != ESTABLISHED {
      NotReestablished(s, ev);
      NothingStoredYet(s, r);
    }
  }

  lemma EstablishedInOrder(s: Endpoint, r: Endpoint, p: Packet)
    requires Sound(s) && Sound(r) && Link(s, r) && Charting(s) && AtBoundaries(s, r) && InOrder(s, r)
    requires s.tcb.state == ESTABLISHED == r.tcb.state && Base(s) + |s.accepted| < 0x1_0000_0000
    requires p in s.tcb.out && !r.tcb.hung
    ensures var u := HandleEstablished(r.tcb, p);
      u.state == ESTABLISHED ==> WaitsBeyond(u)
  {
    hide Acked, HandleIncoming, StreamInv, WholePiece, Charting, Link;
    AckedReceives(s, r, p);
    ChartedCuts(s);
    AlignedNow(s);
    if p.payload != [] {
      SegmentIsWhole(s, p);
      IncomingBeyond(Acked(r.tcb, p), Base(s), s.cuts, Sent(s.tcb, s.accepted), p);
    }
  }

  lemma ReceiverInOrder(s: Endpoint, r: Endpoint, ev: Event)
    requires Sound(s) && Sound(r) && Link(s, r) && Charting(s) && AtBoundaries(s, r) && InOrder(s, r)
    requires Enabled(r, ev) && Deliverable(s, ev) && Base(s) + |s.accepted| < 0x1_0000_0000
    ensures InOrder(s, Next(r, ev))
  {
    hide Dispatch, StreamInv, WholePiece, Charting, AtBoundaries, Close, Send, Expire, HandleEstablished, Link;
    if s.tcb.state == ESTABLISHED && Next(r, ev).tcb.state == ESTABLISHED {
      if r.tcb.state != ESTABLISHED {
        NotReestablished(r, ev);
        UnestablishedStores(s, r, ev);
      } else if !ev.Deliver? {
        LocalIdle(r, ev);
      } else if ev.intact && !ev.packet.flags.rst
             && (ev.packet.flags.ack || ev.packet.flags.syn || ev.packet.flags.fin) {
        ToldSound(r, ev.packet);
        ToldBoundaries(s, r, ev.packet);
        EstablishedInOrder(s, r.(tcb := r.tcb.(peerWindow := ev.packet.window)), ev.packet);
        EstablishedDispatched(r.tcb.(peerWindow := ev.packet.window), ev.packet, r.iss);
      }
    }
  }

  lemma EstablishedDispatched(t: Tcb, p: Packet, iss: u32)
    requires t.state == ESTABLISHED
    ensures Dispatch(t, p, iss) == HandleEstablished(t, p)
  {
  }

  lemma UnestablishedStores(s: Endpoint, r: Endpoint, ev: Event)
    requires Sound(r) && Link(s, r) && !r.established && r.tcb.state != ESTABLISHED && Enabled(r, ev)
    ensures Next(r, ev).tcb.ooo == map[]
  {
    hide Dispatch, StreamInv, Close, Send, Expire;
    if ev.Deliver? && (!ev.intact || ev.packet.flags.rst) {
    } else if ev.Deliver? {
      OtherDispatchTakes(r.tcb.(peerWindow := ev.packet.window), ev.packet, r.iss);
    } else {
      LocalIdle(r, ev);
    }
  }

  /** All of the sender's sequence numbers, up to the last byte accepted in the run, fit in 32 bits. */
  predicate NoWrap(start: Endpoint, final: Endpoint) {
    Base(start) + |final.accepted| < 0x1_0000_0000
  }

  ghost predicate OrderInv(s: System) {
    BoundaryInv(s) && InOrder(s.client, s.server) && InOrder(s.server, s.client)
  }

  lemma SideInOrder(e: Endpoint, peer: Endpoint, ev: Event)
    requires Sound(e) && Sound(peer) && Link(e, peer) && Link(peer, e) && e.passive != peer.passive
    requires Charting(peer) && AtBoundaries(peer, e) && InOrder(e, peer) && InOrder(peer, e)
    requires Possible(e, ev) && Deliverable(peer, ev) && Base(peer) + |peer.accepted| < 0x1_0000_0000
    ensures InOrder(Next(e, ev), peer) && InOrder(peer, Next(e, ev))
  {
    hide Next, StreamInv, Link, Charting, AtBoundaries, InOrder;
    NoSimultaneousOpen(e, peer, ev);
    SenderInOrder(e, peer, ev);
    ReceiverInOrder(peer, e, ev);
  }

  lemma OrderStep(s: System, turn: Turn)
    requires OrderInv(s) && CanStep(s, turn) && Small(Step(s, turn))
    requires NoWrap(s.client, s.client) && NoWrap(s.server, s.server)
    ensures OrderInv(Step(s, turn))
  {
    hide Next, Sound, Link, Charting, AtBoundaries, InOrder;
    BoundaryStep(s, turn);
    if turn.atClient {
      SideInOrder(s.client, s.server, turn.event);
    } else {
      SideInOrder(s.server, s.client, turn.event);
    }
  }

  lemma {:induction false} RunInOrder(s: System, trace: seq<Turn>)
    requires OrderInv(s) && SystemRuns(s, trace)
    requires NoWrap(s.client, SystemAfter(s, trace).client) && NoWrap(s.server, SystemAfter(s, trace).server)
    ensures OrderInv(SystemAfter(s, trace))
    decreases |trace|
  {
    hide BoundaryInv, Small, Step, CanStep, InOrder, Consistent;
    if trace == [] {
    } else {
      SystemGrows(s, trace);
      SystemGrows(Step(s, trace[0]), trace[1..]);
      InvParts(s);
      FirstStep(s, trace);
      OrderStep(s, trace[0]);
      RunInOrder(Step(s, trace[0]), trace[1..]);
    }
  }

  lemma InvParts(s: System)
    requires BoundaryInv(s)
    ensures Consistent(s) && Small(s)
  {
  }

  lemma NotYetInOrder(start: System)
    requires Starts(start)
    ensures BoundaryInv(start) && InOrder(start.client, start.server) && InOrder(start.server, start.client)
  {
    StartsConsistent(start);
    NewCharting(start.client);
    NewCharting(start.server);
    NotYetAtBoundaries(start);
  }

  /**
   * In every run of the system, with receive windows of any size: while both sides are established and the session
   * does not spin, whatever it stored lies beyond `recvNext`, so nothing that could be delivered is left waiting.
   */
  lemma {:induction false} NothingDeliverableWaits(start: System, trace: seq<Turn>)
    requires Starts(start) && SystemRuns(start, trace)
    requires var f := SystemAfter(start, trace);
      NoWrap(start.client, f.client) && NoWrap(start.server, f.server)
    ensures var f := SystemAfter(start, trace);
      f.client.tcb.state == ESTABLISHED && f.server.tcb.state == ESTABLISHED ==>
        && (!f.client.tcb.hung ==> Beyond(f.client.tcb.ooo, f.client.tcb.recvNext))
        && (!f.server.tcb.hung ==> Beyond(f.server.tcb.ooo, f.server.tcb.recvNext))
  {
    hide BoundaryInv;
    NotYetInOrder(start);
    RunInOrder(start, trace);
  }
}
