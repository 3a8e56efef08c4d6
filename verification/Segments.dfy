/**
 * The segments of an established connection: where they start and end, which timers guard them and how often each
 * is transmitted.
 */
module Segments {
  import opened Types
  import opened Session
  import opened Endpoints
  import opened Streams
  import T = Timers

  predicate IsData(p: Packet, x: u32) {
    p.payload != [] && p.seqNum == x
  }

  /** How often data with sequence number `x` was transmitted. */
  function Copies(out: seq<Packet>, x: u32): nat {
    if out == [] then 0
    else Copies(out[..|out| - 1], x) + if IsData(out[|out| - 1], x) then 1 else 0
  }

  lemma CopiesOneMore(out: seq<Packet>, p: Packet, x: u32)
    ensures Copies(out + [p], x) == Copies(out, x) + if IsData(p, x) then 1 else 0
  {
    assert (out + [p])[..|out|] == out;
  }

  lemma {:induction false} NoCopies(out: seq<Packet>, x: u32)
    requires forall p :: p in out ==> !IsData(p, x)
    ensures Copies(out, x) == 0
  {
    if out == [] {
    } else {
      NoCopies(out[..|out| - 1], x);
    }
  }

  /** The stream positions, in order, at which segments start and end. */
  predicate CutsUpTo(cuts: seq<nat>, last: int) {
    && cuts != [] && cuts[0] == 0 && cuts[|cuts| - 1] == last
    && forall j, k :: 0 <= j < k < |cuts| ==> cuts[j] < cuts[k]
  }

  /** The sequence number of the `k`-th segment. */
  function Start(base: u32, cuts: seq<nat>, k: nat): u32
    requires k < |cuts|
  {
    Wrap32(base + cuts[k])
  }

  lemma DistinctStarts(base: u32, cuts: seq<nat>, last: int, j: nat, k: nat)
    requires CutsUpTo(cuts, last) && last < 0x1_0000_0000
    requires j < |cuts| && k < |cuts| && Start(base, cuts, j) == Start(base, cuts, k)
    ensures j == k
  {
  }

  predicate SegmentAt(base: u32, cuts: seq<nat>, k: nat, p: Packet) {
    k + 1 < |cuts| && p.seqNum == Start(base, cuts, k) && cuts[k] + |p.payload| == cuts[k + 1]
  }

  /** The packet is one whole segment. */
  ghost predicate IsSegment(base: u32, cuts: seq<nat>, p: Packet) {
    exists k: nat :: SegmentAt(base, cuts, k, p)
  }

  lemma LongerCuts(base: u32, cuts: seq<nat>, position: nat, p: Packet)
    requires IsSegment(base, cuts, p)
    ensures IsSegment(base, cuts + [position], p)
  {
    var k: nat :| SegmentAt(base, cuts, k, p);
    assert SegmentAt(base, cuts + [position], k, p);
  }

  /** The timer of the segment at `x` runs, or the segment has been sent as often as it ever will. */
  predicate Guarded(t: Tcb, x: u32) {
    && x in t.timers.entries
    && (t.timers.entries[x] in t.timers.armed || Copies(t.out, x) == MAX_RETRANSMIT_COUNT)
  }

  /** An armed timer of an established connection: it guards a whole segment and counts its transmissions. */
  ghost predicate Running(t: Tcb, base: u32, cuts: seq<nat>, timer: T.Armed) {
    && timer.packet.payload != [] && timer.seqNum == timer.packet.seqNum
    && IsSegment(base, cuts, timer.packet)
    && timer.count < MAX_RETRANSMIT_COUNT
    && timer.delay == INITIAL_RTO * Pow2(timer.count)
    && Copies(t.out, timer.seqNum) == timer.count + 1
  }

  ghost predicate AllSegments(t: Tcb, base: u32, cuts: seq<nat>) {
    forall p :: p in t.out && p.payload != [] ==> IsSegment(base, cuts, p)
  }

  predicate AllCounted(t: Tcb, base: u32, cuts: seq<nat>) {
    forall k: nat :: k + 1 < |cuts| ==> 1 <= Copies(t.out, Start(base, cuts, k)) <= MAX_RETRANSMIT_COUNT
  }

  ghost predicate AllRunning(t: Tcb, base: u32, cuts: seq<nat>) {
    forall h :: h in t.timers.armed ==> Running(t, base, cuts, t.timers.armed[h])
  }

  predicate AllGuarded(t: Tcb, base: u32, cuts: seq<nat>, released: int) {
    forall k: nat :: k + 1 < |cuts| && cuts[k] >= released ==> Guarded(t, Start(base, cuts, k))
  }

  ghost predicate Tracked(t: Tcb, base: u32, cuts: seq<nat>, released: int) {
    && T.Owned(t.timers)
    && AllSegments(t, base, cuts) && AllCounted(t, base, cuts)
    && AllRunning(t, base, cuts) && AllGuarded(t, base, cuts, released)
  }

  lemma SameTracked(t: Tcb, u: Tcb, base: u32, cuts: seq<nat>, released: int)
    requires Tracked(t, base, cuts, released) && u.timers == t.timers && u.out == t.out
    ensures Tracked(u, base, cuts, released)
  {
  }

  /** A packet without payload changes nothing here. */
  lemma BareTracked(t: Tcb, u: Tcb, base: u32, cuts: seq<nat>, released: int, p: Packet)
    requires Tracked(t, base, cuts, released)
    requires u.timers == t.timers && u.out == t.out + [p] && p.payload == []
    ensures Tracked(u, base, cuts, released)
  {
    forall x ensures Copies(u.out, x) == Copies(t.out, x) {
      CopiesOneMore(t.out, p, x);
    }
  }

  /** Dropping the timers below `n` takes none from a segment at or above `n`. */
  lemma DropTracked(t: Tcb, u: Tcb, base: u32, cuts: seq<nat>, released: int, kept: int, n: u32)
    requires Tracked(t, base, cuts, released) && released <= kept
    requires u.timers == T.DropUpTo(t.timers, n) && u.out == t.out
    requires forall k: nat :: k + 1 < |cuts| && cuts[k] >= kept ==> n <= Start(base, cuts, k)
    ensures Tracked(u, base, cuts, kept)
  {
    T.DropUpToExact(t.timers, n);
    T.DropUpToKeepsOwned(t.timers, n);
    forall k: nat | k + 1 < |cuts| && cuts[k] >= kept ensures Guarded(u, Start(base, cuts, k)) {
      DropGuarded(t, u, Start(base, cuts, k), n);
    }
  }

  lemma DropGuarded(t: Tcb, u: Tcb, x: u32, n: u32)
    requires T.Owned(t.timers) && Guarded(t, x) && n <= x
    requires u.timers == T.DropUpTo(t.timers, n) && u.out == t.out
    ensures Guarded(u, x)
  {
    T.DropUpToExact(t.timers, n);
  }

  /** Starting the timer of `x` leaves the other sequence numbers' timers as they are. */
  lemma StartOthers(ts: T.Table, x: u32, delay: nat, packet: Packet, count: nat)
    requires T.Owned(ts)
    ensures var after := T.StartTimer(ts, x, delay, packet, count);
      && x in after.entries && after.entries[x] == ts.next && ts.next in after.armed
      && after.armed[ts.next] == T.Armed(x, delay, packet, count)
      && (forall h :: h in after.armed && h != ts.next ==>
            h in ts.armed && after.armed[h] == ts.armed[h] && ts.armed[h].seqNum != x)
      && (forall y :: y in ts.entries && y != x ==>
            y in after.entries && after.entries[y] == ts.entries[y]
            && (ts.entries[y] in ts.armed ==> ts.entries[y] in after.armed))
  {
  }

  /** One more transmission of data at `x`, with its timer started. */
  predicate Transmitted(t: Tcb, u: Tcb, p: Packet, count: nat) {
    && p.payload != []
    && u.timers == T.StartTimer(t.timers, p.seqNum, INITIAL_RTO * Pow2(count), p, count)
    && u.out == t.out + [p]
  }

  lemma TransmittedRuns(t: Tcb, u: Tcb, base: u32, cuts: seq<nat>, p: Packet, count: nat)
    requires T.Owned(t.timers) && AllRunning(t, base, cuts) && Transmitted(t, u, p, count)
    requires IsSegment(base, cuts, p) && count < MAX_RETRANSMIT_COUNT && Copies(t.out, p.seqNum) == count
    ensures AllRunning(u, base, cuts)
  {
    StartOthers(t.timers, p.seqNum, INITIAL_RTO * Pow2(count), p, count);
    forall h | h in u.timers.armed ensures Running(u, base, cuts, u.timers.armed[h]) {
      CopiesOneMore(t.out, p, u.timers.armed[h].seqNum);
    }
  }

  lemma TransmittedGuards(t: Tcb, u: Tcb, base: u32, cuts: seq<nat>, p: Packet, count: nat, k: nat)
    requires T.Owned(t.timers) && Transmitted(t, u, p, count) && k < |cuts|
    requires Start(base, cuts, k) == p.seqNum || Guarded(t, Start(base, cuts, k))
    ensures Guarded(u, Start(base, cuts, k))
  {
    StartOthers(t.timers, p.seqNum, INITIAL_RTO * Pow2(count), p, count);
    CopiesOneMore(t.out, p, Start(base, cuts, k));
  }

  lemma TransmittedCounts(t: Tcb, u: Tcb, base: u32, cuts: seq<nat>, p: Packet, count: nat, k: nat)
    requires Transmitted(t, u, p, count) && k < |cuts|
    requires count < MAX_RETRANSMIT_COUNT && Copies(t.out, p.seqNum) == count
    requires Start(base, cuts, k) == p.seqNum || 1 <= Copies(t.out, Start(base, cuts, k)) <= MAX_RETRANSMIT_COUNT
    ensures 1 <= Copies(u.out, Start(base, cuts, k)) <= MAX_RETRANSMIT_COUNT
  {
    CopiesOneMore(t.out, p, Start(base, cuts, k));
  }

  /** Data goes out, for the first time or again: every segment is tracked if the others were. */
  lemma TransmittedTracked(t: Tcb, u: Tcb, base: u32, cuts: seq<nat>, released: int, p: Packet, count: nat)
    requires T.Owned(t.timers) && AllSegments(t, base, cuts) && AllRunning(t, base, cuts)
    requires Transmitted(t, u, p, count)
    requires IsSegment(base, cuts, p) && count < MAX_RETRANSMIT_COUNT && Copies(t.out, p.seqNum) == count
    requires forall k: nat :: k + 1 < |cuts| && Start(base, cuts, k) != p.seqNum ==>
      1 <= Copies(t.out, Start(base, cuts, k)) <= MAX_RETRANSMIT_COUNT
    requires forall k: nat :: k + 1 < |cuts| && cuts[k] >= released && Start(base, cuts, k) != p.seqNum ==>
      Guarded(t, Start(base, cuts, k))
    ensures Tracked(u, base, cuts, released)
  {
    T.StartKeepsOwned(t.timers, p.seqNum, INITIAL_RTO * Pow2(count), p, count);
    TransmittedRuns(t, u, base, cuts, p, count);
    forall k: nat | k + 1 < |cuts| ensures 1 <= Copies(u.out, Start(base, cuts, k)) <= MAX_RETRANSMIT_COUNT {
      TransmittedCounts(t, u, base, cuts, p, count, k);
    }
    forall k: nat | k + 1 < |cuts| && cuts[k] >= released ensures Guarded(u, Start(base, cuts, k)) {
      TransmittedGuards(t, u, base, cuts, p, count, k);
    }
  }

  lemma LongerRunning(t: Tcb, base: u32, cuts: seq<nat>, position: nat)
    requires AllRunning(t, base, cuts) && AllSegments(t, base, cuts)
    ensures AllRunning(t, base, cuts + [position]) && AllSegments(t, base, cuts + [position])
  {
    forall h | h in t.timers.armed ensures Running(t, base, cuts + [position], t.timers.armed[h]) {
      LongerCuts(base, cuts, position, t.timers.armed[h].packet);
    }
    forall p | p in t.out && p.payload != [] ensures IsSegment(base, cuts + [position], p) {
      LongerCuts(base, cuts, position, p);
    }
  }

  lemma EndDiffers(base: u32, cuts: seq<nat>, last: nat, p: Packet)
    requires CutsUpTo(cuts, last) && last < 0x1_0000_0000 && IsSegment(base, cuts, p)
    ensures p.seqNum != Wrap32(base + last)
  {
    var k: nat :| SegmentAt(base, cuts, k, p);
    assert cuts[k] < last;
  }

  /** Nothing was sent at the end of the window before. */
  lemma EndIsFresh(t: Tcb, base: u32, cuts: seq<nat>, last: nat)
    requires CutsUpTo(cuts, last) && last < 0x1_0000_0000 && AllSegments(t, base, cuts)
    ensures Copies(t.out, Wrap32(base + last)) == 0
  {
    forall p | p in t.out && p.payload != [] ensures p.seqNum != Wrap32(base + last) {
      EndDiffers(base, cuts, last, p);
    }
    NoCopies(t.out, Wrap32(base + last));
  }

  /** What is known of the earlier segments is still known when one more cut is counted. */
  lemma EarlierTracked(t: Tcb, base: u32, cuts: seq<nat>, released: int, last: nat, position: nat, k: nat)
    requires CutsUpTo(cuts, last) && Tracked(t, base, cuts, released)
    requires k < |cuts| && Start(base, cuts + [position], k) != Wrap32(base + last)
    ensures 1 <= Copies(t.out, Start(base, cuts + [position], k)) <= MAX_RETRANSMIT_COUNT
    ensures cuts[k] >= released ==> Guarded(t, Start(base, cuts + [position], k))
  {
    if k + 1 < |cuts| {
      assert Start(base, cuts + [position], k) == Start(base, cuts, k);
    }
  }

  /** A new segment at the end of the window. */
  lemma AppendTracked(t: Tcb, u: Tcb, base: u32, cuts: seq<nat>, released: int, last: nat, p: Packet)
    requires CutsUpTo(cuts, last) && Tracked(t, base, cuts, released)
    requires Transmitted(t, u, p, 0) && last + |p.payload| < 0x1_0000_0000 && p.seqNum == Wrap32(base + last)
    ensures Tracked(u, base, cuts + [last + |p.payload|], released)
  {
    hide AllRunning, AllSegments, IsSegment, Guarded, Transmitted, Start, CutsUpTo;
    var more := cuts + [last + |p.payload|];
    EndIsFresh(t, base, cuts, last);
    LongerRunning(t, base, cuts, last + |p.payload|);
    NewSegment(base, cuts, last, p);
    forall k: nat | k + 1 < |more| && Start(base, more, k) != p.seqNum
      ensures 1 <= Copies(t.out, Start(base, more, k)) <= MAX_RETRANSMIT_COUNT
      ensures more[k] >= released ==> Guarded(t, Start(base, more, k))
    {
      EarlierTracked(t, base, cuts, released, last, last + |p.payload|, k);
    }
    TransmittedTracked(t, u, base, more, released, p, 0);
  }

  lemma PayloadTracked(t: Tcb, base: u32, cuts: seq<nat>, released: int, last: nat, data: seq<u8>)
    requires CutsUpTo(cuts, last) && Tracked(t, base, cuts, released)
    requires data != [] && last + |data| < 0x1_0000_0000 && t.sendNext == Wrap32(base + last)
    ensures CutsUpTo(cuts + [last + |data|], last + |data|)
    ensures Tracked(SendPayload(t, data, FLAG_ACK), base, cuts + [last + |data|], released)
  {
    hide Tracked, SendPayload;
    FirstTransmission(t, data);
    AppendTracked(t, SendPayload(t, data, FLAG_ACK), base, cuts, released, last, PayloadPacket(t, data, FLAG_ACK));
  }

  lemma NewSegment(base: u32, cuts: seq<nat>, last: nat, p: Packet)
    requires CutsUpTo(cuts, last) && p.seqNum == Wrap32(base + last)
    ensures IsSegment(base, cuts + [last + |p.payload|], p)
  {
    assert SegmentAt(base, cuts + [last + |p.payload|], |cuts| - 1, p);
  }

  lemma FirstTransmission(t: Tcb, data: seq<u8>)
    requires data != []
    ensures Transmitted(t, SendPayload(t, data, FLAG_ACK), PayloadPacket(t, data, FLAG_ACK), 0)
  {
    assert Pow2(0) == 1;
  }

  lemma EmptyPayload(t: Tcb)
    ensures SendPayload(t, [], FLAG_ACK) == t
  {
  }

  /** Trying to send adds at most one segment, at the end. */
  lemma {:induction false} TrySendTracked(t: Tcb, base: u32, stream: seq<u8>, cuts: seq<nat>, released: int)
    requires Aligned(t, base, stream) && |stream| < 0x1_0000_0000
    requires CutsUpTo(cuts, Sent(t, stream)) && Tracked(t, base, cuts, released)
    ensures var u, more := TrySend(t), WithCut(cuts, Sent(TrySend(t), stream));
      CutsUpTo(more, Sent(u, stream)) && Tracked(u, base, more, released)
  {
    hide Tracked, TrySend, Chunk, SendPayload;
    TrySendIsPayload(t);
    EmptyPayload(t);
    ChunkIsSlice(t, base, stream);
    PayloadAligned(t, base, stream, Chunk(t));
    NextOnStream(t, base, stream);
    if Chunk(t) != [] {
      PayloadTracked(t, base, cuts, released, Sent(t, stream), Chunk(t));
    }
  }

  /** A timer of an established connection expires. */
  lemma ExpireTracked(t: Tcb, base: u32, cuts: seq<nat>, released: int, last: int, h: nat)
    requires CutsUpTo(cuts, last) && last < 0x1_0000_0000
    requires Tracked(t, base, cuts, released) && h in t.timers.armed
    ensures Tracked(Expire(t, h), base, cuts, released)
  {
    var timer := t.timers.armed[h];
    var stopped := t.(timers := T.StopTimer(T.Fire(t.timers, h), timer.seqNum));
    Disarmed(t, stopped, base, cuts, h);
    if timer.count + 1 >= MAX_RETRANSMIT_COUNT {
      GivenUp(t, stopped, base, cuts, released, h);
    } else {
      Resent(t, stopped, base, cuts, released, h);
    }
  }

  /** The expired handle is gone, everything else is as it was. */
  lemma Disarmed(t: Tcb, u: Tcb, base: u32, cuts: seq<nat>, h: nat)
    requires T.Owned(t.timers) && AllRunning(t, base, cuts) && h in t.timers.armed
    requires u == t.(timers := T.StopTimer(T.Fire(t.timers, h), t.timers.armed[h].seqNum))
    ensures T.Owned(u.timers) && AllRunning(u, base, cuts)
    ensures u.timers.entries == t.timers.entries && u.timers.armed == t.timers.armed - {h}
    ensures u.timers.next == t.timers.next && u.timers.twoMsl == t.timers.twoMsl
  {
  }

  lemma StillGuarded(t: Tcb, u: Tcb, h: nat, x: u32)
    requires T.Owned(t.timers) && h in t.timers.armed && Guarded(t, x) && x != t.timers.armed[h].seqNum
    requires u.timers.entries == t.timers.entries && u.timers.armed == t.timers.armed - {h} && u.out == t.out
    ensures Guarded(u, x)
  {
  }

  /** The last transmission is not followed by another: the segment has had all of them. */
  lemma GivenUp(t: Tcb, u: Tcb, base: u32, cuts: seq<nat>, released: int, h: nat)
    requires Tracked(t, base, cuts, released) && h in t.timers.armed
    requires t.timers.armed[h].count + 1 >= MAX_RETRANSMIT_COUNT
    requires T.Owned(u.timers) && AllRunning(u, base, cuts) && u.out == t.out
    requires u.timers.entries == t.timers.entries && u.timers.armed == t.timers.armed - {h}
    ensures Tracked(u, base, cuts, released)
  {
    forall k: nat | k + 1 < |cuts| && cuts[k] >= released ensures Guarded(u, Start(base, cuts, k)) {
      if Start(base, cuts, k) != t.timers.armed[h].seqNum {
        StillGuarded(t, u, h, Start(base, cuts, k));
      } else {
        assert Running(t, base, cuts, t.timers.armed[h]);
      }
    }
  }

  lemma SameSegment(base: u32, cuts: seq<nat>, p: Packet, q: Packet)
    requires IsSegment(base, cuts, p) && q.seqNum == p.seqNum && q.payload == p.payload
    ensures IsSegment(base, cuts, q)
  {
    var k: nat :| SegmentAt(base, cuts, k, p);
    assert SegmentAt(base, cuts, k, q);
  }

  lemma ResendFacts(t: Tcb, h: nat)
    requires h in t.timers.armed && t.timers.armed[h].count + 1 < MAX_RETRANSMIT_COUNT
    requires var timer := t.timers.armed[h];
      timer.packet.payload != [] && timer.seqNum == timer.packet.seqNum
    ensures var timer := t.timers.armed[h];
      Transmitted(t.(timers := T.StopTimer(T.Fire(t.timers, h), timer.seqNum)), Expire(t, h),
                  Refreshed(t, timer.packet), timer.count + 1)
  {
  }

  lemma Resent(t: Tcb, stopped: Tcb, base: u32, cuts: seq<nat>, released: int, h: nat)
    requires Tracked(t, base, cuts, released) && h in t.timers.armed
    requires t.timers.armed[h].count + 1 < MAX_RETRANSMIT_COUNT
    requires T.Owned(stopped.timers) && AllRunning(stopped, base, cuts)
    requires stopped == t.(timers := T.StopTimer(T.Fire(t.timers, h), t.timers.armed[h].seqNum))
    requires stopped.timers.entries == t.timers.entries && stopped.timers.armed == t.timers.armed - {h}
    ensures Tracked(Expire(t, h), base, cuts, released)
  {
    hide Guarded, IsSegment, Expire, Transmitted, T.Owned;
    var timer := t.timers.armed[h];
    assert Running(t, base, cuts, timer);
    SameSegment(base, cuts, timer.packet, Refreshed(t, timer.packet));
    forall k: nat | k + 1 < |cuts| && cuts[k] >= released && Start(base, cuts, k) != timer.seqNum
      ensures Guarded(stopped, Start(base, cuts, k))
    {
      StillGuarded(t, stopped, h, Start(base, cuts, k));
    }
    ResendFacts(t, h);
    TransmittedTracked(stopped, Expire(t, h), base, cuts, released, Refreshed(t, timer.packet), timer.count + 1);
  }

  /** An acceptable acknowledgment takes no timer from a segment that it does not cover. */
  lemma AcceptTracked(t: Tcb, base: u32, stream: seq<u8>, cuts: seq<nat>, ackNum: u32)
    requires Aligned(t, base, stream) && |stream| < 0x1_0000_0000 && FewDuplicates(t) && AckAcceptable(t, ackNum)
    requires CutsUpTo(cuts, Sent(t, stream)) && Tracked(t, base, cuts, Popped(t, stream))
    ensures Tracked(AcceptAck(t, ackNum), base, cuts, ackNum - base)
  {
    hide Tracked, AcceptAck;
    AcceptFacts(t, ackNum);
    forall k: nat | k + 1 < |cuts| && cuts[k] >= ackNum - base ensures ackNum - 1 <= Start(base, cuts, k) {
      NotWrapped(t, base, stream, ackNum, cuts[k]);
    }
    DropTracked(t, AcceptAck(t, ackNum), base, cuts, Popped(t, stream), ackNum - base, ackNum - 1);
  }

  lemma AcceptFacts(t: Tcb, ackNum: u32)
    requires FewDuplicates(t) && AckAcceptable(t, ackNum)
    ensures AcceptAck(t, ackNum).timers == T.DropUpTo(t.timers, ackNum - 1) && AcceptAck(t, ackNum).out == t.out
  {
    NoFastRetransmit(t, ackNum);
  }

  /** While acknowledgments are acceptable, no sequence number in the window has wrapped. */
  lemma NotWrapped(t: Tcb, base: u32, stream: seq<u8>, ackNum: u32, position: nat)
    requires Aligned(t, base, stream) && AckAcceptable(t, ackNum) && position <= Sent(t, stream)
    ensures Wrap32(base + position) == base + position
  {
  }
}
