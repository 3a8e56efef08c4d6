/** The congestion window: how it grows, and how exactly it is used. */
module Window {
  import opened Types
  import opened Session
  import opened Endpoints
  import opened Streams
  import BQ = BoundedQueue
  import T = Timers

  // One call of _handle_try_send

  lemma ChunkFills(t: Tcb)
    requires MaySend(t.state) && InFlight(t) <= |t.sendBuffer|
    requires InFlight(t) <= t.sendWindowSize
    ensures InFlight(t) + |Chunk(t)| == BQ.Min(t.sendWindowSize, |t.sendBuffer|)
  {
    assert Allowance(t) == t.sendWindowSize - InFlight(t);
  }

  /** Trying to send fills the window exactly, unless the window has shrunk below what is in flight. */
  lemma {:induction false} TrySendFills(t: Tcb, base: u32, stream: seq<u8>)
    requires Aligned(t, base, stream) && MaySend(t.state)
    requires InFlight(t) <= t.sendWindowSize
    ensures InFlight(TrySend(t)) == BQ.Min(t.sendWindowSize, |t.sendBuffer|)
  {
    hide TrySend;
    ChunkFills(t);
    TrySendIsPayload(t);
    PayloadAligned(t, base, stream, Chunk(t));
  }

  /** When the window has shrunk, `allowance` underflows and the whole rest of the buffer is sent. */
  lemma {:induction false} TrySendOverruns(t: Tcb, base: u32, stream: seq<u8>)
    requires Aligned(t, base, stream) && MaySend(t.state)
    requires t.sendWindowSize < InFlight(t)
    ensures InFlight(TrySend(t)) == |t.sendBuffer|
  {
    assert Allowance(t) == 0x1_0000_0000 - (InFlight(t) - t.sendWindowSize);
    TrySendIsPayload(t);
    PayloadAligned(t, base, stream, Chunk(t));
  }

  /** The data in flight stays within the window exactly when it was within it before the call. */
  lemma {:induction false} WindowRespected(t: Tcb, base: u32, stream: seq<u8>)
    requires Aligned(t, base, stream) && MaySend(t.state)
    ensures InFlight(TrySend(t)) <= TrySend(t).sendWindowSize <==> InFlight(t) <= t.sendWindowSize
  {
    if InFlight(t) <= t.sendWindowSize {
      TrySendFills(t, base, stream);
    } else {
      TrySendOverruns(t, base, stream);
    }
  }

  /** A second call sends nothing, from every aligned state. */
  lemma {:induction false} TrySendIdempotent(t: Tcb, base: u32, stream: seq<u8>)
    requires Aligned(t, base, stream)
    ensures TrySend(TrySend(t)) == TrySend(t)
  {
    hide TrySend;
    var u := TrySend(t);
    NothingLeft(t, base, stream);
    TrySendIsPayload(u);
  }

  lemma NothingLeft(t: Tcb, base: u32, stream: seq<u8>)
    requires Aligned(t, base, stream)
    ensures Chunk(TrySend(t)) == []
  {
    hide TrySend;
    TrySendKeeps(t);
    SendFacts(t);
    if MaySend(t.state) {
      if InFlight(t) <= t.sendWindowSize {
        TrySendFills(t, base, stream);
      } else {
        TrySendOverruns(t, base, stream);
      }
      ChunkEmpty(TrySend(t));
    }
  }

  lemma ChunkEmpty(u: Tcb)
    requires InFlight(u) == |u.sendBuffer| || InFlight(u) == u.sendWindowSize
    ensures Chunk(u) == []
  {
  }

  lemma SendFacts(t: Tcb)
    ensures TrySend(t).sendBuffer == t.sendBuffer && TrySend(t).sendWindowSize == t.sendWindowSize
    ensures TrySend(t).ssthresh == t.ssthresh
  {
  }

  /** What the getter reports as usable. */
  function UsableSendWindow(t: Tcb): u32 {
    if t.sendWindowSize > InFlight(t) then t.sendWindowSize - InFlight(t) else 0
  }

  /** What `_handle_try_send` allows itself is what the getter reports exactly when the window has not been overrun. */
  lemma AllowanceIsUsable(t: Tcb)
    ensures Allowance(t) == UsableSendWindow(t) <==> InFlight(t) <= t.sendWindowSize
  {
    if InFlight(t) <= t.sendWindowSize {
      assert Allowance(t) == t.sendWindowSize - InFlight(t);
    } else {
      assert Allowance(t) == 0x1_0000_0000 - (InFlight(t) - t.sendWindowSize);
    }
  }

  // Slow start and congestion avoidance

  /** The exponent of the least power of two that reaches `t`. */
  function Level(t: nat): (k: nat)
    requires t >= 1
    ensures Pow2(k) >= t && (k > 0 ==> Pow2(k - 1) < t)
  {
    LevelFrom(t, 0)
  }

  function LevelFrom(t: nat, k: nat): (r: nat)
    requires k > 0 ==> Pow2(k - 1) < t
    ensures Pow2(r) >= t && (r > 0 ==> Pow2(r - 1) < t)
    decreases t - k
  {
    if Pow2(k) >= t then k
    else
      PowExceeds(k);
      LevelFrom(t, k + 1)
  }

  lemma {:induction false} PowExceeds(k: nat)
    ensures Pow2(k) > k
  {
    if k == 0 {
    } else {
      PowExceeds(k - 1);
    }
  }

  lemma {:induction false} PowMonotone(j: nat, k: nat)
    requires j <= k
    ensures Pow2(j) <= Pow2(k)
    decreases k
  {
    if j == k {
    } else {
      PowMonotone(j, k - 1);
    }
  }

  /** The window after `k` accepted acknowledgments: doubling up to the first power of two at `t`, then one by one. */
  function Reno(t: nat, k: nat): nat
    requires t >= 1
  {
    var l := Level(t);
    if k <= l then Pow2(k) else Pow2(l) + (k - l)
  }

  /** The program's 32-bit rule, applied `k` times. */
  function Grown(cwnd: u32, ssthresh: u32, k: nat): u32 {
    if k == 0 then cwnd else GrowWindow(Grown(cwnd, ssthresh, k - 1), ssthresh)
  }

  lemma RenoStep(t: nat, k: nat)
    requires t >= 1
    ensures Reno(t, k + 1) == if Reno(t, k) < t then 2 * Reno(t, k) else Reno(t, k) + 1
  {
    if k < Level(t) {
      PowMonotone(k, Level(t) - 1);
    }
  }

  lemma RenoBounds(t: nat, k: nat)
    requires t >= 1
    ensures 1 <= Reno(t, k) < 2 * t + k
    ensures Reno(t, k) <= Pow2(Level(t)) + k
  {
    if k <= Level(t) {
      PowMonotone(k, Level(t));
    }
  }

  lemma GrowIsExact(cwnd: nat, ssthresh: u32)
    requires 2 * cwnd < 0x1_0000_0000 || (ssthresh <= cwnd && cwnd + 1 < 0x1_0000_0000)
    ensures GrowWindow(cwnd, ssthresh) == if cwnd < ssthresh then 2 * cwnd else cwnd + 1
  {
  }

  lemma GrowReno(t: u32, k: nat)
    requires t >= 1 && Pow2(Level(t)) + k + 1 < 0x1_0000_0000
    ensures Reno(t, k) < 0x1_0000_0000 && GrowWindow(Reno(t, k), t) == Reno(t, k + 1)
  {
    hide Reno, Pow2, Level, GrowWindow;
    RenoStep(t, k);
    RenoBounds(t, k);
    RenoBounds(t, k + 1);
    GrowIsExact(Reno(t, k), t);
  }

  /** The program follows the closed form as long as 32 bits hold it, as for thresholds and counts up to 2^31. */
  lemma {:induction false} GrownIsReno(t: u32, k: nat)
    requires t >= 1 && Pow2(Level(t)) + k < 0x1_0000_0000
    ensures Grown(1, t, k) == Reno(t, k)
  {
    if k == 0 {
      assert Pow2(0) == 1;
    } else {
      GrownIsReno(t, k - 1);
      GrowReno(t, k - 1);
    }
  }

  /** A timeout that sends again closes the window to one segment and sets the threshold by the window's parity. */
  lemma TimeoutCollapses(t: Tcb, h: nat)
    requires h in t.timers.armed && t.timers.armed[h].count + 1 < MAX_RETRANSMIT_COUNT
    requires 1 <= t.sendWindowSize < 0xFFFF_FFFF
    ensures var u := Expire(t, h);
      && u.sendWindowSize == 1 && u.ssthresh >= 1
      && u.ssthresh == (if t.sendWindowSize % 2 == 0 then t.sendWindowSize + 1 else (t.sendWindowSize + 1) / 2)
  {
  }

  /**
   * An expiry that gives up touches the timers and nothing else: neither the window nor the threshold moves, nothing
   * goes out. The fired timer is gone and, in a table that owns its timers, every other one runs on.
   */
  lemma GivesUp(t: Tcb, h: nat)
    requires h in t.timers.armed && t.timers.armed[h].count + 1 >= MAX_RETRANSMIT_COUNT
    ensures var u := Expire(t, h);
      && u == t.(timers := u.timers) && u.timers.entries == t.timers.entries && h !in u.timers.armed
      && (T.Owned(t.timers) && t.timers.armed[h].packet.seqNum == t.timers.armed[h].seqNum ==>
            u.timers == t.timers.(armed := t.timers.armed - {h}))
  {
    var fired := T.Fire(t.timers, h);
    var k := t.timers.armed[h].packet.seqNum;
    if T.Owned(t.timers) && t.timers.armed[h].seqNum == k {
      assert t.timers.entries[k] == h;
      assert fired.armed - {h} == fired.armed;
    }
  }

  lemma Level8()
    ensures Level(8) == 3 && Pow2(3) == 8
  {
    assert Pow2(0) == 1 && Pow2(1) == 2 && Pow2(2) == 4 && Pow2(3) == 8;
  }
}
