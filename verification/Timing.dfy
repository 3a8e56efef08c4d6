/** Retransmission in time: when a packet is sent again, and when the session gives it up. */
module Timing {
  import opened Types
  import opened Session
  import opened Endpoints
  import opened Streams
  import opened Alignment
  import opened SingleRuns
  import opened Segments
  import opened Tracking
  import T = Timers

  // How the timer table evolves

  /** A timer just started for a first transmission. */
  predicate FirstTry(timer: T.Armed) {
    timer.count == 0 && timer.delay == INITIAL_RTO
  }

  /** Every armed timer of `us` was armed in `ts`, unchanged, or is new and guards a first transmission. */
  ghost predicate Evolves(ts: T.Table, us: T.Table) {
    && ts.next <= us.next
    && forall h :: h in us.armed ==>
         || (h in ts.armed && us.armed[h] == ts.armed[h])
         || (ts.next <= h < us.next && FirstTry(us.armed[h]))
  }

  lemma EvolvesTwice(ts: T.Table, us: T.Table, vs: T.Table)
    requires Evolves(ts, us) && Evolves(us, vs)
    ensures Evolves(ts, vs)
  {
  }

  lemma FewerEvolves(ts: T.Table, k: u32, n: u32)
    ensures Evolves(ts, T.StopTimer(ts, k)) && Evolves(ts, T.DropUpTo(ts, n)) && Evolves(ts, T.StopAll(ts))
  {
  }

  lemma StartEvolves(ts: T.Table, k: u32, packet: Packet)
    ensures Evolves(ts, T.StartTimer(ts, k, INITIAL_RTO, packet, 0))
  {
  }

  lemma PayloadEvolves(t: Tcb, data: seq<u8>, flags: Flags)
    ensures Evolves(t.timers, SendPayload(t, data, flags).timers)
  {
    if data != [] {
      StartEvolves(t.timers, t.sendNext, PayloadPacket(t, data, flags));
    }
  }

  lemma ControlEvolves(t: Tcb, flags: Flags)
    ensures Evolves(t.timers, SendControl(t, flags).timers)
  {
    StartEvolves(t.timers, t.sendNext, ControlPacket(t, flags));
  }

  lemma TrySendEvolves(t: Tcb)
    ensures Evolves(t.timers, TrySend(t).timers)
  {
    TrySendIsPayload(t);
    PayloadEvolves(t, Chunk(t), FLAG_ACK);
  }

  lemma FastRetransmitEvolves(t: Tcb, ackNum: u32)
    ensures Evolves(t.timers, FastRetransmit(t, ackNum).timers)
  {
    hide SendPayload, Evolves;
    var stopped := t.(timers := T.StopTimer(t.timers, ackNum));
    FewerEvolves(t.timers, ackNum, 0);
    if ackNum in t.inflight {
      PayloadEvolves(stopped, t.inflight[ackNum].payload, t.inflight[ackNum].flags);
      EvolvesTwice(t.timers, stopped.timers, ResendRemembered(stopped, ackNum).timers);
    }
  }

  lemma AcceptEvolves(t: Tcb, ackNum: u32)
    requires AckAcceptable(t, ackNum)
    ensures Evolves(t.timers, AcceptAck(t, ackNum).timers)
  {
    hide FastRetransmit, Evolves;
    var counted := CountDuplicates(Release(t, ackNum), ackNum);
    FewerEvolves(t.timers, 0, ackNum - 1);
    FastRetransmitEvolves(counted, ackNum);
    if counted.dupAckCount == 3 {
      EvolvesTwice(t.timers, counted.timers, FastRetransmit(counted, ackNum).timers);
    }
  }

  lemma AckedEvolves(t: Tcb, packet: Packet)
    ensures Evolves(t.timers, Acked(t, packet).timers)
  {
    hide TrySend, AcceptAck;
    if packet.flags.ack {
      var acked := HandleAck(t, packet);
      if AckAcceptable(t, packet.ackNum) {
        var accepted := AcceptAck(t, packet.ackNum);
        AcceptEvolves(t, packet.ackNum);
        TrySendEvolves(accepted);
        EvolvesTwice(t.timers, accepted.timers, acked.timers);
      }
      TrySendEvolves(acked);
      EvolvesTwice(t.timers, acked.timers, TrySend(acked).timers);
    }
  }

  lemma EstablishedEvolves(t: Tcb, packet: Packet)
    ensures Evolves(t.timers, HandleEstablished(t, packet).timers)
  {
    hide Acked, HandleIncoming;
    AckedEvolves(t, packet);
    IncomingKeeps(Acked(t, packet), packet);
  }

  /** Moving on with `sendUnack`, then trying to send. */
  lemma EstablishEvolves(t: Tcb, ackNum: u32)
    ensures Evolves(t.timers, Advance(t, ackNum).timers)
    ensures Evolves(t.timers, Establish(Advance(t, ackNum)).timers)
    ensures Evolves(t.timers, Establish(SendPureAck(Advance(t, ackNum), t.recvNext)).timers)
  {
    hide TrySend, Evolves;
    var moved := Advance(t, ackNum);
    FewerEvolves(t.timers, Wrap32(ackNum - 1), 0);
    TrySendEvolves(moved.(state := ESTABLISHED));
    TrySendEvolves(SendPureAck(moved, t.recvNext).(state := ESTABLISHED));
    EvolvesTwice(t.timers, moved.timers, Establish(moved).timers);
    EvolvesTwice(t.timers, moved.timers, Establish(SendPureAck(moved, t.recvNext)).timers);
  }

  lemma CloseWaitEvolves(t: Tcb, packet: Packet)
    ensures Evolves(t.timers, HandleCloseWait(t, packet).timers)
  {
    hide TrySend, Evolves;
    var tried := TrySend(SendPureAck(t, t.recvNext));
    TrySendEvolves(SendPureAck(t, t.recvNext));
    if ReadyForLastFin(tried) {
      StopAndFinEvolves(tried);
      EvolvesTwice(t.timers, tried.timers, SendLastFin(tried).timers);
    }
  }

  lemma StopAndFinEvolves(t: Tcb)
    ensures Evolves(t.timers, SendLastFin(t).timers) && Evolves(t.timers, StartClose(t).timers)
  {
    hide Evolves;
    var stopped := t.(timers := T.StopAll(t.timers));
    FewerEvolves(t.timers, 0, 0);
    ControlEvolves(stopped, FLAG_FIN);
    ControlEvolves(stopped.(state := FIN_WAIT_1), FLAG_FIN);
    EvolvesTwice(t.timers, stopped.timers, SendLastFin(t).timers);
    EvolvesTwice(t.timers, stopped.timers, StartClose(t).timers);
  }

  lemma DispatchEvolves(t: Tcb, packet: Packet, iss: u32)
    ensures Evolves(t.timers, Dispatch(t, packet, iss).timers)
  {
    hide HandleEstablished, HandleCloseWait, HandleSynSent, HandleListen, Establish, Evolves, T.StopTimer;
    Still(t.timers);
    match t.state
    case LISTEN => HandshakeEvolves(t, packet, iss);
    case SYN_SENT => HandshakeEvolves(t, packet, iss);
    case SYN_RECEIVED => EstablishEvolves(t, packet.ackNum);
    case ESTABLISHED => EstablishedEvolves(t, packet);
    case FIN_WAIT_1 => EstablishEvolves(t, packet.ackNum);
    case FIN_WAIT_2 => FlagEvolves(t.timers, true);
    case CLOSE_WAIT => CloseWaitEvolves(t, packet);
    case LAST_ACK => EstablishEvolves(t, packet.ackNum);
    case _ =>
  }

  lemma HandshakeEvolves(t: Tcb, packet: Packet, iss: u32)
    ensures Evolves(t.timers, HandleListen(t, packet, iss).timers)
    ensures Evolves(t.timers, HandleSynSent(t, packet).timers)
  {
    hide Establish, Evolves, T.StartTimer, T.StopTimer;
    var synced := Synchronize(t, packet);
    Still(t.timers);
    ControlEvolves(synced.(state := SYN_RECEIVED, sendNext := iss, sendUnack := iss), FLAG_SYN_ACK);
    ControlEvolves(synced.(state := SYN_RECEIVED), FLAG_SYN_ACK);
    EstablishEvolves(synced, packet.ackNum);
  }

  lemma Still(ts: T.Table)
    ensures Evolves(ts, ts)
  {
  }

  lemma FlagEvolves(ts: T.Table, b: bool)
    ensures Evolves(ts, ts.(twoMsl := b))
  {
  }

  lemma CloseEvolves(t: Tcb)
    ensures Evolves(t.timers, Close(t).timers)
  {
    hide TrySend, Evolves, T.StartTimer, T.StopAll;
    Still(t.timers);
    match t.state
    case ESTABLISHED =>
      TrySendEvolves(t);
      StopAndFinEvolves(TrySend(t));
      EvolvesTwice(t.timers, TrySend(t).timers, StartClose(TrySend(t)).timers);
    case CLOSE_WAIT => ControlEvolves(t.(state := LAST_ACK), FLAG_FIN_ACK);
    case SYN_SENT => FewerEvolves(t.timers, 0, 0);
    case SYN_RECEIVED => FewerEvolves(t.timers, 0, 0);
    case _ =>
  }

  /** Whatever happens except an expiry, timers are only stopped, dropped or started for first transmissions. */
  lemma {:induction false} EventEvolves(t: Tcb, iss: u32, ev: Event)
    requires !ev.TimerExpires?
    ensures Evolves(t.timers, Perform(t, iss, ev).timers)
  {
    hide Dispatch, Close, TrySend, Evolves;
    Still(t.timers);
    match ev
    case CallConnect => ControlEvolves(t.(state := SYN_SENT, sendNext := iss, sendUnack := iss), FLAG_SYN);
    case CallSend(data) => TrySendEvolves(t.(sendBuffer := t.sendBuffer + data[..SendRoom(t, data)]));
    case CallRecv(count) => CloseEvolves(t.(recvBuffer := t.recvBuffer[ReadCount(t, count)..]));
    case CallClose => CloseEvolves(t);
    case Deliver(packet, intact) =>
      FewerEvolves(t.timers, 0, 0);
      DispatchEvolves(t.(peerWindow := packet.window), packet, iss);
    case TwoMslExpires => FlagEvolves(t.timers, false);
    case _ =>
  }

  /** An expiry starts at most one timer, with the next count and twice the delay. */
  lemma ExpiryEvolves(t: Tcb, h: nat)
    requires h in t.timers.armed
    ensures var ts, us, timer := t.timers, Expire(t, h).timers, t.timers.armed[h];
      && ts.next <= us.next
      && forall g :: g in us.armed ==>
           || (g in ts.armed && g != h && us.armed[g] == ts.armed[g])
           || (g == ts.next < us.next && us.armed[g].count == timer.count + 1 < MAX_RETRANSMIT_COUNT
               && us.armed[g].delay == INITIAL_RTO * Pow2(timer.count + 1))
    ensures t.timers.armed[h].count + 1 >= MAX_RETRANSMIT_COUNT ==> Expire(t, h).out == t.out
  {
    if t.timers.armed[h].count + 1 >= MAX_RETRANSMIT_COUNT {
    } else {
    }
  }

  // Runs with a clock

  /**
   * An endpoint with a clock in milliseconds. For every armed timer `armedAt` is the time it was started and `origin`
   * the time of the first transmission it goes back to: an expiry hands the origin on to the timer it starts.
   */
  datatype Timed = Timed(e: Endpoint, now: nat, armedAt: map<nat, nat>, origin: map<nat, nat>)

  datatype Tick = Tick(event: Event, at: nat)

  /** Every armed timer has its two times. */
  ghost predicate Stamped(x: Timed) {
    x.armedAt.Keys == x.e.tcb.timers.armed.Keys && x.origin.Keys == x.e.tcb.timers.armed.Keys
  }

  /** The clock goes on, no armed timer is overdue, and an expiry comes exactly when it is due. */
  ghost predicate OnTime(x: Timed, tick: Tick)
    requires Stamped(x)
  {
    && Possible(x.e, tick.event)
    && x.now <= tick.at
    && (forall h :: h in x.e.tcb.timers.armed ==> tick.at <= x.armedAt[h] + x.e.tcb.timers.armed[h].delay)
    && (tick.event.TimerExpires? ==>
          tick.at == x.armedAt[tick.event.handle] + x.e.tcb.timers.armed[tick.event.handle].delay)
  }

  function Elapse(x: Timed, tick: Tick): (y: Timed)
    requires Stamped(x) && OnTime(x, tick)
    ensures Stamped(y)
  {
    var f := Next(x.e, tick.event);
    Timed(
      f,
      tick.at,
      map h | h in f.tcb.timers.armed :: if h in x.armedAt then x.armedAt[h] else tick.at,
      map h | h in f.tcb.timers.armed ::
        if h in x.origin then x.origin[h]
        else if tick.event.TimerExpires? then x.origin[tick.event.handle]
        else tick.at)
  }

  ghost predicate TimedRuns(x: Timed, ticks: seq<Tick>)
    requires Stamped(x)
    decreases |ticks|
  {
    ticks == [] || (OnTime(x, ticks[0]) && TimedRuns(Elapse(x, ticks[0]), ticks[1..]))
  }

  ghost function TimedAfter(x: Timed, ticks: seq<Tick>): (y: Timed)
    requires Stamped(x) && TimedRuns(x, ticks)
    ensures Stamped(y)
    decreases |ticks|
  {
    if ticks == [] then x else TimedAfter(Elapse(x, ticks[0]), ticks[1..])
  }

  /** The timer with count `i` was started RTO * (2^i - 1) after the first transmission, for RTO * 2^i. */
  ghost predicate ScheduledTimer(x: Timed, h: nat)
    requires Stamped(x) && h in x.e.tcb.timers.armed
  {
    var timer := x.e.tcb.timers.armed[h];
    && h < x.e.tcb.timers.next
    && timer.count < MAX_RETRANSMIT_COUNT
    && timer.delay == INITIAL_RTO * Pow2(timer.count)
    && x.armedAt[h] == x.origin[h] + INITIAL_RTO * (Pow2(timer.count) - 1)
    && x.now <= x.armedAt[h] + timer.delay
  }

  ghost predicate Scheduled(x: Timed)
    requires Stamped(x)
  {
    forall h :: h in x.e.tcb.timers.armed ==> ScheduledTimer(x, h)
  }

  lemma ScheduledStep(x: Timed, tick: Tick)
    requires Stamped(x) && OnTime(x, tick) && Scheduled(x)
    ensures Scheduled(Elapse(x, tick))
  {
    hide Perform, Evolves;
    var y := Elapse(x, tick);
    forall h | h in y.e.tcb.timers.armed
      ensures ScheduledTimer(y, h)
    {
      if tick.event.TimerExpires? {
        ExpiryScheduled(x, tick, h);
      } else {
        EventScheduled(x, tick, h);
      }
    }
  }

  lemma EventScheduled(x: Timed, tick: Tick, h: nat)
    requires Stamped(x) && OnTime(x, tick) && Scheduled(x) && !tick.event.TimerExpires?
    requires h in Elapse(x, tick).e.tcb.timers.armed
    ensures ScheduledTimer(Elapse(x, tick), h)
  {
    hide Perform;
    EventEvolves(x.e.tcb, x.e.iss, tick.event);
    assert Pow2(0) == 1;
  }

  /** What an expiry does to the stamps. */
  lemma ExpiryStamps(x: Timed, tick: Tick, h: nat)
    requires Stamped(x) && OnTime(x, tick) && tick.event.TimerExpires?
    requires h in Elapse(x, tick).e.tcb.timers.armed
    ensures var y := Elapse(x, tick);
      && y.now == tick.at && y.e.tcb == Expire(x.e.tcb, tick.event.handle)
      && (h in x.e.tcb.timers.armed ==> y.armedAt[h] == x.armedAt[h] && y.origin[h] == x.origin[h])
      && (h !in x.e.tcb.timers.armed ==> y.armedAt[h] == tick.at && y.origin[h] == x.origin[tick.event.handle])
  {
    hide Expire;
  }

  lemma ExpiryScheduled(x: Timed, tick: Tick, h: nat)
    requires Stamped(x) && OnTime(x, tick) && Scheduled(x) && tick.event.TimerExpires?
    requires h in Elapse(x, tick).e.tcb.timers.armed
    ensures ScheduledTimer(Elapse(x, tick), h)
  {
    hide Expire, Elapse;
    ExpiryStamps(x, tick, h);
    ExpiryEvolves(x.e.tcb, tick.event.handle);
    assert ScheduledTimer(x, tick.event.handle);
    if h in x.e.tcb.timers.armed {
      assert ScheduledTimer(x, h);
    } else {
      Doubled(x.e.tcb.timers.armed[tick.event.handle].count);
    }
  }

  lemma Doubled(count: nat)
    ensures INITIAL_RTO * (Pow2(count) - 1) + INITIAL_RTO * Pow2(count) == INITIAL_RTO * (Pow2(count + 1) - 1)
    ensures Pow2(count + 1) == 2 * Pow2(count)
  {
  }

  lemma {:induction false} RunScheduled(x: Timed, ticks: seq<Tick>)
    requires Stamped(x) && Scheduled(x) && TimedRuns(x, ticks)
    ensures Scheduled(TimedAfter(x, ticks))
    decreases |ticks|
  {
    hide Elapse, OnTime, Scheduled;
    if ticks == [] {
    } else {
      ScheduledStep(x, ticks[0]);
      RunScheduled(Elapse(x, ticks[0]), ticks[1..]);
    }
  }

  /** A new session with its clock at zero. */
  ghost predicate StartsClock(x: Timed) {
    StartsAlone(x.e) && x.now == 0 && x.armedAt == map[] && x.origin == map[]
  }

  /** How long after its first transmission a packet is given up: 31 seconds. */
  const LIFETIME: nat := INITIAL_RTO * 31

  lemma {:induction false} PowersUpTo(count: nat)
    requires count < MAX_RETRANSMIT_COUNT
    ensures Pow2(count) <= 16 && Pow2(MAX_RETRANSMIT_COUNT - 1) == 16
    ensures count == MAX_RETRANSMIT_COUNT - 1 ==> Pow2(count) == 16
  {
    assert Pow2(0) == 1 && Pow2(1) == 2 && Pow2(2) == 4 && Pow2(3) == 8 && Pow2(4) == 16;
  }

  /**
   * In every timed run, whatever packets arrive: the retransmissions of a packet are RTO * 2^i apart, and no timer
   * of it is armed later than 31 seconds after its first transmission.
   */
  lemma {:induction false} RetransmissionSchedule(start: Timed, ticks: seq<Tick>, h: nat)
    requires StartsClock(start) && TimedRuns(start, ticks)
    requires h in TimedAfter(start, ticks).e.tcb.timers.armed
    ensures var x := TimedAfter(start, ticks);
      var timer := x.e.tcb.timers.armed[h];
      && x.armedAt[h] == x.origin[h] + INITIAL_RTO * (Pow2(timer.count) - 1)
      && timer.delay == INITIAL_RTO * Pow2(timer.count)
      && timer.count < MAX_RETRANSMIT_COUNT
      && x.now <= x.origin[h] + LIFETIME
  {
    hide TimedRuns, TimedAfter, OnTime;
    RunScheduled(start, ticks);
    var x := TimedAfter(start, ticks);
    assert ScheduledTimer(x, h);
    PowersUpTo(x.e.tcb.timers.armed[h].count);
  }

  /**
   * The expiry after the fifth transmission comes exactly 31 seconds after the first; it sends nothing and starts no
   * timer. Every earlier expiry sends the packet again, refreshed, and starts the timer with the next count.
   */
  lemma {:induction false} GivenUpOnTime(start: Timed, ticks: seq<Tick>, tick: Tick)
    requires StartsClock(start) && TimedRuns(start, ticks)
    requires tick.event.TimerExpires? && OnTime(TimedAfter(start, ticks), tick)
    ensures
      var x := TimedAfter(start, ticks);
      var h := tick.event.handle;
      var timer := x.e.tcb.timers.armed[h];
      var u := Elapse(x, tick).e.tcb;
      if timer.count == MAX_RETRANSMIT_COUNT - 1 then
        && tick.at == x.origin[h] + LIFETIME
        && u.out == x.e.tcb.out
        && forall g :: g in u.timers.armed ==> g in x.e.tcb.timers.armed && g != h
      else
        && u.out == x.e.tcb.out + [Refreshed(x.e.tcb, timer.packet)]
        && x.e.tcb.timers.next in u.timers.armed
        && u.timers.armed[x.e.tcb.timers.next].count == timer.count + 1
        && Elapse(x, tick).origin[x.e.tcb.timers.next] == x.origin[h]
  {
    hide TimedRuns, TimedAfter, OnTime, Expire;
    RunScheduled(start, ticks);
    var x, h := TimedAfter(start, ticks), tick.event.handle;
    assert h in x.e.tcb.timers.armed && tick.at == x.armedAt[h] + x.e.tcb.timers.armed[h].delay by {
      DueNow(x, tick);
    }
    assert ScheduledTimer(x, h);
    PowersUpTo(x.e.tcb.timers.armed[h].count);
    ExpiryEvolves(x.e.tcb, h);
    if x.e.tcb.timers.armed[h].count + 1 < MAX_RETRANSMIT_COUNT {
      ExpirySends(x.e.tcb, h);
      NextIsFree(x);
    }
  }

  lemma DueNow(x: Timed, tick: Tick)
    requires Stamped(x) && OnTime(x, tick) && tick.event.TimerExpires?
    ensures tick.event.handle in x.e.tcb.timers.armed
    ensures tick.at == x.armedAt[tick.event.handle] + x.e.tcb.timers.armed[tick.event.handle].delay
  {
  }

  /** An expiry that sends emits its packet with acknowledgment number and window renewed and no other change. */
  lemma ExpirySends(t: Tcb, h: nat)
    requires h in t.timers.armed && t.timers.armed[h].count + 1 < MAX_RETRANSMIT_COUNT
    ensures var u, timer := Expire(t, h), t.timers.armed[h];
      && u.out == t.out + [Refreshed(t, timer.packet)]
      && t.timers.next in u.timers.armed && u.timers.armed[t.timers.next].count == timer.count + 1
    ensures var p, q := t.timers.armed[h].packet, Expire(t, h).out[|t.out|];
      && q.seqNum == p.seqNum && q.payload == p.payload && q.flags == p.flags
      && q.ackNum == t.recvNext && q.window == CAPACITY - |t.recvBuffer|
  {
  }

  lemma NextIsFree(x: Timed)
    requires Stamped(x) && Scheduled(x)
    ensures x.e.tcb.timers.next !in x.e.tcb.timers.armed
  {
    forall h | h in x.e.tcb.timers.armed ensures h < x.e.tcb.timers.next {
      assert ScheduledTimer(x, h);
    }
  }

  // The schedule of the segments

  /**
   * In every timed run, whatever the state: the `n`-th and so far last transmission of a segment whose timer runs was
   * RTO * (2^(n-1) - 1) after the first, for every `n` from one to five, and the session waits RTO * 2^(n-1) for its
   * acknowledgment.
   */
  lemma {:induction false} SegmentSchedule(start: Timed, ticks: seq<Tick>, k: nat)
    requires StartsClock(start) && TimedRuns(start, ticks)
    requires k < |TimedAfter(start, ticks).e.cuts| && TimerRuns(TimedAfter(start, ticks).e, k)
    ensures
      var x := TimedAfter(start, ticks);
      var ts, n := x.e.tcb.timers, Transmissions(x.e, k);
      && 1 <= n <= MAX_RETRANSMIT_COUNT
      && var h := ts.entries[Start(Base(x.e), x.e.cuts, k)];
        && x.armedAt[h] == x.origin[h] + INITIAL_RTO * (Pow2(n - 1) - 1)
        && ts.armed[h].delay == INITIAL_RTO * Pow2(n - 1)
        && x.now <= x.origin[h] + LIFETIME
  {
    hide TimedRuns, TimedAfter, Copies;
    var f := TimedAfter(start, ticks).e;
    RetransmissionSchedule(start, ticks, f.tcb.timers.entries[Start(Base(f), f.cuts, k)]);
  }
}
