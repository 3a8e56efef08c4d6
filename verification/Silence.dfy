/** Which timers can still fire: over every run the table owns them, and after a reset there are none. */
module Silence {
  import opened Types
  import opened Session
  import opened Endpoints
  import opened Streams
  import opened SingleRuns
  import opened Effects
  import T = Timers

  // Every event keeps the table in order

  lemma ControlOwned(t: Tcb, flags: Flags)
    requires T.Owned(t.timers)
    ensures T.Owned(SendControl(t, flags).timers)
  {
    hide T.Owned, T.StartTimer;
    T.StartKeepsOwned(t.timers, t.sendNext, INITIAL_RTO, ControlPacket(t, flags), 0);
  }

  lemma AdvanceOwned(t: Tcb, ackNum: u32)
    requires T.Owned(t.timers)
    ensures T.Owned(Advance(t, ackNum).timers)
  {
    T.ApplyKeepsOwned(t.timers, T.Stop(Wrap32(ackNum - 1)));
  }

  lemma StopAllOwned(ts: T.Table)
    requires T.Owned(ts)
    ensures T.Owned(T.StopAll(ts)) && T.StopAll(ts).armed == map[]
  {
    T.StopAllDisarms(ts);
  }

  lemma AcceptOwned(t: Tcb, ackNum: u32)
    requires T.Owned(t.timers) && AckAcceptable(t, ackNum)
    ensures T.Owned(AcceptAck(t, ackNum).timers)
  {
    hide T.Owned, T.StopTimer, T.DropUpTo, ResendRemembered;
    T.DropUpToKeepsOwned(t.timers, ackNum - 1);
    var counted := CountDuplicates(Release(t, ackNum), ackNum);
    if counted.dupAckCount == 3 {
      var stopped := counted.(timers := T.StopTimer(counted.timers, ackNum));
      T.ApplyKeepsOwned(counted.timers, T.Stop(ackNum));
      ResentOwned(stopped, ackNum);
    }
  }

  lemma ResentOwned(t: Tcb, ackNum: u32)
    requires T.Owned(t.timers)
    ensures T.Owned(ResendRemembered(t, ackNum).timers)
  {
    hide T.Owned, T.StartTimer;
    if ackNum in t.inflight {
      var p := t.inflight[ackNum];
      T.StartKeepsOwned(t.timers, t.sendNext, INITIAL_RTO, PayloadPacket(t, p.payload, p.flags), 0);
    }
  }

  lemma AckedOwned(t: Tcb, p: Packet)
    requires T.Owned(t.timers)
    ensures T.Owned(Acked(t, p).timers)
  {
    hide T.Owned, TrySend, AcceptAck;
    if p.flags.ack {
      if AckAcceptable(t, p.ackNum) {
        AcceptOwned(t, p.ackNum);
        TrySendOwned(AcceptAck(t, p.ackNum));
      }
      TrySendOwned(HandleAck(t, p));
    }
  }

  lemma EstablishedOwned(t: Tcb, p: Packet)
    requires T.Owned(t.timers)
    ensures T.Owned(HandleEstablished(t, p).timers)
  {
    hide T.Owned, Acked, HandleIncoming;
    AckedOwned(t, p);
    FedEffect(Acked(t, p), p);
  }

  lemma HandshakeOwned(t: Tcb, p: Packet)
    requires T.Owned(t.timers)
    ensures T.Owned(HandleSynSent(t, p).timers) && T.Owned(HandleSynReceived(t, p).timers)
  {
    hide T.Owned, TrySend, SendControl, Advance;
    AdvanceOwned(Synchronize(t, p), p.ackNum);
    AdvanceOwned(t, p.ackNum);
    TrySendOwned(AnswerSynAck(t, p).(state := ESTABLISHED));
    TrySendOwned(Advance(t, p.ackNum).(state := ESTABLISHED));
    ControlOwned(Synchronize(t, p).(state := SYN_RECEIVED), FLAG_SYN_ACK);
  }

  lemma CloseWaitOwned(t: Tcb, p: Packet)
    requires T.Owned(t.timers)
    ensures T.Owned(HandleCloseWait(t, p).timers)
  {
    hide T.Owned, TrySend, SendControl, T.StopAll;
    var tried := TrySend(SendPureAck(t, t.recvNext));
    TrySendOwned(SendPureAck(t, t.recvNext));
    StopAllOwned(tried.timers);
    ControlOwned(tried.(timers := T.StopAll(tried.timers)), FLAG_FIN);
  }

  lemma OpenOwned(t: Tcb, iss: u32, flags: Flags, state: TcpState)
    requires T.Owned(t.timers)
    ensures T.Owned(Open(t, iss, flags, state).timers)
  {
    hide T.Owned, SendControl;
    ControlOwned(t.(state := state, sendNext := iss, sendUnack := iss), flags);
  }

  lemma DispatchOwned(t: Tcb, p: Packet, iss: u32)
    requires T.Owned(t.timers)
    ensures T.Owned(Dispatch(t, p, iss).timers)
  {
    hide HandleSynSent, HandleSynReceived, HandleEstablished, HandleCloseWait, Open, Advance;
    match t.state
    case CLOSED =>
    case LISTEN => OpenOwned(Synchronize(t, p), iss, FLAG_SYN_ACK, SYN_RECEIVED);
    case SYN_SENT => HandshakeOwned(t, p);
    case SYN_RECEIVED => HandshakeOwned(t, p);
    case ESTABLISHED => EstablishedOwned(t, p);
    case FIN_WAIT_1 => AdvanceOwned(t, p.ackNum);
    case FIN_WAIT_2 =>
    case CLOSE_WAIT => CloseWaitOwned(t, p);
    case LAST_ACK => AdvanceOwned(t, p.ackNum);
    case TIME_WAIT =>
  }

  lemma CloseOwned(t: Tcb)
    requires T.Owned(t.timers)
    ensures T.Owned(Close(t).timers)
  {
    hide T.Owned, TrySend, SendControl, T.StopAll;
    var tried := TrySend(t);
    TrySendOwned(t);
    StopAllOwned(tried.timers);
    StopAllOwned(t.timers);
    ControlOwned(tried.(timers := T.StopAll(tried.timers), state := FIN_WAIT_1), FLAG_FIN);
    ControlOwned(t.(state := LAST_ACK), FLAG_FIN_ACK);
    ControlSends(t, FLAG_RST);
  }

  lemma ExpireOwned(t: Tcb, h: nat)
    requires T.Owned(t.timers) && h in t.timers.armed
    ensures T.Owned(Expire(t, h).timers)
  {
    hide T.StartTimer, T.StopTimer, Pow2;
    var timer := t.timers.armed[h];
    var k, again := timer.packet.seqNum, Refreshed(t, timer.packet);
    var stopped := T.StopTimer(T.Fire(t.timers, h), k);
    T.ApplyKeepsOwned(t.timers, T.Expire(h));
    T.ApplyKeepsOwned(T.Fire(t.timers, h), T.Stop(k));
    T.StartKeepsOwned(stopped, k, INITIAL_RTO * Pow2(timer.count + 1), again, timer.count + 1);
  }

  /** Every event, whatever the state and the packet. */
  lemma TimersOwned(t: Tcb, iss: u32, ev: Event)
    requires T.Owned(t.timers) && (ev.TimerExpires? ==> ev.handle in t.timers.armed)
    ensures T.Owned(Perform(t, iss, ev).timers)
  {
    hide Open, TrySend, Close, Dispatch, Expire;
    match ev
    case CallConnect => OpenOwned(t, iss, FLAG_SYN, SYN_SENT);
    case CallSend(data) => TrySendOwned(t.(sendBuffer := t.sendBuffer + data[..SendRoom(t, data)]));
    case CallRecv(count) => CloseOwned(t.(recvBuffer := t.recvBuffer[ReadCount(t, count)..]));
    case CallClose => CloseOwned(t);
    case Deliver(p, intact) =>
      StopAllOwned(t.timers);
      DispatchOwned(t.(peerWindow := p.window), p, iss);
    case TimerExpires(h) => ExpireOwned(t, h);
    case _ =>
  }

  /** Over every run, against any packets: a running timer is the one the table holds at its number, and no other. */
  lemma {:induction false} RunTimersOwned(e: Endpoint, trace: seq<Event>)
    requires T.Owned(e.tcb.timers) && Runs(e, trace)
    ensures T.Owned(After(e, trace).tcb.timers)
    decreases |trace|
  {
    hide Perform, T.Owned;
    if trace == [] {
    } else {
      TimersOwned(e.tcb, e.iss, trace[0]);
      RunTimersOwned(Next(e, trace[0]), trace[1..]);
    }
  }

  lemma NewOwned(e: Endpoint)
    requires StartsAlone(e)
    ensures T.Owned(e.tcb.timers)
  {
  }

  // After a reset

  /** Closed after use, with nothing left that could fire. */
  predicate Silent(e: Endpoint) {
    e.begun && e.tcb.state == CLOSED && e.tcb.timers.armed == map[] && !e.tcb.timers.twoMsl
  }

  lemma StaysSilent(e: Endpoint, ev: Event)
    requires Silent(e) && Possible(e, ev)
    ensures Silent(Next(e, ev)) && Next(e, ev).tcb.out == e.tcb.out
  {
    hide TrySend;
    match ev
    case CallSend(data) => TrySendSends(e.tcb.(sendBuffer := e.tcb.sendBuffer + data[..SendRoom(e.tcb, data)]));
    case Deliver(p, intact) =>
      if intact && p.flags.rst {
        EmptyStays(e.tcb.timers);
      }
    case _ =>
  }

  lemma EmptyStays(ts: T.Table)
    requires ts.armed == map[]
    ensures T.StopAll(ts).armed == map[]
  {
  }

  lemma {:induction false} RunSilent(e: Endpoint, trace: seq<Event>)
    requires Silent(e) && Runs(e, trace)
    ensures Silent(After(e, trace)) && After(e, trace).tcb.out == e.tcb.out
    decreases |trace|
  {
    hide Next, Silent;
    if trace == [] {
    } else {
      StaysSilent(e, trace[0]);
      RunSilent(Next(e, trace[0]), trace[1..]);
    }
  }

  /**
   * In every run of a connection that was begun, from every state: an intact RST ends it. Whatever happens afterwards,
   * no timer runs and no packet goes out; what had arrived can still be read.
   */
  lemma {:induction false} ResetSilences(
      start: Endpoint, before: seq<Event>, rst: Packet, rest: seq<Event>)
    requires StartsAlone(start) && Runs(start, before) && After(start, before).begun && rst.flags.rst
    requires Enabled(After(start, before), Deliver(rst, true))
    requires Runs(Next(After(start, before), Deliver(rst, true)), rest)
    ensures var e := After(start, before);
      var f := Next(e, Deliver(rst, true));
      var g := After(f, rest);
      && f.tcb.recvBuffer == e.tcb.recvBuffer && f.tcb.out == e.tcb.out
      && g.tcb.state == CLOSED && g.tcb.timers.armed == map[] && !g.tcb.timers.twoMsl && g.tcb.out == e.tcb.out
  {
    hide Runs, After, T.Owned, Input;
    var e := After(start, before);
    NewOwned(start);
    RunTimersOwned(start, before);
    ResetCloses(e.tcb, rst, e.iss);
    var f := Next(e, Deliver(rst, true));
    assert f.tcb == Input(e.tcb, rst, true, e.iss);
    RunSilent(f, rest);
  }
}
