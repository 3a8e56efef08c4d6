/** A connection only moves forward: no state is entered twice, and there are at most seven changes. */
module Progress {
  import opened Types
  import opened Session
  import opened Endpoints

  /** How far a connection that has been opened is. */
  function Rank(state: TcpState): nat {
    match state
    case LISTEN => 1
    case SYN_SENT => 1
    case SYN_RECEIVED => 2
    case ESTABLISHED => 3
    case FIN_WAIT_1 => 4
    case FIN_WAIT_2 => 5
    case CLOSE_WAIT => 6
    case LAST_ACK => 7
    case TIME_WAIT => 7
    case CLOSED => 8
  }

  predicate Forward(s: TcpState, t: TcpState) {
    t == s || Rank(t) > Rank(s)
  }

  /** A simultaneous open is allowed here. */
  lemma DispatchForward(t: Tcb, packet: Packet, iss: u32)
    ensures Forward(t.state, Dispatch(t, packet, iss).state)
  {
    hide HandleEstablished;
    if !SimultaneousOpen(t, packet) {
      DispatchState(t, packet, iss);
    }
  }

  /** Whatever happens to a connection once it is opened moves it forward or leaves its state. */
  lemma {:induction false} StateForward(e: Endpoint, ev: Event)
    requires e.begun && Possible(e, ev)
    ensures Next(e, ev).begun && Forward(e.tcb.state, Next(e, ev).tcb.state)
  {
    hide Close, Dispatch;
    if ev.Deliver? {
      DispatchForward(e.tcb.(peerWindow := ev.packet.window), ev.packet, e.iss);
    } else {
      hide Perform;
      CallState(e.tcb, e.iss, ev);
      CloseState(e.tcb);
    }
  }

  /** Runs in which a simultaneous open may occur. */
  predicate Unfolds(e: Endpoint, trace: seq<Event>)
    decreases |trace|
  {
    trace == [] || (Possible(e, trace[0]) && Unfolds(Next(e, trace[0]), trace[1..]))
  }

  function Reached(e: Endpoint, trace: seq<Event>): Endpoint
    requires Unfolds(e, trace)
    decreases |trace|
  {
    if trace == [] then e else Reached(Next(e, trace[0]), trace[1..])
  }

  /** The number of events that change the state. */
  function Transitions(e: Endpoint, trace: seq<Event>): nat
    requires Unfolds(e, trace)
    decreases |trace|
  {
    if trace == [] then 0
    else
      (if Next(e, trace[0]).tcb.state != e.tcb.state then 1 else 0) + Transitions(Next(e, trace[0]), trace[1..])
  }

  lemma {:induction false} RunForward(e: Endpoint, trace: seq<Event>)
    requires e.begun && Unfolds(e, trace)
    ensures Reached(e, trace).begun && Forward(e.tcb.state, Reached(e, trace).tcb.state)
    ensures Transitions(e, trace) <= Rank(Reached(e, trace).tcb.state) - Rank(e.tcb.state)
    decreases |trace|
  {
    hide Next;
    if trace == [] {
    } else {
      StateForward(e, trace[0]);
      RunForward(Next(e, trace[0]), trace[1..]);
    }
  }

  /** After `connect` or `listen` a connection changes its state at most seven times, and CLOSED is final. */
  lemma TransitionsBounded(e: Endpoint, trace: seq<Event>)
    requires e.begun && Unfolds(e, trace)
    ensures Transitions(e, trace) <= 7
    ensures e.tcb.state == CLOSED ==> Transitions(e, trace) == 0 && Reached(e, trace).tcb.state == CLOSED
  {
    hide Unfolds, Reached, Transitions;
    RunForward(e, trace);
  }

  /** A state that a connection has left, ESTABLISHED for one, is never entered again. */
  lemma {:induction false} NeverReentered(e: Endpoint, trace: seq<Event>, rest: seq<Event>)
    requires e.begun && Unfolds(e, trace) && Unfolds(Reached(e, trace), rest)
    requires Reached(e, trace).tcb.state != e.tcb.state
    ensures Reached(Reached(e, trace), rest).tcb.state != e.tcb.state
  {
    hide Unfolds, Reached, Transitions;
    RunForward(e, trace);
    RunForward(Reached(e, trace), rest);
  }

  // The last timer

  /** TIME_WAIT always has its timer armed. */
  predicate WaitIsTimed(t: Tcb) {
    t.state == TIME_WAIT ==> t.timers.twoMsl
  }

  lemma DispatchTimed(t: Tcb, packet: Packet, iss: u32)
    requires WaitIsTimed(t)
    ensures WaitIsTimed(Dispatch(t, packet, iss))
  {
    hide HandleEstablished, TrySend;
    if !SimultaneousOpen(t, packet) {
      DispatchState(t, packet, iss);
    }
  }

  lemma CallTimed(t: Tcb, iss: u32, ev: Event)
    requires WaitIsTimed(t) && !ev.Deliver? && (ev.TimerExpires? ==> ev.handle in t.timers.armed)
    ensures WaitIsTimed(Perform(t, iss, ev))
  {
    hide TrySend;
    CallState(t, iss, ev);
    CloseState(t);
    if ev.CallSend? {
      TrySendStays(t.(sendBuffer := t.sendBuffer + ev.data[..SendRoom(t, ev.data)]));
    } else if ev.TimerExpires? {
      ExpireTimed(t, ev.handle);
    } else {
    }
  }

  lemma TrySendStays(t: Tcb)
    ensures t.state == TIME_WAIT ==> TrySend(t) == t
  {
  }

  lemma ExpireTimed(t: Tcb, handle: nat)
    requires handle in t.timers.armed
    ensures Expire(t, handle).timers.twoMsl == t.timers.twoMsl && Expire(t, handle).state == t.state
  {
    hide Pow2, HalvedThreshold, Refreshed;
    if t.timers.armed[handle].count + 1 >= MAX_RETRANSMIT_COUNT {
    } else {
    }
  }

  lemma TimedStep(e: Endpoint, ev: Event)
    requires WaitIsTimed(e.tcb) && Possible(e, ev)
    ensures WaitIsTimed(Next(e, ev).tcb)
  {
    hide Dispatch;
    if ev.Deliver? {
      DispatchTimed(e.tcb.(peerWindow := ev.packet.window), ev.packet, e.iss);
    } else {
      hide Perform;
      CallTimed(e.tcb, e.iss, ev);
    }
  }

  lemma {:induction false} RunTimed(e: Endpoint, trace: seq<Event>)
    requires WaitIsTimed(e.tcb) && Unfolds(e, trace)
    ensures WaitIsTimed(Reached(e, trace).tcb)
    decreases |trace|
  {
    hide Next;
    if trace == [] {
    } else {
      TimedStep(e, trace[0]);
      RunTimed(Next(e, trace[0]), trace[1..]);
    }
  }

  /** In every run, TIME_WAIT can always be left: its expiry is possible and closes the session. */
  lemma {:induction false} TimeWaitEnds(e: Endpoint, trace: seq<Event>)
    requires e.tcb.state == CLOSED && Unfolds(e, trace)
    requires Reached(e, trace).tcb.state == TIME_WAIT && !Reached(e, trace).tcb.hung
    ensures Possible(Reached(e, trace), TwoMslExpires)
    ensures Next(Reached(e, trace), TwoMslExpires).tcb.state == CLOSED
  {
    hide Reached, Unfolds;
    RunTimed(e, trace);
  }
}
