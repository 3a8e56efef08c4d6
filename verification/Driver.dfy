/** Runs of a session object: what is proved of runs on values holds of the object that goes through the same events. */
module Driver {
  import opened Types
  import opened Endpoints
  import opened TcpSessions

  /** One event, handled by the object. */
  method Handle(session: TcpSession, iss: u32, ev: Event)
    requires session.Valid()
    requires ev.TimerExpires? ==> ev.handle in session.View().timers.armed
    modifies session.Footprint()
    ensures session.Valid() && session.View() == Perform(old(session.View()), iss, ev)
  {
    match ev
    case CallConnect => session.Connect(iss);
    case CallListen => session.Listen();
    case CallSend(data) => var _ := session.Send(data);
    case CallRecv(count) => var _ := session.Recv(count);
    case CallClose => session.Close();
    case Deliver(packet, intact) => session.Input(packet, intact, iss);
    case TimerExpires(handle) => session.Expire(handle);
    case TwoMslExpires => session.TwoMslTimeout();
  }

  /** A whole run: the object ends in the state of the endpoint that the theorems speak about. */
  method HandleAll(session: TcpSession, ghost start: Endpoint, iss: u32, trace: seq<Event>)
    requires session.Valid() && session.View() == start.tcb && start.iss == iss && Runs(start, trace)
    modifies session.Footprint()
    ensures session.Valid() && session.View() == After(start, trace).tcb
  {
    ghost var e := start;
    var i := 0;
    while i < |trace|
      invariant 0 <= i <= |trace|
      invariant session.Valid() && session.View() == e.tcb && e.iss == iss
      invariant Runs(e, trace[i..]) && After(e, trace[i..]) == After(start, trace)
    {
      assert trace[i..][0] == trace[i] && trace[i..][1..] == trace[i + 1..];
      Handle(session, iss, trace[i]);
      e := Next(e, trace[i]);
      i := i + 1;
    }
  }
}
