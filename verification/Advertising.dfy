/** The receive window that a session advertises: the room left in its receive buffer, in every packet it sends. */
module Advertising {
  import opened Types
  import opened Session
  import opened Endpoints
  import opened Window
  import opened Effects
  import T = Timers

  /** Every packet between `t` and `u` advertises the room left beside `held` bytes. */
  ghost predicate Advertises(t: Tcb, u: Tcb, held: nat) {
    && t.out <= u.out
    && forall i :: |t.out| <= i < |u.out| ==> u.out[i].window == CAPACITY - held
  }

  /** Only data goes out between `t` and `u`, and nothing is taken in. */
  ghost predicate SendsData(t: Tcb, u: Tcb) {
    && Advertises(t, u, |t.recvBuffer|) && u.recvBuffer == t.recvBuffer
    && forall i :: |t.out| <= i < |u.out| ==> u.out[i].payload != []
  }

  lemma SendsDataTwice(t: Tcb, u: Tcb, v: Tcb)
    requires SendsData(t, u) && SendsData(u, v)
    ensures SendsData(t, v)
  {
  }

  lemma TrySendsData(t: Tcb)
    ensures SendsData(t, TrySend(t))
  {
    hide TrySend;
    TrySendSends(t);
  }

  lemma AcceptSendsData(t: Tcb, ackNum: u32)
    requires AckAcceptable(t, ackNum)
    ensures SendsData(t, AcceptAck(t, ackNum))
  {
    var counted := CountDuplicates(Release(t, ackNum), ackNum);
    if counted.dupAckCount == 3 {
      RememberedSendsData(counted.(timers := T.StopTimer(counted.timers, ackNum)), ackNum);
    }
  }

  lemma RememberedSendsData(t: Tcb, ackNum: u32)
    ensures SendsData(t, ResendRemembered(t, ackNum))
  {
  }

  lemma AckedSendsData(t: Tcb, p: Packet)
    ensures SendsData(t, Acked(t, p))
  {
    hide TrySend, AcceptAck, SendsData;
    if p.flags.ack {
      var tried := HandleAck(t, p);
      if AckAcceptable(t, p.ackNum) {
        var accepted := AcceptAck(t, p.ackNum);
        AcceptSendsData(t, p.ackNum);
        TrySendsData(accepted);
        SendsDataTwice(t, accepted, tried);
      } else {
        NoData(t);
      }
      TrySendsData(tried);
      SendsDataTwice(t, tried, Acked(t, p));
    } else {
      NoData(t);
    }
  }

  lemma NoData(t: Tcb)
    ensures SendsData(t, t)
  {
  }

  /**
   * The room that an event's packets advertise is the room of the moment they go out: after the event, except for data
   * sent by an established session while it handles a packet, which goes out before the payload is taken in.
   */
  ghost predicate AdvertisesRoom(t: Tcb, u: Tcb, delivery: bool) {
    && t.out <= u.out
    && forall i :: |t.out| <= i < |u.out| ==>
      u.out[i].window == CAPACITY -
        (if delivery && t.state == ESTABLISHED && u.out[i].payload != [] then |t.recvBuffer| else |u.recvBuffer|)
  }

  lemma EstablishedAdvertises(t: Tcb, p: Packet)
    requires t.state == ESTABLISHED
    ensures AdvertisesRoom(t, HandleEstablished(t, p), true)
  {
    hide Acked, HandleIncoming;
    var acked := Acked(t, p);
    AckedSendsData(t, p);
    FedEffect(acked, p);
  }

  lemma SettledAdvertises(t: Tcb, p: Packet, iss: u32)
    requires t.state != ESTABLISHED && Heard(p)
    ensures AdvertisesRoom(t, Input(t, p, true, iss), true)
  {
    hide Input, SendsMore, Quiets, Guards, GuardsOnly, Wrap32;
    match t.state
    case CLOSED => ClosedForgets(t, p, iss);
    case LISTEN => ListenAnswersSyn(t, p, iss);
    case SYN_SENT =>
      var synced := SynSentEnds(t, p, iss);
      SentAdvertises(t, synced, Input(t, p, true, iss));
    case SYN_RECEIVED =>
      var synced := SynReceivedEnds(t, p, iss);
      SentAdvertises(t, synced, Input(t, p, true, iss));
    case FIN_WAIT_1 => var _ := FinWait1Ends(t, p, iss);
    case FIN_WAIT_2 => FinWait2Ends(t, p, iss);
    case CLOSE_WAIT =>
      CloseWaitEnds(t, p, iss);
      var answered := SendPureAck(t.(peerWindow := p.window), t.recvNext);
      SentAdvertises(t, answered, Input(t, p, true, iss));
    case LAST_ACK => LastAckEnds(t, p, iss);
    case TIME_WAIT => TimeWaitAnswers(t, p, iss);
  }

  lemma SentAdvertises(t: Tcb, sent: Tcb, u: Tcb)
    requires t.state != ESTABLISHED
    ensures sent.recvBuffer == t.recvBuffer && Advertises(t, sent, |t.recvBuffer|) && SendsMore(sent, u)
      ==> AdvertisesRoom(t, u, true)
  {
  }

  lemma SendAdvertises(t: Tcb, data: seq<u8>)
    ensures AdvertisesRoom(t, Send(t, data), false)
  {
    hide TrySend;
    if data != [] {
      TrySendsData(t.(sendBuffer := t.sendBuffer + data[..SendRoom(t, data)]));
    }
  }

  lemma CloseAdvertises(t: Tcb)
    ensures AdvertisesRoom(t, Close(t), false)
  {
    hide Close, SendsMore, Guards, GuardsOnly, QuietsAll;
    if t.state == ESTABLISHED {
      var tried := CloseEstablished(t);
      SendingAdvertises(t, tried);
    } else if t.state == CLOSE_WAIT {
      CloseAfterPeer(t);
    } else {
      CloseElsewhere(t);
    }
  }

  lemma SendingAdvertises(t: Tcb, u: Tcb)
    requires SendsMore(t, u)
    ensures Advertises(t, u, |t.recvBuffer|) && u.recvBuffer == t.recvBuffer
  {
  }

  lemma PacketAdvertises(t: Tcb, p: Packet, intact: bool, iss: u32)
    ensures AdvertisesRoom(t, Input(t, p, intact, iss), true)
  {
    hide HandleEstablished, Dispatch;
    if !intact || p.flags.rst || !Heard(p) {
    } else if t.state == ESTABLISHED {
      EstablishedAdvertises(t.(peerWindow := p.window), p);
      EstablishedIsDispatched(t.(peerWindow := p.window), p, iss);
    } else {
      SettledAdvertises(t, p, iss);
    }
  }

  lemma ExpiryAdvertises(t: Tcb, h: nat)
    requires h in t.timers.armed
    ensures AdvertisesRoom(t, Expire(t, h), false)
  {
    hide Expire;
    if t.timers.armed[h].count + 1 < MAX_RETRANSMIT_COUNT {
      TimeoutSends(t, h);
    } else {
      GivesUp(t, h);
    }
  }

  /** In every event, whatever the state: data, control packets, acknowledgments and retransmissions. */
  lemma RoomAdvertised(t: Tcb, iss: u32, ev: Event)
    requires ev.TimerExpires? ==> ev.handle in t.timers.armed
    ensures var u := Perform(t, iss, ev);
      && t.out <= u.out
      && forall i :: |t.out| <= i < |u.out| ==>
        u.out[i].window == CAPACITY - (if ev.Deliver? && t.state == ESTABLISHED && u.out[i].payload != []
                                       then |t.recvBuffer| else |u.recvBuffer|)
  {
    hide Close, Recv, Connect, Expire, Send, Input, TrySend, SendsMore, Quiets, Guards, GuardsOnly, QuietsAll;
    match ev
    case CallConnect => ConnectSends(t, iss);
    case CallSend(data) => SendAdvertises(t, data);
    case CallRecv(count) => RecvTakes(t, count);
    case CallClose => CloseAdvertises(t);
    case Deliver(p, intact) => PacketAdvertises(t, p, intact, iss);
    case TimerExpires(h) => ExpiryAdvertises(t, h);
    case _ =>
  }
}
