/** What each event does to a session, as its caller and its peer see it: the whole new state and what goes out. */
module Effects {
  import opened Types
  import opened Session
  import opened Endpoints
  import opened Streams
  import opened Reception
  import T = Timers

  /** An intact packet like this one reaches the handler of the state. */
  predicate Heard(p: Packet) {
    !p.flags.rst && (p.flags.ack || p.flags.syn || p.flags.fin)
  }

  // Timers, as the handlers leave them

  /** The timer at `k` is stopped, and nothing else about the timers changes. */
  ghost predicate Quiets(t: Tcb, u: Tcb, k: u32) {
    T.Owned(t.timers) ==> T.Silenced(t.timers, u.timers, k)
  }

  /** A first timer for `p` is started: it is due in a second and has expired no time. */
  ghost predicate Guards(t: Tcb, u: Tcb, p: Packet) {
    T.Owned(t.timers) ==> T.Rewound(t.timers, u.timers, T.Armed(p.seqNum, 1000, p, 0))
  }

  /** The only timer left is a first one for `p`. */
  ghost predicate GuardsOnly(t: Tcb, u: Tcb, p: Packet) {
    T.Owned(t.timers) ==>
      && u.timers.armed == map[t.timers.next := T.Armed(p.seqNum, 1000, p, 0)] && !u.timers.twoMsl
      && u.timers.entries == t.timers.entries[p.seqNum := t.timers.next]
  }

  /** No timer is left, and no entry is forgotten. */
  ghost predicate QuietsAll(t: Tcb, u: Tcb) {
    T.Owned(t.timers) ==> u.timers == t.timers.(armed := map[], twoMsl := false)
  }

  // Packets that do nothing, and resets

  /** A damaged packet changes nothing, and neither does one without RST, ACK, SYN and FIN. */
  lemma IgnoredPackets(t: Tcb, p: Packet, intact: bool, iss: u32)
    requires !intact || (!p.flags.rst && !p.flags.ack && !p.flags.syn && !p.flags.fin)
    ensures Input(t, p, intact, iss) == t
  {
  }

  /** An intact RST closes the session in every state: no timer stays armed, nothing goes out, no byte is lost. */
  lemma ResetCloses(t: Tcb, p: Packet, iss: u32)
    requires p.flags.rst
    ensures var u := Input(t, p, true, iss);
      && u == t.(state := CLOSED, timers := u.timers) && QuietsAll(t, u)
  {
    if T.Owned(t.timers) {
      T.StopAllDisarms(t.timers);
    }
  }

  /** A closed session only forgets that it was to be closed. */
  lemma ClosedForgets(t: Tcb, p: Packet, iss: u32)
    requires t.state == CLOSED && Heard(p)
    ensures Input(t, p, true, iss) == t.(peerWindow := p.window, userWantToClose := false)
  {
  }

  // Sending

  /**
   * One attempt to send: nothing in the states that do not send, with a full window or with nothing unsent; otherwise
   * one segment with the unsent bytes the window has room for, and its timer.
   */
  ghost predicate SendsMore(t: Tcb, u: Tcb) {
    var n := Wrap32(t.sendNext - t.sendUnack);
    var room := Wrap32(t.sendWindowSize - n);
    if t.state !in {ESTABLISHED, CLOSE_WAIT} || room == 0 || |t.sendBuffer| <= n then u == t
    else
      var end := if n + room < |t.sendBuffer| then n + room else |t.sendBuffer|;
      var p := Packet(t.sendNext, t.recvNext, FLAG_ACK, CAPACITY - |t.recvBuffer|, t.sendBuffer[n..end]);
      && u == t.(sendNext := Wrap32(t.sendNext + (end - n)), out := t.out + [p], timers := u.timers,
                 inflight := u.inflight)
      && Guards(t, u, p)
  }

  lemma PayloadSends(t: Tcb, data: seq<u8>)
    requires data != []
    ensures var u := SendPayload(t, data, FLAG_ACK);
      var p := Packet(t.sendNext, t.recvNext, FLAG_ACK, CAPACITY - |t.recvBuffer|, data);
      && u == t.(sendNext := Wrap32(t.sendNext + |data|), out := t.out + [p], timers := u.timers,
                 inflight := u.inflight)
      && Guards(t, u, p)
  {
    hide T.Owned, T.StartTimer, T.Rewound, Wrap32, Remember;
    if T.Owned(t.timers) {
      T.StartExact(t.timers, t.sendNext, 1000, PayloadPacket(t, data, FLAG_ACK), 0);
    }
  }

  lemma ChunkExact(t: Tcb)
    ensures var n := Wrap32(t.sendNext - t.sendUnack);
      var room := Wrap32(t.sendWindowSize - n);
      if t.state !in {ESTABLISHED, CLOSE_WAIT} || room == 0 || |t.sendBuffer| <= n then Chunk(t) == []
      else
        var end := if n + room < |t.sendBuffer| then n + room else |t.sendBuffer|;
        Chunk(t) == t.sendBuffer[n..end] && |Chunk(t)| == end - n > 0
  {
    hide Wrap32;
  }

  lemma TrySendSends(t: Tcb)
    ensures SendsMore(t, TrySend(t))
  {
    hide Chunk, TrySend, SendPayload, Guards, Wrap32;
    ChunkExact(t);
    TrySendIsPayload(t);
    if Chunk(t) == [] {
      NoPayload(t);
    } else {
      PayloadSends(t, Chunk(t));
    }
  }

  lemma NoPayload(t: Tcb)
    ensures SendPayload(t, [], FLAG_ACK) == t
  {
  }

  lemma ControlSends(t: Tcb, flags: Flags)
    ensures var u := SendControl(t, flags);
      var p := Packet(t.sendNext, t.recvNext, flags, CAPACITY - |t.recvBuffer|, []);
      if flags.syn || flags.fin then
        u == t.(sendNext := Wrap32(t.sendNext + 1), out := t.out + [p], timers := u.timers) && Guards(t, u, p)
      else
        u == t.(out := t.out + [p])
  {
    hide T.Owned, T.StartTimer, T.Rewound;
    if T.Owned(t.timers) {
      T.StartExact(t.timers, t.sendNext, 1000, ControlPacket(t, flags), 0);
    }
  }

  lemma AdvanceQuiets(t: Tcb, ackNum: u32)
    ensures Advance(t, ackNum) == t.(sendUnack := ackNum, timers := Advance(t, ackNum).timers)
    ensures Quiets(t, Advance(t, ackNum), Wrap32(ackNum - 1))
  {
    if T.Owned(t.timers) {
      T.StopExact(t.timers, Wrap32(ackNum - 1));
    }
  }

  // The handshake

  /** `connect` sends a SYN at `iss` and guards it. */
  lemma ConnectSends(t: Tcb, iss: u32)
    ensures var u := Connect(t, iss);
      var syn := Packet(iss, t.recvNext, FLAG_SYN, CAPACITY - |t.recvBuffer|, []);
      && u == t.(state := SYN_SENT, sendUnack := iss, sendNext := Wrap32(iss + 1), out := t.out + [syn],
                 timers := u.timers)
      && Guards(t, u, syn)
  {
    hide SendControl, T.Rewound, T.Owned;
    ControlSends(t.(state := SYN_SENT, sendNext := iss, sendUnack := iss), FLAG_SYN);
  }

  /** A listening session answers any packet with SYN, and no other, by a SYN-ACK at `iss`, which it guards. */
  lemma ListenAnswersSyn(t: Tcb, p: Packet, iss: u32)
    requires t.state == LISTEN && Heard(p)
    ensures var u := Input(t, p, true, iss);
      if p.flags.syn then
        var synAck := Packet(iss, Wrap32(p.seqNum + 1), FLAG_SYN_ACK, CAPACITY - |t.recvBuffer|, []);
        && u == t.(state := SYN_RECEIVED, peerWindow := p.window, recvNext := Wrap32(p.seqNum + 1), sendUnack := iss,
                   sendNext := Wrap32(iss + 1), out := t.out + [synAck], timers := u.timers)
        && Guards(t, u, synAck)
      else
        u == t.(peerWindow := p.window)
  {
    hide SendControl, T.Rewound, T.Owned;
    if p.flags.syn {
      var told := t.(peerWindow := p.window, recvNext := Wrap32(p.seqNum + 1));
      ControlSends(told.(state := SYN_RECEIVED, sendNext := iss, sendUnack := iss), FLAG_SYN_ACK);
    }
  }

  /**
   * In SYN_SENT the SYN-ACK of the session's own SYN establishes the connection: it is acknowledged before anything is
   * sent, and the timer of the SYN stops. Any other SYN-ACK is ignored; a bare SYN is answered by a SYN-ACK.
   */
  lemma SynSentEnds(t: Tcb, p: Packet, iss: u32) returns (synced: Tcb)
    requires t.state == SYN_SENT && Heard(p)
    ensures var u, next := Input(t, p, true, iss), Wrap32(p.seqNum + 1);
      var room := CAPACITY - |t.recvBuffer|;
      if p.flags.syn && p.flags.ack && p.ackNum == Wrap32(t.sendUnack + 1) then
        && synced == t.(state := ESTABLISHED, peerWindow := p.window, recvNext := next, sendUnack := p.ackNum,
                        out := t.out + [Packet(t.sendNext, next, FLAG_ACK, room, [])], timers := synced.timers)
        && Quiets(t, synced, t.sendUnack)
        && SendsMore(synced, u)
      else if p.flags.syn && !p.flags.ack then
        var synAck := Packet(t.sendNext, next, FLAG_SYN_ACK, room, []);
        && u == t.(state := SYN_RECEIVED, peerWindow := p.window, recvNext := next,
                   sendNext := Wrap32(t.sendNext + 1), out := t.out + [synAck], timers := u.timers)
        && Guards(t, u, synAck)
      else
        u == t.(peerWindow := p.window)
  {
    hide SendControl, TrySend, Advance, SendsMore, T.Rewound, T.Silenced, T.Owned;
    var told := t.(peerWindow := p.window, recvNext := Wrap32(p.seqNum + 1));
    synced := AnswerSynAck(told, p).(state := ESTABLISHED);
    AdvanceQuiets(told, p.ackNum);
    TrySendSends(synced);
    ControlSends(told.(state := SYN_RECEIVED), FLAG_SYN_ACK);
  }

  /** In SYN_RECEIVED the acknowledgment of the SYN-ACK establishes the connection; anything else is ignored. */
  lemma SynReceivedEnds(t: Tcb, p: Packet, iss: u32) returns (synced: Tcb)
    requires t.state == SYN_RECEIVED && Heard(p)
    ensures var u := Input(t, p, true, iss);
      if p.flags.ack && p.ackNum == Wrap32(t.sendUnack + 1) then
        && synced == t.(state := ESTABLISHED, peerWindow := p.window, sendUnack := p.ackNum, timers := synced.timers)
        && Quiets(t, synced, t.sendUnack)
        && SendsMore(synced, u)
      else
        u == t.(peerWindow := p.window)
  {
    hide TrySend, Advance, SendsMore, T.Silenced, T.Owned;
    var told := t.(peerWindow := p.window);
    synced := Advance(told, p.ackNum).(state := ESTABLISHED);
    AdvanceQuiets(told, p.ackNum);
    TrySendSends(synced);
  }

  // Closing

  /**
   * In FIN_WAIT_1 the expected acknowledgment stops the FIN's timer; a FIN is answered by a pure acknowledgment of it,
   * and leads to CLOSE_WAIT whether the session's own FIN is acknowledged or not.
   */
  lemma FinWait1Ends(t: Tcb, p: Packet, iss: u32) returns (acked: Tcb)
    requires t.state == FIN_WAIT_1 && Heard(p)
    ensures var u, next := Input(t, p, true, iss), Wrap32(p.seqNum + 1);
      && (if p.flags.ack && p.ackNum == Wrap32(t.sendUnack + 1) then
            && acked == t.(state := FIN_WAIT_2, peerWindow := p.window, sendUnack := p.ackNum, timers := acked.timers)
            && Quiets(t, acked, t.sendUnack)
          else
            acked == t.(peerWindow := p.window))
      && u == if p.flags.fin then
          acked.(state := CLOSE_WAIT, recvNext := next,
                 out := t.out + [Packet(t.sendNext, next, FLAG_ACK, CAPACITY - |t.recvBuffer|, [])])
        else acked
  {
    hide Advance, T.Silenced, T.Owned;
    var told := t.(peerWindow := p.window);
    acked := if AcksNext(told, p) then Advance(told, p.ackNum).(state := FIN_WAIT_2) else told;
    AdvanceQuiets(told, p.ackNum);
  }

  /** In FIN_WAIT_2 a FIN is acknowledged and starts the TIME_WAIT timer. */
  lemma FinWait2Ends(t: Tcb, p: Packet, iss: u32)
    requires t.state == FIN_WAIT_2 && Heard(p)
    ensures var u, next := Input(t, p, true, iss), Wrap32(p.seqNum + 1);
      u == if p.flags.fin then
          t.(state := TIME_WAIT, peerWindow := p.window, recvNext := next, timers := t.timers.(twoMsl := true),
             out := t.out + [Packet(t.sendNext, next, FLAG_ACK, CAPACITY - |t.recvBuffer|, [])])
        else t.(peerWindow := p.window)
  {
  }

  /** In TIME_WAIT a repeated FIN is acknowledged again, and the timer is not restarted. */
  lemma TimeWaitAnswers(t: Tcb, p: Packet, iss: u32)
    requires t.state == TIME_WAIT && Heard(p)
    ensures var u, next := Input(t, p, true, iss), Wrap32(p.seqNum + 1);
      u == if p.flags.fin then
          t.(peerWindow := p.window, recvNext := next,
             out := t.out + [Packet(t.sendNext, next, FLAG_ACK, CAPACITY - |t.recvBuffer|, [])])
        else t.(peerWindow := p.window)
  {
  }

  /** The TIME_WAIT timer closes the session and does nothing else. */
  lemma TimeWaitExpires(t: Tcb)
    ensures TwoMslTimeout(t) == t.(state := CLOSED, timers := t.timers.(twoMsl := false))
  {
  }

  /**
   * Every packet that reaches CLOSE_WAIT is answered by an acknowledgment and an attempt to send. The last FIN follows
   * exactly when the application wants to close and nothing is buffered or in flight; its timer is then the only one.
   */
  lemma CloseWaitEnds(t: Tcb, p: Packet, iss: u32)
    requires t.state == CLOSE_WAIT && Heard(p)
    ensures var u, room := Input(t, p, true, iss), CAPACITY - |t.recvBuffer|;
      var answered := t.(peerWindow := p.window, out := t.out + [Packet(t.sendNext, t.recvNext, FLAG_ACK, room, [])]);
      if t.userWantToClose && t.sendBuffer == [] && t.sendUnack == t.sendNext then
        var fin := Packet(t.sendNext, t.recvNext, FLAG_FIN, room, []);
        && u == answered.(state := LAST_ACK, sendNext := Wrap32(t.sendNext + 2), out := answered.out + [fin],
                          timers := u.timers)
        && GuardsOnly(t, u, fin)
      else
        SendsMore(answered, u)
  {
    hide TrySend, SendControl, T.Owned, T.Rewound;
    var answered := SendPureAck(t.(peerWindow := p.window), t.recvNext);
    var tried := TrySend(answered);
    TrySendSends(answered);
    if t.sendBuffer == [] {
      assert tried == answered;
    }
    if ReadyForLastFin(tried) {
      LastFinGuards(tried);
    }
  }

  lemma LastFinGuards(t: Tcb)
    ensures var u := SendLastFin(t);
      var fin := Packet(t.sendNext, t.recvNext, FLAG_FIN, CAPACITY - |t.recvBuffer|, []);
      && u == t.(state := LAST_ACK, sendNext := Wrap32(t.sendNext + 2), out := t.out + [fin], timers := u.timers)
      && GuardsOnly(t, u, fin)
  {
    hide SendControl;
    var stopped := t.(timers := T.StopAll(t.timers));
    ControlSends(stopped, FLAG_FIN);
    WrapAdd(t.sendNext + 1, 1);
    StoppedGuards(t, stopped, SendControl(stopped, FLAG_FIN), ControlPacket(t, FLAG_FIN));
  }

  lemma StoppedGuards(t: Tcb, stopped: Tcb, u: Tcb, p: Packet)
    requires stopped.timers == T.StopAll(t.timers) && Guards(stopped, u, p)
    ensures GuardsOnly(t, u, p)
  {
    if T.Owned(t.timers) {
      T.StopAllDisarms(t.timers);
      T.ApplyKeepsOwned(t.timers, T.StopEvery);
    }
  }

  /** In LAST_ACK the expected acknowledgment closes the session and stops the FIN's timer; nothing else does. */
  lemma LastAckEnds(t: Tcb, p: Packet, iss: u32)
    requires t.state == LAST_ACK && Heard(p)
    ensures var u := Input(t, p, true, iss);
      if p.flags.ack && p.ackNum == Wrap32(t.sendUnack + 1) then
        && u == t.(state := CLOSED, peerWindow := p.window, sendUnack := p.ackNum, timers := u.timers)
        && Quiets(t, u, t.sendUnack)
      else
        u == t.(peerWindow := p.window)
  {
    hide Advance, T.Silenced, T.Owned;
    AdvanceQuiets(t.(peerWindow := p.window), p.ackNum);
  }

  // Calls of the application

  /** `listen` opens a closed session and is ignored in every other state. */
  lemma ListenOpens(t: Tcb)
    ensures Listen(t) == if t.state == CLOSED then t.(state := LISTEN) else t
  {
  }

  /** Closing an established session tries to send once more; then the FIN goes out and is the only packet guarded. */
  lemma CloseEstablished(t: Tcb) returns (tried: Tcb)
    requires t.state == ESTABLISHED
    ensures SendsMore(t, tried)
    ensures var u := Close(t);
      var fin := Packet(tried.sendNext, t.recvNext, FLAG_FIN, CAPACITY - |t.recvBuffer|, []);
      && u == tried.(state := FIN_WAIT_1, userWantToClose := true, sendNext := Wrap32(tried.sendNext + 1),
                     out := tried.out + [fin], timers := u.timers)
      && GuardsOnly(tried, u, fin)
  {
    hide TrySend, SendControl, T.Owned, T.Rewound;
    tried := TrySend(t);
    TrySendSends(t);
    var stopped := tried.(timers := T.StopAll(tried.timers), state := FIN_WAIT_1);
    ControlSends(stopped, FLAG_FIN);
    StoppedGuards(tried, stopped, SendControl(stopped, FLAG_FIN), ControlPacket(stopped, FLAG_FIN));
  }

  /** Closing after the peer: FIN with ACK, guarded; the timers of data run on. */
  lemma CloseAfterPeer(t: Tcb)
    requires t.state == CLOSE_WAIT
    ensures var u := Close(t);
      var fin := Packet(t.sendNext, t.recvNext, FLAG_FIN_ACK, CAPACITY - |t.recvBuffer|, []);
      && u == t.(state := LAST_ACK, userWantToClose := true, sendNext := Wrap32(t.sendNext + 1),
                 out := t.out + [fin], timers := u.timers)
      && Guards(t, u, fin)
  {
    hide SendControl, T.Rewound, T.Owned;
    ControlSends(t.(state := LAST_ACK), FLAG_FIN_ACK);
  }

  /** Closing during the handshake sends a RST, unguarded, and stops every timer; elsewhere nothing happens. */
  lemma CloseElsewhere(t: Tcb)
    requires t.state != ESTABLISHED && t.state != CLOSE_WAIT
    ensures var u := Close(t);
      if t.state == SYN_SENT || t.state == SYN_RECEIVED then
        var rst := Packet(t.sendNext, t.recvNext, FLAG_RST, CAPACITY - |t.recvBuffer|, []);
        u == t.(state := CLOSED, out := t.out + [rst], timers := u.timers) && QuietsAll(t, u)
      else
        u == t
  {
    if T.Owned(t.timers) {
      T.StopAllDisarms(t.timers);
    }
  }

  /** `send` appends what fits and tries to send once; without data it does nothing, not even that. */
  lemma SendAppends(t: Tcb, data: seq<u8>)
    ensures var free := CAPACITY - |t.sendBuffer|;
      var more := if |data| <= free then data else data[..free];
      if data == [] then Send(t, data) == t
      else SendsMore(t.(sendBuffer := t.sendBuffer + more), Send(t, data))
  {
    hide TrySend, SendsMore;
    var free := CAPACITY - |t.sendBuffer|;
    var more := if |data| <= free then data else data[..free];
    assert data[..SendRoom(t, data)] == more;
    TrySendSends(t.(sendBuffer := t.sendBuffer + more));
  }

  /**
   * `recv` takes what was asked for, or all there is. Where that empties the buffer in CLOSE_WAIT and the flag asks for
   * it, the session closes: FIN with ACK goes out, guarded, and advertises the whole buffer.
   */
  lemma RecvTakes(t: Tcb, n: nat)
    ensures var u := Recv(t, n);
      var rest := if n < |t.recvBuffer| then t.recvBuffer[n..] else [];
      if rest == [] && t.state == CLOSE_WAIT && t.autoCloseOnEof then
        var fin := Packet(t.sendNext, t.recvNext, FLAG_FIN_ACK, CAPACITY, []);
        && u == t.(recvBuffer := [], state := LAST_ACK, userWantToClose := true,
                   sendNext := Wrap32(t.sendNext + 1), out := t.out + [fin], timers := u.timers)
        && Guards(t, u, fin)
      else
        u == t.(recvBuffer := rest)
  {
    hide Close, T.Rewound, T.Owned;
    var rest := if n < |t.recvBuffer| then t.recvBuffer[n..] else [];
    assert t.recvBuffer[ReadCount(t, n)..] == rest;
    var read := t.(recvBuffer := rest);
    if rest == [] && t.state == CLOSE_WAIT && t.autoCloseOnEof {
      CloseAfterPeer(read);
    }
  }

  // Timers of packets

  /**
   * An expiry that sends again: the packet goes out with the current acknowledgment number and window, the next timer
   * is due after twice the time, the window closes to one segment, and the threshold follows the old window's parity.
   */
  lemma TimeoutSends(t: Tcb, h: nat)
    requires h in t.timers.armed && t.timers.armed[h].count + 1 < MAX_RETRANSMIT_COUNT
    ensures var u, timer := Expire(t, h), t.timers.armed[h];
      var again := timer.packet.(ackNum := t.recvNext, window := CAPACITY - |t.recvBuffer|);
      var cwnd := t.sendWindowSize;
      && u == t.(ssthresh := if cwnd % 2 == 0 then cwnd + 1 else Wrap32(cwnd + 1) / 2, sendWindowSize := 1,
                 out := t.out + [again], timers := u.timers)
      && (T.Owned(t.timers) && timer.packet.seqNum == timer.seqNum ==>
            T.Rewound(t.timers, u.timers,
                      T.Armed(timer.seqNum, 1000 * Pow2(timer.count + 1), again, timer.count + 1)))
  {
    hide Pow2, T.Owned, T.Rewound, T.StartTimer, T.StopTimer;
    var timer := t.timers.armed[h];
    if T.Owned(t.timers) && timer.packet.seqNum == timer.seqNum {
      var again := timer.packet.(ackNum := t.recvNext, window := CAPACITY - |t.recvBuffer|);
      T.RestartExact(t.timers, h, 1000 * Pow2(timer.count + 1), again, timer.count + 1);
    }
  }

  // Established sessions

  /** What an acceptable acknowledgment does before anything is sent. */
  ghost predicate Accepts(t: Tcb, u: Tcb, ackNum: u32)
    requires t.sendUnack < ackNum
  {
    var released := if ackNum - t.sendUnack < |t.sendBuffer| then ackNum - t.sendUnack else |t.sendBuffer|;
    && u == t.(sendUnack := ackNum, sendBuffer := t.sendBuffer[released..],
               sendWindowSize := Wrap32(if t.sendWindowSize < t.ssthresh then 2 * t.sendWindowSize
                                        else t.sendWindowSize + 1),
               lastAckReceived := if t.lastAckReceived < ackNum then ackNum else t.lastAckReceived,
               dupAckCount := if t.lastAckReceived < ackNum then 0
                              else if t.lastAckReceived == ackNum then t.dupAckCount + 1 else t.dupAckCount,
               inflight := u.inflight, timers := u.timers)
    && (forall k :: k in u.inflight <==> k in t.inflight && ackNum <= k)
    && (forall k :: k in u.inflight ==> u.inflight[k] == t.inflight[k])
    && (T.Owned(t.timers) ==> Spares(t.timers, u.timers, ackNum - 1))
  }

  /** Exactly the timers and entries from `n` on are left. */
  ghost predicate Spares(ts: T.Table, us: T.Table, n: u32) {
    && us.next == ts.next && us.twoMsl == ts.twoMsl
    && (forall k :: k in us.entries <==> k in ts.entries && n <= k)
    && (forall k :: k in us.entries ==> us.entries[k] == ts.entries[k])
    && (forall h :: h in us.armed <==> h in ts.armed && n <= ts.armed[h].seqNum)
    && (forall h :: h in us.armed ==> us.armed[h] == ts.armed[h])
  }

  lemma AcceptAccepts(t: Tcb, ackNum: u32)
    requires AckAcceptable(t, ackNum) && FewDuplicates(t)
    ensures Accepts(t, AcceptAck(t, ackNum), ackNum)
  {
    hide Release, AcceptAck, Spares, T.Owned, Wrap32;
    NoFastRetransmit(t, ackNum);
    ReleaseExact(t, ackNum);
  }

  lemma ReleaseExact(t: Tcb, ackNum: u32)
    requires AckAcceptable(t, ackNum)
    ensures var u, n := Release(t, ackNum), ackNum - t.sendUnack;
      && u == t.(sendUnack := ackNum, sendBuffer := t.sendBuffer[if n < |t.sendBuffer| then n else |t.sendBuffer|..],
                 inflight := u.inflight, timers := u.timers)
      && (forall k :: k in u.inflight <==> k in t.inflight && ackNum <= k)
      && (forall k :: k in u.inflight ==> u.inflight[k] == t.inflight[k])
      && (T.Owned(t.timers) ==> Spares(t.timers, u.timers, ackNum - 1))
  {
    hide T.Owned, T.DropUpTo;
    if T.Owned(t.timers) {
      DropSpares(t.timers, ackNum - 1);
    }
  }

  lemma DropSpares(ts: T.Table, n: u32)
    requires T.Owned(ts)
    ensures Spares(ts, T.DropUpTo(ts, n), n)
  {
    T.DropUpToExact(ts, n);
  }

  /**
   * An acknowledgment: one in (`sendUnack`, `sendNext`] is accepted and followed by two attempts to send, any other
   * number by one. `accepted` and `tried` are the states in between.
   */
  lemma AckEffect(t: Tcb, p: Packet) returns (accepted: Tcb, tried: Tcb)
    requires p.flags.ack && FewDuplicates(t)
    ensures
      if t.sendUnack < p.ackNum <= t.sendNext then Accepts(t, accepted, p.ackNum) && SendsMore(accepted, tried)
      else tried == t
    ensures SendsMore(tried, Acked(t, p))
  {
    hide TrySend, AcceptAck, Accepts, SendsMore;
    accepted, tried := t, t;
    if AckAcceptable(t, p.ackNum) {
      AcceptAccepts(t, p.ackNum);
      accepted := AcceptAck(t, p.ackNum);
      TrySendSends(accepted);
      tried := TrySend(accepted);
    }
    TrySendSends(tried);
  }

  /** Which segments wait: exactly the last one stored at a number strictly inside the receive window. */
  lemma StoreExact(t: Tcb, p: Packet)
    ensures var u := Store(t, p);
      && u == t.(ooo := u.ooo)
      && u.ooo == if t.recvNext < p.seqNum < Wrap32(t.recvNext + t.recvWindowSize)
          then t.ooo[p.seqNum := p.payload] else t.ooo
  {
  }

  /** What answers a payload: nothing while the session spins, else one pure acknowledgment of what it holds then. */
  function Answer(t: Tcb, u: Tcb): seq<Packet> {
    if u.hung then [] else [Packet(t.sendNext, u.recvNext, FLAG_ACK, CAPACITY - |u.recvBuffer|, [])]
  }

  /**
   * The whole of `handle_established` for an intact packet, in this order: the acknowledgment, the payload, the FIN.
   * `acked` and `fed` are the states in between. Every payload is answered by one pure acknowledgment, and so is the
   * FIN, which is taken at once; only a session that spins in its draining loop answers nothing more.
   */
  lemma EstablishedEffect(t: Tcb, p: Packet, iss: u32) returns (accepted: Tcb, tried: Tcb, acked: Tcb, fed: Tcb)
    requires t.state == ESTABLISHED && Heard(p) && FewDuplicates(t)
    ensures var told := t.(peerWindow := p.window);
      if !p.flags.ack then acked == told
      else
        && SendsMore(tried, acked)
        && (if t.sendUnack < p.ackNum <= t.sendNext then Accepts(told, accepted, p.ackNum) && SendsMore(accepted, tried)
            else tried == told)
    ensures
      if p.payload == [] then fed == acked
      else
        && fed == acked.(recvBuffer := fed.recvBuffer, recvNext := fed.recvNext, ooo := fed.ooo, hung := fed.hung,
                         out := fed.out)
        && fed.out == acked.out + Answer(acked, fed)
        && (p.seqNum != t.recvNext ==> fed.recvBuffer == t.recvBuffer && fed.recvNext == t.recvNext)
        && (p.seqNum == t.recvNext && |t.recvBuffer| + |p.payload| <= CAPACITY ==>
              t.recvBuffer + p.payload <= fed.recvBuffer)
    ensures var u, next := Input(t, p, true, iss), Wrap32(p.seqNum + 1);
      u == if p.flags.fin && !fed.hung then
          fed.(state := CLOSE_WAIT, recvNext := next,
               out := fed.out + [Packet(fed.sendNext, next, FLAG_ACK, CAPACITY - |fed.recvBuffer|, [])])
        else fed
  {
    hide Acked, HandleIncoming, SendsMore, Accepts;
    var told := t.(peerWindow := p.window);
    acked := Acked(told, p);
    fed := Fed(acked, p);
    accepted, tried := told, told;
    if p.flags.ack {
      accepted, tried := AckEffect(told, p);
    } else {
      NoAck(told, p);
    }
    AckedKeepsRoom(told, p);
    if p.payload != [] {
      FedEffect(acked, p);
    }
  }

  lemma NoAck(t: Tcb, p: Packet)
    requires !p.flags.ack
    ensures Acked(t, p) == t
  {
  }

  lemma AckedKeepsRoom(t: Tcb, p: Packet)
    ensures SameRecvSide(t, Acked(t, p)) && Acked(t, p).state == t.state
  {
    hide HandleAck, TrySend;
    if p.flags.ack {
      AckKeeps(t, p);
      TrySendKeeps(HandleAck(t, p));
    }
  }

  lemma FedEffect(t: Tcb, p: Packet)
    ensures var u := HandleIncoming(t, p);
      && u == t.(recvBuffer := u.recvBuffer, recvNext := u.recvNext, ooo := u.ooo, hung := u.hung, out := u.out)
      && u.out == t.out + Answer(t, u)
      && (p.seqNum != t.recvNext ==> u.recvBuffer == t.recvBuffer && u.recvNext == t.recvNext)
      && (p.seqNum == t.recvNext && |t.recvBuffer| + |p.payload| <= CAPACITY ==>
            t.recvBuffer + p.payload <= u.recvBuffer)
  {
    hide Drain, Take;
    if p.seqNum == t.recvNext {
      TakeOnlyReceives(t, p.payload);
      DrainOnlyReceives(Take(t, p.payload));
      DrainAppends(Take(t, p.payload));
    }
  }

  /** Only the receiving side differs. */
  predicate OnlyReceives(t: Tcb, u: Tcb) {
    u == t.(recvBuffer := u.recvBuffer, recvNext := u.recvNext, ooo := u.ooo, hung := u.hung)
  }

  lemma TakeOnlyReceives(t: Tcb, data: seq<u8>)
    ensures OnlyReceives(t, Take(t, data))
    ensures |t.recvBuffer| + |data| <= CAPACITY ==> Take(t, data).recvBuffer == t.recvBuffer + data
  {
  }

  lemma {:induction false} DrainOnlyReceives(t: Tcb)
    ensures OnlyReceives(t, Drain(t))
    decreases t.ooo.Keys
  {
    if t.hung || !NextIsStored(t) || TakeStored(t).hung {
    } else {
      DrainOnlyReceives(TakeStored(t));
    }
  }

  /** Nothing that was sent is taken back, and a payload is answered. */
  lemma OutGrows(t: Tcb, p: Packet, iss: u32)
    requires t.state == ESTABLISHED && Heard(p) && FewDuplicates(t)
    ensures var u := Input(t, p, true, iss);
      t.out <= u.out && (p.payload != [] && !u.hung ==> |t.out| < |u.out|)
  {
    hide Input, SendsMore, Accepts, Wrap32;
    var accepted, tried, acked, fed := EstablishedEffect(t, p, iss);
    if p.flags.ack {
      if AckAcceptable(t, p.ackNum) {
        AcceptingSends(t.(peerWindow := p.window), accepted, p.ackNum);
        SendingGrows(accepted, tried);
      }
      SendingGrows(tried, acked);
    }
  }

  lemma AcceptingSends(t: Tcb, u: Tcb, ackNum: u32)
    requires t.sendUnack < ackNum && Accepts(t, u, ackNum)
    ensures u.out == t.out
  {
  }

  lemma SendingGrows(t: Tcb, u: Tcb)
    requires SendsMore(t, u)
    ensures t.out <= u.out
  {
  }
}
