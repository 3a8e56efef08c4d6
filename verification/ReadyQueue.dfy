/** The stack's ready queue on plain values: triggers, and the dispatch loop with whatever callbacks do in it. */
module ReadyQueue {

  /** Sessions are identities; the program's are addresses of objects that live as long as they are used. */
  type Session = nat

  /**
   * The queue, the sessions whose `is_in_ready_queue_` is set, and whether the idle handle is active. The flag is a
   * field of each session.
   */
  datatype Ready = Ready(queue: seq<Session>, flagged: set<Session>, idle: bool)

  const NONE_READY: Ready := Ready([], {}, false)

  function Enqueue(r: Ready, s: Session): Ready {
    r.(queue := r.queue + [s], idle := true)
  }

  function Trigger(r: Ready, s: Session): Ready {
    if s in r.flagged then r else Enqueue(r.(flagged := r.flagged + {s}), s)
  }

  function TriggerAll(r: Ready, sessions: seq<Session>): Ready
    decreases |sessions|
  {
    if sessions == [] then r else TriggerAll(Trigger(r, sessions[0]), sessions[1..])
  }

  /** What the `i`-th call of the application's callback triggers. */
  function Reaction(reactions: seq<seq<Session>>, i: nat): seq<Session> {
    if i < |reactions| then reactions[i] else []
  }

  /** The dispatch loop from the `i`-th session of the batch on. */
  function Serve(r: Ready, batch: seq<Session>, i: nat, reactions: seq<seq<Session>>): Ready
    requires i <= |batch|
    decreases |batch| - i
  {
    if i == |batch| then r
    else Serve(TriggerAll(r.(flagged := r.flagged - {batch[i]}), Reaction(reactions, i)), batch, i + 1, reactions)
  }

  function Dispatch(r: Ready, reactions: seq<seq<Session>>): Ready {
    if r.queue == [] then r.(idle := false) else Serve(r.(queue := [], idle := false), r.queue, 0, reactions)
  }

  predicate NoDuplicates(sessions: seq<Session>) {
    forall i, j :: 0 <= i < j < |sessions| ==> sessions[i] != sessions[j]
  }

  /**
   * `rest` is what the current batch has not dispatched yet. A session's flag is set exactly when it is queued or in
   * the rest, no session is there twice, and the idle handle is active exactly when the queue is not empty.
   */
  ghost predicate Consistent(r: Ready, rest: seq<Session>) {
    && NoDuplicates(r.queue + rest)
    && (forall s :: s in r.flagged <==> s in r.queue || s in rest)
    && (r.idle <==> r.queue != [])
  }

  lemma TriggerKeeps(r: Ready, rest: seq<Session>, s: Session)
    requires Consistent(r, rest)
    ensures Consistent(Trigger(r, s), rest)
    ensures r.queue <= Trigger(r, s).queue && (s in Trigger(r, s).queue || s in rest)
    ensures forall q :: q in Trigger(r, s).queue ==> q in r.queue || q == s
  {
    if s !in r.flagged {
      hide NoDuplicates;
      InsertDistinct(r.queue, s, rest);
    }
  }

  lemma InsertDistinct(a: seq<Session>, s: Session, b: seq<Session>)
    requires NoDuplicates(a + b) && s !in a && s !in b
    ensures NoDuplicates(a + [s] + b)
  {
    var more := a + [s] + b;
    forall i, j | 0 <= i < j < |more| ensures more[i] != more[j] {
      OtherThan(a, s, b, i);
      OtherThan(a, s, b, j);
    }
  }

  /** Where an element other than the inserted one was before. */
  lemma OtherThan(a: seq<Session>, s: Session, b: seq<Session>, i: nat)
    requires i < |a| + 1 + |b|
    ensures i < |a| ==> (a + [s] + b)[i] == (a + b)[i]
    ensures i == |a| ==> (a + [s] + b)[i] == s
    ensures i > |a| ==> (a + [s] + b)[i] == (a + b)[i - 1] == b[i - 1 - |a|]
  {
  }

  lemma {:induction false} TriggerAllKeeps(r: Ready, rest: seq<Session>, sessions: seq<Session>)
    requires Consistent(r, rest)
    ensures var after := TriggerAll(r, sessions);
      && Consistent(after, rest) && r.queue <= after.queue
      && (forall s :: s in sessions ==> s in after.queue || s in rest)
      && forall s :: s in after.queue ==> s in r.queue || s in sessions
    decreases |sessions|
  {
    if sessions == [] {
    } else {
      var next := Trigger(r, sessions[0]);
      TriggerKeeps(r, rest, sessions[0]);
      TriggerAllKeeps(next, rest, sessions[1..]);
      forall s | s in sessions ensures s in TriggerAll(r, sessions).queue || s in rest {
        if s == sessions[0] {
          assert next.queue <= TriggerAll(r, sessions).queue;
        }
      }
    }
  }

  /** Taking the first of the rest off, with its flag. */
  lemma TakeKeeps(r: Ready, batch: seq<Session>, i: nat)
    requires i < |batch| && Consistent(r, batch[i..])
    ensures Consistent(r.(flagged := r.flagged - {batch[i]}), batch[i + 1..])
  {
    var all, fewer := r.queue + batch[i..], r.queue + batch[i + 1..];
    assert all[|r.queue|] == batch[i];
    forall a, b | 0 <= a < b < |fewer| ensures fewer[a] != fewer[b] {
      assert fewer[a] == all[if a < |r.queue| then a else a + 1];
      assert fewer[b] == all[if b < |r.queue| then b else b + 1];
    }
    forall a | 0 <= a < |fewer| ensures fewer[a] != batch[i] {
      assert fewer[a] == all[if a < |r.queue| then a else a + 1];
    }
    assert batch[i] !in fewer;
    assert batch[i..] == [batch[i]] + batch[i + 1..];
  }

  /** Some callback from the `i`-th to the `n`-th of the batch triggers `s`. */
  predicate Triggers(reactions: seq<seq<Session>>, i: nat, n: nat, s: Session) {
    exists k :: i <= k < n && k < |reactions| && s in reactions[k]
  }

  /**
   * The dispatch loop keeps everything consistent, and no trigger made by a callback is lost: its session is still
   * to come in the same batch, or it is queued when the loop ends. No other session is queued by the loop.
   */
  lemma {:induction false} ServeKeeps(r: Ready, batch: seq<Session>, i: nat, reactions: seq<seq<Session>>)
    requires i <= |batch| && Consistent(r, batch[i..])
    ensures var after := Serve(r, batch, i, reactions);
      && Consistent(after, []) && r.queue <= after.queue
      && (forall k, s :: i <= k < |batch| && k < |reactions| && s in reactions[k]
            ==> s in after.queue || s in batch[k + 1..])
      && forall s :: s in after.queue ==> s in r.queue || Triggers(reactions, i, |batch|, s)
    decreases |batch| - i
  {
    if i == |batch| {
      assert batch[i..] == [];
      assert r.queue + [] == r.queue;
    } else {
      var taken := r.(flagged := r.flagged - {batch[i]});
      var reacted := TriggerAll(taken, Reaction(reactions, i));
      TakeKeeps(r, batch, i);
      TriggerAllKeeps(taken, batch[i + 1..], Reaction(reactions, i));
      ServeKeeps(reacted, batch, i + 1, reactions);
      forall s | s in Serve(r, batch, i, reactions).queue && s !in r.queue
        ensures Triggers(reactions, i, |batch|, s)
      {
        if s in reacted.queue {
          assert i < |reactions| && s in reactions[i];
        }
      }
    }
  }

  // Runs of the event loop

  datatype Event = Triggered(session: Session) | Idle(reactions: seq<seq<Session>>)

  /** The loop calls an idle handle only while it is active. */
  predicate Enabled(r: Ready, ev: Event) {
    ev.Idle? ==> r.idle
  }

  function Step(r: Ready, ev: Event): Ready {
    match ev
    case Triggered(s) => Trigger(r, s)
    case Idle(reactions) => Dispatch(r, reactions)
  }

  /** The sessions whose callback one event runs, in order. */
  function ServedBy(r: Ready, ev: Event): seq<Session> {
    if ev.Idle? then r.queue else []
  }

  predicate Runs(r: Ready, events: seq<Event>)
    decreases |events|
  {
    events == [] || (Enabled(r, events[0]) && Runs(Step(r, events[0]), events[1..]))
  }

  function After(r: Ready, events: seq<Event>): Ready
    decreases |events|
  {
    if events == [] then r else After(Step(r, events[0]), events[1..])
  }

  function Served(r: Ready, events: seq<Event>): seq<Session>
    decreases |events|
  {
    if events == [] then [] else ServedBy(r, events[0]) + Served(Step(r, events[0]), events[1..])
  }

  lemma StepKeeps(r: Ready, ev: Event)
    requires Consistent(r, []) && Enabled(r, ev)
    ensures Consistent(Step(r, ev), [])
    ensures ev.Triggered? ==> ev.session in Step(r, ev).queue && r.queue <= Step(r, ev).queue
  {
    match ev
    case Triggered(s) => TriggerKeeps(r, [], s);
    case Idle(reactions) =>
      if r.queue != [] {
        assert r.queue + [] == r.queue && [] + r.queue == r.queue;
        assert r.queue[0..] == r.queue;
        ServeKeeps(r.(queue := [], idle := false), r.queue, 0, reactions);
      }
  }

  /** Between callbacks, after any run: flags, queue and idle handle agree. */
  lemma {:induction false} AlwaysReady(r: Ready, events: seq<Event>)
    requires Consistent(r, []) && Runs(r, events)
    ensures Consistent(After(r, events), [])
    decreases |events|
  {
    hide Step, Consistent, Enabled;
    if events == [] {
    } else {
      StepKeeps(r, events[0]);
      AlwaysReady(Step(r, events[0]), events[1..]);
    }
  }

  /** A queued session is served by the next idle callback. */
  lemma {:induction false} QueuedIsServed(r: Ready, events: seq<Event>, s: Session)
    requires Consistent(r, []) && Runs(r, events) && s in r.queue
    requires exists i :: 0 <= i < |events| && events[i].Idle?
    ensures s in Served(r, events)
    decreases |events|
  {
    if !events[0].Idle? {
      StepKeeps(r, events[0]);
      var i :| 0 <= i < |events| && events[i].Idle?;
      assert events[1..][i - 1].Idle?;
      QueuedIsServed(Step(r, events[0]), events[1..], s);
    }
  }

  /** No trigger is lost: whatever was flagged or queued before, an idle callback after it serves the session. */
  lemma {:induction false} TriggerIsServed(r: Ready, s: Session, events: seq<Event>)
    requires Consistent(r, []) && Runs(r, [Triggered(s)] + events)
    requires exists i :: 0 <= i < |events| && events[i].Idle?
    ensures s in Served(Trigger(r, s), events)
  {
    assert ([Triggered(s)] + events)[1..] == events;
    StepKeeps(r, Triggered(s));
    QueuedIsServed(Trigger(r, s), events, s);
  }

  /** And as long as a session waits, the idle handle is active, so the loop makes that callback. */
  lemma WaitingMeansActive(r: Ready, events: seq<Event>, s: Session, reactions: seq<seq<Session>>)
    requires Consistent(r, []) && Runs(r, events)
    ensures var after := After(r, events);
      && (s in after.flagged <==> s in after.queue)
      && (s in after.flagged ==> Enabled(after, Idle(reactions)) && s in ServedBy(after, Idle(reactions)))
  {
    AlwaysReady(r, events);
  }

  /** A dispatch serves every queued session once, and each callback runs with its session's flag cleared. */
  lemma DispatchServesOnce(r: Ready, reactions: seq<seq<Session>>)
    requires Consistent(r, [])
    ensures NoDuplicates(ServedBy(r, Idle(reactions)))
    ensures forall s :: s in r.flagged <==> s in ServedBy(r, Idle(reactions))
  {
    assert r.queue + [] == r.queue;
  }
}
