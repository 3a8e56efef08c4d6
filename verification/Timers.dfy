/** The retransmission timers on plain values: what each call of the manager does to the table and to the loop. */
module Timers {
  import opened Types

  /** A running one-shot timer, with the callback's captured values: the packet and the number of expiries so far. */
  datatype Armed = Armed(seqNum: u32, delay: nat, packet: Packet, count: nat)

  /**
   * `entries` is the manager's map from sequence number to handle, `armed` the handles the event loop will fire,
   * `next` the identity of the next handle to be allocated, `twoMsl` the separate TIME_WAIT timer.
   */
  datatype Table = Table(entries: map<u32, nat>, armed: map<nat, Armed>, next: nat, twoMsl: bool)

  const EMPTY: Table := Table(map[], map[], 0, false)

  function StopTimer(ts: Table, k: u32): Table {
    if k in ts.entries then ts.(armed := ts.armed - {ts.entries[k]}) else ts
  }

  function StartTimer(ts: Table, k: u32, delay: nat, packet: Packet, count: nat): Table {
    var stopped := StopTimer(ts, k);
    Table(ts.entries[k := ts.next], stopped.armed[ts.next := Armed(k, delay, packet, count)], ts.next + 1, ts.twoMsl)
  }

  function DropTimer(ts: Table, k: u32): Table {
    if k in ts.entries then ts.(armed := ts.armed - {ts.entries[k]}, entries := ts.entries - {k}) else ts
  }

  function HandlesOf(entries: map<u32, nat>, keys: set<u32>): set<nat> {
    set k | k in keys && k in entries :: entries[k]
  }

  function KeysBelow(entries: map<u32, nat>, n: u32): set<u32> {
    set k | k in entries && k < n
  }

  function HandlesBelow(ts: Table, n: u32): set<nat> {
    HandlesOf(ts.entries, KeysBelow(ts.entries, n))
  }

  function DropUpTo(ts: Table, n: u32): Table {
    ts.(entries := map k | k in ts.entries && n <= k :: ts.entries[k], armed := ts.armed - HandlesBelow(ts, n))
  }

  function StopUpTo(ts: Table, n: u32): Table {
    ts.(armed := ts.armed - HandlesBelow(ts, n))
  }

  function StopAll(ts: Table): Table {
    ts.(armed := ts.armed - ts.entries.Values, twoMsl := false)
  }

  function DropAll(ts: Table): Table {
    ts.(armed := ts.armed - ts.entries.Values, entries := map[])
  }

  /** A one-shot timer leaves the loop when it fires; its table entry stays. */
  function Fire(ts: Table, h: nat): Table {
    ts.(armed := ts.armed - {h})
  }

  /** Every armed handle is the one the table holds at its sequence number, and no handle has two entries. */
  ghost predicate Owned(ts: Table) {
    && (forall h :: h in ts.armed ==> ts.armed[h].seqNum in ts.entries && ts.entries[ts.armed[h].seqNum] == h)
    && (forall k :: k in ts.entries ==> ts.entries[k] < ts.next)
    && (forall j, k :: j in ts.entries && k in ts.entries && ts.entries[j] == ts.entries[k] ==> j == k)
  }

  lemma NoTwoArmed(ts: Table, g: nat, h: nat)
    requires Owned(ts)
    requires g in ts.armed && h in ts.armed && ts.armed[g].seqNum == ts.armed[h].seqNum
    ensures g == h
  {
  }

  /** Dropping up to `n` leaves exactly the entries from `n` on, armed as they were, and arms nothing below. */
  lemma DropUpToExact(ts: Table, n: u32)
    requires Owned(ts)
    ensures forall k :: k in DropUpTo(ts, n).entries <==> k in ts.entries && n <= k
    ensures forall k :: k in ts.entries && n <= k ==> DropUpTo(ts, n).entries[k] == ts.entries[k]
    ensures forall h :: h in DropUpTo(ts, n).armed <==> h in ts.armed && n <= ts.armed[h].seqNum
    ensures forall h :: h in ts.armed && n <= ts.armed[h].seqNum ==> DropUpTo(ts, n).armed[h] == ts.armed[h]
  {
    forall h | h in ts.armed ensures h in HandlesBelow(ts, n) <==> ts.armed[h].seqNum < n {
      if ts.armed[h].seqNum < n {
        assert ts.armed[h].seqNum in KeysBelow(ts.entries, n);
      }
    }
  }

  /** `us` is `ts` without the running timer at `k`: every other timer runs on, and the table keeps its entries. */
  ghost predicate Silenced(ts: Table, us: Table, k: u32) {
    && us.entries == ts.entries && us.next == ts.next && us.twoMsl == ts.twoMsl
    && (forall h :: h in us.armed <==> h in ts.armed && ts.armed[h].seqNum != k)
    && forall h :: h in us.armed ==> us.armed[h] == ts.armed[h]
  }

  /** `us` is `ts` with `timer` running under a new handle, in place of any timer at its number. */
  ghost predicate Rewound(ts: Table, us: Table, timer: Armed) {
    && us.entries == ts.entries[timer.seqNum := ts.next] && us.next == ts.next + 1 && us.twoMsl == ts.twoMsl
    && (forall h :: h in us.armed <==> h == ts.next || (h in ts.armed && ts.armed[h].seqNum != timer.seqNum))
    && us.armed[ts.next] == timer
    && forall h :: h in us.armed && h != ts.next ==> us.armed[h] == ts.armed[h]
  }

  lemma StopExact(ts: Table, k: u32)
    requires Owned(ts)
    ensures Silenced(ts, StopTimer(ts, k), k)
  {
  }

  lemma StartExact(ts: Table, k: u32, delay: nat, packet: Packet, count: nat)
    requires Owned(ts)
    ensures Rewound(ts, StartTimer(ts, k, delay, packet, count), Armed(k, delay, packet, count))
  {
    StopExact(ts, k);
    hide StopTimer;
  }

  /** Starting a timer again from its own callback: it has fired and is stopped, and the others run on. */
  lemma RestartExact(ts: Table, h: nat, delay: nat, packet: Packet, count: nat)
    requires Owned(ts) && h in ts.armed
    ensures var k := ts.armed[h].seqNum;
      Rewound(ts, StartTimer(StopTimer(Fire(ts, h), k), k, delay, packet, count), Armed(k, delay, packet, count))
  {
    var k := ts.armed[h].seqNum;
    assert StopTimer(Fire(ts, h), k).armed == StopTimer(ts, k).armed;
    assert StopTimer(StopTimer(ts, k), k).armed == StopTimer(ts, k).armed;
    StartExact(ts, k, delay, packet, count);
  }

  /** Dropping one timer stops it and takes its entry, and no other. */
  lemma DropExact(ts: Table, k: u32)
    requires Owned(ts)
    ensures var us := DropTimer(ts, k);
      && us.entries == ts.entries - {k} && Silenced(ts, us.(entries := ts.entries), k)
  {
  }

  /** Stopping up to `n` spares exactly the timers from `n` on, and every entry. */
  lemma StopUpToExact(ts: Table, n: u32)
    requires Owned(ts)
    ensures var us := StopUpTo(ts, n);
      && us == ts.(armed := us.armed) && us.armed == DropUpTo(ts, n).armed
      && (forall h :: h in us.armed <==> h in ts.armed && n <= ts.armed[h].seqNum)
  {
    DropUpToExact(ts, n);
  }

  /** A timer that fires is disarmed, whatever the table says; the others run on. */
  lemma FireExact(ts: Table, h: nat)
    requires Owned(ts) && h in ts.armed
    ensures Fire(ts, h) == ts.(armed := Fire(ts, h).armed) && Silenced(ts, Fire(ts, h), ts.armed[h].seqNum)
  {
    forall g | g in ts.armed && ts.armed[g].seqNum == ts.armed[h].seqNum ensures g == h {
      NoTwoArmed(ts, g, h);
    }
  }

  /** Stopping or dropping all timers leaves none armed; stopping keeps the entries and ends TIME_WAIT's timer too. */
  lemma StopAllDisarms(ts: Table)
    requires Owned(ts)
    ensures StopAll(ts) == ts.(armed := map[], twoMsl := false)
    ensures DropAll(ts) == ts.(armed := map[], entries := map[])
  {
    forall h | h in ts.armed ensures h in ts.entries.Values {
      assert ts.armed[h].seqNum in ts.entries;
    }
  }

  datatype Op =
    | Start(seqNum: u32, delay: nat, packet: Packet, count: nat)
    | Stop(seqNum: u32)
    | Drop(seqNum: u32)
    | DropBelow(bound: u32)
    | StopBelow(bound: u32)
    | StopEvery
    | DropEvery
    | Expire(handle: nat)

  function Apply(ts: Table, op: Op): Table {
    match op
    case Start(k, delay, packet, count) => StartTimer(ts, k, delay, packet, count)
    case Stop(k) => StopTimer(ts, k)
    case Drop(k) => DropTimer(ts, k)
    case DropBelow(n) => DropUpTo(ts, n)
    case StopBelow(n) => StopUpTo(ts, n)
    case StopEvery => StopAll(ts)
    case DropEvery => DropAll(ts)
    case Expire(h) => Fire(ts, h)
  }

  function ApplyAll(ts: Table, ops: seq<Op>): Table
    decreases |ops|
  {
    if ops == [] then ts else ApplyAll(Apply(ts, ops[0]), ops[1..])
  }

  lemma StartKeepsOwned(ts: Table, k: u32, delay: nat, packet: Packet, count: nat)
    requires Owned(ts)
    ensures Owned(StartTimer(ts, k, delay, packet, count))
  {
    var after := StartTimer(ts, k, delay, packet, count);
    forall h | h in after.armed
      ensures after.armed[h].seqNum in after.entries && after.entries[after.armed[h].seqNum] == h
    {
      if h != ts.next {
        assert h in ts.armed && after.armed[h] == ts.armed[h];
      }
    }
  }

  lemma DropUpToKeepsOwned(ts: Table, n: u32)
    requires Owned(ts)
    ensures Owned(DropUpTo(ts, n)) && Owned(StopUpTo(ts, n))
  {
    DropUpToExact(ts, n);
  }

  lemma ApplyKeepsOwned(ts: Table, op: Op)
    requires Owned(ts)
    ensures Owned(Apply(ts, op))
  {
    match op
    case Start(k, delay, packet, count) => StartKeepsOwned(ts, k, delay, packet, count);
    case DropBelow(n) => DropUpToKeepsOwned(ts, n);
    case StopBelow(n) => DropUpToKeepsOwned(ts, n);
    case StopEvery => StopAllDisarms(ts);
    case DropEvery => StopAllDisarms(ts);
    case _ =>
  }

  /** Ownership survives every sequence of calls and expiries. */
  lemma {:induction false} AlwaysOwned(ts: Table, ops: seq<Op>)
    requires Owned(ts)
    ensures Owned(ApplyAll(ts, ops))
    decreases |ops|
  {
    if ops == [] {
    } else {
      ApplyKeepsOwned(ts, ops[0]);
      AlwaysOwned(Apply(ts, ops[0]), ops[1..]);
    }
  }

  /** One more round of the dropping loop. */
  lemma DropStep(ts: Table, k: u32, n: u32)
    requires k in ts.entries && k < n
    ensures DropUpTo(DropTimer(ts, k), n) == DropUpTo(ts, n)
  {
    var dropped := DropTimer(ts, k);
    assert HandlesBelow(ts, n) == HandlesBelow(dropped, n) + {ts.entries[k]} by {
      forall h | h in HandlesBelow(ts, n) ensures h in HandlesBelow(dropped, n) + {ts.entries[k]} {
        var j :| j in KeysBelow(ts.entries, n) && ts.entries[j] == h;
        assert j != k ==> j in KeysBelow(dropped.entries, n);
      }
    }
    assert DropUpTo(dropped, n).entries == DropUpTo(ts, n).entries;
    assert DropUpTo(dropped, n).armed == DropUpTo(ts, n).armed;
  }

  lemma DropAllStep(ts: Table, k: u32)
    requires k in ts.entries
    ensures DropAll(DropTimer(ts, k)) == DropAll(ts)
  {
    var dropped := DropTimer(ts, k);
    assert ts.entries.Values == dropped.entries.Values + {ts.entries[k]} by {
      forall h | h in ts.entries.Values ensures h in dropped.entries.Values + {ts.entries[k]} {
        var j :| j in ts.entries && ts.entries[j] == h;
        assert j != k ==> j in dropped.entries;
      }
    }
    assert DropAll(dropped).armed == DropAll(ts).armed;
  }

  lemma NothingToDrop(ts: Table)
    requires |ts.entries| == 0
    ensures DropAll(ts) == ts
  {
    assert ts.entries == map[];
    assert ts.entries.Values == {};
    assert ts.armed - {} == ts.armed;
  }

  lemma FewerEntries(entries: map<u32, nat>, k: u32)
    requires k in entries
    ensures |entries - {k}| == |entries| - 1
  {
    assert (entries - {k}).Keys == entries.Keys - {k};
  }

  lemma StopOneMore(armed: map<nat, Armed>, entries: map<u32, nat>, done: set<u32>, k: u32)
    requires k in entries
    ensures armed - HandlesOf(entries, done) - {entries[k]} == armed - HandlesOf(entries, done + {k})
  {
    assert HandlesOf(entries, done + {k}) == HandlesOf(entries, done) + {entries[k]};
  }

  lemma AllHandles(entries: map<u32, nat>)
    ensures HandlesOf(entries, entries.Keys) == entries.Values
  {
  }

  lemma NothingBelow(ts: Table, n: u32)
    requires forall k :: k in ts.entries ==> n <= k
    ensures DropUpTo(ts, n) == ts
  {
    assert KeysBelow(ts.entries, n) == {};
    assert ts.armed - HandlesBelow(ts, n) == ts.armed;
    assert DropUpTo(ts, n).entries == ts.entries;
  }

  /** An ordered map that is not empty has a first key. */
  lemma FirstKey(entries: map<u32, nat>)
    requires |entries| > 0
    ensures exists k :: k in entries && forall j :: j in entries ==> k <= j
  {
    FirstOf(entries.Keys);
    var k :| IsFirst(k, entries.Keys);
    assert k in entries;
  }

  lemma {:induction false} FirstOf(s: set<u32>)
    requires s != {}
    ensures exists k :: IsFirst(k, s)
    decreases s
  {
    var k :| k in s;
    if s == {k} {
      assert IsFirst(k, s);
    } else {
      FirstOf(s - {k});
      var m :| IsFirst(m, s - {k});
      var first := if m < k then m else k;
      forall j | j in s ensures first <= j {
        if j != k {
          assert j in s - {k};
        }
      }
      assert IsFirst(first, s);
    }
  }

  ghost predicate IsFirst(k: u32, s: set<u32>) {
    k in s && forall j :: j in s ==> k <= j
  }
}

/** The timer manager of a session, with its ordered map and the loop's armed handles as fields. */
module TimerManagement {
  import opened Types
  import opened Timers

  class TimerManager {
    var timers: map<u32, nat>
    var armed: map<nat, Armed>
    var nextHandle: nat
    var twoMsl: bool

    function View(): Table
      reads this
    {
      Table(timers, armed, nextHandle, twoMsl)
    }

    constructor ()
      ensures View() == EMPTY
    {
      timers, armed, nextHandle, twoMsl := map[], map[], 0, false;
    }

    method StopTimer(seqNum: u32)
      modifies this
      ensures View() == Timers.StopTimer(old(View()), seqNum)
    {
      if seqNum in timers {
        var timer := timers[seqNum];
        armed := armed - {timer};
      }
    }

    method DropTimer(seqNum: u32)
      modifies this
      ensures View() == Timers.DropTimer(old(View()), seqNum)
    {
      if seqNum in timers {
        var timer := timers[seqNum];
        armed := armed - {timer};
        timers := timers - {seqNum};
      }
    }

    method StartTimer(seqNum: u32, timeout: nat, packet: Packet, count: nat)
      modifies this
      ensures View() == Timers.StartTimer(old(View()), seqNum, timeout, packet, count)
    {
      if seqNum in timers {
        StopTimer(seqNum);
      }
      var timer := nextHandle;
      nextHandle := nextHandle + 1;
      armed := armed[timer := Armed(seqNum, timeout, packet, count)];
      timers := timers[seqNum := timer];
    }

    method DropTimerUpTo(ackNum: u32)
      modifies this
      ensures View() == DropUpTo(old(View()), ackNum)
    {
      while |timers| > 0
        invariant DropUpTo(View(), ackNum) == DropUpTo(old(View()), ackNum)
        decreases |timers|
      {
        FirstKey(timers);
        var first :| first in timers && forall k :: k in timers ==> first <= k;
        if first >= ackNum {
          break;
        }
        DropStep(View(), first, ackNum);
        FewerEntries(timers, first);
        DropTimer(first);
      }
      NothingBelow(View(), ackNum);
    }

    method DropAllTimers()
      modifies this
      ensures View() == DropAll(old(View()))
    {
      while |timers| > 0
        invariant DropAll(View()) == DropAll(old(View()))
        decreases |timers|
      {
        FirstKey(timers);
        var first :| first in timers && forall k :: k in timers ==> first <= k;
        DropAllStep(View(), first);
        FewerEntries(timers, first);
        DropTimer(first);
      }
      NothingToDrop(View());
    }

    method StopTimersUpTo(ackNum: u32)
      modifies this
      ensures View() == StopUpTo(old(View()), ackNum)
    {
      StopEach(KeysBelow(timers, ackNum));
    }

    method StopAllTimers()
      modifies this
      ensures View() == StopAll(old(View()))
    {
      StopEach(timers.Keys);
      AllHandles(timers);
      twoMsl := false;
    }

    /** The loop of both methods above: one stop for every entry they visit. */
    method StopEach(keys: set<u32>)
      requires keys <= timers.Keys
      modifies `armed
      ensures armed == old(armed) - HandlesOf(timers, keys)
    {
      var todo := keys;
      while todo != {}
        invariant todo <= keys
        invariant armed == old(armed) - HandlesOf(timers, keys - todo)
        decreases |todo|
      {
        var seqNum :| seqNum in todo;
        StopOneMore(old(armed), timers, keys - todo, seqNum);
        assert keys - todo + {seqNum} == keys - (todo - {seqNum});
        var timer := timers[seqNum];
        armed := armed - {timer};
        todo := todo - {seqNum};
      }
      assert keys - todo == keys;
    }

    /** The event loop takes an expired one-shot timer out before it runs the callback. */
    method Expired(handle: nat) returns (timer: Armed)
      requires handle in armed
      modifies this
      ensures timer == old(armed)[handle] && View() == Fire(old(View()), handle)
    {
      timer := armed[handle];
      armed := armed - {handle};
    }
  }
}
