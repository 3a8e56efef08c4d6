/** What a bounded queue promises, on plain sequences. */
module BoundedQueue {

  predicate Fits<T>(s: seq<T>, capacity: nat, values: seq<T>) {
    |s| + |values| <= capacity
  }

  function Min(a: int, b: int): int {
    if a < b then a else b
  }

  /** Everything but the first `n` elements. */
  function PopFront<T>(s: seq<T>, n: nat): (r: seq<T>)
    ensures |r| <= |s|
  {
    s[Min(n, |s|)..]
  }

  /** The slice of at most `n` elements that starts at `offset`. */
  function PeekRange<T>(s: seq<T>, offset: nat, n: nat): seq<T> {
    s[Min(offset, |s|)..Min(offset + n, |s|)]
  }
}

/** The circular array behind both session buffers. */
module RingBuffer {
  import opened Types
  import BQ = BoundedQueue

  /** A 64-bit machine has no array of 2^63 or more elements, so an index plus a size fits 64 bits. */
  const MAX_ARRAY: nat := 0x8000_0000_0000_0000

  /** `x` reduced modulo `c`, for an `x` that exceeds `c` at most once. */
  function Slot(x: nat, c: nat): (r: nat)
    requires x < 2 * c
    ensures r < c
  {
    if x < c then x else x - c
  }

  lemma ModIsSlot(x: nat, c: nat)
    requires x < 2 * c
    ensures x % c == Slot(x, c)
  {
    var q := x / c;
    assert x == q * c + x % c;
    ProductGrows(q, c);
    assert q == 0 || q == 1;
  }

  lemma ProductGrows(q: nat, c: nat)
    ensures q >= 2 ==> q * c >= 2 * c
  {
    if q >= 2 {
      assert q * c == 2 * c + (q - 2) * c;
    }
  }

  /** Adding in 64 bits either clamps the count or leaves more than there is. */
  lemma ClampedCount(offset: u64, n: u64, size: nat)
    requires offset < size < MAX_ARRAY
    ensures var actual := if (offset + n) % TWO_64 > size then size - offset else n;
      if offset + n >= TWO_64 then actual > size - offset else actual == BQ.Min(offset + n, size) - offset
  {
  }

  class RingQueue<T(0)> {
    const capacity: nat
    const buffer: array<T>
    var head: nat
    var tail: nat
    var size: nat

    /** The queue's elements, oldest first. */
    ghost var contents: seq<T>

    ghost predicate Valid()
      reads this, buffer
    {
      && 0 < capacity < MAX_ARRAY
      && head < capacity
      && size == |contents|
      && Holds(contents)
      && head == Slot(tail + size, capacity)
    }

    /** The cells from `tail` on hold `s`, counted or not. */
    ghost predicate Holds(s: seq<T>)
      reads this, buffer
    {
      && capacity == buffer.Length
      && tail < capacity
      && |s| <= capacity
      && forall k :: 0 <= k < |s| ==> buffer[Slot(tail + k, capacity)] == s[k]
    }

    constructor (capacity: nat)
      requires 0 < capacity < MAX_ARRAY
      ensures Valid() && contents == [] && this.capacity == capacity
      ensures fresh(buffer)
    {
      this.capacity := capacity;
      this.buffer := new T[capacity];
      head, tail, size, contents := 0, 0, 0, [];
    }

    /** The private helper behind `push`: moves `head` and, on a full queue, `tail`. */
    method Advance()
      requires 0 < capacity && head < capacity && tail < capacity
      modifies `head, `tail, `size
      ensures head == Slot(old(head) + 1, capacity)
      ensures size == if old(size) < capacity then old(size) + 1 else old(size)
      ensures tail == if old(size) < capacity then old(tail) else Slot(old(tail) + 1, capacity)
    {
      ModIsSlot(head + 1, capacity);
      head := (head + 1) % capacity;
      if size < capacity {
        size := size + 1;
      } else {
        ModIsSlot(tail + 1, capacity);
        tail := (tail + 1) % capacity;
      }
    }

    method Push(value: T)
      requires Valid()
      modifies this, buffer
      ensures Valid()
      ensures |old(contents)| < capacity ==> contents == old(contents) + [value]
      ensures |old(contents)| == capacity ==> contents == old(contents)[1..] + [value]
    {
      contents := (if size < capacity then contents else contents[1..]) + [value];
      buffer[head] := value;
      Advance();
    }

    method PushBatch(values: seq<T>) returns (ok: bool)
      requires Valid()
      modifies this, buffer
      ensures ok == (|old(contents)| + |values| <= capacity)
      ensures Valid() && contents == if ok then old(contents) + values else old(contents)
    {
      if |values| > capacity - size {
        return false;
      }
      for i := 0 to |values|
        invariant unchanged(`tail) && unchanged(`size) && unchanged(`contents) && head < capacity
        invariant head == Slot(tail + size + i, capacity)
        invariant Holds(contents + values[..i])
      {
        Write(values[i], contents + values[..i]);
        assert contents + values[..i + 1] == contents + values[..i] + [values[i]];
      }
      size := size + |values|;
      assert values[..|values|] == values;
      contents := contents + values;
      return true;
    }

    /** Stores one element at `head` and moves `head`, leaving the `written` cells as they are. */
    method Write(value: T, ghost written: seq<T>)
      requires Holds(written) && |written| < capacity
      requires head == Slot(tail + |written|, capacity)
      modifies `head, buffer
      ensures head == Slot(tail + |written| + 1, capacity)
      ensures Holds(written + [value])
    {
      buffer[head] := value;
      ModIsSlot(head + 1, capacity);
      head := (head + 1) % capacity;
    }

    method TryPush(value: T) returns (ok: bool)
      requires Valid()
      modifies this, buffer
      ensures ok == (|old(contents)| < capacity)
      ensures Valid() && contents == if ok then old(contents) + [value] else old(contents)
    {
      if Full() {
        return false;
      }
      Write(value, contents);
      size := size + 1;
      contents := contents + [value];
      return true;
    }

    /**
     * `offset + n` is computed in 64 bits. Where it wraps, the program reserves room for `n` elements, which no vector
     * has, and the call ends with an exception.
     */
    method PeekRange(offset: u64, n: u64) returns (result: Option<seq<T>>)
      requires Valid()
      ensures result == if offset < |contents| && offset + n >= TWO_64 then None
        else Some(BQ.PeekRange(contents, offset, n))
    {
      if offset >= size || n == 0 {
        assert BQ.PeekRange(contents, offset, n) == [];
        return Some([]);
      }
      ClampedCount(offset, n, size);
      var actual := if (offset + n) % TWO_64 > size then size - offset else n;
      if actual > size - offset {
        return None;
      }
      var peeked := [];
      for i := 0 to actual
        invariant peeked == contents[offset..offset + i]
      {
        peeked := peeked + [At(offset + i)];
      }
      result := Some(peeked);
    }

    method PopFront(n: nat)
      requires Valid()
      modifies `tail, `size, `contents
      ensures Valid() && contents == BQ.PopFront(old(contents), n)
    {
      if n == 0 {
        return;
      }
      var actual := if n > size then size else n;
      ModIsSlot(tail + actual, capacity);
      tail := (tail + actual) % capacity;
      size := size - actual;
      contents := contents[actual..];
      forall k | 0 <= k < size ensures buffer[Slot(tail + k, capacity)] == contents[k] {
        assert contents[k] == old(contents)[actual + k] == buffer[Slot(old(tail) + (actual + k), capacity)];
      }
    }

    method Pop() returns (ok: bool, out: T)
      requires Valid()
      modifies `tail, `size, `contents
      ensures Valid()
      ensures ok == (old(contents) != [])
      ensures ok ==> [out] + contents == old(contents)
      ensures !ok ==> contents == []
    {
      if size == 0 {
        return false, buffer[tail];
      }
      ok, out := true, Front();
      PopFront(1);
    }

    function Front(): (x: T)
      requires Valid()
      reads this, buffer
      ensures size > 0 ==> x == contents[0]
    {
      assert size > 0 ==> buffer[Slot(tail + 0, capacity)] == contents[0];
      buffer[tail]
    }

    function Back(): (x: T)
      requires Valid()
      reads this, buffer
      ensures size > 0 ==> x == contents[size - 1]
    {
      ModIsSlot(head + capacity - 1, capacity);
      assert size > 0 ==> buffer[Slot(tail + (size - 1), capacity)] == contents[size - 1];
      buffer[(head + capacity - 1) % capacity]
    }

    /** Any index is reduced, in 64 bits, to a cell; only those below the size reach an element. */
    function At(i: u64): (x: T)
      requires Valid()
      reads this, buffer
      ensures i < size ==> x == contents[i]
    {
      assert i < capacity ==> (tail + i) % TWO_64 % capacity == Slot(tail + i, capacity) by {
        if i < capacity {
          ModIsSlot(tail + i, capacity);
        }
      }
      buffer[(tail + i) % TWO_64 % capacity]
    }

    predicate Empty()
      requires Valid()
      reads this, buffer
      ensures Empty() <==> contents == []
    {
      size == 0
    }

    predicate Full()
      requires Valid()
      reads this, buffer
      ensures Full() <==> |contents| == capacity
    {
      size == capacity
    }

    method Clear()
      requires Valid()
      modifies this
      ensures Valid() && contents == []
    {
      head, tail, size, contents := 0, 0, 0, [];
    }
  }
}
