/**
 * The bounded first-in-first-out buffer of `src/ring_buffer.rs`: a double-ended
 * queue that, once it holds as many items as its bound, drops the oldest item
 * before appending a new one.
 */
module RingBuffer {
  import opened Wrappers

  /** The queue after `push(item)`: when it already holds `capacity` items the front one goes first. */
  function Pushed<T>(inner: seq<T>, capacity: nat, item: T): seq<T>
  {
    (if |inner| == capacity && capacity > 0 then inner[1..] else inner) + [item]
  }

  /** `pop_front`: the front item, if any, and the queue that remains. */
  function Popped<T>(inner: seq<T>): (r: (Option<T>, seq<T>))
    ensures r.0.None? <==> inner == []
    ensures r.0.None? ==> r.1 == []
    ensures r.0.Some? ==> [r.0.value] + r.1 == inner
  {
    if inner == [] then (None, []) else (Some(inner[0]), inner[1..])
  }

  /** The buffer's operations, for stating what any sequence of them does. */
  datatype Op<T> = Push(item: T) | Pop

  /** The queue after applying `ops` in order. */
  function Run<T>(inner: seq<T>, capacity: nat, ops: seq<Op<T>>): seq<T>
    decreases |ops|
  {
    if ops == [] then inner
    else
      var next := match ops[0]
        case Push(x) => Pushed(inner, capacity, x)
        case Pop => Popped(inner).1;
      Run(next, capacity, ops[1..])
  }

  /** The queue after pushing every item of `items`, without popping. */
  function PushAll<T>(inner: seq<T>, capacity: nat, items: seq<T>): seq<T>
    decreases |items|
  {
    if items == [] then inner
    else Pushed(PushAll(inner, capacity, items[..|items| - 1]), capacity, items[|items| - 1])
  }

  /** The items `pop` hands out, in order, until it returns `None`. */
  function Drain<T>(inner: seq<T>): seq<Option<T>>
    decreases |inner|
  {
    if inner == [] then [None] else [Some(inner[0])] + Drain(inner[1..])
  }

  /** Below the bound, `push` appends and leaves every earlier item where it was. */
  lemma PushBelowBound<T>(inner: seq<T>, capacity: nat, item: T)
    requires |inner| < capacity
    ensures Pushed(inner, capacity, item) == inner + [item]
    ensures forall i :: 0 <= i < |inner| ==> Pushed(inner, capacity, item)[i] == inner[i]
  {
  }

  /** At the bound, `push` drops exactly the oldest item and keeps the length at the bound. */
  lemma PushAtBound<T>(inner: seq<T>, capacity: nat, item: T)
    requires capacity >= 1 && |inner| == capacity
    ensures |Pushed(inner, capacity, item)| == capacity
    ensures Pushed(inner, capacity, item) == inner[1..] + [item]
  {
  }

  /** With a bound of at least one, no sequence of pushes and pops takes the length above the bound. */
  lemma {:induction false} RunStaysWithinBound<T>(inner: seq<T>, capacity: nat, ops: seq<Op<T>>)
    requires capacity >= 1 && |inner| <= capacity
    ensures |Run(inner, capacity, ops)| <= capacity
    decreases |ops|
  {
    if ops != [] {
      var next := match ops[0]
        case Push(x) => Pushed(inner, capacity, x)
        case Pop => Popped(inner).1;
      RunStaysWithinBound(next, capacity, ops[1..]);
    }
  }

  /** Pushing into an empty buffer keeps the last `capacity` items pushed, oldest first. */
  lemma {:induction false} PushAllKeepsNewest<T>(capacity: nat, items: seq<T>)
    requires capacity >= 1
    ensures var k := if |items| < capacity then |items| else capacity;
            PushAll([], capacity, items) == items[|items| - k..]
    decreases |items|
  {
    if items != [] {
      var n := |items|;
      var front := items[..n - 1];
      PushAllKeepsNewest(capacity, front);
      var k := if n - 1 < capacity then n - 1 else capacity;
      assert front[n - 1 - k..] + [items[n - 1]] == items[n - 1 - k..];
    }
  }

  /** The unit tests' scenario: bound 3, push 3, 4, 5, 1; the pops give 4, 5, 1 and then nothing. */
  lemma PushPopScenario()
    ensures Drain(PushAll([], 3, [3, 4, 5, 1])) == [Some(4), Some(5), Some(1), None]
  {
    PushAllKeepsNewest(3, [3, 4, 5, 1]);
    assert [3, 4, 5, 1][1..] == [4, 5, 1];
  }

  /** `RingBuffer<T>`: the `VecDeque` is the sequence `inner`; `capacity` is the bound it was created with. */
  class RingBuffer<T> {
    var inner: seq<T>
    const capacity: nat

    ghost predicate Valid()
      reads this
    {
      capacity == 0 || |inner| <= capacity
    }

    /** `RingBuffer::new(capacity)`. */
    constructor (capacity: nat)
      ensures Valid()
      ensures this.capacity == capacity && inner == []
    {
      this.capacity := capacity;
      inner := [];
    }

    method Push(item: T)
      requires Valid()
      modifies this
      ensures Valid()
      ensures inner == Pushed(old(inner), capacity, item)
    {
      if |inner| == capacity && capacity > 0 {
        inner := inner[1..];
      }
      inner := inner + [item];
    }

    method Pop() returns (r: Option<T>)
      requires Valid()
      modifies this
      ensures Valid()
      ensures (r, inner) == Popped(old(inner))
    {
      if inner == [] {
        r := None;
      } else {
        r := Some(inner[0]);
        inner := inner[1..];
      }
    }

    /** `Iterator::next`, which is `pop`. */
    method Next() returns (r: Option<T>)
      requires Valid()
      modifies this
      ensures Valid()
      ensures (r, inner) == Popped(old(inner))
    {
      r := Pop();
    }
  }

  /** `test_push_pop`, run against the class. */
  method TestPushPop() returns (a: Option<int>, b: Option<int>, c: Option<int>, d: Option<int>)
    ensures a == Some(4) && b == Some(5) && c == Some(1) && d == None
  {
    var buf := new RingBuffer<int>(3);
    buf.Push(3);
    buf.Push(4);
    buf.Push(5);
    buf.Push(1);
    assert buf.inner == [4, 5, 1];
    a := buf.Pop();
    b := buf.Pop();
    c := buf.Pop();
    d := buf.Pop();
  }

  /** `test_iter`, with `next` in place of `pop`. */
  method TestIter() returns (a: Option<real>, b: Option<real>, c: Option<real>, d: Option<real>)
    ensures a == Some(4.2) && b == Some(5.3) && c == Some(1.4) && d == None
  {
    var buf := new RingBuffer<real>(3);
    buf.Push(3.1);
    buf.Push(4.2);
    buf.Push(5.3);
    buf.Push(1.4);
    assert buf.inner == [4.2, 5.3, 1.4];
    a := buf.Next();
    b := buf.Next();
    c := buf.Next();
    d := buf.Next();
  }
}
