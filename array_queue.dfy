/** QueueInterface and its array implementation ArrayQueue: a fixed-capacity
    circular queue. The interface's contract is stated on the ghost sequence
    `Contents()`, the elements the next dequeues return, front first. */
module Queues {
  import opened Common

  /** `j % n` for 0 <= j <= 2n, without the division: the only remainders the
      queue's index arithmetic ever takes. */
  function Wrap(j: int, n: int): (r: int)
    requires 0 < n && 0 <= j <= 2 * n
    ensures 0 <= r < n
  {
    if j < n then j else if j < 2 * n then j - n else 0
  }

  lemma WrapIsMod(j: int, n: int)
    requires 0 < n && 0 <= j <= 2 * n
    ensures j % n == Wrap(j, n)
  {
    if j == 2 * n {
      assert j == n * 2 + 0;
    }
  }

  /** The `c` slots of `slots` from `f` on, wrapping round: what a circular
      queue over `slots` holds. */
  ghost function Window<E>(slots: seq<E>, f: int, c: int): (w: seq<E>)
    requires 0 <= c <= |slots| && 0 <= f && (f < |slots| || slots == [])
    ensures |w| == c
    ensures forall k :: 0 <= k < c ==> w[k] == slots[Wrap(f + k, |slots|)]
  {
    seq(c, k requires 0 <= k < c => slots[Wrap(f + k, |slots|)])
  }

  /** Writing the slot just past the window extends the window by that element. */
  lemma WindowPush<E>(slots: seq<E>, f: int, c: int, x: E)
    requires 0 <= f < |slots| && 0 <= c < |slots|
    ensures Window(slots[Wrap(f + c, |slots|) := x], f, c + 1) == Window(slots, f, c) + [x]
  {
    var n := |slots|;
    var after, before := Window(slots[Wrap(f + c, n) := x], f, c + 1), Window(slots, f, c);
    forall k | 0 <= k < c
      ensures after[k] == before[k]
    {
      assert Wrap(f + k, n) != Wrap(f + c, n);
    }
  }

  /** Moving the front one slot on drops the window's first element. */
  lemma WindowPop<E>(slots: seq<E>, f: int, c: int)
    requires 0 <= f < |slots| && 0 < c <= |slots|
    ensures Window(slots, Wrap(f + 1, |slots|), c - 1) == Window(slots, f, c)[1..]
  {
    var n := |slots|;
    var after, before := Window(slots, Wrap(f + 1, n), c - 1), Window(slots, f, c);
    forall k | 0 <= k < c - 1
      ensures after[k] == before[k + 1]
    {
      assert Wrap(Wrap(f + 1, n) + k, n) == Wrap(f + k + 1, n);
    }
  }

  class ArrayQueue<E(0)> {
    /** The capacity, `private final int size`. */
    const size: nat
    var count: int
    var front: int
    var back: int
    /** The slots; assigned only by the constructors, and by the array
        constructor to the caller's own array (no copy). */
    const arr: array<E>

    ghost predicate Valid()
      reads this
    {
      && arr.Length == size
      && 0 <= count <= size
      && (if size == 0 then front == 0 && -1 <= back <= 0
          else 0 <= front < size && 0 <= back <= size)
    }

    /** What the queue holds: the `count` slots from `front` on, wrapping round. */
    ghost function Contents(): (c: seq<E>)
      reads this, arr
      requires Valid()
    {
      Window(arr[..], front, count)
    }

    /** `back` is the slot just before the next free one, so the next enqueue
        writes right behind the last queued element. */
    ghost predicate Aligned()
      reads this
      requires Valid()
    {
      size > 0 ==> Wrap(back + 1, size) == Wrap(front + count, size)
    }

    /** `new ArrayQueue(n)`: empty, capacity n. */
    constructor (n: nat)
      ensures Valid() && Aligned()
      ensures size == n && count == 0 && front == 0 && back == n - 1
      ensures fresh(arr) && Contents() == []
    {
      size := n;
      arr := new E[n];
      front := 0;
      back := n - 1;
      count := 0;
    }

    /** `new ArrayQueue(a)`: full, over the caller's array itself, with
        `back = a.length`. The contents are a's elements in order, but `back`
        is one slot too far, so the queue is aligned only for length 0 or 1. */
    constructor FromArray(a: array<E>)
      ensures Valid()
      ensures arr == a && size == a.Length
      ensures count == a.Length && front == 0 && back == a.Length
      ensures Contents() == a[..]
      ensures Aligned() <==> a.Length <= 1
    {
      size := a.Length;
      arr := a;
      front := 0;
      back := a.Length;
      count := a.Length;
      new;
      assert Contents() == a[..];
    }

    /** The array constructor with `back = a.length - 1`, as for the capacity
        constructor: aligned, so the queue stays first-in first-out. */
    constructor FromArrayAligned(a: array<E>)
      ensures Valid() && Aligned()
      ensures arr == a && size == a.Length
      ensures count == a.Length && front == 0 && back == a.Length - 1
      ensures Contents() == a[..]
    {
      size := a.Length;
      arr := a;
      front := 0;
      back := a.Length - 1;
      count := a.Length;
      new;
      assert Contents() == a[..];
    }

    /** `size()`: the number of queued elements. */
    function Size(): (r: int)
      reads this, arr
      requires Valid()
      ensures r == |Contents()|
    {
      count
    }

    /** `isEmpty()`. */
    function IsEmpty(): (r: bool)
      reads this, arr
      requires Valid()
      ensures r <==> Contents() == []
    {
      count == 0
    }

    /** `isFull()`. */
    function IsFull(): (r: bool)
      reads this, arr
      requires Valid()
      ensures r <==> |Contents()| == size
    {
      count == size
    }

    /** `peek()` as written: `arr[front]` with no emptiness check. It returns the
        next element when there is one, and a stale or unset slot of an empty
        queue instead of raising NoSuchElementException; only a zero-capacity
        queue raises, ArrayIndexOutOfBoundsException. */
    function Peek(): (r: Result<E>)
      reads this, arr
      requires Valid()
      ensures Contents() != [] ==> r == Ok(Contents()[0])
      ensures r.Ok? <==> size > 0
      ensures r != Err(NoSuchElement)
    {
      if size == 0 then Err(IndexOutOfBounds) else Ok(arr[front])
    }

    /** `peek()` with the emptiness check the interface documents. */
    function PeekChecked(): (r: Result<E>)
      reads this, arr
      requires Valid()
      ensures r.Ok? <==> Contents() != []
      ensures r.Ok? ==> r.value == Contents()[0]
      ensures r.Err? ==> r.error == NoSuchElement
    {
      if count == 0 then Err(NoSuchElement) else Ok(arr[front])
    }

    /** `enqueue(data)`: on a full queue QueueOverflowException and no change;
        otherwise `back` advances modulo the capacity, the element is written
        there and the count grows by one. On an aligned queue that appends. */
    method Enqueue(x: E) returns (r: Outcome)
      requires Valid()
      modifies this, arr
      ensures Valid()
      ensures old(count) == size ==>
                && r == Fail(QueueOverflow)
                && count == old(count) && front == old(front) && back == old(back)
                && arr[..] == old(arr[..])
      ensures old(count) < size ==>
                && r == Pass
                && back == Wrap(old(back) + 1, size)
                && arr[..] == old(arr[..])[back := x]
                && count == old(count) + 1 && front == old(front)
      ensures Aligned() <==> old(Aligned())
      ensures old(Aligned()) && r == Pass ==> Contents() == old(Contents()) + [x]
      ensures r == Fail(QueueOverflow) ==> Contents() == old(Contents())
    {
      if IsFull() {
        return Fail(QueueOverflow);
      }
      ghost var before := arr[..];
      WrapIsMod(back + 1, size);
      back := (back + 1) % size;
      arr[back] := x;
      count := count + 1;
      r := Pass;
      if old(Aligned()) {
        WindowPush(before, front, count - 1, x);
      }
    }

    /** `dequeue()`: on an empty queue NoSuchElementException and no change;
        otherwise the element at `front` is returned, `front` advances modulo
        the capacity and the count shrinks by one. This removes the head of
        `Contents()` whether or not the queue is aligned. */
    method Dequeue() returns (r: Result<E>)
      requires Valid()
      modifies this
      ensures Valid()
      ensures old(count) == 0 ==>
                && r == Err(NoSuchElement)
                && count == old(count) && front == old(front) && back == old(back)
      ensures old(count) > 0 ==>
                && r == Ok(arr[old(front)])
                && front == Wrap(old(front) + 1, size)
                && count == old(count) - 1 && back == old(back)
      ensures old(count) > 0 ==> r == Ok(old(Contents())[0]) && Contents() == old(Contents())[1..]
      ensures old(count) == 0 ==> Contents() == old(Contents())
      ensures Aligned() <==> old(Aligned())
    {
      if IsEmpty() {
        return Err(NoSuchElement);
      }
      var head := arr[front];
      WrapIsMod(front + 1, size);
      WindowPop(arr[..], front, count);
      front := (front + 1) % size;
      count := count - 1;
      r := Ok(head);
    }
  }

  // ---------------------------------------------------------------------------
  // Clients

  /** Dequeues until the queue reports empty, as the program's display code
      does with a playlist's queue: the elements come out in `Contents()` order. */
  method Drain<E(0)>(q: ArrayQueue<E>) returns (out: seq<E>)
    requires q.Valid()
    modifies q
    ensures q.Valid() && q.Contents() == []
    ensures out == old(q.Contents())
  {
    out := [];
    while !q.IsEmpty()
      invariant q.Valid()
      invariant out + q.Contents() == old(q.Contents())
      decreases q.count
    {
      var r := q.Dequeue();
      out := out + [r.value];
    }
  }

  /** A queue of capacity 3: three enqueues succeed, the fourth overflows,
      three dequeues return the elements in order, and a fourth fails. */
  method CapacityThree<E(0)>(x: E, y: E, z: E, w: E)
    returns (overflow: Outcome, drained: seq<E>, underflow: Result<E>)
    ensures overflow == Fail(QueueOverflow)
    ensures drained == [x, y, z]
    ensures underflow == Err(NoSuchElement)
  {
    var q := new ArrayQueue<E>(3);
    var r1 := q.Enqueue(x);
    var r2 := q.Enqueue(y);
    var r3 := q.Enqueue(z);
    overflow := q.Enqueue(w);
    drained := Drain(q);
    underflow := q.Dequeue();
  }

  /** Three slots read from the middle one: the middle, the last, the first. */
  lemma WindowOfThree<E>(a: E, b: E, c: E)
    ensures Window([a, b, c], 1, 3) == [b, c, a]
  {
    var w := Window([a, b, c], 1, 3);
    assert w[0] == b && w[1] == c && w[2] == a;
  }

  /** The array constructor as written: after one dequeue of [p, q, r], an
      enqueue of x overwrites q, and the queue then yields x, r, p. */
  method FromArrayOverwrites<E(0)>(p: E, q: E, r: E, x: E) returns (first: Result<E>, rest: seq<E>)
    ensures first == Ok(p)
    ensures rest == [x, r, p]
  {
    var a := new E[3];
    a[0], a[1], a[2] := p, q, r;
    var queue := new ArrayQueue<E>.FromArray(a);
    first := queue.Dequeue();
    assert queue.front == 1 && queue.count == 2 && queue.back == 3;
    assert queue.arr[..] == [p, q, r];
    var o := queue.Enqueue(x);
    assert queue.back == 1;
    assert queue.arr[..] == [p, q, r][1 := x] == [p, x, r];
    WindowOfThree(p, x, r);
    rest := Drain(queue);
  }

  /** The aligned array constructor on the same steps keeps first-in first-out
      order: q, r, x. */
  method FromArrayAlignedKeepsOrder<E(0)>(p: E, q: E, r: E, x: E) returns (first: Result<E>, rest: seq<E>)
    ensures first == Ok(p)
    ensures rest == [q, r, x]
  {
    var a := new E[3];
    a[0], a[1], a[2] := p, q, r;
    var queue := new ArrayQueue<E>.FromArrayAligned(a);
    first := queue.Dequeue();
    var o := queue.Enqueue(x);
    rest := Drain(queue);
  }
}
