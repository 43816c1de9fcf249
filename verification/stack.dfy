/** The bounded last-in-first-out buffer of pkg/queue/queue.go. Slots start out
    empty (`None`, Go's `nil`); `current` indexes the top slot and runs from -1
    (empty) to `max - 1` (full). Popping lowers `current` but leaves the slot's
    old value in place, as the Go code does. */
module Stack {
  import opened Results
  import opened Sums

  datatype QueueError = QueueMaxExceeded | QueueIsEmpty

  datatype Stack<T> = Stack(current: int, max: int, arr: seq<Option<T>>)

  /** The representation invariant every operation preserves. */
  predicate Valid<T>(q: Stack<T>)
  {
    && |q.arr| == q.max
    && -1 <= q.current <= q.max - 1
    && forall i :: 0 <= i <= q.current ==> q.arr[i].Some?
  }

  /** Nothing is stored. */
  predicate IsEmpty<T>(q: Stack<T>)
    ensures Valid(q) ==> (IsEmpty(q) <==> |Elements(q)| == 0)
  {
    q.current < 0
  }

  /** Every slot is taken. */
  predicate IsFull<T>(q: Stack<T>)
    ensures Valid(q) ==> (IsFull(q) <==> |Elements(q)| == q.max)
  {
    q.current >= q.max - 1
  }

  /** The capacity: the length of the backing slice, not the number of
      stored elements. */
  function Len<T>(q: Stack<T>): (n: int)
    ensures Valid(q) ==> n == q.max && |Elements(q)| <= n
  {
    |q.arr|
  }

  /** The stored elements, bottom first. */
  function Elements<T>(q: Stack<T>): (es: seq<T>)
    requires Valid(q)
    ensures |es| == q.current + 1
    ensures forall i :: 0 <= i < |es| ==> q.arr[i] == Some(es[i])
  {
    seq(q.current + 1, i requires 0 <= i < q.current + 1 && i < |q.arr| && q.arr[i].Some? => q.arr[i].value)
  }

  function NewQueue<T>(max: int): (q: Stack<T>)
    requires max >= 0
    ensures Valid(q) && IsEmpty(q) && Elements(q) == []
    ensures Len(q) == max && q.max == max
    ensures IsFull(q) <==> max == 0
  {
    Stack(-1, max, seq(max, _ => None))
  }

  /** Push `e`; on a full buffer report `QueueMaxExceeded` and return the
      buffer untouched. */
  function Queue<T>(q: Stack<T>, e: T): (r: (Stack<T>, Option<QueueError>))
    requires Valid(q)
    ensures Valid(r.0) && r.0.max == q.max && Len(r.0) == Len(q)
    ensures r.1.Some? <==> IsFull(q)
    ensures IsFull(q) ==> r == (q, Some(QueueMaxExceeded))
    ensures !IsFull(q) ==>
              && r.0.current == q.current + 1
              && r.0.arr[r.0.current] == Some(e)
              && (forall i :: 0 <= i < |q.arr| && i != r.0.current ==> r.0.arr[i] == q.arr[i])
              && !IsEmpty(r.0)
              && Elements(r.0) == Elements(q) + [e]
  {
    if IsFull(q) then
      (q, Some(QueueMaxExceeded))
    else
      var c := q.current + 1;
      (q.(current := c, arr := q.arr[c := Some(e)]), None)
  }

  /** Pop the top element; on an empty buffer report `QueueIsEmpty` and
      return the buffer untouched. */
  function Dequeue<T>(q: Stack<T>): (r: (Stack<T>, Result<T, QueueError>))
    requires Valid(q)
    ensures Valid(r.0) && r.0.max == q.max && r.0.arr == q.arr
    ensures r.1.Failure? <==> IsEmpty(q)
    ensures IsEmpty(q) ==> r == (q, Failure(QueueIsEmpty))
    ensures !IsEmpty(q) ==>
              && r.0.current == q.current - 1
              && r.1.value == Elements(q)[|Elements(q)| - 1]
              && Elements(r.0) == Elements(q)[..|Elements(q)| - 1]
              && !IsFull(r.0)
  {
    if IsEmpty(q) then
      (q, Failure(QueueIsEmpty))
    else
      (q.(current := q.current - 1), Success(q.arr[q.current].value))
  }

  /** The `current` index is the number of stored elements minus one, so a
      buffer is full exactly when it holds `max` elements. */
  lemma FullIffCapacityReached<T>(q: Stack<T>)
    requires Valid(q)
    ensures IsFull(q) <==> |Elements(q)| == q.max
    ensures IsEmpty(q) <==> |Elements(q)| == 0
  {
  }

  /** Last in, first out: popping right after a successful push hands back the
      pushed element and restores the previous top and contents. */
  lemma {:induction false} PushThenPop<T>(q: Stack<T>, e: T)
    requires Valid(q) && !IsFull(q)
    ensures var (q1, _) := Queue(q, e);
            var (q2, out) := Dequeue(q1);
            && out == Success(e)
            && q2.current == q.current
            && Elements(q2) == Elements(q)
  {
    var (q1, _) := Queue(q, e);
    assert Elements(q1) == Elements(q) + [e];
    assert (Elements(q) + [e])[..|Elements(q)|] == Elements(q);
  }

  /** Push every element of `es` in order, stopping at the first failure. */
  function QueueAll<T>(q: Stack<T>, es: seq<T>): (r: (Stack<T>, Option<QueueError>))
    requires Valid(q)
    ensures Valid(r.0) && r.0.max == q.max
    decreases |es|
  {
    if |es| == 0 then (q, None)
    else
      var (q1, err) := Queue(q, es[0]);
      if err.Some? then (q1, err) else QueueAll(q1, es[1..])
  }

  /** Pushing no more elements than the free space always succeeds and stacks
      them on top in order. */
  lemma {:induction false} QueueAllFits<T>(q: Stack<T>, es: seq<T>)
    requires Valid(q) && |Elements(q)| + |es| <= q.max
    ensures QueueAll(q, es).1.None?
    ensures Elements(QueueAll(q, es).0) == Elements(q) + es
    decreases |es|
  {
    if |es| > 0 {
      var (q1, err) := Queue(q, es[0]);
      assert !IsFull(q);
      QueueAllFits(q1, es[1..]);
      assert Elements(q) + [es[0]] + es[1..] == Elements(q) + es;
    }
  }

  /** Pushing one element more than the free space fails on the last one. */
  lemma {:induction false} QueueAllOverflows<T>(q: Stack<T>, es: seq<T>)
    requires Valid(q) && |Elements(q)| + |es| > q.max
    ensures QueueAll(q, es).1 == Some(QueueMaxExceeded)
    decreases |es|
  {
    var (q1, err) := Queue(q, es[0]);
    if err.None? {
      QueueAllOverflows(q1, es[1..]);
    }
  }

  /** The first loop of the queue test: push from `supply` until the buffer
      reports full. Starting empty, exactly `max` pushes succeed. */
  method FillUntilFull<T>(max: int, supply: seq<T>) returns (q: Stack<T>, pushed: nat)
    requires 0 <= max <= |supply|
    ensures Valid(q) && IsFull(q)
    ensures pushed == max
    ensures Elements(q) == supply[..max]
  {
    q := NewQueue(max);
    pushed := 0;
    while !IsFull(q)
      invariant Valid(q) && q.max == max
      invariant pushed == q.current + 1
      invariant Elements(q) == supply[..pushed]
      decreases max - pushed
    {
      q := Queue(q, supply[pushed]).0;
      assert supply[..pushed] + [supply[pushed]] == supply[..pushed + 1];
      pushed := pushed + 1;
    }
  }

  /** The second loop of the queue test: pop until the buffer reports empty.
      The popped elements come out top first. */
  method DrainUntilEmpty<T>(q0: Stack<T>) returns (q: Stack<T>, popped: seq<T>)
    requires Valid(q0)
    ensures Valid(q) && IsEmpty(q) && q.max == q0.max
    ensures popped == Reverse(Elements(q0))
  {
    q := q0;
    popped := [];
    while !IsEmpty(q)
      invariant Valid(q) && q.max == q0.max && q.arr == q0.arr
      invariant q.current <= q0.current
      invariant Elements(q) == Elements(q0)[..q.current + 1]
      invariant popped == Reverse(Elements(q0)[q.current + 1..])
      decreases q.current
    {
      ghost var e := Elements(q0);
      var step := Dequeue(q);
      q := step.0;
      assert e[q.current + 1..] == [e[q.current + 1]] + e[q.current + 2..];
      popped := popped + [step.1.value];
      assert Elements(q0)[..q.current + 1] == Elements(q0)[..q.current + 2][..q.current + 1];
      ReverseCons(e[q.current + 1], e[q.current + 2..]);
    }
    assert Elements(q0)[0..] == Elements(q0);
  }

  lemma ReverseCons<T>(x: T, s: seq<T>)
    ensures Reverse([x] + s) == Reverse(s) + [x]
  {
  }
}
