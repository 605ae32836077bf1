/** A fixed-size circular buffer that drops its oldest element when full, and the bounded queue it
    stands for. */
module Ring {
  import opened Prelude

  datatype Outcome = Accepted | DroppedOldest | Rejected

  /** The abstract queue. `token` says whether the capacity-1 notification channel holds a token;
      the channel is closed exactly when the queue is. */
  datatype Queue<T> = Queue(capacity: nat, items: seq<T>, closed: bool, token: bool, dropped: nat)

  function Push<T>(q: Queue<T>, v: T): (Queue<T>, Outcome)
  {
    if q.closed then (q, Rejected)
    else if |q.items| == q.capacity && q.items != [] then
      (q.(items := q.items[1..] + [v], token := true, dropped := q.dropped + 1), DroppedOldest)
    else (q.(items := q.items + [v], token := true), Accepted)
  }

  function Pop<T>(q: Queue<T>): (Queue<T>, Option<T>)
  {
    if q.items == [] then (q, None) else (q.(items := q.items[1..]), Some(q.items[0]))
  }

  function Close<T>(q: Queue<T>): Queue<T> { q.(closed := true) }

  // ---------- the buffer ----------

  function Slot(head: nat, i: nat, n: nat): (k: nat)
    requires head < n && i <= n
    ensures k < n
  {
    (head + i) % n
  }

  lemma SlotWraps(head: nat, i: nat, n: nat)
    requires head < n && i <= n
    ensures Slot(head, i, n) == if head + i < n then head + i else head + i - n
  {
  }

  lemma SlotsDiffer(head: nat, i: nat, j: nat, n: nat)
    requires head < n && i < j < n
    ensures Slot(head, i, n) != Slot(head, j, n)
  {
    SlotWraps(head, i, n);
    SlotWraps(head, j, n);
  }

  lemma SlotShifts(head: nat, i: nat, n: nat)
    requires head < n && i < n
    ensures Slot(Slot(head, 1, n), i, n) == Slot(head, i + 1, n)
  {
    SlotWraps(head, 1, n);
    SlotWraps(head, i + 1, n);
    SlotWraps(Slot(head, 1, n), i, n);
  }

  /** The `size` elements of a circular store from `head` on. */
  function Unrolled<T>(store: seq<T>, head: nat, size: nat): (items: seq<T>)
    requires head < |store| && size <= |store|
    ensures |items| == size
    ensures forall i | 0 <= i < size :: items[i] == store[Slot(head, i, |store|)]
  {
    seq(size, i requires 0 <= i < size => store[Slot(head, i, |store|)])
  }

  class Buffer<T> {
    const zero: T
    const buf: array<T>
    var head: nat
    var size: nat
    var closed: bool
    var token: bool
    var dropped: nat

    ghost predicate Valid()
      reads this`head, this`size
    {
      buf.Length >= 1 && head < buf.Length && size <= buf.Length
    }

    /** The elements, read from head on, modulo the capacity. */
    ghost function Items(): (items: seq<T>)
      requires Valid()
      reads this`head, this`size, buf
      ensures |items| == size
      ensures forall i | 0 <= i < size :: items[i] == buf[Slot(head, i, buf.Length)]
    {
      Unrolled(buf[..], head, size)
    }

    /** The queue this buffer stands for. */
    ghost function Model(): Queue<T>
      requires Valid()
      reads this, buf
    {
      Queue(buf.Length, Items(), closed, token, dropped)
    }

    constructor (capacity: int, zero: T)
      ensures Valid() && fresh(buf) && this.zero == zero
      ensures Model() == Queue(if capacity < 1 then 1 else capacity, [], false, false, 0)
    {
      var n := if capacity < 1 then 1 else capacity;
      this.zero := zero;
      buf := new T[n](_ => zero);
      head, size, closed, token, dropped := 0, 0, false, false, 0;
    }

    method Enqueue(v: T) returns (outcome: Outcome)
      requires Valid()
      modifies this, buf
      ensures Valid() && (Model(), outcome) == Push(old(Model()), v)
    {
      if closed {
        return Rejected;
      }
      if size == buf.Length {
        // full: the head is the oldest element and the next slot to write
        OverwriteHead(v);
        dropped := dropped + 1;
        outcome := DroppedOldest;
      } else {
        WriteTail(v);
        outcome := Accepted;
      }
      // the notification is offered under the lock and lost if one is already pending
      token := true;
    }

    method OverwriteHead(v: T)
      requires Valid() && size == buf.Length
      modifies this`head, buf
      ensures Valid()
      ensures Items() == old(Items())[1..] + [v]
    {
      ghost var n, before, was := buf.Length, Items(), head;
      SlotWraps(was, 0, n);
      SlotWraps(was, n, n);
      forall i | 0 < i < n
        ensures Slot(was, i, n) != was
      {
        SlotsDiffer(was, 0, i, n);
      }
      buf[head] := v;
      head := (head + 1) % buf.Length;
      assert head == Slot(was, 1, n);
      forall i | 0 <= i < n
        ensures buf[Slot(head, i, n)] == (before[1..] + [v])[i]
      {
        SlotShifts(was, i, n);
      }
      assert Items() == before[1..] + [v];
    }

    method WriteTail(v: T)
      requires Valid() && size < buf.Length
      modifies this`size, buf
      ensures Valid()
      ensures Items() == old(Items()) + [v]
    {
      ghost var n := buf.Length;
      ghost var before := Items();
      buf[(head + size) % buf.Length] := v;
      forall i | 0 <= i < size
        ensures buf[Slot(head, i, n)] == before[i]
      {
        SlotsDiffer(head, i, size, n);
      }
      size := size + 1;
      assert Items() == before + [v];
    }

    method Dequeue() returns (v: T, ok: bool)
      requires Valid()
      modifies this, buf
      ensures Valid()
      ensures var r := Pop(old(Model()));
              Model() == r.0 && ok == r.1.Some? && v == (if ok then r.1.value else zero)
    {
      if size == 0 {
        return zero, false;
      }
      ghost var n := buf.Length;
      ghost var before := Items();
      ghost var was := head;
      v := buf[head];
      SlotWraps(head, 0, n);
      buf[head] := zero;
      head := (head + 1) % buf.Length;
      size := size - 1;
      forall i | 0 <= i < size
        ensures buf[Slot(head, i, n)] == before[i + 1]
      {
        SlotShifts(was, i, n);
        SlotsDiffer(was, 0, i + 1, n);
      }
      assert Items() == before[1..];
      ok := true;
    }

    method Shut()
      requires Valid()
      modifies this
      ensures Valid() && Model() == Close(old(Model()))
    {
      if closed {
        return;
      }
      closed := true;
    }

    method Len() returns (n: nat)
      requires Valid()
      ensures n == |Model().items|
    {
      n := size;
    }
  }

  // ---------- what any sequence of operations does ----------

  datatype Op<T> = DoPush(v: T) | DoPop | DoClose

  /** A queue with the pushes it accepted and the values it gave out so far. */
  datatype Ledger<T> = Ledger(queue: Queue<T>, pushed: seq<T>, popped: seq<T>)

  function Fresh<T>(capacity: nat): Ledger<T> { Ledger(Queue(capacity, [], false, false, 0), [], []) }

  function Apply<T>(l: Ledger<T>, op: Op<T>): Ledger<T>
  {
    match op
    case DoPush(v) =>
      var r := Push(l.queue, v);
      Ledger(r.0, if r.1 == Rejected then l.pushed else l.pushed + [v], l.popped)
    case DoPop =>
      var r := Pop(l.queue);
      Ledger(r.0, l.pushed, if r.1.Some? then l.popped + [r.1.value] else l.popped)
    case DoClose => l.(queue := Close(l.queue))
  }

  function ApplyAll<T>(l: Ledger<T>, ops: seq<Op<T>>): Ledger<T>
    decreases |ops|
  {
    if ops == [] then l else ApplyAll(Apply(l, ops[0]), ops[1..])
  }

  /** What a push answers is what it did: refused because closed, taken with room to spare, or taken for the
      oldest. Whatever was taken is the newest element and has left a token behind. */
  lemma PushAnswers<T>(q: Queue<T>, v: T)
    requires 1 <= q.capacity && |q.items| <= q.capacity
    ensures var (after, outcome) := Push(q, v);
      && (outcome == Rejected <==> q.closed) && (q.closed ==> after == q)
      && (outcome == DroppedOldest <==> after.dropped == q.dropped + 1) && after.dropped <= q.dropped + 1
      && (outcome == Accepted <==> |after.items| == |q.items| + 1)
      && (outcome == DroppedOldest ==> |q.items| == q.capacity)
      && (!q.closed ==> after.items != [] && after.items[|after.items| - 1] == v && after.token && !after.closed)
  {
  }

  /** A pop takes the oldest element and leaves closing, token and losses alone; from an empty queue it takes
      nothing. */
  lemma PopAnswers<T>(q: Queue<T>)
    ensures var (after, v) := Pop(q);
      && (v.None? <==> q.items == []) && (v.None? ==> after == q)
      && (v.Some? ==> q.items == [v.value] + after.items)
      && after.closed == q.closed && after.token == q.token && after.dropped == q.dropped
  {
  }

  /** What is queued is the newest part of what was pushed, within capacity; what was given out is a
      selection, in order, of the older part; and the rest was dropped. */
  ghost predicate Sound<T>(l: Ledger<T>)
  {
    var gone := |l.popped| + l.queue.dropped;
    && 1 <= l.queue.capacity && |l.queue.items| <= l.queue.capacity
    && gone + |l.queue.items| == |l.pushed|
    && l.queue.items == l.pushed[gone..]
    && Subsequence(l.popped, l.pushed[..gone])
  }

  lemma PushKeepsSound<T>(l: Ledger<T>, v: T)
    requires Sound(l) && !l.queue.closed
    ensures Sound(Apply(l, DoPush(v)))
  {
    var gone := |l.popped| + l.queue.dropped;
    var pushed := l.pushed + [v];
    assert pushed[..gone] == l.pushed[..gone];
    if |l.queue.items| == l.queue.capacity {
      var oldest := l.queue.items[0];
      assert pushed[..gone + 1] == l.pushed[..gone] + [oldest];
      SubsequenceSkip(l.popped, l.pushed[..gone], oldest);
      assert l.queue.items[1..] + [v] == pushed[gone + 1..];
    } else {
      assert l.queue.items + [v] == pushed[gone..];
    }
  }

  lemma PopKeepsSound<T>(l: Ledger<T>)
    requires Sound(l) && l.queue.items != []
    ensures Sound(Apply(l, DoPop))
  {
    var gone := |l.popped| + l.queue.dropped;
    var oldest := l.queue.items[0];
    assert l.pushed[..gone + 1] == l.pushed[..gone] + [oldest];
    SubsequenceTake(l.popped, l.pushed[..gone], oldest);
    assert l.queue.items[1..] == l.pushed[gone + 1..];
  }

  lemma ApplyKeepsSound<T>(l: Ledger<T>, op: Op<T>)
    requires Sound(l)
    ensures Sound(Apply(l, op))
  {
    match op
    case DoPush(v) => if !l.queue.closed { PushKeepsSound(l, v); }
    case DoPop => if l.queue.items != [] { PopKeepsSound(l); }
    case DoClose =>
  }

  lemma {:induction false} ApplyAllKeepsSound<T>(l: Ledger<T>, ops: seq<Op<T>>)
    requires Sound(l)
    ensures Sound(ApplyAll(l, ops))
    decreases |ops|
  {
    if ops != [] {
      ApplyKeepsSound(l, ops[0]);
      ApplyAllKeepsSound(Apply(l, ops[0]), ops[1..]);
    }
  }

  /** For every capacity and every sequence of operations: accepted = popped + dropped + still
      queued, the values popped are an in-order selection of the accepted pushes, and the queue holds
      the newest of them. */
  lemma RingConserves<T>(capacity: nat, ops: seq<Op<T>>)
    requires capacity >= 1
    ensures var l := ApplyAll(Fresh(capacity), ops);
      && |l.pushed| == |l.popped| + l.queue.dropped + |l.queue.items|
      && |l.queue.items| <= capacity
      && l.queue.items == l.pushed[|l.pushed| - |l.queue.items|..]
      && Subsequence(l.popped, l.pushed)
  {
    var l: Ledger<T> := Fresh(capacity);
    ApplyAllKeepsSound(l, ops);
    CapacityIsFixed(l, ops);
    var k := ApplyAll(l, ops);
    var gone := |k.popped| + k.queue.dropped;
    SubsequenceSkipMany(k.popped, k.pushed[..gone], k.pushed[gone..]);
    assert k.pushed[..gone] + k.pushed[gone..] == k.pushed;
  }

  lemma {:induction false} CapacityIsFixed<T>(l: Ledger<T>, ops: seq<Op<T>>)
    ensures ApplyAll(l, ops).queue.capacity == l.queue.capacity
    decreases |ops|
  {
    if ops != [] { CapacityIsFixed(Apply(l, ops[0]), ops[1..]); }
  }
}
