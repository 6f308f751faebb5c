// The ring behind every queue of utils/jl777hash.h, and the two-pass scheduler built on it.

module RingSpec {
  import opened Wrappers

  // `buffer` has `capacity` slots; a null slot is `None`.
  datatype Ring<T> = Ring(buffer: seq<Option<T>>, size: nat, head: nat, tail: nat) {
    // Lines 41-45 and 49-52: a full ring grows by one slot, then writes at `in`.
    function Enqueue(value: T): (r: Ring<T>)
      requires Shaped()
      ensures r.Shaped()
    {
      var b := if size == |buffer| then buffer + [None] else buffer;
      Ring(b[tail := Some(value)], size + 1, head, Next(tail, |b|))
    }

    // Lines 68-76. `None` is the null the caller takes for an empty queue.
    function Dequeue(): (r: (Ring<T>, Option<T>))
      requires Shaped()
      ensures r.0.Shaped()
    {
      if size == 0 then (this, None)
      else (Ring(buffer[head := None], size - 1, Next(head, |buffer|), tail), buffer[head])
    }

    predicate Shaped() {
      size <= |buffer| && (if buffer == [] then head == tail == 0 else head < |buffer| && tail < |buffer|)
    }

    // The item that an enqueue overwrites, if any.
    function Overwritten(): Option<T>
      requires Shaped()
    {
      if buffer == [] then None else buffer[tail]
    }

    // The ring holds exactly `size` items, in the slots from `head` to just before `tail`.
    ghost predicate Aligned() {
      && Shaped()
      && (buffer != [] ==> tail == Slot(size))
      && (forall i: nat :: i < |buffer| ==> (buffer[Slot(i)].Some? <==> i < size))
    }

    // The `i`-th slot from `head`, for `i` up to the capacity.
    function Slot(i: nat): (s: nat)
      requires Shaped() && i <= |buffer| && buffer != []
      ensures s < |buffer|
    {
      if head + i < |buffer| then head + i else head + i - |buffer|
    }

    // What the queue should hold, oldest first.
    ghost function Contents(): (r: seq<T>)
      requires Aligned()
      ensures |r| == size
    {
      seq(size, (i: nat) requires i < size => buffer[Slot(i)].value)
    }
  }

  // `(i + 1) % n` for an index `i` below `n`.
  function Next(i: nat, n: nat): (r: nat)
    requires i < n
    ensures r < n
  {
    if i + 1 == n then 0 else i + 1
  }

  // The items in a buffer, with their multiplicities.
  function Bag<T>(buffer: seq<Option<T>>): multiset<T> {
    if buffer == [] then multiset{}
    else Bag(buffer[..|buffer| - 1]) + One(buffer[|buffer| - 1])
  }

  function One<T>(slot: Option<T>): multiset<T> {
    match slot case None => multiset{} case Some(v) => multiset{v}
  }

  // An item swapped inside a part is swapped in the whole.
  lemma SwapInPart<T>(part: multiset<T>, other: multiset<T>, x: multiset<T>, y: multiset<T>)
    requires x <= part
    ensures x <= part + other && (part - x + y) + other == (part + other) - x + y
  {
  }

  lemma SwapLast<T>(part: multiset<T>, x: multiset<T>, y: multiset<T>)
    ensures x <= part + x && part + y == (part + x) - x + y
  {
  }

  lemma {:induction false} BagUpdate<T>(buffer: seq<Option<T>>, i: nat, slot: Option<T>)
    requires i < |buffer|
    ensures One(buffer[i]) <= Bag(buffer)
    ensures Bag(buffer[i := slot]) == Bag(buffer) - One(buffer[i]) + One(slot)
  {
    hide One;
    var n, after := |buffer| - 1, buffer[i := slot];
    if i == n {
      assert after[..n] == buffer[..n];
      SwapLast(Bag(buffer[..n]), One(buffer[n]), One(slot));
    } else {
      assert after[..n] == buffer[..n][i := slot];
      BagUpdate(buffer[..n], i, slot);
      SwapInPart(Bag(buffer[..n]), One(buffer[n]), One(buffer[i]), One(slot));
    }
  }

  // Whatever state the ring is in, an enqueue adds its item and drops at most the one
  // it overwrites, and a dequeue takes away exactly the item it returns: an item is
  // never handed out more often than it was put in.
  lemma BagOfEnqueue<T>(r: Ring<T>, value: T)
    requires r.Shaped()
    ensures Bag(r.Enqueue(value).buffer) == Bag(r.buffer) - One(r.Overwritten()) + multiset{value}
  {
    var b := if r.size == |r.buffer| then r.buffer + [None] else r.buffer;
    if r.size == |r.buffer| { assert b[..|b| - 1] == r.buffer; }
    BagUpdate(b, r.tail, Some(value));
  }

  lemma BagOfDequeue<T>(r: Ring<T>)
    requires r.Shaped()
    ensures var (r', v) := r.Dequeue(); One(v) <= Bag(r.buffer) && Bag(r'.buffer) == Bag(r.buffer) - One(v)
  {
    if r.size > 0 { BagUpdate(r.buffer, r.head, None); }
  }

  // On an aligned ring a dequeue is first-in first-out.
  lemma DequeueIsFifo<T>(r: Ring<T>)
    requires r.Aligned()
    ensures var (r', v) := r.Dequeue();
            r'.Aligned() && if r.size == 0 then v == None && r' == r
                            else v == Some(r.Contents()[0]) && r'.Contents() == r.Contents()[1..]
  {
    if r.size > 0 {
      var r', n := r.Dequeue().0, |r.buffer|;
      assert r.buffer[r.Slot(0)].Some?;
      forall i: nat | i < n ensures r'.buffer[r'.Slot(i)] == if i + 1 < n then r.buffer[r.Slot(i + 1)] else None {
        if i + 1 < n { assert r'.Slot(i) == r.Slot(i + 1) != r.head; } else { assert r'.Slot(i) == r.head; }
      }
      assert r'.Aligned();
      assert r'.Contents() == r.Contents()[1..];
    }
  }

  lemma EnqueueWithRoom<T>(r: Ring<T>, value: T)
    requires r.Aligned() && r.size < |r.buffer|
    ensures r.Enqueue(value).Aligned() && r.Enqueue(value).Contents() == r.Contents() + [value]
  {
    var r', n := r.Enqueue(value), |r.buffer|;
    forall i: nat | i < n ensures r'.buffer[r'.Slot(i)] == if i == r.size then Some(value) else r.buffer[r.Slot(i)] {
      assert r'.Slot(i) == r.Slot(i);
      if i != r.size { assert r.Slot(i) != r.Slot(r.size); }
    }
    assert r'.Aligned();
    assert r'.Contents() == r.Contents() + [value];
  }

  // An enqueue on an aligned ring appends exactly when the ring has a free slot or no
  // slot at all; growing a ring that holds something loses its oldest item.
  lemma EnqueueIsFifo<T>(r: Ring<T>, value: T)
    requires r.Aligned()
    ensures r.size < |r.buffer| || r.size == 0 <==>
            r.Enqueue(value).Aligned() && r.Enqueue(value).Contents() == r.Contents() + [value]
    ensures r.size == |r.buffer| > 0 ==> r.Overwritten() == Some(r.Contents()[0])
  {
    var r', n := r.Enqueue(value), |r.buffer|;
    if r.size < n {
      EnqueueWithRoom(r, value);
    } else if n == 0 {
      assert r'.buffer == [Some(value)];
      assert r'.Contents() == [value];
    } else {
      assert r.Slot(0) == r.Slot(n) == r.tail;
      assert r.buffer[r.Slot(0)].Some?;
      assert r'.buffer[n] == None;
      assert r'.Slot(n - r'.head) == n;
    }
  }

  // The enqueue that breaks the rule on a ring of one slot loses the other item.
  lemma SecondItemReplaces<T>(r: Ring<T>, value: T)
    requires r.Aligned() && |r.buffer| <= 1
    ensures |r.Enqueue(value).buffer| == if r.size == 0 then 1 else 2
    ensures r.size == 1 ==> Bag(r.Enqueue(value).buffer) == multiset{value}
  {
    BagOfEnqueue(r, value);
    if r.size == 1 {
      assert r.buffer[..0] == [];
      assert r.buffer[r.Slot(0)].Some?;
    }
  }

  // --------------------------------------------------------------------- runs

  datatype Op<T> = Insert(value: T) | Remove

  function AfterOp<T>(r: Ring<T>, op: Op<T>): (r': Ring<T>)
    requires r.Shaped()
    ensures r'.Shaped()
  {
    match op case Insert(value) => r.Enqueue(value) case Remove => r.Dequeue().0
  }

  // The same on a queue, oldest first.
  function QueueAfter<T>(q: seq<T>, op: Op<T>): seq<T> {
    match op case Insert(value) => q + [value] case Remove => if q == [] then [] else q[1..]
  }

  // At every moment of the run the ring is aligned and holds what the queue holds, and every
  // dequeue hands out the oldest item.
  ghost predicate Follows<T>(r: Ring<T>, q: seq<T>, ops: seq<Op<T>>)
    requires r.Shaped()
    decreases |ops|
  {
    && r.Aligned() && r.Contents() == q
    && (ops != [] ==>
          && (ops[0].Remove? ==> r.Dequeue().1 == if q == [] then None else Some(q[0]))
          && Follows(AfterOp(r, ops[0]), QueueAfter(q, ops[0]), ops[1..]))
  }

  // Every enqueue of the run finds a free slot, or nothing in the ring.
  predicate FindsRoom<T>(r: Ring<T>, ops: seq<Op<T>>)
    requires r.Shaped()
    decreases |ops|
  {
    ops == []
    || ((ops[0].Insert? ==> r.size < |r.buffer| || r.size == 0) && FindsRoom(AfterOp(r, ops[0]), ops[1..]))
  }

  // A ring is a first-in first-out queue over a run exactly when every enqueue finds room.
  lemma {:induction false} RunIsFifo<T>(r: Ring<T>, ops: seq<Op<T>>)
    requires r.Aligned()
    ensures Follows(r, r.Contents(), ops) <==> FindsRoom(r, ops)
    decreases |ops|
  {
    if ops != [] {
      match ops[0] {
        case Insert(value) =>
          EnqueueIsFifo(r, value);
          if r.size < |r.buffer| || r.size == 0 { RunIsFifo(r.Enqueue(value), ops[1..]); }
        case Remove =>
          DequeueIsFifo(r);
          RunIsFifo(r.Dequeue().0, ops[1..]);
      }
    }
  }

  function Empty<T>(): (r: Ring<T>)
    ensures r.Aligned() && r.Contents() == []
  {
    Ring([], 0, 0, 0)
  }

  // Every enqueue of the run finds nothing in the ring.
  predicate FindsNothing<T>(r: Ring<T>, ops: seq<Op<T>>)
    requires r.Shaped()
    decreases |ops|
  {
    ops == [] || ((ops[0].Insert? ==> r.size == 0) && FindsNothing(AfterOp(r, ops[0]), ops[1..]))
  }

  // A ring that starts with no slot, as every queue of the program does, is first-in first-out
  // exactly over the runs in which it never has to hold two items at once.
  lemma OneAtATime<T>(ops: seq<Op<T>>)
    ensures Follows(Empty(), [], ops) <==> FindsNothing(Empty(), ops)
  {
    RunIsFifo(Empty(), ops);
    RoomIsNothing<T>(Empty(), ops);
  }

  lemma {:induction false} RoomIsNothing<T>(r: Ring<T>, ops: seq<Op<T>>)
    requires r.Shaped() && |r.buffer| <= 1
    ensures FindsRoom(r, ops) <==> FindsNothing(r, ops)
    decreases |ops|
  {
    if ops != [] && (ops[0].Insert? ==> r.size == 0) { RoomIsNothing(AfterOp(r, ops[0]), ops[1..]); }
  }
}

module Rings {
  import opened RingSpec
  import opened Wrappers

  // `queue_t`; the mutex makes each method one step.
  class Queue<T> {
    var buffer: seq<Option<T>>
    var size: nat
    var head: nat
    var tail: nat

    ghost function Value(): Ring<T>
      reads this
    {
      Ring(buffer, size, head, tail)
    }

    ghost predicate Valid()
      reads this
    {
      Value().Shaped()
    }

    constructor ()
      ensures Valid() && Value().Aligned() && Value().Contents() == [] && buffer == []
    {
      buffer, size, head, tail := [], 0, 0, 0;
    }

    method Enqueue(value: T)
      requires Valid()
      modifies this
      ensures Valid() && Value() == old(Value()).Enqueue(value)
      ensures Bag(buffer) == old(Bag(buffer) - One(Value().Overwritten())) + multiset{value}
    {
      hide Bag, One;
      BagOfEnqueue(Value(), value);
      while size == |buffer|
        invariant size <= |buffer|
        invariant buffer == old(buffer) || (old(size == |buffer|) && buffer == old(buffer) + [None])
        invariant size == old(size) && head == old(head) && tail == old(tail)
        decreases size + 1 - |buffer|
      {
        buffer := buffer + [None];
      }
      buffer := buffer[tail := Some(value)];
      size := size + 1;
      tail := Next(tail, |buffer|);
    }

    method Dequeue() returns (value: Option<T>)
      requires Valid()
      modifies this
      ensures Valid() && (Value(), value) == old(Value()).Dequeue()
      ensures One(value) <= old(Bag(buffer)) && Bag(buffer) == old(Bag(buffer)) - One(value)
    {
      hide Bag, One;
      BagOfDequeue(Value());
      value := None;
      if size > 0 {
        value := buffer[head];
        buffer := buffer[head := None];
        size := size - 1;
        head := Next(head, |buffer|);
      }
    }
  }
}

// `process_pingpong_queue` (utils/jl777hash.h:104-134) over first-in first-out queues.
module PingPong {
  import opened RingSpec
  import opened Wrappers

  class Fifo<T> {
    var items: seq<T>

    constructor ()
      ensures items == []
    {
      items := [];
    }

    method Enqueue(value: T)
      modifies this
      ensures items == old(items) + [value]
    {
      items := items + [value];
    }

    // Several items, by whoever adds them.
    method Add(values: seq<T>)
      modifies this
      ensures items == old(items) + values
    {
      items := items + values;
    }

    method Dequeue() returns (value: Option<T>)
      modifies this
      ensures old(items) == [] ==> value == None && items == []
      ensures old(items) != [] ==> value == Some(old(items)[0]) && items == old(items)[1..]
    {
      if items == [] {
        value := None;
      } else {
        value := Some(items[0]);
        items := items[1..];
      }
    }
  }

  // Where an item goes depends on the sign of what the action returned for it.
  function Sign(retval: int): int {
    if retval > 0 then 1 else if retval < 0 then -1 else 0
  }

  // The items whose call returned a number with one of these signs; item `i` is the subject of call
  // `start + i`.
  function Picked<T>(items: seq<T>, start: nat, verdict: nat -> int, signs: set<int>): seq<T> {
    if items == [] then []
    else
      var n := |items| - 1;
      Picked(items[..n], start, verdict, signs) + Put(items[n], verdict(start + n), signs)
  }

  function Put<T>(x: T, retval: int, signs: set<int>): seq<T> {
    if Sign(retval) in signs then [x] else []
  }

  ghost function PickedBag<T>(items: seq<T>, start: nat, verdict: nat -> int, signs: set<int>): multiset<T> {
    multiset(Picked(items, start, verdict, signs))
  }

  lemma PickedNext<T>(items: seq<T>, x: T, start: nat, verdict: nat -> int, signs: set<int>)
    ensures Picked(items + [x], start, verdict, signs)
         == Picked(items, start, verdict, signs) + Put(x, verdict(start + |items|), signs)
  {
    assert (items + [x])[..|items|] == items;
  }

  lemma {:induction false} PickedBoth<T>(one: seq<T>, two: seq<T>, start: nat, verdict: nat -> int, signs: set<int>)
    ensures Picked(one + two, start, verdict, signs)
         == Picked(one, start, verdict, signs) + Picked(two, start + |one|, verdict, signs)
    decreases |two|
  {
    if two == [] {
      assert one + two == one;
    } else {
      var n := |two| - 1;
      PickedBoth(one, two[..n], start, verdict, signs);
      assert two == two[..n] + [two[n]];
      BothNext(one, two[..n], two[n], start, verdict, signs);
    }
  }

  lemma BothNext<T>(one: seq<T>, two: seq<T>, x: T, start: nat, verdict: nat -> int, signs: set<int>)
    requires Picked(one + two, start, verdict, signs)
          == Picked(one, start, verdict, signs) + Picked(two, start + |one|, verdict, signs)
    ensures Picked(one + (two + [x]), start, verdict, signs)
         == Picked(one, start, verdict, signs) + Picked(two + [x], start + |one|, verdict, signs)
  {
    hide *;
    PickedNext(one + two, x, start, verdict, signs);
    PickedNext(two, x, start + |one|, verdict, signs);
    Append(one, two, [x]);
    Append(Picked(one, start, verdict, signs), Picked(two, start + |one|, verdict, signs), Put(x, verdict(start + |one| + |two|), signs));
  }

  // Two sets of signs that have none in common pick what both pick.
  lemma {:induction false} PickedApart<T>(items: seq<T>, start: nat, verdict: nat -> int, a: set<int>, b: set<int>)
    requires a !! b
    ensures PickedBag(items, start, verdict, a + b) == PickedBag(items, start, verdict, a) + PickedBag(items, start, verdict, b)
  {
    if items != [] {
      var n := |items| - 1;
      PickedApart(items[..n], start, verdict, a, b);
      PutApart(Picked(items[..n], start, verdict, a + b), Picked(items[..n], start, verdict, a), Picked(items[..n], start, verdict, b),
               items[n], verdict(start + n), a, b);
    }
  }

  lemma PutApart<T>(both: seq<T>, one: seq<T>, two: seq<T>, x: T, retval: int, a: set<int>, b: set<int>)
    requires a !! b && multiset(both) == multiset(one) + multiset(two)
    ensures multiset(both + Put(x, retval, a + b)) == multiset(one + Put(x, retval, a)) + multiset(two + Put(x, retval, b))
  {
  }

  lemma {:induction false} PickedAll<T>(items: seq<T>, start: nat, verdict: nat -> int, signs: set<int>)
    requires forall k :: Sign(verdict(k)) in signs
    ensures Picked(items, start, verdict, signs) == items
  {
    if items != [] { PickedAll(items[..|items| - 1], start, verdict, signs); }
  }

  lemma {:induction false} PickedFew<T>(items: seq<T>, start: nat, verdict: nat -> int, signs: set<int>)
    ensures |Picked(items, start, verdict, signs)| <= |items|
    ensures signs == {} ==> Picked(items, start, verdict, signs) == []
  {
    if items != [] { PickedFew(items[..|items| - 1], start, verdict, signs); }
  }

  // What the action leaves in `ptr`, for each of `items`: call `k` may replace its subject.
  function Left<T>(items: seq<T>, start: nat, change: (nat, T) -> T): (r: seq<T>)
    ensures |r| == |items|
  {
    seq(|items|, (i: nat) requires i < |items| => change(start + i, items[i]))
  }

  lemma LeftNext<T>(items: seq<T>, x: T, start: nat, change: (nat, T) -> T)
    ensures Left(items + [x], start, change) == Left(items, start, change) + [change(start + |items|, x)]
  {
  }

  lemma LeftOfBoth<T>(first: seq<T>, second: seq<T>, change: (nat, T) -> T)
    ensures Left(first + second, 0, change) == Left(first, 0, change) + Left(second, |first|, change)
  {
  }

  // What is added to a queue while calls `start` to `start + n - 1` run.
  function Arrived<T>(arrive: nat -> seq<T>, start: nat, n: nat): seq<T> {
    if n == 0 then [] else Arrived(arrive, start, n - 1) + arrive(start + n - 1)
  }

  // The items that stay, in the order in which they come to the other half among what is added to it.
  function Mixed<T>(items: seq<T>, start: nat, verdict: nat -> int, stay: set<int>, extra: nat -> seq<T>): seq<T> {
    if items == [] then []
    else
      var n := |items| - 1;
      Mixed(items[..n], start, verdict, stay, extra) + extra(start + n) + Put(items[n], verdict(start + n), stay)
  }

  function Nothing<T>(k: nat): seq<T> {
    []
  }

  lemma {:induction false} MixedAlone<T>(items: seq<T>, start: nat, verdict: nat -> int, stay: set<int>)
    ensures Mixed(items, start, verdict, stay, Nothing) == Picked(items, start, verdict, stay)
  {
    if items != [] { MixedAlone(items[..|items| - 1], start, verdict, stay); }
  }

  lemma {:induction false} MixedBag<T>(items: seq<T>, start: nat, verdict: nat -> int, stay: set<int>, extra: nat -> seq<T>)
    ensures multiset(Mixed(items, start, verdict, stay, extra))
         == PickedBag(items, start, verdict, stay) + multiset(Arrived(extra, start, |items|))
  {
    if items != [] {
      var n := |items| - 1;
      MixedBag(items[..n], start, verdict, stay, extra);
      var mixed, picked, put := Mixed(items[..n], start, verdict, stay, extra), Picked(items[..n], start, verdict, stay),
                                Put(items[n], verdict(start + n), stay);
      assert Picked(items, start, verdict, stay) == picked + put;
      assert Arrived(extra, start, n + 1) == Arrived(extra, start, n) + extra(start + n);
      assert Mixed(items, start, verdict, stay, extra) == mixed + extra(start + n) + put;
      hide Mixed, Picked, Put, Arrived;
      Interleave(mixed, picked, Arrived(extra, start, n), extra(start + n), put);
    }
  }

  lemma Interleave<T>(mixed: seq<T>, picked: seq<T>, arrived: seq<T>, extra: seq<T>, put: seq<T>)
    requires multiset(mixed) == multiset(picked) + multiset(arrived)
    ensures multiset(mixed + extra + put) == multiset(picked + put) + multiset(arrived + extra)
  {
  }

  // ------------------------------------------------------------- a pass on values

  // The signs for which an item stays, goes to a target, or is freed. Two targets that are one queue
  // are listed twice.
  datatype Signs = Signs(stay: set<int>, dest: set<int>, err: set<int>, free: set<int>)

  // The other half, the two targets and what was freed.
  datatype Lanes<T> = Lanes(other: seq<T>, dest: seq<T>, err: seq<T>, freed: seq<T>)

  // One item is routed, after `extra` has come to the other half.
  function Delivered<T>(l: Lanes<T>, extra: seq<T>, x: T, retval: int, g: Signs): Lanes<T> {
    Lanes(l.other + extra + Put(x, retval, g.stay), l.dest + Put(x, retval, g.dest), l.err + Put(x, retval, g.err),
          l.freed + Put(x, retval, g.free))
  }

  function Passed<T>(l: Lanes<T>, left: seq<T>, start: nat, verdict: nat -> int, extra: nat -> seq<T>, g: Signs): Lanes<T>
    decreases |left|
  {
    if left == [] then l
    else
      var n := |left| - 1;
      Delivered(Passed(l, left[..n], start, verdict, extra, g), extra(start + n), left[n], verdict(start + n), g)
  }

  lemma PassedNext<T>(l: Lanes<T>, left: seq<T>, x: T, start: nat, verdict: nat -> int, extra: nat -> seq<T>, g: Signs)
    ensures var k := start + |left|;
            Passed(l, left + [x], start, verdict, extra, g) == Delivered(Passed(l, left, start, verdict, extra, g), extra(k), x, verdict(k), g)
  {
    assert (left + [x])[..|left|] == left;
  }

  // Each lane gets its share, in order.
  lemma {:induction false} PassedIs<T>(l: Lanes<T>, left: seq<T>, start: nat, verdict: nat -> int, extra: nat -> seq<T>, g: Signs)
    ensures Passed(l, left, start, verdict, extra, g)
         == Lanes(l.other + Mixed(left, start, verdict, g.stay, extra), l.dest + Picked(left, start, verdict, g.dest),
                  l.err + Picked(left, start, verdict, g.err), l.freed + Picked(left, start, verdict, g.free))
    decreases |left|
  {
    hide Put;
    if left == [] {
      assert l.other + [] == l.other && l.dest + [] == l.dest && l.err + [] == l.err && l.freed + [] == l.freed;
    } else {
      var n := |left| - 1;
      PassedIs(l, left[..n], start, verdict, extra, g);
      assert left == left[..n] + [left[n]];
      PassedNext(l, left[..n], left[n], start, verdict, extra, g);
      hide Picked, Mixed, Passed;
      LaneNext(l.dest, left, start, verdict, g.dest);
      LaneNext(l.err, left, start, verdict, g.err);
      LaneNext(l.freed, left, start, verdict, g.free);
      OtherNext(l.other, left, start, verdict, g.stay, extra);
    }
  }

  lemma LaneNext<T>(lane: seq<T>, items: seq<T>, start: nat, verdict: nat -> int, signs: set<int>)
    requires items != []
    ensures var n := |items| - 1;
            lane + Picked(items, start, verdict, signs)
            == lane + Picked(items[..n], start, verdict, signs) + Put(items[n], verdict(start + n), signs)
  {
  }

  lemma OtherNext<T>(lane: seq<T>, items: seq<T>, start: nat, verdict: nat -> int, stay: set<int>, extra: nat -> seq<T>)
    requires items != []
    ensures var n := |items| - 1;
            lane + Mixed(items, start, verdict, stay, extra)
            == lane + Mixed(items[..n], start, verdict, stay, extra) + extra(start + n) + Put(items[n], verdict(start + n), stay)
  {
    hide Put;
  }

  lemma Append<T>(a: seq<T>, b: seq<T>, c: seq<T>)
    ensures a + (b + c) == a + b + c
  {
  }

  class PingPongQueue<T> {
    const ping: Fifo<T>
    const pong: Fifo<T>
    const dest: Fifo?<T>
    const err: Fifo?<T>

    constructor (ping: Fifo<T>, pong: Fifo<T>, dest: Fifo?<T>, err: Fifo?<T>)
      ensures this.ping == ping && this.pong == pong && this.dest == dest && this.err == err
    {
      this.ping, this.pong, this.dest, this.err := ping, pong, dest, err;
    }

    // Lines 115-131. A target that is the first half keeps its items in the scheduler.
    function Routes(): Signs {
      Signs({0} + (if dest == ping then {1} else {}) + (if err == ping then {-1} else {}),
            if dest == null || dest == ping then {} else if dest == err then {-1, 1} else {1},
            if err == null || err == ping then {} else if dest == err then {-1, 1} else {-1},
            if dest == null then {1} else {})
    }

    ghost function Now(other: Fifo<T>, freed: seq<T>): Lanes<T>
      reads other, dest, err
    {
      Lanes(other.items, if dest == null || dest == ping then [] else dest.items,
            if err == null || err == ping then [] else err.items, freed)
    }

    // Everything the queues of this scheduler hold, each queue counted once.
    ghost function Held(): multiset<T>
      reads ping, pong, dest, err
    {
      var l := Now(ping, []);
      multiset(l.other) + multiset(pong.items) + multiset(l.dest) + if err == dest then multiset{} else multiset(l.err)
    }

    ghost predicate Wired() {
      ping != pong && dest != pong && err != pong
    }

    // `verdict(k)` is what the `k`-th call of the action returns, and `change(k, x)` what it leaves
    // in place of its subject `x`; `arrive(k)` is what it, or another thread, adds to the first half
    // meanwhile, which has an end. `acted` lists the subjects, those of the first iteration up to
    // `half`.
    method Process(verdict: nat -> int, change: (nat, T) -> T, arrive: nat -> seq<T>, ghost calm: nat)
      returns (acted: seq<T>, freed: seq<T>, half: nat)
      requires Wired() && forall k :: verdict(k) < 0 ==> err != null
      requires forall k: nat :: k >= calm ==> arrive(k) == []
      modifies ping, pong, dest, err
      ensures pong.items == [] && half <= |acted|
      ensures acted[..half] == old(ping.items) + Arrived(arrive, 0, half)
      ensures var stay := {0} + (if dest == ping then {1} else {}) + (if err == ping then {-1} else {});
              var left := Left(acted, 0, change);
              && acted[half..] == old(pong.items) + Picked(left[..half], 0, verdict, stay)
              && ping.items == Mixed(left[half..], half, verdict, stay, arrive)
              && freed == (if dest == null then Picked(left, 0, verdict, {1}) else [])
              && (dest != null && dest != ping && dest != err ==> dest.items == old(dest.items) + Picked(left, 0, verdict, {1}))
              && (err != null && err != ping && err != dest ==> err.items == old(err.items) + Picked(left, 0, verdict, {-1}))
              && (dest != null && dest != ping && dest == err ==> dest.items == old(dest.items) + Picked(left, 0, verdict, {-1, 1}))
    {
      hide Left, Passed, Picked, Mixed, Arrived;
      ghost var g, l0 := Routes(), Now(pong, []);
      acted, freed := HalfPass(ping, pong, verdict, change, arrive, Nothing, 0, calm);
      half := |acted|;
      ghost var one, l1 := Left(acted, 0, change), Now(pong, freed);
      PassedIs(l0, one, 0, verdict, Nothing, g);
      MixedAlone(one, 0, verdict, g.stay);
      var acted1, freed1 := HalfPass(pong, ping, verdict, change, Nothing, arrive, half, 0);
      NothingArrived<T>(half, |acted1|);
      ghost var two := Left(acted1, half, change);
      PassedIs(Lanes([], l1.dest, l1.err, []), two, half, verdict, arrive, g);
      LeftOfBoth(acted, acted1, change);
      Shares(one, two, verdict, g, l0);
      assert (acted + acted1)[..half] == acted && (acted + acted1)[half..] == acted1;
      assert (one + two)[..half] == one && (one + two)[half..] == two;
      acted, freed := acted + acted1, freed + freed1;
    }

    // One iteration of the loop at line 109: empties `from`. While call `k` runs, `more(k)` comes to
    // `from` and `extra(k)` to the other half.
    method HalfPass(from: Fifo<T>, other: Fifo<T>, verdict: nat -> int, change: (nat, T) -> T, more: nat -> seq<T>,
                    extra: nat -> seq<T>, start: nat, ghost calm: nat)
      returns (acted: seq<T>, freed: seq<T>)
      requires Wired() && (from, other) in {(ping, pong), (pong, ping)}
      requires forall k :: verdict(k) < 0 ==> err != null
      requires forall k: nat :: k >= calm ==> more(k) == []
      modifies ping, pong, dest, err
      ensures from.items == [] && acted == old(from.items) + Arrived(more, start, |acted|)
      ensures Now(other, freed) == Passed(old(Now(other, [])), Left(acted, start, change), start, verdict, extra, Routes())
    {
      hide Left, Passed, Delivered, Arrived, Routes, Now;
      ghost var g, l0, all := Routes(), Now(other, []), from.items;
      acted, freed := [], [];
      ghost var left: seq<T> := [];
      StartOfPass(l0, start, verdict, change, more, extra, g);
      var ptr := TakeOne(from, other, freed);
      while ptr.Some?
        invariant left == Left(acted, start, change)
        invariant acted + (Front(ptr) + from.items) == all + Arrived(more, start, |acted|)
        invariant ptr.None? ==> from.items == []
        invariant Now(other, freed) == Passed(l0, left, start, verdict, extra, g)
        decreases if start + |acted| < calm then calm - start - |acted| else 0, |Front(ptr) + from.items|
      {
        var k, x := start + |acted|, ptr.value;
        ReadAndAdded(acted, x, from.items, all, Arrived(more, start, |acted|), more(k));
        var y, gone;
        y, gone, ptr := OneCall(x, k, verdict, change, more, extra, from, other, freed);
        LeftNext(acted, x, start, change);
        PassedNext(l0, left, y, start, verdict, extra, g);
        ArrivedNext(more, start, |acted|);
        acted, freed, left := acted + [x], freed + gone, left + [y];
      }
    }

    // Lines 114-131, and the next dequeue.
    method OneCall(x: T, k: nat, verdict: nat -> int, change: (nat, T) -> T, more: nat -> seq<T>, extra: nat -> seq<T>,
                   from: Fifo<T>, other: Fifo<T>, ghost freed: seq<T>)
      returns (y: T, gone: seq<T>, ptr: Option<T>)
      requires Wired() && (from, other) in {(ping, pong), (pong, ping)}
      requires forall k :: verdict(k) < 0 ==> err != null
      modifies from, other, dest, err
      ensures y == change(k, x)
      ensures Front(ptr) + from.items == old(from.items) + more(k) && (ptr.None? ==> from.items == [])
      ensures Now(other, freed + gone) == Delivered(old(Now(other, freed)), extra(k), y, verdict(k), Routes())
    {
      hide Delivered, Routes;
      var retval := verdict(k);
      y := change(k, x);
      from.Add(more(k));
      assert Now(other, freed) == old(Now(other, freed));
      hide Now;
      gone := Dispatch(y, retval, from, other, extra(k), freed);
      ptr := TakeOne(from, other, freed + gone);
    }

    method TakeOne(from: Fifo<T>, other: Fifo<T>, ghost freed: seq<T>) returns (ptr: Option<T>)
      requires (from, other) in {(ping, pong), (pong, ping)} && Wired()
      modifies from
      ensures Front(ptr) + from.items == old(from.items) && (ptr.None? ==> from.items == [])
      ensures Now(other, freed) == old(Now(other, freed))
    {
      ptr := from.Dequeue();
    }

    // Lines 115-131. `gone` holds the item if it was freed.
    method Dispatch(x: T, retval: int, from: Fifo<T>, other: Fifo<T>, extra: seq<T>, ghost freed: seq<T>) returns (gone: seq<T>)
      requires Wired() && (from, other) in {(ping, pong), (pong, ping)} && (retval < 0 ==> err != null)
      modifies other, dest, err
      ensures from.items == old(from.items)
      ensures Now(other, freed + gone) == Delivered(old(Now(other, freed)), extra, x, retval, Routes())
    {
      gone := [];
      other.Add(extra);
      if retval == 0 {
        other.Enqueue(x);
      } else if retval < 0 {
        if err == ping {
          other.Enqueue(x);
        } else {
          err.Enqueue(x);
        }
      } else if dest != null {
        if dest == ping {
          other.Enqueue(x);
        } else {
          dest.Enqueue(x);
        }
      } else {
        gone := [x];
      }
    }
  }

  // What the targets get in both iterations.
  lemma Shares<T>(one: seq<T>, two: seq<T>, verdict: nat -> int, g: Signs, l: Lanes<T>)
    ensures l.dest + Picked(one, 0, verdict, g.dest) + Picked(two, |one|, verdict, g.dest)
         == l.dest + Picked(one + two, 0, verdict, g.dest)
    ensures l.err + Picked(one, 0, verdict, g.err) + Picked(two, |one|, verdict, g.err)
         == l.err + Picked(one + two, 0, verdict, g.err)
    ensures Picked(one, 0, verdict, g.free) + Picked(two, |one|, verdict, g.free) == Picked(one + two, 0, verdict, g.free)
    ensures g.free == {} ==> Picked(one + two, 0, verdict, g.free) == []
  {
    hide Picked;
    PickedBoth(one, two, 0, verdict, g.dest);
    PickedBoth(one, two, 0, verdict, g.err);
    PickedBoth(one, two, 0, verdict, g.free);
    Append(l.dest, Picked(one, 0, verdict, g.dest), Picked(two, |one|, verdict, g.dest));
    Append(l.err, Picked(one, 0, verdict, g.err), Picked(two, |one|, verdict, g.err));
    PickedFew(one + two, 0, verdict, g.free);
  }

  function Front<T>(ptr: Option<T>): seq<T> {
    match ptr case None => [] case Some(x) => [x]
  }

  lemma ReadAndAdded<T>(acted: seq<T>, x: T, rest: seq<T>, all: seq<T>, arrived: seq<T>, more: seq<T>)
    requires acted + ([x] + rest) == all + arrived
    ensures acted + [x] + (rest + more) == all + (arrived + more)
  {
    assert acted + [x] + (rest + more) == (acted + ([x] + rest)) + more == all + (arrived + more);
  }

  lemma StartOfPass<T>(l: Lanes<T>, start: nat, verdict: nat -> int, change: (nat, T) -> T, more: nat -> seq<T>,
                       extra: nat -> seq<T>, g: Signs)
    ensures Left([], start, change) == [] && Arrived(more, start, 0) == []
    ensures Passed(l, [], start, verdict, extra, g) == l
  {
  }

  lemma ArrivedNext<T>(more: nat -> seq<T>, start: nat, n: nat)
    ensures Arrived(more, start, n + 1) == Arrived(more, start, n) + more(start + n)
  {
  }

  lemma {:induction false} NothingArrived<T>(start: nat, n: nat)
    ensures Arrived<T>(Nothing, start, n) == []
  {
    if n > 0 { NothingArrived<T>(start, n - 1); }
  }

  lemma {:induction false} ArrivedSplits<T>(arrive: nat -> seq<T>, n: nat, m: nat)
    ensures Arrived(arrive, 0, n + m) == Arrived(arrive, 0, n) + Arrived(arrive, n, m)
    decreases m
  {
    if m == 0 {
      assert Arrived(arrive, 0, n) + [] == Arrived(arrive, 0, n);
    } else {
      ArrivedSplits(arrive, n, m - 1);
      Append(Arrived(arrive, 0, n), Arrived(arrive, n, m - 1), arrive(n + m - 1));
    }
  }

  // ---------------------------------------------------------------- conservation

  // Each item goes to exactly one place.
  lemma PickedSplits<T>(items: seq<T>, start: nat, verdict: nat -> int, stay: set<int>, a: set<int>, b: set<int>, free: set<int>)
    requires stay !! a && stay + a !! b && stay + a + b !! free && forall k :: Sign(verdict(k)) in stay + a + b + free
    ensures multiset(items) == PickedBag(items, start, verdict, stay) + PickedBag(items, start, verdict, a)
                               + PickedBag(items, start, verdict, b) + PickedBag(items, start, verdict, free)
  {
    PickedAll(items, start, verdict, stay + a + b + free);
    PickedApart(items, start, verdict, stay + a + b, free);
    PickedApart(items, start, verdict, stay + a, b);
    PickedApart(items, start, verdict, stay, a);
  }

  lemma BagOfParts<T>(whole: seq<T>, a: seq<T>, b: seq<T>)
    requires whole == a + b
    ensures multiset(whole) == multiset(a) + multiset(b)
  {
  }

  // The subjects, what is left of them, and the arrivals, in two parts.
  lemma BagsOfRun<T>(ping: seq<T>, acted: seq<T>, half: nat, change: (nat, T) -> T, arrive: nat -> seq<T>)
    requires half <= |acted| && acted[..half] == ping + Arrived(arrive, 0, half)
    ensures multiset(acted) == (multiset(ping) + multiset(Arrived(arrive, 0, half))) + multiset(acted[half..])
    ensures multiset(Arrived(arrive, 0, |acted|))
         == multiset(Arrived(arrive, 0, half)) + multiset(Arrived(arrive, half, |acted| - half))
    ensures var left := Left(acted, 0, change); left == left[..half] + left[half..]
  {
    hide Left, Arrived;
    assert acted == acted[..half] + acted[half..];
    ArrivedSplits(arrive, half, |acted| - half);
    BagOfParts(acted, acted[..half], acted[half..]);
    BagOfParts(acted[..half], ping, Arrived(arrive, 0, half));
    BagOfParts(Arrived(arrive, 0, |acted|), Arrived(arrive, 0, half), Arrived(arrive, half, |acted| - half));
  }

  // The bags of a pass add up: what the first half keeps, the other waiting items, the arrivals.
  lemma Tally<T>(ping: multiset<T>, waiting: multiset<T>, early: multiset<T>, late: multiset<T>, second: multiset<T>,
                 stayOne: multiset<T>, stayTwo: multiset<T>, stay: multiset<T>, a: multiset<T>, b: multiset<T>, free: multiset<T>,
                 left: multiset<T>, d0: multiset<T>, e0: multiset<T>)
    requires stay == stayOne + stayTwo && left == stay + a + b + free && second == waiting + stayOne
    ensures (stayTwo + late) + (d0 + a) + (e0 + b) + free + ((ping + early) + second)
         == ping + waiting + d0 + e0 + left + (early + late)
  {
    forall x: T | x in ping + waiting + early + late + second + stay + a + b + free + left + d0 + e0 + stayTwo
      ensures (stayTwo[x] + late[x]) + (d0[x] + a[x]) + (e0[x] + b[x]) + free[x] + ((ping[x] + early[x]) + second[x])
           == ping[x] + waiting[x] + d0[x] + e0[x] + left[x] + (early[x] + late[x])
    {
      assert stay[x] == stayOne[x] + stayTwo[x] && second[x] == waiting[x] + stayOne[x];
      assert left[x] == stay[x] + a[x] + b[x] + free[x];
    }
  }

  lemma PassesConserve<T>(ping: seq<T>, waiting: seq<T>, acted: seq<T>, half: nat, change: (nat, T) -> T, verdict: nat -> int,
                          arrive: nat -> seq<T>, stay: set<int>, a: set<int>, b: set<int>, free: set<int>,
                          d0: multiset<T>, e0: multiset<T>)
    requires stay !! a && stay + a !! b && stay + a + b !! free && forall k :: Sign(verdict(k)) in stay + a + b + free
    requires half <= |acted| && acted[..half] == ping + Arrived(arrive, 0, half)
    requires acted[half..] == waiting + Picked(Left(acted, 0, change)[..half], 0, verdict, stay)
    ensures var left := Left(acted, 0, change);
            multiset(Mixed(left[half..], half, verdict, stay, arrive)) + (d0 + PickedBag(left, 0, verdict, a))
            + (e0 + PickedBag(left, 0, verdict, b)) + PickedBag(left, 0, verdict, free) + multiset(acted)
            == multiset(ping) + multiset(waiting) + d0 + e0 + multiset(left) + multiset(Arrived(arrive, 0, |acted|))
  {
    var left := Left(acted, 0, change);
    BagsOfRun(ping, acted, half, change, arrive);
    hide Left, Picked, Mixed, Arrived, PickedBag;
    MixedBag(left[half..], half, verdict, stay, arrive);
    BagsOfLeft(left, half, waiting, acted[half..], verdict, stay, a, b, free);
    Tally(multiset(ping), multiset(waiting), multiset(Arrived(arrive, 0, half)), multiset(Arrived(arrive, half, |acted| - half)),
          multiset(acted[half..]), PickedBag(left[..half], 0, verdict, stay), PickedBag(left[half..], half, verdict, stay),
          PickedBag(left, 0, verdict, stay), PickedBag(left, 0, verdict, a), PickedBag(left, 0, verdict, b),
          PickedBag(left, 0, verdict, free), multiset(left), d0, e0);
  }

  // What the calls left, by where it goes.
  lemma BagsOfLeft<T>(left: seq<T>, half: nat, waiting: seq<T>, second: seq<T>, verdict: nat -> int,
                      stay: set<int>, a: set<int>, b: set<int>, free: set<int>)
    requires stay !! a && stay + a !! b && stay + a + b !! free && forall k :: Sign(verdict(k)) in stay + a + b + free
    requires half <= |left| && left == left[..half] + left[half..] && second == waiting + Picked(left[..half], 0, verdict, stay)
    ensures multiset(left) == PickedBag(left, 0, verdict, stay) + PickedBag(left, 0, verdict, a)
                              + PickedBag(left, 0, verdict, b) + PickedBag(left, 0, verdict, free)
    ensures PickedBag(left, 0, verdict, stay) == PickedBag(left[..half], 0, verdict, stay) + PickedBag(left[half..], half, verdict, stay)
    ensures multiset(second) == multiset(waiting) + PickedBag(left[..half], 0, verdict, stay)
  {
    PickedSplits(left, 0, verdict, stay, a, b, free);
    BagOfBoth(left[..half], left[half..], verdict, stay);
    BagOfParts(second, waiting, Picked(left[..half], 0, verdict, stay));
    hide Picked;
  }

  lemma BagOfBoth<T>(one: seq<T>, two: seq<T>, verdict: nat -> int, signs: set<int>)
    ensures PickedBag(one + two, 0, verdict, signs) == PickedBag(one, 0, verdict, signs) + PickedBag(two, |one|, verdict, signs)
  {
    PickedBoth(one, two, 0, verdict, signs);
    hide Picked;
  }

  // The pass ends with the second half empty, and loses and duplicates nothing: all that is held
  // and freed is what was held and what arrived, with the subject of each call replaced by what the
  // call left. The calls are about the waiting items, in order, with the arrivals, and then about
  // those of the first half that stayed.
  method Conserves<T(==)>(ppq: PingPongQueue<T>, verdict: nat -> int, change: (nat, T) -> T, arrive: nat -> seq<T>, ghost calm: nat)
    returns (acted: seq<T>, freed: seq<T>, half: nat)
    requires ppq.Wired() && forall k :: verdict(k) < 0 ==> ppq.err != null
    requires forall k: nat :: k >= calm ==> arrive(k) == []
    modifies ppq.ping, ppq.pong, ppq.dest, ppq.err
    ensures ppq.pong.items == []
    ensures ppq.Held() + multiset(freed) + multiset(acted)
         == old(ppq.Held()) + multiset(Left(acted, 0, change)) + multiset(Arrived(arrive, 0, |acted|))
    ensures (forall k: nat, x :: change(k, x) == x) ==>
              ppq.Held() + multiset(freed) == old(ppq.Held()) + multiset(Arrived(arrive, 0, |acted|))
    ensures half <= |acted| && acted[..half] == old(ppq.ping.items) + Arrived(arrive, 0, half)
    ensures old(ppq.pong.items) <= acted[half..] && |acted[half..]| <= half + |old(ppq.pong.items)|
  {
    hide Picked, Left, Mixed, Arrived;
    ghost var ping0, pong0, l0 := ppq.ping.items, ppq.pong.items, ppq.Now(ppq.ping, []);
    acted, freed, half := ppq.Process(verdict, change, arrive, calm);
    ghost var left, g := Left(acted, 0, change), ppq.Routes();
    PickedFew(left[..half], 0, verdict, g.stay);
    PickedFew(left, 0, verdict, {});
    RoutesApart(ppq, verdict);
    LanesConserve(ppq.err == ppq.dest, ping0, pong0, acted, half, change, verdict, arrive, g, l0, ppq.Now(ppq.ping, freed));
    if forall k: nat, x :: change(k, x) == x {
      LeftAlone(acted, change);
      Cancel(ppq.Held() + multiset(freed), old(ppq.Held()) + multiset(Arrived(arrive, 0, |acted|)), multiset(acted));
    }
  }

  // The same on the values of all queues; `same` says that both targets are one.
  lemma LanesConserve<T>(same: bool, ping: seq<T>, waiting: seq<T>, acted: seq<T>, half: nat, change: (nat, T) -> T,
                         verdict: nat -> int, arrive: nat -> seq<T>, g: Signs, l0: Lanes<T>, l1: Lanes<T>)
    requires var b := if same then {} else g.err;
             && g.stay !! g.dest && g.stay + g.dest !! b && g.stay + g.dest + b !! g.free
             && forall k :: Sign(verdict(k)) in g.stay + g.dest + b + g.free
    requires half <= |acted| && acted[..half] == ping + Arrived(arrive, 0, half)
    requires acted[half..] == waiting + Picked(Left(acted, 0, change)[..half], 0, verdict, g.stay)
    requires var left := Left(acted, 0, change);
             && l1.other == Mixed(left[half..], half, verdict, g.stay, arrive) && l1.freed == Picked(left, 0, verdict, g.free)
             && l1.dest == l0.dest + Picked(left, 0, verdict, g.dest)
             && (!same ==> l1.err == l0.err + Picked(left, 0, verdict, g.err))
    ensures (multiset(l1.other) + multiset{} + multiset(l1.dest) + if same then multiset{} else multiset(l1.err))
            + multiset(l1.freed) + multiset(acted)
         == (multiset(ping) + multiset(waiting) + multiset(l0.dest) + if same then multiset{} else multiset(l0.err))
            + multiset(Left(acted, 0, change)) + multiset(Arrived(arrive, 0, |acted|))
  {
    hide Picked, Left, Mixed, Arrived;
    var left := Left(acted, 0, change);
    var b := if same then {} else g.err;
    var e0: seq<T> := if same then [] else l0.err;
    PickedFew(left, 0, verdict, {});
    BagOfParts(l1.dest, l0.dest, Picked(left, 0, verdict, g.dest));
    BagOfParts(if same then [] else l1.err, e0, Picked(left, 0, verdict, b));
    PassesConserve(ping, waiting, acted, half, change, verdict, arrive, g.stay, g.dest, b, g.free, multiset(l0.dest), multiset(e0));
  }

  lemma RoutesApart<T>(ppq: PingPongQueue<T>, verdict: nat -> int)
    requires forall k :: verdict(k) < 0 ==> ppq.err != null
    ensures var g := ppq.Routes();
            var b := if ppq.err == ppq.dest then {} else g.err;
            && g.stay !! g.dest && g.stay + g.dest !! b && g.stay + g.dest + b !! g.free
            && forall k :: Sign(verdict(k)) in g.stay + g.dest + b + g.free
  {
  }

  lemma LeftAlone<T>(items: seq<T>, change: (nat, T) -> T)
    requires forall k: nat, x :: change(k, x) == x
    ensures Left(items, 0, change) == items
  {
  }

  lemma Cancel<T>(a: multiset<T>, b: multiset<T>, c: multiset<T>)
    requires a + c == b + c
    ensures a == b
  {
    assert a == (a + c) - c && b == (b + c) - c;
  }
}
