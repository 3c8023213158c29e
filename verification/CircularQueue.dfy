/** data_structures/circular_queue.h: a ring that overwrites its oldest element. */
module CircularQueue {

  /** The contents after a push: the oldest element is lost when the ring is full. */
  function Pushed<T>(contents: seq<T>, capacity: nat, x: T): seq<T>
    requires 0 < capacity && |contents| <= capacity
  {
    if |contents| == capacity then contents[1..] + [x] else contents + [x]
  }

  /** `x %= n` for an index that has moved at most once around. */
  lemma Wrap(x: nat, n: nat)
    requires x < 2 * n
    ensures x % n == if x < n then x else x - n
  {
  }

  /** The position `i` places after `front`, around a ring of `n`. */
  function At(front: nat, i: nat, n: nat): (at: nat)
    requires front < n && i <= n
    ensures at < n
  {
    if front + i < n then front + i else front + i - n
  }

  /** `size` elements of a ring from `front` on. */
  function Around<T>(s: seq<T>, front: nat, size: nat): (c: seq<T>)
    requires front < |s| && size <= |s|
  {
    seq(size, i requires 0 <= i < size => s[At(front, i, |s|)])
  }

  lemma AroundAfterPush<T>(s: seq<T>, front: nat, size: nat, x: T)
    requires front < |s| && size < |s|
    ensures Around(s[At(front, size, |s|) := x], front, size + 1) == Around(s, front, size) + [x]
  {
    var now := Around(s[At(front, size, |s|) := x], front, size + 1);
    assert forall i :: 0 <= i < size ==> now[i] == Around(s, front, size)[i];
  }

  lemma AroundAfterOverwrite<T>(s: seq<T>, front: nat, x: T)
    requires front < |s|
    ensures Around(s[front := x], At(front, 1, |s|), |s|) == Around(s, front, |s|)[1..] + [x]
  {
    var now, was := Around(s[front := x], At(front, 1, |s|), |s|), Around(s, front, |s|);
    forall i | 0 <= i < |s| - 1
      ensures now[i] == was[1..][i]
    {
      assert was[1..][i] == was[i + 1];
    }
  }

  lemma AroundAfterPop<T>(s: seq<T>, front: nat, size: nat)
    requires front < |s| && 0 < size <= |s|
    ensures Around(s, front, size) == [s[front]] + Around(s, At(front, 1, |s|), size - 1)
  {
  }

  class CircularQueue<T(0)> {
    const maxSize: nat
    var size: nat
    var front: nat
    var rear: nat
    const storage: array<T>

    ghost predicate Valid()
      reads this, storage
    {
      && 0 < maxSize == storage.Length
      && size <= maxSize && front < maxSize && rear == At(front, size, maxSize)
    }

    ghost function Contents(): (c: seq<T>)
      requires Valid()
      reads this, storage
      ensures |c| == size
    {
      Around(storage[..], front, size)
    }

    constructor (maxSize: nat)
      requires 0 < maxSize
      ensures Valid() && fresh(storage) && this.maxSize == maxSize && Contents() == []
    {
      this.maxSize := maxSize;
      size, front, rear := 0, 0, 0;
      storage := new T[maxSize];
    }

    method Empty() returns (b: bool)
      requires Valid()
      ensures b <==> Contents() == []
    {
      b := size == 0;
    }

    method Push(elem: T)
      requires Valid()
      modifies this, storage
      ensures Valid()
      ensures Contents() == Pushed(old(Contents()), maxSize, elem)
    {
      if size < maxSize {
        AroundAfterPush(storage[..], front, size, elem);
      } else {
        AroundAfterOverwrite(storage[..], front, elem);
      }
      Wrap(rear + 1, maxSize);
      Wrap(front + 1, maxSize);
      storage[rear] := elem;
      rear := (rear + 1) % maxSize;
      if size == maxSize {
        front := (front + 1) % maxSize;
      } else {
        size := size + 1;
      }
    }

    method Peek() returns (elem: T, ok: bool)
      requires Valid()
      ensures ok <==> Contents() != []
      ensures ok ==> elem == Contents()[0]
    {
      ok := size != 0;
      elem := storage[front];
    }

    method Pop() returns (elem: T, ok: bool)
      requires Valid()
      modifies this`size, this`front
      ensures Valid()
      ensures ok <==> old(Contents()) != []
      ensures ok ==> [elem] + Contents() == old(Contents())
      ensures !ok ==> Contents() == []
    {
      ok := size != 0;
      elem := storage[front];
      if ok {
        AroundAfterPop(storage[..], front, size);
        Wrap(front + 1, maxSize);
        front := (front + 1) % maxSize;
        size := size - 1;
      }
    }
  }

  // ----- Whole runs

  datatype Op<T> = Push(x: T) | Pop

  /** What a run has done: the ring's contents, everything popped and everything pushed. */
  datatype Run<T> = Run(contents: seq<T>, popped: seq<T>, pushed: seq<T>)

  function Step<T>(r: Run<T>, capacity: nat, op: Op<T>): (r': Run<T>)
    requires 0 < capacity && |r.contents| <= capacity
    ensures |r'.contents| <= capacity
  {
    match op
    case Push(x) => Run(Pushed(r.contents, capacity, x), r.popped, r.pushed + [x])
    case Pop =>
      if r.contents == [] then r
      else Run(r.contents[1..], r.popped + [r.contents[0]], r.pushed)
  }

  function Play<T>(ops: seq<Op<T>>, capacity: nat): (r: Run<T>)
    requires 0 < capacity
    ensures |r.contents| <= capacity
  {
    if ops == [] then Run([], [], []) else Step(Play(ops[..|ops| - 1], capacity), capacity, ops[|ops| - 1])
  }

  /** `sub` read off `all` at strictly increasing positions. */
  ghost predicate PicksOut<T>(sub: seq<T>, all: seq<T>, at: seq<nat>) {
    && |at| == |sub|
    && (forall i :: 0 <= i < |at| ==> at[i] < |all| && all[at[i]] == sub[i])
    && (forall i, j :: 0 <= i < j < |at| ==> at[i] < at[j])
  }

  /** How many elements a run overwrote. */
  function Lost<T>(ops: seq<Op<T>>, capacity: nat): nat
    requires 0 < capacity
  {
    if ops == [] then 0
    else
      var before := ops[..|ops| - 1];
      Lost(before, capacity)
      + if ops[|ops| - 1].Push? && |Play(before, capacity).contents| == capacity then 1 else 0
  }

  /** Over any interleaving of pushes and pops, the contents are the last pushes in
      order, the popped elements are an in-order subsequence of the pushes that
      precede those, and every push is popped, still held, or counted as lost. */
  lemma {:induction false} RunLaw<T>(ops: seq<Op<T>>, capacity: nat) returns (at: seq<nat>)
    requires 0 < capacity
    ensures var r := Play(ops, capacity);
            && HoldsLast(r)
            && PicksOut(r.popped, r.pushed[..|r.pushed| - |r.contents|], at)
            && |r.pushed| == |r.popped| + |r.contents| + Lost(ops, capacity)
  {
    if ops == [] {
      at := [];
    } else {
      var before, op := ops[..|ops| - 1], ops[|ops| - 1];
      at := RunLaw(before, capacity);
      at := StepLaw(Play(before, capacity), capacity, op, at);
    }
  }

  ghost predicate HoldsLast<T>(r: Run<T>) {
    && |r.contents| <= |r.pushed|
    && r.contents == r.pushed[|r.pushed| - |r.contents|..]
  }

  lemma StepHoldsLast<T>(r: Run<T>, capacity: nat, op: Op<T>)
    requires 0 < capacity && |r.contents| <= capacity && HoldsLast(r)
    ensures HoldsLast(Step(r, capacity, op))
  {
    var r' := Step(r, capacity, op);
    var first := |r.pushed| - |r.contents|;
    match op {
      case Push(x) =>
        if |r.contents| == capacity { assert r.pushed[first..][1..] == r.pushed[first + 1..]; }
      case Pop =>
        if r.contents != [] { assert r'.contents == r.pushed[first + 1..]; }
    }
  }

  lemma StepLaw<T>(r: Run<T>, capacity: nat, op: Op<T>, at: seq<nat>) returns (at': seq<nat>)
    requires 0 < capacity && |r.contents| <= capacity && HoldsLast(r)
    requires PicksOut(r.popped, r.pushed[..|r.pushed| - |r.contents|], at)
    ensures var r' := Step(r, capacity, op);
            HoldsLast(r') && PicksOut(r'.popped, r'.pushed[..|r'.pushed| - |r'.contents|], at')
  {
    StepHoldsLast(r, capacity, op);
    var r' := Step(r, capacity, op);
    var held := |r.pushed| - |r.contents|;
    var gone, gone' := r.pushed[..held], r'.pushed[..|r'.pushed| - |r'.contents|];
    if op.Pop? && r.contents != [] {
      at' := at + [held];
      assert gone' == gone + [r.contents[0]];
      PicksOutNext(r.popped, gone, r.contents[0], at);
    } else {
      at' := at;
      assert gone <= gone';
      PicksOutLonger(r.popped, gone, gone', at);
    }
  }

  lemma PicksOutNext<T>(part: seq<T>, whole: seq<T>, x: T, at: seq<nat>)
    requires PicksOut(part, whole, at)
    ensures PicksOut(part + [x], whole + [x], at + [|whole|])
  {
  }

  lemma PicksOutLonger<T>(part: seq<T>, whole: seq<T>, longer: seq<T>, at: seq<nat>)
    requires PicksOut(part, whole, at) && whole <= longer
    ensures PicksOut(part, longer, at)
  {
  }
}
