/** The two fixed-size containers under the pixel pipeline: a ring buffer and a bounded vector. */
module Containers {
  import opened Common

  function Wrap(x: nat, size: nat): (p: nat)
    requires x < 2 * size
    ensures p < size
  {
    if x < size then x else x - size
  }

  lemma WrapAgain(x: nat, k: nat, size: nat)
    requires size > 0 && x + k < 2 * size
    ensures Wrap(x, size) + k < 2 * size && Wrap(Wrap(x, size) + k, size) == Wrap(x + k, size)
  {
  }

  /** Positions below twice the size wrap around at most once. */
  lemma WrapsOnce(x: nat, size: nat)
    requires size > 0 && x < 2 * size
    ensures x % size == Wrap(x, size)
  {
    if x >= size {
      Quotient(x, size, 1, x - size);
    }
  }

  /** The `n` elements of a ring from position `head` on. */
  ghost function Ring<T>(storage: seq<T>, head: nat, n: nat): seq<T>
    requires head < |storage| && n <= |storage|
  {
    if head + n <= |storage| then storage[head..head + n]
    else storage[head..] + storage[..head + n - |storage|]
  }

  /** How far behind `at` position `p` lies, going around. */
  ghost function Offset(at: nat, p: nat, size: nat): int {
    if p >= at then p - at else p - at + size
  }

  /** The `i`-th element from position `head` on. */
  ghost function Element<T>(storage: seq<T>, head: nat, i: nat): T
    requires head < |storage| && i < |storage|
  {
    storage[Wrap(head + i, |storage|)]
  }

  lemma RingElements<T>(storage: seq<T>, head: nat, n: nat)
    requires head < |storage| && n <= |storage|
    ensures |Ring(storage, head, n)| == n
    ensures forall i :: 0 <= i < n ==> Ring(storage, head, n)[i] == Element(storage, head, i)
  {
  }

  /** Writing behind the last element, around the end if need be, appends. */
  lemma RingAppends<T>(before: seq<T>, after: seq<T>, head: nat, n: nat, range: seq<T>)
    requires |before| == |after| && head < |before| && n + |range| <= |before|
    requires forall i :: 0 <= i < n ==> Element(after, head, i) == Element(before, head, i)
    requires forall k :: 0 <= k < |range| ==> Element(after, head, n + k) == range[k]
    ensures Ring(after, head, n + |range|) == Ring(before, head, n) + range
  {
    RingElements(before, head, n);
    RingElements(after, head, n + |range|);
    hide Ring, Element;
    var whole := Ring(after, head, n + |range|);
    forall i | 0 <= i < |whole| ensures whole[i] == (Ring(before, head, n) + range)[i] {
      if i >= n {
        var k := i - n;
        assert Element(after, head, n + k) == range[k];
      }
    }
  }

  lemma RingCopied<T>(before: seq<T>, after: seq<T>, head: nat, n: nat, range: seq<T>)
    requires |before| == |after| && head < |before| && n + |range| <= |before|
    requires forall k :: 0 <= k < |range| ==> after[Wrap(Wrap(head + n, |before|) + k, |before|)] == range[k]
    requires forall p :: 0 <= p < |before| && Offset(Wrap(head + n, |before|), p, |before|) >= |range| ==>
      after[p] == before[p]
    ensures Ring(after, head, n + |range|) == Ring(before, head, n) + range
  {
    hide Ring;
    forall i | 0 <= i < n ensures Element(after, head, i) == Element(before, head, i) {
      assert after[Wrap(head + i, |before|)] == before[Wrap(head + i, |before|)];
    }
    forall k | 0 <= k < |range| ensures Element(after, head, n + k) == range[k] {
      assert Wrap(Wrap(head + n, |before|) + k, |before|) == Wrap(head + (n + k), |before|);
    }
    RingAppends(before, after, head, n, range);
  }

  lemma RingDropsFirst<T>(storage: seq<T>, head: nat, n: nat)
    requires head < |storage| && 0 < n <= |storage|
    ensures Ring(storage, head, n)[1..] == Ring(storage, Wrap(head + 1, |storage|), n - 1)
    ensures Ring(storage, head, n)[0] == storage[head]
  {
    var next := Wrap(head + 1, |storage|);
    RingElements(storage, head, n);
    RingElements(storage, next, n - 1);
    assert Element(storage, head, 0) == storage[head];
    forall i | 0 <= i < n - 1 ensures Element(storage, head, i + 1) == Element(storage, next, i) {
    }
    hide Ring, Element;
  }

  class FixedSizeQueue<T(0)> {
    const size: nat
    const storage: array<T>
    var head: nat
    var tail: nat
    var numElements: nat

    ghost predicate Valid()
      reads this
    {
      && storage.Length == size > 0
      && head < size && tail < size && numElements <= size
      && tail == Wrap(head + numElements, size)
    }

    /** The elements, oldest first. */
    ghost function Contents(): seq<T>
      requires Valid()
      reads this, storage
    {
      Ring(storage[..], head, numElements)
    }

    constructor (size: nat)
      requires size > 0
      ensures Valid() && Contents() == [] && this.size == size && fresh(storage)
    {
      this.size := size;
      storage := new T[size];
      head, tail, numElements := 0, 0, 0;
    }

    method Count() returns (n: nat)
      requires Valid()
      ensures n == |Contents()|
    {
      n := numElements;
    }

    method TryPush(element: T) returns (pushed: bool)
      requires Valid()
      modifies this, storage
      ensures Valid()
      ensures pushed == (|old(Contents())| < size)
      ensures Contents() == if pushed then old(Contents()) + [element] else old(Contents())
    {
      if numElements == size { return false; }
      ghost var before := storage[..];
      WrapsOnce(tail + 1, size);
      storage[tail] := element;
      hide Ring;
      RingAppends(before, storage[..], head, numElements, [element]);
      tail := (tail + 1) % size;
      numElements := numElements + 1;
      pushed := true;
    }

    /** All of the range or nothing; the copy is cut in two where the storage ends. */
    method TryPushRange(range: seq<T>) returns (pushed: bool)
      requires Valid()
      modifies this, storage
      ensures Valid()
      ensures pushed == (|old(Contents())| + |range| <= size)
      ensures Contents() == if pushed then old(Contents()) + range else old(Contents())
    {
      var count := |range|;
      if numElements + count > size { return false; }
      hide Ring, Offset, Wrap;
      WrapAgain(head + numElements, count, size);
      ghost var before := storage[..];
      CopyAround(range, tail);
      RingCopied(before, storage[..], head, numElements, range);
      WrapsOnce(tail + count, size);
      tail := (tail + count) % size;
      numElements := numElements + count;
      pushed := true;
    }

    method CopyAround(source: seq<T>, at: nat)
      requires storage.Length == size > 0 && at < size && |source| <= size
      modifies storage
      ensures forall k :: 0 <= k < |source| ==> storage[Wrap(at + k, size)] == source[k]
      ensures forall p :: 0 <= p < size && Offset(at, p, size) >= |source| ==> storage[p] == old(storage[p])
    {
      var spaceAtEnd := size - at;
      if |source| <= spaceAtEnd {
        CopyInto(source, at);
      } else {
        CopyInto(source[..spaceAtEnd], at);
        CopyInto(source[spaceAtEnd..], 0);
        forall k | 0 <= k < |source| ensures storage[Wrap(at + k, size)] == source[k] {
          assert k >= spaceAtEnd ==> source[k] == source[spaceAtEnd..][k - spaceAtEnd];
        }
      }
    }

    method CopyInto(source: seq<T>, at: nat)
      requires at + |source| <= storage.Length
      modifies storage
      ensures forall i :: 0 <= i < |source| ==> storage[at + i] == source[i]
      ensures forall p :: 0 <= p < storage.Length && !(at <= p < at + |source|) ==> storage[p] == old(storage[p])
    {
      var i := 0;
      while i < |source|
        invariant 0 <= i <= |source|
        invariant forall k :: 0 <= k < i ==> storage[at + k] == source[k]
        invariant forall p :: 0 <= p < storage.Length && !(at <= p < at + i) ==> storage[p] == old(storage[p])
      {
        storage[at + i] := source[i];
        i := i + 1;
      }
    }

    method TryPop() returns (element: Option<T>)
      requires Valid()
      modifies this
      ensures Valid()
      ensures var before := old(Contents());
        && element == (if before == [] then None else Some(before[0]))
        && Contents() == if before == [] then [] else before[1..]
    {
      if numElements == 0 { return None; }
      hide Ring;
      WrapsOnce(head + 1, size);
      RingDropsFirst(storage[..], head, numElements);
      element := Some(storage[head]);
      head := (head + 1) % size;
      numElements := numElements - 1;
    }

    method Clear()
      requires Valid()
      modifies this
      ensures Valid() && Contents() == []
    {
      numElements, head, tail := 0, 0, 0;
    }
  }

  class FixedCapacityVector<T(0)> {
    const capacity: nat
    const elements: array<T>
    var numElements: nat

    ghost predicate Valid()
      reads this
    {
      elements.Length == capacity && numElements <= capacity
    }

    ghost function Contents(): seq<T>
      requires Valid()
      reads this, elements
    {
      elements[..numElements]
    }

    constructor (capacity: nat)
      ensures Valid() && Contents() == [] && this.capacity == capacity && fresh(elements)
    {
      this.capacity := capacity;
      elements := new T[capacity];
      numElements := 0;
    }

    method IsFull() returns (full: bool)
      requires Valid()
      ensures full == (|Contents()| == capacity)
    {
      full := numElements == capacity;
    }

    /** Callers check for room first, as the scan does. */
    method PushBack(element: T)
      requires Valid() && |Contents()| < capacity
      modifies this, elements
      ensures Valid() && Contents() == old(Contents()) + [element]
    {
      elements[numElements] := element;
      numElements := numElements + 1;
    }

    /** Everything behind the erased element moves down by one. */
    method Erase(at: nat)
      requires Valid() && at < |Contents()|
      modifies this, elements
      ensures Valid() && Contents() == old(Contents())[..at] + old(Contents())[at + 1..]
    {
      ghost var before := elements[..];
      var i := at + 1;
      while i < numElements
        invariant at + 1 <= i <= numElements <= elements.Length && numElements == old(numElements)
        invariant forall k :: at <= k < i - 1 ==> elements[k] == before[k + 1]
        invariant forall k :: 0 <= k < at ==> elements[k] == before[k]
        invariant forall k :: i <= k < elements.Length ==> elements[k] == before[k]
      {
        elements[i - 1] := elements[i];
        i := i + 1;
      }
      numElements := numElements - 1;
      assert Contents() == before[..at] + before[at + 1..numElements + 1];
    }

    method Clear()
      requires Valid()
      modifies this
      ensures Valid() && Contents() == []
    {
      numElements := 0;
    }
  }
}
