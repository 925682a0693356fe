/** The ring buffer under the log queue. One slot more than the capacity tells full from empty. */
module CircularQ {
  /** A bounded queue that drops its oldest element to make room. */
  function Pushed<T>(held: seq<T>, capacity: nat, item: T): seq<T> {
    if |held| < capacity then held + [item] else (held + [item])[1..]
  }

  function Tail<T>(s: seq<T>, n: nat): seq<T> {
    if n <= |s| then s[|s| - n..] else s
  }

  function PushAll<T>(held: seq<T>, capacity: nat, items: seq<T>): seq<T>
    decreases |items|
  {
    if items == [] then held else PushAll(Pushed(held, capacity, items[0]), capacity, items[1..])
  }

  /** Whatever is pushed, the queue holds the newest elements, in order, up to its capacity. */
  lemma {:induction false} PushKeepsNewest<T>(held: seq<T>, capacity: nat, items: seq<T>)
    requires |held| <= capacity
    ensures PushAll(held, capacity, items) == Tail(held + items, capacity)
    decreases |items|
  {
    hide Pushed, Tail;
    if items == [] {
      assert held + items == held;
      TailOfShort(held, capacity);
    } else {
      PushedIsTail(held, capacity, items[0]);
      PushKeepsNewest(Pushed(held, capacity, items[0]), capacity, items[1..]);
      TailOfTail(held + [items[0]], items[1..], capacity);
      assert held + items == held + [items[0]] + items[1..];
    }
  }

  lemma TailOfShort<T>(held: seq<T>, n: nat)
    requires |held| <= n
    ensures Tail(held, n) == held
  {
  }

  lemma PushedIsTail<T>(held: seq<T>, capacity: nat, item: T)
    requires |held| <= capacity
    ensures Pushed(held, capacity, item) == Tail(held + [item], capacity)
    ensures |Pushed(held, capacity, item)| <= capacity
  {
  }

  lemma TailOfTail<T>(a: seq<T>, b: seq<T>, n: nat)
    ensures Tail(Tail(a, n) + b, n) == Tail(a + b, n)
  {
    if n <= |a| {
      assert a == a[..|a| - n] + a[|a| - n..];
      assert a + b == a[..|a| - n] + (a[|a| - n..] + b);
    }
  }

  /** The elements from `head` up to `tail`, around the end of the vector. */
  ghost function Ring<T>(v: seq<T>, head: nat, tail: nat): seq<T>
    requires head < |v| && tail < |v|
  {
    if head <= tail then v[head..tail] else v[head..] + v[..tail]
  }

  function Next(i: nat, n: nat): (r: nat)
    requires i < n
    ensures r == if i + 1 == n then 0 else i + 1
  {
    (i + 1) % n
  }

  lemma NextIs(i: nat, n: nat)
    requires i < n
    ensures (i + 1) % n == Next(i, n)
  {
  }

  lemma PushRing<T>(v: seq<T>, head: nat, tail: nat, item: T)
    requires head < |v| && tail < |v|
    ensures var v', tail' := v[tail := item], Next(tail, |v|);
            if tail' == head
            then |Ring(v, head, tail)| == |v| - 1 && Ring(v', Next(head, |v|), tail') == (Ring(v, head, tail) + [item])[1..]
            else |Ring(v, head, tail)| < |v| - 1 && Ring(v', head, tail') == Ring(v, head, tail) + [item]
  {
    hide Next;
    var v', tail' := v[tail := item], Next(tail, |v|);
    if head > tail {
      assert v'[head..] == v[head..] && v'[..tail + 1] == v[..tail] + [item];
      assert v[head..] + (v[..tail] + [item]) == v[head..] + v[..tail] + [item];
      if tail' == head && head + 1 < |v| { assert v'[head + 1..] == v[head..][1..]; }
    } else {
      assert v'[head..tail + 1] == v[head..tail] + [item];
    }
  }

  lemma PopRing<T>(v: seq<T>, head: nat, tail: nat)
    requires head < |v| && tail < |v| && Ring(v, head, tail) != []
    ensures Ring(v, head, tail) == [v[head]] + Ring(v, Next(head, |v|), tail)
  {
    hide Next;
  }

  lemma RingSize<T>(v: seq<T>, head: nat, tail: nat)
    requires head < |v| && tail < |v|
    ensures |Ring(v, head, tail)| < |v|
    ensures Ring(v, head, tail) == [] <==> tail == head
    ensures |Ring(v, head, tail)| == |v| - 1 <==> Next(tail, |v|) == head
  {
    hide Next;
  }

  /** What is held stays the end of what was pushed. */
  lemma PushedIsSuffix<T>(pushed: seq<T>, gone: nat, held: seq<T>, capacity: nat, item: T)
    requires |pushed| == gone + |held| && held == pushed[gone..] && |held| <= capacity
    ensures var gone' := if |held| < capacity then gone else gone + 1;
            && Pushed(held, capacity, item) == (pushed + [item])[gone'..]
            && Pushed(held, capacity, item) == (if |held| < capacity then held + [item] else (held + [item])[1..])
  {
  }

  class CircularQueue<T(0)> {
    var maxItems: nat
    var head: nat
    var tail: nat
    var v: array<T>
    var overrun: nat

    /** Everything ever pushed, and how much of it was popped. */
    ghost var pushed: seq<T>
    ghost var popped: nat

    ghost predicate Shape()
      reads this
    {
      v.Length == maxItems && head < maxItems && tail < maxItems
    }

    ghost function Contents(): seq<T>
      requires Shape()
      reads this, v
    {
      Ring(v[..], head, tail)
    }

    ghost function Capacity(): nat
      requires Shape()
      reads this
    {
      maxItems - 1
    }

    /** What was pushed is what was popped or overrun, and then what is held, in order. */
    ghost predicate Valid()
      reads this, v
    {
      && Shape()
      && |pushed| == popped + overrun + |Contents()|
      && Contents() == pushed[popped + overrun..]
    }

    constructor (capacity: nat)
      ensures Valid() && fresh(v)
      ensures Contents() == [] && Capacity() == capacity && overrun == 0 && pushed == []
    {
      maxItems := capacity + 1;
      head, tail, overrun := 0, 0, 0;
      v := new T[capacity + 1];
      pushed, popped := [], 0;
    }

    method PushBack(item: T)
      requires Valid()
      modifies this, v
      ensures Valid() && v == old(v) && Capacity() == old(Capacity())
      ensures Contents() == Pushed(old(Contents()), Capacity(), item)
      ensures overrun == old(overrun) + if |old(Contents())| < Capacity() then 0 else 1
      ensures pushed == old(pushed) + [item] && popped == old(popped)
    {
      hide Ring, Next, Pushed;
      NextIs(tail, maxItems);
      NextIs(head, maxItems);
      PushRing(v[..], head, tail, item);
      PushedIsSuffix(pushed, popped + overrun, Contents(), Capacity(), item);
      ghost var before := v[..];
      v[tail] := item;
      assert v[..] == before[tail := item];
      tail := (tail + 1) % maxItems;
      pushed := pushed + [item];
      if tail == head {
        head := (head + 1) % maxItems;
        overrun := overrun + 1;
      }
    }

    method PopFront() returns (item: T)
      requires Valid() && Contents() != []
      modifies this
      ensures Valid() && v == old(v) && Capacity() == old(Capacity())
      ensures [item] + Contents() == old(Contents())
      ensures overrun == old(overrun) && pushed == old(pushed) && popped == old(popped) + 1
    {
      PopRing(v[..], head, tail);
      item := v[head];
      head := (head + 1) % maxItems;
      popped := popped + 1;
    }

    method Empty() returns (empty: bool)
      requires Valid()
      ensures empty <==> Contents() == []
    {
      empty := tail == head;
      RingSize(v[..], head, tail);
    }

    /** True exactly when the next push would overrun. */
    method Full() returns (full: bool)
      requires Valid()
      ensures full <==> |Contents()| == Capacity()
    {
      full := (tail + 1) % maxItems == head;
      RingSize(v[..], head, tail);
    }

    method OverrunCounter() returns (count: nat)
      requires Valid()
      ensures count == |pushed| - popped - |Contents()|
    {
      count := overrun;
    }
  }
}
