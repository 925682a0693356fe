/** What an implicit producer's blocks and index hold, as predicates on sequences of blocks, with
    the steps that keep them; and what an enqueue costs in allocations. */
module ProducerBlocks {
  import opened BlockQueue
  import opened BlockIndexes
  import opened Modular

  // ---------------------------------------------------------------- what an operation costs

  function Pow2(n: nat): nat {
    if n == 0 then 1 else 2 * Pow2(n - 1)
  }

  /** The fewest doublings that make room for `entries`. */
  function Growths(capacity: nat, entries: nat): (g: nat)
    requires capacity > 0
    ensures entries <= Pow2(g) * capacity
    ensures g > 0 ==> Pow2(g - 1) * capacity < entries
    decreases if entries <= capacity then 0 else entries - capacity
  {
    if entries <= capacity then 0
    else
      var g := Growths(2 * capacity, entries);
      assert g > 0 ==> Pow2(g) * capacity == Pow2(g - 1) * (2 * capacity);
      1 + g
  }

  /** There is memory for `need` more blocks and for the index growth they cause. */
  ghost predicate Affordable(memory: nat, capacity: nat, spare: nat, live: nat, need: nat) {
    need == 0 || (capacity > 0 && (if need > spare then need - spare else 0) + Growths(capacity, live + need) <= memory)
  }

  /** One block more, whether index growth and block are there to be had or must be allocated. */
  lemma AffordStep(memory: nat, capacity: nat, spare: nat, live: nat, need: nat)
    requires need > 0 && live <= capacity
    ensures var growth := if live < capacity then 0 else 1;
            var block := if spare > 0 then 0 else 1;
            Affordable(memory, capacity, spare, live, need) <==>
              && capacity > 0 && growth + block <= memory
              && Affordable(memory - growth - block, if growth == 0 then capacity else 2 * capacity,
                            if spare > 0 then spare - 1 else 0, live + 1, need - 1)
  {
  }

  /** There is memory for `need` blocks when they are added one at a time. */
  ghost predicate OneByOne(memory: nat, capacity: nat, spare: nat, live: nat, need: nat)
    requires live <= capacity
    decreases need
  {
    need == 0 ||
    (var growth, block := if live < capacity then 0 else 1, if spare > 0 then 0 else 1;
     && capacity > 0 && growth + block <= memory
     && OneByOne(memory - growth - block, if growth == 0 then capacity else 2 * capacity,
                 if spare > 0 then spare - 1 else 0, live + 1, need - 1))
  }

  /** A bulk operation succeeds exactly if adding its elements one by one would have. */
  lemma {:induction false} BulkIsOneByOne(memory: nat, capacity: nat, spare: nat, live: nat, need: nat)
    requires live <= capacity
    ensures Affordable(memory, capacity, spare, live, need) <==> OneByOne(memory, capacity, spare, live, need)
    decreases need
  {
    if need > 0 {
      AffordStep(memory, capacity, spare, live, need);
      var growth, block := if live < capacity then 0 else 1, if spare > 0 then 0 else 1;
      if capacity > 0 && growth + block <= memory {
        BulkIsOneByOne(memory - growth - block, if growth == 0 then capacity else 2 * capacity,
                       if spare > 0 then spare - 1 else 0, live + 1, need - 1);
      }
    }
  }

  // ---------------------------------------------------------------- blocks and their contents

  /** Different blocks, each with its own storage. */
  ghost predicate Apart<T>(blocks: seq<Block<T>>) {
    && (forall i :: 0 <= i < |blocks| ==> blocks[i].elements.Length == BLOCK_SIZE)
    && forall i, j :: 0 <= i < |blocks| && 0 <= j < |blocks| && i != j ==>
         blocks[i] != blocks[j] && blocks[i].elements != blocks[j].elements
  }

  lemma ApartMove<T>(a: seq<Block<T>>, x: Block<T>, b: seq<Block<T>>, c: seq<Block<T>>)
    requires Apart(a + [x] + b + c)
    ensures Apart(a + b + [x] + c)
  {
    var p, q := a + [x] + b + c, a + b + [x] + c;
    var m, n := |a|, |b|;
    forall i | 0 <= i < |q|
      ensures q[i] == p[if i < m || i > m + n then i else if i < m + n then i + 1 else m]
    {
    }
  }

  ghost predicate Raw<T>(b: Block<T>)
    reads b.elements
  {
    forall j :: 0 <= j < b.elements.Length ==> b.elements[j] == None
  }

  /** What a slot holds that stands for index `i` when lo..hi hold the data. */
  ghost function Cell<T>(i: int, lo: nat, hi: nat, data: seq<T>): Option<T>
    requires lo + |data| == hi
  {
    if lo <= i < hi then Some(data[i - lo]) else None
  }

  /** The blocks hold exactly the data, at the slots of indices lo..hi, and nothing else. */
  ghost predicate Stored<T>(blocks: seq<Block<T>>, first: nat, lo: nat, hi: nat, data: seq<T>)
    reads set b | b in blocks :: b.elements
  {
    && lo + |data| == hi
    && forall k, j :: 0 <= k < |blocks| && 0 <= j < BLOCK_SIZE && blocks[k].elements.Length == BLOCK_SIZE ==>
         blocks[k].elements[j] == Cell((first + k) * BLOCK_SIZE + j, lo, hi, data)
  }

  /** Every block has counted what was taken out of it below index `to`. */
  ghost predicate Counted<T>(blocks: seq<Block<T>>, first: nat, to: nat)
    reads blocks`elementsCompletelyDequeued
  {
    forall k :: 0 <= k < |blocks| ==>
      blocks[k].elementsCompletelyDequeued ==
        (if to > (first + k) * BLOCK_SIZE then to - (first + k) * BLOCK_SIZE else 0)
  }

  /** The index ends with the entries of these blocks; all before them are usable. */
  ghost predicate Listed<T>(slots: seq<Slot<T>>, blocks: seq<Block<T>>, first: nat) {
    && |blocks| <= |slots|
    && (forall k :: 0 <= k < |blocks| ==>
          slots[|slots| - |blocks| + k] == Slot((first + k) * BLOCK_SIZE, blocks[k]))
    && forall j :: 0 <= j < |slots| - |blocks| ==> slots[j].Usable()
  }

  lemma ListedRoom<T>(was: seq<Slot<T>>, from: seq<Slot<T>>, live: seq<Block<T>>, first: nat)
    requires Listed(was, live, first) && Room(was, from)
    ensures Listed(from, live, first) && |live| < |from|
    ensures was != [] && (was[0].Usable() <==> |live| < |was|)
    ensures |from| == if was[0].Usable() then |was| else 2 * |was|
  {
    if |live| == |was| {
      assert was[|was| - |live| + 0] == Slot((first + 0) * BLOCK_SIZE, live[0]);
    }
  }

  lemma ListedFits<T>(slots: seq<Slot<T>>, live: seq<Block<T>>, first: nat)
    requires Listed(slots, live, first)
    ensures |live| <= |slots|
    ensures |slots| > 0 ==> (slots[0].Usable() <==> |live| < |slots|)
  {
    if |live| == |slots| > 0 {
      assert slots[|slots| - |live| + 0] == Slot((first + 0) * BLOCK_SIZE, live[0]);
    }
  }

  lemma ListedAt<T>(slots: seq<Slot<T>>, live: seq<Block<T>>, first: nat, k: nat)
    requires Listed(slots, live, first) && k < |live|
    ensures slots[|slots| - |live| + k] == Slot((first + k) * BLOCK_SIZE, live[k])
  {
  }

  lemma ListedMore<T>(from: seq<Slot<T>>, live: seq<Block<T>>, first: nat, b: Block<T>)
    requires Listed(from, live, first) && |live| < |from|
    ensures Listed(from[1..] + [Slot((first + |live|) * BLOCK_SIZE, b)], live + [b], first)
  {
  }

  lemma ListedAgain<T>(from: seq<Slot<T>>, live: seq<Block<T>>, first: nat, key: nat)
    requires Listed(from, live, first) && |live| < |from|
    ensures Listed([Slot(key, null)] + from[1..], live, first)
  {
  }

  lemma StoredMore<T>(blocks: seq<Block<T>>, b: Block<T>, first: nat, lo: nat, hi: nat, data: seq<T>)
    requires Stored(blocks, first, lo, hi, data) && Raw(b) && b.elements.Length == BLOCK_SIZE
    requires hi <= (first + |blocks|) * BLOCK_SIZE
    ensures Stored(blocks + [b], first, lo, hi, data)
  {
  }

  lemma CountedMore<T>(blocks: seq<Block<T>>, b: Block<T>, first: nat, to: nat)
    requires Counted(blocks, first, to) && b.elementsCompletelyDequeued == 0 && to <= (first + |blocks|) * BLOCK_SIZE
    ensures Counted(blocks + [b], first, to)
  {
  }

  lemma ApartMore<T>(blocks: seq<Block<T>>, b: Block<T>)
    requires Apart(blocks) && b !in blocks && b.elements.Length == BLOCK_SIZE
    requires forall c :: c in blocks ==> c.elements != b.elements
    ensures Apart(blocks + [b])
  {
  }

  lemma ApartParts<T>(a: seq<Block<T>>, x: Block<T>, b: seq<Block<T>>)
    requires Apart(a + [x] + b)
    ensures x !in a && x !in b
  {
    assert (a + [x] + b)[|a|] == x;
    forall i | 0 <= i < |a| ensures a[i] != x { assert (a + [x] + b)[i] == a[i]; }
    forall i | 0 <= i < |b| ensures b[i] != x { assert (a + [x] + b)[|a| + 1 + i] == b[i]; }
  }

  /** Taking a block off the pool, or a new one. */
  lemma Taken<T>(x: Block<T>, live: seq<Block<T>>, was: seq<Block<T>>, spare: seq<Block<T>>)
    requires Apart(live + was)
    requires if was != [] then was == [x] + spare else
               && spare == [] && x !in live && x.elements.Length == BLOCK_SIZE
               && forall c :: c in live ==> c.elements != x.elements
    ensures Apart(live + [x] + spare)
  {
    if was != [] { assert live + [x] + spare == live + was; } else {
      assert live + was == live && live + [x] + spare == live + [x];
      ApartMore(live, x);
    }
  }

  /** The storage of the k-th block is no other block's. */
  lemma InPlace<T>(live: seq<Block<T>>, spare: seq<Block<T>>, k: nat)
    requires Apart(live + spare) && k < |live|
    ensures live[k].elements.Length == BLOCK_SIZE
    ensures forall j :: 0 <= j < |live| && j != k ==> live[j].elements != live[k].elements
    ensures forall b :: b in spare ==> b.elements != live[k].elements
  {
    var all := live + spare;
    assert all[k] == live[k];
    forall j | 0 <= j < |live| && j != k ensures live[j].elements != live[k].elements { assert all[j] == live[j]; }
    forall b | b in spare
      ensures b.elements != live[k].elements
    {
      var j :| 0 <= j < |spare| && spare[j] == b;
      assert all[|live| + j] == b;
    }
  }

  /** The oldest block, given back. */
  lemma OthersApart<T>(live: seq<Block<T>>, spare: seq<Block<T>>)
    requires Apart(live + spare) && live != []
    ensures Apart(live[1..] + ([live[0]] + spare))
    ensures live[0] !in live[1..] && live[0].elements.Length == BLOCK_SIZE
  {
    assert (live + spare)[0] == live[0];
    assert live + spare == [] + [live[0]] + live[1..] + spare;
    ApartMove([], live[0], live[1..], spare);
    assert live[1..] + ([live[0]] + spare) == [] + live[1..] + [live[0]] + spare;
    assert live[1..] + [live[0]] + spare == live[1..] + ([live[0]] + spare);
    ApartParts(live[1..], live[0], spare);
  }

  lemma CountedAt<T>(live: seq<Block<T>>, first: nat, to: nat)
    requires Counted(live, first, to) && live != [] && first * BLOCK_SIZE <= to <= (first + 1) * BLOCK_SIZE
    ensures live[0].elementsCompletelyDequeued == to - first * BLOCK_SIZE
    ensures forall k :: 1 <= k < |live| ==> live[k].elementsCompletelyDequeued == 0
  {
  }

  lemma CountedIs<T>(live: seq<Block<T>>, first: nat, to: nat)
    requires live != [] && first * BLOCK_SIZE <= to <= (first + 1) * BLOCK_SIZE
    requires live[0].elementsCompletelyDequeued == to - first * BLOCK_SIZE
    requires forall k :: 1 <= k < |live| ==> live[k].elementsCompletelyDequeued == 0
    ensures Counted(live, first, to)
    ensures to == (first + 1) * BLOCK_SIZE ==> Counted(live[1..], first + 1, to)
  {
  }

  lemma StoredLess<T>(live: seq<Block<T>>, first: nat, lo: nat, hi: nat, data: seq<T>)
    requires Stored(live, first, lo, hi, data) && live != [] && lo == (first + 1) * BLOCK_SIZE
    requires live[0].elements.Length == BLOCK_SIZE
    ensures Stored(live[1..], first + 1, lo, hi, data) && Raw(live[0])
  {
    forall j | 0 <= j < BLOCK_SIZE
      ensures live[0].elements[j] == None
    {
      assert live[0].elements[j] == Cell((first + 0) * BLOCK_SIZE + j, lo, hi, data);
    }
    forall k, j | 0 <= k < |live| - 1 && 0 <= j < BLOCK_SIZE && live[1..][k].elements.Length == BLOCK_SIZE
      ensures live[1..][k].elements[j] == Cell((first + 1 + k) * BLOCK_SIZE + j, lo, hi, data)
    {
      assert live[k + 1].elements[j] == Cell((first + (k + 1)) * BLOCK_SIZE + j, lo, hi, data);
    }
  }

  lemma ListedLess<T>(slots: seq<Slot<T>>, live: seq<Block<T>>, first: nat)
    requires Listed(slots, live, first) && live != []
    ensures var p := |slots| - |live|; Listed(slots[p := slots[p].(value := null)], live[1..], first + 1)
  {
  }

  lemma ViewAt<T>(ring: seq<BlockIndexEntry<T>>, j: nat)
    requires j < |ring|
    ensures View(ring)[j] == Slot(ring[j].key, ring[j].value)
  {
  }

  lemma ApartOf<T>(blocks: seq<Block<T>>, b: Block<T>)
    requires Apart(blocks) && b in blocks
    ensures b.elements.Length == BLOCK_SIZE
  {
  }

  lemma BlocksNext(tail: nat)
    ensures tail % BLOCK_SIZE == 0 ==> Blocks(tail) * BLOCK_SIZE == tail && Blocks(tail + 1) == Blocks(tail) + 1
    ensures tail % BLOCK_SIZE != 0 ==> Blocks(tail + 1) == Blocks(tail)
    ensures tail / BLOCK_SIZE == Blocks(tail + 1) - 1
  {
  }

  /** With something in the queue there is a block for the head. */
  lemma BlocksOver(head: nat, tail: nat)
    requires head <= tail
    ensures head / BLOCK_SIZE <= Blocks(tail)
    ensures head < tail ==> head / BLOCK_SIZE < Blocks(tail)
    ensures tail % BLOCK_SIZE != 0 ==> head / BLOCK_SIZE < Blocks(tail)
    ensures head < tail && tail % BLOCK_SIZE != 0 ==> (head + 1) / BLOCK_SIZE < Blocks(tail)
    ensures (head + 1) / BLOCK_SIZE == head / BLOCK_SIZE + if (head + 1) % BLOCK_SIZE == 0 then 1 else 0
  {
  }

  /** The slot of the m-th entry from the end of a ring. */
  ghost function Place(tail: nat, capacity: nat, m: int): int
  {
    if capacity == 0 then 0 else (tail + 1 + capacity - m) % capacity
  }

  lemma NextPlace(tail: nat, capacity: nat, m: nat)
    requires 0 < m <= capacity
    ensures (Place(tail, capacity, m) + 1) % capacity == Place(tail, capacity, m - 1)
  {
    ModShift(tail + 1 + capacity - m, 1, capacity);
    assert tail + 1 + capacity - m + 1 == tail + 1 + capacity - (m - 1);
  }

  /** Each block's `next` is the one after it, and the last has none. */
  ghost predicate Chained<T>(blocks: seq<Block<T>>)
    reads blocks`next
  {
    forall j :: 0 <= j < |blocks| ==> blocks[j].next == Nth(blocks, j + 1)
  }

  ghost function The<T>(b: Block?<T>): set<Block<T>> {
    if b == null then {} else {b}
  }

  ghost function Nth<T>(blocks: seq<Block<T>>, j: nat): Block?<T> {
    if j < |blocks| then blocks[j] else null
  }

  /** The slots after `i` of the newest `m` entries are undone: rotated back by `i`, and the oldest
      `i` of the `m` cleared. */
  ghost function Undone<T>(from: seq<Slot<T>>, m: nat, i: nat): (s: seq<Slot<T>>)
    requires i <= m <= |from|
    ensures |s| == |from|
  {
    seq(|from|, j requires 0 <= j < |from| =>
      var p := if j < i then |from| - i + j else j - i;
      if |from| - m <= p < |from| - m + i then from[p].(value := null) else from[p])
  }

  lemma UndoneStart<T>(from: seq<Slot<T>>, m: nat)
    requires m <= |from|
    ensures Undone(from, m, 0) == from
  {
  }

  /** The newest entry left is that of the i-th block from the end. */
  lemma UndoneTail<T>(from: seq<Slot<T>>, base: seq<Block<T>>, taken: seq<Block<T>>, first: nat, i: nat)
    requires Listed(from, base + taken, first) && i < |taken| <= |from|
    ensures Undone(from, |taken|, i)[|from| - 1].key + (2 * i - |taken| + 1) * BLOCK_SIZE
            == (first + |base| + i) * BLOCK_SIZE
  {
    ListedAt(from, base + taken, first, |base| + |taken| - 1 - i);
  }

  /** Clearing the i-th entry and rewinding the tail is one more undone. */
  lemma UndoneStep<T>(from: seq<Slot<T>>, m: nat, i: nat)
    requires i < m <= |from|
    ensures var s, p := Undone(from, m, i), Ahead(|from|, 2 * i - m + 1);
            Back(s[p := s[p].(value := null)]) == Undone(from, m, i + 1)
  {
    hide Undone, Ahead;
    var n, s := |from|, Undone(from, m, i);
    var p := Ahead(n, 2 * i - m + 1);
    var cleared := s[p := s[p].(value := null)];
    var back, more := Back(cleared), Undone(from, m, i + 1);
    AheadIs(n, 2 * i - m + 1);
    UndoneAt(from, m, i, p);
    forall j | 0 <= j < n
      ensures back[j] == more[j]
    {
      var k := if j == 0 then n - 1 else j - 1;
      assert back[j] == cleared[k];
      UndoneAt(from, m, i, k);
      UndoneAt(from, m, i + 1, j);
    }
  }

  lemma UndoneAt<T>(from: seq<Slot<T>>, m: nat, i: nat, j: nat)
    requires i <= m <= |from| && j < |from|
    ensures var p := if j < i then |from| - i + j else j - i;
            Undone(from, m, i)[j] == if |from| - m <= p < |from| - m + i then from[p].(value := null) else from[p]
  {
  }

  ghost function Entries<T>(xs: seq<BlockIndexEntry<T>>): set<BlockIndexEntry<T>> {
    set x | x in xs
  }

  lemma EntriesSame<T>(xs: seq<BlockIndexEntry<T>>, ys: seq<BlockIndexEntry<T>>)
    requires Entries(xs) == Entries(ys)
    ensures forall x :: x in xs <==> x in ys
  {
    forall x | x in xs ensures x in ys { assert x in Entries(xs); }
    forall x | x in ys ensures x in xs { assert x in Entries(ys); }
  }

  lemma AheadIs(n: nat, offset: int)
    requires 0 < offset + n && offset < n
    ensures Ahead(n, offset) == if offset <= 0 then n - 1 + offset else offset - 1
  {
  }

  lemma UndoneEnd<T>(from: seq<Slot<T>>, base: seq<Block<T>>, taken: seq<Block<T>>, first: nat)
    requires Listed(from, base + taken, first)
    ensures Listed(Undone(from, |taken|, |taken|), base, first)
  {
    var n, m, s := |from|, |taken|, Undone(from, |taken|, |taken|);
    forall k | 0 <= k < |base|
      ensures s[n - |base| + k] == Slot((first + k) * BLOCK_SIZE, base[k])
    {
      ListedAt(from, base + taken, first, k);
    }
  }

  lemma NeededBlocks(tail: nat, count: nat)
    ensures (tail - 1) / BLOCK_SIZE == Blocks(tail) - 1
    ensures (tail + count - 1) / BLOCK_SIZE == Blocks(tail + count) - 1
    ensures Blocks(tail) <= Blocks(tail + count)
  {
  }

  /** The block of an index that is being filled is one of those the operation works on, and the
      last of them exactly if the operation ends in it. */
  lemma FillRange(at: nat, tail: nat, count: nat)
    requires tail <= at < tail + count || count == 0
    ensures count > 0 ==> at / BLOCK_SIZE + 1 <= Blocks(tail + count)
    ensures count > 0 ==> at / BLOCK_SIZE + 1 >= Blocks(tail) + if tail % BLOCK_SIZE == 0 then 1 else 0
    ensures count > 0 ==>
              (at / BLOCK_SIZE + 1 == Blocks(tail + count) <==> tail + count <= (at / BLOCK_SIZE + 1) * BLOCK_SIZE)
  {
  }

  /** The first block to fill is the start block, or the first one taken. */
  lemma FirstToFill<T>(tail: nat, count: nat, taken: seq<Block<T>>)
    requires |taken| == Blocks(tail + count) - Blocks(tail)
    ensures tail / BLOCK_SIZE == Blocks(tail) - if tail % BLOCK_SIZE == 0 then 0 else 1
    ensures tail % BLOCK_SIZE == 0 && count > 0 ==> taken != []
    ensures taken != [] ==> Nth(taken, 0) == taken[0]
    ensures taken == [] ==> Nth(taken, 0) == null
    ensures tail % BLOCK_SIZE != 0 ==> (tail + count) % BLOCK_SIZE == 0 || Blocks(tail + count) > tail / BLOCK_SIZE
  {
  }

  /** If the new tail is inside a block, that block is the last one taken, or the start block. */
  lemma LastToFill<T>(tail: nat, count: nat, base: seq<Block<T>>, taken: seq<Block<T>>)
    requires |taken| == Blocks(tail + count) - Blocks(tail)
    ensures (tail + count) % BLOCK_SIZE != 0 && taken == [] ==> tail % BLOCK_SIZE != 0
    ensures taken != [] ==> (base + taken)[|base + taken| - 1] == taken[|taken| - 1]
    ensures taken == [] ==> base + taken == base
  {
  }

  lemma BlocksBound(tail: nat)
    ensures tail <= Blocks(tail) * BLOCK_SIZE
  {
  }

  /** Blocks behind the tail's are raw. */
  lemma StoredSplit<T>(base: seq<Block<T>>, taken: seq<Block<T>>, first: nat, lo: nat, hi: nat, data: seq<T>,
                       spare: seq<Block<T>>)
    requires Stored(base + taken, first, lo, hi, data) && Apart(base + taken + spare)
    requires hi <= (first + |base|) * BLOCK_SIZE
    ensures Stored(base, first, lo, hi, data) && forall b :: b in taken ==> Raw(b)
  {
    var all := base + taken;
    forall b | b in taken
      ensures Raw(b)
    {
      var k :| 0 <= k < |taken| && taken[k] == b;
      assert (all + spare)[|base| + k] == b && all[|base| + k] == b;
    }
    forall k, j | 0 <= k < |base| && 0 <= j < BLOCK_SIZE && base[k].elements.Length == BLOCK_SIZE
      ensures base[k].elements[j] == Cell((first + k) * BLOCK_SIZE + j, lo, hi, data)
    {
      assert all[k] == base[k];
    }
  }

  lemma CountedSplit<T>(base: seq<Block<T>>, taken: seq<Block<T>>, first: nat, to: nat)
    requires Counted(base + taken, first, to)
    ensures Counted(base, first, to)
  {
    forall k | 0 <= k < |base| ensures (base + taken)[k] == base[k] {}
  }

  lemma ApartEnds<T>(base: seq<Block<T>>, taken: seq<Block<T>>, x: Block<T>)
    requires Apart(base + taken + [x])
    ensures x !in taken && x !in base
    ensures forall i, j :: 0 <= i < j < |taken| ==> taken[i] != taken[j]
    ensures base != [] ==> base[|base| - 1] !in taken
  {
    var all := base + taken + [x];
    assert all == base + taken + [x] + [];
    ApartParts(base + taken, x, []);
    assert forall j :: 0 <= j < |taken| ==> all[|base| + j] == taken[j];
    assert base != [] ==> all[|base| - 1] == base[|base| - 1];
  }
}
