/** The implicit producer's operations as they run in memory when one thread at a time works on it:
    blocks and index entries are objects updated in place, and a failed bulk operation undoes its
    work through the chain of blocks. `memory` says how many allocations succeed before one fails,
    so every pattern of failures within a call is covered, `try_enqueue` being the case 0. */
module ImplicitProducers {
  import opened Counting
  import opened BlockQueue
  import opened BlockIndexes
  import opened ProducerBlocks

  class ImplicitProducer<T> {
    var tailIndex: nat
    var headIndex: nat
    var dequeueOptimisticCount: nat
    var dequeueOvercommit: nat
    var tailBlock: Block?<T>
    var spare: seq<Block<T>>              // the parent's blocks, in the order it hands them out
    const blockIndex: BlockIndex<T>
    ghost var live: seq<Block<T>>         // the blocks in the index, oldest first
    ghost var contents: seq<T>

    ghost function Footprint(): set<object>
      reads this`live, this`spare, blockIndex`ring
    {
      {this, blockIndex}
      + (set e | e in blockIndex.ring :: e as object)
      + (set b | b in live :: b as object) + (set b | b in spare :: b as object)
      + (set b | b in live :: b.elements as object) + (set b | b in spare :: b.elements as object)
    }

    lemma InFootprint()
      ensures this in Footprint() && blockIndex in Footprint()
      ensures forall e :: e in blockIndex.ring ==> e in Footprint()
      ensures forall b :: b in live || b in spare ==> b in Footprint() && b.elements in Footprint()
    {
    }

    /** Blocks that only change between index and pool stay in the footprint. */
    twostate lemma FootprintKept()
      requires blockIndex.ring == old(blockIndex.ring)
      requires forall b :: b in live || b in spare <==> b in old(live) || b in old(spare)
      ensures Footprint() == old(Footprint())
    {
    }

    twostate lemma FootprintGrew()
      requires forall e :: e in blockIndex.ring ==> e in old(blockIndex.ring) || fresh(e)
      requires forall b :: b in live || b in spare ==>
                 b in old(live) || b in old(spare) || (fresh(b) && fresh(b.elements))
      ensures fresh(Footprint() - old(Footprint()))
    {
    }

    /** Blocks and index hold `data` at lo..hi; what was taken out is counted up to `counted`. */
    ghost predicate Holding(counted: nat, lo: nat, hi: nat, data: seq<T>)
      reads this`live, this`spare, blockIndex, blockIndex.index, blockIndex.ring, live`elementsCompletelyDequeued,
            set b | b in live + spare :: b.elements
    {
      && blockIndex.Valid()
      && Apart(live + spare)
      && (forall b :: b in spare ==> Raw(b))
      && Listed(View(blockIndex.ring), live, counted / BLOCK_SIZE)
      && Stored(live, counted / BLOCK_SIZE, lo, hi, data)
      && Counted(live, counted / BLOCK_SIZE, counted)
    }

    ghost predicate Valid()
      reads this, blockIndex, blockIndex.index, blockIndex.ring, live`elementsCompletelyDequeued,
            set b | b in live + spare :: b.elements
    {
      && headIndex + |contents| == tailIndex
      && dequeueOptimisticCount == headIndex + dequeueOvercommit
      && Holding(headIndex, headIndex, tailIndex, contents)
      && |live| == Blocks(tailIndex) - headIndex / BLOCK_SIZE
      && (tailIndex % BLOCK_SIZE != 0 ==> tailBlock == live[|live| - 1])
    }

    ghost predicate CanAdd(memory: nat, need: nat)
      reads this`live, this`spare, blockIndex`ring
    {
      Affordable(memory, |blockIndex.ring|, |spare|, |live|, need)
    }

    lemma NothingToAdd(memory: nat)
      ensures CanAdd(memory, 0)
    {
    }

    /** A producer of a queue with these pooled blocks; its index is there if memory allows. */
    constructor (pool: seq<Block<T>>, memory: nat)
      requires Apart(pool) && forall b :: b in pool ==> Raw(b)
      ensures Valid() && contents == [] && spare == pool && live == []
      ensures |blockIndex.ring| == if memory > 0 then INITIAL_INDEX_SIZE else 0
      ensures fresh(blockIndex) && forall e :: e in blockIndex.ring ==> fresh(e)
    {
      tailIndex, headIndex, dequeueOptimisticCount, dequeueOvercommit := 0, 0, 0, 0;
      tailBlock := null;
      spare := pool;
      var none := new BlockIndex<T>();
      blockIndex := none;
      live, contents := [], [];
      new;
      var ok := none.NewBlockIndex(memory);
    }

    /** `requisition_block`. */
    method RequisitionBlock(memory: nat) returns (block: Block?<T>, left: nat)
      modifies this`spare
      ensures old(spare) != [] ==> block == old(spare)[0] && spare == old(spare)[1..] && left == memory
      ensures old(spare) == [] ==> spare == [] && (block != null <==> memory > 0)
      ensures old(spare) == [] && block == null ==> left == memory
      ensures old(spare) == [] && block != null ==>
                && left == memory - 1 && fresh(block) && fresh(block.elements)
                && block.elements.Length == BLOCK_SIZE && Raw(block)
    {
      left := memory;
      if spare != [] {
        block, spare := spare[0], spare[1..];
      } else if memory > 0 {
        block := new Block<T>();
        left := memory - 1;
      } else {
        block := null;
      }
    }

    /** The new block goes into its entry, with nothing taken out of it yet. */
    method Attach(entry: BlockIndexEntry<T>, newBlock: Block<T>, ghost from: seq<Slot<T>>,
                  ghost counted: nat, ghost lo: nat, ghost hi: nat, ghost data: seq<T>)
      requires var first := counted / BLOCK_SIZE;
               && Listed(from, live, first) && |live| < |from|
               && Stored(live, first, lo, hi, data) && Counted(live, first, counted)
               && Apart(live + [newBlock] + spare) && Raw(newBlock) && (forall b :: b in spare ==> Raw(b))
               && hi <= (first + |live|) * BLOCK_SIZE && counted <= (first + |live|) * BLOCK_SIZE
               && blockIndex.Valid() && |blockIndex.ring| == |from| && entry == blockIndex.ring[|from| - 1]
               && View(blockIndex.ring) == Turned(from[0 := from[0].(key := (first + |live|) * BLOCK_SIZE)])
      modifies entry`value, newBlock`elementsCompletelyDequeued, this`live
      ensures Holding(counted, lo, hi, data) && live == old(live) + [newBlock]
    {
      hide Raw, Stored, Counted, Listed, Apart, Around, Distinct, View;
      ghost var first := counted / BLOCK_SIZE;
      assert newBlock !in live by { ApartParts(live, newBlock, spare); }
      ApartOf(live + [newBlock] + spare, newBlock);
      newBlock.elementsCompletelyDequeued := 0;
      blockIndex.SetValue(entry, newBlock, |from| - 1);
      ListedMore(from, live, first, newBlock);
      assert View(blockIndex.ring) == from[1..] + [Slot((first + |live|) * BLOCK_SIZE, newBlock)];
      StoredMore(live, newBlock, first, lo, hi, data);
      CountedMore(live, newBlock, first, counted);
      live := live + [newBlock];
    }

    /** Takes back an insertion for which there is no block. */
    method Detach(entry: BlockIndexEntry<T>, ghost from: seq<Slot<T>>, ghost start: nat)
      requires blockIndex.Valid() && |blockIndex.ring| == |from| > 0 && entry == blockIndex.ring[|from| - 1]
      requires View(blockIndex.ring) == Turned(from[0 := from[0].(key := start)])
      modifies entry`value, blockIndex`tail, blockIndex`ring
      ensures blockIndex.Valid() && View(blockIndex.ring) == [Slot(start, null)] + from[1..]
      ensures forall e :: e in blockIndex.ring ==> e in old(blockIndex.ring)
    {
      hide Around, Distinct, View;
      blockIndex.Rewind();
      blockIndex.SetValue(entry, null, 0);
    }

    /** Puts a new block into the index, as both forms of enqueue do when they reach the end of
        one, or takes back what was done. */
    method AddBlock(start: nat, memory: nat, ghost counted: nat, ghost lo: nat, ghost hi: nat, ghost data: seq<T>,
                    ghost need: nat)
      returns (newBlock: Block?<T>, left: nat)
      requires Holding(counted, lo, hi, data)
      requires start == (counted / BLOCK_SIZE + |live|) * BLOCK_SIZE && counted <= start && hi <= start && need > 0
      modifies this`live, this`spare, blockIndex, blockIndex.ring, spare`elementsCompletelyDequeued
      ensures Holding(counted, lo, hi, data)
      ensures old(CanAdd(memory, need)) <==> newBlock != null && CanAdd(left, need - 1)
      ensures newBlock == null ==> live == old(live) && spare == old(spare)
      ensures newBlock != null ==> live == old(live) + [newBlock]
      ensures newBlock != null && old(spare) != [] ==> newBlock == old(spare)[0] && spare == old(spare)[1..]
      ensures newBlock != null && old(spare) == [] ==> fresh(newBlock) && fresh(newBlock.elements) && spare == []
      ensures forall e :: e in blockIndex.ring ==> e in old(blockIndex.ring) || fresh(e)
    {
      hide Apart, Raw, Stored, Counted, Listed, Around, Distinct, View, Affordable, Room, Turned, DoubledView;
      ghost var first, was := counted / BLOCK_SIZE, View(blockIndex.ring);
      ListedFits(View(blockIndex.ring), live, first);
      AffordStep(memory, |blockIndex.ring|, |spare|, |live|, need);
      var entry, rest; ghost var from;
      entry, rest, from := blockIndex.Insert(start, memory);
      if entry == null {
        return null, memory;
      }
      ListedRoom(was, from, live, first);
      newBlock, left := RequisitionBlock(rest);
      if newBlock == null {
        Detach(entry, from, start);
        ListedAgain(from, live, first, start);
        return;
      }
      Taken(newBlock, live, old(spare), spare);
      Attach(entry, newBlock, from, counted, lo, hi, data);
    }

    // -------------------------------------------------------------- one element

    /** Placement new of the element with index `i`, the next to come. */
    method Construct(i: nat, x: T, ghost k: nat, ghost counted: nat, ghost lo: nat, ghost data: seq<T>)
      requires Holding(counted, lo, i, data)
      requires k < |live| && tailBlock == live[k] && i / BLOCK_SIZE == counted / BLOCK_SIZE + k
      modifies tailBlock.elements
      ensures Holding(counted, lo, i + 1, data + [x])
    {
      hide Counted, Listed, View, Around, Distinct;
      InPlace(live, spare, k);
      tailBlock.elements[i % BLOCK_SIZE] := Some(x);
    }

    /** Moves the element with index `i` out of its block and destroys it. */
    method MoveOut(block: Block<T>, i: nat, ghost k: nat, ghost counted: nat, ghost hi: nat, ghost data: seq<T>)
      returns (x: T)
      requires Holding(counted, i, hi, data) && i < hi
      requires k < |live| && block == live[k] && i / BLOCK_SIZE == counted / BLOCK_SIZE + k
      modifies block.elements
      ensures Holding(counted, i + 1, hi, data[1..]) && x == data[0]
    {
      hide Counted, Listed, View, Around, Distinct;
      InPlace(live, spare, k);
      assert (counted / BLOCK_SIZE + k) * BLOCK_SIZE + i % BLOCK_SIZE == i;
      assert block.elements[i % BLOCK_SIZE] == Cell(i, i, hi, data);
      x := block.elements[i % BLOCK_SIZE].value;
      block.elements[i % BLOCK_SIZE] := None;
    }

    lemma PlaceHolds(k: nat, counted: nat, lo: nat, hi: nat, data: seq<T>)
      requires Holding(counted, lo, hi, data) && k < |live|
      ensures |live| <= |blockIndex.ring| == blockIndex.index.Length
      ensures var slot := Place(blockIndex.tail, blockIndex.index.Length, |live| - k);
              && slot < blockIndex.index.Length
              && blockIndex.index[slot] == blockIndex.ring[|blockIndex.ring| - |live| + k]
              && blockIndex.index[slot].value == live[k]
              && blockIndex.index[slot].key == (counted / BLOCK_SIZE + k) * BLOCK_SIZE
    {
      hide Counted, Stored, Raw, Apart, Around, Distinct, Listed, View;
      ghost var ring := blockIndex.ring;
      ListedFits(View(ring), live, counted / BLOCK_SIZE);
      SameSize(ring, blockIndex.index[..], blockIndex.tail);
      ViewAt(ring, |ring| - |live| + k);
      ListedAt(View(ring), live, counted / BLOCK_SIZE, k);
      AroundAt(ring, blockIndex.index[..], blockIndex.tail, |ring| - |live| + k);
      assert blockIndex.tail + 1 + (|ring| - |live| + k) == blockIndex.tail + 1 + |ring| - (|live| - k);
    }

    /** `get_block_index_entry_for_index`: the entry of index `i`'s block, by its key. */
    method FindSlot(i: nat, ghost k: nat, ghost counted: nat, ghost lo: nat, ghost hi: nat, ghost data: seq<T>)
      returns (slot: nat)
      requires Holding(counted, lo, hi, data) && k < |live| && i / BLOCK_SIZE == counted / BLOCK_SIZE + k
      ensures |live| <= |blockIndex.ring| == blockIndex.index.Length
      ensures slot == Place(blockIndex.tail, blockIndex.index.Length, |live| - k) < blockIndex.index.Length
      ensures blockIndex.index[slot] == blockIndex.ring[|blockIndex.ring| - |live| + k]
      ensures blockIndex.index[slot].key == i / BLOCK_SIZE * BLOCK_SIZE && blockIndex.index[slot].value == live[k]
    {
      hide Counted, Stored, Raw, Apart, Around, Distinct, Listed, View;
      ghost var ring := blockIndex.ring;
      PlaceHolds(k, counted, lo, hi, data);
      ListedAt(View(ring), live, counted / BLOCK_SIZE, |live| - 1);
      ViewAt(ring, |ring| - 1);
      slot := blockIndex.Find(i, k - (|live| - 1));
    }

    /** Counts what was moved out of the oldest block since `counted`; a block that is done with
        leaves the index and goes back to the pool. */
    method CountOut(entry: BlockIndexEntry<T>, block: Block<T>, count: nat,
                    ghost counted: nat, ghost lo: nat, ghost hi: nat, ghost data: seq<T>)
      requires Holding(counted, lo, hi, data)
      requires counted + count == lo <= (counted / BLOCK_SIZE + 1) * BLOCK_SIZE
      requires live != [] && block == live[0]
      requires |live| <= |blockIndex.ring| && entry == blockIndex.ring[|blockIndex.ring| - |live|]
      modifies this`live, this`spare, entry`value, block`elementsCompletelyDequeued
      ensures Holding(lo, lo, hi, data)
      ensures live == if count > 0 && lo % BLOCK_SIZE == 0 then old(live)[1..] else old(live)
      ensures spare == if count > 0 && lo % BLOCK_SIZE == 0 then [block] + old(spare) else old(spare)
    {
      hide Stored, Raw, Apart, Around, Distinct, View, Counted, Listed;
      ghost var first := counted / BLOCK_SIZE;
      CountedAt(live, first, counted);
      OthersApart(live, spare);
      var empty := block.SetManyEmpty(count);
      CountedIs(live, first, lo);
      if empty {
        StoredLess(live, first, lo, hi, data);
        ListedLess(View(blockIndex.ring), live, first);
        blockIndex.SetValue(entry, null, |blockIndex.ring| - |live|);
        live, spare := live[1..], [block] + spare;
      }
    }

    // -------------------------------------------------------------- the operations

    /** The tail has reached the end of a block: start a new one. */
    method StartBlock(memory: nat) returns (ok: bool)
      requires Valid() && tailIndex % BLOCK_SIZE == 0
      modifies this`live, this`spare, this`tailBlock, blockIndex, blockIndex.ring, spare
      ensures fresh(Footprint() - old(Footprint()))
      ensures Holding(headIndex, headIndex, tailIndex, contents)
      ensures ok <==> old(CanAdd(memory, 1))
      ensures ok ==> tailBlock != null && live == old(live) + [tailBlock]
      ensures !ok ==> live == old(live) && spare == old(spare) && tailBlock == old(tailBlock)
    {
      hide Holding, CanAdd, Footprint, Blocks;
      BlocksNext(tailIndex);
      var newBlock, left := AddBlock(tailIndex, memory, headIndex, headIndex, tailIndex, contents, 1);
      FootprintGrew();
      NothingToAdd(left);
      ok := newBlock != null;
      if ok {
        tailBlock := newBlock;
      }
    }

    /** Constructs the element in the tail block and then stores the tail. */
    method Append(x: T)
      requires Holding(headIndex, headIndex, tailIndex, contents) && headIndex + |contents| == tailIndex
      requires dequeueOptimisticCount == headIndex + dequeueOvercommit
      requires |live| == Blocks(tailIndex + 1) - headIndex / BLOCK_SIZE > 0 && tailBlock == live[|live| - 1]
      modifies this`tailIndex, this`contents, tailBlock.elements
      ensures Valid() && contents == old(contents) + [x]
    {
      hide Holding, Blocks;
      BlocksNext(tailIndex);
      Construct(tailIndex, x, |live| - 1, headIndex, headIndex, contents);
      contents := contents + [x];
      tailIndex := tailIndex + 1;
    }

    /** Appends the element, exactly if a block that it may need is to be had. */
    method Enqueue(x: T, memory: nat) returns (ok: bool)
      requires Valid()
      modifies Footprint()
      ensures Valid() && fresh(Footprint() - old(Footprint()))
      ensures ok <==> old(CanAdd(memory, if tailIndex % BLOCK_SIZE == 0 then 1 else 0))
      ensures contents == (if ok then old(contents) + [x] else old(contents)) && headIndex == old(headIndex)
      ensures !ok ==> live == old(live) && spare == old(spare) && tailBlock == old(tailBlock)
    {
      hide Holding, CanAdd, Footprint, Blocks;
      InFootprint();
      NothingToAdd(memory);
      BlocksNext(tailIndex);
      BlocksOver(headIndex, tailIndex + 1);
      if tailIndex % BLOCK_SIZE == 0 {
        ok := StartBlock(memory);
        if !ok {
          return;
        }
      }
      InFootprint();
      Append(x);
      return true;
    }

    /** The element at the head, which was granted: find its block, move it out, count it. */
    method TakeOut(index: nat) returns (x: T)
      requires Holding(index, index, tailIndex, contents) && live != [] && contents != []
      modifies Footprint() - {this, blockIndex}, this`live, this`spare, this`contents
      ensures forall b :: b in live || b in spare ==> b in old(live) || b in old(spare)
      ensures x == old(contents)[0] && contents == old(contents)[1..]
      ensures Holding(index + 1, index + 1, tailIndex, contents)
      ensures live == if (index + 1) % BLOCK_SIZE == 0 then old(live[1..]) else old(live)
    {
      hide Holding, Footprint;
      InFootprint();
      HoldingSize(index, index, tailIndex, contents);
      var slot := FindSlot(index, 0, index, index, tailIndex, contents);
      var entry := blockIndex.index[slot];
      var block := entry.value;
      x := MoveOut(block, index, 0, index, tailIndex, contents);
      contents := contents[1..];
      CountOut(entry, block, 1, index, index + 1, tailIndex, contents);
    }

    lemma HoldingSize(counted: nat, lo: nat, hi: nat, data: seq<T>)
      requires Holding(counted, lo, hi, data)
      ensures lo + |data| == hi
    {
    }

    /** Takes the oldest element, if there is one. */
    method Dequeue() returns (element: Option<T>)
      requires Valid()
      modifies Footprint()
      ensures Valid() && fresh(Footprint() - old(Footprint()))
      ensures element == if old(contents) == [] then None else Some(old(contents)[0])
      ensures contents == (if old(contents) == [] then [] else old(contents)[1..]) && tailIndex == old(tailIndex)
      ensures old(contents) == [] ==> unchanged(this)
    {
      hide Holding, Footprint, Blocks;
      InFootprint();
      BlocksOver(headIndex, tailIndex);
      element := None;
      var tail, overcommit := tailIndex, dequeueOvercommit;
      if dequeueOptimisticCount - overcommit < tail {
        var myDequeueCount := dequeueOptimisticCount;
        dequeueOptimisticCount := dequeueOptimisticCount + 1;
        tail := tailIndex;
        if myDequeueCount - overcommit < tail {
          var index := headIndex;
          headIndex := headIndex + 1;
          var x := TakeOut(index);
          FootprintGrew();
          element := Some(x);
        } else {
          assert false;     // another consumer's claim is needed to come here
        }
      }
    }

    /** Moves out the elements up to `stop`, within the oldest block, and counts them. */
    method DrainBlock(entry: BlockIndexEntry<T>, block: Block<T>, index: nat, stop: nat) returns (out: seq<T>)
      requires Holding(index, index, tailIndex, contents)
      requires live != [] && block == live[0]
      requires |live| <= |blockIndex.ring| && entry == blockIndex.ring[|blockIndex.ring| - |live|]
      requires index <= stop <= tailIndex && stop <= (index / BLOCK_SIZE + 1) * BLOCK_SIZE
      modifies this`live, this`spare, this`contents, entry`value, block`elementsCompletelyDequeued, block.elements
      ensures Holding(stop, stop, tailIndex, contents)
      ensures old(contents) == out + contents && |out| == stop - index
      ensures live == if index < stop && stop % BLOCK_SIZE == 0 then old(live)[1..] else old(live)
      ensures spare == if index < stop && stop % BLOCK_SIZE == 0 then [block] + old(spare) else old(spare)
    {
      hide Holding;
      out := [];
      var at := index;
      while at != stop
        invariant index <= at <= stop && |out| == at - index && old(contents) == out + contents
        invariant Holding(index, at, tailIndex, contents) && live == old(live) && spare == old(spare)
      {
        HoldingSize(index, at, tailIndex, contents);
        var x := MoveOut(block, at, 0, index, tailIndex, contents);
        out := out + [x];
        contents := contents[1..];
        at := at + 1;
      }
      CountOut(entry, block, stop - index, index, stop, tailIndex, contents);
    }

    /** Takes the oldest elements, up to `max` of them, in order. */
    method DequeueBulk(max: nat) returns (out: seq<T>)
      requires Valid()
      modifies Footprint()
      ensures Valid() && fresh(Footprint() - old(Footprint()))
      ensures out == old(contents)[..Min(max, |old(contents)|)]
      ensures contents == old(contents)[|out|..] && tailIndex == old(tailIndex)
    {
      hide Holding, Footprint, Blocks;
      InFootprint();
      BlocksOver(headIndex, tailIndex);
      out := [];
      var tail, overcommit := tailIndex, dequeueOvercommit;
      var desiredCount := tail - (dequeueOptimisticCount - overcommit);
      if 0 < desiredCount {
        desiredCount := if desiredCount < max then desiredCount else max;
        var myDequeueCount := dequeueOptimisticCount;
        dequeueOptimisticCount := dequeueOptimisticCount + desiredCount;
        tail := tailIndex;
        var actualCount := tail - (myDequeueCount - overcommit);
        if 0 < actualCount {
          actualCount := if desiredCount < actualCount then desiredCount else actualCount;
          dequeueOvercommit := dequeueOvercommit + (desiredCount - actualCount);
          var firstIndex := headIndex;
          headIndex := headIndex + actualCount;
          out := TakeRange(firstIndex, firstIndex + actualCount);
          BlocksOver(headIndex, tailIndex);
        } else {
          assert false;     // another consumer's claim is needed to come here
        }
      }
    }

    /** What a consumer finds when it starts on the block of `index`. */
    ghost predicate AtBlock(slot: nat, index: nat)
      reads this, blockIndex, blockIndex.index, blockIndex.ring, live`elementsCompletelyDequeued,
            set b | b in live + spare :: b.elements
    {
      && Holding(index, index, tailIndex, contents)
      && 0 < |live| == Blocks(tailIndex) - index / BLOCK_SIZE
      && slot == Place(blockIndex.tail, blockIndex.index.Length, |live|)
    }

    lemma StartsAt(slot: nat, index: nat)
      requires Holding(index, index, tailIndex, contents)
      requires 0 < |live| == Blocks(tailIndex) - index / BLOCK_SIZE
      requires slot == Place(blockIndex.tail, blockIndex.index.Length, |live|)
      ensures AtBlock(slot, index)
    {
    }

    /** One block of a range; `next` is where it goes on, in the following slot. */
    method TakeFromBlock(slot: nat, index: nat, end: nat) returns (out: seq<T>, next: nat, following: nat)
      requires AtBlock(slot, index) && index <= end <= tailIndex && index < tailIndex
      modifies this`live, this`spare, this`contents, Footprint() - {this, blockIndex}
      ensures Footprint() == old(Footprint())
      ensures index <= next <= end && (index < end ==> index < next)
      ensures old(contents) == out + contents && |out| == next - index
      ensures next < end ==> AtBlock(following, next)
      ensures Holding(next, next, tailIndex, contents) && |live| == Blocks(tailIndex) - next / BLOCK_SIZE
      ensures live != [] ==> live[|live| - 1] == old(live[|live| - 1])
    {
      hide Holding, Blocks, Place, Footprint;
      InFootprint();
      BlocksOver(index, tailIndex);
      PlaceHolds(0, index, index, tailIndex, contents);
      NextPlace(blockIndex.tail, blockIndex.index.Length, |live|);
      next := index / BLOCK_SIZE * BLOCK_SIZE + BLOCK_SIZE;
      next := if end < next then end else next;
      var entry := blockIndex.index[slot];
      var block := entry.value;
      out := DrainBlock(entry, block, index, next);
      following := (slot + 1) % blockIndex.index.Length;
      BlocksOver(next, tailIndex);
      FootprintKept();
    }

    /** Iterates over the blocks of a granted range. */
    method TakeRange(firstIndex: nat, end: nat) returns (out: seq<T>)
      requires Holding(firstIndex, firstIndex, tailIndex, contents) && firstIndex <= end <= tailIndex
      requires firstIndex < tailIndex
      requires |live| == Blocks(tailIndex) - firstIndex / BLOCK_SIZE
      modifies Footprint() - {this, blockIndex}, this`live, this`spare, this`contents
      ensures Footprint() == old(Footprint())
      ensures Holding(end, end, tailIndex, contents) && |live| == Blocks(tailIndex) - end / BLOCK_SIZE
      ensures old(contents) == out + contents && |out| == end - firstIndex
      ensures live != [] ==> live[|live| - 1] == old(live[|live| - 1])
    {
      hide Holding, Footprint, Blocks, AtBlock;
      ghost var all := contents;
      BlocksOver(firstIndex, tailIndex);
      ghost var last := live[|live| - 1];
      var slot := FindSlot(firstIndex, 0, firstIndex, firstIndex, tailIndex, contents);
      StartsAt(slot, firstIndex);
      var index;
      out, index, slot := TakeFromBlock(slot, firstIndex, end);
      while index != end
        invariant firstIndex <= index <= end && |out| == index - firstIndex && all == out + contents
        invariant Holding(index, index, tailIndex, contents) && |live| == Blocks(tailIndex) - index / BLOCK_SIZE
        invariant index < end ==> AtBlock(slot, index)
        invariant live != [] ==> live[|live| - 1] == last
        invariant Footprint() == old(Footprint())
      {
        ghost var rest := contents;
        assert AtBlock(slot, index);
        var xs;
        xs, index, slot := TakeFromBlock(slot, index, end);
        assert out + rest == (out + xs) + contents;
        out := out + xs;
      }
    }

    // -------------------------------------------------------------- enqueue_bulk

    /** `add_blocks_to_free_list`: the blocks along a chain go back to the pool. */
    method FreeBlocks(first: Block?<T>, ghost taken: seq<Block<T>>)
      requires Chained(taken) && first == Nth(taken, 0)
      requires Apart(live + taken + spare) && forall b :: b in taken || b in spare ==> Raw(b)
      modifies this`spare
      ensures Apart(live + spare) && forall b :: b in spare ==> Raw(b)
      ensures |spare| == |taken| + |old(spare)| && spare[|taken|..] == old(spare)
      ensures forall b :: b in spare <==> b in taken || b in old(spare)
    {
      hide Apart, Raw;
      var block := first;
      ghost var i := 0;
      assert taken[0..] == taken && spare[0..] == spare;
      while block != null
        invariant i <= |taken| && block == Nth(taken, i)
        invariant Apart(live + taken[i..] + spare)
        invariant |spare| == i + |old(spare)| && spare[i..] == old(spare)
        invariant forall b :: b in spare <==> b in taken[..i] || b in old(spare)
        decreases |taken| - i
      {
        var next := block.next;
        assert live + taken[i..] + spare == live + [taken[i]] + taken[i + 1..] + spare;
        ApartMove(live, taken[i], taken[i + 1..], spare);
        assert live + taken[i + 1..] + [taken[i]] + spare == live + taken[i + 1..] + ([taken[i]] + spare);
        assert taken[..i + 1] == taken[..i] + [taken[i]];
        spare := [block] + spare;
        block := next;
        i := i + 1;
      }
      assert taken[..i] == taken && live + taken[i..] + spare == live + spare;
    }

    /** Clears the entry of one block of a failed operation and rewinds the tail by one. */
    method UndoEntry(index: nat, block: Block<T>, ghost from: seq<Slot<T>>,
                     ghost base: seq<Block<T>>, ghost taken: seq<Block<T>>, ghost number: nat, ghost i: nat,
                     ghost entries: set<BlockIndexEntry<T>>)
      returns (next: Block?<T>)
      requires Listed(from, base + taken, number) && i < |taken| <= |from| && index == (number + |base| + i) * BLOCK_SIZE
      requires blockIndex.Valid() && View(blockIndex.ring) == Undone(from, |taken|, i)
      requires entries == Entries(blockIndex.ring) && Chained(taken) && block == taken[i]
      modifies blockIndex`tail, blockIndex`ring, entries`value
      ensures blockIndex.Valid() && View(blockIndex.ring) == Undone(from, |taken|, i + 1)
      ensures Chained(taken) && next == Nth(taken, i + 1)
      ensures entries == Entries(blockIndex.ring)
    {
      hide Around, Distinct, View, Listed, Blocks, Undone, Ahead;
      ghost var offset := 2 * i - |taken| + 1;
      UndoneStep(from, |taken|, i);
      UndoneTail(from, base, taken, number, i);
      ViewAt(blockIndex.ring, |from| - 1);
      var slot := blockIndex.Find(index, offset);
      var entry := blockIndex.index[slot];
      assert entry in blockIndex.ring;
      blockIndex.SetValue(entry, null, Ahead(|from|, offset));
      blockIndex.Rewind();
      next := block.next;
    }

    /** Takes the entries of the chain's blocks out of the index: oldest entry cleared first, while
        the tail is rewound from the newest. */
    method UndoEntries(first: Block?<T>, ghost base: seq<Block<T>>, ghost taken: seq<Block<T>>, ghost number: nat,
                       ghost entries: set<BlockIndexEntry<T>>)
      requires blockIndex.Valid() && entries == Entries(blockIndex.ring) && Listed(View(blockIndex.ring), base + taken, number)
      requires Chained(taken) && first == Nth(taken, 0) && number + |base| == Blocks(tailIndex)
      modifies blockIndex`tail, blockIndex`ring, entries`value
      ensures blockIndex.Valid() && Listed(View(blockIndex.ring), base, number)
      ensures entries == Entries(blockIndex.ring)
    {
      hide Around, Distinct, View, Listed, Blocks, Undone, Ahead, Entries, Chained;
      ghost var from, m := View(blockIndex.ring), |taken|;
      ListedFits(from, base + taken, number);
      UndoneStart(from, m);
      BlocksNext(tailIndex);
      var currentTailIndex := (tailIndex - 1) / BLOCK_SIZE * BLOCK_SIZE;
      var block := first;
      ghost var i := 0;
      while block != null
        invariant i <= m && block == Nth(taken, i) && Chained(taken)
        invariant currentTailIndex == (Blocks(tailIndex) + i - 1) * BLOCK_SIZE
        invariant blockIndex.Valid() && View(blockIndex.ring) == Undone(from, m, i)
        invariant entries == Entries(blockIndex.ring)
        decreases m - i
      {
        currentTailIndex := currentTailIndex + BLOCK_SIZE;
        block := UndoEntry(currentTailIndex, block, from, base, taken, number, i, entries);
        i := i + 1;
      }
      UndoneEnd(from, base, taken, number);
    }

    /** Takes back everything a bulk operation did before an allocation failed. */
    method Undo(first: Block?<T>, ghost base: seq<Block<T>>, ghost taken: seq<Block<T>>)
      requires Holding(headIndex, headIndex, tailIndex, contents) && live == base + taken
      requires Chained(taken) && first == Nth(taken, 0) && headIndex / BLOCK_SIZE + |base| == Blocks(tailIndex)
      modifies this`live, this`spare, blockIndex`tail, blockIndex`ring, Entries(blockIndex.ring)`value
      ensures Holding(headIndex, headIndex, tailIndex, contents) && live == base
      ensures forall e :: e in blockIndex.ring ==> e in old(blockIndex.ring)
      ensures |spare| == |taken| + |old(spare)| && spare[|taken|..] == old(spare)
      ensures forall b :: b in spare <==> b in taken || b in old(spare)
    {
      hide Apart, Raw, Stored, Counted, Listed, Around, Distinct, View, Blocks, Chained, Entries;
      ghost var number, was := headIndex / BLOCK_SIZE, blockIndex.ring;
      BlocksBound(tailIndex);
      StoredSplit(base, taken, number, headIndex, tailIndex, contents, spare);
      UndoEntries(first, base, taken, number, Entries(blockIndex.ring));
      CountedSplit(base, taken, number, headIndex);
      live := base;
      FreeBlocks(first, taken);
      EntriesSame(was, blockIndex.ring);
    }

    /** The chain of an operation's blocks, hung on to the partly filled block it starts with. */
    ghost predicate Linked(start: Block?<T>, taken: seq<Block<T>>)
      reads this`tailIndex, taken`next, The(start)`next
    {
      && Chained(taken)
      && (tailIndex % BLOCK_SIZE != 0 && taken != [] ==> start != null && start.next == taken[0])
    }

    lemma LinkedChained(start: Block?<T>, taken: seq<Block<T>>)
      requires Linked(start, taken)
      ensures Chained(taken)
    {
    }

    lemma HoldingApart(counted: nat, lo: nat, hi: nat, data: seq<T>)
      requires Holding(counted, lo, hi, data)
      ensures Apart(live)
    {
      assert forall i :: 0 <= i < |live| ==> (live + spare)[i] == live[i];
    }

    lemma LinkedNone(start: Block?<T>)
      ensures Linked(start, []) && Nth<T>([], 0) == null
    {
    }

    /** Hangs a new block on to the chain. */
    method Link(newBlock: Block<T>, start: Block?<T>, first: Block?<T>,
                ghost base: seq<Block<T>>, ghost taken: seq<Block<T>>)
      requires Linked(start, taken) && first == Nth(taken, 0) && Apart(base + taken + [newBlock])
      requires tailIndex % BLOCK_SIZE != 0 ==> base != [] && start == base[|base| - 1]
      requires tailBlock == if taken == [] then start else taken[|taken| - 1]
      modifies newBlock`next, this`tailBlock,
               (if taken == [] && tailIndex % BLOCK_SIZE == 0 then {} else The(tailBlock))`next
      ensures Linked(start, taken + [newBlock]) && tailBlock == newBlock
    {
      ApartEnds(base, taken, newBlock);
      newBlock.next := null;
      if tailIndex % BLOCK_SIZE != 0 || first != null {
        tailBlock.next := newBlock;
      }
      tailBlock := newBlock;
    }

    /** One block more for a bulk operation, in the index and on its chain. */
    method AddLinked(start: nat, memory: nat, startBlock: Block?<T>, first: Block?<T>,
                     ghost base: seq<Block<T>>, ghost taken: seq<Block<T>>, ghost need: nat)
      returns (newBlock: Block?<T>, left: nat)
      requires Holding(headIndex, headIndex, tailIndex, contents) && live == base + taken && need > 0
      requires start == (headIndex / BLOCK_SIZE + |live|) * BLOCK_SIZE && headIndex <= tailIndex <= start
      requires Linked(startBlock, taken) && first == Nth(taken, 0)
      requires tailIndex % BLOCK_SIZE != 0 ==> base != [] && startBlock == base[|base| - 1]
      requires tailBlock == if taken == [] then startBlock else taken[|taken| - 1]
      modifies this`live, this`spare, this`tailBlock, blockIndex, blockIndex.ring, spare, live`next
      ensures Holding(headIndex, headIndex, tailIndex, contents)
      ensures old(CanAdd(memory, need)) <==> newBlock != null && CanAdd(left, need - 1)
      ensures newBlock == null ==>
                live == old(live) && spare == old(spare) && tailBlock == old(tailBlock) && Linked(startBlock, taken)
      ensures newBlock != null ==>
                && live == base + (taken + [newBlock]) && tailBlock == newBlock
                && Nth(taken + [newBlock], 0) == (if first == null then newBlock else first)
                && Linked(startBlock, taken + [newBlock])
                && (if old(spare) != [] then newBlock == old(spare)[0] && spare == old(spare)[1..]
                    else spare == [] && fresh(newBlock) && fresh(newBlock.elements))
      ensures forall e :: e in blockIndex.ring ==> e in old(blockIndex.ring) || fresh(e)
    {
      hide Holding, CanAdd, Footprint, Blocks, Apart;
      assert taken != [] ==> live[|live| - 1] == tailBlock;
      assert taken == [] && base != [] ==> live[|live| - 1] == base[|base| - 1];
      newBlock, left := AddBlock(start, memory, headIndex, headIndex, tailIndex, contents, need);
      if newBlock != null {
        HoldingApart(headIndex, headIndex, tailIndex, contents);
        Link(newBlock, startBlock, first, base, taken);
      }
    }

    /** Takes the blocks that `count` more elements need into the index, until an allocation fails. */
    method TakeBlocks(count: nat, memory: nat)
      returns (ok: bool, first: Block?<T>, endBlock: Block?<T>, ghost taken: seq<Block<T>>)
      requires Valid()
      modifies Footprint() - {this}, this`live, this`spare, this`tailBlock
      ensures Holding(headIndex, headIndex, tailIndex, contents) && live == old(live) + taken
      ensures ok <==> old(CanAdd(memory, Blocks(tailIndex + count) - Blocks(tailIndex)))
      ensures ok ==> |taken| == Blocks(tailIndex + count) - Blocks(tailIndex)
      ensures first == Nth(taken, 0) && Linked(old(tailBlock), taken)
      ensures endBlock == if taken == [] then old(tailBlock) else taken[|taken| - 1]
      ensures forall e :: e in blockIndex.ring ==> e in old(blockIndex.ring) || fresh(e)
      ensures forall b :: b in live || b in spare ==>
                b in old(live) || b in old(spare) || (fresh(b) && fresh(b.elements))
      ensures forall b :: b in old(spare) ==> b in spare || b in taken
    {
      hide Holding, CanAdd, Footprint, Blocks, Linked, Apart, Nth;
      InFootprint();
      NeededBlocks(tailIndex, count);
      LinkedNone(tailBlock);
      var startBlock := tailBlock;
      ghost var base := live;
      first, endBlock, taken := null, tailBlock, [];
      var left := memory;
      var blockBaseDiff := (tailIndex + count - 1) / BLOCK_SIZE * BLOCK_SIZE - (tailIndex - 1) / BLOCK_SIZE * BLOCK_SIZE;
      var currentTailIndex := (tailIndex - 1) / BLOCK_SIZE * BLOCK_SIZE;
      ghost var need := Blocks(tailIndex + count) - Blocks(tailIndex);
      while blockBaseDiff > 0
        invariant live == base + taken && |taken| <= need
        invariant Holding(headIndex, headIndex, tailIndex, contents)
        invariant currentTailIndex == (Blocks(tailIndex) + |taken| - 1) * BLOCK_SIZE
        invariant blockBaseDiff == (need - |taken|) * BLOCK_SIZE
        invariant CanAdd(left, need - |taken|) <==> old(CanAdd(memory, Blocks(tailIndex + count) - Blocks(tailIndex)))
        invariant first == Nth(taken, 0) && Linked(startBlock, taken)
        invariant endBlock == tailBlock == if taken == [] then startBlock else taken[|taken| - 1]
        invariant forall e :: e in blockIndex.ring ==> e in old(blockIndex.ring) || fresh(e)
        invariant forall b :: b in live || b in spare ==>
                    b in old(live) || b in old(spare) || (fresh(b) && fresh(b.elements))
        invariant forall b :: b in old(spare) ==> b in spare || b in taken
        decreases need - |taken|
      {
        blockBaseDiff := blockBaseDiff - BLOCK_SIZE;
        currentTailIndex := currentTailIndex + BLOCK_SIZE;
        var newBlock;
        newBlock, left := AddLinked(currentTailIndex, left, startBlock, first, base, taken, need - |taken|);
        if newBlock == null {
          return false, first, endBlock, taken;
        }
        endBlock := newBlock;
        first := if first == null then newBlock else first;
        taken := taken + [newBlock];
      }
      NothingToAdd(left);
      return true, first, endBlock, taken;
    }

    /** Takes all blocks that `count` more elements need into the index, or none. */
    method AllocateBlocks(count: nat, memory: nat)
      returns (ok: bool, first: Block?<T>, endBlock: Block?<T>, ghost taken: seq<Block<T>>)
      requires Valid()
      modifies Footprint() - {this}, this`live, this`spare, this`tailBlock
      ensures Holding(headIndex, headIndex, tailIndex, contents) && fresh(Footprint() - old(Footprint()))
      ensures ok <==> old(CanAdd(memory, Blocks(tailIndex + count) - Blocks(tailIndex)))
      ensures ok ==> live == old(live) + taken && |taken| == Blocks(tailIndex + count) - Blocks(tailIndex)
      ensures ok ==> first == Nth(taken, 0) && Linked(old(tailBlock), taken)
      ensures ok ==> endBlock == if taken == [] then old(tailBlock) else taken[|taken| - 1]
      ensures !ok ==> live == old(live) && tailBlock == old(tailBlock)
      ensures !ok ==> forall b :: b in old(spare) ==> b in spare
    {
      hide Holding, CanAdd, Footprint, Blocks, Linked, Apart, Nth;
      InFootprint();
      var startBlock := tailBlock;
      ghost var base := live;
      NeededBlocks(tailIndex, count);
      ok, first, endBlock, taken := TakeBlocks(count, memory);
      if !ok {
        LinkedChained(startBlock, taken);
        Undo(first, base, taken);
        tailBlock := startBlock;
      }
      FootprintGrew();
    }

    /** Constructs items in the tail block, from index `at` up to `stop`. */
    method FillBlock(items: seq<T>, at: nat, stop: nat, ghost k: nat)
      requires tailIndex <= at <= stop <= tailIndex + |items|
      requires Holding(headIndex, headIndex, at, contents + items[..at - tailIndex])
      requires at < stop ==> k < |live| && tailBlock == live[k] && at / BLOCK_SIZE == headIndex / BLOCK_SIZE + k
      requires stop <= (at / BLOCK_SIZE + 1) * BLOCK_SIZE
      modifies if at < stop then {tailBlock.elements} else {}
      ensures Holding(headIndex, headIndex, stop, contents + items[..stop - tailIndex])
    {
      hide Holding;
      var current := at;
      while current != stop
        invariant at <= current <= stop
        invariant Holding(headIndex, headIndex, current, contents + items[..current - tailIndex])
      {
        ghost var done := contents + items[..current - tailIndex];
        Construct(current, items[current - tailIndex], k, headIndex, headIndex, done);
        assert done + [items[current - tailIndex]] == contents + items[..current - tailIndex + 1];
        current := current + 1;
      }
    }

    /** Along the chain lie the blocks in the order of the index; only the last is the end. */
    lemma LinkedNext(start: Block?<T>, base: seq<Block<T>>, taken: seq<Block<T>>, k: nat)
      requires Linked(start, taken) && Apart(base + taken) && k < |base + taken|
      requires tailIndex % BLOCK_SIZE != 0 ==> base != [] && start == base[|base| - 1]
      requires if tailIndex % BLOCK_SIZE != 0 then |base| <= k + 1 else |base| <= k
      ensures var all := base + taken;
              && (k < |all| - 1 ==> all[k].next == all[k + 1])
              && (all[k] == all[|all| - 1] ==> k == |all| - 1)
    {
    }

    /** What holds whenever a block is about to be filled. */
    ghost predicate Filling(items: seq<T>, at: nat, k: nat, startBlock: Block?<T>, base: seq<Block<T>>, taken: seq<Block<T>>)
      reads this, The(startBlock)`next, taken`next
    {
      && tailIndex <= at < tailIndex + |items|
      && live == base + taken && k < |live| && tailBlock == live[k]
      && at / BLOCK_SIZE == headIndex / BLOCK_SIZE + k && Linked(startBlock, taken)
      && (tailIndex % BLOCK_SIZE != 0 ==> base != [] && startBlock == base[|base| - 1])
      && (if tailIndex % BLOCK_SIZE != 0 then |base| <= k + 1 else |base| <= k)
      && |live| == Blocks(tailIndex + |items|) - headIndex / BLOCK_SIZE
    }

    /** The same, with what the chain then says about where to go on. */
    method FillLinked(items: seq<T>, at: nat, stop: nat, ghost k: nat, ghost startBlock: Block?<T>,
                      ghost base: seq<Block<T>>, ghost taken: seq<Block<T>>)
      requires Filling(items, at, k, startBlock, base, taken)
      requires Holding(headIndex, headIndex, at, contents + items[..at - tailIndex])
      requires stop == Min(tailIndex + |items|, at / BLOCK_SIZE * BLOCK_SIZE + BLOCK_SIZE)
      modifies tailBlock.elements
      ensures at < stop <= tailIndex + |items|
      ensures Holding(headIndex, headIndex, stop, contents + items[..stop - tailIndex])
      ensures tailBlock == live[|live| - 1] ==> stop == tailIndex + |items|
      ensures tailBlock != live[|live| - 1] ==>
                && tailBlock.next != null && k + 1 < |live| && tailBlock.next == live[k + 1]
                && stop < tailIndex + |items| && stop / BLOCK_SIZE == headIndex / BLOCK_SIZE + k + 1
      ensures Linked(startBlock, taken)
    {
      hide Holding, Apart, Blocks;
      FillRange(at, tailIndex, |items|);
      FillBlock(items, at, stop, k);
      HoldingApart(headIndex, headIndex, stop, contents + items[..stop - tailIndex]);
      LinkedNext(startBlock, base, taken, k);
    }

    /** The tail block is the one to fill from index `at`, if there is anything to fill. */
    ghost predicate Ready(items: seq<T>, at: nat, k: nat, startBlock: Block?<T>, endBlock: Block?<T>,
                          base: seq<Block<T>>, taken: seq<Block<T>>)
      reads this, The(startBlock)`next, taken`next
    {
      if items == [] then at == tailIndex && tailBlock == endBlock
      else Filling(items, at, k, startBlock, base, taken) && live != [] && endBlock == live[|live| - 1]
    }

    /** One turn of the loop over the blocks. */
    method FillTurn(items: seq<T>, at: nat, endBlock: Block?<T>, ghost k: nat, ghost startBlock: Block?<T>,
                    ghost base: seq<Block<T>>, ghost taken: seq<Block<T>>)
      returns (stop: nat, more: bool)
      requires Ready(items, at, k, startBlock, endBlock, base, taken) && tailIndex <= at <= tailIndex + |items|
      requires Holding(headIndex, headIndex, at, contents + items[..at - tailIndex])
      modifies this`tailBlock, if items == [] then {} else set b | b in live :: b.elements
      ensures at <= stop <= tailIndex + |items|
      ensures Holding(headIndex, headIndex, stop, contents + items[..stop - tailIndex])
      ensures more ==> at < stop && Ready(items, stop, k + 1, startBlock, endBlock, base, taken)
      ensures !more ==> stop == tailIndex + |items| && tailBlock == endBlock
    {
      hide Holding, Blocks, Linked, Nth, Chained;
      stop := at / BLOCK_SIZE * BLOCK_SIZE + BLOCK_SIZE;
      stop := if tailIndex + |items| < stop then tailIndex + |items| else stop;
      if items != [] {
        FillLinked(items, at, stop, k, startBlock, base, taken);
      }
      more := tailBlock != endBlock;
      if more {
        tailBlock := tailBlock.next;
      }
    }

    /** Constructs all items, block by block along the chain. */
    method Fill(items: seq<T>, startBlock: Block?<T>, first: Block?<T>, endBlock: Block?<T>,
                ghost base: seq<Block<T>>, ghost taken: seq<Block<T>>)
      requires Holding(headIndex, headIndex, tailIndex, contents) && live == base + taken
      requires headIndex <= tailIndex && |base| == Blocks(tailIndex) - headIndex / BLOCK_SIZE
      requires |taken| == Blocks(tailIndex + |items|) - Blocks(tailIndex)
      requires Linked(startBlock, taken) && first == Nth(taken, 0)
      requires tailIndex % BLOCK_SIZE != 0 ==> base != [] && startBlock == base[|base| - 1]
      requires endBlock == if taken == [] then startBlock else taken[|taken| - 1]
      modifies this`tailBlock, set b | b in live :: b.elements
      ensures Holding(headIndex, headIndex, tailIndex + |items|, contents + items) && tailBlock == endBlock
    {
      hide Holding, Ready;
      tailBlock := startBlock;
      if tailIndex % BLOCK_SIZE == 0 && first != null {
        tailBlock := first;
      }
      ghost var k: nat := tailIndex / BLOCK_SIZE - headIndex / BLOCK_SIZE;
      StartsReady(items, k, startBlock, first, endBlock, base, taken);
      assert contents + items[..0] == contents && items[..|items|] == items;
      var current, more := tailIndex, true;
      while more
        invariant tailIndex <= current <= tailIndex + |items|
        invariant Holding(headIndex, headIndex, current, contents + items[..current - tailIndex])
        invariant if more then Ready(items, current, k, startBlock, endBlock, base, taken)
                  else current == tailIndex + |items| && tailBlock == endBlock
        decreases tailIndex + |items| - current, more
      {
        current, more := FillTurn(items, current, endBlock, k, startBlock, base, taken);
        k := k + 1;
      }
    }

    lemma StartsReady(items: seq<T>, k: nat, startBlock: Block?<T>, first: Block?<T>, endBlock: Block?<T>,
                      base: seq<Block<T>>, taken: seq<Block<T>>)
      requires live == base + taken && k == tailIndex / BLOCK_SIZE - headIndex / BLOCK_SIZE
      requires headIndex <= tailIndex && |base| == Blocks(tailIndex) - headIndex / BLOCK_SIZE
      requires |taken| == Blocks(tailIndex + |items|) - Blocks(tailIndex)
      requires Linked(startBlock, taken) && first == Nth(taken, 0)
      requires tailIndex % BLOCK_SIZE != 0 ==> base != [] && startBlock == base[|base| - 1]
      requires endBlock == if taken == [] then startBlock else taken[|taken| - 1]
      requires tailBlock == if tailIndex % BLOCK_SIZE == 0 && first != null then first else startBlock
      ensures Ready(items, tailIndex, k, startBlock, endBlock, base, taken)
    {
      hide Blocks, Linked, Nth, Chained;
      FirstToFill(tailIndex, |items|, taken);
    }

    /** Constructs the items and then stores the tail. */
    method FillAndPublish(items: seq<T>, startBlock: Block?<T>, first: Block?<T>, endBlock: Block?<T>,
                          ghost base: seq<Block<T>>, ghost taken: seq<Block<T>>)
      requires Holding(headIndex, headIndex, tailIndex, contents) && live == base + taken
      requires headIndex + |contents| == tailIndex && dequeueOptimisticCount == headIndex + dequeueOvercommit
      requires |base| == Blocks(tailIndex) - headIndex / BLOCK_SIZE
      requires |taken| == Blocks(tailIndex + |items|) - Blocks(tailIndex)
      requires Linked(startBlock, taken) && first == Nth(taken, 0)
      requires tailIndex % BLOCK_SIZE != 0 ==> base != [] && startBlock == base[|base| - 1]
      requires endBlock == if taken == [] then startBlock else taken[|taken| - 1]
      modifies this`tailBlock, this`tailIndex, this`contents, set b | b in live :: b.elements
      ensures Valid() && contents == old(contents) + items
    {
      hide Holding, Blocks, Linked, Nth;
      Fill(items, startBlock, first, endBlock, base, taken);
      BlocksOver(headIndex, tailIndex + |items|);
      LastToFill(tailIndex, |items|, base, taken);
      tailIndex := tailIndex + |items|;
      contents := contents + items;
    }

    /** Appends all items in order, exactly if every block and every growth of the index that they
        need is to be had; else nothing has changed but what is in the pool. */
    method EnqueueBulk(items: seq<T>, memory: nat) returns (ok: bool)
      requires Valid()
      modifies Footprint()
      ensures Valid() && fresh(Footprint() - old(Footprint()))
      ensures ok <==> old(CanAdd(memory, Blocks(tailIndex + |items|) - Blocks(tailIndex)))
      ensures contents == (if ok then old(contents) + items else old(contents)) && headIndex == old(headIndex)
      ensures !ok ==> live == old(live) && tailBlock == old(tailBlock) && forall b :: b in old(spare) ==> b in spare
    {
      hide Holding, CanAdd, Footprint, Blocks, Linked, Nth;
      InFootprint();
      var startBlock := tailBlock;
      ghost var base := live;
      var first, endBlock; ghost var taken;
      NeededBlocks(tailIndex, |items|);
      ok, first, endBlock, taken := AllocateBlocks(|items|, memory);
      if !ok {
        return;
      }
      InFootprint();
      FillAndPublish(items, startBlock, first, endBlock, base, taken);
    }
  }
}
