/** The block index of an implicit producer as the object it is in memory: entries, the circular
    array of pointers to them, and the doubling copy. Used by one thread at a time; readers of a
    superseded index are what BlockQueue is about. */
module BlockIndexes {
  import opened BlockQueue
  import opened Modular

  class Block<T> {
    const elements: array<Option<T>>          // None is raw storage
    var next: Block?<T>
    var elementsCompletelyDequeued: nat

    constructor ()
      ensures fresh(elements) && elements.Length == BLOCK_SIZE
      ensures forall j :: 0 <= j < BLOCK_SIZE ==> elements[j] == None
    {
      elements := new Option<T>[BLOCK_SIZE](_ => None);
      next := null;
      elementsCompletelyDequeued := 0;
    }

    /** Counts elements moved out; true when they were the last. */
    method SetManyEmpty(count: nat) returns (empty: bool)
      requires elementsCompletelyDequeued + count <= BLOCK_SIZE
      modifies this`elementsCompletelyDequeued
      ensures elementsCompletelyDequeued == old(elementsCompletelyDequeued) + count
      ensures empty <==> elementsCompletelyDequeued == BLOCK_SIZE
    {
      var prevVal := elementsCompletelyDequeued;
      elementsCompletelyDequeued := prevVal + count;
      return prevVal + count == BLOCK_SIZE;
    }
  }

  class BlockIndexEntry<T> {
    var key: nat
    var value: Block?<T>

    /** Only the key is initialised; the value is whatever the memory held. */
    constructor ()
      ensures key == INVALID_BLOCK_BASE
    {
      key := INVALID_BLOCK_BASE;
      var junk: Block?<T> := *;
      value := junk;
    }
  }

  /** What an entry holds. */
  datatype Slot<T> = Slot(key: nat, value: Block?<T>) {
    /** It may be given to a new block. */
    ghost predicate Usable() {
      key == INVALID_BLOCK_BASE || value == null
    }
  }

  ghost function View<T>(ring: seq<BlockIndexEntry<T>>): (v: seq<Slot<T>>)
    reads ring
    ensures |v| == |ring|
  {
    seq(|ring|, j requires 0 <= j < |ring| reads ring => Slot(ring[j].key, ring[j].value))
  }

  ghost predicate Distinct<T>(ring: seq<BlockIndexEntry<T>>) {
    forall i, j :: 0 <= i < j < |ring| ==> ring[i] != ring[j]
  }

  /** The slots in circular order, ending at the tail. */
  ghost predicate Around<T>(ring: seq<BlockIndexEntry<T>>, slots: seq<BlockIndexEntry<T>>, tail: nat) {
    && |ring| == |slots|
    && (|ring| > 0 ==> tail < |ring|)
    && forall j :: 0 <= j < |ring| ==> ring[j] == slots[(tail + 1 + j) % |slots|]
  }

  lemma AroundAt<T>(ring: seq<BlockIndexEntry<T>>, slots: seq<BlockIndexEntry<T>>, tail: nat, j: nat)
    requires Around(ring, slots, tail) && j < |ring|
    ensures ring[j] == slots[(tail + 1 + j) % |slots|]
  {
  }

  lemma SameSize<T>(ring: seq<BlockIndexEntry<T>>, slots: seq<BlockIndexEntry<T>>, tail: nat)
    requires Around(ring, slots, tail)
    ensures |ring| == |slots| && (|ring| > 0 ==> tail < |ring|)
  {
  }

  class BlockIndex<T> {
    var index: array<BlockIndexEntry<T>>      // empty until the first allocation succeeds
    var tail: nat
    var nextCapacity: nat
    ghost var ring: seq<BlockIndexEntry<T>>   // the slots, oldest first, ending at the tail

    ghost predicate Valid()
      reads this, index
    {
      && Around(ring, index[..], tail)
      && nextCapacity == (if |ring| == 0 then INITIAL_INDEX_SIZE else 2 * |ring|)
      && Distinct(ring)
    }

    constructor ()
      ensures Valid() && ring == []
    {
      index := new BlockIndexEntry<T>[0];
      tail := 0;
      nextCapacity := INITIAL_INDEX_SIZE;
      ring := [];
    }

    /** The slots of the old index, oldest first, from the one after its tail round to the tail. */
    method CopySlots(slots: array<BlockIndexEntry<T>>)
      requires Valid() && slots != index && |ring| <= slots.Length
      modifies slots
      ensures slots[..|ring|] == ring
    {
      hide Around, Distinct;
      SameSize(ring, index[..], tail);
      if index.Length == 0 {
        return;
      }
      var i, prevPos := 0, tail;
      while i == 0 || prevPos != tail
        invariant i <= index.Length && prevPos < index.Length && prevPos == (tail + i) % index.Length
        invariant prevPos == tail <==> i == 0 || i == index.Length
        invariant slots[..i] == ring[..i]
        decreases index.Length - i
      {
        ModShift(tail + i, 1, index.Length);
        AroundOnce(tail, i + 1, index.Length);
        assert tail + i + 1 == tail + 1 + i;
        prevPos := (prevPos + 1) % index.Length;
        AroundAt(ring, index[..], tail, i);
        slots[i] := index[prevPos];
        i := i + 1;
      }
    }

    /** `new_block_index`: fresh entries in front of the old ring, as many as there were. */
    method NewBlockIndex(memory: nat) returns (ok: bool)
      requires Valid()
      modifies this
      ensures ok <==> memory > 0
      ensures !ok ==> unchanged(this)
      ensures ok ==> Valid() && Doubled(old(ring), ring)
      ensures ok ==> forall j :: 0 <= j < |ring| - |old(ring)| ==> fresh(ring[j]) && ring[j].key == INVALID_BLOCK_BASE
    {
      hide Around, Distinct;
      assert |ring| == index.Length by { SameSize(ring, index[..], tail); }
      if memory == 0 {
        return false;
      }
      var prevCapacity := index.Length;
      var entryCount := if prevCapacity == 0 then nextCapacity else prevCapacity;
      var first := new BlockIndexEntry<T>();    // stands for uninitialised pointers
      var slots := new BlockIndexEntry<T>[nextCapacity](_ => first);
      CopySlots(slots);
      ghost var added := AddEntries(slots, prevCapacity, entryCount);
      assert |added| == entryCount && |ring| == prevCapacity;
      assert slots[..] == ring + added;
      Halved(added + ring, slots[..], prevCapacity);
      DistinctTogether(added, ring);
      ring := added + ring;
      tail := (prevCapacity - 1) % nextCapacity;
      index := slots;
      nextCapacity := nextCapacity * 2;
      return true;
    }

    /** The oldest slot's entry if it is usable, else the first entry of a grown index. */
    method MakeRoom(memory: nat) returns (entry: BlockIndexEntry?<T>, left: nat)
      requires Valid()
      modifies this
      ensures Valid()
      ensures entry != null <==> old(ring) != [] && (old(View(ring)[0].Usable()) || memory > 0)
      ensures entry == null ==> unchanged(this) && left == memory
      ensures entry != null ==> ring != [] && entry == ring[0]
      ensures entry != null && old(View(ring)[0].Usable()) ==> unchanged(this) && left == memory
      ensures entry != null && !old(View(ring)[0].Usable()) ==>
                DoubledView(old(View(ring)), View(ring)) && left == memory - 1
      ensures forall e :: e in ring ==> e in old(ring) || fresh(e)
    {
      hide Around, Distinct;
      SameSize(ring, index[..], tail);
      if index.Length == 0 {
        return null, memory;
      }
      entry := Candidate();
      if entry.key == INVALID_BLOCK_BASE || entry.value == null {
        return entry, memory;
      }
      var ok := NewBlockIndex(memory);
      if !ok {
        return null, memory;
      }
      Outside(old(ring), ring);
      entry := Candidate();
      return entry, memory - 1;
    }

    /** `insert_block_index_entry`; `from` is what the ring held when the entry was taken. */
    method Insert(blockStartIndex: nat, memory: nat)
      returns (entry: BlockIndexEntry?<T>, left: nat, ghost from: seq<Slot<T>>)
      requires Valid()
      modifies this, ring
      ensures Valid()
      ensures entry != null <==> old(ring) != [] && (old(View(ring)[0].Usable()) || memory > 0)
      ensures entry == null ==> unchanged(this) && View(ring) == old(View(ring)) && left == memory
      ensures entry != null ==> Room(old(View(ring)), from)
      ensures entry != null ==> left == if old(View(ring)[0].Usable()) then memory else memory - 1
      ensures entry != null ==> |ring| == |from| > 0 && entry == ring[|ring| - 1]
      ensures entry != null ==> entry in old(ring) || fresh(entry)
      ensures entry != null ==> View(ring) == Turned(from[0 := from[0].(key := blockStartIndex)])
      ensures forall e :: e in ring ==> e in old(ring) || fresh(e)
    {
      hide Around, DoubledView, Distinct;
      entry, left := MakeRoom(memory);
      from := View(ring);
      if entry != null {
        assert entry in ring;
        SetKey(entry, blockStartIndex, 0);
        Advance();
      }
    }

    method Advance()
      requires Valid() && ring != []
      modifies this`tail, this`ring
      ensures Valid() && ring == Turned(old(ring)) && View(ring) == Turned(old(View(ring)))
    {
      hide Around, Distinct;
      SameSize(ring, index[..], tail);
      TurnedAround(ring, index[..], tail);
      tail := (tail + 1) % index.Length;
      ring := Turned(ring);
    }

    method SetKey(entry: BlockIndexEntry<T>, key: nat, ghost k: nat)
      requires Valid() && k < |ring| && entry == ring[k]
      modifies entry`key
      ensures Valid() && View(ring) == old(View(ring)[k := View(ring)[k].(key := key)])
    {
      entry.key := key;
    }

    method SetValue(entry: BlockIndexEntry<T>, value: Block?<T>, ghost k: nat)
      requires Valid() && k < |ring| && entry == ring[k]
      modifies entry`value
      ensures Valid() && View(ring) == old(View(ring)[k := View(ring)[k].(value := value)])
    {
      entry.value := value;
    }

    /** The entry in the slot after the tail. */
    method Candidate() returns (entry: BlockIndexEntry<T>)
      requires Valid() && ring != []
      ensures entry == ring[0]
    {
      entry := index[(tail + 1) % index.Length];
    }

    /** `rewind_block_index_tail`. */
    method Rewind()
      requires Valid() && ring != []
      modifies this`tail, this`ring
      ensures Valid() && ring == Back(old(ring)) && View(ring) == Back(old(View(ring)))
    {
      hide Around, Distinct;
      SameSize(ring, index[..], tail);
      TurnedBack(ring, index[..], tail);
      tail := (tail - 1) % index.Length;
      ring := Back(ring);
    }

    /** `get_block_index_index_for_index`: `offset` blocks on from the block in the tail slot. */
    method Find(i: nat, ghost offset: int) returns (slot: nat)
      requires Valid() && ring != [] && -|ring| < offset < |ring|
      requires i / BLOCK_SIZE * BLOCK_SIZE == ring[|ring| - 1].key + offset * BLOCK_SIZE
      ensures slot < index.Length && index[slot] == ring[Ahead(|ring|, offset)]
      ensures slot == (tail + 1 + Ahead(|ring|, offset)) % index.Length
    {
      hide Around, Distinct;
      SameSize(ring, index[..], tail);
      AroundAt(ring, index[..], tail, |ring| - 1);
      AroundOnce(tail, |ring|, |ring|);
      assert tail + 1 + (|ring| - 1) == tail + |ring|;
      var base := i / BLOCK_SIZE * BLOCK_SIZE;
      var tailBase := index[tail].key;
      var away := Quotient(base - tailBase, BLOCK_SIZE);
      assert away == offset;
      slot := (tail + away) % index.Length;
      AroundAt(ring, index[..], tail, Ahead(|ring|, offset));
      if offset <= 0 {
        ModSame(tail + 1 + Ahead(|ring|, offset), tail + away, 1, |ring|);
      }
    }
  }

  /** Fresh entries, with pointers to them in `slots` from position `from` on. */
  method AddEntries<T>(slots: array<BlockIndexEntry<T>>, from: nat, count: nat)
    returns (ghost added: seq<BlockIndexEntry<T>>)
    requires from + count == slots.Length
    modifies slots
    ensures slots[..] == old(slots[..from]) + added && |added| == count && Distinct(added)
    ensures forall j :: 0 <= j < count ==> fresh(added[j]) && added[j].key == INVALID_BLOCK_BASE
  {
    added := [];
    var i := 0;
    while i != count
      invariant i <= count && |added| == i
      invariant slots[..from + i] == old(slots[..from]) + added
      invariant forall j :: 0 <= j < i ==> fresh(added[j]) && added[j].key == INVALID_BLOCK_BASE
      invariant Distinct(added)
    {
      var e := new BlockIndexEntry<T>();
      slots[from + i] := e;
      assert slots[..from + i + 1] == slots[..from + i] + [e];
      added := added + [e];
      i := i + 1;
    }
  }

  lemma DistinctTogether<T>(a: seq<BlockIndexEntry<T>>, b: seq<BlockIndexEntry<T>>)
    requires Distinct(a) && Distinct(b) && forall i, j :: 0 <= i < |a| && 0 <= j < |b| ==> a[i] != b[j]
    ensures Distinct(a + b)
  {
  }

  /** With the tail on the last old slot, the ring starts with the new ones. */
  lemma Halved<T>(ring: seq<BlockIndexEntry<T>>, slots: seq<BlockIndexEntry<T>>, copied: nat)
    requires |ring| == |slots| > copied && ring == slots[copied..] + slots[..copied]
    ensures Around(ring, slots, (copied - 1) % |slots|)
  {
    var n := |slots|;
    forall j | 0 <= j < n
      ensures ring[j] == slots[((copied - 1) % n + 1 + j) % n]
    {
      ModShift(copied - 1, 1 + j, n);
      if copied + j < n {
        ModSmall(copied + j, n);
      } else {
        ModSame(copied + j, copied + j - n, 1, n);
        ModSmall(copied + j - n, n);
      }
    }
  }

  /** The place in a ring of `n` that lies `offset` ahead of its last. */
  ghost function Ahead(n: nat, offset: int): (p: nat)
    requires 0 < offset + n && offset < n
    ensures p < n
  {
    if offset <= 0 then n - 1 + offset else offset - 1
  }

  ghost function Turned<E>(ring: seq<E>): seq<E>
    requires ring != []
  {
    ring[1..] + [ring[0]]
  }

  ghost function Back<E>(ring: seq<E>): seq<E>
    requires ring != []
  {
    [ring[|ring| - 1]] + ring[..|ring| - 1]
  }

  lemma TurnedAround<T>(ring: seq<BlockIndexEntry<T>>, slots: seq<BlockIndexEntry<T>>, tail: nat)
    requires Around(ring, slots, tail) && ring != [] && Distinct(ring)
    ensures Around(Turned(ring), slots, (tail + 1) % |slots|) && Distinct(Turned(ring))
  {
    var n, t := |ring|, (tail + 1) % |ring|;
    SameSize(ring, slots, tail);
    TurnedDistinct(ring);
    hide Distinct;
    forall j | 0 <= j < n
      ensures Turned(ring)[j] == slots[(t + 1 + j) % n]
    {
      TurnedAt(ring, slots, tail, j);
    }
  }

  lemma TurnedDistinct<T>(ring: seq<BlockIndexEntry<T>>)
    requires ring != [] && Distinct(ring)
    ensures Distinct(Turned(ring)) && Distinct(Back(ring))
  {
  }

  lemma TurnedAt<T>(ring: seq<BlockIndexEntry<T>>, slots: seq<BlockIndexEntry<T>>, tail: nat, j: nat)
    requires Around(ring, slots, tail) && j < |ring|
    ensures Turned(ring)[j] == slots[((tail + 1) % |slots| + 1 + j) % |slots|]
  {
    hide Around;
    SameSize(ring, slots, tail);
    var n := |ring|;
    ModShift(tail + 1, 1 + j, n);
    if j == n - 1 {
      ModSame(tail + 2 + j, tail + 1, 1, n);
      AroundAt(ring, slots, tail, 0);
    } else {
      AroundAt(ring, slots, tail, j + 1);
    }
    assert tail + 1 + (1 + j) == tail + 1 + (j + 1);
  }

  lemma BackAt<T>(ring: seq<BlockIndexEntry<T>>, slots: seq<BlockIndexEntry<T>>, tail: nat, j: nat)
    requires Around(ring, slots, tail) && j < |ring|
    ensures Back(ring)[j] == slots[((tail - 1) % |slots| + 1 + j) % |slots|]
  {
    hide Around;
    SameSize(ring, slots, tail);
    var n := |ring|;
    ModShift(tail - 1, 1 + j, n);
    if j == 0 {
      ModSame(tail + n, tail, 1, n);
      AroundAt(ring, slots, tail, n - 1);
    } else {
      AroundAt(ring, slots, tail, j - 1);
    }
    assert tail + 1 + (n - 1) == tail + n && tail - 1 + (1 + j) == tail + j;
  }

  lemma TurnedBack<T>(ring: seq<BlockIndexEntry<T>>, slots: seq<BlockIndexEntry<T>>, tail: nat)
    requires Around(ring, slots, tail) && ring != [] && Distinct(ring)
    ensures Around(Back(ring), slots, (tail - 1) % |slots|) && Distinct(Back(ring))
  {
    var n, t := |ring|, (tail - 1) % |ring|;
    SameSize(ring, slots, tail);
    TurnedDistinct(ring);
    hide Distinct;
    forall j | 0 <= j < n
      ensures Back(ring)[j] == slots[(t + 1 + j) % n]
    {
      BackAt(ring, slots, tail, j);
    }
  }

  ghost predicate Doubled<T>(was: seq<BlockIndexEntry<T>>, now: seq<BlockIndexEntry<T>>) {
    && |now| == (if |was| == 0 then INITIAL_INDEX_SIZE else 2 * |was|)
    && now[|now| - |was|..] == was
  }

  /** The old slots, behind as many that are usable. */
  ghost predicate DoubledView<T>(was: seq<Slot<T>>, now: seq<Slot<T>>) {
    && |now| == 2 * |was|
    && now[|was|..] == was
    && forall j :: 0 <= j < |was| ==> now[j].key == INVALID_BLOCK_BASE
  }

  /** The slots that an insertion works on: the old ones, or the doubled index. */
  ghost predicate Room<T>(was: seq<Slot<T>>, from: seq<Slot<T>>) {
    from != [] && was != [] && if was[0].Usable() then from == was else DoubledView(was, from)
  }

  lemma Outside<T>(was: seq<BlockIndexEntry<T>>, now: seq<BlockIndexEntry<T>>)
    requires |was| <= |now| && now[|now| - |was|..] == was
    ensures forall e :: e in now ==> e in was || exists j :: 0 <= j < |now| - |was| && now[j] == e
  {
    forall e | e in now
      ensures e in was || exists j :: 0 <= j < |now| - |was| && now[j] == e
    {
      var j :| 0 <= j < |now| && now[j] == e;
      assert j >= |now| - |was| ==> was[j - (|now| - |was|)] == e;
    }
  }

  /** Only a whole round brings a ring back to where it was. */
  lemma AroundOnce(t: nat, i: nat, n: nat)
    requires t < n && i <= n
    ensures (t + i) % n == t <==> i == 0 || i == n
  {
    if t + i < n { ModSmall(t + i, n); } else { ModSame(t + i, t + i - n, 1, n); ModSmall(t + i - n, n); }
  }
}
