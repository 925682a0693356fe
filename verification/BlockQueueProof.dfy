/** The invariant of BlockQueue, and that every step of the producer and of every consumer
    keeps it. */
module BlockQueueProof {
  import opened BlockQueue
  import opened Modular

  // ---------------------------------------------------------------- slots

  /** The slot of the block numbered `q` in a ring of `n` slots in which block `c` has slot 0. */
  ghost function Slot(q: int, c: int, n: nat): (slot: nat)
    requires n > 0
    ensures slot < n
  {
    (q - c) % n
  }

  lemma SlotShift(q: int, c: int, n: nat, big: nat)
    requires n > 0 && big % n == 0
    ensures Slot(q + big, c, n) == Slot(q, c, n)
  {
    assert big == (big / n) * n;
    ModSame(q + big - c, q - c, big / n, n);
  }

  lemma SlotMoves(q: int, c: int, n: nat, d: int)
    requires n > 0
    ensures (Slot(q, c, n) + d) % n == Slot(q + d, c, n)
  {
    ModShift(q - c, d, n);
    assert q - c + d == q + d - c;
  }

  lemma SlotInjective(q: int, p: int, c: int, n: nat)
    requires n > 0 && q <= p < q + n && Slot(q, c, n) == Slot(p, c, n)
    ensures q == p
  {
    ModInjective(q - c, p - c, n);
  }

  lemma SlotFresh(i: nat, lo: nat, n: nat)
    requires i < n
    ensures Slot(lo + i, lo, n) == i
  {
  }

  /** Reading any slot of a header and the key stored there leads to the same slot for a block. */
  lemma SlotForBlock(i: nat, tl: nat, q: nat, c: int, n: nat)
    requires n > 0 && tl == Slot(q, c, n)
    ensures SlotFor(i, tl, q * BLOCK_SIZE, n) == Slot(i / BLOCK_SIZE, c, n)
  {
    var b := i / BLOCK_SIZE;
    assert Quotient(b * BLOCK_SIZE - q * BLOCK_SIZE, BLOCK_SIZE) == b - q;
    SlotMoves(q, c, n, b - q);
  }

  lemma DoubleDivides(n: nat, d: nat)
    requires d > 0 && n % d == 0
    ensures (n + n) % d == 0
  {
    ModSame(n + n, n, n / d, d);
  }

  // ---------------------------------------------------------------- the witness

  /** Where a block is. */
  datatype Place = Free | Live(b: nat) | Draining(b: nat, t: Tid) | Got(j: nat) | Fresh | Dropping(t: Tid)

  /** The ring: header `h` keeps block number c[h] in slot 0; the current header holds the keys of
      the blocks lo..hi, and its tail is at block m - 1. */
  datatype Ring = Ring(c: seq<int>, lo: nat, m: nat, hi: nat)

  /** `phys` maps the number of every block not yet released to the block itself; `done` holds
      the elements counted as completely dequeued. */
  datatype Aux = Aux(ring: Ring, phys: map<nat, BlockId>, place: map<BlockId, Place>, done: set<nat>)

  // ---------------------------------------------------------------- keys

  ghost predicate Shape(index: seq<seq<EntryId>>, keys: seq<nat>, r: Ring) {
    && 0 < |index| == |r.c|
    && (forall h :: 0 <= h < |index| ==> |index[h]| > 0 && |index[|index| - 1]| % |index[h]| == 0)
    && (forall h, i :: 0 <= h < |index| && 0 <= i < |index[h]| ==> index[h][i] < |keys|)
    && r.lo <= r.m <= r.hi <= r.lo + |index[|index| - 1]|
  }

  ghost function EntryOf(index: seq<seq<EntryId>>, r: Ring, q: int): EntryId
    requires 0 < |index| == |r.c| && |index[|index| - 1]| > 0
  {
    index[|index| - 1][Slot(q, r.c[|index| - 1], |index[|index| - 1]|)]
  }

  /** In every header, current or superseded, a valid key stands in the slot of its block. */
  ghost predicate KeyInSlot(key: nat, slot: nat, c: int, n: nat)
    requires n > 0
  {
    key != INVALID_BLOCK_BASE ==> key % BLOCK_SIZE == 0 && Slot(key / BLOCK_SIZE, c, n) == slot
  }

  ghost predicate Keyed(index: seq<seq<EntryId>>, keys: seq<nat>, r: Ring) {
    && Shape(index, keys, r)
    && (forall h, i :: 0 <= h < |index| && 0 <= i < |index[h]| ==>
          KeyInSlot(keys[index[h][i]], i, r.c[h], |index[h]|))
    && (forall h, i :: 0 <= h < |index| - 1 && 0 <= i < |index[h]| ==> keys[index[h][i]] != INVALID_BLOCK_BASE)
  }

  /** The current header: distinct entries, the keys lo..hi in them and no other key. */
  ghost predicate Ringed(index: seq<seq<EntryId>>, keys: seq<nat>, r: Ring) {
    && Shape(index, keys, r)
    && var slots := index[|index| - 1];
    && (forall i, j :: 0 <= i < |slots| && 0 <= j < |slots| && slots[i] == slots[j] ==> i == j)
    && (forall q :: r.lo <= q < r.hi ==> keys[EntryOf(index, r, q)] == q * BLOCK_SIZE)
    && (forall i :: 0 <= i < |slots| && keys[slots[i]] != INVALID_BLOCK_BASE ==>
          r.lo <= keys[slots[i]] / BLOCK_SIZE < r.hi)
  }

  ghost predicate TailAt(index: seq<seq<EntryId>>, tails: seq<nat>, r: Ring) {
    && 0 < |index| == |r.c| == |tails|
    && (forall h :: 0 <= h < |index| ==> tails[h] < |index[h]|)
    && tails[|index| - 1] == Slot(r.m - 1, r.c[|index| - 1], |index[|index| - 1]|)
  }

  /** A valid key in the current header says whose entry it is. */
  lemma KeyedEntry(index: seq<seq<EntryId>>, keys: seq<nat>, r: Ring, i: nat)
    requires Keyed(index, keys, r) && Ringed(index, keys, r) && i < |index[|index| - 1]|
    requires keys[index[|index| - 1][i]] != INVALID_BLOCK_BASE
    ensures var l := |index| - 1; var e := index[l][i]; var q := keys[e] / BLOCK_SIZE;
            && keys[e] == q * BLOCK_SIZE && r.lo <= q < r.hi
            && i == Slot(q, r.c[l], |index[l]|) && e == EntryOf(index, r, q)
  {
    hide Slot;
    var l := |index| - 1;
    assert KeyInSlot(keys[index[l][i]], i, r.c[l], |index[l]|);
  }

  // ------------------------------------------------ storing a key

  lemma EntryInRange(index: seq<seq<EntryId>>, keys: seq<nat>, r: Ring, q: int)
    requires Shape(index, keys, r)
    ensures EntryOf(index, r, q) < |keys|
  {
  }

  lemma EntryDistinct(index: seq<seq<EntryId>>, keys: seq<nat>, r: Ring, q: int, p: int)
    requires Ringed(index, keys, r) && EntryOf(index, r, q) == EntryOf(index, r, p)
    requires q <= p < q + |index[|index| - 1]|
    ensures q == p
  {
    var l := |index| - 1;
    var n := |index[l]|;
    var i, j := Slot(q, r.c[l], n), Slot(p, r.c[l], n);
    assert index[l][i] == index[l][j];
    SlotInjective(q, p, r.c[l], n);
  }

  /** The ring after the key of block `m` has been stored: it may take the slot of block lo. */
  ghost function Pushed(r: Ring, n: nat): Ring {
    if r.m < r.hi then r
    else r.(lo := if r.hi == r.lo + n then r.lo + 1 else r.lo, hi := r.hi + 1)
  }

  lemma PushKeyed(index: seq<seq<EntryId>>, keys: seq<nat>, r: Ring)
    requires Keyed(index, keys, r) && Ringed(index, keys, r)
    ensures EntryOf(index, r, r.m) < |keys|
    ensures Keyed(index, keys[EntryOf(index, r, r.m) := r.m * BLOCK_SIZE], Pushed(r, |index[|index| - 1]|))
  {
    var l := |index| - 1;
    var n := |index[l]|;
    var e := EntryOf(index, r, r.m);
    var keys' := keys[e := r.m * BLOCK_SIZE];
    forall h, i | 0 <= h < |index| && 0 <= i < |index[h]|
      ensures KeyInSlot(keys'[index[h][i]], i, r.c[h], |index[h]|)
    {
      assert KeyInSlot(keys[index[h][i]], i, r.c[h], |index[h]|);
      if index[h][i] == e { PushKeyInSlot(index, keys, r, h, i); }
    }
  }

  lemma PushKeyInSlot(index: seq<seq<EntryId>>, keys: seq<nat>, r: Ring, h: nat, i: nat)
    requires Keyed(index, keys, r) && Ringed(index, keys, r)
    requires h < |index| && i < |index[h]| && index[h][i] == EntryOf(index, r, r.m)
    ensures KeyInSlot(r.m * BLOCK_SIZE, i, r.c[h], |index[h]|)
  {
    hide Slot;
    var l := |index| - 1;
    var n := |index[l]|;
    var j := Slot(r.m, r.c[l], n);
    if h < l {
      // a superseded header: the old key stood in this slot, and the new one differs by 0 or n
      var key := keys[index[h][i]];
      assert key != INVALID_BLOCK_BASE;
      assert KeyInSlot(key, i, r.c[h], |index[h]|) && KeyInSlot(keys[index[l][j]], j, r.c[l], n);
      OldKey(r.m, key / BLOCK_SIZE, r, r.c[l], n);
      SlotShift(key / BLOCK_SIZE, r.c[h], |index[h]|, n);
    } else {
      assert index[l][i] == index[l][j];
    }
  }

  lemma OldKey(m: nat, q: nat, r: Ring, c: int, n: nat)
    requires n > 0 && r.lo <= q < r.hi <= r.lo + n && m == r.m && r.lo <= m <= r.hi
    requires Slot(q, c, n) == Slot(m, c, n)
    ensures m == q || (m == q + n && m == r.hi && q == r.lo)
  {
    if q <= m < q + n { SlotInjective(q, m, c, n); }
    if m <= q < m + n { SlotInjective(m, q, c, n); }
  }

  lemma PushRinged(index: seq<seq<EntryId>>, keys: seq<nat>, r: Ring)
    requires Keyed(index, keys, r) && Ringed(index, keys, r)
    ensures EntryOf(index, r, r.m) < |keys|
    ensures Ringed(index, keys[EntryOf(index, r, r.m) := r.m * BLOCK_SIZE], Pushed(r, |index[|index| - 1]|))
  {
    var l := |index| - 1;
    var n := |index[l]|;
    var e := EntryOf(index, r, r.m);
    var r' := Pushed(r, n);
    var keys' := keys[e := r.m * BLOCK_SIZE];
    forall q | r'.lo <= q < r'.hi ensures keys'[EntryOf(index, r', q)] == q * BLOCK_SIZE {
      assert EntryOf(index, r', q) == EntryOf(index, r, q);
      if EntryOf(index, r, q) == e {
        if q <= r.m { EntryDistinct(index, keys, r, q, r.m); } else { EntryDistinct(index, keys, r, r.m, q); }
      }
    }
    forall i | 0 <= i < n && keys'[index[l][i]] != INVALID_BLOCK_BASE
      ensures r'.lo <= keys'[index[l][i]] / BLOCK_SIZE < r'.hi
    {
      if index[l][i] != e {
        var q := keys[index[l][i]] / BLOCK_SIZE;
        assert KeyInSlot(keys[index[l][i]], i, r.c[l], n);
        if r.m == r.hi && q == r.lo && r.hi == r.lo + n {
          SlotShift(q, r.c[l], n, n);
        }
      }
    }
  }

  /** The slot checked before an insertion holds the key of block m, or lo, or none. */
  lemma NextSlot(index: seq<seq<EntryId>>, keys: seq<nat>, tails: seq<nat>, r: Ring)
    requires Keyed(index, keys, r) && Ringed(index, keys, r) && TailAt(index, tails, r)
    ensures (tails[|index| - 1] + 1) % |index[|index| - 1]| == Slot(r.m, r.c[|index| - 1], |index[|index| - 1]|)
    ensures (tails[|index| - 1] - 1) % |index[|index| - 1]| == Slot(r.m - 2, r.c[|index| - 1], |index[|index| - 1]|)
    ensures r.m == r.hi && r.hi < r.lo + |index[|index| - 1]| ==> keys[EntryOf(index, r, r.m)] == INVALID_BLOCK_BASE
    ensures r.m == r.hi == r.lo + |index[|index| - 1]| ==> EntryOf(index, r, r.m) == EntryOf(index, r, r.lo)
    ensures r.m < r.hi ==> keys[EntryOf(index, r, r.m)] == r.m * BLOCK_SIZE
  {
    var l := |index| - 1;
    var n := |index[l]|;
    SlotMoves(r.m - 1, r.c[l], n, 1);
    SlotMoves(r.m - 1, r.c[l], n, -1);
    if r.m == r.hi == r.lo + n { SlotShift(r.lo, r.c[l], n, n); }
    if r.m == r.hi < r.lo + n && keys[EntryOf(index, r, r.m)] != INVALID_BLOCK_BASE {
      var j := Slot(r.m, r.c[l], n);
      assert KeyInSlot(keys[index[l][j]], j, r.c[l], n);
      OldKey(r.m, keys[index[l][j]] / BLOCK_SIZE, r, r.c[l], n);
    }
  }

  // ------------------------------------------------ growing the index

  lemma SlotOnto(i: nat, lo: int, c: int, n: nat) returns (q: int)
    requires i < n
    ensures lo <= q < lo + n && Slot(q, c, n) == i
  {
    hide Slot;
    var first := Slot(lo, c, n);
    var d := if i >= first then i - first else i - first + n;
    q := lo + d;
    SlotMoves(lo, c, n, d);
    ModSame(first + d, i, if i >= first then 0 else 1, n);
    ModSmall(i, n);
  }

  ghost function GrownRing(r: Ring): Ring {
    r.(c := r.c + [r.lo])
  }

  ghost function GrownIndex(index: seq<seq<EntryId>>, tails: seq<nat>, count: nat): seq<seq<EntryId>>
    requires 0 < |index| == |tails| && |index[|index| - 1]| > 0
  {
    var h := |index| - 1;
    var n := |index[h]|;
    index + [seq(n, i requires 0 <= i < n => index[h][(tails[h] + 1 + i) % n])
             + seq(n, i requires 0 <= i < n => count + i)]
  }

  /** When the index is full it holds the last n blocks, and the copy puts them in order. */
  ghost predicate Full(index: seq<seq<EntryId>>, keys: seq<nat>, tails: seq<nat>, r: Ring) {
    && Keyed(index, keys, r) && Ringed(index, keys, r) && TailAt(index, tails, r)
    && r.m == r.hi == r.lo + |index[|index| - 1]|
  }

  lemma CopiedEntry(index: seq<seq<EntryId>>, keys: seq<nat>, tails: seq<nat>, r: Ring, i: nat)
    requires Full(index, keys, tails, r) && i < |index[|index| - 1]|
    ensures GrownIndex(index, tails, |keys|)[|index|][i] == EntryOf(index, r, r.lo + i)
    ensures Slot(r.lo + i, r.lo, |index[|index| - 1]| + |index[|index| - 1]|) == i
    ensures EntryOf(GrownIndex(index, tails, |keys|), GrownRing(r), r.lo + i) == EntryOf(index, r, r.lo + i)
  {
    var l := |index| - 1;
    var n := |index[l]|;
    SlotMoves(r.m - 1, r.c[l], n, 1 + i);
    SlotShift(r.lo + i, r.c[l], n, n);
    SlotFresh(i, r.lo, n + n);
    assert tails[l] + 1 + i == Slot(r.m - 1, r.c[l], n) + (1 + i);
    assert r.m - 1 + (1 + i) == r.lo + i + n;
  }

  lemma GrownSizes(index: seq<seq<EntryId>>, keys: seq<nat>, tails: seq<nat>, r: Ring)
    requires Full(index, keys, tails, r)
    ensures var index' := GrownIndex(index, tails, |keys|);
            && |index'| == |index| + 1 && |index'[|index|]| == |index[|index| - 1]| + |index[|index| - 1]|
            && forall h :: 0 <= h < |index'| ==> |index'[h]| > 0 && |index'[|index|]| % |index'[h]| == 0
  {
    hide Full, GrownIndex;
    ShapeSizes(index, keys, tails, r);
    GrownOld(index, tails, |keys|);
    var n, index' := |index[|index| - 1]|, GrownIndex(index, tails, |keys|);
    forall h | 0 <= h < |index'|
      ensures |index'[h]| > 0 && (n + n) % |index'[h]| == 0
    {
      if h < |index| { DoubleDivides(n, |index[h]|); } else { DoubleDivides(0, n + n); ModSame(n + n, 0, 1, n + n); }
    }
  }

  lemma ShapeSizes(index: seq<seq<EntryId>>, keys: seq<nat>, tails: seq<nat>, r: Ring)
    requires Full(index, keys, tails, r)
    ensures 0 < |index| == |r.c| == |tails|
    ensures forall h :: 0 <= h < |index| ==> |index[h]| > 0 && |index[|index| - 1]| % |index[h]| == 0
    ensures forall h, i :: 0 <= h < |index| && 0 <= i < |index[h]| ==> index[h][i] < |keys|
    ensures forall h :: 0 <= h < |index| ==> tails[h] < |index[h]|
    ensures r.m == r.hi == r.lo + |index[|index| - 1]|
  {
    hide Slot, KeyInSlot;
  }

  lemma GrownEntries(index: seq<seq<EntryId>>, keys: seq<nat>, tails: seq<nat>, r: Ring)
    requires Full(index, keys, tails, r)
    ensures var index' := GrownIndex(index, tails, |keys|);
            forall h, i :: 0 <= h < |index'| && 0 <= i < |index'[h]| ==> index'[h][i] < |keys| + |index[|index| - 1]|
  {
    hide Full, GrownIndex;
    ShapeSizes(index, keys, tails, r);
    GrownOld(index, tails, |keys|);
    var n, index' := |index[|index| - 1]|, GrownIndex(index, tails, |keys|);
    forall h, i | 0 <= h < |index'| && 0 <= i < |index'[h]|
      ensures index'[h][i] < |keys| + n
    {
      if h == |index| { GrownNew(index, tails, |keys|, i); }
    }
  }

  lemma GrownShape(index: seq<seq<EntryId>>, keys: seq<nat>, tails: seq<nat>, r: Ring)
    requires Full(index, keys, tails, r)
    ensures Shape(GrownIndex(index, tails, |keys|), keys + seq(|index[|index| - 1]|, i => INVALID_BLOCK_BASE), GrownRing(r))
    ensures TailAt(GrownIndex(index, tails, |keys|), tails + [|index[|index| - 1]| - 1], GrownRing(r))
  {
    hide Slot, GrownIndex, Full;
    ShapeSizes(index, keys, tails, r);
    GrownSizes(index, keys, tails, r);
    GrownEntries(index, keys, tails, r);
    GrownOld(index, tails, |keys|);
    var n := |index[|index| - 1]|;
    SlotFresh(n - 1, r.lo, n + n);
    assert r.m - 1 == r.lo + (n - 1);
  }

  lemma GrownOld(index: seq<seq<EntryId>>, tails: seq<nat>, count: nat)
    requires 0 < |index| == |tails| && |index[|index| - 1]| > 0
    ensures |GrownIndex(index, tails, count)| == |index| + 1
    ensures |GrownIndex(index, tails, count)[|index|]| == |index[|index| - 1]| + |index[|index| - 1]|
    ensures forall h :: 0 <= h < |index| ==> GrownIndex(index, tails, count)[h] == index[h]
  {
  }

  lemma GrownNew(index: seq<seq<EntryId>>, tails: seq<nat>, count: nat, i: nat)
    requires 0 < |index| == |tails| && |index[|index| - 1]| > 0 && i < |index[|index| - 1]| + |index[|index| - 1]|
    ensures var l := |index| - 1;
            GrownIndex(index, tails, count)[|index|][i]
            == if i < |index[l]| then index[l][(tails[l] + 1 + i) % |index[l]|] else count + (i - |index[l]|)
  {
  }

  lemma GrownKeyed(index: seq<seq<EntryId>>, keys: seq<nat>, tails: seq<nat>, r: Ring)
    requires Full(index, keys, tails, r)
    ensures Keyed(GrownIndex(index, tails, |keys|), keys + seq(|index[|index| - 1]|, i => INVALID_BLOCK_BASE), GrownRing(r))
  {
    var l := |index| - 1;
    var n := |index[l]|;
    var index', keys', r' := GrownIndex(index, tails, |keys|), keys + seq(n, i => INVALID_BLOCK_BASE), GrownRing(r);
    GrownShape(index, keys, tails, r);
    hide Slot, TailAt;
    forall h, i | 0 <= h < |index'| && 0 <= i < |index'[h]|
      ensures KeyInSlot(keys'[index'[h][i]], i, r'.c[h], |index'[h]|)
      ensures h < |index'| - 1 ==> keys'[index'[h][i]] != INVALID_BLOCK_BASE
    {
      if h <= l {
        assert index'[h] == index[h];
        assert KeyInSlot(keys[index[h][i]], i, r.c[h], |index[h]|);
        if h == l {
          var q := SlotOnto(i, r.lo, r.c[l], n);
          assert EntryOf(index, r, q) == index[l][i];
        }
      } else if i < n {
        CopiedEntry(index, keys, tails, r, i);
        assert keys[EntryOf(index, r, r.lo + i)] == (r.lo + i) * BLOCK_SIZE;
      } else {
        assert index'[h][i] == |keys| + (i - n);
      }
    }
  }

  lemma GrownRinged(index: seq<seq<EntryId>>, keys: seq<nat>, tails: seq<nat>, r: Ring)
    requires Full(index, keys, tails, r)
    ensures Ringed(GrownIndex(index, tails, |keys|), keys + seq(|index[|index| - 1]|, i => INVALID_BLOCK_BASE), GrownRing(r))
  {
    var l := |index| - 1;
    var n := |index[l]|;
    var index', keys', r' := GrownIndex(index, tails, |keys|), keys + seq(n, i => INVALID_BLOCK_BASE), GrownRing(r);
    GrownShape(index, keys, tails, r);
    hide Slot, TailAt, Keyed;
    var slots := index'[l + 1];
    forall i | 0 <= i < n + n ensures slots[i] == if i < n then EntryOf(index, r, r.lo + i) else |keys| + (i - n) {
      if i < n { CopiedEntry(index, keys, tails, r, i); }
    }
    forall i, j | 0 <= i < n + n && 0 <= j < n + n && slots[i] == slots[j] ensures i == j {
      if i <= j < n { EntryDistinct(index, keys, r, r.lo + i, r.lo + j); }
      if j <= i < n { EntryDistinct(index, keys, r, r.lo + j, r.lo + i); }
      if i < n { EntryInRange(index, keys, r, r.lo + i); }
      if j < n { EntryInRange(index, keys, r, r.lo + j); }
    }
    forall q | r'.lo <= q < r'.hi ensures keys'[EntryOf(index', r', q)] == q * BLOCK_SIZE {
      CopiedEntry(index, keys, tails, r, q - r.lo);
    }
    forall i | 0 <= i < n + n && keys'[slots[i]] != INVALID_BLOCK_BASE
      ensures r'.lo <= keys'[slots[i]] / BLOCK_SIZE < r'.hi
    {
      if i < n { assert keys[EntryOf(index, r, r.lo + i)] == (r.lo + i) * BLOCK_SIZE; }
    }
  }

  // ---------------------------------------------------------------- the producer's view of the ring

  ghost function Chain(p: Prod): seq<BlockId> {
    if p.PIdle? then [] else p.op.got
  }

  /** How many entries of the chain the undo has cleared. */
  ghost function Cleared(p: Prod): nat {
    match p
    case PUndo(_, i) => i
    case PUndoRewind(_, i) => i + 1
    case PFree(op, _) => |op.got|
    case _ => 0
  }

  /** The entry of the block after the chain is being set up. */
  ghost predicate Building(p: Prod) {
    p.PTail? || p.PBlock? || p.PValue? || p.PRewind? || p.PNull?
  }

  /** How far the index tail is ahead of the published blocks. */
  ghost function Ahead(p: Prod): int {
    match p
    case PIdle => 0
    case PBlock(op, _) => |op.got| + 1
    case PValue(op, _, _) => |op.got| + 1
    case PRewind(op, _) => |op.got| + 1
    case PUndo(op, i) => |op.got| - i
    case PUndoRewind(op, i) => |op.got| - i
    case PFree(_, _) => 0
    case _ => |p.op.got|
  }

  /** The producer may store the key of block m: its slot holds no live block. */
  ghost predicate MayPush(r: Ring, n: nat, phys: map<nat, BlockId>, nb: nat) {
    r.m < r.hi || r.hi < r.lo + n || (r.lo < nb && r.lo !in phys)
  }

  ghost predicate ProdAt(index: seq<seq<EntryId>>, r: Ring, phys: map<nat, BlockId>, nb: nat, p: Prod)
    requires 0 < |index| == |r.c| && |index[|index| - 1]| > 0
  {
    && r.m == nb + Ahead(p)
    && r.lo <= nb && nb + |Chain(p)| <= r.hi
    && (Building(p) ==> nb + |Chain(p)| < r.hi && p.entry == EntryOf(index, r, nb + |Chain(p)|))
    && (p.PKey? ==> p.entry == EntryOf(index, r, r.m) && MayPush(r, |index[|index| - 1]|, phys, nb))
    && (p.PGrow? ==> r.m == r.hi == r.lo + |index[|index| - 1]|)
    && (p.PUndo? ==> p.i <= |p.op.got|)
    && (p.PUndoRewind? ==> p.i < |p.op.got|)
    && (p.PFree? ==> p.i <= |p.op.got|)
  }

  // ---------------------------------------------------------------- values

  ghost function Expected(phys: map<nat, BlockId>, nb: nat, chain: seq<BlockId>, cleared: nat, q: nat): Option<BlockId> {
    if q < nb then (if q in phys then Some(phys[q]) else None)
    else if cleared <= q - nb < |chain| then Some(chain[q - nb]) else None
  }

  /** Every entry of the current header points to its block exactly while that block is live; the
      entry being set up is the producer's business. */
  ghost predicate Valued(index: seq<seq<EntryId>>, values: seq<Option<BlockId>>, r: Ring, phys: map<nat, BlockId>,
                         nb: nat, chain: seq<BlockId>, cleared: nat, building: bool)
    requires 0 < |index| == |r.c| && |index[|index| - 1]| > 0
  {
    && (forall b :: b in phys ==> r.lo <= b < nb)
    && (forall q :: r.lo <= q < r.hi && !(building && q == nb + |chain|) ==>
          EntryOf(index, r, q) < |values|
          && values[EntryOf(index, r, q)] == Expected(phys, nb, chain, cleared, q))
  }

  // ---------------------------------------------------------------- places

  ghost predicate HasJob(c: Cons) {
    !c.CIdle? && !c.Crashed?
  }

  /** The number of the block a consumer read last. */
  ghost function LastBlock(job: Job): int {
    (job.at - 1) / BLOCK_SIZE
  }

  ghost predicate ConsPlace(c: Cons, t: Tid, phys: map<nat, BlockId>, place: map<BlockId, Place>) {
    && (c.CNull? ==> c.job.at > 0 && c.block in place && place[c.block] == Draining(LastBlock(c.job), t)
                     && LastBlock(c.job) in phys && phys[LastBlock(c.job)] == c.block)
    && (c.CFree? ==> c.block in place && place[c.block] == Dropping(t))
  }

  /** No block is in two places: pooled, live, in the producer's chain, being taken, dropped. */
  ghost predicate Placed(blocks: set<BlockId>, free: set<BlockId>, phys: map<nat, BlockId>, p: Prod, cons: seq<Cons>,
                         place: map<BlockId, Place>) {
    && place.Keys <= blocks
    && (forall x :: x in free ==> x in place && place[x] == Free)
    && (forall b :: b in phys ==>
          phys[b] in place && (place[phys[b]].Live? || place[phys[b]].Draining?) && place[phys[b]].b == b)
    && (forall j :: (if p.PFree? then p.i else 0) <= j < |Chain(p)| ==>
          Chain(p)[j] in place && place[Chain(p)[j]] == Got(j))
    && (p.PValue? ==> p.block in place && place[p.block] == Fresh)
    && (forall t :: 0 <= t < |cons| ==> ConsPlace(cons[t], t, phys, place))
  }

  /** A block the producer holds starts with nothing counted. */
  ghost predicate Reset(dequeued: map<BlockId, nat>, p: Prod) {
    && (!p.PFree? ==> forall j :: 0 <= j < |Chain(p)| ==> Chain(p)[j] in dequeued && dequeued[Chain(p)[j]] == 0)
    && (p.PValue? ==> p.block in dequeued && dequeued[p.block] == 0)
  }

  // ---------------------------------------------------------------- counting

  ghost function Of(done: set<nat>, b: nat): set<nat> {
    set i | i in done && i / BLOCK_SIZE == b
  }

  ghost predicate Tallied(done: set<nat>, dequeued: map<BlockId, nat>, phys: map<nat, BlockId>, place: map<BlockId, Place>) {
    forall b :: b in phys ==>
      && phys[b] in dequeued && dequeued[phys[b]] == |Of(done, b)|
      && phys[b] in place
      && (place[phys[b]].Draining? <==> |Of(done, b)| == BLOCK_SIZE)
  }

  ghost predicate JobOk(job: Job, head: nat) {
    && job.first <= job.from <= job.at <= job.end <= head && job.first < job.end
    && job.at <= (job.from / BLOCK_SIZE + 1) * BLOCK_SIZE
  }

  /** Nothing granted and not yet counted is counted, or granted to anyone else. */
  ghost predicate Ranged(done: set<nat>, head: nat, cons: seq<Cons>) {
    && (forall i :: i in done ==> i < head)
    && (forall t :: 0 <= t < |cons| && HasJob(cons[t]) ==> JobOk(cons[t].job, head))
    && (forall t, i :: 0 <= t < |cons| && HasJob(cons[t]) && cons[t].job.from <= i < cons[t].job.end ==> i !in done)
    && (forall t, u :: 0 <= t < |cons| && 0 <= u < |cons| && t != u && HasJob(cons[t]) && HasJob(cons[u]) ==>
          cons[t].job.end <= cons[u].job.from || cons[u].job.end <= cons[t].job.from
          || cons[t].job.from == cons[t].job.end || cons[u].job.from == cons[u].job.end)
  }

  /** A published block that is no longer live has been dequeued completely. */
  ghost predicate Released(done: set<nat>, nb: nat, phys: map<nat, BlockId>) {
    forall i: nat :: i / BLOCK_SIZE < nb && i / BLOCK_SIZE !in phys ==> i in done
  }

  // ---------------------------------------------------------------- contents

  ghost predicate Holds(elements: map<BlockId, seq<Option<Elem>>>, phys: map<nat, BlockId>, i: nat, e: Elem) {
    i / BLOCK_SIZE in phys && At(elements, phys[i / BLOCK_SIZE], i, e)
  }

  /** Every element published and not yet moved out is in its place, and every consumer has
      read exactly what was published at the indices it was granted. */
  ghost predicate Stored(elements: map<BlockId, seq<Option<Elem>>>, enq: seq<Elem>, head: nat, phys: map<nat, BlockId>,
                         cons: seq<Cons>) {
    && head <= |enq|
    && (forall i :: head <= i < |enq| ==> Holds(elements, phys, i, enq[i]))
    && (forall t :: 0 <= t < |cons| && HasJob(cons[t]) ==> JobOk(cons[t].job, head))
    && (forall t, i :: 0 <= t < |cons| && HasJob(cons[t]) && cons[t].job.at <= i < cons[t].job.end ==>
          Holds(elements, phys, i, enq[i]))
    && (forall t :: 0 <= t < |cons| && HasJob(cons[t]) ==>
          cons[t].job.out == enq[cons[t].job.first..cons[t].job.at])
  }

  /** The last block is partly filled and live, and is the producer's tail block. */
  ghost predicate Partial(tail: nat, phys: map<nat, BlockId>, start: Option<BlockId>) {
    tail % BLOCK_SIZE != 0 ==> Blocks(tail) - 1 in phys && start == Some(phys[Blocks(tail) - 1])
  }

  ghost function Start(p: Prod, tailBlock: Option<BlockId>): Option<BlockId> {
    if p.PIdle? then tailBlock else p.op.start
  }

  /** What the producer has constructed so far is in its place, beyond the tail. */
  ghost predicate Constructed(elements: map<BlockId, seq<Option<Elem>>>, tail: nat, tailBlock: Option<BlockId>, p: Prod) {
    p.PFill? ==>
      && (tail % BLOCK_SIZE != 0 ==> p.op.start.Some?)
      && |p.op.got| == Needed(tail, p.op) && p.k <= |p.op.items|
      && (tailBlock == if p.k > 0 then Some(FillBlock(tail, p.op, tail + p.k - 1)) else p.op.start)
      && forall i :: tail <= i < tail + p.k ==> At(elements, FillBlock(tail, p.op, i), i, p.op.items[i - tail])
  }

  ghost predicate At(elements: map<BlockId, seq<Option<Elem>>>, b: BlockId, i: nat, e: Elem) {
    b in elements && |elements[b]| == BLOCK_SIZE && elements[b][i % BLOCK_SIZE] == Some(e)
  }

  // ---------------------------------------------------------------- lookups

  /** A consumer's header has the current entry of each of its blocks in that block's slot. */
  ghost predicate HeaderOk(index: seq<seq<EntryId>>, r: Ring, h: nat, first: int, last: int)
    requires 0 < |index| == |r.c| && |index[|index| - 1]| > 0
  {
    && h < |index| && |index[h]| > 0
    && forall b :: first <= b <= last ==> index[h][Slot(b, r.c[h], |index[h]|)] == EntryOf(index, r, b)
  }

  ghost predicate LookupOk(index: seq<seq<EntryId>>, keys: seq<nat>, r: Ring, phys: map<nat, BlockId>, c: Cons)
    requires Shape(index, keys, r)
  {
    match c
    case CIndex(job) => job.first == job.from == job.at
    case CTail(job, h) => job.first == job.from == job.at && HeaderOk(index, r, h, job.from / BLOCK_SIZE, LastOf(job))
    case CKey(job, h, tl) =>
      && job.first == job.from == job.at
      && HeaderOk(index, r, h, job.from / BLOCK_SIZE, LastOf(job))
      && tl < |index[h]| && keys[index[h][tl]] != INVALID_BLOCK_BASE
    case CValue(job, h, slot) =>
      && job.from == job.at < job.end && HeaderOk(index, r, h, job.from / BLOCK_SIZE, LastOf(job))
      && slot == Slot(job.at / BLOCK_SIZE, r.c[h], |index[h]|)
    case CRead(job, h, slot, b) => InBlock(index, r, phys, job, h, slot, b)
    case CCount(job, h, slot, b) => job.at == Stop(job) && InBlock(index, r, phys, job, h, slot, b)
    case CNull(job, h, slot, b) =>
      && job.from == job.at && job.first < job.at && (job.at < job.end ==> job.at % BLOCK_SIZE == 0)
      && HeaderOk(index, r, h, LastBlock(job), LastOf(job))
      && slot == Slot(LastBlock(job), r.c[h], |index[h]|)
    case CFree(job, h, slot, b) =>
      && job.from == job.at && job.first < job.at && (job.at < job.end ==> job.at % BLOCK_SIZE == 0)
      && h < |index| && (job.at < job.end ==> HeaderOk(index, r, h, job.from / BLOCK_SIZE, LastOf(job)))
      && slot == Slot(LastBlock(job), r.c[h], |index[h]|)
    case CDone(job) => job.from == job.at == job.end
    case CIdle => true
    case Crashed => false
  }

  ghost function LastOf(job: Job): int {
    (job.end - 1) / BLOCK_SIZE
  }

  ghost predicate InBlock(index: seq<seq<EntryId>>, r: Ring, phys: map<nat, BlockId>, job: Job, h: nat, slot: nat, b: BlockId)
    requires 0 < |index| == |r.c| && |index[|index| - 1]| > 0
  {
    && job.from < job.end
    && HeaderOk(index, r, h, job.from / BLOCK_SIZE, LastOf(job))
    && slot == Slot(job.from / BLOCK_SIZE, r.c[h], |index[h]|)
    && job.from / BLOCK_SIZE in phys && phys[job.from / BLOCK_SIZE] == b
  }

  ghost predicate Looking(index: seq<seq<EntryId>>, keys: seq<nat>, r: Ring, phys: map<nat, BlockId>, cons: seq<Cons>)
    requires Shape(index, keys, r)
  {
    forall t :: 0 <= t < |cons| ==> LookupOk(index, keys, r, phys, cons[t])
  }

  ghost predicate Sized(elements: map<BlockId, seq<Option<Elem>>>) {
    forall b :: b in elements ==> |elements[b]| == BLOCK_SIZE
  }

  ghost predicate Inv(s: State, g: Aux) {
    && s.elements.Keys == s.dequeued.Keys && |s.values| == |s.keys| && |s.enq| == s.tail
    && Sized(s.elements)
    && (s.prod.PIdle? && s.tailBlock.Some? ==> s.tailBlock.value in s.elements)
    && ProdWf(s.tail, s.elements.Keys, |s.keys|, s.prod)
    && Keyed(s.index, s.keys, g.ring) && Ringed(s.index, s.keys, g.ring) && TailAt(s.index, s.tails, g.ring)
    && ProdAt(s.index, g.ring, g.phys, Blocks(s.tail), s.prod)
    && Valued(s.index, s.values, g.ring, g.phys, Blocks(s.tail), Chain(s.prod), Cleared(s.prod), Building(s.prod))
    && Placed(s.elements.Keys, s.free, g.phys, s.prod, s.cons, g.place)
    && Reset(s.dequeued, s.prod)
    && Tallied(g.done, s.dequeued, g.phys, g.place)
    && Ranged(g.done, s.head, s.cons)
    && Released(g.done, Blocks(s.tail), g.phys)
    && Stored(s.elements, s.enq, s.head, g.phys, s.cons)
    && Partial(s.tail, g.phys, Start(s.prod, s.tailBlock))
    && Constructed(s.elements, s.tail, s.tailBlock, s.prod)
    && Looking(s.index, s.keys, g.ring, g.phys, s.cons)
  }

  lemma InvIsWf(s: State, g: Aux)
    requires Inv(s, g)
    ensures Wf(s)
  {
    forall t | 0 <= t < |s.cons| ensures ConsWf(s.index, s.elements.Keys, s.cons[t]) {
      assert LookupOk(s.index, s.keys, g.ring, g.phys, s.cons[t]);
      assert HasJob(s.cons[t]) ==> JobOk(s.cons[t].job, s.head);
    }
  }
}
