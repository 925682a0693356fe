/** Every step of the producer keeps the invariant of BlockQueue: inserting into the index,
    growing it, taking blocks, undoing a failed operation, constructing and publishing. */
module BlockQueueProducer {
  import opened BlockQueue
  import opened BlockQueueProof
  import opened BlockQueueConsumer

  // ---------------------------------------------------------------- changing only the program counter

  /** What the parts of the invariant that mention the producer see of it. */
  ghost predicate SameView(p: Prod, p': Prod) {
    && SameChain(p, p') && Cleared(p) == Cleared(p') && Building(p) == Building(p')
    && (p'.PFill? ==> p'.k == 0)
  }

  /** The blocks the producer holds are the same. */
  ghost predicate SameChain(p: Prod, p': Prod) {
    Chain(p) == Chain(p') && !p.PFree? && !p'.PFree? && !p'.PValue?
  }

  lemma PlacedProd(blocks: set<BlockId>, free: set<BlockId>, phys: map<nat, BlockId>, p: Prod, cons: seq<Cons>,
                   place: map<BlockId, Place>, p': Prod)
    requires Placed(blocks, free, phys, p, cons, place) && SameChain(p, p')
    ensures Placed(blocks, free, phys, p', cons, place)
  {
    hide ConsPlace;
  }

  lemma ResetProd(dequeued: map<BlockId, nat>, p: Prod, p': Prod)
    requires Reset(dequeued, p) && SameChain(p, p')
    ensures Reset(dequeued, p')
  {
  }

  /** A step that only moves the program counter, and perhaps sets the tail block back. */
  lemma MoveKeeps(s: State, g: Aux, p: Prod, tailBlock: Option<BlockId>)
    requires Inv(s, g) && SameView(s.prod, p) && !p.PIdle?
    requires Start(p, tailBlock) == Start(s.prod, s.tailBlock)
    requires ProdWf(s.tail, s.elements.Keys, |s.keys|, p)
    requires ProdIndexed(s, g) && ProdAt(s.index, g.ring, g.phys, Blocks(s.tail), p)
    requires Constructed(s.elements, s.tail, tailBlock, p)
    ensures Inv(s.(prod := p, tailBlock := tailBlock), g)
  {
    hide Ringed, Keyed, TailAt, ProdAt, Valued, Placed, Reset, Tallied, Ranged, Released, Stored, Partial, Constructed, Looking,
         Sized, ProdWf, SameView;
    ViewParts(s.prod, p);
    PlacedProd(s.elements.Keys, s.free, g.phys, s.prod, s.cons, g.place, p);
    ResetProd(s.dequeued, s.prod, p);
  }

  lemma ViewParts(p: Prod, p': Prod)
    requires SameView(p, p')
    ensures Chain(p) == Chain(p') && Cleared(p) == Cleared(p') && Building(p) == Building(p') && SameChain(p, p')
  {
  }

  ghost predicate ProdIndexed(s: State, g: Aux) {
    0 < |s.index| == |g.ring.c| && |s.index[|s.index| - 1]| > 0
  }

  /** What the invariant says of the producer. */
  lemma ProdFacts(s: State, g: Aux)
    requires Inv(s, g)
    ensures ProdIndexed(s, g) && ProdAt(s.index, g.ring, g.phys, Blocks(s.tail), s.prod)
    ensures Keyed(s.index, s.keys, g.ring) && Ringed(s.index, s.keys, g.ring) && TailAt(s.index, s.tails, g.ring)
    ensures Shape(s.index, s.keys, g.ring)
    ensures Valued(s.index, s.values, g.ring, g.phys, Blocks(s.tail), Chain(s.prod), Cleared(s.prod), Building(s.prod))
    ensures ProdWf(s.tail, s.elements.Keys, |s.keys|, s.prod)
    ensures |s.values| == |s.keys| && |s.enq| == s.tail && s.head <= s.tail
    ensures Partial(s.tail, g.phys, Start(s.prod, s.tailBlock)) && Sized(s.elements)
    ensures s.prod.PIdle? && s.tailBlock.Some? ==> s.tailBlock.value in s.elements
  {
    hide Ringed, TailAt, ProdAt, Valued, Placed, Reset, Tallied, Ranged, Released, Partial, Constructed, Looking, ProdWf;
  }

  lemma EnqueueKeeps(s: State, g: Aux, items: seq<Elem>)
    requires Inv(s, g) && Enabled(s, Enqueue(items))
    ensures Inv(Next(s, Enqueue(items)), g)
  {
    ProdFacts(s, g);
    var p := PCheck(Op(items, s.tailBlock, []));
    hide Inv, Wf, Valued, Ringed, Keyed, TailAt, Shape;
    MoveKeeps(s, g, p, s.tailBlock);
  }

  /** The slot checked by the producer is that of block m. */
  lemma CheckedSlot(s: State, g: Aux)
    requires Inv(s, g) && s.prod.PCheck?
    ensures ProdIndexed(s, g) && Shape(s.index, s.keys, g.ring)
    ensures var h := |s.index| - 1;
            && h < |s.tails| && s.tails[h] < |s.index[h]|
            && s.index[h][(s.tails[h] + 1) % |s.index[h]|] == EntryOf(s.index, g.ring, g.ring.m)
    ensures EntryOf(s.index, g.ring, g.ring.m) < |s.keys| == |s.values|
    ensures var e := EntryOf(s.index, g.ring, g.ring.m);
            if s.keys[e] == INVALID_BLOCK_BASE || s.values[e] == None
            then MayPush(g.ring, |s.index[|s.index| - 1]|, g.phys, Blocks(s.tail))
            else Full(s.index, s.keys, s.tails, g.ring)
  {
    ProdFacts(s, g);
    var r, h := g.ring, |s.index| - 1;
    NextSlot(s.index, s.keys, s.tails, r);
    hide Inv, Slot, Keyed;
    var e := EntryOf(s.index, r, r.m);
    if r.m < r.hi {
      assert s.values[EntryOf(s.index, r, r.m)] == Expected(g.phys, Blocks(s.tail), Chain(s.prod), 0, r.m);
    } else if r.hi == r.lo + |s.index[h]| {
      assert s.values[EntryOf(s.index, r, r.lo)] == Expected(g.phys, Blocks(s.tail), Chain(s.prod), 0, r.lo);
    }
  }

  lemma CheckKeeps(s: State, g: Aux, c: Choice)
    requires Inv(s, g) && Wf(s) && ProdEnabled(s, c) && s.prod.PCheck?
    requires !ProdStep(s, c).prod.PKey? && !ProdStep(s, c).prod.PGrow?
    ensures Inv(ProdStep(s, c), g)
  {
    ProdFacts(s, g);
    hide Inv, Wf, Valued, Ringed, Keyed, TailAt, Shape;
    MoveKeeps(s, g, ProdStep(s, c).prod, ProdStep(s, c).tailBlock);
  }

  lemma CheckPushKeeps(s: State, g: Aux, c: Choice)
    requires Inv(s, g) && Wf(s) && ProdEnabled(s, c) && s.prod.PCheck?
    requires ProdStep(s, c).prod.PKey? || ProdStep(s, c).prod.PGrow?
    ensures Inv(ProdStep(s, c), g)
  {
    hide Inv, Valued, Ringed, Keyed, TailAt, ConsWf, Partial, Sized;
    ProdFacts(s, g);
    CheckedSlot(s, g);
    hide Wf;
    MoveKeeps(s, g, ProdStep(s, c).prod, s.tailBlock);
  }

  // ---------------------------------------------------------------- growing the index

  /** Every block of a consumer's range is in the ring. */
  lemma SpanIsLive(s: State, g: Aux, t: Tid, b: int)
    requires Inv(s, g) && t < |s.cons| && HasJob(s.cons[t]) && s.cons[t].job.from < s.cons[t].job.end
    requires s.cons[t].job.from / BLOCK_SIZE <= b <= LastOf(s.cons[t].job)
    ensures b in g.phys && g.ring.lo <= b < g.ring.hi
  {
    JobFacts(s, g, t);
    ProdFacts(s, g);
    hide Inv, Ringed, Keyed, TailAt, Partial, Sized, ProdWf, Shape, LookupOk, ConsPlace, Holds, JobOk;
    var from, end := s.cons[t].job.from, s.cons[t].job.end;
    var i := if b == from / BLOCK_SIZE then from else b * BLOCK_SIZE;
    assert from <= i < end && i / BLOCK_SIZE == b;
  }

  ghost predicate InRing(r: Ring, b: int) {
    r.lo <= b < r.hi
  }

  lemma GrownHeaderOk(s: State, g: Aux, h: nat, first: int, last: int)
    requires Full(s.index, s.keys, s.tails, g.ring) && HeaderOk(s.index, g.ring, h, first, last)
    requires forall b :: first <= b <= last ==> InRing(g.ring, b)
    ensures HeaderOk(GrownIndex(s.index, s.tails, |s.keys|), GrownRing(g.ring), h, first, last)
  {
    var index', r' := GrownIndex(s.index, s.tails, |s.keys|), GrownRing(g.ring);
    hide Slot, Full, GrownIndex, GrownRing;
    FullIsRing(s, g);
    GrownPrefix(s, g);
    GrownNewEntry(s, g);
    forall b | first <= b <= last
      ensures index'[h][Slot(b, r'.c[h], |index'[h]|)] == EntryOf(index', r', b)
    {
      assert InRing(g.ring, b);
      CopiedEntry(s.index, s.keys, s.tails, g.ring, b - g.ring.lo);
    }
  }

  lemma FullIsRing(s: State, g: Aux)
    requires Full(s.index, s.keys, s.tails, g.ring)
    ensures 0 < |s.index| == |s.tails| && |s.index[|s.index| - 1]| > 0
    ensures g.ring.hi == g.ring.lo + |s.index[|s.index| - 1]|
  {
  }

  lemma GrownLookupOk(s: State, g: Aux, t: Tid, keys': seq<nat>)
    requires Inv(s, g) && Full(s.index, s.keys, s.tails, g.ring) && t < |s.cons|
    requires s.keys <= keys' && Shape(s.index, s.keys, g.ring)
    requires Shape(GrownIndex(s.index, s.tails, |s.keys|), keys', GrownRing(g.ring))
    ensures LookupOk(GrownIndex(s.index, s.tails, |s.keys|), keys', GrownRing(g.ring), g.phys, s.cons[t])
  {
    hide Inv, Slot;
    var c := s.cons[t];
    if HasJob(c) {
      JobFacts(s, g, t);
      var first := if c.CNull? then LastBlock(c.job) else c.job.from / BLOCK_SIZE;
      if !c.CIndex? && !c.CDone? && (c.CFree? ==> c.job.at < c.job.end) {
        forall b | first <= b <= LastOf(c.job) ensures InRing(g.ring, b) {
          if c.CNull? && b == first { LiveInRing(s, g, b); } else { SpanIsLive(s, g, t, b); }
        }
        GrownHeaderOk(s, g, c.h, first, LastOf(c.job));
      }
      GrownPrefix(s, g);
      hide HeaderOk;
    } else {
      LookupHolds(s, g, t);
    }
  }

  lemma LookupHolds(s: State, g: Aux, t: Tid)
    requires Inv(s, g) && t < |s.cons|
    ensures Shape(s.index, s.keys, g.ring) && LookupOk(s.index, s.keys, g.ring, g.phys, s.cons[t])
  {
  }

  lemma LiveInRing(s: State, g: Aux, b: nat)
    requires Inv(s, g) && b in g.phys
    ensures g.ring.lo <= b < g.ring.hi
  {
  }

  lemma GrownPrefix(s: State, g: Aux)
    requires Full(s.index, s.keys, s.tails, g.ring)
    ensures forall h :: 0 <= h < |s.index| ==>
              GrownIndex(s.index, s.tails, |s.keys|)[h] == s.index[h] && GrownRing(g.ring).c[h] == g.ring.c[h]
    ensures |GrownIndex(s.index, s.tails, |s.keys|)| == |s.index| + 1
  {
  }

  lemma GrownValued(s: State, g: Aux, junk: seq<Option<BlockId>>)
    requires Full(s.index, s.keys, s.tails, g.ring) && ProdIndexed(s, g)
    requires Valued(s.index, s.values, g.ring, g.phys, Blocks(s.tail), Chain(s.prod), Cleared(s.prod), false)
    ensures ProdIndexed(s.(index := GrownIndex(s.index, s.tails, |s.keys|)), g.(ring := GrownRing(g.ring)))
    ensures Valued(GrownIndex(s.index, s.tails, |s.keys|), s.values + junk, GrownRing(g.ring), g.phys, Blocks(s.tail),
                   Chain(s.prod), Cleared(s.prod), false)
  {
    hide Full, GrownIndex, EntryOf, Expected;
    FullIsRing(s, g);
    GrownNewEntry(s, g);
    var index', r' := GrownIndex(s.index, s.tails, |s.keys|), GrownRing(g.ring);
    forall q | r'.lo <= q < r'.hi
      ensures EntryOf(index', r', q) < |s.values + junk|
      ensures (s.values + junk)[EntryOf(index', r', q)] == Expected(g.phys, Blocks(s.tail), Chain(s.prod), Cleared(s.prod), q)
    {
      CopiedEntry(s.index, s.keys, s.tails, g.ring, q - g.ring.lo);
    }
  }

  lemma GrownNewEntry(s: State, g: Aux)
    requires Full(s.index, s.keys, s.tails, g.ring)
    ensures var index', r' := GrownIndex(s.index, s.tails, |s.keys|), GrownRing(g.ring);
            0 < |index'| == |r'.c| && |index'[|index'| - 1]| > 0 && EntryOf(index', r', r'.m) == |s.keys|
    ensures var index' := GrownIndex(s.index, s.tails, |s.keys|);
            g.ring.hi < g.ring.lo + |index'[|index'| - 1]|
  {
    var n := |s.index[|s.index| - 1]|;
    SlotFresh(n, g.ring.lo, n + n);
  }

  ghost function GrownState(s: State, junk: seq<Option<BlockId>>): State
    requires s.prod.PGrow? && 0 < |s.index| == |s.tails| && |s.index[|s.index| - 1]| > 0
  {
    var n := |s.index[|s.index| - 1]|;
    s.(index := GrownIndex(s.index, s.tails, |s.keys|), tails := s.tails + [n - 1],
       keys := s.keys + seq(n, i => INVALID_BLOCK_BASE), values := s.values + junk, prod := PKey(s.prod.op, |s.keys|))
  }

  lemma GrownIs(s: State, c: Choice)
    requires Wf(s) && ProdEnabled(s, c) && s.prod.PGrow? && c.ok
    ensures ProdStep(s, c) == GrownState(s, c.junk) && |c.junk| == |s.index[|s.index| - 1]|
  {
    hide ProdWf, ConsWf;
  }

  lemma GrownProd(s: State, g: Aux)
    requires Inv(s, g) && s.prod.PGrow? && Full(s.index, s.keys, s.tails, g.ring)
    ensures var index', r', p := GrownIndex(s.index, s.tails, |s.keys|), GrownRing(g.ring), PKey(s.prod.op, |s.keys|);
            && 0 < |index'| == |r'.c| && |index'[|index'| - 1]| > 0
            && ProdAt(index', r', g.phys, Blocks(s.tail), p)
            && SameView(s.prod, p)
            && ProdWf(s.tail, s.elements.Keys, |s.keys| + |s.index[|s.index| - 1]|, p)
            && Constructed(s.elements, s.tail, s.tailBlock, p)
  {
    ProdFacts(s, g);
    GrownNewEntry(s, g);
    hide Inv, Full, Valued, Ringed, Keyed, TailAt, Slot;
  }

  lemma ShapeOf(s: State, g: Aux)
    requires Inv(s, g)
    ensures Shape(s.index, s.keys, g.ring)
  {
  }

  lemma GrownLooking(s: State, g: Aux, keys': seq<nat>)
    requires Inv(s, g) && Full(s.index, s.keys, s.tails, g.ring) && s.keys <= keys'
    requires Shape(GrownIndex(s.index, s.tails, |s.keys|), keys', GrownRing(g.ring))
    ensures Looking(GrownIndex(s.index, s.tails, |s.keys|), keys', GrownRing(g.ring), g.phys, s.cons)
  {
    ShapeOf(s, g);
    hide Inv, Full, Shape, LookupOk;
    forall t | 0 <= t < |s.cons| ensures LookupOk(GrownIndex(s.index, s.tails, |s.keys|), keys', GrownRing(g.ring), g.phys, s.cons[t]) {
      GrownLookupOk(s, g, t, keys');
    }
  }

  lemma GrowKeeps(s: State, g: Aux, c: Choice)
    requires Inv(s, g) && Wf(s) && ProdEnabled(s, c) && s.prod.PGrow? && c.ok
    ensures Inv(ProdStep(s, c), g.(ring := GrownRing(g.ring)))
  {
    hide Ringed, Keyed, TailAt, ProdAt, Valued, Placed, Reset, Tallied, Ranged, Released, Stored, Partial, Constructed, Looking,
         Sized, Wf, Full, Slot, Shape, ProdWf, ProdStep, SameView, GrownIndex;
    WhenGrowing(s, g);
    GrownIs(s, c);
    GrownProd(s, g);
    var keys' := s.keys + seq(|s.index[|s.index| - 1]|, i => INVALID_BLOCK_BASE);
    GrownShape(s.index, s.keys, s.tails, g.ring);
    GrownKeyed(s.index, s.keys, s.tails, g.ring);
    GrownRinged(s.index, s.keys, s.tails, g.ring);
    GrownValued(s, g, c.junk);
    GrownLooking(s, g, keys');
    ViewParts(s.prod, PKey(s.prod.op, |s.keys|));
    PlacedProd(s.elements.Keys, s.free, g.phys, s.prod, s.cons, g.place, PKey(s.prod.op, |s.keys|));
    ResetProd(s.dequeued, s.prod, PKey(s.prod.op, |s.keys|));
  }

  lemma GrowFailsKeeps(s: State, g: Aux, c: Choice)
    requires Inv(s, g) && Wf(s) && ProdEnabled(s, c) && s.prod.PGrow? && !c.ok
    ensures Inv(ProdStep(s, c), g)
  {
    ProdFacts(s, g);
    hide Inv, Wf, Valued, Ringed, Keyed, TailAt, Shape;
    MoveKeeps(s, g, ProdStep(s, c).prod, s.tailBlock);
  }

  /** When the producer has found the slot of block m in use the index is full, and it still is
      when the larger one is published, whatever consumers clear in between. */
  lemma WhenGrowing(s: State, g: Aux)
    requires Inv(s, g) && s.prod.PGrow?
    ensures Full(s.index, s.keys, s.tails, g.ring)
    ensures ProdIndexed(s, g)
    ensures Valued(s.index, s.values, g.ring, g.phys, Blocks(s.tail), Chain(s.prod), Cleared(s.prod), false)
  {
    ProdFacts(s, g);
    hide Inv, Ringed, Keyed, TailAt, Shape, Valued;
  }

  // ---------------------------------------------------------------- storing a key

  lemma LookingKeys(index: seq<seq<EntryId>>, keys: seq<nat>, r: Ring, phys: map<nat, BlockId>, cons: seq<Cons>,
                    keys': seq<nat>, r': Ring)
    requires Shape(index, keys, r) && Shape(index, keys', r') && r'.c == r.c
    requires Looking(index, keys, r, phys, cons)
    requires forall e :: 0 <= e < |keys| && e < |keys'| && keys[e] != INVALID_BLOCK_BASE ==> keys'[e] != INVALID_BLOCK_BASE
    ensures Looking(index, keys', r', phys, cons)
  {
    forall t | 0 <= t < |cons| ensures LookupOk(index, keys', r', phys, cons[t]) {
      assert LookupOk(index, keys, r, phys, cons[t]);
      LookupKeys(index, keys, r, phys, cons[t], keys', r');
    }
  }

  lemma LookupKeys(index: seq<seq<EntryId>>, keys: seq<nat>, r: Ring, phys: map<nat, BlockId>, c: Cons, keys': seq<nat>, r': Ring)
    requires Shape(index, keys, r) && Shape(index, keys', r') && r'.c == r.c
    requires LookupOk(index, keys, r, phys, c)
    requires forall e :: 0 <= e < |keys| && e < |keys'| && keys[e] != INVALID_BLOCK_BASE ==> keys'[e] != INVALID_BLOCK_BASE
    ensures LookupOk(index, keys', r', phys, c)
  {
    hide Slot;
  }

  lemma PushedValued(index: seq<seq<EntryId>>, values: seq<Option<BlockId>>, r: Ring, phys: map<nat, BlockId>,
                     nb: nat, chain: seq<BlockId>, n: nat)
    requires 0 < |index| == |r.c| && |index[|index| - 1]| > 0
    requires Valued(index, values, r, phys, nb, chain, 0, false)
    requires r.lo <= r.m == nb + |chain| <= r.hi && MayPush(r, n, phys, nb)
    ensures Valued(index, values, Pushed(r, n), phys, nb, chain, 0, true)
  {
    var r' := Pushed(r, n);
    forall q | r'.lo <= q < r'.hi && q != nb + |chain|
      ensures EntryOf(index, r', q) < |values| && values[EntryOf(index, r', q)] == Expected(phys, nb, chain, 0, q)
    {
      assert EntryOf(index, r', q) == EntryOf(index, r, q);
    }
  }

  ghost function KeyAux(s: State, g: Aux): Aux
    requires 0 < |s.index|
  {
    g.(ring := Pushed(g.ring, |s.index[|s.index| - 1]|))
  }

  lemma KeyFacts(s: State, g: Aux, c: Choice)
    requires Inv(s, g) && Wf(s) && ProdEnabled(s, c) && s.prod.PKey?
    ensures ProdIndexed(s, g) && Shape(s.index, s.keys, g.ring)
    ensures s.prod.entry == EntryOf(s.index, g.ring, g.ring.m) < |s.keys|
    ensures g.ring.lo <= g.ring.m == Blocks(s.tail) + |Chain(s.prod)| <= g.ring.hi && MayPush(g.ring, |s.index[|s.index| - 1]|, g.phys, Blocks(s.tail))
    ensures var p := PTail(s.prod.op, s.prod.entry);
            && ProdStep(s, c) == s.(keys := s.keys[s.prod.entry := g.ring.m * BLOCK_SIZE], prod := p)
            && SameChain(s.prod, p) && ProdWf(s.tail, s.elements.Keys, |s.keys|, p)
            && ProdAt(s.index, KeyAux(s, g).ring, g.phys, Blocks(s.tail), p)
            && Constructed(s.elements, s.tail, s.tailBlock, p)
  {
    ProdFacts(s, g);
    hide Inv, Wf, Ringed, Keyed, TailAt, Slot, Valued;
  }

  lemma KeyKeeps(s: State, g: Aux, c: Choice)
    requires Inv(s, g) && Wf(s) && ProdEnabled(s, c) && s.prod.PKey?
    ensures ProdIndexed(s, g) && Inv(ProdStep(s, c), KeyAux(s, g))
  {
    hide Ringed, Keyed, TailAt, ProdAt, Valued, Placed, Reset, Tallied, Ranged, Released, Stored, Partial, Constructed, Looking,
         Sized, Wf, Slot, Shape, ProdWf, ProdStep, SameChain, EntryOf, MayPush;
    KeyFacts(s, g, c);
    var r' := KeyAux(s, g).ring;
    var p := PTail(s.prod.op, s.prod.entry);
    PushKeyed(s.index, s.keys, g.ring);
    PushRinged(s.index, s.keys, g.ring);
    PushedValued(s.index, s.values, g.ring, g.phys, Blocks(s.tail), Chain(s.prod), |s.index[|s.index| - 1]|);
    var keys' := s.keys[s.prod.entry := g.ring.m * BLOCK_SIZE];
    KeyedShape(s.index, keys', r');
    LookingKeys(s.index, s.keys, g.ring, g.phys, s.cons, keys', r');
    PushedTailAt(s.index, s.tails, g.ring, |s.index[|s.index| - 1]|);
    PlacedProd(s.elements.Keys, s.free, g.phys, s.prod, s.cons, g.place, p);
    ResetProd(s.dequeued, s.prod, p);
    ChainIs(s.prod, p);
  }

  lemma ChainIs(p: Prod, p': Prod)
    requires SameChain(p, p')
    ensures Chain(p) == Chain(p')
  {
  }

  lemma PushedTailAt(index: seq<seq<EntryId>>, tails: seq<nat>, r: Ring, n: nat)
    requires TailAt(index, tails, r)
    ensures TailAt(index, tails, Pushed(r, n))
  {
  }

  // ---------------------------------------------------------------- moving the index tail

  lemma RingMoves(s: State, r: Ring, phys: map<nat, BlockId>, m: nat, building: bool)
    requires Keyed(s.index, s.keys, r) && Ringed(s.index, s.keys, r) && r.lo <= m <= r.hi
    requires Valued(s.index, s.values, r, phys, Blocks(s.tail), Chain(s.prod), Cleared(s.prod), building)
    requires Looking(s.index, s.keys, r, phys, s.cons)
    ensures var r' := r.(m := m);
            && Keyed(s.index, s.keys, r') && Ringed(s.index, s.keys, r')
            && Valued(s.index, s.values, r', phys, Blocks(s.tail), Chain(s.prod), Cleared(s.prod), building)
            && Looking(s.index, s.keys, r', phys, s.cons)
  {
    hide Slot, KeyInSlot, LookupOk;
    var r' := r.(m := m);
    forall q ensures EntryOf(s.index, r', q) == EntryOf(s.index, r, q) {}
    LookingKeys(s.index, s.keys, r, phys, s.cons, s.keys, r');
  }

  lemma TailMoves(s: State, r: Ring, d: int)
    requires TailAt(s.index, s.tails, r) && r.m + d >= 0 && |s.index[|s.index| - 1]| > 0
    ensures var h := |s.index| - 1;
            TailAt(s.index, s.tails[h := (s.tails[h] + d) % |s.index[h]|], r.(m := r.m + d))
  {
    var h := |s.index| - 1;
    SlotMoves(r.m - 1, r.c[h], |s.index[h]|, d);
    assert r.m - 1 + d == r.m + d - 1;
  }

  /** Where a step that stores the index tail goes, and by how much it moves. */
  ghost function TailStep(p: Prod): (Prod, int)
    requires p.PTail? || p.PRewind? || p.PUndoRewind?
  {
    match p
    case PTail(op, e) => (PBlock(op, e), 1)
    case PRewind(op, e) => (PNull(op, e), -1)
    case PUndoRewind(op, i) => (PUndo(op, i + 1), -1)
  }

  lemma TailStepIs(s: State, c: Choice)
    requires Wf(s) && ProdEnabled(s, c) && (s.prod.PTail? || s.prod.PRewind? || s.prod.PUndoRewind?)
    ensures |s.tails| == |s.index| > 0 && |s.index[|s.index| - 1]| > 0
    ensures var (p, d) := TailStep(s.prod); var h := |s.index| - 1;
            && ProdStep(s, c) == s.(tails := s.tails[h := (s.tails[h] + d) % |s.index[h]|], prod := p)
            && ProdWf(s.tail, s.elements.Keys, |s.keys|, p)
  {
    hide ConsWf, OpWf;
  }

  lemma TailPlace(s: State, g: Aux)
    requires Inv(s, g) && (s.prod.PTail? || s.prod.PRewind? || s.prod.PUndoRewind?)
    ensures ProdIndexed(s, g)
    ensures var (p, d) := TailStep(s.prod); var m := g.ring.m + d;
            && g.ring.lo <= m <= g.ring.hi && SameView(s.prod, p)
            && ProdAt(s.index, g.ring.(m := m), g.phys, Blocks(s.tail), p)
            && Constructed(s.elements, s.tail, s.tailBlock, p)
  {
    hide Inv, Ringed, Keyed, TailAt, Slot, Valued, ProdWf, Partial, Sized, Blocks;
    ProdFacts(s, g);
  }

  lemma TailFacts(s: State, g: Aux, c: Choice)
    requires Inv(s, g) && Wf(s) && ProdEnabled(s, c) && (s.prod.PTail? || s.prod.PRewind? || s.prod.PUndoRewind?)
    ensures ProdIndexed(s, g) && |s.tails| == |s.index|
    ensures var (p, d) := TailStep(s.prod); var h := |s.index| - 1; var m := g.ring.m + d;
            && ProdStep(s, c) == s.(tails := s.tails[h := (s.tails[h] + d) % |s.index[h]|], prod := p)
            && g.ring.lo <= m <= g.ring.hi
            && SameView(s.prod, p) && ProdWf(s.tail, s.elements.Keys, |s.keys|, p)
            && ProdAt(s.index, g.ring.(m := m), g.phys, Blocks(s.tail), p)
            && Constructed(s.elements, s.tail, s.tailBlock, p)
  {
    hide Inv, Wf, ProdEnabled, ProdStep, ProdAt, SameView, ProdWf, Constructed, TailStep;
    TailStepIs(s, c);
    TailPlace(s, g);
  }

  lemma TailKeeps(s: State, g: Aux, c: Choice)
    requires Inv(s, g) && Wf(s) && ProdEnabled(s, c) && (s.prod.PTail? || s.prod.PRewind? || s.prod.PUndoRewind?)
    requires g.ring.m + TailStep(s.prod).1 >= 0
    ensures Inv(ProdStep(s, c), g.(ring := g.ring.(m := g.ring.m + TailStep(s.prod).1)))
  {
    hide Ringed, Keyed, TailAt, ProdAt, Valued, Placed, Reset, Tallied, Ranged, Released, Stored, Partial, Constructed, Looking,
         Sized, Wf, Slot, Shape, ProdWf, ProdStep, SameView;
    TailFacts(s, g, c);
    var (p, d) := TailStep(s.prod);
    ViewParts(s.prod, p);
    RingMoves(s, g.ring, g.phys, g.ring.m + d, Building(s.prod));
    TailMoves(s, g.ring, d);
    PlacedProd(s.elements.Keys, s.free, g.phys, s.prod, s.cons, g.place, p);
    ResetProd(s.dequeued, s.prod, p);
  }

  // ---------------------------------------------------------------- taking a block

  lemma NoBlockKeeps(s: State, g: Aux, c: Choice)
    requires Inv(s, g) && Wf(s) && ProdEnabled(s, c) && s.prod.PBlock? && !c.ok
    ensures Inv(ProdStep(s, c), g)
  {
    ProdFacts(s, g);
    hide Inv, Valued, Ringed, Keyed, TailAt, Shape, Wf;
    MoveKeeps(s, g, PRewind(s.prod.op, s.prod.entry), s.tailBlock);
  }

  ghost function TakeAux(g: Aux, x: BlockId): Aux {
    g.(place := g.place[x := Fresh])
  }

  ghost function Supplied(elements: map<BlockId, seq<Option<Elem>>>, x: BlockId): map<BlockId, seq<Option<Elem>>> {
    if x in elements then elements else elements[x := seq(BLOCK_SIZE, _ => None)]
  }

  /** The block taken was pooled or is new: in nobody's hands. */
  lemma TakePlaced(s: State, g: Aux, x: BlockId, p: Prod)
    requires Placed(s.elements.Keys, s.free, g.phys, s.prod, s.cons, g.place)
    requires x in s.free || x !in s.elements
    requires s.prod.PBlock? && p == PValue(s.prod.op, s.prod.entry, x)
    ensures Placed(Supplied(s.elements, x).Keys, s.free - {x}, g.phys, p, s.cons, g.place[x := Fresh])
    ensures forall b :: b in g.phys ==> g.phys[b] != x
    ensures forall j :: 0 <= j < |Chain(s.prod)| ==> Chain(s.prod)[j] != x
  {
    assert x in g.place ==> g.place[x] == Free;
    assert Chain(p) == Chain(s.prod);
    var place' := g.place[x := Fresh];
    forall u | 0 <= u < |s.cons| ensures ConsPlace(s.cons[u], u, g.phys, place') {
      assert ConsPlace(s.cons[u], u, g.phys, g.place);
    }
    forall j | 0 <= j < |Chain(s.prod)| ensures Chain(s.prod)[j] != x { assert g.place[Chain(s.prod)[j]] == Got(j); }
    hide ConsPlace;
  }

  lemma TakeStored(s: State, g: Aux, x: BlockId)
    requires Stored(s.elements, s.enq, s.head, g.phys, s.cons)
    ensures Stored(Supplied(s.elements, x), s.enq, s.head, g.phys, s.cons)
  {
    forall i, e | Holds(s.elements, g.phys, i, e) ensures Holds(Supplied(s.elements, x), g.phys, i, e) {}
    hide Holds, JobOk;
  }

  lemma TakeCounts(s: State, g: Aux, x: BlockId)
    requires Tallied(g.done, s.dequeued, g.phys, g.place) && Reset(s.dequeued, s.prod) && s.prod.PBlock?
    requires forall b :: b in g.phys ==> g.phys[b] != x
    requires forall j :: 0 <= j < |Chain(s.prod)| ==> Chain(s.prod)[j] != x
    ensures Tallied(g.done, s.dequeued[x := 0], g.phys, g.place[x := Fresh])
    ensures Reset(s.dequeued[x := 0], PValue(s.prod.op, s.prod.entry, x))
  {
    assert Chain(PValue(s.prod.op, s.prod.entry, x)) == Chain(s.prod);
    hide Of;
  }

  lemma TakeFacts(s: State, g: Aux, c: Choice)
    requires Inv(s, g) && Wf(s) && ProdEnabled(s, c) && s.prod.PBlock? && c.ok
    ensures ProdIndexed(s, g)
    ensures var p := PValue(s.prod.op, s.prod.entry, c.block); var elements' := Supplied(s.elements, c.block);
            && ProdStep(s, c) == s.(free := s.free - {c.block}, elements := elements',
                                    dequeued := s.dequeued[c.block := 0], prod := p)
            && ProdWf(s.tail, elements'.Keys, |s.keys|, p)
            && ProdAt(s.index, g.ring, g.phys, Blocks(s.tail), p)
            && Sized(elements') && elements'.Keys == s.dequeued[c.block := 0].Keys
            && Chain(p) == Chain(s.prod) && Cleared(p) == Cleared(s.prod) && Building(p) == Building(s.prod)
            && Constructed(elements', s.tail, s.tailBlock, p)
    ensures c.block in s.free || c.block !in s.elements
  {
    ProdFacts(s, g);
    hide Inv, Ringed, Keyed, TailAt, Slot, Valued, ConsWf;
  }

  lemma TakeKeeps(s: State, g: Aux, c: Choice)
    requires Inv(s, g) && Wf(s) && ProdEnabled(s, c) && s.prod.PBlock? && c.ok
    ensures Inv(ProdStep(s, c), TakeAux(g, c.block))
  {
    hide Ringed, Keyed, TailAt, ProdAt, Valued, Placed, Reset, Tallied, Ranged, Released, Stored, Partial, Constructed, Looking,
         Sized, Wf, Slot, Shape, ProdWf, ProdStep, Supplied;
    TakeFacts(s, g, c);
    TakePlaced(s, g, c.block, PValue(s.prod.op, s.prod.entry, c.block));
    TakeCounts(s, g, c.block);
    TakeStored(s, g, c.block);
  }

  // ---------------------------------------------------------------- putting it into the index

  ghost function Linked(op: Op, x: BlockId): Prod {
    PCheck(op.(got := op.got + [x]))
  }

  lemma LinkValued(s: State, g: Aux, x: BlockId)
    requires Ringed(s.index, s.keys, g.ring) && |s.values| == |s.keys| && ProdIndexed(s, g)
    requires s.prod.PValue? && ProdAt(s.index, g.ring, g.phys, Blocks(s.tail), s.prod)
    requires Valued(s.index, s.values, g.ring, g.phys, Blocks(s.tail), Chain(s.prod), 0, true)
    requires s.prod.entry < |s.values|
    ensures Valued(s.index, s.values[s.prod.entry := Some(x)], g.ring, g.phys, Blocks(s.tail), Chain(s.prod) + [x], 0, false)
  {
    var q := Blocks(s.tail) + |Chain(s.prod)|;
    var values' := s.values[s.prod.entry := Some(x)];
    forall p | g.ring.lo <= p < g.ring.hi
      ensures EntryOf(s.index, g.ring, p) < |values'|
      ensures values'[EntryOf(s.index, g.ring, p)] == Expected(g.phys, Blocks(s.tail), Chain(s.prod) + [x], 0, p)
    {
      EntryInRange(s.index, s.keys, g.ring, p);
      if EntryOf(s.index, g.ring, p) == s.prod.entry {
        if p <= q { EntryDistinct(s.index, s.keys, g.ring, p, q); } else { EntryDistinct(s.index, s.keys, g.ring, q, p); }
      }
    }
  }

  lemma LinkPlaced(s: State, g: Aux)
    requires Placed(s.elements.Keys, s.free, g.phys, s.prod, s.cons, g.place) && s.prod.PValue?
    requires Tallied(g.done, s.dequeued, g.phys, g.place) && Reset(s.dequeued, s.prod)
    ensures var x := s.prod.block; var p := Linked(s.prod.op, x); var place' := g.place[x := Got(|Chain(s.prod)|)];
            && Placed(s.elements.Keys, s.free, g.phys, p, s.cons, place')
            && Tallied(g.done, s.dequeued, g.phys, place') && Reset(s.dequeued, p)
  {
    hide Of;
    var place' := g.place[s.prod.block := Got(|Chain(s.prod)|)];
    forall u | 0 <= u < |s.cons| ensures ConsPlace(s.cons[u], u, g.phys, place') {
      assert ConsPlace(s.cons[u], u, g.phys, g.place);
    }
    hide ConsPlace;
  }

  lemma LinkFacts(s: State, g: Aux, c: Choice)
    requires Inv(s, g) && Wf(s) && ProdEnabled(s, c) && s.prod.PValue?
    ensures ProdIndexed(s, g) && s.prod.entry < |s.values|
    ensures var x := s.prod.block; var p := Linked(s.prod.op, x);
            && ProdStep(s, c) == s.(values := s.values[s.prod.entry := Some(x)], tailBlock := Some(x), prod := p)
            && ProdWf(s.tail, s.elements.Keys, |s.keys|, p)
            && ProdAt(s.index, g.ring, g.phys, Blocks(s.tail), p)
            && Constructed(s.elements, s.tail, Some(x), p)
  {
    ProdFacts(s, g);
    hide Inv, Ringed, Keyed, TailAt, Slot, Valued, ConsWf;
  }

  lemma LinkKeeps(s: State, g: Aux, c: Choice)
    requires Inv(s, g) && Wf(s) && ProdEnabled(s, c) && s.prod.PValue?
    ensures Inv(ProdStep(s, c), g.(place := g.place[s.prod.block := Got(|Chain(s.prod)|)]))
  {
    hide Ringed, Keyed, TailAt, ProdAt, Valued, Placed, Reset, Tallied, Ranged, Released, Stored, Partial, Constructed, Looking,
         Sized, Wf, Slot, Shape, ProdWf, ProdStep;
    LinkFacts(s, g, c);
    LinkValued(s, g, s.prod.block);
    LinkPlaced(s, g);
  }

  // ---------------------------------------------------------------- undoing a failed operation

  /** Clearing an entry the producer owns: the one being set up, or the next one of the chain. */
  lemma ClearedValued(s: State, r: Ring, phys: map<nat, BlockId>, chain: seq<BlockId>, cleared: nat, building: bool, q0: nat)
    requires Ringed(s.index, s.keys, r) && |s.values| == |s.keys|
    requires Valued(s.index, s.values, r, phys, Blocks(s.tail), chain, cleared, building)
    requires r.lo <= q0 < r.hi
    requires if building then q0 == Blocks(s.tail) + |chain| else q0 == Blocks(s.tail) + cleared && cleared < |chain|
    ensures EntryOf(s.index, r, q0) < |s.values|
    ensures Valued(s.index, s.values[EntryOf(s.index, r, q0) := None], r, phys, Blocks(s.tail), chain,
                   if building then cleared else cleared + 1, false)
  {
    EntryInRange(s.index, s.keys, r, q0);
    var values' := s.values[EntryOf(s.index, r, q0) := None];
    forall q | r.lo <= q < r.hi
      ensures EntryOf(s.index, r, q) < |values'|
      ensures values'[EntryOf(s.index, r, q)]
              == Expected(phys, Blocks(s.tail), chain, if building then cleared else cleared + 1, q)
    {
      EntryInRange(s.index, s.keys, r, q);
      if EntryOf(s.index, r, q) == EntryOf(s.index, r, q0) {
        if q <= q0 { EntryDistinct(s.index, s.keys, r, q, q0); } else { EntryDistinct(s.index, s.keys, r, q0, q); }
      }
    }
  }

  /** The entry in the tail slot is that of block m - 1. */
  lemma TailEntry(s: State, g: Aux)
    requires Inv(s, g) && s.prod.PUndo? && s.prod.i < |s.prod.op.got|
    ensures var h, n, m := |s.index| - 1, Blocks(s.tail) + s.prod.i, g.ring.m - 1;
            && ProdIndexed(s, g) && h < |s.tails| && s.tails[h] < |s.index[h]| && s.index[h][s.tails[h]] < |s.keys|
            && s.tails[h] == Slot(m, g.ring.c[h], |s.index[h]|) && m >= 0
            && s.keys[s.index[h][s.tails[h]]] == m * BLOCK_SIZE
            && g.ring.lo <= n < g.ring.hi
  {
    hide Inv, Slot, Valued, Keyed, ProdWf, Partial, Sized, KeyInSlot, Blocks;
    ProdFacts(s, g);
    var h, m := |s.index| - 1, g.ring.m - 1;
    assert s.index[h][s.tails[h]] == EntryOf(s.index, g.ring, m);
  }

  /** The entry the undo looks up for its i-th block is that block's. */
  lemma UndoSlot(s: State, g: Aux)
    requires Inv(s, g) && s.prod.PUndo? && s.prod.i < |s.prod.op.got|
    ensures var h := |s.index| - 1; var n := Blocks(s.tail) + s.prod.i;
            && ProdIndexed(s, g) && h < |s.tails| && s.tails[h] < |s.index[h]| && s.index[h][s.tails[h]] < |s.keys|
            && s.index[h][SlotFor(n * BLOCK_SIZE, s.tails[h], s.keys[s.index[h][s.tails[h]]], |s.index[h]|)]
               == EntryOf(s.index, g.ring, n)
            && g.ring.lo <= n < g.ring.hi
  {
    hide Inv, Slot, SlotFor, Blocks;
    TailEntry(s, g);
    var h, n, m := |s.index| - 1, Blocks(s.tail) + s.prod.i, g.ring.m - 1;
    SlotForBlock(n * BLOCK_SIZE, s.tails[h], m, g.ring.c[h], |s.index[h]|);
  }

  /** The two steps that clear an entry: which, and what the producer does next. */
  ghost function ClearStep(s: State): (Prod, nat)
    requires s.prod.PNull? || s.prod.PUndo?
  {
    match s.prod
    case PNull(op, _) => (PUndo(op, 0), Blocks(s.tail) + |op.got|)
    case PUndo(op, i) => (PUndoRewind(op, i), Blocks(s.tail) + i)
  }

  lemma ClearFacts(s: State, g: Aux, c: Choice)
    requires Inv(s, g) && Wf(s) && ProdEnabled(s, c)
    requires s.prod.PNull? || (s.prod.PUndo? && s.prod.i < |s.prod.op.got|)
    ensures ProdIndexed(s, g)
    ensures var (p, q) := ClearStep(s); var e := EntryOf(s.index, g.ring, q);
            && e < |s.values| == |s.keys| && g.ring.lo <= q < g.ring.hi
            && ProdStep(s, c) == s.(values := s.values[e := None], prod := p)
            && SameChain(s.prod, p) && ProdWf(s.tail, s.elements.Keys, |s.keys|, p)
            && ProdAt(s.index, g.ring, g.phys, Blocks(s.tail), p)
            && Constructed(s.elements, s.tail, s.tailBlock, p)
            && !Building(p) && Cleared(p) == (if Building(s.prod) then Cleared(s.prod) else Cleared(s.prod) + 1)
            && (if Building(s.prod) then q == Blocks(s.tail) + |Chain(s.prod)|
                else q == Blocks(s.tail) + Cleared(s.prod) && Cleared(s.prod) < |Chain(s.prod)|)
  {
    hide Inv, Wf, ProdEnabled, Ringed, Keyed, TailAt, Slot, SlotFor, Valued, ConsWf, Shape, EntryOf;
    ProdFacts(s, g);
    if s.prod.PUndo? { UndoSlot(s, g); }
    var (_, q) := ClearStep(s);
    EntryInRange(s.index, s.keys, g.ring, q);
  }

  lemma ClearKeeps(s: State, g: Aux, c: Choice)
    requires Inv(s, g) && Wf(s) && ProdEnabled(s, c)
    requires s.prod.PNull? || (s.prod.PUndo? && s.prod.i < |s.prod.op.got|)
    ensures Inv(ProdStep(s, c), g)
  {
    hide Ringed, Keyed, TailAt, ProdAt, Valued, Placed, Reset, Tallied, Ranged, Released, Stored, Partial, Constructed, Looking,
         Sized, Wf, Slot, Shape, ProdWf, ProdStep, SameChain, EntryOf;
    ClearFacts(s, g, c);
    var (p, q) := ClearStep(s);
    ChainIs(s.prod, p);
    ClearedValued(s, g.ring, g.phys, Chain(s.prod), Cleared(s.prod), Building(s.prod), q);
    PlacedProd(s.elements.Keys, s.free, g.phys, s.prod, s.cons, g.place, p);
    ResetProd(s.dequeued, s.prod, p);
  }

  // ---------------------------------------------------------------- giving blocks back

  lemma ToFreePlaced(s: State, g: Aux, p: Prod)
    requires Placed(s.elements.Keys, s.free, g.phys, s.prod, s.cons, g.place)
    requires s.prod.PUndo? && p == PFree(s.prod.op, 0)
    ensures Placed(s.elements.Keys, s.free, g.phys, p, s.cons, g.place) && Reset(s.dequeued, p)
  {
    assert Chain(p) == Chain(s.prod);
    hide ConsPlace;
  }

  lemma ToFreeFacts(s: State, g: Aux, c: Choice)
    requires Inv(s, g) && Wf(s) && ProdEnabled(s, c) && s.prod.PUndo? && s.prod.i == |s.prod.op.got|
    ensures ProdIndexed(s, g)
    ensures var p := PFree(s.prod.op, 0);
            && ProdStep(s, c) == s.(prod := p) && ProdWf(s.tail, s.elements.Keys, |s.keys|, p)
            && ProdAt(s.index, g.ring, g.phys, Blocks(s.tail), p)
            && Chain(s.prod) == Chain(p) && Cleared(p) == Cleared(s.prod) && !Building(p) && !Building(s.prod)
            && Constructed(s.elements, s.tail, s.tailBlock, p)
  {
    ProdFacts(s, g);
    hide Inv, Ringed, Keyed, TailAt, Slot, SlotFor, Valued, ConsWf;
  }

  lemma ToFreeKeeps(s: State, g: Aux, c: Choice)
    requires Inv(s, g) && Wf(s) && ProdEnabled(s, c) && s.prod.PUndo? && s.prod.i == |s.prod.op.got|
    ensures Inv(ProdStep(s, c), g)
  {
    hide Ringed, Keyed, TailAt, ProdAt, Valued, Placed, Reset, Tallied, Ranged, Released, Stored, Partial, Constructed, Looking,
         Sized, Wf, Slot, Shape, ProdWf, ProdStep;
    ToFreeFacts(s, g, c);
    ToFreePlaced(s, g, PFree(s.prod.op, 0));
  }

  lemma GiveBackPlaced(s: State, g: Aux, p: Prod, b: BlockId)
    requires Placed(s.elements.Keys, s.free, g.phys, s.prod, s.cons, g.place)
    requires s.prod.PFree? && s.prod.i < |s.prod.op.got| && p == PFree(s.prod.op, s.prod.i + 1) && b == s.prod.op.got[s.prod.i]
    ensures b !in s.free && b in g.place && g.place[b] == Got(s.prod.i)
    ensures Placed(s.elements.Keys, s.free + {b}, g.phys, p, s.cons, g.place[b := Free]) && Reset(s.dequeued, p)
  {
    assert Chain(s.prod)[s.prod.i] == b && Chain(p) == Chain(s.prod);
    var place' := g.place[b := Free];
    forall u | 0 <= u < |s.cons| ensures ConsPlace(s.cons[u], u, g.phys, place') {
      assert ConsPlace(s.cons[u], u, g.phys, g.place);
    }
    hide ConsPlace;
  }

  lemma GiveBackTallied(s: State, g: Aux, b: BlockId, i: nat)
    requires Placed(s.elements.Keys, s.free, g.phys, s.prod, s.cons, g.place)
    requires Tallied(g.done, s.dequeued, g.phys, g.place)
    requires b in g.place && g.place[b] == Got(i)
    ensures Tallied(g.done, s.dequeued, g.phys, g.place[b := Free])
  {
    hide Of;
  }

  lemma GiveBackFacts(s: State, g: Aux, c: Choice)
    requires Inv(s, g) && Wf(s) && ProdEnabled(s, c) && s.prod.PFree? && s.prod.i < |s.prod.op.got|
    ensures ProdIndexed(s, g)
    ensures var p, b := PFree(s.prod.op, s.prod.i + 1), s.prod.op.got[s.prod.i];
            && ProdStep(s, c) == s.(free := s.free + {b}, prod := p) && ProdWf(s.tail, s.elements.Keys, |s.keys|, p)
            && ProdAt(s.index, g.ring, g.phys, Blocks(s.tail), p)
            && Chain(s.prod) == Chain(p) && Cleared(p) == Cleared(s.prod) && !Building(p) && !Building(s.prod)
            && Constructed(s.elements, s.tail, s.tailBlock, p)
  {
    ProdFacts(s, g);
    hide Inv, Ringed, Keyed, TailAt, Slot, SlotFor, Valued, ConsWf;
  }

  /** A block given back was in nobody else's hands, so it is not on the list already. */
  lemma GiveBackKeeps(s: State, g: Aux, c: Choice)
    requires Inv(s, g) && Wf(s) && ProdEnabled(s, c) && s.prod.PFree? && s.prod.i < |s.prod.op.got|
    ensures s.prod.op.got[s.prod.i] !in s.free
    ensures Inv(ProdStep(s, c), g.(place := g.place[s.prod.op.got[s.prod.i] := Free]))
  {
    hide Ringed, Keyed, TailAt, ProdAt, Valued, Placed, Reset, Tallied, Ranged, Released, Stored, Partial, Constructed, Looking,
         Sized, Wf, Slot, Shape, ProdWf, ProdStep;
    GiveBackFacts(s, g, c);
    var b := s.prod.op.got[s.prod.i];
    GiveBackPlaced(s, g, PFree(s.prod.op, s.prod.i + 1), b);
    GiveBackTallied(s, g, b, s.prod.i);
  }

  lemma UndoneFacts(s: State, g: Aux, c: Choice)
    requires Inv(s, g) && Wf(s) && ProdEnabled(s, c) && s.prod.PFree? && s.prod.i == |s.prod.op.got|
    ensures ProdIndexed(s, g)
    ensures ProdStep(s, c) == s.(tailBlock := s.prod.op.start, prod := PIdle)
    ensures ProdAt(s.index, g.ring, g.phys, Blocks(s.tail), PIdle)
    ensures s.prod.op.start.Some? ==> s.prod.op.start.value in s.elements
    ensures Valued(s.index, s.values, g.ring, g.phys, Blocks(s.tail), [], 0, false)
  {
    ProdFacts(s, g);
    hide Inv, Ringed, Keyed, TailAt, Slot, SlotFor, ConsWf;
  }

  lemma UndoneSmall(s: State, g: Aux)
    requires Placed(s.elements.Keys, s.free, g.phys, s.prod, s.cons, g.place)
    ensures Placed(s.elements.Keys, s.free, g.phys, PIdle, s.cons, g.place) && Reset(s.dequeued, PIdle)
    ensures Constructed(s.elements, s.tail, s.tailBlock, PIdle) && ProdWf(s.tail, s.elements.Keys, |s.keys|, PIdle)
    ensures Start(PIdle, s.tailBlock) == s.tailBlock
  {
    hide ConsPlace;
  }

  lemma UndoneKeeps(s: State, g: Aux, c: Choice)
    requires Inv(s, g) && Wf(s) && ProdEnabled(s, c) && s.prod.PFree? && s.prod.i == |s.prod.op.got|
    ensures Inv(ProdStep(s, c), g)
  {
    hide Ringed, Keyed, TailAt, ProdAt, Valued, Placed, Reset, Tallied, Ranged, Released, Stored, Partial, Constructed, Looking,
         Sized, Wf, Slot, Shape, ProdWf, ProdStep;
    UndoneFacts(s, g, c);
    UndoneSmall(s, g);
    UndoneSmall(s.(tailBlock := s.prod.op.start), g);
  }
}
