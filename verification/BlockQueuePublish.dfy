/** Constructing the elements of an operation beyond the tail and publishing them. */
module BlockQueuePublish {
  import opened BlockQueue
  import opened BlockQueueProof
  import opened BlockQueueConsumer
  import opened BlockQueueProducer

  // ---------------------------------------------------------------- constructing one element

  /** The producer has all its blocks and is about to construct the next element, or to publish. */
  ghost predicate Filling(s: State) {
    && s.prod.PFill? && s.prod.k <= |s.prod.op.items| && |s.prod.op.got| == Needed(s.tail, s.prod.op)
    && OpWf(s.tail, s.elements.Keys, s.prod.op)
  }

  ghost function Filled(elements: map<BlockId, seq<Option<Elem>>>, b: BlockId, i: nat, e: Elem): map<BlockId, seq<Option<Elem>>>
    requires b in elements && |elements[b]| == BLOCK_SIZE
  {
    elements[b := elements[b][i % BLOCK_SIZE := Some(e)]]
  }

  lemma FilledElsewhere(elements: map<BlockId, seq<Option<Elem>>>, b: BlockId, i: nat, e: Elem, x: BlockId, k: nat, e': Elem)
    requires b in elements && |elements[b]| == BLOCK_SIZE && At(elements, x, k, e')
    requires x != b || (k / BLOCK_SIZE == i / BLOCK_SIZE && k != i)
    ensures At(Filled(elements, b, i, e), x, k, e')
  {
    if x == b { assert k % BLOCK_SIZE != i % BLOCK_SIZE; }
  }

  lemma FilledHere(elements: map<BlockId, seq<Option<Elem>>>, b: BlockId, i: nat, e: Elem)
    requires b in elements && |elements[b]| == BLOCK_SIZE
    ensures At(Filled(elements, b, i, e), b, i, e)
  {
  }

  lemma FillStored(s: State, g: Aux, i: nat, e: Elem)
    requires Placed(s.elements.Keys, s.free, g.phys, s.prod, s.cons, g.place) && Sized(s.elements) && Filling(s)
    requires Partial(s.tail, g.phys, Start(s.prod, s.tailBlock))
    requires Stored(s.elements, s.enq, s.head, g.phys, s.cons) && |s.enq| == s.tail
    requires s.tail <= i < s.tail + |s.prod.op.items| && FillBlock(s.tail, s.prod.op, i) in s.elements
    ensures Stored(Filled(s.elements, FillBlock(s.tail, s.prod.op, i), i, e), s.enq, s.head, g.phys, s.cons)
  {
    hide JobOk, Placed, Partial, FillBlock;
    var b := FillBlock(s.tail, s.prod.op, i);
    var elements' := Filled(s.elements, b, i, e);
    forall k: nat, e' | k < s.tail && Holds(s.elements, g.phys, k, e') ensures Holds(elements', g.phys, k, e') {
      FilledBlockIsLast(s, g, k / BLOCK_SIZE, i);
      FilledElsewhere(s.elements, b, i, e, g.phys[k / BLOCK_SIZE], k, e');
    }
    forall t | 0 <= t < |s.cons| && HasJob(s.cons[t]) ensures s.cons[t].job.end <= s.head {
      assert JobOk(s.cons[t].job, s.head);
      EndOfJob(s.cons[t].job, s.head);
    }
    hide Holds;
  }

  lemma EndOfJob(job: Job, head: nat)
    requires JobOk(job, head)
    ensures job.end <= head
  {
  }

  /** Two elements under construction share a block only if they have the same block number. */
  lemma FillDistinct(s: State, g: Aux, i: nat, k: nat)
    requires Placed(s.elements.Keys, s.free, g.phys, s.prod, s.cons, g.place) && Filling(s)
    requires Partial(s.tail, g.phys, Start(s.prod, s.tailBlock))
    requires s.tail <= i < s.tail + |s.prod.op.items| && s.tail <= k < s.tail + |s.prod.op.items|
    requires FillBlock(s.tail, s.prod.op, i) == FillBlock(s.tail, s.prod.op, k)
    ensures i / BLOCK_SIZE == k / BLOCK_SIZE
  {
    TailBlockIsLive(s, g, i);
    TailBlockIsLive(s, g, k);
    ChainIsNotLive(s, g);
    if i / BLOCK_SIZE < Blocks(s.tail) && k / BLOCK_SIZE < Blocks(s.tail) {
      PhysInjective(s, g, i / BLOCK_SIZE, k / BLOCK_SIZE);
    }
    if i / BLOCK_SIZE >= Blocks(s.tail) && k / BLOCK_SIZE >= Blocks(s.tail) {
      ChainIsDistinct(s, g, i / BLOCK_SIZE - Blocks(s.tail), k / BLOCK_SIZE - Blocks(s.tail));
    }
  }

  lemma ChainIsNotLive(s: State, g: Aux)
    requires Placed(s.elements.Keys, s.free, g.phys, s.prod, s.cons, g.place) && s.prod.PFill?
    ensures forall b, j :: b in g.phys && 0 <= j < |Chain(s.prod)| ==> g.phys[b] != Chain(s.prod)[j]
  {
    forall b, j | b in g.phys && 0 <= j < |Chain(s.prod)| ensures g.phys[b] != Chain(s.prod)[j] {
      assert g.place[Chain(s.prod)[j]] == Got(j);
    }
    hide ConsPlace;
  }

  /** Before the first block of the chain, an element goes into the live tail block. */
  lemma TailBlockIsLive(s: State, g: Aux, i: nat)
    requires Filling(s) && Partial(s.tail, g.phys, Start(s.prod, s.tailBlock))
    requires s.tail <= i < s.tail + |s.prod.op.items|
    ensures if i / BLOCK_SIZE < Blocks(s.tail)
            then i / BLOCK_SIZE in g.phys && g.phys[i / BLOCK_SIZE] == FillBlock(s.tail, s.prod.op, i)
            else i / BLOCK_SIZE - Blocks(s.tail) < |Chain(s.prod)|
                 && Chain(s.prod)[i / BLOCK_SIZE - Blocks(s.tail)] == FillBlock(s.tail, s.prod.op, i)
  {
  }

  lemma ChainIsDistinct(s: State, g: Aux, i: nat, k: nat)
    requires Placed(s.elements.Keys, s.free, g.phys, s.prod, s.cons, g.place) && s.prod.PFill?
    requires i < |Chain(s.prod)| && k < |Chain(s.prod)| && Chain(s.prod)[i] == Chain(s.prod)[k]
    ensures i == k
  {
    assert g.place[Chain(s.prod)[i]] == Got(i) && g.place[Chain(s.prod)[k]] == Got(k);
    hide ConsPlace;
  }

  lemma FillConstructed(s: State, g: Aux, i: nat)
    requires Placed(s.elements.Keys, s.free, g.phys, s.prod, s.cons, g.place) && Sized(s.elements) && Filling(s)
    requires Partial(s.tail, g.phys, Start(s.prod, s.tailBlock))
    requires Constructed(s.elements, s.tail, s.tailBlock, s.prod)
    requires i == s.tail + s.prod.k < s.tail + |s.prod.op.items| && FillBlock(s.tail, s.prod.op, i) in s.elements
    ensures var op, b := s.prod.op, FillBlock(s.tail, s.prod.op, i);
            Constructed(Filled(s.elements, b, i, op.items[s.prod.k]), s.tail, Some(b), PFill(op, s.prod.k + 1))
  {
    hide Placed, Partial, FillBlock, Filled, At, OpWf;
    var op := s.prod.op;
    var b := FillBlock(s.tail, op, i);
    var elements' := Filled(s.elements, b, i, op.items[s.prod.k]);
    FilledHere(s.elements, b, i, op.items[s.prod.k]);
    forall k | s.tail <= k < s.tail + (s.prod.k + 1)
      ensures At(elements', FillBlock(s.tail, op, k), k, op.items[k - s.tail])
    {
      if k < i {
        if FillBlock(s.tail, op, k) == b { FillDistinct(s, g, k, i); }
        FilledElsewhere(s.elements, b, i, op.items[s.prod.k], FillBlock(s.tail, op, k), k, op.items[k - s.tail]);
      }
    }
  }

  lemma FillFacts(s: State, g: Aux, c: Choice)
    requires Inv(s, g) && Wf(s) && ProdEnabled(s, c) && s.prod.PFill? && s.prod.k < |s.prod.op.items|
    ensures ProdIndexed(s, g) && Filling(s)
    ensures var p, op, i := PFill(s.prod.op, s.prod.k + 1), s.prod.op, s.tail + s.prod.k; var b := FillBlock(s.tail, op, i);
            && b in s.elements && |s.elements[b]| == BLOCK_SIZE
            && Filled(s.elements, b, i, op.items[s.prod.k]).Keys == s.elements.Keys
            && Sized(Filled(s.elements, b, i, op.items[s.prod.k]))
            && ProdStep(s, c) == s.(elements := Filled(s.elements, b, i, op.items[s.prod.k]), tailBlock := Some(b), prod := p)
            && ProdWf(s.tail, s.elements.Keys, |s.keys|, p)
            && ProdAt(s.index, g.ring, g.phys, Blocks(s.tail), p)
            && SameChain(s.prod, p) && Cleared(p) == Cleared(s.prod) && !Building(p) && !Building(s.prod)
            && Start(p, Some(b)) == Start(s.prod, s.tailBlock)
  {
    hide Inv, Wf, ProdEnabled, Ringed, Keyed, TailAt, Slot, SlotFor, Valued, ConsWf, Shape;
    ProdFacts(s, g);
  }

  lemma FillKeeps(s: State, g: Aux, c: Choice)
    requires Inv(s, g) && Wf(s) && ProdEnabled(s, c) && s.prod.PFill? && s.prod.k < |s.prod.op.items|
    ensures Inv(ProdStep(s, c), g)
  {
    hide Ringed, Keyed, TailAt, ProdAt, Valued, Placed, Reset, Tallied, Ranged, Released, Stored, Partial, Constructed, Looking,
         Sized, Wf, Slot, Shape, ProdWf, ProdStep, Filling, FillBlock, Filled, Start, SameChain;
    FillFacts(s, g, c);
    var p, i := PFill(s.prod.op, s.prod.k + 1), s.tail + s.prod.k;
    ChainIs(s.prod, p);
    FillStored(s, g, i, s.prod.op.items[s.prod.k]);
    FillConstructed(s, g, i);
    PlacedProd(s.elements.Keys, s.free, g.phys, s.prod, s.cons, g.place, p);
    ResetProd(s.dequeued, s.prod, p);
  }

  // ---------------------------------------------------------------- publishing

  ghost function GrownPhys(phys: map<nat, BlockId>, nb: nat, got: seq<BlockId>): map<nat, BlockId> {
    phys + map b: nat {:trigger Within(nb, b, nb + |got|)} | nb <= b < nb + |got| && Within(nb, b, nb + |got|) :: got[b - nb]
  }

  ghost function LivePlace(place: map<BlockId, Place>, nb: nat): map<BlockId, Place> {
    map x | x in place :: if place[x].Got? then Live(nb + place[x].j) else place[x]
  }

  ghost function PublishAux(s: State, g: Aux): Aux
    requires s.prod.PFill?
  {
    g.(phys := GrownPhys(g.phys, Blocks(s.tail), s.prod.op.got), place := LivePlace(g.place, Blocks(s.tail)))
  }

  lemma PublishPlaced(s: State, g: Aux)
    requires Placed(s.elements.Keys, s.free, g.phys, s.prod, s.cons, g.place) && s.prod.PFill?
    requires forall b :: b in g.phys ==> b < Blocks(s.tail)
    ensures Placed(s.elements.Keys, s.free, PublishAux(s, g).phys, PIdle, s.cons, PublishAux(s, g).place)
  {
    var got := s.prod.op.got;
    var g' := PublishAux(s, g);
    forall b | b in g'.phys
      ensures g'.phys[b] in g'.place && (g'.place[g'.phys[b]].Live? || g'.place[g'.phys[b]].Draining?)
      ensures g'.place[g'.phys[b]].b == b
    {
      if b !in g.phys { assert Chain(s.prod)[b - Blocks(s.tail)] in g.place; }
    }
    forall u | 0 <= u < |s.cons| ensures ConsPlace(s.cons[u], u, g'.phys, g'.place) {
      assert ConsPlace(s.cons[u], u, g.phys, g.place);
    }
  }

  lemma PublishTallied(s: State, g: Aux)
    requires Placed(s.elements.Keys, s.free, g.phys, s.prod, s.cons, g.place) && s.prod.PFill?
    requires Tallied(g.done, s.dequeued, g.phys, g.place) && Reset(s.dequeued, s.prod)
    requires Ranged(g.done, s.head, s.cons) && s.head <= s.tail
    requires forall b :: b in g.phys ==> b < Blocks(s.tail)
    ensures Tallied(g.done, s.dequeued, PublishAux(s, g).phys, PublishAux(s, g).place)
  {
    var nb := Blocks(s.tail);
    var g' := PublishAux(s, g);
    forall b | b in g'.phys && b !in g.phys ensures Of(g.done, b) == {} {
      forall i | i in g.done ensures i / BLOCK_SIZE != b { assert i < s.tail; }
    }
    hide Of, Ranged, ConsPlace;
    forall b | b in g'.phys
      ensures g'.phys[b] in s.dequeued && s.dequeued[g'.phys[b]] == |Of(g.done, b)| && g'.phys[b] in g'.place
      ensures g'.place[g'.phys[b]].Draining? <==> |Of(g.done, b)| == BLOCK_SIZE
    {
      if b !in g.phys { assert Chain(s.prod)[b - nb] in g.place; }
    }
  }

  lemma PublishValued(s: State, g: Aux)
    requires ProdIndexed(s, g) && s.prod.PFill?
    requires Valued(s.index, s.values, g.ring, g.phys, Blocks(s.tail), s.prod.op.got, 0, false)
    requires g.ring.lo <= Blocks(s.tail)
    ensures Valued(s.index, s.values, g.ring, PublishAux(s, g).phys, Blocks(s.tail) + |s.prod.op.got|, [], 0, false)
  {
    hide EntryOf;
  }

  lemma PublishHolds(s: State, g: Aux, i: nat)
    requires Filling(s) && s.prod.k == |s.prod.op.items|
    requires Partial(s.tail, g.phys, Start(s.prod, s.tailBlock))
    requires Constructed(s.elements, s.tail, s.tailBlock, s.prod)
    requires forall b :: b in g.phys ==> b < Blocks(s.tail)
    requires s.tail <= i < s.tail + |s.prod.op.items|
    ensures i / BLOCK_SIZE in PublishAux(s, g).phys
    ensures PublishAux(s, g).phys[i / BLOCK_SIZE] == FillBlock(s.tail, s.prod.op, i)
    ensures Holds(s.elements, PublishAux(s, g).phys, i, s.prod.op.items[i - s.tail])
  {
    hide At;
  }

  lemma PublishStored(s: State, g: Aux)
    requires Filling(s) && s.prod.k == |s.prod.op.items| && |s.enq| == s.tail
    requires Partial(s.tail, g.phys, Start(s.prod, s.tailBlock))
    requires Constructed(s.elements, s.tail, s.tailBlock, s.prod)
    requires forall b :: b in g.phys ==> b < Blocks(s.tail)
    requires Stored(s.elements, s.enq, s.head, g.phys, s.cons)
    ensures Stored(s.elements, s.enq + s.prod.op.items, s.head, PublishAux(s, g).phys, s.cons)
  {
    var enq', phys' := s.enq + s.prod.op.items, PublishAux(s, g).phys;
    hide At, Filling, Partial, Constructed;
    forall i, e | Holds(s.elements, g.phys, i, e) ensures Holds(s.elements, phys', i, e) {}
    forall i | s.tail <= i < |enq'| ensures Holds(s.elements, phys', i, enq'[i]) {
      PublishHolds(s, g, i);
    }
    hide Holds, PublishAux;
    forall t | 0 <= t < |s.cons| && HasJob(s.cons[t])
      ensures s.cons[t].job.out == enq'[s.cons[t].job.first..s.cons[t].job.at]
    {
      assert JobOk(s.cons[t].job, s.head);
      assert enq'[s.cons[t].job.first..s.cons[t].job.at] == s.enq[s.cons[t].job.first..s.cons[t].job.at];
    }
  }

  lemma PublishPartial(s: State, g: Aux)
    requires Filling(s) && s.prod.k == |s.prod.op.items|
    requires Partial(s.tail, g.phys, Start(s.prod, s.tailBlock))
    requires Constructed(s.elements, s.tail, s.tailBlock, s.prod)
    requires forall b :: b in g.phys ==> b < Blocks(s.tail)
    ensures Partial(s.tail + |s.prod.op.items|, PublishAux(s, g).phys, s.tailBlock)
  {
    hide At;
    if |s.prod.op.items| > 0 { PublishHolds(s, g, s.tail + |s.prod.op.items| - 1); }
  }

  lemma PublishReleased(s: State, g: Aux)
    requires Released(g.done, Blocks(s.tail), g.phys) && s.prod.PFill?
    ensures Released(g.done, Blocks(s.tail) + |s.prod.op.got|, PublishAux(s, g).phys)
  {
  }

  lemma PublishLooking(s: State, g: Aux)
    requires Shape(s.index, s.keys, g.ring) && Looking(s.index, s.keys, g.ring, g.phys, s.cons) && s.prod.PFill?
    requires forall b :: b in g.phys ==> b < Blocks(s.tail)
    ensures Looking(s.index, s.keys, g.ring, PublishAux(s, g).phys, s.cons)
  {
    hide HeaderOk, Slot, Shape;
    forall u | 0 <= u < |s.cons| ensures LookupOk(s.index, s.keys, g.ring, PublishAux(s, g).phys, s.cons[u]) {
      assert LookupOk(s.index, s.keys, g.ring, g.phys, s.cons[u]);
    }
  }

  lemma PublishSmall(s: State, g: Aux)
    requires ProdIndexed(s, g) && s.prod.PFill?
    requires ProdAt(s.index, g.ring, g.phys, Blocks(s.tail), s.prod)
    requires Valued(s.index, s.values, g.ring, g.phys, Blocks(s.tail), Chain(s.prod), Cleared(s.prod), Building(s.prod))
    ensures ProdAt(s.index, g.ring, PublishAux(s, g).phys, Blocks(s.tail) + |s.prod.op.got|, PIdle)
    ensures forall b :: b in g.phys ==> b < Blocks(s.tail)
    ensures g.ring.lo <= Blocks(s.tail)
    ensures Valued(s.index, s.values, g.ring, g.phys, Blocks(s.tail), s.prod.op.got, 0, false)
    ensures Chain(PIdle) == [] && Cleared(PIdle) == 0 && !Building(PIdle) && Reset(s.dequeued, PIdle)
    ensures ProdWf(s.tail + |s.prod.op.items|, s.elements.Keys, |s.keys|, PIdle)
    ensures Constructed(s.elements, s.tail + |s.prod.op.items|, s.tailBlock, PIdle)
    ensures Start(PIdle, s.tailBlock) == s.tailBlock
  {
    hide EntryOf;
  }

  lemma PublishFacts(s: State, g: Aux, c: Choice)
    requires Inv(s, g) && Wf(s) && ProdEnabled(s, c) && s.prod.PFill? && s.prod.k == |s.prod.op.items|
    ensures Filling(s) && ProdIndexed(s, g) && Shape(s.index, s.keys, g.ring) && s.head <= s.tail
    ensures ProdStep(s, c) == s.(tail := s.tail + |s.prod.op.items|, enq := s.enq + s.prod.op.items, prod := PIdle)
    ensures s.tailBlock.Some? ==> s.tailBlock.value in s.elements
    ensures Blocks(s.tail + |s.prod.op.items|) == Blocks(s.tail) + |s.prod.op.got|
  {
    ProdFacts(s, g);
    hide Ringed, Keyed, TailAt, Slot, SlotFor, Valued, ConsWf, Placed, Stored, Looking, Tallied, Ranged, Released, Partial;
  }

  lemma PublishKeeps(s: State, g: Aux, c: Choice)
    requires Inv(s, g) && Wf(s) && ProdEnabled(s, c) && s.prod.PFill? && s.prod.k == |s.prod.op.items|
    ensures Inv(ProdStep(s, c), PublishAux(s, g))
  {
    hide Ringed, Keyed, TailAt, ProdAt, Valued, Placed, Reset, Tallied, Ranged, Released, Stored, Partial, Constructed, Looking,
         Sized, Wf, Slot, Shape, ProdWf, ProdStep, Filling, FillBlock, Start, Chain, Cleared, Building, GrownPhys, LivePlace, Blocks;
    PublishFacts(s, g, c);
    PublishSmall(s, g);
    PublishPlaced(s, g);
    PublishTallied(s, g);
    PublishValued(s, g);
    PublishStored(s, g);
    PublishPartial(s, g);
    PublishReleased(s, g);
    PublishLooking(s, g);
  }
}
