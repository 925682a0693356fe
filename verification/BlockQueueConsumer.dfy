/** Every step of a consumer keeps the invariant of BlockQueue, and none ends in `Crashed`. */
module BlockQueueConsumer {
  import opened BlockQueue
  import opened BlockQueueProof

  // ---------------------------------------------------------------- replacing one consumer

  lemma RangedCons(done: set<nat>, head: nat, cons: seq<Cons>, t: Tid, c: Cons)
    requires Ranged(done, head, cons) && t < |cons| && HasJob(cons[t]) && HasJob(c)
    requires c.job.from == cons[t].job.from && c.job.end == cons[t].job.end && JobOk(c.job, head)
    ensures Ranged(done, head, cons[t := c])
  {
  }

  lemma StoredCons(elements: map<BlockId, seq<Option<Elem>>>, enq: seq<Elem>, head: nat, phys: map<nat, BlockId>,
                   cons: seq<Cons>, t: Tid, c: Cons)
    requires Stored(elements, enq, head, phys, cons) && t < |cons| && HasJob(cons[t]) && HasJob(c)
    requires c.job.(from := cons[t].job.from) == cons[t].job && JobOk(c.job, head)
    ensures Stored(elements, enq, head, phys, cons[t := c])
  {
  }

  lemma PlacedCons(blocks: set<BlockId>, free: set<BlockId>, phys: map<nat, BlockId>, p: Prod, cons: seq<Cons>,
                   place: map<BlockId, Place>, t: Tid, c: Cons)
    requires Placed(blocks, free, phys, p, cons, place) && t < |cons| && ConsPlace(c, t, phys, place)
    ensures Placed(blocks, free, phys, p, cons[t := c], place)
  {
  }

  lemma LookingCons(index: seq<seq<EntryId>>, keys: seq<nat>, r: Ring, phys: map<nat, BlockId>, cons: seq<Cons>,
                    t: Tid, c: Cons)
    requires Shape(index, keys, r) && Looking(index, keys, r, phys, cons) && t < |cons|
    requires LookupOk(index, keys, r, phys, c)
    ensures Looking(index, keys, r, phys, cons[t := c])
  {
  }

  /** A consumer that only changes its program counter, not its job. */
  lemma SameJob(s: State, g: Aux, t: Tid, c: Cons)
    requires Inv(s, g) && t < |s.cons| && HasJob(s.cons[t]) && HasJob(c) && c.job == s.cons[t].job
    requires ConsPlace(c, t, g.phys, g.place)
    requires LookupOk(s.index, s.keys, g.ring, g.phys, c)
    ensures Inv(s.(cons := s.cons[t := c]), g)
  {
    assert JobOk(c.job, s.head);
    hide Ringed, Keyed, TailAt, ProdAt, Valued, Placed, Reset, Tallied, Ranged, Released, Stored, Partial, Constructed, Looking,
         LookupOk, Shape, ConsPlace, JobOk, Sized, ProdWf;
    KeyedShape(s.index, s.keys, g.ring);
    RangedCons(g.done, s.head, s.cons, t, c);
    StoredCons(s.elements, s.enq, s.head, g.phys, s.cons, t, c);
    PlacedCons(s.elements.Keys, s.free, g.phys, s.prod, s.cons, g.place, t, c);
    LookingCons(s.index, s.keys, g.ring, g.phys, s.cons, t, c);
  }

  lemma KeyedShape(index: seq<seq<EntryId>>, keys: seq<nat>, r: Ring)
    requires Keyed(index, keys, r)
    ensures Shape(index, keys, r)
  {
  }

  // ---------------------------------------------------------------- lookups

  /** The blocks of a consumer's range are live until it has counted them. */
  lemma JobIsLive(s: State, g: Aux, t: Tid, i: nat)
    requires Ranged(g.done, s.head, s.cons) && Released(g.done, Blocks(s.tail), g.phys) && s.head <= s.tail
    requires t < |s.cons| && HasJob(s.cons[t]) && s.cons[t].job.from <= i < s.cons[t].job.end
    ensures i / BLOCK_SIZE in g.phys && i / BLOCK_SIZE < Blocks(s.tail)
  {
    assert JobOk(s.cons[t].job, s.head);
    assert i !in g.done;
  }

  lemma TailKeyIsValid(s: State, g: Aux, h: nat, b: nat)
    requires Keyed(s.index, s.keys, g.ring) && Ringed(s.index, s.keys, g.ring) && TailAt(s.index, s.tails, g.ring)
    requires ProdAt(s.index, g.ring, g.phys, Blocks(s.tail), s.prod)
    requires Valued(s.index, s.values, g.ring, g.phys, Blocks(s.tail), Chain(s.prod), Cleared(s.prod), Building(s.prod))
    requires h < |s.index| && b in g.phys
    ensures s.tails[h] < |s.index[h]| && s.keys[s.index[h][s.tails[h]]] != INVALID_BLOCK_BASE
  {
    hide Slot, KeyInSlot;
    if h == |s.index| - 1 {
      assert s.index[h][s.tails[h]] == EntryOf(s.index, g.ring, g.ring.m - 1);
      assert g.ring.lo <= g.ring.m - 1 < g.ring.hi;
    }
  }

  /** The slot a consumer computes holds its block, whatever the producer did between its reads. */
  lemma LookupFindsBlock(s: State, g: Aux, i: nat, h: nat, last: int, tl: nat)
    requires Keyed(s.index, s.keys, g.ring)
    requires HeaderOk(s.index, g.ring, h, i / BLOCK_SIZE, last) && i / BLOCK_SIZE <= last
    requires tl < |s.index[h]| && s.keys[s.index[h][tl]] != INVALID_BLOCK_BASE
    ensures SlotFor(i, tl, s.keys[s.index[h][tl]], |s.index[h]|) == Slot(i / BLOCK_SIZE, g.ring.c[h], |s.index[h]|)
  {
    var key := s.keys[s.index[h][tl]];
    assert KeyInSlot(key, tl, g.ring.c[h], |s.index[h]|);
    assert key == key / BLOCK_SIZE * BLOCK_SIZE;
    SlotForBlock(i, tl, key / BLOCK_SIZE, g.ring.c[h], |s.index[h]|);
  }

  /** What the invariant says of one consumer. */
  lemma JobFacts(s: State, g: Aux, t: Tid)
    requires Inv(s, g) && t < |s.cons| && HasJob(s.cons[t])
    ensures Keyed(s.index, s.keys, g.ring) && Shape(s.index, s.keys, g.ring)
    ensures LookupOk(s.index, s.keys, g.ring, g.phys, s.cons[t])
    ensures ConsPlace(s.cons[t], t, g.phys, g.place)
    ensures JobOk(s.cons[t].job, s.head) && s.head <= s.tail == |s.enq|
    ensures s.elements.Keys == s.dequeued.Keys
    ensures forall i :: s.cons[t].job.from <= i < s.cons[t].job.end ==>
              i / BLOCK_SIZE in g.phys && i / BLOCK_SIZE < Blocks(s.tail)
    ensures forall i :: s.cons[t].job.at <= i < s.cons[t].job.end ==> Holds(s.elements, g.phys, i, s.enq[i])
  {
    hide Ringed, TailAt, ProdAt, Valued, Tallied, Partial, Constructed, LookupOk, JobOk, Sized, ProdWf, Holds, KeyInSlot;
    forall i | s.cons[t].job.from <= i < s.cons[t].job.end
      ensures i / BLOCK_SIZE in g.phys && i / BLOCK_SIZE < Blocks(s.tail)
    {
      JobIsLive(s, g, t, i);
    }
  }

  lemma IndexKeeps(s: State, g: Aux, t: Tid)
    requires Inv(s, g) && Wf(s) && t < |s.cons| && s.cons[t].CIndex?
    ensures Inv(ConsStep(s, t), g)
  {
    JobFacts(s, g, t);
    hide Inv, Slot, Keyed, Wf;
    var c := CTail(s.cons[t].job, |s.index| - 1);
    assert ConsStep(s, t) == s.(cons := s.cons[t := c]);
    SameJob(s, g, t, c);
  }

  lemma TailKeeps(s: State, g: Aux, t: Tid)
    requires Inv(s, g) && Wf(s) && t < |s.cons| && s.cons[t].CTail?
    ensures Inv(ConsStep(s, t), g)
  {
    JobFacts(s, g, t);
    var job, h := s.cons[t].job, s.cons[t].h;
    TailKeyIsValid(s, g, h, job.from / BLOCK_SIZE);
    hide Inv, Slot, Keyed, Wf;
    var c := CKey(job, h, s.tails[h]);
    assert ConsStep(s, t) == s.(cons := s.cons[t := c]);
    SameJob(s, g, t, c);
  }

  lemma KeyKeeps(s: State, g: Aux, t: Tid)
    requires Inv(s, g) && Wf(s) && t < |s.cons| && s.cons[t].CKey?
    ensures Inv(ConsStep(s, t), g)
  {
    JobFacts(s, g, t);
    var job, h, tl := s.cons[t].job, s.cons[t].h, s.cons[t].tl;
    LookupFindsBlock(s, g, job.at, h, LastOf(job), tl);
    hide Inv, Slot, Keyed, Wf, SlotFor, HeaderOk;
    var c := CValue(job, h, SlotFor(job.at, tl, s.keys[s.index[h][tl]], |s.index[h]|));
    assert ConsStep(s, t) == s.(cons := s.cons[t := c]);
    SameJob(s, g, t, c);
  }

  /** The entry of a live block points to it. */
  lemma LiveValue(s: State, g: Aux, b: nat)
    requires Inv(s, g) && b in g.phys
    ensures EntryOf(s.index, g.ring, b) < |s.values| && s.values[EntryOf(s.index, g.ring, b)] == Some(g.phys[b])
    ensures g.phys[b] in s.elements && g.phys[b] in g.place
  {
    hide Ringed, TailAt, Tallied, Partial, Constructed, LookupOk, JobOk, Sized, ProdWf, Holds, KeyInSlot, Slot, ConsPlace, Stored,
         Looking, Ranged, Released;
  }

  lemma ValueKeeps(s: State, g: Aux, t: Tid)
    requires Inv(s, g) && Wf(s) && t < |s.cons| && s.cons[t].CValue?
    ensures Inv(ConsStep(s, t), g)
  {
    JobFacts(s, g, t);
    var job, h, slot := s.cons[t].job, s.cons[t].h, s.cons[t].slot;
    var b := job.from / BLOCK_SIZE;
    LiveValue(s, g, b);
    hide Inv, Slot, Keyed, Wf;
    assert s.index[h][slot] == EntryOf(s.index, g.ring, b);
    var c := CRead(job, h, slot, g.phys[b]);
    assert ConsStep(s, t) == s.(cons := s.cons[t := c]);
    SameJob(s, g, t, c);
  }

  lemma ReadEndKeeps(s: State, g: Aux, t: Tid)
    requires Inv(s, g) && Wf(s) && t < |s.cons| && s.cons[t].CRead? && s.cons[t].job.at >= Stop(s.cons[t].job)
    ensures Inv(ConsStep(s, t), g)
  {
    JobFacts(s, g, t);
    hide Inv, Slot, Keyed, Wf, InBlock;
    var c := CCount(s.cons[t].job, s.cons[t].h, s.cons[t].slot, s.cons[t].block);
    assert ConsStep(s, t) == s.(cons := s.cons[t := c]);
    SameJob(s, g, t, c);
  }

  // ---------------------------------------------------------------- moving an element out

  ghost function Emptied(elements: map<BlockId, seq<Option<Elem>>>, b: BlockId, i: nat): map<BlockId, seq<Option<Elem>>>
    requires b in elements && |elements[b]| == BLOCK_SIZE
  {
    elements[b := elements[b][i % BLOCK_SIZE := None]]
  }

  lemma EmptiedElsewhere(elements: map<BlockId, seq<Option<Elem>>>, b: BlockId, i: nat, x: BlockId, k: nat, e: Elem)
    requires b in elements && |elements[b]| == BLOCK_SIZE && At(elements, x, k, e)
    requires x != b || (k / BLOCK_SIZE == i / BLOCK_SIZE && k != i)
    ensures At(Emptied(elements, b, i), x, k, e)
  {
    if x == b { assert k % BLOCK_SIZE != i % BLOCK_SIZE; }
  }

  lemma PhysInjective(s: State, g: Aux, b: nat, c: nat)
    requires Placed(s.elements.Keys, s.free, g.phys, s.prod, s.cons, g.place)
    requires b in g.phys && c in g.phys && g.phys[b] == g.phys[c]
    ensures b == c
  {
  }

  lemma HoldsElsewhere(s: State, g: Aux, i: nat, k: nat, e: Elem)
    requires Placed(s.elements.Keys, s.free, g.phys, s.prod, s.cons, g.place) && Sized(s.elements)
    requires i / BLOCK_SIZE in g.phys && g.phys[i / BLOCK_SIZE] in s.elements
    requires Holds(s.elements, g.phys, k, e) && k != i
    ensures Holds(Emptied(s.elements, g.phys[i / BLOCK_SIZE], i), g.phys, k, e)
  {
    var b := g.phys[i / BLOCK_SIZE];
    if g.phys[k / BLOCK_SIZE] == b { PhysInjective(s, g, i / BLOCK_SIZE, k / BLOCK_SIZE); }
    EmptiedElsewhere(s.elements, b, i, g.phys[k / BLOCK_SIZE], k, e);
  }

  ghost function ReadOne(c: Cons, e: Elem): Cons
    requires c.CRead?
  {
    CRead(c.job.(at := c.job.at + 1, out := c.job.out + [e]), c.h, c.slot, c.block)
  }

  lemma ReadStored(s: State, g: Aux, t: Tid, e: Elem)
    requires Placed(s.elements.Keys, s.free, g.phys, s.prod, s.cons, g.place) && Sized(s.elements)
    requires Stored(s.elements, s.enq, s.head, g.phys, s.cons) && Ranged(g.done, s.head, s.cons)
    requires t < |s.cons| && s.cons[t].CRead?
    requires s.cons[t].job.at < s.cons[t].job.end && Holds(s.elements, g.phys, s.cons[t].job.at, e)
    requires s.cons[t].job.at < (s.cons[t].job.from / BLOCK_SIZE + 1) * BLOCK_SIZE
    ensures var job := s.cons[t].job;
            Stored(Emptied(s.elements, g.phys[job.at / BLOCK_SIZE], job.at), s.enq, s.head, g.phys,
                   s.cons[t := ReadOne(s.cons[t], e)])
  {
    var job := s.cons[t].job;
    var elements' := Emptied(s.elements, g.phys[job.at / BLOCK_SIZE], job.at);
    var job' := job.(at := job.at + 1, out := job.out + [e]);
    var cons' := s.cons[t := ReadOne(s.cons[t], e)];
    assert Holds(s.elements, g.phys, job.at, s.enq[job.at]);
    assert JobOk(job, s.head) && JobOk(job', s.head);
    assert s.enq[job.first..job'.at] == s.enq[job.first..job.at] + [s.enq[job.at]];
    forall i | s.head <= i < |s.enq| ensures Holds(elements', g.phys, i, s.enq[i]) {
      HoldsElsewhere(s, g, job.at, i, s.enq[i]);
    }
    forall u, i | 0 <= u < |cons'| && HasJob(cons'[u]) && cons'[u].job.at <= i < cons'[u].job.end
      ensures Holds(elements', g.phys, i, s.enq[i])
    {
      assert JobOk(s.cons[u].job, s.head);
      assert Holds(s.elements, g.phys, i, s.enq[i]);
      HoldsElsewhere(s, g, job.at, i, s.enq[i]);
    }
  }

  /** A block that is also being filled is the tail block. */
  lemma FilledBlockIsLast(s: State, g: Aux, b: nat, k: nat)
    requires Placed(s.elements.Keys, s.free, g.phys, s.prod, s.cons, g.place)
    requires Partial(s.tail, g.phys, Start(s.prod, s.tailBlock))
    requires s.prod.PFill? && (s.tail % BLOCK_SIZE != 0 ==> s.prod.op.start.Some?)
    requires |s.prod.op.got| == Needed(s.tail, s.prod.op) && s.tail <= k < s.tail + |s.prod.op.items|
    requires b in g.phys
    ensures g.phys[b] == FillBlock(s.tail, s.prod.op, k) ==> b == k / BLOCK_SIZE
  {
    var c := k / BLOCK_SIZE;
    if c < Blocks(s.tail) {
      if g.phys[b] == FillBlock(s.tail, s.prod.op, k) { PhysInjective(s, g, b, c); }
    } else {
      var j := c - Blocks(s.tail);
      assert Chain(s.prod)[j] in g.place && g.place[Chain(s.prod)[j]] == Got(j);
    }
  }

  /** What the producer constructs is beyond the tail, so a consumer never empties it. */
  lemma ReadConstructed(s: State, g: Aux, i: nat)
    requires Placed(s.elements.Keys, s.free, g.phys, s.prod, s.cons, g.place) && Sized(s.elements)
    requires Partial(s.tail, g.phys, Start(s.prod, s.tailBlock))
    requires Constructed(s.elements, s.tail, s.tailBlock, s.prod)
    requires i / BLOCK_SIZE in g.phys && g.phys[i / BLOCK_SIZE] in s.elements && i < s.tail
    ensures Constructed(Emptied(s.elements, g.phys[i / BLOCK_SIZE], i), s.tail, s.tailBlock, s.prod)
  {
    if s.prod.PFill? {
      var op := s.prod.op;
      var b := g.phys[i / BLOCK_SIZE];
      forall k | s.tail <= k < s.tail + s.prod.k
        ensures At(Emptied(s.elements, b, i), FillBlock(s.tail, op, k), k, op.items[k - s.tail])
      {
        FilledBlockIsLast(s, g, i / BLOCK_SIZE, k);
        EmptiedElsewhere(s.elements, b, i, FillBlock(s.tail, op, k), k, op.items[k - s.tail]);
      }
    }
  }

  lemma HoldsAt(s: State, g: Aux, i: nat, e: Elem)
    requires Holds(s.elements, g.phys, i, e)
    ensures i / BLOCK_SIZE in g.phys && At(s.elements, g.phys[i / BLOCK_SIZE], i, e)
  {
  }

  lemma ReadFacts(s: State, g: Aux, t: Tid)
    requires Inv(s, g) && t < |s.cons| && s.cons[t].CRead? && s.cons[t].job.at < Stop(s.cons[t].job)
    ensures var job, b := s.cons[t].job, s.cons[t].block;
            && job.at / BLOCK_SIZE in g.phys && b == g.phys[job.at / BLOCK_SIZE] && job.at < |s.enq|
            && job.at < job.end <= s.tail && job.at < (job.from / BLOCK_SIZE + 1) * BLOCK_SIZE
            && Holds(s.elements, g.phys, job.at, s.enq[job.at])
            && b in s.elements && |s.elements[b]| == BLOCK_SIZE
    ensures var c := ReadOne(s.cons[t], s.enq[s.cons[t].job.at]);
            && JobOk(c.job, s.head) && ConsPlace(c, t, g.phys, g.place)
            && Shape(s.index, s.keys, g.ring) && LookupOk(s.index, s.keys, g.ring, g.phys, c)
  {
    JobFacts(s, g, t);
    hide Inv, Keyed, HeaderOk;
    var job := s.cons[t].job;
    assert job.at / BLOCK_SIZE == job.from / BLOCK_SIZE;
    assert Holds(s.elements, g.phys, job.at, s.enq[job.at]);
  }

  lemma ReadIs(s: State, t: Tid, e: Elem)
    requires Wf(s) && t < |s.cons| && s.cons[t].CRead? && s.cons[t].job.at < Stop(s.cons[t].job)
    requires At(s.elements, s.cons[t].block, s.cons[t].job.at, e)
    ensures ConsStep(s, t) == s.(elements := Emptied(s.elements, s.cons[t].block, s.cons[t].job.at),
                                 cons := s.cons[t := ReadOne(s.cons[t], e)])
    ensures Emptied(s.elements, s.cons[t].block, s.cons[t].job.at).Keys == s.elements.Keys
    ensures Sized(Emptied(s.elements, s.cons[t].block, s.cons[t].job.at))
  {
    hide ConsWf, ProdWf;
  }

  lemma ReadKeeps(s: State, g: Aux, t: Tid)
    requires Inv(s, g) && Wf(s) && t < |s.cons| && s.cons[t].CRead? && s.cons[t].job.at < Stop(s.cons[t].job)
    ensures Inv(ConsStep(s, t), g)
  {
    hide Ringed, Keyed, TailAt, ProdAt, Valued, Placed, Reset, Tallied, Ranged, Released, Stored, Partial, Constructed, Looking,
         LookupOk, Shape, ConsPlace, JobOk, Sized, ProdWf, Wf, ConsStep, Holds, At, Emptied;
    ReadFacts(s, g, t);
    var e := s.enq[s.cons[t].job.at];
    HoldsAt(s, g, s.cons[t].job.at, e);
    ReadIs(s, t, e);
    var c := ReadOne(s.cons[t], e);
    ReadStored(s, g, t, e);
    ReadConstructed(s, g, s.cons[t].job.at);
    RangedCons(g.done, s.head, s.cons, t, c);
    PlacedCons(s.elements.Keys, s.free, g.phys, s.prod, s.cons, g.place, t, c);
    LookingCons(s.index, s.keys, g.ring, g.phys, s.cons, t, c);
  }

  // ---------------------------------------------------------------- counting what was read

  ghost predicate Within(lo: nat, i: nat, hi: nat) {
    lo <= i < hi
  }

  ghost function Span(lo: nat, hi: nat): set<nat> {
    set i {:trigger Within(lo, i, hi)} | lo <= i < hi && Within(lo, i, hi)
  }

  lemma {:induction false} SpanSize(lo: nat, hi: nat)
    requires lo <= hi
    ensures |Span(lo, hi)| == hi - lo
  {
    if lo < hi {
      SpanSize(lo, hi - 1);
      assert Span(lo, hi) == Span(lo, hi - 1) + {hi - 1};
    }
  }

  lemma OfGrows(done: set<nat>, b: nat, from: nat, at: nat)
    requires from <= at && forall i :: from <= i < at ==> i / BLOCK_SIZE == b && i !in done
    ensures |Of(done + Span(from, at), b)| == |Of(done, b)| + (at - from)
    ensures forall c :: c != b ==> Of(done + Span(from, at), c) == Of(done, c)
  {
    SpanSize(from, at);
    assert Of(done + Span(from, at), b) == Of(done, b) + Span(from, at);
  }

  lemma {:induction false} SubsetSize<T>(a: set<T>, b: set<T>)
    requires a <= b
    ensures |a| <= |b| && (|a| == |b| ==> a == b)
  {
    if a != {} {
      var x :| x in a;
      SubsetSize(a - {x}, b - {x});
    }
  }

  /** A block's count reaches the block size exactly when all its elements are dequeued. */
  lemma OfFull(done: set<nat>, b: nat)
    ensures |Of(done, b)| <= BLOCK_SIZE
    ensures |Of(done, b)| == BLOCK_SIZE <==> forall i: nat :: i / BLOCK_SIZE == b ==> i in done
  {
    var all := Span(b * BLOCK_SIZE, (b + 1) * BLOCK_SIZE);
    SpanSize(b * BLOCK_SIZE, (b + 1) * BLOCK_SIZE);
    forall i: nat ensures i in all <==> i / BLOCK_SIZE == b {}
    SubsetSize(Of(done, b), all);
    if |Of(done, b)| == BLOCK_SIZE {
      forall i: nat | i / BLOCK_SIZE == b ensures i in done { assert i in Of(done, b); }
    }
    if forall i: nat :: i / BLOCK_SIZE == b ==> i in done {
      assert Of(done, b) == all;
    }
  }

  /** The witness after a consumer has counted. */
  ghost function CountAux(s: State, g: Aux, t: Tid): Aux
    requires t < |s.cons| && s.cons[t].CCount? && s.cons[t].block in s.dequeued
  {
    var job, b := s.cons[t].job, s.cons[t].block;
    g.(done := g.done + Span(job.from, job.at),
       place := if s.dequeued[b] + (job.at - job.from) == BLOCK_SIZE
                then g.place[b := Draining(job.from / BLOCK_SIZE, t)] else g.place)
  }

  lemma CountFacts(s: State, g: Aux, t: Tid)
    requires Inv(s, g) && t < |s.cons| && s.cons[t].CCount?
    ensures var job, b := s.cons[t].job, s.cons[t].block;
            && job.from / BLOCK_SIZE in g.phys && b == g.phys[job.from / BLOCK_SIZE]
            && b in s.dequeued && b in s.elements && b in g.place
            && job.from < job.at <= job.end <= s.head && JobOk(job, s.head)
            && job.at == Stop(job)
            && (forall i :: job.from <= i < job.at ==> i / BLOCK_SIZE == job.from / BLOCK_SIZE && i !in g.done)
            && s.dequeued[b] == |Of(g.done, job.from / BLOCK_SIZE)| < BLOCK_SIZE
            && g.place[b] == Live(job.from / BLOCK_SIZE)
    ensures Shape(s.index, s.keys, g.ring) && LookupOk(s.index, s.keys, g.ring, g.phys, s.cons[t])
  {
    JobFacts(s, g, t);
    var job := s.cons[t].job;
    var n := job.from / BLOCK_SIZE;
    OfFull(g.done, n);
    LiveValue(s, g, n);
    hide Keyed, Ringed, TailAt, ProdAt, Valued, Stored, Partial, Constructed, Looking, HeaderOk, Sized, ProdWf, ConsPlace;
    assert job.from !in g.done;
  }

  lemma CountTallied(s: State, g: Aux, t: Tid, b: BlockId, n: nat, from: nat, at: nat, place: map<BlockId, Place>)
    requires Placed(s.elements.Keys, s.free, g.phys, s.prod, s.cons, g.place)
    requires Tallied(g.done, s.dequeued, g.phys, g.place)
    requires n in g.phys && g.phys[n] == b && b in s.dequeued && b in g.place && g.place[b] == Live(n)
    requires from <= at && forall i :: from <= i < at ==> i / BLOCK_SIZE == n && i !in g.done
    requires place == if s.dequeued[b] + (at - from) == BLOCK_SIZE then g.place[b := Draining(n, t)] else g.place
    ensures Tallied(g.done + Span(from, at), s.dequeued[b := s.dequeued[b] + (at - from)], g.phys, place)
  {
    OfGrows(g.done, n, from, at);
    hide Of;
    forall c | c in g.phys && c != n ensures g.phys[c] != b {
      if g.phys[c] == b { PhysInjective(s, g, c, n); }
    }
  }

  lemma CountRanged(done: set<nat>, head: nat, cons: seq<Cons>, t: Tid, c: Cons)
    requires Ranged(done, head, cons) && t < |cons| && HasJob(cons[t]) && HasJob(c)
    requires JobOk(cons[t].job, head) && JobOk(c.job, head)
    requires c.job.from == cons[t].job.at && c.job.end == cons[t].job.end
    ensures Ranged(done + Span(cons[t].job.from, cons[t].job.at), head, cons[t := c])
  {
  }

  /** Only its own consumer drains a block, and draining moves no block. */
  lemma CountPlaced(s: State, g: Aux, t: Tid, c: Cons, b: BlockId, n: nat, place: map<BlockId, Place>)
    requires Placed(s.elements.Keys, s.free, g.phys, s.prod, s.cons, g.place)
    requires t < |s.cons| && n in g.phys && g.phys[n] == b && b in g.place && g.place[b] == Live(n)
    requires place == g.place || place == g.place[b := Draining(n, t)]
    requires ConsPlace(c, t, g.phys, place)
    ensures Placed(s.elements.Keys, s.free, g.phys, s.prod, s.cons[t := c], place)
  {
    forall u | 0 <= u < |s.cons| && u != t ensures ConsPlace(s.cons[u], u, g.phys, place) {
      assert ConsPlace(s.cons[u], u, g.phys, g.place);
    }
  }

  ghost function Counted(s: State, t: Tid): Cons
    requires Wf(s) && t < |s.cons| && s.cons[t].CCount?
  {
    ConsStep(s, t).cons[t]
  }

  lemma CountLookup(s: State, g: Aux, t: Tid)
    requires Wf(s) && Shape(s.index, s.keys, g.ring) && t < |s.cons| && s.cons[t].CCount?
    requires LookupOk(s.index, s.keys, g.ring, g.phys, s.cons[t])
    requires s.cons[t].job.from < s.cons[t].job.at == Stop(s.cons[t].job) && JobOk(s.cons[t].job, s.head)
    ensures LookupOk(s.index, s.keys, g.ring, g.phys, Counted(s, t))
    ensures HasJob(Counted(s, t)) && Counted(s, t).job == s.cons[t].job.(from := s.cons[t].job.at)
    ensures JobOk(Counted(s, t).job, s.head)
  {
    var job, h := s.cons[t].job, s.cons[t].h;
    SlotMoves(job.from / BLOCK_SIZE, g.ring.c[h], |s.index[h]|, 1);
    assert LastBlock(job) == job.from / BLOCK_SIZE;
    assert job.at < job.end ==> job.at / BLOCK_SIZE == job.from / BLOCK_SIZE + 1;
    hide Slot, ConsWf, ProdWf;
  }

  lemma CountIs(s: State, g: Aux, t: Tid)
    requires Wf(s) && t < |s.cons| && s.cons[t].CCount?
    ensures var job, b := s.cons[t].job, s.cons[t].block;
            b in s.dequeued &&
            ConsStep(s, t) == s.(dequeued := s.dequeued[b := s.dequeued[b] + (job.at - job.from)],
                                 cons := s.cons[t := Counted(s, t)])
    ensures s.cons[t].job.from / BLOCK_SIZE == LastBlock(s.cons[t].job) && s.cons[t].job.at > 0
            && s.cons[t].job.from / BLOCK_SIZE in g.phys && g.phys[s.cons[t].job.from / BLOCK_SIZE] == s.cons[t].block ==>
              ConsPlace(Counted(s, t), t, g.phys, CountAux(s, g, t).place)
  {
    assert ConsWf(s.index, s.elements.Keys, s.cons[t]);
    hide ProdWf;
  }

  lemma ReleasedGrows(done: set<nat>, nb: nat, phys: map<nat, BlockId>, more: set<nat>)
    requires Released(done, nb, phys)
    ensures Released(done + more, nb, phys)
  {
  }

  lemma CountReset(s: State, g: Aux, b: BlockId, n: nat, now: nat)
    requires Placed(s.elements.Keys, s.free, g.phys, s.prod, s.cons, g.place) && Reset(s.dequeued, s.prod)
    requires b in g.place && g.place[b] == Live(n)
    ensures Reset(s.dequeued[b := now], s.prod)
  {
    if !s.prod.PFree? {
      forall j | 0 <= j < |Chain(s.prod)| ensures Chain(s.prod)[j] != b {
        assert g.place[Chain(s.prod)[j]] == Got(j);
      }
    }
  }

  lemma CountKeeps(s: State, g: Aux, t: Tid)
    requires Inv(s, g) && Wf(s) && t < |s.cons| && s.cons[t].CCount?
    ensures s.cons[t].block in s.dequeued && Inv(ConsStep(s, t), CountAux(s, g, t))
  {
    hide Inv, LookupOk, ConsPlace, ConsStep, Shape, Counted, Wf, CountAux;
    CountFacts(s, g, t);
    CountLookup(s, g, t);
    CountIs(s, g, t);
    CountInv(s, g, t, Counted(s, t), s.cons[t].block);
  }

  lemma CountInv(s: State, g: Aux, t: Tid, c: Cons, b: BlockId)
    requires Inv(s, g) && t < |s.cons| && s.cons[t].CCount? && b == s.cons[t].block
    requires HasJob(c) && c.job == s.cons[t].job.(from := s.cons[t].job.at) && JobOk(c.job, s.head)
    requires Shape(s.index, s.keys, g.ring) && LookupOk(s.index, s.keys, g.ring, g.phys, c)
    requires b in s.dequeued && ConsPlace(c, t, g.phys, CountAux(s, g, t).place)
    ensures Inv(s.(dequeued := s.dequeued[b := s.dequeued[b] + (s.cons[t].job.at - s.cons[t].job.from)],
                   cons := s.cons[t := c]),
                CountAux(s, g, t))
  {
    hide Ringed, Keyed, TailAt, ProdAt, Valued, Placed, Reset, Tallied, Ranged, Stored, Partial, Constructed, Looking,
         LookupOk, Shape, ConsPlace, JobOk, Sized, ProdWf, Of, Released;
    CountFacts(s, g, t);
    var job := s.cons[t].job;
    var place' := CountAux(s, g, t).place;
    CountTallied(s, g, t, b, job.from / BLOCK_SIZE, job.from, job.at, place');
    CountRanged(g.done, s.head, s.cons, t, c);
    CountPlaced(s, g, t, c, b, job.from / BLOCK_SIZE, place');
    StoredCons(s.elements, s.enq, s.head, g.phys, s.cons, t, c);
    LookingCons(s.index, s.keys, g.ring, g.phys, s.cons, t, c);
    CountReset(s, g, b, job.from / BLOCK_SIZE, s.dequeued[b] + (job.at - job.from));
    ReleasedGrows(g.done, Blocks(s.tail), g.phys, Span(job.from, job.at));
  }

  // ---------------------------------------------------------------- releasing a block

  ghost function NullAux(s: State, g: Aux, t: Tid): Aux
    requires t < |s.cons| && s.cons[t].CNull?
  {
    g.(phys := g.phys - {LastBlock(s.cons[t].job)}, place := g.place[s.cons[t].block := Dropping(t)])
  }

  lemma NullFacts(s: State, g: Aux, t: Tid)
    requires Inv(s, g) && t < |s.cons| && s.cons[t].CNull?
    ensures var job, h, slot, b, n := s.cons[t].job, s.cons[t].h, s.cons[t].slot, s.cons[t].block, LastBlock(s.cons[t].job);
            && n in g.phys && b == g.phys[n] && b in g.place && g.place[b] == Draining(n, t)
            && 0 < |s.index| == |g.ring.c| && |s.index[|s.index| - 1]| > 0
            && h < |s.index| && slot < |s.index[h]| && s.index[h][slot] == EntryOf(s.index, g.ring, n)
            && g.ring.lo <= n < Blocks(s.tail) <= g.ring.hi && job.from == job.at
            && (forall i: nat :: i / BLOCK_SIZE == n ==> i in g.done)
    ensures Shape(s.index, s.keys, g.ring)
    ensures LookupOk(s.index, s.keys, g.ring, g.phys, CFree(s.cons[t].job, s.cons[t].h, s.cons[t].slot, s.cons[t].block))
  {
    JobFacts(s, g, t);
    var n := LastBlock(s.cons[t].job);
    LiveValue(s, g, n);
    OfFull(g.done, n);
    hide Keyed, Ringed, TailAt, Stored, Partial, Constructed, Looking, Sized, ProdWf, Placed, Ranged, Released, Slot, Of;
    assert HeaderOk(s.index, g.ring, s.cons[t].h, n, LastOf(s.cons[t].job));
  }

  lemma NullValued(index: seq<seq<EntryId>>, keys: seq<nat>, values: seq<Option<BlockId>>, r: Ring, phys: map<nat, BlockId>,
                   nb: nat, chain: seq<BlockId>, cleared: nat, building: bool, n: nat)
    requires Ringed(index, keys, r) && |values| == |keys|
    requires Valued(index, values, r, phys, nb, chain, cleared, building)
    requires n in phys && nb <= r.hi
    ensures EntryOf(index, r, n) < |values|
    ensures Valued(index, values[EntryOf(index, r, n) := None], r, phys - {n}, nb, chain, cleared, building)
  {
    EntryInRange(index, keys, r, n);
    var values' := values[EntryOf(index, r, n) := None];
    forall q | r.lo <= q < r.hi && !(building && q == nb + |chain|)
      ensures EntryOf(index, r, q) < |values'|
      ensures values'[EntryOf(index, r, q)] == Expected(phys - {n}, nb, chain, cleared, q)
    {
      if EntryOf(index, r, q) == EntryOf(index, r, n) {
        if q <= n { EntryDistinct(index, keys, r, q, n); } else { EntryDistinct(index, keys, r, n, q); }
      }
    }
  }

  lemma NullPlaced(s: State, g: Aux, t: Tid, c: Cons, n: nat, b: BlockId)
    requires Placed(s.elements.Keys, s.free, g.phys, s.prod, s.cons, g.place)
    requires t < |s.cons| && n in g.phys && g.phys[n] == b && b in g.place && g.place[b] == Draining(n, t)
    requires c.CFree? && c.block == b
    ensures Placed(s.elements.Keys, s.free, g.phys - {n}, s.prod, s.cons[t := c], g.place[b := Dropping(t)])
  {
    var phys', place' := g.phys - {n}, g.place[b := Dropping(t)];
    forall u | 0 <= u < |s.cons| && u != t ensures ConsPlace(s.cons[u], u, phys', place') {
      assert ConsPlace(s.cons[u], u, g.phys, g.place);
    }
  }

  lemma NullStored(s: State, g: Aux, t: Tid, c: Cons, n: nat)
    requires Stored(s.elements, s.enq, s.head, g.phys, s.cons) && Ranged(g.done, s.head, s.cons)
    requires t < |s.cons| && HasJob(s.cons[t]) && HasJob(c) && c.job == s.cons[t].job
    requires n in g.phys && forall i: nat :: i / BLOCK_SIZE == n ==> i in g.done
    ensures Stored(s.elements, s.enq, s.head, g.phys - {n}, s.cons[t := c])
  {
    var cons' := s.cons[t := c];
    forall u, i | 0 <= u < |cons'| && HasJob(cons'[u]) && cons'[u].job.at <= i < cons'[u].job.end
      ensures Holds(s.elements, g.phys - {n}, i, s.enq[i])
    {
      assert JobOk(s.cons[u].job, s.head);
      assert Holds(s.elements, g.phys, i, s.enq[i]) && i !in g.done;
    }
    forall i | s.head <= i < |s.enq| ensures Holds(s.elements, g.phys - {n}, i, s.enq[i]) {
      assert Holds(s.elements, g.phys, i, s.enq[i]) && i !in g.done;
    }
  }

  lemma NullLooking(s: State, g: Aux, t: Tid, c: Cons, n: nat)
    requires Shape(s.index, s.keys, g.ring) && Looking(s.index, s.keys, g.ring, g.phys, s.cons)
    requires Ranged(g.done, s.head, s.cons)
    requires t < |s.cons| && c.CFree? && LookupOk(s.index, s.keys, g.ring, g.phys, c)
    requires forall i: nat :: i / BLOCK_SIZE == n ==> i in g.done
    ensures Looking(s.index, s.keys, g.ring, g.phys - {n}, s.cons[t := c])
  {
    hide HeaderOk, Slot, Shape;
    forall u | 0 <= u < |s.cons| && u != t ensures LookupOk(s.index, s.keys, g.ring, g.phys - {n}, s.cons[u]) {
      assert LookupOk(s.index, s.keys, g.ring, g.phys, s.cons[u]);
      if s.cons[u].CRead? || s.cons[u].CCount? { assert s.cons[u].job.from !in g.done; }
    }
  }

  lemma NullPartial(s: State, g: Aux, n: nat)
    requires Partial(s.tail, g.phys, Start(s.prod, s.tailBlock)) && Ranged(g.done, s.head, s.cons) && s.head <= s.tail
    requires forall i: nat :: i / BLOCK_SIZE == n ==> i in g.done
    ensures Partial(s.tail, g.phys - {n}, Start(s.prod, s.tailBlock))
  {
    if s.tail % BLOCK_SIZE != 0 { assert s.tail / BLOCK_SIZE == Blocks(s.tail) - 1 && s.tail !in g.done; }
  }

  lemma NullSmall(s: State, g: Aux, n: nat, b: BlockId, t: Tid)
    requires 0 < |s.index| == |g.ring.c| && |s.index[|s.index| - 1]| > 0
    requires ProdAt(s.index, g.ring, g.phys, Blocks(s.tail), s.prod)
    requires Placed(s.elements.Keys, s.free, g.phys, s.prod, s.cons, g.place)
    requires Tallied(g.done, s.dequeued, g.phys, g.place) && Released(g.done, Blocks(s.tail), g.phys)
    requires n in g.phys && g.phys[n] == b
    requires forall i: nat :: i / BLOCK_SIZE == n ==> i in g.done
    ensures ProdAt(s.index, g.ring, g.phys - {n}, Blocks(s.tail), s.prod)
    ensures Tallied(g.done, s.dequeued, g.phys - {n}, g.place[b := Dropping(t)])
    ensures Released(g.done, Blocks(s.tail), g.phys - {n})
  {
    hide Of, Slot;
    forall c | c in g.phys && c != n ensures g.phys[c] != b {
      if g.phys[c] == b { PhysInjective(s, g, c, n); }
    }
  }

  lemma NullKeeps(s: State, g: Aux, t: Tid)
    requires Inv(s, g) && Wf(s) && t < |s.cons| && s.cons[t].CNull?
    ensures Inv(ConsStep(s, t), NullAux(s, g, t))
  {
    hide Ringed, Keyed, TailAt, ProdAt, Valued, Placed, Reset, Tallied, Ranged, Stored, Partial, Constructed, Looking,
         LookupOk, Shape, ConsPlace, JobOk, Sized, ProdWf, Released, Wf;
    NullFacts(s, g, t);
    var n, b := LastBlock(s.cons[t].job), s.cons[t].block;
    var c := CFree(s.cons[t].job, s.cons[t].h, s.cons[t].slot, b);
    JobHolds(s, g, t);
    NullValued(s.index, s.keys, s.values, g.ring, g.phys, Blocks(s.tail), Chain(s.prod), Cleared(s.prod), Building(s.prod), n);
    NullPlaced(s, g, t, c, n, b);
    NullStored(s, g, t, c, n);
    NullLooking(s, g, t, c, n);
    NullPartial(s, g, n);
    NullSmall(s, g, n, b, t);
    RangedCons(g.done, s.head, s.cons, t, c);
  }

  lemma JobHolds(s: State, g: Aux, t: Tid)
    requires Ranged(g.done, s.head, s.cons) && Stored(s.elements, s.enq, s.head, g.phys, s.cons)
    requires t < |s.cons| && HasJob(s.cons[t])
    ensures JobOk(s.cons[t].job, s.head) && s.head <= |s.enq|
  {
  }

  ghost function FreedTo(s: State, t: Tid): Cons
    requires Wf(s) && t < |s.cons| && s.cons[t].CFree?
  {
    Onward(s.cons[t].job, s.cons[t].h, s.cons[t].slot, |s.index[s.cons[t].h]|)
  }

  lemma FreeIs(s: State, t: Tid)
    requires Wf(s) && t < |s.cons| && s.cons[t].CFree?
    ensures ConsStep(s, t) == s.(free := s.free + {s.cons[t].block}, cons := s.cons[t := FreedTo(s, t)])
    ensures FreedTo(s, t) == Onward(s.cons[t].job, s.cons[t].h, s.cons[t].slot, |s.index[s.cons[t].h]|)
  {
    hide ConsWf, ProdWf, Onward;
  }

  lemma FreeFacts(s: State, g: Aux, t: Tid) returns (c: Cons)
    requires Inv(s, g) && Wf(s) && t < |s.cons| && s.cons[t].CFree?
    ensures && !c.CNull? && !c.CFree? && HasJob(c) && c.job == s.cons[t].job && JobOk(c.job, s.head)
            && Shape(s.index, s.keys, g.ring) && LookupOk(s.index, s.keys, g.ring, g.phys, c)
            && ConsStep(s, t) == s.(free := s.free + {s.cons[t].block}, cons := s.cons[t := c])
    ensures s.cons[t].block in g.place && g.place[s.cons[t].block] == Dropping(t)
  {
    hide Inv, Wf, Keyed, HeaderOk, Slot, ConsStep, FreedTo;
    JobFacts(s, g, t);
    FreeIs(s, t);
    c := FreedTo(s, t);
    var job, h := s.cons[t].job, s.cons[t].h;
    SlotMoves(LastBlock(job), g.ring.c[h], |s.index[h]|, 1);
    assert job.at < job.end ==> job.at / BLOCK_SIZE == LastBlock(job) + 1;
  }

  /** A dropped block was in nobody else's hands, so giving it back is not a second free. */
  lemma FreePlaced(s: State, g: Aux, t: Tid, c: Cons, b: BlockId)
    requires Placed(s.elements.Keys, s.free, g.phys, s.prod, s.cons, g.place)
    requires t < |s.cons| && b in g.place && g.place[b] == Dropping(t)
    requires !c.CNull? && !c.CFree?
    ensures Placed(s.elements.Keys, s.free + {b}, g.phys, s.prod, s.cons[t := c], g.place[b := Free])
    ensures b !in s.free
  {
    var place' := g.place[b := Free];
    forall u | 0 <= u < |s.cons| && u != t ensures ConsPlace(s.cons[u], u, g.phys, place') {
      assert ConsPlace(s.cons[u], u, g.phys, g.place);
    }
  }

  lemma FreeTallied(s: State, g: Aux, t: Tid, b: BlockId)
    requires Placed(s.elements.Keys, s.free, g.phys, s.prod, s.cons, g.place)
    requires Tallied(g.done, s.dequeued, g.phys, g.place)
    requires b in g.place && g.place[b] == Dropping(t)
    ensures Tallied(g.done, s.dequeued, g.phys, g.place[b := Free])
  {
    hide Of;
  }

  lemma FreeKeeps(s: State, g: Aux, t: Tid)
    requires Inv(s, g) && Wf(s) && t < |s.cons| && s.cons[t].CFree?
    ensures s.cons[t].block !in s.free
    ensures Inv(ConsStep(s, t), g.(place := g.place[s.cons[t].block := Free]))
  {
    hide Ringed, Keyed, TailAt, ProdAt, Valued, Placed, Reset, Tallied, Ranged, Stored, Partial, Constructed, Looking,
         LookupOk, Shape, ConsPlace, JobOk, Sized, ProdWf, Released, Wf, ConsStep;
    var c := FreeFacts(s, g, t);
    var b := s.cons[t].block;
    FreePlaced(s, g, t, c, b);
    FreeTallied(s, g, t, b);
    RangedCons(g.done, s.head, s.cons, t, c);
    StoredCons(s.elements, s.enq, s.head, g.phys, s.cons, t, c);
    LookingCons(s.index, s.keys, g.ring, g.phys, s.cons, t, c);
  }

  // ---------------------------------------------------------------- taking and leaving a range

  lemma GrantRanged(done: set<nat>, head: nat, cons: seq<Cons>, t: Tid, count: nat)
    requires Ranged(done, head, cons) && t < |cons| && cons[t].CIdle? && count > 0
    ensures Ranged(done, head + count, cons[t := CIndex(Job(head, head + count, head, head, []))])
  {
    forall u | 0 <= u < |cons| && HasJob(cons[u]) ensures JobOk(cons[u].job, head) {}
  }

  lemma GrantStored(elements: map<BlockId, seq<Option<Elem>>>, enq: seq<Elem>, head: nat, phys: map<nat, BlockId>,
                    cons: seq<Cons>, t: Tid, count: nat)
    requires Stored(elements, enq, head, phys, cons) && t < |cons| && cons[t].CIdle? && 0 < count && head + count <= |enq|
    ensures Stored(elements, enq, head + count, phys, cons[t := CIndex(Job(head, head + count, head, head, []))])
  {
    forall u | 0 <= u < |cons| && HasJob(cons[u]) ensures JobOk(cons[u].job, head) {}
    hide Holds;
  }

  lemma GrantKeeps(s: State, g: Aux, t: Tid, count: nat)
    requires Inv(s, g) && Enabled(s, Grant(t, count)) && count > 0
    ensures Inv(Next(s, Grant(t, count)), g)
  {
    hide Ringed, Keyed, TailAt, ProdAt, Valued, Placed, Reset, Tallied, Ranged, Stored, Partial, Constructed, Looking,
         Shape, Sized, ProdWf, Released, Wf;
    var c := CIndex(Job(s.head, s.head + count, s.head, s.head, []));
    KeyedShape(s.index, s.keys, g.ring);
    GrantRanged(g.done, s.head, s.cons, t, count);
    GrantStored(s.elements, s.enq, s.head, g.phys, s.cons, t, count);
    PlacedCons(s.elements.Keys, s.free, g.phys, s.prod, s.cons, g.place, t, c);
    LookingCons(s.index, s.keys, g.ring, g.phys, s.cons, t, c);
  }

  lemma FinishRanged(s: State, g: Aux, t: Tid)
    requires Ranged(g.done, s.head, s.cons) && Stored(s.elements, s.enq, s.head, g.phys, s.cons) && t < |s.cons|
    ensures Ranged(g.done, s.head, s.cons[t := CIdle])
    ensures Stored(s.elements, s.enq, s.head, g.phys, s.cons[t := CIdle])
  {
  }

  lemma FinishKeeps(s: State, g: Aux, t: Tid)
    requires Inv(s, g) && Enabled(s, Finish(t))
    ensures Inv(Next(s, Finish(t)), g)
  {
    hide Ringed, Keyed, TailAt, ProdAt, Valued, Placed, Reset, Tallied, Ranged, Stored, Partial, Constructed, Looking,
         Shape, Sized, ProdWf, Released, Wf;
    KeyedShape(s.index, s.keys, g.ring);
    FinishRanged(s, g, t);
    PlacedCons(s.elements.Keys, s.free, g.phys, s.prod, s.cons, g.place, t, CIdle);
    LookingCons(s.index, s.keys, g.ring, g.phys, s.cons, t, CIdle);
  }

  // ---------------------------------------------------------------- any step of a consumer

  ghost function ConsAux(s: State, g: Aux, t: Tid): Aux
    requires Wf(s) && t < |s.cons|
  {
    match s.cons[t]
    case CCount(_, _, _, _) => CountAux(s, g, t)
    case CNull(_, _, _, _) => NullAux(s, g, t)
    case CFree(_, _, _, b) => g.(place := g.place[b := Free])
    case _ => g
  }

  lemma ConsumerKeepsInv(s: State, g: Aux, t: Tid)
    requires Inv(s, g) && Enabled(s, Consume(t))
    ensures Inv(Next(s, Consume(t)), ConsAux(s, g, t))
  {
    hide Inv, Wf, ConsStep;
    match s.cons[t]
    case CIndex(_) => IndexKeeps(s, g, t);
    case CTail(_, _) => TailKeeps(s, g, t);
    case CKey(_, _, _) => KeyKeeps(s, g, t);
    case CValue(_, _, _) => ValueKeeps(s, g, t);
    case CRead(job, _, _, _) => if job.at < Stop(job) { ReadKeeps(s, g, t); } else { ReadEndKeeps(s, g, t); }
    case CCount(_, _, _, _) => CountKeeps(s, g, t);
    case CNull(_, _, _, _) => NullKeeps(s, g, t);
    case CFree(_, _, _, _) => FreeKeeps(s, g, t);
  }
}
