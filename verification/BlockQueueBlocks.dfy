/** No block of the sub-queue is ever lost: a failed operation gives back everything it took, and
    a drained block always reaches the free list. */
module BlockQueueBlocks {
  import opened BlockQueue
  import opened BlockQueueProof
  import C = BlockQueueConsumer
  import opened BlockQueueProducer
  import opened BlockQueuePublish
  import opened BlockQueueRuns

  /** The block really is where the witness says. */
  ghost predicate Accounted(x: BlockId, free: set<BlockId>, phys: map<nat, BlockId>, p: Prod, cons: seq<Cons>,
                            place: map<BlockId, Place>) {
    && x in place
    && match place[x]
       case Free => x in free
       case Live(b) => b in phys && phys[b] == x
       case Draining(b, _) => b in phys && phys[b] == x
       case Got(j) => j < |Chain(p)| && Chain(p)[j] == x && (p.PFree? ==> p.i <= j)
       case Fresh => p.PValue? && p.block == x
       case Dropping(t) => t < |cons| && cons[t].CFree? && cons[t].block == x
  }

  ghost predicate Complete(s: State, g: Aux) {
    forall x :: x in s.elements ==> Accounted(x, s.free, g.phys, s.prod, s.cons, g.place)
  }

  lemma CheckKeepsPlaces(s: State, g: Aux, c: Choice, x: BlockId)
    requires Inv(s, g) && Wf(s) && ProdEnabled(s, c) && x in ProdStep(s, c).elements
    requires s.prod.PCheck? || s.prod.PGrow? || s.prod.PKey?
    requires Placed(s.elements.Keys, s.free, g.phys, s.prod, s.cons, g.place)
    requires x in s.elements ==> Accounted(x, s.free, g.phys, s.prod, s.cons, g.place)
    ensures var s', g' := ProdStep(s, c), ProdAux(s, g, c); Accounted(x, s'.free, g'.phys, s'.prod, s'.cons, g'.place)
  {
    hide Inv, Wf, Placed, SlotFor, Valued, Needed, FillBlock, GrownRing, Pushed;
  }

  lemma MovingKeepsPlaces(s: State, g: Aux, c: Choice, x: BlockId)
    requires Inv(s, g) && Wf(s) && ProdEnabled(s, c) && x in ProdStep(s, c).elements
    requires s.prod.PTail? || s.prod.PRewind? || s.prod.PNull? || s.prod.PUndoRewind?
    requires Placed(s.elements.Keys, s.free, g.phys, s.prod, s.cons, g.place)
    requires x in s.elements ==> Accounted(x, s.free, g.phys, s.prod, s.cons, g.place)
    ensures var s', g' := ProdStep(s, c), ProdAux(s, g, c); Accounted(x, s'.free, g'.phys, s'.prod, s'.cons, g'.place)
  {
    hide Inv, Wf, Placed, SlotFor, Valued, Needed, FillBlock, GrownRing, Pushed;
  }

  lemma TakingKeepsPlaces(s: State, g: Aux, c: Choice, x: BlockId)
    requires Inv(s, g) && Wf(s) && ProdEnabled(s, c) && x in ProdStep(s, c).elements
    requires s.prod.PBlock? || s.prod.PValue?
    requires Placed(s.elements.Keys, s.free, g.phys, s.prod, s.cons, g.place)
    requires x in s.elements ==> Accounted(x, s.free, g.phys, s.prod, s.cons, g.place)
    ensures var s', g' := ProdStep(s, c), ProdAux(s, g, c); Accounted(x, s'.free, g'.phys, s'.prod, s'.cons, g'.place)
  {
    hide Inv, Wf, ConsPlace, SlotFor, Valued, Needed, FillBlock, GrownRing, Pushed, KeyAux;
  }

  lemma EndingKeepsPlaces(s: State, g: Aux, c: Choice, x: BlockId)
    requires Inv(s, g) && Wf(s) && ProdEnabled(s, c) && x in ProdStep(s, c).elements
    requires s.prod.PUndo? || s.prod.PFree?
    requires Placed(s.elements.Keys, s.free, g.phys, s.prod, s.cons, g.place)
    requires x in s.elements ==> Accounted(x, s.free, g.phys, s.prod, s.cons, g.place)
    ensures var s', g' := ProdStep(s, c), ProdAux(s, g, c); Accounted(x, s'.free, g'.phys, s'.prod, s'.cons, g'.place)
  {
    ProdBounds(s);
    hide Inv, Wf, ConsPlace, SlotFor, Valued, Needed, FillBlock, GrownRing, Pushed, KeyAux;
  }

  lemma PublishKeepsPlaces(s: State, g: Aux, c: Choice, x: BlockId)
    requires Inv(s, g) && Wf(s) && ProdEnabled(s, c) && x in ProdStep(s, c).elements
    requires s.prod.PFill? && s.prod.k == |s.prod.op.items|
    requires Placed(s.elements.Keys, s.free, g.phys, s.prod, s.cons, g.place)
    requires x in s.elements ==> Accounted(x, s.free, g.phys, s.prod, s.cons, g.place)
    ensures var s', g' := ProdStep(s, c), ProdAux(s, g, c); Accounted(x, s'.free, g'.phys, s'.prod, s'.cons, g'.place)
  {
    hide Inv, Wf, ProdEnabled, ProdStep, Placed, ProdWf, ProdAt, Sized, Filling, Shape, Blocks, Valued, Keyed, Ringed, TailAt;
    PublishFacts(s, g, c);
    ProdFacts(s, g);
    PublishSmall(s, g);
  }

  lemma FillKeepsPlaces(s: State, g: Aux, c: Choice, x: BlockId)
    requires Inv(s, g) && Wf(s) && ProdEnabled(s, c) && x in ProdStep(s, c).elements
    requires s.prod.PFill? && s.prod.k < |s.prod.op.items|
    requires Placed(s.elements.Keys, s.free, g.phys, s.prod, s.cons, g.place)
    requires x in s.elements ==> Accounted(x, s.free, g.phys, s.prod, s.cons, g.place)
    ensures var s', g' := ProdStep(s, c), ProdAux(s, g, c); Accounted(x, s'.free, g'.phys, s'.prod, s'.cons, g'.place)
  {
    hide Inv, Wf, ProdEnabled, ProdStep, Placed, ProdWf, ProdAt, Sized, Filling, Shape, FillBlock, Filled, ProdAux;
    FillFacts(s, g, c);
    FillAux(s, g, c);
  }

  lemma FillAux(s: State, g: Aux, c: Choice)
    requires Inv(s, g) && Wf(s) && ProdEnabled(s, c) && s.prod.PFill? && s.prod.k < |s.prod.op.items|
    ensures ProdAux(s, g, c) == g
  {
    hide Inv, Wf, ProdEnabled, ProdStep;
  }

  lemma ProducerKeepsPlaces(s: State, g: Aux, c: Choice, x: BlockId)
    requires Inv(s, g) && Wf(s) && ProdEnabled(s, c) && x in ProdStep(s, c).elements
    requires x in s.elements ==> Accounted(x, s.free, g.phys, s.prod, s.cons, g.place)
    ensures var s', g' := ProdStep(s, c), ProdAux(s, g, c); Accounted(x, s'.free, g'.phys, s'.prod, s'.cons, g'.place)
  {
    IdleStays(s, c);
    ProdBounds(s);
    hide Inv, Wf, ProdEnabled, ProdStep, ProdAux, Accounted;
    PlacedHolds(s, g);
    match s.prod
    case PCheck(_) => CheckKeepsPlaces(s, g, c, x);
    case PGrow(_) => CheckKeepsPlaces(s, g, c, x);
    case PKey(_, _) => CheckKeepsPlaces(s, g, c, x);
    case PBlock(_, _) => TakingKeepsPlaces(s, g, c, x);
    case PValue(_, _, _) => TakingKeepsPlaces(s, g, c, x);
    case PUndo(_, _) => EndingKeepsPlaces(s, g, c, x);
    case PFree(_, _) => EndingKeepsPlaces(s, g, c, x);
    case PFill(op, k) => if k < |op.items| { FillKeepsPlaces(s, g, c, x); } else { PublishKeepsPlaces(s, g, c, x); }
    case _ => MovingKeepsPlaces(s, g, c, x);
  }

  lemma ConsumerKeepsPlaces(s: State, g: Aux, t: Tid, x: BlockId)
    requires Inv(s, g) && Enabled(s, Consume(t)) && x in s.elements
    requires ConsPlace(s.cons[t], t, g.phys, g.place) && (s.cons[t].CCount? ==> s.cons[t].block in s.dequeued)
    requires s.cons[t].CCount? ==>
               && s.cons[t].job.from / BLOCK_SIZE in g.phys
               && g.phys[s.cons[t].job.from / BLOCK_SIZE] == s.cons[t].block
    requires Accounted(x, s.free, g.phys, s.prod, s.cons, g.place)
    ensures var s', g' := ConsStep(s, t), C.ConsAux(s, g, t);
            && x in s'.elements ==> Accounted(x, s'.free, g'.phys, s'.prod, s'.cons, g'.place)
  {
    hide Inv, Wf, SlotFor, C.Span;
  }

  lemma OtherOf(s: State, g: Aux, a: Action, x: BlockId)
    requires Inv(s, g) && Enabled(s, a) && !a.Produce? && !a.Consume? && x in Next(s, a).elements
    requires Accounted(x, s.free, g.phys, s.prod, s.cons, g.place)
    ensures var s', g' := Next(s, a), NextAux(s, g, a);
            x in s.elements && Accounted(x, s'.free, g'.phys, s'.prod, s'.cons, g'.place)
  {
    hide Inv, Wf;
  }

  lemma PlacesOf(s: State, g: Aux, a: Action, x: BlockId)
    requires Inv(s, g) && Enabled(s, a) && Complete(s, g) && x in Next(s, a).elements
    ensures var s', g' := Next(s, a), NextAux(s, g, a); Accounted(x, s'.free, g'.phys, s'.prod, s'.cons, g'.place)
  {
    hide Inv, Wf, ProdEnabled, ProdStep, ProdAux, Accounted, ConsStep;
    match a
    case Produce(c) => ProducerKeepsPlaces(s, g, c, x);
    case Consume(t) => ConsumeOf(s, g, t, x);
    case _ => OtherOf(s, g, a, x);
  }

  lemma StepKeepsPlaces(s: State, g: Aux, a: Action)
    requires Inv(s, g) && Enabled(s, a) && Complete(s, g)
    ensures Complete(Next(s, a), NextAux(s, g, a))
  {
    hide Inv, Enabled, Next, NextAux, Accounted;
    forall x | x in Next(s, a).elements
      ensures var s', g' := Next(s, a), NextAux(s, g, a); Accounted(x, s'.free, g'.phys, s'.prod, s'.cons, g'.place)
    {
      PlacesOf(s, g, a, x);
    }
  }

  lemma ConsumeOf(s: State, g: Aux, t: Tid, x: BlockId)
    requires Inv(s, g) && Enabled(s, Consume(t)) && Complete(s, g) && x in ConsStep(s, t).elements
    ensures var s', g' := ConsStep(s, t), C.ConsAux(s, g, t); Accounted(x, s'.free, g'.phys, s'.prod, s'.cons, g'.place)
  {
    hide Inv, Accounted, ConsPlace;
    if s.cons[t].CCount? { C.CountFacts(s, g, t); }
    C.JobFacts(s, g, t);
    assert x in s.elements;
    ConsumerKeepsPlaces(s, g, t, x);
  }

  lemma {:induction false} RunsKeepPlaces(s: State, g: Aux, run: seq<Action>, s': State) returns (g': Aux)
    requires Inv(s, g) && Complete(s, g) && Runs(s, run, s') && Careful(run)
    ensures Inv(s', g') && Complete(s', g')
    decreases |run|
  {
    hide Inv, Enabled, Complete;
    if run == [] {
      g' := g;
    } else {
      assert Asks(run[0]) && Careful(run[1..]);
      StepKeepsInv(s, g, run[0]);
      StepKeepsPlaces(s, g, run[0]);
      g' := RunsKeepPlaces(Next(s, run[0]), NextAux(s, g, run[0]), run[1..], s');
    }
  }

  lemma ReachableComplete(s: State) returns (g: Aux)
    requires Reachable(s)
    ensures Inv(s, g) && Complete(s, g)
  {
    var first, run :| Init(first) && Runs(first, run, s) && Careful(run);
    InitHasInv(first);
    assert Complete(first, InitAux(first));
    g := RunsKeepPlaces(first, InitAux(first), run, s);
  }

  /** The block is set in the current index. */
  ghost predicate Indexed(s: State, x: BlockId)
    requires Wf(s)
  {
    exists i :: 0 <= i < |s.index[Last(s)]|
      && s.keys[s.index[Last(s)][i]] != INVALID_BLOCK_BASE && s.values[s.index[Last(s)][i]] == Some(x)
  }

  /** Between operations of the producer, every block ever taken from the pool or allocated is back
      in the pool, in the index of the queue, or in the hands of a consumer that is giving it back:
      an undone operation has freed every block it took. */
  lemma NoBlockIsLost(s: State, x: BlockId)
    requires Reachable(s) && s.prod == PIdle && x in s.elements
    ensures Wf(s)
    ensures x in s.free || Indexed(s, x) || exists t :: 0 <= t < |s.cons| && s.cons[t].CFree? && s.cons[t].block == x
  {
    hide Inv, Reachable, Wf;
    var g := ReachableComplete(s);
    InvIsWf(s, g);
    assert Accounted(x, s.free, g.phys, s.prod, s.cons, g.place);
    if b :| b in g.phys && g.phys[b] == x {
      LiveIsIndexed(s, g, b);
    }
  }

  lemma LiveIsIndexed(s: State, g: Aux, b: nat)
    requires Inv(s, g) && Wf(s) && b in g.phys
    ensures Indexed(s, g.phys[b])
  {
    hide Inv, Wf, Slot, Keyed;
    ProdFacts(s, g);
    C.LiveValue(s, g, b);
    LiveInRing(s, g, b);
    assert s.keys[EntryOf(s.index, g.ring, b)] == b * BLOCK_SIZE;
    var i := Slot(b, g.ring.c[Last(s)], |s.index[Last(s)]|);
    assert s.index[Last(s)][i] == EntryOf(s.index, g.ring, b);
  }
}
