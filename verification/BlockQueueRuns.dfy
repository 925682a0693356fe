/** What holds in every run of the implicit producer's sub-queue: consumers find their blocks and
    read in FIFO order, blocks are recycled once and never lost, `enqueue_bulk` is all or nothing. */
module BlockQueueRuns {
  import opened BlockQueue
  import opened Modular
  import opened BlockQueueProof
  import C = BlockQueueConsumer
  import opened BlockQueueProducer
  import opened BlockQueuePublish

  // ---------------------------------------------------------------- any step of the producer

  ghost function ProdAux(s: State, g: Aux, c: Choice): Aux
    requires Inv(s, g) && Wf(s) && ProdEnabled(s, c)
  {
    match s.prod
    case PGrow(_) => if c.ok then g.(ring := GrownRing(g.ring)) else g
    case PKey(_, _) => KeyAux(s, g)
    case PTail(_, _) => g.(ring := MovedRing(g.ring, 1))
    case PRewind(_, _) => g.(ring := MovedRing(g.ring, -1))
    case PUndoRewind(_, _) => g.(ring := MovedRing(g.ring, -1))
    case PBlock(_, _) => if c.ok then TakeAux(g, c.block) else g
    case PValue(_, _, b) => g.(place := g.place[b := Got(|Chain(s.prod)|)])
    case PFree(op, i) => if i < |op.got| then g.(place := g.place[op.got[i] := Free]) else g
    case PFill(op, k) => if k == |op.items| then PublishAux(s, g) else g
    case _ => g
  }

  ghost function MovedRing(r: Ring, d: int): Ring {
    if r.m + d >= 0 then r.(m := r.m + d) else r
  }

  lemma TailCanMove(s: State, g: Aux, c: Choice)
    requires Inv(s, g) && Wf(s) && ProdEnabled(s, c) && (s.prod.PTail? || s.prod.PRewind? || s.prod.PUndoRewind?)
    ensures g.ring.m + TailStep(s.prod).1 >= 0
  {
    TailFacts(s, g, c);
    hide Inv, Wf, ProdEnabled;
  }

  lemma ProdBounds(s: State)
    requires Wf(s)
    ensures s.prod.PUndo? ==> s.prod.i <= |s.prod.op.got|
    ensures s.prod.PFree? ==> s.prod.i <= |s.prod.op.got|
    ensures s.prod.PFill? ==> s.prod.k <= |s.prod.op.items|
  {
  }

  ghost predicate Inserting(p: Prod) {
    p.PCheck? || p.PGrow? || p.PKey? || p.PBlock? || p.PValue?
  }

  lemma InsertingKeepsInv(s: State, g: Aux, c: Choice)
    requires Inv(s, g) && Wf(s) && ProdEnabled(s, c) && Inserting(s.prod)
    ensures Inv(ProdStep(s, c), ProdAux(s, g, c))
  {
    hide Inv, Wf, ProdEnabled, ProdStep, KeyAux, TakeAux, GrownRing;
    match s.prod
    case PCheck(_) =>
      var next := ProdStep(s, c).prod;
      if next.PKey? || next.PGrow? { CheckPushKeeps(s, g, c); } else { CheckKeeps(s, g, c); }
    case PGrow(_) => if c.ok { GrowKeeps(s, g, c); } else { GrowFailsKeeps(s, g, c); }
    case PKey(_, _) => KeyKeeps(s, g, c);
    case PBlock(_, _) => if c.ok { TakeKeeps(s, g, c); } else { NoBlockKeeps(s, g, c); }
    case PValue(_, _, _) => LinkKeeps(s, g, c);
  }

  lemma MovingKeepsInv(s: State, g: Aux, c: Choice)
    requires Inv(s, g) && Wf(s) && ProdEnabled(s, c) && (s.prod.PTail? || s.prod.PRewind? || s.prod.PUndoRewind?)
    ensures Inv(ProdStep(s, c), ProdAux(s, g, c))
  {
    hide Inv, Wf, ProdEnabled, ProdStep;
    TailCanMove(s, g, c);
    TailKeeps(s, g, c);
  }

  lemma ProducerKeepsInv(s: State, g: Aux, c: Choice)
    requires Inv(s, g) && Wf(s) && ProdEnabled(s, c)
    ensures Inv(ProdStep(s, c), ProdAux(s, g, c))
  {
    ProdBounds(s);
    IdleStays(s, c);
    hide Inv, Wf, ProdEnabled, ProdStep, PublishAux;
    if Inserting(s.prod) {
      InsertingKeepsInv(s, g, c);
    } else if s.prod.PTail? || s.prod.PRewind? || s.prod.PUndoRewind? {
      MovingKeepsInv(s, g, c);
    } else {
      match s.prod
      case PNull(_, _) => ClearKeeps(s, g, c);
      case PUndo(op, i) => if i < |op.got| { ClearKeeps(s, g, c); } else { ToFreeKeeps(s, g, c); }
      case PFree(op, i) => if i < |op.got| { GiveBackKeeps(s, g, c); } else { UndoneKeeps(s, g, c); }
      case PFill(op, k) => if k < |op.items| { FillKeeps(s, g, c); } else { PublishKeeps(s, g, c); }
      case _ =>
    }
  }

  lemma IdleStays(s: State, c: Choice)
    requires Wf(s) && ProdEnabled(s, c)
    ensures s.prod != PIdle
  {
  }

  // ---------------------------------------------------------------- runs

  ghost function NextAux(s: State, g: Aux, a: Action): Aux
    requires Inv(s, g) && Enabled(s, a)
  {
    match a
    case Produce(c) => ProdAux(s, g, c)
    case Consume(t) => C.ConsAux(s, g, t)
    case _ => g
  }

  /** Every atomic step of the producer and of every consumer keeps the invariant, if no empty range
      is granted. */
  lemma StepKeepsInv(s: State, g: Aux, a: Action)
    requires Inv(s, g) && Enabled(s, a) && Asks(a)
    ensures Inv(Next(s, a), NextAux(s, g, a))
  {
    hide Inv, Wf, ProdStep, ConsStep;
    match a
    case Enqueue(items) => EnqueueKeeps(s, g, items);
    case Produce(c) => ProducerKeepsInv(s, g, c);
    case Grant(t, count) => C.GrantKeeps(s, g, t, count);
    case Consume(t) => C.ConsumerKeepsInv(s, g, t);
    case Finish(t) => C.FinishKeeps(s, g, t);
  }

  ghost function InitAux(s: State): Aux {
    Aux(Ring([0], 0, 0, 0), map[], map x | x in s.free :: Free, {})
  }

  lemma InitHasInv(s: State)
    requires Init(s)
    ensures Inv(s, InitAux(s))
  {
    var g := InitAux(s);
    assert TailAt(s.index, s.tails, g.ring) by { SlotFresh(31, 0, 32); ModSame(-1, 31, -1, 32); }
    assert Keyed(s.index, s.keys, g.ring);
    assert Ringed(s.index, s.keys, g.ring);
    assert Looking(s.index, s.keys, g.ring, g.phys, s.cons) && Placed(s.elements.Keys, s.free, g.phys, s.prod, s.cons, g.place);
    assert Stored(s.elements, s.enq, s.head, g.phys, s.cons) && Ranged(g.done, s.head, s.cons);
    hide Slot, Keyed, Ringed, Looking, Placed, Stored, Ranged;
  }

  lemma {:induction false} RunsKeepInv(s: State, g: Aux, run: seq<Action>, s': State) returns (g': Aux)
    requires Inv(s, g) && Runs(s, run, s') && Careful(run)
    ensures Inv(s', g')
    decreases |run|
  {
    hide Inv, Enabled;
    if run == [] {
      g' := g;
    } else {
      assert Asks(run[0]) && Careful(run[1..]);
      StepKeepsInv(s, g, run[0]);
      g' := RunsKeepInv(Next(s, run[0]), NextAux(s, g, run[0]), run[1..], s');
    }
  }

  lemma ReachableInv(s: State) returns (g: Aux)
    requires Reachable(s)
    ensures Inv(s, g)
  {
    var first, run :| Init(first) && Runs(first, run, s) && Careful(run);
    InitHasInv(first);
    g := RunsKeepInv(first, InitAux(first), run, s);
  }

  // ---------------------------------------------------------------- main results: consumers

  /** No consumer ever follows a null block or reads an element that is not there, and every slot,
      key and value a step follows exists. */
  lemma NoConsumerCrashes(s: State, t: Tid)
    requires Reachable(s) && t < |s.cons|
    ensures Wf(s) && !s.cons[t].Crashed?
  {
    hide Inv, Reachable;
    var g := ReachableInv(s);
    InvIsWf(s, g);
    LookupHolds(s, g, t);
  }

  /** FIFO: a consumer granted the indices first..end has read exactly the elements enqueued there. */
  lemma ReadsInOrder(s: State, t: Tid)
    requires Reachable(s) && t < |s.cons| && s.cons[t].CDone?
    ensures s.cons[t].job.first < s.cons[t].job.end <= |s.enq|
    ensures s.cons[t].job.out == s.enq[s.cons[t].job.first..s.cons[t].job.end]
  {
    hide Inv, Reachable;
    var g := ReachableInv(s);
    C.JobFacts(s, g, t);
    OutIs(s, g, t);
  }

  lemma OutIs(s: State, g: Aux, t: Tid)
    requires Inv(s, g) && t < |s.cons| && HasJob(s.cons[t])
    ensures JobOk(s.cons[t].job, s.head) && s.head <= |s.enq|
    ensures s.cons[t].job.out == s.enq[s.cons[t].job.first..s.cons[t].job.at]
  {
    hide Ringed, Keyed, TailAt, ProdAt, Valued, Placed, Reset, Tallied, Ranged, Released, Partial, Constructed, Looking, Sized,
         ProdWf, Holds, JobOk;
  }

  /** The entry a consumer arrives at, after reading the index, its tail and a key in three steps
      while the producer inserted, rewound or grew, is the one of its block, and points to it. */
  lemma LookupIsRight(s: State, t: Tid)
    requires Reachable(s) && t < |s.cons| && s.cons[t].CValue?
    ensures Wf(s) && s.cons[t].job.at < |s.enq|
    ensures var c := s.cons[t]; var e := s.index[c.h][c.slot]; var i := c.job.at;
            && s.keys[e] == i / BLOCK_SIZE * BLOCK_SIZE
            && s.values[e].Some? && s.values[e].value in s.elements
            && s.elements[s.values[e].value][i % BLOCK_SIZE] == Some(s.enq[i])
  {
    hide Inv, Reachable, Wf;
    var g := ReachableInv(s);
    InvIsWf(s, g);
    C.JobFacts(s, g, t);
    RightEntry(s, g, t);
  }

  lemma RightEntry(s: State, g: Aux, t: Tid)
    requires Inv(s, g) && Wf(s) && t < |s.cons| && s.cons[t].CValue?
    ensures s.cons[t].job.at < |s.enq|
    ensures var c := s.cons[t]; var e := s.index[c.h][c.slot]; var i := c.job.at;
            && s.keys[e] == i / BLOCK_SIZE * BLOCK_SIZE
            && s.values[e].Some? && s.values[e].value in s.elements
            && s.elements[s.values[e].value][i % BLOCK_SIZE] == Some(s.enq[i])
  {
    hide Inv, Slot, Keyed;
    C.JobFacts(s, g, t);
    ProdFacts(s, g);
    var i := s.cons[t].job.at;
    C.LiveValue(s, g, i / BLOCK_SIZE);
    LiveInRing(s, g, i / BLOCK_SIZE);
    assert s.index[s.cons[t].h][s.cons[t].slot] == EntryOf(s.index, g.ring, i / BLOCK_SIZE);
    assert Holds(s.elements, g.phys, i, s.enq[i]);
  }

  /** elementsCompletelyDequeued never exceeds the block size. */
  lemma CountsFitTheBlock(s: State, t: Tid)
    requires Reachable(s) && t < |s.cons| && s.cons[t].CCount?
    ensures s.cons[t].block in s.dequeued
    ensures s.dequeued[s.cons[t].block] + (s.cons[t].job.at - s.cons[t].job.from) <= BLOCK_SIZE
  {
    hide Inv, Reachable, Of;
    var g := ReachableInv(s);
    C.CountFacts(s, g, t);
    var job := s.cons[t].job;
    C.OfGrows(g.done, job.from / BLOCK_SIZE, job.from, job.at);
    C.OfFull(g.done + C.Span(job.from, job.at), job.from / BLOCK_SIZE);
  }

  ghost predicate Uses(c: Cons, b: BlockId) {
    (c.CRead? || c.CCount? || c.CNull? || c.CFree?) && c.block == b
  }

  /** A block whose count is complete has had all its elements granted and counted: nobody holds an
      index into it any more. */
  lemma DrainedBlockIsUnused(s: State, t: Tid, i: nat, u: Tid)
    requires Reachable(s) && t < |s.cons| && s.cons[t].CNull? && i / BLOCK_SIZE == LastBlock(s.cons[t].job)
    requires u < |s.cons|
    ensures i < s.head && (HasJob(s.cons[u]) ==> !(s.cons[u].job.from <= i < s.cons[u].job.end))
  {
    hide Inv, Reachable;
    var g := ReachableInv(s);
    C.NullFacts(s, g, t);
    assert i in g.done;
    DoneIsPast(s, g, i, u);
  }

  lemma DoneIsPast(s: State, g: Aux, i: nat, u: Tid)
    requires Inv(s, g) && i in g.done && u < |s.cons|
    ensures i < s.head && (HasJob(s.cons[u]) ==> !(s.cons[u].job.from <= i < s.cons[u].job.end))
  {
    hide Ringed, Keyed, TailAt, ProdAt, Valued, Placed, Reset, Tallied, Released, Partial, Constructed, Looking, Sized, Stored,
         ProdWf, Holds, JobOk;
  }

  /** No entry of the current index that has a key points to the block. The entry being set up is
      left out: until its value is stored it may hold what was in uninitialised memory. */
  ghost predicate NotIndexed(s: State, x: BlockId)
    requires Wf(s)
  {
    var slots := s.index[Last(s)];
    forall i :: 0 <= i < |slots| && s.keys[slots[i]] != INVALID_BLOCK_BASE
                && !(Building(s.prod) && slots[i] == s.prod.entry) ==>
      s.values[slots[i]] != Some(x)
  }

  /** A block is given back once: when a consumer is about to free it, it is not on the free list,
      not in the producer's chain, in nobody else's hands, and not in the index. */
  lemma BlockIsFreedOnce(s: State, t: Tid, u: Tid)
    requires Reachable(s) && t < |s.cons| && s.cons[t].CFree? && u < |s.cons| && u != t
    ensures s.cons[t].block !in s.free && !Uses(s.cons[u], s.cons[t].block)
    ensures forall j :: 0 <= j < |Chain(s.prod)| && !s.prod.PFree? ==> Chain(s.prod)[j] != s.cons[t].block
    ensures Wf(s) && NotIndexed(s, s.cons[t].block)
  {
    hide Inv, Reachable, Wf;
    var g := ReachableInv(s);
    InvIsWf(s, g);
    PlacedHolds(s, g);
    assert ConsPlace(s.cons[t], t, g.phys, g.place);
    var x := s.cons[t].block;
    if Uses(s.cons[u], x) { UsedPlace(s, g, u); }
    PlacedNotIndexed(s, g, x);
  }

  /** The same of a block that a failed operation is about to give back. */
  lemma UndoneBlockIsFreedOnce(s: State, u: Tid)
    requires Reachable(s) && s.prod.PFree? && s.prod.i < |s.prod.op.got| && u < |s.cons|
    ensures Wf(s)
    ensures var x := s.prod.op.got[s.prod.i];
            && x !in s.free && !Uses(s.cons[u], x) && NotIndexed(s, x)
            && forall j :: s.prod.i < j < |s.prod.op.got| ==> s.prod.op.got[j] != x
  {
    hide Inv, Reachable, Wf;
    var g := ReachableInv(s);
    InvIsWf(s, g);
    PlacedHolds(s, g);
    ChainPlace(s, g);
    var x := s.prod.op.got[s.prod.i];
    if Uses(s.cons[u], x) { UsedPlace(s, g, u); }
    PlacedNotIndexed(s, g, x);
  }

  /** The block a consumer works on is live, or the consumer's to free. */
  lemma UsedPlace(s: State, g: Aux, u: Tid)
    requires Inv(s, g) && u < |s.cons| && (s.cons[u].CRead? || s.cons[u].CCount? || s.cons[u].CNull? || s.cons[u].CFree?)
    ensures s.cons[u].block in g.place
    ensures var where := g.place[s.cons[u].block]; where.Live? || where.Draining? || where == Dropping(u)
  {
    hide Inv;
    PlacedHolds(s, g);
    LookupHolds(s, g, u);
    assert ConsPlace(s.cons[u], u, g.phys, g.place);
    hide Shape, HeaderOk;
  }

  /** A block that is neither live nor in a chain still indexed is in no entry. */
  lemma PlacedNotIndexed(s: State, g: Aux, x: BlockId)
    requires Inv(s, g) && Wf(s) && x in g.place && !g.place[x].Live? && !g.place[x].Draining?
    requires g.place[x].Got? ==> s.prod.PFree?
    ensures NotIndexed(s, x)
  {
    hide Inv, Wf, Slot, Partial, Sized, ProdWf, ProdAt, Shape, Placed, Keyed, Ringed, EntryOf;
    PlacedHolds(s, g);
    ProdFacts(s, g);
    ChainPlace(s, g);
    PhysPlace(s, g);
    WfIndexed(s);
    var slots := s.index[Last(s)];
    forall i | 0 <= i < |slots| && s.keys[slots[i]] != INVALID_BLOCK_BASE
               && !(Building(s.prod) && slots[i] == s.prod.entry)
      ensures s.values[slots[i]] != Some(x)
    {
      KeyedEntry(s.index, s.keys, g.ring, i);
      EntryHolds(s, g, s.keys[slots[i]] / BLOCK_SIZE);
    }
  }

  lemma EntryHolds(s: State, g: Aux, q: nat)
    requires Inv(s, g) && ProdIndexed(s, g) && g.ring.lo <= q < g.ring.hi && |s.values| == |s.keys|
    requires EntryOf(s.index, g.ring, q) < |s.keys|
    requires !(Building(s.prod) && EntryOf(s.index, g.ring, q) == s.prod.entry)
    ensures s.values[EntryOf(s.index, g.ring, q)]
            == Expected(g.phys, Blocks(s.tail), Chain(s.prod), Cleared(s.prod), q)
  {
    hide Inv, Keyed, Ringed, TailAt, EntryOf, Expected;
    ProdFacts(s, g);
  }

  lemma ChainPlace(s: State, g: Aux)
    requires Placed(s.elements.Keys, s.free, g.phys, s.prod, s.cons, g.place)
    ensures forall j :: Cleared(s.prod) <= j < |Chain(s.prod)| ==>
              Chain(s.prod)[j] in g.place && g.place[Chain(s.prod)[j]] == Got(j)
    ensures forall j :: s.prod.PFree? && s.prod.i <= j < |s.prod.op.got| ==>
              s.prod.op.got[j] in g.place && g.place[s.prod.op.got[j]] == Got(j)
  {
    hide ConsPlace;
    var chain := Chain(s.prod);
    forall j | Cleared(s.prod) <= j < |chain|
      ensures chain[j] in g.place && g.place[chain[j]] == Got(j)
    {
    }
    forall j | s.prod.PFree? && s.prod.i <= j < |s.prod.op.got|
      ensures s.prod.op.got[j] in g.place && g.place[s.prod.op.got[j]] == Got(j)
    {
      assert chain[j] == s.prod.op.got[j];
    }
  }

  lemma PhysPlace(s: State, g: Aux)
    requires Placed(s.elements.Keys, s.free, g.phys, s.prod, s.cons, g.place)
    ensures forall b :: b in g.phys ==> g.phys[b] in g.place && (g.place[g.phys[b]].Live? || g.place[g.phys[b]].Draining?)
  {
    hide ConsPlace;
  }

  lemma WfIndexed(s: State)
    requires Wf(s)
    ensures |s.index| > 0 && |s.values| == |s.keys|
    ensures forall i :: 0 <= i < |s.index[Last(s)]| ==> s.index[Last(s)][i] < |s.keys|
  {
    hide ProdWf, ConsWf;
  }

  lemma PlacedHolds(s: State, g: Aux)
    requires Inv(s, g)
    ensures Placed(s.elements.Keys, s.free, g.phys, s.prod, s.cons, g.place)
  {
  }

  // ---------------------------------------------------------------- main results: the producer

  /** The producer is in an operation that appends `items` to the queue `before` was left as. */
  ghost predicate During(s: State, before: State, items: seq<Elem>) {
    && s.prod != PIdle && s.prod.op.items == items && s.prod.op.start == before.tailBlock
    && s.tail == before.tail && s.enq == before.enq
  }

  /** Nothing was appended and the tail block is the one before. */
  ghost predicate Refused(s: State, before: State) {
    s.prod == PIdle && s.tail == before.tail && s.enq == before.enq && s.tailBlock == before.tailBlock
  }

  ghost predicate Appended(s: State, before: State, items: seq<Elem>) {
    s.prod == PIdle && s.tail == before.tail + |items| && s.enq == before.enq + items
  }

  /** The run of one operation, with any steps of the consumers in between. */
  ghost predicate Operation(s: State, run: seq<Action>, s': State)
    decreases |run|
  {
    if s.prod == PIdle then run == [] && s' == s
    else run != [] && Enabled(s, run[0]) && Operation(Next(s, run[0]), run[1..], s')
  }

  lemma DuringProdStep(s: State, c: Choice, before: State, items: seq<Elem>)
    requires Wf(s) && ProdEnabled(s, c) && During(s, before, items)
    ensures var s' := ProdStep(s, c);
            During(s', before, items) || Refused(s', before) || Appended(s', before, items)
  {
    hide ConsWf;
  }

  lemma DuringStep(s: State, a: Action, before: State, items: seq<Elem>)
    requires Enabled(s, a) && During(s, before, items)
    ensures var s' := Next(s, a);
            During(s', before, items) || Refused(s', before) || Appended(s', before, items)
  {
    if a.Produce? {
      DuringProdStep(s, a.choice, before, items);
    } else {
      hide Wf, ProdStep;
    }
  }

  lemma {:induction false} OperationEnds(s: State, run: seq<Action>, s': State, before: State, items: seq<Elem>)
    requires Operation(s, run, s')
    requires During(s, before, items) || Refused(s, before) || Appended(s, before, items)
    ensures Refused(s', before) || Appended(s', before, items)
    decreases |run|
  {
    hide Enabled;
    if s.prod != PIdle {
      DuringStep(s, run[0], before, items);
      OperationEnds(Next(s, run[0]), run[1..], s', before, items);
    }
  }

  /** `enqueue_bulk` is all or nothing: whatever allocation fails, and whatever the consumers do
      meanwhile, it either appends exactly its items in order or leaves queue and tail block as they
      were; `RestState` says what the index is like then. */
  lemma EnqueueIsAllOrNothing(s: State, items: seq<Elem>, run: seq<Action>, s': State)
    requires Enabled(s, Enqueue(items)) && Operation(Next(s, Enqueue(items)), run, s')
    ensures Refused(s', s) || Appended(s', s, items)
  {
    hide Wf;
    OperationEnds(Next(s, Enqueue(items)), run, s', s, items);
  }

  /** Between operations, whether those before succeeded or were undone, the index tail is in step
      with the blocks published: every key in the index stands as many slots after the tail as its
      block comes after the last one published, and no entry is set for a block not published. */
  lemma RestState(s: State, i: nat)
    requires Reachable(s) && s.prod == PIdle && Wf(s) && i < |s.index[Last(s)]|
    requires s.keys[s.index[Last(s)][i]] != INVALID_BLOCK_BASE
    ensures var h := Last(s); var e := s.index[h][i]; var q := s.keys[e] / BLOCK_SIZE;
            && s.keys[e] == q * BLOCK_SIZE
            && i == (s.tails[h] + (q - (Blocks(s.tail) - 1))) % |s.index[h]|
            && (s.values[e].Some? ==> q < Blocks(s.tail))
  {
    hide Inv, Reachable, Slot, Partial, Sized, ProdWf, Keyed, Ringed, Shape, Blocks, Wf, EntryOf;
    var g := ReachableInv(s);
    ProdFacts(s, g);
    KeyedEntry(s.index, s.keys, g.ring, i);
    var h := Last(s);
    var q := s.keys[s.index[h][i]] / BLOCK_SIZE;
    SlotMoves(Blocks(s.tail) - 1, g.ring.c[h], |s.index[h]|, q - (Blocks(s.tail) - 1));
    assert Blocks(s.tail) - 1 + (q - (Blocks(s.tail) - 1)) == q;
  }

  /** The head never passes the block being allocated, so the queue is never found full. */
  lemma HeadIsBehindNewBlock(s: State)
    requires Reachable(s) && (s.prod.PCheck? || s.prod.PGrow?)
    ensures s.head <= (Blocks(s.tail) + |s.prod.op.got|) * BLOCK_SIZE
  {
    hide Inv, Reachable;
    var g := ReachableInv(s);
    ProdFacts(s, g);
  }
}
