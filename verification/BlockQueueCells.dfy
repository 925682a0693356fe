/** A block is empty when it is given back: every element has been moved out of it. */
module BlockQueueCells {
  import opened BlockQueue
  import opened BlockQueueProof
  import C = BlockQueueConsumer
  import opened BlockQueueProducer
  import opened BlockQueuePublish
  import opened BlockQueueRuns

  type Elements = map<BlockId, seq<Option<Elem>>>

  /** If the block of index `i` is live, its cell for `i` is empty. */
  ghost predicate Gone(elements: Elements, phys: map<nat, BlockId>, i: nat) {
    i / BLOCK_SIZE in phys && phys[i / BLOCK_SIZE] in elements && |elements[phys[i / BLOCK_SIZE]]| == BLOCK_SIZE ==>
      elements[phys[i / BLOCK_SIZE]][i % BLOCK_SIZE] == None
  }

  ghost predicate Drained(elements: Elements, x: BlockId) {
    x in elements ==> forall k :: 0 <= k < |elements[x]| ==> elements[x][k] == None
  }

  /** What has been counted, and what a consumer has read and not yet counted, is gone; so is
      everything in a block that a consumer is about to give back. */
  ghost predicate Cells(elements: Elements, done: set<nat>, phys: map<nat, BlockId>, cons: seq<Cons>) {
    && (forall i :: i in done ==> Gone(elements, phys, i))
    && (forall t, i: nat :: 0 <= t < |cons| && HasJob(cons[t]) && cons[t].job.from <= i < cons[t].job.at ==>
          Gone(elements, phys, i))
    && (forall t :: 0 <= t < |cons| && cons[t].CFree? ==> Drained(elements, cons[t].block))
  }

  ghost predicate CellsOf(s: State, g: Aux) {
    Cells(s.elements, g.done, g.phys, s.cons)
  }

  // ---------------------------------------------------------------- the producer

  /** Every index counted or read lies in a block published. */
  ghost predicate Below(done: set<nat>, cons: seq<Cons>, tail: nat) {
    && (forall i :: i in done ==> i < tail)
    && forall t :: 0 <= t < |cons| && HasJob(cons[t]) ==> cons[t].job.at <= tail
  }

  lemma InvBelow(s: State, g: Aux)
    requires Inv(s, g)
    ensures Below(g.done, s.cons, s.tail)
  {
    hide Ringed, Keyed, TailAt, ProdAt, Valued, Placed, Reset, Tallied, Released, Partial, Constructed, Looking, Sized,
         ProdWf, Holds;
  }

  /** The cells of what is below the tail, and of the blocks to be given back, stay as they are or
      are emptied, if the rest of the step concerns only new blocks. */
  lemma CellsKept(elements: Elements, done: set<nat>, phys: map<nat, BlockId>, cons: seq<Cons>, tail: nat,
                  elements': Elements, phys': map<nat, BlockId>)
    requires Cells(elements, done, phys, cons) && Below(done, cons, tail)
    requires forall i: nat :: i < tail && Gone(elements, phys, i) ==> Gone(elements', phys', i)
    requires forall t :: 0 <= t < |cons| && cons[t].CFree? && Drained(elements, cons[t].block) ==>
               Drained(elements', cons[t].block)
    ensures Cells(elements', done, phys', cons)
  {
    hide Gone, Drained;
  }

  /** A construction puts something only where nothing was counted or read. */
  lemma FillCells(s: State, g: Aux, c: Choice)
    requires Inv(s, g) && Wf(s) && ProdEnabled(s, c) && s.prod.PFill? && s.prod.k < |s.prod.op.items| && CellsOf(s, g)
    ensures CellsOf(ProdStep(s, c), g)
  {
    hide Inv, Wf, ProdEnabled, ProdStep, ProdWf, ProdAt, Sized, Shape, FillBlock, Cells, Gone, Drained, Keyed, Ringed,
         TailAt, Valued, Partial;
    FillFacts(s, g, c);
    ProdFacts(s, g);
    PlacedHolds(s, g);
    InvBelow(s, g);
    var i := s.tail + s.prod.k;
    var b := FillBlock(s.tail, s.prod.op, i);
    var elements' := Filled(s.elements, b, i, s.prod.op.items[s.prod.k]);
    forall j: nat | j < s.tail && Gone(s.elements, g.phys, j) ensures Gone(elements', g.phys, j) {
      FillElsewhere(s, g, i, j, s.prod.op.items[s.prod.k]);
    }
    forall t | 0 <= t < |s.cons| && s.cons[t].CFree? && Drained(s.elements, s.cons[t].block)
      ensures Drained(elements', s.cons[t].block)
    {
      FillsOther(s, g, i, t);
      DrainedElsewhere(s.elements, b, i, s.prod.op.items[s.prod.k], s.cons[t].block);
    }
    CellsKept(s.elements, g.done, g.phys, s.cons, s.tail, elements', g.phys);
  }

  lemma DrainedElsewhere(elements: Elements, b: BlockId, i: nat, e: Elem, x: BlockId)
    requires b in elements && |elements[b]| == BLOCK_SIZE && x != b && Drained(elements, x)
    ensures Drained(Filled(elements, b, i, e), x)
  {
  }

  lemma FillElsewhere(s: State, g: Aux, i: nat, j: nat, e: Elem)
    requires Placed(s.elements.Keys, s.free, g.phys, s.prod, s.cons, g.place) && Filling(s)
    requires Partial(s.tail, g.phys, Start(s.prod, s.tailBlock))
    requires s.tail <= i < s.tail + |s.prod.op.items| && FillBlock(s.tail, s.prod.op, i) in s.elements
    requires |s.elements[FillBlock(s.tail, s.prod.op, i)]| == BLOCK_SIZE
    requires j < s.tail && Gone(s.elements, g.phys, j)
    ensures Gone(Filled(s.elements, FillBlock(s.tail, s.prod.op, i), i, e), g.phys, j)
  {
    hide Placed, Partial, FillBlock;
    if j / BLOCK_SIZE in g.phys {
      C.FilledBlockIsLast(s, g, j / BLOCK_SIZE, i);
      if j / BLOCK_SIZE == i / BLOCK_SIZE { assert j % BLOCK_SIZE != i % BLOCK_SIZE; }
    }
  }

  /** The block filled is not one that a consumer is about to give back. */
  lemma FillsOther(s: State, g: Aux, i: nat, t: Tid)
    requires Placed(s.elements.Keys, s.free, g.phys, s.prod, s.cons, g.place) && Filling(s)
    requires Partial(s.tail, g.phys, Start(s.prod, s.tailBlock))
    requires s.tail <= i < s.tail + |s.prod.op.items| && t < |s.cons| && s.cons[t].CFree?
    ensures s.cons[t].block != FillBlock(s.tail, s.prod.op, i)
  {
    TailBlockIsLive(s, g, i);
    assert ConsPlace(s.cons[t], t, g.phys, g.place);
    hide FillBlock, Partial;
  }

  /** Publishing makes blocks live that hold nothing counted or read. */
  lemma PublishCells(s: State, g: Aux, c: Choice)
    requires Inv(s, g) && Wf(s) && ProdEnabled(s, c) && s.prod.PFill? && s.prod.k == |s.prod.op.items| && CellsOf(s, g)
    ensures CellsOf(ProdStep(s, c), PublishAux(s, g))
  {
    hide Inv, Wf, ProdEnabled, ProdStep, Cells, Drained, Filling, Shape;
    PublishFacts(s, g, c);
    InvBelow(s, g);
    forall i: nat | i < s.tail && Gone(s.elements, g.phys, i)
      ensures Gone(s.elements, PublishAux(s, g).phys, i)
    {
      OldPhys(s, g, i / BLOCK_SIZE);
    }
    CellsKept(s.elements, g.done, g.phys, s.cons, s.tail, s.elements, PublishAux(s, g).phys);
  }

  lemma OldPhys(s: State, g: Aux, b: nat)
    requires s.prod.PFill? && b < Blocks(s.tail)
    ensures b in PublishAux(s, g).phys <==> b in g.phys
    ensures b in g.phys ==> PublishAux(s, g).phys[b] == g.phys[b]
  {
  }

  /** The step puts nothing into a block that is there. */
  ghost predicate Leaves(s: State, g: Aux, s': State, g': Aux) {
    && s'.cons == s.cons && g'.done == g.done && g'.phys == g.phys
    && (s'.elements == s.elements
        || exists x: BlockId :: x !in s.elements && s'.elements == s.elements[x := seq(BLOCK_SIZE, _ => None)])
  }

  lemma InsertLeaves(s: State, g: Aux, c: Choice)
    requires Inv(s, g) && Wf(s) && ProdEnabled(s, c)
    requires s.prod.PCheck? || s.prod.PGrow? || s.prod.PKey? || s.prod.PTail? || s.prod.PValue?
    ensures Leaves(s, g, ProdStep(s, c), ProdAux(s, g, c))
  {
    hide Inv, Wf, SlotFor, Pushed, GrownRing, MovedRing, Chain, Needed, Blocks;
  }

  lemma TakeLeaves(s: State, g: Aux, c: Choice)
    requires Inv(s, g) && Wf(s) && ProdEnabled(s, c) && s.prod.PBlock?
    ensures Leaves(s, g, ProdStep(s, c), ProdAux(s, g, c))
  {
    hide Inv, Wf, SlotFor;
  }

  lemma UndoLeaves(s: State, g: Aux, c: Choice)
    requires Inv(s, g) && Wf(s) && ProdEnabled(s, c)
    requires s.prod.PRewind? || s.prod.PNull? || s.prod.PUndo? || s.prod.PUndoRewind? || s.prod.PFree?
    ensures Leaves(s, g, ProdStep(s, c), ProdAux(s, g, c))
  {
    hide Inv, Wf, SlotFor, MovedRing, Blocks;
  }

  lemma NewBlockCells(elements: Elements, done: set<nat>, phys: map<nat, BlockId>, cons: seq<Cons>, x: BlockId)
    requires Cells(elements, done, phys, cons) && x !in elements
    ensures Cells(elements[x := seq(BLOCK_SIZE, _ => None)], done, phys, cons)
  {
    var elements' := elements[x := seq(BLOCK_SIZE, _ => None)];
    assert forall k :: 0 <= k < BLOCK_SIZE ==> elements'[x][k] == None;
    forall i: nat | Gone(elements, phys, i) ensures Gone(elements', phys, i) {}
    forall y | Drained(elements, y) ensures Drained(elements', y) {}
    hide Gone, Drained;
  }

  lemma ProduceCells(s: State, g: Aux, c: Choice)
    requires Inv(s, g) && Wf(s) && ProdEnabled(s, c) && CellsOf(s, g)
    ensures CellsOf(ProdStep(s, c), ProdAux(s, g, c))
  {
    ProdBounds(s);
    hide Inv, Wf, ProdEnabled, ProdStep, Cells, PublishAux;
    if s.prod.PFill? {
      if s.prod.k < |s.prod.op.items| { FillCells(s, g, c); } else { PublishCells(s, g, c); }
    } else {
      IdleStays(s, c);
      OtherLeaves(s, g, c);
      hide ProdAux;
      var elements' := ProdStep(s, c).elements;
      if elements' != s.elements {
        var x: BlockId :| x !in s.elements && elements' == s.elements[x := seq(BLOCK_SIZE, _ => None)];
        NewBlockCells(s.elements, g.done, g.phys, s.cons, x);
      }
    }
  }

  lemma OtherLeaves(s: State, g: Aux, c: Choice)
    requires Inv(s, g) && Wf(s) && ProdEnabled(s, c) && !s.prod.PFill? && s.prod != PIdle
    ensures Leaves(s, g, ProdStep(s, c), ProdAux(s, g, c))
  {
    hide Inv, Wf, ProdEnabled, ProdStep, ProdAux, Leaves;
    match s.prod
    case PBlock(_, _) => TakeLeaves(s, g, c);
    case PRewind(_, _) => UndoLeaves(s, g, c);
    case PNull(_, _) => UndoLeaves(s, g, c);
    case PUndo(_, _) => UndoLeaves(s, g, c);
    case PUndoRewind(_, _) => UndoLeaves(s, g, c);
    case PFree(_, _) => UndoLeaves(s, g, c);
    case _ => InsertLeaves(s, g, c);
  }

  // ---------------------------------------------------------------- a consumer

  /** A step of a consumer that moves nothing and counts nothing. */
  lemma MoveCells(elements: Elements, done: set<nat>, phys: map<nat, BlockId>, cons: seq<Cons>, t: Tid, c: Cons)
    requires Cells(elements, done, phys, cons) && t < |cons|
    requires HasJob(c) ==> c.job.from == c.job.at || (HasJob(cons[t]) && c.job.from == cons[t].job.from && c.job.at == cons[t].job.at)
    requires c.CFree? ==> Drained(elements, c.block)
    ensures Cells(elements, done, phys, cons[t := c])
  {
    hide Gone, Drained;
  }

  lemma ReadCells(s: State, g: Aux, t: Tid)
    requires Inv(s, g) && Wf(s) && t < |s.cons| && s.cons[t].CRead? && s.cons[t].job.at < Stop(s.cons[t].job) && CellsOf(s, g)
    ensures CellsOf(ConsStep(s, t), g)
  {
    hide Inv, Wf, ConsStep, Stop, Shape, LookupOk, ConsPlace, JobOk;
    C.ReadFacts(s, g, t);
    var job, b, e := s.cons[t].job, s.cons[t].block, s.enq[s.cons[t].job.at];
    C.HoldsAt(s, g, job.at, e);
    C.ReadIs(s, t, e);
    EmptiedCells(s.elements, g.done, g.phys, s.cons, t, b, e);
  }

  lemma EmptiedCells(elements: Elements, done: set<nat>, phys: map<nat, BlockId>, cons: seq<Cons>, t: Tid, b: BlockId, e: Elem)
    requires Cells(elements, done, phys, cons) && t < |cons| && cons[t].CRead? && b in elements && |elements[b]| == BLOCK_SIZE
    requires cons[t].job.at / BLOCK_SIZE in phys && phys[cons[t].job.at / BLOCK_SIZE] == b
    ensures Cells(C.Emptied(elements, b, cons[t].job.at), done, phys, cons[t := C.ReadOne(cons[t], e)])
  {
    var at := cons[t].job.at;
    var elements' := C.Emptied(elements, b, at);
    forall i: nat | Gone(elements, phys, i) || i == at ensures Gone(elements', phys, i) {
      if i / BLOCK_SIZE in phys && phys[i / BLOCK_SIZE] == b { assert elements'[b] == elements[b][at % BLOCK_SIZE := None]; }
    }
    forall x | Drained(elements, x) ensures Drained(elements', x) {}
    hide Gone, Drained;
  }

  lemma CountCells(s: State, g: Aux, t: Tid)
    requires Inv(s, g) && Wf(s) && t < |s.cons| && s.cons[t].CCount? && CellsOf(s, g)
    ensures CellsOf(ConsStep(s, t), C.ConsAux(s, g, t))
  {
    hide Inv, Gone, Drained, Wf;
    C.CountFacts(s, g, t);
    WfSlot(s, t);
    var job := s.cons[t].job;
    assert forall i :: i in C.Span(job.from, job.at) ==> job.from <= i < job.at;
    hide Shape, LookupOk, JobOk;
  }

  lemma WfSlot(s: State, t: Tid)
    requires Wf(s) && t < |s.cons| && (s.cons[t].CCount? || s.cons[t].CNull? || s.cons[t].CFree?)
    ensures s.cons[t].h < |s.index| && |s.index[s.cons[t].h]| > 0 && s.cons[t].slot < |s.index[s.cons[t].h]|
    ensures s.index[s.cons[t].h][s.cons[t].slot] < |s.values|
  {
    hide ProdWf;
  }

  /** Everything of a block that is drained is gone. */
  lemma DrainedAll(s: State, g: Aux, n: nat)
    requires Inv(s, g) && CellsOf(s, g) && n in g.phys && forall i: nat :: i / BLOCK_SIZE == n ==> i in g.done
    ensures g.phys[n] in s.elements && |s.elements[g.phys[n]]| == BLOCK_SIZE && Drained(s.elements, g.phys[n])
  {
    C.LiveValue(s, g, n);
    ProdFacts(s, g);
    hide Inv;
    forall k | 0 <= k < BLOCK_SIZE ensures s.elements[g.phys[n]][k] == None {
      var i := n * BLOCK_SIZE + k;
      assert i / BLOCK_SIZE == n && i % BLOCK_SIZE == k;
      assert Gone(s.elements, g.phys, i);
    }
  }

  lemma NullCells(s: State, g: Aux, t: Tid)
    requires Inv(s, g) && Wf(s) && t < |s.cons| && s.cons[t].CNull? && CellsOf(s, g)
    ensures CellsOf(ConsStep(s, t), C.ConsAux(s, g, t))
  {
    hide Inv, Wf, Shape, LookupOk;
    C.NullFacts(s, g, t);
    WfSlot(s, t);
    var n := LastBlock(s.cons[t].job);
    DrainedAll(s, g, n);
    var c := CFree(s.cons[t].job, s.cons[t].h, s.cons[t].slot, s.cons[t].block);
    MoveCells(s.elements, g.done, g.phys, s.cons, t, c);
    FewerCells(s.elements, g.done, g.phys, g.phys - {n}, s.cons[t := c]);
  }

  lemma FewerCells(elements: Elements, done: set<nat>, phys: map<nat, BlockId>, phys': map<nat, BlockId>, cons: seq<Cons>)
    requires Cells(elements, done, phys, cons) && forall b :: b in phys' ==> b in phys && phys'[b] == phys[b]
    ensures Cells(elements, done, phys', cons)
  {
    forall i: nat | Gone(elements, phys, i) ensures Gone(elements, phys', i) {}
    hide Gone, Drained;
  }

  lemma LookCells(s: State, g: Aux, t: Tid)
    requires Inv(s, g) && Enabled(s, Consume(t)) && CellsOf(s, g)
    requires !s.cons[t].CCount? && !s.cons[t].CNull? && (s.cons[t].CRead? ==> s.cons[t].job.at >= Stop(s.cons[t].job))
    ensures CellsOf(ConsStep(s, t), C.ConsAux(s, g, t))
  {
    hide Inv, Cells, SlotFor, Stop;
    C.JobFacts(s, g, t);
    var c := ConsStep(s, t).cons[t];
    assert ConsStep(s, t).cons == s.cons[t := c];
    hide Keyed, Shape, ConsPlace, JobOk, Holds;
    MoveCells(s.elements, g.done, g.phys, s.cons, t, c);
  }

  // ---------------------------------------------------------------- runs

  lemma StepKeepsCells(s: State, g: Aux, a: Action)
    requires Inv(s, g) && Enabled(s, a) && CellsOf(s, g)
    ensures CellsOf(Next(s, a), NextAux(s, g, a))
  {
    hide Inv, Wf, Cells, ProdStep, ConsStep, ProdAux, C.ConsAux, ProdEnabled, Stop;
    match a
    case Enqueue(items) =>
    case Produce(c) => ProduceCells(s, g, c);
    case Grant(t, count) =>
      MoveCells(s.elements, g.done, g.phys, s.cons, t, CIndex(Job(s.head, s.head + count, s.head, s.head, [])));
    case Consume(t) =>
      if s.cons[t].CRead? && s.cons[t].job.at < Stop(s.cons[t].job) { ReadConsumes(s, g, t); }
      else if s.cons[t].CCount? { CountCells(s, g, t); }
      else if s.cons[t].CNull? { NullCells(s, g, t); }
      else { LookCells(s, g, t); }
    case Finish(t) => MoveCells(s.elements, g.done, g.phys, s.cons, t, CIdle);
  }

  lemma ReadConsumes(s: State, g: Aux, t: Tid)
    requires Inv(s, g) && Wf(s) && t < |s.cons| && s.cons[t].CRead? && s.cons[t].job.at < Stop(s.cons[t].job) && CellsOf(s, g)
    ensures CellsOf(ConsStep(s, t), C.ConsAux(s, g, t))
  {
    hide Inv, Wf, Cells, ConsStep, Stop;
    ReadCells(s, g, t);
  }

  lemma {:induction false} RunsKeepCells(s: State, g: Aux, run: seq<Action>, s': State) returns (g': Aux)
    requires Inv(s, g) && CellsOf(s, g) && Runs(s, run, s') && Careful(run)
    ensures Inv(s', g') && CellsOf(s', g')
    decreases |run|
  {
    hide Inv, Enabled, CellsOf;
    if run == [] {
      g' := g;
    } else {
      assert Asks(run[0]) && Careful(run[1..]);
      StepKeepsInv(s, g, run[0]);
      StepKeepsCells(s, g, run[0]);
      g' := RunsKeepCells(Next(s, run[0]), NextAux(s, g, run[0]), run[1..], s');
    }
  }

  lemma InitHasCells(s: State)
    requires Init(s)
    ensures CellsOf(s, InitAux(s))
  {
  }

  lemma ReachableCells(s: State) returns (g: Aux)
    requires Reachable(s)
    ensures Inv(s, g) && CellsOf(s, g)
  {
    hide Inv, CellsOf, Init, Runs;
    var first, run :| Init(first) && Runs(first, run, s) && Careful(run);
    InitHasInv(first);
    InitHasCells(first);
    g := RunsKeepCells(first, InitAux(first), run, s);
  }

  /** A block that is being taken out of the index and given back is empty: all that was ever put
      into it has been moved out. */
  lemma FreedBlockIsEmpty(s: State, t: Tid)
    requires Reachable(s) && t < |s.cons| && (s.cons[t].CNull? || s.cons[t].CFree?)
    ensures s.cons[t].block in s.elements && |s.elements[s.cons[t].block]| == BLOCK_SIZE
    ensures forall k :: 0 <= k < BLOCK_SIZE ==> s.elements[s.cons[t].block][k] == None
  {
    hide Inv, Reachable, Drained, Gone;
    var g := ReachableCells(s);
    if s.cons[t].CNull? {
      C.NullFacts(s, g, t);
      DrainedAll(s, g, LastBlock(s.cons[t].job));
    } else {
      FreedIsThere(s, g, t);
      assert Drained(s.elements, s.cons[t].block);
    }
    DrainedIs(s.elements, s.cons[t].block);
  }

  lemma DrainedIs(elements: Elements, x: BlockId)
    requires Drained(elements, x) && x in elements
    ensures forall k :: 0 <= k < |elements[x]| ==> elements[x][k] == None
  {
  }

  lemma FreedIsThere(s: State, g: Aux, t: Tid)
    requires Inv(s, g) && t < |s.cons| && s.cons[t].CFree?
    ensures s.cons[t].block in s.elements && |s.elements[s.cons[t].block]| == BLOCK_SIZE
  {
    PlacedHolds(s, g);
    ProdFacts(s, g);
    hide Inv, Keyed, Ringed, TailAt, Shape, Valued, ProdAt;
    assert ConsPlace(s.cons[t], t, g.phys, g.place);
  }
}
