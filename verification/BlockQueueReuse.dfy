/** Blocks are given back: one stays in the index only for an element of it that is still to be taken,
    or until the consumer that took its last one has unlinked it. */
module BlockQueueReuse {
  import opened BlockQueue
  import opened BlockQueueProof
  import C = BlockQueueConsumer
  import opened BlockQueueProducer
  import opened BlockQueuePublish
  import opened BlockQueueRuns
  import B = BlockQueueBlocks
  import E = BlockQueueCells
  import P = BlockQueueProgress

  type Places = map<BlockId, Place>

  // ---------------------------------------------------------------- what every step keeps

  /** The element was granted to a consumer that has not counted it yet. */
  ghost predicate Awaited(cons: seq<Cons>, i: nat) {
    exists t :: 0 <= t < |cons| && HasJob(cons[t]) && cons[t].job.from <= i < cons[t].job.end
  }

  /** Everything granted has been counted or will be. */
  ghost predicate Attended(done: set<nat>, head: nat, cons: seq<Cons>) {
    forall i: nat :: i < head ==> i in done || Awaited(cons, i)
  }

  /** A drained block is in the hands of the consumer that drained it. */
  ghost predicate Unlinking(place: Places, cons: seq<Cons>) {
    forall x :: x in place && place[x].Draining? ==>
      place[x].t < |cons| && cons[place[x].t].CNull? && cons[place[x].t].block == x
  }

  ghost predicate Tended(s: State, g: Aux) {
    Attended(g.done, s.head, s.cons) && Unlinking(g.place, s.cons)
  }

  // ---------------------------------------------------------------- the producer

  /** The step drains no block and concerns no consumer. */
  ghost predicate Apart(s: State, g: Aux, s': State, g': Aux) {
    && s'.cons == s.cons && s'.head == s.head && g'.done == g.done
    && forall x :: x in g'.place && g'.place[x].Draining? ==> x in g.place && g.place[x] == g'.place[x]
  }

  lemma InsertApart(s: State, g: Aux, c: Choice)
    requires Inv(s, g) && Wf(s) && ProdEnabled(s, c)
    requires s.prod.PCheck? || s.prod.PGrow? || s.prod.PKey? || s.prod.PTail? || s.prod.PBlock? || s.prod.PValue?
    ensures Apart(s, g, ProdStep(s, c), ProdAux(s, g, c))
  {
    hide Inv, Wf, SlotFor, Pushed, GrownRing, MovedRing, Chain, Needed, Blocks;
  }

  lemma UndoApart(s: State, g: Aux, c: Choice)
    requires Inv(s, g) && Wf(s) && ProdEnabled(s, c)
    requires s.prod.PRewind? || s.prod.PNull? || s.prod.PUndo? || s.prod.PUndoRewind? || s.prod.PFree?
    ensures Apart(s, g, ProdStep(s, c), ProdAux(s, g, c))
  {
    hide Inv, Wf, SlotFor, MovedRing, Blocks;
  }

  lemma FillApart(s: State, g: Aux, c: Choice)
    requires Inv(s, g) && Wf(s) && ProdEnabled(s, c) && s.prod.PFill?
    ensures Apart(s, g, ProdStep(s, c), ProdAux(s, g, c))
  {
    hide Inv, Wf, SlotFor, Blocks, FillBlock, GrownPhys;
  }

  lemma ProducerIsApart(s: State, g: Aux, c: Choice)
    requires Inv(s, g) && Wf(s) && ProdEnabled(s, c)
    ensures Apart(s, g, ProdStep(s, c), ProdAux(s, g, c))
  {
    IdleStays(s, c);
    hide Inv, Wf, ProdEnabled, ProdStep, ProdAux, Apart;
    match s.prod
    case PRewind(_, _) => UndoApart(s, g, c);
    case PNull(_, _) => UndoApart(s, g, c);
    case PUndo(_, _) => UndoApart(s, g, c);
    case PUndoRewind(_, _) => UndoApart(s, g, c);
    case PFree(_, _) => UndoApart(s, g, c);
    case PFill(_, _) => FillApart(s, g, c);
    case _ => InsertApart(s, g, c);
  }

  lemma ApartTended(s: State, g: Aux, s': State, g': Aux)
    requires Apart(s, g, s', g') && Tended(s, g)
    ensures Tended(s', g')
  {
    hide Awaited;
  }

  // ---------------------------------------------------------------- a consumer

  /** What one consumer's step leaves awaited. */
  lemma AwaitedElsewhere(cons: seq<Cons>, t: Tid, c: Cons, i: nat)
    requires t < |cons| && Awaited(cons, i)
    requires HasJob(cons[t]) && cons[t].job.from <= i < cons[t].job.end ==> HasJob(c) && c.job.from <= i < c.job.end
    ensures Awaited(cons[t := c], i)
  {
    var u :| 0 <= u < |cons| && HasJob(cons[u]) && cons[u].job.from <= i < cons[u].job.end;
    assert cons[t := c][u] == if u == t then c else cons[u];
  }

  lemma AttendedMove(done: set<nat>, head: nat, cons: seq<Cons>, done': set<nat>, head': nat, t: Tid, c: Cons)
    requires Attended(done, head, cons) && t < |cons| && head <= head' && done <= done'
    requires head == head' || (HasJob(c) && c.job.from <= head && head' <= c.job.end)
    requires forall i: nat :: HasJob(cons[t]) && cons[t].job.from <= i < cons[t].job.end ==>
               i in done' || (HasJob(c) && c.job.from <= i < c.job.end)
    ensures Attended(done', head', cons[t := c])
  {
    var cons' := cons[t := c];
    forall i: nat | i < head' && i !in done' ensures Awaited(cons', i) {
      if i < head {
        assert i !in done;
        AwaitedElsewhere(cons, t, c, i);
      } else {
        assert cons'[t] == c;
      }
    }
  }

  lemma UnlinkingMove(place: Places, cons: seq<Cons>, place': Places, t: Tid, c: Cons)
    requires Unlinking(place, cons) && t < |cons|
    requires forall x :: x in place' && place'[x].Draining? ==>
               || (place'[x].t == t && c.CNull? && c.block == x)
               || (x in place && place[x] == place'[x] && (place[x].t != t || !cons[t].CNull? || (c.CNull? && c.block == cons[t].block)))
    ensures Unlinking(place', cons[t := c])
  {
  }

  lemma CountTended(s: State, g: Aux, t: Tid)
    requires Inv(s, g) && Wf(s) && t < |s.cons| && s.cons[t].CCount? && Tended(s, g)
    ensures Tended(ConsStep(s, t), C.ConsAux(s, g, t))
  {
    hide Inv, Wf, Attended, Unlinking;
    C.CountFacts(s, g, t);
    E.WfSlot(s, t);
    var job := s.cons[t].job;
    SpanHas(job.from, job.at);
    hide Shape, LookupOk, JobOk, Of, C.Span, Stop;
    var s', g' := ConsStep(s, t), C.ConsAux(s, g, t);
    var c := s'.cons[t];
    assert s'.cons == s.cons[t := c];
    AttendedMove(g.done, s.head, s.cons, g'.done, s.head, t, c);
    UnlinkingMove(g.place, s.cons, g'.place, t, c);
  }

  lemma SpanHas(lo: nat, hi: nat)
    ensures forall i: nat :: lo <= i < hi ==> i in C.Span(lo, hi)
  {
    forall i: nat | lo <= i < hi ensures i in C.Span(lo, hi) { assert C.Within(lo, i, hi); }
  }

  lemma NullTended(s: State, g: Aux, t: Tid)
    requires Inv(s, g) && Wf(s) && t < |s.cons| && s.cons[t].CNull? && Tended(s, g)
    ensures Tended(ConsStep(s, t), C.ConsAux(s, g, t))
  {
    hide Inv, Wf, Attended, Shape, LookupOk;
    C.NullFacts(s, g, t);
    E.WfSlot(s, t);
    var s', g' := ConsStep(s, t), C.ConsAux(s, g, t);
    var c := s'.cons[t];
    assert s'.cons == s.cons[t := c];
    AttendedMove(g.done, s.head, s.cons, g'.done, s.head, t, c);
    UnlinkingMove(g.place, s.cons, g'.place, t, c);
  }

  /** A step that neither counts nor unlinks. */
  lemma LookTended(s: State, g: Aux, t: Tid, s': State)
    requires Inv(s, g) && Enabled(s, Consume(t)) && Tended(s, g) && !s.cons[t].CCount? && !s.cons[t].CNull?
    requires s' == ConsStep(s, t) && t < |s'.cons| && HasJob(s'.cons[t])
    ensures Tended(s', C.ConsAux(s, g, t))
  {
    hide Inv, Attended, Unlinking, SlotFor, Stop, Wf;
    LookShape(s, t, s');
    var g', c := C.ConsAux(s, g, t), s'.cons[t];
    hide ConsStep;
    AttendedMove(g.done, s.head, s.cons, g'.done, s.head, t, c);
    UnlinkingMove(g.place, s.cons, g'.place, t, c);
  }

  lemma LookShape(s: State, t: Tid, s': State)
    requires Enabled(s, Consume(t)) && !s.cons[t].CCount? && !s.cons[t].CNull?
    requires s' == ConsStep(s, t) && t < |s'.cons| && HasJob(s'.cons[t])
    ensures |s'.cons| == |s.cons| && s'.cons == s.cons[t := s'.cons[t]] && s'.head == s.head
    ensures s'.cons[t].job.from == s.cons[t].job.from && s'.cons[t].job.end == s.cons[t].job.end
  {
    P.WfShape(s, t);
    hide Wf, SlotFor, Stop;
  }

  lemma KeepsJob(s: State, g: Aux, t: Tid)
    requires Inv(s, g) && t < |s.cons| && !s.cons[t].CIdle?
    ensures HasJob(s.cons[t])
  {
    LookupHolds(s, g, t);
    hide Inv;
  }

  lemma ConsumeTended(s: State, g: Aux, t: Tid)
    requires Inv(s, g) && Enabled(s, Consume(t)) && Tended(s, g)
    ensures Tended(ConsStep(s, t), C.ConsAux(s, g, t))
  {
    hide Inv, Wf, Tended, C.ConsAux;
    C.ConsumerKeepsInv(s, g, t);
    if s.cons[t].CCount? {
      CountTended(s, g, t);
    } else if s.cons[t].CNull? {
      NullTended(s, g, t);
    } else {
      NotIdle(s, t);
      KeepsJob(ConsStep(s, t), C.ConsAux(s, g, t), t);
      LookTended(s, g, t, ConsStep(s, t));
    }
  }

  lemma NotIdle(s: State, t: Tid)
    requires Enabled(s, Consume(t))
    ensures t < |ConsStep(s, t).cons| && !ConsStep(s, t).cons[t].CIdle?
  {
    P.WfShape(s, t);
    hide Wf, SlotFor, Stop;
  }

  lemma FinishTended(s: State, g: Aux, t: Tid)
    requires Inv(s, g) && Enabled(s, Finish(t)) && Tended(s, g)
    ensures Tended(Next(s, Finish(t)), g)
  {
    hide Attended, Unlinking, Wf;
    DoneIsEmpty(s, g, t);
    hide Inv;
    AttendedMove(g.done, s.head, s.cons, g.done, s.head, t, CIdle);
    UnlinkingMove(g.place, s.cons, g.place, t, CIdle);
  }

  lemma DoneIsEmpty(s: State, g: Aux, t: Tid)
    requires Inv(s, g) && t < |s.cons| && s.cons[t].CDone?
    ensures s.cons[t].job.from == s.cons[t].job.end
  {
    LookupHolds(s, g, t);
    hide Inv;
  }

  lemma GrantTended(s: State, g: Aux, t: Tid, count: nat)
    requires Inv(s, g) && Enabled(s, Grant(t, count)) && Tended(s, g)
    ensures Tended(Next(s, Grant(t, count)), g)
  {
    hide Inv, Attended, Unlinking, Wf;
    var c := CIndex(Job(s.head, s.head + count, s.head, s.head, []));
    AttendedMove(g.done, s.head, s.cons, g.done, s.head + count, t, c);
    UnlinkingMove(g.place, s.cons, g.place, t, c);
  }

  // ---------------------------------------------------------------- runs

  lemma StepKeepsTended(s: State, g: Aux, a: Action)
    requires Inv(s, g) && Enabled(s, a) && Tended(s, g)
    ensures Tended(Next(s, a), NextAux(s, g, a))
  {
    hide Inv, Wf, Tended, ProdStep, ConsStep, ProdAux, C.ConsAux, ProdEnabled, Apart;
    match a
    case Enqueue(items) => EnqueueTended(s, g, items);
    case Produce(c) =>
      ProducerIsApart(s, g, c);
      ApartTended(s, g, ProdStep(s, c), ProdAux(s, g, c));
    case Grant(t, count) => GrantTended(s, g, t, count);
    case Consume(t) => ConsumeTended(s, g, t);
    case Finish(t) => FinishTended(s, g, t);
  }

  lemma EnqueueTended(s: State, g: Aux, items: seq<Elem>)
    requires Enabled(s, Enqueue(items)) && Tended(s, g)
    ensures Tended(Next(s, Enqueue(items)), g)
  {
    hide Wf, Attended, Unlinking;
  }

  lemma {:induction false} RunsKeepTended(s: State, g: Aux, run: seq<Action>, s': State) returns (g': Aux)
    requires Inv(s, g) && B.Complete(s, g) && Tended(s, g) && Runs(s, run, s') && Careful(run)
    ensures Inv(s', g') && B.Complete(s', g') && Tended(s', g')
    decreases |run|
  {
    hide Inv, Enabled, Tended, B.Complete;
    if run == [] {
      g' := g;
    } else {
      assert Asks(run[0]) && Careful(run[1..]);
      StepKeepsInv(s, g, run[0]);
      B.StepKeepsPlaces(s, g, run[0]);
      StepKeepsTended(s, g, run[0]);
      g' := RunsKeepTended(Next(s, run[0]), NextAux(s, g, run[0]), run[1..], s');
    }
  }

  lemma InitIsTended(s: State)
    requires Init(s)
    ensures Tended(s, InitAux(s)) && B.Complete(s, InitAux(s))
  {
  }

  lemma ReachableTended(s: State) returns (g: Aux)
    requires Reachable(s)
    ensures Inv(s, g) && B.Complete(s, g) && Tended(s, g)
  {
    hide Inv, Tended, B.Complete, Init, Runs;
    var first, run :| Init(first) && Runs(first, run, s) && Careful(run);
    InitHasInv(first);
    InitIsTended(first);
    g := RunsKeepTended(first, InitAux(first), run, s);
  }

  // ---------------------------------------------------------------- main results

  /** The block has an element that is not granted yet, or is granted and not counted. */
  ghost predicate Wanted(s: State, base: nat) {
    exists i: nat :: base <= i < base + BLOCK_SIZE && (s.head <= i || Awaited(s.cons, i))
  }

  /** The block is set in the current index under a key that one of its elements is still wanted for. */
  ghost predicate KeptFor(s: State, x: BlockId)
    requires Wf(s)
  {
    exists i :: 0 <= i < |s.index[Last(s)]|
      && s.keys[s.index[Last(s)][i]] != INVALID_BLOCK_BASE && s.values[s.index[Last(s)][i]] == Some(x)
      && s.keys[s.index[Last(s)][i]] < s.tail && Wanted(s, s.keys[s.index[Last(s)][i]])
  }

  ghost predicate GivenBackBy(c: Cons, x: BlockId) {
    (c.CNull? || c.CFree?) && c.block == x
  }

  /** Between operations of the producer a block is in the pool, or it is in the index for an element that
      is still wanted, or the consumer that took its last element is giving it back. */
  lemma BlockIsKeptOnlyIfWanted(s: State, x: BlockId)
    requires Reachable(s) && s.prod == PIdle && x in s.elements
    ensures Wf(s)
    ensures x in s.free || KeptFor(s, x) || exists t :: 0 <= t < |s.cons| && GivenBackBy(s.cons[t], x)
  {
    hide Inv, Reachable, Wf, Attended, KeptFor;
    var g := ReachableTended(s);
    InvIsWf(s, g);
    assert B.Accounted(x, s.free, g.phys, s.prod, s.cons, g.place);
    if g.place[x].Live? {
      LiveIsWanted(s, g, g.place[x].b);
      LiveIsKept(s, g, g.place[x].b);
    } else if g.place[x].Draining? {
      assert GivenBackBy(s.cons[g.place[x].t], x);
    } else if g.place[x].Dropping? {
      assert GivenBackBy(s.cons[g.place[x].t], x);
    }
  }

  lemma LiveIsWanted(s: State, g: Aux, b: nat)
    requires Inv(s, g) && Tended(s, g) && b in g.phys && g.phys[b] in g.place && !g.place[g.phys[b]].Draining?
    ensures Wanted(s, b * BLOCK_SIZE)
  {
    hide Ringed, Keyed, TailAt, ProdAt, Valued, Placed, Reset, Ranged, Released, Stored, Partial, Constructed, Looking, Sized,
         ProdWf, Of, Unlinking, Awaited;
    C.OfFull(g.done, b);
    assert |Of(g.done, b)| != BLOCK_SIZE;
    var i: nat :| i / BLOCK_SIZE == b && i !in g.done;
    InItsBlock(i, b);
    assert s.head <= i || Awaited(s.cons, i);
    WantedHas(s, b * BLOCK_SIZE, i);
  }

  lemma WantedHas(s: State, base: nat, i: nat)
    requires base <= i < base + BLOCK_SIZE && (s.head <= i || Awaited(s.cons, i))
    ensures Wanted(s, base)
  {
    hide Awaited;
  }

  lemma LiveIsPublished(s: State, g: Aux, b: nat)
    requires Inv(s, g) && b in g.phys
    ensures b * BLOCK_SIZE < s.tail
  {
    ProdFacts(s, g);
    hide Inv, Keyed, Ringed, TailAt, ProdAt, Shape, Partial;
    assert b < Blocks(s.tail);
  }

  lemma InItsBlock(i: nat, b: nat)
    requires i / BLOCK_SIZE == b
    ensures b * BLOCK_SIZE <= i < b * BLOCK_SIZE + BLOCK_SIZE
  {
  }

  lemma LiveIsKept(s: State, g: Aux, b: nat)
    requires Inv(s, g) && Wf(s) && b in g.phys && Wanted(s, b * BLOCK_SIZE)
    ensures KeptFor(s, g.phys[b])
  {
    hide Inv, Wf, Slot, Keyed, Wanted;
    ProdFacts(s, g);
    C.LiveValue(s, g, b);
    LiveInRing(s, g, b);
    LiveIsPublished(s, g, b);
    assert s.keys[EntryOf(s.index, g.ring, b)] == b * BLOCK_SIZE;
    var i := Slot(b, g.ring.c[Last(s)], |s.index[Last(s)]|);
    assert s.index[Last(s)][i] == EntryOf(s.index, g.ring, b);
  }

  /** With nobody at work every block that is not in the pool reaches beyond the head: a queue that has
      been emptied has given back all its blocks but one whose end is beyond the tail. */
  lemma QuietBlocksHoldElements(s: State, x: BlockId)
    requires Reachable(s) && s.prod == PIdle && x in s.elements && x !in s.free
    requires forall t :: 0 <= t < |s.cons| ==> s.cons[t].CIdle? || s.cons[t].CDone?
    ensures Wf(s)
    ensures exists i :: 0 <= i < |s.index[Last(s)]| && s.values[s.index[Last(s)][i]] == Some(x)
              && s.keys[s.index[Last(s)][i]] < s.tail && s.head < s.keys[s.index[Last(s)][i]] + BLOCK_SIZE
  {
    hide Reachable, Wf, Inv, Wanted;
    BlockIsKeptOnlyIfWanted(s, x);
    var g := ReachableTended(s);
    NobodyAwaits(s, g);
    hide KeptFor, Awaited;
    KeptIsUntaken(s, x);
  }

  lemma KeptIsUntaken(s: State, x: BlockId)
    requires Wf(s) && KeptFor(s, x) && forall i: nat :: !Awaited(s.cons, i)
    ensures exists i :: 0 <= i < |s.index[Last(s)]| && s.values[s.index[Last(s)][i]] == Some(x)
              && s.keys[s.index[Last(s)][i]] < s.tail && s.head < s.keys[s.index[Last(s)][i]] + BLOCK_SIZE
  {
    hide Wanted, ProdWf, ConsWf;
    var i :| 0 <= i < |s.index[Last(s)]| && s.keys[s.index[Last(s)][i]] != INVALID_BLOCK_BASE
             && s.values[s.index[Last(s)][i]] == Some(x)
             && s.keys[s.index[Last(s)][i]] < s.tail && Wanted(s, s.keys[s.index[Last(s)][i]]);
    WantedUntaken(s, s.keys[s.index[Last(s)][i]]);
  }

  lemma NobodyAwaits(s: State, g: Aux)
    requires Inv(s, g) && forall t :: 0 <= t < |s.cons| ==> s.cons[t].CIdle? || s.cons[t].CDone?
    ensures forall i: nat :: !Awaited(s.cons, i)
  {
    hide Inv;
    forall t | 0 <= t < |s.cons| && s.cons[t].CDone? ensures s.cons[t].job.from == s.cons[t].job.end { DoneIsEmpty(s, g, t); }
  }

  lemma WantedUntaken(s: State, base: nat)
    requires Wanted(s, base) && forall i: nat :: !Awaited(s.cons, i)
    ensures s.head < base + BLOCK_SIZE
  {
  }
}
