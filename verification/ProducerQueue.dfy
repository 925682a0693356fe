/** The implicit producer's sub-queue as a whole: the counters decide who takes which elements, the
    blocks and their index hold them. Every run refines an unbounded FIFO queue. */
module ProducerQueue {
  import Counting
  import D = DequeueCounters
  import B = BlockQueue
  import P = BlockQueueProof
  import R = BlockQueueRuns

  /** `tailIndex` and `headIndex` are the same atomic variables in both parts. */
  datatype State = State(counters: D.State, blocks: B.State)

  datatype Action =
    | Enqueue(items: seq<B.Elem>)
    | Produce(choice: B.Choice)
    | Dequeue(t: D.Tid, max: nat)
    | Run(t: D.Tid)                 // a step on the counters
    | Consume(t: D.Tid)             // a step on the blocks of the range granted
    | Finish(t: D.Tid)

  /** The producer's next step stores the new tailIndex. */
  ghost predicate Publishes(b: B.State) {
    b.prod.PFill? && b.prod.k == |b.prod.op.items|
  }

  /** Only the parts' own conditions; that a taken range is there for the taking is proved. */
  ghost predicate Enabled(s: State, a: Action) {
    match a
    case Enqueue(items) => B.Enabled(s.blocks, B.Enqueue(items))
    case Produce(c) => B.Enabled(s.blocks, B.Produce(c))
    case Dequeue(t, max) => D.Enabled(s.counters, D.Dequeue(t, max))
    case Run(t) => D.Enabled(s.counters, D.Run(t))
    case Consume(t) => B.Enabled(s.blocks, B.Consume(t))
    case Finish(t) => D.Enabled(s.counters, D.Finish(t)) && B.Enabled(s.blocks, B.Finish(t))
  }

  /** What the step does on the blocks: only storing headIndex is a step of both parts. */
  ghost function NextBlocks(s: State, a: Action): B.State
    requires Enabled(s, a)
  {
    match a
    case Enqueue(items) => B.Next(s.blocks, B.Enqueue(items))
    case Produce(c) => B.Next(s.blocks, B.Produce(c))
    case Run(t) =>
      if s.counters.pc[t].Take? && B.Enabled(s.blocks, B.Grant(t, s.counters.pc[t].actual))
      then B.Next(s.blocks, B.Grant(t, s.counters.pc[t].actual)) else s.blocks
    case Consume(t) => B.Next(s.blocks, B.Consume(t))
    case Finish(t) => B.Next(s.blocks, B.Finish(t))
    case _ => s.blocks
  }

  ghost function NextCounters(s: State, a: Action): D.State
    requires Enabled(s, a)
  {
    match a
    case Produce(_) =>
      if Publishes(s.blocks) then D.Next(s.counters, D.Publish(|s.blocks.prod.op.items|)) else s.counters
    case Dequeue(t, max) => D.Next(s.counters, D.Dequeue(t, max))
    case Run(t) => D.Next(s.counters, D.Run(t))
    case Finish(t) => D.Next(s.counters, D.Finish(t))
    case _ => s.counters
  }

  ghost function Next(s: State, a: Action): State
    requires Enabled(s, a)
  {
    State(NextCounters(s, a), NextBlocks(s, a))
  }

  ghost predicate Init(s: State) {
    D.Init(s.counters) && B.Init(s.blocks) && |s.counters.pc| == |s.blocks.cons|
  }

  ghost predicate Runs(first: State, run: seq<Action>, last: State)
    decreases |run|
  {
    if run == [] then first == last
    else Enabled(first, run[0]) && Runs(Next(first, run[0]), run[1..], last)
  }

  /** Every dequeue of the run asks for an element or more. */
  ghost predicate Careful(run: seq<Action>) {
    forall i :: 0 <= i < |run| ==> Asks(run[i])
  }

  ghost predicate Asks(a: Action) {
    a.Dequeue? ==> a.max > 0
  }

  /** Reached in such a run; ZeroDequeue shows what other runs can come to. */
  ghost predicate Reachable(s: State) {
    exists first, run :: Init(first) && Runs(first, run, s) && Careful(run)
  }

  // ---------------------------------------------------------------- the two parts agree

  ghost predicate SameRange(pc: D.Pc, c: B.Cons) {
    if pc.Granted? then P.HasJob(c) && c.job.first == pc.first && c.job.end == pc.first + pc.count else c.CIdle?
  }

  ghost predicate Aligned(c: D.State, b: B.State) {
    && c.tail == b.tail && c.head == b.head && |c.pc| == |b.cons|
    && forall t :: 0 <= t < |c.pc| ==> SameRange(c.pc[t], b.cons[t])
  }

  datatype Aux = Aux(counters: D.Aux, blocks: P.Aux)

  ghost predicate Inv(s: State, g: Aux) {
    D.Inv(s.counters, g.counters) && P.Inv(s.blocks, g.blocks) && Aligned(s.counters, s.blocks)
  }

  ghost predicate AllAsking(s: State) {
    forall t :: 0 <= t < |s.counters.pc| ==> D.Asking(s.counters.pc[t])
  }

  /** The step does not grant an empty range. */
  ghost predicate GrantsSome(s: State, a: Action)
    requires Enabled(s, a)
  {
    a.Run? && s.counters.pc[a.t].Take? ==> s.counters.pc[a.t].actual > 0
  }

  /** The counters grant only what has been published. */
  lemma TakeIsGrantable(s: State, g: Aux, t: D.Tid)
    requires Inv(s, g) && t < |s.counters.pc| && s.counters.pc[t].Take?
    ensures B.Enabled(s.blocks, B.Grant(t, s.counters.pc[t].actual))
  {
    hide P.Inv, B.Wf, Counting.Sum, D.Settled, D.Bounded;
    P.InvIsWf(s.blocks, g.blocks);
    D.SettledBound(g.counters.log, s.counters.tail);
    Counting.SumAtLeast(s.counters.pc, D.ToTake, t);
    assert D.PcOk(s.counters, g.counters, t, s.counters.pc[t]);
    assert SameRange(s.counters.pc[t], s.blocks.cons[t]);
  }

  ghost function NextAux(s: State, g: Aux, a: Action): Aux
    requires Inv(s, g) && Enabled(s, a)
  {
    hide D.Inv, P.Inv, D.Enabled, B.Enabled, Aligned;
    match a
    case Enqueue(items) => g
    case Produce(c) => g.(blocks := R.NextAux(s.blocks, g.blocks, B.Produce(c)))
    case Dequeue(t, max) => g.(counters := D.NextAux(s.counters, g.counters, D.Dequeue(t, max)))
    case Run(t) => g.(counters := D.NextAux(s.counters, g.counters, D.Run(t)))
    case Consume(t) => g.(blocks := R.NextAux(s.blocks, g.blocks, B.Consume(t)))
    case Finish(t) => g
  }

  lemma CountersKept(s: State, g: Aux, a: Action)
    requires Inv(s, g) && Enabled(s, a)
    ensures D.Inv(NextCounters(s, a), NextAux(s, g, a).counters)
  {
    hide D.Inv, P.Inv, Aligned, D.NextAux, R.NextAux, D.Next, B.Next, D.Enabled, B.Enabled;
    match a
    case Produce(_) =>
      if Publishes(s.blocks) { Publish(s, g, |s.blocks.prod.op.items|); }
    case Dequeue(t, max) => D.StepKeepsInv(s.counters, g.counters, D.Dequeue(t, max));
    case Run(t) => D.StepKeepsInv(s.counters, g.counters, D.Run(t));
    case Finish(t) => D.StepKeepsInv(s.counters, g.counters, D.Finish(t)); FinishAux(s, g, t);
    case _ =>
  }

  lemma Publish(s: State, g: Aux, more: nat)
    requires D.Inv(s.counters, g.counters)
    ensures D.Enabled(s.counters, D.Publish(more)) && D.Inv(D.Next(s.counters, D.Publish(more)), g.counters)
  {
    hide D.Inv;
    D.StepKeepsInv(s.counters, g.counters, D.Publish(more));
  }

  lemma FinishAux(s: State, g: Aux, t: D.Tid)
    requires D.Enabled(s.counters, D.Finish(t))
    ensures D.NextAux(s.counters, g.counters, D.Finish(t)) == g.counters
  {
  }

  lemma BlocksKept(s: State, g: Aux, a: Action)
    requires Inv(s, g) && Enabled(s, a) && GrantsSome(s, a)
    ensures P.Inv(NextBlocks(s, a), NextAux(s, g, a).blocks)
  {
    hide D.Inv, P.Inv, Aligned, D.NextAux, D.Next, B.Next, B.Enabled;
    match a
    case Enqueue(items) => R.StepKeepsInv(s.blocks, g.blocks, B.Enqueue(items));
    case Produce(c) => R.StepKeepsInv(s.blocks, g.blocks, B.Produce(c));
    case Run(t) =>
      if s.counters.pc[t].Take? && B.Enabled(s.blocks, B.Grant(t, s.counters.pc[t].actual)) {
        R.StepKeepsInv(s.blocks, g.blocks, B.Grant(t, s.counters.pc[t].actual));
      }
    case Consume(t) => R.StepKeepsInv(s.blocks, g.blocks, B.Consume(t));
    case Finish(t) => R.StepKeepsInv(s.blocks, g.blocks, B.Finish(t));
    case _ =>
  }

  lemma ProduceIs(b: B.State, c: B.Choice)
    requires B.Enabled(b, B.Produce(c))
    ensures var b' := B.Next(b, B.Produce(c));
            && b'.head == b.head && b'.cons == b.cons
            && b'.tail == b.tail + (if Publishes(b) then |b.prod.op.items| else 0)
            && b'.enq == b.enq + (if Publishes(b) then b.prod.op.items else [])
  {
    hide B.ConsWf, B.SlotFor, B.FillBlock;
    assert B.ProdWf(b.tail, b.elements.Keys, |b.keys|, b.prod);
  }

  /** What a consumer's step leaves alone. */
  ghost predicate Frame(b: B.State, b': B.State, t: D.Tid)
    requires t < |b.cons| && P.HasJob(b.cons[t])
  {
    && b'.head == b.head && b'.tail == b.tail && b'.enq == b.enq && |b'.cons| == |b.cons|
    && (forall u :: 0 <= u < |b.cons| && u != t ==> b'.cons[u] == b.cons[u])
    && (b'.cons[t].Crashed? || (P.HasJob(b'.cons[t]) && b'.cons[t].job.first == b.cons[t].job.first
                                && b'.cons[t].job.end == b.cons[t].job.end))
  }

  lemma LookFrame(b: B.State, t: D.Tid)
    requires B.Enabled(b, B.Consume(t))
    requires b.cons[t].CIndex? || b.cons[t].CTail? || b.cons[t].CKey? || b.cons[t].CValue?
    ensures Frame(b, B.ConsStep(b, t), t)
  {
    hide B.SlotFor, B.Wf, B.Stop;
  }

  lemma WorkFrame(b: B.State, t: D.Tid)
    requires B.Enabled(b, B.Consume(t)) && (b.cons[t].CRead? || b.cons[t].CCount?)
    ensures Frame(b, B.ConsStep(b, t), t)
  {
    hide B.SlotFor, B.Wf, B.Stop;
  }

  lemma ReleaseFrame(b: B.State, t: D.Tid)
    requires B.Enabled(b, B.Consume(t)) && (b.cons[t].CNull? || b.cons[t].CFree?)
    ensures Frame(b, B.ConsStep(b, t), t)
  {
    hide B.SlotFor, B.Wf, B.Stop;
  }

  lemma ConsumeFrame(b: B.State, t: D.Tid)
    requires B.Enabled(b, B.Consume(t))
    ensures Frame(b, B.ConsStep(b, t), t)
  {
    hide B.Wf, B.ConsStep, Frame;
    match b.cons[t]
    case CRead(_, _, _, _) => WorkFrame(b, t);
    case CCount(_, _, _, _) => WorkFrame(b, t);
    case CNull(_, _, _, _) => ReleaseFrame(b, t);
    case CFree(_, _, _, _) => ReleaseFrame(b, t);
    case _ => LookFrame(b, t);
  }

  /** A consumer's step touches no counter and no other consumer, and keeps its range. */
  lemma ConsumeIs(b: B.State, t: D.Tid, g: P.Aux)
    requires B.Enabled(b, B.Consume(t)) && P.Inv(b, g)
    ensures var b' := B.Next(b, B.Consume(t));
            && b'.head == b.head && b'.tail == b.tail && b'.enq == b.enq && |b'.cons| == |b.cons|
            && (forall u :: 0 <= u < |b.cons| && u != t ==> b'.cons[u] == b.cons[u])
            && P.HasJob(b'.cons[t]) && b'.cons[t].job.first == b.cons[t].job.first && b'.cons[t].job.end == b.cons[t].job.end
  {
    hide P.Inv, B.Wf, B.ConsStep, R.NextAux;
    R.StepKeepsInv(b, g, B.Consume(t));
    InvHasNoCrash(B.Next(b, B.Consume(t)), R.NextAux(b, g, B.Consume(t)));
    ConsumeFrame(b, t);
  }

  lemma InvHasNoCrash(b: B.State, g: P.Aux)
    requires P.Inv(b, g)
    ensures forall t :: 0 <= t < |b.cons| ==> !b.cons[t].Crashed?
  {
    hide P.HeaderOk;
    forall t | 0 <= t < |b.cons| ensures !b.cons[t].Crashed? {
      assert P.LookupOk(b.index, b.keys, g.ring, g.phys, b.cons[t]);
    }
  }

  lemma AlignedKept(s: State, g: Aux, a: Action)
    requires Inv(s, g) && Enabled(s, a)
    ensures Aligned(NextCounters(s, a), NextBlocks(s, a))
  {
    hide D.Inv, P.Inv, B.Wf, B.ProdStep, B.ConsStep;
    match a
    case Enqueue(items) =>
    case Produce(c) => ProduceIs(s.blocks, c); hide B.Next;
    case Dequeue(t, max) =>
    case Run(t) =>
      if s.counters.pc[t].Take? { TakeIsGrantable(s, g, t); }
    case Consume(t) => ConsumeIs(s.blocks, t, g.blocks); assert SameRange(s.counters.pc[t], s.blocks.cons[t]); hide B.Next;
    case Finish(t) =>
  }

  lemma StepKeepsInv(s: State, g: Aux, a: Action)
    requires Inv(s, g) && Enabled(s, a) && GrantsSome(s, a)
    ensures Inv(Next(s, a), NextAux(s, g, a))
  {
    hide D.Inv, P.Inv, Aligned, NextCounters, NextBlocks, NextAux, Enabled;
    CountersKept(s, g, a);
    BlocksKept(s, g, a);
    AlignedKept(s, g, a);
  }

  lemma AskingKept(s: State, a: Action)
    requires Enabled(s, a) && Asks(a) && AllAsking(s)
    ensures AllAsking(Next(s, a)) && GrantsSome(s, a)
  {
    hide B.Enabled, NextBlocks, D.Next;
    match a
    case Produce(_) => if Publishes(s.blocks) { D.AskingKept(s.counters, D.Publish(|s.blocks.prod.op.items|)); }
    case Dequeue(t, max) => D.AskingKept(s.counters, D.Dequeue(t, max));
    case Run(t) => D.AskingKept(s.counters, D.Run(t)); assert D.Asking(s.counters.pc[t]);
    case Finish(t) => D.AskingKept(s.counters, D.Finish(t));
    case _ =>
  }

  lemma {:induction false} RunsKeepInv(s: State, g: Aux, run: seq<Action>, s': State) returns (g': Aux)
    requires Inv(s, g) && AllAsking(s) && Runs(s, run, s') && Careful(run)
    ensures Inv(s', g') && AllAsking(s')
    decreases |run|
  {
    hide Inv, Enabled, AllAsking, GrantsSome;
    if run == [] {
      g' := g;
    } else {
      assert Asks(run[0]) && Careful(run[1..]);
      AskingKept(s, run[0]);
      StepKeepsInv(s, g, run[0]);
      g' := RunsKeepInv(Next(s, run[0]), NextAux(s, g, run[0]), run[1..], s');
    }
  }

  lemma InitHasInv(s: State)
    requires Init(s)
    ensures Inv(s, Aux(D.Aux([], map[]), R.InitAux(s.blocks))) && AllAsking(s)
  {
    D.InitHasInv(s.counters);
    R.InitHasInv(s.blocks);
    hide D.Inv, P.Inv;
  }

  lemma ReachableInv(s: State) returns (g: Aux)
    requires Reachable(s)
    ensures Inv(s, g) && AllAsking(s)
  {
    hide Inv, Init, AllAsking;
    var first, run :| Init(first) && Runs(first, run, s) && Careful(run);
    InitHasInv(first);
    g := RunsKeepInv(first, Aux(D.Aux([], map[]), R.InitAux(first.blocks)), run, s);
  }

  // ---------------------------------------------------------------- refinement of a FIFO queue

  /** The queue a caller sees. */
  ghost function Queue(s: State): seq<B.Elem>
    requires s.counters.head <= |s.blocks.enq|
  {
    s.blocks.enq[s.counters.head..]
  }

  /** What the consumer has been granted. */
  ghost function Promised(s: State, t: D.Tid): seq<B.Elem>
    requires t < |s.counters.pc| && s.counters.pc[t].Granted?
  {
    var first, end := s.counters.pc[t].first, s.counters.pc[t].first + s.counters.pc[t].count;
    if end <= |s.blocks.enq| then s.blocks.enq[first..end] else []
  }

  lemma QueueHolds(s: State, g: Aux)
    requires Inv(s, g)
    ensures s.counters.head <= |s.blocks.enq| == s.blocks.tail
    ensures forall t :: 0 <= t < |s.counters.pc| && s.counters.pc[t].Granted? ==>
              s.counters.pc[t].first + s.counters.pc[t].count <= s.counters.head
  {
    hide P.Inv, Counting.Sum;
    BlockBounds(s.blocks, g.blocks);
    forall t | 0 <= t < |s.counters.pc| && s.counters.pc[t].Granted?
      ensures s.counters.pc[t].first + s.counters.pc[t].count <= s.counters.head
    {
      assert D.PcOk(s.counters, g.counters, t, s.counters.pc[t]);
    }
  }

  lemma BlockBounds(b: B.State, g: P.Aux)
    requires P.Inv(b, g)
    ensures b.head <= |b.enq| == b.tail
  {
  }

  /** Every atomic step of every thread either leaves the queue alone, or appends all the items of
      an enqueue at its back, or takes the elements at its front, which that consumer is promised. */
  lemma StepRefinesFifo(s: State, a: Action)
    requires Reachable(s) && Enabled(s, a)
    ensures s.counters.head <= |s.blocks.enq| && Next(s, a).counters.head <= |Next(s, a).blocks.enq|
    ensures if a.Produce? && Publishes(s.blocks) then Queue(Next(s, a)) == Queue(s) + s.blocks.prod.op.items
            else if a.Run? && s.counters.pc[a.t].Take? then
              var n := s.counters.pc[a.t].actual;
              && n <= |Queue(s)| && Queue(Next(s, a)) == Queue(s)[n..]
              && Next(s, a).counters.pc[a.t].Granted? && Promised(Next(s, a), a.t) == Queue(s)[..n]
            else Queue(Next(s, a)) == Queue(s)
  {
    hide Inv, Reachable, B.Wf, B.ProdStep, B.ConsStep;
    var g := ReachableInv(s);
    if a.Run? { assert D.Asking(s.counters.pc[a.t]); }
    StepKeepsInv(s, g, a);
    QueueHolds(s, g);
    QueueHolds(Next(s, a), NextAux(s, g, a));
    hide NextAux;
    if a.Produce? { ProduceIs(s.blocks, a.choice); }
    if a.Consume? { ConsumeOnBlocks(s, g, a.t); }
    if a.Run? && s.counters.pc[a.t].Take? { TakeIsGrantable(s, g, a.t); }
  }

  lemma ConsumeOnBlocks(s: State, g: Aux, t: D.Tid)
    requires Inv(s, g) && B.Enabled(s.blocks, B.Consume(t))
    ensures B.Next(s.blocks, B.Consume(t)).enq == s.blocks.enq
  {
    hide P.Inv, D.Inv, B.Wf, B.ConsStep;
    ConsumeIs(s.blocks, t, g.blocks);
  }

  /** A promise is kept until its consumer is done: nothing any thread does changes it. */
  lemma PromiseIsStable(s: State, a: Action, t: D.Tid)
    requires Reachable(s) && Enabled(s, a) && t < |s.counters.pc| && s.counters.pc[t].Granted? && a != Finish(t)
    ensures t < |Next(s, a).counters.pc| && Next(s, a).counters.pc[t] == s.counters.pc[t]
    ensures Promised(Next(s, a), t) == Promised(s, t)
  {
    hide Inv, Reachable, B.Wf, B.ProdStep, B.ConsStep;
    var g := ReachableInv(s);
    QueueHolds(s, g);
    hide B.Enabled;
    EnqGrows(s, g, a);
    var pc := s.counters.pc[t];
    assert Next(s, a).blocks.enq[pc.first..pc.first + pc.count] == s.blocks.enq[pc.first..pc.first + pc.count];
  }

  lemma EnqGrows(s: State, g: Aux, a: Action)
    requires Inv(s, g) && Enabled(s, a)
    ensures s.blocks.enq <= Next(s, a).blocks.enq
  {
    hide Inv, B.Wf, B.ProdStep, B.ConsStep;
    if a.Produce? { ProduceIs(s.blocks, a.choice); }
    if a.Consume? { ConsumeOnBlocks(s, g, a.t); }
  }

  /** And it is what the consumer hands to its caller: exactly the promised elements, in order. */
  lemma DeliveredAsPromised(s: State, t: D.Tid)
    requires Reachable(s) && t < |s.blocks.cons| && s.blocks.cons[t].CDone?
    ensures t < |s.counters.pc| && s.counters.pc[t].Granted?
    ensures s.blocks.cons[t].job.out == Promised(s, t) && |s.blocks.cons[t].job.out| == s.counters.pc[t].count
  {
    hide P.Inv, D.Inv, Reachable;
    var g := ReachableInv(s);
    assert SameRange(s.counters.pc[t], s.blocks.cons[t]);
    R.OutIs(s.blocks, g.blocks, t);
    DoneAtEnd(s.blocks, g.blocks, t);
  }

  lemma DoneAtEnd(b: B.State, g: P.Aux, t: D.Tid)
    requires P.Inv(b, g) && t < |b.cons| && b.cons[t].CDone?
    ensures b.cons[t].job.at == b.cons[t].job.end
  {
    hide P.HeaderOk;
    assert P.LookupOk(b.index, b.keys, g.ring, g.phys, b.cons[t]);
  }
}
