/** Operations on the sub-queue get done: an enqueue that is given memory appends its items, and the
    producer and every consumer come to the end of what they are doing, whatever the others do. */
module BlockQueueProgress {
  import opened BlockQueue
  import opened BlockQueueProof
  import C = BlockQueueConsumer
  import opened BlockQueueProducer
  import opened BlockQueueRuns

  // ---------------------------------------------------------------- an enqueue succeeds

  ghost predicate Undoing(p: Prod) {
    p.PRewind? || p.PNull? || p.PUndo? || p.PUndoRewind? || p.PFree?
  }

  /** Only an allocation that fails turns an operation back. */
  lemma GoesOn(s: State, c: Choice)
    requires Reachable(s) && Wf(s) && ProdEnabled(s, c) && c.ok && !Undoing(s.prod)
    ensures !Undoing(ProdStep(s, c).prod)
  {
    if s.prod.PCheck? { HeadIsBehindNewBlock(s); }
    hide Reachable, ConsWf, OpWf, SlotFor, FillBlock, Needed;
  }

  /** Every allocation of the run succeeds. */
  ghost predicate GivenMemory(run: seq<Action>) {
    forall i :: 0 <= i < |run| ==> Supplied(run[i])
  }

  ghost predicate Supplied(a: Action) {
    a.Produce? ==> a.choice.ok
  }

  lemma ReachableNext(s: State, a: Action)
    requires Reachable(s) && Enabled(s, a) && Asks(a)
    ensures Reachable(Next(s, a))
  {
    hide Init, Enabled, Next;
    var first, run :| Init(first) && Runs(first, run, s) && Careful(run);
    RunsOn(first, run, s, a);
    assert Careful(run + [a]);
  }

  lemma {:induction false} RunsOn(first: State, run: seq<Action>, s: State, a: Action)
    requires Runs(first, run, s) && Enabled(s, a)
    ensures Runs(first, run + [a], Next(s, a))
    decreases |run|
  {
    hide Enabled, Next;
    if run == [] {
      assert (run + [a])[1..] == [];
      assert Runs(Next(s, a), [], Next(s, a));
    } else {
      RunsOn(Next(first, run[0]), run[1..], s, a);
      assert (run + [a])[1..] == run[1..] + [a];
    }
  }

  lemma ProdLeftAlone(s: State, a: Action)
    requires Enabled(s, a) && !a.Produce? && s.prod != PIdle
    ensures Next(s, a).prod == s.prod && Next(s, a).tail == s.tail
  {
    hide Wf;
  }

  lemma ProducesWf(s: State, c: Choice)
    requires Enabled(s, Produce(c))
    ensures Wf(s) && ProdEnabled(s, c) && Next(s, Produce(c)) == ProdStep(s, c)
  {
    hide Wf, ProdStep;
  }

  lemma DoneForward(s: State, c: Choice, before: State, items: seq<Elem>)
    requires Wf(s) && ProdEnabled(s, c) && During(s, before, items) && !Undoing(s.prod)
    ensures During(ProdStep(s, c), before, items) || Appended(ProdStep(s, c), before, items)
  {
    hide ConsWf, OpWf, SlotFor, FillBlock;
  }

  lemma {:induction false} GivenMemoryAppends(s: State, run: seq<Action>, s': State, before: State, items: seq<Elem>)
    requires Reachable(s) && Operation(s, run, s') && Careful(run) && GivenMemory(run)
    requires Appended(s, before, items) || (During(s, before, items) && !Undoing(s.prod))
    ensures Appended(s', before, items)
    decreases |run|
  {
    hide Reachable, Enabled, Undoing;
    if s.prod != PIdle {
      var a := run[0];
      assert Asks(a) && Supplied(a) && Careful(run[1..]) && GivenMemory(run[1..]);
      ReachableNext(s, a);
      if a.Produce? {
        ProducesWf(s, a.choice);
        DoneForward(s, a.choice, before, items);
        GoesOn(s, a.choice);
      } else {
        ProdLeftAlone(s, a);
        DuringStep(s, a, before, items);
      }
      hide During, Appended, Next;
      GivenMemoryAppends(Next(s, a), run[1..], s', before, items);
    }
  }

  /** An enqueue none of whose allocations fails appends its items, whatever consumers do meanwhile. */
  lemma EnqueueSucceeds(s: State, items: seq<Elem>, run: seq<Action>, s': State)
    requires Reachable(s) && Enabled(s, Enqueue(items)) && Operation(Next(s, Enqueue(items)), run, s')
    requires Careful(run) && GivenMemory(run)
    ensures Appended(s', s, items)
  {
    hide Reachable, Wf;
    ReachableNext(s, Enqueue(items));
    GivenMemoryAppends(Next(s, Enqueue(items)), run, s', s, items);
  }

  // ---------------------------------------------------------------- the producer gets done

  /** The producer never takes more blocks than it needs. */
  ghost predicate OnCourse(tail: nat, p: Prod) {
    match p
    case PIdle => true
    case PCheck(op) => |op.got| <= Needed(tail, op)
    case PFill(op, k) => k <= |op.items|
    case PUndo(op, i) => i <= |op.got| <= Needed(tail, op)
    case PUndoRewind(op, i) => i < |op.got| <= Needed(tail, op)
    case PFree(op, i) => i <= |op.got| <= Needed(tail, op)
    case _ => |p.op.got| < Needed(tail, p.op)
  }

  /** A bound on the steps the producer still takes. */
  ghost function Work(tail: nat, p: Prod): int {
    if p.PIdle? then 0 else
      var got, need := |p.op.got|, Needed(tail, p.op);
      var ahead := |p.op.items| + 3 * need + 10 + 6 * (need - got);
      match p
      case PCheck(_) => ahead + 6
      case PGrow(_) => ahead + 5
      case PKey(_, _) => ahead + 4
      case PTail(_, _) => ahead + 3
      case PBlock(_, _) => ahead + 2
      case PValue(_, _, _) => ahead + 1
      case PRewind(_, _) => 3 * got + 5
      case PNull(_, _) => 3 * got + 4
      case PUndo(_, i) => 2 * (got - i) + got + 3
      case PUndoRewind(_, i) => 2 * (got - i) + got + 2
      case PFree(_, i) => got - i + 1
      case PFill(_, k) => |p.op.items| - k + 1
  }

  ghost predicate StepsOn(s: State, s': State) {
    OnCourse(s'.tail, s'.prod) && 0 <= Work(s'.tail, s'.prod) < Work(s.tail, s.prod)
  }

  lemma InsertStepsOn(s: State, c: Choice)
    requires Wf(s) && ProdEnabled(s, c) && OnCourse(s.tail, s.prod)
    requires s.prod.PCheck? || s.prod.PGrow? || s.prod.PKey? || s.prod.PTail? || s.prod.PBlock? || s.prod.PValue?
    ensures StepsOn(s, ProdStep(s, c))
  {
    hide ConsWf, OpWf, Blocks;
  }

  lemma EndStepsOn(s: State, c: Choice)
    requires Wf(s) && ProdEnabled(s, c) && OnCourse(s.tail, s.prod) && (Undoing(s.prod) || s.prod.PFill?)
    ensures StepsOn(s, ProdStep(s, c))
  {
    hide ConsWf, OpWf, SlotFor, FillBlock, Needed, Blocks;
  }

  /** Each of its steps brings the producer closer to the end of its operation. */
  lemma ProducerStepsOn(s: State, c: Choice)
    requires Wf(s) && ProdEnabled(s, c) && OnCourse(s.tail, s.prod)
    ensures StepsOn(s, ProdStep(s, c))
  {
    IdleStays(s, c);
    hide Wf, ProdEnabled, ProdStep, OnCourse, StepsOn;
    if Undoing(s.prod) || s.prod.PFill? { EndStepsOn(s, c); } else { InsertStepsOn(s, c); }
  }

  lemma OnCourseKept(s: State, a: Action)
    requires Enabled(s, a) && OnCourse(s.tail, s.prod)
    ensures OnCourse(Next(s, a).tail, Next(s, a).prod)
  {
    if a.Produce? {
      ProducesWf(s, a.choice);
      ProducerStepsOn(s, a.choice);
    } else if s.prod != PIdle {
      ProdLeftAlone(s, a);
    } else {
      hide Wf;
    }
  }

  lemma {:induction false} RunsStayOnCourse(s: State, run: seq<Action>, s': State)
    requires Runs(s, run, s') && OnCourse(s.tail, s.prod)
    ensures OnCourse(s'.tail, s'.prod)
    decreases |run|
  {
    hide Enabled, OnCourse;
    if run != [] {
      OnCourseKept(s, run[0]);
      RunsStayOnCourse(Next(s, run[0]), run[1..], s');
    }
  }

  lemma ReachableOnCourse(s: State)
    requires Reachable(s)
    ensures OnCourse(s.tail, s.prod)
  {
    var first, run :| Init(first) && Runs(first, run, s) && Careful(run);
    assert first.prod == PIdle;
    hide Init;
    RunsStayOnCourse(first, run, s);
  }

  /** An operation under way can go on, with memory or without; each step it takes lowers a bound on
      the steps left, and no step of a consumer raises it: so it comes to its end. */
  lemma ProducerFinishes(s: State, ok: bool, block: BlockId)
    requires Reachable(s) && s.prod != PIdle && block !in s.elements
    ensures exists c: Choice :: c.ok == ok && Enabled(s, Produce(c))
    ensures forall c: Choice :: Enabled(s, Produce(c)) ==>
              0 <= Work(Next(s, Produce(c)).tail, Next(s, Produce(c)).prod) < Work(s.tail, s.prod)
    ensures forall a: Action :: Enabled(s, a) && !a.Produce? ==> Work(Next(s, a).tail, Next(s, a).prod) == Work(s.tail, s.prod)
  {
    hide Inv, Reachable, Work, OnCourse;
    var g := ReachableInv(s);
    InvIsWf(s, g);
    ReachableOnCourse(s);
    CanProduce(s, ok, block);
    hide Wf;
    forall c: Choice | Enabled(s, Produce(c))
      ensures 0 <= Work(Next(s, Produce(c)).tail, Next(s, Produce(c)).prod) < Work(s.tail, s.prod)
    {
      ProducesWf(s, c);
      ProducerStepsOn(s, c);
    }
    forall a: Action | Enabled(s, a) && !a.Produce?
      ensures Work(Next(s, a).tail, Next(s, a).prod) == Work(s.tail, s.prod)
    {
      ProdLeftAlone(s, a);
    }
  }

  lemma CanProduce(s: State, ok: bool, block: BlockId)
    requires Wf(s) && s.prod != PIdle && block !in s.elements
    ensures exists c: Choice :: c.ok == ok && Enabled(s, Produce(c))
  {
    var c := Choice(ok, block, seq(|s.index[|s.index| - 1]|, _ => None));
    assert ProdEnabled(s, c);
    hide Wf;
    assert Enabled(s, Produce(c));
  }

  // ---------------------------------------------------------------- a consumer gets done

  ghost function Stage(c: Cons): nat {
    match c
    case CIndex(_) => 12
    case CTail(_, _) => 11
    case CKey(_, _, _) => 10
    case CNull(_, _, _, _) => 9
    case CFree(_, _, _, _) => 8
    case CValue(_, _, _) => 7
    case CRead(_, _, _, _) => 6
    case CCount(_, _, _, _) => 5
    case _ => 0
  }

  /** What is left of the range: to be counted, then by the stage, then to be read. */
  ghost predicate Closer(c: Cons, c': Cons)
    requires HasJob(c) && HasJob(c')
  {
    var left, left' := c.job.end - c.job.from, c'.job.end - c'.job.from;
    || 0 <= left' < left
    || (left' == left && (Stage(c') < Stage(c) || (Stage(c') == Stage(c) && 0 <= c'.job.end - c'.job.at < c.job.end - c.job.at)))
  }

  lemma LookCloser(s: State, g: Aux, t: Tid)
    requires Inv(s, g) && Wf(s) && t < |s.cons|
    requires s.cons[t].CIndex? || s.cons[t].CTail? || s.cons[t].CKey? || s.cons[t].CValue?
    ensures var c' := ConsStep(s, t).cons[t]; !c'.Crashed? ==> HasJob(c') && Closer(s.cons[t], c')
  {
    hide Inv, SlotFor, Wf;
    WfShape(s, t);
  }

  lemma WfShape(s: State, t: Tid)
    requires Wf(s) && t < |s.cons|
    ensures 0 < |s.index| == |s.tails| && |s.values| == |s.keys|
    ensures ConsWf(s.index, s.elements.Keys, s.cons[t]) && s.elements.Keys == s.dequeued.Keys
    ensures forall h :: 0 <= h < |s.index| ==> |s.index[h]| > 0 && s.tails[h] < |s.index[h]|
    ensures forall h, i :: 0 <= h < |s.index| && 0 <= i < |s.index[h]| ==> s.index[h][i] < |s.keys|
  {
    hide ProdWf;
  }

  lemma ReadCloser(s: State, g: Aux, t: Tid)
    requires Inv(s, g) && Wf(s) && t < |s.cons| && s.cons[t].CRead?
    ensures var c' := ConsStep(s, t).cons[t]; !c'.Crashed? ==> HasJob(c') && Closer(s.cons[t], c')
  {
    hide Inv, Wf;
    assert LookupOk(s.index, s.keys, g.ring, g.phys, s.cons[t]) && JobOk(s.cons[t].job, s.head) by { C.JobFacts(s, g, t); }
    WfShape(s, t);
  }

  lemma CountCloser(s: State, g: Aux, t: Tid)
    requires Inv(s, g) && Wf(s) && t < |s.cons| && s.cons[t].CCount?
    ensures var c' := ConsStep(s, t).cons[t]; HasJob(c') && Closer(s.cons[t], c')
  {
    C.CountFacts(s, g, t);
    hide Inv, Shape, LookupOk, JobOk;
  }

  lemma ReleaseCloser(s: State, g: Aux, t: Tid)
    requires Inv(s, g) && Wf(s) && t < |s.cons| && (s.cons[t].CNull? || s.cons[t].CFree?)
    ensures var c' := ConsStep(s, t).cons[t]; HasJob(c') && Closer(s.cons[t], c')
  {
    hide Inv;
  }

  lemma ConsumerCloser(s: State, g: Aux, t: Tid)
    requires Inv(s, g) && Wf(s) && t < |s.cons| && !s.cons[t].CIdle? && !s.cons[t].CDone? && !s.cons[t].Crashed?
    ensures HasJob(s.cons[t])
    ensures var c' := ConsStep(s, t).cons[t]; !c'.Crashed? ==> HasJob(c') && Closer(s.cons[t], c')
  {
    hide Inv, Wf, ConsStep, Closer;
    match s.cons[t]
    case CRead(_, _, _, _) => ReadCloser(s, g, t);
    case CCount(_, _, _, _) => CountCloser(s, g, t);
    case CNull(_, _, _, _) => ReleaseCloser(s, g, t);
    case CFree(_, _, _, _) => ReleaseCloser(s, g, t);
    case _ => LookCloser(s, g, t);
  }

  lemma CanConsume(s: State, t: Tid)
    requires Wf(s) && t < |s.cons| && !s.cons[t].CIdle? && !s.cons[t].CDone? && !s.cons[t].Crashed?
    ensures Enabled(s, Consume(t)) && Asks(Consume(t))
  {
    hide Wf;
  }

  /** A consumer at work on its range can always go on, each of its steps brings it closer to the end of
      the range, and no step of another thread sets it back: so it delivers its range. */
  lemma ConsumerFinishes(s: State, t: Tid)
    requires Reachable(s) && t < |s.cons| && !s.cons[t].CIdle? && !s.cons[t].CDone?
    ensures HasJob(s.cons[t]) && Enabled(s, Consume(t)) && |Next(s, Consume(t)).cons| == |s.cons|
    ensures HasJob(Next(s, Consume(t)).cons[t]) && Closer(s.cons[t], Next(s, Consume(t)).cons[t])
    ensures forall a: Action :: Enabled(s, a) && a != Consume(t) ==> t < |Next(s, a).cons| && Next(s, a).cons[t] == s.cons[t]
  {
    hide Inv, Reachable, Closer, Wf, ConsStep;
    var g := ReachableInv(s);
    InvIsWf(s, g);
    NoConsumerCrashes(s, t);
    CanConsume(s, t);
    hide Enabled, Next;
    ConsumesOne(s, t);
    ConsumerCloser(s, g, t);
    ReachableNext(s, Consume(t));
    NoConsumerCrashes(Next(s, Consume(t)), t);
    forall a: Action | Enabled(s, a) && a != Consume(t)
      ensures t < |Next(s, a).cons| && Next(s, a).cons[t] == s.cons[t]
    {
      LeavesConsumer(s, a, t);
    }
  }

  lemma ConsumesOne(s: State, t: Tid)
    requires Enabled(s, Consume(t))
    ensures Next(s, Consume(t)) == ConsStep(s, t) && |ConsStep(s, t).cons| == |s.cons|
  {
    hide Wf, SlotFor, Stop;
  }

  lemma LeavesConsumer(s: State, a: Action, t: Tid)
    requires Enabled(s, a) && a != Consume(t) && t < |s.cons| && !s.cons[t].CIdle? && !s.cons[t].CDone?
    ensures t < |Next(s, a).cons| && Next(s, a).cons[t] == s.cons[t]
  {
    hide Wf, ProdStep, ConsStep, ProdEnabled;
    match a
    case Produce(c) => ProducerLeavesConsumers(s, c);
    case Consume(u) => LeavesOtherConsumers(s, u);
    case _ =>
  }

  lemma ProducerLeavesConsumers(s: State, c: Choice)
    requires Wf(s) && ProdEnabled(s, c)
    ensures ProdStep(s, c).cons == s.cons
  {
    hide ConsWf, OpWf, SlotFor, FillBlock, Needed;
  }

  lemma LeavesOtherConsumers(s: State, u: Tid)
    requires Wf(s) && u < |s.cons|
    ensures |ConsStep(s, u).cons| == |s.cons|
    ensures forall t :: 0 <= t < |s.cons| && t != u ==> ConsStep(s, u).cons[t] == s.cons[t]
  {
    WfShape(s, u);
    hide Wf, SlotFor, Stop, Onward;
  }
}
