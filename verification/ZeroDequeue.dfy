/** Bulk dequeues that ask for nothing. The counters may grant such a dequeue the empty range at the
    head, whose block need not exist: the consumer then looks up a block that is in no entry. So the
    blocks are right in all runs exactly if no dequeue asks for zero elements. */
module ZeroDequeue {
  import C = Counting
  import D = DequeueCounters
  import B = BlockQueue
  import P = BlockQueueProof
  import R = BlockQueueRuns
  import opened ProducerQueue

  /** Every dequeue of the run asks for one of the allowed numbers of elements. */
  ghost predicate Within(run: seq<Action>, allowed: iset<nat>) {
    forall i :: 0 <= i < |run| ==> Allowed(run[i], allowed)
  }

  ghost predicate Allowed(a: Action, allowed: iset<nat>) {
    a.Dequeue? ==> a.max in allowed
  }

  /** No consumer ever follows a null block or reads an element that is not there. */
  ghost predicate Safe(allowed: iset<nat>) {
    forall first, run, s, t :: Init(first) && Runs(first, run, s) && Within(run, allowed) && 0 <= t < |s.blocks.cons| ==>
      !s.blocks.cons[t].Crashed?
  }

  // ---------------------------------------------------------------- runs, step by step

  ghost predicate Leads(s: State, s': State, allowed: iset<nat>) {
    exists run :: Runs(s, run, s') && Within(run, allowed)
  }

  lemma LeadsNowhere(s: State, allowed: iset<nat>)
    ensures Leads(s, s, allowed)
  {
    assert Runs(s, [], s) && Within([], allowed);
  }

  lemma LeadsByStep(s: State, a: Action, allowed: iset<nat>)
    requires Enabled(s, a) && Allowed(a, allowed)
    ensures Leads(s, Next(s, a), allowed)
  {
    hide Enabled, Next;
    var run := [a];
    assert run[1..] == [];
    assert Runs(Next(s, a), run[1..], Next(s, a));
    assert Runs(s, run, Next(s, a)) && Within(run, allowed);
  }

  lemma {:induction false} RunsJoin(s: State, run: seq<Action>, mid: State, more: seq<Action>, s': State)
    requires Runs(s, run, mid) && Runs(mid, more, s')
    ensures Runs(s, run + more, s')
    decreases |run|
  {
    hide Enabled, Next;
    if run == [] {
      assert run + more == more;
    } else {
      RunsJoin(Next(s, run[0]), run[1..], mid, more, s');
      assert (run + more)[1..] == run[1..] + more;
    }
  }

  lemma LeadsOn(s: State, mid: State, s': State, allowed: iset<nat>)
    requires Leads(s, mid, allowed) && Leads(mid, s', allowed)
    ensures Leads(s, s', allowed)
  {
    hide Runs;
    var run :| Runs(s, run, mid) && Within(run, allowed);
    var more :| Runs(mid, more, s') && Within(more, allowed);
    RunsJoin(s, run, mid, more, s');
    assert Within(run + more, allowed);
  }

  /** One step more, and what is kept as long as no empty range is granted. */
  lemma Step(s: State, s1: State, g: Aux, a: Action, allowed: iset<nat>) returns (g': Aux)
    requires Leads(s, s1, allowed) && Inv(s1, g) && Enabled(s1, a) && GrantsSome(s1, a) && Allowed(a, allowed)
    ensures Leads(s, Next(s1, a), allowed) && Inv(Next(s1, a), g')
  {
    hide Leads, Inv, Enabled, Next, NextAux;
    LeadsByStep(s1, a, allowed);
    LeadsOn(s, s1, Next(s1, a), allowed);
    StepKeepsInv(s1, g, a);
    g' := NextAux(s1, g, a);
  }

  // ---------------------------------------------------------------- one block is filled

  const THREADS: nat := 33

  /** No block has been allocated, and no memory holds a pointer. */
  ghost function Empty(): State {
    State(D.State(0, 0, 0, 0, seq(THREADS, _ => D.Idle), []),
          B.State(0, 0, [], [seq(32, i => i)], [31], seq(32, i => B.INVALID_BLOCK_BASE), seq(32, i => B.None), map[], map[],
                  {}, B.None, B.PIdle, seq(THREADS, _ => B.CIdle)))
  }

  /** An allocation succeeds and yields block 0. */
  const GET: B.Choice := B.Choice(true, 0, [])

  /** The producer's steps of an operation that fills one block, in order. */
  ghost function After(p: B.Prod): B.Prod {
    match p
    case PCheck(op) => if op.got == [] then B.PKey(op, 0) else B.PFill(op, 0)
    case PKey(op, _) => B.PTail(op, 0)
    case PTail(op, _) => B.PBlock(op, 0)
    case PBlock(op, _) => B.PValue(op, 0, 0)
    case PValue(op, _, _) => B.PCheck(op.(got := [0]))
    case PFill(op, k) => B.PFill(op, k + 1)
    case _ => p
  }

  ghost predicate OnItsWay(p: B.Prod, items: seq<B.Elem>) {
    match p
    case PCheck(op) => op == B.Op(items, B.None, []) || op == B.Op(items, B.None, [0])
    case PKey(op, e) => op == B.Op(items, B.None, []) && e == 0
    case PTail(op, e) => op == B.Op(items, B.None, []) && e == 0
    case PBlock(op, e) => op == B.Op(items, B.None, []) && e == 0
    case PValue(op, e, b) => op == B.Op(items, B.None, []) && e == 0 && b == 0
    case PFill(op, k) => op == B.Op(items, B.None, [0]) && k <= |items|
    case _ => false
  }

  /** The index as the operation leaves it after its step `p`. */
  ghost predicate IndexAt(b: B.State, p: B.Prod) {
    && b.index == [seq(32, i => i)] && |b.values| == |b.keys| == 32 && b.values[1] == B.None
    && b.keys[0] == (if (p.PCheck? && p.op.got == []) || p.PKey? then B.INVALID_BLOCK_BASE else 0)
    && b.tails == [if (p.PCheck? && p.op.got == []) || p.PKey? || p.PTail? then 31 else 0]
  }

  /** The producer fills the first block; no consumer has started. */
  ghost predicate Producing(s: State, items: seq<B.Elem>) {
    && |items| == B.BLOCK_SIZE && s.counters == Empty().counters
    && s.blocks.tail == 0 && s.blocks.head == 0 && s.blocks.cons == Empty().blocks.cons
    && OnItsWay(s.blocks.prod, items) && IndexAt(s.blocks, s.blocks.prod)
    && ((s.blocks.prod.PFill? || s.blocks.prod.PValue? || (s.blocks.prod.PCheck? && s.blocks.prod.op.got == [0]))
        || 0 !in s.blocks.elements)
  }

  lemma ProducingStep(s: State, items: seq<B.Elem>)
    requires Producing(s, items) && B.Wf(s.blocks) && (s.blocks.prod.PFill? ==> s.blocks.prod.k < |items|)
    ensures Enabled(s, Produce(GET)) && Producing(Next(s, Produce(GET)), items)
    ensures Next(s, Produce(GET)).blocks.prod == After(s.blocks.prod)
  {
    hide B.ConsWf, B.Grown;
  }

  /** What remains to be done: the published block, with nothing taken yet. */
  ghost predicate Published(s: State) {
    && s.counters == Empty().counters.(tail := B.BLOCK_SIZE)
    && IndexAt(s.blocks, B.PIdle) && s.blocks.head == 0 && s.blocks.tail == B.BLOCK_SIZE
  }

  lemma PublishStep(s: State, items: seq<B.Elem>)
    requires Producing(s, items) && B.Wf(s.blocks) && s.blocks.prod.PFill? && s.blocks.prod.k == |items|
    ensures Enabled(s, Produce(GET)) && Published(Next(s, Produce(GET)))
  {
    hide B.ConsWf, B.Grown;
  }

  ghost function Rank(p: B.Prod): nat {
    match p
    case PCheck(op) => if op.got == [] then 38 else 33
    case PKey(_, _) => 37
    case PTail(_, _) => 36
    case PBlock(_, _) => 35
    case PValue(_, _, _) => 34
    case PFill(_, k) => if k <= 32 then 32 - k else 0
    case _ => 0
  }

  lemma {:induction false} ProduceAll(s0: State, s: State, g: Aux, items: seq<B.Elem>, allowed: iset<nat>)
    returns (s': State, g': Aux)
    requires Leads(s0, s, allowed) && Inv(s, g) && Producing(s, items)
    ensures Leads(s0, s', allowed) && Inv(s', g') && Published(s')
    decreases Rank(s.blocks.prod)
  {
    hide Leads, Inv, Producing, Published, Enabled, Next, GrantsSome;
    ProducingIs(s, items);
    InvWf(s, g);
    if s.blocks.prod.PFill? && s.blocks.prod.k == |items| {
      PublishStep(s, items);
      NotGranting(s, Produce(GET));
      g' := Step(s0, s, g, Produce(GET), allowed);
      s' := Next(s, Produce(GET));
    } else {
      ProducingStep(s, items);
      NotGranting(s, Produce(GET));
      var g1 := Step(s0, s, g, Produce(GET), allowed);
      s', g' := ProduceAll(s0, Next(s, Produce(GET)), g1, items, allowed);
    }
  }

  lemma ProducingIs(s: State, items: seq<B.Elem>)
    requires Producing(s, items)
    ensures OnItsWay(s.blocks.prod, items) && |items| == 32
  {
  }

  lemma InvWf(s: State, g: Aux)
    requires Inv(s, g)
    ensures B.Wf(s.blocks)
  {
    P.InvIsWf(s.blocks, g.blocks);
  }

  lemma NotGranting(s: State, a: Action)
    requires Enabled(s, a) && !a.Run?
    ensures GrantsSome(s, a)
  {
  }

  lemma EmptyIsInitial()
    ensures Init(Empty())
  {
  }

  lemma EnqueueStep(items: seq<B.Elem>)
    requires |items| == B.BLOCK_SIZE && B.Wf(Empty().blocks)
    ensures Enabled(Empty(), Enqueue(items)) && Producing(Next(Empty(), Enqueue(items)), items)
  {
    hide B.ConsWf;
  }

  /** The first block is filled and published. */
  lemma FillFirst(items: seq<B.Elem>, allowed: iset<nat>) returns (s: State, g: Aux)
    requires |items| == B.BLOCK_SIZE
    ensures Leads(Empty(), s, allowed) && Inv(s, g) && Published(s)
  {
    hide Leads, Inv, Producing, Published, Empty, Next;
    g := StartInv();
    LeadsNowhere(Empty(), allowed);
    EnqueueStep(items);
    hide Enabled;
    NotGranting(Empty(), Enqueue(items));
    hide GrantsSome;
    g := Step(Empty(), Empty(), g, Enqueue(items), allowed);
    s, g := ProduceAll(Empty(), Next(Empty(), Enqueue(items)), g, items, allowed);
  }

  lemma StartInv() returns (g: Aux)
    ensures Inv(Empty(), g) && B.Wf(Empty().blocks)
  {
    EmptyIsInitial();
    InitHasInv(Empty());
    g := Aux(D.Aux([], map[]), R.InitAux(Empty().blocks));
    hide Init, Inv, Empty;
    InvWf(Empty(), g);
  }

  // ---------------------------------------------------------------- one consumer asks for nothing

  /** A step on the counters alone. */
  lemma CountersStep(s0: State, s: State, g: Aux, a: Action, allowed: iset<nat>) returns (g': Aux)
    requires Leads(s0, s, allowed) && Inv(s, g) && Enabled(s, a) && Allowed(a, allowed)
    requires a.Dequeue? || (a.Run? && !s.counters.pc[a.t].Take?)
    ensures Next(s, a).blocks == s.blocks
    ensures Leads(s0, Next(s, a), allowed) && Inv(Next(s, a), g')
  {
    hide Leads, Inv;
    g' := Step(s0, s, g, a, allowed);
  }

  /** The state after thread `t` has decided to take `n` elements of those left. */
  ghost predicate Deciding(s: State, s': State, t: D.Tid, n: nat)
    requires t < |s.counters.pc|
  {
    && s'.blocks == s.blocks
    && s'.counters == s.counters.(optimistic := s.counters.optimistic + n, pc := s.counters.pc[t := D.Take(n)])
  }

  /** A dequeue of up to `max` elements runs until it has decided what to take. */
  lemma Decide(s0: State, s: State, g: Aux, t: D.Tid, max: nat, allowed: iset<nat>) returns (s': State, g': Aux)
    requires Leads(s0, s, allowed) && Inv(s, g) && max in allowed
    requires t < |s.counters.pc| && s.counters.pc[t] == D.Idle
    requires s.counters.over == 0 && s.counters.optimistic < s.counters.tail
    ensures Leads(s0, s', allowed) && Inv(s', g')
    ensures Deciding(s, s', t, C.Min(max, s.counters.tail - s.counters.optimistic))
  {
    hide Leads, Inv;
    var c := s.counters;
    g' := CountersStep(s0, s, g, Dequeue(t, max), allowed);
    var s1 := Next(s, Dequeue(t, max));
    assert s1 == State(c.(pc := c.pc[t := D.ReadTail(max)]), s.blocks);
    g' := CountersStep(s0, s1, g', Run(t), allowed);
    var s2 := Next(s1, Run(t));
    assert s2 == State(c.(pc := c.pc[t := D.ReadOvercommit(max, c.tail)]), s.blocks);
    g' := CountersStep(s0, s2, g', Run(t), allowed);
    var s3 := Next(s2, Run(t));
    assert s3 == State(c.(pc := c.pc[t := D.ReadOptimistic(max, c.tail, 0)]), s.blocks);
    g' := CountersStep(s0, s3, g', Run(t), allowed);
    var s4 := Next(s3, Run(t));
    var n := C.Min(max, c.tail - c.optimistic);
    assert s4 == State(c.(pc := c.pc[t := D.Claim(n, 0)]), s.blocks);
    g' := CountersStep(s0, s4, g', Run(t), allowed);
    var s5 := Next(s4, Run(t));
    assert s5 == State(c.(optimistic := c.optimistic + n, pc := c.pc[t := D.Recheck(n, 0, c.optimistic)]), s.blocks);
    g' := CountersStep(s0, s5, g', Run(t), allowed);
    s' := Next(s5, Run(t));
    assert s'.counters == c.(optimistic := c.optimistic + n, pc := c.pc[t := D.Take(n)]);
  }

  // ---------------------------------------------------------------- the others take everything

  /** Thread 0 has decided to take nothing; threads 1..k hold ranges; the rest have not started. */
  ghost predicate Draining(s: State, k: nat) {
    && IndexAt(s.blocks, B.PIdle) && s.blocks.head == s.counters.head && s.blocks.tail == s.counters.tail == B.BLOCK_SIZE
    && s.counters.over == 0 && s.counters.optimistic == s.counters.head <= B.BLOCK_SIZE
    && |s.counters.pc| == THREADS && s.counters.pc[0] == D.Take(0) && k <= s.counters.head
    && forall t :: k < t < THREADS ==> s.counters.pc[t] == D.Idle
  }

  lemma Decided(s: State, s': State)
    requires Published(s) && Deciding(s, s', 0, 0)
    ensures Draining(s', 0)
  {
  }

  /** What granting the decided range does. */
  lemma GrantStep(s: State, s': State, k: nat, n: nat)
    requires Draining(s, k) && k + 1 < THREADS && 0 < n <= B.BLOCK_SIZE - s.counters.head && Deciding(s, s', k + 1, n)
    requires B.Enabled(s'.blocks, B.Grant(k + 1, n))
    ensures Enabled(s', Run(k + 1)) && GrantsSome(s', Run(k + 1))
    ensures Draining(Next(s', Run(k + 1)), k + 1) && Next(s', Run(k + 1)).counters.head == s.counters.head + n
  {
    hide B.Wf;
  }

  lemma {:induction false} DrainAll(s0: State, s: State, g: Aux, k: nat, max: nat, allowed: iset<nat>)
    returns (s': State, g': Aux, k': nat)
    requires Leads(s0, s, allowed) && Inv(s, g) && Draining(s, k) && 0 < max && max in allowed
    ensures Leads(s0, s', allowed) && Inv(s', g') && Draining(s', k') && s'.counters.head == B.BLOCK_SIZE
    decreases B.BLOCK_SIZE - s.counters.head
  {
    hide Leads, Inv;
    if s.counters.head == B.BLOCK_SIZE {
      s', g', k' := s, g, k;
    } else {
      var n := C.Min(max, s.counters.tail - s.counters.optimistic);
      var s1, g1 := Decide(s0, s, g, k + 1, max, allowed);
      TakeIsGrantable(s1, g1, k + 1);
      GrantStep(s, s1, k, n);
      hide Enabled, Next, GrantsSome;
      var g2 := Step(s0, s1, g1, Run(k + 1), allowed);
      s', g', k' := DrainAll(s0, Next(s1, Run(k + 1)), g2, k + 1, max, allowed);
    }
  }

  // ---------------------------------------------------------------- the empty range is looked up

  ghost predicate Looking(s: State, c: B.Cons) {
    && B.Wf(s.blocks) && IndexAt(s.blocks, B.PIdle) && |s.blocks.cons| > 0 && s.blocks.cons[0] == c
  }

  lemma GrantEmpty(s: State, g: Aux, k: nat)
    requires Inv(s, g) && Draining(s, k) && s.counters.head == B.BLOCK_SIZE
    ensures Enabled(s, Run(0)) && Looking(Next(s, Run(0)), B.CIndex(B.Job(32, 32, 32, 32, [])))
  {
    TakeIsGrantable(s, g, 0);
    hide Inv;
  }

  lemma LookStep(s: State, job: B.Job)
    requires job == B.Job(32, 32, 32, 32, [])
    ensures Looking(s, B.CIndex(job)) ==>
              Enabled(s, Consume(0)) && Looking(Next(s, Consume(0)), B.CTail(job, 0))
    ensures Looking(s, B.CTail(job, 0)) ==>
              Enabled(s, Consume(0)) && Looking(Next(s, Consume(0)), B.CKey(job, 0, 0))
    ensures Looking(s, B.CKey(job, 0, 0)) ==>
              Enabled(s, Consume(0)) && Looking(Next(s, Consume(0)), B.CValue(job, 0, 1))
    ensures Looking(s, B.CValue(job, 0, 1)) ==>
              Enabled(s, Consume(0)) && Looking(Next(s, Consume(0)), B.Crashed)
  {
  }

  lemma LooksAndCrashes(s0: State, s: State, allowed: iset<nat>) returns (s': State)
    requires Leads(s0, s, allowed) && Looking(s, B.CIndex(B.Job(32, 32, 32, 32, [])))
    ensures Leads(s0, s', allowed) && |s'.blocks.cons| > 0 && s'.blocks.cons[0].Crashed?
  {
    hide Leads, Enabled, Next;
    var job := B.Job(32, 32, 32, 32, []);
    s' := s;
    var i := 0;
    while i < 4
      invariant 0 <= i <= 4 && Leads(s0, s', allowed)
      invariant Looking(s', if i == 0 then B.CIndex(job) else if i == 1 then B.CTail(job, 0)
                            else if i == 2 then B.CKey(job, 0, 0) else if i == 3 then B.CValue(job, 0, 1) else B.Crashed)
    {
      LookStep(s', job);
      LeadsByStep(s', Consume(0), allowed);
      LeadsOn(s0, s', Next(s', Consume(0)), allowed);
      s' := Next(s', Consume(0));
      i := i + 1;
    }
  }

  // ---------------------------------------------------------------- main results

  /** One dequeue of zero elements among dequeues of any other size: a consumer follows a pointer
      that was never set. */
  lemma ZeroCrashes(allowed: iset<nat>, max: nat, items: seq<B.Elem>) returns (s: State)
    requires 0 in allowed && max in allowed && max > 0 && |items| == B.BLOCK_SIZE
    ensures Init(Empty()) && Leads(Empty(), s, allowed) && |s.blocks.cons| > 0 && s.blocks.cons[0].Crashed?
  {
    EmptyIsInitial();
    hide Leads, Inv, Init, Empty;
    var s1, g1 := FillFirst(items, allowed);
    hide Published;
    PublishedIdle(s1);
    var s2, g2 := Decide(Empty(), s1, g1, 0, 0, allowed);
    Decided(s1, s2);
    hide Draining, Deciding;
    var s3, g3, k := DrainAll(Empty(), s2, g2, 0, max, allowed);
    GrantEmpty(s3, g3, k);
    hide Looking;
    LeadsByStep(s3, Run(0), allowed);
    LeadsOn(Empty(), s3, Next(s3, Run(0)), allowed);
    s := LooksAndCrashes(Empty(), Next(s3, Run(0)), allowed);
  }

  lemma PublishedIdle(s: State)
    requires Published(s)
    ensures |s.counters.pc| > 0 && s.counters.pc[0] == D.Idle && s.counters.over == 0 == s.counters.optimistic
    ensures s.counters.tail == 32
  {
  }

  /** For the numbers of elements that dequeues ask for, some of them positive: no run crashes if and
      only if zero is not one of them. */
  lemma SafeWithoutZero(allowed: iset<nat>, max: nat, x: B.Elem)
    requires max in allowed && max > 0
    ensures Safe(allowed) <==> 0 !in allowed
  {
    if 0 in allowed {
      var s := ZeroCrashes(allowed, max, seq(B.BLOCK_SIZE, _ => x));
      var run :| Runs(Empty(), run, s) && Within(run, allowed);
    } else {
      forall first, run, s, t | Init(first) && Runs(first, run, s) && Within(run, allowed) && 0 <= t < |s.blocks.cons|
        ensures !s.blocks.cons[t].Crashed?
      {
        CarefulIsSafe(first, run, s, t, allowed);
      }
    }
  }

  lemma CarefulIsSafe(first: State, run: seq<Action>, s: State, t: D.Tid, allowed: iset<nat>)
    requires Init(first) && Runs(first, run, s) && Within(run, allowed) && 0 !in allowed && t < |s.blocks.cons|
    ensures !s.blocks.cons[t].Crashed?
  {
    hide Init, Runs, Inv;
    forall i | 0 <= i < |run| ensures Asks(run[i]) { assert Allowed(run[i], allowed); }
    assert Reachable(s);
    var g := ReachableInv(s);
    NoCrash(s, g);
  }

  lemma NoCrash(s: State, g: Aux)
    requires Inv(s, g)
    ensures forall t :: 0 <= t < |s.blocks.cons| ==> !s.blocks.cons[t].Crashed?
  {
    hide P.Inv, D.Inv;
    InvHasNoCrash(s.blocks, g.blocks);
  }
}
