/** The datastore with its producers as a transition system: threads enqueue a metric and only then
    count it, while the datastore's thread takes batches, hands each metric to a database and counts
    it down, until it is stopped. Every sub-queue is the FIFO that ProducerQueue refines. */
module DatastoreRuns {
  import opened Counting
  import opened Metric
  import D = Datastore

  /** A producer has enqueued its metric but not yet added to the size. */
  datatype Producer = Idle | Enqueued

  /** A metric with the producer it came from. */
  type Item = (nat, Metric)

  /** What the datastore's thread does next: take from sub-queue `p`, hand the i-th metric of its batch
      to a database, or subtract from the size. */
  datatype Consumer =
    | Ready
    | Taking(p: nat, batch: seq<Item>)
    | Handing(batch: seq<Item>, i: nat)
    | Subtracting(batch: seq<Item>, i: nat)

  datatype Phase = Running | Stopping | Stopped

  /** `enqueued`, `taken` and `stored` record what each producer has enqueued, what was taken in order,
      and of each metric handed to the store whether it had a database; `late` that a metric was
      enqueued after the thread began to stop; `first` the disk at the start. */
  datatype State = State(
    queues: seq<seq<Metric>>,
    size: D.Size,
    producers: seq<Producer>,
    cons: Consumer,
    phase: Phase,
    disk: D.Disk,
    enqueued: seq<seq<Metric>>,
    taken: seq<Item>,
    stored: seq<bool>,
    late: bool,
    first: D.Disk)

  datatype Action =
    | Enqueue(p: nat, m: Metric)
    | Add(p: nat)
    | Begin
    | Take
    | Hand(ok: bool)          // `ok`: whether a database can be created now
    | Subtract
    | Stop

  function Tagged(p: nat, ms: seq<Metric>): (items: seq<Item>)
    ensures |items| == |ms| && forall k :: 0 <= k < |ms| ==> items[k] == (p, ms[k])
  {
    seq(|ms|, k requires 0 <= k < |ms| => (p, ms[k]))
  }

  ghost predicate Enabled(s: State, a: Action) {
    && |s.queues| == |s.producers| == |s.enqueued| > 0
    && match a
       case Enqueue(p, _) => p < |s.producers| && s.producers[p] == Idle
       case Add(p) => p < |s.producers| && s.producers[p] == Enqueued
       case Begin => s.cons == Ready && s.phase != Stopped
       case Take => s.cons.Taking? && s.cons.p < |s.queues|
       case Hand(_) => s.cons.Handing? && s.cons.i < |s.cons.batch|
       case Subtract => s.cons.Subtracting? && s.cons.i < |s.cons.batch|
       case Stop => s.cons == Ready && s.phase == Running
  }

  /** The loop's next step after a metric of the batch is done. */
  ghost function Onward(batch: seq<Item>, i: nat): Consumer {
    if i < |batch| then Handing(batch, i) else Taking(0, [])
  }

  ghost function TakeStep(s: State): State
    requires s.cons.Taking? && s.cons.p < |s.queues|
  {
    var p := s.cons.p;
    var n := if |s.cons.batch| <= D.BULK_COUNT then Min(|s.queues[p]|, D.BULK_COUNT - |s.cons.batch|) else 0;
    var items := Tagged(p, s.queues[p][..n]);
    var batch := s.cons.batch + items;
    var s' := s.(queues := s.queues[p := s.queues[p][n..]], taken := s.taken + items);
    if |batch| != D.BULK_COUNT && p + 1 < |s.queues| then s'.(cons := Taking(p + 1, batch))
    else if batch != [] then s'.(cons := Handing(batch, 0))
    else if s.phase == Running then s'.(cons := Ready)
    else s'.(cons := Ready, phase := Stopped, disk := s.disk.(cached := {}))
  }

  ghost function HandStep(s: State, ok: bool): State
    requires s.cons.Handing? && s.cons.i < |s.cons.batch|
  {
    var m := s.cons.batch[s.cons.i].1;
    var has := m.name in s.disk.cached || (ok && m.name != "");
    s.(disk := if has then D.Written(s.disk.(cached := s.disk.cached + {m.name}), m) else s.disk,
       stored := s.stored + [has],
       cons := if s.phase == Running then Subtracting(s.cons.batch, s.cons.i) else Onward(s.cons.batch, s.cons.i + 1))
  }

  ghost function Next(s: State, a: Action): State
    requires Enabled(s, a)
  {
    match a
    case Enqueue(p, m) =>
      s.(queues := s.queues[p := s.queues[p] + [m]],
         enqueued := s.enqueued[p := s.enqueued[p] + [m]],
         producers := s.producers[p := Enqueued],
         late := s.late || s.phase != Running)
    case Add(p) => s.(size := (s.size + 1) % D.SIZE_RANGE, producers := s.producers[p := Idle])
    case Begin => s.(cons := Taking(0, []))
    case Take => TakeStep(s)
    case Hand(ok) => HandStep(s, ok)
    case Subtract => s.(size := (s.size - 1) % D.SIZE_RANGE, cons := Onward(s.cons.batch, s.cons.i + 1))
    case Stop => s.(phase := Stopping)
  }

  ghost predicate Init(s: State) {
    && |s.queues| == |s.producers| == |s.enqueued| > 0
    && (forall p :: 0 <= p < |s.queues| ==> s.queues[p] == [] && s.enqueued[p] == [] && s.producers[p] == Idle)
    && s.size == 0 && s.cons == Ready && s.phase == Running && s.disk == s.first
    && s.taken == [] && s.stored == [] && !s.late
  }

  ghost predicate Runs(first: State, run: seq<Action>, last: State)
    decreases |run|
  {
    if run == [] then first == last
    else Enabled(first, run[0]) && Runs(Next(first, run[0]), run[1..], last)
  }

  ghost predicate Reachable(s: State) {
    exists first, run :: Init(first) && Runs(first, run, s)
  }

  // ---------------------------------------------------------------- the invariant

  function Size(q: seq<Metric>): nat {
    |q|
  }

  function Uncounted(p: Producer): nat {
    if p == Enqueued then 1 else 0
  }

  /** Taken from the queue but not yet subtracted from the size. */
  ghost function InHand(c: Consumer): nat {
    match c
    case Ready => 0
    case Taking(_, batch) => |batch|
    case Handing(batch, i) => if i <= |batch| then |batch| - i else 0
    case Subtracting(batch, i) => if i <= |batch| then |batch| - i else 0
  }

  /** Taken but not yet handed to the store. */
  ghost function Unhanded(c: Consumer): seq<Item> {
    match c
    case Ready => []
    case Taking(_, batch) => batch
    case Handing(batch, i) => if i <= |batch| then batch[i..] else []
    case Subtracting(batch, i) => if i < |batch| then batch[i + 1..] else []
  }

  /** What was taken from one producer. */
  ghost function FromProducer(taken: seq<Item>, p: nat): seq<Metric> {
    if taken == [] then []
    else FromProducer(taken[..|taken| - 1], p) + if taken[|taken| - 1].0 == p then [taken[|taken| - 1].1] else []
  }

  /** What was written to the database of a name. */
  ghost function Stored(taken: seq<Item>, stored: seq<bool>, name: string): seq<Metric>
    requires |stored| <= |taken|
    decreases |stored|
  {
    if stored == [] then []
    else
      var n := |stored| - 1;
      Stored(taken, stored[..n], name) + if stored[n] && taken[n].1.name == name then [taken[n].1] else []
  }

  ghost predicate Accounted(s: State) {
    s.phase == Running ==>
      s.size == (Sum(s.queues, Size) + InHand(s.cons) - Sum(s.producers, Uncounted)) % D.SIZE_RANGE
  }

  ghost predicate Ordered(queues: seq<seq<Metric>>, enqueued: seq<seq<Metric>>, taken: seq<Item>) {
    && |enqueued| == |queues|
    && forall p :: 0 <= p < |queues| ==> enqueued[p] == FromProducer(taken, p) + queues[p]
  }

  ghost predicate ConsOk(phase: Phase, c: Consumer, n: nat) {
    match c
    case Ready => true
    case Taking(p, batch) => phase != Stopped && p < n && |batch| < D.BULK_COUNT
    case Handing(batch, i) => phase != Stopped && i < |batch| <= D.BULK_COUNT
    case Subtracting(batch, i) => phase == Running && i < |batch| <= D.BULK_COUNT
  }

  ghost predicate HandedOver(s: State) {
    && |s.stored| <= |s.taken| && s.taken[|s.stored|..] == Unhanded(s.cons)
    && (forall name :: D.Log(s.disk, name) == D.Log(s.first, name) + Stored(s.taken, s.stored, name))
    && (s.phase != Stopped ==> forall k :: 0 <= k < |s.stored| && s.stored[k] ==> s.taken[k].1.name in s.disk.cached)
    && (forall k, l :: 0 <= k < l < |s.stored| && s.stored[k] && s.taken[l].1.name == s.taken[k].1.name ==> s.stored[l])
  }

  ghost predicate EmptyBelow(queues: seq<seq<Metric>>, n: nat) {
    forall p :: 0 <= p < |queues| && p < n ==> queues[p] == []
  }

  /** Without producers, what the last pass has found empty stays empty. */
  ghost predicate Quiet(s: State) {
    !s.late ==>
      && (s.phase == Stopping && s.cons.Taking? && s.cons.batch == [] ==> EmptyBelow(s.queues, s.cons.p))
      && (s.phase == Stopped ==> EmptyBelow(s.queues, |s.queues|))
  }

  ghost predicate Inv(s: State) {
    && |s.queues| == |s.producers| == |s.enqueued| > 0
    && ConsOk(s.phase, s.cons, |s.queues|) && (s.phase == Stopped ==> s.cons == Ready)
    && Accounted(s) && Ordered(s.queues, s.enqueued, s.taken) && HandedOver(s) && Quiet(s)
  }

  // ---------------------------------------------------------------- steps

  lemma {:induction false} FromAppends(taken: seq<Item>, items: seq<Item>, p: nat)
    ensures FromProducer(taken + items, p) == FromProducer(taken, p) + FromProducer(items, p)
    decreases |items|
  {
    if items == [] {
      assert taken + items == taken;
    } else {
      var n := |items| - 1;
      assert (taken + items)[..|taken + items| - 1] == taken + items[..n];
      FromAppends(taken, items[..n], p);
    }
  }

  lemma TaggedPrefix(p: nat, ms: seq<Metric>)
    requires ms != []
    ensures Tagged(p, ms)[..|ms| - 1] == Tagged(p, ms[..|ms| - 1])
  {
  }

  lemma {:induction false} FromTagged(p: nat, ms: seq<Metric>, q: nat)
    ensures FromProducer(Tagged(p, ms), q) == if p == q then ms else []
    decreases |ms|
  {
    if ms != [] {
      var n := |ms| - 1;
      TaggedPrefix(p, ms);
      hide Tagged;
      FromTagged(p, ms[..n], q);
      assert ms[..n] + [ms[n]] == ms;
    }
  }

  lemma {:induction false} StoredPrefix(taken: seq<Item>, items: seq<Item>, stored: seq<bool>, name: string)
    requires |stored| <= |taken|
    ensures Stored(taken + items, stored, name) == Stored(taken, stored, name)
    decreases |stored|
  {
    if stored != [] { StoredPrefix(taken, items, stored[..|stored| - 1], name); }
  }

  lemma Regroup<T>(a: seq<T>, b: seq<T>, c: seq<T>)
    ensures a + (b + c) == (a + b) + c
  {
  }

  lemma TakenFrom(queue: seq<Metric>, taken: seq<Item>, p: nat, n: nat)
    requires n <= |queue|
    ensures FromProducer(taken, p) + queue == FromProducer(taken + Tagged(p, queue[..n]), p) + queue[n..]
  {
    hide FromProducer, Tagged;
    FromAppends(taken, Tagged(p, queue[..n]), p);
    FromTagged(p, queue[..n], p);
    assert queue == queue[..n] + queue[n..];
    Regroup(FromProducer(taken, p), queue[..n], queue[n..]);
  }

  lemma TakenFromOther(ms: seq<Metric>, taken: seq<Item>, p: nat, q: nat)
    requires p != q
    ensures FromProducer(taken + Tagged(p, ms), q) == FromProducer(taken, q)
  {
    hide FromProducer, Tagged;
    FromAppends(taken, Tagged(p, ms), q);
    FromTagged(p, ms, q);
  }

  lemma TakeOrdered(s: State, p: nat, n: nat)
    requires Ordered(s.queues, s.enqueued, s.taken) && p < |s.queues| && n <= |s.queues[p]|
    ensures Ordered(s.queues[p := s.queues[p][n..]], s.enqueued, s.taken + Tagged(p, s.queues[p][..n]))
  {
    var queues', items := s.queues[p := s.queues[p][n..]], Tagged(p, s.queues[p][..n]);
    hide FromProducer, Tagged;
    forall q | 0 <= q < |s.queues| ensures s.enqueued[q] == FromProducer(s.taken + items, q) + queues'[q] {
      if p == q { TakenFrom(s.queues[p], s.taken, p, n); } else { TakenFromOther(s.queues[p][..n], s.taken, p, q); }
    }
  }

  lemma TakeAccounted(s: State)
    requires Inv(s) && Enabled(s, Take)
    ensures Accounted(TakeStep(s))
  {
    hide Ordered, HandedOver, Quiet, Sum;
    var p := s.cons.p;
    var n := Min(|s.queues[p]|, D.BULK_COUNT - |s.cons.batch|);
    SumUpdate(s.queues, Size, p, s.queues[p][n..]);
  }

  lemma TakeHandedOver(s: State, s': State, items: seq<Item>)
    requires HandedOver(s) && s.cons.Taking?
    requires s'.taken == s.taken + items && s'.stored == s.stored && s'.first == s.first && s'.disk.logs == s.disk.logs
    requires s'.phase == Stopped || (s'.disk == s.disk && s.phase != Stopped)
    requires Unhanded(s'.cons) == s.cons.batch + items
    ensures HandedOver(s')
  {
    hide Stored;
    assert s'.taken[|s'.stored|..] == s.taken[|s.stored|..] + items;
    forall name ensures D.Log(s'.disk, name) == D.Log(s'.first, name) + Stored(s'.taken, s'.stored, name) {
      StoredPrefix(s.taken, items, s.stored, name);
    }
  }

  lemma TakeQuiet(s: State)
    requires Inv(s) && Enabled(s, Take)
    ensures Quiet(TakeStep(s))
  {
    hide Ordered, HandedOver, Accounted;
    var p := s.cons.p;
    if s.cons.batch == [] && s.queues[p] == [] { assert s.queues[p := s.queues[p][0..]] == s.queues; }
  }

  lemma TakeKeeps(s: State)
    requires Inv(s) && Enabled(s, Take)
    ensures Inv(Next(s, Take))
  {
    hide Ordered, HandedOver, Quiet, Accounted, Tagged;
    var p := s.cons.p;
    var n := Min(|s.queues[p]|, D.BULK_COUNT - |s.cons.batch|);
    var items := Tagged(p, s.queues[p][..n]);
    TakeAccounted(s);
    TakeQuiet(s);
    TakeOrdered(s, p, n);
    assert (s.cons.batch + items)[0..] == s.cons.batch + items;
    TakeHandedOver(s, TakeStep(s), items);
  }

  /** The metric handed is the first of those taken that have not been. */
  lemma HandItem(s: State, ok: bool)
    requires HandedOver(s) && ConsOk(s.phase, s.cons, |s.queues|) && s.cons.Handing?
    ensures var k, item := |s.stored|, s.cons.batch[s.cons.i];
            k < |s.taken| && s.taken[k] == item && s.taken[k + 1..] == Unhanded(HandStep(s, ok).cons)
  {
    var k, batch, i := |s.stored|, s.cons.batch, s.cons.i;
    assert s.taken[k..][0] == batch[i..][0];
    assert s.taken[k + 1..] == s.taken[k..][1..] && batch[i..][1..] == batch[i + 1..];
    hide Stored, D.Log;
  }

  lemma HandLog(s: State, ok: bool, name: string)
    requires HandedOver(s) && s.cons.Handing? && s.cons.i < |s.cons.batch|
    requires |s.stored| < |s.taken| && s.taken[|s.stored|] == s.cons.batch[s.cons.i]
    ensures D.Log(HandStep(s, ok).disk, name) == D.Log(s.first, name) + Stored(s.taken, HandStep(s, ok).stored, name)
  {
    var s' := HandStep(s, ok);
    assert s'.stored[..|s.stored|] == s.stored;
    assert D.Log(s.disk, name) == D.Log(s.first, name) + Stored(s.taken, s.stored, name);
  }

  lemma HandCached(s: State, ok: bool)
    requires HandedOver(s) && s.phase != Stopped && s.cons.Handing? && s.cons.i < |s.cons.batch|
    requires |s.stored| < |s.taken| && s.taken[|s.stored|] == s.cons.batch[s.cons.i]
    ensures var s' := HandStep(s, ok);
            && (forall k :: 0 <= k < |s'.stored| && s'.stored[k] ==> s'.taken[k].1.name in s'.disk.cached)
            && (forall k, l :: 0 <= k < l < |s'.stored| && s'.stored[k] && s'.taken[l].1.name == s'.taken[k].1.name ==>
                  s'.stored[l])
  {
    hide Stored, D.Log;
  }

  lemma HandLogs(s: State, ok: bool)
    requires Inv(s) && Enabled(s, Hand(ok))
    ensures HandedOver(HandStep(s, ok))
  {
    hide Ordered, Quiet, Accounted, Stored, D.Log;
    HandItem(s, ok);
    HandCached(s, ok);
    forall name
      ensures D.Log(HandStep(s, ok).disk, name) == D.Log(s.first, name) + Stored(s.taken, HandStep(s, ok).stored, name)
    {
      HandLog(s, ok, name);
    }
  }

  lemma HandKeeps(s: State, ok: bool)
    requires Inv(s) && Enabled(s, Hand(ok))
    ensures Inv(Next(s, Hand(ok)))
  {
    hide Ordered, HandedOver, Accounted, Quiet, HandStep;
    HandLogs(s, ok);
    HandLeaves(s, ok);
    HandAccounted(s, ok);
  }

  /** Handing a metric over changes neither queues nor counts, nor what a last pass has found. */
  lemma HandLeaves(s: State, ok: bool)
    requires Inv(s) && Enabled(s, Hand(ok))
    ensures var s' := HandStep(s, ok);
            && s'.queues == s.queues && s'.producers == s.producers && s'.enqueued == s.enqueued && s'.taken == s.taken
            && ConsOk(s'.phase, s'.cons, |s'.queues|) && s'.phase == s.phase != Stopped && Quiet(s')
  {
    hide Ordered, HandedOver, Accounted, D.Written;
  }

  lemma HandAccounted(s: State, ok: bool)
    requires Inv(s) && Enabled(s, Hand(ok))
    ensures Accounted(HandStep(s, ok))
  {
    hide Ordered, HandedOver, Quiet, Sum, D.Written;
  }

  lemma SameHanded(s: State, s': State)
    requires HandedOver(s) && s'.taken == s.taken && s'.stored == s.stored && s'.first == s.first && s'.disk == s.disk
    requires Unhanded(s'.cons) == Unhanded(s.cons) && (s.phase == Stopped ==> s'.phase == Stopped)
    ensures HandedOver(s')
  {
    hide Stored;
  }

  lemma SubtractKeeps(s: State)
    requires Inv(s) && Enabled(s, Subtract)
    ensures Inv(Next(s, Subtract))
  {
    hide Ordered, HandedOver, Sum;
    var s' := Next(s, Subtract);
    D.SizeSum(Sum(s.queues, Size) + InHand(s.cons) - Sum(s.producers, Uncounted), -1);
    SameHanded(s, s');
  }

  lemma EnqueueKeeps(s: State, p: nat, m: Metric)
    requires Inv(s) && Enabled(s, Enqueue(p, m))
    ensures Inv(Next(s, Enqueue(p, m)))
  {
    hide Sum, HandedOver, FromProducer;
    SumUpdate(s.queues, Size, p, s.queues[p] + [m]);
    SumUpdate(s.producers, Uncounted, p, Enqueued);
    SameHanded(s, Next(s, Enqueue(p, m)));
    assert s.enqueued[p] + [m] == FromProducer(s.taken, p) + (s.queues[p] + [m]);
  }

  lemma AddKeeps(s: State, p: nat)
    requires Inv(s) && Enabled(s, Add(p))
    ensures Inv(Next(s, Add(p)))
  {
    hide Sum, HandedOver, Ordered;
    SumUpdate(s.producers, Uncounted, p, Idle);
    D.SizeSum(Sum(s.queues, Size) + InHand(s.cons) - Sum(s.producers, Uncounted), 1);
    SameHanded(s, Next(s, Add(p)));
  }

  lemma StepKeepsInv(s: State, a: Action)
    requires Inv(s) && Enabled(s, a)
    ensures Inv(Next(s, a))
  {
    match a
    case Enqueue(p, m) => hide Inv; EnqueueKeeps(s, p, m);
    case Add(p) => hide Inv; AddKeeps(s, p);
    case Take => hide Inv; TakeKeeps(s);
    case Hand(ok) => hide Inv; HandKeeps(s, ok);
    case Subtract => hide Inv; SubtractKeeps(s);
    case _ => SameHanded(s, Next(s, a)); hide HandedOver, Ordered, Sum;
  }

  lemma {:induction false} RunsKeepInv(s: State, run: seq<Action>, s': State)
    requires Inv(s) && Runs(s, run, s')
    ensures Inv(s')
    decreases |run|
  {
    hide Inv, Enabled;
    if run != [] {
      StepKeepsInv(s, run[0]);
      RunsKeepInv(Next(s, run[0]), run[1..], s');
    }
  }

  lemma InitHasInv(s: State)
    requires Init(s)
    ensures Inv(s)
  {
    SumZero(s.queues, Size);
    SumZero(s.producers, Uncounted);
    hide Sum;
    forall name ensures D.Log(s.disk, name) == D.Log(s.first, name) + Stored(s.taken, s.stored, name) {}
  }

  lemma ReachableInv(s: State)
    requires Reachable(s)
    ensures Inv(s)
  {
    hide Inv, Init;
    var first, run :| Init(first) && Runs(first, run, s);
    InitHasInv(first);
    RunsKeepInv(first, run, s);
  }

  // ---------------------------------------------------------------- main results

  /** Until the thread stops, the size is what is queued, plus what is taken but not yet subtracted,
      minus what is enqueued but not yet added, modulo 2^64. */
  lemma BacklogIsAccounted(s: State)
    requires Reachable(s) && s.phase == Running
    ensures s.size == (Sum(s.queues, Size) + InHand(s.cons) - Sum(s.producers, Uncounted)) % D.SIZE_RANGE
  {
    hide HandedOver, Ordered, Quiet, Sum;
    ReachableInv(s);
  }

  /** It is the number of queued metrics exactly when as many are uncounted as are in hand, for any
      backlog a machine can hold. */
  lemma BacklogIsExact(s: State)
    requires Reachable(s) && s.phase == Running && Sum(s.queues, Size) + InHand(s.cons) < D.SIZE_RANGE
    requires Sum(s.producers, Uncounted) < D.SIZE_RANGE
    ensures s.size == Sum(s.queues, Size) <==> InHand(s.cons) == Sum(s.producers, Uncounted)
  {
    hide Sum;
    BacklogIsAccounted(s);
  }

  /** The size is above what is in the system, having wrapped around, exactly when more metrics are
      uncounted than are queued or in hand. */
  lemma BacklogWraps(s: State)
    requires Reachable(s) && s.phase == Running && Sum(s.queues, Size) + InHand(s.cons) < D.SIZE_RANGE
    requires Sum(s.producers, Uncounted) < D.SIZE_RANGE
    ensures s.size > Sum(s.queues, Size) + InHand(s.cons) <==>
            Sum(s.producers, Uncounted) > Sum(s.queues, Size) + InHand(s.cons)
  {
    hide Sum;
    BacklogIsAccounted(s);
  }

  /** It does so where the size is read as the reported backlog: a metric may be taken, written and
      subtracted before it is added, and the next turn then reports 2^64 - 1. */
  lemma BacklogCanWrap(s: State, m: Metric)
    requires Init(s)
    ensures exists run, s' :: Runs(s, run, s') && s'.cons == Ready && s'.phase == Running && s'.size == D.SIZE_RANGE - 1
  {
    hide Init, Enabled, Runs, Next, Empty;
    var run, s4 := FirstTurn(s, m);
    var more, s7 := NextReport(s4);
    RunsJoin(s, run, s4, more, s7);
  }

  /** From the start to where the one metric of the first turn is about to be handed over. */
  lemma FirstTurn(s: State, m: Metric) returns (run: seq<Action>, s': State)
    requires Init(s)
    ensures Runs(s, run, s') && s'.cons == Handing([(0, m)], 0) && s'.size == 0 && s'.phase == Running
    ensures |s'.queues| == |s'.producers| == |s'.enqueued| > 0 && Empty(s')
  {
    hide Enabled, Runs, Next, Init;
    var s3 := FirstTake(s, m);
    var pass := Passes(|s.queues| - 1);
    s' := Finish(s3, [(0, m)], pass);
    run := [Enqueue(0, m), Begin, Take] + pass;
    RunsJoin(s, [Enqueue(0, m), Begin, Take], s3, pass, s');
  }

  /** From there to where the size is read again. */
  lemma NextReport(s: State) returns (run: seq<Action>, s': State)
    requires |s.queues| == |s.producers| == |s.enqueued| > 0 && Empty(s) && s.phase == Running
    requires s.cons.Handing? && s.cons.i + 1 == |s.cons.batch|
    ensures Runs(s, run, s') && s'.cons == Ready && s'.phase == Running && s'.size == (s.size - 1) % D.SIZE_RANGE
  {
    hide Enabled, Runs, Next;
    var s6 := LastTwo(s);
    var again := Passes(|s.queues|);
    s' := Finish(s6, [], again);
    run := [Hand(true), Subtract] + again;
    RunsJoin(s, [Hand(true), Subtract], s6, again, s');
  }

  lemma FirstTake(s: State, m: Metric) returns (s3: State)
    requires Init(s)
    ensures Runs(s, [Enqueue(0, m), Begin, Take], s3)
    ensures |s3.queues| == |s3.producers| == |s3.enqueued| == |s.queues| > 0 && s3.phase == Running && s3.size == 0
    ensures Empty(s3)
    ensures s3.cons == if |s.queues| == 1 then Handing([(0, m)], 0) else Taking(1, [(0, m)])
  {
    var s1, s2 := FirstTwo(s, m);
    s3 := TakesOne(s2, m);
    hide Next, Enabled, Init;
    FirstThree(s, m, s1, s2, s3, [], s3);
    assert [Enqueue(0, m)] + ([Begin] + ([Take] + [])) == [Enqueue(0, m), Begin, Take];
  }

  lemma FirstTwo(s: State, m: Metric) returns (s1: State, s2: State)
    requires Init(s)
    ensures Enabled(s, Enqueue(0, m)) && s1 == Next(s, Enqueue(0, m)) && Enabled(s1, Begin) && s2 == Next(s1, Begin)
    ensures |s2.queues| == |s2.producers| == |s2.enqueued| == |s.queues| > 0 && s2.phase == Running && s2.size == 0
    ensures s2.queues[0] == [m] && (forall i :: 0 < i < |s2.queues| ==> s2.queues[i] == []) && s2.cons == Taking(0, [])
  {
    s1 := Next(s, Enqueue(0, m));
    assert s1.queues[0] == [m] by { assert [] + [m] == [m]; }
    s2 := Next(s1, Begin);
  }

  lemma TakesOne(s: State, m: Metric) returns (s': State)
    requires |s.queues| == |s.producers| == |s.enqueued| > 0 && s.phase == Running && s.cons == Taking(0, [])
    requires s.queues[0] == [m] && (forall i :: 0 < i < |s.queues| ==> s.queues[i] == [])
    ensures Enabled(s, Take) && s' == Next(s, Take) && Empty(s')
    ensures |s'.queues| == |s'.producers| == |s'.enqueued| == |s.queues| && s'.phase == Running && s'.size == s.size
    ensures s'.cons == if |s.queues| == 1 then Handing([(0, m)], 0) else Taking(1, [(0, m)])
  {
    assert Min(1, D.BULK_COUNT) == 1 && [m][..1] == [m] && [m][1..] == [];
    assert Tagged(0, [m]) == [(0, m)];
    s' := Next(s, Take);
  }

  lemma FirstThree(s: State, m: Metric, s1: State, s2: State, s3: State, rest: seq<Action>, s': State)
    requires Enabled(s, Enqueue(0, m)) && s1 == Next(s, Enqueue(0, m)) && Enabled(s1, Begin) && s2 == Next(s1, Begin)
    requires Enabled(s2, Take) && s3 == Next(s2, Take) && Runs(s3, rest, s')
    ensures Runs(s, [Enqueue(0, m)] + ([Begin] + ([Take] + rest)), s')
  {
    hide Enabled, Next;
    assert ([Take] + rest)[1..] == rest;
    assert Runs(s2, [Take] + rest, s');
    assert ([Begin] + ([Take] + rest))[1..] == [Take] + rest;
    assert Runs(s1, [Begin] + ([Take] + rest), s');
    assert ([Enqueue(0, m)] + ([Begin] + ([Take] + rest)))[1..] == [Begin] + ([Take] + rest);
  }

  function Passes(n: nat): (run: seq<Action>)
    ensures |run| == n
  {
    if n == 0 then [] else [Take] + Passes(n - 1)
  }

  lemma LastTwo(s: State) returns (s': State)
    requires |s.queues| == |s.producers| == |s.enqueued| > 0 && s.phase == Running
    requires s.cons.Handing? && s.cons.i < |s.cons.batch|
    requires s.cons.i + 1 == |s.cons.batch|
    ensures Runs(s, [Hand(true), Subtract], s') && s'.size == (s.size - 1) % D.SIZE_RANGE
    ensures s'.cons == Taking(0, []) && s'.phase == Running && s'.queues == s.queues
    ensures |s'.queues| == |s'.producers| == |s'.enqueued|
  {
    var s1 := Next(s, Hand(true));
    s' := Next(s1, Subtract);
    assert [Hand(true), Subtract][1..] == [Subtract] && [Subtract][1..] == [];
    assert Runs(s', [], s');
    assert Runs(s1, [Subtract], s');
  }

  /** A pass goes on over the empty sub-queues and comes to its batch, or finds nothing to do. */
  lemma {:induction false} Finish(s: State, batch: seq<Item>, run: seq<Action>) returns (s': State)
    requires |s.queues| == |s.producers| == |s.enqueued| > 0 && |batch| <= 1 && s.phase == Running
    requires Empty(s)
    requires if run == [] then s.cons == AfterPass(batch)
             else |run| <= |s.queues| && s.cons == Taking(|s.queues| - |run|, batch)
    requires run == Passes(|run|)
    ensures Runs(s, run, s') && s'.cons == AfterPass(batch) && s'.size == s.size && s'.phase == Running
    ensures |s'.queues| == |s'.producers| == |s'.enqueued| > 0 && s'.queues == s.queues
    decreases |run|
  {
    if run == [] {
      s' := s;
    } else {
      var p := s.cons.p;
      assert s.queues[p] == [] && s.queues[p][..0] == [] && batch + [] == batch;
      assert s.queues[p := s.queues[p][0..]] == s.queues;
      assert Enabled(s, Take);
      s' := Finish(Next(s, Take), batch, run[1..]);
    }
  }

  function AfterPass(batch: seq<Item>): Consumer {
    if batch == [] then Ready else Handing(batch, 0)
  }

  ghost predicate Empty(s: State) {
    forall p :: 0 <= p < |s.queues| ==> s.queues[p] == []
  }

  lemma {:induction false} RunsJoin(s: State, run: seq<Action>, mid: State, more: seq<Action>, s': State)
    requires Runs(s, run, mid) && Runs(mid, more, s')
    ensures Runs(s, run + more, s')
    decreases |run|
  {
    hide Enabled, Next;
    if run == [] {
      assert run + more == more;
    } else {
      RunsJoin(Next(s, run[0]), run[1..], mid, more, s');
      assert (run + more)[1..] == run[1..] + more;
    }
  }

  /** Each producer's metrics are taken in the order it enqueued them, none twice and none left out:
      what was taken from it and what is still in its sub-queue is what it enqueued. */
  lemma ProducersKeepOrder(s: State, p: nat)
    requires Reachable(s) && p < |s.queues|
    ensures |s.enqueued| == |s.queues| && s.enqueued[p] == FromProducer(s.taken, p) + s.queues[p]
  {
    hide HandedOver, Accounted, Quiet, FromProducer;
    ReachableInv(s);
  }

  /** Each metric taken is handed once to the database of its own name, in order, or dropped because
      that could not be created; a name that once had a database keeps it. */
  lemma EachIsHandedOnce(s: State, name: string)
    requires Reachable(s)
    ensures |s.stored| <= |s.taken| && |s.taken| - |s.stored| <= D.BULK_COUNT
    ensures D.Log(s.disk, name) == D.Log(s.first, name) + Stored(s.taken, s.stored, name)
    ensures forall k, l :: 0 <= k < l < |s.stored| && s.stored[k] && s.taken[l].1.name == s.taken[k].1.name ==> s.stored[l]
  {
    hide Ordered, Accounted, Quiet, Stored, D.Log;
    ReachableInv(s);
    assert |s.taken[|s.stored|..]| == |Unhanded(s.cons)|;
  }

  /** When the thread has stopped and no producer was at work meanwhile, the queue is empty and every
      metric ever enqueued has been handed over. */
  lemma StopDrainsTheQueue(s: State, p: nat)
    requires Reachable(s) && s.phase == Stopped && !s.late && p < |s.queues|
    ensures s.queues[p] == [] && |s.stored| == |s.taken|
    ensures |s.enqueued| == |s.queues| && s.enqueued[p] == FromProducer(s.taken, p)
  {
    hide Accounted, Stored, FromProducer, D.Log;
    ReachableInv(s);
    assert s.taken[|s.stored|..] == [];
    ProducersKeepOrder(s, p);
  }

  // ---------------------------------------------------------------- what is dropped, and that stopping ends

  /** Every database that the run asks for can be created. */
  ghost predicate AllCreatable(run: seq<Action>) {
    forall i :: 0 <= i < |run| ==> Creatable(run[i])
  }

  ghost predicate Creatable(a: Action) {
    a.Hand? ==> a.ok
  }

  ghost predicate NoneDropped(s: State) {
    |s.stored| <= |s.taken| && forall k :: 0 <= k < |s.stored| && s.taken[k].1.name != "" ==> s.stored[k]
  }

  lemma StepDropsNone(s: State, a: Action)
    requires Inv(s) && Enabled(s, a) && Creatable(a) && NoneDropped(s)
    ensures NoneDropped(Next(s, a))
  {
    hide Ordered, Accounted, Quiet, Stored, D.Log, D.Written, FromProducer;
    match a
    case Hand(ok) => HandItem(s, ok); HandStores(s, ok);
    case Take => TakeAppends(s);
    case _ =>
  }

  lemma HandStores(s: State, ok: bool)
    requires s.cons.Handing? && s.cons.i < |s.cons.batch|
    ensures HandStep(s, ok).taken == s.taken && |HandStep(s, ok).stored| == |s.stored| + 1
    ensures HandStep(s, ok).stored[..|s.stored|] == s.stored
    ensures ok && s.cons.batch[s.cons.i].1.name != "" ==> HandStep(s, ok).stored[|s.stored|]
  {
  }

  lemma TakeAppends(s: State)
    requires s.cons.Taking? && s.cons.p < |s.queues|
    ensures TakeStep(s).stored == s.stored && s.taken <= TakeStep(s).taken
  {
  }

  lemma {:induction false} RunsDropNone(s: State, run: seq<Action>, s': State)
    requires Inv(s) && NoneDropped(s) && Runs(s, run, s') && AllCreatable(run)
    ensures NoneDropped(s')
    decreases |run|
  {
    hide Inv, Enabled, NoneDropped, Next;
    if run != [] {
      assert Creatable(run[0]) && AllCreatable(run[1..]);
      StepDropsNone(s, run[0]);
      StepKeepsInv(s, run[0]);
      RunsDropNone(Next(s, run[0]), run[1..], s');
    }
  }

  /** A metric with a name is dropped only if its database could not be created: with every database
      creatable, each one taken and handed over is in the log of its name. */
  lemma DroppedOnlyWithoutDatabase(first: State, run: seq<Action>, s: State, k: nat)
    requires Init(first) && Runs(first, run, s) && AllCreatable(run)
    ensures k < |s.stored| && k < |s.taken| && s.taken[k].1.name != "" ==> s.stored[k]
  {
    hide Inv, Runs;
    InitHasInv(first);
    assert NoneDropped(first);
    hide Init;
    RunsDropNone(first, run, s);
  }

  /** The metrics not yet handed over. */
  ghost function Pending(s: State): nat {
    Sum(s.queues, Size) + InHand(s.cons)
  }

  ghost function StopStage(s: State): int {
    match s.cons
    case Ready => |s.queues| + 2
    case Taking(p, _) => |s.queues| - p + 1
    case _ => 0
  }

  ghost predicate OfConsumer(a: Action) {
    a.Begin? || a.Take? || a.Hand? || a.Subtract?
  }

  /** Once it is stopping the thread can go on until it has stopped, and without new metrics each of its
      steps brings it closer: there are fewer to hand over, or it is further in its pass. */
  lemma StoppingEnds(s: State, ok: bool)
    requires Reachable(s) && s.phase == Stopping
    ensures exists a: Action :: OfConsumer(a) && Enabled(s, a) && (a.Hand? ==> a.ok == ok)
    ensures forall a: Action :: OfConsumer(a) && Enabled(s, a) ==>
              var s' := Next(s, a);
              s'.phase == Stopped
              || (s'.phase == Stopping
                  && (Pending(s') < Pending(s) || (Pending(s') == Pending(s) && 0 <= StopStage(s') < StopStage(s))))
  {
    hide Reachable;
    ReachableInv(s);
    hide Ordered, Accounted, Quiet, HandedOver, Sum;
    StopCanGoOn(s, ok);
    hide Enabled;
    forall a: Action | OfConsumer(a) && Enabled(s, a)
      ensures var s' := Next(s, a);
              s'.phase == Stopped
              || (s'.phase == Stopping
                  && (Pending(s') < Pending(s) || (Pending(s') == Pending(s) && 0 <= StopStage(s') < StopStage(s))))
    {
      StopStep(s, a);
    }
  }

  lemma StopCanGoOn(s: State, ok: bool)
    requires Inv(s) && s.phase == Stopping
    ensures exists a: Action :: OfConsumer(a) && Enabled(s, a) && (a.Hand? ==> a.ok == ok)
  {
    hide Ordered, Accounted, Quiet, HandedOver;
    var a := match s.cons case Ready => Begin case Taking(_, _) => Take case Handing(_, _) => Hand(ok)
             case Subtracting(_, _) => Subtract;
    assert OfConsumer(a) && Enabled(s, a);
  }

  lemma StopStep(s: State, a: Action)
    requires Inv(s) && s.phase == Stopping && OfConsumer(a) && Enabled(s, a)
    ensures var s' := Next(s, a);
            s'.phase == Stopped
            || (s'.phase == Stopping
                && (Pending(s') < Pending(s) || (Pending(s') == Pending(s) && 0 <= StopStage(s') < StopStage(s))))
  {
    hide Ordered, Accounted, Quiet, HandedOver, Sum, D.Written;
    if a == Take {
      var p := s.cons.p;
      SumUpdate(s.queues, Size, p, s.queues[p][Min(|s.queues[p]|, D.BULK_COUNT - |s.cons.batch|)..]);
    }
  }
}
