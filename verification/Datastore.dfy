/** The datastore's own thread, run by itself: it drains the queue in batches, hands every metric to the
    database of its name, and keeps count of the backlog. The machine with producers beside it is
    in DatastoreRuns.

    A database is the log of what was handed to it; whether one can be created is given. */
module Datastore {
  import opened Counting
  import opened Metric
  import Q = TokenBulk

  const BULK_COUNT: nat := 10
  const SIZE_RANGE: int := 0x1_0000_0000_0000_0000

  type Size = n: int | 0 <= n < SIZE_RANGE

  /** The databases by name, and those whose handles are cached. */
  datatype Disk = Disk(logs: map<string, seq<Metric>>, cached: set<string>)

  // ---------------------------------------------------------------- the specification

  function Log(d: Disk, name: string): seq<Metric> {
    if name in d.logs then d.logs[name] else []
  }

  function Written(d: Disk, m: Metric): Disk {
    d.(logs := d.logs[m.name := Log(d, m.name) + [m]])
  }

  predicate CanCreate(creatable: set<string>, name: string) {
    name != "" && name in creatable
  }

  /** A metric goes to the database of its name, which is created when it is first needed; if that
      fails the metric is dropped. */
  function Handed(d: Disk, creatable: set<string>, m: Metric): Disk {
    if m.name in d.cached then Written(d, m)
    else if CanCreate(creatable, m.name) then Written(d.(cached := d.cached + {m.name}), m)
    else d
  }

  function HandedAll(d: Disk, creatable: set<string>, ms: seq<Metric>): Disk {
    if ms == [] then d else Handed(HandedAll(d, creatable, ms[..|ms| - 1]), creatable, ms[|ms| - 1])
  }

  /** The order in which batches of at most `BULK_COUNT` take everything. */
  ghost function Rounds(qs: seq<seq<Metric>>): seq<Metric>
    decreases Q.Total(qs)
  {
    if qs == [] || Q.Total(qs) == 0 then []
    else
      var r := Q.DrainAll(qs, 0, BULK_COUNT);
      RoundShrinks(qs);
      r.0 + Rounds(r.1)
  }

  lemma RoundShrinks(qs: seq<seq<Metric>>)
    requires qs != []
    ensures var (taken, left) := Q.DrainAll(qs, 0, BULK_COUNT);
            |taken| == Min(BULK_COUNT, Q.Total(qs)) && Q.Total(left) == Q.Total(qs) - |taken| && |left| == |qs|
  {
    Q.RoundTakesAll(qs, 0, BULK_COUNT);
    Q.DrainConserves(qs, 0, |qs|, BULK_COUNT);
  }

  // ---------------------------------------------------------------- the program

  class Datastore {
    const queue: Q.ConcurrentQueue
    var queueSize: Size
    var disk: Disk

    constructor (queue: Q.ConcurrentQueue, disk: Disk)
      ensures this.queue == queue && this.disk == disk && queueSize == 0
    {
      this.queue := queue;
      this.disk := disk;
      queueSize := 0;
    }

    /** By the thread that owns sub-queue `p`; `ok` says whether the enqueue could allocate. */
    method QueueMetric(p: nat, m: Metric, ok: bool)
      requires p < |queue.queues|
      modifies queue`queues, this`queueSize
      ensures queue.queues == if ok then old(queue.queues)[p := old(queue.queues)[p] + [m]] else old(queue.queues)
      ensures queueSize == if ok then (old(queueSize) + 1) % SIZE_RANGE else old(queueSize)
    {
      if ok {
        queue.queues := queue.queues[p := queue.queues[p] + [m]];
        queueSize := (queueSize + 1) % SIZE_RANGE;
      }
    }

    method Hand(m: Metric, creatable: set<string>)
      modifies this`disk
      ensures disk == Handed(old(disk), creatable, m)
    {
      if m.name in disk.cached {
        disk := Written(disk, m);
      } else if CanCreate(creatable, m.name) {
        disk := disk.(cached := disk.cached + {m.name});
        disk := Written(disk, m);
      }
    }

    /** The loop over one batch. */
    method HandBatch(m: array<Metric>, count: nat, creatable: set<string>, counting: bool)
      requires count <= m.Length
      modifies this`disk, this`queueSize
      ensures disk == HandedAll(old(disk), creatable, m[..count])
      ensures queueSize == if counting then (old(queueSize) - count) % SIZE_RANGE else old(queueSize)
    {
      var i := 0;
      while i < count
        invariant i <= count && disk == HandedAll(old(disk), creatable, m[..i])
        invariant queueSize == if counting then (old(queueSize) - i) % SIZE_RANGE else old(queueSize)
      {
        HandedOneMore(old(disk), creatable, m[..i], m[i]);
        assert m[..i + 1] == m[..i] + [m[i]];
        Hand(m[i], creatable);
        if counting {
          SizeSum(old(queueSize) - i, -1);
          queueSize := (queueSize - 1) % SIZE_RANGE;
        }
        i := i + 1;
      }
    }

    /** The loops of `Process` and of `Stop`; only the first counts the backlog down. */
    method Drain(creatable: set<string>, counting: bool)
      requires queue.queues != []
      modifies queue`queues, this`disk, this`queueSize
      ensures |queue.queues| == |old(queue.queues)| && Q.Total(queue.queues) == 0
      ensures disk == HandedAll(old(disk), creatable, Rounds(old(queue.queues)))
      ensures queueSize == if counting then (old(queueSize) - Q.Total(old(queue.queues))) % SIZE_RANGE else old(queueSize)
    {
      hide Q.DrainAll, Q.Total, HandedAll, Rounds;
      var m := new Metric[BULK_COUNT];
      ghost var done: seq<Metric> := [];
      ghost var pending := queue.queues;
      RoundShrinks(pending);
      HandedNone(disk, creatable);
      assert done + Rounds(pending) == Rounds(pending);
      var count: nat := queue.TryDequeueBulk(m, BULK_COUNT);
      while count > 0
        invariant pending != [] && |pending| == |old(queue.queues)|
        invariant count <= m.Length == BULK_COUNT && fresh(m)
        invariant (m[..count], queue.queues) == Q.DrainAll(pending, 0, BULK_COUNT)
        invariant |queue.queues| == |pending| && count == Min(BULK_COUNT, Q.Total(pending))
        invariant Q.Total(queue.queues) == Q.Total(pending) - count
        invariant done + Rounds(pending) == Rounds(old(queue.queues))
        invariant Q.Total(old(queue.queues)) == |done| + Q.Total(pending)
        invariant disk == HandedAll(old(disk), creatable, done)
        invariant queueSize == if counting then (old(queueSize) - |done|) % SIZE_RANGE else old(queueSize)
        decreases Q.Total(pending)
      {
        RoundsStep(pending);
        HandedMore(old(disk), creatable, done, m[..count]);
        SizeSum(old(queueSize) - |done|, -(count as int));
        HandBatch(m, count, creatable, counting);
        assert done + (m[..count] + Rounds(queue.queues)) == done + m[..count] + Rounds(queue.queues);
        done := done + m[..count];
        pending := queue.queues;
        count := queue.TryDequeueBulk(m, BULK_COUNT);
        RoundShrinks(pending);
      }
      RoundsEnd(pending);
      assert done + [] == done;
    }

    /** One turn of the datastore's thread: the backlog reported, everything written, and then the
        statistics queued like any other metrics. */
    method Process(creatable: set<string>, own: nat, internal: seq<Metric>) returns (backlog: Size)
      requires own < |queue.queues|
      modifies queue`queues, this`disk, this`queueSize
      ensures backlog == old(queueSize)
      ensures disk == HandedAll(old(disk), creatable, Rounds(old(queue.queues)))
      ensures |queue.queues| == |old(queue.queues)| && queue.queues[own] == internal
      ensures forall p :: 0 <= p < |queue.queues| && p != own ==> queue.queues[p] == []
      ensures queueSize == (old(queueSize) - Q.Total(old(queue.queues)) + |internal|) % SIZE_RANGE
    {
      hide HandedAll, Rounds, Q.Total;
      backlog := queueSize;
      Drain(creatable, true);
      NothingLeft(queue.queues);
      ghost var drained := queueSize;
      SizeSum(old(queueSize) - Q.Total(old(queue.queues)), |internal|);
      var i := 0;
      while i < |internal|
        invariant i <= |internal| && |queue.queues| == |old(queue.queues)|
        invariant queue.queues[own] == internal[..i]
        invariant forall p :: 0 <= p < |queue.queues| && p != own ==> queue.queues[p] == []
        invariant queueSize == (drained + i) % SIZE_RANGE
        invariant disk == HandedAll(old(disk), creatable, Rounds(old(queue.queues)))
      {
        assert internal[..i + 1] == internal[..i] + [internal[i]];
        SizeSum(drained + i, 1);
        QueueMetric(own, internal[i], true);
        i := i + 1;
      }
    }

    method Stop(creatable: set<string>)
      requires queue.queues != []
      modifies queue`queues, this`disk, this`queueSize
      ensures disk.logs == HandedAll(old(disk), creatable, Rounds(old(queue.queues))).logs && disk.cached == {}
      ensures forall p :: 0 <= p < |queue.queues| ==> queue.queues[p] == []
    {
      Drain(creatable, false);
      NothingLeft(queue.queues);
      disk := disk.(cached := {});
    }
  }

  lemma HandedOneMore(d: Disk, creatable: set<string>, done: seq<Metric>, m: Metric)
    ensures HandedAll(d, creatable, done + [m]) == Handed(HandedAll(d, creatable, done), creatable, m)
  {
    assert (done + [m])[..|done|] == done;
  }

  lemma HandedNone(d: Disk, creatable: set<string>)
    ensures HandedAll(d, creatable, []) == d
  {
  }

  lemma {:induction false} HandedMore(d: Disk, creatable: set<string>, a: seq<Metric>, b: seq<Metric>)
    ensures HandedAll(d, creatable, a + b) == HandedAll(HandedAll(d, creatable, a), creatable, b)
    decreases |b|
  {
    if b == [] {
      assert a + b == a;
    } else {
      var n := |b| - 1;
      assert (a + b)[..|a + b| - 1] == a + b[..n];
      HandedMore(d, creatable, a, b[..n]);
    }
  }

  lemma SizeSum(a: int, b: int)
    ensures (a % SIZE_RANGE + b) % SIZE_RANGE == (a + b) % SIZE_RANGE
  {
  }

  lemma RoundsStep(qs: seq<seq<Metric>>)
    requires qs != []
    ensures Q.Total(qs) > 0 ==> Rounds(qs) == Q.DrainAll(qs, 0, BULK_COUNT).0 + Rounds(Q.DrainAll(qs, 0, BULK_COUNT).1)
  {
  }

  lemma RoundsEnd(qs: seq<seq<Metric>>)
    requires Q.Total(qs) == 0
    ensures Rounds(qs) == []
  {
  }

  lemma NothingLeft(qs: seq<seq<Metric>>)
    requires Q.Total(qs) == 0
    ensures forall p :: 0 <= p < |qs| ==> qs[p] == []
  {
    forall p | 0 <= p < |qs| ensures qs[p] == [] { Q.SizeAtMostTotal(qs, p); }
  }

  // ---------------------------------------------------------------- what the store gets

  function Named(ms: seq<Metric>, name: string): seq<Metric> {
    if ms == [] then []
    else Named(ms[..|ms| - 1], name) + if ms[|ms| - 1].name == name then [ms[|ms| - 1]] else []
  }

  /** A name whose metrics have a database to go to. */
  predicate HasDatabase(d: Disk, creatable: set<string>, name: string) {
    name in d.cached || CanCreate(creatable, name)
  }

  /** Every metric is written once, to the database of its own name, in order, unless that database
      could not be created; then none of that name is, and no other log is touched. */
  lemma {:induction false} LogsGetTheirOwn(d: Disk, creatable: set<string>, ms: seq<Metric>, name: string)
    ensures Log(HandedAll(d, creatable, ms), name)
            == Log(d, name) + if HasDatabase(d, creatable, name) then Named(ms, name) else []
    ensures HasDatabase(HandedAll(d, creatable, ms), creatable, name) == HasDatabase(d, creatable, name)
    ensures name in HandedAll(d, creatable, ms).cached
            <==> name in d.cached || (CanCreate(creatable, name) && Named(ms, name) != [])
    decreases |ms|
  {
    if ms != [] {
      LogsGetTheirOwn(d, creatable, ms[..|ms| - 1], name);
    }
  }

  /** A database is there if its handle is cached, or for any name that is not empty if it can be created:
      then its log grows by all metrics of its name, in order. Otherwise it does not change. */
  lemma LogGrows(d: Disk, creatable: set<string>, ms: seq<Metric>, name: string)
    ensures name in d.cached || (name != "" && name in creatable) ==>
              Log(HandedAll(d, creatable, ms), name) == Log(d, name) + Named(ms, name)
    ensures name !in d.cached && (name == "" || name !in creatable) ==>
              Log(HandedAll(d, creatable, ms), name) == Log(d, name)
  {
    LogsGetTheirOwn(d, creatable, ms, name);
    hide HandedAll, Log;
  }

  lemma {:induction false} RoundsTakeAll(qs: seq<seq<Metric>>)
    ensures |Rounds(qs)| == Q.Total(qs)
    decreases Q.Total(qs)
  {
    if qs == [] {
    } else if Q.Total(qs) > 0 {
      RoundShrinks(qs);
      RoundsTakeAll(Q.DrainAll(qs, 0, BULK_COUNT).1);
    }
  }
}
