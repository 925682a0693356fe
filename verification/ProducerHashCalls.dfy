/** What a call of `get_or_add_implicit_producer` comes to: it fails only where memory does, never once
    its thread has a producer, and left alone it ends with the thread in the newest table. */
module ProducerHashCalls {
  import opened ProducerHash
  import opened ProducerHashProof
  import opened ProducerHashSteps
  import opened ProducerHashRuns

  /** The call is going to return a null pointer. */
  ghost predicate Failing(pc: Pc) {
    pc.AllocFailed? || pc.AllocFailedUnlock? || pc.CreateFailed? || pc.Failed?
  }

  /** In this run the thread is refused memory for a table or a producer. */
  ghost predicate Refused(s: State, run: seq<Action>, t: Tid)
    decreases |run|
  {
    run != [] && Enabled(s, run[0]) && t < |s.pc|
    && ((run[0] == Run(t, false) && (s.pc[t].Alloc? || s.pc[t].Create?)) || Refused(Next(s, run[0]), run[1..], t))
  }

  lemma StepSucceeds(s: State, a: Action, t: Tid)
    requires Enabled(s, a) && t < |s.pc| && !Failing(s.pc[t])
    requires !(a == Run(t, false) && (s.pc[t].Alloc? || s.pc[t].Create?))
    ensures t < |Next(s, a).pc| && !Failing(Next(s, a).pc[t])
  {
    hide PcWf, SlotAt, WithSlot, NewCapacity, EmptyTable;
  }

  /** A call fails only if an allocation in one of its own steps has failed. */
  lemma {:induction false} FailsOnlyWithoutMemory(s: State, run: seq<Action>, s': State, t: Tid)
    requires Runs(s, run, s') && t < |s.pc| && !Failing(s.pc[t])
    requires t < |s'.pc| && Failing(s'.pc[t])
    ensures Refused(s, run, t)
    decreases |run|
  {
    hide Enabled, Failing, Next;
    if run != [] && !(run[0] == Run(t, false) && (s.pc[t].Alloc? || s.pc[t].Create?)) {
      StepSucceeds(s, run[0], t);
      FailsOnlyWithoutMemory(Next(s, run[0]), run[1..], s', t);
    }
  }

  /** A thread that has been given a producer never fails, nor does it make another. */
  lemma NeverFailsAgain(s: State, i: nat, t: Tid)
    requires Reachable(s) && i < |s.results| && s.results[i].0 == t
    ensures t < |s.pc| && !Failing(s.pc[t]) && !s.pc[t].Count? && !s.pc[t].Create?
    ensures s.pc[t].Done? ==> s.pc[t].producer == s.results[i].1
  {
    hide Inv, Reachable;
    var g := ReachableInv(s);
    TableParts(s, g);
    ThreadFacts(s, g, t);
    hide UsedRun, Avoids, Absent;
  }

  // ---------------------------------------------------------------- a call that runs alone

  ghost predicate Only(run: seq<Action>, t: Tid) {
    forall i :: 0 <= i < |run| ==> run[i] == Run(t, true)
  }

  /** How many tables there are after a call by a thread that was in the tables or not: a new thread
      whose count reaches half of the newest table's capacity brings a larger one. */
  ghost function Tables(s0: State, t: Tid): nat
    requires s0.main < |s0.tables|
  {
    |s0.tables| + if !InSome(s0.tables, t) && s0.count + 1 >= Capacity(s0.tables[s0.main]) / 2 then 1 else 0
  }

  /** Where a call that began at `s0` and runs alone can be. */
  ghost predicate Track(s0: State, s: State, t: Tid)
    requires s0.main < |s0.tables| && s.main < |s.tables| && t < |s.pc| == |s.hashed|
  {
    && s.lock == (s.pc[t].Locked? || s.pc[t].Alloc? || s.pc[t].Unlock?)
    && var half := Capacity(s.tables[s.main]) / 2;
       var before := s.tables == s0.tables && s.main == s0.main;
       match s.pc[t]
       case Start => before && s.count == s0.count
       case Probe(m, h, k) => before && s.count == s0.count && m == s.main
       case Count(m) => before && s.count == s0.count && m == s.main && !InSome(s0.tables, t)
       case TryLock(m, n) => before && m == s.main && !InSome(s0.tables, t) && n == s0.count + 1 >= half
       case Locked(n) => before && !InSome(s0.tables, t) && n == s0.count + 1 >= half
       case Alloc(m, n) => before && m == s.main && !InSome(s0.tables, t) && n == s0.count + 1 >= half
       case Unlock(m, n) => m == s.main && |s.tables| == Tables(s0, t) && n < half
       case Create(m, n) => m == s.main && |s.tables| == Tables(s0, t)
       case Put(m, _, _) => m == s.main && |s.tables| == Tables(s0, t)
       case PutCas(m, _, _) => m == s.main && |s.tables| == Tables(s0, t)
       case PutValue(m, _, _) => m == s.main && |s.tables| == Tables(s0, t)
       case Done(_) => Has(s.tables[s.main].slots, t) && |s.tables| == Tables(s0, t)
       case _ => false
  }

  ghost function Stage(pc: Pc): nat {
    match pc
    case Start => 10
    case Probe(_, _, _) => 9
    case Count(_) => 8
    case TryLock(_, _) => 7
    case Locked(_) => 6
    case Alloc(_, _) => 5
    case Unlock(_, _) => 4
    case Create(_, _) => 3
    case Put(_, _, _) => 2
    case PutCas(_, _, _) => 2
    case PutValue(_, _, _) => 1
    case _ => 0
  }

  ghost function Level(pc: Pc): nat {
    if pc.Probe? then pc.h else 0
  }

  /** The slots left to probe, twice. */
  ghost function Left(s: State, t: Tid): int
    requires t < |s.pc|
  {
    match s.pc[t]
    case Probe(_, h, k) => if h < |s.tables| then Capacity(s.tables[h]) - k else 0
    case Put(m, _, k) => if m < |s.tables| then 2 * (Capacity(s.tables[m]) - k) else 0
    case PutCas(m, _, k) => if m < |s.tables| then 2 * (Capacity(s.tables[m]) - k) - 1 else 0
    case _ => 0
  }

  ghost predicate Closer(s: State, s': State, t: Tid)
    requires t < |s.pc| && t < |s'.pc|
  {
    || Stage(s'.pc[t]) < Stage(s.pc[t])
    || (Stage(s'.pc[t]) == Stage(s.pc[t])
        && (Level(s'.pc[t]) < Level(s.pc[t]) || (Level(s'.pc[t]) == Level(s.pc[t]) && Left(s', t) < Left(s, t) && 0 < Left(s, t))))
  }

  /** What the slot probed says about where the thread is. */
  lemma ProbeFacts(s: State, g: Aux, t: Tid)
    requires Inv(s, g) && Wf(s) && t < |s.pc| && s.pc[t].Probe?
    ensures var h, k := s.pc[t].h, s.pc[t].k; var slot := SlotAt(s, t, h, k);
            && h < |s.tables| && h <= s.pc[t].main && k < Capacity(s.tables[h])
            && s.tables[h].prev == (if h == 0 then None else Some(h - 1))
            && (slot.key == Some(t) ==> Has(s.tables[h].slots, t) && InSome(s.tables, t))
            && (slot.key == None && h == 0 ==> !InSome(s.tables, t))
  {
    hide Inv, Has, UsedRun, Avoids, Entries, Homes, Ordered, Reported, Absent, EntryOk, Wf;
    ThreadFacts(s, g, t);
    var h, k := s.pc[t].h, s.pc[t].k;
    ProbeRoom(s, g, t, h, k);
    var slot := SlotAt(s, t, h, k);
    if slot.key == Some(t) {
      HasAt(s.tables[h].slots, t, Index(s.hashed[t], k, Capacity(s.tables[h])));
    } else if slot.key == None {
      TableEntries(s, g, h);
      EmptyEndsSearch(s.tables[h].slots, t, s.hashed, g, k);
      if h == 0 { NowhereElse(s.tables, t); }
    }
  }

  lemma TableEntries(s: State, g: Aux, j: nat)
    requires Inv(s, g) && j < |s.tables|
    ensures forall p :: 0 <= p < |s.tables[j].slots| && s.tables[j].slots[p].key.Some? ==>
              EntryOk(s.tables[j].slots, p, s.tables[j].slots[p].key.value, s.hashed, g)
  {
    hide Chained, Values, Homes, Ordered, Threads, Private, LockOk, Reported, EntryOk;
  }

  lemma ProbeCloser(s0: State, s: State, g: Aux, t: Tid)
    requires Inv(s, g) && Wf(s) && s0.main < |s0.tables| && t < |s.pc| && Track(s0, s, t) && s.pc[t].Probe?
    ensures var s' := Exec(s, t, true); Track(s0, s', t) && Closer(s, s', t)
  {
    hide Inv, Has, InSome, SlotAt, PcWf;
    ProbeFacts(s, g, t);
  }

  lemma HasAt(slots: seq<Slot>, t: Tid, p: nat)
    requires p < |slots| && slots[p].key == Some(t)
    ensures Has(slots, t)
  {
  }

  lemma NowhereElse(tables: seq<Table>, t: Tid)
    requires Absent(tables, 1, t) && |tables| > 0 && !Has(tables[0].slots, t)
    ensures !InSome(tables, t)
  {
    hide Has;
  }

  /** Counting, resizing and creating: with no other thread at work the larger table is there at once. */
  lemma InsertCloser(s0: State, s: State, g: Aux, t: Tid)
    requires Inv(s, g) && Wf(s) && s0.main < |s0.tables| && t < |s.pc| && Track(s0, s, t)
    requires s.pc[t].Start? || s.pc[t].Count? || s.pc[t].TryLock? || s.pc[t].Locked? || s.pc[t].Unlock? || s.pc[t].Create?
    ensures var s' := Exec(s, t, true); Track(s0, s', t) && Closer(s, s', t)
  {
    hide Inv, Has, Wf, InSome;
  }

  lemma AllocCloser(s0: State, s: State, g: Aux, t: Tid)
    requires Inv(s, g) && Wf(s) && s0.main < |s0.tables| && t < |s.pc| && Track(s0, s, t) && s.pc[t].Alloc?
    ensures var s' := Exec(s, t, true); Track(s0, s', t) && Closer(s, s', t)
  {
    MainCapacity(s, g);
    hide Inv, Has, Wf, InSome;
    NewCapacityGrows(Capacity(s.tables[s.main]) * 2, s.pc[t].n);
  }

  lemma PutCloser(s0: State, s: State, g: Aux, t: Tid)
    requires Inv(s, g) && Wf(s) && s0.main < |s0.tables| && t < |s.pc| && Track(s0, s, t)
    requires s.pc[t].Put? || s.pc[t].PutCas?
    ensures var s' := Exec(s, t, true); Track(s0, s', t) && Closer(s, s', t)
  {
    hide Inv, Has, InSome, SlotAt, WithSlot, PcWf;
    PutRoom(s, g, t);
  }

  lemma PutRoom(s: State, g: Aux, t: Tid)
    requires Inv(s, g) && Wf(s) && t < |s.pc| && (s.pc[t].Put? || s.pc[t].PutCas?)
    ensures s.pc[t].main < |s.tables| && s.pc[t].k < Capacity(s.tables[s.pc[t].main])
    ensures |WithSlot(s, t, s.pc[t].main, s.pc[t].k, SlotAt(s, t, s.pc[t].main, s.pc[t].k).(key := Some(t)))| == |s.tables|
    ensures forall j :: 0 <= j < |s.tables| ==>
              Capacity(WithSlot(s, t, s.pc[t].main, s.pc[t].k, SlotAt(s, t, s.pc[t].main, s.pc[t].k).(key := Some(t)))[j])
              == Capacity(s.tables[j])
  {
    hide Inv, UsedRun, Absent, Chained, Wf;
    ThreadFacts(s, g, t);
    ProbeRoom(s, g, t, s.pc[t].main, s.pc[t].k);
  }

  lemma StoreCloser(s0: State, s: State, g: Aux, t: Tid)
    requires Inv(s, g) && Wf(s) && s0.main < |s0.tables| && t < |s.pc| && Track(s0, s, t) && s.pc[t].PutValue?
    ensures var s' := Exec(s, t, true); Track(s0, s', t) && Closer(s, s', t)
  {
    ThreadFacts(s, g, t);
    var m, k := s.pc[t].main, s.pc[t].k;
    var slots' := Exec(s, t, true).tables[m].slots;
    HasAt(slots', t, Index(s.hashed[t], k, Capacity(s.tables[m])));
    hide Inv, Has, Wf, InSome, Chained;
  }

  lemma Underway(s0: State, s: State, t: Tid)
    requires s0.main < |s0.tables| && s.main < |s.tables| && t < |s.pc| == |s.hashed| && Track(s0, s, t) && !s.pc[t].Done?
    ensures s.pc[t].Start? || s.pc[t].Probe? || s.pc[t].Count? || s.pc[t].TryLock? || s.pc[t].Locked? || s.pc[t].Alloc?
            || s.pc[t].Unlock? || s.pc[t].Create? || s.pc[t].Put? || s.pc[t].PutCas? || s.pc[t].PutValue?
  {
    hide InSome;
  }

  lemma LoneStep(s0: State, s: State, g: Aux, t: Tid)
    requires Inv(s, g) && Wf(s) && s0.main < |s0.tables| && t < |s.pc| && Track(s0, s, t) && !s.pc[t].Done?
    ensures Enabled(s, Run(t, true)) && Inv(Exec(s, t, true), NextAux(s, g, Run(t, true)))
    ensures Track(s0, Exec(s, t, true), t) && Closer(s, Exec(s, t, true), t)
  {
    Underway(s0, s, t);
    hide Inv, Exec, NextAux, Track, Closer;
    assert Enabled(s, Run(t, true));
    hide Wf;
    RunKeepsInv(s, g, t, true);
    match s.pc[t]
    case Probe(_, _, _) => ProbeCloser(s0, s, g, t);
    case Alloc(_, _) => AllocCloser(s0, s, g, t);
    case Put(_, _, _) => PutCloser(s0, s, g, t);
    case PutCas(_, _, _) => PutCloser(s0, s, g, t);
    case PutValue(_, _, _) => StoreCloser(s0, s, g, t);
    case _ => InsertCloser(s0, s, g, t);
  }

  lemma {:induction false} LoneSteps(s0: State, s: State, g: Aux, t: Tid) returns (run: seq<Action>, s': State)
    requires Inv(s, g) && s0.main < |s0.tables| && s.main < |s.tables| && t < |s.pc| == |s.hashed| && Track(s0, s, t)
    ensures Runs(s, run, s') && Only(run, t) && t < |s'.pc| == |s'.hashed| && s'.main < |s'.tables|
    ensures s'.pc[t].Done? && Track(s0, s', t)
    decreases Stage(s.pc[t]), Level(s.pc[t]), Left(s, t)
  {
    hide Inv, Track, Wf, Exec, Enabled, NextAux, Left, Level, Stage;
    if s.pc[t].Done? {
      run, s' := [], s;
    } else {
      InvIsWf(s, g);
      LoneStep(s0, s, g, t);
      InvIsWf(Exec(s, t, true), NextAux(s, g, Run(t, true)));
      StepShape(s, t, Exec(s, t, true));
      var rest, last := LoneSteps(s0, Exec(s, t, true), NextAux(s, g, Run(t, true)), t);
      run, s' := [Run(t, true)] + rest, last;
      assert run[1..] == rest;
    }
  }

  lemma StepShape(s: State, t: Tid, s': State)
    requires Enabled(s, Run(t, true)) && s' == Exec(s, t, true) && Wf(s')
    ensures Next(s, Run(t, true)) == s' && |s'.pc| == |s.pc| == |s'.hashed| && s'.main < |s'.tables|
  {
    hide PcWf;
  }

  /** A call that runs alone and is given the memory it asks for ends with a producer, the thread is in
      the newest table then, and a larger table has been made exactly if the thread is new and its
      count has reached half of the newest table's capacity. */
  lemma LoneCall(s: State, t: Tid) returns (run: seq<Action>, s': State)
    requires Reachable(s) && t < |s.pc| && s.pc[t] == Idle && !s.lock
    ensures Wf(s) && Runs(s, [Call(t)] + run, s') && Only(run, t)
    ensures t < |s'.pc| && s'.pc[t].Done? && s'.main < |s'.tables| && Has(s'.tables[s'.main].slots, t)
    ensures |s'.tables| == Tables(s, t)
  {
    hide Inv, Reachable;
    var g := ReachableInv(s);
    InvIsWf(s, g);
    var s1 := Next(s, Call(t));
    StepKeepsInv(s, g, Call(t));
    hide NextAux;
    assert Track(s1, s1, t);
    var s2;
    run, s2 := LoneSteps(s1, s1, NextAux(s, g, Call(t)), t);
    s' := s2;
    assert ([Call(t)] + run)[1..] == run;
    assert Tables(s1, t) == Tables(s, t);
    hide InSome, Has, Wf;
  }
}
