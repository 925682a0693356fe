/** What holds in every run of the producer hash, with any number of threads, tables and failed
    allocations. */
module ProducerHashRuns {
  import opened ProducerHash
  import opened ProducerHashProof
  import opened ProducerHashSteps

  // ---------------------------------------------------------------- counting in

  ghost function CountAux(g: Aux, t: Tid, n: int): Aux {
    g.(order := g.order + [t], nc := g.nc[t := n])
  }

  lemma CountEntries(s: State, g: Aux, t: Tid, n: int)
    requires Entries(s.tables, s.hashed, g) && t !in g.owner
    ensures Entries(s.tables, s.hashed, CountAux(g, t, n))
  {
    hide UsedRun, Index, Distance, Limit;
    forall j, p | 0 <= j < |s.tables| && 0 <= p < |s.tables[j].slots| && s.tables[j].slots[p].key.Some?
      ensures EntryOk(s.tables[j].slots, p, s.tables[j].slots[p].key.value, s.hashed, CountAux(g, t, n))
    {
      assert EntryOk(s.tables[j].slots, p, s.tables[j].slots[p].key.value, s.hashed, g);
    }
    hide EntryOk;
  }

  lemma CountFacts(s: State, g: Aux, t: Tid, ok: bool)
    requires Wf(s) && t < |s.pc| && s.pc[t].Count? && PcOk(s.tables, s.hashed[t], g, t, s.pc[t]) && Ordered(g, s.count)
    ensures s.pc[t].main < |s.tables|
    ensures var p, g' := LoopHead(s.tables, s.pc[t].main, s.count + 1), CountAux(g, t, s.count + 1);
            && Exec(s, t, ok) == s.(count := s.count + 1, pc := s.pc[t := p])
            && PcOk(s.tables, s.hashed[t], g', t, p) && AuxStep(g, g', t) && Ordered(g', s.count + 1)
            && Holding(p, g.owner, t) == None == Holding(s.pc[t], g.owner, t) && LockStep(s.lock, s.lock, s.main, s.pc[t], p)
            && !s.pc[t].PutValue? && t !in g.owner
  {
    hide PcWf;
  }

  lemma ValuesMove(tables: seq<Table>, pc: seq<Pc>, owner: map<Tid, Producer>, t: Tid, p: Pc)
    requires Values(tables, pc, owner) && t < |pc| && !pc[t].PutValue?
    ensures Values(tables, pc[t := p], owner)
  {
    forall j, q | 0 <= j < |tables| && 0 <= q < |tables[j].slots| && tables[j].slots[q].key.Some?
      ensures ValueOk(tables[j].slots[q], j, pc[t := p], owner)
    {
      assert ValueOk(tables[j].slots[q], j, pc, owner);
    }
  }

  lemma TablesSame(tables: seq<Table>, t: Tid)
    ensures KeyStep(tables, tables, t)
  {
  }

  lemma CountKeeps(s: State, g: Aux, t: Tid, ok: bool)
    requires Inv(s, g) && Wf(s) && t < |s.pc| && s.pc[t].Count?
    ensures Inv(Exec(s, t, ok), CountAux(g, t, s.count + 1))
  {
    hide Chained, Entries, Values, Homes, Ordered, Threads, Private, LockOk, Reported, PcOk, LoopHead, Exec, Wf, AuxStep, KeyStep,
         Holding, LockStep;
    ThreadFacts(s, g, t);
    CountFacts(s, g, t, ok);
    var p := LoopHead(s.tables, s.pc[t].main, s.count + 1);
    CountEntries(s, g, t, s.count + 1);
    ValuesMove(s.tables, s.pc, g.owner, t, p);
    PrivateMoves(s.pc, g.owner, s.made, t, p);
    TablesSame(s.tables, t);
    ThreadsKept(s, g, t, s.tables, CountAux(g, t, s.count + 1), p);
    LockMoves(s.lock, s.lock, s.main, s.pc, t, p);
    HomesOnly(s.tables, g, CountAux(g, t, s.count + 1));
  }

  lemma HomesOnly(tables: seq<Table>, g: Aux, g': Aux)
    requires Homes(tables, g) && g'.owner == g.owner && g'.home == g.home
    ensures Homes(tables, g')
  {
  }

  // ---------------------------------------------------------------- giving up

  ghost function GiveUpAux(g: Aux, t: Tid): Aux {
    if t in g.order then g.(order := g.order[..Position(g.order, t)] + g.order[Position(g.order, t) + 1..]) else g
  }

  lemma GiveUpOrder(g: Aux, t: Tid, count: int)
    requires Ordered(g, count) && t in g.order
    ensures Ordered(GiveUpAux(g, t), count - 1)
    ensures t !in GiveUpAux(g, t).order
    ensures AuxStep(g, GiveUpAux(g, t), t)
  {
    var i := Position(g.order, t);
    var order' := GiveUpAux(g, t).order;
    assert forall k :: 0 <= k < |order'| ==> order'[k] == if k < i then g.order[k] else g.order[k + 1];
    forall u | u != t ensures u in order' <==> u in g.order {
      if u in g.order {
        var k := Position(g.order, u);
        assert order'[if k < i then k else k - 1] == u;
      }
    }
  }

  lemma GiveUpEntries(s: State, g: Aux, t: Tid)
    requires Entries(s.tables, s.hashed, g) && t !in g.owner && AuxStep(g, GiveUpAux(g, t), t)
    ensures Entries(s.tables, s.hashed, GiveUpAux(g, t))
  {
    hide UsedRun, Index, Distance, Limit, GiveUpAux;
    forall j, p | 0 <= j < |s.tables| && 0 <= p < |s.tables[j].slots| && s.tables[j].slots[p].key.Some?
      ensures EntryOk(s.tables[j].slots, p, s.tables[j].slots[p].key.value, s.hashed, GiveUpAux(g, t))
    {
      assert EntryOk(s.tables[j].slots, p, s.tables[j].slots[p].key.value, s.hashed, g);
    }
    hide EntryOk;
  }

  lemma GiveUpFacts(s: State, g: Aux, t: Tid, ok: bool)
    requires Wf(s) && t < |s.pc| && (s.pc[t].AllocFailed? || s.pc[t].CreateFailed?)
    requires PcOk(s.tables, s.hashed[t], g, t, s.pc[t])
    requires Resizing(s.pc[t]) ==> s.lock
    ensures t in g.order && t !in g.owner
    ensures var p := if s.pc[t].AllocFailed? then AllocFailedUnlock else Failed;
            && Exec(s, t, ok) == s.(count := s.count - 1, pc := s.pc[t := p])
            && (t !in GiveUpAux(g, t).order ==> PcOk(s.tables, s.hashed[t], GiveUpAux(g, t), t, p))
            && Holding(p, g.owner, t) == None == Holding(s.pc[t], g.owner, t) && LockStep(s.lock, s.lock, s.main, s.pc[t], p)
  {
    hide PcWf;
  }

  lemma GiveUpSame(g: Aux, t: Tid)
    ensures GiveUpAux(g, t).owner == g.owner && GiveUpAux(g, t).home == g.home
  {
  }

  lemma GiveUpKeeps(s: State, g: Aux, t: Tid, ok: bool)
    requires Inv(s, g) && Wf(s) && t < |s.pc| && (s.pc[t].AllocFailed? || s.pc[t].CreateFailed?)
    ensures Inv(Exec(s, t, ok), GiveUpAux(g, t))
  {
    hide Chained, Entries, Values, Homes, Ordered, Threads, Private, LockOk, Reported, PcOk, Exec, Wf, AuxStep, KeyStep,
         Holding, LockStep, GiveUpAux;
    ThreadFacts(s, g, t);
    LockFacts(s, g, t);
    GiveUpFacts(s, g, t, ok);
    GiveUpOrder(g, t, s.count);
    GiveUpEntries(s, g, t);
    GiveUpSame(g, t);
    var p := if s.pc[t].AllocFailed? then AllocFailedUnlock else Failed;
    ValuesMove(s.tables, s.pc, g.owner, t, p);
    PrivateMoves(s.pc, g.owner, s.made, t, p);
    TablesSame(s.tables, t);
    ThreadsKept(s, g, t, s.tables, GiveUpAux(g, t), p);
    LockMoves(s.lock, s.lock, s.main, s.pc, t, p);
    HomesOnly(s.tables, g, GiveUpAux(g, t));
  }

  // ---------------------------------------------------------------- a new producer

  lemma CreateFacts(s: State, g: Aux, t: Tid)
    requires Wf(s) && t < |s.pc| && s.pc[t].Create? && PcOk(s.tables, s.hashed[t], g, t, s.pc[t])
    requires Entries(s.tables, s.hashed, g) && Private(s.pc, g.owner, s.made) && LockOk(s.lock, s.main, s.pc)
    ensures var p := Put(s.pc[t].main, s.made, 0);
            && Exec(s, t, true) == s.(made := s.made + 1, pc := s.pc[t := p])
            && PcOk(s.tables, s.hashed[t], g, t, p)
            && Private(s.pc[t := p], g.owner, s.made + 1) && LockOk(s.lock, s.main, s.pc[t := p])
            && !s.pc[t].PutValue?
  {
    hide PcWf;
    var p := Put(s.pc[t].main, s.made, 0);
    NotOwned(s, g, t);
    forall u | 0 <= u < |s.pc| && u != t ensures Holding(s.pc[t := p][u], g.owner, u) == Holding(s.pc[u], g.owner, u) {}
    hide Has, EntryOk;
  }

  lemma NotOwned(s: State, g: Aux, t: Tid)
    requires Entries(s.tables, s.hashed, g) && t !in g.owner
    ensures Absent(s.tables, 0, t)
  {
    forall j | 0 <= j < |s.tables| ensures !Has(s.tables[j].slots, t) {
      forall p | 0 <= p < |s.tables[j].slots| && s.tables[j].slots[p].key.Some?
        ensures s.tables[j].slots[p].key.value in g.owner
      {
        assert EntryOk(s.tables[j].slots, p, s.tables[j].slots[p].key.value, s.hashed, g);
      }
    }
  }

  lemma CreateKeeps(s: State, g: Aux, t: Tid)
    requires Inv(s, g) && Wf(s) && t < |s.pc| && s.pc[t].Create?
    ensures Inv(Exec(s, t, true), g)
  {
    hide Chained, Entries, Values, Homes, Ordered, Threads, Private, LockOk, Reported, PcOk, Exec, Wf, AuxStep, KeyStep;
    ThreadFacts(s, g, t);
    CreateFacts(s, g, t);
    var p := Put(s.pc[t].main, s.made, 0);
    ValuesMove(s.tables, s.pc, g.owner, t, p);
    TablesSame(s.tables, t);
    AuxSame(g, t);
    ThreadsKept(s, g, t, s.tables, g, p);
  }

  // ---------------------------------------------------------------- a larger table

  lemma {:induction false} NewCapacityGrows(capacity: nat, n: int)
    requires capacity > 0 && Pow2(capacity)
    ensures NewCapacity(capacity, n) >= capacity && Pow2(NewCapacity(capacity, n)) && n < NewCapacity(capacity, n) / 2
    decreases n - capacity / 2 + 1
  {
    if n >= capacity / 2 {
      assert capacity * 2 / 2 == capacity;
      NewCapacityGrows(capacity * 2, n);
    }
  }

  ghost function Extended(tables: seq<Table>, capacity: nat, m: nat): seq<Table> {
    tables + [EmptyTable(capacity, m)]
  }

  lemma ExtendStep(tables: seq<Table>, capacity: nat, main: nat, t: Tid)
    requires Chained(tables, main) && capacity >= Capacity(tables[main]) && Pow2(capacity)
    ensures KeyStep(tables, Extended(tables, capacity, main), t)
    ensures Chained(Extended(tables, capacity, main), |tables|)
  {
    hide Pow2;
  }

  lemma ExtendSlots(s: State, g: Aux, capacity: nat, m: nat)
    requires Entries(s.tables, s.hashed, g) && Values(s.tables, s.pc, g.owner)
    ensures Entries(Extended(s.tables, capacity, m), s.hashed, g)
    ensures Values(Extended(s.tables, capacity, m), s.pc, g.owner)
  {
    hide EntryOk, ValueOk;
  }

  lemma AllocFacts(s: State, g: Aux, t: Tid)
    requires Wf(s) && t < |s.pc| && s.pc[t].Alloc? && LockOk(s.lock, s.main, s.pc)
    requires PcOk(s.tables, s.hashed[t], g, t, s.pc[t])
    ensures var capacity := NewCapacity(Capacity(s.tables[s.main]) * 2, s.pc[t].n);
            var tables', p := Extended(s.tables, capacity, s.main), Unlock(|s.tables|, s.pc[t].n);
            && Exec(s, t, true) == s.(tables := tables', main := |s.tables|, pc := s.pc[t := p])
            && PcOk(tables', s.hashed[t], g, t, p)
            && Holding(p, g.owner, t) == Holding(s.pc[t], g.owner, t) == None
            && LockOk(s.lock, |s.tables|, s.pc[t := p])
  {
    hide PcWf, NewCapacity;
  }

  lemma AllocKeeps(s: State, g: Aux, t: Tid)
    requires Inv(s, g) && Wf(s) && t < |s.pc| && s.pc[t].Alloc?
    ensures Inv(Exec(s, t, true), g)
  {
    hide Entries, Values, Homes, Ordered, Threads, Private, LockOk, Reported, PcOk, Exec, Wf, AuxStep, KeyStep, Extended,
         Holding, NewCapacity, Pow2;
    ThreadFacts(s, g, t);
    AllocFacts(s, g, t);
    MainCapacity(s, g);
    var capacity := NewCapacity(Capacity(s.tables[s.main]) * 2, s.pc[t].n);
    NewCapacityGrows(Capacity(s.tables[s.main]) * 2, s.pc[t].n);
    var tables', p := Extended(s.tables, capacity, s.main), Unlock(|s.tables|, s.pc[t].n);
    ExtendStep(s.tables, capacity, s.main, t);
    ExtendSlots(s, g, capacity, s.main);
    ValuesMove(tables', s.pc, g.owner, t, p);
    PrivateMoves(s.pc, g.owner, s.made, t, p);
    AuxSame(g, t);
    HomesKept(s.tables, tables', t, g);
    ThreadsKept(s, g, t, tables', g, p);
  }

  lemma MainCapacity(s: State, g: Aux)
    requires Inv(s, g)
    ensures s.main < |s.tables| && Capacity(s.tables[s.main]) > 0 && Pow2(Capacity(s.tables[s.main]) * 2)
  {
    hide Entries, Values, Homes, Ordered, Threads, Private, LockOk, Reported;
    assert Capacity(s.tables[s.main]) * 2 / 2 == Capacity(s.tables[s.main]);
  }

  // ---------------------------------------------------------------- runs

  ghost function NextAux(s: State, g: Aux, a: Action): Aux
    requires Enabled(s, a)
  {
    if !a.Run? then g else
      match s.pc[a.t]
      case PutCas(m, v, k) => if SlotAt(s, a.t, m, k).key == None then ClaimAux(g, a.t, m, v) else g
      case Count(_) => CountAux(g, a.t, s.count + 1)
      case AllocFailed => GiveUpAux(g, a.t)
      case CreateFailed => GiveUpAux(g, a.t)
      case _ => g
  }

  ghost predicate Searching(pc: Pc) {
    pc.Start? || pc.Probe? || pc.Put? || pc.PutCas? || pc.PutValue?
  }

  lemma SearchKeepsInv(s: State, g: Aux, t: Tid, ok: bool)
    requires Inv(s, g) && Wf(s) && t < |s.pc| && Searching(s.pc[t])
    ensures Inv(Exec(s, t, ok), NextAux(s, g, Run(t, ok)))
  {
    PutOutcome(s, t, ok);
    hide Inv, Wf, Exec, ClaimAux;
    match s.pc[t]
    case Start => StartKeeps(s, g, t, ok);
    case Probe(_, _, _) => ProbeKeeps(s, g, t, ok);
    case Put(_, _, _) => PutOnKeeps(s, g, t, ok);
    case PutCas(m, _, k) => if SlotAt(s, t, m, k).key == None { ClaimKeeps(s, g, t, ok); } else { PutOnKeeps(s, g, t, ok); }
    case PutValue(_, _, _) => StoreKeeps(s, g, t, ok);
  }

  lemma RunKeepsInv(s: State, g: Aux, t: Tid, ok: bool)
    requires Inv(s, g) && Enabled(s, Run(t, ok))
    ensures Inv(Exec(s, t, ok), NextAux(s, g, Run(t, ok)))
  {
    hide Inv, Wf, Exec, CountAux, GiveUpAux;
    if Searching(s.pc[t]) {
      SearchKeepsInv(s, g, t, ok);
    } else {
      match s.pc[t]
      case Count(_) => CountKeeps(s, g, t, ok);
      case AllocFailed => GiveUpKeeps(s, g, t, ok);
      case CreateFailed => GiveUpKeeps(s, g, t, ok);
      case Alloc(_, _) => if ok { AllocKeeps(s, g, t); } else { StayKeeps(s, g, t, ok); }
      case Create(_, _) => if ok { CreateKeeps(s, g, t); } else { StayKeeps(s, g, t, ok); }
      case _ => StayKeeps(s, g, t, ok);
    }
  }

  lemma PutOutcome(s: State, t: Tid, ok: bool)
    requires Wf(s) && t < |s.pc|
    ensures s.pc[t].Put? ==> Exec(s, t, ok).tables == s.tables && !Exec(s, t, ok).pc[t].PutValue?
    ensures s.pc[t].PutCas? && SlotAt(s, t, s.pc[t].main, s.pc[t].k).key != None ==>
              Exec(s, t, ok).tables == s.tables && !Exec(s, t, ok).pc[t].PutValue?
  {
    hide PcWf;
  }

  /** Every atomic step of every thread keeps the invariant. */
  lemma StepKeepsInv(s: State, g: Aux, a: Action)
    requires Inv(s, g) && Enabled(s, a)
    ensures Inv(Next(s, a), NextAux(s, g, a))
  {
    hide Inv, Wf, Exec;
    match a
    case Call(t) => CallKeeps(s, g, t);
    case Run(t, ok) => RunKeepsInv(s, g, t, ok);
    case Return(t) => ReturnKeeps(s, g, t);
  }

  lemma InitHasInv(s: State)
    requires Init(s)
    ensures Inv(s, Aux([], map[], map[], map[]))
  {
    assert Pow2(1) && Pow2(2) && Pow2(4) && Pow2(8) && Pow2(16) && Pow2(32);
    forall t | 0 <= t < |s.pc| ensures PcOk(s.tables, s.hashed[t], Aux([], map[], map[], map[]), t, s.pc[t]) {}
    hide PcOk;
  }

  lemma {:induction false} RunsKeepInv(s: State, g: Aux, run: seq<Action>, s': State) returns (g': Aux)
    requires Inv(s, g) && Runs(s, run, s')
    ensures Inv(s', g')
    decreases |run|
  {
    hide Inv, Enabled;
    if run == [] {
      g' := g;
    } else {
      StepKeepsInv(s, g, run[0]);
      g' := RunsKeepInv(Next(s, run[0]), NextAux(s, g, run[0]), run[1..], s');
    }
  }

  lemma ReachableInv(s: State) returns (g: Aux)
    requires Reachable(s)
    ensures Inv(s, g)
  {
    hide Inv, Init;
    var first, run :| Init(first) && Runs(first, run, s);
    InitHasInv(first);
    g := RunsKeepInv(first, Aux([], map[], map[], map[]), run, s);
  }

  // ---------------------------------------------------------------- main results

  ghost function Used(slots: seq<Slot>): set<nat> {
    set p | 0 <= p < |slots| && slots[p].key.Some?
  }

  lemma {:induction false} Listed(ps: set<nat>) returns (list: seq<nat>)
    ensures |list| == |ps|
    ensures forall i :: 0 <= i < |list| ==> list[i] in ps
    ensures forall i, j :: 0 <= i < j < |list| ==> list[i] != list[j]
  {
    if ps == {} {
      list := [];
    } else {
      var p :| p in ps;
      var rest := Listed(ps - {p});
      list := rest + [p];
    }
  }

  /** In every table of the chain, superseded or current, fewer than three quarters of the slots
      are ever used, however many threads insert, copy and fail. */
  lemma TablesAreNeverFull(s: State, j: nat)
    requires Reachable(s) && j < |s.tables|
    ensures |Used(s.tables[j].slots)| < Limit(Capacity(s.tables[j]))
  {
    hide Inv, Reachable;
    var g := ReachableInv(s);
    var ps := Listed(Used(s.tables[j].slots));
    TableParts(s, g);
    UsedSlotsAreFew(s, g, j, ps);
  }

  lemma TableParts(s: State, g: Aux)
    requires Inv(s, g)
    ensures Chained(s.tables, s.main) && Entries(s.tables, s.hashed, g) && Ordered(g, s.count)
    ensures Reported(s.results, g.owner, |s.pc|) && Homes(s.tables, g)
  {
    hide Chained, Entries, Values, Homes, Ordered, Threads, Private, LockOk, Reported;
  }

  /** Every probing loop ends: it never gets as far as three quarters of the table. */
  lemma ProbesEnd(s: State, t: Tid)
    requires Reachable(s) && t < |s.pc| && (s.pc[t].Probe? || s.pc[t].Put? || s.pc[t].PutCas?)
    ensures var h := if s.pc[t].Probe? then s.pc[t].h else s.pc[t].main;
            h < |s.tables| && s.pc[t].k < Limit(Capacity(s.tables[h]))
  {
    hide Inv, Reachable, Has, UsedRun, Avoids;
    var g := ReachableInv(s);
    ThreadFacts(s, g, t);
    ProbeRoom(s, g, t, if s.pc[t].Probe? then s.pc[t].h else s.pc[t].main, s.pc[t].k);
  }

  /** A thread id occurs at most once in a table. */
  lemma IdsAreUnique(s: State, j: nat, p: nat, q: nat)
    requires Reachable(s) && j < |s.tables| && p < |s.tables[j].slots| && q < |s.tables[j].slots|
    requires s.tables[j].slots[p].key.Some? && s.tables[j].slots[p].key == s.tables[j].slots[q].key
    ensures p == q
  {
    hide Inv, Reachable, EntryOk;
    var g := ReachableInv(s);
    TableParts(s, g);
  }

  /** All calls of a thread return the same producer, across resizes, stale-table inserts, lazy
      copies and failed calls in between, and no two threads get the same one. */
  lemma ProducersAreStableAndPrivate(s: State, i: nat, j: nat)
    requires Reachable(s) && i < |s.results| && j < |s.results|
    ensures s.results[i].0 == s.results[j].0 <==> s.results[i].1 == s.results[j].1
  {
    hide Inv, Reachable;
    var g := ReachableInv(s);
    TableParts(s, g);
    Owners(s, g, s.results[i].0, s.results[j].0);
  }

  lemma Owners(s: State, g: Aux, t: Tid, u: Tid)
    requires Inv(s, g) && t in g.owner && u in g.owner && t < |s.pc| && u < |s.pc|
    ensures g.owner[t] == g.owner[u] ==> t == u
  {
    hide Chained, Entries, Values, Homes, Ordered, Threads, LockOk, Reported;
    assert Holding(s.pc[t], g.owner, t) == Some(g.owner[t]) && Holding(s.pc[u], g.owner, u) == Some(g.owner[u]);
  }

  /** A thread that is about to be counted is in no table, so it is never inserted twice; and the
      search from the main table along `prev` visits every table. */
  lemma SearchMissesNothing(s: State, t: Tid, j: nat)
    requires Reachable(s) && t < |s.pc| && j < |s.tables|
    ensures s.pc[t].Count? ==> !Has(s.tables[j].slots, t)
    ensures s.main == |s.tables| - 1 && s.tables[j].prev == if j == 0 then None else Some(j - 1)
    ensures Pow2(Capacity(s.tables[j]))
  {
    hide Inv, Reachable, Has, Pow2;
    var g := ReachableInv(s);
    TableParts(s, g);
    ThreadFacts(s, g, t);
    if s.pc[t].Count? { NotOwned(s, g, t); }
  }

  /** The ids that are in some table. */
  ghost function Registered(s: State): set<Tid> {
    set t | 0 <= t < |s.pc| && InSome(s.tables, t)
  }

  ghost predicate InSome(tables: seq<Table>, t: Tid) {
    exists j :: 0 <= j < |tables| && Has(tables[j].slots, t)
  }

  ghost function Elements(list: seq<nat>): set<nat> {
    set t | t in list
  }

  lemma {:induction false} SetOfDistinct(list: seq<nat>)
    requires forall i, j :: 0 <= i < j < |list| ==> list[i] != list[j]
    ensures |Elements(list)| == |list|
  {
    if list == [] {
      assert Elements(list) == {};
    } else {
      var n := |list| - 1;
      SetOfDistinct(list[..n]);
      assert list[n] !in list[..n];
      assert Elements(list) == Elements(list[..n]) + {list[n]};
    }
  }

  /** When no call is running, the count is exact: every failed call has taken back its increment. */
  lemma CountIsExact(s: State)
    requires Reachable(s) && forall t :: 0 <= t < |s.pc| ==> s.pc[t] == Idle
    ensures s.count == |Registered(s)|
  {
    hide Inv, Reachable, Has, EntryOk;
    var g := ReachableInv(s);
    TableParts(s, g);
    SetOfDistinct(g.order);
    forall t ensures t in Registered(s) <==> t in g.order {
      InOrderIffRegistered(s, g, t);
    }
    assert Registered(s) == Elements(g.order);
  }

  lemma InOrderIffRegistered(s: State, g: Aux, t: Tid)
    requires Inv(s, g) && forall u :: 0 <= u < |s.pc| ==> s.pc[u] == Idle
    ensures t in Registered(s) <==> t in g.order
  {
    TableParts(s, g);
    hide Has, Chained, Entries, Values, Homes, Ordered, Private, LockOk, Reported, PcOk;
    assert t in g.order ==> t < |s.pc|;
    hide Inv;
    if t < |s.pc| {
      ThreadFacts(s, g, t);
      if t in g.owner {
        assert Has(s.tables[g.home[t]].slots, t);
      } else {
        NotOwned(s, g, t);
      }
    }
  }
}
