/** Every step of every thread keeps the invariant of ProducerHash. */
module ProducerHashSteps {
  import opened ProducerHash
  import opened ProducerHashProof

  // ---------------------------------------------------------------- only the program counter moves

  ghost predicate LockStep(lock: bool, lock': bool, main: nat, pc: Pc, pc': Pc) {
    && (Resizing(pc') ==> lock' && (Resizing(pc) || !lock))
    && (lock && !lock' ==> Resizing(pc))
    && (pc'.Alloc? ==> pc'.main == main)
  }

  lemma LockMoves(lock: bool, lock': bool, main: nat, pc: seq<Pc>, t: Tid, p: Pc)
    requires LockOk(lock, main, pc) && t < |pc| && LockStep(lock, lock', main, pc[t], p)
    ensures LockOk(lock', main, pc[t := p])
  {
  }

  lemma MoveKeeps(s: State, g: Aux, t: Tid, p: Pc, lock': bool)
    requires Inv(s, g) && t < |s.pc| && !s.pc[t].PutValue?
    requires PcOk(s.tables, s.hashed[t], g, t, p)
    requires Holding(p, g.owner, t) == Holding(s.pc[t], g.owner, t) || Holding(p, g.owner, t) == None
    requires LockStep(s.lock, lock', s.main, s.pc[t], p)
    ensures Inv(s.(pc := s.pc[t := p], lock := lock'), g)
  {
    hide Chained, Entries, Homes, Ordered, Reported, LockOk, PcOk, LockStep;
    LockMoves(s.lock, lock', s.main, s.pc, t, p);
  }

  lemma PrivateMoves(pc: seq<Pc>, owner: map<Tid, Producer>, made: nat, t: Tid, p: Pc)
    requires Private(pc, owner, made) && t < |pc|
    requires Holding(p, owner, t) == Holding(pc[t], owner, t) || Holding(p, owner, t) == None
    ensures Private(pc[t := p], owner, made)
  {
    forall u | 0 <= u < |pc| && u != t ensures Holding(pc[t := p][u], owner, u) == Holding(pc[u], owner, u) {}
    hide Holding;
  }

  /** What the invariant says of one thread. */
  lemma ThreadFacts(s: State, g: Aux, t: Tid)
    requires Inv(s, g) && t < |s.pc|
    ensures |s.hashed| == |s.pc| && PcOk(s.tables, s.hashed[t], g, t, s.pc[t])
    ensures Chained(s.tables, s.main)
  {
    hide Entries, Homes, Ordered, Reported, LockOk, PcOk, Private, Values;
  }

  lemma LimitsGrow(a: nat, b: nat)
    requires a <= b
    ensures Limit(a) <= Limit(b) <= b
  {
  }

  /** A probe that has not come to an end has slots left. */
  lemma ProbeRoom(s: State, g: Aux, t: Tid, h: nat, k: nat)
    requires Inv(s, g) && h < |s.tables| && t < |s.pc| == |s.hashed|
    requires UsedRun(s.tables[h].slots, s.hashed[t], k) && k <= |s.tables[h].slots|
    ensures k < Limit(Capacity(s.tables[h])) <= |s.tables[h].slots|
  {
    hide UsedRun, Values, Homes, Threads, Private, LockOk, Reported, Entries, Ordered, Chained;
    RunIsShort(s, g, h, s.hashed[t], k);
    LimitsGrow(Capacity(s.tables[h]), Capacity(s.tables[h]));
  }

  lemma FoundValue(s: State, g: Aux, t: Tid, h: nat, p: nat)
    requires Inv(s, g) && h < |s.tables| && p < |s.tables[h].slots| && s.tables[h].slots[p].key == Some(t)
    requires t < |s.pc| && !s.pc[t].PutValue?
    ensures t in g.owner && t in g.order && t in g.nc && g.nc[t] < Limit(|s.tables[h].slots|)
    ensures s.tables[h].slots[p].value == Some(g.owner[t])
  {
    hide UsedRun, Homes, Threads, Private, LockOk, Reported, Ordered, Chained;
    assert EntryOk(s.tables[h].slots, p, t, s.hashed, g);
    assert ValueOk(s.tables[h].slots[p], h, s.pc, g.owner);
  }

  lemma NotFound(s: State, g: Aux, t: Tid, h: nat, k: nat)
    requires Inv(s, g) && h < |s.tables| && t < |s.hashed| && k < |s.tables[h].slots|
    requires Avoids(s.tables[h].slots, s.hashed[t], k, t)
    requires s.tables[h].slots[Index(s.hashed[t], k, |s.tables[h].slots|)].key == None
    ensures !Has(s.tables[h].slots, t)
  {
    hide Homes, Threads, Private, LockOk, Reported, Ordered, Chained, Values, UsedRun, EntryOk;
    EmptyEndsSearch(s.tables[h].slots, t, s.hashed, g, k);
  }

  /** An id in no table has no producer: every later call finds it if it has one. */
  lemma NowhereMeansNew(s: State, g: Aux, t: Tid)
    requires Inv(s, g) && Absent(s.tables, 0, t)
    ensures t !in g.owner
  {
    hide Entries, Threads, Private, LockOk, Reported, Ordered, Chained, Values, Has;
  }

  lemma ProbeKeeps(s: State, g: Aux, t: Tid, ok: bool)
    requires Inv(s, g) && Wf(s) && t < |s.pc| && s.pc[t].Probe?
    ensures Inv(Exec(s, t, ok), g)
  {
    hide Inv, Wf, Chained, UsedRun, Avoids, Limit, Has;
    ThreadFacts(s, g, t);
    var m, h, k := s.pc[t].main, s.pc[t].h, s.pc[t].k;
    ProbeRoom(s, g, t, h, k);
    var p := Index(s.hashed[t], k, |s.tables[h].slots|);
    if s.tables[h].slots[p].key == Some(t) {
      FoundValue(s, g, t, h, p);
      ProbeFound(s, g, t, g.owner[t]);
      if h == m { MoveKeeps(s, g, t, Done(g.owner[t]), s.lock); } else { MoveKeeps(s, g, t, Put(m, g.owner[t], 0), s.lock); }
    } else if s.tables[h].slots[p].key == None {
      NotFound(s, g, t, h, k);
      ProbeEnded(s, g, t);
      if h == 0 { MoveKeeps(s, g, t, Count(m), s.lock); } else { MoveKeeps(s, g, t, Probe(m, h - 1, 0), s.lock); }
    } else {
      ProbeOn(s.tables[h].slots, s.hashed[t], k, t);
      MoveKeeps(s, g, t, Probe(m, h, k + 1), s.lock);
    }
  }

  lemma ProbeFound(s: State, g: Aux, t: Tid, v: Producer)
    requires Chained(s.tables, s.main) && t < |s.pc| == |s.hashed| && s.pc[t].Probe?
    requires PcOk(s.tables, s.hashed[t], g, t, s.pc[t])
    requires t in g.owner && g.owner[t] == v && t in g.order && t in g.nc && g.nc[t] < Limit(|s.tables[s.pc[t].h].slots|)
    ensures PcOk(s.tables, s.hashed[t], g, t, Done(v))
    ensures s.pc[t].h < s.pc[t].main ==> PcOk(s.tables, s.hashed[t], g, t, Put(s.pc[t].main, v, 0))
  {
    hide Has;
    LimitsGrow(Capacity(s.tables[s.pc[t].h]), Capacity(s.tables[s.pc[t].main]));
  }

  lemma ProbeEnded(s: State, g: Aux, t: Tid)
    requires Inv(s, g) && t < |s.pc| == |s.hashed| && s.pc[t].Probe? && PcOk(s.tables, s.hashed[t], g, t, s.pc[t])
    requires Chained(s.tables, s.main) && !Has(s.tables[s.pc[t].h].slots, t)
    ensures s.tables[s.pc[t].h].prev == if s.pc[t].h == 0 then None else Some(s.pc[t].h - 1)
    ensures s.pc[t].h == 0 ==> PcOk(s.tables, s.hashed[t], g, t, Count(s.pc[t].main))
    ensures s.pc[t].h > 0 ==> PcOk(s.tables, s.hashed[t], g, t, Probe(s.pc[t].main, s.pc[t].h - 1, 0))
  {
    hide Inv, Has;
    if s.pc[t].h == 0 { NowhereMeansNew(s, g, t); }
  }

  lemma ProbeOn(slots: seq<Slot>, start: nat, k: nat, t: Tid)
    requires UsedRun(slots, start, k) && k < |slots| && slots[Index(start, k, |slots|)].key.Some?
    ensures UsedRun(slots, start, k + 1)
    ensures Avoids(slots, start, k, t) && slots[Index(start, k, |slots|)].key != Some(t) ==> Avoids(slots, start, k + 1, t)
  {
  }

  lemma PutOnKeeps(s: State, g: Aux, t: Tid, ok: bool)
    requires Inv(s, g) && Wf(s) && t < |s.pc| && (s.pc[t].Put? || s.pc[t].PutCas?) && Exec(s, t, ok).tables == s.tables
    requires !Exec(s, t, ok).pc[t].PutValue?
    ensures Inv(Exec(s, t, ok), g)
  {
    hide Inv, Wf, Chained, UsedRun, Limit, Has;
    ThreadFacts(s, g, t);
    var m, v, k := s.pc[t].main, s.pc[t].producer, s.pc[t].k;
    ProbeRoom(s, g, t, m, k);
    var p := Index(s.hashed[t], k, |s.tables[m].slots|);
    if s.tables[m].slots[p].key == None {
      MoveKeeps(s, g, t, PutCas(m, v, k), s.lock);
    } else {
      ProbeOn(s.tables[m].slots, s.hashed[t], k, t);
      MoveKeeps(s, g, t, Put(m, v, k + 1), s.lock);
    }
  }

  lemma LockFacts(s: State, g: Aux, t: Tid)
    requires Inv(s, g) && t < |s.pc|
    ensures Resizing(s.pc[t]) ==> s.lock
  {
  }

  lemma RunStart(slots: seq<Slot>, start: nat, t: Tid)
    requires |slots| > 0
    ensures UsedRun(slots, start, 0) && Avoids(slots, start, 0, t)
  {
  }

  ghost predicate Stays(pc: Pc, ok: bool) {
    || pc.TryLock? || pc.Locked? || pc.Unlock? || pc.AllocFailedUnlock? || pc.Reload?
    || (!ok && (pc.Alloc? || pc.Create?))
  }

  lemma StayFacts(s: State, g: Aux, t: Tid, ok: bool)
    requires Wf(s) && t < |s.pc| && Stays(s.pc[t], ok) && PcOk(s.tables, s.hashed[t], g, t, s.pc[t])
    requires Resizing(s.pc[t]) ==> s.lock
    ensures var p, lock' := Exec(s, t, ok).pc[t], Exec(s, t, ok).lock;
            && Exec(s, t, ok) == s.(pc := s.pc[t := p], lock := lock')
            && PcOk(s.tables, s.hashed[t], g, t, p)
            && Holding(p, g.owner, t) == Holding(s.pc[t], g.owner, t)
            && LockStep(s.lock, lock', s.main, s.pc[t], p)
  {
  }

  lemma StayKeeps(s: State, g: Aux, t: Tid, ok: bool)
    requires Inv(s, g) && Wf(s) && t < |s.pc| && Stays(s.pc[t], ok)
    ensures Inv(Exec(s, t, ok), g)
  {
    StaysIsNotPut(s.pc[t], ok);
    hide Inv, Wf, Exec, PcOk, LockStep, Holding, Stays, Resizing;
    ThreadFacts(s, g, t);
    LockFacts(s, g, t);
    StayFacts(s, g, t, ok);
    MoveKeeps(s, g, t, Exec(s, t, ok).pc[t], Exec(s, t, ok).lock);
  }

  lemma StaysIsNotPut(pc: Pc, ok: bool)
    requires Stays(pc, ok)
    ensures !pc.PutValue?
  {
  }

  lemma StartKeeps(s: State, g: Aux, t: Tid, ok: bool)
    requires Inv(s, g) && Wf(s) && t < |s.pc| && s.pc[t].Start?
    ensures Inv(Exec(s, t, ok), g)
  {
    hide Inv, Wf, UsedRun, Avoids, Has;
    ThreadFacts(s, g, t);
    RunStart(s.tables[s.main].slots, s.hashed[t], t);
    MoveKeeps(s, g, t, Probe(s.main, s.main, 0), s.lock);
  }

  lemma CallKeeps(s: State, g: Aux, t: Tid)
    requires Inv(s, g) && Enabled(s, Call(t))
    ensures Inv(Next(s, Call(t)), g)
  {
    hide Inv, Wf, UsedRun, Avoids, Has;
    ThreadFacts(s, g, t);
    MoveKeeps(s, g, t, Start, s.lock);
  }

  lemma ReportedGrows(s: State, g: Aux, results: seq<(Tid, Producer)>)
    requires Inv(s, g) && Reported(results, g.owner, |s.pc|)
    ensures Inv(s.(results := results), g)
  {
    hide Chained, Entries, Values, Homes, Ordered, Threads, Private, LockOk, Reported;
  }

  lemma ReportedOne(s: State, g: Aux, t: Tid, v: Producer)
    requires Inv(s, g) && t < |s.pc| && t in g.owner && g.owner[t] == v
    ensures Reported(s.results + [(t, v)], g.owner, |s.pc|)
  {
    hide Chained, Entries, Values, Homes, Ordered, Threads, Private, LockOk;
  }

  lemma ReturnKeeps(s: State, g: Aux, t: Tid)
    requires Inv(s, g) && Enabled(s, Return(t))
    ensures Inv(Next(s, Return(t)), g)
  {
    hide Inv, Wf, UsedRun, Avoids, Has;
    ThreadFacts(s, g, t);
    MoveKeeps(s, g, t, Idle, s.lock);
    if s.pc[t].Done? {
      ReportedOne(s, g, t, s.pc[t].producer);
      ReportedGrows(s.(pc := s.pc[t := Idle]), g, s.results + [(t, s.pc[t].producer)]);
    }
  }

  // ---------------------------------------------------------------- keys and tables are added

  ghost predicate KeysKept(slots: seq<Slot>, slots': seq<Slot>, t: Tid) {
    && |slots'| == |slots|
    && forall p :: 0 <= p < |slots| ==> slots'[p].key == slots[p].key || (slots[p].key == None && slots'[p].key == Some(t))
  }

  /** From one state to the next, keys only appear: those of thread t. */
  ghost predicate KeyStep(tables: seq<Table>, tables': seq<Table>, t: Tid) {
    && |tables| <= |tables'|
    && (forall j :: 0 <= j < |tables| ==> KeysKept(tables[j].slots, tables'[j].slots, t))
    && (forall j, p :: |tables| <= j < |tables'| && 0 <= p < |tables'[j].slots| ==> tables'[j].slots[p].key == None)
  }

  ghost predicate AuxStep(g: Aux, g': Aux, t: Tid) {
    forall u :: u != t ==>
      && (u in g'.order <==> u in g.order)
      && (u in g'.owner <==> u in g.owner) && (u in g.owner ==> g'.owner[u] == g.owner[u])
      && (u in g'.nc <==> u in g.nc) && (u in g.nc ==> g'.nc[u] == g.nc[u])
  }

  lemma RunKept(slots: seq<Slot>, slots': seq<Slot>, t: Tid, start: nat, k: nat, u: Tid)
    requires KeysKept(slots, slots', t)
    ensures UsedRun(slots, start, k) ==> UsedRun(slots', start, k)
    ensures u != t && Avoids(slots, start, k, u) ==> Avoids(slots', start, k, u)
    ensures u != t && !Has(slots, u) ==> !Has(slots', u)
    ensures Has(slots, u) ==> Has(slots', u)
  {
    hide Index;
  }

  lemma AbsentKept(tables: seq<Table>, tables': seq<Table>, t: Tid, lo: nat, u: Tid)
    requires KeyStep(tables, tables', t) && u != t && Absent(tables, lo, u)
    ensures Absent(tables', lo, u)
  {
    forall j | lo <= j < |tables'| ensures !Has(tables'[j].slots, u) {
      if j < |tables| { RunKept(tables[j].slots, tables'[j].slots, t, 0, 0, u); }
    }
  }

  lemma StepAt(tables: seq<Table>, tables': seq<Table>, t: Tid)
    requires KeyStep(tables, tables', t)
    ensures |tables| <= |tables'| && forall j :: 0 <= j < |tables| ==> KeysKept(tables[j].slots, tables'[j].slots, t)
  {
  }

  lemma OtherPcOk(tables: seq<Table>, tables': seq<Table>, start: nat, g: Aux, g': Aux, t: Tid, u: Tid, pc: Pc)
    requires KeyStep(tables, tables', t) && AuxStep(g, g', t) && u != t
    requires PcOk(tables, start, g, u, pc)
    ensures PcOk(tables', start, g', u, pc)
  {
    hide KeyStep, UsedRun, Avoids, Has, Limit, Absent, Index;
    StepAt(tables, tables', t);
    match pc
    case Probe(m, h, k) =>
      RunKept(tables[h].slots, tables'[h].slots, t, start, k, u);
      AbsentKept(tables, tables', t, h + 1, u);
    case Put(m, v, k) =>
      RunKept(tables[m].slots, tables'[m].slots, t, start, k, u);
      AbsentKept(tables, tables', t, m, u);
    case PutCas(m, v, k) =>
      RunKept(tables[m].slots, tables'[m].slots, t, start, k, u);
      AbsentKept(tables, tables', t, m, u);
    case _ =>
  }

  lemma ThreadsKept(s: State, g: Aux, t: Tid, tables': seq<Table>, g': Aux, p: Pc)
    requires Threads(s.tables, s.hashed, s.pc, g) && t < |s.pc|
    requires KeyStep(s.tables, tables', t) && AuxStep(g, g', t)
    requires PcOk(tables', s.hashed[t], g', t, p)
    ensures Threads(tables', s.hashed, s.pc[t := p], g')
  {
    hide PcOk, KeyStep;
    forall u | u in g'.order ensures u < |s.pc| {}
    hide AuxStep;
    forall u | 0 <= u < |s.pc| && u != t ensures PcOk(tables', s.hashed[u], g', u, s.pc[u]) {
      OtherPcOk(s.tables, tables', s.hashed[u], g, g', t, u, s.pc[u]);
    }
  }

  lemma EntryKept(slots: seq<Slot>, slots': seq<Slot>, t: Tid, p: nat, u: Tid, hashed: seq<nat>, g: Aux, g': Aux)
    requires p < |slots| && EntryOk(slots, p, u, hashed, g) && KeysKept(slots, slots', t)
    requires AuxStep(g, g', t) && (u == t ==> t in g'.owner && t in g'.order && t in g'.nc && t in g.nc && g'.nc[t] == g.nc[t])
    ensures EntryOk(slots', p, u, hashed, g')
  {
    RunKept(slots, slots', t, hashed[u], Distance(hashed[u], p, |slots|), u);
    hide UsedRun, Distance;
  }

  lemma HomesKept(tables: seq<Table>, tables': seq<Table>, t: Tid, g: Aux)
    requires Homes(tables, g) && KeyStep(tables, tables', t)
    ensures Homes(tables', g)
  {
    hide Has;
    forall u | u in g.owner ensures Has(tables'[g.home[u]].slots, u) {
      RunKept(tables[g.home[u]].slots, tables'[g.home[u]].slots, t, 0, 0, u);
    }
  }

  lemma AuxSame(g: Aux, t: Tid)
    ensures AuxStep(g, g, t)
  {
  }

  // ---------------------------------------------------------------- claiming a slot

  ghost function ClaimAux(g: Aux, t: Tid, m: nat, v: Producer): Aux {
    if t in g.owner then g else g.(owner := g.owner[t := v], home := g.home[t := m])
  }

  ghost function Claimed(tables: seq<Table>, m: nat, p: nat, t: Tid): seq<Table>
    requires m < |tables| && p < |tables[m].slots|
  {
    tables[m := tables[m].(slots := tables[m].slots[p := tables[m].slots[p].(key := Some(t))])]
  }

  lemma ClaimStep(tables: seq<Table>, m: nat, p: nat, t: Tid, main: nat)
    requires m < |tables| && p < |tables[m].slots| && tables[m].slots[p].key == None
    ensures KeyStep(tables, Claimed(tables, m, p, t), t)
    ensures Has(Claimed(tables, m, p, t)[m].slots, t)
    ensures Chained(tables, main) ==> Chained(Claimed(tables, m, p, t), main)
  {
    var tables' := Claimed(tables, m, p, t);
    assert tables'[m].slots[p].key == Some(t);
    hide Pow2;
  }

  lemma DistanceOfIndex(start: nat, k: nat, n: nat)
    requires n > 0 && k < n
    ensures Distance(start, Index(start, k, n), n) == k
  {
    hide Index, Distance;
    var p := Index(start, k, n);
    IndexOfDistance(start, p, n);
    IndexInjective(start, Distance(start, p, n), k, n);
  }

  lemma ClaimEntries(s: State, g: Aux, t: Tid, m: nat, k: nat, v: Producer)
    requires Entries(s.tables, s.hashed, g) && t < |s.hashed| && m < |s.tables| && k < |s.tables[m].slots|
    requires var p := Index(s.hashed[t], k, |s.tables[m].slots|); s.tables[m].slots[p].key == None
    requires t in g.order && t in g.nc && g.nc[t] < Limit(|s.tables[m].slots|)
    requires Absent(s.tables, m, t) && UsedRun(s.tables[m].slots, s.hashed[t], k)
    ensures Entries(Claimed(s.tables, m, Index(s.hashed[t], k, |s.tables[m].slots|), t), s.hashed, ClaimAux(g, t, m, v))
  {
    var p := Index(s.hashed[t], k, |s.tables[m].slots|);
    var tables', g' := Claimed(s.tables, m, p, t), ClaimAux(g, t, m, v);
    ClaimStep(s.tables, m, p, t, 0);
    DistanceOfIndex(s.hashed[t], k, |s.tables[m].slots|);
    RunKept(s.tables[m].slots, tables'[m].slots, t, s.hashed[t], k, t);
    assert forall q :: 0 <= q < |s.tables[m].slots| ==> s.tables[m].slots[q].key != Some(t);
    hide UsedRun, Index, Distance, Limit, Has;
    forall j, q | 0 <= j < |tables'| && 0 <= q < |tables'[j].slots| && tables'[j].slots[q].key.Some?
      ensures EntryOk(tables'[j].slots, q, tables'[j].slots[q].key.value, s.hashed, g')
    {
      if j != m || q != p {
        EntryKept(s.tables[j].slots, tables'[j].slots, t, q, s.tables[j].slots[q].key.value, s.hashed, g, g');
      }
    }
    hide EntryOk;
  }

  lemma ClaimValues(s: State, g: Aux, t: Tid, m: nat, p: nat, v: Producer, k: nat)
    requires Values(s.tables, s.pc, g.owner) && t < |s.pc| && !s.pc[t].PutValue?
    requires m < |s.tables| && p < |s.tables[m].slots| && s.tables[m].slots[p].key == None
    ensures Values(Claimed(s.tables, m, p, t), s.pc[t := PutValue(m, v, k)], ClaimAux(g, t, m, v).owner)
  {
    var tables', pc', g' := Claimed(s.tables, m, p, t), s.pc[t := PutValue(m, v, k)], ClaimAux(g, t, m, v);
    forall j, q | 0 <= j < |tables'| && 0 <= q < |tables'[j].slots| && tables'[j].slots[q].key.Some?
      ensures ValueOk(tables'[j].slots[q], j, pc', g'.owner)
    {
      if j != m || q != p { assert ValueOk(s.tables[j].slots[q], j, s.pc, g.owner); }
    }
  }

  lemma ClaimSmall(s: State, g: Aux, t: Tid, m: nat, v: Producer, k: nat)
    requires Private(s.pc, g.owner, s.made) && Reported(s.results, g.owner, |s.pc|) && Ordered(g, s.count)
    requires t < |s.pc| && s.pc[t] == PutCas(m, v, k) && (t in g.owner ==> g.owner[t] == v)
    ensures Private(s.pc[t := PutValue(m, v, k)], ClaimAux(g, t, m, v).owner, s.made)
    ensures Reported(s.results, ClaimAux(g, t, m, v).owner, |s.pc|) && Ordered(ClaimAux(g, t, m, v), s.count)
    ensures AuxStep(g, ClaimAux(g, t, m, v), t)
  {
  }

  lemma ClaimHomes(s: State, g: Aux, t: Tid, m: nat, p: nat, v: Producer)
    requires Homes(s.tables, g) && m < |s.tables| && p < |s.tables[m].slots| && s.tables[m].slots[p].key == None
    ensures Homes(Claimed(s.tables, m, p, t), ClaimAux(g, t, m, v))
  {
    ClaimStep(s.tables, m, p, t, 0);
    HomesKept(s.tables, Claimed(s.tables, m, p, t), t, g);
    hide Has, KeyStep;
  }

  lemma ClaimIs(s: State, t: Tid, ok: bool)
    requires Wf(s) && t < |s.pc| && s.pc[t].PutCas?
    ensures var m, v, k := s.pc[t].main, s.pc[t].producer, s.pc[t].k;
            var p := Index(s.hashed[t], k, |s.tables[m].slots|);
            s.tables[m].slots[p].key == None ==>
              Exec(s, t, ok) == s.(tables := Claimed(s.tables, m, p, t), pc := s.pc[t := PutValue(m, v, k)])
  {
    hide Index;
  }

  lemma ClaimKeeps(s: State, g: Aux, t: Tid, ok: bool)
    requires Inv(s, g) && Wf(s) && t < |s.pc| && s.pc[t].PutCas?
    requires SlotAt(s, t, s.pc[t].main, s.pc[t].k).key == None
    ensures Inv(Exec(s, t, ok), ClaimAux(g, t, s.pc[t].main, s.pc[t].producer))
  {
    hide Chained, Entries, Values, Homes, Ordered, Threads, Private, LockOk, Reported, UsedRun, Limit, Has, Absent, Index, Claimed,
         Exec, Wf, ClaimAux;
    ThreadFacts(s, g, t);
    var m, v, k := s.pc[t].main, s.pc[t].producer, s.pc[t].k;
    ProbeRoom(s, g, t, m, k);
    var p := Index(s.hashed[t], k, |s.tables[m].slots|);
    ClaimIs(s, t, ok);
    ClaimStep(s.tables, m, p, t, s.main);
    ClaimEntries(s, g, t, m, k, v);
    ClaimValues(s, g, t, m, p, v, k);
    ClaimHomes(s, g, t, m, p, v);
    ClaimSmall(s, g, t, m, v, k);
    ClaimPc(s, g, t, m, v, k, p);
    ThreadsKept(s, g, t, Claimed(s.tables, m, p, t), ClaimAux(g, t, m, v), PutValue(m, v, k));
    LockMoves(s.lock, s.lock, s.main, s.pc, t, PutValue(m, v, k));
  }

  lemma ClaimPc(s: State, g: Aux, t: Tid, m: nat, v: Producer, k: nat, p: nat)
    requires t < |s.hashed| && m < |s.tables| && p < |s.tables[m].slots| && t in g.order && (t in g.owner ==> g.owner[t] == v)
    requires p == Index(s.hashed[t], k, |s.tables[m].slots|)
    ensures PcOk(Claimed(s.tables, m, p, t), s.hashed[t], ClaimAux(g, t, m, v), t, PutValue(m, v, k))
  {
    hide Index;
  }

  // ---------------------------------------------------------------- storing the value

  ghost function Stored(tables: seq<Table>, m: nat, p: nat, v: Producer): seq<Table>
    requires m < |tables| && p < |tables[m].slots|
  {
    tables[m := tables[m].(slots := tables[m].slots[p := tables[m].slots[p].(value := Some(v))])]
  }

  lemma StoreStep(tables: seq<Table>, m: nat, p: nat, v: Producer, t: Tid, main: nat)
    requires m < |tables| && p < |tables[m].slots|
    ensures KeyStep(tables, Stored(tables, m, p, v), t)
    ensures Chained(tables, main) ==> Chained(Stored(tables, m, p, v), main)
    ensures forall j, q :: 0 <= j < |tables| && 0 <= q < |tables[j].slots| ==>
              |Stored(tables, m, p, v)[j].slots| == |tables[j].slots|
              && Stored(tables, m, p, v)[j].slots[q].key == tables[j].slots[q].key
  {
    hide Pow2;
  }

  lemma StoreEntries(s: State, g: Aux, m: nat, p: nat, v: Producer, t: Tid)
    requires Entries(s.tables, s.hashed, g) && m < |s.tables| && p < |s.tables[m].slots|
    ensures Entries(Stored(s.tables, m, p, v), s.hashed, g)
  {
    var tables' := Stored(s.tables, m, p, v);
    StoreStep(s.tables, m, p, v, t, 0);
    hide UsedRun, Index, Distance, Limit, Has, Stored;
    forall j, q | 0 <= j < |tables'| && 0 <= q < |tables'[j].slots| && tables'[j].slots[q].key.Some?
      ensures EntryOk(tables'[j].slots, q, tables'[j].slots[q].key.value, s.hashed, g)
    {
      var u := s.tables[j].slots[q].key.value;
      assert EntryOk(s.tables[j].slots, q, u, s.hashed, g);
      RunSame(s.tables[j].slots, tables'[j].slots, s.hashed[u], Distance(s.hashed[u], q, |s.tables[j].slots|));
    }
    hide EntryOk;
  }

  lemma RunSame(slots: seq<Slot>, slots': seq<Slot>, start: nat, k: nat)
    requires UsedRun(slots, start, k) && |slots'| == |slots|
    requires forall p :: 0 <= p < |slots| ==> slots'[p].key == slots[p].key
    ensures UsedRun(slots', start, k)
  {
    hide Index;
  }

  lemma StoreValues(s: State, g: Aux, t: Tid, m: nat, p: nat, v: Producer)
    requires Values(s.tables, s.pc, g.owner) && Entries(s.tables, s.hashed, g) && t < |s.pc| && s.pc[t].PutValue?
    requires m == s.pc[t].main < |s.tables| && p < |s.tables[m].slots| && s.tables[m].slots[p].key == Some(t)
    requires t in g.owner && g.owner[t] == v
    ensures Values(Stored(s.tables, m, p, v), s.pc[t := Done(v)], g.owner)
  {
    hide EntryOk;
    var tables', pc' := Stored(s.tables, m, p, v), s.pc[t := Done(v)];
    forall j, q | 0 <= j < |tables'| && 0 <= q < |tables'[j].slots| && tables'[j].slots[q].key.Some?
      ensures ValueOk(tables'[j].slots[q], j, pc', g.owner)
    {
      assert ValueOk(s.tables[j].slots[q], j, s.pc, g.owner);
      if j == m && s.tables[j].slots[q].key == Some(t) { assert q == p; }
    }
  }

  lemma StoreIs(s: State, t: Tid, ok: bool)
    requires Wf(s) && t < |s.pc| && s.pc[t].PutValue?
    ensures var m, v, k := s.pc[t].main, s.pc[t].producer, s.pc[t].k;
            var p := Index(s.hashed[t], k, |s.tables[m].slots|);
            Exec(s, t, ok) == s.(tables := Stored(s.tables, m, p, v), pc := s.pc[t := Done(v)])
  {
    hide Index;
  }

  lemma StorePrivate(pc: seq<Pc>, owner: map<Tid, Producer>, made: nat, t: Tid, v: Producer)
    requires Private(pc, owner, made) && t < |pc| && t in owner
    ensures Private(pc[t := Done(v)], owner, made)
  {
    PrivateMoves(pc, owner, made, t, Done(v));
  }

  lemma StoreKeeps(s: State, g: Aux, t: Tid, ok: bool)
    requires Inv(s, g) && Wf(s) && t < |s.pc| && s.pc[t].PutValue?
    ensures Inv(Exec(s, t, ok), g)
  {
    hide Chained, Entries, Values, Homes, Ordered, Threads, Private, LockOk, Reported, UsedRun, Limit, Has, Absent, Index, Stored,
         Exec, Wf;
    ThreadFacts(s, g, t);
    var m, v, k := s.pc[t].main, s.pc[t].producer, s.pc[t].k;
    var p := Index(s.hashed[t], k, |s.tables[m].slots|);
    StoreIs(s, t, ok);
    StoreStep(s.tables, m, p, v, t, s.main);
    StoreEntries(s, g, m, p, v, t);
    StoreValues(s, g, t, m, p, v);
    AuxSame(g, t);
    HomesKept(s.tables, Stored(s.tables, m, p, v), t, g);
    StorePrivate(s.pc, g.owner, s.made, t, v);
    ThreadsKept(s, g, t, Stored(s.tables, m, p, v), g, Done(v));
    LockMoves(s.lock, s.lock, s.main, s.pc, t, Done(v));
  }
}
