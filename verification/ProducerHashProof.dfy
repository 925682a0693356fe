/** The invariant of ProducerHash: at most three quarters of any table is used, every id is in a
    table at most once, and an id keeps its producer. */
module ProducerHashProof {
  import opened Counting
  import opened Modular
  import opened ProducerHash

  /** The threads counted by `count` in the order of their fetch_add, without those that gave up;
      what each of them read there; and the producer and the first table of every thread in a table. */
  datatype Aux = Aux(order: seq<Tid>, nc: map<Tid, int>, owner: map<Tid, Producer>, home: map<Tid, nat>)

  // ---------------------------------------------------------------- slots

  ghost predicate UsedRun(slots: seq<Slot>, start: nat, k: nat) {
    |slots| > 0 && forall j :: 0 <= j < k ==> slots[Index(start, j, |slots|)].key.Some?
  }

  /** None of the slots probed holds the id. */
  ghost predicate Avoids(slots: seq<Slot>, start: nat, k: nat, t: Tid) {
    |slots| > 0 && forall j :: 0 <= j < k ==> slots[Index(start, j, |slots|)].key != Some(t)
  }

  ghost predicate Has(slots: seq<Slot>, t: Tid) {
    exists p :: 0 <= p < |slots| && slots[p].key == Some(t)
  }

  /** The number of probes that lead from the id's hash to the slot. */
  ghost function Distance(start: nat, p: nat, capacity: nat): (d: nat)
    requires capacity > 0
    ensures d < capacity
  {
    (p - start) % capacity
  }

  lemma IndexInjective(start: nat, i: nat, j: nat, n: nat)
    requires n > 0 && i < n && j < n && Index(start, i, n) == Index(start, j, n)
    ensures i == j
  {
    if i <= j { ModInjective(start + i, start + j, n); } else { ModInjective(start + j, start + i, n); }
  }

  lemma IndexOfDistance(start: nat, p: nat, n: nat)
    requires n > 0 && p < n
    ensures Index(start, Distance(start, p, n), n) == p
  {
    ModShift(p - start, start, n);
    assert p - start + start == p;
    ModSmall(p, n);
    assert start + Distance(start, p, n) == (p - start) % n + start;
  }

  // ---------------------------------------------------------------- the invariant

  ghost predicate Pow2(n: nat) {
    n == 1 || (n % 2 == 0 && n > 0 && Pow2(n / 2))
  }

  ghost predicate Chained(tables: seq<Table>, main: nat) {
    && main + 1 == |tables|
    && (forall j :: 0 <= j < |tables| ==> Capacity(tables[j]) >= INITIAL_HASH_SIZE && Pow2(Capacity(tables[j])))
    && (forall j :: 0 <= j < |tables| ==> tables[j].prev == if j == 0 then None else Some(j - 1))
    && (forall i, j :: 0 <= i <= j < |tables| ==> Capacity(tables[i]) <= Capacity(tables[j]))
  }

  ghost predicate EntryOk(slots: seq<Slot>, p: nat, u: Tid, hashed: seq<nat>, g: Aux)
    requires p < |slots|
  {
    && u < |hashed| && u in g.owner && u in g.order && u in g.nc && g.nc[u] < Limit(|slots|)
    && UsedRun(slots, hashed[u], Distance(hashed[u], p, |slots|))
  }

  ghost predicate Entries(tables: seq<Table>, hashed: seq<nat>, g: Aux) {
    && (forall j, p :: 0 <= j < |tables| && 0 <= p < |tables[j].slots| && tables[j].slots[p].key.Some? ==>
          EntryOk(tables[j].slots, p, tables[j].slots[p].key.value, hashed, g))
    && (forall j :: 0 <= j < |tables| ==> Unique(tables[j].slots))
  }

  ghost predicate Unique(slots: seq<Slot>) {
    forall p, q :: 0 <= p < |slots| && 0 <= q < |slots| && slots[p].key.Some? && slots[p].key == slots[q].key ==> p == q
  }

  /** Values are set, except one that its own thread is about to set. */
  ghost predicate Values(tables: seq<Table>, pc: seq<Pc>, owner: map<Tid, Producer>) {
    forall j, p :: 0 <= j < |tables| && 0 <= p < |tables[j].slots| && tables[j].slots[p].key.Some? ==>
      ValueOk(tables[j].slots[p], j, pc, owner)
  }

  ghost predicate ValueOk(slot: Slot, j: nat, pc: seq<Pc>, owner: map<Tid, Producer>)
    requires slot.key.Some?
  {
    var u := slot.key.value;
    u in owner && u < |pc| && (slot.value == Some(owner[u]) || (pc[u].PutValue? && pc[u].main == j))
  }

  ghost predicate Homes(tables: seq<Table>, g: Aux) {
    forall u :: u in g.owner ==> u in g.home && g.home[u] < |tables| && Has(tables[g.home[u]].slots, u)
  }

  ghost predicate Ordered(g: Aux, count: int) {
    && count == |g.order|
    && (forall i, j :: 0 <= i < j < |g.order| ==> g.order[i] != g.order[j])
    && (forall i :: 0 <= i < |g.order| ==> g.order[i] in g.nc && g.nc[g.order[i]] >= i + 1)
  }

  ghost predicate Absent(tables: seq<Table>, lo: nat, t: Tid) {
    forall j :: lo <= j < |tables| ==> !Has(tables[j].slots, t)
  }

  /** The thread has been counted and has not yet got its producer into a table. */
  ghost predicate Counted(g: Aux, t: Tid, n: int) {
    t !in g.owner && t in g.order && t in g.nc && g.nc[t] == n
  }

  ghost predicate Adding(tables: seq<Table>, start: nat, g: Aux, t: Tid, m: nat, v: Producer, k: nat) {
    && m < |tables| && t in g.order && t in g.nc && g.nc[t] < Limit(|tables[m].slots|)
    && Absent(tables, m, t) && UsedRun(tables[m].slots, start, k) && k <= |tables[m].slots|
    && (t in g.owner ==> g.owner[t] == v)
  }

  ghost predicate PcOk(tables: seq<Table>, start: nat, g: Aux, t: Tid, pc: Pc) {
    match pc
    case Idle => t in g.order <==> t in g.owner
    case Start => t in g.order <==> t in g.owner
    case Probe(m, h, k) =>
      && (t in g.order <==> t in g.owner)
      && h <= m < |tables| && Absent(tables, h + 1, t)
      && UsedRun(tables[h].slots, start, k) && Avoids(tables[h].slots, start, k, t) && k <= |tables[h].slots|
    case Put(m, v, k) => Adding(tables, start, g, t, m, v, k)
    case PutCas(m, v, k) => Adding(tables, start, g, t, m, v, k)
    case PutValue(m, v, k) =>
      && m < |tables| && |tables[m].slots| > 0 && tables[m].slots[Index(start, k, |tables[m].slots|)].key == Some(t)
      && t in g.order && t in g.owner && g.owner[t] == v
    case Count(m) => m < |tables| && t !in g.owner && t !in g.order
    case TryLock(m, n) => m < |tables| && Counted(g, t, n)
    case Locked(n) => Counted(g, t, n)
    case Alloc(m, n) => m < |tables| && Counted(g, t, n)
    case Unlock(m, n) => m < |tables| && Counted(g, t, n)
    case AllocFailed => t !in g.owner && t in g.order
    case AllocFailedUnlock => t !in g.owner && t !in g.order
    case Create(m, n) => m < |tables| && Counted(g, t, n) && n < Limit(|tables[m].slots|)
    case CreateFailed => t !in g.owner && t in g.order
    case Reload(n) => Counted(g, t, n)
    case Done(v) => t in g.order && t in g.owner && g.owner[t] == v
    case Failed => t !in g.owner && t !in g.order
  }

  ghost predicate Threads(tables: seq<Table>, hashed: seq<nat>, pc: seq<Pc>, g: Aux) {
    && |hashed| == |pc| && (forall u :: u in g.order ==> u < |pc|)
    && forall t :: 0 <= t < |pc| ==> PcOk(tables, hashed[t], g, t, pc[t])
  }

  /** The producer a thread has, in a table or still on its way there. */
  ghost function Holding(pc: Pc, owner: map<Tid, Producer>, t: Tid): Option<Producer> {
    if t in owner then Some(owner[t]) else if pc.Put? || pc.PutCas? then Some(pc.producer) else None
  }

  ghost predicate Private(pc: seq<Pc>, owner: map<Tid, Producer>, made: nat) {
    && (forall t :: 0 <= t < |pc| && Holding(pc[t], owner, t).Some? ==> Holding(pc[t], owner, t).value < made)
    && (forall t, u :: 0 <= t < |pc| && 0 <= u < |pc| && t != u && Holding(pc[t], owner, t).Some? ==>
          Holding(pc[t], owner, t) != Holding(pc[u], owner, u))
  }

  ghost predicate Resizing(pc: Pc) {
    pc.Locked? || pc.Alloc? || pc.Unlock? || pc.AllocFailed? || pc.AllocFailedUnlock?
  }

  ghost predicate LockOk(lock: bool, main: nat, pc: seq<Pc>) {
    && (forall t :: 0 <= t < |pc| && Resizing(pc[t]) ==> lock)
    && (forall t, u :: 0 <= t < |pc| && 0 <= u < |pc| && Resizing(pc[t]) && Resizing(pc[u]) ==> t == u)
    && (forall t :: 0 <= t < |pc| && pc[t].Alloc? ==> pc[t].main == main)
  }

  ghost predicate Reported(results: seq<(Tid, Producer)>, owner: map<Tid, Producer>, n: nat) {
    forall i :: 0 <= i < |results| ==> results[i].0 < n && results[i].0 in owner && owner[results[i].0] == results[i].1
  }

  ghost predicate Inv(s: State, g: Aux) {
    && Chained(s.tables, s.main)
    && Entries(s.tables, s.hashed, g)
    && Values(s.tables, s.pc, g.owner)
    && Homes(s.tables, g)
    && Ordered(g, s.count)
    && Threads(s.tables, s.hashed, s.pc, g)
    && Private(s.pc, g.owner, s.made)
    && LockOk(s.lock, s.main, s.pc)
    && Reported(s.results, g.owner, |s.pc|)
  }

  lemma InvIsWf(s: State, g: Aux)
    requires Inv(s, g)
    ensures Wf(s)
  {
    hide Entries, Values, Homes, Ordered, Private, LockOk, Reported, UsedRun, Avoids, Absent, Counted;
    forall t | 0 <= t < |s.pc| ensures PcWf(s.pc[t], |s.tables|) {
      assert PcOk(s.tables, s.hashed[t], g, t, s.pc[t]);
    }
  }

  // ---------------------------------------------------------------- how full a table can be

  ghost function Position(order: seq<Tid>, t: Tid): (i: nat)
    requires t in order
    ensures i < |order| && order[i] == t
  {
    var i :| 0 <= i < |order| && order[i] == t; i
  }

  /** Slots in use hold ids whose place in the order of counting is below the limit, so there are
      fewer of them than three quarters of the capacity. */
  lemma UsedSlotsAreFew(s: State, g: Aux, j: nat, ps: seq<nat>)
    requires Chained(s.tables, s.main) && Entries(s.tables, s.hashed, g) && Ordered(g, s.count) && j < |s.tables|
    requires forall i :: 0 <= i < |ps| ==> ps[i] < |s.tables[j].slots| && s.tables[j].slots[ps[i]].key.Some?
    requires forall i, k :: 0 <= i < k < |ps| ==> ps[i] != ps[k]
    ensures |ps| < Limit(Capacity(s.tables[j]))
  {
    var slots := s.tables[j].slots;
    hide UsedRun;
    forall i | 0 <= i < |ps| ensures EntryOk(slots, ps[i], slots[ps[i]].key.value, s.hashed, g) {}
    var f := seq(|ps|, i requires 0 <= i < |ps| => Position(g.order, slots[ps[i]].key.value));
    forall i | 0 <= i < |f| ensures f[i] < Limit(|slots|) - 1 {
      assert g.nc[g.order[f[i]]] >= f[i] + 1;
    }
    forall i, k | 0 <= i < k < |f| ensures f[i] != f[k] {
      assert ps[i] != ps[k];
    }
    Pigeonhole(f, Limit(|slots|) - 1);
  }

  lemma RunIsShort(s: State, g: Aux, j: nat, start: nat, k: nat)
    requires Chained(s.tables, s.main) && Entries(s.tables, s.hashed, g) && Ordered(g, s.count) && j < |s.tables|
    requires UsedRun(s.tables[j].slots, start, k) && k <= |s.tables[j].slots|
    ensures k < Limit(Capacity(s.tables[j]))
  {
    var n := |s.tables[j].slots|;
    var ps := seq(k, i requires 0 <= i < k => Index(start, i, n));
    forall i, l | 0 <= i < l < k ensures ps[i] != ps[l] {
      if ps[i] == ps[l] { IndexInjective(start, i, l, n); }
    }
    UsedSlotsAreFew(s, g, j, ps);
  }

  /** An empty slot ends the search: an id further on would have been put here. */
  lemma EmptyEndsSearch(slots: seq<Slot>, t: Tid, hashed: seq<nat>, g: Aux, k: nat)
    requires |slots| > 0 && k < |slots| && t < |hashed|
    requires forall p :: 0 <= p < |slots| && slots[p].key.Some? ==> EntryOk(slots, p, slots[p].key.value, hashed, g)
    requires Avoids(slots, hashed[t], k, t) && slots[Index(hashed[t], k, |slots|)].key == None
    ensures !Has(slots, t)
  {
    if p :| 0 <= p < |slots| && slots[p].key == Some(t) {
      assert EntryOk(slots, p, t, hashed, g);
      IndexOfDistance(hashed[t], p, |slots|);
    }
  }
}
