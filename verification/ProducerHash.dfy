/** The chained, resizing hash table from thread ids to implicit producers, as a transition system.
    Every thread that calls `get_or_add_implicit_producer` searches all tables, then copies its entry
    to the newest or inserts a new one; one of them at a time may append a larger table.

    Threads are numbered and stand for their ids; what an id hashes to is arbitrary. */
module ProducerHash {

  const INITIAL_HASH_SIZE: nat := 32

  type Tid = nat
  type Producer = nat

  datatype Option<+T> = None | Some(value: T)

  /** `None` as a key is `invalid_thread_id`. The value is written after the key. */
  datatype Slot = Slot(key: Option<Tid>, value: Option<Producer>)

  datatype Table = Table(slots: seq<Slot>, prev: Option<nat>)

  /** The next atomic operation of a thread. `main` is its local mainHash, `k` counts the slots
      probed, and `n` is its local newCount. */
  datatype Pc =
    | Idle
    | Start                                             // load implicitProducerHash
    | Probe(main: nat, h: nat, k: nat)                  // load a key of table h
    | Put(main: nat, producer: Producer, k: nat)        // load a key of the table to add to
    | PutCas(main: nat, producer: Producer, k: nat)     // claim the slot found empty
    | PutValue(main: nat, producer: Producer, k: nat)   // store the value
    | Count(main: nat)                                  // fetch_add on the count
    | TryLock(main: nat, n: int)                        // test_and_set the resize flag
    | Locked(n: int)                                    // reload implicitProducerHash
    | Alloc(main: nat, n: int)                          // allocate and install a larger table
    | Unlock(main: nat, n: int)
    | AllocFailed                                       // fetch_sub,
    | AllocFailedUnlock                                 // then clear the flag
    | Create(main: nat, n: int)                         // create the producer
    | CreateFailed                                      // fetch_sub
    | Reload(n: int)                                    // wait for the other thread's table
    | Done(producer: Producer)
    | Failed

  /** `results` records what every call has returned, in order. */
  datatype State = State(
    hashed: seq<nat>,
    tables: seq<Table>,
    main: nat,
    count: int,
    lock: bool,
    made: nat,
    pc: seq<Pc>,
    results: seq<(Tid, Producer)>)

  datatype Action =
    | Call(t: Tid)
    | Run(t: Tid, ok: bool)     // `ok`: whether an allocation in this step succeeds
    | Return(t: Tid)

  function Capacity(table: Table): nat {
    |table.slots|
  }

  /** Three quarters of the capacity, as the code computes it. */
  function Limit(capacity: nat): nat {
    capacity / 2 + capacity / 4
  }

  /** The slot probed at the k-th attempt. */
  function Index(hashed: nat, k: nat, capacity: nat): (p: nat)
    requires capacity > 0
    ensures p < capacity
  {
    (hashed + k) % capacity
  }

  function NewCapacity(capacity: nat, n: int): nat
    requires capacity > 0
    decreases n - capacity / 2 + 1
  {
    if n >= capacity / 2 then NewCapacity(capacity * 2, n) else capacity
  }

  ghost predicate Wf(s: State) {
    && s.main < |s.tables| && |s.hashed| == |s.pc|
    && (forall j :: 0 <= j < |s.tables| ==> Capacity(s.tables[j]) > 0)
    && (forall j :: 0 <= j < |s.tables| && s.tables[j].prev.Some? ==> s.tables[j].prev.value < |s.tables|)
    && forall t :: 0 <= t < |s.pc| ==> PcWf(s.pc[t], |s.tables|)
  }

  ghost predicate PcWf(pc: Pc, n: nat) {
    match pc
    case Probe(m, h, _) => m < n && h < n
    case Put(m, _, _) => m < n
    case PutCas(m, _, _) => m < n
    case PutValue(m, _, _) => m < n
    case Count(m) => m < n
    case TryLock(m, _) => m < n
    case Alloc(m, _) => m < n
    case Unlock(m, _) => m < n
    case Create(m, _) => m < n
    case _ => true
  }

  /** The test that follows the resize block. */
  ghost function AfterResize(tables: seq<Table>, m: nat, n: int): Pc
    requires m < |tables|
  {
    if n < Limit(Capacity(tables[m])) then Create(m, n) else Reload(n)
  }

  /** The head of the insertion loop. */
  ghost function LoopHead(tables: seq<Table>, m: nat, n: int): Pc
    requires m < |tables|
  {
    if n >= Capacity(tables[m]) / 2 then TryLock(m, n) else AfterResize(tables, m, n)
  }

  ghost function EmptyTable(capacity: nat, prev: nat): Table {
    Table(seq(capacity, _ => Slot(None, None)), Some(prev))
  }

  ghost function SlotAt(s: State, t: Tid, h: nat, k: nat): Slot
    requires Wf(s) && t < |s.pc| && h < |s.tables|
  {
    s.tables[h].slots[Index(s.hashed[t], k, Capacity(s.tables[h]))]
  }

  ghost function WithSlot(s: State, t: Tid, h: nat, k: nat, slot: Slot): seq<Table>
    requires Wf(s) && t < |s.pc| && h < |s.tables|
  {
    s.tables[h := s.tables[h].(slots := s.tables[h].slots[Index(s.hashed[t], k, Capacity(s.tables[h])) := slot])]
  }

  ghost function Exec(s: State, t: Tid, ok: bool): State
    requires Wf(s) && t < |s.pc|
  {
    match s.pc[t]
    case Start =>
      s.(pc := s.pc[t := Probe(s.main, s.main, 0)])
    case Probe(m, h, k) =>
      var slot := SlotAt(s, t, h, k);
      s.(pc := s.pc[t :=
        if slot.key == Some(t) then
          var v := if slot.value.Some? then slot.value.value else 0;
          if h != m then Put(m, v, 0) else Done(v)
        else if slot.key == None then
          (if s.tables[h].prev == None then Count(m) else Probe(m, s.tables[h].prev.value, 0))
        else Probe(m, h, k + 1)])
    case Put(m, v, k) =>
      s.(pc := s.pc[t := if SlotAt(s, t, m, k).key == None then PutCas(m, v, k) else Put(m, v, k + 1)])
    case PutCas(m, v, k) =>
      if SlotAt(s, t, m, k).key == None then
        s.(tables := WithSlot(s, t, m, k, SlotAt(s, t, m, k).(key := Some(t))), pc := s.pc[t := PutValue(m, v, k)])
      else
        s.(pc := s.pc[t := Put(m, v, k + 1)])
    case PutValue(m, v, k) =>
      s.(tables := WithSlot(s, t, m, k, SlotAt(s, t, m, k).(value := Some(v))), pc := s.pc[t := Done(v)])
    case Count(m) =>
      s.(count := s.count + 1, pc := s.pc[t := LoopHead(s.tables, m, s.count + 1)])
    case TryLock(m, n) =>
      if s.lock then s.(pc := s.pc[t := AfterResize(s.tables, m, n)]) else s.(lock := true, pc := s.pc[t := Locked(n)])
    case Locked(n) =>
      s.(pc := s.pc[t := if n >= Capacity(s.tables[s.main]) / 2 then Alloc(s.main, n) else Unlock(s.main, n)])
    case Alloc(m, n) =>
      if ok then
        s.(tables := s.tables + [EmptyTable(NewCapacity(Capacity(s.tables[m]) * 2, n), m)],
           main := |s.tables|,
           pc := s.pc[t := Unlock(|s.tables|, n)])
      else
        s.(pc := s.pc[t := AllocFailed])
    case Unlock(m, n) =>
      s.(lock := false, pc := s.pc[t := AfterResize(s.tables, m, n)])
    case AllocFailed =>
      s.(count := s.count - 1, pc := s.pc[t := AllocFailedUnlock])
    case AllocFailedUnlock =>
      s.(lock := false, pc := s.pc[t := Failed])
    case Create(m, n) =>
      if ok then s.(made := s.made + 1, pc := s.pc[t := Put(m, s.made, 0)]) else s.(pc := s.pc[t := CreateFailed])
    case CreateFailed =>
      s.(count := s.count - 1, pc := s.pc[t := Failed])
    case Reload(n) =>
      s.(pc := s.pc[t := LoopHead(s.tables, s.main, n)])
    case _ => s
  }

  ghost predicate Enabled(s: State, a: Action) {
    && Wf(s)
    && match a
       case Call(t) => t < |s.pc| && s.pc[t] == Idle
       case Run(t, _) => t < |s.pc| && !s.pc[t].Idle? && !s.pc[t].Done? && !s.pc[t].Failed?
       case Return(t) => t < |s.pc| && (s.pc[t].Done? || s.pc[t].Failed?)
  }

  ghost function Next(s: State, a: Action): State
    requires Enabled(s, a)
  {
    match a
    case Call(t) => s.(pc := s.pc[t := Start])
    case Run(t, ok) => Exec(s, t, ok)
    case Return(t) =>
      s.(results := if s.pc[t].Done? then s.results + [(t, s.pc[t].producer)] else s.results,
         pc := s.pc[t := Idle])
  }

  ghost predicate Init(s: State) {
    && s.tables == [Table(seq(INITIAL_HASH_SIZE, _ => Slot(None, None)), None)]
    && s.main == 0 && s.count == 0 && !s.lock && s.results == []
    && |s.hashed| == |s.pc| && forall t :: 0 <= t < |s.pc| ==> s.pc[t] == Idle
  }

  ghost predicate Runs(first: State, run: seq<Action>, last: State)
    decreases |run|
  {
    if run == [] then first == last
    else Enabled(first, run[0]) && Runs(Next(first, run[0]), run[1..], last)
  }

  ghost predicate Reachable(s: State) {
    exists first, run :: Init(first) && Runs(first, run, s)
  }
}
