/** The lock-free free list of blocks, as a transition system in which one atomic
    operation of one thread is one step (sequential consistency).

    Any number of threads run `add` and `try_get` at once. A node's reference word holds
    a 31-bit count and, in its top bit, the "should be on the free list" flag. */
module FreeList {

  type Tid = nat
  type Node = nat

  const REFS_MASK: nat := 0x7FFF_FFFF
  const SHOULD_BE_ON_FREELIST: nat := 0x8000_0000
  const WORD: nat := 0x1_0000_0000

  datatype Ptr = Null | At(node: Node)

  /** Where `add_knowing_refcount_is_zero` was called from: `add`, or the middle of
      `try_get`, which goes on with the head it already holds. */
  datatype Caller = FromAdd | FromTryGet(head: Ptr)

  /** The next atomic operation of a thread, with its local variables. */
  datatype Pc =
    | Idle
      // add_knowing_refcount_is_zero
    | LoadHead(node: Node, caller: Caller)
    | StoreNext(node: Node, head: Ptr, caller: Caller)
    | StoreRefs(node: Node, head: Ptr, caller: Caller)
    | CasPush(node: Node, head: Ptr, caller: Caller)
    | Requeue(node: Node, head: Ptr, caller: Caller)
      // try_get
    | GetLoad
    | GetLoop(head: Ptr)
    | GetCas(node: Node, seen: int)
    | GetNext(node: Node)
    | GetPop(node: Node, next: Ptr)
    | GetTaken(node: Node)
    | GetDrop(node: Node, head: Ptr)

  datatype State = State(
    head: Ptr,
    refs: map<Node, int>,
    next: map<Node, Ptr>,
    held: map<Tid, set<Node>>,   // the nodes each client thread owns
    pc: map<Tid, Pc>)

  /** What a thread does next. `Run` executes its next atomic operation. */
  datatype Action =
    | Allocate(brandNew: Node)
    | Give(to: Tid, given: Node)
    | CallAdd(added: Node)
    | CallTryGet
    | Run

  function Resume(caller: Caller): Pc {
    match caller
    case FromAdd => Idle
    case FromTryGet(head) => GetLoop(head)
  }

  /** fetch_add on a 32-bit word; `amount` may be negative. */
  function Wrapped(word: int): (w: int) {
    word % WORD
  }

  ghost predicate Wf(s: State) {
    && s.refs.Keys == s.next.Keys
    && s.held.Keys == s.pc.Keys
    && forall t :: t in s.pc ==> PcWf(s.pc[t], s.refs.Keys)
  }

  ghost predicate PtrWf(p: Ptr, nodes: set<Node>) {
    p.At? ==> p.node in nodes
  }

  ghost predicate PcWf(pc: Pc, nodes: set<Node>) {
    match pc
    case Idle => true
    case LoadHead(n, _) => n in nodes
    case StoreNext(n, _, _) => n in nodes
    case StoreRefs(n, _, _) => n in nodes
    case CasPush(n, _, _) => n in nodes
    case Requeue(n, _, _) => n in nodes
    case GetLoad => true
    case GetLoop(h) => PtrWf(h, nodes)
    case GetCas(n, _) => n in nodes
    case GetNext(n) => n in nodes
    case GetPop(n, _) => n in nodes
    case GetTaken(n) => n in nodes
    case GetDrop(n, _) => n in nodes
  }

  /** The atomic operation at a thread's program counter. */
  ghost function Exec(s: State, t: Tid): State
    requires Wf(s) && t in s.pc
  {
    match s.pc[t]
    case Idle => s
    case LoadHead(n, caller) =>
      s.(pc := s.pc[t := StoreNext(n, s.head, caller)])
    case StoreNext(n, h, caller) =>
      s.(next := s.next[n := h], pc := s.pc[t := StoreRefs(n, h, caller)])
    case StoreRefs(n, h, caller) =>
      s.(refs := s.refs[n := 1], pc := s.pc[t := CasPush(n, h, caller)])
    case CasPush(n, h, caller) =>
      if s.head == h then
        s.(head := At(n), pc := s.pc[t := Resume(caller)])
      else
        s.(pc := s.pc[t := Requeue(n, s.head, caller)])
    case Requeue(n, h, caller) =>
      s.(refs := s.refs[n := Wrapped(s.refs[n] + SHOULD_BE_ON_FREELIST - 1)],
         pc := s.pc[t := if s.refs[n] == 1 then StoreNext(n, h, caller) else Resume(caller)])
    case GetLoad =>
      s.(pc := s.pc[t := GetLoop(s.head)])
    case GetLoop(h) =>
      (match h
       case Null => s.(pc := s.pc[t := Idle])
       case At(n) => s.(pc := s.pc[t := GetCas(n, s.refs[n])]))
    case GetCas(n, seen) =>
      if seen % (REFS_MASK + 1) == 0 || s.refs[n] != seen then
        s.(pc := s.pc[t := GetLoad])
      else
        s.(refs := s.refs[n := Wrapped(seen + 1)], pc := s.pc[t := GetNext(n)])
    case GetNext(n) =>
      s.(pc := s.pc[t := GetPop(n, s.next[n])])
    case GetPop(n, next) =>
      if s.head == At(n) then
        s.(head := next, pc := s.pc[t := GetTaken(n)])
      else
        s.(pc := s.pc[t := GetDrop(n, s.head)])
    case GetTaken(n) =>
      s.(refs := s.refs[n := Wrapped(s.refs[n] - 2)],
         held := (if t in s.held then s.held[t := s.held[t] + {n}] else s.held),
         pc := s.pc[t := Idle])
    case GetDrop(n, h) =>
      s.(refs := s.refs[n := Wrapped(s.refs[n] - 1)],
         pc := s.pc[t := if s.refs[n] == SHOULD_BE_ON_FREELIST + 1
                         then LoadHead(n, FromTryGet(h)) else GetLoop(h)])
  }

  ghost predicate Enabled(s: State, t: Tid, a: Action) {
    && Wf(s) && t in s.pc
    && match a
       case Allocate(n) => s.pc[t] == Idle && n !in s.refs
       case Give(to, n) => s.pc[t] == Idle && n in s.held[t] && to in s.held && to != t
       case CallAdd(n) => s.pc[t] == Idle && n in s.held[t] && n in s.refs
       case CallTryGet => s.pc[t] == Idle
       case Run => s.pc[t] != Idle
  }

  ghost function Next(s: State, t: Tid, a: Action): State
    requires Enabled(s, t, a)
  {
    match a
    case Allocate(n) =>
      s.(refs := s.refs[n := 0], next := s.next[n := Null], held := s.held[t := s.held[t] + {n}])
    case Give(to, n) =>
      s.(held := s.held[t := s.held[t] - {n}][to := s.held[to] + {n}])
    case CallAdd(n) =>
      s.(refs := s.refs[n := Wrapped(s.refs[n] + SHOULD_BE_ON_FREELIST)],
         held := s.held[t := s.held[t] - {n}],
         pc := s.pc[t := if s.refs[n] == 0 then LoadHead(n, FromAdd) else Idle])
    case CallTryGet =>
      s.(pc := s.pc[t := GetLoad])
    case Run =>
      Exec(s, t)
  }

  /** An empty list shared by fewer than 2^31 - 1 threads, none of which owns anything. */
  ghost predicate Init(s: State) {
    && s.head == Null && s.refs == map[] && s.next == map[]
    && s.held.Keys == s.pc.Keys
    && (forall t :: t in s.pc ==> s.pc[t] == Idle && s.held[t] == {})
    && |s.pc| < REFS_MASK
  }

  datatype Event = Event(t: Tid, a: Action)

  /** `run` takes `first` to `last`, each event enabled where it happens. */
  ghost predicate Runs(first: State, run: seq<Event>, last: State)
    decreases |run|
  {
    if run == [] then first == last
    else Enabled(first, run[0].t, run[0].a) && Runs(Next(first, run[0].t, run[0].a), run[1..], last)
  }

  ghost predicate Reachable(s: State) {
    exists first, run :: Init(first) && Runs(first, run, s)
  }

  // ---------------------------------------------------------------- the invariant

  /** Where a node is. */
  datatype Place = Owned(t: Tid) | OnList | Adding(t: Tid) | Popped(t: Tid) | Waiting

  /** The witness the invariant is stated with: the list from the head on, and the place of
      every node. It is not part of the state. */
  datatype Aux = Aux(list: seq<Node>, place: map<Node, Place>)

  ghost predicate HoldsRef(pc: Pc, n: Node) {
    (pc.GetNext? || pc.GetPop? || pc.GetTaken? || pc.GetDrop?) && pc.node == n
  }

  ghost predicate AddsNode(pc: Pc, n: Node) {
    (AddsAtZero(pc) || pc.CasPush? || pc.Requeue?) && pc.node == n
  }

  /** The flag is set and the count zero while the node's next pointer is being written. */
  ghost predicate AddsAtZero(pc: Pc) {
    pc.LoadHead? || pc.StoreNext? || pc.StoreRefs?
  }

  ghost function Holders(pc: map<Tid, Pc>, n: Node): set<Tid> {
    set t | t in pc && HoldsRef(pc[t], n)
  }

  /** The part of the reference word that is not the references of threads in `try_get`. */
  ghost function Base(pc: map<Tid, Pc>, p: Place): int {
    match p
    case Owned(_) => 0
    case OnList => 1
    case Popped(_) => 1
    case Waiting => SHOULD_BE_ON_FREELIST
    case Adding(t) => if t in pc && AddsAtZero(pc[t]) then SHOULD_BE_ON_FREELIST else 1
  }

  ghost function PtrAt(list: seq<Node>, i: nat): Ptr {
    if i < |list| then At(list[i]) else Null
  }

  /** The next pointers from the head on spell `list`, which has no node twice. */
  ghost predicate Listed(s: State, list: seq<Node>) {
    && s.head == PtrAt(list, 0)
    && (forall i :: 0 <= i < |list| ==> list[i] in s.next && s.next[list[i]] == PtrAt(list, i + 1))
    && (forall i, j :: 0 <= i < j < |list| ==> list[i] != list[j])
  }

  /** Node `n` is at `p` and nowhere else. */
  ghost predicate PlaceOk(s: State, list: seq<Node>, p: Place, n: Node) {
    && (p.Owned? ==> p.t in s.held)
    && (p.Adding? || p.Popped? ==> p.t in s.pc)
    && (forall t :: t in s.held ==> (n in s.held[t] <==> p == Owned(t)))
    && (n in list <==> p == OnList)
    && (forall t :: t in s.pc ==> (AddsNode(s.pc[t], n) <==> p == Adding(t)))
    && (forall t :: t in s.pc ==> (s.pc[t] == GetTaken(n) <==> p == Popped(t)))
  }

  /** The reference word of `n` counts exactly who refers to it. */
  ghost predicate CountOk(pc: map<Tid, Pc>, refs: int, p: Place, n: Node) {
    && refs == Base(pc, p) + |Holders(pc, n)|
    && (p.Waiting? ==> Holders(pc, n) != {})
    && (p.Adding? && p.t in pc && AddsAtZero(pc[p.t]) ==> Holders(pc, n) == {})
  }

  ghost predicate Placed(s: State, g: Aux) {
    && g.place.Keys == s.refs.Keys
    && (forall t, n :: t in s.held && n in s.held[t] ==> n in s.refs)
    && (forall n :: n in g.list ==> n in s.refs)
    && (forall n :: n in s.refs ==> PlaceOk(s, g.list, g.place[n], n))
  }

  ghost predicate Counted(s: State, g: Aux) {
    && g.place.Keys == s.refs.Keys
    && |s.pc| < REFS_MASK
    && (forall n :: n in s.refs ==> CountOk(s.pc, s.refs[n], g.place[n], n))
  }

  /** Every pointer a thread remembers is a node, and a next pointer it has stored, or has
      read under a reference, is still the node's next pointer. */
  ghost predicate ThreadOk(next: map<Node, Ptr>, pc: Pc) {
    && PcWf(pc, next.Keys)
    && (pc.StoreRefs? || pc.CasPush? ==> next[pc.node] == pc.head)
    && (pc.GetPop? ==> next[pc.node] == pc.next)
    && match pc
       case LoadHead(_, caller) => CallerWf(caller, next.Keys)
       case StoreNext(_, h, caller) => PtrWf(h, next.Keys) && CallerWf(caller, next.Keys)
       case StoreRefs(_, h, caller) => PtrWf(h, next.Keys) && CallerWf(caller, next.Keys)
       case CasPush(_, h, caller) => PtrWf(h, next.Keys) && CallerWf(caller, next.Keys)
       case Requeue(_, h, caller) => PtrWf(h, next.Keys) && CallerWf(caller, next.Keys)
       case GetPop(_, following) => PtrWf(following, next.Keys)
       case GetDrop(_, h) => PtrWf(h, next.Keys)
       case _ => true
  }

  ghost predicate NextStable(s: State) {
    && s.refs.Keys == s.next.Keys
    && PtrWf(s.head, s.next.Keys)
    && (forall n :: n in s.next ==> PtrWf(s.next[n], s.next.Keys))
    && (forall t :: t in s.pc ==> ThreadOk(s.next, s.pc[t]))
  }

  ghost predicate CallerWf(caller: Caller, nodes: set<Node>) {
    caller.FromTryGet? ==> PtrWf(caller.head, nodes)
  }

  ghost predicate Inv(s: State, g: Aux) {
    && Wf(s) && Listed(s, g.list) && Placed(s, g) && Counted(s, g) && NextStable(s)
  }

  /** How the witness moves with a step. */
  ghost function NextAux(s: State, g: Aux, t: Tid, a: Action): Aux
    requires Enabled(s, t, a)
  {
    match a
    case Allocate(n) => g.(place := g.place[n := Owned(t)])
    case Give(to, n) => g.(place := g.place[n := Owned(to)])
    case CallAdd(n) => g.(place := g.place[n := if s.refs[n] == 0 then Adding(t) else Waiting])
    case CallTryGet => g
    case Run =>
      match s.pc[t]
      case CasPush(n, h, _) =>
        if s.head == h then Aux([n] + g.list, g.place[n := OnList]) else g
      case Requeue(n, _, _) =>
        if s.refs[n] == 1 then g else g.(place := g.place[n := Waiting])
      case GetPop(n, _) =>
        if s.head == At(n) && g.list != [] then Aux(g.list[1..], g.place[n := Popped(t)]) else g
      case GetTaken(n) => g.(place := g.place[n := Owned(t)])
      case GetDrop(n, _) =>
        if s.refs[n] == SHOULD_BE_ON_FREELIST + 1 then g.(place := g.place[n := Adding(t)]) else g
      case _ => g
  }

  /** Only the stepping thread's membership in the reference sets can change. */
  lemma HoldersUpdate(pc: map<Tid, Pc>, t: Tid, p: Pc, n: Node)
    requires t in pc
    ensures |Holders(pc[t := p], n)| ==
            |Holders(pc, n)| - (if HoldsRef(pc[t], n) then 1 else 0) + (if HoldsRef(p, n) then 1 else 0)
    ensures |Holders(pc, n)| <= |pc|
  {
    var before := Holders(pc, n);
    assert Holders(pc[t := p], n) == if HoldsRef(p, n) then before + {t} else before - {t};
    assert t in before <==> HoldsRef(pc[t], n);
    SubsetSize(before, pc.Keys);
  }

  lemma {:induction false} SubsetSize<T>(a: set<T>, b: set<T>)
    requires a <= b
    ensures |a| <= |b|
  {
    if a != {} {
      var x :| x in a;
      SubsetSize(a - {x}, b - {x});
    }
  }

  ghost predicate HasNode(pc: Pc) {
    pc != Idle && pc != GetLoad && !pc.GetLoop?
  }

  /** The thread adds a node or holds a reference to one. */
  ghost predicate HasRole(pc: Pc) {
    HasNode(pc) && !pc.GetCas?
  }

  /** The count and the place of one node. */
  ghost predicate NodeOk(s: State, g: Aux, n: Node) {
    && n in s.refs && n in g.place
    && PlaceOk(s, g.list, g.place[n], n)
    && CountOk(s.pc, s.refs[n], g.place[n], n)
  }

  /** A step of `t` that concerns no node outside `ns`. */
  ghost predicate Touches(s: State, s': State, t: Tid, ns: set<Node>) {
    && t in s.pc && s'.pc.Keys == s.pc.Keys && s'.pc == s.pc[t := s'.pc[t]]
    && (HasRole(s.pc[t]) ==> s.pc[t].node in ns)
    && (HasRole(s'.pc[t]) ==> s'.pc[t].node in ns)
    && (forall m :: m !in ns ==> (m in s'.refs <==> m in s.refs))
    && (forall m :: m !in ns && m in s.refs ==> s'.refs[m] == s.refs[m])
    && s'.held.Keys == s.held.Keys
    && (forall u, m :: u in s.held && m !in ns ==> (m in s'.held[u] <==> m in s.held[u]))
  }

  lemma PlaceElsewhere(s: State, list: seq<Node>, s': State, list': seq<Node>, p: Place, t: Tid, ns: set<Node>, m: Node)
    requires Touches(s, s', t, ns) && m !in ns && PlaceOk(s, list, p, m)
    requires m in list' <==> m in list
    ensures PlaceOk(s', list', p, m)
  {
  }

  lemma CountElsewhere(s: State, list: seq<Node>, s': State, p: Place, t: Tid, ns: set<Node>, m: Node)
    requires Touches(s, s', t, ns) && m !in ns && PlaceOk(s, list, p, m) && m in s.refs
    requires CountOk(s.pc, s.refs[m], p, m)
    ensures CountOk(s'.pc, s'.refs[m], p, m)
  {
    HoldersElsewhere(s, s', t, ns, m);
    NotAddedElsewhere(s, list, s', p, t, ns, m);
    hide Holders, PlaceOk;
  }

  lemma HoldersElsewhere(s: State, s': State, t: Tid, ns: set<Node>, m: Node)
    requires Touches(s, s', t, ns) && m !in ns
    ensures Holders(s'.pc, m) == Holders(s.pc, m)
  {
    forall u | u in s.pc
      ensures HoldsRef(s'.pc[u], m) <==> HoldsRef(s.pc[u], m)
    {
      if u != t { assert s'.pc[u] == s.pc[u]; }
    }
  }

  lemma NotAddedElsewhere(s: State, list: seq<Node>, s': State, p: Place, t: Tid, ns: set<Node>, m: Node)
    requires Touches(s, s', t, ns) && m !in ns && PlaceOk(s, list, p, m)
    ensures p != Adding(t)
    ensures forall u :: u in s.pc && u != t ==> s'.pc[u] == s.pc[u]
  {
  }

  /** A step that touches `ns` keeps every node's place and count, if it keeps those of `ns`. */
  lemma Touched(s: State, g: Aux, s': State, g': Aux, t: Tid, ns: set<Node>)
    requires Placed(s, g) && Counted(s, g) && Touches(s, s', t, ns)
    requires g'.place.Keys == s'.refs.Keys
    requires forall m :: m in g.place && m !in ns ==> m in g'.place && g'.place[m] == g.place[m]
    requires forall m :: m !in ns ==> (m in g'.list <==> m in g.list)
    requires forall n :: n in ns ==> NodeOk(s', g', n)
    ensures Placed(s', g') && Counted(s', g')
  {
    hide PlaceOk, CountOk;
    forall m | m in s'.refs && m !in ns
      ensures PlaceOk(s', g'.list, g'.place[m], m) && CountOk(s'.pc, s'.refs[m], g'.place[m], m)
    {
      PlaceElsewhere(s, g.list, s', g'.list, g.place[m], t, ns, m);
      CountElsewhere(s, g.list, s', g.place[m], t, ns, m);
    }
    forall u, m | u in s'.held && m in s'.held[u] ensures m in s'.refs {
      if m in ns { assert NodeOk(s', g', m); }
    }
    assert |s'.pc| == |s.pc| by { assert |s'.pc.Keys| == |s.pc.Keys|; }
  }

  /** What is known of the node a thread works on. */
  lemma NodeFacts(s: State, g: Aux, t: Tid, n: Node)
    requires NodeOk(s, g, n) && t in s.pc
    ensures AddsNode(s.pc[t], n) <==> g.place[n] == Adding(t)
    ensures s.pc[t] == GetTaken(n) <==> g.place[n] == Popped(t)
    ensures n in g.list <==> g.place[n] == OnList
    ensures forall u :: u in s.held ==> (n in s.held[u] <==> g.place[n] == Owned(u))
    ensures g.place[n].Owned? ==> g.place[n].t in s.held
    ensures s.refs[n] == Base(s.pc, g.place[n]) + |Holders(s.pc, n)|
    ensures HoldsRef(s.pc[t], n) || g.place[n].Waiting? ==> |Holders(s.pc, n)| > 0
    ensures AddsAtZero(s.pc[t]) && s.pc[t].node == n ==> |Holders(s.pc, n)| == 0
    ensures |Holders(s.pc, n)| <= |s.pc|
    ensures g.place[n].Adding? && g.place[n].t in s.pc && AddsAtZero(s.pc[g.place[n].t]) ==> |Holders(s.pc, n)| == 0
  {
    SubsetSize(Holders(s.pc, n), s.pc.Keys);
    if HoldsRef(s.pc[t], n) { assert t in Holders(s.pc, n); }
  }

  /** A step of `t` that moves `n` from place to place agrees with its own new program counter. */
  lemma PlaceMoves(s: State, list: seq<Node>, p: Place, s': State, list': seq<Node>, p': Place, t: Tid, n: Node)
    requires t in s.pc && s'.pc.Keys == s.pc.Keys && s'.pc == s.pc[t := s'.pc[t]]
    requires s'.held.Keys == s.held.Keys
    requires PlaceOk(s, list, p, n)
    requires AddsNode(s'.pc[t], n) <==> p' == Adding(t)
    requires s'.pc[t] == GetTaken(n) <==> p' == Popped(t)
    requires n in list' <==> p' == OnList
    requires forall u :: u in s'.held ==> (n in s'.held[u] <==> p' == Owned(u))
    requires p'.Owned? ==> p'.t in s.held
    requires p == p' || ((p.Adding? || p.Popped? ==> p.t == t) && (p'.Adding? || p'.Popped? ==> p'.t == t))
    ensures PlaceOk(s', list', p', n)
  {
  }

  /** ... and the count follows the reference that `t` takes or drops. */
  lemma CountMoves(pc: map<Tid, Pc>, refs: int, p: Place, t: Tid, pc': map<Tid, Pc>, refs': int, p': Place, n: Node)
    requires t in pc && t in pc' && pc' == pc[t := pc'[t]]
    requires refs == Base(pc, p) + |Holders(pc, n)|
    requires refs' - Base(pc', p') - (if HoldsRef(pc'[t], n) then 1 else 0)
          == refs - Base(pc, p) - (if HoldsRef(pc[t], n) then 1 else 0)
    requires p'.Waiting? ==> refs' > SHOULD_BE_ON_FREELIST
    requires p'.Adding? && p'.t in pc' && AddsAtZero(pc'[p'.t]) ==> refs' == SHOULD_BE_ON_FREELIST
    ensures CountOk(pc', refs', p', n)
  {
    HoldersUpdate(pc, t, pc'[t], n);
  }

  /** What a step on `n` may rely on. */
  ghost predicate StepsOn(s: State, g: Aux, t: Tid, n: Node) {
    && Enabled(s, t, Run) && HasNode(s.pc[t]) && n == s.pc[t].node
    && NodeOk(s, g, n)
    && |s.pc| < REFS_MASK
    && (s.head == At(n) ==> n in g.list && n !in g.list[1..])
  }

  lemma StorePlace(s: State, g: Aux, t: Tid, n: Node)
    requires StepsOn(s, g, t, n) && AddsAtZero(s.pc[t])
    ensures PlaceOk(Exec(s, t), NextAux(s, g, t, Run).list, NextAux(s, g, t, Run).place[n], n)
  {
    hide PlaceOk, CountOk, Holders, PcWf;
    NodeFacts(s, g, t, n);
    PlaceMoves(s, g.list, g.place[n], Exec(s, t), NextAux(s, g, t, Run).list, NextAux(s, g, t, Run).place[n], t, n);
  }

  lemma StoreCount(s: State, g: Aux, t: Tid, n: Node)
    requires StepsOn(s, g, t, n) && AddsAtZero(s.pc[t])
    ensures CountOk(Exec(s, t).pc, Exec(s, t).refs[n], NextAux(s, g, t, Run).place[n], n)
  {
    hide PlaceOk, CountOk, Holders, PcWf;
    NodeFacts(s, g, t, n);
    CountMoves(s.pc, s.refs[n], g.place[n], t, Exec(s, t).pc, Exec(s, t).refs[n], NextAux(s, g, t, Run).place[n], n);
  }

  lemma CasPushPlace(s: State, g: Aux, t: Tid, n: Node)
    requires StepsOn(s, g, t, n) && s.pc[t].CasPush?
    ensures PlaceOk(Exec(s, t), NextAux(s, g, t, Run).list, NextAux(s, g, t, Run).place[n], n)
  {
    hide PlaceOk, CountOk, Holders, PcWf;
    NodeFacts(s, g, t, n);
    PlaceMoves(s, g.list, g.place[n], Exec(s, t), NextAux(s, g, t, Run).list, NextAux(s, g, t, Run).place[n], t, n);
  }

  lemma CasPushCount(s: State, g: Aux, t: Tid, n: Node)
    requires StepsOn(s, g, t, n) && s.pc[t].CasPush?
    ensures CountOk(Exec(s, t).pc, Exec(s, t).refs[n], NextAux(s, g, t, Run).place[n], n)
  {
    hide PlaceOk, CountOk, Holders, PcWf;
    NodeFacts(s, g, t, n);
    CountMoves(s.pc, s.refs[n], g.place[n], t, Exec(s, t).pc, Exec(s, t).refs[n], NextAux(s, g, t, Run).place[n], n);
  }

  lemma RequeuePlace(s: State, g: Aux, t: Tid, n: Node)
    requires StepsOn(s, g, t, n) && s.pc[t].Requeue?
    ensures PlaceOk(Exec(s, t), NextAux(s, g, t, Run).list, NextAux(s, g, t, Run).place[n], n)
  {
    hide PlaceOk, CountOk, Holders, PcWf;
    NodeFacts(s, g, t, n);
    PlaceMoves(s, g.list, g.place[n], Exec(s, t), NextAux(s, g, t, Run).list, NextAux(s, g, t, Run).place[n], t, n);
  }

  lemma RequeueCount(s: State, g: Aux, t: Tid, n: Node)
    requires StepsOn(s, g, t, n) && s.pc[t].Requeue?
    ensures CountOk(Exec(s, t).pc, Exec(s, t).refs[n], NextAux(s, g, t, Run).place[n], n)
  {
    hide PlaceOk, CountOk, Holders, PcWf;
    NodeFacts(s, g, t, n);
    CountMoves(s.pc, s.refs[n], g.place[n], t, Exec(s, t).pc, Exec(s, t).refs[n], NextAux(s, g, t, Run).place[n], n);
  }

  lemma GetCasPlace(s: State, g: Aux, t: Tid, n: Node)
    requires StepsOn(s, g, t, n) && s.pc[t].GetCas?
    ensures PlaceOk(Exec(s, t), NextAux(s, g, t, Run).list, NextAux(s, g, t, Run).place[n], n)
  {
    hide PlaceOk, CountOk, Holders, PcWf;
    NodeFacts(s, g, t, n);
    PlaceMoves(s, g.list, g.place[n], Exec(s, t), NextAux(s, g, t, Run).list, NextAux(s, g, t, Run).place[n], t, n);
  }

  lemma GetCasCount(s: State, g: Aux, t: Tid, n: Node)
    requires StepsOn(s, g, t, n) && s.pc[t].GetCas?
    ensures CountOk(Exec(s, t).pc, Exec(s, t).refs[n], NextAux(s, g, t, Run).place[n], n)
  {
    hide PlaceOk, CountOk, Holders, PcWf;
    NodeFacts(s, g, t, n);
    CountMoves(s.pc, s.refs[n], g.place[n], t, Exec(s, t).pc, Exec(s, t).refs[n], NextAux(s, g, t, Run).place[n], n);
  }

  lemma GetNextPlace(s: State, g: Aux, t: Tid, n: Node)
    requires StepsOn(s, g, t, n) && s.pc[t].GetNext?
    ensures PlaceOk(Exec(s, t), NextAux(s, g, t, Run).list, NextAux(s, g, t, Run).place[n], n)
  {
    hide PlaceOk, CountOk, Holders, PcWf;
    NodeFacts(s, g, t, n);
    PlaceMoves(s, g.list, g.place[n], Exec(s, t), NextAux(s, g, t, Run).list, NextAux(s, g, t, Run).place[n], t, n);
  }

  lemma GetNextCount(s: State, g: Aux, t: Tid, n: Node)
    requires StepsOn(s, g, t, n) && s.pc[t].GetNext?
    ensures CountOk(Exec(s, t).pc, Exec(s, t).refs[n], NextAux(s, g, t, Run).place[n], n)
  {
    hide PlaceOk, CountOk, Holders, PcWf;
    NodeFacts(s, g, t, n);
    CountMoves(s.pc, s.refs[n], g.place[n], t, Exec(s, t).pc, Exec(s, t).refs[n], NextAux(s, g, t, Run).place[n], n);
  }

  lemma GetPopPlace(s: State, g: Aux, t: Tid, n: Node)
    requires StepsOn(s, g, t, n) && s.pc[t].GetPop?
    ensures PlaceOk(Exec(s, t), NextAux(s, g, t, Run).list, NextAux(s, g, t, Run).place[n], n)
  {
    hide PlaceOk, CountOk, Holders, PcWf;
    NodeFacts(s, g, t, n);
    PlaceMoves(s, g.list, g.place[n], Exec(s, t), NextAux(s, g, t, Run).list, NextAux(s, g, t, Run).place[n], t, n);
  }

  lemma GetPopCount(s: State, g: Aux, t: Tid, n: Node)
    requires StepsOn(s, g, t, n) && s.pc[t].GetPop?
    ensures CountOk(Exec(s, t).pc, Exec(s, t).refs[n], NextAux(s, g, t, Run).place[n], n)
  {
    hide PlaceOk, CountOk, Holders, PcWf;
    NodeFacts(s, g, t, n);
    CountMoves(s.pc, s.refs[n], g.place[n], t, Exec(s, t).pc, Exec(s, t).refs[n], NextAux(s, g, t, Run).place[n], n);
  }

  lemma GetTakenPlace(s: State, g: Aux, t: Tid, n: Node)
    requires StepsOn(s, g, t, n) && s.pc[t].GetTaken?
    ensures PlaceOk(Exec(s, t), NextAux(s, g, t, Run).list, NextAux(s, g, t, Run).place[n], n)
  {
    hide PlaceOk, CountOk, Holders, PcWf;
    NodeFacts(s, g, t, n);
    PlaceMoves(s, g.list, g.place[n], Exec(s, t), NextAux(s, g, t, Run).list, NextAux(s, g, t, Run).place[n], t, n);
  }

  lemma GetTakenCount(s: State, g: Aux, t: Tid, n: Node)
    requires StepsOn(s, g, t, n) && s.pc[t].GetTaken?
    ensures CountOk(Exec(s, t).pc, Exec(s, t).refs[n], NextAux(s, g, t, Run).place[n], n)
  {
    hide PlaceOk, CountOk, Holders, PcWf;
    NodeFacts(s, g, t, n);
    CountMoves(s.pc, s.refs[n], g.place[n], t, Exec(s, t).pc, Exec(s, t).refs[n], NextAux(s, g, t, Run).place[n], n);
  }

  lemma GetDropPlace(s: State, g: Aux, t: Tid, n: Node)
    requires StepsOn(s, g, t, n) && s.pc[t].GetDrop?
    ensures PlaceOk(Exec(s, t), NextAux(s, g, t, Run).list, NextAux(s, g, t, Run).place[n], n)
  {
    hide PlaceOk, CountOk, Holders, PcWf;
    NodeFacts(s, g, t, n);
    PlaceMoves(s, g.list, g.place[n], Exec(s, t), NextAux(s, g, t, Run).list, NextAux(s, g, t, Run).place[n], t, n);
  }

  lemma GetDropCount(s: State, g: Aux, t: Tid, n: Node)
    requires StepsOn(s, g, t, n) && s.pc[t].GetDrop?
    ensures CountOk(Exec(s, t).pc, Exec(s, t).refs[n], NextAux(s, g, t, Run).place[n], n)
  {
    hide PlaceOk, CountOk, Holders, PcWf;
    NodeFacts(s, g, t, n);
    CountMoves(s.pc, s.refs[n], g.place[n], t, Exec(s, t).pc, Exec(s, t).refs[n], NextAux(s, g, t, Run).place[n], n);
  }

  lemma RunKeepsNode(s: State, g: Aux, t: Tid, n: Node)
    requires StepsOn(s, g, t, n)
    ensures NodeOk(Exec(s, t), NextAux(s, g, t, Run), n)
  {
    hide PlaceOk, CountOk, Holders;
    if AddsAtZero(s.pc[t]) {
      StorePlace(s, g, t, n);
      StoreCount(s, g, t, n);
    } else if s.pc[t].CasPush? {
      CasPushPlace(s, g, t, n);
      CasPushCount(s, g, t, n);
    } else if s.pc[t].Requeue? {
      RequeuePlace(s, g, t, n);
      RequeueCount(s, g, t, n);
    } else if s.pc[t].GetCas? {
      GetCasPlace(s, g, t, n);
      GetCasCount(s, g, t, n);
    } else if s.pc[t].GetNext? {
      GetNextPlace(s, g, t, n);
      GetNextCount(s, g, t, n);
    } else if s.pc[t].GetPop? {
      GetPopPlace(s, g, t, n);
      GetPopCount(s, g, t, n);
    } else if s.pc[t].GetTaken? {
      GetTakenPlace(s, g, t, n);
      GetTakenCount(s, g, t, n);
    } else {
      GetDropPlace(s, g, t, n);
      GetDropCount(s, g, t, n);
    }
  }

  lemma CallAddPlace(s: State, g: Aux, t: Tid, n: Node)
    requires Enabled(s, t, CallAdd(n)) && NodeOk(s, g, n)
    ensures PlaceOk(Next(s, t, CallAdd(n)), g.list, NextAux(s, g, t, CallAdd(n)).place[n], n)
  {
    hide PlaceOk, CountOk, Holders, PcWf;
    NodeFacts(s, g, t, n);
    PlaceMoves(s, g.list, g.place[n], Next(s, t, CallAdd(n)), g.list, NextAux(s, g, t, CallAdd(n)).place[n], t, n);
  }

  lemma CallAddCount(s: State, g: Aux, t: Tid, n: Node)
    requires Enabled(s, t, CallAdd(n)) && NodeOk(s, g, n) && |s.pc| < REFS_MASK
    ensures CountOk(Next(s, t, CallAdd(n)).pc, Next(s, t, CallAdd(n)).refs[n], NextAux(s, g, t, CallAdd(n)).place[n], n)
  {
    hide PlaceOk, CountOk, Holders, PcWf;
    NodeFacts(s, g, t, n);
    var s' := Next(s, t, CallAdd(n));
    CountMoves(s.pc, s.refs[n], g.place[n], t, s'.pc, s'.refs[n], NextAux(s, g, t, CallAdd(n)).place[n], n);
  }

  lemma CallAddKeepsNode(s: State, g: Aux, t: Tid, n: Node)
    requires Enabled(s, t, CallAdd(n)) && NodeOk(s, g, n) && |s.pc| < REFS_MASK
    ensures NodeOk(Next(s, t, CallAdd(n)), NextAux(s, g, t, CallAdd(n)), n)
  {
    CallAddPlace(s, g, t, n);
    CallAddCount(s, g, t, n);
    hide PlaceOk, CountOk, Holders;
  }

  lemma GiveKeepsNode(s: State, g: Aux, t: Tid, to: Tid, n: Node)
    requires Enabled(s, t, Give(to, n)) && NodeOk(s, g, n)
    ensures NodeOk(Next(s, t, Give(to, n)), NextAux(s, g, t, Give(to, n)), n)
  {
  }

  // ---------------------------------------------------------------- pointers

  lemma OwnThreadOk(s: State, t: Tid)
    requires Enabled(s, t, Run) && NextStable(s)
    requires s.pc[t].StoreRefs? ==> s.pc[t].node in s.next
    ensures ThreadOk(Exec(s, t).next, Exec(s, t).pc[t])
  {
    assert ThreadOk(s.next, s.pc[t]);
  }

  /** While a node's next pointer is being stored, no other thread depends on it. */
  lemma NobodyDependsOn(s: State, g: Aux, t: Tid, n: Node, u: Tid)
    requires NodeOk(s, g, n) && t in s.pc && u in s.pc && u != t
    requires AddsAtZero(s.pc[t]) && s.pc[t].node == n
    ensures !HoldsRef(s.pc[u], n) && !AddsNode(s.pc[u], n)
  {
    NodeFacts(s, g, t, n);
    NodeFacts(s, g, u, n);
  }

  lemma OtherThreadOk(s: State, g: Aux, t: Tid, u: Tid)
    requires Enabled(s, t, Run) && NextStable(s) && u in s.pc && u != t
    requires HasNode(s.pc[t]) ==> NodeOk(s, g, s.pc[t].node)
    ensures ThreadOk(Exec(s, t).next, s.pc[u])
  {
    assert ThreadOk(s.next, s.pc[u]);
    if s.pc[t].StoreNext? { NobodyDependsOn(s, g, t, s.pc[t].node, u); }
    hide NodeOk;
  }

  lemma RunKeepsThreads(s: State, t: Tid)
    requires Enabled(s, t, Run)
    ensures Exec(s, t).pc.Keys == s.pc.Keys
    ensures forall u :: u in s.pc && u != t ==> Exec(s, t).pc[u] == s.pc[u]
  {
    assert Exec(s, t).pc == s.pc[t := Exec(s, t).pc[t]];
  }

  lemma RunKeepsNodes(s: State, t: Tid)
    requires Enabled(s, t, Run)
    ensures Exec(s, t).refs.Keys == s.refs.Keys && Exec(s, t).next.Keys == s.next.Keys
    ensures Exec(s, t).held.Keys == s.held.Keys
  {
    assert PcWf(s.pc[t], s.refs.Keys);
  }

  lemma RunKeepsNextPtrs(s: State, t: Tid)
    requires Enabled(s, t, Run) && NextStable(s)
    ensures PtrWf(Exec(s, t).head, s.next.Keys)
    ensures forall n :: n in s.next && n in Exec(s, t).next ==> PtrWf(Exec(s, t).next[n], s.next.Keys)
  {
    assert ThreadOk(s.next, s.pc[t]);
  }

  lemma RunKeepsPointers(s: State, g: Aux, t: Tid)
    requires Enabled(s, t, Run) && NextStable(s)
    requires HasNode(s.pc[t]) ==> NodeOk(s, g, s.pc[t].node)
    ensures NextStable(Exec(s, t)) && Wf(Exec(s, t))
  {
    var s' := Exec(s, t);
    RunKeepsThreads(s, t);
    RunKeepsNodes(s, t);
    RunKeepsNextPtrs(s, t);
    forall u | u in s'.pc ensures ThreadOk(s'.next, s'.pc[u]) {
      OwnThreadOk(s, t);
      if u != t { OtherThreadOk(s, g, t, u); }
    }
    hide Exec, NodeOk, PcWf, PtrWf;
  }

  // ---------------------------------------------------------------- the list

  lemma PushKeepsList(s: State, list: seq<Node>, s': State, n: Node)
    requires Listed(s, list) && n !in list && n in s.next && s.next[n] == s.head
    requires s'.next == s.next && s'.head == At(n)
    ensures Listed(s', [n] + list)
  {
    var list' := [n] + list;
    assert list'[0] == n && PtrAt(list', 1) == PtrAt(list, 0);
    forall i | 0 <= i < |list'| ensures list'[i] in s'.next && s'.next[list'[i]] == PtrAt(list', i + 1) {
      if i > 0 { assert list'[i] == list[i - 1]; }
    }
  }

  lemma PopKeepsList(s: State, list: seq<Node>, s': State)
    requires Listed(s, list) && list != []
    requires s'.next == s.next && s'.head == s.next[list[0]]
    ensures Listed(s', list[1..])
  {
    var list' := list[1..];
    assert s.next[list[0]] == PtrAt(list, 1);
    forall i | 0 <= i < |list'| ensures list'[i] in s'.next && s'.next[list'[i]] == PtrAt(list', i + 1) {
      assert list'[i] == list[i + 1];
    }
  }

  lemma RunKeepsList(s: State, g: Aux, t: Tid)
    requires Enabled(s, t, Run) && Listed(s, g.list)
    requires HasNode(s.pc[t]) ==> StepsOn(s, g, t, s.pc[t].node) && ThreadOk(s.next, s.pc[t])
    ensures Listed(Exec(s, t), NextAux(s, g, t, Run).list)
  {
    hide Listed, NodeOk;
    var s' := Exec(s, t);
    if HasNode(s.pc[t]) {
      var n := s.pc[t].node;
      NodeFacts(s, g, t, n);
      if s.pc[t].CasPush? && s.head == s.pc[t].head {
        hide Wf;
        PushKeepsList(s, g.list, s', n);
      } else if s.pc[t].GetPop? && s.head == At(n) {
        ListNotEmpty(s, g.list, n);
        hide Wf;
        PopKeepsList(s, g.list, s');
      } else if s.pc[t].StoreNext? {
        hide Wf;
        StoreKeepsList(s, g.list, s', n, s.pc[t].head);
      } else {
        SameList(s, g.list, s');
      }
    } else {
      SameList(s, g.list, s');
    }
  }

  lemma SameList(s: State, list: seq<Node>, s': State)
    requires Listed(s, list) && s'.next == s.next && s'.head == s.head
    ensures Listed(s', list)
  {
  }

  lemma ListNotEmpty(s: State, list: seq<Node>, n: Node)
    requires Listed(s, list) && s.head == At(n)
    ensures list != [] && list[0] == n && n in s.next && s.next[n] == PtrAt(list, 1)
  {
  }

  /** Storing the next pointer of a node that is not on the list leaves the list alone. */
  lemma StoreKeepsList(s: State, list: seq<Node>, s': State, n: Node, h: Ptr)
    requires Listed(s, list) && n !in list && s'.head == s.head
    requires s'.next == s.next[n := h]
    ensures Listed(s', list)
  {
    forall i | 0 <= i < |list| ensures list[i] in s'.next && s'.next[list[i]] == PtrAt(list, i + 1) {
      assert list[i] in list;
    }
  }

  // ---------------------------------------------------------------- every step keeps the invariant

  lemma RunTouches(s: State, t: Tid, ns: set<Node>)
    requires Enabled(s, t, Run)
    requires ns == if HasNode(s.pc[t]) then {s.pc[t].node} else {}
    ensures Touches(s, Exec(s, t), t, ns)
  {
    hide Exec, HasRole, PcWf;
    RunKeepsThreads(s, t);
    RunKeepsNodes(s, t);
    RunKeepsOthers(s, t, ns);
    assert Exec(s, t).pc == s.pc[t := Exec(s, t).pc[t]];
  }

  lemma RunKeepsOthers(s: State, t: Tid, ns: set<Node>)
    requires Enabled(s, t, Run)
    requires ns == if HasNode(s.pc[t]) then {s.pc[t].node} else {}
    ensures t in s.pc && t in Exec(s, t).pc
    ensures HasRole(s.pc[t]) ==> s.pc[t].node in ns
    ensures HasRole(Exec(s, t).pc[t]) ==> Exec(s, t).pc[t].node in ns
    ensures forall m :: m !in ns && m in s.refs ==> m in Exec(s, t).refs && Exec(s, t).refs[m] == s.refs[m]
    ensures forall u, m :: u in s.held && u in Exec(s, t).held && m !in ns ==>
              (m in Exec(s, t).held[u] <==> m in s.held[u])
  {
  }

  lemma HeadIsListed(s: State, g: Aux, n: Node)
    requires Listed(s, g.list) && s.head == At(n)
    ensures n in g.list && n !in g.list[1..]
  {
    assert g.list[0] == n;
  }

  lemma RunFacts(s: State, g: Aux, t: Tid)
    requires Inv(s, g) && Enabled(s, t, Run)
    ensures t in s.pc && ThreadOk(s.next, s.pc[t])
    ensures g.place.Keys == s.refs.Keys
    ensures HasNode(s.pc[t]) ==> StepsOn(s, g, t, s.pc[t].node) && NodeOk(s, g, s.pc[t].node)
    ensures s.head.At? ==> g.list != [] && g.list[0] == s.head.node && s.head.node !in g.list[1..]
  {
    hide Exec, NextAux, PlaceOk, CountOk, PtrWf;
    if s.head.At? { HeadIsListed(s, g, s.head.node); }
  }

  lemma RunAux(s: State, g: Aux, t: Tid, ns: set<Node>)
    requires Enabled(s, t, Run)
    requires ns == if HasNode(s.pc[t]) then {s.pc[t].node} else {}
    requires g.place.Keys == s.refs.Keys
    requires s.head.At? ==> g.list != [] && g.list[0] == s.head.node && s.head.node !in g.list[1..]
    ensures NextAux(s, g, t, Run).place.Keys == s.refs.Keys
    ensures forall m :: m in g.place && m !in ns ==>
                          m in NextAux(s, g, t, Run).place && NextAux(s, g, t, Run).place[m] == g.place[m]
    ensures forall m :: m !in ns ==> (m in NextAux(s, g, t, Run).list <==> m in g.list)
  {
    assert PcWf(s.pc[t], s.refs.Keys);
  }

  lemma RunKeepsInv(s: State, g: Aux, t: Tid)
    requires Inv(s, g) && Enabled(s, t, Run)
    ensures Inv(Exec(s, t), NextAux(s, g, t, Run))
  {
    hide Exec, NextAux, Listed, NextStable, Wf, NodeOk, ThreadOk, Touches, Placed, Counted, StepsOn;
    var s', g' := Exec(s, t), NextAux(s, g, t, Run);
    var ns := if HasNode(s.pc[t]) then {s.pc[t].node} else {};
    RunFacts(s, g, t);
    RunTouches(s, t, ns);
    RunKeepsNodes(s, t);
    if HasNode(s.pc[t]) { RunKeepsNode(s, g, t, s.pc[t].node); }
    RunKeepsList(s, g, t);
    RunKeepsPointers(s, g, t);
    RunAux(s, g, t, ns);
    Touched(s, g, s', g', t, ns);
  }

  /** Handing a node over, or starting an operation, is a step on that node or on none. */
  ghost function CallNodes(a: Action): set<Node> {
    match a
    case Allocate(n) => {n}
    case Give(_, n) => {n}
    case CallAdd(n) => {n}
    case _ => {}
  }

  lemma CallTouches(s: State, g: Aux, t: Tid, a: Action)
    requires Enabled(s, t, a) && a != Run
    requires g.place.Keys == s.refs.Keys
    ensures Touches(s, Next(s, t, a), t, CallNodes(a))
    ensures NextAux(s, g, t, a).list == g.list
    ensures a.Give? ==> a.given in s.refs ==> NextAux(s, g, t, a).place.Keys == Next(s, t, a).refs.Keys
    ensures !a.Give? ==> NextAux(s, g, t, a).place.Keys == Next(s, t, a).refs.Keys
    ensures forall m :: m in g.place && m !in CallNodes(a) ==>
                          m in NextAux(s, g, t, a).place && NextAux(s, g, t, a).place[m] == g.place[m]
  {
    assert Next(s, t, a).pc == s.pc[t := Next(s, t, a).pc[t]];
  }

  lemma CallKeepsPointers(s: State, t: Tid, a: Action)
    requires Enabled(s, t, a) && a != Run && NextStable(s)
    ensures NextStable(Next(s, t, a)) && Wf(Next(s, t, a))
  {
    var s' := Next(s, t, a);
    forall u | u in s'.pc ensures ThreadOk(s'.next, s'.pc[u]) {
      if u in s.pc { assert ThreadOk(s.next, s.pc[u]); }
    }
  }

  lemma CallKeepsList(s: State, list: seq<Node>, t: Tid, a: Action)
    requires Enabled(s, t, a) && a != Run && Listed(s, list)
    requires s.refs.Keys == s.next.Keys
    ensures Listed(Next(s, t, a), list)
  {
    hide Wf;
  }

  lemma AllocateKeepsNode(s: State, g: Aux, t: Tid, n: Node)
    requires Wf(s) && Placed(s, g) && Enabled(s, t, Allocate(n))
    ensures NodeOk(Next(s, t, Allocate(n)), NextAux(s, g, t, Allocate(n)), n)
  {
    forall u | u in s.pc ensures !AddsNode(s.pc[u], n) && !HoldsRef(s.pc[u], n) {
      assert PcWf(s.pc[u], s.refs.Keys);
    }
    assert Holders(s.pc, n) == {};
  }

  lemma CallKeepsNode(s: State, g: Aux, t: Tid, a: Action, n: Node)
    requires Inv(s, g) && Enabled(s, t, a) && n in CallNodes(a)
    ensures NodeOk(Next(s, t, a), NextAux(s, g, t, a), n)
  {
    hide NextStable, Listed, PlaceOk, CountOk;
    assert n in s.refs ==> NodeOk(s, g, n);
    match a
    case Allocate(_) => AllocateKeepsNode(s, g, t, n);
    case Give(to, _) => GiveKeepsNode(s, g, t, to, n);
    case CallAdd(_) => CallAddKeepsNode(s, g, t, n);
  }

  lemma CallKeepsInv(s: State, g: Aux, t: Tid, a: Action)
    requires Inv(s, g) && Enabled(s, t, a) && a != Run
    ensures Inv(Next(s, t, a), NextAux(s, g, t, a))
  {
    var s', g' := Next(s, t, a), NextAux(s, g, t, a);
    assert a.Give? ==> a.given in s.refs by { hide NextStable, Listed, PlaceOk, Counted; }
    hide Next, NextAux, Listed, NextStable, NodeOk, ThreadOk, Touches, Placed, Counted;
    CallTouches(s, g, t, a);
    CallKeepsPointers(s, t, a);
    CallKeepsList(s, g.list, t, a);
    forall n | n in CallNodes(a) ensures NodeOk(s', g', n) { CallKeepsNode(s, g, t, a, n); }
    Touched(s, g, s', g', t, CallNodes(a));
  }

  /** Every step of every thread keeps the invariant. */
  lemma StepKeepsInv(s: State, g: Aux, t: Tid, a: Action)
    requires Inv(s, g) && Enabled(s, t, a)
    ensures Inv(Next(s, t, a), NextAux(s, g, t, a))
  {
    hide Inv, NextAux;
    if a == Run { RunKeepsInv(s, g, t); } else { CallKeepsInv(s, g, t, a); }
  }

  lemma InitHasInv(s: State)
    requires Init(s)
    ensures Inv(s, Aux([], map[]))
  {
  }

  lemma {:induction false} RunsKeepInv(first: State, g: Aux, run: seq<Event>, last: State)
    requires Inv(first, g) && Runs(first, run, last)
    ensures exists g' :: Inv(last, g')
    decreases |run|
  {
    hide Inv, Enabled;
    if run != [] {
      var e := run[0];
      StepKeepsInv(first, g, e.t, e.a);
      RunsKeepInv(Next(first, e.t, e.a), NextAux(first, g, e.t, e.a), run[1..], last);
    }
  }

  // ---------------------------------------------------------------- what holds in every run

  /** Any number of threads, any interleaving: the invariant holds. */
  lemma ReachableInv(s: State) returns (g: Aux)
    requires Reachable(s)
    ensures Inv(s, g)
  {
    hide Inv, Init;
    var first, run :| Init(first) && Runs(first, run, s);
    InitHasInv(first);
    RunsKeepInv(first, Aux([], map[]), run, s);
    g :| Inv(s, g);
  }

  lemma ReachableFacts(s: State) returns (g: Aux)
    requires Reachable(s)
    ensures Wf(s) && Listed(s, g.list) && |s.pc| < REFS_MASK
    ensures forall n :: n in s.refs ==> NodeOk(s, g, n)
    ensures forall t, n :: t in s.held && n in s.held[t] ==> n in s.refs
    ensures Inv(s, g)
  {
    g := ReachableInv(s);
    hide PlaceOk, CountOk, Reachable, NextStable, Listed, Wf;
  }

  /** No two clients own the same node, and an owned node is not on the list. */
  lemma OwnershipIsExclusive(s: State, t: Tid, u: Tid)
    requires Reachable(s) && t in s.held && u in s.held && t != u
    ensures s.held[t] !! s.held[u]
    ensures exists list :: Listed(s, list) && forall n :: n in list ==> n !in s.held[t]
  {
    hide Reachable, Inv, NodeOk, Listed, Wf;
    var g := ReachableFacts(s);
    forall n | n in s.held[t] ensures n !in s.held[u] && n !in g.list { OwnedNode(s, g, t, n); }
  }

  lemma OwnedNode(s: State, g: Aux, t: Tid, n: Node)
    requires NodeOk(s, g, n) && t in s.held && n in s.held[t]
    ensures n !in g.list && forall u :: u in s.held && u != t ==> n !in s.held[u]
  {
  }

  /** A thread whose head CAS in `try_get` succeeded has the node to itself: no client owns it,
      it is off the list, and the should-be-on-list flag is clear, as the code asserts there.
      Its next step makes it the owner. */
  lemma PoppedNodeIsExclusive(s: State, t: Tid, n: Node)
    requires Reachable(s) && t in s.pc && s.pc[t] == GetTaken(n)
    ensures n in s.refs && 2 <= s.refs[n] < SHOULD_BE_ON_FREELIST
    ensures forall u :: u in s.held ==> n !in s.held[u]
    ensures forall u :: u in s.pc && u != t ==> s.pc[u] != GetTaken(n) && !AddsNode(s.pc[u], n)
    ensures exists list :: Listed(s, list) && n !in list
    ensures Enabled(s, t, Run) && t in Next(s, t, Run).held && n in Next(s, t, Run).held[t]
  {
    hide Reachable, Inv, NodeOk, Listed;
    var g := ReachableFacts(s);
    assert PcWf(s.pc[t], s.refs.Keys);
    NodeFacts(s, g, t, n);
    forall u | u in s.pc && u != t ensures s.pc[u] != GetTaken(n) && !AddsNode(s.pc[u], n) { NodeFacts(s, g, u, n); }
  }

  /** A step never changes the next pointer of a node to which some thread holds a reference. */
  lemma NextStableUnderReference(s: State, t: Tid, n: Node, u: Tid, a: Action)
    requires Reachable(s) && t in s.pc && HoldsRef(s.pc[t], n)
    requires Enabled(s, u, a)
    ensures n in s.next && n in Next(s, u, a).next && Next(s, u, a).next[n] == s.next[n]
  {
    hide Reachable, Inv, NodeOk, Listed;
    var g := ReachableFacts(s);
    assert PcWf(s.pc[t], s.refs.Keys);
    if a == Run && s.pc[u].StoreNext? && s.pc[u].node == n && t != u { NobodyDependsOn(s, g, u, n, t); }
  }

  /** A successful head CAS in `try_get` installs the true successor, so there is no ABA: the
      list loses exactly its first node. */
  lemma PopInstallsSuccessor(s: State, t: Tid, n: Node, following: Ptr)
    requires Reachable(s) && t in s.pc && s.pc[t] == GetPop(n, following) && s.head == At(n)
    requires Enabled(s, t, Run)
    ensures exists list :: Listed(s, list) && list != [] && list[0] == n && Listed(Next(s, t, Run), list[1..])
  {
    hide Reachable, Inv, NodeOk, Wf, StepsOn;
    var g := ReachableFacts(s);
    RunFacts(s, g, t);
    PopKeepsList(s, g.list, Next(s, t, Run));
  }

  /** When no operation is in flight, every node is owned by a client or on the list, once. */
  lemma NothingIsLost(s: State)
    requires Reachable(s) && forall t :: t in s.pc ==> s.pc[t] == Idle
    ensures exists list :: Listed(s, list) &&
              forall n :: n in s.refs ==> (n in list <==> forall t :: t in s.held ==> n !in s.held[t])
  {
    hide Reachable, Inv, NodeOk, Listed, Wf;
    var g := ReachableFacts(s);
    forall n | n in s.refs ensures n in g.list <==> forall t :: t in s.held ==> n !in s.held[t] {
      QuiescentNode(s, g, n);
    }
  }

  lemma QuiescentNode(s: State, g: Aux, n: Node)
    requires NodeOk(s, g, n) && forall t :: t in s.pc ==> s.pc[t] == Idle
    ensures n in g.list <==> forall t :: t in s.held ==> n !in s.held[t]
  {
    assert Holders(s.pc, n) == {};
  }

  /** The 31-bit count never carries into the flag and the word never wraps. */
  lemma CountFits(s: State, n: Node)
    requires Reachable(s) && n in s.refs
    ensures 0 <= s.refs[n] < WORD && s.refs[n] % (REFS_MASK + 1) <= |s.pc| + 1 <= REFS_MASK
  {
    hide Reachable, Inv, PlaceOk, Listed, Wf;
    var g := ReachableFacts(s);
    SubsetSize(Holders(s.pc, n), s.pc.Keys);
  }

  // ---------------------------------------------------------------- what an operation comes to

  ghost function Steps(t: Tid, n: nat): (run: seq<Event>)
    ensures |run| == n
  {
    if n == 0 then [] else [Event(t, Run)] + Steps(t, n - 1)
  }

  lemma FirstStep(s: State, t: Tid, n: nat, s': State)
    requires n > 0 && Enabled(s, t, Run) && Runs(Next(s, t, Run), Steps(t, n - 1), s')
    ensures Runs(s, Steps(t, n), s')
  {
    hide Enabled, Next;
    assert Steps(t, n)[1..] == Steps(t, n - 1);
  }

  lemma AfterCall(s: State, t: Tid, a: Action, n: nat, s': State)
    requires Enabled(s, t, a) && Runs(Next(s, t, a), Steps(t, n), s')
    ensures Runs(s, [Event(t, a)] + Steps(t, n), s')
  {
    hide Enabled, Next;
    assert ([Event(t, a)] + Steps(t, n))[1..] == Steps(t, n);
  }

  ghost predicate AllIdle(s: State) {
    forall t :: t in s.pc ==> s.pc[t] == Idle
  }

  lemma IdleCounts(s: State, g: Aux, n: Node)
    requires NodeOk(s, g, n) && AllIdle(s)
    ensures n in g.list ==> s.refs[n] == 1
    ensures forall t :: t in s.held && n in s.held[t] ==> s.refs[n] == 0
  {
    assert Holders(s.pc, n) == {};
  }

  /** A `try_get` that runs alone takes the first node of the list, if there is one. */
  lemma LoneTryGet(s: State, t: Tid)
    requires Reachable(s) && AllIdle(s) && t in s.pc
    ensures Wf(s) && t in s.held
    ensures s.head == Null ==> Runs(s, [Event(t, CallTryGet)] + Steps(t, 2), s)
    ensures s.head.At? ==>
              var n := s.head.node;
              && n in s.next && n !in s.held[t]
              && Runs(s, [Event(t, CallTryGet)] + Steps(t, 6),
                      s.(head := s.next[n], refs := s.refs[n := 0], held := s.held[t := s.held[t] + {n}]))
    ensures exists list :: Listed(s, list) && (s.head.At? ==> list != [] && list[0] == s.head.node && s.next[list[0]] == PtrAt(list, 1))
  {
    hide Reachable, Inv, NodeOk, Listed;
    var g := ReachableFacts(s);
    ListHead(s, g.list);
    if s.head == Null {
      GetNothing(s, t);
    } else {
      var n := s.head.node;
      assert n in g.list && n in s.refs;
      IdleCounts(s, g, n);
      OnListUnowned(s, g, n);
      NextOnList(s, g.list);
      GetFirst(s, t, n);
    }
  }

  lemma NextOnList(s: State, list: seq<Node>)
    requires Listed(s, list) && s.head.At?
    ensures s.head.node in s.next && PtrWf(s.next[s.head.node], s.next.Keys)
  {
  }

  lemma ListHead(s: State, list: seq<Node>)
    requires Listed(s, list)
    ensures s.head.At? ==> list != [] && list[0] == s.head.node && s.head.node in s.next && s.next[list[0]] == PtrAt(list, 1)
  {
  }

  lemma OnListUnowned(s: State, g: Aux, n: Node)
    requires NodeOk(s, g, n) && n in g.list
    ensures forall t :: t in s.held ==> n !in s.held[t]
  {
  }

  ghost predicate Leads(s: State, t: Tid, a: Action, s': State) {
    Enabled(s, t, a) && Next(s, t, a) == s'
  }

  /** The thread itself being well formed, nothing else is at stake. */
  lemma WfKept(s: State, t: Tid, s': State)
    requires Wf(s) && t in s.pc && t in s'.pc && s'.pc == s.pc[t := s'.pc[t]] && PcWf(s'.pc[t], s.refs.Keys)
    requires s'.refs.Keys == s.refs.Keys && s'.next.Keys == s.next.Keys && s'.held.Keys == s.held.Keys
    ensures Wf(s')
  {
  }

  lemma GetCalled(s: State, t: Tid)
    requires Wf(s) && t in s.pc && s.pc[t] == Idle && PtrWf(s.head, s.refs.Keys)
    ensures Leads(s, t, CallTryGet, s.(pc := s.pc[t := GetLoad]))
  {
    hide PcWf;
  }

  lemma GetLoads(s: State, t: Tid)
    requires Wf(s) && t in s.pc && s.pc[t] == Idle && PtrWf(s.head, s.refs.Keys)
    ensures Leads(s.(pc := s.pc[t := GetLoad]), t, Run, s.(pc := s.pc[t := GetLoop(s.head)]))
  {
    WfKept(s, t, s.(pc := s.pc[t := GetLoad]));
    hide Wf;
  }

  lemma GetEnds(s: State, t: Tid)
    requires Wf(s) && t in s.pc && s.pc[t] == Idle && PtrWf(s.head, s.refs.Keys)
    ensures s.head == Null ==> Leads(s.(pc := s.pc[t := GetLoop(Null)]), t, Run, s)
  {
    WfKept(s, t, s.(pc := s.pc[t := GetLoop(s.head)]));
    hide Wf;
    assert s.pc[t := Idle] == s.pc;
  }

  lemma GetStarts(s: State, t: Tid)
    requires Wf(s) && t in s.pc && s.pc[t] == Idle && PtrWf(s.head, s.refs.Keys)
    ensures Leads(s, t, CallTryGet, s.(pc := s.pc[t := GetLoad]))
    ensures Leads(s.(pc := s.pc[t := GetLoad]), t, Run, s.(pc := s.pc[t := GetLoop(s.head)]))
    ensures s.head == Null ==> Leads(s.(pc := s.pc[t := GetLoop(Null)]), t, Run, s)
  {
    hide Leads, Wf;
    GetCalled(s, t);
    GetLoads(s, t);
    GetEnds(s, t);
  }

  lemma GetNothing(s: State, t: Tid)
    requires Wf(s) && t in s.pc && s.pc[t] == Idle && s.head == Null
    ensures Runs(s, [Event(t, CallTryGet)] + Steps(t, 2), s)
  {
    var s0 := s.(pc := s.pc[t := GetLoad]);
    var s1 := s.(pc := s.pc[t := GetLoop(Null)]);
    GetStarts(s, t);
    hide Enabled, Next, Wf;
    assert Runs(s, Steps(t, 0), s);
    FirstStep(s1, t, 1, s);
    FirstStep(s0, t, 2, s);
    AfterCall(s, t, CallTryGet, 2, s);
  }

  /** The thread holds a reference to the first node, and has it counted. */
  ghost function Referring(s: State, t: Tid, n: Node, pc: Pc): State {
    s.(refs := s.refs[n := 2], pc := s.pc[t := pc])
  }

  lemma GetLooks(s: State, t: Tid, n: Node)
    requires Wf(s) && t in s.pc && s.head == At(n) && n in s.refs && s.refs[n] == 1
    ensures Leads(s.(pc := s.pc[t := GetLoop(At(n))]), t, Run, s.(pc := s.pc[t := GetCas(n, 1)]))
  {
    WfKept(s, t, s.(pc := s.pc[t := GetLoop(At(n))]));
    hide Wf;
  }

  lemma GetCounts(s: State, t: Tid, n: Node)
    requires Wf(s) && t in s.pc && s.head == At(n) && n in s.refs && s.refs[n] == 1
    ensures Leads(s.(pc := s.pc[t := GetCas(n, 1)]), t, Run, Referring(s, t, n, GetNext(n)))
  {
    WfKept(s, t, s.(pc := s.pc[t := GetCas(n, 1)]));
    hide Wf;
  }

  lemma GetRefers(s: State, t: Tid, n: Node)
    requires Wf(s) && t in s.pc && s.head == At(n) && n in s.refs && s.refs[n] == 1
    ensures Leads(s.(pc := s.pc[t := GetLoop(At(n))]), t, Run, s.(pc := s.pc[t := GetCas(n, 1)]))
    ensures Leads(s.(pc := s.pc[t := GetCas(n, 1)]), t, Run, Referring(s, t, n, GetNext(n)))
  {
    hide Leads, Wf;
    GetLooks(s, t, n);
    GetCounts(s, t, n);
  }

  lemma GetReads(s: State, t: Tid, n: Node)
    requires Wf(s) && t in s.pc && s.head == At(n) && n in s.refs && PtrWf(s.next[n], s.refs.Keys)
    ensures Leads(Referring(s, t, n, GetNext(n)), t, Run, Referring(s, t, n, GetPop(n, s.next[n])))
  {
    WfKept(s, t, Referring(s, t, n, GetNext(n)));
    hide Wf;
  }

  lemma GetSwaps(s: State, t: Tid, n: Node)
    requires Wf(s) && t in s.pc && s.head == At(n) && n in s.refs && PtrWf(s.next[n], s.refs.Keys)
    ensures Leads(Referring(s, t, n, GetPop(n, s.next[n])), t, Run,
                  Referring(s, t, n, GetTaken(n)).(head := s.next[n]))
  {
    WfKept(s, t, Referring(s, t, n, GetPop(n, s.next[n])));
    hide Wf;
  }

  lemma GetPops(s: State, t: Tid, n: Node)
    requires Wf(s) && t in s.pc && s.head == At(n) && n in s.refs && PtrWf(s.next[n], s.refs.Keys)
    ensures Leads(Referring(s, t, n, GetNext(n)), t, Run, Referring(s, t, n, GetPop(n, s.next[n])))
    ensures Leads(Referring(s, t, n, GetPop(n, s.next[n])), t, Run,
                  Referring(s, t, n, GetTaken(n)).(head := s.next[n]))
  {
    hide Leads, Wf;
    GetReads(s, t, n);
    GetSwaps(s, t, n);
  }

  lemma GetTakes(s: State, t: Tid, n: Node)
    requires Wf(s) && t in s.pc && t in s.held && s.pc[t] == Idle && n in s.refs
    ensures Leads(Referring(s, t, n, GetTaken(n)).(head := s.next[n]), t, Run,
                  s.(head := s.next[n], refs := s.refs[n := 0], held := s.held[t := s.held[t] + {n}]))
  {
    WfKept(s, t, Referring(s, t, n, GetTaken(n)).(head := s.next[n]));
    hide Wf;
    assert s.pc[t := GetTaken(n)][t := Idle] == s.pc;
    assert s.refs[n := 2][n := 0] == s.refs[n := 0];
  }

  lemma GetFirst(s: State, t: Tid, n: Node)
    requires Wf(s) && t in s.pc && t in s.held && s.pc[t] == Idle && s.head == At(n) && n in s.refs && s.refs[n] == 1
    requires PtrWf(s.next[n], s.refs.Keys)
    ensures Runs(s, [Event(t, CallTryGet)] + Steps(t, 6),
                 s.(head := s.next[n], refs := s.refs[n := 0], held := s.held[t := s.held[t] + {n}]))
  {
    var s' := s.(head := s.next[n], refs := s.refs[n := 0], held := s.held[t := s.held[t] + {n}]);
    GetStarts(s, t);
    GetRefers(s, t, n);
    GetPops(s, t, n);
    GetTakes(s, t, n);
    hide Enabled, Next, Wf, Referring;
    assert Runs(s', Steps(t, 0), s');
    FirstStep(Referring(s, t, n, GetTaken(n)).(head := s.next[n]), t, 1, s');
    FirstStep(Referring(s, t, n, GetPop(n, s.next[n])), t, 2, s');
    FirstStep(Referring(s, t, n, GetNext(n)), t, 3, s');
    FirstStep(s.(pc := s.pc[t := GetCas(n, 1)]), t, 4, s');
    FirstStep(s.(pc := s.pc[t := GetLoop(At(n))]), t, 5, s');
    FirstStep(s.(pc := s.pc[t := GetLoad]), t, 6, s');
    AfterCall(s, t, CallTryGet, 6, s');
  }

  /** An `add` that runs alone puts the node in front of the list. */
  lemma LoneAdd(s: State, t: Tid, n: Node)
    requires Reachable(s) && AllIdle(s) && t in s.pc && t in s.held && n in s.held[t]
    ensures Wf(s)
    ensures Runs(s, [Event(t, CallAdd(n))] + Steps(t, 4),
                 s.(head := At(n), next := s.next[n := s.head], refs := s.refs[n := 1],
                    held := s.held[t := s.held[t] - {n}]))
  {
    hide Reachable, Inv, NodeOk, Listed;
    var g := ReachableFacts(s);
    ListHead(s, g.list);
    IdleCounts(s, g, n);
    var s' := s.(head := At(n), next := s.next[n := s.head], refs := s.refs[n := 1], held := s.held[t := s.held[t] - {n}]);
    AddStarts(s, t, n);
    AddEnds(s, t, n);
    hide Enabled, Next, Wf, Added;
    assert Runs(s', Steps(t, 0), s');
    FirstStep(Added(s, t, n, 1, CasPush(n, s.head, FromAdd)).(next := s.next[n := s.head]), t, 1, s');
    FirstStep(Added(s, t, n, SHOULD_BE_ON_FREELIST, StoreRefs(n, s.head, FromAdd)).(next := s.next[n := s.head]), t, 2, s');
    FirstStep(Added(s, t, n, SHOULD_BE_ON_FREELIST, StoreNext(n, s.head, FromAdd)), t, 3, s');
    FirstStep(Added(s, t, n, SHOULD_BE_ON_FREELIST, LoadHead(n, FromAdd)), t, 4, s');
    AfterCall(s, t, CallAdd(n), 4, s');
  }

  /** The thread has handed over the node it is adding. */
  ghost function Added(s: State, t: Tid, n: Node, refs: int, pc: Pc): State
    requires t in s.held
  {
    s.(refs := s.refs[n := refs], held := s.held[t := s.held[t] - {n}], pc := s.pc[t := pc])
  }

  lemma AddCalled(s: State, t: Tid, n: Node)
    requires Wf(s) && t in s.pc && s.pc[t] == Idle && t in s.held && n in s.held[t] && n in s.refs && s.refs[n] == 0
    requires PtrWf(s.head, s.refs.Keys)
    ensures Leads(s, t, CallAdd(n), Added(s, t, n, SHOULD_BE_ON_FREELIST, LoadHead(n, FromAdd)))
  {
    hide PcWf;
  }

  lemma AddLoads(s: State, t: Tid, n: Node)
    requires Wf(s) && t in s.pc && s.pc[t] == Idle && t in s.held && n in s.held[t] && n in s.refs && s.refs[n] == 0
    requires PtrWf(s.head, s.refs.Keys)
    ensures Leads(Added(s, t, n, SHOULD_BE_ON_FREELIST, LoadHead(n, FromAdd)), t, Run,
                  Added(s, t, n, SHOULD_BE_ON_FREELIST, StoreNext(n, s.head, FromAdd)))
  {
    WfKept(s, t, Added(s, t, n, SHOULD_BE_ON_FREELIST, LoadHead(n, FromAdd)));
    hide Wf;
  }

  lemma AddLinks(s: State, t: Tid, n: Node)
    requires Wf(s) && t in s.pc && s.pc[t] == Idle && t in s.held && n in s.held[t] && n in s.refs && s.refs[n] == 0
    requires PtrWf(s.head, s.refs.Keys)
    ensures Leads(Added(s, t, n, SHOULD_BE_ON_FREELIST, StoreNext(n, s.head, FromAdd)), t, Run,
                  Added(s, t, n, SHOULD_BE_ON_FREELIST, StoreRefs(n, s.head, FromAdd)).(next := s.next[n := s.head]))
  {
    WfKept(s, t, Added(s, t, n, SHOULD_BE_ON_FREELIST, StoreNext(n, s.head, FromAdd)));
    hide Wf;
  }

  lemma AddStarts(s: State, t: Tid, n: Node)
    requires Wf(s) && t in s.pc && s.pc[t] == Idle && t in s.held && n in s.held[t] && n in s.refs && s.refs[n] == 0
    requires PtrWf(s.head, s.refs.Keys)
    ensures Leads(s, t, CallAdd(n), Added(s, t, n, SHOULD_BE_ON_FREELIST, LoadHead(n, FromAdd)))
    ensures Leads(Added(s, t, n, SHOULD_BE_ON_FREELIST, LoadHead(n, FromAdd)), t, Run,
                  Added(s, t, n, SHOULD_BE_ON_FREELIST, StoreNext(n, s.head, FromAdd)))
    ensures Leads(Added(s, t, n, SHOULD_BE_ON_FREELIST, StoreNext(n, s.head, FromAdd)), t, Run,
                  Added(s, t, n, SHOULD_BE_ON_FREELIST, StoreRefs(n, s.head, FromAdd)).(next := s.next[n := s.head]))
  {
    hide Leads, Wf;
    AddCalled(s, t, n);
    AddLoads(s, t, n);
    AddLinks(s, t, n);
  }

  lemma AddCounts(s: State, t: Tid, n: Node)
    requires Wf(s) && t in s.pc && s.pc[t] == Idle && t in s.held && n in s.held[t] && n in s.refs
    requires PtrWf(s.head, s.refs.Keys)
    ensures Leads(Added(s, t, n, SHOULD_BE_ON_FREELIST, StoreRefs(n, s.head, FromAdd)).(next := s.next[n := s.head]), t, Run,
                  Added(s, t, n, 1, CasPush(n, s.head, FromAdd)).(next := s.next[n := s.head]))
  {
    WfKept(s, t, Added(s, t, n, SHOULD_BE_ON_FREELIST, StoreRefs(n, s.head, FromAdd)).(next := s.next[n := s.head]));
    hide Wf;
    assert s.refs[n := SHOULD_BE_ON_FREELIST][n := 1] == s.refs[n := 1];
  }

  lemma AddSwaps(s: State, t: Tid, n: Node)
    requires Wf(s) && t in s.pc && s.pc[t] == Idle && t in s.held && n in s.held[t] && n in s.refs
    requires PtrWf(s.head, s.refs.Keys)
    ensures Leads(Added(s, t, n, 1, CasPush(n, s.head, FromAdd)).(next := s.next[n := s.head]), t, Run,
                  s.(head := At(n), next := s.next[n := s.head], refs := s.refs[n := 1],
                     held := s.held[t := s.held[t] - {n}]))
  {
    WfKept(s, t, Added(s, t, n, 1, CasPush(n, s.head, FromAdd)).(next := s.next[n := s.head]));
    hide Wf;
    assert s.pc[t := CasPush(n, s.head, FromAdd)][t := Idle] == s.pc;
  }

  lemma AddEnds(s: State, t: Tid, n: Node)
    requires Wf(s) && t in s.pc && s.pc[t] == Idle && t in s.held && n in s.held[t] && n in s.refs
    requires PtrWf(s.head, s.refs.Keys)
    ensures Leads(Added(s, t, n, SHOULD_BE_ON_FREELIST, StoreRefs(n, s.head, FromAdd)).(next := s.next[n := s.head]), t, Run,
                  Added(s, t, n, 1, CasPush(n, s.head, FromAdd)).(next := s.next[n := s.head]))
    ensures Leads(Added(s, t, n, 1, CasPush(n, s.head, FromAdd)).(next := s.next[n := s.head]), t, Run,
                  s.(head := At(n), next := s.next[n := s.head], refs := s.refs[n := 1],
                     held := s.held[t := s.held[t] - {n}]))
  {
    hide Leads, Wf;
    AddCounts(s, t, n);
    AddSwaps(s, t, n);
  }

  /** The thread is going to return a null pointer from `try_get`. */
  ghost predicate SawNull(pc: Pc) {
    pc == GetLoop(Null) || (pc.GetDrop? && pc.head == Null)
    || ((pc.LoadHead? || pc.StoreNext? || pc.StoreRefs? || pc.CasPush? || pc.Requeue?) && pc.caller == FromTryGet(Null))
  }

  /** The thread is in `try_get`. */
  ghost predicate Getting(pc: Pc) {
    pc.GetLoad? || pc.GetLoop? || pc.GetCas? || pc.GetNext? || pc.GetPop? || pc.GetTaken? || pc.GetDrop?
    || ((pc.LoadHead? || pc.StoreNext? || pc.StoreRefs? || pc.CasPush? || pc.Requeue?) && pc.caller.FromTryGet?)
  }

  /** In this run the thread takes a step while the list is empty. */
  ghost predicate FoundEmpty(s: State, run: seq<Event>, t: Tid)
    decreases |run|
  {
    run != [] && Enabled(s, run[0].t, run[0].a)
    && ((run[0] == Event(t, Run) && s.head == Null) || FoundEmpty(Next(s, run[0].t, run[0].a), run[1..], t))
  }

  lemma SeesNullItself(s: State, u: Tid, a: Action, t: Tid)
    requires Enabled(s, u, a) && t in s.pc && !SawNull(s.pc[t])
    ensures t in Next(s, u, a).pc && (SawNull(Next(s, u, a).pc[t]) ==> u == t && a == Run && s.head == Null)
  {
    hide PcWf, Wf, Exec, SawNull;
    StartsNotNull();
    if a == Run {
      RunsItself(s, u, t);
      if u == t { RunSeesNull(s, t); }
    }
  }

  lemma StartsNotNull()
    ensures !SawNull(GetLoad) && !SawNull(Idle) && forall n :: !SawNull(LoadHead(n, FromAdd))
  {
  }

  lemma RunsItself(s: State, u: Tid, t: Tid)
    requires Wf(s) && u in s.pc && t in s.pc
    ensures t in Exec(s, u).pc && (u != t ==> Exec(s, u).pc[t] == s.pc[t])
  {
    hide PcWf;
  }

  lemma RunSeesNull(s: State, t: Tid)
    requires Wf(s) && t in s.pc && !SawNull(s.pc[t])
    ensures t in Exec(s, t).pc && (SawNull(Exec(s, t).pc[t]) ==> s.head == Null)
  {
    hide PcWf;
  }

  /** `try_get` returns null only if the list was empty when one of its own steps looked. */
  lemma {:induction false} NullOnlyIfEmpty(s: State, run: seq<Event>, s': State, t: Tid)
    requires Runs(s, run, s') && t in s.pc && !SawNull(s.pc[t]) && t in s'.pc && SawNull(s'.pc[t])
    ensures FoundEmpty(s, run, t)
    decreases |run|
  {
    hide Enabled, Next, SawNull;
    if run != [] {
      SeesNullItself(s, run[0].t, run[0].a, t);
      if !(run[0] == Event(t, Run) && s.head == Null) {
        NullOnlyIfEmpty(Next(s, run[0].t, run[0].a), run[1..], s', t);
      }
    }
  }

  /** And otherwise it returns with a node, which the thread then owns. */
  lemma ReturnsWithNode(s: State, t: Tid)
    requires Enabled(s, t, Run) && Getting(s.pc[t]) && t in s.held
    ensures t in Next(s, t, Run).pc && t in Next(s, t, Run).held
    ensures !Getting(Next(s, t, Run).pc[t]) ==>
              || s.pc[t] == GetLoop(Null)
              || (s.pc[t].GetTaken? && Next(s, t, Run).held[t] == s.held[t] + {s.pc[t].node})
  {
    hide PcWf;
  }
}
