/** The optimistic dequeue counters of one producer, as a transition system.

    Consumers first claim elements by adding to an optimistic count, then look at the tail
    again and give back what was not there by adding to an overcommit count; what remains is
    taken from the head. The indices are unbounded here; `CircularLess` states when the
    64-bit comparison of the source agrees with `<`. */
module DequeueCounters {
  import opened Counting

  type Tid = nat

  /** The next atomic operation of a consumer, with its local variables. A single dequeue is
      a bulk dequeue of at most one element: its tests and additions are the same. */
  datatype Pc =
    | Idle
    | ReadTail(max: nat)
    | ReadOvercommit(max: nat, tail: nat)
    | ReadOptimistic(max: nat, tail: nat, over: nat)
    | Claim(desired: nat, over: nat)
    | Recheck(desired: nat, over: nat, mine: nat)
    | GiveBack(desired: nat)
    | GiveBackSome(desired: nat, actual: nat)
    | Take(actual: nat)
    | Granted(first: nat, count: nat)

  datatype Grant = Grant(to: Tid, first: nat, count: nat)

  /** Threads are numbered; `grants` records every range handed out, in order. */
  datatype State = State(
    tail: nat,
    head: nat,
    optimistic: nat,
    over: nat,
    pc: seq<Pc>,
    grants: seq<Grant>)

  datatype Action =
    | Publish(more: nat)          // the producer stores a larger tailIndex
    | Dequeue(t: Tid, max: nat)
    | Run(t: Tid)
    | Finish(t: Tid)

  ghost function Exec(s: State, t: Tid): State
    requires t < |s.pc|
  {
    match s.pc[t]
    case Idle => s
    case ReadTail(max) =>
      s.(pc := s.pc[t := ReadOvercommit(max, s.tail)])
    case ReadOvercommit(max, tail) =>
      s.(pc := s.pc[t := ReadOptimistic(max, tail, s.over)])
    case ReadOptimistic(max, tail, over) =>
      var desired := tail - (s.optimistic - over);
      s.(pc := s.pc[t := if desired > 0 then Claim(Min(desired, max), over) else Idle])
    case Claim(desired, over) =>
      s.(optimistic := s.optimistic + desired, pc := s.pc[t := Recheck(desired, over, s.optimistic)])
    case Recheck(desired, over, mine) =>
      var actual := s.tail - (mine - over);
      s.(pc := s.pc[t := if actual <= 0 then GiveBack(desired)
                         else if actual < desired then GiveBackSome(desired, actual)
                         else Take(desired)])
    case GiveBack(desired) =>
      s.(over := s.over + desired, pc := s.pc[t := Idle])
    case GiveBackSome(desired, actual) =>
      s.(over := s.over + (if actual < desired then desired - actual else 0), pc := s.pc[t := Take(actual)])
    case Take(actual) =>
      s.(head := s.head + actual,
         grants := s.grants + [Grant(t, s.head, actual)],
         pc := s.pc[t := Granted(s.head, actual)])
    case Granted(_, _) => s
  }

  ghost predicate Enabled(s: State, a: Action) {
    match a
    case Publish(_) => true
    case Dequeue(t, max) => t < |s.pc| && s.pc[t] == Idle
    case Run(t) => t < |s.pc| && s.pc[t] != Idle && !s.pc[t].Granted?
    case Finish(t) => t < |s.pc| && s.pc[t].Granted?
  }

  ghost function Next(s: State, a: Action): State
    requires Enabled(s, a)
  {
    match a
    case Publish(more) => s.(tail := s.tail + more)
    case Dequeue(t, max) => s.(pc := s.pc[t := ReadTail(max)])
    case Run(t) => Exec(s, t)
    case Finish(t) => s.(pc := s.pc[t := Idle])
  }

  ghost predicate Init(s: State) {
    && s.tail == 0 && s.head == 0 && s.optimistic == 0 && s.over == 0 && s.grants == []
    && forall t :: 0 <= t < |s.pc| ==> s.pc[t] == Idle
  }

  ghost predicate Runs(first: State, run: seq<Action>, last: State)
    decreases |run|
  {
    if run == [] then first == last
    else Enabled(first, run[0]) && Runs(Next(first, run[0]), run[1..], last)
  }

  ghost predicate Reachable(s: State) {
    exists first, run :: Init(first) && Runs(first, run, s)
  }

  // ---------------------------------------------------------------- the claim log

  /** One addition to the optimistic count: its size, and how much of it still stands. It is
      undecided from the addition until its owner has looked at the tail again. */
  datatype Entry = Undecided(owner: Tid, size: nat) | Decided(size: nat, kept: nat)

  /** The witness of the invariant: all claims in the order they were added, and the position
      of each thread's undecided claim. */
  datatype Aux = Aux(log: seq<Entry>, at: map<Tid, nat>)

  ghost function Kept(e: Entry): nat {
    if e.Decided? then e.kept else e.size
  }

  ghost function Sizes(log: seq<Entry>): nat {
    if log == [] then 0 else Sizes(log[..|log| - 1]) + log[|log| - 1].size
  }

  ghost function Stands(log: seq<Entry>): nat {
    if log == [] then 0 else Stands(log[..|log| - 1]) + Kept(log[|log| - 1])
  }

  /** What the decided claims keep. */
  ghost function Settled(log: seq<Entry>): nat {
    if log == [] then 0
    else Settled(log[..|log| - 1]) + if log[|log| - 1].Decided? then log[|log| - 1].kept else 0
  }

  /** Decided to be taken, not yet added to the head. */
  ghost function ToTake(pc: Pc): nat {
    match pc
    case GiveBackSome(_, actual) => actual
    case Take(actual) => actual
    case _ => 0
  }

  /** Decided to be given back, not yet added to the overcommit. */
  ghost function ToGiveBack(pc: Pc): nat {
    match pc
    case GiveBack(desired) => desired
    case GiveBackSome(desired, actual) => if actual < desired then desired - actual else 0
    case _ => 0
  }

  /** Added to the optimistic count, not yet to the head or the overcommit. */
  ghost function InFlight(pc: Pc): nat {
    match pc
    case Recheck(desired, _, _) => desired
    case GiveBack(desired) => desired
    case GiveBackSome(desired, actual) => if actual < desired then desired else actual
    case Take(actual) => actual
    case _ => 0
  }

  lemma {:induction false} LogUpdate(log: seq<Entry>, k: nat, e: Entry)
    requires k < |log| && e.size == log[k].size
    ensures Sizes(log[k := e]) == Sizes(log)
    ensures Stands(log[k := e]) == Stands(log) - Kept(log[k]) + Kept(e)
    ensures log[k].Undecided? && e.Decided? ==> Settled(log[k := e]) == Settled(log) + e.kept
  {
    var n := |log| - 1;
    if k == n {
      assert log[k := e][..n] == log[..n];
    } else {
      assert log[k := e][..n] == log[..n][k := e];
      LogUpdate(log[..n], k, e);
    }
  }

  /** What stands up to position `i` after the claim at `k` is decided. */
  lemma PrefixUpdate(log: seq<Entry>, k: nat, e: Entry, i: nat)
    requires k < |log| && i <= |log| && e.size == log[k].size
    ensures Sizes(log[k := e][..i]) == Sizes(log[..i])
    ensures Stands(log[k := e][..i]) == Stands(log[..i]) + if k < i then Kept(e) - Kept(log[k]) else 0
  {
    if k < i {
      assert log[k := e][..i] == log[..i][k := e];
      LogUpdate(log[..i], k, e);
    } else {
      assert log[k := e][..i] == log[..i];
    }
  }

  /** Every claim that keeps something ends, with all that stands before it, below the tail. */
  ghost predicate Bounded(log: seq<Entry>, tail: nat) {
    forall i :: 0 <= i < |log| && log[i].Decided? && log[i].kept > 0 ==> Stands(log[..i + 1]) <= tail
  }

  lemma {:induction false} SettledAtMostStands(log: seq<Entry>)
    ensures Settled(log) <= Stands(log)
  {
    if log != [] { SettledAtMostStands(log[..|log| - 1]); }
  }

  lemma {:induction false} SettledBound(log: seq<Entry>, tail: nat)
    requires Bounded(log, tail)
    ensures Settled(log) <= tail
  {
    if log != [] {
      var n := |log| - 1;
      if log[n].Decided? && log[n].kept > 0 {
        assert log[..n + 1] == log;
        SettledAtMostStands(log);
      } else {
        forall i | 0 <= i < n && log[..n][i].Decided? && log[..n][i].kept > 0
          ensures Stands(log[..n][..i + 1]) <= tail
        {
          assert log[..n][..i + 1] == log[..i + 1];
        }
        SettledBound(log[..n], tail);
      }
    }
  }

  lemma {:induction false} AllDecided(log: seq<Entry>)
    requires forall i :: 0 <= i < |log| ==> log[i].Decided?
    ensures Settled(log) == Stands(log)
  {
    if log != [] { AllDecided(log[..|log| - 1]); }
  }

  // ---------------------------------------------------------------- the invariant

  ghost predicate Counted(s: State, log: seq<Entry>) {
    && s.optimistic == Sizes(log)
    && s.head + Sum(s.pc, ToTake) == Settled(log)
    && s.over + Sum(s.pc, ToGiveBack) == Sizes(log) - Stands(log)
    && s.optimistic == s.head + s.over + Sum(s.pc, InFlight)
  }

  ghost predicate PcOk(s: State, g: Aux, t: Tid, pc: Pc) {
    match pc
    case ReadOvercommit(max, tail) => tail <= s.tail
    case ReadOptimistic(max, tail, over) => tail <= s.tail && over <= s.over
    case Claim(desired, over) => over <= s.over
    case Recheck(desired, over, mine) =>
      && t in g.at && g.at[t] < |g.log| && g.log[g.at[t]] == Undecided(t, desired)
      && mine == Sizes(g.log[..g.at[t]])
      && over <= mine - Stands(g.log[..g.at[t]]) && over <= s.over
    case GiveBackSome(desired, actual) => 0 < actual < desired
    case Granted(first, count) => first + count <= s.head
    case _ => true
  }

  ghost predicate Logged(s: State, g: Aux) {
    && Bounded(g.log, s.tail)
    && (forall t :: 0 <= t < |s.pc| ==> PcOk(s, g, t, s.pc[t]))
    && (forall i :: 0 <= i < |g.log| && g.log[i].Undecided? ==>
          var t := g.log[i].owner; t < |s.pc| && s.pc[t].Recheck? && t in g.at && g.at[t] == i)
  }

  /** Some index was granted to both. */
  ghost predicate Overlap(p: Pc, q: Pc) {
    p.Granted? && q.Granted? && p.count > 0 && q.count > 0 && p.first < q.first + q.count && q.first < p.first + p.count
  }

  /** The ranges handed out lie end to end from 0 to the head. */
  ghost predicate Tiles(grants: seq<Grant>, head: nat)
    decreases |grants|
  {
    if grants == [] then head == 0
    else
      var last := grants[|grants| - 1];
      last.first + last.count == head && Tiles(grants[..|grants| - 1], last.first)
  }

  ghost predicate Disjoint(s: State) {
    && Tiles(s.grants, s.head)
    && forall t, u :: 0 <= t < u < |s.pc| ==> !Overlap(s.pc[t], s.pc[u])
  }

  ghost predicate Inv(s: State, g: Aux) {
    Counted(s, g.log) && Logged(s, g) && Disjoint(s)
  }

  ghost function NextAux(s: State, g: Aux, a: Action): Aux
    requires Enabled(s, a)
  {
    if !a.Run? then g else
      match s.pc[a.t]
      case Claim(desired, _) => Aux(g.log + [Undecided(a.t, desired)], g.at[a.t := |g.log|])
      case Recheck(desired, over, mine) =>
        var actual := s.tail - (mine - over);
        var kept := if actual <= 0 then 0 else Min(actual, desired);
        if a.t in g.at && g.at[a.t] < |g.log| then g.(log := g.log[g.at[a.t] := Decided(desired, kept)]) else g
      case _ => g
  }

  lemma SumsMove(s: State, a: Action)
    requires Enabled(s, a) && !a.Publish?
    ensures var s' := Next(s, a); var t := a.t;
            && s'.pc == s.pc[t := s'.pc[t]]
            && Sum(s'.pc, ToTake) == Sum(s.pc, ToTake) - ToTake(s.pc[t]) + ToTake(s'.pc[t])
            && Sum(s'.pc, ToGiveBack) == Sum(s.pc, ToGiveBack) - ToGiveBack(s.pc[t]) + ToGiveBack(s'.pc[t])
            && Sum(s'.pc, InFlight) == Sum(s.pc, InFlight) - InFlight(s.pc[t]) + InFlight(s'.pc[t])
  {
    var p := Next(s, a).pc[a.t];
    SumUpdate(s.pc, ToTake, a.t, p);
    SumUpdate(s.pc, ToGiveBack, a.t, p);
    SumUpdate(s.pc, InFlight, a.t, p);
  }

  lemma RecheckCounted(s: State, g: Aux, t: Tid)
    requires Counted(s, g.log) && t < |s.pc| && s.pc[t].Recheck? && PcOk(s, g, t, s.pc[t])
    ensures Counted(Next(s, Run(t)), NextAux(s, g, Run(t)).log)
  {
    hide Sum, Sizes, Stands, Settled;
    SumsMove(s, Run(t));
    var k := g.at[t];
    LogUpdate(g.log, k, NextAux(s, g, Run(t)).log[k]);
  }

  lemma LogGrows(log: seq<Entry>, e: Entry)
    ensures Sizes(log + [e]) == Sizes(log) + e.size && Stands(log + [e]) == Stands(log) + Kept(e)
    ensures Settled(log + [e]) == Settled(log) + if e.Decided? then e.kept else 0
  {
    assert (log + [e])[..|log|] == log;
  }

  lemma ClaimCounted(s: State, g: Aux, t: Tid)
    requires Counted(s, g.log) && t < |s.pc| && s.pc[t].Claim?
    ensures Counted(Next(s, Run(t)), NextAux(s, g, Run(t)).log)
  {
    hide Sum, Sizes, Stands, Settled;
    SumsMove(s, Run(t));
    LogGrows(g.log, Undecided(t, s.pc[t].desired));
  }

  lemma CountedKept(s: State, g: Aux, a: Action)
    requires Counted(s, g.log) && Enabled(s, a)
    requires !a.Publish? ==> PcOk(s, g, a.t, s.pc[a.t])
    ensures Counted(Next(s, a), NextAux(s, g, a).log)
  {
    hide Sum, Sizes, Stands, Settled;
    if a.Run? && s.pc[a.t].Recheck? {
      RecheckCounted(s, g, a.t);
    } else if a.Run? && s.pc[a.t].Claim? {
      ClaimCounted(s, g, a.t);
    } else if !a.Publish? {
      SumsMove(s, a);
    }
  }

  lemma StandsStep(log: seq<Entry>, k: nat)
    requires k < |log|
    ensures Stands(log[..k + 1]) == Stands(log[..k]) + Kept(log[k])
  {
    assert log[..k + 1][..k] == log[..k];
  }

  lemma RecheckBound(s: State, g: Aux, t: Tid, i: nat)
    requires Logged(s, g) && t < |s.pc| && s.pc[t].Recheck? && i < |g.log|
    ensures var log' := NextAux(s, g, Run(t)).log;
            |log'| == |g.log| && (log'[i].Decided? && log'[i].kept > 0 ==> Stands(log'[..i + 1]) <= s.tail)
  {
    hide Sizes, Stands;
    RecheckFacts(s, g, t);
    hide Logged;
    var k := g.at[t];
    var log' := NextAux(s, g, Run(t)).log;
    PrefixUpdate(g.log, k, log'[k], i + 1);
    StandsStep(g.log, k);
    if i != k && g.log[i].Decided? && g.log[i].kept > 0 { BoundAt(s, g, i); }
  }

  lemma BoundAt(s: State, g: Aux, i: nat)
    requires Logged(s, g) && i < |g.log| && g.log[i].Decided? && g.log[i].kept > 0
    ensures Stands(g.log[..i + 1]) <= s.tail
  {
    hide Sizes, Stands, PcOk;
  }

  lemma RecheckFacts(s: State, g: Aux, t: Tid)
    requires Logged(s, g) && t < |s.pc| && s.pc[t].Recheck?
    ensures t in g.at && g.at[t] < |g.log| && g.log[g.at[t]] == Undecided(t, s.pc[t].desired)
    ensures s.pc[t].over <= s.pc[t].mine - Stands(g.log[..g.at[t]])
  {
    hide Sizes, Stands, Bounded;
    assert PcOk(s, g, t, s.pc[t]);
  }

  /** The heart of the protocol: a claim that keeps something ends below the tail, because all
      that a consumer read as given back lies before its own claim. */
  lemma BoundedKept(s: State, g: Aux, a: Action)
    requires Logged(s, g) && Enabled(s, a)
    ensures Bounded(NextAux(s, g, a).log, Next(s, a).tail)
  {
    var log' := NextAux(s, g, a).log;
    if !a.Publish? { assert PcOk(s, g, a.t, s.pc[a.t]); }
    hide Sizes, Stands, Counted, PcOk;
    forall i | 0 <= i < |log'| && log'[i].Decided? && log'[i].kept > 0
      ensures Stands(log'[..i + 1]) <= Next(s, a).tail
    {
      if a.Run? && s.pc[a.t].Recheck? {
        RecheckBound(s, g, a.t, i);
      } else if a.Run? && s.pc[a.t].Claim? {
        assert log'[..i + 1] == g.log[..i + 1];
      }
    }
  }

  lemma OwnPcKept(s: State, g: Aux, a: Action)
    requires Logged(s, g) && Counted(s, g.log) && Enabled(s, a) && !a.Publish?
    ensures PcOk(Next(s, a), NextAux(s, g, a), a.t, Next(s, a).pc[a.t])
  {
    hide Sum, Sizes, Stands, Settled, Bounded;
    if a.Run? && s.pc[a.t].Claim? {
      ClaimPcKept(s, g, a.t);
    } else {
      hide Counted;
      assert PcOk(s, g, a.t, s.pc[a.t]);
    }
  }

  lemma ClaimPcKept(s: State, g: Aux, t: Tid)
    requires Logged(s, g) && Counted(s, g.log) && Enabled(s, Run(t)) && s.pc[t].Claim?
    ensures PcOk(Next(s, Run(t)), NextAux(s, g, Run(t)), t, Next(s, Run(t)).pc[t])
  {
    hide Sum, Sizes, Stands, Settled, Bounded;
    assert PcOk(s, g, t, s.pc[t]);
    assert NextAux(s, g, Run(t)).log[..|g.log|] == g.log;
  }

  lemma OtherPcKept(s: State, g: Aux, a: Action, u: Tid)
    requires Logged(s, g) && Enabled(s, a) && u < |s.pc| && (a.Publish? || u != a.t)
    ensures PcOk(Next(s, a), NextAux(s, g, a), u, s.pc[u])
  {
    assert PcOk(s, g, u, s.pc[u]);
    if !a.Publish? { assert PcOk(s, g, a.t, s.pc[a.t]); }
    if s.pc[u].Recheck? && a.Run? {
      if s.pc[a.t].Recheck? {
        var k := g.at[a.t];
        PrefixUpdate(g.log, k, NextAux(s, g, a).log[k], g.at[u]);
      } else if s.pc[a.t].Claim? {
        assert NextAux(s, g, a).log[..g.at[u]] == g.log[..g.at[u]];
      }
    }
    hide Sum, Sizes, Stands, Settled, Bounded;
  }

  lemma LoggedKept(s: State, g: Aux, a: Action)
    requires Logged(s, g) && Counted(s, g.log) && Enabled(s, a)
    ensures Logged(Next(s, a), NextAux(s, g, a))
  {
    var s', g' := Next(s, a), NextAux(s, g, a);
    BoundedKept(s, g, a);
    forall u | 0 <= u < |s'.pc| ensures PcOk(s', g', u, s'.pc[u]) {
      if a.Publish? || u != a.t { OtherPcKept(s, g, a, u); } else { OwnPcKept(s, g, a); }
    }
    if !a.Publish? { assert PcOk(s, g, a.t, s.pc[a.t]); }
    hide PcOk, Bounded, Counted;
  }

  /** Only the step that stores the head grants, and the range it grants starts there. */
  lemma GrantingStep(s: State, a: Action)
    requires Enabled(s, a)
    ensures var s' := Next(s, a);
            && |s'.pc| == |s.pc|
            && (forall u :: 0 <= u < |s.pc| && (a.Publish? || u != a.t) ==> s'.pc[u] == s.pc[u])
            && if a.Run? && s.pc[a.t].Take? then
                 && s'.pc[a.t] == Granted(s.head, s.pc[a.t].actual) && s'.head == s.head + s.pc[a.t].actual
                 && s'.grants == s.grants + [Grant(a.t, s.head, s.pc[a.t].actual)]
               else s'.head == s.head && s'.grants == s.grants && (!a.Publish? ==> !s'.pc[a.t].Granted?)
  {
  }

  lemma GrantedBelowHead(s: State, g: Aux, u: Tid)
    requires Logged(s, g) && u < |s.pc| && s.pc[u].Granted?
    ensures s.pc[u].first + s.pc[u].count <= s.head
  {
    hide Sizes, Stands, Bounded;
    assert PcOk(s, g, u, s.pc[u]);
  }

  lemma DisjointKept(s: State, g: Aux, a: Action)
    requires Inv(s, g) && Enabled(s, a)
    ensures Disjoint(Next(s, a))
  {
    hide Counted, Logged, Enabled, Next, Tiles;
    GrantingStep(s, a);
    var s' := Next(s, a);
    TilesKept(s, a);
    forall t, u | 0 <= t < u < |s'.pc|
      ensures !Overlap(s'.pc[t], s'.pc[u])
    {
      assert !Overlap(s.pc[t], s.pc[u]);
      if s.pc[t].Granted? { GrantedBelowHead(s, g, t); }
      if s.pc[u].Granted? { GrantedBelowHead(s, g, u); }
    }
  }

  lemma TilesKept(s: State, a: Action)
    requires Enabled(s, a) && Tiles(s.grants, s.head)
    ensures Tiles(Next(s, a).grants, Next(s, a).head)
  {
    hide Next;
    GrantingStep(s, a);
    assert a.Run? && s.pc[a.t].Take? ==> Next(s, a).grants[..|s.grants|] == s.grants;
  }

  lemma StepKeepsInv(s: State, g: Aux, a: Action)
    requires Inv(s, g) && Enabled(s, a)
    ensures Inv(Next(s, a), NextAux(s, g, a))
  {
    if !a.Publish? { assert PcOk(s, g, a.t, s.pc[a.t]); }
    hide Counted, Logged, Disjoint, PcOk;
    CountedKept(s, g, a);
    LoggedKept(s, g, a);
    DisjointKept(s, g, a);
  }

  lemma InitHasInv(s: State)
    requires Init(s)
    ensures Inv(s, Aux([], map[]))
  {
    SumIdle(s.pc);
  }

  lemma SumIdle(pc: seq<Pc>)
    requires forall t :: 0 <= t < |pc| ==> ToTake(pc[t]) == ToGiveBack(pc[t]) == InFlight(pc[t]) == 0
    ensures Sum(pc, ToTake) == Sum(pc, ToGiveBack) == Sum(pc, InFlight) == 0
  {
    SumZero(pc, ToTake);
    SumZero(pc, ToGiveBack);
    SumZero(pc, InFlight);
  }

  lemma {:induction false} RunsKeepInv(first: State, g: Aux, run: seq<Action>, last: State)
    requires Inv(first, g) && Runs(first, run, last)
    ensures exists g' :: Inv(last, g')
    decreases |run|
  {
    hide Inv, Enabled;
    if run != [] {
      StepKeepsInv(first, g, run[0]);
      RunsKeepInv(Next(first, run[0]), NextAux(first, g, run[0]), run[1..], last);
    }
  }

  lemma ReachableInv(s: State) returns (g: Aux)
    requires Reachable(s)
    ensures Inv(s, g)
  {
    hide Inv, Init;
    var first, run :| Init(first) && Runs(first, run, s);
    InitHasInv(first);
    RunsKeepInv(first, Aux([], map[]), run, s);
    g :| Inv(s, g);
  }

  // ---------------------------------------------------------------- what holds in every run

  /** Under any interleaving of any number of consumers, the head, and all that is decided to
      be taken but not yet added to it, stays within what the producer has published. */
  lemma HeadNeverPassesTail(s: State)
    requires Reachable(s)
    ensures s.head + Sum(s.pc, ToTake) <= s.tail
  {
    var g := ReachableInv(s);
    SettledBound(g.log, s.tail);
  }

  /** Nothing claimed is unaccounted for. */
  lemma ClaimsBalance(s: State)
    requires Reachable(s)
    ensures s.optimistic == s.head + s.over + Sum(s.pc, InFlight)
    ensures s.over <= s.optimistic
  {
    var g := ReachableInv(s);
  }

  /** The code's assert after its claim: the overcommit it read is not above the count it got. */
  lemma OvercommitNotAboveClaim(s: State, t: Tid)
    requires Reachable(s) && t < |s.pc| && s.pc[t].Recheck?
    ensures s.pc[t].over <= s.pc[t].mine
  {
    var g := ReachableInv(s);
    assert PcOk(s, g, t, s.pc[t]);
  }

  ghost function Total(grants: seq<Grant>): nat {
    if grants == [] then 0 else Total(grants[..|grants| - 1]) + grants[|grants| - 1].count
  }

  lemma {:induction false} TilesAreDisjoint(grants: seq<Grant>, head: nat, i: nat, j: nat)
    requires Tiles(grants, head) && i < j < |grants|
    ensures grants[i].first + grants[i].count <= grants[j].first
    ensures grants[j].first + grants[j].count <= head
    decreases |grants|
  {
    var n := |grants| - 1;
    if j < n {
      TilesAreDisjoint(grants[..n], grants[n].first, i, j);
    } else {
      TileBelow(grants[..n], grants[n].first, i);
    }
  }

  lemma {:induction false} TileBelow(grants: seq<Grant>, head: nat, i: nat)
    requires Tiles(grants, head) && i < |grants|
    ensures grants[i].first + grants[i].count <= head
    decreases |grants|
  {
    var n := |grants| - 1;
    if i < n { TileBelow(grants[..n], grants[n].first, i); }
  }

  lemma {:induction false} TilesTotal(grants: seq<Grant>, head: nat)
    requires Tiles(grants, head)
    ensures Total(grants) == head
    decreases |grants|
  {
    if grants != [] { TilesTotal(grants[..|grants| - 1], grants[|grants| - 1].first); }
  }

  /** No index is granted twice, none is skipped, and the total granted never exceeds the tail. */
  lemma GrantsAreDisjoint(s: State)
    requires Reachable(s)
    ensures forall i, j :: 0 <= i < j < |s.grants| ==> s.grants[i].first + s.grants[i].count <= s.grants[j].first
    ensures Total(s.grants) == s.head <= s.tail
  {
    var g := ReachableInv(s);
    forall i, j | 0 <= i < j < |s.grants| ensures s.grants[i].first + s.grants[i].count <= s.grants[j].first {
      TilesAreDisjoint(s.grants, s.head, i, j);
    }
    TilesTotal(s.grants, s.head);
    HeadNeverPassesTail(s);
  }

  ghost predicate Quiescent(s: State) {
    forall t :: 0 <= t < |s.pc| ==> s.pc[t] == Idle || s.pc[t].Granted?
  }

  ghost function RunFor(s: State, t: Tid, steps: nat): State
    requires t < |s.pc|
    ensures |RunFor(s, t, steps).pc| == |s.pc|
    decreases steps
  {
    if steps == 0 then s else RunFor(Exec(s, t), t, steps - 1)
  }

  /** With no other dequeue in flight, a dequeue gets all it asks for that is there, and gets
      nothing only when nothing is there: past overcommits never make it miss an element. */
  lemma LoneDequeue(s: State, t: Tid, max: nat)
    requires Reachable(s) && Quiescent(s) && t < |s.pc| && s.pc[t] == Idle
    ensures s.head < s.tail ==>
              RunFor(Next(s, Dequeue(t, max)), t, 6).pc[t] == Granted(s.head, Min(max, s.tail - s.head))
    ensures s.head == s.tail ==>
              RunFor(Next(s, Dequeue(t, max)), t, 3) == s
  {
    ClaimsBalance(s);
    SumIdle(s.pc);
    hide Sum, Reachable, RunFor;
    var s0 := Next(s, Dequeue(t, max));
    var s1 := Exec(s0, t);
    var s2 := Exec(s1, t);
    var s3 := Exec(s2, t);
    Unroll3(s0, t);
    if s.head < s.tail {
      var s4 := Exec(s3, t);
      var s5 := Exec(s4, t);
      var s6 := Exec(s5, t);
      Unroll3(s3, t);
      RunForAdds(s0, t, 3, 3);
      assert s6.pc[t] == Granted(s.head, Min(max, s.tail - s.head));
    } else {
      HeadNeverPassesTail(s);
      assert s3.pc == s.pc;
    }
  }

  /** A dequeue that asks for nothing may be granted nothing; one that asks for more never is. */
  ghost predicate Asking(pc: Pc) {
    match pc
    case ReadTail(max) => max > 0
    case ReadOvercommit(max, _) => max > 0
    case ReadOptimistic(max, _, _) => max > 0
    case Claim(desired, _) => desired > 0
    case Recheck(desired, _, _) => desired > 0
    case GiveBackSome(_, actual) => actual > 0
    case Take(actual) => actual > 0
    case Granted(_, count) => count > 0
    case _ => true
  }

  lemma AskingKept(s: State, a: Action)
    requires Enabled(s, a) && (a.Dequeue? ==> a.max > 0)
    requires forall t :: 0 <= t < |s.pc| ==> Asking(s.pc[t])
    ensures forall t :: 0 <= t < |Next(s, a).pc| ==> Asking(Next(s, a).pc[t])
  {
    if !a.Publish? { assert Asking(s.pc[a.t]); }
  }

  /** Why a dequeue fails, whatever others do meanwhile: every element published has been taken, or
      is claimed by another dequeue in flight, or was claimed and has been given back since this one
      read the overcommit. */
  lemma FailedDequeue(s: State, t: Tid)
    requires Reachable(s) && t < |s.pc|
    requires s.pc[t].ReadOptimistic? || s.pc[t].Recheck?
    ensures s.pc[t].over <= s.over
    ensures s.pc[t].ReadOptimistic? && Exec(s, t).pc[t] == Idle ==>
              s.pc[t].tail <= s.head + Sum(s.pc, InFlight) + (s.over - s.pc[t].over)
    ensures s.pc[t].Recheck? && Exec(s, t).pc[t].GiveBack? ==>
              s.tail <= s.head + (Sum(s.pc, InFlight) - s.pc[t].desired) + (s.over - s.pc[t].over)
  {
    var g := ReachableInv(s);
    hide Sum, Reachable, Bounded, Disjoint;
    assert PcOk(s, g, t, s.pc[t]);
    if s.pc[t].Recheck? { ClaimWithin(g.log, g.at[t]); }
  }

  lemma {:induction false} ClaimWithin(log: seq<Entry>, k: nat)
    requires k < |log|
    ensures Sizes(log[..k]) + log[k].size <= Sizes(log)
    decreases |log|
  {
    var n := |log| - 1;
    if k < n {
      assert log[..n][..k] == log[..k];
      ClaimWithin(log[..n], k);
    }
  }

  lemma Unroll3(s: State, t: Tid)
    requires t < |s.pc|
    ensures RunFor(s, t, 3) == Exec(Exec(Exec(s, t), t), t)
  {
    hide Exec;
  }

  lemma {:induction false} RunForAdds(s: State, t: Tid, m: nat, n: nat)
    requires t < |s.pc|
    ensures RunFor(s, t, m + n) == RunFor(RunFor(s, t, m), t, n)
    decreases m
  {
    if m > 0 { RunForAdds(Exec(s, t), t, m - 1, n); }
  }

  // ---------------------------------------------------------------- 64-bit indices

  const INDEX_RANGE: int := 0x1_0000_0000_0000_0000
  const INDEX_HALF: int := 0x8000_0000_0000_0000

  /** The source's comparison of two 64-bit indices. */
  ghost predicate CircularLessThan(a: int, b: int) {
    (a % INDEX_RANGE - b % INDEX_RANGE) % INDEX_RANGE > INDEX_HALF
  }

  /** The unbounded indices of this model behave as the wrapped ones, exactly while two compared
      indices are less than half the range apart, or just half when the first is the larger. */
  lemma CircularLess(a: int, b: int)
    requires -INDEX_RANGE < a - b < INDEX_RANGE
    ensures (CircularLessThan(a, b) <==> a < b) <==> -INDEX_HALF < a - b <= INDEX_HALF
  {
    var d := a - b;
    assert (a % INDEX_RANGE - b % INDEX_RANGE) % INDEX_RANGE == d % INDEX_RANGE;
    assert d % INDEX_RANGE == if d >= 0 then d else d + INDEX_RANGE;
  }
}
