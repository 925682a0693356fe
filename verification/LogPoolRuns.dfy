/** What holds in every run of the log pool. */
module LogPoolRuns {
  import opened Counting
  import opened LogPool
  import opened LogPoolProof

  lemma InitHasInv(s: State)
    requires Init(s)
    ensures Inv(s)
  {
    hide Sum;
  }

  lemma {:induction false} RunsKeepInv(s: State, run: seq<Action>, s': State)
    requires Inv(s) && Runs(s, run, s')
    ensures Inv(s')
    decreases |run|
  {
    hide Inv, Enabled;
    if run != [] {
      StepKeepsInv(s, run[0]);
      RunsKeepInv(Next(s, run[0]), run[1..], s');
    }
  }

  lemma ReachableInv(s: State)
    requires Reachable(s)
    ensures Inv(s)
  {
    hide Inv, Init;
    var first, run :| Init(first) && Runs(first, run, s);
    InitHasInv(first);
    RunsKeepInv(first, run, s);
  }

  // ---------------------------------------------------------------- workers and terminates

  ghost predicate TookTerminate(left: seq<Left>, w: nat) {
    exists i :: 0 <= i < |left| && left[i] == Left(Terminate, TakenBy(w))
  }

  ghost function TerminateOf(left: seq<Left>, w: nat): (i: nat)
    requires TookTerminate(left, w)
    ensures i < |left| && left[i] == Left(Terminate, TakenBy(w))
  {
    var i :| 0 <= i < |left| && left[i] == Left(Terminate, TakenBy(w)); i
  }

  /** When all workers have exited, every message has left the queue and every terminate was sent. */
  lemma ExitedMeansDrained(s: State)
    requires Inv(s) && AllExited(s.workers)
    ensures s.q == [] && s.sent == |s.workers|
  {
    hide Awake;
    var n := |s.workers|;
    forall w | 0 <= w < n ensures TookTerminate(s.left, w) {
      assert WorkerOk(s.left, s.handled, w, s.workers[w]);
    }
    hide TookTerminate;
    var base := |s.posted| - s.sent;
    forall w | 0 <= w < n ensures base <= TerminateOf(s.left, w) < |s.left| {
      assert s.posted[TerminateOf(s.left, w)] == Terminate;
    }
    var f := seq(n, w requires 0 <= w < n => TerminateOf(s.left, w) - base);
    forall w, u | 0 <= w < u < n ensures f[w] != f[u] {
      assert s.left[TerminateOf(s.left, w)].fate != s.left[TerminateOf(s.left, u)].fate;
    }
    assert f[0] >= 0;
    Pigeonhole(f, |s.left| - base);
  }

  /** While the destructor has a terminate left to post, some worker is alive to make room for it. */
  lemma WorkerIsAlive(s: State)
    requires Reachable(s) && s.sent < |s.workers|
    ensures exists w :: 0 <= w < |s.workers| && s.workers[w] != WExited
  {
    ReachableInv(s);
    hide Inv;
    if AllExited(s.workers) {
      ExitedMeansDrained(s);
    }
  }

  /** With everything taken and every terminate sent, each of the last entries is a worker's own. */
  lemma TerminateAt(s: State, i: nat)
    requires Inv(s) && s.q == [] && s.sent == |s.workers| && |s.left| - |s.workers| <= i < |s.left|
    ensures s.left[i].msg == Terminate && s.left[i].fate.TakenBy? && s.left[i].fate.w < |s.workers|
    ensures s.workers[s.left[i].fate.w] != WWaiting && s.workers[s.left[i].fate.w] != WReady
  {
    hide Awake, WorkerOk;
    assert s.posted[i] == Terminate;
    assert Settled(s.left, s.handled, s.workers, i);
  }

  lemma TerminatesDiffer(s: State, i: nat, j: nat)
    requires Inv(s) && i < j < |s.left| && s.left[i].fate.TakenBy? && s.left[i].msg == s.left[j].msg == Terminate
    ensures s.left[i].fate != s.left[j].fate
  {
    hide Awake, WorkerOk, Settled, Conserved, Ending;
  }

  lemma EnoughTaken(s: State)
    requires Inv(s) && s.q == [] && s.sent == |s.workers|
    ensures |s.workers| <= |s.left|
  {
    hide Awake, Delivered;
  }

  /** When all terminates have left the queue, each worker has taken one: none is still waiting. */
  lemma AllTerminatesTaken(s: State, w: nat)
    requires Inv(s) && s.q == [] && s.sent == |s.workers| && w < |s.workers|
    ensures s.workers[w] != WWaiting && s.workers[w] != WReady
  {
    hide Inv;
    EnoughTaken(s);
    var n := |s.workers|;
    var base := |s.left| - n;
    forall i | base <= i < |s.left|
      ensures s.left[i].msg == Terminate && s.left[i].fate.TakenBy? && s.left[i].fate.w < n
    {
      TerminateAt(s, i);
    }
    var f := seq(n, k requires 0 <= k < n => s.left[base + k].fate.w);
    forall k, l | 0 <= k < l < n ensures f[k] != f[l] { TerminatesDiffer(s, base + k, base + l); }
    AllTaken(f, n, w);
    var k :| 0 <= k < n && f[k] == w;
    TerminateAt(s, base + k);
  }

  // ---------------------------------------------------------------- main results: delivery

  /** After destruction every message posted has left the queue in the order it was posted; each log
      and flush that was not overrun has been handled exactly once, by the worker that took it. */
  lemma HandledExactlyOnce(s: State)
    requires Reachable(s) && s.phase == Destroyed
    ensures s.q == [] && |s.left| == |s.posted|
    ensures forall i :: 0 <= i < |s.posted| ==>
              && s.left[i].msg == s.posted[i]
              && (i in s.handled <==> s.left[i].fate.TakenBy? && s.posted[i] != Terminate)
    ensures forall k, l :: 0 <= k < l < |s.handled| ==> s.handled[k] != s.handled[l]
  {
    ReachableInv(s);
    ExitedMeansDrained(s);
    hide Awake;
    forall i | 0 <= i < |s.posted|
      ensures i in s.handled <==> s.left[i].fate.TakenBy? && s.posted[i] != Terminate
    {
      assert Settled(s.left, s.handled, s.workers, i);
      if i in s.handled {
        var k :| 0 <= k < |s.handled| && s.handled[k] == i;
      }
    }
  }

  /** Each worker has consumed exactly one terminate. */
  lemma OneTerminateEach(s: State, w: nat)
    requires Reachable(s) && s.phase == Destroyed && w < |s.workers|
    ensures TookTerminate(s.left, w)
    ensures forall i, j :: (0 <= i < |s.left| && 0 <= j < |s.left|
                            && s.left[i] == s.left[j] == Left(Terminate, TakenBy(w))) ==> i == j
  {
    ReachableInv(s);
    hide Awake, Conserved, Settled;
    assert WorkerOk(s.left, s.handled, w, s.workers[w]);
  }

  ghost predicate Blocks(a: Action) {
    a.Post? ==> a.policy == Block
  }

  ghost predicate NoOverrun(s: State) {
    && (forall i :: 0 <= i < |s.left| ==> s.left[i].fate.TakenBy?)
    && (forall p :: 0 <= p < |s.posters| && s.posters[p].Ready? ==> s.posters[p].policy == Block)
    && |s.q| <= s.capacity
  }

  lemma BlockingStep(s: State, a: Action)
    requires Enabled(s, a) && Blocks(a) && NoOverrun(s)
    ensures NoOverrun(Next(s, a))
  {
  }

  lemma {:induction false} BlockingLosesNothing(s: State, run: seq<Action>, s': State)
    requires Runs(s, run, s') && (forall i :: 0 <= i < |run| ==> Blocks(run[i])) && NoOverrun(s)
    ensures NoOverrun(s')
    decreases |run|
  {
    if run != [] {
      hide Enabled, NoOverrun, Blocks, Next;
      assert Blocks(run[0]);
      BlockingStep(s, run[0]);
      forall i | 0 <= i < |run[1..]| ensures Blocks(run[1..][i]) { assert Blocks(run[i + 1]); }
      BlockingLosesNothing(Next(s, run[0]), run[1..], s');
    }
  }

  /** With the blocking policy everything posted has been handled when the pool is destroyed. */
  lemma BlockingHandlesAll(first: State, run: seq<Action>, s: State, i: nat)
    requires Init(first) && Runs(first, run, s) && (forall k :: 0 <= k < |run| ==> Blocks(run[k]))
    requires s.phase == Destroyed && i < |s.posted| && s.posted[i] != Terminate
    ensures i in s.handled
  {
    BlockingLosesNothing(first, run, s);
    HandledExactlyOnce(s);
    hide Reachable;
  }

  // ---------------------------------------------------------------- main results: shutdown completes

  ghost predicate Progress(a: Action) {
    !a.Post? && !a.Wake? && !a.Timeout?
  }

  /** No wakeup is lost: until the pool is destroyed some thread can take a step of its own, without
      a new post, a spurious wakeup or a timeout. */
  lemma NeverStuck(s: State)
    requires Reachable(s) && s.phase != Destroyed
    ensures exists a :: Enabled(s, a) && Progress(a)
  {
    ReachableInv(s);
    hide Inv, Reachable;
    if p :| 0 <= p < |s.posters| && (s.posters[p].Ready? || s.posters[p].Notifying?) {
      PosterCanStep(s, p);
    } else if w :| 0 <= w < |s.workers| && (s.workers[w].WReady? || s.workers[w].WNotify? || s.workers[w].WHandle?) {
      WorkerCanStep(s, w);
    } else {
      OnlyWaiting(s);
      if s.phase == Alive { assert Enabled(s, Close) && Progress(Close); }
      else if s.phase == Closing && s.sent < |s.workers| { assert Enabled(s, PostTerminate) && Progress(PostTerminate); }
      else if s.phase == Closing { assert Enabled(s, Join) && Progress(Join); }
      else { assert Enabled(s, Destroy) && Progress(Destroy); }
    }
  }

  lemma PosterCanStep(s: State, p: nat)
    requires Inv(s) && p < |s.posters| && (s.posters[p].Ready? || s.posters[p].Notifying?)
    ensures exists a :: Enabled(s, a) && Progress(a)
  {
    hide Inv;
    if s.posters[p].Ready? {
      assert Enabled(s, Put(p)) && Progress(Put(p));
    } else if w :| 0 <= w < |s.workers| && s.workers[w] == WWaiting {
      assert Enabled(s, NotifyPush(p, w)) && Progress(NotifyPush(p, w));
    } else {
      assert Enabled(s, NotifyPush(p, 0)) && Progress(NotifyPush(p, 0));
    }
  }

  lemma WorkerCanStep(s: State, w: nat)
    requires Inv(s) && w < |s.workers| && (s.workers[w].WReady? || s.workers[w].WNotify? || s.workers[w].WHandle?)
    ensures exists a :: Enabled(s, a) && Progress(a)
  {
    assert WorkerOk(s.left, s.handled, w, s.workers[w]);
    hide Inv;
    if s.workers[w].WReady? {
      assert Enabled(s, Take(w)) && Progress(Take(w));
    } else if s.workers[w].WHandle? {
      assert Enabled(s, Handle(w)) && Progress(Handle(w));
    } else if p :| 0 <= p < |s.posters| && s.posters[p].Waiting? {
      assert Enabled(s, NotifyPop(w, p)) && Progress(NotifyPop(w, p));
    } else {
      assert Enabled(s, NotifyPop(w, 0)) && Progress(NotifyPop(w, 0));
    }
  }

  /** If every thread waits or has ended, nobody waits: the destructor can go on. */
  lemma OnlyWaiting(s: State)
    requires Inv(s)
    requires forall p :: 0 <= p < |s.posters| ==> s.posters[p] == Rest || s.posters[p].Waiting?
    requires forall w :: 0 <= w < |s.workers| ==> s.workers[w] == WWaiting || s.workers[w] == WExited
    ensures |s.posters| > 0 && s.sent <= |s.workers| && AllRest(s.posters)
    ensures s.phase == Joining ==> AllExited(s.workers)
  {
    SumZero(s.posters, ReadyToPut);
    SumZero(s.posters, AboutToNotify);
    SumZero(s.workers, ReadyToTake);
    SumZero(s.workers, AboutToNotifyPop);
    hide Delivered;
    if p :| 0 <= p < |s.posters| && s.posters[p].Waiting? {
      assert !NoneBlocked(s.posters);
      assert |s.q| > 0 && NoneWaits(s.workers);
      ExitedMeansDrained(s);
    }
    if s.phase == Joining {
      if w :| 0 <= w < |s.workers| && s.workers[w] == WWaiting {
        assert !NoneWaits(s.workers);
        AllTerminatesTaken(s, w);
      }
    }
  }

  function PosterWork(p: Poster): nat {
    match p
    case Rest => 0
    case Waiting(_) => 6
    case Ready(_, _) => 7
    case Notifying => 2
  }

  function WorkerWork(w: Worker): nat {
    match w
    case WExited => 0
    case WWaiting => 0
    case WReady => 1
    case WHandle(_) => 2
    case WNotify(_) => 4
  }

  /** The terminates the destructor has still to begin posting. */
  ghost function Unsent(s: State): nat
    requires Ending(s.posted, s.workers, s.phase, s.sent, s.posters)
  {
    var dtor := s.posters[Dtor(s)];
    assert PosterOk(|s.workers|, s.phase, s.sent, true, dtor);
    |s.workers| - s.sent - if dtor.Ready? || dtor.Waiting? then 1 else 0
  }

  /** A bound on the steps that are left when nobody posts any more. */
  ghost function Work(s: State): nat
    requires Ending(s.posted, s.workers, s.phase, s.sent, s.posters)
  {
    Sum(s.posters, PosterWork) + Sum(s.workers, WorkerWork) + 4 * |s.q| + 8 * Unsent(s)
    + match s.phase case Alive => 3 case Closing => 2 case Joining => 1 case Destroyed => 0
  }

  lemma AwakenedWork(posters: seq<Poster>, wake: nat)
    ensures Sum(Awakened(posters, wake), PosterWork) <= Sum(posters, PosterWork) + 1
    ensures |Awakened(posters, wake)| == |posters|
  {
    if wake < |posters| && posters[wake].Waiting? {
      SumUpdate(posters, PosterWork, wake, Ready(posters[wake].msg, Block));
    }
  }

  lemma EndingHolds(s: State)
    requires Inv(s)
    ensures Ending(s.posted, s.workers, s.phase, s.sent, s.posters)
  {
  }

  lemma PutDecreases(s: State, p: nat)
    requires Inv(s) && Enabled(s, Put(p)) && Inv(Next(s, Put(p)))
    ensures Work(Next(s, Put(p))) < Work(s)
  {
    hide Inv, Ending, Sum;
    EndingHolds(s);
    EndingHolds(Next(s, Put(p)));
    SumUpdate(s.posters, PosterWork, p, Next(s, Put(p)).posters[p]);
  }

  lemma PosterDecreases(s: State, a: Action)
    requires Inv(s) && Enabled(s, a) && Inv(Next(s, a))
    requires a.Close? || a.PostTerminate? || a.Join? || a.Destroy? || a.NotifyPush?
    ensures Work(Next(s, a)) < Work(s)
  {
    hide Inv, Ending, Sum;
    EndingHolds(s);
    EndingHolds(Next(s, a));
    match a {
      case PostTerminate => SumUpdate(s.posters, PosterWork, Dtor(s), Ready(Terminate, Block));
      case NotifyPush(p, wake) =>
        SumUpdate(s.posters, PosterWork, p, Rest);
        if wake < |s.workers| && s.workers[wake] == WWaiting { SumUpdate(s.workers, WorkerWork, wake, WReady); }
      case _ =>
    }
  }

  lemma WorkerDecreases(s: State, a: Action)
    requires Inv(s) && Enabled(s, a) && Inv(Next(s, a)) && (a.Take? || a.NotifyPop? || a.Handle?)
    ensures Work(Next(s, a)) < Work(s)
  {
    hide Inv, Ending, Sum;
    EndingHolds(s);
    EndingHolds(Next(s, a));
    SumUpdate(s.workers, WorkerWork, a.w, Next(s, a).workers[a.w]);
    if a.NotifyPop? { AwakenedWork(s.posters, a.wake); }
  }

  lemma ProgressDecreases(s: State, a: Action)
    requires Inv(s) && Enabled(s, a) && Progress(a) && Inv(Next(s, a))
    ensures Ending(s.posted, s.workers, s.phase, s.sent, s.posters)
    ensures Ending(Next(s, a).posted, Next(s, a).workers, Next(s, a).phase, Next(s, a).sent, Next(s, a).posters)
    ensures Work(Next(s, a)) < Work(s)
  {
    EndingHolds(s);
    EndingHolds(Next(s, a));
    hide Inv, Enabled, Next, Ending, Work;
    match a
    case Put(p) => PutDecreases(s, p);
    case Take(_) => WorkerDecreases(s, a);
    case NotifyPop(_, _) => WorkerDecreases(s, a);
    case Handle(_) => WorkerDecreases(s, a);
    case _ => PosterDecreases(s, a);
  }

  lemma {:induction false} ProgressIsBounded(s: State, run: seq<Action>, s': State)
    requires Inv(s) && Runs(s, run, s') && forall i :: 0 <= i < |run| ==> Progress(run[i])
    ensures Inv(s') && Ending(s.posted, s.workers, s.phase, s.sent, s.posters)
    ensures |run| <= Work(s)
    decreases |run|
  {
    EndingHolds(s);
    hide Inv, Enabled, Ending, Work, Progress;
    if run != [] {
      StepKeepsInv(s, run[0]);
      ProgressDecreases(s, run[0]);
      ProgressIsBounded(Next(s, run[0]), run[1..], s');
    }
  }

  lemma {:induction false} RunsJoin(s: State, run: seq<Action>, mid: State, more: seq<Action>, s': State)
    requires Runs(s, run, mid) && Runs(mid, more, s')
    ensures Runs(s, run + more, s')
    decreases |run|
  {
    hide Enabled, Next;
    if run == [] {
      assert run + more == more;
    } else {
      RunsJoin(Next(s, run[0]), run[1..], mid, more, s');
      assert (run + more)[1..] == run[1..] + more;
    }
  }

  /** Once nobody posts any more the pool comes to an end: there is a bound on the steps its threads
      can take, and as long as it is not destroyed one of them can take a step. */
  lemma ShutdownCompletes(s: State, run: seq<Action>, s': State)
    requires Reachable(s) && Runs(s, run, s') && forall i :: 0 <= i < |run| ==> Progress(run[i])
    ensures Ending(s.posted, s.workers, s.phase, s.sent, s.posters) && |run| <= Work(s)
    ensures s'.phase == Destroyed || exists a :: Enabled(s', a) && Progress(a)
  {
    ReachableInv(s);
    var first, before :| Init(first) && Runs(first, before, s);
    RunsJoin(first, before, s, run, s');
    hide Inv, Init, Progress, Work, Ending, Enabled;
    ProgressIsBounded(s, run, s');
    if s'.phase != Destroyed { NeverStuck(s'); }
  }

  // ---------------------------------------------------------------- when a message is lost

  /** A message is overrun only if the queue is full and the post does not block; then it is the oldest
      one, and the new one takes its place. A post that finds room just appends, and one that blocks
      and finds none changes nothing. */
  lemma OverrunOnlyWhenFull(s: State, p: nat)
    requires Reachable(s) && Enabled(s, Put(p))
    ensures 0 < s.capacity && |s.q| <= s.capacity
    ensures var s', poster := Next(s, Put(p)), s.posters[p];
            if |s.q| < s.capacity then
              s'.q == s.q + [poster.msg] && s'.left == s.left && s'.posted == s.posted + [poster.msg]
            else if poster.policy == Block then
              s'.q == s.q && s'.left == s.left && s'.posted == s.posted && s'.posters[p] == Waiting(poster.msg)
            else
              s'.q == s.q[1..] + [poster.msg] && s'.left == s.left + [Left(s.q[0], Overrun)]
              && s'.posted == s.posted + [poster.msg]
  {
    hide Reachable;
    ReachableInv(s);
    CapacityKept(s);
    assert |s.q| == s.capacity ==> (s.q + [s.posters[p].msg])[1..] == s.q[1..] + [s.posters[p].msg];
  }

  lemma CapacityKept(s: State)
    requires Inv(s)
    ensures 0 < s.capacity && |s.q| <= s.capacity
  {
    hide Delivered, Ending, Awake;
  }

  /** No other step loses a message. */
  lemma OnlyPostsOverrun(s: State, a: Action)
    requires Enabled(s, a) && !a.Put?
    ensures Next(s, a).left == s.left
            || (a.Take? && s.q != [] && Next(s, a).left == s.left + [Left(s.q[0], TakenBy(a.w))] && Next(s, a).q == s.q[1..])
  {
  }
}
