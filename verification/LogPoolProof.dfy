/** The invariant of LogPool and what it gives: no message is lost or handled twice, every worker
    takes one terminate, no wakeup is lost, and destruction always completes. */
module LogPoolProof {
  import opened Counting
  import opened LogPool

  // ---------------------------------------------------------------- the invariant

  /** What was posted is what left the queue and then what is in it. */
  ghost predicate Conserved(capacity: nat, q: seq<Msg>, posted: seq<Msg>, left: seq<Left>) {
    && 0 < capacity && |q| <= capacity && |posted| == |left| + |q|
    && posted[|left|..] == q
    && forall i :: 0 <= i < |left| ==> posted[i] == left[i].msg
  }

  ghost predicate Settled(left: seq<Left>, handled: seq<nat>, workers: seq<Worker>, i: nat)
    requires i < |left|
  {
    match left[i].fate
    case Overrun => left[i].msg != Terminate
    case TakenBy(w) =>
      && w < |workers|
      && (i in handled || workers[w] == WNotify(i) || workers[w] == WHandle(i)
          || (left[i].msg == Terminate && workers[w] == WExited))
  }

  ghost predicate WorkerOk(left: seq<Left>, handled: seq<nat>, w: nat, worker: Worker) {
    match worker
    case WNotify(i) => i < |left| && left[i].fate == TakenBy(w) && i !in handled
    case WHandle(i) => i < |left| && left[i].fate == TakenBy(w) && i !in handled && left[i].msg != Terminate
    case WExited => exists i :: 0 <= i < |left| && left[i] == Left(Terminate, TakenBy(w))
    case _ => true
  }

  ghost predicate HandledOk(left: seq<Left>, handled: seq<nat>) {
    && (forall k :: 0 <= k < |handled| ==>
          handled[k] < |left| && left[handled[k]].fate.TakenBy? && left[handled[k]].msg != Terminate)
    && (forall k, l :: 0 <= k < l < |handled| ==> handled[k] != handled[l])
  }

  ghost predicate Delivered(left: seq<Left>, handled: seq<nat>, workers: seq<Worker>) {
    && HandledOk(left, handled)
    && (forall i :: 0 <= i < |left| ==> Settled(left, handled, workers, i))
    && (forall w :: 0 <= w < |workers| ==> WorkerOk(left, handled, w, workers[w]))
    && (forall i, j :: 0 <= i < j < |left| && left[i].fate.TakenBy? && left[i].msg == left[j].msg == Terminate ==>
          left[i].fate != left[j].fate)
  }

  ghost predicate PosterOk(n: nat, phase: Phase, sent: nat, dtor: bool, p: Poster) {
    if dtor then
      match p
      case Rest => true
      case Ready(msg, policy) => phase == Closing && msg == Terminate && policy == Block && sent < n
      case Waiting(msg) => phase == Closing && msg == Terminate && sent < n
      case Notifying => phase == Closing
    else
      match p
      case Rest => true
      case Ready(msg, _) => phase == Alive && msg != Terminate
      case Waiting(msg) => phase == Alive && msg != Terminate
      case Notifying => phase == Alive
  }

  /** Terminates are the last messages posted. */
  ghost predicate Ending(posted: seq<Msg>, workers: seq<Worker>, phase: Phase, sent: nat, posters: seq<Poster>) {
    && |posters| > 0 && ValidThreads(|workers|) && sent <= |workers| && sent <= |posted|
    && (phase == Alive ==> sent == 0) && (phase == Joining || phase == Destroyed ==> sent == |workers|)
    && (phase == Destroyed ==> AllExited(workers))
    && (forall i :: 0 <= i < |posted| ==> (posted[i] == Terminate <==> i >= |posted| - sent))
    && (forall p :: 0 <= p < |posters| ==> PosterOk(|workers|, phase, sent, p == |posters| - 1, posters[p]))
  }

  function ReadyToPut(p: Poster): nat {
    if p.Ready? && p.policy == Block then 1 else 0
  }

  function AboutToNotify(p: Poster): nat {
    if p.Notifying? then 1 else 0
  }

  function ReadyToTake(w: Worker): nat {
    if w.WReady? then 1 else 0
  }

  function AboutToNotifyPop(w: Worker): nat {
    if w.WNotify? then 1 else 0
  }

  /** While someone waits for room there is a thread on its way for every free slot, and while a
      worker waits there is one for every message. */
  ghost predicate Awake(capacity: nat, size: nat, posters: seq<Poster>, workers: seq<Worker>) {
    && (!NoneBlocked(posters) ==> capacity - size <= Sum(workers, AboutToNotifyPop) + Sum(posters, ReadyToPut))
    && (!NoneWaits(workers) ==> size <= Sum(posters, AboutToNotify) + Sum(workers, ReadyToTake))
  }

  ghost predicate Inv(s: State) {
    && Conserved(s.capacity, s.q, s.posted, s.left)
    && Delivered(s.left, s.handled, s.workers)
    && Ending(s.posted, s.workers, s.phase, s.sent, s.posters)
    && Awake(s.capacity, |s.q|, s.posters, s.workers)
  }

  // ---------------------------------------------------------------- posting

  lemma PostersSum(posters: seq<Poster>, p: nat, x: Poster)
    requires p < |posters|
    ensures Sum(posters[p := x], ReadyToPut) == Sum(posters, ReadyToPut) - ReadyToPut(posters[p]) + ReadyToPut(x)
    ensures Sum(posters[p := x], AboutToNotify) == Sum(posters, AboutToNotify) - AboutToNotify(posters[p]) + AboutToNotify(x)
  {
    SumUpdate(posters, ReadyToPut, p, x);
    SumUpdate(posters, AboutToNotify, p, x);
  }

  lemma WorkersSum(workers: seq<Worker>, w: nat, x: Worker)
    requires w < |workers|
    ensures Sum(workers[w := x], ReadyToTake) == Sum(workers, ReadyToTake) - ReadyToTake(workers[w]) + ReadyToTake(x)
    ensures Sum(workers[w := x], AboutToNotifyPop)
            == Sum(workers, AboutToNotifyPop) - AboutToNotifyPop(workers[w]) + AboutToNotifyPop(x)
  {
    SumUpdate(workers, ReadyToTake, w, x);
    SumUpdate(workers, AboutToNotifyPop, w, x);
  }

  lemma PostKeeps(s: State, a: Action)
    requires Inv(s) && Enabled(s, a) && (a.Post? || a.PostTerminate? || a.Close? || a.Join? || a.Destroy?)
    ensures Inv(Next(s, a))
  {
    hide Conserved, Delivered, Sum;
    if a.Post? { PostersSum(s.posters, a.p, Ready(a.msg, a.policy)); }
    if a.PostTerminate? { PostersSum(s.posters, Dtor(s), Ready(Terminate, Block)); }
  }

  lemma PutWaits(s: State, p: nat)
    requires Inv(s) && Enabled(s, Put(p)) && s.posters[p].policy == Block && |s.q| == s.capacity
    ensures Inv(Next(s, Put(p)))
  {
    hide Conserved, Delivered, Sum;
    PostersSum(s.posters, p, Waiting(s.posters[p].msg));
  }

  lemma PutConserved(s: State, p: nat)
    requires Conserved(s.capacity, s.q, s.posted, s.left) && p < |s.posters| && s.posters[p].Ready?
    requires Ending(s.posted, s.workers, s.phase, s.sent, s.posters)
    ensures var s' := Putting(s, p); Conserved(s'.capacity, s'.q, s'.posted, s'.left)
  {
  }

  lemma PutDelivered(s: State, p: nat)
    requires Delivered(s.left, s.handled, s.workers) && Ending(s.posted, s.workers, s.phase, s.sent, s.posters)
    requires Conserved(s.capacity, s.q, s.posted, s.left)
    requires p < |s.posters| && s.posters[p].Ready? && !(s.posters[p].policy == Block && |s.q| == s.capacity)
    ensures var s' := Putting(s, p); Delivered(s'.left, s'.handled, s'.workers)
  {
    var s' := Putting(s, p);
    if |s.q| == s.capacity {
      assert PosterOk(|s.workers|, s.phase, s.sent, p == |s.posters| - 1, s.posters[p]);
      assert s.posted[|s.left|] == s.q[0];
      DeliveredGrows(s.left, s.handled, s.workers, Left(s.q[0], Overrun));
      assert (s.q + [s.posters[p].msg])[0] == s.q[0];
    }
  }

  lemma DeliveredGrows(left: seq<Left>, handled: seq<nat>, workers: seq<Worker>, l: Left)
    requires Delivered(left, handled, workers) && l.fate == Overrun && l.msg != Terminate
    ensures Delivered(left + [l], handled, workers)
  {
    var left' := left + [l];
    forall i | 0 <= i < |left'| ensures Settled(left', handled, workers, i) {
      if i < |left| { assert Settled(left, handled, workers, i); }
    }
    forall w | 0 <= w < |workers| ensures WorkerOk(left', handled, w, workers[w]) {
      assert WorkerOk(left, handled, w, workers[w]);
      if workers[w] == WExited {
        var i :| 0 <= i < |left| && left[i] == Left(Terminate, TakenBy(w));
        assert left'[i] == Left(Terminate, TakenBy(w));
      }
    }
  }

  lemma PutEnding(s: State, p: nat)
    requires Ending(s.posted, s.workers, s.phase, s.sent, s.posters)
    requires p < |s.posters| && s.posters[p].Ready? && !(s.posters[p].policy == Block && |s.q| == s.capacity)
    ensures var s' := Putting(s, p); Ending(s'.posted, s'.workers, s'.phase, s'.sent, s'.posters)
  {
    assert PosterOk(|s.workers|, s.phase, s.sent, p == |s.posters| - 1, s.posters[p]);
  }

  lemma PutKeeps(s: State, p: nat)
    requires Inv(s) && Enabled(s, Put(p))
    ensures Inv(Next(s, Put(p)))
  {
    if s.posters[p].policy == Block && |s.q| == s.capacity {
      PutWaits(s, p);
    } else {
      hide Delivered, Ending, Sum;
      PutConserved(s, p);
      PutDelivered(s, p);
      PutEnding(s, p);
      PostersSum(s.posters, p, Notifying);
      assert forall x :: 0 <= x < |s.posters| && x != p ==> s.posters[p := Notifying][x] == s.posters[x];
    }
  }

  lemma NotifyPushKeeps(s: State, p: nat, wake: nat)
    requires Inv(s) && Enabled(s, NotifyPush(p, wake))
    ensures Inv(Next(s, NotifyPush(p, wake)))
  {
    hide Conserved, Delivered, Sum;
    var s' := Next(s, NotifyPush(p, wake));
    PostersSum(s.posters, p, Rest);
    if wake < |s.workers| && s.workers[wake] == WWaiting {
      WorkersSum(s.workers, wake, WReady);
      MoveDelivered(s.left, s.handled, s.workers, wake, WReady);
    }
  }

  lemma MoveDelivered(left: seq<Left>, handled: seq<nat>, workers: seq<Worker>, w: nat, x: Worker)
    requires Delivered(left, handled, workers) && w < |workers|
    requires (workers[w].WReady? || workers[w].WWaiting?) && (x.WReady? || x.WWaiting?)
    ensures Delivered(left, handled, workers[w := x])
  {
    var workers' := workers[w := x];
    forall i | 0 <= i < |left| ensures Settled(left, handled, workers', i) {
      assert Settled(left, handled, workers, i);
    }
    forall u | 0 <= u < |workers| ensures WorkerOk(left, handled, u, workers'[u]) {
      assert WorkerOk(left, handled, u, workers[u]);
    }
    hide HandledOk;
  }

  // ---------------------------------------------------------------- taking

  lemma TakeDelivered(left: seq<Left>, handled: seq<nat>, workers: seq<Worker>, w: nat, msg: Msg)
    requires Delivered(left, handled, workers) && w < |workers| && workers[w].WReady?
    ensures Delivered(left + [Left(msg, TakenBy(w))], handled, workers[w := WNotify(|left|)])
  {
    var left', workers' := left + [Left(msg, TakenBy(w))], workers[w := WNotify(|left|)];
    forall i | 0 <= i < |left'| ensures Settled(left', handled, workers', i) {
      if i < |left| { assert Settled(left, handled, workers, i); }
    }
    forall u | 0 <= u < |workers| ensures WorkerOk(left', handled, u, workers'[u]) {
      assert WorkerOk(left, handled, u, workers[u]);
      if u != w && workers[u] == WExited {
        var i :| 0 <= i < |left| && left[i] == Left(Terminate, TakenBy(u));
        assert left'[i] == Left(Terminate, TakenBy(u));
      }
    }
    forall i | 0 <= i < |left| && left[i].msg == Terminate ensures left[i].fate != TakenBy(w) {
      assert Settled(left, handled, workers, i);
    }
  }

  lemma TakeConserved(s: State, w: nat)
    requires Conserved(s.capacity, s.q, s.posted, s.left) && w < |s.workers| && s.q != []
    ensures s.q == s.posted[|s.left|..]
    ensures Conserved(s.capacity, s.q[1..], s.posted, s.left + [Left(s.q[0], TakenBy(w))])
  {
    assert s.posted[|s.left|] == s.q[0];
  }

  lemma TakeEnding(s: State, w: nat, x: Worker)
    requires Ending(s.posted, s.workers, s.phase, s.sent, s.posters) && w < |s.workers| && s.workers[w] != WExited
    ensures Ending(s.posted, s.workers[w := x], s.phase, s.sent, s.posters)
  {
  }

  lemma TakeKeeps(s: State, w: nat)
    requires Inv(s) && Enabled(s, Take(w))
    ensures Inv(Next(s, Take(w)))
  {
    hide Conserved, Delivered, Ending, Sum;
    if s.q == [] {
      MoveDelivered(s.left, s.handled, s.workers, w, WWaiting);
      WorkersSum(s.workers, w, WWaiting);
      TakeEnding(s, w, WWaiting);
    } else {
      TakeConserved(s, w);
      TakeDelivered(s.left, s.handled, s.workers, w, s.q[0]);
      WorkersSum(s.workers, w, WNotify(|s.left|));
      TakeEnding(s, w, WNotify(|s.left|));
      assert forall x :: 0 <= x < |s.workers| && x != w ==> s.workers[w := WNotify(|s.left|)][x] == s.workers[x];
    }
  }

  lemma NotifiedDelivered(left: seq<Left>, handled: seq<nat>, workers: seq<Worker>, w: nat)
    requires Delivered(left, handled, workers) && w < |workers| && workers[w].WNotify? && workers[w].i < |left|
    ensures Delivered(left, handled, workers[w := if left[workers[w].i].msg == Terminate then WExited else WHandle(workers[w].i)])
  {
    var i := workers[w].i;
    var workers' := workers[w := if left[i].msg == Terminate then WExited else WHandle(i)];
    assert WorkerOk(left, handled, w, workers[w]);
    forall k | 0 <= k < |left| ensures Settled(left, handled, workers', k) {
      assert Settled(left, handled, workers, k);
    }
    forall u | 0 <= u < |workers| ensures WorkerOk(left, handled, u, workers'[u]) {
      assert WorkerOk(left, handled, u, workers[u]);
    }
    hide HandledOk;
  }

  lemma AwakenedSums(posters: seq<Poster>, wake: nat)
    ensures var woken := wake < |posters| && posters[wake].Waiting?;
            && Sum(Awakened(posters, wake), ReadyToPut) == Sum(posters, ReadyToPut) + (if woken then 1 else 0)
            && Sum(Awakened(posters, wake), AboutToNotify) == Sum(posters, AboutToNotify)
  {
    if wake < |posters| && posters[wake].Waiting? { PostersSum(posters, wake, Ready(posters[wake].msg, Block)); }
  }

  lemma NotifyPopKeeps(s: State, w: nat, wake: nat)
    requires Inv(s) && Enabled(s, NotifyPop(w, wake))
    ensures Inv(Next(s, NotifyPop(w, wake)))
  {
    var x := if s.left[s.workers[w].i].msg == Terminate then WExited else WHandle(s.workers[w].i);
    NotifiedDelivered(s.left, s.handled, s.workers, w);
    WorkersSum(s.workers, w, x);
    AwakenedSums(s.posters, wake);
    AwakenedEnding(s, wake, s.workers[w := x]);
    hide Conserved, Delivered, Sum, Ending;
  }

  lemma AwakenedEnding(s: State, wake: nat, workers: seq<Worker>)
    requires Ending(s.posted, s.workers, s.phase, s.sent, s.posters) && |workers| == |s.workers|
    requires s.phase == Destroyed ==> AllExited(workers) || workers == s.workers
    ensures Ending(s.posted, workers, s.phase, s.sent, Awakened(s.posters, wake))
  {
  }

  lemma HandleKeeps(s: State, w: nat)
    requires Inv(s) && Enabled(s, Handle(w))
    ensures Inv(Next(s, Handle(w)))
  {
    WorkersSum(s.workers, w, WReady);
    HandleDelivered(s.left, s.handled, s.workers, w);
    hide Conserved, Delivered, Sum;
  }

  lemma HandleDelivered(left: seq<Left>, handled: seq<nat>, workers: seq<Worker>, w: nat)
    requires Delivered(left, handled, workers) && w < |workers| && workers[w].WHandle?
    ensures Delivered(left, handled + [workers[w].i], workers[w := WReady])
  {
    var i := workers[w].i;
    var handled', workers' := handled + [i], workers[w := WReady];
    assert WorkerOk(left, handled, w, workers[w]);
    forall k | 0 <= k < |left| ensures Settled(left, handled', workers', k) {
      assert Settled(left, handled, workers, k);
      assert k in handled ==> k in handled';
      assert handled'[|handled|] == i;
    }
    forall u | 0 <= u < |workers| ensures WorkerOk(left, handled', u, workers'[u]) {
      assert WorkerOk(left, handled, u, workers[u]);
    }
  }

  lemma WakeKeeps(s: State, a: Action)
    requires Inv(s) && Enabled(s, a) && (a.Wake? || a.Timeout?)
    ensures Inv(Next(s, a))
  {
    if a.Wake? {
      AwakenedSums(s.posters, a.p);
      AwakenedEnding(s, a.p, s.workers);
      hide Conserved, Delivered, Sum, Ending;
    } else {
      WorkersSum(s.workers, a.w, WReady);
      MoveDelivered(s.left, s.handled, s.workers, a.w, WReady);
      hide Conserved, Delivered, Sum;
    }
  }

  lemma StepKeepsInv(s: State, a: Action)
    requires Inv(s) && Enabled(s, a)
    ensures Inv(Next(s, a))
  {
    hide Inv, Enabled;
    match a
    case Put(p) => PutKeeps(s, p);
    case NotifyPush(p, wake) => NotifyPushKeeps(s, p, wake);
    case Take(w) => TakeKeeps(s, w);
    case NotifyPop(w, wake) => NotifyPopKeeps(s, w, wake);
    case Handle(w) => HandleKeeps(s, w);
    case Wake(_) => WakeKeeps(s, a);
    case Timeout(_) => WakeKeeps(s, a);
    case _ => PostKeeps(s, a);
  }
}
