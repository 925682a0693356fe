/** The asynchronous log pool as a transition system: client threads and the destructor post into
    a bounded blocking queue, workers take messages out until each has taken a terminate.

    A critical section under the queue's mutex is one step; a thread that waits on a condition
    variable has released the mutex and continues when it is notified, or spuriously, or on a
    timeout, by testing its condition again; the notification after a critical section is a step of
    its own. The queue is the bounded FIFO that the ring buffer of CircularQ refines. */
module LogPool {
  import C = CircularQ

  const MAX_THREADS: nat := 1000

  datatype Msg = Log(id: nat) | Flush(id: nat) | Terminate

  datatype Policy = Block | OverrunOldest

  /** A thread that posts: about to test and push, waiting for room, or about to notify a worker. */
  datatype Poster = Rest | Ready(msg: Msg, policy: Policy) | Waiting(msg: Msg) | Notifying

  /** A worker: about to test and pop, waiting for a message, or on its way with the message that
      was the i-th to leave the queue: about to notify a poster, then about to handle it. */
  datatype Worker = WReady | WWaiting | WNotify(i: nat) | WHandle(i: nat) | WExited

  /** How a message left the queue. */
  datatype Fate = TakenBy(w: nat) | Overrun

  datatype Left = Left(msg: Msg, fate: Fate)

  datatype Phase = Alive | Closing | Joining | Destroyed

  /** The last poster is the thread that runs the destructor. `posted`, `left` and `handled` record
      the messages pushed, those that left the queue, and which of those have been handled. */
  datatype State = State(
    capacity: nat,
    q: seq<Msg>,
    posted: seq<Msg>,
    left: seq<Left>,
    handled: seq<nat>,
    posters: seq<Poster>,
    workers: seq<Worker>,
    phase: Phase,
    sent: nat)

  datatype Action =
    | Post(p: nat, msg: Msg, policy: Policy)
    | Close                            // the destructor starts
    | PostTerminate                    // its loop posts the next terminate
    | Join                             // its loop is over
    | Destroy                          // every worker has been joined
    | Put(p: nat)                      // test and push, or wait
    | NotifyPush(p: nat, wake: nat)    // push_cv_.notify_one, which may wake a worker
    | Take(w: nat)                     // test and pop, or wait
    | NotifyPop(w: nat, wake: nat)     // pop_cv_.notify_one, which may wake a poster
    | Handle(w: nat)
    | Wake(p: nat)                     // spurious
    | Timeout(w: nat)                  // spurious, or after ten seconds

  /** The constructor's test. */
  predicate ValidThreads(n: nat) {
    0 < n <= MAX_THREADS
  }

  ghost function Dtor(s: State): nat
    requires |s.posters| > 0
  {
    |s.posters| - 1
  }

  ghost predicate NoneWaits(workers: seq<Worker>) {
    forall w :: 0 <= w < |workers| ==> workers[w] != WWaiting
  }

  ghost predicate NoneBlocked(posters: seq<Poster>) {
    forall p :: 0 <= p < |posters| ==> !posters[p].Waiting?
  }

  ghost predicate AllRest(posters: seq<Poster>) {
    forall p :: 0 <= p < |posters| ==> posters[p] == Rest
  }

  ghost predicate AllExited(workers: seq<Worker>) {
    forall w :: 0 <= w < |workers| ==> workers[w] == WExited
  }

  ghost predicate Enabled(s: State, a: Action) {
    && |s.posters| > 0
    && match a
       case Post(p, msg, _) => p < Dtor(s) && s.posters[p] == Rest && s.phase == Alive && msg != Terminate
       case Close => s.phase == Alive && AllRest(s.posters)
       case PostTerminate => s.phase == Closing && s.posters[Dtor(s)] == Rest && s.sent < |s.workers|
       case Join => s.phase == Closing && s.posters[Dtor(s)] == Rest && s.sent == |s.workers|
       case Destroy => s.phase == Joining && AllExited(s.workers)
       case Put(p) => p < |s.posters| && s.posters[p].Ready?
       case NotifyPush(p, wake) =>
         && p < |s.posters| && s.posters[p] == Notifying
         && (NoneWaits(s.workers) || (wake < |s.workers| && s.workers[wake] == WWaiting))
       case Take(w) => w < |s.workers| && s.workers[w] == WReady
       case NotifyPop(w, wake) =>
         && w < |s.workers| && s.workers[w].WNotify? && s.workers[w].i < |s.left|
         && (NoneBlocked(s.posters) || (wake < |s.posters| && s.posters[wake].Waiting?))
       case Handle(w) => w < |s.workers| && s.workers[w].WHandle?
       case Wake(p) => p < |s.posters| && s.posters[p].Waiting?
       case Timeout(w) => w < |s.workers| && s.workers[w] == WWaiting
  }

  /** `enqueue` and `enqueue_nowait` under the mutex. */
  ghost function Putting(s: State, p: nat): State
    requires p < |s.posters| && s.posters[p].Ready?
  {
    var msg := s.posters[p].msg;
    if s.posters[p].policy == Block && |s.q| == s.capacity then
      s.(posters := s.posters[p := Waiting(msg)])
    else
      s.(q := C.Pushed(s.q, s.capacity, msg),
         posted := s.posted + [msg],
         left := if |s.q| < s.capacity then s.left else s.left + [Left((s.q + [msg])[0], Overrun)],
         posters := s.posters[p := Notifying],
         sent := if p == |s.posters| - 1 then s.sent + 1 else s.sent)
  }

  /** `dequeue_for` under the mutex. */
  ghost function Taking(s: State, w: nat): State
    requires w < |s.workers|
  {
    if s.q == [] then
      s.(workers := s.workers[w := WWaiting])
    else
      s.(q := s.q[1..], left := s.left + [Left(s.q[0], TakenBy(w))], workers := s.workers[w := WNotify(|s.left|)])
  }

  ghost function Awakened(posters: seq<Poster>, wake: nat): seq<Poster> {
    if wake < |posters| && posters[wake].Waiting? then posters[wake := Ready(posters[wake].msg, Block)] else posters
  }

  ghost function Next(s: State, a: Action): State
    requires Enabled(s, a)
  {
    match a
    case Post(p, msg, policy) => s.(posters := s.posters[p := Ready(msg, policy)])
    case Close => s.(phase := Closing)
    case PostTerminate => s.(posters := s.posters[Dtor(s) := Ready(Terminate, Block)])
    case Join => s.(phase := Joining)
    case Destroy => s.(phase := Destroyed)
    case Put(p) => Putting(s, p)
    case NotifyPush(p, wake) =>
      s.(posters := s.posters[p := Rest],
         workers := if wake < |s.workers| && s.workers[wake] == WWaiting then s.workers[wake := WReady] else s.workers)
    case Take(w) => Taking(s, w)
    case NotifyPop(w, wake) =>
      s.(workers := s.workers[w := if s.left[s.workers[w].i].msg == Terminate then WExited else WHandle(s.workers[w].i)],
         posters := Awakened(s.posters, wake))
    case Handle(w) => s.(handled := s.handled + [s.workers[w].i], workers := s.workers[w := WReady])
    case Wake(p) => s.(posters := Awakened(s.posters, p))
    case Timeout(w) => s.(workers := s.workers[w := WReady])
  }

  ghost predicate Init(s: State) {
    && s.capacity > 0 && ValidThreads(|s.workers|) && |s.posters| > 0
    && s.q == [] && s.posted == [] && s.left == [] && s.handled == [] && s.phase == Alive && s.sent == 0
    && AllRest(s.posters) && forall w :: 0 <= w < |s.workers| ==> s.workers[w] == WReady
  }

  ghost predicate Runs(first: State, run: seq<Action>, last: State)
    decreases |run|
  {
    if run == [] then first == last
    else Enabled(first, run[0]) && Runs(Next(first, run[0]), run[1..], last)
  }

  ghost predicate Reachable(s: State) {
    exists first, run :: Init(first) && Runs(first, run, s)
  }
}
