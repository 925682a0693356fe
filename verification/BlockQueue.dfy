/** The implicit producer's sub-queue as a transition system: blocks, the growable circular
    block index, and consumers that look their block up in separate atomic reads.

    One producer runs `enqueue_bulk` (a single `enqueue` is the bulk of one element); any number
    of consumers work on ranges they were granted from the head. The counters that decide the
    grants are modelled in DequeueCounters and joined to this machine in ProducerQueue; the free
    list, whose `try_get` gives exclusive blocks, is modelled in FreeList and is a set here. */
module BlockQueue {
  import opened Counting

  const BLOCK_SIZE: nat := 32
  const INITIAL_INDEX_SIZE: nat := 32
  const INVALID_BLOCK_BASE: nat := 1

  type Elem(==, !new)
  type Tid = nat
  type BlockId = nat
  type EntryId = nat

  datatype Option<+T> = None | Some(value: T)

  /** The locals of an `enqueue_bulk`: what it appends, the tail block it started with, and the
      chain of blocks it has put into the index so far. */
  datatype Op = Op(items: seq<Elem>, start: Option<BlockId>, got: seq<BlockId>)

  /** The producer's next atomic operation. */
  datatype Prod =
    | PIdle
    | PCheck(op: Op)                              // is the next index slot usable?
    | PGrow(op: Op)                               // no: allocate a larger index and publish it
    | PKey(op: Op, entry: EntryId)                // store the entry's key
    | PTail(op: Op, entry: EntryId)               // store the index tail
    | PBlock(op: Op, entry: EntryId)              // requisition a block
    | PValue(op: Op, entry: EntryId, block: BlockId)
    | PRewind(op: Op, entry: EntryId)             // no block: rewind the index tail,
    | PNull(op: Op, entry: EntryId)               // then clear the entry
    | PUndo(op: Op, i: nat)                       // clear the entry of the i-th block taken,
    | PUndoRewind(op: Op, i: nat)                 // then rewind the index tail once more
    | PFree(op: Op, i: nat)                       // give the i-th block back
    | PFill(op: Op, k: nat)                       // construct the k-th element

  /** A consumer's range: it was granted first..end, has read up to `at`, and has not yet counted
      what it read from `from` on. */
  datatype Job = Job(first: nat, end: nat, from: nat, at: nat, out: seq<Elem>)

  /** A consumer's next atomic operation. `Crashed` stands for following a null block pointer or
      reading an element that is not there. */
  datatype Cons =
    | CIdle
    | CIndex(job: Job)                                              // load blockIndex
    | CTail(job: Job, h: nat)                                       // load its tail
    | CKey(job: Job, h: nat, tl: nat)                               // load the key there
    | CValue(job: Job, h: nat, slot: nat)                           // load the entry's block
    | CRead(job: Job, h: nat, slot: nat, block: BlockId)            // move one element out
    | CCount(job: Job, h: nat, slot: nat, block: BlockId)           // set_many_empty
    | CNull(job: Job, h: nat, slot: nat, block: BlockId)            // clear the entry
    | CFree(job: Job, h: nat, slot: nat, block: BlockId)            // give the block back
    | CDone(job: Job)
    | Crashed

  datatype State = State(
    tail: nat,
    head: nat,
    enq: seq<Elem>,                                // every element published, in order
    index: seq<seq<EntryId>>,                      // the slots of every header, oldest first
    tails: seq<nat>,                               // the tail of every header
    keys: seq<nat>,                                // the key of every entry
    values: seq<Option<BlockId>>,                  // the block of every entry
    elements: map<BlockId, seq<Option<Elem>>>,
    dequeued: map<BlockId, nat>,                   // elementsCompletelyDequeued
    free: set<BlockId>,
    tailBlock: Option<BlockId>,
    prod: Prod,
    cons: seq<Cons>)

  /** What the outside decides for a producer step: whether an allocation succeeds, which block it
      yields, and what uninitialised memory a new index holds. */
  datatype Choice = Choice(ok: bool, block: BlockId, junk: seq<Option<BlockId>>)

  datatype Action =
    | Enqueue(items: seq<Elem>)
    | Produce(choice: Choice)
    | Grant(t: Tid, count: nat)
    | Consume(t: Tid)
    | Finish(t: Tid)

  /** The number of blocks the first `n` elements reach into. */
  function Blocks(n: nat): nat {
    (n + BLOCK_SIZE - 1) / BLOCK_SIZE
  }

  /** C++ division, which truncates toward zero. */
  function Quotient(a: int, b: int): int
    requires b > 0
  {
    if a >= 0 then a / b else -((-a) / b)
  }

  /** Slots, keys and values a step follows are where they should be; see BlockQueueProof. */
  ghost predicate Wf(s: State) {
    && |s.index| > 0 && |s.tails| == |s.index| && |s.values| == |s.keys|
    && (forall h :: 0 <= h < |s.index| ==> |s.index[h]| > 0 && s.tails[h] < |s.index[h]|)
    && (forall h, i :: 0 <= h < |s.index| && 0 <= i < |s.index[h]| ==> s.index[h][i] < |s.keys|)
    && s.elements.Keys == s.dequeued.Keys
    && (forall b :: b in s.elements ==> |s.elements[b]| == BLOCK_SIZE)
    && ProdWf(s.tail, s.elements.Keys, |s.keys|, s.prod)
    && forall t :: 0 <= t < |s.cons| ==> ConsWf(s.index, s.elements.Keys, s.cons[t])
  }

  ghost predicate ProdWf(tail: nat, blocks: set<BlockId>, entries: nat, p: Prod) {
    match p
    case PIdle => true
    case PCheck(op) => OpWf(tail, blocks, op)
    case PGrow(op) => OpWf(tail, blocks, op)
    case PKey(op, e) => OpWf(tail, blocks, op) && e < entries
    case PTail(op, e) => OpWf(tail, blocks, op) && e < entries
    case PBlock(op, e) => OpWf(tail, blocks, op) && e < entries
    case PValue(op, e, b) => OpWf(tail, blocks, op) && e < entries && b in blocks
    case PRewind(op, e) => OpWf(tail, blocks, op) && e < entries
    case PNull(op, e) => OpWf(tail, blocks, op) && e < entries
    case PUndo(op, i) => OpWf(tail, blocks, op) && i <= |op.got|
    case PUndoRewind(op, i) => OpWf(tail, blocks, op) && i < |op.got|
    case PFree(op, i) => OpWf(tail, blocks, op) && i <= |op.got|
    case PFill(op, k) => OpWf(tail, blocks, op) && k <= |op.items| && |op.got| == Needed(tail, op)
  }

  ghost predicate OpWf(tail: nat, blocks: set<BlockId>, op: Op) {
    && (tail % BLOCK_SIZE != 0 ==> op.start.Some?)
    && (op.start.Some? ==> op.start.value in blocks)
    && forall j :: 0 <= j < |op.got| ==> op.got[j] in blocks
  }

  ghost predicate ConsWf(index: seq<seq<EntryId>>, blocks: set<BlockId>, c: Cons) {
    match c
    case CTail(_, h) => h < |index|
    case CKey(_, h, tl) => h < |index| && tl < |index[h]|
    case CValue(_, h, slot) => h < |index| && slot < |index[h]|
    case CRead(_, h, slot, b) => h < |index| && slot < |index[h]| && b in blocks
    case CCount(job, h, slot, b) => h < |index| && slot < |index[h]| && b in blocks && job.from <= job.at
    case CNull(_, h, slot, b) => h < |index| && slot < |index[h]|
    case CFree(_, h, slot, b) => h < |index| && slot < |index[h]|
    case _ => true
  }

  ghost function Last(s: State): nat
    requires |s.index| > 0
  {
    |s.index| - 1
  }

  /** How many new blocks the operation needs. */
  ghost function Needed(tail: nat, op: Op): nat {
    Blocks(tail + |op.items|) - Blocks(tail)
  }

  /** `get_block_index_index_for_index`: the slot computed from a slot and the key read there. */
  ghost function SlotFor(i: nat, tl: nat, tailBase: nat, capacity: nat): nat
    requires capacity > 0
  {
    (tl + Quotient(i / BLOCK_SIZE * BLOCK_SIZE - tailBase, BLOCK_SIZE)) % capacity
  }

  /** The block that element `i` of the operation is constructed in. */
  ghost function FillBlock(tail: nat, op: Op, i: nat): BlockId
    requires tail % BLOCK_SIZE != 0 ==> op.start.Some?
    requires |op.got| == Needed(tail, op) && tail <= i < tail + |op.items|
  {
    var b := i / BLOCK_SIZE;
    if b < Blocks(tail) then op.start.value else op.got[b - Blocks(tail)]
  }

  // ---------------------------------------------------------------- the producer

  /** `new_block_index`: the old slots, oldest first, then as many fresh entries again. */
  ghost function Grown(s: State, op: Op, junk: seq<Option<BlockId>>): State
    requires Wf(s)
  {
    var h := Last(s);
    var n := |s.index[h]|;
    var copied := seq(n, i requires 0 <= i < n => s.index[h][(s.tails[h] + 1 + i) % n]);
    var added := seq(n, i requires 0 <= i < n => |s.keys| + i);
    s.(index := s.index + [copied + added],
       tails := s.tails + [n - 1],
       keys := s.keys + seq(n, i => INVALID_BLOCK_BASE),
       values := s.values + junk,
       prod := PKey(op, |s.keys|))
  }

  ghost function ProdStep(s: State, c: Choice): State
    requires Wf(s) && ProdEnabled(s, c)
  {
    var h := Last(s);
    var n := |s.index[h]|;
    match s.prod
    case PIdle => s
    case PCheck(op) =>
      if |op.got| == Needed(s.tail, op) then
        s.(tailBlock := op.start, prod := PFill(op, 0))
      else if !(s.head < (Blocks(s.tail) + |op.got|) * BLOCK_SIZE + BLOCK_SIZE) then
        s.(prod := PUndo(op, 0))
      else
        var e := s.index[h][(s.tails[h] + 1) % n];
        if s.keys[e] == INVALID_BLOCK_BASE || s.values[e] == None then
          s.(prod := PKey(op, e))
        else
          s.(prod := PGrow(op))
    case PGrow(op) =>
      if c.ok then Grown(s, op, c.junk) else s.(prod := PUndo(op, 0))
    case PKey(op, e) =>
      s.(keys := s.keys[e := (Blocks(s.tail) + |op.got|) * BLOCK_SIZE], prod := PTail(op, e))
    case PTail(op, e) =>
      s.(tails := s.tails[h := (s.tails[h] + 1) % n], prod := PBlock(op, e))
    case PBlock(op, e) =>
      if !c.ok then
        s.(prod := PRewind(op, e))
      else
        s.(free := s.free - {c.block},
           elements := if c.block in s.elements then s.elements
                       else s.elements[c.block := seq(BLOCK_SIZE, _ => None)],
           dequeued := s.dequeued[c.block := 0],
           prod := PValue(op, e, c.block))
    case PValue(op, e, b) =>
      s.(values := s.values[e := Some(b)], tailBlock := Some(b), prod := PCheck(op.(got := op.got + [b])))
    case PRewind(op, e) =>
      s.(tails := s.tails[h := (s.tails[h] - 1) % n], prod := PNull(op, e))
    case PNull(op, e) =>
      s.(values := s.values[e := None], prod := PUndo(op, 0))
    case PUndo(op, i) =>
      if i == |op.got| then
        s.(prod := PFree(op, 0))
      else
        var e := s.index[h][SlotFor((Blocks(s.tail) + i) * BLOCK_SIZE, s.tails[h], s.keys[s.index[h][s.tails[h]]], n)];
        s.(values := s.values[e := None], prod := PUndoRewind(op, i))
    case PUndoRewind(op, i) =>
      s.(tails := s.tails[h := (s.tails[h] - 1) % n], prod := PUndo(op, i + 1))
    case PFree(op, i) =>
      if i == |op.got| then
        s.(tailBlock := op.start, prod := PIdle)
      else
        s.(free := s.free + {op.got[i]}, prod := PFree(op, i + 1))
    case PFill(op, k) =>
      if k == |op.items| then
        s.(tail := s.tail + k, enq := s.enq + op.items, prod := PIdle)
      else
        var i := s.tail + k;
        var b := FillBlock(s.tail, op, i);
        s.(elements := s.elements[b := s.elements[b][i % BLOCK_SIZE := Some(op.items[k])]],
           tailBlock := Some(b), prod := PFill(op, k + 1))
  }

  ghost predicate ProdEnabled(s: State, c: Choice) {
    && s.prod != PIdle
    && (s.prod.PGrow? && |s.index| > 0 ==> |c.junk| == |s.index[|s.index| - 1]|)
    && (s.prod.PBlock? && c.ok ==> c.block in s.free || c.block !in s.elements)
  }

  // ---------------------------------------------------------------- a consumer

  /** Where the consumer stops in its current block. */
  ghost function Stop(job: Job): nat {
    Min(job.end, (job.from / BLOCK_SIZE + 1) * BLOCK_SIZE)
  }

  /** After a block: on to the next slot of the same header, or done. */
  ghost function Onward(job: Job, h: nat, slot: nat, capacity: nat): Cons
    requires capacity > 0
  {
    if job.at < job.end then CValue(job, h, (slot + 1) % capacity) else CDone(job)
  }

  ghost function ConsStep(s: State, t: Tid): State
    requires Wf(s) && t < |s.cons|
  {
    match s.cons[t]
    case CIndex(job) =>
      s.(cons := s.cons[t := CTail(job, Last(s))])
    case CTail(job, h) =>
      s.(cons := s.cons[t := CKey(job, h, s.tails[h])])
    case CKey(job, h, tl) =>
      s.(cons := s.cons[t := CValue(job, h, SlotFor(job.at, tl, s.keys[s.index[h][tl]], |s.index[h]|))])
    case CValue(job, h, slot) =>
      var v := s.values[s.index[h][slot]];
      s.(cons := s.cons[t := if v.Some? && v.value in s.elements then CRead(job, h, slot, v.value) else Crashed])
    case CRead(job, h, slot, b) =>
      if job.at >= Stop(job) then
        s.(cons := s.cons[t := if job.from <= job.at then CCount(job, h, slot, b) else Crashed])
      else
        var el := s.elements[b][job.at % BLOCK_SIZE];
        if el == None then
          s.(cons := s.cons[t := Crashed])
        else
          s.(elements := s.elements[b := s.elements[b][job.at % BLOCK_SIZE := None]],
             cons := s.cons[t := CRead(job.(at := job.at + 1, out := job.out + [el.value]), h, slot, b)])
    case CCount(job, h, slot, b) =>
      var now := s.dequeued[b] + (job.at - job.from);
      var job' := job.(from := job.at);
      s.(dequeued := s.dequeued[b := now],
         cons := s.cons[t := if now == BLOCK_SIZE then CNull(job', h, slot, b)
                             else Onward(job', h, slot, |s.index[h]|)])
    case CNull(job, h, slot, b) =>
      s.(values := s.values[s.index[h][slot] := None], cons := s.cons[t := CFree(job, h, slot, b)])
    case CFree(job, h, slot, b) =>
      s.(free := s.free + {b}, cons := s.cons[t := Onward(job, h, slot, |s.index[h]|)])
    case _ => s
  }

  // ---------------------------------------------------------------- runs

  ghost predicate Enabled(s: State, a: Action) {
    && Wf(s)
    && match a
       case Enqueue(_) => s.prod == PIdle && (s.tail % BLOCK_SIZE != 0 ==> s.tailBlock.Some?)
       case Produce(c) => ProdEnabled(s, c)
       case Grant(t, count) => t < |s.cons| && s.cons[t] == CIdle && s.head + count <= s.tail
       case Consume(t) => t < |s.cons| && !(s.cons[t].CIdle? || s.cons[t].CDone? || s.cons[t].Crashed?)
       case Finish(t) => t < |s.cons| && s.cons[t].CDone?
  }

  ghost function Next(s: State, a: Action): State
    requires Enabled(s, a)
  {
    match a
    case Enqueue(items) => s.(prod := PCheck(Op(items, s.tailBlock, [])))
    case Produce(c) => ProdStep(s, c)
    case Grant(t, count) =>
      s.(head := s.head + count,
         cons := s.cons[t := CIndex(Job(s.head, s.head + count, s.head, s.head, []))])
    case Consume(t) => ConsStep(s, t)
    case Finish(t) => s.(cons := s.cons[t := CIdle])
  }

  /** An empty queue whose first index has been allocated, with any set of pooled blocks. */
  ghost predicate Init(s: State) {
    && s.tail == 0 && s.head == 0 && s.enq == []
    && s.index == [seq(INITIAL_INDEX_SIZE, i => i)]
    && s.tails == [INITIAL_INDEX_SIZE - 1]
    && s.keys == seq(INITIAL_INDEX_SIZE, i => INVALID_BLOCK_BASE)
    && |s.values| == INITIAL_INDEX_SIZE
    && s.elements.Keys == s.dequeued.Keys == s.free
    && (forall b :: b in s.elements ==> |s.elements[b]| == BLOCK_SIZE)
    && s.tailBlock == None && s.prod == PIdle
    && forall t :: 0 <= t < |s.cons| ==> s.cons[t] == CIdle
  }

  ghost predicate Runs(first: State, run: seq<Action>, last: State)
    decreases |run|
  {
    if run == [] then first == last
    else Enabled(first, run[0]) && Runs(Next(first, run[0]), run[1..], last)
  }

  /** The run grants no empty range: every dequeue in it asks for an element or more. */
  ghost predicate Careful(run: seq<Action>) {
    forall i :: 0 <= i < |run| ==> Asks(run[i])
  }

  ghost predicate Asks(a: Action) {
    a.Grant? ==> a.count > 0
  }

  /** Reached in such a run; ZeroDequeue shows what other runs can come to. */
  ghost predicate Reachable(s: State) {
    exists first, run :: Init(first) && Runs(first, run, s) && Careful(run)
  }
}
