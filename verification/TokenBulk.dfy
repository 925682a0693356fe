/** Bulk dequeue from all producers, run by one thread: with a consumer token that remembers where to
    start and moves on, and without. Every sub-queue is the FIFO that ProducerQueue refines. */
module TokenBulk {
  import opened Counting
  import opened Modular
  import M = Metric

  const QUOTA: nat := 256
  const WORD: nat := 0x1_0000_0000

  /** The program's queue holds metrics. */
  type Elem = M.Metric

  type Word = x: nat | x < WORD

  datatype Option<+T> = None | Some(value: T)

  // ---------------------------------------------------------------- the specification

  /** Takes from the sub-queues one after the other, `k` of them from `p` on, around the end of the
      list: what is taken in this order, and what remains. */
  ghost function Drain(qs: seq<seq<Elem>>, p: nat, k: nat, max: nat): (r: (seq<Elem>, seq<seq<Elem>>))
    requires p < |qs|
    ensures |r.1| == |qs| && |r.0| <= max
    decreases k
  {
    if k == 0 then ([], qs)
    else
      var n := Min(|qs[p]|, max);
      var rest := Drain(qs[p := qs[p][n..]], Following(p, |qs|), k - 1, max - n);
      (qs[p][..n] + rest.0, rest.1)
  }

  /** `next_prod`, or the tail of the list after its last producer. */
  function Following(p: nat, n: nat): (q: nat)
    requires p < n
    ensures q < n
  {
    if p + 1 == n then 0 else p + 1
  }

  /** Where a token belongs after `delta` rotations: on from where it was, or at first from a place of
      its own, counted from the oldest producer. */
  ghost function Place(n: nat, desired: Option<nat>, initialOffset: nat, delta: nat): nat
    requires desired.Some? ==> desired.value < n
  {
    if n == 0 then 0
    else ((if desired.Some? then desired.value else n - 1 - initialOffset % n) + delta) % n
  }

  function Size(q: seq<Elem>): nat {
    |q|
  }

  ghost function Total(qs: seq<seq<Elem>>): nat {
    Sum(qs, Size)
  }

  // ---------------------------------------------------------------- the program

  class ConsumerToken {
    var initialOffset: Word
    var lastKnownGlobalOffset: Word
    var itemsConsumedFromCurrent: Word
    var currentProducer: Option<nat>
    var desiredProducer: Option<nat>
  }

  class ConcurrentQueue {
    /** The sub-queues in the order of the producer list, the most recently added first. */
    var queues: seq<seq<Elem>>
    var globalExplicitConsumerOffset: Word

    ghost predicate TokenOk(token: ConsumerToken)
      reads this, token
    {
      token.desiredProducer.Some? ==>
        && token.desiredProducer.value < |queues|
        && token.currentProducer.Some? && token.currentProducer.value < |queues|
    }

    /** A sub-queue's own bulk dequeue: it advances the output iterator. */
    method DequeueBulk(p: nat, output: array<Elem>, at: nat, max: nat) returns (n: nat)
      requires p < |queues| && at + max <= output.Length
      modifies this`queues, output
      ensures n == Min(|old(queues)[p]|, max)
      ensures queues == old(queues)[p := old(queues)[p][n..]]
      ensures output[at..at + n] == old(queues)[p][..n]
      ensures output[..at] == old(output[..at]) && output[at + n..] == old(output[at + n..])
    {
      var q := queues[p];
      n := 0;
      while n < |q| && n < max
        invariant queues == old(queues) && q == old(queues)[p] && n <= |q| && n <= max
        invariant output[at..at + n] == q[..n]
        invariant output[..at] == old(output[..at]) && output[at + n..] == old(output[at + n..])
      {
        output[at + n] := q[n];
        n := n + 1;
      }
      queues := queues[p := q[n..]];
    }

    /** Steps along the list, around its end. */
    method Walk(from: nat, steps: nat) returns (p: nat)
      requires from < |queues|
      ensures p < |queues| && p == (from + steps) % |queues|
    {
      p := from;
      ModSmall(from, |queues|);
      var i := 0;
      while i != steps
        invariant i <= steps && p < |queues| && p == (from + i) % |queues|
      {
        FollowingIs(from + i, |queues|);
        p := Following(p, |queues|);
        i := i + 1;
      }
    }

    /** Puts the token at its place after a rotation: each rotation moves it one producer on. */
    method UpdateCurrentProducerAfterRotation(token: ConsumerToken) returns (ok: bool)
      requires TokenOk(token)
      modifies token
      ensures TokenOk(token) && token.initialOffset == old(token.initialOffset)
      ensures ok <==> !(old(token.desiredProducer) == None && queues == [])
      ensures ok ==>
                token.desiredProducer == token.currentProducer
                == Some(Place(|queues|, old(token.desiredProducer), token.initialOffset,
                              (globalExplicitConsumerOffset - old(token.lastKnownGlobalOffset)) % WORD))
      ensures ok ==> token.lastKnownGlobalOffset == globalExplicitConsumerOffset && token.itemsConsumedFromCurrent == 0
    {
      if token.desiredProducer == None && queues == [] {
        return false;
      }
      var prodCount := |queues|;
      var globalOffset := globalExplicitConsumerOffset;
      if token.desiredProducer == None {
        var offset := prodCount - 1 - token.initialOffset % prodCount;
        var place := Walk(0, offset);
        ModSmall(offset, prodCount);
        token.desiredProducer := Some(place);
      }
      var delta := (globalOffset - token.lastKnownGlobalOffset) % WORD;
      ghost var whole := delta;
      var first := token.desiredProducer.value;
      if delta >= prodCount {
        delta := delta % prodCount;
      }
      var place := Walk(first, delta);
      Shortened(first, whole, prodCount);
      token.desiredProducer := Some(place);
      token.lastKnownGlobalOffset := globalOffset;
      token.currentProducer := token.desiredProducer;
      token.itemsConsumedFromCurrent := 0;
      return true;
    }

    /** Without a token: one pass over the producer list. */
    method TryDequeueBulk(output: array<Elem>, max: nat) returns (count: nat)
      requires max <= output.Length
      modifies this`queues, output
      ensures count <= max && output[count..] == old(output[count..])
      ensures (output[..count], queues) == DrainAll(old(queues), 0, max)
    {
      hide Drain, DrainAll, After;
      count := 0;
      var ptr := 0;
      DrainStarts(queues, 0, max);
      assert output[..count] == [];
      while ptr != |queues|
        invariant ptr <= |queues| == |old(queues)| && count <= max
        invariant output[count..] == old(output[count..])
        invariant ptr < |queues| ==>
                    DrainAll(old(queues), 0, max) == After(output[..count], Drain(queues, ptr, |queues| - ptr, max - count))
        invariant ptr == |queues| ==> DrainAll(old(queues), 0, max) == (output[..count], queues)
      {
        ghost var got, qs, k := output[..count], queues, |queues| - ptr;
        var m := max - count;
        DrainStep(qs, ptr, k, m);
        var n := DequeueBulk(ptr, output, count, m);
        assert output[..count + n] == got + qs[ptr][..n];
        assert old(output[..])[count..][n..] == old(output[..])[count + n..];
        AfterJoins(got, qs[ptr][..n], Drain(queues, Following(ptr, |queues|), k - 1, m - n));
        AfterNothing(output[..count + n], queues);
        count := count + n;
        if count == max {
          DrainNothing(queues, Following(ptr, |queues|), k - 1);
          break;
        }
        if k == 1 { DrainEnds(queues, Following(ptr, |queues|), max - count); }
        ptr := ptr + 1;
      }
    }

    ghost predicate NeedsRotation(token: ConsumerToken)
      reads this, token
    {
      token.desiredProducer == None || token.lastKnownGlobalOffset != globalExplicitConsumerOffset
    }

    /** Where the round starts. */
    ghost function StartOf(token: ConsumerToken): nat
      requires TokenOk(token)
      reads this, token
    {
      if NeedsRotation(token)
      then Place(|queues|, token.desiredProducer, token.initialOffset,
                 (globalExplicitConsumerOffset - token.lastKnownGlobalOffset) % WORD)
      else token.currentProducer.value
    }

    ghost function ConsumedBefore(token: ConsumerToken): nat
      reads this, token
    {
      if NeedsRotation(token) then 0 else token.itemsConsumedFromCurrent
    }

    /** With a token: the loop's bound, the current producer, moves to every producer that had something,
        so the loop ends because each time less is wanted or the bound is one step nearer. */
    method TryDequeueBulkToken(token: ConsumerToken, output: array<Elem>, max: nat) returns (count: nat)
      requires TokenOk(token) && max <= output.Length
      modifies this, token, output
      ensures TokenOk(token) && count <= max && output[count..] == old(output[count..])
      ensures old(token.desiredProducer) == None && old(queues) == [] ==> count == 0 && queues == old(queues)
      ensures !(old(token.desiredProducer) == None && old(queues) == []) ==>
                (output[..count], queues) == DrainAll(old(queues), old(StartOf(token)), max)
      ensures globalExplicitConsumerOffset ==
              if !(old(token.desiredProducer) == None && old(queues) == [])
                 && |old(queues)[old(StartOf(token))]| >= max
                 && (old(ConsumedBefore(token)) + max) % WORD >= QUOTA
              then (old(globalExplicitConsumerOffset) + 1) % WORD else old(globalExplicitConsumerOffset)
      ensures !(old(token.desiredProducer) == None && old(queues) == []) ==>
                (token.currentProducer, token.itemsConsumedFromCurrent)
                == Standing(old(queues), old(StartOf(token)), max, old(ConsumedBefore(token)))
    {
      hide Drain, DrainAll, Place, Standing, After;
      if token.desiredProducer == None || token.lastKnownGlobalOffset != globalExplicitConsumerOffset {
        var ok := UpdateCurrentProducerAfterRotation(token);
        if !ok {
          return 0;
        }
      }
      count := FromCurrent(token, output, max);
    }

    /** From the current producer first, and then from the others. */
    method FromCurrent(token: ConsumerToken, output: array<Elem>, max: nat) returns (count: nat)
      requires TokenOk(token) && token.desiredProducer.Some? && max <= output.Length
      modifies this, token, output
      ensures TokenOk(token) && count <= max && output[count..] == old(output[count..])
      ensures (output[..count], queues) == DrainAll(old(queues), old(token.currentProducer.value), max)
      ensures globalExplicitConsumerOffset ==
              if |old(queues)[old(token.currentProducer.value)]| >= max
                 && (old(token.itemsConsumedFromCurrent) + max) % WORD >= QUOTA
              then (old(globalExplicitConsumerOffset) + 1) % WORD else old(globalExplicitConsumerOffset)
      ensures (token.currentProducer, token.itemsConsumedFromCurrent)
              == Standing(old(queues), old(token.currentProducer.value), max, old(token.itemsConsumedFromCurrent))
    {
      hide Drain, DrainAll, After, Last;
      var start := token.currentProducer.value;
      ghost var n, qs0 := |queues|, queues;
      DrainStarts(queues, start, max);
      DrainStep(queues, start, n, max);
      count := DequeueBulk(start, output, 0, max);
      assert output[..count] == qs0[start][..count] && output[0..count] == output[..count];
      AfterJoins([], output[..count], Drain(queues, Following(start, n), n - 1, max - count));
      assert [] + output[..count] == output[..count];
      WordSum(token.itemsConsumedFromCurrent, count);
      token.itemsConsumedFromCurrent := (token.itemsConsumedFromCurrent + count % WORD) % WORD;
      if count == max {
        if token.itemsConsumedFromCurrent >= QUOTA {
          globalExplicitConsumerOffset := (globalExplicitConsumerOffset + 1) % WORD;
        }
        DrainNothing(queues, Following(start, n), n - 1);
        AfterNothing(output[..count], queues);
        return max;
      }
      assert queues[start] == [];
      var taken := count;
      count := Rest(token, output, max, taken, start, qs0);
      assert old(output[..])[taken..][count - taken..] == old(output[..])[count..];
    }

    /** The loop over the other producers. */
    method Rest(token: ConsumerToken, output: array<Elem>, max: nat, taken: nat, ghost start: nat, ghost qs0: seq<seq<Elem>>)
      returns (count: nat)
      requires start < |queues| == |qs0| && taken < max <= output.Length && queues[start] == []
      requires token.desiredProducer.Some? && token.desiredProducer.value < |queues| && token.currentProducer == Some(start)
      requires DrainAll(qs0, start, max)
               == After(output[..taken], Drain(queues, Following(start, |queues|), |queues| - 1, max - taken))
      modifies this`queues, token`currentProducer, token`itemsConsumedFromCurrent, output
      ensures |queues| == |old(queues)| && token.currentProducer.Some? && token.currentProducer.value < |queues|
      ensures taken <= count <= max && output[count..] == old(output[count..])
      ensures (output[..count], queues) == DrainAll(qs0, start, max)
      ensures (token.currentProducer, token.itemsConsumedFromCurrent)
              == Last(old(queues), Following(start, |queues|), |queues| - 1, max - taken, start, old(token.itemsConsumedFromCurrent))
    {
      hide Round, Drain, DrainAll, After, Last;
      ghost var all, standing := DrainAll(qs0, start, max),
        Last(queues, Following(start, |queues|), |queues| - 1, max - taken, start, token.itemsConsumedFromCurrent);
      ghost var j: nat, a: nat, n := 1, 0, |queues|;
      count := taken;
      var ptr: nat := Following(token.currentProducer.value, |queues|);
      var wanted := max - taken;
      RoundStarts(all, standing, output[..count], queues, start, token.itemsConsumedFromCurrent, wanted);
      while ptr != token.currentProducer.value
        invariant |queues| == n && token.currentProducer.Some? && token.currentProducer.value < n && ptr < n && j <= a + n
        invariant taken <= count <= max && wanted == max - count && output[count..] == old(output[count..])
        invariant Round(all, standing, output[..count], queues, start, j, a, ptr, token.currentProducer.value,
                        token.itemsConsumedFromCurrent, wanted)
        decreases wanted, a + n - j
      {
        ghost var got, qs := output[..count], queues;
        RoundStep(all, standing, got, qs, start, j, a, ptr, token.currentProducer.value, token.itemsConsumedFromCurrent, wanted);
        var dequeued := DequeueBulk(ptr, output, count, wanted);
        assert output[..count + dequeued] == got + qs[ptr][..dequeued];
        assert old(output[..])[count..][dequeued..] == old(output[..])[count + dequeued..];
        count := count + dequeued;
        if dequeued != 0 {
          token.currentProducer := Some(ptr);
          token.itemsConsumedFromCurrent := dequeued % WORD;
          a := j;
        }
        if dequeued == wanted {
          return;
        }
        wanted := wanted - dequeued;
        ptr := Following(ptr, |queues|);
        j := j + 1;
      }
      RoundEnds(all, standing, output[..count], queues, start, j, a, ptr, token.currentProducer.value,
                token.itemsConsumedFromCurrent, wanted);
    }
  }

  /** The loop after `j` producers of the round: the bound is `a` producers from its start. While the
      first round is not over, what is left to take is the rest of it; after it nothing is. */
  ghost predicate Round(all: (seq<Elem>, seq<seq<Elem>>), standing: (Option<nat>, nat), got: seq<Elem>, qs: seq<seq<Elem>>,
                        start: nat, j: nat, a: nat, ptr: nat, current: nat, consumed: nat, wanted: nat)
  {
    var n := |qs|;
    && start < n && ptr < n && current < n && wanted > 0
    && ptr == Nth(start, j, n) && current == Nth(start, a, n) && a < j <= a + n
    && Visited(qs, start, j)
    && (j < n ==> all == After(got, Drain(qs, ptr, n - j, wanted)) && standing == Last(qs, ptr, n - j, wanted, current, consumed))
    && (j >= n ==> all == (got, qs) && standing == (Some(current), consumed))
  }

  lemma RoundStarts(all: (seq<Elem>, seq<seq<Elem>>), standing: (Option<nat>, nat), got: seq<Elem>, qs: seq<seq<Elem>>,
                    start: nat, consumed: nat, wanted: nat)
    requires start < |qs| && qs[start] == [] && wanted > 0
    requires all == After(got, Drain(qs, Following(start, |qs|), |qs| - 1, wanted))
    requires standing == Last(qs, Following(start, |qs|), |qs| - 1, wanted, start, consumed)
    ensures Round(all, standing, got, qs, start, 1, 0, Following(start, |qs|), start, consumed, wanted)
  {
    hide After;
    ModSmall(start, |qs|);
    FollowingIs(start, |qs|);
    StartsVisited(qs, start);
    if |qs| == 1 {
      DrainEnds(qs, Following(start, |qs|), wanted);
      AfterNothing(got, qs);
    }
  }

  lemma RoundStep(all: (seq<Elem>, seq<seq<Elem>>), standing: (Option<nat>, nat), got: seq<Elem>, qs: seq<seq<Elem>>,
                  start: nat, j: nat, a: nat, ptr: nat, current: nat, consumed: nat, wanted: nat)
    requires Round(all, standing, got, qs, start, j, a, ptr, current, consumed, wanted) && ptr != current
    ensures j < a + |qs| && ptr < |qs| && wanted > 0
    ensures var m := Min(|qs[ptr]|, wanted); var got', qs' := got + qs[ptr][..m], qs[ptr := qs[ptr][m..]];
            if m == wanted then all == (got', qs') && standing == (Some(ptr), m % WORD)
            else Round(all, standing, got', qs', start, j + 1, if m == 0 then a else j, Following(ptr, |qs|),
                       if m == 0 then current else ptr, if m == 0 then consumed else m % WORD, wanted - m)
  {
    hide Drain, Last, After;
    var n := |qs|;
    NotYetRound(start, a, j, n);
    FollowingIs(start + j, n);
    var m := Min(|qs[ptr]|, wanted);
    var got', qs' := got + qs[ptr][..m], qs[ptr := qs[ptr][m..]];
    if m < wanted {
      assert qs[ptr][m..] == [];
      VisitedStep(qs, qs', start, j, ptr);
    }
    if j < n {
      DrainStep(qs, ptr, n - j, wanted);
      LastStep(qs, ptr, n - j, wanted, current, consumed);
      AfterJoins(got, qs[ptr][..m], Drain(qs', Following(ptr, n), n - j - 1, wanted - m));
      AfterNothing(got', qs');
      if m == wanted { DrainNothing(qs', Following(ptr, n), n - j - 1); }
      if j + 1 == n {
        DrainEnds(qs', Following(ptr, n), wanted - m);
        LastEnds(qs', Following(ptr, n), wanted - m, if m == 0 then current else ptr, if m == 0 then consumed else m % WORD);
      }
    } else {
      VisitedAll(qs, start, j);
      assert got' == got && qs' == qs;
    }
  }

  lemma RoundEnds(all: (seq<Elem>, seq<seq<Elem>>), standing: (Option<nat>, nat), got: seq<Elem>, qs: seq<seq<Elem>>,
                  start: nat, j: nat, a: nat, ptr: nat, current: nat, consumed: nat, wanted: nat)
    requires Round(all, standing, got, qs, start, j, a, ptr, current, consumed, wanted) && ptr == current
    ensures all == (got, qs) && standing == (Some(current), consumed)
  {
    hide Drain, Last, After;
    RoundIsWhole(start, a, j, |qs|);
  }

  ghost function After(got: seq<Elem>, r: (seq<Elem>, seq<seq<Elem>>)): (seq<Elem>, seq<seq<Elem>>) {
    (got + r.0, r.1)
  }

  /** One whole round from `p` on. */
  ghost function DrainAll(qs: seq<seq<Elem>>, p: nat, max: nat): (seq<Elem>, seq<seq<Elem>>) {
    if p < |qs| then Drain(qs, p, |qs|, max) else ([], qs)
  }

  lemma DrainStarts(qs: seq<seq<Elem>>, p: nat, max: nat)
    requires p < |qs| || qs == []
    ensures DrainAll(qs, p, max) == if qs == [] then ([], qs) else After([], Drain(qs, p, |qs|, max))
  {
    if qs != [] {
      var r := Drain(qs, p, |qs|, max);
      assert [] + r.0 == r.0;
    }
  }

  lemma DrainStep(qs: seq<seq<Elem>>, p: nat, k: nat, max: nat)
    requires p < |qs| && k > 0
    ensures var n := Min(|qs[p]|, max);
            Drain(qs, p, k, max) == After(qs[p][..n], Drain(qs[p := qs[p][n..]], Following(p, |qs|), k - 1, max - n))
  {
  }

  lemma AfterJoins(a: seq<Elem>, b: seq<Elem>, r: (seq<Elem>, seq<seq<Elem>>))
    ensures After(a, After(b, r)) == After(a + b, r)
  {
    assert a + (b + r.0) == a + b + r.0;
  }

  lemma AfterNothing(a: seq<Elem>, qs: seq<seq<Elem>>)
    ensures After(a, ([], qs)) == (a, qs)
  {
    assert a + [] == a;
  }

  lemma DrainEnds(qs: seq<seq<Elem>>, p: nat, max: nat)
    requires p < |qs|
    ensures Drain(qs, p, 0, max) == ([], qs)
  {
  }

  lemma FollowingIs(i: nat, n: nat)
    requires n > 0
    ensures Following(i % n, n) == (i + 1) % n
  {
    ModShift(i, 1, n);
    var p := i % n;
    if p + 1 == n { ModSame(n, 0, 1, n); ModSmall(0, n); } else { ModSmall(p + 1, n); }
  }

  lemma Shortened(first: nat, delta: nat, n: nat)
    requires n > 0
    ensures (first + delta % n) % n == (first + delta) % n
  {
    ModShift(delta, first, n);
    assert first + delta % n == delta % n + first;
  }

  // ---------------------------------------------------------------- draining

  /** With nothing more wanted, nothing is taken. */
  lemma {:induction false} DrainNothing(qs: seq<seq<Elem>>, p: nat, k: nat)
    requires p < |qs|
    ensures Drain(qs, p, k, 0) == ([], qs)
    decreases k
  {
    if k > 0 {
      assert qs[p := qs[p][0..]] == qs;
      DrainNothing(qs, Following(p, |qs|), k - 1);
    }
  }

  ghost predicate AllEmpty(qs: seq<seq<Elem>>) {
    forall i :: 0 <= i < |qs| ==> qs[i] == []
  }

  lemma {:induction false} DrainEmpty(qs: seq<seq<Elem>>, p: nat, k: nat, max: nat)
    requires p < |qs| && AllEmpty(qs)
    ensures Drain(qs, p, k, max) == ([], qs)
    decreases k
  {
    if k > 0 {
      assert qs[p := qs[p][0..]] == qs;
      DrainEmpty(qs, Following(p, |qs|), k - 1, max);
    }
  }

  /** The producer something was taken from last, and how much, going on from `p`. */
  ghost function Last(qs: seq<seq<Elem>>, p: nat, k: nat, max: nat, current: nat, consumed: nat): (Option<nat>, nat)
    requires p < |qs|
    decreases k
  {
    if k == 0 then (Some(current), consumed)
    else
      var n := Min(|qs[p]|, max);
      if n == 0 then Last(qs, Following(p, |qs|), k - 1, max, current, consumed)
      else if n == max then (Some(p), n % WORD)
      else Last(qs[p := qs[p][n..]], Following(p, |qs|), k - 1, max - n, p, n % WORD)
  }

  /** Where the token stands after a round from `start`. */
  ghost function Standing(qs: seq<seq<Elem>>, start: nat, max: nat, consumed: nat): (Option<nat>, nat) {
    if start >= |qs| then (None, 0)
    else
      var n := Min(|qs[start]|, max);
      if n == max then (Some(start), (consumed + max) % WORD)
      else Last(qs[start := qs[start][n..]], Following(start, |qs|), |qs| - 1, max - n, start, (consumed + n) % WORD)
  }

  lemma LastStep(qs: seq<seq<Elem>>, p: nat, k: nat, max: nat, current: nat, consumed: nat)
    requires p < |qs| && k > 0
    ensures var n := Min(|qs[p]|, max);
            Last(qs, p, k, max, current, consumed)
            == if n == 0 then Last(qs[p := qs[p][n..]], Following(p, |qs|), k - 1, max - n, current, consumed)
               else if n == max then (Some(p), n % WORD)
               else Last(qs[p := qs[p][n..]], Following(p, |qs|), k - 1, max - n, p, n % WORD)
  {
    assert qs[p := qs[p][0..]] == qs;
  }

  lemma LastEnds(qs: seq<seq<Elem>>, p: nat, max: nat, current: nat, consumed: nat)
    requires p < |qs|
    ensures Last(qs, p, 0, max, current, consumed) == (Some(current), consumed)
  {
  }

  lemma WordSum(a: nat, b: nat)
    ensures (a + b % WORD) % WORD == (a + b) % WORD
  {
  }

  /** The first `j` producers of the round have nothing left. */
  ghost predicate Visited(qs: seq<seq<Elem>>, start: nat, j: nat) {
    |qs| > 0 && forall l :: 0 <= l < j ==> qs[Nth(start, l, |qs|)] == []
  }

  ghost function Nth(start: nat, l: nat, n: nat): (i: nat)
    requires n > 0
    ensures i < n
  {
    (start + l) % n
  }

  lemma StartsVisited(qs: seq<seq<Elem>>, start: nat)
    requires start < |qs| && qs[start] == []
    ensures Visited(qs, start, 1)
  {
    ModSmall(start, |qs|);
  }

  lemma VisitedStep(qs: seq<seq<Elem>>, qs': seq<seq<Elem>>, start: nat, j: nat, p: nat)
    requires Visited(qs, start, j) && p < |qs| && p == Nth(start, j, |qs|) && qs' == qs[p := []]
    ensures Visited(qs', start, j + 1)
  {
    hide Nth;
  }

  lemma VisitedAll(qs: seq<seq<Elem>>, start: nat, j: nat)
    requires Visited(qs, start, j) && j >= |qs|
    ensures AllEmpty(qs)
  {
    var n := |qs|;
    forall i | 0 <= i < n ensures qs[i] == [] {
      var l := (i - start) % n;
      ModShift(i - start, start, n);
      ModSmall(i, n);
      assert i - start + start == i;
      assert Nth(start, l, n) == i;
    }
  }

  lemma NotYetRound(start: nat, a: nat, j: nat, n: nat)
    requires n > 0 && a < j <= a + n && (start + j) % n != (start + a) % n
    ensures j < a + n
  {
    if j == a + n { ModSame(start + j, start + a, 1, n); }
  }

  lemma RoundIsWhole(start: nat, a: nat, j: nat, n: nat)
    requires n > 0 && a < j <= a + n && (start + j) % n == (start + a) % n
    ensures j == a + n
  {
    if j < a + n { ModInjective(start + a, start + j, n); }
  }

  // ---------------------------------------------------------------- what a round takes

  lemma {:induction false} DrainConserves(qs: seq<seq<Elem>>, p: nat, k: nat, max: nat)
    requires p < |qs|
    ensures |Drain(qs, p, k, max).0| + Total(Drain(qs, p, k, max).1) == Total(qs)
    decreases k
  {
    if k > 0 {
      var n := Min(|qs[p]|, max);
      SumUpdate(qs, Size, p, qs[p][n..]);
      DrainConserves(qs[p := qs[p][n..]], Following(p, |qs|), k - 1, max - n);
    }
  }

  lemma FollowingNth(p: nat, l: nat, n: nat)
    requires p < n
    ensures Nth(Following(p, n), l, n) == Nth(p, l + 1, n) && Nth(p, 0, n) == p
  {
    ModSmall(p, n);
    FollowingIs(p, n);
    ModShift(p + 1, l, n);
    assert p + 1 + l == p + (l + 1);
  }

  /** A round that is cut short by nothing leaves nothing behind. */
  lemma {:induction false} DrainEmpties(qs: seq<seq<Elem>>, p: nat, k: nat, max: nat, l: nat)
    requires p < |qs| && |Drain(qs, p, k, max).0| < max && l < k <= |qs|
    ensures Drain(qs, p, k, max).1[Nth(p, l, |qs|)] == []
    decreases k
  {
    hide Nth;
    var n := Min(|qs[p]|, max);
    var qs' := qs[p := qs[p][n..]];
    FollowingNth(p, if l == 0 then 0 else l - 1, |qs|);
    if l > 0 {
      DrainEmpties(qs', Following(p, |qs|), k - 1, max - n, l - 1);
    } else {
      assert qs'[p] == [];
      DrainLeavesOthers(qs', Following(p, |qs|), k - 1, max - n, p);
    }
  }

  /** Only the producers visited are touched, and they lose elements at the front only. */
  lemma {:induction false} DrainLeavesOthers(qs: seq<seq<Elem>>, p: nat, k: nat, max: nat, i: nat)
    requires p < |qs| && i < |qs|
    ensures |Drain(qs, p, k, max).1[i]| <= |qs[i]|
    ensures Drain(qs, p, k, max).1[i] == qs[i][|qs[i]| - |Drain(qs, p, k, max).1[i]|..]
    ensures (forall l :: 0 <= l < k ==> Nth(p, l, |qs|) != i) ==> Drain(qs, p, k, max).1[i] == qs[i]
    decreases k
  {
    hide Nth;
    if k > 0 {
      var n := Min(|qs[p]|, max);
      DrainLeavesOthers(qs[p := qs[p][n..]], Following(p, |qs|), k - 1, max - n, i);
      FollowingNth(p, 0, |qs|);
      if forall l :: 0 <= l < k ==> Nth(p, l, |qs|) != i {
        forall l | 0 <= l < k - 1 ensures Nth(Following(p, |qs|), l, |qs|) != i {
          FollowingNth(p, l, |qs|);
          assert Nth(p, l + 1, |qs|) != i;
        }
      }
    }
  }

  lemma NthReaches(p: nat, i: nat, n: nat) returns (l: nat)
    requires p < n && i < n
    ensures l < n && Nth(p, l, n) == i
  {
    l := (i - p) % n;
    ModShift(i - p, p, n);
    ModSmall(i, n);
    assert i - p + p == i;
  }

  lemma SizeAtMostTotal(qs: seq<seq<Elem>>, i: nat)
    requires i < |qs|
    ensures |qs[i]| <= Total(qs)
  {
    SumAtLeast(qs, Size, i);
  }

  /** A whole round takes exactly as much as is wanted and there, wherever it starts. */
  lemma RoundTakesAll(qs: seq<seq<Elem>>, p: nat, max: nat)
    requires p < |qs|
    ensures |DrainAll(qs, p, max).0| == Min(max, Total(qs))
  {
    var r := Drain(qs, p, |qs|, max);
    DrainConserves(qs, p, |qs|, max);
    if |r.0| < max {
      forall i | 0 <= i < |qs| ensures Size(r.1[i]) == 0 {
        var l := NthReaches(p, i, |qs|);
        DrainEmpties(qs, p, |qs|, max, l);
      }
      SumZero(r.1, Size);
    }
  }

  /** What has gone from the front of each producer, in the order of the round. */
  ghost function Gone(qs: seq<seq<Elem>>, left: seq<seq<Elem>>, p: nat, k: nat): seq<Elem>
    requires p < |qs| == |left| && forall i :: 0 <= i < |qs| ==> |left[i]| <= |qs[i]|
    decreases k
  {
    if k == 0 then [] else qs[p][..|qs[p]| - |left[p]|] + Gone(qs, left, Following(p, |qs|), k - 1)
  }

  lemma {:induction false} GoneElsewhere(qs: seq<seq<Elem>>, qs': seq<seq<Elem>>, left: seq<seq<Elem>>, p: nat, k: nat, i: nat)
    requires p < |qs| == |left| && i < |qs| && (forall j :: 0 <= j < |qs| ==> |left[j]| <= |qs[j]|)
    requires |qs'| == |qs| && (forall j :: 0 <= j < |qs| ==> |left[j]| <= |qs'[j]|)
    requires forall j :: 0 <= j < |qs| && j != i ==> qs'[j] == qs[j]
    requires forall l :: 0 <= l < k ==> Nth(p, l, |qs|) != i
    ensures Gone(qs, left, p, k) == Gone(qs', left, p, k)
    decreases k
  {
    hide Nth;
    if k > 0 {
      FollowingNth(p, 0, |qs|);
      assert Nth(p, 0, |qs|) != i;
      forall l | 0 <= l < k - 1 ensures Nth(Following(p, |qs|), l, |qs|) != i {
        FollowingNth(p, l, |qs|);
        assert Nth(p, l + 1, |qs|) != i;
      }
      GoneElsewhere(qs, qs', left, Following(p, |qs|), k - 1, i);
    }
  }

  lemma DrainShrinks(qs: seq<seq<Elem>>, p: nat, k: nat, max: nat)
    requires p < |qs|
    ensures forall i :: 0 <= i < |qs| ==> |Drain(qs, p, k, max).1[i]| <= |qs[i]|
  {
    hide Drain, Nth;
    forall i | 0 <= i < |qs| ensures |Drain(qs, p, k, max).1[i]| <= |qs[i]| { DrainLeavesOthers(qs, p, k, max, i); }
  }

  ghost predicate Shrunk(qs: seq<seq<Elem>>, left: seq<seq<Elem>>) {
    |left| == |qs| && forall i :: 0 <= i < |qs| ==> |left[i]| <= |qs[i]|
  }

  lemma GoneStep(qs: seq<seq<Elem>>, left: seq<seq<Elem>>, p: nat, k: nat, n: nat)
    requires p < |qs| && 0 < k <= |qs| && n <= |qs[p]| && Shrunk(qs, left)
    requires Shrunk(qs[p := qs[p][n..]], left) && left[p] == qs[p][n..]
    ensures Gone(qs, left, p, k) == qs[p][..n] + Gone(qs[p := qs[p][n..]], left, Following(p, |qs|), k - 1)
  {
    hide Nth, Following;
    var q := Following(p, |qs|);
    forall l | 0 <= l < k - 1 ensures Nth(q, l, |qs|) != p { NthLeaves(p, l, |qs|); }
    GoneElsewhere(qs, qs[p := qs[p][n..]], left, q, k - 1, p);
  }

  lemma {:induction false} DrainIsGone(qs: seq<seq<Elem>>, p: nat, k: nat, max: nat)
    requires p < |qs| && k <= |qs|
    ensures Shrunk(qs, Drain(qs, p, k, max).1)
    ensures Drain(qs, p, k, max).0 == Gone(qs, Drain(qs, p, k, max).1, p, k)
    decreases k
  {
    DrainShrinks(qs, p, k, max);
    if k > 0 {
      hide Drain, Gone, Following;
      var n := Min(|qs[p]|, max);
      var qs' := qs[p := qs[p][n..]];
      var q := Following(p, |qs|);
      DrainStep(qs, p, k, max);
      DrainIsGone(qs', q, k - 1, max - n);
      DrainSkips(qs', q, k - 1, max - n, p);
      GoneStep(qs, Drain(qs', q, k - 1, max - n).1, p, k, n);
    }
  }

  lemma DrainSkips(qs: seq<seq<Elem>>, q: nat, k: nat, max: nat, p: nat)
    requires p < |qs| && q == Following(p, |qs|) && k < |qs|
    ensures Drain(qs, q, k, max).1[p] == qs[p]
  {
    hide Nth, Drain;
    forall l | 0 <= l < k ensures Nth(q, l, |qs|) != p { NthLeaves(p, l, |qs|); }
    DrainLeavesOthers(qs, q, k, max, p);
  }

  lemma NthLeaves(p: nat, l: nat, n: nat)
    requires p < n && l + 1 < n
    ensures Nth(Following(p, n), l, n) != p
  {
    FollowingNth(p, l, n);
    if Nth(p, l + 1, n) == p {
      ModSmall(p, n);
      ModInjective(p, p + (l + 1), n);
    }
  }

  /** The output is made of a front part of each producer's elements, one after the other in the order
      of the round, and the rest of each is left: no producer's order is disturbed. */
  lemma RoundKeepsOrder(qs: seq<seq<Elem>>, p: nat, max: nat, i: nat)
    requires p < |qs| && i < |qs|
    ensures var (taken, left) := DrainAll(qs, p, max);
            && |left| == |qs| && (forall j :: 0 <= j < |qs| ==> |left[j]| <= |qs[j]|)
            && taken == Gone(qs, left, p, |qs|)
            && left[i] == qs[i][|qs[i]| - |left[i]|..]
  {
    DrainIsGone(qs, p, |qs|, max);
    DrainLeavesOthers(qs, p, |qs|, max, i);
  }

  // ---------------------------------------------------------------- where tokens stand

  /** The first token starts at the oldest producer, and tokens with different offsets stand at different
      producers, after any number of rotations. */
  lemma TokensAreSpread(n: nat, a: nat, b: nat, delta: nat)
    requires n > 0 && a % n != b % n
    ensures Place(n, None, 0, 0) == n - 1
    ensures Place(n, None, a, delta) != Place(n, None, b, delta)
  {
    var x, y := n - 1 - a % n, n - 1 - b % n;
    ModSmall(0, n);
    ModSmall(n - 1, n);
    if (x + delta) % n == (y + delta) % n {
      if x <= y { ModInjective(x + delta, y + delta, n); } else { ModInjective(y + delta, x + delta, n); }
    }
  }

  ghost function FirstPlace(n: nat, offset: nat): (p: nat)
    requires n > 0
    ensures p < n
  {
    n - 1 - offset % n
  }

  lemma PlaceIs(n: nat, desired: Option<nat>, offset: nat, d: nat)
    requires n > 0 && (desired.Some? ==> desired.value < n)
    ensures Place(n, desired, offset, d) == Nth(if desired.Some? then desired.value else FirstPlace(n, offset), d, n)
  {
  }

  lemma PlacedAgain(n: nat, x: nat, offset: nat, d: nat, e: nat)
    requires n > 0
    ensures Place(n, Some(Nth(x, d, n)), offset, e) == Nth(x, d + e, n)
  {
    hide Place;
    PlaceIs(n, Some(Nth(x, d, n)), offset, e);
    ModShift(x + d, e, n);
    assert x + d + e == x + (d + e);
  }

  /** One rotation moves a token to the next producer, and more rotations add up. */
  lemma RotationsAddUp(n: nat, desired: Option<nat>, offset: nat, d: nat, e: nat)
    requires n > 0 && (desired.Some? ==> desired.value < n)
    ensures Place(n, desired, offset, d) < n
    ensures Place(n, Some(Place(n, desired, offset, d)), offset, e) == Place(n, desired, offset, d + e)
    ensures desired.Some? ==> Place(n, desired, offset, 1) == Following(desired.value, n)
  {
    hide Place, Following, FirstPlace;
    var x := if desired.Some? then desired.value else FirstPlace(n, offset);
    PlaceIs(n, desired, offset, d);
    PlaceIs(n, desired, offset, d + e);
    PlacedAgain(n, x, offset, d, e);
    if desired.Some? {
      PlaceIs(n, desired, offset, 1);
      NextPlace(desired.value, n);
    }
  }

  lemma NextPlace(p: nat, n: nat)
    requires p < n
    ensures (p + 1) % n == Following(p, n)
  {
    if p + 1 == n { ModSame(p + 1, 0, 1, n); ModSmall(0, n); } else { ModSmall(p + 1, n); }
  }

  /** What the round took from a producer. */
  ghost function Given(qs: seq<seq<Elem>>, left: seq<seq<Elem>>, i: nat): int
    requires i < |qs| && i < |left|
  {
    |qs[i]| - |left[i]|
  }

  /** The last producer of a part of a round that gave something, with what it gave; or none did. */
  ghost predicate LastGiver(qs: seq<seq<Elem>>, left: seq<seq<Elem>>, p: nat, k: nat, c: nat, given: nat)
    requires |left| == |qs| > 0
  {
    exists l :: 0 <= l < k && c == Nth(p, l, |qs|) && Given(qs, left, c) > 0 && given == Given(qs, left, c) % WORD
      && forall m :: l < m < k ==> Given(qs, left, Nth(p, m, |qs|)) == 0
  }

  ghost predicate NoGiver(qs: seq<seq<Elem>>, left: seq<seq<Elem>>, p: nat, k: nat)
    requires |left| == |qs| > 0
  {
    forall m :: 0 <= m < k ==> Given(qs, left, Nth(p, m, |qs|)) == 0
  }

  /** The rest of a part of a round gives what it gives by itself. */
  lemma GivenLater(qs: seq<seq<Elem>>, left: seq<seq<Elem>>, p: nat, n: nat, k: nat, m: nat)
    requires p < |qs| == |left| && n <= |qs[p]| && m + 1 < k <= |qs|
    ensures Nth(p, m + 1, |qs|) == Nth(Following(p, |qs|), m, |qs|)
    ensures Given(qs, left, Nth(p, m + 1, |qs|)) == Given(qs[p := qs[p][n..]], left, Nth(Following(p, |qs|), m, |qs|))
  {
    FollowingNth(p, m, |qs|);
    NthLeaves(p, m, |qs|);
  }

  lemma NoneLater(qs: seq<seq<Elem>>, left: seq<seq<Elem>>, p: nat, n: nat, k: nat)
    requires p < |qs| == |left| && n <= |qs[p]| && 0 < k <= |qs| && Given(qs, left, p) == n
    requires NoGiver(qs[p := qs[p][n..]], left, Following(p, |qs|), k - 1)
    ensures n == 0 ==> NoGiver(qs, left, p, k)
    ensures n > 0 ==> LastGiver(qs, left, p, k, p, n % WORD)
  {
    hide Nth, Following, Given;
    var qs', q := qs[p := qs[p][n..]], Following(p, |qs|);
    FollowingNth(p, 0, |qs|);
    forall m | 1 <= m < k ensures Given(qs, left, Nth(p, m, |qs|)) == 0 {
      GivenLater(qs, left, p, n, k, m - 1);
      assert Given(qs', left, Nth(q, m - 1, |qs'|)) == 0;
    }
    if n > 0 { assert p == Nth(p, 0, |qs|); }
  }

  lemma SomeLater(qs: seq<seq<Elem>>, left: seq<seq<Elem>>, p: nat, n: nat, k: nat, c: nat, given: nat)
    requires p < |qs| == |left| && n <= |qs[p]| && 0 < k <= |qs|
    requires LastGiver(qs[p := qs[p][n..]], left, Following(p, |qs|), k - 1, c, given)
    ensures LastGiver(qs, left, p, k, c, given)
  {
    hide Nth, Following, Given;
    var qs', q := qs[p := qs[p][n..]], Following(p, |qs|);
    var l :| 0 <= l < k - 1 && c == Nth(q, l, |qs|) && Given(qs', left, c) > 0 && given == Given(qs', left, c) % WORD
             && forall m :: l < m < k - 1 ==> Given(qs', left, Nth(q, m, |qs|)) == 0;
    GivenLater(qs, left, p, n, k, l);
    forall m | l + 1 < m < k ensures Given(qs, left, Nth(p, m, |qs|)) == 0 { GivenLater(qs, left, p, n, k, m - 1); }
    assert c == Nth(p, l + 1, |qs|);
  }

  /** The token stands at the producer that gave something last, with what it gave, or has not moved. */
  lemma {:induction false} LastIs(qs: seq<seq<Elem>>, p: nat, k: nat, max: nat, current: nat, consumed: nat)
    requires p < |qs| && k <= |qs|
    ensures var left, r := Drain(qs, p, k, max).1, Last(qs, p, k, max, current, consumed);
            || (NoGiver(qs, left, p, k) && r == (Some(current), consumed))
            || (r.0.Some? && LastGiver(qs, left, p, k, r.0.value, r.1))
    decreases k
  {
    hide Nth, Drain, Following, NoGiver, LastGiver, Last;
    if k == 0 {
      LastEnds(qs, p, max, current, consumed);
      NobodyGives(qs, Drain(qs, p, 0, max).1, p);
      return;
    }
    var n := Min(|qs[p]|, max);
    var qs', q := qs[p := qs[p][n..]], Following(p, |qs|);
    var left := Drain(qs', q, k - 1, max - n).1;
    DrainStep(qs, p, k, max);
    DrainSkips(qs', q, k - 1, max - n, p);
    LastStep(qs, p, k, max, current, consumed);
    if n == max && n > 0 {
      DrainNothing(qs', q, k - 1);
      UntouchedGivesNothing(qs', q, k - 1);
      NoneLater(qs, left, p, n, k);
      return;
    }
    var c, g := if n == 0 then current else p, if n == 0 then consumed else n % WORD;
    LastIs(qs', q, k - 1, max - n, c, g);
    var r := Last(qs', q, k - 1, max - n, c, g);
    if NoGiver(qs', left, q, k - 1) && r == (Some(c), g) {
      NoneLater(qs, left, p, n, k);
    } else {
      SomeLater(qs, left, p, n, k, r.0.value, r.1);
    }
  }

  lemma NobodyGives(qs: seq<seq<Elem>>, left: seq<seq<Elem>>, p: nat)
    requires |left| == |qs| > 0
    ensures NoGiver(qs, left, p, 0)
  {
  }

  lemma UntouchedGivesNothing(qs: seq<seq<Elem>>, p: nat, k: nat)
    requires |qs| > 0
    ensures NoGiver(qs, qs, p, k)
  {
  }

  /** Where a token stands after a round: still at its producer, with what it took there added, exactly
      if no other producer gave anything; else at the last one that did, with what that one gave. */
  lemma StandsAtLastGiver(qs: seq<seq<Elem>>, start: nat, max: nat, consumed: nat)
    requires start < |qs|
    ensures var left, r := DrainAll(qs, start, max).1, Standing(qs, start, max, consumed);
            var q, k := Following(start, |qs|), |qs| - 1;
            && |left| == |qs|
            && (NoGiver(qs, left, q, k) ==> r == (Some(start), (consumed + Given(qs, left, start)) % WORD))
            && (!NoGiver(qs, left, q, k) ==> r.0.Some? && LastGiver(qs, left, q, k, r.0.value, r.1))
  {
    hide Nth, Drain, Following, NoGiver, LastGiver, Last;
    var n, q, k := Min(|qs[start]|, max), Following(start, |qs|), |qs| - 1;
    var qs' := qs[start := qs[start][n..]];
    var left := Drain(qs', q, k, max - n).1;
    DrainStep(qs, start, |qs|, max);
    DrainSkips(qs', q, k, max - n, start);
    OthersGive(qs, left, start, n);
    if n == max {
      DrainNothing(qs', q, k);
      UntouchedGivesNothing(qs', q, k);
    } else {
      LastIs(qs', q, k, max - n, start, (consumed + n) % WORD);
      var r := Last(qs', q, k, max - n, start, (consumed + n) % WORD);
      if r.0.Some? && LastGiver(qs', left, q, k, r.0.value, r.1) {
        GiverIsSomebody(qs', left, q, k, r.0.value, r.1);
        OthersGiveLast(qs, left, start, n, r.0.value, r.1);
      }
    }
  }

  lemma GiverIsSomebody(qs: seq<seq<Elem>>, left: seq<seq<Elem>>, p: nat, k: nat, c: nat, given: nat)
    requires |left| == |qs| > 0 && LastGiver(qs, left, p, k, c, given)
    ensures !NoGiver(qs, left, p, k)
  {
  }

  /** The start is not among the other producers of a round. */
  lemma OthersGive(qs: seq<seq<Elem>>, left: seq<seq<Elem>>, p: nat, n: nat)
    requires p < |qs| == |left| && n <= |qs[p]|
    ensures var q, k := Following(p, |qs|), |qs| - 1;
            NoGiver(qs, left, q, k) <==> NoGiver(qs[p := qs[p][n..]], left, q, k)
  {
    hide Nth, Following;
    forall m | 0 <= m < |qs| - 1 ensures Nth(Following(p, |qs|), m, |qs|) != p { NthLeaves(p, m, |qs|); }
  }

  lemma OthersGiveLast(qs: seq<seq<Elem>>, left: seq<seq<Elem>>, p: nat, n: nat, c: nat, given: nat)
    requires p < |qs| == |left| && n <= |qs[p]|
    requires LastGiver(qs[p := qs[p][n..]], left, Following(p, |qs|), |qs| - 1, c, given)
    ensures LastGiver(qs, left, Following(p, |qs|), |qs| - 1, c, given)
  {
    hide Nth, Following;
    forall m | 0 <= m < |qs| - 1 ensures Nth(Following(p, |qs|), m, |qs|) != p { NthLeaves(p, m, |qs|); }
  }
}
