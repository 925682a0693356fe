/** The downsampler: a greedy pass that starts a new bucket whenever a point is an interval or more
    after the start of the current one, and replaces every bucket by one point.

    Values are reals; timestamps are 64-bit and their difference wraps around. */
module Downsampler {
  import opened Modular

  const TIMESTAMP_RANGE: int := 0x1_0000_0000_0000_0000

  type Timestamp = t: int | 0 <= t < TIMESTAMP_RANGE

  datatype Method = NONE | AVG | SUM | MIN | MAX

  datatype Dp = Dp(timestamp: Timestamp, value: real)

  /** `Fault` stands for reading the first point of an empty vector. */
  datatype Outcome = Output(points: seq<Dp>) | Fault

  /** Unsigned 64-bit subtraction. */
  function Elapsed(from: Timestamp, to: Timestamp): (t: Timestamp)
  {
    (to - from) % TIMESTAMP_RANGE
  }

  // ---------------------------------------------------------------- aggregates

  function SumOf(s: seq<Dp>): real {
    if s == [] then 0.0 else SumOf(s[..|s| - 1]) + s[|s| - 1].value
  }

  function Least(a: real, b: real): real {
    if b < a then b else a
  }

  function Greatest(a: real, b: real): real {
    if a < b then b else a
  }

  function MinOf(s: seq<Dp>): real {
    if s == [] then 0.0 else if |s| == 1 then s[0].value else Least(MinOf(s[..|s| - 1]), s[|s| - 1].value)
  }

  function MaxOf(s: seq<Dp>): real {
    if s == [] then 0.0 else if |s| == 1 then s[0].value else Greatest(MaxOf(s[..|s| - 1]), s[|s| - 1].value)
  }

  function AvgOf(s: seq<Dp>): real {
    if s == [] then 0.0 else SumOf(s) / |s| as real
  }

  function Aggregate(how: Method, s: seq<Dp>): real {
    match how
    case NONE => 0.0
    case AVG => AvgOf(s)
    case SUM => SumOf(s)
    case MIN => MinOf(s)
    case MAX => MaxOf(s)
  }

  // ---------------------------------------------------------------- the specification

  /** How many points, from the first on, are less than an interval after the first. */
  function RunLength(s: seq<Dp>, interval: Timestamp, n: nat): (m: nat)
    requires n <= |s|
    ensures n <= m <= |s|
    ensures forall i :: n <= i < m ==> Elapsed(s[0].timestamp, s[i].timestamp) < interval
    ensures m < |s| ==> Elapsed(s[0].timestamp, s[m].timestamp) >= interval
    decreases |s| - n
  {
    if n < |s| && Elapsed(s[0].timestamp, s[n].timestamp) < interval then RunLength(s, interval, n + 1) else n
  }

  function FirstRun(s: seq<Dp>, interval: Timestamp): (m: nat)
    requires s != [] && interval > 0
    ensures 0 < m <= |s|
  {
    RunLength(s, interval, 0)
  }

  /** The greedy partition into buckets. */
  function Buckets(s: seq<Dp>, interval: Timestamp): (bs: seq<seq<Dp>>)
    requires interval > 0
    ensures forall k :: 0 <= k < |bs| ==> bs[k] != []
  {
    if s == [] then [] else
      var n := FirstRun(s, interval);
      [s[..n]] + Buckets(s[n..], interval)
  }

  function Point(how: Method, bucket: seq<Dp>): Dp
    requires bucket != []
  {
    Dp(bucket[0].timestamp, Aggregate(how, bucket))
  }

  function Points(how: Method, bs: seq<seq<Dp>>): (out: seq<Dp>)
    requires forall k :: 0 <= k < |bs| ==> bs[k] != []
    ensures |out| == |bs| && forall k :: 0 <= k < |bs| ==> out[k] == Point(how, bs[k])
  {
    seq(|bs|, k requires 0 <= k < |bs| => Point(how, bs[k]))
  }

  function Greedy(how: Method, interval: Timestamp, s: seq<Dp>): seq<Dp>
    requires interval > 0
  {
    Points(how, Buckets(s, interval))
  }

  /** With interval 0 everything is one bucket. */
  function Decimated(how: Method, interval: Timestamp, s: seq<Dp>): Outcome {
    if how == NONE then Output(s)
    else if interval > 0 then Output(Greedy(how, interval, s))
    else if s == [] then Fault
    else Output([Point(how, s)])
  }

  // ---------------------------------------------------------------- the program

  class Downsampler {
    const how: Method
    const interval: Timestamp

    constructor (how: Method, interval: Timestamp)
      ensures this.how == how && this.interval == interval
    {
      this.how := how;
      this.interval := interval;
    }

    method Avg(results: seq<Dp>, start: nat, end: nat) returns (r: real)
      requires start <= end <= |results|
      ensures r == AvgOf(results[start..end])
    {
      var value, count := 0.0, 0;
      var dp := start;
      while dp != end
        invariant start <= dp <= end && count == dp - start
        invariant value == SumOf(results[start..dp])
      {
        assert results[start..dp + 1][..dp - start] == results[start..dp];
        value := value + results[dp].value;
        count := count + 1;
        dp := dp + 1;
      }
      r := if count > 0 then value / count as real else 0.0;
    }

    method Sum(results: seq<Dp>, start: nat, end: nat) returns (value: real)
      requires start <= end <= |results|
      ensures value == SumOf(results[start..end])
    {
      value := 0.0;
      var dp := start;
      while dp != end
        invariant start <= dp <= end
        invariant value == SumOf(results[start..dp])
      {
        assert results[start..dp + 1][..dp - start] == results[start..dp];
        value := value + results[dp].value;
        dp := dp + 1;
      }
    }

    method Min(results: seq<Dp>, start: nat, end: nat) returns (value: real)
      requires start <= end <= |results|
      ensures value == MinOf(results[start..end])
    {
      var first := true;
      value := 0.0;
      var dp := start;
      while dp != end
        invariant start <= dp <= end && (first <==> dp == start)
        invariant value == MinOf(results[start..dp])
      {
        assert results[start..dp + 1][..dp - start] == results[start..dp];
        if first {
          value := results[dp].value;
          first := false;
        } else {
          value := Least(value, results[dp].value);
        }
        dp := dp + 1;
      }
    }

    method Max(results: seq<Dp>, start: nat, end: nat) returns (value: real)
      requires start <= end <= |results|
      ensures value == MaxOf(results[start..end])
    {
      var first := true;
      value := 0.0;
      var dp := start;
      while dp != end
        invariant start <= dp <= end && (first <==> dp == start)
        invariant value == MaxOf(results[start..dp])
      {
        assert results[start..dp + 1][..dp - start] == results[start..dp];
        if first {
          value := results[dp].value;
          first := false;
        } else {
          value := Greatest(value, results[dp].value);
        }
        dp := dp + 1;
      }
    }

    method Resolve(results: seq<Dp>, start: nat, end: nat) returns (result: real)
      requires start <= end <= |results|
      ensures result == Aggregate(how, results[start..end])
    {
      result := 0.0;
      if how == AVG {
        result := Avg(results, start, end);
      } else if how == SUM {
        result := Sum(results, start, end);
      } else if how == MIN {
        result := Min(results, start, end);
      } else if how == MAX {
        result := Max(results, start, end);
      }
    }

    /** The bucket that starts at `start`: a loop over the points that stops at the first one an
        interval or more later. */
    method NextBucket(results: seq<Dp>, start: nat, points: seq<Dp>) returns (next: nat, points': seq<Dp>)
      requires interval > 0 && start < |results|
      ensures start < next <= |results| && next - start == FirstRun(results[start..], interval)
      ensures points' == points + [Point(how, results[start..next])]
    {
      ghost var rest := results[start..];
      points' := points;
      var timestamp := results[start].timestamp;
      next := start;
      while next != |results|
        invariant start <= next <= |results| && points' == points
        invariant RunLength(rest, interval, 0) == RunLength(rest, interval, next - start)
      {
        assert rest[next - start] == results[next];
        if Elapsed(timestamp, results[next].timestamp) < interval {
          next := next + 1;
        } else {
          var result := Resolve(results, start, next);
          points' := points + [Dp(results[start].timestamp, result)];
          break;
        }
      }
      assert next - start == FirstRun(rest, interval);
      if next == |results| {
        var result := Resolve(results, start, next);
        points' := points + [Dp(results[start].timestamp, result)];
      }
    }

    method Decimate(results: seq<Dp>) returns (output: Outcome)
      ensures output == Decimated(how, interval, results)
    {
      hide Greedy, FirstRun, Aggregate;
      if how == NONE {
        return Output(results);
      }
      if interval == 0 {
        if results == [] {
          return Fault;
        }
        var result := Resolve(results, 0, |results|);
        assert results[0..|results|] == results;
        return Output([Dp(results[0].timestamp, result)]);
      }
      var points: seq<Dp> := [];
      var start := 0;
      assert results[0..] == results;
      while start != |results|
        invariant 0 <= start <= |results|
        invariant Greedy(how, interval, results) == points + Greedy(how, interval, results[start..])
        decreases |results| - start
      {
        var next, more := NextBucket(results, start, points);
        GreedyStep(how, interval, results[start..]);
        assert results[start..][..next - start] == results[start..next];
        assert results[start..][next - start..] == results[next..];
        points := more;
        start := next;
      }
      GreedyEnds(how, interval, results[start..]);
      return Output(points);
    }
  }

  lemma GreedyEnds(how: Method, interval: Timestamp, s: seq<Dp>)
    requires s == [] && interval > 0
    ensures Greedy(how, interval, s) == []
  {
  }

  lemma GreedyStep(how: Method, interval: Timestamp, s: seq<Dp>)
    requires s != [] && interval > 0
    ensures var n := FirstRun(s, interval);
            Greedy(how, interval, s) == [Point(how, s[..n])] + Greedy(how, interval, s[n..])
  {
    hide Aggregate;
  }

  // ---------------------------------------------------------------- the buckets are a partition

  function Flatten(bs: seq<seq<Dp>>): seq<Dp> {
    if bs == [] then [] else bs[0] + Flatten(bs[1..])
  }

  ghost predicate Narrow(bucket: seq<Dp>, interval: Timestamp) {
    && bucket != []
    && forall i :: 0 <= i < |bucket| ==> Elapsed(bucket[0].timestamp, bucket[i].timestamp) < interval
  }

  /** Every point of any input, sorted or not, is in exactly one bucket, in order; a bucket holds the
      points less than an interval after its start, and the next one starts an interval or more
      after it. */
  lemma {:induction false} BucketsPartition(s: seq<Dp>, interval: Timestamp)
    requires interval > 0
    ensures var bs := Buckets(s, interval);
            && Flatten(bs) == s
            && (forall k :: 0 <= k < |bs| ==> Narrow(bs[k], interval))
            && (forall k :: 0 <= k < |bs| - 1 ==> Elapsed(bs[k][0].timestamp, bs[k + 1][0].timestamp) >= interval)
    ensures s != [] ==> Buckets(s, interval) != [] && Buckets(s, interval)[0][0] == s[0]
    decreases |s|
  {
    if s != [] {
      var n := FirstRun(s, interval);
      var rest := Buckets(s[n..], interval);
      BucketsPartition(s[n..], interval);
      assert Buckets(s, interval)[1..] == rest;
      assert s == s[..n] + s[n..];
      hide Elapsed;
    }
  }

  // ---------------------------------------------------------------- and an optimal one

  ghost predicate Sorted(s: seq<Dp>) {
    forall i, j :: 0 <= i <= j < |s| ==> s[i].timestamp <= s[j].timestamp
  }

  lemma SortedSuffix(s: seq<Dp>, n: nat)
    requires Sorted(s) && n <= |s|
    ensures Sorted(s[n..])
  {
  }

  /** From a later start the greedy partition needs no more buckets. */
  lemma {:induction false} LaterNeedsNoMore(s: seq<Dp>, interval: Timestamp, j: nat)
    requires interval > 0 && Sorted(s) && j <= |s|
    ensures |Buckets(s[j..], interval)| <= |Buckets(s, interval)|
    decreases |s|
  {
    hide Buckets, FirstRun, Sorted;
    BucketsCount(s, interval);
    BucketsCount(s[j..], interval);
    if s != [] && j < |s| {
      var n := FirstRun(s, interval);
      SortedSuffix(s, n);
      SortedSuffix(s, j);
      if j >= n {
        assert s[j..] == s[n..][j - n..];
        LaterNeedsNoMore(s[n..], interval, j - n);
      } else {
        var t := s[j..];
        var m := FirstRun(t, interval);
        RunReaches(s, t, interval, j, n, m);
        assert t[m..] == s[n..][j + m - n..];
        LaterNeedsNoMore(s[n..], interval, j + m - n);
      }
    }
  }

  lemma RunAtLeast(s: seq<Dp>, interval: Timestamp, k: nat)
    requires s != [] && interval > 0 && k <= |s|
    requires forall i :: 0 <= i < k ==> Elapsed(s[0].timestamp, s[i].timestamp) < interval
    ensures FirstRun(s, interval) >= k
  {
    hide Elapsed;
  }

  lemma ElapsedForward(a: Timestamp, b: Timestamp)
    requires a <= b
    ensures Elapsed(a, b) == b - a
  {
  }

  lemma RunReaches(s: seq<Dp>, t: seq<Dp>, interval: Timestamp, j: nat, n: nat, m: nat)
    requires interval > 0 && Sorted(s) && j < n <= |s| && t == s[j..] && m <= |t|
    requires n == FirstRun(s, interval) && m == FirstRun(t, interval)
    ensures j + m >= n
  {
    hide Elapsed;
    forall i | 0 <= i < n - j ensures Elapsed(t[0].timestamp, t[i].timestamp) < interval {
      assert Elapsed(s[0].timestamp, s[j + i].timestamp) < interval;
      assert s[0].timestamp <= s[j].timestamp <= s[j + i].timestamp;
      ElapsedForward(s[0].timestamp, s[j + i].timestamp);
      ElapsedForward(s[j].timestamp, s[j + i].timestamp);
    }
    RunAtLeast(t, interval, n - j);
  }

  ghost predicate Partition(bs: seq<seq<Dp>>, s: seq<Dp>, interval: Timestamp) {
    Flatten(bs) == s && forall k :: 0 <= k < |bs| ==> Narrow(bs[k], interval)
  }

  lemma PartitionRest(bs: seq<seq<Dp>>, s: seq<Dp>, interval: Timestamp)
    requires Partition(bs, s, interval) && bs != [] && Sorted(s)
    ensures Narrow(bs[0], interval) && 0 < |bs[0]| <= |s| && s[..|bs[0]|] == bs[0]
    ensures Partition(bs[1..], s[|bs[0]|..], interval) && Sorted(s[|bs[0]|..])
  {
    assert Narrow(bs[0], interval);
    assert s == bs[0] + Flatten(bs[1..]);
    hide Narrow, Flatten;
  }

  lemma BucketsCount(s: seq<Dp>, interval: Timestamp)
    requires interval > 0
    ensures |Buckets(s, interval)| == if s == [] then 0 else 1 + |Buckets(s[FirstRun(s, interval)..], interval)|
  {
    hide FirstRun;
  }

  lemma PartitionOfNone(s: seq<Dp>, interval: Timestamp)
    requires Partition([], s, interval)
    ensures s == []
  {
  }

  /** No way to cut sorted points into contiguous runs shorter than the interval has fewer runs. */
  lemma {:induction false} GreedyIsOptimal(s: seq<Dp>, interval: Timestamp, bs: seq<seq<Dp>>)
    requires interval > 0 && Sorted(s) && Partition(bs, s, interval)
    ensures |Buckets(s, interval)| <= |bs|
    decreases |bs|
  {
    hide Buckets, Partition, Sorted, Narrow, FirstRun;
    BucketsCount(s, interval);
    if bs == [] {
      PartitionOfNone(s, interval);
    } else {
      PartitionRest(bs, s, interval);
      var m, n := |bs[0]|, FirstRun(s, interval);
      NarrowIsWithinRun(s, interval, m, n);
      GreedyIsOptimal(s[m..], interval, bs[1..]);
      assert s[m..][n - m..] == s[n..];
      LaterNeedsNoMore(s[m..], interval, n - m);
    }
  }

  lemma NarrowIsWithinRun(s: seq<Dp>, interval: Timestamp, m: nat, n: nat)
    requires interval > 0 && 0 < m <= |s| && Narrow(s[..m], interval) && n == FirstRun(s, interval)
    ensures m <= n
  {
    forall i | 0 <= i < m ensures Elapsed(s[0].timestamp, s[i].timestamp) < interval {
      assert s[..m][i] == s[i];
    }
    RunAtLeast(s, interval, m);
  }

  // ---------------------------------------------------------------- what aggregation conserves

  lemma {:induction false} SumAppends(a: seq<Dp>, b: seq<Dp>)
    ensures SumOf(a + b) == SumOf(a) + SumOf(b)
    decreases |b|
  {
    if b == [] {
      assert a + b == a;
    } else {
      var n := |b| - 1;
      assert (a + b)[..|a + b| - 1] == a + b[..n];
      SumAppends(a, b[..n]);
    }
  }

  lemma {:induction false} GreedySum(s: seq<Dp>, interval: Timestamp)
    requires interval > 0
    ensures SumOf(Greedy(SUM, interval, s)) == SumOf(s)
    decreases |s|
  {
    if s != [] {
      var n := FirstRun(s, interval);
      GreedyStep(SUM, interval, s);
      GreedySum(s[n..], interval);
      SumAppends([Point(SUM, s[..n])], Greedy(SUM, interval, s[n..]));
      SumAppends(s[..n], s[n..]);
      assert s[..n] + s[n..] == s;
      OneSum(Point(SUM, s[..n]));
    }
  }

  /** The points of a SUM downsampling add up to the sum of the input. */
  lemma SumIsConserved(s: seq<Dp>, interval: Timestamp)
    requires Decimated(SUM, interval, s) != Fault
    ensures SumOf(Decimated(SUM, interval, s).points) == SumOf(s)
  {
    hide Greedy;
    if interval > 0 { GreedySum(s, interval); } else { OneSum(Point(SUM, s)); }
  }

  lemma OneSum(p: Dp)
    ensures SumOf([p]) == p.value
  {
    assert [p][..0] == [];
  }

  /** `x` is the least value in `s`. */
  ghost predicate IsMin(x: real, s: seq<Dp>) {
    (exists i :: 0 <= i < |s| && s[i].value == x) && forall i :: 0 <= i < |s| ==> x <= s[i].value
  }

  ghost predicate IsMax(x: real, s: seq<Dp>) {
    (exists i :: 0 <= i < |s| && s[i].value == x) && forall i :: 0 <= i < |s| ==> x >= s[i].value
  }

  lemma {:induction false} MinIsMin(s: seq<Dp>)
    requires s != []
    ensures IsMin(MinOf(s), s)
    decreases |s|
  {
    if |s| > 1 {
      var r := s[..|s| - 1];
      MinIsMin(r);
      var i :| 0 <= i < |r| && r[i].value == MinOf(r);
      assert s[i].value == MinOf(r);
      forall k | 0 <= k < |s| ensures MinOf(s) <= s[k].value { if k < |r| { assert r[k] == s[k]; } }
    }
  }

  lemma {:induction false} MaxIsMax(s: seq<Dp>)
    requires s != []
    ensures IsMax(MaxOf(s), s)
    decreases |s|
  {
    if |s| > 1 {
      var r := s[..|s| - 1];
      MaxIsMax(r);
      var i :| 0 <= i < |r| && r[i].value == MaxOf(r);
      assert s[i].value == MaxOf(r);
      forall k | 0 <= k < |s| ensures MaxOf(s) >= s[k].value { if k < |r| { assert r[k] == s[k]; } }
    }
  }

  lemma {:induction false} MinAppends(a: seq<Dp>, b: seq<Dp>)
    requires a != [] && b != []
    ensures MinOf(a + b) == Least(MinOf(a), MinOf(b))
    decreases |b|
  {
    var n := |b| - 1;
    assert (a + b)[..|a + b| - 1] == a + b[..n];
    if n == 0 {
      assert a + b[..0] == a;
    } else {
      MinAppends(a, b[..n]);
    }
  }

  lemma OneMin(b: seq<Dp>)
    requires b != []
    ensures MinOf([Point(MIN, b)]) == MinOf(b)
  {
  }

  lemma {:induction false} GreedyMin(s: seq<Dp>, interval: Timestamp)
    requires interval > 0 && s != []
    ensures Greedy(MIN, interval, s) != [] && MinOf(Greedy(MIN, interval, s)) == MinOf(s)
    decreases |s|
  {
    var n := FirstRun(s, interval);
    hide Greedy, FirstRun, MinOf, Point;
    GreedyStep(MIN, interval, s);
    OneMin(s[..n]);
    assert s[..n] + s[n..] == s;
    if n == |s| {
      GreedyEnds(MIN, interval, s[n..]);
      assert s[..n] == s;
    } else {
      GreedyMin(s[n..], interval);
      MinAppends(s[..n], s[n..]);
      MinAppends([Point(MIN, s[..n])], Greedy(MIN, interval, s[n..]));
    }
  }

  /** The least of the points of a MIN downsampling is the least of the input. */
  lemma MinIsConserved(s: seq<Dp>, interval: Timestamp)
    requires s != []
    ensures var out := Decimated(MIN, interval, s);
            out != Fault && out.points != [] && MinOf(out.points) == MinOf(s)
  {
    hide Greedy;
    if interval > 0 { GreedyMin(s, interval); }
  }

  lemma {:induction false} MaxAppends(a: seq<Dp>, b: seq<Dp>)
    requires a != [] && b != []
    ensures MaxOf(a + b) == Greatest(MaxOf(a), MaxOf(b))
    decreases |b|
  {
    var n := |b| - 1;
    assert (a + b)[..|a + b| - 1] == a + b[..n];
    if n == 0 {
      assert a + b[..0] == a;
    } else {
      MaxAppends(a, b[..n]);
    }
  }

  lemma OneMax(b: seq<Dp>)
    requires b != []
    ensures MaxOf([Point(MAX, b)]) == MaxOf(b)
  {
  }

  lemma {:induction false} GreedyMax(s: seq<Dp>, interval: Timestamp)
    requires interval > 0 && s != []
    ensures Greedy(MAX, interval, s) != [] && MaxOf(Greedy(MAX, interval, s)) == MaxOf(s)
    decreases |s|
  {
    var n := FirstRun(s, interval);
    hide Greedy, FirstRun, MaxOf, Point;
    GreedyStep(MAX, interval, s);
    OneMax(s[..n]);
    assert s[..n] + s[n..] == s;
    if n == |s| {
      GreedyEnds(MAX, interval, s[n..]);
      assert s[..n] == s;
    } else {
      GreedyMax(s[n..], interval);
      MaxAppends(s[..n], s[n..]);
      MaxAppends([Point(MAX, s[..n])], Greedy(MAX, interval, s[n..]));
    }
  }

  /** The greatest of the points of a MAX downsampling is the greatest of the input. */
  lemma MaxIsConserved(s: seq<Dp>, interval: Timestamp)
    requires s != []
    ensures var out := Decimated(MAX, interval, s);
            out != Fault && out.points != [] && MaxOf(out.points) == MaxOf(s)
  {
    hide Greedy;
    if interval > 0 { GreedyMax(s, interval); }
  }

  lemma {:induction false} SumBetween(s: seq<Dp>, lo: real, hi: real)
    requires forall i :: 0 <= i < |s| ==> lo <= s[i].value <= hi
    ensures lo * |s| as real <= SumOf(s) <= hi * |s| as real
  {
    if s != [] {
      var r := s[..|s| - 1];
      SumBetween(r, lo, hi);
      assert |s| as real == |r| as real + 1.0;
      assert lo * (|r| as real + 1.0) == lo * |r| as real + lo;
      assert hi * (|r| as real + 1.0) == hi * |r| as real + hi;
    }
  }

  /** The groups of points that become one point each. */
  function Groups(s: seq<Dp>, interval: Timestamp): seq<seq<Dp>> {
    if interval > 0 then Buckets(s, interval) else [s]
  }

  lemma GroupsPartition(s: seq<Dp>, interval: Timestamp)
    requires interval > 0 || s != []
    ensures Flatten(Groups(s, interval)) == s && forall k :: 0 <= k < |Groups(s, interval)| ==> Groups(s, interval)[k] != []
  {
    if interval > 0 {
      BucketsPartition(s, interval);
    } else {
      assert [s][1..] == [] && s + [] == s;
    }
  }

  /** Without a method the points are handed on as they are. */
  lemma NoMethodKeepsAll(s: seq<Dp>, interval: Timestamp)
    ensures Decimated(NONE, interval, s) == Output(s)
  {
  }

  /** What the value of a group of points is to be. */
  ghost predicate ValueOf(how: Method, value: real, group: seq<Dp>) {
    match how
    case NONE => false
    case AVG => value * |group| as real == SumOf(group)
    case SUM => value == SumOf(group)
    case MIN => IsMin(value, group)
    case MAX => IsMax(value, group)
  }

  /** With a method every group becomes one point: it bears the time of the group's first point, and the
      average, the sum, the least or the greatest of the group's values. */
  lemma PointsAreOfGroups(how: Method, s: seq<Dp>, interval: Timestamp, k: nat)
    requires how != NONE && Decimated(how, interval, s) != Fault && k < |Groups(s, interval)|
    ensures var out, group := Decimated(how, interval, s).points, Groups(s, interval)[k];
            && |out| == |Groups(s, interval)| && group != []
            && out[k].timestamp == group[0].timestamp && ValueOf(how, out[k].value, group)
  {
    hide Buckets, Flatten, SumOf, MinOf, MaxOf, IsMin, IsMax;
    GroupsPartition(s, interval);
    AggregateIs(how, Groups(s, interval)[k]);
    hide Aggregate, ValueOf;
  }

  lemma AggregateIs(how: Method, group: seq<Dp>)
    requires how != NONE && group != []
    ensures ValueOf(how, Aggregate(how, group), group)
  {
    hide SumOf, MinOf, MaxOf, IsMin, IsMax;
    match how
    case MIN => MinIsMin(group);
    case MAX => MaxIsMax(group);
    case AVG => Divided(SumOf(group), |group| as real);
    case SUM =>
  }

  lemma Divided(sum: real, n: real)
    requires n > 0.0
    ensures sum / n * n == sum
  {
  }

  /** Every average lies between the least and the greatest value of its group. */
  lemma AverageIsWithin(s: seq<Dp>, interval: Timestamp, k: nat)
    requires Decimated(AVG, interval, s) != Fault && k < |Groups(s, interval)|
    ensures var out, b := Decimated(AVG, interval, s).points, Groups(s, interval)[k];
            |out| == |Groups(s, interval)| && MinOf(b) <= out[k].value <= MaxOf(b)
  {
    AverageOfBucket(Groups(s, interval)[k]);
  }

  lemma AverageOfBucket(b: seq<Dp>)
    requires b != []
    ensures MinOf(b) <= Aggregate(AVG, b) <= MaxOf(b)
  {
    hide MinOf, MaxOf, SumOf;
    MinIsMin(b);
    MaxIsMax(b);
    SumBetween(b, MinOf(b), MaxOf(b));
    Quotient(SumOf(b), |b| as real, MinOf(b), MaxOf(b));
  }

  lemma Quotient(sum: real, n: real, lo: real, hi: real)
    requires n > 0.0 && lo * n <= sum <= hi * n
    ensures lo <= sum / n <= hi
  {
    var q := sum / n;
    assert q * n == sum;
    assert q < lo ==> (lo - q) * n > 0.0;
    assert q > hi ==> (q - hi) * n > 0.0;
  }

  // ---------------------------------------------------------------- spacing

  lemma {:induction false} StartsAdvance(bs: seq<seq<Dp>>, interval: Timestamp, k: nat)
    requires k < |bs| && (forall i :: 0 <= i < |bs| ==> bs[i] != [])
    requires forall i :: 0 <= i < |bs| - 1 ==> bs[i + 1][0].timestamp - bs[i][0].timestamp >= interval
    ensures bs[k][0].timestamp - bs[0][0].timestamp >= k * interval
    decreases k
  {
    if k > 0 {
      StartsAdvance(bs, interval, k - 1);
      assert bs[k - 1 + 1][0].timestamp - bs[k - 1][0].timestamp >= interval;
      assert k * interval == (k - 1) * interval + interval;
    }
  }

  lemma {:induction false} StartsAreInput(s: seq<Dp>, interval: Timestamp, k: nat) returns (i: nat)
    requires interval > 0 && k < |Buckets(s, interval)|
    ensures k <= i < |s| && Buckets(s, interval)[k][0] == s[i]
    ensures forall l :: 0 <= l < k ==> exists j :: 0 <= j < i && Buckets(s, interval)[l][0] == s[j]
    decreases |s|
  {
    var n := FirstRun(s, interval);
    if k == 0 {
      i := 0;
    } else {
      var i' := StartsAreInput(s[n..], interval, k - 1);
      i := n + i';
      forall l | 0 <= l < k ensures exists j :: 0 <= j < i && Buckets(s, interval)[l][0] == s[j] {
        if l == 0 {
          assert Buckets(s, interval)[0][0] == s[0];
        } else {
          var j :| 0 <= j < i' && Buckets(s[n..], interval)[l - 1][0] == s[n..][j];
          assert Buckets(s, interval)[l][0] == s[n + j];
        }
      }
    }
  }

  lemma StartsAreSpaced(s: seq<Dp>, interval: Timestamp, k: nat)
    requires interval > 0 && Sorted(s) && k + 1 < |Buckets(s, interval)|
    ensures Buckets(s, interval)[k + 1][0].timestamp - Buckets(s, interval)[k][0].timestamp >= interval
  {
    hide Buckets, Flatten, Elapsed, Narrow;
    BucketsPartition(s, interval);
    var i := StartsAreInput(s, interval, k + 1);
    var j :| 0 <= j < i && Buckets(s, interval)[k][0] == s[j];
    ElapsedForward(s[j].timestamp, s[i].timestamp);
  }

  /** For sorted points the output is spaced by an interval or more, so it is bounded by the time the
      input spans; with interval 0 it is one point. */
  lemma OutputIsSpaced(s: seq<Dp>, interval: Timestamp, how: Method)
    requires Sorted(s) && s != [] && how != NONE
    ensures Decimated(how, interval, s) != Fault
    ensures var out := Decimated(how, interval, s).points;
            && (forall k :: 0 <= k < |out| - 1 ==> out[k + 1].timestamp - out[k].timestamp >= interval)
            && |out| <= (if interval > 0 then (s[|s| - 1].timestamp - s[0].timestamp) / interval else 0) + 1
  {
    if interval > 0 { GreedySpaced(s, interval, how); }
  }

  lemma GreedySpaced(s: seq<Dp>, interval: Timestamp, how: Method)
    requires interval > 0 && Sorted(s) && s != []
    ensures var out := Greedy(how, interval, s);
            && (forall k :: 0 <= k < |out| - 1 ==> out[k + 1].timestamp - out[k].timestamp >= interval)
            && |out| <= (s[|s| - 1].timestamp - s[0].timestamp) / interval + 1
  {
    forall k | 0 <= k < |Buckets(s, interval)| - 1
      ensures Buckets(s, interval)[k + 1][0].timestamp - Buckets(s, interval)[k][0].timestamp >= interval
    {
      StartsAreSpaced(s, interval, k);
    }
    hide Buckets;
    StartsAreFew(s, interval);
  }

  lemma StartsAreFew(s: seq<Dp>, interval: Timestamp)
    requires interval > 0 && Sorted(s) && s != []
    requires forall k :: 0 <= k < |Buckets(s, interval)| - 1 ==>
               Buckets(s, interval)[k + 1][0].timestamp - Buckets(s, interval)[k][0].timestamp >= interval
    ensures |Buckets(s, interval)| <= (s[|s| - 1].timestamp - s[0].timestamp) / interval + 1
  {
    hide Buckets, Flatten, Narrow, Elapsed;
    BucketsPartition(s, interval);
    var n := |Buckets(s, interval)| - 1;
    StartsAdvance(Buckets(s, interval), interval, n);
    var i := StartsAreInput(s, interval, n);
    FewSteps(n, interval, s[|s| - 1].timestamp - s[0].timestamp);
  }

  lemma FewSteps(k: nat, interval: nat, span: int)
    requires interval > 0 && k * interval <= span
    ensures k <= span / interval
  {
    var q := span / interval;
    var d := k - q;
    Multiple(d, interval);
    assert span == q * interval + span % interval;
    assert d * interval == k * interval - q * interval;
  }

  // ---------------------------------------------------------------- idempotence

  lemma SinglePoint(how: Method, p: Dp)
    requires how != NONE
    ensures Point(how, [p]) == p
  {
    OneSum(p);
    assert p.value / 1.0 == p.value;
  }

  /** Points that are all an interval or more after the one before are left as they are. */
  ghost predicate Spaced(s: seq<Dp>, interval: Timestamp) {
    forall k :: 0 <= k < |s| - 1 ==> Elapsed(s[k].timestamp, s[k + 1].timestamp) >= interval
  }

  lemma SpacedStarts(s: seq<Dp>, interval: Timestamp)
    requires interval > 0 && s != [] && Spaced(s, interval)
    ensures FirstRun(s, interval) == 1 && Spaced(s[1..], interval)
  {
    assert Elapsed(s[0].timestamp, s[0].timestamp) == 0;
    hide Elapsed;
    assert |s| > 1 ==> Elapsed(s[0].timestamp, s[0 + 1].timestamp) >= interval;
    forall k | 0 <= k < |s[1..]| - 1 ensures Elapsed(s[1..][k].timestamp, s[1..][k + 1].timestamp) >= interval {
      assert s[1..][k] == s[k + 1] && s[1..][k + 1] == s[k + 1 + 1];
    }
  }

  lemma {:induction false} SpacedIsFixed(how: Method, s: seq<Dp>, interval: Timestamp)
    requires interval > 0 && how != NONE && Spaced(s, interval)
    ensures Greedy(how, interval, s) == s
    decreases |s|
  {
    hide Greedy, FirstRun, Spaced, Point;
    if s == [] {
      GreedyEnds(how, interval, s);
    } else {
      SpacedStarts(s, interval);
      GreedyStep(how, interval, s);
      assert s[..1] == [s[0]];
      SinglePoint(how, s[0]);
      SpacedIsFixed(how, s[1..], interval);
    }
  }

  /** Downsampling again changes nothing, for any input, even unsorted points whose differences wrap
      around; it only has to have a result, which it lacks exactly for no points and interval 0. */
  lemma DecimateIsIdempotent(how: Method, interval: Timestamp, s: seq<Dp>)
    ensures Decimated(how, interval, s).Fault? <==> how != NONE && interval == 0 && s == []
    ensures Decimated(how, interval, s).Output? ==>
              Decimated(how, interval, Decimated(how, interval, s).points) == Decimated(how, interval, s)
  {
    if how != NONE && interval > 0 {
      BucketsPartition(s, interval);
      SpacedIsFixed(how, Greedy(how, interval, s), interval);
    } else if how != NONE && s != [] {
      SinglePoint(how, Point(how, s));
    }
  }
}
