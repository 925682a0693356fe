/** Splitting a string at a delimiter: a trailing empty piece is not reported. */
module Utility {

  /** The first occurrence at or after `from`; -1 stands for `npos`. */
  method Find(s: string, c: char, from: nat) returns (pos: int)
    ensures pos == FirstFrom(s, c, from)
  {
    var i := from;
    while i < |s|
      invariant from <= i && FirstFrom(s, c, from) == FirstFrom(s, c, i)
      decreases |s| - i
    {
      if s[i] == c {
        return i;
      }
      i := i + 1;
    }
    return -1;
  }

  function FirstFrom(s: string, c: char, from: nat): (pos: int)
    ensures pos == -1 ==> forall k :: from <= k < |s| ==> s[k] != c
    ensures pos != -1 ==> from <= pos < |s| && s[pos] == c && forall k :: from <= k < pos ==> s[k] != c
    decreases |s| - from
  {
    if from >= |s| then -1 else if s[from] == c then from else FirstFrom(s, c, from + 1)
  }

  /** The pieces of the part of `s` from `start` on. */
  function SplitFrom(s: string, delim: char, start: nat): seq<string>
    requires start <= |s|
    decreases |s| - start
  {
    var pos := FirstFrom(s, delim, start);
    if pos != -1 then [s[start..pos]] + SplitFrom(s, delim, pos + 1)
    else if start < |s| then [s[start..]]
    else []
  }

  function Split(s: string, delim: char): seq<string> {
    SplitFrom(s, delim, 0)
  }

  lemma Appends(a: seq<string>, p: string, rest: seq<string>)
    ensures a + [p] + rest == a + ([p] + rest)
  {
  }

  lemma SplitFromStep(s: string, delim: char, start: nat)
    requires start <= |s|
    ensures var pos := FirstFrom(s, delim, start);
            SplitFrom(s, delim, start) == if pos != -1 then [s[start..pos]] + SplitFrom(s, delim, pos + 1)
                                          else if start < |s| then [s[start..]] else []
  {
  }

  method SplitString(input: string, delim: char) returns (output: seq<string>, count: nat)
    ensures output == Split(input, delim) && count == |output|
  {
    hide SplitFrom, FirstFrom;
    output := [];
    var start := 0;
    assert output + SplitFrom(input, delim, 0) == Split(input, delim);
    var pos := Find(input, delim, start);
    while pos != -1
      invariant start <= |input| && pos == FirstFrom(input, delim, start)
      invariant output + SplitFrom(input, delim, start) == Split(input, delim)
      decreases |input| - start
    {
      SplitFromStep(input, delim, start);
      Appends(output, input[start..pos], SplitFrom(input, delim, pos + 1));
      output := output + [input[start..pos]];
      start := pos + 1;
      pos := Find(input, delim, start);
    }
    SplitFromStep(input, delim, start);
    if start < |input| {
      output := output + [input[start..]];
    }
    count := |output|;
  }

  // ---------------------------------------------------------------- the inverse of joining

  function Join(ps: seq<string>, delim: char): string {
    if ps == [] then "" else if |ps| == 1 then ps[0] else ps[0] + [delim] + Join(ps[1..], delim)
  }

  lemma FirstIsFirst(s: string, c: char, from: nat, pos: nat)
    requires from <= pos < |s| && s[pos] == c && forall k :: from <= k < pos ==> s[k] != c
    ensures FirstFrom(s, c, from) == pos
  {
  }

  lemma FirstIsNone(s: string, c: char, from: nat)
    requires forall k :: from <= k < |s| ==> s[k] != c
    ensures FirstFrom(s, c, from) == -1
  {
  }

  /** Splitting from a position is splitting the rest. */
  lemma {:induction false} SplitRest(s: string, delim: char, start: nat)
    requires start <= |s|
    ensures SplitFrom(s, delim, start) == Split(s[start..], delim)
    decreases |s| - start
  {
    hide SplitFrom, FirstFrom;
    var t := s[start..];
    var pos := FirstFrom(s, delim, start);
    SplitFromStep(s, delim, start);
    SplitFromStep(t, delim, 0);
    if pos == -1 {
      FirstIsNone(t, delim, 0);
      assert t[0..] == t;
    } else {
      assert t[0..pos - start] == s[start..pos];
      forall k | 0 <= k < pos - start ensures t[k] != delim { assert t[k] == s[start + k]; }
      FirstIsFirst(t, delim, 0, pos - start);
      SplitRest(s, delim, pos + 1);
      SplitRest(t, delim, pos - start + 1);
      assert t[pos - start + 1..] == s[pos + 1..];
    }
  }

  ghost predicate Pieces(ps: seq<string>, delim: char) {
    && (forall k :: 0 <= k < |ps| ==> delim !in ps[k])
    && (ps != [] ==> ps[|ps| - 1] != "")
  }

  lemma {:induction false} SplitJoined(ps: seq<string>, delim: char)
    requires Pieces(ps, delim)
    ensures Split(Join(ps, delim), delim) == ps
    decreases |ps|
  {
    var s := Join(ps, delim);
    if |ps| == 1 {
      FirstIsNone(s, delim, 0);
    } else if ps != [] {
      var pos := |ps[0]|;
      assert s[pos] == delim && s[..pos] == ps[0];
      forall k | 0 <= k < pos ensures s[k] != delim { assert ps[0][k] == s[k]; }
      FirstIsFirst(s, delim, 0, pos);
      SplitRest(s, delim, pos + 1);
      assert s[pos + 1..] == Join(ps[1..], delim);
      SplitJoined(ps[1..], delim);
    }
  }

  /** What splitting yields never holds the delimiter. */
  lemma {:induction false} SplitIsFree(s: string, delim: char, start: nat)
    requires start <= |s|
    ensures forall k :: 0 <= k < |SplitFrom(s, delim, start)| ==> delim !in SplitFrom(s, delim, start)[k]
    ensures SplitFrom(s, delim, start) == [] <==> start == |s|
    decreases |s| - start
  {
    var pos := FirstFrom(s, delim, start);
    if pos != -1 { SplitIsFree(s, delim, pos + 1); }
  }

  lemma {:induction false} EmptyEndIsLost(ps: seq<string>, delim: char)
    requires ps != [] && ps[|ps| - 1] == "" && forall k :: 0 <= k < |ps| ==> delim !in ps[k]
    ensures |Split(Join(ps, delim), delim)| == |ps| - 1
    decreases |ps|
  {
    var s := Join(ps, delim);
    if |ps| > 1 {
      var pos := |ps[0]|;
      assert s[pos] == delim && s[..pos] == ps[0];
      forall k | 0 <= k < pos ensures s[k] != delim { assert ps[0][k] == s[k]; }
      FirstIsFirst(s, delim, 0, pos);
      SplitRest(s, delim, pos + 1);
      assert s[pos + 1..] == Join(ps[1..], delim);
      EmptyEndIsLost(ps[1..], delim);
    }
  }

  /** Splitting undoes joining exactly for pieces without the delimiter of which the last is not
      empty. */
  lemma SplitInvertsJoin(ps: seq<string>, delim: char)
    ensures Split(Join(ps, delim), delim) == ps <==> Pieces(ps, delim)
  {
    if Pieces(ps, delim) {
      SplitJoined(ps, delim);
    } else {
      SplitIsFree(Join(ps, delim), delim, 0);
      if ps != [] && ps[|ps| - 1] == "" && forall k :: 0 <= k < |ps| ==> delim !in ps[k] {
        EmptyEndIsLost(ps, delim);
      }
    }
  }

  lemma SplitStep(s: string, delim: char)
    ensures var pos := FirstFrom(s, delim, 0);
            Split(s, delim) == if pos == -1 then (if s == "" then [] else [s])
                               else [s[..pos]] + Split(s[pos + 1..], delim)
  {
    var pos := FirstFrom(s, delim, 0);
    if pos != -1 { SplitRest(s, delim, pos + 1); }
  }

  lemma JoinStep(p: string, ps: seq<string>, delim: char)
    ensures Join([p] + ps, delim) == if ps == [] then p else p + [delim] + Join(ps, delim)
  {
    assert ([p] + ps)[1..] == ps;
  }

  function WithoutEnd(s: string, delim: char): string {
    if s != "" && s[|s| - 1] == delim then s[..|s| - 1] else s
  }

  lemma WithoutEndStep(s: string, delim: char, pos: nat)
    requires pos < |s| && s[pos] == delim
    ensures WithoutEnd(s, delim)
            == if pos + 1 == |s| then s[..pos] else s[..pos] + [delim] + WithoutEnd(s[pos + 1..], delim)
  {
    var rest := s[pos + 1..];
    if rest != "" { assert rest[|rest| - 1] == s[|s| - 1]; }
  }

  /** And joining undoes splitting, up to a delimiter at the end. */
  lemma {:induction false} JoinInvertsSplit(s: string, delim: char)
    ensures Join(Split(s, delim), delim) == WithoutEnd(s, delim)
    decreases |s|
  {
    var pos := FirstFrom(s, delim, 0);
    SplitStep(s, delim);
    if pos == -1 {
      assert s != "" ==> Join([s], delim) == s;
    } else {
      hide Split, SplitFrom, Join, FirstFrom, WithoutEnd;
      var rest := s[pos + 1..];
      JoinInvertsSplit(rest, delim);
      SplitIsEmpty(rest, delim);
      JoinStep(s[..pos], Split(rest, delim), delim);
      WithoutEndStep(s, delim, pos);
    }
  }

  lemma SplitIsEmpty(s: string, delim: char)
    ensures Split(s, delim) == [] <==> s == ""
  {
    SplitIsFree(s, delim, 0);
  }
}
