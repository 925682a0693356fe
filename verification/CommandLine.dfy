/** The in-place splitter of a command line into arguments, and the quoting that it undoes. */
module CommandLine {

  const NUL: char := '\0'
  const QUOTE: char := '\"'
  const NULL: int := -1

  predicate Blank(a: char) {
    a == ' ' || a == '\t' || a == '\n' || a == '\r'
  }

  // ---------------------------------------------------------------- the specification

  /** What has been split so far; the last argument may still grow. */
  datatype Scan = Scan(args: seq<string>, quotes: bool, text: bool, space: bool)

  function Start(): Scan {
    Scan([], false, false, true)
  }

  function Opened(s: Scan): seq<string> {
    if s.space || s.args == [] then s.args + [""] else s.args
  }

  function Extended(args: seq<string>, a: char): seq<string>
    requires args != []
  {
    args[|args| - 1 := args[|args| - 1] + [a]]
  }

  function Step(s: Scan, a: char): Scan {
    if s.quotes then
      if a == QUOTE then s.(quotes := false)
      else if s.args == [] then s else s.(args := Extended(s.args, a))
    else if a == QUOTE then Scan(Opened(s), true, true, false)
    else if Blank(a) then s.(text := false, space := true)
    else Scan(Extended(Opened(s), a), false, true, false)
  }

  function Fold(s: Scan, line: string): Scan
    decreases |line|
  {
    if line == "" then s else Step(Fold(s, line[..|line| - 1]), line[|line| - 1])
  }

  function Parse(line: string): seq<string> {
    Fold(Start(), line).args
  }

  ghost predicate Consistent(s: Scan) {
    && s.space == !s.text && (s.quotes ==> s.text) && (s.text ==> s.args != [])
    && forall k :: 0 <= k < |s.args| ==> NUL !in s.args[k]
  }

  lemma {:induction false} FoldConsistent(s: Scan, line: string)
    requires Consistent(s) && NUL !in line
    ensures Consistent(Fold(s, line))
    decreases |line|
  {
    if line != "" { FoldConsistent(s, line[..|line| - 1]); }
  }

  lemma StartsConsistent(line: string)
    requires NUL !in line
    ensures forall k :: 0 <= k < |Parse(line)| ==> NUL !in Parse(line)[k]
  {
    FoldConsistent(Start(), line);
  }

  // ---------------------------------------------------------------- the program

  /** The arguments as they lie in the buffer. */
  ghost function Cells(args: seq<string>): string {
    if args == [] then "" else Cells(args[..|args| - 1]) + args[|args| - 1] + [NUL]
  }

  /** The buffer's contents: the last argument is closed unless text is still being added to it. */
  ghost function Written(s: Scan): string {
    if s.text && s.args != [] then Cells(s.args[..|s.args| - 1]) + s.args[|s.args| - 1] else Cells(s.args)
  }

  /** How much room the arguments take, whatever the line: the bound on what the program writes. */
  lemma {:induction false} WrittenFits(line: string)
    ensures |Written(Fold(Start(), line))| <= |line|
    ensures var s := Fold(Start(), line); 2 * |s.args| <= |line| + (if s.space then 0 else 1)
    ensures var s := Fold(Start(), line); s.space == !s.text && (s.quotes ==> s.text) && (s.text ==> s.args != [])
    decreases |line|
  {
    if line != "" {
      var s := Fold(Start(), line[..|line| - 1]);
      WrittenFits(line[..|line| - 1]);
      WrittenStep(s, line[|line| - 1]);
    }
  }

  /** What a step appends to the buffer. */
  ghost function Appended(s: Scan, a: char): string {
    if s.quotes then (if a == QUOTE then "" else [a])
    else if a == QUOTE then ""
    else if Blank(a) then (if s.text then [NUL] else "")
    else [a]
  }

  lemma WrittenInText(s: Scan, a: char)
    requires s.text && !s.space && s.args != []
    ensures Written(Step(s, a)) == Written(s) + Appended(s, a)
  {
    var t, n := Step(s, a), |s.args| - 1;
    assert t.args[..n] == s.args[..n] && |t.args| == n + 1;
    hide Cells;
    if t.text { assert t.args[n] == s.args[n] + Appended(s, a); } else { CellsLast(s.args); }
  }

  lemma CellsLast(args: seq<string>)
    requires args != []
    ensures Cells(args) == Cells(args[..|args| - 1]) + args[|args| - 1] + [NUL]
  {
  }

  lemma WrittenOutside(s: Scan, a: char)
    requires !s.text && s.space && !s.quotes
    ensures Written(Step(s, a)) == Written(s) + Appended(s, a)
    ensures !Blank(a) ==> Step(s, a).args[..|s.args|] == s.args && |Step(s, a).args| == |s.args| + 1
  {
    hide Cells;
    var t := Step(s, a);
    assert "" + [a] == [a] && (s.args + [""])[|s.args| := [a]] == s.args + [[a]];
    assert !Blank(a) ==> t.args == s.args + [Appended(s, a)];
  }

  lemma WrittenStep(s: Scan, a: char)
    requires s.space == !s.text && (s.quotes ==> s.text) && (s.text ==> s.args != [])
    ensures Written(Step(s, a)) == Written(s) + Appended(s, a)
    ensures !s.quotes && s.space && !Blank(a) ==> Step(s, a).args[..|s.args|] == s.args && |Step(s, a).args| == |s.args| + 1
  {
    hide Written, Step, Appended;
    if s.text { WrittenInText(s, a); } else { WrittenOutside(s, a); }
  }

  /** Pointers already stored stay right, and a new argument starts where the buffer ends. */
  lemma PointersStep(s: Scan, a: char)
    requires s.space == !s.text && (s.quotes ==> s.text) && (s.text ==> s.args != [])
    ensures |Step(s, a).args| == |s.args| + if !s.quotes && s.space && !Blank(a) then 1 else 0
    ensures forall k :: 0 <= k < |s.args| ==> Step(s, a).args[..k] == s.args[..k]
    ensures |Step(s, a).args| > |s.args| ==> Cells(Step(s, a).args[..|s.args|]) == Written(s)
  {
    assert |Step(s, a).args| > |s.args| ==> Step(s, a).args[..|s.args|] == s.args;
  }

  lemma WrittenEnds(s: Scan)
    requires s.text ==> s.args != []
    ensures Cells(s.args) <= Written(s) + [NUL]
  {
  }

  /** argv[k] points at the k-th argument, which is followed by a NUL. */
  ghost predicate PointsAt(buffer: seq<char>, offset: int, arg: string) {
    0 <= offset && offset + |arg| < |buffer| && buffer[offset..offset + |arg|] == arg && buffer[offset + |arg|] == NUL
  }

  lemma {:induction false} CellsPoint(args: seq<string>, buffer: seq<char>, k: nat)
    requires k < |args| && Cells(args) <= buffer
    ensures PointsAt(buffer, |Cells(args[..k])|, args[k])
    decreases |args|
  {
    var n := |args| - 1;
    if k < n {
      assert args[..n][..k] == args[..k];
      CellsPoint(args[..n], buffer, k);
    }
  }

  /** The variables of the loop when `s` has been split: the characters written and the pointers. */
  ghost predicate Layout(s: Scan, argv: seq<int>, buffer: seq<char>, count: nat, j: nat) {
    && s.space == !s.text && (s.quotes ==> s.text) && (s.text ==> s.args != [])
    && count == |s.args| <= |argv| && j == |Written(s)| <= |buffer| && buffer[..j] == Written(s)
    && forall k :: 0 <= k < count ==> argv[k] == |Cells(s.args[..k])|
  }

  ghost predicate Opens(s: Scan, a: char) {
    !s.quotes && s.space && !Blank(a)
  }

  lemma LayoutStep(s: Scan, a: char, argv: seq<int>, buffer: seq<char>, count: nat, j: nat)
    requires Layout(s, argv, buffer, count, j) && count < |argv| && j < |buffer|
    ensures Layout(Step(s, a), PointersAfter(s, a, argv, count, j), BufferAfter(s, a, buffer, j),
                   CountAfter(s, a, count), j + |Appended(s, a)|)
  {
    WrittenStep(s, a);
    PointersStep(s, a);
    FlagsStep(s, a);
    hide Written, Cells, Step;
  }

  lemma FlagsStep(s: Scan, a: char)
    requires s.space == !s.text && (s.quotes ==> s.text) && (s.text ==> s.args != [])
    ensures var t := Step(s, a); t.space == !t.text && (t.quotes ==> t.text) && (t.text ==> t.args != [])
  {
  }

  lemma LayoutStarts(line: string, argv: seq<int>, buffer: seq<char>)
    ensures Layout(Start(), argv, buffer, 0, 0) && Fold(Start(), line[..0]) == Start()
    ensures Start() == Scan([], false, false, true)
  {
  }

  lemma LayoutEnds(s: Scan, argv: seq<int>, buffer: seq<char>, count: nat, j: nat)
    requires Layout(s, argv, buffer, count, j) && j < |buffer| && buffer[j] == NUL
    ensures forall k :: 0 <= k < count ==> PointsAt(buffer, argv[k], s.args[k])
  {
    WrittenEnds(s);
    assert buffer[..j + 1] == Written(s) + [NUL];
    assert Cells(s.args) <= buffer;
    hide Written, Cells, PointsAt;
    forall k | 0 <= k < count ensures PointsAt(buffer, argv[k], s.args[k]) {
      CellsPoint(s.args, buffer, k);
    }
  }

  lemma FoldStep(line: string, i: nat)
    requires i < |line|
    ensures Fold(Start(), line[..i + 1]) == Step(Fold(Start(), line[..i]), line[i])
  {
    assert line[..i + 1][..i] == line[..i];
  }

  ghost function PointersAfter(s: Scan, a: char, argv: seq<int>, count: nat, j: nat): seq<int>
    requires count < |argv|
  {
    if Opens(s, a) then argv[count := j] else argv
  }

  ghost function BufferAfter(s: Scan, a: char, buffer: seq<char>, j: nat): seq<char>
    requires j < |buffer|
  {
    if Appended(s, a) != "" then buffer[j := Appended(s, a)[0]] else buffer
  }

  ghost function CountAfter(s: Scan, a: char, count: nat): nat {
    if Opens(s, a) then count + 1 else count
  }

  /** One turn of the loop. */
  method Turn(a: char, argv: array<int>, buffer: array<char>, count: nat, j: nat, quotes: bool, text: bool, space: bool,
              ghost s: Scan)
    returns (count': nat, j': nat, quotes': bool, text': bool, space': bool)
    requires count < argv.Length && j < buffer.Length
    requires quotes == s.quotes && text == s.text && space == s.space
    modifies argv, buffer
    ensures argv[..] == PointersAfter(s, a, old(argv[..]), count, j) && count' == CountAfter(s, a, count)
    ensures buffer[..] == BufferAfter(s, a, old(buffer[..]), j) && j' == j + |Appended(s, a)|
    ensures quotes' == Step(s, a).quotes && text' == Step(s, a).text && space' == Step(s, a).space
  {
    count', j', quotes', text', space' := count, j, quotes, text, space;
    if quotes {
      if a == QUOTE {
        quotes' := false;
      } else {
        buffer[j] := a;
        j' := j + 1;
      }
    } else if a == QUOTE {
      quotes' := true;
      text' := true;
      if space {
        argv[count] := j;
        count' := count + 1;
      }
      space' := false;
    } else if Blank(a) {
      if text {
        buffer[j] := NUL;
        j' := j + 1;
      }
      text' := false;
      space' := true;
    } else {
      text' := true;
      if space {
        argv[count] := j;
        count' := count + 1;
      }
      buffer[j] := a;
      j' := j + 1;
      space' := false;
    }
  }

  /** The loop over the line. Every write is inside the two arrays. */
  method Split(cmdline: string, argv: array<int>, buffer: array<char>) returns (count: nat, j: nat)
    requires 2 * argv.Length > |cmdline| + 2 && buffer.Length == |cmdline| + 2
    modifies argv, buffer
    ensures Layout(Fold(Start(), cmdline), argv[..], buffer[..], count, j)
  {
    var quotes, text, space := false, false, true;
    count := 0;
    argv[count] := 0;
    var i := 0;
    j := 0;
    ghost var s := Start();
    hide Start, Fold, Written, Cells, Step, Layout, Appended, PointersAfter, BufferAfter, CountAfter;
    LayoutStarts(cmdline, argv[..], buffer[..]);
    while i < |cmdline|
      invariant 0 <= i <= |cmdline| && s == Fold(Start(), cmdline[..i])
      invariant quotes == s.quotes && text == s.text && space == s.space
      invariant Layout(s, argv[..], buffer[..], count, j)
    {
      TurnKeeps(cmdline, i, s, argv[..], buffer[..], count, j);
      count, j, quotes, text, space := Turn(cmdline[i], argv, buffer, count, j, quotes, text, space, s);
      s := Step(s, cmdline[i]);
      i := i + 1;
    }
    assert cmdline[..i] == cmdline;
  }

  /** One allocation holds `(len + 2) / 2 + 1` pointers and `len + 2` characters; the pointers point at
      the arguments of `Parse`. */
  method CommandLineToArgv(cmdline: string) returns (argv: array<int>, buffer: array<char>, argc: nat)
    requires NUL !in cmdline
    ensures fresh(argv) && fresh(buffer)
    ensures argv.Length == (|cmdline| + 2) / 2 + 1 && buffer.Length == |cmdline| + 2
    ensures argc == |Parse(cmdline)| < argv.Length && argv[argc] == NULL
    ensures forall k :: 0 <= k < argc ==>
              PointsAt(buffer[..], argv[k], Parse(cmdline)[k]) && NUL !in Parse(cmdline)[k]
  {
    StartsConsistent(cmdline);
    argv := new int[(|cmdline| + 2) / 2 + 1];
    buffer := new char[|cmdline| + 2];
    var j;
    argc, j := Split(cmdline, argv, buffer);
    ghost var s := Fold(Start(), cmdline);
    hide Fold, Written, Cells, Step, Layout, PointsAt;
    assert cmdline[..|cmdline|] == cmdline;
    Room(cmdline, |cmdline|, s, argv[..], buffer[..], argc, j);
    LayoutFrame(s, argv[..], buffer[..], argc, j, NUL);
    ghost var buffer0, argv0 := buffer[..], argv[..];
    buffer[j] := NUL;
    assert buffer[..] == buffer0[j := NUL];
    LayoutEnds(s, argv0, buffer[..], argc, j);
    argv[argc] := NULL;
  }

  lemma LayoutFrame(s: Scan, argv: seq<int>, buffer: seq<char>, count: nat, j: nat, c: char)
    requires Layout(s, argv, buffer, count, j) && j < |buffer|
    ensures Layout(s, argv, buffer[j := c], count, j)
  {
  }

  /** However the line goes on, there is room for the next pointer and the next character. */
  lemma Room(line: string, i: nat, s: Scan, argv: seq<int>, buffer: seq<char>, count: nat, j: nat)
    requires i <= |line| && s == Fold(Start(), line[..i]) && Layout(s, argv, buffer, count, j)
    requires 2 * |argv| > |line| + 2 && |buffer| == |line| + 2
    ensures count == |s.args| < |argv| && j <= i && j < |buffer|
  {
    WrittenFits(line[..i]);
  }

  /** One turn has room, and keeps the layout. */
  lemma TurnKeeps(line: string, i: nat, s: Scan, argv: seq<int>, buffer: seq<char>, count: nat, j: nat)
    requires i < |line| && s == Fold(Start(), line[..i]) && Layout(s, argv, buffer, count, j)
    requires 2 * |argv| > |line| + 2 && |buffer| == |line| + 2
    ensures count < |argv| && j < |buffer|
    ensures Step(s, line[i]) == Fold(Start(), line[..i + 1])
    ensures Layout(Step(s, line[i]), PointersAfter(s, line[i], argv, count, j), BufferAfter(s, line[i], buffer, j),
                   CountAfter(s, line[i], count), j + |Appended(s, line[i])|)
  {
    hide Start, Fold, Layout, Step, Appended, PointersAfter, BufferAfter, CountAfter;
    Room(line, i, s, argv, buffer, count, j);
    FoldStep(line, i);
    LayoutStep(s, line[i], argv, buffer, count, j);
  }

  // ---------------------------------------------------------------- bounds

  ghost function Bytes(args: seq<string>): nat {
    if args == [] then 0 else Bytes(args[..|args| - 1]) + |args[|args| - 1]| + 1
  }

  lemma {:induction false} CellsBytes(args: seq<string>)
    ensures |Cells(args)| == Bytes(args)
  {
    if args != [] { CellsBytes(args[..|args| - 1]); }
  }

  /** For every line: no more than half its length, rounded up, arguments, and no more than its length
      and one bytes for them with their NULs. */
  lemma ArgumentsFit(line: string)
    ensures |Parse(line)| <= (|line| + 1) / 2
    ensures Bytes(Parse(line)) <= |line| + 1
  {
    WrittenFits(line);
    WrittenEnds(Fold(Start(), line));
    CellsBytes(Parse(line));
  }

  // ---------------------------------------------------------------- the round trip

  /** An argument as it is printed: in quotes, or bare. */
  datatype Printed = Printed(arg: string, quoted: bool)

  /** Only an argument that is not empty and holds no blanks may be printed bare. */
  ghost predicate Printable(p: Printed) {
    p.quoted || (p.arg != "" && forall i :: 0 <= i < |p.arg| ==> !Blank(p.arg[i]))
  }

  function Print(p: Printed): string {
    if p.quoted then [QUOTE] + p.arg + [QUOTE] else p.arg
  }

  /** Printed arguments separated by single spaces. */
  function PrintAll(ps: seq<Printed>): string {
    if ps == [] then ""
    else if |ps| == 1 then Print(ps[0])
    else PrintAll(ps[..|ps| - 1]) + [' '] + Print(ps[|ps| - 1])
  }

  function Args(ps: seq<Printed>): (args: seq<string>)
    ensures |args| == |ps| && forall k :: 0 <= k < |ps| ==> args[k] == ps[k].arg
  {
    seq(|ps|, k requires 0 <= k < |ps| => ps[k].arg)
  }

  lemma {:induction false} FoldAppends(s: Scan, a: string, b: string)
    ensures Fold(s, a + b) == Fold(Fold(s, a), b)
    decreases |b|
  {
    if b == "" {
      assert a + b == a;
    } else {
      var n := |b| - 1;
      assert (a + b)[..|a + b| - 1] == a + b[..n];
      FoldAppends(s, a, b[..n]);
    }
  }

  lemma FoldOne(s: Scan, a: char)
    ensures Fold(s, [a]) == Step(s, a)
  {
    assert [a][..0] == "" && Fold(s, "") == s;
  }

  /** Text that is copied: anything but a quote inside quotes, neither quotes nor blanks outside. */
  lemma {:induction false} Copied(args: seq<string>, quotes: bool, last: string, text: string)
    requires QUOTE !in text && (!quotes ==> forall i :: 0 <= i < |text| ==> !Blank(text[i]))
    ensures Fold(Scan(args + [last], quotes, true, false), text) == Scan(args + [last + text], quotes, true, false)
    decreases |text|
  {
    if text == "" {
      assert last + text == last;
    } else {
      var n := |text| - 1;
      Copied(args, quotes, last, text[..n]);
      assert text[..n] + [text[n]] == text;
      assert last + text[..n] + [text[n]] == last + text;
    }
  }

  lemma PrintedIsRead(args: seq<string>, p: Printed)
    requires Printable(p) && QUOTE !in p.arg
    ensures Fold(Scan(args, false, false, true), Print(p)) == Scan(args + [p.arg], false, true, false)
  {
    var s := Scan(args, false, false, true);
    if p.quoted {
      FoldAppends(s, [QUOTE] + p.arg, [QUOTE]);
      FoldAppends(s, [QUOTE], p.arg);
      FoldOne(s, QUOTE);
      Copied(args, true, "", p.arg);
      assert "" + p.arg == p.arg;
      FoldOne(Scan(args + [p.arg], true, true, false), QUOTE);
    } else {
      var c, rest := p.arg[0], p.arg[1..];
      assert [c] + rest == p.arg;
      FoldAppends(s, [c], rest);
      FoldOne(s, c);
      assert "" + [c] == [c] && (args + [""])[|args| := [c]] == args + [[c]];
      Copied(args, false, [c], rest);
    }
  }

  lemma AfterBlank(args: seq<string>)
    ensures Step(Scan(args, false, true, false), ' ') == Scan(args, false, false, true)
  {
  }

  lemma {:induction false} AllAreRead(ps: seq<Printed>)
    requires ps != [] && forall k :: 0 <= k < |ps| ==> Printable(ps[k]) && QUOTE !in ps[k].arg
    ensures Fold(Start(), PrintAll(ps)) == Scan(Args(ps), false, true, false)
    decreases |ps|
  {
    hide Fold, Step, Print, Printable;
    var n := |ps| - 1;
    if n == 0 {
      assert Scan([], false, false, true) == Start();
      PrintedIsRead([], ps[0]);
      assert [] + [ps[0].arg] == Args(ps);
    } else {
      AllAreRead(ps[..n]);
      hide Start;
      assert PrintAll(ps) == PrintAll(ps[..n]) + [' '] + Print(ps[n]);
      FoldAppends(Start(), PrintAll(ps[..n]) + [' '], Print(ps[n]));
      FoldAppends(Start(), PrintAll(ps[..n]), [' ']);
      FoldOne(Scan(Args(ps[..n]), false, true, false), ' ');
      AfterBlank(Args(ps[..n]));
      PrintedIsRead(Args(ps[..n]), ps[n]);
      assert Args(ps[..n]) + [ps[n].arg] == Args(ps);
    }
  }

  ghost predicate NoQuotes(args: seq<string>) {
    forall k :: 0 <= k < |args| ==> QUOTE !in args[k]
  }

  lemma StepDropsQuotes(s: Scan, a: char)
    requires NoQuotes(s.args)
    ensures NoQuotes(Step(s, a).args)
  {
  }

  /** A quote is never part of an argument. */
  lemma {:induction false} QuotesAreDropped(line: string)
    ensures NoQuotes(Parse(line))
    decreases |line|
  {
    if line != "" {
      QuotesAreDropped(line[..|line| - 1]);
      StepDropsQuotes(Fold(Start(), line[..|line| - 1]), line[|line| - 1]);
    }
  }

  /** Splitting what was printed gives the arguments back, exactly when none holds a quote. */
  lemma RoundTrip(ps: seq<Printed>)
    requires forall k :: 0 <= k < |ps| ==> Printable(ps[k])
    ensures Parse(PrintAll(ps)) == Args(ps) <==> NoQuotes(Args(ps))
  {
    if NoQuotes(Args(ps)) {
      forall k | 0 <= k < |ps| ensures QUOTE !in ps[k].arg { assert Args(ps)[k] == ps[k].arg; }
      if ps == [] { assert Args(ps) == []; } else { AllAreRead(ps); }
    } else {
      QuotesAreDropped(PrintAll(ps));
    }
  }

  // ---------------------------------------------------------------- any white space between arguments

  ghost predicate Gap(s: string) {
    forall c :: c in s ==> c in " \t\n\r"
  }

  /** What may be printed bare holds none of the four. */
  ghost predicate Safe(p: Printed) {
    p.quoted || (p.arg != "" && forall c :: c in p.arg ==> c !in " \t\n\r")
  }

  /** The arguments with a gap before, after and between them. */
  function Spaced(ps: seq<Printed>, gaps: seq<string>): string
    requires |gaps| == |ps| + 1
  {
    if ps == [] then gaps[0]
    else Spaced(ps[..|ps| - 1], gaps[..|ps|]) + Print(ps[|ps| - 1]) + gaps[|ps|]
  }

  lemma FourBlanks(c: char)
    ensures Blank(c) <==> c in " \t\n\r"
  {
  }

  lemma {:induction false} GapIsRead(s: Scan, gap: string)
    requires Gap(gap) && !s.quotes
    ensures Fold(s, gap) == if gap == "" then s else s.(text := false, space := true)
    decreases |gap|
  {
    if gap != "" {
      var n := |gap| - 1;
      assert gap[n] in gap;
      FourBlanks(gap[n]);
      GapIsRead(s, gap[..n]);
    }
  }

  lemma SafePrints(p: Printed)
    requires Safe(p)
    ensures Printable(p)
  {
    if !p.quoted {
      forall i | 0 <= i < |p.arg| ensures !Blank(p.arg[i]) { FourBlanks(p.arg[i]); }
    }
  }

  lemma {:induction false} SpacedIsRead(ps: seq<Printed>, gaps: seq<string>)
    requires |gaps| == |ps| + 1 && (forall k :: 0 <= k < |gaps| ==> Gap(gaps[k]))
    requires forall k :: 0 < k < |ps| ==> gaps[k] != ""
    requires forall k :: 0 <= k < |ps| ==> Safe(ps[k]) && QUOTE !in ps[k].arg
    ensures Fold(Start(), Spaced(ps, gaps))
            == Scan(Args(ps), false, ps != [] && gaps[|ps|] == "", ps == [] || gaps[|ps|] != "")
    decreases |ps|
  {
    hide Fold, Step, Print, Printable, Gap, Safe;
    if ps == [] {
      assert Start() == Scan([], false, false, true);
      GapIsRead(Start(), gaps[0]);
      assert Args(ps) == [];
    } else {
      var n := |ps| - 1;
      var before := Spaced(ps[..n], gaps[..n + 1]);
      SpacedIsRead(ps[..n], gaps[..n + 1]);
      SafePrints(ps[n]);
      assert Spaced(ps, gaps) == before + Print(ps[n]) + gaps[n + 1];
      hide Start, Spaced;
      FoldAppends(Start(), before + Print(ps[n]), gaps[n + 1]);
      FoldAppends(Start(), before, Print(ps[n]));
      PrintedIsRead(Args(ps[..n]), ps[n]);
      GapIsRead(Scan(Args(ps[..n]) + [ps[n].arg], false, true, false), gaps[n + 1]);
      assert Args(ps[..n]) + [ps[n].arg] == Args(ps);
    }
  }

  /** Any white space may stand around the arguments, and must between them; the splitter gives them back,
      exactly when none holds a quote. */
  lemma RoundTripWithGaps(ps: seq<Printed>, gaps: seq<string>)
    requires |gaps| == |ps| + 1 && (forall k :: 0 <= k < |gaps| ==> Gap(gaps[k]))
    requires forall k :: 0 < k < |ps| ==> gaps[k] != ""
    requires forall k :: 0 <= k < |ps| ==> Safe(ps[k])
    ensures Parse(Spaced(ps, gaps)) == Args(ps) <==> NoQuotes(Args(ps))
  {
    hide Gap, Safe, Spaced, Print;
    if NoQuotes(Args(ps)) {
      forall k | 0 <= k < |ps| ensures QUOTE !in ps[k].arg { assert Args(ps)[k] == ps[k].arg; }
      SpacedIsRead(ps, gaps);
    } else {
      QuotesAreDropped(Spaced(ps, gaps));
    }
  }

  // ---------------------------------------------------------------- the service's own command line

  /** The command line the service is installed with. */
  function ServicePath(path: string, config: string): string {
    [QUOTE] + path + [QUOTE] + " --config " + [QUOTE] + config + [QUOTE]
  }

  /** It is split into the program, the option and the file, blanks in their paths and all. */
  lemma ServiceStarts(path: string, config: string)
    ensures Parse(ServicePath(path, config)) == [path, "--config", config] <==> QUOTE !in path && QUOTE !in config
  {
    hide Parse, PrintAll, ServicePath, NoQuotes;
    var ps := [Printed(path, true), Printed("--config", false), Printed(config, true)];
    ServiceIsPrinted(path, config);
    assert Args(ps) == [path, "--config", config];
    assert Printable(ps[1]);
    RoundTrip(ps);
    ThreeQuotes(path, "--config", config);
  }

  lemma ServiceIsPrinted(path: string, config: string)
    ensures PrintAll([Printed(path, true), Printed("--config", false), Printed(config, true)]) == ServicePath(path, config)
  {
    var ps := [Printed(path, true), Printed("--config", false), Printed(config, true)];
    assert ps[..2] == [ps[0], ps[1]] && ps[..2][..1] == [ps[0]];
    assert PrintAll([ps[0]]) == Print(ps[0]);
    assert PrintAll(ps[..2]) == Print(ps[0]) + [' '] + Print(ps[1]);
  }

  lemma ThreeQuotes(a: string, b: string, c: string)
    ensures NoQuotes([a, b, c]) <==> QUOTE !in a && QUOTE !in b && QUOTE !in c
  {
    var args := [a, b, c];
    assert args[0] == a && args[1] == b && args[2] == c;
  }
}
