/** The condition that Query puts into its statement selects the rows that were asked for, exactly
    when no filter has an empty value part. */
module QueryMeaning {
  import opened Utility
  import opened SqlCondition
  import opened Query
  import S = SelectModel

  // ---------------------------------------------------------------- what is asked for

  function Pattern(key: string, alt: string): string {
    "%" + key + "=" + alt + "%"
  }

  ghost predicate Matches(key: string, alts: seq<string>, row: Row) {
    exists j :: 0 <= j < |alts| && row.like(Pattern(key, alts[j]))
  }

  /** The time range, and for each well-formed filter one of its alternatives. */
  ghost predicate Asked(filters: seq<string>, row: Row) {
    && row.after && row.before
    && forall k :: 0 <= k < |filters| && WellFormed(filters[k]) ==>
         Matches(KeyValue(filters[k])[0], Alternatives(filters[k]), row)
  }

  /** A value part as in `key==`: nothing at all between the second and the third delimiter. */
  predicate EmptyValue(filter: string) {
    WellFormed(filter) && KeyValue(filter)[1] == ""
  }

  ghost predicate AllValues(filters: seq<string>) {
    forall k :: 0 <= k < |filters| ==> !EmptyValue(filters[k])
  }

  predicate Plain(s: string) {
    APOSTROPHE !in s
  }

  ghost predicate AllPlain(ss: seq<string>) {
    forall k :: 0 <= k < |ss| ==> Plain(ss[k])
  }

  lemma {:induction false} SplitPlain(s: string, delim: char, start: nat)
    requires Plain(s) && start <= |s|
    ensures AllPlain(SplitFrom(s, delim, start))
    decreases |s| - start
  {
    var pos := FirstFrom(s, delim, start);
    if pos != -1 { SplitPlain(s, delim, pos + 1); }
  }

  lemma PartsPlain(filter: string)
    requires Plain(filter)
    ensures AllPlain(KeyValue(filter)) && (WellFormed(filter) ==> AllPlain(Alternatives(filter)))
  {
    SplitPlain(Replaced(filter), '=', 0);
    if WellFormed(filter) { SplitPlain(KeyValue(filter)[1], '|', 0); }
  }

  // ---------------------------------------------------------------- tokens

  function PrependAll(ts: seq<Token>, rest: Option<seq<Token>>): Option<seq<Token>> {
    if rest == None then None else Some(ts + rest.value)
  }

  lemma PrependJoins(a: seq<Token>, b: seq<Token>, rest: Option<seq<Token>>)
    ensures PrependAll(a, PrependAll(b, rest)) == PrependAll(a + b, rest)
  {
    if rest.Some? { assert a + (b + rest.value) == a + b + rest.value; }
  }

  lemma PrependTwo(t: Token, u: Token, rest: Option<seq<Token>>)
    ensures Prepend(t, Prepend(u, rest)) == PrependAll([t, u], rest)
  {
    if rest.Some? { assert [t] + ([u] + rest.value) == [t, u] + rest.value; }
  }

  lemma PrependFive(t: Token, u: Token, v: Token, w: Token, x: Token, rest: Option<seq<Token>>)
    ensures Prepend(t, Prepend(u, Prepend(v, Prepend(w, Prepend(x, rest))))) == PrependAll([t, u, v, w, x], rest)
  {
    PrependTwo(w, x, rest);
    PrependTwo(u, v, PrependAll([w, x], rest));
    PrependJoins([u, v], [w, x], rest);
    PrependJoins([t], [u, v] + [w, x], rest);
    assert [t] + ([u, v] + [w, x]) == [t, u, v, w, x];
  }

  lemma LexWord(word: string, t: Token, s: string)
    requires word != "" && First(word + s) == Word(t, |word|)
    ensures Lex(word + s) == Prepend(t, Lex(s))
  {
    hide First;
    assert (word + s)[|word|..] == s;
  }

  lemma LexSpace(s: string)
    ensures Lex(" " + s) == Lex(s)
  {
    assert (" " + s)[1..] == s;
  }

  lemma LexOpen(s: string)
    ensures Lex("(" + s) == Prepend(LPAR, Lex(s))
  {
    LexWord("(", LPAR, s);
  }

  lemma LexClose(s: string)
    ensures Lex(")" + s) == Prepend(RPAR, Lex(s))
  {
    LexWord(")", RPAR, s);
  }

  lemma LexAnd(s: string)
    ensures Lex("and" + s) == Prepend(AND, Lex(s))
  {
    assert ("and" + s)[0] == 'a';
    LexWord("and", AND, s);
  }

  lemma LexOr(s: string)
    ensures Lex("or" + s) == Prepend(OR, Lex(s))
  {
    assert ("or" + s)[0] == 'o';
    LexWord("or", OR, s);
  }

  lemma LexFrom(s: string)
    ensures Lex(FROM_TEXT + s) == Prepend(FROM, Lex(s))
  {
    assert (FROM_TEXT + s)[0] == 't';
    LexWord(FROM_TEXT, FROM, s);
  }

  lemma LexTo(s: string)
    ensures Lex(TO_TEXT + s) == Prepend(TO, Lex(s))
  {
    assert (TO_TEXT + s)[0] == 't' && (TO_TEXT + s)[10] == '<' && FROM_TEXT[10] == '>';
    LexWord(TO_TEXT, TO, s);
  }

  lemma {:induction false} QuotedIs(p: string, s: string)
    requires Plain(p)
    ensures Quoted(p + [APOSTROPHE] + s) == |p|
    decreases |p|
  {
    if p != "" {
      assert (p + [APOSTROPHE] + s)[1..] == p[1..] + [APOSTROPHE] + s;
      QuotedIs(p[1..], s);
    }
  }

  lemma LikeStarts(rest: string)
    ensures var t := LIKE_TEXT + rest;
            && Starts(t, LIKE_TEXT) && !Starts(t, FROM_TEXT) && !Starts(t, TO_TEXT) && !Starts(t, "and") && !Starts(t, "or")
            && t[0] == 't' && |LIKE_TEXT| > 0
  {
    var t := LIKE_TEXT + rest;
    assert t[0] == 't' && t[1] == 'a';
    assert FROM_TEXT[1] == 'i' && TO_TEXT[1] == 'i' && "and"[0] == 'a' && "or"[0] == 'o';
  }

  lemma FirstLike(p: string, s: string)
    requires Plain(p)
    ensures First(LIKE_TEXT + (p + [APOSTROPHE] + s)) == Word(LIKE(p), |LIKE_TEXT| + |p| + 1)
  {
    var rest := p + [APOSTROPHE] + s;
    LikeStarts(rest);
    hide LIKE_TEXT, FROM_TEXT, TO_TEXT, Starts, Quoted;
    QuotedIs(p, s);
    assert (LIKE_TEXT + rest)[|LIKE_TEXT|..] == rest && rest[..|p|] == p;
  }

  lemma LexLike(p: string, s: string)
    requires Plain(p)
    ensures Lex(LIKE_TEXT + p + [APOSTROPHE] + s) == Prepend(LIKE(p), Lex(s))
  {
    hide LIKE_TEXT, Lex, First;
    FirstLike(p, s);
    var word := LIKE_TEXT + p + [APOSTROPHE];
    assert word + s == LIKE_TEXT + (p + [APOSTROPHE] + s);
    LexWord(word, LIKE(p), s);
  }

  lemma LikeTextIs(key: string, alt: string)
    ensures LikeText(key, alt) == LIKE_TEXT + Pattern(key, alt) + [APOSTROPHE]
  {
    assert LIKE_OPEN == LIKE_TEXT + "%" && LIKE_CLOSE == "%" + [APOSTROPHE];
  }

  lemma LexLikeOf(key: string, alt: string, s: string)
    requires Plain(key) && Plain(alt)
    ensures Lex(LikeText(key, alt) + s) == Prepend(LIKE(Pattern(key, alt)), Lex(s))
  {
    hide Lex, LIKE_TEXT, LikeText, Quoted;
    LikeTextIs(key, alt);
    LexLike(Pattern(key, alt), s);
  }

  function AltTokens(key: string, alts: seq<string>): seq<Token>
    requires alts != []
  {
    var n := |alts| - 1;
    if n == 0 then [LIKE(Pattern(key, alts[0]))]
    else AltTokens(key, alts[..n]) + [OR, LIKE(Pattern(key, alts[n]))]
  }

  lemma LexOrSeparator(s: string)
    ensures Lex(OR_SEPARATOR + s) == Prepend(OR, Lex(s))
  {
    assert OR_SEPARATOR + s == " " + ("or" + (" " + s));
    LexSpace("or" + (" " + s));
    LexOr(" " + s);
    LexSpace(s);
    hide Lex;
  }

  lemma {:induction false} LexAlts(key: string, alts: seq<string>, s: string)
    requires alts != [] && Plain(key) && AllPlain(alts)
    ensures Lex(OrText(key, alts) + s) == PrependAll(AltTokens(key, alts), Lex(s))
    decreases |alts|
  {
    hide Lex, LikeText, Pattern, OR_SEPARATOR;
    var n := |alts| - 1;
    LexLikeOf(key, alts[n], s);
    if n > 0 {
      var last := LikeText(key, alts[n]) + s;
      LexOrSeparator(last);
      LexAlts(key, alts[..n], OR_SEPARATOR + last);
      PrependTwo(OR, LIKE(Pattern(key, alts[n])), Lex(s));
      PrependJoins(AltTokens(key, alts[..n]), [OR, LIKE(Pattern(key, alts[n]))], Lex(s));
      assert OrText(key, alts) + s == OrText(key, alts[..n]) + (OR_SEPARATOR + last);
      assert AltTokens(key, alts) == AltTokens(key, alts[..n]) + [OR, LIKE(Pattern(key, alts[n]))];
    }
  }

  function FilterTokens(filter: string): seq<Token>
    requires WellFormed(filter)
  {
    var key, alts := KeyValue(filter)[0], Alternatives(filter);
    if alts != [] then [AND, LPAR] + AltTokens(key, alts) + [RPAR] else [LIKE(Pattern(key, KeyValue(filter)[1]))]
  }

  function AllTokens(filters: seq<string>): seq<Token> {
    if filters == [] then []
    else
      var filter := filters[|filters| - 1];
      AllTokens(filters[..|filters| - 1]) + if WellFormed(filter) then FilterTokens(filter) else []
  }

  const RANGE_TOKENS := [LPAR, FROM, AND, TO, RPAR]

  lemma LexAndOpen(s: string)
    ensures Lex(AND_OPEN + s) == Prepend(AND, Prepend(LPAR, Lex(s)))
  {
    assert AND_OPEN + s == "and" + (" " + ("(" + s));
    LexAnd(" " + ("(" + s));
    LexSpace("(" + s);
    LexOpen(s);
    hide Lex;
  }

  lemma LexFilter(filter: string, s: string)
    requires WellFormed(filter) && Plain(filter)
    ensures Lex(" " + ConditionOf(filter) + s) == PrependAll(FilterTokens(filter), Lex(s))
  {
    hide Lex, LikeText, Pattern, KeyValue, Alternatives, OrText, AltTokens, AND_OPEN;
    PartsPlain(filter);
    var key, alts := KeyValue(filter)[0], Alternatives(filter);
    var text := ConditionOf(filter) + s;
    assert " " + ConditionOf(filter) + s == " " + text;
    LexSpace(text);
    if alts != [] {
      assert text == AND_OPEN + (OrText(key, alts) + (")" + s));
      LexAndOpen(OrText(key, alts) + (")" + s));
      LexAlts(key, alts, ")" + s);
      LexClose(s);
      PrependTwo(AND, LPAR, PrependAll(AltTokens(key, alts), PrependAll([RPAR], Lex(s))));
      PrependJoins(AltTokens(key, alts), [RPAR], Lex(s));
      PrependJoins([AND, LPAR], AltTokens(key, alts) + [RPAR], Lex(s));
      assert [AND, LPAR] + (AltTokens(key, alts) + [RPAR]) == FilterTokens(filter);
    } else {
      LexLikeOf(key, KeyValue(filter)[1], s);
    }
  }

  lemma Regroup(a: string, b: string, c: string, d: string, e: string, f: string, g: string, s: string)
    ensures a + b + c + d + e + f + g + s == a + (b + (c + (d + (e + (f + (g + s))))))
  {
    assert e + f + g + s == e + (f + (g + s));
    assert a + b + c + d + (e + f + g + s) == a + (b + (c + (d + (e + f + g + s))));
    assert a + b + c + d + e + f + g + s == a + b + c + d + (e + f + g + s);
  }

  lemma LexRange(s: string)
    ensures Lex(RANGE + s) == PrependAll(RANGE_TOKENS, Lex(s))
  {
    hide Lex, FROM_TEXT, TO_TEXT;
    Regroup("(", FROM_TEXT, " ", "and", " ", TO_TEXT, ")", s);
    var s4 := ")" + s;
    var s3 := TO_TEXT + s4;
    var s2 := "and" + (" " + s3);
    var s1 := FROM_TEXT + (" " + s2);
    assert RANGE + s == "(" + s1;
    LexOpen(s1);
    LexFrom(" " + s2);
    LexSpace(s2);
    LexAnd(" " + s3);
    LexSpace(s3);
    LexTo(s4);
    LexClose(s);
    PrependFive(LPAR, FROM, AND, TO, RPAR, Lex(s));
  }

  lemma JoinLast(ps: seq<string>, last: string, s: string)
    requires ps != []
    ensures S.JoinWith(ps + [last], " ") + s == S.JoinWith(ps, " ") + (" " + last + s)
  {
    assert (ps + [last])[..|ps|] == ps;
  }

  /** The whole condition, read token by token. */
  lemma {:induction false} LexConditions(filters: seq<string>, s: string)
    requires AllPlain(filters)
    ensures Lex(S.JoinWith([RANGE] + Conditions(filters), " ") + s) == PrependAll(RANGE_TOKENS + AllTokens(filters), Lex(s))
    decreases |filters|
  {
    hide Lex, RANGE, RANGE_TOKENS, FilterTokens, ConditionOf, WellFormed;
    if filters == [] {
      assert [RANGE] + Conditions(filters) == [RANGE];
      LexRange(s);
      assert RANGE_TOKENS + [] == RANGE_TOKENS;
    } else {
      var n := |filters| - 1;
      var before := [RANGE] + Conditions(filters[..n]);
      if WellFormed(filters[n]) {
        var last := ConditionOf(filters[n]);
        var w := [RANGE] + Conditions(filters);
        assert w == before + [last];
        JoinLast(before, last, s);
        hide S.JoinWith;
        LexConditions(filters[..n], " " + last + s);
        LexFilter(filters[n], s);
        PrependJoins(RANGE_TOKENS + AllTokens(filters[..n]), FilterTokens(filters[n]), Lex(s));
        assert RANGE_TOKENS + AllTokens(filters) == (RANGE_TOKENS + AllTokens(filters[..n])) + FilterTokens(filters[n]);
      } else {
        assert Conditions(filters) == Conditions(filters[..n]) && AllTokens(filters) == AllTokens(filters[..n]);
        LexConditions(filters[..n], s);
      }
    }
  }

  // ---------------------------------------------------------------- the expression

  function OrAll(key: string, alts: seq<string>): Expr
    requires alts != []
  {
    var n := |alts| - 1;
    if n == 0 then Like(Pattern(key, alts[0])) else Or(OrAll(key, alts[..n]), Like(Pattern(key, alts[n])))
  }

  function AndAll(filters: seq<string>): Expr {
    if filters == [] then And(From, To)
    else
      var n := |filters| - 1;
      if WellFormed(filters[n]) && Alternatives(filters[n]) != []
      then And(AndAll(filters[..n]), OrAll(KeyValue(filters[n])[0], Alternatives(filters[n])))
      else AndAll(filters[..n])
  }

  lemma {:induction false} ParseAlts(key: string, alts: seq<string>, more: seq<Token>)
    requires alts != [] && (more != [] ==> more[0] != AND)
    ensures ParseOr(AltTokens(key, alts) + more) == OrTail(OrAll(key, alts), more)
    decreases |alts|
  {
    var n := |alts| - 1;
    var like := LIKE(Pattern(key, alts[n]));
    hide Pattern;
    assert ParseAnd([like] + more) == Parsed(Like(like.pattern), more) by {
      assert ([like] + more)[1..] == more;
      assert ParsePrimary([like] + more) == Parsed(Like(like.pattern), more);
    }
    if n > 0 {
      var rest := [OR, like] + more;
      ParseAlts(key, alts[..n], rest);
      assert AltTokens(key, alts) + more == AltTokens(key, alts[..n]) + rest;
      assert rest[1..] == [like] + more;
    }
  }

  /** A bracketed filter is read as one operand of the conjunction. */
  lemma ParseFilter(e: Expr, key: string, alts: seq<string>, more: seq<Token>)
    requires alts != []
    ensures AndTail(e, [AND, LPAR] + AltTokens(key, alts) + [RPAR] + more) == AndTail(And(e, OrAll(key, alts)), more)
  {
    var inner := AltTokens(key, alts) + ([RPAR] + more);
    var ts := [AND, LPAR] + AltTokens(key, alts) + [RPAR] + more;
    assert ts == [AND] + ([LPAR] + inner) && ts[1..] == [LPAR] + inner;
    assert ([LPAR] + inner)[1..] == inner;
    ParseAlts(key, alts, [RPAR] + more);
    assert ([RPAR] + more)[1..] == more;
    hide AltTokens, OrAll;
    assert OrTail(OrAll(key, alts), [RPAR] + more) == Parsed(OrAll(key, alts), [RPAR] + more);
    assert ParsePrimary([LPAR] + inner) == Parsed(OrAll(key, alts), more);
  }

  lemma NoAlternatives(filter: string)
    requires WellFormed(filter)
    ensures Alternatives(filter) == [] <==> EmptyValue(filter)
  {
    SplitIsFree(KeyValue(filter)[1], '|', 0);
  }

  lemma FilterTokensAre(filter: string)
    requires WellFormed(filter)
    ensures var key, alts := KeyValue(filter)[0], Alternatives(filter);
            FilterTokens(filter) == if alts != [] then [AND, LPAR] + AltTokens(key, alts) + [RPAR]
                                    else [LIKE(Pattern(key, KeyValue(filter)[1]))]
  {
    hide KeyValue, Alternatives, AltTokens;
  }

  ghost predicate StopsAtLike(p: Parsed) {
    p.Parsed? && p.rest != [] && p.rest[0].LIKE?
  }

  /** One more filter: read as an operand, or, without "and" before it, the end of the reading. */
  lemma ParseOneFilter(e: Expr, f: string, more: seq<Token>)
    requires WellFormed(f)
    ensures if EmptyValue(f) then StopsAtLike(AndTail(e, FilterTokens(f) + more))
            else Alternatives(f) != []
                 && AndTail(e, FilterTokens(f) + more) == AndTail(And(e, OrAll(KeyValue(f)[0], Alternatives(f))), more)
  {
    NoAlternatives(f);
    FilterTokensAre(f);
    hide FilterTokens, KeyValue, Alternatives, AltTokens, OrAll;
    if Alternatives(f) != [] { ParseFilter(e, KeyValue(f)[0], Alternatives(f), more); }
  }

  lemma AllValuesIs(filters: seq<string>)
    requires filters != []
    ensures AllValues(filters) <==> AllValues(filters[..|filters| - 1]) && !EmptyValue(filters[|filters| - 1])
  {
    hide EmptyValue;
    var n := |filters| - 1;
    assert forall k :: 0 <= k < n ==> filters[..n][k] == filters[k];
  }

  lemma AndAllIs(filters: seq<string>)
    requires filters != []
    ensures var n := |filters| - 1; var f := filters[n];
            AndAll(filters) == if WellFormed(f) && Alternatives(f) != []
                               then And(AndAll(filters[..n]), OrAll(KeyValue(f)[0], Alternatives(f)))
                               else AndAll(filters[..n])
  {
    hide WellFormed, Alternatives, KeyValue, OrAll;
  }

  lemma AllTokensIs(filters: seq<string>)
    requires filters != []
    ensures var n := |filters| - 1; var f := filters[n];
            AllTokens(filters) == AllTokens(filters[..n]) + if WellFormed(f) then FilterTokens(f) else []
  {
    hide WellFormed, FilterTokens;
  }

  /** The filters are read up to the first with an empty value part. */
  lemma {:induction false} ParseFilters(filters: seq<string>, more: seq<Token>)
    ensures if AllValues(filters) then AndTail(And(From, To), AllTokens(filters) + more) == AndTail(AndAll(filters), more)
            else StopsAtLike(AndTail(And(From, To), AllTokens(filters) + more))
    decreases |filters|
  {
    if filters == [] {
      assert AllTokens(filters) + more == more;
    } else {
      var n := |filters| - 1;
      AndAllIs(filters);
      AllTokensIs(filters);
      AllValuesIs(filters);
      hide AllTokens, AltTokens, OrAll, AllValues, AndAll, AndTail, FilterTokens, KeyValue, Alternatives, StopsAtLike;
      var ts := if WellFormed(filters[n]) then FilterTokens(filters[n]) else [];
      assert AllTokens(filters) + more == AllTokens(filters[..n]) + (ts + more);
      ParseFilters(filters[..n], ts + more);
      if WellFormed(filters[n]) {
        ParseOneFilter(AndAll(filters[..n]), filters[n], more);
      } else {
        assert ts + more == more;
      }
    }
  }

  lemma ParseRange(ts: seq<Token>)
    ensures ParsePrimary(RANGE_TOKENS + ts) == Parsed(And(From, To), ts)
  {
    var t1 := [FROM, AND, TO, RPAR] + ts;
    assert (RANGE_TOKENS + ts)[1..] == t1;
    var t2 := [AND, TO, RPAR] + ts;
    assert t1[1..] == t2;
    var t3 := [TO, RPAR] + ts;
    assert t2[1..] == t3;
    var t4 := [RPAR] + ts;
    assert t3[1..] == t4 && t4[1..] == ts;
    assert AndTail(And(From, To), t4) == Parsed(And(From, To), t4);
    assert AndTail(From, t2) == Parsed(And(From, To), t4);
    assert ParseAnd(t1) == Parsed(And(From, To), t4);
    assert ParseOr(t1) == Parsed(And(From, To), t4);
  }

  lemma {:induction false} OrAllMeans(key: string, alts: seq<string>, row: Row)
    requires alts != []
    ensures Eval(OrAll(key, alts), row) <==> Matches(key, alts, row)
    decreases |alts|
  {
    var n := |alts| - 1;
    hide Pattern;
    if n > 0 {
      OrAllMeans(key, alts[..n], row);
      if Matches(key, alts[..n], row) {
        var j :| 0 <= j < n && row.like(Pattern(key, alts[..n][j]));
        assert row.like(Pattern(key, alts[j]));
      }
      if Matches(key, alts, row) && !row.like(Pattern(key, alts[n])) {
        var j :| 0 <= j < |alts| && row.like(Pattern(key, alts[j]));
        assert alts[..n][j] == alts[j];
      }
    }
  }

  lemma {:induction false} AndAllMeans(filters: seq<string>, row: Row)
    requires AllValues(filters)
    ensures Eval(AndAll(filters), row) <==> Asked(filters, row)
    decreases |filters|
  {
    if filters != [] {
      var n := |filters| - 1;
      assert !EmptyValue(filters[n]);
      AndAllMeans(filters[..n], row);
      if WellFormed(filters[n]) {
        NoAlternatives(filters[n]);
        OrAllMeans(KeyValue(filters[n])[0], Alternatives(filters[n]), row);
      }
      hide KeyValue, Alternatives, OrAll, Matches, EmptyValue;
      assert forall k :: 0 <= k < n ==> filters[..n][k] == filters[k];
    }
  }

  /** The condition of the statement for filters without apostrophes is well formed, and selects just
      what was asked for, if and only if no filter has an empty value part. */
  lemma TranslationIsRight(filters: seq<string>)
    requires AllPlain(filters)
    ensures var e := ParseCondition(S.JoinWith([RANGE] + Conditions(filters), " "));
            && (e.Some? <==> AllValues(filters))
            && (e.Some? ==> forall row :: Eval(e.value, row) <==> Asked(filters, row))
  {
    var text := S.JoinWith([RANGE] + Conditions(filters), " ");
    LexConditions(filters, "");
    assert text + "" == text;
    var ts := AllTokens(filters);
    assert Lex(text) == Some(RANGE_TOKENS + ts) by { assert RANGE_TOKENS + ts + [] == RANGE_TOKENS + ts; }
    ParseRange(ts);
    ParseFilters(filters, []);
    assert ts + [] == ts;
    var p := ParseAnd(RANGE_TOKENS + ts);
    assert p == AndTail(And(From, To), ts);
    assert ParseOr(RANGE_TOKENS + ts) == if p.Fail? then Fail else OrTail(p.e, p.rest);
    hide Lex, AllTokens, RANGE_TOKENS, AllValues, AndAll, Asked, Conditions, RANGE;
    if AllValues(filters) {
      forall row ensures Eval(AndAll(filters), row) <==> Asked(filters, row) { AndAllMeans(filters, row); }
    }
  }

  /** The statement built from a query string without apostrophes has its condition between " where "
      and " group by ", and that condition is right exactly when no filter has an empty value part. */
  lemma QueryIsRight(text: string)
    requires Plain(text) && Translate(text).query != ""
    ensures var elems := Split(text, ':');
            && |elems| >= 2 && Tags(elems[1]).Some?
            && var filters := Split(Tags(elems[1]).value.1, ',');
            && Translate(text).query == Statement(elems[0], Conditions(filters))
            && var e := ParseCondition(S.JoinWith([RANGE] + Conditions(filters), " "));
            && (e.Some? <==> AllValues(filters))
            && (e.Some? ==> forall row :: Eval(e.value, row) <==> Asked(filters, row))
  {
    var elems := Split(text, ':');
    SplitPlain(text, ':', 0);
    assert Plain(elems[1]);
    var tags := Tags(elems[1]).value.1;
    assert Plain(tags);
    SplitPlain(tags, ',', 0);
    TranslationIsRight(Split(tags, ','));
    hide Split, Statement, Conditions, ParseCondition, AllValues, Asked, RANGE, S.JoinWith, Tags, Eval;
  }

  /** A query string whose statement is not well formed: its only filter has an empty value part. */
  lemma EmptyValueIsNotRight()
    ensures Plain("avg:m{k==}") && EmptyValue("k==")
    ensures Translate("avg:m{k==}") == Translated(Statement("avg", Conditions(["k=="])), "m", "")
    ensures ParseCondition(S.JoinWith([RANGE] + Conditions(["k=="]), " ")) == None
  {
    hide Conditions, Statement, Split, Tags, ParseCondition, RANGE, KeyValue, S.JoinWith;
    EmptyValueInQuery();
    EmptyValuePart();
    TranslationIsRight(["k=="]);
    assert ["k=="][0] == "k==";
  }

  lemma EmptyValuePart()
    ensures KeyValue("k==") == ["k", ""]
  {
    assert Replaced("k==") == "k==";
    FirstIsFirst("k==", '=', 0, 1);
    FirstIsFirst("k==", '=', 2, 2);
    FirstIsNone("k==", '=', 3);
    assert "k=="[2..2] == "" && "k=="[0..1] == "k";
    assert SplitFrom("k==", '=', 3) == [];
    assert SplitFrom("k==", '=', 2) == [""];
  }

  lemma QueryParts()
    ensures "avg:m{k==}"[0..3] == "avg" && "avg:m{k==}"[4..] == "m{k==}"
    ensures "m{k==}"[..1] == "m" && "m{k==}"[2..5] == "k=="
  {
  }

  lemma EmptyValueInQuery()
    ensures Split("avg:m{k==}", ':') == ["avg", "m{k==}"]
    ensures Tags("m{k==}") == Some(("m", "k==")) && Split("k==", ',') == ["k=="]
  {
    var text, elem := "avg:m{k==}", "m{k==}";
    FirstIsFirst(text, ':', 0, 3);
    FirstIsNone(text, ':', 4);
    QueryParts();
    assert SplitFrom(text, ':', 4) == [elem];
    FirstIsFirst(elem, '{', 0, 1);
    FirstIsFirst(elem, '}', 1, 5);
    FirstIsNone("k==", ',', 0);
    assert "k=="[0..] == "k==";
  }
}
