/** The translation of a query string `aggregate:metric{filters}[:downsampler]` into a select
    statement, and what the condition it puts into it means. */
module Query {
  import opened Utility
  import opened SqlCondition
  import S = SelectModel

  /** (timestamp >= ?001 and timestamp <= ?002) */
  const RANGE := "(" + FROM_TEXT + " " + "and" + " " + TO_TEXT + ")"
  const AND_OPEN := "and ("
  const OR_SEPARATOR := " or "
  const LIKE_OPEN := "tags like '%"
  const LIKE_CLOSE := "%'"

  // ---------------------------------------------------------------- the specification

  /** The wildcard the store uses. */
  function Replaced(filter: string): (s: string)
    ensures |s| == |filter|
  {
    seq(|filter|, i requires 0 <= i < |filter| => if filter[i] == '*' then '%' else filter[i])
  }

  function KeyValue(filter: string): seq<string> {
    Split(Replaced(filter), '=')
  }

  predicate WellFormed(filter: string) {
    |KeyValue(filter)| == 2
  }

  function Alternatives(filter: string): seq<string>
    requires WellFormed(filter)
  {
    Split(KeyValue(filter)[1], '|')
  }

  function LikeText(key: string, alt: string): string {
    LIKE_OPEN + key + "=" + alt + LIKE_CLOSE
  }

  function OrText(key: string, alts: seq<string>): string
    requires alts != []
  {
    if |alts| == 1 then LikeText(key, alts[0])
    else OrText(key, alts[..|alts| - 1]) + OR_SEPARATOR + LikeText(key, alts[|alts| - 1])
  }

  function ConditionOf(filter: string): string
    requires WellFormed(filter)
  {
    var key, alts := KeyValue(filter)[0], Alternatives(filter);
    if alts != [] then AND_OPEN + OrText(key, alts) + ")" else LikeText(key, KeyValue(filter)[1])
  }

  function Conditions(filters: seq<string>): seq<string> {
    if filters == [] then []
    else
      var filter := filters[|filters| - 1];
      Conditions(filters[..|filters| - 1]) + if WellFormed(filter) then [ConditionOf(filter)] else []
  }

  datatype Translated = Translated(query: string, metric: string, downsampler: string)

  function Statement(aggregate: string, conditions: seq<string>): string {
    S.SELECT + S.JoinWith(["timestamp", aggregate + "(value) as value"], ", ") + S.FROM + "METRIC"
    + S.WHERE + S.JoinWith([RANGE] + conditions, " ") + S.GROUP_BY + "timestamp"
  }

  function Tags(elem: string): Option<(string, string)> {
    var ob := FirstFrom(elem, '{', 0);
    if ob == -1 then None else
      var cb := FirstFrom(elem, '}', ob);
      if cb == -1 then None else Some((elem[..ob], elem[ob + 1..cb]))
  }

  /** What the constructor leaves in the query's fields. */
  function Translate(query: string): Translated {
    var elems := Split(query, ':');
    if |elems| < 2 || Tags(elems[1]) == None then Translated("", "", "")
    else
      var (metric, tags) := Tags(elems[1]).value;
      var filters := Split(tags, ',');
      if |filters| < 1 then Translated("", metric, "")
      else Translated(Statement(elems[0], Conditions(filters)), metric, if |elems| >= 3 then elems[2] else "")
  }

  // ---------------------------------------------------------------- the program

  class Query {
    var query: string
    var metric: string
    var downsampler: string

    constructor (text: string)
      ensures Translated(query, metric, downsampler) == Translate(text)
    {
      query, metric, downsampler := "", "", "";
      new;
      hide Split, Conditions, Statement, RANGE, S.SelectModel.Rendered;
      var sql := new S.SelectModel();
      sql.From("METRIC");
      sql.GroupBy("timestamp");
      sql.Where(RANGE);
      var elems, count := SplitString(text, ':');
      if count < 2 {
        return;
      }
      sql.Select(["timestamp", elems[0] + "(value) as value"]);
      assert Prepared(sql, elems[0]);
      var ob := Find(elems[1], '{', 0);
      if ob == -1 {
        return;
      }
      var cb := Find(elems[1], '}', ob);
      if cb == -1 {
        return;
      }
      metric := elems[1][..ob];
      var filters, n := SplitString(elems[1][ob + 1..cb], ',');
      if n < 1 {
        return;
      }
      AddFilters(sql, filters);
      if |elems| >= 3 {
        downsampler := elems[2];
      }
      query := sql.Str();
      PreparedRenders(sql, elems[0], Conditions(filters));
    }
  }

  /** The parts of the statement that do not depend on the filters are in place. */
  ghost predicate Prepared(sql: S.SelectModel, aggregate: string)
    reads sql
  {
    && sql.selectColumns == ["timestamp", aggregate + "(value) as value"] && sql.tableName == "METRIC"
    && sql.groupbyColumns == ["timestamp"] && sql.whereCondition == [RANGE]
    && sql.havingCondition == [] && sql.orderBy == sql.limit == sql.offset == ""
  }

  lemma PreparedRenders(sql: S.SelectModel, aggregate: string, conditions: seq<string>)
    requires sql.selectColumns == ["timestamp", aggregate + "(value) as value"] && sql.tableName == "METRIC"
    requires sql.groupbyColumns == ["timestamp"] && sql.whereCondition == [RANGE] + conditions
    requires sql.havingCondition == [] && sql.orderBy == sql.limit == sql.offset == ""
    ensures sql.Rendered() == Statement(aggregate, conditions)
  {
    StatementIs(aggregate, conditions);
    hide S.JoinWith, S.Clause, S.Suffix, S.SELECT, S.FROM, S.WHERE, S.GROUP_BY, S.HAVING, S.ORDER_BY, S.LIMIT, S.OFFSET, RANGE,
         Statement;
  }

  lemma StatementIs(aggregate: string, conditions: seq<string>)
    ensures var w := [RANGE] + conditions;
            Statement(aggregate, conditions)
            == S.SELECT + S.JoinWith(["timestamp", aggregate + "(value) as value"], ", ") + S.FROM + "METRIC"
               + S.Clause(S.WHERE, w, " ") + S.Clause(S.GROUP_BY, ["timestamp"], ", ")
               + S.Clause(S.HAVING, [], " ") + S.Suffix(S.ORDER_BY, "") + S.Suffix(S.LIMIT, "") + S.Suffix(S.OFFSET, "")
  {
  }

  /** The loop over the filters, each adding a condition or being skipped. */
  method AddFilters(sql: S.SelectModel, filters: seq<string>)
    modifies sql`whereCondition
    ensures sql.whereCondition == old(sql.whereCondition) + Conditions(filters)
  {
    hide Conditions, Split, Replaced, OrText, LikeText, AND_OPEN;
    var k := 0;
    assert Conditions(filters[..0]) == [] by { NoConditions(); }
    while k < |filters|
      invariant k <= |filters| && sql.whereCondition == old(sql.whereCondition) + Conditions(filters[..k])
    {
      ConditionsStep(filters, k);
      var filterparts, fp := SplitString(Replaced(filters[k]), '=');
      if !(fp < 2 || fp > 2) {
        var condition := FilterCondition(filterparts[0], filterparts[1]);
        sql.Where(condition);
      }
      k := k + 1;
    }
    assert filters[..k] == filters;
  }

  lemma NoConditions()
    ensures Conditions([]) == []
  {
  }

  lemma ConditionsStep(filters: seq<string>, k: nat)
    requires k < |filters|
    ensures Conditions(filters[..k + 1])
            == Conditions(filters[..k]) + if WellFormed(filters[k]) then [ConditionOf(filters[k])] else []
  {
    assert filters[..k + 1][..k] == filters[..k];
  }

  /** What the stream holds after `i` alternatives. */
  ghost function Built(key: string, alts: seq<string>, i: nat): string
    requires i <= |alts|
  {
    if i == 0 then AND_OPEN else AND_OPEN + OrText(key, alts[..i]) + if i < |alts| then OR_SEPARATOR else ""
  }

  lemma BuiltNone(key: string, alts: seq<string>)
    ensures Built(key, alts, 0) == AND_OPEN
  {
  }

  lemma BuiltStep(key: string, alts: seq<string>, i: nat)
    requires i < |alts|
    ensures Built(key, alts, i + 1)
            == Built(key, alts, i) + LikeText(key, alts[i]) + if i < |alts| - 1 then OR_SEPARATOR else ""
  {
    hide LikeText, AND_OPEN, OR_SEPARATOR;
    OrTextStep(key, alts, i);
    hide OrText;
    if i > 0 { Regroup(AND_OPEN, OrText(key, alts[..i]), OR_SEPARATOR, LikeText(key, alts[i])); }
  }

  lemma OrTextStep(key: string, alts: seq<string>, i: nat)
    requires i < |alts|
    ensures i == 0 ==> OrText(key, alts[..i + 1]) == LikeText(key, alts[i])
    ensures i > 0 ==> OrText(key, alts[..i + 1]) == OrText(key, alts[..i]) + OR_SEPARATOR + LikeText(key, alts[i])
  {
    assert alts[..i + 1][..i] == alts[..i];
  }

  lemma Regroup(a: string, b: string, c: string, d: string)
    ensures a + (b + c + d) == a + b + c + d
  {
  }

  lemma BuiltAll(key: string, alts: seq<string>)
    requires alts != []
    ensures Built(key, alts, |alts|) + ")" == AND_OPEN + OrText(key, alts) + ")"
  {
    assert alts[..|alts|] == alts;
  }

  /** The condition of one filter, with or without alternatives. */
  method FilterCondition(key: string, value: string) returns (oss: string)
    ensures oss == if Split(value, '|') != [] then AND_OPEN + OrText(key, Split(value, '|')) + ")" else LikeText(key, value)
  {
    hide LikeText, Split, OrText, AND_OPEN, OR_SEPARATOR, Built;
    var orparts, op := SplitString(value, '|');
    if op > 0 {
      oss := AND_OPEN;
      assert oss == Built(key, orparts, 0) by { BuiltNone(key, orparts); }
      var i := 0;
      while i < |orparts|
        invariant i <= |orparts| && oss == Built(key, orparts, i)
      {
        BuiltStep(key, orparts, i);
        oss := oss + LikeText(key, orparts[i]);
        if i < |orparts| - 1 {
          oss := oss + OR_SEPARATOR;
        }
        i := i + 1;
      }
      BuiltAll(key, orparts);
      oss := oss + ")";
    } else {
      oss := "";
      var nf := LikeText(key, value);
      if |oss| > 0 {
        oss := oss + " and ";
      }
      oss := oss + nf;
    }
  }
}
