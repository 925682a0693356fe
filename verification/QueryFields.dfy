/** What a well-formed query string yields, read from its text: the metric, the downsampler, the statement
    and what its condition asks for. */
module QueryFields {
  import opened Utility
  import opened SqlCondition
  import S = SelectModel
  import opened Query
  import opened QueryMeaning

  /** A part of a query string: none of the characters that separate parts. */
  ghost predicate Part(s: string) {
    ':' !in s && '{' !in s && '}' !in s
  }

  function Text(aggregate: string, metric: string, tags: string): string {
    aggregate + ":" + metric + "{" + tags + "}"
  }

  lemma TagsOf(metric: string, tags: string)
    requires Part(metric) && Part(tags)
    ensures Tags(metric + "{" + tags + "}") == Some((metric, tags))
  {
    var elem := metric + "{" + tags + "}";
    var ob, cb := |metric|, |metric| + 1 + |tags|;
    forall k | 0 <= k < ob ensures elem[k] != '{' { assert elem[k] == metric[k]; }
    FirstIsFirst(elem, '{', 0, ob);
    forall k | ob <= k < cb ensures elem[k] != '}' { if k > ob { assert elem[k] == tags[k - ob - 1]; } }
    FirstIsFirst(elem, '}', ob, cb);
    assert elem[..ob] == metric && elem[ob + 1..cb] == tags;
  }

  lemma ElementsOf(aggregate: string, metric: string, tags: string)
    requires Part(aggregate) && Part(metric) && Part(tags)
    ensures Split(Text(aggregate, metric, tags), ':') == [aggregate, metric + "{" + tags + "}"]
  {
    var ps := [aggregate, metric + "{" + tags + "}"];
    assert ps[1..] == [ps[1]];
    assert Join(ps, ':') == aggregate + [':'] + ps[1];
    assert Join(ps, ':') == Text(aggregate, metric, tags);
    SplitJoined(ps, ':');
  }

  lemma ElementsWithDownsampler(aggregate: string, metric: string, tags: string, downsampler: string)
    requires Part(aggregate) && Part(metric) && Part(tags) && Part(downsampler) && downsampler != ""
    ensures Split(Text(aggregate, metric, tags) + ":" + downsampler, ':')
            == [aggregate, metric + "{" + tags + "}", downsampler]
  {
    var ps := [aggregate, metric + "{" + tags + "}", downsampler];
    assert ps[1..] == [ps[1], ps[2]] && ps[1..][1..] == [ps[2]];
    assert Join(ps[1..], ':') == ps[1] + [':'] + ps[2];
    assert Join(ps, ':') == Text(aggregate, metric, tags) + ":" + downsampler;
    SplitJoined(ps, ':');
  }

  /** The fields are what stands in the text: the part before '{', the statement for the parts between the
      braces, and the part behind the second ':' as downsampler, empty if there is none. */
  lemma FieldsAreRead(aggregate: string, metric: string, tags: string, downsampler: string)
    requires Part(aggregate) && Part(metric) && Part(tags) && Part(downsampler) && tags != ""
    ensures var text := Text(aggregate, metric, tags) + if downsampler == "" then "" else ":" + downsampler;
            Translate(text) == Translated(Statement(aggregate, Conditions(Split(tags, ','))), metric, downsampler)
  {
    hide Statement, Conditions, Tags, Text, FirstFrom, SplitFrom;
    TagsOf(metric, tags);
    SplitIsFree(tags, ',', 0);
    if downsampler == "" {
      ElementsOf(aggregate, metric, tags);
      assert Text(aggregate, metric, tags) + "" == Text(aggregate, metric, tags);
    } else {
      ElementsWithDownsampler(aggregate, metric, tags, downsampler);
      assert Text(aggregate, metric, tags) + (":" + downsampler) == Text(aggregate, metric, tags) + ":" + downsampler;
    }
  }

  /** '*' becomes '%', and nothing else changes. */
  lemma OnlyWildcardsChange(s: string, i: nat)
    requires i < |s|
    ensures |Replaced(s)| == |s|
    ensures s[i] == '*' ==> Replaced(s)[i] == '%'
    ensures s[i] != '*' ==> Replaced(s)[i] == s[i]
  {
  }

  // ---------------------------------------------------------------- what a filter asks for

  datatype Filter = Filter(key: string, alts: seq<string>)

  /** A name or a value in a filter. */
  ghost predicate Word(s: string) {
    forall c :: c in s ==> c !in ":{},=|'"
  }

  ghost predicate FilterOk(f: Filter) {
    Word(f.key) && f.alts != [] && f.alts[|f.alts| - 1] != "" && forall j :: 0 <= j < |f.alts| ==> Word(f.alts[j])
  }

  function FilterText(f: Filter): string {
    f.key + "=" + Join(f.alts, '|')
  }

  /** One of the alternatives is a tag of the row, with '%' for any characters. */
  ghost predicate Wanted(f: Filter, row: Row) {
    exists j :: 0 <= j < |f.alts| && row.like("%" + Replaced(f.key) + "=" + Replaced(f.alts[j]) + "%")
  }

  function AllReplaced(ps: seq<string>): (rs: seq<string>)
    ensures |rs| == |ps| && forall j :: 0 <= j < |ps| ==> rs[j] == Replaced(ps[j])
  {
    seq(|ps|, j requires 0 <= j < |ps| => Replaced(ps[j]))
  }

  lemma ReplacedAppends(a: string, b: string)
    ensures Replaced(a + b) == Replaced(a) + Replaced(b)
  {
  }

  lemma {:induction false} ReplacedJoin(ps: seq<string>, delim: char)
    requires delim != '*'
    ensures Replaced(Join(ps, delim)) == Join(AllReplaced(ps), delim)
    decreases |ps|
  {
    if |ps| > 1 {
      ReplacedJoin(ps[1..], delim);
      assert AllReplaced(ps)[1..] == AllReplaced(ps[1..]);
      ReplacedAppends(ps[0] + [delim], Join(ps[1..], delim));
      ReplacedAppends(ps[0], [delim]);
      assert Replaced([delim]) == [delim];
    }
  }

  lemma ReplacedFree(s: string, c: char)
    requires c !in s && c != '%'
    ensures c !in Replaced(s)
  {
  }

  lemma {:induction false} JoinFree(ps: seq<string>, delim: char, c: char)
    requires c != delim && forall j :: 0 <= j < |ps| ==> c !in ps[j]
    ensures c !in Join(ps, delim)
    decreases |ps|
  {
    if |ps| > 1 { JoinFree(ps[1..], delim, c); }
  }

  lemma WordFree(s: string, c: char)
    requires Word(s) && c in ":{},=|'"
    ensures c !in s
  {
  }

  lemma {:induction false} JoinNotEmpty(ps: seq<string>, delim: char)
    requires ps != [] && ps[|ps| - 1] != ""
    ensures Join(ps, delim) != ""
    decreases |ps|
  {
    if |ps| > 1 { assert ps[0] + [delim] + Join(ps[1..], delim) != ""; }
  }

  /** The value part of a filter, and its alternatives. */
  lemma FilterParts(f: Filter)
    requires FilterOk(f)
    ensures KeyValue(FilterText(f)) == [Replaced(f.key), Join(AllReplaced(f.alts), '|')]
    ensures Split(Join(AllReplaced(f.alts), '|'), '|') == AllReplaced(f.alts)
    ensures Join(AllReplaced(f.alts), '|') != ""
  {
    hide Replaced, Split, Word;
    var value, alts := Join(f.alts, '|'), AllReplaced(f.alts);
    ReplacedAppends(f.key + "=", value);
    ReplacedAppends(f.key, "=");
    assert Replaced("=") == "=" by { OnlyWildcardsChange("=", 0); }
    ReplacedJoin(f.alts, '|');
    forall j | 0 <= j < |alts| ensures '|' !in alts[j] && '=' !in alts[j] {
      WordFree(f.alts[j], '|');
      WordFree(f.alts[j], '=');
      ReplacedFree(f.alts[j], '|');
      ReplacedFree(f.alts[j], '=');
    }
    SplitJoined(alts, '|');
    JoinNotEmpty(alts, '|');
    JoinFree(alts, '|', '=');
    WordFree(f.key, '=');
    ReplacedFree(f.key, '=');
    var ps := [Replaced(f.key), Join(alts, '|')];
    assert ps[1..] == [ps[1]];
    SplitJoined(ps, '=');
    assert Join(ps, '=') == Replaced(FilterText(f));
  }

  lemma FilterMeans(f: Filter, row: Row)
    requires FilterOk(f)
    ensures WellFormed(FilterText(f)) && !EmptyValue(FilterText(f))
    ensures Matches(KeyValue(FilterText(f))[0], Alternatives(FilterText(f)), row) <==> Wanted(f, row)
  {
    FilterParts(f);
    hide KeyValue, Split, Replaced, FilterText, FilterOk, Join;
    var alts := AllReplaced(f.alts);
    forall j | 0 <= j < |alts|
      ensures Pattern(Replaced(f.key), alts[j]) == "%" + Replaced(f.key) + "=" + Replaced(f.alts[j]) + "%"
    {
    }
    hide Pattern;
  }

  // ---------------------------------------------------------------- a whole query

  function Texts(fs: seq<Filter>): (texts: seq<string>)
    ensures |texts| == |fs| && forall k :: 0 <= k < |fs| ==> texts[k] == FilterText(fs[k])
  {
    seq(|fs|, k requires 0 <= k < |fs| => FilterText(fs[k]))
  }

  lemma FilterTextFree(f: Filter, c: char)
    requires FilterOk(f) && c in ":{},'"
    ensures c !in FilterText(f)
  {
    hide Word;
    WordFree(f.key, c);
    forall j | 0 <= j < |f.alts| ensures c !in f.alts[j] { WordFree(f.alts[j], c); }
    JoinFree(f.alts, '|', c);
  }

  lemma TextsSplit(fs: seq<Filter>)
    requires fs != [] && forall k :: 0 <= k < |fs| ==> FilterOk(fs[k])
    ensures Split(Join(Texts(fs), ','), ',') == Texts(fs) && Part(Join(Texts(fs), ',')) && Join(Texts(fs), ',') != ""
    ensures AllPlain(Texts(fs))
  {
    hide FilterOk, FilterText, Join;
    var texts := Texts(fs);
    forall k | 0 <= k < |fs|
      ensures ',' !in texts[k] && ':' !in texts[k] && '{' !in texts[k] && '}' !in texts[k] && '\'' !in texts[k]
    {
      FilterTextFree(fs[k], ',');
      FilterTextFree(fs[k], ':');
      FilterTextFree(fs[k], '{');
      FilterTextFree(fs[k], '}');
      FilterTextFree(fs[k], '\'');
    }
    assert texts[|fs| - 1] != "" by { TextNotEmpty(fs[|fs| - 1]); }
    SplitJoined(texts, ',');
    JoinNotEmpty(texts, ',');
    JoinFree(texts, ',', ':');
    JoinFree(texts, ',', '{');
    JoinFree(texts, ',', '}');
  }

  lemma TextNotEmpty(f: Filter)
    ensures FilterText(f) != ""
  {
    assert |f.key + "="| > 0;
  }

  /** For every query `aggregate:metric{key=value|value,...}:downsampler` the fields are the parts of the
      text, and the condition of the statement selects the rows in the time range that have, for each
      filter, one of its values under its key. */
  lemma WholeQueryMeans(aggregate: string, metric: string, fs: seq<Filter>, downsampler: string)
    requires Part(aggregate) && Part(metric) && Part(downsampler)
    requires fs != [] && forall k :: 0 <= k < |fs| ==> FilterOk(fs[k])
    ensures var text := Text(aggregate, metric, Join(Texts(fs), ',')) + if downsampler == "" then "" else ":" + downsampler;
            Translate(text) == Translated(Statement(aggregate, Conditions(Texts(fs))), metric, downsampler)
    ensures var e := ParseCondition(S.JoinWith([RANGE] + Conditions(Texts(fs)), " "));
            && e.Some?
            && forall row :: Eval(e.value, row) <==> row.after && row.before && forall k :: 0 <= k < |fs| ==> Wanted(fs[k], row)
  {
    hide Text, Translate, Statement, Conditions, ParseCondition, FilterOk, Join, Split, Part, Eval, S.JoinWith, RANGE;
    TextsSplit(fs);
    FieldsAreRead(aggregate, metric, Join(Texts(fs), ','), downsampler);
    var texts := Texts(fs);
    TranslationIsRight(texts);
    hide Wanted, FilterText, Asked;
    AskedIs(fs);
  }

  lemma AskedIs(fs: seq<Filter>)
    requires forall k :: 0 <= k < |fs| ==> FilterOk(fs[k])
    ensures AllValues(Texts(fs))
    ensures forall row :: Asked(Texts(fs), row) <==>
                            row.after && row.before && forall k :: 0 <= k < |fs| ==> Wanted(fs[k], row)
  {
    hide Wanted, Matches, KeyValue, Alternatives, FilterText, FilterOk, EmptyValue;
    var texts := Texts(fs);
    forall row
      ensures AllValues(texts)
      ensures Asked(texts, row) <==> row.after && row.before && forall k :: 0 <= k < |fs| ==> Wanted(fs[k], row)
    {
      forall k | 0 <= k < |fs|
        ensures WellFormed(texts[k]) && !EmptyValue(texts[k])
        ensures Matches(KeyValue(texts[k])[0], Alternatives(texts[k]), row) <==> Wanted(fs[k], row)
      {
        FilterMeans(fs[k], row);
      }
    }
    SomeValues(texts, fs);
  }

  lemma SomeValues(texts: seq<string>, fs: seq<Filter>)
    requires texts == Texts(fs) && forall k :: 0 <= k < |fs| ==> FilterOk(fs[k])
    ensures AllValues(texts)
  {
    hide EmptyValue, FilterText, FilterOk, WellFormed;
    var row: Row :| true;
    forall k | 0 <= k < |texts| ensures !EmptyValue(texts[k]) { FilterMeans(fs[k], row); }
  }

  /** The statement with its texts. */
  lemma StatementText(aggregate: string, conditions: seq<string>)
    ensures Statement(aggregate, conditions)
            == "select " + ("timestamp" + ", " + (aggregate + "(value) as value")) + " from " + "METRIC"
               + " where " + S.JoinWith(["(" + "timestamp >= ?001" + " " + "and" + " " + "timestamp <= ?002" + ")"] + conditions, " ")
               + " group by " + "timestamp"
  {
    var columns := ["timestamp", aggregate + "(value) as value"];
    assert columns[..1] == ["timestamp"];
    assert S.JoinWith(columns, ", ") == "timestamp" + ", " + (aggregate + "(value) as value");
    hide S.JoinWith;
  }
}
