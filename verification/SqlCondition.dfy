/** What a where condition means: its tokens, the grammar in which "and" binds tighter than "or", and
    the value of the expression on a row. LIKE is any predicate on patterns. */
module SqlCondition {

  datatype Option<+T> = None | Some(value: T)

  datatype Token = LPAR | RPAR | AND | OR | FROM | TO | LIKE(pattern: string)

  /** FROM and TO are the two comparisons of the timestamp with the parameters. */
  datatype Expr = From | To | Like(pattern: string) | And(l: Expr, r: Expr) | Or(l: Expr, r: Expr)

  datatype Row = Row(after: bool, before: bool, like: string -> bool)

  function Eval(e: Expr, row: Row): bool {
    match e
    case From => row.after
    case To => row.before
    case Like(p) => row.like(p)
    case And(l, r) => Eval(l, row) && Eval(r, row)
    case Or(l, r) => Eval(l, row) || Eval(r, row)
  }

  // ---------------------------------------------------------------- tokens

  const FROM_TEXT := "timestamp >= ?001"
  const TO_TEXT := "timestamp <= ?002"
  const LIKE_TEXT := "tags like '"
  const APOSTROPHE: char := '\''

  predicate Starts(s: string, word: string) {
    word <= s
  }

  function Prepend(t: Token, rest: Option<seq<Token>>): Option<seq<Token>> {
    if rest == None then None else Some([t] + rest.value)
  }

  /** The length of the text up to the closing apostrophe. */
  function Quoted(s: string): (n: nat)
    ensures n <= |s| && APOSTROPHE !in s[..n] && (n < |s| ==> s[n] == APOSTROPHE)
  {
    if s == "" || s[0] == APOSTROPHE then 0 else 1 + Quoted(s[1..])
  }

  /** What a string starts with, and how long it is. */
  datatype Lexeme = Space | Word(token: Token, n: nat) | Bad

  function First(s: string): (l: Lexeme)
    requires s != ""
    ensures l.Word? ==> 0 < l.n <= |s|
  {
    if s[0] == ' ' then Space
    else if s[0] == '(' then Word(LPAR, 1)
    else if s[0] == ')' then Word(RPAR, 1)
    else if Starts(s, "and") then Word(AND, 3)
    else if Starts(s, "or") then Word(OR, 2)
    else if Starts(s, FROM_TEXT) then Word(FROM, |FROM_TEXT|)
    else if Starts(s, TO_TEXT) then Word(TO, |TO_TEXT|)
    else if Starts(s, LIKE_TEXT) then
      var n := Quoted(s[|LIKE_TEXT|..]);
      if |LIKE_TEXT| + n < |s| then Word(LIKE(s[|LIKE_TEXT|..][..n]), |LIKE_TEXT| + n + 1) else Bad
    else Bad
  }

  function Lex(s: string): Option<seq<Token>>
    decreases |s|
  {
    if s == "" then Some([])
    else match First(s)
      case Space => Lex(s[1..])
      case Word(t, n) => Prepend(t, Lex(s[n..]))
      case Bad => None
  }

  // ---------------------------------------------------------------- the grammar

  datatype Parsed = Fail | Parsed(e: Expr, rest: seq<Token>)

  function ParsePrimary(ts: seq<Token>): (p: Parsed)
    ensures p.Parsed? ==> |p.rest| < |ts|
    decreases |ts|, 0
  {
    if ts == [] then Fail
    else match ts[0]
      case FROM => Parsed(From, ts[1..])
      case TO => Parsed(To, ts[1..])
      case LIKE(p) => Parsed(Like(p), ts[1..])
      case LPAR =>
        var p := ParseOr(ts[1..]);
        if p.Parsed? && p.rest != [] && p.rest[0] == RPAR then Parsed(p.e, p.rest[1..]) else Fail
      case _ => Fail
  }

  function ParseAnd(ts: seq<Token>): (p: Parsed)
    ensures p.Parsed? ==> |p.rest| < |ts|
    decreases |ts|, 1
  {
    var p := ParsePrimary(ts);
    if p.Fail? then Fail else AndTail(p.e, p.rest)
  }

  function AndTail(e: Expr, ts: seq<Token>): (p: Parsed)
    ensures p.Parsed? ==> |p.rest| <= |ts|
    decreases |ts|, 2
  {
    if ts != [] && ts[0] == AND then
      var p := ParsePrimary(ts[1..]);
      if p.Fail? then Fail else AndTail(And(e, p.e), p.rest)
    else Parsed(e, ts)
  }

  function ParseOr(ts: seq<Token>): (p: Parsed)
    ensures p.Parsed? ==> |p.rest| < |ts|
    decreases |ts|, 3
  {
    var p := ParseAnd(ts);
    if p.Fail? then Fail else OrTail(p.e, p.rest)
  }

  function OrTail(e: Expr, ts: seq<Token>): (p: Parsed)
    ensures p.Parsed? ==> |p.rest| <= |ts|
    decreases |ts|, 4
  {
    if ts != [] && ts[0] == OR then
      var p := ParseAnd(ts[1..]);
      if p.Fail? then Fail else OrTail(Or(e, p.e), p.rest)
    else Parsed(e, ts)
  }

  /** A condition must be read to its end. */
  function ParseCondition(s: string): Option<Expr> {
    var ts := Lex(s);
    if ts == None then None else
      var p := ParseOr(ts.value);
      if p.Parsed? && p.rest == [] then Some(p.e) else None
  }
}
