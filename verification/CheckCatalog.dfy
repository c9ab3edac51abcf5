/** Reading CHECKs, partial-index predicates and literal defaults out of catalog SQL. */
module CheckCatalog {
  import opened TextCodec
  import opened CheckTree
  import opened CheckLexer
  import opened CheckParser
  import opened CheckRender

  // ----- whole expressions -----

  predicate IsEscaped(token: Token) {
    token.kind.LiteralText? && '\\' in token.text
  }

  /** MariaDB literals with backslashes depend on the SQL mode, so they stay unknown. */
  function ParseCheck(u: Alphabet, sql: string): Option<CheckExpression> {
    match Lex(Reader(u, true), sql)
    case None => None
    case Some(ts) =>
      if exists i :: 0 <= i < |ts| && IsEscaped(ts[i]) then None else ParseTokens(false, ts)
  }

  method ReadCheck(u: Alphabet, sql: string) returns (result: Option<CheckExpression>)
    ensures result == ParseCheck(u, sql)
  {
    var tokens := Tokenize(Reader(u, true), sql);
    if tokens.None? || exists i :: 0 <= i < |tokens.value| && IsEscaped(tokens.value[i]) {
      return None;
    }
    var parser := new Parser(tokens.value, false);
    result := parser.Parse();
  }

  /** `LiteralDefault(value)`, where NoValue is the default NULL. */
  function ParseDefault(u: Alphabet, mariadb: bool, sql: string): Option<Value> {
    match Lex(Reader(u, mariadb), sql)
    case None => None
    case Some(ts) =>
      if mariadb && exists i :: 0 <= i < |ts| && IsEscaped(ts[i]) then None
      else
        match ParseTokens(true, ts)
        case None => None
        case Some(e) => if e.operator.Literal? then Some(e.value) else None
  }

  method ReadDefault(u: Alphabet, mariadb: bool, sql: string) returns (result: Option<Value>)
    ensures result == ParseDefault(u, mariadb, sql)
  {
    var tokens := Tokenize(Reader(u, mariadb), sql);
    if tokens.None? {
      return None;
    }
    if mariadb && exists i :: 0 <= i < |tokens.value| && IsEscaped(tokens.value[i]) {
      return None;
    }
    var parser := new Parser(tokens.value, true);
    var expression := parser.Parse();
    result := if expression.Some? && expression.value.operator.Literal? then Some(expression.value.value) else None;
  }

  // ----- CHECKs of a CREATE TABLE -----

  predicate IsWord(token: Token, text: string) {
    token.kind.Word? && Upper(token.text) == text
  }

  /** The position of the parenthesis that closes `nested` open ones. */
  function ClosingAt(ts: seq<Token>, p: nat, nested: nat): (r: Option<nat>)
    ensures r.Some? ==> p <= r.value < |ts| && ts[r.value] == Punctuation(")")
    decreases |ts| - p
  {
    if p >= |ts| then None
    else if ts[p] == Punctuation("(") then ClosingAt(ts, p + 1, nested + 1)
    else if ts[p] == Punctuation(")") then
      if nested <= 1 then Some(p) else ClosingAt(ts, p + 1, nested - 1)
    else ClosingAt(ts, p + 1, nested)
  }

  function CheckName(ts: seq<Token>, p: nat): Option<string>
    requires p < |ts|
  {
    if p >= 2 && IsWord(ts[p - 2], "CONSTRAINT") then Some(ts[p - 1].text) else None
  }

  function After(shape: CheckShape, rest: Option<seq<CheckShape>>): Option<seq<CheckShape>> {
    if rest.None? then None else Some([shape] + rest.value)
  }

  /** How the body of a CHECK is read. */
  type BodyReader = seq<Token> -> Option<CheckExpression>

  function ConditionReader(): BodyReader {
    (body: seq<Token>) => ParseTokens(false, body)
  }

  function ScanChecks(read: BodyReader, ts: seq<Token>, p: nat, depth: int): Option<seq<CheckShape>>
    decreases |ts| - p
  {
    if p >= |ts| then Some([])
    else if ts[p] == Punctuation("(") then ScanChecks(read, ts, p + 1, depth + 1)
    else if ts[p] == Punctuation(")") then ScanChecks(read, ts, p + 1, depth - 1)
    else if depth == 1 && IsWord(ts[p], "CHECK") then
      if p + 1 >= |ts| || ts[p + 1] != Punctuation("(") then None
      else
        match ClosingAt(ts, p + 2, 1)
        case None => None
        case Some(closing) =>
          After(CheckShape(CheckName(ts, p), read(ts[p + 2..closing])),
                ScanChecks(read, ts, closing + 1, depth))
    else ScanChecks(read, ts, p + 1, depth)
  }

  function SqliteChecks(u: Alphabet, sql: string): Option<seq<CheckShape>> {
    match Lex(Reader(u, false), sql)
    case None => None
    case Some(ts) => ScanChecks(ConditionReader(), ts, 0, 0)
  }

  method FindClosing(ts: seq<Token>, start: nat) returns (result: Option<nat>)
    ensures result == ClosingAt(ts, start, 1)
  {
    var closing, nested := start, 1;
    while closing < |ts|
      invariant start <= closing
      invariant nested >= 1
      invariant ClosingAt(ts, start, 1) == ClosingAt(ts, closing, nested)
      decreases |ts| - closing
    {
      if ts[closing] == Punctuation("(") {
        nested := nested + 1;
      } else if ts[closing] == Punctuation(")") {
        if nested == 1 {
          return Some(closing);
        }
        nested := nested - 1;
      }
      closing := closing + 1;
    }
    result := None;
  }

  /** The CHECK bodies found at the table-definition depth, in order. */
  method ReadSqliteChecks(u: Alphabet, sql: string) returns (result: Option<seq<CheckShape>>)
    ensures result == SqliteChecks(u, sql)
  {
    var lexed := Tokenize(Reader(u, false), sql);
    if lexed.None? {
      return None;
    }
    var tokens := lexed.value;
    var checks: seq<CheckShape> := [];
    var depth, position := 0, 0;
    ghost var read := ConditionReader();
    ghost var whole := ScanChecks(read, tokens, 0, 0);
    AppendedNothing(whole);
    while position < |tokens|
      invariant 0 <= position
      invariant whole == Appended(checks, ScanChecks(read, tokens, position, depth))
      decreases |tokens| - position
    {
      var token := tokens[position];
      if token == Punctuation("(") {
        depth := depth + 1;
      } else if token == Punctuation(")") {
        depth := depth - 1;
      } else if depth == 1 && IsWord(token, "CHECK") {
        if position + 1 >= |tokens| || tokens[position + 1] != Punctuation("(") {
          return None;
        }
        var closing := FindClosing(tokens, position + 2);
        if closing.None? {
          return None;
        }
        var parser := new Parser(tokens[position + 2..closing.value], false);
        var expression := parser.Parse();
        var shape := CheckShape(CheckName(tokens, position), expression);
        AppendedShape(checks, shape, ScanChecks(read, tokens, closing.value + 1, depth));
        checks := checks + [shape];
        position := closing.value;
      }
      position := position + 1;
    }
    assert checks + [] == checks;
    result := Some(checks);
  }

  lemma AppendedNothing(rest: Option<seq<CheckShape>>)
    ensures Appended([], rest) == rest
  {
    if rest.Some? {
      assert [] + rest.value == rest.value;
    }
  }

  function Appended(checks: seq<CheckShape>, rest: Option<seq<CheckShape>>): Option<seq<CheckShape>> {
    if rest.None? then None else Some(checks + rest.value)
  }

  lemma AppendedShape(checks: seq<CheckShape>, shape: CheckShape, rest: Option<seq<CheckShape>>)
    ensures Appended(checks, After(shape, rest)) == Appended(checks + [shape], rest)
  {
    if rest.Some? {
      assert checks + ([shape] + rest.value) == checks + [shape] + rest.value;
    }
  }

  // ----- the WHERE of a CREATE INDEX -----

  function AsciiLower(s: string): string {
    seq(|s|, i requires 0 <= i < |s| =>
      if 'A' <= s[i] <= 'Z' then (s[i] as int - 'A' as int + 'a' as int) as char else s[i])
  }

  /** The last declared column spelled like `name`, ignoring ASCII case. */
  function ColumnNamed(columns: seq<string>, name: string): Option<string> {
    if columns == [] then None
    else if AsciiLower(columns[|columns| - 1]) == AsciiLower(name) then Some(columns[|columns| - 1])
    else ColumnNamed(columns[..|columns| - 1], name)
  }

  function CanonicalColumns(columns: seq<string>, e: CheckExpression): Option<CheckExpression>
    decreases e, 1
  {
    if e.operator.Column? then
      if !e.value.Text? then None
      else
        match ColumnNamed(columns, e.value.text)
        case None => None
        case Some(name) => Some(ColumnRef(name))
    else
      match AllCanonicalColumns(columns, e.arguments)
      case None => None
      case Some(arguments) => Some(CheckExpression(e.operator, arguments, e.value))
  }

  function AllCanonicalColumns(columns: seq<string>, es: seq<CheckExpression>): Option<seq<CheckExpression>>
    decreases es, 0
  {
    if es == [] then Some([])
    else
      match (CanonicalColumns(columns, es[0]), AllCanonicalColumns(columns, es[1..]))
      case (Some(first), Some(rest)) => Some([first] + rest)
      case _ => None
  }

  /** The first WHERE after the column list has closed, outside every parenthesis. */
  function WhereAt(ts: seq<Token>, p: nat, depth: nat, closed: bool): (r: Option<nat>)
    ensures r.Some? ==> r.value < |ts|
    decreases |ts| - p
  {
    if p >= |ts| then None
    else if ts[p] == Punctuation("(") then WhereAt(ts, p + 1, depth + 1, closed)
    else if ts[p] == Punctuation(")") then
      if depth == 0 then None else WhereAt(ts, p + 1, depth - 1, depth == 1)
    else if depth == 0 && closed && IsWord(ts[p], "WHERE") then Some(p)
    else WhereAt(ts, p + 1, depth, closed)
  }

  function WithoutTerminator(ts: seq<Token>): seq<Token> {
    if ts != [] && ts[|ts| - 1] == Punctuation(";") then ts[..|ts| - 1] else ts
  }

  function PredicateOf(ts: seq<Token>, columns: seq<string>): Option<CheckExpression> {
    match WhereAt(ts, 0, 0, false)
    case None => None
    case Some(p) =>
      match ParseTokens(false, ts[p + 1..])
      case None => None
      case Some(e) => CanonicalColumns(columns, e)
  }

  function IndexPredicate(u: Alphabet, sql: string, columns: seq<string>): Option<CheckExpression> {
    match Lex(Reader(u, false), sql)
    case None => None
    case Some(ts) => PredicateOf(WithoutTerminator(ts), columns)
  }

  method FindWhere(tokens: seq<Token>) returns (result: Option<nat>)
    ensures result == WhereAt(tokens, 0, 0, false)
  {
    var depth, closed := 0, false;
    for position := 0 to |tokens|
      invariant depth >= 0
      invariant WhereAt(tokens, 0, 0, false) == WhereAt(tokens, position, depth, closed)
    {
      var token := tokens[position];
      if token == Punctuation("(") {
        depth := depth + 1;
      } else if token == Punctuation(")") {
        if depth == 0 {
          return None;
        }
        depth := depth - 1;
        closed := depth == 0;
      } else if depth == 0 && closed && IsWord(token, "WHERE") {
        return Some(position);
      }
    }
    result := None;
  }

  method ReadIndexPredicate(u: Alphabet, sql: string, columns: seq<string>)
    returns (result: Option<CheckExpression>)
    ensures result == IndexPredicate(u, sql, columns)
  {
    var lexed := Tokenize(Reader(u, false), sql);
    if lexed.None? {
      return None;
    }
    var tokens := WithoutTerminator(lexed.value);
    var position := FindWhere(tokens);
    if position.None? {
      return None;
    }
    var parser := new Parser(tokens[position.value + 1..], false);
    var expression := parser.Parse();
    result := if expression.None? then None else CanonicalColumns(columns, expression.value);
  }
}
