/** Rendering bound CHECK trees as SQL, and the tokens each rendering stands for. */
module CheckRender {
  import opened TextCodec
  import opened CheckTree
  import opened CheckLexer

  // ----- the grammar the binder produces -----

  predicate IsColumn(e: CheckExpression) {
    e.operator.Column? && e.arguments == [] && e.value.Text?
  }

  predicate IsLiteral(e: CheckExpression) {
    e.operator.Literal? && e.arguments == [] && !e.value.NoValue?
  }

  predicate IsBound(e: CheckExpression) {
    && e.value.NoValue?
    && match e.operator
       case And => |e.arguments| == 2 && IsBound(e.arguments[0]) && IsBound(e.arguments[1])
       case Or => |e.arguments| == 2 && IsBound(e.arguments[0]) && IsBound(e.arguments[1])
       case Not => |e.arguments| == 1 && IsBound(e.arguments[0])
       case IsNull => |e.arguments| == 1 && IsColumn(e.arguments[0])
       case IsNotNull => |e.arguments| == 1 && IsColumn(e.arguments[0])
       case In => IsMembership(e)
       case NotIn => IsMembership(e)
       case Between =>
         |e.arguments| == 3 && IsColumn(e.arguments[0])
         && IsLiteral(e.arguments[1]) && IsLiteral(e.arguments[2])
       case _ =>
         IsComparison(e.operator) && |e.arguments| == 2 && IsColumn(e.arguments[0])
         && (IsColumn(e.arguments[1]) || IsLiteral(e.arguments[1]))
  }

  predicate IsMembership(e: CheckExpression) {
    |e.arguments| >= 2 && IsColumn(e.arguments[0])
    && forall i :: 1 <= i < |e.arguments| ==> IsLiteral(e.arguments[i])
  }

  // ----- rendering -----

  function QuoteMark(backend: Backend): char {
    if backend.Sqlite? then '\"' else '`'
  }

  function Doubled(quote: char, s: string): string {
    if s == [] then []
    else (if s[0] == quote then [quote, quote] else [s[0]]) + Doubled(quote, s[1..])
  }

  function Enclosed(quote: char, s: string): string {
    [quote] + Doubled(quote, s) + [quote]
  }

  function QuoteIdentifier(backend: Backend, name: string): string {
    Enclosed(QuoteMark(backend), name)
  }

  predicate HasNul(s: string) {
    exists i :: 0 <= i < |s| && s[i] as int == 0
  }

  function RenderInteger(n: int): string {
    if n < 0 then "-" + Decimal(-n) else Decimal(n)
  }

  function RenderText(backend: Backend, text: string): string {
    var hex := ToHex(Utf8Encode(text));
    if backend.Mariadb? then "CONVERT(X'" + hex + "' USING utf8mb4)"
    else if HasNul(text) then "CAST(X'" + hex + "' AS TEXT)"
    else Enclosed('\'', text)
  }

  function RenderLeaf(backend: Backend, e: CheckExpression): string
    requires IsColumn(e) || IsLiteral(e)
  {
    if e.operator.Column? then QuoteIdentifier(backend, e.value.text)
    else if e.value.Text? then RenderText(backend, e.value.text)
    else RenderInteger(e.value.number)
  }

  function ComparisonSql(op: Operator): string
    requires IsComparison(op)
  {
    match op
    case Eq => "="
    case Ne => "<>"
    case Gt => ">"
    case Gte => ">="
    case Lt => "<"
    case Lte => "<="
  }

  function RenderList(backend: Backend, es: seq<CheckExpression>): string
    requires es != [] && forall i :: 0 <= i < |es| ==> IsLiteral(es[i])
  {
    RenderLeaf(backend, es[0])
    + if |es| == 1 then "" else ", " + RenderList(backend, es[1..])
  }

  function Render(backend: Backend, e: CheckExpression): string
    requires IsBound(e)
  {
    var args := e.arguments;
    match e.operator
    case IsNull => RenderLeaf(backend, args[0]) + " IS NULL"
    case IsNotNull => RenderLeaf(backend, args[0]) + " IS NOT NULL"
    case Not => "NOT (" + Render(backend, args[0]) + ")"
    case In => RenderLeaf(backend, args[0]) + " IN (" + RenderList(backend, args[1..]) + ")"
    case NotIn => RenderLeaf(backend, args[0]) + " NOT IN (" + RenderList(backend, args[1..]) + ")"
    case Between =>
      RenderLeaf(backend, args[0]) + " BETWEEN " + RenderLeaf(backend, args[1])
      + " AND " + RenderLeaf(backend, args[2])
    case And => "(" + Render(backend, args[0]) + ") AND (" + Render(backend, args[1]) + ")"
    case Or => "(" + Render(backend, args[0]) + ") OR (" + Render(backend, args[1]) + ")"
    case _ =>
      RenderLeaf(backend, args[0]) + " " + ComparisonSql(e.operator) + " " + RenderLeaf(backend, args[1])
  }

  // ----- the tokens of a rendering -----

  function Punctuation(text: string): Token {
    Token(Symbol, text)
  }

  function Keyword(text: string): Token {
    Token(Word, text)
  }

  function TextTokens(backend: Backend, text: string): seq<Token> {
    var hex := Token(LiteralText, ToHex(Utf8Encode(text)));
    if backend.Mariadb? then
      [Keyword("CONVERT"), Punctuation("("), Keyword("X"), hex, Keyword("USING"), Keyword("utf8mb4"),
       Punctuation(")")]
    else if HasNul(text) then
      [Keyword("CAST"), Punctuation("("), Keyword("X"), hex, Keyword("AS"), Keyword("TEXT"),
       Punctuation(")")]
    else [Token(LiteralText, text)]
  }

  function IntegerTokens(n: int): seq<Token> {
    if n < 0 then [Punctuation("-"), Token(Number, Decimal(-n))] else [Token(Number, Decimal(n))]
  }

  function LeafTokens(backend: Backend, e: CheckExpression): seq<Token>
    requires IsColumn(e) || IsLiteral(e)
  {
    if e.operator.Column? then [Token(Identifier, e.value.text)]
    else if e.value.Text? then TextTokens(backend, e.value.text)
    else IntegerTokens(e.value.number)
  }

  function ListTokens(backend: Backend, es: seq<CheckExpression>): seq<Token>
    requires es != [] && forall i :: 0 <= i < |es| ==> IsLiteral(es[i])
  {
    LeafTokens(backend, es[0])
    + if |es| == 1 then [] else [Punctuation(",")] + ListTokens(backend, es[1..])
  }

  function Tokens(backend: Backend, e: CheckExpression): seq<Token>
    requires IsBound(e)
  {
    var args := e.arguments;
    match e.operator
    case IsNull => LeafTokens(backend, args[0]) + [Keyword("IS"), Keyword("NULL")]
    case IsNotNull => LeafTokens(backend, args[0]) + [Keyword("IS"), Keyword("NOT"), Keyword("NULL")]
    case Not => [Keyword("NOT"), Punctuation("(")] + Tokens(backend, args[0]) + [Punctuation(")")]
    case In =>
      LeafTokens(backend, args[0]) + [Keyword("IN"), Punctuation("(")]
      + ListTokens(backend, args[1..]) + [Punctuation(")")]
    case NotIn =>
      LeafTokens(backend, args[0]) + [Keyword("NOT"), Keyword("IN"), Punctuation("(")]
      + ListTokens(backend, args[1..]) + [Punctuation(")")]
    case Between =>
      LeafTokens(backend, args[0]) + [Keyword("BETWEEN")] + LeafTokens(backend, args[1])
      + [Keyword("AND")] + LeafTokens(backend, args[2])
    case And =>
      [Punctuation("(")] + Tokens(backend, args[0]) + [Punctuation(")"), Keyword("AND"), Punctuation("(")]
      + Tokens(backend, args[1]) + [Punctuation(")")]
    case Or =>
      [Punctuation("(")] + Tokens(backend, args[0]) + [Punctuation(")"), Keyword("OR"), Punctuation("(")]
      + Tokens(backend, args[1]) + [Punctuation(")")]
    case _ =>
      LeafTokens(backend, args[0]) + [Punctuation(ComparisonSql(e.operator))] + LeafTokens(backend, args[1])
  }
}
