/** The catalog's precedence parser: a specification on the remaining tokens, and the parser object
    whose position field refines it. */
module CheckParser {
  import opened TextCodec
  import opened CheckTree
  import opened CheckLexer

  function Upper(s: string): string {
    seq(|s|, i requires 0 <= i < |s| => if 'a' <= s[i] <= 'z' then UpperChar(s[i]) else s[i])
  }

  function UpperChar(c: char): char
    requires 'a' <= c <= 'z'
  {
    (c as int - 'a' as int + 'A' as int) as char
  }

  /** Keywords and punctuation are never read out of a quoted name or literal. */
  predicate Accepts(tokens: seq<Token>, text: string) {
    && tokens != []
    && (tokens[0].kind.Word? || tokens[0].kind.Symbol?)
    && Upper(tokens[0].text) == text
  }

  /** A parsed prefix and the tokens after it. */
  datatype Parse<+T> = Fail | Ok(result: T, rest: seq<Token>)

  function OperatorWord(op: Operator): string
    requires op.And? || op.Or?
  {
    if op.And? then "AND" else "OR"
  }

  /** `keywords` reads TRUE, FALSE and NULL as literals, which only defaults may contain. */
  function Chain(keywords: bool, op: Operator, ts: seq<Token>): (r: Parse<CheckExpression>)
    requires op.And? || op.Or?
    ensures r.Ok? ==> |r.rest| < |ts|
    decreases |ts|, if op.And? then 2 else 4
  {
    match ChainChild(keywords, op, ts)
    case Fail => Fail
    case Ok(first, rest) => ChainTail(keywords, op, first, rest)
  }

  function ChainChild(keywords: bool, op: Operator, ts: seq<Token>): (r: Parse<CheckExpression>)
    requires op.And? || op.Or?
    ensures r.Ok? ==> |r.rest| < |ts|
    decreases |ts|, if op.And? then 1 else 3
  {
    if op.And? then Comparison(keywords, ts) else Chain(keywords, And, ts)
  }

  function ChainTail(keywords: bool, op: Operator, left: CheckExpression, ts: seq<Token>)
    : (r: Parse<CheckExpression>)
    requires op.And? || op.Or?
    ensures r.Ok? ==> |r.rest| <= |ts|
    decreases |ts|
  {
    if !Accepts(ts, OperatorWord(op)) then Ok(left, ts)
    else
      match ChainChild(keywords, op, ts[1..])
      case Fail => Fail
      case Ok(right, rest) => ChainTail(keywords, op, Node(op, [left, right]), rest)
  }

  function Comparison(keywords: bool, ts: seq<Token>): (r: Parse<CheckExpression>)
    ensures r.Ok? ==> |r.rest| < |ts|
    decreases |ts|, 0, 1
  {
    if Accepts(ts, "NOT") then
      match Comparison(keywords, ts[1..])
      case Fail => Fail
      case Ok(child, rest) => Ok(Node(Not, [child]), rest)
    else
      match Operand(keywords, ts)
      case Fail => Fail
      case Ok(left, rest) => AfterOperand(keywords, left, rest)
  }

  /** The comparison that continues an operand, or the operand itself. */
  function AfterOperand(keywords: bool, left: CheckExpression, ts: seq<Token>)
    : (r: Parse<CheckExpression>)
    ensures r.Ok? ==> |r.rest| <= |ts|
    decreases |ts|, 0, 2
  {
    if Accepts(ts, "IS") then
      var negated := Accepts(ts[1..], "NOT");
      var rest := if negated then ts[2..] else ts[1..];
      if !Accepts(rest, "NULL") then Fail
      else Ok(Node(if negated then IsNotNull else IsNull, [left]), rest[1..])
    else
      var negated := Accepts(ts, "NOT");
      var rest := if negated then ts[1..] else ts;
      if Accepts(rest, "IN") then Membership(keywords, negated, left, rest[1..])
      else if Accepts(rest, "BETWEEN") then Range(keywords, negated, left, rest[1..])
      else if negated then Fail
      else
        match ComparisonAt(ts)
        case None => Ok(left, ts)
        case Some(op) =>
          match Operand(keywords, ts[1..])
          case Fail => Fail
          case Ok(right, after) => Ok(Node(op, [left, right]), after)
  }

  function Membership(keywords: bool, negated: bool, left: CheckExpression, ts: seq<Token>)
    : (r: Parse<CheckExpression>)
    ensures r.Ok? ==> |r.rest| <= |ts|
    decreases |ts|, 0, 1
  {
    if !Accepts(ts, "(") then Fail
    else
      match Operand(keywords, ts[1..])
      case Fail => Fail
      case Ok(value, rest) =>
        match MembersTail(keywords, [value], rest)
        case Fail => Fail
        case Ok(values, after) =>
          if !Accepts(after, ")") then Fail
          else Ok(Node(if negated then NotIn else In, [left] + values), after[1..])
  }

  function MembersTail(keywords: bool, values: seq<CheckExpression>, ts: seq<Token>)
    : (r: Parse<seq<CheckExpression>>)
    ensures r.Ok? ==> |r.rest| <= |ts|
    decreases |ts|, 0, 1
  {
    if !Accepts(ts, ",") then Ok(values, ts)
    else
      match Operand(keywords, ts[1..])
      case Fail => Fail
      case Ok(value, rest) => MembersTail(keywords, values + [value], rest)
  }

  function Range(keywords: bool, negated: bool, left: CheckExpression, ts: seq<Token>)
    : (r: Parse<CheckExpression>)
    ensures r.Ok? ==> |r.rest| <= |ts|
    decreases |ts|, 0, 1
  {
    match Operand(keywords, ts)
    case Fail => Fail
    case Ok(low, rest) =>
      if !Accepts(rest, "AND") then Fail
      else
        match Operand(keywords, rest[1..])
        case Fail => Fail
        case Ok(high, after) =>
          var between := Node(Between, [left, low, high]);
          Ok(if negated then Node(Not, [between]) else between, after)
  }

  function ComparisonAt(ts: seq<Token>): (r: Option<Operator>)
    ensures r.Some? ==> ts != []
  {
    if Accepts(ts, "=") || Accepts(ts, "==") then Some(Eq)
    else if Accepts(ts, "<>") || Accepts(ts, "!=") then Some(Ne)
    else if Accepts(ts, ">") then Some(Gt)
    else if Accepts(ts, ">=") then Some(Gte)
    else if Accepts(ts, "<") then Some(Lt)
    else if Accepts(ts, "<=") then Some(Lte)
    else None
  }

  function Operand(keywords: bool, ts: seq<Token>): (r: Parse<CheckExpression>)
    ensures r.Ok? ==> |r.rest| < |ts|
    decreases |ts|, 0, 0
  {
    if Accepts(ts, "(") then
      match Chain(keywords, Or, ts[1..])
      case Fail => Fail
      case Ok(inner, rest) => if Accepts(rest, ")") then Ok(inner, rest[1..]) else Fail
    else
      var negative := Accepts(ts, "-");
      var unsigned := if negative then ts[1..] else ts;
      var plus := !negative && Accepts(unsigned, "+");
      var rest := if plus then unsigned[1..] else unsigned;
      if rest == [] then Fail
      else if rest[0].kind.Number? then
        match IntegerText(rest[0].text)
        case None => Fail
        case Some(n) => Ok(LiteralOf(Integer(Signed(negative, n))), rest[1..])
      else if negative || plus then Fail
      else Unsigned(keywords, rest)
  }

  function Signed(negative: bool, n: nat): int {
    if negative then -(n as int) else n
  }

  function IntegerText(s: string): Option<nat> {
    if s != [] && forall i :: 0 <= i < |s| ==> IsDigit(s[i]) then Some(DecimalValue(s)) else None
  }

  /** An operand that is neither parenthesized nor numeric. */
  function Unsigned(keywords: bool, ts: seq<Token>): (r: Parse<CheckExpression>)
    requires ts != []
    ensures r.Ok? ==> |r.rest| < |ts|
  {
    var token := ts[0];
    if token.kind.LiteralText? then Ok(LiteralOf(Text(token.text)), ts[1..])
    else if token.kind.Word? && Upper(token.text) == "CONVERT" then
      HexCall("USING", "UTF8MB4", ts[1..])
    else if token.kind.Word? && Upper(token.text) == "CAST" then
      HexCall("AS", "TEXT", ts[1..])
    else if keywords && token.kind.Word? && KeywordLiteral(Upper(token.text)).Some? then
      Ok(LiteralOf(KeywordLiteral(Upper(token.text)).value), ts[1..])
    else if token.kind.Identifier? then Ok(ColumnRef(token.text), ts[1..])
    else if token.kind.Word? && !IsReserved(Upper(token.text)) then Ok(ColumnRef(token.text), ts[1..])
    else Fail
  }

  function KeywordLiteral(word: string): Option<Value> {
    if word == "TRUE" then Some(Integer(1))
    else if word == "FALSE" then Some(Integer(0))
    else if word == "NULL" then Some(NoValue)
    else None
  }

  predicate IsReserved(word: string) {
    word in ["TRUE", "FALSE", "NULL", "CURRENT_DATE", "CURRENT_TIME", "CURRENT_TIMESTAMP",
             "CURRENT_USER", "SESSION_USER", "SYSTEM_USER"]
  }

  /** `(X'..' USING utf8mb4)` and `(X'..' AS TEXT)`, after their function name. */
  function HexCall(preposition: string, target: string, ts: seq<Token>): (r: Parse<CheckExpression>)
    ensures r.Ok? ==> |r.rest| < |ts|
  {
    if |ts| < 6 then Fail
    else if !Accepts(ts, "(") || !Accepts(ts[1..], "X") || !ts[2].kind.LiteralText? then Fail
    else if !Accepts(ts[3..], preposition) || !Accepts(ts[4..], target) || !Accepts(ts[5..], ")") then Fail
    else
      match HexText(ts[2].text)
      case None => Fail
      case Some(text) => Ok(LiteralOf(Text(text)), ts[6..])
  }

  /** A complete expression: every token is consumed. */
  function ParseTokens(keywords: bool, ts: seq<Token>): Option<CheckExpression> {
    match Chain(keywords, Or, ts)
    case Fail => None
    case Ok(e, rest) => if rest == [] then Some(e) else None
  }

  // ----- the parser object -----

  class Parser {
    const tokens: seq<Token>
    const keywords: bool
    var position: nat

    constructor (tokens: seq<Token>, keywords: bool)
      ensures this.tokens == tokens && this.keywords == keywords && position == 0
    {
      this.tokens, this.keywords, position := tokens, keywords, 0;
    }

    ghost predicate Valid()
      reads this
    {
      position <= |tokens|
    }

    function Remaining(): seq<Token>
      requires Valid()
      reads this
    {
      tokens[position..]
    }

    /** The result and the new position are the ones the specification gives. */
    ghost predicate Follows(spec: Parse<CheckExpression>, result: Option<CheckExpression>)
      reads this
    {
      && Valid()
      && match spec
         case Fail => result == None
         case Ok(e, rest) => result == Some(e) && Remaining() == rest
    }

    method Parse() returns (result: Option<CheckExpression>)
      requires position == 0
      modifies this`position
      ensures Valid()
      ensures result == ParseTokens(keywords, tokens)
    {
      assert tokens[0..] == tokens;
      result := Boolean(Or);
      if result.Some? && position != |tokens| {
        result := None;
      }
    }

    method Accept(text: string) returns (accepted: bool)
      requires Valid()
      modifies this`position
      ensures Valid()
      ensures accepted == old(Accepts(Remaining(), text))
      ensures Remaining() == if accepted then old(Remaining())[1..] else old(Remaining())
      ensures position == if accepted then old(position) + 1 else old(position)
    {
      if position >= |tokens| {
        return false;
      }
      var token := tokens[position];
      if !(token.kind.Word? || token.kind.Symbol?) || Upper(token.text) != text {
        return false;
      }
      position := position + 1;
      accepted := true;
    }

    method Boolean(op: Operator) returns (result: Option<CheckExpression>)
      requires Valid() && (op.And? || op.Or?)
      modifies this`position
      ensures Follows(old(Chain(keywords, op, Remaining())), result)
      decreases |tokens| - position, if op.And? then 2 else 4
    {
      ghost var start := position;
      ghost var spec := Chain(keywords, op, Remaining());
      result := BooleanChild(op);
      if result.None? {
        return;
      }
      var more := true;
      while more
        invariant Valid() && start < position && result.Some?
        invariant spec == if more then ChainTail(keywords, op, result.value, Remaining())
                          else Ok(result.value, Remaining())
        decreases more, |tokens| - position
      {
        more := Accept(OperatorWord(op));
        if more {
          var right := BooleanChild(op);
          if right.None? {
            return None;
          }
          result := Some(Node(op, [result.value, right.value]));
        }
      }
    }

    method BooleanChild(op: Operator) returns (result: Option<CheckExpression>)
      requires Valid() && (op.And? || op.Or?)
      modifies this`position
      ensures Follows(old(ChainChild(keywords, op, Remaining())), result)
      ensures result.Some? ==> old(position) < position
      decreases |tokens| - position, if op.And? then 1 else 3
    {
      if op.And? {
        result := ParseComparison();
      } else {
        result := Boolean(And);
      }
    }

    method ParseComparison() returns (result: Option<CheckExpression>)
      requires Valid()
      modifies this`position
      ensures Follows(old(Comparison(keywords, Remaining())), result)
      decreases |tokens| - position, 0, 1
    {
      var negation := Accept("NOT");
      if negation {
        var child := ParseComparison();
        return if child.Some? then Some(Node(Not, [child.value])) else None;
      }
      var left := ParseOperand();
      if left.None? {
        return None;
      }
      result := ParseAfterOperand(left.value);
    }

    method ParseAfterOperand(left: CheckExpression) returns (result: Option<CheckExpression>)
      requires Valid()
      modifies this`position
      ensures Follows(old(AfterOperand(keywords, left, Remaining())), result)
      decreases |tokens| - position, 0, 2
    {
      var isTest := Accept("IS");
      if isTest {
        var negated := Accept("NOT");
        var closed := Accept("NULL");
        return if closed then Some(Node(if negated then IsNotNull else IsNull, [left])) else None;
      }
      var negated := Accept("NOT");
      var membership := Accept("IN");
      if membership {
        result := ParseMembership(negated, left);
        return;
      }
      var range := Accept("BETWEEN");
      if range {
        result := ParseRange(negated, left);
        return;
      }
      if negated {
        return None;
      }
      var op := AcceptComparison();
      if op.None? {
        return Some(left);
      }
      var right := ParseOperand();
      return if right.Some? then Some(Node(op.value, [left, right.value])) else None;
    }

    method AcceptComparison() returns (op: Option<Operator>)
      requires Valid()
      modifies this`position
      ensures Valid()
      ensures op == old(ComparisonAt(Remaining()))
      ensures position == if op.Some? then old(position) + 1 else old(position)
      ensures Remaining() == if op.Some? then old(Remaining())[1..] else old(Remaining())
    {
      var spellings := [("=", Eq), ("==", Eq), ("<>", Ne), ("!=", Ne),
                        (">", Gt), (">=", Gte), ("<", Lt), ("<=", Lte)];
      ghost var here := Remaining();
      var i := 0;
      while i < |spellings|
        invariant 0 <= i <= |spellings| && position == old(position)
        invariant forall j :: 0 <= j < i ==> !Accepts(here, spellings[j].0)
      {
        var found := Accept(spellings[i].0);
        if found {
          assert Upper(here[0].text) == spellings[i].0;
          return Some(spellings[i].1);
        }
        i := i + 1;
      }
      assert forall j :: 0 <= j < 8 ==> !Accepts(here, spellings[j].0);
      assert !Accepts(here, spellings[0].0) && !Accepts(here, spellings[1].0);
      assert !Accepts(here, spellings[2].0) && !Accepts(here, spellings[3].0);
      assert !Accepts(here, spellings[4].0) && !Accepts(here, spellings[5].0);
      assert !Accepts(here, spellings[6].0) && !Accepts(here, spellings[7].0);
      op := None;
    }

    method ParseMembership(negated: bool, left: CheckExpression) returns (result: Option<CheckExpression>)
      requires Valid()
      modifies this`position
      ensures Follows(old(Membership(keywords, negated, left, Remaining())), result)
      decreases |tokens| - position, 0, 1
    {
      var open := Accept("(");
      if !open {
        return None;
      }
      var first := ParseOperand();
      if first.None? {
        return None;
      }
      var values := [first.value];
      ghost var spec := MembersTail(keywords, values, Remaining());
      ghost var start := position;
      var more := true;
      while more
        invariant Valid() && start <= position
        invariant spec == if more then MembersTail(keywords, values, Remaining())
                          else Ok(values, Remaining())
        decreases more, |tokens| - position
      {
        more := Accept(",");
        if more {
          var value := ParseOperand();
          if value.None? {
            return None;
          }
          values := values + [value.value];
        }
      }
      var closed := Accept(")");
      return if closed then Some(Node(if negated then NotIn else In, [left] + values)) else None;
    }

    method ParseRange(negated: bool, left: CheckExpression) returns (result: Option<CheckExpression>)
      requires Valid()
      modifies this`position
      ensures Follows(old(Range(keywords, negated, left, Remaining())), result)
      decreases |tokens| - position, 0, 1
    {
      var low := ParseOperand();
      if low.None? {
        return None;
      }
      var conjunction := Accept("AND");
      if !conjunction {
        return None;
      }
      var high := ParseOperand();
      if high.None? {
        return None;
      }
      var between := Node(Between, [left, low.value, high.value]);
      result := Some(if negated then Node(Not, [between]) else between);
    }

    method ParseOperand() returns (result: Option<CheckExpression>)
      requires Valid()
      modifies this`position
      ensures Follows(old(Operand(keywords, Remaining())), result)
      ensures result.Some? ==> old(position) < position
      decreases |tokens| - position, 0, 0
    {
      var open := Accept("(");
      if open {
        var inner := Boolean(Or);
        if inner.None? {
          return None;
        }
        var closed := Accept(")");
        return if closed then inner else None;
      }
      var negative := Accept("-");
      var plus := false;
      if !negative {
        plus := Accept("+");
      }
      if position >= |tokens| {
        return None;
      }
      var token := tokens[position];
      if token.kind.Number? {
        position := position + 1;
        var n := IntegerText(token.text);
        return if n.Some? then Some(LiteralOf(Integer(Signed(negative, n.value)))) else None;
      }
      if negative || plus {
        return None;
      }
      result := ParseUnsigned();
    }

    method ParseUnsigned() returns (result: Option<CheckExpression>)
      requires Valid() && position < |tokens|
      modifies this`position
      ensures Follows(old(Unsigned(keywords, Remaining())), result)
    {
      var token := tokens[position];
      position := position + 1;
      if token.kind.LiteralText? {
        return Some(LiteralOf(Text(token.text)));
      }
      if token.kind.Word? && Upper(token.text) in ["CONVERT", "CAST"] {
        var convert := Upper(token.text) == "CONVERT";
        result := ParseHexCall(if convert then "USING" else "AS", if convert then "UTF8MB4" else "TEXT");
        return;
      }
      if keywords && token.kind.Word? && Upper(token.text) in ["TRUE", "FALSE", "NULL"] {
        return Some(LiteralOf(KeywordLiteral(Upper(token.text)).value));
      }
      if token.kind.Word? || token.kind.Identifier? {
        if token.kind.Word? && IsReserved(Upper(token.text)) {
          return None;
        }
        return Some(ColumnRef(token.text));
      }
      result := None;
    }

    method ParseHexCall(preposition: string, target: string) returns (result: Option<CheckExpression>)
      requires Valid()
      modifies this`position
      ensures Follows(old(HexCall(preposition, target, Remaining())), result)
    {
      ghost var ts := Remaining();
      var open := Accept("(");
      if !open {
        return None;
      }
      var marker := Accept("X");
      if !marker || position >= |tokens| || !tokens[position].kind.LiteralText? {
        return None;
      }
      var encoded := tokens[position].text;
      position := position + 1;
      assert Remaining() == ts[3..];
      var joined := Accept(preposition);
      if !joined {
        return None;
      }
      var named := Accept(target);
      if !named {
        return None;
      }
      var closed := Accept(")");
      if !closed {
        return None;
      }
      var text := HexText(encoded);
      result := if text.Some? then Some(LiteralOf(Text(text.value))) else None;
    }
  }
}
