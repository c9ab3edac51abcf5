/** The catalog tokenizer: a specification by recursion on the remaining text, and the scanning
    loop that refines it. */
module CheckLexer {
  import opened TextCodec

  datatype Kind = Word | Identifier | LiteralText | Number | Symbol

  datatype Token = Token(kind: Kind, text: string)

  /** Which characters beyond ASCII count as letters, and as letters or digits. */
  datatype Alphabet = Alphabet(letter: char -> bool, letterOrDigit: char -> bool)

  datatype Reader = Reader(alphabet: Alphabet, mariadb: bool)

  predicate IsAscii(c: char) {
    c as int < 128
  }

  predicate AllAscii(s: string) {
    forall i :: 0 <= i < |s| ==> IsAscii(s[i])
  }

  predicate IsSpace(c: char) {
    c == ' ' || c == '\t' || c == '\n' || c == '\r' || c as int == 12
  }

  predicate StartsWord(u: Alphabet, c: char) {
    || 'a' <= c <= 'z' || 'A' <= c <= 'Z' || c == '_'
    || (!IsAscii(c) && u.letter(c))
  }

  predicate ContinuesWord(u: Alphabet, c: char) {
    || 'a' <= c <= 'z' || 'A' <= c <= 'Z' || IsDigit(c) || c == '_' || c == '$'
    || (!IsAscii(c) && u.letterOrDigit(c))
  }

  predicate StartsWith(s: string, c: char, d: char) {
    |s| >= 2 && s[0] == c && s[1] == d
  }

  /** The length of the text up to and including the first newline, or all of it. */
  function LineEnd(s: string): (n: nat)
    ensures n <= |s|
  {
    if s == [] then 0 else if s[0] == '\n' then 1 else 1 + LineEnd(s[1..])
  }

  /** The length of the text up to and including the end of a comment. */
  function CommentEnd(s: string): (n: Option<nat>)
    ensures n.Some? ==> n.value <= |s|
  {
    if |s| < 2 then None
    else if StartsWith(s, '*', '/') then Some(2)
    else
      var n := CommentEnd(s[1..]);
      if n.None? then None else Some(1 + n.value)
  }

  /** The text up to the closing quote, a doubled quote standing for one, and the length read. */
  function Quoted(quote: char, doubling: bool, s: string): (r: Option<(string, nat)>)
    ensures r.Some? ==> 1 <= r.value.1 <= |s|
  {
    if s == [] then None
    else if s[0] != quote then AfterQuoted([s[0]], 1, Quoted(quote, doubling, s[1..]))
    else if |s| > 1 && s[1] == quote && doubling then AfterQuoted([quote], 2, Quoted(quote, doubling, s[2..]))
    else Some(([], 1))
  }

  function AfterQuoted(value: string, width: nat, rest: Option<(string, nat)>): Option<(string, nat)> {
    if rest.None? then None else Some((value + rest.value.0, width + rest.value.1))
  }

  function WordRun(u: Alphabet, s: string): (n: nat)
    ensures n <= |s|
  {
    if s == [] || !ContinuesWord(u, s[0]) then 0 else 1 + WordRun(u, s[1..])
  }

  function DigitRun(s: string): (n: nat)
    ensures n <= |s|
    ensures forall i :: 0 <= i < n ==> IsDigit(s[i])
  {
    if s == [] || !IsDigit(s[0]) then 0 else 1 + DigitRun(s[1..])
  }

  predicate IsPair(c: char, d: char) {
    || (c == '>' && d == '=') || (c == '<' && d == '=') || (c == '<' && d == '>')
    || (c == '!' && d == '=') || (c == '=' && d == '=')
  }

  predicate IsQuote(c: char) {
    c == '\'' || c == '\"' || c == '`' || c == '['
  }

  function Closing(c: char): char {
    if c == '[' then ']' else c
  }

  function QuoteKind(c: char): Kind {
    if c == '\'' then LiteralText else Identifier
  }

  predicate StartsLineComment(reader: Reader, s: string) {
    StartsWith(s, '-', '-') && (!reader.mariadb || |s| == 2 || IsSpace(s[2]))
  }

  // A comment opened with an exclamation mark, with or without an M, is one MariaDB executes.
  predicate StartsExecutableComment(s: string) {
    StartsWith(s, '/', '*')
    && ((|s| >= 3 && s[2] == '!') || (|s| >= 4 && s[2] == 'M' && s[3] == '!'))
  }

  function Prepend(tokens: seq<Token>, rest: Option<seq<Token>>): Option<seq<Token>> {
    match rest
    case None => None
    case Some(more) => Some(tokens + more)
  }

  /** What stands at the front of the text: so much blank or comment to pass over, a comment that is
      refused, or a token. */
  datatype Front = Past(width: nat) | Refused | AtToken

  function FrontOf(reader: Reader, s: string): (f: Front)
    requires s != []
    ensures f.Past? ==> 1 <= f.width <= |s|
  {
    if IsSpace(s[0]) then Past(1)
    else if StartsLineComment(reader, s) then Past(2 + LineEnd(s[2..]))
    else if StartsWith(s, '/', '*') then
      var end := CommentEnd(s[2..]);
      if end.None? || StartsExecutableComment(s) then Refused else Past(2 + end.value)
    else AtToken
  }

  function Lex(reader: Reader, s: string): Option<seq<Token>>
    decreases |s|, 1
  {
    if s == [] then Some([])
    else
      match FrontOf(reader, s)
      case Past(width) => Lex(reader, s[width..])
      case Refused => None
      case AtToken => LexToken(reader, s)
  }

  function LexToken(reader: Reader, s: string): Option<seq<Token>>
    requires s != []
    decreases |s|, 0
  {
    match NextToken(reader.alphabet, s)
    case None => None
    case Some((token, width)) => Prepend([token], Lex(reader, s[width..]))
  }

  /** The first token of text that starts with neither a blank nor a comment, and its length. */
  function NextToken(u: Alphabet, s: string): (r: Option<(Token, nat)>)
    requires s != []
    ensures r.Some? ==> 1 <= r.value.1 <= |s|
  {
    if IsQuote(s[0]) then
      match Quoted(Closing(s[0]), s[0] != '[', s[1..])
      case None => None
      case Some((text, width)) => Some((Token(QuoteKind(s[0]), text), 1 + width))
    else if StartsWord(u, s[0]) then
      var end := 1 + WordRun(u, s[1..]);
      Some((WordToken(s[..end]), end))
    else if IsDigit(s[0]) then
      var end := 1 + DigitRun(s[1..]);
      Some((Token(Number, s[..end]), end))
    else if |s| >= 2 && IsPair(s[0], s[1]) then
      Some((Token(Symbol, s[..2]), 2))
    else
      Some((Token(Symbol, s[..1]), 1))
  }

  function WordToken(text: string): Token {
    Token(if AllAscii(text) then Word else Identifier, text)
  }

  // ----- the scanning loop -----

  method ReadQuoted(sql: string, start: nat, quote: char, doubling: bool)
    returns (closed: bool, value: string, position: nat)
    requires start <= |sql|
    ensures closed ==> start < position <= |sql|
    ensures Quoted(quote, doubling, sql[start..]) == if closed then Some((value, position - start)) else None
  {
    value, position := [], start;
    ReadNothing(quote, doubling, sql, start);
    while position < |sql|
      invariant start <= position <= |sql| && QuotedSoFar(quote, doubling, sql, start, value, position)
    {
      if sql[position] != quote {
        ReadCharacter(quote, doubling, sql, start, value, position);
        value := value + [sql[position]];
        position := position + 1;
      } else if position + 1 < |sql| && sql[position + 1] == quote && doubling {
        ReadDoubled(quote, doubling, sql, start, value, position);
        value := value + [quote];
        position := position + 2;
      } else {
        ReadClosing(quote, doubling, sql, start, value, position);
        return true, value, position + 1;
      }
    }
    ReadUnclosed(quote, doubling, sql, start, value);
    closed := false;
  }

  /** What the text reads as from `start`, given what it reads as from `position`. */
  ghost predicate QuotedSoFar(quote: char, doubling: bool, sql: string, start: nat, value: string, position: nat)
    requires start <= position <= |sql|
  {
    forall rest {:trigger AfterQuoted(value, position - start, rest)} ::
      rest == Quoted(quote, doubling, sql[position..]) ==>
        Quoted(quote, doubling, sql[start..]) == AfterQuoted(value, position - start, rest)
  }

  lemma {:induction false} ReadNothing(quote: char, doubling: bool, sql: string, start: nat)
    requires start <= |sql|
    ensures QuotedSoFar(quote, doubling, sql, start, [], start)
  {
    AfterQuotedNothing(Quoted(quote, doubling, sql[start..]));
  }

  lemma {:induction false} ReadCharacter(quote: char, doubling: bool, sql: string, start: nat, value: string, position: nat)
    requires start <= position < |sql| && sql[position] != quote
    requires QuotedSoFar(quote, doubling, sql, start, value, position)
    ensures QuotedSoFar(quote, doubling, sql, start, value + [sql[position]], position + 1)
  {
    QuotedNext(quote, doubling, sql, position);
    AfterQuotedMore(value, position - start, sql[position], 1, Quoted(quote, doubling, sql[position + 1..]));
  }

  lemma {:induction false} ReadDoubled(quote: char, doubling: bool, sql: string, start: nat, value: string, position: nat)
    requires start <= position && position + 1 < |sql|
    requires sql[position] == quote && sql[position + 1] == quote && doubling
    requires QuotedSoFar(quote, doubling, sql, start, value, position)
    ensures QuotedSoFar(quote, doubling, sql, start, value + [quote], position + 2)
  {
    QuotedNext(quote, doubling, sql, position);
    AfterQuotedMore(value, position - start, quote, 2, Quoted(quote, doubling, sql[position + 2..]));
  }

  lemma {:induction false} ReadClosing(quote: char, doubling: bool, sql: string, start: nat, value: string, position: nat)
    requires start <= position < |sql| && sql[position] == quote
    requires !(position + 1 < |sql| && sql[position + 1] == quote && doubling)
    requires QuotedSoFar(quote, doubling, sql, start, value, position)
    ensures Quoted(quote, doubling, sql[start..]) == Some((value, position + 1 - start))
  {
    QuotedNext(quote, doubling, sql, position);
    assert AfterQuoted(value, position - start, Some(([], 1))) == Some((value + [], position - start + 1));
    assert value + [] == value;
  }

  lemma {:induction false} ReadUnclosed(quote: char, doubling: bool, sql: string, start: nat, value: string)
    requires start <= |sql| && QuotedSoFar(quote, doubling, sql, start, value, |sql|)
    ensures Quoted(quote, doubling, sql[start..]) == None
  {
    QuotedAtEnd(quote, doubling, sql);
    assert AfterQuoted(value, |sql| - start, None) == None;
  }

  lemma {:induction false} QuotedAtEnd(quote: char, doubling: bool, sql: string)
    ensures Quoted(quote, doubling, sql[|sql|..]) == None
  {
  }

  lemma {:induction false} QuotedNext(quote: char, doubling: bool, sql: string, p: nat)
    requires p < |sql|
    ensures Quoted(quote, doubling, sql[p..])
            == if sql[p] != quote then AfterQuoted([sql[p]], 1, Quoted(quote, doubling, sql[p + 1..]))
               else if p + 1 < |sql| && sql[p + 1] == quote && doubling then
                 AfterQuoted([quote], 2, Quoted(quote, doubling, sql[p + 2..]))
               else Some(([], 1))
  {
    var s := sql[p..];
    assert s[0] == sql[p] && s[1..] == sql[p + 1..];
    if p + 1 < |sql| {
      assert s[1] == sql[p + 1] && s[2..] == sql[p + 2..];
    }
  }

  lemma AfterQuotedNothing(rest: Option<(string, nat)>)
    ensures AfterQuoted([], 0, rest) == rest
  {
    if rest.Some? {
      assert [] + rest.value.0 == rest.value.0;
    }
  }

  lemma AfterQuotedMore(value: string, width: nat, c: char, more: nat, rest: Option<(string, nat)>)
    ensures AfterQuoted(value, width, AfterQuoted([c], more, rest)) == AfterQuoted(value + [c], width + more, rest)
  {
    if rest.Some? {
      assert value + ([c] + rest.value.0) == value + [c] + rest.value.0;
    }
  }

  method WordEnd(u: Alphabet, sql: string, start: nat) returns (end: nat)
    requires start <= |sql|
    ensures end == start + WordRun(u, sql[start..])
  {
    end := start;
    while end < |sql| && ContinuesWord(u, sql[end])
      invariant start <= end <= |sql|
      invariant end + WordRun(u, sql[end..]) == start + WordRun(u, sql[start..])
    {
      assert sql[end..][1..] == sql[end + 1..];
      end := end + 1;
    }
  }

  method DigitEnd(sql: string, start: nat) returns (end: nat)
    requires start <= |sql|
    ensures end == start + DigitRun(sql[start..])
  {
    end := start;
    while end < |sql| && IsDigit(sql[end])
      invariant start <= end <= |sql|
      invariant end + DigitRun(sql[end..]) == start + DigitRun(sql[start..])
    {
      assert sql[end..][1..] == sql[end + 1..];
      end := end + 1;
    }
  }

  /** What remains to be read, after the tokens already found. */
  ghost predicate Scanned(reader: Reader, sql: string, tokens: seq<Token>, position: nat)
    requires position <= |sql|
  {
    Lex(reader, sql) == Prepend(tokens, Lex(reader, sql[position..]))
  }

  lemma {:induction false} ScannedToken(reader: Reader, sql: string, tokens: seq<Token>, from: nat, token: Token, to: nat)
    requires from <= to <= |sql|
    requires Scanned(reader, sql, tokens, from)
    requires Lex(reader, sql[from..]) == Prepend([token], Lex(reader, sql[to..]))
    ensures Scanned(reader, sql, tokens + [token], to)
  {
    PrependTwice(tokens, [token], Lex(reader, sql[to..]));
  }

  lemma PrependTwice(a: seq<Token>, b: seq<Token>, rest: Option<seq<Token>>)
    ensures Prepend(a, Prepend(b, rest)) == Prepend(a + b, rest)
  {
    if rest.Some? {
      assert a + (b + rest.value) == a + b + rest.value;
    }
  }

  lemma PrependNothing(rest: Option<seq<Token>>)
    ensures Prepend([], rest) == rest
  {
    if rest.Some? {
      assert [] + rest.value == rest.value;
    }
  }

  /** A newline at `k` that none precedes is where the line ends; without one it ends with the text. */
  lemma {:induction false} LineEndIsFirst(s: string, k: nat)
    requires k <= |s| && forall i :: 0 <= i < k ==> s[i] != '\n'
    requires k < |s| ==> s[k] == '\n'
    ensures LineEnd(s) == if k < |s| then k + 1 else |s|
  {
    if k > 0 {
      LineEndIsFirst(s[1..], k - 1);
    }
  }

  predicate ClosesAt(s: string, i: nat) {
    i + 1 < |s| && s[i] == '*' && s[i + 1] == '/'
  }

  /** A comment ends with its first closing pair, and is open exactly when it holds none. */
  lemma {:induction false} CommentEndIsFirst(s: string, k: nat)
    requires k <= |s| && forall i :: 0 <= i < k ==> !ClosesAt(s, i)
    requires k < |s| ==> ClosesAt(s, k)
    ensures CommentEnd(s) == if k < |s| then Some(k + 2) else None
  {
    if k > 0 && |s| >= 2 {
      forall i | 0 <= i < k - 1
        ensures !ClosesAt(s[1..], i)
      {
        assert !ClosesAt(s, i + 1);
      }
      assert !ClosesAt(s, 0);
      assert k < |s| ==> ClosesAt(s[1..], k - 1);
      CommentEndIsFirst(s[1..], k - 1);
    }
  }

  /** The position after the first newline at or after `start`, or the end of the text. */
  method AfterNewline(sql: string, start: nat) returns (next: nat)
    requires start <= |sql|
    ensures start <= next <= |sql|
    ensures forall i :: start <= i < next - 1 ==> sql[i] != '\n'
    ensures (next > start && sql[next - 1] == '\n') || (next == |sql| && forall i :: start <= i < next ==> sql[i] != '\n')
    ensures next == start + LineEnd(sql[start..])
  {
    next := start;
    while next < |sql| && sql[next] != '\n'
      invariant start <= next <= |sql|
      invariant forall i :: start <= i < next ==> sql[i] != '\n'
    {
      next := next + 1;
    }
    LineEndIsFirst(sql[start..], next - start);
    if next < |sql| {
      next := next + 1;
    }
  }

  /** The position of the first closing pair at or after `start`. */
  method FindCommentEnd(sql: string, start: nat) returns (found: Option<nat>)
    requires start <= |sql|
    ensures found.Some? ==> start <= found.value && ClosesAt(sql, found.value)
    ensures forall i :: start <= i < (if found.Some? then found.value else |sql|) ==> !ClosesAt(sql, i)
    ensures CommentEnd(sql[start..]) == if found.Some? then Some(found.value + 2 - start) else None
  {
    var position := start;
    while position < |sql| && !ClosesAt(sql, position)
      invariant start <= position <= |sql|
      invariant forall i :: start <= i < position ==> !ClosesAt(sql, i)
    {
      position := position + 1;
    }
    forall i | 0 <= i < position - start
      ensures !ClosesAt(sql[start..], i)
    {
      assert !ClosesAt(sql, start + i);
    }
    CommentEndIsFirst(sql[start..], position - start);
    found := if position < |sql| then Some(position) else None;
  }

  /** Recognizes one blank or one comment; refuses an executable or unclosed comment. */
  method SkipOne(reader: Reader, sql: string, position: nat) returns (front: Front)
    requires position < |sql|
    ensures front == FrontOf(reader, sql[position..])
  {
    var s := sql[position..];
    if IsSpace(sql[position]) {
      return Past(1);
    }
    if StartsLineComment(reader, s) {
      var next := AfterNewline(sql, position + 2);
      assert sql[position + 2..] == s[2..];
      return Past(next - position);
    }
    if StartsWith(s, '/', '*') {
      var found := FindCommentEnd(sql, position + 2);
      assert sql[position + 2..] == s[2..];
      if found.None? || StartsExecutableComment(s) {
        return Refused;
      }
      return Past(found.value + 2 - position);
    }
    front := AtToken;
  }

  lemma ScannedStart(reader: Reader, sql: string)
    ensures Scanned(reader, sql, [], 0)
  {
    assert sql[0..] == sql;
    PrependNothing(Lex(reader, sql));
  }

  lemma {:induction false} ScannedEnd(reader: Reader, sql: string, tokens: seq<Token>)
    requires Scanned(reader, sql, tokens, |sql|)
    ensures Lex(reader, sql) == Some(tokens)
  {
    assert sql[|sql|..] == [] && tokens + [] == tokens;
  }

  lemma {:induction false} LexPast(reader: Reader, s: string)
    requires s != [] && FrontOf(reader, s).Past?
    ensures Lex(reader, s) == Lex(reader, s[FrontOf(reader, s).width..])
  {
  }

  lemma ScannedPast(reader: Reader, sql: string, tokens: seq<Token>, position: nat, width: nat)
    requires position < |sql| && Scanned(reader, sql, tokens, position)
    requires FrontOf(reader, sql[position..]) == Past(width)
    ensures position + width <= |sql| && Scanned(reader, sql, tokens, position + width)
  {
    assert sql[position..][width..] == sql[position + width..];
    LexPast(reader, sql[position..]);
  }

  lemma {:induction false} ScannedFails(reader: Reader, sql: string, tokens: seq<Token>, position: nat)
    requires position < |sql| && Scanned(reader, sql, tokens, position)
    requires var s := sql[position..];
      FrontOf(reader, s).Refused? || (FrontOf(reader, s).AtToken? && NextToken(reader.alphabet, s).None?)
    ensures Lex(reader, sql) == None
  {
    LexFails(reader, sql[position..]);
  }

  lemma {:induction false} LexFails(reader: Reader, s: string)
    requires s != []
    requires FrontOf(reader, s).Refused? || (FrontOf(reader, s).AtToken? && NextToken(reader.alphabet, s).None?)
    ensures Lex(reader, s) == None
  {
  }

  lemma {:induction false} LexFront(reader: Reader, s: string, token: Token, width: nat)
    requires s != [] && FrontOf(reader, s) == AtToken && NextToken(reader.alphabet, s) == Some((token, width))
    ensures Lex(reader, s) == Prepend([token], Lex(reader, s[width..]))
  {
  }

  lemma ScannedNext(reader: Reader, sql: string, tokens: seq<Token>, position: nat, token: Token, next: nat)
    requires position < next <= |sql| && Scanned(reader, sql, tokens, position)
    requires FrontOf(reader, sql[position..]) == AtToken
    requires NextToken(reader.alphabet, sql[position..]) == Some((token, next - position))
    ensures Scanned(reader, sql, tokens + [token], next)
  {
    assert sql[position..][next - position..] == sql[next..];
    LexFront(reader, sql[position..], token, next - position);
    ScannedToken(reader, sql, tokens, position, token, next);
  }

  /** One turn of the scanning loop: a blank, a comment or a token. */
  method ScanStep(reader: Reader, sql: string, tokens: seq<Token>, position: nat)
    returns (ok: bool, more: seq<Token>, next: nat)
    requires position < |sql| && Scanned(reader, sql, tokens, position)
    ensures ok ==> position < next <= |sql| && Scanned(reader, sql, more, next)
    ensures !ok ==> Lex(reader, sql) == None
  {
    var front := SkipOne(reader, sql, position);
    if front.Past? {
      ScannedPast(reader, sql, tokens, position, front.width);
      return true, tokens, position + front.width;
    }
    if front.Refused? {
      ScannedFails(reader, sql, tokens, position);
      return false, tokens, position;
    }
    var token;
    token, next := ReadToken(reader.alphabet, sql, position);
    if token.None? {
      ScannedFails(reader, sql, tokens, position);
      return false, tokens, position;
    }
    ScannedNext(reader, sql, tokens, position, token.value, next);
    return true, tokens + [token.value], next;
  }

  /** The tokenizer keeps every non-comment token, and rejects exactly what its specification does. */
  method Tokenize(reader: Reader, sql: string) returns (result: Option<seq<Token>>)
    ensures result == Lex(reader, sql)
  {
    var tokens: seq<Token> := [];
    var position := 0;
    ScannedStart(reader, sql);
    while position < |sql|
      invariant 0 <= position <= |sql|
      invariant Scanned(reader, sql, tokens, position)
      decreases |sql| - position
    {
      var ok;
      ok, tokens, position := ScanStep(reader, sql, tokens, position);
      if !ok {
        return None;
      }
    }
    ScannedEnd(reader, sql, tokens);
    result := Some(tokens);
  }

  /** One token that is neither blank nor a comment. */
  method ReadToken(u: Alphabet, sql: string, position: nat)
    returns (token: Option<Token>, next: nat)
    requires position < |sql|
    ensures token.Some? ==> position < next <= |sql|
    ensures NextToken(u, sql[position..])
            == if token.None? then None else Some((token.value, next - position))
  {
    ghost var s := sql[position..];
    var character := sql[position];
    assert s[1..] == sql[position + 1..];
    if IsQuote(character) {
      var closed, value, after := ReadQuoted(sql, position + 1, Closing(character), character != '[');
      if !closed {
        return None, position;
      }
      return Some(Token(QuoteKind(character), value)), after;
    }
    if StartsWord(u, character) {
      next := WordEnd(u, sql, position + 1);
      token := Some(WordToken(sql[position..next]));
    } else if IsDigit(character) {
      next := DigitEnd(sql, position + 1);
      token := Some(Token(Number, sql[position..next]));
    } else if position + 2 <= |sql| && IsPair(sql[position], sql[position + 1]) {
      next := position + 2;
      token := Some(Token(Symbol, sql[position..next]));
    } else {
      next := position + 1;
      token := Some(Token(Symbol, sql[position..next]));
    }
    assert s[..next - position] == sql[position..next];
    assert |s| >= 2 ==> s[..2] == sql[position..position + 2];
  }
}
