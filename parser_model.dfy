/**
 * The meaning of the recursive-descent parser (parser/parser.go) as functions
 * on a parser state value: the two-token window, the lexer's cursor and the
 * diagnostics collected so far. The `Parser` class in module `Parsing` is
 * proved to follow these functions step for step.
 *
 * The `let` and `return` statements skip tokens until the current one is `;`.
 * When no `;` is left the Go loops never stop; here that outcome is the
 * value `Diverges`, so that every function is total.
 */
module ParserModel {
  import opened Wrappers
  import opened Tokens
  import opened Lexing
  import opened Strconv
  import opened Ast

  /** The precedence levels; `parseExpression` receives one and ignores it. */
  datatype Precedence = Lowest | Equals | LessGreater | Sum | Product | Prefix | Call

  /** The diagnostics, by kind and payload (their wording is not modelled). */
  datatype Diagnostic =
    | ExpectedNextToken(expected: TokenKind, got: TokenKind)
    | CouldNotParseInteger(literal: Bytes)
    | NoPrefixParseFunction(kind: TokenKind)

  /**
   * The parser's state: the input its lexer reads, the `current`/`peek`
   * window, the lexer's cursor position and the diagnostics so far.
   */
  datatype ParserState = ParserState(
    input: Bytes, current: Token, peek: Token, pos: nat, errors: seq<Diagnostic>)

  /**
   * What holds of every state after `New`: both window tokens are tokens the
   * lexer produces, a non-EOF `peek` ended inside the input, and a non-EOF
   * `current` was followed by a token lexed from inside the input.
   */
  predicate WellFormed(s: ParserState) {
    && Lexable(s.current) && Lexable(s.peek)
    && (s.peek.kind != Eof ==> s.pos <= |s.input|)
    && (s.current.kind != Eof ==> s.pos <= |s.input| + 1)
  }

  /** `t` is a later state of the same parse: same input, cursor not behind, diagnostics only appended. */
  predicate Follows(s: ParserState, t: ParserState) {
    WellFormed(t) && t.input == s.input && s.pos <= t.pos && s.errors <= t.errors
  }

  /** A measure that every `nextToken` lowers while `current` is not EOF. */
  function Rank(s: ParserState): nat {
    if s.pos <= |s.input| + 1 then |s.input| + 2 - s.pos else 0
  }

  /** `nextToken`: `current` takes the old `peek`, `peek` takes the lexer's next token. */
  function Advance(s: ParserState): (r: ParserState)
    ensures WellFormed(s) ==> WellFormed(r)
    ensures r.input == s.input && r.errors == s.errors && s.pos < r.pos
    ensures s.current.kind != Eof && WellFormed(s) ==> Rank(r) < Rank(s)
  {
    var l := NextTokenAt(s.input, s.pos);
    s.(current := s.peek, peek := l.tok, pos := l.next)
  }

  /** The window's tokens before `New` fills it (Go's zero Token); never observed afterwards. */
  const Unset: Token := Token(Illegal, [])

  /** `New`: a parser over a lexer at `pos`, after its two `nextToken` calls. */
  function Init(input: Bytes, pos: nat): (r: ParserState)
    ensures WellFormed(r) && r.input == input && r.errors == []
    ensures r.current == NextTokenAt(input, pos).tok
    ensures r.peek == NextTokenAt(input, NextTokenAt(input, pos).next).tok
  {
    Advance(Advance(ParserState(input, Unset, Unset, pos, [])))
  }

  /** `peekError`: records that `expected` was wanted but `peek` has another kind. */
  function PeekError(s: ParserState, expected: TokenKind): (r: ParserState)
    ensures r.(errors := s.errors) == s
    ensures |r.errors| == |s.errors| + 1 && r.errors[..|s.errors|] == s.errors
    ensures r.errors[|s.errors|] == ExpectedNextToken(expected, s.peek.kind)
  {
    s.(errors := s.errors + [ExpectedNextToken(expected, s.peek.kind)])
  }

  datatype Checked = Checked(ok: bool, state: ParserState)

  /**
   * `expectPeek`: on a matching `peek`, advance once and succeed; otherwise
   * leave the window as it is, append exactly one diagnostic and fail.
   */
  function ExpectPeek(s: ParserState, k: TokenKind): (r: Checked)
    ensures r.ok <==> s.peek.kind == k
    ensures r.ok ==> r.state == Advance(s)
    ensures !r.ok ==> r.state.(errors := s.errors) == s
                      && r.state.errors == s.errors + [ExpectedNextToken(k, s.peek.kind)]
  {
    if s.peek.kind == k then Checked(true, Advance(s)) else Checked(false, PeekError(s, k))
  }

  /** The prefix handlers `New` registers. */
  datatype PrefixFn = ParseIdentifierFn | ParseIntegerLiteralFn | ParsePrefixExpressionFn

  /** The prefix-handler registry: IDENT, INT, `!` and `-` have handlers, no other kind does. */
  function PrefixParseFn(k: TokenKind): (f: Option<PrefixFn>)
    ensures f.Some? <==> k in {Ident, Int, Bang, Minus}
  {
    match k
    case Ident => Some(ParseIdentifierFn)
    case Int => Some(ParseIntegerLiteralFn)
    case Bang => Some(ParsePrefixExpressionFn)
    case Minus => Some(ParsePrefixExpressionFn)
    case _ => None
  }

  /** An expression (absent where Go returns nil) and the state after parsing it. */
  datatype ExprResult = ExprResult(expr: Option<Expression>, state: ParserState)

  /** `noPrefixParseError`: records that kind `k` has no prefix handler. */
  function NoPrefixParseError(s: ParserState, k: TokenKind): (r: ParserState)
    ensures r.(errors := s.errors) == s
    ensures |r.errors| == |s.errors| + 1 && r.errors[..|s.errors|] == s.errors
    ensures r.errors[|s.errors|] == NoPrefixParseFunction(k)
  {
    s.(errors := s.errors + [NoPrefixParseFunction(k)])
  }

  /** `parseIdentifier`: wraps `current`; consumes nothing. */
  function ParseIdentifier(s: ParserState): (r: ExprResult)
    ensures r.state == s && r.expr.Some? && r.expr.value.IdentifierExpression?
    ensures r.expr.value.id.value == s.current.literal && r.expr.value.TokenLiteral() == s.current.literal
  {
    ExprResult(Some(IdentifierExpression(Identifier(s.current, s.current.literal))), s)
  }

  /** `parseIntegerLiteral`: converts `current`'s literal, or records the failure and yields nothing. */
  function ParseIntegerLiteral(s: ParserState): (r: ExprResult)
    ensures r.expr.Some? <==> ParseInt(s.current.literal).Some?
    ensures r.expr.Some? ==> r.state == s && r.expr.value.TokenLiteral() == s.current.literal
                             && r.expr.value.IntegerLiteral? && r.expr.value.value == ParseInt(s.current.literal).value
    ensures r.expr.None? ==> r.state.(errors := s.errors) == s
                             && r.state.errors == s.errors + [CouldNotParseInteger(s.current.literal)]
  {
    match ParseInt(s.current.literal)
    case Some(v) => ExprResult(Some(IntegerLiteral(s.current, v)), s)
    case None =>
      ExprResult(None, s.(errors := s.errors + [CouldNotParseInteger(s.current.literal)]))
  }

  /**
   * `parseExpression`: dispatches on `current`'s prefix handler. The
   * precedence is not consulted and there is no infix loop.
   */
  function ParseExpression(s: ParserState, precedence: Precedence): (r: ExprResult)
    requires WellFormed(s)
    decreases Rank(s), 1
    ensures Follows(s, r.state)
    ensures r.expr.Some? ==> r.expr.value.TokenLiteral() == s.current.literal
  {
    match PrefixParseFn(s.current.kind)
    case None => ExprResult(None, NoPrefixParseError(s, s.current.kind))
    case Some(ParseIdentifierFn) => ParseIdentifier(s)
    case Some(ParseIntegerLiteralFn) => ParseIntegerLiteral(s)
    case Some(ParsePrefixExpressionFn) => ParsePrefixExpression(s)
  }

  /** `parsePrefixExpression`: takes the operator, advances, and parses the operand. */
  function ParsePrefixExpression(s: ParserState): (r: ExprResult)
    requires WellFormed(s) && s.current.kind != Eof
    decreases Rank(s), 0
    ensures Follows(s, r.state) && s.pos < r.state.pos
    ensures r.expr == Some(PrefixExpression(s.current, s.current.literal,
                                            ParseExpression(Advance(s), Prefix).expr))
  {
    var right := ParseExpression(Advance(s), Prefix);
    ExprResult(Some(PrefixExpression(s.current, s.current.literal, right.expr)), right.state)
  }

  /** A statement and the state after it, or the outcome of a loop that never stops. */
  datatype Run<T> = Diverges | Done(value: T, state: ParserState)

  /** `parseExpressionStatement`: an expression, then an optional `;`. */
  function ParseExpressionStatement(s: ParserState): (r: Run<Statement>)
    requires WellFormed(s)
    ensures r.Done? && Follows(s, r.state)
  {
    var e := ParseExpression(s, Lowest);
    var t := if e.state.peek.kind == Semicolon then Advance(e.state) else e.state;
    Done(ExpressionStatement(s.current, e.expr), t)
  }

  /** A measure that `nextToken` lowers as long as a `;` can still come. */
  function SkipRank(s: ParserState): nat {
    2 * (if s.pos < |s.input| then |s.input| - s.pos else 0)
    + (if s.peek.kind == Semicolon then 1 else 0)
  }

  /** With the cursor at the end and neither window token a `;`, no `;` will ever be current. */
  predicate NoSemicolonLeft(s: ParserState) {
    s.pos >= |s.input| && s.current.kind != Semicolon && s.peek.kind != Semicolon
  }

  /** One skipped token lowers `SkipRank` unless no `;` is left. */
  lemma SkipRankDecreases(s: ParserState)
    requires s.current.kind != Semicolon && !NoSemicolonLeft(s)
    ensures SkipRank(Advance(s)) < SkipRank(s)
  {
  }

  /**
   * The `for !currentTokenIs(SEMICOLON) { nextToken() }` loop: the first
   * state whose `current` is `;`, or none when the loop never stops.
   */
  function SkipToSemicolon(s: ParserState): (r: Option<ParserState>)
    requires WellFormed(s)
    decreases SkipRank(s)
    ensures r.Some? ==> r.value.current.kind == Semicolon && Follows(s, r.value)
                        && r.value.errors == s.errors
  {
    if s.current.kind == Semicolon then Some(s)
    else if NoSemicolonLeft(s) then None
    else
      SkipRankDecreases(s);
      SkipToSemicolon(Advance(s))
  }

  /**
   * `parseLetStatement`: expects an identifier and `=`, then skips to `;`
   * without parsing a value. A failed expectation yields the nil let.
   */
  function ParseLetStatement(s: ParserState): (r: Run<Statement>)
    requires WellFormed(s)
    ensures r.Done? ==> Follows(s, r.state) && (r.value.LetStatement? || r.value.NilLet?)
    ensures s.peek.kind != Ident ==> r.Done? && r.value.NilLet? && |r.state.errors| == |s.errors| + 1
    ensures r.Done? && r.value.LetStatement? ==>
      && r.value.token == s.current && r.value.name.token.kind == Ident && r.value.value.None?
      && r.state.current.kind == Semicolon && r.state.errors == s.errors
  {
    var p1 := ExpectPeek(s, Ident);
    if !p1.ok then Done(NilLet, p1.state)
    else
      var name := Identifier(p1.state.current, p1.state.current.literal);
      var p2 := ExpectPeek(p1.state, Assign);
      if !p2.ok then Done(NilLet, p2.state)
      else
        match SkipToSemicolon(p2.state)
        case None => Diverges
        case Some(t) => Done(LetStatement(s.current, name, None), t)
  }

  /** `parseReturnStatement`: advances past `return`, then skips to `;` without parsing a value. */
  function ParseReturnStatement(s: ParserState): (r: Run<Statement>)
    requires WellFormed(s)
    ensures r.Done? ==> Follows(s, r.state) && r.state.errors == s.errors
  {
    match SkipToSemicolon(Advance(s))
    case None => Diverges
    case Some(t) => Done(ReturnStatement(s.current, None), t)
  }

  /** `parseStatement`: dispatches on `let`, `return`, or anything else. */
  function ParseStatement(s: ParserState): (r: Run<Statement>)
    requires WellFormed(s)
    ensures r.Done? ==> Follows(s, r.state)
    ensures r.Done? ==> (s.current.kind == Let <==> r.value.LetStatement? || r.value.NilLet?)
    ensures r.Done? ==> (s.current.kind == Return <==> r.value.ReturnStatement?)
    ensures s.current.kind != Let && s.current.kind != Return ==> r.Done? && r.value.ExpressionStatement?
  {
    match s.current.kind
    case Let => ParseLetStatement(s)
    case Return => ParseReturnStatement(s)
    case _ => ParseExpressionStatement(s)
  }

  /**
   * The `ParseProgram` loop from state `s` with `acc` already collected:
   * every statement is appended (a failed let included) and the window is
   * advanced once after each, until `current` is EOF.
   */
  function ParseProgramFrom(s: ParserState, acc: seq<Statement>): (r: Run<Program>)
    requires WellFormed(s)
    decreases Rank(s)
    ensures r.Done? ==> Follows(s, r.state) && r.state.current.kind == Eof
    ensures r.Done? ==> |acc| <= |r.value.statements| && r.value.statements[..|acc|] == acc
    ensures r.Done? ==> (s.current.kind == Eof <==> r.value.statements == acc)
  {
    if s.current.kind == Eof then Done(Program(acc), s)
    else
      match ParseStatement(s)
      case Diverges => Diverges
      case Done(stmt, t) =>
        var r := ParseProgramFrom(Advance(t), acc + [stmt]);
        assert r.Done? ==> r.value.statements[..|acc|] == (acc + [stmt])[..|acc|];
        r
  }

  /** `ParseProgram`: the program loop from no statements. */
  function ParseProgram(s: ParserState): (r: Run<Program>)
    requires WellFormed(s)
    ensures r.Done? ==> Follows(s, r.state) && r.state.current.kind == Eof
    ensures r.Done? ==> (s.current.kind == Eof <==> r.value.statements == [])
  {
    ParseProgramFrom(s, [])
  }
}
