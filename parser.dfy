/**
 * The Go parser object (parser/parser.go): a lexer, the `current`/`peek`
 * window and the diagnostics list, all updated in place. Each method is
 * proved to take the parser from `State()` to what the matching function of
 * `ParserModel` gives. The methods that run a `;`-skipping loop require that
 * the loop stops, which is exactly when the model does not give `Diverges`.
 */
module Parsing {
  import opened Wrappers
  import opened Tokens
  import opened Lexing
  import opened Ast
  import opened ParserModel

  class Parser {
    const lxr: Lexer
    var current: Token
    var peek: Token
    var errors: seq<Diagnostic>

    /** The parser as a value of the model. */
    ghost function State(): ParserState
      reads this, lxr
    {
      ParserState(lxr.input, current, peek, lxr.position, errors)
    }

    ghost predicate Valid()
      reads this, lxr
    {
      lxr.Valid() && WellFormed(State())
    }

    /** `New`: takes the lexer and fills the window with its first two tokens. */
    constructor (l: Lexer)
      requires l.Valid()
      modifies l
      ensures Valid() && lxr == l
      ensures State() == Init(l.input, old(l.position))
    {
      lxr := l;
      current, peek, errors := Unset, Unset, [];
      new;
      ghost var s0 := State();
      NextToken();
      NextToken();
      assert State() == Advance(Advance(s0)) == Init(l.input, old(l.position));
    }

    /** `Errors`: the diagnostics so far, in order, as the model state records them. */
    function Errors(): (r: seq<Diagnostic>)
      reads this, lxr
      ensures r == State().errors
    {
      errors
    }

    /** `peekTokenIs`: exactly when `expectPeek(k)` would succeed. */
    predicate PeekTokenIs(k: TokenKind)
      reads this, lxr
      ensures PeekTokenIs(k) <==> ParserModel.ExpectPeek(State(), k).ok
    {
      peek.kind == k
    }

    /** `currentTokenIs`: for `;`, exactly when the skip loop stops without moving. */
    predicate CurrentTokenIs(k: TokenKind)
      reads this, lxr
      ensures CurrentTokenIs(k) <==> State().current.kind == k
      ensures k == Semicolon && WellFormed(State()) ==>
                (CurrentTokenIs(k) <==> SkipToSemicolon(State()) == Some(State()))
    {
      current.kind == k
    }

    /** `nextToken`. */
    method NextToken()
      requires lxr.Valid()
      modifies this, lxr
      ensures lxr.Valid() && State() == ParserModel.Advance(old(State()))
    {
      current := peek;
      peek := lxr.NextToken();
    }

    method ParseProgram() returns (program: Program)
      requires Valid() && ParserModel.ParseProgram(State()).Done?
      modifies this, lxr
      ensures Valid() && ParserModel.ParseProgram(old(State())) == Done(program, State())
    {
      var statements: seq<Statement> := [];
      while current.kind != Eof
        invariant Valid()
        invariant ParseProgramFrom(State(), statements) == ParserModel.ParseProgram(old(State()))
        decreases Rank(State())
      {
        // Go tests `stmt != nil`, but a failed let is a nil pointer inside a
        // non-nil interface value, so every statement is appended.
        var stmt := ParseStatement();
        statements := statements + [stmt];
        NextToken();
      }
      program := Program(statements);
    }

    method ParseStatement() returns (stmt: Statement)
      requires Valid() && ParserModel.ParseStatement(State()).Done?
      modifies this, lxr
      ensures Valid() && ParserModel.ParseStatement(old(State())) == Done(stmt, State())
    {
      match current.kind {
        case Let => stmt := ParseLetStatement();
        case Return => stmt := ParseReturnStatement();
        case _ => stmt := ParseExpressionStatement();
      }
    }

    method ParseLetStatement() returns (stmt: Statement)
      requires Valid() && ParserModel.ParseLetStatement(State()).Done?
      modifies this, lxr
      ensures Valid() && ParserModel.ParseLetStatement(old(State())) == Done(stmt, State())
    {
      var token := current;
      var ok := ExpectPeek(Ident);
      if !ok {
        return NilLet;
      }
      var name := Identifier(current, current.literal);
      ok := ExpectPeek(Assign);
      if !ok {
        return NilLet;
      }
      ghost var skipped := ParserModel.SkipToSemicolon(State());
      while !CurrentTokenIs(Semicolon)
        invariant Valid() && ParserModel.SkipToSemicolon(State()) == skipped
        decreases SkipRank(State())
      {
        SkipRankDecreases(State());
        NextToken();
      }
      stmt := LetStatement(token, name, None);
    }

    method ExpectPeek(k: TokenKind) returns (ok: bool)
      requires Valid()
      modifies this, lxr
      ensures Valid() && ParserModel.ExpectPeek(old(State()), k) == Checked(ok, State())
    {
      if PeekTokenIs(k) {
        NextToken();
        return true;
      }
      PeekError(k);
      return false;
    }

    method PeekError(k: TokenKind)
      requires Valid()
      modifies this
      ensures Valid() && State() == ParserModel.PeekError(old(State()), k)
    {
      errors := errors + [ExpectedNextToken(k, peek.kind)];
    }

    method ParseReturnStatement() returns (stmt: Statement)
      requires Valid() && ParserModel.ParseReturnStatement(State()).Done?
      modifies this, lxr
      ensures Valid() && ParserModel.ParseReturnStatement(old(State())) == Done(stmt, State())
    {
      var token := current;
      NextToken();
      ghost var skipped := ParserModel.SkipToSemicolon(State());
      while !CurrentTokenIs(Semicolon)
        invariant Valid() && ParserModel.SkipToSemicolon(State()) == skipped
        decreases SkipRank(State())
      {
        SkipRankDecreases(State());
        NextToken();
      }
      stmt := ReturnStatement(token, None);
    }

    method ParseExpressionStatement() returns (stmt: Statement)
      requires Valid()
      modifies this, lxr
      ensures Valid() && ParserModel.ParseExpressionStatement(old(State())) == Done(stmt, State())
    {
      var token := current;
      var expression := ParseExpression(Lowest);
      if PeekTokenIs(Semicolon) {
        NextToken();
      }
      stmt := ExpressionStatement(token, expression);
    }

    method ParseExpression(precedence: Precedence) returns (expr: Option<Expression>)
      requires Valid()
      modifies this, lxr
      decreases Rank(State()), 1
      ensures Valid()
      ensures ParserModel.ParseExpression(old(State()), precedence) == ExprResult(expr, State())
    {
      match PrefixParseFn(current.kind) {
        case None =>
          NoPrefixParseError(current.kind);
          return None;
        case Some(ParseIdentifierFn) =>
          expr := ParseIdentifier();
        case Some(ParseIntegerLiteralFn) =>
          expr := ParseIntegerLiteral();
        case Some(ParsePrefixExpressionFn) =>
          expr := ParsePrefixExpression();
      }
    }

    method ParseIdentifier() returns (expr: Option<Expression>)
      requires Valid()
      ensures ParserModel.ParseIdentifier(State()) == ExprResult(expr, State())
    {
      expr := Some(IdentifierExpression(Identifier(current, current.literal)));
    }

    method ParseIntegerLiteral() returns (expr: Option<Expression>)
      requires Valid()
      modifies this
      ensures Valid() && ParserModel.ParseIntegerLiteral(old(State())) == ExprResult(expr, State())
    {
      var value := Strconv.ParseInt(current.literal);
      if value.None? {
        errors := errors + [CouldNotParseInteger(current.literal)];
        return None;
      }
      expr := Some(IntegerLiteral(current, value.value));
    }

    method ParsePrefixExpression() returns (expr: Option<Expression>)
      requires Valid() && current.kind != Eof
      modifies this, lxr
      decreases Rank(State()), 0
      ensures Valid() && ParserModel.ParsePrefixExpression(old(State())) == ExprResult(expr, State())
    {
      var token := current;
      NextToken();
      var right := ParseExpression(Prefix);
      expr := Some(PrefixExpression(token, token.literal, right));
    }

    method NoPrefixParseError(k: TokenKind)
      requires Valid()
      modifies this
      ensures Valid() && State() == ParserModel.NoPrefixParseError(old(State()), k)
    {
      errors := errors + [NoPrefixParseFunction(k)];
    }
  }
}
