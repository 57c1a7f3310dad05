/**
 * Properties of the parser model (parser/parser.go), which the `Parser`
 * class is proved to follow: how the window moves along the lexer's token
 * stream, when the `;`-skipping loops stop, what each statement form
 * produces and which diagnostics it records.
 */
module ParserFacts {
  import opened Wrappers
  import opened Tokens
  import opened Lexing
  import opened LexerFacts
  import opened Strconv
  import opened Ast
  import opened ParserModel
  import opened Iteration

  /** The n-th token the parser will see: `current`, `peek`, then what the lexer yields next. */
  function Upcoming(s: ParserState, n: nat): Token {
    if n == 0 then s.current
    else if n == 1 then s.peek
    else NthToken(s.input, s.pos, n - 2)
  }

  /** `n` calls of `nextToken`. */
  function AdvanceN(s: ParserState, n: nat): ParserState
  {
    Iterate(Advance, s, n)
  }

  /** `nextToken` moves the window one token along the stream. */
  lemma AdvanceShiftsWindow(s: ParserState, n: nat)
    ensures Upcoming(Advance(s), n) == Upcoming(s, n + 1)
  {
  }

  /** The first of `k` calls of `nextToken` is taken first. */
  lemma AdvanceNFirst(s: ParserState, k: nat)
    requires k > 0
    ensures AdvanceN(s, k) == AdvanceN(Advance(s), k - 1)
  {
  }

  lemma AdvanceNShiftsWindow(s: ParserState, k: nat, n: nat)
    ensures Upcoming(AdvanceN(s, k), n) == Upcoming(s, n + k)
  {
    forall t: ParserState, m: nat
      ensures Upcoming(Advance(t), m) == Upcoming(t, m + 1)
    {
      AdvanceShiftsWindow(t, m);
    }
    IterateShifts(Advance, Upcoming, s, k, n);
  }

  /** Any number of `nextToken` calls keeps the input, the diagnostics and well-formedness. */
  lemma {:induction false} AdvanceNFollows(s: ParserState, k: nat)
    requires WellFormed(s)
    ensures WellFormed(AdvanceN(s, k))
    ensures AdvanceN(s, k).input == s.input && AdvanceN(s, k).errors == s.errors
    decreases k
  {
    if k > 0 {
      AdvanceNFollows(Advance(s), k - 1);
    }
  }

  /** `New` leaves the first two tokens of the lexer in `current` and `peek`; the rest follow in order. */
  lemma {:induction false} InitWindow(input: Bytes, pos: nat, n: nat)
    ensures Upcoming(Init(input, pos), n) == NthToken(input, pos, n)
  {
    var z := ParserState(input, Unset, Unset, pos, []);
    AdvanceShiftsWindow(Advance(z), n);
    AdvanceShiftsWindow(z, n + 1);
  }

  /** Past the end of the input with no `;` in the window, the window never again holds a `;`. */
  lemma {:induction false} NoSemicolonLeftStays(s: ParserState, n: nat)
    requires NoSemicolonLeft(s)
    ensures NoSemicolonLeft(AdvanceN(s, n))
    decreases n
  {
    if n > 0 {
      NoSemicolonLeftStays(Advance(s), n - 1);
    }
  }

  /**
   * The skip loop stops exactly at the first state whose `current` is `;`:
   * its result is reached by some number of `nextToken` calls, and no
   * earlier state has a `;` in `current`.
   */
  lemma {:induction false} SkipStopsAtFirstSemicolon(s: ParserState) returns (k: nat)
    requires WellFormed(s) && SkipToSemicolon(s).Some?
    ensures SkipToSemicolon(s).value == AdvanceN(s, k)
    ensures forall j | 0 <= j < k :: AdvanceN(s, j).current.kind != Semicolon
    decreases SkipRank(s)
  {
    if s.current.kind == Semicolon {
      k := 0;
    } else {
      assert !NoSemicolonLeft(s);
      assert SkipToSemicolon(s) == SkipToSemicolon(Advance(s));
      SkipRankDecreases(s);
      var k' := SkipStopsAtFirstSemicolon(Advance(s));
      k := k' + 1;
      AdvanceNFirst(s, k);
      forall j | 0 <= j < k
        ensures AdvanceN(s, j).current.kind != Semicolon
      {
        if j > 0 {
          AdvanceNFirst(s, j);
        }
      }
    }
  }

  /** When the model says the skip loop diverges, no number of `nextToken` calls ever brings a `;`. */
  lemma {:induction false} SkipDivergesForever(s: ParserState, n: nat)
    requires WellFormed(s) && SkipToSemicolon(s).None?
    ensures AdvanceN(s, n).current.kind != Semicolon
    decreases SkipRank(s)
  {
    if NoSemicolonLeft(s) {
      NoSemicolonLeftStays(s, n);
    } else if n > 0 {
      SkipRankDecreases(s);
      SkipDivergesForever(Advance(s), n - 1);
    }
  }

  /** A `;` somewhere ahead means the window is not stuck past the end. */
  lemma SemicolonAheadIsLeft(s: ParserState, k: nat)
    requires Upcoming(s, k).kind == Semicolon
    ensures !NoSemicolonLeft(s)
  {
    if k >= 2 && s.pos >= |s.input| {
      EofForever(s.input, s.pos, k - 2);
    }
  }

  /**
   * In stream terms: if the k-th upcoming token is the first `;`, the skip
   * loop stops after k calls of `nextToken`.
   */
  lemma {:induction false} SkipFindsSemicolon(s: ParserState, k: nat)
    requires WellFormed(s)
    requires Upcoming(s, k).kind == Semicolon
    requires forall j | 0 <= j < k :: Upcoming(s, j).kind != Semicolon
    ensures SkipToSemicolon(s) == Some(AdvanceN(s, k))
    decreases k
  {
    if k > 0 {
      SemicolonAheadIsLeft(s, k);
      forall j | 0 <= j < k - 1
        ensures Upcoming(Advance(s), j).kind != Semicolon
      {
        AdvanceShiftsWindow(s, j);
      }
      AdvanceShiftsWindow(s, k - 1);
      SkipFindsSemicolon(Advance(s), k - 1);
      assert Upcoming(s, 0) == s.current;
      assert SkipToSemicolon(s) == SkipToSemicolon(Advance(s));
      AdvanceNFirst(s, k);
    }
  }

  /** `parseExpression` does not look at its precedence argument. */
  lemma ParseExpressionIgnoresPrecedence(s: ParserState, p: Precedence, q: Precedence)
    requires WellFormed(s)
    ensures ParseExpression(s, p) == ParseExpression(s, q)
  {
  }

  /** The state with one more diagnostic. */
  function WithError(s: ParserState, d: Diagnostic): ParserState {
    s.(errors := s.errors + [d])
  }

  /** `let <ident> =`: both expectations succeed, each advancing once. */
  lemma LetHeaderParses(s: ParserState)
    requires WellFormed(s) && s.current.kind == Let && s.peek.kind == Ident
    requires Upcoming(s, 2).kind == Assign
    ensures ExpectPeek(s, Ident) == Checked(true, Advance(s))
    ensures ExpectPeek(Advance(s), Assign) == Checked(true, AdvanceN(s, 2))
  {
    AdvanceShiftsWindow(s, 1);
    AdvanceNStep(s, 0);
    AdvanceNStep(s, 1);
  }

  /**
   * `let <ident> = … ;`: a let statement named by the identifier, with no
   * value and no diagnostic; parsing stops on the first `;` after the `=`.
   */
  lemma LetStatementParses(s: ParserState, k: nat)
    requires WellFormed(s) && s.current.kind == Let && s.peek.kind == Ident
    requires Upcoming(s, 2).kind == Assign
    requires Upcoming(s, k + 2).kind == Semicolon
    requires forall j | 2 <= j < k + 2 :: Upcoming(s, j).kind != Semicolon
    ensures ParseStatement(s) ==
      Done(LetStatement(Token(Let, "let"), Identifier(s.peek, s.peek.literal), None), AdvanceN(s, k + 2))
    ensures AdvanceN(s, k + 2).errors == s.errors
  {
    LetHeaderParses(s);
    SkipFindsSemicolonAfter(s, 2, k);
  }

  /** After `a` tokens have been taken, the skip stops on the first `;` of the window from there on. */
  lemma SkipFindsSemicolonAfter(s: ParserState, a: nat, k: nat)
    requires WellFormed(s)
    requires Upcoming(s, a + k).kind == Semicolon
    requires forall j | a <= j < a + k :: Upcoming(s, j).kind != Semicolon
    ensures WellFormed(AdvanceN(s, a))
    ensures SkipToSemicolon(AdvanceN(s, a)) == Some(AdvanceN(s, a + k))
    ensures AdvanceN(s, a + k).errors == s.errors
  {
    var t := AdvanceN(s, a);
    forall j | 0 <= j <= k
      ensures Upcoming(t, j) == Upcoming(s, a + j)
    {
      AdvanceNShiftsWindow(s, a, j);
    }
    AdvanceNFollows(s, a + k);
    AdvanceNFollows(s, a);
    SkipFindsSemicolon(t, k);
    AdvanceNAdds(s, a, k);
  }

  lemma AdvanceNAdds(s: ParserState, a: nat, b: nat)
    ensures AdvanceN(AdvanceN(s, a), b) == AdvanceN(s, a + b)
  {
    IterateAdds(Advance, s, a, b);
  }

  /** One turn of the program loop: the statement is appended and the window advanced. */
  lemma ProgramLoopStep(s: ParserState, acc: seq<Statement>, st: Statement, t: ParserState)
    requires WellFormed(s) && s.current.kind != Eof && ParseStatement(s) == Done(st, t)
    ensures WellFormed(Advance(t))
    ensures ParseProgramFrom(s, acc) == ParseProgramFrom(Advance(t), acc + [st])
  {
  }

  /** The program loop stops at EOF with what it has collected. */
  lemma ProgramLoopEnd(s: ParserState, acc: seq<Statement>)
    requires WellFormed(s) && s.current.kind == Eof
    ensures ParseProgramFrom(s, acc) == Done(Program(acc), s)
  {
  }

  /** One more `nextToken` after `k`. */
  lemma AdvanceNStep(s: ParserState, k: nat)
    ensures Advance(AdvanceN(s, k)) == AdvanceN(s, k + 1)
  {
    IterateStep(Advance, s, k);
  }

  /** `let` not followed by an identifier: the nil let and one "expected IDENT" diagnostic; the window stays. */
  lemma LetWithoutIdentifier(s: ParserState)
    requires WellFormed(s) && s.current.kind == Let && s.peek.kind != Ident
    ensures ParseStatement(s) == Done(NilLet, WithError(s, ExpectedNextToken(Ident, s.peek.kind)))
  {
  }

  /**
   * `let x 5;`: the nil let and exactly one "expected =" diagnostic, after
   * which the program loop resumes with the token after the identifier as
   * `current`.
   */
  lemma LetWithoutAssignResumes(s: ParserState, acc: seq<Statement>)
    requires WellFormed(s) && s.current.kind == Let && s.peek.kind == Ident
    requires Upcoming(s, 2).kind != Assign
    ensures var t := WithError(AdvanceN(s, 2), ExpectedNextToken(Assign, Upcoming(s, 2).kind));
      && WellFormed(t) && t.current == Upcoming(s, 2)
      && ParseProgramFrom(s, acc) == ParseProgramFrom(t, acc + [NilLet])
  {
    AdvanceNShiftsWindow(s, 2, 0);
    assert AdvanceN(s, 2) == Advance(Advance(s));
  }

  /** `return … ;`: one return statement with no value and no diagnostic. */
  lemma ReturnStatementParses(s: ParserState, k: nat)
    requires WellFormed(s) && s.current.kind == Return
    requires Upcoming(s, k + 1).kind == Semicolon
    requires forall j | 1 <= j < k + 1 :: Upcoming(s, j).kind != Semicolon
    ensures ParseStatement(s) == Done(ReturnStatement(Token(Return, "return"), None), AdvanceN(s, k + 1))
    ensures AdvanceN(s, k + 1).errors == s.errors
  {
    AdvanceNStep(s, 0);
    SkipFindsSemicolonAfter(s, 1, k);
  }

  /** The state after an expression statement's optional `;`. */
  function AfterOptionalSemicolon(s: ParserState): ParserState {
    if s.peek.kind == Semicolon then Advance(s) else s
  }

  /** A bare identifier is an expression statement wrapping that identifier. */
  lemma IdentifierStatement(s: ParserState)
    requires WellFormed(s) && s.current.kind == Ident
    ensures ParseStatement(s) ==
      Done(ExpressionStatement(s.current, Some(IdentifierExpression(Identifier(s.current, s.current.literal)))),
           AfterOptionalSemicolon(s))
  {
  }

  /**
   * A bare integer is an expression statement wrapping its value; when the
   * literal does not convert, one diagnostic names it and the expression is absent.
   */
  lemma IntegerStatement(s: ParserState)
    requires WellFormed(s) && s.current.kind == Int
    ensures ParseInt(s.current.literal).Some? ==>
      ParseStatement(s) ==
        Done(ExpressionStatement(s.current, Some(IntegerLiteral(s.current, ParseInt(s.current.literal).value))),
             AfterOptionalSemicolon(s))
    ensures ParseInt(s.current.literal).None? ==>
      ParseStatement(s) ==
        Done(ExpressionStatement(s.current, None),
             AfterOptionalSemicolon(WithError(s, CouldNotParseInteger(s.current.literal))))
  {
  }

  /** `!5` and `-15`: a prefix expression whose operator is the symbol and whose operand is the integer. */
  lemma PrefixIntegerStatement(s: ParserState)
    requires WellFormed(s) && (s.current.kind == Bang || s.current.kind == Minus)
    requires s.peek.kind == Int && ParseInt(s.peek.literal).Some?
    ensures s.current.literal == (if s.current.kind == Bang then "!" else "-")
    ensures ParseStatement(s) ==
      Done(ExpressionStatement(s.current,
             Some(PrefixExpression(s.current, s.current.literal,
                                   Some(IntegerLiteral(s.peek, ParseInt(s.peek.literal).value))))),
           AfterOptionalSemicolon(Advance(s)))
    ensures AfterOptionalSemicolon(Advance(s)).errors == s.errors
  {
    var a := Advance(s);
    var operand := Some(IntegerLiteral(s.peek, ParseInt(s.peek.literal).value));
    assert ParseExpression(a, Prefix) == ExprResult(operand, a);
    assert ParseExpression(s, Lowest) ==
      ExprResult(Some(PrefixExpression(s.current, s.current.literal, operand)), a);
  }

  /** A token with no prefix handler: one "no prefix parse function" diagnostic and no expression. */
  lemma NoPrefixHandler(s: ParserState, p: Precedence)
    requires WellFormed(s) && PrefixParseFn(s.current.kind).None?
    ensures ParseExpression(s, p) == ExprResult(None, WithError(s, NoPrefixParseFunction(s.current.kind)))
  {
  }

  /** What the parser builds: statement tokens carry their keyword text, and lets and returns carry no value. */
  predicate WellTokened(st: Statement) {
    match st
    case LetStatement(t, name, value) =>
      t == Token(Let, "let") && name.token.kind == Ident && name.value == name.token.literal && value.None?
    case ReturnStatement(t, value) => t == Token(Return, "return") && value.None?
    case ExpressionStatement(t, _) => t.kind != Eof && t.kind != Let && t.kind != Return
    case NilLet => true
  }

  lemma ParsedStatementWellTokened(s: ParserState)
    requires WellFormed(s) && s.current.kind != Eof && ParseStatement(s).Done?
    ensures WellTokened(ParseStatement(s).value)
  {
  }

  /**
   * Every statement of a parsed program is well tokened: a parsed let's
   * `TokenLiteral` is `let`, a parsed return's is `return`.
   */
  lemma {:induction false} ParsedProgramWellTokened(s: ParserState, acc: seq<Statement>)
    requires WellFormed(s) && ParseProgramFrom(s, acc).Done?
    requires forall i | 0 <= i < |acc| :: WellTokened(acc[i])
    ensures var ss := ParseProgramFrom(s, acc).value.statements;
      forall i | 0 <= i < |ss| :: WellTokened(ss[i])
    decreases Rank(s)
  {
    if s.current.kind != Eof {
      var r := ParseStatement(s);
      ParsedStatementWellTokened(s);
      var acc' := acc + [r.value];
      assert forall i | 0 <= i < |acc'| :: WellTokened(acc'[i]);
      ParsedProgramWellTokened(Advance(r.state), acc');
    }
  }

  /** A parsed program's `TokenLiteral`: empty for no statements, `let`/`return` when it starts with one. */
  lemma ParsedProgramTokenLiteral(s: ParserState)
    requires WellFormed(s) && ParseProgram(s).Done?
    ensures var p := ParseProgram(s).value;
      && (p.statements == [] ==> p.TokenLiteral() == [])
      && (p.statements != [] && p.statements[0].LetStatement? ==> p.TokenLiteral() == "let")
      && (p.statements != [] && p.statements[0].ReturnStatement? ==> p.TokenLiteral() == "return")
  {
    ParsedProgramWellTokened(s, []);
  }

  /**
   * `TokenLiteral` of a parsed statement is the literal of the token the
   * statement starts at: `let`, `return`, or the expression's first token.
   */
  lemma ParsedStatementTokenLiteral(s: ParserState)
    requires WellFormed(s) && ParseStatement(s).Done? && !ParseStatement(s).value.NilLet?
    ensures ParseStatement(s).value.TokenLiteral() == s.current.literal
    ensures ParseStatement(s).value.ExpressionStatement? && ParseStatement(s).value.expression.Some? ==>
              ParseStatement(s).value.expression.value.TokenLiteral() == ParseStatement(s).value.TokenLiteral()
  {
  }
}
