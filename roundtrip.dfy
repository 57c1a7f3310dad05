/**
 * What `String` (ast/ast.go) and the front end do together: rendering a let
 * statement and lexing the text gives back its five tokens, and parsing it
 * gives back the statement, without the value, which the parser skips.
 */
module RoundTrip {
  import opened Wrappers
  import opened Tokens
  import opened Lexing
  import opened LexerFacts
  import opened Ast
  import opened ParserModel
  import opened ParserFacts

  /** `let <name> = <value>;` as a tree, with both names as lexed identifier tokens. */
  function LetOf(name: Bytes, value: Bytes): Statement {
    LetStatement(Token(Let, "let"), Identifier(Token(Ident, name), name),
                 Some(IdentifierExpression(Identifier(Token(Ident, value), value))))
  }

  /** The byte layout of `let <name> = <value>;`. */
  predicate LetLayout(input: Bytes, name: Bytes, value: Bytes) {
    var n, v := |name|, |value|;
    && |input| == 8 + n + v
    && input[0..3] == "let" && input[3] == ' '
    && input[4..4 + n] == name && input[4 + n] == ' ' && input[5 + n] == '=' && input[6 + n] == ' '
    && input[7 + n..7 + n + v] == value && input[7 + n + v] == ';'
  }

  lemma RenderingLayout(name: Bytes, value: Bytes)
    ensures LetOf(name, value).Renderable()
    ensures LetLayout(LetOf(name, value).String(), name, value)
  {
    var input := LetOf(name, value).String();
    assert input == "let" + " " + name + " = " + value + ";";
  }

  /** The keyword and the name of the layout, each a word after at most one blank. */
  lemma LetLayoutWords(input: Bytes, name: Bytes, value: Bytes)
    requires Lexable(Token(Ident, name)) && LetLayout(input, name, value)
    ensures WordAt(input, 0, 0, 3) && input[0..3] == "let"
    ensures WordAt(input, 3, 4, 4 + |name|) && input[4..4 + |name|] == name
  {
    LetterRunEnds(input, 0, "let");
    assert ScanWhile(input, 4, Whitespace) == 4 by {
      assert input[4] == name[0];
    }
    LetterRunEnds(input, 4, name);
  }

  /** The `=`, the value and the final `;` of the layout. */
  lemma LetLayoutTail(input: Bytes, name: Bytes, value: Bytes)
    requires Lexable(Token(Ident, value)) && LetLayout(input, name, value)
    ensures var n, v := |name|, |value|;
      && AssignAt(input, 4 + n, 5 + n)
      && WordAt(input, 6 + n, 7 + n, 7 + n + v) && input[7 + n..7 + n + v] == value
      && |input| == 8 + n + v && input[7 + n + v] == ';'
  {
    var n := |name|;
    assert ScanWhile(input, 7 + n, Whitespace) == 7 + n by {
      assert input[7 + n] == value[0];
    }
    LetterRunEnds(input, 7 + n, value);
  }

  /** `<value>;` laid out from `p` with a value `v` bytes long lexes as two tokens. */
  lemma LetValueLexes(input: Bytes, p: nat, v: nat)
    requires WordAt(input, p, p + 1, p + 1 + v)
    requires |input| == p + 2 + v && input[p + 1 + v] == ';'
    ensures Tokenize(input, p) == [WordToken(input[p + 1..p + 1 + v]), Token(Semicolon, ";")]
  {
    var semi := Token(Semicolon, ";");
    var w := WordToken(input[p + 1..p + 1 + v]);
    TokenizeFinalSemicolon(input, p + 1 + v);
    TokenizeWord(input, p, p + 1, p + 1 + v, [semi]);
    PairOfTokens(w, semi);
  }

  lemma PairOfTokens(a: Token, b: Token)
    ensures [a] + [b] == [a, b]
  {
  }

  /** `= <value>;` laid out from `p` with a value `v` bytes long lexes as three tokens. */
  lemma LetTailLexes(input: Bytes, p: nat, v: nat)
    requires AssignAt(input, p, p + 1) && WordAt(input, p + 2, p + 3, p + 3 + v)
    requires |input| == p + 4 + v && input[p + 3 + v] == ';'
    ensures Tokenize(input, p) ==
      [Token(Assign, "="), WordToken(input[p + 3..p + 3 + v]), Token(Semicolon, ";")]
  {
    LetValueLexes(input, p + 2, v);
    TokenizeAssign(input, p, p + 1, [WordToken(input[p + 3..p + 3 + v]), Token(Semicolon, ";")]);
  }

  /**
   * Words and symbols laid out as in `let <name> = <value>;`, with the name
   * `n` and the value `v` bytes long, lex as five tokens.
   */
  lemma LetTokensLex(input: Bytes, n: nat, v: nat)
    requires WordAt(input, 0, 0, 3) && WordAt(input, 3, 4, 4 + n)
    requires AssignAt(input, 4 + n, 5 + n) && WordAt(input, 6 + n, 7 + n, 7 + n + v)
    requires |input| == 8 + n + v && input[7 + n + v] == ';'
    ensures Lex(input) ==
      [WordToken(input[0..3]), WordToken(input[4..4 + n]), Token(Assign, "="),
       WordToken(input[7 + n..7 + n + v]), Token(Semicolon, ";")]
  {
    var tail := [Token(Assign, "="), WordToken(input[7 + n..7 + n + v]), Token(Semicolon, ";")];
    LetTailLexes(input, 4 + n, v);
    TokenizeWord(input, 3, 4, 4 + n, tail);
    TokenizeWord(input, 0, 0, 3, [WordToken(input[4..4 + n])] + tail);
  }

  lemma LetIsAKeywordWord()
    ensures LookupIdent("let") == Let
  {
    ReservedWordsResolve();
  }

  /** Any input laid out as `let <name> = <value>;` lexes as those five tokens. */
  lemma LetLayoutLexes(input: Bytes, name: Bytes, value: Bytes)
    requires Lexable(Token(Ident, name)) && Lexable(Token(Ident, value))
    requires LetLayout(input, name, value)
    ensures Lex(input) ==
      [Token(Let, "let"), Token(Ident, name), Token(Assign, "="), Token(Ident, value), Token(Semicolon, ";")]
  {
    LetLayoutWords(input, name, value);
    LetLayoutTail(input, name, value);
    LetTokensLex(input, |name|, |value|);
    LetIsAKeywordWord();
  }

  /** Rendering a let statement and lexing the text yields its five tokens, in order. */
  lemma RenderedLetLexes(name: Bytes, value: Bytes)
    requires Lexable(Token(Ident, name)) && Lexable(Token(Ident, value))
    ensures LetOf(name, value).Renderable()
    ensures Lex(LetOf(name, value).String()) ==
      [Token(Let, "let"), Token(Ident, name), Token(Assign, "="), Token(Ident, value), Token(Semicolon, ";")]
  {
    RenderingLayout(name, value);
    LetLayoutLexes(LetOf(name, value).String(), name, value);
  }

  /** The let statement the parser builds for `let <name> = …;`. */
  function ParsedLet(name: Bytes): Statement {
    LetStatement(Token(Let, "let"), Identifier(Token(Ident, name), name), None)
  }

  /** The five tokens of a let statement, as the parser's window sees them after `New`. */
  lemma {:induction false} LetStreamWindow(input: Bytes, name: Bytes, value: Bytes)
    requires Lex(input) ==
      [Token(Let, "let"), Token(Ident, name), Token(Assign, "="), Token(Ident, value), Token(Semicolon, ";")]
    ensures var s := Init(input, 0);
      && Upcoming(s, 0) == Token(Let, "let") && Upcoming(s, 1) == Token(Ident, name)
      && Upcoming(s, 2) == Token(Assign, "=") && Upcoming(s, 3) == Token(Ident, value)
      && Upcoming(s, 4) == Token(Semicolon, ";") && Upcoming(s, 5).kind == Eof
  {
    TokenizeIsStreamPrefix(input, 0);
    InitWindow(input, 0, 0);
    InitWindow(input, 0, 1);
    InitWindow(input, 0, 2);
    InitWindow(input, 0, 3);
    InitWindow(input, 0, 4);
    InitWindow(input, 0, 5);
  }

  /** A window holding `let <name> = <value> ;` parses one let statement and stops on the `;`. */
  lemma LetWindowParses(s: ParserState, name: Bytes, value: Bytes)
    requires WellFormed(s)
    requires Upcoming(s, 0) == Token(Let, "let") && Upcoming(s, 1) == Token(Ident, name)
    requires Upcoming(s, 2) == Token(Assign, "=") && Upcoming(s, 3) == Token(Ident, value)
    requires Upcoming(s, 4) == Token(Semicolon, ";")
    ensures ParseStatement(s) == Done(ParsedLet(name), AdvanceN(s, 4)) && AdvanceN(s, 4).errors == s.errors
  {
    LetStatementParses(s, 2);
  }

  /** The first statement of that stream is the let, ending on the `;`. */
  lemma {:induction false} LetStreamStatement(input: Bytes, name: Bytes, value: Bytes)
    requires Lex(input) ==
      [Token(Let, "let"), Token(Ident, name), Token(Assign, "="), Token(Ident, value), Token(Semicolon, ";")]
    ensures var s := Init(input, 0);
      ParseStatement(s) == Done(ParsedLet(name), AdvanceN(s, 4)) && AdvanceN(s, 4).errors == []
  {
    LetStreamWindow(input, name, value);
    LetWindowParses(Init(input, 0), name, value);
  }

  /** After the `;`, the next token of that stream is EOF and no diagnostic was recorded. */
  lemma {:induction false} LetStreamEnds(input: Bytes, name: Bytes, value: Bytes)
    requires Lex(input) ==
      [Token(Let, "let"), Token(Ident, name), Token(Assign, "="), Token(Ident, value), Token(Semicolon, ";")]
    ensures var t := Advance(AdvanceN(Init(input, 0), 4));
      WellFormed(t) && t.current.kind == Eof && t.errors == []
  {
    var s := Init(input, 0);
    LetStreamWindow(input, name, value);
    AdvanceNStep(s, 4);
    AdvanceNShiftsWindow(s, 5, 0);
    AdvanceNFollows(s, 5);
  }

  /** A token stream `let <name> = <value> ;` parses as one let statement, with no diagnostic. */
  lemma {:induction false} LetStreamParses(input: Bytes, name: Bytes, value: Bytes)
    requires Lex(input) ==
      [Token(Let, "let"), Token(Ident, name), Token(Assign, "="), Token(Ident, value), Token(Semicolon, ";")]
    ensures var r := ParseProgram(Init(input, 0));
      r.Done? && r.value == Program([ParsedLet(name)]) && r.state.errors == []
  {
    var s := Init(input, 0);
    var t := AdvanceN(s, 4);
    LetStreamStatement(input, name, value);
    LetStreamEnds(input, name, value);
    ProgramLoopStep(s, [], ParsedLet(name), t);
    ProgramLoopEnd(Advance(t), [ParsedLet(name)]);
  }

  /**
   * Parsing the rendering of a let statement yields a program of exactly that
   * statement, without its value, and no diagnostic.
   */
  lemma RenderedLetParses(name: Bytes, value: Bytes)
    requires Lexable(Token(Ident, name)) && Lexable(Token(Ident, value))
    ensures LetOf(name, value).Renderable()
    ensures var r := ParseProgram(Init(LetOf(name, value).String(), 0));
      r.Done? && r.value == Program([ParsedLet(name)]) && r.state.errors == []
  {
    RenderedLetLexes(name, value);
    LetStreamParses(LetOf(name, value).String(), name, value);
  }
}
