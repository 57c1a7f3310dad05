/**
 * Properties of the lexer's token classification (lexer/lexer.go), stated
 * about `NextTokenAt`, which the `Lexer.NextToken` method is proved to follow,
 * and about the stream of tokens repeated calls produce.
 */
module LexerFacts {
  import opened Wrappers
  import opened Tokens
  import opened Lexing

  /** Where the token of a call from `pos` starts: after the whitespace run. */
  function TokenStart(input: Bytes, pos: nat): nat {
    ScanWhile(input, pos, Whitespace)
  }

  /** A one-byte symbol yields its kind with that byte as literal, and the kind's name is the byte. */
  lemma OneByteSymbol(input: Bytes, pos: nat)
    requires SymbolKind(CharAt(input, TokenStart(input, pos))).Some?
    ensures var s := TokenStart(input, pos); var c := CharAt(input, s);
      NextTokenAt(input, pos) == Lexed(Token(SymbolKind(c).value, [c]), s + 1)
      && KindName(NextTokenAt(input, pos).tok.kind) == [c]
  {
  }

  /**
   * `=` and `!` look one byte ahead: followed by `=` they make one two-byte
   * EQ/NE token; otherwise, including at the end of the input, a one-byte
   * ASSIGN/BANG token.
   */
  lemma EqualsLookahead(input: Bytes, pos: nat)
    requires var c := CharAt(input, TokenStart(input, pos)); c == '=' || c == '!'
    ensures var s := TokenStart(input, pos); var c := CharAt(input, s);
      var paired := s + 1 < |input| && input[s + 1] == '=';
      NextTokenAt(input, pos) ==
        if paired then Lexed(Token(if c == '=' then Eq else Ne, [c, '=']), s + 2)
        else Lexed(Token(if c == '=' then Assign else Bang, [c]), s + 1)
  {
  }

  /**
   * A letter starts a token whose literal is the maximal run of letters
   * (a digit ends it) and whose kind is the keyword lookup of that run.
   */
  lemma IdentifierIsMaximalLetterRun(input: Bytes, pos: nat)
    requires IsLetter(CharAt(input, TokenStart(input, pos)))
    ensures var s := TokenStart(input, pos); var r := NextTokenAt(input, pos);
      s < r.next <= |input|
      && r.tok == Token(LookupIdent(input[s..r.next]), input[s..r.next])
      && AllIn(r.tok.literal, Letter)
      && !IsLetter(CharAt(input, r.next))
  {
    var s := TokenStart(input, pos);
    ScanWhileRun(input, s, Letter);
    RunIsAll(input, s, ScanWhile(input, s, Letter), Letter);
  }

  /** A digit starts an INT token whose literal is the maximal run of digits. */
  lemma NumberIsMaximalDigitRun(input: Bytes, pos: nat)
    requires IsDigit(CharAt(input, TokenStart(input, pos)))
    ensures var s := TokenStart(input, pos); var r := NextTokenAt(input, pos);
      s < r.next <= |input|
      && r.tok == Token(Int, input[s..r.next])
      && AllIn(r.tok.literal, Digit)
      && !IsDigit(CharAt(input, r.next))
  {
    var s := TokenStart(input, pos);
    ScanWhileRun(input, s, Digit);
    RunIsAll(input, s, ScanWhile(input, s, Digit), Digit);
  }

  /**
   * Any other non-NUL byte is ILLEGAL, consumed alone; its literal is Go's
   * `string` of the byte: the byte itself below 0x80, its two-byte UTF-8
   * encoding from 0x80 up.
   */
  lemma OtherByteIsIllegal(input: Bytes, pos: nat)
    requires IsIllegalByte(CharAt(input, TokenStart(input, pos)))
    ensures var s := TokenStart(input, pos);
      NextTokenAt(input, pos) == Lexed(Token(Illegal, ByteString(input[s])), s + 1)
      && (input[s] < '\U{80}' ==> ByteString(input[s]) == [input[s]])
      && (input[s] >= '\U{80}' ==> |ByteString(input[s])| == 2)
  {
  }

  /** The byte 0xE9 alone lexes as one ILLEGAL token spelled by its UTF-8 encoding, C3 A9. */
  lemma HighByteIllegalIsUtf8()
    ensures Lex(['\U{E9}']) == [Token(Illegal, ['\U{C3}', '\U{A9}'])]
  {
    var input: Bytes := ['\U{E9}'];
    assert ScanWhile(input, 0, Whitespace) == 0;
    assert NextTokenAt(input, 0) == Lexed(Token(Illegal, ['\U{C3}', '\U{A9}']), 1);
    assert Tokenize(input, 1) == [];
  }

  /** A NUL byte inside the input yields EOF, and the cursor still moves past it. */
  lemma NulByteIsEof(input: Bytes, pos: nat)
    requires TokenStart(input, pos) < |input| && input[TokenStart(input, pos)] == NUL
    ensures NextTokenAt(input, pos) == Lexed(Token(Eof, []), TokenStart(input, pos) + 1)
    ensures NextTokenAt(input, pos).next <= |input|
  {
  }

  /** Once the cursor is at or past the end of the input, every call yields EOF with an empty literal. */
  lemma EofForever(input: Bytes, pos: nat, n: nat)
    requires pos >= |input|
    ensures NthToken(input, pos, n) == Token(Eof, [])
    decreases n
  {
    if n > 0 {
      EofForever(input, pos + 1, n - 1);
    }
  }

  /** A lexed symbol token's TokenType string equals its literal. */
  lemma SymbolKindNamesLiteral(input: Bytes, pos: nat)
    requires IsSymbol(NextTokenAt(input, pos).tok.kind)
    ensures KindName(NextTokenAt(input, pos).tok.kind) == NextTokenAt(input, pos).tok.literal
  {
  }

  /** Whitespace is skipped before classification and never appears in a literal. */
  lemma LiteralHasNoWhitespace(input: Bytes, pos: nat)
    ensures var r := NextTokenAt(input, pos);
      forall i | 0 <= i < |r.tok.literal| :: !IsWhitespace(r.tok.literal[i])
    ensures forall i | pos <= i < TokenStart(input, pos) :: IsWhitespace(input[i])
  {
    var r := NextTokenAt(input, pos);
    var s := TokenStart(input, pos);
    ScanWhileRun(input, pos, Whitespace);
    forall i | pos <= i < s
      ensures IsWhitespace(input[i])
    {
      assert InClass(CharAt(input, i), Whitespace);
    }
    match r.tok.kind
    case Ident =>
      forall i | 0 <= i < |r.tok.literal| ensures !IsWhitespace(r.tok.literal[i]) {
        assert InClass(r.tok.literal[i], Letter);
      }
    case Int =>
      forall i | 0 <= i < |r.tok.literal| ensures !IsWhitespace(r.tok.literal[i]) {
        assert InClass(r.tok.literal[i], Digit);
      }
    case _ =>
  }

  /** The n-th token (from 0) that successive calls yield when the cursor starts at `pos`. */
  function NthToken(input: Bytes, pos: nat, n: nat): Token
    decreases n
  {
    var r := NextTokenAt(input, pos);
    if n == 0 then r.tok else NthToken(input, r.next, n - 1)
  }

  /** The tokens successive calls yield from `pos` up to (not including) the first EOF. */
  function Tokenize(input: Bytes, pos: nat): (ts: seq<Token>)
    decreases |input| - pos
    ensures forall i | 0 <= i < |ts| :: ts[i].kind != Eof && Lexable(ts[i])
  {
    var r := NextTokenAt(input, pos);
    if r.tok.kind == Eof then [] else [r.tok] + Tokenize(input, r.next)
  }

  /** The tokens of a whole input, as the lexer built by `New` yields them. */
  function Lex(input: Bytes): seq<Token> {
    Tokenize(input, 0)
  }

  /** `Tokenize` lists exactly the tokens `NthToken` numbers, and then EOF follows. */
  lemma {:induction false} TokenizeIsStreamPrefix(input: Bytes, pos: nat)
    ensures var ts := Tokenize(input, pos);
      (forall n | 0 <= n < |ts| :: NthToken(input, pos, n) == ts[n])
      && NthToken(input, pos, |ts|).kind == Eof
    decreases |input| - pos
  {
    var r := NextTokenAt(input, pos);
    if r.tok.kind != Eof {
      var ts := Tokenize(input, pos);
      assert ts == [r.tok] + Tokenize(input, r.next);
      TokenizeIsStreamPrefix(input, r.next);
      forall n | 0 < n <= |ts|
        ensures NthToken(input, pos, n) == NthToken(input, r.next, n - 1)
      {
      }
    }
  }

  /** The concatenation of the literals of a token sequence. */
  function Literals(ts: seq<Token>): Bytes {
    if ts == [] then [] else ts[0].literal + Literals(ts[1..])
  }

  /**
   * `s` as the lexer's literals spell it: whitespace removed and every other
   * byte as Go's `string` of it. For ASCII input that is `s` without its
   * whitespace.
   */
  function Respelled(s: Bytes): Bytes {
    if s == [] then []
    else if IsWhitespace(s[0]) then Respelled(s[1..])
    else ByteString(s[0]) + Respelled(s[1..])
  }

  lemma {:induction false} RespelledAppend(a: Bytes, b: Bytes)
    ensures Respelled(a + b) == Respelled(a) + Respelled(b)
  {
    if a != [] {
      assert (a + b)[0] == a[0] && (a + b)[1..] == a[1..] + b;
      RespelledAppend(a[1..], b);
    } else {
      assert a + b == b;
    }
  }

  lemma {:induction false} RespelledOfBlank(s: Bytes)
    requires forall i | 0 <= i < |s| :: IsWhitespace(s[i])
    ensures Respelled(s) == []
  {
    if s != [] {
      RespelledOfBlank(s[1..]);
    }
  }

  lemma {:induction false} RespelledOfSolidAscii(s: Bytes)
    requires forall i | 0 <= i < |s| :: !IsWhitespace(s[i]) && s[i] < '\U{80}'
    ensures Respelled(s) == s
  {
    if s != [] {
      RespelledOfSolidAscii(s[1..]);
    }
  }

  /**
   * For input without NUL bytes, the literals of the tokens before EOF
   * concatenate to the input with its whitespace removed and each byte
   * spelled as Go's `string` of it: the lexer loses nothing but whitespace,
   * and changes nothing but the encoding of ILLEGAL bytes from 0x80 up.
   */
  lemma {:induction false} LiteralsReassembleInput(input: Bytes, pos: nat)
    requires pos <= |input|
    requires forall i | pos <= i < |input| :: input[i] != NUL
    ensures Literals(Tokenize(input, pos)) == Respelled(input[pos..])
    decreases |input| - pos
  {
    var r := NextTokenAt(input, pos);
    BlanksVanish(input, pos);
    if r.tok.kind == Eof {
      EofEndsInput(input, pos);
    } else {
      LiteralThenRest(input, pos);
      LiteralsReassembleInput(input, r.next);
      assert Tokenize(input, pos) == [r.tok] + Tokenize(input, r.next);
    }
  }

  /** Respelling the input at `pos` drops the blanks before the token. */
  lemma BlanksVanish(input: Bytes, pos: nat)
    requires pos <= |input|
    ensures TokenStart(input, pos) <= |input|
    ensures Respelled(input[pos..]) == Respelled(input[TokenStart(input, pos)..])
  {
    var s := TokenStart(input, pos);
    LiteralHasNoWhitespace(input, pos);
    assert input[pos..] == input[pos..s] + input[s..];
    RespelledAppend(input[pos..s], input[s..]);
    RespelledOfBlank(input[pos..s]);
  }

  /** With no NUL byte left, EOF comes only where the input ends. */
  lemma EofEndsInput(input: Bytes, pos: nat)
    requires pos <= |input|
    requires forall i | pos <= i < |input| :: input[i] != NUL
    requires NextTokenAt(input, pos).tok.kind == Eof
    ensures TokenStart(input, pos) == |input|
  {
    TokenSpan(input, pos);
  }

  /** After the blanks, a token's literal is the respelling of the input it spans. */
  lemma LiteralThenRest(input: Bytes, pos: nat)
    requires NextTokenAt(input, pos).tok.kind != Eof
    ensures var r := NextTokenAt(input, pos); var s := TokenStart(input, pos);
      s < r.next <= |input|
      && Respelled(input[s..]) == r.tok.literal + Respelled(input[r.next..])
  {
    var r := NextTokenAt(input, pos);
    var s := TokenStart(input, pos);
    TokenSpan(input, pos);
    if r.tok.kind == Illegal {
      assert input[s..][1..] == input[r.next..];
    } else {
      LiteralIsSolidAscii(input, pos);
      assert input[s..] == input[s..r.next] + input[r.next..];
      RespelledAppend(input[s..r.next], input[r.next..]);
      RespelledOfSolidAscii(input[s..r.next]);
    }
  }

  /** Every literal except an ILLEGAL one is ASCII without whitespace. */
  lemma LiteralIsSolidAscii(input: Bytes, pos: nat)
    requires NextTokenAt(input, pos).tok.kind != Illegal
    ensures var t := NextTokenAt(input, pos).tok;
      forall i | 0 <= i < |t.literal| :: !IsWhitespace(t.literal[i]) && t.literal[i] < '\U{80}'
  {
    var t := NextTokenAt(input, pos).tok;
    match t.kind
    case Ident =>
      forall i | 0 <= i < |t.literal| ensures !IsWhitespace(t.literal[i]) && t.literal[i] < '\U{80}' {
        assert InClass(t.literal[i], Letter);
      }
    case Int =>
      forall i | 0 <= i < |t.literal| ensures !IsWhitespace(t.literal[i]) && t.literal[i] < '\U{80}' {
        assert InClass(t.literal[i], Digit);
      }
    case _ =>
  }

  /** A run of `cls` bytes from `a` that meets a byte outside the class at `b` ends at `b`. */
  lemma {:induction false} ScanWhileStopsAt(input: Bytes, a: nat, b: nat, cls: CharClass)
    requires a <= b <= |input|
    requires forall i | a <= i < b :: InClass(input[i], cls)
    requires !InClass(CharAt(input, b), cls)
    ensures ScanWhile(input, a, cls) == b
    decreases b - a
  {
    if a < b {
      ScanWhileStopsAt(input, a + 1, b, cls);
    }
  }

  /** The token a run of letters makes: its keyword, or IDENT, with the run as literal. */
  function WordToken(w: Bytes): Token {
    Token(LookupIdent(w), w)
  }

  /** From `pos`, blanks up to `s`, then a run of letters from `s` that ends at `e`. */
  predicate WordAt(input: Bytes, pos: nat, s: nat, e: nat) {
    ScanWhile(input, pos, Whitespace) == s && s < e <= |input| && ScanWhile(input, s, Letter) == e
  }

  /** From `pos`, blanks up to `s`, then `=` not followed by `=`. */
  predicate AssignAt(input: Bytes, pos: nat, s: nat) {
    && ScanWhile(input, pos, Whitespace) == s
    && s < |input| && input[s] == '=' && PeekAt(input, s + 1) != '='
  }

  /** The letters `w` at `s`, followed by a byte that is not a letter, are a whole letter run. */
  lemma LetterRunEnds(input: Bytes, s: nat, w: Bytes)
    requires s + |w| <= |input| && input[s..s + |w|] == w
    requires AllIn(w, Letter) && !IsLetter(CharAt(input, s + |w|))
    ensures ScanWhile(input, s, Letter) == s + |w|
  {
    forall i | s <= i < s + |w|
      ensures IsLetter(input[i])
    {
      assert input[i] == w[i - s];
    }
    ScanWhileStopsAt(input, s, s + |w|, Letter);
  }

  /** A word laid out as `WordAt` says: one call yields its keyword or identifier token and ends after it. */
  lemma WordTokenAt(input: Bytes, pos: nat, s: nat, e: nat)
    requires WordAt(input, pos, s, e)
    ensures NextTokenAt(input, pos) == Lexed(WordToken(input[s..e]), e)
  {
    assert IsLetter(CharAt(input, s));
  }

  /** Blanks from `pos` to `s`, then the one-byte symbol `c`: one call yields it. */
  lemma SymbolTokenAt(input: Bytes, pos: nat, s: nat)
    requires pos <= s < |input|
    requires ScanWhile(input, pos, Whitespace) == s
    requires SymbolKind(input[s]).Some?
    ensures NextTokenAt(input, pos) == Lexed(Token(SymbolKind(input[s]).value, [input[s]]), s + 1)
  {
  }

  /** `=` laid out as `AssignAt` says: one call yields ASSIGN. */
  lemma AssignTokenAt(input: Bytes, pos: nat, s: nat)
    requires AssignAt(input, pos, s)
    ensures NextTokenAt(input, pos) == Lexed(Token(Assign, "="), s + 1)
  {
  }

  /** Blanks from `pos` to `s`, then the digits `w` and a non-digit: one call yields INT `w`. */
  lemma NumberTokenAt(input: Bytes, pos: nat, s: nat, w: Bytes)
    requires pos <= s && s + |w| <= |input| && input[s..s + |w|] == w
    requires ScanWhile(input, pos, Whitespace) == s
    requires |w| > 0 && AllIn(w, Digit) && !IsDigit(CharAt(input, s + |w|))
    ensures NextTokenAt(input, pos) == Lexed(Token(Int, w), s + |w|)
  {
    assert input[s] == w[0];
    forall i | s <= i < s + |w|
      ensures IsDigit(input[i])
    {
      assert input[i] == w[i - s];
    }
    ScanWhileStopsAt(input, s, s + |w|, Digit);
  }

  /** One step of `Tokenize`: a non-EOF token, then the tokens from where it ends. */
  lemma TokenizeStep(input: Bytes, pos: nat, tok: Token, next: nat, rest: seq<Token>)
    requires NextTokenAt(input, pos) == Lexed(tok, next) && tok.kind != Eof
    requires Tokenize(input, next) == rest
    ensures Tokenize(input, pos) == [tok] + rest
  {
  }

  /** A word laid out as `WordAt` says, followed by the tokens `rest`. */
  lemma TokenizeWord(input: Bytes, pos: nat, s: nat, e: nat, rest: seq<Token>)
    requires WordAt(input, pos, s, e) && Tokenize(input, e) == rest
    ensures Tokenize(input, pos) == [WordToken(input[s..e])] + rest
  {
    WordTokenAt(input, pos, s, e);
    assert LookupIdent(input[s..e]) != Eof;
    TokenizeStep(input, pos, WordToken(input[s..e]), e, rest);
  }

  /** `=` laid out as `AssignAt` says, followed by the tokens `rest`. */
  lemma TokenizeAssign(input: Bytes, pos: nat, s: nat, rest: seq<Token>)
    requires AssignAt(input, pos, s) && Tokenize(input, s + 1) == rest
    ensures Tokenize(input, pos) == [Token(Assign, "=")] + rest
  {
    AssignTokenAt(input, pos, s);
    TokenizeStep(input, pos, Token(Assign, "="), s + 1, rest);
  }

  /** A final `;` is the last token. */
  lemma TokenizeFinalSemicolon(input: Bytes, pos: nat)
    requires pos + 1 == |input| && input[pos] == ';'
    ensures Tokenize(input, pos) == [Token(Semicolon, ";")]
  {
    assert ScanWhile(input, pos, Whitespace) == pos;
    SymbolTokenAt(input, pos, pos);
  }

  /** Identifiers contain no digits: `x1` is IDENT `x` then INT `1`. */
  lemma DigitsEndIdentifiers()
    ensures Lex("x1") == [Token(Ident, "x"), Token(Int, "1")]
  {
    var input: Bytes := "x1";
    assert ScanWhile(input, 0, Whitespace) == 0;
    assert ScanWhile(input, 0, Letter) == 1 by {
      assert ScanWhile(input, 1, Letter) == 1;
    }
    assert input[0..1] == "x";
    assert NextTokenAt(input, 0) == Lexed(Token(Ident, "x"), 1);
    assert ScanWhile(input, 1, Whitespace) == 1;
    assert ScanWhile(input, 1, Digit) == 2;
    assert input[1..2] == "1";
    assert NextTokenAt(input, 1) == Lexed(Token(Int, "1"), 2);
    assert Tokenize(input, 2) == [];
  }
}
