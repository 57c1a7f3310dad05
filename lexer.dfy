/**
 * The byte-level lexer (lexer/lexer.go). The pure functions give the meaning
 * of one `NextToken` call from a cursor position; the class `Lexer` is the
 * Go object, whose methods advance its cursor in place and are proved to
 * agree with those functions.
 */
module Lexing {
  import opened Wrappers
  import opened Tokens

  const NUL: Byte := '\0'

  /** The byte `readChar` loads for a position: the input byte, or NUL past the end. */
  function CharAt(input: Bytes, i: nat): Byte {
    if i < |input| then input[i] else NUL
  }

  /** The byte `peekChar` returns for a read offset: past the end it is the digit '0', not NUL. */
  function PeekAt(input: Bytes, i: nat): Byte {
    if i >= |input| then '0' else input[i]
  }

  /** `isLetter`: ASCII letters and `_`; never a digit, never whitespace. */
  predicate IsLetter(c: Byte)
    ensures IsLetter(c) ==> !IsDigit(c) && !IsWhitespace(c) && c < '\U{80}'
  {
    'a' <= c <= 'z' || 'A' <= c <= 'Z' || c == '_'
  }

  /** `isDigit`: the ASCII digits; never whitespace. */
  predicate IsDigit(c: Byte)
    ensures IsDigit(c) ==> !IsWhitespace(c) && c < '\U{80}'
  {
    '0' <= c <= '9'
  }

  predicate IsWhitespace(c: Byte) {
    c == ' ' || c == '\t' || c == '\n' || c == '\r'
  }

  /** The three byte classes the lexer scans maximal runs of. */
  datatype CharClass = Whitespace | Letter | Digit

  predicate InClass(c: Byte, cls: CharClass) {
    match cls
    case Whitespace => IsWhitespace(c)
    case Letter => IsLetter(c)
    case Digit => IsDigit(c)
  }

  /** Every byte of `s` is in class `cls`. */
  predicate AllIn(s: Bytes, cls: CharClass) {
    forall i | 0 <= i < |s| :: InClass(s[i], cls)
  }

  /**
   * Where a run of `cls` bytes that starts at `pos` ends: the first position
   * at or after `pos` whose byte is not in the class.
   */
  function ScanWhile(input: Bytes, pos: nat, cls: CharClass): (e: nat)
    decreases |input| - pos
    ensures pos <= e
    ensures !InClass(CharAt(input, e), cls)
    ensures pos <= |input| ==> e <= |input|
    ensures pos >= |input| ==> e == pos
  {
    if InClass(CharAt(input, pos), cls) then ScanWhile(input, pos + 1, cls) else pos
  }

  /** Every byte a scan passes over is in the scanned class. */
  lemma {:induction false} ScanWhileRun(input: Bytes, pos: nat, cls: CharClass)
    ensures forall i | pos <= i < ScanWhile(input, pos, cls) :: InClass(CharAt(input, i), cls)
    decreases |input| - pos
  {
    if InClass(CharAt(input, pos), cls) {
      ScanWhileRun(input, pos + 1, cls);
    }
  }

  /** The operator and punctuation bytes that make a token on their own (`=` and `!` need lookahead). */
  function SymbolKind(c: Byte): (k: Option<TokenKind>)
    ensures k.Some? ==> IsSymbol(k.value) && KindName(k.value) == [c] && c < '\U{80}'
  {
    match c
    case '+' => Some(Plus)
    case '-' => Some(Minus)
    case '(' => Some(LParen)
    case ')' => Some(RParen)
    case '{' => Some(LBrace)
    case '}' => Some(RBrace)
    case ';' => Some(Semicolon)
    case ',' => Some(Comma)
    case '/' => Some(Slash)
    case '*' => Some(Asterisk)
    case '<' => Some(Lt)
    case '>' => Some(Gt)
    case _ => None
  }

  /** A byte the lexer reports as ILLEGAL. */
  predicate IsIllegalByte(c: Byte) {
    c != NUL && !IsWhitespace(c) && !IsLetter(c) && !IsDigit(c) && c != '=' && c != '!' && SymbolKind(c).None?
  }

  /** A token as this lexer produces it: its literal agrees with its kind. */
  predicate Lexable(t: Token) {
    match t.kind
    case Eof => t.literal == []
    case Ident => |t.literal| > 0 && AllIn(t.literal, Letter) && t.literal !in Keywords
    case Int => |t.literal| > 0 && AllIn(t.literal, Digit)
    case Illegal =>
      && 0 <= CodePoint(t.literal) < 256
      && IsIllegalByte(CodePoint(t.literal) as char)
      && t.literal == ByteString(CodePoint(t.literal) as char)
    case _ =>
      if IsKeyword(t.kind) then t.literal == KeywordText(t.kind)
      else t.literal == KindName(t.kind)
  }

  /** A token with the position the cursor is at after producing it. */
  datatype Lexed = Lexed(tok: Token, next: nat)

  /**
   * Go's `string(b)` for a byte `b`: the UTF-8 encoding of code point `b`,
   * the byte itself below 0x80 and two bytes from 0x80 up.
   */
  function ByteString(c: Byte): (r: Bytes)
    ensures c < '\U{80}' ==> r == [c]
    ensures c >= '\U{80}' ==> |r| == 2 && '\U{C2}' <= r[0] <= '\U{C3}' && '\U{80}' <= r[1] <= '\U{BF}'
    ensures CodePoint(r) == c as int
  {
    if c < '\U{80}' then [c]
    else [(0xC0 + c as int / 64) as char, (0x80 + c as int % 64) as char]
  }

  /** The code point a one- or two-byte UTF-8 sequence encodes (-1 for any other length). */
  function CodePoint(r: Bytes): int {
    if |r| == 1 then r[0] as int
    else if |r| == 2 then (r[0] as int - 0xC0) * 64 + (r[1] as int - 0x80)
    else -1
  }

  /** The token `newToken` builds: a kind and, as literal, `string` of the byte. */
  function NewToken(kind: TokenKind, c: Byte): (t: Token)
    ensures t.kind == kind && CodePoint(t.literal) == c as int
    ensures c < '\U{80}' ==> t.literal == [c]
  {
    Token(kind, ByteString(c))
  }

  /** `readIdentifier` and the keyword lookup: the letter run from `s` as one token. */
  function LexWord(input: Bytes, s: nat): (r: Lexed)
    requires IsLetter(CharAt(input, s))
    ensures s < r.next <= |input| && Lexable(r.tok) && r.tok.kind != Eof
  {
    var e := ScanWhile(input, s, Letter);
    ScanWhileRun(input, s, Letter);
    RunIsAll(input, s, e, Letter);
    Lexed(Token(LookupIdent(input[s..e]), input[s..e]), e)
  }

  /** `readNumber`: the digit run from `s` as one INT token. */
  function LexNumber(input: Bytes, s: nat): (r: Lexed)
    requires IsDigit(CharAt(input, s))
    ensures s < r.next <= |input| && Lexable(r.tok) && r.tok.kind == Int
  {
    var e := ScanWhile(input, s, Digit);
    ScanWhileRun(input, s, Digit);
    RunIsAll(input, s, e, Digit);
    Lexed(Token(Int, input[s..e]), e)
  }

  /**
   * One `NextToken` call on a lexer whose cursor is at `pos`: skip whitespace,
   * then classify the byte found there.
   */
  function NextTokenAt(input: Bytes, pos: nat): (r: Lexed)
    ensures pos < r.next
    ensures Lexable(r.tok)
    ensures pos <= |input| ==> r.next <= |input| + 1
    ensures pos >= |input| ==> r == Lexed(Token(Eof, []), pos + 1)
  {
    var s := ScanWhile(input, pos, Whitespace);
    var c := CharAt(input, s);
    if c == '=' then
      if PeekAt(input, s + 1) == '=' then Lexed(Token(Eq, "=="), s + 2)
      else Lexed(NewToken(Assign, c), s + 1)
    else if c == '!' then
      if PeekAt(input, s + 1) == '=' then Lexed(Token(Ne, "!="), s + 2)
      else Lexed(NewToken(Bang, c), s + 1)
    else if SymbolKind(c).Some? then
      Lexed(NewToken(SymbolKind(c).value, c), s + 1)
    else if c == NUL then
      Lexed(Token(Eof, []), s + 1)
    else if IsLetter(c) then LexWord(input, s)
    else if IsDigit(c) then LexNumber(input, s)
    else
      Lexed(NewToken(Illegal, c), s + 1)
  }

  /**
   * Where a token lies: after the whitespace run from `pos`, an EOF token is
   * the NUL there, an ILLEGAL token is `string` of the one byte there, and
   * any other token's literal is exactly the input bytes it spans.
   */
  lemma TokenSpan(input: Bytes, pos: nat)
    ensures var r := NextTokenAt(input, pos); var s := ScanWhile(input, pos, Whitespace);
      if r.tok.kind == Eof then CharAt(input, s) == NUL && r.next == s + 1
      else if r.tok.kind == Illegal then
        s < r.next == s + 1 <= |input| && r.tok.literal == ByteString(input[s])
      else s < r.next <= |input| && r.tok.literal == input[s..r.next]
  {
    var s := ScanWhile(input, pos, Whitespace);
    var c := CharAt(input, s);
    if c == '=' || c == '!' {
      if PeekAt(input, s + 1) == '=' {
        assert input[s..s + 2] == [c, '='];
      } else {
        assert input[s..s + 1] == [c];
      }
    } else if SymbolKind(c).Some? {
      assert input[s..s + 1] == [c];
    } else if IsLetter(c) {
      assert s < ScanWhile(input, s, Letter) <= |input|;
    } else if IsDigit(c) {
      assert s < ScanWhile(input, s, Digit) <= |input|;
    }
  }

  /** The bytes of a run found by `ScanWhile` are all in its class. */
  lemma RunIsAll(input: Bytes, s: nat, e: nat, cls: CharClass)
    requires s <= e <= |input|
    requires forall i | s <= i < e :: InClass(CharAt(input, i), cls)
    ensures AllIn(input[s..e], cls)
  {
    forall j | 0 <= j < e - s
      ensures InClass(input[s..e][j], cls)
    {
      assert CharAt(input, s + j) == input[s..e][j];
    }
  }

  /** The Go lexer object: the input and a cursor over it. */
  class Lexer {
    const input: Bytes
    /** Index of the byte in `ch`. */
    var position: nat
    /** Index of the next byte to read. */
    var current: nat
    /** The byte under the cursor (Go's `char`), NUL past the end of the input. */
    var ch: Byte

    ghost predicate Valid()
      reads this
    {
      current == position + 1 && ch == CharAt(input, position)
    }

    /** `New`: a lexer whose cursor is on the first byte. */
    constructor (input: Bytes)
      ensures Valid() && this.input == input && position == 0
    {
      this.input := input;
      position, current, ch := 0, 0, NUL;
      new;
      ReadChar();
    }

    /** Moves the cursor one byte forward, loading NUL past the end of the input. */
    method ReadChar()
      modifies this
      ensures position == old(current) && current == old(current) + 1
      ensures ch == CharAt(input, position)
    {
      if current >= |input| {
        ch := NUL;
      } else {
        ch := input[current];
      }
      position := current;
      current := current + 1;
    }

    /** The byte after the cursor, without moving; '0' past the end of the input. */
    method PeekChar() returns (c: Byte)
      requires Valid()
      ensures position + 1 < |input| ==> c == input[position + 1]
      ensures position + 1 >= |input| ==> c == '0' && c != '='
    {
      if current >= |input| {
        c := '0';
      } else {
        c := input[current];
      }
    }

    /** Consumes the maximal run of letters under the cursor and returns it. */
    method ReadIdentifier() returns (literal: Bytes)
      requires Valid() && position <= |input|
      modifies this
      ensures Valid() && position == ScanWhile(input, old(position), Letter)
      ensures literal == input[old(position)..position]
    {
      var pos := position;
      while IsLetter(ch)
        invariant Valid() && pos <= position <= |input|
        invariant ScanWhile(input, position, Letter) == ScanWhile(input, pos, Letter)
        decreases |input| - position
      {
        ReadChar();
      }
      literal := input[pos..position];
    }

    /** Consumes the maximal run of digits under the cursor and returns it. */
    method ReadNumber() returns (literal: Bytes)
      requires Valid() && position <= |input|
      modifies this
      ensures Valid() && position == ScanWhile(input, old(position), Digit)
      ensures literal == input[old(position)..position]
    {
      var pos := position;
      while IsDigit(ch)
        invariant Valid() && pos <= position <= |input|
        invariant ScanWhile(input, position, Digit) == ScanWhile(input, pos, Digit)
        decreases |input| - position
      {
        ReadChar();
      }
      literal := input[pos..position];
    }

    /** Moves the cursor past spaces, tabs, newlines and carriage returns. */
    method SkipWhitespace()
      requires Valid()
      modifies this
      ensures Valid() && position == ScanWhile(input, old(position), Whitespace)
    {
      while ch == ' ' || ch == '\t' || ch == '\n' || ch == '\r'
        invariant Valid() && old(position) <= position
        invariant ScanWhile(input, position, Whitespace) == ScanWhile(input, old(position), Whitespace)
        decreases |input| - position
      {
        ReadChar();
      }
    }

    /** Returns the next token and moves the cursor past it. */
    method NextToken() returns (tok: Token)
      requires Valid()
      modifies this
      ensures Valid()
      ensures Lexed(tok, position) == NextTokenAt(input, old(position))
    {
      SkipWhitespace();
      match ch {
        case '=' =>
          var p := PeekChar();
          if p == '=' {
            var first := ch;
            ReadChar();
            tok := Token(Eq, [first] + [ch]);
          } else {
            tok := NewToken(Assign, ch);
          }
        case '+' => tok := NewToken(Plus, ch);
        case '-' => tok := NewToken(Minus, ch);
        case '(' => tok := NewToken(LParen, ch);
        case ')' => tok := NewToken(RParen, ch);
        case '{' => tok := NewToken(LBrace, ch);
        case '}' => tok := NewToken(RBrace, ch);
        case ';' => tok := NewToken(Semicolon, ch);
        case ',' => tok := NewToken(Comma, ch);
        case '!' =>
          var p := PeekChar();
          if p == '=' {
            var first := ch;
            ReadChar();
            tok := Token(Ne, [first] + [ch]);
          } else {
            tok := NewToken(Bang, ch);
          }
        case '/' => tok := NewToken(Slash, ch);
        case '*' => tok := NewToken(Asterisk, ch);
        case '<' => tok := NewToken(Lt, ch);
        case '>' => tok := NewToken(Gt, ch);
        case '\0' => tok := Token(Eof, []);
        case _ =>
          if IsLetter(ch) {
            var literal := ReadIdentifier();
            tok := Token(LookupIdent(literal), literal);
            return;
          } else if IsDigit(ch) {
            var literal := ReadNumber();
            tok := Token(Int, literal);
            return;
          } else {
            tok := NewToken(Illegal, ch);
          }
      }
      ReadChar();
    }
  }
}
