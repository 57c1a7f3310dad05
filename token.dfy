/**
 * The token model of the Monkey front end (token/token.go): a closed set of
 * token kinds, the token record, and the reserved-word table with its lookup.
 */
module Tokens {

  /** A byte of the source text. Go strings are byte strings; a `char` below 256 stands for one byte. */
  type Byte = c: char | c <= 'ÿ' witness '\0'

  /** A Go string: a sequence of bytes. */
  type Bytes = seq<Byte>

  /**
   * The token kinds. Go declares them as string constants of type TokenType;
   * `KindName` gives each constant's string. MINUS is used by the lexer and
   * the parser but missing from the shown declarations; it is included here.
   */
  datatype TokenKind =
    | Illegal | Eof | Ident | Int
    | Assign | Plus | Minus | Bang | Asterisk | Slash
    | Lt | Gt
    | Comma | Semicolon
    | LParen | RParen | LBrace | RBrace
    | Function | Let | If | Then | Else | Return
    | True | False
    | Eq | Ne

  /** The string value of each TokenType constant. */
  function KindName(k: TokenKind): Bytes {
    match k
    case Illegal => "ILLEGAL"
    case Eof => "EOF"
    case Ident => "IDENT"
    case Int => "INT"
    case Assign => "="
    case Plus => "+"
    case Minus => "-"
    case Bang => "!"
    case Asterisk => "*"
    case Slash => "/"
    case Lt => "<"
    case Gt => ">"
    case Comma => ","
    case Semicolon => ";"
    case LParen => "("
    case RParen => ")"
    case LBrace => "{"
    case RBrace => "}"
    case Function => "FUNCTION"
    case Let => "LET"
    case If => "IF"
    case Then => "THEN"
    case Else => "ELSE"
    case Return => "RETURN"
    case True => "TRUE"
    case False => "FALSE"
    case Eq => "=="
    case Ne => "!="
  }

  /** The operator and punctuation kinds, whose TokenType string is their own source text. */
  predicate IsSymbol(k: TokenKind) {
    k in {Assign, Plus, Minus, Bang, Asterisk, Slash, Lt, Gt, Comma, Semicolon,
          LParen, RParen, LBrace, RBrace, Eq, Ne}
  }

  /** The kinds of the reserved words. */
  predicate IsKeyword(k: TokenKind) {
    k in {Function, Let, If, Then, Else, Return, True, False}
  }

  /** A token: its kind and the exact source text that produced it. */
  datatype Token = Token(kind: TokenKind, literal: Bytes)

  /** The reserved-word table. Lookup is an exact, case-sensitive match. */
  const Keywords: map<Bytes, TokenKind> := map[
    "let" := Let, "fn" := Function, "if" := If, "then" := Then,
    "else" := Else, "return" := Return, "false" := False, "true" := True
  ]

  /** Resolves a run of letters: a reserved word gives its own kind, anything else IDENT. */
  function LookupIdent(ident: Bytes): (k: TokenKind)
    ensures ident in Keywords ==> IsKeyword(k) && k == Keywords[ident]
    ensures ident !in Keywords <==> k == Ident
  {
    if ident in Keywords then Keywords[ident] else Ident
  }

  /** The spelling of each reserved word. */
  function KeywordText(k: TokenKind): Bytes
    requires IsKeyword(k)
  {
    match k
    case Function => "fn"
    case Let => "let"
    case If => "if"
    case Then => "then"
    case Else => "else"
    case Return => "return"
    case True => "true"
    case False => "false"
  }

  /** Each reserved word resolves to its own kind. */
  lemma ReservedWordsResolve()
    ensures LookupIdent("let") == Let && LookupIdent("fn") == Function
    ensures LookupIdent("if") == If && LookupIdent("then") == Then
    ensures LookupIdent("else") == Else && LookupIdent("return") == Return
    ensures LookupIdent("true") == True && LookupIdent("false") == False
  {
    KeywordResolves(Let);
    KeywordResolves(Function);
    KeywordResolves(If);
    KeywordResolves(Then);
    KeywordResolves(Else);
    KeywordResolves(Return);
    KeywordResolves(True);
    KeywordResolves(False);
  }

  /**
   * Lookup is case-sensitive: every reserved word is lower-case, so a word
   * that starts with a capital letter (`Let`, `RETURN`) is an identifier.
   */
  lemma CapitalisedWordIsIdentifier(w: Bytes)
    requires |w| > 0 && 'A' <= w[0] <= 'Z'
    ensures LookupIdent(w) == Ident
  {
  }

  /**
   * The table and the spellings agree: every entry maps a word to the
   * reserved kind that `KeywordText` spells that way, and every reserved kind
   * resolves from its spelling. So the table is one-to-one.
   */
  lemma KeywordResolves(k: TokenKind)
    requires IsKeyword(k)
    ensures KeywordText(k) in Keywords && LookupIdent(KeywordText(k)) == k
  {
  }

  lemma KeywordsSpellTheirKinds(w: Bytes)
    requires w in Keywords
    ensures IsKeyword(Keywords[w]) && KeywordText(Keywords[w]) == w
  {
  }

  /** Distinct kinds have distinct TokenType strings, so an enumeration models them faithfully. */
  lemma KindNameInjective(a: TokenKind, b: TokenKind)
    requires KindName(a) == KindName(b)
    ensures a == b
  {
  }
}
