# Monkey front end in Dafny

A model of the front end of the Monkey interpreter: the token model, the
byte-level lexer, the syntax-tree nodes and the two-token-lookahead
recursive-descent parser, with proofs of what each promises.

Layout, one module per file:

- `token.dfy` (`Tokens`): the token kinds, the `Token` record, the reserved-word
  table and `LookupIdent`. Go strings are byte strings: `Byte` is a `char` below
  256 and `Bytes` a sequence of them.
- `lexer.dfy` (`Lexing`): `NextTokenAt(input, pos)` gives the meaning of one
  `NextToken` call from a cursor position. The class `Lexing.Lexer` has Go's
  fields (`position`, `current` and the current byte `ch`), changes them in place
  with `ReadChar` and its three scanning loops, and `NextToken` is proved to
  produce exactly the token and cursor of `NextTokenAt`.
- `lexer_facts.dfy` (`LexerFacts`): the classification rules, EOF behaviour, the
  token stream (`NthToken`, `Tokenize`) and the reassembly of the input from the
  literals.
- `strconv.dfy` (`Strconv`): the part of `strconv.ParseInt(lit, 0, 64)` the parser
  reaches, on the digit runs the lexer produces.
- `ast.dfy` (`Ast`): the node types, `TokenLiteral` and the `let` rendering.
- `parser_model.dfy` (`ParserModel`): the parser as functions on a
  `ParserState` value (input, `current`/`peek` window, lexer cursor, diagnostics).
  The `;`-skipping loops of `let` and `return` can run forever; that outcome is
  the value `Diverges` of `Run`.
- `parser.dfy` (`Parsing`): the class `Parsing.Parser`, holding the lexer, the
  window and the diagnostics list and updating them in place; each method is
  proved to take `State()` to what the matching `ParserModel` function gives.
- `parser_facts.dfy` (`ParserFacts`): what each statement form parses to, the
  diagnostics it records, and where the skip loops stop.
- `roundtrip.dfy` (`RoundTrip`): rendering a `let` statement, lexing the text and
  parsing it gives back the statement (without the value the parser skips).
- `wrappers.dfy`, `iteration.dfy`: `Option`, and n-fold repetition of a step
  function.

Where the behaviour of the code differs from the language's description, the
model follows the code:

- Identifiers are runs of letters and `_` only; a digit ends them
  (lexer/lexer.go:106-112, 134-136), so `x1` is IDENT `x` then INT `1`.
- `let` and `return` do not parse a value: they skip tokens until `current` is
  `;` (parser/parser.go:96-99, 130-133), the value is never set, and with no later
  `;` the loop never stops.
- A failed `let` returns a nil `*ast.LetStatement`; stored in the `Statement`
  interface it is not nil, so the check at parser/parser.go:65 never skips it.
  The model appends it as the statement `NilLet`.
- End of input is the byte NUL, so a NUL byte inside the input also yields EOF.
- `peekChar` past the end of the input returns the digit `'0'`.
- There is no infix parsing, and `parseExpression` ignores its precedence.
- The declared token and AST types are older than their users: MINUS is added
  to the token kinds, the nodes `Identifier`, `IntegerLiteral`,
  `PrefixExpression` and `ExpressionStatement` are added, and
  `LetStatement.name` is an `Identifier`, as the parser and the tests use them.

## Model

| member | source | states |
|---|---|---|
| Tokens.LookupIdent | token/token.go:58-63 | a word in the table gives that entry's reserved kind; a word gives IDENT exactly when it is not in the table |
| Tokens.ReservedWordsResolve | token/token.go:47-56 | each of `let`, `fn`, `if`, `then`, `else`, `return`, `true`, `false` resolves to its own reserved kind |
| Tokens.CapitalisedWordIsIdentifier | token/token.go:58-63 | lookup is exact: a word starting with a capital letter (`Let`, `RETURN`) is IDENT |
| Tokens.KeywordResolves | token/token.go:47-56 | every reserved kind's spelling is in the table and resolves back to that kind |
| Tokens.KeywordsSpellTheirKinds | token/token.go:47-56 | every table entry maps its word to a reserved kind (never IDENT) spelled by that word, so the table is one-to-one |
| Tokens.KindNameInjective | token/token.go:5-40 | distinct token kinds have distinct TokenType strings |
| Lexing.SymbolKind | lexer/lexer.go:34-66 | a byte that makes a one-byte token gives a symbol kind whose TokenType string is that byte |
| Lexing.IsLetter | lexer/lexer.go:133-136 | a letter byte (ASCII letter or `_`) is ASCII and neither a digit nor whitespace |
| Lexing.IsDigit | lexer/lexer.go:138-140 | a digit byte is ASCII and not whitespace |
| Lexing.ByteString | lexer/lexer.go:129-131 | Go's `string(ch)` of a byte: the byte itself below 0x80, otherwise the two-byte UTF-8 encoding of code point `ch`; either way it decodes back to the byte |
| Lexing.NewToken | lexer/lexer.go:129-131 | the token has the given kind and a literal that decodes to the byte, and that is the byte itself for ASCII |
| Lexing.ScanWhile | lexer/lexer.go:122-126 | a scan ends at or after its start, on a byte outside the class, and never past the end of the input |
| Lexing.ScanWhileRun | lexer/lexer.go:106-120 | every byte a scan passes over is in the scanned class |
| Lexing.LexWord | lexer/lexer.go:70-73 | an identifier or keyword token ends after its start, inside the input, and its literal agrees with its kind |
| Lexing.LexNumber | lexer/lexer.go:74-77 | an INT token ends after its start, inside the input, and its literal is a non-empty digit run |
| Lexing.NextTokenAt | lexer/lexer.go:19-85 | every call moves the cursor forward, yields a token whose literal agrees with its kind, and past the end yields EOF with an empty literal |
| Lexing.TokenSpan | lexer/lexer.go:19-85 | after the whitespace, an EOF token is a NUL byte, an ILLEGAL token spans one byte and its literal is `string` of that byte, and any other token's literal is exactly the input bytes it spans |
| Lexing.Lexer.constructor | lexer/lexer.go:12-17 | `New` puts the cursor on the first byte with `current == position + 1` |
| Lexing.Lexer.ReadChar | lexer/lexer.go:87-95 | the cursor moves one byte, `current` stays one ahead, and `ch` is the input byte or NUL past the end |
| Lexing.Lexer.PeekChar | lexer/lexer.go:97-103 | the byte after the cursor, or `'0'` (never `=`) past the end of the input |
| Lexing.Lexer.ReadIdentifier | lexer/lexer.go:106-112 | consumes the maximal letter run under the cursor and returns exactly those input bytes |
| Lexing.Lexer.ReadNumber | lexer/lexer.go:114-120 | consumes the maximal digit run under the cursor and returns exactly those input bytes |
| Lexing.Lexer.SkipWhitespace | lexer/lexer.go:122-126 | moves the cursor to the end of the whitespace run |
| Lexing.Lexer.NextToken | lexer/lexer.go:19-85 | returns the token `NextTokenAt` gives for the old cursor and leaves the cursor where it says |
| LexerFacts.OneByteSymbol | lexer/lexer.go:34-66 | a one-byte symbol yields its kind with that byte as literal, and the cursor moves past it |
| LexerFacts.EqualsLookahead | lexer/lexer.go:25-58 | `=`/`!` followed by `=` is one two-byte EQ/NE token; otherwise, also at the end of the input, a one-byte ASSIGN/BANG token |
| LexerFacts.IdentifierIsMaximalLetterRun | lexer/lexer.go:70-73 | a letter starts a token whose literal is the maximal letter run, as an input substring, with the kind `LookupIdent` gives |
| LexerFacts.NumberIsMaximalDigitRun | lexer/lexer.go:74-77 | a digit starts an INT token whose literal is the maximal digit run, as an input substring |
| LexerFacts.OtherByteIsIllegal | lexer/lexer.go:78-79 | any other non-NUL byte is ILLEGAL and the cursor moves past it; the literal is the byte itself below 0x80 and its two-byte UTF-8 encoding above |
| LexerFacts.HighByteIllegalIsUtf8 | lexer/lexer.go:78-79 | the single byte 0xE9 lexes as one ILLEGAL token with the two-byte literal 0xC3 0xA9 |
| LexerFacts.NulByteIsEof | lexer/lexer.go:67-68 | a NUL byte inside the input yields EOF and the cursor moves past it |
| LexerFacts.EofForever | lexer/lexer.go:88-89 | once the cursor is at or past the end, every later call yields EOF with an empty literal |
| LexerFacts.SymbolKindNamesLiteral | token/token.go:11-39 | a lexed symbol token's TokenType string equals its literal |
| LexerFacts.LiteralHasNoWhitespace | lexer/lexer.go:122-126 | the bytes skipped before a token are whitespace, and no literal contains whitespace |
| LexerFacts.Tokenize | lexer/lexer.go:19-85 | the tokens before the first EOF are all non-EOF tokens whose literals agree with their kinds |
| LexerFacts.TokenizeIsStreamPrefix | lexer/lexer.go:19-85 | `Tokenize` lists exactly the tokens successive calls yield, and the next call yields EOF |
| LexerFacts.LiteralIsSolidAscii | lexer/lexer.go:19-85 | every literal of a token other than ILLEGAL is ASCII and contains no whitespace |
| LexerFacts.LiteralsReassembleInput | lexer/lexer.go:19-85 | for NUL-free input, the literals before EOF concatenate to the input with its whitespace removed and each byte above 0x7F spelled in UTF-8 |
| LexerFacts.WordTokenAt | lexer/lexer.go:70-73 | blanks then a letter run give one keyword or identifier token ending after the run |
| LexerFacts.SymbolTokenAt | lexer/lexer.go:34-66 | blanks then a one-byte symbol give that symbol's token |
| LexerFacts.AssignTokenAt | lexer/lexer.go:25-33 | blanks then `=` not followed by `=` give ASSIGN |
| LexerFacts.NumberTokenAt | lexer/lexer.go:74-77 | blanks then a digit run followed by a non-digit give INT with exactly that run |
| LexerFacts.DigitsEndIdentifiers | lexer/lexer.go:106-112 | `x1` lexes as IDENT `x` then INT `1` |
| Strconv.DigitValue | parser/parser.go:174 | a byte has a digit value exactly when it is a decimal digit, and the value is below ten |
| Strconv.InRange | parser/parser.go:174 | a value converts exactly when it is at most 2^63 - 1, and keeps its value |
| Strconv.ParseInt | parser/parser.go:174 | a converted literal is never negative and the empty literal does not convert |
| Strconv.SpellingValue | parser/parser.go:174 | the spelling of any natural number in a base from 2 to 10 reads back as that number in that base |
| Strconv.DecimalRoundTrip | parser/parser.go:174 | every value from 0 to 2^63 - 1, written in decimal, parses back to itself |
| Strconv.OctalRoundTrip | parser/parser.go:174 | every value from 0 to 2^63 - 1, written in octal after a leading `0`, parses back to itself |
| Strconv.LeadingZeroIsOctal | parser/parser.go:174 | with base 0 a leading `0` makes the literal octal: `010` is eight and `0` is zero |
| Strconv.OctalRejectsEightAndNine | parser/parser.go:174-179 | an `8` or `9` after a leading `0` is a conversion error |
| Strconv.RangeLimit | parser/parser.go:174-179 | 2^63 - 1 converts and 2^63 is a conversion error |
| Ast.Program.TokenLiteral | ast/ast.go:21-26 | the empty string for an empty program, otherwise the first statement's token literal |
| Ast.Statement.String | ast/ast_test.go:25 | a rendered statement ends with `;` |
| Ast.Program.String | ast/ast_test.go:25 | an empty program renders as the empty string; otherwise the rendering starts with the first statement's and ends with `;` |
| Ast.LetRendering | ast/ast_test.go:9-27 | the let binding `foo` to `bar` renders as `let foo = bar;` |
| ParserModel.Advance | parser/parser.go:55-58 | `nextToken` keeps the input and the diagnostics, keeps the window well formed, moves the cursor on, and brings EOF nearer while `current` is not EOF |
| ParserModel.Init | parser/parser.go:37-42 | `New` starts with no diagnostics and the lexer's first two tokens as `current` and `peek` |
| ParserModel.ExpectPeek | parser/parser.go:104-111 | succeeds exactly when `peek` has the kind; on success advances once, on failure keeps the window and appends exactly one diagnostic naming the wanted and found kinds |
| ParserModel.PrefixParseFn | parser/parser.go:43-46 | IDENT, INT, `!` and `-` have a prefix handler and no other kind has |
| ParserModel.PeekError | parser/parser.go:121-124 | appends exactly one diagnostic naming the wanted kind and the kind of `peek`, and changes nothing else |
| ParserModel.NoPrefixParseError | parser/parser.go:194-197 | appends exactly one diagnostic naming the kind without a handler, and changes nothing else |
| ParserModel.ParseIdentifier | parser/parser.go:168-170 | always an identifier node whose value and token literal are `current`'s literal, with the state unchanged |
| ParserModel.ParseIntegerLiteral | parser/parser.go:172-183 | an integer node exactly when the literal converts, carrying the converted value and `current`'s token, with the state unchanged; otherwise no node and exactly one diagnostic naming the literal |
| ParserModel.ParseExpression | parser/parser.go:157-165 | parsing an expression only moves the window forward and only appends diagnostics, and a parsed expression's token literal is that of `current` |
| ParserModel.ParsePrefixExpression | parser/parser.go:185-192 | a prefix expression carries the operator token and its text, with the operand parsed from the next token as its right side |
| ParserModel.ParseExpressionStatement | parser/parser.go:145-155 | an expression statement always completes and leaves a later state of the same parse |
| ParserModel.SkipRankDecreases | parser/parser.go:97-99 | each skipped token brings the skip loop nearer to its end unless no `;` is left |
| ParserModel.SkipToSemicolon | parser/parser.go:97-99 | when the skip loop stops, `current` is `;` and no diagnostic was added |
| ParserModel.ParseLetStatement | parser/parser.go:85-102 | gives a let or the nil let; without an identifier next, the nil let and one more diagnostic; a let carries the `let` token and an IDENT name, has no value, adds no diagnostic and stops on `;` |
| ParserModel.ParseReturnStatement | parser/parser.go:126-135 | a completed return statement adds no diagnostic |
| ParserModel.ParseStatement | parser/parser.go:74-83 | a let or nil let exactly when `current` is `let`, a return exactly when it is `return`, and otherwise always a completed expression statement |
| ParserModel.ParseProgramFrom | parser/parser.go:60-72 | the loop ends with EOF current, keeps every statement already collected, and adds none exactly when it starts on EOF |
| ParserModel.ParseProgram | parser/parser.go:60-72 | a completed parse ends with EOF current, only moves forward and appends diagnostics, and has no statements exactly when the input starts at EOF |
| Parsing.Parser.constructor | parser/parser.go:37-49 | `New` leaves the parser in the state `Init` gives for the lexer's cursor |
| Parsing.Parser.Errors | parser/parser.go:51-53 | the diagnostics of the model state, in order |
| Parsing.Parser.NextToken | parser/parser.go:55-58 | the window moves as `Advance` says |
| Parsing.Parser.ParseProgram | parser/parser.go:60-72 | returns the program, and leaves the state, that the model's program loop gives |
| Parsing.Parser.ParseStatement | parser/parser.go:74-83 | dispatches as the model does and ends in the model's state |
| Parsing.Parser.ParseLetStatement | parser/parser.go:85-102 | the let statement or nil let and the state the model gives, through a skip loop that stops where the model's does |
| Parsing.Parser.ExpectPeek | parser/parser.go:104-111 | the outcome and state `ExpectPeek` gives |
| Parsing.Parser.PeekTokenIs | parser/parser.go:113-115 | holds exactly when `expectPeek` with that kind would succeed |
| Parsing.Parser.CurrentTokenIs | parser/parser.go:117-119 | holds exactly when `current` has the kind; for `;`, exactly when the skip loop stops without moving |
| Parsing.Parser.PeekError | parser/parser.go:121-124 | appends one "expected next token" diagnostic and changes nothing else |
| Parsing.Parser.ParseReturnStatement | parser/parser.go:126-135 | the return statement and the state the model gives, through a skip loop that stops where the model's does |
| Parsing.Parser.ParseExpressionStatement | parser/parser.go:145-155 | the statement and state the model gives, including the optional `;` |
| Parsing.Parser.ParseExpression | parser/parser.go:157-165 | the expression and state the model gives for the handler of `current` |
| Parsing.Parser.ParseIdentifier | parser/parser.go:168-170 | the identifier node of `current`, without consuming anything |
| Parsing.Parser.ParseIntegerLiteral | parser/parser.go:172-183 | the integer node or, when conversion fails, no expression and one diagnostic, as the model gives |
| Parsing.Parser.ParsePrefixExpression | parser/parser.go:185-192 | the prefix node and state the model gives |
| Parsing.Parser.NoPrefixParseError | parser/parser.go:194-197 | appends one "no prefix parse function" diagnostic and changes nothing else |
| ParserFacts.InitWindow | parser/parser.go:37-42 | after `New`, the window and what follows it are the lexer's tokens in order from the start |
| ParserFacts.AdvanceNShiftsWindow | parser/parser.go:55-58 | `k` calls of `nextToken` move the window `k` tokens along the stream |
| ParserFacts.AdvanceNFollows | parser/parser.go:55-58 | any number of `nextToken` calls keeps the input, the diagnostics and well-formedness |
| ParserFacts.SkipStopsAtFirstSemicolon | parser/parser.go:97-99 | a skip loop that stops ends after some number of `nextToken` calls, at the first state whose `current` is `;` |
| ParserFacts.SkipDivergesForever | parser/parser.go:131-133 | when the model says the skip loop does not stop, no number of `nextToken` calls ever makes `current` a `;` |
| ParserFacts.NoSemicolonLeftStays | lexer/lexer.go:88-89 | past the end of the input with no `;` in the window, none ever appears |
| ParserFacts.SkipFindsSemicolon | parser/parser.go:131-133 | if the k-th upcoming token is the first `;`, the skip loop stops after exactly k calls |
| ParserFacts.ParseExpressionIgnoresPrecedence | parser/parser.go:157-165 | the precedence argument does not affect the result |
| ParserFacts.LetStatementParses | parser/parser.go:85-101 | `let <ident> = … ;` gives a let statement named by the identifier, with no value and no diagnostic, stopping on the first `;` after `=` |
| ParserFacts.LetWithoutIdentifier | parser/parser.go:87-89 | `let` without an identifier gives the nil let and one "expected IDENT" diagnostic, and the window stays |
| ParserFacts.LetWithoutAssignResumes | parser/parser.go:92-94 | `let x 5;` gives the nil let and exactly one "expected =" diagnostic, and the program loop resumes with `5` as `current` |
| ParserFacts.ReturnStatementParses | parser/parser.go:126-135 | `return … ;` gives one return statement with token literal `return`, no value and no diagnostic |
| ParserFacts.IdentifierStatement | parser/parser.go:145-170 | a bare identifier is an expression statement wrapping that identifier; a following `;` is consumed |
| ParserFacts.IntegerStatement | parser/parser.go:172-183 | a bare integer is an expression statement wrapping its value, or, if it does not convert, one diagnostic naming it and no expression |
| ParserFacts.PrefixIntegerStatement | parser/parser.go:185-192 | `!5` and `-15` give a prefix expression with operator `!`/`-` and the integer as right side, with no diagnostic |
| ParserFacts.NoPrefixHandler | parser/parser.go:157-162 | a token without prefix handler gives one "no prefix parse function" diagnostic and no expression |
| ParserFacts.ProgramLoopStep | parser/parser.go:63-69 | each turn of the program loop appends the statement and advances the window once |
| ParserFacts.ProgramLoopEnd | parser/parser.go:63-71 | the program loop stops at EOF with the statements collected |
| ParserFacts.ParsedStatementWellTokened | parser/parser.go:74-83 | a parsed let carries the `let` token and an identifier name, a parsed return the `return` token, and neither a value |
| ParserFacts.ParsedStatementTokenLiteral | ast/ast.go:35-46 | a parsed statement other than the nil let has the token literal of the token it starts at, and an expression statement has its expression's |
| ParserFacts.ParsedProgramWellTokened | parser/parser.go:60-72 | every statement of a parsed program is well tokened |
| ParserFacts.ParsedProgramTokenLiteral | ast/ast.go:21-26 | a parsed program's token literal is empty for no statements, and `let`/`return` when it starts with a let/return |
| RoundTrip.RenderingLayout | ast/ast_test.go:25 | a let statement renders as `let`, blank, name, ` = `, value, `;` |
| RoundTrip.LetLayoutLexes | lexer/lexer.go:19-85 | any text laid out as `let <name> = <value>;` lexes as exactly its five tokens |
| RoundTrip.RenderedLetLexes | ast/ast_test.go:9-27 | rendering a let statement and lexing the text gives its five tokens in order |
| RoundTrip.LetStreamParses | parser/parser.go:60-101 | the token stream `let <name> = <value> ;` parses to one let statement and no diagnostic |
| RoundTrip.RenderedLetParses | parser/parser.go:85-101 | parsing the rendering of a let statement gives a program of exactly that statement, without its value, and no diagnostic |

## Left out

- The REPL and `main.go` (user lookup, console I/O) are not part of this model.
- Infix parsing and precedence climbing: the code has none; the precedence levels are carried but never consulted, and `registerInfix` is not modelled.
- The prefix-handler registry is a `match` on the token kind (`PrefixParseFn`) rather than a map of closures.
- `strconv.ParseInt` is modelled only on the non-empty digit strings the lexer produces (decimal, or octal after a leading `0`), not for signs, other prefixes or underscores.
- Diagnostics are values recording their kind and payload; the wording of the messages is not modelled.
- `String` is modelled for `let` statements whose value is absent or an identifier, the form the rendering test uses.
- Unicode: the lexer reads the input byte by byte, as the model does; multi-byte characters are not decoded. The one place a byte becomes text is `newToken`'s `string(ch)`, which the model spells as Go does (`ByteString`): a byte above 0x7F becomes its two-byte UTF-8 encoding.
- Parsing.Parser.ParseProgram: requires that the model's parse does not diverge, because a Dafny method must terminate; when the Go loop would run forever, `ParserModel` gives `Diverges` and `ParserFacts.SkipDivergesForever` shows that no `;` ever arrives.
- Parsing.Parser.ParseStatement: requires that the model's statement parse does not diverge, for the same reason.
- Parsing.Parser.ParseLetStatement: requires that the model's let parse does not diverge, for the same reason.
- Parsing.Parser.ParseReturnStatement: requires that the model's return parse does not diverge, for the same reason.
- Ast.Statement.TokenLiteral and Ast.Program.TokenLiteral: require a statement (for a program, a first statement) other than the nil let, where Go would dereference a nil pointer and panic.
- Lexing.Lexer.ReadIdentifier and Lexing.Lexer.ReadNumber: require the cursor not past the end of the input, where the final slice would panic in Go; `NextToken` only calls them on a letter or digit.
- The Go zero token in the window before `New`'s two `nextToken` calls is the placeholder `Unset`, which is never observed.
