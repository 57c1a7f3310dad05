/**
 * The syntax-tree nodes (ast/ast.go), including the node types and the
 * `Name` field shape that the parser and the tests use: `Identifier`,
 * `IntegerLiteral`, `PrefixExpression`, `ExpressionStatement`, and
 * `LetStatement.Name` as an identifier node.
 */
module Ast {
  import opened Wrappers
  import opened Tokens
  import opened Strconv

  /** `Identifier{Token, Value}`: a name reference. */
  datatype Identifier = Identifier(token: Token, value: Bytes)

  /** The expression nodes. An absent sub-expression (Go's nil) is `None`. */
  datatype Expression =
    | IdentifierExpression(id: Identifier)
    | IntegerLiteral(token: Token, value: Int64)
    | PrefixExpression(token: Token, operator: Bytes, right: Option<Expression>)
  {
    function TokenLiteral(): Bytes {
      match this
      case IdentifierExpression(id) => id.token.literal
      case IntegerLiteral(t, _) => t.literal
      case PrefixExpression(t, _, _) => t.literal
    }
  }

  /**
   * The statement nodes. `NilLet` is a nil `*LetStatement` stored in the
   * `Statement` interface: the value a failed `let` leaves in the program.
   */
  datatype Statement =
    | LetStatement(token: Token, name: Identifier, value: Option<Expression>)
    | ReturnStatement(token: Token, value: Option<Expression>)
    | ExpressionStatement(token: Token, expression: Option<Expression>)
    | NilLet
  {
    /** The token's literal; calling it on a nil let dereferences nil, so it is excluded. */
    function TokenLiteral(): Bytes
      requires !NilLet?
    {
      token.literal
    }

    /** A let statement whose value is absent or an identifier: the form `String` renders. */
    predicate Renderable() {
      LetStatement? && (value.None? || value.value.IdentifierExpression?)
    }

    /** `let <name> = <value>;` */
    function String(): (r: Bytes)
      requires Renderable()
      ensures |r| > 0 && r[|r| - 1] == ';'
    {
      token.literal + " " + name.value + " = "
      + (if value.Some? then value.value.id.value else []) + ";"
    }
  }

  /** The root: the statements in source order. */
  datatype Program = Program(statements: seq<Statement>) {
    /** The first statement's token literal, or the empty string for an empty program. */
    function TokenLiteral(): (r: Bytes)
      requires statements == [] || !statements[0].NilLet?
      ensures statements == [] ==> r == []
      ensures statements != [] ==> r == statements[0].token.literal
    {
      if |statements| > 0 then statements[0].TokenLiteral() else []
    }

    predicate Renderable() {
      forall i | 0 <= i < |statements| :: statements[i].Renderable()
    }

    /** The statements' renderings, concatenated: empty, or starting with the first statement's. */
    function String(): (r: Bytes)
      requires Renderable()
      ensures statements == [] ==> r == []
      ensures statements != [] ==> statements[0].String() <= r && r[|r| - 1] == ';'
    {
      RenderAll(statements)
    }
  }

  function RenderAll(ss: seq<Statement>): (r: Bytes)
    requires forall i | 0 <= i < |ss| :: ss[i].Renderable()
    ensures ss != [] ==> |r| > 0 && r[|r| - 1] == ';'
  {
    if ss == [] then [] else ss[0].String() + RenderAll(ss[1..])
  }

  /** The program built by the rendering test renders as `let foo = bar;`. */
  lemma LetRendering()
    ensures
      var foo := Identifier(Token(Ident, "foo"), "foo");
      var bar := Identifier(Token(Ident, "bar"), "bar");
      var p := Program([LetStatement(Token(Let, "let"), foo, Some(IdentifierExpression(bar)))]);
      p.Renderable() && p.String() == "let foo = bar;"
  {
    var foo := Identifier(Token(Ident, "foo"), "foo");
    var bar := Identifier(Token(Ident, "bar"), "bar");
    var p := Program([LetStatement(Token(Let, "let"), foo, Some(IdentifierExpression(bar)))]);
    assert p.statements[1..] == [];
    assert RenderAll(p.statements[1..]) == [];
  }
}
