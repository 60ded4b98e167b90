/**
 * The token model the scanner produces: kinds, literals, tokens, and the
 * table of the 16 reserved words.
 */
module Tokens {

  datatype TokenType =
    // single-character tokens
    | LeftPar | RightPar | LeftBrace | RightBrace | Comma | Dot | Minus | Plus
    | Semicolon | Star | Modulo | Slash
    // one- or two-character operators
    | Bang | BangEqual | Equal | EqualEqual | Less | LessEqual | Greater | GreaterEqual
    // literals
    | Identifier | String | Number
    // reserved words
    | And | Class | Else | False | For | Fun | Extends | If | Nil | Or
    | Return | Super | Self | True | Let | While
    // end of input
    | Eof

  /**
   * The literal value a token carries. A number keeps its digits as text:
   * the conversion to a double is not part of this model.
   */
  datatype Literal = NoLiteral | StringValue(value: string) | NumberText(text: string)

  datatype Token = Token(kind: TokenType, lexeme: string, literal: Literal, line: int)

  /** The reserved-word table, word by word. */
  const Keywords: map<string, TokenType> := map[
    "and" := And, "class" := Class, "else" := Else, "false" := False,
    "for" := For, "fun" := Fun, "extends" := Extends, "if" := If,
    "nil" := Nil, "or" := Or, "return" := Return, "super" := Super,
    "self" := Self, "true" := True, "let" := Let, "while" := While]

  /** The kind of a maximal identifier run: its keyword if it has one, IDENTIFIER otherwise. */
  function IdentifierKind(text: string): (kind: TokenType)
    ensures text in Keywords <==> kind != Identifier
    ensures text in Keywords ==> kind == Keywords[text]
    ensures kind != Eof
  {
    if text in Keywords then Keywords[text] else Identifier
  }
}
