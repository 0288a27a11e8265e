/** The lexical units the scanner produces and the evaluator's AST refers to. */
module Tokens {

  /** The closed set of token kinds. `Or` is part of the set, although no keyword maps to it. */
  datatype TokenType =
    // single-character tokens
    | LeftParen | RightParen | LeftBrace | RightBrace
    | Comma | Dot | Minus | Plus | Semicolon | Slash | Star
    // one- or two-character tokens
    | Bang | BangEqual | Equal | EqualEqual
    | Greater | GreaterEqual | Less | LessEqual
    // literals
    | Identifier | String | Number
    // keywords
    | And | Class | Else | False | Fun | For | If | Nil | Or
    | Print | Return | Super | This | True | Var | While
    | Eof

  /**
   * The literal a token carries: nothing, the text of a number (the parse to a
   * double is left abstract) or the raw text between the quotes of a string.
   */
  datatype TokenLiteral = Absent | NumberLit(digits: string) | StringLit(text: string)

  datatype Token = Token(kind: TokenType, lexeme: string, literal: TokenLiteral, line: int)

  /** A message sent to the error sink, attributed to a line. */
  datatype Diagnostic = Diagnostic(line: int, message: string)
}
