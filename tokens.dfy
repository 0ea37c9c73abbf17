/** Tokens and runtime values shared by the scanner, the parser and the interpreter.
    `TokenType` and `Token` are not part of the source files modelled here; they are rebuilt from their uses. */
module Tokens {

  /** The token kinds of the source's enum; each enum constant is the `const` of the
      same name below. */
  newtype TokenType = k: int | 0 <= k < 39

  // single-character tokens
  const LEFT_PAREN: TokenType := 0
  const RIGHT_PAREN: TokenType := 1
  const LEFT_BRACE: TokenType := 2
  const RIGHT_BRACE: TokenType := 3
  const COMMA: TokenType := 4
  const DOT: TokenType := 5
  const MINUS: TokenType := 6
  const PLUS: TokenType := 7
  const SEMICOLON: TokenType := 8
  const SLASH: TokenType := 9
  const STAR: TokenType := 10
  // one- or two-character tokens
  const BANG: TokenType := 11
  const BANG_EQUAL: TokenType := 12
  const EQUAL: TokenType := 13
  const EQUAL_EQUAL: TokenType := 14
  const GREATER: TokenType := 15
  const GREATER_EQUAL: TokenType := 16
  const LESS: TokenType := 17
  const LESS_EQUAL: TokenType := 18
  // literals
  const IDENTIFIER: TokenType := 19
  const STRING: TokenType := 20
  const NUMBER: TokenType := 21
  // keywords
  const AND: TokenType := 22
  const CLASS: TokenType := 23
  const ELSE: TokenType := 24
  const FALSE: TokenType := 25
  const FUN: TokenType := 26
  const FOR: TokenType := 27
  const IF: TokenType := 28
  const NIL: TokenType := 29
  const OR: TokenType := 30
  const PRINT: TokenType := 31
  const RETURN: TokenType := 32
  const SUPER: TokenType := 33
  const THIS: TokenType := 34
  const TRUE: TokenType := 35
  const VAR: TokenType := 36
  const WHILE: TokenType := 37
  // end of input
  const EOF: TokenType := 38

  /** A runtime value, and also a token's literal payload. `Nil` stands for Kotlin's `null`.
      Numbers are the source's `Double`, modelled as exact reals. */
  datatype Value = Nil | Bool(b: bool) | Num(n: real) | Str(s: string)

  /** A token: its kind, the exact source text it was cut from, its decoded literal
      (`Nil` when there is none) and the scanner's line counter when it was emitted. */
  datatype Token = Token(kind: TokenType, lexeme: string, literal: Value, line: nat)
}
