/** The tokens of the small interpreted language (interpreter/lexer/token.py
    and the keyword table of interpreter/lexer/lexer.py). */
module LoxTokens {
  import opened Base

  /** The token types: an enumeration whose members take the values
      1, 2, ... in declaration order, as auto() numbers them. */
  newtype TokenType = k: int | 1 <= k <= 38 witness 1

  // single-character tokens
  const LEFT_PAREN: TokenType := 1
  const RIGHT_PAREN: TokenType := 2
  const LEFT_BRACE: TokenType := 3
  const RIGHT_BRACE: TokenType := 4
  const LEFT_BRACKET: TokenType := 5
  const RIGHT_BRACKET: TokenType := 6
  const COMMA: TokenType := 7
  const DOT: TokenType := 8
  const MINUS: TokenType := 9
  const PLUS: TokenType := 10
  const SEMICOLON: TokenType := 11
  const SLASH: TokenType := 12
  const STAR: TokenType := 13
  // one- or two-character tokens
  const BANG: TokenType := 14
  const BANG_EQUAL: TokenType := 15
  const EQUAL: TokenType := 16
  const EQUAL_EQUAL: TokenType := 17
  const GREATER: TokenType := 18
  const GREATER_EQUAL: TokenType := 19
  const LESS: TokenType := 20
  const LESS_EQUAL: TokenType := 21
  // literals
  const IDENTIFIER: TokenType := 22
  const STRING: TokenType := 23
  const NUMBER: TokenType := 24
  // keywords
  const AND: TokenType := 25
  const ELSE: TokenType := 26
  const FALSE: TokenType := 27
  const FUN: TokenType := 28
  const FOR: TokenType := 29
  const IF: TokenType := 30
  const NIL: TokenType := 31
  const OR: TokenType := 32
  const PRINT: TokenType := 33
  const RETURN: TokenType := 34
  const TRUE: TokenType := 35
  const VAR: TokenType := 36
  const WHILE: TokenType := 37
  const EOF: TokenType := 38

  /** The literal a token carries. A number keeps its lexeme: the conversion
      with float() is not part of this model. */
  datatype Literal = NoLiteral | StrLit(text: string) | NumLit(lexeme: string)

  datatype Token = Token(kind: TokenType, lexeme: string, literal: Literal, line: nat)

  /** The reserved words and their token types. */
  function KeywordType(text: string): (r: Option<TokenType>)
    ensures r.Some? ==> r.value in {AND, ELSE, FALSE, FOR, FUN, IF, NIL, OR, PRINT, RETURN, TRUE, VAR, WHILE}
  {
    if text == "and" then Some(AND)
    else if text == "else" then Some(ELSE)
    else if text == "false" then Some(FALSE)
    else if text == "for" then Some(FOR)
    else if text == "fun" then Some(FUN)
    else if text == "if" then Some(IF)
    else if text == "nil" then Some(NIL)
    else if text == "or" then Some(OR)
    else if text == "print" then Some(PRINT)
    else if text == "return" then Some(RETURN)
    else if text == "true" then Some(TRUE)
    else if text == "var" then Some(VAR)
    else if text == "while" then Some(WHILE)
    else None
  }

  /** `keywords.get(text, TokenType.IDENTIFIER)`. */
  function IdentifierType(text: string): TokenType
  {
    var k := KeywordType(text);
    if k.Some? then k.value else IDENTIFIER
  }

  predicate IsKeyword(t: TokenType)
  {
    t in {AND, ELSE, FALSE, FOR, FUN, IF, NIL, OR, PRINT, RETURN, TRUE, VAR, WHILE}
  }

  /** The type of a single-character token. */
  function SingleCharType(c: char): Option<TokenType>
  {
    if c == '(' then Some(LEFT_PAREN)
    else if c == ')' then Some(RIGHT_PAREN)
    else if c == '{' then Some(LEFT_BRACE)
    else if c == '}' then Some(RIGHT_BRACE)
    else if c == '[' then Some(LEFT_BRACKET)
    else if c == ']' then Some(RIGHT_BRACKET)
    else if c == ',' then Some(COMMA)
    else if c == '.' then Some(DOT)
    else if c == '-' then Some(MINUS)
    else if c == '+' then Some(PLUS)
    else if c == ';' then Some(SEMICOLON)
    else if c == '*' then Some(STAR)
    else None
  }

  /** The types of the operators that may take a following '=': the one-
      character form and the two-character form. */
  function OperatorTypes(c: char): Option<(TokenType, TokenType)>
  {
    if c == '!' then Some((BANG, BANG_EQUAL))
    else if c == '=' then Some((EQUAL, EQUAL_EQUAL))
    else if c == '<' then Some((LESS, LESS_EQUAL))
    else if c == '>' then Some((GREATER, GREATER_EQUAL))
    else None
  }

  predicate IsAlpha(c: char) { ('a' <= c <= 'z') || ('A' <= c <= 'Z') || c == '_' }

  predicate IsAlphaNumeric(c: char) { IsAlpha(c) || IsDigit(c) }
}
