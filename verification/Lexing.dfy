/**
 Tokens and lexers (internal/dialect/dialect.go). The lexer itself is not part of this
 model: it is a function that is only known to cut text into contiguous tokens.
 */
module Lexing {
  datatype TokenKind =
    | Whitespace | LineComment | BlockComment
    | StringLit | QuotedIdent | Ident | NumberLit
    | ParamRef | PositionalParam | Cast | Operator
    | LParen | RParen | Comma | Semicolon | Other

  datatype Lexed =
    | Token(kind: TokenKind, start: nat, end: nat)
    | Eof
    | LexError

  /** `NextToken(src, pos)`. */
  type Lexer = (string, nat) -> Lexed

  /** Token boundaries are contiguous and the end is reported at the end only. */
  ghost predicate WellBehaved(next: Lexer) {
    forall src: string, pos: nat :: pos <= |src| ==> StepOk(src, pos, next(src, pos))
  }

  predicate StepOk(src: string, pos: nat, t: Lexed) {
    (pos == |src| ==> t.Eof?) &&
    match t
    case Token(_, start, end) => start == pos < end <= |src|
    case Eof => pos == |src|
    case LexError => true
  }
}
