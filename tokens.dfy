/** The token type shared by the lexer and the parser. The lexer's own
    declaration lists only `Ident`, `Number` and `EOF`; the parser also
    matches on the keyword, operator and punctuation variants, so this is the
    union of both. */
module Tokens {
  import opened Int64

  datatype Token =
    | Ident(name: string)
    | Number(value: I64)
    | Return
    | Plus
    | Minus
    | Star
    | Slash
    | LParen
    | RParen
    | SemiColon
    | EOF
}
