# rusthon: lexer, parser and x86-64 code generator, in Dafny

rusthon compiles a one-statement language, `return <expr>;`, to x86-64
assembly text. The expression holds 64-bit integer literals, the operators
`+ - * /`, and parentheses. This project models the compiler's three core
pieces and proves properties about each of them.

- **The lexer** (`Lexing`). A cursor over the characters of the source text.
  It skips Unicode whitespace, then reads a run of ASCII digits as an `i64`
  `Number` or a run of ASCII letters as an `Ident`. At the end of the input
  it returns `EOF`. The class `Lexer` keeps the source's fields and loops.
  Each method is proved against `Span`, the maximal run of one character
  class, and against `Scan`, which is what one `next_token` call returns and
  where it leaves the cursor.
- **The parser** (`Parsing`). A saturating cursor over the tokens, one
  `return` statement form, and precedence climbing for expressions. `+` and
  `-` have precedence 1, `*` and `/` precedence 2, and all four are
  left-associative. The class `Parser` has the source's methods, and each is
  proved to agree with a recursive specification function. `ParserProperties`
  defines an independent printer, `Show`, that writes the fewest parentheses
  needed. It proves that parsing `Show`'s output gives the expression back.
  Precedence, associativity and transparent parentheses all follow from that.
- **The code generator** (`Codegen`). Each expression becomes stack-machine
  code that leaves its value in `rax`. A `return` statement adds the `exit`
  system call. The methods push the text lines onto a `Listing`, as the
  source pushes onto its `Vec<String>`. `Asm` proves that each line matches
  the text the source writes literally, and that the joined text splits back
  into one line per instruction. `Machine` is a small model of the x86-64
  instructions used. `CodegenProperties` proves that the generated code
  computes the value of the expression (`Ast.Eval`) and exits with it in
  `rdi`, under one condition on divisions (see "Left out").

Panics, `assert!` failures and `unwrap` failures in the source become `Err`
results (`LexError`, `ParseError`). `i64` is an integer subset type. Wrap-around
is written out with `Int64.Wrap`, and Rust's truncating division with
`Int64.TruncDiv`.

## Model

| member | source | states |
|---|---|---|
| Lexing.Lexer.constructor | rusthon/src/lexer/lexer.rs:13-18 | the lexer starts at position 0 over the given text |
| Lexing.Lexer.Peek | rusthon/src/lexer/lexer.rs:19-21 | returns the character at the cursor exactly when the cursor is inside the input, and `None` otherwise |
| Lexing.Lexer.Advance | rusthon/src/lexer/lexer.rs:22-26 | returns what `peek` saw and moves the cursor one step, also past the end |
| Lexing.Lexer.SkipWhiteSpace | rusthon/src/lexer/lexer.rs:35-43 | moves the cursor over the maximal run of whitespace and stops at the end or at a character that is not whitespace |
| Lexing.Lexer.LexNumber | rusthon/src/lexer/lexer.rs:44-55 | consumes the maximal run of ASCII digits; the token is the `i64` value of the first digit followed by that run, or the out-of-range error that `unwrap` panics with |
| Lexing.Lexer.LexIdent | rusthon/src/lexer/lexer.rs:56-67 | consumes the maximal run of ASCII letters; the token is `Ident` of the first letter followed by that run |
| Lexing.Lexer.NextToken | rusthon/src/lexer/lexer.rs:27-34 | returns the token or the error `Scan` gives from the old position, and leaves the cursor where `Scan` says |
| Lexing.NumberToken | rusthon/src/lexer/lexer.rs:54 | a numeral's text becomes a `Number` token when `parse::<i64>` accepts it; otherwise it is the out-of-range error carrying that same text, the case where `unwrap` panics |
| LexerProperties.DigitNotWhitespace | rusthon/src/lexer/lexer.rs:37 | `Lexing.IsWhitespace`, the model of `char::is_whitespace`, is false for every ASCII digit, so the whitespace loop stops before a numeral |
| LexerProperties.LetterNotWhitespace | rusthon/src/lexer/lexer.rs:37 | `Lexing.IsWhitespace` is false for every ASCII letter, so the whitespace loop stops before a word |
| LexerProperties.ScanNoWhitespace | rusthon/src/lexer/lexer.rs:28-29 | with a character other than whitespace at the cursor, `next_token` goes straight to its dispatch |
| LexerProperties.DigitRunSpan | rusthon/src/lexer/lexer.rs:44-53 | when a digit string is followed by a non-digit, the first digit and the run `lex_number` collects after it spell exactly that string |
| LexerProperties.LetterRunSpan | rusthon/src/lexer/lexer.rs:56-67 | when a letter string is followed by a non-letter, the first letter and the run `lex_ident` collects after it spell exactly that string |
| LexerProperties.ScanDigitRun | rusthon/src/lexer/lexer.rs:30 | a digit at the cursor whose run spells `text` gives the token of `text`, and the cursor ends after the run |
| LexerProperties.NumberTokenOfDigits | rusthon/src/lexer/lexer.rs:54 | a digit string gives `Number` of its decimal value when that is at most `i64::MAX`, and the out-of-range error otherwise |
| Lexing.Scan | rusthon/src/lexer/lexer.rs:27-34 | a successful token always moves the cursor forward; a token other than `EOF` ends within the input |
| Lexing.ScanAt | rusthon/src/lexer/lexer.rs:29-33 | the dispatch after the whitespace moves the cursor forward and keeps every token other than `EOF` within the input |
| Lexing.ScanAtEnd | rusthon/src/lexer/lexer.rs:32 | at or past the end of the input the dispatch gives `EOF` and leaves the cursor one step further |
| Lexing.ScanAtDigit | rusthon/src/lexer/lexer.rs:30 | a digit at the cursor gives the token of that digit and the digit run after it, and the cursor ends after the run |
| Lexing.ScanAtLetter | rusthon/src/lexer/lexer.rs:31 | a letter at the cursor gives `Ident` of that letter and the letter run after it, and the cursor ends after the run |
| Lexing.ScanAtOther | rusthon/src/lexer/lexer.rs:29-33 | a character that is neither a digit nor a letter gives the error naming it |
| Lexing.SpanIsMaximalRun | rusthon/src/lexer/lexer.rs:36-42 | the run the lexer's loops consume is a slice of the input, all of one class, and the next character (if any) is not of that class |
| LexerProperties.ScanSkipsWhitespace | rusthon/src/lexer/lexer.rs:35-43 | a leading whitespace character does not change the next token or where it ends |
| LexerProperties.ScanEndOfInput | rusthon/src/lexer/lexer.rs:27-34 | `EOF` (with the cursor one past the end) comes back if and only if only whitespace remains |
| LexerProperties.ScanDigits | rusthon/src/lexer/lexer.rs:44-55 | a run of digits followed by a non-digit is one `Number` token with its decimal value when that fits in `i64`, and the out-of-range error otherwise |
| LexerProperties.ScanNumeral | rusthon/src/lexer/lexer.rs:44-55 | lexing the decimal text of any non-negative `i64` gives back that value, as one token covering the whole numeral |
| LexerProperties.ScanWord | rusthon/src/lexer/lexer.rs:56-67 | a run of letters followed by a non-letter is one `Ident` token holding exactly those letters; keywords get no special treatment |
| LexerProperties.ScanUnexpected | rusthon/src/lexer/lexer.rs:29-33 | a character that is not whitespace, a digit or a letter matches no arm, and the lexer stops with an error naming it |
| Int64.IntToDecimal | rusthon/src/parser_ast/parser.rs:135 | the text `format!` writes for an integer is non-empty, made of digits and a sign, and starts with `-` exactly when the integer is negative |
| Int64.ParseI64 | rusthon/src/lexer/lexer.rs:54 | `parse::<i64>` accepts only non-empty text, and a value it reads after a leading `-` is not positive |
| Int64.DecimalRoundTrip | rusthon/src/lexer/lexer.rs:54 | the decimal value of the shortest digit string of `n` is `n` |
| Int64.ParseFormatRoundTrip | rusthon/src/parser_ast/parser.rs:135 | `parse::<i64>` of the text that `format!("{}", n)` writes for an `i64` gives back `n` |
| Int64.ParseDigits | rusthon/src/lexer/lexer.rs:54 | a digit string parses as `i64` exactly when its value is at most `i64::MAX` |
| Parsing.Cur | rusthon/src/parser_ast/parser.rs:45-47 | the token at a position inside the tokens, and `EOF` at or past their end |
| Parsing.Adv | rusthon/src/parser_ast/parser.rs:49-53 | the next position: one step further inside the tokens, and unchanged at or past their end, so it never leaves them |
| Parsing.OperatorInfo | rusthon/src/parser_ast/parser.rs:79-85 | exactly `+ - * /` have an entry; each has precedence 1 or 2 and is left-associative; every other token ends the loop |
| Parsing.NextMin | rusthon/src/parser_ast/parser.rs:91-94 | the right operand's minimum precedence is one above the operator's exactly for a left-associative operator, and equal to it otherwise |
| Parsing.ToBinaryOp | rusthon/src/parser_ast/parser.rs:96-102 | an operator token maps to `Plus` or `Minus` exactly when its precedence is 1 |
| Parsing.ParseLoopSpec | rusthon/src/parser_ast/parser.rs:78-108 | the operator loop, when it succeeds, ends at or after where it started and within the tokens |
| Parsing.Parser.constructor | rusthon/src/parser_ast/parser.rs:38-43 | the parser starts at position 0 over the given tokens |
| Parsing.Parser.Current | rusthon/src/parser_ast/parser.rs:45-47 | the token at the cursor, and `EOF` once the cursor is at or past the end |
| Parsing.Parser.Advance | rusthon/src/parser_ast/parser.rs:49-53 | moves the cursor one step, but never past the end of the tokens |
| Parsing.Parser.Eat | rusthon/src/parser_ast/parser.rs:55-62 | returns true if and only if the current token is the expected one, and moves the cursor only then |
| Parsing.Parser.Parse | rusthon/src/parser_ast/parser.rs:64-74 | the result and final position are those of `ParseStmtSpec`: `return`, an expression, then `;` |
| Parsing.Parser.ParseExpr | rusthon/src/parser_ast/parser.rs:76-110 | the result and final position are those of `ParseExprSpec`, the precedence-climbing fold |
| Parsing.Parser.ParsePrimary | rusthon/src/parser_ast/parser.rs:112-127 | the result and final position are those of `ParsePrimarySpec`: a literal, or a parenthesised expression that leaves no node |
| Parsing.Parse | rusthon/src/parser_ast/parser.rs:199-202 | a fresh parser over the tokens gives `ParseStmtSpec` from position 0 |
| Parsing.ParseExprSpec | rusthon/src/parser_ast/parser.rs:76-110 | a parsed expression consumes at least one token and stays within the tokens |
| Parsing.ParsePrimarySpec | rusthon/src/parser_ast/parser.rs:112-127 | a primary consumes at least one token and stays within the tokens |
| Parsing.ParseStmtSpec | rusthon/src/parser_ast/parser.rs:64-74 | a parsed statement starts with `return`, ends with `;`, and its expression is what `parse_expr(0)` reads between them |
| ParserProperties.OperatorTable | rusthon/src/parser_ast/parser.rs:79-102 | the operator table gives `+ -` precedence 1 and `* /` precedence 2, all left-associative, and maps each token to its operator |
| ParserProperties.ExprOfShow | rusthon/src/parser_ast/parser.rs:76-110 | parsing from where an expression is printed, with a minimum precedence no higher than its context's, reads all of it and carries on with it as the left operand |
| ParserProperties.FoldOperator | rusthon/src/parser_ast/parser.rs:78-107 | with the left operand parsed, one turn of the loop reads the operator and the right operand and continues with the combined node |
| ParserProperties.RightOfOperator | rusthon/src/parser_ast/parser.rs:91-95 | the right operand, parsed one precedence level higher, is read on its own and ends where the whole printed operator ends |
| ParserProperties.ParseShowRoundTrip | rusthon/src/parser_ast/parser.rs:76-127 | parsing the printed form of any expression gives that expression back and consumes exactly its tokens |
| ParserProperties.ParseReturnRoundTrip | rusthon/src/parser_ast/parser.rs:64-74 | `return`, a printed expression and `;` parse to `Return` of that expression, whatever follows |
| ParserProperties.PrecedenceExample | rusthon/src/parser_ast/parser.rs:79-95 | `return 1 + 2 * 3;` groups the product as the right operand |
| ParserProperties.AssociativityExample | rusthon/src/parser_ast/parser.rs:91-95 | `return 1 - 2 - 3;` groups to the left |
| ParserProperties.ParenthesesExample | rusthon/src/parser_ast/parser.rs:119-124 | `return (1 + 2) * 3;` groups the sum under the product |
| ParserProperties.MissingOperandExample | rusthon/src/parser_ast/parser.rs:125 | `return ;` fails in the primary on the `;` |
| Asm.RenderAll | rusthon/src/parser_ast/parser.rs:132-175 | one text line per instruction, in order |
| Asm.MovImmText | rusthon/src/parser_ast/parser.rs:135 | a literal load is the line `    mov `, the register, `, ` and the decimal text of the value |
| Asm.StackText | rusthon/src/parser_ast/parser.rs:140-144 | the lines around the right operand are `    push rax` and `    pop rbx` |
| Asm.AddText | rusthon/src/parser_ast/parser.rs:147-150 | addition is the line `    add rax, rbx` |
| Asm.SubText | rusthon/src/parser_ast/parser.rs:151-158 | subtraction is the lines `    mov rcx, rax`, `    mov rax, rbx`, `    sub rax, rcx` |
| Asm.MulText | rusthon/src/parser_ast/parser.rs:159-164 | multiplication is the lines `    xchg rax, rbx`, `    imul rax, rbx` |
| Asm.DivText | rusthon/src/parser_ast/parser.rs:165-171 | division is the lines `    xchg rax, rbx`, `    mov rdx, 0`, `    div rbx` |
| Asm.ExitCallText | rusthon/src/parser_ast/parser.rs:190-192 | the exit call is the lines `    mov rdi, rax`, `    mov rax, 60`, `    syscall` |
| Asm.ConstantLoadText | rusthon/src/parser_ast/parser.rs:169 | the constant loads are `    mov rdx, 0` (this line, in the division) and `    mov rax, 60` (line 191, in the exit call) |
| Asm.RenderIsOneLine | rusthon/src/parser_ast/parser.rs:132-175 | every emitted line starts with four spaces and holds no newline |
| Asm.Join | rusthon/src/parser_ast/parser.rs:181 | the joined text starts with the first line, and with more than one line a newline follows it (the same join is at line 195) |
| Asm.SplitJoin | rusthon/src/parser_ast/parser.rs:181 | splitting the newline-joined listing gives back its lines when none holds a newline |
| Machine.ExitStatus | rusthon/src/parser_ast/parser.rs:190-192 | the status a parent process sees after `exit` is a byte that agrees with `rdi` modulo 256: Linux keeps the low 8 bits |
| Machine.RunAppend | rusthon/src/parser_ast/parser.rs:139-145 | running two pieces of code one after the other is running their concatenation |
| Machine.PushThenPop | rusthon/src/parser_ast/parser.rs:139-144 | a `push`, then code that runs to completion and leaves the stack as it found it, then a `pop`: the stack is restored, and the pushed value lands in the popped register, whatever the code did to the registers |
| Codegen.OpTail | rusthon/src/parser_ast/parser.rs:146-172 | each operator's instructions are non-empty and hold no `push`, `pop` or `syscall`, so they keep the stack and do not exit |
| Codegen.Compile | rusthon/src/parser_ast/parser.rs:132-175 | an expression's code is non-empty, starts by loading a literal into `rax`, and never exits |
| Codegen.CompileStmt | rusthon/src/parser_ast/parser.rs:185-196 | a `return`'s code ends with `mov rdi, rax`, `mov rax, 60`, `syscall`, and the final `syscall` is its only one |
| Codegen.Listing.constructor | rusthon/src/parser_ast/parser.rs:179 | the listing starts empty |
| Codegen.Listing.Push | rusthon/src/parser_ast/parser.rs:135 | a push appends one line and keeps the earlier lines |
| Codegen.CodegenInto | rusthon/src/parser_ast/parser.rs:132-175 | appends the text of `Compile(e)` to the listing, one line per instruction, and keeps what was there before |
| Codegen.EmitOperator | rusthon/src/parser_ast/parser.rs:146-172 | appends the rendered lines of the operator's instructions (`OpTail`) and keeps the earlier lines; the register convention they rely on, right operand in `rax` and left in `rbx`, is the precondition of `CodegenProperties.TailCorrect` |
| Codegen.CompileLayout | rusthon/src/parser_ast/parser.rs:139-145 | a binary node's text is the left operand, `push rax`, the right operand, `pop rbx`, then the operator |
| Codegen.Codegen | rusthon/src/parser_ast/parser.rs:178-182 | the result is the listing joined with newlines, and it splits back into one line per instruction |
| Codegen.StmtCodegen | rusthon/src/parser_ast/parser.rs:185-196 | the result is the expression's listing plus the exit call, joined with newlines, and it splits back into one line per instruction |
| CodegenProperties.TailCorrect | rusthon/src/parser_ast/parser.rs:146-172 | with the right operand in `rax` and the left one in `rbx`, each operator's instructions leave `left op right` (as `i64`) in `rax` and keep the stack and `rdi`; for division only when the left operand is not negative and the right one is positive |
| CodegenProperties.DivTailRuns | rusthon/src/parser_ast/parser.rs:165-171 | the division instructions never fault for a positive divisor, and they divide the left operand's bit pattern read as unsigned |
| CodegenProperties.CompileCorrect | rusthon/src/parser_ast/parser.rs:132-175 | the code for an expression leaves its value in `rax` and the stack and `rdi` as they were (divisions as restricted under "Left out") |
| CodegenProperties.ReturnExits | rusthon/src/parser_ast/parser.rs:185-196 | the code for `return e;` exits with the value of `e` in `rdi`; the parent process sees its low 8 bits (`Machine.ExitStatus`) |
| CodegenProperties.NegativeDividendExample | rusthon/src/parser_ast/parser.rs:165-171 | `return (0 - 7) / 2;` means -3, exit status 253, but its code exits with 2^63 - 4 in `rdi`, exit status 252, because `div` reads -7 as 2^64 - 7 |

## Left out

- `rusthon/src/main.rs`, `rusthon/src/file_helpers.rs` and `rusthon/src/printhelpers.rs` are not part of this model. They hold file I/O, the driver, the assembler and linker calls, and printing.
- There is no tokenising loop over the whole input in the lexer file, so the model has one `next_token` call (`Scan`) and no token list built from text.
- The lexer follows its code rather than the language's intent. `next_token` has arms only for digits, letters and the end of input. So `+ - * / ( ) ;` and every other character give `UnexpectedChar`, and `return` is read as `Ident("return")`. The `Token` type is the union of the lexer's variants and the ones the parser matches on.
- `next_token` as written calls `advance` without parentheses, and `skip_white_space` has no `&mut self`. The model takes the evident meaning: one `advance()` call, and a method on the lexer.
- Lexing.Lexer.NextToken: a character with no matching arm is the error `UnexpectedChar`. In the source that case is a non-exhaustive match, which does not compile.
- `char::is_whitespace` is modelled by the fixed set of Unicode White_Space code points. Rust's `is_ascii_digit` and `is_ascii_alphabetic` are modelled exactly.
- Panics (`panic!`, failed `assert!`, `unwrap` on an out-of-range numeral) become `Err` values. The panic messages are not modelled; the error carries the offending token or text instead.
- The `Assoc::Right` arm of `parse_expr` is kept in `NextMin` but cannot be reached: every operator in the table is left-associative.
- `min_prec` is a `u8` and positions are `usize` in the source. Both are `nat` here, because the values used (0 to 3, and positions bounded by the input) never come near their limits.
- The code-generating methods push `Asm.Render` of each instruction, not the literal strings. The `Asm.*Text` lemmas prove that each rendered line is exactly the source's literal.
- The emitted text is not assembled. Its meaning is given by `Machine.Step`, which covers only the registers, the stack and the instructions the generator uses. Flags and memory other than the stack are not modelled. `Exited` carries the full 64-bit `rdi`; the status a parent process sees is only its low 8 bits, given by `Machine.ExitStatus`.
- CodegenProperties.CompileCorrect: proved only when every division has a non-negative dividend and a positive divisor (`UnsignedDivisions`). The generated division zeroes `rdx` and uses the unsigned `div`, so a negative operand gives a different quotient (`NegativeDividendExample`), and a zero divisor faults. Addition, subtraction and multiplication are proved for all `i64` values, with wrap-around.
- CodegenProperties.ReturnExits: it carries the same division condition as `CompileCorrect`.
- CodegenProperties.TailCorrect: the division case is proved only for a non-negative left operand and a positive right one. The emitted `div` is unsigned with `rdx` zeroed, so a negative operand gives another quotient (`NegativeDividendExample`) and a zero divisor faults (`DivTailRuns`).
- `Ast.Eval` is the intended meaning of an expression. It uses `i64` wrap-around for `+ - *` and Rust's truncating `/`, and it is undefined for a zero divisor and for `i64::MIN / -1`. The source defines no evaluator of its own.
