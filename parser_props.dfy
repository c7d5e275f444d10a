/** What the precedence-climbing parser recognises, stated through an
    independent printer: `Show` writes an expression with the fewest
    parentheses that precedence 1 for `+`/`-`, precedence 2 for `*`/`/` and
    left associativity allow, and parsing its output gives the expression
    back. Precedence, associativity and the transparency of parentheses all
    follow from that round trip. */
module ParserProperties {
  import opened Wrappers
  import opened Tokens
  import opened Parsing
  import Ast

  function Prec(op: Ast.BinaryOp): nat
  {
    match op
    case Plus => 1
    case Minus => 1
    case Mul => 2
    case Div => 2
  }

  function OpToken(op: Ast.BinaryOp): Token
  {
    match op
    case Plus => Plus
    case Minus => Minus
    case Mul => Star
    case Div => Slash
  }

  /** The parser's operator table agrees with `Prec`, and every operator is
      left-associative. */
  lemma OperatorTable(op: Ast.BinaryOp)
    ensures OperatorInfo(OpToken(op)) == Some((Prec(op), Left))
    ensures ToBinaryOp(OpToken(op)) == op
    ensures Stops(OpToken(op), Prec(op))
  {
  }

  /** An expression needs parentheses where it is printed with minimum
      precedence `minPrec`: it is a literal, or its operator binds more loosely. */
  predicate IsAtom(e: Ast.Expr, minPrec: nat)
  {
    e.Number? || Prec(e.op) < minPrec
  }

  /** The tokens of `e` printed in a context of minimum precedence `minPrec`:
      the left operand at the operator's own precedence, the right one at the
      next higher, and parentheses only around an operator that binds more
      loosely than its context. */
  function Show(e: Ast.Expr, minPrec: nat): seq<Token>
  {
    match e
    case Number(n) => [Number(n)]
    case Binary(l, op, r) =>
      var body := Show(l, Prec(op)) + [OpToken(op)] + Show(r, Prec(op) + 1);
      if Prec(op) >= minPrec then body else [LParen] + body + [RParen]
  }

  /** `w` occurs in `toks` at `pos`. */
  predicate At(toks: seq<Token>, pos: nat, w: seq<Token>)
  {
    pos + |w| <= |toks| && toks[pos..pos + |w|] == w
  }

  /** The token `t` stops an expression parsed with minimum precedence above
      `prec`: it is not an operator, or its precedence is at most `prec`. */
  predicate Stops(t: Token, prec: nat)
  {
    OperatorInfo(t).None? || OperatorInfo(t).value.0 <= prec
  }

  lemma AtSplit(toks: seq<Token>, pos: nat, a: seq<Token>, b: seq<Token>)
    requires At(toks, pos, a + b)
    ensures At(toks, pos, a) && At(toks, pos + |a|, b)
  {
    assert toks[pos..pos + |a|] == (a + b)[..|a|];
    assert toks[pos + |a|..pos + |a| + |b|] == (a + b)[|a|..];
  }

  /** The loop of `parse_expr` ends at a token that is not an operator of
      precedence at least `minPrec`. */
  lemma LoopStops(toks: seq<Token>, left: Ast.Expr, pos: nat, minPrec: nat)
    requires pos <= |toks|
    requires OperatorInfo(Cur(toks, pos)).None? || OperatorInfo(Cur(toks, pos)).value.0 < minPrec
    ensures ParseLoopSpec(toks, left, pos, minPrec) == Ok((left, pos))
  {
  }

  /** One turn of the loop of `parse_expr`: an operator binding at least
      `minPrec` and its right operand are folded into the left operand. */
  lemma LoopFolds(toks: seq<Token>, e: Ast.Expr, pos: nat, minPrec: nat, end: nat)
    requires e.Binary? && pos < |toks| && Cur(toks, pos) == OpToken(e.op) && minPrec <= Prec(e.op)
    requires ParseExprSpec(toks, pos + 1, Prec(e.op) + 1) == Ok((e.right, end))
    ensures ParseLoopSpec(toks, e.left, pos, minPrec) == ParseLoopSpec(toks, e, end, minPrec)
  {
    OperatorTable(e.op);
    assert e == Ast.Binary(e.left, e.op, e.right);
  }

  /** A parenthesised or literal operand is one primary expression. */
  lemma {:induction false} PrimaryOfAtom(e: Ast.Expr, minPrec: nat, toks: seq<Token>, pos: nat)
    requires IsAtom(e, minPrec) && At(toks, pos, Show(e, minPrec))
    ensures ParsePrimarySpec(toks, pos) == Ok((e, pos + |Show(e, minPrec)|))
    decreases e, 3
  {
    match e
    case Number(n) =>
      assert toks[pos] == Show(e, minPrec)[0];
    case Binary(l, op, r) =>
      assert Show(e, minPrec) == [LParen] + Show(e, 0) + [RParen];
      ParenthesisedOperand(e, toks, pos);
  }

  /** An operator printed inside parentheses is one primary expression. */
  lemma {:induction false} ParenthesisedOperand(e: Ast.Expr, toks: seq<Token>, pos: nat)
    requires e.Binary? && At(toks, pos, [LParen] + Show(e, 0) + [RParen])
    ensures ParsePrimarySpec(toks, pos) == Ok((e, pos + |Show(e, 0)| + 2))
    decreases e, 2
  {
    var inner := Show(e, 0);
    AtSplit(toks, pos, [LParen] + inner, [RParen]);
    AtSplit(toks, pos, [LParen], inner);
    assert toks[pos] == LParen;
    var end := pos + 1 + |inner|;
    assert toks[end] == RParen;
    ExprOfShowBinary(e, 0, 0, toks, pos + 1);
    LoopStops(toks, e, end, 0);
    PrimaryOfParentheses(toks, pos, e, end);
  }

  /** `(`, an expression and `)` make one primary expression. */
  lemma PrimaryOfParentheses(toks: seq<Token>, pos: nat, e: Ast.Expr, end: nat)
    requires pos < end < |toks| && toks[pos] == LParen && toks[end] == RParen
    requires ParseExprSpec(toks, pos + 1, 0) == Ok((e, end))
    ensures ParsePrimarySpec(toks, pos) == Ok((e, end + 1))
  {
  }

  /** The heart of precedence climbing. Parsing with minimum precedence
      `minPrec` from where `e` is printed at `ctxPrec >= minPrec` reads all of
      `e` and then carries on with `e` as the left operand, provided the next
      token would stop a parse at any level above `ctxPrec`. */
  lemma {:induction false} ExprOfShow(e: Ast.Expr, minPrec: nat, ctxPrec: nat, toks: seq<Token>, pos: nat)
    requires minPrec <= ctxPrec
    requires At(toks, pos, Show(e, ctxPrec))
    requires Stops(Cur(toks, pos + |Show(e, ctxPrec)|), ctxPrec)
    ensures ParseExprSpec(toks, pos, minPrec) == ParseLoopSpec(toks, e, pos + |Show(e, ctxPrec)|, minPrec)
    decreases e, 4
  {
    if IsAtom(e, ctxPrec) {
      PrimaryOfAtom(e, ctxPrec, toks, pos);
    } else {
      ExprOfShowBinary(e, minPrec, ctxPrec, toks, pos);
    }
  }

  /** Where the parts of an operator printed without parentheses lie. */
  lemma ShowLayout(e: Ast.Expr, ctxPrec: nat, toks: seq<Token>, pos: nat)
    requires e.Binary? && ctxPrec <= Prec(e.op) && At(toks, pos, Show(e, ctxPrec))
    ensures |Show(e, ctxPrec)| == |Show(e.left, Prec(e.op))| + 1 + |Show(e.right, Prec(e.op) + 1)|
    ensures pos + |Show(e.left, Prec(e.op))| < |toks|
    ensures Cur(toks, pos + |Show(e.left, Prec(e.op))|) == OpToken(e.op)
    ensures At(toks, pos, Show(e.left, Prec(e.op)))
    ensures At(toks, pos + |Show(e.left, Prec(e.op))| + 1, Show(e.right, Prec(e.op) + 1))
  {
    var sl, sr := Show(e.left, Prec(e.op)), Show(e.right, Prec(e.op) + 1);
    assert Show(e, ctxPrec) == sl + [OpToken(e.op)] + sr;
    AtSplit(toks, pos, sl + [OpToken(e.op)], sr);
    AtSplit(toks, pos, sl, [OpToken(e.op)]);
  }

  /** The left operand of an operator printed without parentheses comes
      first, and the operator token right after it. */
  lemma LeftLayout(e: Ast.Expr, ctxPrec: nat, toks: seq<Token>, pos: nat)
    requires e.Binary? && ctxPrec <= Prec(e.op) && At(toks, pos, Show(e, ctxPrec))
    ensures At(toks, pos, Show(e.left, Prec(e.op)))
    ensures Stops(Cur(toks, pos + |Show(e.left, Prec(e.op))|), Prec(e.op))
  {
    ShowLayout(e, ctxPrec, toks, pos);
    OperatorTable(e.op);
  }

  /** `ExprOfShow` for an operator printed without parentheses: the left
      operand's loop absorbs the operator and the right operand. */
  lemma {:induction false} ExprOfShowBinary(e: Ast.Expr, minPrec: nat, ctxPrec: nat, toks: seq<Token>, pos: nat)
    requires e.Binary? && minPrec <= ctxPrec <= Prec(e.op)
    requires At(toks, pos, Show(e, ctxPrec))
    requires Stops(Cur(toks, pos + |Show(e, ctxPrec)|), ctxPrec)
    ensures ParseExprSpec(toks, pos, minPrec) == ParseLoopSpec(toks, e, pos + |Show(e, ctxPrec)|, minPrec)
    decreases e, 1
  {
    LeftLayout(e, ctxPrec, toks, pos);
    ExprOfShow(e.left, minPrec, Prec(e.op), toks, pos);
    FoldOperator(e, minPrec, ctxPrec, toks, pos);
  }

  /** With the left operand of `e` parsed and its operator read, the right
      operand is parsed on its own and ends where the print of `e` ends. */
  lemma {:induction false} RightOfOperator(e: Ast.Expr, ctxPrec: nat, toks: seq<Token>, pos: nat)
    requires e.Binary? && ctxPrec <= Prec(e.op)
    requires At(toks, pos, Show(e, ctxPrec))
    requires Stops(Cur(toks, pos + |Show(e, ctxPrec)|), ctxPrec)
    ensures pos + |Show(e.left, Prec(e.op))| < |toks|
    ensures Cur(toks, pos + |Show(e.left, Prec(e.op))|) == OpToken(e.op)
    ensures ParseExprSpec(toks, pos + |Show(e.left, Prec(e.op))| + 1, Prec(e.op) + 1)
         == Ok((e.right, pos + |Show(e, ctxPrec)|))
    decreases e, 0, 0
  {
    var p := Prec(e.op);
    var end := pos + |Show(e, ctxPrec)|;
    ShowLayout(e, ctxPrec, toks, pos);
    StopsWeaken(Cur(toks, end), ctxPrec, p);
    RightOperand(e.right, p, toks, pos + |Show(e.left, p)| + 1);
  }

  /** With the left operand of `e` parsed, the loop of `parse_expr` reads the
      operator and the right operand and goes on with `e` as its left operand. */
  lemma FoldOperator(e: Ast.Expr, minPrec: nat, ctxPrec: nat, toks: seq<Token>, pos: nat)
    requires e.Binary? && minPrec <= ctxPrec <= Prec(e.op)
    requires At(toks, pos, Show(e, ctxPrec))
    requires Stops(Cur(toks, pos + |Show(e, ctxPrec)|), ctxPrec)
    ensures ParseLoopSpec(toks, e.left, pos + |Show(e.left, Prec(e.op))|, minPrec)
         == ParseLoopSpec(toks, e, pos + |Show(e, ctxPrec)|, minPrec)
    decreases e, 0, 1
  {
    RightOfOperator(e, ctxPrec, toks, pos);
    LoopFolds(toks, e, pos + |Show(e.left, Prec(e.op))|, minPrec, pos + |Show(e, ctxPrec)|);
  }

  lemma StopsWeaken(t: Token, prec: nat, higher: nat)
    requires Stops(t, prec) && prec <= higher
    ensures Stops(t, higher)
  {
  }

  /** The right operand of an operator of precedence `prec`, printed at
      `prec + 1`, is parsed on its own when what follows binds no tighter
      than `prec`. */
  lemma {:induction false} RightOperand(r: Ast.Expr, prec: nat, toks: seq<Token>, pos: nat)
    requires At(toks, pos, Show(r, prec + 1))
    requires Stops(Cur(toks, pos + |Show(r, prec + 1)|), prec)
    ensures ParseExprSpec(toks, pos, prec + 1) == Ok((r, pos + |Show(r, prec + 1)|))
    decreases r, 5
  {
    ExprOfShow(r, prec + 1, prec + 1, toks, pos);
    LoopStops(toks, r, pos + |Show(r, prec + 1)|, prec + 1);
  }

  /** Parsing the printed form of any expression gives it back, consuming
      exactly its tokens, when the next token is not an operator. */
  lemma ParseShowRoundTrip(e: Ast.Expr, toks: seq<Token>, pos: nat)
    requires At(toks, pos, Show(e, 0))
    requires OperatorInfo(Cur(toks, pos + |Show(e, 0)|)).None?
    ensures ParseExprSpec(toks, pos, 0) == Ok((e, pos + |Show(e, 0)|))
  {
    ExprOfShow(e, 0, 0, toks, pos);
  }

  /** `return`, the printed expression and `;` parse to `Return(e)`,
      whatever follows. */
  lemma ParseReturnRoundTrip(e: Ast.Expr, rest: seq<Token>)
    ensures var toks := [Return] + Show(e, 0) + [SemiColon] + rest;
      ParseStmtSpec(toks, 0) == Ok((Ast.Return(e), |Show(e, 0)| + 2))
  {
    var toks := [Return] + Show(e, 0) + [SemiColon] + rest;
    var s := Show(e, 0);
    assert toks[1..1 + |s|] == s;
    assert toks[1 + |s|] == SemiColon;
    ParseShowRoundTrip(e, toks, 1);
  }

  /** `return 1 + 2 * 3;` : multiplication binds tighter than addition. */
  lemma PrecedenceExample()
    ensures ParseStmtSpec([Return, Number(1), Plus, Number(2), Star, Number(3), SemiColon], 0)
         == Ok((Ast.Return(Ast.Binary(Ast.Number(1), Ast.Plus, Ast.Binary(Ast.Number(2), Ast.Mul, Ast.Number(3)))), 7))
  {
    var product := Ast.Binary(Ast.Number(2), Ast.Mul, Ast.Number(3));
    var e := Ast.Binary(Ast.Number(1), Ast.Plus, product);
    assert Show(product, 2) == [Number(2), Star, Number(3)];
    assert Show(e, 0) == [Number(1), Plus, Number(2), Star, Number(3)];
    ParseReturnRoundTrip(e, []);
    assert [Return] + Show(e, 0) + [SemiColon] + []
        == [Return, Number(1), Plus, Number(2), Star, Number(3), SemiColon];
  }

  /** `return 1 - 2 - 3;` : equal precedences group to the left. */
  lemma AssociativityExample()
    ensures ParseStmtSpec([Return, Number(1), Minus, Number(2), Minus, Number(3), SemiColon], 0)
         == Ok((Ast.Return(Ast.Binary(Ast.Binary(Ast.Number(1), Ast.Minus, Ast.Number(2)), Ast.Minus, Ast.Number(3))), 7))
  {
    var difference := Ast.Binary(Ast.Number(1), Ast.Minus, Ast.Number(2));
    var e := Ast.Binary(difference, Ast.Minus, Ast.Number(3));
    assert Show(difference, 1) == [Number(1), Minus, Number(2)];
    assert Show(e, 0) == [Number(1), Minus, Number(2), Minus, Number(3)];
    ParseReturnRoundTrip(e, []);
    assert [Return] + Show(e, 0) + [SemiColon] + []
        == [Return, Number(1), Minus, Number(2), Minus, Number(3), SemiColon];
  }

  /** `return (1 + 2) * 3;` : parentheses regroup and leave no node. */
  lemma ParenthesesExample()
    ensures ParseStmtSpec([Return, LParen, Number(1), Plus, Number(2), RParen, Star, Number(3), SemiColon], 0)
         == Ok((Ast.Return(Ast.Binary(Ast.Binary(Ast.Number(1), Ast.Plus, Ast.Number(2)), Ast.Mul, Ast.Number(3))), 9))
  {
    var sum := Ast.Binary(Ast.Number(1), Ast.Plus, Ast.Number(2));
    var e := Ast.Binary(sum, Ast.Mul, Ast.Number(3));
    assert Show(sum, 2) == [LParen, Number(1), Plus, Number(2), RParen];
    assert Show(e, 0) == [LParen, Number(1), Plus, Number(2), RParen, Star, Number(3)];
    ParseReturnRoundTrip(e, []);
    assert [Return] + Show(e, 0) + [SemiColon] + []
        == [Return, LParen, Number(1), Plus, Number(2), RParen, Star, Number(3), SemiColon];
  }

  /** `return ;` fails in `parse_primary` on the `;`. */
  lemma MissingOperandExample()
    ensures ParseStmtSpec([Return, SemiColon], 0) == Err(UnexpectedInPrimary(SemiColon))
  {
  }
}
