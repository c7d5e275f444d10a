/** The parser: a saturating cursor over the token list, one `return`
    statement form, and precedence climbing for expressions. */
module Parsing {
  import opened Wrappers
  import opened Tokens
  import Ast

  datatype ParseError =
    | ExpectedReturn(found: Token)         // `parse`: the statement does not start with `return`
    | MissingSemiColon(found: Token)       // `parse`: `assert!(self.eat(&SemiColon))` failed
    | MissingRParen(found: Token)          // `parse_primary`: `assert!(self.eat(&RParen))` failed
    | UnexpectedInPrimary(found: Token)    // `parse_primary`: no arm for this token

  /** The token at `pos`, or `EOF` at or past the end: never out of bounds. */
  function Cur(toks: seq<Token>, pos: nat): (t: Token)
    ensures pos < |toks| ==> t == toks[pos]
    ensures pos >= |toks| ==> t == EOF
  {
    if pos < |toks| then toks[pos] else EOF
  }

  /** The cursor one step on, saturating at the length of the token list. */
  function Adv(toks: seq<Token>, pos: nat): (p: nat)
    ensures pos <= |toks| ==> p <= |toks|
    ensures p == (if pos < |toks| then pos + 1 else pos)
  {
    if pos < |toks| then pos + 1 else pos
  }

  datatype Assoc = Left | Right

  /** Binding power and associativity of a binary operator token; `None`
      for every other token, which ends an expression. */
  function OperatorInfo(t: Token): (info: Option<(nat, Assoc)>)
    ensures info.Some? <==> t == Plus || t == Minus || t == Star || t == Slash
    ensures info.Some? ==> 1 <= info.value.0 <= 2 && info.value.1 == Left
  {
    match t
    case Plus => Some((1, Left))
    case Minus => Some((1, Left))
    case Star => Some((2, Left))
    case Slash => Some((2, Left))
    case _ => None
  }

  function NextMin(prec: nat, assoc: Assoc): (m: nat)
    ensures m == prec || m == prec + 1
    ensures m == prec + 1 <==> assoc == Left
  {
    match assoc
    case Left => prec + 1
    case Right => prec
  }

  function ToBinaryOp(t: Token): (op: Ast.BinaryOp)
    requires OperatorInfo(t).Some?
    ensures op.Plus? || op.Minus? <==> OperatorInfo(t).value.0 == 1
  {
    match t
    case Plus => Ast.Plus
    case Minus => Ast.Minus
    case Star => Ast.Mul
    case Slash => Ast.Div
  }

  /** `parse_expr(min_prec)` from `pos`: the expression and the position after it. */
  function ParseExprSpec(toks: seq<Token>, pos: nat, minPrec: nat): (r: Result<(Ast.Expr, nat), ParseError>)
    requires pos <= |toks|
    ensures r.Ok? ==> pos < r.value.1 <= |toks|
    decreases |toks| - pos, 1
  {
    match ParsePrimarySpec(toks, pos)
    case Err(e) => Err(e)
    case Ok((left, p)) => ParseLoopSpec(toks, left, p, minPrec)
  }

  /** The loop of `parse_expr`: with `left` parsed and the cursor at `pos`,
      fold every following operator of precedence at least `minPrec`. */
  function ParseLoopSpec(toks: seq<Token>, left: Ast.Expr, pos: nat, minPrec: nat): (r: Result<(Ast.Expr, nat), ParseError>)
    requires pos <= |toks|
    ensures r.Ok? ==> pos <= r.value.1 <= |toks|
    decreases |toks| - pos, 2
  {
    var t := Cur(toks, pos);
    var info := OperatorInfo(t);
    if info.None? || info.value.0 < minPrec then Ok((left, pos))
    else
      match ParseExprSpec(toks, Adv(toks, pos), NextMin(info.value.0, info.value.1))
      case Err(e) => Err(e)
      case Ok((right, p)) => ParseLoopSpec(toks, Ast.Binary(left, ToBinaryOp(t), right), p, minPrec)
  }

  /** `parse_primary` from `pos`: a number, or a parenthesised expression
      that leaves no node of its own. */
  function ParsePrimarySpec(toks: seq<Token>, pos: nat): (r: Result<(Ast.Expr, nat), ParseError>)
    requires pos <= |toks|
    ensures r.Ok? ==> pos < r.value.1 <= |toks|
    decreases |toks| - pos, 0
  {
    var t := Cur(toks, pos);
    if t.Number? then Ok((Ast.Number(t.value), Adv(toks, pos)))
    else if t == LParen then
      match ParseExprSpec(toks, Adv(toks, pos), 0)
      case Err(e) => Err(e)
      case Ok((e, p)) =>
        if Cur(toks, p) == RParen then Ok((e, Adv(toks, p))) else Err(MissingRParen(Cur(toks, p)))
    else Err(UnexpectedInPrimary(t))
  }

  /** `parse`: `return`, an expression, then `;`. */
  function ParseStmtSpec(toks: seq<Token>, pos: nat): (r: Result<(Ast.Stmt, nat), ParseError>)
    requires pos <= |toks|
    ensures r.Ok? ==>
              pos + 2 < r.value.1 <= |toks| && toks[pos] == Return && toks[r.value.1 - 1] == SemiColon
    ensures r.Ok? ==> ParseExprSpec(toks, pos + 1, 0) == Ok((r.value.0.expr, r.value.1 - 1))
  {
    match Cur(toks, pos)
    case Return =>
      (match ParseExprSpec(toks, Adv(toks, pos), 0)
       case Err(e) => Err(e)
       case Ok((e, p)) =>
         if Cur(toks, p) == SemiColon then Ok((Ast.Return(e), Adv(toks, p)))
         else Err(MissingSemiColon(Cur(toks, p))))
    case t => Err(ExpectedReturn(t))
  }

  class Parser {
    const tokens: seq<Token>
    var position: nat

    ghost predicate Valid()
      reads this
    {
      position <= |tokens|
    }

    constructor (tokens: seq<Token>)
      ensures Valid() && this.tokens == tokens && position == 0
    {
      this.tokens := tokens;
      position := 0;
    }

    /** The token under the cursor, `EOF` once the tokens are used up. */
    function Current(): (t: Token)
      reads this
      ensures position < |tokens| ==> t == tokens[position]
      ensures position >= |tokens| ==> t == EOF
    {
      Cur(tokens, position)
    }

    method Advance()
      requires Valid()
      modifies this
      ensures Valid() && position == Adv(tokens, old(position))
    {
      if position < |tokens| {
        position := position + 1;
      }
    }

    /** Consumes the current token exactly when it is `expected`. */
    method Eat(expected: Token) returns (b: bool)
      requires Valid()
      modifies this
      ensures Valid()
      ensures b <==> old(Current()) == expected
      ensures position == if b then Adv(tokens, old(position)) else old(position)
    {
      if Current() == expected {
        Advance();
        b := true;
      } else {
        b := false;
      }
    }

    method Parse() returns (r: Result<Ast.Stmt, ParseError>)
      requires Valid()
      modifies this
      ensures Valid() && Agrees(ParseStmtSpec(tokens, old(position)), r, position)
    {
      match Current()
      case Return =>
        Advance();
        var expr := ParseExpr(0);
        if expr.Err? {
          return Err(expr.error);
        }
        var found := Current();
        var ok := Eat(SemiColon);
        if !ok {
          return Err(MissingSemiColon(found));
        }
        r := Ok(Ast.Return(expr.value));
      case t =>
        r := Err(ExpectedReturn(t));
    }

    method ParseExpr(minPrec: nat) returns (r: Result<Ast.Expr, ParseError>)
      requires Valid()
      modifies this
      ensures Valid() && Agrees(ParseExprSpec(tokens, old(position), minPrec), r, position)
      decreases |tokens| - position, 1
    {
      ghost var start := position;
      var primary := ParsePrimary();
      if primary.Err? {
        return Err(primary.error);
      }
      var left := primary.value;
      while true
        invariant Valid() && start < position
        invariant ParseExprSpec(tokens, start, minPrec) == ParseLoopSpec(tokens, left, position, minPrec)
        decreases |tokens| - position
      {
        var info := OperatorInfo(Current());
        if info.None? {
          break;
        }
        var (prec, assoc) := info.value;
        if prec < minPrec {
          break;
        }
        var opToken := Current();
        Advance();
        var right := ParseExpr(NextMin(prec, assoc));
        if right.Err? {
          return Err(right.error);
        }
        left := Ast.Binary(left, ToBinaryOp(opToken), right.value);
      }
      r := Ok(left);
    }

    method ParsePrimary() returns (r: Result<Ast.Expr, ParseError>)
      requires Valid()
      modifies this
      ensures Valid() && Agrees(ParsePrimarySpec(tokens, old(position)), r, position)
      decreases |tokens| - position, 0
    {
      match Current()
      case Number(n) =>
        Advance();
        r := Ok(Ast.Number(n));
      case LParen =>
        Advance();
        var expr := ParseExpr(0);
        if expr.Err? {
          return Err(expr.error);
        }
        var found := Current();
        var ok := Eat(RParen);
        if !ok {
          return Err(MissingRParen(found));
        }
        r := expr;
      case t =>
        r := Err(UnexpectedInPrimary(t));
    }
  }

  /** The crate-level `parse`: a fresh parser over `tokens`, one statement. */
  method Parse(tokens: seq<Token>) returns (r: Result<Ast.Stmt, ParseError>)
    ensures r == WithoutPosition(ParseStmtSpec(tokens, 0))
  {
    var parser := new Parser(tokens);
    r := parser.Parse();
  }
}
