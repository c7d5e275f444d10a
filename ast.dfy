/** The syntax tree built by the parser, and the meaning of its expressions
    in the language's 64-bit integer arithmetic. */
module Ast {
  import opened Wrappers
  import opened Int64

  datatype BinaryOp = Plus | Minus | Mul | Div

  datatype Expr =
    | Number(value: I64)
    | Binary(left: Expr, op: BinaryOp, right: Expr)

  datatype Stmt = Return(expr: Expr)

  /** One operator applied to two `i64` values: add, subtract and multiply wrap
      around; division truncates toward zero and is undefined for a zero
      divisor and for the one quotient that overflows. */
  function Apply(op: BinaryOp, a: I64, b: I64): Option<I64>
  {
    match op
    case Plus => Some(Wrap(a + b))
    case Minus => Some(Wrap(a - b))
    case Mul => Some(Wrap(a * b))
    case Div => if b == 0 || (a == I64_MIN && b == -1) then None else Some(Wrap(TruncDiv(a, b)))
  }

  /** The value of an expression, `None` when a division in it is undefined. */
  function Eval(e: Expr): Option<I64>
  {
    match e
    case Number(n) => Some(n)
    case Binary(l, op, r) =>
      match (Eval(l), Eval(r))
      case (Some(a), Some(b)) => Apply(op, a, b)
      case _ => None
  }
}
