/** The code generator: each expression becomes a stack-machine sequence of
    x86-64 instructions that leaves its value in `rax`, and a `return`
    statement becomes that sequence followed by the `exit` system call. */
module Codegen {
  import opened Int64
  import opened Asm
  import opened Machine
  import opened Ast

  /** What follows the operands of a binary operator: on entry `rax` holds
      the right operand and `rbx` the left one. */
  function OpTail(op: BinaryOp): (code: seq<Instr>)
    ensures |code| > 0
    ensures forall k :: 0 <= k < |code| ==> !code[k].Push? && !code[k].Pop? && !code[k].Syscall?
  {
    match op
    case Plus => [Add(Rax, Rbx)]
    case Minus => [MovReg(Rcx, Rax), MovReg(Rax, Rbx), Sub(Rax, Rcx)]
    case Mul => [Xchg(Rax, Rbx), Imul(Rax, Rbx)]
    case Div => [Xchg(Rax, Rbx), MovImm(Rdx, 0), UDiv(Rbx)]
  }

  /** The instructions `codegen_into` emits for an expression. */
  function Compile(e: Expr): (code: seq<Instr>)
    ensures |code| > 0 && code[0].MovImm? && code[0].dst == Rax
    ensures forall k :: 0 <= k < |code| ==> !code[k].Syscall?
  {
    match e
    case Number(n) => [MovImm(Rax, n)]
    case Binary(l, op, r) =>
      Compile(l) + ([Push(Rax)] + (Compile(r) + ([Pop(Rbx)] + OpTail(op))))
  }

  /** The instructions `Stmt::codegen` emits: the expression, then
      `exit(rax)`. */
  function CompileStmt(st: Stmt): (code: seq<Instr>)
    ensures |code| > 3 && code[|code| - 3..] == [MovReg(Rdi, Rax), MovImm(Rax, 60), Syscall]
    ensures forall k :: 0 <= k < |code| - 1 ==> !code[k].Syscall?
  {
    match st
    case Return(e) => Compile(e) + [MovReg(Rdi, Rax), MovImm(Rax, 60), Syscall]
  }

  /** The growing listing (`Vec<String>`) the generator pushes lines onto. */
  class Listing {
    var lines: seq<string>

    constructor ()
      ensures lines == []
    {
      lines := [];
    }

    method Push(line: string)
      modifies this
      ensures lines == old(lines) + [line]
    {
      lines := lines + [line];
    }
  }

  /** Appends the text of `Compile(e)` to `asm`, one line per instruction;
      `Render` gives each line the text the source writes out literally. */
  method CodegenInto(e: Expr, asm: Listing)
    modifies asm
    ensures asm.lines == old(asm.lines) + RenderAll(Compile(e))
    decreases e
  {
    match e
    case Number(n) =>
      asm.Push(Render(MovImm(Rax, n)));
      RenderOne(MovImm(Rax, n));
    case Binary(left, op, right) =>
      ghost var start := asm.lines;
      CodegenInto(left, asm);
      asm.Push(Render(Push(Rax)));
      CodegenInto(right, asm);
      asm.Push(Render(Pop(Rbx)));
      EmitOperator(op, asm);
      CompileLayout(left, op, right);
      Concat5(start, RenderAll(Compile(left)), [Render(Push(Rax))], RenderAll(Compile(right)),
        [Render(Pop(Rbx))], RenderAll(OpTail(op)));
  }

  lemma Concat5<T>(s: seq<T>, a: seq<T>, b: seq<T>, c: seq<T>, d: seq<T>, e: seq<T>)
    ensures s + a + b + c + d + e == s + (a + (b + (c + (d + e))))
  {
  }

  /** The instructions after the operands, for each operator. */
  method EmitOperator(op: BinaryOp, asm: Listing)
    modifies asm
    ensures asm.lines == old(asm.lines) + RenderAll(OpTail(op))
  {
    match op {
      case Plus =>
        asm.Push(Render(Add(Rax, Rbx)));
      case Minus =>
        asm.Push(Render(MovReg(Rcx, Rax)));
        asm.Push(Render(MovReg(Rax, Rbx)));
        asm.Push(Render(Sub(Rax, Rcx)));
      case Mul =>
        asm.Push(Render(Xchg(Rax, Rbx)));
        asm.Push(Render(Imul(Rax, Rbx)));
      case Div =>
        asm.Push(Render(Xchg(Rax, Rbx)));
        asm.Push(Render(MovImm(Rdx, 0)));
        asm.Push(Render(UDiv(Rbx)));
    }
    OpTailText(op);
  }

  lemma RenderOne(i: Instr)
    ensures RenderAll([i]) == [Render(i)]
  {
    assert [i][1..] == [];
  }

  lemma RenderTwo(a: Instr, b: Instr)
    ensures RenderAll([a, b]) == [Render(a), Render(b)]
  {
    assert [a, b][1..] == [b];
    RenderOne(b);
  }

  lemma RenderThree(a: Instr, b: Instr, c: Instr)
    ensures RenderAll([a, b, c]) == [Render(a), Render(b), Render(c)]
  {
    assert [a, b, c][1..] == [b, c];
    RenderTwo(b, c);
  }

  lemma OpTailText(op: BinaryOp)
    ensures RenderAll(OpTail(op)) == match op
      case Plus => [Render(Add(Rax, Rbx))]
      case Minus => [Render(MovReg(Rcx, Rax)), Render(MovReg(Rax, Rbx)), Render(Sub(Rax, Rcx))]
      case Mul => [Render(Xchg(Rax, Rbx)), Render(Imul(Rax, Rbx))]
      case Div => [Render(Xchg(Rax, Rbx)), Render(MovImm(Rdx, 0)), Render(UDiv(Rbx))]
  {
    match op
    case Plus => RenderOne(Add(Rax, Rbx));
    case Minus => RenderThree(MovReg(Rcx, Rax), MovReg(Rax, Rbx), Sub(Rax, Rcx));
    case Mul => RenderTwo(Xchg(Rax, Rbx), Imul(Rax, Rbx));
    case Div => RenderThree(Xchg(Rax, Rbx), MovImm(Rdx, 0), UDiv(Rbx));
  }

  /** The text of a binary node, piece by piece. */
  lemma CompileLayout(l: Expr, op: BinaryOp, r: Expr)
    ensures RenderAll(Compile(Binary(l, op, r)))
      == RenderAll(Compile(l)) + ([Render(Push(Rax))] + (RenderAll(Compile(r))
         + ([Render(Pop(Rbx))] + RenderAll(OpTail(op)))))
  {
    var tail := [Pop(Rbx)] + OpTail(op);
    var right := Compile(r) + tail;
    RenderAllAppend(Compile(l), [Push(Rax)] + right);
    RenderAllAppend([Push(Rax)], right);
    RenderAllAppend(Compile(r), tail);
    RenderAllAppend([Pop(Rbx)], OpTail(op));
    RenderOne(Push(Rax));
    RenderOne(Pop(Rbx));
  }

  lemma ExitText(e: Expr)
    ensures RenderAll(CompileStmt(Return(e)))
      == RenderAll(Compile(e)) + [Render(MovReg(Rdi, Rax)), Render(MovImm(Rax, 60)), Render(Syscall)]
  {
    RenderAllAppend(Compile(e), [MovReg(Rdi, Rax), MovImm(Rax, 60), Syscall]);
    RenderThree(MovReg(Rdi, Rax), MovImm(Rax, 60), Syscall);
  }

  /** Every listing the generator produces has at least one instruction. */
  lemma CompileNonEmpty(e: Expr)
    ensures |Compile(e)| > 0
  {
  }

  /** No rendered line holds a newline. */
  lemma RenderAllOneLineEach(code: seq<Instr>)
    ensures forall k :: 0 <= k < |code| ==> NoNewline(RenderAll(code)[k])
  {
    forall k | 0 <= k < |code|
      ensures NoNewline(RenderAll(code)[k])
    {
      RenderIsOneLine(code[k]);
    }
  }

  /** The joined text of a non-empty listing splits back into its lines. */
  lemma ListingLines(code: seq<Instr>)
    requires |code| > 0
    ensures Split(Join(RenderAll(code))) == RenderAll(code)
  {
    RenderAllOneLineEach(code);
    SplitJoin(RenderAll(code));
  }

  /** `Expr::codegen`: the listing of `e`, joined with newlines; splitting it
      at its newlines gives back one line per instruction. */
  method Codegen(e: Expr) returns (s: string)
    ensures s == Join(RenderAll(Compile(e)))
    ensures Split(s) == RenderAll(Compile(e))
  {
    var asm := new Listing();
    CodegenInto(e, asm);
    assert asm.lines == RenderAll(Compile(e));
    s := Join(asm.lines);
    CompileNonEmpty(e);
    ListingLines(Compile(e));
  }

  /** `Stmt::codegen`: the expression's listing followed by the exit call. */
  method StmtCodegen(st: Stmt) returns (s: string)
    ensures s == Join(RenderAll(CompileStmt(st)))
    ensures Split(s) == RenderAll(CompileStmt(st))
  {
    var asm := new Listing();
    match st {
      case Return(e) =>
        CodegenInto(e, asm);
        ghost var body := asm.lines;
        assert body == RenderAll(Compile(e));
        asm.Push(Render(MovReg(Rdi, Rax)));
        asm.Push(Render(MovImm(Rax, 60)));
        asm.Push(Render(Syscall));
        assert asm.lines == body + [Render(MovReg(Rdi, Rax)), Render(MovImm(Rax, 60)), Render(Syscall)];
        ExitText(e);
        assert asm.lines == RenderAll(CompileStmt(st));
    }
    s := Join(asm.lines);
    ListingLines(CompileStmt(st));
  }
}
