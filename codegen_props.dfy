/** What the generated code computes: run on the machine, the instructions
    for an expression leave its value in `rax` and the stack as they found
    it, and a `return` statement exits with the value as its status. */
module CodegenProperties {
  import opened Wrappers
  import opened Int64
  import opened Asm
  import opened Machine
  import opened Ast
  import opened Codegen

  /** The divisions whose unsigned `div` agrees with signed division: both
      operands are defined, the dividend is not negative and the divisor is
      positive. */
  predicate UnsignedDivisions(e: Expr)
  {
    match e
    case Number(_) => true
    case Binary(l, op, r) =>
      UnsignedDivisions(l) && UnsignedDivisions(r)
      && (op == Div ==> Eval(l).Some? && Eval(r).Some? && Eval(l).value >= 0 && Eval(r).value > 0)
  }

  /** The machine after an operator's instructions, in terms of the state
      before them: `rax` holds the right operand and `rbx` the left one. */
  predicate TailComputes(op: BinaryOp, s: State, o: Outcome)
    requires Apply(op, s.rbx, s.rax).Some?
  {
    o.Running? && o.state.rax == Apply(op, s.rbx, s.rax).value
    && o.state.stack == s.stack && o.state.rdi == s.rdi
  }

  lemma RunSingle(i: Instr, s: State)
    ensures Run([i], s) == Then(Step(s, i), [])
  {
    assert [i][1..] == [];
  }

  lemma RunCons(i: Instr, rest: seq<Instr>, s: State)
    ensures Run([i] + rest, s) == Then(Step(s, i), rest)
  {
    assert ([i] + rest)[0] == i;
    assert ([i] + rest)[1..] == rest;
  }

  lemma AddTailCorrect(s: State)
    ensures TailComputes(Plus, s, Run(OpTail(Plus), s))
  {
    RunSingle(Add(Rax, Rbx), s);
  }

  lemma SubTailCorrect(s: State)
    ensures TailComputes(Minus, s, Run(OpTail(Minus), s))
  {
    var s1 := Set(s, Rcx, s.rax);
    var s2 := Set(s1, Rax, s.rbx);
    RunCons(MovReg(Rcx, Rax), [MovReg(Rax, Rbx), Sub(Rax, Rcx)], s);
    RunCons(MovReg(Rax, Rbx), [Sub(Rax, Rcx)], s1);
    RunSingle(Sub(Rax, Rcx), s2);
  }

  lemma MulTailCorrect(s: State)
    ensures TailComputes(Mul, s, Run(OpTail(Mul), s))
  {
    var s1 := Set(Set(s, Rax, s.rbx), Rbx, s.rax);
    RunCons(Xchg(Rax, Rbx), [Imul(Rax, Rbx)], s);
    RunSingle(Imul(Rax, Rbx), s1);
    assert s1.rax * s1.rbx == s.rbx * s.rax;
  }

  /** `div rbx` with `rdx` cleared and a positive divisor divides the bit
      pattern of `rax` as an unsigned number; it cannot fault. */
  lemma DivideLow(s: State)
    requires s.rdx == 0 && s.rbx > 0
    ensures Step(s, UDiv(Rbx)) == Running(s.(rax := Wrap(Unsigned(s.rax) / s.rbx),
                                             rdx := Wrap(Unsigned(s.rax) % s.rbx)))
  {
    assert Unsigned(s.rdx) * TWO_64 + Unsigned(s.rax) == Unsigned(s.rax);
    QuotientBound(Unsigned(s.rax), s.rbx);
  }

  /** The division instructions divide the bit pattern of the left operand,
      read as an unsigned number, by a positive right operand. */
  lemma DivTailRuns(s: State)
    requires s.rax > 0
    ensures var o := Run(OpTail(Div), s);
      o.Running? && o.state.rax == Wrap(Unsigned(s.rbx) / s.rax)
      && o.state.stack == s.stack && o.state.rdi == s.rdi
  {
    var s1 := Set(Set(s, Rax, s.rbx), Rbx, s.rax);
    var s2 := Set(s1, Rdx, 0);
    RunCons(Xchg(Rax, Rbx), [MovImm(Rdx, 0), UDiv(Rbx)], s);
    RunCons(MovImm(Rdx, 0), [UDiv(Rbx)], s1);
    RunSingle(UDiv(Rbx), s2);
    DivideLow(s2);
  }

  lemma DivTailCorrect(s: State)
    requires s.rbx >= 0 && s.rax > 0
    ensures Apply(Div, s.rbx, s.rax).Some?
    ensures TailComputes(Div, s, Run(OpTail(Div), s))
  {
    DivTailRuns(s);
    QuotientBound(s.rbx, s.rax);
  }

  lemma MulMonotone(q: nat, b: int)
    requires b >= 1
    ensures q <= q * b
  {
    var c := b - 1;
    assert q * b == q * c + q;
  }

  /** A quotient of a non-negative number by a positive one is no larger
      than the dividend. */
  lemma QuotientBound(a: nat, b: int)
    requires b > 0
    ensures 0 <= a / b <= a
  {
    var q, r := a / b, a % b;
    assert a == q * b + r && 0 <= r;
    MulMonotone(q, b);
  }

  /** With `rax` holding the right operand and `rbx` the left one, an
      operator's instructions leave `Apply(op, left, right)` in `rax`. */
  lemma TailCorrect(op: BinaryOp, s: State)
    requires Apply(op, s.rbx, s.rax).Some?
    requires op == Div ==> s.rbx >= 0 && s.rax > 0
    ensures TailComputes(op, s, Run(OpTail(op), s))
  {
    match op
    case Plus => AddTailCorrect(s);
    case Minus => SubTailCorrect(s);
    case Mul => MulTailCorrect(s);
    case Div => DivTailCorrect(s);
  }

  /** The code for an expression whose value is defined, and whose divisions
      have a non-negative dividend and a positive divisor, leaves that value
      in `rax` and the stack and `rdi` as they were. */
  lemma {:induction false} CompileCorrect(e: Expr, s: State)
    requires Eval(e).Some? && UnsignedDivisions(e)
    ensures var o := Run(Compile(e), s);
      o.Running? && o.state.rax == Eval(e).value
      && o.state.stack == s.stack && o.state.rdi == s.rdi
  {
    match e
    case Number(n) =>
      RunSingle(MovImm(Rax, n), s);
    case Binary(l, op, r) =>
      var operands := [Push(Rax)] + Compile(r) + [Pop(Rbx)];
      assert Compile(e) == Compile(l) + (operands + OpTail(op));
      CompileCorrect(l, s);
      var s1 := Run(Compile(l), s).state;
      RunAppend(Compile(l), operands + OpTail(op), s);
      RunAppend(operands, OpTail(op), s1);
      CompileCorrect(r, s1.(stack := [s1.rax] + s1.stack));
      PushThenPop(Rax, Compile(r), Rbx, s1);
      var s3 := Run(Compile(r), s1.(stack := [s1.rax] + s1.stack)).state;
      var s4 := Set(s3.(stack := s1.stack), Rbx, s1.rax);
      assert s4.rbx == Eval(l).value && s4.rax == Eval(r).value;
      TailCorrect(op, s4);
  }

  /** Whatever code ran before, the three instructions that end a `return`
      statement exit with the value it left in `rax`. */
  lemma ExitAfter(code: seq<Instr>, s: State)
    requires Run(code, s).Running?
    ensures Run(code + [MovReg(Rdi, Rax), MovImm(Rax, 60), Syscall], s)
      == Exited(Run(code, s).state.rax)
  {
    var s1 := Run(code, s).state;
    RunAppend(code, [MovReg(Rdi, Rax), MovImm(Rax, 60), Syscall], s);
    var s2 := Set(s1, Rdi, s1.rax);
    var s3 := Set(s2, Rax, 60);
    RunCons(MovReg(Rdi, Rax), [MovImm(Rax, 60), Syscall], s1);
    RunCons(MovImm(Rax, 60), [Syscall], s2);
    RunSingle(Syscall, s3);
  }

  /** A `return` statement's code exits with the value of its expression. */
  lemma ReturnExits(e: Expr, s: State)
    requires Eval(e).Some? && UnsignedDivisions(e)
    ensures Run(CompileStmt(Return(e)), s) == Exited(Eval(e).value)
  {
    CompileCorrect(e, s);
    ExitAfter(Compile(e), s);
  }

  /** The code for `(0 - 7) / 2` leaves 2^63 - 4 in `rax`: `div` reads -7
      as 2^64 - 7. */
  lemma QuotientExample(s: State)
    ensures var e := Binary(Binary(Number(0), Minus, Number(7)), Div, Number(2));
      Run(Compile(e), s).Running? && Run(Compile(e), s).state.rax == 9223372036854775804
  {
    var l := Binary(Number(0), Minus, Number(7));
    var tail := [Pop(Rbx)] + OpTail(Div);
    var afterLeft := [Push(Rax)] + (Compile(Number(2)) + tail);
    assert Eval(l) == Some(-7);
    CompileCorrect(l, s);
    var s1 := Run(Compile(l), s).state;
    RunAppend(Compile(l), afterLeft, s);
    assert Compile(Number(2)) == [MovImm(Rax, 2)];
    var pushed := s1.(stack := [-7] + s.stack);
    RunCons(Push(Rax), [MovImm(Rax, 2)] + tail, s1);
    assert Step(s1, Push(Rax)) == Running(pushed);
    RunCons(MovImm(Rax, 2), tail, pushed);
    var loaded := Set(pushed, Rax, 2);
    RunCons(Pop(Rbx), OpTail(Div), loaded);
    assert loaded.stack[1..] == s.stack;
    var s2 := Set(loaded.(stack := s.stack), Rbx, -7);
    assert Run(afterLeft, s1) == Run(OpTail(Div), s2);
    DivTailRuns(s2);
    assert Unsigned(-7) == TWO_64 - 7;
    assert Wrap((TWO_64 - 7) / 2) == 9223372036854775804;
  }

  /** Where the divisions condition fails the generated code is wrong:
      `return (0 - 7) / 2;` means -3, exit status 253, but the program exits
      with 2^63 - 4 in `rdi`, exit status 252. */
  lemma NegativeDividendExample(s: State)
    ensures var e := Binary(Binary(Number(0), Minus, Number(7)), Div, Number(2));
      Eval(e) == Some(-3) && Run(CompileStmt(Return(e)), s) == Exited(9223372036854775804)
    ensures ExitStatus(-3) == 253 && ExitStatus(9223372036854775804) == 252
  {
    var e := Binary(Binary(Number(0), Minus, Number(7)), Div, Number(2));
    assert TruncDiv(-7, 2) == -3;
    assert Eval(Binary(Number(0), Minus, Number(7))) == Some(-7);
    QuotientExample(s);
    ExitAfter(Compile(e), s);
  }
}
