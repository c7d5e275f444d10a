/** What the emitted instructions do on an x86-64 machine, reduced to the
    registers and the stack the code generator touches. */
module Machine {
  import opened Int64
  import opened Asm

  datatype State = State(rax: I64, rbx: I64, rcx: I64, rdx: I64, rdi: I64, stack: seq<I64>)

  /** `Exited` is the `exit` system call (number 60) with its status in
      `rdi`; `Fault` is any other way the program stops: a divide error, a
      `pop` from an empty stack, or a system call this model does not know. */
  datatype Outcome = Running(state: State) | Exited(status: I64) | Fault

  /** The status a parent process sees after `exit`: Linux keeps only the
      low 8 bits of `rdi`. */
  function ExitStatus(status: I64): (b: int)
    ensures 0 <= b < 256
    ensures (status - b) % 256 == 0
  {
    status % 256
  }

  function Get(s: State, r: Reg): I64
  {
    match r
    case Rax => s.rax
    case Rbx => s.rbx
    case Rcx => s.rcx
    case Rdx => s.rdx
    case Rdi => s.rdi
  }

  function Set(s: State, r: Reg, v: I64): (t: State)
    ensures Get(t, r) == v
    ensures forall q :: q != r ==> Get(t, q) == Get(s, q)
    ensures t.stack == s.stack
  {
    match r
    case Rax => s.(rax := v)
    case Rbx => s.(rbx := v)
    case Rcx => s.(rcx := v)
    case Rdx => s.(rdx := v)
    case Rdi => s.(rdi := v)
  }

  /** One instruction. Arithmetic keeps the low 64 bits; `div` divides the
      unsigned 128-bit `rdx:rax` by an unsigned 64-bit register and faults on
      a zero divisor or a quotient wider than 64 bits. The stack's top is its
      first element. */
  function Step(s: State, i: Instr): Outcome
  {
    match i
    case MovImm(d, n) => Running(Set(s, d, n))
    case MovReg(d, r) => Running(Set(s, d, Get(s, r)))
    case Push(r) => Running(s.(stack := [Get(s, r)] + s.stack))
    case Pop(d) =>
      if s.stack == [] then Fault
      else Running(Set(s.(stack := s.stack[1..]), d, s.stack[0]))
    case Add(d, r) => Running(Set(s, d, Wrap(Get(s, d) + Get(s, r))))
    case Sub(d, r) => Running(Set(s, d, Wrap(Get(s, d) - Get(s, r))))
    case Imul(d, r) => Running(Set(s, d, Wrap(Get(s, d) * Get(s, r))))
    case Xchg(a, b) => Running(Set(Set(s, a, Get(s, b)), b, Get(s, a)))
    case UDiv(r) =>
      var divisor := Unsigned(Get(s, r));
      var dividend := Unsigned(s.rdx) * TWO_64 + Unsigned(s.rax);
      if divisor == 0 || dividend / divisor >= TWO_64 then Fault
      else Running(s.(rax := Wrap(dividend / divisor), rdx := Wrap(dividend % divisor)))
    case Syscall => if s.rax == 60 then Exited(s.rdi) else Fault
  }

  /** Runs the instructions in order until the end, an exit or a fault. */
  function Run(code: seq<Instr>, s: State): Outcome
  {
    if code == [] then Running(s)
    else
      match Step(s, code[0])
      case Running(t) => Run(code[1..], t)
      case stopped => stopped
  }

  /** Runs `code` after an outcome, if the machine is still running. */
  function Then(o: Outcome, code: seq<Instr>): Outcome
  {
    match o
    case Running(t) => Run(code, t)
    case _ => o
  }

  /** Running two pieces of code one after the other is running their
      concatenation. */
  lemma {:induction false} RunAppend(a: seq<Instr>, b: seq<Instr>, s: State)
    ensures Run(a + b, s) == Then(Run(a, s), b)
  {
    if a == [] {
      assert a + b == b;
    } else {
      assert (a + b)[0] == a[0];
      assert (a + b)[1..] == a[1..] + b;
      match Step(s, a[0])
      case Running(t) => RunAppend(a[1..], b, t);
      case _ =>
    }
  }

  /** A `push` and a `pop` around code that leaves the stack as it found
      it: the stack is restored, and the popped register receives the pushed
      value, whatever the code in between did to the registers. */
  lemma PushThenPop(src: Reg, code: seq<Instr>, dst: Reg, s: State)
    requires var o := Run(code, s.(stack := [Get(s, src)] + s.stack));
      o.Running? && o.state.stack == [Get(s, src)] + s.stack
    ensures var o := Run(code, s.(stack := [Get(s, src)] + s.stack));
      Run([Push(src)] + code + [Pop(dst)], s) == Running(Set(o.state.(stack := s.stack), dst, Get(s, src)))
  {
    var t := s.(stack := [Get(s, src)] + s.stack);
    var u := Run(code, t).state;
    var all := [Push(src)] + code + [Pop(dst)];
    assert all[0] == Push(src) && all[1..] == code + [Pop(dst)];
    assert Step(s, Push(src)) == Running(t);
    RunAppend(code, [Pop(dst)], t);
    assert Run(all, s) == Run(code + [Pop(dst)], t);
    assert u.stack[1..] == s.stack;
    var v := Set(u.(stack := s.stack), dst, Get(s, src));
    assert Step(u, Pop(dst)) == Running(v);
    assert [Pop(dst)][1..] == [];
    assert Run([Pop(dst)], u) == Run([], v);
  }
}
