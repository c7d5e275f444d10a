/** The x86-64 instructions the code generator emits, their text, and the
    newline joining of a listing. */
module Asm {
  import opened Int64

  datatype Reg = Rax | Rbx | Rcx | Rdx | Rdi

  datatype Instr =
    | MovImm(dst: Reg, imm: I64)      // mov dst, imm
    | MovReg(dst: Reg, src: Reg)      // mov dst, src
    | Push(src: Reg)                  // push src
    | Pop(dst: Reg)                   // pop dst
    | Add(dst: Reg, src: Reg)         // add dst, src
    | Sub(dst: Reg, src: Reg)         // sub dst, src
    | Imul(dst: Reg, src: Reg)        // imul dst, src
    | Xchg(a: Reg, b: Reg)            // xchg a, b
    | UDiv(src: Reg)                  // div src (unsigned)
    | Syscall                         // syscall

  function RegName(r: Reg): string
  {
    match r
    case Rax => "rax"
    case Rbx => "rbx"
    case Rcx => "rcx"
    case Rdx => "rdx"
    case Rdi => "rdi"
  }

  /** One line of the listing: four spaces of indentation, the mnemonic,
      and the operands after a space, separated by a comma and a space. */
  function Line(mnemonic: string, operands: seq<string>): string
  {
    "    " + (mnemonic + (if operands == [] then "" else " " + CommaSeparated(operands)))
  }

  function CommaSeparated(items: seq<string>): string
    requires |items| > 0
  {
    if |items| == 1 then items[0] else items[0] + ", " + CommaSeparated(items[1..])
  }

  /** The text `format!` produces for each instruction. */
  function Render(i: Instr): string
  {
    match i
    case MovImm(d, n) => Line("mov", [RegName(d), IntToDecimal(n)])
    case MovReg(d, s) => Line("mov", [RegName(d), RegName(s)])
    case Push(s) => Line("push", [RegName(s)])
    case Pop(d) => Line("pop", [RegName(d)])
    case Add(d, s) => Line("add", [RegName(d), RegName(s)])
    case Sub(d, s) => Line("sub", [RegName(d), RegName(s)])
    case Imul(d, s) => Line("imul", [RegName(d), RegName(s)])
    case Xchg(a, b) => Line("xchg", [RegName(a), RegName(b)])
    case UDiv(s) => Line("div", [RegName(s)])
    case Syscall => Line("syscall", [])
  }

  /** `f` applied to each element of `xs`, in order. */
  function Map<A, B>(f: A -> B, xs: seq<A>): (ys: seq<B>)
    ensures |ys| == |xs|
    ensures forall k :: 0 <= k < |xs| ==> ys[k] == f(xs[k])
  {
    seq(|xs|, k requires 0 <= k < |xs| => f(xs[k]))
  }

  lemma MapAppend<A, B>(f: A -> B, a: seq<A>, b: seq<A>)
    ensures Map(f, a + b) == Map(f, a) + Map(f, b)
  {
    var lhs, rhs := Map(f, a + b), Map(f, a) + Map(f, b);
    forall k | 0 <= k < |lhs|
      ensures lhs[k] == rhs[k]
    {
      if k < |a| {
        assert (a + b)[k] == a[k];
      } else {
        assert (a + b)[k] == b[k - |a|];
      }
    }
  }

  /** One rendered line per instruction, in order. */
  function RenderAll(code: seq<Instr>): (lines: seq<string>)
    ensures |lines| == |code|
    ensures forall k :: 0 <= k < |code| ==> lines[k] == Render(code[k])
  {
    Map(Render, code)
  }

  lemma RenderAllAppend(a: seq<Instr>, b: seq<Instr>)
    ensures RenderAll(a + b) == RenderAll(a) + RenderAll(b)
  {
    MapAppend(Render, a, b);
  }

  /** `lines.join("\n")`: the lines with a newline between neighbours. */
  function Join(lines: seq<string>): (s: string)
    ensures |lines| > 0 ==> |lines[0]| <= |s| && s[..|lines[0]|] == lines[0]
    ensures |lines| > 1 ==> |lines[0]| < |s| && s[|lines[0]|] == '\n'
  {
    if |lines| == 0 then ""
    else if |lines| == 1 then lines[0]
    else lines[0] + "\n" + Join(lines[1..])
  }

  /** The pieces of `s` between newlines (`str::split('\n')`). */
  function Split(s: string): (parts: seq<string>)
    ensures |parts| > 0
  {
    if |s| == 0 then [""]
    else
      var rest := Split(s[1..]);
      if s[0] == '\n' then [""] + rest else [[s[0]] + rest[0]] + rest[1..]
  }

  predicate NoNewline(line: string) { forall k :: 0 <= k < |line| ==> line[k] != '\n' }

  lemma NoNewlineAppend(a: string, b: string)
    requires NoNewline(a) && NoNewline(b)
    ensures NoNewline(a + b)
  {
  }

  lemma {:induction false} CommaSeparatedNoNewline(items: seq<string>)
    requires |items| > 0 && forall k :: 0 <= k < |items| ==> NoNewline(items[k])
    ensures NoNewline(CommaSeparated(items))
  {
    if |items| > 1 {
      CommaSeparatedNoNewline(items[1..]);
      NoNewlineAppend(items[0], ", ");
      NoNewlineAppend(items[0] + ", ", CommaSeparated(items[1..]));
    }
  }

  /** A line with a non-empty mnemonic starts with its indentation and holds
      no newline. */
  lemma LineShape(mnemonic: string, operands: seq<string>)
    requires |mnemonic| > 0 && NoNewline(mnemonic)
    requires forall k :: 0 <= k < |operands| ==> NoNewline(operands[k])
    ensures var line := Line(mnemonic, operands);
      |line| > 4 && line[..4] == "    " && NoNewline(line)
  {
    var rest := if operands == [] then "" else " " + CommaSeparated(operands);
    if operands != [] {
      CommaSeparatedNoNewline(operands);
      NoNewlineAppend(" ", CommaSeparated(operands));
    }
    NoNewlineAppend(mnemonic, rest);
    NoNewlineAppend("    ", mnemonic + rest);
  }

  lemma IntToDecimalNoNewline(n: int)
    ensures NoNewline(IntToDecimal(n))
  {
  }

  /** Every rendered instruction is one indented line. */
  lemma RenderIsOneLine(i: Instr)
    ensures |Render(i)| > 4 && Render(i)[..4] == "    "
    ensures NoNewline(Render(i))
  {
    match i
    case MovImm(d, n) => IntToDecimalNoNewline(n); LineShape("mov", [RegName(d), IntToDecimal(n)]);
    case MovReg(d, r) => LineShape("mov", [RegName(d), RegName(r)]);
    case Push(r) => LineShape("push", [RegName(r)]);
    case Pop(r) => LineShape("pop", [RegName(r)]);
    case Add(d, r) => LineShape("add", [RegName(d), RegName(r)]);
    case Sub(d, r) => LineShape("sub", [RegName(d), RegName(r)]);
    case Imul(d, r) => LineShape("imul", [RegName(d), RegName(r)]);
    case Xchg(a, b) => LineShape("xchg", [RegName(a), RegName(b)]);
    case UDiv(r) => LineShape("div", [RegName(r)]);
    case Syscall => LineShape("syscall", []);
  }

  lemma {:induction false} SplitLine(a: string, b: string)
    requires NoNewline(a)
    ensures Split(a + b) == [a + Split(b)[0]] + Split(b)[1..]
  {
    if a == [] {
      assert a + b == b;
      assert Split(b) == [Split(b)[0]] + Split(b)[1..];
      assert a + Split(b)[0] == Split(b)[0];
    } else {
      assert (a + b)[1..] == a[1..] + b;
      SplitLine(a[1..], b);
      var rest := Split(a[1..] + b);
      assert rest[1..] == Split(b)[1..];
      assert [a[0]] + (a[1..] + Split(b)[0]) == a + Split(b)[0];
    }
  }

  /** Splitting a joined listing at its newlines gives back its lines when no
      line holds a newline itself: the text has one line per entry. */
  lemma {:induction false} SplitJoin(lines: seq<string>)
    requires |lines| > 0
    requires forall k :: 0 <= k < |lines| ==> NoNewline(lines[k])
    ensures Split(Join(lines)) == lines
  {
    if |lines| == 1 {
      SplitLine(lines[0], "");
      assert lines[0] + "" == lines[0];
    } else {
      SplitJoin(lines[1..]);
      var tail := "\n" + Join(lines[1..]);
      assert Join(lines) == lines[0] + tail;
      assert tail[1..] == Join(lines[1..]);
      assert Split(tail) == [""] + lines[1..];
      SplitLine(lines[0], tail);
      assert lines[0] + "" == lines[0];
      assert lines == [lines[0]] + lines[1..];
    }
  }

  /** The rendering agrees with the text `format!` builds for an immediate
      load. */
  lemma MovImmText(r: Reg, n: I64)
    ensures Render(MovImm(r, n)) == "    mov " + RegName(r) + ", " + IntToDecimal(n)
  {
    var d := IntToDecimal(n);
    var operands := [RegName(r), d];
    assert operands[1..] == [d];
    assert CommaSeparated(operands) == RegName(r) + ", " + d;
    assert Render(MovImm(r, n)) == "    " + ("mov" + (" " + (RegName(r) + ", " + d)));
    assert "    " + ("mov" + (" " + (RegName(r) + ", " + d))) == "    mov " + RegName(r) + ", " + d;
  }

  /** The constant loads the generator emits. */
  lemma ConstantLoadText()
    ensures Render(MovImm(Rdx, 0)) == "    mov rdx, 0"
    ensures Render(MovImm(Rax, 60)) == "    mov rax, 60"
  {
    MovImmText(Rdx, 0);
    assert IntToDecimal(0) == "0";
    MovImmText(Rax, 60);
    assert IntToDecimal(60) == "60";
  }

  lemma OneOperandText(mnemonic: string, a: string)
    ensures Line(mnemonic, [a]) == "    " + mnemonic + " " + a
  {
  }

  lemma TwoOperandText(mnemonic: string, a: string, b: string)
    ensures Line(mnemonic, [a, b]) == "    " + mnemonic + " " + a + ", " + b
  {
    assert [a, b][1..] == [b];
    assert CommaSeparated([a, b]) == a + ", " + b;
    assert "    " + (mnemonic + (" " + (a + ", " + b))) == "    " + mnemonic + " " + a + ", " + b;
  }

  /** The stack instructions around the operands of a binary node. */
  lemma StackText()
    ensures Render(Push(Rax)) == "    push rax" && Render(Pop(Rbx)) == "    pop rbx"
  {
    OneOperandText("push", "rax");
    OneOperandText("pop", "rbx");
  }

  /** The instruction of addition. */
  lemma AddText()
    ensures Render(Add(Rax, Rbx)) == "    add rax, rbx"
  {
    TwoOperandText("add", "rax", "rbx");
  }

  /** The two moves that put the left operand in `rax` and the right one in
      `rcx` before a subtraction. */
  lemma OperandMoveText()
    ensures Render(MovReg(Rcx, Rax)) == "    mov rcx, rax"
    ensures Render(MovReg(Rax, Rbx)) == "    mov rax, rbx"
  {
    TwoOperandText("mov", "rcx", "rax");
    TwoOperandText("mov", "rax", "rbx");
  }

  /** The instructions of subtraction. */
  lemma SubText()
    ensures Render(MovReg(Rcx, Rax)) == "    mov rcx, rax"
    ensures Render(MovReg(Rax, Rbx)) == "    mov rax, rbx"
    ensures Render(Sub(Rax, Rcx)) == "    sub rax, rcx"
  {
    OperandMoveText();
    TwoOperandText("sub", "rax", "rcx");
  }

  /** The instructions of multiplication. */
  lemma MulText()
    ensures Render(Xchg(Rax, Rbx)) == "    xchg rax, rbx"
    ensures Render(Imul(Rax, Rbx)) == "    imul rax, rbx"
  {
    TwoOperandText("xchg", "rax", "rbx");
    TwoOperandText("imul", "rax", "rbx");
  }

  /** The instructions of division. */
  lemma DivText()
    ensures Render(Xchg(Rax, Rbx)) == "    xchg rax, rbx"
    ensures Render(MovImm(Rdx, 0)) == "    mov rdx, 0"
    ensures Render(UDiv(Rbx)) == "    div rbx"
  {
    MulText();
    ConstantLoadText();
    OneOperandText("div", "rbx");
  }

  /** The `exit` call that ends a `return` statement. */
  lemma ExitCallText()
    ensures Render(MovReg(Rdi, Rax)) == "    mov rdi, rax"
    ensures Render(MovImm(Rax, 60)) == "    mov rax, 60"
    ensures Render(Syscall) == "    syscall"
  {
    TwoOperandText("mov", "rdi", "rax");
    ConstantLoadText();
  }
}
