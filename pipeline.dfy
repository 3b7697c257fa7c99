/**
 * The compiler's output run by BankVM: the assembly lines of module
 * Assembly, as the loader of module VmLoad reads them, executed by the
 * machine of module VmSpec.
 *
 * The main facts: the code emit_expression writes leaves exactly one more
 * value on the VM stack, namely the value of the expression (or raises
 * what evaluating it raises), and every jump in a generated program names
 * a label the loader records.
 */
module Pipeline {
  import opened Wrappers
  import opened Ast
  import opened Assembly
  import opened CodegenSpec
  import opened CodegenLabels
  import V = VmSpec
  import L = VmLoad

  // ---------------------------------------------------------------------
  // Reading generated lines
  // ---------------------------------------------------------------------

  /**
   * What the pattern `"([^"]*)"` of _parse_instruction captures from the
   * quoted operand `"t"`: t up to its first double quote. No escape is
   * undone.
   */
  function AsRead(t: string): (r: string)
    ensures r <= t + "\"" && '"' !in r
    ensures |r| <= |t| && (t + "\"")[|r|] == '"'
  {
    var rest := t + "\"";
    assert rest[|t|] == '"';
    rest[..L.IndexOf(rest, '"')]
  }

  /**
   * The token the loader makes of an operand: a word goes through float()
   * (a name such as `inf` becomes a number), a number written with %.17g
   * reads back as the same value, and a quoted text is read as the
   * pattern of _parse_instruction reads it.
   */
  function ReadOperand(o: Operand, toNumber: string -> Option<real>): V.Token
  {
    match o
    case Word(w) => L.ConvertOperand(w, toNumber)
    case Num(x) => V.Number(x)
    case Quoted(t) => V.Text(AsRead(t))
  }

  function ReadOperands(os: seq<Operand>, toNumber: string -> Option<real>): (r: seq<V.Token>)
    ensures |r| == |os|
    ensures forall i :: 0 <= i < |os| ==> r[i] == ReadOperand(os[i], toNumber)
  {
    if os == [] then [] else [ReadOperand(os[0], toNumber)] + ReadOperands(os[1..], toNumber)
  }

  /** What load_program makes of one line emit_line wrote. */
  function Lower(l: AsmLine, toNumber: string -> Option<real>): L.Entry
  {
    match l
    case Comment(_) => L.Skip
    case Instr(opcode, operands) =>
      if opcode == "LABEL" && |operands| > 0 && operands[0].Word? then L.LabelEntry(operands[0].word)
      else L.InstrEntry(V.Instruction(V.Decode(opcode), ReadOperands(operands, toNumber)))
  }

  function Lowered(lines: seq<AsmLine>, toNumber: string -> Option<real>): (r: seq<L.Entry>)
    ensures |r| == |lines|
    decreases |lines|, 0
  {
    if lines == [] then [] else LoweredFrom(lines[0], lines[1..], toNumber)
  }

  /** One line, then the rest. */
  function LoweredFrom(l: AsmLine, rest: seq<AsmLine>, toNumber: string -> Option<real>): (r: seq<L.Entry>)
    ensures |r| == |rest| + 1
    decreases |rest|, 1
  {
    [Lower(l, toNumber)] + Lowered(rest, toNumber)
  }

  lemma {:induction false} LoweredAt(lines: seq<AsmLine>, i: nat, toNumber: string -> Option<real>)
    requires i < |lines|
    ensures Lowered(lines, toNumber)[i] == Lower(lines[i], toNumber)
  {
    if i > 0 {
      LoweredAt(lines[1..], i - 1, toNumber);
    }
  }

  lemma {:induction false} LoweredAppend(a: seq<AsmLine>, b: seq<AsmLine>, toNumber: string -> Option<real>)
    ensures Lowered(a + b, toNumber) == Lowered(a, toNumber) + Lowered(b, toNumber)
  {
    if a == [] {
      assert a + b == b;
    } else {
      assert (a + b)[0] == a[0] && (a + b)[1..] == a[1..] + b;
      LoweredAppend(a[1..], b, toNumber);
    }
  }

  /** The instructions the loader appends for the lines. */
  function Code(lines: seq<AsmLine>, toNumber: string -> Option<real>): seq<V.Instruction>
  {
    L.InstrsOf(Lowered(lines, toNumber))
  }

  lemma {:induction false} InstrsOfAppend(a: seq<L.Entry>, b: seq<L.Entry>)
    ensures L.InstrsOf(a + b) == L.InstrsOf(a) + L.InstrsOf(b)
    decreases |b|
  {
    if b == [] {
      assert a + b == a;
    } else {
      var init := b[..|b| - 1];
      assert (a + b)[..|a + b| - 1] == a + init;
      assert (a + b)[|a + b| - 1] == b[|b| - 1];
      InstrsOfAppend(a, init);
    }
  }

  lemma CodeAppend(a: seq<AsmLine>, b: seq<AsmLine>, toNumber: string -> Option<real>)
    ensures Code(a + b, toNumber) == Code(a, toNumber) + Code(b, toNumber)
  {
    LoweredAppend(a, b, toNumber);
    InstrsOfAppend(Lowered(a, toNumber), Lowered(b, toNumber));
  }

  lemma CodeSingle(l: AsmLine, toNumber: string -> Option<real>)
    requires l.Instr? && l.opcode != "LABEL"
    ensures Code([l], toNumber) == [V.Instruction(V.Decode(l.opcode), ReadOperands(l.operands, toNumber))]
  {
    var entries := Lowered([l], toNumber);
    assert [l][1..] == [];
    assert entries == LoweredFrom(l, [], toNumber);
    assert entries == [Lower(l, toNumber)];
    assert Lower(l, toNumber) == L.InstrEntry(V.Instruction(V.Decode(l.opcode), ReadOperands(l.operands, toNumber)));
    assert entries[..0] == [] && L.InstrsOf([]) == [];
    assert L.InstrsOf(entries) == L.InstrsOf(entries[..0]) + [entries[0].ins];
  }

  // ---------------------------------------------------------------------
  // The opcodes of expression code
  // ---------------------------------------------------------------------

  /** The VM opcode of a binary operator. */
  function OpcodeOf(op: BinaryOp): (c: V.Opcode)
    ensures c.IsBinary()
  {
    match op
    case Add => V.Add
    case Sub => V.Sub
    case Mul => V.Mul
    case Div => V.Div
    case Mod => V.Mod
    case Eq => V.CmpEq
    case Neq => V.CmpNe
    case Lt => V.CmpLt
    case Gt => V.CmpGt
    case Le => V.CmpLe
    case Ge => V.CmpGe
  }

  function UnaryOpcodeOf(op: UnaryOp): V.Opcode
  {
    if op == Negate then V.Neg else V.Not
  }

  /** The VM decodes each operator's opcode text to that operator. */
  lemma DecodeBinaryOpcode(op: BinaryOp)
    ensures V.Decode(BinaryOpcode(op)) == OpcodeOf(op)
  {
    match op
    case Add =>
    case Sub =>
    case Mul =>
    case Div =>
    case Mod =>
    case Eq =>
    case Neq =>
    case Lt =>
    case Gt =>
    case Le =>
    case Ge =>
  }

  lemma DecodeUnaryOpcode(op: UnaryOp)
    ensures V.Decode(UnaryOpcode(op)) == UnaryOpcodeOf(op)
  {
  }

  lemma DecodeSensorOpcode(k: SensorKind)
    ensures V.Decode(SensorOpcode(k)) == if k == Tempo then V.SensorTempo else V.SensorJuros
  {
  }

  lemma DecodeLeafOpcodes()
    ensures V.Decode("PUSH_CONST") == V.PushConst && V.Decode("LOAD") == V.Load
  {
  }

  // ---------------------------------------------------------------------
  // Running straight-line code
  // ---------------------------------------------------------------------

  /**
   * run's loop over code without jumps: each instruction in turn, pc + 1
   * after each, stopping at the first one that raises.
   */
  function Exec(m: V.Machine, code: seq<V.Instruction>, labels: map<string, nat>, toNumber: string -> Option<real>, elapsed: real): V.Effect
    decreases |code|, 2
  {
    Resume(V.Done(m), code, labels, toNumber, elapsed)
  }

  /** The rest of the code after an effect: nothing more once it raised or the code is done. */
  function Resume(e: V.Effect, code: seq<V.Instruction>, labels: map<string, nat>, toNumber: string -> Option<real>, elapsed: real): V.Effect
    decreases |code|, 1
  {
    if e.error.Some? || code == [] then e else Then(e.machine, code[0], code[1..], labels, toNumber, elapsed)
  }

  /** One instruction (pc + 1 after it unless it raised), then the rest. */
  function Then(m: V.Machine, ins: V.Instruction, rest: seq<V.Instruction>, labels: map<string, nat>, toNumber: string -> Option<real>, elapsed: real): V.Effect
    decreases |rest| + 1, 0
  {
    var e := V.Execute(m, ins, labels, toNumber, elapsed);
    Resume(if e.error.Some? then e else V.Done(e.machine.(pc := e.machine.pc + 1)), rest, labels, toNumber, elapsed)
  }

  /** Exec on code with a first instruction: that instruction, then the rest. */
  lemma ExecCons(m: V.Machine, code: seq<V.Instruction>, labels: map<string, nat>, toNumber: string -> Option<real>, elapsed: real)
    requires code != []
    ensures Exec(m, code, labels, toNumber, elapsed)
      == var e := V.Execute(m, code[0], labels, toNumber, elapsed);
         if e.error.Some? then e else Exec(e.machine.(pc := e.machine.pc + 1), code[1..], labels, toNumber, elapsed)
  {
    assert Exec(m, code, labels, toNumber, elapsed) == Then(m, code[0], code[1..], labels, toNumber, elapsed);
  }

  lemma {:induction false} ExecAppend(m: V.Machine, a: seq<V.Instruction>, b: seq<V.Instruction>, labels: map<string, nat>, toNumber: string -> Option<real>, elapsed: real)
    ensures Exec(m, a + b, labels, toNumber, elapsed)
      == var e := Exec(m, a, labels, toNumber, elapsed);
         if e.error.Some? then e else Exec(e.machine, b, labels, toNumber, elapsed)
    decreases |a|
  {
    if a == [] {
      assert a + b == b;
    } else {
      assert (a + b)[0] == a[0] && (a + b)[1..] == a[1..] + b;
      ExecCons(m, a + b, labels, toNumber, elapsed);
      ExecCons(m, a, labels, toNumber, elapsed);
      var e := V.Execute(m, a[0], labels, toNumber, elapsed);
      if e.error.None? {
        ExecAppend(e.machine.(pc := e.machine.pc + 1), a[1..], b, labels, toNumber, elapsed);
      }
    }
  }

  /** A single instruction: execute it, then pc + 1 unless it raised. */
  lemma ExecSingle(m: V.Machine, ins: V.Instruction, labels: map<string, nat>, toNumber: string -> Option<real>, elapsed: real)
    ensures Exec(m, [ins], labels, toNumber, elapsed)
      == var e := V.Execute(m, ins, labels, toNumber, elapsed);
         if e.error.Some? then e else V.Done(e.machine.(pc := e.machine.pc + 1))
  {
    assert [ins][0] == ins && [ins][1..] == [];
    ExecCons(m, [ins], labels, toNumber, elapsed);
    var e := V.Execute(m, ins, labels, toNumber, elapsed);
    if e.error.None? {
      assert Exec(e.machine.(pc := e.machine.pc + 1), [], labels, toNumber, elapsed) == V.Done(e.machine.(pc := e.machine.pc + 1));
    }
  }

  /** Code without jumps and without HALT: run's loop goes through it in order. */
  predicate Linear(code: seq<V.Instruction>)
  {
    forall i :: 0 <= i < |code| ==> !code[i].op.IsJump() && code[i].op != V.Halt
  }

  lemma LinearAppend(a: seq<V.Instruction>, b: seq<V.Instruction>)
    requires Linear(a) && Linear(b)
    ensures Linear(a + b)
  {
    forall i | 0 <= i < |a + b|
      ensures !(a + b)[i].op.IsJump() && (a + b)[i].op != V.Halt
    {
      if i >= |a| {
        assert (a + b)[i] == b[i - |a|];
      }
    }
  }

  /**
   * One turn of run's loop over the first instruction of straight-line
   * code is what Exec does with that instruction alone.
   */
  lemma LinearStep(m: V.Machine, program: seq<V.Instruction>, code: seq<V.Instruction>, labels: map<string, nat>, toNumber: string -> Option<real>, elapsed: real, fuel: nat)
    requires code != [] && 0 <= m.pc < |program| && program[m.pc] == code[0]
    requires !m.halted && !code[0].op.IsJump() && code[0].op != V.Halt
    ensures var s := Exec(m, [code[0]], labels, toNumber, elapsed);
      var run := V.RunFrom(m, program, labels, toNumber, elapsed, fuel + 1);
      && Exec(m, code, labels, toNumber, elapsed) == (if s.error.Some? then s else Exec(s.machine, code[1..], labels, toNumber, elapsed))
      && (s.error.Some? ==> run == V.Failed(s.machine, s.error.value))
      && (s.error.None? ==> s.machine.pc == m.pc + 1 && !s.machine.halted && run == V.RunFrom(s.machine, program, labels, toNumber, elapsed, fuel))
  {
    assert code == [code[0]] + code[1..];
    ExecAppend(m, [code[0]], code[1..], labels, toNumber, elapsed);
    ExecSingle(m, code[0], labels, toNumber, elapsed);
    assert V.RunFrom(m, program, labels, toNumber, elapsed, fuel + 1) == V.Advance(m, program, labels, toNumber, elapsed, fuel + 1);
    var e := V.Execute(m, code[0], labels, toNumber, elapsed);
    if e.error.None? {
      V.ExecuteStackEffect(m, code[0], labels, toNumber, elapsed);
    }
  }

  /** `code` sits in the program from index pc on. */
  predicate At(program: seq<V.Instruction>, pc: int, code: seq<V.Instruction>)
  {
    0 <= pc && pc + |code| <= |program| && forall i :: 0 <= i < |code| ==> program[pc + i] == code[i]
  }

  lemma AtRest(program: seq<V.Instruction>, pc: int, code: seq<V.Instruction>)
    requires code != [] && At(program, pc, code)
    ensures program[pc] == code[0] && At(program, pc + 1, code[1..])
  {
    assert program[pc + 0] == code[0];
    forall i | 0 <= i < |code[1..]|
      ensures program[pc + 1 + i] == code[1..][i]
    {
      assert program[pc + (i + 1)] == code[i + 1];
    }
  }

  lemma LinearRest(code: seq<V.Instruction>)
    requires code != [] && Linear(code)
    ensures !code[0].op.IsJump() && code[0].op != V.Halt && Linear(code[1..])
  {
    forall i | 0 <= i < |code[1..]|
      ensures !code[1..][i].op.IsJump() && code[1..][i].op != V.Halt
    {
      assert code[1..][i] == code[i + 1];
    }
  }

  /**
   * Where straight-line code sits in the program at pc, run's loop does
   * what Exec says: it stops with the error Exec raises, or reaches the
   * end of the code with pc just past it.
   */
  lemma {:induction false} RunLinear(m: V.Machine, program: seq<V.Instruction>, code: seq<V.Instruction>, labels: map<string, nat>, toNumber: string -> Option<real>, elapsed: real, fuel: nat)
    requires At(program, m.pc, code)
    requires !m.halted && Linear(code)
    ensures var e := Exec(m, code, labels, toNumber, elapsed);
      && (e.error.Some? ==> V.RunFrom(m, program, labels, toNumber, elapsed, fuel + |code|) == V.Failed(e.machine, e.error.value))
      && (e.error.None? ==>
           && e.machine.pc == m.pc + |code| && !e.machine.halted
           && V.RunFrom(m, program, labels, toNumber, elapsed, fuel + |code|) == V.RunFrom(e.machine, program, labels, toNumber, elapsed, fuel))
    decreases |code|, 2
  {
    if code == [] {
      assert Exec(m, code, labels, toNumber, elapsed) == V.Done(m);
    } else {
      RunLinearCons(m, program, code, labels, toNumber, elapsed, fuel);
    }
  }

  lemma {:induction false} RunLinearCons(m: V.Machine, program: seq<V.Instruction>, code: seq<V.Instruction>, labels: map<string, nat>, toNumber: string -> Option<real>, elapsed: real, fuel: nat)
    requires code != [] && At(program, m.pc, code)
    requires !m.halted && Linear(code)
    ensures var e := Exec(m, code, labels, toNumber, elapsed);
      && (e.error.Some? ==> V.RunFrom(m, program, labels, toNumber, elapsed, fuel + |code|) == V.Failed(e.machine, e.error.value))
      && (e.error.None? ==>
           && e.machine.pc == m.pc + |code| && !e.machine.halted
           && V.RunFrom(m, program, labels, toNumber, elapsed, fuel + |code|) == V.RunFrom(e.machine, program, labels, toNumber, elapsed, fuel))
    decreases |code|, 1
  {
    AtRest(program, m.pc, code);
    LinearRest(code);
    var n := fuel + |code[1..]|;
    assert fuel + |code| == n + 1;
    LinearStep(m, program, code, labels, toNumber, elapsed, n);
    var s := Exec(m, [code[0]], labels, toNumber, elapsed);
    if s.error.Some? {
      assert Exec(m, code, labels, toNumber, elapsed) == s;
    } else {
      RunLinearRest(m, s.machine, program, code, labels, toNumber, elapsed, fuel);
    }
  }

  /** The rest of RunLinearCons once the first instruction ran and left the machine at m1. */
  lemma RunLinearRest(m: V.Machine, m1: V.Machine, program: seq<V.Instruction>, code: seq<V.Instruction>, labels: map<string, nat>, toNumber: string -> Option<real>, elapsed: real, fuel: nat)
    requires code != [] && At(program, m1.pc, code[1..]) && Linear(code[1..])
    requires m.pc >= 0 && m1.pc == m.pc + 1 && !m1.halted
    requires Exec(m, code, labels, toNumber, elapsed) == Exec(m1, code[1..], labels, toNumber, elapsed)
    requires V.RunFrom(m, program, labels, toNumber, elapsed, fuel + |code|) == V.RunFrom(m1, program, labels, toNumber, elapsed, fuel + |code[1..]|)
    ensures var e := Exec(m, code, labels, toNumber, elapsed);
      && (e.error.Some? ==> V.RunFrom(m, program, labels, toNumber, elapsed, fuel + |code|) == V.Failed(e.machine, e.error.value))
      && (e.error.None? ==>
           && e.machine.pc == m.pc + |code| && !e.machine.halted
           && V.RunFrom(m, program, labels, toNumber, elapsed, fuel + |code|) == V.RunFrom(e.machine, program, labels, toNumber, elapsed, fuel))
    decreases |code[1..]|, 3
  {
    RunLinear(m1, program, code[1..], labels, toNumber, elapsed, fuel);
  }

  // ---------------------------------------------------------------------
  // Evaluating expressions
  // ---------------------------------------------------------------------

  /** A name's value: the key the loader makes of it, looked up in the accounts first. */
  function Lookup(n: string, accounts: map<V.Token, V.Token>, variables: map<V.Token, V.Token>, toNumber: string -> Option<real>): Result<V.Token, V.VmError>
  {
    var key := L.ConvertOperand(n, toNumber);
    if key in accounts then Ok(accounts[key])
    else if key in variables then Ok(variables[key])
    else Err(V.Undefined(key))
  }

  /** Python's `-v` and `1.0 if v == 0 else 0.0`. */
  function UnaryValue(op: UnaryOp, v: V.Token): Result<V.Token, V.VmError>
  {
    if op == Not then Ok(V.Bool(v == V.Zero))
    else if v.Number? then Ok(V.Number(-v.x))
    else Err(V.TypeMismatch(V.Neg))
  }

  /**
   * The value of an expression with the VM's accounts and variables, by
   * walking the tree with Python's operators; the left operand is
   * evaluated first and its error wins.
   */
  function Eval(e: Expr, accounts: map<V.Token, V.Token>, variables: map<V.Token, V.Token>, toNumber: string -> Option<real>, elapsed: real): Result<V.Token, V.VmError>
    decreases e, 1
  {
    match e
    case Number(x) => Ok(V.Number(x))
    case Identifier(n) => Lookup(n, accounts, variables, toNumber)
    case Sensor(k) => Ok(V.Number(if k == Tempo then elapsed else V.InterestRate))
    case Unary(op, a) => UnaryResult(op, Eval(a, accounts, variables, toNumber, elapsed))
    case Binary(op, l, r) => EvalBinary(op, l, r, accounts, variables, toNumber, elapsed)
  }

  /** The value of `l op r`. */
  function EvalBinary(op: BinaryOp, l: Expr, r: Expr, accounts: map<V.Token, V.Token>, variables: map<V.Token, V.Token>, toNumber: string -> Option<real>, elapsed: real): Result<V.Token, V.VmError>
    decreases Binary(op, l, r), 0
  {
    BinaryResult(OpcodeOf(op), Eval(l, accounts, variables, toNumber, elapsed), Eval(r, accounts, variables, toNumber, elapsed))
  }

  /** A unary operator applied to its operand's value, or the operand's error. */
  function UnaryResult(op: UnaryOp, a: Result<V.Token, V.VmError>): Result<V.Token, V.VmError>
  {
    match a
    case Err(err) => Err(err)
    case Ok(v) => UnaryValue(op, v)
  }

  /** A binary opcode applied to its operands' values; the left operand's error wins. */
  function BinaryResult(op: V.Opcode, a: Result<V.Token, V.VmError>, b: Result<V.Token, V.VmError>): Result<V.Token, V.VmError>
    requires op.IsBinary()
  {
    match a
    case Err(err) => Err(err)
    case Ok(x) =>
      match b
      case Err(err) => Err(err)
      case Ok(y) => V.Operate(op, x, y)
  }

  /** What running code for a value does: push it and move pc, or raise with the state `failed`. */
  function Pushes(m: V.Machine, value: Result<V.Token, V.VmError>, length: nat, failed: V.Machine): V.Effect
  {
    match value
    case Ok(v) => V.Done(m.(stack := m.stack + [v], pc := m.pc + length))
    case Err(err) => V.Raise(failed, err)
  }

  /** An instruction that raised left the dictionaries, output and halt flag alone and kept the stack below. */
  predicate Kept(m: V.Machine, r: V.Machine)
  {
    && r.accounts == m.accounts && r.variables == m.variables
    && r.output == m.output && r.halted == m.halted
    && m.stack <= r.stack
  }

  /** What a raise after pushing a value kept, the state before the push kept too. */
  lemma KeptPush(m: V.Machine, v: V.Token, pc: int, r: V.Machine)
    requires Kept(m.(stack := m.stack + [v], pc := pc), r)
    ensures Kept(m, r)
  {
    var s := m.stack + [v];
    assert forall i :: 0 <= i < |m.stack| ==> m.stack[i] == s[i] == r.stack[i];
  }

  // ---------------------------------------------------------------------
  // Expression code as the VM holds it
  // ---------------------------------------------------------------------

  function SensorOpcodeOf(k: SensorKind): V.Opcode
  {
    if k == Tempo then V.SensorTempo else V.SensorJuros
  }

  /** The instructions the loader makes of an expression's code. */
  function ExprInstrs(e: Expr, toNumber: string -> Option<real>): seq<V.Instruction>
  {
    match e
    case Number(x) => [V.Instruction(V.PushConst, [V.Number(x)])]
    case Identifier(n) => [V.Instruction(V.Load, [L.ConvertOperand(n, toNumber)])]
    case Sensor(k) => [V.Instruction(SensorOpcodeOf(k), [])]
    case Unary(op, a) => ExprInstrs(a, toNumber) + [V.Instruction(UnaryOpcodeOf(op), [])]
    case Binary(op, l, r) => ExprInstrs(l, toNumber) + ExprInstrs(r, toNumber) + [V.Instruction(OpcodeOf(op), [])]
  }

  lemma LeafLowers(e: Expr, toNumber: string -> Option<real>)
    requires e.Number? || e.Identifier? || e.Sensor?
    ensures Code(ExprCode(e), toNumber) == ExprInstrs(e, toNumber)
  {
    var line := ExprCode(e)[0];
    assert ExprCode(e) == [line];
    CodeSingle(line, toNumber);
    match e
    case Number(x) =>
      assert ReadOperands([Num(x)], toNumber) == [V.Number(x)];
      DecodeLeafOpcodes();
    case Identifier(n) =>
      assert ReadOperands([Word(n)], toNumber) == [L.ConvertOperand(n, toNumber)];
      DecodeLeafOpcodes();
    case Sensor(k) =>
      DecodeSensorOpcode(k);
  }

  lemma OperatorLowers(opcode: string, c: V.Opcode, toNumber: string -> Option<real>)
    requires V.Decode(opcode) == c && opcode != "LABEL"
    ensures Code([Nullary(opcode)], toNumber) == [V.Instruction(c, [])]
  {
    CodeSingle(Nullary(opcode), toNumber);
  }

  /**
   * The loader turns the lines emit_expression writes into one
   * instruction per line, with the opcodes of the operators.
   */
  lemma {:induction false} ExprCodeLowers(e: Expr, toNumber: string -> Option<real>)
    ensures Code(ExprCode(e), toNumber) == ExprInstrs(e, toNumber)
    ensures |ExprInstrs(e, toNumber)| == |ExprCode(e)|
    decreases e, 1
  {
    match e
    case Unary(op, a) => UnaryLowers(op, a, toNumber);
    case Binary(op, l, r) => BinaryLowers(op, l, r, toNumber);
    case _ => LeafLowers(e, toNumber);
  }

  lemma {:induction false} UnaryLowers(op: UnaryOp, a: Expr, toNumber: string -> Option<real>)
    ensures Code(ExprCode(Unary(op, a)), toNumber) == ExprInstrs(Unary(op, a), toNumber)
    ensures |ExprInstrs(Unary(op, a), toNumber)| == |ExprCode(Unary(op, a))|
    decreases Unary(op, a), 0
  {
    var line := Nullary(UnaryOpcode(op));
    assert Code([line], toNumber) == [V.Instruction(UnaryOpcodeOf(op), [])] by {
      DecodeUnaryOpcode(op);
      OperatorLowers(UnaryOpcode(op), UnaryOpcodeOf(op), toNumber);
    }
    assert Code(ExprCode(Unary(op, a)), toNumber) == Code(ExprCode(a), toNumber) + Code([line], toNumber) by {
      assert ExprCode(Unary(op, a)) == ExprCode(a) + [line];
      CodeAppend(ExprCode(a), [line], toNumber);
    }
    ExprCodeLowers(a, toNumber);
  }

  lemma {:induction false} BinaryLowers(op: BinaryOp, l: Expr, r: Expr, toNumber: string -> Option<real>)
    ensures Code(ExprCode(Binary(op, l, r)), toNumber) == ExprInstrs(Binary(op, l, r), toNumber)
    ensures |ExprInstrs(Binary(op, l, r), toNumber)| == |ExprCode(Binary(op, l, r))|
    decreases Binary(op, l, r), 0
  {
    var line := Nullary(BinaryOpcode(op));
    assert Code([line], toNumber) == [V.Instruction(OpcodeOf(op), [])] by {
      DecodeBinaryOpcode(op);
      OperatorLowers(BinaryOpcode(op), OpcodeOf(op), toNumber);
    }
    assert Code(ExprCode(Binary(op, l, r)), toNumber) == Code(ExprCode(l), toNumber) + Code(ExprCode(r), toNumber) + Code([line], toNumber) by {
      assert ExprCode(Binary(op, l, r)) == ExprCode(l) + ExprCode(r) + [line];
      CodeAppend(ExprCode(l), ExprCode(r), toNumber);
      CodeAppend(ExprCode(l) + ExprCode(r), [line], toNumber);
    }
    ExprCodeLowers(l, toNumber);
    ExprCodeLowers(r, toNumber);
  }

  /** Expression code holds no jump and no HALT. */
  lemma {:induction false} ExprInstrsLinear(e: Expr, toNumber: string -> Option<real>)
    ensures Linear(ExprInstrs(e, toNumber))
  {
    match e
    case Unary(op, a) =>
      ExprInstrsLinear(a, toNumber);
      LinearAppend(ExprInstrs(a, toNumber), [V.Instruction(UnaryOpcodeOf(op), [])]);
    case Binary(op, l, r) =>
      ExprInstrsLinear(l, toNumber);
      ExprInstrsLinear(r, toNumber);
      LinearAppend(ExprInstrs(l, toNumber), ExprInstrs(r, toNumber));
      LinearAppend(ExprInstrs(l, toNumber) + ExprInstrs(r, toNumber), [V.Instruction(OpcodeOf(op), [])]);
    case _ =>
  }

  // ---------------------------------------------------------------------
  // One instruction of expression code
  // ---------------------------------------------------------------------

  lemma LeafInstr(e: Expr, m: V.Machine, labels: map<string, nat>, toNumber: string -> Option<real>, elapsed: real)
    requires e.Number? || e.Identifier? || e.Sensor?
    ensures Exec(m, ExprInstrs(e, toNumber), labels, toNumber, elapsed)
      == Pushes(m, Eval(e, m.accounts, m.variables, toNumber, elapsed), 1, m)
  {
    ExecSingle(m, ExprInstrs(e, toNumber)[0], labels, toNumber, elapsed);
  }

  lemma UnaryInstr(op: UnaryOp, m: V.Machine, below: seq<V.Token>, v: V.Token, labels: map<string, nat>, toNumber: string -> Option<real>, elapsed: real)
    requires m.stack == below + [v]
    ensures Exec(m, [V.Instruction(UnaryOpcodeOf(op), [])], labels, toNumber, elapsed)
      == Pushes(m.(stack := below), UnaryValue(op, v), 1, m.(stack := below))
  {
    ExecSingle(m, V.Instruction(UnaryOpcodeOf(op), []), labels, toNumber, elapsed);
    assert m.stack[..|m.stack| - 1] == below;
  }

  lemma BinaryInstr(op: BinaryOp, m: V.Machine, below: seq<V.Token>, a: V.Token, b: V.Token, labels: map<string, nat>, toNumber: string -> Option<real>, elapsed: real)
    requires m.stack == below + [a, b]
    ensures Exec(m, [V.Instruction(OpcodeOf(op), [])], labels, toNumber, elapsed)
      == Pushes(m.(stack := below), V.Operate(OpcodeOf(op), a, b), 1, m.(stack := below))
  {
    ExecSingle(m, V.Instruction(OpcodeOf(op), []), labels, toNumber, elapsed);
    assert m.stack[..|m.stack| - 2] == below;
  }

  // ---------------------------------------------------------------------
  // Expression code
  // ---------------------------------------------------------------------

  /**
   * What code for a value does: with a value, push it and move pc past
   * the code's `length` instructions; with an error, raise it having kept
   * the dictionaries, the output and the stack beneath.
   */
  predicate Yields(value: Result<V.Token, V.VmError>, m: V.Machine, length: nat, r: V.Effect)
  {
    match value
    case Ok(v) => r == V.Done(m.(stack := m.stack + [v], pc := m.pc + length))
    case Err(err) => r.error == Some(err) && Kept(m, r.machine)
  }

  /** The result ExprInstrsEvaluate promises. */
  predicate Evaluates(e: Expr, m: V.Machine, r: V.Effect, toNumber: string -> Option<real>, elapsed: real)
  {
    Yields(Eval(e, m.accounts, m.variables, toNumber, elapsed), m, |ExprInstrs(e, toNumber)|, r)
  }

  /**
   * The code of an expression pushes exactly one value, its value, and
   * moves pc past itself; if evaluating it raises, the code raises the
   * same error without touching the dictionaries or the stack beneath.
   */
  lemma {:induction false} ExprInstrsEvaluate(e: Expr, m: V.Machine, labels: map<string, nat>, toNumber: string -> Option<real>, elapsed: real)
    ensures Evaluates(e, m, Exec(m, ExprInstrs(e, toNumber), labels, toNumber, elapsed), toNumber, elapsed)
    decreases e, 2
  {
    match e
    case Unary(op, a) => UnaryEvaluates(op, a, m, labels, toNumber, elapsed);
    case Binary(op, l, r) => BinaryEvaluates(op, l, r, m, labels, toNumber, elapsed);
    case _ => LeafInstr(e, m, labels, toNumber, elapsed);
  }

  /** Operand code `ra`, then the operator's instruction `ro`, yield the operator's result. */
  lemma UnaryYields(op: UnaryOp, a: Result<V.Token, V.VmError>, m: V.Machine, n: nat, ra: V.Effect, ro: V.Effect, x: V.Effect)
    requires Yields(a, m, n, ra)
    requires x == if ra.error.Some? then ra else ro
    requires a.Ok? ==> ro == Pushes(m.(pc := m.pc + n), UnaryValue(op, a.value), 1, m.(pc := m.pc + n))
    ensures Yields(UnaryResult(op, a), m, n + 1, x)
  {
  }

  lemma UnaryEvaluates(op: UnaryOp, a: Expr, m: V.Machine, labels: map<string, nat>, toNumber: string -> Option<real>, elapsed: real)
    ensures Evaluates(Unary(op, a), m, Exec(m, ExprInstrs(Unary(op, a), toNumber), labels, toNumber, elapsed), toNumber, elapsed)
    decreases Unary(op, a), 0
  {
    var ca, ins := ExprInstrs(a, toNumber), V.Instruction(UnaryOpcodeOf(op), []);
    var ra := Exec(m, ca, labels, toNumber, elapsed);
    var ro := Exec(ra.machine, [ins], labels, toNumber, elapsed);
    var x := Exec(m, ExprInstrs(Unary(op, a), toNumber), labels, toNumber, elapsed);
    assert x == if ra.error.Some? then ra else ro by {
      assert ExprInstrs(Unary(op, a), toNumber) == ca + [ins];
      ExecAppend(m, ca, [ins], labels, toNumber, elapsed);
    }
    var va := Eval(a, m.accounts, m.variables, toNumber, elapsed);
    assert Yields(va, m, |ca|, ra) by {
      ExprInstrsEvaluate(a, m, labels, toNumber, elapsed);
    }
    if va.Ok? {
      var v := va.value;
      assert ra.machine == m.(stack := m.stack + [v], pc := m.pc + |ca|);
      UnaryInstr(op, ra.machine, m.stack, v, labels, toNumber, elapsed);
      assert ra.machine.(stack := m.stack) == m.(pc := m.pc + |ca|);
    }
    UnaryYields(op, va, m, |ca|, ra, ro, x);
    assert Eval(Unary(op, a), m.accounts, m.variables, toNumber, elapsed) == UnaryResult(op, va);
    assert |ExprInstrs(Unary(op, a), toNumber)| == |ca| + 1;
  }

  /**
   * Left operand code `rl`, right operand code `rr`, then the operator's
   * instruction `ro`, yield the operator's result; the first error wins.
   */
  lemma BinaryYields(op: V.Opcode, a: Result<V.Token, V.VmError>, b: Result<V.Token, V.VmError>, m: V.Machine, nl: nat, nr: nat, rl: V.Effect, rr: V.Effect, ro: V.Effect, x: V.Effect)
    requires op.IsBinary()
    requires Yields(a, m, nl, rl)
    requires rl.error.None? ==> Yields(b, rl.machine, nr, rr)
    requires x == if rl.error.Some? then rl else if rr.error.Some? then rr else ro
    requires a.Ok? && b.Ok? ==> ro == Pushes(m.(pc := m.pc + nl + nr), V.Operate(op, a.value, b.value), 1, m.(pc := m.pc + nl + nr))
    ensures Yields(BinaryResult(op, a, b), m, nl + nr + 1, x)
  {
    if a.Ok? && b.Err? {
      KeptPush(m, a.value, m.pc + nl, rr.machine);
    }
  }

  lemma BinaryEvaluates(op: BinaryOp, l: Expr, r: Expr, m: V.Machine, labels: map<string, nat>, toNumber: string -> Option<real>, elapsed: real)
    ensures Evaluates(Binary(op, l, r), m, Exec(m, ExprInstrs(Binary(op, l, r), toNumber), labels, toNumber, elapsed), toNumber, elapsed)
    decreases Binary(op, l, r), 1
  {
    var cl, cr, ins := ExprInstrs(l, toNumber), ExprInstrs(r, toNumber), V.Instruction(OpcodeOf(op), []);
    var rl := Exec(m, cl, labels, toNumber, elapsed);
    var rr := Exec(rl.machine, cr, labels, toNumber, elapsed);
    var ro := Exec(rr.machine, [ins], labels, toNumber, elapsed);
    var va := Eval(l, m.accounts, m.variables, toNumber, elapsed);
    var vb := Eval(r, m.accounts, m.variables, toNumber, elapsed);
    BinaryExecSplits(op, l, r, m, labels, toNumber, elapsed);
    BinaryOperands(op, l, r, m, labels, toNumber, elapsed);
    if va.Ok? && vb.Ok? {
      BinaryOperator(op, va.value, vb.value, m, |cl|, |cr|, rr.machine, labels, toNumber, elapsed);
    }
    BinaryYields(OpcodeOf(op), va, vb, m, |cl|, |cr|, rl, rr, ro, Exec(m, ExprInstrs(Binary(op, l, r), toNumber), labels, toNumber, elapsed));
    assert Eval(Binary(op, l, r), m.accounts, m.variables, toNumber, elapsed) == BinaryResult(OpcodeOf(op), va, vb);
    assert |ExprInstrs(Binary(op, l, r), toNumber)| == |cl| + |cr| + 1;
  }

  /** The code of `l op r` runs as the left operand's code, then the right's, then the operator. */
  lemma BinaryExecSplits(op: BinaryOp, l: Expr, r: Expr, m: V.Machine, labels: map<string, nat>, toNumber: string -> Option<real>, elapsed: real)
    ensures var cl, cr, ins := ExprInstrs(l, toNumber), ExprInstrs(r, toNumber), V.Instruction(OpcodeOf(op), []);
      var rl := Exec(m, cl, labels, toNumber, elapsed);
      var rr := Exec(rl.machine, cr, labels, toNumber, elapsed);
      Exec(m, ExprInstrs(Binary(op, l, r), toNumber), labels, toNumber, elapsed)
        == if rl.error.Some? then rl else if rr.error.Some? then rr else Exec(rr.machine, [ins], labels, toNumber, elapsed)
  {
    var cl, cr, ins := ExprInstrs(l, toNumber), ExprInstrs(r, toNumber), V.Instruction(OpcodeOf(op), []);
    var rl := Exec(m, cl, labels, toNumber, elapsed);
    assert ExprInstrs(Binary(op, l, r), toNumber) == cl + (cr + [ins]);
    ExecAppend(m, cl, cr + [ins], labels, toNumber, elapsed);
    ExecAppend(rl.machine, cr, [ins], labels, toNumber, elapsed);
  }

  /** The operands' code: the left operand's value, then (if it had one) the right's on top. */
  lemma BinaryOperands(op: BinaryOp, l: Expr, r: Expr, m: V.Machine, labels: map<string, nat>, toNumber: string -> Option<real>, elapsed: real)
    ensures var cl, cr := ExprInstrs(l, toNumber), ExprInstrs(r, toNumber);
      var rl := Exec(m, cl, labels, toNumber, elapsed);
      var va := Eval(l, m.accounts, m.variables, toNumber, elapsed);
      && Yields(va, m, |cl|, rl)
      && (rl.error.None? ==> Yields(Eval(r, m.accounts, m.variables, toNumber, elapsed), rl.machine, |cr|, Exec(rl.machine, cr, labels, toNumber, elapsed)))
    decreases Binary(op, l, r), 0
  {
    var cl, cr := ExprInstrs(l, toNumber), ExprInstrs(r, toNumber);
    var va := Eval(l, m.accounts, m.variables, toNumber, elapsed);
    var rl := Exec(m, cl, labels, toNumber, elapsed);
    assert Yields(va, m, |cl|, rl) by {
      ExprInstrsEvaluate(l, m, labels, toNumber, elapsed);
    }
    if rl.error.None? {
      var m1 := m.(stack := m.stack + [va.value], pc := m.pc + |cl|);
      assert rl.machine == m1;
      ExprInstrsEvaluate(r, m1, labels, toNumber, elapsed);
    }
  }

  /** With both values pushed, the operator's instruction replaces them with its result. */
  lemma BinaryOperator(op: BinaryOp, a: V.Token, b: V.Token, m: V.Machine, nl: nat, nr: nat, m2: V.Machine, labels: map<string, nat>, toNumber: string -> Option<real>, elapsed: real)
    requires m2 == m.(stack := m.stack + [a, b], pc := m.pc + nl + nr)
    ensures Exec(m2, [V.Instruction(OpcodeOf(op), [])], labels, toNumber, elapsed)
      == Pushes(m.(pc := m.pc + nl + nr), V.Operate(OpcodeOf(op), a, b), 1, m.(pc := m.pc + nl + nr))
  {
    BinaryInstr(op, m2, m.stack, a, b, labels, toNumber, elapsed);
    assert m2.(stack := m.stack) == m.(pc := m.pc + nl + nr);
  }

  /**
   * The property emit_expression is built for: when the code generated
   * for an expression sits at pc in the loaded program, run's loop either
   * stops with the error evaluating the expression raises, or goes on
   * from the state with exactly that value pushed and pc past the code.
   */
  lemma ExprRunsToItsValue(e: Expr, m: V.Machine, program: seq<V.Instruction>, labels: map<string, nat>, toNumber: string -> Option<real>, elapsed: real, fuel: nat)
    requires At(program, m.pc, Code(ExprCode(e), toNumber))
    requires !m.halted
    ensures var code := Code(ExprCode(e), toNumber);
      var run := V.RunFrom(m, program, labels, toNumber, elapsed, fuel + |code|);
      match Eval(e, m.accounts, m.variables, toNumber, elapsed)
      case Ok(v) => |code| == |ExprCode(e)|
        && run == V.RunFrom(m.(stack := m.stack + [v], pc := m.pc + |code|), program, labels, toNumber, elapsed, fuel)
      case Err(err) => run.Failed? && run.error == err && Kept(m, run.m)
  {
    assert Code(ExprCode(e), toNumber) == ExprInstrs(e, toNumber) && |ExprInstrs(e, toNumber)| == |ExprCode(e)| by {
      ExprCodeLowers(e, toNumber);
    }
    ExprInstrsRun(e, m, program, labels, toNumber, elapsed, fuel);
  }

  /** ExprRunsToItsValue for the instructions the loader makes of the code. */
  lemma ExprInstrsRun(e: Expr, m: V.Machine, program: seq<V.Instruction>, labels: map<string, nat>, toNumber: string -> Option<real>, elapsed: real, fuel: nat)
    requires At(program, m.pc, ExprInstrs(e, toNumber))
    requires !m.halted
    ensures var code := ExprInstrs(e, toNumber);
      var run := V.RunFrom(m, program, labels, toNumber, elapsed, fuel + |code|);
      match Eval(e, m.accounts, m.variables, toNumber, elapsed)
      case Ok(v) => run == V.RunFrom(m.(stack := m.stack + [v], pc := m.pc + |code|), program, labels, toNumber, elapsed, fuel)
      case Err(err) => run.Failed? && run.error == err && Kept(m, run.m)
  {
    var code := ExprInstrs(e, toNumber);
    var r := Exec(m, code, labels, toNumber, elapsed);
    var run := V.RunFrom(m, program, labels, toNumber, elapsed, fuel + |code|);
    assert (r.error.Some? ==> run == V.Failed(r.machine, r.error.value)) && (r.error.None? ==> run == V.RunFrom(r.machine, program, labels, toNumber, elapsed, fuel)) by {
      ExprInstrsLinear(e, toNumber);
      RunLinear(m, program, code, labels, toNumber, elapsed, fuel);
    }
    assert Evaluates(e, m, r, toNumber, elapsed) by {
      ExprInstrsEvaluate(e, m, labels, toNumber, elapsed);
    }
  }

  // ---------------------------------------------------------------------
  // Jumps in a generated program
  // ---------------------------------------------------------------------

  /** Only the three jump opcodes decode to jumps. */
  lemma DecodeJump(s: string)
    ensures V.Decode(s).IsJump() ==> s == "JMP" || s == "JMP_IF_TRUE" || s == "JMP_IF_FALSE"
  {
  }

  /** Every jump in the code names, as text, one of `names`. */
  predicate JumpsName(code: seq<V.Instruction>, names: set<string>)
  {
    forall i :: 0 <= i < |code| && code[i].op.IsJump() ==>
      |code[i].operands| > 0 && code[i].operands[0].Text? && code[i].operands[0].s in names
  }

  lemma JumpsNameAppend(a: seq<V.Instruction>, b: seq<V.Instruction>, names: set<string>)
    requires JumpsName(a, names) && JumpsName(b, names)
    ensures JumpsName(a + b, names)
  {
    forall i | 0 <= i < |a + b| && (a + b)[i].op.IsJump()
      ensures |(a + b)[i].operands| > 0 && (a + b)[i].operands[0].Text? && (a + b)[i].operands[0].s in names
    {
      if i >= |a| {
        assert (a + b)[i] == b[i - |a|];
      }
    }
  }

  /** The instructions one line loads as: none for a comment or a label, else one. */
  lemma CodeOfLine(l: AsmLine, toNumber: string -> Option<real>)
    ensures Code([l], toNumber) == (if Lower(l, toNumber).InstrEntry? then [Lower(l, toNumber).ins] else [])
  {
    var entries := Lowered([l], toNumber);
    assert [l][1..] == [];
    assert entries == LoweredFrom(l, [], toNumber);
    assert entries == [Lower(l, toNumber)];
    assert entries[..0] == [] && L.InstrsOf([]) == [];
  }

  /** A line whose jump target, if any, is a non-numeric word in `names` loads to jumps naming `names`. */
  lemma LineJumps(l: AsmLine, names: set<string>, toNumber: string -> Option<real>)
    requires forall t :: t in TargetOf(l) ==> t in names && t != "" && toNumber(t).None?
    ensures JumpsName(Code([l], toNumber), names)
  {
    CodeOfLine(l, toNumber);
    if Lower(l, toNumber).InstrEntry? {
      var ins := Lower(l, toNumber).ins;
      if ins.op.IsJump() {
        DecodeJump(l.opcode);
        var t := TargetOf(l)[0];
        assert t in TargetOf(l);
        assert l.operands[0] == Word(t);
        assert ins.operands[0] == L.ConvertOperand(t, toNumber);
      }
    }
  }

  /** The jumps the loader makes of the lines name their targets as text. */
  lemma {:induction false} CodeJumps(lines: seq<AsmLine>, names: set<string>, toNumber: string -> Option<real>)
    requires forall t :: t in Targets(lines) ==> t in names && t != "" && toNumber(t).None?
    ensures JumpsName(Code(lines, toNumber), names)
  {
    if lines == [] {
      assert Code(lines, toNumber) == [];
    } else {
      var l, rest := lines[0], lines[1..];
      assert lines == [l] + rest;
      CodeAppend([l], rest, toNumber);
      assert Targets(lines) == TargetOf(l) + Targets(rest);
      assert forall t :: t in TargetOf(l) ==> t in Targets(lines);
      assert forall t :: t in Targets(rest) ==> t in Targets(lines);
      LineJumps(l, names, toNumber);
      CodeJumps(rest, names, toNumber);
      JumpsNameAppend(Code([l], toNumber), Code(rest, toNumber), names);
    }
  }

  /** A label the lines define is at some line. */
  lemma {:induction false} DefAt(lines: seq<AsmLine>, d: string) returns (j: nat)
    requires d in Defs(lines)
    ensures j < |lines| && DefOf(lines[j]) == [d]
  {
    assert Defs(lines) == DefOf(lines[0]) + Defs(lines[1..]);
    if d in DefOf(lines[0]) {
      j := 0;
    } else {
      var j' := DefAt(lines[1..], d);
      j := j' + 1;
    }
  }

  /** Every label the lines define is a label the loader records. */
  lemma DefsLoaded(lines: seq<AsmLine>, toNumber: string -> Option<real>)
    ensures forall d :: d in Defs(lines) ==> d in L.DefinedNames(Lowered(lines, toNumber))
  {
    forall d | d in Defs(lines)
      ensures d in L.DefinedNames(Lowered(lines, toNumber))
    {
      var j := DefAt(lines, d);
      LoweredAt(lines, j, toNumber);
      assert Lowered(lines, toNumber)[j] == L.LabelEntry(d);
    }
  }

  /** A label create_label makes is not empty. */
  lemma LabelNotEmpty(t: string, k: nat)
    requires LabelAt(t, k)
    ensures t != ""
  {
    var p :| p in Prefixes && t == Label(p, k);
    assert t[|p|] == '_';
  }

  /**
   * Loading a generated program: every jump names, as text, a label the
   * loader recorded, so jump_to never misses. float() must reject the
   * labels create_label makes, as it does `else_0` and the like.
   */
  lemma GeneratedJumpsResolve(p: Program, toNumber: string -> Option<real>)
    requires Generate(p, []).error.None?
    requires forall pre, k: nat :: pre in Prefixes ==> toNumber(Label(pre, k)).None?
    ensures var loaded := L.LoadEntries(Lowered(Generate(p, []).out, toNumber), L.Loaded(map[], [], 0));
      JumpsName(loaded.instructions, loaded.labels.Keys)
  {
    var out := Generate(p, []).out;
    var entries := Lowered(out, toNumber);
    var loaded := L.LoadEntries(entries, L.Loaded(map[], [], 0));
    GeneratedLabelsWellFormed(p, []);
    assert out[0..] == out;
    L.LoadEntriesMeaning(entries, L.Loaded(map[], [], 0));
    assert loaded.instructions == Code(out, toNumber);
    DefsLoaded(out, toNumber);
    forall t | t in Targets(out)
      ensures t in loaded.labels.Keys && t != "" && toNumber(t).None?
    {
      assert t in Defs(out);
      var k :| 0 <= k < Generate(p, []).counter && LabelAt(t, k);
      LabelNotEmpty(t, k);
    }
    CodeJumps(out, loaded.labels.Keys, toNumber);
  }

  /**
   * So in a loaded generated program a jump can fail only for want of a
   * condition on the stack: never with a missing operand or an unknown
   * label.
   */
  lemma GeneratedJumpsLand(p: Program, toNumber: string -> Option<real>, m: V.Machine, i: nat)
    requires Generate(p, []).error.None?
    requires forall pre, k: nat :: pre in Prefixes ==> toNumber(Label(pre, k)).None?
    requires var loaded := L.LoadEntries(Lowered(Generate(p, []).out, toNumber), L.Loaded(map[], [], 0));
      i < |loaded.instructions| && loaded.instructions[i].op.IsJump()
    ensures var loaded := L.LoadEntries(Lowered(Generate(p, []).out, toNumber), L.Loaded(map[], [], 0));
      var ins := loaded.instructions[i];
      var e := V.ExecuteJump(m, ins.op, ins.operands, loaded.labels);
      e.error.Some? ==> e.error.value == V.StackEmpty(ins.op)
  {
    GeneratedJumpsResolve(p, toNumber);
  }
}
