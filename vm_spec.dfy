/**
 * What BankVM (vm/bankvm.py) does with one loaded program, as pure
 * functions over a `Machine` value.
 *
 * Python values on the stack and in the two dictionaries are either a
 * float or a str; both are `Token`s here, with floats taken as exact reals.
 * An instruction that raises stops the run; `Effect` keeps the state the
 * instruction had reached when it raised together with the error, since
 * some instructions pop before they fail.
 */
module VmSpec {
  import opened Wrappers

  /** A Python value the VM handles: a float or a str. */
  datatype Token = Text(s: string) | Number(x: real)

  /** (opcode, operands) as the loader builds them, the opcode already told apart by Decode. */
  datatype Instruction = Instruction(op: Opcode, operands: seq<Token>)

  /** A line on standard output: a popped value (PRINT, PRINT_TOP) or an operand printed as is. */
  datatype Printed = Shown(value: Token) | Literal(value: Token)

  /** Why an instruction raised. */
  datatype VmError =
    | StackEmpty(op: Opcode)
    | StackShort
    | MissingOperand(op: Opcode)
    | Undefined(name: Token)
    | NoAccount(name: Token)
    | NoSource(name: Token)
    | NoDestination(name: Token)
    | NoLabel(target: Token)
    | DivisionByZero
    | ModuloByZero
    | TypeMismatch(op: Opcode)
    | NotANumber(operand: Token)
    | UnknownInstruction(opcode: string)

  /** The fields of a BankVM object that running changes. */
  datatype Machine = Machine(
    stack: seq<Token>,
    accounts: map<Token, Token>,
    variables: map<Token, Token>,
    pc: int,
    halted: bool,
    output: seq<Printed>)

  /** The machine after an instruction, and the error it raised, if any. */
  datatype Effect = Effect(machine: Machine, error: Option<VmError>)

  /** base_interest_rate, the value SENSOR_JUROS pushes. */
  const InterestRate: real := 0.05

  const Zero: Token := Number(0.0)
  const True: Token := Number(1.0)
  const False: Token := Number(0.0)

  function Bool(b: bool): Token
  {
    if b then True else False
  }

  // ---------------------------------------------------------------------
  // Python operators on float and str
  // ---------------------------------------------------------------------

  /** Python's `%` on floats: the result takes the sign of the divisor. */
  function FloorMod(a: real, b: real): real
    requires b != 0.0
  {
    a - b * ((a / b).Floor as real)
  }

  /** The remainder lies between zero and the divisor, on the divisor's side. */
  lemma FloorModRange(a: real, b: real)
    requires b != 0.0
    ensures b > 0.0 ==> 0.0 <= FloorMod(a, b) < b
    ensures b < 0.0 ==> b < FloorMod(a, b) <= 0.0
  {
    var q := a / b;
    var d := q - (q.Floor as real);
    assert 0.0 <= d < 1.0;
    assert b * q == a;
    assert FloorMod(a, b) == b * d;
    if b > 0.0 {
      assert b * d < b * 1.0;
    } else {
      assert b * 1.0 < b * d;
    }
  }

  /** Python's ordering of two str values: by code point, a prefix first. */
  predicate TextLess(a: string, b: string)
  {
    if a == [] then b != []
    else if b == [] then false
    else if a[0] != b[0] then a[0] < b[0]
    else TextLess(a[1..], b[1..])
  }

  // ---------------------------------------------------------------------
  // Opcodes
  // ---------------------------------------------------------------------

  /** The opcodes _execute_instruction tells apart, and any other name. */
  datatype Opcode =
    | PushConst | PushStr | Load | Store
    | Add | Sub | Mul | Div | Mod | Neg | Not
    | CmpEq | CmpNe | CmpLt | CmpLe | CmpGt | CmpGe
    | Jmp | JmpIfTrue | JmpIfFalse | Halt
    | AccountInit | Deposit | Withdraw | Transfer | ApplyInterest
    | SensorTempo | SensorJuros
    | Print | PrintStrLiteral | PrintTop | Nop
    | Unknown(name: string)
  {
    /** The opcodes whose handler starts with _pop2. */
    predicate IsBinary()
    {
      match this
      case Add | Sub | Mul | Div | Mod | CmpEq | CmpNe | CmpLt | CmpLe | CmpGt | CmpGe => true
      case _ => false
    }

    /** Instructions that only move values between the stack and the two dictionaries. */
    predicate IsData()
    {
      match this
      case PushConst | PushStr | Load | Store | Neg | Not | SensorTempo | SensorJuros => true
      case _ => false
    }

    predicate IsBank()
    {
      match this
      case AccountInit | Deposit | Withdraw | Transfer | ApplyInterest => true
      case _ => false
    }

    predicate IsJump()
    {
      this == Jmp || this == JmpIfTrue || this == JmpIfFalse
    }
  }

  /**
   * The if/elif chain of _execute_instruction on the opcode string: which
   * handler a name selects. Any other name reaches the final `else`.
   */
  function Decode(s: string): Opcode
  {
    if s == "PUSH_CONST" then PushConst
    else if s == "PUSH_STR" then PushStr
    else if s == "LOAD" then Load
    else if s == "STORE" then Store
    else if s == "ADD" then Add
    else if s == "SUB" then Sub
    else if s == "MUL" then Mul
    else if s == "DIV" then Div
    else if s == "MOD" then Mod
    else if s == "NEG" then Neg
    else if s == "NOT" then Not
    else if s == "CMP_EQ" then CmpEq
    else if s == "CMP_NE" then CmpNe
    else if s == "CMP_LT" then CmpLt
    else if s == "CMP_LE" then CmpLe
    else if s == "CMP_GT" then CmpGt
    else if s == "CMP_GE" then CmpGe
    else if s == "JMP" then Jmp
    else if s == "JMP_IF_TRUE" then JmpIfTrue
    else if s == "JMP_IF_FALSE" then JmpIfFalse
    else if s == "HALT" then Halt
    else if s == "ACCOUNT_INIT" then AccountInit
    else if s == "DEPOSIT" then Deposit
    else if s == "WITHDRAW" then Withdraw
    else if s == "TRANSFER" then Transfer
    else if s == "APPLY_INTEREST" then ApplyInterest
    else if s == "SENSOR_TEMPO" then SensorTempo
    else if s == "SENSOR_JUROS" then SensorJuros
    else if s == "PRINT" then Print
    else if s == "PRINT_STR_LITERAL" then PrintStrLiteral
    else if s == "PRINT_TOP" then PrintTop
    else if s == "NOP" then Nop
    else Unknown(s)
  }

  const KnownOpcodes: set<string> := {
    "PUSH_CONST", "PUSH_STR", "LOAD", "STORE", "ADD", "SUB", "MUL", "DIV", "MOD", "NEG", "NOT",
    "CMP_EQ", "CMP_NE", "CMP_LT", "CMP_LE", "CMP_GT", "CMP_GE", "JMP", "JMP_IF_TRUE", "JMP_IF_FALSE",
    "HALT", "ACCOUNT_INIT", "DEPOSIT", "WITHDRAW", "TRANSFER", "APPLY_INTEREST", "SENSOR_TEMPO",
    "SENSOR_JUROS", "PRINT", "PRINT_STR_LITERAL", "PRINT_TOP", "NOP"}

  /** Exactly the thirty-two names the VM knows escape the final `else`, which keeps the name. */
  lemma DecodeKnown(s: string)
    ensures Decode(s).Unknown? <==> s !in KnownOpcodes
    ensures Decode(s).Unknown? ==> Decode(s).name == s
  {
    if s in KnownOpcodes {
      KnownDecoded(s);
    } else {
      OtherUndecoded(s);
    }
  }

  lemma KnownDecoded(s: string)
    requires s in KnownOpcodes
    ensures !Decode(s).Unknown?
  {
  }

  lemma OtherUndecoded(s: string)
    requires s !in KnownOpcodes
    ensures Decode(s) == Unknown(s)
  {
    assert
      s != "PUSH_CONST" && s != "PUSH_STR" && s != "LOAD" && s != "STORE" && s != "ADD" &&
      s != "SUB" && s != "MUL" && s != "DIV" && s != "MOD" && s != "NEG" && s != "NOT" &&
      s != "CMP_EQ" && s != "CMP_NE" && s != "CMP_LT" && s != "CMP_LE" && s != "CMP_GT" &&
      s != "CMP_GE" && s != "JMP" && s != "JMP_IF_TRUE" && s != "JMP_IF_FALSE" && s != "HALT" &&
      s != "ACCOUNT_INIT" && s != "DEPOSIT" && s != "WITHDRAW" && s != "TRANSFER" &&
      s != "APPLY_INTEREST" && s != "SENSOR_TEMPO" && s != "SENSOR_JUROS" && s != "PRINT" &&
      s != "PRINT_STR_LITERAL" && s != "PRINT_TOP" && s != "NOP";
  }

  // ---------------------------------------------------------------------
  // The binary operators
  // ---------------------------------------------------------------------

  /**
   * The value `a op b` of the opcodes _pop2 serves, or the exception Python
   * raises for it. `b` is the value that was on top.
   */
  function Operate(op: Opcode, a: Token, b: Token): (r: Result<Token, VmError>)
    requires op.IsBinary()
    ensures r.Err? ==> r.error == TypeMismatch(op) || (op == Div && r.error == DivisionByZero) || (op == Mod && r.error == ModuloByZero)
    ensures op == CmpEq || op == CmpNe ==> r.Ok?
    ensures a.Number? && b.Number? && !((op == Div || op == Mod) && b.x == 0.0) ==> r.Ok? && r.value.Number?
    ensures (op == Sub || op == Mul || op == Div || op == Mod) && r.Ok? ==> a.Number? && b.Number?
  {
    match op
    case Add =>
      if a.Number? && b.Number? then Ok(Number(a.x + b.x))
      else if a.Text? && b.Text? then Ok(Text(a.s + b.s))
      else Err(TypeMismatch(Add))
    case Sub =>
      if a.Number? && b.Number? then Ok(Number(a.x - b.x)) else Err(TypeMismatch(Sub))
    case Mul =>
      if a.Number? && b.Number? then Ok(Number(a.x * b.x)) else Err(TypeMismatch(Mul))
    case Div =>
      if b == Zero then Err(DivisionByZero)
      else if a.Number? && b.Number? then Ok(Number(a.x / b.x))
      else Err(TypeMismatch(Div))
    case Mod =>
      if !a.Number? || !b.Number? then Err(TypeMismatch(Mod))
      else if b.x == 0.0 then Err(ModuloByZero)
      else Ok(Number(FloorMod(a.x, b.x)))
    case CmpEq => Ok(Bool(a == b))
    case CmpNe => Ok(Bool(a != b))
    case CmpLt => Compare(a, b, false, op)
    case CmpLe => Compare(a, b, true, op)
    case CmpGt => Compare(b, a, false, op)
    case CmpGe => Compare(b, a, true, op)
  }

  /**
   * Python's `a < b` (or `a <= b` when `orEqual`) on two floats or two
   * strings; mixing the two raises TypeError.
   */
  function Compare(a: Token, b: Token, orEqual: bool, op: Opcode): Result<Token, VmError>
  {
    match (a, b)
    case (Number(x), Number(y)) => Ok(Bool(x < y || (orEqual && x == y)))
    case (Text(s), Text(t)) => Ok(Bool(TextLess(s, t) || (orEqual && s == t)))
    case _ => Err(TypeMismatch(op))
  }

  // ---------------------------------------------------------------------
  // One instruction: _execute_instruction
  // ---------------------------------------------------------------------

  function Done(m: Machine): Effect
  {
    Effect(m, None)
  }

  function Raise(m: Machine, e: VmError): Effect
  {
    Effect(m, Some(e))
  }

  function Push(m: Machine, v: Token): Machine
  {
    m.(stack := m.stack + [v])
  }

  /** The stack with its top removed. */
  function Popped(m: Machine): Machine
    requires m.stack != []
  {
    m.(stack := m.stack[..|m.stack| - 1])
  }

  function Top(m: Machine): Token
    requires m.stack != []
  {
    m.stack[|m.stack| - 1]
  }

  /** JMP and the taken branch of a conditional jump: pc lands one before the label's index. */
  function JumpTo(m: Machine, op: Opcode, operands: seq<Token>, labels: map<string, nat>): Effect
  {
    if operands == [] then Raise(m, MissingOperand(op))
    else if operands[0].Text? && operands[0].s in labels then Done(m.(pc := (labels[operands[0].s] as int) - 1))
    else Raise(m, NoLabel(operands[0]))
  }

  /** The data instructions. */
  function ExecuteData(m: Machine, op: Opcode, operands: seq<Token>, toNumber: string -> Option<real>, elapsed: real): (e: Effect)
    requires op.IsData()
    ensures e.machine.pc == m.pc && e.machine.halted == m.halted
  {
    match op
    case PushConst =>
      if operands == [] then Raise(m, MissingOperand(op))
      else if operands[0].Number? then Done(Push(m, operands[0]))
      else (match toNumber(operands[0].s)
        case Some(x) => Done(Push(m, Number(x)))
        case None => Raise(m, NotANumber(operands[0])))
    case PushStr =>
      if operands == [] then Raise(m, MissingOperand(op)) else Done(Push(m, operands[0]))
    case Load =>
      if operands == [] then Raise(m, MissingOperand(op))
      else if operands[0] in m.accounts then Done(Push(m, m.accounts[operands[0]]))
      else if operands[0] in m.variables then Done(Push(m, m.variables[operands[0]]))
      else Raise(m, Undefined(operands[0]))
    case Store =>
      if m.stack == [] then Raise(m, StackEmpty(op))
      else if operands == [] then Raise(m, MissingOperand(op))
      else
        var key, v, m1 := operands[0], Top(m), Popped(m);
        if key in m.accounts then Done(m1.(accounts := m.accounts[key := v]))
        else Done(m1.(variables := m.variables[key := v]))
    case Neg =>
      if m.stack == [] then Raise(m, StackEmpty(op))
      else if Top(m).Number? then Done(Push(Popped(m), Number(-Top(m).x)))
      else Raise(Popped(m), TypeMismatch(op))
    case Not =>
      if m.stack == [] then Raise(m, StackEmpty(op))
      else Done(Push(Popped(m), Bool(Top(m) == Zero)))
    case SensorTempo => Done(Push(m, Number(elapsed)))
    case _ => Done(Push(m, Number(InterestRate)))
  }

  /** The banking primitives. */
  function ExecuteBank(m: Machine, op: Opcode, operands: seq<Token>): (e: Effect)
    requires op.IsBank()
    ensures e.machine.pc == m.pc && e.machine.halted == m.halted
  {
    if op == AccountInit then
      if operands == [] then Raise(m, MissingOperand(op))
      else Done(m.(accounts := m.accounts[operands[0] := Zero]))
    else if m.stack == [] then Raise(m, StackEmpty(op))
    else if operands == [] || (op == Transfer && |operands| < 2) then Raise(m, MissingOperand(op))
    else
      var amount, m1 := Top(m), Popped(m);
      var src := operands[0];
      if src !in m.accounts then
        Raise(m1, if op == Transfer then NoSource(src) else NoAccount(src))
      else match op
        case Deposit =>
          (match Operate(Add, m.accounts[src], amount)
            case Ok(v) => Done(m1.(accounts := m.accounts[src := v]))
            case Err(e) => Raise(m1, e))
        case Withdraw =>
          (match Operate(Sub, m.accounts[src], amount)
            case Ok(v) => Done(m1.(accounts := m.accounts[src := v]))
            case Err(e) => Raise(m1, e))
        case Transfer =>
          var dst := operands[1];
          if dst !in m.accounts then Raise(m1, NoDestination(dst))
          else (match Operate(Sub, m.accounts[src], amount)
            case Err(e) => Raise(m1, e)
            case Ok(v) =>
              var a1 := m.accounts[src := v];
              match Operate(Add, a1[dst], amount)
              case Ok(w) => Done(m1.(accounts := a1[dst := w]))
              case Err(e) => Raise(m1.(accounts := a1), e))
        case ApplyInterest =>
          match Operate(Mul, m.accounts[src], amount)
          case Err(e) => Raise(m1, e)
          case Ok(interest) =>
            match Operate(Add, m.accounts[src], interest)
            case Ok(v) => Done(m1.(accounts := m.accounts[src := v]))
            case Err(e) => Raise(m1, e)
  }

  /** The arithmetic and comparison instructions: _pop2, then the operator. */
  function ExecuteBinary(m: Machine, op: Opcode): (e: Effect)
    requires op.IsBinary()
    ensures e.machine.pc == m.pc && e.machine.halted == m.halted
  {
    if |m.stack| < 2 then Raise(m, StackShort)
    else
      var b, a := m.stack[|m.stack| - 1], m.stack[|m.stack| - 2];
      var m1 := m.(stack := m.stack[..|m.stack| - 2]);
      match Operate(op, a, b)
      case Ok(v) => Done(Push(m1, v))
      case Err(e) => Raise(m1, e)
  }

  /** JMP, JMP_IF_TRUE and JMP_IF_FALSE. */
  function ExecuteJump(m: Machine, op: Opcode, operands: seq<Token>, labels: map<string, nat>): (e: Effect)
    requires op.IsJump()
    ensures e.machine.halted == m.halted
    ensures e.error.Some? ==> e.machine.pc == m.pc
    ensures e.machine.pc == m.pc || e.machine.pc >= -1
  {
    if op == Jmp then JumpTo(m, op, operands, labels)
    else if m.stack == [] then Raise(m, StackEmpty(op))
    else if (Top(m) != Zero) == (op == JmpIfTrue) then JumpTo(Popped(m), op, operands, labels)
    else Done(Popped(m))
  }

  /** HALT, the print instructions, NOP and unknown opcodes. */
  function ExecuteOther(m: Machine, op: Opcode, operands: seq<Token>): (e: Effect)
    requires !op.IsData() && !op.IsBinary() && !op.IsBank() && !op.IsJump()
    ensures e.machine.pc == m.pc
    ensures e.error.Some? || op != Halt ==> e.machine.halted == m.halted
  {
    match op
    case Halt => Done(m.(halted := true))
    case Print | PrintTop =>
      if m.stack == [] then Raise(m, StackEmpty(op))
      else Done(Popped(m).(output := m.output + [Shown(Top(m))]))
    case PrintStrLiteral =>
      if operands == [] then Raise(m, MissingOperand(op))
      else Done(m.(output := m.output + [Literal(operands[0])]))
    case Nop => Done(m)
    case Unknown(name) => Raise(m, UnknownInstruction(name))
  }

  /**
   * _execute_instruction. `toNumber` is Python's float() on a str (None
   * where it raises); `elapsed` is the time SENSOR_TEMPO reads.
   */
  function Execute(m: Machine, ins: Instruction, labels: map<string, nat>, toNumber: string -> Option<real>, elapsed: real): Effect
  {
    var op, args := ins.op, ins.operands;
    if op.IsData() then ExecuteData(m, op, args, toNumber, elapsed)
    else if op.IsBinary() then ExecuteBinary(m, op)
    else if op.IsJump() then ExecuteJump(m, op, args, labels)
    else if op.IsBank() then ExecuteBank(m, op, args)
    else ExecuteOther(m, op, args)
  }

  // ---------------------------------------------------------------------
  // Properties of one instruction
  // ---------------------------------------------------------------------

  /** How many values an opcode's handler pops. */
  function Consumed(op: Opcode): nat
  {
    if op.IsBinary() then 2
    else if op in {Store, Neg, Not, Deposit, Withdraw, Transfer, ApplyInterest, Print, PrintTop, JmpIfTrue, JmpIfFalse} then 1
    else 0
  }

  /** How many values an opcode's handler pushes. */
  function Produced(op: Opcode): nat
  {
    if op.IsBinary() || op in {PushConst, PushStr, Load, SensorTempo, SensorJuros, Neg, Not} then 1
    else 0
  }

  /** The stack effect: Consumed values gone, Produced ones on top, the rest kept. */
  ghost predicate KeepsStack(m: Machine, r: Machine, op: Opcode)
  {
    var kept := |m.stack| - Consumed(op);
    && 0 <= kept && |r.stack| == kept + Produced(op)
    && r.stack[..kept] == m.stack[..kept]
  }

  lemma DataStackEffect(m: Machine, op: Opcode, operands: seq<Token>, toNumber: string -> Option<real>, elapsed: real)
    requires op.IsData() && ExecuteData(m, op, operands, toNumber, elapsed).error.None?
    ensures KeepsStack(m, ExecuteData(m, op, operands, toNumber, elapsed).machine, op)
  {
    DataCounts(op);
  }

  /** STORE pops one value, NEG and NOT replace one, the other data opcodes push one. */
  lemma DataCounts(op: Opcode)
    requires op.IsData()
    ensures Consumed(op) == (if op == Store || op == Neg || op == Not then 1 else 0)
    ensures Produced(op) == (if op == Store then 0 else 1)
  {
  }

  lemma BankStackEffect(m: Machine, op: Opcode, operands: seq<Token>)
    requires op.IsBank() && ExecuteBank(m, op, operands).error.None?
    ensures KeepsStack(m, ExecuteBank(m, op, operands).machine, op)
  {
  }

  lemma BinaryStackEffect(m: Machine, op: Opcode)
    requires op.IsBinary() && ExecuteBinary(m, op).error.None?
    ensures KeepsStack(m, ExecuteBinary(m, op).machine, op)
  {
  }

  lemma JumpStackEffect(m: Machine, op: Opcode, operands: seq<Token>, labels: map<string, nat>)
    requires op.IsJump() && ExecuteJump(m, op, operands, labels).error.None?
    ensures KeepsStack(m, ExecuteJump(m, op, operands, labels).machine, op)
  {
  }

  lemma OtherStackEffect(m: Machine, op: Opcode, operands: seq<Token>)
    requires !op.IsData() && !op.IsBinary() && !op.IsBank() && !op.IsJump()
    requires ExecuteOther(m, op, operands).error.None?
    ensures KeepsStack(m, ExecuteOther(m, op, operands).machine, op)
  {
  }

  /** PRINT_STR_LITERAL appends its operand to the output and changes nothing else. */
  lemma PrintLiteralExecutes(m: Machine, t: Token, labels: map<string, nat>, toNumber: string -> Option<real>, elapsed: real)
    ensures Execute(m, Instruction(PrintStrLiteral, [t]), labels, toNumber, elapsed) == Done(m.(output := m.output + [Literal(t)]))
  {
  }

  /**
   * A successful instruction pops Consumed values and pushes Produced ones,
   * leaving the values under them untouched; one that is not a jump and not
   * HALT also leaves pc and the halt flag alone.
   */
  lemma ExecuteStackEffect(m: Machine, ins: Instruction, labels: map<string, nat>, toNumber: string -> Option<real>, elapsed: real)
    requires Execute(m, ins, labels, toNumber, elapsed).error.None?
    ensures KeepsStack(m, Execute(m, ins, labels, toNumber, elapsed).machine, ins.op)
    ensures var r := Execute(m, ins, labels, toNumber, elapsed).machine;
      !ins.op.IsJump() && ins.op != Halt ==> r.pc == m.pc && r.halted == m.halted
  {
    var op := ins.op;
    if op.IsData() {
      DataStackEffect(m, op, ins.operands, toNumber, elapsed);
    } else if op.IsBinary() {
      BinaryStackEffect(m, op);
    } else if op.IsJump() {
      JumpStackEffect(m, op, ins.operands, labels);
    } else if op.IsBank() {
      BankStackEffect(m, op, ins.operands);
    } else {
      OtherStackEffect(m, op, ins.operands);
    }
  }

  /**
   * pc never drops below -1, so after run's increment it is never negative;
   * an instruction that raises leaves pc and the halt flag where they were.
   */
  lemma ExecutePcBound(m: Machine, ins: Instruction, labels: map<string, nat>, toNumber: string -> Option<real>, elapsed: real)
    requires m.pc >= 0
    ensures Execute(m, ins, labels, toNumber, elapsed).machine.pc >= -1
    ensures var e := Execute(m, ins, labels, toNumber, elapsed);
      e.error.Some? ==> e.machine.pc == m.pc && e.machine.halted == m.halted
  {
  }

  /** An effect that is not the unknown-instruction error. */
  predicate NotUnknown(e: Effect)
  {
    e.error.Some? ==> !e.error.value.UnknownInstruction?
  }

  lemma DataNotUnknown(m: Machine, op: Opcode, operands: seq<Token>, toNumber: string -> Option<real>, elapsed: real)
    requires op.IsData()
    ensures NotUnknown(ExecuteData(m, op, operands, toNumber, elapsed))
  {
  }

  lemma BankNotUnknown(m: Machine, op: Opcode, operands: seq<Token>)
    requires op.IsBank()
    ensures NotUnknown(ExecuteBank(m, op, operands))
  {
  }

  lemma BinaryNotUnknown(m: Machine, op: Opcode)
    requires op.IsBinary()
    ensures NotUnknown(ExecuteBinary(m, op))
  {
  }

  lemma JumpNotUnknown(m: Machine, op: Opcode, operands: seq<Token>, labels: map<string, nat>)
    requires op.IsJump()
    ensures NotUnknown(ExecuteJump(m, op, operands, labels))
  {
  }

  /** Of the remaining handlers, only the final `else` raises the unknown-instruction error. */
  lemma OtherRejectsUnknown(m: Machine, op: Opcode, operands: seq<Token>)
    requires !op.IsData() && !op.IsBinary() && !op.IsBank() && !op.IsJump()
    ensures NotUnknown(ExecuteOther(m, op, operands)) <==> !op.Unknown?
    ensures op.Unknown? ==> ExecuteOther(m, op, operands) == Raise(m, UnknownInstruction(op.name))
  {
  }

  /** An instruction raises the unknown-instruction error exactly when its opcode is unknown. */
  lemma UnknownOpcodeRejected(m: Machine, ins: Instruction, labels: map<string, nat>, toNumber: string -> Option<real>, elapsed: real)
    ensures var e := Execute(m, ins, labels, toNumber, elapsed);
      e.error.Some? && e.error.value.UnknownInstruction? <==> ins.op.Unknown?
    ensures ins.op.Unknown? ==> Execute(m, ins, labels, toNumber, elapsed) == Raise(m, UnknownInstruction(ins.op.name))
  {
    var op, args := ins.op, ins.operands;
    if op.IsData() {
      DataNotUnknown(m, op, args, toNumber, elapsed);
    } else if op.IsBinary() {
      BinaryNotUnknown(m, op);
    } else if op.IsJump() {
      JumpNotUnknown(m, op, args, labels);
    } else if op.IsBank() {
      BankNotUnknown(m, op, args);
    } else {
      OtherRejectsUnknown(m, op, args);
    }
  }

  // ---------------------------------------------------------------------
  // What single instructions do
  // ---------------------------------------------------------------------

  /** _pop2 raises exactly when fewer than two values are on the stack. */
  lemma BinaryNeedsTwo(m: Machine, op: Opcode)
    requires op.IsBinary()
    ensures ExecuteBinary(m, op).error == Some(StackShort) <==> |m.stack| < 2
  {
  }

  /** SUB and DIV take the value under the top as their left operand. */
  lemma SecondOpTop(m: Machine, below: seq<Token>, x: real, y: real)
    requires m.stack == below + [Number(x), Number(y)]
    ensures ExecuteBinary(m, Sub) == Done(m.(stack := below + [Number(x - y)]))
    ensures y != 0.0 ==> ExecuteBinary(m, Div) == Done(m.(stack := below + [Number(x / y)]))
  {
    assert m.stack[..|m.stack| - 2] == below;
  }

  /** DIV with zero on top raises, whatever lies under it; both operands are gone. */
  lemma DivisionByZeroRaises(m: Machine, below: seq<Token>, a: Token)
    requires m.stack == below + [a, Zero]
    ensures ExecuteBinary(m, Div) == Raise(m.(stack := below), DivisionByZero)
  {
    assert m.stack[..|m.stack| - 2] == below;
  }

  /** Comparisons and NOT push only 1.0 or 0.0. */
  lemma TruthValuesOnly(m: Machine, op: Opcode, operands: seq<Token>, toNumber: string -> Option<real>, elapsed: real)
    requires op in {CmpEq, CmpNe, CmpLt, CmpLe, CmpGt, CmpGe, Not}
    ensures var e := if op == Not then ExecuteData(m, op, operands, toNumber, elapsed) else ExecuteBinary(m, op);
      e.error.None? ==> e.machine.stack != [] && e.machine.stack[|e.machine.stack| - 1] in {True, False}
  {
  }

  /** STORE writes the account when the name is one, the variable otherwise; LOAD then pushes the value back. */
  lemma StoreThenLoad(m: Machine, below: seq<Token>, v: Token, name: Token, toNumber: string -> Option<real>, elapsed: real)
    requires m.stack == below + [v]
    ensures var e := ExecuteData(m, Store, [name], toNumber, elapsed);
      && e.error.None? && e.machine.stack == below
      && e.machine.accounts == (if name in m.accounts then m.accounts[name := v] else m.accounts)
      && e.machine.variables == (if name in m.accounts then m.variables else m.variables[name := v])
      && ExecuteData(e.machine, Load, [name], toNumber, elapsed) == Done(e.machine.(stack := below + [v]))
  {
    assert m.stack[..|m.stack| - 1] == below;
  }

  /** LOAD raises exactly when the name is neither an account nor a variable. */
  lemma LoadUndefined(m: Machine, name: Token, toNumber: string -> Option<real>, elapsed: real)
    ensures ExecuteData(m, Load, [name], toNumber, elapsed).error.Some?
      <==> name !in m.accounts && name !in m.variables
    ensures name !in m.accounts && name !in m.variables ==>
      ExecuteData(m, Load, [name], toNumber, elapsed) == Raise(m, Undefined(name))
  {
  }

  /**
   * TRANSFER between two accounts moves the amount from the source to
   * the destination and touches no other account; with source and
   * destination the same account nothing changes.
   */
  lemma TransferMovesAmount(m: Machine, below: seq<Token>, amount: real, src: Token, dst: Token, x: real, y: real)
    requires m.stack == below + [Number(amount)]
    requires src in m.accounts && m.accounts[src] == Number(x)
    requires dst in m.accounts && m.accounts[dst] == Number(y)
    ensures var e := ExecuteBank(m, Transfer, [src, dst]);
      && e.error.None? && e.machine.stack == below
      && e.machine.accounts.Keys == m.accounts.Keys
      && (forall k :: k in m.accounts && k != src && k != dst ==> e.machine.accounts[k] == m.accounts[k])
      && (src != dst ==> e.machine.accounts[src] == Number(x - amount) && e.machine.accounts[dst] == Number(y + amount))
      && (src == dst ==> e.machine.accounts[src] == Number(x))
  {
    assert m.stack[..|m.stack| - 1] == below;
  }

  /** TRANSFER checks the source account before the destination. */
  lemma TransferChecksSourceFirst(m: Machine, below: seq<Token>, amount: Token, src: Token, dst: Token)
    requires m.stack == below + [amount]
    ensures var e := ExecuteBank(m, Transfer, [src, dst]);
      && (src !in m.accounts ==> e == Raise(m.(stack := below), NoSource(src)))
      && (src in m.accounts && dst !in m.accounts ==> e == Raise(m.(stack := below), NoDestination(dst)))
  {
    assert m.stack[..|m.stack| - 1] == below;
  }

  /**
   * JMP_IF_FALSE pops one value and jumps exactly when it is 0; a jump to
   * a name that is not a label raises.
   */
  lemma JumpIfFalsePops(m: Machine, below: seq<Token>, v: Token, target: string, labels: map<string, nat>)
    requires m.stack == below + [v]
    ensures var e := ExecuteJump(m, JmpIfFalse, [Text(target)], labels);
      && (v != Zero ==> e == Done(m.(stack := below)))
      && (v == Zero && target in labels ==> e == Done(m.(stack := below, pc := labels[target] as int - 1)))
      && (v == Zero && target !in labels ==> e == Raise(m.(stack := below), NoLabel(Text(target))))
  {
    assert m.stack[..|m.stack| - 1] == below;
  }


  // ---------------------------------------------------------------------
  // The run loop
  // ---------------------------------------------------------------------

  /** How a run ended: the loop condition failed, an instruction raised, or the step budget ran out. */
  datatype Outcome = Finished(m: Machine) | Failed(m: Machine, error: VmError) | OutOfFuel(m: Machine)

  /**
   * Where run can stop: a finished run has failed its loop condition (HALT
   * ran or pc left the program); a run that raised, or ran out of steps,
   * stopped at an instruction of the program with HALT not run.
   */
  predicate StopsWhere(o: Outcome, program: seq<Instruction>)
  {
    match o
    case Finished(m) => m.halted || m.pc >= |program|
    case Failed(m, _) => 0 <= m.pc < |program| && !m.halted
    case OutOfFuel(m) => 0 <= m.pc < |program| && !m.halted
  }

  /** One iteration of run's loop: execute, then pc += 1 unless the instruction raised. */
  function Step(m: Machine, program: seq<Instruction>, labels: map<string, nat>, toNumber: string -> Option<real>, elapsed: real): (e: Effect)
    requires 0 <= m.pc < |program|
    ensures e.machine.pc >= 0
    ensures e.error.Some? ==> e.machine.pc == m.pc && e.machine.halted == m.halted
  {
    ExecutePcBound(m, program[m.pc], labels, toNumber, elapsed);
    var e := Execute(m, program[m.pc], labels, toNumber, elapsed);
    if e.error.Some? then e else Done(e.machine.(pc := e.machine.pc + 1))
  }

  /** The loop of run, for at most `fuel` iterations: it goes on while pc is in the program and HALT has not run. */
  function RunFrom(m: Machine, program: seq<Instruction>, labels: map<string, nat>, toNumber: string -> Option<real>, elapsed: real, fuel: nat): (o: Outcome)
    requires m.pc >= 0
    ensures StopsWhere(o, program)
    decreases fuel, 2
  {
    if m.pc >= |program| || m.halted then Finished(m)
    else Turn(m, program, labels, toNumber, elapsed, fuel)
  }

  /** An iteration is due: it runs if fuel is left. */
  function Turn(m: Machine, program: seq<Instruction>, labels: map<string, nat>, toNumber: string -> Option<real>, elapsed: real, fuel: nat): (o: Outcome)
    requires 0 <= m.pc < |program| && !m.halted
    ensures StopsWhere(o, program)
    decreases fuel, 1
  {
    if fuel == 0 then OutOfFuel(m)
    else Advance(m, program, labels, toNumber, elapsed, fuel)
  }

  /** After a jump that is taken, the next instruction run is the one at the label's index. */
  lemma JumpLandsOnLabel(m: Machine, program: seq<Instruction>, target: string, labels: map<string, nat>, toNumber: string -> Option<real>, elapsed: real)
    requires 0 <= m.pc < |program| && program[m.pc] == Instruction(Jmp, [Text(target)])
    ensures target in labels ==> Step(m, program, labels, toNumber, elapsed) == Done(m.(pc := labels[target]))
    ensures target !in labels ==> Step(m, program, labels, toNumber, elapsed) == Raise(m, NoLabel(Text(target)))
  {
  }

  /** Any other instruction that succeeds moves pc on by one. */
  lemma StepAdvances(m: Machine, program: seq<Instruction>, labels: map<string, nat>, toNumber: string -> Option<real>, elapsed: real)
    requires 0 <= m.pc < |program| && !program[m.pc].op.IsJump()
    ensures var e := Step(m, program, labels, toNumber, elapsed);
      e.error.None? ==> e.machine.pc == m.pc + 1
  {
    var e := Execute(m, program[m.pc], labels, toNumber, elapsed);
    if e.error.None? && program[m.pc].op != Halt {
      ExecuteStackEffect(m, program[m.pc], labels, toNumber, elapsed);
    }
  }

  /** One iteration on the instruction at pc, then the rest of the loop. */
  function Advance(m: Machine, program: seq<Instruction>, labels: map<string, nat>, toNumber: string -> Option<real>, elapsed: real, fuel: nat): (o: Outcome)
    requires 0 <= m.pc < |program| && !m.halted && fuel > 0
    ensures StopsWhere(o, program)
    decreases fuel, 0
  {
    var e := Step(m, program, labels, toNumber, elapsed);
    if e.error.Some? then Failed(e.machine, e.error.value)
    else RunFrom(e.machine, program, labels, toNumber, elapsed, fuel - 1)
  }

  /** run: restarts at pc 0 with the halt flag cleared; stack and dictionaries are kept. */
  function Run(m: Machine, program: seq<Instruction>, labels: map<string, nat>, toNumber: string -> Option<real>, elapsed: real, fuel: nat): Outcome
  {
    RunFrom(m.(pc := 0, halted := false), program, labels, toNumber, elapsed, fuel)
  }
}
