/**
 * The BankVM object (vm/bankvm.py): its fields change in place as the
 * loader and the run loop work, and every method is proved to do what the
 * functions of VmSpec and VmLoad say.
 */
module Vm {
  import opened Wrappers
  import opened VmSpec
  import opened VmLoad

  class BankVM {
    var stack: seq<Token>
    var accounts: map<Token, Token>
    var variables: map<Token, Token>
    var labels: map<string, nat>
    var instructions: seq<Instruction>
    var pc: int
    var halted: bool
    /** What the print instructions have written, in order. */
    var output: seq<Printed>
    /** Python's float() on a str: None where it raises ValueError. */
    const toNumber: string -> Option<real>

    /** The part of the object a run changes. */
    function State(): Machine
      reads this
    {
      Machine(stack, accounts, variables, pc, halted, output)
    }

    constructor(toNumber: string -> Option<real>)
      ensures State() == Machine([], map[], map[], 0, false, [])
      ensures labels == map[] && instructions == [] && this.toNumber == toNumber
    {
      stack := [];
      accounts := map[];
      variables := map[];
      labels := map[];
      instructions := [];
      pc := 0;
      halted := false;
      output := [];
      this.toNumber := toNumber;
    }

    // -------------------------------------------------------------------
    // load_program
    // -------------------------------------------------------------------

    /**
     * Appends the program's instructions and records its labels, each at
     * the index the next instruction of this call will have.
     */
    method LoadProgram(code: string)
      modifies this
      ensures var r := VmLoad.LoadProgram(code, toNumber, old(labels), old(instructions));
        labels == r.labels && instructions == r.instructions
      ensures State() == old(State())
    {
      var loaded := LoadCode(code, Loaded(labels, instructions, 0), toNumber);
      Install(loaded.labels, loaded.instructions);
    }

    /** Replaces the label table and the instruction list, and nothing else. */
    method Install(newLabels: map<string, nat>, newInstructions: seq<Instruction>)
      modifies this
      ensures labels == newLabels && instructions == newInstructions
      ensures State() == old(State())
    {
      labels, instructions := newLabels, newInstructions;
    }

    /** load_program's work on the text, from the loader state `start`. */
    static method LoadCode(code: string, start: Loaded, toNumber: string -> Option<real>) returns (loaded: Loaded)
      ensures loaded == LoadEntries(Classified(SourceLines(code), toNumber), start)
    {
      loaded := LoadLines(SourceLines(code), start, toNumber);
    }

    /** load_program's loop over the stripped lines, from the loader state `start`. */
    static method LoadLines(lines: seq<string>, start: Loaded, toNumber: string -> Option<real>) returns (loaded: Loaded)
      ensures loaded == LoadEntries(Classified(lines, toNumber), start)
    {
      loaded := start;
      for i := 0 to |lines|
        invariant loaded == LoadEntries(Classified(lines[..i], toNumber), start)
      {
        LoadStep(lines, i, toNumber, start);
        loaded := LoadLine(loaded, lines[i], toNumber);
      }
      assert lines[..|lines|] == lines;
    }

    /** One pass of load_program's loop: skip, record a label, or append an instruction. */
    static method LoadLine(st: Loaded, raw: string, toNumber: string -> Option<real>) returns (next: Loaded)
      ensures next == LoadEntry(st, Classify(raw, toNumber))
    {
      var line := Strip(raw);
      if line == [] || line[0] == '#' {
        ClassifySkip(raw, toNumber);
        next := st;
      } else if StartsWith(line, "LABEL ") {
        ClassifyLabel(raw, toNumber);
        var words := SplitWords(line);
        next := st.(labels := st.labels[words[1] := st.index]);
      } else {
        var ins := ParseInstruction(line, toNumber);
        ClassifyInstr(raw, toNumber);
        LoadInstrEntry(st, Classify(raw, toNumber), ins);
        next := st.(instructions := st.instructions + [ins], index := st.index + 1);
      }
    }

    // -------------------------------------------------------------------
    // Stack access
    // -------------------------------------------------------------------

    method Pop() returns (v: Token)
      requires stack != []
      modifies this
      ensures v == Top(old(State())) && State() == Popped(old(State()))
      ensures labels == old(labels) && instructions == old(instructions)
    {
      v := stack[|stack| - 1];
      stack := stack[..|stack| - 1];
    }

    /** _pop2: the top value and the one under it, or an error with the stack untouched. */
    method Pop2() returns (r: Result<(Token, Token), VmError>)
      modifies this
      ensures var s := old(stack);
        if |s| < 2 then r == Err(StackShort) && State() == old(State())
        else r == Ok((s[|s| - 1], s[|s| - 2])) && State() == old(State()).(stack := s[..|s| - 2])
      ensures labels == old(labels) && instructions == old(instructions)
    {
      if |stack| < 2 {
        return Err(StackShort);
      }
      var b := Pop();
      var a := Pop();
      r := Ok((b, a));
    }

    // -------------------------------------------------------------------
    // _execute_instruction, one group of opcodes at a time
    // -------------------------------------------------------------------

    method DataOp(op: Opcode, operands: seq<Token>, elapsed: real) returns (error: Option<VmError>)
      requires op.IsData()
      modifies this
      ensures Effect(State(), error) == ExecuteData(old(State()), op, operands, toNumber, elapsed)
      ensures labels == old(labels) && instructions == old(instructions)
    {
      error := None;
      match op {
        case PushConst =>
          if operands == [] {
            return Some(MissingOperand(op));
          }
          var v := operands[0];
          if v.Text? {
            match toNumber(v.s) {
              case None => return Some(NotANumber(v));
              case Some(x) => v := Number(x);
            }
          }
          stack := stack + [v];
        case PushStr =>
          if operands == [] {
            return Some(MissingOperand(op));
          }
          stack := stack + [operands[0]];
        case Load =>
          if operands == [] {
            return Some(MissingOperand(op));
          }
          var name := operands[0];
          if name in accounts {
            stack := stack + [accounts[name]];
          } else if name in variables {
            stack := stack + [variables[name]];
          } else {
            return Some(Undefined(name));
          }
        case Store =>
          if stack == [] {
            return Some(StackEmpty(op));
          }
          if operands == [] {
            return Some(MissingOperand(op));
          }
          var name := operands[0];
          var v := Pop();
          if name in accounts {
            accounts := accounts[name := v];
          } else {
            variables := variables[name := v];
          }
        case Neg =>
          if stack == [] {
            return Some(StackEmpty(op));
          }
          var v := Pop();
          if v.Text? {
            return Some(TypeMismatch(op));
          }
          stack := stack + [Number(-v.x)];
        case Not =>
          if stack == [] {
            return Some(StackEmpty(op));
          }
          var v := Pop();
          stack := stack + [if v == Zero then True else False];
        case SensorTempo =>
          stack := stack + [Number(elapsed)];
        case SensorJuros =>
          stack := stack + [Number(InterestRate)];
      }
    }

    /** The arithmetic and comparison opcodes: _pop2, then the operator. */
    method BinaryOp(op: Opcode) returns (error: Option<VmError>)
      requires op.IsBinary()
      modifies this
      ensures Effect(State(), error) == ExecuteBinary(old(State()), op)
      ensures labels == old(labels) && instructions == old(instructions)
    {
      var popped := Pop2();
      match popped {
        case Err(e) =>
          return Some(e);
        case Ok((b, a)) =>
          match Operate(op, a, b) {
            case Ok(v) =>
              stack := stack + [v];
              error := None;
            case Err(e) =>
              error := Some(e);
          }
      }
    }

    /** JMP, and the taken branch of the conditional jumps. */
    method Jump(op: Opcode, operands: seq<Token>) returns (error: Option<VmError>)
      modifies this
      ensures Effect(State(), error) == JumpTo(old(State()), op, operands, labels)
      ensures labels == old(labels) && instructions == old(instructions)
    {
      if operands == [] {
        return Some(MissingOperand(op));
      }
      var target := operands[0];
      if !(target.Text? && target.s in labels) {
        return Some(NoLabel(target));
      }
      pc := (labels[target.s] as int) - 1;
      error := None;
    }

    /** JMP, JMP_IF_TRUE and JMP_IF_FALSE. */
    method JumpOp(op: Opcode, operands: seq<Token>) returns (error: Option<VmError>)
      requires op.IsJump()
      modifies this
      ensures Effect(State(), error) == ExecuteJump(old(State()), op, operands, labels)
      ensures labels == old(labels) && instructions == old(instructions)
    {
      if op == Jmp {
        error := Jump(op, operands);
        return;
      }
      if stack == [] {
        return Some(StackEmpty(op));
      }
      var v := Pop();
      error := None;
      if (v != Zero) == (op == JmpIfTrue) {
        error := Jump(op, operands);
      }
    }

    method BankOp(op: Opcode, operands: seq<Token>) returns (error: Option<VmError>)
      requires op.IsBank()
      modifies this
      ensures Effect(State(), error) == ExecuteBank(old(State()), op, operands)
      ensures labels == old(labels) && instructions == old(instructions)
    {
      error := None;
      if op == AccountInit {
        if operands == [] {
          return Some(MissingOperand(op));
        }
        accounts := accounts[operands[0] := Zero];
        return;
      }
      if stack == [] {
        return Some(StackEmpty(op));
      }
      if operands == [] || (op == Transfer && |operands| < 2) {
        return Some(MissingOperand(op));
      }
      var name := operands[0];
      var amount := Pop();
      if name !in accounts {
        return Some(if op == Transfer then NoSource(name) else NoAccount(name));
      }
      match op {
        case Deposit =>
          error := Credit(name, amount);
        case Withdraw =>
          error := Debit(name, amount);
        case Transfer =>
          var dst := operands[1];
          if dst !in accounts {
            return Some(NoDestination(dst));
          }
          error := Debit(name, amount);
          if error.None? {
            error := Credit(dst, amount);
          }
        case ApplyInterest =>
          match Operate(Mul, accounts[name], amount) {
            case Err(e) =>
              return Some(e);
            case Ok(interest) =>
              error := Credit(name, interest);
          }
      }
    }

    /** accounts[name] += amount. */
    method Credit(name: Token, amount: Token) returns (error: Option<VmError>)
      requires name in accounts
      modifies this
      ensures match Operate(Add, old(accounts)[name], amount)
        case Ok(v) => error.None? && State() == old(State()).(accounts := old(accounts)[name := v])
        case Err(e) => error == Some(e) && State() == old(State())
      ensures labels == old(labels) && instructions == old(instructions)
    {
      match Operate(Add, accounts[name], amount) {
        case Ok(v) =>
          accounts := accounts[name := v];
          error := None;
        case Err(e) =>
          error := Some(e);
      }
    }

    /** accounts[name] -= amount. */
    method Debit(name: Token, amount: Token) returns (error: Option<VmError>)
      requires name in accounts
      modifies this
      ensures match Operate(Sub, old(accounts)[name], amount)
        case Ok(v) => error.None? && State() == old(State()).(accounts := old(accounts)[name := v])
        case Err(e) => error == Some(e) && State() == old(State())
      ensures labels == old(labels) && instructions == old(instructions)
    {
      match Operate(Sub, accounts[name], amount) {
        case Ok(v) =>
          accounts := accounts[name := v];
          error := None;
        case Err(e) =>
          error := Some(e);
      }
    }

    /** HALT, the print instructions, NOP and unknown opcodes. */
    method OtherOp(op: Opcode, operands: seq<Token>) returns (error: Option<VmError>)
      requires !op.IsData() && !op.IsBinary() && !op.IsBank() && !op.IsJump()
      modifies this
      ensures Effect(State(), error) == ExecuteOther(old(State()), op, operands)
      ensures labels == old(labels) && instructions == old(instructions)
    {
      error := None;
      match op {
        case Halt =>
          halted := true;
        case Print =>
          if stack == [] {
            return Some(StackEmpty(op));
          }
          var v := Pop();
          output := output + [Shown(v)];
        case PrintStrLiteral =>
          if operands == [] {
            return Some(MissingOperand(op));
          }
          output := output + [Literal(operands[0])];
        case PrintTop =>
          if stack == [] {
            return Some(StackEmpty(op));
          }
          var v := Pop();
          output := output + [Shown(v)];
        case Nop =>
        case Unknown(name) =>
          error := Some(UnknownInstruction(name));
      }
    }

    /**
     * _execute_instruction on an instruction the loader decoded.
     * `elapsed` is what SENSOR_TEMPO reads from the clock.
     */
    method ExecuteInstruction(ins: Instruction, elapsed: real) returns (error: Option<VmError>)
      modifies this
      ensures Effect(State(), error) == Execute(old(State()), ins, labels, toNumber, elapsed)
      ensures labels == old(labels) && instructions == old(instructions)
    {
      var op := ins.op;
      if op.IsData() {
        error := DataOp(op, ins.operands, elapsed);
      } else if op.IsBinary() {
        error := BinaryOp(op);
      } else if op.IsJump() {
        error := JumpOp(op, ins.operands);
      } else if op.IsBank() {
        error := BankOp(op, ins.operands);
      } else {
        error := OtherOp(op, ins.operands);
      }
    }

    // -------------------------------------------------------------------
    // run
    // -------------------------------------------------------------------

    /**
     * run, for at most `fuel` iterations: pc restarts at 0 and the halt
     * flag is cleared; the loop stops when pc leaves the program, HALT has
     * run, or an instruction raised.
     */
    method Run(elapsed: real, fuel: nat) returns (outcome: Outcome)
      modifies this
      ensures outcome == VmSpec.Run(old(State()), instructions, labels, toNumber, elapsed, fuel)
      ensures State() == outcome.m
      ensures labels == old(labels) && instructions == old(instructions)
    {
      pc := 0;
      halted := false;
      var steps: nat := 0;
      while pc < |instructions| && !halted
        invariant pc >= 0 && steps <= fuel
        invariant labels == old(labels) && instructions == old(instructions)
        invariant RunFrom(State(), instructions, labels, toNumber, elapsed, fuel - steps)
          == VmSpec.Run(old(State()), instructions, labels, toNumber, elapsed, fuel)
        decreases fuel - steps
      {
        if steps == fuel {
          return OutOfFuel(State());
        }
        ghost var before := State();
        assert RunFrom(before, instructions, labels, toNumber, elapsed, fuel - steps)
          == Advance(before, instructions, labels, toNumber, elapsed, fuel - steps);
        var error := StepOnce(elapsed);
        if error.Some? {
          return Failed(State(), error.value);
        }
        steps := steps + 1;
      }
      outcome := Finished(State());
    }

    /** One iteration of run's loop: the instruction at pc, then pc += 1 unless it raised. */
    method StepOnce(elapsed: real) returns (error: Option<VmError>)
      requires 0 <= pc < |instructions|
      modifies this
      ensures labels == old(labels) && instructions == old(instructions)
      ensures Effect(State(), error) == Step(old(State()), instructions, labels, toNumber, elapsed)
      ensures error.None? ==> pc >= 0
    {
      ghost var before := State();
      var ins := instructions[pc];
      ExecutePcBound(before, ins, labels, toNumber, elapsed);
      error := ExecuteInstruction(ins, elapsed);
      if error.None? {
        pc := pc + 1;
      }
    }
  }
}
