/**
 * What the code generator (src/codegen.c) computes, as pure state
 * transformers.
 *
 * A `Gen` value is the generator's whole observable state: the lines
 * written so far, the label counter, the latched first error and the
 * symbol table, abstracted to a map from name to "is an account". Every
 * emit_* routine becomes a function from the state before to the state
 * after; the class in module Codegen is proved to follow them. Routines
 * that the C guards with `has_error` return their input unchanged when an
 * error is latched.
 */
module CodegenSpec {
  import opened Wrappers
  import opened Ast
  import opened Assembly

  /** The two errors the generator reports (the message text is not modelled). */
  datatype Diagnostic = AlreadyDeclared(name: string) | NotAnAccount(name: string)

  datatype Gen = Gen(out: seq<AsmLine>, counter: nat, error: Option<Diagnostic>, table: map<string, bool>)

  const Header: AsmLine := Comment(" BankVM assembly generated by MoneyLang compiler")
  const Halt: AsmLine := Instr("HALT", [])

  function Op(opcode: string, name: string): AsmLine
  {
    Instr(opcode, [Word(name)])
  }

  function Nullary(opcode: string): AsmLine
  {
    Instr(opcode, [])
  }

  function BinaryOpcode(op: BinaryOp): string
  {
    match op
    case Add => "ADD"
    case Sub => "SUB"
    case Mul => "MUL"
    case Div => "DIV"
    case Mod => "MOD"
    case Eq => "CMP_EQ"
    case Neq => "CMP_NE"
    case Lt => "CMP_LT"
    case Gt => "CMP_GT"
    case Le => "CMP_LE"
    case Ge => "CMP_GE"
  }

  function UnaryOpcode(op: UnaryOp): string
  {
    if op == Negate then "NEG" else "NOT"
  }

  function SensorOpcode(k: SensorKind): string
  {
    if k == Tempo then "SENSOR_TEMPO" else "SENSOR_JUROS"
  }

  /** Distinct operators get distinct opcodes. */
  lemma BinaryOpcodeInjective(a: BinaryOp, b: BinaryOp)
    requires BinaryOpcode(a) == BinaryOpcode(b)
    ensures a == b
  {
  }

  // ---------------------------------------------------------------------
  // Primitive steps: emit_line, codegen_error, ensure_symbol, ensure_account
  // ---------------------------------------------------------------------

  /** emit_line: writes only while no error is latched. */
  function Emit(g: Gen, line: AsmLine): Gen
  {
    if g.error.Some? then g else g.(out := g.out + [line])
  }

  /** codegen_error: only the first error is recorded. */
  function Fail(g: Gen, d: Diagnostic): Gen
  {
    if g.error.Some? then g else g.(error := Some(d))
  }

  /** ensure_symbol: add the name, or upgrade it to an account. */
  function Ensure(t: map<string, bool>, name: string, isAccount: bool): map<string, bool>
  {
    if name !in t then t[name := isAccount]
    else if isAccount && !t[name] then t[name := true]
    else t
  }

  /** The test ensure_account makes: the name is known and is an account. */
  predicate IsAccount(t: map<string, bool>, name: string)
  {
    name in t && t[name]
  }

  /** Only the first error is kept: later ones change nothing. */
  lemma FirstErrorWins(g: Gen, d1: Diagnostic, d2: Diagnostic)
    ensures Fail(g, d1).error.Some? && Fail(Fail(g, d1), d2) == Fail(g, d1)
    ensures g.error.Some? ==> Fail(g, d1) == g
    ensures g.error.None? ==> Fail(g, d1) == g.(error := Some(d1))
  {
  }

  /**
   * ensure_symbol leaves the name known, an account if it was one or is
   * registered as one, and every other name as it was.
   */
  lemma EnsureNeverDowngrades(t: map<string, bool>, name: string, isAccount: bool)
    ensures var r := Ensure(t, name, isAccount);
      && r.Keys == t.Keys + {name}
      && r[name] == (isAccount || IsAccount(t, name))
      && forall n :: n in t && n != name ==> r[n] == t[n]
  {
  }

  // ---------------------------------------------------------------------
  // Expressions
  // ---------------------------------------------------------------------

  /** emit_expression */
  function GenExpr(e: Expr, g: Gen): Gen
    decreases e
  {
    if g.error.Some? then g
    else match e
      case Number(x) => Emit(g, Instr("PUSH_CONST", [Num(x)]))
      case Identifier(n) => Emit(g.(table := Ensure(g.table, n, false)), Op("LOAD", n))
      case Sensor(k) => Emit(g, Nullary(SensorOpcode(k)))
      case Unary(op, a) => Emit(GenExpr(a, g), Nullary(UnaryOpcode(op)))
      case Binary(op, l, r) => Emit(GenExpr(r, GenExpr(l, g)), Nullary(BinaryOpcode(op)))
  }

  /** Reference: the postfix (reverse Polish) code of an expression. */
  function ExprCode(e: Expr): seq<AsmLine>
  {
    match e
    case Number(x) => [Instr("PUSH_CONST", [Num(x)])]
    case Identifier(n) => [Op("LOAD", n)]
    case Sensor(k) => [Nullary(SensorOpcode(k))]
    case Unary(op, a) => ExprCode(a) + [Nullary(UnaryOpcode(op))]
    case Binary(op, l, r) => ExprCode(l) + ExprCode(r) + [Nullary(BinaryOpcode(op))]
  }

  /** The identifiers an expression mentions. */
  function Names(e: Expr): set<string>
  {
    match e
    case Number(_) => {}
    case Identifier(n) => {n}
    case Sensor(_) => {}
    case Unary(_, a) => Names(a)
    case Binary(_, l, r) => Names(l) + Names(r)
  }

  /**
   * Every name the expression mentions is known afterwards; names not
   * mentioned are untouched; nothing already known changes kind, and a
   * name seen for the first time is registered as a plain variable.
   */
  predicate RegistersNames(t: map<string, bool>, names: set<string>, r: map<string, bool>)
  {
    && r.Keys == t.Keys + names
    && (forall n :: n in t ==> r[n] == t[n])
    && (forall n :: n in r && n !in t ==> !r[n])
  }

  /**
   * Generating an expression appends exactly its postfix code, registers
   * its identifiers, never raises an error and allocates no label.
   */
  lemma {:induction false} GenExprAppendsCode(e: Expr, g: Gen)
    requires g.error.None?
    ensures GenExpr(e, g).out == g.out + ExprCode(e)
    ensures GenExpr(e, g).error.None? && GenExpr(e, g).counter == g.counter
    ensures RegistersNames(g.table, Names(e), GenExpr(e, g).table)
  {
    match e
    case Number(_) =>
    case Identifier(_) =>
    case Sensor(_) =>
    case Unary(op, a) =>
      GenExprAppendsCode(a, g);
    case Binary(op, l, r) =>
      GenExprAppendsCode(l, g);
      GenExprAppendsCode(r, GenExpr(l, g));
      assert g.out + ExprCode(l) + ExprCode(r) + [Nullary(BinaryOpcode(op))] == g.out + ExprCode(e);
  }

  // ---------------------------------------------------------------------
  // Statements
  // ---------------------------------------------------------------------

  /** emit_statement: nothing happens once an error is latched. */
  function GenStmt(s: Stmt, g: Gen): Gen
    decreases s, 1
  {
    if g.error.Some? then g
    else match s
      case VarDecl(name, e) => GenVarDecl(name, e, g)
      case Assignment(name, e) =>
        Emit(GenExpr(e, g.(table := Ensure(g.table, name, false))), Op("STORE", name))
      case If(_, _, _) => GenIf(s, g)
      case While(_, _) => GenWhile(s, g)
      case CommandStmt(c) => GenCommand(c, g)
  }

  /**
   * emit_var_decl: a name already in the table, whether declared or only
   * used, cannot be declared.
   */
  function GenVarDecl(name: string, e: Expr, g: Gen): Gen
  {
    if name in g.table then Fail(g, AlreadyDeclared(name))
    else
      var g1 := Emit(g.(table := Ensure(g.table, name, true)), Op("ACCOUNT_INIT", name));
      Emit(GenExpr(e, g1), Op("STORE", name))
  }

  /**
   * emit_if: two labels are always taken from the counter, so the pair is
   * else_n / endif_(n+1); the else label is only written when there is an
   * else branch.
   */
  function GenIf(s: Stmt, g: Gen): Gen
    requires s.If?
    decreases s, 0
  {
    var elseLabel := Label("else", g.counter);
    var endLabel := Label("endif", g.counter + 1);
    var g1 := GenExpr(s.condition, g.(counter := g.counter + 2));
    var g2 := Emit(g1, Op("JMP_IF_FALSE", if s.elseBranch.Else? then elseLabel else endLabel));
    var g3 := GenList(s.thenBranch, g2);
    var g4 :=
      if s.elseBranch.Else? then
        GenList(s.elseBranch.stmts, Emit(Emit(g3, Op("JMP", endLabel)), Op("LABEL", elseLabel)))
      else g3;
    Emit(g4, Op("LABEL", endLabel))
  }

  /** GenIf assembled from the states after the condition, the then branch and the else part. */
  lemma GenIfSteps(s: Stmt, g: Gen, g1: Gen, g3: Gen, g4: Gen)
    requires s.If?
    requires g1 == GenExpr(s.condition, g.(counter := g.counter + 2))
    requires g3 == GenList(s.thenBranch,
      Emit(g1, Op("JMP_IF_FALSE", if s.elseBranch.Else? then Label("else", g.counter) else Label("endif", g.counter + 1))))
    requires g4 == if s.elseBranch.Else? then
        GenList(s.elseBranch.stmts, Emit(Emit(g3, Op("JMP", Label("endif", g.counter + 1))), Op("LABEL", Label("else", g.counter))))
      else g3
    ensures GenIf(s, g) == Emit(g4, Op("LABEL", Label("endif", g.counter + 1)))
  {
  }

  /** emit_while: labels loop_n / endloop_(n+1). */
  function GenWhile(s: Stmt, g: Gen): Gen
    requires s.While?
    decreases s, 0
  {
    var startLabel := Label("loop", g.counter);
    var endLabel := Label("endloop", g.counter + 1);
    var g1 := Emit(g.(counter := g.counter + 2), Op("LABEL", startLabel));
    var g2 := Emit(GenExpr(s.condition, g1), Op("JMP_IF_FALSE", endLabel));
    var g3 := GenList(s.body, g2);
    Emit(Emit(g3, Op("JMP", startLabel)), Op("LABEL", endLabel))
  }

  /** The accounts a banking command names, in the order they are checked. */
  function CommandAccounts(c: Command): seq<string>
  {
    match c
    case Deposit(a, _) => [a]
    case Withdraw(a, _) => [a]
    case Transfer(f, t, _) => [f, t]
    case Interest(a, _) => [a]
    case Print(_) => []
  }

  /** emit_command: each account is checked before any code is written. */
  function GenCommand(c: Command, g: Gen): Gen
  {
    match c
    case Deposit(a, e) =>
      if !IsAccount(g.table, a) then Fail(g, NotAnAccount(a))
      else Emit(GenExpr(e, g), Op("DEPOSIT", a))
    case Withdraw(a, e) =>
      if !IsAccount(g.table, a) then Fail(g, NotAnAccount(a))
      else Emit(GenExpr(e, g), Op("WITHDRAW", a))
    case Transfer(f, t, e) =>
      if !IsAccount(g.table, f) then Fail(g, NotAnAccount(f))
      else if !IsAccount(g.table, t) then Fail(g, NotAnAccount(t))
      else Emit(GenExpr(e, g), Instr("TRANSFER", [Word(f), Word(t)]))
    case Interest(a, e) =>
      if !IsAccount(g.table, a) then Fail(g, NotAnAccount(a))
      else Emit(GenExpr(e, g), Op("APPLY_INTEREST", a))
    case Print(args) => GenPrintArgs(args, g)
  }

  /** The line a string argument becomes; it is written directly, past the latch. */
  function StringLine(text: string): AsmLine
  {
    Instr("PRINT_STR_LITERAL", [Quoted(Escape(text))])
  }

  /** One iteration of emit_print_args. */
  function GenPrintArg(a: PrintArg, g: Gen): Gen
  {
    match a
    case StringArg(text) => g.(out := g.out + [StringLine(text)])
    case ExprArg(e) => Emit(GenExpr(e, g), Nullary("PRINT"))
  }

  /** emit_print_args: the arguments in order. */
  function GenPrintArgs(args: seq<PrintArg>, g: Gen): Gen
  {
    if args == [] then g else GenPrintArg(args[|args| - 1], GenPrintArgs(args[..|args| - 1], g))
  }

  /** emit_statement_list: the statements in order. */
  function GenList(stmts: seq<Stmt>, g: Gen): Gen
    decreases stmts, 1
  {
    if stmts == [] then g else GenStmt(stmts[|stmts| - 1], GenList(stmts[..|stmts| - 1], g))
  }

  /** generate_assembly on a non-NULL program, written after `prior`. */
  function Generate(p: Program, prior: seq<AsmLine>): Gen
  {
    Emit(GenList(p.statements, Emit(Gen(prior, 0, None, map[]), Header)), Halt)
  }

  /** The value generate_assembly returns. */
  function Status(g: Gen): int
  {
    if g.error.Some? then 1 else 0
  }

  // ---------------------------------------------------------------------
  // The generator only moves forward
  // ---------------------------------------------------------------------

  /**
   * r is a later state than g: the output only grows, the label counter
   * never goes back, known names stay known and accounts stay accounts; and
   * once an error is latched nothing changes at all.
   */
  ghost predicate Extends(g: Gen, r: Gen)
  {
    && g.out <= r.out
    && g.counter <= r.counter
    && (g.error.Some? ==> r == g)
    && g.table.Keys <= r.table.Keys
    && (forall n :: IsAccount(g.table, n) ==> IsAccount(r.table, n))
  }

  lemma ExtendsTransitive(a: Gen, b: Gen, c: Gen)
    requires Extends(a, b) && Extends(b, c)
    ensures Extends(a, c)
  {
  }

  /** How many `if` and `while` statements a statement contains, itself included. */
  function Controls(s: Stmt): nat
    decreases s, 1
  {
    match s
    case If(_, thenBranch, elseBranch) =>
      1 + ControlsList(thenBranch) + (if elseBranch.Else? then ControlsList(elseBranch.stmts) else 0)
    case While(_, body) => 1 + ControlsList(body)
    case _ => 0
  }

  function ControlsList(stmts: seq<Stmt>): nat
    decreases stmts, 0
  {
    if stmts == [] then 0 else ControlsList(stmts[..|stmts| - 1]) + Controls(stmts[|stmts| - 1])
  }

  lemma ExprExtends(e: Expr, g: Gen)
    ensures Extends(g, GenExpr(e, g))
  {
    if g.error.None? {
      GenExprAppendsCode(e, g);
    }
  }

  lemma PrintArgsExtend(args: seq<PrintArg>, g: Gen)
    requires g.error.None?
    ensures Extends(g, GenPrintArgs(args, g)) && GenPrintArgs(args, g).error.None?
    ensures GenPrintArgs(args, g).counter == g.counter
  {
    if args != [] {
      var g0 := GenPrintArgs(args[..|args| - 1], g);
      PrintArgsExtend(args[..|args| - 1], g);
      match args[|args| - 1]
      case StringArg(_) =>
      case ExprArg(e) =>
        GenExprAppendsCode(e, g0);
    }
  }

  lemma CommandExtends(c: Command, g: Gen)
    requires g.error.None?
    ensures Extends(g, GenCommand(c, g))
    ensures GenCommand(c, g).counter == g.counter
  {
    match c
    case Print(args) => PrintArgsExtend(args, g);
    case Deposit(_, e) => GenExprAppendsCode(e, g);
    case Withdraw(_, e) => GenExprAppendsCode(e, g);
    case Transfer(_, _, e) => GenExprAppendsCode(e, g);
    case Interest(_, e) => GenExprAppendsCode(e, g);
  }

  /**
   * Each statement moves the generator forward, and on success it has used
   * exactly two labels for every `if` and `while` it contains.
   */
  lemma {:induction false} StmtExtends(s: Stmt, g: Gen)
    ensures Extends(g, GenStmt(s, g))
    ensures GenStmt(s, g).error.None? ==> GenStmt(s, g).counter == g.counter + 2 * Controls(s)
    decreases s, 1
  {
    if g.error.None? {
      match s
      case VarDecl(name, e) =>
        if name !in g.table {
          var g1 := Emit(g.(table := Ensure(g.table, name, true)), Op("ACCOUNT_INIT", name));
          GenExprAppendsCode(e, g1);
        }
      case Assignment(name, e) =>
        GenExprAppendsCode(e, g.(table := Ensure(g.table, name, false)));
      case If(_, _, _) => IfExtends(s, g);
      case While(_, _) => WhileExtends(s, g);
      case CommandStmt(c) => CommandExtends(c, g);
    }
  }

  lemma {:induction false} IfExtends(s: Stmt, g: Gen)
    requires s.If? && g.error.None?
    ensures Extends(g, GenIf(s, g))
    ensures GenIf(s, g).error.None? ==> GenIf(s, g).counter == g.counter + 2 * Controls(s)
    decreases s, 0
  {
    var elseLabel := Label("else", g.counter);
    var endLabel := Label("endif", g.counter + 1);
    var g1 := GenExpr(s.condition, g.(counter := g.counter + 2));
    assert Extends(g, g1) && (g1.error.None? ==> g1.counter == g.counter + 2) by {
      GenExprAppendsCode(s.condition, g.(counter := g.counter + 2));
    }
    var g2 := Emit(g1, Op("JMP_IF_FALSE", if s.elseBranch.Else? then elseLabel else endLabel));
    var g3 := GenList(s.thenBranch, g2);
    var n := g.counter + 2 + 2 * ControlsList(s.thenBranch);
    assert Extends(g, g3) && (g3.error.None? ==> g3.counter == n) by {
      ListExtends(s.thenBranch, g2);
      ExtendsTransitive(g, g2, g3);
    }
    var g4 := g3;
    if s.elseBranch.Else? {
      var g5 := Emit(Emit(g3, Op("JMP", endLabel)), Op("LABEL", elseLabel));
      g4 := GenList(s.elseBranch.stmts, g5);
      assert Extends(g, g4) && (g4.error.None? ==> g4.counter == n + 2 * ControlsList(s.elseBranch.stmts)) by {
        ListExtends(s.elseBranch.stmts, g5);
        ExtendsTransitive(g, g5, g4);
      }
    }
    GenIfSteps(s, g, g1, g3, g4);
  }

  lemma {:induction false} WhileExtends(s: Stmt, g: Gen)
    requires s.While? && g.error.None?
    ensures Extends(g, GenWhile(s, g))
    ensures GenWhile(s, g).error.None? ==> GenWhile(s, g).counter == g.counter + 2 * Controls(s)
    decreases s, 0
  {
    var startLabel := Label("loop", g.counter);
    var endLabel := Label("endloop", g.counter + 1);
    var g1 := Emit(g.(counter := g.counter + 2), Op("LABEL", startLabel));
    GenExprAppendsCode(s.condition, g1);
    var g2 := Emit(GenExpr(s.condition, g1), Op("JMP_IF_FALSE", endLabel));
    var g3 := GenList(s.body, g2);
    ListExtends(s.body, g2);
    ExtendsTransitive(g, g2, g3);
  }

  lemma {:induction false} ListExtends(stmts: seq<Stmt>, g: Gen)
    ensures Extends(g, GenList(stmts, g))
    ensures GenList(stmts, g).error.None? ==> GenList(stmts, g).counter == g.counter + 2 * ControlsList(stmts)
    decreases stmts, 1
  {
    if stmts != [] {
      var init := stmts[..|stmts| - 1];
      var g0 := GenList(init, g);
      ListExtends(init, g);
      StmtExtends(stmts[|stmts| - 1], g0);
      ExtendsTransitive(g, g0, GenList(stmts, g));
    }
  }

  // ---------------------------------------------------------------------
  // What single statements and commands produce
  // ---------------------------------------------------------------------

  /**
   * A declaration succeeds exactly when the name is not in the table yet.
   * On success the name becomes an account and the lines are ACCOUNT_INIT,
   * the initialiser's code and STORE; on failure nothing is written.
   */
  lemma VarDeclOutcome(x: string, e: Expr, g: Gen)
    requires g.error.None?
    ensures x in g.table ==> GenStmt(VarDecl(x, e), g) == g.(error := Some(AlreadyDeclared(x)))
    ensures x !in g.table ==>
      var r := GenStmt(VarDecl(x, e), g);
      && r.error.None? && IsAccount(r.table, x) && r.counter == g.counter
      && r.out == g.out + [Op("ACCOUNT_INIT", x)] + ExprCode(e) + [Op("STORE", x)]
  {
    if x !in g.table {
      var g1 := Emit(g.(table := Ensure(g.table, x, true)), Op("ACCOUNT_INIT", x));
      GenExprAppendsCode(e, g1);
    }
  }

  /**
   * An assignment never fails; it writes the expression's code and STORE,
   * and leaves the kind of an already known name alone.
   */
  lemma AssignmentOutcome(x: string, e: Expr, g: Gen)
    requires g.error.None?
    ensures var r := GenStmt(Assignment(x, e), g);
      && r.error.None? && r.counter == g.counter
      && r.out == g.out + ExprCode(e) + [Op("STORE", x)]
      && x in r.table && (x in g.table ==> r.table[x] == g.table[x])
  {
    GenExprAppendsCode(e, g.(table := Ensure(g.table, x, false)));
  }

  /**
   * Because emit_var_decl rejects any name already in the table, a name that
   * has been assigned before can never be declared afterwards.
   */
  lemma AssignedNameCannotBeDeclared(x: string, e1: Expr, e2: Expr, g: Gen)
    requires g.error.None?
    ensures GenList([Assignment(x, e1), VarDecl(x, e2)], g).error == Some(AlreadyDeclared(x))
  {
    var stmts := [Assignment(x, e1), VarDecl(x, e2)];
    assert stmts[..1] == [Assignment(x, e1)];
    assert stmts[..1][..0] == [];
    var g1 := GenStmt(Assignment(x, e1), g);
    assert GenList(stmts[..1], g) == g1;
    AssignmentOutcome(x, e1, g);
    VarDeclOutcome(x, e2, g1);
    assert GenList(stmts, g) == GenStmt(VarDecl(x, e2), g1);
  }

  /** The amount or rate expression of a banking command. */
  function Amount(c: Command): Expr
    requires !c.Print?
  {
    match c
    case Deposit(_, e) => e
    case Withdraw(_, e) => e
    case Transfer(_, _, e) => e
    case Interest(_, e) => e
  }

  function CommandOpcode(c: Command): string
    requires !c.Print?
  {
    match c
    case Deposit(_, _) => "DEPOSIT"
    case Withdraw(_, _) => "WITHDRAW"
    case Transfer(_, _, _) => "TRANSFER"
    case Interest(_, _) => "APPLY_INTEREST"
  }

  function Words(names: seq<string>): seq<Operand>
  {
    if names == [] then [] else [Word(names[0])] + Words(names[1..])
  }

  lemma WordsOne(a: string)
    ensures Words([a]) == [Word(a)]
  {
    assert [a][1..] == [];
  }

  lemma WordsTwo(a: string, b: string)
    ensures Words([a, b]) == [Word(a), Word(b)]
  {
    assert [a, b][1..] == [b];
    WordsOne(b);
  }

  /**
   * A banking command compiles exactly when every account it names is a
   * declared account; the error names the first one that is not, and
   * nothing is written for a rejected command.
   */
  lemma BankingCommandOutcome(c: Command, g: Gen)
    requires g.error.None? && !c.Print?
    ensures var r := GenCommand(c, g);
      && ((forall a :: a in CommandAccounts(c) ==> IsAccount(g.table, a)) <==> r.error.None?)
      && (r.error.None? ==> r.out == g.out + ExprCode(Amount(c)) + [Instr(CommandOpcode(c), Words(CommandAccounts(c)))])
      && (r.error.Some? ==>
            && r.out == g.out
            && exists i :: 0 <= i < |CommandAccounts(c)| && r.error == Some(NotAnAccount(CommandAccounts(c)[i]))
                 && !IsAccount(g.table, CommandAccounts(c)[i])
                 && forall j :: 0 <= j < i ==> IsAccount(g.table, CommandAccounts(c)[j]))
  {
    GenExprAppendsCode(Amount(c), g);
    var accounts := CommandAccounts(c);
    var r := GenCommand(c, g);
    if c.Transfer? {
      WordsTwo(c.fromAccount, c.toAccount);
    } else {
      WordsOne(accounts[0]);
    }
    if r.error.Some? {
      if c.Transfer? && IsAccount(g.table, c.fromAccount) {
        assert r.error == Some(NotAnAccount(accounts[1]));
      } else {
        assert r.error == Some(NotAnAccount(accounts[0]));
      }
    }
  }

  /** The lines one print argument becomes. */
  function PrintArgCode(a: PrintArg): seq<AsmLine>
  {
    if a.StringArg? then [StringLine(a.text)] else ExprCode(a.expression) + [Nullary("PRINT")]
  }

  /** The lines a list of print arguments becomes, in order. */
  function PrintCode(args: seq<PrintArg>): seq<AsmLine>
  {
    if args == [] then [] else PrintCode(args[..|args| - 1]) + PrintArgCode(args[|args| - 1])
  }

  /** One print argument never fails: a literal is one line, an expression its code and PRINT. */
  lemma PrintArgOutcome(a: PrintArg, g: Gen)
    requires g.error.None?
    ensures GenPrintArg(a, g).error.None?
    ensures GenPrintArg(a, g).out == g.out + PrintArgCode(a)
  {
    if a.ExprArg? {
      GenExprAppendsCode(a.expression, g);
    }
  }

  /** A print command never fails and writes each argument's lines in order. */
  lemma {:induction false} PrintOutcome(args: seq<PrintArg>, g: Gen)
    requires g.error.None?
    ensures GenPrintArgs(args, g).error.None?
    ensures GenPrintArgs(args, g).out == g.out + PrintCode(args)
  {
    if args != [] {
      var init, last := args[..|args| - 1], args[|args| - 1];
      PrintOutcome(init, g);
      var g0 := GenPrintArgs(init, g);
      PrintArgOutcome(last, g0);
      assert GenPrintArgs(args, g) == GenPrintArg(last, g0);
    }
  }

  // ---------------------------------------------------------------------
  // The whole program
  // ---------------------------------------------------------------------

  /**
   * generate_assembly writes the header first and, when it succeeds
   * (status 0), HALT last.
   */
  lemma GenerateShape(p: Program, prior: seq<AsmLine>)
    ensures var r := Generate(p, prior);
      && prior <= r.out && |r.out| > |prior| && r.out[|prior|] == Header
      && (Status(r) == 0 <==> r.error.None?)
      && (r.error.None? ==> r.out[|r.out| - 1] == Halt && Status(r) == 0)
      && (r.error.Some? ==> Status(r) == 1)
  {
    var g0 := Emit(Gen(prior, 0, None, map[]), Header);
    ListExtends(p.statements, g0);
  }

  /** A one-statement example: `if` with an else branch uses else_0 and endif_1. */
  lemma IfElseLabelsExample()
    ensures Generate(Program([If(Number(1.0), [], Else([]))]), []).out ==
      [ Header
      , Instr("PUSH_CONST", [Num(1.0)])
      , Op("JMP_IF_FALSE", "else_0")
      , Op("JMP", "endif_1")
      , Op("LABEL", "else_0")
      , Op("LABEL", "endif_1")
      , Halt ]
  {
    var stmts := [If(Number(1.0), [], Else([]))];
    assert stmts[..0] == [];
    assert Label("else", 0) == "else_0";
    assert Label("endif", 1) == "endif_1";
  }

  /** A `while` uses loop_0 and endloop_1. */
  lemma WhileLabelsExample()
    ensures Generate(Program([While(Number(0.0), [])]), []).out ==
      [ Header
      , Op("LABEL", "loop_0")
      , Instr("PUSH_CONST", [Num(0.0)])
      , Op("JMP_IF_FALSE", "endloop_1")
      , Op("JMP", "loop_0")
      , Op("LABEL", "endloop_1")
      , Halt ]
  {
    var stmts := [While(Number(0.0), [])];
    assert stmts[..0] == [];
    assert Label("loop", 0) == "loop_0";
    assert Label("endloop", 1) == "endloop_1";
  }
}
