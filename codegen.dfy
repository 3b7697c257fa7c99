/**
 * The code generator of src/codegen.c as an object that changes step by
 * step: a CodegenContext holding the output stream, the label counter, the
 * error latch and the symbol table, with one method per C routine. Each
 * method is proved to move the context exactly as the matching function of
 * module CodegenSpec moves a `Gen` value, so every property proved there
 * holds of the imperative generator.
 */
module Codegen {
  import opened Wrappers
  import opened Ast
  import opened Assembly
  import opened CodegenSpec

  /** One entry of the symbol table. */
  datatype Symbol = Symbol(name: string, isAccount: bool)

  /** No name appears twice in the table. */
  predicate DistinctNames(syms: seq<Symbol>)
  {
    forall i, j :: 0 <= i < j < |syms| ==> syms[i].name != syms[j].name
  }

  /** What a symbol table means: each name mapped to its kind. */
  function Table(syms: seq<Symbol>): map<string, bool>
  {
    if syms == [] then map[]
    else Table(syms[..|syms| - 1])[syms[|syms| - 1].name := syms[|syms| - 1].isAccount]
  }

  /**
   * With distinct names, the map holds exactly the table's names, each
   * with the kind its entry records.
   */
  lemma {:induction false} TableLookup(syms: seq<Symbol>)
    requires DistinctNames(syms)
    ensures forall i :: 0 <= i < |syms| ==> syms[i].name in Table(syms) && Table(syms)[syms[i].name] == syms[i].isAccount
    ensures forall n :: n in Table(syms) ==> exists i :: 0 <= i < |syms| && syms[i].name == n
  {
    if syms != [] {
      var init := syms[..|syms| - 1];
      assert DistinctNames(init);
      TableLookup(init);
      forall n | n in Table(syms)
        ensures exists i :: 0 <= i < |syms| && syms[i].name == n
      {
        if n != syms[|syms| - 1].name {
          assert n in Table(init);
          var i :| 0 <= i < |init| && init[i].name == n;
          assert syms[i].name == n;
        }
      }
    }
  }

  /** Turning an entry into an account changes only that name in the map. */
  lemma {:induction false} TableUpgrade(syms: seq<Symbol>, k: nat)
    requires DistinctNames(syms) && k < |syms|
    ensures Table(syms[k := syms[k].(isAccount := true)]) == Table(syms)[syms[k].name := true]
  {
    var last := |syms| - 1;
    var init := syms[..last];
    var upd := syms[k := syms[k].(isAccount := true)];
    if k == last {
      assert upd[..last] == init;
    } else {
      assert DistinctNames(init);
      TableUpgrade(init, k);
      assert upd[..last] == init[k := init[k].(isAccount := true)];
      assert syms[last].name != syms[k].name;
    }
  }

  /** The FILE* the generator writes to, seen as the lines written so far. */
  class Sink {
    var lines: seq<AsmLine>

    constructor (lines: seq<AsmLine>)
      ensures this.lines == lines
    {
      this.lines := lines;
    }

    /** Writes one whole line. */
    method Put(line: AsmLine)
      modifies this
      ensures lines == old(lines) + [line]
    {
      lines := lines + [line];
    }
  }

  class CodegenContext {
    const out: Sink
    var labelCounter: nat
    var hasError: bool
    /** The message codegen_error prints, kept as a value. */
    var diagnostic: Option<Diagnostic>
    var symbols: seq<Symbol>

    predicate Valid()
      reads this
    {
      hasError == diagnostic.Some? && DistinctNames(symbols)
    }

    /** The context as the state the functions of CodegenSpec transform. */
    function State(): Gen
      reads this, out
    {
      Gen(out.lines, labelCounter, diagnostic, Table(symbols))
    }

    /** The context generate_assembly sets up: counter 0, no error, empty table. */
    constructor (out: Sink)
      ensures Valid() && this.out == out
      ensures State() == Gen(out.lines, 0, None, map[])
    {
      this.out := out;
      labelCounter := 0;
      hasError := false;
      diagnostic := None;
      symbols := [];
    }

    /** symbol_table_find: the first entry with the given name, if any. */
    method FindSymbol(name: string) returns (found: Option<nat>)
      requires Valid()
      ensures found.Some? ==> found.value < |symbols| && symbols[found.value].name == name
      ensures found.None? ==> forall i :: 0 <= i < |symbols| ==> symbols[i].name != name
      ensures found.Some? <==> name in Table(symbols)
      ensures found.Some? ==> Table(symbols)[name] == symbols[found.value].isAccount
    {
      TableLookup(symbols);
      for i := 0 to |symbols|
        invariant forall j :: 0 <= j < i ==> symbols[j].name != name
      {
        if symbols[i].name == name {
          return Some(i);
        }
      }
      return None;
    }

    /** symbol_table_add: appends an entry for a name not yet in the table. */
    method AddSymbol(name: string, isAccount: bool)
      requires Valid() && name !in Table(symbols)
      modifies this
      ensures Valid() && symbols == old(symbols) + [Symbol(name, isAccount)]
      ensures Table(symbols) == old(Table(symbols))[name := isAccount]
      ensures labelCounter == old(labelCounter) && hasError == old(hasError) && diagnostic == old(diagnostic)
    {
      TableLookup(symbols);
      symbols := symbols + [Symbol(name, isAccount)];
      assert symbols[..|symbols| - 1] == old(symbols);
    }

    /** codegen_error: latches the first error only. */
    method CodegenError(d: Diagnostic)
      requires Valid()
      modifies this
      ensures Valid() && State() == Fail(old(State()), d)
    {
      if hasError {
        return;
      }
      hasError := true;
      diagnostic := Some(d);
    }

    /** create_label: prefix_n with n the counter, which then moves on. */
    method CreateLabel(prefix: string) returns (created: string)
      requires Valid()
      modifies this
      ensures Valid() && created == Label(prefix, old(labelCounter))
      ensures State() == old(State()).(counter := old(labelCounter) + 1)
    {
      created := Label(prefix, labelCounter);
      labelCounter := labelCounter + 1;
    }

    /** emit_line: writes the line unless an error is latched. */
    method EmitLine(line: AsmLine)
      requires Valid()
      modifies this, out
      ensures Valid() && State() == Emit(old(State()), line)
    {
      if hasError {
        return;
      }
      out.Put(line);
    }

    /** ensure_symbol: registers the name, or upgrades it to an account. */
    method EnsureSymbol(name: string, isAccount: bool)
      requires Valid()
      modifies this
      ensures Valid() && State() == old(State()).(table := Ensure(old(State()).table, name, isAccount))
    {
      var found := FindSymbol(name);
      if found.None? {
        AddSymbol(name, isAccount);
      } else if isAccount && !symbols[found.value].isAccount {
        TableUpgrade(symbols, found.value);
        symbols := symbols[found.value := symbols[found.value].(isAccount := true)];
      }
    }

    /** ensure_account: fails, and latches an error, unless the name is an account. */
    method EnsureAccount(name: string) returns (ok: bool)
      requires Valid()
      modifies this
      ensures Valid() && ok == IsAccount(old(State()).table, name)
      ensures State() == if ok then old(State()) else Fail(old(State()), NotAnAccount(name))
    {
      var found := FindSymbol(name);
      if found.None? || !symbols[found.value].isAccount {
        CodegenError(NotAnAccount(name));
        return false;
      }
      return true;
    }

    /** emit_expression */
    method EmitExpression(e: Expr)
      requires Valid()
      modifies this, out
      ensures Valid() && State() == GenExpr(e, old(State()))
      decreases e
    {
      if hasError {
        return;
      }
      match e {
        case Number(x) =>
          EmitLine(Instr("PUSH_CONST", [Num(x)]));
        case Identifier(n) =>
          EnsureSymbol(n, false);
          EmitLine(Op("LOAD", n));
        case Sensor(k) =>
          EmitLine(Nullary(SensorOpcode(k)));
        case Unary(op, a) =>
          EmitExpression(a);
          EmitLine(Nullary(UnaryOpcode(op)));
        case Binary(op, l, r) =>
          EmitExpression(l);
          EmitExpression(r);
          EmitLine(Nullary(BinaryOpcode(op)));
      }
    }

    /** emit_var_decl */
    method EmitVarDecl(name: string, e: Expr)
      requires Valid() && !hasError
      modifies this, out
      ensures Valid() && State() == GenVarDecl(name, e, old(State()))
    {
      var found := FindSymbol(name);
      if found.Some? {
        CodegenError(AlreadyDeclared(name));
        return;
      }
      EnsureSymbol(name, true);
      EmitLine(Op("ACCOUNT_INIT", name));
      EmitExpression(e);
      EmitLine(Op("STORE", name));
    }

    /** emit_assignment */
    method EmitAssignment(name: string, e: Expr)
      requires Valid() && !hasError
      modifies this, out
      ensures Valid() && State() == GenStmt(Assignment(name, e), old(State()))
    {
      EnsureSymbol(name, false);
      EmitExpression(e);
      EmitLine(Op("STORE", name));
    }

    /** emit_if */
    method EmitIf(s: Stmt)
      requires Valid() && s.If?
      modifies this, out
      ensures Valid() && State() == GenIf(s, old(State()))
      decreases s, 0
    {
      ghost var g := State();
      var elseLabel := CreateLabel("else");
      var endLabel := CreateLabel("endif");
      assert State() == g.(counter := g.counter + 2);
      assert elseLabel == Label("else", g.counter) && endLabel == Label("endif", g.counter + 1);
      EmitExpression(s.condition);
      ghost var g1 := State();
      assert g1 == GenExpr(s.condition, g.(counter := g.counter + 2));
      EmitLine(Op("JMP_IF_FALSE", if s.elseBranch.Else? then elseLabel else endLabel));
      ghost var g2 := State();
      assert g2 == Emit(g1, Op("JMP_IF_FALSE", if s.elseBranch.Else? then elseLabel else endLabel));
      EmitStatementList(s.thenBranch);
      ghost var g3 := State();
      assert g3 == GenList(s.thenBranch, g2);
      if s.elseBranch.Else? {
        EmitLine(Op("JMP", endLabel));
        EmitLine(Op("LABEL", elseLabel));
        EmitStatementList(s.elseBranch.stmts);
      }
      ghost var g4 := State();
      assert g4 == if s.elseBranch.Else? then
        GenList(s.elseBranch.stmts, Emit(Emit(g3, Op("JMP", endLabel)), Op("LABEL", elseLabel)))
        else g3;
      EmitLine(Op("LABEL", endLabel));
      GenIfSteps(s, g, g1, g3, g4);
    }

    /** emit_while */
    method EmitWhile(s: Stmt)
      requires Valid() && s.While?
      modifies this, out
      ensures Valid() && State() == GenWhile(s, old(State()))
      decreases s, 0
    {
      var startLabel := CreateLabel("loop");
      var endLabel := CreateLabel("endloop");
      EmitLine(Op("LABEL", startLabel));
      EmitExpression(s.condition);
      EmitLine(Op("JMP_IF_FALSE", endLabel));
      EmitStatementList(s.body);
      EmitLine(Op("JMP", startLabel));
      EmitLine(Op("LABEL", endLabel));
    }

    /** emit_command */
    method EmitCommand(c: Command)
      requires Valid()
      modifies this, out
      ensures Valid() && State() == GenCommand(c, old(State()))
    {
      match c {
        case Deposit(a, amount) =>
          var ok := EnsureAccount(a);
          if !ok {
            return;
          }
          EmitExpression(amount);
          EmitLine(Op("DEPOSIT", a));
        case Withdraw(a, amount) =>
          var ok := EnsureAccount(a);
          if !ok {
            return;
          }
          EmitExpression(amount);
          EmitLine(Op("WITHDRAW", a));
        case Transfer(f, t, amount) =>
          var ok := EnsureAccount(f);
          if ok {
            ok := EnsureAccount(t);
          }
          if !ok {
            return;
          }
          EmitExpression(amount);
          EmitLine(Instr("TRANSFER", [Word(f), Word(t)]));
        case Interest(a, rate) =>
          var ok := EnsureAccount(a);
          if !ok {
            return;
          }
          EmitExpression(rate);
          EmitLine(Op("APPLY_INTEREST", a));
        case Print(args) =>
          EmitPrintArgs(args);
      }
    }

    /**
     * emit_print_args: a string argument is escaped character by character
     * and written straight to the stream, without looking at the latch.
     */
    method EmitPrintArgs(args: seq<PrintArg>)
      requires Valid()
      modifies this, out
      ensures Valid() && State() == GenPrintArgs(args, old(State()))
    {
      for i := 0 to |args|
        invariant Valid() && State() == GenPrintArgs(args[..i], old(State()))
      {
        assert args[..i + 1][..i] == args[..i];
        match args[i] {
          case StringArg(src) =>
            var text := EscapeLiteral(src);
            out.Put(Instr("PRINT_STR_LITERAL", [Quoted(text)]));
          case ExprArg(e) =>
            EmitExpression(e);
            EmitLine(Nullary("PRINT"));
        }
      }
      assert args[..|args|] == args;
    }

    /** The inner loop of emit_print_args: each character escaped in turn. */
    static method EscapeLiteral(src: string) returns (text: string)
      ensures text == Escape(src)
      ensures Unescape(text) == Some(src)
    {
      text := "";
      for j := 0 to |src|
        invariant text == Escape(src[..j])
      {
        EscapeAppend(src[..j], src[j]);
        assert src[..j + 1] == src[..j] + [src[j]];
        text := text + EscapeChar(src[j]);
      }
      assert src[..|src|] == src;
      UnescapeEscape(src);
    }

    /** emit_statement: nothing happens once an error is latched. */
    method EmitStatement(s: Stmt)
      requires Valid()
      modifies this, out
      ensures Valid() && State() == GenStmt(s, old(State()))
      decreases s, 1
    {
      if hasError {
        return;
      }
      match s {
        case VarDecl(name, e) => EmitVarDecl(name, e);
        case Assignment(name, e) => EmitAssignment(name, e);
        case If(_, _, _) => EmitIf(s);
        case While(_, _) => EmitWhile(s);
        case CommandStmt(c) => EmitCommand(c);
      }
    }

    /** emit_statement_list: the statements in order. */
    method EmitStatementList(stmts: seq<Stmt>)
      requires Valid()
      modifies this, out
      ensures Valid() && State() == GenList(stmts, old(State()))
      decreases stmts, 1
    {
      for i := 0 to |stmts|
        invariant Valid() && State() == GenList(stmts[..i], old(State()))
      {
        assert stmts[..i + 1][..i] == stmts[..i];
        EmitStatement(stmts[i]);
      }
      assert stmts[..|stmts|] == stmts;
    }
  }

  /**
   * generate_assembly: 1 when the program or the stream is missing;
   * otherwise the stream receives exactly what Generate describes and the
   * result is 1 exactly when an error was reported.
   */
  method GenerateAssembly(program: Option<Program>, out: Sink?) returns (status: int)
    modifies out
    ensures program.None? || out == null ==> status == 1
    ensures program.None? && out != null ==> out.lines == old(out.lines)
    ensures program.Some? && out != null ==>
      var g := Generate(program.value, old(out.lines));
      out.lines == g.out && status == Status(g)
  {
    if program.None? || out == null {
      return 1;
    }
    var ctx := new CodegenContext(out);
    ctx.EmitLine(Header);
    ctx.EmitStatementList(program.value.statements);
    ctx.EmitLine(Halt);
    status := if ctx.hasError then 1 else 0;
  }
}
