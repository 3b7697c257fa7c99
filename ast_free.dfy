/**
 * Whole-tree teardown (the free_* functions of src/ast.c).
 *
 * Teardown is modelled by the sequence of allocations it releases, in the
 * order the C code calls free(). The owned allocations of a tree are given
 * independently as a multiset; the lemmas show that teardown releases each
 * of them exactly once and releases a node only after its children.
 */
module AstFree {
  import opened Ast
  import opened Wrappers

  /** One heap allocation of the tree. */
  datatype Node =
    | ProgramNode(program: Program)
    | StmtListNode(stmts: seq<Stmt>)
    | StmtItemsNode(stmts: seq<Stmt>)
    | StmtNode(stmt: Stmt)
    | ExprNode(expr: Expr)
    | StringNode(text: string)
    | ArgListNode(args: seq<PrintArg>)
    | ArgItemsNode(args: seq<PrintArg>)
    | ArgNode(arg: PrintArg)

  // ---------------------------------------------------------------------
  // Teardown, as the trace of released allocations
  // ---------------------------------------------------------------------

  /** free_expression: the node is released after its operands and its name, so it comes last. */
  function FreeExpr(e: Expr): (trace: seq<Node>)
    ensures |trace| > 0 && trace[|trace| - 1] == ExprNode(e)
  {
    match e
    case Number(_) => [ExprNode(e)]
    case Identifier(name) => [StringNode(name), ExprNode(e)]
    case Binary(_, left, right) => FreeExpr(left) + FreeExpr(right) + [ExprNode(e)]
    case Unary(_, operand) => FreeExpr(operand) + [ExprNode(e)]
    case Sensor(_) => [ExprNode(e)]
  }

  /** free_print_arg: the argument node comes last. */
  function FreeArg(a: PrintArg): (trace: seq<Node>)
    ensures |trace| > 0 && trace[|trace| - 1] == ArgNode(a)
  {
    match a
    case StringArg(text) => [StringNode(text), ArgNode(a)]
    case ExprArg(x) => FreeExpr(x) + [ArgNode(a)]
  }

  /** The loop of free_print_arg_list over the first `count` items. */
  function FreeArgs(args: seq<PrintArg>): seq<Node>
  {
    if args == [] then [] else FreeArg(args[0]) + FreeArgs(args[1..])
  }

  /**
   * The items buffer exists only once something was appended; free(NULL)
   * releases nothing.
   */
  function ItemsOf<T>(items: seq<T>, node: Node): seq<Node>
  {
    if |items| > 0 then [node] else []
  }

  /** free_print_arg_list: the items, then the items buffer, then the list header. */
  function FreeArgList(args: seq<PrintArg>): (trace: seq<Node>)
    ensures |trace| > 0 && trace[|trace| - 1] == ArgListNode(args)
    ensures ArgItemsNode(args) in trace <==> |args| > 0
  {
    FreeArgs(args) + ItemsOf(args, ArgItemsNode(args)) + [ArgListNode(args)]
  }

  /** free_statement: the statement node comes after everything it owns. */
  function FreeStmt(s: Stmt): (trace: seq<Node>)
    ensures |trace| > 0 && trace[|trace| - 1] == StmtNode(s)
    decreases s, 1
  {
    match s
    case VarDecl(identifier, expression) =>
      [StringNode(identifier)] + FreeExpr(expression) + [StmtNode(s)]
    case Assignment(identifier, expression) =>
      [StringNode(identifier)] + FreeExpr(expression) + [StmtNode(s)]
    case If(condition, thenBranch, NoElse) =>
      FreeExpr(condition) + FreeStmtList(thenBranch) + [StmtNode(s)]
    case If(condition, thenBranch, Else(elseStmts)) =>
      FreeExpr(condition) + FreeStmtList(thenBranch) + FreeStmtList(elseStmts) + [StmtNode(s)]
    case While(condition, body) =>
      FreeExpr(condition) + FreeStmtList(body) + [StmtNode(s)]
    case CommandStmt(command) =>
      FreeCommand(command) + [StmtNode(s)]
  }

  /** The command branch of free_statement. */
  function FreeCommand(c: Command): seq<Node>
  {
    match c
    case Deposit(account, amount) => [StringNode(account)] + FreeExpr(amount)
    case Withdraw(account, amount) => [StringNode(account)] + FreeExpr(amount)
    case Transfer(fromAccount, toAccount, amount) =>
      [StringNode(fromAccount), StringNode(toAccount)] + FreeExpr(amount)
    case Interest(account, rate) => [StringNode(account)] + FreeExpr(rate)
    case Print(args) => FreeArgList(args)
  }

  /** The loop of free_statement_list over the first `count` items. */
  function FreeStmts(stmts: seq<Stmt>): seq<Node>
    decreases stmts, 0
  {
    if stmts == [] then [] else FreeStmt(stmts[0]) + FreeStmts(stmts[1..])
  }

  /** free_statement_list: the items, then the items buffer, then the list header. */
  function FreeStmtList(stmts: seq<Stmt>): (trace: seq<Node>)
    ensures |trace| > 0 && trace[|trace| - 1] == StmtListNode(stmts)
    decreases stmts, 1
  {
    FreeStmts(stmts) + ItemsOf(stmts, StmtItemsNode(stmts)) + [StmtListNode(stmts)]
  }

  /** ast_free_program; a NULL program releases nothing. */
  function FreeProgram(program: Option<Program>): (trace: seq<Node>)
    ensures program.None? ==> trace == []
  {
    match program
    case None => []
    case Some(p) => FreeStmtList(p.statements) + [ProgramNode(p)]
  }

  // ---------------------------------------------------------------------
  // The allocations a tree owns, independently of the teardown order
  // ---------------------------------------------------------------------

  function OwnedExpr(e: Expr): multiset<Node>
  {
    multiset{ExprNode(e)} +
    match e
    case Identifier(name) => multiset{StringNode(name)}
    case Binary(_, left, right) => OwnedExpr(left) + OwnedExpr(right)
    case Unary(_, operand) => OwnedExpr(operand)
    case _ => multiset{}
  }

  function OwnedArg(a: PrintArg): multiset<Node>
  {
    multiset{ArgNode(a)} +
    match a
    case StringArg(text) => multiset{StringNode(text)}
    case ExprArg(x) => OwnedExpr(x)
  }

  /** The list header, its items buffer when allocated, and every item. */
  function OwnedArgList(args: seq<PrintArg>): multiset<Node>
  {
    multiset{ArgListNode(args)} + multiset(ItemsOf(args, ArgItemsNode(args))) + OwnedArgItems(args)
  }

  function OwnedArgItems(args: seq<PrintArg>): multiset<Node>
  {
    if args == [] then multiset{} else OwnedArg(args[0]) + OwnedArgItems(args[1..])
  }

  function OwnedStmt(s: Stmt): multiset<Node>
    decreases s, 1
  {
    multiset{StmtNode(s)} +
    match s
    case VarDecl(identifier, expression) => multiset{StringNode(identifier)} + OwnedExpr(expression)
    case Assignment(identifier, expression) => multiset{StringNode(identifier)} + OwnedExpr(expression)
    case If(condition, thenBranch, NoElse) => OwnedExpr(condition) + OwnedStmtList(thenBranch)
    case If(condition, thenBranch, Else(elseStmts)) =>
      OwnedExpr(condition) + OwnedStmtList(thenBranch) + OwnedStmtList(elseStmts)
    case While(condition, body) => OwnedExpr(condition) + OwnedStmtList(body)
    case CommandStmt(command) => OwnedCommand(command)
  }

  function OwnedCommand(c: Command): multiset<Node>
  {
    match c
    case Deposit(account, amount) => multiset{StringNode(account)} + OwnedExpr(amount)
    case Withdraw(account, amount) => multiset{StringNode(account)} + OwnedExpr(amount)
    case Transfer(fromAccount, toAccount, amount) =>
      multiset{StringNode(fromAccount), StringNode(toAccount)} + OwnedExpr(amount)
    case Interest(account, rate) => multiset{StringNode(account)} + OwnedExpr(rate)
    case Print(args) => OwnedArgList(args)
  }

  function OwnedStmtList(stmts: seq<Stmt>): multiset<Node>
    decreases stmts, 1
  {
    multiset{StmtListNode(stmts)} + multiset(ItemsOf(stmts, StmtItemsNode(stmts))) + OwnedStmtItems(stmts)
  }

  function OwnedStmtItems(stmts: seq<Stmt>): multiset<Node>
    decreases stmts, 0
  {
    if stmts == [] then multiset{} else OwnedStmt(stmts[0]) + OwnedStmtItems(stmts[1..])
  }

  function OwnedProgram(p: Program): multiset<Node>
  {
    multiset{ProgramNode(p)} + OwnedStmtList(p.statements)
  }

  // ---------------------------------------------------------------------
  // Teardown releases every owned allocation exactly once, parent last
  // ---------------------------------------------------------------------

  lemma {:induction false} FreeExprReleasesOwned(e: Expr)
    ensures multiset(FreeExpr(e)) == OwnedExpr(e)
    decreases e, 1
  {
    match e
    case Binary(_, _, _) =>
      FreeBinaryReleasesOwned(e);
    case Unary(_, _) =>
      FreeUnaryReleasesOwned(e);
    case Identifier(name) =>
      assert FreeExpr(e) == [StringNode(name), ExprNode(e)];
    case Number(_) =>
      assert FreeExpr(e) == [ExprNode(e)];
    case Sensor(_) =>
      assert FreeExpr(e) == [ExprNode(e)];
  }

  lemma {:induction false} FreeBinaryReleasesOwned(e: Expr)
    requires e.Binary?
    ensures multiset(FreeExpr(e)) == OwnedExpr(e)
    decreases e, 0
  {
    var fl, fr := FreeExpr(e.left), FreeExpr(e.right);
    var ol, or := OwnedExpr(e.left), OwnedExpr(e.right);
    assert FreeExpr(e) == fl + fr + [ExprNode(e)];
    assert OwnedExpr(e) == multiset{ExprNode(e)} + (ol + or);
    assert multiset(fl) == ol by { FreeExprReleasesOwned(e.left); }
    assert multiset(fr) == or by { FreeExprReleasesOwned(e.right); }
    ReleasedTwo(fl, fr, ExprNode(e), ol, or);
  }

  lemma {:induction false} FreeUnaryReleasesOwned(e: Expr)
    requires e.Unary?
    ensures multiset(FreeExpr(e)) == OwnedExpr(e)
    decreases e, 0
  {
    var fo, oo := FreeExpr(e.operand), OwnedExpr(e.operand);
    assert FreeExpr(e) == fo + [] + [ExprNode(e)];
    assert OwnedExpr(e) == multiset{ExprNode(e)} + (oo + multiset{});
    assert multiset(fo) == oo by { FreeExprReleasesOwned(e.operand); }
    ReleasedTwo(fo, [], ExprNode(e), oo, multiset{});
  }

  lemma {:induction false} FreeArgReleasesOwned(a: PrintArg)
    ensures multiset(FreeArg(a)) == OwnedArg(a)
  {
    if a.ExprArg? {
      FreeExprReleasesOwned(a.expression);
    }
  }

  lemma {:induction false} FreeArgsReleasesOwned(args: seq<PrintArg>)
    ensures multiset(FreeArgs(args)) == OwnedArgItems(args)
  {
    if args != [] {
      FreeArgReleasesOwned(args[0]);
      FreeArgsReleasesOwned(args[1..]);
      assert FreeArgs(args) == FreeArg(args[0]) + FreeArgs(args[1..]);
    }
  }

  lemma FreeArgListReleasesOwned(args: seq<PrintArg>)
    ensures multiset(FreeArgList(args)) == OwnedArgList(args)
  {
    FreeArgsReleasesOwned(args);
  }

  /** Releasing two parts and then the parent releases both parts' nodes and the parent. */
  lemma ReleasedTwo(a: seq<Node>, b: seq<Node>, n: Node, ma: multiset<Node>, mb: multiset<Node>)
    requires multiset(a) == ma && multiset(b) == mb
    ensures multiset(a + b + [n]) == multiset{n} + (ma + mb)
  {
    calc {
      multiset(a + b + [n]);
      multiset(a + b) + multiset([n]);
      ma + mb + multiset{n};
    }
  }

  lemma ReleasedThree(a: seq<Node>, b: seq<Node>, c: seq<Node>, n: Node, ma: multiset<Node>, mb: multiset<Node>, mc: multiset<Node>)
    requires multiset(a) == ma && multiset(b) == mb && multiset(c) == mc
    ensures multiset(a + b + c + [n]) == multiset{n} + (ma + mb + mc)
  {
    calc {
      multiset(a + b + c + [n]);
      multiset(a + b + c) + multiset([n]);
      ma + mb + mc + multiset{n};
    }
  }

  lemma {:induction false} FreeStmtReleasesOwned(s: Stmt)
    ensures multiset(FreeStmt(s)) == OwnedStmt(s)
    decreases s, 1
  {
    match s
    case VarDecl(identifier, expression) =>
      FreeExprReleasesOwned(expression);
    case Assignment(identifier, expression) =>
      FreeExprReleasesOwned(expression);
    case If(_, _, NoElse) =>
      FreeIfReleasesOwned(s);
    case If(_, _, Else(_)) =>
      FreeIfElseReleasesOwned(s);
    case While(_, _) =>
      FreeWhileReleasesOwned(s);
    case CommandStmt(command) =>
      FreeCommandReleasesOwned(command);
  }

  lemma {:induction false} FreeIfReleasesOwned(s: Stmt)
    requires s.If? && s.elseBranch.NoElse?
    ensures multiset(FreeStmt(s)) == OwnedStmt(s)
    decreases s, 0
  {
    var condition, thenBranch := s.condition, s.thenBranch;
    var fc, ft := FreeExpr(condition), FreeStmtList(thenBranch);
    var oc, ot := OwnedExpr(condition), OwnedStmtList(thenBranch);
    assert FreeStmt(s) == fc + ft + [StmtNode(s)];
    assert OwnedStmt(s) == multiset{StmtNode(s)} + (oc + ot);
    assert multiset(fc) == oc by { FreeExprReleasesOwned(condition); }
    assert multiset(ft) == ot by { FreeStmtListReleasesOwned(thenBranch); }
    ReleasedTwo(fc, ft, StmtNode(s), oc, ot);
  }

  lemma {:induction false} FreeIfElseReleasesOwned(s: Stmt)
    requires s.If? && s.elseBranch.Else?
    ensures multiset(FreeStmt(s)) == OwnedStmt(s)
    decreases s, 0
  {
    var condition, thenBranch, elseStmts := s.condition, s.thenBranch, s.elseBranch.stmts;
    var fc, ft, fe := FreeExpr(condition), FreeStmtList(thenBranch), FreeStmtList(elseStmts);
    var oc, ot, oe := OwnedExpr(condition), OwnedStmtList(thenBranch), OwnedStmtList(elseStmts);
    assert FreeStmt(s) == fc + ft + fe + [StmtNode(s)];
    assert OwnedStmt(s) == multiset{StmtNode(s)} + (oc + ot + oe);
    assert multiset(fc) == oc by { FreeExprReleasesOwned(condition); }
    assert multiset(ft) == ot by { FreeStmtListReleasesOwned(thenBranch); }
    assert multiset(fe) == oe by { FreeStmtListReleasesOwned(elseStmts); }
    ReleasedThree(fc, ft, fe, StmtNode(s), oc, ot, oe);
  }

  lemma {:induction false} FreeWhileReleasesOwned(s: Stmt)
    requires s.While?
    ensures multiset(FreeStmt(s)) == OwnedStmt(s)
    decreases s, 0
  {
    var condition, body := s.condition, s.body;
    var fc, fb := FreeExpr(condition), FreeStmtList(body);
    var oc, ob := OwnedExpr(condition), OwnedStmtList(body);
    assert FreeStmt(s) == fc + fb + [StmtNode(s)];
    assert OwnedStmt(s) == multiset{StmtNode(s)} + (oc + ob);
    assert multiset(fc) == oc by { FreeExprReleasesOwned(condition); }
    assert multiset(fb) == ob by { FreeStmtListReleasesOwned(body); }
    ReleasedTwo(fc, fb, StmtNode(s), oc, ob);
  }

  lemma FreeCommandReleasesOwned(c: Command)
    ensures multiset(FreeCommand(c)) == OwnedCommand(c)
  {
    match c
    case Deposit(_, amount) => FreeExprReleasesOwned(amount);
    case Withdraw(_, amount) => FreeExprReleasesOwned(amount);
    case Transfer(_, _, amount) => FreeExprReleasesOwned(amount);
    case Interest(_, rate) => FreeExprReleasesOwned(rate);
    case Print(args) => FreeArgListReleasesOwned(args);
  }

  lemma {:induction false} FreeStmtsReleasesOwned(stmts: seq<Stmt>)
    ensures multiset(FreeStmts(stmts)) == OwnedStmtItems(stmts)
    decreases stmts, 0
  {
    if stmts != [] {
      FreeStmtReleasesOwned(stmts[0]);
      FreeStmtsReleasesOwned(stmts[1..]);
      assert FreeStmts(stmts) == FreeStmt(stmts[0]) + FreeStmts(stmts[1..]);
    }
  }

  lemma {:induction false} FreeStmtListReleasesOwned(stmts: seq<Stmt>)
    ensures multiset(FreeStmtList(stmts)) == OwnedStmtList(stmts)
    decreases stmts, 1
  {
    FreeStmtsReleasesOwned(stmts);
  }

  /**
   * ast_free_program releases every allocation the program owns, each
   * exactly once, and the program node itself last.
   */
  lemma {:induction false} FreeProgramReleasesOwned(p: Program)
    ensures multiset(FreeProgram(Some(p))) == OwnedProgram(p)
    ensures FreeProgram(Some(p))[|FreeProgram(Some(p))| - 1] == ProgramNode(p)
  {
    FreeStmtListReleasesOwned(p.statements);
  }
}
