/**
 * The MoneyLang abstract syntax tree (include/ast.h) and its node builders
 * (the ast_*_new functions of src/ast.c).
 *
 * Every tagged union of the header becomes a datatype with one constructor
 * per tag, carrying exactly the payload of that tag. Ownership is
 * tree-shaped, so children are held by value. Statement and print-argument
 * lists appear here as the sequences of their first `count` items; the
 * growable buffers themselves are modelled in module AstList.
 */
module Ast {

  /** ASTSensorType */
  datatype SensorKind = Tempo | Juros

  /** ASTBinaryOp: five arithmetic operators and six comparisons. */
  datatype BinaryOp = Add | Sub | Mul | Div | Mod | Eq | Neq | Lt | Gt | Le | Ge
  {
    predicate IsArithmetic() {
      Add? || Sub? || Mul? || Div? || Mod?
    }

    predicate IsComparison() {
      Eq? || Neq? || Lt? || Gt? || Le? || Ge?
    }
  }

  /** ASTUnaryOp */
  datatype UnaryOp = Negate | Not

  /** ASTExpr: exactly one of five kinds. */
  datatype Expr =
    | Number(value: real)
    | Identifier(name: string)
    | Binary(op: BinaryOp, left: Expr, right: Expr)
    | Unary(uop: UnaryOp, operand: Expr)
    | Sensor(sensor: SensorKind)

  /** ASTPrintArg: a string literal (is_string) or an expression. */
  datatype PrintArg = StringArg(text: string) | ExprArg(expression: Expr)
  {
    predicate IsString() {
      StringArg?
    }
  }

  /** The command payload of a STMT_COMMAND statement (ASTCommandType). */
  datatype Command =
    | Deposit(account: string, amount: Expr)
    | Withdraw(account: string, amount: Expr)
    | Transfer(fromAccount: string, toAccount: string, amount: Expr)
    | Interest(account: string, rate: Expr)
    | Print(args: seq<PrintArg>)

  /** ASTStmt */
  datatype Stmt =
    | VarDecl(identifier: string, expression: Expr)
    | Assignment(identifier: string, expression: Expr)
    | If(condition: Expr, thenBranch: seq<Stmt>, elseBranch: ElseBranch)
    | While(condition: Expr, body: seq<Stmt>)
    | CommandStmt(command: Command)

  /** The else branch of an `if`, which the header allows to be NULL. */
  datatype ElseBranch = NoElse | Else(stmts: seq<Stmt>)

  /** ASTProgram: the root, owning one statement list. */
  datatype Program = Program(statements: seq<Stmt>)

  // ---------------------------------------------------------------------
  // Builders. Each sets the tag and stores its arguments unchanged; no
  // argument is validated.
  // ---------------------------------------------------------------------

  function NewProgram(statements: seq<Stmt>): (p: Program)
    ensures p.statements == statements
  {
    Program(statements)
  }

  function NewVarDecl(identifier: string, expression: Expr): (s: Stmt)
    ensures s.VarDecl? && s.identifier == identifier && s.expression == expression
  {
    VarDecl(identifier, expression)
  }

  function NewAssignment(identifier: string, expression: Expr): (s: Stmt)
    ensures s.Assignment? && s.identifier == identifier && s.expression == expression
  {
    Assignment(identifier, expression)
  }

  function NewIf(condition: Expr, thenBranch: seq<Stmt>, elseBranch: ElseBranch): (s: Stmt)
    ensures s.If? && s.condition == condition
    ensures s.thenBranch == thenBranch && s.elseBranch == elseBranch
  {
    If(condition, thenBranch, elseBranch)
  }

  function NewWhile(condition: Expr, body: seq<Stmt>): (s: Stmt)
    ensures s.While? && s.condition == condition && s.body == body
  {
    While(condition, body)
  }

  function NewDeposit(account: string, amount: Expr): (s: Stmt)
    ensures s.CommandStmt? && s.command.Deposit?
    ensures s.command.account == account && s.command.amount == amount
  {
    CommandStmt(Deposit(account, amount))
  }

  function NewWithdraw(account: string, amount: Expr): (s: Stmt)
    ensures s.CommandStmt? && s.command.Withdraw?
    ensures s.command.account == account && s.command.amount == amount
  {
    CommandStmt(Withdraw(account, amount))
  }

  function NewTransfer(fromAccount: string, toAccount: string, amount: Expr): (s: Stmt)
    ensures s.CommandStmt? && s.command.Transfer?
    ensures s.command.fromAccount == fromAccount && s.command.toAccount == toAccount
    ensures s.command.amount == amount
  {
    CommandStmt(Transfer(fromAccount, toAccount, amount))
  }

  function NewInterest(account: string, rate: Expr): (s: Stmt)
    ensures s.CommandStmt? && s.command.Interest?
    ensures s.command.account == account && s.command.rate == rate
  {
    CommandStmt(Interest(account, rate))
  }

  function NewPrint(args: seq<PrintArg>): (s: Stmt)
    ensures s.CommandStmt? && s.command.Print? && s.command.args == args
  {
    CommandStmt(Print(args))
  }

  function NewNumber(value: real): (e: Expr)
    ensures e.Number? && e.value == value
  {
    Number(value)
  }

  function NewIdentifier(name: string): (e: Expr)
    ensures e.Identifier? && e.name == name
  {
    Identifier(name)
  }

  function NewBinary(op: BinaryOp, left: Expr, right: Expr): (e: Expr)
    ensures e.Binary? && e.op == op && e.left == left && e.right == right
  {
    Binary(op, left, right)
  }

  function NewUnary(op: UnaryOp, operand: Expr): (e: Expr)
    ensures e.Unary? && e.uop == op && e.operand == operand
  {
    Unary(op, operand)
  }

  function NewSensor(sensor: SensorKind): (e: Expr)
    ensures e.Sensor? && e.sensor == sensor
  {
    Sensor(sensor)
  }

  function NewPrintArgExpr(expression: Expr): (a: PrintArg)
    ensures !a.IsString() && a.expression == expression
  {
    ExprArg(expression)
  }

  function NewPrintArgString(value: string): (a: PrintArg)
    ensures a.IsString() && a.text == value
  {
    StringArg(value)
  }

  /** Every binary operator is either arithmetic or a comparison, never both. */
  lemma ArithmeticOrComparison(op: BinaryOp)
    ensures op.IsArithmetic() != op.IsComparison()
  {
  }
}
