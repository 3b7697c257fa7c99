# MoneyLang compiler and BankVM, modelled in Dafny

MoneyLang is a small banking language. Its compiler, written in C, parses a
program into an abstract syntax tree (`include/ast.h`, `src/ast.c`). It then
lowers the tree in one pass to line-oriented BankVM assembly (`src/codegen.c`).
BankVM (`vm/bankvm.py`) is a stack machine written in Python. It loads that
text, resolves labels in a first pass, and runs the instructions.

This project models both halves, and the path between them:

| file | models |
|---|---|
| `ast.dfy` | the tagged unions of `ast.h` as datatypes, and the `ast_*_new` constructors |
| `ast_list.dfy` | the growable statement and print-argument lists as a class over an `array` (`items`, `count`, `capacity`) |
| `ast_free.dfy` | the `free_*` teardown, as the sequence of nodes it releases |
| `assembly.dfy` | assembly lines, the labels from `create_label`, and the string escaping of `emit_print_args` |
| `codegen_spec.dfy` | the generator as functions over a value `Gen` (output, label counter, first error, symbol table), plus lemmas about them |
| `codegen.dfy` | `CodegenContext` as a class: a symbol array, a counter and an error latch, writing to a `Sink` (the `FILE *`); each `emit_*` method is proved equal to its function in `codegen_spec.dfy` |
| `codegen_labels.dfy` | label discipline of the generated code: every label is defined once, every jump names a defined label, and `HALT` comes only last |
| `vm_load.dfy` | `load_program`: `strip`, `split`, the instruction regex, and the label pass |
| `vm_spec.dfy` | `_execute_instruction`, `_pop2` and `run` as functions over a `Machine` value |
| `vm.dfy` | `BankVM` as a class whose fields the methods update; each method is proved equal to its function in `vm_spec.dfy` |
| `pipeline.dfy` | compiler output read back by the VM: expression code leaves exactly the expression's value on the stack, and generated jumps resolve |
| `pipeline_words.dfy` | lines of names read back as text: `Pipeline.Lower` agrees with the loader on the text `emit_line` writes when every name is a single word |
| `string_literals.dfy` | how the VM reads the compiler's `PRINT_STR_LITERAL` lines (see Findings) |
| `wrappers.dfy` | `Option` and `Result` |

The generator's output is a sequence of structured lines (`AsmLine`: a comment,
or an opcode with word, number or quoted operands), not of rendered strings.
The VM side reads a structured line operand by operand (`Pipeline.Lower`): a
word operand is one operand, and a quoted operand is read as the loader's regex
reads it, up to its first `"`, with no escape undone. The rendered text is
modelled too, and the two readings are proved to agree where they do:

- for `PRINT_STR_LITERAL` lines, which carry arbitrary text,
  `StringLiterals.StringLineLowered` shows that `Lower` agrees with the
  loader's parse of the text;
- for lines of an opcode and names, `PipelineWords.WordLineLowered` shows the
  same when every name is a single word with no whitespace (newlines included)
  and no `"` (`PipelineWords.IsName`). Neither `ast_identifier_new` nor
  `codegen.c` checks this of a name; only the lexer, which is not part of this
  model, does. `PipelineWords.SpacedNameSplits` shows where the readings part:
  a name `a b` is one operand to `Lower` and two to the loader.

Three behaviours follow the code:

- Both `if` and `while` always draw two labels from one shared counter, so the
  labels are `else_n`/`endif_{n+1}` and `loop_n`/`endloop_{n+1}`, never
  `else_0`/`endif_0`. An `if` without an else branch still consumes the else
  label's number.
- A declaration fails if the name is in the table for any reason, including an
  earlier assignment.
- String-literal print arguments bypass the `emit_line` error latch.

## Model

| member | source | states |
|---|---|---|
| Ast.NewProgram | src/ast.c:43-47 | the program holds exactly the given statement list |
| Ast.NewVarDecl | src/ast.c:74-79 | a `VAR_DECL` statement storing the name and initializer unchanged |
| Ast.NewAssignment | src/ast.c:81-86 | an assignment storing the name and value unchanged |
| Ast.NewIf | src/ast.c:88-94 | an `if` with its condition and then-branch, and an else branch exactly when one is given |
| Ast.NewWhile | src/ast.c:96-101 | a `while` storing its condition and body |
| Ast.NewDeposit | src/ast.c:103-109 | a `CMD_DEPOSIT` command with that account and amount |
| Ast.NewWithdraw | src/ast.c:111-117 | a `CMD_WITHDRAW` command with that account and amount |
| Ast.NewTransfer | src/ast.c:119-126 | a `CMD_TRANSFER` command with source, destination and amount in place |
| Ast.NewInterest | src/ast.c:128-134 | a `CMD_INTEREST` command with that account and rate |
| Ast.NewPrint | src/ast.c:136-141 | a `CMD_PRINT` command carrying only its argument list |
| Ast.NewNumber | src/ast.c:143-147 | a number expression with that value |
| Ast.NewIdentifier | src/ast.c:149-153 | an identifier expression with that name |
| Ast.NewBinary | src/ast.c:155-161 | a binary expression with operator, left and right in place |
| Ast.NewUnary | src/ast.c:163-168 | a unary expression with operator and operand |
| Ast.NewSensor | src/ast.c:170-174 | a sensor expression of that kind |
| Ast.NewPrintArgExpr | src/ast.c:189-194 | a print argument whose `is_string` is false, holding the expression |
| Ast.NewPrintArgString | src/ast.c:196-201 | a print argument whose `is_string` is true, holding the text |
| Ast.ArithmeticOrComparison | include/ast.h:43-55 | each of the eleven binary operators is exactly one of arithmetic (five) or comparison (six) |
| AstList.GrownCapacity | src/ast.c:15-27 | after growth the capacity exceeds the count and never shrinks; it changes iff it was 0 or full |
| AstList.CapacityAfterBounds | src/ast.c:15-27 | after n appends the capacity is at least n, equals the first capacity up to it, and stays below 2n beyond it |
| AstList.ItemList.constructor | src/ast.c:49-55 | a new list has count 0, capacity 0 and no elements |
| AstList.ItemList.EnsureCapacity | src/ast.c:15-27 | makes room for one more element, keeping the elements; first growth sets the first capacity, later ones double it |
| AstList.ItemList.Append | src/ast.c:57-60 | count grows by one, the new element is stored at the old count, and the earlier elements are kept |
| AstList.NewStmtList | src/ast.c:49-55 | an empty statement list whose first growth gives capacity 8 |
| AstList.NewPrintArgList | src/ast.c:176-182 | an empty print-argument list whose first growth gives capacity 4 |
| AstList.AppendAll | src/ast.c:57-60 | appending the elements one by one yields exactly those elements, at the capacity `CapacityAfter` predicts |
| AstFree.FreeProgram | src/ast.c:315-321 | tearing down a NULL program releases nothing |
| AstFree.FreeExprReleasesOwned | src/ast.c:208-229 | expression teardown releases every node of the tree exactly once |
| AstFree.FreeBinaryReleasesOwned | src/ast.c:218-221 | a binary node releases both operand trees and itself, each node once |
| AstFree.FreeUnaryReleasesOwned | src/ast.c:222-224 | a unary node releases its operand tree and itself, each node once |
| AstFree.FreeExpr | src/ast.c:208-229 | an expression node is released last, after its operands and its name |
| AstFree.FreeArg | src/ast.c:231-241 | a print argument node is released last, after its text or expression |
| AstFree.FreeArgList | src/ast.c:243-252 | the list header is released last; the items buffer is released iff the list has items |
| AstFree.FreeStmt | src/ast.c:254-302 | a statement node is released last, after everything it owns |
| AstFree.FreeStmtList | src/ast.c:304-313 | the list header is released last, after its statements |
| AstFree.FreeArgReleasesOwned | src/ast.c:231-241 | a print argument releases exactly the nodes it owns (its text or its expression tree, and itself) |
| AstFree.FreeArgsReleasesOwned | src/ast.c:247-249 | the argument loop releases each argument's nodes exactly once |
| AstFree.FreeArgListReleasesOwned | src/ast.c:243-252 | an argument list releases its arguments' nodes, its array and itself, each exactly once |
| AstFree.FreeStmtReleasesOwned | src/ast.c:254-302 | statement teardown releases every owned node exactly once |
| AstFree.FreeIfReleasesOwned | src/ast.c:267-271 | an `if` without else releases its condition, its then-list and itself |
| AstFree.FreeIfElseReleasesOwned | src/ast.c:267-271 | an `if` with else also releases the else list |
| AstFree.FreeWhileReleasesOwned | src/ast.c:272-275 | a `while` releases its condition, its body and itself |
| AstFree.FreeCommandReleasesOwned | src/ast.c:276-298 | each command releases its names, amount or argument list exactly once |
| AstFree.FreeStmtsReleasesOwned | src/ast.c:308-310 | the statement loop releases each statement's nodes exactly once |
| AstFree.FreeStmtListReleasesOwned | src/ast.c:304-313 | a statement list releases its statements, its array and itself |
| AstFree.FreeProgramReleasesOwned | src/ast.c:315-321 | program teardown releases exactly the nodes the program owns, the program node last |
| Assembly.NatToString | src/codegen.c:97 | the decimal rendering `%d`: non-empty digits, last digit `n % 10`, one digit iff n < 10 |
| Assembly.NatToStringInjective | src/codegen.c:97 | different counter values render differently |
| Assembly.LabelParts | src/codegen.c:95-100 | a label is the prefix, `_`, then the decimal counter |
| Assembly.LabelInjective | src/codegen.c:95-100 | two labels over underscore-free prefixes are equal only for equal prefix and counter |
| Assembly.UnescapeEscape | src/codegen.c:234-253 | unescaping the escaped text gives back the original literal |
| Assembly.EscapeAppend | src/codegen.c:234-253 | escaping works character by character |
| Assembly.EscapeStaysOnOneLine | src/codegen.c:234-253 | escaped text holds no newline or tab, and every quote in it is escaped |
| Codegen.TableLookup | src/codegen.c:53-60 | with distinct names, each entry's flag is what the name maps to, and every mapped name has an entry |
| Codegen.TableUpgrade | src/codegen.c:126-127 | setting one entry's `is_account` maps that name to true and changes nothing else |
| Codegen.Sink.constructor | src/codegen.c:34 | a stream holds the lines it starts with |
| Codegen.Sink.Put | src/codegen.c:113-115 | writing one line appends it |
| Codegen.CodegenContext.constructor | src/codegen.c:371-376 | counter 0, no error, empty symbol table, writing to the given stream |
| Codegen.CodegenContext.FindSymbol | src/codegen.c:53-60 | finds the entry with that name, or reports none iff no entry has it |
| Codegen.CodegenContext.AddSymbol | src/codegen.c:62-80 | appends one entry and keeps the others; the name now maps to its flag |
| Codegen.CodegenContext.CodegenError | src/codegen.c:82-93 | records the diagnostic only if no error was recorded before |
| Codegen.CodegenContext.CreateLabel | src/codegen.c:95-100 | returns `prefix_n` for the counter value n before the call, and bumps the counter by one |
| Codegen.CodegenContext.EmitLine | src/codegen.c:107-116 | appends one line unless an error is latched |
| Codegen.CodegenContext.EnsureSymbol | src/codegen.c:118-129 | adds the name if absent, upgrades it to account if asked, and never downgrades |
| Codegen.CodegenContext.EnsureAccount | src/codegen.c:131-138 | true iff the name is a known account; otherwise latches `NotAnAccount` |
| Codegen.CodegenContext.EmitExpression | src/codegen.c:262-332 | the new state is `GenExpr` of the old; see `CodegenSpec.GenExprAppendsCode` |
| Codegen.CodegenContext.EmitVarDecl | src/codegen.c:140-150 | the new state is `GenVarDecl`; see `CodegenSpec.VarDeclOutcome` |
| Codegen.CodegenContext.EmitAssignment | src/codegen.c:152-157 | the new state is that of an assignment; see `CodegenSpec.AssignmentOutcome` |
| Codegen.CodegenContext.EmitIf | src/codegen.c:159-173 | the new state is `GenIf`: two labels drawn, then the `if` shape |
| Codegen.CodegenContext.EmitWhile | src/codegen.c:175-186 | the new state is `GenWhile`: two labels drawn, then the loop shape |
| Codegen.CodegenContext.EmitCommand | src/codegen.c:188-225 | the new state is `GenCommand`; see `CodegenSpec.BankingCommandOutcome` |
| Codegen.CodegenContext.EmitPrintArgs | src/codegen.c:227-260 | the new state is `GenPrintArgs`; see `CodegenSpec.PrintOutcome` |
| Codegen.CodegenContext.EscapeLiteral | src/codegen.c:234-253 | the loop writes the escape of the literal, and unescaping that gives back the literal |
| Codegen.CodegenContext.EmitStatement | src/codegen.c:334-355 | the new state is `GenStmt` of the old |
| Codegen.CodegenContext.EmitStatementList | src/codegen.c:357-364 | the new state is `GenList`: the statements in order |
| Codegen.GenerateAssembly | src/codegen.c:366-384 | returns 1 and writes nothing on a NULL program or stream; otherwise writes `Generate`'s output and returns 0 iff no error |
| CodegenSpec.BinaryOpcodeInjective | src/codegen.c:295-329 | distinct binary operators get distinct opcodes |
| CodegenSpec.FirstErrorWins | src/codegen.c:82-93 | once an error is latched it stays, and a later error does not replace it |
| CodegenSpec.EnsureNeverDowngrades | src/codegen.c:118-129 | the table gains the name; its flag becomes true if asked or already true, and other names are untouched |
| CodegenSpec.GenExprAppendsCode | src/codegen.c:262-332 | expression code is post-order (operands, then one opcode), appended with no error and no label; identifiers are registered as non-accounts |
| CodegenSpec.ExprExtends | src/codegen.c:262-265 | expression emission only appends, keeps a latched error, and never loses a name or an account |
| CodegenSpec.PrintArgsExtend | src/codegen.c:227-260 | print arguments never raise an error and draw no label |
| CodegenSpec.CommandExtends | src/codegen.c:188-225 | a command only appends and draws no label |
| CodegenSpec.StmtExtends | src/codegen.c:334-355 | a statement only appends and keeps a latched error; without an error it draws two labels per `if`/`while` it contains |
| CodegenSpec.IfExtends | src/codegen.c:159-173 | an `if` only appends and draws two labels, plus those of its branches |
| CodegenSpec.WhileExtends | src/codegen.c:175-186 | a `while` only appends and draws two labels, plus those of its body |
| CodegenSpec.ListExtends | src/codegen.c:357-364 | a statement list only appends and draws two labels per control statement |
| CodegenSpec.VarDeclOutcome | src/codegen.c:140-150 | a known name latches `AlreadyDeclared`; otherwise emits `ACCOUNT_INIT`, the initializer, `STORE` and marks an account |
| CodegenSpec.AssignmentOutcome | src/codegen.c:152-157 | emits the value then `STORE name`, and registers the name without changing a known flag |
| CodegenSpec.AssignedNameCannotBeDeclared | src/codegen.c:142-145 | a name first used by an assignment can never be declared afterwards |
| CodegenSpec.BankingCommandOutcome | src/codegen.c:188-220 | succeeds iff every named account is an account; on failure it emits nothing and reports the first non-account, in order |
| CodegenSpec.PrintArgOutcome | src/codegen.c:229-258 | one print argument appends its code and raises no error |
| CodegenSpec.PrintOutcome | src/codegen.c:227-260 | a print appends each argument's code in order |
| CodegenSpec.GenerateShape | src/codegen.c:366-384 | output starts with the header; status is 0 iff no error, and then the output ends in `HALT` |
| CodegenSpec.IfElseLabelsExample | src/codegen.c:159-173 | the first `if`/else yields `else_0` and `endif_1` |
| CodegenSpec.WhileLabelsExample | src/codegen.c:175-186 | the first `while` yields `loop_0` and `endloop_1` |
| CodegenLabels.ExprCodeStraight | src/codegen.c:262-332 | expression code holds no label, jump or `HALT` |
| CodegenLabels.PrintCodeStraight | src/codegen.c:227-260 | print code holds no label, jump or `HALT` |
| CodegenLabels.LabelAtInjective | src/codegen.c:95-100 | a label names one counter value only |
| CodegenLabels.IfElsePieces | src/codegen.c:159-173 | an `if`/else over well-labelled branches defines each label once, within its counter range, and closes its jumps |
| CodegenLabels.IfPieces | src/codegen.c:159-173 | the same for an `if` without else |
| CodegenLabels.WhilePieces | src/codegen.c:175-186 | the same for a `while` |
| CodegenLabels.VarDeclLabels | src/codegen.c:140-150 | a declaration adds well-labelled code |
| CodegenLabels.AssignmentLabels | src/codegen.c:152-157 | an assignment adds well-labelled code |
| CodegenLabels.CommandLabels | src/codegen.c:188-225 | a command adds well-labelled code |
| CodegenLabels.StmtLabels | src/codegen.c:334-355 | any statement adds code whose labels are distinct, drawn from its counter range, and whose jumps are defined within it |
| CodegenLabels.IfLabels | src/codegen.c:159-173 | an `if` adds well-labelled code |
| CodegenLabels.WhileLabels | src/codegen.c:175-186 | a `while` adds well-labelled code |
| CodegenLabels.ListLabels | src/codegen.c:357-364 | a statement list adds well-labelled code |
| CodegenLabels.GeneratedLabelsWellFormed | src/codegen.c:366-384 | error-free output is the header, then code with each label defined once and every jump target defined, then a single final `HALT` |
| Pipeline.ReadOperands | vm/bankvm.py:63-85 | each operand is read independently, in order: a word is converted as `float()` would, a quoted text is cut at its first `"` as the regex cuts it |
| Pipeline.AsRead | vm/bankvm.py:66-69 | the text `"([^"]*)"` captures from a quoted operand: the operand up to its first `"`, with no quote in it |
| VmLoad.SplitJoinWords | vm/bankvm.py:72 | `split()` gives back exactly the words that were joined with single spaces, when each word is non-empty and free of whitespace |
| PipelineWords.LabelLineIff | vm/bankvm.py:50 | a line of an opcode of `\w` characters starts with `LABEL ` exactly when the opcode is `LABEL` and something follows it |
| PipelineWords.WordLineShape | src/codegen.c:107-115 | the text `emit_line` writes for an opcode and names is already stripped, is no comment, holds no `"`, and splits back into the opcode and the names |
| PipelineWords.ReadWordOperands | vm/bankvm.py:76-83 | reading word operands one by one is the loader's conversion of their words |
| PipelineWords.ParseUnquoted | vm/bankvm.py:62-85 | a line with no `"` skips the quoted form and parses to its first word as opcode and the other words converted |
| PipelineWords.LabelLineShape | vm/bankvm.py:50-53 | the rendered `LABEL` line of a name is a label line whose second word is that name |
| PipelineWords.WordLabelLowered | vm/bankvm.py:50-53 | for a `LABEL` line of single-word names, `Lower` gives the label entry the loader records |
| PipelineWords.WordInstrClassified | vm/bankvm.py:45-57 | any other rendered line of names is neither skipped nor a label line, so the loader parses it as an instruction |
| PipelineWords.WordInstrParsed | vm/bankvm.py:59-85 | that line parses to the opcode and the names, converted as `float()` would |
| PipelineWords.WordInstrLowered | vm/bankvm.py:38-85 | for such a line, `Lower` gives the instruction entry the loader makes |
| PipelineWords.WordLineLowered | vm/bankvm.py:38-85 | for every line of an opcode and single-word names, `Lower` equals what `load_program` makes of the text `emit_line` writes for it |
| PipelineWords.SpacedNameSplits | vm/bankvm.py:72-85 | a name `a b` is one operand (or label) to `Lower`, but its rendering is read by the loader as two operands (or the label `a`) |
| PipelineWords.SpacedNameText | src/codegen.c:107-115 | a name `a b` renders exactly as the two names `a` and `b` |
| Pipeline.LoweredAppend | vm/bankvm.py:42-57 | lines are loaded one by one, so loading a concatenation concatenates |
| Pipeline.OpcodeOf | src/codegen.c:295-329 | each binary operator's opcode is one the VM executes as binary |
| Pipeline.DecodeBinaryOpcode | vm/bankvm.py:139-195 | the VM decodes each binary opcode the compiler writes as that operator |
| Pipeline.DecodeUnaryOpcode | vm/bankvm.py:161-170 | `NEG` and `NOT` decode as the unary operators |
| Pipeline.DecodeSensorOpcode | vm/bankvm.py:274-279 | the sensor opcodes decode as the matching sensors |
| Pipeline.DecodeLeafOpcodes | vm/bankvm.py:113-126 | `PUSH_CONST` and `LOAD` decode as themselves |
| Pipeline.ExecAppend | vm/bankvm.py:95-102 | executing `a + b` is executing `a`, then `b` unless `a` raised |
| Pipeline.RunLinear | vm/bankvm.py:89-107 | on straight-line code, `run` does what executing the instructions in order does, and stops where they raise |
| Pipeline.ExprCodeLowers | src/codegen.c:262-332 | the loader turns expression code into the instruction sequence `ExprInstrs` |
| Pipeline.ExprInstrsLinear | vm/bankvm.py:198-225 | expression instructions hold no jump and no `HALT` |
| Pipeline.ExprInstrsEvaluate | vm/bankvm.py:113-195 | executing expression instructions pushes exactly the expression's value onto the stack, or raises its evaluation error and leaves the stores alone |
| Pipeline.UnaryEvaluates | vm/bankvm.py:161-170 | the same for a unary expression |
| Pipeline.BinaryEvaluates | vm/bankvm.py:316-322 | the same for a binary expression: left, then right, then `_pop2` and the operator |
| Pipeline.ExprRunsToItsValue | vm/bankvm.py:89-107 | running compiled expression code raises the stack depth by exactly one, to the expression's value, or fails with its error |
| Pipeline.ExprInstrsRun | vm/bankvm.py:89-107 | the same for the loaded instructions |
| Pipeline.DefsLoaded | vm/bankvm.py:49-53 | every `LABEL` line's name is a key of the loaded labels |
| Pipeline.GeneratedJumpsResolve | vm/bankvm.py:198-222 | every jump in a loaded error-free compiler output names a loaded label |
| Pipeline.GeneratedJumpsLand | vm/bankvm.py:198-222 | so such a jump can fail only on an empty stack, never on an unknown label |
| StringLiterals.StringLineAsRead | vm/bankvm.py:66-70 | the loader's regex reads a literal line as the escaped text up to its first quote |
| StringLiterals.QuoteCutsLiteral | vm/bankvm.py:66 | the literal `"` is loaded as `\` |
| StringLiterals.BackslashDoubled | vm/bankvm.py:66 | the literal `\` is loaded as `\\` |
| StringLiterals.EscapedRunEscape | src/codegen.c:234-253 | an escaped literal runs exactly to its closing quote |
| StringLiterals.StringLineRoundTrip | src/codegen.c:233-254 | reading up to the first unescaped quote and unescaping gives back the literal |
| StringLiterals.StringLineReadOperand | vm/bankvm.py:66-70 | the structured literal line is read as `PRINT_STR_LITERAL` with the escaped text up to its first quote |
| StringLiterals.StringLineLowered | vm/bankvm.py:63-70 | reading the structured literal line gives the same instruction as the loader's parse of its rendered text |
| StringLiterals.StringLineLoadsLiteral | vm/bankvm.py:66-70 | the corrected reading loads `PRINT_STR_LITERAL` with the original literal |
| StringLiterals.StringLinePrints | vm/bankvm.py:295-296 | executing that instruction prints the original literal |
| Vm.BankVM.constructor | vm/bankvm.py:24-34 | empty stack, stores, labels and program; pc 0 and not halted |
| Vm.BankVM.LoadProgram | vm/bankvm.py:36-61 | installs the labels and instructions `LoadProgram` computes, touching nothing else |
| Vm.BankVM.LoadCode | vm/bankvm.py:38-57 | the loading loop over the text's lines computes `LoadEntries` |
| Vm.BankVM.LoadLines | vm/bankvm.py:42-57 | the loop over lines computes `LoadEntries` of their classification |
| Vm.BankVM.LoadLine | vm/bankvm.py:43-57 | one loop iteration adds a label or an instruction, or skips the line |
| Vm.BankVM.Pop | vm/bankvm.py:132 | removes and returns the top of a non-empty stack |
| Vm.BankVM.Pop2 | vm/bankvm.py:316-322 | fails on fewer than two entries; otherwise removes the top two and returns `(top, second)` |
| Vm.BankVM.DataOp | vm/bankvm.py:113-279 | `PUSH_CONST`, `PUSH_STR`, `LOAD`, `STORE`, `NEG`, `NOT` and the two sensors change the state as `ExecuteData` says |
| Vm.BankVM.BinaryOp | vm/bankvm.py:139-195 | arithmetic and comparisons change the state as `ExecuteBinary` says |
| Vm.BankVM.Jump | vm/bankvm.py:198-202 | a taken jump sets pc to the label's index minus one, or raises on an unknown label |
| Vm.BankVM.JumpOp | vm/bankvm.py:198-222 | `JMP`, `JMP_IF_TRUE` and `JMP_IF_FALSE` change the state as `ExecuteJump` says |
| Vm.BankVM.BankOp | vm/bankvm.py:228-271 | the banking instructions change the state as `ExecuteBank` says |
| Vm.BankVM.Credit | vm/bankvm.py:237-239 | adds the amount to the account, or raises with the accounts unchanged |
| Vm.BankVM.Debit | vm/bankvm.py:246-248 | subtracts the amount from the account, or raises with the accounts unchanged |
| Vm.BankVM.OtherOp | vm/bankvm.py:224-314 | `HALT`, printing, `NOP` and unknown opcodes change the state as `ExecuteOther` says |
| Vm.BankVM.ExecuteInstruction | vm/bankvm.py:109-314 | one instruction changes the state as `Execute` says, and the program and labels stay put |
| Vm.BankVM.Run | vm/bankvm.py:89-107 | the loop ends in the state and outcome `VmSpec.Run` gives; see `VmSpec.RunFrom` |
| Vm.BankVM.StepOnce | vm/bankvm.py:95-102 | one loop iteration: execute, then advance pc unless the instruction raised |
| VmLoad.TakeWhile | vm/bankvm.py:66 | the longest prefix in a character class, as `\s+` or the ASCII part of `\w+` match it |
| VmLoad.StripStart | vm/bankvm.py:43 | drops leading whitespace only |
| VmLoad.StripStartDropsSpaces | vm/bankvm.py:43 | every dropped character is whitespace |
| VmLoad.StripEnd | vm/bankvm.py:43 | drops trailing whitespace only |
| VmLoad.Strip | vm/bankvm.py:43 | a stripped line starts and ends with a non-space character |
| VmLoad.SplitWordsAreWords | vm/bankvm.py:72 | `split()` yields non-empty words without whitespace |
| VmLoad.IndexOf | vm/bankvm.py:66 | the first position of a character, or the length if it is absent |
| VmLoad.SplitLines | vm/bankvm.py:38 | splitting text yields at least one line |
| VmLoad.SplitLinesHaveNoNewline | vm/bankvm.py:38 | no split line contains a newline |
| VmLoad.LabelWords | vm/bankvm.py:50-51 | a stripped `LABEL ` line has a second word, so `split()[1]` exists |
| VmLoad.MatchQuotedLine | vm/bankvm.py:66-70 | `OPCODE "text"` matches as the opcode and the text up to the first quote |
| VmLoad.QuotedRun | vm/bankvm.py:66 | `"([^"]*)"` matches a quote, a quote-free run and the next quote |
| VmLoad.ParseInstruction | vm/bankvm.py:63-87 | a regex match gives its opcode and one quote-free text; otherwise a blank line is `NOP`, and a split line gives its first word's opcode and one operand per further word, each a number or a non-empty word |
| VmLoad.MatchQuotedNeedsQuote | vm/bankvm.py:66-70 | a line without a quote does not match the regex |
| VmLoad.Convert | vm/bankvm.py:79-85 | each operand becomes a number if it parses as one, else text |
| VmLoad.ClassifySkip | vm/bankvm.py:46-47 | blank and `#` lines produce nothing |
| VmLoad.ClassifyLabel | vm/bankvm.py:50-53 | a `LABEL x` line defines label `x` |
| VmLoad.ClassifyInstr | vm/bankvm.py:55-57 | any other line is parsed as one instruction |
| VmLoad.LoadStep | vm/bankvm.py:42-57 | loading one more line is one more loop iteration |
| VmLoad.LoadEntriesMeaning | vm/bankvm.py:40-57 | instructions are the non-label lines in order; each label maps to the index of the next instruction (its last definition wins); earlier labels are kept |
| VmSpec.FloorModRange | vm/bankvm.py:157-159 | Python's `%` gives a result on the divisor's side, smaller than the divisor |
| VmSpec.DecodeKnown | vm/bankvm.py:313-314 | an opcode is unknown iff it is none of the ones the VM handles |
| VmSpec.ExecuteData | vm/bankvm.py:113-279 | data instructions, the two sensors included, never move pc and never halt |
| VmSpec.ExecuteBank | vm/bankvm.py:228-271 | banking instructions never move pc and never halt |
| VmSpec.ExecuteBinary | vm/bankvm.py:139-195 | binary instructions never move pc and never halt |
| VmSpec.ExecuteJump | vm/bankvm.py:198-222 | a jump never halts; it moves pc only on success, to at least −1 |
| VmSpec.ExecuteOther | vm/bankvm.py:224-314 | never moves pc; only a successful `HALT` halts |
| VmSpec.DataStackEffect | vm/bankvm.py:113-279 | on success, data instructions pop and push their fixed counts and keep the rest of the stack |
| VmSpec.BankStackEffect | vm/bankvm.py:228-271 | on success, banking instructions pop their operands and keep the rest |
| VmSpec.BinaryStackEffect | vm/bankvm.py:316-322 | on success, a binary instruction pops two and pushes one |
| VmSpec.JumpStackEffect | vm/bankvm.py:198-222 | on success, a conditional jump pops one and `JMP` pops none |
| VmSpec.OtherStackEffect | vm/bankvm.py:282-311 | on success, printing pops what it prints and the rest keep the stack |
| VmSpec.PrintLiteralExecutes | vm/bankvm.py:295-296 | `PRINT_STR_LITERAL` prints its operand and changes nothing else |
| VmSpec.Operate | vm/bankvm.py:139-195 | an operator fails only with a type mismatch or its own division or modulo by zero; equality tests never fail; two numbers always give a number unless dividing by zero; `-`, `*`, `/` and `%` succeed only on numbers |
| VmSpec.ExecuteStackEffect | vm/bankvm.py:109-314 | every successful instruction has its fixed stack effect, and only jumps and `HALT` touch pc or halted |
| VmSpec.ExecutePcBound | vm/bankvm.py:198-222 | pc stays at least −1, and a raising instruction leaves pc and halted alone |
| VmSpec.UnknownOpcodeRejected | vm/bankvm.py:313-314 | an instruction raises "unknown instruction" iff its opcode is unknown, with the machine unchanged |
| VmSpec.BinaryNeedsTwo | vm/bankvm.py:316-319 | a binary instruction fails for a short stack iff fewer than two values are on it |
| VmSpec.SecondOpTop | vm/bankvm.py:143-155 | `SUB` and `DIV` compute second − top and second / top |
| VmSpec.DivisionByZeroRaises | vm/bankvm.py:151-155 | `DIV` by zero raises, after popping both operands |
| VmSpec.TruthValuesOnly | vm/bankvm.py:166-195 | comparisons and `NOT` push only 1.0 or 0.0 |
| VmSpec.StoreThenLoad | vm/bankvm.py:119-136 | `STORE` writes the account if the name is one, else the variable; `LOAD` then reads the value back |
| VmSpec.LoadUndefined | vm/bankvm.py:119-126 | `LOAD` fails iff the name is neither an account nor a variable |
| VmSpec.TransferMovesAmount | vm/bankvm.py:250-261 | the source loses the amount and the destination gains it; no other account changes |
| VmSpec.TransferChecksSourceFirst | vm/bankvm.py:256-259 | a missing source is reported before a missing destination |
| VmSpec.JumpIfFalsePops | vm/bankvm.py:214-222 | pops exactly one value and jumps iff it is 0; an unknown label raises |
| VmSpec.JumpLandsOnLabel | vm/bankvm.py:198-202 | after a `JMP` step the next index executed is the label's |
| VmSpec.StepAdvances | vm/bankvm.py:101-102 | each successful non-jump step advances pc by exactly one |
| VmSpec.Step | vm/bankvm.py:96-102 | one iteration keeps pc non-negative; an instruction that raises leaves pc and halted as they were |
| VmSpec.Advance | vm/bankvm.py:96-102 | one iteration followed by the rest of the loop stops as the loop does: finished only once halted or past the end, raised or out of steps only at an unhalted instruction in range |
| VmSpec.RunFrom | vm/bankvm.py:95-102 | the loop finishes only once halted or past the last instruction; it raises, or runs out of steps, only at an instruction in range that has not halted |

## Left out

- `PUSH_CONST %.17g` formatting and Python's `float()` parsing are one parameter, `toNumber`. The printed number is kept as a `real` in the line, and numbers do not round-trip through text.
- Numbers are exact `real`s. IEEE rounding, overflow, NaN, infinities and −0.0 are not modelled.
- `MOD` uses floored modulo. A text left operand, which Python would format with `%`, is modelled as a type error.
- `SENSOR_TEMPO` reads the clock. The elapsed time is a parameter, `elapsed`.
- Vm.BankVM.Run, VmSpec.Run, VmSpec.Execute, Pipeline.ExprInstrsEvaluate, Pipeline.ExprInstrsRun, Pipeline.UnaryEvaluates, Pipeline.BinaryEvaluates and Pipeline.ExprRunsToItsValue take one `elapsed` value for the whole run, so every `SENSOR_TEMPO` in one run reads the same value; `vm/bankvm.py:274-276` reads the clock afresh each time.
- `PRINT` and `PRINT_TOP` formatting (integer or two decimals) is not modelled. Output records the printed value (`Printed`).
- Every stderr diagnostic text, the debug flag and output, and `main`/argparse are not modelled. The diagnostic is a `Diagnostic` or `VmError` value.
- A Python exception inside an instruction is modelled as a `VmError`. This covers an `IndexError` on a missing operand (`MissingOperand`) and a `TypeError` on mixed types (`TypeMismatch`). The instruction leaves the machine as the Python code would at the point of the raise.
- Vm.BankVM.Run: takes a `fuel` bound, so a program that loops forever ends as `OutOfFuel`.
- Allocation failure (`xmalloc` exiting, `realloc` returning NULL, the NULL check in `ensure_symbol`) is not modelled. Allocation always succeeds.
- `free` of the symbol table and of labels in `codegen.c` is not modelled. Only the AST teardown is.
- `src/main.c` and `include/codegen.h` are not part of this model. They hold I/O plumbing and one prototype.
- The generator emits structured lines, and `Pipeline.Lower` reads them operand by operand. The agreement with the loader's reading of the rendered text is proved for `PRINT_STR_LITERAL` lines and for lines of single-word names (`PipelineWords.WordLineLowered`), not for lines with a `PUSH_CONST` number, whose `%.17g` text is not modelled.
- Pipeline.Lower: reads a word operand as one operand, which is what the loader reads only when the name is a single word with no whitespace or newline and no `"` (`PipelineWords.IsName`; `PipelineWords.WordLineLowered` proves the agreement for such names, `PipelineWords.SpacedNameSplits` the disagreement for a name with a space in it). The compiler passes names through unchecked; only the lexer, not part of this model, guarantees it.
- Pipeline.ReadOperands: assumes the same of each word operand; a name with whitespace in it would be read by the loader as several operands.
- Pipeline.ExprCodeLowers: holds for the text the compiler writes only when every variable and account name in the expression is a single word as `PipelineWords.IsName` says.
- Pipeline.ExprRunsToItsValue: the same assumption on the names in the expression; a `LOAD` of a name with a space would load only its first word.
- Pipeline.GeneratedJumpsResolve: the same assumption on every name in the program; a name holding a newline followed by `LABEL x` would add a label the structured reading does not see.
- Pipeline.GeneratedJumpsLand: the same assumption, for the same reason.
- Codegen.CodegenContext.AddSymbol: requires the name to be absent. `symbol_table_add` itself does not check, but its only caller calls it after a failed lookup.
- Codegen.CodegenContext.EmitVarDecl: requires no latched error. `emit_statement`, its only caller, returns early on an error.
- Codegen.CodegenContext.EmitAssignment: requires no latched error, for the same reason.
- The generator's specification keeps the symbol table as a map. The class keeps the entries as a sequence, in insertion order, and `Codegen.TableLookup` connects the two.
- Codegen.CodegenContext.CreateLabel: the label counter is an unbounded `nat`, whereas `label_counter` is a C `int` (`src/codegen.c:35`) and `label_counter++` (`src/codegen.c:97`) overflows, with undefined behaviour, after `INT_MAX` labels. Assembly.LabelInjective, CodegenLabels.GeneratedLabelsWellFormed and Pipeline.GeneratedJumpsResolve therefore hold only for generations that draw fewer than `INT_MAX` labels.
- Codegen.CodegenContext.AddSymbol: the growth of the entries buffer in `symbol_table_add` (capacity 8, then doubling; `src/codegen.c:63-71`) is not modelled; the entries are a sequence that grows by one.

## Findings

| source | as written | input that shows it | evidently intended | confidence | as-written member | corrected member |
|---|---|---|---|---|---|---|
| vm/bankvm.py:66 | the loader's regex reads a `PRINT_STR_LITERAL` operand up to the first `"`, and never undoes the escapes `emit_print_args` wrote | `print("\"")` is loaded as the text `\` | the loaded text is the literal as written: read to the first unescaped quote, then unescape | not executed | StringLiterals.QuoteCutsLiteral | StringLiterals.StringLineRoundTrip |
| vm/bankvm.py:66 | escapes are not undone, so a backslash stays doubled | `print("\\")` is loaded as the text `\\` | the literal `\` is loaded as `\` | not executed | StringLiterals.BackslashDoubled | StringLiterals.StringLineLoadsLiteral |
