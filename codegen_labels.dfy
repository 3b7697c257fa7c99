/**
 * Labels in generated code (src/codegen.c, create_label, emit_if and
 * emit_while).
 *
 * When generation succeeds, every label is written by exactly one LABEL
 * line, every JMP and JMP_IF_FALSE names a label that is written, and HALT
 * appears only as the last line. Each `if` or `while` takes the two counter
 * values it allocates, and the statements nested inside it take later ones,
 * so the labels of different statements cannot collide.
 */
module CodegenLabels {
  import opened Wrappers
  import opened Ast
  import opened Assembly
  import opened CodegenSpec

  /** The four prefixes create_label is called with. */
  const Prefixes: set<string> := {"else", "endif", "loop", "endloop"}

  /** Collects f over the lines, in order. */
  function Collect(lines: seq<AsmLine>, f: AsmLine -> seq<string>): seq<string>
  {
    if lines == [] then [] else f(lines[0]) + Collect(lines[1..], f)
  }

  /** The label a LABEL line defines. */
  function DefOf(l: AsmLine): seq<string>
  {
    if l.Instr? && l.opcode == "LABEL" && |l.operands| > 0 && l.operands[0].Word?
    then [l.operands[0].word] else []
  }

  /**
   * The label a jump names; a jump without a word operand names the empty
   * string, which is not a label.
   */
  function TargetOf(l: AsmLine): seq<string>
  {
    if l.Instr? && (l.opcode == "JMP" || l.opcode == "JMP_IF_FALSE" || l.opcode == "JMP_IF_TRUE") then
      if |l.operands| > 0 && l.operands[0].Word? then [l.operands[0].word] else [""]
    else []
  }

  function Defs(lines: seq<AsmLine>): seq<string>
  {
    Collect(lines, DefOf)
  }

  function Targets(lines: seq<AsmLine>): seq<string>
  {
    Collect(lines, TargetOf)
  }

  predicate NoDup(s: seq<string>)
  {
    forall i, j :: 0 <= i < j < |s| ==> s[i] != s[j]
  }

  /** Every jump in the lines names a label the lines define. */
  predicate Closed(lines: seq<AsmLine>)
  {
    forall t :: t in Targets(lines) ==> t in Defs(lines)
  }

  /** d is the label create_label returns for counter value k. */
  ghost predicate LabelAt(d: string, k: nat)
  {
    exists p :: p in Prefixes && d == Label(p, k)
  }

  /** Every name in ds is a label for a counter value in [lo, hi). */
  ghost predicate InRange(ds: seq<string>, lo: nat, hi: nat)
  {
    forall d :: d in ds ==> exists k :: lo <= k < hi && LabelAt(d, k)
  }

  /**
   * The lines written while the counter went from lo to hi: each label is
   * defined once and was made from one of those counter values; every jump
   * stays inside; no HALT.
   */
  ghost predicate Nested(code: seq<AsmLine>, lo: nat, hi: nat)
  {
    NoDup(Defs(code)) && InRange(Defs(code), lo, hi) && Closed(code) && Halt !in code
  }

  // ---------------------------------------------------------------------
  // Collecting
  // ---------------------------------------------------------------------

  lemma {:induction false} CollectAppend(a: seq<AsmLine>, b: seq<AsmLine>, f: AsmLine -> seq<string>)
    ensures Collect(a + b, f) == Collect(a, f) + Collect(b, f)
  {
    if a == [] {
      assert a + b == b;
    } else {
      assert (a + b)[0] == a[0];
      assert (a + b)[1..] == a[1..] + b;
      CollectAppend(a[1..], b, f);
    }
  }

  lemma CollectSingle(l: AsmLine, f: AsmLine -> seq<string>)
    ensures Collect([l], f) == f(l)
  {
    assert [l][1..] == [];
  }

  lemma Collect3(a: seq<AsmLine>, b: seq<AsmLine>, c: seq<AsmLine>, f: AsmLine -> seq<string>)
    ensures Collect(a + b + c, f) == Collect(a, f) + Collect(b, f) + Collect(c, f)
  {
    CollectAppend(a, b, f);
    CollectAppend(a + b, c, f);
  }

  lemma CollectPair(l1: AsmLine, l2: AsmLine, f: AsmLine -> seq<string>)
    ensures Collect([l1, l2], f) == f(l1) + f(l2)
  {
    assert [l1, l2] == [l1] + [l2];
    CollectAppend([l1], [l2], f);
    CollectSingle(l1, f);
    CollectSingle(l2, f);
  }

  /** A line that is neither a label, a jump nor HALT. */
  predicate Plain(l: AsmLine)
  {
    DefOf(l) == [] && TargetOf(l) == [] && l != Halt
  }

  /** Code without labels, jumps or HALT, such as an expression's. */
  ghost predicate Straight(code: seq<AsmLine>)
  {
    Defs(code) == [] && Targets(code) == [] && Halt !in code
  }

  lemma StraightAppend(a: seq<AsmLine>, b: seq<AsmLine>)
    requires Straight(a) && Straight(b)
    ensures Straight(a + b)
  {
    CollectAppend(a, b, DefOf);
    CollectAppend(a, b, TargetOf);
  }

  lemma StraightLine(l: AsmLine)
    requires Plain(l)
    ensures Straight([l])
  {
    CollectSingle(l, DefOf);
    CollectSingle(l, TargetOf);
  }

  lemma {:induction false} ExprCodeStraight(e: Expr)
    ensures Straight(ExprCode(e))
  {
    match e
    case Number(x) => StraightLine(Instr("PUSH_CONST", [Num(x)]));
    case Identifier(n) => StraightLine(Op("LOAD", n));
    case Sensor(k) => StraightLine(Nullary(SensorOpcode(k)));
    case Unary(op, a) =>
      ExprCodeStraight(a);
      StraightLine(Nullary(UnaryOpcode(op)));
      StraightAppend(ExprCode(a), [Nullary(UnaryOpcode(op))]);
    case Binary(op, l, r) =>
      ExprCodeStraight(l);
      ExprCodeStraight(r);
      StraightAppend(ExprCode(l), ExprCode(r));
      StraightLine(Nullary(BinaryOpcode(op)));
      StraightAppend(ExprCode(l) + ExprCode(r), [Nullary(BinaryOpcode(op))]);
  }

  lemma PrintArgStraight(a: PrintArg)
    ensures Straight(PrintArgCode(a))
  {
    if a.StringArg? {
      StraightLine(StringLine(a.text));
    } else {
      ExprCodeStraight(a.expression);
      StraightLine(Nullary("PRINT"));
      StraightAppend(ExprCode(a.expression), [Nullary("PRINT")]);
    }
  }

  lemma {:induction false} PrintCodeStraight(args: seq<PrintArg>)
    ensures Straight(PrintCode(args))
  {
    if args == [] {
      assert Defs([]) == [] && Targets([]) == [];
    } else {
      PrintCodeStraight(args[..|args| - 1]);
      PrintArgStraight(args[|args| - 1]);
      StraightAppend(PrintCode(args[..|args| - 1]), PrintArgCode(args[|args| - 1]));
    }
  }

  // ---------------------------------------------------------------------
  // Label names
  // ---------------------------------------------------------------------

  lemma LabelAtLabel(p: string, k: nat)
    requires p in Prefixes
    ensures LabelAt(Label(p, k), k)
  {
  }

  /** A label names a single counter value. */
  lemma LabelAtInjective(d: string, k1: nat, k2: nat)
    requires LabelAt(d, k1) && LabelAt(d, k2)
    ensures k1 == k2
  {
    var p1 :| p1 in Prefixes && d == Label(p1, k1);
    var p2 :| p2 in Prefixes && d == Label(p2, k2);
    LabelInjective(p1, k1, p2, k2);
  }

  /** A label made from a counter value outside [lo, hi) is not among ds. */
  lemma NotInRange(d: string, k: nat, ds: seq<string>, lo: nat, hi: nat)
    requires LabelAt(d, k) && InRange(ds, lo, hi) && (k < lo || hi <= k)
    ensures d !in ds
  {
    if d in ds {
      var k' :| lo <= k' < hi && LabelAt(d, k');
      LabelAtInjective(d, k, k');
      assert false;
    }
  }

  /** Label lists from disjoint counter ranges share no label. */
  lemma RangesApart(xs: seq<string>, lo1: nat, hi1: nat, ys: seq<string>, lo2: nat, hi2: nat)
    requires InRange(xs, lo1, hi1) && InRange(ys, lo2, hi2) && hi1 <= lo2
    ensures forall d :: d in xs ==> d !in ys
  {
    forall d | d in xs
      ensures d !in ys
    {
      var k :| lo1 <= k < hi1 && LabelAt(d, k);
      NotInRange(d, k, ys, lo2, hi2);
    }
  }

  lemma NoDupAppend(xs: seq<string>, ys: seq<string>)
    requires NoDup(xs) && NoDup(ys) && forall d :: d in xs ==> d !in ys
    ensures NoDup(xs + ys)
  {
    var all := xs + ys;
    forall i, j | 0 <= i < j < |all|
      ensures all[i] != all[j]
    {
      if i < |xs| <= j {
        assert all[i] in xs && all[j] == ys[j - |xs|];
      }
    }
  }

  lemma InRangeAppend(xs: seq<string>, ys: seq<string>, lo: nat, hi: nat)
    requires InRange(xs, lo, hi) && InRange(ys, lo, hi)
    ensures InRange(xs + ys, lo, hi)
  {
  }

  lemma InRangeWiden(xs: seq<string>, lo: nat, hi: nat, lo': nat, hi': nat)
    requires InRange(xs, lo, hi) && lo' <= lo && hi <= hi'
    ensures InRange(xs, lo', hi')
  {
    forall d | d in xs
      ensures exists k :: lo' <= k < hi' && LabelAt(d, k)
    {
      var k :| lo <= k < hi && LabelAt(d, k);
      assert lo' <= k < hi';
    }
  }

  // ---------------------------------------------------------------------
  // The three shapes of control-flow code
  // ---------------------------------------------------------------------

  /** The lines an `if` with an else branch writes. */
  function IfElseShape(cond: seq<AsmLine>, thenCode: seq<AsmLine>, elseCode: seq<AsmLine>, elseL: string, endL: string): seq<AsmLine>
  {
    cond + [Op("JMP_IF_FALSE", elseL)] + thenCode + [Op("JMP", endL), Op("LABEL", elseL)] + elseCode + [Op("LABEL", endL)]
  }

  /** The lines an `if` without an else branch writes. */
  function IfShape(cond: seq<AsmLine>, thenCode: seq<AsmLine>, endL: string): seq<AsmLine>
  {
    cond + [Op("JMP_IF_FALSE", endL)] + thenCode + [Op("LABEL", endL)]
  }

  /** The lines a `while` writes. */
  function WhileShape(cond: seq<AsmLine>, body: seq<AsmLine>, startL: string, endL: string): seq<AsmLine>
  {
    [Op("LABEL", startL)] + cond + [Op("JMP_IF_FALSE", endL)] + body + [Op("JMP", startL), Op("LABEL", endL)]
  }

  lemma IfElseShapeAfter(out: seq<AsmLine>, cond: seq<AsmLine>, thenCode: seq<AsmLine>, elseCode: seq<AsmLine>, elseL: string, endL: string)
    ensures out + cond + [Op("JMP_IF_FALSE", elseL)] + thenCode + [Op("JMP", endL), Op("LABEL", elseL)] + elseCode + [Op("LABEL", endL)]
      == out + IfElseShape(cond, thenCode, elseCode, elseL, endL)
  {
  }

  lemma IfShapeAfter(out: seq<AsmLine>, cond: seq<AsmLine>, thenCode: seq<AsmLine>, endL: string)
    ensures out + cond + [Op("JMP_IF_FALSE", endL)] + thenCode + [Op("LABEL", endL)] == out + IfShape(cond, thenCode, endL)
  {
  }

  lemma WhileShapeAfter(out: seq<AsmLine>, cond: seq<AsmLine>, body: seq<AsmLine>, startL: string, endL: string)
    ensures out + [Op("LABEL", startL)] + cond + [Op("JMP_IF_FALSE", endL)] + body + [Op("JMP", startL), Op("LABEL", endL)]
      == out + WhileShape(cond, body, startL, endL)
  {
  }

  lemma IfElseCollectBy(cond: seq<AsmLine>, thenCode: seq<AsmLine>, elseCode: seq<AsmLine>, elseL: string, endL: string, f: AsmLine -> seq<string>)
    ensures Collect(IfElseShape(cond, thenCode, elseCode, elseL, endL), f) ==
      Collect(cond, f) + f(Op("JMP_IF_FALSE", elseL)) + Collect(thenCode, f)
        + (f(Op("JMP", endL)) + f(Op("LABEL", elseL))) + Collect(elseCode, f) + f(Op("LABEL", endL))
  {
    var jif, mid, end := [Op("JMP_IF_FALSE", elseL)], [Op("JMP", endL), Op("LABEL", elseL)], [Op("LABEL", endL)];
    Collect3(cond, jif, thenCode, f);
    Collect3(cond + jif + thenCode, mid, elseCode, f);
    CollectAppend(cond + jif + thenCode + mid + elseCode, end, f);
    CollectSingle(jif[0], f);
    CollectSingle(end[0], f);
    CollectPair(mid[0], mid[1], f);
  }

  /** What the jump and label lines of control-flow code define and name. */
  lemma ControlLines(x: string)
    ensures DefOf(Op("JMP_IF_FALSE", x)) == [] && TargetOf(Op("JMP_IF_FALSE", x)) == [x]
    ensures DefOf(Op("JMP", x)) == [] && TargetOf(Op("JMP", x)) == [x]
    ensures DefOf(Op("LABEL", x)) == [x] && TargetOf(Op("LABEL", x)) == []
  {
    assert "JMP_IF_FALSE" != "LABEL" && "JMP" != "LABEL";
  }

  lemma IfElseCollect(cond: seq<AsmLine>, thenCode: seq<AsmLine>, elseCode: seq<AsmLine>, elseL: string, endL: string)
    requires Straight(cond)
    ensures Defs(IfElseShape(cond, thenCode, elseCode, elseL, endL)) == Defs(thenCode) + [elseL] + Defs(elseCode) + [endL]
    ensures Targets(IfElseShape(cond, thenCode, elseCode, elseL, endL)) == [elseL] + Targets(thenCode) + [endL] + Targets(elseCode)
  {
    ControlLines(elseL);
    ControlLines(endL);
    IfElseCollectBy(cond, thenCode, elseCode, elseL, endL, DefOf);
    IfElseCollectBy(cond, thenCode, elseCode, elseL, endL, TargetOf);
    EmptiesDropped(Defs(cond), Defs(thenCode), Defs(elseCode), elseL, endL);
    EmptiesDropped(Targets(cond), Targets(thenCode), Targets(elseCode), elseL, endL);
  }

  /** Concatenation with the empty pieces of straight code and unlabelled lines. */
  lemma EmptiesDropped(c: seq<string>, t: seq<string>, e: seq<string>, x: string, y: string)
    requires c == []
    ensures c + [] + t + ([] + [x]) + e + [y] == t + [x] + e + [y]
    ensures c + [x] + t + ([y] + []) + e + [] == [x] + t + [y] + e
  {
  }

  lemma IfCollectBy(cond: seq<AsmLine>, thenCode: seq<AsmLine>, endL: string, f: AsmLine -> seq<string>)
    ensures Collect(IfShape(cond, thenCode, endL), f) ==
      Collect(cond, f) + f(Op("JMP_IF_FALSE", endL)) + Collect(thenCode, f) + f(Op("LABEL", endL))
  {
    var jif, end := [Op("JMP_IF_FALSE", endL)], [Op("LABEL", endL)];
    Collect3(cond, jif, thenCode, f);
    CollectAppend(cond + jif + thenCode, end, f);
    CollectSingle(jif[0], f);
    CollectSingle(end[0], f);
  }

  lemma IfCollect(cond: seq<AsmLine>, thenCode: seq<AsmLine>, endL: string)
    requires Straight(cond)
    ensures Defs(IfShape(cond, thenCode, endL)) == Defs(thenCode) + [endL]
    ensures Targets(IfShape(cond, thenCode, endL)) == [endL] + Targets(thenCode)
  {
    ControlLines(endL);
    IfCollectBy(cond, thenCode, endL, DefOf);
    IfCollectBy(cond, thenCode, endL, TargetOf);
    EmptiesDroppedIf(Defs(cond), Defs(thenCode), endL);
    EmptiesDroppedIf(Targets(cond), Targets(thenCode), endL);
  }

  lemma EmptiesDroppedIf(c: seq<string>, t: seq<string>, y: string)
    requires c == []
    ensures c + [] + t + [y] == t + [y]
    ensures c + [y] + t + [] == [y] + t
  {
  }

  lemma WhileCollectBy(cond: seq<AsmLine>, body: seq<AsmLine>, startL: string, endL: string, f: AsmLine -> seq<string>)
    ensures Collect(WhileShape(cond, body, startL, endL), f) ==
      f(Op("LABEL", startL)) + Collect(cond, f) + f(Op("JMP_IF_FALSE", endL)) + Collect(body, f)
        + (f(Op("JMP", startL)) + f(Op("LABEL", endL)))
  {
    var start, jif, tail := [Op("LABEL", startL)], [Op("JMP_IF_FALSE", endL)], [Op("JMP", startL), Op("LABEL", endL)];
    Collect3(start, cond, jif, f);
    Collect3(start + cond + jif, body, tail, f);
    CollectSingle(start[0], f);
    CollectSingle(jif[0], f);
    CollectPair(tail[0], tail[1], f);
  }

  lemma WhileCollect(cond: seq<AsmLine>, body: seq<AsmLine>, startL: string, endL: string)
    requires Straight(cond)
    ensures Defs(WhileShape(cond, body, startL, endL)) == [startL] + Defs(body) + [endL]
    ensures Targets(WhileShape(cond, body, startL, endL)) == [endL] + Targets(body) + [startL]
  {
    ControlLines(startL);
    ControlLines(endL);
    WhileCollectBy(cond, body, startL, endL, DefOf);
    WhileCollectBy(cond, body, startL, endL, TargetOf);
    EmptiesDroppedWhile(Defs(cond), Defs(body), startL, endL);
    EmptiesDroppedWhile(Targets(cond), Targets(body), endL, startL);
  }

  lemma EmptiesDroppedWhile(c: seq<string>, b: seq<string>, x: string, y: string)
    requires c == []
    ensures [x] + c + [] + b + ([] + [y]) == [x] + b + [y]
    ensures [] + c + [x] + b + ([y] + []) == [x] + b + [y]
  {
  }

  lemma IfElsePieces(c: nat, cond: seq<AsmLine>, thenCode: seq<AsmLine>, c3: nat, elseCode: seq<AsmLine>, c5: nat, elseL: string, endL: string)
    requires LabelAt(elseL, c) && LabelAt(endL, c + 1)
    requires Straight(cond) && Nested(thenCode, c + 2, c3) && Nested(elseCode, c3, c5) && c + 2 <= c3 <= c5
    ensures Nested(IfElseShape(cond, thenCode, elseCode, elseL, endL), c, c5)
  {
    IfElseCollect(cond, thenCode, elseCode, elseL, endL);
    var dt, de := Defs(thenCode), Defs(elseCode);
    NotInRange(elseL, c, dt, c + 2, c3);
    NoDupAppend(dt, [elseL]);
    InRangeWiden(dt, c + 2, c3, c, c3);
    assert InRange([elseL], c, c3);
    InRangeAppend(dt, [elseL], c, c3);
    RangesApart(dt + [elseL], c, c3, de, c3, c5);
    NoDupAppend(dt + [elseL], de);
    InRangeWiden(dt + [elseL], c, c3, c, c5);
    InRangeWiden(de, c3, c5, c, c5);
    InRangeAppend(dt + [elseL], de, c, c5);
    NotInRange(endL, c + 1, dt, c + 2, c3);
    NotInRange(endL, c + 1, de, c3, c5);
    assert endL != elseL by {
      if endL == elseL {
        LabelAtInjective(endL, c, c + 1);
        assert false;
      }
    }
    assert endL !in dt + [elseL] + de;
    NoDupAppend(dt + [elseL] + de, [endL]);
    assert InRange([endL], c, c5);
    InRangeAppend(dt + [elseL] + de, [endL], c, c5);
  }

  lemma IfPieces(c: nat, cond: seq<AsmLine>, thenCode: seq<AsmLine>, c3: nat, endL: string)
    requires LabelAt(endL, c + 1)
    requires Straight(cond) && Nested(thenCode, c + 2, c3) && c + 2 <= c3
    ensures Nested(IfShape(cond, thenCode, endL), c, c3)
  {
    IfCollect(cond, thenCode, endL);
    var dt := Defs(thenCode);
    NotInRange(endL, c + 1, dt, c + 2, c3);
    NoDupAppend(dt, [endL]);
    InRangeWiden(dt, c + 2, c3, c, c3);
    assert InRange([endL], c, c3);
    InRangeAppend(dt, [endL], c, c3);
  }

  lemma WhilePieces(c: nat, cond: seq<AsmLine>, body: seq<AsmLine>, c3: nat, startL: string, endL: string)
    requires LabelAt(startL, c) && LabelAt(endL, c + 1)
    requires Straight(cond) && Nested(body, c + 2, c3) && c + 2 <= c3
    ensures Nested(WhileShape(cond, body, startL, endL), c, c3)
  {
    WhileCollect(cond, body, startL, endL);
    var db := Defs(body);
    NotInRange(startL, c, db, c + 2, c3);
    NotInRange(endL, c + 1, db, c + 2, c3);
    NoDupAppend([startL], db);
    assert endL != startL by {
      if endL == startL {
        LabelAtInjective(endL, c, c + 1);
        assert false;
      }
    }
    NoDupAppend([startL] + db, [endL]);
    assert InRange([startL], c, c3);
    assert InRange([endL], c, c3);
    InRangeWiden(db, c + 2, c3, c, c3);
    InRangeAppend([startL], db, c, c3);
    InRangeAppend([startL] + db, [endL], c, c3);
  }

  /** Code labelled from [lo, mid) followed by code labelled from [mid, hi). */
  lemma NestedConcat(a: seq<AsmLine>, b: seq<AsmLine>, lo: nat, mid: nat, hi: nat)
    requires Nested(a, lo, mid) && Nested(b, mid, hi) && lo <= mid <= hi
    ensures Nested(a + b, lo, hi)
  {
    CollectAppend(a, b, DefOf);
    CollectAppend(a, b, TargetOf);
    RangesApart(Defs(a), lo, mid, Defs(b), mid, hi);
    NoDupAppend(Defs(a), Defs(b));
    InRangeWiden(Defs(a), lo, mid, lo, hi);
    InRangeWiden(Defs(b), mid, hi, lo, hi);
    InRangeAppend(Defs(a), Defs(b), lo, hi);
  }

  // ---------------------------------------------------------------------
  // Statements
  // ---------------------------------------------------------------------

  /** What a successful statement or list wrote, seen through its counters. */
  ghost predicate WellLabelled(g: Gen, r: Gen)
    requires g.out <= r.out
  {
    Nested(r.out[|g.out|..], g.counter, r.counter)
  }

  lemma LabelledBy(g: Gen, r: Gen, added: seq<AsmLine>)
    requires r.out == g.out + added && Nested(added, g.counter, r.counter)
    ensures g.out <= r.out && WellLabelled(g, r)
  {
    assert r.out[|g.out|..] == added;
  }

  /** Straight-line code keeps the labelling of what came before. */
  lemma StraightLabelled(g: Gen, r: Gen, added: seq<AsmLine>)
    requires r.out == g.out + added && Straight(added)
    ensures g.out <= r.out && WellLabelled(g, r)
  {
    LabelledBy(g, r, added);
  }

  /** STORE and ACCOUNT_INIT lines are neither labels, jumps nor HALT. */
  lemma NameLinesStraight(x: string)
    ensures Straight([Op("STORE", x)]) && Straight([Op("ACCOUNT_INIT", x)])
  {
    StraightLine(Op("STORE", x));
    StraightLine(Op("ACCOUNT_INIT", x));
  }

  lemma VarDeclStraight(x: string, e: Expr)
    ensures Straight([Op("ACCOUNT_INIT", x)] + ExprCode(e) + [Op("STORE", x)])
  {
    var init, store := Op("ACCOUNT_INIT", x), Op("STORE", x);
    ExprCodeStraight(e);
    NameLinesStraight(x);
    StraightAppend([init], ExprCode(e));
    StraightAppend([init] + ExprCode(e), [store]);
  }

  lemma VarDeclLabels(x: string, e: Expr, g: Gen)
    requires g.error.None? && GenStmt(VarDecl(x, e), g).error.None?
    ensures g.out <= GenStmt(VarDecl(x, e), g).out && WellLabelled(g, GenStmt(VarDecl(x, e), g))
  {
    var r := GenStmt(VarDecl(x, e), g);
    var added := [Op("ACCOUNT_INIT", x)] + ExprCode(e) + [Op("STORE", x)];
    assert r.out == g.out + added by {
      VarDeclOutcome(x, e, g);
    }
    VarDeclStraight(x, e);
    StraightLabelled(g, r, added);
  }

  lemma AssignmentLabels(x: string, e: Expr, g: Gen)
    requires g.error.None?
    ensures g.out <= GenStmt(Assignment(x, e), g).out && WellLabelled(g, GenStmt(Assignment(x, e), g))
  {
    var r := GenStmt(Assignment(x, e), g);
    var added := ExprCode(e) + [Op("STORE", x)];
    assert r.out == g.out + added by {
      AssignmentOutcome(x, e, g);
    }
    assert Straight(added) by {
      ExprCodeStraight(e);
      NameLinesStraight(x);
      StraightAppend(ExprCode(e), [Op("STORE", x)]);
    }
    StraightLabelled(g, r, added);
  }

  lemma CommandLabels(c: Command, g: Gen)
    requires g.error.None? && GenCommand(c, g).error.None?
    ensures g.out <= GenCommand(c, g).out && WellLabelled(g, GenCommand(c, g))
  {
    if c.Print? {
      PrintOutcome(c.args, g);
      PrintCodeStraight(c.args);
      assert GenCommand(c, g) == GenPrintArgs(c.args, g);
      StraightLabelled(g, GenCommand(c, g), PrintCode(c.args));
    } else {
      BankingCommandOutcome(c, g);
      var line := Instr(CommandOpcode(c), Words(CommandAccounts(c)));
      ExprCodeStraight(Amount(c));
      StraightLine(line);
      StraightAppend(ExprCode(Amount(c)), [line]);
      StraightLabelled(g, GenCommand(c, g), ExprCode(Amount(c)) + [line]);
    }
  }

  lemma PlainStmtLabels(s: Stmt, g: Gen)
    requires !s.If? && !s.While?
    requires g.error.None? && GenStmt(s, g).error.None?
    ensures g.out <= GenStmt(s, g).out && WellLabelled(g, GenStmt(s, g))
  {
    match s {
      case VarDecl(x, e) => VarDeclLabels(x, e, g);
      case Assignment(x, e) => AssignmentLabels(x, e, g);
      case CommandStmt(c) =>
        assert GenStmt(s, g) == GenCommand(c, g);
        CommandLabels(c, g);
    }
  }

  lemma {:induction false} StmtLabels(s: Stmt, g: Gen)
    requires g.error.None? && GenStmt(s, g).error.None?
    ensures g.out <= GenStmt(s, g).out && WellLabelled(g, GenStmt(s, g))
    decreases s, 2
  {
    match s
    case If(_, _, _) => IfLabels(s, g);
    case While(_, _) => WhileLabels(s, g);
    case _ => PlainStmtLabels(s, g);
  }

  lemma {:induction false} IfLabels(s: Stmt, g: Gen)
    requires s.If? && g.error.None? && GenIf(s, g).error.None?
    ensures g.out <= GenIf(s, g).out && WellLabelled(g, GenIf(s, g))
    decreases s, 1
  {
    if s.elseBranch.Else? {
      IfElseLabels(s, g);
    } else {
      IfThenLabels(s, g);
    }
  }

  lemma {:induction false} IfThenLabels(s: Stmt, g: Gen)
    requires s.If? && s.elseBranch.NoElse? && g.error.None? && GenIf(s, g).error.None?
    ensures g.out <= GenIf(s, g).out && WellLabelled(g, GenIf(s, g))
    decreases s, 0
  {
    var c := g.counter;
    var r := GenIf(s, g);
    var endLabel := Label("endif", c + 1);
    var cond, g2 := IfHead(s, g);
    var g3 := GenList(s.thenBranch, g2);
    var thenCode := g3.out[|g2.out|..];
    assert g3.out == g.out + cond + [Op("JMP_IF_FALSE", endLabel)] + thenCode;
    assert r.out == g3.out + [Op("LABEL", endLabel)];
    IfShapeAfter(g.out, cond, thenCode, endLabel);
    LabelAtLabel("endif", c + 1);
    ListLabels(s.thenBranch, g2);
    IfPieces(c, cond, thenCode, r.counter, endLabel);
    LabelledBy(g, r, IfShape(cond, thenCode, endLabel));
  }

  lemma {:induction false} IfElseLabels(s: Stmt, g: Gen)
    requires s.If? && s.elseBranch.Else? && g.error.None? && GenIf(s, g).error.None?
    ensures g.out <= GenIf(s, g).out && WellLabelled(g, GenIf(s, g))
    decreases s, 0
  {
    var c := g.counter;
    var r := GenIf(s, g);
    var elseLabel, endLabel := Label("else", c), Label("endif", c + 1);
    var cond, g2 := IfHead(s, g);
    var g3 := GenList(s.thenBranch, g2);
    var thenCode := g3.out[|g2.out|..];
    var g4 := IfElseMiddle(s, g, g2);
    var g5 := GenList(s.elseBranch.stmts, g4);
    var elseCode := g5.out[|g4.out|..];
    assert g3.out == g.out + cond + [Op("JMP_IF_FALSE", elseLabel)] + thenCode;
    assert g5.out == g3.out + [Op("JMP", endLabel), Op("LABEL", elseLabel)] + elseCode;
    assert r.out == g5.out + [Op("LABEL", endLabel)];
    IfElseShapeAfter(g.out, cond, thenCode, elseCode, elseLabel, endLabel);
    LabelAtLabel("else", c);
    LabelAtLabel("endif", c + 1);
    ListLabels(s.thenBranch, g2);
    ListLabels(s.elseBranch.stmts, g4);
    IfElsePieces(c, cond, thenCode, g3.counter, elseCode, r.counter, elseLabel, endLabel);
    LabelledBy(g, r, IfElseShape(cond, thenCode, elseCode, elseLabel, endLabel));
  }

  /**
   * The lines an `if` writes before its then-branch: the condition and the
   * conditional jump. Returns the state the then-branch starts from.
   */
  lemma IfHead(s: Stmt, g: Gen) returns (cond: seq<AsmLine>, g2: Gen)
    requires s.If? && g.error.None? && GenIf(s, g).error.None?
    ensures var jumpTo := if s.elseBranch.Else? then Label("else", g.counter) else Label("endif", g.counter + 1);
      && g2 == Emit(GenExpr(s.condition, g.(counter := g.counter + 2)), Op("JMP_IF_FALSE", jumpTo))
      && g2.out == g.out + cond + [Op("JMP_IF_FALSE", jumpTo)]
    ensures Straight(cond) && g2.error.None? && g2.counter == g.counter + 2
    ensures var g3 := GenList(s.thenBranch, g2);
      && g3.error.None? && g2.out <= g3.out && g2.counter <= g3.counter
      && (s.elseBranch.NoElse? ==> GenIf(s, g) == Emit(g3, Op("LABEL", Label("endif", g.counter + 1))))
  {
    var c := g.counter;
    var elseLabel, endLabel := Label("else", c), Label("endif", c + 1);
    cond := ExprCode(s.condition);
    var g1 := GenExpr(s.condition, g.(counter := c + 2));
    g2 := Emit(g1, Op("JMP_IF_FALSE", if s.elseBranch.Else? then elseLabel else endLabel));
    var g3 := GenList(s.thenBranch, g2);
    var g4 := Emit(Emit(g3, Op("JMP", endLabel)), Op("LABEL", elseLabel));
    GenExprAppendsCode(s.condition, g.(counter := c + 2));
    ExprCodeStraight(s.condition);
    ListExtends(s.thenBranch, g2);
    if s.elseBranch.Else? {
      ListExtends(s.elseBranch.stmts, g4);
    }
  }

  /** The lines an `if` writes between its two branches. */
  lemma IfElseMiddle(s: Stmt, g: Gen, g2: Gen) returns (g4: Gen)
    requires s.If? && s.elseBranch.Else? && g.error.None? && GenIf(s, g).error.None?
    requires g2 == Emit(GenExpr(s.condition, g.(counter := g.counter + 2)), Op("JMP_IF_FALSE", Label("else", g.counter)))
    ensures var g3 := GenList(s.thenBranch, g2);
      g4 == Emit(Emit(g3, Op("JMP", Label("endif", g.counter + 1))), Op("LABEL", Label("else", g.counter)))
    ensures var g3 := GenList(s.thenBranch, g2);
      g4.out == g3.out + [Op("JMP", Label("endif", g.counter + 1)), Op("LABEL", Label("else", g.counter))] && g4.counter == g3.counter
    ensures var g5 := GenList(s.elseBranch.stmts, g4);
      && g4.error.None? && g4.out <= g5.out && g4.counter <= g5.counter
      && GenIf(s, g) == Emit(g5, Op("LABEL", Label("endif", g.counter + 1)))
  {
    var g3 := GenList(s.thenBranch, g2);
    g4 := Emit(Emit(g3, Op("JMP", Label("endif", g.counter + 1))), Op("LABEL", Label("else", g.counter)));
    ListExtends(s.elseBranch.stmts, g4);
  }

  lemma {:induction false} WhileLabels(s: Stmt, g: Gen)
    requires s.While? && g.error.None? && GenWhile(s, g).error.None?
    ensures g.out <= GenWhile(s, g).out && WellLabelled(g, GenWhile(s, g))
    decreases s, 1
  {
    var c := g.counter;
    var r := GenWhile(s, g);
    var startLabel, endLabel := Label("loop", c), Label("endloop", c + 1);
    var cond, g2 := WhileHead(s, g);
    var g3 := GenList(s.body, g2);
    var body := g3.out[|g2.out|..];
    assert g3.out == g.out + [Op("LABEL", startLabel)] + cond + [Op("JMP_IF_FALSE", endLabel)] + body;
    assert r.out == g3.out + [Op("JMP", startLabel), Op("LABEL", endLabel)];
    WhileShapeAfter(g.out, cond, body, startLabel, endLabel);
    LabelAtLabel("loop", c);
    LabelAtLabel("endloop", c + 1);
    ListLabels(s.body, g2);
    WhilePieces(c, cond, body, r.counter, startLabel, endLabel);
    LabelledBy(g, r, WhileShape(cond, body, startLabel, endLabel));
  }

  /**
   * The lines a `while` writes before its body. Returns the state the body
   * starts from.
   */
  lemma WhileHead(s: Stmt, g: Gen) returns (cond: seq<AsmLine>, g2: Gen)
    requires s.While? && g.error.None? && GenWhile(s, g).error.None?
    ensures g2.out == g.out + [Op("LABEL", Label("loop", g.counter))] + cond + [Op("JMP_IF_FALSE", Label("endloop", g.counter + 1))]
    ensures Straight(cond) && g2.error.None? && g2.counter == g.counter + 2
    ensures var g3 := GenList(s.body, g2);
      && g3.error.None? && g2.out <= g3.out && g2.counter <= g3.counter
      && GenWhile(s, g) == Emit(Emit(g3, Op("JMP", Label("loop", g.counter))), Op("LABEL", Label("endloop", g.counter + 1)))
  {
    var c := g.counter;
    var startLabel, endLabel := Label("loop", c), Label("endloop", c + 1);
    cond := ExprCode(s.condition);
    var g1 := Emit(g.(counter := c + 2), Op("LABEL", startLabel));
    g2 := Emit(GenExpr(s.condition, g1), Op("JMP_IF_FALSE", endLabel));
    GenExprAppendsCode(s.condition, g1);
    ExprCodeStraight(s.condition);
    ListExtends(s.body, g2);
  }

  lemma {:induction false} ListLabels(stmts: seq<Stmt>, g: Gen)
    requires g.error.None? && GenList(stmts, g).error.None?
    ensures g.out <= GenList(stmts, g).out && WellLabelled(g, GenList(stmts, g))
    decreases stmts, 1
  {
    var r := GenList(stmts, g);
    if stmts == [] {
      assert r.out[|g.out|..] == [];
    } else {
      var init, last := stmts[..|stmts| - 1], stmts[|stmts| - 1];
      var g0 := GenList(init, g);
      assert r == GenStmt(last, g0);
      assert g0.error.None? && g.out <= g0.out && g.counter <= g0.counter by {
        ListExtends(init, g);
        StmtExtends(last, g0);
      }
      assert g0.out <= r.out && g0.counter <= r.counter by {
        StmtExtends(last, g0);
      }
      var a, b := g0.out[|g.out|..], r.out[|g0.out|..];
      assert Nested(a, g.counter, g0.counter) by {
        ListLabels(init, g);
      }
      assert Nested(b, g0.counter, r.counter) by {
        StmtLabels(last, g0);
      }
      assert r.out[|g.out|..] == a + b;
      NestedConcat(a, b, g.counter, g0.counter, r.counter);
    }
  }

  /** Well-labelled code between the header comment and HALT stays well labelled. */
  lemma Framed(body: seq<AsmLine>, hi: nat)
    requires Nested(body, 0, hi)
    ensures var added := [Header] + body + [Halt];
      && Halt !in added[..|added| - 1]
      && NoDup(Defs(added))
      && InRange(Defs(added), 0, hi)
      && forall t :: t in Targets(added) ==> t in Defs(added)
  {
    var added := [Header] + body + [Halt];
    assert added[..|added| - 1] == [Header] + body;
    Collect3([Header], body, [Halt], DefOf);
    Collect3([Header], body, [Halt], TargetOf);
    CollectSingle(Header, DefOf);
    CollectSingle(Header, TargetOf);
    CollectSingle(Halt, DefOf);
    CollectSingle(Halt, TargetOf);
    assert Defs(added) == Defs(body);
  }

  /**
   * In the output of a successful generate_assembly every label is defined
   * once, every jump names a defined label, and HALT appears only as the
   * last line, after the header comment.
   */
  lemma GeneratedLabelsWellFormed(p: Program, prior: seq<AsmLine>)
    requires Generate(p, prior).error.None?
    ensures prior <= Generate(p, prior).out
    ensures var added := Generate(p, prior).out[|prior|..];
      && |added| >= 2 && added[0] == Header && added[|added| - 1] == Halt
      && Halt !in added[..|added| - 1]
      && NoDup(Defs(added))
      && InRange(Defs(added), 0, Generate(p, prior).counter)
      && forall t :: t in Targets(added) ==> t in Defs(added)
  {
    GenerateShape(p, prior);
    var r := Generate(p, prior);
    var g0 := Emit(Gen(prior, 0, None, map[]), Header);
    var g1 := GenList(p.statements, g0);
    assert r == Emit(g1, Halt);
    var body := g1.out[|g0.out|..];
    assert g1.error.None? && Nested(body, 0, g1.counter) by {
      ListExtends(p.statements, g0);
      ListLabels(p.statements, g0);
    }
    assert r.out[|prior|..] == [Header] + body + [Halt];
    Framed(body, g1.counter);
  }
}
