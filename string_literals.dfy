/**
 * String literals between the compiler and the VM. emit_print_args writes
 * a literal as `PRINT_STR_LITERAL "<escaped text>"`, escaping backslash,
 * double quote, newline and tab; _parse_instruction reads the operand with
 * the pattern `"([^"]*)"`, which stops at the first double quote and
 * undoes no escape. The first half of this module shows what the VM prints
 * as written; the second half defines the escape-aware reading the
 * escaping is designed for and proves it recovers the literal.
 */
module StringLiterals {
  import opened Wrappers
  import opened Assembly
  import opened CodegenSpec
  import V = VmSpec
  import L = VmLoad
  import P = Pipeline

  /** The text emit_print_args writes for a literal, before its newline. */
  function StringLineText(text: string): string
  {
    "PRINT_STR_LITERAL \"" + Escape(text) + "\""
  }

  lemma OpcodeIsWord()
    ensures forall i :: 0 <= i < |"PRINT_STR_LITERAL"| ==> L.IsWordChar("PRINT_STR_LITERAL"[i])
    ensures V.Decode("PRINT_STR_LITERAL") == V.PrintStrLiteral
  {
  }

  /** A string that ends with a double quote has one before its end. */
  lemma QuoteBeforeEnd(s: string)
    ensures L.IndexOf(s + "\"", '"') < |s + "\""|
  {
    var t := s + "\"";
    assert t[|t| - 1] == '"';
  }

  // ---------------------------------------------------------------------
  // As written
  // ---------------------------------------------------------------------

  /**
   * The VM loads the line as PRINT_STR_LITERAL with, as its operand, the
   * escaped text cut at its first double quote: escapes are never undone
   * and an escaped quote ends the operand.
   */
  lemma StringLineAsRead(text: string, toNumber: string -> Option<real>)
    ensures var rest := Escape(text) + "\"";
      L.ParseInstruction(StringLineText(text), toNumber)
        == V.Instruction(V.PrintStrLiteral, [V.Text(rest[..L.IndexOf(rest, '"')])])
  {
    var op, rest := "PRINT_STR_LITERAL", Escape(text) + "\"";
    assert StringLineText(text) == op + " \"" + rest;
    OpcodeIsWord();
    QuoteBeforeEnd(Escape(text));
    L.MatchQuotedLine(op, rest);
  }

  /** The literal `"` is printed as `\`: the escaped quote ends the operand early. */
  lemma QuoteCutsLiteral(toNumber: string -> Option<real>)
    ensures L.ParseInstruction(StringLineText("\""), toNumber) == V.Instruction(V.PrintStrLiteral, [V.Text("\\")])
    ensures "\\" != "\""
  {
    var rest := Escape("\"") + "\"";
    assert Escape("\"") == "\\\"";
    assert rest == ['\\', '"', '"'];
    assert L.IndexOf(rest[1..], '"') == 0;
    assert rest[..1] == "\\";
    StringLineAsRead("\"", toNumber);
  }

  /** The literal `\` is printed as `\\`: the escape is never undone. */
  lemma BackslashDoubled(toNumber: string -> Option<real>)
    ensures L.ParseInstruction(StringLineText("\\"), toNumber) == V.Instruction(V.PrintStrLiteral, [V.Text("\\\\")])
    ensures "\\\\" != "\\"
  {
    var rest := Escape("\\") + "\"";
    assert Escape("\\") == "\\\\";
    assert rest == ['\\', '\\', '"'];
    assert L.IndexOf(rest[2..], '"') == 0;
    assert rest[1..][1..] == rest[2..];
    assert rest[..2] == "\\\\";
    StringLineAsRead("\\", toNumber);
  }

  // ---------------------------------------------------------------------
  // Corrected
  // ---------------------------------------------------------------------

  /** The text up to the first double quote that no backslash escapes. */
  function EscapedRun(s: string): Option<string>
  {
    if s == [] then None
    else if s[0] == '"' then Some([])
    else if s[0] == '\\' && |s| >= 2 then
      match EscapedRun(s[2..])
      case Some(r) => Some(s[..2] + r)
      case None => None
    else
      match EscapedRun(s[1..])
      case Some(r) => Some([s[0]] + r)
      case None => None
  }

  /** An escaped literal runs exactly to the quote that closes it. */
  lemma {:induction false} EscapedRunEscape(t: string, rest: string)
    ensures EscapedRun(Escape(t) + "\"" + rest) == Some(Escape(t))
  {
    var s := Escape(t) + "\"" + rest;
    if t == [] {
      assert s[0] == '"';
    } else {
      var c, tail := t[0], Escape(t[1..]) + "\"" + rest;
      assert s == EscapeChar(c) + tail;
      EscapedRunEscape(t[1..], rest);
      if c == '\\' || c == '"' || c == '\n' || c == '\t' {
        assert s[..2] == EscapeChar(c) && s[2..] == tail;
      } else {
        assert s[1..] == tail;
      }
    }
  }

  /**
   * `OPCODE "<escaped text>"` read as the escaping intends: the run up to
   * the unescaped closing quote, unescaped.
   */
  function ReadStringLine(line: string): Option<(string, string)>
  {
    var word := L.TakeWhile(line, L.WordChar);
    var rest := line[|word|..];
    var gap := L.TakeWhile(rest, L.Space);
    var quoted := rest[|gap|..];
    if word == [] || gap == [] || quoted == [] || quoted[0] != '"' then None
    else match EscapedRun(quoted[1..])
      case None => None
      case Some(run) =>
        match Unescape(run)
        case Some(text) => Some((word, text))
        case None => None
  }

  /** _parse_instruction with the escape-aware reading tried first. */
  function ParseInstructionFixed(line: string, toNumber: string -> Option<real>): V.Instruction
  {
    match ReadStringLine(line)
    case Some((word, text)) => V.Instruction(V.Decode(word), [V.Text(text)])
    case None => L.ParseInstruction(line, toNumber)
  }

  /** The line splits into its opcode, one space and the quoted escaped text. */
  lemma StringLineSplits(text: string)
    ensures var line := StringLineText(text);
      var word := L.TakeWhile(line, L.WordChar);
      var rest := line[|word|..];
      var gap := L.TakeWhile(rest, L.Space);
      && word == "PRINT_STR_LITERAL" && gap == " "
      && rest[|gap|..] == "\"" + Escape(text) + "\""
  {
    var op, quoted := "PRINT_STR_LITERAL", "\"" + Escape(text) + "\"";
    var line := StringLineText(text);
    assert line == op + (" " + quoted);
    OpcodeIsWord();
    L.OpcodeThenQuote(op, quoted);
  }

  /** Every literal comes back exactly. */
  lemma StringLineRoundTrip(text: string)
    ensures ReadStringLine(StringLineText(text)) == Some(("PRINT_STR_LITERAL", text))
  {
    var quoted := "\"" + Escape(text) + "\"";
    StringLineSplits(text);
    assert EscapedRun(quoted[1..]) == Some(Escape(text)) by {
      assert quoted[1..] == Escape(text) + "\"" + [];
      EscapedRunEscape(text, []);
    }
    assert Unescape(Escape(text)) == Some(text) by {
      UnescapeEscape(text);
    }
  }

  /** With the corrected reading the VM loads the instruction the compiler meant. */
  lemma StringLineLoadsLiteral(text: string, toNumber: string -> Option<real>)
    ensures ParseInstructionFixed(StringLineText(text), toNumber) == V.Instruction(V.PrintStrLiteral, [V.Text(text)])
  {
    StringLineRoundTrip(text);
    OpcodeIsWord();
  }

  /**
   * The pipeline model reads the structured literal line exactly as the
   * loader reads its rendered text, cut at the first quote.
   */
  lemma StringLineLowered(text: string, toNumber: string -> Option<real>)
    ensures P.Lower(StringLine(text), toNumber) == L.InstrEntry(L.ParseInstruction(StringLineText(text), toNumber))
  {
    StringLineReadOperand(text, toNumber);
    StringLineAsRead(text, toNumber);
  }

  /** The structured literal line lowers to the escaped text cut at its first quote. */
  lemma StringLineReadOperand(text: string, toNumber: string -> Option<real>)
    ensures var rest := Escape(text) + "\"";
      P.Lower(StringLine(text), toNumber) == L.InstrEntry(V.Instruction(V.PrintStrLiteral, [V.Text(rest[..L.IndexOf(rest, '"')])]))
  {
    OpcodeIsWord();
    assert P.ReadOperands([Quoted(Escape(text))], toNumber) == [V.Text(P.AsRead(Escape(text)))];
  }

  /** ... so running it prints the literal itself. */
  lemma StringLinePrints(text: string, m: V.Machine, labels: map<string, nat>, toNumber: string -> Option<real>, elapsed: real)
    ensures V.Execute(m, ParseInstructionFixed(StringLineText(text), toNumber), labels, toNumber, elapsed)
      == V.Done(m.(output := m.output + [V.Literal(V.Text(text))]))
  {
    assert ParseInstructionFixed(StringLineText(text), toNumber) == V.Instruction(V.PrintStrLiteral, [V.Text(text)]) by {
      StringLineLoadsLiteral(text, toNumber);
    }
    V.PrintLiteralExecutes(m, V.Text(text), labels, toNumber, elapsed);
  }
}
