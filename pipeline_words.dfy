/**
 * The lines of names emit_line writes, read back as text.
 *
 * Lower in module Pipeline reads a generated line structurally: a name is
 * one operand. The loader reads the text emit_line writes, split on
 * whitespace. The two agree when every name is one word without
 * whitespace and without a double quote (WordLineLowered); a name with a
 * space in it is where they part (SpacedNameSplits).
 */
module PipelineWords {
  import opened Wrappers
  import opened Assembly
  import Pipeline
  import V = VmSpec
  import L = VmLoad


  /** A name the loader reads back as one word: non-empty, with no whitespace and no double quote. */
  ghost predicate IsName(w: string)
  {
    w != [] && L.Unspaced(w) && '"' !in w
  }

  /** An opcode as the generator writes one: non-empty and made of `\w` characters. */
  ghost predicate IsOpcodeWord(op: string)
  {
    op != [] && forall i :: 0 <= i < |op| ==> L.IsWordChar(op[i])
  }

  predicate AllWordOperands(os: seq<Operand>)
  {
    forall i :: 0 <= i < |os| ==> os[i].Word?
  }

  function WordsOf(os: seq<Operand>): (ws: seq<string>)
    requires AllWordOperands(os)
    ensures |ws| == |os| && forall i :: 0 <= i < |os| ==> ws[i] == os[i].word
  {
    if os == [] then [] else [os[0].word] + WordsOf(os[1..])
  }

  /** The text emit_line writes for an opcode and names: `"%s %s"`, one space between words. */
  function WordLineText(opcode: string, os: seq<Operand>): string
    requires AllWordOperands(os)
  {
    L.JoinWords([opcode] + WordsOf(os))
  }

  /** A character in neither the words nor a space is not in their join. */
  lemma {:induction false} JoinWordsAvoids(ws: seq<string>, c: char)
    requires c != ' ' && forall i :: 0 <= i < |ws| ==> c !in ws[i]
    ensures c !in L.JoinWords(ws)
  {
    if |ws| > 1 {
      JoinWordsAvoids(ws[1..], c);
      assert L.JoinWords(ws) == ws[0] + " " + L.JoinWords(ws[1..]);
    }
  }

  /** The join of non-empty words starts with the first word's first character and ends with the last word's last. */
  lemma {:induction false} JoinWordsEnds(ws: seq<string>)
    requires ws != [] && forall i :: 0 <= i < |ws| ==> ws[i] != []
    ensures var t := L.JoinWords(ws);
      t != [] && t[0] == ws[0][0] && t[|t| - 1] == ws[|ws| - 1][|ws[|ws| - 1]| - 1]
  {
    if |ws| > 1 {
      JoinWordsEnds(ws[1..]);
      assert L.JoinWords(ws) == ws[0] + " " + L.JoinWords(ws[1..]);
    }
  }

  /** The rendered line is already stripped. */
  lemma StrippedAlready(t: string)
    requires t != [] && !L.IsSpace(t[0]) && !L.IsSpace(t[|t| - 1])
    ensures L.Strip(t) == t
  {
  }

  /** A `LABEL ` prefix on an opcode longer than five characters puts a space in it. */
  lemma LongOpcodeLabel(opcode: string, rest: string)
    requires |opcode| > 5 && L.StartsWith(opcode + rest, "LABEL ")
    ensures opcode[5] == ' '
  {
    var t := opcode + rest;
    assert t[..6][5] == t[5] == opcode[5];
  }

  /** A `LABEL ` prefix on an opcode shorter than five characters continues into the rest. */
  lemma ShortOpcodeLabel(opcode: string, rest: string)
    requires |opcode| < 5 && L.StartsWith(opcode + rest, "LABEL ")
    ensures rest != [] && rest[0] == "LABEL "[|opcode|]
  {
    var t := opcode + rest;
    assert t[|opcode|] == rest[0];
    assert t[..6][|opcode|] == t[|opcode|];
  }

  /** An opcode followed by nothing or by a space starts with `LABEL ` exactly when it is `LABEL` and something follows. */
  lemma LabelLineIff(opcode: string, rest: string)
    requires IsOpcodeWord(opcode) && (rest == [] || rest[0] == ' ')
    ensures L.StartsWith(opcode + rest, "LABEL ") <==> opcode == "LABEL" && rest != []
  {
    var t := opcode + rest;
    if L.StartsWith(t, "LABEL ") {
      assert |opcode| <= 5 by {
        if |opcode| > 5 {
          LongOpcodeLabel(opcode, rest);
        }
      }
      assert |opcode| >= 5 by {
        if |opcode| < 5 {
          ShortOpcodeLabel(opcode, rest);
        }
      }
      assert opcode == t[..5];
    }
    if opcode == "LABEL" && rest != [] {
      assert t[..6] == "LABEL ";
    }
  }

  /** Joining a word in front of others puts one space between them. */
  lemma JoinWordsCons(w: string, ws: seq<string>)
    ensures L.JoinWords([w] + ws) == w + (if ws == [] then [] else " " + L.JoinWords(ws))
  {
    assert ([w] + ws)[1..] == ws;
  }

  /** An opcode and names are words the loader keeps whole, none holding a quote. */
  lemma LineWords(opcode: string, os: seq<Operand>)
    requires IsOpcodeWord(opcode) && AllWordOperands(os)
    requires forall i :: 0 <= i < |os| ==> IsName(os[i].word)
    ensures var ws := [opcode] + WordsOf(os);
      L.AllWords(ws) && forall i :: 0 <= i < |ws| ==> '"' !in ws[i]
  {
    var ws := [opcode] + WordsOf(os);
    forall i | 0 <= i < |ws|
      ensures ws[i] != [] && L.Unspaced(ws[i]) && '"' !in ws[i]
    {
      if i == 0 {
        forall j | 0 <= j < |opcode| ensures !L.IsSpace(opcode[j]) && opcode[j] != '"' {
          assert L.IsWordChar(opcode[j]);
        }
      } else {
        assert ws[i] == os[i - 1].word;
      }
    }
  }

  /** The rendered line of an opcode and names: stripped, no comment, no quote, split back into the same words. */
  lemma WordLineShape(opcode: string, os: seq<Operand>)
    requires IsOpcodeWord(opcode) && AllWordOperands(os)
    requires forall i :: 0 <= i < |os| ==> IsName(os[i].word)
    ensures var text := WordLineText(opcode, os);
      && text == opcode + (if os == [] then [] else " " + L.JoinWords(WordsOf(os)))
      && L.Strip(text) == text && text != [] && text[0] != '#' && '"' !in text
      && L.SplitWords(text) == [opcode] + WordsOf(os)
  {
    var ws := [opcode] + WordsOf(os);
    var text := WordLineText(opcode, os);
    assert text == opcode + (if os == [] then [] else " " + L.JoinWords(WordsOf(os))) by {
      JoinWordsCons(opcode, WordsOf(os));
      assert WordsOf(os) == [] <==> os == [];
    }
    LineWords(opcode, os);
    L.SplitJoinWords(ws);
    JoinWordsAvoids(ws, '"');
    assert text != [] && text[0] == opcode[0] && !L.IsSpace(text[|text| - 1]) by {
      JoinWordsEnds(ws);
      assert ws[0] == opcode;
    }
    assert L.IsWordChar(opcode[0]);
    StrippedAlready(text);
  }

  /** Word operands are read as the loader converts their words. */
  lemma {:induction false} ReadWordOperands(os: seq<Operand>, toNumber: string -> Option<real>)
    requires AllWordOperands(os)
    ensures Pipeline.ReadOperands(os, toNumber) == L.Convert(WordsOf(os), toNumber)
  {
    var r := Pipeline.ReadOperands(os, toNumber);
    var c := L.Convert(WordsOf(os), toNumber);
    assert forall i :: 0 <= i < |os| ==> r[i] == c[i];
  }

  /** A line without a quote parses to its first word's opcode and the other words converted. */
  lemma ParseUnquoted(line: string, ws: seq<string>, toNumber: string -> Option<real>)
    requires '"' !in line && L.SplitWords(line) == ws && ws != []
    ensures L.ParseInstruction(line, toNumber) == V.Instruction(V.Decode(ws[0]), L.Convert(ws[1..], toNumber))
  {
    L.MatchQuotedNeedsQuote(line);
  }

  /** The rendered `LABEL` line of a name is a label line whose second word is the name. */
  lemma LabelLineShape(os: seq<Operand>)
    requires AllWordOperands(os) && os != []
    requires forall i :: 0 <= i < |os| ==> IsName(os[i].word)
    ensures var text := WordLineText("LABEL", os);
      && L.Strip(text) == text && text != [] && text[0] != '#' && L.StartsWith(text, "LABEL ")
      && |L.SplitWords(text)| >= 2 && L.SplitWords(text)[1] == os[0].word
  {
    assert IsOpcodeWord("LABEL");
    WordLineShape("LABEL", os);
    LabelLineIff("LABEL", " " + L.JoinWords(WordsOf(os)));
    assert (["LABEL"] + WordsOf(os))[1] == os[0].word;
  }

  /** The `LABEL` case of WordLineLowered. */
  lemma WordLabelLowered(os: seq<Operand>, toNumber: string -> Option<real>)
    requires AllWordOperands(os) && os != []
    requires forall i :: 0 <= i < |os| ==> IsName(os[i].word)
    ensures Pipeline.Lower(Instr("LABEL", os), toNumber) == L.Classify(WordLineText("LABEL", os), toNumber)
  {
    LabelLineShape(os);
    L.ClassifyLabel(WordLineText("LABEL", os), toNumber);
  }

  /** A rendered line of names that is not a label line is parsed as an instruction. */
  lemma WordInstrClassified(opcode: string, os: seq<Operand>, toNumber: string -> Option<real>)
    requires IsOpcodeWord(opcode) && AllWordOperands(os) && !(opcode == "LABEL" && os != [])
    requires forall i :: 0 <= i < |os| ==> IsName(os[i].word)
    ensures var text := WordLineText(opcode, os);
      L.Classify(text, toNumber) == L.InstrEntry(L.ParseInstruction(text, toNumber))
  {
    var text := WordLineText(opcode, os);
    WordLineShape(opcode, os);
    LabelLineIff(opcode, if os == [] then [] else " " + L.JoinWords(WordsOf(os)));
    L.ClassifyInstr(text, toNumber);
  }

  /** A rendered line of names parses to its opcode and its names, converted. */
  lemma WordInstrParsed(opcode: string, os: seq<Operand>, toNumber: string -> Option<real>)
    requires IsOpcodeWord(opcode) && AllWordOperands(os)
    requires forall i :: 0 <= i < |os| ==> IsName(os[i].word)
    ensures L.ParseInstruction(WordLineText(opcode, os), toNumber)
      == V.Instruction(V.Decode(opcode), L.Convert(WordsOf(os), toNumber))
  {
    var ws := [opcode] + WordsOf(os);
    WordLineShape(opcode, os);
    ParseUnquoted(WordLineText(opcode, os), ws, toNumber);
    assert ws[1..] == WordsOf(os);
  }

  /** Every other opcode of WordLineLowered. */
  lemma WordInstrLowered(opcode: string, os: seq<Operand>, toNumber: string -> Option<real>)
    requires IsOpcodeWord(opcode) && AllWordOperands(os) && !(opcode == "LABEL" && os != [])
    requires forall i :: 0 <= i < |os| ==> IsName(os[i].word)
    ensures Pipeline.Lower(Instr(opcode, os), toNumber) == L.Classify(WordLineText(opcode, os), toNumber)
  {
    WordInstrClassified(opcode, os, toNumber);
    WordInstrParsed(opcode, os, toNumber);
    ReadWordOperands(os, toNumber);
  }

  /**
   * For a line of names, Lower is exactly what load_program makes of the
   * text emit_line writes for it.
   */
  lemma WordLineLowered(opcode: string, os: seq<Operand>, toNumber: string -> Option<real>)
    requires IsOpcodeWord(opcode) && AllWordOperands(os)
    requires forall i :: 0 <= i < |os| ==> IsName(os[i].word)
    ensures Pipeline.Lower(Instr(opcode, os), toNumber) == L.Classify(WordLineText(opcode, os), toNumber)
  {
    if opcode == "LABEL" && os != [] {
      WordLabelLowered(os, toNumber);
    } else {
      WordInstrLowered(opcode, os, toNumber);
    }
  }

  /**
   * A name holding a space is one operand to Lower, but its rendering is the
   * rendering of the two names on either side of the space, which the loader
   * reads as two operands.
   */
  lemma SpacedNameSplits(opcode: string, a: string, b: string, toNumber: string -> Option<real>)
    requires IsOpcodeWord(opcode) && IsName(a) && IsName(b)
    ensures opcode != "LABEL" ==>
      Pipeline.Lower(Instr(opcode, [Word(a + " " + b)]), toNumber)
        == L.InstrEntry(V.Instruction(V.Decode(opcode), [L.ConvertOperand(a + " " + b, toNumber)]))
    ensures opcode != "LABEL" ==>
      L.Classify(WordLineText(opcode, [Word(a + " " + b)]), toNumber)
        == L.InstrEntry(V.Instruction(V.Decode(opcode), [L.ConvertOperand(a, toNumber), L.ConvertOperand(b, toNumber)]))
    ensures opcode == "LABEL" ==> Pipeline.Lower(Instr(opcode, [Word(a + " " + b)]), toNumber) == L.LabelEntry(a + " " + b)
    ensures opcode == "LABEL" ==> L.Classify(WordLineText(opcode, [Word(a + " " + b)]), toNumber) == L.LabelEntry(a)
  {
    var one, two := [Word(a + " " + b)], [Word(a), Word(b)];
    SpacedNameText(opcode, a, b);
    WordLineLowered(opcode, two, toNumber);
    if opcode != "LABEL" {
      assert Pipeline.ReadOperands(one, toNumber) == [L.ConvertOperand(a + " " + b, toNumber)];
      assert Pipeline.ReadOperands(two, toNumber) == [L.ConvertOperand(a, toNumber), L.ConvertOperand(b, toNumber)];
    }
  }

  /** A name `a b` renders as the two names `a` and `b`. */
  lemma SpacedNameText(opcode: string, a: string, b: string)
    ensures WordLineText(opcode, [Word(a + " " + b)]) == WordLineText(opcode, [Word(a), Word(b)])
  {
    assert WordsOf([Word(a + " " + b)]) == [a + " " + b];
    assert WordsOf([Word(a), Word(b)]) == [a, b];
    JoinWordsCons(opcode, [a + " " + b]);
    JoinWordsCons(opcode, [a, b]);
    JoinWordsCons(a, [b]);
  }
}
