/**
 * BankVM's loader (vm/bankvm.py, load_program and _parse_instruction):
 * text in, label table and instruction list out.
 *
 * Python's float() on an operand is a parameter (`toNumber`, None where it
 * raises); the string functions strip(), split() and split('\n') and the
 * regular expression of _parse_instruction are written out.
 */
module VmLoad {
  import opened Wrappers
  import opened VmSpec

  // ---------------------------------------------------------------------
  // Characters
  // ---------------------------------------------------------------------

  /** The characters str.isspace() accepts (and `\s` matches). */
  predicate IsSpace(c: char)
  {
    var n := c as int;
    if n <= 32 then 9 <= n <= 13 || 28 <= n
    else if n < 0x85 then false
    else (n == 0x85 || n == 0xa0 || n == 0x1680 || (0x2000 <= n <= 0x200a)
      || n == 0x2028 || n == 0x2029 || n == 0x202f || n == 0x205f || n == 0x3000)
  }

  /** The ASCII part of `\w`. */
  predicate IsWordChar(c: char)
  {
    ('a' <= c <= 'z') || ('A' <= c <= 'Z') || ('0' <= c <= '9') || c == '_'
  }

  /** The character classes the loader scans runs of. */
  datatype CharClass = WordChar | Space | NonSpace | NonQuote

  predicate InClass(c: char, cls: CharClass)
  {
    match cls
    case WordChar => IsWordChar(c)
    case Space => IsSpace(c)
    case NonSpace => !IsSpace(c)
    case NonQuote => c != '"'
  }

  /** The longest prefix of s whose characters are all in cls. */
  function TakeWhile(s: string, cls: CharClass): (r: string)
    ensures r <= s
    ensures |r| < |s| ==> !InClass(s[|r|], cls)
  {
    if s == [] || !InClass(s[0], cls) then [] else [s[0]] + TakeWhile(s[1..], cls)
  }

  /** Every character TakeWhile keeps is in the class. */
  lemma {:induction false} TakeWhileAll(s: string, cls: CharClass)
    ensures forall i :: 0 <= i < |TakeWhile(s, cls)| ==> InClass(TakeWhile(s, cls)[i], cls)
  {
    if s != [] && InClass(s[0], cls) {
      TakeWhileAll(s[1..], cls);
      var r := TakeWhile(s, cls);
      forall i | 0 <= i < |r|
        ensures InClass(r[i], cls)
      {
        if i > 0 {
          assert r[i] == TakeWhile(s[1..], cls)[i - 1];
        }
      }
    }
  }

  // ---------------------------------------------------------------------
  // str.strip, str.split(), str.split('\n')
  // ---------------------------------------------------------------------

  function StripStart(s: string): (r: string)
    ensures |r| <= |s| && r == s[|s| - |r|..]
    ensures r != [] ==> !IsSpace(r[0])
  {
    if s != [] && IsSpace(s[0]) then StripStart(s[1..]) else s
  }

  /** What StripStart drops is whitespace. */
  lemma {:induction false} StripStartDropsSpaces(s: string)
    ensures forall i :: 0 <= i < |s| - |StripStart(s)| ==> IsSpace(s[i])
  {
    if s != [] && IsSpace(s[0]) {
      StripStartDropsSpaces(s[1..]);
      forall i | 1 <= i < |s| - |StripStart(s)|
        ensures IsSpace(s[i])
      {
        assert s[i] == s[1..][i - 1];
      }
    }
  }

  function StripEnd(s: string): (r: string)
    ensures |r| <= |s| && r == s[..|r|]
    ensures r != [] ==> !IsSpace(r[|r| - 1])
  {
    if s != [] && IsSpace(s[|s| - 1]) then StripEnd(s[..|s| - 1]) else s
  }

  /** str.strip(): what is left has no whitespace at either end. */
  function Strip(s: string): (r: string)
    ensures r != [] ==> !IsSpace(r[0]) && !IsSpace(r[|r| - 1])
  {
    StripEnd(StripStart(s))
  }

  /** Text free of whitespace, as every word split() returns is. */
  ghost predicate Unspaced(w: string)
  {
    forall j :: 0 <= j < |w| ==> !IsSpace(w[j])
  }

  /** str.split() with no argument: the maximal runs of non-whitespace. */
  function SplitWords(s: string): seq<string>
    decreases |s|
  {
    var t := StripStart(s);
    if t == [] then []
    else
      var w := TakeWhile(t, NonSpace);
      assert w != [] by { assert InClass(t[0], NonSpace); }
      [w] + SplitWords(t[|w|..])
  }

  /** Every word split() returns is non-empty and free of whitespace. */
  lemma {:induction false} SplitWordsAreWords(s: string)
    ensures AllWords(SplitWords(s))
    decreases |s|
  {
    var t := StripStart(s);
    if t != [] {
      var w := TakeWhile(t, NonSpace);
      assert w != [] && Unspaced(w) by {
        assert InClass(t[0], NonSpace);
        TakeWhileAll(t, NonSpace);
      }
      var rest := SplitWords(t[|w|..]);
      assert AllWords(rest) by {
        SplitWordsAreWords(t[|w|..]);
      }
      assert SplitWords(s) == [w] + rest;
      WordThenWords(w, rest);
    }
  }

  ghost predicate AllWords(ws: seq<string>)
  {
    forall i :: 0 <= i < |ws| ==> ws[i] != [] && Unspaced(ws[i])
  }

  lemma WordThenWords(w: string, rest: seq<string>)
    requires w != [] && Unspaced(w) && AllWords(rest)
    ensures AllWords([w] + rest)
  {
    var all := [w] + rest;
    forall i | 0 <= i < |all|
      ensures all[i] != [] && Unspaced(all[i])
    {
      if i > 0 {
        assert all[i] == rest[i - 1];
      }
    }
  }

  function IndexOf(s: string, c: char): (i: nat)
    ensures i <= |s|
    ensures i < |s| ==> s[i] == c
    ensures forall j :: 0 <= j < i ==> s[j] != c
  {
    if s == [] || s[0] == c then 0 else 1 + IndexOf(s[1..], c)
  }

  /** Words laid out with one space between them, as the `"%s %s"` formats of emit_line write them. */
  function JoinWords(ws: seq<string>): string
  {
    if ws == [] then [] else if |ws| == 1 then ws[0] else ws[0] + " " + JoinWords(ws[1..])
  }

  /** A run of non-whitespace ends where the whitespace after it starts. */
  lemma {:induction false} TakeWhileWord(w: string, tail: string)
    requires Unspaced(w) && (tail == [] || IsSpace(tail[0]))
    ensures TakeWhile(w + tail, NonSpace) == w
  {
    if w != [] {
      assert (w + tail)[0] == w[0];
      assert (w + tail)[1..] == w[1..] + tail;
      TakeWhileWord(w[1..], tail);
    } else {
      assert w + tail == tail;
    }
  }

  /** split() skips leading whitespace. */
  lemma SplitWordsSkipsSpace(s: string)
    ensures SplitWords(" " + s) == SplitWords(s)
  {
    assert (" " + s)[1..] == s;
    assert StripStart(" " + s) == StripStart(s);
  }

  /** split() takes apart what JoinWords puts together, so long as every piece is a word. */
  lemma {:induction false} SplitJoinWords(ws: seq<string>)
    requires AllWords(ws)
    ensures SplitWords(JoinWords(ws)) == ws
  {
    if ws == [] {
    } else {
      var w, text := ws[0], JoinWords(ws);
      assert w != [] && Unspaced(w);
      var tail := if |ws| == 1 then [] else " " + JoinWords(ws[1..]);
      assert text == w + tail;
      assert StripStart(text) == text by { assert text[0] == w[0]; }
      TakeWhileWord(w, tail);
      assert text[|w|..] == tail;
      if |ws| > 1 {
        assert AllWords(ws[1..]) by {
          forall i | 0 <= i < |ws[1..]|
            ensures ws[1..][i] != [] && Unspaced(ws[1..][i])
          {
            assert ws[1..][i] == ws[i + 1];
          }
        }
        SplitWordsSkipsSpace(JoinWords(ws[1..]));
        SplitJoinWords(ws[1..]);
        assert ws == [w] + ws[1..];
      }
    }
  }

  /** str.split('\n'): the pieces between newlines, empty ones included. */
  function SplitLines(s: string): (lines: seq<string>)
    ensures |lines| >= 1
    decreases |s|
  {
    var i := IndexOf(s, '\n');
    if i == |s| then [s] else [s[..i]] + SplitLines(s[i + 1..])
  }

  /** No piece split('\n') returns holds a newline. */
  lemma {:induction false} SplitLinesHaveNoNewline(s: string)
    ensures forall i :: 0 <= i < |SplitLines(s)| ==> '\n' !in SplitLines(s)[i]
    decreases |s|
  {
    var k := IndexOf(s, '\n');
    if k < |s| {
      SplitLinesHaveNoNewline(s[k + 1..]);
      var lines := SplitLines(s);
      forall i | 0 <= i < |lines|
        ensures '\n' !in lines[i]
      {
        if i > 0 {
          assert lines[i] == SplitLines(s[k + 1..])[i - 1];
        }
      }
    }
  }

  /** TakeWhile stops at the first character that fails the test. */
  lemma TakeWhileStopsAt(s: string, cls: CharClass, k: nat)
    requires k < |s| && !InClass(s[k], cls) && forall i :: 0 <= i < k ==> InClass(s[i], cls)
    ensures TakeWhile(s, cls) == s[..k]
  {
    TakeWhileAll(s, cls);
  }

  /**
   * A line that starts with "LABEL " and ends in a non-space character
   * splits into "LABEL" followed by at least one more word.
   */
  lemma LabelWords(line: string)
    requires |line| >= 6 && line[..6] == "LABEL " && !IsSpace(line[|line| - 1])
    ensures |SplitWords(line)| >= 2 && SplitWords(line)[0] == "LABEL"
  {
    assert StripStart(line) == line by {
      assert !IsSpace(line[0]) by { assert line[0] == 'L'; }
    }
    assert line[..5] == "LABEL" && line[5] == ' ' by { assert line[..5] == line[..6][..5]; }
    TakeWhileStopsAt(line, NonSpace, 5);
    var rest := line[5..];
    assert SplitWords(line) == [line[..5]] + SplitWords(rest);
    assert StripStart(rest) != [] by {
      StripStartDropsSpaces(rest);
      assert rest[|rest| - 1] == line[|line| - 1];
    }
  }

  // ---------------------------------------------------------------------
  // _parse_instruction
  // ---------------------------------------------------------------------

  /**
   * re.match(r'(\w+)\s+"([^"]*)"', line): a word, whitespace, then a
   * double-quoted run without quotes. Gives the word and the run.
   */
  function MatchQuoted(line: string): Option<(string, string)>
  {
    var word := TakeWhile(line, WordChar);
    var rest := line[|word|..];
    var gap := TakeWhile(rest, Space);
    if word == [] || gap == [] then None
    else match QuotedRun(rest[|gap|..])
      case Some(text) => Some((word, text))
      case None => None
  }

  /** `"([^"]*)"` at the start of `s`: the run between the first two double quotes. */
  function QuotedRun(s: string): (r: Option<string>)
    ensures r.Some? ==> '"' !in r.value && |r.value| + 1 < |s| && s[1..|r.value| + 1] == r.value && s[|r.value| + 1] == '"'
  {
    if s == [] || s[0] != '"' then None
    else
      var text := TakeWhile(s[1..], NonQuote);
      TakeWhileAll(s[1..], NonQuote);
      if |text| == |s| - 1 then None else Some(text)
  }

  /** A quote, then `rest`, gives the run up to the first quote in `rest`. */
  lemma QuotedRunStops(rest: string)
    requires IndexOf(rest, '"') < |rest|
    ensures QuotedRun("\"" + rest) == Some(rest[..IndexOf(rest, '"')])
  {
    DropPrefix("\"", rest);
    TakeWhileStopsAt(rest, NonQuote, IndexOf(rest, '"'));
  }

  /**
   * The line codegen writes for a string literal, `OP "rest`, matches with
   * OP as the opcode and, as the operand, the text of rest up to its first
   * double quote.
   */
  lemma MatchQuotedLine(op: string, rest: string)
    requires op != [] && forall i :: 0 <= i < |op| ==> IsWordChar(op[i])
    requires IndexOf(rest, '"') < |rest|
    ensures MatchQuoted(op + " \"" + rest) == Some((op, rest[..IndexOf(rest, '"')]))
  {
    var line, quoted := op + " \"" + rest, "\"" + rest;
    var text := rest[..IndexOf(rest, '"')];
    assert line == op + (" " + quoted);
    assert TakeWhile(line, WordChar) == op && TakeWhile(line[|op|..], Space) == " "
      && line[|op|..][1..] == quoted by {
      OpcodeThenQuote(op, quoted);
    }
    assert QuotedRun(quoted) == Some(text) by {
      QuotedRunStops(rest);
    }
  }

  /** The word and whitespace parts of the match on `OP "...`. */
  lemma OpcodeThenQuote(op: string, quoted: string)
    requires op != [] && forall i :: 0 <= i < |op| ==> IsWordChar(op[i])
    requires quoted != [] && quoted[0] == '"'
    ensures var line := op + (" " + quoted);
      && TakeWhile(line, WordChar) == op
      && TakeWhile(line[|op|..], Space) == " "
      && line[|op|..][1..] == quoted
  {
    var line := op + (" " + quoted);
    DropPrefix(op, " " + quoted);
    assert line[|op|] == ' ';
    TakeWhileStopsAt(line, WordChar, |op|);
    var tail := line[|op|..];
    assert tail[1] == '"';
    TakeWhileStopsAt(tail, Space, 1);
    DropPrefix(" ", quoted);
  }

  lemma DropPrefix(a: string, b: string)
    ensures (a + b)[|a|..] == b
  {
  }

  /** A line with no double quote never takes the quoted form. */
  lemma MatchQuotedNeedsQuote(line: string)
    requires forall i :: 0 <= i < |line| ==> line[i] != '"'
    ensures MatchQuoted(line) == None
  {
    var word := TakeWhile(line, WordChar);
    var rest := line[|word|..];
    var gap := TakeWhile(rest, Space);
    var after := rest[|gap|..];
    if after != [] {
      assert after[0] == line[|word| + |gap|];
    }
  }

  /** float(op) when it succeeds, else the text itself. */
  function ConvertOperand(word: string, toNumber: string -> Option<real>): Token
  {
    match toNumber(word)
    case Some(x) => Number(x)
    case None => Text(word)
  }

  /** The operand conversion loop of _parse_instruction. */
  function Convert(words: seq<string>, toNumber: string -> Option<real>): (r: seq<Token>)
    ensures |r| == |words|
    ensures forall i :: 0 <= i < |words| ==> r[i] == ConvertOperand(words[i], toNumber)
  {
    if words == [] then [] else [ConvertOperand(words[0], toNumber)] + Convert(words[1..], toNumber)
  }

  /**
   * _parse_instruction: the quoted form gives its opcode and one text
   * operand, which holds no double quote; any other line is split on
   * whitespace into the opcode and operands that are each a number float()
   * accepted or a single whitespace-free word.
   */
  function ParseInstruction(line: string, toNumber: string -> Option<real>): (r: Instruction)
    ensures MatchQuoted(line).Some? ==>
      r.op == Decode(MatchQuoted(line).value.0) && |r.operands| == 1 && r.operands[0].Text? && '"' !in r.operands[0].s
    ensures MatchQuoted(line).None? && SplitWords(line) == [] ==> r == Instruction(Nop, [])
    ensures MatchQuoted(line).None? && SplitWords(line) != [] ==>
      && r.op == Decode(SplitWords(line)[0]) && |r.operands| == |SplitWords(line)| - 1
      && forall i :: 0 <= i < |r.operands| ==> r.operands[i].Number? || (r.operands[i].s != [] && Unspaced(r.operands[i].s))
  {
    match MatchQuoted(line)
    case Some((word, text)) => Instruction(Decode(word), [Text(text)])
    case None =>
      var parts := SplitWords(line);
      if parts == [] then Instruction(Nop, [])
      else
        SplitWordsAreWords(line);
        ConvertKeepsWords(parts[1..], toNumber);
        Instruction(Decode(parts[0]), Convert(parts[1..], toNumber))
  }

  /** Converting words gives numbers, or the words themselves as text. */
  lemma ConvertKeepsWords(words: seq<string>, toNumber: string -> Option<real>)
    requires AllWords(words)
    ensures var r := Convert(words, toNumber);
      forall i :: 0 <= i < |r| ==> r[i].Number? || (r[i].s != [] && Unspaced(r[i].s))
  {
    var r := Convert(words, toNumber);
    forall i | 0 <= i < |r|
      ensures r[i].Number? || (r[i].s != [] && Unspaced(r[i].s))
    {
      assert r[i] == ConvertOperand(words[i], toNumber);
    }
  }

  /** What the loader makes of one line. */
  datatype Entry = Skip | LabelEntry(name: string) | InstrEntry(ins: Instruction)

  function StartsWith(s: string, prefix: string): bool
  {
    |prefix| <= |s| && s[..|prefix|] == prefix
  }

  /**
   * The body of load_program's loop: blank lines and comments are skipped,
   * "LABEL " lines give their second word (which LabelWords shows always
   * exists once the line is stripped), every other line an instruction.
   */
  function Classify(raw: string, toNumber: string -> Option<real>): Entry
  {
    var line := Strip(raw);
    if line == [] || line[0] == '#' then Skip
    else if StartsWith(line, "LABEL ") then
      LabelWords(line);
      LabelEntry(SplitWords(line)[1])
    else InstrEntry(ParseInstruction(line, toNumber))
  }

  /** Loading an instruction entry appends the instruction and moves the index on. */
  lemma LoadInstrEntry(st: Loaded, e: Entry, ins: Instruction)
    requires e == InstrEntry(ins)
    ensures LoadEntry(st, e) == st.(instructions := st.instructions + [ins], index := st.index + 1)
  {
  }

  /** A blank line or a comment is skipped. */
  lemma ClassifySkip(raw: string, toNumber: string -> Option<real>)
    requires Strip(raw) == [] || Strip(raw)[0] == '#'
    ensures Classify(raw, toNumber) == Skip
  {
  }

  /** A "LABEL " line has a second word, and names it. */
  lemma ClassifyLabel(raw: string, toNumber: string -> Option<real>)
    requires Strip(raw) != [] && Strip(raw)[0] != '#' && StartsWith(Strip(raw), "LABEL ")
    ensures |SplitWords(Strip(raw))| >= 2
    ensures Classify(raw, toNumber) == LabelEntry(SplitWords(Strip(raw))[1])
  {
    LabelWords(Strip(raw));
  }

  /** Any other line is parsed as an instruction. */
  lemma ClassifyInstr(raw: string, toNumber: string -> Option<real>)
    requires Strip(raw) != [] && Strip(raw)[0] != '#' && !StartsWith(Strip(raw), "LABEL ")
    ensures Classify(raw, toNumber) == InstrEntry(ParseInstruction(Strip(raw), toNumber))
  {
  }

  // ---------------------------------------------------------------------
  // load_program
  // ---------------------------------------------------------------------

  /**
   * The loader's state: the two fields it fills and the local instruction
   * index, which every call restarts at 0.
   */
  datatype Loaded = Loaded(labels: map<string, nat>, instructions: seq<Instruction>, index: nat)

  /** One iteration of load_program's loop. */
  function LoadEntry(st: Loaded, e: Entry): Loaded
  {
    match e
    case Skip => st
    case LabelEntry(name) => st.(labels := st.labels[name := st.index])
    case InstrEntry(ins) => st.(instructions := st.instructions + [ins], index := st.index + 1)
  }

  function LoadEntries(entries: seq<Entry>, st: Loaded): Loaded
  {
    if entries == [] then st else LoadEntry(LoadEntries(entries[..|entries| - 1], st), entries[|entries| - 1])
  }

  /** The lines load_program walks: strip(), then split('\n'). */
  function SourceLines(code: string): seq<string>
  {
    SplitLines(Strip(code))
  }

  function Classified(lines: seq<string>, toNumber: string -> Option<real>): (r: seq<Entry>)
    ensures |r| == |lines|
  {
    if lines == [] then [] else Classified(lines[..|lines| - 1], toNumber) + [Classify(lines[|lines| - 1], toNumber)]
  }

  /** Loading one more line applies LoadEntry to its entry. */
  lemma LoadStep(lines: seq<string>, i: nat, toNumber: string -> Option<real>, st: Loaded)
    requires i < |lines|
    ensures LoadEntries(Classified(lines[..i + 1], toNumber), st)
      == LoadEntry(LoadEntries(Classified(lines[..i], toNumber), st), Classify(lines[i], toNumber))
  {
    assert lines[..i + 1][..i] == lines[..i];
    var es := Classified(lines[..i + 1], toNumber);
    assert es[..|es| - 1] == Classified(lines[..i], toNumber);
  }

  /** load_program on a VM whose fields hold `labels` and `instructions`. */
  function LoadProgram(code: string, toNumber: string -> Option<real>, labels: map<string, nat>, instructions: seq<Instruction>): Loaded
  {
    LoadEntries(Classified(SourceLines(code), toNumber), Loaded(labels, instructions, 0))
  }

  // ---------------------------------------------------------------------
  // Properties
  // ---------------------------------------------------------------------

  /** The instructions of a list of entries, in order. */
  function InstrsOf(entries: seq<Entry>): seq<Instruction>
  {
    if entries == [] then []
    else InstrsOf(entries[..|entries| - 1]) + (if entries[|entries| - 1].InstrEntry? then [entries[|entries| - 1].ins] else [])
  }

  /** The labels a list of entries defines. */
  ghost function DefinedNames(entries: seq<Entry>): set<string>
  {
    set k | 0 <= k < |entries| && entries[k].LabelEntry? :: entries[k].name
  }

  /** Entry k defines `name` and no later entry defines it again. */
  ghost predicate LastDefinition(entries: seq<Entry>, k: nat, name: string)
  {
    k < |entries| && entries[k] == LabelEntry(name)
    && forall j :: k < j < |entries| ==> entries[j] != LabelEntry(name)
  }

  /**
   * Loading appends every instruction in order, advances the index by
   * their number, and maps each label to the index of the instruction that
   * follows its last definition; labels the entries do not define keep
   * their old mapping.
   */
  lemma {:induction false} LoadEntriesMeaning(entries: seq<Entry>, st: Loaded)
    ensures var r := LoadEntries(entries, st);
      && r.instructions == st.instructions + InstrsOf(entries)
      && r.index == st.index + |InstrsOf(entries)|
      && r.labels.Keys == st.labels.Keys + DefinedNames(entries)
      && (forall k: nat, name | LastDefinition(entries, k, name) :: r.labels[name] == st.index + |InstrsOf(entries[..k])|)
      && (forall n :: n in st.labels && LabelEntry(n) !in entries ==> r.labels[n] == st.labels[n])
  {
    if entries != [] {
      var init, last := entries[..|entries| - 1], entries[|entries| - 1];
      LoadEntriesMeaning(init, st);
      var p := LoadEntries(init, st);
      var r := LoadEntries(entries, st);
      assert r == LoadEntry(p, last);
      forall k: nat, name | LastDefinition(entries, k, name)
        ensures r.labels[name] == st.index + |InstrsOf(entries[..k])|
      {
        if k < |init| {
          assert LastDefinition(init, k, name);
          assert last != LabelEntry(name);
          assert entries[..k] == init[..k];
        } else {
          assert last == LabelEntry(name);
          assert entries[..k] == init;
        }
      }
      forall n | n in st.labels && LabelEntry(n) !in entries
        ensures r.labels[n] == st.labels[n]
      {
        assert LabelEntry(n) !in init;
      }
      assert DefinedNames(entries) == DefinedNames(init) + (if last.LabelEntry? then {last.name} else {}) by {
        forall n | n in DefinedNames(entries)
          ensures n in DefinedNames(init) + (if last.LabelEntry? then {last.name} else {})
        {
          var k :| 0 <= k < |entries| && entries[k].LabelEntry? && entries[k].name == n;
          if k < |init| {
            assert init[k] == entries[k];
          }
        }
        forall n | n in DefinedNames(init)
          ensures n in DefinedNames(entries)
        {
          var k :| 0 <= k < |init| && init[k].LabelEntry? && init[k].name == n;
          assert entries[k] == init[k];
        }
      }
    }
  }
}
