/**
 * The BankVM assembly lines that the code generator writes (src/codegen.c).
 *
 * A line is kept as its opcode and operands rather than as formatted text:
 * `emit_line(ctx, "STORE %s", name)` writes Instr("STORE", [Word(name)]).
 * The generated label names `<prefix>_<n>` and the escaping of string
 * literals are character-exact.
 */
module Assembly {
  import opened Wrappers

  /** An operand token: a bare word, a number, or a double-quoted literal. */
  datatype Operand = Word(word: string) | Num(value: real) | Quoted(text: string)

  /** A comment line `#text`, or an opcode followed by its operands. */
  datatype AsmLine = Comment(text: string) | Instr(opcode: string, operands: seq<Operand>)

  // ---------------------------------------------------------------------
  // Labels: snprintf("%s_%d", prefix, counter)
  // ---------------------------------------------------------------------

  function Digit(d: nat): (c: char)
    requires d < 10
    ensures '0' <= c <= '9'
  {
    "0123456789"[d]
  }

  /** The decimal text of n, as `%d` writes it for a non-negative int. */
  function NatToString(n: nat): (s: string)
    ensures |s| >= 1 && s[|s| - 1] == Digit(n % 10)
    ensures forall i :: 0 <= i < |s| ==> '0' <= s[i] <= '9'
    ensures n >= 10 <==> |s| >= 2
  {
    if n < 10 then [Digit(n)] else NatToString(n / 10) + [Digit(n % 10)]
  }

  lemma DigitInjective(a: nat, b: nat)
    requires a < 10 && b < 10 && Digit(a) == Digit(b)
    ensures a == b
  {
  }

  /** Different numbers have different decimal texts. */
  lemma {:induction false} NatToStringInjective(n: nat, m: nat)
    requires NatToString(n) == NatToString(m)
    ensures n == m
  {
    var s := NatToString(n);
    DigitInjective(n % 10, m % 10);
    if n >= 10 {
      assert NatToString(n / 10) == s[..|s| - 1] == NatToString(m / 10);
      NatToStringInjective(n / 10, m / 10);
    }
  }

  function Label(prefix: string, n: nat): string
  {
    prefix + "_" + NatToString(n)
  }

  /** The prefix, then the underscore, then the digits. */
  lemma LabelParts(p: string, n: nat)
    ensures |Label(p, n)| > |p| && Label(p, n)[..|p|] == p && Label(p, n)[|p|] == '_'
    ensures Label(p, n)[|p| + 1..] == NatToString(n)
  {
  }

  /**
   * A label determines its counter value and its prefix, as long as the
   * prefixes contain no underscore (all four generator prefixes qualify).
   */
  lemma LabelInjective(p: string, n: nat, q: string, m: nat)
    requires '_' !in p && '_' !in q
    requires Label(p, n) == Label(q, m)
    ensures p == q && n == m
  {
    var l := Label(p, n);
    LabelParts(p, n);
    LabelParts(q, m);
    assert forall i :: 0 <= i < |p| && i < |q| ==> p[i] == l[i] == q[i];
    assert |p| == |q| by {
      if |p| < |q| {
        assert false;
      }
      if |q| < |p| {
        assert false;
      }
    }
    NatToStringInjective(n, m);
  }

  // ---------------------------------------------------------------------
  // String literals: the escaping loop of emit_print_args
  // ---------------------------------------------------------------------

  /** Backslash, double quote, newline and tab become two-character escapes. */
  function EscapeChar(c: char): string
  {
    if c == '\\' then "\\\\"
    else if c == '"' then "\\\""
    else if c == '\n' then "\\n"
    else if c == '\t' then "\\t"
    else [c]
  }

  function Escape(s: string): string
  {
    if s == [] then [] else EscapeChar(s[0]) + Escape(s[1..])
  }

  /**
   * The decoding the escaping is meant for: a backslash followed by one of
   * `\`, `"`, `n`, `t` stands for that character; a bare double quote or
   * any other backslash sequence is malformed.
   */
  function Unescape(t: string): Option<string>
  {
    if t == [] then Some([])
    else if t[0] == '"' then None
    else if t[0] != '\\' then
      match Unescape(t[1..])
      case Some(rest) => Some([t[0]] + rest)
      case None => None
    else if |t| < 2 then None
    else
      var c := t[1];
      var decoded :=
        if c == '\\' then Some('\\')
        else if c == '"' then Some('"')
        else if c == 'n' then Some('\n')
        else if c == 't' then Some('\t')
        else None;
      match (decoded, Unescape(t[2..]))
      case (Some(d), Some(rest)) => Some([d] + rest)
      case _ => None
  }

  /** Escaping then unescaping gives back the original literal. */
  lemma {:induction false} UnescapeEscape(s: string)
    ensures Unescape(Escape(s)) == Some(s)
  {
    if s != [] {
      UnescapeEscape(s[1..]);
      var c := s[0];
      var t := Escape(s);
      assert t == EscapeChar(c) + Escape(s[1..]);
      if c == '\\' || c == '"' || c == '\n' || c == '\t' {
        assert t[2..] == Escape(s[1..]);
      } else {
        assert t[1..] == Escape(s[1..]);
      }
      assert [c] + s[1..] == s;
    }
  }

  /** Escaping works character by character. */
  lemma {:induction false} EscapeAppend(s: string, c: char)
    ensures Escape(s + [c]) == Escape(s) + EscapeChar(c)
  {
    if s == [] {
      assert [c][1..] == [];
    } else {
      assert (s + [c])[1..] == s[1..] + [c];
      EscapeAppend(s[1..], c);
    }
  }

  /**
   * An escaped literal holds no newline, tab or unescaped double quote, so
   * it stays on one line and inside its quotes.
   */
  lemma {:induction false} EscapeStaysOnOneLine(s: string)
    ensures '\n' !in Escape(s) && '\t' !in Escape(s)
    ensures forall i :: 0 <= i < |Escape(s)| && Escape(s)[i] == '"' ==> i > 0 && Escape(s)[i - 1] == '\\'
  {
    if s != [] {
      EscapeStaysOnOneLine(s[1..]);
      var head := EscapeChar(s[0]);
      var t := Escape(s);
      assert t == head + Escape(s[1..]);
      forall i | 0 <= i < |t| && t[i] == '"'
        ensures i > 0 && t[i - 1] == '\\'
      {
        if i >= |head| {
          assert t[i] == Escape(s[1..])[i - |head|];
          if i - |head| == 0 {
            assert false;
          }
        }
      }
    }
  }
}
