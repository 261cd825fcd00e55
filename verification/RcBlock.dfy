/** What the installed block says in each shell's own words, what quoting does to the home
    directory, and which lines of a start-up file the remover spares. */
module RcBlock {
  import opened Text
  import opened RcFile

  // ---------- Which lines stay ----------

  /** A line of somebody else: blank, or naming neither the tool nor its directory. */
  ghost predicate Foreign(line: string) {
    var t := TrimSpace(line);
    t == "" || (!Contains(t, "stacyvm") && !Contains(t, ".local/bin"))
  }

  lemma ForeignIsNoBlockLine(line: string)
    ensures Foreign(line) <==> !IsBlockLine(TrimSpace(line))
  {
  }

  lemma EndsBefore(lines: seq<string>, terminators: set<string>, from: nat, k: nat)
    requires 1 <= from <= k < |lines|
    requires TrimSpace(lines[k]) !in terminators && !IsBlockLine(TrimSpace(lines[k]))
    ensures BlockEnd(lines, terminators, from) < k
  {
  }

  lemma TailStays(lines: seq<string>, a: nat, b: nat, k: nat)
    requires a <= |lines| && b <= k <= |lines|
    ensures lines[..a] + lines[b..] == (lines[..a] + lines[b..k]) + lines[k..]
  {
  }

  lemma RemainingIs(lines: seq<string>, terminators: set<string>) returns (start: nat, a: nat, b: nat)
    requires HasMarker(lines)
    ensures start == FirstMarker(lines, 0) < |lines| && a == CutStart(lines, start) <= |lines|
    ensures b == BlockEnd(lines, terminators, start + 1) + 1 <= |lines|
    ensures Remaining(lines, terminators) == lines[..a] + lines[b..]
  {
    start := MarkerFound(lines);
    b := BlockIsRemovable(lines, terminators, start);
    a := CutIsBlank(lines, start);
  }

  /** From the first foreign line below the marker on, nothing is removed. */
  lemma ForeignLinesAreSpared(lines: seq<string>, terminators: set<string>, k: nat) returns (above: seq<string>)
    requires HasMarker(lines) && FirstMarker(lines, 0) < k < |lines|
    requires Foreign(lines[k]) && TrimSpace(lines[k]) !in terminators
    ensures Remaining(lines, terminators) == above + lines[k..]
  {
    var start, a, b := RemainingIs(lines, terminators);
    ForeignIsNoBlockLine(lines[k]);
    EndsBefore(lines, terminators, start + 1, k);
    above := lines[..a] + lines[b..k];
    TailStays(lines, a, b, k);
  }

  /** Above the marker only one blank line goes. */
  lemma LinesAboveAreSpared(lines: seq<string>, terminators: set<string>)
    requires HasMarker(lines)
    ensures var start := FirstMarker(lines, 0);
            var kept := if start > 0 && TrimSpace(lines[start - 1]) == "" then start - 1 else start;
            start < |lines| && lines[..kept] <= Remaining(lines, terminators)
  {
    var start := MarkerFound(lines);
  }

  /** The lines from `from` up to k name the tool or its directory and are no terminators. */
  ghost predicate AllOurs(lines: seq<string>, terminators: set<string>, from: nat, k: nat)
    requires k <= |lines|
  {
    forall i :: from <= i < k ==> !Foreign(lines[i]) && TrimSpace(lines[i]) !in terminators
  }

  lemma {:induction false} EndsAt(lines: seq<string>, terminators: set<string>, from: nat, k: nat)
    requires 1 <= from <= k < |lines| && TrimSpace(lines[k]) in terminators
    requires AllOurs(lines, terminators, from, k)
    ensures BlockEnd(lines, terminators, from) == k
    decreases k - from
  {
    if from < k {
      ForeignIsNoBlockLine(lines[from]);
      EndsAt(lines, terminators, from + 1, k);
    }
  }

  /** A whole block goes: the lines from the marker up to the first terminator, when all of
      them in between name the tool or its directory. */
  lemma WholeBlockGoes(lines: seq<string>, terminators: set<string>, k: nat) returns (a: nat)
    requires HasMarker(lines) && FirstMarker(lines, 0) < k < |lines| && TrimSpace(lines[k]) in terminators
    requires AllOurs(lines, terminators, FirstMarker(lines, 0) + 1, k)
    ensures a <= |lines| && Remaining(lines, terminators) == lines[..a] + lines[k + 1..]
    ensures a == CutStart(lines, FirstMarker(lines, 0))
  {
    var start, b;
    start, a, b := RemainingIs(lines, terminators);
    EndsAt(lines, terminators, start + 1, k);
  }

  // ---------- What the block says ----------

  /** The PATH line, the guard, the line that loads the completion, and the end. */
  lemma BlockSays(shell: Shell, home: string)
    ensures MARKER == "# StacyVM Autocomplete"
    ensures var dir := Quote(home + "/" + ".local/bin");
            match shell
            case Bash =>
              && PathLine(shell, home) == "export PATH=" + dir + ":$PATH"
              && Guard(shell) == "if command -v " + "stacyvm" + " >/dev/null 2>&1; then"
              && Indent(shell) + Sourcing(shell) == "  " + ("source <(" + ("stacyvm" + (" completion " + "bash")) + ")")
              && Terminator(shell) == "fi"
            case Zsh =>
              && PathLine(shell, home) == "export PATH=" + dir + ":$PATH"
              && Guard(shell) == "if command -v " + "stacyvm" + " >/dev/null 2>&1; then"
              && Indent(shell) + Sourcing(shell) == "  " + ("source <(" + ("stacyvm" + (" completion " + "zsh")) + ")")
              && Terminator(shell) == "fi"
            case Fish =>
              && PathLine(shell, home) == "fish_add_path " + dir + ""
              && Guard(shell) == "if type -q " + "stacyvm" + ""
              && Indent(shell) + Sourcing(shell) == "  " + ("" + ("stacyvm" + (" completion " + "fish")) + " | source")
              && Terminator(shell) == "end"
            case PowerShell =>
              && Guard(shell) == "if (Get-Command " + "stacyvm" + " -ErrorAction SilentlyContinue) {"
              && Indent(shell) + Sourcing(shell)
                 == "    " + ("" + ("stacyvm" + (" completion " + "powershell")) + " | Out-String | Invoke-Expression")
              && Terminator(shell) == "}"
  {
  }

  // ---------- Quoting ----------

  function HexValue(c: char): int {
    if '0' <= c <= '9' then c as int - '0' as int
    else if 'a' <= c <= 'f' then c as int - 'a' as int + 10
    else 0
  }

  /** The character that the escape at the start of s stands for, and its length. */
  function Escape(s: string): (char, nat)
    requires s != "" && s[0] == '\\'
    ensures Escape(s).1 >= 1
  {
    if |s| < 2 then ('\\', 1)
    else match s[1]
      case 'n' => ('\n', 2)
      case 'r' => ('\r', 2)
      case 't' => ('\t', 2)
      case 'a' => (7 as char, 2)
      case 'b' => (8 as char, 2)
      case 'v' => (11 as char, 2)
      case 'f' => (12 as char, 2)
      case 'x' => if |s| < 4 then ('x', 2) else ((HexValue(s[2]) * 16 + HexValue(s[3])) as char, 4)
      case c => (c, 2)
  }

  /** A quoted text read back, escape by escape. */
  function ReadBack(s: string): string
    decreases |s|
  {
    if s == "" then ""
    else if s[0] != '\\' then [s[0]] + ReadBack(s[1..])
    else
      var (c, n) := Escape(s);
      [c] + if n <= |s| then ReadBack(s[n..]) else ""
  }

  lemma EscapeReadsBack(e: char, c: char, rest: string)
    requires Escape(['\\', e] + rest) == (c, 2)
    ensures ReadBack(['\\', e] + rest) == [c] + ReadBack(rest)
  {
    assert (['\\', e] + rest)[2..] == rest;
  }

  lemma HexEscapeReadsBack(h: char, l: char, c: char, rest: string)
    requires HexValue(h) * 16 + HexValue(l) == c as int
    ensures ReadBack(['\\', 'x', h, l] + rest) == [c] + ReadBack(rest)
  {
    assert (['\\', 'x', h, l] + rest)[4..] == rest;
  }

  lemma PlainReadsBack(c: char, rest: string)
    requires c != '\\'
    ensures ReadBack([c] + rest) == [c] + ReadBack(rest)
  {
    assert ([c] + rest)[1..] == rest;
  }

  lemma CharReadsBack(c: char, rest: string)
    ensures ReadBack(QuoteChar(c) + rest) == [c] + ReadBack(rest)
  {
    if c == '"' || c == '\\' {
      EscapeReadsBack(c, c, rest);
    } else if c == '\n' {
      EscapeReadsBack('n', c, rest);
    } else if c == '\r' {
      EscapeReadsBack('r', c, rest);
    } else if c == '\t' {
      EscapeReadsBack('t', c, rest);
    } else if c == 7 as char {
      EscapeReadsBack('a', c, rest);
    } else if c == 8 as char {
      EscapeReadsBack('b', c, rest);
    } else if c == 11 as char {
      EscapeReadsBack('v', c, rest);
    } else if c == 12 as char {
      EscapeReadsBack('f', c, rest);
    } else if c < ' ' || c == 127 as char {
      var h, l := HexDigit(c as int / 16), HexDigit(c as int % 16);
      HexReadsBack(c);
      HexEscapeReadsBack(h, l, c, rest);
      assert QuoteChar(c) == ['\\', 'x', h, l];
    } else {
      PlainReadsBack(c, rest);
    }
  }

  lemma HexReadsBack(c: char)
    requires c < ' ' || c == 127 as char
    ensures HexValue(HexDigit(c as int / 16)) * 16 + HexValue(HexDigit(c as int % 16)) == c as int
  {
    DigitReadsBack(c as int / 16);
    DigitReadsBack(c as int % 16);
  }

  lemma DigitReadsBack(n: nat)
    requires n < 16
    ensures HexValue(HexDigit(n)) == n
  {
  }

  /** Nine characters are written as a backslash and one character, the other control
      characters as two hexadecimal digits, and everything else as itself. */
  lemma EscapesAreShort(c: char)
    ensures var code := c as int;
            |QuoteChar(c)| == if code in {7, 8, 9, 10, 11, 12, 13, 34, 92} then 2
                              else if code < 32 || code == 127 then 4 else 1
  {
  }

  /** Quoting loses nothing: read back, the quoted text is the text. */
  lemma {:induction false} QuoteReadsBack(s: string)
    ensures Quote(s) == "\"" + QuoteBody(s) + "\"" && ReadBack(QuoteBody(s)) == s
  {
    if s != "" {
      CharReadsBack(s[0], QuoteBody(s[1..]));
      QuoteReadsBack(s[1..]);
      assert s == [s[0]] + s[1..];
    }
  }
}
