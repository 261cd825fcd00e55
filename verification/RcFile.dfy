/** The block setup writes into a shell's start-up file, and the remover that uninstall
    runs over the same file. The remover recognises the block by its lines only. */
module RcFile {

  import opened Text

  const MARKER := "# StacyVM Autocomplete"
  const INSTALL_DIR := ".local/bin"
  const TOOL := "stacyvm"

  datatype Shell = Bash | Zsh | Fish | PowerShell

  // What setup writes

  function HexDigit(n: nat): char
    requires n < 16
  {
    "0123456789abcdef"[n]
  }

  function QuoteChar(c: char): string {
    if c == '"' then "\\\""
    else if c == '\\' then "\\\\"
    else if c == '\n' then "\\n"
    else if c == '\r' then "\\r"
    else if c == '\t' then "\\t"
    else if c == 7 as char then "\\a"
    else if c == 8 as char then "\\b"
    else if c == 11 as char then "\\v"
    else if c == 12 as char then "\\f"
    else if c < ' ' || c == 127 as char then "\\x" + [HexDigit(c as int / 16), HexDigit(c as int % 16)]
    else [c]
  }

  function QuoteBody(s: string): string {
    if s == "" then "" else QuoteChar(s[0]) + QuoteBody(s[1..])
  }

  /** The verb %q. */
  function Quote(s: string): string { "\"" + QuoteBody(s) + "\"" }

  /** `home` is a clean path without its trailing slash. */
  function LocalBin(home: string): string { home + "/" + INSTALL_DIR }

  function PathHead(shell: Shell): string { if shell.Fish? then "fish_add_path " else "export PATH=" }

  function PathTail(shell: Shell): string { if shell.Fish? then "" else ":$PATH" }

  function PathLine(shell: Shell, home: string): string {
    PathHead(shell) + Quote(LocalBin(home)) + PathTail(shell)
  }

  /** The PATH lines of a block; the PowerShell block has none. */
  function PathLines(shell: Shell, home: string): seq<string> {
    if shell.PowerShell? then [] else [PathLine(shell, home)]
  }

  function PathSnippet(shell: Shell, home: string): string {
    if shell.PowerShell? then "" else PathLine(shell, home) + "\n"
  }

  function ShellName(shell: Shell): string {
    match shell
    case Bash => "bash"
    case Zsh => "zsh"
    case Fish => "fish"
    case PowerShell => "powershell"
  }

  function CompletionTail(shell: Shell): string { " completion " + ShellName(shell) }

  function Completion(shell: Shell): string { TOOL + CompletionTail(shell) }

  function GuardHead(shell: Shell): string {
    match shell
    case Fish => "if type -q "
    case PowerShell => "if (Get-Command "
    case _ => "if command -v "
  }

  function GuardTail(shell: Shell): string {
    match shell
    case Fish => ""
    case PowerShell => " -ErrorAction SilentlyContinue) {"
    case _ => " >/dev/null 2>&1; then"
  }

  function Guard(shell: Shell): string { GuardHead(shell) + TOOL + GuardTail(shell) }

  function Indent(shell: Shell): string { if shell.PowerShell? then "    " else "  " }

  function SourcingHead(shell: Shell): string {
    match shell
    case Fish => ""
    case PowerShell => ""
    case _ => "source <("
  }

  function SourcingTail(shell: Shell): string {
    match shell
    case Fish => " | source"
    case PowerShell => " | Out-String | Invoke-Expression"
    case _ => ")"
  }

  function Sourcing(shell: Shell): string { SourcingHead(shell) + Completion(shell) + SourcingTail(shell) }

  function Terminator(shell: Shell): string {
    match shell
    case Fish => "end"
    case PowerShell => "}"
    case _ => "fi"
  }

  function GuardedSourcing(shell: Shell): string {
    Guard(shell) + "\n" + (Indent(shell) + Sourcing(shell) + "\n" + (Terminator(shell) + "\n"))
  }

  function Block(shell: Shell, home: string): string {
    "\n" + (MARKER + "\n" + (PathSnippet(shell, home) + GuardedSourcing(shell)))
  }

  /** `strings.Index` on a string known to contain t. */
  function FirstIndex(s: string, t: string, from: nat): (i: nat)
    requires exists k :: from <= k && OccursAt(s, t, k)
    ensures from <= i && OccursAt(s, t, i)
    ensures forall k :: from <= k < i ==> !OccursAt(s, t, k)
    decreases |s| - from
  {
    if OccursAt(s, t, from) then from else FirstIndex(s, t, from + 1)
  }

  /** One past the last newline before position i; 0 when there is none. */
  function LineStart(s: string, i: nat): (k: nat)
    requires i <= |s|
    ensures k <= i && (k == 0 || s[k - 1] == '\n')
    ensures forall j :: k <= j < i ==> s[j] != '\n'
  {
    if i == 0 then 0 else if s[i - 1] == '\n' then i else LineStart(s, i - 1)
  }

  function InsertBeforeCompletion(content: string, completion: string, snippet: string): string {
    if !Contains(content, completion) then content + snippet
    else
      var k := LineStart(content, FirstIndex(content, completion, 0));
      content[..k] + snippet + content[k..]
  }

  function InstallShellCompletion(content: string, completion: string, snippet: string, block: string): string {
    if Contains(content, completion) then
      if snippet != "" && !Contains(content, INSTALL_DIR)
      then InsertBeforeCompletion(content, completion, snippet)
      else content
    else content + block
  }

  function Install(shell: Shell, home: string, content: string): string {
    InstallShellCompletion(content, Completion(shell), PathSnippet(shell, home), Block(shell, home))
  }

  // What uninstall removes

  predicate IsMarker(line: string) { TrimSpace(line) == MARKER }

  predicate IsBlockLine(t: string) {
    t != "" && (Contains(t, TOOL) || Contains(t, INSTALL_DIR))
  }

  ghost predicate HasMarker(lines: seq<string>) {
    exists i :: 0 <= i < |lines| && IsMarker(lines[i])
  }

  function FirstMarker(lines: seq<string>, from: nat): (i: nat)
    requires from <= |lines|
    ensures from <= i <= |lines|
    ensures forall k :: from <= k < i ==> !IsMarker(lines[k])
    ensures i < |lines| ==> IsMarker(lines[i])
    decreases |lines| - from
  {
    if from == |lines| || IsMarker(lines[from]) then from else FirstMarker(lines, from + 1)
  }

  /** The last line to remove when the lines before `from` go: up to a terminator, or as far
      as the lines look like ours. */
  function BlockEnd(lines: seq<string>, terminators: set<string>, from: nat): (e: nat)
    requires 1 <= from <= |lines|
    ensures from - 1 <= e < |lines|
    ensures forall k :: from <= k <= e ==> TrimSpace(lines[k]) in terminators || IsBlockLine(TrimSpace(lines[k]))
    decreases |lines| - from
  {
    if from == |lines| then from - 1
    else
      var t := TrimSpace(lines[from]);
      if t in terminators then from
      else if !IsBlockLine(t) then from - 1
      else BlockEnd(lines, terminators, from + 1)
  }

  /** Where the cut starts: one blank line above the marker goes too. */
  function CutStart(lines: seq<string>, start: nat): (a: nat)
    requires start <= |lines|
    ensures a <= start <= a + 1
  {
    if start > 0 && TrimSpace(lines[start - 1]) == "" then start - 1 else start
  }

  function Remaining(lines: seq<string>, terminators: set<string>): seq<string> {
    var start := FirstMarker(lines, 0);
    if start == |lines| then lines
    else lines[..CutStart(lines, start)] + lines[BlockEnd(lines, terminators, start + 1) + 1..]
  }

  function Removed(content: string, terminators: set<string>): string {
    Join(Remaining(Split(content, '\n'), terminators), '\n')
  }

  function Uninstall(shell: Shell, content: string): string { Removed(content, {Terminator(shell)}) }

  /** The first loop: the marker's index, -1 when there is none. */
  method FindMarker(lines: seq<string>) returns (start: int)
    ensures start == -1 ==> !HasMarker(lines) && FirstMarker(lines, 0) == |lines|
    ensures start != -1 ==> HasMarker(lines) && start == FirstMarker(lines, 0) < |lines|
  {
    start := -1;
    for i := 0 to |lines|
      invariant start == -1
      invariant FirstMarker(lines, 0) == FirstMarker(lines, i)
    {
      if IsMarker(lines[i]) {
        return i;
      }
    }
    assert FirstMarker(lines, |lines|) == |lines|;
  }

  /** The second loop: the last line to remove. */
  method FindEnd(lines: seq<string>, terminators: set<string>, start: nat) returns (end: nat)
    requires start < |lines|
    ensures end == BlockEnd(lines, terminators, start + 1)
  {
    end := start;
    for i := start + 1 to |lines|
      invariant end == i - 1
      invariant BlockEnd(lines, terminators, start + 1) == BlockEnd(lines, terminators, i)
    {
      var t := TrimSpace(lines[i]);
      if t in terminators {
        return i;
      }
      if !IsBlockLine(t) {
        return;
      }
      end := i;
    }
  }

  method RemoveAutocompleteBlock(content: string, terminators: set<string>) returns (updated: string, changed: bool)
    ensures changed == HasMarker(Split(content, '\n'))
    ensures updated == Removed(content, terminators)
    ensures !changed ==> updated == content
  {
    var lines := Split(content, '\n');
    var start := FindMarker(lines);
    if start == -1 {
      JoinSplit(content, '\n');
      return content, false;
    }
    var end := FindEnd(lines, terminators, start);
    var delStart := start;
    if delStart > 0 && TrimSpace(lines[delStart - 1]) == "" {
      delStart := delStart - 1;
    }
    assert delStart == CutStart(lines, start);
    var remaining := lines[..delStart] + lines[end + 1..];
    assert remaining == Remaining(lines, terminators);
    return Join(remaining, '\n'), true;
  }

  predicate IsRemovable(t: string, terminators: set<string>) {
    t == MARKER || t in terminators || IsBlockLine(t)
  }

  /** The lines from a marker on that are removed. */
  ghost predicate OnlyRemovable(lines: seq<string>, a: nat, b: nat, terminators: set<string>)
    requires b <= |lines|
  {
    forall k :: a <= k < b ==> IsRemovable(TrimSpace(lines[k]), terminators)
  }

  lemma MarkerFound(lines: seq<string>) returns (start: nat)
    requires HasMarker(lines)
    ensures start == FirstMarker(lines, 0) < |lines| && IsMarker(lines[start])
  {
    start := FirstMarker(lines, 0);
  }

  lemma BlockIsRemovable(lines: seq<string>, terminators: set<string>, start: nat) returns (b: nat)
    requires start < |lines| && IsMarker(lines[start])
    ensures b == BlockEnd(lines, terminators, start + 1) + 1
    ensures start < b <= |lines| && OnlyRemovable(lines, start, b, terminators)
  {
    b := BlockEnd(lines, terminators, start + 1) + 1;
    forall k | start <= k < b ensures IsRemovable(TrimSpace(lines[k]), terminators) {
      if k == start {
        assert IsMarker(lines[start]);
      }
    }
  }

  lemma CutIsBlank(lines: seq<string>, start: nat) returns (a: nat)
    requires start < |lines|
    ensures a == CutStart(lines, start) <= start
    ensures a == start || (a == start - 1 && TrimSpace(lines[a]) == "")
  {
    a := CutStart(lines, start);
  }

  /** Whatever the file holds, one stretch of lines goes, and each of them is the marker, a
      line naming the tool or its directory, a terminator, or the one blank line above. */
  lemma OnlyBlockLinesGo(lines: seq<string>, terminators: set<string>) returns (a: nat, start: nat, b: nat)
    requires HasMarker(lines)
    ensures start == FirstMarker(lines, 0) && a <= start < b <= |lines|
    ensures Remaining(lines, terminators) == lines[..a] + lines[b..]
    ensures OnlyRemovable(lines, start, b, terminators)
    ensures a == start || (a == start - 1 && TrimSpace(lines[a]) == "")
  {
    start := MarkerFound(lines);
    b := BlockIsRemovable(lines, terminators, start);
    a := CutIsBlank(lines, start);
  }

  // The lines of the installed block

  lemma {:induction false} QuotedHasNoNewline(s: string)
    ensures Free(QuoteBody(s), '\n')
  {
    if s != "" {
      QuotedHasNoNewline(s[1..]);
      assert '\n' !in QuoteChar(s[0]);
    }
  }

  lemma {:induction false} QuoteBodyConcat(a: string, b: string)
    ensures QuoteBody(a + b) == QuoteBody(a) + QuoteBody(b)
  {
    if a == "" {
      assert a + b == b;
    } else {
      assert (a + b)[1..] == a[1..] + b;
      QuoteBodyConcat(a[1..], b);
    }
  }

  predicate IsPlain(c: char) { ' ' <= c < 127 as char && c != '"' && c != '\\' }

  lemma {:induction false} QuotePlain(s: string)
    requires forall i :: 0 <= i < |s| ==> IsPlain(s[i])
    ensures QuoteBody(s) == s
  {
    if s != "" {
      QuotePlain(s[1..]);
      assert s == [s[0]] + s[1..];
    }
  }

  lemma InstallDirIsPlain()
    ensures QuoteBody(INSTALL_DIR) == INSTALL_DIR
  {
    QuotePlain(INSTALL_DIR);
  }

  lemma QuotedTail(a: string, b: string)
    requires QuoteBody(b) == b
    ensures Quote(a + b) == ("\"" + QuoteBody(a)) + b + "\""
    ensures Free(Quote(a + b), '\n')
  {
    QuoteBodyConcat(a, b);
    QuotedHasNoNewline(a + b);
    Regrouped("\"", QuoteBody(a), b);
  }

  lemma Regrouped(q: string, a: string, b: string)
    ensures q + (a + b) + q == (q + a) + b + q
  {
  }

  /** The quoted directory is one line and still names the install directory. */
  lemma QuotedLocalBin(home: string)
    ensures Free(Quote(LocalBin(home)), '\n')
    ensures Quote(LocalBin(home)) == ("\"" + QuoteBody(home + "/")) + INSTALL_DIR + "\""
  {
    InstallDirIsPlain();
    QuotedTail(home + "/", INSTALL_DIR);
  }

  predicate Tight(t: string) { t != "" && !IsSpace(t[0]) && !IsSpace(t[|t| - 1]) }

  /** A line of the block: no newline, long enough not to be a terminator, ours once trimmed. */
  ghost predicate IsInstalled(line: string) {
    && Free(line, '\n')
    && var t := TrimSpace(line); IsBlockLine(t) && |t| > 5 && t != MARKER
  }

  lemma TrimIndent(shell: Shell, t: string)
    requires Tight(t)
    ensures TrimSpace(Indent(shell) + t) == t
  {
    assert (" " + t)[1..] == t;
    assert TrimLeft(" " + t) == t;
    assert ("  " + t)[1..] == " " + t;
    assert TrimLeft("  " + t) == t;
    assert ("   " + t)[1..] == "  " + t;
    assert TrimLeft("   " + t) == t;
    assert ("    " + t)[1..] == "   " + t;
  }

  lemma NamingLine(before: string, token: string, after: string)
    requires token == TOOL || token == INSTALL_DIR
    requires Free(before, '\n') && (before != "" ==> !IsSpace(before[0]) && before[0] != '#')
    requires Free(after, '\n') && (after != "" ==> !IsSpace(after[|after| - 1]))
    ensures var line := before + token + after; IsInstalled(line) && Tight(line)
  {
    var line := before + token + after;
    TrimSpaceTight(line);
    NamesToken(before, token, after);
    assert MARKER[0] == '#';
  }

  lemma NamesToken(before: string, token: string, after: string)
    requires (token == TOOL || token == INSTALL_DIR) && |token| > 5
    ensures IsBlockLine(before + token + after)
  {
    var line := before + token + after;
    assert |line| > 5;
    ContainsMiddle(before, token, after);
  }

  lemma IndentedInstalled(shell: Shell, t: string)
    requires IsInstalled(t) && Tight(t)
    ensures IsInstalled(Indent(shell) + t)
  {
    TrimIndent(shell, t);
    TrimSpaceTight(t);
  }

  lemma QuotedInside(head: string, q: string, tail: string)
    ensures head + (("\"" + q) + INSTALL_DIR + "\"") + tail == (head + "\"" + q) + INSTALL_DIR + ("\"" + tail)
  {
  }

  lemma PathLineInstalled(shell: Shell, home: string)
    ensures IsInstalled(PathLine(shell, home))
    ensures Contains(PathLine(shell, home), INSTALL_DIR)
  {
    var q := QuoteBody(home + "/");
    var before, after := PathHead(shell) + "\"" + q, "\"" + PathTail(shell);
    QuotedLocalBin(home);
    QuotedInside(PathHead(shell), q, PathTail(shell));
    QuotedHasNoNewline(home + "/");
    ContainsMiddle(before, INSTALL_DIR, after);
    NamingLine(before, INSTALL_DIR, after);
  }

  lemma GuardInstalled(shell: Shell)
    ensures IsInstalled(Guard(shell))
  {
    NamingLine(GuardHead(shell), TOOL, GuardTail(shell));
  }

  lemma CompletionInside(before: string, name: string, after: string)
    ensures before + (TOOL + name) + after == before + TOOL + (name + after)
  {
  }

  lemma SourcingInstalled(shell: Shell)
    ensures IsInstalled(Indent(shell) + Sourcing(shell))
  {
    CompletionInside(SourcingHead(shell), CompletionTail(shell), SourcingTail(shell));
    SourcingTailIsEdge(shell);
    NamingLine(SourcingHead(shell), TOOL, CompletionTail(shell) + SourcingTail(shell));
    IndentedInstalled(shell, Sourcing(shell));
  }

  lemma CompletionTailIsFree(shell: Shell)
    ensures Free(CompletionTail(shell), '\n')
  {
    assert Free(ShellName(shell), '\n');
  }

  lemma SourcingTailIsEdge(shell: Shell)
    ensures var after := CompletionTail(shell) + SourcingTail(shell);
            Free(after, '\n') && after != "" && !IsSpace(after[|after| - 1])
  {
    CompletionTailIsFree(shell);
    assert Free(SourcingTail(shell), '\n') && SourcingTail(shell) != "";
  }

  function BlockLines(shell: Shell, home: string): seq<string> {
    PathLines(shell, home) + [Guard(shell), Indent(shell) + Sourcing(shell)]
  }

  lemma SplitLine(line: string, rest: string)
    requires Free(line, '\n')
    ensures Split(line + "\n" + rest, '\n') == [line] + Split(rest, '\n')
  {
    SplitOfFree(line, '\n');
    SplitAfter(line, rest, '\n');
  }

  lemma SplitThree(a: string, b: string, t: string)
    requires Free(a, '\n') && Free(b, '\n') && Free(t, '\n')
    ensures Split(a + "\n" + (b + "\n" + (t + "\n")), '\n') == [a, b, t, ""]
  {
    SplitLine(t, "");
    assert t + "\n" + "" == t + "\n";
    SplitLine(b, t + "\n");
    SplitLine(a, b + "\n" + (t + "\n"));
  }

  lemma SplitSourcing(shell: Shell)
    ensures Split(GuardedSourcing(shell), '\n')
         == [Guard(shell), Indent(shell) + Sourcing(shell), Terminator(shell), ""]
  {
    GuardInstalled(shell);
    SourcingInstalled(shell);
    assert Free(Terminator(shell), '\n');
    SplitThree(Guard(shell), Indent(shell) + Sourcing(shell), Terminator(shell));
  }

  lemma SplitHeading(heading: string, body: string)
    requires Free(heading, '\n')
    ensures Split("\n" + (heading + "\n" + body), '\n') == ["", heading] + Split(body, '\n')
  {
    SplitLine(heading, body);
    SplitLeading(heading + "\n" + body, '\n');
    TwoFirst(heading, Split(body, '\n'));
  }

  lemma TwoFirst(heading: string, rest: seq<string>)
    ensures [""] + ([heading] + rest) == ["", heading] + rest
  {
  }

  lemma SplitPathSnippet(shell: Shell, home: string, rest: string)
    ensures Split(PathSnippet(shell, home) + rest, '\n') == PathLines(shell, home) + Split(rest, '\n')
  {
    if shell.PowerShell? {
      assert "" + rest == rest;
    } else {
      PathLineInstalled(shell, home);
      SplitLine(PathLine(shell, home), rest);
    }
  }

  /** The block, line by line. */
  lemma SplitBlock(shell: Shell, home: string)
    ensures Split(Block(shell, home), '\n') == [""] + Installed(MARKER, BlockLines(shell, home), Terminator(shell))
  {
    SplitSourcing(shell);
    SplitPathSnippet(shell, home, GuardedSourcing(shell));
    MarkerLine();
    SplitHeading(MARKER, PathSnippet(shell, home) + GuardedSourcing(shell));
    InstalledAssoc(MARKER, PathLines(shell, home), Guard(shell), Indent(shell) + Sourcing(shell), Terminator(shell));
  }

  lemma InstalledAssoc(marker: string, path: seq<string>, guard: string, sourcing: string, terminator: string)
    ensures ["", marker] + (path + [guard, sourcing, terminator, ""])
         == [""] + Installed(marker, path + [guard, sourcing], terminator)
  {
  }

  function Installed(marker: string, body: seq<string>, terminator: string): seq<string> {
    [marker] + body + [terminator, ""]
  }

  lemma MarkerLine()
    ensures Free(MARKER, '\n') && IsMarker(MARKER)
  {
    TrimSpaceTight(MARKER);
  }

  ghost predicate InBlock(line: string, terminator: string) {
    var t := TrimSpace(line); t != terminator && IsBlockLine(t)
  }

  lemma TerminatorIsShort(shell: Shell)
    ensures TrimSpace(Terminator(shell)) == Terminator(shell) && |Terminator(shell)| <= 5
  {
    TrimSpaceTight(Terminator(shell));
  }

  lemma InstalledIsInBlock(line: string, shell: Shell)
    requires IsInstalled(line)
    ensures InBlock(line, Terminator(shell))
  {
    TerminatorIsShort(shell);
  }

  lemma PathInBlock(shell: Shell, home: string)
    ensures InBlock(PathLine(shell, home), Terminator(shell))
  {
    PathLineInstalled(shell, home);
    InstalledIsInBlock(PathLine(shell, home), shell);
  }

  lemma GuardInBlock(shell: Shell)
    ensures InBlock(Guard(shell), Terminator(shell))
  {
    GuardInstalled(shell);
    InstalledIsInBlock(Guard(shell), shell);
  }

  lemma SourcingInBlock(shell: Shell)
    ensures InBlock(Indent(shell) + Sourcing(shell), Terminator(shell))
  {
    SourcingInstalled(shell);
    InstalledIsInBlock(Indent(shell) + Sourcing(shell), shell);
  }

  lemma BlockLinesInBlock(shell: Shell, home: string)
    ensures forall k :: 0 <= k < |BlockLines(shell, home)| ==> InBlock(BlockLines(shell, home)[k], Terminator(shell))
  {
    PathInBlock(shell, home);
    GuardInBlock(shell);
    SourcingInBlock(shell);
    AllOfThree(shell, PathLine(shell, home), Guard(shell), Indent(shell) + Sourcing(shell));
  }

  lemma AllOfThree(shell: Shell, path: string, guard: string, sourcing: string)
    requires InBlock(path, Terminator(shell)) && InBlock(guard, Terminator(shell)) && InBlock(sourcing, Terminator(shell))
    ensures var lines := (if shell.PowerShell? then [] else [path]) + [guard, sourcing];
            forall k :: 0 <= k < |lines| ==> InBlock(lines[k], Terminator(shell))
  {
  }

  // Removing what was installed

  lemma {:induction false} BlockEndAt(lines: seq<string>, terminator: string, from: nat, e: nat)
    requires 1 <= from <= e < |lines|
    requires forall k :: from <= k < e ==> InBlock(lines[k], terminator)
    requires TrimSpace(lines[e]) == terminator
    ensures BlockEnd(lines, {terminator}, from) == e
    decreases e - from
  {
    if from < e {
      assert InBlock(lines[from], terminator);
      BlockEndAt(lines, terminator, from + 1, e);
    }
  }

  /** The remover finds the installed block behind any marker-free lines and cuts it whole. */
  lemma CutIsTheBlock(x: seq<string>, marker: string, body: seq<string>, terminator: string)
    requires |x| >= 1 && !HasMarker(x) && IsMarker(marker)
    requires forall k :: 0 <= k < |body| ==> InBlock(body[k], terminator)
    requires TrimSpace(terminator) == terminator
    ensures Remaining(x + Installed(marker, body, terminator), {terminator}) == x[..CutStart(x, |x|)] + [""]
  {
    var lines := x + Installed(marker, body, terminator);
    MarkerAfter(x, marker, body + [terminator, ""], lines);
    BlockAfter(x + [marker], body, terminator, lines);
    CutMiddle(x, [marker] + body + [terminator], lines, CutStart(x, |x|));
  }

  lemma CutMiddle(x: seq<string>, block: seq<string>, lines: seq<string>, start: nat)
    requires lines == x + block + [""] && start <= |x|
    ensures lines[..start] + lines[|x| + |block|..] == x[..start] + [""]
  {
  }

  lemma MarkerAfter(x: seq<string>, marker: string, rest: seq<string>, lines: seq<string>)
    requires !HasMarker(x) && IsMarker(marker) && lines == x + ([marker] + rest)
    ensures FirstMarker(lines, 0) == |x| && CutStart(lines, |x|) == CutStart(x, |x|)
  {
    assert lines[|x|] == marker;
    assert forall k :: 0 <= k < |x| ==> lines[k] == x[k];
  }

  lemma BlockAfter(head: seq<string>, body: seq<string>, terminator: string, lines: seq<string>)
    requires |head| >= 1 && lines == head + (body + [terminator, ""])
    requires forall k :: 0 <= k < |body| ==> InBlock(body[k], terminator)
    requires TrimSpace(terminator) == terminator
    ensures BlockEnd(lines, {terminator}, |head|) == |head| + |body|
  {
    assert forall k :: |head| <= k < |head| + |body| ==> lines[k] == body[k - |head|];
    assert lines[|head| + |body|] == terminator;
    BlockEndAt(lines, terminator, |head|, |head| + |body|);
  }

  ghost predicate Unmarked(content: string) { !HasMarker(Split(content, '\n')) }

  /** A last line that is blank but not empty goes with the block, and one with text gets a
      newline it did not have. */
  lemma AppendThenRemove(shell: Shell, home: string, content: string)
    requires Unmarked(content)
    ensures Uninstall(shell, content + Block(shell, home))
         == if TrimSpace(Rest(content)) == "" then Closed(content) else content + "\n"
  {
    var x := Split(content, '\n');
    var y := Installed(MARKER, BlockLines(shell, home), Terminator(shell));
    SplitBlock(shell, home);
    AppendBlockLines(content, Block(shell, home), y);
    MarkerLine();
    BlockLinesInBlock(shell, home);
    TerminatorIsShort(shell);
    CutIsTheBlock(x, MARKER, BlockLines(shell, home), Terminator(shell));
    JoinKept(content);
  }

  lemma AppendBlockLines(content: string, block: string, y: seq<string>)
    requires Split(block, '\n') == [""] + y
    ensures Split(content + block, '\n') == Split(content, '\n') + y
  {
    SplitConcat(content, block, '\n');
    var x := Split(content, '\n');
    assert x[|x| - 1] + "" == x[|x| - 1];
    assert ([""] + y)[1..] == y;
  }

  lemma JoinKeptBlank(content: string)
    requires TrimSpace(Rest(content)) == ""
    ensures var x := Split(content, '\n'); Join(x[..CutStart(x, |x|)] + [""], '\n') == Closed(content)
  {
    var x := Split(content, '\n');
    assert x[..CutStart(x, |x|)] == Complete(content);
    JoinInitLast(Complete(content) + [""], '\n');
    assert (Complete(content) + [""])[..|Complete(content)|] == Complete(content);
  }

  lemma JoinKeptText(content: string)
    requires TrimSpace(Rest(content)) != ""
    ensures var x := Split(content, '\n'); Join(x[..CutStart(x, |x|)] + [""], '\n') == content + "\n"
  {
    var x := Split(content, '\n');
    assert x[..CutStart(x, |x|)] == x;
    JoinInitLast(x + [""], '\n');
    assert (x + [""])[..|x|] == x;
    JoinSplit(content, '\n');
  }

  lemma JoinKept(content: string)
    ensures var x := Split(content, '\n');
            Join(x[..CutStart(x, |x|)] + [""], '\n')
            == if TrimSpace(Rest(content)) == "" then Closed(content) else content + "\n"
  {
    if TrimSpace(Rest(content)) == "" {
      JoinKeptBlank(content);
    } else {
      JoinKeptText(content);
    }
  }

  lemma RemoveWithoutMarker(content: string, terminators: set<string>)
    requires Unmarked(content)
    ensures Removed(content, terminators) == content
  {
    var lines := Split(content, '\n');
    assert FirstMarker(lines, 0) == |lines|;
    JoinSplit(content, '\n');
  }

  function LinesBefore(content: string, k: nat): seq<string>
    requires k <= |content|
  {
    if k == 0 then [] else Split(content[..k - 1], '\n')
  }

  lemma SplitAtLine(content: string, k: nat)
    requires k <= |content| && (k == 0 || content[k - 1] == '\n')
    ensures Split(content, '\n') == LinesBefore(content, k) + Split(content[k..], '\n')
  {
    if k == 0 {
      assert content[k..] == content;
    } else {
      SplitAt(content, k, '\n');
    }
  }

  lemma InsertionKeepsEnds(content: string, k: nat, line: string)
    requires k <= |content|
    ensures var inserted := content[..k] + (line + "\n") + content[k..];
            inserted[..k] == content[..k] && inserted[k..] == line + "\n" + content[k..]
  {
  }

  /** Slipping a whole line in at the start of a line. */
  lemma InsertedLines(content: string, k: nat, line: string)
    requires k <= |content| && (k == 0 || content[k - 1] == '\n') && Free(line, '\n')
    ensures Split(content[..k] + (line + "\n") + content[k..], '\n')
         == LinesBefore(content, k) + ([line] + Split(content[k..], '\n'))
  {
    var inserted := content[..k] + (line + "\n") + content[k..];
    InsertionKeepsEnds(content, k, line);
    assert k > 0 ==> inserted[k - 1] == inserted[..k][k - 1] == content[k - 1];
    SplitAtLine(inserted, k);
    SplitLine(line, content[k..]);
    assert k > 0 ==> inserted[..k - 1] == inserted[..k][..k - 1] == content[..k][..k - 1] == content[..k - 1];
  }

  lemma NoMarkerBetween(a: seq<string>, line: string, b: seq<string>)
    requires !HasMarker(a + b) && !IsMarker(line)
    ensures !HasMarker(a + ([line] + b))
  {
    var lines := a + ([line] + b);
    forall i | 0 <= i < |lines| ensures !IsMarker(lines[i]) {
      if i < |a| {
        assert lines[i] == (a + b)[i];
      } else if i > |a| {
        assert lines[i] == (a + b)[i - 1];
      }
    }
  }

  lemma InsertedContains(content: string, k: nat, line: string, at: nat, completion: string)
    requires k <= at && OccursAt(content, completion, at) && Contains(line, INSTALL_DIR)
    ensures var after := content[..k] + (line + "\n") + content[k..];
            Contains(after, completion) && Contains(after, INSTALL_DIR) && |after| > |content|
  {
    var after := content[..k] + (line + "\n") + content[k..];
    assert OccursAt(after, completion, at + |line| + 1) by {
      assert after[at + |line| + 1..at + |line| + 1 + |completion|] == content[at..at + |completion|];
    }
    ContainsWider(content[..k], line, "\n" + content[k..], INSTALL_DIR);
    assert content[..k] + line + ("\n" + content[k..]) == after;
  }

  lemma LineInserted(content: string, completion: string, line: string)
    requires Unmarked(content) && Contains(content, completion)
    requires Free(line, '\n') && !IsMarker(line) && Contains(line, INSTALL_DIR)
    ensures var after := InsertBeforeCompletion(content, completion, line + "\n");
            && Unmarked(after) && |after| > |content|
            && Contains(after, completion) && Contains(after, INSTALL_DIR)
  {
    var at := FirstIndex(content, completion, 0);
    var k := LineStart(content, at);
    SplitAtLine(content, k);
    InsertedLines(content, k, line);
    NoMarkerBetween(LinesBefore(content, k), line, Split(content[k..], '\n'));
    InsertedContains(content, k, line, at, completion);
  }

  /** When the completion command is there but the directory is not, setup only slips its
      PATH line in, and that line the remover does not recognise on its own. */
  lemma InsertThenRemove(shell: Shell, home: string, content: string)
    requires Unmarked(content) && !shell.PowerShell?
    requires Contains(content, Completion(shell)) && !Contains(content, INSTALL_DIR)
    ensures var after := Install(shell, home, content);
            && Unmarked(after) && after != content
            && Contains(after, Completion(shell)) && Contains(after, INSTALL_DIR)
  {
    PathLineInstalled(shell, home);
    LineInserted(content, Completion(shell), PathLine(shell, home));
  }

  /** Uninstall gives the file back exactly in these cases and in no others. */
  lemma UninstallUndoesInstallIff(shell: Shell, home: string, content: string)
    requires Unmarked(content)
    ensures Uninstall(shell, Install(shell, home, content)) == content
      <==> if Contains(content, Completion(shell)) then shell.PowerShell? || Contains(content, INSTALL_DIR)
           else content == "" || content[|content| - 1] == '\n'
  {
    RemoveWithoutMarker(content, {Terminator(shell)});
    if !Contains(content, Completion(shell)) {
      AppendThenRemove(shell, home, content);
      ClosedThenRest(content);
      RestIsEmptyIff(content);
    } else if !shell.PowerShell? && !Contains(content, INSTALL_DIR) {
      InsertThenRemove(shell, home, content);
      RemoveWithoutMarker(Install(shell, home, content), {Terminator(shell)});
    }
  }

  /** Setup twice is setup once. */
  lemma InstallIsIdempotent(shell: Shell, home: string, content: string)
    requires Unmarked(content)
    ensures Install(shell, home, Install(shell, home, content)) == Install(shell, home, content)
  {
    if !Contains(content, Completion(shell)) {
      BlockNamesItself(shell, home);
      ContainsWider(content, Block(shell, home), "", Completion(shell));
      assert content + Block(shell, home) + "" == content + Block(shell, home);
      if !shell.PowerShell? {
        ContainsWider(content, Block(shell, home), "", INSTALL_DIR);
      }
    } else if !shell.PowerShell? && !Contains(content, INSTALL_DIR) {
      InsertThenRemove(shell, home, content);
    }
  }

  /** A command inside an indented second line. */
  lemma ContainsInLine(line: string, indent: string, head: string, c: string, tail: string, rest: string)
    ensures Contains(line + "\n" + (indent + (head + c + tail) + "\n" + rest), c)
  {
    ContainsMiddle(line + "\n" + indent + head, c, tail + ("\n" + rest));
    Regroup(line + "\n", indent, head, c, tail, "\n" + rest);
    assert indent + (head + c + tail) + "\n" + rest == indent + (head + c + tail) + ("\n" + rest);
  }

  lemma SourcingNamesItself(shell: Shell)
    ensures Contains(GuardedSourcing(shell), Completion(shell))
  {
    ContainsInLine(Guard(shell), Indent(shell), SourcingHead(shell), Completion(shell), SourcingTail(shell),
                   Terminator(shell) + "\n");
  }

  lemma Regroup(a: string, b: string, c: string, d: string, e: string, f: string)
    ensures a + (b + (c + d + e) + f) == (a + b + c) + d + (e + f)
  {
  }

  lemma BlockNamesItself(shell: Shell, home: string)
    ensures Contains(Block(shell, home), Completion(shell))
    ensures !shell.PowerShell? ==> Contains(Block(shell, home), INSTALL_DIR)
  {
    var head, path, rest := "\n" + MARKER + "\n", PathSnippet(shell, home), GuardedSourcing(shell);
    SourcingNamesItself(shell);
    BlockRegroup(MARKER, path, rest);
    ContainsWider(head + path, rest, "", Completion(shell));
    if !shell.PowerShell? {
      PathLineInstalled(shell, home);
      LineRegroup(head, PathLine(shell, home), rest);
      ContainsWider(head, PathLine(shell, home), "\n" + rest, INSTALL_DIR);
    }
  }

  lemma BlockRegroup(marker: string, path: string, rest: string)
    ensures "\n" + (marker + "\n" + (path + rest)) == ("\n" + marker + "\n" + path) + rest + ""
  {
  }

  lemma LineRegroup(head: string, line: string, rest: string)
    ensures head + (line + "\n") + rest + "" == head + line + ("\n" + rest)
  {
  }

  /** After an uninstall there is nothing left to remove. */
  lemma SecondUninstallChangesNothing(shell: Shell, home: string, content: string)
    requires Unmarked(content)
    ensures var once := Uninstall(shell, Install(shell, home, content));
            Unmarked(once) && Uninstall(shell, once) == once
  {
    if !Contains(content, Completion(shell)) {
      AppendThenRemove(shell, home, content);
      ClosedIsUnmarked(content);
      RemoveWithoutMarker(Closed(content), {Terminator(shell)});
      RemoveWithoutMarker(content + "\n", {Terminator(shell)});
    } else {
      RemoveWithoutMarker(content, {Terminator(shell)});
      if !shell.PowerShell? && !Contains(content, INSTALL_DIR) {
        InsertThenRemove(shell, home, content);
        RemoveWithoutMarker(Install(shell, home, content), {Terminator(shell)});
      }
    }
  }

  lemma SplitOpened(content: string)
    ensures Split(content + "\n", '\n') == Split(content, '\n') + [""]
  {
    SplitAfter(content, "", '\n');
    assert content + ['\n'] + "" == content + "\n";
  }

  lemma SplitClosed(content: string)
    ensures Split(Closed(content), '\n') == Complete(content) + [""]
  {
    var lines := Complete(content);
    if lines == [] {
      assert [] + [""] == [""];
    } else {
      SplitFree(content, '\n');
      assert forall i :: 0 <= i < |lines| ==> lines[i] == Split(content, '\n')[i];
      SplitOpened(Join(lines, '\n'));
      SplitJoin(lines, '\n');
    }
  }

  lemma ClosedIsUnmarked(content: string)
    requires Unmarked(content)
    ensures Unmarked(Closed(content)) && Unmarked(content + "\n")
  {
    SplitOpened(content);
    SplitClosed(content);
    BlankIsUnmarked(Split(content, '\n'));
    assert !HasMarker(Complete(content)) by {
      assert forall i :: 0 <= i < |Complete(content)| ==> Complete(content)[i] == Split(content, '\n')[i];
    }
    BlankIsUnmarked(Complete(content));
  }

  lemma BlankIsUnmarked(lines: seq<string>)
    requires !HasMarker(lines)
    ensures !HasMarker(lines + [""])
  {
    assert TrimSpace("") == "";
    forall i | 0 <= i < |lines| + 1 ensures !IsMarker((lines + [""])[i]) {
      if i < |lines| {
        assert (lines + [""])[i] == lines[i];
      }
    }
  }
}
