/** What the scanner makes of operators and here-documents. */
module ShellLaws {

  import opened Text
  import opened Shell

  // Operators

  lemma OperatorStarts(v: string, op: char)
    requires StartsOperator(op)
    ensures Step(START.(current := InWord(v)), op) == START.(tokens := [Word(v)], current := InOperator([op]))
  {
    WordIsDelimited(START, v);
  }

  lemma OperatorGoesOn(s: State, op: string)
    requires Idle(s) && |op| == 2 && s.current == InOperator(op[..1])
    requires op in {"&&", "||", ";;", ">>", "<&", ">&", "<>", ">|", "<<"}
    ensures Step(s, op[1]) == s.(current := InOperator(op))
  {
    assert op[..1] + [op[1]] == op;
  }

  lemma RunOperator(v: string, op: string)
    requires PlainWord(v) && op in {"&", "|", ";", "<", ">", "(", ")", "&&", "||", ";;", ">>", "<&", ">&", "<>", ">|"}
    ensures Run(START, v + op) == START.(tokens := [Word(v)], current := InOperator(op))
  {
    var b := START.(tokens := [Word(v)], current := InOperator([op[0]]));
    assert op == [op[0]] + op[1..];
    RunWordThen(START, v, op[0]);
    OperatorStarts(v, op[0]);
    RunConcat(START, v + [op[0]], op[1..]);
    assert v + [op[0]] + op[1..] == v + op;
    if |op| == 1 {
      assert op == [op[0]];
    } else {
      assert op[..1] == [op[0]] && op[1..] == [op[1]];
      OperatorGoesOn(b, op);
      RunOne(b, op[1]);
    }
  }

  /** An operator of one or two characters between two words is read as that operator, the
      longest that fits, with no need for blanks. */
  lemma OperatorsAreRead(v: string, op: string, w: string)
    requires PlainWord(v) && PlainWord(w)
    requires op in {"&", "|", ";", "<", ">", "(", ")", "&&", "||", ";;", ">>", "<&", ">&", "<>", ">|"}
    ensures Lex(v + op + w) == Some([Word(v), Operator(op), Word(w)])
  {
    var b := START.(tokens := [Word(v)], current := InOperator(op));
    RunOperator(v, op);
    RunConcat(START, v + op, w);
    assert w[0] in w;
    NoLonger(op, w[0]);
    WordOperatorWord(v, op, b, w);
  }

  // Here-documents

  lemma {:induction false} PlainIsItself(d: string)
    requires forall c :: c in d ==> IsPlain(c)
    ensures Values(Unquote(Plain, d)) == d
  {
    if d != "" {
      assert d[0] in d && forall c :: c in d[1..] ==> c in d;
      PlainIsItself(d[1..]);
      assert Unquote(Plain, d) == [Unquoted(d[0])] + Unquote(Plain, d[1..]);
      assert d == [d[0]] + d[1..];
    }
  }

  function Tabs(n: nat): string { seq(n, _ => '\t') }

  /** A line of a here-document as it is compared with the delimiter. */
  function Compared(h: HereDoc, line: string): string { if h.stripTabs then DropTabs(line) else line }

  lemma {:induction false} TabsDropped(n: nat, d: string)
    requires d == "" || d[0] != '\t'
    ensures DropTabs(Tabs(n) + d) == d
  {
    if n == 0 {
      assert Tabs(n) + d == d;
    } else {
      assert (Tabs(n) + d)[1..] == Tabs(n - 1) + d;
      TabsDropped(n - 1, d);
    }
  }

  lemma {:induction false} RunBodyText(s: State, text: string)
    requires s.body.Some? && '\n' !in text
    ensures Run(s, text) == s.(body := Some(s.body.value + text))
    decreases |text|
  {
    if text == "" {
      assert s.body.value + text == s.body.value;
    } else {
      assert text[0] in text && forall c :: c in text[1..] ==> c in text;
      RunBodyText(s.(body := Some(s.body.value + [text[0]])), text[1..]);
      assert s.body.value + [text[0]] + text[1..] == s.body.value + text;
    }
  }

  lemma RunBodyLine(s: State, h: HereDoc, line: string)
    requires s.body == Some("") && s.pending == [h] && '\n' !in line
    ensures Run(s, line + "\n") == if Compared(h, line) == h.delimiter then s.(pending := [], body := None) else s
  {
    RunConcat(s, line, "\n");
    RunBodyText(s, line);
    assert "" + line == line;
    RunOne(s.(body := Some(line)), '\n');
    assert [h][1..] == [];
  }

  function Lines(lines: seq<string>): string {
    if lines == [] then "" else lines[0] + "\n" + Lines(lines[1..])
  }

  lemma {:induction false} RunBody(s: State, h: HereDoc, lines: seq<string>)
    requires s.body == Some("") && s.pending == [h]
    requires forall l :: l in lines ==> '\n' !in l && Compared(h, l) != h.delimiter
    ensures Run(s, Lines(lines)) == s
  {
    if lines != [] {
      RunConcat(s, lines[0] + "\n", Lines(lines[1..]));
      assert lines[0] in lines && forall l :: l in lines[1..] ==> l in lines;
      RunBodyLine(s, h, lines[0]);
      RunBody(s, h, lines[1..]);
    }
  }

  function Redirection(strip: bool): string { if strip then "<<-" else "<<" }

  lemma RunRedirection(v: string, strip: bool)
    requires PlainWord(v)
    ensures Run(START, v + " " + Redirection(strip)) == START.(tokens := [Word(v)], current := InOperator(Redirection(strip)))
  {
    var t := START.(tokens := [Word(v)]);
    RunWordBlank(START, v);
    assert [] + [Word(v)] == [Word(v)];
    RunConcat(START, v + " ", Redirection(strip));
    RunFirst(t, '<', Redirection(strip)[1..]);
    var t1 := t.(current := InOperator("<"));
    assert Step(t, '<') == t1;
    RunFirst(t1, '<', Redirection(strip)[2..]);
    var t2 := t.(current := InOperator("<<"));
    assert "<" + ['<'] == "<<" && Step(t1, '<') == t2;
    assert Redirection(strip) == ['<'] + (['<'] + Redirection(strip)[2..]);
    if strip {
      assert "<<" + ['-'] == "<<-";
      RunOne(t2, '-');
    }
  }

  /** The delimiter of a here-document is read, and the body to come is noted. */
  lemma RunDelimiter(v: string, strip: bool, d: string)
    requires PlainWord(v) && PlainWord(d) && (strip || d[0] != '-')
    ensures Run(START, v + " " + Redirection(strip) + d + "\n")
         == START.(tokens := [Word(v), Operator(Redirection(strip)), Word(d), Operator("\n")],
                   pending := [HereDoc(d, strip)], body := Some(""))
  {
    RunAnnounced(v, strip, d);
    RunConcat(START, v + " " + Redirection(strip) + d, "\n");
    RunOne(START.(tokens := [Word(v), Operator(Redirection(strip))], current := InWord(d)), '\n');
    DelimiterEnds(v, strip, d);
  }

  lemma RunAnnounced(v: string, strip: bool, d: string)
    requires PlainWord(v) && PlainWord(d) && (strip || d[0] != '-')
    ensures Run(START, v + " " + Redirection(strip) + d)
         == START.(tokens := [Word(v), Operator(Redirection(strip))], current := InWord(d))
  {
    var s1 := START.(tokens := [Word(v)], current := InOperator(Redirection(strip)));
    RunRedirection(v, strip);
    RunConcat(START, v + " " + Redirection(strip), d);
    assert d[0] in d;
    NoLonger(Redirection(strip), d[0]);
    RunWord(s1, d);
  }

  lemma DelimiterEnds(v: string, strip: bool, d: string)
    requires PlainWord(d)
    ensures Step(START.(tokens := [Word(v), Operator(Redirection(strip))], current := InWord(d)), '\n')
         == START.(tokens := [Word(v), Operator(Redirection(strip)), Word(d), Operator("\n")],
                   pending := [HereDoc(d, strip)], body := Some(""))
  {
    PlainIsItself(d);
    assert Redirection(false) != Redirection(true);
    assert [] + [HereDoc(d, strip)] == [HereDoc(d, strip)];
  }

  /** The lines of a here-document are no part of the command, whatever they hold: reading goes
      on after the first line that is the delimiter, for <<- without its leading tabs. */
  lemma HereDocumentsAreSkipped(v: string, strip: bool, d: string, lines: seq<string>, n: nat, w: string)
    requires PlainWord(v) && PlainWord(d) && PlainWord(w) && (strip || d[0] != '-') && (n > 0 ==> strip)
    requires forall l :: l in lines ==> '\n' !in l && (if strip then DropTabs(l) else l) != d
    ensures Lex(v + " " + Redirection(strip) + d + "\n" + Lines(lines) + (Tabs(n) + d + "\n") + w)
         == Some([Word(v), Operator(Redirection(strip)), Word(d), Operator("\n"), Word(w)])
  {
    var h := HereDoc(d, strip);
    var head := v + " " + Redirection(strip) + d + "\n";
    var tail := Tabs(n) + d + "\n";
    var s3 := Run(START, head);
    RunDelimiter(v, strip, d);
    RunConcat(START, head, Lines(lines));
    RunConcat(START, head + Lines(lines), tail);
    RunDocument(s3, h, lines, n, d);
    RunConcat(START, head + Lines(lines) + tail, w);
    var s5 := s3.(pending := [], body := None);
    RunLastWord(s5, w);
    assert s5.tokens + [Word(w)] == [Word(v), Operator(Redirection(strip)), Word(d), Operator("\n"), Word(w)];
  }

  lemma RunDocument(s: State, h: HereDoc, lines: seq<string>, n: nat, d: string)
    requires s.body == Some("") && s.pending == [h] && h.delimiter == d && PlainWord(d) && (n > 0 ==> h.stripTabs)
    requires forall l :: l in lines ==> '\n' !in l && Compared(h, l) != d
    ensures Run(Run(s, Lines(lines)), Tabs(n) + d + "\n") == s.(pending := [], body := None)
  {
    RunBody(s, h, lines);
    DelimiterIsFound(h, n, d);
    RunBodyLine(s, h, Tabs(n) + d);
  }

  lemma RunLastWord(s: State, w: string)
    requires PlainWord(w) && Idle(s) && s.current.Nothing? && NoHere(s)
    ensures AtRest(Run(s, w)) && Delimit(Run(s, w)).tokens == s.tokens + [Word(w)]
  {
    RunWord(s, w);
  }

  lemma DelimiterIsFound(h: HereDoc, n: nat, d: string)
    requires PlainWord(d) && (n > 0 ==> h.stripTabs)
    ensures Compared(h, Tabs(n) + d) == d && '\n' !in Tabs(n) + d
  {
    assert d[0] in d;
    TabsDropped(n, d);
    if n == 0 {
      assert Tabs(n) + d == d;
    }
  }

  // Quotes and expansions

  /** A character that opens and closes nothing, and those that do neither in double quotes. */
  predicate Inert(c: char) { c !in {'\\', '\'', '"', '`', '$', '(', ')', '{', '}'} }

  predicate InertIn(x: Context, c: char) { if x == Double then c !in {'\\', '"', '`', '$'} else Inert(c) }

  lemma {:induction false} RunInert(s: State, x: Context, text: string)
    requires s.open != [] && s.open[|s.open| - 1] == x
    requires s.current.InWord? && s.body.None? && !s.comment && !s.escape && !s.dollar
    requires forall c :: c in text ==> InertIn(x, c)
    ensures Run(s, text) == s.(current := InWord(s.current.raw + text))
    decreases |text|
  {
    if text == "" {
      assert s.current.raw + text == s.current.raw;
    } else {
      var t := s.(current := InWord(s.current.raw + [text[0]]));
      assert text[0] in text && forall c :: c in text[1..] ==> c in text;
      assert Step(s, text[0]) == t;
      RunInert(t, x, text[1..]);
      assert s.current.raw + [text[0]] + text[1..] == s.current.raw + text;
    }
  }

  function Opening(x: Context): string {
    match x
    case Single => "'"
    case Double => "\""
    case Back => "`"
    case Paren => "$("
    case Brace => "${"
  }

  function Closing(x: Context): char {
    match x
    case Single => '\''
    case Double => '"'
    case Back => '`'
    case Paren => ')'
    case Brace => '}'
  }

  lemma RunOpening(x: Context)
    ensures Run(START, Opening(x)) == START.(open := [x], current := InWord(Opening(x)))
  {
    assert [] + [x] == [x];
    if x.Paren? || x.Brace? {
      var t := START.(dollar := true, current := InWord("$"));
      assert Step(START, '$') == t;
      RunFirst(START, '$', Opening(x)[1..]);
      assert Opening(x) == ['$'] + Opening(x)[1..];
      RunOne(t, Opening(x)[1]);
      assert Opening(x)[1..] == [Opening(x)[1]];
    } else {
      RunOne(START, Opening(x)[0]);
      assert Opening(x) == [Opening(x)[0]];
    }
  }

  lemma CloseIt(x: Context, s: State, outer: seq<Context>)
    requires s.open == outer + [x] && s.current.InWord? && s.body.None? && !s.comment && !s.escape && !s.dollar
    ensures Step(s, Closing(x)) == s.(open := outer, current := InWord(s.current.raw + [Closing(x)]))
  {
    assert s.open[..|s.open| - 1] == outer;
  }

  /** Quotes, command substitutions and parameter expansions are part of one word, blanks,
      newlines, operators and comment signs in them included. */
  lemma GroupsKeepTogether(x: Context, text: string)
    requires forall c :: c in text ==> InertIn(x, c)
    ensures Lex(Opening(x) + text + [Closing(x)]) == Some([Word(Opening(x) + text + [Closing(x)])])
  {
    var q := START.(open := [x], current := InWord(Opening(x)));
    var r := q.(current := InWord(Opening(x) + text));
    RunOpening(x);
    RunConcat(START, Opening(x), text);
    RunInert(q, x, text);
    RunConcat(START, Opening(x) + text, [Closing(x)]);
    RunOne(r, Closing(x));
    assert [] + [x] == [x];
    CloseIt(x, r, []);
    var whole := Opening(x) + text + [Closing(x)];
    WordIsDelimited(START, whole);
    assert [] + [Word(whole)] == [Word(whole)];
  }

  /** What opens a group within an expansion: double quotes, or in a command substitution a
      parenthesis of its own. */
  predicate Nests(x: Context, y: Context) { (y.Double? && (x.Paren? || x.Brace?)) || (x.Paren? && y.Paren?) }

  function Inner(y: Context): char { if y.Double? then '"' else '(' }

  lemma OpenInner(x: Context, y: Context, raw: string)
    requires Nests(x, y)
    ensures Step(START.(open := [x], current := InWord(raw)), Inner(y))
         == START.(open := [x, y], current := InWord(raw + [Inner(y)]))
  {
    assert [x] + [y] == [x, y];
  }

  lemma RunInnerText(x: Context, y: Context, raw: string, text: string)
    requires forall c :: c in text ==> InertIn(y, c)
    ensures Run(START.(open := [x, y], current := InWord(raw)), text + [Closing(y)])
         == START.(open := [x], current := InWord(raw + text + [Closing(y)]))
  {
    var r := START.(open := [x, y], current := InWord(raw));
    RunConcat(r, text, [Closing(y)]);
    RunInert(r, y, text);
    var t := r.(current := InWord(raw + text));
    RunOne(t, Closing(y));
    assert [x] + [y] == [x, y];
    CloseIt(y, t, [x]);
  }

  lemma Regroup(raw: string, first: char, text: string, last: char)
    ensures raw + [first] + text + [last] == raw + ([first] + (text + [last]))
  {
  }

  lemma RunInner(x: Context, y: Context, raw: string, text: string)
    requires Nests(x, y) && forall c :: c in text ==> InertIn(y, c)
    ensures var inner := [Inner(y)] + (text + [Closing(y)]);
            Run(START.(open := [x], current := InWord(raw)), inner) == START.(open := [x], current := InWord(raw + inner))
  {
    RunFirst(START.(open := [x], current := InWord(raw)), Inner(y), text + [Closing(y)]);
    OpenInner(x, y, raw);
    RunInnerText(x, y, raw + [Inner(y)], text);
    Regroup(raw, Inner(y), text, Closing(y));
  }

  lemma RunNested(x: Context, y: Context, text: string)
    requires Nests(x, y) && forall c :: c in text ==> InertIn(y, c)
    ensures var inner := [Inner(y)] + (text + [Closing(y)]);
            Run(START, Opening(x) + inner) == START.(open := [x], current := InWord(Opening(x) + inner))
  {
    RunOpening(x);
    RunConcat(START, Opening(x), [Inner(y)] + (text + [Closing(y)]));
    RunInner(x, y, Opening(x), text);
  }

  /** Within an expansion double quotes and, in a command substitution, parentheses keep what is
      between them together: the expansion does not end there. */
  lemma GroupsNest(x: Context, y: Context, text: string)
    requires Nests(x, y) && forall c :: c in text ==> InertIn(y, c)
    ensures var whole := Opening(x) + ([if y.Double? then '"' else '('] + (text + [Closing(y)])) + [Closing(x)];
            Lex(whole) == Some([Word(whole)])
  {
    var inner := [Inner(y)] + (text + [Closing(y)]);
    var r := START.(open := [x], current := InWord(Opening(x) + inner));
    RunNested(x, y, text);
    RunConcat(START, Opening(x) + inner, [Closing(x)]);
    RunOne(r, Closing(x));
    assert [] + [x] == [x];
    CloseIt(x, r, []);
    var whole := Opening(x) + inner + [Closing(x)];
    WordIsDelimited(START, whole);
    assert [] + [Word(whole)] == [Word(whole)];
  }

  /** Quote removal after a backslash: outside quotes it quotes any character, in double quotes
      only those that are special there. */
  lemma BackslashQuotes(c: char)
    ensures Unquote(Plain, ['\\', c]) == [Quoted(c)]
    ensures Unquote(Plain, ['"', '\\', c, '"'])
         == if c in {'$', '`', '"', '\\'} then [Quoted(c)] else [Quoted('\\'), Quoted(c)]
  {
    assert ['\\', c][1..] == [c] && [c][1..] == [];
    var s := ['"', '\\', c, '"'];
    assert s[1..] == ['\\', c, '"'] && s[1..][1..] == [c, '"'] && s[1..][1..][1..] == ['"'] && s[1..][1..][1..][1..] == [];
    assert Unquote(Plain, s) == Unquote(InDouble, s[1..]);
    assert Unquote(InDouble, s[1..]) == Unquote(EscapedInDouble, s[1..][1..]);
    assert Unquote(InDouble, ['"']) == Unquote(Plain, []);
  }

  /** A backslash makes the next character part of the word, whatever it is, and joins two lines
      into one. */
  lemma BackslashKeeps(c: char)
    requires c != '\n'
    ensures Lex(['\\', c]) == Some([Word(['\\', c])])
  {
    var t := START.(escape := true);
    assert ['\\', c] == ['\\'] + [c];
    assert Step(START, '\\') == t;
    RunFirst(START, '\\', [c]);
    RunOne(t, c);
    WordIsDelimited(START, ['\\', c]);
    assert [] + [Word(['\\', c])] == [Word(['\\', c])];
  }

  lemma BackslashJoinsLines(v: string, w: string)
    requires PlainWord(v) && forall c :: c in w ==> IsPlain(c)
    ensures Lex(v + "\\\n" + w) == Some([Word(v + w)])
  {
    var t := START.(current := InWord(v));
    RunWord(START, v);
    RunConcat(START, v, "\\\n");
    RunFirst(t, '\\', "\n");
    assert "\\\n" == ['\\'] + "\n";
    assert Step(t, '\\') == t.(escape := true);
    RunOne(t.(escape := true), '\n');
    RunConcat(START, v + "\\\n", w);
    RunWithin(t, w);
    WordIsDelimited(START, v + w);
    assert [] + [Word(v + w)] == [Word(v + w)];
  }
}
