/** Token recognition of the shell command language, after sections 2.2 and 2.3 of the
    POSIX.1-2017 Shell Command Language: one character at a time, tokens kept as raw text.
    Quote removal (section 2.6.7) is a separate pass over one word. */
module Shell {

  import opened Text

  /** What is open around the current character, innermost last. */
  datatype Context = Single | Double | Paren | Brace | Back

  datatype Token = Word(raw: string) | Operator(text: string)

  datatype Current = Nothing | InWord(raw: string) | InOperator(text: string)

  datatype HereDoc = HereDoc(delimiter: string, stripTabs: bool)

  datatype State = State(
    open: seq<Context>,
    escape: bool,            // a backslash waits for its character
    dollar: bool,            // the previous character was an unescaped $
    comment: bool,
    body: Option<string>,    // the current line of a here-document
    pending: seq<HereDoc>,   // here-documents whose bodies have not been read
    current: Current,
    tokens: seq<Token>)

  const START := State([], false, false, false, None, [], Nothing, [])

  predicate IsBlank(c: char) { c == ' ' || c == '\t' }

  predicate StartsOperator(c: char) { c in {'&', '|', ';', '<', '>', '(', ')'} }

  predicate IsOperator(s: string) {
    || s in {"&", "|", ";", "<", ">", "(", ")", "&&", "||", ";;"}
    || s in {"<<", ">>", "<&", ">&", "<>", ">|", "<<-"}
  }

  // Quote removal

  /** A character of a word after quote removal: only an unquoted one can still be expanded,
      split on, matched as a pattern or read as part of a reserved word. */
  datatype Character = Quoted(c: char) | Unquoted(c: char)

  datatype Mode = Plain | InSingle | InDouble | Escaped | EscapedInDouble

  function Unquote(mode: Mode, raw: string): seq<Character>
    decreases |raw|
  {
    if raw == "" then []
    else
      var c, rest := raw[0], raw[1..];
      match mode
      case Plain =>
        if c == '\'' then Unquote(InSingle, rest)
        else if c == '"' then Unquote(InDouble, rest)
        else if c == '\\' then Unquote(Escaped, rest)
        else [Unquoted(c)] + Unquote(Plain, rest)
      case InSingle =>
        if c == '\'' then Unquote(Plain, rest) else [Quoted(c)] + Unquote(InSingle, rest)
      case InDouble =>
        if c == '"' then Unquote(Plain, rest)
        else if c == '\\' then Unquote(EscapedInDouble, rest)
        else if c == '$' || c == '`' then [Unquoted(c)] + Unquote(InDouble, rest)
        else [Quoted(c)] + Unquote(InDouble, rest)
      case Escaped => [Quoted(c)] + Unquote(Plain, rest)
      case EscapedInDouble =>
        (if c in {'$', '`', '"', '\\'} then [Quoted(c)] else [Quoted('\\'), Quoted(c)])
        + Unquote(InDouble, rest)
  }

  function Values(cs: seq<Character>): string {
    if cs == [] then "" else [cs[0].c] + Values(cs[1..])
  }

  /** The word that is exactly this text, every character of it literal. */
  function AllQuoted(text: string): seq<Character> {
    if text == "" then [] else [Quoted(text[0])] + AllQuoted(text[1..])
  }

  // Token recognition

  /** The word following << or <<- names the end of a here-document. */
  function Announced(tokens: seq<Token>, raw: string): seq<HereDoc> {
    if tokens != [] && tokens[|tokens| - 1] in {Operator("<<"), Operator("<<-")}
    then [HereDoc(Values(Unquote(Plain, raw)), tokens[|tokens| - 1] == Operator("<<-"))]
    else []
  }

  /** The current token is delimited. */
  function Delimit(s: State): State {
    match s.current
    case Nothing => s
    case InOperator(o) => s.(current := Nothing, tokens := s.tokens + [Operator(o)])
    case InWord(w) =>
      s.(current := Nothing, pending := s.pending + Announced(s.tokens, w), tokens := s.tokens + [Word(w)])
  }

  function Append(s: State, text: string): State {
    match s.current
    case Nothing => s.(current := InWord(text))
    case InWord(w) => s.(current := InWord(w + text))
    case InOperator(_) => Delimit(s).(current := InWord(text))
  }

  function Open(s: State, x: Context): State { s.(open := s.open + [x]) }

  function Close(s: State): State
    requires s.open != []
  {
    s.(open := s.open[..|s.open| - 1])
  }

  function NewLine(s: State): State {
    var t := Delimit(s);
    t.(comment := false, tokens := t.tokens + [Operator("\n")],
       body := if t.pending == [] then None else Some(""))
  }

  function DropTabs(line: string): string {
    if line != "" && line[0] == '\t' then DropTabs(line[1..]) else line
  }

  function StepBody(s: State, c: char): State
    requires s.body.Some?
  {
    if c != '\n' then s.(body := Some(s.body.value + [c]))
    else if s.pending == [] then s.(body := None)
    else
      var line := if s.pending[0].stripTabs then DropTabs(s.body.value) else s.body.value;
      var rest := if line == s.pending[0].delimiter then s.pending[1..] else s.pending;
      s.(pending := rest, body := if rest == [] then None else Some(""))
  }

  predicate ContinuesOperator(s: State, c: char) { s.current.InOperator? && IsOperator(s.current.text + [c]) }

  function StepOperator(s: State, c: char): State {
    if ContinuesOperator(s, c)
    then s.(current := InOperator(s.current.text + [c]))
    else Delimit(s).(current := InOperator([c]))
  }

  /** Outside every quote and expansion; `afterDollar` says the previous character was $. */
  function StepPlain(s: State, c: char, afterDollar: bool): State {
    if c == '\\' then s.(escape := true)
    else if c == '\'' then Open(Append(s, [c]), Single)
    else if c == '"' then Open(Append(s, [c]), Double)
    else if c == '`' then Open(Append(s, [c]), Back)
    else if c == '$' then Append(s, [c]).(dollar := true)
    else if c == '(' && afterDollar then Open(Append(s, [c]), Paren)
    else if c == '{' && afterDollar then Open(Append(s, [c]), Brace)
    else if c == '\n' then NewLine(s)
    else if IsBlank(c) then Delimit(s)
    else if StartsOperator(c) || ContinuesOperator(s, c) then StepOperator(s, c)
    else if c == '#' && !s.current.InWord? then Delimit(s).(comment := true)
    else Append(s, [c])
  }

  /** A single quote means nothing in ${...} when that stands in double quotes. */
  predicate DoubleAround(open: seq<Context>) {
    open != [] && (open[|open| - 1] == Double || (open[|open| - 1] == Brace && DoubleAround(open[..|open| - 1])))
  }

  /** Inside quotes or an expansion: every character joins the word, some open or close. */
  function StepInside(s: State, c: char, afterDollar: bool): State
    requires s.open != []
  {
    var top, t := s.open[|s.open| - 1], Append(s, [c]);
    match top
    case Single => if c == '\'' then Close(t) else t
    case Back => if c == '\\' then s.(escape := true) else if c == '`' then Close(t) else t
    case _ =>
      if c == '\\' then s.(escape := true)
      else if c == '"' then if top == Double then Close(t) else Open(t, Double)
      else if c == '\'' && !DoubleAround(s.open) then Open(t, Single)
      else if c == '`' then Open(t, Back)
      else if c == '$' then t.(dollar := true)
      else if c == '(' && (afterDollar || top == Paren) then Open(t, Paren)
      else if c == '{' && afterDollar then Open(t, Brace)
      else if (c == ')' && top == Paren) || (c == '}' && top == Brace) then Close(t)
      else t
  }

  function Step(s: State, c: char): State {
    if s.body.Some? then StepBody(s, c)
    else if s.comment then if c == '\n' then NewLine(s) else s
    else if s.escape then if c == '\n' then s.(escape := false) else Append(s.(escape := false), ['\\', c])
    else
      var t := s.(dollar := false);
      if s.open == [] then StepPlain(t, c, s.dollar) else StepInside(t, c, s.dollar)
  }

  function Run(s: State, text: string): State
    decreases |text|
  {
    if text == "" then s else Run(Step(s, text[0]), text[1..])
  }

  /** Nothing is left open: no quote, expansion, backslash or here-document body. */
  predicate AtRest(s: State) { s.open == [] && !s.escape && s.body.None? }

  predicate EndsInComment(text: string) { Run(START, text).comment }

  /** The tokens of a complete command line. */
  function Lex(text: string): Option<seq<Token>> {
    var s := Run(START, text);
    if AtRest(s) then Some(Delimit(s).tokens) else None
  }

  lemma {:induction false} RunConcat(s: State, a: string, b: string)
    ensures Run(s, a + b) == Run(Run(s, a), b)
    decreases |a|
  {
    if a == "" {
      assert a + b == b;
    } else {
      assert (a + b)[1..] == a[1..] + b;
      RunConcat(Step(s, a[0]), a[1..], b);
    }
  }

  lemma RunOne(s: State, c: char)
    ensures Run(s, [c]) == Step(s, c)
  {
    assert [c][1..] == "";
  }

  lemma RunFirst(s: State, c: char, rest: string)
    ensures Run(s, [c] + rest) == Run(Step(s, c), rest)
  {
    assert ([c] + rest)[1..] == rest;
  }

  // Plain words

  /** A character that means nothing to the scanner within a word. */
  predicate IsPlain(c: char) {
    !IsBlank(c) && c != '\n' && !StartsOperator(c) && c !in {'\\', '\'', '"', '`', '$'}
  }

  predicate PlainWord(w: string) {
    w != "" && w[0] != '#' && forall c :: c in w ==> IsPlain(c)
  }

  ghost predicate Idle(s: State) { AtRest(s) && !s.comment && !s.dollar }

  lemma {:induction false} RunWithin(s: State, w: string)
    requires Idle(s) && s.current.InWord? && forall c :: c in w ==> IsPlain(c)
    ensures Run(s, w) == s.(current := InWord(s.current.raw + w))
    decreases |w|
  {
    if w == "" {
      assert s.current.raw + w == s.current.raw;
    } else {
      var t := s.(current := InWord(s.current.raw + [w[0]]));
      assert w[0] in w && Step(s, w[0]) == t;
      assert forall c :: c in w[1..] ==> c in w;
      RunWithin(t, w[1..]);
      assert s.current.raw + [w[0]] + w[1..] == s.current.raw + w;
    }
  }

  lemma RunWord(s: State, w: string)
    requires Idle(s) && !s.current.InWord? && PlainWord(w) && !ContinuesOperator(s, w[0])
    ensures Run(s, w) == Delimit(s).(current := InWord(w))
  {
    var t := Delimit(s).(current := InWord([w[0]]));
    assert w[0] in w && Step(s, w[0]) == t;
    assert forall c :: c in w[1..] ==> c in w;
    RunWithin(t, w[1..]);
    assert [w[0]] + w[1..] == w;
  }

  function WordsOf(words: seq<string>): seq<Token> {
    if words == [] then [] else [Word(words[0])] + WordsOf(words[1..])
  }

  /** No here-document is announced or pending. */
  ghost predicate NoHere(s: State) {
    s.pending == [] && (s.tokens == [] || s.tokens[|s.tokens| - 1] !in {Operator("<<"), Operator("<<-")})
  }

  lemma RunWordThen(s: State, w: string, c: char)
    requires Idle(s) && s.current.Nothing? && PlainWord(w)
    ensures Run(s, w + [c]) == Step(s.(current := InWord(w)), c)
  {
    RunWord(s, w);
    RunConcat(s, w, [c]);
    RunOne(s.(current := InWord(w)), c);
  }

  lemma RunWordBlank(s: State, w: string)
    requires Idle(s) && s.current.Nothing? && NoHere(s) && PlainWord(w)
    ensures Run(s, w + [' ']) == s.(tokens := s.tokens + [Word(w)])
  {
    RunWordThen(s, w, ' ');
    WordIsDelimited(s, w);
  }

  lemma WordIsDelimited(s: State, w: string)
    requires Idle(s) && s.current.Nothing? && NoHere(s)
    ensures Delimit(s.(current := InWord(w))) == s.(tokens := s.tokens + [Word(w)])
    ensures Step(s.(current := InWord(w)), ' ') == s.(tokens := s.tokens + [Word(w)])
  {
    assert s.pending + [] == s.pending;
  }

  /** Plain words with blanks between them are read as these words. */
  lemma {:induction false} RunWords(s: State, words: seq<string>)
    requires Idle(s) && s.current.Nothing? && NoHere(s) && words != []
    requires forall w :: w in words ==> PlainWord(w)
    ensures var r := Run(s, Join(words, ' ')); Idle(r) && Delimit(r).tokens == s.tokens + WordsOf(words)
    decreases |words|
  {
    var w := words[0];
    if |words| == 1 {
      RunWord(s, w);
      assert WordsOf(words) == [Word(w)];
    } else {
      var t := s.(tokens := s.tokens + [Word(w)]);
      var rest := Join(words[1..], ' ');
      RunWordBlank(s, w);
      RunConcat(s, w + [' '], rest);
      RunWords(t, words[1..]);
      WordsRegroup(s.tokens, w, words);
    }
  }

  lemma WordsRegroup(tokens: seq<Token>, w: string, words: seq<string>)
    requires words != [] && words[0] == w
    ensures tokens + [Word(w)] + WordsOf(words[1..]) == tokens + WordsOf(words)
  {
  }

  lemma PlainWordsAreRead(words: seq<string>)
    requires words != [] && forall w :: w in words ==> PlainWord(w)
    ensures Lex(Join(words, ' ')) == Some(WordsOf(words))
  {
    RunWords(START, words);
    assert [] + WordsOf(words) == WordsOf(words);
  }

  /** After a word the operator delimits it, and the word after the operator delimits that. */
  lemma WordOperatorWord(v: string, op: string, s: State, w: string)
    requires PlainWord(w) && Idle(s) && !s.current.InWord? && NoHere(Delimit(s)) && !ContinuesOperator(s, w[0])
    requires Delimit(s).tokens == [Word(v), Operator(op)]
    ensures var r := Run(s, w); AtRest(r) && Delimit(r).tokens == [Word(v), Operator(op), Word(w)]
  {
    RunWord(s, w);
  }

  lemma NewLineStep(v: string)
    ensures Step(START.(current := InWord(v)), '\n') == START.(tokens := [Word(v), Operator("\n")])
  {
    WordIsDelimited(START, v);
    assert [] + [Word(v)] + [Operator("\n")] == [Word(v), Operator("\n")];
  }

  /** A plain character continues no operator but <<. */
  lemma NoLonger(op: string, c: char)
    requires IsPlain(c) && (op != "<<" || c != '-')
    ensures !IsOperator(op + [c])
  {
    var longer := op + [c];
    assert longer[|longer| - 1] == c && longer[..|longer| - 1] == op;
    assert IsOperator(longer) ==> longer == "<<-" by {
      assert !StartsOperator(c);
    }
    assert ("<<-")[..2] == "<<";
  }

  /** A newline ends a command and is a token of its own. */
  lemma NewLinesSeparate(v: string, w: string)
    requires PlainWord(v) && PlainWord(w)
    ensures Lex(v + ['\n'] + w) == Some([Word(v), Operator("\n"), Word(w)])
  {
    RunWordThen(START, v, '\n');
    NewLineStep(v);
    RunConcat(START, v + ['\n'], w);
    WordOperatorWord(v, "\n", START.(tokens := [Word(v), Operator("\n")]), w);
  }

  /** A # that starts a word hides the rest of the line; within a word it is a plain
      character. */
  lemma CommentsAreSkipped(v: string, text: string)
    requires PlainWord(v) && '\n' !in text
    ensures Lex(v + [' '] + (['#'] + text)) == Some([Word(v)])
  {
    var t := START.(tokens := [Word(v)]);
    RunWordBlank(START, v);
    assert [] + [Word(v)] == [Word(v)];
    RunConcat(START, v + [' '], ['#'] + text);
    RunFirst(t, '#', text);
    assert Step(t, '#') == t.(comment := true);
    SkipComment(t.(comment := true), text);
  }

  lemma {:induction false} SkipComment(s: State, text: string)
    requires s.comment && s.body.None? && '\n' !in text
    ensures Run(s, text) == s
    decreases |text|
  {
    if text != "" {
      assert text[0] in text && forall c :: c in text[1..] ==> c in text;
      SkipComment(s, text[1..]);
    }
  }

  /** Between single quotes nothing is special, so a quoted text is one word. */
  lemma QuotesKeepTogether(text: string)
    requires '\'' !in text
    ensures Lex(['\''] + (text + ['\''])) == Some([Word(['\''] + (text + ['\'']))])
  {
    var q := START.(open := [Single], current := InWord(['\'']));
    var r := q.(current := InWord(['\''] + text));
    RunFirst(START, '\'', text + ['\'']);
    assert Step(START, '\'') == q by { assert [] + [Single] == [Single]; }
    RunConcat(q, text, ['\'']);
    RunQuoted(q, text);
    RunOne(r, '\'');
    CloseQuote(r);
    assert ['\''] + text + ['\''] == ['\''] + (text + ['\'']);
    var whole := ['\''] + (text + ['\'']);
    WordIsDelimited(START, whole);
    assert [] + [Word(whole)] == [Word(whole)];
  }

  lemma CloseQuote(s: State)
    requires s.open == [Single] && s.current.InWord? && s.body.None? && !s.comment && !s.escape && !s.dollar
    ensures Step(s, '\'') == s.(open := [], current := InWord(s.current.raw + ['\'']))
  {
    assert s.open[..|s.open| - 1] == [];
  }

  lemma {:induction false} RunQuoted(s: State, text: string)
    requires s.open == [Single] && s.current.InWord? && s.body.None? && !s.comment && !s.escape && !s.dollar
    requires '\'' !in text
    ensures Run(s, text) == s.(current := InWord(s.current.raw + text))
    decreases |text|
  {
    if text == "" {
      assert s.current.raw + text == s.current.raw;
    } else {
      var t := s.(current := InWord(s.current.raw + [text[0]]));
      assert text[0] in text && forall c :: c in text[1..] ==> c in text;
      assert Step(s, text[0]) == t;
      RunQuoted(t, text[1..]);
      assert s.current.raw + [text[0]] + text[1..] == s.current.raw + text;
    }
  }
}
