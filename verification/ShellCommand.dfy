/** Commands for a sandbox are sent as one shell line: the command text as given, then every
    argument in single quotes. Host and guest agent each build that line themselves. */
module ShellCommand {

  import opened Text
  import opened Shell

  datatype Options = Options(command: string, args: seq<string>, mode: string)

  datatype Error = UnsupportedMode(mode: string) | ArgvRequiresCommand

  datatype Result<+T> = Ok(value: T) | Err(error: Error)

  datatype ExecMode = ShellMode | ArgvMode

  const HOST_SHELL := "sh"
  const GUEST_SHELL := "/bin/sh"

  /** `strings.ReplaceAll` of one character. */
  function ReplaceAll(s: string, c: char, replacement: string): string {
    if s == "" then "" else (if s[0] == c then replacement else [s[0]]) + ReplaceAll(s[1..], c, replacement)
  }

  const CLOSE_QUOTE_OPEN := "'\"'\"'"

  function QuoteArg(s: string): string { "'" + ReplaceAll(s, '\'', CLOSE_QUOTE_OPEN) + "'" }

  function Tail(args: seq<string>): string {
    if args == [] then "" else " " + QuoteArg(args[0]) + Tail(args[1..])
  }

  function Line(command: string, args: seq<string>): string { command + Tail(args) }

  function NormalizeExecMode(mode: string): Result<ExecMode> {
    var t := TrimSpace(mode);
    if t == "" || t == "shell" then Ok(ShellMode)
    else if t == "argv" then Ok(ArgvMode)
    else Err(UnsupportedMode(mode))
  }

  function Arguments(shell: string, options: Options): Result<seq<string>> {
    match NormalizeExecMode(options.mode)
    case Err(e) => Err(e)
    case Ok(ArgvMode) =>
      if TrimSpace(options.command) == "" then Err(ArgvRequiresCommand)
      else Ok([options.command] + options.args)
    case Ok(ShellMode) => Ok([shell, "-c", Line(options.command, options.args)])
  }

  lemma {:induction false} TailConcat(a: seq<string>, b: seq<string>)
    ensures Tail(a + b) == Tail(a) + Tail(b)
  {
    if a == [] {
      assert a + b == b;
    } else {
      assert (a + b)[1..] == a[1..] + b;
      TailConcat(a[1..], b);
    }
  }

  lemma LineGrows(command: string, args: seq<string>, i: nat)
    requires i < |args|
    ensures Line(command, args[..i + 1]) == Line(command, args[..i]) + " " + QuoteArg(args[i])
  {
    assert args[..i + 1] == args[..i] + [args[i]];
    TailConcat(args[..i], [args[i]]);
    assert [args[i]][1..] == [];
    assert Tail([args[i]]) == " " + QuoteArg(args[i]);
  }

  // Quote removal gives the argument back

  lemma {:induction false} UnquoteQuoted(s: string)
    ensures Unquote(InSingle, ReplaceAll(s, '\'', CLOSE_QUOTE_OPEN) + "'") == AllQuoted(s)
  {
    if s == "" {
      assert ("'")[1..] == "";
    } else {
      var rest := ReplaceAll(s[1..], '\'', CLOSE_QUOTE_OPEN) + "'";
      UnquoteQuoted(s[1..]);
      if s[0] == '\'' {
        assert ReplaceAll(s, '\'', CLOSE_QUOTE_OPEN) + "'" == CLOSE_QUOTE_OPEN + rest;
        UnquoteEmbedded(rest);
      } else {
        assert ReplaceAll(s, '\'', CLOSE_QUOTE_OPEN) + "'" == [s[0]] + rest;
        assert ([s[0]] + rest)[1..] == rest;
      }
    }
  }

  /** Leaving the quotes, a quote in double quotes, and back in. */
  lemma UnquoteEmbedded(rest: string)
    ensures Unquote(InSingle, CLOSE_QUOTE_OPEN + rest) == [Quoted('\'')] + Unquote(InSingle, rest)
  {
    var t := CLOSE_QUOTE_OPEN + rest;
    assert t[1..][1..] == "'\"'" + rest;
    assert t[1..][1..][1..] == "\"'" + rest;
    assert t[1..][1..][1..][1..] == "'" + rest;
    assert t[1..][1..][1..][1..][1..] == rest;
    assert Unquote(InSingle, t) == Unquote(Plain, t[1..]);
    assert Unquote(Plain, t[1..]) == Unquote(InDouble, t[1..][1..]);
    assert Unquote(InDouble, t[1..][1..]) == [Quoted('\'')] + Unquote(InDouble, t[1..][1..][1..]);
    assert Unquote(InDouble, t[1..][1..][1..]) == Unquote(Plain, t[1..][1..][1..][1..]);
  }

  /** Quote removal turns a quoted argument into the argument itself, all of it literal. */
  lemma QuoteArgIsLiteral(s: string)
    ensures Unquote(Plain, QuoteArg(s)) == AllQuoted(s)
    ensures Values(AllQuoted(s)) == s
  {
    var body := ReplaceAll(s, '\'', CLOSE_QUOTE_OPEN) + "'";
    assert QuoteArg(s) == "'" + body;
    assert ("'" + body)[1..] == body;
    UnquoteQuoted(s);
    ValuesOfQuoted(s);
  }

  lemma {:induction false} ValuesOfQuoted(s: string)
    ensures Values(AllQuoted(s)) == s
  {
    if s != "" {
      ValuesOfQuoted(s[1..]);
      assert AllQuoted(s)[1..] == AllQuoted(s[1..]);
    }
  }

  // Token recognition of the built line

  function ArgumentWords(args: seq<string>): seq<Token> {
    if args == [] then [] else [Word(QuoteArg(args[0]))] + ArgumentWords(args[1..])
  }

  /** The scanner is inside the outermost single quotes of an argument. */
  predicate InQuotes(s: State) {
    && s.open == [Single] && s.current.InWord?
    && s.body.None? && !s.comment && !s.escape && !s.dollar
  }

  function Joined(s: State, text: string): State
    requires s.current.InWord?
  {
    s.(current := InWord(s.current.raw + text))
  }

  lemma JoinedTwice(s: State, a: string, b: string)
    requires s.current.InWord?
    ensures Joined(Joined(s, a), b) == Joined(s, a + b)
  {
    assert s.current.raw + a + b == s.current.raw + (a + b);
  }

  lemma EnterSingle(s: State)
    requires AtRest(s) && !s.comment
    ensures Step(s, '\'') == Append(s.(dollar := false), "'").(open := [Single])
  {
    assert s.open + [Single] == [Single];
  }

  lemma LeaveSingle(s: State)
    requires InQuotes(s)
    ensures Step(s, '\'') == Joined(s, "'").(open := [])
  {
    assert s.open[..|s.open| - 1] == [];
  }

  /** A quote in double quotes, between words or within one. */
  lemma QuoteInDouble(s: State, rest: string)
    requires AtRest(s) && !s.comment && !s.dollar && s.current.InWord?
    ensures Run(s, "\"'\"" + rest) == Run(Joined(s, "\"'\""), rest)
  {
    var a := Joined(s, "\"").(open := [Double]);
    var b := Joined(a, "'");
    assert Step(s, '"') == a by { assert s.open + [Double] == [Double]; }
    assert Step(a, '\'') == b;
    assert Step(b, '"') == Joined(b, "\"").(open := []) by { assert b.open[..0] == []; }
    assert s.current.raw + "\"" + "'" + "\"" == s.current.raw + "\"'\"";
    assert Joined(b, "\"").(open := []) == Joined(s, "\"'\"");
    RunFirst(s, '"', "'\"" + rest);
    RunFirst(a, '\'', "\"" + rest);
    RunFirst(b, '"', rest);
    assert "\"'\"" + rest == ['"'] + ("'\"" + rest);
    assert "'\"" + rest == ['\''] + ("\"" + rest);
    assert "\"" + rest == ['"'] + rest;
  }

  lemma EmbeddedRun(s: State)
    requires InQuotes(s)
    ensures Run(s, CLOSE_QUOTE_OPEN) == Joined(s, CLOSE_QUOTE_OPEN)
  {
    var a := Joined(s, "'").(open := []);
    var b := Joined(a, "\"'\"");
    LeaveSingle(s);
    assert CLOSE_QUOTE_OPEN == ['\''] + ("\"'\"" + "'");
    RunFirst(s, '\'', "\"'\"" + "'");
    QuoteInDouble(a, "'");
    RunOne(b, '\'');
    EnterSingle(b);
    JoinedTwice(s, "'", "\"'\"");
    JoinedTwice(s, "'\"'\"", "'");
    assert "'" + "\"'\"" == "'\"'\"";
    assert "'\"'\"" + "'" == CLOSE_QUOTE_OPEN;
    assert Append(b, "'") == Joined(b, "'");
    assert Joined(b, "'").(open := [Single]) == Joined(s, CLOSE_QUOTE_OPEN);
  }

  lemma {:induction false} QuotedRun(s: State, a: string)
    requires InQuotes(s)
    ensures Run(s, ReplaceAll(a, '\'', CLOSE_QUOTE_OPEN) + "'")
         == Joined(s, ReplaceAll(a, '\'', CLOSE_QUOTE_OPEN) + "'").(open := [])
    decreases |a|
  {
    if a == "" {
      RunOne(s, '\'');
      LeaveSingle(s);
      assert ReplaceAll(a, '\'', CLOSE_QUOTE_OPEN) + "'" == ['\''];
    } else {
      var head := if a[0] == '\'' then CLOSE_QUOTE_OPEN else [a[0]];
      var rest := ReplaceAll(a[1..], '\'', CLOSE_QUOTE_OPEN) + "'";
      var t := Joined(s, head);
      assert ReplaceAll(a, '\'', CLOSE_QUOTE_OPEN) + "'" == head + rest;
      RunConcat(s, head, rest);
      HeadRun(s, a[0]);
      QuotedRun(t, a[1..]);
      JoinedTwice(s, head, rest);
    }
  }

  lemma HeadRun(s: State, c: char)
    requires InQuotes(s)
    ensures var head := if c == '\'' then CLOSE_QUOTE_OPEN else [c]; Run(s, head) == Joined(s, head)
  {
    if c == '\'' {
      EmbeddedRun(s);
    } else {
      RunOne(s, c);
    }
  }

  lemma QuotedToken(t: State, a: string)
    requires AtRest(t) && !t.comment && !t.dollar && t.current.Nothing?
    ensures Run(t, QuoteArg(a)) == t.(current := InWord(QuoteArg(a)))
  {
    var body := ReplaceAll(a, '\'', CLOSE_QUOTE_OPEN) + "'";
    var u := t.(current := InWord("'"), open := [Single]);
    assert QuoteArg(a) == ['\''] + body;
    RunFirst(t, '\'', body);
    EnterSingle(t);
    assert Step(t, '\'') == u;
    QuotedRun(u, a);
    assert Joined(u, body).(open := []) == t.(current := InWord("'" + body));
  }

  /** The scanner is at rest outside a comment and has found these tokens. */
  predicate HasFound(s: State, tokens: seq<Token>) {
    AtRest(s) && !s.comment && Delimit(s).tokens == tokens
  }

  /** Reading `text` in state s finds these tokens more. */
  predicate Adds(s: State, text: string, words: seq<Token>) {
    HasFound(Run(s, text), Delimit(s).tokens + words)
  }

  lemma AppendTwice<T>(a: seq<T>, b: seq<T>, c: seq<T>)
    ensures a + b + c == a + (b + c)
  {
  }

  lemma AddsConcat(s: State, a: string, v: seq<Token>, b: string, w: seq<Token>)
    requires Adds(s, a, v) && Adds(Run(s, a), b, w)
    ensures Adds(s, a + b, v + w)
  {
    RunConcat(s, a, b);
    AppendTwice(Delimit(s).tokens, v, w);
  }

  lemma BlankStep(s: State)
    requires AtRest(s) && !s.comment
    ensures Step(s, ' ') == Delimit(s).(dollar := false)
  {
  }

  /** One argument after a command at rest: the token before it is delimited and the argument
      is a token of its own. */
  lemma ArgumentRun(s: State, a: string)
    requires AtRest(s) && !s.comment
    ensures Adds(s, " " + QuoteArg(a), [Word(QuoteArg(a))])
  {
    var t := Delimit(s).(dollar := false);
    BlankStep(s);
    RunFirst(s, ' ', QuoteArg(a));
    QuotedToken(t, a);
    WordAdds(s, " " + QuoteArg(a), t, QuoteArg(a));
  }

  lemma WordAdds(s: State, text: string, t: State, word: string)
    requires AtRest(s) && !s.comment && t == Delimit(s).(dollar := false)
    requires Run(s, text) == t.(current := InWord(word))
    ensures Adds(s, text, [Word(word)])
  {
  }

  /** Any list of quoted arguments adds exactly its words. */
  lemma {:induction false} TailRun(s: State, args: seq<string>)
    requires AtRest(s) && !s.comment
    ensures Adds(s, Tail(args), ArgumentWords(args))
    decreases |args|
  {
    if args == [] {
      assert Delimit(s).tokens + [] == Delimit(s).tokens;
    } else {
      ArgumentRun(s, args[0]);
      TailRun(Run(s, " " + QuoteArg(args[0])), args[1..]);
      FirstThenRest(s, args);
    }
  }

  lemma FirstThenRest(s: State, args: seq<string>)
    requires args != []
    requires var first, word := " " + QuoteArg(args[0]), Word(QuoteArg(args[0]));
             Adds(s, first, [word]) && Adds(Run(s, first), Tail(args[1..]), ArgumentWords(args[1..]))
    ensures Adds(s, Tail(args), ArgumentWords(args))
  {
    var first, word := " " + QuoteArg(args[0]), Word(QuoteArg(args[0]));
    AddsConcat(s, first, [word], Tail(args[1..]), ArgumentWords(args[1..]));
  }

  /** In a comment nothing is a token up to the newline that ends it. */
  lemma {:induction false} CommentRun(s: State, text: string)
    requires s.comment && s.current.Nothing? && s.body.None?
    ensures var r := Run(s, text); r == s || (s.tokens + [Operator("\n")]) <= r.tokens
    decreases |text|
  {
    if text != "" {
      if text[0] == '\n' {
        TokensGrow(NewLine(s), text[1..]);
      } else {
        CommentRun(s, text[1..]);
      }
    }
  }

  lemma DelimitGrows(s: State, c: char)
    ensures s.tokens <= Delimit(s).tokens && s.tokens <= NewLine(s).tokens
    ensures s.tokens <= StepOperator(s, c).tokens && s.tokens <= Append(s, [c]).tokens
  {
  }

  lemma StepPlainGrows(s: State, c: char, afterDollar: bool)
    ensures s.tokens <= StepPlain(s, c, afterDollar).tokens
  {
    DelimitGrows(s, c);
    StepPlainTokens(s, c, afterDollar);
  }

  predicate Opens(c: char, afterDollar: bool) {
    c in {'\\', '\'', '"', '`', '$'} || (afterDollar && c in {'(', '{'})
  }

  lemma OpeningTokens(s: State, c: char, afterDollar: bool)
    requires Opens(c, afterDollar)
    ensures var t := StepPlain(s, c, afterDollar).tokens; t == s.tokens || t == Append(s, [c]).tokens
  {
  }

  lemma StepPlainTokens(s: State, c: char, afterDollar: bool)
    ensures var t := StepPlain(s, c, afterDollar).tokens;
            || t == s.tokens || t == Append(s, [c]).tokens || t == Delimit(s).tokens
            || t == NewLine(s).tokens || t == StepOperator(s, c).tokens
  {
    if Opens(c, afterDollar) {
      OpeningTokens(s, c, afterDollar);
    }
  }

  lemma StepInsideGrows(s: State, c: char, afterDollar: bool)
    requires s.open != []
    ensures s.tokens <= StepInside(s, c, afterDollar).tokens
  {
    DelimitGrows(s, c);
    StepInsideTokens(s, c, afterDollar);
  }

  lemma StepInsideTokens(s: State, c: char, afterDollar: bool)
    requires s.open != []
    ensures var t := StepInside(s, c, afterDollar).tokens; t == s.tokens || t == Append(s, [c]).tokens
  {
  }

  lemma StepGrows(s: State, c: char)
    ensures s.tokens <= Step(s, c).tokens
  {
    StepPlainGrows(s.(dollar := false), c, s.dollar);
    if s.open != [] {
      StepInsideGrows(s.(dollar := false), c, s.dollar);
    }
  }

  lemma {:induction false} TokensGrow(s: State, text: string)
    ensures s.tokens <= Run(s, text).tokens
    decreases |text|
  {
    if text != "" {
      StepGrows(s, text[0]);
      TokensGrow(Step(s, text[0]), text[1..]);
    }
  }

  /** A comment starts only between tokens. */
  lemma {:induction false} CommentIsIdle(s: State, text: string)
    requires s.comment ==> s.current.Nothing? && s.body.None?
    ensures var r := Run(s, text); r.comment ==> r.current.Nothing? && r.body.None?
    decreases |text|
  {
    if text != "" {
      StepCommentIsIdle(s, text[0]);
      CommentIsIdle(Step(s, text[0]), text[1..]);
    }
  }

  lemma StepCommentIsIdle(s: State, c: char)
    requires s.comment ==> s.current.Nothing? && s.body.None?
    ensures var r := Step(s, c); r.comment ==> r.current.Nothing? && r.body.None?
  {
  }

  /** The main result. When the command is a complete line, the shell reads the built line as
      the command's own tokens followed by the arguments, one word each - unless the command
      ends in a comment, and then it never does. */
  lemma BuiltLineIff(command: string, args: seq<string>, tokens: seq<Token>)
    requires Lex(command) == Some(tokens) && args != []
    ensures Lex(Line(command, args)) == Some(tokens + ArgumentWords(args)) <==> !EndsInComment(command)
  {
    var s := Run(START, command);
    RunConcat(START, command, Tail(args));
    if !s.comment {
      TailRun(s, args);
    } else {
      CommentIsIdle(START, command);
      CommentRun(s, Tail(args));
      var r := Run(s, Tail(args));
      var words := ArgumentWords(args);
      assert words[0].Word?;
      if r != s {
        assert Delimit(r).tokens[|tokens|] == Operator("\n");
      }
      assert (tokens + words)[|tokens|] == words[0];
    }
  }

  lemma HashIsEmpty()
    ensures Lex("#") == Some([]) && EndsInComment("#")
  {
    RunOne(START, '#');
    assert Step(START, '#') == START.(comment := true);
  }

  /** Such commands exist: a lone `#` is a complete line without tokens, and arguments after it
      are lost. */
  lemma ArgumentsLostInComment(args: seq<string>)
    requires args != []
    ensures Lex("#") == Some([]) && EndsInComment("#")
    ensures Lex(Line("#", args)) != Some(ArgumentWords(args))
  {
    HashIsEmpty();
    BuiltLineIff("#", args, []);
    assert [] + ArgumentWords(args) == ArgumentWords(args);
  }

  /** Each argument comes out of quote removal unchanged, empty ones and quotes included, and
      fully literal, so nothing in it is expanded, split or matched. */
  lemma {:induction false} ArgumentsAreLiteral(args: seq<string>, i: nat)
    requires i < |args|
    ensures |ArgumentWords(args)| == |args| && ArgumentWords(args)[i] == Word(QuoteArg(args[i]))
    ensures Unquote(Plain, QuoteArg(args[i])) == AllQuoted(args[i])
    ensures Values(Unquote(Plain, QuoteArg(args[i]))) == args[i]
  {
    QuoteArgIsLiteral(args[i]);
    WordsPerArgument(args);
    if i > 0 {
      ArgumentsAreLiteral(args[1..], i - 1);
    }
  }

  lemma {:induction false} WordsPerArgument(args: seq<string>)
    ensures |ArgumentWords(args)| == |args|
  {
    if args != [] {
      WordsPerArgument(args[1..]);
    }
  }

  // The builders

  /** The words stand for the arguments: one each, and quote removal leaves exactly the
      argument, every character of it quoted. */
  ghost predicate StandFor(words: seq<Token>, args: seq<string>) {
    |words| == |args| && forall i :: 0 <= i < |args| ==>
      && words[i].Word? && Values(Unquote(Plain, words[i].raw)) == args[i]
      && forall x :: x in Unquote(Plain, words[i].raw) ==> x.Quoted?
  }

  /** The line that a shell is given starts with the command, is the command when there are no
      arguments, and is otherwise read as the command's tokens followed by the arguments, if
      the command is complete and does not end in a comment. */
  ghost predicate IsLine(line: string, command: string, args: seq<string>) {
    && command <= line && (args == [] ==> line == command)
    && (Lex(command).Some? && !EndsInComment(command) ==>
          exists words :: StandFor(words, args) && Lex(line) == Some(Lex(command).value + words))
  }

  /** What a builder returns: an error for an unknown mode or a blank program, in argv mode the
      program and its arguments as they are, and in shell mode the shell, -c and the line. */
  ghost predicate IsExec(shell: string, options: Options, r: Result<seq<string>>) {
    var mode := TrimSpace(options.mode);
    if mode == "" || mode == "shell" then
      r.Ok? && |r.value| == 3 && r.value[0] == shell && r.value[1] == "-c"
      && IsLine(r.value[2], options.command, options.args)
    else if mode == "argv" then
      if TrimSpace(options.command) == "" then r == Err(ArgvRequiresCommand)
      else r == Ok([options.command] + options.args)
    else r == Err(UnsupportedMode(options.mode))
  }

  lemma {:induction false} AllQuotedIsQuoted(text: string)
    ensures forall x :: x in AllQuoted(text) ==> x.Quoted?
  {
    if text != "" {
      AllQuotedIsQuoted(text[1..]);
    }
  }

  lemma WordsStandFor(args: seq<string>)
    ensures StandFor(ArgumentWords(args), args)
  {
    WordsPerArgument(args);
    forall i | 0 <= i < |args|
      ensures var w := ArgumentWords(args)[i];
              && w.Word? && Values(Unquote(Plain, w.raw)) == args[i]
              && forall x :: x in Unquote(Plain, w.raw) ==> x.Quoted?
    {
      ArgumentsAreLiteral(args, i);
      AllQuotedIsQuoted(args[i]);
    }
  }

  lemma LineIsLine(command: string, args: seq<string>)
    ensures IsLine(Line(command, args), command, args)
  {
    WordsStandFor(args);
    if args == [] {
      assert Line(command, args) == command;
      if Lex(command).Some? {
        assert Lex(command).value + ArgumentWords(args) == Lex(command).value;
      }
    } else if Lex(command).Some? {
      BuiltLineIff(command, args, Lex(command).value);
    }
  }

  lemma ArgumentsExec(shell: string, options: Options)
    ensures IsExec(shell, options, Arguments(shell, options))
  {
    LineIsLine(options.command, options.args);
  }

  /** The host's builder. */
  method BuildExecCommand(options: Options) returns (r: Result<seq<string>>)
    ensures r == Arguments(HOST_SHELL, options)
    ensures IsExec("sh", options, r)
  {
    ArgumentsExec(HOST_SHELL, options);
    var mode := NormalizeExecMode(options.mode);
    if mode.Err? {
      return Err(mode.error);
    }
    if mode.value == ArgvMode {
      if TrimSpace(options.command) == "" {
        return Err(ArgvRequiresCommand);
      }
      return Ok([options.command] + options.args);
    }
    var shellCmd := options.command;
    assert options.args[..0] == [];
    for i := 0 to |options.args|
      invariant shellCmd == Line(options.command, options.args[..i])
    {
      LineGrows(options.command, options.args, i);
      shellCmd := shellCmd + " " + QuoteArg(options.args[i]);
    }
    assert options.args[..|options.args|] == options.args;
    return Ok([HOST_SHELL, "-c", shellCmd]);
  }

  /** The guest agent's builder: it looks at the mode and builds in one switch. */
  method GuestBuildExecCommand(options: Options) returns (r: Result<seq<string>>)
    ensures r == Arguments(GUEST_SHELL, options)
    ensures IsExec("/bin/sh", options, r)
  {
    ArgumentsExec(GUEST_SHELL, options);
    var mode := TrimSpace(options.mode);
    if mode == "" || mode == "shell" {
      var shellCmd := options.command;
      assert options.args[..0] == [];
      for i := 0 to |options.args|
        invariant shellCmd == Line(options.command, options.args[..i])
      {
        LineGrows(options.command, options.args, i);
        shellCmd := shellCmd + " " + QuoteArg(options.args[i]);
      }
      assert options.args[..|options.args|] == options.args;
      r := Ok([GUEST_SHELL, "-c", shellCmd]);
    } else if mode == "argv" {
      if TrimSpace(options.command) == "" {
        return Err(ArgvRequiresCommand);
      }
      r := Ok([options.command] + options.args);
    } else {
      r := Err(UnsupportedMode(options.mode));
    }
  }

  /** Host and guest disagree in the interpreter's name and in nothing else. */
  lemma HostAndGuestAgree(options: Options)
    ensures var h, g := Arguments(HOST_SHELL, options), Arguments(GUEST_SHELL, options);
            if NormalizeExecMode(options.mode) == Ok(ShellMode)
            then h.Ok? && g.Ok? && h.value[1..] == g.value[1..] && h.value[0] == HOST_SHELL && g.value[0] == GUEST_SHELL
            else h == g
  {
  }
}
