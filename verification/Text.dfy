/** The string operations the orchestrator borrows from Go's standard library:
    trimming, splitting and joining on a one-character separator, containment and
    ASCII case folding. */
module Text {

  datatype Option<+T> = None | Some(value: T)

  /** The code points `strings.TrimSpace` removes. */
  predicate IsSpace(c: char) {
    || '\t' <= c <= '\r'
    || c == ' ' || c == '\U{85}' || c == '\U{a0}' || c == '\U{1680}'
    || '\U{2000}' <= c <= '\U{200a}'
    || c == '\U{2028}' || c == '\U{2029}' || c == '\U{202f}' || c == '\U{205f}' || c == '\U{3000}'
  }

  /** Unicode's White_Space property. */
  lemma IsSpaceMeans(c: char)
    ensures IsSpace(c) <==>
      || c as int in {9, 10, 11, 12, 13, 32, 133, 160, 5760, 8232, 8233, 8239, 8287, 12288}
      || c as int in {8192, 8193, 8194, 8195, 8196, 8197, 8198, 8199, 8200, 8201, 8202}
  {
  }

  function TrimLeft(s: string): string {
    if s != "" && IsSpace(s[0]) then TrimLeft(s[1..]) else s
  }

  function TrimRight(s: string): string {
    if s != "" && IsSpace(s[|s| - 1]) then TrimRight(s[..|s| - 1]) else s
  }

  lemma {:induction false} TrimLeftEnd(s: string)
    ensures var r := TrimLeft(s);
            (r == "" || !IsSpace(r[0])) && |r| <= |s| && r == s[|s| - |r|..]
  {
    if s != "" && IsSpace(s[0]) {
      TrimLeftEnd(s[1..]);
    }
  }

  lemma {:induction false} TrimRightEnd(s: string)
    ensures var r := TrimRight(s);
            (r == "" || !IsSpace(r[|r| - 1])) && |r| <= |s| && r == s[..|r|]
  {
    if s != "" && IsSpace(s[|s| - 1]) {
      TrimRightEnd(s[..|s| - 1]);
    }
  }

  function TrimSpace(s: string): string { TrimRight(TrimLeft(s)) }

  /** Trimming leaves no blank at either end, so a second trim changes nothing. */
  lemma TrimSpaceIdempotent(s: string)
    ensures TrimSpace(TrimSpace(s)) == TrimSpace(s)
  {
    TrimLeftEnd(s);
    TrimRightEnd(TrimLeft(s));
  }

  /** A string with no blank at either end is its own trim. */
  lemma TrimSpaceTight(s: string)
    requires s == "" || (!IsSpace(s[0]) && !IsSpace(s[|s| - 1]))
    ensures TrimSpace(s) == s
  {
  }

  /** The text between the outermost blanks is what trimming leaves. */
  lemma TrimSpaceIs(a: string, m: string, b: string)
    requires forall c :: c in a + b ==> IsSpace(c)
    requires m != "" && !IsSpace(m[0]) && !IsSpace(m[|m| - 1])
    ensures TrimSpace(a + m + b) == m
  {
    TrimLeftIs(a, m + b);
    assert a + (m + b) == a + m + b;
    TrimRightIs(m, b);
  }

  lemma {:induction false} TrimLeftIs(a: string, m: string)
    requires (forall c :: c in a ==> IsSpace(c)) && m != "" && !IsSpace(m[0])
    ensures TrimLeft(a + m) == m
  {
    if a == "" {
      assert a + m == m;
    } else {
      assert (a + m)[0] == a[0] && a[0] in a && (a + m)[1..] == a[1..] + m;
      TrimLeftIs(a[1..], m);
    }
  }

  lemma {:induction false} TrimRightIs(m: string, b: string)
    requires (forall c :: c in b ==> IsSpace(c)) && m != "" && !IsSpace(m[|m| - 1])
    ensures TrimRight(m + b) == m
  {
    if b == "" {
      assert m + b == m;
    } else {
      var last := |b| - 1;
      assert (m + b)[|m| + last] == b[last] && b[last] in b && (m + b)[..|m| + last] == m + b[..last];
      TrimRightIs(m, b[..last]);
    }
  }

  /** Nothing is left of a blank text, and of no other. */
  lemma TrimSpaceIsEmptyIff(s: string)
    ensures TrimSpace(s) == "" <==> forall c :: c in s ==> IsSpace(c)
  {
    var l := TrimLeft(s);
    TrimLeftEnd(s);
    TrimRightEnd(l);
    if l != "" {
      assert s[|s| - |l|] == l[0];
    }
    if c :| c in s && !IsSpace(c) {
      NotTrimmed(s, c);
      NotTrimmedRight(l, c);
    }
  }

  lemma {:induction false} NotTrimmed(s: string, c: char)
    requires c in s && !IsSpace(c)
    ensures c in TrimLeft(s)
  {
    if IsSpace(s[0]) {
      NotTrimmed(s[1..], c);
    }
  }

  lemma {:induction false} NotTrimmedRight(s: string, c: char)
    requires c in s && !IsSpace(c)
    ensures c in TrimRight(s)
  {
    if IsSpace(s[|s| - 1]) {
      NotTrimmedRight(s[..|s| - 1], c);
    }
  }

  function Split(s: string, sep: char): (parts: seq<string>)
    ensures |parts| >= 1
  {
    if s == "" then [""]
    else
      var rest := Split(s[1..], sep);
      if s[0] == sep then [""] + rest else [[s[0]] + rest[0]] + rest[1..]
  }

  function Join(parts: seq<string>, sep: char): string {
    if |parts| == 0 then ""
    else if |parts| == 1 then parts[0]
    else parts[0] + [sep] + Join(parts[1..], sep)
  }

  ghost predicate Free(s: string, sep: char) { sep !in s }

  ghost predicate AllFree(parts: seq<string>, sep: char) {
    forall i :: 0 <= i < |parts| ==> Free(parts[i], sep)
  }

  lemma {:induction false} JoinSplit(s: string, sep: char)
    ensures Join(Split(s, sep), sep) == s
  {
    if s != "" {
      var rest := Split(s[1..], sep);
      JoinSplit(s[1..], sep);
      if s[0] == sep {
        assert ([""] + rest)[1..] == rest;
      } else if |rest| > 1 {
        assert ([[s[0]] + rest[0]] + rest[1..])[1..] == rest[1..];
      }
    }
  }

  lemma {:induction false} SplitFree(s: string, sep: char)
    ensures AllFree(Split(s, sep), sep)
  {
    if s != "" {
      SplitFree(s[1..], sep);
      assert Free(Split(s[1..], sep)[0], sep);
    }
  }

  /** Two lists of pieces laid end to end, the last of the one and the first of the other fused. */
  function Glue(x: seq<string>, y: seq<string>): (z: seq<string>)
    requires |x| >= 1 && |y| >= 1
    ensures |z| == |x| + |y| - 1
  {
    x[..|x| - 1] + [x[|x| - 1] + y[0]] + y[1..]
  }

  lemma GlueSkip(r: seq<string>, y: seq<string>)
    requires |r| >= 1 && |y| >= 1
    ensures Glue([""] + r, y) == [""] + Glue(r, y)
  {
    assert ([""] + r)[..|r|] == [""] + r[..|r| - 1];
  }

  lemma GlueGrow(p: string, r: seq<string>, y: seq<string>)
    requires |r| >= 1 && |y| >= 1
    ensures Glue([p + r[0]] + r[1..], y) == [p + Glue(r, y)[0]] + Glue(r, y)[1..]
  {
    var x := [p + r[0]] + r[1..];
    if |r| == 1 {
      assert p + r[0] + y[0] == p + (r[0] + y[0]);
    } else {
      assert x[..|x| - 1] == [p + r[0]] + r[1..|r| - 1];
      assert Glue(r, y)[1..] == r[1..|r| - 1] + [r[|r| - 1] + y[0]] + y[1..];
    }
  }

  /** Splitting a concatenation glues the two splits. */
  lemma {:induction false} SplitConcat(a: string, b: string, sep: char)
    ensures Split(a + b, sep) == Glue(Split(a, sep), Split(b, sep))
  {
    var y := Split(b, sep);
    if a == "" {
      assert a + b == b;
      assert "" + y[0] == y[0];
    } else {
      assert (a + b)[1..] == a[1..] + b;
      SplitConcat(a[1..], b, sep);
      var r := Split(a[1..], sep);
      if a[0] == sep {
        GlueSkip(r, y);
      } else {
        GlueGrow([a[0]], r, y);
      }
    }
  }

  lemma SplitLeading(s: string, sep: char)
    ensures Split([sep] + s, sep) == [""] + Split(s, sep)
  {
    assert ([sep] + s)[1..] == s;
  }

  /** A separator between two strings keeps their pieces apart. */
  lemma SplitAfter(a: string, b: string, sep: char)
    ensures Split(a + [sep] + b, sep) == Split(a, sep) + Split(b, sep)
  {
    SplitLeading(b, sep);
    SplitConcat(a, [sep] + b, sep);
    assert a + ([sep] + b) == a + [sep] + b;
    var x := Split(a, sep);
    assert x[|x| - 1] + "" == x[|x| - 1];
  }

  lemma SplitAt(s: string, k: nat, sep: char)
    requires 0 < k <= |s| && s[k - 1] == sep
    ensures Split(s, sep) == Split(s[..k - 1], sep) + Split(s[k..], sep)
  {
    SplitAfter(s[..k - 1], s[k..], sep);
    assert s[..k - 1] + [sep] + s[k..] == s;
  }

  lemma {:induction false} SplitOfFree(s: string, sep: char)
    requires Free(s, sep)
    ensures Split(s, sep) == [s]
  {
    if s != "" {
      SplitOfFree(s[1..], sep);
      assert s == [s[0]] + s[1..];
    }
  }

  /** Splitting undoes joining for separator-free pieces. */
  lemma {:induction false} SplitJoin(parts: seq<string>, sep: char)
    requires |parts| >= 1 && AllFree(parts, sep)
    ensures Split(Join(parts, sep), sep) == parts
  {
    assert Free(parts[0], sep);
    SplitOfFree(parts[0], sep);
    if |parts| > 1 {
      var tail := Join(parts[1..], sep);
      assert forall i :: 0 <= i < |parts[1..]| ==> Free(parts[1..][i], sep) by {
        assert forall i :: 0 <= i < |parts[1..]| ==> parts[1..][i] == parts[i + 1];
      }
      SplitJoin(parts[1..], sep);
      SplitAfter(parts[0], tail, sep);
      HeadThenTail(parts);
    }
  }

  lemma HeadThenTail(parts: seq<string>)
    requires |parts| >= 1
    ensures [parts[0]] + parts[1..] == parts
  {
  }

  lemma {:induction false} JoinConcat(a: seq<string>, b: seq<string>, sep: char)
    requires |a| >= 1 && |b| >= 1
    ensures Join(a + b, sep) == Join(a, sep) + [sep] + Join(b, sep)
  {
    assert (a + b)[1..] == a[1..] + b;
    if |a| > 1 {
      JoinConcat(a[1..], b, sep);
    } else {
      assert a[1..] + b == b;
    }
  }

  /** The lines of a text that a newline closes. */
  function Complete(text: string): seq<string> {
    var parts := Split(text, '\n');
    parts[..|parts| - 1]
  }

  /** What follows the last newline. */
  function Rest(text: string): string {
    var parts := Split(text, '\n');
    parts[|parts| - 1]
  }

  lemma RestHasNoNewline(text: string)
    ensures Free(Rest(text), '\n')
  {
    SplitFree(text, '\n');
  }

  /** The text up to and including its last newline. */
  function Closed(text: string): string {
    if Complete(text) == [] then "" else Join(Complete(text), '\n') + "\n"
  }

  lemma JoinInitLast(parts: seq<string>, sep: char)
    requires |parts| >= 1
    ensures |parts| == 1 ==> Join(parts, sep) == parts[0]
    ensures |parts| > 1 ==>
      Join(parts, sep) == Join(parts[..|parts| - 1], sep) + [sep] + parts[|parts| - 1]
  {
    if |parts| > 1 {
      JoinConcat(parts[..|parts| - 1], parts[|parts| - 1..], sep);
      assert parts == parts[..|parts| - 1] + parts[|parts| - 1..];
    }
  }

  lemma ClosedThenRest(text: string)
    ensures text == Closed(text) + Rest(text)
  {
    JoinSplit(text, '\n');
    JoinInitLast(Split(text, '\n'), '\n');
  }

  lemma RestIsEmptyIff(text: string)
    ensures Rest(text) == "" <==> text == "" || text[|text| - 1] == '\n'
  {
    ClosedThenRest(text);
    RestHasNoNewline(text);
    var closed, rest := Closed(text), Rest(text);
    assert closed == "" || closed[|closed| - 1] == '\n';
    assert rest != "" ==> text[|text| - 1] == rest[|rest| - 1];
  }

  predicate OccursAt(s: string, t: string, i: int) {
    0 <= i <= |s| - |t| && s[i..i + |t|] == t
  }

  /** `strings.Contains`. */
  predicate Contains(s: string, t: string) {
    exists i | 0 <= i <= |s| - |t| :: OccursAt(s, t, i)
  }

  lemma ContainsWider(a: string, s: string, b: string, t: string)
    requires Contains(s, t)
    ensures Contains(a + s + b, t)
  {
    var i :| 0 <= i <= |s| - |t| && OccursAt(s, t, i);
    assert (a + s + b)[|a| + i..|a| + i + |t|] == t;
    assert OccursAt(a + s + b, t, |a| + i);
  }

  lemma ContainsMiddle(a: string, t: string, b: string)
    ensures Contains(a + t + b, t)
  {
    assert OccursAt(a + t + b, t, |a|);
  }

  function LowerChar(c: char): char {
    if 'A' <= c <= 'Z' then (c as int + 32) as char else c
  }

  /** `strings.EqualFold` on ASCII text. */
  predicate EqualFold(a: string, b: string) {
    |a| == |b| && forall i :: 0 <= i < |a| ==> LowerChar(a[i]) == LowerChar(b[i])
  }

  /** Two texts fold to the same when they differ at most in the case of ASCII letters. */
  lemma EqualFoldMeans(a: string, b: string)
    ensures EqualFold(a, b) <==>
      |a| == |b| && forall i :: 0 <= i < |a| ==>
        || a[i] == b[i]
        || ('A' <= a[i] <= 'Z' && b[i] as int == a[i] as int + 32)
        || ('A' <= b[i] <= 'Z' && a[i] as int == b[i] as int + 32)
  {
  }
}
