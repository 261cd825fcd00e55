/** The buffer that keeps the last lines a provider process printed. It is fed chunk by
    chunk as an io.Writer, and chunks may break anywhere inside a line. */
module LineRing {

  import opened Text

  const DEFAULT_LINES := 1000

  function LastOf<T>(s: seq<T>, n: nat): (r: seq<T>)
    ensures |r| == if |s| < n then |s| else n
  {
    if |s| <= n then s else s[|s| - n..]
  }

  lemma GlueAtLast(x: seq<string>, y: seq<string>)
    requires |x| >= 1 && |y| >= 1
    ensures Glue(x, y) == x[..|x| - 1] + Glue([x[|x| - 1]], y)
  {
    assert Glue([x[|x| - 1]], y) == [x[|x| - 1] + y[0]] + y[1..];
  }

  /** Only the unfinished line has to be remembered: splitting it together with the next
      chunk gives exactly the lines the chunk adds to the whole text. */
  lemma RestCarriesOver(text: string, chunk: string)
    ensures Complete(text + chunk) == Complete(text) + Complete(Rest(text) + chunk)
    ensures Rest(text + chunk) == Rest(Rest(text) + chunk)
  {
    var whole := Split(text + chunk, '\n');
    var tail := Split(Rest(text) + chunk, '\n');
    assert whole == Complete(text) + tail by {
      SplitConcat(text, chunk, '\n');
      RestHasNoNewline(text);
      SplitOfFree(Rest(text), '\n');
      SplitConcat(Rest(text), chunk, '\n');
      GlueAtLast(Split(text, '\n'), Split(chunk, '\n'));
    }
  }

  lemma LastOfIsSuffix<T>(s: seq<T>, n: nat)
    ensures exists k: nat :: k <= |s| && LastOf(s, n) == s[k..] && (k > 0 ==> |s| - k == n)
  {
    assert LastOf(s, n) == s[|s| - |LastOf(s, n)|..];
  }

  /** Keeping the last n as elements arrive one by one is keeping the last n of everything. */
  lemma LastOfAppend<T>(s: seq<T>, x: T, n: nat)
    requires n >= 1
    ensures LastOf(LastOf(s, n) + [x], n) == LastOf(s + [x], n)
  {
  }

  class RingBuffer {
    var lines: array<string>
    var used: nat
    var partial: string
    ghost var stream: string

    function MaxLines(): nat
      reads this
    {
      lines.Length
    }

    function Stored(): seq<string>
      requires used <= lines.Length
      reads this, lines
    {
      lines[..used]
    }

    /** The buffer is a function of the text written so far, however it was cut up. */
    ghost predicate Valid()
      reads this, lines
    {
      && lines.Length >= 1
      && used <= lines.Length
      && Stored() == LastOf(Complete(stream), lines.Length)
      && partial == Rest(stream)
    }

    /** What a reader sees: the stored lines, then the unfinished one if it has any text. */
    function Visible(): seq<string>
      requires used <= lines.Length
      reads this, lines
    {
      Stored() + if partial == "" then [] else [partial]
    }

    constructor (maxLines: int)
      ensures Valid() && fresh(lines) && stream == ""
      ensures MaxLines() == if maxLines <= 0 then 1000 else maxLines
    {
      lines := new string[if maxLines <= 0 then DEFAULT_LINES else maxLines](_ => "");
      used := 0;
      partial := "";
      stream := "";
    }

    /** Every stored line moves one place to the left and the last place takes the new one. */
    method ShiftIn(line: string)
      requires 1 <= used <= lines.Length
      modifies lines
      ensures Stored() == old(Stored())[1..] + [line]
    {
      var i := 1;
      while i < used
        invariant 1 <= i <= used <= lines.Length
        invariant forall k :: 0 <= k < i - 1 ==> lines[k] == old(lines[k + 1])
        invariant forall k :: i - 1 <= k < used ==> lines[k] == old(lines[k])
      {
        lines[i - 1] := lines[i];
        i := i + 1;
      }
      lines[used - 1] := line;
    }

    method AddLine(line: string)
      requires 1 <= lines.Length && used <= lines.Length
      modifies this`used, lines
      ensures used <= lines.Length
      ensures Stored() == LastOf(old(Stored()) + [line], lines.Length)
    {
      if used >= lines.Length {
        ShiftIn(line);
      } else {
        lines[used] := line;
        used := used + 1;
        assert Stored() == old(Stored()) + [line];
      }
    }

    method Write(chunk: string) returns (n: nat)
      requires Valid()
      modifies this, lines
      ensures Valid() && lines == old(lines)
      ensures stream == old(stream) + chunk
      ensures n == |chunk|
    {
      var text := partial + chunk;
      partial := "";
      var parts := Split(text, '\n');
      partial := parts[|parts| - 1];
      parts := parts[..|parts| - 1];
      ghost var before := Complete(stream);
      RestCarriesOver(stream, chunk);
      stream := stream + chunk;
      assert Complete(stream) == before + parts && partial == Rest(stream);
      assert Stored() == LastOf(before, lines.Length);
      AddLines(before, parts);
      return |chunk|;
    }

    /** The loop of Write. */
    method AddLines(ghost before: seq<string>, parts: seq<string>)
      requires 1 <= lines.Length && used <= lines.Length
      requires Stored() == LastOf(before, lines.Length)
      modifies this`used, lines
      ensures used <= lines.Length
      ensures Stored() == LastOf(before + parts, lines.Length)
    {
      assert before + parts[..0] == before;
      for i := 0 to |parts|
        invariant used <= lines.Length
        invariant Stored() == LastOf(before + parts[..i], lines.Length)
      {
        AddLine(parts[i]);
        LastOfAppend(before + parts[..i], parts[i], lines.Length);
        assert before + parts[..i + 1] == (before + parts[..i]) + [parts[i]];
      }
      assert parts[..|parts|] == parts;
    }

    /** The last n visible entries; all of them when n is not positive or too large. */
    method Lines(n: int) returns (result: seq<string>)
      requires Valid()
      ensures result == LastOf(Visible(), if n <= 0 then |Visible()| else n)
    {
      var hasPartial := partial != "";
      var total := used + if hasPartial then 1 else 0;
      var wanted := if n <= 0 || n > total then total else n;
      var skip := total - wanted;
      result := [];
      var i := 0;
      while i < used
        invariant 0 <= i <= used
        invariant result == if i <= skip then [] else lines[skip..i]
      {
        if i >= skip {
          result := result + [lines[i]];
        }
        i := i + 1;
      }
      if hasPartial && skip < total {
        result := result + [partial];
      }
    }
  }

  function Flat(chunks: seq<string>): string {
    if chunks == [] then "" else chunks[0] + Flat(chunks[1..])
  }

  /** Any sequence of writes: where the chunks were cut leaves no trace. */
  method Feed(buffer: RingBuffer, chunks: seq<string>)
    requires buffer.Valid()
    modifies buffer, buffer.lines
    ensures buffer.Valid() && buffer.lines == old(buffer.lines)
    ensures buffer.stream == old(buffer.stream) + Flat(chunks)
    ensures buffer.Stored() == LastOf(Complete(old(buffer.stream) + Flat(chunks)), buffer.MaxLines())
    ensures buffer.partial == Rest(old(buffer.stream) + Flat(chunks))
    decreases |chunks|
  {
    if chunks != [] {
      var _ := buffer.Write(chunks[0]);
      Feed(buffer, chunks[1..]);
      assert old(buffer.stream) + Flat(chunks) == (old(buffer.stream) + chunks[0]) + Flat(chunks[1..]);
    }
  }
}
