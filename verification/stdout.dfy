/** The standard output stream, as text.

    Every output the program produces is a `System.out.println`.
    Here the stream is a `string`; printing a line appends the line and a
    newline character. The lines a reader of the terminal sees are recovered
    from the stream by `SplitLines`, which is the inverse of `Render` for lines
    that hold no newline of their own.
 */
module Stdout {

  const Newline: char := '\n'

  /** A line that `println` would print as exactly one terminal line. */
  predicate NoNewline(s: string) {
    Newline !in s
  }

  predicate AllNoNewline(lines: seq<string>) {
    forall i :: 0 <= i < |lines| ==> NoNewline(lines[i])
  }

  /** `System.out.println(s)` on a stream that already holds `out`. */
  function Println(out: string, s: string): (r: string)
    ensures r == out + Render([s])
  {
    assert Render([s]) == s + [Newline] + Render([]);
    out + s + [Newline]
  }

  /** The stream text produced by printing each of `lines` in order. */
  function Render(lines: seq<string>): (r: string)
    ensures lines == [] <==> r == []
    ensures lines != [] ==> r[|r| - 1] == Newline
  {
    if lines == [] then [] else lines[0] + [Newline] + Render(lines[1..])
  }

  /** Printing `lines` one `println` at a time, first to last. */
  function PrintLines(out: string, lines: seq<string>): (r: string)
    ensures r == out + Render(lines)
    decreases |lines|
  {
    if lines == [] then out
    else
      assert Render(lines) == lines[0] + [Newline] + Render(lines[1..]);
      PrintLines(Println(out, lines[0]), lines[1..])
  }

  /** The position of the first newline in `s`, or `|s|` when there is none. */
  function IndexOfNewline(s: string): (i: nat)
    ensures i <= |s|
    ensures i < |s| ==> s[i] == Newline
    ensures forall j :: 0 <= j < i ==> s[j] != Newline
  {
    if s == [] then 0
    else if s[0] == Newline then 0
    else 1 + IndexOfNewline(s[1..])
  }

  /** The terminal lines of a stream: the text between newlines, with a final
      unterminated piece counting as a line of its own. */
  function SplitLines(s: string): (lines: seq<string>)
    ensures AllNoNewline(lines)
    decreases |s|
  {
    if s == [] then []
    else
      var i := IndexOfNewline(s);
      if i == |s| then [s]
      else [s[..i]] + SplitLines(s[i + 1..])
  }

  /** Rendering distributes over concatenation of line sequences. */
  lemma {:induction false} RenderAppend(a: seq<string>, b: seq<string>)
    ensures Render(a + b) == Render(a) + Render(b)
    decreases |a|
  {
    if a == [] {
      assert a + b == b;
    } else {
      assert (a + b)[1..] == a[1..] + b;
      RenderAppend(a[1..], b);
    }
  }

  /** A sequence of lines is newline-free exactly when both of its parts are. */
  lemma AllNoNewlineAppend(a: seq<string>, b: seq<string>)
    ensures AllNoNewline(a + b) <==> AllNoNewline(a) && AllNoNewline(b)
  {
    if AllNoNewline(a) && AllNoNewline(b) {
      forall i | 0 <= i < |a + b| ensures NoNewline((a + b)[i]) {
        if i >= |a| {
          assert (a + b)[i] == b[i - |a|];
        }
      }
    }
    if AllNoNewline(a + b) {
      forall i | 0 <= i < |a| ensures NoNewline(a[i]) {
        assert (a + b)[i] == a[i];
      }
      forall i | 0 <= i < |b| ensures NoNewline(b[i]) {
        assert (a + b)[|a| + i] == b[i];
      }
    }
  }

  /** Printing more lines after `shown` yields the rendering of all of them. */
  lemma RenderExtend(out: string, shown: seq<string>, more: seq<string>)
    ensures out + Render(shown) + Render(more) == out + Render(shown + more)
  {
    RenderAppend(shown, more);
  }

  /** The first line of a stream that starts with a newline-free line is
      that line, and the rest of the stream follows its newline. */
  lemma SplitFirstLine(l: string, rest: string)
    requires NoNewline(l)
    ensures SplitLines(l + [Newline] + rest) == [l] + SplitLines(rest)
  {
    var s := l + [Newline] + rest;
    forall j | 0 <= j < |l| ensures s[j] != Newline {
      assert s[j] == l[j];
    }
    assert s[|l|] == Newline;
    var i := IndexOfNewline(s);
    assert i == |l|;
    assert s[..i] == l;
    assert s[i + 1..] == rest;
  }

  /** Splitting undoes rendering: the terminal shows exactly the printed lines,
      provided none of them carries a newline of its own. */
  lemma {:induction false} SplitRender(lines: seq<string>)
    requires AllNoNewline(lines)
    ensures SplitLines(Render(lines)) == lines
    decreases |lines|
  {
    if lines != [] {
      assert NoNewline(lines[0]);
      SplitFirstLine(lines[0], Render(lines[1..]));
      SplitRender(lines[1..]);
      assert lines == [lines[0]] + lines[1..];
    }
  }

  /** A `println` whose argument starts with a newline shows an empty line
      and then the rest of the argument. */
  lemma PrintlnLeadingNewline(out: string, s: string)
    ensures Println(out, [Newline] + s) == out + Render(["", s])
  {
    assert Render([s]) == s + [Newline] + Render([]);
    assert Render(["", s]) == "" + [Newline] + Render([s]);
  }
}
