/**
 * String building shared by the Mermaid and DOT serialisers: `Array.prototype.join` and, to state
 * what the serialisers produce line by line, the split of a text at its line feeds.
 */
module Text {

  /** `xs.join(sep)`. */
  function Join(xs: seq<string>, sep: string): string
  {
    if xs == [] then "" else if |xs| == 1 then xs[0] else xs[0] + sep + Join(xs[1..], sep)
  }

  /** The lines of `s`: the pieces between line feeds (`s.split("\n")`); never empty. */
  function Lines(s: string): (r: seq<string>)
    ensures |r| >= 1
  {
    if s == [] then [""]
    else if s[0] == '\n' then [""] + Lines(s[1..])
    else
      var rest := Lines(s[1..]);
      [[s[0]] + rest[0]] + rest[1..]
  }

  predicate OneLine(s: string)
  {
    '\n' !in s
  }

  /** Every string of `xs`, prefixed with `indent`. */
  function Indented(xs: seq<string>, indent: string): (r: seq<string>)
    ensures |r| == |xs|
    ensures forall i :: 0 <= i < |xs| ==> r[i] == indent + xs[i]
  {
    if xs == [] then [] else [indent + xs[0]] + Indented(xs[1..], indent)
  }

  /** The lines `indent + xs.join("\n" + indent)` reads as: one indented line per string, or one bare indent when there are none. */
  function Block(xs: seq<string>, indent: string): seq<string>
  {
    if xs == [] then [indent] else Indented(xs, indent)
  }

  lemma {:induction false} LinesOfOneLine(s: string)
    requires OneLine(s)
    ensures Lines(s) == [s]
  {
    if s != [] {
      LinesOfOneLine(s[1..]);
      assert [s[0]] + s[1..] == s;
    }
  }

  /** The lines of a text that starts with an ordinary character: that character opens the first line. */
  lemma LinesCons(c: char, s: string)
    requires c != '\n'
    ensures Lines([c] + s) == [[c] + Lines(s)[0]] + Lines(s)[1..]
  {
    assert ([c] + s)[1..] == s;
  }

  /** The lines of a text that starts with a line feed: an empty line, then the rest. */
  lemma LinesBreak(s: string)
    ensures Lines(['\n'] + s) == [""] + Lines(s)
  {
    assert (['\n'] + s)[1..] == s;
  }

  /** The inductive step of `LinesAround`, for a text that starts with an ordinary character. */
  lemma LinesAroundCons(c: char, tail: string, q: string)
    requires c != '\n'
    requires Lines(tail + ['\n'] + q) == Lines(tail) + Lines(q)
    ensures Lines([c] + tail + ['\n'] + q) == Lines([c] + tail) + Lines(q)
  {
    var joined := tail + ['\n'] + q;
    assert [c] + tail + ['\n'] + q == [c] + joined;
    LinesCons(c, joined);
    LinesCons(c, tail);
    ExtendFirst([c], Lines(tail), Lines(q));
  }

  /** Extending the first line of `rest + after` extends the first line of `rest`. */
  lemma ExtendFirst(head: string, rest: seq<string>, after: seq<string>)
    requires |rest| >= 1
    ensures [head + (rest + after)[0]] + (rest + after)[1..] == [head + rest[0]] + rest[1..] + after
  {
    assert (rest + after)[1..] == rest[1..] + after;
  }

  /** The inductive step of `LinesAround`, for a text that starts with a line feed. */
  lemma LinesAroundBreak(tail: string, q: string)
    requires Lines(tail + ['\n'] + q) == Lines(tail) + Lines(q)
    ensures Lines(['\n'] + tail + ['\n'] + q) == Lines(['\n'] + tail) + Lines(q)
  {
    assert ['\n'] + tail + ['\n'] + q == ['\n'] + (tail + ['\n'] + q);
    LinesBreak(tail + ['\n'] + q);
    LinesBreak(tail);
  }

  /** A line feed splits a text into the lines before it and the lines after it. */
  lemma {:induction false} LinesAround(p: string, q: string)
    ensures Lines(p + ['\n'] + q) == Lines(p) + Lines(q)
    decreases |p|
  {
    if p == [] {
      assert p + ['\n'] + q == ['\n'] + q;
      LinesBreak(q);
    } else {
      LinesAround(p[1..], q);
      assert p == [p[0]] + p[1..];
      if p[0] == '\n' {
        LinesAroundBreak(p[1..], q);
      } else {
        LinesAroundCons(p[0], p[1..], q);
      }
    }
  }

  /** Joining one-line strings with `"\n" + indent` and indenting the first reads back as the block of indented strings. */
  lemma {:induction false} LinesOfIndentedJoin(xs: seq<string>, indent: string)
    requires OneLine(indent)
    requires forall i :: 0 <= i < |xs| ==> OneLine(xs[i])
    ensures Lines(indent + Join(xs, "\n" + indent)) == Block(xs, indent)
  {
    if xs == [] {
      assert indent + Join(xs, "\n" + indent) == indent;
      LinesOfOneLine(indent);
    } else if |xs| == 1 {
      LinesOfOneLine(indent + xs[0]);
    } else {
      LinesOfIndentedJoin(xs[1..], indent);
      LinesOfOneLine(indent + xs[0]);
      assert indent + Join(xs, "\n" + indent) == (indent + xs[0]) + "\n" + (indent + Join(xs[1..], "\n" + indent));
      LinesAround(indent + xs[0], indent + Join(xs[1..], "\n" + indent));
    }
  }

  /** A line ended by a line feed reads as that line and an empty one. */
  lemma TerminatedLine(s: string)
    requires OneLine(s)
    ensures Lines(s + "\n") == [s, ""]
  {
    assert s + "\n" == s + "\n" + "";
    LinesAround(s, "");
    LinesOfOneLine(s);
  }

  /** A block of joined indented strings, a line feed and a footer read as the block's lines, then the footer's. */
  lemma BlockThen(xs: seq<string>, indent: string, foot: string)
    requires OneLine(indent)
    requires forall i :: 0 <= i < |xs| ==> OneLine(xs[i])
    ensures Lines(indent + Join(xs, "\n" + indent) + "\n" + foot) == Block(xs, indent) + Lines(foot)
  {
    LinesAround(indent + Join(xs, "\n" + indent), foot);
    LinesOfIndentedJoin(xs, indent);
  }

  /**
   * A one-line header, a line feed, a block of joined indented strings, a line feed and a footer
   * read as the header, the block's lines and the footer's lines.
   */
  lemma Framed(head: string, xs: seq<string>, indent: string, foot: string)
    requires OneLine(head) && OneLine(indent)
    requires forall i :: 0 <= i < |xs| ==> OneLine(xs[i])
    ensures Lines(head + "\n" + indent + Join(xs, "\n" + indent) + "\n" + foot) == [head] + Block(xs, indent) + Lines(foot)
  {
    var rest := indent + Join(xs, "\n" + indent) + "\n" + foot;
    assert head + "\n" + indent + Join(xs, "\n" + indent) + "\n" + foot == head + "\n" + rest;
    LinesAround(head, rest);
    LinesOfOneLine(head);
    BlockThen(xs, indent, foot);
  }
}
