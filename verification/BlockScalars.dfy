// Block scalars in a SKILL.md's frontmatter (internal/skills/frontmatter.go
// blockScalar): lines written with an indent read back as they were, literally
// or folded.
module BlockScalars {
  import opened Prelude
  import opened Text
  import opened Frontmatter

  // A line of text: not blank, and with no return to lose at its end. It may be
  // indented itself.
  predicate IsTextLine(l: string) { TrimSpace(l) != "" && l[|l| - 1] != '\r' }

  predicate IsPad(pad: string) { forall i :: 0 <= i < |pad| ==> pad[i] == ' ' }

  // The lines as a block writes them: text after the pad, blank lines empty.
  function Padded(lines: seq<string>, pad: string): (r: seq<string>)
    ensures |r| == |lines|
    ensures forall i :: 0 <= i < |lines| ==> r[i] == if lines[i] == "" then "" else pad + lines[i]
  {
    seq(|lines|, i requires 0 <= i < |lines| => if lines[i] == "" then "" else pad + lines[i])
  }

  // Lines a block can hold: the last has text, and some line is not indented, so
  // that the pad can be told from the text.
  predicate IsBlock(lines: seq<string>) {
    && lines != [] && lines[|lines| - 1] != ""
    && (forall i :: 0 <= i < |lines| ==> lines[i] == "" || IsTextLine(lines[i]))
    && exists i :: 0 <= i < |lines| && lines[i] != "" && Indent(lines[i]) == 0
  }

  // ---- One line ----

  lemma {:induction false} PadIndent(pad: string, l: string)
    requires IsPad(pad)
    ensures Indent(pad + l) == |pad| + Indent(l)
  {
    if pad == "" {
      assert pad + l == l;
    } else {
      PadIndent(pad[1..], l);
      assert (pad + l)[1..] == pad[1..] + l && (pad + l)[0] == ' ';
    }
  }

  lemma {:induction false} PadTrims(pad: string, l: string)
    requires IsPad(pad)
    ensures TrimSpace(pad + l) == TrimSpace(l)
  {
    if pad == "" {
      assert pad + l == l;
    } else {
      PadTrims(pad[1..], l);
      assert (pad + l)[1..] == pad[1..] + l && (pad + l)[0] == ' ';
    }
  }

  lemma PaddedRaw(pad: string, l: string)
    requires IsPad(pad) && (l == "" || IsTextLine(l))
    ensures Raw(if l == "" then "" else pad + l) == if l == "" then "" else pad + l
  {
    if l == "" {
      assert TrimEnd("", "\r") == "" && TrimSpace("") == "";
    } else {
      assert l != "";
      PadTrims(pad, l);
      assert (pad + l)[|pad + l| - 1] == l[|l| - 1];
      hide TrimSpace;
    }
  }

  // ---- The indent and the lines ----

  // Whether the lines that have text are all indented by width at least, and one
  // by just that.
  lemma {:induction false} IndentIs(cont: seq<string>, width: nat)
    requires forall i :: 0 <= i < |cont| && Raw(cont[i]) != "" ==> Indent(Raw(cont[i])) >= width
    ensures var b := BlockIndent(cont);
            && (b.Some? ==> b.value >= width)
            && ((exists i :: 0 <= i < |cont| && Raw(cont[i]) != "" && Indent(Raw(cont[i])) == width) ==> b == Some(width))
  {
    hide Raw, Indent;
    if cont != [] {
      var n := |cont| - 1;
      IndentIs(cont[..n], width);
      if i :| 0 <= i < |cont| && Raw(cont[i]) != "" && Indent(Raw(cont[i])) == width && i < n {
        assert Raw(cont[..n][i]) != "" && Indent(Raw(cont[..n][i])) == width;
      }
    }
  }

  lemma BlockIndentIs(lines: seq<string>, pad: string)
    requires IsBlock(lines) && IsPad(pad)
    ensures BlockIndent(Padded(lines, pad)) == Some(|pad|)
  {
    var cont := Padded(lines, pad);
    forall i | 0 <= i < |cont| ensures Raw(cont[i]) == cont[i] && (cont[i] != "" ==> Indent(cont[i]) == |pad| + Indent(lines[i])) {
      PaddedRaw(pad, lines[i]);
      PadIndent(pad, lines[i]);
    }
    var i :| 0 <= i < |lines| && lines[i] != "" && Indent(lines[i]) == 0;
    assert Raw(cont[i]) != "" && Indent(Raw(cont[i])) == |pad|;
    hide Raw, Indent, BlockIndent, IsTextLine;
    IndentIs(cont, |pad|);
  }

  lemma EndHasText(lines: seq<string>)
    requires lines != [] && lines[|lines| - 1] != ""
    ensures WithoutBlankEnd(lines) == lines
  {
  }

  lemma BlockLinesAre(lines: seq<string>, pad: string)
    requires IsBlock(lines) && IsPad(pad)
    ensures BlockLines(Padded(lines, pad)) == lines
  {
    var cont := Padded(lines, pad);
    BlockIndentIs(lines, pad);
    forall i | 0 <= i < |lines| ensures Unindented(Raw(cont[i]), |pad|) == lines[i] {
      PaddedRaw(pad, lines[i]);
      assert lines[i] != "" ==> (pad + lines[i])[|pad|..] == lines[i];
    }
    EndHasText(lines);
    hide Raw, Unindented, BlockIndent, WithoutBlankEnd, Padded, IsBlock;
    assert seq(|cont|, i requires 0 <= i < |cont| => Unindented(Raw(cont[i]), |pad|)) == lines;
  }

  // ---- Read back ----

  function Chomped(indicator: string, text: string): string {
    if '-' !in indicator && text != "" && '+' in indicator then text + "\n" else text
  }

  // A literal block reads as its lines.
  lemma LiteralReadsBack(lines: seq<string>, pad: string, indicator: string)
    requires IsBlock(lines) && IsPad(pad) && Begins(indicator, '|')
    ensures BlockScalar(indicator, Padded(lines, pad)) == Chomped(indicator, Join(lines, "\n"))
  {
    hide BlockLines, IsBlock, Join, Padded;
    BlockLinesAre(lines, pad);
  }

  // The lines of paragraphs, a blank line between each two.
  function ParagraphLines(ps: seq<seq<string>>): seq<string> {
    if ps == [] then [] else if |ps| == 1 then ps[0] else ParagraphLines(ps[..|ps| - 1]) + [""] + ps[|ps| - 1]
  }

  function JoinAll(ps: seq<seq<string>>): (r: seq<string>)
    ensures |r| == |ps| && forall i :: 0 <= i < |ps| ==> r[i] == Join(ps[i], " ")
  {
    seq(|ps|, i requires 0 <= i < |ps| => Join(ps[i], " "))
  }

  predicate IsParagraph(p: seq<string>) { p != [] && forall i :: 0 <= i < |p| ==> p[i] != "" }

  lemma {:induction false} JoinMore(a: seq<string>, x: string, sep: string)
    requires a != []
    ensures Join(a + [x], sep) == Join(a, sep) + sep + x
  {
    if |a| == 1 {
      assert (a + [x])[1..] == [x];
    } else {
      JoinMore(a[1..], x, sep);
      assert (a + [x])[1..] == a[1..] + [x];
    }
  }

  lemma FoldedMore(a: seq<string>, x: string)
    ensures Folded(a + [x]) ==
            Folded(a) + (if x == "" then "\n" else if a != [] && a[|a| - 1] != "" then " " else "") + x
  {
    assert (a + [x])[..|a|] == a;
  }

  lemma LastOf(before: seq<string>, p: seq<string>, n: nat)
    requires 0 < n < |p|
    ensures (before + p[..n])[|before + p[..n]| - 1] == p[n - 1] && p[..n + 1] == p[..n] + [p[n]]
    ensures before + p[..n] != []
  {
  }

  lemma SplitLast(before: seq<string>, p: seq<string>)
    requires p != []
    ensures before + p == before + p[..|p| - 1] + [p[|p| - 1]] && p == p[..|p| - 1] + [p[|p| - 1]] && p[..|p|] == p
  {
  }

  lemma JoinOne(x: string)
    ensures Join([x], " ") == x
  {
  }

  // A paragraph after a blank line, or first, folds to its lines and spaces.
  lemma {:induction false} FoldedParagraph(before: seq<string>, p: seq<string>)
    requires IsParagraph(p) && (before == [] || before[|before| - 1] == "")
    ensures Folded(before + p) == Folded(before) + Join(p, " ")
  {
    hide Folded, Join;
    var n := |p| - 1;
    SplitLast(before, p);
    FoldedMore(before + p[..n], p[n]);
    if n == 0 {
      JoinOne(p[0]);
      assert p[..0] == [] && before + [] == before;
    } else {
      FoldedParagraph(before, p[..n]);
      JoinMore(p[..n], p[n], " ");
      LastOf(before, p, n);
      hide IsParagraph;
      assert Folded(before) + Join(p[..n], " ") + " " + p[n] == Folded(before) + (Join(p[..n], " ") + " " + p[n]);
    }
  }

  lemma {:induction false} FoldedParagraphs(ps: seq<seq<string>>)
    requires ps != [] && forall i :: 0 <= i < |ps| ==> IsParagraph(ps[i])
    ensures Folded(ParagraphLines(ps)) == Join(JoinAll(ps), "\n")
  {
    if |ps| == 1 {
      assert Folded([]) == "";
      FoldedParagraph([], ps[0]);
      assert [] + ps[0] == ps[0];
    } else {
      var n := |ps| - 1;
      FoldedParagraphs(ps[..n]);
      var before := ParagraphLines(ps[..n]);
      FoldedMore(before, "");
      hide Folded, Join, ParagraphLines;
      FoldedParagraph(before + [""], ps[n]);
      assert JoinAll(ps) == JoinAll(ps[..n]) + [Join(ps[n], " ")];
      JoinMore(JoinAll(ps[..n]), Join(ps[n], " "), "\n");
      assert Folded(before) + "\n" + "" + Join(ps[n], " ") == Folded(before) + "\n" + Join(ps[n], " ");
      ParagraphMore(ps);
    }
  }

  lemma ParagraphMore(ps: seq<seq<string>>)
    requires |ps| > 1
    ensures ParagraphLines(ps) == ParagraphLines(ps[..|ps| - 1]) + [""] + ps[|ps| - 1]
  {
  }

  // A folded block reads as its paragraphs, each on one line.
  lemma FoldedReadsBack(ps: seq<seq<string>>, pad: string, indicator: string)
    requires ps != [] && (forall i :: 0 <= i < |ps| ==> IsParagraph(ps[i]))
    requires IsBlock(ParagraphLines(ps)) && IsPad(pad) && Begins(indicator, '>')
    ensures BlockScalar(indicator, Padded(ParagraphLines(ps), pad)) == Chomped(indicator, Join(JoinAll(ps), "\n"))
  {
    FoldedParagraphs(ps);
    hide BlockLines, IsBlock, Join, Padded, Folded, ParagraphLines;
    BlockLinesAre(ParagraphLines(ps), pad);
  }
}
