// The frontmatter of a SKILL.md (internal/skills/frontmatter.go): the parser,
// loop by loop, and the scalar printer it reads back.
module Frontmatter {
  import opened Prelude
  import opened Text
  import Escapes

  // ---- Strings and lines ----

  // The index of the first a followed by b, or |s|.
  function FindPair(s: string, a: char, b: char): (i: nat)
    ensures i <= |s|
  {
    if s == "" || (s[0] == a && |s| > 1 && s[1] == b) then 0 else 1 + FindPair(s[1..], a, b)
  }

  // One past the last c in s, or 0.
  function FindLast(s: string, c: char): (i: nat)
    ensures i <= |s|
  {
    if s == "" || s[|s| - 1] == c then |s| else FindLast(s[..|s| - 1], c)
  }

  function SplitLines(s: string): (lines: seq<string>)
    ensures lines != []
    decreases |s|
  {
    var n := Find(s, '\n');
    if n == |s| then [s] else [s[..n]] + SplitLines(s[n + 1..])
  }

  function Join(parts: seq<string>, sep: string): string {
    if parts == [] then "" else if |parts| == 1 then parts[0] else parts[0] + sep + Join(parts[1..], sep)
  }

  function ReplacePairs(s: string, c: char): string {
    if s == "" then ""
    else if |s| > 1 && s[0] == c && s[1] == c then [c] + ReplacePairs(s[2..], c)
    else [s[0]] + ReplacePairs(s[1..], c)
  }

  // ---- The scalars ----

  predicate IsIndented(line: string) { line != "" && (line[0] == ' ' || line[0] == '\t') }

  // A line that goes on with the key above it.
  predicate Continues(line: string) { TrimSpace(line) == "" || IsIndented(line) }

  function ContCount(block: seq<string>): (n: nat)
    ensures n <= |block|
  {
    if block == [] || !Continues(block[0]) then 0 else 1 + ContCount(block[1..])
  }

  // The trimmed texts of the lines that have any.
  function Texts(cont: seq<string>): seq<string> {
    if cont == [] then []
    else
      var last := TrimSpace(cont[|cont| - 1]);
      Texts(cont[..|cont| - 1]) + if last == "" then [] else [last]
  }

  function JoinFolded(first: string, cont: seq<string>): string { Join([first] + Texts(cont), " ") }

  function DoubleQuoted(v: string): string {
    var end := FindLast(v, '"');
    var w := if end > 1 then v[..end] else v;
    var u := Escapes.Unquote(w);
    if u.Some? then u.value else TrimEnd(TrimStart(w, "\""), "\"")
  }

  function SingleQuoted(v: string): string {
    var end := FindLast(v, '\'');
    var w := if end > 1 then v[1..end - 1] else if v != "" && v[0] == '\'' then v[1..] else v;
    ReplacePairs(w, '\'')
  }

  function StripComment(v: string): string { TrimSpace(v[..FindPair(v, ' ', '#')]) }

  function Indent(line: string): nat { |line| - |TrimStart(line, " \t")| }

  // A block scalar's lines without their returns, blank ones empty.
  function Raw(line: string): string {
    var raw := TrimEnd(line, "\r");
    if TrimSpace(raw) == "" then "" else raw
  }

  // The least indent of the lines that have text, if any has.
  function BlockIndent(cont: seq<string>): Option<nat> {
    if cont == [] then None
    else
      var last, earlier := Raw(cont[|cont| - 1]), BlockIndent(cont[..|cont| - 1]);
      if last == "" then earlier
      else if earlier.None? || Indent(last) < earlier.value then Some(Indent(last)) else earlier
  }

  function Unindented(line: string, indent: nat): string { if |line| >= indent then line[indent..] else line }

  function WithoutBlankEnd(lines: seq<string>): seq<string> {
    if lines != [] && lines[|lines| - 1] == "" then WithoutBlankEnd(lines[..|lines| - 1]) else lines
  }

  // A blank line is a newline, and a break between two lines of text a space.
  function Folded(lines: seq<string>): string {
    if lines == [] then ""
    else
      var n := |lines| - 1;
      Folded(lines[..n]) +
      (if lines[n] == "" then "\n" else if n > 0 && lines[n - 1] != "" then " " else "") + lines[n]
  }

  function BlockLines(cont: seq<string>): seq<string> {
    var indent := BlockIndent(cont);
    WithoutBlankEnd(seq(|cont|, i requires 0 <= i < |cont| => Unindented(Raw(cont[i]), if indent.None? then 0 else indent.value)))
  }

  function BlockScalar(indicator: string, cont: seq<string>): string {
    var lines := BlockLines(cont);
    var text := if indicator != "" && indicator[0] == '|' then Join(lines, "\n") else Folded(lines);
    if '-' !in indicator && text != "" && '+' in indicator then text + "\n" else text
  }

  // ---- The parser ----

  predicate Begins(s: string, c: char) { s != "" && s[0] == c }

  function SetField(fields: map<string, string>, key: string, value: string, cont: seq<string>): map<string, string> {
    if Begins(value, '>') || Begins(value, '|') then fields[key := BlockScalar(value, cont)]
    else if Begins(value, '"') then fields[key := DoubleQuoted(JoinFolded(value, cont))]
    else if Begins(value, '\'') then fields[key := SingleQuoted(JoinFolded(value, cont))]
    else if value == "" then fields
    else fields[key := StripComment(JoinFolded(value, cont))]
  }

  predicate IsSkipped(line: string) { line == "" || Begins(TrimSpace(line), '#') || IsIndented(line) || ':' !in line }

  // The fields of the lines between the fences, put after some already read.
  function Fields(block: seq<string>, fields: map<string, string>): map<string, string> {
    if block == [] then fields
    else
      var line := TrimEnd(block[0], "\r");
      if IsSkipped(line) then Fields(block[1..], fields)
      else
        var colon, n := Find(line, ':'), ContCount(block[1..]);
        Fields(block[n + 1..], SetField(fields, TrimSpace(line[..colon]), TrimSpace(line[colon + 1..]), block[1..n + 1]))
  }

  predicate IsFence(line: string) { TrimEnd(line, " \t\r") == "---" }

  function FindFence(lines: seq<string>): (i: nat)
    ensures i <= |lines|
  {
    if lines == [] || IsFence(lines[0]) then 0 else 1 + FindFence(lines[1..])
  }

  datatype Parsed = Parsed(fields: map<string, string>, body: string) | NoFrontmatter(body: string) | Unclosed(body: string)

  const BOM := '\U{FEFF}'

  function WithoutMark(content: string): string { if Begins(content, BOM) then content[1..] else content }

  function Parse(content: string): Parsed {
    var text := WithoutMark(content);
    var lines := SplitLines(text);
    if !IsFence(lines[0]) then NoFrontmatter(text)
    else
      var end := FindFence(lines[1..]);
      if end == |lines| - 1 then Unclosed(text)
      else Parsed(Fields(lines[1..end + 1], map[]), Join(lines[end + 2..], "\n"))
  }

  // ---- The loops ----

  method JoinFoldedLines(first: string, cont: seq<string>) returns (r: string)
    ensures r == JoinFolded(first, cont)
  {
    var parts := [first];
    for i := 0 to |cont|
      invariant parts == [first] + Texts(cont[..i])
    {
      assert cont[..i + 1][..i] == cont[..i];
      var t := TrimSpace(cont[i]);
      if t != "" {
        parts := parts + [t];
      }
    }
    assert cont[..|cont|] == cont;
    r := Join(parts, " ");
  }

  lemma NoIndent()
    ensures BlockIndent([]) == None
  {
  }

  lemma TrimSpaceOfNothing()
    ensures TrimSpace("") == ""
  {
  }

  lemma NextIndent(cont: seq<string>, i: nat)
    requires i < |cont|
    ensures var raw, earlier := Raw(cont[i]), BlockIndent(cont[..i]);
            BlockIndent(cont[..i + 1]) ==
            if raw == "" then earlier
            else if earlier.None? || Indent(raw) < earlier.value then Some(Indent(raw)) else earlier
  {
    hide Raw, Indent;
    assert cont[..i + 1][..i] == cont[..i];
  }

  method RawLines(cont: seq<string>) returns (lines: seq<string>, indent: int)
    ensures |lines| == |cont| && forall i :: 0 <= i < |cont| ==> lines[i] == Raw(cont[i])
    ensures indent == if BlockIndent(cont).None? then -1 else BlockIndent(cont).value
  {
    hide BlockIndent, TrimEnd, TrimSpace;
    indent := -1;
    lines := [];
    NoIndent();
    for i := 0 to |cont|
      invariant |lines| == i && forall k :: 0 <= k < i ==> lines[k] == Raw(cont[k])
      invariant indent == if BlockIndent(cont[..i]).None? then -1 else BlockIndent(cont[..i]).value
    {
      NextIndent(cont, i);
      TrimSpaceOfNothing();
      var raw := TrimEnd(cont[i], "\r");
      if TrimSpace(raw) == "" {
        lines := lines + [""];
      } else {
        var n := |raw| - |TrimStart(raw, " \t")|;
        if indent < 0 || n < indent {
          indent := n;
        }
        lines := lines + [raw];
      }
    }
    assert cont[..|cont|] == cont;
  }

  method FoldLines(lines: seq<string>) returns (out: string)
    ensures out == Folded(lines)
  {
    out := "";
    for i := 0 to |lines|
      invariant out == Folded(lines[..i])
    {
      assert lines[..i + 1][..i] == lines[..i];
      if lines[i] == "" {
        out := out + "\n";
      } else if i > 0 && lines[i - 1] != "" {
        out := out + " ";
      }
      out := out + lines[i];
    }
    assert lines[..|lines|] == lines;
  }

  method UnindentLines(raw: seq<string>, indent: int) returns (lines: seq<string>)
    ensures |lines| == |raw|
    ensures forall i :: 0 <= i < |raw| ==> lines[i] == Unindented(raw[i], if indent < 0 then 0 else indent)
  {
    lines := raw;
    for i := 0 to |lines|
      invariant |lines| == |raw|
      invariant forall k :: 0 <= k < i ==> lines[k] == Unindented(raw[k], if indent < 0 then 0 else indent)
      invariant forall k :: i <= k < |lines| ==> lines[k] == raw[k]
    {
      if indent > 0 && |lines[i]| >= indent {
        lines := lines[i := lines[i][indent..]];
      }
    }
  }

  method DropBlankEnd(lines: seq<string>) returns (r: seq<string>)
    ensures r == WithoutBlankEnd(lines)
  {
    r := lines;
    while |r| > 0 && r[|r| - 1] == ""
      invariant WithoutBlankEnd(lines) == WithoutBlankEnd(r)
    {
      r := r[..|r| - 1];
    }
  }

  method BlockScalarLines(indicator: string, cont: seq<string>) returns (out: string)
    ensures out == BlockScalar(indicator, cont)
  {
    hide Raw, Unindented, WithoutBlankEnd, Join, Folded;
    var raw, indent := RawLines(cont);
    var lines := UnindentLines(raw, indent);
    ghost var width := BlockIndent(cont);
    assert lines == seq(|cont|, i requires 0 <= i < |cont| => Unindented(Raw(cont[i]), if width.None? then 0 else width.value));
    lines := DropBlankEnd(lines);
    if indicator != "" && indicator[0] == '|' {
      out := Join(lines, "\n");
    } else {
      out := FoldLines(lines);
    }
    if '-' !in indicator && out != "" && '+' in indicator {
      out := out + "\n";
    }
  }

  method ReadField(fields: map<string, string>, key: string, value: string, cont: seq<string>) returns (r: map<string, string>)
    ensures r == SetField(fields, key, value, cont)
  {
    hide BlockScalar, JoinFolded, DoubleQuoted, SingleQuoted, StripComment;
    if Begins(value, '>') || Begins(value, '|') {
      var text := BlockScalarLines(value, cont);
      return fields[key := text];
    }
    if value == "" {
      return fields;
    }
    var text := JoinFoldedLines(value, cont);
    if Begins(value, '"') {
      r := fields[key := DoubleQuoted(text)];
    } else if Begins(value, '\'') {
      r := fields[key := SingleQuoted(text)];
    } else {
      r := fields[key := StripComment(text)];
    }
  }

  method CountContinuing(block: seq<string>, from: nat) returns (j: nat)
    requires from <= |block|
    ensures j == from + ContCount(block[from..])
  {
    j := from;
    while j < |block| && Continues(block[j])
      invariant from <= j <= |block|
      invariant from + ContCount(block[from..]) == j + ContCount(block[j..])
    {
      assert block[j..][1..] == block[j + 1..];
      j := j + 1;
    }
  }

  method ParseFields(block: seq<string>) returns (fields: map<string, string>)
    ensures fields == Fields(block, map[])
  {
    hide Fields, SetField, IsSkipped, TrimSpace, TrimEnd, Find, ContCount;
    fields := map[];
    var i := 0;
    assert block[0..] == block;
    while i < |block|
      invariant 0 <= i <= |block|
      invariant Fields(block, map[]) == Fields(block[i..], fields)
    {
      FieldsFrom(block, i, fields);
      var line := TrimEnd(block[i], "\r");
      if IsSkipped(line) {
        i := i + 1;
        continue;
      }
      var colon := Find(line, ':');
      SkippedOrColon(line);
      var key, value := TrimSpace(line[..colon]), TrimSpace(line[colon + 1..]);
      var j := CountContinuing(block, i + 1);
      fields := ReadField(fields, key, value, block[i + 1..j]);
      i := j;
    }
    NoFields(fields);
    assert block[i..] == [];
  }

  lemma NoFields(fields: map<string, string>)
    ensures Fields([], fields) == fields
  {
  }

  lemma SkippedOrColon(line: string)
    requires !IsSkipped(line)
    ensures Find(line, ':') < |line|
  {
  }

  lemma FieldsFrom(block: seq<string>, i: nat, fields: map<string, string>)
    requires i < |block|
    ensures var line := TrimEnd(block[i], "\r");
            var n := ContCount(block[i + 1..]);
            Fields(block[i..], fields) ==
            if IsSkipped(line) then Fields(block[i + 1..], fields)
            else
              var colon := Find(line, ':');
              Fields(block[i + 1 + n..],
                     SetField(fields, TrimSpace(line[..colon]), TrimSpace(line[colon + 1..]), block[i + 1..i + 1 + n]))
  {
    hide SetField, IsSkipped, TrimSpace, TrimEnd, Find;
    var n := ContCount(block[i + 1..]);
    assert block[i..][1..] == block[i + 1..];
    assert block[i..][n + 1..] == block[i + 1 + n..];
    assert block[i..][1..n + 1] == block[i + 1..i + 1 + n];
  }

  method ParseFrontmatter(content: string) returns (r: Parsed)
    ensures r == Parse(content)
  {
    hide Fields, SplitLines, Join, IsFence;
    var text := WithoutMark(content);
    var lines := SplitLines(text);
    if !IsFence(lines[0]) {
      return NoFrontmatter(text);
    }
    var end := 1;
    while end < |lines| && !IsFence(lines[end])
      invariant 1 <= end <= |lines|
      invariant 1 + FindFence(lines[1..]) == end + FindFence(lines[end..])
    {
      assert lines[end..][1..] == lines[end + 1..];
      end := end + 1;
    }
    if end == |lines| {
      return Unclosed(text);
    }
    assert lines[end..][0] == lines[end];
    var fields := ParseFields(lines[1..end]);
    r := Parsed(fields, Join(lines[end + 1..], "\n"));
  }

  // ---- The scalar printer ----

  predicate IsIndicator(c: char) { c in "!&*-?|>'\"%@`#[]{}," }

  // Plain when the parser reads it back unchanged.
  predicate IsPlain(v: string) {
    && v != "" && !IsIndicator(v[0]) && v[|v| - 1] != ':'
    && FindPair(v, ':', ' ') == |v| && FindPair(v, ' ', '#') == |v|
    && '\n' !in v && '\r' !in v && '\t' !in v
    && TrimSpace(v) == v
  }

  function YamlScalar(v: string, table: char -> bool): string {
    if IsPlain(v) then v else Escapes.Quote(v, table)
  }

  lemma FoldedAlone(v: string)
    ensures JoinFolded(v, []) == v
  {
    assert [v] + [] == [v];
  }

  lemma TrimsNothing(s: string)
    requires s != "" && !IsSpace(s[0]) && !IsSpace(s[|s| - 1])
    ensures TrimSpace(s) == s
  {
  }

  // A printed scalar is one line with nothing to trim, and reads as its value.
  lemma ScalarReads(v: string, table: char -> bool, fields: map<string, string>, key: string)
    ensures var w := YamlScalar(v, table);
            && w != "" && TrimSpace(w) == w && '\n' !in w && w[|w| - 1] != '\r'
            && SetField(fields, key, w, []) == fields[key := v]
  {
    var w := YamlScalar(v, table);
    FoldedAlone(w);
    if IsPlain(v) {
      hide TrimSpace, FindPair;
      assert v[..|v|] == v;
    } else {
      Escapes.QuoteIsOneLine(v, table);
      Escapes.QuoteRoundTrip(v, table);
      TrimsNothing(w);
      hide TrimSpace, JoinFolded, Escapes.Unquote, Escapes.QuoteBody;
      assert FindLast(w, '"') == |w| && w[..|w|] == w;
    }
  }

  // ---- Printed fields read back ----

  datatype Field = Field(key: string, value: string)

  predicate KeyOk(key: string) {
    && key != "" && TrimSpace(key) == key && !IsSpace(key[0]) && key[0] != '#'
    && ':' !in key && '\n' !in key
  }

  function FieldLine(f: Field, table: char -> bool): string { f.key + ": " + YamlScalar(f.value, table) }

  function FieldLines(fs: seq<Field>, table: char -> bool): seq<string> {
    if fs == [] then [] else [FieldLine(fs[0], table)] + FieldLines(fs[1..], table)
  }

  function Put(fields: map<string, string>, fs: seq<Field>): map<string, string>
    decreases |fs|
  {
    if fs == [] then fields else Put(fields[fs[0].key := fs[0].value], fs[1..])
  }

  lemma TrimFirst(s: string)
    requires s != "" && !IsSpace(s[0])
    ensures TrimSpace(s) != "" && TrimSpace(s)[0] == s[0]
  {
    TrimRightKeeps(s);
  }

  lemma {:induction false} TrimRightKeeps(s: string)
    requires s != "" && !IsSpace(s[0])
    ensures TrimRight(s) != "" && TrimRight(s)[0] == s[0]
  {
    if IsSpace(s[|s| - 1]) {
      TrimRightKeeps(s[..|s| - 1]);
    }
  }

  // A printed line is a key's, with its key and value where they are looked for.
  lemma LineShape(f: Field, table: char -> bool)
    requires KeyOk(f.key)
    ensures var line := FieldLine(f, table);
            && TrimEnd(line, "\r") == line && '\n' !in line
            && !IsSkipped(line) && !Continues(line) && !IsFence(line)
            && Find(line, ':') == |f.key| && line[..|f.key|] == f.key && line[|f.key| + 1..] == " " + YamlScalar(f.value, table)
  {
    var w := YamlScalar(f.value, table);
    var line := FieldLine(f, table);
    ScalarReads(f.value, table, map[], f.key);
    hide YamlScalar, TrimSpace, SetField;
    assert line == f.key + [':'] + (" " + w);
    FindAfter(f.key, ':', " " + w);
    TrimFirst(line);
    assert line[|line| - 1] == w[|w| - 1];
    if IsFence(line) {
      TrimEndShape(line, " \t\r");
      assert false;
    }
  }

  lemma {:induction false} TrimEndShape(s: string, cut: string)
    ensures var r := TrimEnd(s, cut);
            |r| <= |s| && s[..|r|] == r && forall i :: |r| <= i < |s| ==> IsIn(s[i], cut)
  {
    if s != "" && IsIn(s[|s| - 1], cut) {
      TrimEndShape(s[..|s| - 1], cut);
    }
  }

  lemma TrimAfterSpace(w: string)
    requires TrimSpace(w) == w
    ensures TrimSpace(" " + w) == w
  {
    assert (" " + w)[1..] == w;
  }

  lemma {:induction false} FieldsRead(fs: seq<Field>, table: char -> bool, fields: map<string, string>)
    requires forall f :: f in fs ==> KeyOk(f.key)
    ensures Fields(FieldLines(fs, table), fields) == Put(fields, fs)
  {
    if fs != [] {
      var f, rest := fs[0], FieldLines(fs[1..], table);
      var w, line := YamlScalar(f.value, table), FieldLine(f, table);
      assert f in fs;
      LineShape(f, table);
      ScalarReads(f.value, table, fields, f.key);
      TrimAfterSpace(w);
      NextIsKey(fs[1..], table);
      FieldsRead(fs[1..], table, fields[f.key := f.value]);
      hide SetField, IsSkipped, TrimSpace, TrimEnd, Find, Continues, YamlScalar, FieldLine, KeyOk, IsFence, Fields;
      OneField(line, rest, fields, w, f);
    }
  }

  lemma NextIsKey(fs: seq<Field>, table: char -> bool)
    requires forall f :: f in fs ==> KeyOk(f.key)
    ensures ContCount(FieldLines(fs, table)) == 0
  {
    if fs != [] {
      assert fs[0] in fs;
      LineShape(fs[0], table);
    }
  }

  lemma OneField(line: string, rest: seq<string>, fields: map<string, string>, w: string, f: Field)
    requires TrimEnd(line, "\r") == line && !IsSkipped(line) && ContCount(rest) == 0
    requires Find(line, ':') == |f.key| && line[..|f.key|] == f.key && line[|f.key| + 1..] == " " + w
    requires TrimSpace(f.key) == f.key && TrimSpace(" " + w) == w
    requires SetField(fields, f.key, w, []) == fields[f.key := f.value]
    ensures Fields([line] + rest, fields) == Fields(rest, fields[f.key := f.value])
  {
    hide SetField, IsSkipped, TrimSpace, TrimEnd, Find;
    var block := [line] + rest;
    assert block[1..] == rest && block[1..1] == [];
  }

  // ---- Lines and fences ----

  lemma SplitsFirst(l: string, rest: string)
    requires '\n' !in l
    ensures SplitLines(l + "\n" + rest) == [l] + SplitLines(rest)
  {
    var s := l + ['\n'] + rest;
    FindAfter(l, '\n', rest);
    assert s[..|l|] == l && s[|l| + 1..] == rest;
  }

  lemma OneLineSplits(l: string)
    requires '\n' !in l
    ensures SplitLines(l) == [l] && Join([l], "\n") == l
  {
    NotFound(l, '\n');
  }

  lemma {:induction false} SplitJoined(lines: seq<string>)
    requires lines != [] && forall l :: l in lines ==> '\n' !in l
    ensures SplitLines(Join(lines, "\n")) == lines
  {
    hide SplitLines, Join;
    assert lines[0] in lines && lines == [lines[0]] + lines[1..];
    if |lines| == 1 {
      assert lines == [lines[0]];
      OneLineSplits(lines[0]);
    } else {
      SplitJoined(lines[1..]);
      JoinFirst(lines[0], lines[1..], "\n");
      SplitsFirst(lines[0], Join(lines[1..], "\n"));
    }
  }

  lemma {:induction false} JoinSplit(s: string)
    ensures Join(SplitLines(s), "\n") == s && forall l :: l in SplitLines(s) ==> '\n' !in l
    decreases |s|
  {
    var n := Find(s, '\n');
    if n < |s| {
      JoinSplit(s[n + 1..]);
      assert s == s[..n] + "\n" + s[n + 1..];
      assert '\n' !in s[..n];
    }
  }

  lemma {:induction false} FenceAfter(lines: seq<string>, more: seq<string>)
    requires forall l :: l in lines ==> !IsFence(l)
    requires more != [] && IsFence(more[0])
    ensures FindFence(lines + more) == |lines|
  {
    if lines == [] {
      assert lines + more == more;
    } else {
      FenceAfter(lines[1..], more);
      assert lines[0] in lines;
      assert (lines + more)[1..] == lines[1..] + more;
    }
  }

  // A file with lines between two fences, and a body after them.
  function Document(lines: seq<string>, body: string): string {
    Join(["---"] + lines + (["---"] + SplitLines(body)), "\n")
  }

  lemma DocumentParses(lines: seq<string>, body: string)
    requires forall l :: l in lines ==> '\n' !in l && !IsFence(l)
    ensures Parse(Document(lines, body)) == Parsed(Fields(lines, map[]), body)
  {
    var rest := ["---"] + SplitLines(body);
    var all := ["---"] + lines + rest;
    var text := Document(lines, body);
    JoinSplit(body);
    FenceIsFence();
    hide Fields, SplitLines, IsFence;
    SplitJoined(all);
    JoinHead(all);
    hide Join;
    FenceAfter(lines, rest);
    AllParts(lines, SplitLines(body));
  }

  lemma AllParts(lines: seq<string>, tail: seq<string>)
    ensures var all := ["---"] + lines + (["---"] + tail);
            all[1..] == lines + (["---"] + tail) && all[1..|lines| + 1] == lines && all[|lines| + 2..] == tail
  {
  }

  lemma FenceIsFence()
    ensures IsFence("---")
  {
    assert "---"[|"---"| - 1] == '-';
    assert !IsIn('-', " \t\r");
  }

  lemma JoinHead(all: seq<string>)
    requires |all| > 1 && all[0] == "---"
    ensures Join(all, "\n") != "" && Join(all, "\n")[0] == '-'
  {
  }

  lemma {:induction false} FieldLinesOk(fs: seq<Field>, table: char -> bool)
    requires forall f :: f in fs ==> KeyOk(f.key)
    ensures forall l :: l in FieldLines(fs, table) ==> '\n' !in l && !IsFence(l)
  {
    if fs != [] {
      assert fs[0] in fs;
      LineShape(fs[0], table);
      hide FieldLine, IsFence, KeyOk;
      FieldLinesOk(fs[1..], table);
    }
  }

  // Any fields, each printed on a line of its own, are read back with their
  // exact values, and the body with them.
  lemma FieldsRoundTrip(fs: seq<Field>, body: string, table: char -> bool)
    requires forall f :: f in fs ==> KeyOk(f.key)
    ensures Parse(Document(FieldLines(fs, table), body)) == Parsed(Put(map[], fs), body)
  {
    FieldLinesOk(fs, table);
    FieldsRead(fs, table, map[]);
    hide Parse, Fields, FieldLines, IsFence, KeyOk, Document;
    DocumentParses(FieldLines(fs, table), body);
  }

  // ---- A new skill ----

  // The name rule for skills: lower-case words and digits with single hyphens
  // between them.
  predicate NameOk(name: string) {
    && 1 <= |name| <= 64 && name[0] != '-' && name[|name| - 1] != '-'
    && (forall i :: 0 <= i < |name| ==> 'a' <= name[i] <= 'z' || '0' <= name[i] <= '9' || name[i] == '-')
    && (forall i :: 0 <= i < |name| - 1 ==> !(name[i] == '-' && name[i + 1] == '-'))
  }

  function NewSkill(name: string, description: string, body: string, table: char -> bool): string {
    "---\nname: " + name + "\ndescription: " + YamlScalar(description, table) + "\n---\n" + body
  }

  lemma {:induction false} NoPair(v: string, a: char, b: char)
    requires a !in v
    ensures FindPair(v, a, b) == |v|
  {
    if v != "" {
      assert v[0] in v;
      NoPair(v[1..], a, b);
    }
  }

  lemma NameIsPlain(name: string)
    requires NameOk(name)
    ensures IsPlain(name)
  {
    NoPair(name, ':', ' ');
    NoPair(name, ' ', '#');
    TrimsNothing(name);
    hide TrimSpace, FindPair;
  }

  // The file of a new skill parses to its name and exactly its description,
  // whatever the description is.
  lemma NewSkillRoundTrip(name: string, description: string, body: string, table: char -> bool)
    requires NameOk(name)
    ensures Parse(NewSkill(name, description, body, table)) ==
            Parsed(map["name" := name, "description" := description], body)
  {
    var fs := [Field("name", name), Field("description", description)];
    SkillLines(name, description, table);
    hide Parse, YamlScalar, IsPlain, NameOk, KeyOk, FieldLine;
    FieldsRoundTrip(fs, body, table);
    TwoLines(fs, table);
    JoinOfTwo(FieldLine(fs[0], table), FieldLine(fs[1], table), body);
    hide Put, FieldLines, Document;
    NewSkillText(name, YamlScalar(description, table), body);
  }

  lemma SkillLines(name: string, description: string, table: char -> bool)
    requires NameOk(name)
    ensures KeyOk("name") && KeyOk("description")
    ensures FieldLine(Field("name", name), table) == "name: " + name
    ensures FieldLine(Field("description", description), table) == "description: " + YamlScalar(description, table)
  {
    hide YamlScalar, IsPlain, NameOk, TrimSpace;
    TrimsNothing("name");
    TrimsNothing("description");
    NameIsPlain(name);
    PlainPrints(name, table);
  }

  lemma PlainPrints(v: string, table: char -> bool)
    requires IsPlain(v)
    ensures YamlScalar(v, table) == v
  {
  }

  lemma NewSkillText(name: string, w: string, body: string)
    ensures "---\n" + ("name: " + name) + "\n" + ("description: " + w) + "\n---\n" + body ==
            "---\nname: " + name + "\ndescription: " + w + "\n---\n" + body
  {
  }

  lemma TwoLines(fs: seq<Field>, table: char -> bool)
    requires |fs| == 2
    ensures FieldLines(fs, table) == [FieldLine(fs[0], table), FieldLine(fs[1], table)]
    ensures Put(map[], fs) == map[fs[0].key := fs[0].value][fs[1].key := fs[1].value]
  {
    hide FieldLine;
    assert fs[1..][1..] == [];
    assert FieldLines(fs[1..], table) == [FieldLine(fs[1], table)] + FieldLines(fs[1..][1..], table);
    var first := map[fs[0].key := fs[0].value];
    assert Put(first, fs[1..]) == Put(first[fs[1].key := fs[1].value], fs[1..][1..]);
  }

  lemma JoinFirst(x: string, rest: seq<string>, sep: string)
    requires rest != []
    ensures Join([x] + rest, sep) == x + sep + Join(rest, sep)
  {
    assert ([x] + rest)[1..] == rest;
  }

  lemma JoinOfTwo(a: string, b: string, body: string)
    ensures Document([a, b], body) == "---\n" + a + "\n" + b + "\n---\n" + body
  {
    JoinSplit(body);
    hide Join, SplitLines;
    var rest := SplitLines(body);
    assert ["---"] + [a, b] + (["---"] + rest) == ["---"] + ([a] + ([b] + (["---"] + rest)));
    JoinFirst("---", rest, "\n");
    JoinFirst(b, ["---"] + rest, "\n");
    JoinFirst(a, [b] + (["---"] + rest), "\n");
    JoinFirst("---", [a] + ([b] + (["---"] + rest)), "\n");
    Regroup(a, b, body);
  }

  lemma Regroup(a: string, b: string, body: string)
    ensures "---" + "\n" + (a + "\n" + (b + "\n" + ("---" + "\n" + body))) == "---\n" + a + "\n" + b + "\n---\n" + body
  {
  }
}
