// The line scanner for Codex's config.toml (internal/skills/codexconfig.go
// scanTOML): tables and keys by line, multi-line values passed over.
module Toml {
  import opened Prelude
  import opened Text

  // ---- Strings ----

  predicate Contains(s: string, sub: string) { sub <= s || (s != "" && Contains(s[1..], sub)) }

  predicate IsBareQuote(c: char) { c == '"' || c == '\'' }

  function TrimQuotesLeft(s: string): string { if s != "" && IsBareQuote(s[0]) then TrimQuotesLeft(s[1..]) else s }

  function TrimQuotesRight(s: string): string {
    if s != "" && IsBareQuote(s[|s| - 1]) then TrimQuotesRight(s[..|s| - 1]) else s
  }

  function Unquote(s: string): string { TrimQuotesRight(TrimQuotesLeft(TrimSpace(s))) }

  // A header without its spaces and quotes.
  function BareKey(s: string): string {
    if s == "" then ""
    else (if s[0] == ' ' || s[0] == '\t' || IsBareQuote(s[0]) then "" else [s[0]]) + BareKey(s[1..])
  }

  // ---- One line ----

  predicate IsNamePart(c: char) { c != '[' && c != ']' && c != '=' && c != ',' && c != '#' }

  function NameRun(s: string): (n: nat)
    ensures n <= |s|
  {
    if s == "" || !IsNamePart(s[0]) then 0 else 1 + NameRun(s[1..])
  }

  predicate IsPatternSpace(c: char) { c == ' ' || c == '\t' || c == '\n' || c == '\r' || c == '\U{0C}' }

  function SpaceRun(s: string): (n: nat)
    ensures n <= |s|
  {
    if s == "" || !IsPatternSpace(s[0]) then 0 else 1 + SpaceRun(s[1..])
  }

  // [a.b] or [[a.b]], maybe with a comment after it.
  predicate IsHeader(line: string) {
    line != "" && line[0] == '[' &&
    var name := line[if |line| > 1 && line[1] == '[' then 2 else 1..];
    var n := NameRun(name);
    n > 0 && n < |name| && name[n] == ']' &&
    var tail := name[n + 1..];
    var rest := if tail != "" && tail[0] == ']' then tail[1..] else tail;
    SpaceRun(rest) == |rest| || rest[SpaceRun(rest)] == '#'
  }

  function AfterQuote(s: string, quote: char): (r: string)
    ensures |r| <= |s|
  {
    if s == "" then ""
    else if s[0] == quote then s[1..]
    else if quote == '"' && s[0] == '\\' then (if |s| > 1 then AfterQuote(s[2..], quote) else "")
    else AfterQuote(s[1..], quote)
  }

  // The brackets and braces a line opens less the ones it closes, strings and
  // a trailing comment aside.
  function BracketDepth(line: string): int
    decreases |line|
  {
    if line == "" || line[0] == '#' then 0
    else if line[0] == '[' || line[0] == '{' then 1 + BracketDepth(line[1..])
    else if line[0] == ']' || line[0] == '}' then BracketDepth(line[1..]) - 1
    else if IsBareQuote(line[0]) then BracketDepth(AfterQuote(line[1..], line[0]))
    else BracketDepth(line[1..])
  }

  const TRIPLE_DOUBLE := "\"\"\""
  const TRIPLE_SINGLE := "'''"

  // The delimiter of a multi-line string that value starts and does not close.
  function OpenString(value: string): string {
    if TRIPLE_DOUBLE <= value && !Contains(value[3..], TRIPLE_DOUBLE) then TRIPLE_DOUBLE
    else if TRIPLE_SINGLE <= value && !Contains(value[3..], TRIPLE_SINGLE) then TRIPLE_SINGLE
    else ""
  }

  // What a line is within: nothing, a multi-line string, or open brackets.
  datatype Mode = Normal | InString(delim: string) | InBrackets(depth: int)

  datatype Kind = Nothing | Header(name: string) | KeyLine(name: string, value: string)

  function KindOfText(line: string): Kind {
    if line == "" || line[0] == '#' then Nothing
    else if IsHeader(line) then Header(BareKey(line[..Find(line, '#')]))
    else
      var eq := Find(line, '=');
      if eq == |line| then Nothing else KeyLine(Unquote(line[..eq]), TrimSpace(line[eq + 1..]))
  }

  function KindOf(m: Mode, raw: string): Kind { if m.Normal? then KindOfText(TrimSpace(raw)) else Nothing }

  function ModeAfterValue(value: string): Mode {
    if OpenString(value) != "" then InString(OpenString(value))
    else if BracketDepth(value) > 0 then InBrackets(BracketDepth(value))
    else Normal
  }

  function NextMode(m: Mode, raw: string): Mode {
    match m
    case InString(delim) => if Contains(TrimSpace(raw), delim) then Normal else m
    case InBrackets(depth) =>
      var now := depth + BracketDepth(TrimSpace(raw));
      if now > 0 then InBrackets(now) else Normal
    case Normal =>
      var k := KindOf(Normal, raw);
      if k.KeyLine? then ModeAfterValue(k.value) else Normal
  }

  // ---- The tables ----

  datatype Key = Key(name: string, value: string, at: nat)

  // A table by line index: at is its header, end the line after its last key.
  datatype Table = Table(header: string, at: int, end: nat, keys: seq<Key>)

  function AddKey(t: Table, k: Key): Table { t.(keys := t.keys + [k], end := k.at + 1) }

  function StepTables(tables: seq<Table>, kind: Kind, i: nat): (r: seq<Table>)
    requires tables != []
    ensures |r| >= |tables|
  {
    match kind
    case Nothing => tables
    case Header(name) => tables + [Table(name, i, i + 1, [])]
    case KeyLine(name, value) =>
      var n := |tables| - 1;
      tables[..n] + [AddKey(tables[n], Key(name, value, i))]
  }

  datatype Scan = Scan(tables: seq<Table>, mode: Mode)

  function StepScan(s: Scan, raw: string, i: nat): (r: Scan)
    requires s.tables != []
    ensures |r.tables| >= |s.tables|
  {
    Scan(StepTables(s.tables, KindOf(s.mode, raw), i), NextMode(s.mode, raw))
  }

  // The scan of lines numbered from off, after an earlier one.
  function ScanFrom(s: Scan, lines: seq<string>, off: nat): (r: Scan)
    requires s.tables != []
    ensures |r.tables| >= |s.tables|
  {
    if lines == [] then s
    else
      var n := |lines| - 1;
      StepScan(ScanFrom(s, lines[..n], off), lines[n], off + n)
  }

  const START := Scan([Table("", -1, 0, [])], Normal)

  function ScanToml(lines: seq<string>): Scan { ScanFrom(START, lines, 0) }

  function FirstKey(keys: seq<Key>, name: string): (i: nat)
    ensures i <= |keys| && (i < |keys| ==> keys[i].name == name)
    ensures forall k :: 0 <= k < i ==> keys[k].name != name
  {
    if keys == [] || keys[0].name == name then 0 else 1 + FirstKey(keys[1..], name)
  }

  // Only the bare word false is false.
  predicate IsFalse(value: string) { TrimSpace(value[..Find(value, '#')]) == "false" }

  // ---- The loops ----

  method CountBrackets(line: string) returns (n: int)
    ensures n == BracketDepth(line)
  {
    n := 0;
    var i := 0;
    assert line[0..] == line;
    while i < |line|
      invariant 0 <= i <= |line|
      invariant BracketDepth(line) == n + BracketDepth(line[i..])
    {
      var c := line[i];
      ghost var left := line[i..];
      assert left[1..] == line[i + 1..];
      if c == '#' {
        return;
      } else if c == '[' || c == '{' {
        n := n + 1;
      } else if c == ']' || c == '}' {
        n := n - 1;
      } else if c == '"' || c == '\'' {
        i := SkipString(line, i + 1, c);
        continue;
      }
      i := i + 1;
    }
  }

  method SkipString(line: string, from: nat, quote: char) returns (i: nat)
    requires from <= |line|
    ensures from <= i <= |line| && line[i..] == AfterQuote(line[from..], quote)
  {
    i := from;
    while i < |line| && line[i] != quote
      invariant from <= i <= |line|
      invariant AfterQuote(line[from..], quote) == AfterQuote(line[i..], quote)
    {
      assert line[i..][1..] == line[i + 1..];
      if quote == '"' && line[i] == '\\' {
        if i + 1 == |line| {
          i := i + 1;
          break;
        }
        assert line[i..][2..] == line[i + 2..];
        i := i + 1;
      }
      i := i + 1;
    }
    if i < |line| {
      assert line[i..][1..] == line[i + 1..];
      i := i + 1;
    }
  }

  method FindTables(lines: seq<string>) returns (out: seq<Table>)
    ensures out == ScanToml(lines).tables
  {
    hide TrimSpace, IsHeader, BareKey, Unquote, BracketDepth, OpenString, Contains;
    out := [Table("", -1, 0, [])];
    var str, depth := "", 0;
    for i := 0 to |lines|
      invariant out != [] && out == ScanToml(lines[..i]).tables
      invariant ScanToml(lines[..i]).mode == if str != "" then InString(str) else if depth > 0 then InBrackets(depth) else Normal
      invariant str != "" ==> depth <= 0
    {
      assert lines[..i + 1][..i] == lines[..i];
      ghost var was := ScanToml(lines[..i]);
      assert ScanToml(lines[..i + 1]) == StepScan(was, lines[i], i);
      hide ScanFrom;
      var line := TrimSpace(lines[i]);
      if str != "" {
        if Contains(line, str) {
          str := "";
        }
        continue;
      }
      if depth > 0 {
        var more := CountBrackets(line);
        depth := depth + more;
        continue;
      }
      if line == "" || line[0] == '#' {
        continue;
      }
      if IsHeader(line) {
        out := out + [Table(BareKey(line[..Find(line, '#')]), i, i + 1, [])];
        continue;
      }
      var eq := Find(line, '=');
      if eq == |line| {
        continue;
      }
      var value := TrimSpace(line[eq + 1..]);
      str := OpenString(value);
      if str == "" {
        var open := CountBrackets(value);
        depth := Max(open, 0);
      }
      var last := |out| - 1;
      out := out[..last] + [AddKey(out[last], Key(Unquote(line[..eq]), value, i))];
    }
    assert lines[..|lines|] == lines;
  }
}
