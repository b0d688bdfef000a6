// The switch for the skills Codex ships, edited in place in a hand-written
// config.toml (internal/skills/codexconfig.go editCodexBundled).
module CodexConfig {
  import opened Prelude
  import opened Text
  import opened Toml
  import opened TomlTables
  import opened TomlDoc

  const BUNDLED_TABLE := "[skills.bundled]"
  const ENABLED_LINE := "enabled = false"

  // ---- Lines that keep their endings ----

  function TomlLines(content: string): (lines: seq<string>)
    ensures lines != []
    decreases |content|
  {
    var n := Find(content, '\n');
    if n == |content| then [content] else [content[..n + 1]] + TomlLines(content[n + 1..])
  }

  function Concat(lines: seq<string>): string { if lines == [] then "" else lines[0] + Concat(lines[1..]) }

  // The line ending the file uses.
  function EolOf(content: string): string { if Contains(content, "\r\n") then "\r\n" else "\n" }

  predicate EndsLine(line: string) { line != "" && line[|line| - 1] == '\n' }

  predicate IsBlank(line: string) { TrimSpace(line) == "" }

  // ---- Reading ----

  predicate IsBundled(t: Table) { t.header == BUNDLED_TABLE }

  function Named(tables: seq<Table>): seq<Table> {
    if tables == [] then []
    else Named(tables[..|tables| - 1]) + if IsBundled(tables[|tables| - 1]) then [tables[|tables| - 1]] else []
  }

  function EnabledAt(keys: seq<Key>): (i: nat)
    ensures i <= |keys|
  {
    FirstKey(keys, "enabled")
  }

  // What the tables say: the last that says anything.
  function BundledOf(tables: seq<Table>): bool {
    if tables == [] then true
    else
      var keys := tables[|tables| - 1].keys;
      var i := EnabledAt(keys);
      if i < |keys| then !IsFalse(keys[i].value) else BundledOf(tables[..|tables| - 1])
  }

  function CodexBundled(content: string): bool { BundledOf(Named(ScanToml(TomlLines(content)).tables)) }

  // ---- Editing ----

  predicate EndsWord(c: char) { c == ' ' || c == '\t' || c == '#' || c == '\r' || c == '\n' }

  function WordRun(s: string): (n: nat)
    ensures n <= |s|
    ensures n < |s| ==> EndsWord(s[n])
    ensures forall i :: 0 <= i < n ==> !EndsWord(s[i])
  {
    if s == "" || EndsWord(s[0]) then 0 else 1 + WordRun(s[1..])
  }

  function GapRun(s: string): (n: nat)
    ensures n <= |s|
    ensures forall i :: 0 <= i < n ==> s[i] == ' ' || s[i] == '\t'
  {
    if s == "" || !(s[0] == ' ' || s[0] == '\t') then 0 else 1 + GapRun(s[1..])
  }

  // The parts of a `key = value` line: what follows the =, and of that the
  // value's first word on, and what follows the word.
  function Rest(line: string): string
    requires Find(line, '=') < |line|
  {
    line[Find(line, '=') + 1..]
  }

  function Word(line: string): string
    requires Find(line, '=') < |line|
  {
    Rest(line)[GapRun(Rest(line))..]
  }

  function Tail(line: string): string
    requires Find(line, '=') < |line|
  {
    Word(line)[WordRun(Word(line))..]
  }

  function NewGap(line: string): string
    requires Find(line, '=') < |line|
  {
    var gap := Rest(line)[..GapRun(Rest(line))];
    if gap == "" then " " else gap
  }

  // The value on a line swapped, and the rest of the line kept.
  function SetTomlValue(line: string, value: string): string {
    var eq := Find(line, '=');
    if eq == |line| then line else line[..eq + 1] + NewGap(line) + value + Tail(line)
  }

  function Ended(line: string, eol: string): string { if EndsLine(line) then line else line + eol }

  function InsertLine(lines: seq<string>, at: nat, line: string, eol: string): seq<string>
    requires 0 < at <= |lines|
  {
    lines[..at - 1] + [Ended(lines[at - 1], eol)] + [line + eol] + lines[at..]
  }

  // A table taken out, header to last key, with one blank line beside it.
  function DropTable(lines: seq<string>, t: Table): seq<string>
    requires 0 <= t.at <= t.end <= |lines|
  {
    if t.at > 0 && IsBlank(lines[t.at - 1]) then lines[..t.at - 1] + lines[t.end..]
    else if t.end < |lines| && IsBlank(lines[t.end]) then lines[..t.at] + lines[t.end + 1..]
    else lines[..t.at] + lines[t.end..]
  }

  function AppendTable(content: string, first: string, second: string): string {
    var eol := EolOf(content);
    (if content == "" then "" else Ended(content, eol) + eol) + first + eol + second + eol
  }

  predicate TableIn(t: Table, lines: seq<string>) {
    && 0 <= t.at < t.end <= |lines|
    && forall i :: 0 <= i < |t.keys| ==> t.keys[i].at < |lines|
  }

  function EditTable(lines: seq<string>, t: Table, on: bool, eol: string): seq<string>
    requires TableIn(t, lines)
  {
    var i := EnabledAt(t.keys);
    if !on && i < |t.keys| then lines[t.keys[i].at := SetTomlValue(lines[t.keys[i].at], "false")]
    else if !on then InsertLine(lines, t.at + 1, ENABLED_LINE, eol)
    else if i == |t.keys| || !IsFalse(t.keys[i].value) then lines
    else if |t.keys| == 1 then DropTable(lines, t)
    else lines[..t.keys[i].at] + lines[t.keys[i].at + 1..]
  }

  // Whether each table, last first, is where it was found when it is edited.
  predicate Fits(lines: seq<string>, tables: seq<Table>, eol: string) {
    tables == [] ||
    (var t := tables[|tables| - 1];
     TableIn(t, lines) && Fits(EditTable(lines, t, true, eol), tables[..|tables| - 1], eol))
  }

  // Turning on: every table, last first.
  function EditAll(lines: seq<string>, tables: seq<Table>, eol: string): seq<string>
    requires Fits(lines, tables, eol)
  {
    if tables == [] then lines
    else EditAll(EditTable(lines, tables[|tables| - 1], true, eol), tables[..|tables| - 1], eol)
  }

  lemma EditNothing(lines: seq<string>, eol: string)
    ensures Fits(lines, [], eol) && EditAll(lines, [], eol) == lines
  {
  }

  lemma EditLast(lines: seq<string>, tables: seq<Table>, eol: string)
    requires tables != [] && Fits(lines, tables, eol)
    ensures var init, t := tables[..|tables| - 1], tables[|tables| - 1];
            && TableIn(t, lines) && Fits(EditTable(lines, t, true, eol), init, eol)
            && EditAll(lines, tables, eol) == EditAll(EditTable(lines, t, true, eol), init, eol)
  {
    hide TableIn, EditTable;
  }

  // ---- What the edit says ----

  function DocAt(lines: seq<string>): Doc { DocOf(Kinds(Normal, lines)) }

  function FirstPair(ps: seq<Pair>, name: string): (i: nat)
    ensures i <= |ps| && (i < |ps| ==> ps[i].name == name)
    ensures forall k :: 0 <= k < i ==> ps[k].name != name
  {
    if ps == [] || ps[0].name == name then 0 else 1 + FirstPair(ps[1..], name)
  }

  // A table once the switch is on: a first false is taken out, and the table
  // with it when nothing else is in it.
  function SwitchedOn(e: Entry): seq<Entry> {
    var i := FirstPair(e.keys, "enabled");
    if e.header != BUNDLED_TABLE || i == |e.keys| || !IsFalse(e.keys[i].value) then [e]
    else if |e.keys| == 1 then []
    else [Entry(e.header, e.keys[..i] + e.keys[i + 1..])]
  }

  function AllSwitchedOn(es: seq<Entry>): seq<Entry> {
    if es == [] then [] else AllSwitchedOn(es[..|es| - 1]) + SwitchedOn(es[|es| - 1])
  }

  // ---- Text of one line ----

  predicate ModeOk(m: Mode) {
    (m.InString? ==> m.delim == TRIPLE_DOUBLE || m.delim == TRIPLE_SINGLE) && (m.InBrackets? ==> m.depth > 0)
  }

  lemma {:induction false} ModesOk(lines: seq<string>)
    ensures ModeOk(EndMode(Normal, lines))
  {
    hide KindOf, BracketDepth, Contains;
    if lines != [] {
      ModesOk(lines[..|lines| - 1]);
    }
  }

  lemma BlankIsNothing(m: Mode, line: string)
    requires IsBlank(line) && ModeOk(m)
    ensures KindOf(m, line) == Nothing && NextMode(m, line) == m
  {
    assert BracketDepth("") == 0;
    assert m.InString? ==> !Contains("", m.delim);
    hide TrimSpace;
  }

  predicate IsPlain(c: char) { !IsBareQuote(c) && c != '[' && c != ']' && c != '{' && c != '}' && c != '#' }

  lemma {:induction false} PlainDepth(s: string, tail: string)
    requires forall i :: 0 <= i < |s| ==> IsPlain(s[i])
    requires tail == "" || tail[0] == '#'
    ensures BracketDepth(s + tail) == 0
  {
    if s == "" {
      assert s + tail == tail;
    } else {
      PlainDepth(s[1..], tail);
      assert (s + tail)[1..] == s[1..] + tail;
    }
  }

  // A value that is false is all on its line.
  lemma FalseIsOneLine(value: string)
    requires IsFalse(value)
    ensures ModeAfterValue(value) == Normal
  {
    var n := Find(value, '#');
    var head := value[..n];
    var a, b := TrimShape(head);
    assert head == a + "false" + b;
    forall i | 0 <= i < |head| ensures IsPlain(head[i]) {
      assert head[i] in a || head[i] in "false" || head[i] in b;
    }
    PlainDepth(head, value[n..]);
    assert value == head + value[n..];
    assert !IsBareQuote(value[0]) by { assert value[0] == head[0]; }
    hide BracketDepth, TrimSpace, Contains;
  }

  // ---- Taking lines out ----

  // Lines from a to b taken out, both ends outside any value.
  lemma CutLines(lines: seq<string>, a: nat, b: nat)
    requires a <= b <= |lines| && EndMode(Normal, lines[..a]) == Normal && EndMode(Normal, lines[..b]) == Normal
    ensures var ks := Kinds(Normal, lines);
            Kinds(Normal, lines[..a] + lines[b..]) == ks[..a] + ks[b..]
  {
    hide EndMode, Kinds;
    KindsConcat(Normal, lines[..a], lines[a..]);
    KindsConcat(Normal, lines[..b], lines[b..]);
    KindsConcat(Normal, lines[..a], lines[b..]);
    assert lines == lines[..a] + lines[a..] && lines == lines[..b] + lines[b..];
  }

  lemma FirstIsFirst(keys: seq<Key>)
    ensures FirstPair(PairsOf(keys), "enabled") == EnabledAt(keys)
  {
    hide PairsOf;
    var ps := PairsOf(keys);
    var i, j := FirstPair(ps, "enabled"), EnabledAt(keys);
    if i < |ps| {
      assert keys[i].name == "enabled";
    }
  }

  // ---- One table switched on ----

  ghost predicate Among(lines: seq<string>, earlier: seq<Table>, t: Table, later: seq<Table>) {
    Around(Kinds(Normal, lines), earlier, t, later)
  }

  // What an edit that leaves the earlier tables as they are makes the file say.
  ghost predicate Leaves(lines: seq<string>, earlier: seq<Table>, es: seq<Entry>)
    requires earlier != []
  {
    var tables := TablesOf(Kinds(Normal, lines));
    && |tables| >= |earlier| && tables[..|earlier|] == earlier
    && DocAt(lines) == Doc(PairsOf(earlier[0].keys), EntriesOf(earlier[1..]) + es)
  }

  lemma InLines(lines: seq<string>, earlier: seq<Table>, t: Table, later: seq<Table>)
    requires Among(lines, earlier, t, later)
    ensures TableIn(t, lines)
  {
    var ks := Kinds(Normal, lines);
    Located(ks, earlier, t, later);
    hide TablesOf, Kinds;
    forall i | 0 <= i < |t.keys| ensures t.keys[i].at < |lines| {
      assert KeyAt(ks, earlier, t, i);
    }
  }

  // A key is on a line outside any value, and a false on no other line.
  lemma KeyOnLine(lines: seq<string>, earlier: seq<Table>, t: Table, later: seq<Table>, i: nat)
    requires Among(lines, earlier, t, later) && i < |t.keys|
    ensures var k := t.keys[i];
            && k.at < |lines| && EndMode(Normal, lines[..k.at]) == Normal
            && EndMode(Normal, lines[..k.at + 1]) == ModeAfterValue(k.value)
            && KindOf(Normal, lines[k.at]) == KeyLine(k.name, k.value)
  {
    var ks := Kinds(Normal, lines);
    AtKey(ks, earlier, t, later, i);
    SomethingIsNormal(Normal, lines, t.keys[i].at);
    hide TablesOf, Kinds, DocOf, PairsOf, EntriesOf, EndMode, KindOf;
  }

  // One of several keys taken out.
  lemma KeyTakenOut(lines: seq<string>, earlier: seq<Table>, t: Table, later: seq<Table>, i: nat)
    requires Among(lines, earlier, t, later) && i < |t.keys| && IsFalse(t.keys[i].value)
    ensures t.keys[i].at < |lines|
    ensures Leaves(lines[..t.keys[i].at] + lines[t.keys[i].at + 1..], earlier,
                   [Entry(t.header, PairsOf(t.keys)[..i] + PairsOf(t.keys)[i + 1..])] + EntriesOf(later))
  {
    var at, ks := t.keys[i].at, Kinds(Normal, lines);
    KeyOnLine(lines, earlier, t, later, i);
    FalseIsOneLine(t.keys[i].value);
    hide Kinds, EndMode, KindOf, ModeAfterValue;
    CutLines(lines, at, at + 1);
    hide IsFalse, KeyAt, TablesOf, DocOf;
    KeyCut(ks, earlier, t, later, i);
    Regroup(EntriesOf(earlier[1..]), [Entry(t.header, PairsOf(t.keys)[..i] + PairsOf(t.keys)[i + 1..])], EntriesOf(later));
  }

  lemma Regroup(a: seq<Entry>, b: seq<Entry>, c: seq<Entry>)
    ensures a + b + c == a + (b + c)
  {
  }

  // The end of a table that holds nothing but a false.
  lemma FalseTableEnds(lines: seq<string>, earlier: seq<Table>, t: Table, later: seq<Table>)
    requires Among(lines, earlier, t, later) && |t.keys| == 1 && IsFalse(t.keys[0].value)
    ensures TableIn(t, lines)
    ensures EndMode(Normal, lines[..t.at]) == Normal && EndMode(Normal, lines[..t.end]) == Normal
  {
    var ks := Kinds(Normal, lines);
    InLines(lines, earlier, t, later);
    KeyOnLine(lines, earlier, t, later, 0);
    FalseIsOneLine(t.keys[0].value);
    AtHead(ks, earlier, t, later);
    SomethingIsNormal(Normal, lines, t.at);
    hide TablesOf, Kinds, DocOf, PairsOf, EntriesOf, KindOf, ModeAfterValue, EndMode;
  }

  lemma BlankSaysNothing(lines: seq<string>, i: nat)
    requires i < |lines| && IsBlank(lines[i])
    ensures Kinds(Normal, lines)[i] == Nothing && EndMode(Normal, lines[..i]) == EndMode(Normal, lines[..i + 1])
  {
    hide KindOf, NextMode, IsBlank, Kinds, EndMode;
    KindAt(Normal, lines, i);
    NextLine(Normal, lines, i);
    ModesOk(lines[..i]);
    BlankIsNothing(EndMode(Normal, lines[..i]), lines[i]);
  }

  // The lines that go with a table that is dropped.
  function DropFrom(lines: seq<string>, t: Table): nat
    requires 0 <= t.at <= t.end <= |lines|
  {
    if t.at > 0 && IsBlank(lines[t.at - 1]) then t.at - 1 else t.at
  }

  function DropTo(lines: seq<string>, t: Table): nat
    requires 0 <= t.at <= t.end <= |lines|
  {
    if !(t.at > 0 && IsBlank(lines[t.at - 1])) && t.end < |lines| && IsBlank(lines[t.end]) then t.end + 1 else t.end
  }

  lemma DropsFrom(lines: seq<string>, earlier: seq<Table>, t: Table)
    requires HeadAt(Kinds(Normal, lines), earlier, t) && EndMode(Normal, lines[..t.at]) == Normal
    ensures var a := DropFrom(lines, t);
            a <= t.at && EndMode(Normal, lines[..a]) == Normal && TablesOf(Kinds(Normal, lines)[..a]) == earlier
  {
    hide TablesOf, Kinds, EndMode, IsBlank, Before;
    if t.at > 0 && IsBlank(lines[t.at - 1]) {
      BlankSaysNothing(lines, t.at - 1);
      NothingSaysNothing(Kinds(Normal, lines), t.at - 1);
    }
  }

  lemma DropsTo(lines: seq<string>, t: Table, d: Doc)
    requires 0 <= t.at <= t.end <= |lines| && EndMode(Normal, lines[..t.end]) == Normal
    requires DocOf(Kinds(Normal, lines)[t.end..]) == d
    ensures var b := DropTo(lines, t);
            t.end <= b <= |lines| && EndMode(Normal, lines[..b]) == Normal && DocOf(Kinds(Normal, lines)[b..]) == d
  {
    hide TablesOf, Kinds, DocOf, EndMode, IsBlank;
    if t.end < |lines| && IsBlank(lines[t.end]) {
      BlankSaysNothing(lines, t.end);
      NothingSaysNothing(Kinds(Normal, lines), t.end);
    }
  }

  lemma DropPoints(lines: seq<string>, earlier: seq<Table>, t: Table, later: seq<Table>)
    requires Among(lines, earlier, t, later) && |t.keys| == 1 && IsFalse(t.keys[0].value)
    ensures TableIn(t, lines)
    ensures var a, b, ks := DropFrom(lines, t), DropTo(lines, t), Kinds(Normal, lines);
            && a <= b <= |lines| && EndMode(Normal, lines[..a]) == Normal && EndMode(Normal, lines[..b]) == Normal
            && TablesOf(ks[..a]) == earlier && DocOf(ks[b..]) == Doc([], EntriesOf(later))
  {
    FalseTableEnds(lines, earlier, t, later);
    AtHead(Kinds(Normal, lines), earlier, t, later);
    hide TablesOf, Kinds, DocOf, PairsOf, EntriesOf, EndMode, IsBlank, IsFalse, Before, DropFrom, DropTo;
    DropsFrom(lines, earlier, t);
    DropsTo(lines, t, Doc([], EntriesOf(later)));
  }

  lemma DropIsCut(lines: seq<string>, t: Table)
    requires 0 <= t.at <= t.end <= |lines|
    ensures DropTable(lines, t) == lines[..DropFrom(lines, t)] + lines[DropTo(lines, t)..]
  {
    hide IsBlank;
  }

  lemma TableTakenOut(lines: seq<string>, earlier: seq<Table>, t: Table, later: seq<Table>)
    requires Among(lines, earlier, t, later) && |t.keys| == 1 && IsFalse(t.keys[0].value)
    ensures TableIn(t, lines)
    ensures Leaves(DropTable(lines, t), earlier, EntriesOf(later))
  {
    DropPoints(lines, earlier, t, later);
    DropIsCut(lines, t);
    hide TablesOf, Kinds, DocOf, EndMode, IsFalse, Among, DropTable, DropFrom, DropTo;
    var a, b := DropFrom(lines, t), DropTo(lines, t);
    CutLines(lines, a, b);
    TableCut(Kinds(Normal, lines), earlier, later, a, b);
  }

  // Whether the switch changes the table.
  predicate SaysFalse(t: Table) {
    IsBundled(t) && EnabledAt(t.keys) < |t.keys| && IsFalse(t.keys[EnabledAt(t.keys)].value)
  }

  lemma SwitchIs(t: Table)
    ensures var i := EnabledAt(t.keys);
            SwitchedOn(EntryOf(t)) ==
            if !SaysFalse(t) then [EntryOf(t)]
            else if |t.keys| == 1 then []
            else [Entry(t.header, PairsOf(t.keys)[..i] + PairsOf(t.keys)[i + 1..])]
  {
    FirstIsFirst(t.keys);
    hide FirstPair, EnabledAt, IsFalse;
  }

  lemma EditIs(lines: seq<string>, t: Table, eol: string)
    requires TableIn(t, lines) && IsBundled(t)
    ensures var i := EnabledAt(t.keys);
            EditTable(lines, t, true, eol) ==
            if !SaysFalse(t) then lines
            else if |t.keys| == 1 then DropTable(lines, t)
            else lines[..t.keys[i].at] + lines[t.keys[i].at + 1..]
  {
    hide EnabledAt, IsFalse, DropTable;
  }

  lemma OnStep(lines: seq<string>, earlier: seq<Table>, t: Table, later: seq<Table>, eol: string)
    requires Among(lines, earlier, t, later)
    ensures TableIn(t, lines)
    ensures Leaves(if IsBundled(t) then EditTable(lines, t, true, eol) else lines, earlier,
                   SwitchedOn(EntryOf(t)) + EntriesOf(later))
  {
    InLines(lines, earlier, t, later);
    SwitchIs(t);
    var i := EnabledAt(t.keys);
    if IsBundled(t) {
      EditIs(lines, t, eol);
    }
    hide Among, Leaves, DropTable, IsFalse, EnabledAt, EntriesOf, PairsOf, SwitchedOn, EditTable, TableIn;
    if !SaysFalse(t) {
      Unchanged(lines, earlier, t, later);
    } else if |t.keys| == 1 {
      assert i == 0;
      TableTakenOut(lines, earlier, t, later);
      assert [] + EntriesOf(later) == EntriesOf(later);
    } else {
      KeyTakenOut(lines, earlier, t, later, i);
    }
  }

  lemma Unchanged(lines: seq<string>, earlier: seq<Table>, t: Table, later: seq<Table>)
    requires Among(lines, earlier, t, later)
    ensures Leaves(lines, earlier, [EntryOf(t)] + EntriesOf(later))
  {
    SaysAll(Kinds(Normal, lines), earlier, t, later);
    Regroup(EntriesOf(earlier[1..]), [EntryOf(t)], EntriesOf(later));
    hide TablesOf, Kinds, DocOf, EntriesOf;
    assert (earlier + [t] + later)[..|earlier|] == earlier;
  }

  // A file whose tables begin as given has the last of them among the others.
  lemma LastAmong(lines: seq<string>, earlier: seq<Table>, t: Table, es: seq<Entry>)
    requires earlier != [] && Leaves(lines, earlier + [t], es)
    ensures var later := TablesOf(Kinds(Normal, lines))[|earlier| + 1..];
            Among(lines, earlier, t, later) && es == EntriesOf(later)
  {
    var tables := TablesOf(Kinds(Normal, lines));
    var later := tables[|earlier| + 1..];
    assert tables == earlier + [t] + later;
    SaysAll(Kinds(Normal, lines), earlier, t, later);
    hide TablesOf, Kinds, DocOf;
    assert (earlier + [t])[1..] == earlier[1..] + [t] && (earlier + [t])[0] == earlier[0];
    EntriesConcat(earlier[1..], [t]);
    assert EntriesOf([t]) == [EntryOf(t)];
    hide EntriesOf;
    Cancel(EntriesOf(earlier[1..]), EntryOf(t), es, EntryOf(t), EntriesOf(later));
  }

  lemma NamedNext(earlier: seq<Table>, t: Table)
    ensures Named(earlier + [t]) == Named(earlier) + if IsBundled(t) then [t] else []
  {
    assert (earlier + [t])[..|earlier|] == earlier;
    hide IsBundled;
  }

  lemma FitsNext(lines: seq<string>, tables: seq<Table>, t: Table, eol: string)
    requires TableIn(t, lines) && Fits(EditTable(lines, t, true, eol), tables, eol)
    ensures Fits(lines, tables + [t], eol)
    ensures EditAll(lines, tables + [t], eol) == EditAll(EditTable(lines, t, true, eol), tables, eol)
  {
    assert (tables + [t])[..|tables|] == tables;
    hide EditTable, TableIn;
  }

  lemma SwitchedNext(earlier: seq<Table>, t: Table)
    requires earlier != []
    ensures AllSwitchedOn(EntriesOf((earlier + [t])[1..])) == AllSwitchedOn(EntriesOf(earlier[1..])) + SwitchedOn(EntryOf(t))
  {
    assert (earlier + [t])[1..] == earlier[1..] + [t];
    EntriesConcat(earlier[1..], [t]);
    assert EntriesOf([t]) == [EntryOf(t)];
    hide EntriesOf, SwitchedOn;
    var es := EntriesOf(earlier[1..]);
    assert (es + [EntryOf(t)])[..|es|] == es;
  }

  // Each table among the earlier ones is switched on, and nothing else changes
  // in what the file says.
  lemma {:induction false} OnDown(lines: seq<string>, earlier: seq<Table>, es: seq<Entry>, eol: string)
    requires earlier != [] && !IsBundled(earlier[0]) && Leaves(lines, earlier, es)
    ensures Fits(lines, Named(earlier), eol)
    ensures DocAt(EditAll(lines, Named(earlier), eol)) ==
            Doc(PairsOf(earlier[0].keys), AllSwitchedOn(EntriesOf(earlier[1..])) + es)
    decreases |earlier|
  {
    var n := |earlier| - 1;
    var init, t := earlier[..n], earlier[n];
    if n == 0 {
      hide Kinds, DocOf, TablesOf;
      assert Named(earlier) == Named([]) && earlier[1..] == [];
    } else {
      assert earlier == init + [t] && init[0] == earlier[0];
      NamedNext(init, t);
      SwitchedNext(init, t);
      hide Leaves, DocAt, Kinds, TablesOf, EntriesOf, Named, Fits, EditAll, AllSwitchedOn, SwitchedOn, EditTable, TableIn, Among;
      LastAmong(lines, init, t, es);
      var later := TablesOf(Kinds(Normal, lines))[n + 1..];
      OnStep(lines, init, t, later, eol);
      Regroup(AllSwitchedOn(EntriesOf(init[1..])), SwitchedOn(EntryOf(t)), es);
      if IsBundled(t) {
        OnDown(EditTable(lines, t, true, eol), init, SwitchedOn(EntryOf(t)) + es, eol);
        FitsNext(lines, Named(init), t, eol);
      } else {
        OnDown(lines, init, SwitchedOn(EntryOf(t)) + es, eol);
        assert Named(init) + [] == Named(init);
      }
    }
  }

  lemma {:induction false} FirstHasNoHeader(ks: seq<Kind>)
    ensures TablesOf(ks)[0].header == "" && !IsBundled(TablesOf(ks)[0])
  {
    if ks != [] {
      FirstHasNoHeader(ks[..|ks| - 1]);
    }
  }

  lemma AllLeft(lines: seq<string>)
    ensures Leaves(lines, TablesOf(Kinds(Normal, lines)), [])
  {
    var tables := TablesOf(Kinds(Normal, lines));
    TablesSay(Kinds(Normal, lines));
    assert tables != [];
    hide TablesOf, Kinds, DocOf, EntriesOf;
    assert EntriesOf(tables[1..]) + [] == EntriesOf(tables[1..]);
    assert tables[..|tables|] == tables;
  }

  // Turning on takes a first false out of every table of the switch, and changes
  // nothing else in what the file says.
  lemma OnSays(lines: seq<string>, eol: string)
    ensures var tables := Named(ScanToml(lines).tables);
            && Fits(lines, tables, eol)
            && DocAt(EditAll(lines, tables, eol)) == Doc(DocAt(lines).lead, AllSwitchedOn(DocAt(lines).entries))
  {
    var ks := Kinds(Normal, lines);
    ScanIsOfKinds(START, lines, 0);
    FirstHasNoHeader(ks);
    AllLeft(lines);
    TablesSay(ks);
    hide Kinds, TablesOf, DocOf, Leaves, Fits, EditAll, Named;
    OnDown(lines, TablesOf(ks), [], eol);
    assert AllSwitchedOn(DocAt(lines).entries) + [] == AllSwitchedOn(DocAt(lines).entries);
  }
}
