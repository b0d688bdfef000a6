// The switch as a whole: the file in, the file out, and what reading it back
// gives (internal/skills/codexconfig.go codexBundled, editCodexBundled).
module CodexSwitch {
  import opened Prelude
  import opened Text
  import opened Toml
  import opened TomlTables
  import opened TomlDoc
  import opened CodexConfig

  // ---- Lines and the file ----

  predicate IsChunk(l: string) { forall i :: 0 <= i < |l| - 1 ==> l[i] != '\n' }

  // Lines as a file is split into them; a last one may lack its ending.
  predicate Chunks(ls: seq<string>) {
    forall i :: 0 <= i < |ls| ==> IsChunk(ls[i]) && (i < |ls| - 1 ==> EndsLine(ls[i]))
  }

  lemma {:induction false} SplitChunks(content: string)
    ensures Chunks(TomlLines(content)) && Concat(TomlLines(content)) == content
    ensures !EndsLine(TomlLines(content)[|TomlLines(content)| - 1])
    decreases |content|
  {
    var n := Find(content, '\n');
    if n == |content| {
      assert Concat([content]) == content + Concat([content][1..]);
    } else {
      var rest := TomlLines(content[n + 1..]);
      SplitChunks(content[n + 1..]);
      var lines := [content[..n + 1]] + rest;
      assert lines[1..] == rest;
      assert content == content[..n + 1] + content[n + 1..];
    }
  }

  lemma {:induction false} FindEnd(l: string, rest: string)
    requires IsChunk(l) && EndsLine(l)
    ensures Find(l + rest, '\n') == |l| - 1
  {
    FindAfter(l[..|l| - 1], '\n', rest);
    assert l + rest == l[..|l| - 1] + ['\n'] + rest;
  }

  function Resplit(ls: seq<string>): seq<string> { if ls == [] || EndsLine(ls[|ls| - 1]) then ls + [""] else ls }

  lemma SplitsFirst(l: string, rest: string)
    requires IsChunk(l) && EndsLine(l)
    ensures TomlLines(l + rest) == [l] + TomlLines(rest)
  {
    FindEnd(l, rest);
    assert (l + rest)[..|l|] == l && (l + rest)[|l|..] == rest;
    hide IsChunk;
  }

  lemma ResplitNext(l: string, ls: seq<string>)
    requires ls != [] || EndsLine(l)
    ensures [l] + Resplit(ls) == Resplit([l] + ls)
  {
    hide EndsLine;
    if ls != [] {
      assert ([l] + ls)[|ls|] == ls[|ls| - 1];
    }
  }

  lemma {:induction false} SplitsAgain(ls: seq<string>)
    requires Chunks(ls)
    ensures TomlLines(Concat(ls)) == Resplit(ls)
  {
    if ls == [] {
      assert TomlLines("") == [""];
    } else if |ls| == 1 && !EndsLine(ls[0]) {
      assert ls[1..] == [];
      assert Concat(ls) == ls[0];
      NotFound(ls[0], '\n');
    } else {
      hide TomlLines, IsChunk, EndsLine, Resplit;
      SplitsAgain(ls[1..]);
      SplitsFirst(ls[0], Concat(ls[1..]));
      ResplitNext(ls[0], ls[1..]);
      assert ls == [ls[0]] + ls[1..];
    }
  }

  // An empty line at the end says nothing.
  lemma SaysAgain(ls: seq<string>)
    requires Chunks(ls)
    ensures DocAt(TomlLines(Concat(ls))) == DocAt(ls)
    ensures EndMode(Normal, TomlLines(Concat(ls))) == EndMode(Normal, ls)
  {
    SplitsAgain(ls);
    if Resplit(ls) != ls {
      var more := ls + [""];
      KindsConcat(Normal, ls, [""]);
      ModesOk(ls);
      BlankIsNothing(EndMode(Normal, ls), "");
      hide NextMode, KindOf;
      var m := EndMode(Normal, ls);
      assert [""][..0] == [];
      assert Kinds(m, [""]) == [Nothing] && EndMode(m, [""]) == m;
      assert (Kinds(Normal, ls) + [Nothing])[..|ls|] == Kinds(Normal, ls);
    }
  }

  // ---- Editing ----

  lemma {:induction false} NamedIsIn(tables: seq<Table>) returns (j: nat)
    requires Named(tables) != []
    ensures j < |tables| && IsBundled(tables[j]) && tables[j] == Named(tables)[|Named(tables)| - 1]
    ensures forall k :: j < k < |tables| ==> !IsBundled(tables[k])
  {
    var n := |tables| - 1;
    if IsBundled(tables[n]) {
      j := n;
    } else {
      assert Named(tables) == Named(tables[..n]);
      j := NamedIsIn(tables[..n]);
    }
  }

  // The last table of the switch, among the others.
  lemma LastNamed(lines: seq<string>) returns (earlier: seq<Table>, t: Table, later: seq<Table>)
    requires Named(ScanToml(lines).tables) != []
    ensures Among(lines, earlier, t, later) && IsBundled(t) && TableIn(t, lines)
    ensures t == Named(ScanToml(lines).tables)[|Named(ScanToml(lines).tables)| - 1]
    ensures forall k :: 0 <= k < |later| ==> !IsBundled(later[k])
    ensures ScanToml(lines).tables == earlier + [t] + later
  {
    hide TablesOf, Kinds, Named, IsBundled, TableIn, ScanToml;
    ScanTables(lines);
    var tables := TablesOf(Kinds(Normal, lines));
    FirstHasNoHeader(Kinds(Normal, lines));
    var j := NamedIsIn(tables);
    earlier, t, later := tables[..j], tables[j], tables[j + 1..];
    Apart(tables, j);
    assert Among(lines, earlier, t, later);
    InLines(lines, earlier, t, later);
  }

  lemma Apart<T>(xs: seq<T>, j: nat)
    requires j < |xs|
    ensures xs == xs[..j] + [xs[j]] + xs[j + 1..]
  {
  }

  lemma LastFits(lines: seq<string>)
    requires Named(ScanToml(lines).tables) != []
    ensures TableIn(Named(ScanToml(lines).tables)[|Named(ScanToml(lines).tables)| - 1], lines)
  {
    var earlier, t, later := LastNamed(lines);
  }

  function EditBundled(content: string, on: bool): string {
    var lines, eol := TomlLines(content), EolOf(content);
    var tables := Named(ScanToml(lines).tables);
    if on then
      OnSays(lines, eol);
      Concat(EditAll(lines, tables, eol))
    else if tables == [] then AppendTable(content, BUNDLED_TABLE, ENABLED_LINE)
    else
      LastFits(lines);
      Concat(EditTable(lines, tables[|tables| - 1], false, eol))
  }

  // A file with no table of the switch gets one at its end.
  lemma OffAppends(content: string)
    requires Named(ScanToml(TomlLines(content)).tables) == []
    ensures EditBundled(content, false) == AppendTable(content, BUNDLED_TABLE, ENABLED_LINE)
  {
    hide Named, TomlLines, AppendTable, ScanToml;
  }

  // What turning on does to the lines.
  lemma OnIs(content: string)
    ensures var lines := TomlLines(content);
            var tables := Named(ScanToml(lines).tables);
            Fits(lines, tables, EolOf(content)) && EditBundled(content, true) == Concat(EditAll(lines, tables, EolOf(content)))
  {
    OnSays(TomlLines(content), EolOf(content));
    hide TomlLines, Named, Fits, EditAll, Concat, ScanToml;
  }

  // ---- Reading back on ----

  // What the tables say of the switch: the last that says anything.
  function SaysOn(es: seq<Entry>): bool {
    if es == [] then true
    else
      var e := es[|es| - 1];
      var i := FirstPair(e.keys, "enabled");
      if e.header == BUNDLED_TABLE && i < |e.keys| then !IsFalse(e.keys[i].value) else SaysOn(es[..|es| - 1])
  }

  lemma SaysOnNext(es: seq<Entry>, e: Entry)
    ensures var i := FirstPair(e.keys, "enabled");
            SaysOn(es + [e]) == if e.header == BUNDLED_TABLE && i < |e.keys| then !IsFalse(e.keys[i].value) else SaysOn(es)
  {
    assert (es + [e])[..|es|] == es;
    hide FirstPair, IsFalse;
  }

  lemma BundledNext(tables: seq<Table>, t: Table)
    ensures var i := EnabledAt(t.keys);
            BundledOf(tables + [t]) == if i < |t.keys| then !IsFalse(t.keys[i].value) else BundledOf(tables)
  {
    assert (tables + [t])[..|tables|] == tables;
    hide EnabledAt, IsFalse;
  }

  lemma NothingNamed()
    ensures BundledOf(Named([])) && SaysOn(EntriesOf([]))
  {
  }

  lemma {:induction false} ReadsDoc(tables: seq<Table>)
    ensures BundledOf(Named(tables)) == SaysOn(EntriesOf(tables))
  {
    hide IsFalse, FirstPair, EnabledAt, SaysOn, BundledOf, Named, EntriesOf;
    if tables == [] {
      NothingNamed();
    } else {
      var init, t := tables[..|tables| - 1], tables[|tables| - 1];
      ReadsDoc(init);
      assert tables == init + [t];
      FirstIsFirst(t.keys);
      EntriesNext(init, t);
      NamedNext(init, t);
      SaysOnNext(EntriesOf(init), EntryOf(t));
      BundledNext(Named(init), t);
      assert Named(init) + [] == Named(init);
    }
  }

  lemma ReadsFile(content: string)
    ensures CodexBundled(content) == SaysOn(DocAt(TomlLines(content)).entries)
  {
    var lines := TomlLines(content);
    var ks := Kinds(Normal, lines);
    ScanIsOfKinds(START, lines, 0);
    FirstHasNoHeader(ks);
    TablesSay(ks);
    hide TablesOf, Kinds, DocOf, TomlLines;
    var tables := TablesOf(ks);
    assert tables == [tables[0]] + tables[1..];
    NamedTail(tables[0], tables[1..]);
    ReadsDoc(tables[1..]);
  }

  lemma {:induction false} NamedTail(first: Table, rest: seq<Table>)
    requires !IsBundled(first)
    ensures Named([first] + rest) == Named(rest)
  {
    var all := [first] + rest;
    if rest == [] {
      assert all[..0] == [];
      assert Named(all) == Named(all[..0]);
    } else {
      var n := |rest| - 1;
      NamedTail(first, rest[..n]);
      assert all[..|all| - 1] == [first] + rest[..n];
    }
  }

  lemma CutKeepsChunks(lines: seq<string>, a: nat, b: nat)
    requires a <= b <= |lines| && Chunks(lines)
    ensures Chunks(lines[..a] + lines[b..])
  {
    hide IsChunk, EndsLine;
  }

  lemma DropKeepsChunks(lines: seq<string>, t: Table)
    requires 0 <= t.at <= t.end <= |lines| && Chunks(lines)
    ensures Chunks(DropTable(lines, t))
  {
    DropIsCut(lines, t);
    hide DropTable, Chunks, IsBlank;
    CutKeepsChunks(lines, DropFrom(lines, t), DropTo(lines, t));
  }

  lemma {:induction false} EditKeepsChunks(lines: seq<string>, tables: seq<Table>, eol: string)
    requires Fits(lines, tables, eol) && Chunks(lines)
    requires forall t :: t in tables ==> IsBundled(t)
    ensures Chunks(EditAll(lines, tables, eol))
  {
    if tables != [] {
      var t := tables[|tables| - 1];
      var i := EnabledAt(t.keys);
      assert t in tables;
      EditIs(lines, t, eol);
      DropKeepsChunks(lines, t);
      if i < |t.keys| {
        CutKeepsChunks(lines, t.keys[i].at, t.keys[i].at + 1);
      }
      hide Chunks, EditTable, DropTable, SaysFalse, IsBundled, EnabledAt;
      EditKeepsChunks(EditTable(lines, t, true, eol), tables[..|tables| - 1], eol);
    }
  }

  lemma {:induction false} NamedAreBundled(tables: seq<Table>)
    ensures forall t :: t in Named(tables) ==> IsBundled(t)
  {
    if tables != [] {
      NamedAreBundled(tables[..|tables| - 1]);
    }
  }

  // Turning on takes a first false out of every table of the switch, and nothing
  // else changes in what the file says, the keys before any table included.
  lemma OnDoc(content: string)
    ensures DocAt(TomlLines(EditBundled(content, true))) ==
            Doc(DocAt(TomlLines(content)).lead, AllSwitchedOn(DocAt(TomlLines(content)).entries))
  {
    var lines, eol := TomlLines(content), EolOf(content);
    OnSays(lines, eol);
    SplitChunks(content);
    var tables := Named(ScanToml(lines).tables);
    NamedAreBundled(ScanToml(lines).tables);
    EditKeepsChunks(lines, tables, eol);
    hide TomlLines, DocAt, Named, EditAll, Fits, AllSwitchedOn, Chunks;
    SaysAgain(EditAll(lines, tables, eol));
  }

  // A table that still says something once a first false is out of it.
  predicate SaysStill(e: Entry) {
    var i := FirstPair(e.keys, "enabled");
    && e.header == BUNDLED_TABLE && i < |e.keys|
    && (IsFalse(e.keys[i].value) ==> FirstPair(e.keys[i + 1..], "enabled") < |e.keys| - i - 1)
  }

  // A table that says false twice over.
  predicate FalseTwice(e: Entry) {
    var i := FirstPair(e.keys, "enabled");
    && SaysStill(e) && IsFalse(e.keys[i].value)
    && IsFalse(e.keys[i + 1..][FirstPair(e.keys[i + 1..], "enabled")].value)
  }

  // Whether the table that still decides, once the switch is on, says false.
  predicate StaysOff(es: seq<Entry>) {
    es != [] &&
    var e := es[|es| - 1];
    if SaysStill(e) then FalseTwice(e) else StaysOff(es[..|es| - 1])
  }

  lemma {:induction false} FirstPairAfter(a: seq<Pair>, b: seq<Pair>, name: string)
    requires forall k :: 0 <= k < |a| ==> a[k].name != name
    ensures FirstPair(a + b, name) == |a| + FirstPair(b, name)
  {
    if a == [] {
      assert a + b == b;
    } else {
      FirstPairAfter(a[1..], b, name);
      assert (a + b)[1..] == a[1..] + b;
    }
  }

  // The first `enabled` of a table without the one before it.
  lemma FirstWithout(keys: seq<Pair>, i: nat)
    requires i == FirstPair(keys, "enabled") < |keys|
    ensures FirstPair(keys[..i] + keys[i + 1..], "enabled") == i + FirstPair(keys[i + 1..], "enabled")
  {
    hide FirstPair;
    FirstPairAfter(keys[..i], keys[i + 1..], "enabled");
  }

  lemma CutSays(es: seq<Entry>, header: string, keys: seq<Pair>, i: nat)
    requires header == BUNDLED_TABLE && i == FirstPair(keys, "enabled") < |keys|
    ensures var rest := keys[i + 1..];
            var k := FirstPair(rest, "enabled");
            SaysOn(es + [Entry(header, keys[..i] + rest)]) == if k < |rest| then !IsFalse(rest[k].value) else SaysOn(es)
  {
    FirstWithout(keys, i);
    SaysOnNext(es, Entry(header, keys[..i] + keys[i + 1..]));
    hide IsFalse, SaysOn, FirstPair;
    var rest := keys[i + 1..];
    var k := FirstPair(rest, "enabled");
    if k < |rest| {
      assert (keys[..i] + rest)[i + k] == rest[k];
    }
  }

  lemma SwitchedCut(es: seq<Entry>, e: Entry)
    requires SwitchedOn(e) != [e]
    ensures SaysOn(es + SwitchedOn(e)) == if SaysStill(e) then !FalseTwice(e) else SaysOn(es)
  {
    CutSays(es, e.header, e.keys, FirstPair(e.keys, "enabled"));
    hide IsFalse, SaysOn, FirstPair;
    if |e.keys| == 1 {
      assert e.keys[1..] == [];
      assert es + [] == es;
    }
  }

  // One table, switched on, before which others say es.
  lemma SwitchedSays(es: seq<Entry>, e: Entry)
    ensures SaysOn(es + SwitchedOn(e)) == if SaysStill(e) then !FalseTwice(e) else SaysOn(es)
  {
    hide IsFalse, SaysOn, FirstPair;
    if SwitchedOn(e) == [e] {
      SaysOnNext(es, e);
    } else {
      SwitchedCut(es, e);
    }
  }

  lemma {:induction false} SwitchedOnSays(es: seq<Entry>)
    ensures SaysOn(AllSwitchedOn(es)) == !StaysOff(es)
  {
    hide SaysStill, FalseTwice, SwitchedOn;
    if es != [] {
      var n := |es| - 1;
      SwitchedOnSays(es[..n]);
      SwitchedSays(AllSwitchedOn(es[..n]), es[n]);
    }
  }

  // Switched on, the file reads back as on exactly unless the table that still
  // decides says false twice over.
  lemma OnReadsBack(content: string)
    ensures CodexBundled(EditBundled(content, true)) <==> !StaysOff(DocAt(TomlLines(content)).entries)
  {
    hide EditBundled, TomlLines, DocAt, SaysOn, AllSwitchedOn, StaysOff, CodexBundled;
    OnDoc(content);
    ReadsFile(EditBundled(content, true));
    SwitchedOnSays(DocAt(TomlLines(content)).entries);
  }
}
