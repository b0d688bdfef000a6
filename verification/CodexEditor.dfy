// The switch's loops (internal/skills/codexconfig.go tablesNamed, codexBundled,
// editCodexBundled), and the file that turning on does not turn on.
module CodexEditor {
  import opened Prelude
  import opened Text
  import opened Toml
  import opened TomlTables
  import opened TomlDoc
  import opened CodexConfig
  import opened CodexSwitch
  import opened CodexOff
  import opened CodexReadBack

  method TablesNamed(lines: seq<string>) returns (out: seq<Table>)
    ensures out == Named(ScanToml(lines).tables)
  {
    hide IsBundled, ScanToml;
    var all := FindTables(lines);
    out := [];
    for i := 0 to |all|
      invariant out == Named(all[..i])
    {
      assert all[..i + 1][..i] == all[..i];
      if IsBundled(all[i]) {
        out := out + [all[i]];
      }
    }
    assert all[..|all|] == all;
  }

  method ReadCodexBundled(content: string) returns (on: bool)
    ensures on == CodexBundled(content)
  {
    var tables := TablesNamed(TomlLines(content));
    hide IsFalse, EnabledAt, Named, ScanToml, TomlLines;
    on := true;
    for k := 0 to |tables|
      invariant on == BundledOf(tables[..k])
    {
      assert tables[..k + 1][..k] == tables[..k];
      var i := EnabledAt(tables[k].keys);
      if i < |tables[k].keys| {
        on := !IsFalse(tables[k].keys[i].value);
      }
    }
    assert tables[..|tables|] == tables;
  }

  // One table of the loop, its lines spliced in place.
  method EditOne(lines: seq<string>, t: Table, on: bool, eol: string) returns (r: seq<string>)
    requires TableIn(t, lines)
    ensures r == EditTable(lines, t, on, eol)
  {
    r := lines;
    var i := EnabledAt(t.keys);
    if !on && i < |t.keys| {
      r := r[t.keys[i].at := SetTomlValue(r[t.keys[i].at], "false")];
    } else if !on {
      r := InsertLine(r, t.at + 1, ENABLED_LINE, eol);
    } else if i < |t.keys| && IsFalse(t.keys[i].value) {
      if |t.keys| == 1 {
        r := DropTable(r, t);
      } else {
        r := r[..t.keys[i].at] + r[t.keys[i].at + 1..];
      }
    }
  }

  method EditCodexBundled(content: string, on: bool) returns (r: string)
    ensures r == EditBundled(content, on)
  {
    hide *;
    var lines := TomlLines(content);
    var eol := EolOf(content);
    var tables := TablesNamed(lines);
    if !on && |tables| == 0 {
      OffAppends(content);
      return AppendTable(content, BUNDLED_TABLE, ENABLED_LINE);
    }
    if on {
      OnIs(content);
    } else {
      OffEditsLast(content);
    }
    var i := |tables|;
    assert tables[..i] == tables;
    while i > 0
      invariant 0 <= i <= |tables|
      invariant on ==> Fits(lines, tables[..i], eol)
      invariant on ==> EditBundled(content, on) == Concat(EditAll(lines, tables[..i], eol))
      invariant !on ==> i == |tables| && lines == TomlLines(content)
    {
      var t := tables[i - 1];
      assert tables[..i][..i - 1] == tables[..i - 1];
      if on {
        EditLast(lines, tables[..i], eol);
      }
      lines := EditOne(lines, t, on, eol);
      i := i - 1;
      if !on {
        return Concat(lines);
      }
    }
    EditNothing(lines, eol);
    assert tables[..0] == [];
    r := Concat(lines);
  }

  lemma OffEditsLast(content: string)
    requires Named(ScanToml(TomlLines(content)).tables) != []
    ensures var lines := TomlLines(content);
            var tables := Named(ScanToml(lines).tables);
            && TableIn(tables[|tables| - 1], lines)
            && EditBundled(content, false) == Concat(EditTable(lines, tables[|tables| - 1], false, EolOf(content)))
  {
    LastFits(TomlLines(content));
    hide Named, TomlLines, EditTable, Concat, ScanToml, TableIn;
  }

  // ---- Where on does not turn on ----

  // A table that says false twice over: turning on takes out the first, and the
  // second still turns the switch off.
  lemma FalseTwiceStaysOff(content: string)
    requires content == Concat([BUNDLED_TABLE + "\n", ENABLED_LINE + "\n", ENABLED_LINE + "\n"])
    ensures !CodexBundled(EditBundled(content, true))
  {
    hide *;
    var head, line := BUNDLED_TABLE + "\n", ENABLED_LINE + "\n";
    var lines := [head] + [line] + [line];
    assert lines == [head, line, line];
    ThreeChunks(head, line);
    SaysAgain(lines);
    ThreeSay(head, line);
    TwiceStays();
    OnReadsBack(content);
  }

  lemma ThreeChunks(head: string, line: string)
    requires head == BUNDLED_TABLE + "\n" && line == ENABLED_LINE + "\n"
    ensures Chunks([head] + [line] + [line])
  {
  }

  const SAYS_FALSE := Pair("enabled", "false")

  lemma ThreeSay(head: string, line: string)
    requires head == BUNDLED_TABLE + "\n" && line == ENABLED_LINE + "\n"
    ensures DocAt([head] + [line] + [line]).entries == [Entry(BUNDLED_TABLE, [SAYS_FALSE, SAYS_FALSE])]
  {
    BundledKind("\n");
    EnabledLineKind("\n");
    FalseIsOneLine("false");
    ThreeKinds(head, line);
    DocOfThree();
    hide *;
    DocAtIs([head] + [line] + [line]);
  }

  lemma ThreeKinds(head: string, line: string)
    requires KindOf(Normal, head) == Header(BUNDLED_TABLE) && KindOf(Normal, line) == KeyLine("enabled", "false")
    requires ModeAfterValue("false") == Normal
    ensures Kinds(Normal, [head] + [line] + [line]) == [Header(BUNDLED_TABLE), KeyLine("enabled", "false"), KeyLine("enabled", "false")]
  {
    hide KindOf, ModeAfterValue;
    assert [] + [head] == [head];
    OneMore([], head);
    OneMore([head], line);
    OneMore([head] + [line], line);
  }

  lemma DocOfThree()
    ensures DocOf([Header(BUNDLED_TABLE), KeyLine("enabled", "false"), KeyLine("enabled", "false")]).entries ==
            [Entry(BUNDLED_TABLE, [SAYS_FALSE, SAYS_FALSE])]
  {
    var k := KeyLine("enabled", "false");
    DocNext([], Header(BUNDLED_TABLE));
    DocNext([Header(BUNDLED_TABLE)], k);
    DocNext([Header(BUNDLED_TABLE), k], k);
    assert [] + [Header(BUNDLED_TABLE)] == [Header(BUNDLED_TABLE)];
    assert [Header(BUNDLED_TABLE)] + [k] == [Header(BUNDLED_TABLE), k];
    assert [Header(BUNDLED_TABLE), k] + [k] == [Header(BUNDLED_TABLE), k, k];
    hide DocOf, AddPairs;
    var none: seq<Entry> := [];
    assert none + [Entry(BUNDLED_TABLE, [])] == [Entry(BUNDLED_TABLE, [])];
    AddToEntries([], none, Entry(BUNDLED_TABLE, []), [SAYS_FALSE]);
    assert none + [Entry(BUNDLED_TABLE, [SAYS_FALSE])] == [Entry(BUNDLED_TABLE, [SAYS_FALSE])];
    AddToEntries([], none, Entry(BUNDLED_TABLE, [SAYS_FALSE]), [SAYS_FALSE]);
    NoKinds();
    var no: seq<Pair> := [];
    assert no + [SAYS_FALSE] == [SAYS_FALSE] && [SAYS_FALSE] + [SAYS_FALSE] == [SAYS_FALSE, SAYS_FALSE];
  }

  lemma NoKinds()
    ensures DocOf([]) == Doc([], [])
  {
  }

  lemma DocNext(ks: seq<Kind>, k: Kind)
    ensures DocOf(ks + [k]) == StepDoc(DocOf(ks), k)
  {
    assert (ks + [k])[..|ks|] == ks;
    hide StepDoc;
  }

  lemma TwiceStays()
    ensures StaysOff([Entry(BUNDLED_TABLE, [SAYS_FALSE, SAYS_FALSE])])
  {
    FalseAlone();
    hide IsFalse;
    var keys := [SAYS_FALSE, SAYS_FALSE];
    assert keys[0 + 1..] == [SAYS_FALSE];
    assert FirstPair(keys, "enabled") == 0 && FirstPair([SAYS_FALSE], "enabled") == 0;
  }
}
