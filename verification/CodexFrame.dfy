// What turning the switch on or off leaves alone, and what it takes along
// (internal/skills/codexconfig.go editCodexBundled, dropTable, setTOMLValue).
module CodexFrame {
  import opened Prelude
  import opened Text
  import opened Toml
  import opened TomlTables
  import opened TomlDoc
  import opened CodexConfig
  import opened CodexSwitch
  import opened CodexOff
  import opened CodexReadBack
  import opened CodexInverse

  // ---- Tables in order ----

  // A table's lines are among the file's, the last of them with text.
  predicate Lies(lines: seq<string>, t: Table) {
    && 0 <= t.at < t.end <= |lines| && !IsBlank(lines[t.end - 1])
    && forall i :: 0 <= i < |t.keys| ==> t.at < t.keys[i].at < t.end
  }

  predicate InOrder(lines: seq<string>, tables: seq<Table>) {
    && (forall k :: 0 <= k < |tables| ==> Lies(lines, tables[k]))
    && (forall j, k :: 0 <= j < k < |tables| ==> tables[j].end <= tables[k].at)
  }

  lemma KeysBefore(ks: seq<Kind>, earlier: seq<Table>, t: Table, i: nat)
    requires earlier != [] && TableAt(ks, earlier, t) && i < |t.keys|
    ensures t.at < t.keys[i].at < t.end
    decreases |t.keys| - i
  {
    hide TablesOf;
    assert KeyAt(ks, earlier, t, i);
    if i < |t.keys| - 1 {
      KeysBefore(ks, earlier, t, i + 1);
      assert KeyAt(ks, earlier, t, i + 1);
      KeyInPrefix(ks, earlier, t, i);
    }
  }

  // A key of a table comes before the next.
  lemma KeyInPrefix(ks: seq<Kind>, earlier: seq<Table>, t: Table, i: nat)
    requires TableAt(ks, earlier, t) && i < |t.keys| - 1 && KeyAt(ks, earlier, t, i + 1) && earlier != []
    ensures t.keys[i].at < t.keys[i + 1].at
  {
    var part := ks[..t.keys[i + 1].at];
    var was := Before(t, i + 1);
    assert (earlier + [was])[|earlier|] == was && (earlier + [was])[..|earlier|] == earlier;
    FindsTable(part, |earlier|);
    hide TablesOf;
    assert KeyAt(part, earlier, was, i);
  }

  lemma TableEndsBefore(ks: seq<Kind>, j: nat, k: nat)
    requires 0 < j < k < |TablesOf(ks)|
    ensures TablesOf(ks)[j].end <= TablesOf(ks)[k].at
  {
    var tables := TablesOf(ks);
    FindsTable(ks, k);
    var part := ks[..tables[k].at];
    assert TablesOf(part) == tables[..k];
    FindsTable(part, j);
  }

  // The last line of a table is its header's or a key's.
  lemma LastIsSomething(lines: seq<string>, earlier: seq<Table>, t: Table)
    requires TableAt(Kinds(Normal, lines), earlier, t)
    ensures !IsBlank(lines[t.end - 1])
  {
    var ks := Kinds(Normal, lines);
    var n := t.end - 1;
    assert !ks[n].Nothing? by {
      hide TablesOf, Kinds;
      if t.keys != [] {
        assert KeyAt(ks, earlier, t, |t.keys| - 1);
      }
    }
    if IsBlank(lines[n]) {
      BlankSaysNothing(lines, n);
    }
  }

  lemma TableLies(lines: seq<string>, earlier: seq<Table>, t: Table)
    requires earlier != [] && TableAt(Kinds(Normal, lines), earlier, t)
    ensures Lies(lines, t)
  {
    LastIsSomething(lines, earlier, t);
    forall i | 0 <= i < |t.keys| ensures t.at < t.keys[i].at < t.end {
      KeysBefore(Kinds(Normal, lines), earlier, t, i);
    }
    hide TablesOf, Kinds, IsBlank, KeyAt;
  }

  lemma TablesInOrder(lines: seq<string>)
    ensures var tables := ScanToml(lines).tables;
            tables != [] && !IsBundled(tables[0]) && InOrder(lines, tables[1..])
  {
    hide *;
    var ks := Kinds(Normal, lines);
    ScanTables(lines);
    SomeTable(ks);
    FirstHasNoHeader(ks);
    var tables := TablesOf(ks);
    forall k | 0 < k < |tables| ensures Lies(lines, tables[k]) {
      FindsTable(ks, k);
      TableLies(lines, tables[..k], tables[k]);
    }
    forall j, k | 0 < j < k < |tables| ensures tables[j].end <= tables[k].at {
      TableEndsBefore(ks, j, k);
    }
    OrderFromOne(lines, tables);
  }

  lemma OrderFromOne(lines: seq<string>, tables: seq<Table>)
    requires tables != [] && forall k :: 0 < k < |tables| ==> Lies(lines, tables[k])
    requires forall j, k :: 0 < j < k < |tables| ==> tables[j].end <= tables[k].at
    ensures InOrder(lines, tables[1..])
  {
    hide Lies;
    var ts := tables[1..];
    assert forall k :: 0 <= k < |ts| ==> ts[k] == tables[k + 1];
  }

  predicate Listed(tables: seq<Table>, t: Table) { exists k :: 0 <= k < |tables| && tables[k] == t }

  lemma InOrderNext(lines: seq<string>, tables: seq<Table>, t: Table)
    ensures InOrder(lines, tables + [t]) <==>
            InOrder(lines, tables) && Lies(lines, t) && forall k :: 0 <= k < |tables| ==> tables[k].end <= t.at
  {
    hide Lies;
    var all := tables + [t];
    assert all[|tables|] == t && forall k :: 0 <= k < |tables| ==> all[k] == tables[k];
  }

  lemma ListedNext(tables: seq<Table>, t: Table, x: Table)
    ensures Listed(tables + [t], x) <==> Listed(tables, x) || x == t
  {
    if Listed(tables, x) {
      var k :| 0 <= k < |tables| && tables[k] == x;
      assert (tables + [t])[k] == x;
    }
    assert (tables + [t])[|tables|] == t;
  }

  lemma {:induction false} NamedInOrder(lines: seq<string>, tables: seq<Table>)
    requires InOrder(lines, tables)
    ensures InOrder(lines, Named(tables)) && forall k :: 0 <= k < |Named(tables)| ==> Listed(tables, Named(tables)[k])
  {
    if tables != [] {
      hide Lies, InOrder, IsBundled, Named;
      var init, t := tables[..|tables| - 1], tables[|tables| - 1];
      var named := Named(init);
      assert tables == init + [t];
      InOrderNext(lines, init, t);
      NamedInOrder(lines, init);
      NamedNext(init, t);
      InOrderNext(lines, named, t);
      ListedNext(init, t, t);
      forall k | 0 <= k < |named| ensures Listed(tables, named[k]) && named[k].end <= t.at {
        ListedNext(init, t, named[k]);
      }
      assert named + [] == named;
    }
  }

  // ---- The lines that stay ----

  // The lines of a table that turning the switch on takes out.
  predicate Touches(t: Table, i: nat) {
    SaysFalse(t) && if |t.keys| == 1 then t.at <= i < t.end else i == t.keys[EnabledAt(t.keys)].at
  }

  predicate Touched(tables: seq<Table>, i: nat) { exists k :: 0 <= k < |tables| && Touches(tables[k], i) }

  // The lines with text that no table takes out, in order.
  function Kept(lines: seq<string>, tables: seq<Table>): seq<string> {
    if lines == [] then []
    else
      var n := |lines| - 1;
      Kept(lines[..n], tables) + if IsBlank(lines[n]) || Touched(tables, n) then [] else [lines[n]]
  }

  function NonBlank(lines: seq<string>): seq<string> { Kept(lines, []) }

  // Lines past every table that takes any out.
  lemma {:induction false} KeptPast(a: seq<string>, b: seq<string>, tables: seq<Table>)
    requires forall i: nat :: |a| <= i ==> !Touched(tables, i)
    ensures Kept(a + b, tables) == Kept(a, tables) + NonBlank(b)
  {
    hide Touched, IsBlank;
    if b == [] {
      assert a + b == a && NonBlank(b) == [];
    } else {
      var n := |b| - 1;
      KeptPast(a, b[..n], tables);
      assert (a + b)[..|a + b| - 1] == a + b[..n];
      NothingTouched(n);
    }
  }

  lemma NothingTouched(i: nat)
    ensures !Touched([], i)
  {
  }

  // Lines a table does not touch are kept or not as without it.
  lemma {:induction false} KeptWithout(lines: seq<string>, tables: seq<Table>, t: Table)
    requires forall i :: 0 <= i < |lines| && !IsBlank(lines[i]) ==> !Touches(t, i)
    ensures Kept(lines, tables + [t]) == Kept(lines, tables)
  {
    if lines != [] {
      var n := |lines| - 1;
      KeptWithout(lines[..n], tables, t);
      TouchedNext(tables, t, n);
      hide Touches, Touched, IsBlank;
    }
  }

  lemma TouchedNext(tables: seq<Table>, t: Table, i: nat)
    ensures Touched(tables + [t], i) <==> Touched(tables, i) || Touches(t, i)
  {
    hide Touches;
    if Touched(tables, i) {
      var k :| 0 <= k < |tables| && Touches(tables[k], i);
      assert (tables + [t])[k] == tables[k];
    }
    if Touches(t, i) {
      assert (tables + [t])[|tables|] == t;
    }
  }

  // Past a table's lines nothing it or an earlier one takes out.
  lemma PastOrder(lines: seq<string>, tables: seq<Table>, at: nat)
    requires InOrder(lines, tables) && forall k :: 0 <= k < |tables| ==> tables[k].end <= at
    ensures forall i: nat :: at <= i ==> !Touched(tables, i)
  {
    forall i: nat, k | at <= i && 0 <= k < |tables| ensures !Touches(tables[k], i) {
      assert Lies(lines, tables[k]);
      hide InOrder, IsBlank, IsFalse;
    }
    hide Touches;
  }

  lemma {:induction false} KeptNone(lines: seq<string>, a: nat, b: nat, tables: seq<Table>)
    requires a <= b <= |lines| && forall i :: a <= i < b ==> IsBlank(lines[i]) || Touched(tables, i)
    ensures Kept(lines[..b], tables) == Kept(lines[..a], tables)
  {
    hide Touched, IsBlank;
    if a < b {
      KeptNone(lines, a, b - 1, tables);
      assert lines[..b][..b - 1] == lines[..b - 1];
    }
  }

  // What an edit of one table takes out, it takes out and nothing else.
  lemma CutKept(lines: seq<string>, tables: seq<Table>, t: Table, a: nat, b: nat)
    requires InOrder(lines, tables) && a <= b <= |lines| && forall k :: 0 <= k < |tables| ==> tables[k].end <= a
    requires forall i :: a <= i < b ==> IsBlank(lines[i]) || Touches(t, i)
    requires forall i: nat :: Touches(t, i) ==> a <= i < b
    ensures Kept(lines[..a] + lines[b..], tables) == Kept(lines, tables + [t])
    ensures InOrder(lines[..a] + lines[b..], tables)
  {
    hide *;
    PastOrder(lines, tables, a);
    TouchedWith(tables, t);
    CutInOrder(lines, tables, a, b);
    KeptPast(lines[..a], lines[b..], tables);
    KeptPast(lines[..b], lines[b..], tables + [t]);
    KeptNone(lines, a, b, tables + [t]);
    assert forall i :: 0 <= i < |lines[..a]| ==> lines[..a][i] == lines[i];
    KeptWithout(lines[..a], tables, t);
    assert lines == lines[..b] + lines[b..];
  }

  lemma TouchedWith(tables: seq<Table>, t: Table)
    ensures forall i: nat :: Touched(tables + [t], i) <==> Touched(tables, i) || Touches(t, i)
  {
    forall i: nat ensures Touched(tables + [t], i) <==> Touched(tables, i) || Touches(t, i) {
      TouchedNext(tables, t, i);
    }
  }

  lemma CutInOrder(lines: seq<string>, tables: seq<Table>, a: nat, b: nat)
    requires InOrder(lines, tables) && a <= b <= |lines| && forall k :: 0 <= k < |tables| ==> tables[k].end <= a
    ensures InOrder(lines[..a] + lines[b..], tables)
  {
    var cut := lines[..a] + lines[b..];
    forall k | 0 <= k < |tables| ensures Lies(cut, tables[k]) {
      assert Lies(lines, tables[k]);
      assert cut[tables[k].end - 1] == lines[tables[k].end - 1];
      hide IsBlank;
    }
    hide Lies;
  }

  lemma StepKept(lines: seq<string>, tables: seq<Table>, t: Table, eol: string)
    requires InOrder(lines, tables + [t]) && IsBundled(t) && TableIn(t, lines)
    ensures Kept(EditTable(lines, t, true, eol), tables) == Kept(lines, tables + [t])
    ensures InOrder(EditTable(lines, t, true, eol), tables)
  {
    InOrderNext(lines, tables, t);
    EditIs(lines, t, eol);
    hide EditTable, InOrder, Kept, IsFalse, EnabledAt, DropTable;
    if !SaysFalse(t) {
      KeptWithout(lines, tables, t);
    } else if |t.keys| == 1 {
      DropIsCut(lines, t);
      DropPast(lines, tables, t);
      DropTouches(lines, t);
      CutKept(lines, tables, t, DropFrom(lines, t), DropTo(lines, t));
    } else {
      var at := t.keys[EnabledAt(t.keys)].at;
      CutKept(lines, tables, t, at, at + 1);
    }
  }

  // The blank line a dropped table takes with it is no earlier table's.
  lemma DropPast(lines: seq<string>, tables: seq<Table>, t: Table)
    requires InOrder(lines, tables) && Lies(lines, t) && forall k :: 0 <= k < |tables| ==> tables[k].end <= t.at
    ensures forall k :: 0 <= k < |tables| ==> tables[k].end <= DropFrom(lines, t)
  {
    forall k | 0 <= k < |tables| ensures tables[k].end <= DropFrom(lines, t) {
      assert Lies(lines, tables[k]);
      hide InOrder, IsBlank;
    }
  }

  lemma DropTouches(lines: seq<string>, t: Table)
    requires Lies(lines, t) && SaysFalse(t) && |t.keys| == 1
    ensures var a, b := DropFrom(lines, t), DropTo(lines, t);
            && a <= b <= |lines| && (forall i :: a <= i < b ==> IsBlank(lines[i]) || Touches(t, i))
            && forall i: nat :: Touches(t, i) ==> a <= i < b
  {
    hide IsBlank, SaysFalse, EnabledAt;
  }

  lemma NoneKept(lines: seq<string>)
    ensures NonBlank(lines) == Kept(lines, [])
  {
  }

  lemma {:induction false} EditKept(lines: seq<string>, tables: seq<Table>, eol: string)
    requires InOrder(lines, tables) && Fits(lines, tables, eol) && forall k :: 0 <= k < |tables| ==> IsBundled(tables[k])
    ensures NonBlank(EditAll(lines, tables, eol)) == Kept(lines, tables)
    decreases |tables|
  {
    hide *;
    if tables == [] {
      EditNothing(lines, eol);
      NoneKept(lines);
    } else {
      var init, t := tables[..|tables| - 1], tables[|tables| - 1];
      assert tables == init + [t];
      EditLast(lines, tables, eol);
      StepKept(lines, init, t, eol);
      EditKept(EditTable(lines, t, true, eol), init, eol);
    }
  }

  lemma BundledInOrder(lines: seq<string>)
    ensures InOrder(lines, Named(ScanToml(lines).tables))
  {
    hide *;
    var tables := ScanToml(lines).tables;
    TablesInOrder(lines);
    assert tables == [tables[0]] + tables[1..];
    NamedTail(tables[0], tables[1..]);
    NamedInOrder(lines, tables[1..]);
  }

  // Turning the switch on leaves every line with text as it was, byte for byte
  // and in order, but the lines that say false: with nothing else in the table,
  // its header and what is between.
  lemma OnLeavesTheRest(content: string)
    ensures var lines := TomlLines(content);
            var tables := Named(ScanToml(lines).tables);
            && Fits(lines, tables, EolOf(content))
            && EditBundled(content, true) == Concat(EditAll(lines, tables, EolOf(content)))
            && NonBlank(EditAll(lines, tables, EolOf(content))) == Kept(lines, tables)
  {
    hide *;
    var lines := TomlLines(content);
    var tables := ScanToml(lines).tables;
    OnIs(content);
    BundledInOrder(lines);
    AllBundled(tables);
    EditKept(lines, Named(tables), EolOf(content));
  }

  lemma AllBundled(tables: seq<Table>)
    ensures forall k :: 0 <= k < |Named(tables)| ==> IsBundled(Named(tables)[k])
  {
    NamedAreBundled(tables);
    hide IsBundled, Named;
  }

  // ---- When nothing else is lost ----

  // A line that only says that the switch is off: the false, and the header of a
  // table with nothing else in it.
  predicate IsSwitchLine(t: Table, i: nat) {
    SaysFalse(t) && (i == t.keys[EnabledAt(t.keys)].at || (|t.keys| == 1 && i == t.at))
  }

  predicate SwitchLine(tables: seq<Table>, i: nat) { exists k :: 0 <= k < |tables| && IsSwitchLine(tables[k], i) }

  // The lines with text that do not say that the switch is off, in order.
  function OtherLines(lines: seq<string>, tables: seq<Table>): seq<string> {
    if lines == [] then []
    else
      var n := |lines| - 1;
      OtherLines(lines[..n], tables) + if IsBlank(lines[n]) || SwitchLine(tables, n) then [] else [lines[n]]
  }

  // A table that goes as a whole has nothing between its header and its key.
  predicate GoesClean(lines: seq<string>, t: Table) {
    SaysFalse(t) && |t.keys| == 1 ==>
      forall i :: 0 <= i < |lines| && t.at < i < t.end && i != t.keys[0].at ==> IsBlank(lines[i])
  }

  lemma SwitchLineGoes(lines: seq<string>, t: Table, i: nat)
    requires Lies(lines, t) && IsSwitchLine(t, i)
    ensures Touches(t, i) && t.at <= i < t.end
  {
    hide IsFalse, EnabledAt, IsBlank;
  }

  lemma CleanTouches(lines: seq<string>, t: Table, i: nat)
    requires Lies(lines, t) && GoesClean(lines, t) && Touches(t, i) && i < |lines| && !IsBlank(lines[i])
    ensures IsSwitchLine(t, i)
  {
    hide IsBlank;
  }

  lemma UncleanTouches(lines: seq<string>, t: Table) returns (i: nat)
    requires Lies(lines, t) && !GoesClean(lines, t)
    ensures i < |lines| && !IsBlank(lines[i]) && t.at <= i < t.end && Touches(t, i) && !IsSwitchLine(t, i)
  {
    hide IsBlank;
    i :| 0 <= i < |lines| && t.at < i < t.end && i != t.keys[0].at && !IsBlank(lines[i]);
  }

  // Whether a line with text is kept or says that the switch is off.
  predicate KeptOrSwitch(lines: seq<string>, tables: seq<Table>, i: nat)
    requires i < |lines|
  {
    !IsBlank(lines[i]) && Touched(tables, i) ==> SwitchLine(tables, i)
  }

  lemma {:induction false} KeptIff(lines: seq<string>, tables: seq<Table>)
    requires forall i :: 0 <= i < |lines| && SwitchLine(tables, i) ==> Touched(tables, i)
    ensures |Kept(lines, tables)| <= |OtherLines(lines, tables)|
    ensures Kept(lines, tables) == OtherLines(lines, tables) <==> forall i :: 0 <= i < |lines| ==> KeptOrSwitch(lines, tables, i)
  {
    hide IsBlank, Touched, SwitchLine;
    if lines != [] {
      var n := |lines| - 1;
      KeptIff(lines[..n], tables);
      assert forall i :: 0 <= i < n ==> (KeptOrSwitch(lines[..n], tables, i) <==> KeptOrSwitch(lines, tables, i));
      KeptNext(lines, tables, n);
      hide Kept, OtherLines;
      if KeptOrSwitch(lines, tables, n) {
        SameTail(Kept(lines[..n], tables), OtherLines(lines[..n], tables),
                 if IsBlank(lines[n]) || Touched(tables, n) then [] else [lines[n]]);
      }
    }
  }

  lemma KeptNext(lines: seq<string>, tables: seq<Table>, n: nat)
    requires n == |lines| - 1
    ensures Kept(lines, tables) == Kept(lines[..n], tables) + if IsBlank(lines[n]) || Touched(tables, n) then [] else [lines[n]]
    ensures OtherLines(lines, tables) ==
            OtherLines(lines[..n], tables) + if IsBlank(lines[n]) || SwitchLine(tables, n) then [] else [lines[n]]
  {
    hide IsBlank, Touched, SwitchLine;
  }

  lemma SameTail(a: seq<string>, b: seq<string>, tail: seq<string>)
    requires |a| <= |b|
    ensures a + tail == b + tail <==> a == b
    ensures |a + tail| <= |b + tail|
  {
    if a + tail == b + tail {
      assert |a| == |b| && forall k :: 0 <= k < |a| ==> a[k] == (a + tail)[k] && b[k] == (b + tail)[k];
    }
  }

  // Turning the switch on loses no other line with text exactly when each table
  // that goes has none.
  lemma NothingElseLostIff(content: string)
    ensures var lines := TomlLines(content);
            var tables := Named(ScanToml(lines).tables);
            && Fits(lines, tables, EolOf(content))
            && EditBundled(content, true) == Concat(EditAll(lines, tables, EolOf(content)))
            && (NonBlank(EditAll(lines, tables, EolOf(content))) == OtherLines(lines, tables) <==>
                forall k :: 0 <= k < |tables| ==> GoesClean(lines, tables[k]))
  {
    hide *;
    var lines := TomlLines(content);
    var tables := Named(ScanToml(lines).tables);
    OnLeavesTheRest(content);
    BundledInOrder(lines);
    LostIff(lines, tables);
  }

  lemma LostIff(lines: seq<string>, tables: seq<Table>)
    requires InOrder(lines, tables)
    ensures Kept(lines, tables) == OtherLines(lines, tables) <==> forall k :: 0 <= k < |tables| ==> GoesClean(lines, tables[k])
  {
    hide Lies, Kept, OtherLines, IsBlank, Touches, IsSwitchLine, GoesClean;
    forall i: nat | i < |lines| && SwitchLine(tables, i) ensures Touched(tables, i) {
      var k :| 0 <= k < |tables| && IsSwitchLine(tables[k], i);
      SwitchLineGoes(lines, tables[k], i);
    }
    KeptIff(lines, tables);
    if k :| 0 <= k < |tables| && !GoesClean(lines, tables[k]) {
      var i := UncleanTouches(lines, tables[k]);
      OneTablesLine(lines, tables, k, i);
      assert !KeptOrSwitch(lines, tables, i);
    } else {
      forall i: nat | i < |lines| ensures KeptOrSwitch(lines, tables, i) {
        if !IsBlank(lines[i]) && Touched(tables, i) {
          var k :| 0 <= k < |tables| && Touches(tables[k], i);
          CleanTouches(lines, tables[k], i);
        }
      }
    }
  }

  // A line of one table is no other's.
  lemma OneTablesLine(lines: seq<string>, tables: seq<Table>, k: nat, i: nat)
    requires InOrder(lines, tables) && k < |tables| && tables[k].at <= i < tables[k].end && !IsSwitchLine(tables[k], i)
    ensures !SwitchLine(tables, i)
  {
    hide Lies, IsSwitchLine;
    if SwitchLine(tables, i) {
      var j :| 0 <= j < |tables| && IsSwitchLine(tables[j], i);
      SwitchLineGoes(lines, tables[j], i);
      assert false;
    }
  }

  // ---- A line that is lost ----

  // A comment between the header and the key, the table's only one, goes along.
  lemma NoteIsLost(note: string)
    requires IsChunk(note) && EndsLine(note) && KindOf(Normal, note) == Nothing
    ensures EditBundled(Concat([BUNDLED_TABLE + "\n"] + [note] + [ENABLED_LINE + "\n"]), true) == ""
  {
    hide *;
    var head, line := BUNDLED_TABLE + "\n", ENABLED_LINE + "\n";
    var all := [head] + [note] + [line];
    var content := Concat(all);
    NoteLines(note);
    NoteTables(note);
    OnIs(content);
    FalseAlone();
    NoteTableIs(all + [""]);
    ScanTables(all + [""]);
    OnlyOne(START.tables, NoteTable(), all + [""], EolOf(content));
    NoteDropped(all);
    NothingConcat();
  }

  function NoteTable(): Table { Table(BUNDLED_TABLE, 0, 3, [Key("enabled", "false", 2)]) }

  lemma NoteTableIs(lines: seq<string>)
    requires |lines| == 4 && IsFalse("false")
    ensures IsBundled(NoteTable()) && TableIn(NoteTable(), lines) && SaysFalse(NoteTable()) && |NoteTable().keys| == 1
    ensures Named(START.tables) == []
  {
    hide IsFalse;
    NamedNext([], START.tables[0]);
    assert [] + START.tables == START.tables;
  }

  lemma NoteLines(note: string)
    requires IsChunk(note) && EndsLine(note)
    ensures var all := [BUNDLED_TABLE + "\n"] + [note] + [ENABLED_LINE + "\n"]; TomlLines(Concat(all)) == all + [""] && |all| == 3
  {
    var all := [BUNDLED_TABLE + "\n"] + [note] + [ENABLED_LINE + "\n"];
    ThreeLines(note);
    hide *;
    SplitsAgain(all);
    ResplitEnded(all);
  }

  lemma ThreeLines(note: string)
    requires IsChunk(note) && EndsLine(note)
    ensures var all := [BUNDLED_TABLE + "\n"] + [note] + [ENABLED_LINE + "\n"]; Chunks(all) && EndsLine(all[|all| - 1])
  {
  }

  lemma NoteTables(note: string)
    requires KindOf(Normal, note) == Nothing
    ensures var all := [BUNDLED_TABLE + "\n"] + [note] + [ENABLED_LINE + "\n"] + [""];
            TablesOf(Kinds(Normal, all)) == START.tables + [NoteTable()]
  {
    var head, line := BUNDLED_TABLE + "\n", ENABLED_LINE + "\n";
    hide *;
    BundledKind("\n");
    EnabledLineKind("\n");
    FalseIsOneLine("false");
    assert [] + [head] == [head];
    OneMore([], head);
    OneMore([head], note);
    OneMore([head] + [note], line);
    AfterHeader(head);
    AfterNothing(note);
    EmptyIsBlank();
    OneBlank([head] + [note] + [line], "");
    NothingRead();
    NoteKinds();
  }

  lemma NothingRead()
    ensures Kinds(Normal, []) == [] && EndMode(Normal, []) == Normal
  {
  }

  lemma AfterNothing(note: string)
    requires KindOf(Normal, note) == Nothing
    ensures NextMode(Normal, note) == Normal
  {
    hide KindOf;
  }

  lemma NoteKinds()
    ensures TablesOf([] + [Header(BUNDLED_TABLE)] + [Nothing] + [KeyLine("enabled", "false")]) == START.tables + [NoteTable()]
  {
    var none: seq<Kind> := [];
    var tables, t := START.tables, Table(BUNDLED_TABLE, 0, 1, []);
    LastKind(tables, none, Header(BUNDLED_TABLE), 0);
    LastKind(tables, none + [Header(BUNDLED_TABLE)], Nothing, 0);
    LastKind(tables, none + [Header(BUNDLED_TABLE)] + [Nothing], KeyLine("enabled", "false"), 0);
    assert (tables + [t])[..1] == tables;
    assert t.keys + [Key("enabled", "false", 2)] == [Key("enabled", "false", 2)];
  }

  lemma NoteDropped(all: seq<string>)
    requires |all| == 3
    ensures DropTable(all + [""], NoteTable()) == []
  {
    EmptyIsBlank();
    hide IsBlank;
  }

  // "[skills.bundled]", "# keep" and "enabled = false", turned on.
  lemma CommentIsLost()
    ensures EditBundled(Concat([BUNDLED_TABLE + "\n"] + ["# keep\n"] + [ENABLED_LINE + "\n"]), true) == ""
  {
    assert TrimLeft("# keep\n") == "# keep\n";
    NoteIsLost("# keep\n");
  }

  // A table put at the end of the file leaves all that was there.
  lemma AppendLeavesTheRest(content: string)
    requires Named(ScanToml(TomlLines(content)).tables) == []
    ensures content <= EditBundled(content, false)
  {
    hide Named, TomlLines, ScanToml;
  }

  // The parts of a `key = value` line, in the one way a line has them: the text
  // before the first =, the spaces and tabs after it, the value's first word, and
  // what follows that.
  predicate LineHas(line: string, head: string, gap: string, word: string, tail: string) {
    && line == head + "=" + gap + word + tail
    && (forall i :: 0 <= i < |head| ==> head[i] != '=') && IsGap(gap) && NoneEnds(word)
    && (tail != "" ==> EndsWord(tail[0]) && (word == "" ==> !IsGap(tail[..1])))
  }

  // now is the line with that word swapped for false, and a space put before it
  // where there was none.
  predicate Swaps(line: string, now: string, head: string, gap: string, word: string, tail: string) {
    LineHas(line, head, gap, word, tail) && now == head + "=" + (if gap == "" then " " else gap) + "false" + tail
  }

  ghost predicate WordSwapped(line: string, now: string) {
    exists head: string, gap: string, word: string, tail: string :: Swaps(line, now, head, gap, word, tail)
  }

  // One line of the file is now another text, and all before and after it is as
  // it was.
  predicate LineBecomes(content: string, edited: string, at: int, now: string) {
    var lines := TomlLines(content);
    0 <= at < |lines| && edited == Concat(lines[..at]) + now + Concat(lines[at + 1..])
  }

  // ---- A line has its parts in one way ----

  lemma NextOf(a: string, x: string, b: string, y: string)
    requires a + x == b + y && |b| < |a|
    ensures y != "" && y[0] == a[|b|]
  {
    assert (a + x)[|b|] == (b + y)[|b|];
  }

  // A run of characters that have a property is no longer than another, when
  // what follows that one has it not.
  lemma NotLonger(a: string, x: string, b: string, y: string, isIn: char -> bool)
    requires a + x == b + y && (forall i :: 0 <= i < |a| ==> isIn(a[i])) && (y != "" ==> !isIn(y[0]))
    ensures |a| <= |b|
  {
    if |b| < |a| {
      NextOf(a, x, b, y);
      assert false;
    }
  }

  lemma SameRun(a: string, x: string, b: string, y: string, isIn: char -> bool)
    requires a + x == b + y && (forall i :: 0 <= i < |a| ==> isIn(a[i])) && (forall i :: 0 <= i < |b| ==> isIn(b[i]))
    requires (x != "" ==> !isIn(x[0])) && (y != "" ==> !isIn(y[0]))
    ensures a == b && x == y
  {
    NotLonger(a, x, b, y, isIn);
    NotLonger(b, y, a, x, isIn);
    assert a == (a + x)[..|a|] && b == (b + y)[..|b|] && x == (a + x)[|a|..] && y == (b + y)[|b|..];
  }

  lemma SameParts(line: string, head: string, gap: string, word: string, tail: string, head': string, gap': string, word': string, tail': string)
    requires LineHas(line, head, gap, word, tail) && LineHas(line, head', gap', word', tail')
    ensures head == head' && gap == gap' && word == word' && tail == tail'
  {
    var isKey, isGap, isWord := c => c != '=', c => c == ' ' || c == '\t', c => !EndsWord(c);
    var x, x' := "=" + (gap + (word + tail)), "=" + (gap' + (word' + tail'));
    assert line == head + x && line == head' + x';
    SameRun(head, x, head', x', isKey);
    assert x[1..] == gap + (word + tail) && x'[1..] == gap' + (word' + tail');
    AfterGap(word, tail);
    AfterGap(word', tail');
    SameRun(gap, word + tail, gap', word' + tail', isGap);
    SameRun(word, tail, word', tail', isWord);
  }

  lemma AfterGap(word: string, tail: string)
    requires NoneEnds(word) && (tail != "" ==> EndsWord(tail[0]) && (word == "" ==> !IsGap(tail[..1])))
    ensures word + tail != "" ==> (word + tail)[0] != ' ' && (word + tail)[0] != '\t'
  {
    if word == "" {
      assert word + tail == tail;
      assert tail != "" ==> tail[..1][0] == tail[0];
    }
  }

  // So there is one text a line can become.
  lemma SwapIsOne(line: string, now: string, other: string)
    requires WordSwapped(line, now) && WordSwapped(line, other)
    ensures now == other
  {
    hide LineHas;
    var head: string, gap: string, word: string, tail: string :| Swaps(line, now, head, gap, word, tail);
    var head': string, gap': string, word': string, tail': string :| Swaps(line, other, head', gap', word', tail');
    SameParts(line, head, gap, word, tail, head', gap', word', tail');
  }

  // ---- What the edit of a line does ----

  lemma WordIsRun(word: string)
    ensures var w := word[..WordRun(word)]; word == w + word[WordRun(word)..] && NoneEnds(w)
    ensures var tail := word[WordRun(word)..]; tail != "" ==> EndsWord(tail[0])
  {
  }

  lemma {:induction false} GapIsRun(rest: string)
    ensures var word := rest[GapRun(rest)..]; rest == rest[..GapRun(rest)] + word && (word != "" ==> word[0] != ' ' && word[0] != '\t')
  {
    if rest != "" && (rest[0] == ' ' || rest[0] == '\t') {
      GapIsRun(rest[1..]);
      assert rest[GapRun(rest)..] == rest[1..][GapRun(rest[1..])..];
    }
  }

  lemma BeforeEquals(line: string)
    requires Find(line, '=') < |line|
    ensures line == line[..Find(line, '=')] + "=" + Rest(line)
    ensures forall i :: 0 <= i < |line[..Find(line, '=')]| ==> line[..Find(line, '=')][i] != '='
  {
    hide *;
    LineParts(line);
    FirstEquals(line);
    CutAt(line, Find(line, '='), Rest(line));
  }

  lemma FirstEquals(line: string)
    requires Find(line, '=') < |line|
    ensures forall i :: 0 <= i < Find(line, '=') ==> line[i] != '='
  {
    hide Find;
  }

  lemma CutAt(line: string, eq: nat, rest: string)
    requires eq < |line| && line[eq] == '=' && rest == line[eq + 1..]
    ensures line == line[..eq] + "=" + rest
  {
  }

  lemma NewGapIs(line: string)
    requires Find(line, '=') < |line|
    ensures NewGap(line) == (if Rest(line)[..GapRun(Rest(line))] == "" then " " else Rest(line)[..GapRun(Rest(line))])
  {
    hide GapRun, Rest, Find;
  }

  lemma PartsJoin(line: string, head: string, rest: string, gap: string, word: string, tail: string)
    requires line == head + "=" + rest && rest == gap + (word + tail)
    ensures line == head + "=" + gap + word + tail
  {
  }

  lemma SetIsSwap(line: string)
    requires Find(line, '=') < |line|
    ensures WordSwapped(line, SetTomlValue(line, "false"))
  {
    hide *;
    var head, rest, word, tail := line[..Find(line, '=')], Rest(line), Word(line), Tail(line);
    var gap, w := rest[..GapRun(rest)], word[..WordRun(word)];
    LineParts(line);
    BeforeEquals(line);
    NewGapIs(line);
    GapIsRun(rest);
    GapIsGap(rest);
    WordIsRun(word);
    PartsJoin(line, head, rest, gap, w, tail);
    SetText(line);
    HeadEquals(line, Find(line, '='));
    SwapsBy(line, SetTomlValue(line, "false"), head, gap, w, tail, NewGap(line));
  }

  lemma HeadEquals(line: string, eq: nat)
    requires eq < |line| && line[eq] == '='
    ensures line[..eq + 1] == line[..eq] + "="
  {
  }

  lemma SwapsBy(line: string, now: string, head: string, gap: string, word: string, tail: string, newGap: string)
    requires line == head + "=" + gap + word + tail && (forall i :: 0 <= i < |head| ==> head[i] != '=')
    requires IsGap(gap) && NoneEnds(word) && (tail != "" ==> EndsWord(tail[0]))
    requires word + tail != "" ==> (word + tail)[0] != ' ' && (word + tail)[0] != '\t'
    requires newGap == (if gap == "" then " " else gap) && now == head + "=" + newGap + "false" + tail
    ensures WordSwapped(line, now)
  {
    if word == "" && tail != "" {
      assert (word + tail)[0] == tail[0] == tail[..1][0];
    }
    assert Swaps(line, now, head, gap, word, tail);
  }

  lemma {:induction false} ConcatAround(lines: seq<string>, a: nat, b: nat)
    requires a <= b <= |lines|
    ensures Concat(lines) == Concat(lines[..a]) + Concat(lines[a..b]) + Concat(lines[b..])
  {
    assert lines == lines[..a] + lines[a..b] + lines[b..];
    ConcatAppend(lines[..a] + lines[a..b], lines[b..]);
    ConcatAppend(lines[..a], lines[a..b]);
  }

  lemma LineIsNow(lines: seq<string>, at: nat, out: seq<string>, more: seq<string>, now: string)
    requires at < |lines| && out == lines[..at] + more + lines[at + 1..] && Concat(more) == now
    ensures Concat(out) == Concat(lines[..at]) + now + Concat(lines[at + 1..])
  {
    ConcatAround(out, at, at + |more|);
    assert out[..at] == lines[..at] && out[at..at + |more|] == more && out[at + |more|..] == lines[at + 1..];
  }

  lemma LineSet(lines: seq<string>, at: nat, now: string)
    requires at < |lines|
    ensures Concat(lines[at := now]) == Concat(lines[..at]) + now + Concat(lines[at + 1..])
  {
    hide Concat;
    OnePart(now);
    LineIsNow(lines, at, lines[at := now], [now], now);
  }

  lemma LineAdded(lines: seq<string>, at: nat, eol: string)
    requires at < |lines|
    ensures Concat(InsertLine(lines, at + 1, ENABLED_LINE, eol)) ==
            Concat(lines[..at]) + (Ended(lines[at], eol) + (ENABLED_LINE + eol)) + Concat(lines[at + 1..])
  {
    hide Ended, Concat;
    TwoParts(Ended(lines[at], eol), ENABLED_LINE + eol);
    InsertParts(lines, at, eol);
    hide InsertLine;
    LineIsNow(lines, at, InsertLine(lines, at + 1, ENABLED_LINE, eol), [Ended(lines[at], eol), ENABLED_LINE + eol],
              Ended(lines[at], eol) + (ENABLED_LINE + eol));
  }

  lemma InsertParts(lines: seq<string>, at: nat, eol: string)
    requires at < |lines|
    ensures InsertLine(lines, at + 1, ENABLED_LINE, eol) == lines[..at] + [Ended(lines[at], eol), ENABLED_LINE + eol] + lines[at + 1..]
  {
    hide Ended;
  }

  lemma BecomesIs(content: string, edited: string, at: nat, now: string)
    requires at < |TomlLines(content)|
    requires edited == Concat(TomlLines(content)[..at]) + now + Concat(TomlLines(content)[at + 1..])
    ensures LineBecomes(content, edited, at, now)
  {
    hide TomlLines, Concat;
  }

  lemma HeaderOnLine(lines: seq<string>, earlier: seq<Table>, t: Table, later: seq<Table>)
    requires Among(lines, earlier, t, later) && IsBundled(t) && 0 <= t.at < |lines|
    ensures KindOf(Normal, lines[t.at]) == Header(BUNDLED_TABLE)
  {
    AtHead(Kinds(Normal, lines), earlier, t, later);
    SomethingIsNormal(Normal, lines, t.at);
    hide Kinds, TablesOf, KindOf, DocOf, PairsOf, EntriesOf, EndMode;
  }

  // The last table of the switch, whose key is edited or added.
  function LastSwitch(content: string): Table
    requires Named(ScanToml(TomlLines(content)).tables) != []
  {
    var tables := Named(ScanToml(TomlLines(content)).tables);
    tables[|tables| - 1]
  }

  // Turning the switch off where it has a table changes one line and not another
  // byte of the file. Where the table has the key, that is the line of its first
  // one, and what changes there is the first word of its value; where it has not,
  // the switch's line comes after the table's header, which is ended first if it
  // was not.
  lemma OffLeavesTheRest(content: string)
    requires Named(ScanToml(TomlLines(content)).tables) != []
    ensures var lines, eol, edited := TomlLines(content), EolOf(content), EditBundled(content, false);
            var t := LastSwitch(content);
            var i := EnabledAt(t.keys);
            && Chunks(lines) && Concat(lines) == content && TableIn(t, lines)
            && (i < |t.keys| ==>
                && KindOf(Normal, lines[t.keys[i].at]) == KeyLine("enabled", t.keys[i].value)
                && exists now :: WordSwapped(lines[t.keys[i].at], now) && LineBecomes(content, edited, t.keys[i].at, now))
            && (i == |t.keys| ==>
                && KindOf(Normal, lines[t.at]) == Header(BUNDLED_TABLE)
                && LineBecomes(content, edited, t.at, Ended(lines[t.at], eol) + (ENABLED_LINE + eol)))
  {
    hide *;
    var lines, eol, edited := TomlLines(content), EolOf(content), EditBundled(content, false);
    var earlier, t, later := LastNamed(lines);
    SplitChunks(content);
    LastSwitchIs(content, t);
    OffEdits(content, lines, t);
    StartsInside(t, lines);
    var i := EnabledAt(t.keys);
    if i < |t.keys| {
      var at := t.keys[i].at;
      EnabledIsFirst(t.keys);
      KeyOnLine(lines, earlier, t, later, i);
      EnabledParts(lines[at], t.keys[i].value);
      EditSets(lines, t, eol);
      SetIsSwap(lines[at]);
      LineSet(lines, at, SetTomlValue(lines[at], "false"));
      BecomesIs(content, edited, at, SetTomlValue(lines[at], "false"));
    } else {
      EditInserts(lines, t, eol);
      HeaderOnLine(lines, earlier, t, later);
      LineAdded(lines, t.at, eol);
      BecomesIs(content, edited, t.at, Ended(lines[t.at], eol) + (ENABLED_LINE + eol));
    }
  }

  lemma LastSwitchIs(content: string, t: Table)
    requires var tables := Named(ScanToml(TomlLines(content)).tables); tables != [] && t == tables[|tables| - 1]
    ensures LastSwitch(content) == t
  {
    hide Named, ScanToml, TomlLines;
  }
}
