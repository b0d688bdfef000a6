// What a scan knows of a file, line by line: the kinds of its lines, the tables
// they make, and how both change when lines are taken out or put in.
module TomlTables {
  import opened Prelude
  import opened Text
  import opened Toml

  // ---- Lines ----

  function EndMode(m: Mode, lines: seq<string>): Mode {
    if lines == [] then m else NextMode(EndMode(m, lines[..|lines| - 1]), lines[|lines| - 1])
  }

  function Kinds(m: Mode, lines: seq<string>): (ks: seq<Kind>)
    ensures |ks| == |lines|
  {
    if lines == [] then []
    else
      var n := |lines| - 1;
      Kinds(m, lines[..n]) + [KindOf(EndMode(m, lines[..n]), lines[n])]
  }

  lemma {:induction false} KindsConcat(m: Mode, a: seq<string>, b: seq<string>)
    ensures EndMode(m, a + b) == EndMode(EndMode(m, a), b)
    ensures Kinds(m, a + b) == Kinds(m, a) + Kinds(EndMode(m, a), b)
  {
    hide NextMode, KindOf;
    if b == [] {
      assert a + b == a;
    } else {
      var n := |b| - 1;
      KindsConcat(m, a, b[..n]);
      assert (a + b)[..|a + b| - 1] == a + b[..n];
    }
  }

  lemma {:induction false} KindAt(m: Mode, lines: seq<string>, i: nat)
    requires i < |lines|
    ensures Kinds(m, lines)[i] == KindOf(EndMode(m, lines[..i]), lines[i])
  {
    hide NextMode, KindOf;
    var n := |lines| - 1;
    if i < n {
      KindAt(m, lines[..n], i);
      assert lines[..n][..i] == lines[..i];
    }
  }

  lemma NextLine(m: Mode, lines: seq<string>, i: nat)
    requires i < |lines|
    ensures EndMode(m, lines[..i + 1]) == NextMode(EndMode(m, lines[..i]), lines[i])
  {
    assert lines[..i + 1][..i] == lines[..i];
    hide NextMode;
  }

  // A line that is something is not within anything.
  lemma SomethingIsNormal(m: Mode, lines: seq<string>, i: nat)
    requires i < |lines| && !Kinds(m, lines)[i].Nothing?
    ensures EndMode(m, lines[..i]) == Normal
    ensures EndMode(m, lines[..i + 1]) == NextMode(Normal, lines[i])
    ensures Kinds(m, lines)[i] == KindOf(Normal, lines[i])
  {
    KindAt(m, lines, i);
    NextLine(m, lines, i);
    hide NextMode, KindOfText, EndMode, Kinds;
  }

  // ---- Tables of kinds ----

  function TablesFrom(tables: seq<Table>, ks: seq<Kind>, off: nat): (r: seq<Table>)
    requires tables != []
    ensures |r| >= |tables|
  {
    if ks == [] then tables
    else
      var n := |ks| - 1;
      StepTables(TablesFrom(tables, ks[..n], off), ks[n], off + n)
  }

  function TablesOf(ks: seq<Kind>): seq<Table> { TablesFrom(START.tables, ks, 0) }

  lemma {:induction false} ScanIsOfKinds(s: Scan, lines: seq<string>, off: nat)
    requires s.tables != []
    ensures ScanFrom(s, lines, off) == Scan(TablesFrom(s.tables, Kinds(s.mode, lines), off), EndMode(s.mode, lines))
  {
    hide NextMode, KindOf, StepTables, Kinds, EndMode, TablesFrom, ScanFrom;
    if lines == [] {
      NoLines(s, off);
    } else {
      var n := |lines| - 1;
      ScanIsOfKinds(s, lines[..n], off);
      LastLine(s.mode, lines);
      LastKind(s.tables, Kinds(s.mode, lines[..n]), KindOf(EndMode(s.mode, lines[..n]), lines[n]), off);
      NextScan(s, lines, off);
    }
  }

  lemma NoLines(s: Scan, off: nat)
    requires s.tables != []
    ensures ScanFrom(s, [], off) == s && Kinds(s.mode, []) == [] && EndMode(s.mode, []) == s.mode
    ensures TablesFrom(s.tables, [], off) == s.tables
  {
  }

  lemma LastLine(m: Mode, lines: seq<string>)
    requires lines != []
    ensures var n := |lines| - 1;
            && Kinds(m, lines) == Kinds(m, lines[..n]) + [KindOf(EndMode(m, lines[..n]), lines[n])]
            && EndMode(m, lines) == NextMode(EndMode(m, lines[..n]), lines[n])
  {
    hide NextMode, KindOf;
  }

  lemma LastKind(tables: seq<Table>, ks: seq<Kind>, k: Kind, off: nat)
    requires tables != []
    ensures TablesFrom(tables, ks + [k], off) == StepTables(TablesFrom(tables, ks, off), k, off + |ks|)
  {
    hide StepTables;
    assert (ks + [k])[..|ks|] == ks;
  }

  lemma NextScan(s: Scan, lines: seq<string>, off: nat)
    requires s.tables != [] && lines != []
    ensures ScanFrom(s, lines, off) == StepScan(ScanFrom(s, lines[..|lines| - 1], off), lines[|lines| - 1], off + |lines| - 1)
  {
    hide StepScan;
  }

  lemma ScanTables(lines: seq<string>)
    ensures ScanToml(lines) == Scan(TablesOf(Kinds(Normal, lines)), EndMode(Normal, lines))
  {
    ScanIsOfKinds(START, lines, 0);
  }

  lemma {:induction false} TablesConcat(tables: seq<Table>, a: seq<Kind>, b: seq<Kind>, off: nat)
    requires tables != []
    ensures TablesFrom(tables, a + b, off) == TablesFrom(TablesFrom(tables, a, off), b, off + |a|)
  {
    hide StepTables;
    if b == [] {
      assert a + b == a;
    } else {
      var n := |b| - 1;
      TablesConcat(tables, a, b[..n], off);
      assert (a + b)[..|a + b| - 1] == a + b[..n];
    }
  }

  // The table a key list belongs to, as it was before its key i.
  function Before(t: Table, i: nat): Table
    requires i <= |t.keys| && t.at >= 0
  {
    t.(keys := t.keys[..i], end := if i == 0 then t.at + 1 else t.keys[i - 1].at + 1)
  }

  // The key i of table t, after the tables earlier.
  ghost predicate KeyAt(ks: seq<Kind>, earlier: seq<Table>, t: Table, i: nat)
    requires i < |t.keys|
  {
    var k := t.keys[i];
    && 0 <= t.at < k.at < |ks| && ks[k.at] == KeyLine(k.name, k.value)
    && TablesOf(ks[..k.at]) == earlier + [Before(t, i)]
  }

  ghost predicate HeadAt(ks: seq<Kind>, earlier: seq<Table>, t: Table) {
    && 0 <= t.at < t.end <= |ks| && ks[t.at] == Header(t.header) && t == Before(t, |t.keys|)
    && TablesOf(ks[..t.at]) == earlier && TablesOf(ks[..t.at + 1]) == earlier + [Before(t, 0)]
    && TablesOf(ks[..t.end]) == earlier + [t]
  }

  // Where a table of the scan comes from.
  ghost predicate TableAt(ks: seq<Kind>, earlier: seq<Table>, t: Table) {
    HeadAt(ks, earlier, t) && forall i :: 0 <= i < |t.keys| ==> KeyAt(ks, earlier, t, i)
  }

  lemma {:induction false} FindsTable(ks: seq<Kind>, j: nat)
    requires 0 < j < |TablesOf(ks)|
    ensures TableAt(ks, TablesOf(ks)[..j], TablesOf(ks)[j])
  {
    hide TableAt;
    var n := |ks| - 1;
    var init, tables := TablesOf(ks[..n]), TablesOf(ks);
    assert tables == StepTables(init, ks[n], n);
    assert ks == ks[..n] + [ks[n]];
    hide TablesOf;
    if j < |init| {
      FindsTable(ks[..n], j);
      assert tables[..j] == init[..j];
      if tables[j] == init[j] {
        Extends(ks[..n], ks[n], init[..j], init[j]);
      } else {
        assert init == init[..j] + [init[j]] && tables == init[..j] + [tables[j]];
        KeyAdded(ks[..n], ks[n], init[..j], init[j]);
      }
    } else {
      assert tables[..j] == init && tables == init + [tables[j]];
      HeaderAdded(ks[..n], ks[n], init, tables[j]);
    }
  }

  lemma ExtendsKey(ks: seq<Kind>, k: Kind, earlier: seq<Table>, t: Table, i: nat)
    requires i < |t.keys| && KeyAt(ks, earlier, t, i)
    ensures KeyAt(ks + [k], earlier, t, i)
  {
    hide TablesOf, Before;
    assert (ks + [k])[..t.keys[i].at] == ks[..t.keys[i].at];
  }

  lemma ExtendsHead(ks: seq<Kind>, k: Kind, earlier: seq<Table>, t: Table)
    requires HeadAt(ks, earlier, t)
    ensures HeadAt(ks + [k], earlier, t)
  {
    hide TablesOf, Before;
    var more := ks + [k];
    assert more[..t.at] == ks[..t.at] && more[..t.at + 1] == ks[..t.at + 1] && more[..t.end] == ks[..t.end];
  }

  // A table that a longer file leaves as it is.
  lemma Extends(ks: seq<Kind>, k: Kind, earlier: seq<Table>, t: Table)
    requires TableAt(ks, earlier, t)
    ensures TableAt(ks + [k], earlier, t)
  {
    hide HeadAt, KeyAt;
    ExtendsHead(ks, k, earlier, t);
    forall i | 0 <= i < |t.keys| ensures KeyAt(ks + [k], earlier, t, i) {
      ExtendsKey(ks, k, earlier, t, i);
    }
  }

  lemma HeaderAdded(ks: seq<Kind>, k: Kind, earlier: seq<Table>, t: Table)
    requires earlier == TablesOf(ks) && k.Header? && t == Table(k.name, |ks|, |ks| + 1, [])
    requires TablesOf(ks + [k]) == earlier + [t]
    ensures TableAt(ks + [k], earlier, t)
  {
    hide TablesOf;
    assert (ks + [k])[..|ks| + 1] == ks + [k] && (ks + [k])[..|ks|] == ks;
  }

  lemma KeyAdded(ks: seq<Kind>, k: Kind, earlier: seq<Table>, t: Table)
    requires TableAt(ks, earlier, t) && k.KeyLine? && TablesOf(ks) == earlier + [t]
    requires TablesOf(ks + [k]) == earlier + [AddKey(t, Key(k.name, k.value, |ks|))]
    ensures TableAt(ks + [k], earlier, AddKey(t, Key(k.name, k.value, |ks|)))
  {
    var now := AddKey(t, Key(k.name, k.value, |ks|));
    var more := ks + [k];
    assert more[..|ks|] == ks && more[..|ks| + 1] == more;
    assert forall i :: 0 <= i <= |t.keys| ==> Before(now, i) == Before(t, i) by { hide TablesOf; }
    hide TablesOf;
    assert HeadAt(more, earlier, now) by {
      hide KeyAt;
      assert more[..t.at] == ks[..t.at] && more[..t.at + 1] == ks[..t.at + 1];
    }
    forall i | 0 <= i < |now.keys| ensures KeyAt(more, earlier, now, i) {
      hide HeadAt;
      if i < |t.keys| {
        assert KeyAt(ks, earlier, t, i);
        ExtendsKey(ks, k, earlier, t, i);
      }
    }
  }
}
