// What the tables of a file say, whatever lines they are on, and what taking
// out, putting in or swapping a line does to that.
module TomlDoc {
  import opened Prelude
  import opened Toml
  import opened TomlTables

  datatype Pair = Pair(name: string, value: string)

  datatype Entry = Entry(header: string, keys: seq<Pair>)

  // The keys before any table, and the tables.
  datatype Doc = Doc(lead: seq<Pair>, entries: seq<Entry>)

  function AddPairs(d: Doc, ps: seq<Pair>): Doc {
    if d.entries == [] then Doc(d.lead + ps, [])
    else
      var n := |d.entries| - 1;
      Doc(d.lead, d.entries[..n] + [Entry(d.entries[n].header, d.entries[n].keys + ps)])
  }

  function StepDoc(d: Doc, k: Kind): Doc {
    match k
    case Nothing => d
    case Header(name) => Doc(d.lead, d.entries + [Entry(name, [])])
    case KeyLine(name, value) => AddPairs(d, [Pair(name, value)])
  }

  function DocOf(ks: seq<Kind>): Doc {
    if ks == [] then Doc([], []) else StepDoc(DocOf(ks[..|ks| - 1]), ks[|ks| - 1])
  }

  // One file's tables after another's: keys before any table go on with the
  // last.
  function Then(a: Doc, b: Doc): Doc {
    var c := AddPairs(a, b.lead);
    Doc(c.lead, c.entries + b.entries)
  }

  lemma ThenStep(a: Doc, b: Doc, k: Kind)
    ensures Then(a, StepDoc(b, k)) == StepDoc(Then(a, b), k)
  {
    match k
    case Nothing =>
    case Header(name) =>
      var c := AddPairs(a, b.lead);
      assert c.entries + (b.entries + [Entry(name, [])]) == c.entries + b.entries + [Entry(name, [])];
    case KeyLine(name, value) =>
      ThenPairs(a, b, [Pair(name, value)]);
  }

  lemma ThenPairs(a: Doc, b: Doc, ps: seq<Pair>)
    ensures Then(a, AddPairs(b, ps)) == AddPairs(Then(a, b), ps)
  {
    var c := AddPairs(a, b.lead);
    if b.entries == [] {
      AddTwice(a, b.lead, ps);
      assert c.entries + [] == c.entries;
    } else {
      var n, m := |b.entries| - 1, |c.entries + b.entries| - 1;
      assert (c.entries + b.entries)[m] == b.entries[n];
      assert (c.entries + b.entries)[..m] == c.entries + b.entries[..n];
      hide AddPairs;
      AddToLast(b, ps);
      AddToLast(Doc(c.lead, c.entries + b.entries), ps);
    }
  }

  lemma AddToLast(d: Doc, ps: seq<Pair>)
    requires d.entries != []
    ensures var n := |d.entries| - 1;
            AddPairs(d, ps) == Doc(d.lead, d.entries[..n] + [Entry(d.entries[n].header, d.entries[n].keys + ps)])
  {
  }

  lemma AddTwice(d: Doc, ps: seq<Pair>, qs: seq<Pair>)
    ensures AddPairs(AddPairs(d, ps), qs) == AddPairs(d, ps + qs)
  {
    if d.entries == [] {
      assert d.lead + ps + qs == d.lead + (ps + qs);
    } else {
      var n := |d.entries| - 1;
      var keys := d.entries[n].keys;
      assert keys + ps + qs == keys + (ps + qs);
      assert AddPairs(d, ps).entries[..n] == d.entries[..n];
    }
  }

  lemma ThenNothing(a: Doc)
    ensures Then(a, Doc([], [])) == a
  {
    assert a.lead + [] == a.lead;
    if a.entries != [] {
      var n := |a.entries| - 1;
      assert a.entries[n].keys + [] == a.entries[n].keys;
      assert a.entries[..n] + [a.entries[n]] == a.entries;
    }
    assert AddPairs(a, []).entries + [] == a.entries;
  }

  lemma {:induction false} DocConcat(a: seq<Kind>, b: seq<Kind>)
    ensures DocOf(a + b) == Then(DocOf(a), DocOf(b))
  {
    hide StepDoc, Then;
    if b == [] {
      assert a + b == a;
      ThenNothing(DocOf(a));
    } else {
      var n := |b| - 1;
      DocConcat(a, b[..n]);
      assert (a + b)[..|a + b| - 1] == a + b[..n];
      ThenStep(DocOf(a), DocOf(b[..n]), b[n]);
    }
  }

  // ---- The tables say the same ----

  function PairsOf(keys: seq<Key>): (ps: seq<Pair>)
    ensures |ps| == |keys|
    ensures forall i :: 0 <= i < |keys| ==> ps[i] == Pair(keys[i].name, keys[i].value)
  {
    if keys == [] then [] else PairsOf(keys[..|keys| - 1]) + [Pair(keys[|keys| - 1].name, keys[|keys| - 1].value)]
  }

  function EntryOf(t: Table): Entry { Entry(t.header, PairsOf(t.keys)) }

  function EntriesOf(tables: seq<Table>): (es: seq<Entry>)
    ensures |es| == |tables|
    ensures forall i :: 0 <= i < |tables| ==> es[i] == EntryOf(tables[i])
  {
    if tables == [] then [] else EntriesOf(tables[..|tables| - 1]) + [EntryOf(tables[|tables| - 1])]
  }

  lemma EntriesConcat(a: seq<Table>, b: seq<Table>)
    ensures EntriesOf(a + b) == EntriesOf(a) + EntriesOf(b)
  {
    hide EntryOf;
  }

  // The tables say d.
  predicate Say(tables: seq<Table>, d: Doc) {
    tables != [] && PairsOf(tables[0].keys) == d.lead && EntriesOf(tables[1..]) == d.entries
  }

  lemma HeaderSays(tables: seq<Table>, d: Doc, t: Table)
    requires Say(tables, d)
    ensures Say(tables + [t], Doc(d.lead, d.entries + [EntryOf(t)]))
  {
    assert (tables + [t])[1..] == tables[1..] + [t];
    EntriesConcat(tables[1..], [t]);
    assert EntriesOf([t]) == [EntryOf(t)];
    hide EntriesOf, PairsOf;
  }

  lemma SayLast(first: Table, mid: seq<Table>, t: Table)
    ensures Say([first] + mid + [t], Doc(PairsOf(first.keys), EntriesOf(mid) + [EntryOf(t)]))
  {
    assert ([first] + mid + [t])[1..] == mid + [t];
    EntriesConcat(mid, [t]);
    assert EntriesOf([t]) == [EntryOf(t)];
    hide EntriesOf, PairsOf;
  }

  lemma AddToEntries(lead: seq<Pair>, es: seq<Entry>, e: Entry, ps: seq<Pair>)
    ensures AddPairs(Doc(lead, es + [e]), ps) == Doc(lead, es + [Entry(e.header, e.keys + ps)])
  {
    assert (es + [e])[..|es|] == es;
  }

  lemma LastKeySays(first: Table, mid: seq<Table>, t: Table, d: Doc, ps: seq<Pair>)
    requires Say([first] + mid + [t], d)
    ensures AddPairs(d, ps) == Doc(PairsOf(first.keys), EntriesOf(mid) + [Entry(t.header, PairsOf(t.keys) + ps)])
  {
    SayLast(first, mid, t);
    assert d == Doc(PairsOf(first.keys), EntriesOf(mid) + [EntryOf(t)]);
    hide EntriesOf, PairsOf, AddPairs, Say;
    AddToEntries(PairsOf(first.keys), EntriesOf(mid), EntryOf(t), ps);
  }

  lemma PairsNext(keys: seq<Key>, key: Key)
    ensures PairsOf(keys + [key]) == PairsOf(keys) + [Pair(key.name, key.value)]
  {
    assert (keys + [key])[..|keys|] == keys;
  }

  lemma KeySays(tables: seq<Table>, d: Doc, key: Key)
    requires Say(tables, d)
    ensures var n := |tables| - 1;
            Say(tables[..n] + [AddKey(tables[n], key)], AddPairs(d, [Pair(key.name, key.value)]))
  {
    var n := |tables| - 1;
    PairsNext(tables[n].keys, key);
    hide PairsOf, EntriesOf;
    if n > 0 {
      var first, mid, t := tables[0], tables[1..n], AddKey(tables[n], key);
      assert tables == [first] + mid + [tables[n]] && tables[..n] + [t] == [first] + mid + [t];
      hide Say;
      LastKeySays(first, mid, tables[n], d, [Pair(key.name, key.value)]);
      SayLast(first, mid, t);
    } else {
      assert (tables[..n] + [AddKey(tables[n], key)])[1..] == tables[1..];
      NoEntries();
    }
  }

  lemma EntriesNext(tables: seq<Table>, t: Table)
    ensures EntriesOf(tables + [t]) == EntriesOf(tables) + [EntryOf(t)]
  {
    assert (tables + [t])[..|tables|] == tables;
  }

  lemma NoEntries()
    ensures EntriesOf([]) == []
  {
  }

  lemma StepSays(tables: seq<Table>, d: Doc, k: Kind, i: nat)
    requires Say(tables, d)
    ensures Say(StepTables(tables, k, i), StepDoc(d, k))
  {
    hide Say;
    match k
    case Nothing =>
    case Header(name) =>
      HeaderSays(tables, d, Table(name, i, i + 1, []));
      assert PairsOf([]) == [];
    case KeyLine(name, value) =>
      KeySays(tables, d, Key(name, value, i));
  }

  lemma {:induction false} TablesSay(ks: seq<Kind>)
    ensures var t := TablesOf(ks);
            DocOf(ks) == Doc(PairsOf(t[0].keys), EntriesOf(t[1..]))
  {
    if ks == [] {
      assert TablesOf(ks)[1..] == [];
    } else {
      var n := |ks| - 1;
      TablesSay(ks[..n]);
      hide StepTables, StepDoc;
      StepSays(TablesOf(ks[..n]), DocOf(ks[..n]), ks[n], n);
    }
  }

  // ---- Edits ----

  lemma ThenLast(lead: seq<Pair>, x: seq<Entry>, e: Entry, r: Doc)
    ensures Then(Doc(lead, x + [e]), r) == Doc(lead, x + [Entry(e.header, e.keys + r.lead)] + r.entries)
  {
    assert (x + [e])[..|x|] == x;
  }

  lemma ThenTables(a: Doc, r: Doc)
    requires r.lead == []
    ensures Then(a, r) == Doc(a.lead, a.entries + r.entries)
  {
    ThenNothing(a);
    assert AddPairs(a, []).entries + [] == AddPairs(a, []).entries;
  }

  // The tables before a point, the last of them not yet whole.
  lemma SaysUpTo(ks: seq<Kind>, earlier: seq<Table>, t: Table)
    requires earlier != [] && TablesOf(ks) == earlier + [t]
    ensures DocOf(ks) == Doc(PairsOf(earlier[0].keys), EntriesOf(earlier[1..]) + [EntryOf(t)])
  {
    TablesSay(ks);
    hide TablesOf, DocOf;
    assert (earlier + [t])[1..] == earlier[1..] + [t];
    assert EntriesOf(earlier[1..] + [t]) == EntriesOf(earlier[1..]) + [EntryOf(t)];
  }

  lemma SaysAll(ks: seq<Kind>, earlier: seq<Table>, t: Table, later: seq<Table>)
    requires earlier != [] && TablesOf(ks) == earlier + [t] + later
    ensures DocOf(ks) == Doc(PairsOf(earlier[0].keys), EntriesOf(earlier[1..]) + [EntryOf(t)] + EntriesOf(later))
  {
    TablesSay(ks);
    hide TablesOf, DocOf;
    var all := TablesOf(ks);
    assert all[1..] == earlier[1..] + [t] + later;
    EntriesConcat(earlier[1..] + [t], later);
    EntriesConcat(earlier[1..], [t]);
    assert EntriesOf([t]) == [EntryOf(t)];
    hide EntriesOf;
    assert all[0] == earlier[0];
  }

  // What is said after a point within table t.
  lemma SaysAfter(a: seq<Kind>, b: seq<Kind>, earlier: seq<Table>, x: Table, t: Table, later: seq<Table>)
    requires earlier != [] && TablesOf(a) == earlier + [x] && TablesOf(a + b) == earlier + [t] + later
    requires x.header == t.header
    ensures PairsOf(t.keys) == PairsOf(x.keys) + DocOf(b).lead && DocOf(b).entries == EntriesOf(later)
  {
    SaysUpTo(a, earlier, x);
    SaysAll(a + b, earlier, t, later);
    DocConcat(a, b);
    hide TablesOf, DocOf, Then;
    var r, es := DocOf(b), EntriesOf(earlier[1..]);
    ThenLast(PairsOf(earlier[0].keys), es, EntryOf(x), r);
    var left, right := es + [Entry(x.header, PairsOf(x.keys) + r.lead)] + r.entries, es + [EntryOf(t)] + EntriesOf(later);
    assert left == right;
    Cancel(es, Entry(x.header, PairsOf(x.keys) + r.lead), r.entries, EntryOf(t), EntriesOf(later));
  }

  lemma Cancel(es: seq<Entry>, a: Entry, x: seq<Entry>, b: Entry, y: seq<Entry>)
    requires es + [a] + x == es + [b] + y
    ensures a == b && x == y
  {
    assert (es + [a] + x)[|es|] == a && (es + [b] + y)[|es|] == b;
    assert (es + [a] + x)[|es| + 1..] == x && (es + [b] + y)[|es| + 1..] == y;
  }

  // More lines leave the tables before the last as they are, and the last too
  // when no key comes before the next table.
  lemma {:induction false} EarlierKept(tables: seq<Table>, ks: seq<Kind>, off: nat)
    requires tables != []
    ensures var r := TablesFrom(tables, ks, off);
            && r[..|tables| - 1] == tables[..|tables| - 1]
            && (DocOf(ks).lead == [] ==> r[..|tables|] == tables)
            && (DocOf(ks).entries != [] ==> |r| > |tables|)
  {
    if ks != [] {
      var n := |ks| - 1;
      EarlierKept(tables, ks[..n], off);
      var was := TablesFrom(tables, ks[..n], off);
      assert TablesFrom(tables, ks, off) == StepTables(was, ks[n], off + n);
      hide TablesFrom;
    }
  }

  // Taking out b of a + b + c, where a ends within table t.
  lemma CutWithin(a: seq<Kind>, c: seq<Kind>, earlier: seq<Table>, x: Table)
    requires earlier != [] && TablesOf(a) == earlier + [x]
    ensures DocOf(a + c) ==
            Doc(PairsOf(earlier[0].keys), EntriesOf(earlier[1..]) + [Entry(x.header, PairsOf(x.keys) + DocOf(c).lead)] + DocOf(c).entries)
    ensures |TablesOf(a + c)| > |earlier| && TablesOf(a + c)[..|earlier|] == earlier
  {
    SaysUpTo(a, earlier, x);
    DocConcat(a, c);
    ThenLast(PairsOf(earlier[0].keys), EntriesOf(earlier[1..]), EntryOf(x), DocOf(c));
    TablesConcat(START.tables, a, c, 0);
    EarlierKept(earlier + [x], c, |a|);
    hide TablesFrom, DocOf, Then;
    assert (earlier + [x])[..|earlier|] == earlier;
  }

  // Taking out what comes between a table and the next.
  lemma CutBetween(a: seq<Kind>, c: seq<Kind>, earlier: seq<Table>)
    requires earlier != [] && TablesOf(a) == earlier && DocOf(c).lead == []
    ensures DocOf(a + c) == Doc(PairsOf(earlier[0].keys), EntriesOf(earlier[1..]) + DocOf(c).entries)
    ensures |TablesOf(a + c)| >= |earlier| && TablesOf(a + c)[..|earlier|] == earlier
  {
    TablesSay(a);
    DocConcat(a, c);
    ThenTables(DocOf(a), DocOf(c));
    TablesConcat(START.tables, a, c, 0);
    EarlierKept(earlier, c, |a|);
    hide TablesFrom, DocOf, Then;
  }

  // ---- A table among the others ----

  ghost predicate Around(ks: seq<Kind>, earlier: seq<Table>, t: Table, later: seq<Table>) {
    earlier != [] && TablesOf(ks) == earlier + [t] + later
  }

  lemma Located(ks: seq<Kind>, earlier: seq<Table>, t: Table, later: seq<Table>)
    requires Around(ks, earlier, t, later)
    ensures TableAt(ks, earlier, t)
  {
    var j := |earlier|;
    assert (earlier + [t] + later)[j] == t && (earlier + [t] + later)[..j] == earlier;
    hide TableAt;
    FindsTable(ks, j);
  }

  lemma PairsUpTo(keys: seq<Key>, i: nat)
    requires i <= |keys|
    ensures PairsOf(keys[..i]) == PairsOf(keys)[..i]
  {
  }

  lemma NextKey(ks: seq<Kind>, earlier: seq<Table>, t: Table, i: nat)
    requires i < |t.keys| && KeyAt(ks, earlier, t, i)
    ensures TablesOf(ks[..t.keys[i].at + 1]) == earlier + [Before(t, i + 1)]
  {
    var at := t.keys[i].at;
    assert ks[..at + 1][..at] == ks[..at];
    assert TablesOf(ks[..at + 1]) == StepTables(earlier + [Before(t, i)], ks[at], at);
    hide TablesOf;
    assert (earlier + [Before(t, i)])[..|earlier|] == earlier;
    assert t.keys[..i] + [t.keys[i]] == t.keys[..i + 1];
  }

  // What is said before a key of a table, and after it.
  lemma AtKey(ks: seq<Kind>, earlier: seq<Table>, t: Table, later: seq<Table>, i: nat)
    requires Around(ks, earlier, t, later) && i < |t.keys|
    ensures KeyAt(ks, earlier, t, i)
    ensures DocOf(ks[t.keys[i].at + 1..]) == Doc(PairsOf(t.keys)[i + 1..], EntriesOf(later))
  {
    Located(ks, earlier, t, later);
    assert KeyAt(ks, earlier, t, i);
    NextKey(ks, earlier, t, i);
    var at := t.keys[i].at;
    hide TableAt, TablesOf, KeyAt;
    assert ks == ks[..at + 1] + ks[at + 1..];
    var x := Before(t, i + 1);
    assert x.header == t.header && x.keys == t.keys[..i + 1];
    SaysAfter(ks[..at + 1], ks[at + 1..], earlier, x, t, later);
    PairsUpTo(t.keys, i + 1);
    hide DocOf, PairsOf, EntriesOf, Before;
    assert PairsOf(t.keys)[i + 1..] == DocOf(ks[at + 1..]).lead;
  }

  lemma AtHead(ks: seq<Kind>, earlier: seq<Table>, t: Table, later: seq<Table>)
    requires Around(ks, earlier, t, later)
    ensures HeadAt(ks, earlier, t)
    ensures DocOf(ks[t.at + 1..]) == Doc(PairsOf(t.keys), EntriesOf(later))
    ensures DocOf(ks[t.end..]) == Doc([], EntriesOf(later))
  {
    Located(ks, earlier, t, later);
    assert ks == ks[..t.at + 1] + ks[t.at + 1..] && ks == ks[..t.end] + ks[t.end..];
    hide TablesOf, KeyAt, DocOf, EntriesOf;
    SaysAfter(ks[..t.at + 1], ks[t.at + 1..], earlier, Before(t, 0), t, later);
    SaysAfter(ks[..t.end], ks[t.end..], earlier, t, t, later);
    assert PairsOf([]) == [];
    hide PairsOf;
    var after, rest := DocOf(ks[t.at + 1..]), DocOf(ks[t.end..]);
    assert [] + after.lead == after.lead;
    assert |rest.lead| == 0;
  }

  // A key taken out.
  lemma KeyCut(ks: seq<Kind>, earlier: seq<Table>, t: Table, later: seq<Table>, i: nat)
    requires Around(ks, earlier, t, later) && i < |t.keys|
    ensures KeyAt(ks, earlier, t, i)
    ensures var cut := ks[..t.keys[i].at] + ks[t.keys[i].at + 1..];
            && DocOf(cut) == Doc(PairsOf(earlier[0].keys), EntriesOf(earlier[1..]) +
                                                           [Entry(t.header, PairsOf(t.keys)[..i] + PairsOf(t.keys)[i + 1..])] + EntriesOf(later))
            && |TablesOf(cut)| >= |earlier| && TablesOf(cut)[..|earlier|] == earlier
  {
    AtKey(ks, earlier, t, later, i);
    var at := t.keys[i].at;
    hide TablesOf, DocOf;
    CutWithin(ks[..at], ks[at + 1..], earlier, Before(t, i));
    PairsUpTo(t.keys, i);
  }

  // Lines around a table taken out with it, nothing said on them.
  lemma TableCut(ks: seq<Kind>, earlier: seq<Table>, later: seq<Table>, a: nat, b: nat)
    requires earlier != [] && a <= b <= |ks|
    requires TablesOf(ks[..a]) == earlier && DocOf(ks[b..]) == Doc([], EntriesOf(later))
    ensures var cut := ks[..a] + ks[b..];
            && DocOf(cut) == Doc(PairsOf(earlier[0].keys), EntriesOf(earlier[1..]) + EntriesOf(later))
            && |TablesOf(cut)| >= |earlier| && TablesOf(cut)[..|earlier|] == earlier
  {
    CutBetween(ks[..a], ks[b..], earlier);
  }

  lemma NothingSaysNothing(ks: seq<Kind>, i: nat)
    requires i < |ks| && ks[i] == Nothing
    ensures TablesOf(ks[..i + 1]) == TablesOf(ks[..i])
    ensures DocOf(ks[i..]) == DocOf(ks[i + 1..])
  {
    assert ks[..i + 1][..i] == ks[..i];
    assert ks[i..] == [Nothing] + ks[i + 1..];
    DocConcat([Nothing], ks[i + 1..]);
    assert DocOf([Nothing]) == Doc([], []);
    var d := DocOf(ks[i + 1..]);
    hide DocOf, TablesOf;
    assert [] + d.lead == d.lead && [] + d.entries == d.entries;
  }
}
