// When the switch, turned off, reads back as off (internal/skills/codexconfig.go
// codexBundled, editCodexBundled).
module CodexOffReads {
  import opened Prelude
  import opened Text
  import opened Toml
  import opened TomlTables
  import opened TomlDoc
  import opened CodexConfig
  import opened CodexSwitch
  import opened CodexOff
  import opened CodexReadBack
  import opened CodexInverse

  // ---- The value of a key there already ----

  lemma SetReads(lines: seq<string>, earlier: seq<Table>, t: Table, later: seq<Table>)
    requires Among(lines, earlier, t, later) && IsBundled(t) && Chunks(lines)
    requires forall k :: 0 <= k < |later| ==> !IsBundled(later[k])
    requires var i := EnabledAt(t.keys);
             && i < |t.keys| && t.keys[i].at < |lines| && ModeAfterValue(t.keys[i].value) == Normal
             && Find(lines[t.keys[i].at], '=') < |lines[t.keys[i].at]| && ModeAfterValue(NewValue(lines[t.keys[i].at])) == Normal
    ensures var at := t.keys[EnabledAt(t.keys)].at;
            CodexBundled(Concat(lines[at := SetTomlValue(lines[at], "false")])) <==> !TailIsBlank(lines[at])
  {
    var i := EnabledAt(t.keys);
    var at := t.keys[i].at;
    var out, now := lines[at := SetTomlValue(lines[at], "false")], NewValue(lines[at]);
    EnabledIsFirst(t.keys);
    BundledHeader(t);
    hide *;
    KeyOnLine(lines, earlier, t, later, i);
    NewLineSays(lines[at], t.keys[i].value);
    AfterSet(lines, earlier, t, later, i, now);
    SetChunks(lines, at);
    SaysAgain(out);
    ReadsFile(Concat(out));
    var a, b := PairsOf(t.keys)[..i], PairsOf(t.keys)[i + 1..];
    FirstOf(a, Pair("enabled", now), b);
    assert (a + [Pair("enabled", now)] + b)[i] == Pair("enabled", now);
    SaysLast(EntriesOf(earlier[1..]), Entry(t.header, a + [Pair("enabled", now)] + b), later);
  }

  // ---- A table put inside a value that is not closed ----

  lemma {:induction false} NoQuoteInside(s: string, delim: string)
    requires delim == TRIPLE_DOUBLE || delim == TRIPLE_SINGLE
    requires forall i :: 0 <= i < |s| ==> !IsBareQuote(s[i])
    ensures !Contains(s, delim)
  {
    assert IsBareQuote(delim[0]);
    if s != "" {
      NoQuoteInside(s[1..], delim);
      assert delim[0] != s[0];
    }
  }

  lemma LinesAreNothing(m: Mode, line: string, text: string)
    requires ModeOk(m) && m != Normal && TrimSpace(line) == text && BracketDepth(text) == 0
    requires forall i :: 0 <= i < |text| ==> !IsBareQuote(text[i])
    ensures KindOf(m, line) == Nothing && NextMode(m, line) == m
  {
    if m.InString? {
      NoQuoteInside(text, m.delim);
    }
    hide BracketDepth, Contains, TrimSpace;
  }

  lemma AddedDepths()
    ensures BracketDepth(BUNDLED_TABLE) == 0 && BracketDepth(ENABLED_LINE) == 0
    ensures forall i :: 0 <= i < |ENABLED_LINE| ==> !IsBareQuote(ENABLED_LINE[i])
    ensures ENABLED_LINE != "" && !IsSpace(ENABLED_LINE[0]) && !IsSpace(ENABLED_LINE[|ENABLED_LINE| - 1])
  {
    var name := "skills.bundled";
    InnerDepth(name);
    BundledDepth(name);
    EnabledChars();
    hide *;
    assert ENABLED_LINE + "" == ENABLED_LINE;
    PlainDepth(ENABLED_LINE, "");
  }

  lemma EnabledChars()
    ensures forall i :: 0 <= i < |ENABLED_LINE| ==> IsPlain(ENABLED_LINE[i]) && !IsBareQuote(ENABLED_LINE[i])
    ensures ENABLED_LINE != "" && !IsSpace(ENABLED_LINE[0]) && !IsSpace(ENABLED_LINE[|ENABLED_LINE| - 1])
  {
  }

  lemma BundledDepth(name: string)
    requires BUNDLED_TABLE == "[" + name + "]" && BracketDepth(name + "]") == -1
    ensures BracketDepth(BUNDLED_TABLE) == 0
  {
    assert BUNDLED_TABLE[1..] == name + "]";
  }

  lemma {:induction false} InnerDepth(s: string)
    requires forall i :: 0 <= i < |s| ==> IsPlain(s[i])
    ensures BracketDepth(s + "]") == -1
  {
    if s == "" {
      assert s + "]" == "]" && "]"[1..] == "";
    } else {
      InnerDepth(s[1..]);
      assert (s + "]")[1..] == s[1..] + "]";
    }
  }

  lemma TablesSame(content: string)
    requires ScanToml(TomlLines(content)).mode != Normal
    ensures TablesOf(Kinds(Normal, Base(content) + Added(content))) == ScanToml(TomlLines(content)).tables
  {
    var eol := EolOf(content);
    AddedAre(content);
    EolOk(content);
    AddedDepths();
    BundledChars();
    BundledEnds();
    hide *;
    BaseSays(content);
    var base, m := Base(content), EndMode(Normal, Base(content));
    ModesOk(base);
    TrimsEol(BUNDLED_TABLE, eol);
    TrimsEol(ENABLED_LINE, eol);
    LinesAreNothing(m, BUNDLED_TABLE + eol, BUNDLED_TABLE);
    LinesAreNothing(m, ENABLED_LINE + eol, ENABLED_LINE);
    OneMore(base, BUNDLED_TABLE + eol);
    OneMore(base + [BUNDLED_TABLE + eol], ENABLED_LINE + eol);
    NothingMore(Kinds(Normal, base));
    NothingMore(Kinds(Normal, base) + [Nothing]);
    assert base + [BUNDLED_TABLE + eol] + [ENABLED_LINE + eol] == base + Added(content);
  }

  lemma SameTablesSameDoc(a: seq<string>, b: seq<string>)
    requires TablesOf(Kinds(Normal, a)) == TablesOf(Kinds(Normal, b))
    ensures DocAt(a) == DocAt(b)
  {
    hide *;
    DocAtIs(a);
    DocAtIs(b);
    TablesSay(Kinds(Normal, a));
    TablesSay(Kinds(Normal, b));
  }

  lemma NothingNamedIsOn(content: string)
    requires Named(ScanToml(TomlLines(content)).tables) == []
    ensures CodexBundled(content)
  {
    hide TomlLines, ScanToml, Named;
  }

  lemma AppendStaysOn(content: string)
    requires ScanToml(TomlLines(content)).mode != Normal && Named(ScanToml(TomlLines(content)).tables) == []
    ensures CodexBundled(AppendTable(content, BUNDLED_TABLE, ENABLED_LINE))
  {
    hide *;
    var all := Base(content) + Added(content);
    TablesSame(content);
    ScanTables(TomlLines(content));
    SameTablesSameDoc(all, TomlLines(content));
    AppendText(content);
    AppendChunks(content);
    SaysAgain(all);
    ReadsFile(AppendTable(content, BUNDLED_TABLE, ENABLED_LINE));
    ReadsFile(content);
    NothingNamedIsOn(content);
  }

  // ---- When off reads back ----

  // The line that sets the switch in the table turning it off edits, if there is
  // one.
  function SwitchLineOf(content: string): Option<string> {
    var lines := TomlLines(content);
    var tables := Named(ScanToml(lines).tables);
    if tables == [] then None
    else
      var keys := tables[|tables| - 1].keys;
      var i := EnabledAt(keys);
      if i < |keys| && keys[i].at < |lines| then Some(lines[keys[i].at]) else None
  }

  // The value there now ends on its line.
  predicate EndsOnLine(content: string) {
    SwitchLineOf(content).Some? ==>
      var k := KindOf(Normal, SwitchLineOf(content).value);
      k.KeyLine? ==> ModeAfterValue(k.value) == Normal
  }

  // So does what it becomes when its first word is swapped.
  predicate StillEndsOnLine(content: string) {
    SwitchLineOf(content).Some? ==>
      var line := SwitchLineOf(content).value;
      Find(line, '=') < |line| && ModeAfterValue(NewValue(line)) == Normal
  }

  // A table can be added at the end: no value is open there. And a value swapped
  // has nothing after its first word.
  predicate OffReady(content: string) {
    if Named(ScanToml(TomlLines(content)).tables) == [] then ScanToml(TomlLines(content)).mode == Normal
    else SwitchLineOf(content).Some? ==> TailIsBlank(SwitchLineOf(content).value)
  }

  lemma NoTableReads(content: string)
    requires Named(ScanToml(TomlLines(content)).tables) == []
    ensures CodexBundled(EditBundled(content, false)) <==> !OffReady(content)
  {
    NoTableReady(content);
    hide *;
    OffAppends(content);
    if OffReady(content) {
      AppendReadsBack(content);
    } else {
      AppendStaysOn(content);
    }
  }

  lemma NoTableReady(content: string)
    requires Named(ScanToml(TomlLines(content)).tables) == []
    ensures OffReady(content) <==> ScanToml(TomlLines(content)).mode == Normal
  {
    hide Named, TomlLines, ScanToml;
  }

  lemma SwitchLineIs(content: string, lines: seq<string>, t: Table)
    requires lines == TomlLines(content) && TableIn(t, lines)
    requires var tables := Named(ScanToml(lines).tables);
             tables != [] && t == tables[|tables| - 1]
    ensures var i := EnabledAt(t.keys);
            && (SwitchLineOf(content) == if i < |t.keys| then Some(lines[t.keys[i].at]) else None)
            && (OffReady(content) <==> (i < |t.keys| ==> TailIsBlank(lines[t.keys[i].at])))
  {
    hide Named, TomlLines, ScanToml, EnabledAt, TailIsBlank;
  }

  lemma NewValueEnds(content: string)
    requires SwitchLineOf(content).Some? && KindOf(Normal, SwitchLineOf(content).value).KeyLine?
    requires KindOf(Normal, SwitchLineOf(content).value).name == "enabled"
    ensures var line := SwitchLineOf(content).value;
            Find(line, '=') < |line| && (TailIsBlank(line) || StillEndsOnLine(content) ==> ModeAfterValue(NewValue(line)) == Normal)
  {
    var line := SwitchLineOf(content).value;
    var value := KindOf(Normal, line).value;
    hide KindOf, SwitchLineOf, ModeAfterValue, TailIsBlank, NewValue, Find, IsFalse;
    NewLineSays(line, value);
    if TailIsBlank(line) {
      FalseIsOneLine(NewValue(line));
    }
  }

  // Where the value there ends on its line, turning the switch off reads back as
  // off if no value is open at the end of a file without the table, and nothing
  // but a comment follows the first word of a value that is there; and only if,
  // unless what is left of the value opens something.
  lemma OffReadsBackIff(content: string)
    requires EndsOnLine(content)
    ensures OffReady(content) ==> !CodexBundled(EditBundled(content, false))
    ensures StillEndsOnLine(content) ==> (OffReady(content) <==> !CodexBundled(EditBundled(content, false)))
  {
    hide *;
    var lines := TomlLines(content);
    if Named(ScanToml(lines).tables) == [] {
      NoTableReads(content);
    } else {
      var earlier, t, later := LastNamed(lines);
      SplitChunks(content);
      OffEdits(content, lines, t);
      StartsInside(t, lines);
      SwitchLineIs(content, lines, t);
      if EnabledAt(t.keys) < |t.keys| {
        var at := t.keys[EnabledAt(t.keys)].at;
        EnabledIsFirst(t.keys);
        KeyOnLine(lines, earlier, t, later, EnabledAt(t.keys));
        NewValueEnds(content);
        OnLine(content);
        EditSets(lines, t, EolOf(content));
        if TailIsBlank(lines[at]) || StillEndsOnLine(content) {
          SetReads(lines, earlier, t, later);
        }
      } else {
        EarlierSome(lines, earlier, t, later);
        InsertReadsBack(content, lines, earlier, t, later);
        EditInserts(lines, t, EolOf(content));
      }
    }
  }

  lemma OnLine(content: string)
    requires EndsOnLine(content) && SwitchLineOf(content).Some? && KindOf(Normal, SwitchLineOf(content).value).KeyLine?
    ensures ModeAfterValue(KindOf(Normal, SwitchLineOf(content).value).value) == Normal
  {
    hide KindOf, SwitchLineOf, ModeAfterValue;
  }

  // ---- A value that goes on over several lines ----

  // No line after the one that sets the switch could be a header of its table.
  predicate NoHeaderAfter(lines: seq<string>, at: nat) {
    forall j :: at < j < |lines| ==> KindOf(Normal, lines[j]) != Header(BUNDLED_TABLE)
  }

  lemma {:induction false} KindsHaveNoHeader(m: Mode, lines: seq<string>)
    requires forall j :: 0 <= j < |lines| ==> KindOf(Normal, lines[j]) != Header(BUNDLED_TABLE)
    ensures forall j :: 0 <= j < |lines| ==> Kinds(m, lines)[j] != Header(BUNDLED_TABLE)
  {
    forall j | 0 <= j < |lines| ensures Kinds(m, lines)[j] != Header(BUNDLED_TABLE) {
      KindAt(m, lines, j);
      hide Kinds, EndMode, KindOfText;
    }
  }

  lemma {:induction false} EntriesOfOthers(ks: seq<Kind>)
    requires forall j :: 0 <= j < |ks| ==> ks[j] != Header(BUNDLED_TABLE)
    ensures forall e :: e in DocOf(ks).entries ==> e.header != BUNDLED_TABLE
  {
    if ks != [] {
      EntriesOfOthers(ks[..|ks| - 1]);
    }
  }

  // Some table of the switch there sets it.
  predicate Speaks(es: seq<Entry>) {
    exists k :: 0 <= k < |es| && es[k].header == BUNDLED_TABLE && FirstPair(es[k].keys, "enabled") < |es[k].keys|
  }

  lemma SpeaksNext(es: seq<Entry>, e: Entry)
    ensures Speaks(es + [e]) <==> Speaks(es) || (e.header == BUNDLED_TABLE && FirstPair(e.keys, "enabled") < |e.keys|)
  {
    hide FirstPair;
    assert (es + [e])[|es|] == e;
    if Speaks(es) {
      var k :| 0 <= k < |es| && es[k].header == BUNDLED_TABLE && FirstPair(es[k].keys, "enabled") < |es[k].keys|;
      assert (es + [e])[k] == es[k];
    }
  }

  // The last tables that set the switch decide, and those before them if none
  // does.
  lemma {:induction false} LaterSay(es: seq<Entry>, more: seq<Entry>)
    ensures SaysOn(es + more) == if Speaks(more) then SaysOn(more) else SaysOn(es)
  {
    hide FirstPair, IsFalse, SaysOn;
    if more == [] {
      assert es + more == es;
    } else {
      var n := |more| - 1;
      LaterSay(es, more[..n]);
      assert es + more == es + more[..n] + [more[n]] && more == more[..n] + [more[n]];
      SaysOnNext(es + more[..n], more[n]);
      SaysOnNext(more[..n], more[n]);
      SpeaksNext(more[..n], more[n]);
      hide Speaks;
    }
  }

  // The kinds of a file with a line swapped for one that sets the switch: what
  // comes after is read as that line's value leaves it to be.
  lemma KindsSwapped(lines: seq<string>, at: nat, line: string, value: string)
    requires at < |lines| && EndMode(Normal, lines[..at]) == Normal && KindOf(Normal, line) == KeyLine("enabled", value)
    ensures Kinds(Normal, lines[at := line]) ==
            Kinds(Normal, lines)[..at] + [KeyLine("enabled", value)] + Kinds(ModeAfterValue(value), lines[at + 1..])
  {
    hide *;
    var a, b := lines[..at], lines[at + 1..];
    SwapParts(lines, at, line);
    OneLine(line, value);
    KindsConcat(Normal, a, lines[at..]);
    KindsConcat(Normal, a, [line]);
    KindsConcat(Normal, a + [line], b);
  }

  lemma SwapParts(lines: seq<string>, at: nat, line: string)
    requires at < |lines|
    ensures lines == lines[..at] + lines[at..] && lines[at := line] == lines[..at] + [line] + lines[at + 1..]
  {
  }

  // What the lines after the switch's are read as once its value's first word is
  // false.
  function ReadAfter(lines: seq<string>, at: nat): seq<Entry>
    requires at < |lines| && Find(lines[at], '=') < |lines[at]|
  {
    DocOf(Kinds(ModeAfterValue(NewValue(lines[at])), lines[at + 1..])).entries
  }

  lemma ReadAfterIs(lines: seq<string>, at: nat)
    requires at < |lines| && Find(lines[at], '=') < |lines[at]|
    ensures ReadAfter(lines, at) == DocOf(Kinds(ModeAfterValue(NewValue(lines[at])), lines[at + 1..])).entries
  {
  }

  lemma SwappedReads(lines: seq<string>, earlier: seq<Table>, t: Table, later: seq<Table>)
    requires Among(lines, earlier, t, later) && IsBundled(t) && Chunks(lines)
    requires EnabledAt(t.keys) < |t.keys| && t.keys[EnabledAt(t.keys)].at < |lines|
    ensures var at := t.keys[EnabledAt(t.keys)].at;
            && Find(lines[at], '=') < |lines[at]|
            && (CodexBundled(Concat(lines[at := SetTomlValue(lines[at], "false")])) ==
                if Speaks(ReadAfter(lines, at)) then SaysOn(ReadAfter(lines, at)) else !TailIsBlank(lines[at]))
  {
    var i := EnabledAt(t.keys);
    var at := t.keys[i].at;
    var line, rest := SetTomlValue(lines[at], "false"), lines[at + 1..];
    var out := lines[at := line];
    EnabledIsFirst(t.keys);
    BundledHeader(t);
    hide *;
    KeyOnLine(lines, earlier, t, later, i);
    NewLineSays(lines[at], t.keys[i].value);
    var p := Pair("enabled", NewValue(lines[at]));
    KindsSwapped(lines, at, line, p.value);
    KeyIsAt(lines, earlier, t, later, i);
    var b := Kinds(ModeAfterValue(p.value), rest);
    KeyPut(Kinds(Normal, lines)[..at], b, earlier, Before(t, i), p);
    PairsUpTo(t.keys, i);
    BeforeKeys(t, i);
    SetChunks(lines, at);
    SaysAgain(out);
    ReadsFile(Concat(out));
    DocAtIs(out);
    ReadAfterIs(lines, at);
    SaysNow(EntriesOf(earlier[1..]), PairsOf(t.keys)[..i], p, DocOf(b).lead, DocOf(b).entries);
  }

  lemma SaysNow(es: seq<Entry>, a: seq<Pair>, p: Pair, lead: seq<Pair>, more: seq<Entry>)
    requires p.name == "enabled" && forall k :: 0 <= k < |a| ==> a[k].name != "enabled"
    ensures SaysOn(es + [Entry(BUNDLED_TABLE, a + [p] + lead)] + more) ==
            if Speaks(more) then SaysOn(more) else !IsFalse(p.value)
  {
    var e := Entry(BUNDLED_TABLE, a + [p] + lead);
    hide FirstPair, IsFalse, SaysOn, Speaks;
    FirstOf(a, p, lead);
    assert e.keys[|a|] == p;
    LaterSay(es + [e], more);
    SaysOnNext(es, e);
  }

  // ---- Exactly when ----

  // With no table, no value is open at the end. With a table and no key, always.
  // With a key: what the lines after it say in the mode its new value leaves, and
  // where they say nothing, that nothing but a comment follows its first word.
  predicate OffHolds(content: string) {
    var lines := TomlLines(content);
    var tables := Named(ScanToml(lines).tables);
    if tables == [] then ScanToml(lines).mode == Normal
    else
      var keys := tables[|tables| - 1].keys;
      var i := EnabledAt(keys);
      i < |keys| ==>
        var at := keys[i].at;
        && at < |lines| && Find(lines[at], '=') < |lines[at]|
        && if Speaks(ReadAfter(lines, at)) then !SaysOn(ReadAfter(lines, at)) else TailIsBlank(lines[at])
  }

  lemma HoldsWithNoTable(content: string)
    requires Named(ScanToml(TomlLines(content)).tables) == []
    ensures OffHolds(content) <==> OffReady(content)
  {
    hide Named, TomlLines, ScanToml;
  }

  lemma HoldsWithTable(content: string, lines: seq<string>, t: Table)
    requires lines == TomlLines(content) && TableIn(t, lines)
    requires var tables := Named(ScanToml(lines).tables); tables != [] && t == tables[|tables| - 1]
    requires var i := EnabledAt(t.keys); i < |t.keys| ==> Find(lines[t.keys[i].at], '=') < |lines[t.keys[i].at]|
    ensures var i := EnabledAt(t.keys);
            OffHolds(content) <==>
            (i < |t.keys| ==>
               var at := t.keys[i].at;
               if Speaks(ReadAfter(lines, at)) then !SaysOn(ReadAfter(lines, at)) else TailIsBlank(lines[at]))
  {
    hide Named, TomlLines, ScanToml, EnabledAt, TailIsBlank, Speaks, SaysOn, ReadAfter, Find;
  }

  // Turned off, any file reads as off if and only if that holds of it, whether
  // or not a value ends on its line.
  lemma OffReadsBackExactly(content: string)
    ensures !CodexBundled(EditBundled(content, false)) <==> OffHolds(content)
  {
    hide *;
    var lines := TomlLines(content);
    if Named(ScanToml(lines).tables) == [] {
      NoTableReads(content);
      HoldsWithNoTable(content);
    } else {
      var earlier, t, later := LastNamed(lines);
      SplitChunks(content);
      OffEdits(content, lines, t);
      StartsInside(t, lines);
      if EnabledAt(t.keys) < |t.keys| {
        KeyOnLine(lines, earlier, t, later, EnabledAt(t.keys));
        EditSets(lines, t, EolOf(content));
        SwappedReads(lines, earlier, t, later);
        HoldsWithTable(content, lines, t);
      } else {
        EarlierSome(lines, earlier, t, later);
        InsertReadsBack(content, lines, earlier, t, later);
        EditInserts(lines, t, EolOf(content));
        HoldsWithTable(content, lines, t);
      }
    }
  }

  lemma NoHeaderNothingSaid(lines: seq<string>, at: nat)
    requires at < |lines| && Find(lines[at], '=') < |lines[at]| && NoHeaderAfter(lines, at)
    ensures !Speaks(ReadAfter(lines, at))
  {
    var rest := lines[at + 1..];
    assert forall j :: 0 <= j < |rest| ==> KindOf(Normal, rest[j]) != Header(BUNDLED_TABLE) by {
      hide KindOf;
      assert forall j :: 0 <= j < |rest| ==> rest[j] == lines[at + 1 + j];
    }
    hide KindOf, Kinds, DocOf, NewValue, ModeAfterValue, FirstPair;
    var b := Kinds(ModeAfterValue(NewValue(lines[at])), rest);
    KindsHaveNoHeader(ModeAfterValue(NewValue(lines[at])), rest);
    EntriesOfOthers(b);
  }

  // Whether or not the value there ends on its line: with nothing but a comment
  // after its first word, and no header of the table in any line below, which
  // may be the rest of the value, turning off reads back as off.
  lemma OpenValueReadsBack(content: string, at: nat)
    requires Named(ScanToml(TomlLines(content)).tables) != []
    requires var keys := Named(ScanToml(TomlLines(content)).tables)[|Named(ScanToml(TomlLines(content)).tables)| - 1].keys;
             EnabledAt(keys) < |keys| && keys[EnabledAt(keys)].at == at
    requires at < |TomlLines(content)| && TailIsBlank(TomlLines(content)[at]) && NoHeaderAfter(TomlLines(content), at)
    ensures !CodexBundled(EditBundled(content, false))
  {
    hide *;
    var lines := TomlLines(content);
    var earlier, t, later := LastNamed(lines);
    SplitChunks(content);
    OffEdits(content, lines, t);
    EditSets(lines, t, EolOf(content));
    SwappedReads(lines, earlier, t, later);
    NoHeaderNothingSaid(lines, at);
  }
}
