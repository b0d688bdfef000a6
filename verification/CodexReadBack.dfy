// What a file says with a value swapped, the switch's line put under a header, or
// its table put at the end (internal/skills/codexconfig.go setTOMLValue,
// insertLine, appendTable).
module CodexReadBack {
  import opened Prelude
  import opened Text
  import opened Toml
  import opened TomlTables
  import opened TomlDoc
  import opened CodexConfig
  import opened CodexSwitch
  import opened CodexOff

  // ---- A line replaced ----

  lemma ReplaceLine(lines: seq<string>, at: nat, more: seq<string>)
    requires at < |lines| && EndMode(Normal, lines[..at]) == Normal && EndMode(Normal, lines[..at + 1]) == Normal
    requires EndMode(Normal, more) == Normal
    ensures var ks := Kinds(Normal, lines);
            Kinds(Normal, lines[..at] + more + lines[at + 1..]) == ks[..at] + Kinds(Normal, more) + ks[at + 1..]
  {
    hide *;
    KindsConcat(Normal, lines[..at], lines[at..]);
    KindsConcat(Normal, lines[..at + 1], lines[at + 1..]);
    KindsConcat(Normal, lines[..at], more);
    KindsConcat(Normal, lines[..at] + more, lines[at + 1..]);
    assert lines == lines[..at] + lines[at..] && lines == lines[..at + 1] + lines[at + 1..];
  }

  // A key put after what a says, before what b says.
  lemma KeyPut(a: seq<Kind>, b: seq<Kind>, earlier: seq<Table>, x: Table, p: Pair)
    requires earlier != [] && TablesOf(a) == earlier + [x]
    ensures DocOf(a + [KeyLine(p.name, p.value)] + b) ==
            Doc(PairsOf(earlier[0].keys),
                EntriesOf(earlier[1..]) + [Entry(x.header, PairsOf(x.keys) + [p] + DocOf(b).lead)] + DocOf(b).entries)
  {
    var k := KeyLine(p.name, p.value);
    var key := Key(p.name, p.value, |a|);
    LastKind(START.tables, a, k, 0);
    assert TablesOf(a + [k]) == earlier + [AddKey(x, key)] by {
      hide TablesFrom;
      assert (earlier + [x])[..|earlier|] == earlier;
    }
    PairsNext(x.keys, key);
    hide TablesOf, DocOf, PairsOf, EntriesOf;
    CutWithin(a + [k], b, earlier, AddKey(x, key));
  }

  // ---- The last table says ----

  lemma {:induction false} OthersSayNothing(es: seq<Entry>, later: seq<Table>)
    requires forall k :: 0 <= k < |later| ==> !IsBundled(later[k])
    ensures SaysOn(es + EntriesOf(later)) == SaysOn(es)
  {
    hide FirstPair, IsFalse, SaysOn, EntriesOf;
    if later == [] {
      NoEntries();
      assert es + [] == es;
    } else {
      var init, t := later[..|later| - 1], later[|later| - 1];
      OthersSayNothing(es, init);
      assert later == init + [t];
      EntriesNext(init, t);
      assert es + (EntriesOf(init) + [EntryOf(t)]) == es + EntriesOf(init) + [EntryOf(t)];
      SaysOnNext(es + EntriesOf(init), EntryOf(t));
    }
  }

  lemma SaysLast(es: seq<Entry>, e: Entry, later: seq<Table>)
    requires e.header == BUNDLED_TABLE && FirstPair(e.keys, "enabled") < |e.keys|
    requires forall k :: 0 <= k < |later| ==> !IsBundled(later[k])
    ensures SaysOn(es + [e] + EntriesOf(later)) <==> !IsFalse(e.keys[FirstPair(e.keys, "enabled")].value)
  {
    hide FirstPair, IsFalse, SaysOn, EntriesOf, IsBundled;
    OthersSayNothing(es + [e], later);
    SaysOnNext(es, e);
  }

  lemma FirstOf(a: seq<Pair>, p: Pair, b: seq<Pair>)
    requires p.name == "enabled" && forall k :: 0 <= k < |a| ==> a[k].name != "enabled"
    ensures FirstPair(a + [p] + b, "enabled") == |a|
  {
    assert a + [p] + b == a + ([p] + b);
    FirstPairAfter(a, [p] + b, "enabled");
  }

  // ---- The value of a key there already ----

  lemma AfterSet(lines: seq<string>, earlier: seq<Table>, t: Table, later: seq<Table>, i: nat, now: string)
    requires Among(lines, earlier, t, later) && i < |t.keys| && t.keys[i].at < |lines|
    requires ModeAfterValue(t.keys[i].value) == Normal
    requires KindOf(Normal, SetTomlValue(lines[t.keys[i].at], "false")) == KeyLine("enabled", now)
    requires ModeAfterValue(now) == Normal
    ensures var at := t.keys[i].at;
            DocAt(lines[at := SetTomlValue(lines[at], "false")]) ==
            Doc(PairsOf(earlier[0].keys), EntriesOf(earlier[1..]) +
                                          [Entry(t.header, PairsOf(t.keys)[..i] + [Pair("enabled", now)] + PairsOf(t.keys)[i + 1..])] +
                                          EntriesOf(later))
  {
    hide *;
    var at, ks := t.keys[i].at, Kinds(Normal, lines);
    var line := SetTomlValue(lines[at], "false");
    KeyOnLine(lines, earlier, t, later, i);
    OneLine(line, now);
    ReplaceLine(lines, at, [line]);
    assert lines[at := line] == lines[..at] + [line] + lines[at + 1..];
    KeyIsAt(lines, earlier, t, later, i);
    KeyPut(ks[..at], ks[at + 1..], earlier, Before(t, i), Pair("enabled", now));
    PairsUpTo(t.keys, i);
    BeforeKeys(t, i);
    DocAtIs(lines[at := line]);
  }

  lemma DocAtIs(lines: seq<string>)
    ensures DocAt(lines) == DocOf(Kinds(Normal, lines))
  {
  }

  lemma BeforeKeys(t: Table, i: nat)
    requires i <= |t.keys| && t.at >= 0
    ensures Before(t, i).keys == t.keys[..i] && Before(t, i).header == t.header
  {
  }

  lemma KeyIsAt(lines: seq<string>, earlier: seq<Table>, t: Table, later: seq<Table>, i: nat)
    requires Among(lines, earlier, t, later) && i < |t.keys|
    ensures var k, ks := t.keys[i], Kinds(Normal, lines);
            && earlier != [] && 0 <= t.at && k.at < |ks|
            && TablesOf(ks[..k.at]) == earlier + [Before(t, i)]
            && DocOf(ks[k.at + 1..]) == Doc(PairsOf(t.keys)[i + 1..], EntriesOf(later))
  {
    AtKey(Kinds(Normal, lines), earlier, t, later, i);
    hide TablesOf, DocOf, Kinds, PairsOf, EntriesOf;
  }

  // A line that sets the switch, on its own.
  lemma OneLine(line: string, value: string)
    requires KindOf(Normal, line) == KeyLine("enabled", value)
    ensures Kinds(Normal, [line]) == [KeyLine("enabled", value)] && EndMode(Normal, [line]) == ModeAfterValue(value)
  {
    hide KindOf, ModeAfterValue;
    assert [line][..0] == [];
  }

  // ---- A key put under a header ----

  lemma EnabledKey()
    ensures TrimLeft("enabled ") == "enabled " && Unquote("enabled ") == "enabled"
    ensures forall i :: 0 <= i < |"enabled "| ==> "enabled "[i] != '='
  {
    NotSpace();
    hide IsSpace, AllSpace;
    TrimOf("", "enabled", " ");
    assert "" + "enabled" + " " == "enabled ";
    hide TrimSpace;
    assert TrimQuotesLeft("enabled") == "enabled" && TrimQuotesRight("enabled") == "enabled";
  }

  lemma FalseValue(eol: string)
    requires eol == "\n" || eol == "\r\n"
    ensures TrimSpace(" false" + eol) == "false"
  {
    EolIsSpace(eol);
    TrimOf(" ", "false", eol);
    hide *;
    assert " " + "false" == " false";
  }

  lemma EolIsSpace(eol: string)
    requires eol == "\n" || eol == "\r\n"
    ensures AllSpace(eol)
  {
  }

  lemma EnabledLineKind(eol: string)
    requires eol == "\n" || eol == "\r\n"
    ensures KindOf(Normal, ENABLED_LINE + eol) == KeyLine("enabled", "false") && IsFalse("false")
  {
    hide *;
    EnabledKey();
    FalseValue(eol);
    FalseAlone();
    LineIs(eol);
    KeyLineKind("enabled ", " false" + eol);
  }

  lemma LineIs(eol: string)
    ensures ENABLED_LINE + eol == "enabled " + "=" + (" false" + eol)
  {
  }

  lemma NotSpace()
    ensures !IsSpace('e') && !IsSpace('d') && AllSpace("") && AllSpace(" ")
  {
  }

  // A header is the same with its line ended.
  lemma EndedSame(line: string, eol: string)
    requires eol == "\n" || eol == "\r\n"
    ensures KindOf(Normal, Ended(line, eol)) == KindOf(Normal, line)
  {
    assert AllSpace(eol);
    hide IsSpace, TrimSpace, KindOfText;
    if !EndsLine(line) {
      AfterIsTrimmed(line, eol);
    }
  }

  lemma InsertIs(lines: seq<string>, at: nat, line: string, eol: string)
    requires at < |lines|
    ensures InsertLine(lines, at + 1, line, eol) == lines[..at] + [Ended(lines[at], eol), line + eol] + lines[at + 1..]
  {
    hide Ended;
  }

  lemma HeadKinds(ks: seq<Kind>, at: nat, h: Kind, k: Kind)
    requires at < |ks| && ks[at] == h
    ensures ks[..at] + [h, k] + ks[at + 1..] == ks[..at + 1] + [k] + ks[at + 1..]
  {
  }

  lemma AfterInsert(lines: seq<string>, earlier: seq<Table>, t: Table, later: seq<Table>, eol: string)
    requires Among(lines, earlier, t, later) && TableIn(t, lines) && (eol == "\n" || eol == "\r\n")
    ensures DocAt(InsertLine(lines, t.at + 1, ENABLED_LINE, eol)) ==
            Doc(PairsOf(earlier[0].keys), EntriesOf(earlier[1..]) +
                                          [Entry(t.header, [Pair("enabled", "false")] + PairsOf(t.keys))] + EntriesOf(later))
  {
    hide *;
    var at, ks := t.at, Kinds(Normal, lines);
    HeadIsAt(lines, earlier, t, later);
    var head, line := Ended(lines[at], eol), ENABLED_LINE + eol;
    InsertIs(lines, at, ENABLED_LINE, eol);
    EndedSame(lines[at], eol);
    EnabledLineKind(eol);
    HeadAndKey(head, line, t.header);
    ReplaceLine(lines, at, [head, line]);
    HeadKinds(ks, at, Header(t.header), KeyLine("enabled", "false"));
    DocAtIs(InsertLine(lines, at + 1, ENABLED_LINE, eol));
    PutFirst(ks, at, earlier, t, later);
  }

  lemma PutFirst(ks: seq<Kind>, at: nat, earlier: seq<Table>, t: Table, later: seq<Table>)
    requires earlier != [] && t.at >= 0 && at < |ks|
    requires TablesOf(ks[..at + 1]) == earlier + [Before(t, 0)]
    requires DocOf(ks[at + 1..]) == Doc(PairsOf(t.keys), EntriesOf(later))
    ensures DocOf(ks[..at + 1] + [KeyLine("enabled", "false")] + ks[at + 1..]) ==
            Doc(PairsOf(earlier[0].keys), EntriesOf(earlier[1..]) +
                                          [Entry(t.header, [Pair("enabled", "false")] + PairsOf(t.keys))] + EntriesOf(later))
  {
    hide *;
    KeyPut(ks[..at + 1], ks[at + 1..], earlier, Before(t, 0), Pair("enabled", "false"));
    BeforeKeys(t, 0);
    NoPairs();
    assert t.keys[..0] == [];
    assert [] + [Pair("enabled", "false")] == [Pair("enabled", "false")];
  }

  lemma NoPairs()
    ensures PairsOf([]) == []
  {
  }

  lemma HeadIsAt(lines: seq<string>, earlier: seq<Table>, t: Table, later: seq<Table>)
    requires Among(lines, earlier, t, later)
    ensures var ks := Kinds(Normal, lines);
            && earlier != [] && 0 <= t.at < |lines| && ks[t.at] == Header(t.header)
            && KindOf(Normal, lines[t.at]) == Header(t.header)
            && EndMode(Normal, lines[..t.at]) == Normal && EndMode(Normal, lines[..t.at + 1]) == Normal
            && TablesOf(ks[..t.at + 1]) == earlier + [Before(t, 0)]
            && DocOf(ks[t.at + 1..]) == Doc(PairsOf(t.keys), EntriesOf(later))
  {
    AtHead(Kinds(Normal, lines), earlier, t, later);
    SomethingIsNormal(Normal, lines, t.at);
    hide TablesOf, DocOf, Kinds, PairsOf, EntriesOf, EndMode;
  }

  lemma HeadAndKey(head: string, line: string, header: string)
    requires KindOf(Normal, head) == Header(header) && KindOf(Normal, line) == KeyLine("enabled", "false") && IsFalse("false")
    ensures Kinds(Normal, [head, line]) == [Header(header), KeyLine("enabled", "false")] && EndMode(Normal, [head, line]) == Normal
  {
    FalseIsOneLine("false");
    hide KindOf, IsFalse, ModeAfterValue;
    assert [head, line][..1] == [head] && [head][..0] == [];
  }

  // ---- A table put at the end ----

  lemma {:induction false} NameRunOf(a: string, c: char, rest: string)
    requires (forall i :: 0 <= i < |a| ==> IsNamePart(a[i])) && !IsNamePart(c)
    ensures NameRun(a + [c] + rest) == |a|
  {
    if a != "" {
      NameRunOf(a[1..], c, rest);
      assert (a + [c] + rest)[1..] == a[1..] + [c] + rest;
    }
  }

  lemma {:induction false} BareKeyNone(s: string)
    requires forall i :: 0 <= i < |s| ==> s[i] != ' ' && s[i] != '\t' && !IsBareQuote(s[i])
    ensures BareKey(s) == s
  {
    if s != "" {
      BareKeyNone(s[1..]);
      assert s == [s[0]] + s[1..];
    }
  }

  lemma BundledIsHeader()
    ensures IsHeader(BUNDLED_TABLE)
  {
    var name := "skills.bundled";
    NameRunOf(name, ']', "");
    assert BUNDLED_TABLE[1..] == name + [']'] + "";
    var n := NameRun(BUNDLED_TABLE[1..]);
    assert BUNDLED_TABLE[1..][n + 1..] == "";
    hide NameRun;
    assert SpaceRun("") == 0;
  }

  lemma HeaderText(h: string)
    requires IsHeader(h) && BareKey(h) == h && h != "" && (forall i :: 0 <= i < |h| ==> h[i] != '#')
    ensures KindOfText(h) == Header(h)
  {
    NotFound(h, '#');
    assert h[0] != '#';
    hide IsHeader, BareKey, Find;
    assert h[..|h|] == h;
  }

  lemma TrimsEol(h: string, eol: string)
    requires h != "" && !IsSpace(h[0]) && !IsSpace(h[|h| - 1]) && (eol == "\n" || eol == "\r\n")
    ensures TrimSpace(h + eol) == h
  {
    EolIsSpace(eol);
    NotSpace();
    hide *;
    TrimOf("", h, eol);
    assert "" + h + eol == h + eol;
  }

  lemma BundledChars()
    ensures forall i :: 0 <= i < |BUNDLED_TABLE| ==>
              var c := BUNDLED_TABLE[i]; c != '#' && c != ' ' && c != '\t' && !IsBareQuote(c)
  {
  }

  lemma BundledKind(eol: string)
    requires eol == "\n" || eol == "\r\n"
    ensures KindOf(Normal, BUNDLED_TABLE + eol) == Header(BUNDLED_TABLE)
  {
    hide *;
    BundledIsHeader();
    BundledEnds();
    BundledChars();
    BareKeyNone(BUNDLED_TABLE);
    HeaderText(BUNDLED_TABLE);
    TrimsEol(BUNDLED_TABLE, eol);
    KindIsOfText(BUNDLED_TABLE + eol);
  }

  lemma BundledEnds()
    ensures BUNDLED_TABLE != "" && !IsSpace(BUNDLED_TABLE[0]) && !IsSpace(BUNDLED_TABLE[|BUNDLED_TABLE| - 1])
  {
  }

  lemma EolOk(content: string)
    ensures EolOf(content) == "\n" || EolOf(content) == "\r\n"
  {
  }

  lemma {:induction false} ConcatAppend(a: seq<string>, b: seq<string>)
    ensures Concat(a + b) == Concat(a) + Concat(b)
  {
    if a == [] {
      assert a + b == b;
    } else {
      ConcatAppend(a[1..], b);
      assert (a + b)[1..] == a[1..] + b;
      assert a[0] + (Concat(a[1..]) + Concat(b)) == Concat(a) + Concat(b);
    }
  }

  // What is before the last line of a file, and that line.
  function Whole(content: string): seq<string> { TomlLines(content)[..|TomlLines(content)| - 1] }

  function LastPart(content: string): string { TomlLines(content)[|TomlLines(content)| - 1] }

  lemma {:induction false} Parts(content: string)
    ensures TomlLines(content) == Whole(content) + [LastPart(content)]
    ensures content == Concat(Whole(content)) + LastPart(content)
    ensures !EndsLine(LastPart(content)) && IsChunk(LastPart(content))
    ensures Chunks(Whole(content)) && (Whole(content) != [] ==> EndsLine(Whole(content)[|Whole(content)| - 1]))
    ensures LastPart(content) == "" <==> content == "" || EndsLine(content)
  {
    SplitChunks(content);
    var lines := TomlLines(content);
    assert lines == Whole(content) + [LastPart(content)];
    ConcatAppend(Whole(content), [LastPart(content)]);
    OnePart(LastPart(content));
    hide TomlLines, Concat, IsChunk;
    ConcatEnds(Whole(content));
  }

  lemma OnePart(l: string)
    ensures Concat([l]) == l
  {
    assert [l][1..] == [];
  }

  lemma ConcatEnds(lines: seq<string>)
    requires lines == [] || EndsLine(lines[|lines| - 1])
    ensures Concat(lines) == "" || EndsLine(Concat(lines))
  {
    if lines != [] {
      var n := |lines| - 1;
      assert lines == lines[..n] + [lines[n]];
      ConcatAppend(lines[..n], [lines[n]]);
      OnePart(lines[n]);
      hide Concat;
    }
  }

  // The file before the table that is put at its end, a blank line included.
  function Base(content: string): seq<string> {
    var eol := EolOf(content);
    if content == "" then [] else Whole(content) + (if EndsLine(content) then [eol] else [LastPart(content) + eol, eol])
  }

  function Added(content: string): seq<string> { [BUNDLED_TABLE + EolOf(content), ENABLED_LINE + EolOf(content)] }

  lemma TwoParts(a: string, b: string)
    ensures Concat([a, b]) == a + b
  {
    assert [a, b] == [a] + [b];
    ConcatAppend([a], [b]);
    OnePart(a);
    OnePart(b);
  }

  lemma BaseText(content: string)
    ensures Concat(Base(content)) == if content == "" then "" else Ended(content, EolOf(content)) + EolOf(content)
  {
    var eol := EolOf(content);
    Parts(content);
    OnePart(eol);
    TwoParts(LastPart(content) + eol, eol);
    ConcatAppend(Whole(content), [eol]);
    ConcatAppend(Whole(content), [LastPart(content) + eol, eol]);
    assert content == "" ==> Concat([]) == "";
    hide Concat, TomlLines, Whole, LastPart, EolOf, EndsLine;
    if content != "" && !EndsLine(content) {
      assert Concat(Whole(content)) + (LastPart(content) + eol + eol) == content + eol + eol;
    }
  }

  lemma AppendText(content: string)
    ensures Concat(Base(content) + Added(content)) == AppendTable(content, BUNDLED_TABLE, ENABLED_LINE)
  {
    var eol := EolOf(content);
    BaseText(content);
    ConcatAppend(Base(content), Added(content));
    TwoParts(BUNDLED_TABLE + eol, ENABLED_LINE + eol);
    hide Concat, Base, Ended, EolOf;
    var before := Concat(Base(content));
    assert before + (BUNDLED_TABLE + eol + (ENABLED_LINE + eol)) == before + BUNDLED_TABLE + eol + ENABLED_LINE + eol;
  }

  lemma EolChunk(content: string)
    ensures var eol := EolOf(content);
            IsChunk(eol) && EndsLine(eol) && IsBlank(eol)
  {
    EolOk(content);
    EolIsSpace(EolOf(content));
    TrimOf("", "", EolOf(content));
    assert "" + "" + EolOf(content) == EolOf(content);
    hide TrimSpace, AllSpace, EolOf;
  }

  lemma EndedChunk(l: string, content: string)
    requires forall i :: 0 <= i < |l| ==> l[i] != '\n'
    ensures IsChunk(l + EolOf(content)) && EndsLine(l + EolOf(content))
  {
    EolOk(content);
    hide EolOf;
  }

  lemma AppendChunks(content: string)
    ensures Chunks(Base(content) + Added(content)) && Added(content) != []
  {
    Parts(content);
    EolChunk(content);
    EndedChunk(BUNDLED_TABLE, content);
    EndedChunk(ENABLED_LINE, content);
    NoNewline(LastPart(content));
    EndedChunk(LastPart(content), content);
    hide IsChunk, EndsLine, EolOf, Whole, LastPart, IsBlank;
  }

  lemma NoNewline(l: string)
    requires IsChunk(l) && !EndsLine(l)
    ensures forall i :: 0 <= i < |l| ==> l[i] != '\n'
  {
  }

  // The same text but for its line ending is the same line, whatever it is in.
  lemma EndedInside(m: Mode, line: string, eol: string)
    requires eol == "\n" || eol == "\r\n"
    ensures KindOf(m, line + eol) == KindOf(m, line) && NextMode(m, line + eol) == NextMode(m, line)
  {
    EolIsSpace(eol);
    AfterIsTrimmed(line, eol);
    hide TrimSpace, KindOfText, ModeAfterValue, Contains, BracketDepth;
  }

  lemma OneMore(lines: seq<string>, line: string)
    ensures Kinds(Normal, lines + [line]) == Kinds(Normal, lines) + [KindOf(EndMode(Normal, lines), line)]
    ensures EndMode(Normal, lines + [line]) == NextMode(EndMode(Normal, lines), line)
  {
    LastLine(Normal, lines + [line]);
    assert (lines + [line])[..|lines|] == lines;
    hide KindOf, NextMode, Kinds, EndMode;
  }

  lemma OneBlank(lines: seq<string>, line: string)
    requires IsBlank(line)
    ensures Kinds(Normal, lines + [line]) == Kinds(Normal, lines) + [Nothing]
    ensures EndMode(Normal, lines + [line]) == EndMode(Normal, lines)
    ensures TablesOf(Kinds(Normal, lines + [line])) == TablesOf(Kinds(Normal, lines))
  {
    hide *;
    OneMore(lines, line);
    ModesOk(lines);
    BlankIsNothing(EndMode(Normal, lines), line);
    NothingMore(Kinds(Normal, lines));
  }

  lemma NothingMore(ks: seq<Kind>)
    ensures TablesOf(ks + [Nothing]) == TablesOf(ks)
  {
    LastKind(START.tables, ks, Nothing, 0);
    hide TablesFrom;
  }

  lemma EmptyIsBlank()
    ensures IsBlank("")
  {
  }

  // The file before the added table says what the file says.
  lemma BaseSays(content: string)
    ensures EndMode(Normal, Base(content)) == ScanToml(TomlLines(content)).mode
    ensures TablesOf(Kinds(Normal, Base(content))) == ScanToml(TomlLines(content)).tables != []
  {
    var eol := EolOf(content);
    Parts(content);
    ScanTables(TomlLines(content));
    EolOk(content);
    EolChunk(content);
    EmptyIsBlank();
    BaseIs(content);
    SomeTable(Kinds(Normal, TomlLines(content)));
    hide *;
    var init, last := Whole(content), LastPart(content);
    OneMore(init, last);
    if last == "" {
      OneBlank(init, "");
      OneBlank(init, eol);
    } else {
      OneMore(init, last + eol);
      EndedInside(EndMode(Normal, init), last, eol);
      OneBlank(init + [last + eol], eol);
    }
  }

  lemma SomeTable(ks: seq<Kind>)
    ensures TablesOf(ks) != []
  {
  }

  lemma BaseIs(content: string)
    ensures Base(content) ==
            if content == "" then [] else if LastPart(content) == "" then Whole(content) + [EolOf(content)]
            else Whole(content) + [LastPart(content) + EolOf(content)] + [EolOf(content)]
    ensures content == "" ==> Whole(content) == [] && LastPart(content) == ""
  {
    Parts(content);
    hide EolOf, Whole, LastPart, EndsLine;
    assert Whole(content) + [LastPart(content) + EolOf(content), EolOf(content)] ==
           Whole(content) + [LastPart(content) + EolOf(content)] + [EolOf(content)];
    assert content == "" ==> TomlLines(content) == [""] && Whole("") == [];
  }
}