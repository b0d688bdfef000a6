// What turning the switch off puts into a file, and that off then on gives the
// file back (internal/skills/codexconfig.go editCodexBundled).
module CodexInverse {
  import opened Prelude
  import opened Text
  import opened Toml
  import opened TomlTables
  import opened TomlDoc
  import opened CodexConfig
  import opened CodexSwitch
  import opened CodexOff
  import opened CodexReadBack

  // ---- A file with no table of the switch ----

  function NewTable(n: nat): Table { Table(BUNDLED_TABLE, n, n + 2, [Key("enabled", "false", n + 1)]) }

  lemma AddedTables(content: string)
    requires ScanToml(TomlLines(content)).mode == Normal
    ensures var all, tables := Base(content) + Added(content), ScanToml(TomlLines(content)).tables;
            TablesOf(Kinds(Normal, all)) == tables + [NewTable(|Base(content)|)] && EndMode(Normal, all) == Normal
  {
    var eol := EolOf(content);
    EolOk(content);
    AddedAre(content);
    hide *;
    BaseSays(content);
    BundledKind(eol);
    EnabledLineKind(eol);
    FalseIsOneLine("false");
    var base := Base(content);
    var head, line := BUNDLED_TABLE + eol, ENABLED_LINE + eol;
    OneMore(base, head);
    OneMore(base + [head], line);
    AfterHeader(head);
    AfterKey(line);
    TwoKinds(Kinds(Normal, base), ScanToml(TomlLines(content)).tables);
    assert base + [head] + [line] == base + Added(content);
  }

  lemma AddedAre(content: string)
    ensures Added(content) == [BUNDLED_TABLE + EolOf(content), ENABLED_LINE + EolOf(content)]
  {
  }

  lemma AfterHeader(line: string)
    requires KindOf(Normal, line).Header?
    ensures NextMode(Normal, line) == Normal
  {
    hide KindOf;
  }

  lemma AfterKey(line: string)
    requires KindOf(Normal, line) == KeyLine("enabled", "false") && ModeAfterValue("false") == Normal
    ensures NextMode(Normal, line) == Normal
  {
    hide KindOf;
  }

  lemma TwoKinds(ks: seq<Kind>, tables: seq<Table>)
    requires TablesOf(ks) == tables && tables != []
    ensures TablesOf(ks + [Header(BUNDLED_TABLE)] + [KeyLine("enabled", "false")]) == tables + [NewTable(|ks|)]
  {
    LastKind(START.tables, ks, Header(BUNDLED_TABLE), 0);
    LastKind(START.tables, ks + [Header(BUNDLED_TABLE)], KeyLine("enabled", "false"), 0);
    hide TablesFrom;
    var n := |tables|;
    var t := Table(BUNDLED_TABLE, |ks|, |ks| + 1, []);
    assert (tables + [t])[..n] == tables && (tables + [t])[n] == t;
    assert AddKey(t, Key("enabled", "false", |ks| + 1)) == NewTable(|ks|);
  }

  lemma AppendReadsBack(content: string)
    requires ScanToml(TomlLines(content)).mode == Normal
    ensures !CodexBundled(AppendTable(content, BUNDLED_TABLE, ENABLED_LINE))
  {
    var all, tables := Base(content) + Added(content), ScanToml(TomlLines(content)).tables;
    var t := NewTable(|Base(content)|);
    NewSaysFalse(|Base(content)|);
    hide *;
    AddedTables(content);
    AppendText(content);
    AppendChunks(content);
    SaysAgain(all);
    ReadsFile(AppendTable(content, BUNDLED_TABLE, ENABLED_LINE));
    DocAtIs(all);
    SaysUpTo(Kinds(Normal, all), tables, t);
    SaysOnNext(EntriesOf(tables[1..]), EntryOf(t));
  }

  lemma NewSaysFalse(n: nat)
    ensures var e := EntryOf(NewTable(n));
            e.header == BUNDLED_TABLE && FirstPair(e.keys, "enabled") == 0 < |e.keys| && IsFalse(e.keys[0].value)
  {
    FalseAlone();
    hide IsFalse;
  }

  // ---- A file with one ----

  lemma ChunkParts(head: string, tail: string)
    requires (forall i :: 0 <= i < |head| ==> head[i] != '\n') && head != "" && head[|head| - 1] != '\n' && IsChunk(tail)
    ensures IsChunk(head + tail) && EndsLine(head + tail) == EndsLine(tail)
  {
    forall i | 0 <= i < |head + tail| - 1 ensures (head + tail)[i] != '\n' {
      if i >= |head| {
        assert (head + tail)[i] == tail[i - |head|];
      }
    }
  }

  lemma ChunkEnd(line: string, n: nat)
    requires IsChunk(line) && n < |line|
    ensures IsChunk(line[n..]) && EndsLine(line[n..]) == EndsLine(line)
    ensures forall i :: 0 <= i < n ==> line[i] != '\n'
  {
    forall i | 0 <= i < |line[n..]| - 1 ensures line[n..][i] != '\n' {
      assert line[n..][i] == line[n + i];
    }
  }

  lemma SetChunk(line: string)
    requires IsChunk(line)
    ensures IsChunk(SetTomlValue(line, "false")) && EndsLine(SetTomlValue(line, "false")) == EndsLine(line)
  {
    if Find(line, '=') < |line| {
      ValueSetChunk(line);
    }
    hide Find, IsChunk, EndsLine, NewGap, Tail;
  }

  lemma ValueSetChunk(line: string)
    requires IsChunk(line) && Find(line, '=') < |line|
    ensures IsChunk(SetTomlValue(line, "false")) && EndsLine(SetTomlValue(line, "false")) == EndsLine(line)
  {
    hide *;
    var eq, tail := Find(line, '='), Tail(line);
    TailIsEnd(line);
    GapHasNoEnd(line);
    EmptyChunk();
    SetText(line);
    ChunkEnd(line, eq);
    if tail != "" {
      ChunkEnd(line, |line| - |tail|);
    }
    HeadChunk(line, eq, NewGap(line));
    ChunkParts(line[..eq + 1] + NewGap(line) + "false", tail);
  }

  lemma SetText(line: string)
    requires Find(line, '=') < |line|
    ensures SetTomlValue(line, "false") == line[..Find(line, '=') + 1] + NewGap(line) + "false" + Tail(line)
    ensures line[Find(line, '=')] == '='
  {
    hide Find, NewGap, Tail;
  }

  lemma HeadChunk(line: string, eq: nat, gap: string)
    requires eq < |line| && line[eq] == '=' && (forall i :: 0 <= i < eq ==> line[i] != '\n')
    requires forall i :: 0 <= i < |gap| ==> gap[i] != '\n'
    ensures var head := line[..eq + 1] + gap + "false";
            && (forall i :: 0 <= i < |head| ==> head[i] != '\n') && head != "" && head[|head| - 1] != '\n'
  {
  }

  lemma EmptyChunk()
    ensures IsChunk("") && !EndsLine("")
  {
  }

  lemma GapHasNoEnd(line: string)
    requires Find(line, '=') < |line|
    ensures forall i :: 0 <= i < |NewGap(line)| ==> NewGap(line)[i] != '\n'
  {
    hide Find;
  }

  lemma DropTwice(s: string, m: nat, n: nat)
    requires m + n <= |s|
    ensures s[m..][n..] == s[m + n..]
  {
  }

  lemma TailShape(line: string, m: nat, g: nat, w: nat)
    requires m + g + w <= |line|
    ensures var tail := line[m..][g..][w..];
            |tail| == |line| - m - g - w && tail == line[|line| - |tail|..]
  {
    DropTwice(line, m, g);
    DropTwice(line, m + g, w);
  }

  predicate NoneEnds(word: string) { forall i :: 0 <= i < |word| ==> !EndsWord(word[i]) }

  predicate IsGap(s: string) { forall i :: 0 <= i < |s| ==> s[i] == ' ' || s[i] == '\t' }

  lemma GapIsGap(rest: string)
    ensures IsGap(rest[..GapRun(rest)])
  {
  }

  lemma WordIsWhole(word: string)
    requires WordRun(word) == |word|
    ensures NoneEnds(word)
  {
  }

  // What follows the word is the line's end, and the line's ending is in it.
  lemma TailIsEnd(line: string)
    requires Find(line, '=') < |line|
    ensures var tail := Tail(line);
            && |tail| < |line| && tail == line[|line| - |tail|..] && (EndsLine(line) ==> tail != "")
  {
    hide *;
    LineParts(line);
    var eq, rest, word := Find(line, '='), Rest(line), Word(line);
    TailShape(line, eq + 1, GapRun(rest), WordRun(word));
    if WordRun(word) == |word| {
      GapIsGap(rest);
      WordIsWhole(word);
      LastOf(line, eq, GapRun(rest), rest, word);
    }
  }

  lemma LineParts(line: string)
    requires Find(line, '=') < |line|
    ensures var rest, word := Rest(line), Word(line);
            && line[Find(line, '=')] == '=' && rest == line[Find(line, '=') + 1..] && word == rest[GapRun(rest)..]
            && Tail(line) == word[WordRun(word)..]
  {
    hide Find, GapRun, WordRun;
  }

  // The last of a line is its =, its gap's or its word's.
  lemma LastOf(line: string, eq: nat, g: nat, rest: string, word: string)
    requires eq < |line| && line[eq] == '=' && rest == line[eq + 1..] && g <= |rest| && word == rest[g..]
    requires IsGap(rest[..g]) && NoneEnds(word)
    ensures !EndsLine(line)
  {
    if word != "" {
      assert word[|word| - 1] == line[|line| - 1];
    } else if rest != "" {
      assert rest[..g][|rest| - 1] == line[|line| - 1];
    }
  }

  lemma SetChunks(lines: seq<string>, at: nat)
    requires Chunks(lines) && at < |lines|
    ensures Chunks(lines[at := SetTomlValue(lines[at], "false")])
  {
    SetChunk(lines[at]);
    hide IsChunk, EndsLine, SetTomlValue;
  }

  lemma InsertChunks(lines: seq<string>, at: nat, content: string)
    requires Chunks(lines) && at < |lines|
    ensures Chunks(InsertLine(lines, at + 1, ENABLED_LINE, EolOf(content)))
  {
    var eol := EolOf(content);
    InsertIs(lines, at, ENABLED_LINE, eol);
    EndedChunk(ENABLED_LINE, content);
    EndedLine(lines[at], content);
    hide IsChunk, EndsLine, InsertLine, EolOf, Ended;
    var r := lines[..at] + [Ended(lines[at], eol), ENABLED_LINE + eol] + lines[at + 1..];
    forall i | 0 <= i < |r| ensures IsChunk(r[i]) && (i < |r| - 1 ==> EndsLine(r[i])) {
      if i < at {
        assert r[i] == lines[i];
      } else if i > at + 1 {
        assert r[i] == lines[i - 1];
      }
    }
  }

  lemma EndedLine(line: string, content: string)
    requires IsChunk(line)
    ensures IsChunk(Ended(line, EolOf(content))) && EndsLine(Ended(line, EolOf(content)))
  {
    if !EndsLine(line) {
      NoNewline(line);
      EndedChunk(line, content);
    }
  }

  lemma BundledHeader(t: Table)
    requires IsBundled(t)
    ensures t.header == BUNDLED_TABLE
  {
  }

  lemma EnabledIsFirst(keys: seq<Key>)
    requires EnabledAt(keys) < |keys|
    ensures keys[EnabledAt(keys)].name == "enabled"
    ensures forall k :: 0 <= k < EnabledAt(keys) ==> PairsOf(keys)[..EnabledAt(keys)][k].name != "enabled"
  {
    hide PairsOf;
  }

  lemma InsertSays(lines: seq<string>, earlier: seq<Table>, t: Table, later: seq<Table>, eol: string)
    requires earlier != [] && Among(lines, earlier, t, later) && IsBundled(t) && (eol == "\n" || eol == "\r\n")
    requires forall k :: 0 <= k < |later| ==> !IsBundled(later[k])
    requires 0 <= t.at < |lines|
    ensures !SaysOn(DocAt(InsertLine(lines, t.at + 1, ENABLED_LINE, eol)).entries)
  {
    hide *;
    BundledHeader(t);
    InLines(lines, earlier, t, later);
    AfterInsert(lines, earlier, t, later, eol);
    FalseFirst(t.header, PairsOf(t.keys), EntriesOf(earlier[1..]), later);
  }

  lemma FalseFirst(header: string, keys: seq<Pair>, es: seq<Entry>, later: seq<Table>)
    requires header == BUNDLED_TABLE && forall k :: 0 <= k < |later| ==> !IsBundled(later[k])
    ensures !SaysOn(es + [Entry(header, [Pair("enabled", "false")] + keys)] + EntriesOf(later))
  {
    FalseAlone();
    hide *;
    var p := Pair("enabled", "false");
    FirstOf([], p, keys);
    assert [] + [p] + keys == [p] + keys;
    SaysLast(es, Entry(header, [p] + keys), later);
  }

  lemma InsertReadsBack(content: string, lines: seq<string>, earlier: seq<Table>, t: Table, later: seq<Table>)
    requires Among(lines, earlier, t, later) && IsBundled(t) && Chunks(lines)
    requires forall k :: 0 <= k < |later| ==> !IsBundled(later[k])
    requires 0 <= t.at < |lines| && earlier != []
    ensures !CodexBundled(Concat(InsertLine(lines, t.at + 1, ENABLED_LINE, EolOf(content))))
  {
    EolOk(content);
    hide *;
    InsertSays(lines, earlier, t, later, EolOf(content));
    InsertChunks(lines, t.at, content);
    var out := InsertLine(lines, t.at + 1, ENABLED_LINE, EolOf(content));
    SaysAgain(out);
    ReadsFile(Concat(out));
  }

  lemma OffEdits(content: string, lines: seq<string>, t: Table)
    requires lines == TomlLines(content) && TableIn(t, lines)
    requires var tables := Named(ScanToml(lines).tables);
             tables != [] && t == tables[|tables| - 1]
    ensures EditBundled(content, false) == Concat(EditTable(lines, t, false, EolOf(content)))
  {
    hide Named, TomlLines, EditTable, Concat, ScanToml, TableIn;
  }

  lemma EditSets(lines: seq<string>, t: Table, eol: string)
    requires TableIn(t, lines) && EnabledAt(t.keys) < |t.keys|
    ensures var at := t.keys[EnabledAt(t.keys)].at;
            EditTable(lines, t, false, eol) == lines[at := SetTomlValue(lines[at], "false")]
  {
    hide EnabledAt, SetTomlValue;
  }

  lemma EditInserts(lines: seq<string>, t: Table, eol: string)
    requires TableIn(t, lines) && EnabledAt(t.keys) == |t.keys|
    ensures EditTable(lines, t, false, eol) == InsertLine(lines, t.at + 1, ENABLED_LINE, eol)
  {
    hide EnabledAt, InsertLine;
  }

  lemma StartsInside(t: Table, lines: seq<string>)
    requires TableIn(t, lines)
    ensures 0 <= t.at < |lines|
  {
  }

  lemma EarlierSome(lines: seq<string>, earlier: seq<Table>, t: Table, later: seq<Table>)
    requires Among(lines, earlier, t, later)
    ensures earlier != []
  {
    hide Kinds, TablesOf;
  }

  // ---- Off, then on ----

  lemma DropAdded(content: string)
    ensures var base := Base(content);
            var out := DropTable(base + Added(content) + [""], NewTable(|base|));
            Concat(out) == if content == "" || EndsLine(content) then content else content + EolOf(content)
  {
    var base, eol := Base(content), EolOf(content);
    var lines := base + Added(content) + [""];
    Parts(content);
    EolChunk(content);
    EmptyIsBlank();
    BaseIs(content);
    DropIs(base, Added(content), if content == "" then "" else base[|base| - 1]);
    hide *;
    if content == "" {
      NothingConcat();
    } else if LastPart(content) == "" {
      assert base[..|base| - 1] == Whole(content);
      ConcatAppend(Whole(content), [""]);
      OnePart("");
    } else {
      assert base[..|base| - 1] == Whole(content) + [LastPart(content) + eol];
      LastEnded(Whole(content), LastPart(content) + eol);
      assert Concat(Whole(content)) + (LastPart(content) + eol) == content + eol;
    }
  }

  lemma LastEnded(whole: seq<string>, last: string)
    ensures Concat(whole + [last] + [""]) == Concat(whole) + last
  {
    ConcatAppend(whole + [last], [""]);
    ConcatAppend(whole, [last]);
    OnePart("");
    OnePart(last);
    hide Concat;
  }

  lemma NothingConcat()
    ensures Concat([]) == ""
  {
  }

  lemma DropIs(base: seq<string>, added: seq<string>, last: string)
    requires |added| == 2 && IsBlank("") && (base != [] ==> last == base[|base| - 1] && IsBlank(last))
    ensures DropTable(base + added + [""], NewTable(|base|)) == if base == [] then [] else base[..|base| - 1] + [""]
  {
    var lines, n := base + added + [""], |base|;
    hide IsBlank;
    assert lines[n + 2] == "" && lines[n + 2..] == [""];
    if n > 0 {
      assert lines[n - 1] == base[n - 1] && lines[..n - 1] == base[..n - 1];
    }
  }

  lemma OnlyOne(tables: seq<Table>, t: Table, lines: seq<string>, eol: string)
    requires Named(tables) == [] && IsBundled(t) && TableIn(t, lines) && |t.keys| == 1 && SaysFalse(t)
    ensures Named(tables + [t]) == [t] && Fits(lines, [t], eol) && EditAll(lines, [t], eol) == DropTable(lines, t)
  {
    NamedNext(tables, t);
    EditIs(lines, t, eol);
    assert [t][..0] == [];
    hide EditTable, DropTable, TableIn, Named;
  }

  lemma NewIsFalse(n: nat)
    ensures IsBundled(NewTable(n)) && SaysFalse(NewTable(n)) && |NewTable(n).keys| == 1
  {
    FalseAlone();
    hide IsFalse;
  }

  // A file with no table of the switch, turned off and on again, is the same
  // file exactly when it is empty or its last line is ended: a last line that
  // was not keeps the ending it got.
  lemma OffThenOn(content: string)
    requires Named(ScanToml(TomlLines(content)).tables) == [] && ScanToml(TomlLines(content)).mode == Normal
    ensures EditBundled(EditBundled(content, false), true) ==
            if content == "" || EndsLine(content) then content else content + EolOf(content)
    ensures EditBundled(EditBundled(content, false), true) == content <==> content == "" || EndsLine(content)
  {
    hide *;
    var off := EditBundled(content, false);
    var base := Base(content);
    LinesOfOff(content);
    NewIsFalse(|base|);
    NewFits(base, Added(content));
    OnIs(off);
    OnlyOne(ScanToml(TomlLines(content)).tables, NewTable(|base|), base + Added(content) + [""], EolOf(off));
    DropAdded(content);
    EolOk(content);
  }

  lemma NewFits(base: seq<string>, added: seq<string>)
    requires |added| == 2
    ensures TableIn(NewTable(|base|), base + added + [""])
  {
  }

  // The lines of a file turned off, and their tables.
  lemma LinesOfOff(content: string)
    requires Named(ScanToml(TomlLines(content)).tables) == [] && ScanToml(TomlLines(content)).mode == Normal
    ensures var off, base := EditBundled(content, false), Base(content);
            && TomlLines(off) == base + Added(content) + [""] && |Added(content)| == 2
            && ScanToml(TomlLines(off)).tables == ScanToml(TomlLines(content)).tables + [NewTable(|base|)]
  {
    OffAppends(content);
    AddedAre(content);
    var all := Base(content) + Added(content);
    EndedChunk(ENABLED_LINE, content);
    hide *;
    AppendText(content);
    AppendChunks(content);
    SplitsAgain(all);
    ResplitEnded(all);
    AddedTables(content);
    EmptyIsBlank();
    OneBlank(all, "");
    ScanTables(all + [""]);
  }

  lemma ResplitEnded(lines: seq<string>)
    requires lines != [] && EndsLine(lines[|lines| - 1])
    ensures Resplit(lines) == lines + [""]
  {
  }
}
