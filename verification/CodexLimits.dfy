// Files on which turning the switch off does not read back as one would expect
// (internal/skills/codexconfig.go setTOMLValue, appendTable).
module CodexLimits {
  import opened Prelude
  import opened Text
  import opened Toml
  import opened TomlTables
  import opened TomlDoc
  import opened CodexConfig
  import opened CodexSwitch
  import opened CodexOff
  import opened CodexReadBack
  import opened CodexInverse
  import opened CodexOffReads

  const HEAD_LINE := BUNDLED_TABLE + "\n"

  // ---- The table and its switch, and what follows ----

  lemma HeadIs()
    ensures HEAD_LINE == BUNDLED_TABLE + "\n"
  {
  }

  lemma NothingRead()
    ensures Kinds(Normal, []) == [] && EndMode(Normal, []) == Normal
  {
  }

  // The kinds of a file that begins with the table and its switch.
  lemma SwitchKinds(line: string, value: string)
    requires KindOf(Normal, line) == KeyLine("enabled", value)
    ensures Kinds(Normal, [HEAD_LINE] + [line]) == [Header(BUNDLED_TABLE), KeyLine("enabled", value)]
    ensures EndMode(Normal, [HEAD_LINE] + [line]) == ModeAfterValue(value)
  {
    HeadIs();
    hide *;
    BundledKind("\n");
    NothingRead();
    OneMore([], HEAD_LINE);
    assert [] + [HEAD_LINE] == [HEAD_LINE];
    OneMore([HEAD_LINE], line);
    AfterHeader(HEAD_LINE);
    AfterSwitch(line, value);
  }

  lemma AfterSwitch(line: string, value: string)
    requires KindOf(Normal, line) == KeyLine("enabled", value)
    ensures NextMode(Normal, line) == ModeAfterValue(value)
  {
    hide KindOf, ModeAfterValue;
  }

  function SwitchTable(value: string): Table { Table(BUNDLED_TABLE, 0, 2, [Key("enabled", value, 1)]) }

  lemma SwitchTables(value: string)
    ensures TablesOf([Header(BUNDLED_TABLE), KeyLine("enabled", value)]) == START.tables + [SwitchTable(value)]
  {
    var none: seq<Kind> := [];
    var tables, t := START.tables, Table(BUNDLED_TABLE, 0, 1, []);
    LastKind(tables, none, Header(BUNDLED_TABLE), 0);
    LastKind(tables, none + [Header(BUNDLED_TABLE)], KeyLine("enabled", value), 0);
    assert none + [Header(BUNDLED_TABLE)] + [KeyLine("enabled", value)] == [Header(BUNDLED_TABLE), KeyLine("enabled", value)];
    assert (tables + [t])[..1] == tables;
    assert t.keys + [Key("enabled", value, 1)] == [Key("enabled", value, 1)];
  }

  lemma SwitchNamed(value: string)
    ensures IsBundled(SwitchTable(value)) && Named(START.tables + [SwitchTable(value)]) == [SwitchTable(value)]
    ensures EnabledAt(SwitchTable(value).keys) == 0
  {
    NamedNext([], START.tables[0]);
    assert [] + START.tables == START.tables;
    NamedNext(START.tables, SwitchTable(value));
  }

  lemma SwitchIsLine(content: string, lines: seq<string>, value: string)
    requires lines == TomlLines(content) && |lines| >= 2
    requires ScanToml(lines).tables == START.tables + [SwitchTable(value)]
    ensures SwitchLineOf(content) == Some(lines[1]) && Named(ScanToml(lines).tables) == [SwitchTable(value)]
  {
    SwitchNamed(value);
    hide Named, TomlLines, ScanToml, EnabledAt;
  }

  // ---- More after the first word ----

  lemma TwoLines(line: string)
    requires IsChunk(line) && EndsLine(line)
    ensures TomlLines(Concat([HEAD_LINE] + [line])) == [HEAD_LINE] + [line] + [""]
  {
    assert Chunks([HEAD_LINE] + [line]);
    hide *;
    SplitsAgain([HEAD_LINE] + [line]);
    ResplitEnded([HEAD_LINE] + [line]);
  }

  // A file of nothing but the table and its switch.
  lemma OnlyTheSwitch(line: string, value: string)
    requires IsChunk(line) && EndsLine(line) && KindOf(Normal, line) == KeyLine("enabled", value)
    requires ModeAfterValue(value) == Normal
    ensures var content := Concat([HEAD_LINE] + [line]);
            SwitchLineOf(content) == Some(line) && EndsOnLine(content) && Named(ScanToml(TomlLines(content)).tables) != []
  {
    var content, lines := Concat([HEAD_LINE] + [line]), [HEAD_LINE] + [line] + [""];
    SwitchTables(value);
    EmptyIsBlank();
    hide Concat, TomlLines, ScanToml, Named, KindOf, IsChunk, EndsLine, ModeAfterValue, TablesOf, Kinds, EndMode, SwitchLineOf;
    TwoLines(line);
    SwitchKinds(line, value);
    OneBlank([HEAD_LINE] + [line], "");
    ScanTables(lines);
    SwitchIsLine(content, lines, value);
  }

  // Such a file, turned off, stays on exactly when more follows the first word
  // of the value, if neither that nor the value opens anything.
  lemma MoreStaysOnIff(line: string, value: string)
    requires IsChunk(line) && EndsLine(line) && KindOf(Normal, line) == KeyLine("enabled", value)
    requires ModeAfterValue(value) == Normal
    requires Find(line, '=') < |line| && ModeAfterValue(NewValue(line)) == Normal
    ensures CodexBundled(EditBundled(Concat([HEAD_LINE] + [line]), false)) <==> !TailIsBlank(line)
  {
    var content := Concat([HEAD_LINE] + [line]);
    OnlyTheSwitch(line, value);
    hide Concat, TomlLines, ScanToml, Named, KindOf, ModeAfterValue, SwitchLineOf, TailIsBlank, NewValue, EndsOnLine, Find;
    hide EditBundled, CodexBundled;
    OffReadsBackIff(content);
  }

  // A line that sets the switch to two words.
  function Spaced(w: string, r: string): string { "enabled " + "=" + (" " + (w + (" " + r + "\n"))) }

  predicate IsWord(w: string) {
    w != "" && forall i :: 0 <= i < |w| ==> !EndsWord(w[i]) && !IsSpace(w[i])
  }

  lemma SpacedChunk(w: string, r: string)
    requires IsWord(w) && IsWord(r)
    ensures IsChunk(Spaced(w, r)) && EndsLine(Spaced(w, r))
  {
    var body := "enabled " + "=" + (" " + (w + (" " + r)));
    assert Spaced(w, r) == body + "\n";
    assert forall i :: 0 <= i < |"enabled "| ==> "enabled "[i] != '\n';
    assert '\n' !in "enabled " && '\n' !in w && '\n' !in r;
    assert '\n' !in body;
    hide IsSpace;
  }

  lemma TwoWords(w: string, r: string)
    requires IsWord(w) && IsWord(r)
    ensures TrimSpace(" " + (w + (" " + r + "\n"))) == w + " " + r
  {
    NotSpace();
    assert AllSpace("\n");
    var v := w + " " + r;
    assert v[0] == w[0] && v[|v| - 1] == r[|r| - 1];
    assert " " + (w + (" " + r + "\n")) == " " + v + "\n";
    hide IsSpace, TrimSpace;
    TrimOf(" ", v, "\n");
  }

  lemma SpacedKind(w: string, r: string)
    requires IsWord(w) && IsWord(r)
    ensures KindOf(Normal, Spaced(w, r)) == KeyLine("enabled", w + " " + r)
  {
    NotSpace();
    TwoWords(w, r);
    EnabledKey();
    KeyBegins("enabled ");
    hide TrimSpace, TrimLeft, IsSpace, Unquote, IsWord, KindOf;
    assert "enabled "[0] == 'e';
    KeyLineKind("enabled ", " " + (w + (" " + r + "\n")));
  }

  lemma SpacedFind(w: string, r: string)
    ensures Find(Spaced(w, r), '=') == 8 < |Spaced(w, r)| && Rest(Spaced(w, r)) == " " + (w + (" " + r + "\n"))
  {
    EnabledKey();
    var post := " " + (w + (" " + r + "\n"));
    assert Spaced(w, r) == "enabled " + ['='] + post;
    hide TrimSpace, TrimLeft, IsSpace, Unquote;
    FindAfter("enabled ", '=', post);
  }

  lemma WordEnds(w: string, tail: string)
    requires IsWord(w) && tail != "" && EndsWord(tail[0])
    ensures WordRun(w + tail) == |w|
  {
    var n := WordRun(w + tail);
    assert (w + tail)[|w|] == tail[0];
    assert forall i :: 0 <= i < |w| ==> (w + tail)[i] == w[i];
    hide WordRun, IsSpace;
  }

  lemma GapIsOne(s: string)
    requires s != "" && !EndsWord(s[0])
    ensures GapRun(" " + s) == 1
  {
    assert (" " + s)[1..] == s;
  }

  lemma SpacedParts(w: string, r: string)
    requires IsWord(w) && IsWord(r)
    ensures var line := Spaced(w, r); Find(line, '=') < |line| && NewGap(line) == " " && Tail(line) == " " + r + "\n"
  {
    var line, tail := Spaced(w, r), " " + r + "\n";
    SpacedFind(w, r);
    assert (w + tail)[0] == w[0];
    GapIsOne(w + tail);
    assert (" " + (w + tail))[1..] == w + tail && (" " + (w + tail))[..1] == " ";
    WordEnds(w, tail);
    assert (w + tail)[|w|..] == tail;
    hide Find, GapRun, WordRun, Spaced, IsSpace, Rest;
  }

  lemma FalseIsWord()
    ensures IsWord("false")
  {
  }

  lemma NewValueParts(gap: string, r: string)
    requires gap == " "
    ensures gap + "false" + (" " + r + "\n") == " " + ("false" + (" " + r + "\n"))
  {
  }

  lemma SpacedNewValue(w: string, r: string)
    requires IsWord(w) && IsWord(r)
    ensures Find(Spaced(w, r), '=') < |Spaced(w, r)| && NewValue(Spaced(w, r)) == "false" + " " + r
  {
    hide *;
    SpacedParts(w, r);
    NewValueIs(Spaced(w, r));
    FalseIsWord();
    TwoWords("false", r);
    NewValueParts(NewGap(Spaced(w, r)), r);
  }

  lemma NotBlank(s: string, i: nat)
    requires i < |s| && !IsSpace(s[i])
    ensures !IsBlank(s)
  {
    var a, b := TrimShape(s);
    hide TrimSpace, IsSpace;
    assert IsBlank(s) ==> AllSpace(a + b) && a + TrimSpace(s) + b == a + b;
  }

  lemma FoundPast(s: string)
    requires |s| >= 2 && s[0] != '#' && s[1] != '#'
    ensures Find(s, '#') >= 2
  {
  }

  lemma SpacedTail(w: string, r: string)
    requires IsWord(w) && IsWord(r) && r[0] != '#'
    ensures !TailIsBlank(Spaced(w, r))
  {
    SpacedParts(w, r);
    var tail := " " + r + "\n";
    assert tail[0] == ' ' && tail[1] == r[0];
    FoundPast(tail);
    var cut := tail[..Find(tail, '#')];
    assert cut[1] == r[0];
    hide Spaced, Tail, TrimSpace, IsSpace, Find, IsBlank;
    NotBlank(cut, 1);
  }

  // A value of two words loses its first, and what is left is not false.
  lemma TwoWordsStayOn(w: string, r: string)
    requires IsWord(w) && IsWord(r) && r[0] != '#'
    requires ModeAfterValue(w + " " + r) == Normal && ModeAfterValue("false" + " " + r) == Normal
    ensures CodexBundled(EditBundled(Concat([HEAD_LINE] + [Spaced(w, r)]), false))
  {
    hide *;
    SpacedChunk(w, r);
    SpacedKind(w, r);
    SpacedNewValue(w, r);
    SpacedTail(w, r);
    MoreStaysOnIff(Spaced(w, r), w + " " + r);
  }

  // Plain text with an open quote at its end.
  lemma {:induction false} QuoteDepth(s: string)
    requires forall i :: 0 <= i < |s| ==> IsPlain(s[i])
    ensures BracketDepth(s + "\"") == 0
  {
    if s == "" {
      assert s + "\"" == "\"" && "\""[1..] == "";
    } else {
      QuoteDepth(s[1..]);
      assert (s + "\"")[1..] == s[1..] + "\"";
    }
  }

  lemma {:induction false} ClosingQuote(s: string)
    requires forall i :: 0 <= i < |s| ==> s[i] != '"' && s[i] != '\\'
    ensures AfterQuote(s + "\"", '"') == ""
  {
    if s == "" {
      assert s + "\"" == "\"" && "\""[1..] == "";
    } else {
      ClosingQuote(s[1..]);
      assert (s + "\"")[1..] == s[1..] + "\"";
    }
  }

  // Quoted text ends on its line.
  lemma QuotedEnds(s: string)
    requires s != "" && forall i :: 0 <= i < |s| ==> s[i] != '"' && s[i] != '\\' && s[i] != '\''
    ensures ModeAfterValue("\"" + (s + "\"")) == Normal
  {
    ClosingQuote(s);
    var q := "\"" + (s + "\"");
    assert q[1..] == s + "\"" && q[1] == s[0];
    assert BracketDepth("") == 0;
    assert BracketDepth(q) == BracketDepth(AfterQuote(q[1..], '"'));
    assert q[1] != TRIPLE_DOUBLE[1] && q[0] != TRIPLE_SINGLE[0];
    hide BracketDepth, AfterQuote, Contains;
  }

  lemma OpenQuoteEnds(s: string)
    requires s != "" && forall i :: 0 <= i < |s| ==> IsPlain(s[i])
    ensures ModeAfterValue(s + "\"") == Normal
  {
    QuoteDepth(s);
    assert (s + "\"")[0] == s[0];
    hide BracketDepth, Contains;
  }

  // enabled = "a b"
  lemma QuotedStaysOn()
    ensures CodexBundled(EditBundled(Concat([HEAD_LINE] + [Spaced("\"a", "b\"")]), false))
  {
    QuotedEnds("a b");
    assert "\"" + ("a b" + "\"") == "\"a" + " " + "b\"";
    OpenQuoteEnds("false b");
    assert "false b" + "\"" == "false" + " " + "b\"";
    TwoWordsStayOn("\"a", "b\"");
  }

  // ---- A value open at the end ----

  // A line that opens a string and does not close it.
  lemma OpenKind()
    ensures KindOf(Normal, "x " + "=" + (" " + TRIPLE_DOUBLE + "\n")) == KeyLine("x", TRIPLE_DOUBLE)
  {
    NotSpace();
    assert !IsSpace('"') && !IsSpace('x') && AllSpace("\n");
    TrimOf(" ", TRIPLE_DOUBLE, "\n");
    OpenKey();
    hide TrimSpace, TrimLeft, IsSpace, Unquote;
    KeyLineKind("x ", " " + TRIPLE_DOUBLE + "\n");
  }

  lemma OpenKey()
    ensures TrimLeft("x ") == "x " && Unquote("x ") == "x" && forall i :: 0 <= i < |"x "| ==> "x "[i] != '='
  {
    NotSpace();
    assert !IsSpace('x');
    hide IsSpace, AllSpace;
    TrimOf("", "x", " ");
    assert "" + "x" + " " == "x ";
    hide TrimSpace;
    assert TrimQuotesLeft("x") == "x" && TrimQuotesRight("x") == "x";
  }

  lemma OpenMode()
    ensures ModeAfterValue(TRIPLE_DOUBLE) == InString(TRIPLE_DOUBLE)
  {
    assert TRIPLE_DOUBLE[3..] == "";
  }

  function OpenLine(): string { "x " + "=" + (" " + TRIPLE_DOUBLE + "\n") }

  lemma OpenChunk()
    ensures Chunks([OpenLine()]) && EndsLine(OpenLine())
  {
    assert forall i :: 0 <= i < |TRIPLE_DOUBLE| ==> TRIPLE_DOUBLE[i] != '\n';
    assert OpenLine() == ("x " + "=" + (" " + TRIPLE_DOUBLE)) + "\n";
  }

  lemma OpenFile()
    ensures var lines := [OpenLine()] + [""];
            && TomlLines(Concat([OpenLine()])) == lines && EndMode(Normal, lines) == InString(TRIPLE_DOUBLE)
            && Kinds(Normal, lines) == [KeyLine("x", TRIPLE_DOUBLE), Nothing]
  {
    OpenKind();
    OpenMode();
    OpenChunk();
    EmptyIsBlank();
    OpenLineIs();
    hide *;
    SplitsAgain([OpenLine()]);
    ResplitEnded([OpenLine()]);
    NothingRead();
    OneMore([], OpenLine());
    assert [] + [OpenLine()] == [OpenLine()];
    AfterOpen(OpenLine());
    OneBlank([OpenLine()], "");
  }

  lemma OpenLineIs()
    ensures OpenLine() == "x " + "=" + (" " + TRIPLE_DOUBLE + "\n")
  {
  }

  lemma AfterOpen(line: string)
    requires KindOf(Normal, line) == KeyLine("x", TRIPLE_DOUBLE)
    ensures NextMode(Normal, line) == ModeAfterValue(TRIPLE_DOUBLE)
  {
    hide KindOf, ModeAfterValue;
  }

  lemma NoneNamed()
    ensures Named(TablesOf([KeyLine("x", TRIPLE_DOUBLE), Nothing])) == []
  {
    var none: seq<Kind> := [];
    var k := KeyLine("x", TRIPLE_DOUBLE);
    LastKind(START.tables, none, k, 0);
    LastKind(START.tables, none + [k], Nothing, 0);
    assert none + [k] + [Nothing] == [k, Nothing];
    var t := AddKey(START.tables[0], Key("x", TRIPLE_DOUBLE, 0));
    assert START.tables[..0] + [t] == [t];
    NamedNext([], t);
    assert [] + [t] == [t];
  }

  // x = three quotes, and no more.
  lemma OpenStaysOn()
    ensures CodexBundled(EditBundled(Concat([OpenLine()]), false))
  {
    hide *;
    var content := Concat([OpenLine()]);
    OpenFile();
    NoneNamed();
    ScanTables(TomlLines(content));
    NoTableReady(content);
    NoTableReads(content);
  }

  // ---- What is left of a value opens a bracket ----

  // The lines after the switch: a string that holds a closing bracket, and a
  // table of the switch that only counts when the string is not seen to open.
  function After(): seq<string> { [OpenLine()] + ["]\n"] + [HEAD_LINE] + [ENABLED_LINE + "\n"] + [TRIPLE_DOUBLE + "\n"] + [""] }

  predicate IsSwitch(line: string, value: string) { KindOf(Normal, line) == KeyLine("enabled", value) }

  lemma AfterIs(lines: seq<string>)
    ensures lines + After() ==
            lines + [OpenLine()] + ["]\n"] + [HEAD_LINE] + [ENABLED_LINE + "\n"] + [TRIPLE_DOUBLE + "\n"] + [""]
  {
    hide OpenLine;
  }

  lemma ShortIsTrimmed(text: string)
    requires text != "" && !IsSpace(text[0]) && !IsSpace(text[|text| - 1])
    ensures TrimSpace(text + "\n") == text
  {
    hide *;
    TrimsEol(text, "\n");
  }

  lemma ShortEnds()
    ensures !IsSpace("]"[0]) && !IsSpace(TRIPLE_DOUBLE[0]) && !IsSpace(TRIPLE_DOUBLE[|TRIPLE_DOUBLE| - 1])
    ensures !IsSpace("x = "[0]) && TRIPLE_DOUBLE != ""
  {
  }

  lemma ShortLines()
    ensures TrimSpace("]\n") == "]" && TrimSpace(TRIPLE_DOUBLE + "\n") == TRIPLE_DOUBLE
    ensures TrimSpace(OpenLine()) == "x = " + TRIPLE_DOUBLE
  {
    ShortEnds();
    hide TrimSpace, IsSpace;
    ShortIsTrimmed("]");
    ShortIsTrimmed(TRIPLE_DOUBLE);
    var open := "x = " + TRIPLE_DOUBLE;
    assert open[0] == "x = "[0] && open[|open| - 1] == TRIPLE_DOUBLE[|TRIPLE_DOUBLE| - 1];
    ShortIsTrimmed(open);
    assert "]" + "\n" == "]\n" && open + "\n" == OpenLine();
  }

  lemma TripleDepth()
    ensures BracketDepth(TRIPLE_DOUBLE) == 0
  {
    var q := "\"";
    assert TRIPLE_DOUBLE[1..] == q + q && (q + q)[1..] == q && q[1..] == "";
    assert AfterQuote(q + q, '"') == q && AfterQuote("", '"') == "";
    assert BracketDepth("") == 0 && BracketDepth(q) == BracketDepth(AfterQuote("", '"'));
    assert BracketDepth(TRIPLE_DOUBLE) == BracketDepth(AfterQuote(q + q, '"'));
  }

  lemma {:induction false} PlainThen(s: string, tail: string)
    requires forall i :: 0 <= i < |s| ==> IsPlain(s[i])
    ensures BracketDepth(s + tail) == BracketDepth(tail)
  {
    if s == "" {
      assert s + tail == tail;
    } else {
      PlainThen(s[1..], tail);
      assert (s + tail)[1..] == s[1..] + tail;
    }
  }

  // Inside the string everything is nothing up to its end.
  lemma StaysInString(line: string, text: string)
    requires TrimSpace(line) == text && forall i :: 0 <= i < |text| ==> !IsBareQuote(text[i])
    ensures KindOf(InString(TRIPLE_DOUBLE), line) == Nothing
    ensures NextMode(InString(TRIPLE_DOUBLE), line) == InString(TRIPLE_DOUBLE)
  {
    NoQuoteInside(text, TRIPLE_DOUBLE);
    hide TrimSpace, Contains;
  }

  lemma StringEnds()
    ensures NextMode(InString(TRIPLE_DOUBLE), TRIPLE_DOUBLE + "\n") == Normal
    ensures KindOf(InString(TRIPLE_DOUBLE), TRIPLE_DOUBLE + "\n") == Nothing
  {
    ShortLines();
    assert Contains(TRIPLE_DOUBLE, TRIPLE_DOUBLE);
    hide TrimSpace, Contains;
  }

  lemma BracketStays()
    ensures KindOf(InBrackets(1), OpenLine()) == Nothing && NextMode(InBrackets(1), OpenLine()) == InBrackets(1)
  {
    ShortLines();
    TripleDepth();
    PlainThen("x = ", TRIPLE_DOUBLE);
    hide TrimSpace, BracketDepth, OpenLine;
  }

  lemma BracketEnds()
    ensures KindOf(InBrackets(1), "]\n") == Nothing && NextMode(InBrackets(1), "]\n") == Normal
  {
    ShortLines();
    assert "]"[1..] == "";
    assert BracketDepth("]") == -1;
    hide TrimSpace, BracketDepth;
  }

  lemma TripleIsNothing()
    ensures KindOf(Normal, TRIPLE_DOUBLE + "\n") == Nothing
  {
    ShortLines();
    NotFound(TRIPLE_DOUBLE, '=');
    hide TrimSpace;
  }

  lemma TextsAreQuoteless()
    ensures TrimSpace("]\n") == "]" && TrimSpace(HEAD_LINE) == BUNDLED_TABLE && TrimSpace(ENABLED_LINE + "\n") == ENABLED_LINE
    ensures forall i :: 0 <= i < |"]"| ==> !IsBareQuote("]"[i])
    ensures forall i :: 0 <= i < |BUNDLED_TABLE| ==> !IsBareQuote(BUNDLED_TABLE[i])
    ensures forall i :: 0 <= i < |ENABLED_LINE| ==> !IsBareQuote(ENABLED_LINE[i])
  {
    ShortLines();
    AddedDepths();
    BundledChars();
    BundledEnds();
    hide TrimSpace, IsSpace, OpenLine;
    TrimsEol(BUNDLED_TABLE, "\n");
    TrimsEol(ENABLED_LINE, "\n");
  }

  // The kinds while the switch's own value is closed, and while it is not.
  lemma KindsClosed(line: string, value: string)
    requires IsSwitch(line, value) && ModeAfterValue(value) == Normal
    ensures Kinds(Normal, [HEAD_LINE] + [line] + After()) ==
            [Header(BUNDLED_TABLE), KeyLine("enabled", value)] + [KeyLine("x", TRIPLE_DOUBLE)] + [Nothing] + [Nothing] + [Nothing] +
            [Nothing] + [Nothing]
  {
    TextsAreQuoteless();
    EmptyIsBlank();
    OpenMode();
    hide *;
    SwitchKindsOf(line, value);
    var l := [HEAD_LINE] + [line];
    AfterIs(l);
    OpenKind();
    OpenLineIs();
    OneMore(l, OpenLine());
    AfterOpen(OpenLine());
    OneMore(l + [OpenLine()], "]\n");
    StaysInString("]\n", "]");
    OneMore(l + [OpenLine()] + ["]\n"], HEAD_LINE);
    StaysInString(HEAD_LINE, BUNDLED_TABLE);
    OneMore(l + [OpenLine()] + ["]\n"] + [HEAD_LINE], ENABLED_LINE + "\n");
    StaysInString(ENABLED_LINE + "\n", ENABLED_LINE);
    OneMore(l + [OpenLine()] + ["]\n"] + [HEAD_LINE] + [ENABLED_LINE + "\n"], TRIPLE_DOUBLE + "\n");
    StringEnds();
    OneBlank(l + [OpenLine()] + ["]\n"] + [HEAD_LINE] + [ENABLED_LINE + "\n"] + [TRIPLE_DOUBLE + "\n"], "");
  }

  lemma SwitchKindsOf(line: string, value: string)
    requires IsSwitch(line, value)
    ensures Kinds(Normal, [HEAD_LINE] + [line]) == [Header(BUNDLED_TABLE), KeyLine("enabled", value)]
    ensures EndMode(Normal, [HEAD_LINE] + [line]) == ModeAfterValue(value)
  {
    hide KindOf, Kinds, EndMode;
    SwitchKinds(line, value);
  }

  lemma KindsOpen(line: string, value: string)
    requires IsSwitch(line, value) && ModeAfterValue(value) == InBrackets(1)
    ensures Kinds(Normal, [HEAD_LINE] + [line] + After()) ==
            [Header(BUNDLED_TABLE), KeyLine("enabled", value)] + [Nothing] + [Nothing] + [Header(BUNDLED_TABLE)] +
            [KeyLine("enabled", "false")] + [Nothing] + [Nothing]
  {
    EmptyIsBlank();
    HeadIs();
    hide *;
    SwitchKindsOf(line, value);
    var l := [HEAD_LINE] + [line];
    AfterIs(l);
    OneMore(l, OpenLine());
    BracketStays();
    OneMore(l + [OpenLine()], "]\n");
    BracketEnds();
    BundledKind("\n");
    OneMore(l + [OpenLine()] + ["]\n"], HEAD_LINE);
    AfterHeader(HEAD_LINE);
    EnabledLineKind("\n");
    FalseIsOneLine("false");
    OneMore(l + [OpenLine()] + ["]\n"] + [HEAD_LINE], ENABLED_LINE + "\n");
    AfterKey(ENABLED_LINE + "\n");
    OneMore(l + [OpenLine()] + ["]\n"] + [HEAD_LINE] + [ENABLED_LINE + "\n"], TRIPLE_DOUBLE + "\n");
    TripleIsNothing();
    OneBlank(l + [OpenLine()] + ["]\n"] + [HEAD_LINE] + [ENABLED_LINE + "\n"] + [TRIPLE_DOUBLE + "\n"], "");
  }

  function ClosedTable(value: string): Table {
    Table(BUNDLED_TABLE, 0, 3, [Key("enabled", value, 1)] + [Key("x", TRIPLE_DOUBLE, 2)])
  }

  lemma TablesClosed(value: string)
    ensures var ks := [Header(BUNDLED_TABLE), KeyLine("enabled", value)] + [KeyLine("x", TRIPLE_DOUBLE)] + [Nothing] + [Nothing] +
                      [Nothing] + [Nothing] + [Nothing];
            TablesOf(ks) == START.tables + [ClosedTable(value)]
  {
    SwitchTables(value);
    var two, x := [Header(BUNDLED_TABLE), KeyLine("enabled", value)], KeyLine("x", TRIPLE_DOUBLE);
    LastKind(START.tables, two, x, 0);
    assert (START.tables + [SwitchTable(value)])[..1] == START.tables;
    hide TablesFrom;
    var three := two + [x];
    NothingMore(three);
    NothingMore(three + [Nothing]);
    NothingMore(three + [Nothing] + [Nothing]);
    NothingMore(three + [Nothing] + [Nothing] + [Nothing]);
    NothingMore(three + [Nothing] + [Nothing] + [Nothing] + [Nothing]);
  }

  lemma TablesOpen(value: string)
    ensures var ks := [Header(BUNDLED_TABLE), KeyLine("enabled", value)] + [Nothing] + [Nothing] + [Header(BUNDLED_TABLE)] +
                      [KeyLine("enabled", "false")] + [Nothing] + [Nothing];
            TablesOf(ks) == START.tables + [SwitchTable(value)] + [Table(BUNDLED_TABLE, 4, 6, [Key("enabled", "false", 5)])]
  {
    SwitchTables(value);
    var two := [Header(BUNDLED_TABLE), KeyLine("enabled", value)];
    NothingMore(two);
    NothingMore(two + [Nothing]);
    var four, tables := two + [Nothing] + [Nothing], START.tables + [SwitchTable(value)];
    var t := Table(BUNDLED_TABLE, 4, 5, []);
    LastKind(START.tables, four, Header(BUNDLED_TABLE), 0);
    LastKind(START.tables, four + [Header(BUNDLED_TABLE)], KeyLine("enabled", "false"), 0);
    assert (tables + [t])[..2] == tables && t.keys + [Key("enabled", "false", 5)] == [Key("enabled", "false", 5)];
    hide TablesFrom;
    var six := four + [Header(BUNDLED_TABLE)] + [KeyLine("enabled", "false")];
    NothingMore(six);
    NothingMore(six + [Nothing]);
  }

  lemma ReadsOff(tables: seq<Table>)
    ensures !BundledOf(Named(tables + [Table(BUNDLED_TABLE, 4, 6, [Key("enabled", "false", 5)])]))
  {
    var t := Table(BUNDLED_TABLE, 4, 6, [Key("enabled", "false", 5)]);
    FalseAlone();
    NamedNext(tables, t);
    BundledNext(Named(tables), t);
    hide IsFalse;
    assert EnabledAt(t.keys) == 0;
  }

  lemma ClosedNamed(value: string, lines: seq<string>)
    requires |lines| == 8
    ensures Named(START.tables + [ClosedTable(value)]) == [ClosedTable(value)] && TableIn(ClosedTable(value), lines)
    ensures EnabledAt(ClosedTable(value).keys) == 0 < |ClosedTable(value).keys| && ClosedTable(value).keys[0].at == 1
  {
    NamedNext([], START.tables[0]);
    assert [] + START.tables == START.tables;
    NamedNext(START.tables, ClosedTable(value));
  }

  lemma AfterChunks(line: string)
    requires IsChunk(line) && EndsLine(line)
    ensures var lines := [HEAD_LINE] + [line] + After(); Chunks(lines) && |lines| == 8 && lines[1] == line && lines[7] == ""
  {
    OpenChunk();
    hide OpenLine;
  }

  // Where what is left opens a bracket, later lines are read otherwise: such a
  // file can read as off although more follows the first word of its value.
  lemma ReadsOffAllTheSame(line: string, value: string)
    requires IsChunk(line) && EndsLine(line) && IsSwitch(line, value) && ModeAfterValue(value) == Normal
    requires Find(line, '=') < |line| && ModeAfterValue(NewValue(line)) == InBrackets(1)
    ensures var content := Concat([HEAD_LINE] + [line] + After());
            SwitchLineOf(content) == Some(line) && EndsOnLine(content) && !CodexBundled(EditBundled(content, false))
  {
    hide *;
    var lines := [HEAD_LINE] + [line] + After();
    var content, t := Concat(lines), ClosedTable(value);
    AfterChunks(line);
    SameLines(lines);
    KindsClosed(line, value);
    TablesClosed(value);
    ScanTables(lines);
    ClosedNamed(value, lines);
    SwitchLineIs(content, lines, t);
    SwitchEnds(content, line, value);
    OffEdits(content, lines, t);
    EditSets(lines, t, EolOf(content));
    var now := SetTomlValue(line, "false");
    var out := lines[1 := now];
    SwitchSays(line, value);
    OtherLine(line, now);
    KindsOpen(now, NewValue(line));
    TablesOpen(NewValue(line));
    SetChunks(lines, 1);
    SameLines(out);
    ScanTables(out);
    ReadsOff(START.tables + [SwitchTable(NewValue(line))]);
    BundledIs(Concat(out));
  }

  lemma SameLines(lines: seq<string>)
    requires Chunks(lines) && |lines| == 8 && lines[7] == ""
    ensures TomlLines(Concat(lines)) == lines
  {
    hide TomlLines, Concat;
    SplitsAgain(lines);
  }

  lemma OtherLine(line: string, now: string)
    ensures ([HEAD_LINE] + [line] + After())[1 := now] == [HEAD_LINE] + [now] + After()
    ensures |[HEAD_LINE] + [line] + After()| == 8 && ([HEAD_LINE] + [now] + After())[7] == ""
  {
    hide OpenLine;
  }

  lemma SwitchEnds(content: string, line: string, value: string)
    requires SwitchLineOf(content) == Some(line) && IsSwitch(line, value) && ModeAfterValue(value) == Normal
    ensures EndsOnLine(content)
  {
    hide SwitchLineOf, KindOf, ModeAfterValue;
  }

  lemma SwitchSays(line: string, value: string)
    requires IsSwitch(line, value)
    ensures Find(line, '=') < |line| && IsSwitch(SetTomlValue(line, "false"), NewValue(line))
  {
    hide KindOf, Find, SetTomlValue, NewValue;
    NewLineSays(line, value);
  }

  lemma BundledIs(content: string)
    ensures CodexBundled(content) == BundledOf(Named(ScanToml(TomlLines(content)).tables))
  {
    hide BundledOf, Named, ScanToml, TomlLines;
  }

  // enabled = "a [b"
  lemma OddlyOff()
    ensures var line := Spaced("\"a", "[b\"");
            var content := Concat([HEAD_LINE] + [line] + After());
            SwitchLineOf(content) == Some(line) && EndsOnLine(content) && !TailIsBlank(line) && !CodexBundled(EditBundled(content, false))
  {
    var w, r := "\"a", "[b\"";
    QuotedEnds("a [b");
    assert "\"" + ("a [b" + "\"") == w + " " + r;
    OpensBracket();
    assert IsWord(w) && IsWord(r);
    hide *;
    SpacedChunk(w, r);
    SpacedSwitch(w, r);
    SpacedNewValue(w, r);
    SpacedTail(w, r);
    ReadsOffAllTheSame(Spaced(w, r), w + " " + r);
  }

  lemma SpacedSwitch(w: string, r: string)
    requires IsWord(w) && IsWord(r)
    ensures IsSwitch(Spaced(w, r), w + " " + r)
  {
    hide KindOf, Spaced, IsWord;
    SpacedKind(w, r);
  }

  lemma OpensBracket()
    ensures ModeAfterValue("false" + " " + "[b\"") == InBrackets(1)
  {
    QuoteDepth("b");
    assert "[b\""[1..] == "b" + "\"";
    assert BracketDepth("[b\"") == 1;
    PlainThen("false ", "[b\"");
    assert "false " + "[b\"" == "false" + " " + "[b\"";
    hide BracketDepth, Contains;
  }
}
