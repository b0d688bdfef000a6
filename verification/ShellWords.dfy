// The shell splitter and the shell quoter (internal/mcp/parse.go shellWords;
// internal/server/agenttools.go shellQuote): a grammar of command lines, the
// splitter proved to read exactly it, and the quoter proved to print in it.
// A character is one byte.
module ShellWords {
  import opened Prelude
  import Strings = Text

  predicate IsBlank(c: char) { c == ' ' || c == '\t' || c == '\n' || c == '\r' }

  // What a backslash escapes between double quotes, a newline aside.
  predicate IsEscapable(c: char) { c == '"' || c == '\\' || c == '$' || c == '`' }

  // ---- The grammar (quoting, section 2.2 of XCU in POSIX.1-2017) ----

  datatype QuotedPart = Char(c: char) | Escape(c: char) | LineJoin

  datatype Token =
    | Blank(c: char)
    | Bare(c: char)
    | Escaped(c: char)
      // A backslash and the end of a line, which join two lines into one.
    | Continuation(crlf: bool)
    | Single(body: string)
    | Double(parts: seq<QuotedPart>)
      // A backslash with nothing after it.
    | Dangling

  function PartText(p: QuotedPart): string {
    match p
    case Char(c) => [c]
    case Escape(c) => ['\\', c]
    case LineJoin => "\\\n"
  }

  function PartsText(ps: seq<QuotedPart>): string {
    if ps == [] then "" else PartText(ps[0]) + PartsText(ps[1..])
  }

  function PartsValue(ps: seq<QuotedPart>): string {
    if ps == [] then "" else (if ps[0].LineJoin? then "" else [ps[0].c]) + PartsValue(ps[1..])
  }

  // Whether the parts are what their text is read as: a backslash that stands
  // for itself is before nothing it escapes, the closing quote included.
  predicate PartsOk(ps: seq<QuotedPart>) {
    ps != [] ==>
      var next := (PartsText(ps[1..]) + "\"")[0];
      && PartsOk(ps[1..])
      && match ps[0]
         case Char(c) => c != '"' && (c == '\\' ==> next != '\n' && !IsEscapable(next))
         case Escape(c) => IsEscapable(c)
         case LineJoin => true
  }

  function TokenText(t: Token): string {
    match t
    case Blank(c) => [c]
    case Bare(c) => [c]
    case Escaped(c) => ['\\', c]
    case Continuation(crlf) => if crlf then "\\\r\n" else "\\\n"
    case Single(body) => "'" + body + "'"
    case Double(parts) => "\"" + PartsText(parts) + "\""
    case Dangling => "\\"
  }

  predicate TokenOk(t: Token, rest: string) {
    match t
    case Blank(c) => IsBlank(c)
    case Bare(c) => !IsBlank(c) && c != '\\' && c != '\'' && c != '"'
    case Escaped(c) => c != '\n' && !(c == '\r' && rest != "" && rest[0] == '\n')
    case Continuation(_) => true
    case Single(body) => '\'' !in body
    case Double(parts) => PartsOk(parts)
    case Dangling => rest == ""
  }

  function Text(ts: seq<Token>): string {
    if ts == [] then "" else TokenText(ts[0]) + Text(ts[1..])
  }

  predicate IsCommand(ts: seq<Token>) {
    ts != [] ==> TokenOk(ts[0], Text(ts[1..])) && IsCommand(ts[1..])
  }

  function TokenValue(t: Token): string {
    match t
    case Bare(c) => [c]
    case Escaped(c) => [c]
    case Single(body) => body
    case Double(parts) => PartsValue(parts)
    case _ => ""
  }

  // What begins or goes on with a word, be it an empty one.
  predicate MakesWord(t: Token) { t.Bare? || t.Escaped? || t.Single? || t.Double? }

  // The words of a command, after cur of a word already begun.
  function WordsOf(ts: seq<Token>, cur: string, inWord: bool): seq<string> {
    if ts == [] then (if inWord then [cur] else [])
    else if ts[0].Blank? then (if inWord then [cur] + WordsOf(ts[1..], "", false) else WordsOf(ts[1..], cur, false))
    else if MakesWord(ts[0]) then WordsOf(ts[1..], cur + TokenValue(ts[0]), true)
    else WordsOf(ts[1..], cur, inWord)
  }

  // ---- The splitter ----

  datatype Quoted = Unclosed | Closed(value: string, length: nat)

  // The text up to a closing double quote, and how long it is.
  function ReadQuoted(s: string): (r: Quoted)
    ensures r.Closed? ==> r.length < |s| && s[r.length] == '"'
  {
    if s == "" then Unclosed
    else if s[0] == '"' then Closed("", 0)
    else if s[0] == '\\' && |s| > 1 && (s[1] == '\n' || IsEscapable(s[1])) then
      var r := ReadQuoted(s[2..]);
      if r.Unclosed? then r else Closed((if s[1] == '\n' then "" else [s[1]]) + r.value, r.length + 2)
    else
      var r := ReadQuoted(s[1..]);
      if r.Unclosed? then r else Closed([s[0]] + r.value, r.length + 1)
  }

  function Prepend(words: seq<string>, r: Option<seq<string>>): Option<seq<string>> {
    if r.None? then None else Some(words + r.value)
  }

  // The rest of a command line, after cur of a word already begun.
  function Split(s: string, cur: string, inWord: bool): Option<seq<string>>
    decreases |s|
  {
    if s == "" then Some(if inWord then [cur] else [])
    else if s[0] == '\\' then
      if |s| == 1 then Split("", cur, inWord)
      else if s[1] == '\n' then Split(s[2..], cur, inWord)
      else if s[1] == '\r' && |s| > 2 && s[2] == '\n' then Split(s[3..], cur, inWord)
      else Split(s[2..], cur + [s[1]], true)
    else if s[0] == '\'' then
      var end := Strings.Find(s[1..], '\'');
      if end == |s| - 1 then None else Split(s[end + 2..], cur + s[1..end + 1], true)
    else if s[0] == '"' then
      var q := ReadQuoted(s[1..]);
      if q.Unclosed? then None else Split(s[q.length + 2..], cur + q.value, true)
    else if IsBlank(s[0]) then
      if inWord then Prepend([cur], Split(s[1..], "", false)) else Split(s[1..], cur, false)
    else Split(s[1..], cur + [s[0]], true)
  }

  method IndexByte(s: string, c: char, from: nat) returns (i: nat)
    requires from <= |s|
    ensures i == from + Strings.Find(s[from..], c)
  {
    i := from;
    while i < |s| && s[i] != c
      invariant from <= i <= |s|
      invariant from + Strings.Find(s[from..], c) == i + Strings.Find(s[i..], c)
    {
      assert s[i..][1..] == s[i + 1..];
      i := i + 1;
    }
  }

  // A reading with value and n more characters before it.
  function Onto(value: string, n: nat, q: Quoted): Quoted {
    if q.Unclosed? then q else Closed(value + q.value, n + q.length)
  }

  lemma OntoTwice(a: string, m: nat, b: string, n: nat, q: Quoted)
    ensures Onto(a, m, Onto(b, n, q)) == Onto(a + b, m + n, q) && Onto("", 0, q) == q
  {
    if q.Closed? {
      assert a + (b + q.value) == a + b + q.value && "" + q.value == q.value;
    }
  }

  lemma ReadClosed(s: string)
    requires s == "" || s[0] == '"'
    ensures ReadQuoted(s) == if s == "" then Unclosed else Closed("", 0)
  {
  }

  lemma ReadFrom(s: string, i: nat)
    requires i < |s| && s[i] != '"'
    ensures var joined := s[i] == '\\' && i + 1 < |s| && (s[i + 1] == '\n' || IsEscapable(s[i + 1]));
            var k := if joined then 2 else 1;
            var value := if !joined then [s[i]] else if s[i + 1] == '\n' then "" else [s[i + 1]];
            ReadQuoted(s[i..]) == Onto(value, k, ReadQuoted(s[i + k..]))
  {
    var left := s[i..];
    assert left[1..] == s[i + 1..];
    assert i + 2 <= |s| ==> left[2..] == s[i + 2..];
  }

  // Between from and i, body was read of a double quote.
  ghost predicate HasRead(s: string, from: nat, i: nat, body: string) {
    from <= i <= |s| && ReadQuoted(s[from..]) == Onto(body, i - from, ReadQuoted(s[i..]))
  }

  lemma ReadBegins(s: string, from: nat)
    requires from <= |s|
    ensures HasRead(s, from, from, "")
  {
    OntoTwice("", 0, "", 0, ReadQuoted(s[from..]));
  }

  lemma ReadGoesOn(s: string, from: nat, i: nat, body: string)
    requires HasRead(s, from, i, body) && i < |s| && s[i] != '"'
    ensures if s[i] == '\\' && i + 1 < |s| && (s[i + 1] == '\n' || IsEscapable(s[i + 1]))
            then HasRead(s, from, i + 2, if s[i + 1] == '\n' then body else body + [s[i + 1]])
            else HasRead(s, from, i + 1, body + [s[i]])
  {
    ReadFrom(s, i);
    hide ReadQuoted, Onto;
    if s[i] == '\\' && i + 1 < |s| && (s[i + 1] == '\n' || IsEscapable(s[i + 1])) {
      OntoTwice(body, i - from, if s[i + 1] == '\n' then "" else [s[i + 1]], 2, ReadQuoted(s[i + 2..]));
      assert body + "" == body;
    } else {
      OntoTwice(body, i - from, [s[i]], 1, ReadQuoted(s[i + 1..]));
    }
  }

  lemma ReadEnds(s: string, from: nat, i: nat, body: string)
    requires HasRead(s, from, i, body) && (i == |s| || s[i] == '"')
    ensures ReadQuoted(s[from..]) == if i == |s| then Unclosed else Closed(body, i - from)
  {
    ReadClosed(s[i..]);
    assert body + "" == body;
  }

  // The body of a double quote that begins at from, and where it ends.
  method DoubleQuoted(s: string, from: nat) returns (ok: bool, i: nat, body: string)
    requires from <= |s|
    ensures from <= i <= |s|
    ensures ReadQuoted(s[from..]) == if ok then Closed(body, i - from) else Unclosed
  {
    hide ReadQuoted, Onto, HasRead;
    i, body := from, "";
    ReadBegins(s, from);
    while i < |s| && s[i] != '"'
      invariant from <= i <= |s| && HasRead(s, from, i, body)
    {
      ReadGoesOn(s, from, i, body);
      if s[i] == '\\' && i + 1 < |s| && (s[i + 1] == '\n' || IsEscapable(s[i + 1])) {
        if s[i + 1] != '\n' {
          body := body + [s[i + 1]];
        }
        i := i + 2;
      } else {
        body := body + [s[i]];
        i := i + 1;
      }
    }
    ReadEnds(s, from, i, body);
    ok := i < |s|;
  }

  lemma PrependTwice(a: seq<string>, b: seq<string>, r: Option<seq<string>>)
    ensures Prepend(a, Prepend(b, r)) == Prepend(a + b, r) && Prepend([], r) == r && Prepend(a, None) == None
  {
    if r.Some? {
      assert a + (b + r.value) == a + b + r.value && [] + r.value == r.value;
    }
  }

  // The split from i on, by the character there.
  lemma SplitFrom(s: string, i: nat, cur: string, inWord: bool)
    requires i < |s|
    ensures s[i] == '\\' ==>
              Split(s[i..], cur, inWord) ==
              if i + 1 == |s| then Split(s[i + 1..], cur, inWord)
              else if s[i + 1] == '\n' then Split(s[i + 2..], cur, inWord)
              else if s[i + 1] == '\r' && i + 2 < |s| && s[i + 2] == '\n' then Split(s[i + 3..], cur, inWord)
              else Split(s[i + 2..], cur + [s[i + 1]], true)
    ensures IsBlank(s[i]) ==>
              Split(s[i..], cur, inWord) ==
              if inWord then Prepend([cur], Split(s[i + 1..], "", false)) else Split(s[i + 1..], cur, false)
    ensures s[i] != '\\' && s[i] != '\'' && s[i] != '"' && !IsBlank(s[i]) ==>
              Split(s[i..], cur, inWord) == Split(s[i + 1..], cur + [s[i]], true)
  {
    var left := s[i..];
    assert left[1..] == s[i + 1..];
    assert i + 2 <= |s| ==> left[2..] == s[i + 2..];
    assert i + 3 <= |s| ==> left[3..] == s[i + 3..];
  }

  lemma SplitFromSingle(s: string, i: nat, cur: string, inWord: bool)
    requires i < |s| && s[i] == '\''
    ensures var end := i + 1 + Strings.Find(s[i + 1..], '\'');
            Split(s[i..], cur, inWord) == if end == |s| then None else Split(s[end + 1..], cur + s[i + 1..end], true)
  {
    var left := s[i..];
    assert left[1..] == s[i + 1..];
    var n := Strings.Find(s[i + 1..], '\'');
    hide Strings.Find, ReadQuoted;
    if i + 1 + n < |s| {
      assert left[n + 2..] == s[i + n + 2..] && left[1..n + 1] == s[i + 1..i + 1 + n];
    }
  }

  lemma SplitDouble(s: string, cur: string, inWord: bool)
    requires s != "" && s[0] == '"'
    ensures var q := ReadQuoted(s[1..]);
            Split(s, cur, inWord) == if q.Unclosed? then None else Split(s[q.length + 2..], cur + q.value, true)
  {
    hide ReadQuoted;
  }

  lemma SplitFromDouble(s: string, i: nat, cur: string, inWord: bool)
    requires i < |s| && s[i] == '"'
    ensures var q := ReadQuoted(s[i + 1..]);
            Split(s[i..], cur, inWord) == if q.Unclosed? then None else Split(s[i + q.length + 2..], cur + q.value, true)
  {
    hide ReadQuoted, Split;
    var left := s[i..];
    SplitDouble(left, cur, inWord);
    assert left[1..] == s[i + 1..];
    var q := ReadQuoted(s[i + 1..]);
    if q.Closed? {
      assert left[q.length + 2..] == s[i + q.length + 2..];
    }
  }

  method ShellWords(s: string) returns (r: Option<seq<string>>)
    ensures r == Split(s, "", false)
  {
    hide Split, ReadQuoted, Prepend;
    var words: seq<string> := [];
    var cur := "";
    var inWord := false;
    var i := 0;
    assert s[0..] == s;
    PrependTwice([], [], Split(s, "", false));
    while i < |s|
      invariant 0 <= i <= |s|
      invariant Split(s, "", false) == Prepend(words, Split(s[i..], cur, inWord))
    {
      var c := s[i];
      SplitFrom(s, i, cur, inWord);
      if c == '\\' {
        if i + 1 == |s| {
          i := i + 1;
        } else if s[i + 1] == '\n' {
          i := i + 2;
        } else if s[i + 1] == '\r' && i + 2 < |s| && s[i + 2] == '\n' {
          i := i + 3;
        } else {
          cur := cur + [s[i + 1]];
          inWord := true;
          i := i + 2;
        }
      } else if c == '\'' {
        SplitFromSingle(s, i, cur, inWord);
        var end := IndexByte(s, '\'', i + 1);
        if end == |s| {
          PrependTwice(words, [], None);
          return None;
        }
        cur := cur + s[i + 1..end];
        i := end + 1;
        inWord := true;
      } else if c == '"' {
        SplitFromDouble(s, i, cur, inWord);
        var ok, end, body := DoubleQuoted(s, i + 1);
        if !ok {
          PrependTwice(words, [], None);
          return None;
        }
        cur, i, inWord := cur + body, end + 1, true;
      } else if IsBlank(c) {
        if inWord {
          PrependTwice(words, [cur], Split(s[i + 1..], "", false));
          words := words + [cur];
          cur := "";
          inWord := false;
        }
        i := i + 1;
      } else {
        cur := cur + [c];
        inWord := true;
        i := i + 1;
      }
    }
    SplitNothing(cur, inWord);
    assert s[i..] == "";
    if inWord {
      words := words + [cur];
    }
    r := Some(words);
  }

  lemma SplitNothing(cur: string, inWord: bool)
    ensures Split("", cur, inWord) == Some(if inWord then [cur] else [])
    ensures forall words :: Prepend(words, Split("", cur, inWord)) == Some(if inWord then words + [cur] else words)
  {
    assert forall words: seq<string> :: words + [] == words;
  }

  // ---- The splitter reads the grammar ----

  lemma {:induction false} ReadsParts(ps: seq<QuotedPart>, rest: string)
    requires PartsOk(ps)
    ensures ReadQuoted(PartsText(ps) + "\"" + rest) == Closed(PartsValue(ps), |PartsText(ps)|)
  {
    var s := PartsText(ps) + "\"" + rest;
    if ps == [] {
      assert s[0] == '"';
    } else {
      ReadsParts(ps[1..], rest);
      var tail := PartsText(ps[1..]) + "\"" + rest;
      assert s == PartText(ps[0]) + tail;
      assert s[|PartText(ps[0])|..] == tail;
      assert (PartsText(ps[1..]) + "\"")[0] == tail[0];
    }
  }

  lemma ReadsSingle(body: string, rest: string, cur: string, inWord: bool)
    requires '\'' !in body
    ensures Split("'" + body + "'" + rest, cur, inWord) == Split(rest, cur + body, true)
  {
    var s := "'" + body + "'" + rest;
    Strings.FindAfter(body, '\'', rest);
    assert s[1..] == body + ['\''] + rest;
    assert s[1..|body| + 1] == body && s[|body| + 2..] == rest;
  }

  lemma ReadsDouble(parts: seq<QuotedPart>, rest: string, cur: string, inWord: bool)
    requires PartsOk(parts)
    ensures Split("\"" + PartsText(parts) + "\"" + rest, cur, inWord) == Split(rest, cur + PartsValue(parts), true)
  {
    var s := "\"" + PartsText(parts) + "\"" + rest;
    ReadsParts(parts, rest);
    hide PartsText, PartsValue, ReadQuoted, PartsOk;
    assert s[1..] == PartsText(parts) + "\"" + rest;
    assert s[|PartsText(parts)| + 2..] == rest;
  }

  lemma ReadsEscape(s: string, cur: string, inWord: bool)
    requires s != "" && s[0] == '\\'
    ensures Split(s, cur, inWord) ==
            if |s| == 1 then Split("", cur, inWord)
            else if s[1] == '\n' then Split(s[2..], cur, inWord)
            else if s[1] == '\r' && |s| > 2 && s[2] == '\n' then Split(s[3..], cur, inWord)
            else Split(s[2..], cur + [s[1]], true)
  {
  }

  lemma ReadsChar(c: char, rest: string, cur: string, inWord: bool)
    requires c != '\\' && c != '\'' && c != '"'
    ensures Split([c] + rest, cur, inWord) ==
            if !IsBlank(c) then Split(rest, cur + [c], true)
            else if inWord then Prepend([cur], Split(rest, "", false)) else Split(rest, cur, false)
  {
    assert ([c] + rest)[1..] == rest;
  }

  // What one token does to the rest of the split.
  lemma ReadsToken(t: Token, rest: string, cur: string, inWord: bool)
    requires TokenOk(t, rest)
    ensures Split(TokenText(t) + rest, cur, inWord) ==
            if t.Blank? then (if inWord then Prepend([cur], Split(rest, "", false)) else Split(rest, cur, false))
            else if MakesWord(t) then Split(rest, cur + TokenValue(t), true)
            else Split(rest, cur, inWord)
  {
    hide Split, PartsText, PartsValue, PartsOk;
    var s := TokenText(t) + rest;
    match t
    case Single(body) => ReadsSingle(body, rest, cur, inWord);
    case Double(parts) => ReadsDouble(parts, rest, cur, inWord);
    case Blank(c) => ReadsChar(c, rest, cur, inWord);
    case Bare(c) => ReadsChar(c, rest, cur, inWord);
    case Escaped(c) =>
      ReadsEscape(s, cur, inWord);
      assert s[2..] == rest;
    case Continuation(crlf) =>
      ReadsEscape(s, cur, inWord);
      assert s[if crlf then 3 else 2..] == rest;
    case Dangling =>
      ReadsEscape(s, cur, inWord);
  }

  lemma {:induction false} SplitsAfter(ts: seq<Token>, cur: string, inWord: bool)
    requires IsCommand(ts)
    ensures Split(Text(ts), cur, inWord) == Some(WordsOf(ts, cur, inWord))
  {
    if ts != [] {
      var t := ts[0];
      ReadsToken(t, Text(ts[1..]), cur, inWord);
      hide Split, TokenOk, TokenText, TokenValue;
      if t.Blank? && inWord {
        SplitsAfter(ts[1..], "", false);
      } else if MakesWord(t) {
        SplitsAfter(ts[1..], cur + TokenValue(t), true);
      } else {
        SplitsAfter(ts[1..], cur, inWord);
      }
    }
  }

  // ---- Every line that splits is in the grammar ----

  // The part that begins s.
  function FirstPart(s: string): QuotedPart
    requires s != ""
  {
    if s[0] == '\\' && |s| > 1 && (s[1] == '\n' || IsEscapable(s[1])) then (if s[1] == '\n' then LineJoin else Escape(s[1]))
    else Char(s[0])
  }

  // The parts a double quote is read as.
  function LexQuoted(s: string): (ps: seq<QuotedPart>)
    requires ReadQuoted(s).Closed?
  {
    if s[0] == '"' then [] else [FirstPart(s)] + LexQuoted(s[if FirstPart(s).Char? then 1 else 2..])
  }

  lemma {:induction false} LexQuotedOk(s: string)
    requires ReadQuoted(s).Closed?
    ensures PartsOk(LexQuoted(s)) && PartsText(LexQuoted(s)) == s[..ReadQuoted(s).length]
  {
    if s[0] != '"' {
      hide PartsText, PartsOk, PartText;
      var p := FirstPart(s);
      var k := if p.Char? then 1 else 2;
      LexQuotedOk(s[k..]);
      FirstPartText(s);
      LexNext(s, k, p, LexQuoted(s[k..]), ReadQuoted(s[k..]).length);
    } else {
      assert s[..0] == "";
    }
  }

  lemma FirstPartText(s: string)
    requires s != ""
    ensures s[..if FirstPart(s).Char? then 1 else 2] == PartText(FirstPart(s))
  {
  }

  lemma LexNext(s: string, k: nat, p: QuotedPart, ps: seq<QuotedPart>, n: nat)
    requires k + n < |s| && s[k + n] == '"' && s[..k] == PartText(p)
    requires PartsOk(ps) && PartsText(ps) == s[k..][..n]
    requires p.Char? ==> p.c != '"' && (p.c == '\\' ==> s[k] != '\n' && !IsEscapable(s[k]))
    requires p.Escape? ==> IsEscapable(p.c)
    ensures PartsOk([p] + ps) && PartsText([p] + ps) == s[..n + k]
  {
    assert ([p] + ps)[1..] == ps;
    assert (PartsText(ps) + "\"")[0] == s[k];
    assert PartsOk([p] + ps) by { hide PartText, PartsText; }
    hide PartText, PartsOk;
    assert s[..n + k] == s[..k] + s[k..][..n];
  }

  function TokenLength(s: string): (n: nat)
    requires s != ""
    requires s[0] == '\'' ==> Strings.Find(s[1..], '\'') < |s| - 1
    requires s[0] == '"' ==> ReadQuoted(s[1..]).Closed?
    ensures 1 <= n <= |s|
  {
    if s[0] == '\\' then
      if |s| == 1 then 1 else if s[1] == '\r' && |s| > 2 && s[2] == '\n' then 3 else 2
    else if s[0] == '\'' then Strings.Find(s[1..], '\'') + 2
    else if s[0] == '"' then ReadQuoted(s[1..]).length + 2
    else 1
  }

  predicate Starts(s: string) {
    && s != "" && (s[0] == '\'' ==> Strings.Find(s[1..], '\'') < |s| - 1)
    && (s[0] == '"' ==> ReadQuoted(s[1..]).Closed?)
  }

  function FirstToken(s: string): Token
    requires Starts(s)
  {
    if s[0] == '\\' then
      if |s| == 1 then Dangling
      else if s[1] == '\n' then Continuation(false)
      else if s[1] == '\r' && |s| > 2 && s[2] == '\n' then Continuation(true)
      else Escaped(s[1])
    else if s[0] == '\'' then Single(s[1..Strings.Find(s[1..], '\'') + 1])
    else if s[0] == '"' then Double(LexQuoted(s[1..]))
    else if IsBlank(s[0]) then Blank(s[0])
    else Bare(s[0])
  }

  lemma FirstTokenOk(s: string)
    requires Starts(s)
    ensures var rest := s[TokenLength(s)..];
            TokenOk(FirstToken(s), rest) && TokenText(FirstToken(s)) + rest == s
  {
    var n := TokenLength(s);
    assert s == s[..n] + s[n..];
    if s[0] == '"' {
      FirstDouble(s);
    } else if s[0] == '\'' {
      FirstSingle(s);
    } else {
      hide LexQuoted, ReadQuoted, Strings.Find;
      assert TokenText(FirstToken(s)) == s[..n];
    }
  }

  lemma FirstDouble(s: string)
    requires Starts(s) && s[0] == '"'
    ensures TokenOk(FirstToken(s), s[TokenLength(s)..]) && TokenText(FirstToken(s)) == s[..TokenLength(s)]
  {
    LexQuotedOk(s[1..]);
    var q := ReadQuoted(s[1..]).length;
    assert s[1..][q] == '"';
    hide LexQuoted, ReadQuoted, PartsText, PartsOk;
    assert s[..q + 2] == ['"'] + s[1..][..q] + ['"'];
  }

  lemma FirstSingle(s: string)
    requires Starts(s) && s[0] == '\''
    ensures TokenOk(FirstToken(s), s[TokenLength(s)..]) && TokenText(FirstToken(s)) == s[..TokenLength(s)]
  {
    var q := Strings.Find(s[1..], '\'');
    assert s[1..][q] == '\'';
    assert forall k :: 0 <= k < q ==> s[1..][k] == s[k + 1];
    hide Strings.Find;
    assert s[..q + 2] == ['\''] + s[1..q + 1] + ['\''];
  }

  lemma {:induction false} LexCommand(s: string, cur: string, inWord: bool) returns (ts: seq<Token>)
    requires Split(s, cur, inWord).Some?
    ensures IsCommand(ts) && Text(ts) == s
    decreases |s|
  {
    ts := [];
    if s != "" {
      assert Starts(s);
      FirstTokenOk(s);
      var t, rest := FirstToken(s), s[TokenLength(s)..];
      ReadsToken(t, rest, cur, inWord);
      hide Split, TokenOk, TokenText, TokenValue, FirstToken, TokenLength;
      var more: seq<Token>;
      if t.Blank? && inWord {
        more := LexCommand(rest, "", false);
      } else if MakesWord(t) {
        more := LexCommand(rest, cur + TokenValue(t), true);
      } else {
        more := LexCommand(rest, cur, inWord);
      }
      ts := [t] + more;
      assert ts[1..] == more;
    }
  }

  // The splitter gives words exactly when the line is a command of the grammar,
  // and then they are the command's.
  lemma SplitIffCommand(s: string, words: seq<string>)
    ensures Split(s, "", false) == Some(words) <==>
            exists ts :: IsCommand(ts) && Text(ts) == s && WordsOf(ts, "", false) == words
  {
    if Split(s, "", false) == Some(words) {
      var ts := LexCommand(s, "", false);
      SplitsAfter(ts, "", false);
      assert IsCommand(ts) && Text(ts) == s && WordsOf(ts, "", false) == words;
    }
    forall ts | IsCommand(ts) && Text(ts) == s && WordsOf(ts, "", false) == words
      ensures Split(s, "", false) == Some(words)
    {
      SplitsAfter(ts, "", false);
    }
  }

  // ---- The quoter ----

  predicate IsSafe(c: char) {
    'A' <= c <= 'Z' || 'a' <= c <= 'z' || '0' <= c <= '9' || c in "_./:@%+=,~-"
  }

  // Every ' made '\'' .
  function ReplaceQuotes(v: string): string {
    if v == "" then "" else (if v[0] == '\'' then "'\\''" else [v[0]]) + ReplaceQuotes(v[1..])
  }

  function ShellQuote(v: string): string {
    if v != "" && forall i :: 0 <= i < |v| ==> IsSafe(v[i]) then v else "'" + ReplaceQuotes(v) + "'"
  }

  function Join(words: seq<string>): string {
    if words == [] then "" else if |words| == 1 then words[0] else words[0] + " " + Join(words[1..])
  }

  function BareTokens(v: string): seq<Token> { if v == "" then [] else [Bare(v[0])] + BareTokens(v[1..]) }

  // 'acc and the rest of v' as single quotes with escaped ones between them.
  function SingleTokens(v: string, acc: string): seq<Token> {
    if v == "" then [Single(acc)]
    else if v[0] == '\'' then [Single(acc), Escaped('\'')] + SingleTokens(v[1..], "")
    else SingleTokens(v[1..], acc + [v[0]])
  }

  function QuoteTokens(v: string): seq<Token> {
    if v != "" && forall i :: 0 <= i < |v| ==> IsSafe(v[i]) then BareTokens(v) else SingleTokens(v, "")
  }

  // A token before a command, and what it does to the words.
  lemma Put(t: Token, more: seq<Token>, cur: string, inWord: bool)
    requires IsCommand(more) && TokenOk(t, Text(more)) && MakesWord(t)
    ensures IsCommand([t] + more)
    ensures Text([t] + more) == TokenText(t) + Text(more)
    ensures WordsOf([t] + more, cur, inWord) == WordsOf(more, cur + TokenValue(t), true)
  {
    hide TokenText, TokenOk, TokenValue;
    assert ([t] + more)[1..] == more;
  }

  lemma SafeIsBare(c: char, rest: string)
    requires IsSafe(c)
    ensures TokenOk(Bare(c), rest) && TokenText(Bare(c)) == [c] && TokenValue(Bare(c)) == [c]
  {
  }

  lemma {:induction false} BarePrints(v: string, more: seq<Token>, cur: string, inWord: bool)
    requires forall i :: 0 <= i < |v| ==> IsSafe(v[i])
    requires IsCommand(more)
    ensures Text(BareTokens(v) + more) == v + Text(more) && IsCommand(BareTokens(v) + more)
    ensures WordsOf(BareTokens(v) + more, cur, inWord) == WordsOf(more, cur + v, inWord || v != "")
  {
    hide IsCommand, Text, WordsOf, TokenOk, TokenText, TokenValue, IsSafe;
    if v == "" {
      assert BareTokens(v) + more == more && cur + v == cur && v + Text(more) == Text(more);
    } else {
      var rest := BareTokens(v[1..]) + more;
      BarePrints(v[1..], more, cur + [v[0]], true);
      SafeIsBare(v[0], Text(rest));
      Put(Bare(v[0]), rest, cur, inWord);
      assert BareTokens(v) + more == [Bare(v[0])] + rest;
      assert cur + [v[0]] + v[1..] == cur + v;
      assert [v[0]] + (v[1..] + Text(more)) == v + Text(more);
    }
  }

  lemma SingleText(acc: string, rest: string)
    requires '\'' !in acc
    ensures TokenOk(Single(acc), rest) && TokenText(Single(acc)) == "'" + acc + "'" && TokenValue(Single(acc)) == acc
    ensures TokenOk(Escaped('\''), rest) && TokenText(Escaped('\'')) == "\\'" && TokenValue(Escaped('\'')) == "'"
  {
  }

  lemma {:induction false} SinglePrints(v: string, acc: string, more: seq<Token>, cur: string, inWord: bool)
    requires '\'' !in acc && IsCommand(more)
    ensures Text(SingleTokens(v, acc) + more) == "'" + acc + ReplaceQuotes(v) + "'" + Text(more)
    ensures IsCommand(SingleTokens(v, acc) + more)
    ensures WordsOf(SingleTokens(v, acc) + more, cur, inWord) == WordsOf(more, cur + acc + v, true)
    decreases |v|
  {
    hide IsCommand, Text, WordsOf, TokenOk, TokenText, TokenValue;
    if v == "" {
      SingleText(acc, Text(more));
      Put(Single(acc), more, cur, inWord);
      assert cur + acc + v == cur + acc && "'" + acc + "" + "'" == "'" + acc + "'";
    } else if v[0] == '\'' {
      var rest := SingleTokens(v[1..], "") + more;
      SinglePrints(v[1..], "", more, cur + acc + "'", true);
      assert SingleTokens(v, acc) + more == [Single(acc)] + ([Escaped('\'')] + rest);
      hide SingleTokens;
      PutQuote(acc, rest, cur, inWord);
      QuotedQuote(cur, acc, v, ReplaceQuotes(v[1..]), Text(more));
    } else {
      SinglePrints(v[1..], acc + [v[0]], more, cur, inWord);
      hide SingleTokens;
      PlainChar(cur, acc, v, ReplaceQuotes(v[1..]));
    }
  }

  lemma PlainChar(cur: string, acc: string, v: string, r: string)
    requires v != ""
    ensures cur + (acc + [v[0]]) + v[1..] == cur + acc + v
    ensures "'" + (acc + [v[0]]) + r == "'" + acc + ([v[0]] + r)
  {
    assert [v[0]] + v[1..] == v;
  }

  lemma PutQuote(acc: string, rest: seq<Token>, cur: string, inWord: bool)
    requires '\'' !in acc && IsCommand(rest)
    ensures var ts := [Single(acc)] + ([Escaped('\'')] + rest);
            && IsCommand(ts) && Text(ts) == "'" + acc + "'" + ("\\'" + Text(rest))
            && WordsOf(ts, cur, inWord) == WordsOf(rest, cur + acc + "'", true)
  {
    hide IsCommand, Text, WordsOf, TokenOk, TokenText, TokenValue;
    SingleText(acc, Text([Escaped('\'')] + rest));
    SingleText(acc, Text(rest));
    Put(Escaped('\''), rest, cur + acc, true);
    Put(Single(acc), [Escaped('\'')] + rest, cur, inWord);
  }

  lemma QuotedQuote(cur: string, acc: string, v: string, r: string, more: string)
    requires v != "" && v[0] == '\''
    ensures cur + acc + "'" + "" + v[1..] == cur + acc + v
    ensures "'" + acc + "'" + ("\\'" + ("'" + "" + r + "'" + more)) == "'" + acc + ("'\\''" + r) + "'" + more
  {
    assert "'" + v[1..] == v;
  }

  // Any value, quoted, is one word that reads as the value.
  lemma QuotePrints(v: string, more: seq<Token>)
    requires IsCommand(more)
    ensures Text(QuoteTokens(v) + more) == ShellQuote(v) + Text(more)
    ensures IsCommand(QuoteTokens(v) + more)
    ensures WordsOf(QuoteTokens(v) + more, "", false) == WordsOf(more, v, true)
  {
    hide Text, IsCommand, TokenText, TokenOk, WordsOf, IsSafe;
    if v != "" && forall i :: 0 <= i < |v| ==> IsSafe(v[i]) {
      BarePrints(v, more, "", false);
      assert "" + v == v;
    } else {
      SinglePrints(v, "", more, "", false);
      assert "" + "" + v == v && "'" + "" + ReplaceQuotes(v) == "'" + ReplaceQuotes(v);
    }
  }

  function JoinTokens(words: seq<string>): seq<Token> {
    if words == [] then []
    else if |words| == 1 then QuoteTokens(words[0])
    else QuoteTokens(words[0]) + ([Blank(' ')] + JoinTokens(words[1..]))
  }

  lemma {:induction false} JoinPrints(words: seq<string>)
    ensures var ts := JoinTokens(words);
            IsCommand(ts) && Text(ts) == Join(MapSeq(ShellQuote, words)) && WordsOf(ts, "", false) == words
  {
    var quoted := MapSeq(ShellQuote, words);
    if |words| == 1 {
      QuotePrints(words[0], []);
      hide QuoteTokens, ShellQuote;
      assert QuoteTokens(words[0]) + [] == QuoteTokens(words[0]) && ShellQuote(words[0]) + "" == ShellQuote(words[0]);
    } else if |words| > 1 {
      JoinPrints(words[1..]);
      assert MapSeq(ShellQuote, words[1..]) == quoted[1..];
      hide QuoteTokens, ShellQuote, IsCommand, Text, WordsOf;
      JoinMore(words[0], words[1..], JoinTokens(words[1..]), Join(quoted[1..]));
      assert [words[0]] + words[1..] == words;
    }
  }

  // A quoted word and a space before a command.
  lemma JoinMore(word: string, words: seq<string>, ts: seq<Token>, text: string)
    requires IsCommand(ts) && Text(ts) == text && WordsOf(ts, "", false) == words
    ensures var all := QuoteTokens(word) + ([Blank(' ')] + ts);
            IsCommand(all) && Text(all) == ShellQuote(word) + " " + text && WordsOf(all, "", false) == [word] + words
  {
    hide QuoteTokens, ShellQuote;
    var more := [Blank(' ')] + ts;
    assert more[1..] == ts;
    assert IsCommand(more) && WordsOf(more, word, true) == [word] + words && Text(more) == " " + text;
    hide IsCommand, Text, WordsOf;
    QuotePrints(word, more);
    assert ShellQuote(word) + (" " + text) == ShellQuote(word) + " " + text;
  }

  // Splitting the quoted values, joined by spaces, gives back the values.
  lemma ShellRoundTrip(words: seq<string>)
    ensures Split(Join(MapSeq(ShellQuote, words)), "", false) == Some(words)
  {
    JoinPrints(words);
    SplitsAfter(JoinTokens(words), "", false);
  }
}
