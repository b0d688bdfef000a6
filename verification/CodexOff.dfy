// A line whose value is swapped for false: what kind of line it is then, and
// when it says false (internal/skills/codexconfig.go setTOMLValue, isFalse).
module CodexOff {
  import opened Prelude
  import opened Text
  import opened Toml
  import opened TomlTables
  import opened TomlDoc
  import opened CodexConfig
  import opened CodexSwitch

  // ---- Key lines ----

  // Trimming before and after a character that is no space.
  lemma TrimAround(pre: string, c: char, post: string)
    requires !IsSpace(c) && TrimLeft(pre) != ""
    ensures TrimSpace(pre + [c] + post) == TrimLeft(pre) + [c] + TrimRight(post)
  {
    var a := TrimLeftShape(pre);
    var b := TrimRightShape(post);
    var p, q := TrimLeft(pre), TrimRight(post);
    hide TrimLeft, TrimRight, IsSpace, AllSpace;
    Joined(a, p, c, q, b);
    assert (p + [c] + q)[0] == p[0];
    assert q == "" ==> (p + [c] + q)[|p|] == c && |p + [c] + q| == |p| + 1;
    assert q != "" ==> (p + [c] + q)[|p| + |q|] == q[|q| - 1];
    TrimOf(a, p + [c] + q, b);
  }

  lemma Joined(a: string, p: string, c: char, q: string, b: string)
    ensures a + p + [c] + (q + b) == a + (p + [c] + q) + b
  {
  }

  lemma LeftTwice(s: string)
    ensures TrimSpace(TrimLeft(s)) == TrimSpace(s)
  {
    var a := TrimLeftShape(s);
    hide TrimRight, IsSpace;
    assert "" + TrimLeft(s) == TrimLeft(s);
    TrimLeftOf("", TrimLeft(s));
  }

  lemma RightTwice(s: string)
    ensures TrimSpace(TrimRight(s)) == TrimSpace(s)
  {
    var b := TrimRightShape(s);
    RightThenLeft(s, b);
  }

  lemma RightThenLeft(s: string, b: string)
    requires s == TrimRight(s) + b && AllSpace(b)
    ensures TrimSpace(TrimRight(s)) == TrimSpace(s)
  {
    var x, y := TrimShape(TrimRight(s));
    var r := TrimSpace(TrimRight(s));
    hide TrimSpace, TrimRight, IsSpace;
    assert AllSpace(y + b);
    assert s == x + r + (y + b);
    TrimOf(x, r, y + b);
  }

  lemma KeyText(p: string, q: string)
    requires forall i :: 0 <= i < |p| ==> p[i] != '='
    requires p != "" && p[0] != '#' && p[0] != '['
    ensures KindOfText(p + ['='] + q) == KeyLine(Unquote(p), TrimSpace(q))
  {
    FindAfter(p, '=', q);
    var line := p + ['='] + q;
    assert line[..|p|] == p && line[|p| + 1..] == q && line[0] == p[0];
    hide Unquote, TrimSpace;
  }

  lemma UnquoteTrims(s: string)
    ensures Unquote(TrimLeft(s)) == Unquote(s)
  {
    LeftTwice(s);
    hide TrimSpace, TrimLeft;
  }

  lemma NotInTrimmed(s: string, c: char)
    requires forall i :: 0 <= i < |s| ==> s[i] != c
    ensures forall i :: 0 <= i < |TrimLeft(s)| ==> TrimLeft(s)[i] != c
  {
    var a := TrimLeftShape(s);
    hide TrimLeft, IsSpace;
    forall i | 0 <= i < |TrimLeft(s)| ensures TrimLeft(s)[i] != c {
      assert TrimLeft(s)[i] == s[|a| + i];
    }
  }

  // A line with an = is a key's, whatever the key, unless a comment or a header.
  lemma KeyLineKind(pre: string, post: string)
    requires forall i :: 0 <= i < |pre| ==> pre[i] != '='
    requires TrimLeft(pre) != "" && TrimLeft(pre)[0] != '#' && TrimLeft(pre)[0] != '['
    ensures KindOf(Normal, pre + "=" + post) == KeyLine(Unquote(pre), TrimSpace(post))
  {
    TrimAround(pre, '=', post);
    UnquoteTrims(pre);
    RightTwice(post);
    NotInTrimmed(pre, '=');
    KindIsOfText(pre + "=" + post);
    hide TrimLeft, TrimRight, TrimSpace, KindOf, KindOfText, Unquote;
    KeyText(TrimLeft(pre), TrimRight(post));
  }

  lemma {:induction false} QuotesLeft(s: string)
    requires TrimQuotesRight(TrimQuotesLeft(s)) == "enabled"
    ensures s != "" && (IsBareQuote(s[0]) || s[0] == 'e')
  {
    if s != "" && !IsBareQuote(s[0]) {
      QuotesRight(s);
    }
  }

  lemma {:induction false} QuotesRight(s: string)
    requires TrimQuotesRight(s) == "enabled"
    ensures s != "" && s[0] == 'e'
  {
    if s != "" && IsBareQuote(s[|s| - 1]) {
      QuotesRight(s[..|s| - 1]);
    }
  }

  lemma AnyKeyText(text: string)
    requires KindOfText(text).KeyLine?
    ensures var e := Find(text, '=');
            e < |text| && KindOfText(text) == KeyLine(Unquote(text[..e]), TrimSpace(text[e + 1..]))
  {
    hide Unquote, TrimSpace, IsHeader, BareKey, Find;
  }

  lemma EnabledText(text: string, value: string)
    requires KindOfText(text) == KeyLine("enabled", value)
    ensures var e := Find(text, '=');
            && e < |text| && Unquote(text[..e]) == "enabled" && value == TrimSpace(text[e + 1..])
  {
    hide *;
    AnyKeyText(text);
  }

  // What is before and after the = of a line that sets enabled.
  predicate SetsEnabled(pre: string, post: string, value: string) {
    && TrimLeft(pre) != "" && TrimLeft(pre)[0] != '#' && TrimLeft(pre)[0] != '['
    && Unquote(pre) == "enabled" && value == TrimSpace(post)
  }

  lemma ShapeOf(a: string, text: string, e: nat, b: string, value: string)
    requires AllSpace(a) && AllSpace(b) && e < |text| && !IsSpace(text[0])
    requires Unquote(text[..e]) == "enabled" && value == TrimSpace(text[e + 1..])
    ensures SetsEnabled(a + text[..e], text[e + 1..] + b, value)
  {
    var key, after := text[..e], text[e + 1..];
    assert key != "" ==> key[0] == text[0];
    hide TrimLeft, Unquote, TrimSpace, IsSpace, AllSpace;
    KeyIsTrimmed(a, key);
    AfterIsTrimmed(after, b);
  }

  // The parts of a line that sets enabled.
  lemma EnabledParts(line: string, value: string)
    requires KindOf(Normal, line) == KeyLine("enabled", value)
    ensures Find(line, '=') < |line| && SetsEnabled(line[..Find(line, '=')], line[Find(line, '=') + 1..], value)
  {
    hide *;
    var text := TrimSpace(line);
    KindIsOfText(line);
    EnabledText(text, value);
    var a, b := TrimShape(line);
    InLine(line, a, text, b, Find(text, '='));
    ShapeOf(a, text, Find(text, '='), b, value);
  }

  lemma InLine(line: string, a: string, text: string, b: string, e: nat)
    requires line == a + text + b && AllSpace(a) && e == Find(text, '=') < |text|
    ensures Find(line, '=') == |a| + e && |a| + e < |line|
    ensures line[..|a| + e] == a + text[..e] && line[|a| + e + 1..] == text[e + 1..] + b
  {
    NoSpace();
    SpacesHaveNo(a, '=');
    hide *;
    FindPast(a, text, b, e);
    Slices(a, text, b, e);
  }

  lemma Slices(a: string, text: string, b: string, e: nat)
    requires e < |text|
    ensures (a + text + b)[..|a| + e] == a + text[..e] && (a + text + b)[|a| + e + 1..] == text[e + 1..] + b
  {
  }

  lemma EnabledSet(pre: string, post: string, value: string)
    requires SetsEnabled(pre, post, value)
    ensures TrimLeft(pre) != "" && TrimLeft(pre)[0] != '#' && TrimLeft(pre)[0] != '['
    ensures Unquote(pre) == "enabled" && value == TrimSpace(post)
  {
  }

  lemma NoSpace()
    ensures !IsSpace('=')
  {
  }

  lemma KindIsOfText(line: string)
    ensures KindOf(Normal, line) == KindOfText(TrimSpace(line))
  {
  }

  lemma SpacesHaveNo(a: string, c: char)
    requires AllSpace(a) && !IsSpace(c)
    ensures forall i :: 0 <= i < |a| ==> a[i] != c
  {
  }

  lemma FindPast(a: string, text: string, b: string, e: nat)
    requires (forall i :: 0 <= i < |a| ==> a[i] != '=') && e == Find(text, '=') < |text|
    ensures Find(a + text + b, '=') == |a| + e
  {
    assert a + text + b == (a + text[..e]) + ['='] + (text[e + 1..] + b);
    FindAfter(a + text[..e], '=', text[e + 1..] + b);
  }

  lemma KeyIsTrimmed(a: string, key: string)
    requires AllSpace(a) && Unquote(key) == "enabled" && (key == "" || !IsSpace(key[0]))
    ensures TrimLeft(a + key) == key && key != "" && key[0] != '#' && key[0] != '['
    ensures Unquote(a + key) == "enabled"
  {
    TrimLeftOf(a, key);
    LeftTwice(a + key);
    var s := TrimSpace(key);
    QuotesLeft(s);
    if key != "" {
      KeyBegins(key);
    }
    hide TrimLeft, TrimRight, IsSpace;
  }

  lemma KeyBegins(key: string)
    requires key != "" && !IsSpace(key[0])
    ensures TrimSpace(key) != "" && TrimSpace(key)[0] == key[0]
  {
    var b := TrimRightShape(key);
    assert TrimLeft(key) == key;
    assert TrimRight(key) == "" ==> key == b;
  }

  lemma AfterIsTrimmed(after: string, b: string)
    requires AllSpace(b)
    ensures TrimSpace(after + b) == TrimSpace(after)
  {
    var x, y := TrimShape(after);
    hide TrimSpace, IsSpace;
    assert AllSpace(y + b);
    assert after + b == x + TrimSpace(after) + (y + b);
    TrimOf(x, TrimSpace(after), y + b);
  }

  // ---- A false put on a line ----

  // After the value's first word there is nothing but space and a comment.
  predicate TailIsBlank(line: string) { Find(line, '=') < |line| && IsBlank(Tail(line)[..Find(Tail(line), '#')]) }

  // The value a line has once its first word is false.
  function NewValue(line: string): string
    requires Find(line, '=') < |line|
  {
    TrimSpace(NewGap(line) + "false" + Tail(line))
  }

  // Text with a comment after it reads false as it does without the space
  // around it.
  lemma HashTrim(s: string)
    requires TrimSpace(s[..Find(s, '#')]) == "false"
    ensures IsFalse(TrimSpace(s))
  {
    var n := Find(s, '#');
    var head := s[..n];
    hide TrimSpace, IsSpace;
    var a, b := TrimShape(head);
    if n == |s| {
      assert head == s;
      FalseAlone();
    } else {
      var after := s[n + 1..];
      assert s == head + ['#'] + after;
      FalseBefore(head, after);
    }
  }

  lemma FalseAlone()
    ensures IsFalse("false")
  {
    NotFound("false", '#');
    assert "false"[..5] == "false";
    assert "" + "false" + "" == "false";
    TrimOf("", "false", "");
  }

  lemma FalseBefore(head: string, after: string)
    requires TrimSpace(head) == "false" && forall i :: 0 <= i < |head| ==> head[i] != '#'
    ensures IsFalse(TrimSpace(head + ['#'] + after))
  {
    assert TrimLeft(head) != "" by { TrimLeftNonempty(head); }
    TrimAround(head, '#', after);
    NotInTrimmed(head, '#');
    LeftTwice(head);
    hide TrimLeft, TrimRight, TrimSpace;
    FindAfter(TrimLeft(head), '#', TrimRight(after));
    assert (TrimLeft(head) + ['#'] + TrimRight(after))[..|TrimLeft(head)|] == TrimLeft(head);
  }

  lemma TrimLeftNonempty(s: string)
    requires TrimSpace(s) != ""
    ensures TrimLeft(s) != ""
  {
  }

  lemma SpacesFalse(gap: string, blank: string)
    requires AllSpace(gap) && AllSpace(blank)
    ensures TrimSpace(gap + "false" + blank) == "false"
  {
    TrimOf(gap, "false", blank);
  }

  // The value part of the new line is false.
  lemma NewValueIsFalse(gap: string, tail: string)
    requires AllSpace(gap) && IsBlank(tail[..Find(tail, '#')])
    ensures IsFalse(TrimSpace(gap + "false" + tail))
  {
    var n := Find(tail, '#');
    var blank := tail[..n];
    var x, y := TrimShape(blank);
    var s := gap + "false" + tail;
    assert AllSpace(blank);
    assert forall i :: 0 <= i < |gap| ==> gap[i] != '#';
    hide TrimSpace, IsSpace, IsBlank, IsFalse;
    HashAfter(gap, tail);
    SpacesFalse(gap, blank);
    HashTrim(s);
  }

  lemma HashAfter(gap: string, tail: string)
    requires forall i :: 0 <= i < |gap| ==> gap[i] != '#'
    ensures var s := gap + "false" + tail;
            s[..Find(s, '#')] == gap + "false" + tail[..Find(tail, '#')]
  {
    var n := Find(tail, '#');
    var s := gap + "false" + tail;
    if n == |tail| {
      NotFound(s, '#');
    } else {
      var head := gap + "false" + tail[..n];
      assert s == head + ['#'] + tail[n + 1..];
      FindAfter(head, '#', tail[n + 1..]);
    }
  }

  lemma Regroup5(line: string, eq: nat, g: string, v: string, t: string)
    requires eq < |line| && line[eq] == '='
    ensures line[..eq + 1] + g + v + t == line[..eq] + "=" + (g + v + t)
  {
    assert line[..eq + 1] == line[..eq] + "=";
  }

  lemma GapIsSpace(line: string)
    requires Find(line, '=') < |line|
    ensures AllSpace(NewGap(line))
  {
    hide Find;
  }

  lemma SetIs(line: string)
    requires Find(line, '=') < |line|
    ensures SetTomlValue(line, "false") == line[..Find(line, '=')] + "=" + (NewGap(line) + "false" + Tail(line))
  {
    hide Find, GapRun, WordRun, Rest, Word, Tail, NewGap;
    Regroup5(line, Find(line, '='), NewGap(line), "false", Tail(line));
  }

  // A comment is cut off a text the same with the space around it as without.
  lemma CutTrimmed(s: string)
    ensures TrimSpace(s[..Find(s, '#')]) == TrimSpace(TrimSpace(s)[..Find(TrimSpace(s), '#')])
  {
    var a, b := TrimShape(s);
    var v := TrimSpace(s);
    var k := Find(v, '#');
    SpacesHaveNo(a, '#');
    SpacesHaveNo(b, '#');
    hide TrimSpace, IsSpace;
    if k < |v| {
      FindAfter(a + v[..k], '#', v[k + 1..] + b);
      assert s == a + v[..k] + ['#'] + (v[k + 1..] + b);
      assert s[..Find(s, '#')] == a + v[..k] + "";
      TrimInside(a, v[..k], "");
    } else {
      NotFound(s, '#');
      assert s[..Find(s, '#')] == a + v + b && v[..k] == v;
      TrimInside(a, v, b);
    }
  }

  lemma TrimInside(a: string, s: string, b: string)
    requires AllSpace(a) && AllSpace(b)
    ensures TrimSpace(a + s + b) == TrimSpace(s)
  {
    var x, y := TrimShape(s);
    var t := TrimSpace(s);
    hide TrimSpace, IsSpace;
    assert AllSpace(a + x) && AllSpace(y + b);
    assert a + s + b == (a + x) + t + (y + b);
    TrimOf(a + x, t, y + b);
  }

  lemma BlankAfterFalse(gap: string, rest: string)
    requires AllSpace(gap) && TrimSpace(gap + "false" + rest) == "false"
    ensures IsBlank(rest)
  {
    assert !IsSpace("false"[0]);
    assert ("false" + rest)[0] == 'f';
    TrimLeftOf(gap, "false" + rest);
    assert gap + "false" + rest == gap + ("false" + rest);
    var b := TrimRightShape("false" + rest);
    assert rest == ("false" + rest)[5..] == b;
    hide TrimLeft, TrimRight, IsSpace;
    TrimOf("", "", rest);
    assert "" + "" + rest == rest;
  }

  lemma NewValueFalseIff(gap: string, tail: string)
    requires AllSpace(gap)
    ensures IsFalse(TrimSpace(gap + "false" + tail)) <==> IsBlank(tail[..Find(tail, '#')])
  {
    if IsBlank(tail[..Find(tail, '#')]) {
      NewValueIsFalse(gap, tail);
    } else if IsFalse(TrimSpace(gap + "false" + tail)) {
      SpacesHaveNo(gap, '#') by { assert !IsSpace('#'); }
      HashAfter(gap, tail);
      CutTrimmed(gap + "false" + tail);
      hide TrimSpace, IsSpace, IsBlank;
      BlankAfterFalse(gap, tail[..Find(tail, '#')]);
      assert false;
    }
  }

  // The line that is put there sets the same key, to false exactly when what
  // follows the first word of its value is blank.
  lemma NewLineSays(line: string, value: string)
    requires KindOf(Normal, line) == KeyLine("enabled", value)
    ensures Find(line, '=') < |line| && KindOf(Normal, SetTomlValue(line, "false")) == KeyLine("enabled", NewValue(line))
    ensures IsFalse(NewValue(line)) <==> TailIsBlank(line)
  {
    hide *;
    EnabledParts(line, value);
    EnabledSet(line[..Find(line, '=')], line[Find(line, '=') + 1..], value);
    SetIs(line);
    GapIsSpace(line);
    NewValueIs(line);
    NewValueFalseIff(NewGap(line), Tail(line));
    KeyLineKind(line[..Find(line, '=')], NewGap(line) + "false" + Tail(line));
  }

  lemma NewValueIs(line: string)
    requires Find(line, '=') < |line|
    ensures NewValue(line) == TrimSpace(NewGap(line) + "false" + Tail(line))
    ensures TailIsBlank(line) <==> IsBlank(Tail(line)[..Find(Tail(line), '#')])
  {
    hide Find, TrimSpace, NewGap, Tail;
  }

}
