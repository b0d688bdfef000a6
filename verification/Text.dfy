// The string operations of the source's standard library that the parsers and
// editors use. A string is a sequence of characters; offsets count characters.
module Text {
  import opened Prelude

  // White space as strings.TrimSpace understands it.
  predicate IsSpace(c: char) {
    c == ' ' || ('\t' <= c <= '\r') || c == '\U{0085}' || c == '\U{00A0}' || c == '\U{1680}' ||
    ('\U{2000}' <= c <= '\U{200A}') || c == '\U{2028}' || c == '\U{2029}' || c == '\U{202F}' || c == '\U{205F}' ||
    c == '\U{3000}'
  }

  function TrimLeft(s: string): string {
    if s != "" && IsSpace(s[0]) then TrimLeft(s[1..]) else s
  }

  function TrimRight(s: string): string {
    if s != "" && IsSpace(s[|s| - 1]) then TrimRight(s[..|s| - 1]) else s
  }

  function TrimSpace(s: string): string { TrimRight(TrimLeft(s)) }

  // The index of the first c in s, or |s|.
  function Find(s: string, c: char): (i: nat)
    ensures i <= |s| && (i < |s| ==> s[i] == c)
    ensures forall k :: 0 <= k < i ==> s[k] != c
  {
    if s == "" || s[0] == c then 0 else 1 + Find(s[1..], c)
  }

  lemma {:induction false} FindAfter(a: string, c: char, rest: string)
    requires forall i :: 0 <= i < |a| ==> a[i] != c
    ensures Find(a + [c] + rest, c) == |a|
  {
    if a != "" {
      FindAfter(a[1..], c, rest);
      assert (a + [c] + rest)[1..] == a[1..] + [c] + rest;
    }
  }

  lemma NotFound(s: string, c: char)
    requires forall i :: 0 <= i < |s| ==> s[i] != c
    ensures Find(s, c) == |s|
  {
  }

  predicate IsIn(c: char, cut: string) { c in cut }

  function TrimEnd(s: string, cut: string): string {
    if s != "" && IsIn(s[|s| - 1], cut) then TrimEnd(s[..|s| - 1], cut) else s
  }

  function TrimStart(s: string, cut: string): (r: string)
    ensures |r| <= |s|
  {
    if s != "" && IsIn(s[0], cut) then TrimStart(s[1..], cut) else s
  }

  function HexDigit(d: nat): char
    requires d < 16
  {
    if d < 10 then '0' + d as char else 'a' + (d - 10) as char
  }

  // ---- Trimming ----

  predicate AllSpace(s: string) { forall i :: 0 <= i < |s| ==> IsSpace(s[i]) }

  // What trimming takes off is space.
  lemma {:induction false} TrimLeftShape(s: string) returns (a: string)
    ensures s == a + TrimLeft(s) && AllSpace(a)
    ensures TrimLeft(s) != "" ==> !IsSpace(TrimLeft(s)[0])
  {
    hide IsSpace;
    a := "";
    if s != "" && IsSpace(s[0]) {
      a := TrimLeftShape(s[1..]);
      assert s == [s[0]] + (a + TrimLeft(s[1..]));
      a := [s[0]] + a;
    }
  }

  lemma {:induction false} TrimRightShape(s: string) returns (b: string)
    ensures s == TrimRight(s) + b && AllSpace(b)
    ensures TrimRight(s) != "" ==> !IsSpace(TrimRight(s)[|TrimRight(s)| - 1])
    ensures TrimRight(s) != "" ==> s != "" && TrimRight(s)[0] == s[0]
  {
    hide IsSpace;
    b := "";
    if s != "" && IsSpace(s[|s| - 1]) {
      var n := |s| - 1;
      b := TrimRightShape(s[..n]);
      assert s == TrimRight(s[..n]) + b + [s[n]];
      b := b + [s[n]];
    }
  }

  lemma TrimShape(s: string) returns (a: string, b: string)
    ensures s == a + TrimSpace(s) + b && AllSpace(a) && AllSpace(b)
    ensures var r := TrimSpace(s);
            r != "" ==> !IsSpace(r[0]) && !IsSpace(r[|r| - 1])
  {
    hide IsSpace, AllSpace, TrimLeft, TrimRight;
    a := TrimLeftShape(s);
    b := TrimRightShape(TrimLeft(s));
    assert a + (TrimSpace(s) + b) == a + TrimSpace(s) + b;
  }

  lemma {:induction false} TrimLeftOf(a: string, s: string)
    requires AllSpace(a)
    requires s == "" || !IsSpace(s[0])
    ensures TrimLeft(a + s) == s
  {
    if a == "" {
      assert a + s == s;
    } else {
      TrimLeftOf(a[1..], s);
      assert (a + s)[1..] == a[1..] + s;
    }
  }

  lemma {:induction false} TrimRightOf(s: string, b: string)
    requires AllSpace(b)
    requires s == "" || !IsSpace(s[|s| - 1])
    ensures TrimRight(s + b) == s
  {
    if b == "" {
      assert s + b == s;
    } else {
      TrimRightOf(s, b[..|b| - 1]);
      assert (s + b)[..|s + b| - 1] == s + b[..|b| - 1];
    }
  }

  lemma TrimOf(a: string, s: string, b: string)
    requires AllSpace(a) && AllSpace(b)
    requires s != "" ==> !IsSpace(s[0]) && !IsSpace(s[|s| - 1])
    ensures TrimSpace(a + s + b) == s
  {
    if s == "" {
      TrimLeftOf(a + b, "");
      assert a + s + b == a + b + "";
    } else {
      TrimLeftOf(a, s + b);
      TrimRightOf(s, b);
      assert a + s + b == a + (s + b);
    }
  }
}
