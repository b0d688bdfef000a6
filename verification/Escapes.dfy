// The escaping of strconv.Quote and strconv.Unquote, as the frontmatter printer
// and parser use them (internal/skills/frontmatter.go). A string is a sequence
// of Unicode scalar values.
module Escapes {
  import opened Prelude
  import opened Text

  // Whether a character past ASCII is printable is a table of the library.
  predicate IsPrint(c: char, table: char -> bool) {
    if c < '\U{80}' then ' ' <= c <= '~' else table(c)
  }

  function DigitValue(c: char): (d: Option<nat>)
    ensures d.Some? ==> d.value < 16
  {
    if '0' <= c <= '9' then Some((c - '0') as int)
    else if 'a' <= c <= 'f' then Some((c - 'a') as int + 10)
    else if 'A' <= c <= 'F' then Some((c - 'A') as int + 10)
    else None
  }

  // n in width digits.
  function Hex(n: nat, width: nat): (s: string)
    ensures |s| == width
  {
    if width == 0 then "" else Hex(n / 16, width - 1) + [HexDigit(n % 16)]
  }

  function HexValue(s: string): Option<nat> {
    if s == "" then Some(0)
    else
      var high, low := HexValue(s[..|s| - 1]), DigitValue(s[|s| - 1]);
      if high.None? || low.None? then None else Some(high.value * 16 + low.value)
  }

  function Power16(w: nat): nat { if w == 0 then 1 else 16 * Power16(w - 1) }

  lemma {:induction false} HexRoundTrip(n: nat, width: nat)
    requires n < Power16(width)
    ensures HexValue(Hex(n, width)) == Some(n)
  {
    if width > 0 {
      HexRoundTrip(n / 16, width - 1);
      var s := Hex(n, width);
      assert s[..width - 1] == Hex(n / 16, width - 1);
      assert DigitValue(HexDigit(n % 16)) == Some(n % 16);
    }
  }

  // The escapes of one letter, as the letter.
  function Letter(c: char): Option<char> {
    match c as int
    case 7 => Some('a')
    case 8 => Some('b')
    case 12 => Some('f')
    case 10 => Some('n')
    case 13 => Some('r')
    case 9 => Some('t')
    case 11 => Some('v')
    case _ => None
  }

  function OfLetter(l: char): Option<char> {
    match l
    case 'a' => Some(7 as char)
    case 'b' => Some(8 as char)
    case 'f' => Some(12 as char)
    case 'n' => Some(10 as char)
    case 'r' => Some(13 as char)
    case 't' => Some(9 as char)
    case 'v' => Some(11 as char)
    case '\\' => Some('\\')
    case '"' => Some('"')
    case _ => None
  }

  function QuoteChar(c: char, table: char -> bool): string {
    if c == '"' || c == '\\' then ['\\', c]
    else if IsPrint(c, table) then [c]
    else if Letter(c).Some? then ['\\', Letter(c).value]
    else if c < ' ' || c == '\U{7F}' then "\\x" + Hex(c as int, 2)
    else if c as int < 0x10000 then "\\u" + Hex(c as int, 4)
    else "\\U" + Hex(c as int, 8)
  }

  function QuoteBody(v: string, table: char -> bool): string {
    if v == "" then "" else QuoteChar(v[0], table) + QuoteBody(v[1..], table)
  }

  function Quote(v: string, table: char -> bool): string { "\"" + QuoteBody(v, table) + "\"" }

  predicate IsScalar(n: int) { 0 <= n < 0xD800 || 0xE000 <= n < 0x110000 }

  // A character and how much of the text it took.
  datatype Taken = Bad | Took(c: char, length: nat)

  // A code in hexadecimal, of which limit bounds what a character can be.
  function TakeHex(s: string, width: nat, limit: int): Taken {
    if |s| < 2 + width then Bad
    else
      var n := HexValue(s[2..2 + width]);
      if n.None? || n.value >= limit || !IsScalar(n.value) then Bad else Took(n.value as char, 2 + width)
  }

  predicate IsOctal(c: char) { '0' <= c <= '7' }

  function TakeOctal(s: string): Taken
    requires |s| >= 2 && IsOctal(s[1])
  {
    if |s| < 4 || !IsOctal(s[2]) || !IsOctal(s[3]) then Bad
    else
      var n := (s[1] - '0') as int * 64 + (s[2] - '0') as int * 8 + (s[3] - '0') as int;
      if n >= 0x80 then Bad else Took(n as char, 4)
  }

  // One character of a double-quoted text. A byte past ASCII on its own, which
  // \x and an octal escape can give, is no scalar value and is not modelled.
  function UnquoteChar(s: string): (t: Taken)
    requires s != "" && s[0] != '"'
    ensures t.Took? ==> 1 <= t.length <= |s|
  {
    if s[0] == '\n' then Bad
    else if s[0] != '\\' then Took(s[0], 1)
    else if |s| == 1 then Bad
    else if OfLetter(s[1]).Some? then Took(OfLetter(s[1]).value, 2)
    else if s[1] == 'x' then TakeHex(s, 2, 0x80)
    else if s[1] == 'u' then TakeHex(s, 4, 0x110000)
    else if s[1] == 'U' then TakeHex(s, 8, 0x110000)
    else if IsOctal(s[1]) then TakeOctal(s)
    else Bad
  }

  // The rest of a double-quoted text: its closing quote ends it.
  function UnquoteBody(s: string): Option<string> {
    if s == "" then None
    else if s[0] == '"' then (if |s| == 1 then Some("") else None)
    else
      var t := UnquoteChar(s);
      if t.Bad? then None
      else
        var rest := UnquoteBody(s[t.length..]);
        if rest.None? then None else Some([t.c] + rest.value)
  }

  function Unquote(s: string): Option<string> {
    if |s| < 2 || s[0] != '"' then None else UnquoteBody(s[1..])
  }

  // ---- Round trip ----

  lemma TakesHex(n: nat, width: nat, limit: int, head: string, rest: string)
    requires n < Power16(width) && n < limit && IsScalar(n) && |head| == 2
    ensures TakeHex(head + Hex(n, width) + rest, width, limit) == Took(n as char, 2 + width)
  {
    HexRoundTrip(n, width);
    var s := head + Hex(n, width) + rest;
    assert s[2..2 + width] == Hex(n, width);
  }

  lemma Powers()
    ensures Power16(2) == 0x100 && Power16(4) == 0x10000 && Power16(8) == 0x1_0000_0000
  {
    assert Power16(1) == 16;
    assert Power16(3) == 0x1000;
    assert Power16(5) == 0x10_0000;
    assert Power16(6) == 0x100_0000;
    assert Power16(7) == 0x1000_0000;
  }

  lemma LetterRoundTrip(c: char)
    ensures Letter(c).Some? ==> OfLetter(Letter(c).value) == Some(c) && c < ' '
  {
  }

  lemma CharRoundTrip(c: char, table: char -> bool, rest: string)
    ensures var q := QuoteChar(c, table);
            q != "" && q[0] != '"' && UnquoteChar(q + rest) == Took(c, |q|)
  {
    LetterRoundTrip(c);
    Powers();
    var n := c as int;
    hide Hex, HexValue, TakeHex, Power16, Letter;
    if c == '"' || c == '\\' {
    } else if IsPrint(c, table) {
    } else if Letter(c).Some? {
    } else if c < ' ' || c == '\U{7F}' {
      TakesHex(n, 2, 0x80, "\\x", rest);
    } else if n < 0x10000 {
      TakesHex(n, 4, 0x110000, "\\u", rest);
    } else {
      TakesHex(n, 8, 0x110000, "\\U", rest);
    }
  }

  lemma {:induction false} BodyRoundTrip(v: string, table: char -> bool)
    ensures UnquoteBody(QuoteBody(v, table) + "\"") == Some(v)
  {
    if v != "" {
      var q, rest := QuoteChar(v[0], table), QuoteBody(v[1..], table) + "\"";
      BodyRoundTrip(v[1..], table);
      CharRoundTrip(v[0], table, rest);
      hide QuoteChar, UnquoteChar;
      assert QuoteBody(v, table) + "\"" == q + rest;
      assert (q + rest)[|q|..] == rest;
      assert [v[0]] + v[1..] == v;
    }
  }

  // Every text, quoted, unquotes to itself.
  lemma QuoteRoundTrip(v: string, table: char -> bool)
    ensures Unquote(Quote(v, table)) == Some(v)
  {
    BodyRoundTrip(v, table);
    assert Quote(v, table)[1..] == QuoteBody(v, table) + "\"";
  }

  // Quoted text is one line.
  lemma {:induction false} HexIsInLine(n: nat, width: nat)
    ensures forall i :: 0 <= i < width ==> DigitValue(Hex(n, width)[i]).Some?
  {
    if width > 0 {
      HexIsInLine(n / 16, width - 1);
    }
  }

  lemma {:induction false} QuoteIsOneLine(v: string, table: char -> bool)
    ensures '\n' !in QuoteBody(v, table)
  {
    if v != "" {
      QuoteIsOneLine(v[1..], table);
      HexIsInLine(v[0] as int, 2);
      HexIsInLine(v[0] as int, 4);
      HexIsInLine(v[0] as int, 8);
      hide Hex;
      assert '\n' !in QuoteChar(v[0], table);
    }
  }
}
