// The texts of JSON values, as the standard decoder's scanner bounds them
// (objects and strings, sections 4 and 7 of RFC 8259), and a name's printing as
// a string (internal/skills/claudesync.go jsonString).
module JsonScan {
  import opened Prelude
  import Text

  predicate IsSpace(c: char) { c == ' ' || c == '\t' || c == '\r' || c == '\n' }

  predicate IsDigit(c: char) { '0' <= c <= '9' }

  predicate IsHex(c: char) { IsDigit(c) || 'a' <= c <= 'f' || 'A' <= c <= 'F' }

  // ---- The scanner, a character at a time ----

  datatype Context = InKey | InValue | InArray

  datatype Step =
    | BeginValue
    | BeginValueOrEmpty
    | BeginString
    | BeginStringOrEmpty
    | EndValue
    | InString
    | InEscape
      // Hexadecimal digits of an escape to come.
    | InCode(left: nat)
    | Minus
    | Zero
    | Whole
    | Point
    | Fraction
    | Exponent
    | ExponentSign
    | ExponentDigits
      // Letters of true, false or null to come.
    | InWord(letters: string)
    | Failed

  datatype Machine = Machine(step: Step, stack: seq<Context>)

  const BEGIN := Machine(BeginValue, [])

  function Fail(m: Machine): Machine { m.(step := Failed) }

  function OnBeginValue(m: Machine, c: char): Machine {
    if IsSpace(c) then m
    else
      match c
      case '{' => Machine(BeginStringOrEmpty, m.stack + [InKey])
      case '[' => Machine(BeginValueOrEmpty, m.stack + [InArray])
      case '"' => m.(step := InString)
      case '-' => m.(step := Minus)
      case '0' => m.(step := Zero)
      case 't' => m.(step := InWord("rue"))
      case 'f' => m.(step := InWord("alse"))
      case 'n' => m.(step := InWord("ull"))
      case _ => if '1' <= c <= '9' then m.(step := Whole) else Fail(m)
  }

  function Pop(m: Machine): Machine
    requires m.stack != []
  {
    Machine(EndValue, m.stack[..|m.stack| - 1])
  }

  function OnEndValue(m: Machine, c: char): Machine {
    if m.stack == [] then Fail(m)
    else if IsSpace(c) then m.(step := EndValue)
    else
      var n := |m.stack| - 1;
      match m.stack[n]
      case InKey => if c == ':' then Machine(BeginValue, m.stack[..n] + [InValue]) else Fail(m)
      case InValue =>
        if c == ',' then Machine(BeginString, m.stack[..n] + [InKey]) else if c == '}' then Pop(m) else Fail(m)
      case InArray =>
        if c == ',' then m.(step := BeginValue) else if c == ']' then Pop(m) else Fail(m)
  }

  function OnChar(m: Machine, c: char): Machine {
    match m.step
    case BeginValue => OnBeginValue(m, c)
    case BeginValueOrEmpty =>
      if IsSpace(c) then m else if c == ']' && m.stack != [] then Pop(m) else OnBeginValue(m.(step := BeginValue), c)
    case BeginString => if IsSpace(c) then m else if c == '"' then m.(step := InString) else Fail(m)
    case BeginStringOrEmpty =>
      if IsSpace(c) then m
      else if c == '}' && m.stack != [] then Pop(m)
      else if c == '"' then m.(step := InString) else Fail(m)
    case EndValue => OnEndValue(m, c)
    case InString =>
      if c == '"' then m.(step := EndValue) else if c == '\\' then m.(step := InEscape) else if c < ' ' then Fail(m) else m
    case InEscape =>
      if c in "bfnrt\\/\"" then m.(step := InString) else if c == 'u' then m.(step := InCode(4)) else Fail(m)
    case InCode(left) =>
      if !IsHex(c) then Fail(m) else if left <= 1 then m.(step := InString) else m.(step := InCode(left - 1))
    case Minus => if c == '0' then m.(step := Zero) else if '1' <= c <= '9' then m.(step := Whole) else Fail(m)
    case Zero => OnFraction(m, c)
    case Whole => if IsDigit(c) then m else OnFraction(m, c)
    case Point => if IsDigit(c) then m.(step := Fraction) else Fail(m)
    case Fraction => if IsDigit(c) then m else OnExponent(m, c)
    case Exponent =>
      if c == '+' || c == '-' then m.(step := ExponentSign) else if IsDigit(c) then m.(step := ExponentDigits) else Fail(m)
    case ExponentSign => if IsDigit(c) then m.(step := ExponentDigits) else Fail(m)
    case ExponentDigits => if IsDigit(c) then m else OnEndValue(m, c)
    case InWord(letters) =>
      if letters == "" || c != letters[0] then Fail(m)
      else if |letters| == 1 then m.(step := EndValue) else m.(step := InWord(letters[1..]))
    case Failed => m
  }

  function OnFraction(m: Machine, c: char): Machine { if c == '.' then m.(step := Point) else OnExponent(m, c) }

  function OnExponent(m: Machine, c: char): Machine {
    if c == 'e' || c == 'E' then m.(step := Exponent) else OnEndValue(m, c)
  }

  // ---- Where a value ends ----

  predicate IsDone(m: Machine) { m.step == EndValue && m.stack == [] }

  // A number that may end here, if what comes next does not go on with it.
  predicate MayEnd(m: Machine) {
    m.stack == [] && (m.step.Zero? || m.step.Whole? || m.step.Fraction? || m.step.ExponentDigits?)
  }

  predicate GoesOn(c: char) { IsDigit(c) || c == '.' || c == 'e' || c == 'E' || c == '+' || c == '-' }

  // How much of s the value takes.
  function Scan(m: Machine, s: string): (n: Option<nat>)
    ensures n.Some? ==> n.value <= |s|
    decreases |s|
  {
    if IsDone(m) then Some(0)
    else if m.step.Failed? || s == "" then None
    else if MayEnd(m) && !GoesOn(s[0]) then Some(0)
    else
      var rest := Scan(OnChar(m, s[0]), s[1..]);
      if rest.None? then None else Some(rest.value + 1)
  }

  // The text of one value, and nothing else.
  predicate IsValue(v: string) { v != "" && !IsSpace(v[0]) && Scan(BEGIN, v + "}") == Some(|v|) }

  predicate IsString(v: string) { IsValue(v) && v[0] == '"' }

  // A value ends where it does whatever comes after it, but for what would go
  // on with a number.
  lemma {:induction false} ScanLocal(m: Machine, v: string, f: string, g: string)
    requires Scan(m, v + f) == Some(|v|) && g != "" && !GoesOn(g[0])
    ensures Scan(m, v + g) == Some(|v|)
    decreases |v|
  {
    hide OnChar, GoesOn;
    if v == "" {
      assert v + f == f && v + g == g;
    } else {
      assert (v + f)[1..] == v[1..] + f && (v + g)[1..] == v[1..] + g;
      ScanLocal(OnChar(m, v[0]), v[1..], f, g);
    }
  }

  lemma ValueScans(v: string, g: string)
    requires IsValue(v) && g != "" && !GoesOn(g[0])
    ensures Scan(BEGIN, v + g) == Some(|v|)
  {
    ScanLocal(BEGIN, v, "}", g);
  }

  lemma ScansValue(s: string, n: nat)
    requires s != "" && !IsSpace(s[0]) && Scan(BEGIN, s) == Some(n)
    ensures IsValue(s[..n])
  {
    assert s == s[..n] + s[n..];
    assert !GoesOn('}');
    ScanLocal(BEGIN, s[..n], s[n..], "}");
    hide OnChar, GoesOn;
    assert n != 0;
  }

  // ---- Names ----

  function HexValue(c: char): (d: nat)
    requires IsHex(c)
    ensures d < 16
  {
    if IsDigit(c) then (c - '0') as int else if 'a' <= c <= 'f' then (c - 'a') as int + 10 else (c - 'A') as int + 10
  }

  function Code(n: nat): string
    requires n < 0x10000
  {
    ['\\', 'u', Text.HexDigit(n / 0x1000), Text.HexDigit(n / 0x100 % 16), Text.HexDigit(n / 16 % 16), Text.HexDigit(n % 16)]
  }

  function PrintChar(c: char): string {
    if c == '"' || c == '\\' then ['\\', c]
    else if c == '\U{08}' then "\\b"
    else if c == '\U{0C}' then "\\f"
    else if c == '\n' then "\\n"
    else if c == '\r' then "\\r"
    else if c == '\t' then "\\t"
    else if c < ' ' || c == '<' || c == '>' || c == '&' || c == '\U{2028}' || c == '\U{2029}' then Code(c as int)
    else [c]
  }

  function PrintBody(s: string): string { if s == "" then "" else PrintChar(s[0]) + PrintBody(s[1..]) }

  function JsonString(s: string): string { "\"" + PrintBody(s) + "\"" }

  // The code of four hexadecimal digits.
  function CodeValue(s: string): (n: nat)
    requires |s| >= 4 && forall i :: 0 <= i < 4 ==> IsHex(s[i])
    ensures n < 0x10000
  {
    HexValue(s[0]) * 0x1000 + HexValue(s[1]) * 0x100 + HexValue(s[2]) * 16 + HexValue(s[3])
  }

  predicate IsCode(s: string) { |s| >= 6 && s[0] == '\\' && s[1] == 'u' && forall i :: 2 <= i < 6 ==> IsHex(s[i]) }

  const REPLACEMENT := '\U{FFFD}'

  // What an escape of a code stands for, and how much of the text it takes: two
  // surrogates are one character, and one on its own none.
  function TakeCode(s: string): (char, nat)
    requires IsCode(s)
  {
    var n := CodeValue(s[2..]);
    if !(0xD800 <= n < 0xE000) then (n as char, 6)
    else if n < 0xDC00 && IsCode(s[6..]) && 0xDC00 <= CodeValue(s[8..]) < 0xE000 then
      ((0x10000 + (n - 0xD800) * 0x400 + (CodeValue(s[8..]) - 0xDC00)) as char, 12)
    else (REPLACEMENT, 6)
  }

  function OfLetter(c: char): char {
    match c
    case 'b' => '\U{08}'
    case 'f' => '\U{0C}'
    case 'n' => '\n'
    case 'r' => '\r'
    case 't' => '\t'
    case _ => c
  }

  // The name a string's body stands for, up to its closing quote.
  function NameOfBody(s: string): string
    decreases |s|
  {
    if s == "" || s[0] == '"' then ""
    else if s[0] != '\\' || |s| == 1 then [s[0]] + NameOfBody(s[1..])
    else if IsCode(s) then
      var (c, n) := TakeCode(s);
      [c] + NameOfBody(s[n..])
    else [OfLetter(s[1])] + NameOfBody(s[2..])
  }

  function NameOf(v: string): string { if v == "" then "" else NameOfBody(v[1..]) }

  lemma HexRoundTrip(d: nat)
    requires d < 16
    ensures IsHex(Text.HexDigit(d)) && HexValue(Text.HexDigit(d)) == d
  {
  }

  lemma CodeRoundTrip(n: nat, rest: string)
    requires n < 0xD800 || 0xE000 <= n < 0x10000
    ensures IsCode(Code(n) + rest) && TakeCode(Code(n) + rest) == (n as char, 6)
  {
    HexRoundTrip(n / 0x1000);
    HexRoundTrip(n / 0x100 % 16);
    HexRoundTrip(n / 16 % 16);
    HexRoundTrip(n % 16);
    var s := Code(n) + rest;
    hide IsHex, Text.HexDigit, HexValue;
    assert CodeValue(s[2..]) == n / 0x1000 * 0x1000 + n / 0x100 % 16 * 0x100 + n / 16 % 16 * 16 + n % 16;
    Digits(n);
  }

  lemma Digits(n: nat)
    ensures n / 0x1000 * 0x1000 + n / 0x100 % 16 * 0x100 + n / 16 % 16 * 16 + n % 16 == n
  {
    assert n / 0x1000 == n / 0x100 / 16 && n / 0x100 == n / 16 / 16;
  }

  lemma PrintedReads(c: char, rest: string)
    ensures var s := PrintChar(c) + rest;
            NameOfBody(s) == [c] + NameOfBody(rest)
  {
    var s := PrintChar(c) + rest;
    var n := c as int;
    if c == '"' || c == '\\' || c == '\U{08}' || c == '\U{0C}' || c == '\n' || c == '\r' || c == '\t' {
      hide IsHex, TakeCode;
      assert s[2..] == rest && s[1] != 'u';
    } else if c < ' ' || c == '<' || c == '>' || c == '&' || c == '\U{2028}' || c == '\U{2029}' {
      CodeRoundTrip(n, rest);
      hide IsCode, TakeCode, Code;
      assert s == Code(n) + rest;
      CodeLength(n);
      assert s[6..] == rest;
    } else {
      hide IsCode, TakeCode, Code;
      assert s[1..] == rest;
    }
  }

  lemma CodeLength(n: nat)
    requires n < 0x10000
    ensures |Code(n)| == 6 && Code(n)[0] == '\\'
  {
  }

  lemma {:induction false} NameReads(s: string)
    ensures NameOfBody(PrintBody(s) + "\"") == s
  {
    if s != "" {
      NameReads(s[1..]);
      PrintedReads(s[0], PrintBody(s[1..]) + "\"");
      hide PrintChar, NameOfBody;
      assert PrintBody(s) + "\"" == PrintChar(s[0]) + (PrintBody(s[1..]) + "\"");
      assert [s[0]] + s[1..] == s;
    }
  }

  // Printing a name and reading the string gives the name.
  lemma NameRoundTrip(s: string)
    ensures NameOf(JsonString(s)) == s
  {
    NameReads(s);
    hide NameOfBody, PrintBody;
    assert JsonString(s)[1..] == PrintBody(s) + "\"";
  }

  const INSIDE := Machine(InString, [])

  function Shift(n: Option<nat>, more: nat): Option<nat> { if n.None? then None else Some(n.value + more) }

  // A character a value takes wherever it is.
  lemma OneChar(m: Machine, c: char, rest: string)
    requires !IsDone(m) && !m.step.Failed? && !MayEnd(m)
    ensures Scan(m, [c] + rest) == Shift(Scan(OnChar(m, c), rest), 1)
  {
    hide OnChar;
    assert ([c] + rest)[1..] == rest;
  }

  lemma ShiftTwice(n: Option<nat>, a: nat, b: nat)
    ensures Shift(Shift(n, a), b) == Shift(n, a + b)
  {
  }

  lemma DigitScans(left: nat, c: char, rest: string)
    requires 1 <= left && IsHex(c)
    ensures Scan(Machine(InCode(left), []), [c] + rest) ==
            Shift(Scan(if left == 1 then INSIDE else Machine(InCode(left - 1), []), rest), 1)
  {
    OneChar(Machine(InCode(left), []), c, rest);
  }

  lemma DigitsScan(a: char, b: char, c: char, d: char, rest: string)
    requires IsHex(a) && IsHex(b) && IsHex(c) && IsHex(d)
    ensures Scan(Machine(InCode(4), []), [a] + ([b] + ([c] + ([d] + rest)))) == Shift(Scan(INSIDE, rest), 4)
  {
    hide *;
    DigitScans(1, d, rest);
    DigitScans(2, c, [d] + rest);
    DigitScans(3, b, [c] + ([d] + rest));
    DigitScans(4, a, [b] + ([c] + ([d] + rest)));
    var n := Scan(INSIDE, rest);
    ShiftTwice(n, 1, 1);
    ShiftTwice(n, 2, 1);
    ShiftTwice(n, 3, 1);
  }

  lemma EscapeScans(c: char, rest: string)
    ensures Scan(INSIDE, ['\\'] + ([c] + rest)) == Shift(Scan(OnChar(Machine(InEscape, []), c), rest), 2)
  {
    OneChar(INSIDE, '\\', [c] + rest);
    assert OnChar(INSIDE, '\\') == Machine(InEscape, []);
    OneChar(Machine(InEscape, []), c, rest);
    hide OnChar, Scan;
    ShiftTwice(Scan(OnChar(Machine(InEscape, []), c), rest), 1, 1);
  }

  lemma CodeParts(n: nat, rest: string)
    requires n < 0x10000
    ensures Code(n) + rest ==
            ['\\'] + (['u'] + ([Text.HexDigit(n / 0x1000)] +
                             ([Text.HexDigit(n / 0x100 % 16)] + ([Text.HexDigit(n / 16 % 16)] + ([Text.HexDigit(n % 16)] + rest)))))
  {
    hide Text.HexDigit;
  }

  lemma CodeScans(n: nat, rest: string)
    requires n < 0x10000
    ensures Scan(INSIDE, Code(n) + rest) == Shift(Scan(INSIDE, rest), 6)
  {
    HexRoundTrip(n / 0x1000);
    HexRoundTrip(n / 0x100 % 16);
    HexRoundTrip(n / 16 % 16);
    HexRoundTrip(n % 16);
    CodeParts(n, rest);
    UBegins();
    hide *;
    var a, b, c, d := Text.HexDigit(n / 0x1000), Text.HexDigit(n / 0x100 % 16), Text.HexDigit(n / 16 % 16), Text.HexDigit(n % 16);
    DigitsScan(a, b, c, d, rest);
    EscapeScans('u', [a] + ([b] + ([c] + ([d] + rest))));
    ShiftTwice(Scan(INSIDE, rest), 4, 2);
  }

  lemma UBegins()
    ensures OnChar(Machine(InEscape, []), 'u') == Machine(InCode(4), [])
  {
  }

  lemma LetterScans(c: char, rest: string)
    requires c in "bfnrt\\/\""
    ensures Scan(INSIDE, ['\\', c] + rest) == Shift(Scan(INSIDE, rest), 2)
  {
    EscapeScans(c, rest);
    assert OnChar(Machine(InEscape, []), c) == INSIDE;
    hide OnChar, Scan;
    assert ['\\', c] + rest == ['\\'] + ([c] + rest);
  }

  lemma PlainScans(c: char, rest: string)
    requires c != '"' && c != '\\' && c >= ' '
    ensures Scan(INSIDE, [c] + rest) == Shift(Scan(INSIDE, rest), 1)
  {
    OneChar(INSIDE, c, rest);
  }

  lemma CharScans(c: char, rest: string)
    ensures Scan(INSIDE, PrintChar(c) + rest) == Shift(Scan(INSIDE, rest), |PrintChar(c)|)
  {
    hide Scan, OnChar, Shift, Code;
    if c == '"' || c == '\\' || c == '\U{08}' || c == '\U{0C}' || c == '\n' || c == '\r' || c == '\t' {
      LetterScans(PrintChar(c)[1], rest);
    } else if c < ' ' || c == '<' || c == '>' || c == '&' || c == '\U{2028}' || c == '\U{2029}' {
      CodeScans(c as int, rest);
      CodeLength(c as int);
    } else {
      PlainScans(c, rest);
    }
  }

  lemma QuoteEnds(rest: string)
    ensures Scan(INSIDE, "\"" + rest) == Some(1)
  {
    OneChar(INSIDE, '"', rest);
  }

  lemma {:induction false} BodyScans(s: string, rest: string)
    ensures Scan(INSIDE, PrintBody(s) + "\"" + rest) == Some(|PrintBody(s)| + 1)
  {
    hide PrintChar, Scan;
    if s == "" {
      QuoteEnds(rest);
      assert PrintBody(s) + "\"" + rest == "\"" + rest;
    } else {
      BodyScans(s[1..], rest);
      CharScans(s[0], PrintBody(s[1..]) + "\"" + rest);
      assert PrintBody(s) + "\"" + rest == PrintChar(s[0]) + (PrintBody(s[1..]) + "\"" + rest);
    }
  }

  // A printed name is a string.
  lemma JsonStringOk(s: string)
    ensures IsString(JsonString(s))
  {
    BodyScans(s, "}");
    hide PrintBody;
    var v := JsonString(s) + "}";
    assert v[1..] == PrintBody(s) + "\"" + "}";
    assert OnChar(BEGIN, '"') == INSIDE;
  }
}
