// The Range header of a request for a clip (internal/server/tts_synth.go,
// parseByteRange; byte ranges, section 14.1.2 of RFC 9110).
module ByteRange {
  import opened Prelude
  import opened Text

  const MAX_INT64: int := 0x7fff_ffff_ffff_ffff

  datatype Range = NoRange | FromStart | Closed(first: int, last: int) | Other

  predicate IsDigit(c: char) { '0' <= c <= '9' }

  predicate AllDigits(s: string) { forall i :: 0 <= i < |s| ==> IsDigit(s[i]) }

  function Decimal(s: string): (n: nat)
    requires AllDigits(s)
  {
    if s == "" then 0 else Decimal(s[..|s| - 1]) * 10 + (s[|s| - 1] - '0') as int
  }

  // A number in base 10 that fits 64 bits, with a sign if it likes.
  function ParseInt(s: string): Option<int> {
    var negative := s != "" && s[0] == '-';
    var digits := if s != "" && (s[0] == '-' || s[0] == '+') then s[1..] else s;
    if digits == "" || !AllDigits(digits) then None
    else
      var n: int := Decimal(digits);
      if negative then (if n <= MAX_INT64 + 1 then Some(-n) else None)
      else if n <= MAX_INT64 then Some(n) else None
  }

  const PREFIX := "bytes="

  function ParseSpec(spec: string): Range {
    var dash := Find(spec, '-');
    if dash == |spec| || dash == 0 then Other
    else
      var first, b := ParseInt(spec[..dash]), spec[dash + 1..];
      if first.None? || first.value < 0 then Other
      else if b == "" then (if first.value == 0 then FromStart else Other)
      else
        var last := ParseInt(b);
        if last.None? || last.value < first.value then Other else Closed(first.value, last.value)
  }

  function ParseByteRange(h: string): Range {
    if h == "" then NoRange
    else if !(PREFIX <= h) || ',' in h[|PREFIX|..] then Other
    else ParseSpec(TrimSpace(h[|PREFIX|..]))
  }

  // A closed range is in order and fits 64 bits.
  lemma ClosedInOrder(h: string)
    requires ParseByteRange(h).Closed?
    ensures 0 <= ParseByteRange(h).first <= ParseByteRange(h).last <= MAX_INT64
  {
    hide Decimal, AllDigits;
  }

  // ---- What a player writes is what is read ----

  function Digit(d: nat): char
    requires d < 10
  {
    '0' + d as char
  }

  function Dec(n: nat): (s: string)
    ensures s != "" && AllDigits(s) && Decimal(s) == n
  {
    var d := [Digit(n % 10)];
    if n < 10 then
      assert d[..0] == "";
      d
    else
      var init := Dec(n / 10);
      assert (init + d)[..|init|] == init;
      init + d
  }

  lemma DigitsAreNotSpace(s: string)
    requires s != "" && !IsSpace(s[0]) && !IsSpace(s[|s| - 1])
    ensures TrimSpace(s) == s
  {
  }

  lemma ParseDec(n: nat)
    requires n <= MAX_INT64
    ensures ParseInt(Dec(n)) == Some(n)
  {
    assert IsDigit(Dec(n)[0]);
  }

  // What follows the prefix is digits and a dash, so it is read as it stands.
  lemma ParseHeader(spec: string)
    requires spec != "" && forall i :: 0 <= i < |spec| ==> IsDigit(spec[i]) || spec[i] == '-'
    ensures ParseByteRange(PREFIX + spec) == ParseSpec(spec)
  {
    hide ParseSpec;
    assert (PREFIX + spec)[|PREFIX|..] == spec;
    DigitsAreNotSpace(spec);
    hide TrimSpace;
  }

  lemma ParseDecs(first: nat, b: string)
    requires first <= MAX_INT64
    ensures ParseSpec(Dec(first) + "-" + b) ==
            if b == "" then (if first == 0 then FromStart else Other)
            else if ParseInt(b).None? || ParseInt(b).value < first then Other else Closed(first, ParseInt(b).value)
  {
    var a := Dec(first);
    var spec := a + "-" + b;
    ParseDec(first);
    hide Dec, ParseInt;
    FindAfter(a, '-', b);
    assert spec[..|a|] == a && spec[|a| + 1..] == b;
  }

  lemma HeaderParts(a: string, b: string)
    ensures PREFIX + a + "-" + b == PREFIX + (a + "-" + b)
  {
  }

  // Every closed range a player can write is read as itself.
  lemma ClosedRoundTrip(first: nat, last: nat)
    requires first <= last <= MAX_INT64
    ensures ParseByteRange(PREFIX + Dec(first) + "-" + Dec(last)) == Closed(first, last)
  {
    var spec := Dec(first) + "-" + Dec(last);
    HeaderParts(Dec(first), Dec(last));
    ParseDec(last);
    ParseDecs(first, Dec(last));
    hide Dec, ParseInt, ParseSpec, ParseByteRange;
    ParseHeader(spec);
  }

  // No header, and an open range from the start, ask for the whole clip; an
  // open range past the start cannot be answered before the clip's end is known.
  lemma OpenRanges(first: nat)
    requires first <= MAX_INT64
    ensures ParseByteRange(PREFIX + Dec(first) + "-") == if first == 0 then FromStart else Other
  {
    var spec := Dec(first) + "-" + "";
    assert PREFIX + Dec(first) + "-" == PREFIX + spec;
    ParseDecs(first, "");
    hide Dec, ParseInt, ParseSpec, ParseByteRange;
    ParseHeader(spec);
  }
}
