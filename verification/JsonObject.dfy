// A JSON object's text as its members and all that is between them
// (internal/skills/claudesync.go parseObject; objects, section 4 of RFC 8259):
// nothing is lost in reading it, and it reads as it was put together.
module JsonObject {
  import opened Prelude
  import opened JsonScan

  // before and gap are the spaces before and after the comma; the first member
  // has no comma, and nothing before it. mid is the colon and its spaces.
  datatype Member = Member(before: string, gap: string, key: string, mid: string, value: string)

  // tail is the spaces before the closing brace, after whatever follows it.
  datatype Object = Object(lead: string, members: seq<Member>, tail: string, after: string)

  predicate Spaces(s: string) { forall i :: 0 <= i < |s| ==> IsSpace(s[i]) }

  function SpaceRun(s: string): (n: nat)
    ensures n <= |s| && Spaces(s[..n])
    ensures n < |s| ==> !IsSpace(s[n])
  {
    if s == "" || !IsSpace(s[0]) then 0
    else
      var n := SpaceRun(s[1..]);
      assert s[..n + 1] == [s[0]] + s[1..][..n];
      1 + n
  }

  // ---- Printing ----

  function MemberText(m: Member, first: bool): string {
    m.before + (if first then "" else ",") + m.gap + m.key + m.mid + m.value
  }

  function MembersText(ms: seq<Member>, first: bool): string {
    if ms == [] then "" else MemberText(ms[0], first) + MembersText(ms[1..], false)
  }

  function Close(o: Object): string { o.tail + "}" + o.after }

  function Print(o: Object): string { o.lead + "{" + MembersText(o.members, true) + Close(o) }

  predicate MidOk(mid: string) {
    var n := SpaceRun(mid);
    n < |mid| && mid[n] == ':' && Spaces(mid[n + 1..])
  }

  predicate MemberOk(m: Member, first: bool) {
    && Spaces(m.before) && Spaces(m.gap) && IsString(m.key) && MidOk(m.mid) && IsValue(m.value)
    && (first ==> m.before == "")
  }

  predicate MembersOk(ms: seq<Member>, first: bool) { ms != [] ==> MemberOk(ms[0], first) && MembersOk(ms[1..], false) }

  predicate ObjectOk(o: Object) { Spaces(o.lead) && MembersOk(o.members, true) && Spaces(o.tail) }

  // ---- Parsing ----

  datatype Parsed<T> = Bad | Good(value: T, rest: string)

  // Spaces, one character, and what is after it.
  function ReadPast(s: string, c: char): Parsed<string> {
    var n := SpaceRun(s);
    if n < |s| && s[n] == c then Good(s[..n], s[n + 1..]) else Bad
  }

  // A value, and what is after it.
  function ReadValue(s: string): (r: Parsed<string>)
    ensures r.Good? ==> s == r.value + r.rest
  {
    var n := Scan(BEGIN, s);
    if s == "" || IsSpace(s[0]) || n.None? then Bad else Good(s[..n.value], s[n.value..])
  }

  // A member from its gap on.
  function ReadMember(before: string, s: string): (r: Parsed<Member>)
    ensures r.Good? ==> |r.rest| <= |s|
  {
    var g := SpaceRun(s);
    if g == |s| || s[g] != '"' then Bad
    else
      var key := ReadValue(s[g..]);
      if key.Bad? then Bad
      else
        var colon := ReadPast(key.rest, ':');
        if colon.Bad? then Bad
        else
          var n := SpaceRun(colon.rest);
          var value := ReadValue(colon.rest[n..]);
          if value.Bad? then Bad
          else Good(Member(before, s[..g], key.value, colon.value + ":" + colon.rest[..n], value.value), value.rest)
  }

  function Cons(m: Member, more: Parsed<seq<Member>>): Parsed<seq<Member>> {
    if more.Bad? then Bad else Good([m] + more.value, more.rest)
  }

  // The members from s on: at the first, or after one. Then come the tail and
  // the closing brace.
  function ReadMembers(s: string, first: bool): Parsed<seq<Member>>
    decreases |s|, if first then 1 else 0
  {
    var n := SpaceRun(s);
    if n == |s| then Bad
    else if s[n] == '}' then Good([], s)
    else if !first && s[n] != ',' then Bad
    else
      var m := if first then ReadMember("", s) else ReadMember(s[..n], s[n + 1..]);
      if m.Bad? then Bad else Cons(m.value, ReadMembers(m.rest, false))
  }

  function Parse(content: string): Option<Object> {
    var lead := ReadPast(content, '{');
    if lead.Bad? then None
    else
      var ms := ReadMembers(lead.rest, true);
      if ms.Bad? then None
      else
        var close := ReadPast(ms.rest, '}');
        if close.Bad? then None else Some(Object(lead.value, ms.value, close.value, close.rest))
  }

  // ---- What is printed is read ----

  lemma {:induction false} SpaceRunOf(sp: string, rest: string)
    requires Spaces(sp) && rest != "" && !IsSpace(rest[0])
    ensures SpaceRun(sp + rest) == |sp|
  {
    if sp == "" {
      assert sp + rest == rest;
    } else {
      SpaceRunOf(sp[1..], rest);
      assert (sp + rest)[1..] == sp[1..] + rest;
    }
  }

  lemma ReadsPast(sp: string, c: char, rest: string)
    requires Spaces(sp) && !IsSpace(c)
    ensures ReadPast(sp + [c] + rest, c) == Good(sp, rest)
  {
    hide Spaces, SpaceRun;
    assert sp + [c] + rest == sp + ([c] + rest);
    SpaceRunOf(sp, [c] + rest);
    var s := sp + [c] + rest;
    assert s[..|sp|] == sp && s[|sp| + 1..] == rest;
  }

  lemma ReadsValue(v: string, rest: string)
    requires IsValue(v) && rest != "" && !GoesOn(rest[0])
    ensures ReadValue(v + rest) == Good(v, rest)
  {
    ValueScans(v, rest);
    hide Scan, GoesOn, IsSpace;
    assert (v + rest)[..|v|] == v && (v + rest)[|v|..] == rest && (v + rest)[0] == v[0];
  }

  // A text that begins with nothing that goes on with a number.
  predicate Delimits(s: string) { s != "" && !GoesOn(s[0]) }

  lemma SpacesDelimit(sp: string, rest: string)
    requires Spaces(sp) && Delimits(rest)
    ensures Delimits(sp + rest)
  {
    assert sp != "" ==> IsSpace(sp[0]);
  }

  lemma MidParts(mid: string)
    requires MidOk(mid)
    ensures var n := SpaceRun(mid);
            n < |mid| && mid == mid[..n] + ":" + mid[n + 1..] && Spaces(mid[..n]) && Spaces(mid[n + 1..])
  {
    hide SpaceRun, Spaces;
    SplitAt(mid, SpaceRun(mid));
  }

  lemma SplitAt(s: string, n: nat)
    requires n < |s|
    ensures s == s[..n] + [s[n]] + s[n + 1..]
  {
  }

  // The gap, key, colon and value of a member, before what follows it.
  lemma ReadsMember(m: Member, rest: string)
    requires MemberOk(m, false) && Delimits(rest)
    ensures ReadMember(m.before, m.gap + m.key + m.mid + m.value + rest) == Good(m, rest)
  {
    MidParts(m.mid);
    var n := SpaceRun(m.mid);
    var a, b := m.mid[..n], m.mid[n + 1..];
    var afterColon := b + (m.value + rest);
    var afterKey := a + [':'] + afterColon;
    var s := m.gap + (m.key + afterKey);
    StringFirst(m.key);
    ValueFirst(m.value);
    ColonDelimits(a, afterColon);
    ReadsValue(m.key, afterKey);
    ReadsPast(a, ':', afterColon);
    ReadsValue(m.value, rest);
    hide Spaces, IsString, IsValue, MidOk, GoesOn, IsSpace;
    SpaceRunOf(m.gap, m.key + afterKey);
    SpaceRunOf(b, m.value + rest);
    MemberParts(m, a, b, rest);
    hide SpaceRun, ReadValue, ReadPast;
    assert s[|m.gap|..] == m.key + afterKey && s[..|m.gap|] == m.gap && s[|m.gap|] == '"';
    assert afterColon[|b|..] == m.value + rest && afterColon[..|b|] == b;
  }

  lemma StringFirst(key: string)
    requires IsString(key)
    ensures key != "" && key[0] == '"' && !IsSpace('"') && IsValue(key)
  {
  }

  lemma ValueFirst(v: string)
    requires IsValue(v)
    ensures v != "" && !IsSpace(v[0])
  {
  }

  lemma ColonDelimits(a: string, rest: string)
    requires Spaces(a)
    ensures a + [':'] + rest != "" && !GoesOn((a + [':'] + rest)[0])
  {
    assert a != "" ==> IsSpace(a[0]);
  }

  lemma MemberParts(m: Member, a: string, b: string, rest: string)
    requires m.mid == a + ":" + b
    ensures m.gap + m.key + m.mid + m.value + rest == m.gap + (m.key + (a + [':'] + (b + (m.value + rest))))
  {
  }

  lemma ClosingRead(tail: string, after: string, first: bool)
    requires Spaces(tail)
    ensures ReadMembers(tail + "}" + after, first) == Good([], tail + "}" + after)
  {
    var s := tail + "}" + after;
    assert s == tail + ("}" + after);
    SpaceRunOf(tail, "}" + after);
    hide Spaces, SpaceRun, ReadMember;
    assert s[|tail|] == '}';
  }

  lemma MemberSplits(m: Member, first: bool, rest: string)
    requires first ==> m.before == ""
    ensures var own := m.gap + m.key + m.mid + m.value + rest;
            MemberText(m, first) + rest == if first then own else m.before + ([','] + own)
  {
  }

  lemma ReadFirst(s: string)
    requires SpaceRun(s) < |s| && s[SpaceRun(s)] != '}'
    ensures var m := ReadMember("", s);
            ReadMembers(s, true) == if m.Bad? then Bad else Cons(m.value, ReadMembers(m.rest, false))
  {
    hide ReadMember, SpaceRun, Cons;
  }

  lemma ReadNext(s: string)
    requires SpaceRun(s) < |s| && s[SpaceRun(s)] == ','
    ensures var m := ReadMember(s[..SpaceRun(s)], s[SpaceRun(s) + 1..]);
            ReadMembers(s, false) == if m.Bad? then Bad else Cons(m.value, ReadMembers(m.rest, false))
  {
    hide ReadMember, SpaceRun, Cons;
  }

  // One member read, then the others.
  lemma FirstRead(m: Member, first: bool, rest: string)
    requires MemberOk(m, first) && Delimits(rest)
    ensures ReadMembers(MemberText(m, first) + rest, first) == Cons(m, ReadMembers(rest, false))
  {
    var own := m.gap + m.key + m.mid + m.value + rest;
    MemberSplits(m, first, rest);
    ReadsMember(m, rest);
    StringFirst(m.key);
    OwnFirst(m, rest);
    CommaFirst(m.before, own);
    hide *;
    if first {
      FirstBefore(m);
      ReadFirst(own);
    } else {
      ReadNext(m.before + ([','] + own));
    }
  }

  lemma FirstBefore(m: Member)
    requires MemberOk(m, true)
    ensures m.before == ""
  {
  }

  lemma OwnFirst(m: Member, rest: string)
    requires Spaces(m.gap) && m.key != "" && m.key[0] == '"'
    ensures var own := m.gap + m.key + m.mid + m.value + rest;
            SpaceRun(own) < |own| && own[SpaceRun(own)] == '"'
  {
    var own := m.gap + m.key + m.mid + m.value + rest;
    var after := m.key + m.mid + m.value + rest;
    assert !IsSpace('"');
    hide Spaces, SpaceRun, IsSpace;
    assert own == m.gap + after && after[0] == '"';
    SpaceRunOf(m.gap, after);
  }

  lemma CommaFirst(before: string, own: string)
    requires Spaces(before)
    ensures var s := before + ([','] + own);
            SpaceRun(s) == |before| < |s| && s[|before|] == ',' && s[..|before|] == before && s[|before| + 1..] == own
  {
    assert !IsSpace(',');
    hide Spaces, SpaceRun, IsSpace;
    SpaceRunOf(before, [','] + own);
  }

  lemma RestDelimits(ms: seq<Member>, tail: string, after: string)
    requires MembersOk(ms, false) && Spaces(tail)
    ensures Delimits(MembersText(ms, false) + (tail + "}" + after))
  {
    var close := tail + "}" + after;
    if ms == [] {
      assert MembersText(ms, false) + close == close;
      assert close == tail + ("}" + after);
      SpacesDelimit(tail, "}" + after);
    } else {
      var m, rest := ms[0], MembersText(ms[1..], false) + close;
      MemberSplits(m, false, rest);
      assert MembersText(ms, false) + close == MemberText(m, false) + rest;
      SpacesDelimit(m.before, [','] + (m.gap + m.key + m.mid + m.value + rest));
    }
  }

  lemma TextNext(ms: seq<Member>, first: bool, rest: string)
    requires ms != []
    ensures MembersText(ms, first) + rest == MemberText(ms[0], first) + (MembersText(ms[1..], false) + rest)
  {
    hide MemberText;
  }

  lemma OkNext(ms: seq<Member>, first: bool)
    requires ms != [] && MembersOk(ms, first)
    ensures MemberOk(ms[0], first) && MembersOk(ms[1..], false)
  {
    hide MemberOk;
  }

  lemma NoText(first: bool, rest: string)
    ensures MembersText([], first) + rest == rest
  {
  }

  lemma {:induction false} ReadsMembers(ms: seq<Member>, first: bool, tail: string, after: string)
    requires MembersOk(ms, first) && Spaces(tail)
    ensures ReadMembers(MembersText(ms, first) + (tail + "}" + after), first) == Good(ms, tail + "}" + after)
    decreases |ms|
  {
    hide *;
    var close := tail + "}" + after;
    if ms == [] {
      ClosingRead(tail, after, first);
      NoText(first, close);
    } else {
      OkNext(ms, first);
      ReadsMembers(ms[1..], false, tail, after);
      RestDelimits(ms[1..], tail, after);
      FirstRead(ms[0], first, MembersText(ms[1..], false) + close);
      TextNext(ms, first, close);
      ConsAll(ms, close);
    }
  }

  lemma ConsAll(ms: seq<Member>, rest: string)
    requires ms != []
    ensures Cons(ms[0], Good(ms[1..], rest)) == Good(ms, rest)
  {
    assert [ms[0]] + ms[1..] == ms;
  }

  // An object's text reads as the object.
  lemma ParsesPrint(o: Object)
    requires ObjectOk(o)
    ensures Parse(Print(o)) == Some(o)
  {
    var rest := MembersText(o.members, true) + Close(o);
    assert Print(o) == o.lead + ['{'] + rest;
    assert !IsSpace('{') && !IsSpace('}');
    assert Close(o) == o.tail + ['}'] + o.after;
    hide IsSpace, Spaces, MembersOk, MembersText, ReadMembers, ReadPast;
    ReadsPast(o.lead, '{', rest);
    ReadsMembers(o.members, true, o.tail, o.after);
    ReadsPast(o.tail, '}', o.after);
  }

  // ---- What is read is printed ----

  lemma ReadPastSplits(s: string, c: char)
    requires ReadPast(s, c).Good?
    ensures var r := ReadPast(s, c);
            s == r.value + [c] + r.rest && Spaces(r.value)
  {
    var n := SpaceRun(s);
    hide SpaceRun, Spaces;
    SplitAt(s, n);
  }

  // A value before something that does not go on with a number.
  lemma ReadValueOk(s: string)
    requires ReadValue(s).Good?
    ensures IsValue(ReadValue(s).value) && s == ReadValue(s).value + ReadValue(s).rest
  {
    ScansValue(s, Scan(BEGIN, s).value);
    hide Scan, IsValue;
  }

  lemma MidOkOf(a: string, b: string)
    requires Spaces(a) && Spaces(b)
    ensures MidOk(a + ":" + b)
  {
    assert a + ":" + b == a + (":" + b);
    SpaceRunOf(a, ":" + b);
    hide Spaces, SpaceRun;
    assert (a + ":" + b)[|a| + 1..] == b;
  }

  lemma ReadMemberOk(before: string, s: string)
    requires ReadMember(before, s).Good? && Spaces(before)
    ensures var r := ReadMember(before, s);
            && r.value.before == before && MemberOk(r.value, false)
            && s == r.value.gap + r.value.key + r.value.mid + r.value.value + r.rest
  {
    var g := SpaceRun(s);
    var key := ReadValue(s[g..]);
    ReadValueOk(s[g..]);
    var colon := ReadPast(key.rest, ':');
    ReadPastSplits(key.rest, ':');
    var n := SpaceRun(colon.rest);
    var value := ReadValue(colon.rest[n..]);
    ReadValueOk(colon.rest[n..]);
    MidOkOf(colon.value, colon.rest[..n]);
    hide SpaceRun, ReadValue, ReadPast, Spaces, IsValue, MidOk;
    assert key.value[0] == s[g..][0];
    Reassemble(s, g, key.value, key.rest, colon.value, colon.rest, n, value.value, value.rest);
  }

  lemma Reassemble(s: string, g: nat, key: string, keyRest: string, a: string, colonRest: string, n: nat, v: string, rest: string)
    requires g <= |s| && s[g..] == key + keyRest && keyRest == a + [':'] + colonRest && n <= |colonRest| && colonRest[n..] == v + rest
    ensures s == s[..g] + key + (a + ":" + colonRest[..n]) + v + rest
  {
    assert s == s[..g] + s[g..] && colonRest == colonRest[..n] + colonRest[n..];
  }

  // What a reading says of the text it read.
  predicate Reads(s: string, first: bool, r: Parsed<seq<Member>>) {
    r.Good? ==> MembersOk(r.value, first) && s == MembersText(r.value, first) + r.rest
  }

  lemma ReadsCons(s: string, first: bool, m: Parsed<Member>, more: Parsed<seq<Member>>)
    requires m.Good? && MemberOk(m.value, false) && (first ==> m.value.before == "")
    requires s == MemberText(m.value, first) + m.rest && Reads(m.rest, false, more)
    ensures Reads(s, first, Cons(m.value, more))
  {
    hide MemberText, IsString, IsValue, MidOk, Spaces;
    if more.Good? {
      var all := [m.value] + more.value;
      assert all[1..] == more.value;
      TextNext(all, first, more.rest);
    }
  }

  lemma ReadsEnd(s: string, first: bool)
    requires SpaceRun(s) == |s| || s[SpaceRun(s)] == '}' || (!first && s[SpaceRun(s)] != ',')
    ensures Reads(s, first, ReadMembers(s, first))
  {
    hide SpaceRun, ReadMember, MembersOk;
    assert MembersText([], first) + s == s;
    NoneOk(first);
  }

  lemma NoneOk(first: bool)
    ensures MembersOk([], first)
  {
  }

  lemma {:induction false} ReadMembersOk(s: string, first: bool)
    ensures Reads(s, first, ReadMembers(s, first))
    decreases |s|, if first then 1 else 0
  {
    hide *;
    var n := SpaceRun(s);
    if n == |s| || s[n] == '}' || (!first && s[n] != ',') {
      ReadsEnd(s, first);
    } else if first {
      ReadFirst(s);
      NothingBefore();
      var m := ReadMember("", s);
      if m.Bad? {
        BadReads(s, first);
      } else {
        ReadMembersOk(m.rest, false);
        ReadMemberOk("", s);
        MemberSplits(m.value, true, m.rest);
        ReadsCons(s, true, m, ReadMembers(m.rest, false));
      }
    } else {
      ReadNext(s);
      var m := ReadMember(s[..n], s[n + 1..]);
      if m.Bad? {
        BadReads(s, first);
      } else {
        ReadMembersOk(m.rest, false);
        ReadMemberOk(s[..n], s[n + 1..]);
        MemberSplits(m.value, false, m.rest);
        SplitAt(s, n);
        assert s[..n] + [s[n]] + s[n + 1..] == s[..n] + ([','] + s[n + 1..]);
        ReadsCons(s, false, m, ReadMembers(m.rest, false));
      }
    }
  }

  lemma BadReads(s: string, first: bool)
    ensures Reads(s, first, Bad)
  {
  }

  lemma NothingBefore()
    ensures Spaces("")
  {
  }

  lemma ParseParts(content: string)
    requires Parse(content).Some?
    ensures var lead := ReadPast(content, '{');
            lead.Good? &&
            var ms := ReadMembers(lead.rest, true);
            ms.Good? &&
            var close := ReadPast(ms.rest, '}');
            close.Good? && Parse(content) == Some(Object(lead.value, ms.value, close.value, close.rest))
  {
    hide ReadPast, ReadMembers;
  }

  lemma ReadsGood(s: string, first: bool, r: Parsed<seq<Member>>)
    requires r.Good? && Reads(s, first, r)
    ensures MembersOk(r.value, first) && s == MembersText(r.value, first) + r.rest
  {
  }

  lemma PrintIs(lead: string, ms: seq<Member>, tail: string, after: string)
    ensures Print(Object(lead, ms, tail, after)) == lead + ['{'] + (MembersText(ms, true) + (tail + ['}'] + after))
    ensures ObjectOk(Object(lead, ms, tail, after)) <==> Spaces(lead) && MembersOk(ms, true) && Spaces(tail)
  {
    hide MembersText, MembersOk, Spaces;
  }

  // Nothing of the text is lost in reading it.
  lemma PrintsParse(content: string)
    requires Parse(content).Some?
    ensures ObjectOk(Parse(content).value) && Print(Parse(content).value) == content
  {
    hide *;
    ParseParts(content);
    var lead := ReadPast(content, '{');
    var ms := ReadMembers(lead.rest, true);
    var close := ReadPast(ms.rest, '}');
    ReadPastSplits(content, '{');
    ReadMembersOk(lead.rest, true);
    ReadsGood(lead.rest, true, ms);
    ReadPastSplits(ms.rest, '}');
    PrintIs(lead.value, ms.value, close.value, close.rest);
  }
}
