// An object's text is one value of the grammar, and so may stand as a member's
// (internal/skills/claudesync.go parseObject, setNestedKey).
module JsonNested {
  import opened Prelude
  import opened JsonScan
  import opened JsonObject
  import opened JsonEdit
  import opened JsonMembers
  import opened JsonSettings

  // ---- A value within another ----

  function Lift(m: Machine, under: seq<Context>): Machine { Machine(m.step, under + m.stack) }

  // Only within an object or an array may a value, or a name, be missing.
  predicate StackOk(m: Machine) {
    m.step.BeginValueOrEmpty? || m.step.BeginString? || m.step.BeginStringOrEmpty? ==> m.stack != []
  }

  lemma LiftBegin(m: Machine, under: seq<Context>, c: char)
    requires m.step == BeginValue
    ensures OnBeginValue(Lift(m, under), c) == Lift(OnBeginValue(m, c), under)
    ensures StackOk(OnBeginValue(m, c))
  {
    assert under + (m.stack + [InKey]) == under + m.stack + [InKey];
    assert under + (m.stack + [InArray]) == under + m.stack + [InArray];
  }

  lemma LiftEnd(m: Machine, under: seq<Context>, c: char)
    requires m.stack != []
    ensures OnEndValue(Lift(m, under), c) == Lift(OnEndValue(m, c), under)
    ensures StackOk(m) ==> StackOk(OnEndValue(m, c))
  {
    var n := |m.stack| - 1;
    var all := under + m.stack;
    assert all[..|all| - 1] == under + m.stack[..n] && all[|all| - 1] == m.stack[n];
    assert under + m.stack[..n] + [InValue] == under + (m.stack[..n] + [InValue]);
    assert under + m.stack[..n] + [InKey] == under + (m.stack[..n] + [InKey]);
  }

  lemma LiftPop(m: Machine, under: seq<Context>)
    requires m.stack != []
    ensures Pop(Lift(m, under)) == Lift(Pop(m), under)
  {
    var all := under + m.stack;
    assert all[..|all| - 1] == under + m.stack[..|m.stack| - 1];
  }

  // What goes on with a number ends nothing.
  lemma GoesOnFails(m: Machine, c: char)
    requires GoesOn(c)
    ensures OnEndValue(m, c) == Fail(m)
  {
  }

  lemma LiftChar(m: Machine, under: seq<Context>, c: char)
    requires StackOk(m) && !IsDone(m) && !(MayEnd(m) && !GoesOn(c))
    ensures OnChar(Lift(m, under), c) == Lift(OnChar(m, c), under) && StackOk(OnChar(m, c))
  {
    if m.stack != [] {
      LiftEnd(m, under, c);
      LiftPop(m, under);
    } else if GoesOn(c) {
      GoesOnFails(m, c);
      GoesOnFails(Lift(m, under), c);
    }
    if m.step.BeginValue? || m.step.BeginValueOrEmpty? {
      LiftBegin(m.(step := BeginValue), under, c);
    }
    hide OnBeginValue, OnEndValue, GoesOn, IsSpace, IsDigit, IsHex;
  }

  // A value within another is scanned as on its own.
  lemma {:induction false} LiftScan(m: Machine, v: string, f: string, under: seq<Context>, rest: string)
    requires Scan(m, v + f) == Some(|v|) && StackOk(m) && under != [] && Delimits(f) && Delimits(rest)
    ensures Scan(Lift(m, under), v + rest) == Shift(Scan(Machine(EndValue, under), rest), |v|)
    decreases |v|
  {
    if v == "" {
      assert v + f == f && v + rest == rest;
      NumberEnds(m, under, rest);
    } else {
      assert (v + f)[1..] == v[1..] + f && (v + rest)[1..] == v[1..] + rest;
      assert (v + f)[0] == v[0] && (v + rest)[0] == v[0];
      LiftChar(m, under, v[0]);
      hide OnChar, GoesOn;
      LiftScan(OnChar(m, v[0]), v[1..], f, under, rest);
    }
  }

  lemma NumberEnds(m: Machine, under: seq<Context>, rest: string)
    requires (IsDone(m) || MayEnd(m)) && under != [] && Delimits(rest)
    ensures Scan(Lift(m, under), rest) == Scan(Machine(EndValue, under), rest)
  {
    assert under + [] == under;
    if MayEnd(m) {
      EndsAlike(m.step, under, rest[0]);
      hide OnChar;
    }
  }

  lemma EndsAlike(step: Step, under: seq<Context>, c: char)
    requires step.Zero? || step.Whole? || step.Fraction? || step.ExponentDigits?
    requires !GoesOn(c)
    ensures OnChar(Machine(step, under), c) == OnChar(Machine(EndValue, under), c)
  {
  }

  lemma ValueWithin(v: string, under: seq<Context>, rest: string)
    requires IsValue(v) && under != [] && Delimits(rest)
    ensures Scan(Machine(BeginValue, under), v + rest) == Shift(Scan(Machine(EndValue, under), rest), |v|)
  {
    assert Lift(BEGIN, under) == Machine(BeginValue, under) by { assert under + [] == under; }
    assert Delimits("}");
    hide Scan;
    LiftScan(BEGIN, v, "}", under, rest);
  }

  // ---- An object's text is a value ----

  predicate Skips(m: Machine) {
    m.stack != [] && (m.step.BeginValue? || m.step.BeginString? || m.step.BeginStringOrEmpty? || m.step.EndValue?)
  }

  lemma SkipsOne(m: Machine, c: char)
    requires Skips(m) && IsSpace(c)
    ensures OnChar(m, c) == m
  {
  }

  lemma {:induction false} SkipsSpaces(m: Machine, sp: string, rest: string)
    requires Skips(m) && Spaces(sp)
    ensures Scan(m, sp + rest) == Shift(Scan(m, rest), |sp|)
  {
    hide OnChar;
    if sp == "" {
      assert sp + rest == rest;
    } else {
      SkipsSpaces(m, sp[1..], rest);
      SkipsOne(m, sp[0]);
      OneChar(m, sp[0], sp[1..] + rest);
      hide Scan, Skips, IsSpace;
      assert sp + rest == [sp[0]] + (sp[1..] + rest);
      ShiftTwice(Scan(m, rest), |sp| - 1, 1);
    }
  }

  lemma SameFirst(m: Machine, m': Machine, s: string)
    requires s != "" && OnChar(m, s[0]) == OnChar(m', s[0]) && m.stack != [] && m'.stack != []
    requires !m.step.Failed? && !m'.step.Failed?
    ensures Scan(m, s) == Scan(m', s)
  {
    hide OnChar;
  }

  lemma NameFirst(step: Step)
    requires step.BeginString? || step.BeginStringOrEmpty?
    ensures OnChar(Machine(step, [InKey]), '"') == OnChar(Machine(BeginValue, [InKey]), '"')
  {
  }

  lemma KeyBegins(key: string, rest: string)
    requires IsString(key)
    ensures key + rest != "" && (key + rest)[0] == '"' && IsValue(key)
  {
    StringFirst(key);
    hide IsString, IsValue;
  }

  // A name is read where a value would be.
  lemma NameWithin(step: Step, key: string, rest: string)
    requires (step.BeginString? || step.BeginStringOrEmpty?) && IsString(key) && Delimits(rest)
    ensures Scan(Machine(step, [InKey]), key + rest) == Shift(Scan(Machine(EndValue, [InKey]), rest), |key|)
  {
    hide *;
    KeyBegins(key, rest);
    ValueWithin(key, [InKey], rest);
    NameFirst(step);
    SameFirst(Machine(step, [InKey]), Machine(BeginValue, [InKey]), key + rest);
  }

  lemma Chain(a: Option<nat>, b: Option<nat>, c: Option<nat>, m: nat, n: nat)
    requires a == Shift(b, m) && b == Shift(c, n)
    ensures a == Shift(c, m + n)
  {
  }

  lemma Punctuation()
    ensures OnChar(Machine(EndValue, [InKey]), ':') == Machine(BeginValue, [InValue])
    ensures OnChar(Machine(EndValue, [InValue]), ',') == Machine(BeginString, [InKey])
    ensures OnChar(Machine(EndValue, [InValue]), '}') == Machine(EndValue, [])
    ensures OnChar(Machine(BeginStringOrEmpty, [InKey]), '}') == Machine(EndValue, [])
    ensures OnChar(BEGIN, '{') == Machine(BeginStringOrEmpty, [InKey])
  {
    assert [InKey][..0] == [] && [InValue][..0] == [];
    assert [] + [InKey] == [InKey];
  }

  lemma ColonScans(rest: string)
    ensures Scan(Machine(EndValue, [InKey]), [':'] + rest) == Shift(Scan(Machine(BeginValue, [InValue]), rest), 1)
  {
    Punctuation();
    hide OnChar, Scan;
    OneChar(Machine(EndValue, [InKey]), ':', rest);
  }

  lemma MidText(a: string, b: string, rest: string)
    ensures a + ":" + b + rest == a + ([':'] + (b + rest)) && |a + ":" + b| == |a| + (1 + |b|)
  {
  }

  lemma CanSkipHere()
    ensures Skips(Machine(EndValue, [InKey])) && Skips(Machine(BeginValue, [InValue]))
  {
  }

  lemma MidScans(mid: string, rest: string)
    requires MidOk(mid)
    ensures Scan(Machine(EndValue, [InKey]), mid + rest) == Shift(Scan(Machine(BeginValue, [InValue]), rest), |mid|)
  {
    hide *;
    MidParts(mid);
    var a, b := mid[..SpaceRun(mid)], mid[SpaceRun(mid) + 1..];
    MidText(a, b, rest);
    CanSkipHere();
    SkipsSpaces(Machine(EndValue, [InKey]), a, [':'] + (b + rest));
    ColonScans(b + rest);
    SkipsSpaces(Machine(BeginValue, [InValue]), b, rest);
    var value := Scan(Machine(BeginValue, [InValue]), rest);
    var spaced := Scan(Machine(BeginValue, [InValue]), b + rest);
    Chain(Scan(Machine(EndValue, [InKey]), [':'] + (b + rest)), spaced, value, 1, |b|);
    Chain(Scan(Machine(EndValue, [InKey]), mid + rest), Scan(Machine(EndValue, [InKey]), [':'] + (b + rest)), value, |a|, 1 + |b|);
  }

  // A member from its gap on.
  lemma OwnScans(step: Step, m: Member, rest: string)
    requires (step.BeginString? || step.BeginStringOrEmpty?) && MemberOk(m, false) && Delimits(rest)
    ensures Scan(Machine(step, [InKey]), m.gap + (m.key + (m.mid + (m.value + rest)))) ==
            Shift(Scan(Machine(EndValue, [InValue]), rest), |m.gap| + (|m.key| + (|m.mid| + |m.value|)))
  {
    hide *;
    BeforeOk(m);
    OkParts(m);
    var fromValue := m.value + rest;
    var fromMid := m.mid + fromValue;
    var fromKey := m.key + fromMid;
    MidDelimits(m.mid, fromValue);
    CanSkip(step);
    ValueWithin(m.value, [InValue], rest);
    MidScans(m.mid, fromValue);
    NameWithin(step, m.key, fromMid);
    SkipsSpaces(Machine(step, [InKey]), m.gap, fromKey);
    var r := Scan(Machine(EndValue, [InValue]), rest);
    var colon := Scan(Machine(EndValue, [InKey]), fromMid);
    Chain(colon, Scan(Machine(BeginValue, [InValue]), fromValue), r, |m.mid|, |m.value|);
    Chain(Scan(Machine(step, [InKey]), fromKey), colon, r, |m.key|, |m.mid| + |m.value|);
    Chain(Scan(Machine(step, [InKey]), m.gap + fromKey), Scan(Machine(step, [InKey]), fromKey), r, |m.gap|, |m.key| + (|m.mid| + |m.value|));
  }

  lemma CanSkip(step: Step)
    requires step.BeginString? || step.BeginStringOrEmpty?
    ensures Skips(Machine(step, [InKey])) && Skips(Machine(EndValue, [InValue]))
  {
  }

  lemma OkParts(m: Member)
    requires MemberOk(m, false)
    ensures IsString(m.key) && MidOk(m.mid) && IsValue(m.value)
  {
  }

  lemma MidDelimits(mid: string, rest: string)
    requires MidOk(mid)
    ensures Delimits(mid + rest)
  {
    MidParts(mid);
    var n := SpaceRun(mid);
    assert n > 0 ==> IsSpace(mid[..n][0]);
    assert (mid + rest)[0] == mid[0];
  }

  lemma MemberScans(m: Member, rest: string)
    requires MemberOk(m, false) && Delimits(rest)
    ensures Scan(Machine(EndValue, [InValue]), MemberText(m, false) + rest) ==
            Shift(Scan(Machine(EndValue, [InValue]), rest), |MemberText(m, false)|)
  {
    hide *;
    BeforeOk(m);
    CommaParts(m, rest);
    CanSkip(BeginString);
    var own := m.gap + (m.key + (m.mid + (m.value + rest)));
    var n := |m.gap| + (|m.key| + (|m.mid| + |m.value|));
    var r := Scan(Machine(EndValue, [InValue]), rest);
    OwnScans(BeginString, m, rest);
    CommaScans(own);
    SkipsSpaces(Machine(EndValue, [InValue]), m.before, [','] + own);
    Chain(Scan(Machine(EndValue, [InValue]), [','] + own), Scan(Machine(BeginString, [InKey]), own), r, 1, n);
    Chain(Scan(Machine(EndValue, [InValue]), MemberText(m, false) + rest), Scan(Machine(EndValue, [InValue]), [','] + own), r,
          |m.before|, 1 + n);
  }

  lemma CommaScans(own: string)
    ensures Scan(Machine(EndValue, [InValue]), [','] + own) == Shift(Scan(Machine(BeginString, [InKey]), own), 1)
  {
    Punctuation();
    hide OnChar, Scan;
    OneChar(Machine(EndValue, [InValue]), ',', own);
  }

  lemma CommaParts(m: Member, rest: string)
    ensures MemberText(m, false) + rest == m.before + ([','] + (m.gap + (m.key + (m.mid + (m.value + rest)))))
    ensures |MemberText(m, false)| == |m.before| + (1 + (|m.gap| + (|m.key| + (|m.mid| + |m.value|))))
  {
  }

  lemma CloseScans(step: Step, under: Context, tail: string, rest: string)
    requires (step == EndValue && under == InValue) || (step == BeginStringOrEmpty && under == InKey)
    requires Spaces(tail)
    ensures Scan(Machine(step, [under]), tail + "}" + rest) == Some(|tail| + 1)
  {
    Punctuation();
    hide OnChar;
    assert tail + "}" + rest == tail + (['}'] + rest);
    SkipsSpaces(Machine(step, [under]), tail, ['}'] + rest);
    OneChar(Machine(step, [under]), '}', rest);
    assert Scan(Machine(EndValue, []), rest) == Some(0);
  }

  lemma NoRestScans(tail: string, rest: string)
    requires Spaces(tail)
    ensures Scan(Machine(EndValue, [InValue]), RestText([], tail, rest)) == Some(|MembersText([], false)| + |tail| + 1)
  {
    RestNone(tail, rest);
    hide RestText;
    assert tail + ("}" + rest) == tail + "}" + rest;
    CloseScans(EndValue, InValue, tail, rest);
    assert MembersText([], false) == "";
  }

  lemma {:induction false} RestScans(ms: seq<Member>, tail: string, rest: string)
    requires MembersOk(ms, false) && Spaces(tail)
    ensures Scan(Machine(EndValue, [InValue]), RestText(ms, tail, rest)) == Some(|MembersText(ms, false)| + |tail| + 1)
    decreases |ms|
  {
    hide *;
    if ms == [] {
      NoRestScans(tail, rest);
    } else {
      OkNext(ms, false);
      RestDelimits(ms[1..], tail, rest);
      TextLength(ms, false);
      RestIs(ms[1..], tail, rest);
      RestScans(ms[1..], tail, rest);
      RestNext(ms[0], ms[1..], tail, rest);
      assert [ms[0]] + ms[1..] == ms;
      MemberScans(ms[0], RestText(ms[1..], tail, rest));
      ShiftSome(|MembersText(ms[1..], false)| + |tail| + 1, |MemberText(ms[0], false)|);
    }
  }

  lemma RestIs(ms: seq<Member>, tail: string, rest: string)
    ensures RestText(ms, tail, rest) == MembersText(ms, false) + (tail + "}" + rest)
  {
  }

  lemma ShiftSome(n: nat, more: nat)
    ensures Shift(Some(n), more) == Some(n + more)
  {
  }

  lemma TextLength(ms: seq<Member>, first: bool)
    requires ms != []
    ensures |MembersText(ms, first)| == |MemberText(ms[0], first)| + |MembersText(ms[1..], false)|
  {
    hide MemberText;
  }

  lemma NoneScans(tail: string, rest: string)
    requires Spaces(tail)
    ensures Scan(Machine(BeginStringOrEmpty, [InKey]), FullText([], tail, rest)) == Some(|MembersText([], true)| + |tail| + 1)
  {
    FullNone(tail, rest);
    hide FullText;
    CloseScans(BeginStringOrEmpty, InKey, tail, rest);
    assert MembersText([], true) == "";
  }

  lemma FullScans(ms: seq<Member>, tail: string, rest: string)
    requires MembersOk(ms, true) && Spaces(tail)
    ensures Scan(Machine(BeginStringOrEmpty, [InKey]), FullText(ms, tail, rest)) == Some(|MembersText(ms, true)| + |tail| + 1)
  {
    hide *;
    if ms == [] {
      NoneScans(tail, rest);
    } else {
      OkNext(ms, true);
      FirstBefore(ms[0]);
      FirstIsMember(ms[0]);
      RestDelimits(ms[1..], tail, rest);
      TextLength(ms, true);
      RestIs(ms[1..], tail, rest);
      var text := RestText(ms[1..], tail, rest);
      FirstParts(ms[0], text);
      RestScans(ms[1..], tail, rest);
      FullNext(ms[0], ms[1..], tail, rest);
      assert [ms[0]] + ms[1..] == ms;
      OwnScans(BeginStringOrEmpty, ms[0], text);
      ShiftSome(|MembersText(ms[1..], false)| + |tail| + 1, |MemberText(ms[0], true)|);
    }
  }

  lemma FirstIsMember(m: Member)
    requires MemberOk(m, true)
    ensures MemberOk(m, false)
  {
  }

  lemma FirstParts(m: Member, rest: string)
    requires m.before == ""
    ensures MemberText(m, true) + rest == m.gap + (m.key + (m.mid + (m.value + rest)))
    ensures |MemberText(m, true)| == |m.gap| + (|m.key| + (|m.mid| + |m.value|))
  {
  }

  // An object's text, from its brace to its brace, is scanned whole whatever
  // comes after it.
  lemma ObjectScans(o: Object)
    requires ObjectOk(o) && o.lead == ""
    ensures Scan(BEGIN, Print(o)) == Some(|Print(o)| - |o.after|)
  {
    hide *;
    OpenInside(o);
    PrintLength(o);
    OkObject(o);
    var text := FullText(o.members, o.tail, o.after);
    assert "" + "{" + text == ['{'] + text;
    FullScans(o.members, o.tail, o.after);
    BraceScans(text);
    ShiftSome(|MembersText(o.members, true)| + |o.tail| + 1, 1);
  }

  lemma BraceScans(text: string)
    ensures Scan(BEGIN, ['{'] + text) == Shift(Scan(Machine(BeginStringOrEmpty, [InKey]), text), 1)
  {
    Punctuation();
    BeginIsOpen();
    hide OnChar, Scan;
    OneChar(BEGIN, '{', text);
  }

  lemma BeginIsOpen()
    ensures !IsDone(BEGIN) && !BEGIN.step.Failed? && !MayEnd(BEGIN)
  {
  }

  lemma OkObject(o: Object)
    requires ObjectOk(o)
    ensures MembersOk(o.members, true) && Spaces(o.tail) && Spaces(o.lead)
  {
  }

  lemma PrintLength(o: Object)
    ensures |Print(o)| == |o.lead| + 1 + |MembersText(o.members, true)| + |o.tail| + 1 + |o.after|
  {
    hide MembersText;
  }

  lemma ObjectIsValue(o: Object)
    requires ObjectOk(o) && o.lead == "" && o.after == ""
    ensures IsValue(Print(o)) && Print(o)[0] == '{'
  {
    var o' := o.(after := "}");
    PrintLength(o);
    PrintLength(o');
    ObjectScans(o');
    hide Scan, MembersText, MembersOk, Spaces;
    assert Print(o') == Print(o) + "}";
    assert Print(o)[0] == '{';
  }

  lemma LeadIsSpace(o: Object)
    requires ObjectOk(o) && o.lead != ""
    ensures Print(o) != "" && IsSpace(Print(o)[0])
  {
    hide MembersText, MembersOk;
    assert Print(o)[0] == o.lead[0];
  }

  // A value that is an object has nothing before or after it.
  lemma ValueIsObject(raw: string)
    requires IsValue(raw) && Parse(raw).Some?
    ensures Parse(raw).value.lead == "" && Parse(raw).value.after == ""
  {
    var o := Parse(raw).value;
    PrintsParse(raw);
    if o.lead != "" {
      LeadIsSpace(o);
    }
    var o' := o.(after := o.after + "}");
    ObjectScans(o');
    PrintLength(o);
    PrintLength(o');
    hide Scan, MembersText, MembersOk, Parse;
    assert Print(o') == Print(o) + "}";
  }
}
