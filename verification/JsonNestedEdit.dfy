// setNestedKey (internal/skills/claudesync.go): a member of a member set or
// cleared, and the outer one with it when nothing is left in it.
module JsonNestedEdit {
  import opened Prelude
  import opened JsonScan
  import opened JsonObject
  import opened JsonEdit
  import opened JsonMembers
  import opened JsonSettings
  import opened JsonNested

  // The index of the last entry named name, or how many there are.
  function LastNamed(es: seq<Entry>, name: string): (i: nat)
    ensures i <= |es|
    ensures i < |es| ==> es[i].name == name && forall k :: i < k < |es| ==> es[k].name != name
    ensures i == |es| ==> forall k :: 0 <= k < |es| ==> es[k].name != name
  {
    if es == [] then 0
    else
      var rest := LastNamed(es[1..], name);
      if rest < |es| - 1 then
        assert forall k :: 0 < k < |es| ==> es[1..][k - 1] == es[k];
        rest + 1
      else
        assert forall k :: 0 < k < |es| ==> es[1..][k - 1] == es[k];
        if es[0].name == name then 0 else |es|
  }

  // One past the last newline of s, or 0.
  function AfterNewline(s: string): (i: nat)
    ensures i <= |s|
  {
    if s == "" || s[|s| - 1] == '\n' then |s| else AfterNewline(s[..|s| - 1])
  }

  // The spaces and tabs a line begins with.
  function IndentOf(line: string): (r: string)
    ensures Spaces(r)
  {
    if line != "" && (line[0] == ' ' || line[0] == '\t') then [line[0]] + IndentOf(line[1..]) else ""
  }

  // An object with one member: indented like the first member of the object it
  // goes in, or on one line like the file.
  function NewObject(gap: Option<string>, inner: string, value: string): string {
    if gap.Some? && AfterNewline(gap.value) == 0 then "{" + JsonString(inner) + ": " + value + "}"
    else
      var indent := if gap.Some? then gap.value[AfterNewline(gap.value)..] else "  ";
      "{\n" + indent + indent + JsonString(inner) + ": " + value + "\n" + indent + "}"
  }

  predicate InText(e: Entry, content: string) { e.key <= e.from <= e.to <= |content| }

  // None when the text, or what outer holds, is not an object.
  function SetNestedKey(content: string, outer: string, inner: string, value: Option<string>): Option<string> {
    var o := Parse(content);
    if o.None? then None
    else
      var entries, open := EntriesOf(o.value), Opening(o.value);
      var at := LastNamed(entries, outer);
      if at == |entries| then
        if value.None? then Some(content)
        else
          var gap := if entries == [] || !(open <= entries[0].key <= |content|) then None else Some(content[open..entries[0].key]);
          SetTopKey(content, outer, Some(NewObject(gap, inner, value.value)))
      else if !InText(entries[at], content) then None
      else
        var e := entries[at];
        var raw := content[e.from..e.to];
        if raw == "" || raw[0] != '{' then None
        else
          var line := content[AfterNewline(content[..e.key])..e.key];
          var next := SetMember(raw, inner, value, IndentOf(line));
          if next.None? then None
          else if next.value == raw then Some(content)
          else if value.None? && Parse(next.value).Some? && Parse(next.value).value.members == [] then SetTopKey(content, outer, None)
          else Some(content[..e.from] + next.value + content[e.to..])
  }

  // ---- Where a member is ----

  // The text before a member, and the text after it.
  function Ahead(o: Object, i: nat): string
    requires i <= |o.members|
  {
    o.lead + "{" + MembersText(o.members[..i], true)
  }

  lemma {:induction false} TextAppend(a: seq<Member>, b: seq<Member>, first: bool)
    ensures MembersText(a + b, first) == MembersText(a, first) + MembersText(b, first && a == [])
  {
    hide MemberText;
    if a == [] {
      assert a + b == b;
    } else {
      TextAppend(a[1..], b, false);
      assert (a + b)[1..] == a[1..] + b;
      assert MemberText(a[0], first) + (MembersText(a[1..], false) + MembersText(b, false)) ==
             MembersText(a, first) + MembersText(b, false);
    }
  }

  lemma PrintAround(o: Object, i: nat, m: Member)
    requires i < |o.members|
    ensures Print(o.(members := o.members[i := m])) ==
            Ahead(o, i) + (MemberText(m, i == 0) + RestText(o.members[i + 1..], o.tail, o.after))
  {
    var ms := o.members[i := m];
    assert ms == o.members[..i] + ([m] + o.members[i + 1..]);
    TextAppend(o.members[..i], [m] + o.members[i + 1..], true);
    assert ([m] + o.members[i + 1..])[1..] == o.members[i + 1..];
    assert MembersText([m] + o.members[i + 1..], i == 0) == MemberText(m, i == 0) + MembersText(o.members[i + 1..], false);
    hide MembersText, MemberText;
    Grouped(o.lead, MembersText(o.members[..i], true), MemberText(m, i == 0), MembersText(o.members[i + 1..], false), o.tail, o.after);
  }

  lemma Grouped(lead: string, a: string, m: string, b: string, tail: string, after: string)
    ensures lead + "{" + (a + (m + b)) + (tail + "}" + after) == lead + "{" + a + (m + (b + (tail + "}" + after)))
  {
  }

  lemma EntryFirst(ms: seq<Member>, first: bool, pre: string)
    requires ms != []
    ensures EntriesFrom(ms, first, |pre|)[0] == EntryAt(ms[0], first, |pre + MembersText(ms[..0], first)|)
  {
    hide EntryAt;
    assert ms[..0] == [] && pre + "" == pre;
  }

  lemma EntryNext(ms: seq<Member>, first: bool, pos: nat, i: nat)
    requires 0 < i < |ms|
    ensures EntriesFrom(ms, first, pos)[i] == EntriesFrom(ms[1..], false, EntryAt(ms[0], first, pos).to)[i - 1]
  {
    hide EntryAt;
  }

  lemma AheadNext(pre: string, ms: seq<Member>, first: bool, i: nat)
    requires 0 < i < |ms|
    ensures pre + MembersText(ms[..i], first) == (pre + MemberText(ms[0], first)) + MembersText(ms[1..][..i - 1], false)
  {
    hide MemberText;
    assert ms[..i][1..] == ms[1..][..i - 1];
    Assoc(pre, MemberText(ms[0], first), MembersText(ms[1..][..i - 1], false));
  }

  lemma {:induction false} EntryIs(ms: seq<Member>, first: bool, pre: string, i: nat)
    requires i < |ms| && MembersOk(ms, first)
    ensures EntriesFrom(ms, first, |pre|)[i] == EntryAt(ms[i], first && i == 0, |pre + MembersText(ms[..i], first)|)
    decreases |ms|
  {
    hide *;
    OkNext(ms, first);
    if i == 0 {
      EntryFirst(ms, first, pre);
    } else {
      if first {
        FirstBefore(ms[0]);
      }
      EndsAt(pre, ms[0], first);
      EntryNext(ms, first, |pre|, i);
      EntryIs(ms[1..], false, pre + MemberText(ms[0], first), i - 1);
      AheadNext(pre, ms, first, i);
    }
  }

  // A member's own parts of the text.
  lemma MemberIs(o: Object, i: nat)
    requires ObjectOk(o) && i < |o.members|
    ensures var e, m, content := EntriesOf(o)[i], o.members[i], Print(o);
            && InText(e, content) && e.name == NameOf(m.key) && content[e.from..e.to] == m.value
            && forall v :: content[..e.from] + v + content[e.to..] == Print(o.(members := o.members[i := m.(value := v)]))
  {
    var e, m, content := EntriesOf(o)[i], o.members[i], Print(o);
    var rest := RestText(o.members[i + 1..], o.tail, o.after);
    MemberOkAt(o.members, i);
    EntryIs(o.members, true, o.lead + "{", i);
    assert o.members[i := m] == o.members;
    PrintAround(o, i, m);
    AheadLength(o);
    hide Print, RestText, MembersOk, MemberOk, EntriesFrom, Ahead, MembersText;
    EntryParts(Ahead(o, i), m, i == 0, rest);
    EntryValue(Ahead(o, i), m, i == 0, rest);
    forall v ensures content[..e.from] + v + content[e.to..] == Print(o.(members := o.members[i := m.(value := v)])) {
      PrintAround(o, i, m.(value := v));
      SetText(Ahead(o, i), m, i == 0, v, rest);
    }
  }

  lemma AheadLength(o: Object)
    ensures forall i :: 0 <= i <= |o.members| ==> Ahead(o, i) == o.lead + "{" + MembersText(o.members[..i], true)
    ensures Opening(o) == |o.lead + "{"|
  {
  }

  lemma EntryValue(pre: string, m: Member, first: bool, rest: string)
    requires first ==> m.before == ""
    ensures var e := EntryAt(m, first, |pre|);
            var text := pre + (MemberText(m, first) + rest);
            e.key <= e.from <= e.to <= |text| && text[e.from..e.to] == m.value
  {
    EntryParts(pre, m, first, rest);
    var e := EntryAt(m, first, |pre|);
    var text := pre + (MemberText(m, first) + rest);
    var head := pre + (m.before + (if first then "" else ",") + m.gap + m.key + m.mid);
    assert text[..e.to] == head + m.value;
    hide NameOf;
    assert text[e.from..e.to] == text[..e.to][e.from..];
  }

  lemma {:induction false} MemberOkAt(ms: seq<Member>, i: nat)
    requires MembersOk(ms, true) && i < |ms|
    ensures MemberOk(ms[i], i == 0) && (i == 0 ==> ms[i].before == "")
  {
    OkNext(ms, true);
    FirstBefore(ms[0]);
    if i > 0 {
      OkAt(ms[1..], i - 1);
    }
    hide MemberOk, MembersOk;
  }

  lemma {:induction false} OkAt(ms: seq<Member>, i: nat)
    requires MembersOk(ms, false) && i < |ms|
    ensures MemberOk(ms[i], false)
  {
    OkNext(ms, false);
    hide MemberOk, MembersOk;
    if i > 0 {
      OkAt(ms[1..], i - 1);
    }
  }

  // ---- The outer member's object edited ----

  function LastMember(ms: seq<Member>, name: string): (i: nat)
    ensures i <= |ms|
  {
    if ms == [] then 0
    else
      var rest := LastMember(ms[1..], name);
      if rest < |ms| - 1 then rest + 1 else if NameOf(ms[0].key) == name then 0 else |ms|
  }

  lemma {:induction false} LastIs(ms: seq<Member>, first: bool, pos: nat, name: string)
    ensures LastNamed(EntriesFrom(ms, first, pos), name) == LastMember(ms, name)
  {
    hide NameOf;
    if ms != [] {
      var e := EntryAt(ms[0], first, pos);
      LastIs(ms[1..], false, e.to, name);
      assert EntriesFrom(ms, first, pos)[1..] == EntriesFrom(ms[1..], false, e.to);
    }
  }

  lemma {:induction false} LastIgnoresValues(ms: seq<Member>, i: nat, v: string, name: string)
    requires i < |ms|
    ensures LastMember(ms[i := ms[i].(value := v)], name) == LastMember(ms, name)
  {
    hide NameOf;
    var now := ms[i := ms[i].(value := v)];
    if i > 0 {
      LastIgnoresValues(ms[1..], i - 1, v, name);
      assert now[1..] == ms[1..][i - 1 := ms[1..][i - 1].(value := v)];
    } else {
      assert now[1..] == ms[1..];
    }
  }

  lemma {:induction false} LastOfNone(ms: seq<Member>, name: string)
    ensures LastMember(ms, name) == |ms| <==> !HasName(ms, name)
    ensures LastMember(ms, name) < |ms| ==> NameOf(ms[LastMember(ms, name)].key) == name
  {
    hide NameOf;
    if ms != [] {
      LastOfNone(ms[1..], name);
      if HasName(ms, name) {
        var k :| 0 <= k < |ms| && NameOf(ms[k].key) == name;
        assert k > 0 ==> ms[1..][k - 1] == ms[k];
      }
      if HasName(ms[1..], name) {
        var k :| 0 <= k < |ms[1..]| && NameOf(ms[1..][k].key) == name;
        assert ms[k + 1] == ms[1..][k];
      }
    }
  }

  // The indentation of the line the outer member's key is on.
  function LineIndent(content: string, o: Object, i: nat): (r: string)
    requires i < |o.members|
    ensures Spaces(r)
  {
    var key := EntriesOf(o)[i].key;
    if key <= |content| && AfterNewline(content[..key]) <= key then IndentOf(content[AfterNewline(content[..key])..key]) else ""
  }

  function WithValue(o: Object, i: nat, v: string): Object
    requires i < |o.members|
  {
    o.(members := o.members[i := o.members[i].(value := v)])
  }

  // What setNestedKey comes to when outer holds an object.
  lemma NestedIs(content: string, outer: string, inner: string, value: Option<string>, i: nat)
    requires Parse(content).Some? && i == LastMember(Parse(content).value.members, outer) < |Parse(content).value.members|
    requires Parse(Parse(content).value.members[i].value).Some?
    ensures var o := Parse(content).value;
            var raw := o.members[i].value;
            var next := SetMember(raw, inner, value, LineIndent(content, o, i));
            SetNestedKey(content, outer, inner, value) ==
            if next.None? then None
            else if next.value == raw then Some(content)
            else if value.None? && Parse(next.value).Some? && Parse(next.value).value.members == [] then SetTopKey(content, outer, None)
            else Some(Print(WithValue(o, i, next.value)))
  {
    hide *;
    var o := Parse(content).value;
    PrintsParse(content);
    LastIs(o.members, true, Opening(o), outer);
    EntriesAre(o);
    MemberIs(o, i);
    OkObject(o);
    MemberOkAt(o.members, i);
    RawBegins(o.members[i].value, i == 0, o.members[i]);
    EntryKeyIn(EntriesOf(o)[i], content);
    NestedBy(content, o, outer, inner, value, i);
  }

  lemma EntriesAre(o: Object)
    ensures EntriesOf(o) == EntriesFrom(o.members, true, Opening(o)) && |EntriesOf(o)| == |o.members|
  {
    hide EntriesFrom, Opening;
  }

  // setNestedKey, unfolded where outer holds an object.
  lemma NestedBy(content: string, o: Object, outer: string, inner: string, value: Option<string>, i: nat)
    requires Parse(content) == Some(o) && i < |o.members| && |EntriesOf(o)| == |o.members| && LastNamed(EntriesOf(o), outer) == i
    requires InText(EntriesOf(o)[i], content) && EntriesOf(o)[i].key <= |content|
    requires var e, raw := EntriesOf(o)[i], o.members[i].value;
             && content[e.from..e.to] == raw && raw != "" && raw[0] == '{'
             && forall v :: content[..e.from] + v + content[e.to..] == Print(o.(members := o.members[i := o.members[i].(value := v)]))
    ensures var raw := o.members[i].value;
            var next := SetMember(raw, inner, value, LineIndent(content, o, i));
            SetNestedKey(content, outer, inner, value) ==
            if next.None? then None
            else if next.value == raw then Some(content)
            else if value.None? && Parse(next.value).Some? && Parse(next.value).value.members == [] then SetTopKey(content, outer, None)
            else Some(Print(WithValue(o, i, next.value)))
  {
    hide Parse, Print, SetMember, SetTopKey, AfterNewline, IndentOf, EntriesOf, LastNamed, Opening, NewObject, InText;
    assert InText(EntriesOf(o)[i], content) ==> EntriesOf(o)[i].from <= EntriesOf(o)[i].to <= |content| by {
      EntryFromIn(EntriesOf(o)[i], content);
    }
  }

  lemma EntryFromIn(e: Entry, content: string)
    ensures InText(e, content) ==> e.from <= e.to <= |content|
  {
  }

  lemma EntryKeyIn(e: Entry, content: string)
    requires InText(e, content)
    ensures e.key <= |content|
  {
  }

  lemma RawBegins(raw: string, first: bool, m: Member)
    requires MemberOk(m, first) && raw == m.value && Parse(raw).Some?
    ensures raw != "" && raw[0] == '{' && IsValue(raw)
  {
    ValueIsObject(raw);
    PrintsParse(raw);
    hide IsString, MidOk, Scan, Parse, MembersText;
    assert Print(Parse(raw).value)[0] == '{';
  }

  // A member's value changed to another value keeps the object well formed.
  lemma WithValueOk(o: Object, i: nat, v: string)
    requires ObjectOk(o) && i < |o.members| && IsValue(v)
    ensures ObjectOk(WithValue(o, i, v)) && Parse(Print(WithValue(o, i, v))) == Some(WithValue(o, i, v))
  {
    SetOkAt(o.members, i, v, true);
    hide MembersOk, Spaces, IsValue, Print, Parse;
    ParsesPrint(WithValue(o, i, v));
  }

  lemma {:induction false} SetOkAt(ms: seq<Member>, i: nat, v: string, first: bool)
    requires MembersOk(ms, first) && i < |ms| && IsValue(v)
    ensures MembersOk(ms[i := ms[i].(value := v)], first)
    decreases |ms|
  {
    OkNext(ms, first);
    hide MembersOk, MemberOk, IsValue;
    if i == 0 {
      ValueSetOk(ms[0], first, v);
      MembersNext(ms[0].(value := v), ms[1..], first);
      assert ms[0 := ms[0].(value := v)] == [ms[0].(value := v)] + ms[1..];
    } else {
      SetOkAt(ms[1..], i - 1, v, false);
      MembersNext(ms[0], ms[1..][i - 1 := ms[i].(value := v)], first);
      assert ms[i := ms[i].(value := v)] == [ms[0]] + ms[1..][i - 1 := ms[i].(value := v)];
    }
  }

  // The object within, edited, is a value again.
  lemma InnerIsValue(raw: string, inner: string, value: Option<string>, ind: string)
    requires IsValue(raw) && Parse(raw).Some? && (value.Some? ==> IsValue(value.value)) && Spaces(ind)
    ensures var p := Edited(Parse(raw).value, inner, value, ind);
            && SetMember(raw, inner, value, ind) == Some(Print(p)) && ObjectOk(p) && Parse(Print(p)) == Some(p)
            && IsValue(Print(p)) && Print(p)[..1] == "{"
  {
    SetMemberIs(raw, inner, value, ind);
    ValueIsObject(raw);
    var o := Parse(raw).value;
    EditedLead(o, inner, value, ind);
    hide Parse, Print, SetMember, Edited, ObjectOk, IsValue, Spaces;
    ObjectIsValue(Edited(o, inner, value, ind));
  }

  lemma EditedLead(o: Object, name: string, value: Option<string>, outer: string)
    ensures Edited(o, name, value, outer).lead == o.lead && Edited(o, name, value, outer).after == o.after
  {
    hide EditMembers, HasName;
  }

  // Setting a member of an object that is there changes that object's text and
  // not another byte, and the file reads as the object with that value.
  lemma NestedSets(content: string, outer: string, inner: string, v: string, i: nat)
    requires Parse(content).Some? && i == LastMember(Parse(content).value.members, outer) < |Parse(content).value.members|
    requires Parse(Parse(content).value.members[i].value).Some? && IsValue(v)
    ensures var o := Parse(content).value;
            var p := Edited(Parse(o.members[i].value).value, inner, Some(v), LineIndent(content, o, i));
            && SetNestedKey(content, outer, inner, Some(v)) == Some(Print(WithValue(o, i, Print(p))))
            && Parse(Print(WithValue(o, i, Print(p)))) == Some(WithValue(o, i, Print(p)))
            && Parse(Print(p)) == Some(p)
  {
    hide *;
    var o := Parse(content).value;
    var raw := o.members[i].value;
    PrintsParse(content);
    OkObject(o);
    MemberOkAt(o.members, i);
    RawBegins(raw, i == 0, o.members[i]);
    NestedIs(content, outer, inner, Some(v), i);
    InnerIsValue(raw, inner, Some(v), LineIndent(content, o, i));
    var p := Edited(Parse(raw).value, inner, Some(v), LineIndent(content, o, i));
    WithValueOk(o, i, Print(p));
    SameValue(o, i);
  }

  lemma SameValue(o: Object, i: nat)
    requires i < |o.members|
    ensures WithValue(o, i, o.members[i].value) == o
  {
  }

  lemma WithValueTwice(o: Object, i: nat, v: string, w: string)
    requires i < |o.members|
    ensures |WithValue(o, i, v).members| == |o.members| && WithValue(o, i, v).members[i].value == v
    ensures WithValue(WithValue(o, i, v), i, w) == WithValue(o, i, w)
  {
  }

  // An inner name set where it was not, in an object with members, and then
  // cleared, leaves the text as it was, to the byte.
  lemma NestedSetThenClear(content: string, outer: string, inner: string, v: string, i: nat)
    requires Parse(content).Some? && i == LastMember(Parse(content).value.members, outer) < |Parse(content).value.members|
    requires Parse(Parse(content).value.members[i].value).Some? && IsValue(v)
    requires var p := Parse(Parse(content).value.members[i].value).value;
             p.members != [] && !HasName(p.members, inner)
    ensures var set' := SetNestedKey(content, outer, inner, Some(v));
            set'.Some? && SetNestedKey(set'.value, outer, inner, None) == Some(content)
  {
    hide *;
    var o := Parse(content).value;
    var raw := o.members[i].value;
    var ind := LineIndent(content, o, i);
    PrintsParse(content);
    OkObject(o);
    MemberOkAt(o.members, i);
    RawBegins(raw, i == 0, o.members[i]);
    NestedSets(content, outer, inner, v, i);
    InnerIsValue(raw, inner, Some(v), ind);
    var next := Print(Edited(Parse(raw).value, inner, Some(v), ind));
    var o' := WithValue(o, i, next);
    var content' := Print(o');
    WithValueTwice(o, i, next, raw);
    LastIgnoresValues(o.members, i, next, outer);
    WithValueMembers(o, i, next);
    NestedIs(content', outer, inner, None, i);
    SetThenClear(raw, inner, v, ind, LineIndent(content', o', i));
    SameValue(o, i);
  }

  lemma WithValueMembers(o: Object, i: nat, v: string)
    requires i < |o.members|
    ensures WithValue(o, i, v).members == o.members[i := o.members[i].(value := v)]
  {
  }

  // ---- The outer member added with it ----

  // The object that goes in for an outer member that was not there.
  function NewInner(gap: Option<string>, inner: string, value: string): Object {
    if gap.Some? && AfterNewline(gap.value) == 0 then Object("", [NewMember("", inner, value)], "", "")
    else
      var indent := if gap.Some? then gap.value[AfterNewline(gap.value)..] else "  ";
      Object("", [NewMember("\n" + indent + indent, inner, value)], "\n" + indent, "")
  }

  lemma OneMemberText(gap: string, name: string, v: string, tail: string)
    ensures Print(Object("", [NewMember(gap, name, v)], tail, "")) == "{" + gap + JsonString(name) + ": " + v + tail + "}"
  {
    var m := NewMember(gap, name, v);
    assert [m][1..] == [];
    hide JsonString;
    assert MembersText([m], true) == MemberText(m, true) + "";
  }

  lemma NewObjectIs(gap: Option<string>, inner: string, v: string)
    requires gap.Some? ==> Spaces(gap.value)
    ensures NewObject(gap, inner, v) == Print(NewInner(gap, inner, v))
  {
    hide JsonString, Print;
    if gap.Some? && AfterNewline(gap.value) == 0 {
      OneMemberText("", inner, v, "");
      assert "{" + "" + JsonString(inner) + ": " + v + "" + "}" == "{" + JsonString(inner) + ": " + v + "}";
    } else {
      var indent := if gap.Some? then gap.value[AfterNewline(gap.value)..] else "  ";
      OneMemberText("\n" + indent + indent, inner, v, "\n" + indent);
      IndentedText(indent, JsonString(inner), v);
    }
  }

  lemma IndentedText(indent: string, key: string, v: string)
    ensures "{" + ("\n" + indent + indent) + key + ": " + v + ("\n" + indent) + "}" ==
            "{\n" + indent + indent + key + ": " + v + "\n" + indent + "}"
  {
  }

  lemma NewInnerOk(gap: Option<string>, inner: string, v: string)
    requires (gap.Some? ==> Spaces(gap.value)) && IsValue(v)
    ensures var q := NewInner(gap, inner, v);
            && ObjectOk(q) && q.lead == "" && q.after == "" && |q.members| == 1
            && NameOf(q.members[0].key) == inner
  {
    JsonStringOk(inner);
    ColonOk();
    NameRoundTrip(inner);
    var q := NewInner(gap, inner, v);
    NoneOk(false);
    assert Spaces(q.members[0].gap) && Spaces(q.tail);
    hide JsonString, IsString, IsValue, MidOk, NameOf;
    assert MemberOk(q.members[0], true);
    hide MemberOk;
    MembersNext(q.members[0], [], true);
    assert [q.members[0]] + [] == q.members;
  }

  // The one member of an object taken out.
  lemma OneTakenOut(q: Object, inner: string, ind: string)
    requires |q.members| == 1 && NameOf(q.members[0].key) == inner
    ensures Edited(q, inner, None, ind).members == []
  {
    assert q.members[1..] == [];
    NoRest(q.tail, inner, None);
    hide NameOf, EditRest;
  }

  lemma AddedIsFirst(o: Object, outer: string, obj: string)
    requires o.members != [] && !HasName(o.members, outer)
    ensures var o' := Edited(o, outer, Some(obj), "");
            && LastMember(o'.members, outer) == 0 < |o'.members| && o'.members[0].value == obj
  {
    NameRoundTrip(outer);
    LastOfNone(o.members, outer);
    var m := NewMember(o.members[0].gap, outer, obj);
    assert ([m] + o.members)[1..] == o.members;
    hide NameOf, JsonString, HasName;
  }

  // What setNestedKey comes to when there is no outer member.
  lemma NestedAdds(content: string, outer: string, inner: string, v: string)
    requires Parse(content).Some? && Parse(content).value.members != [] && !HasName(Parse(content).value.members, outer)
    ensures var gap := Some(Parse(content).value.members[0].gap);
            && Spaces(gap.value)
            && SetNestedKey(content, outer, inner, Some(v)) == SetTopKey(content, outer, Some(NewObject(gap, inner, v)))
  {
    var o := Parse(content).value;
    PrintsParse(content);
    LastIs(o.members, true, Opening(o), outer);
    LastOfNone(o.members, outer);
    OkObject(o);
    MemberOkAt(o.members, 0);
    GapOk(o.members[0]);
    FirstInside(o);
    hide Parse, Print, SetTopKey, NewObject, MemberOk, ObjectOk, HasName, LastMember, NameOf, Opening;
  }

  lemma TopIs(content: string, name: string, value: Option<string>)
    ensures SetTopKey(content, name, value) == SetMember(content, name, value, "")
  {
  }

  // An inner name set where there was no outer one, in a file with members, and
  // then cleared, takes the outer one away too and leaves the text as it was.
  lemma NestedAddThenClear(content: string, outer: string, inner: string, v: string)
    requires Parse(content).Some? && Parse(content).value.members != [] && !HasName(Parse(content).value.members, outer)
    requires IsValue(v)
    ensures var set' := SetNestedKey(content, outer, inner, Some(v));
            set'.Some? && SetNestedKey(set'.value, outer, inner, None) == Some(content)
  {
    hide *;
    var o := Parse(content).value;
    var gap := Some(o.members[0].gap);
    NestedAdds(content, outer, inner, v);
    var q, obj := NewInner(gap, inner, v), NewObject(gap, inner, v);
    NewObjectIs(gap, inner, v);
    NewInnerOk(gap, inner, v);
    ObjectIsValue(q);
    ParsesPrint(q);
    TopIs(content, outer, Some(obj));
    NothingBefore();
    SetMemberIs(content, outer, Some(obj), "");
    var o' := Edited(o, outer, Some(obj), "");
    AddedIsFirst(o, outer, obj);
    NestedIs(Print(o'), outer, inner, None, 0);
    InnerIsValue(obj, inner, None, LineIndent(Print(o'), o', 0));
    OneTakenOut(q, inner, LineIndent(Print(o'), o', 0));
    TopIs(Print(o'), outer, None);
    SetThenClear(content, outer, obj, "", "");
  }
}
