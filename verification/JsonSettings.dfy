// What a settings file says once a member is set or cleared, what stays as it
// was to the byte, and that clearing what was set gives the text back
// (internal/skills/claudesync.go setTopKey, setMember).
module JsonSettings {
  import opened Prelude
  import opened JsonScan
  import opened JsonObject
  import opened JsonEdit
  import opened JsonMembers

  // ---- What the object says ----

  // A member's own bytes, what is between members aside.
  datatype Core = Core(key: string, mid: string, value: string)

  function CoreOf(m: Member): Core { Core(m.key, m.mid, m.value) }

  // The members of other names, in order.
  function Others(ms: seq<Member>, name: string): seq<Core> {
    if ms == [] then []
    else (if NameOf(ms[0].key) == name then [] else [CoreOf(ms[0])]) + Others(ms[1..], name)
  }

  // What members named name hold, in order.
  function ValuesOf(ms: seq<Member>, name: string): seq<string> {
    if ms == [] then []
    else (if NameOf(ms[0].key) == name then [ms[0].value] else []) + ValuesOf(ms[1..], name)
  }

  // As many times v as there were values.
  function AllOf(values: seq<string>, v: string): (r: seq<string>)
    ensures |r| == |values| && forall i :: 0 <= i < |r| ==> r[i] == v
  {
    if values == [] then [] else [v] + AllOf(values[1..], v)
  }

  function Valued(values: seq<string>, value: Option<string>): seq<string> {
    if value.Some? then AllOf(values, value.value) else []
  }

  lemma SaysNext(m: Member, ms: seq<Member>, name: string)
    ensures Others([m] + ms, name) == (if NameOf(m.key) == name then [] else [CoreOf(m)]) + Others(ms, name)
    ensures ValuesOf([m] + ms, name) == (if NameOf(m.key) == name then [m.value] else []) + ValuesOf(ms, name)
  {
    assert ([m] + ms)[1..] == ms;
    hide NameOf;
  }

  lemma SaysNothing(name: string)
    ensures Others([], name) == [] && ValuesOf([], name) == []
  {
  }

  lemma IndentSays(sp: string, ms: seq<Member>, tail: string, name: string)
    ensures Others(Indent(sp, ms, tail).0, name) == Others(ms, name)
    ensures ValuesOf(Indent(sp, ms, tail).0, name) == ValuesOf(ms, name)
  {
    hide NameOf, Others, ValuesOf;
    if ms != [] {
      SaysNext(ms[0].(before := sp + ms[0].before), ms[1..], name);
      SaysNext(ms[0], ms[1..], name);
      assert [ms[0]] + ms[1..] == ms;
    }
  }

  lemma ValuedNext(v: string, values: seq<string>, value: Option<string>)
    ensures Valued([v] + values, value) == (if value.Some? then [value.value] else []) + Valued(values, value)
  {
    assert ([v] + values)[1..] == values;
  }

  lemma ValuedNone(value: Option<string>)
    ensures Valued([], value) == []
  {
  }

  lemma {:induction false} RestSays(ms: seq<Member>, tail: string, name: string, value: Option<string>)
    ensures var r := EditRest(ms, tail, name, value).0;
            Others(r, name) == Others(ms, name) && ValuesOf(r, name) == Valued(ValuesOf(ms, name), value)
  {
    hide NameOf, Others, ValuesOf, Valued, Indent;
    if ms == [] {
      SaysNothing(name);
      ValuedNone(value);
    } else {
      var m := ms[0];
      var (r, t) := EditRest(ms[1..], tail, name, value);
      RestSays(ms[1..], tail, name, value);
      assert [m] + ms[1..] == ms;
      SaysNext(m, ms[1..], name);
      SaysNext(m, r, name);
      ValuedNext(m.value, ValuesOf(ms[1..], name), value);
      hide EditRest;
      assert [] + Others(r, name) == Others(r, name) && [] + ValuesOf(ms[1..], name) == ValuesOf(ms[1..], name);
      assert [] + ValuesOf(r, name) == ValuesOf(r, name);
      EditRestStep(ms, tail, name, value);
      if NameOf(m.key) == name {
        if value.Some? {
          SaysNext(m.(value := value.value), r, name);
        } else {
          IndentSays(m.before, r, t, name);
        }
      }
    }
  }

  lemma EditRestStep(ms: seq<Member>, tail: string, name: string, value: Option<string>)
    requires ms != []
    ensures var (r, t) := EditRest(ms[1..], tail, name, value);
            EditRest(ms, tail, name, value) ==
            if NameOf(ms[0].key) != name then ([ms[0]] + r, t)
            else if value.Some? then ([ms[0].(value := value.value)] + r, t)
            else Indent(ms[0].before, r, t)
  {
    hide NameOf, Indent;
  }

  lemma FirstSays(m: Member, count: nat, rest: seq<Member>, tail: string, name: string, value: Option<string>)
    requires count == 1 ==> rest == []
    ensures var r := FirstEdited(m, count, rest, tail, name, value).0;
            && Others(r, name) == (if NameOf(m.key) == name then [] else [CoreOf(m)]) + Others(rest, name)
            && ValuesOf(r, name) ==
               (if NameOf(m.key) != name then [] else if value.Some? then [value.value] else []) + ValuesOf(rest, name)
  {
    hide NameOf, Others, ValuesOf;
    SaysNothing(name);
    SaysNext(m, rest, name);
    assert [] + Others(rest, name) == Others(rest, name) && [] + ValuesOf(rest, name) == ValuesOf(rest, name);
    if value.Some? {
      SaysNext(m.(value := value.value), rest, name);
    }
    if rest != [] {
      SaysNext(rest[0].(before := "", gap := m.gap), rest[1..], name);
      SaysNext(rest[0], rest[1..], name);
      assert [rest[0]] + rest[1..] == rest;
    }
  }

  lemma MembersSay(ms: seq<Member>, tail: string, name: string, value: Option<string>)
    ensures var r := EditMembers(ms, tail, name, value).0;
            Others(r, name) == Others(ms, name) && ValuesOf(r, name) == Valued(ValuesOf(ms, name), value)
  {
    hide NameOf, Others, ValuesOf, Valued, FirstEdited, EditRest;
    if ms == [] {
      SaysNothing(name);
      ValuedNone(value);
    } else {
      var (r, t) := EditRest(ms[1..], tail, name, value);
      RestSays(ms[1..], tail, name, value);
      NoRest(tail, name, value);
      FirstSays(ms[0], |ms|, r, t, name, value);
      assert [ms[0]] + ms[1..] == ms;
      SaysNext(ms[0], ms[1..], name);
      ValuedNext(ms[0].value, ValuesOf(ms[1..], name), value);
      assert [] + ValuesOf(ms[1..], name) == ValuesOf(ms[1..], name);
      assert [] + Valued(ValuesOf(ms[1..], name), value) == Valued(ValuesOf(ms[1..], name), value);
    }
  }

  lemma NoRest(tail: string, name: string, value: Option<string>)
    ensures EditRest([], tail, name, value) == ([], tail)
  {
  }

  lemma {:induction false} HasValues(ms: seq<Member>, name: string)
    ensures HasName(ms, name) <==> ValuesOf(ms, name) != []
  {
    hide NameOf;
    if ms != [] {
      HasValues(ms[1..], name);
      if HasName(ms[1..], name) {
        var i :| 0 <= i < |ms[1..]| && NameOf(ms[1..][i].key) == name;
        assert ms[i + 1] == ms[1..][i];
      }
      if HasName(ms, name) {
        var i :| 0 <= i < |ms| && NameOf(ms[i].key) == name;
        assert i > 0 ==> ms[1..][i - 1] == ms[i];
      }
    }
  }

  // What the file says once a member is set or cleared: the name holds the value
  // wherever it was, once if it was nowhere, or nothing; and the other members
  // are the same, byte for byte and in order.
  lemma SetMemberSays(content: string, name: string, value: Option<string>, outer: string)
    requires Parse(content).Some? && (value.Some? ==> IsValue(value.value)) && Spaces(outer)
    ensures var r := SetMember(content, name, value, outer);
            r.Some? && Parse(r.value).Some? &&
            var o, o' := Parse(content).value, Parse(r.value).value;
            && Others(o'.members, name) == Others(o.members, name)
            && ValuesOf(o'.members, name) ==
               (if value.None? then []
                else if ValuesOf(o.members, name) == [] then [value.value]
                else AllOf(ValuesOf(o.members, name), value.value))
            && o'.lead == o.lead && o'.after == o.after
  {
    hide *;
    SetMemberIs(content, name, value, outer);
    EditedSays(Parse(content).value, name, value, outer);
  }

  lemma EditedSays(o: Object, name: string, value: Option<string>, outer: string)
    ensures var o' := Edited(o, name, value, outer);
            && Others(o'.members, name) == Others(o.members, name)
            && ValuesOf(o'.members, name) ==
               (if value.None? then []
                else if ValuesOf(o.members, name) == [] then [value.value]
                else AllOf(ValuesOf(o.members, name), value.value))
            && o'.lead == o.lead && o'.after == o.after
  {
    HasValues(o.members, name);
    MembersSay(o.members, o.tail, name, value);
    SaysNothing(name);
    NameRoundTrip(name);
    hide Others, ValuesOf, EditMembers, NameOf, JsonString, HasName, AllOf;
    if value.Some? && !HasName(o.members, name) {
      var gap := if o.members == [] then "\n" + outer + "  " else o.members[0].gap;
      SaysNext(NewMember(gap, name, value.value), o.members, name);
      assert [NewMember(gap, name, value.value)] + [] == [NewMember(gap, name, value.value)];
      assert [] + Others(o.members, name) == Others(o.members, name);
      assert [value.value] + [] == [value.value];
    }
  }

  // ---- A value there already ----

  // The members with each value of the name changed, and nothing else.
  function SetAll(ms: seq<Member>, name: string, v: string): seq<Member> {
    if ms == [] then []
    else [if NameOf(ms[0].key) == name then ms[0].(value := v) else ms[0]] + SetAll(ms[1..], name, v)
  }

  lemma {:induction false} RestSet(ms: seq<Member>, tail: string, name: string, v: string)
    ensures EditRest(ms, tail, name, Some(v)) == (SetAll(ms, name, v), tail)
  {
    hide NameOf;
    if ms != [] {
      RestSet(ms[1..], tail, name, v);
    }
  }

  lemma EditedSets(o: Object, name: string, v: string, outer: string)
    requires HasName(o.members, name)
    ensures Edited(o, name, Some(v), outer) == o.(members := SetAll(o.members, name, v))
  {
    assert o.members != [];
    RestSet(o.members[1..], o.tail, name, v);
    hide NameOf, EditRest, HasName;
  }

  // Setting a name that is there changes its values and not another byte.
  lemma SetChangesValues(content: string, name: string, v: string, outer: string)
    requires Parse(content).Some? && IsValue(v) && Spaces(outer) && HasName(Parse(content).value.members, name)
    ensures var o := Parse(content).value;
            SetMember(content, name, Some(v), outer) == Some(Print(o.(members := SetAll(o.members, name, v))))
  {
    hide *;
    SetMemberIs(content, name, Some(v), outer);
    EditedSets(Parse(content).value, name, v, outer);
  }

  // ---- Set, then clear ----

  lemma {:induction false} RestWithout(ms: seq<Member>, tail: string, name: string)
    requires !HasName(ms, name)
    ensures EditRest(ms, tail, name, None) == (ms, tail)
  {
    hide NameOf;
    if ms != [] {
      assert NameOf(ms[0].key) != name;
      assert forall i :: 0 <= i < |ms[1..]| ==> ms[1..][i] == ms[i + 1];
      RestWithout(ms[1..], tail, name);
      assert [ms[0]] + ms[1..] == ms;
    }
  }

  lemma AddThenClear(o: Object, name: string, v: string, outer: string, outer': string)
    requires ObjectOk(o) && o.members != [] && !HasName(o.members, name)
    ensures Edited(Edited(o, name, Some(v), outer), name, None, outer') == o
  {
    var ms := o.members;
    var all := [NewMember(ms[0].gap, name, v)] + ms;
    OkNext(ms, true);
    FirstBefore(ms[0]);
    RestWithout(ms, o.tail, name);
    NameRoundTrip(name);
    hide NameOf, JsonString, HasName, MemberOk, MembersOk, EditRest;
    assert all[1..] == ms;
    assert ms[0].(before := "", gap := ms[0].gap) == ms[0];
    assert [ms[0]] + ms[1..] == ms;
    assert EditMembers(all, o.tail, name, None) == (ms, o.tail);
  }

  // A name set where it was not, in an object that has members, and then
  // cleared, leaves the text as it was, to the byte.
  lemma SetThenClear(content: string, name: string, v: string, outer: string, outer': string)
    requires Parse(content).Some? && IsValue(v) && Spaces(outer) && Spaces(outer')
    requires Parse(content).value.members != [] && !HasName(Parse(content).value.members, name)
    ensures var set' := SetMember(content, name, Some(v), outer);
            set'.Some? && SetMember(set'.value, name, None, outer') == Some(content)
  {
    hide *;
    var o := Parse(content).value;
    PrintsParse(content);
    SetMemberIs(content, name, Some(v), outer);
    var o' := Edited(o, name, Some(v), outer);
    SetMemberIs(Print(o'), name, None, outer');
    AddThenClear(o, name, v, outer, outer');
  }
}
