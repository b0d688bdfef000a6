// Clearing a member through setNestedKey (internal/skills/claudesync.go): what
// goes, what stays, and when more goes than the member asked for.
module JsonNestedClear {
  import opened Prelude
  import opened JsonScan
  import opened JsonObject
  import opened JsonEdit
  import opened JsonMembers
  import opened JsonSettings
  import opened JsonNested
  import opened JsonNestedEdit

  // Every member's own bytes, in order.
  function Cores(ms: seq<Member>): (cs: seq<Core>)
    ensures |cs| == |ms|
  {
    if ms == [] then [] else [CoreOf(ms[0])] + Cores(ms[1..])
  }

  function Without<T>(s: seq<T>, i: nat): seq<T>
    requires i < |s|
  {
    s[..i] + s[i + 1..]
  }

  // Nothing but member i is gone or another: the others have their bytes and
  // their order, and what came before and after the object is as it was.
  predicate OthersKept(o: Object, now: Object, i: nat)
    requires i < |o.members|
  {
    && now.lead == o.lead && now.after == o.after
    && (|| Cores(now.members) == Without(Cores(o.members), i)
        || (|now.members| == |o.members| && Without(Cores(now.members), i) == Without(Cores(o.members), i)))
  }

  // ---- Members named and others ----

  lemma {:induction false} OthersWithout(ms: seq<Member>, name: string)
    requires ValuesOf(ms, name) == []
    ensures Cores(ms) == Others(ms, name)
  {
    hide NameOf, CoreOf;
    if ms != [] {
      OthersWithout(ms[1..], name);
    }
  }

  lemma {:induction false} NamedAndOthers(ms: seq<Member>, name: string)
    ensures |ms| == |Others(ms, name)| + |ValuesOf(ms, name)|
  {
    hide NameOf, CoreOf;
    if ms != [] {
      NamedAndOthers(ms[1..], name);
    }
  }

  // The one member of its name taken out leaves the others.
  lemma {:induction false} OnlyOneTaken(ms: seq<Member>, i: nat, name: string)
    requires i < |ms| && NameOf(ms[i].key) == name && |ValuesOf(ms, name)| == 1
    ensures Others(ms, name) == Without(Cores(ms), i)
  {
    hide NameOf, CoreOf;
    var rest := ms[1..];
    if i == 0 {
      assert ValuesOf(rest, name) == [];
      OthersWithout(rest, name);
    } else {
      assert rest[i - 1] == ms[i];
      assert HasName(rest, name);
      HasValues(rest, name);
      OnlyOneTaken(rest, i - 1, name);
      assert Cores(ms) == [CoreOf(ms[0])] + Cores(rest);
      assert Without(Cores(ms), i) == [CoreOf(ms[0])] + Without(Cores(rest), i - 1);
    }
  }

  lemma {:induction false} CoresSet(ms: seq<Member>, i: nat, v: string)
    requires i < |ms|
    ensures Without(Cores(ms[i := ms[i].(value := v)]), i) == Without(Cores(ms), i)
  {
    var now := ms[i := ms[i].(value := v)];
    hide CoreOf;
    if i == 0 {
      assert now[1..] == ms[1..];
    } else {
      CoresSet(ms[1..], i - 1, v);
      assert now[1..] == ms[1..][i - 1 := ms[1..][i - 1].(value := v)];
      assert Without(Cores(now), i) == [CoreOf(now[0])] + Without(Cores(now[1..]), i - 1);
      assert Without(Cores(ms), i) == [CoreOf(ms[0])] + Without(Cores(ms[1..]), i - 1);
    }
  }

  // ---- The inner object cleared ----

  lemma ClearedAbsent(p: Object, inner: string, ind: string)
    requires !HasName(p.members, inner)
    ensures Edited(p, inner, None, ind) == p
  {
    hide NameOf, EditRest, HasName;
    if p.members != [] {
      NotFirst(p.members, inner);
      RestWithout(p.members[1..], p.tail, inner);
      assert [p.members[0]] + p.members[1..] == p.members;
    }
  }

  lemma NotFirst(ms: seq<Member>, name: string)
    requires ms != [] && !HasName(ms, name)
    ensures NameOf(ms[0].key) != name && !HasName(ms[1..], name)
  {
    hide NameOf;
    forall k | 0 <= k < |ms[1..]| ensures NameOf(ms[1..][k].key) != name {
      assert ms[1..][k] == ms[k + 1];
    }
  }

  // Clearing a name leaves the others, and nothing when there are none.
  lemma ClearedSays(p: Object, inner: string, ind: string)
    ensures var q := Edited(p, inner, None, ind);
            && ValuesOf(q.members, inner) == [] && Others(q.members, inner) == Others(p.members, inner)
            && (q.members == [] <==> Others(p.members, inner) == [])
  {
    hide *;
    EditedSays(p, inner, None, ind);
    var q := Edited(p, inner, None, ind);
    NamedAndOthers(q.members, inner);
    SaysNothing(inner);
  }

  lemma ClearedIsAnother(p: Object, inner: string, ind: string)
    requires HasName(p.members, inner)
    ensures Edited(p, inner, None, ind) != p
  {
    hide *;
    HasValues(p.members, inner);
    ClearedSays(p, inner, ind);
  }

  // What clearing comes to: nothing where there is nothing to clear, another
  // inner object, or no outer member of that name at all.
  lemma NestedClearIs(content: string, outer: string, inner: string, i: nat)
    requires Parse(content).Some? && i == LastMember(Parse(content).value.members, outer) < |Parse(content).value.members|
    requires Parse(Parse(content).value.members[i].value).Some?
    ensures var o := Parse(content).value;
            var p := Parse(o.members[i].value).value;
            var q := Edited(p, inner, None, LineIndent(content, o, i));
            && SetNestedKey(content, outer, inner, None) ==
               (if !HasName(p.members, inner) then Some(content)
                else if Others(p.members, inner) == [] then SetTopKey(content, outer, None)
                else Some(Print(WithValue(o, i, Print(q)))))
            && Parse(Print(WithValue(o, i, Print(q)))) == Some(WithValue(o, i, Print(q)))
            && Parse(Print(q)) == Some(q) && IsValue(Print(q))
  {
    hide *;
    var o := Parse(content).value;
    var raw := o.members[i].value;
    var p := Parse(raw).value;
    var ind := LineIndent(content, o, i);
    PrintsParse(content);
    OkObject(o);
    MemberOkAt(o.members, i);
    RawBegins(raw, i == 0, o.members[i]);
    NestedIs(content, outer, inner, None, i);
    InnerIsValue(raw, inner, None, ind);
    PrintsParse(raw);
    ClearedSays(p, inner, ind);
    var q := Edited(p, inner, None, ind);
    WithValueOk(o, i, Print(q));
    if HasName(p.members, inner) {
      ClearedIsAnother(p, inner, ind);
    } else {
      ClearedAbsent(p, inner, ind);
    }
  }

  // A member of an object cleared: the file reads as the object without it,
  // and nothing of another name within it or beside it is another. An outer
  // member with nothing else in it goes too, with every member of its name.
  lemma NestedClears(content: string, outer: string, inner: string, i: nat)
    requires Parse(content).Some? && i == LastMember(Parse(content).value.members, outer) < |Parse(content).value.members|
    requires Parse(Parse(content).value.members[i].value).Some?
    ensures var o := Parse(content).value;
            var p := Parse(o.members[i].value).value;
            var r := SetNestedKey(content, outer, inner, None);
            && r.Some? && Parse(r.value).Some?
            && var now := Parse(r.value).value;
            && (ValuesOf(p.members, inner) == [] ==> r.value == content)
            && (ValuesOf(p.members, inner) != [] && Others(p.members, inner) != [] ==>
                exists q ::
                  && now == WithValue(o, i, Print(q)) && r.value == Print(now) && Parse(Print(q)) == Some(q)
                  && ValuesOf(q.members, inner) == [] && Others(q.members, inner) == Others(p.members, inner)
                  && q.lead == p.lead && q.after == p.after)
            && (ValuesOf(p.members, inner) != [] && Others(p.members, inner) == [] ==>
                && Cores(now.members) == Others(o.members, outer) && !HasName(now.members, outer)
                && now.lead == o.lead && now.after == o.after)
  {
    hide *;
    var o := Parse(content).value;
    var p := Parse(o.members[i].value).value;
    var ind := LineIndent(content, o, i);
    var q := Edited(p, inner, None, ind);
    NestedClearIs(content, outer, inner, i);
    HasValues(p.members, inner);
    ClearedSays(p, inner, ind);
    EditedLead(p, inner, None, ind);
    TopCleared(content, outer);
  }

  lemma TopCleared(content: string, outer: string)
    requires Parse(content).Some?
    ensures var r := SetTopKey(content, outer, None);
            && r.Some? && Parse(r.value).Some?
            && var o, now := Parse(content).value, Parse(r.value).value;
            && Cores(now.members) == Others(o.members, outer) && !HasName(now.members, outer)
            && now.lead == o.lead && now.after == o.after
  {
    hide *;
    TopIs(content, outer, None);
    NothingBefore();
    SetMemberSays(content, outer, None, "");
    var now := Parse(SetTopKey(content, outer, None).value).value;
    OthersWithout(now.members, outer);
    HasValues(now.members, outer);
  }

  // Clearing leaves every other member of the file alone if and only if there
  // was nothing to clear, something else is left in the object, or the object
  // is the only member of its name.
  lemma OthersKeptIff(content: string, outer: string, inner: string, i: nat)
    requires Parse(content).Some? && i == LastMember(Parse(content).value.members, outer) < |Parse(content).value.members|
    requires Parse(Parse(content).value.members[i].value).Some?
    ensures var o := Parse(content).value;
            var p := Parse(o.members[i].value).value;
            var r := SetNestedKey(content, outer, inner, None);
            && r.Some? && Parse(r.value).Some?
            && (OthersKept(o, Parse(r.value).value, i) <==>
                ValuesOf(p.members, inner) == [] || Others(p.members, inner) != [] || |ValuesOf(o.members, outer)| == 1)
  {
    hide *;
    var o := Parse(content).value;
    var p := Parse(o.members[i].value).value;
    NestedClears(content, outer, inner, i);
    var now := Parse(SetNestedKey(content, outer, inner, None).value).value;
    LastOfNone(o.members, outer);
    if ValuesOf(p.members, inner) == [] {
      KeptItself(o, i);
    } else if Others(p.members, inner) != [] {
      forall q | now == WithValue(o, i, Print(q)) ensures OthersKept(o, now, i) {
        KeptWithValue(o, i, Print(q));
      }
    } else {
      KeptIffOnce(o, now, i, outer);
    }
  }

  lemma KeptItself(o: Object, i: nat)
    requires i < |o.members|
    ensures OthersKept(o, o, i)
  {
  }

  lemma KeptWithValue(o: Object, i: nat, v: string)
    requires i < |o.members|
    ensures OthersKept(o, WithValue(o, i, v), i)
  {
    CoresSet(o.members, i, v);
    hide Cores, Without;
  }

  lemma KeptIffOnce(o: Object, now: Object, i: nat, outer: string)
    requires i < |o.members| && NameOf(o.members[i].key) == outer
    requires Cores(now.members) == Others(o.members, outer) && now.lead == o.lead && now.after == o.after
    ensures OthersKept(o, now, i) <==> |ValuesOf(o.members, outer)| == 1
  {
    NamedAndOthers(o.members, outer);
    if |ValuesOf(o.members, outer)| == 1 {
      OnlyOneTaken(o.members, i, outer);
    }
    assert |Others(o.members, outer)| == |now.members|;
    assert HasName(o.members, outer);
    HasValues(o.members, outer);
    hide Cores, Others, ValuesOf, NameOf, HasName;
  }

  // ---- An object of a name that comes twice ----

  // A file with two members of one name, whatever the first holds.
  function Twice(outer: string, w: string, inner: string, v: string): Object {
    Object("", [NewMember("", outer, w), NewMember("", outer, NewObject(Some(""), inner, v))], "", "")
  }

  lemma TwiceSays(outer: string, w: string, inner: string, v: string)
    ensures var ms := Twice(outer, w, inner, v).members;
            |ValuesOf(ms, outer)| == 2 && Others(ms, outer) == [] && LastMember(ms, outer) == 1
  {
    NameRoundTrip(outer);
    var a, b := NewMember("", outer, w), NewMember("", outer, NewObject(Some(""), inner, v));
    assert Twice(outer, w, inner, v).members == [a] + [b];
    hide NameOf, JsonString, NewObject, Others, ValuesOf;
    SaysNothing(outer);
    assert [b] + [] == [b] && ([a] + [b])[1..] == [b];
    SaysNext(b, [], outer);
    SaysNext(a, [b], outer);
    assert LastMember([b], outer) == 0;
  }

  lemma NewMemberOk(name: string, v: string, first: bool)
    requires IsValue(v)
    ensures MemberOk(NewMember("", name, v), first)
  {
    JsonStringOk(name);
    ColonOk();
    hide JsonString, IsString, IsValue, MidOk;
  }

  lemma TwiceOk(outer: string, w: string, inner: string, v: string)
    requires IsValue(w) && IsValue(NewObject(Some(""), inner, v))
    ensures ObjectOk(Twice(outer, w, inner, v))
  {
    NewMemberOk(outer, w, true);
    NewMemberOk(outer, NewObject(Some(""), inner, v), false);
    NoneOk(false);
    hide MemberOk, MembersOk, NewMember, NewObject, IsValue;
    var obj := NewMember("", outer, NewObject(Some(""), inner, v));
    MembersNext(obj, [], false);
    MembersNext(NewMember("", outer, w), [obj] + [], true);
    assert [NewMember("", outer, w)] + ([obj] + []) == Twice(outer, w, inner, v).members;
  }

  lemma OnlyInner(q: Object, inner: string)
    requires |q.members| == 1 && NameOf(q.members[0].key) == inner
    ensures ValuesOf(q.members, inner) != [] && Others(q.members, inner) == []
  {
    HasValues(q.members, inner);
    NamedAndOthers(q.members, inner);
    assert HasName(q.members, inner);
    hide ValuesOf, Others, NameOf, HasName;
  }

  lemma NoGap()
    ensures Spaces("")
  {
  }

  // Clearing the one member of the second takes the first out of the file too.
  lemma FirstGoesToo(outer: string, w: string, inner: string, v: string)
    requires IsValue(w) && IsValue(v)
    ensures var o := Twice(outer, w, inner, v);
            var r := SetNestedKey(Print(o), outer, inner, None);
            && Parse(Print(o)) == Some(o) && o.members[0].value == w && o.members[0].key == JsonString(outer)
            && r.Some? && Parse(r.value).Some? && Parse(r.value).value.members == []
            && !OthersKept(o, Parse(r.value).value, 1)
  {
    hide *;
    var o := Twice(outer, w, inner, v);
    var q := NewInner(Some(""), inner, v);
    NoGap();
    NewObjectIs(Some(""), inner, v);
    NewInnerOk(Some(""), inner, v);
    ObjectIsValue(q);
    ParsesPrint(q);
    TwiceOk(outer, w, inner, v);
    ParsesPrint(o);
    TwiceSays(outer, w, inner, v);
    TwiceParts(outer, w, inner, v);
    OnlyInner(q, inner);
    NestedClears(Print(o), outer, inner, 1);
    OthersKeptIff(Print(o), outer, inner, 1);
  }

  lemma TwiceParts(outer: string, w: string, inner: string, v: string)
    ensures var ms := Twice(outer, w, inner, v).members;
            |ms| == 2 && ms[0].value == w && ms[0].key == JsonString(outer) && ms[1].value == NewObject(Some(""), inner, v)
  {
    hide JsonString, NewObject;
  }
}
