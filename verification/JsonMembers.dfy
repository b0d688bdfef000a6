// A member set or cleared (internal/skills/claudesync.go setTopKey, setMember):
// the edit by offset is the edit of the object, and its text reads as that.
module JsonMembers {
  import opened Prelude
  import Text
  import opened JsonScan
  import opened JsonObject
  import opened JsonEdit

  // ---- The edit of a text ----

  predicate Named(es: seq<Entry>, name: string) { exists i :: 0 <= i < |es| && es[i].name == name }

  lemma OpenInside(o: Object)
    ensures Opening(o) <= |Print(o)|
    ensures Print(o)[..Opening(o)] == o.lead + "{"
    ensures Print(o) == o.lead + "{" + FullText(o.members, o.tail, o.after)
    ensures Print(o)[Opening(o)..] == FullText(o.members, o.tail, o.after)
  {
    var head, rest := o.lead + "{", FullText(o.members, o.tail, o.after);
    assert Print(o) == head + rest;
    hide Print, FullText;
  }

  lemma FirstInside(o: Object)
    requires o.members != [] && MemberOk(o.members[0], true)
    ensures var e := EntriesOf(o)[0];
            && Opening(o) <= e.key <= |Print(o)|
            && Print(o)[Opening(o)..e.key] == o.members[0].gap
  {
    var m, ms := o.members[0], o.members[1..];
    var pre := o.lead + "{";
    FirstBefore(m);
    OpenInside(o);
    assert [m] + ms == o.members;
    FullNext(m, ms, o.tail, o.after);
    EntryParts(pre, m, true, RestText(ms, o.tail, o.after));
    hide Print, FullText, MemberText, RestText, MemberOk;
    var e := EntryAt(m, true, |pre|);
    assert Print(o)[..e.key] == pre + ("" + "" + m.gap);
    assert Print(o)[Opening(o)..e.key] == Print(o)[..e.key][|pre|..];
  }

  // setMember: none when the text is not an object.
  function SetMember(content: string, name: string, value: Option<string>, outer: string): Option<string> {
    var o := Parse(content);
    if o.None? then None
    else
      PrintsParse(content);
      OpenInside(o.value);
      AddInside(o.value);
      var entries, open := EntriesOf(o.value), Opening(o.value);
      if Named(entries, name) || value.None? then Some(EditText(content, entries, open, name, value))
      else Some(AddMember(content, open, entries, name, value.value, outer))
  }

  function SetTopKey(content: string, name: string, value: Option<string>): Option<string> {
    SetMember(content, name, value, "")
  }

  lemma AddInside(o: Object)
    requires ObjectOk(o)
    ensures EntriesOf(o) != [] ==> Opening(o) <= EntriesOf(o)[0].key <= |Print(o)|
  {
    if o.members != [] {
      FirstInside(o);
    }
    hide Print, MemberOk;
  }

  // ---- The edit of the text is the edit of the object ----

  lemma {:induction false} NamedIs(ms: seq<Member>, first: bool, pos: nat, name: string)
    ensures Named(EntriesFrom(ms, first, pos), name) <==> HasName(ms, name)
    ensures forall i :: 0 <= i < |ms| ==> EntriesFrom(ms, first, pos)[i].name == NameOf(ms[i].key)
  {
    hide NameOf;
    if ms != [] {
      var e := EntryAt(ms[0], first, pos);
      NamedIs(ms[1..], false, e.to, name);
      var es := EntriesFrom(ms, first, pos);
      forall i | 0 <= i < |ms| ensures es[i].name == NameOf(ms[i].key) {
        if i > 0 {
          assert es[i] == EntriesFrom(ms[1..], false, e.to)[i - 1];
        }
      }
    }
  }

  lemma RestCount(ms: seq<Member>, tail: string, name: string, value: Option<string>)
    requires ms == []
    ensures EditRest(ms, tail, name, value) == ([], tail)
  {
  }

  // Editing the text edits the members.
  lemma TextEdits(o: Object, name: string, value: Option<string>)
    requires ObjectOk(o) && (value.Some? ==> IsValue(value.value))
    ensures var (ms, tail) := EditMembers(o.members, o.tail, name, value);
            EditText(Print(o), EntriesOf(o), Opening(o), name, value) == Print(o.(members := ms, tail := tail))
  {
    OpenInside(o);
    var (ms, tail) := EditMembers(o.members, o.tail, name, value);
    OpenInside(o.(members := ms, tail := tail));
    if o.members != [] {
      hide Print, FullText, EditMembers, EditText, IsValue, Spaces;
      NonemptyEdits(o.lead + "{", o.members, o.tail, o.after, name, value);
      Regroup(o);
      Regroup(o.(members := ms, tail := tail));
    }
  }

  lemma Regroup(o: Object)
    ensures Print(o) == (o.lead + "{") + FullText(o.members, o.tail, o.after)
  {
  }

  lemma NonemptyEdits(pre: string, ms: seq<Member>, tail: string, after: string, name: string, value: Option<string>)
    requires ms != [] && MembersOk(ms, true) && Spaces(tail) && (value.Some? ==> IsValue(value.value))
    ensures var (r, t) := EditMembers(ms, tail, name, value);
            EditText(pre + FullText(ms, tail, after), EntriesFrom(ms, true, |pre|), |pre|, name, value) == pre + FullText(r, t, after)
  {
    hide *;
    var m := ms[0];
    var (r, t) := EditRest(ms[1..], tail, name, value);
    OkNext(ms, true);
    FirstBefore(m);
    RestOk(ms[1..], tail, name, value);
    RestCount([], tail, name, value);
    EndsAt(pre, m, true);
    RestEdits(pre + MemberText(m, true), ms[1..], tail, after, name, value);
    FullNext(m, ms[1..], tail, after);
    assert [m] + ms[1..] == ms;
    Assoc(pre, MemberText(m, true), RestText(ms[1..], tail, after));
    FirstEdits(pre, m, |ms|, r, t, after, name, value);
    Unfolded(pre + FullText(ms, tail, after), ms, tail, |pre|, name, value);
  }

  // The edit of the first member, after that of the others.
  lemma Unfolded(text: string, ms: seq<Member>, tail: string, open: nat, name: string, value: Option<string>)
    requires ms != []
    ensures var (r, t) := EditRest(ms[1..], tail, name, value);
            EditMembers(ms, tail, name, value) == FirstEdited(ms[0], |ms|, r, t, name, value)
    ensures var e := EntryAt(ms[0], true, open);
            var t := EditRestText(text, EntriesFrom(ms[1..], false, e.to), name, value);
            EditText(text, EntriesFrom(ms, true, open), open, name, value) ==
            if e.name == name && EntryIn(e, t) && open <= |t| then EditAt(t, e, 0, |ms|, open, value) else t
  {
    hide EditRest, FirstEdited, EditRestText, EditAt, EntryIn, EntryAt;
    var es := EntriesFrom(ms, true, open);
    assert es[0] == EntryAt(ms[0], true, open) && es[1..] == EntriesFrom(ms[1..], false, es[0].to);
  }

  lemma AddsText(o: Object, name: string, v: string, outer: string)
    requires ObjectOk(o) && Spaces(outer)
    ensures AddInsideOk(o)
    ensures AddMember(Print(o), Opening(o), EntriesOf(o), name, v, outer) == Print(AddTo(o, name, v, outer))
  {
    OpenInside(o);
    AddInside(o);
    Regroup(AddTo(o, name, v, outer));
    if o.members == [] {
      CloseTrims(o);
      hide Print, JsonString, Spaces, Text.TrimStart;
      EmptyAdds(o.lead + "{", name, v, outer, o.after);
    } else {
      FirstInside(o);
      OkNext(o.members, true);
      FirstBefore(o.members[0]);
      hide Print, JsonString, Spaces, MemberOk;
      FullAdds(o.lead + "{", o.members, o.tail, o.after, name, v);
    }
  }

  predicate AddInsideOk(o: Object) {
    Opening(o) <= |Print(o)| && (EntriesOf(o) != [] ==> Opening(o) <= EntriesOf(o)[0].key <= |Print(o)|)
  }

  lemma CloseTrims(o: Object)
    requires ObjectOk(o) && o.members == []
    ensures Text.TrimStart(FullText(o.members, o.tail, o.after), " \t\r\n") == "}" + o.after
  {
    FullNone(o.tail, o.after);
    assert o.tail + "}" + o.after == o.tail + ("}" + o.after);
    hide FullText, Spaces;
    TrimSpaces(o.tail, " \t\r\n", "}" + o.after);
  }

  lemma EmptyAdds(pre: string, name: string, v: string, outer: string, after: string)
    ensures pre + "\n" + outer + "  " + (JsonString(name) + ": " + v) + "\n" + outer + ("}" + after) ==
            pre + FullText([NewMember("\n" + outer + "  ", name, v)], "\n" + outer, after)
  {
    var m := NewMember("\n" + outer + "  ", name, v);
    FullNext(m, [], "\n" + outer, after);
    assert [m] + [] == [m];
    RestNone("\n" + outer, after);
    hide JsonString;
  }

  lemma FullAdds(pre: string, ms: seq<Member>, tail: string, after: string, name: string, v: string)
    requires ms != [] && ms[0].before == ""
    ensures pre + ms[0].gap + (JsonString(name) + ": " + v) + "," + FullText(ms, tail, after) ==
            pre + FullText([NewMember(ms[0].gap, name, v)] + ms, tail, after)
  {
    hide *;
    FullNext(NewMember(ms[0].gap, name, v), ms, tail, after);
    CommaText(ms, tail, after);
    NewText(pre, ms[0].gap, name, v, FullText(ms, tail, after));
  }

  lemma NewText(pre: string, gap: string, name: string, v: string, rest: string)
    ensures pre + gap + (JsonString(name) + ": " + v) + "," + rest == pre + (MemberText(NewMember(gap, name, v), true) + ("," + rest))
  {
    hide JsonString;
  }

  // A first member after a comma.
  lemma CommaText(ms: seq<Member>, tail: string, after: string)
    requires ms != [] && ms[0].before == ""
    ensures RestText(ms, tail, after) == "," + FullText(ms, tail, after)
  {
    hide *;
    RestParts(ms, tail, after);
    FullNext(ms[0], ms[1..], tail, after);
    assert [ms[0]] + ms[1..] == ms;
    OwnText(ms[0], RestText(ms[1..], tail, after));
  }

  lemma OwnText(m: Member, rest: string)
    requires m.before == ""
    ensures m.before + ([','] + (m.gap + (m.key + m.mid + m.value + rest))) == "," + (MemberText(m, true) + rest)
  {
  }

  lemma AddedOk(o: Object, name: string, v: string, outer: string)
    requires ObjectOk(o) && IsValue(v) && Spaces(outer)
    ensures ObjectOk(AddTo(o, name, v, outer))
  {
    JsonStringOk(name);
    ColonOk();
    hide JsonString, IsValue, IsString, MidOk;
    var gap := if o.members == [] then "\n" + outer + "  " else o.members[0].gap;
    var m := NewMember(gap, name, v);
    if o.members != [] {
      OkNext(o.members, true);
    }
    assert Spaces(gap);
    assert MemberOk(m, true);
    hide MemberOk;
    MembersNext(m, o.members, true);
    if o.members != [] {
      FirstToNext(o.members);
    } else {
      NoneOk(false);
      assert [m] + [] == [m];
    }
  }

  lemma ColonOk()
    ensures MidOk(": ") && Spaces("")
  {
    NothingBefore();
    assert Spaces(" ");
    MidOkOf("", " ");
    assert "" + ":" + " " == ": ";
  }

  lemma FirstToNext(ms: seq<Member>)
    requires ms != [] && MembersOk(ms, true)
    ensures MembersOk(ms, false)
  {
    hide IsString, IsValue, MidOk, Spaces;
  }

  lemma EditedOk(o: Object, name: string, value: Option<string>)
    requires ObjectOk(o) && (value.Some? ==> IsValue(value.value))
    ensures var (ms, tail) := EditMembers(o.members, o.tail, name, value);
            ObjectOk(o.(members := ms, tail := tail))
  {
    var ms := o.members;
    if ms == [] {
      NoneOk(true);
    } else {
      var (rest, t) := EditRest(ms[1..], o.tail, name, value);
      OkNext(ms, true);
      RestOk(ms[1..], o.tail, name, value);
      NoneOk(true);
      FirstEditedOk(ms[0], |ms|, rest, t, name, value);
      hide EditRest, FirstEdited, MemberOk, MembersOk, IsValue, Spaces;
    }
  }

  lemma FirstEditedOk(m: Member, count: nat, rest: seq<Member>, tail: string, name: string, value: Option<string>)
    requires MemberOk(m, true) && MembersOk(rest, false) && Spaces(tail) && (value.Some? ==> IsValue(value.value))
    ensures var (r, t) := FirstEdited(m, count, rest, tail, name, value);
            MembersOk(r, true) && Spaces(t)
  {
    NoneOk(true);
    GapOk(m);
    hide MemberOk, MembersOk, IsValue, Spaces, NameOf;
    MembersNext(m, rest, true);
    if value.Some? {
      ValueSetOk(m, true, value.value);
      MembersNext(m.(value := value.value), rest, true);
    }
    if rest != [] {
      OkNext(rest, false);
      NextToFirst(rest[0], m.gap);
      MembersNext(rest[0].(before := "", gap := m.gap), rest[1..], true);
    }
  }

  lemma GapOk(m: Member)
    requires MemberOk(m, true)
    ensures Spaces(m.gap)
  {
  }

  lemma NextToFirst(m: Member, gap: string)
    requires MemberOk(m, false) && Spaces(gap)
    ensures MemberOk(m.(before := "", gap := gap), true)
  {
    hide IsString, IsValue, MidOk;
  }

  // The text set or cleared reads as the object set or cleared, and is well
  // formed.
  lemma SetMemberIs(content: string, name: string, value: Option<string>, outer: string)
    requires Parse(content).Some? && (value.Some? ==> IsValue(value.value)) && Spaces(outer)
    ensures var o := Edited(Parse(content).value, name, value, outer);
            SetMember(content, name, value, outer) == Some(Print(o)) && ObjectOk(o) && Parse(Print(o)) == Some(o)
  {
    var o := Parse(content).value;
    PrintsParse(content);
    NamedIs(o.members, true, Opening(o), name);
    TextEdits(o, name, value);
    EditedOk(o, name, value);
    if value.Some? {
      AddsText(o, name, value.value, outer);
      AddedOk(o, name, value.value, outer);
    }
    hide Print, Parse, ObjectOk, EditMembers, EditText, AddTo, AddMember, IsValue, Spaces, HasName, Named;
    ParsesPrint(Edited(o, name, value, outer));
  }
}
