// The editor's loops over members and offsets (internal/skills/claudesync.go
// parseObject, setMember, setNestedKey).
module JsonEditor {
  import opened Prelude
  import opened JsonScan
  import opened JsonObject
  import opened JsonEdit
  import opened JsonMembers
  import opened JsonSettings
  import opened JsonNested
  import opened JsonNestedEdit

  // Members read so far, before what the rest reads as.
  function Onto(done: seq<Member>, more: Parsed<seq<Member>>): Parsed<seq<Member>> {
    if more.Bad? then Bad else Good(done + more.value, more.rest)
  }

  lemma OntoNext(done: seq<Member>, m: Member, more: Parsed<seq<Member>>)
    ensures Onto(done, Cons(m, more)) == Onto(done + [m], more)
  {
    if more.Good? {
      assert done + ([m] + more.value) == done + [m] + more.value;
    }
  }

  lemma OntoNone(more: Parsed<seq<Member>>)
    ensures Onto([], more) == more
  {
    if more.Good? {
      assert [] + more.value == more.value;
    }
  }

  lemma OneEntry(m: Member, first: bool, pos: nat)
    ensures EntriesFrom([] + [m], first, pos) == EntriesFrom([], first, pos) + [EntryAt(m, first, pos)]
    ensures |MembersText([], first)| == 0
  {
    assert [] + [m] == [m] && [m][1..] == [];
    hide EntryAt;
  }

  lemma EntriesCons(m: Member, ms: seq<Member>, first: bool, pos: nat)
    ensures EntriesFrom([m] + ms, first, pos) == [EntryAt(m, first, pos)] + EntriesFrom(ms, false, EntryAt(m, first, pos).to)
  {
    assert ([m] + ms)[1..] == ms;
    hide EntryAt;
  }

  lemma {:induction false} EntriesNext(ms: seq<Member>, first: bool, pos: nat, m: Member)
    requires MembersOk(ms, first)
    ensures EntriesFrom(ms + [m], first, pos) ==
            EntriesFrom(ms, first, pos) + [EntryAt(m, first && ms == [], pos + |MembersText(ms, first)|)]
    decreases |ms|
  {
    hide *;
    if ms == [] {
      OneEntry(m, first, pos);
    } else {
      OkNext(ms, first);
      if first {
        FirstBefore(ms[0]);
      }
      LengthOf(ms[0], first, pos);
      TextLength(ms, first);
      EntriesNext(ms[1..], false, EntryAt(ms[0], first, pos).to, m);
      EntriesCons(ms[0], ms[1..] + [m], first, pos);
      EntriesCons(ms[0], ms[1..], first, pos);
      assert ms + [m] == [ms[0]] + (ms[1..] + [m]) && ms == [ms[0]] + ms[1..];
    }
  }

  lemma LengthOf(m: Member, first: bool, pos: nat)
    requires first ==> m.before == ""
    ensures EntryAt(m, first, pos).to == pos + |MemberText(m, first)|
  {
    hide NameOf;
  }

  lemma {:induction false} OkAppend(ms: seq<Member>, first: bool, m: Member)
    requires MembersOk(ms, first) && MemberOk(m, first && ms == [])
    ensures MembersOk(ms + [m], first)
  {
    if ms == [] {
      assert ms + [m] == [m] + [];
      NoneOk(false);
      hide MemberOk;
      MembersNext(m, [], first);
    } else {
      OkNext(ms, first);
      hide MemberOk, MembersOk;
      OkAppend(ms[1..], false, m);
      MembersNext(ms[0], ms[1..] + [m], first);
      assert ms + [m] == [ms[0]] + (ms[1..] + [m]);
    }
  }

  lemma OneText(m: Member, first: bool)
    ensures MembersText([m], first) == MemberText(m, first)
  {
    assert [m][1..] == [];
    hide MemberText;
    assert MemberText(m, first) + "" == MemberText(m, first);
  }

  // One turn of the decoder: the member from s on, and the text after it.
  lemma TurnReads(s: string, first: bool)
    requires SpaceRun(s) < |s| && s[SpaceRun(s)] != '}' && (first || s[SpaceRun(s)] == ',')
    ensures var n := SpaceRun(s);
            var m := if first then ReadMember("", s) else ReadMember(s[..n], s[n + 1..]);
            && ReadMembers(s, first) == (if m.Bad? then Bad else Cons(m.value, ReadMembers(m.rest, false)))
            && (m.Good? ==> MemberOk(m.value, first) && s == MemberText(m.value, first) + m.rest)
  {
    hide *;
    var n := SpaceRun(s);
    NothingBefore();
    if first {
      ReadFirst(s);
      if ReadMember("", s).Good? {
        ReadMemberOk("", s);
        MemberSplits(ReadMember("", s).value, true, ReadMember("", s).rest);
        NowFirstOk(ReadMember("", s).value);
      }
    } else {
      ReadNext(s);
      SplitAt(s, n);
      if ReadMember(s[..n], s[n + 1..]).Good? {
        ReadMemberOk(s[..n], s[n + 1..]);
        MemberSplits(ReadMember(s[..n], s[n + 1..]).value, false, ReadMember(s[..n], s[n + 1..]).rest);
      }
    }
    SeparatorText(s, n);
  }

  lemma SeparatorText(s: string, n: nat)
    requires n < |s|
    ensures s[n] == ',' ==> s == s[..n] + ([','] + s[n + 1..])
  {
  }

  lemma NowFirstOk(m: Member)
    requires MemberOk(m, false) && m.before == ""
    ensures MemberOk(m, true)
  {
  }

  lemma StopsReading(s: string, first: bool)
    requires SpaceRun(s) == |s| || s[SpaceRun(s)] == '}' || (!first && s[SpaceRun(s)] != ',')
    ensures ReadMembers(s, first) == if SpaceRun(s) < |s| && s[SpaceRun(s)] == '}' then Good([], s) else Bad
  {
    hide SpaceRun, ReadMember;
  }

  method ReadEntries(content: string, open: nat) returns (ok: bool, entries: seq<Entry>)
    requires open <= |content|
    ensures ok == ReadMembers(content[open..], true).Good?
    ensures ok ==> entries == EntriesFrom(ReadMembers(content[open..], true).value, true, open)
  {
    hide *;
    entries := [];
    var pos := open;
    ghost var done: seq<Member> := [];
    ghost var whole := ReadMembers(content[open..], true);
    OntoNone(whole);
    NoEntries(open);
    NoneOk(true);
    while true
      invariant open <= pos <= |content|
      invariant MembersOk(done, true) && (done == [] <==> |entries| == 0)
      invariant pos == open + |MembersText(done, true)|
      invariant whole == Onto(done, ReadMembers(content[pos..], done == []))
      invariant entries == EntriesFrom(done, true, open)
      decreases |content| - pos
    {
      var first := |entries| == 0;
      var s := content[pos..];
      var n := SpaceRun(s);
      if n == |s| || s[n] == '}' || (!first && s[n] != ',') {
        StopsReading(s, first);
        OntoEnd(done, ReadMembers(s, first));
        return n < |s| && s[n] == '}', entries;
      }
      TurnReads(s, first);
      var m := if first then ReadMember("", s) else ReadMember(s[..n], s[n + 1..]);
      if m.Bad? {
        OntoEnd(done, ReadMembers(s, first));
        return false, entries;
      }
      OntoNext(done, m.value, ReadMembers(m.rest, false));
      EntriesNext(done, true, open, m.value);
      OkAppend(done, true, m.value);
      TextAppend(done, [m.value], true);
      OneText(m.value, first);
      TextSome(m.value, first);
      entries := entries + [EntryAt(m.value, first, pos)];
      done := done + [m.value];
      pos := |content| - |m.rest|;
      assert content[pos..] == m.rest;
    }
  }

  lemma NoEntries(pos: nat)
    ensures EntriesFrom([], true, pos) == [] && MembersText([], true) == ""
  {
  }

  lemma OntoEnd(done: seq<Member>, more: Parsed<seq<Member>>)
    ensures Onto(done, more).Good? == more.Good?
    ensures more.Good? && more.value == [] ==> Onto(done, more).value == done
  {
    assert done + [] == done;
  }

  lemma TextSome(m: Member, first: bool)
    requires MemberOk(m, first)
    ensures MemberText(m, first) != ""
  {
    StringFirst(m.key);
    hide IsString, IsValue, MidOk, Spaces;
  }

  method ParseObject(content: string) returns (ok: bool, open: nat, entries: seq<Entry>)
    ensures ok == Parse(content).Some?
    ensures ok ==> open == Opening(Parse(content).value) && entries == EntriesOf(Parse(content).value)
  {
    hide ReadPast, ReadMembers, EntriesFrom, SpaceRun;
    var lead := ReadPast(content, '{');
    open, entries := 0, [];
    if lead.Bad? {
      return false, open, entries;
    }
    ReadPastSplits(content, '{');
    open := |content| - |lead.rest|;
    assert content[open..] == lead.rest;
    ok, entries := ReadEntries(content, open);
    if ok {
      CloseFound(lead.rest);
    }
  }

  // Members are read up to their object's closing brace.
  lemma CloseFound(s: string)
    requires ReadMembers(s, true).Good?
    ensures ReadPast(ReadMembers(s, true).rest, '}').Good?
  {
    Closes(s, true);
  }

  lemma {:induction false} Closes(s: string, first: bool)
    requires ReadMembers(s, first).Good?
    ensures var rest := ReadMembers(s, first).rest;
            SpaceRun(rest) < |rest| && rest[SpaceRun(rest)] == '}'
    decreases |s|, if first then 1 else 0
  {
    var n := SpaceRun(s);
    if s[n] != '}' {
      var m := if first then ReadMember("", s) else ReadMember(s[..n], s[n + 1..]);
      hide SpaceRun, ReadMember;
      Closes(m.rest, false);
    }
  }

  // ---- The loop of the edit ----

  lemma {:induction false} EntriesDrop(ms: seq<Member>, first: bool, pos: nat, i: nat)
    requires i < |ms|
    ensures EntriesFrom(ms, first, pos)[i + 1..] == EntriesFrom(ms[i + 1..], false, EntriesFrom(ms, first, pos)[i].to)
    decreases |ms|
  {
    hide *;
    EntriesCons(ms[0], ms[1..], first, pos);
    assert [ms[0]] + ms[1..] == ms;
    if i > 0 {
      EntriesDrop(ms[1..], false, EntryAt(ms[0], first, pos).to, i - 1);
      assert ms[1..][i..] == ms[i + 1..];
      assert EntriesFrom(ms, first, pos)[i + 1..] == EntriesFrom(ms[1..], false, EntryAt(ms[0], first, pos).to)[i..];
    }
  }

  // The entry the loop comes to is where it was: what is done is after it.
  lemma EntryStays(o: Object, i: nat, name: string, value: Option<string>)
    requires ObjectOk(o) && i < |o.members|
    ensures i < |EntriesOf(o)| && Opening(o) <= |EditRestText(Print(o), EntriesOf(o)[i + 1..], name, value)|
    ensures EntryIn(EntriesOf(o)[i], EditRestText(Print(o), EntriesOf(o)[i + 1..], name, value))
  {
    var m := o.members[i];
    var pre := Ahead(o, i) + MemberText(m, i == 0);
    OkObject(o);
    MemberOkAt(o.members, i);
    EntryIs(o.members, true, o.lead + "{", i);
    AheadLength(o);
    EntriesDrop(o.members, true, Opening(o), i);
    SameObject(o, i);
    PrintAround(o, i, m);
    Assoc(Ahead(o, i), MemberText(m, i == 0), RestText(o.members[i + 1..], o.tail, o.after));
    EndsAt(Ahead(o, i), m, i == 0);
    EntryParts(Ahead(o, i), m, i == 0, "");
    RestEdits(pre, o.members[i + 1..], o.tail, o.after, name, value);
    AheadOpens(o, i);
    hide *;
    EntryBefore(EntriesOf(o)[i], pre, EditRestText(Print(o), EntriesOf(o)[i + 1..], name, value));
  }

  lemma SameObject(o: Object, i: nat)
    requires i < |o.members|
    ensures o.(members := o.members[i := o.members[i]]) == o
  {
    assert o.members[i := o.members[i]] == o.members;
  }

  lemma AheadOpens(o: Object, i: nat)
    requires i <= |o.members|
    ensures Opening(o) <= |Ahead(o, i)|
  {
    hide MembersText;
  }

  lemma EntryBefore(e: Entry, pre: string, t: string)
    requires e.prev <= e.key <= e.from <= e.to == |pre| <= |t|
    ensures EntryIn(e, t)
  {
  }

  lemma RestStep(text: string, es: seq<Entry>, name: string, value: Option<string>)
    requires es != [] && EntryIn(es[0], EditRestText(text, es[1..], name, value))
    ensures var t := EditRestText(text, es[1..], name, value);
            EditRestText(text, es, name, value) == if es[0].name == name then EditAt(t, es[0], 1, 2, 0, value) else t
  {
    hide EditAt, EntryIn;
  }

  lemma LaterAlike(text: string, e: Entry, i: nat, count: nat, open: nat, value: Option<string>)
    requires EntryIn(e, text) && open <= |text| && i > 0
    ensures EditAt(text, e, i, count, open, value) == EditAt(text, e, 1, 2, 0, value)
  {
  }

  lemma WholeStep(text: string, es: seq<Entry>, open: nat, name: string, value: Option<string>)
    requires es != [] && EntryIn(es[0], EditRestText(text, es[1..], name, value))
    requires open <= |EditRestText(text, es[1..], name, value)|
    ensures var t := EditRestText(text, es[1..], name, value);
            EditText(text, es, open, name, value) == if es[0].name == name then EditAt(t, es[0], 0, |es|, open, value) else t
  {
    hide EditAt, EntryIn;
  }

  lemma NothingEdited(text: string, open: nat, name: string, value: Option<string>)
    ensures EditRestText(text, [], name, value) == text && EditText(text, [], open, name, value) == text
  {
  }

  method EditMember(content: string, name: string, value: Option<string>, outer: string) returns (r: Option<string>)
    ensures r == SetMember(content, name, value, outer)
  {
    hide *;
    var ok, open, entries := ParseObject(content);
    SetsBy(content, name, value, outer);
    if !ok {
      return None;
    }
    ghost var o := Parse(content).value;
    PrintsParse(content);
    CountsAlike(o);
    NothingEdited(content, open, name, value);
    var out := content;
    var found := false;
    var i := |entries|;
    assert entries[i..] == [];
    while i > 0
      invariant 0 <= i <= |entries|
      invariant out == if i == 0 then EditText(content, entries, open, name, value) else EditRestText(content, entries[i..], name, value)
      invariant found <==> exists k :: i <= k < |entries| && entries[k].name == name
    {
      i := i - 1;
      EntryStays(o, i, name, value);
      assert entries[i..][0] == entries[i] && entries[i..][1..] == entries[i + 1..];
      if i > 0 {
        RestStep(content, entries[i..], name, value);
        LaterAlike(out, entries[i], i, |entries|, open, value);
      } else {
        assert entries[0..] == entries;
        WholeStep(content, entries, open, name, value);
      }
      if entries[i].name == name {
        found := true;
        out := EditAt(out, entries[i], i, |entries|, open, value);
      }
    }
    NamedBy(entries, name);
    if found || value.None? {
      return Some(out);
    }
    r := Some(AddMember(content, open, entries, name, value.value, outer));
  }

  lemma NamedBy(es: seq<Entry>, name: string)
    ensures Named(es, name) <==> exists k :: 0 <= k < |es| && es[k].name == name
  {
  }

  lemma CountsAlike(o: Object)
    ensures |EntriesOf(o)| == |o.members|
  {
  }

  lemma SetsBy(content: string, name: string, value: Option<string>, outer: string)
    ensures Parse(content).None? ==> SetMember(content, name, value, outer) == None
    ensures Parse(content).Some? ==>
              var entries, open := EntriesOf(Parse(content).value), Opening(Parse(content).value);
              && open <= |content| && (entries != [] ==> open <= entries[0].key <= |content|)
              && SetMember(content, name, value, outer) ==
                 if Named(entries, name) || value.None? then Some(EditText(content, entries, open, name, value))
                 else Some(AddMember(content, open, entries, name, value.value, outer))
  {
    if Parse(content).Some? {
      PrintsParse(content);
      OpenInside(Parse(content).value);
      AddInside(Parse(content).value);
    }
    hide Parse, EntriesOf, Opening, EditText, AddMember, Named;
  }

  // The last entry named outer, by the loop that looks for it.
  method FindLast(entries: seq<Entry>, outer: string) returns (at: nat)
    ensures at == LastNamed(entries, outer)
  {
    at := |entries|;
    for i := 0 to |entries|
      invariant at == |entries| || (at < i && entries[at].name == outer)
      invariant forall k :: 0 <= k < i && (at == |entries| || k > at) ==> entries[k].name != outer
    {
      if entries[i].name == outer {
        at := i;
      }
    }
  }
}
