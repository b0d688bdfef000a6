// Setting and clearing members of a JSON object by offset (internal/skills/
// claudesync.go setMember), and the same on the object as members.
module JsonEdit {
  import opened Prelude
  import Text
  import opened JsonScan
  import opened JsonObject

  // ---- By offset ----

  // A member by where it is: prev at its comma (the first at its key), key at
  // its key's quote, from and to around its value.
  datatype Entry = Entry(name: string, prev: nat, key: nat, from: nat, to: nat)

  function EntryAt(m: Member, first: bool, pos: nat): Entry {
    var key := pos + |m.before| + (if first then 0 else 1) + |m.gap|;
    var from := key + |m.key| + |m.mid|;
    Entry(NameOf(m.key), if first then key else pos + |m.before|, key, from, from + |m.value|)
  }

  // The members of a text from pos on.
  function EntriesFrom(ms: seq<Member>, first: bool, pos: nat): (es: seq<Entry>)
    ensures |es| == |ms|
  {
    if ms == [] then [] else [EntryAt(ms[0], first, pos)] + EntriesFrom(ms[1..], false, EntryAt(ms[0], first, pos).to)
  }

  function Opening(o: Object): nat { |o.lead| + 1 }

  function EntriesOf(o: Object): seq<Entry> { EntriesFrom(o.members, true, Opening(o)) }

  predicate EntryIn(e: Entry, text: string) { e.prev <= e.key <= e.from <= e.to <= |text| }

  // One member of several, or the only one, set or taken out.
  function EditAt(text: string, e: Entry, i: nat, count: nat, open: nat, value: Option<string>): string
    requires EntryIn(e, text) && open <= |text|
  {
    if value.Some? then text[..e.from] + value.value + text[e.to..]
    else if i > 0 then text[..e.prev] + text[e.to..]
    else if count > 1 then text[..e.key] + Text.TrimStart(text[e.to..], CUT)
    else text[..open] + text[e.to..]
  }

  function AddMember(content: string, open: nat, entries: seq<Entry>, name: string, value: string, outer: string): string
    requires open <= |content| && (entries != [] ==> open <= entries[0].key <= |content|)
  {
    var member := JsonString(name) + ": " + value;
    if entries == [] then
      content[..open] + "\n" + outer + "  " + member + "\n" + outer + Text.TrimStart(content[open..], " \t\r\n")
    else content[..open] + content[open..entries[0].key] + member + "," + content[open..]
  }

  // ---- By member ----

  predicate HasName(ms: seq<Member>, name: string) { exists i :: 0 <= i < |ms| && NameOf(ms[i].key) == name }

  // Spaces before whatever comes next: the next member's comma, or the brace.
  function Indent(sp: string, ms: seq<Member>, tail: string): (seq<Member>, string) {
    if ms == [] then ([], sp + tail) else ([ms[0].(before := sp + ms[0].before)] + ms[1..], tail)
  }

  // Members after the first, edited, and the tail after them.
  function EditRest(ms: seq<Member>, tail: string, name: string, value: Option<string>): (seq<Member>, string) {
    if ms == [] then ([], tail)
    else
      var (rest, t) := EditRest(ms[1..], tail, name, value);
      if NameOf(ms[0].key) != name then ([ms[0]] + rest, t)
      else if value.Some? then ([ms[0].(value := value.value)] + rest, t)
      else Indent(ms[0].before, rest, t)
  }

  function FirstEdited(m: Member, count: nat, rest: seq<Member>, tail: string, name: string, value: Option<string>): (seq<Member>, string) {
    if NameOf(m.key) != name then ([m] + rest, tail)
    else if value.Some? then ([m.(value := value.value)] + rest, tail)
    else if count == 1 then ([], tail)
    else if rest == [] then ([], m.gap)
    else ([rest[0].(before := "", gap := m.gap)] + rest[1..], tail)
  }

  function EditMembers(ms: seq<Member>, tail: string, name: string, value: Option<string>): (seq<Member>, string) {
    if ms == [] then ([], tail)
    else
      var (rest, t) := EditRest(ms[1..], tail, name, value);
      FirstEdited(ms[0], |ms|, rest, t, name, value)
  }

  function NewMember(gap: string, name: string, value: string): Member {
    Member("", gap, JsonString(name), ": ", value)
  }

  function AddTo(o: Object, name: string, value: string, outer: string): Object {
    if o.members == [] then o.(members := [NewMember("\n" + outer + "  ", name, value)], tail := "\n" + outer)
    else o.(members := [NewMember(o.members[0].gap, name, value)] + o.members)
  }

  function Edited(o: Object, name: string, value: Option<string>, outer: string): Object {
    if value.Some? && !HasName(o.members, name) then AddTo(o, name, value.value, outer)
    else
      var (ms, tail) := EditMembers(o.members, o.tail, name, value);
      o.(members := ms, tail := tail)
  }

  // ---- The two agree ----

  function RestText(ms: seq<Member>, tail: string, after: string): string { MembersText(ms, false) + (tail + "}" + after) }

  lemma IndentText(sp: string, ms: seq<Member>, tail: string, after: string)
    ensures var (r, t) := Indent(sp, ms, tail);
            RestText(r, t, after) == sp + RestText(ms, tail, after)
  {
    if ms == [] {
      hide MemberText;
      assert sp + tail + "}" + after == sp + (tail + "}" + after);
    } else {
      var m := ms[0].(before := sp + ms[0].before);
      var all := [m] + ms[1..];
      assert all[1..] == ms[1..];
      assert MemberText(m, false) == sp + MemberText(ms[0], false);
      hide MemberText;
      assert sp + MemberText(ms[0], false) + MembersText(ms[1..], false) == sp + (MemberText(ms[0], false) + MembersText(ms[1..], false));
    }
  }

  // A member's offsets are where its parts are.
  lemma EntryParts(pre: string, m: Member, first: bool, rest: string)
    requires first ==> m.before == ""
    ensures var text := pre + (MemberText(m, first) + rest);
            var e := EntryAt(m, first, |pre|);
            && EntryIn(e, text) && |pre| <= e.prev
            && text[..e.from] == pre + (m.before + (if first then "" else ",") + m.gap + m.key + m.mid)
            && text[..e.key] == pre + (m.before + (if first then "" else ",") + m.gap)
            && (!first ==> text[..e.prev] == pre + m.before)
            && text[e.to..] == rest && text[..e.to] == pre + MemberText(m, first)
  {
  }

  // The loop's text once the entries after the first are done, last first.
  function EditRestText(text: string, es: seq<Entry>, name: string, value: Option<string>): string {
    if es == [] then text
    else
      var t := EditRestText(text, es[1..], name, value);
      if es[0].name == name && EntryIn(es[0], t) then EditAt(t, es[0], 1, 2, 0, value) else t
  }

  function EditText(text: string, es: seq<Entry>, open: nat, name: string, value: Option<string>): string {
    if es == [] then text
    else
      var t := EditRestText(text, es[1..], name, value);
      if es[0].name == name && EntryIn(es[0], t) && open <= |t| then EditAt(t, es[0], 0, |es|, open, value) else t
  }

  lemma RestNext(m: Member, rest: seq<Member>, tail: string, after: string)
    ensures RestText([m] + rest, tail, after) == MemberText(m, false) + RestText(rest, tail, after)
  {
    assert ([m] + rest)[1..] == rest;
    hide MemberText;
    assert MemberText(m, false) + MembersText(rest, false) + (tail + "}" + after) ==
           MemberText(m, false) + (MembersText(rest, false) + (tail + "}" + after));
  }

  lemma SetText(pre: string, m: Member, first: bool, v: string, rest: string)
    ensures pre + (m.before + (if first then "" else ",") + m.gap + m.key + m.mid) + v + rest ==
            pre + (MemberText(m.(value := v), first) + rest)
  {
  }

  lemma Assoc(a: string, b: string, c: string)
    ensures a + (b + c) == a + b + c
  {
  }

  // One member after the first, edited once what follows it is.
  lemma MemberEdits(pre: string, m: Member, rest: seq<Member>, tail: string, after: string, name: string, value: Option<string>)
    ensures var t := pre + MemberText(m, false) + RestText(rest, tail, after);
            var e := EntryAt(m, false, |pre|);
            var (r, u) := if NameOf(m.key) != name then ([m] + rest, tail)
                          else if value.Some? then ([m.(value := value.value)] + rest, tail)
                          else Indent(m.before, rest, tail);
            EntryIn(e, t) && (if e.name == name then EditAt(t, e, 1, 2, 0, value) else t) == pre + RestText(r, u, after)
  {
    var text := RestText(rest, tail, after);
    EntryParts(pre, m, false, text);
    Assoc(pre, MemberText(m, false), text);
    hide RestText, MemberText, NameOf, Indent;
    if NameOf(m.key) != name {
      RestNext(m, rest, tail, after);
    } else if value.Some? {
      SetText(pre, m, false, value.value, text);
      RestNext(m.(value := value.value), rest, tail, after);
    } else {
      IndentText(m.before, rest, tail, after);
      Assoc(pre, m.before, text);
    }
  }

  lemma {:induction false} RestEdits(pre: string, ms: seq<Member>, tail: string, after: string, name: string, value: Option<string>)
    ensures var (r, t) := EditRest(ms, tail, name, value);
            EditRestText(pre + RestText(ms, tail, after), EntriesFrom(ms, false, |pre|), name, value) == pre + RestText(r, t, after)
    decreases |ms|
  {
    if ms != [] {
      hide MemberText, RestText, EditAt, EntryIn, NameOf, Indent;
      var m, es := ms[0], EntriesFrom(ms, false, |pre|);
      var (r, t) := EditRest(ms[1..], tail, name, value);
      EntryParts(pre, m, false, "");
      RestNext(m, ms[1..], tail, after);
      assert [m] + ms[1..] == ms;
      Assoc(pre, MemberText(m, false), RestText(ms[1..], tail, after));
      assert es[1..] == EntriesFrom(ms[1..], false, es[0].to);
      EndsAt(pre, m, false);
      RestEdits(pre + MemberText(m, false), ms[1..], tail, after, name, value);
      MemberEdits(pre, m, r, t, after, name, value);
    }
  }

  lemma EndsAt(pre: string, m: Member, first: bool)
    requires first ==> m.before == ""
    ensures EntryAt(m, first, |pre|).to == |pre + MemberText(m, first)|
  {
    hide NameOf;
  }

  // ---- The first member, and the whole ----

  lemma {:induction false} TrimSpaces(sp: string, cut: string, rest: string)
    requires Spaces(sp) && Text.IsIn(' ', cut) && Text.IsIn('\t', cut) && Text.IsIn('\r', cut) && Text.IsIn('\n', cut)
    ensures Text.TrimStart(sp + rest, cut) == Text.TrimStart(rest, cut)
  {
    hide Text.IsIn;
    if sp == "" {
      assert sp + rest == rest;
    } else {
      TrimSpaces(sp[1..], cut, rest);
      assert (sp + rest)[1..] == sp[1..] + rest;
    }
  }

  const CUT := " \t\r\n,"

  lemma CutIsCut()
    ensures Text.IsIn(' ', CUT) && Text.IsIn('\t', CUT) && Text.IsIn('\r', CUT) && Text.IsIn('\n', CUT) && Text.IsIn(',', CUT)
    ensures !Text.IsIn('}', CUT) && !Text.IsIn('"', CUT)
  {
  }

  lemma TrimNone(s: string, cut: string)
    requires s != "" && !Text.IsIn(s[0], cut)
    ensures Text.TrimStart(s, cut) == s
  {
  }

  lemma TrimOne(c: char, rest: string, cut: string)
    requires Text.IsIn(c, cut)
    ensures Text.TrimStart([c] + rest, cut) == Text.TrimStart(rest, cut)
  {
    hide Text.IsIn;
    assert ([c] + rest)[1..] == rest;
  }

  lemma TrimSeparator(sp: string, gap: string, own: string)
    requires Spaces(sp) && Spaces(gap) && own != "" && own[0] == '"'
    ensures Text.TrimStart(sp + ([','] + (gap + own)), CUT) == own
  {
    CutIsCut();
    hide *;
    TrimSpaces(sp, CUT, [','] + (gap + own));
    TrimOne(',', gap + own, CUT);
    TrimSpaces(gap, CUT, own);
    TrimNone(own, CUT);
  }

  lemma RestParts(ms: seq<Member>, tail: string, after: string)
    requires ms != []
    ensures var m := ms[0];
            RestText(ms, tail, after) ==
            m.before + ([','] + (m.gap + (m.key + m.mid + m.value + RestText(ms[1..], tail, after))))
  {
    RestNext(ms[0], ms[1..], tail, after);
    assert [ms[0]] + ms[1..] == ms;
    hide RestText;
  }

  lemma RestNone(tail: string, after: string)
    ensures RestText([], tail, after) == tail + ("}" + after)
  {
  }

  // What is left of the rest without the space and comma before it.
  lemma TrimRest(ms: seq<Member>, tail: string, after: string)
    requires MembersOk(ms, false) && Spaces(tail)
    ensures Text.TrimStart(RestText(ms, tail, after), CUT) ==
            if ms == [] then "}" + after
            else ms[0].key + ms[0].mid + ms[0].value + RestText(ms[1..], tail, after)
  {
    CutIsCut();
    hide *;
    if ms == [] {
      RestNone(tail, after);
      TrimSpaces(tail, CUT, "}" + after);
      TrimNone("}" + after, CUT);
    } else {
      OkNext(ms, false);
      BeforeOk(ms[0]);
      KeyFirst(ms[0], RestText(ms[1..], tail, after));
      RestParts(ms, tail, after);
      TrimSeparator(ms[0].before, ms[0].gap, ms[0].key + ms[0].mid + ms[0].value + RestText(ms[1..], tail, after));
    }
  }

  lemma KeyFirst(m: Member, rest: string)
    requires MemberOk(m, false)
    ensures m.key + m.mid + m.value + rest != "" && (m.key + m.mid + m.value + rest)[0] == '"'
  {
    StringFirst(m.key);
    hide IsString, IsValue, MidOk, Spaces;
  }

  function FullText(ms: seq<Member>, tail: string, after: string): string { MembersText(ms, true) + (tail + "}" + after) }

  lemma FullNext(m: Member, rest: seq<Member>, tail: string, after: string)
    ensures FullText([m] + rest, tail, after) == MemberText(m, true) + RestText(rest, tail, after)
  {
    assert ([m] + rest)[1..] == rest;
    hide MemberText;
    assert MemberText(m, true) + MembersText(rest, false) + (tail + "}" + after) ==
           MemberText(m, true) + (MembersText(rest, false) + (tail + "}" + after));
  }

  lemma FullNone(tail: string, after: string)
    ensures FullText([], tail, after) == tail + "}" + after
  {
  }

  lemma FirstTakenOut(pre: string, m: Member, count: nat, rest: seq<Member>, tail: string, after: string, name: string)
    requires MembersOk(rest, false) && Spaces(tail) && NameOf(m.key) == name && (count == 1 ==> rest == [])
    ensures var (r, u) := FirstEdited(m, count, rest, tail, name, None);
            pre + FullText(r, u, after) ==
            if count == 1 then pre + RestText(rest, tail, after)
            else pre + ("" + "" + m.gap) + Text.TrimStart(RestText(rest, tail, after), CUT)
  {
    TrimRest(rest, tail, after);
    RestNone(tail, after);
    FullNone(tail, after);
    FullNone(m.gap, after);
    hide RestText, FullText, MemberText, NameOf, Text.TrimStart, MembersOk;
    if count == 1 {
    } else if rest == [] {
      assert pre + ("" + "" + m.gap) + ("}" + after) == pre + (m.gap + "}" + after);
    } else {
      FullNext(rest[0].(before := "", gap := m.gap), rest[1..], tail, after);
      NowFirst(pre, m.gap, rest[0], RestText(rest[1..], tail, after));
    }
  }

  // The first member edited, once the others are.
  lemma FirstEdits(pre: string, m: Member, count: nat, rest: seq<Member>, tail: string, after: string, name: string, value: Option<string>)
    requires MemberOk(m, true) && MembersOk(rest, false) && Spaces(tail) && count > 0 && (count == 1 ==> rest == [])
    ensures var t := pre + MemberText(m, true) + RestText(rest, tail, after);
            var e := EntryAt(m, true, |pre|);
            var (r, u) := FirstEdited(m, count, rest, tail, name, value);
            && EntryIn(e, t) && |pre| <= |t|
            && (if e.name == name then EditAt(t, e, 0, count, |pre|, value) else t) == pre + FullText(r, u, after)
  {
    var text := RestText(rest, tail, after);
    FirstBefore(m);
    EntryParts(pre, m, true, text);
    Assoc(pre, MemberText(m, true), text);
    hide RestText, FullText, MemberText, NameOf, Text.TrimStart, MemberOk, MembersOk;
    if NameOf(m.key) != name {
      FullNext(m, rest, tail, after);
    } else if value.Some? {
      SetText(pre, m, true, value.value, text);
      FullNext(m.(value := value.value), rest, tail, after);
    } else {
      FirstTakenOut(pre, m, count, rest, tail, after, name);
      PreOf(pre, m, text);
    }
  }

  lemma PreOf(pre: string, m: Member, text: string)
    ensures (pre + MemberText(m, true) + text)[..|pre|] == pre
  {
    hide MemberText;
  }

  lemma NowFirst(pre: string, gap: string, m: Member, rest: string)
    ensures pre + ("" + "" + gap) + (m.key + m.mid + m.value + rest) ==
            pre + (MemberText(m.(before := "", gap := gap), true) + rest)
  {
  }

  // Editing rest keeps it well formed.
  lemma IndentOk(sp: string, ms: seq<Member>, tail: string)
    requires Spaces(sp) && MembersOk(ms, false) && Spaces(tail)
    ensures MembersOk(Indent(sp, ms, tail).0, false) && Spaces(Indent(sp, ms, tail).1)
  {
    if ms != [] {
      var m := ms[0].(before := sp + ms[0].before);
      assert ([m] + ms[1..])[1..] == ms[1..];
      hide IsString, IsValue, MidOk, IsSpace;
    }
  }

  lemma MembersNext(m: Member, ms: seq<Member>, first: bool)
    ensures MembersOk([m] + ms, first) <==> MemberOk(m, first) && MembersOk(ms, false)
  {
    assert ([m] + ms)[1..] == ms;
    hide MemberOk;
  }

  lemma ValueSetOk(m: Member, first: bool, v: string)
    requires MemberOk(m, first) && IsValue(v)
    ensures MemberOk(m.(value := v), first)
  {
    hide IsString, IsValue, MidOk, Spaces;
  }

  lemma BeforeOk(m: Member)
    requires MemberOk(m, false)
    ensures Spaces(m.before) && Spaces(m.gap)
  {
  }

  lemma {:induction false} RestOk(ms: seq<Member>, tail: string, name: string, value: Option<string>)
    requires MembersOk(ms, false) && Spaces(tail) && (value.Some? ==> IsValue(value.value))
    ensures var (r, t) := EditRest(ms, tail, name, value);
            MembersOk(r, false) && Spaces(t)
  {
    if ms != [] {
      OkNext(ms, false);
      BeforeOk(ms[0]);
      hide MemberOk, MembersOk, Spaces, IsValue, NameOf, Indent;
      RestOk(ms[1..], tail, name, value);
      var (r, t) := EditRest(ms[1..], tail, name, value);
      if NameOf(ms[0].key) != name {
        MembersNext(ms[0], r, false);
      } else if value.Some? {
        ValueSetOk(ms[0], false, value.value);
        MembersNext(ms[0].(value := value.value), r, false);
      } else {
        IndentOk(ms[0].before, r, t);
      }
    }
  }
}
