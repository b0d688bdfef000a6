// The actor's own state (internal/projection/state.go): lists that are
// appended to, compacted and updated in place, and an id-to-position index.
// Apply is proved to compute Projection.Apply, and a Clone to share no array
// that a later Apply writes.
module LiveState {
  import opened Prelude
  import opened Protocol
  import opened Projection
  import opened Slices
  import opened Timeline

  // An item as it sits in the list: its content is a slice of its own, null
  // until something is appended to it.
  datatype Cell = Cell(item: Item, content: array?<ToolContent>, n: nat)

  ghost predicate Shows(c: Cell, it: Item)
    reads c.content
  {
    if c.content == null then c.n == 0 && it == c.item && it.content == []
    else 0 < c.n <= c.content.Length && c.item.content == [] && it == c.item.(content := c.content[..c.n])
  }

  // The array, or a larger one with the same first n elements.
  method WithRoom(a: array?<ToolContent>, n: nat, need: nat, x: ToolContent) returns (b: array<ToolContent>)
    requires (if a == null then n == 0 else n <= a.Length) && n <= need
    ensures b == a || fresh(b)
    ensures need <= b.Length && b[..n] == if a == null then [] else a[..n]
  {
    if a != null && need <= a.Length {
      return a;
    }
    b := new ToolContent[2 * need](i requires 0 <= i reads a => if a != null && i < n <= a.Length then a[i] else x);
    assert a != null ==> b[..n] == a[..n];
  }

  // Appends xs to the first n elements of a: in place when they fit, into a
  // larger array otherwise.
  method AppendContent(a: array?<ToolContent>, n: nat, xs: seq<ToolContent>) returns (b: array<ToolContent>)
    requires if a == null then n == 0 else n <= a.Length
    requires xs != []
    modifies a
    ensures b == a || fresh(b)
    ensures n + |xs| <= b.Length
    ensures b[..n + |xs|] == (if a == null then [] else old(a[..n])) + xs
    ensures a != null ==> a[..n] == old(a[..n])
  {
    b := WithRoom(a, n, n + |xs|, xs[0]);
    for k := 0 to |xs|
      invariant a != null ==> a[..n] == old(a[..n])
      invariant b[..n + k] == (if a == null then [] else old(a[..n])) + xs[..k]
    {
      b[n + k] := xs[k];
      assert b[..n + k + 1] == b[..n + k] + [xs[k]];
    }
  }

  // The content a write adds to its item.
  function Added(w: ItemWrite): seq<ToolContent> {
    if w.Carried? && w.payload.ToolCallUpdated? then w.payload.updContent else []
  }

  lemma WriteAddsContent(it: Item, at: int, w: ItemWrite, before: seq<ToolContent>)
    requires it.content == []
    ensures Write(it.(content := before), at, w) == Write(it, at, w).(content := before + Added(w))
  {
    assert Stamp(it.(content := before), at) == Stamp(it, at).(content := before);
    if w.Carried? {
      PayloadAddsContent(Stamp(it, at), w.payload, before);
    } else {
      assert before + [] == before;
    }
  }

  lemma PayloadAddsContent(it: Item, p: Payload, before: seq<ToolContent>)
    requires it.content == []
    ensures WritePayload(it.(content := before), p) == WritePayload(it, p).(content := before + Added(Carried(p)))
  {
    assert before + [] == before;
    if p.ToolCallUpdated? {
      UpdateToolKeepsContent(it, before, p);
      hide UpdateTool;
      assert WritePayload(it, p).content == UpdateTool(it, p.updStatus, p.updTitle, p.updInput, p.updParent).content + p.updContent;
    }
  }

  lemma UpdateToolKeepsContent(it: Item, before: seq<ToolContent>, p: Payload)
    requires p.ToolCallUpdated?
    ensures UpdateTool(it.(content := before), p.updStatus, p.updTitle, p.updInput, p.updParent)
         == UpdateTool(it, p.updStatus, p.updTitle, p.updInput, p.updParent).(content := before)
  {
  }

  // The cell that shows an item once w is written to it.
  method WriteCell(c: Cell, at: int, w: ItemWrite, ghost it: Item) returns (d: Cell)
    requires Shows(c, it)
    modifies c.content
    ensures Shows(d, Write(it, at, w)) && Shows(c, it)
    ensures d.content == c.content || fresh(d.content)
    ensures d.item.id == it.id
  {
    ghost var before := it.content;
    WriteAddsContent(c.item, at, w, before);
    WriteKeepsId(it, at, w);
    assert it == c.item.(content := before);
    hide Write;
    d := c.(item := Write(c.item, at, w).(content := []));
    if Added(w) != [] {
      var content := AppendContent(c.content, c.n, Added(w));
      d := d.(content := content, n := c.n + |Added(w)|);
    } else {
      assert before + [] == before;
    }
  }

  ghost predicate IndexOf(timeline: seq<Item>, index: map<string, nat>) {
    && (forall i :: 0 <= i < |timeline| ==> timeline[i].id in index && index[timeline[i].id] == i)
    && (forall id :: id in index ==> index[id] < |timeline| && timeline[index[id]].id == id)
  }

  lemma IndexAppend(timeline: seq<Item>, index: map<string, nat>, it: Item)
    requires DistinctIds(timeline) && IndexOf(timeline, index) && forall k :: 0 <= k < |timeline| ==> timeline[k].id != it.id
    ensures DistinctIds(timeline + [it])
    ensures IndexOf(timeline + [it], index[it.id := |timeline|])
  {
    var n, longer := |timeline|, timeline + [it];
    var grown: map<string, nat> := index[it.id := n];
    assert forall i :: 0 <= i < n ==> longer[i] == timeline[i];
    forall i | 0 <= i < |longer| ensures longer[i].id in grown && grown[longer[i].id] == i {
    }
    forall id | id in grown ensures grown[id] < |longer| && longer[grown[id]].id == id {
      if id != it.id {
        assert id in index && timeline[index[id]].id == id;
      }
    }
  }

  method CopyCell(c: Cell, ghost it: Item) returns (d: Cell)
    requires Shows(c, it)
    ensures Shows(d, it) && (d.content != null ==> fresh(d.content))
  {
    d := c;
    if c.content != null {
      var content := new ToolContent[c.n](j requires 0 <= j < c.content.Length reads c.content => c.content[j]);
      assert content[..c.n] == c.content[..c.n];
      d := c.(content := content);
    }
  }

  // The timeline: a list of cells and the index of their ids.
  class ItemList {
    const list: List<Cell>
    // None on a clone, which is never applied to.
    var index: Option<map<string, nat>>

    // The timeline held, as a value, and the content arrays its items own.
    ghost var timeline: seq<Item>
    ghost var contents: set<array<ToolContent>>

    ghost predicate Valid()
      reads this, list, list.data, contents
    {
      && list.Valid() && |timeline| == |list.view|
      && (forall i :: 0 <= i < |timeline| ==> list.view[i].content != null ==> list.view[i].content in contents)
      && (forall i :: 0 <= i < |timeline| ==> Shows(list.view[i], timeline[i]))
      && (forall i, j :: 0 <= i < j < |timeline| && list.view[i].content != null ==>
            list.view[i].content != list.view[j].content)
      && DistinctIds(timeline)
      && (index.Some? ==> IndexOf(timeline, index.value))
    }

    constructor (list: List<Cell>, index: Option<map<string, nat>>, ghost timeline: seq<Item>,
                 ghost contents: set<array<ToolContent>>)
      ensures this.list == list && this.index == index && this.timeline == timeline && this.contents == contents
    {
      this.list, this.index, this.timeline, this.contents := list, index, timeline, contents;
    }


    method Find(id: string) returns (i: nat)
      requires Valid() && index.Some?
      ensures i == Position(timeline, id)
    {
      if id in index.value {
        i := index.value[id];
        PositionOf(timeline, i);
      } else {
        i := list.len;
      }
    }

    // The cell's content array is no other item's.
    ghost predicate OwnContent(cell: Cell, i: nat)
      requires list.Valid()
      reads this, list, list.data, contents
    {
      cell.content != null ==>
        cell.content in contents && forall k :: 0 <= k < |list.view| && k != i ==> list.view[k].content != cell.content
    }

    method SetCell(i: nat, cell: Cell, ghost it: Item)
      requires Valid() && i < |timeline| && Shows(cell, it) && timeline[i].id == it.id && OwnContent(cell, i)
      modifies this`timeline, list`view, list.data
      ensures Valid()
      ensures timeline == old(timeline)[i := it]
    {
      hide Shows;
      list.Set(i, cell);
      timeline := timeline[i := it];
    }

    method AddCell(cell: Cell, ghost it: Item)
      requires Valid() && index.Some? && Shows(cell, it) && cell.item.id == it.id
      requires OwnContent(cell, |timeline|) && forall k :: 0 <= k < |timeline| ==> timeline[k].id != it.id
      modifies this`index, this`timeline, list, list.data
      ensures Valid() && index.Some?
      ensures list.data == old(list.data) || fresh(list.data)
      ensures timeline == old(timeline) + [it]
    {
      IndexAppend(timeline, index.value, it);
      hide Shows, DistinctIds, IndexOf;
      index := Some(index.value[cell.item.id := list.len]);
      list.Append(cell);
      timeline := timeline + [it];
    }

    method WriteAt(i: nat, at: int, w: ItemWrite)
      requires Valid() && i < |timeline|
      modifies this`timeline, this`contents, list`view, list.data, contents
      ensures Valid()
      ensures fresh(contents - old(contents))
      ensures timeline == old(timeline)[i := Write(old(timeline[i]), at, w)]
    {
      WriteKeepsId(timeline[i], at, w);
      hide Write;
      var cell := WriteCell(list.data[i], at, w, timeline[i]);
      contents := contents + if cell.content == null then {} else {cell.content};
      SetCell(i, cell, Write(timeline[i], at, w));
    }

    method WriteNew(id: string, at: int, w: ItemWrite)
      requires Valid() && index.Some? && forall k :: 0 <= k < |timeline| ==> timeline[k].id != id
      modifies this`index, this`timeline, this`contents, list, list.data
      ensures Valid() && index.Some?
      ensures list.data == old(list.data) || fresh(list.data)
      ensures fresh(contents - old(contents))
      ensures timeline == old(timeline) + [Write(NewItem(id), at, w)]
    {
      WriteKeepsId(NewItem(id), at, w);
      hide Write;
      var cell := WriteCell(Cell(NewItem(id), null, 0), at, w, NewItem(id));
      contents := contents + if cell.content == null then {} else {cell.content};
      AddCell(cell, Write(NewItem(id), at, w));
    }

    method Put(id: string, at: int, w: ItemWrite)
      requires Valid() && index.Some?
      modifies this`index, this`timeline, this`contents, list, list.data, contents
      ensures Valid() && index.Some?
      ensures list.data == old(list.data) || fresh(list.data)
      ensures fresh(contents - old(contents))
      ensures timeline == Upsert(old(timeline), id, at, w)
    {
      hide Write;
      var i := Find(id);
      if i < list.len {
        WriteAt(i, at, w);
      } else {
        WriteNew(id, at, w);
      }
    }

    method SetOutcome(i: nat, status: Status, outcome: Raw)
      requires Valid() && i < |timeline|
      modifies this`timeline, list`view, list.data
      ensures Valid()
      ensures timeline == old(timeline)[i := old(timeline[i]).(status := status, outcome := outcome)]
    {
      var cell := list.data[i];
      SetCell(i, cell.(item := cell.item.(status := status, outcome := outcome)),
              timeline[i].(status := status, outcome := outcome));
    }

    // Settles every tool of the turn left in flight but those of live jobs.
    method CancelTools(turnId: string, live: set<string>)
      requires Valid()
      modifies this`timeline, list`view, list.data
      ensures Valid()
      ensures timeline == MapSeq((it: Item) => CancelTool(it, turnId, live), old(timeline))
    {
      ghost var was := timeline;
      hide DistinctIds, IndexOf, CancelTool;
      for i := 0 to list.len
        invariant Valid() && |timeline| == |was| == list.len == old(list.len)
        invariant list.data == old(list.data)
        invariant forall k :: 0 <= k < i ==> timeline[k] == CancelTool(was[k], turnId, live)
        invariant forall k :: i <= k < |was| ==> timeline[k] == was[k]
      {
        var it := list.data[i].item;
        CancelToolIs(was[i], turnId, live);
        if it.kind == Tool && InFlight(it) && (it.turnId == turnId || it.turnId == "") && it.id !in live {
          SetOutcome(i, Cancelled, it.outcome);
        }
      }
    }

    method Settle(j: Job)
      requires Valid() && index.Some?
      modifies this`timeline, list`view, list.data
      ensures Valid()
      ensures timeline == SettleItems(old(timeline), j)
    {
      if j.toolCallId != "" {
        var i := Find(j.toolCallId);
        if i < list.len {
          var it := list.data[i].item;
          SetOutcome(i, SettleTool(it, j.status).status, it.outcome);
        }
      }
    }

    method Answer(p: Payload)
      requires Valid() && index.Some? && p.ElicitationResolved?
      modifies this`timeline, list`view, list.data
      ensures Valid()
      ensures timeline == AnswerCard(old(timeline), p)
    {
      var i := Find(CardId(p.answeredId));
      if i < list.len && list.data[i].item.kind == CardItem {
        SetOutcome(i, CardResult(p), if p.value != "" then p.value else list.data[i].item.outcome);
      }
    }

    // A timeline of its own: every cell and every content array copied.
    method Copy() returns (c: ItemList)
      requires Valid()
      ensures fresh(c) && fresh(c.list) && fresh(c.list.data) && fresh(c.contents)
      ensures c.Valid() && c.timeline == timeline && c.index == None
    {
      hide DistinctIds, Shows, IndexOf;
      ghost var was := timeline;
      var cells := new Cell[list.len](i requires 0 <= i < list.data.Length reads list, list.data => list.data[i]);
      ghost var owned: set<array<ToolContent>> := {};
      for i := 0 to cells.Length
        invariant fresh(owned)
        invariant forall k :: 0 <= k < i ==> Shows(cells[k], was[k])
        invariant forall k :: 0 <= k < i && cells[k].content != null ==> cells[k].content in owned
        invariant forall j, k :: 0 <= j < k < i && cells[j].content != null ==> cells[j].content != cells[k].content
        invariant forall k :: i <= k < cells.Length ==> cells[k] == list.view[k]
      {
        var cell := CopyCell(cells[i], was[i]);
        cells[i] := cell;
        owned := owned + if cell.content == null then {} else {cell.content};
      }
      var copy := new List(cells, cells.Length);
      c := new ItemList(copy, None, timeline, owned);
    }
  }

  class ThreadState {
    var core: Core
    const items: ItemList
    const turns: List<Turn>
    const jobs: List<Job>
    const pending: List<Permission>
    const elicitations: List<Elicitation>
    const queued: List<Queued>
    const artefacts: List<Artefact>
    const scheduled: List<Scheduled>

    constructor (core: Core, items: ItemList, turns: List<Turn>, jobs: List<Job>, pending: List<Permission>,
                 elicitations: List<Elicitation>, queued: List<Queued>, artefacts: List<Artefact>,
                 scheduled: List<Scheduled>)
      ensures this.core == core && this.items == items && this.turns == turns && this.jobs == jobs
      ensures this.pending == pending && this.elicitations == elicitations && this.queued == queued
      ensures this.artefacts == artefacts && this.scheduled == scheduled
    {
      this.core, this.items, this.turns, this.jobs, this.pending := core, items, turns, jobs, pending;
      this.elicitations, this.queued, this.artefacts, this.scheduled := elicitations, queued, artefacts, scheduled;
    }

    // The state held.
    ghost function Value(): State
      reads this, items, turns, jobs, pending, elicitations, queued, artefacts, scheduled
    {
      State(core, items.timeline, turns.view, jobs.view, pending.view, elicitations.view, queued.view, artefacts.view,
            scheduled.view)
    }

    // ---- Reads ----

    method LiveJobCalls() returns (live: set<string>)
      requires jobs.Valid()
      ensures live == LiveCalls(jobs.view)
    {
      live := {};
      for i := 0 to jobs.len
        invariant live == LiveCalls(jobs.view[..i])
      {
        assert jobs.view[..i + 1] == jobs.view[..i] + [jobs.view[i]];
        var j := jobs.data[i];
        if !JobDone(j.status) && j.toolCallId != "" {
          live := live + {j.toolCallId};
        }
      }
      assert jobs.view[..jobs.len] == jobs.view;
    }

    method FindJob(id: string) returns (i: nat)
      requires jobs.Valid()
      ensures i == JobPosition(jobs.view, id)
    {
      i := 0;
      while i < jobs.len && jobs.data[i].id != id
        invariant i <= jobs.len && forall k :: 0 <= k < i ==> jobs.view[k].id != id
      {
        i := i + 1;
      }
    }

    method FindQueued(id: string) returns (i: nat)
      requires queued.Valid()
      ensures i == QueuePosition(queued.view, id)
    {
      i := 0;
      while i < queued.len && queued.data[i].queueId != id
        invariant i <= queued.len && forall k :: 0 <= k < i ==> queued.view[k].queueId != id
      {
        i := i + 1;
      }
    }

    method OpenTurnId() returns (open: string)
      requires turns.Valid()
      ensures open == OpenTurn(turns.view)
    {
      open := "";
      for i := 0 to turns.len
        invariant open == OpenTurn(turns.view[..i])
      {
        assert turns.view[..i + 1][..i] == turns.view[..i];
        if !turns.data[i].done {
          open := turns.data[i].id;
        }
      }
      assert turns.view[..turns.len] == turns.view;
    }

    // ---- Events ----

    method TakePrompt(p: TurnStart) returns (prompt: string, images: seq<Image>)
      requires queued.Valid() && scheduled.Valid()
      modifies queued`len, queued`view, queued.data, scheduled`view, scheduled.data
      ensures queued.Valid() && scheduled.Valid()
      ensures prompt == StartPrompt(old(Value()), p) && images == StartImages(old(Value()), p)
      ensures queued.view == if p.queueId != "" then RemoveQueued(old(queued.view), p.queueId) else old(queued.view)
      ensures scheduled.view == if p.queueId != "" then MapSeq((sc: Scheduled) => MarkSent(sc, p), old(scheduled.view))
                                else old(scheduled.view)
    {
      prompt, images := p.prompt, p.images;
      if p.queueId != "" {
        var i := FindQueued(p.queueId);
        if i < queued.len {
          if prompt == "" {
            prompt := queued.data[i].prompt;
          }
          if images == [] {
            images := queued.data[i].images;
          }
        }
        hide MarkSent;
        DropQueued(p.queueId);
        scheduled.Update((sc: Scheduled) => MarkSent(sc, p));
      }
    }

    // All of a turn's start but its line in the timeline.
    method StartRest(p: TurnStart, at: int) returns (prompt: string, images: seq<Image>)
      requires turns.Valid() && queued.Valid() && scheduled.Valid()
      modifies this, turns, turns.data, queued`len, queued`view, queued.data, scheduled`view, scheduled.data
      ensures turns.Valid() && queued.Valid() && scheduled.Valid()
      ensures prompt == StartPrompt(old(Value()), p) && images == StartImages(old(Value()), p)
      ensures turns.data == old(turns.data) || fresh(turns.data)
      ensures Value() == StartTurn(old(Value()), p, at).(items := old(items.timeline))
    {
      hide NewTurn, TitleFor, MarkSent, Upsert, StartPrompt, StartImages, RemoveQueued;
      prompt, images := TakePrompt(p);
      turns.Append(NewTurn(p, prompt, images, at));
      core := core.(phase := InTurn, title := TitleFor(core.title, prompt, images));
    }

    method Start(p: TurnStart, at: int)
      requires items.Valid() && items.index.Some? && turns.Valid() && queued.Valid() && scheduled.Valid()
      modifies this, items, items.list, items.list.data, items.contents, turns, turns.data
      modifies queued`len, queued`view, queued.data, scheduled`view, scheduled.data
      ensures items.Valid() && items.index.Some? && turns.Valid() && queued.Valid() && scheduled.Valid()
      ensures items.list.data == old(items.list.data) || fresh(items.list.data)
      ensures fresh(items.contents - old(items.contents))
      ensures turns.data == old(turns.data) || fresh(turns.data)
      ensures Value() == StartTurn(old(Value()), p, at)
    {
      hide ItemList.Valid, NewTurn, TitleFor, MarkSent, Upsert, StartPrompt, StartImages, RemoveQueued;
      var prompt, images := StartRest(p, at);
      if prompt != "" || images != [] {
        items.Put("prompt:" + p.turnId, at, UserPrompt(prompt, images, p.turnId));
      }
    }

    // All of a turn's finish but what it does to the timeline.
    method FinishRest(p: Payload, at: int) returns (matches: bool)
      requires p.TurnFinished? && turns.Valid() && scheduled.Valid()
      modifies this, turns`view, turns.data, scheduled`view, scheduled.data
      ensures turns.Valid() && scheduled.Valid()
      ensures matches == Matches(old(turns.view), p.turnId)
      ensures Value() == FinishTurn(old(Value()), p, at).(items := old(items.timeline))
    {
      hide MarkFailed, CloseTurn, CancelTool, OpenTurn, LiveCalls;
      if p.stopReason == STOP_ERROR {
        scheduled.Update((sc: Scheduled) => MarkFailed(sc, p.turnId, p.turnError));
      }
      var open := OpenTurnId();
      matches := open == "" || p.turnId == open;
      turns.Update((t: Turn) => CloseTurn(t, p, at));
      if matches {
        core := core.(phase := Idle);
      }
    }

    method Finish(p: Payload, at: int)
      requires p.TurnFinished?
      requires items.Valid() && turns.Valid() && scheduled.Valid() && jobs.Valid()
      modifies this, items`timeline, items.list`view, items.list.data, turns`view, turns.data, scheduled`view, scheduled.data
      ensures items.Valid() && turns.Valid() && scheduled.Valid()
      ensures Value() == FinishTurn(old(Value()), p, at)
    {
      hide ItemList.Valid, MarkFailed, CloseTurn, CancelTool, OpenTurn, LiveCalls;
      var matches := FinishRest(p, at);
      if matches {
        var live := LiveJobCalls();
        items.CancelTools(p.turnId, live);
      }
    }

    method PutScheduled(p: Scheduled)
      requires scheduled.Valid()
      modifies scheduled, scheduled.data
      ensures scheduled.Valid() && scheduled.view == Schedule(old(scheduled.view), p)
      ensures scheduled.data == old(scheduled.data) || fresh(scheduled.data)
    {
      var i := 0;
      while i < scheduled.len && scheduled.data[i].id != p.id
        invariant i <= scheduled.len && forall k :: 0 <= k < i ==> scheduled.view[k].id != p.id
      {
        i := i + 1;
      }
      ScheduleAt(scheduled.view, p, i);
      if i < scheduled.len {
        scheduled.Set(i, p);
      } else {
        scheduled.Append(p);
      }
    }

    method DropQueued(id: string)
      requires queued.Valid()
      modifies queued`len, queued`view, queued.data
      ensures queued.Valid() && queued.view == RemoveQueued(old(queued.view), id)
    {
      queued.Keep((q: Queued) => q.queueId != id);
    }

    method TakeQueued(id: string) returns (q: Option<Queued>)
      requires queued.Valid()
      modifies queued`len, queued`view, queued.data
      ensures queued.Valid()
      ensures var i := QueuePosition(old(queued.view), id);
              if i == |old(queued.view)| then q == None && queued.view == old(queued.view)
              else i < |old(queued.view)| && q == Some(old(queued.view)[i]) && queued.view == RemoveQueued(old(queued.view), id)
    {
      hide RemoveQueued;
      var i := FindQueued(id);
      if i == queued.len {
        return None;
      }
      q := Some(queued.data[i]);
      DropQueued(id);
    }

    method InjectPrompt(p: Payload, at: int)
      requires p.PromptInjected? && items.Valid() && items.index.Some? && queued.Valid()
      modifies items, items.list, items.list.data, items.contents, queued`len, queued`view, queued.data
      ensures items.Valid() && items.index.Some? && queued.Valid()
      ensures items.list.data == old(items.list.data) || fresh(items.list.data)
      ensures fresh(items.contents - old(items.contents))
      ensures Value() == Inject(old(Value()), p, at)
    {
      hide ItemList.Valid, Upsert, RemoveQueued, QueuePosition;
      var q := TakeQueued(p.injectedId);
      if q.Some? {
        items.Put("prompt:" + p.injectedId, at, UserPrompt(q.value.prompt, q.value.images, p.intoTurn));
      }
    }

    method QueueEvent(p: Payload, at: int)
      requires IsPromptEvent(p) && !p.PromptInjected? && queued.Valid() && scheduled.Valid()
      modifies queued, queued.data, scheduled, scheduled.data
      ensures queued.Valid() && scheduled.Valid()
      ensures queued.data == old(queued.data) || fresh(queued.data)
      ensures scheduled.data == old(scheduled.data) || fresh(scheduled.data)
      ensures Value() == ApplyPrompt(old(Value()), p, at)
    {
      hide Inject, Schedule;
      if p.PromptScheduled? {
        PutScheduled(p.scheduled);
      } else if p.PromptQueued? {
        queued.Append(Queued(p.queueId, p.prompt, p.images, at, p.sent));
      } else {
        DropQueued(p.dequeuedId);
      }
    }

    // Folds one job row into the jobs, and gives the job as it leaves it.
    method MergeRow(p: JobPayload, finished: bool, at: int) returns (j: Job)
      requires p.jobId != "" && jobs.Valid() && turns.Valid()
      modifies jobs, jobs.data
      ensures jobs.Valid() && j == UpdatedJob(old(Value()), p, finished, at)
      ensures jobs.view == WithJob(old(Value()), p.jobId, at)[JobPosition(old(jobs.view), p.jobId) := j]
      ensures jobs.data == old(jobs.data) || fresh(jobs.data)
    {
      hide NewJob, MergeJob, EndJob, OpenTurn;
      var i := FindJob(p.jobId);
      if i == jobs.len {
        var open := OpenTurnId();
        jobs.Append(NewJob(p.jobId, at, open));
      }
      var parentDepth: Option<int> := None;
      if p.parentJobId != "" {
        var k := FindJob(p.parentJobId);
        if k < jobs.len {
          parentDepth := Some(jobs.data[k].depth);
        }
      }
      j := EndJob(MergeJob(jobs.data[i], p, parentDepth), finished, at);
      jobs.Set(i, j);
    }

    method JobEvent(p: JobPayload, finished: bool, at: int)
      requires items.Valid() && items.index.Some? && jobs.Valid() && turns.Valid()
      modifies items`timeline, items.list`view, items.list.data, jobs, jobs.data
      ensures items.Valid() && jobs.Valid()
      ensures jobs.data == old(jobs.data) || fresh(jobs.data)
      ensures Value() == ApplyJob(old(Value()), p, finished, at)
    {
      hide ItemList.Valid, UpdatedJob, SettleItems, WithJob;
      if p.jobId == "" {
        return;
      }
      var j := MergeRow(p, finished, at);
      if finished {
        items.Settle(j);
      }
    }

    method PutArtefact(a: Artefact)
      requires artefacts.Valid()
      modifies artefacts, artefacts.data
      ensures artefacts.Valid() && artefacts.view == ShowArtefact(old(artefacts.view), a)
      ensures artefacts.data == old(artefacts.data) || fresh(artefacts.data)
    {
      var i := 0;
      while i < artefacts.len && artefacts.data[i].shown.artefactId != a.shown.artefactId
        invariant i <= artefacts.len
        invariant forall k :: 0 <= k < i ==> artefacts.view[k].shown.artefactId != a.shown.artefactId
      {
        i := i + 1;
      }
      ShowArtefactAt(artefacts.view, a, i);
      if i < artefacts.len {
        artefacts.Set(i, a);
      } else {
        artefacts.Append(a);
      }
    }

    // All of a written item's event but the item.
    method WriteRest(ev: Event)
      requires WritesItem(ev.payload) && artefacts.Valid() && elicitations.Valid()
      modifies this, artefacts, artefacts.data, elicitations, elicitations.data
      ensures artefacts.Valid() && elicitations.Valid()
      ensures artefacts.data == old(artefacts.data) || fresh(artefacts.data)
      ensures elicitations.data == old(elicitations.data) || fresh(elicitations.data)
      ensures Value() == ApplyWrite(old(Value()), ev).(items := old(items.timeline))
    {
      hide Upsert, ShowArtefact, WrittenId;
      var p := ev.payload;
      if ShowsActivity(p) {
        core := Activate(core);
      }
      if p.ArtefactShown? {
        PutArtefact(Artefact(p.artefact, ev.timestamp));
      } else if p.ElicitationRequested? {
        elicitations.Append(Elicitation(p.askId, p.askPrompt, p.schema, p.card));
      }
    }

    method WriteEvent(ev: Event)
      requires WritesItem(ev.payload)
      requires items.Valid() && items.index.Some? && artefacts.Valid() && elicitations.Valid()
      modifies this, items, items.list, items.list.data, items.contents
      modifies artefacts, artefacts.data, elicitations, elicitations.data
      ensures items.Valid() && items.index.Some? && artefacts.Valid() && elicitations.Valid()
      ensures items.list.data == old(items.list.data) || fresh(items.list.data)
      ensures fresh(items.contents - old(items.contents))
      ensures artefacts.data == old(artefacts.data) || fresh(artefacts.data)
      ensures elicitations.data == old(elicitations.data) || fresh(elicitations.data)
      ensures Value() == ApplyWrite(old(Value()), ev)
    {
      hide ItemList.Valid, Upsert, ShowArtefact, WrittenId;
      WriteRest(ev);
      if AddsLine(ev.payload) {
        items.Put(WrittenId(ev), ev.timestamp, Carried(ev.payload));
      }
    }

    method AskEvent(p: Payload)
      requires IsAskEvent(p) && items.Valid() && items.index.Some? && pending.Valid() && elicitations.Valid()
      modifies items`timeline, items.list`view, items.list.data, pending, pending.data, elicitations`len, elicitations`view,
               elicitations.data
      ensures items.Valid() && pending.Valid() && elicitations.Valid()
      ensures pending.data == old(pending.data) || fresh(pending.data)
      ensures Value() == ApplyAsk(old(Value()), p)
    {
      hide ItemList.Valid, AnswerCard, Filter;
      match p
      case PermissionRequested(requestId, toolCall, toolName, title, input, options) =>
        pending.Append(Permission(requestId, toolCall, toolName, title, input, options));
      case PermissionResolved(requestId) => pending.Keep((x: Permission) => x.requestId != requestId);
      case ElicitationResolved(requestId, _, _, _) =>
        elicitations.Keep((x: Elicitation) => x.requestId != requestId);
        items.Answer(p);
    }

    // ---- The whole state ----

    ghost predicate Valid()
      reads items, items.list, items.list.data, items.contents, turns, turns.data, jobs, jobs.data
      reads pending, pending.data, elicitations, elicitations.data, queued, queued.data
      reads artefacts, artefacts.data, scheduled, scheduled.data
    {
      items.Valid() && turns.Valid() && jobs.Valid() && pending.Valid() && elicitations.Valid() && queued.Valid() &&
      artefacts.Valid() && scheduled.Valid()
    }

    // Every array the state writes into is one it already had or a new one.
    twostate predicate OwnsOnlyOldOrNew()
      reads items, items.list, turns, jobs, pending, elicitations, queued, artefacts, scheduled
    {
      && (items.list.data == old(items.list.data) || fresh(items.list.data))
      && (forall c :: c in items.contents ==> c in old(items.contents) || fresh(c))
      && (turns.data == old(turns.data) || fresh(turns.data))
      && (jobs.data == old(jobs.data) || fresh(jobs.data))
      && (pending.data == old(pending.data) || fresh(pending.data))
      && (elicitations.data == old(elicitations.data) || fresh(elicitations.data))
      && (queued.data == old(queued.data) || fresh(queued.data))
      && (artefacts.data == old(artefacts.data) || fresh(artefacts.data))
      && (scheduled.data == old(scheduled.data) || fresh(scheduled.data))
    }

    method StartEvent(p: Payload, at: int)
      requires p.TurnStarted? && Valid() && items.index.Some?
      modifies this, items, items.list, items.list.data, items.contents, turns, turns.data, jobs, jobs.data
      modifies pending, pending.data, elicitations, elicitations.data, queued, queued.data
      modifies artefacts, artefacts.data, scheduled, scheduled.data
      ensures Valid() && items.index.Some? && OwnsOnlyOldOrNew()
      ensures Value() == StartTurn(old(Value()), p.start, at)
    {
      hide ItemList.Valid, List.Valid, StartTurn;
      Start(p.start, at);
    }

    method FinishEvent(p: Payload, at: int)
      requires p.TurnFinished? && Valid() && items.index.Some?
      modifies this, items, items.list, items.list.data, items.contents, turns, turns.data, jobs, jobs.data
      modifies pending, pending.data, elicitations, elicitations.data, queued, queued.data
      modifies artefacts, artefacts.data, scheduled, scheduled.data
      ensures Valid() && items.index.Some? && OwnsOnlyOldOrNew()
      ensures Value() == FinishTurn(old(Value()), p, at)
    {
      hide ItemList.Valid, List.Valid, FinishTurn;
      Finish(p, at);
    }

    method MeasureEvent(p: Payload, at: int)
      requires p.TurnDiff? && Valid() && items.index.Some?
      modifies this, items, items.list, items.list.data, items.contents, turns, turns.data, jobs, jobs.data
      modifies pending, pending.data, elicitations, elicitations.data, queued, queued.data
      modifies artefacts, artefacts.data, scheduled, scheduled.data
      ensures Valid() && items.index.Some? && OwnsOnlyOldOrNew()
      ensures Value() == ApplyTurn(old(Value()), p, at)
    {
      hide ItemList.Valid, List.Valid, SetDiff;
      turns.Update((t: Turn) => SetDiff(t, p.diffTurn, p.diff));
    }

    method TurnEvent(p: Payload, at: int)
      requires IsTurnEvent(p) && Valid() && items.index.Some?
      modifies this, items, items.list, items.list.data, items.contents, turns, turns.data, jobs, jobs.data
      modifies pending, pending.data, elicitations, elicitations.data, queued, queued.data
      modifies artefacts, artefacts.data, scheduled, scheduled.data
      ensures Valid() && items.index.Some? && OwnsOnlyOldOrNew()
      ensures Value() == ApplyTurn(old(Value()), p, at)
    {
      hide Valid, OwnsOnlyOldOrNew, StartTurn, FinishTurn;
      match p
      case TurnStarted(_) => StartEvent(p, at);
      case TurnFinished(_, _, _, _) => FinishEvent(p, at);
      case TurnDiff(_, _) => MeasureEvent(p, at);
    }

    method InjectEvent(p: Payload, at: int)
      requires p.PromptInjected? && Valid() && items.index.Some?
      modifies this, items, items.list, items.list.data, items.contents, turns, turns.data, jobs, jobs.data
      modifies pending, pending.data, elicitations, elicitations.data, queued, queued.data
      modifies artefacts, artefacts.data, scheduled, scheduled.data
      ensures Valid() && items.index.Some? && OwnsOnlyOldOrNew()
      ensures Value() == Inject(old(Value()), p, at)
    {
      hide ItemList.Valid, List.Valid, Inject;
      InjectPrompt(p, at);
    }

    method PlainPromptEvent(p: Payload, at: int)
      requires IsPromptEvent(p) && !p.PromptInjected? && Valid() && items.index.Some?
      modifies this, items, items.list, items.list.data, items.contents, turns, turns.data, jobs, jobs.data
      modifies pending, pending.data, elicitations, elicitations.data, queued, queued.data
      modifies artefacts, artefacts.data, scheduled, scheduled.data
      ensures Valid() && items.index.Some? && OwnsOnlyOldOrNew()
      ensures Value() == ApplyPrompt(old(Value()), p, at)
    {
      hide ItemList.Valid, List.Valid, ApplyPrompt;
      QueueEvent(p, at);
    }

    method ItemEvent(ev: Event)
      requires WritesItem(ev.payload) && Valid() && items.index.Some?
      modifies this, items, items.list, items.list.data, items.contents, turns, turns.data, jobs, jobs.data
      modifies pending, pending.data, elicitations, elicitations.data, queued, queued.data
      modifies artefacts, artefacts.data, scheduled, scheduled.data
      ensures Valid() && items.index.Some? && OwnsOnlyOldOrNew()
      ensures Value() == ApplyWrite(old(Value()), ev)
    {
      hide ItemList.Valid, List.Valid, ApplyWrite;
      WriteEvent(ev);
    }

    method JobRowEvent(p: Payload, at: int)
      requires IsJobEvent(p) && Valid() && items.index.Some?
      modifies this, items, items.list, items.list.data, items.contents, turns, turns.data, jobs, jobs.data
      modifies pending, pending.data, elicitations, elicitations.data, queued, queued.data
      modifies artefacts, artefacts.data, scheduled, scheduled.data
      ensures Valid() && items.index.Some? && OwnsOnlyOldOrNew()
      ensures Value() == ApplyJob(old(Value()), p.job, p.JobFinished?, at)
    {
      hide ItemList.Valid, List.Valid, ApplyJob;
      JobEvent(p.job, p.JobFinished?, at);
    }

    method AskOrAnswerEvent(p: Payload)
      requires IsAskEvent(p) && Valid() && items.index.Some?
      modifies this, items, items.list, items.list.data, items.contents, turns, turns.data, jobs, jobs.data
      modifies pending, pending.data, elicitations, elicitations.data, queued, queued.data
      modifies artefacts, artefacts.data, scheduled, scheduled.data
      ensures Valid() && items.index.Some? && OwnsOnlyOldOrNew()
      ensures Value() == ApplyAsk(old(Value()), p)
    {
      hide ItemList.Valid, List.Valid, ApplyAsk;
      AskEvent(p);
    }

    method Dispatch(ev: Event)
      requires Valid() && items.index.Some?
      modifies this, items, items.list, items.list.data, items.contents, turns, turns.data, jobs, jobs.data
      modifies pending, pending.data, elicitations, elicitations.data, queued, queued.data
      modifies artefacts, artefacts.data, scheduled, scheduled.data
      ensures Valid() && items.index.Some? && OwnsOnlyOldOrNew()
      ensures Value() == ApplyPayload(old(Value()), ev)
    {
      hide Valid, ItemList.Valid, List.Valid, ApplyTurn, ApplyJob, ApplyWrite, ApplyAsk, ApplyCore, Inject, OwnsOnlyOldOrNew;
      var p := ev.payload;
      if IsTurnEvent(p) {
        TurnEvent(p, ev.timestamp);
      } else if p.PromptInjected? {
        InjectEvent(p, ev.timestamp);
      } else if IsPromptEvent(p) {
        PlainPromptEvent(p, ev.timestamp);
      } else if IsJobEvent(p) {
        JobRowEvent(p, ev.timestamp);
      } else if IsAskEvent(p) {
        AskOrAnswerEvent(p);
      } else if WritesItem(p) {
        ItemEvent(ev);
      } else {
        CoreEvent(p, ev.timestamp);
      }
    }

    method CoreEvent(p: Payload, at: int)
      requires TouchesCoreOnly(p) && Valid() && items.index.Some?
      modifies this
      ensures Valid() && items.index.Some? && OwnsOnlyOldOrNew()
      ensures Value() == old(Value()).(core := ApplyCore(old(core), p, at))
    {
      hide ItemList.Valid, List.Valid, ApplyCore;
      core := ApplyCore(core, p, at);
    }

    // Folds one event, discarding one at or below the sequence already folded.
    method Apply(ev: Event)
      requires Valid() && items.index.Some?
      modifies this, items, items.list, items.list.data, items.contents, turns, turns.data, jobs, jobs.data
      modifies pending, pending.data, elicitations, elicitations.data, queued, queued.data
      modifies artefacts, artefacts.data, scheduled, scheduled.data
      ensures Valid() && items.index.Some? && OwnsOnlyOldOrNew()
      ensures Value() == Projection.Apply(old(Value()), ev)
    {
      hide Valid, ItemList.Valid, List.Valid, ApplyPayload;
      if ev.seqNo <= core.seqNo {
        return;
      }
      core := core.(seqNo := ev.seqNo);
      Dispatch(ev);
    }

    method CopyTurnLists() returns (turns': List<Turn>, jobs': List<Job>, queued': List<Queued>, scheduled': List<Scheduled>)
      requires turns.Valid() && jobs.Valid() && queued.Valid() && scheduled.Valid()
      ensures fresh(turns') && fresh(turns'.data) && turns'.Valid() && turns'.view == turns.view
      ensures fresh(jobs') && fresh(jobs'.data) && jobs'.Valid() && jobs'.view == jobs.view
      ensures fresh(queued') && fresh(queued'.data) && queued'.Valid() && queued'.view == queued.view
      ensures fresh(scheduled') && fresh(scheduled'.data) && scheduled'.Valid() && scheduled'.view == scheduled.view
    {
      hide List.Valid;
      turns' := turns.Copy();
      jobs' := jobs.Copy();
      queued' := queued.Copy();
      scheduled' := scheduled.Copy();
    }

    method CopyAskLists() returns (pending': List<Permission>, elicitations': List<Elicitation>, artefacts': List<Artefact>)
      requires pending.Valid() && elicitations.Valid() && artefacts.Valid()
      ensures fresh(pending') && fresh(pending'.data) && pending'.Valid() && pending'.view == pending.view
      ensures fresh(elicitations') && fresh(elicitations'.data) && elicitations'.Valid()
      ensures elicitations'.view == elicitations.view
      ensures fresh(artefacts') && fresh(artefacts'.data) && artefacts'.Valid() && artefacts'.view == artefacts.view
    {
      hide List.Valid;
      pending' := pending.Copy();
      elicitations' := elicitations.Copy();
      artefacts' := artefacts.Copy();
    }

    // A deep copy, safe to hand outside while this state goes on.
    method Clone() returns (c: ThreadState)
      requires Valid()
      ensures fresh(c) && c.Valid() && c.Value() == Value() && c.items.index == None
      ensures Apart(this, c)
    {
      hide ItemList.Valid, List.Valid;
      var turns', jobs', queued', scheduled' := CopyTurnLists();
      var pending', elicitations', artefacts' := CopyAskLists();
      var timeline := items.Copy();
      c := new ThreadState(core, timeline, turns', jobs', pending', elicitations', queued', artefacts', scheduled');
    }
  }

  // No object that one state writes into is the other's.
  ghost predicate Apart(a: ThreadState, b: ThreadState)
    reads a.items, a.items.list, a.turns, a.jobs, a.pending, a.elicitations, a.queued, a.artefacts, a.scheduled
    reads b.items, b.items.list, b.turns, b.jobs, b.pending, b.elicitations, b.queued, b.artefacts, b.scheduled
  {
    && a != b && a.items != b.items && a.items.list != b.items.list && a.items.list.data != b.items.list.data
    && a.items.contents !! b.items.contents
    && a.turns != b.turns && a.turns.data != b.turns.data
    && a.jobs != b.jobs && a.jobs.data != b.jobs.data
    && a.pending != b.pending && a.pending.data != b.pending.data
    && a.elicitations != b.elicitations && a.elicitations.data != b.elicitations.data
    && a.queued != b.queued && a.queued.data != b.queued.data
    && a.artefacts != b.artefacts && a.artefacts.data != b.artefacts.data
    && a.scheduled != b.scheduled && a.scheduled.data != b.scheduled.data
  }

  // Folds a log into a live state.
  method ApplyLog(live: ThreadState, log: seq<Event>)
    requires live.Valid() && live.items.index.Some?
    modifies live, live.items, live.items.list, live.items.list.data, live.items.contents, live.turns, live.turns.data
    modifies live.jobs, live.jobs.data, live.pending, live.pending.data, live.elicitations, live.elicitations.data
    modifies live.queued, live.queued.data, live.artefacts, live.artefacts.data, live.scheduled, live.scheduled.data
    ensures live.Valid() && live.items.index.Some? && live.Value() == ApplyAll(old(live.Value()), log)
    ensures live.OwnsOnlyOldOrNew()
  {
    hide ThreadState.Valid, Apply, ThreadState.Value;
    for i := 0 to |log|
      invariant live.Valid() && live.items.index.Some? && live.Value() == ApplyAll(old(live.Value()), log[..i])
      invariant live.OwnsOnlyOldOrNew()
    {
      live.Apply(log[i]);
      assert log[..i + 1][..i] == log[..i];
    }
    assert log[..|log|] == log;
  }

  // The objects a state is made of, and the arrays they write into.
  ghost function Objects(s: ThreadState): set<object> {
    {s as object, s.items, s.items.list, s.turns, s.jobs, s.pending, s.elicitations, s.queued, s.artefacts, s.scheduled}
  }

  ghost function Arrays(s: ThreadState): set<object>
    reads s.items, s.items.list, s.turns, s.jobs, s.pending, s.elicitations, s.queued, s.artefacts, s.scheduled
  {
    {s.items.list.data as object, s.turns.data, s.jobs.data, s.pending.data, s.elicitations.data, s.queued.data,
     s.artefacts.data, s.scheduled.data} + s.items.contents
  }

  ghost function Footprint(s: ThreadState): set<object>
    reads s.items, s.items.list, s.turns, s.jobs, s.pending, s.elicitations, s.queued, s.artefacts, s.scheduled
  {
    Objects(s) + Arrays(s)
  }

  method ApplyLogWithin(live: ThreadState, log: seq<Event>)
    requires live.Valid() && live.items.index.Some?
    modifies Footprint(live)
    ensures live.OwnsOnlyOldOrNew()
    ensures live.Valid() && live.items.index.Some? && live.Value() == ApplyAll(old(live.Value()), log)
  {
    hide ThreadState.Valid, ApplyAll, ThreadState.Value;
    ApplyLog(live, log);
  }

  // A clone taken at any moment is unchanged by whatever is applied to the live
  // state from then on, and the live state is the fold of all of it.
  method ApplyLogBeside(live: ThreadState, clone: ThreadState, log: seq<Event>)
    requires live.Valid() && live.items.index.Some? && clone.Valid() && Footprint(live) !! Footprint(clone)
    modifies Footprint(live)
    ensures clone.Valid() && clone.Value() == old(clone.Value())
    ensures live.OwnsOnlyOldOrNew()
    ensures live.Valid() && live.items.index.Some? && live.Value() == ApplyAll(old(live.Value()), log)
  {
    hide ThreadState.Valid, ApplyAll, ThreadState.Value;
    ApplyLogWithin(live, log);
  }

  lemma ObjectsApart(a: ThreadState, b: ThreadState)
    requires Apart(a, b)
    ensures Objects(a) !! Objects(b)
  {
  }

  lemma ArraysApart(a: ThreadState, b: ThreadState)
    requires Apart(a, b)
    ensures Arrays(a) !! Arrays(b)
  {
  }

  lemma ArraysAreNoObjects(a: ThreadState, b: ThreadState)
    ensures Objects(a) !! Arrays(b)
  {
  }

  lemma FootprintsApart(a: ThreadState, b: ThreadState)
    requires Apart(a, b)
    ensures Footprint(a) !! Footprint(b)
  {
    ObjectsApart(a, b);
    ArraysApart(a, b);
    ArraysAreNoObjects(a, b);
    ArraysAreNoObjects(b, a);
    hide Objects, Arrays, Apart;
  }

  // Nor do the two come to share anything.
  method ApplyLogApart(live: ThreadState, clone: ThreadState, log: seq<Event>)
    requires live.Valid() && live.items.index.Some? && clone.Valid() && Apart(live, clone)
    modifies live, live.items, live.items.list, live.items.list.data, live.items.contents, live.turns, live.turns.data
    modifies live.jobs, live.jobs.data, live.pending, live.pending.data, live.elicitations, live.elicitations.data
    modifies live.queued, live.queued.data, live.artefacts, live.artefacts.data, live.scheduled, live.scheduled.data
    ensures Apart(live, clone)
  {
    hide ThreadState.Valid, ApplyAll, ThreadState.Value, Apply;
    ApplyLog(live, log);
    assert live.items.contents !! clone.items.contents by {
      hide *;
      assert forall c :: c in clone.items.contents ==> c in old(clone.items.contents) && allocated(c);
    }
  }

  method CloneAndGoOn(live: ThreadState, log: seq<Event>) returns (clone: ThreadState)
    requires live.Valid() && live.items.index.Some?
    modifies Footprint(live)
    ensures fresh(clone) && clone.Valid() && clone.Value() == old(live.Value())
    ensures live.Valid() && live.Value() == ApplyAll(old(live.Value()), log)
  {
    hide ThreadState.Valid, Apply;
    clone := live.Clone();
    FootprintsApart(live, clone);
    hide Footprint, Apart;
    ApplyLogBeside(live, clone, log);
  }

  method NewList<T>(xs: seq<T>) returns (l: List<T>)
    ensures fresh(l) && fresh(l.data) && l.Valid() && l.view == xs
  {
    var data := new T[|xs|](i requires 0 <= i < |xs| => xs[i]);
    l := new List(data, |xs|);
    assert data[..|xs|] == xs;
  }

  // The positions of the items' ids, needed after a snapshot is decoded.
  method Reindex(items: seq<Item>) returns (index: map<string, nat>)
    requires DistinctIds(items)
    ensures IndexOf(items, index)
  {
    index := map[];
    for i := 0 to |items|
      invariant IndexOf(items[..i], index)
    {
      IndexAppend(items[..i], index, items[i]);
      assert items[..i + 1] == items[..i] + [items[i]];
      index := index[items[i].id := i];
    }
    assert items[..|items|] == items;
  }

  method NewCell(it: Item) returns (c: Cell)
    ensures Shows(c, it) && (c.content != null ==> fresh(c.content))
  {
    var n := |it.content|;
    if n == 0 {
      c := Cell(it, null, 0);
    } else {
      var content := new ToolContent[n](j requires 0 <= j < n => it.content[j]);
      assert content[..n] == it.content;
      c := Cell(it.(content := []), content, n);
    }
  }

  method NewItemList(items: seq<Item>) returns (l: ItemList)
    requires DistinctIds(items)
    ensures fresh(l) && fresh(l.list) && fresh(l.list.data) && fresh(l.contents)
    ensures l.Valid() && l.timeline == items && l.index.Some?
  {
    hide DistinctIds, IndexOf, Shows;
    var index := Reindex(items);
    var cells := new Cell[|items|];
    ghost var owned: set<array<ToolContent>> := {};
    for i := 0 to |items|
      invariant fresh(owned)
      invariant forall k :: 0 <= k < i ==> Shows(cells[k], items[k])
      invariant forall k :: 0 <= k < i && cells[k].content != null ==> cells[k].content in owned
      invariant forall j, k :: 0 <= j < k < i && cells[j].content != null ==> cells[j].content != cells[k].content
    {
      var cell := NewCell(items[i]);
      cells[i] := cell;
      owned := owned + if cell.content == null then {} else {cell.content};
    }
    var list := new List(cells, |items|);
    l := new ItemList(list, Some(index), items, owned);
  }

  method NewLists(v: State, items: ItemList) returns (live: ThreadState)
    ensures fresh(live) && live.core == v.core && live.items == items
    ensures live.turns.Valid() && live.turns.view == v.turns && live.jobs.Valid() && live.jobs.view == v.jobs
    ensures live.pending.Valid() && live.pending.view == v.pending
    ensures live.elicitations.Valid() && live.elicitations.view == v.elicitations
    ensures live.queued.Valid() && live.queued.view == v.queued
    ensures live.artefacts.Valid() && live.artefacts.view == v.artefacts
    ensures live.scheduled.Valid() && live.scheduled.view == v.scheduled
  {
    hide List.Valid;
    var turns := NewList(v.turns);
    var jobs := NewList(v.jobs);
    var pending := NewList(v.pending);
    var elicitations := NewList(v.elicitations);
    var queued := NewList(v.queued);
    var artefacts := NewList(v.artefacts);
    var scheduled := NewList(v.scheduled);
    live := new ThreadState(v.core, items, turns, jobs, pending, elicitations, queued, artefacts, scheduled);
  }

  // The live state a stored snapshot decodes to; that of a new thread's snapshot
  // is where every log starts.
  method FromSnapshot(v: State) returns (live: ThreadState)
    requires DistinctIds(v.items)
    ensures fresh(live) && live.Valid() && live.items.index.Some? && live.Value() == v
  {
    hide ItemList.Valid, List.Valid;
    var items := NewItemList(v.items);
    live := NewLists(v, items);
  }

  lemma CancelToolIs(it: Item, turnId: string, live: set<string>)
    ensures CancelTool(it, turnId, live) ==
            if it.kind == Tool && InFlight(it) && (it.turnId == turnId || it.turnId == "") && it.id !in live
            then it.(status := Cancelled, outcome := it.outcome) else it
  {
  }

  lemma ScheduleHead(scheduled: seq<Scheduled>, p: Scheduled)
    ensures scheduled == [] ==> Schedule(scheduled, p) == [p]
    ensures scheduled != [] && scheduled[0].id == p.id ==> Schedule(scheduled, p) == scheduled[0 := p]
    ensures scheduled != [] && scheduled[0].id != p.id ==>
              Schedule(scheduled, p) == [scheduled[0]] + Schedule(scheduled[1..], p)
  {
  }

  lemma {:induction false} ScheduleAt(scheduled: seq<Scheduled>, p: Scheduled, i: nat)
    requires i <= |scheduled| && (forall k :: 0 <= k < i ==> scheduled[k].id != p.id)
    requires i < |scheduled| ==> scheduled[i].id == p.id
    ensures Schedule(scheduled, p) == if i < |scheduled| then scheduled[i := p] else scheduled + [p]
  {
    hide *;
    ScheduleHead(scheduled, p);
    if i > 0 {
      ScheduleAt(scheduled[1..], p, i - 1);
    }
  }

  lemma ShowArtefactHead(artefacts: seq<Artefact>, a: Artefact)
    ensures artefacts == [] ==> ShowArtefact(artefacts, a) == [a]
    ensures artefacts != [] && artefacts[0].shown.artefactId == a.shown.artefactId ==>
              ShowArtefact(artefacts, a) == artefacts[0 := a]
    ensures artefacts != [] && artefacts[0].shown.artefactId != a.shown.artefactId ==>
              ShowArtefact(artefacts, a) == [artefacts[0]] + ShowArtefact(artefacts[1..], a)
  {
  }

  lemma {:induction false} ShowArtefactAt(artefacts: seq<Artefact>, a: Artefact, i: nat)
    requires i <= |artefacts| && (forall k :: 0 <= k < i ==> artefacts[k].shown.artefactId != a.shown.artefactId)
    requires i < |artefacts| ==> artefacts[i].shown.artefactId == a.shown.artefactId
    ensures ShowArtefact(artefacts, a) == if i < |artefacts| then artefacts[i := a] else artefacts + [a]
  {
    hide *;
    ShowArtefactHead(artefacts, a);
    if i > 0 {
      ShowArtefactAt(artefacts[1..], a, i - 1);
    }
  }
}
