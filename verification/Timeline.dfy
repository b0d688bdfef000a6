// What every event keeps about the timeline: items are never removed or
// reordered, ids stay distinct, and so an id keeps its position for good.
module Timeline {
  import opened Prelude
  import opened Protocol
  import opened Projection

  predicate DistinctIds(items: seq<Item>) {
    forall i, j :: 0 <= i < j < |items| ==> items[i].id != items[j].id
  }

  // b continues a: the same ids at the same positions, and maybe more after.
  predicate Continues(a: seq<Item>, b: seq<Item>) {
    |a| <= |b| && forall i :: 0 <= i < |a| ==> a[i].id == b[i].id
  }

  function Ids(items: seq<Item>): (r: seq<string>)
    ensures |r| == |items| && forall i :: 0 <= i < |r| ==> r[i] == items[i].id
  {
    MapSeq((it: Item) => it.id, items)
  }

  lemma PositionOf(items: seq<Item>, i: nat)
    requires i < |items| && DistinctIds(items)
    ensures Position(items, items[i].id) == i
  {
    var p := Position(items, items[i].id);
    assert p < |items| ==> items[p].id == items[i].id;
  }

  predicate Keeps(a: seq<Item>, b: seq<Item>) {
    Continues(a, b) && (DistinctIds(a) ==> DistinctIds(b))
  }

  lemma WriteKeepsId(it: Item, at: int, w: ItemWrite)
    ensures Write(it, at, w).id == it.id
  {
  }

  lemma UpsertKeeps(items: seq<Item>, id: string, at: int, w: ItemWrite)
    ensures Keeps(items, Upsert(items, id, at, w))
    ensures HasItem(Upsert(items, id, at, w), id)
  {
    var i := Position(items, id);
    WriteKeepsId(if i < |items| then items[i] else NewItem(id), at, w);
    var r := Upsert(items, id, at, w);
    assert r[i].id == id;
  }

  lemma StartTurnKeeps(s: State, start: TurnStart, at: int)
    ensures Keeps(s.items, StartTurn(s, start, at).items)
  {
    var prompt, images := StartPrompt(s, start), StartImages(s, start);
    UpsertKeeps(s.items, "prompt:" + start.turnId, at, UserPrompt(prompt, images, start.turnId));
  }

  lemma PromptKeeps(s: State, p: Payload, at: int)
    requires IsPromptEvent(p)
    ensures Keeps(s.items, ApplyPrompt(s, p, at).items)
  {
    if p.PromptInjected? {
      var i := QueuePosition(s.queued, p.injectedId);
      if i < |s.queued| {
        UpsertKeeps(s.items, "prompt:" + p.injectedId, at,
                    UserPrompt(s.queued[i].prompt, s.queued[i].images, p.intoTurn));
      }
    }
  }

  lemma TurnKeeps(s: State, p: Payload, at: int)
    requires IsTurnEvent(p)
    ensures Keeps(s.items, ApplyTurn(s, p, at).items)
  {
    if p.TurnStarted? {
      StartTurnKeeps(s, p.start, at);
    }
  }

  lemma JobKeeps(s: State, p: JobPayload, finished: bool, at: int)
    ensures Keeps(s.items, ApplyJob(s, p, finished, at).items)
  {
  }

  lemma AskKeeps(s: State, p: Payload)
    requires IsAskEvent(p)
    ensures Keeps(s.items, ApplyAsk(s, p).items)
  {
  }

  lemma WriteKeeps(s: State, ev: Event)
    requires WritesItem(ev.payload)
    ensures Keeps(s.items, ApplyWrite(s, ev).items)
  {
    UpsertKeeps(s.items, WrittenId(ev), ev.timestamp, Carried(ev.payload));
  }

  lemma ApplyPayloadKeeps(s: State, ev: Event)
    ensures Keeps(s.items, ApplyPayload(s, ev).items)
  {
    var p, at := ev.payload, ev.timestamp;
    if IsTurnEvent(p) {
      TurnKeeps(s, p, at);
    } else if IsPromptEvent(p) {
      PromptKeeps(s, p, at);
    } else if IsJobEvent(p) {
      JobKeeps(s, p.job, p.JobFinished?, at);
    } else if WritesItem(p) {
      WriteKeeps(s, ev);
    } else if IsAskEvent(p) {
      AskKeeps(s, p);
    }
  }

  lemma ApplyKeepsTimeline(s: State, ev: Event)
    ensures Keeps(s.items, Apply(s, ev).items)
  {
    if ev.seqNo > s.core.seqNo {
      ApplyPayloadKeeps(s.(core := s.core.(seqNo := ev.seqNo)), ev);
    }
  }

  lemma {:induction false} ApplyAllKeepsTimeline(s: State, log: seq<Event>)
    ensures Keeps(s.items, ApplyAll(s, log).items)
  {
    if log != [] {
      ApplyAllKeepsTimeline(s, log[..|log| - 1]);
      ApplyKeepsTimeline(ApplyAll(s, log[..|log| - 1]), log[|log| - 1]);
    }
  }

  // An item of a thread sits at one position from the event that adds it on.
  lemma PositionIsPermanent(threadId: string, log: seq<Event>, later: seq<Event>, id: string)
    requires HasItem(Fold(threadId, log).items, id)
    ensures Position(Fold(threadId, log + later).items, id) == Position(Fold(threadId, log).items, id)
  {
    var s := Fold(threadId, log);
    var t := Fold(threadId, log + later);
    ApplyAllConcat(New(threadId), log, later);
    ApplyAllKeepsTimeline(New(threadId), log);
    ApplyAllKeepsTimeline(s, later);
    PositionOf(t.items, Position(s.items, id));
  }

  // ---- Sequence numbers ----

  // A log's sequence numbers are positive and increase.
  predicate Sequenced(log: seq<Event>) {
    (forall k :: 0 <= k < |log| ==> log[k].seqNo > 0) &&
    forall i, j :: 0 <= i < j < |log| ==> log[i].seqNo < log[j].seqNo
  }

  lemma AppliedSeqNo(s: State, ev: Event)
    requires ev.seqNo > s.core.seqNo
    ensures Apply(s, ev).core.seqNo == ev.seqNo
  {
  }

  lemma {:induction false} FoldSeqNo(threadId: string, log: seq<Event>)
    requires Sequenced(log)
    ensures Fold(threadId, log).core.seqNo == if log == [] then 0 else log[|log| - 1].seqNo
  {
    if log != [] {
      var last := |log| - 1;
      FoldSeqNo(threadId, log[..last]);
      AppliedSeqNo(Fold(threadId, log[..last]), log[last]);
    }
  }
}
