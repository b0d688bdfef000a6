// Conservation of queued prompts: a prompt stays in the queue, in order, until
// the first event that takes it out, and leaves into the transcript whole.
module PromptQueue {
  import opened Prelude
  import opened Protocol
  import opened Projection
  import opened Timeline

  // The event takes the queue entry called id out of the queue.
  predicate TakesOut(p: Payload, id: string) {
    || (p.TurnStarted? && p.start.queueId == id && id != "")
    || (p.PromptInjected? && p.injectedId == id)
    || (p.PromptDequeued? && p.dequeuedId == id)
  }

  predicate TakenOutIn(log: seq<Event>, id: string) {
    exists k :: 0 <= k < |log| && TakesOut(log[k].payload, id)
  }

  function Entry(ev: Event): Queued
    requires ev.payload.PromptQueued?
  {
    Queued(ev.payload.queueId, ev.payload.prompt, ev.payload.images, ev.timestamp, ev.payload.sent)
  }

  // The prompts a log has queued and that nothing later in it took out, in the
  // order they were queued.
  function Outstanding(log: seq<Event>): seq<Queued> {
    if log == [] then []
    else if log[0].payload.PromptQueued? && !TakenOutIn(log[1..], log[0].payload.queueId)
    then [Entry(log[0])] + Outstanding(log[1..])
    else Outstanding(log[1..])
  }

  // What one event does to the queue.
  function QueueAfter(queued: seq<Queued>, ev: Event): seq<Queued> {
    match ev.payload
    case PromptQueued(_, _, _, _) => queued + [Entry(ev)]
    case TurnStarted(start) => if start.queueId != "" then RemoveQueued(queued, start.queueId) else queued
    case PromptInjected(id, _) => RemoveQueued(queued, id)
    case PromptDequeued(id) => RemoveQueued(queued, id)
    case _ => queued
  }

  lemma RemoveAbsent(queued: seq<Queued>, id: string)
    requires QueuePosition(queued, id) == |queued|
    ensures RemoveQueued(queued, id) == queued
  {
    FilterAll((q: Queued) => q.queueId != id, queued);
  }

  lemma PayloadQueue(s: State, ev: Event)
    ensures ApplyPayload(s, ev).queued == QueueAfter(s.queued, ev)
  {
    hide RemoveQueued;
    if ev.payload.PromptInjected? {
      if QueuePosition(s.queued, ev.payload.injectedId) == |s.queued| {
        RemoveAbsent(s.queued, ev.payload.injectedId);
      }
    }
  }

  lemma StepQueue(s: State, ev: Event)
    requires ev.seqNo > s.core.seqNo
    ensures Apply(s, ev).queued == QueueAfter(s.queued, ev)
  {
    hide ApplyPayload, QueueAfter;
    PayloadQueue(s.(core := s.core.(seqNo := ev.seqNo)), ev);
  }

  lemma {:induction false} RemoveConcat(a: seq<Queued>, b: seq<Queued>, id: string)
    ensures RemoveQueued(a + b, id) == RemoveQueued(a, id) + RemoveQueued(b, id)
  {
    if b == [] {
      assert a + b == a;
    } else {
      var last := |b| - 1;
      RemoveConcat(a, b[..last], id);
      assert (a + b)[..|a + b| - 1] == a + b[..last];
    }
  }

  lemma RemoveOne(q: Queued, id: string)
    ensures RemoveQueued([q], id) == if q.queueId == id then [] else [q]
  {
    FilterAppend((x: Queued) => x.queueId != id, [], q);
    assert [] + [q] == [q];
    assert RemoveQueued([q], id) == Filter((x: Queued) => x.queueId != id, [q]);
  }

  // Outstanding, one event further.
  lemma {:induction false} OutstandingStep(log: seq<Event>, ev: Event)
    ensures Outstanding(log + [ev]) == QueueAfter(Outstanding(log), ev)
  {
    if log == [] {
      assert ([ev] + [])[1..] == [] && log + [ev] == [ev];
    } else {
      var rest := log[1..];
      OutstandingStep(rest, ev);
      assert (log + [ev])[1..] == rest + [ev];
      if log[0].payload.PromptQueued? {
        var id := log[0].payload.queueId;
        assert TakenOutIn(rest + [ev], id) <==> TakenOutIn(rest, id) || TakesOut(ev.payload, id) by {
          if TakenOutIn(rest, id) {
            var k :| 0 <= k < |rest| && TakesOut(rest[k].payload, id);
            assert (rest + [ev])[k] == rest[k];
          }
          if TakesOut(ev.payload, id) {
            assert (rest + [ev])[|rest|] == ev;
          }
        }
        HeadStep(log[0], Outstanding(rest), ev);
      }
    }
  }

  lemma HeadStep(head: Event, rest: seq<Queued>, ev: Event)
    requires head.payload.PromptQueued?
    ensures QueueAfter([Entry(head)] + rest, ev) ==
              (if TakesOut(ev.payload, head.payload.queueId) then [] else [Entry(head)]) + QueueAfter(rest, ev)
  {
    hide RemoveQueued;
    var q, p := Entry(head), ev.payload;
    if p.PromptQueued? {
      assert [q] + rest + [Entry(ev)] == [q] + (rest + [Entry(ev)]);
    } else if p.TurnStarted? || p.PromptInjected? || p.PromptDequeued? {
      var id := if p.TurnStarted? then p.start.queueId else if p.PromptInjected? then p.injectedId else p.dequeuedId;
      RemoveConcat([q], rest, id);
      RemoveOne(q, id);
    }
  }

  // The queue of a thread is what its log queued and nothing took out since.
  lemma {:induction false} QueueIsOutstanding(threadId: string, log: seq<Event>)
    requires Sequenced(log)
    ensures Fold(threadId, log).queued == Outstanding(log)
  {
    if log != [] {
      var last := |log| - 1;
      QueueIsOutstanding(threadId, log[..last]);
      FoldSeqNo(threadId, log[..last]);
      StepQueue(Fold(threadId, log[..last]), log[last]);
      hide Apply, QueueAfter;
      OutstandingStep(log[..last], log[last]);
      assert log == log[..last] + [log[last]];
    }
  }

  lemma {:induction false} OutstandingMembers(log: seq<Event>, q: Queued)
    ensures q in Outstanding(log) <==>
              exists k :: 0 <= k < |log| && log[k].payload.PromptQueued? && Entry(log[k]) == q &&
                          !TakenOutIn(log[k + 1..], q.queueId)
  {
    if log != [] {
      var rest := log[1..];
      OutstandingMembers(rest, q);
      assert log[0 + 1..] == rest;
      forall k | 0 <= k < |rest| ensures rest[k + 1..] == log[k + 2..] && rest[k] == log[k + 1] {
      }
      if exists k :: 0 <= k < |log| && log[k].payload.PromptQueued? && Entry(log[k]) == q && !TakenOutIn(log[k + 1..], q.queueId) {
        var k :| 0 <= k < |log| && log[k].payload.PromptQueued? && Entry(log[k]) == q && !TakenOutIn(log[k + 1..], q.queueId);
        if k > 0 {
          assert rest[k - 1] == log[k] && rest[k - 1 + 1..] == log[k + 1..];
        }
      }
    }
  }

  predicate DistinctQueueIds(log: seq<Event>) {
    forall i, j :: 0 <= i < j < |log| && log[i].payload.PromptQueued? && log[j].payload.PromptQueued? ==>
                     log[i].payload.queueId != log[j].payload.queueId
  }

  // With distinct ids, a prompt is in the queue exactly from its prompt.queued
  // to the first later event that names it, and never again.
  lemma PromptStaysUntilTaken(threadId: string, log: seq<Event>, k: nat, n: nat)
    requires Sequenced(log) && DistinctQueueIds(log) && k < |log| && n <= |log| && log[k].payload.PromptQueued?
    ensures (exists q: Queued :: q in Fold(threadId, log[..n]).queued && q.queueId == log[k].payload.queueId) <==>
              k < n && !TakenOutIn(log[k + 1..n], log[k].payload.queueId)
    ensures k < n && !TakenOutIn(log[k + 1..n], log[k].payload.queueId) ==> Entry(log[k]) in Fold(threadId, log[..n]).queued
  {
    var id := log[k].payload.queueId;
    QueueIsOutstanding(threadId, log[..n]);
    forall q: Queued | q.queueId == id
      ensures q in Fold(threadId, log[..n]).queued <==>
                k < n && Entry(log[k]) == q && !TakenOutIn(log[k + 1..n], id)
    {
      OutstandingMembers(log[..n], q);
      if k < n {
        assert log[..n][k] == log[k] && log[..n][k + 1..] == log[k + 1..n];
      }
      if q in Outstanding(log[..n]) {
        var m :| 0 <= m < n && log[..n][m].payload.PromptQueued? && Entry(log[..n][m]) == q &&
                 !TakenOutIn(log[..n][m + 1..], id);
        assert log[m].payload.queueId == id;
        assert m == k;
      }
    }
    assert Entry(log[k]).queueId == id;
  }

  // ---- Leaving into the transcript ----

  predicate ShowsUserMessage(items: seq<Item>, id: string, prompt: string, images: seq<Image>) {
    var i := Position(items, id);
    i < |items| && items[i].kind == Message && items[i].role == "user" && items[i].text == prompt && items[i].images == images
  }

  lemma UpsertShows(items: seq<Item>, id: string, at: int, prompt: string, images: seq<Image>, turn: string)
    ensures ShowsUserMessage(Upsert(items, id, at, UserPrompt(prompt, images, turn)), id, prompt, images)
  {
    var i := Position(items, id);
    var r := Upsert(items, id, at, UserPrompt(prompt, images, turn));
    UpsertKeeps(items, id, at, UserPrompt(prompt, images, turn));
    var j := Position(r, id);
    assert r[i].id == id;
    assert forall k :: 0 <= k < i ==> r[k] == items[k];
    assert j == i;
  }

  // A prompt read into a running turn becomes a user message with its text and
  // its images.
  lemma InjectionShowsPrompt(s: State, ev: Event, i: nat)
    requires ev.payload.PromptInjected? && ev.seqNo > s.core.seqNo
    requires i == QueuePosition(s.queued, ev.payload.injectedId) && i < |s.queued|
    ensures ShowsUserMessage(Apply(s, ev).items, "prompt:" + ev.payload.injectedId, s.queued[i].prompt, s.queued[i].images)
    ensures Apply(s, ev).queued == RemoveQueued(s.queued, ev.payload.injectedId)
  {
    UpsertShows(s.items, "prompt:" + ev.payload.injectedId, ev.timestamp, s.queued[i].prompt, s.queued[i].images,
                ev.payload.intoTurn);
  }

  // So does one a turn starts from without text or images of its own, unless
  // the entry held neither.
  lemma StartShowsPrompt(s: State, ev: Event, i: nat)
    requires ev.payload.TurnStarted? && ev.seqNo > s.core.seqNo && ev.payload.start.queueId != ""
    requires i == QueuePosition(s.queued, ev.payload.start.queueId) && i < |s.queued|
    requires ev.payload.start.prompt == "" && ev.payload.start.images == []
    ensures var t, q := Apply(s, ev), s.queued[i];
            && (if q.prompt == "" && q.images == [] then t.items == s.items
                else ShowsUserMessage(t.items, "prompt:" + ev.payload.start.turnId, q.prompt, q.images))
            && t.queued == RemoveQueued(s.queued, ev.payload.start.queueId)
            && t.turns[|s.turns|].prompt == q.prompt && t.turns[|s.turns|].images == q.images
  {
    UpsertShows(s.items, "prompt:" + ev.payload.start.turnId, ev.timestamp, s.queued[i].prompt, s.queued[i].images,
                ev.payload.start.turnId);
  }
}
