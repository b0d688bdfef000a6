// The turn rules over whole logs: which turn is open, what phase says about
// it, and what becomes of a tool left in flight when its turn ends.
module TurnLifecycle {
  import opened Prelude
  import opened Protocol
  import opened Projection
  import opened Timeline

  predicate HasOpenTurn(turns: seq<Turn>) { exists i :: 0 <= i < |turns| && !turns[i].done }

  // At most one turn is open, it is the last one, and the phase knows of it.
  predicate Orderly(s: State) {
    && (forall i :: 0 <= i < |s.turns| - 1 ==> s.turns[i].done)
    && (forall i :: 0 <= i < |s.turns| ==> s.turns[i].id != "")
    && (HasOpenTurn(s.turns) ==> s.core.phase != Idle)
  }

  // What a log may not hold: a turn with no id, and a turn that starts or a
  // workspace that becomes ready while a turn is open.
  predicate Legal(s: State, p: Payload) {
    && (p.TurnStarted? ==> p.start.turnId != "" && !HasOpenTurn(s.turns))
    && (p.WorkspaceReady? ==> !HasOpenTurn(s.turns))
  }

  predicate LegalLog(threadId: string, log: seq<Event>) {
    forall k :: 0 <= k < |log| ==>
      var s := Fold(threadId, log[..k]);
      log[k].seqNo > s.core.seqNo ==> Legal(s, log[k].payload)
  }

  lemma {:induction false} OpenTurnIsLast(turns: seq<Turn>)
    requires forall i :: 0 <= i < |turns| - 1 ==> turns[i].done
    requires forall i :: 0 <= i < |turns| ==> turns[i].id != ""
    ensures OpenTurn(turns) == (if HasOpenTurn(turns) then turns[|turns| - 1].id else "")
  {
    if turns != [] && turns[|turns| - 1].done {
      OpenTurnIsLast(turns[..|turns| - 1]);
    }
  }

  lemma StartTurnOrderly(s: State, start: TurnStart, at: int)
    requires Orderly(s)
    ensures Orderly(StartTurn(s, start, at)) <==> start.turnId != "" && !HasOpenTurn(s.turns)
  {
    var t := StartTurn(s, start, at);
    var last := |s.turns|;
    assert t.turns[last].id == start.turnId && !t.turns[last].done;
    assert forall i :: 0 <= i < last ==> t.turns[i] == s.turns[i];
  }

  lemma FinishTurnOrderly(s: State, p: Payload, at: int)
    requires p.TurnFinished? && Orderly(s)
    ensures Orderly(FinishTurn(s, p, at))
    ensures Matches(s.turns, p.turnId) ==> !HasOpenTurn(FinishTurn(s, p, at).turns) && FinishTurn(s, p, at).core.phase == Idle
    ensures !Matches(s.turns, p.turnId) ==>
              HasOpenTurn(FinishTurn(s, p, at).turns) && FinishTurn(s, p, at).core.phase == s.core.phase &&
              FinishTurn(s, p, at).items == s.items
  {
    OpenTurnIsLast(s.turns);
    var t := FinishTurn(s, p, at);
    assert forall i :: 0 <= i < |s.turns| ==> t.turns[i] == CloseTurn(s.turns[i], p, at);
    if !Matches(s.turns, p.turnId) {
      assert !t.turns[|t.turns| - 1].done;
    }
  }

  lemma TurnOrderly(s: State, p: Payload, at: int)
    requires IsTurnEvent(p) && Orderly(s)
    ensures Orderly(ApplyTurn(s, p, at)) <==> Legal(s, p)
  {
    match p
    case TurnStarted(start) => StartTurnOrderly(s, start, at);
    case TurnFinished(_, _, _, _) => FinishTurnOrderly(s, p, at);
    case TurnDiff(turnId, diff) =>
      var t := ApplyTurn(s, p, at);
      assert forall i :: 0 <= i < |s.turns| ==> t.turns[i] == SetDiff(s.turns[i], turnId, diff);
  }

  lemma CoreOrderly(s: State, p: Payload, at: int)
    requires TouchesCoreOnly(p) && Orderly(s)
    ensures Orderly(s.(core := ApplyCore(s.core, p, at))) <==> Legal(s, p)
  {
    assert p.WorkspaceReady? || ApplyCore(s.core, p, at).phase in {s.core.phase, Closed, Provisioning, Cleaning,
                                                                   ProvisionFailed, CleanupFailed};
  }

  // Other events leave turns and, but for waking an idle thread, phase alone.
  lemma OtherOrderly(s: State, ev: Event)
    requires !IsTurnEvent(ev.payload) && !TouchesCoreOnly(ev.payload)
    ensures ApplyPayload(s, ev).turns == s.turns
    ensures ApplyPayload(s, ev).core.phase in {s.core.phase, InTurn}
  {
    assert IsPromptEvent(ev.payload) || IsJobEvent(ev.payload) || WritesItem(ev.payload) || IsAskEvent(ev.payload);
  }

  // A step keeps a thread orderly exactly when the event is legal there.
  lemma StepKeepsOrderly(s: State, ev: Event)
    requires Orderly(s) && ev.seqNo > s.core.seqNo
    ensures Orderly(Apply(s, ev)) <==> Legal(s, ev.payload)
  {
    var s1 := s.(core := s.core.(seqNo := ev.seqNo));
    hide ApplyTurn, ApplyPrompt, ApplyJob, ApplyAsk, ApplyWrite, ApplyCore, OpenTurn;
    if IsTurnEvent(ev.payload) {
      TurnOrderly(s1, ev.payload, ev.timestamp);
    } else if TouchesCoreOnly(ev.payload) {
      CoreOrderly(s1, ev.payload, ev.timestamp);
    } else {
      OtherOrderly(s1, ev);
    }
  }

  // Over any legal log, whatever stray or repeated turn.finished events are in
  // it, at most one turn is open, it is the last, and the phase is not idle.
  lemma {:induction false} LegalLogsStayOrderly(threadId: string, log: seq<Event>)
    requires LegalLog(threadId, log)
    ensures Orderly(Fold(threadId, log))
  {
    if log != [] {
      var last := |log| - 1;
      assert forall k :: 0 <= k < last ==> log[..last][..k] == log[..k];
      LegalLogsStayOrderly(threadId, log[..last]);
      if log[last].seqNo > Fold(threadId, log[..last]).core.seqNo {
        StepKeepsOrderly(Fold(threadId, log[..last]), log[last]);
      }
    }
  }

  // ---- Tools at the end of a turn ----

  predicate OfTurn(it: Item, turnId: string) { it.turnId == turnId || it.turnId == "" }

  predicate StandsForLiveJob(jobs: seq<Job>, callId: string) {
    exists i :: 0 <= i < |jobs| && !JobDone(jobs[i].status) && jobs[i].toolCallId == callId && callId != ""
  }

  lemma LiveCallsAreLive(jobs: seq<Job>, callId: string)
    ensures callId in LiveCalls(jobs) <==> StandsForLiveJob(jobs, callId)
  {
    if callId in LiveCalls(jobs) {
      var j :| j in jobs && !JobDone(j.status) && j.toolCallId != "" && j.toolCallId == callId;
      var i :| 0 <= i < |jobs| && jobs[i] == j;
    }
    if StandsForLiveJob(jobs, callId) {
      var i :| 0 <= i < |jobs| && !JobDone(jobs[i].status) && jobs[i].toolCallId == callId && callId != "";
      assert jobs[i] in jobs;
    }
  }

  // The finish of the open turn takes the thread idle and settles every tool of
  // that turn but those standing for a live job; every other item is as it was.
  lemma FinishSettlesTools(s: State, ev: Event, k: nat)
    requires Orderly(s) && ev.payload.TurnFinished? && ev.seqNo > s.core.seqNo
    requires Matches(s.turns, ev.payload.turnId) && k < |s.items|
    ensures var t := Apply(s, ev);
            && t.core.phase == Idle && !HasOpenTurn(t.turns) && |t.items| == |s.items|
            && t.items[k] == (if s.items[k].kind == Tool && InFlight(s.items[k]) && OfTurn(s.items[k], ev.payload.turnId) &&
                                 !StandsForLiveJob(s.jobs, s.items[k].id)
                              then s.items[k].(status := Cancelled)
                              else s.items[k])
            && (t.items[k].kind == Tool && InFlight(t.items[k]) && OfTurn(t.items[k], ev.payload.turnId) ==>
                  StandsForLiveJob(t.jobs, t.items[k].id))
  {
    var s1 := s.(core := s.core.(seqNo := ev.seqNo));
    FinishTurnOrderly(s1, ev.payload, ev.timestamp);
    LiveCallsAreLive(s.jobs, s.items[k].id);
  }

  // ---- A job's finish settles its tool call ----

  predicate HasJob(s: State, jobId: string, callId: string) {
    var i := JobPosition(s.jobs, jobId);
    i < |s.jobs| && s.jobs[i].toolCallId == callId
  }

  // No row of the job names another tool call.
  predicate Loyal(ev: Event, jobId: string, callId: string) {
    IsJobEvent(ev.payload) && ev.payload.job.jobId == jobId ==> ev.payload.job.toolCallId in {"", callId}
  }

  lemma UpdatedJobFacts(s: State, p: JobPayload, finished: bool, at: int)
    ensures var j, before := UpdatedJob(s, p, finished, at), WithJob(s, p.jobId, at)[JobPosition(s.jobs, p.jobId)];
            && j.id == p.jobId == before.id
            && j.toolCallId == (if p.toolCallId != "" then p.toolCallId else before.toolCallId)
            && (finished ==> JobDone(j.status))
  {
  }

  // The tool call a job stands for, if any.
  function CallOf(jobs: seq<Job>, jobId: string): string {
    var i := JobPosition(jobs, jobId);
    if i < |jobs| then jobs[i].toolCallId else ""
  }

  // The tool call an event names for a job, if it is a row of the job that does.
  function RowCall(ev: Event, jobId: string): string {
    if IsJobEvent(ev.payload) && ev.payload.job.jobId == jobId then ev.payload.job.toolCallId else ""
  }

  // The call named by the last row of the job that names any.
  function LastCall(log: seq<Event>, jobId: string): string {
    if log == [] then ""
    else if RowCall(log[|log| - 1], jobId) != "" then RowCall(log[|log| - 1], jobId)
    else LastCall(log[..|log| - 1], jobId)
  }

  // The same from a state on, rows that are stale left out.
  function LastCallFrom(s: State, log: seq<Event>, jobId: string): string {
    if log == [] then CallOf(s.jobs, jobId)
    else
      var last := |log| - 1;
      if log[last].seqNo > ApplyAll(s, log[..last]).core.seqNo && RowCall(log[last], jobId) != ""
      then RowCall(log[last], jobId) else LastCallFrom(s, log[..last], jobId)
  }

  lemma OnlyJobEventsWriteJobs(s: State, ev: Event)
    requires !IsJobEvent(ev.payload)
    ensures ApplyPayload(s, ev).jobs == s.jobs
  {
    if IsTurnEvent(ev.payload) {
    } else if IsPromptEvent(ev.payload) {
    }
  }

  lemma JobWritten(s: State, p: JobPayload, finished: bool, at: int)
    requires p.jobId != ""
    ensures var t, i := ApplyJob(s, p, finished, at), JobPosition(s.jobs, p.jobId);
            && |s.jobs| <= |t.jobs| && i < |t.jobs| <= |s.jobs| + 1
            && t.jobs[i].id == p.jobId
            && t.jobs[i].toolCallId == (if p.toolCallId != "" then p.toolCallId else CallOf(s.jobs, p.jobId))
            && (i < |s.jobs| ==> |t.jobs| == |s.jobs|)
            && forall k :: 0 <= k < |s.jobs| && k != i ==> t.jobs[k] == s.jobs[k]
  {
    UpdatedJobFacts(s, p, finished, at);
    hide UpdatedJob, SettleItems;
  }

  lemma JobEventCall(s: State, p: JobPayload, finished: bool, at: int, jobId: string)
    requires jobId != ""
    ensures CallOf(ApplyJob(s, p, finished, at).jobs, jobId) ==
            if p.jobId == jobId && p.toolCallId != "" then p.toolCallId else CallOf(s.jobs, jobId)
  {
    hide UpdatedJob, SettleItems;
    var t := ApplyJob(s, p, finished, at);
    if p.jobId != "" {
      JobWritten(s, p, finished, at);
      hide ApplyJob;
      var i := JobPosition(s.jobs, jobId);
      if i < |s.jobs| || p.jobId == jobId {
        assert t.jobs[i].id == jobId;
        JobPositionIs(t.jobs, jobId, i);
      } else {
        JobPositionIs(t.jobs, jobId, |t.jobs|);
      }
    }
  }

  lemma JobPositionIs(jobs: seq<Job>, jobId: string, i: nat)
    requires i <= |jobs| && (forall k :: 0 <= k < i ==> jobs[k].id != jobId) && (i < |jobs| ==> jobs[i].id == jobId)
    ensures JobPosition(jobs, jobId) == i
  {
    var k := JobPosition(jobs, jobId);
    assert k < |jobs| ==> jobs[k].id == jobId;
  }

  lemma PayloadCall(s: State, ev: Event, jobId: string)
    requires jobId != ""
    ensures CallOf(ApplyPayload(s, ev).jobs, jobId) ==
            if RowCall(ev, jobId) != "" then RowCall(ev, jobId) else CallOf(s.jobs, jobId)
  {
    hide CallOf;
    if IsJobEvent(ev.payload) {
      JobEventCall(s, ev.payload.job, ev.payload.JobFinished?, ev.timestamp, jobId);
      hide ApplyJob;
    } else {
      OnlyJobEventsWriteJobs(s, ev);
      hide ApplyPayload;
    }
  }

  lemma StepCall(s: State, ev: Event, jobId: string)
    requires jobId != "" && ev.seqNo > s.core.seqNo
    ensures CallOf(Apply(s, ev).jobs, jobId) == if RowCall(ev, jobId) != "" then RowCall(ev, jobId) else CallOf(s.jobs, jobId)
  {
    hide ApplyPayload, CallOf, RowCall;
    PayloadCall(s.(core := s.core.(seqNo := ev.seqNo)), ev, jobId);
  }

  lemma {:induction false} RunCall(s: State, log: seq<Event>, jobId: string)
    requires jobId != ""
    ensures CallOf(ApplyAll(s, log).jobs, jobId) == LastCallFrom(s, log, jobId)
  {
    if log != [] {
      var last := |log| - 1;
      RunCall(s, log[..last], jobId);
      if log[last].seqNo > ApplyAll(s, log[..last]).core.seqNo {
        StepCall(ApplyAll(s, log[..last]), log[last], jobId);
        hide Apply, CallOf;
      } else {
        hide ApplyPayload, CallOf;
      }
    }
  }

  // A finish settles the item its job stands for then, and puts none in flight.
  lemma FinishedJobSettles(s: State, p: JobPayload, at: int, i: nat)
    requires p.jobId != "" && i < |s.items| && Position(s.items, s.items[i].id) == i && s.items[i].id != ""
    ensures var t, j := ApplyJob(s, p, true, at), UpdatedJob(s, p, true, at);
            && |t.items| == |s.items| && JobDone(j.status) && t.items[i].id == s.items[i].id
            && (InFlight(t.items[i]) <==> InFlight(s.items[i]) && j.toolCallId != s.items[i].id)
            && (InFlight(s.items[i]) && !InFlight(t.items[i]) ==>
                  t.items[i].status == (if j.status == JobFailed then Failed
                                        else if j.status == JobCompleted then Completed
                                        else Cancelled))
  {
    UpdatedJobFacts(s, p, true, at);
    hide UpdatedJob;
  }

  lemma FinishedCall(s: State, p: JobPayload, at: int)
    requires p.jobId != ""
    ensures UpdatedJob(s, p, true, at).toolCallId == CallOf(ApplyJob(s, p, true, at).jobs, p.jobId)
  {
    UpdatedJobFacts(s, p, true, at);
    JobWritten(s, p, true, at);
    JobEventCall(s, p, true, at, p.jobId);
    hide UpdatedJob, SettleItems;
  }

  predicate SettledAfter(m: State, ev: Event, i: nat) {
    var t := Apply(m, ev);
    |t.items| == |m.items| && i < |t.items| && t.items[i].id == m.items[i].id && !InFlight(t.items[i])
  }

  lemma FinishIs(m: State, ev: Event)
    requires ev.payload.JobFinished? && ev.seqNo > m.core.seqNo
    ensures Apply(m, ev) == ApplyJob(m.(core := m.core.(seqNo := ev.seqNo)), ev.payload.job, true, ev.timestamp)
  {
    hide ApplyJob;
  }

  lemma FinishStep(m: State, ev: Event, i: nat)
    requires ev.payload.JobFinished? && ev.payload.job.jobId != "" && ev.seqNo > m.core.seqNo
    requires i < |m.items| && Position(m.items, m.items[i].id) == i && m.items[i].id != ""
    ensures SettledAfter(m, ev, i) <==>
            !InFlight(m.items[i]) || CallOf(Apply(m, ev).jobs, ev.payload.job.jobId) == m.items[i].id
  {
    var m1 := m.(core := m.core.(seqNo := ev.seqNo));
    FinishedJobSettles(m1, ev.payload.job, ev.timestamp, i);
    FinishedCall(m1, ev.payload.job, ev.timestamp);
    FinishIs(m, ev);
    hide Apply, ApplyJob, UpdatedJob, CallOf, InFlight;
  }

  // An item in flight just before a job's job.finished is settled by it exactly
  // when the last row of the job that names a call, that one included, names it.
  lemma FinishSettlesIff(s: State, more: seq<Event>, ev: Event, i: nat)
    requires ev.payload.JobFinished? && ev.payload.job.jobId != "" && ev.seqNo > ApplyAll(s, more).core.seqNo
    requires var m := ApplyAll(s, more);
             i < |m.items| && Position(m.items, m.items[i].id) == i && m.items[i].id != "" && InFlight(m.items[i])
    ensures var m := ApplyAll(s, more);
            SettledAfter(m, ev, i) <==> LastCallFrom(s, more + [ev], ev.payload.job.jobId) == m.items[i].id
  {
    assert (more + [ev])[..|more|] == more;
    assert ApplyAll(s, more + [ev]) == Apply(ApplyAll(s, more), ev);
    RunCall(s, more + [ev], ev.payload.job.jobId);
    hide Apply, LastCallFrom, CallOf;
    FinishStep(ApplyAll(s, more), ev, i);
  }

  lemma {:induction false} CallsOfLog(threadId: string, log: seq<Event>, jobId: string)
    requires Sequenced(log)
    ensures LastCallFrom(New(threadId), log, jobId) == LastCall(log, jobId)
  {
    if log != [] {
      var last := |log| - 1;
      CallsOfLog(threadId, log[..last], jobId);
      FoldSeqNo(threadId, log[..last]);
      hide ApplyAll;
    }
  }

  // Over a whole log, with nothing asked of the job's rows.
  lemma JobFinishSettlesIff(threadId: string, log: seq<Event>, ev: Event, callId: string)
    requires Sequenced(log + [ev]) && ev.payload.JobFinished? && ev.payload.job.jobId != "" && callId != ""
    requires var m := Fold(threadId, log); HasItem(m.items, callId) && InFlight(m.items[Position(m.items, callId)])
    ensures var m := Fold(threadId, log);
            SettledAfter(m, ev, Position(m.items, callId)) <==> LastCall(log + [ev], ev.payload.job.jobId) == callId
  {
    assert (log + [ev])[..|log|] == log;
    assert forall k :: 0 <= k < |log| ==> (log + [ev])[k] == log[k];
    FoldSeqNo(threadId, log);
    CallsOfLog(threadId, log + [ev], ev.payload.job.jobId);
    var m := Fold(threadId, log);
    hide ApplyAll, LastCall, LastCallFrom, SettledAfter;
    FinishSettlesIff(New(threadId), log, ev, Position(m.items, callId));
  }

  lemma {:induction false} LoyalCalls(s: State, log: seq<Event>, jobId: string, callId: string)
    requires CallOf(s.jobs, jobId) == callId && forall k :: 0 <= k < |log| ==> Loyal(log[k], jobId, callId)
    ensures LastCallFrom(s, log, jobId) == callId
  {
    if log != [] {
      LoyalCalls(s, log[..|log| - 1], jobId, callId);
    }
  }

  // So a tool that outlived its turn for a live job is settled by that job's
  // job.finished when no row of the job names another call.
  lemma JobFinishSettlesItsTool(s: State, more: seq<Event>, ev: Event, callId: string)
    requires DistinctIds(s.items) && HasItem(s.items, callId) && callId != ""
    requires ev.payload.JobFinished? && ev.payload.job.jobId != "" && HasJob(s, ev.payload.job.jobId, callId)
    requires forall k :: 0 <= k < |more| ==> Loyal(more[k], ev.payload.job.jobId, callId)
    requires Loyal(ev, ev.payload.job.jobId, callId) && ev.seqNo > ApplyAll(s, more).core.seqNo
    ensures SettledAfter(ApplyAll(s, more), ev, Position(s.items, callId))
  {
    var m, i := ApplyAll(s, more), Position(s.items, callId);
    ApplyAllKeepsTimeline(s, more);
    PositionOf(m.items, i);
    assert forall k :: 0 <= k < |more + [ev]| ==> Loyal((more + [ev])[k], ev.payload.job.jobId, callId);
    LoyalCalls(s, more + [ev], ev.payload.job.jobId, callId);
    hide Apply, ApplyAll, CallOf, LastCallFrom, SettledAfter;
    if InFlight(m.items[i]) {
      FinishSettlesIff(s, more, ev, i);
    } else {
      FinishStep(m, ev, i);
    }
  }

  // A tool call and a job for it, a row that moves the job to another call, and
  // the job's end.
  function DisloyalLog(jobId: string, callId: string, other: string): seq<Event> {
    var p := JobPayload(jobId, "", "", NoKind, "", "", "", "", JobUnset, "", None, "", "", None, false);
    [Event(1, 1, ToolCallStarted("", callId, "", "", InProgress, "", "")),
     Event(2, 2, JobStarted(p.(toolCallId := callId))),
     Event(3, 3, JobUpdated(p.(toolCallId := other))),
     Event(4, 4, JobFinished(p))]
  }

  lemma DisloyalParts(jobId: string, callId: string, other: string)
    requires other != ""
    ensures var log := DisloyalLog(jobId, callId, other);
            && |log| == 4 && Sequenced(log) && (forall k :: 0 <= k < 4 ==> log[k].seqNo == k + 1)
            && log[0].payload.ToolCallStarted? && log[0].payload.callId == callId && log[0].payload.callStatus == InProgress
            && log[1].payload.JobStarted? && log[1].payload.job.jobId == jobId
            && log[2].payload.JobUpdated? && log[2].payload.job.jobId == jobId && RowCall(log[2], jobId) == other
            && log[3].payload.JobFinished? && log[3].payload.job.jobId == jobId && RowCall(log[3], jobId) == ""
  {
  }

  lemma FourSteps(s: State, log: seq<Event>)
    requires |log| == 4
    ensures ApplyAll(s, log) == Apply(Apply(Apply(Apply(s, log[0]), log[1]), log[2]), log[3])
    ensures Fold(s.core.threadId, log) == ApplyAll(New(s.core.threadId), log)
  {
    assert log[..3][..2] == log[..2] && log[..2][..1] == log[..1] && log[..1][..0] == [];
    hide Apply;
    assert ApplyAll(s, log[..1]) == Apply(s, log[0]);
    assert ApplyAll(s, log[..2]) == Apply(Apply(s, log[0]), log[1]);
    assert ApplyAll(s, log[..3]) == Apply(Apply(Apply(s, log[0]), log[1]), log[2]);
  }

  // One tool in flight, and no turn.
  predicate OneTool(s: State, callId: string) {
    |s.items| == 1 && s.items[0].id == callId && InFlight(s.items[0]) && s.turns == []
  }

  lemma ToolAdded(threadId: string, ev: Event)
    requires ev.seqNo == 1 && ev.payload.ToolCallStarted? && ev.payload.callStatus == InProgress
    ensures var t := Apply(New(threadId), ev); OneTool(t, ev.payload.callId) && t.core.seqNo == 1
    ensures New(threadId).core.threadId == threadId
  {
  }

  lemma RowPasses(s: State, ev: Event)
    requires ev.seqNo > s.core.seqNo && (ev.payload.JobStarted? || ev.payload.JobUpdated?)
    ensures var t := Apply(s, ev); t.items == s.items && t.turns == s.turns && t.core.seqNo == ev.seqNo
    ensures forall callId :: OneTool(s, callId) ==> OneTool(Apply(s, ev), callId)
  {
    hide UpdatedJob, WithJob;
  }

  lemma FinishPasses(s: State, ev: Event)
    requires ev.payload.JobFinished? && ev.payload.job.jobId != "" && ev.seqNo > s.core.seqNo
    requires |s.items| == 1 && s.items[0].id != "" && OneTool(s, s.items[0].id)
    requires CallOf(Apply(s, ev).jobs, ev.payload.job.jobId) != s.items[0].id
    ensures var t, jobId := Apply(s, ev), ev.payload.job.jobId;
            && HasItem(t.items, s.items[0].id) && InFlight(t.items[Position(t.items, s.items[0].id)]) && OpenTurn(t.turns) == ""
            && JobPosition(t.jobs, jobId) < |t.jobs| && JobDone(t.jobs[JobPosition(t.jobs, jobId)].status)
  {
    var s1, p := s.(core := s.core.(seqNo := ev.seqNo)), ev.payload.job;
    assert Position(s.items, s.items[0].id) == 0;
    FinishIs(s, ev);
    FinishedJobSettles(s1, p, ev.timestamp, 0);
    FinishStep(s, ev, 0);
    JobWritten(s1, p, true, ev.timestamp);
    hide Apply, UpdatedJob, CallOf, WithJob, SettleItems, InFlight;
  }

  // Without that, it need not be: after this log the tool is in flight though
  // its job has finished and no turn is open.
  lemma DisloyalRowLeavesToolInFlight(threadId: string, jobId: string, callId: string, other: string)
    requires jobId != "" && callId != "" && other != "" && other != callId
    ensures var log := DisloyalLog(jobId, callId, other);
            var s := Fold(threadId, log);
            && Sequenced(log) && HasItem(s.items, callId) && InFlight(s.items[Position(s.items, callId)])
            && OpenTurn(s.turns) == "" && JobPosition(s.jobs, jobId) < |s.jobs| && JobDone(s.jobs[JobPosition(s.jobs, jobId)].status)
  {
    hide *;
    var log := DisloyalLog(jobId, callId, other);
    DisloyalParts(jobId, callId, other);
    FourSteps(New(threadId), log);
    ToolAdded(threadId, log[0]);
    var a := Apply(New(threadId), log[0]);
    RowPasses(a, log[1]);
    var b := Apply(a, log[1]);
    RowPasses(b, log[2]);
    var c := Apply(b, log[2]);
    StepCall(b, log[2], jobId);
    StepCall(c, log[3], jobId);
    FinishPasses(c, log[3]);
  }
}
