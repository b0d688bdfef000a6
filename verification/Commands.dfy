// Idempotent commands (internal/server/ws.go over the ledger in
// internal/store/store.go): any number of sockets carry requests with command
// ids of their choosing, and steps of different requests interleave.
module Commands {
  import opened Prelude

  // A row with no result is a claim in progress.
  datatype Row = Row(thread: string, result: Option<string>)

  datatype Claim = Claimed | InProgress | Done(result: string) | Refused

  type Ledger = map<string, Row>

  function ClaimAnswer(rows: Ledger, id: string, thread: string): Claim {
    if id !in rows then Claimed
    else if rows[id].thread != thread then Refused
    else if rows[id].result == None then InProgress
    else Done(rows[id].result.value)
  }

  function AfterClaim(rows: Ledger, id: string, thread: string): Ledger {
    if id in rows then rows else rows[id := Row(thread, None)]
  }

  function AfterRelease(rows: Ledger, id: string): Ledger {
    if id in rows && rows[id].result == None then rows - {id} else rows
  }

  function AfterComplete(rows: Ledger, id: string, result: string): Ledger {
    if id in rows then rows[id := rows[id].(result := Some(result))] else rows
  }

  // The commands table, each call one transaction under the store's lock.
  class CommandStore {
    var rows: Ledger

    constructor ()
      ensures rows == map[]
    {
      rows := map[];
    }

    method ClaimCommand(id: string, thread: string) returns (claim: Claim)
      modifies this
      ensures claim == ClaimAnswer(old(rows), id, thread) && rows == AfterClaim(old(rows), id, thread)
    {
      if id in rows {
        var row := rows[id];
        if row.thread != thread {
          return Refused;
        }
        if row.result == None {
          return InProgress;
        }
        return Done(row.result.value);
      }
      rows := rows[id := Row(thread, None)];
      claim := Claimed;
    }

    method ReleaseCommand(id: string)
      modifies this
      ensures rows == AfterRelease(old(rows), id)
    {
      if id in rows && rows[id].result == None {
        rows := rows - {id};
      }
    }

    method CompleteCommand(id: string, result: string)
      modifies this
      ensures rows == AfterComplete(old(rows), id, result)
    {
      if id in rows {
        rows := rows[id := rows[id].(result := Some(result))];
      }
    }
  }

  datatype Ack = Answer(result: string) | Problem

  // Where a request is: waiting for its claim, executing, executed but not yet
  // recorded, or acknowledged. A request whose server died is Gone.
  datatype Phase = Claiming | Running | Ran(result: string) | Broke | Acked(ack: Ack) | Gone

  datatype Request = Request(id: string, thread: string, phase: Phase)

  // An execution that took effect; late when the request it was for failed all
  // the same.
  datatype Effect = Effect(id: string, result: string, late: bool)

  // left holds what failed requests have left with an actor, which may still
  // come to it.
  datatype System = System(rows: Ledger, requests: seq<Request>, effects: seq<Effect>, left: seq<Effect>)

  datatype Step =
    | Arrive(id: string, thread: string)
    | TryClaim(i: nat)
    | ClaimFails(i: nat)
    | GiveUp(i: nat)
    | Succeed(i: nat, result: string)
    | Fail(i: nat)
    // The call ran out of time, or the actor was closing, with the command
    // already in the actor's inbox.
    | Slip(i: nat, result: string)
    | TakeLate(k: nat)
    | Discard(k: nat)
    | Complete(i: nat)
    | CompleteFails(i: nat)
    | Release(i: nat)
    | ReleaseFails(i: nat)
    | Die(i: nat)

  predicate At(s: System, i: nat, p: Phase) { i < |s.requests| && s.requests[i].phase == p }

  predicate Enabled(s: System, step: Step) {
    match step
    case Arrive(_, _) => true
    case TryClaim(i) => At(s, i, Claiming)
    case ClaimFails(i) => At(s, i, Claiming)
    case GiveUp(i) => At(s, i, Claiming)
    case Succeed(i, _) => At(s, i, Running)
    case Fail(i) => At(s, i, Running)
    case Slip(i, _) => At(s, i, Running)
    case TakeLate(k) => k < |s.left|
    case Discard(k) => k < |s.left|
    case Complete(i) => i < |s.requests| && s.requests[i].phase.Ran?
    case CompleteFails(i) => i < |s.requests| && s.requests[i].phase.Ran?
    case Release(i) => At(s, i, Broke)
    case ReleaseFails(i) => At(s, i, Broke)
    case Die(i) => i < |s.requests| && !s.requests[i].phase.Acked?
  }

  function To(s: System, i: nat, p: Phase): System
    requires i < |s.requests|
  {
    s.(requests := s.requests[i := s.requests[i].(phase := p)])
  }

  function Next(s: System, step: Step): System
    requires Enabled(s, step)
  {
    match step
    case Arrive(id, thread) => s.(requests := s.requests + [Request(id, thread, Claiming)])
    case TryClaim(i) =>
      var r := s.requests[i];
      var t := s.(rows := AfterClaim(s.rows, r.id, r.thread));
      (match ClaimAnswer(s.rows, r.id, r.thread)
       case Claimed => To(t, i, Running)
       case InProgress => t
       case Done(result) => To(t, i, Acked(Answer(result)))
       case Refused => To(t, i, Acked(Problem)))
    case ClaimFails(i) => To(s, i, Acked(Problem))
    case GiveUp(i) => To(s, i, Acked(Problem))
    case Succeed(i, result) => To(s, i, Ran(result)).(effects := s.effects + [Effect(s.requests[i].id, result, false)])
    case Fail(i) => To(s, i, Broke)
    case Slip(i, result) => To(s, i, Broke).(left := s.left + [Effect(s.requests[i].id, result, true)])
    case TakeLate(k) => s.(effects := s.effects + [s.left[k]], left := s.left[..k] + s.left[k + 1..])
    case Discard(k) => s.(left := s.left[..k] + s.left[k + 1..])
    case Complete(i) =>
      var r := s.requests[i];
      To(s, i, Acked(Answer(r.phase.result))).(rows := AfterComplete(s.rows, r.id, r.phase.result))
    case CompleteFails(i) => To(s, i, Acked(Problem))
    case Release(i) => To(s, i, Acked(Problem)).(rows := AfterRelease(s.rows, s.requests[i].id))
    case ReleaseFails(i) => To(s, i, Acked(Problem))
    case Die(i) => To(s, i, Gone)
  }

  // ---- The invariant ----

  predicate Owns(r: Request) { r.phase.Running? || r.phase.Ran? || r.phase.Broke? }

  // A request that owns its command holds the one claim on it.
  predicate ClaimsOk(s: System) {
    && (forall i :: 0 <= i < |s.requests| && Owns(s.requests[i]) ==>
          s.requests[i].id in s.rows && s.rows[s.requests[i].id] == Row(s.requests[i].thread, None))
    && (forall i, j :: 0 <= i < j < |s.requests| && Owns(s.requests[i]) && Owns(s.requests[j]) ==>
          s.requests[i].id != s.requests[j].id)
  }

  // The execution of a request that did not fail took effect.
  predicate IsOnTime(e: Effect, id: string) { e.id == id && !e.late }

  predicate OnTime(s: System, id: string) { exists k :: 0 <= k < |s.effects| && IsOnTime(s.effects[k], id) }

  // A command took effect on time at most once, and one that did is never again
  // up for execution; a stored result is that of this effect.
  predicate EffectsOk(s: System) {
    && (forall j, k :: 0 <= j < k < |s.effects| && !s.effects[j].late && !s.effects[k].late ==>
          s.effects[j].id != s.effects[k].id)
    && (forall k :: 0 <= k < |s.effects| && !s.effects[k].late ==> EffectOk(s, s.effects[k]))
    && (forall i :: 0 <= i < |s.requests| && s.requests[i].phase.Ran? ==> OnTime(s, s.requests[i].id))
    && (forall id :: id in s.rows && s.rows[id].result.Some? ==> OnTime(s, id))
    && (forall k :: 0 <= k < |s.left| ==> s.left[k].late)
  }

  predicate EffectOk(s: System, e: Effect) {
    && e.id in s.rows
    && (s.rows[e.id].result.Some? ==> s.rows[e.id].result.value == e.result)
    && forall i :: 0 <= i < |s.requests| && s.requests[i].id == e.id && Owns(s.requests[i]) ==>
         s.requests[i].phase == Ran(e.result)
  }

  // An answer is the stored result.
  predicate AnswersOk(s: System) {
    forall i :: 0 <= i < |s.requests| && s.requests[i].phase.Acked? && s.requests[i].phase.ack.Answer? ==>
      s.requests[i].id in s.rows && s.rows[s.requests[i].id].result == Some(s.requests[i].phase.ack.result)
  }

  predicate Inv(s: System) { ClaimsOk(s) && EffectsOk(s) && AnswersOk(s) }

  lemma ClaimKeepsClaims(s: System, i: nat)
    requires ClaimsOk(s) && Enabled(s, TryClaim(i))
    ensures ClaimsOk(Next(s, TryClaim(i)))
  {
  }

  lemma CompletionKeepsClaims(s: System, i: nat)
    requires ClaimsOk(s) && Enabled(s, Complete(i))
    ensures ClaimsOk(Next(s, Complete(i)))
  {
  }

  lemma ReleaseKeepsClaims(s: System, i: nat)
    requires ClaimsOk(s) && Enabled(s, Release(i))
    ensures ClaimsOk(Next(s, Release(i)))
  {
  }

  lemma StepKeepsClaims(s: System, step: Step)
    requires Inv(s) && Enabled(s, step)
    ensures ClaimsOk(Next(s, step))
  {
    hide EffectsOk, AnswersOk;
    match step
    case TryClaim(i) => ClaimKeepsClaims(s, i);
    case Complete(i) => CompletionKeepsClaims(s, i);
    case Release(i) => ReleaseKeepsClaims(s, i);
    case _ =>
  }

  lemma SuccessKeepsEffects(s: System, i: nat, result: string)
    requires Inv(s) && Enabled(s, Succeed(i, result))
    ensures EffectsOk(Next(s, Succeed(i, result)))
  {
    var t := Next(s, Succeed(i, result));
    assert IsOnTime(t.effects[|s.effects|], s.requests[i].id);
    assert forall k :: 0 <= k < |s.effects| ==> t.effects[k] == s.effects[k];
    assert forall id :: OnTime(s, id) ==> OnTime(t, id);
  }

  // A step that leaves effects alone.
  lemma SameOnTime(s: System, t: System)
    requires t.effects == s.effects
    ensures forall id :: OnTime(s, id) <==> OnTime(t, id)
  {
  }

  lemma ClaimKeepsEffects(s: System, i: nat)
    requires Inv(s) && Enabled(s, TryClaim(i))
    ensures EffectsOk(Next(s, TryClaim(i)))
  {
    SameOnTime(s, Next(s, TryClaim(i)));
    hide OnTime;
  }

  lemma CompletionKeepsEffects(s: System, i: nat)
    requires Inv(s) && Enabled(s, Complete(i))
    ensures EffectsOk(Next(s, Complete(i)))
  {
    SameOnTime(s, Next(s, Complete(i)));
    hide OnTime;
  }

  lemma ReleaseKeepsEffects(s: System, i: nat)
    requires Inv(s) && Enabled(s, Release(i))
    ensures EffectsOk(Next(s, Release(i)))
  {
    SameOnTime(s, Next(s, Release(i)));
    hide OnTime;
  }

  lemma LateKeepsEffects(s: System, k: nat)
    requires Inv(s) && Enabled(s, TakeLate(k))
    ensures EffectsOk(Next(s, TakeLate(k)))
  {
    var t := Next(s, TakeLate(k));
    assert t.effects[|s.effects|].late;
    assert forall j :: 0 <= j < |s.effects| ==> t.effects[j] == s.effects[j];
    assert forall id :: OnTime(s, id) ==> OnTime(t, id);
    hide OnTime;
  }

  lemma StepKeepsEffects(s: System, step: Step)
    requires Inv(s) && Enabled(s, step)
    ensures EffectsOk(Next(s, step))
  {
    match step
    case Succeed(i, result) => SuccessKeepsEffects(s, i, result);
    case TryClaim(i) => ClaimKeepsEffects(s, i);
    case Complete(i) => CompletionKeepsEffects(s, i);
    case Release(i) => ReleaseKeepsEffects(s, i);
    case TakeLate(k) => LateKeepsEffects(s, k);
    case _ =>
      var t := Next(s, step);
      assert t.effects == s.effects && t.rows == s.rows;
      SameOnTime(s, t);
      hide OnTime;
  }

  lemma StepKeepsAnswers(s: System, step: Step)
    requires Inv(s) && Enabled(s, step)
    ensures AnswersOk(Next(s, step))
  {
  }

  // ---- Whole runs ----

  ghost predicate Reachable(s: System, steps: seq<Step>, t: System)
    decreases |steps|
  {
    if steps == [] then t == s
    else Enabled(s, steps[0]) && Reachable(Next(s, steps[0]), steps[1..], t)
  }

  // A stored result is there to stay.
  lemma StepKeepsResults(s: System, step: Step, id: string)
    requires Inv(s) && Enabled(s, step) && id in s.rows && s.rows[id].result.Some?
    ensures id in Next(s, step).rows && Next(s, step).rows[id] == s.rows[id]
  {
  }

  lemma {:induction false} RunKeeps(s: System, steps: seq<Step>, t: System)
    requires Inv(s) && Reachable(s, steps, t)
    ensures Inv(t)
    ensures forall id :: id in s.rows && s.rows[id].result.Some? ==> id in t.rows && t.rows[id] == s.rows[id]
    decreases |steps|
  {
    if steps != [] {
      StepKeepsInv(s, steps[0]);
      forall id | id in s.rows && s.rows[id].result.Some?
        ensures id in Next(s, steps[0]).rows && Next(s, steps[0]).rows[id] == s.rows[id]
      {
        StepKeepsResults(s, steps[0], id);
      }
      hide Inv, Next, Enabled;
      RunKeeps(Next(s, steps[0]), steps[1..], t);
    }
  }

  const START := System(map[], [], [], [])

  // However requests are retried, on however many sockets, a command is in the
  // hands of one of them at a time, at most one of its executions takes effect
  // without failing, and every answer is that one's result, as it is stored.
  lemma CommandsRunOnce(steps: seq<Step>, t: System)
    requires Reachable(START, steps, t)
    ensures forall i, j :: 0 <= i < j < |t.requests| && Owns(t.requests[i]) && Owns(t.requests[j]) ==>
                             t.requests[i].id != t.requests[j].id
    ensures forall j, k :: 0 <= j < k < |t.effects| && !t.effects[j].late && !t.effects[k].late ==>
                             t.effects[j].id != t.effects[k].id
    ensures forall i, k :: 0 <= i < |t.requests| && 0 <= k < |t.effects| && IsOnTime(t.effects[k], t.requests[i].id) &&
                           t.requests[i].phase.Acked? && t.requests[i].phase.ack.Answer? ==>
                             t.requests[i].phase.ack.result == t.effects[k].result
    ensures forall i :: 0 <= i < |t.requests| && t.requests[i].phase.Acked? && t.requests[i].phase.ack.Answer? ==>
                          OnTime(t, t.requests[i].id)
  {
    RunKeeps(START, steps, t);
    hide Next, Enabled;
  }

  // Once a command is completed, no step executes it: a request for it is
  // answered with what is stored, or not at all.
  lemma CompletedStaysCompleted(s: System, steps: seq<Step>, t: System, id: string, i: nat)
    requires Inv(s) && Reachable(s, steps, t) && id in s.rows && s.rows[id].result.Some?
    requires i < |t.requests| && t.requests[i].id == id
    ensures !Owns(t.requests[i])
    ensures t.requests[i].phase.Acked? && t.requests[i].phase.ack.Answer? ==>
              Some(t.requests[i].phase.ack.result) == s.rows[id].result
    ensures At(t, i, Claiming) && t.requests[i].thread == s.rows[id].thread ==>
              At(Next(t, TryClaim(i)), i, Acked(Answer(s.rows[id].result.value)))
  {
    RunKeeps(s, steps, t);
  }

  // A failed run, once released, leaves the id free: the next request for it,
  // from whatever thread, gets the claim. None has completed.
  lemma FailureIsRetriable(s: System, i: nat, j: nat)
    requires Inv(s) && At(s, i, Broke) && At(s, j, Claiming) && s.requests[j].id == s.requests[i].id
    ensures s.requests[i].id !in Next(s, Release(i)).rows
    ensures At(Next(Next(s, Release(i)), TryClaim(j)), j, Running)
    ensures !OnTime(s, s.requests[i].id)
  {
  }

  // ---- How often a command takes effect ----

  function Count(es: seq<Effect>, id: string): nat {
    if es == [] then 0 else Count(es[..|es| - 1], id) + if es[|es| - 1].id == id then 1 else 0
  }

  function CountLate(es: seq<Effect>, id: string): nat {
    if es == [] then 0 else CountLate(es[..|es| - 1], id) + if es[|es| - 1].id == id && es[|es| - 1].late then 1 else 0
  }

  // The failed runs of a command that took effect or still may.
  function Slipped(s: System, id: string): nat { CountLate(s.effects, id) + Count(s.left, id) }

  // A claim that nobody holds, and that nobody will give back.
  predicate Stuck(s: System, id: string) {
    && id in s.rows && s.rows[id].result == None
    && forall i :: 0 <= i < |s.requests| && s.requests[i].id == id ==> !Owns(s.requests[i])
  }

  predicate Slips(s: System, step: Step, id: string) { step.Slip? && step.i < |s.requests| && s.requests[step.i].id == id }

  // A run from s in which no further execution of id fails after its call.
  ghost predicate GoesOn(s: System, steps: seq<Step>, t: System, id: string)
    decreases |steps|
  {
    if steps == [] then t == s
    else Enabled(s, steps[0]) && !Slips(s, steps[0], id) && GoesOn(Next(s, steps[0]), steps[1..], t, id)
  }

  // Retried for as long as it takes, it takes effect once at the most.
  ghost predicate TakesEffectOnce(s: System, id: string) {
    forall steps, t :: GoesOn(s, steps, t, id) ==> Count(t.effects, id) <= 1
  }

  lemma {:induction false} CountAppend(a: seq<Effect>, b: seq<Effect>, id: string)
    ensures Count(a + b, id) == Count(a, id) + Count(b, id)
  {
    if b == [] {
      assert a + b == a;
    } else {
      assert (a + b)[..|a + b| - 1] == a + b[..|b| - 1];
      CountAppend(a, b[..|b| - 1], id);
    }
  }

  lemma CountOne(e: Effect, id: string)
    ensures Count([e], id) == if e.id == id then 1 else 0
  {
    assert [e][..0] == [];
  }

  lemma CountWithout(es: seq<Effect>, k: nat, id: string)
    requires k < |es|
    ensures Count(es, id) == Count(es[..k] + es[k + 1..], id) + if es[k].id == id then 1 else 0
  {
    assert es == es[..k] + ([es[k]] + es[k + 1..]);
    CountAppend(es[..k], [es[k]] + es[k + 1..], id);
    CountAppend([es[k]], es[k + 1..], id);
    CountOne(es[k], id);
    CountAppend(es[..k], es[k + 1..], id);
  }

  lemma CountLateMore(es: seq<Effect>, e: Effect, id: string)
    ensures CountLate(es + [e], id) == CountLate(es, id) + if e.id == id && e.late then 1 else 0
    ensures Count(es + [e], id) == Count(es, id) + if e.id == id then 1 else 0
  {
    assert (es + [e])[..|es|] == es;
  }

  predicate OnTimeIn(es: seq<Effect>, id: string) { exists k :: 0 <= k < |es| && IsOnTime(es[k], id) }

  lemma {:induction false} CountParts(es: seq<Effect>, id: string)
    requires forall j, k :: 0 <= j < k < |es| && !es[j].late && !es[k].late ==> es[j].id != es[k].id
    ensures Count(es, id) == CountLate(es, id) + if OnTimeIn(es, id) then 1 else 0
  {
    if es != [] {
      var n := |es| - 1;
      CountParts(es[..n], id);
      assert OnTimeIn(es[..n], id) ==> OnTimeIn(es, id) by {
        if OnTimeIn(es[..n], id) {
          var k :| 0 <= k < n && IsOnTime(es[..n][k], id);
          assert IsOnTime(es[k], id);
        }
      }
      if IsOnTime(es[n], id) {
        assert OnTimeIn(es, id);
      } else if OnTimeIn(es, id) {
        var k :| 0 <= k < |es| && IsOnTime(es[k], id);
        assert IsOnTime(es[..n][k], id);
      }
    }
  }

  lemma CountIs(s: System, id: string)
    requires Inv(s)
    ensures Count(s.effects, id) == CountLate(s.effects, id) + if OnTime(s, id) then 1 else 0
  {
    CountParts(s.effects, id);
    assert OnTimeIn(s.effects, id) <==> OnTime(s, id);
    hide Count, CountLate;
  }

  lemma LeftTaken(s: System, k: nat)
    requires k < |s.left|
    ensures Next(s, TakeLate(k)).effects == s.effects + [s.left[k]]
    ensures Next(s, TakeLate(k)).left == s.left[..k] + s.left[k + 1..]
    ensures Next(s, Discard(k)).effects == s.effects && Next(s, Discard(k)).left == s.left[..k] + s.left[k + 1..]
  {
  }

  lemma TakenIsSlipped(s: System, k: nat, id: string)
    requires k < |s.left| && s.left[k].late
    ensures Slipped(Next(s, TakeLate(k)), id) == Slipped(s, id)
    ensures Slipped(Next(s, Discard(k)), id) <= Slipped(s, id)
  {
    LeftTaken(s, k);
    hide Count, CountLate, Next;
    CountLateMore(s.effects, s.left[k], id);
    CountWithout(s.left, k, id);
  }

  lemma RunSlips(s: System, i: nat, result: string, id: string)
    requires At(s, i, Running)
    ensures Slipped(Next(s, Succeed(i, result)), id) == Slipped(s, id)
    ensures Slipped(Next(s, Slip(i, result)), id) == Slipped(s, id) + if s.requests[i].id == id then 1 else 0
  {
    CountLateMore(s.effects, Effect(s.requests[i].id, result, false), id);
    CountLateMore(s.left, Effect(s.requests[i].id, result, true), id);
    hide Count, CountLate;
  }

  // A step makes no more of what slipped.
  lemma SlippedStep(s: System, step: Step, id: string)
    requires Inv(s) && Enabled(s, step) && !Slips(s, step, id)
    ensures Slipped(Next(s, step), id) <= Slipped(s, id)
    ensures step.TakeLate? ==> Slipped(Next(s, step), id) == Slipped(s, id)
  {
    match step
    case TakeLate(k) =>
      TakenIsSlipped(s, k, id);
      hide Inv, Next, Slipped;
    case Discard(k) =>
      TakenIsSlipped(s, k, id);
      hide Inv, Next, Slipped;
    case Succeed(i, result) =>
      hide Inv, Next, Slipped;
      RunSlips(s, i, result, id);
    case Slip(i, result) =>
      hide Inv, Next, Slipped;
      RunSlips(s, i, result, id);
    case _ =>
      hide Inv;
      assert Next(s, step).effects == s.effects && Next(s, step).left == s.left;
  }

  // A claim that is stuck stays.
  lemma StuckStep(s: System, step: Step, id: string)
    requires Inv(s) && Enabled(s, step) && Stuck(s, id) && !OnTime(s, id)
    ensures Stuck(Next(s, step), id) && !OnTime(Next(s, step), id)
  {
  }

  lemma {:induction false} RunOfSlipped(s: System, steps: seq<Step>, t: System, id: string)
    requires Inv(s) && GoesOn(s, steps, t, id)
    ensures Inv(t) && Slipped(t, id) <= Slipped(s, id)
    ensures Stuck(s, id) && !OnTime(s, id) ==> !OnTime(t, id)
    decreases |steps|
  {
    if steps != [] {
      StepKeepsInv(s, steps[0]);
      SlippedStep(s, steps[0], id);
      if Stuck(s, id) && !OnTime(s, id) {
        StuckStep(s, steps[0], id);
      }
      hide Inv, Next, Enabled, Slipped, Stuck, OnTime, Slips;
      RunOfSlipped(Next(s, steps[0]), steps[1..], t, id);
    }
  }

  lemma StepKeepsInv(s: System, step: Step)
    requires Inv(s) && Enabled(s, step)
    ensures Inv(Next(s, step))
  {
    StepKeepsClaims(s, step);
    StepKeepsEffects(s, step);
    StepKeepsAnswers(s, step);
    hide Next, Enabled, ClaimsOk, EffectsOk, AnswersOk;
  }

  lemma {:induction false} GoesOnTwice(s: System, a: seq<Step>, t: System, b: seq<Step>, u: System, id: string)
    requires GoesOn(s, a, t, id) && GoesOn(t, b, u, id)
    ensures GoesOn(s, a + b, u, id)
    decreases |a|
  {
    hide Next, Enabled, Slips;
    if a == [] {
      assert a + b == b;
    } else {
      GoesOnTwice(Next(s, a[0]), a[1..], t, b, u, id);
      assert (a + b)[0] == a[0] && (a + b)[1..] == a[1..] + b;
    }
  }

  lemma OneStep(s: System, step: Step, id: string)
    requires Enabled(s, step) && !Slips(s, step, id)
    ensures GoesOn(s, [step], Next(s, step), id)
  {
    hide Next, Enabled, Slips;
    assert [step][1..] == [];
    assert GoesOn(Next(s, step), [], Next(s, step), id);
  }

  // Everything left with an actor is come to in the end.
  lemma {:induction false} AllTaken(s: System, id: string) returns (steps: seq<Step>, t: System)
    requires Inv(s)
    ensures GoesOn(s, steps, t, id) && Inv(t) && t.left == []
    ensures Slipped(t, id) == Slipped(s, id) && (OnTime(s, id) ==> OnTime(t, id))
    decreases |s.left|
  {
    if s.left == [] {
      return [], s;
    }
    var step := TakeLate(0);
    var u := Next(s, step);
    StepKeepsInv(s, step);
    SlippedStep(s, step, id);
    OneStep(s, step, id);
    if OnTime(s, id) {
      OnTimeStays(s, step, id);
    }
    assert |u.left| == |s.left| - 1;
    hide Inv, Next, Slipped, OnTime;
    var more: seq<Step>;
    more, t := AllTaken(u, id);
    GoesOnTwice(s, [step], u, more, t, id);
    steps := [step] + more;
  }

  lemma OnTimeStays(s: System, step: Step, id: string)
    requires Enabled(s, step) && OnTime(s, id)
    ensures OnTime(Next(s, step), id)
  {
    var k :| 0 <= k < |s.effects| && IsOnTime(s.effects[k], id);
    assert Next(s, step).effects[k] == s.effects[k];
  }

  lemma Succeeds(s: System, i: nat, id: string) returns (step: Step)
    requires Inv(s) && At(s, i, Running) && s.requests[i].id == id
    ensures Enabled(s, step) && GoesOn(s, [step], Next(s, step), id) && Inv(Next(s, step))
    ensures OnTime(Next(s, step), id) && Slipped(Next(s, step), id) == Slipped(s, id)
  {
    step := Succeed(i, "");
    StepKeepsInv(s, step);
    OneStep(s, step, id);
    var e := Effect(id, "", false);
    CountLateMore(s.effects, e, id);
    assert IsOnTime(Next(s, step).effects[|s.effects|], id);
    hide Count, CountLate;
  }

  // A step about a request that is not running leaves what slipped alone.
  lemma ClaimStep(s: System, step: Step, id: string)
    requires Inv(s) && Enabled(s, step) && (step.Arrive? || step.TryClaim? || step.Release?)
    ensures Inv(Next(s, step)) && GoesOn(s, [step], Next(s, step), id) && Slipped(Next(s, step), id) == Slipped(s, id)
  {
    StepKeepsInv(s, step);
    OneStep(s, step, id);
  }

  // An id that is not claimed is claimed by a new request, and succeeds.
  lemma FreeSucceeds(s: System, id: string) returns (steps: seq<Step>, t: System)
    requires Inv(s) && id !in s.rows
    ensures GoesOn(s, steps, t, id) && Inv(t) && OnTime(t, id) && Slipped(t, id) == Slipped(s, id)
  {
    var n := |s.requests|;
    var arrive, claim := Arrive(id, ""), TryClaim(n);
    var s1 := Next(s, arrive);
    ClaimStep(s, arrive, id);
    assert At(s1, n, Claiming) && s1.requests[n].id == id;
    var s2 := Next(s1, claim);
    ClaimStep(s1, claim, id);
    assert At(s2, n, Running) && s2.requests[n].id == id;
    hide Inv, Next, Slipped, OnTime;
    var last := Succeeds(s2, n, id);
    t := Next(s2, last);
    GoesOnTwice(s1, [claim], s2, [last], t, id);
    GoesOnTwice(s, [arrive], s1, [claim] + [last], t, id);
    steps := [arrive] + ([claim] + [last]);
  }

  // Unless its claim is stuck, a command can still succeed, if it has not.
  lemma CanSucceed(s: System, id: string) returns (steps: seq<Step>, t: System)
    requires Inv(s) && (OnTime(s, id) || !Stuck(s, id))
    ensures GoesOn(s, steps, t, id) && Inv(t) && OnTime(t, id) && Slipped(t, id) == Slipped(s, id)
  {
    if OnTime(s, id) {
      return [], s;
    }
    if id !in s.rows {
      steps, t := FreeSucceeds(s, id);
      return;
    }
    assert s.rows[id].result == None;
    var i :| 0 <= i < |s.requests| && s.requests[i].id == id && Owns(s.requests[i]);
    if s.requests[i].phase.Running? {
      var step := Succeeds(s, i, id);
      return [step], Next(s, step);
    }
    assert At(s, i, Broke);
    var release := Release(i);
    var s1 := Next(s, release);
    ClaimStep(s, release, id);
    assert id !in s1.rows;
    hide Inv, Next, Slipped, OnTime;
    var more: seq<Step>;
    more, t := FreeSucceeds(s1, id);
    GoesOnTwice(s, [release], s1, more, t, id);
    steps := [release] + more;
  }

  // A command that is retried until it is answered takes effect once exactly
  // when no failed run of it took effect or still may; or when one did, and the
  // claim is stuck so that no other ever runs.
  lemma TakesEffectOnceIff(steps: seq<Step>, s: System, id: string)
    requires Reachable(START, steps, s)
    ensures TakesEffectOnce(s, id) <==>
            Slipped(s, id) == 0 || (Slipped(s, id) == 1 && Stuck(s, id) && !OnTime(s, id))
  {
    RunKeeps(START, steps, s);
    hide Inv, Stuck, OnTime, Slipped;
    if Slipped(s, id) == 0 || (Slipped(s, id) == 1 && Stuck(s, id) && !OnTime(s, id)) {
      forall more, t | GoesOn(s, more, t, id) ensures Count(t.effects, id) <= 1 {
        RunOfSlipped(s, more, t, id);
        CountIs(t, id);
        LateAreSlipped(t, id);
      }
    } else {
      TwiceAtLeast(s, id);
    }
  }

  lemma LateAreSlipped(s: System, id: string)
    ensures CountLate(s.effects, id) <= Slipped(s, id)
    ensures s.left == [] ==> CountLate(s.effects, id) == Slipped(s, id)
  {
    hide CountLate;
  }

  lemma TwiceAtLeast(s: System, id: string)
    requires Inv(s) && Slipped(s, id) > 0 && !(Slipped(s, id) == 1 && Stuck(s, id) && !OnTime(s, id))
    ensures !TakesEffectOnce(s, id)
  {
    hide Inv, Stuck, OnTime, Slipped;
    var a, t := [], s;
    if OnTime(s, id) || !Stuck(s, id) {
      a, t := CanSucceed(s, id);
    }
    var b, u := AllTaken(t, id);
    CountIs(u, id);
    LateAreSlipped(u, id);
    GoesOnTwice(s, a, t, b, u, id);
    assert Count(u.effects, id) >= 2;
  }

  lemma {:induction false} ReachMore(s: System, steps: seq<Step>, t: System, step: Step)
    requires Reachable(s, steps, t) && Enabled(t, step)
    ensures Reachable(s, steps + [step], Next(t, step))
    decreases |steps|
  {
    hide Next, Enabled;
    if steps == [] {
      assert (steps + [step])[1..] == [];
      assert Reachable(Next(s, step), [], Next(t, step));
    } else {
      ReachMore(Next(s, steps[0]), steps[1..], t, step);
      assert (steps + [step])[0] == steps[0] && (steps + [step])[1..] == steps[1..] + [step];
    }
  }

  lemma {:induction false} ReachOn(s: System, a: seq<Step>, t: System, b: seq<Step>, u: System, id: string)
    requires Reachable(s, a, t) && GoesOn(t, b, u, id)
    ensures Reachable(s, a + b, u)
    decreases |b|
  {
    hide Next, Enabled, Slips;
    if b == [] {
      assert a + b == a;
    } else {
      ReachMore(s, a, t, b[0]);
      ReachOn(s, a + [b[0]], Next(t, b[0]), b[1..], u, id);
      assert a + [b[0]] + b[1..] == a + b;
    }
  }

  // One request for id, and what it left.
  function OnlyRequest(id: string, rows: Ledger, phase: Phase, left: seq<Effect>): System {
    System(rows, [Request(id, "", phase)], [], left)
  }

  lemma OnlySteps(id: string)
    ensures var row, late := map[id := Row("", None)], [Effect(id, "", true)];
            && Next(START, Arrive(id, "")) == OnlyRequest(id, map[], Claiming, [])
            && Next(OnlyRequest(id, map[], Claiming, []), TryClaim(0)) == OnlyRequest(id, row, Running, [])
            && Next(OnlyRequest(id, row, Running, []), Slip(0, "")) == OnlyRequest(id, row, Broke, late)
            && Next(OnlyRequest(id, row, Broke, late), Release(0)) == OnlyRequest(id, map[], Acked(Problem), late)
  {
    assert map[id := Row("", None)] - {id} == map[];
  }

  // The call gives up and the claim is released, before the actor comes to it.
  lemma SlipsOnce(id: string) returns (steps: seq<Step>, t: System)
    ensures Reachable(START, steps, t) && Slipped(t, id) == 1 && id !in t.rows
  {
    var row, late := map[id := Row("", None)], [Effect(id, "", true)];
    t := OnlyRequest(id, map[], Acked(Problem), late);
    CountOne(late[0], id);
    OnlySteps(id);
    assert Reachable(START, [], START);
    ReachMore(START, [], START, Arrive(id, ""));
    hide Next, Reachable;
    ReachMore(START, [] + [Arrive(id, "")], OnlyRequest(id, map[], Claiming, []), TryClaim(0));
    ReachMore(START, [] + [Arrive(id, "")] + [TryClaim(0)], OnlyRequest(id, row, Running, []), Slip(0, ""));
    ReachMore(START, [] + [Arrive(id, "")] + [TryClaim(0)] + [Slip(0, "")], OnlyRequest(id, row, Broke, late), Release(0));
    steps := [] + [Arrive(id, "")] + [TryClaim(0)] + [Slip(0, "")] + [Release(0)];
  }

  // So a command its actor comes to after the call gave up is retried and takes
  // effect twice.
  lemma RetryRunsTwice(id: string)
    ensures exists steps, t :: Reachable(START, steps, t) && Count(t.effects, id) == 2
  {
    var a, s := SlipsOnce(id);
    RunKeeps(START, a, s);
    hide Next, Slipped, OnTime, Inv, Count, CountLate;
    var b, t := FreeSucceeds(s, id);
    var c, u := AllTaken(t, id);
    CountIs(u, id);
    LateAreSlipped(u, id);
    GoesOnTwice(s, b, t, c, u, id);
    ReachOn(START, a, s, b + c, u, id);
  }
}
