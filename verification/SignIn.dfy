// The browser sign-in (internal/mcp/oauth.go): a flow waits for one code, from
// whichever comes first of callback requests carrying its state and addresses
// the person pastes. Any number of both, and the flow's own end, race for it.
module SignIn {
  import opened Prelude

  type FlowState = nat

  // The sign-ins waiting for their code, by state. Each method is one critical
  // section under the client's mutex.
  class PendingFlows {
    var pending: map<FlowState, nat>

    constructor ()
      ensures pending == map[]
    {
      pending := map[];
    }

    method Add(state: FlowState, flow: nat)
      modifies this
      ensures pending == old(pending)[state := flow]
    {
      pending := pending[state := flow];
    }

    // Claims a flow by state, for the callback route.
    method Take(state: FlowState) returns (flow: Option<nat>)
      modifies this
      ensures flow == Lookup(old(pending), state) && pending == old(pending) - {state}
    {
      if state !in pending {
        return None;
      }
      flow := Some(pending[state]);
      pending := pending - {state};
    }

    // Claims one flow, for the paste path; false when the callback got it first.
    method Claim(flow: nat, state: FlowState) returns (ok: bool)
      modifies this
      ensures ok == (Lookup(old(pending), state) == Some(flow))
      ensures pending == if ok then old(pending) - {state} else old(pending)
    {
      if state !in pending || pending[state] != flow {
        return false;
      }
      pending := pending - {state};
      ok := true;
    }
  }

  function Lookup(pending: map<FlowState, nat>, state: FlowState): Option<nat> {
    if state in pending then Some(pending[state]) else None
  }

  // What a callback brings: a code, or what stands in its place.
  datatype Brought = Code | Refusal | Nothing

  datatype Source = FromCallback(handler: nat) | FromPaste

  // Awaiting selects over the code channel, the person's answer and the end of
  // the flow's context; AwaitingCallback has lost its claim to the callback.
  datatype FlowPhase = Awaiting | AwaitingCallback | Exchanging(source: Source) | Ending | Closing | Over

  datatype Claimant = ByHandler(handler: nat) | ByPaste | ByEnd

  // codes is a channel with room for one message, the handler that sent it.
  // claims counts who claimed the flow, exchanges the codes it exchanged.
  datatype Flow = Flow(
    state: FlowState,
    phase: FlowPhase,
    codes: Option<nat>,
    done: bool,
    claimant: Option<Claimant>,
    claims: nat,
    exchanges: nat,
    signedIn: bool)

  datatype HandlerPhase = Arrived | Claimed | Waiting | Answered(ok: bool)

  // took is the flow the request claimed; reply is a channel with room for one
  // message.
  datatype Handler = Handler(state: FlowState, brought: Brought, phase: HandlerPhase, took: Option<nat>, reply: Option<bool>)

  datatype System = System(pending: map<FlowState, nat>, flows: seq<Flow>, handlers: seq<Handler>)

  datatype Step =
    | Begin(state: FlowState)
    | Arrive(state: FlowState, brought: Brought)
    | TakeState(h: nat)
    | Send(h: nat)
    | Receive(f: nat)
    | PasteElsewhere(f: nat)
    | Paste(f: nat, refused: bool)
    | GiveUp(f: nat)
    | Exchanged(f: nat, ok: bool)
    | EndClaim(f: nat)
    | EndClose(f: nat)
    | HearReply(h: nat)
    | HearDone(h: nat)
    | LeavePage(h: nat)

  predicate IsFlow(s: System, f: nat) { f < |s.flows| }

  predicate IsHandler(s: System, h: nat) { h < |s.handlers| }

  predicate Took(s: System, h: nat)
    requires IsHandler(s, h)
  {
    s.handlers[h].took.Some? && IsFlow(s, s.handlers[h].took.value)
  }

  predicate Enabled(s: System, step: Step) {
    match step
    case Begin(state) => forall f :: 0 <= f < |s.flows| ==> s.flows[f].state != state
    case Arrive(_, _) => true
    case TakeState(h) => IsHandler(s, h) && s.handlers[h].phase.Arrived?
    case Send(h) => IsHandler(s, h) && s.handlers[h].phase.Claimed? && Took(s, h)
    case Receive(f) =>
      && IsFlow(s, f) && (s.flows[f].phase.Awaiting? || s.flows[f].phase.AwaitingCallback?)
      && s.flows[f].codes.Some? && IsHandler(s, s.flows[f].codes.value)
    case PasteElsewhere(f) => IsFlow(s, f) && s.flows[f].phase.Awaiting?
    case Paste(f, _) => IsFlow(s, f) && s.flows[f].phase.Awaiting?
    case GiveUp(f) => IsFlow(s, f) && (s.flows[f].phase.Awaiting? || s.flows[f].phase.AwaitingCallback?)
    case Exchanged(f, _) =>
      && IsFlow(s, f) && s.flows[f].phase.Exchanging?
      && (s.flows[f].phase.source.FromCallback? ==> IsHandler(s, s.flows[f].phase.source.handler))
    case EndClaim(f) => IsFlow(s, f) && s.flows[f].phase.Ending?
    case EndClose(f) => IsFlow(s, f) && s.flows[f].phase.Closing?
    case HearReply(h) => IsHandler(s, h) && s.handlers[h].phase.Waiting? && s.handlers[h].reply.Some?
    case HearDone(h) =>
      IsHandler(s, h) && s.handlers[h].phase.Waiting? && Took(s, h) && s.flows[s.handlers[h].took.value].done
    case LeavePage(h) => IsHandler(s, h) && s.handlers[h].phase.Waiting?
  }

  function WithFlow(s: System, f: nat, x: Flow): System
    requires IsFlow(s, f)
  {
    s.(flows := s.flows[f := x])
  }

  function WithHandler(s: System, h: nat, x: Handler): System
    requires IsHandler(s, h)
  {
    s.(handlers := s.handlers[h := x])
  }

  function Reply(s: System, h: nat, ok: bool): System
    requires IsHandler(s, h)
  {
    WithHandler(s, h, s.handlers[h].(reply := Some(ok)))
  }

  function ClaimFlow(s: System, f: nat, who: Claimant, phase: FlowPhase): System
    requires IsFlow(s, f)
  {
    var x := s.flows[f];
    WithFlow(s, f, x.(claimant := Some(who), claims := x.claims + 1, phase := phase)).(pending := s.pending - {x.state})
  }

  function Next(s: System, step: Step): System
    requires Enabled(s, step)
  {
    match step
    case Begin(state) =>
      s.(pending := s.pending[state := |s.flows|], flows := s.flows + [Flow(state, Awaiting, None, false, None, 0, 0, false)])
    case Arrive(state, brought) => s.(handlers := s.handlers + [Handler(state, brought, Arrived, None, None)])
    case TakeState(h) =>
      var x := s.handlers[h];
      var f := Lookup(s.pending, x.state);
      if f.None? then WithHandler(s, h, x.(phase := Answered(false)))
      else if f.value < |s.flows| then
        ClaimFlow(WithHandler(s, h, x.(phase := Claimed, took := f)), f.value, ByHandler(h), s.flows[f.value].phase)
      else s
    case Send(h) =>
      var x := s.handlers[h];
      var f := x.took.value;
      WithFlow(WithHandler(s, h, x.(phase := Waiting)), f, s.flows[f].(codes := Some(h)))
    case Receive(f) =>
      var x, h := s.flows[f], s.flows[f].codes.value;
      if s.handlers[h].brought == Code
      then WithFlow(s, f, x.(codes := None, phase := Exchanging(FromCallback(h)), exchanges := x.exchanges + 1))
      else Reply(WithFlow(s, f, x.(codes := None, phase := Ending)), h, false)
    case PasteElsewhere(f) => s
    case Paste(f, refused) =>
      var x := s.flows[f];
      if Lookup(s.pending, x.state) != Some(f) then WithFlow(s, f, x.(phase := AwaitingCallback))
      else if refused then ClaimFlow(s, f, ByPaste, Ending)
      else
        var t := ClaimFlow(s, f, ByPaste, Exchanging(FromPaste));
        WithFlow(t, f, t.flows[f].(exchanges := x.exchanges + 1))
    case GiveUp(f) => WithFlow(s, f, s.flows[f].(phase := Ending))
    case Exchanged(f, ok) =>
      var x := s.flows[f];
      var t := WithFlow(s, f, x.(phase := Ending, signedIn := ok));
      if x.phase.source.FromCallback? then Reply(t, x.phase.source.handler, ok) else t
    case EndClaim(f) =>
      if Lookup(s.pending, s.flows[f].state) == Some(f) then ClaimFlow(s, f, ByEnd, Closing)
      else WithFlow(s, f, s.flows[f].(phase := Closing))
    case EndClose(f) => WithFlow(s, f, s.flows[f].(phase := Over, done := true))
    case HearReply(h) => WithHandler(s, h, s.handlers[h].(phase := Answered(s.handlers[h].reply.value)))
    case HearDone(h) => WithHandler(s, h, s.handlers[h].(phase := Answered(s.handlers[h].reply == Some(true))))
    case LeavePage(h) => WithHandler(s, h, s.handlers[h].(phase := Answered(false)))
  }

  // ---- The invariant ----

  predicate PendingOk(s: System) {
    && (forall state :: state in s.pending ==> s.pending[state] < |s.flows| && s.flows[s.pending[state]].state == state)
    && (forall f, g :: 0 <= f < g < |s.flows| ==> s.flows[f].state != s.flows[g].state)
    && (forall f :: 0 <= f < |s.flows| ==>
          var x := s.flows[f];
          && x.claims == (if x.claimant.Some? then 1 else 0)
          && (x.claimant == None <==> x.state in s.pending))
  }

  // What each phase of a flow says of its claim and its code.
  predicate FlowOk(s: System, f: nat)
    requires IsFlow(s, f)
  {
    var x := s.flows[f];
    && x.exchanges <= 1 && (x.signedIn ==> x.exchanges == 1 && !x.phase.Exchanging?)
    && (x.phase.Over? ==> x.done) && (x.claimant.None? || x.claimant == Some(ByEnd) ==> x.exchanges == 0)
    && (x.phase.Over? || x.phase.Closing? || x.phase.AwaitingCallback? ==> x.claimant.Some?)
    && (x.phase.Awaiting? || x.phase.AwaitingCallback? ==>
          x.exchanges == 0 && x.claimant != Some(ByPaste) && x.claimant != Some(ByEnd))
    && (x.phase.Exchanging? ==>
          && x.exchanges == 1
          && x.claimant == Some(if x.phase.source.FromPaste? then ByPaste else ByHandler(x.phase.source.handler)))
    && (x.claimant.Some? && x.claimant.value.ByHandler? ==>
          var h := x.claimant.value.handler;
          && IsHandler(s, h) && s.handlers[h].took == Some(f)
          && (x.codes.Some? || x.phase.Exchanging? ==>
                s.handlers[h].reply == None && !s.handlers[h].phase.Claimed? && s.handlers[h].phase != Answered(true))
          && (s.handlers[h].phase.Claimed? ==> x.exchanges == 0))
    && (x.codes.Some? ==> x.claimant == Some(ByHandler(x.codes.value)) && x.exchanges == 0)
  }

  predicate HandlerOk(s: System, h: nat)
    requires IsHandler(s, h)
  {
    var x := s.handlers[h];
    && (x.took.Some? ==> IsFlow(s, x.took.value) && s.flows[x.took.value].claimant == Some(ByHandler(h)))
    && (x.took == None <==> x.phase.Arrived? || (x.phase == Answered(false) && x.took == None))
    && (x.phase.Claimed? || x.phase.Arrived? ==> x.reply == None)
    && (x.reply == Some(true) || x.phase == Answered(true) ==> x.took.Some? && s.flows[x.took.value].signedIn)
  }

  predicate Inv(s: System) {
    && PendingOk(s)
    && (forall f :: 0 <= f < |s.flows| ==> FlowOk(s, f))
    && (forall h :: 0 <= h < |s.handlers| ==> HandlerOk(s, h))
  }

  function HandlerOf(s: System, step: Step): Option<nat>
    requires Enabled(s, step)
  {
    match step
    case TakeState(h) => Some(h)
    case Send(h) => Some(h)
    case HearReply(h) => Some(h)
    case HearDone(h) => Some(h)
    case LeavePage(h) => Some(h)
    case Receive(f) => s.flows[f].codes
    case Exchanged(f, _) =>
      if s.flows[f].phase.source.FromCallback? then Some(s.flows[f].phase.source.handler) else None
    case _ => None
  }

  function FlowOf(s: System, step: Step): Option<nat>
    requires Enabled(s, step)
  {
    match step
    case TakeState(h) => Lookup(s.pending, s.handlers[h].state)
    case Send(h) => s.handlers[h].took
    case HearReply(h) => s.handlers[h].took
    case HearDone(h) => s.handlers[h].took
    case Receive(f) => Some(f)
    case Paste(f, _) => Some(f)
    case GiveUp(f) => Some(f)
    case Exchanged(f, _) => Some(f)
    case EndClaim(f) => Some(f)
    case EndClose(f) => Some(f)
    case _ => None
  }

  // What the invariant says of the handler and the flow a step is about.
  lemma Touched(s: System, step: Step)
    requires Inv(s) && Enabled(s, step)
    ensures HandlerOf(s, step).Some? ==> IsHandler(s, HandlerOf(s, step).value) && HandlerOk(s, HandlerOf(s, step).value)
    ensures FlowOf(s, step).Some? ==> IsFlow(s, FlowOf(s, step).value) && FlowOk(s, FlowOf(s, step).value)
  {
    if HandlerOf(s, step).Some? {
      assert IsHandler(s, HandlerOf(s, step).value);
      assert HandlerOk(s, HandlerOf(s, step).value);
    }
    if FlowOf(s, step).Some? {
      assert IsFlow(s, FlowOf(s, step).value);
      assert FlowOk(s, FlowOf(s, step).value);
    }
  }

  predicate OfHandler(step: Step) {
    step.Arrive? || step.TakeState? || step.Send? || step.HearReply? || step.HearDone? || step.LeavePage?
  }

  lemma ClaimKeepsPending(s: System, f: nat, who: Claimant, phase: FlowPhase)
    requires PendingOk(s) && IsFlow(s, f) && s.flows[f].claimant == None
    ensures PendingOk(ClaimFlow(s, f, who, phase))
  {
  }

  // A step that claims nothing leaves the claims as they are.
  lemma OthersKeepPending(s: System, t: System)
    requires PendingOk(s) && t.pending == s.pending && |t.flows| == |s.flows|
    requires forall f :: 0 <= f < |s.flows| ==>
               t.flows[f].state == s.flows[f].state && t.flows[f].claims == s.flows[f].claims &&
               t.flows[f].claimant == s.flows[f].claimant
    ensures PendingOk(t)
  {
  }

  lemma HandlerStepKeepsPending(s: System, step: Step)
    requires Inv(s) && Enabled(s, step) && OfHandler(step)
    ensures PendingOk(Next(s, step))
  {
    Touched(s, step);
    if step.TakeState? && FlowOf(s, step).Some? {
      var f := FlowOf(s, step).value;
      var t := WithHandler(s, step.h, s.handlers[step.h].(phase := Claimed, took := Some(f)));
      OthersKeepPending(s, t);
      ClaimKeepsPending(t, f, ByHandler(step.h), s.flows[f].phase);
    } else {
      OthersKeepPending(s, Next(s, step));
    }
  }

  lemma FlowStepKeepsPending(s: System, step: Step)
    requires Inv(s) && Enabled(s, step) && !OfHandler(step)
    ensures PendingOk(Next(s, step))
  {
    if (step.Paste? || step.EndClaim?) && Lookup(s.pending, s.flows[step.f].state) == Some(step.f) {
      var t := ClaimFlow(s, step.f, if step.Paste? then ByPaste else ByEnd, Next(s, step).flows[step.f].phase);
      ClaimKeepsPending(s, step.f, if step.Paste? then ByPaste else ByEnd, Next(s, step).flows[step.f].phase);
      OthersKeepPending(t, Next(s, step));
    } else if !step.Begin? {
      OthersKeepPending(s, Next(s, step));
    }
  }

  lemma HandlerStepKeepsFlow(s: System, step: Step, f: nat)
    requires Inv(s) && Enabled(s, step) && OfHandler(step) && IsFlow(Next(s, step), f)
    ensures FlowOk(Next(s, step), f)
  {
    assert IsFlow(s, f) ==> FlowOk(s, f);
    hide PendingOk, HandlerOk;
    Touched(s, step);
  }

  lemma OwnStepKeepsFlow(s: System, step: Step)
    requires Inv(s) && Enabled(s, step) && !OfHandler(step) && FlowOf(s, step).Some?
    ensures var f := FlowOf(s, step).value; IsFlow(Next(s, step), f) && FlowOk(Next(s, step), f)
  {
    hide HandlerOk;
    Touched(s, step);
  }

  lemma FlowStepKeepsFlow(s: System, step: Step, f: nat)
    requires Inv(s) && Enabled(s, step) && !OfHandler(step) && IsFlow(Next(s, step), f)
    ensures FlowOk(Next(s, step), f)
  {
    if FlowOf(s, step) == Some(f) {
      OwnStepKeepsFlow(s, step);
      hide Next, Inv, FlowOk;
    } else {
      assert IsFlow(s, f) ==> FlowOk(s, f);
      hide PendingOk, HandlerOk;
      Touched(s, step);
      hide Inv;
    }
  }

  lemma StepKeepsHandler(s: System, step: Step, h: nat)
    requires Inv(s) && Enabled(s, step) && IsHandler(Next(s, step), h)
    ensures HandlerOk(Next(s, step), h)
  {
    assert IsHandler(s, h) ==> HandlerOk(s, h);
    Touched(s, step);
    if IsHandler(s, h) && Took(s, h) {
      assert FlowOk(s, s.handlers[h].took.value);
    }
  }

  lemma StepKeeps(s: System, step: Step)
    requires Inv(s) && Enabled(s, step)
    ensures Inv(Next(s, step))
  {
    var t := Next(s, step);
    if OfHandler(step) {
      HandlerStepKeepsPending(s, step);
    } else {
      FlowStepKeepsPending(s, step);
    }
    forall f | IsFlow(t, f) ensures FlowOk(t, f) {
      if OfHandler(step) {
        HandlerStepKeepsFlow(s, step, f);
      } else {
        FlowStepKeepsFlow(s, step, f);
      }
    }
    forall h | IsHandler(t, h) ensures HandlerOk(t, h) {
      StepKeepsHandler(s, step, h);
    }
    hide Next, Enabled, FlowOk, HandlerOk, PendingOk;
  }

  // ---- Whole runs ----

  ghost predicate Reachable(s: System, steps: seq<Step>, t: System)
    decreases |steps|
  {
    if steps == [] then t == s
    else Enabled(s, steps[0]) && Reachable(Next(s, steps[0]), steps[1..], t)
  }

  lemma {:induction false} RunKeeps(s: System, steps: seq<Step>, t: System)
    requires Inv(s) && Reachable(s, steps, t)
    ensures Inv(t)
    decreases |steps|
  {
    hide Inv, Next, Enabled;
    if steps != [] {
      StepKeeps(s, steps[0]);
      RunKeeps(Next(s, steps[0]), steps[1..], t);
    }
  }

  const START := System(map[], [], [])

  // However callbacks, pastes and the end of a flow race, one of them at most
  // claims it and at most one code is exchanged; once the flow is over it has
  // been claimed.
  lemma ClaimedOnce(steps: seq<Step>, t: System, f: nat)
    requires Reachable(START, steps, t) && IsFlow(t, f)
    ensures t.flows[f].claims <= 1 && t.flows[f].exchanges <= 1
    ensures t.flows[f].phase.Over? ==> t.flows[f].claims == 1 && t.flows[f].state !in t.pending
    ensures t.flows[f].exchanges == 1 ==>
              t.flows[f].claimant.Some? && (t.flows[f].claimant.value.ByPaste? || t.flows[f].claimant.value.ByHandler?)
    ensures t.flows[f].claimant.Some? && t.flows[f].claimant.value.ByHandler? ==>
              && IsHandler(t, t.flows[f].claimant.value.handler)
              && t.handlers[t.flows[f].claimant.value.handler].took == Some(f)
  {
    RunKeeps(START, steps, t);
    assert FlowOk(t, f);
  }

  // No send ever finds its channel full: neither the code of a callback, nor
  // the outcome sent back to it.
  lemma NoSendBlocks(steps: seq<Step>, t: System, step: Step)
    requires Reachable(START, steps, t) && Enabled(t, step)
    ensures step.Send? ==> t.flows[t.handlers[step.h].took.value].codes == None
    ensures step.Receive? ==> t.handlers[t.flows[step.f].codes.value].reply == None
    ensures step.Exchanged? && t.flows[step.f].phase.source.FromCallback? ==>
              t.handlers[t.flows[step.f].phase.source.handler].reply == None
  {
    RunKeeps(START, steps, t);
    Touched(t, step);
  }

  // Once a flow is over, a request that claimed it can send without waiting, and
  // one that waits has a reply or a closed done to hear; and what a page says
  // went well did.
  lemma EveryClaimantHears(steps: seq<Step>, t: System, h: nat)
    requires Reachable(START, steps, t) && IsHandler(t, h) && t.handlers[h].took.Some?
    ensures IsFlow(t, t.handlers[h].took.value)
    ensures t.flows[t.handlers[h].took.value].phase.Over? && t.handlers[h].phase.Waiting? ==> Enabled(t, HearDone(h))
    ensures t.flows[t.handlers[h].took.value].phase.Over? && t.handlers[h].phase.Claimed? ==>
              Enabled(t, Send(h)) && Enabled(Next(t, Send(h)), HearDone(h))
    ensures t.handlers[h].phase == Answered(true) ==> t.flows[t.handlers[h].took.value].signedIn
  {
    RunKeeps(START, steps, t);
    assert HandlerOk(t, h);
    assert FlowOk(t, t.handlers[h].took.value);
  }
}
