// The desktop's server supervisor (desktop/src/server.ts) as a machine of its
// calls, awaits and callbacks. A process is named by the generation of the
// spawn attempt that started it: an attempt starts at most one.
module Supervisor {
  import opened Prelude
  import opened Restart

  datatype Reason = BinaryMissing | NoPort | DataInUse | KeptFailing

  datatype Status = Starting | Running(port: nat) | Failed(why: Reason) | Stopped

  const EXIT_DATA_IN_USE := 17

  // Where a spawn attempt waits: for a port, then for its server to answer.
  datatype Phase = AwaitingPort | AwaitingHealth(port: nat)

  datatype State = State(
    child: Option<nat>,
    generation: nat,
    stopping: bool,
    timer: bool,
    status: Status,
    policy: Policy,
    attempts: map<nat, Phase>,
    // The processes alive, and those a stop waits for.
    alive: set<nat>,
    waiting: set<nat>)

  datatype Event =
    | Start(binary: bool)
    | Retry(binary: bool)
    | Stop
      // The port an attempt waited for; spawned is whether a process came of it.
    | PortPicked(gen: nat, port: nat, spawned: bool, now: int)
    | PortFailed(gen: nat)
    | Health(gen: nat, healthy: bool)
      // A process is gone, with its exit code if it had one.
    | Exit(gen: nat, code: Option<int>, now: int)
    | TimerFired(binary: bool)

  function Initial(opts: Options): State {
    State(None, 0, false, false, Stopped, Policy(opts, 0, 0), map[], {}, {})
  }

  // Whether the event can come at all.
  predicate Enabled(s: State, e: Event) {
    match e
    case PortPicked(gen, _, _, _) => gen in s.attempts && s.attempts[gen] == AwaitingPort
    case PortFailed(gen) => gen in s.attempts && s.attempts[gen] == AwaitingPort
    case Health(gen, _) => gen in s.attempts && s.attempts[gen].AwaitingHealth?
    case Exit(gen, _, _) => gen in s.alive
    case TimerFired(_) => s.timer
    case _ => true
  }

  function AfterSpawn(s: State, binary: bool): State {
    var gen := s.generation + 1;
    if binary then s.(generation := gen, status := Starting, attempts := s.attempts[gen := AwaitingPort])
    else s.(generation := gen, status := Failed(BinaryMissing))
  }

  function AfterStart(s: State, binary: bool): State {
    AfterSpawn(s.(stopping := false, policy := s.policy.(attempts := 0, startedAt := 0), timer := false), binary)
  }

  function AfterGone(s: State, gen: nat, code: Option<int>, now: int): State {
    var t := if s.child == Some(gen) then s.(child := None) else s;
    if t.stopping || gen != t.generation then t
    else if code == Some(EXIT_DATA_IN_USE) then t.(status := Failed(DataInUse))
    else
      var p := AfterExit(t.policy, now);
      if DelayAt(p.opts, p.attempts).None? then t.(policy := p, status := Failed(KeptFailing))
      else t.(policy := p, status := Starting, timer := true)
  }

  // The tail of a stop that waited for the process.
  function StopTail(s: State, gen: nat): State {
    if gen in s.waiting then s.(child := None, status := Stopped, waiting := s.waiting - {gen}) else s
  }

  function AfterStop(s: State): State {
    var t := s.(stopping := true, timer := false);
    if t.child.Some? && t.child.value in t.alive then t.(waiting := t.waiting + {t.child.value})
    else t.(child := None, status := Stopped)
  }

  function AfterPort(s: State, gen: nat, port: nat, spawned: bool, now: int): State {
    if gen != s.generation || s.stopping then s.(attempts := s.attempts - {gen})
    else
      var t := s.(child := Some(gen), policy := s.policy.(startedAt := now),
                  attempts := s.attempts[gen := AwaitingHealth(port)]);
      if spawned then t.(alive := t.alive + {gen}) else AfterGone(t, gen, None, now)
  }

  function AfterHealth(s: State, gen: nat, healthy: bool): State
    requires gen in s.attempts && s.attempts[gen].AwaitingHealth?
  {
    var t := s.(attempts := s.attempts - {gen});
    // Not answering is left to the exit that its killing brings.
    if gen != s.generation || s.stopping || gen !in s.alive || !healthy then t
    else t.(status := Running(s.attempts[gen].port))
  }

  function After(s: State, e: Event): State {
    if !Enabled(s, e) then s
    else
      match e
      case Start(binary) => AfterStart(s, binary)
      case Retry(binary) => if s.child.Some? then s else AfterStart(s, binary)
      case Stop => AfterStop(s)
      case PortPicked(gen, port, spawned, now) => AfterPort(s, gen, port, spawned, now)
      case PortFailed(gen) => s.(attempts := s.attempts - {gen}, status := Failed(NoPort))
      case Health(gen, healthy) => AfterHealth(s, gen, healthy)
      case Exit(gen, code, now) => StopTail(AfterGone(s.(alive := s.alive - {gen}), gen, code, now), gen)
      case TimerFired(binary) => AfterSpawn(s.(timer := false), binary)
  }

  // ---- The invariant ----

  // The child is the one process alive, of the newest attempt, and nothing else
  // is on its way.
  predicate OneChild(s: State) {
    && (s.child.Some? ==> s.child.value == s.generation && s.alive == {s.generation} && !s.timer)
    && (s.child.None? ==> s.alive == {})
  }

  predicate AttemptsOk(s: State) {
    && (forall g :: g in s.attempts ==> g <= s.generation)
    && (s.generation in s.attempts && s.attempts[s.generation] == AwaitingPort ==> s.child.None? && !s.timer)
  }

  predicate StopsOk(s: State) {
    && (s.timer ==> !s.stopping)
    && (if s.stopping && s.child.Some? then s.waiting == {s.generation} else s.waiting == {})
  }

  predicate StatusOk(s: State) {
    && (s.status.Running? ==> s.child.Some?)
    // Starting is never the last word: something is still on its way.
    && (s.status.Starting? && !s.stopping ==>
          s.timer || s.child.Some? || (s.generation in s.attempts && s.attempts[s.generation] == AwaitingPort))
  }

  predicate Inv(s: State) { OneChild(s) && AttemptsOk(s) && StopsOk(s) && StatusOk(s) }

  lemma GoneKeeps(s: State, gen: nat, code: Option<int>, now: int)
    requires AttemptsOk(s) && s.child == Some(gen) && gen == s.generation && s.alive == {} && !s.timer && !s.stopping
    requires gen in s.attempts ==> s.attempts[gen].AwaitingHealth?
    requires s.waiting == {}
    ensures Inv(AfterGone(s, gen, code, now))
  {
  }

  // A start with no child keeps the invariant; with one, it breaks it.
  lemma StartKeepsIff(s: State, binary: bool)
    requires Inv(s)
    ensures Inv(AfterStart(s, binary)) <==> s.child.None?
  {
  }

  lemma StepKeeps(s: State, e: Event)
    requires Inv(s) && (e.Start? ==> s.child.None?)
    ensures Inv(After(s, e))
  {
    if Enabled(s, e) {
      match e
      case Start(binary) => StartKeepsIff(s, binary);
      case Retry(binary) => if s.child.None? { StartKeepsIff(s, binary); }
      case Stop =>
      case PortPicked(gen, port, spawned, now) =>
        if gen == s.generation && !s.stopping && !spawned {
          GoneKeeps(s.(child := Some(gen), policy := s.policy.(startedAt := now),
                       attempts := s.attempts[gen := AwaitingHealth(port)]), gen, None, now);
        }
      case PortFailed(gen) =>
      case Health(gen, healthy) =>
      case Exit(gen, code, now) =>
        if !s.stopping {
          GoneKeeps(s.(alive := s.alive - {gen}), gen, code, now);
        }
      case TimerFired(binary) =>
    }
  }

  // ---- Runs ----

  function Run(opts: Options, events: seq<Event>): State {
    if events == [] then Initial(opts) else After(Run(opts, events[..|events| - 1]), events[|events| - 1])
  }

  // Every start finds no child, as the one at launch does.
  predicate StartsClear(opts: Options, events: seq<Event>) {
    forall i :: 0 <= i < |events| && events[i].Start? ==> Run(opts, events[..i]).child.None?
  }

  lemma {:induction false} RunKeeps(opts: Options, events: seq<Event>)
    requires StartsClear(opts, events)
    ensures Inv(Run(opts, events))
  {
    if events != [] {
      var n := |events| - 1;
      assert forall i :: 0 <= i < n ==> events[..n][..i] == events[..i];
      RunKeeps(opts, events[..n]);
      hide Inv, After, Initial;
      StepKeeps(Run(opts, events[..n]), events[n]);
    }
  }

  // At most one process is alive, running is reported only while it is, and
  // starting only while something is still to come.
  lemma OneServer(opts: Options, events: seq<Event>)
    requires StartsClear(opts, events)
    ensures var s := Run(opts, events);
            && |s.alive| <= 1
            && (s.status.Running? ==> s.alive == {s.generation} && s.child == Some(s.generation))
            && (s.status.Starting? && !s.stopping ==>
                  s.timer || s.alive != {} || (s.generation in s.attempts && s.attempts[s.generation] == AwaitingPort))
  {
    RunKeeps(opts, events);
  }

  // A start while a child lives starts a second process beside it.
  lemma SecondStartLeavesTwo(opts: Options, port: nat, now: int)
    ensures Run(opts, [Start(true), PortPicked(1, port, true, now), Start(true), PortPicked(2, port, true, now)]).alive == {1, 2}
  {
    var s1 := After(Initial(opts), Start(true));
    var s2 := After(s1, PortPicked(1, port, true, now));
    var s3 := After(s2, Start(true));
    var s4 := After(s3, PortPicked(2, port, true, now));
    RunOfFour(opts, [Start(true), PortPicked(1, port, true, now), Start(true), PortPicked(2, port, true, now)]);
  }

  lemma RunOfNext(opts: Options, events: seq<Event>, e: Event)
    ensures Run(opts, events + [e]) == After(Run(opts, events), e)
  {
    hide After, Initial;
    assert (events + [e])[..|events|] == events;
  }

  lemma RunOfFour(opts: Options, e: seq<Event>)
    requires |e| == 4
    ensures Run(opts, e) == After(After(After(After(Initial(opts), e[0]), e[1]), e[2]), e[3])
  {
    hide After, Initial;
    RunOfNext(opts, [], e[0]);
    RunOfNext(opts, [e[0]], e[1]);
    RunOfNext(opts, [e[0], e[1]], e[2]);
    RunOfNext(opts, [e[0], e[1], e[2]], e[3]);
    assert [] + [e[0]] == [e[0]] && [e[0]] + [e[1]] == [e[0], e[1]];
    assert [e[0], e[1]] + [e[2]] == [e[0], e[1], e[2]] && [e[0], e[1], e[2]] + [e[3]] == e;
  }

  // ---- Attempts of an older generation ----

  predicate OfAttempt(e: Event, gen: nat) {
    match e
    case PortPicked(g, _, _, _) => g == gen
    case PortFailed(g) => g == gen
    case Health(g, _) => g == gen
    case Exit(g, _, _) => g == gen
    case _ => false
  }

  // An attempt of an older generation never changes the child or what is alive,
  // and changes the status exactly when its port cannot be had: that path alone
  // does not look at the generation.
  lemma StaleAttempt(s: State, e: Event, gen: nat)
    requires Inv(s) && Enabled(s, e) && OfAttempt(e, gen) && gen < s.generation
    ensures var t := After(s, e);
            && t.child == s.child && t.alive == s.alive && t.timer == s.timer && t.policy == s.policy
            && t.generation == s.generation
            && (t.status == s.status <==> !e.PortFailed? || s.status == Failed(NoPort))
  {
  }

  // A retry overtakes an attempt that waits for its port; when that port then
  // fails, failed is reported over a server that is running, and no retry
  // clears it.
  lemma StalePortFailureIsReported(opts: Options, port: nat, now: int)
    ensures var events := [Start(true), Retry(true), PortPicked(2, port, true, now), Health(2, true)];
            var s := Run(opts, events);
            var t := After(s, PortFailed(1));
            && s.status == Running(port)
            && t.status == Failed(NoPort) && t.child == Some(2) && t.alive == {2}
            && After(t, Retry(true)) == t
  {
    var e := [Start(true), Retry(true), PortPicked(2, port, true, now), Health(2, true)];
    RunOfFour(opts, e);
  }

  // ---- Restarts ----

  // The restarts since the count last started again, at a start or at the exit
  // of a server that was stable.
  function RestartsAfter(s: State, e: Event, n: nat): nat {
    if !Enabled(s, e) then n
    else
      match e
      case Start(_) => 0
      case Retry(_) => if s.child.None? then 0 else n
      case TimerFired(_) => n + 1
      case PortPicked(gen, _, spawned, now) =>
        if gen == s.generation && !s.stopping && !spawned && WasStable(s.policy.(startedAt := now), now) then 0 else n
      case Exit(gen, code, now) =>
        if !s.stopping && gen == s.generation && code != Some(EXIT_DATA_IN_USE) && WasStable(s.policy, now) then 0 else n
      case _ => n
  }

  function Restarts(opts: Options, events: seq<Event>): nat {
    if events == [] then 0
    else
      var n := |events| - 1;
      RestartsAfter(Run(opts, events[..n]), events[n], Restarts(opts, events[..n]))
  }

  predicate CountOk(s: State, restarts: nat) {
    restarts + (if s.timer then 1 else 0) <= Min(s.policy.attempts, s.policy.opts.maxRestarts)
  }

  lemma CountStep(s: State, e: Event, n: nat)
    requires Inv(s) && CountOk(s, n)
    ensures CountOk(After(s, e), RestartsAfter(s, e, n)) && After(s, e).policy.opts == s.policy.opts
  {
    hide StatusOk, StopsOk;
  }

  lemma {:induction false} RestartsAreCounted(opts: Options, events: seq<Event>)
    requires StartsClear(opts, events)
    ensures CountOk(Run(opts, events), Restarts(opts, events)) && Run(opts, events).policy.opts == opts
  {
    if events != [] {
      var n := |events| - 1;
      assert forall i :: 0 <= i < n ==> events[..n][..i] == events[..i];
      RestartsAreCounted(opts, events[..n]);
      RunKeeps(opts, events[..n]);
      hide Inv, CountOk, After, RestartsAfter;
      CountStep(Run(opts, events[..n]), events[n], Restarts(opts, events[..n]));
    }
  }

  lemma RestartsAreFew(opts: Options, events: seq<Event>)
    requires StartsClear(opts, events)
    ensures Restarts(opts, events) <= opts.maxRestarts
  {
    RestartsAreCounted(opts, events);
  }

  // Nothing is alive, and nothing on its way will start a process.
  predicate IsStill(s: State) {
    && s.child.None? && s.alive == {} && !s.timer
    && !(s.generation in s.attempts && s.attempts[s.generation] == AwaitingPort)
  }

  function RunOn(s: State, events: seq<Event>): State {
    if events == [] then s else After(RunOn(s, events[..|events| - 1]), events[|events| - 1])
  }

  lemma {:induction false} StaysStill(s: State, events: seq<Event>)
    requires Inv(s) && IsStill(s) && forall e :: e in events ==> !e.Start? && !e.Retry?
    ensures var t := RunOn(s, events); Inv(t) && IsStill(t) && t.policy == s.policy
  {
    if events != [] {
      var n := |events| - 1;
      StaysStill(s, events[..n]);
      StepKeeps(RunOn(s, events[..n]), events[n]);
    }
  }

  // A server that finds its data in use is reported and costs none of the
  // budget; whatever comes after, short of a start or a retry, nothing runs.
  lemma DataInUseEnds(s: State, gen: nat, now: int, more: seq<Event>)
    requires Inv(s) && Enabled(s, Event.Exit(gen, Some(EXIT_DATA_IN_USE), now)) && !s.stopping
    requires forall e :: e in more ==> !e.Start? && !e.Retry?
    ensures var t := After(s, Event.Exit(gen, Some(EXIT_DATA_IN_USE), now));
            t.status == Failed(DataInUse) && IsStill(RunOn(t, more)) && RunOn(t, more).policy == s.policy
  {
    var e := Event.Exit(gen, Some(EXIT_DATA_IN_USE), now);
    StepKeeps(s, e);
    assert IsStill(After(s, e)) && After(s, e).policy == s.policy;
    StaysStill(After(s, e), more);
  }

  // Once stopped, nothing but a start or a retry brings a process back.
  lemma StopHolds(s: State, e: Event)
    requires Inv(s) && s.stopping && !e.Start? && !e.Retry?
    ensures var t := After(s, e);
            t.stopping && t.alive <= s.alive && !t.timer && (s.child.None? ==> t.child.None?)
  {
  }

  // ---- The supervisor object ----

  // Each method is one run-to-completion step of the event loop: a call, or the
  // code between two awaits. attempts, alive and waiting stand for the suspended
  // calls and the processes they hold.
  class ServerSupervisor {
    var child: Option<nat>
    var generation: nat
    var stopping: bool
    var restartTimer: bool
    var status: Status
    const policy: RestartPolicy
    var attempts: map<nat, Phase>
    var alive: set<nat>
    var waiting: set<nat>

    function Value(): State
      reads this, policy
    {
      State(child, generation, stopping, restartTimer, status, policy.Value(), attempts, alive, waiting)
    }

    constructor (opts: Options)
      ensures Value() == Initial(opts)
      ensures fresh(policy)
    {
      child := None;
      generation := 0;
      stopping := false;
      restartTimer := false;
      status := Stopped;
      policy := new RestartPolicy(opts);
      attempts := map[];
      alive := {};
      waiting := {};
    }

    method Start(binary: bool)
      modifies this, policy
      ensures Value() == After(old(Value()), Event.Start(binary))
    {
      stopping := false;
      policy.Reset();
      restartTimer := false;
      SpawnOnce(binary);
    }

    method Retry(binary: bool)
      modifies this, policy
      ensures Value() == After(old(Value()), Event.Retry(binary))
    {
      if child.Some? {
        return;
      }
      Start(binary);
    }

    method Stop()
      modifies this
      ensures Value() == After(old(Value()), Event.Stop)
    {
      stopping := true;
      restartTimer := false;
      if child.Some? && child.value in alive {
        waiting := waiting + {child.value};
        return;
      }
      child := None;
      status := Stopped;
    }

    method SpawnOnce(binary: bool)
      modifies this
      ensures Value() == AfterSpawn(old(Value()), binary)
    {
      generation := generation + 1;
      status := Starting;
      if !binary {
        status := Failed(BinaryMissing);
        return;
      }
      attempts := attempts[generation := AwaitingPort];
    }

    method PortPicked(gen: nat, port: nat, spawned: bool, now: int)
      requires Enabled(Value(), Event.PortPicked(gen, port, spawned, now))
      modifies this, policy
      ensures Value() == After(old(Value()), Event.PortPicked(gen, port, spawned, now))
    {
      if gen != generation || stopping {
        attempts := attempts - {gen};
        return;
      }
      child := Some(gen);
      policy.Started(now);
      attempts := attempts[gen := AwaitingHealth(port)];
      if spawned {
        alive := alive + {gen};
      } else {
        OnGone(gen, None, now);
      }
    }

    method PortFailed(gen: nat)
      requires Enabled(Value(), Event.PortFailed(gen))
      modifies this
      ensures Value() == After(old(Value()), Event.PortFailed(gen))
    {
      attempts := attempts - {gen};
      status := Failed(NoPort);
    }

    method OnGone(gen: nat, code: Option<int>, now: int)
      modifies this, policy
      ensures Value() == AfterGone(old(Value()), gen, code, now)
    {
      if child == Some(gen) {
        child := None;
      }
      if stopping || gen != generation {
        return;
      }
      if code == Some(EXIT_DATA_IN_USE) {
        status := Failed(DataInUse);
        return;
      }
      var delay := policy.OnExit(now);
      if delay.None? {
        status := Failed(KeptFailing);
        return;
      }
      status := Starting;
      restartTimer := true;
    }

    method Exited(gen: nat, code: Option<int>, now: int)
      requires Enabled(Value(), Event.Exit(gen, code, now))
      modifies this, policy
      ensures Value() == After(old(Value()), Event.Exit(gen, code, now))
    {
      alive := alive - {gen};
      OnGone(gen, code, now);
      if gen in waiting {
        child := None;
        status := Stopped;
        waiting := waiting - {gen};
      }
    }

    method HealthKnown(gen: nat, healthy: bool)
      requires Enabled(Value(), Health(gen, healthy))
      modifies this
      ensures Value() == After(old(Value()), Health(gen, healthy))
    {
      var port := attempts[gen].port;
      attempts := attempts - {gen};
      if gen != generation || stopping || gen !in alive {
        return;
      }
      if !healthy {
        return;
      }
      status := Running(port);
    }

    method RestartTimerFired(binary: bool)
      requires Enabled(Value(), TimerFired(binary))
      modifies this
      ensures Value() == After(old(Value()), TimerFired(binary))
    {
      restartTimer := false;
      SpawnOnce(binary);
    }
  }
}
