// When a server that exited on its own is started again, and after how long
// (desktop/src/restart.ts). Times and delays are whole milliseconds.
module Restart {
  import opened Prelude

  datatype Options = Options(maxRestarts: nat, baseDelayMs: nat, maxDelayMs: nat, stableAfterMs: nat)

  const DEFAULT_OPTIONS := Options(4, 1000, 15000, 60000)

  datatype Policy = Policy(opts: Options, attempts: nat, startedAt: int)

  function Pow2(n: nat): (p: nat)
    ensures p >= 1
  {
    if n == 0 then 1 else 2 * Pow2(n - 1)
  }

  // The server that just exited had run for a while.
  predicate WasStable(p: Policy, now: int) { p.startedAt != 0 && now - p.startedAt >= p.opts.stableAfterMs }

  function AfterExit(p: Policy, now: int): Policy {
    p.(attempts := (if WasStable(p, now) then 0 else p.attempts) + 1)
  }

  function DelayAt(opts: Options, attempts: nat): (delay: Option<nat>)
    requires attempts > 0
  {
    if attempts > opts.maxRestarts then None
    else Some(Min(opts.baseDelayMs * Pow2(attempts - 1), opts.maxDelayMs))
  }

  // ---- Runs of the policy ----

  datatype Call = Started(now: int) | Exit(now: int) | Reset

  // A policy and the delays it gave since its count last started again.
  datatype Log = Log(policy: Policy, delays: seq<nat>)

  function AfterCall(l: Log, c: Call): Log {
    match c
    case Started(now) => l.(policy := l.policy.(startedAt := now))
    case Exit(now) =>
      var p := AfterExit(l.policy, now);
      var earlier := if WasStable(l.policy, now) then [] else l.delays;
      var delay := DelayAt(p.opts, p.attempts);
      Log(p, if delay.Some? then earlier + [delay.value] else earlier)
    case Reset => Log(l.policy.(attempts := 0, startedAt := 0), [])
  }

  function Run(opts: Options, calls: seq<Call>): Log {
    if calls == [] then Log(Policy(opts, 0, 0), []) else AfterCall(Run(opts, calls[..|calls| - 1]), calls[|calls| - 1])
  }

  lemma {:induction false} Pow2Grows(m: nat, n: nat)
    requires m <= n
    ensures Pow2(m) <= Pow2(n)
  {
    if m < n {
      Pow2Grows(m, n - 1);
    }
  }

  lemma TimesGrows(a: nat, m: nat, n: nat)
    requires m <= n
    ensures a * m <= a * n
  {
    assert a * n - a * m == a * (n - m);
  }

  lemma DelaysGrow(opts: Options, m: nat, n: nat)
    requires m <= n
    ensures Min(opts.baseDelayMs * Pow2(m), opts.maxDelayMs) <= Min(opts.baseDelayMs * Pow2(n), opts.maxDelayMs)
  {
    Pow2Grows(m, n);
    TimesGrows(opts.baseDelayMs, Pow2(m), Pow2(n));
    hide Pow2;
  }

  lemma {:induction false} DelaysAre(opts: Options, calls: seq<Call>)
    ensures var l := Run(opts, calls);
            && l.policy.opts == opts && |l.delays| == Min(l.policy.attempts, opts.maxRestarts)
            && forall i :: 0 <= i < |l.delays| ==> l.delays[i] == Min(opts.baseDelayMs * Pow2(i), opts.maxDelayMs)
  {
    if calls != [] {
      DelaysAre(opts, calls[..|calls| - 1]);
    }
  }

  // Between resets there are at most maxRestarts restarts, and their delays
  // never shrink and never exceed the cap.
  lemma RestartsAreBounded(opts: Options, calls: seq<Call>)
    ensures var delays := Run(opts, calls).delays;
            && |delays| <= opts.maxRestarts
            && (forall i, j :: 0 <= i <= j < |delays| ==> delays[i] <= delays[j])
            && (forall i :: 0 <= i < |delays| ==> delays[i] <= opts.maxDelayMs)
  {
    DelaysAre(opts, calls);
    var delays := Run(opts, calls).delays;
    forall i, j | 0 <= i <= j < |delays| ensures delays[i] <= delays[j] {
      DelaysGrow(opts, i, j);
    }
  }

  // ---- The policy object ----

  class RestartPolicy {
    const opts: Options
    var attempts: nat
    var startedAt: int

    function Value(): Policy
      reads this
    {
      Policy(opts, attempts, startedAt)
    }

    constructor (opts: Options)
      ensures Value() == Run(opts, []).policy
    {
      this.opts := opts;
      attempts := 0;
      startedAt := 0;
    }

    method Started(now: int)
      modifies this
      ensures Value() == AfterCall(Log(old(Value()), []), Call.Started(now)).policy
    {
      startedAt := now;
    }

    method OnExit(now: int) returns (delay: Option<nat>)
      modifies this
      ensures Value() == AfterCall(Log(old(Value()), []), Exit(now)).policy
      ensures delay == DelayAt(opts, attempts)
    {
      if startedAt != 0 && now - startedAt >= opts.stableAfterMs {
        attempts := 0;
      }
      attempts := attempts + 1;
      if attempts > opts.maxRestarts {
        return None;
      }
      delay := Some(Min(opts.baseDelayMs * Pow2(attempts - 1), opts.maxDelayMs));
    }

    method Reset()
      modifies this
      ensures Value() == AfterCall(Log(old(Value()), []), Call.Reset).policy
    {
      attempts := 0;
      startedAt := 0;
    }
  }
}
