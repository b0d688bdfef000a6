// Keeping one server's access token fresh (internal/mcp/oauth.go): any number
// of callers, in any number of Omniplex processes sharing one secret store,
// against an authorization server whose refresh tokens are single use (section
// 6 of RFC 6749). A step of the machine is what one of them does between two
// points where others can come in.
module TokenRefresh {
  import opened Prelude

  type Token = nat

  // The stored sign-in. No expiry means the token does not expire; no refresh
  // token means the authorization server gave none.
  datatype Record = Record(access: Token, refresh: Option<Token>, expiry: Option<int>)

  datatype Outcome = Usable(access: Token) | SignInNeeded | Trouble

  // rejected is the token a server has just turned away. A sign-in has its
  // tokens before it asks for the lock that lets it store them.
  datatype Task = Refresh(rejected: Option<Token>) | SignIn(record: Record) | SignOut

  datatype Phase =
    | Waiting
    | HasMutex
    | Locked
    | Asking(held: Record, since: int)
    | Granted(held: Record, granted: Record)
    | Denied(held: Record)
    | Over(outcome: Outcome)

  // heard is what the caller has been told: how its task ended, or what there was
  // when it stopped waiting for that. The task goes on without it.
  datatype Caller = Caller(process: nat, task: Task, phase: Phase, heard: Option<Outcome>)

  // What the authorization server remembers of the refresh tokens it issued.
  datatype AuthServer = AuthServer(issued: set<Token>, spent: set<Token>, revoked: set<Token>)

  datatype System = System(
    now: int,
    next: Token,
    auth: AuthServer,
    // How many requests for a refresh have been sent, answered or not.
    sent: nat,
    stored: Option<Record>,
    // The caller that holds each process's lock, and the one that holds the file.
    mutexes: map<nat, nat>,
    file: Option<nat>,
    callers: seq<Caller>)

  const REFRESH_WINDOW := 300

  datatype Step =
    | Tick(now: int)
    | Call(process: nat, rejected: Option<Token>)
    // An authorization-code exchange that came back with tokens.
    | Exchange(process: nat, refreshable: bool, expiry: Option<int>)
    | Leave(process: nat)
    | TakeMutex(i: nat)
    | TakeFile(i: nat)
    | FileTimeout(i: nat)
    | Decide(i: nat)
    // The server answers a refresh; lifetime is expires_in, none when absent.
    | Answer(i: nat, lifetime: Option<nat>)
    // The request never reached the server, or it failed before processing it.
    | Transient(i: nat)
    | Save(i: nat)
    | Drop(i: nat)
    | Revoke(token: Token)
    | Hear(i: nat)
    | StopWaiting(i: nat)

  predicate In(s: System, i: nat) { i < |s.callers| }

  function PhaseOf(s: System, i: nat): Phase
    requires In(s, i)
  {
    s.callers[i].phase
  }

  predicate Expired(expiry: Option<int>, now: int) { expiry.Some? && expiry.value <= now }

  predicate Forced(rec: Record, task: Task) { task.Refresh? && task.rejected == Some(rec.access) }

  function RejectedBy(task: Task): Option<Token> { if task.Refresh? then task.rejected else None }

  // A caller that could not get the lock, or stopped waiting, makes do with the
  // stored token while it is good and not the one turned away.
  function MakeDo(stored: Option<Record>, rejected: Option<Token>, now: int, needsExpiry: bool): Outcome {
    if stored.Some? && Some(stored.value.access) != rejected && !Expired(stored.value.expiry, now) &&
       (needsExpiry ==> stored.value.expiry.Some?)
    then Usable(stored.value.access)
    else Trouble
  }

  // What the holder of the lock does on reading the stored record: settle, or
  // (None) ask for a refresh.
  function Settle(stored: Option<Record>, task: Task, now: int): Option<Outcome> {
    if stored == None then Some(SignInNeeded)
    else
      var rec := stored.value;
      var force := Forced(rec, task);
      if !force && (rec.expiry == None || rec.expiry.value > now + REFRESH_WINDOW) then Some(Usable(rec.access))
      else if force && rec.refresh == None then Some(SignInNeeded)
      else if rec.refresh == None then
        if rec.expiry.Some? && rec.expiry.value > now then Some(Usable(rec.access)) else Some(SignInNeeded)
      else None
  }

  predicate Enabled(s: System, step: Step) {
    match step
    case Tick(now) => now >= s.now
    case Call(_, rejected) => rejected.Some? ==> rejected.value < s.next
    case Exchange(_, _, _) => true
    case Leave(_) => true
    case TakeMutex(i) => In(s, i) && PhaseOf(s, i).Waiting? && s.callers[i].process !in s.mutexes
    case TakeFile(i) => In(s, i) && PhaseOf(s, i).HasMutex? && s.file == None
    case FileTimeout(i) => In(s, i) && PhaseOf(s, i).HasMutex?
    case Decide(i) => In(s, i) && PhaseOf(s, i).Locked?
    case Answer(i, _) => In(s, i) && PhaseOf(s, i).Asking? && PhaseOf(s, i).held.refresh.Some?
    case Transient(i) => In(s, i) && PhaseOf(s, i).Asking?
    case Save(i) => In(s, i) && PhaseOf(s, i).Granted?
    case Drop(i) => In(s, i) && PhaseOf(s, i).Denied?
    case Revoke(token) => token in s.auth.issued
    case Hear(i) => In(s, i) && s.callers[i].heard == None && PhaseOf(s, i).Over?
    case StopWaiting(i) => In(s, i) && s.callers[i].heard == None && s.callers[i].task.Refresh?
  }

  function At(s: System, i: nat, p: Phase): System
    requires In(s, i)
  {
    s.(callers := s.callers[i := s.callers[i].(phase := p)])
  }

  function Told(s: System, i: nat, outcome: Outcome): System
    requires In(s, i)
  {
    s.(callers := s.callers[i := s.callers[i].(heard := Some(outcome))])
  }

  // Both locks let go, the file first.
  function Release(s: System, i: nat, outcome: Outcome): System
    requires In(s, i)
  {
    At(s, i, Over(outcome)).(file := None, mutexes := s.mutexes - {s.callers[i].process})
  }

  function DecideNext(s: System, i: nat): System
    requires In(s, i)
  {
    match s.callers[i].task
    case SignIn(rec) => Release(s, i, Usable(rec.access)).(stored := Some(rec))
    case SignOut => Release(s, i, SignInNeeded).(stored := None)
    case Refresh(_) =>
      var settled := Settle(s.stored, s.callers[i].task, s.now);
      if settled.Some? then Release(s, i, settled.value)
      else if s.stored.Some? then At(s, i, Asking(s.stored.value, s.now)).(sent := s.sent + 1)
      else s
  }

  function AnswerNext(s: System, i: nat, lifetime: Option<nat>): System
    requires Enabled(s, Answer(i, lifetime))
  {
    var held := PhaseOf(s, i).held;
    var token := held.refresh.value;
    if token !in s.auth.issued || token in s.auth.spent || token in s.auth.revoked then At(s, i, Denied(held))
    else
      var expiry := if lifetime.Some? && lifetime.value > 0 then Some(PhaseOf(s, i).since + lifetime.value) else None;
      At(s, i, Granted(held, Record(s.next, Some(s.next + 1), expiry)))
        .(auth := s.auth.(spent := s.auth.spent + {token}, issued := s.auth.issued + {s.next + 1}), next := s.next + 2)
  }

  function Next(s: System, step: Step): System
    requires Enabled(s, step)
  {
    match step
    case Tick(now) => s.(now := now)
    case Call(process, rejected) => s.(callers := s.callers + [Caller(process, Refresh(rejected), Waiting, None)])
    case Exchange(process, refreshable, expiry) =>
      var rec := Record(s.next, if refreshable then Some(s.next + 1) else None, expiry);
      s.(callers := s.callers + [Caller(process, SignIn(rec), Waiting, None)], next := s.next + 2,
         auth := if refreshable then s.auth.(issued := s.auth.issued + {s.next + 1}) else s.auth)
    case Leave(process) => s.(callers := s.callers + [Caller(process, SignOut, Waiting, None)])
    case TakeMutex(i) => At(s, i, HasMutex).(mutexes := s.mutexes[s.callers[i].process := i])
    case TakeFile(i) => At(s, i, Locked).(file := Some(i))
    case FileTimeout(i) =>
      var outcome := if s.callers[i].task.Refresh? then MakeDo(s.stored, RejectedBy(s.callers[i].task), s.now, true) else Trouble;
      At(s, i, Over(outcome)).(mutexes := s.mutexes - {s.callers[i].process})
    case Decide(i) => DecideNext(s, i)
    case Answer(i, lifetime) => AnswerNext(s, i, lifetime)
    case Transient(i) =>
      var p := PhaseOf(s, i);
      Release(s, i, if !Forced(p.held, s.callers[i].task) && p.held.expiry.Some? && p.held.expiry.value > p.since
                    then Usable(p.held.access) else Trouble)
    case Save(i) => Release(s, i, Usable(PhaseOf(s, i).granted.access)).(stored := Some(PhaseOf(s, i).granted))
    case Drop(i) =>
      var held := PhaseOf(s, i).held;
      if s.stored.Some? && s.stored.value.refresh != held.refresh
      then Release(s, i, Usable(s.stored.value.access))
      else Release(s, i, SignInNeeded).(stored := None)
    case Revoke(token) => s.(auth := s.auth.(revoked := s.auth.revoked + {token}))
    case Hear(i) => Told(s, i, PhaseOf(s, i).outcome)
    case StopWaiting(i) => Told(s, i, MakeDo(s.stored, RejectedBy(s.callers[i].task), s.now, false))
  }

  // ---- The invariant ----

  predicate Critical(p: Phase) { p.Locked? || p.Asking? || p.Granted? || p.Denied? }

  // Holding the file means holding the process's lock too, and nobody does
  // anything to the stored record without the file.
  predicate LocksOk(s: System) {
    && (s.file.Some? ==> In(s, s.file.value))
    && (forall i :: 0 <= i < |s.callers| ==> (Critical(s.callers[i].phase) <==> s.file == Some(i)))
    && (forall i :: 0 <= i < |s.callers| && (Critical(s.callers[i].phase) || s.callers[i].phase.HasMutex?) ==>
          s.callers[i].process in s.mutexes && s.mutexes[s.callers[i].process] == i)
  }

  // A refresh token the server still takes, unless it has been revoked.
  predicate Current(a: AuthServer, t: Token) { t in a.issued && t !in a.spent }

  predicate RecordOk(s: System, rec: Record) {
    rec.access < s.next && (rec.refresh.Some? ==> rec.refresh.value in s.auth.issued)
  }

  // A sign-in that has its tokens and has not stored them yet.
  predicate Pending(c: Caller) { c.task.SignIn? && !c.phase.Over? }

  predicate AuthOk(s: System) {
    && (forall t :: t in s.auth.issued ==> t < s.next)
    && s.auth.spent <= s.auth.issued
    && (forall i :: 0 <= i < |s.callers| && s.callers[i].task.Refresh? && s.callers[i].task.rejected.Some? ==>
          s.callers[i].task.rejected.value < s.next)
  }

  predicate SignInsOk(s: System) {
    && (forall i :: 0 <= i < |s.callers| && Pending(s.callers[i]) ==>
          var rec := s.callers[i].task.record;
          && RecordOk(s, rec)
          && (rec.refresh.Some? ==> Current(s.auth, rec.refresh.value) && (s.stored.Some? ==> s.stored.value.refresh != rec.refresh)))
    && (forall i, j :: 0 <= i < j < |s.callers| && Pending(s.callers[i]) && Pending(s.callers[j]) &&
                       s.callers[i].task.record.refresh.Some? ==>
          s.callers[i].task.record.refresh != s.callers[j].task.record.refresh)
    && (forall i :: 0 <= i < |s.callers| && !s.callers[i].task.Refresh? ==>
          !s.callers[i].phase.Asking? && !s.callers[i].phase.Granted? && !s.callers[i].phase.Denied?)
  }

  // What the holder of the lock is at, and what that says of the stored record.
  predicate HolderOk(s: System, c: Caller) {
    match c.phase
    case Asking(held, _) => s.stored == Some(held) && held.refresh.Some? && Current(s.auth, held.refresh.value)
    case Denied(held) => s.stored == Some(held) && held.refresh.Some? && held.refresh.value in s.auth.revoked
                         && Current(s.auth, held.refresh.value)
    case Granted(held, granted) =>
      && s.stored == Some(held) && RecordOk(s, granted) && granted.refresh.Some? && Current(s.auth, granted.refresh.value)
      && Some(granted.access) != RejectedBy(c.task)
      && forall i :: 0 <= i < |s.callers| && Pending(s.callers[i]) ==> s.callers[i].task.record.refresh != granted.refresh
    case Locked => StoredCurrent(s)
    case _ => true
  }

  predicate StoredCurrent(s: System) {
    s.stored.Some? && s.stored.value.refresh.Some? ==> Current(s.auth, s.stored.value.refresh.value)
  }

  predicate StoredOk(s: System) {
    && (s.stored.Some? ==> RecordOk(s, s.stored.value))
    && (forall i :: 0 <= i < |s.callers| ==> HolderOk(s, s.callers[i]))
    && (s.file == None ==> StoredCurrent(s))
  }

  // No caller gets back the token it reported as rejected.
  predicate OutcomesOk(s: System) {
    && (forall i :: 0 <= i < |s.callers| && s.callers[i].phase.Over? && s.callers[i].phase.outcome.Usable? ==>
          Some(s.callers[i].phase.outcome.access) != RejectedBy(s.callers[i].task))
    && (forall i :: 0 <= i < |s.callers| && s.callers[i].heard.Some? && s.callers[i].heard.value.Usable? ==>
          Some(s.callers[i].heard.value.access) != RejectedBy(s.callers[i].task))
  }

  predicate Inv(s: System) { LocksOk(s) && AuthOk(s) && SignInsOk(s) && StoredOk(s) && OutcomesOk(s) }

  lemma ArrivalKeepsLocks(s: System, step: Step)
    requires Inv(s) && Enabled(s, step) && (step.Tick? || step.Call? || step.Leave? || step.Revoke?)
    ensures var t := Next(s, step); LocksOk(t) && AuthOk(t) && OutcomesOk(t)
  {
    hide SignInsOk, StoredOk;
  }

  lemma ArrivalKeepsSignIns(s: System, step: Step)
    requires Inv(s) && Enabled(s, step) && (step.Tick? || step.Call? || step.Leave? || step.Revoke?)
    ensures var t := Next(s, step); SignInsOk(t)
  {
  }

  lemma ArrivalKeepsStored(s: System, step: Step)
    requires Inv(s) && Enabled(s, step) && (step.Tick? || step.Call? || step.Leave? || step.Revoke?)
    ensures var t := Next(s, step); StoredOk(t)
  {
  }

  lemma ExchangeKeepsLocks(s: System, step: Step)
    requires Inv(s) && Enabled(s, step) && step.Exchange?
    ensures var t := Next(s, step); LocksOk(t) && AuthOk(t) && OutcomesOk(t)
  {
    hide SignInsOk, StoredOk;
  }

  lemma ExchangeKeepsSignIns(s: System, step: Step)
    requires Inv(s) && Enabled(s, step) && step.Exchange?
    ensures var t := Next(s, step); SignInsOk(t)
  {
  }

  lemma ExchangeKeepsStored(s: System, step: Step)
    requires Inv(s) && Enabled(s, step) && step.Exchange?
    ensures var t := Next(s, step); StoredOk(t)
  {
  }

  lemma LockingKeepsLocks(s: System, step: Step)
    requires Inv(s) && Enabled(s, step) && (step.TakeMutex? || step.TakeFile? || step.FileTimeout?)
    ensures var t := Next(s, step); LocksOk(t) && AuthOk(t) && OutcomesOk(t)
  {
    hide SignInsOk, StoredOk;
  }

  lemma LockingKeepsSignIns(s: System, step: Step)
    requires Inv(s) && Enabled(s, step) && (step.TakeMutex? || step.TakeFile? || step.FileTimeout?)
    ensures var t := Next(s, step); SignInsOk(t)
  {
  }

  lemma LockingKeepsStored(s: System, step: Step)
    requires Inv(s) && Enabled(s, step) && (step.TakeMutex? || step.TakeFile? || step.FileTimeout?)
    ensures var t := Next(s, step); StoredOk(t)
  {
  }

  lemma DecisionKeepsLocks(s: System, step: Step)
    requires Inv(s) && Enabled(s, step) && step.Decide?
    ensures var t := Next(s, step); LocksOk(t) && AuthOk(t) && OutcomesOk(t)
  {
    DecisionKeepsOutcomes(s, step);
    hide SignInsOk, StoredOk, OutcomesOk, AuthOk, Settle;
  }

  lemma DecisionKeepsOutcomes(s: System, step: Step)
    requires Inv(s) && Enabled(s, step) && step.Decide?
    ensures var t := Next(s, step); AuthOk(t) && OutcomesOk(t)
  {
    hide SignInsOk, StoredOk, LocksOk;
  }

  lemma DecisionKeepsSignIns(s: System, step: Step)
    requires Inv(s) && Enabled(s, step) && step.Decide?
    ensures var t := Next(s, step); SignInsOk(t)
  {
  }

  lemma DecisionKeepsStored(s: System, step: Step)
    requires Inv(s) && Enabled(s, step) && step.Decide?
    ensures var t := Next(s, step); StoredOk(t)
  {
  }

  lemma AnswerKeepsLocks(s: System, step: Step)
    requires Inv(s) && Enabled(s, step) && step.Answer?
    ensures var t := Next(s, step); LocksOk(t) && AuthOk(t) && OutcomesOk(t)
  {
    hide SignInsOk, StoredOk;
  }

  lemma AnswerKeepsSignIns(s: System, step: Step)
    requires Inv(s) && Enabled(s, step) && step.Answer?
    ensures var t := Next(s, step); SignInsOk(t)
  {
  }

  lemma AnswerKeepsStored(s: System, step: Step)
    requires Inv(s) && Enabled(s, step) && step.Answer?
    ensures var t := Next(s, step); StoredOk(t)
  {
  }

  lemma EndingKeepsLocks(s: System, step: Step)
    requires Inv(s) && Enabled(s, step) && (step.Transient? || step.Save? || step.Drop?)
    ensures var t := Next(s, step); LocksOk(t) && AuthOk(t) && OutcomesOk(t)
  {
    hide SignInsOk;
  }

  lemma EndingKeepsSignIns(s: System, step: Step)
    requires Inv(s) && Enabled(s, step) && (step.Transient? || step.Save? || step.Drop?)
    ensures var t := Next(s, step); SignInsOk(t)
  {
  }

  lemma EndingKeepsStored(s: System, step: Step)
    requires Inv(s) && Enabled(s, step) && (step.Transient? || step.Save? || step.Drop?)
    ensures var t := Next(s, step); StoredOk(t)
  {
  }

  lemma TellingKeepsLocks(s: System, step: Step)
    requires Inv(s) && Enabled(s, step) && (step.Hear? || step.StopWaiting?)
    ensures var t := Next(s, step); LocksOk(t) && AuthOk(t) && OutcomesOk(t)
  {
    hide SignInsOk, StoredOk;
  }

  lemma TellingKeepsSignIns(s: System, step: Step)
    requires Inv(s) && Enabled(s, step) && (step.Hear? || step.StopWaiting?)
    ensures var t := Next(s, step); SignInsOk(t)
  {
    hide LocksOk, AuthOk, StoredOk, OutcomesOk;
  }

  lemma TellingKeepsStored(s: System, step: Step)
    requires Inv(s) && Enabled(s, step) && (step.Hear? || step.StopWaiting?)
    ensures var t := Next(s, step); StoredOk(t)
  {
    hide LocksOk, AuthOk, SignInsOk, OutcomesOk;
  }

  lemma StepKeeps(s: System, step: Step)
    requires Inv(s) && Enabled(s, step)
    ensures Inv(Next(s, step))
  {
    hide Next, Enabled, LocksOk, AuthOk, SignInsOk, StoredOk, OutcomesOk;
    if step.Tick? || step.Call? || step.Leave? || step.Revoke? {
      ArrivalKeepsLocks(s, step);
      ArrivalKeepsSignIns(s, step);
      ArrivalKeepsStored(s, step);
    } else if step.Exchange? {
      ExchangeKeepsLocks(s, step);
      ExchangeKeepsSignIns(s, step);
      ExchangeKeepsStored(s, step);
    } else if step.TakeMutex? || step.TakeFile? || step.FileTimeout? {
      LockingKeepsLocks(s, step);
      LockingKeepsSignIns(s, step);
      LockingKeepsStored(s, step);
    } else if step.Decide? {
      DecisionKeepsLocks(s, step);
      DecisionKeepsSignIns(s, step);
      DecisionKeepsStored(s, step);
    } else if step.Answer? {
      AnswerKeepsLocks(s, step);
      AnswerKeepsSignIns(s, step);
      AnswerKeepsStored(s, step);
    } else if step.Hear? || step.StopWaiting? {
      TellingKeepsLocks(s, step);
      TellingKeepsSignIns(s, step);
      TellingKeepsStored(s, step);
    } else {
      EndingKeepsLocks(s, step);
      EndingKeepsSignIns(s, step);
      EndingKeepsStored(s, step);
    }
  }

  // ---- Whole runs ----

  ghost predicate Reachable(s: System, steps: seq<Step>, t: System)
    decreases |steps|
  {
    if steps == [] then t == s
    else Enabled(s, steps[0]) && Reachable(Next(s, steps[0]), steps[1..], t)
  }

  lemma {:induction false} RunKeeps(s: System, steps: seq<Step>, t: System)
    requires Inv(s) && Reachable(s, steps, t)
    ensures Inv(t)
    decreases |steps|
  {
    hide Inv, Next, Enabled;
    if steps != [] {
      StepKeeps(s, steps[0]);
      RunKeeps(Next(s, steps[0]), steps[1..], t);
    }
  }

  // Before anyone has signed in.
  predicate Init(s: System) {
    s.stored == None && s.mutexes == map[] && s.file == None && s.callers == [] && s.auth == AuthServer({}, {}, {}) && s.sent == 0
  }

  // Whoever calls, in however many processes: while nobody holds the lock, the
  // stored refresh token is one the server has not taken yet; at most one caller
  // is between reading it and storing its successor; and what that caller
  // presents is never spent, so a refusal can only be a revocation.
  lemma NoSpentTokenIsPresented(s: System, steps: seq<Step>, t: System)
    requires Init(s) && Reachable(s, steps, t)
    ensures t.file == None ==> StoredCurrent(t)
    ensures forall i, j :: 0 <= i < j < |t.callers| ==> !(Critical(t.callers[i].phase) && Critical(t.callers[j].phase))
    ensures forall i :: 0 <= i < |t.callers| && t.callers[i].phase.Asking? ==>
              t.callers[i].phase.held.refresh.Some? && Current(t.auth, t.callers[i].phase.held.refresh.value)
    ensures forall i :: 0 <= i < |t.callers| && t.callers[i].phase.Denied? ==>
              t.callers[i].phase.held.refresh.Some? && t.callers[i].phase.held.refresh.value in t.auth.revoked
  {
    RunKeeps(s, steps, t);
    hide Next, Enabled;
  }

  // Nobody is handed back the token they reported as turned away: not by a task
  // that ended, not for want of the lock, and not on giving up on either.
  lemma RejectedTokenIsNotReturned(s: System, steps: seq<Step>, t: System, i: nat)
    requires Init(s) && Reachable(s, steps, t) && In(t, i)
    requires t.callers[i].heard.Some? && t.callers[i].heard.value.Usable?
    ensures Some(t.callers[i].heard.value.access) != RejectedBy(t.callers[i].task)
  {
    RunKeeps(s, steps, t);
    hide Next, Enabled;
  }

  // A caller that stops waiting cuts nothing off: whatever could happen to its
  // task still can, to the same end.
  predicate SameButHeard(s: System, t: System) {
    && t == s.(callers := t.callers) && |t.callers| == |s.callers|
    && forall i :: 0 <= i < |s.callers| ==> t.callers[i] == s.callers[i].(heard := t.callers[i].heard)
  }

  lemma DecidesAlike(s: System, t: System, i: nat)
    requires SameButHeard(s, t) && Enabled(s, Decide(i))
    ensures Enabled(t, Decide(i)) && SameButHeard(Next(s, Decide(i)), Next(t, Decide(i)))
  {
    hide Settle, MakeDo, Expired, Forced, AnswerNext;
  }

  lemma AnsweredAlike(s: System, t: System, i: nat, lifetime: Option<nat>)
    requires SameButHeard(s, t) && Enabled(s, Answer(i, lifetime))
    ensures Enabled(t, Answer(i, lifetime)) && SameButHeard(Next(s, Answer(i, lifetime)), Next(t, Answer(i, lifetime)))
  {
    hide DecideNext, MakeDo, Expired, Forced;
  }

  predicate Lets(step: Step) { step.Transient? || step.Save? || step.Drop? }

  lemma LetsGoAlike(s: System, t: System, step: Step)
    requires SameButHeard(s, t) && Enabled(s, step) && Lets(step)
    ensures Enabled(t, step) && SameButHeard(Next(s, step), Next(t, step))
  {
    hide DecideNext, AnswerNext, MakeDo, Expired, Forced;
  }

  lemma HeardDoesNotMatter(s: System, t: System, step: Step)
    requires SameButHeard(s, t) && Enabled(s, step) && !step.Hear? && !step.StopWaiting?
    ensures Enabled(t, step) && SameButHeard(Next(s, step), Next(t, step))
  {
    if step.Decide? {
      DecidesAlike(s, t, step.i);
      hide Next, Enabled, SameButHeard;
    } else if step.Answer? {
      AnsweredAlike(s, t, step.i, step.lifetime);
      hide Next, Enabled, SameButHeard;
    } else if Lets(step) {
      LetsGoAlike(s, t, step);
      hide Next, Enabled, SameButHeard;
    } else {
      hide DecideNext, AnswerNext, MakeDo, Expired;
    }
  }

  lemma StoppingCutsNothingOff(s: System, i: nat, steps: seq<Step>, end: System) returns (end': System)
    requires Enabled(s, StopWaiting(i)) && Reachable(s, steps, end)
    requires forall k :: 0 <= k < |steps| ==> !steps[k].Hear? && !steps[k].StopWaiting?
    ensures Reachable(Next(s, StopWaiting(i)), steps, end') && SameButHeard(end, end')
  {
    assert SameButHeard(s, Next(s, StopWaiting(i)));
    hide Next, Enabled, SameButHeard;
    end' := RunsAlike(s, Next(s, StopWaiting(i)), steps, end);
  }

  lemma {:induction false} RunsAlike(s: System, t: System, steps: seq<Step>, end: System) returns (end': System)
    requires SameButHeard(s, t) && Reachable(s, steps, end)
    requires forall k :: 0 <= k < |steps| ==> !steps[k].Hear? && !steps[k].StopWaiting?
    ensures Reachable(t, steps, end') && SameButHeard(end, end')
    decreases |steps|
  {
    hide Next, Enabled, SameButHeard;
    if steps == [] {
      end' := t;
    } else {
      HeardDoesNotMatter(s, t, steps[0]);
      end' := RunsAlike(Next(s, steps[0]), Next(t, steps[0]), steps[1..], end);
    }
  }

  // ---- One refresh for everyone the same token was turned away from ----

  predicate Calls(task: Task, a: Token) { task.Refresh? && task.rejected in {None, Some(a)} }

  // The token outlives the window: it is good until the end of the run and for
  // longer than the refresh window after it.
  predicate Outlives(expiry: Option<int>, until: int) { expiry.Some? ==> expiry.value > until + REFRESH_WINDOW }

  predicate Calm(s: System, step: Step, a: Token, until: int) {
    match step
    case Tick(now) => now <= until
    case Call(_, rejected) => rejected in {None, Some(a)}
    case Exchange(_, _, _) => false
    case Leave(_) => false
    case Answer(i, lifetime) =>
      In(s, i) && PhaseOf(s, i).Asking? && lifetime.Some? && lifetime.value > 0 ==>
        PhaseOf(s, i).since + lifetime.value > until + REFRESH_WINDOW
    case _ => true
  }

  predicate CallersCalm(s: System, a: Token, until: int) {
    s.now <= until && a < s.next && forall i :: 0 <= i < |s.callers| ==> Calls(s.callers[i].task, a)
  }

  predicate Good(rec: Record, a: Token, until: int) { rec.access != a && Outlives(rec.expiry, until) }

  // After the one request: nobody is asking again, and what is stored, or about
  // to be, gives nobody a reason to.
  predicate Refreshed(s: System, a: Token, until: int) {
    && (forall i :: 0 <= i < |s.callers| ==> !s.callers[i].phase.Asking?)
    && (forall i :: 0 <= i < |s.callers| && s.callers[i].phase.Granted? ==> Good(s.callers[i].phase.granted, a, until))
    && ((forall i :: 0 <= i < |s.callers| ==> !s.callers[i].phase.Granted? && !s.callers[i].phase.Denied?) ==>
          s.stored == None || Good(s.stored.value, a, until))
  }

  lemma SettledByGood(rec: Record, a: Token, until: int, task: Task, now: int)
    requires Good(rec, a, until) && Calls(task, a) && now <= until
    ensures Settle(Some(rec), task, now) == Some(Usable(rec.access))
  {
  }

  lemma CalmStep(s: System, step: Step, a: Token, until: int)
    requires Inv(s) && Enabled(s, step) && CallersCalm(s, a, until) && Calm(s, step, a, until)
    ensures CallersCalm(Next(s, step), a, until)
  {
  }

  lemma FirstAnswerRefreshes(s: System, i: nat, lifetime: Option<nat>, a: Token, until: int)
    requires Inv(s) && Enabled(s, Answer(i, lifetime)) && CallersCalm(s, a, until) && Calm(s, Answer(i, lifetime), a, until)
    ensures Refreshed(Next(s, Answer(i, lifetime)), a, until)
  {
    var t := Next(s, Answer(i, lifetime));
    assert t.callers[i].phase.Granted? || t.callers[i].phase.Denied?;
    assert forall j :: 0 <= j < |s.callers| && j != i ==> t.callers[j] == s.callers[j] && !Critical(s.callers[j].phase);
  }

  lemma DecidingStaysRefreshed(s: System, i: nat, a: Token, until: int)
    requires Inv(s) && Enabled(s, Decide(i)) && CallersCalm(s, a, until)
    requires Refreshed(s, a, until)
    ensures Refreshed(Next(s, Decide(i)), a, until) && Next(s, Decide(i)).sent == s.sent
  {
    hide AuthOk, SignInsOk, OutcomesOk, StoredOk, Settle;
    assert forall j :: 0 <= j < |s.callers| && j != i ==> !Critical(s.callers[j].phase);
    if s.stored.Some? {
      SettledByGood(s.stored.value, a, until, s.callers[i].task, s.now);
    } else {
      SettledByNone(s.callers[i].task, s.now);
    }
  }

  lemma SettledByNone(task: Task, now: int)
    ensures Settle(None, task, now) == Some(SignInNeeded)
  {
  }

  lemma EndingStaysRefreshed(s: System, step: Step, a: Token, until: int)
    requires Inv(s) && Enabled(s, step) && Lets(step) && Refreshed(s, a, until)
    ensures Refreshed(Next(s, step), a, until) && Next(s, step).sent == s.sent
  {
    hide AuthOk, SignInsOk, OutcomesOk, Good, Forced, DecideNext, AnswerNext, MakeDo;
  }

  lemma StaysRefreshed(s: System, step: Step, a: Token, until: int)
    requires Inv(s) && Enabled(s, step) && CallersCalm(s, a, until) && Calm(s, step, a, until)
    requires Refreshed(s, a, until)
    ensures Refreshed(Next(s, step), a, until) && Next(s, step).sent == s.sent
  {
    if step.Decide? {
      DecidingStaysRefreshed(s, step.i, a, until);
      hide Next, Inv;
    } else if Lets(step) {
      EndingStaysRefreshed(s, step, a, until);
      hide Next, Inv;
    } else {
      hide AuthOk, SignInsOk, OutcomesOk, StoredOk, Good, DecideNext, MakeDo;
      var t := Next(s, step);
      assert forall j :: 0 <= j < |s.callers| && (s.callers[j].phase.Granted? || s.callers[j].phase.Denied?) ==>
               t.callers[j].phase == s.callers[j].phase;
    }
  }

  ghost predicate CalmRun(s: System, steps: seq<Step>, a: Token, until: int)
    decreases |steps|
  {
    steps != [] ==> Enabled(s, steps[0]) && Calm(s, steps[0], a, until) && CalmRun(Next(s, steps[0]), steps[1..], a, until)
  }

  // The requests of a run that failed on the way.
  function Failed(steps: seq<Step>): nat {
    if steps == [] then 0 else (if steps[0].Transient? then 1 else 0) + Failed(steps[1..])
  }

  predicate SomeoneAsks(s: System) { exists i :: 0 <= i < |s.callers| && s.callers[i].phase.Asking? }

  // How many requests may still go out, when none of them fails on the way.
  function Due(s: System, a: Token, until: int): nat { if Refreshed(s, a, until) || SomeoneAsks(s) then 0 else 1 }

  // While one asks, nobody else decides to, and it asks until it is answered or
  // its request fails.
  lemma AskingGoesOn(s: System, step: Step)
    requires Inv(s) && Enabled(s, step) && SomeoneAsks(s) && !step.Answer? && !step.Transient?
    ensures SomeoneAsks(Next(s, step)) && Next(s, step).sent == s.sent
  {
    hide AuthOk, SignInsOk, OutcomesOk, StoredOk, Settle, HolderOk;
    var i :| 0 <= i < |s.callers| && s.callers[i].phase.Asking?;
    assert s.file == Some(i);
    var t := Next(s, step);
    assert t.callers[i].phase == s.callers[i].phase;
  }

  // Before anyone asks, a step sends one request at most, and then one asks.
  lemma OneAsks(s: System, step: Step)
    requires Enabled(s, step)
    ensures Next(s, step).sent == s.sent || (step.Decide? && Next(s, step).sent == s.sent + 1 && SomeoneAsks(Next(s, step)))
  {
    if step.Decide? {
      assert Next(s, step).sent != s.sent ==> Next(s, step).callers[step.i].phase.Asking?;
    }
  }

  lemma StepPaysDue(s: System, step: Step, a: Token, until: int)
    requires Inv(s) && Enabled(s, step) && CallersCalm(s, a, until) && Calm(s, step, a, until)
    ensures var n := Next(s, step);
            n.sent + Due(n, a, until) <= s.sent + Due(s, a, until) + (if step.Transient? then 1 else 0)
    ensures Refreshed(s, a, until) ==> Refreshed(Next(s, step), a, until) && Next(s, step).sent == s.sent
  {
    OneAsks(s, step);
    if Refreshed(s, a, until) {
      StaysRefreshed(s, step, a, until);
    } else if step.Answer? {
      FirstAnswerRefreshes(s, step.i, step.lifetime, a, until);
    } else if SomeoneAsks(s) && !step.Transient? {
      AskingGoesOn(s, step);
    }
    hide Inv, Next, Enabled, Refreshed, Calm, CallersCalm, SomeoneAsks;
  }

  // However many callers the same access token is turned away from, and however
  // many want a token meanwhile, one request for a refresh is sent, and one more
  // for each that failed on the way, when what comes back outlives the window.
  lemma {:induction false} OneRefreshForAll(s: System, steps: seq<Step>, t: System, a: Token, until: int)
    requires Inv(s) && CallersCalm(s, a, until) && Reachable(s, steps, t) && CalmRun(s, steps, a, until)
    ensures t.sent <= s.sent + 1 + Failed(steps)
    ensures t.sent + Due(t, a, until) <= s.sent + Due(s, a, until) + Failed(steps)
    ensures Refreshed(s, a, until) ==> t.sent == s.sent
    decreases |steps|
  {
    if steps != [] {
      StepKeeps(s, steps[0]);
      CalmStep(s, steps[0], a, until);
      StepPaysDue(s, steps[0], a, until);
      hide Inv, Next, Enabled, Calm, CallersCalm, Refreshed, Due;
      OneRefreshForAll(Next(s, steps[0]), steps[1..], t, a, until);
    }
  }
}
