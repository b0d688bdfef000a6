// The pairing rate limiter (internal/auth/auth.go): a table of buckets, one a
// peer, that never outgrows its cap. Times are nanoseconds.
module Limiter {

  const ATTEMPT_BUDGET: nat := 10
  const ATTEMPT_WINDOW: int := 60_000_000_000
  const MAX_BUCKETS: nat := 4096

  datatype Bucket = Bucket(count: nat, reset: int)

  type Table = map<string, Bucket>

  // ---- What one call may do to the table ----

  function Swept(t: Table, now: int): Table { map k | k in t && now <= t[k].reset :: t[k] }

  // A choice of the half that expires first. Ties may fall either way: the sort
  // is not stable.
  ghost predicate ExpiresFirst(t: Table, gone: set<string>) {
    && gone <= t.Keys && |gone| == |t| / 2
    && forall d, k :: d in gone && k in t.Keys - gone ==> t[d].reset <= t[k].reset
  }

  ghost predicate Evicted(t: Table, now: int, t': Table) {
    var live := Swept(t, now);
    if |live| < MAX_BUCKETS then t' == live
    else exists gone :: ExpiresFirst(live, gone) && t' == live - gone
  }

  predicate IsLive(t: Table, key: string, now: int) { key in t && now < t[key].reset }

  ghost predicate Opened(t: Table, key: string, now: int, t': Table) {
    if |t| < MAX_BUCKETS then t' == t[key := Bucket(1, now + ATTEMPT_WINDOW)]
    else exists u :: Evicted(t, now, u) && t' == u[key := Bucket(1, now + ATTEMPT_WINDOW)]
  }

  ghost predicate Allowed(t: Table, key: string, now: int, ok: bool, t': Table) {
    if IsLive(t, key, now) then
      if t[key].count >= ATTEMPT_BUDGET then !ok && t' == t
      else ok && t' == t[key := t[key].(count := t[key].count + 1)]
    else ok && Opened(t, key, now, t')
  }

  // ---- Eviction ----

  lemma EvictedSize(t: Table, now: int, t': Table)
    requires Evicted(t, now, t') && |t| <= MAX_BUCKETS
    ensures |t'| < MAX_BUCKETS
  {
    var live := Swept(t, now);
    assert live.Keys <= t.Keys;
    SubsetSize(live.Keys, t.Keys);
    if |live| >= MAX_BUCKETS {
      var gone :| ExpiresFirst(live, gone) && t' == live - gone;
      assert t'.Keys == live.Keys - gone;
      assert |live.Keys - gone| == |live.Keys| - |gone|;
    }
  }

  lemma {:induction false} SubsetSize<T>(a: set<T>, b: set<T>)
    requires a <= b
    ensures |a| <= |b|
  {
    if a != {} {
      var x :| x in a;
      SubsetSize(a - {x}, b - {x});
    }
  }

  // What goes expires no later than anything that stays: a live bucket is never
  // dropped while one that expires strictly earlier is kept.
  lemma EvictionOrder(t: Table, now: int, t': Table, dropped: string, kept: string)
    requires Evicted(t, now, t')
    requires dropped in t && dropped !in t' && kept in t'
    ensures kept in t && t'[kept] == t[kept] && t[dropped].reset <= t[kept].reset
  {
    var live := Swept(t, now);
    if |live| >= MAX_BUCKETS {
      var gone :| ExpiresFirst(live, gone) && t' == live - gone;
      assert kept in live.Keys - gone;
      if dropped in live {
        assert dropped in gone;
      }
    }
  }

  // ---- Runs ----

  datatype Call = Allow(key: string, now: int, ok: bool) | Reset(key: string)

  ghost predicate Step(t: Table, c: Call, t': Table) {
    match c
    case Allow(key, now, ok) => Allowed(t, key, now, ok, t')
    case Reset(key) => t' == t - {key}
  }

  // A run from whatever table comes first.
  ghost predicate Goes(calls: seq<Call>, tables: seq<Table>) {
    |tables| == |calls| + 1 && forall i :: 0 <= i < |calls| ==> Step(tables[i], calls[i], tables[i + 1])
  }

  ghost predicate IsRun(calls: seq<Call>, tables: seq<Table>) { Goes(calls, tables) && tables[0] == map[] }

  lemma SetSize(t: Table, key: string, b: Bucket)
    ensures |t[key := b]| == if key in t then |t| else |t| + 1
  {
    assert t[key := b].Keys == t.Keys + {key};
  }

  lemma StepSize(t: Table, c: Call, t': Table)
    requires Step(t, c, t') && |t| <= MAX_BUCKETS
    ensures |t'| <= MAX_BUCKETS
  {
    hide Evicted;
    match c
    case Allow(key, now, ok) =>
      if IsLive(t, key, now) {
        SetSize(t, key, t[key].(count := t[key].count + 1));
      } else if |t| < MAX_BUCKETS {
        SetSize(t, key, Bucket(1, now + ATTEMPT_WINDOW));
      } else {
        var u :| Evicted(t, now, u) && t' == u[key := Bucket(1, now + ATTEMPT_WINDOW)];
        EvictedSize(t, now, u);
        SetSize(u, key, Bucket(1, now + ATTEMPT_WINDOW));
      }
    case Reset(key) =>
      assert t'.Keys == t.Keys - {key};
      SubsetSize(t'.Keys, t.Keys);
  }

  // The table never outgrows its cap.
  lemma {:induction false} TableStaysSmall(calls: seq<Call>, tables: seq<Table>, i: nat)
    requires IsRun(calls, tables) && i <= |calls|
    ensures |tables[i]| <= MAX_BUCKETS
  {
    if i > 0 {
      TableStaysSmall(calls, tables, i - 1);
      StepSize(tables[i - 1], calls[i - 1], tables[i]);
    }
  }

  // ---- One peer's attempts ----

  ghost predicate TimeGoesOn(calls: seq<Call>) {
    forall i, j :: 0 <= i < j < |calls| && calls[i].Allow? && calls[j].Allow? ==> calls[i].now <= calls[j].now
  }

  // The peer is not reset, and its bucket not evicted while live.
  ghost predicate Undisturbed(calls: seq<Call>, tables: seq<Table>, peer: string)
    requires |tables| == |calls| + 1
  {
    && (forall i :: 0 <= i < |calls| ==> calls[i] != Reset(peer))
    && (forall i :: 0 <= i < |calls| && calls[i].Allow? && IsLive(tables[i], peer, calls[i].now) ==> peer in tables[i + 1])
  }

  predicate Counts(c: Call, peer: string, from: int) {
    c.Allow? && c.key == peer && c.ok && from <= c.now < from + ATTEMPT_WINDOW
  }

  // The attempts peer was allowed in the window that starts at from.
  function Attempts(calls: seq<Call>, peer: string, from: int): (n: nat) {
    if calls == [] then 0
    else
      var last := calls[|calls| - 1];
      Attempts(calls[..|calls| - 1], peer, from) + if Counts(last, peer, from) then 1 else 0
  }

  // The bucket of a peer that opened before the window, then the one that
  // opened in it.
  predicate Spent(t: Table, peer: string, from: int, n: nat) {
    if peer in t && from + ATTEMPT_WINDOW <= t[peer].reset then
      1 <= t[peer].count <= ATTEMPT_BUDGET && n <= ATTEMPT_BUDGET - 1 + t[peer].count
    else
      && n <= ATTEMPT_BUDGET - 1
      && (peer in t ==> 1 <= t[peer].count <= ATTEMPT_BUDGET && n <= t[peer].count - 1)
  }

  // No call of the first i comes after time at.
  ghost predicate NoLaterThan(calls: seq<Call>, i: nat, at: int)
    requires i <= |calls|
  {
    forall j :: 0 <= j < i && calls[j].Allow? ==> calls[j].now <= at
  }

  // A peer's bucket changes only by its own attempts, and by an eviction once
  // it is no longer live.
  lemma OthersLeaveBucket(t: Table, c: Call, t': Table, peer: string)
    requires Step(t, c, t') && c.key != peer
    ensures peer in t' ==> peer in t && t'[peer] == t[peer]
  {
  }

  // A window in which no attempt is allowed yet, and the bucket that was open
  // before it.
  lemma {:induction false} NoneBefore(calls: seq<Call>, peer: string, from: int)
    requires forall j :: 0 <= j < |calls| && calls[j].Allow? ==> calls[j].now < from
    ensures Attempts(calls, peer, from) == 0
  {
    if calls != [] {
      var n := |calls| - 1;
      assert forall j :: 0 <= j < n ==> calls[..n][j] == calls[j];
      NoneBefore(calls[..n], peer, from);
    }
  }

  lemma SpentStep(t: Table, c: Call, t': Table, peer: string, from: int, n: nat)
    requires Step(t, c, t') && Spent(t, peer, from, n) && c.Allow? && c.now < from + ATTEMPT_WINDOW
    requires c.now < from ==> n == 0
    requires peer in t ==> t[peer].reset <= c.now + ATTEMPT_WINDOW
    requires IsLive(t, peer, c.now) ==> peer in t'
    ensures Spent(t', peer, from, n + if Counts(c, peer, from) then 1 else 0)
    ensures peer in t' ==> t'[peer].reset <= c.now + ATTEMPT_WINDOW
  {
    if c.key != peer {
      OthersLeaveBucket(t, c, t', peer);
    }
  }

  lemma {:induction false} SpentAfter(calls: seq<Call>, tables: seq<Table>, peer: string, from: int, i: nat, at: int)
    requires IsRun(calls, tables) && TimeGoesOn(calls) && Undisturbed(calls, tables, peer)
    requires i <= |calls| && NoLaterThan(calls, i, at) && at < from + ATTEMPT_WINDOW
    ensures Spent(tables[i], peer, from, Attempts(calls[..i], peer, from))
    ensures peer in tables[i] ==> tables[i][peer].reset <= at + ATTEMPT_WINDOW
    decreases i
  {
    if i > 0 {
      var c := calls[i - 1];
      assert calls[..i][..i - 1] == calls[..i - 1];
      hide Allowed;
      if c.Allow? {
        SpentAfter(calls, tables, peer, from, i - 1, c.now);
        if c.now < from {
          NoneBefore(calls[..i - 1], peer, from);
        }
        SpentStep(tables[i - 1], c, tables[i], peer, from, Attempts(calls[..i - 1], peer, from));
      } else {
        SpentAfter(calls, tables, peer, from, i - 1, at);
      }
    }
  }

  // In no stretch of a window is a peer let through 2 * ATTEMPT_BUDGET times.
  lemma {:induction false} PeerBound(calls: seq<Call>, tables: seq<Table>, peer: string, from: int, i: nat)
    requires IsRun(calls, tables) && TimeGoesOn(calls) && Undisturbed(calls, tables, peer) && i <= |calls|
    ensures Attempts(calls[..i], peer, from) <= 2 * ATTEMPT_BUDGET - 1
    decreases i
  {
    if i > 0 {
      hide Step;
      assert calls[..i][..i - 1] == calls[..i - 1];
      if Counts(calls[i - 1], peer, from) {
        SpentAfter(calls, tables, peer, from, i, calls[i - 1].now);
      } else {
        PeerBound(calls, tables, peer, from, i - 1);
      }
    }
  }

  // ---- The bound is tight ----

  function WitnessTime(i: nat): int { if i == 0 then 0 else if i < ATTEMPT_BUDGET then ATTEMPT_WINDOW - 1 else ATTEMPT_WINDOW }

  function WitnessCalls(peer: string, n: nat): (r: seq<Call>)
    ensures |r| == n && forall i :: 0 <= i < n ==> r[i] == Allow(peer, WitnessTime(i), true)
  {
    if n == 0 then [] else WitnessCalls(peer, n - 1) + [Allow(peer, WitnessTime(n - 1), true)]
  }

  function WitnessTable(peer: string, i: nat): Table {
    if i == 0 then map[]
    else if i <= ATTEMPT_BUDGET then map[peer := Bucket(i, ATTEMPT_WINDOW)]
    else map[peer := Bucket(i - ATTEMPT_BUDGET, 2 * ATTEMPT_WINDOW)]
  }

  function WitnessTables(peer: string, n: nat): (r: seq<Table>)
    ensures |r| == n + 1 && forall i :: 0 <= i <= n ==> r[i] == WitnessTable(peer, i)
  {
    if n == 0 then [WitnessTable(peer, 0)] else WitnessTables(peer, n - 1) + [WitnessTable(peer, n)]
  }

  lemma WitnessStep(peer: string, i: nat)
    requires i < 2 * ATTEMPT_BUDGET
    ensures Step(WitnessTable(peer, i), Allow(peer, WitnessTime(i), true), WitnessTable(peer, i + 1))
  {
    if 0 < i {
      assert WitnessTable(peer, i).Keys == {peer};
      assert |WitnessTable(peer, i)| == |{peer}|;
    }
  }

  lemma {:induction false} WitnessAttempts(peer: string, n: nat)
    requires n <= 2 * ATTEMPT_BUDGET
    ensures Attempts(WitnessCalls(peer, n), peer, ATTEMPT_WINDOW - 1) == if n == 0 then 0 else n - 1
  {
    if n > 0 {
      WitnessAttempts(peer, n - 1);
      assert WitnessCalls(peer, n)[..n - 1] == WitnessCalls(peer, n - 1);
    }
  }

  // One attempt, nine just before its bucket expires, and ten just after: a run
  // that reaches the bound.
  lemma PeerBoundIsTight(peer: string)
    ensures var calls := WitnessCalls(peer, 2 * ATTEMPT_BUDGET);
            var tables := WitnessTables(peer, 2 * ATTEMPT_BUDGET);
            && IsRun(calls, tables) && TimeGoesOn(calls) && Undisturbed(calls, tables, peer)
            && Attempts(calls, peer, ATTEMPT_WINDOW - 1) == 2 * ATTEMPT_BUDGET - 1
  {
    var n := 2 * ATTEMPT_BUDGET;
    WitnessAttempts(peer, n);
    forall i: nat | i < n ensures Step(WitnessTables(peer, n)[i], WitnessCalls(peer, n)[i], WitnessTables(peer, n)[i + 1]) {
      WitnessStep(peer, i);
    }
  }

  // ---- When the budget is kept ----

  predicate HasBudgetLeft(t: Table, peer: string, from: int) { IsLive(t, peer, from) && t[peer].count < ATTEMPT_BUDGET }

  // A run from t at or after from, in which the peer is left alone.
  ghost predicate GoesOn(t: Table, calls: seq<Call>, tables: seq<Table>, peer: string, from: int) {
    && Goes(calls, tables) && tables[0] == t && TimeGoesOn(calls) && Undisturbed(calls, tables, peer)
    && forall i :: 0 <= i < |calls| && calls[i].Allow? ==> from <= calls[i].now
  }

  // However things go on from t, the window that starts at from lets the peer
  // through at most ATTEMPT_BUDGET times.
  ghost predicate KeepsBudget(t: Table, peer: string, from: int) {
    forall calls, tables :: GoesOn(t, calls, tables, peer, from) ==> Attempts(calls, peer, from) <= ATTEMPT_BUDGET
  }

  // Either the bucket that opened in the window counts all that was let through
  // in it, or nothing was and nothing can be by the bucket from before.
  predicate Kept(t: Table, peer: string, from: int, n: nat) {
    if peer in t && from + ATTEMPT_WINDOW <= t[peer].reset then n <= t[peer].count && n <= ATTEMPT_BUDGET
    else n == 0 && !HasBudgetLeft(t, peer, from)
  }

  lemma KeptStep(t: Table, c: Call, t': Table, peer: string, from: int, n: nat)
    requires Step(t, c, t') && Kept(t, peer, from, n) && c.Allow? && from <= c.now < from + ATTEMPT_WINDOW
    requires IsLive(t, peer, c.now) ==> peer in t'
    ensures Kept(t', peer, from, n + if Counts(c, peer, from) then 1 else 0)
  {
    if c.key != peer {
      OthersLeaveBucket(t, c, t', peer);
    }
  }

  lemma {:induction false} KeptAfter(t: Table, calls: seq<Call>, tables: seq<Table>, peer: string, from: int, i: nat)
    requires GoesOn(t, calls, tables, peer, from) && !HasBudgetLeft(t, peer, from) && i <= |calls|
    requires forall j :: 0 <= j < i && calls[j].Allow? ==> calls[j].now < from + ATTEMPT_WINDOW
    ensures Kept(tables[i], peer, from, Attempts(calls[..i], peer, from))
  {
    if i > 0 {
      KeptAfter(t, calls, tables, peer, from, i - 1);
      var c := calls[i - 1];
      assert calls[..i][..i - 1] == calls[..i - 1];
      if c.Allow? {
        hide Allowed;
        KeptStep(tables[i - 1], c, tables[i], peer, from, Attempts(calls[..i - 1], peer, from));
      } else {
        OthersLeaveBucket(tables[i - 1], c, tables[i], peer);
      }
    }
  }

  lemma {:induction false} WithinBudget(t: Table, calls: seq<Call>, tables: seq<Table>, peer: string, from: int, i: nat)
    requires GoesOn(t, calls, tables, peer, from) && !HasBudgetLeft(t, peer, from) && i <= |calls|
    ensures Attempts(calls[..i], peer, from) <= ATTEMPT_BUDGET
    decreases i
  {
    if i > 0 {
      hide Step;
      assert calls[..i][..i - 1] == calls[..i - 1];
      if Counts(calls[i - 1], peer, from) {
        KeptAfter(t, calls, tables, peer, from, i);
      } else {
        WithinBudget(t, calls, tables, peer, from, i - 1);
      }
    }
  }

  // Buckets opened before a moment expire within a window of it.
  ghost predicate OpenedBefore(t: Table, from: int) {
    forall k :: k in t ==> t[k].reset < from + ATTEMPT_WINDOW
  }

  lemma {:induction false} RunOpensBefore(calls: seq<Call>, tables: seq<Table>, from: int, i: nat)
    requires IsRun(calls, tables) && i <= |calls|
    requires forall j :: 0 <= j < |calls| && calls[j].Allow? ==> calls[j].now < from
    ensures OpenedBefore(tables[i], from)
  {
    if i > 0 {
      RunOpensBefore(calls, tables, from, i - 1);
      assert Step(tables[i - 1], calls[i - 1], tables[i]);
    }
  }

  lemma {:induction false} SomeExpireFirst(t: Table, n: nat) returns (gone: set<string>)
    requires n <= |t|
    ensures gone <= t.Keys && |gone| == n && forall d, k :: d in gone && k in t.Keys - gone ==> t[d].reset <= t[k].reset
  {
    gone := {};
    if n > 0 {
      var some := SomeExpireFirst(t, n - 1);
      assert t.Keys - some != {} by { SubsetSize(t.Keys, some + (t.Keys - some)); }
      var least := ExpiresLeast(t, t.Keys - some);
      gone := some + {least};
    }
  }

  lemma {:induction false} ExpiresLeast(t: Table, among: set<string>) returns (least: string)
    requires among != {} && among <= t.Keys
    ensures least in among && forall k :: k in among ==> t[least].reset <= t[k].reset
    decreases |among|
  {
    least :| least in among;
    if among != {least} {
      var other := ExpiresLeast(t, among - {least});
      if t[other].reset < t[least].reset {
        least := other;
      }
    }
  }

  // A bucket can always be opened.
  lemma CanOpen(t: Table, key: string, now: int) returns (t': Table)
    ensures Opened(t, key, now, t') && key in t' && t'[key] == Bucket(1, now + ATTEMPT_WINDOW)
  {
    if |t| < MAX_BUCKETS {
      t' := t[key := Bucket(1, now + ATTEMPT_WINDOW)];
    } else {
      var live := Swept(t, now);
      var u := live;
      if |live| >= MAX_BUCKETS {
        var gone := SomeExpireFirst(live, |live| / 2);
        assert ExpiresFirst(live, gone);
        u := live - gone;
      }
      assert Evicted(t, now, u);
      t' := u[key := Bucket(1, now + ATTEMPT_WINDOW)];
    }
  }

  // One attempt at from, and ATTEMPT_BUDGET as soon as the bucket expires.
  function OverCalls(peer: string, from: int, reset: int, n: nat): (r: seq<Call>)
    ensures |r| == n && forall i :: 0 <= i < n ==> r[i] == Allow(peer, if i == 0 then from else reset, true)
  {
    seq(n, i => Allow(peer, if i == 0 then from else reset, true))
  }

  function OverTable(t: Table, u: Table, peer: string, reset: int, i: nat): Table
    requires peer in t
  {
    if i == 0 then t
    else if i == 1 then t[peer := t[peer].(count := t[peer].count + 1)]
    else u[peer := Bucket(i - 1, reset + ATTEMPT_WINDOW)]
  }

  function OverTables(t: Table, u: Table, peer: string, reset: int, n: nat): (r: seq<Table>)
    requires peer in t
    ensures |r| == n + 1 && forall i :: 0 <= i <= n ==> r[i] == OverTable(t, u, peer, reset, i)
  {
    seq(n + 1, i requires 0 <= i => OverTable(t, u, peer, reset, i))
  }

  lemma {:induction false} OverAttempts(peer: string, from: int, reset: int, n: nat)
    requires from <= reset < from + ATTEMPT_WINDOW
    ensures Attempts(OverCalls(peer, from, reset, n), peer, from) == n
  {
    if n > 0 {
      OverAttempts(peer, from, reset, n - 1);
      assert OverCalls(peer, from, reset, n)[..n - 1] == OverCalls(peer, from, reset, n - 1);
    }
  }

  lemma OverGoes(t: Table, u: Table, peer: string, from: int, i: nat)
    requires HasBudgetLeft(t, peer, from) && t[peer].reset < from + ATTEMPT_WINDOW && i <= ATTEMPT_BUDGET
    requires Opened(OverTable(t, u, peer, t[peer].reset, 1), peer, t[peer].reset, u)
    requires peer in u && u[peer] == Bucket(1, t[peer].reset + ATTEMPT_WINDOW)
    ensures var reset := t[peer].reset;
            Step(OverTable(t, u, peer, reset, i), Allow(peer, if i == 0 then from else reset, true),
                 OverTable(t, u, peer, reset, i + 1))
  {
    if i == 1 {
      assert OverTable(t, u, peer, t[peer].reset, 2) == u;
    }
  }

  lemma OverBudget(t: Table, peer: string, from: int)
    requires HasBudgetLeft(t, peer, from) && t[peer].reset < from + ATTEMPT_WINDOW
    ensures !KeepsBudget(t, peer, from)
  {
    var reset, n := t[peer].reset, ATTEMPT_BUDGET + 1;
    var u := CanOpen(OverTable(t, t, peer, reset, 1), peer, reset);
    var calls, tables := OverCalls(peer, from, reset, n), OverTables(t, u, peer, reset, n);
    forall i: nat | i < n ensures Step(tables[i], calls[i], tables[i + 1]) {
      OverGoes(t, u, peer, from, i);
    }
    OverAttempts(peer, from, reset, n);
    hide Step, Attempts;
    assert GoesOn(t, calls, tables, peer, from);
  }

  // Whatever happened before from, the window from there on keeps to the budget
  // exactly when no bucket of the peer's is open then with some of it left.
  lemma BudgetKeptIff(calls: seq<Call>, tables: seq<Table>, peer: string, from: int)
    requires IsRun(calls, tables)
    requires forall j :: 0 <= j < |calls| && calls[j].Allow? ==> calls[j].now < from
    ensures KeepsBudget(tables[|calls|], peer, from) <==> !HasBudgetLeft(tables[|calls|], peer, from)
  {
    var t := tables[|calls|];
    RunOpensBefore(calls, tables, from, |calls|);
    hide Goes, Attempts;
    if HasBudgetLeft(t, peer, from) {
      OverBudget(t, peer, from);
    } else {
      forall more, after | GoesOn(t, more, after, peer, from) ensures Attempts(more, peer, from) <= ATTEMPT_BUDGET {
        WithinBudget(t, more, after, peer, from, |more|);
        assert more[..|more|] == more;
      }
    }
  }

  // From the opening of a peer's bucket to its reset at most ATTEMPT_BUDGET
  // attempts pass, the one that opened it included.
  lemma BucketBudget(calls: seq<Call>, tables: seq<Table>, peer: string, j: nat)
    requires IsRun(calls, tables) && TimeGoesOn(calls) && Undisturbed(calls, tables, peer)
    requires j < |calls| && calls[j].Allow? && calls[j].key == peer && !IsLive(tables[j], peer, calls[j].now)
    ensures peer in tables[j + 1] && tables[j + 1][peer].reset == calls[j].now + ATTEMPT_WINDOW
    ensures Attempts(calls[j..], peer, calls[j].now) <= ATTEMPT_BUDGET
  {
    assert Step(tables[j], calls[j], tables[j + 1]);
    var more, after := calls[j..], tables[j..];
    hide Step;
    assert GoesOn(tables[j], more, after, peer, calls[j].now);
    WithinBudget(tables[j], more, after, peer, calls[j].now, |more|);
    assert more[..|more|] == more;
  }

  // ---- The limiter ----

  datatype Entry = Entry(key: string, reset: int)

  predicate Sorted(r: seq<Entry>) { forall i, j :: 0 <= i < j < |r| ==> r[i].reset <= r[j].reset }

  method Insert(sorted: seq<Entry>, e: Entry) returns (r: seq<Entry>)
    requires Sorted(sorted)
    ensures Sorted(r) && multiset(r) == multiset(sorted) + multiset{e}
  {
    var k := 0;
    while k < |sorted| && sorted[k].reset <= e.reset
      invariant 0 <= k <= |sorted|
      invariant forall i :: 0 <= i < k ==> sorted[i].reset <= e.reset
    {
      k := k + 1;
    }
    assert sorted == sorted[..k] + sorted[k..];
    r := sorted[..k] + [e] + sorted[k..];
  }

  method SortByReset(entries: seq<Entry>) returns (r: seq<Entry>)
    ensures Sorted(r) && multiset(r) == multiset(entries)
  {
    r := [];
    for n := 0 to |entries|
      invariant Sorted(r) && multiset(r) == multiset(entries[..n])
    {
      assert entries[..n + 1] == entries[..n] + [entries[n]];
      r := Insert(r, entries[n]);
    }
    assert entries[..|entries|] == entries;
  }

  // Entries listed once are listed once in any order.
  lemma ListedOnce(entries: seq<Entry>, r: seq<Entry>, t: Table)
    requires multiset(r) == multiset(entries)
    requires forall i, j :: 0 <= i < j < |entries| ==> entries[i] != entries[j]
    requires forall e :: e in entries ==> e.key in t && e.reset == t[e.key].reset
    ensures |r| == |entries|
    ensures forall e :: e in r <==> e in entries
    ensures forall i, j :: 0 <= i < j < |r| ==> r[i].key != r[j].key
  {
    assert |r| == |multiset(r)| && |entries| == |multiset(entries)|;
    assert forall e :: e in r <==> e in multiset(r);
    assert forall e :: e in entries <==> e in multiset(entries);
    forall i, j | 0 <= i < j < |r| ensures r[i].key != r[j].key {
      if r[i].key == r[j].key {
        assert r[i] in entries && r[j] in entries && r[i] == r[j];
        Twice(r, i, j);
        Once(entries, r[i]);
      }
    }
  }

  lemma Twice<T>(s: seq<T>, i: nat, j: nat)
    requires i < j < |s| && s[i] == s[j]
    ensures multiset(s)[s[i]] >= 2
  {
    assert s == s[..i] + [s[i]] + s[i + 1..j] + [s[j]] + s[j + 1..];
  }

  lemma {:induction false} Once<T>(s: seq<T>, x: T)
    requires forall i, j :: 0 <= i < j < |s| ==> s[i] != s[j]
    ensures multiset(s)[x] <= 1
  {
    if s != [] {
      assert s == [s[0]] + s[1..];
      Once(s[1..], x);
      if s[0] == x {
        assert x !in s[1..];
      }
    }
  }

  class RateLimiter {
    var buckets: Table

    constructor ()
      ensures buckets == map[]
    {
      buckets := map[];
    }

    method Allow(key: string, now: int) returns (ok: bool)
      modifies this
      ensures Allowed(old(buckets), key, now, ok, buckets)
    {
      if key in buckets && now < buckets[key].reset {
        if buckets[key].count >= ATTEMPT_BUDGET {
          return false;
        }
        buckets := buckets[key := buckets[key].(count := buckets[key].count + 1)];
        return true;
      }
      if |buckets| >= MAX_BUCKETS {
        Evict(now);
      }
      buckets := buckets[key := Bucket(1, now + ATTEMPT_WINDOW)];
      ok := true;
    }

    method Sweep(now: int)
      modifies this
      ensures buckets == Swept(old(buckets), now)
    {
      var todo := buckets.Keys;
      while todo != {}
        invariant todo <= buckets.Keys <= old(buckets).Keys
        invariant forall k :: k in buckets ==> buckets[k] == old(buckets)[k]
        invariant forall k :: k in old(buckets) && k !in todo ==> (k in buckets <==> now <= old(buckets)[k].reset)
        decreases |todo|
      {
        var k :| k in todo;
        if now > buckets[k].reset {
          buckets := buckets - {k};
        }
        todo := todo - {k};
      }
    }

    method Entries() returns (entries: seq<Entry>)
      ensures |entries| == |buckets|
      ensures forall i, j :: 0 <= i < j < |entries| ==> entries[i] != entries[j]
      ensures forall e :: e in entries ==> e.key in buckets && e.reset == buckets[e.key].reset
      ensures forall k :: k in buckets ==> Entry(k, buckets[k].reset) in entries
    {
      entries := [];
      var todo := buckets.Keys;
      while todo != {}
        invariant todo <= buckets.Keys
        invariant |entries| + |todo| == |buckets|
        invariant forall i, j :: 0 <= i < j < |entries| ==> entries[i] != entries[j]
        invariant forall e :: e in entries ==> e.key in buckets && e.key !in todo && e.reset == buckets[e.key].reset
        invariant forall k :: k in buckets && k !in todo ==> Entry(k, buckets[k].reset) in entries
        decreases |todo|
      {
        var k :| k in todo;
        entries := entries + [Entry(k, buckets[k].reset)];
        todo := todo - {k};
      }
    }

    method Evict(now: int)
      modifies this
      ensures Evicted(old(buckets), now, buckets)
    {
      Sweep(now);
      ghost var live := buckets;
      if |buckets| < MAX_BUCKETS {
        return;
      }
      var unsorted := Entries();
      var entries := SortByReset(unsorted);
      ListedOnce(unsorted, entries, live);
      hide Swept, ExpiresFirst, Sorted;
      DropFirst(entries, |entries| / 2);
      FirstHalf(live, entries);
      hide ExpiresFirst, Sorted, KeysOf, Swept;
      assert ExpiresFirst(live, KeysOf(entries, |entries| / 2));
    }

    method DropFirst(entries: seq<Entry>, n: nat)
      requires n <= |entries|
      modifies this
      ensures buckets == old(buckets) - KeysOf(entries, n)
    {
      for i := 0 to n
        invariant buckets == old(buckets) - KeysOf(entries, i)
      {
        assert KeysOf(entries, i + 1) == KeysOf(entries, i) + {entries[i].key};
        buckets := buckets - {entries[i].key};
      }
    }

    method Reset(key: string)
      modifies this
      ensures buckets == old(buckets) - {key}
    {
      buckets := buckets - {key};
    }
  }

  function KeysOf(entries: seq<Entry>, n: nat): set<string>
    requires n <= |entries|
  {
    set j | 0 <= j < n :: entries[j].key
  }

  lemma {:induction false} KeysCount(entries: seq<Entry>, n: nat)
    requires n <= |entries|
    requires forall i, j :: 0 <= i < j < |entries| ==> entries[i].key != entries[j].key
    ensures |KeysOf(entries, n)| == n
  {
    if n > 0 {
      KeysCount(entries, n - 1);
      assert KeysOf(entries, n) == KeysOf(entries, n - 1) + {entries[n - 1].key};
    }
  }

  lemma FirstHalf(live: Table, entries: seq<Entry>)
    requires |entries| == |live| && Sorted(entries)
    requires forall i, j :: 0 <= i < j < |entries| ==> entries[i].key != entries[j].key
    requires forall e :: e in entries ==> e.key in live && e.reset == live[e.key].reset
    requires forall k :: k in live ==> Entry(k, live[k].reset) in entries
    ensures ExpiresFirst(live, KeysOf(entries, |entries| / 2))
  {
    var gone := KeysOf(entries, |entries| / 2);
    KeysCount(entries, |entries| / 2);
    forall d | d in gone ensures d in live {
      var i :| 0 <= i < |entries| / 2 && entries[i].key == d;
      assert entries[i] in entries;
    }
    forall d, k | d in gone && k in live.Keys - gone ensures live[d].reset <= live[k].reset {
      var i :| 0 <= i < |entries| / 2 && entries[i].key == d;
      assert Entry(k, live[k].reset) in entries;
      var j :| 0 <= j < |entries| && entries[j] == Entry(k, live[k].reset);
      assert entries[i] in entries;
    }
  }
}
