// The clips being made, by cache key (internal/server/tts_synth.go syntheses,
// synthesise; internal/server/tts.go): requests for a key share one synthesis,
// and a failed one is never joined. A request looks in the table, then in the
// cache, then starts a synthesis, and anything may happen between the three.
// Syntheses and requests are named by numbers never used before.
module Syntheses {
  import opened Prelude

  const UNCACHED_TTL: int := 900_000_000_000

  // Where a synthesis has got to. A failing one is forgotten before its readers
  // hear of it; a whole one is in the cache before it is forgotten.
  datatype Stage = Making | Failing | Failed | Committed | Cached | Kept(expires: int) | Discarded

  datatype Synthesis = Synthesis(key: string, stage: Stage)

  // Where a request has got to: its first look missed, the cache missed too, or
  // it is answered.
  datatype Phase = Missed | MissedBoth | Hit | Joined(id: nat) | Started(id: nat) | TurnedAway

  datatype Request = Request(key: string, phase: Phase)

  datatype State = State(
    byKey: map<string, nat>,
    made: map<nat, Synthesis>,
    cache: set<string>,
    requests: map<nat, Request>)

  datatype Event =
      // The three moments of a request.
    | Look(r: nat, key: string, now: int)
    | OpenCache(r: nat)
    | Start(r: nat, now: int, id: nat)
      // A failure of the key is remembered, or the request is a HEAD.
    | TurnAway(r: nat)
    | Fail(id: nat)
    | Announce(id: nat)
    | Commit(id: nat)
    | Forget(id: nat)
    | Keep(id: nat, now: int)
    | Timer(id: nat)

  predicate IsAt(s: State, id: nat, stage: Stage) { id in s.made && s.made[id].stage == stage }

  predicate Waits(s: State, r: nat, phase: Phase) { r in s.requests && s.requests[r].phase == phase }

  predicate Enabled(s: State, e: Event) {
    match e
    case Look(r, _, _) => r !in s.requests
    case OpenCache(r) => Waits(s, r, Missed)
    case Start(r, _, id) => Waits(s, r, MissedBoth) && id !in s.made
    case TurnAway(r) => Waits(s, r, MissedBoth)
    case Fail(id) => IsAt(s, id, Making)
    case Announce(id) => IsAt(s, id, Failing)
    case Commit(id) => IsAt(s, id, Making)
    case Forget(id) => IsAt(s, id, Committed)
    case Keep(id, _) => IsAt(s, id, Making)
    case Timer(id) => id in s.made && s.made[id].stage.Kept?
  }

  predicate IsExpired(s: State, id: nat, now: int) { id in s.made && s.made[id].stage.Kept? && now >= s.made[id].stage.expires }

  function SetStage(s: State, id: nat, stage: Stage): State
    requires id in s.made
  {
    s.(made := s.made[id := s.made[id].(stage := stage)])
  }

  function Drop(s: State, key: string, id: nat): State {
    if key in s.byKey && s.byKey[key] == id then s.(byKey := s.byKey - {key}) else s
  }

  // What a look under key leaves, and the synthesis it finds.
  function Live(s: State, key: string, now: int): (State, Option<nat>) {
    if key !in s.byKey then (s, None)
    else
      var id := s.byKey[key];
      if IsExpired(s, id, now) then (SetStage(s.(byKey := s.byKey - {key}), id, Discarded), None) else (s, Some(id))
  }

  // What a start under key leaves; id is new when nothing is found.
  function StartAt(s: State, key: string, now: int, id: nat): State {
    var (t, found) := Live(s, key, now);
    if found.Some? then t else t.(byKey := t.byKey[key := id], made := t.made[id := Synthesis(key, Making)])
  }

  function SetRequest(s: State, r: nat, q: Request): State { s.(requests := s.requests[r := q]) }

  function After(s: State, e: Event): State {
    if !Enabled(s, e) then s
    else
      match e
      case Look(r, key, now) =>
        var (t, found) := Live(s, key, now);
        SetRequest(t, r, Request(key, if found.Some? then Joined(found.value) else Missed))
      case OpenCache(r) =>
        var q := s.requests[r];
        SetRequest(s, r, q.(phase := if q.key in s.cache then Hit else MissedBoth))
      case Start(r, now, id) =>
        var q := s.requests[r];
        var found := Live(s, q.key, now).1;
        SetRequest(StartAt(s, q.key, now, id), r, q.(phase := if found.Some? then Joined(found.value) else Started(id)))
      case TurnAway(r) => SetRequest(s, r, s.requests[r].(phase := TurnedAway))
      case Fail(id) => SetStage(Drop(s, s.made[id].key, id), id, Failing)
      case Announce(id) => SetStage(s, id, Failed)
      case Commit(id) => SetStage(s, id, Committed).(cache := s.cache + {s.made[id].key})
      case Forget(id) => SetStage(Drop(s, s.made[id].key, id), id, Cached)
      case Keep(id, now) => SetStage(s, id, Kept(now + UNCACHED_TTL))
      case Timer(id) => SetStage(Drop(s, s.made[id].key, id), id, Discarded)
  }

  // ---- The invariant ----

  predicate IsShared(st: Stage) { st.Making? || st.Committed? }

  predicate Inv(s: State) {
    && (forall k :: k in s.byKey ==>
          s.byKey[k] in s.made && s.made[s.byKey[k]].key == k && (IsShared(s.made[s.byKey[k]].stage) || s.made[s.byKey[k]].stage.Kept?))
    && (forall id :: id in s.made && IsShared(s.made[id].stage) ==> s.made[id].key in s.byKey && s.byKey[s.made[id].key] == id)
    && (forall id :: id in s.made && (s.made[id].stage.Committed? || s.made[id].stage.Cached?) ==> s.made[id].key in s.cache)
  }

  lemma LiveKeeps(s: State, key: string, now: int)
    requires Inv(s)
    ensures Inv(Live(s, key, now).0)
    ensures Live(s, key, now).1.None? ==> key !in Live(s, key, now).0.byKey
    ensures Live(s, key, now).0.made.Keys == s.made.Keys
  {
  }

  lemma StartKeeps(s: State, key: string, id: nat)
    requires Inv(s) && key !in s.byKey && id !in s.made
    ensures Inv(s.(byKey := s.byKey[key := id], made := s.made[id := Synthesis(key, Making)]))
  {
  }

  // Leaving the table: of a synthesis that may be under its key or not.
  lemma DropKeeps(s: State, id: nat, stage: Stage)
    requires Inv(s) && id in s.made && !IsShared(stage) && !stage.Kept?
    requires stage.Cached? ==> s.made[id].key in s.cache
    ensures Inv(SetStage(Drop(s, s.made[id].key, id), id, stage))
  {
  }

  lemma StartAtKeeps(s: State, key: string, now: int, id: nat)
    requires Inv(s) && id !in s.made
    ensures Inv(StartAt(s, key, now, id))
  {
    hide Inv, IsExpired;
    LiveKeeps(s, key, now);
    var (t, found) := Live(s, key, now);
    if found.None? {
      StartKeeps(t, key, id);
    }
  }

  // Requests are no part of the invariant.
  lemma RequestsApart(s: State, t: State)
    requires Inv(s) && t == s.(requests := t.requests)
    ensures Inv(t)
  {
  }

  lemma StepKeeps(s: State, e: Event)
    requires Inv(s)
    ensures Inv(After(s, e))
  {
    if Enabled(s, e) {
      match e
      case Look(r, key, now) =>
        LiveKeeps(s, key, now);
        hide Inv, Live;
        RequestsApart(Live(s, key, now).0, After(s, e));
      case OpenCache(r) =>
        hide Inv, Live;
        RequestsApart(s, After(s, e));
      case Start(r, now, id) =>
        StartAtKeeps(s, s.requests[r].key, now, id);
        hide Inv, Live, StartAt;
        RequestsApart(StartAt(s, s.requests[r].key, now, id), After(s, e));
      case TurnAway(r) =>
        hide Inv, Live;
        RequestsApart(s, After(s, e));
      case Fail(id) => DropKeeps(s, id, Failing);
      case Announce(id) =>
        hide Live;
        assert After(s, e) == SetStage(s, id, Failed);
      case Commit(id) =>
        hide Live;
        assert After(s, e) == SetStage(s, id, Committed).(cache := s.cache + {s.made[id].key});
      case Forget(id) => DropKeeps(s, id, Cached);
      case Keep(id, now) =>
        hide Live;
        assert After(s, e) == SetStage(s, id, Kept(now + UNCACHED_TTL));
      case Timer(id) => DropKeeps(s, id, Discarded);
    }
  }

  const EMPTY := State(map[], map[], {}, map[])

  function Run(events: seq<Event>): State {
    if events == [] then EMPTY else After(Run(events[..|events| - 1]), events[|events| - 1])
  }

  lemma {:induction false} RunKeeps(events: seq<Event>)
    ensures Inv(Run(events))
  {
    if events != [] {
      hide Inv, After;
      RunKeeps(events[..|events| - 1]);
      StepKeeps(Run(events[..|events| - 1]), events[|events| - 1]);
    }
  }

  // Of one key at most one synthesis is being made at a time, and a request
  // that starts meanwhile joins it.
  lemma OneIsMadeAtATime(events: seq<Event>, id: nat, id': nat)
    requires var s := Run(events);
             id in s.made && id' in s.made && s.made[id].key == s.made[id'].key && s.made[id].stage.Making? && s.made[id'].stage.Making?
    ensures id == id'
  {
    RunKeeps(events);
  }

  lemma RequestsJoin(events: seq<Event>, id: nat, r: nat, now: int, fresh': nat)
    requires var s := Run(events);
             IsAt(s, id, Making) && Enabled(s, Start(r, now, fresh')) && s.requests[r].key == s.made[id].key
    ensures var s := Run(events);
            After(s, Start(r, now, fresh')) == SetRequest(s, r, Request(s.made[id].key, Joined(id)))
  {
    RunKeeps(events);
  }

  // What a request finds has not failed, nor expired: a request after a failure
  // is never joined to the dead synthesis.
  lemma FailedIsNeverJoined(events: seq<Event>, key: string, now: int)
    ensures var (t, found) := Live(Run(events), key, now);
            found.Some? ==>
              && found.value in t.made && t.made[found.value].key == key
              && (IsShared(t.made[found.value].stage) || (t.made[found.value].stage.Kept? && now < t.made[found.value].stage.expires))
  {
    RunKeeps(events);
  }

  // ---- Who pays ----

  // The synthesis is being made, or is whole and will be found.
  predicate IsThere(s: State, id: nat, key: string) {
    id in s.made && s.made[id].key == key && (IsShared(s.made[id].stage) || s.made[id].stage.Cached?)
  }

  // The request has been answered with a clip, or will be by the cache.
  predicate IsServed(s: State, r: nat, key: string) {
    && r in s.requests && s.requests[r].key == key
    && (s.requests[r].phase.Joined? || s.requests[r].phase.Hit? || (s.requests[r].phase.Missed? && key in s.cache))
  }

  lemma ServedStays(s: State, e: Event, r: nat, key: string)
    requires IsServed(s, r, key)
    ensures IsServed(After(s, e), r, key)
  {
    hide IsExpired;
  }

  lemma {:induction false} ServedStaysServed(events: seq<Event>, later: seq<Event>, r: nat, key: string)
    requires IsServed(Run(events), r, key)
    ensures IsServed(Run(events + later), r, key)
  {
    if later == [] {
      assert events + later == events;
    } else {
      var n := |later| - 1;
      assert (events + later)[..|events + later| - 1] == events + later[..n];
      ServedStaysServed(events, later[..n], r, key);
      ServedStays(Run(events + later[..n]), later[n], r, key);
      hide After, IsServed;
    }
  }

  // No request falls between the table and the cache: one whose look comes after
  // a synthesis began that has not failed is answered with it or with what it
  // left in the cache, whatever happens in between, and never starts another.
  lemma NoGap(events: seq<Event>, later: seq<Event>, id: nat, r: nat, key: string, now: int)
    requires IsThere(Run(events), id, key) && r !in Run(events).requests
    ensures IsServed(Run(events + [Look(r, key, now)] + later), r, key)
    ensures IsShared(Run(events).made[id].stage) ==>
              Waits(Run(events + [Look(r, key, now)]), r, Joined(id))
  {
    RunKeeps(events);
    assert (events + [Look(r, key, now)])[..|events|] == events;
    assert IsServed(Run(events + [Look(r, key, now)]), r, key);
    hide Run, After, IsServed;
    ServedStaysServed(events + [Look(r, key, now)], later, r, key);
  }

  // A request that found neither and is about to start a synthesis.
  predicate IsAbout(s: State, r: nat, key: string) { Waits(s, r, MissedBoth) && s.requests[r].key == key }

  predicate AboutToStart(s: State, key: string) { exists r :: r in s.requests && IsAbout(s, r, key) }

  predicate MakesAnother(s: State, t: State, key: string) {
    exists id :: id in t.made && id !in s.made && t.made[id].key == key
  }

  function RunFrom(s: State, events: seq<Event>): State {
    if events == [] then s else After(RunFrom(s, events[..|events| - 1]), events[|events| - 1])
  }

  // Once a clip is in the cache, nobody new comes to start another.
  lemma NobodyNewStarts(s: State, e: Event, key: string)
    requires key in s.cache && !AboutToStart(s, key)
    ensures key in After(s, e).cache && !AboutToStart(After(s, e), key)
    ensures forall id :: id in After(s, e).made && After(s, e).made[id].key == key ==> id in s.made && s.made[id].key == key
  {
    forall r | r in After(s, e).requests ensures !IsAbout(After(s, e), r, key) {
      assert r in s.requests ==> !IsAbout(s, r, key);
    }
    if Enabled(s, e) && e.Start? {
      assert !IsAbout(s, e.r, key);
      assert s.requests[e.r].key != key;
    }
  }

  lemma {:induction false} NobodyNewEverStarts(s: State, more: seq<Event>, key: string)
    requires key in s.cache && !AboutToStart(s, key)
    ensures var t := RunFrom(s, more); key in t.cache && !AboutToStart(t, key) && !MakesAnother(s, t, key)
    ensures forall id :: id in RunFrom(s, more).made && RunFrom(s, more).made[id].key == key ==>
                           id in s.made && s.made[id].key == key
  {
    if more != [] {
      var n := |more| - 1;
      NobodyNewEverStarts(s, more[..n], key);
      hide After, AboutToStart;
      NobodyNewStarts(RunFrom(s, more[..n]), more[n], key);
    }
  }

  // What is under the key goes, however far it has got.
  lemma GoesAway(s: State, key: string) returns (more: seq<Event>)
    requires Inv(s)
    ensures |more| <= 2 && var t := RunFrom(s, more); key !in t.byKey && t.requests == s.requests && t.made.Keys == s.made.Keys
  {
    more := [];
    if key in s.byKey {
      var id := s.byKey[key];
      if IsAt(s, id, Making) {
        var t := After(s, Commit(id));
        more := [Commit(id), Forget(id)];
        assert more[..1] == [Commit(id)] && more[..1][..0] == [];
        assert RunFrom(s, [Commit(id)]) == t && IsAt(t, id, Committed);
        assert RunFrom(s, more) == After(t, Forget(id));
      } else {
        var e := if IsAt(s, id, Committed) then Forget(id) else Timer(id);
        more := [e];
        assert more[..0] == [];
        assert RunFrom(s, more) == After(s, e);
      }
    }
  }

  lemma {:induction false} SomeNewId(made: map<nat, Synthesis>) returns (id: nat)
    ensures forall k :: k in made ==> k < id
  {
    id := 0;
    var keys := made.Keys;
    while keys != {}
      invariant keys <= made.Keys
      invariant forall k :: k in made && k !in keys ==> k < id
      decreases |keys|
    {
      var k :| k in keys;
      if k >= id {
        id := k + 1;
      }
      keys := keys - {k};
    }
  }

  lemma AboutMakesAnother(s: State, r: nat, key: string) returns (more: seq<Event>)
    requires Inv(s) && IsAbout(s, r, key)
    ensures MakesAnother(s, RunFrom(s, more), key)
  {
    var first := GoesAway(s, key);
    var t := RunFrom(s, first);
    var id := SomeNewId(t.made);
    var e := Start(r, 0, id);
    more := first + [e];
    assert more[..|more| - 1] == first;
    assert After(t, e).made[id] == Synthesis(key, Making);
    assert id in RunFrom(s, more).made && id !in s.made.Keys;
  }

  // A clip in the cache can be paid for again exactly while a request is about
  // to start it that missed in the table and in the cache before it was there.
  lemma PaidAgainIff(events: seq<Event>, key: string)
    requires key in Run(events).cache
    ensures (exists more :: MakesAnother(Run(events), RunFrom(Run(events), more), key)) <==> AboutToStart(Run(events), key)
  {
    var s := Run(events);
    RunKeeps(events);
    hide Inv, Run, After;
    if AboutToStart(s, key) {
      var r :| r in s.requests && IsAbout(s, r, key);
      var more := AboutMakesAnother(s, r, key);
      assert MakesAnother(Run(events), RunFrom(Run(events), more), key);
    } else {
      forall more ensures !MakesAnother(s, RunFrom(s, more), key) {
        NobodyNewEverStarts(s, more, key);
      }
    }
  }

  // Two requests look before either starts, the second's cache look comes before
  // the first's clip is committed and its start after it is forgotten.
  function SlowRequest(key: string): seq<Event> {
    [Look(0, key, 0), Look(1, key, 0), OpenCache(0), Start(0, 0, 7), OpenCache(1), Commit(7), Forget(7), Start(1, 0, 8)]
  }

  lemma PrefixRun(events: seq<Event>, n: nat)
    requires n < |events|
    ensures Run(events[..n + 1]) == After(Run(events[..n]), events[n])
  {
    assert events[..n + 1][..n] == events[..n];
    hide After;
  }

  // The run, state by state.
  function Slow(key: string, n: nat): State {
    var q := Request(key, Missed);
    var both, started := q.(phase := MissedBoth), q.(phase := Started(7));
    match n
    case 0 => EMPTY
    case 1 => State(map[], map[], {}, map[0 := q])
    case 2 => State(map[], map[], {}, map[0 := q, 1 := q])
    case 3 => State(map[], map[], {}, map[0 := both, 1 := q])
    case 4 => State(map[key := 7], map[7 := Synthesis(key, Making)], {}, map[0 := started, 1 := q])
    case 5 => State(map[key := 7], map[7 := Synthesis(key, Making)], {}, map[0 := started, 1 := both])
    case 6 => State(map[key := 7], map[7 := Synthesis(key, Committed)], {key}, map[0 := started, 1 := both])
    case 7 => State(map[], map[7 := Synthesis(key, Cached)], {key}, map[0 := started, 1 := both])
    case _ => After(Slow(key, 7), Start(1, 0, 8))
  }

  lemma SlowLooks(key: string)
    ensures After(Slow(key, 0), Look(0, key, 0)) == Slow(key, 1)
    ensures After(Slow(key, 1), Look(1, key, 0)) == Slow(key, 2)
    ensures After(Slow(key, 2), OpenCache(0)) == Slow(key, 3)
    ensures After(Slow(key, 4), OpenCache(1)) == Slow(key, 5)
  {
  }

  lemma SlowMakes(key: string)
    ensures After(Slow(key, 3), Start(0, 0, 7)) == Slow(key, 4)
    ensures After(Slow(key, 5), Commit(7)) == Slow(key, 6)
  {
  }

  lemma SlowForgets(key: string)
    ensures After(Slow(key, 6), Forget(7)) == Slow(key, 7)
    ensures IsAt(Slow(key, 8), 8, Making) && Slow(key, 8).made[8].key == key
  {
  }

  lemma {:induction false} SlowRun(key: string, n: nat)
    requires n <= 8
    ensures Run(SlowRequest(key)[..n]) == Slow(key, n)
  {
    SlowLooks(key);
    SlowMakes(key);
    SlowForgets(key);
    hide After;
    if n > 0 {
      SlowRun(key, n - 1);
      PrefixRun(SlowRequest(key), n - 1);
      hide Run;
    }
  }

  lemma ClipPaidForTwice(key: string)
    ensures var t := Run(SlowRequest(key));
            key in t.cache && IsAt(t, 7, Cached) && t.made[7].key == key && IsAt(t, 8, Making) && t.made[8].key == key
  {
    hide Run;
    SlowRun(key, 8);
    assert SlowRequest(key)[..8] == SlowRequest(key);
  }

  // ---- The table ----

  class Table {
    var byKey: map<string, nat>
    var made: map<nat, Synthesis>
    var cache: set<string>
    var requests: map<nat, Request>
    var next: nat

    function Value(): State
      reads this
    {
      State(byKey, made, cache, requests)
    }

    predicate Fresh()
      reads this
    {
      forall id :: id in made ==> id < next
    }

    constructor ()
      ensures Value() == EMPTY && Fresh()
    {
      byKey := map[];
      made := map[];
      cache := {};
      requests := map[];
      next := 0;
    }

    method FindLive(key: string, now: int) returns (found: Option<nat>)
      requires Fresh()
      modifies this`byKey, this`made
      ensures (Value(), found) == Live(old(Value()), key, now)
      ensures Fresh()
    {
      if key !in byKey {
        return None;
      }
      var id := byKey[key];
      if id in made && made[id].stage.Kept? && now >= made[id].stage.expires {
        byKey := byKey - {key};
        made := made[id := made[id].(stage := Discarded)];
        return None;
      }
      found := Some(id);
    }

    method StartOne(key: string, now: int) returns (id: nat, fresh': bool)
      requires Fresh() && Inv(Value())
      modifies this`byKey, this`made, this`next
      ensures Fresh()
      ensures fresh' ==> id == old(next)
      ensures Value() == StartAt(old(Value()), key, now, old(next))
      ensures key in byKey && byKey[key] == id && (fresh' <==> Live(old(Value()), key, now).1.None?)
    {
      var found := FindLive(key, now);
      if found.Some? {
        return found.value, false;
      }
      id := next;
      next := next + 1;
      byKey := byKey[key := id];
      made := made[id := Synthesis(key, Making)];
      fresh' := true;
    }

    // Forgets id, if it is still the one under key.
    method DropOne(key: string, id: nat)
      modifies this`byKey
      ensures Value() == Drop(old(Value()), key, id)
    {
      if key in byKey && byKey[key] == id {
        byKey := byKey - {key};
      }
    }
  }
}
