// Windowing a timeline and paging it back in (internal/projection/window.go).
module Window {
  import opened Prelude
  import opened Protocol
  import opened Projection
  import opened Timeline

  function Clamp(before: int, n: nat): nat { if before > n then n else if before < 0 then 0 else before }

  // Where a walk back from end stops once maxTop top-level items are in.
  function WalkBack(items: seq<Item>, start: nat, top: int, maxTop: int): (r: nat)
    requires start <= |items|
    ensures r <= start
  {
    if start == 0 then 0
    else if items[start - 1].parentId == "" then
      if top == maxTop then start else WalkBack(items, start - 1, top + 1, maxTop)
    else WalkBack(items, start - 1, top, maxTop)
  }

  // The nearest item before start that has a turn, -1 when none has.
  function NearestTurned(items: seq<Item>, start: nat): (j: int)
    requires start <= |items|
    ensures -1 <= j < start
    ensures j >= 0 ==> items[j].turnId != ""
    ensures forall k :: j < k < start ==> items[k].turnId == ""
  {
    if start == 0 then -1
    else if items[start - 1].turnId != "" then start - 1
    else NearestTurned(items, start - 1)
  }

  // Back from start to the first item of turn t, over turnless runs.
  function TurnStartOf(items: seq<Item>, start: nat, t: string): (r: nat)
    requires start <= |items|
    ensures r <= start
  {
    var j := NearestTurned(items, start);
    if t == "" || j < 0 || items[j].turnId != t then start else TurnStartOf(items, j, t)
  }

  function WindowStart(items: seq<Item>, end: nat, maxTop: int): (r: nat)
    requires end <= |items|
    ensures r <= end
  {
    var start := WalkBack(items, end, 0, maxTop);
    if start == 0 || start >= |items| then start else TurnStartOf(items, start, items[start].turnId)
  }

  method ComputeWindowStart(items: seq<Item>, end0: int, maxTop: int) returns (start: nat)
    requires end0 >= 0
    ensures start == WindowStart(items, Clamp(end0, |items|), maxTop)
  {
    var end := end0;
    if end > |items| {
      end := |items|;
    }
    start := end;
    var top := 0;
    while start > 0
      invariant start <= end
      invariant WalkBack(items, start, top, maxTop) == WalkBack(items, end, 0, maxTop)
    {
      if items[start - 1].parentId == "" {
        if top == maxTop {
          break;
        }
        top := top + 1;
      }
      start := start - 1;
    }
    if start == 0 || start >= |items| {
      return;
    }
    var t := items[start].turnId;
    while start > 0 && t != ""
      invariant start <= end
      invariant TurnStartOf(items, start, t) == WindowStart(items, end, maxTop)
    {
      var j: int := start - 1;
      while j >= 0 && items[j].turnId == ""
        invariant -1 <= j < start
        invariant NearestTurned(items, start) == NearestTurned(items, j + 1)
      {
        j := j - 1;
      }
      assert j == NearestTurned(items, start);
      if j < 0 || items[j].turnId != t {
        break;
      }
      start := j;
    }
  }

  // A copy of a thread's state on its way to a client.
  class Copy {
    var items: seq<Item>
    var itemsBefore: int

    constructor (items: seq<Item>, itemsBefore: int)
      ensures this.items == items && this.itemsBefore == itemsBefore
    {
      this.items, this.itemsBefore := items, itemsBefore;
    }

    method Window(maxTop: int)
      modifies this
      ensures items == old(items)[WindowStart(old(items), |old(items)|, maxTop)..]
      ensures itemsBefore == old(itemsBefore) + WindowStart(old(items), |old(items)|, maxTop)
    {
      var start := ComputeWindowStart(items, |items|, maxTop);
      if start == 0 {
        return;
      }
      itemsBefore := itemsBefore + start;
      items := items[start..];
    }
  }

  method WindowBefore(items: seq<Item>, before0: int, maxTop: int) returns (page: seq<Item>, start: nat)
    ensures start == WindowStart(items, Clamp(before0, |items|), maxTop)
    ensures page == items[start..Clamp(before0, |items|)]
  {
    var before := before0;
    if before > |items| {
      before := |items|;
    }
    if before < 0 {
      before := 0;
    }
    start := ComputeWindowStart(items, before, maxTop);
    page := items[start..before];
  }

  // ---- What a page is ----

  function TopLevel(items: seq<Item>): nat {
    if items == [] then 0
    else TopLevel(items[..|items| - 1]) + (if items[|items| - 1].parentId == "" then 1 else 0)
  }

  lemma {:induction false} WalkBackCounts(items: seq<Item>, start: nat, top: int, maxTop: int)
    requires start <= |items| && top <= maxTop
    ensures var r := WalkBack(items, start, top, maxTop);
            && top + TopLevel(items[r..start]) <= maxTop
            && (r > 0 ==> items[r - 1].parentId == "" && top + TopLevel(items[r..start]) == maxTop)
  {
    var r := WalkBack(items, start, top, maxTop);
    if start > 0 && !(items[start - 1].parentId == "" && top == maxTop) {
      WalkBackCounts(items, start - 1, if items[start - 1].parentId == "" then top + 1 else top, maxTop);
      assert items[r..start][..start - r - 1] == items[r..start - 1];
    } else {
      assert items[start..start] == [];
    }
  }

  // Before the walk to the start of a turn, a page is the longest run ending at
  // its cursor that holds at most maxTop top-level items.
  lemma PageIsFull(items: seq<Item>, end: nat, maxTop: nat)
    requires end <= |items|
    ensures var r := WalkBack(items, end, 0, maxTop);
            && TopLevel(items[r..end]) <= maxTop
            && (r > 0 ==> TopLevel(items[r - 1..end]) == maxTop + 1)
  {
    WalkBackCounts(items, end, 0, maxTop);
    var r := WalkBack(items, end, 0, maxTop);
    if r > 0 {
      TopLevelSplit(items[r - 1..r], items[r..end]);
      assert items[r - 1..end] == items[r - 1..r] + items[r..end];
      assert items[r - 1..r][..0] == [];
    }
  }

  lemma {:induction false} TopLevelSplit(a: seq<Item>, b: seq<Item>)
    ensures TopLevel(a + b) == TopLevel(a) + TopLevel(b)
  {
    if b == [] {
      assert a + b == a;
    } else {
      TopLevelSplit(a, b[..|b| - 1]);
      assert (a + b)[..|a + b| - 1] == a + b[..|b| - 1];
    }
  }

  lemma {:induction false} TurnStartProperties(items: seq<Item>, start: nat, t: string)
    requires start < |items| && items[start].turnId == t
    ensures var r := TurnStartOf(items, start, t);
            && items[r].turnId == t
            && (t != "" ==> var j := NearestTurned(items, r); j < 0 || items[j].turnId != t)
            && (forall k :: r <= k < start ==> items[k].turnId == t || items[k].turnId == "")
    decreases start
  {
    var j := NearestTurned(items, start);
    if t != "" && j >= 0 && items[j].turnId == t {
      TurnStartProperties(items, j, t);
    }
  }

  // A page never starts inside a turn: when its first item has one, the nearest
  // earlier item with a turn has another. What the walk to the turn's start
  // adds belongs to that turn or to none.
  lemma PageStartsATurn(items: seq<Item>, end: nat, maxTop: int)
    requires end <= |items|
    ensures var r := WindowStart(items, end, maxTop);
            && (r < end && items[r].turnId != "" ==>
                  var j := NearestTurned(items, r); j < 0 || items[j].turnId != items[r].turnId)
            && (var w := WalkBack(items, end, 0, maxTop);
                r < w ==> w < |items| && forall k :: r <= k < w ==> items[k].turnId in {items[w].turnId, ""})
  {
    var w := WalkBack(items, end, 0, maxTop);
    if 0 < w < |items| {
      TurnStartProperties(items, w, items[w].turnId);
    }
  }

  lemma {:induction false} WalkBackMoves(items: seq<Item>, start: nat, top: int, maxTop: int)
    requires 0 < start <= |items| && top < maxTop
    ensures WalkBack(items, start, top, maxTop) < start
  {
  }

  // ---- Paging while the thread goes on ----

  datatype Pages = Pages(ids: seq<string>, cursor: nat)

  // What a presenter collects paging up from cursor, when the thread's items
  // are timelines[k] at its fetch number k.
  function Collect(cursor: nat, timelines: seq<seq<Item>>, maxTop: int): Pages
    requires forall k :: 0 <= k < |timelines| ==> cursor <= |timelines[k]|
  {
    if timelines == [] then Pages([], cursor)
    else
      var start := WindowStart(timelines[0], cursor, maxTop);
      var rest := Collect(start, timelines[1..], maxTop);
      Pages(rest.ids + Ids(timelines[0][start..cursor]), rest.cursor)
  }

  lemma IdsJoin(items: seq<Item>, longer: seq<Item>, a: nat, b: nat, c: nat)
    requires a <= b <= c <= |items| && Continues(items, longer)
    ensures Ids(items[a..b]) + Ids(longer[b..c]) == Ids(items[a..c])
  {
  }

  // Every fetch takes the cursor down, to 0 once there are as many fetches as
  // there were items above it, and however far it got, what was collected is
  // exactly the ids between there and the first cursor, in order.
  lemma {:induction false} CollectsWhatIsAbove(items: seq<Item>, cursor: nat, timelines: seq<seq<Item>>, maxTop: int)
    requires cursor <= |items| && maxTop >= 1
    requires forall k :: 0 <= k < |timelines| ==> Continues(items, timelines[k])
    ensures forall k :: 0 <= k < |timelines| ==> cursor <= |timelines[k]|
    ensures var got := Collect(cursor, timelines, maxTop);
            && got.cursor <= cursor && (cursor > 0 && timelines != [] ==> got.cursor < cursor)
            && (|timelines| >= cursor ==> got.cursor == 0)
            && got.ids == Ids(items[got.cursor..cursor])
    decreases |timelines|
  {
    if timelines == [] {
      assert items[cursor..cursor] == [];
    } else {
      assert Continues(items, timelines[0]);
      var start := WindowStart(timelines[0], cursor, maxTop);
      if cursor > 0 {
        WalkBackMoves(timelines[0], cursor, 0, maxTop);
      }
      CollectsWhatIsAbove(items, start, timelines[1..], maxTop);
      var last := Collect(start, timelines[1..], maxTop).cursor;
      IdsJoin(items, timelines[0], last, start, cursor);
    }
  }

  // The timeline at each later fetch, when later[k] is what is folded before
  // fetch number k.
  function Timelines(s: State, later: seq<seq<Event>>): (r: seq<seq<Item>>)
    ensures |r| == |later|
    decreases |later|
  {
    if later == [] then []
    else
      var t := ApplyAll(s, later[0]);
      [t.items] + Timelines(t, later[1..])
  }

  lemma {:induction false} TimelinesContinue(items: seq<Item>, s: State, later: seq<seq<Event>>)
    requires Continues(items, s.items)
    ensures forall k :: 0 <= k < |later| ==> Continues(items, Timelines(s, later)[k])
    decreases |later|
  {
    if later != [] {
      ApplyAllKeepsTimeline(s, later[0]);
      var t := ApplyAll(s, later[0]);
      TimelinesContinue(items, t, later[1..]);
      forall k | 0 <= k < |later| ensures Continues(items, Timelines(s, later)[k]) {
        assert k > 0 ==> Timelines(s, later)[k] == Timelines(t, later[1..])[k - 1];
      }
    }
  }

  // The ids of a first window from first on, below those of the pages above it,
  // are those of all the items.
  predicate PagesYieldAll(items: seq<Item>, first: nat, timelines: seq<seq<Item>>, maxTop: int) {
    && first <= |items|
    && (forall k :: 0 <= k < |timelines| ==> first <= |timelines[k]|)
    && var above := Collect(first, timelines, maxTop);
       above.cursor == 0 && above.ids + Ids(items[first..]) == Ids(items)
  }

  lemma PagesJoin(items: seq<Item>, first: nat, timelines: seq<seq<Item>>, maxTop: int)
    requires maxTop >= 1 && first <= |items| && first <= |timelines|
    requires forall k :: 0 <= k < |timelines| ==> Continues(items, timelines[k])
    ensures PagesYieldAll(items, first, timelines, maxTop)
  {
    CollectsWhatIsAbove(items, first, timelines, maxTop);
    IdsJoin(items, items, 0, first, |items|);
    hide Collect, Ids;
    assert items[first..|items|] == items[first..] && items[0..|items|] == items;
  }

  lemma FoldedIdsAreDistinct(threadId: string, log: seq<Event>)
    ensures DistinctIds(Fold(threadId, log).items)
  {
    ApplyAllKeepsTimeline(New(threadId), log);
    hide ApplyAll;
  }

  // A window and the pages above it give every item of the thread as it was at
  // the first fetch exactly once, in order, whatever is folded between fetches.
  lemma PagingYieldsEachItemOnce(threadId: string, log: seq<Event>, later: seq<seq<Event>>, maxTop: int)
    requires maxTop >= 1
    requires |later| >= WindowStart(Fold(threadId, log).items, |Fold(threadId, log).items|, maxTop)
    ensures var s := Fold(threadId, log);
            && PagesYieldAll(s.items, WindowStart(s.items, |s.items|, maxTop), Timelines(s, later), maxTop)
            && DistinctIds(s.items)
  {
    var s := Fold(threadId, log);
    hide Fold, ApplyAll, WindowStart, PagesYieldAll, DistinctIds;
    FoldedIdsAreDistinct(threadId, log);
    TimelinesContinue(s.items, s, later);
    PagesJoin(s.items, WindowStart(s.items, |s.items|, maxTop), Timelines(s, later), maxTop);
  }
}
