// Attaching a presenter to a running thread (internal/server/ws.go with the
// actor's side in internal/thread/actor.go), as a machine over the steps that
// can interleave: the actor storing, publishing and fanning out an event, and
// ending, for another to go on with the thread; one connection subscribing,
// reading history, marking itself synchronized and draining; and drains of
// earlier attachments that have not stopped yet.
module Attach {
  import opened Prelude
  import opened Protocol
  import opened Projection
  import opened Timeline

  const MAX_REPLAY_GAP := 1000
  const SUBSCRIBER_QUEUE := 256

  // One subscription. Its queue is fed while it is registered; draining is its
  // goroutine sending what is above caughtUp to the presenter. endedAt is the
  // head of its actor when that ended, which closed the queue.
  datatype Stream = Stream(
    queue: seq<Event>,
    registered: bool,
    dropped: bool,
    draining: bool,
    caughtUp: nat,
    endedAt: Option<nat>)

  datatype Frame = SnapshotFrame(state: State) | EventFrame(event: Event) | ResyncFrame

  // How far an attach has got. after is the cursor the presenter sent.
  datatype Conn =
    | Ready
    | Subscribed(after: Option<nat>)
    | Decided(after: Option<nat>, replay: bool)
    | Holding(frames: seq<Frame>, upTo: nat)

  datatype System = System(
    threadId: string,
    log: seq<Event>,
    head: nat,
    fanned: nat,
    streams: seq<Stream>,
    live: Option<nat>,
    conn: Conn,
    presenter: State,
    // The heads at which actors of the thread have ended.
    ends: set<nat>)

  datatype Step =
    | Store(event: Event)
    | Publish
    | Fan
    | BeginAttach(after: Option<nat>)
    | ReadHead
    | TakeSnapshot
    | ReadEvents
    | SendFrame
    | Synchronize
    | Drain(i: nat)
    | TellResync(i: nat)
    | Stop(i: nat)
    | Detach
    // A harness exited, or the thread is disposed of; another actor goes on.
    | EndActor
    // An attach that found its actor just before that ended.
    | BeginEnded(after: Option<nat>, head: nat)
    | FailAttach

  // What the presenter does with a frame. A resync makes it attach again.
  function Receive(p: State, f: Frame): State {
    match f
    case SnapshotFrame(state) => state
    case EventFrame(event) => Apply(p, event)
    case ResyncFrame => p
  }

  // Full queues are dropped and told to resync; nothing ever waits for one.
  function Offer(s: Stream, ev: Event): Stream {
    if !s.registered then s
    else if |s.queue| < SUBSCRIBER_QUEUE then s.(queue := s.queue + [ev])
    else s.(registered := false, dropped := true)
  }

  function Close(s: Stream, head: nat): Stream {
    if s.registered then s.(registered := false, endedAt := Some(head)) else s
  }

  function Unsubscribe(streams: seq<Stream>, live: Option<nat>): seq<Stream> {
    if live.Some? && live.value < |streams|
    then streams[live.value := streams[live.value].(registered := false)]
    else streams
  }

  predicate Quiet(s: System) { s.fanned == s.head == |s.log| }

  // The head of the actor the latest attach subscribed to.
  function ActorHead(s: System): nat {
    if s.streams != [] && s.streams[|s.streams| - 1].endedAt.Some? then s.streams[|s.streams| - 1].endedAt.value else s.head
  }

  predicate Enabled(s: System, step: Step) {
    match step
    case Store(event) => Quiet(s) && event.seqNo == |s.log| + 1
    case Publish => s.head < |s.log|
    case Fan => s.fanned < s.head <= |s.log|
    // The cursor is one the presenter had when it sent the request.
    case BeginAttach(after) => s.conn.Ready? && (after.Some? ==> after.value <= s.presenter.core.seqNo)
    case ReadHead => s.conn.Subscribed?
    // The actor answers from its own loop, between events, unless it has ended.
    case TakeSnapshot =>
      s.conn.Decided? && !s.conn.replay && Quiet(s) && s.streams != [] && s.streams[|s.streams| - 1].endedAt.None?
    case ReadEvents => s.conn.Decided? && s.conn.replay && s.conn.after.Some? && s.conn.after.value <= |s.log|
    case SendFrame => s.conn.Holding? && s.conn.frames != []
    case Synchronize => s.conn.Holding? && s.conn.frames == [] && s.streams != []
    case Drain(i) => i < |s.streams| && s.streams[i].draining && s.streams[i].queue != []
    case TellResync(i) => i < |s.streams| && s.streams[i].draining && s.streams[i].dropped
    // Cancelled, or its queue closed and empty; the presenter is not told.
    case Stop(i) =>
      i < |s.streams| && s.streams[i].draining && (s.live != Some(i) || (s.streams[i].endedAt.Some? && s.streams[i].queue == []))
    case Detach => s.conn.Ready?
    case EndActor => Quiet(s)
    case BeginEnded(after, head) =>
      s.conn.Ready? && (after.Some? ==> after.value <= s.presenter.core.seqNo) && head in s.ends
    case FailAttach => s.conn.Decided? && s.streams != []
  }

  function Next(s: System, step: Step): System
    requires Enabled(s, step)
  {
    match step
    case Store(event) => s.(log := s.log + [event])
    case Publish => s.(head := |s.log|)
    case Fan =>
      var ev := s.log[s.fanned];
      s.(fanned := s.fanned + 1, streams := MapSeq((x: Stream) => Offer(x, ev), s.streams))
    case BeginAttach(after) =>
      s.(streams := Unsubscribe(s.streams, s.live) + [Stream([], true, false, false, 0, None)], live := None,
         conn := Subscribed(after))
    case ReadHead =>
      var after := s.conn.after;
      s.(conn := Decided(after, after.Some? && 0 <= ActorHead(s) - after.value <= MAX_REPLAY_GAP))
    case TakeSnapshot => s.(conn := Holding([SnapshotFrame(Fold(s.threadId, s.log))], |s.log|))
    case ReadEvents =>
      var after := s.conn.after.value;
      var events := s.log[after..Min(after + MAX_REPLAY_GAP, |s.log|)];
      s.(conn := Holding(MapSeq((ev: Event) => EventFrame(ev), events), after + |events|))
    case SendFrame =>
      s.(presenter := Receive(s.presenter, s.conn.frames[0]), conn := s.conn.(frames := s.conn.frames[1..]))
    case Synchronize =>
      var last := |s.streams| - 1;
      s.(streams := s.streams[last := s.streams[last].(draining := true, caughtUp := s.conn.upTo)], live := Some(last),
         conn := Ready)
    case Drain(i) =>
      var x := s.streams[i];
      s.(streams := s.streams[i := x.(queue := x.queue[1..])],
         presenter := if x.queue[0].seqNo <= x.caughtUp then s.presenter else Receive(s.presenter, EventFrame(x.queue[0])))
    case TellResync(i) =>
      s.(streams := s.streams[i := s.streams[i].(draining := false, registered := false)],
         presenter := Receive(s.presenter, ResyncFrame))
    case Stop(i) => s.(streams := s.streams[i := s.streams[i].(draining := false, registered := false)])
    case Detach => s.(streams := Unsubscribe(s.streams, s.live), live := None)
    case EndActor => s.(streams := MapSeq((x: Stream) => Close(x, s.head), s.streams), ends := s.ends + {s.head})
    case BeginEnded(after, head) =>
      s.(streams := Unsubscribe(s.streams, s.live) + [Stream([], false, false, false, 0, Some(head))], live := None,
         conn := Subscribed(after))
    case FailAttach =>
      var last := |s.streams| - 1;
      s.(streams := s.streams[last := s.streams[last].(registered := false)], conn := Ready)
  }

  // ---- The invariant ----

  predicate LogOk(s: System) {
    s.fanned <= s.head <= |s.log| && forall i :: 0 <= i < |s.log| ==> s.log[i].seqNo == i + 1
  }

  // The presenter holds exactly the fold of a prefix of the log.
  predicate HoldsPrefix(p: State, threadId: string, log: seq<Event>) {
    0 <= p.core.seqNo <= |log| && p == Fold(threadId, log[..p.core.seqNo])
  }

  // A queue is a run of consecutive events of the log, up to the last one fanned
  // out while it is registered.
  predicate StreamOk(x: Stream, log: seq<Event>, fanned: nat) {
    && (forall j :: 0 <= j < |x.queue| ==>
          var n := x.queue[0].seqNo + j;
          1 <= n <= fanned <= |log| && x.queue[j] == log[n - 1] && x.queue[j].seqNo == n)
    && (x.registered ==> !x.dropped && x.endedAt.None? && (x.queue != [] ==> x.queue[|x.queue| - 1].seqNo == fanned))
    && (x.dropped ==> !x.registered && x.endedAt.None?)
  }

  // The last event before those the stream still delivers.
  function Behind(x: Stream, fanned: nat): int { if x.queue == [] then fanned else x.queue[0].seqNo - 1 }

  predicate Delivers(x: Stream) { x.registered || x.queue != [] }

  // Registered until its queue is dropped or its actor ends.
  predicate Listens(x: Stream) { x.registered || x.dropped || x.endedAt.Some? }

  // Of the live attachment: while it is registered its goroutine runs.
  predicate Attached(x: Stream) { Listens(x) && (x.registered ==> x.draining) }

  // What the stream still delivers begins no later than after n.
  predicate Near(x: Stream, fanned: nat, n: int) { Delivers(x) ==> Behind(x, fanned) <= n }

  predicate DrainOk(x: Stream, fanned: nat, k: int) {
    x.draining ==> x.caughtUp <= k && (Delivers(x) ==> Behind(x, fanned) <= k)
  }

  predicate StreamsOk(s: System) {
    forall i :: 0 <= i < |s.streams| ==>
      && StreamOk(s.streams[i], s.log, s.fanned)
      && DrainOk(s.streams[i], s.fanned, s.presenter.core.seqNo)
      && (s.streams[i].registered ==> s.live == Some(i) || (!s.conn.Ready? && i == |s.streams| - 1))
  }

  // What an attach under way will send brings the presenter to upTo.
  predicate HoldingOk(s: System, frames: seq<Frame>, upTo: nat)
    requires s.streams != []
  {
    var k := s.presenter.core.seqNo;
    upTo <= |s.log| &&
    if frames != [] && frames[0].SnapshotFrame? then
      && frames == [SnapshotFrame(Fold(s.threadId, s.log[..upTo]))] && k <= upTo
      && forall i :: 0 <= i < |s.streams| - 1 && s.streams[i].queue != [] ==>
           s.streams[i].queue[|s.streams[i].queue| - 1].seqNo <= upTo
    else
      && upTo - |frames| >= 0 && upTo - |frames| <= k
      && forall j :: 0 <= j < |frames| ==> frames[j] == EventFrame(s.log[upTo - |frames| + j])
  }

  predicate ConnOk(s: System) {
    if s.conn.Ready? then s.live.Some? ==> s.live.value < |s.streams| && Attached(s.streams[s.live.value])
    else
      && s.live == None && s.streams != [] && !s.streams[|s.streams| - 1].draining
      && Listens(s.streams[|s.streams| - 1])
      && var x := s.streams[|s.streams| - 1];
         match s.conn
         case Subscribed(after) => (after.Some? ==> after.value <= s.presenter.core.seqNo) && Near(x, s.fanned, ActorHead(s))
         case Decided(after, replay) =>
           && (after.Some? ==> after.value <= s.presenter.core.seqNo)
           && (replay ==> after.Some? && Near(x, s.fanned, after.value + MAX_REPLAY_GAP))
         case Holding(frames, upTo) => Near(x, s.fanned, upTo) && HoldingOk(s, frames, upTo)
         case Ready => true
  }

  predicate Inv(s: System) {
    LogOk(s) && HoldsPrefix(s.presenter, s.threadId, s.log) && StreamsOk(s) && ConnOk(s)
  }

  // A connection opens with nothing attached and a presenter that holds some
  // prefix of the log, cached from before.
  predicate Init(s: System) {
    LogOk(s) && HoldsPrefix(s.presenter, s.threadId, s.log) && s.streams == [] && s.live == None && s.conn == Ready
  }

  // ---- Folding one frame ----

  lemma PrefixSeqNo(threadId: string, log: seq<Event>, k: nat)
    requires k <= |log| && forall i :: 0 <= i < |log| ==> log[i].seqNo == i + 1
    ensures Fold(threadId, log[..k]).core.seqNo == k
  {
    FoldSeqNo(threadId, log[..k]);
  }

  // An event at most one ahead of the presenter takes it from a prefix to a
  // prefix: the next one if it is new, the same one if it is not.
  lemma ReceiveEvent(p: State, threadId: string, log: seq<Event>, n: nat)
    requires HoldsPrefix(p, threadId, log) && forall i :: 0 <= i < |log| ==> log[i].seqNo == i + 1
    requires 1 <= n <= |log| && n <= p.core.seqNo + 1
    ensures var q := Apply(p, log[n - 1]);
            && HoldsPrefix(q, threadId, log)
            && (n <= p.core.seqNo ==> q == p)
            && (n == p.core.seqNo + 1 ==> q.core.seqNo == n)
  {
    if n == p.core.seqNo + 1 {
      assert log[..n][..n - 1] == log[..n - 1];
      assert Fold(threadId, log[..n]) == Apply(p, log[n - 1]);
      PrefixSeqNo(threadId, log, n);
    }
  }

  lemma LongerLog(p: State, threadId: string, log: seq<Event>, ev: Event)
    requires HoldsPrefix(p, threadId, log)
    ensures HoldsPrefix(p, threadId, log + [ev])
  {
    assert (log + [ev])[..p.core.seqNo] == log[..p.core.seqNo];
  }

  // ---- Every step keeps it ----

  lemma LongerHolding(s: System, t: System, ev: Event)
    requires LogOk(s) && s.streams != [] && s.conn.Holding? && HoldingOk(s, s.conn.frames, s.conn.upTo)
    requires t == s.(log := s.log + [ev])
    ensures HoldingOk(t, s.conn.frames, s.conn.upTo)
  {
    hide Fold;
    assert s.conn.upTo <= |s.log|;
    assert t.log[..s.conn.upTo] == s.log[..s.conn.upTo];
  }

  lemma StoreKeeps(s: System, ev: Event)
    requires Inv(s) && Enabled(s, Store(ev))
    ensures Inv(Next(s, Store(ev))) && Next(s, Store(ev)).presenter == s.presenter
  {
    var t := Next(s, Store(ev));
    LongerLog(s.presenter, s.threadId, s.log, ev);
    hide Fold, DrainOk, HoldsPrefix, HoldingOk;
    forall i | 0 <= i < |s.streams| ensures StreamOk(t.streams[i], t.log, t.fanned) {
      assert StreamOk(s.streams[i], s.log, s.fanned);
    }
    if s.conn.Holding? {
      LongerHolding(s, t, ev);
    }
  }

  lemma PublishKeeps(s: System)
    requires Inv(s) && Enabled(s, Publish)
    ensures Inv(Next(s, Publish)) && Next(s, Publish).presenter == s.presenter
  {
    hide Fold, StreamOk, DrainOk, HoldsPrefix;
  }

  lemma OfferKeeps(x: Stream, log: seq<Event>, fanned: nat, k: int)
    requires StreamOk(x, log, fanned) && DrainOk(x, fanned, k) && fanned < |log|
    requires forall i :: 0 <= i < |log| ==> log[i].seqNo == i + 1
    ensures var y := Offer(x, log[fanned]);
            && StreamOk(y, log, fanned + 1) && DrainOk(y, fanned + 1, k) && (y.registered ==> x.registered)
            && (Delivers(x) ==> Delivers(y) && Behind(y, fanned + 1) == Behind(x, fanned))
            && y.draining == x.draining && (!x.registered ==> y == x)
            && (Listens(x) ==> Listens(y)) && y.endedAt == x.endedAt && (x.dropped ==> y.dropped)
  {
    var y := Offer(x, log[fanned]);
    if x.registered && |x.queue| < SUBSCRIBER_QUEUE {
      assert y.queue[0] == if x.queue == [] then log[fanned] else x.queue[0];
    }
  }

  lemma FanKeeps(s: System)
    requires Inv(s) && Enabled(s, Fan)
    ensures Inv(Next(s, Fan)) && Next(s, Fan).presenter == s.presenter
  {
    hide Fold, Offer, StreamOk, DrainOk;
    var t := Next(s, Fan);
    forall i | 0 <= i < |s.streams|
      ensures t.streams[i] == Offer(s.streams[i], s.log[s.fanned])
      ensures StreamOk(t.streams[i], t.log, t.fanned) && DrainOk(t.streams[i], t.fanned, t.presenter.core.seqNo)
      ensures t.streams[i].registered ==> s.streams[i].registered
      ensures !s.streams[i].registered ==> t.streams[i] == s.streams[i]
    {
      OfferKeeps(s.streams[i], s.log, s.fanned, s.presenter.core.seqNo);
    }
    if s.live.Some? && s.conn.Ready? {
      OfferKeeps(s.streams[s.live.value], s.log, s.fanned, s.presenter.core.seqNo);
    }
    if !s.conn.Ready? {
      OfferKeeps(s.streams[|s.streams| - 1], s.log, s.fanned, s.presenter.core.seqNo);
    }
  }

  lemma UnsubscribeKeeps(x: Stream, log: seq<Event>, fanned: nat, k: int)
    requires StreamOk(x, log, fanned) && DrainOk(x, fanned, k)
    ensures var y := x.(registered := false); StreamOk(y, log, fanned) && DrainOk(y, fanned, k)
    ensures var y := x.(registered := false, draining := false); StreamOk(y, log, fanned) && DrainOk(y, fanned, k)
  {
  }

  lemma CloseKeeps(x: Stream, log: seq<Event>, fanned: nat, k: int, head: nat)
    requires StreamOk(x, log, fanned) && DrainOk(x, fanned, k)
    ensures var y := Close(x, head);
            && StreamOk(y, log, fanned) && DrainOk(y, fanned, k) && !y.registered && y.queue == x.queue
            && y.draining == x.draining && (Listens(x) ==> Listens(y)) && (forall n :: Near(x, fanned, n) ==> Near(y, fanned, n))
            && (y.endedAt == if x.registered then Some(head) else x.endedAt)
  {
  }

  lemma Closed(s: System)
    requires Enabled(s, EndActor)
    ensures var t := Next(s, EndActor);
            t == s.(streams := t.streams, ends := s.ends + {s.head}) && |t.streams| == |s.streams| &&
            forall i :: 0 <= i < |s.streams| ==> t.streams[i] == Close(s.streams[i], s.head)
  {
    hide Close;
  }

  lemma EndActorKeepsStreams(s: System)
    requires Inv(s) && Enabled(s, EndActor)
    ensures StreamsOk(Next(s, EndActor))
  {
    var t := Next(s, EndActor);
    Closed(s);
    hide Fold, StreamOk, DrainOk, HoldsPrefix, Close, ConnOk, Next;
    forall i | 0 <= i < |s.streams|
      ensures StreamOk(t.streams[i], t.log, t.fanned) && DrainOk(t.streams[i], t.fanned, t.presenter.core.seqNo)
      ensures !t.streams[i].registered
    {
      CloseKeeps(s.streams[i], s.log, s.fanned, s.presenter.core.seqNo, s.head);
    }
  }

  lemma ClosedHolding(s: System, t: System)
    requires s.streams != [] && s.conn.Holding? && HoldingOk(s, s.conn.frames, s.conn.upTo)
    requires t == s.(streams := t.streams, ends := t.ends) && |t.streams| == |s.streams|
    requires forall i :: 0 <= i < |s.streams| ==> t.streams[i].queue == s.streams[i].queue
    ensures HoldingOk(t, s.conn.frames, s.conn.upTo)
  {
    hide Fold;
  }

  lemma CloseKeepsConn(s: System, t: System)
    requires ConnOk(s) && t == s.(streams := t.streams, ends := t.ends) && |t.streams| == |s.streams|
    requires forall i :: 0 <= i < |s.streams| ==> t.streams[i] == Close(s.streams[i], s.head)
    requires forall i :: 0 <= i < |s.streams| && s.streams[i].registered ==> s.streams[i].endedAt.None?
    ensures ConnOk(t)
  {
    hide Fold, Behind, Delivers;
    assert forall i :: 0 <= i < |s.streams| ==> t.streams[i].queue == s.streams[i].queue;
    if s.conn.Holding? {
      ClosedHolding(s, t);
    }
    hide HoldingOk;
    if !s.conn.Ready? {
      CloseKeepsNear(s.streams[|s.streams| - 1], s.fanned, s.head);
    }
  }

  lemma CloseKeepsNear(x: Stream, fanned: nat, head: nat)
    ensures forall n :: Near(x, fanned, n) ==> Near(Close(x, head), fanned, n)
  {
  }

  lemma RegisteredGoesOn(s: System)
    requires StreamsOk(s)
    ensures forall i :: 0 <= i < |s.streams| && s.streams[i].registered ==> s.streams[i].endedAt.None?
  {
    forall i | 0 <= i < |s.streams| && s.streams[i].registered ensures s.streams[i].endedAt.None? {
      assert StreamOk(s.streams[i], s.log, s.fanned);
    }
  }

  lemma EndActorKeeps(s: System)
    requires Inv(s) && Enabled(s, EndActor)
    ensures Inv(Next(s, EndActor)) && Next(s, EndActor).presenter == s.presenter
  {
    Closed(s);
    RegisteredGoesOn(s);
    hide Fold, HoldsPrefix, Next, Close;
    EndActorKeepsStreams(s);
    CloseKeepsConn(s, Next(s, EndActor));
    hide StreamsOk, ConnOk;
  }

  lemma BeginKeeps(s: System, after: Option<nat>)
    requires Inv(s) && Enabled(s, BeginAttach(after))
    ensures Inv(Next(s, BeginAttach(after))) && Next(s, BeginAttach(after)).presenter == s.presenter
  {
    var t, added := Next(s, BeginAttach(after)), Stream([], true, false, false, 0, None);
    assert StreamOk(added, t.log, t.fanned) && DrainOk(added, t.fanned, t.presenter.core.seqNo);
    hide Fold, StreamOk, DrainOk;
    forall i | 0 <= i < |s.streams|
      ensures StreamOk(t.streams[i], t.log, t.fanned) && DrainOk(t.streams[i], t.fanned, t.presenter.core.seqNo)
      ensures !t.streams[i].registered
    {
      UnsubscribeKeeps(s.streams[i], s.log, s.fanned, s.presenter.core.seqNo);
    }
  }

  lemma BeginEndedKeeps(s: System, after: Option<nat>, head: nat)
    requires Inv(s) && Enabled(s, BeginEnded(after, head))
    ensures Inv(Next(s, BeginEnded(after, head))) && Next(s, BeginEnded(after, head)).presenter == s.presenter
  {
    var t, added := Next(s, BeginEnded(after, head)), Stream([], false, false, false, 0, Some(head));
    assert StreamOk(added, t.log, t.fanned) && DrainOk(added, t.fanned, t.presenter.core.seqNo);
    hide Fold, StreamOk, DrainOk;
    forall i | 0 <= i < |s.streams|
      ensures StreamOk(t.streams[i], t.log, t.fanned) && DrainOk(t.streams[i], t.fanned, t.presenter.core.seqNo)
      ensures !t.streams[i].registered
    {
      UnsubscribeKeeps(s.streams[i], s.log, s.fanned, s.presenter.core.seqNo);
    }
  }

  lemma FailKeeps(s: System)
    requires Inv(s) && Enabled(s, FailAttach)
    ensures Inv(Next(s, FailAttach)) && Next(s, FailAttach).presenter == s.presenter
  {
    var t := Next(s, FailAttach);
    UnsubscribeKeeps(s.streams[|s.streams| - 1], s.log, s.fanned, s.presenter.core.seqNo);
    hide Fold, StreamOk, DrainOk, HoldsPrefix;
    forall i | 0 <= i < |s.streams| - 1 ensures t.streams[i] == s.streams[i] && !t.streams[i].registered {
    }
  }

  lemma ReadHeadKeeps(s: System)
    requires Inv(s) && Enabled(s, ReadHead)
    ensures Inv(Next(s, ReadHead)) && Next(s, ReadHead).presenter == s.presenter
  {
    hide Fold, StreamOk, DrainOk, HoldsPrefix, HoldingOk;
  }

  lemma TakeSnapshotKeeps(s: System)
    requires Inv(s) && Enabled(s, TakeSnapshot)
    ensures Inv(Next(s, TakeSnapshot)) && Next(s, TakeSnapshot).presenter == s.presenter
  {
    hide Fold, DrainOk;
    assert s.log[..|s.log|] == s.log;
  }

  lemma NearFanned(x: Stream, log: seq<Event>, fanned: nat)
    requires StreamOk(x, log, fanned)
    ensures Near(x, fanned, fanned)
  {
  }

  // What is read is the log from the cursor on.
  lemma EventsRead(s: System)
    requires Inv(s) && Enabled(s, ReadEvents)
    ensures var t := Next(s, ReadEvents);
            && t == s.(conn := t.conn) && t.conn.Holding? && s.streams != []
            && t.conn.upTo == Min(s.conn.after.value + MAX_REPLAY_GAP, |s.log|)
            && HoldingOk(t, t.conn.frames, t.conn.upTo)
  {
    hide Fold, StreamsOk, HoldsPrefix, Near, Listens, Attached, LogOk;
  }

  lemma ReadEventsKeeps(s: System)
    requires Inv(s) && Enabled(s, ReadEvents)
    ensures Inv(Next(s, ReadEvents)) && Next(s, ReadEvents).presenter == s.presenter
  {
    EventsRead(s);
    NearFanned(s.streams[|s.streams| - 1], s.log, s.fanned);
    hide Next, Fold, StreamOk, DrainOk, HoldsPrefix, Behind, Delivers, HoldingOk;
  }

  // What is sent out of an attach is the next frame of what it holds.
  lemma SendAdvances(s: System)
    requires Inv(s) && Enabled(s, SendFrame)
    ensures var t := Next(s, SendFrame);
            && HoldsPrefix(t.presenter, t.threadId, t.log) && t.presenter.core.seqNo >= s.presenter.core.seqNo
            && HoldingOk(t, t.conn.frames, t.conn.upTo)
  {
    hide Fold, Apply, StreamsOk;
    var frames, upTo := s.conn.frames, s.conn.upTo;
    assert HoldingOk(s, frames, upTo);
    if frames[0].SnapshotFrame? {
      PrefixSeqNo(s.threadId, s.log, upTo);
    } else {
      ReceiveEvent(s.presenter, s.threadId, s.log, upTo - |frames| + 1);
    }
  }

  lemma SendIs(s: System)
    requires Enabled(s, SendFrame)
    ensures var t := Next(s, SendFrame);
            && t == s.(presenter := t.presenter, conn := s.conn.(frames := t.conn.frames))
  {
    hide Apply, Receive;
  }

  lemma SendKeepsStreams(s: System, t: System)
    requires StreamsOk(s) && t == s.(presenter := t.presenter, conn := t.conn) && s.conn.Holding? && t.conn.Holding?
    requires t.presenter.core.seqNo >= s.presenter.core.seqNo
    ensures StreamsOk(t)
  {
    forall i | 0 <= i < |s.streams| ensures DrainOk(t.streams[i], t.fanned, t.presenter.core.seqNo) {
      assert DrainOk(s.streams[i], s.fanned, s.presenter.core.seqNo);
    }
    hide StreamOk, DrainOk, Fold;
  }

  lemma SendKeepsConn(s: System, t: System)
    requires ConnOk(s) && s.conn.Holding? && t.conn.Holding?
    requires t == s.(presenter := t.presenter, conn := s.conn.(frames := t.conn.frames))
    requires s.streams != [] && HoldingOk(t, t.conn.frames, t.conn.upTo)
    ensures ConnOk(t)
  {
    hide HoldingOk, Fold, Near, Listens;
  }

  lemma SendKeeps(s: System)
    requires Inv(s) && Enabled(s, SendFrame)
    ensures Inv(Next(s, SendFrame)) && Next(s, SendFrame).presenter.core.seqNo >= s.presenter.core.seqNo
  {
    SendAdvances(s);
    SendIs(s);
    hide Fold, Apply, HoldsPrefix, HoldingOk, Receive, Next;
    SendKeepsStreams(s, Next(s, SendFrame));
    SendKeepsConn(s, Next(s, SendFrame));
    hide StreamsOk, ConnOk;
  }

  lemma CaughtUpKeeps(x: Stream, log: seq<Event>, fanned: nat, upTo: nat, k: int)
    requires StreamOk(x, log, fanned) && upTo <= k && Near(x, fanned, k)
    ensures var y := x.(draining := true, caughtUp := upTo); StreamOk(y, log, fanned) && DrainOk(y, fanned, k)
  {
  }

  lemma SynchronizeKeeps(s: System)
    requires Inv(s) && Enabled(s, Synchronize)
    ensures Inv(Next(s, Synchronize)) && Next(s, Synchronize).presenter == s.presenter
  {
    var t, last := Next(s, Synchronize), |s.streams| - 1;
    assert HoldingOk(s, s.conn.frames, s.conn.upTo);
    CaughtUpKeeps(s.streams[last], s.log, s.fanned, s.conn.upTo, s.presenter.core.seqNo);
    hide Fold, StreamOk, DrainOk, HoldsPrefix;
    forall i | 0 <= i < last ensures t.streams[i] == s.streams[i] && !t.streams[i].registered {
    }
  }

  // A drained event is at most one ahead, so it takes the presenter at most one
  // further.
  lemma DrainAdvances(s: System, i: nat)
    requires Inv(s) && Enabled(s, Drain(i))
    ensures var t, n := Next(s, Drain(i)), s.streams[i].queue[0].seqNo;
            && HoldsPrefix(t.presenter, t.threadId, t.log)
            && t.presenter.core.seqNo == Max(s.presenter.core.seqNo, n)
  {
    hide Fold, Apply;
    var x := s.streams[i];
    assert StreamOk(x, s.log, s.fanned) && DrainOk(x, s.fanned, s.presenter.core.seqNo);
    ReceiveEvent(s.presenter, s.threadId, s.log, x.queue[0].seqNo);
  }

  lemma DrainKeepsStream(x: Stream, log: seq<Event>, fanned: nat, k: int)
    requires StreamOk(x, log, fanned) && DrainOk(x, fanned, k) && x.queue != [] && x.draining
    ensures var y := x.(queue := x.queue[1..]);
            StreamOk(y, log, fanned) && DrainOk(y, fanned, Max(k, x.queue[0].seqNo))
  {
    assert forall j :: 0 <= j < |x.queue| - 1 ==> x.queue[1..][j] == x.queue[j + 1];
    if |x.queue| > 1 {
      assert x.queue[1].seqNo == x.queue[0].seqNo + 1;
    }
  }

  lemma DrainKeepsStreams(s: System, i: nat)
    requires Inv(s) && Enabled(s, Drain(i))
    ensures StreamsOk(Next(s, Drain(i)))
  {
    DrainAdvances(s, i);
    var t, k := Next(s, Drain(i)), s.presenter.core.seqNo;
    DrainKeepsStream(s.streams[i], s.log, s.fanned, k);
    hide Fold, Apply, StreamOk, HoldsPrefix, ConnOk;
    forall j | 0 <= j < |s.streams| && j != i ensures DrainOk(t.streams[j], t.fanned, t.presenter.core.seqNo) {
      assert DrainOk(s.streams[j], s.fanned, k);
    }
    hide DrainOk;
  }

  lemma DrainKeepsHolding(s: System, i: nat)
    requires Inv(s) && Enabled(s, Drain(i)) && s.conn.Holding?
    ensures HoldingOk(Next(s, Drain(i)), s.conn.frames, s.conn.upTo)
  {
    DrainAdvances(s, i);
    LastOfQueue(s.streams[i], s.log, s.fanned);
    hide Fold, Apply, StreamsOk, HoldsPrefix, Behind;
    HoldingAfterDrain(s, Next(s, Drain(i)), i);
  }

  lemma HoldingAfterDrain(s: System, t: System, i: nat)
    requires i < |s.streams| - 1 && s.streams[i].queue != [] && s.conn.Holding?
    requires HoldingOk(s, s.conn.frames, s.conn.upTo)
    requires t.log == s.log && t.threadId == s.threadId
    requires t.streams == s.streams[i := s.streams[i].(queue := s.streams[i].queue[1..])]
    requires t.presenter.core.seqNo == Max(s.presenter.core.seqNo, s.streams[i].queue[0].seqNo)
    requires s.streams[i].queue[0].seqNo <= s.streams[i].queue[|s.streams[i].queue| - 1].seqNo
    ensures HoldingOk(t, s.conn.frames, s.conn.upTo)
  {
    forall j | 0 <= j < |s.streams| - 1 && t.streams[j].queue != []
      ensures t.streams[j].queue[|t.streams[j].queue| - 1] == s.streams[j].queue[|s.streams[j].queue| - 1]
    {
    }
  }

  lemma LastOfQueue(x: Stream, log: seq<Event>, fanned: nat)
    requires StreamOk(x, log, fanned) && x.queue != []
    ensures x.queue[0].seqNo <= x.queue[|x.queue| - 1].seqNo
  {
  }

  // An attach under way is not troubled by others draining.
  lemma OthersKeepConn(s: System, t: System)
    requires ConnOk(s) && t.conn == s.conn && t.live == s.live && t.head == s.head && t.fanned == s.fanned
    requires |t.streams| == |s.streams| && t.presenter.core.seqNo >= s.presenter.core.seqNo
    requires s.conn.Ready? && s.live.Some? ==> Attached(t.streams[s.live.value])
    requires !s.conn.Ready? ==> t.streams[|s.streams| - 1] == s.streams[|s.streams| - 1]
    requires s.conn.Holding? ==> s.streams != [] && HoldingOk(t, s.conn.frames, s.conn.upTo)
    ensures ConnOk(t)
  {
    hide HoldingOk, Fold;
  }

  lemma DrainKeepsConn(s: System, i: nat)
    requires Inv(s) && Enabled(s, Drain(i))
    ensures ConnOk(Next(s, Drain(i)))
  {
    DrainAdvances(s, i);
    if s.conn.Holding? {
      DrainKeepsHolding(s, i);
    }
    hide Fold, Apply, StreamsOk, HoldsPrefix, HoldingOk;
    OthersKeepConn(s, Next(s, Drain(i)));
  }

  lemma DrainKeeps(s: System, i: nat)
    requires Inv(s) && Enabled(s, Drain(i))
    ensures Inv(Next(s, Drain(i))) && Next(s, Drain(i)).presenter.core.seqNo >= s.presenter.core.seqNo
  {
    DrainAdvances(s, i);
    DrainKeepsStreams(s, i);
    DrainKeepsConn(s, i);
    hide Fold, Apply, StreamsOk, ConnOk, HoldsPrefix;
  }

  lemma EndKeeps(s: System, step: Step)
    requires Inv(s) && Enabled(s, step) && (step.TellResync? || step.Stop? || step.Detach?)
    ensures Inv(Next(s, step)) && Next(s, step).presenter == s.presenter
  {
    hide Fold, StreamOk, DrainOk;
    var t := Next(s, step);
    forall i | 0 <= i < |s.streams|
      ensures StreamOk(t.streams[i], t.log, t.fanned) && DrainOk(t.streams[i], t.fanned, t.presenter.core.seqNo)
      ensures t.streams[i].queue == s.streams[i].queue
    {
      UnsubscribeKeeps(s.streams[i], s.log, s.fanned, s.presenter.core.seqNo);
    }
    if s.conn.Holding? {
      assert HoldingOk(s, s.conn.frames, s.conn.upTo);
      assert HoldingOk(t, s.conn.frames, s.conn.upTo);
    }
  }

  // Each step keeps the invariant and never takes the presenter back.
  lemma StepKeeps(s: System, step: Step)
    requires Inv(s) && Enabled(s, step)
    ensures Inv(Next(s, step))
    ensures Next(s, step).presenter.core.seqNo >= s.presenter.core.seqNo
  {
    hide Inv, Next, Enabled;
    match step
    case Store(ev) => StoreKeeps(s, ev);
    case Publish => PublishKeeps(s);
    case Fan => FanKeeps(s);
    case BeginAttach(after) => BeginKeeps(s, after);
    case ReadHead => ReadHeadKeeps(s);
    case TakeSnapshot => TakeSnapshotKeeps(s);
    case ReadEvents => ReadEventsKeeps(s);
    case SendFrame => SendKeeps(s);
    case Synchronize => SynchronizeKeeps(s);
    case Drain(i) => DrainKeeps(s, i);
    case TellResync(_) => EndKeeps(s, step);
    case Stop(_) => EndKeeps(s, step);
    case Detach => EndKeeps(s, step);
    case EndActor => EndActorKeeps(s);
    case BeginEnded(after, head) => BeginEndedKeeps(s, after, head);
    case FailAttach => FailKeeps(s);
  }

  predicate NextEventOrSame(p: State, log: seq<Event>, q: State) {
    var k := p.core.seqNo;
    q == p || (0 <= k < |log| && q == Apply(p, log[k]))
  }

  lemma SentEventIsNext(s: System)
    requires Inv(s) && Enabled(s, SendFrame) && !s.conn.frames[0].SnapshotFrame?
    ensures NextEventOrSame(s.presenter, s.log, Next(s, SendFrame).presenter)
  {
    var n := s.conn.upTo - |s.conn.frames| + 1;
    assert HoldingOk(s, s.conn.frames, s.conn.upTo);
    assert s.conn.frames[0] == EventFrame(s.log[n - 1]);
    hide Fold, Apply, StreamsOk;
    ReceiveEvent(s.presenter, s.threadId, s.log, n);
  }

  lemma DrainedIs(s: System, i: nat)
    requires Enabled(s, Drain(i))
    ensures var x := s.streams[i];
            Next(s, Drain(i)).presenter ==
            if x.queue[0].seqNo <= x.caughtUp then s.presenter else Apply(s.presenter, x.queue[0])
  {
    hide Apply;
  }

  lemma DrainedHead(s: System, i: nat)
    requires Inv(s) && Enabled(s, Drain(i))
    ensures var n := s.streams[i].queue[0].seqNo;
            && HoldsPrefix(s.presenter, s.threadId, s.log) && (forall k :: 0 <= k < |s.log| ==> s.log[k].seqNo == k + 1)
            && 1 <= n <= |s.log| && n <= s.presenter.core.seqNo + 1 && s.streams[i].queue[0] == s.log[n - 1]
  {
    var x := s.streams[i];
    assert StreamOk(x, s.log, s.fanned) && DrainOk(x, s.fanned, s.presenter.core.seqNo);
    hide StreamsOk, ConnOk, HoldsPrefix;
  }

  lemma DrainedEventIsNext(s: System, i: nat)
    requires Inv(s) && Enabled(s, Drain(i))
    ensures NextEventOrSame(s.presenter, s.log, Next(s, Drain(i)).presenter)
  {
    hide *;
    DrainedIs(s, i);
    DrainedHead(s, i);
    DrainedFirst(s, i);
    ReceivedIsNext(s.presenter, s.threadId, s.log, s.streams[i].queue[0].seqNo, Next(s, Drain(i)).presenter);
  }

  lemma DrainedFirst(s: System, i: nat)
    requires Enabled(s, Drain(i))
    ensures i < |s.streams| && s.streams[i].queue != []
  {
    hide Apply;
  }

  // An event no further ahead than the next is the next, or changes nothing.
  lemma ReceivedIsNext(p: State, threadId: string, log: seq<Event>, n: nat, q: State)
    requires HoldsPrefix(p, threadId, log) && forall i :: 0 <= i < |log| ==> log[i].seqNo == i + 1
    requires 1 <= n <= |log| && n <= p.core.seqNo + 1 && (q == p || q == Apply(p, log[n - 1]))
    ensures NextEventOrSame(p, log, q)
  {
    hide Apply;
    ReceiveEvent(p, threadId, log, n);
    hide HoldsPrefix;
  }

  // But for a snapshot, a step changes the presenter by the next event of the
  // log or not at all: a frame that is stale or repeated changes nothing.
  lemma OneEventAtATime(s: System, step: Step)
    requires Inv(s) && Enabled(s, step)
    requires !(step.SendFrame? && s.conn.frames[0].SnapshotFrame?)
    ensures NextEventOrSame(s.presenter, s.log, Next(s, step).presenter)
  {
    hide Inv, Fold, Apply;
    match step
    case SendFrame => SentEventIsNext(s);
    case Drain(i) => DrainedEventIsNext(s, i);
    case _ =>
  }

  // ---- Whole runs ----

  ghost predicate Reachable(s: System, steps: seq<Step>, t: System)
    decreases |steps|
  {
    if steps == [] then t == s
    else Enabled(s, steps[0]) && Reachable(Next(s, steps[0]), steps[1..], t)
  }

  lemma {:induction false} RunKeeps(s: System, steps: seq<Step>, t: System)
    requires Inv(s) && Reachable(s, steps, t)
    ensures Inv(t) && t.presenter.core.seqNo >= s.presenter.core.seqNo
    decreases |steps|
  {
    hide Inv, Next, Enabled;
    if steps != [] {
      StepKeeps(s, steps[0]);
      RunKeeps(Next(s, steps[0]), steps[1..], t);
    }
  }

  lemma InitHolds(s: System)
    requires Init(s)
    ensures Inv(s)
  {
  }

  // Whatever is appended while a presenter attaches, detaches and attaches
  // again, after each frame it holds exactly the fold of the log up to its
  // cursor, and the cursor never goes back.
  lemma PresenterConverges(s: System, steps: seq<Step>, t: System)
    requires Init(s) && Reachable(s, steps, t)
    ensures var k := t.presenter.core.seqNo;
            && s.presenter.core.seqNo <= k <= |t.log|
            && t.presenter == Fold(t.threadId, t.log[..k])
  {
    InitHolds(s);
    RunKeeps(s, steps, t);
    hide Next, Enabled, Fold;
  }

  predicate UnseenIn(s: System, x: Stream) {
    && s.fanned <= |s.log|
    && forall m :: Max(0, s.presenter.core.seqNo) <= m < s.fanned ==> s.log[m] in x.queue
  }

  lemma UnseenIsQueued(s: System, i: nat)
    requires Inv(s) && i < |s.streams| && s.live == Some(i) && s.conn.Ready? && s.streams[i].draining
    requires s.streams[i].endedAt.None?
    ensures if s.streams[i].dropped then Enabled(s, TellResync(i)) else UnseenIn(s, s.streams[i])
  {
    hide Fold;
    if s.streams[i].registered {
      QueueHoldsUnseen(s.streams[i], s.log, s.fanned, s.presenter.core.seqNo);
    }
    hide StreamOk, DrainOk, HoldingOk;
  }

  lemma NothingQueuedNothingUnseen(s: System, x: Stream)
    requires Inv(s) && UnseenIn(s, x) && x.queue == [] && Quiet(s)
    ensures s.presenter == Fold(s.threadId, s.log)
  {
    hide Fold, StreamsOk, ConnOk;
    var k := s.presenter.core.seqNo;
    var m := Min(k, |s.log| - 1);
    assert m >= 0 ==> s.log[m] in x.queue || m < k;
    assert s.log[..|s.log|] == s.log;
  }

  lemma LiveIsReady(s: System)
    requires Inv(s) && s.live.Some?
    ensures s.conn.Ready? && s.live.value < |s.streams| && Attached(s.streams[s.live.value])
  {
    hide Fold, StreamsOk, HoldingOk, HoldsPrefix, Attached;
  }

  // While its actor goes on, every event fanned out and not yet seen waits in the
  // attachment's queue, unless the queue was dropped; then the presenter can be
  // told to attach again. So an attachment with nothing queued has nothing left
  // to see.
  lemma NothingIsLost(s: System, steps: seq<Step>, t: System, i: nat)
    requires Init(s) && Reachable(s, steps, t)
    requires i < |t.streams| && t.live == Some(i) && t.streams[i].draining && t.streams[i].endedAt.None?
    ensures if t.streams[i].dropped then Enabled(t, TellResync(i)) else UnseenIn(t, t.streams[i])
    ensures !t.streams[i].dropped && t.streams[i].queue == [] && Quiet(t) ==> t.presenter == Fold(t.threadId, t.log)
  {
    hide *;
    InitHolds(s);
    RunKeeps(s, steps, t);
    LiveIsReady(t);
    UnseenIsQueued(t, i);
    if !t.streams[i].dropped && t.streams[i].queue == [] && Quiet(t) {
      NothingQueuedNothingUnseen(t, t.streams[i]);
    }
  }

  lemma QueueHoldsUnseen(x: Stream, log: seq<Event>, fanned: nat, k: int)
    requires StreamOk(x, log, fanned) && DrainOk(x, fanned, k) && x.draining && 0 <= k <= |log| && fanned <= |log|
    requires x.registered
    ensures forall m :: k <= m < fanned ==> log[m] in x.queue
  {
    forall m | k <= m < fanned ensures log[m] in x.queue {
      assert x.queue[m + 1 - x.queue[0].seqNo] == log[m];
    }
  }

  // ---- Until the actor ends ----

  // Each event fanned out is seen or queued; or the queue was dropped, and the
  // resync is due or was sent.
  predicate Heard(s: System, i: nat) { i < |s.streams| && (s.streams[i].dropped || UnseenIn(s, s.streams[i])) }

  predicate IsAttachOrEnd(step: Step) { step.EndActor? || step.BeginAttach? || step.BeginEnded? || step.Detach? }

  // A run in which no actor ends and the presenter does not attach anew.
  ghost predicate GoesOn(s: System, steps: seq<Step>, t: System)
    decreases |steps|
  {
    if steps == [] then t == s
    else Enabled(s, steps[0]) && !IsAttachOrEnd(steps[0]) && GoesOn(Next(s, steps[0]), steps[1..], t)
  }

  ghost predicate StaysHeard(s: System, i: nat) { forall steps, t :: GoesOn(s, steps, t) ==> Heard(t, i) }

  predicate LiveAndOn(s: System, i: nat) { s.live == Some(i) && i < |s.streams| && s.streams[i].endedAt.None? }

  lemma OnStep(s: System, step: Step, i: nat)
    requires Enabled(s, step) && !IsAttachOrEnd(step) && LiveAndOn(s, i) && s.conn.Ready?
    ensures LiveAndOn(Next(s, step), i)
  {
    hide Fold, Apply, Receive;
  }

  lemma {:induction false} StaysOn(s: System, steps: seq<Step>, t: System, i: nat)
    requires Inv(s) && GoesOn(s, steps, t) && LiveAndOn(s, i)
    ensures Inv(t) && LiveAndOn(t, i)
    decreases |steps|
  {
    hide Inv, Next, Enabled;
    if steps != [] {
      LiveIsReady(s);
      OnStep(s, steps[0], i);
      StepKeeps(s, steps[0]);
      StaysOn(Next(s, steps[0]), steps[1..], t, i);
    }
  }

  lemma OnIsHeard(s: System, i: nat)
    requires Inv(s) && LiveAndOn(s, i)
    ensures Heard(s, i)
  {
    LiveIsReady(s);
    if !s.streams[i].dropped {
      hide Fold;
      UnseenIsQueued(s, i);
    }
  }

  lemma {:induction false} GoesOnTwice(s: System, a: seq<Step>, t: System, b: seq<Step>, u: System)
    requires GoesOn(s, a, t) && GoesOn(t, b, u)
    ensures GoesOn(s, a + b, u)
    decreases |a|
  {
    hide Next, Enabled;
    if a == [] {
      assert a + b == b;
    } else {
      GoesOnTwice(Next(s, a[0]), a[1..], t, b, u);
      assert (a + b)[0] == a[0] && (a + b)[1..] == a[1..] + b;
    }
  }

  lemma OneStep(s: System, step: Step)
    requires Enabled(s, step) && !IsAttachOrEnd(step)
    ensures GoesOn(s, [step], Next(s, step))
  {
    hide Next, Enabled;
    assert [step][1..] == [];
    assert GoesOn(Next(s, step), [], Next(s, step));
  }

  // What the actor's own steps leave alone of a closed stream.
  predicate SameStream(s: System, t: System, i: nat) {
    i < |s.streams| && |t.streams| == |s.streams| && t.streams[i] == s.streams[i] && t.presenter == s.presenter
  }

  lemma FanSame(s: System, i: nat)
    requires Enabled(s, Fan) && i < |s.streams| && !s.streams[i].registered
    ensures var t := Next(s, Fan);
            SameStream(s, t, i) && t.log == s.log && t.head == s.head && t.fanned == s.fanned + 1
  {
  }

  lemma PublishSame(s: System, i: nat)
    requires Enabled(s, Publish) && i < |s.streams|
    ensures var t := Next(s, Publish);
            SameStream(s, t, i) && t.log == s.log && t.head == |s.log| && t.fanned == s.fanned
  {
  }

  lemma {:induction false} FansAll(s: System, i: nat) returns (steps: seq<Step>, t: System)
    requires Inv(s) && i < |s.streams| && !s.streams[i].registered && s.head == |s.log|
    ensures GoesOn(s, steps, t) && Inv(t) && SameStream(s, t, i) && t.log == s.log && Quiet(t)
    decreases |s.log| - s.fanned
  {
    hide Next;
    LogIsOk(s);
    if s.fanned == |s.log| {
      return [], s;
    }
    var u := Next(s, Fan);
    StepKeeps(s, Fan);
    OneStep(s, Fan);
    FanSame(s, i);
    hide Inv, Enabled;
    var more: seq<Step>;
    more, t := FansAll(u, i);
    GoesOnTwice(s, [Fan], u, more, t);
    steps := [Fan] + more;
  }

  lemma LogIsOk(s: System)
    requires Inv(s)
    ensures s.fanned <= s.head <= |s.log| && 0 <= s.presenter.core.seqNo <= |s.log|
  {
    hide Fold, StreamsOk, ConnOk;
  }

  lemma FallsQuiet(s: System, i: nat) returns (steps: seq<Step>, t: System)
    requires Inv(s) && i < |s.streams| && !s.streams[i].registered
    ensures GoesOn(s, steps, t) && Inv(t) && SameStream(s, t, i) && t.log == s.log && Quiet(t)
  {
    hide Next;
    LogIsOk(s);
    if s.head == |s.log| {
      steps, t := FansAll(s, i);
    } else {
      var u := Next(s, Publish);
      StepKeeps(s, Publish);
      OneStep(s, Publish);
      PublishSame(s, i);
      hide Inv, Enabled;
      var more: seq<Step>;
      more, t := FansAll(u, i);
      GoesOnTwice(s, [Publish], u, more, t);
      steps := [Publish] + more;
    }
  }

  lemma StoreSame(s: System, ev: Event, i: nat)
    requires Enabled(s, Store(ev)) && i < |s.streams|
    ensures var t := Next(s, Store(ev)); SameStream(s, t, i) && t.log == s.log + [ev]
  {
  }

  // One more event, and all of it fanned out.
  lemma GoesFurther(s: System, i: nat) returns (steps: seq<Step>, t: System)
    requires Inv(s) && i < |s.streams| && !s.streams[i].registered
    ensures GoesOn(s, steps, t) && Inv(t) && SameStream(s, t, i) && |t.log| == |s.log| + 1 && Quiet(t)
  {
    var first, u := FallsQuiet(s, i);
    var ev := Event(|u.log| + 1, 0, UnknownEvent);
    var v := Next(u, Store(ev));
    StepKeeps(u, Store(ev));
    OneStep(u, Store(ev));
    StoreSame(u, ev, i);
    hide Next, Inv, Enabled;
    var more: seq<Step>;
    more, t := FallsQuiet(v, i);
    GoesOnTwice(u, [Store(ev)], v, more, t);
    GoesOnTwice(s, first, u, [Store(ev)] + more, t);
    steps := first + ([Store(ev)] + more);
  }

  lemma EndedStream(s: System, i: nat)
    requires Inv(s) && i < |s.streams| && s.streams[i].endedAt.Some?
    ensures !s.streams[i].registered && !s.streams[i].dropped
    ensures forall ev :: ev in s.streams[i].queue ==> ev.seqNo <= |s.log|
  {
    assert StreamOk(s.streams[i], s.log, s.fanned);
    hide Fold, ConnOk, StreamsOk, HoldsPrefix;
  }

  lemma UnheardLast(s: System, t: System, i: nat)
    requires Inv(s) && Inv(t) && SameStream(s, t, i) && |t.log| == |s.log| + 1 && Quiet(t)
    requires s.streams[i].endedAt.Some?
    ensures !Heard(t, i)
  {
    EndedStream(s, i);
    LogIsOk(s);
    var m := |t.log| - 1;
    assert t.log[m].seqNo == m + 1 by { hide Fold, ConnOk, StreamsOk, HoldsPrefix; }
    hide Inv, Fold;
    assert t.log[m] !in t.streams[i].queue;
  }

  // An attachment hears of every later event, or is told to attach again, for as
  // long as its actor goes on; once that has ended, later events can pass it by
  // with nothing said.
  lemma HeardIffActorGoesOn(s: System, steps: seq<Step>, t: System, i: nat)
    requires Init(s) && Reachable(s, steps, t) && t.live == Some(i)
    ensures i < |t.streams|
    ensures StaysHeard(t, i) <==> t.streams[i].endedAt.None?
  {
    hide *;
    InitHolds(s);
    RunKeeps(s, steps, t);
    LiveIsReady(t);
    if t.streams[i].endedAt.None? {
      OnStaysHeard(t, i);
    } else {
      EndedGoesUnheard(t, i);
    }
  }

  lemma OnStaysHeard(s: System, i: nat)
    requires Inv(s) && s.live == Some(i) && i < |s.streams| && s.streams[i].endedAt.None?
    ensures StaysHeard(s, i)
  {
    hide Inv, Heard;
    forall steps, t | GoesOn(s, steps, t) ensures Heard(t, i) {
      StaysOn(s, steps, t, i);
      OnIsHeard(t, i);
    }
  }

  lemma EndedGoesUnheard(s: System, i: nat)
    requires Inv(s) && i < |s.streams| && s.streams[i].endedAt.Some?
    ensures !StaysHeard(s, i)
  {
    hide Inv, Heard;
    EndedStream(s, i);
    var steps, t := GoesFurther(s, i);
    UnheardLast(s, t, i);
  }

  // ---- Such a run ----

  lemma {:induction false} ReachMore(s: System, steps: seq<Step>, t: System, step: Step)
    requires Reachable(s, steps, t) && Enabled(t, step)
    ensures Reachable(s, steps + [step], Next(t, step))
    decreases |steps|
  {
    hide Next, Enabled;
    if steps == [] {
      assert (steps + [step])[1..] == [];
      assert Reachable(Next(s, step), [], Next(t, step));
    } else {
      ReachMore(Next(s, steps[0]), steps[1..], t, step);
      assert (steps + [step])[0] == steps[0] && (steps + [step])[1..] == steps[1..] + [step];
    }
  }

  // A new thread, and one attachment to it.
  function Alone(threadId: string, log: seq<Event>, head: nat, fanned: nat, x: Option<Stream>, conn: Conn, ended: bool): System {
    System(threadId, log, head, fanned, if x.Some? then [x.value] else [],
           if x.Some? && conn.Ready? then Some(0) else None, conn, New(threadId), if ended then {0} else {})
  }

  predicate Goes(s: System, step: Step, t: System) { Enabled(s, step) && Next(s, step) == t }

  const WAITING := Some(Stream([], true, false, false, 0, None))
  const SERVED := Some(Stream([], true, false, true, 0, None))
  const CLOSED := Some(Stream([], false, false, true, 0, Some(0)))

  lemma Subscribes(id: string)
    ensures Goes(Alone(id, [], 0, 0, None, Ready, false), BeginAttach(Some(0)),
                 Alone(id, [], 0, 0, WAITING, Subscribed(Some(0)), false))
    ensures Goes(Alone(id, [], 0, 0, WAITING, Subscribed(Some(0)), false), ReadHead,
                 Alone(id, [], 0, 0, WAITING, Decided(Some(0), true), false))
  {
    hide Apply, Fold;
  }

  lemma Synchronizes(id: string)
    ensures Goes(Alone(id, [], 0, 0, WAITING, Decided(Some(0), true), false), ReadEvents,
                 Alone(id, [], 0, 0, WAITING, Holding([], 0), false))
    ensures Goes(Alone(id, [], 0, 0, WAITING, Holding([], 0), false), Synchronize, Alone(id, [], 0, 0, SERVED, Ready, false))
  {
    hide Apply, Fold;
  }

  lemma Ends(id: string, ev: Event)
    requires ev.seqNo == 1
    ensures Goes(Alone(id, [], 0, 0, SERVED, Ready, false), EndActor, Alone(id, [], 0, 0, CLOSED, Ready, true))
    ensures Goes(Alone(id, [], 0, 0, CLOSED, Ready, true), Store(ev), Alone(id, [ev], 0, 0, CLOSED, Ready, true))
  {
    hide Apply, Fold;
  }

  lemma GoesUnseen(id: string, ev: Event)
    ensures Goes(Alone(id, [ev], 0, 0, CLOSED, Ready, true), Publish, Alone(id, [ev], 1, 0, CLOSED, Ready, true))
    ensures Goes(Alone(id, [ev], 1, 0, CLOSED, Ready, true), Fan, Alone(id, [ev], 1, 1, CLOSED, Ready, true))
  {
    hide Apply, Fold;
  }

  lemma MoreSteps(s: System, steps: seq<Step>, t: System, a: Step, u: System, b: Step, v: System)
    requires Reachable(s, steps, t) && Goes(t, a, u) && Goes(u, b, v)
    ensures Reachable(s, steps + [a] + [b], v)
  {
    hide Next, Enabled, Reachable;
    ReachMore(s, steps, t, a);
    ReachMore(s, steps + [a], u, b);
  }

  // It falls silent: what it shows is not the thread, it has nothing queued, and
  // no resync can be sent.
  predicate FallenSilent(t: System, i: nat) {
    && t.live == Some(i) && i < |t.streams| && t.streams[i].draining && t.streams[i].queue == [] && Quiet(t)
    && !Enabled(t, TellResync(i)) && t.presenter != Fold(t.threadId, t.log)
  }

  // Attached and synchronized, the actor ends, and the next one stores an event.
  lemma AttachmentFallsSilent(id: string, ev: Event)
    requires ev.seqNo == 1
    ensures exists s, steps, t :: Init(s) && Reachable(s, steps, t) && FallenSilent(t, 0)
  {
    hide *;
    var s, none := Alone(id, [], 0, 0, None, Ready, false), [];
    var t := Alone(id, [ev], 1, 1, CLOSED, Ready, true);
    StartsAlone(id);
    IsSilent(id, ev);
    Subscribes(id);
    Synchronizes(id);
    Ends(id, ev);
    GoesUnseen(id, ev);
    NoSteps(s);
    var s1, s2 := Alone(id, [], 0, 0, WAITING, Subscribed(Some(0)), false), Alone(id, [], 0, 0, WAITING, Decided(Some(0), true), false);
    MoreSteps(s, none, s, BeginAttach(Some(0)), s1, ReadHead, s2);
    var a := none + [BeginAttach(Some(0))] + [ReadHead];
    var s3, s4 := Alone(id, [], 0, 0, WAITING, Holding([], 0), false), Alone(id, [], 0, 0, SERVED, Ready, false);
    MoreSteps(s, a, s2, ReadEvents, s3, Synchronize, s4);
    var b := a + [ReadEvents] + [Synchronize];
    var s5, s6 := Alone(id, [], 0, 0, CLOSED, Ready, true), Alone(id, [ev], 0, 0, CLOSED, Ready, true);
    MoreSteps(s, b, s4, EndActor, s5, Store(ev), s6);
    var c := b + [EndActor] + [Store(ev)];
    MoreSteps(s, c, s6, Publish, Alone(id, [ev], 1, 0, CLOSED, Ready, true), Fan, t);
  }

  lemma NoSteps(s: System)
    ensures Reachable(s, [], s)
  {
  }

  lemma StartsAlone(id: string)
    ensures Init(Alone(id, [], 0, 0, None, Ready, false))
  {
    PrefixSeqNo(id, [], 0);
    assert Fold(id, []) == New(id);
  }

  lemma IsSilent(id: string, ev: Event)
    requires ev.seqNo == 1
    ensures FallenSilent(Alone(id, [ev], 1, 1, CLOSED, Ready, true), 0)
  {
    hide Apply;
    assert [ev][..1] == [ev];
    PrefixSeqNo(id, [ev], 1);
    PrefixSeqNo(id, [], 0);
    assert Fold(id, []) == New(id);
    hide Fold;
  }
}
