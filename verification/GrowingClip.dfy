// A clip read while it is being made (internal/tts/cache.go Pending;
// internal/server/tts_synth.go serveSynthesis, streamGrowing): one writer and
// any number of readers, their steps interleaved at will.
module GrowingClip {
  import opened Prelude
  import opened ByteRange

  type Byte = b: int | 0 <= b < 256

  // ---- The clip ----

  datatype Ending = Growing | Whole | Broken

  datatype Clip = Clip(data: seq<Byte>, ending: Ending)

  datatype Writing = Write(bytes: seq<Byte>) | Finish | Fail

  function AfterWriting(c: Clip, w: Writing): Clip {
    if c.ending != Growing then c
    else
      match w
      case Write(bytes) => c.(data := c.data + bytes)
      case Finish => c.(ending := Whole)
      case Fail => c.(ending := Broken)
  }

  datatype WaitAnswer = Blocked | Ready(size: nat, done: bool) | Failed

  // What waiting for n bytes comes to. Bytes already there are handed over even
  // from a clip that failed.
  function Wait(c: Clip, n: int): WaitAnswer {
    if |c.data| >= n then Ready(|c.data|, c.ending == Whole)
    else if c.ending == Broken then Failed
    else if c.ending == Whole then Ready(|c.data|, true)
    else Blocked
  }

  // ---- A reader ----

  datatype Phase =
    | Opening
    | Waiting
      // Answered by the library from a finished file.
    | Served
    | Partial(first: int, last: int)
    | PartialEnded(first: int, last: int)
    | StreamWaiting
      // What is left of the last answer to a wait.
    | Streaming(size: nat, done: bool)
    | StreamEnded
    | HeadEnded
      // An error status; a connection cut after the body began; a player gone.
    | Refused
    | Aborted
    | Gone

  datatype Reader = Reader(head: bool, range: Range, phase: Phase, body: seq<Byte>)

  datatype Reading = Open | Waited | Copy | Send(n: nat) | Round | Leave

  // 64-bit addition of one.
  function Wrapped(n: int): int { if n > MAX_INT64 then n - 0x1_0000_0000_0000_0000 else n }

  // How much has to be there before the answer can start.
  function Need(range: Range): int {
    match range
    case NoRange => 1
    case FromStart => 1
    case Closed(_, last) => Wrapped(last + 1)
    case Other => MAX_INT64
  }

  const CHUNK_SIZE: nat := 32768

  function AfterOpen(c: Clip, r: Reader): Reader {
    if c.ending == Broken then r.(phase := Refused)
    else if r.head then r.(phase := HeadEnded)
    else r.(phase := Waiting)
  }

  function AfterWait(c: Clip, r: Reader): Reader {
    match Wait(c, Need(r.range))
    case Blocked => r
    case Failed => r.(phase := Refused)
    case Ready(_, done) =>
      if done then r.(phase := Served)
      else if r.range.Closed? then r.(phase := Partial(r.range.first, r.range.last))
      else r.(phase := StreamWaiting)
  }

  function AfterStreamWait(c: Clip, r: Reader): Reader {
    match Wait(c, |r.body| + 1)
    case Blocked => r
    case Failed => r.(phase := Aborted)
    case Ready(size, done) => r.(phase := Streaming(size, done))
  }

  // What a section of the file from first, n long, holds.
  function Section(data: seq<Byte>, first: int, n: int): seq<Byte> {
    if first < 0 || first >= |data| || n <= 0 then [] else data[first..Min(first + n, |data|)]
  }

  function AfterReading(c: Clip, r: Reader, step: Reading): Reader {
    match step
    case Open => if r.phase.Opening? then AfterOpen(c, r) else r
    case Waited =>
      if r.phase.Waiting? then AfterWait(c, r) else if r.phase.StreamWaiting? then AfterStreamWait(c, r) else r
    case Copy =>
      if r.phase.Partial? then
        Reader(r.head, r.range, PartialEnded(r.phase.first, r.phase.last),
               Section(c.data, r.phase.first, Wrapped(r.phase.last - r.phase.first + 1)))
      else r
    case Send(n) =>
      if r.phase.Streaming? && |r.body| + n <= r.phase.size && r.phase.size <= |c.data| && 1 <= n <= CHUNK_SIZE then
        r.(body := r.body + c.data[|r.body|..|r.body| + n])
      else r
    case Round =>
      if r.phase.Streaming? && |r.body| >= r.phase.size then r.(phase := if r.phase.done then StreamEnded else StreamWaiting)
      else r
    case Leave => if r.phase.StreamEnded? || r.phase.PartialEnded? then r else r.(phase := Gone)
  }

  // ---- The invariant ----

  predicate ReaderOk(c: Clip, r: Reader) {
    && (r.range.Closed? ==> 0 <= r.range.first <= r.range.last <= MAX_INT64)
    && match r.phase
       case Opening => r.body == []
       case Waiting => r.body == []
       case Served => c.ending == Whole && r.body == []
       case Partial(first, last) => r.range == Closed(first, last) && r.body == [] && (last < MAX_INT64 ==> last < |c.data|)
       case PartialEnded(first, last) =>
         r.range == Closed(first, last) && (last < MAX_INT64 ==> last < |c.data| && r.body == c.data[first..last + 1])
       case StreamWaiting => r.body <= c.data
       case Streaming(size, done) =>
         |r.body| <= size <= |c.data| && r.body <= c.data && (done ==> c.ending == Whole && size == |c.data|)
       case StreamEnded => c.ending == Whole && r.body == c.data
       case HeadEnded => r.body == []
       case Refused => c.ending == Broken && r.body == []
       case Aborted => c.ending == Broken && r.body <= c.data
       case Gone => r.body <= c.data
  }

  lemma WritingKeeps(c: Clip, r: Reader, w: Writing)
    requires ReaderOk(c, r)
    ensures ReaderOk(AfterWriting(c, w), r)
    ensures c.data <= AfterWriting(c, w).data && (c.ending != Growing ==> AfterWriting(c, w) == c)
  {
  }

  lemma ReadingKeeps(c: Clip, r: Reader, step: Reading)
    requires ReaderOk(c, r)
    ensures ReaderOk(c, AfterReading(c, r, step))
  {
    if step.Send? && AfterReading(c, r, step) != r {
      assert r.body == c.data[..|r.body|];
    }
  }

  // ---- Runs ----

  datatype State = State(clip: Clip, readers: map<nat, Reader>)

  datatype Action = Writer(w: Writing) | Join(id: nat, head: bool, header: string) | Act(id: nat, step: Reading)

  function After(s: State, a: Action): State {
    match a
    case Writer(w) => s.(clip := AfterWriting(s.clip, w))
    case Join(id, head, header) =>
      if id in s.readers then s else s.(readers := s.readers[id := Reader(head, ParseByteRange(header), Opening, [])])
    case Act(id, step) =>
      if id in s.readers then s.(readers := s.readers[id := AfterReading(s.clip, s.readers[id], step)]) else s
  }

  function RunFrom(s: State, actions: seq<Action>): State {
    if actions == [] then s else After(RunFrom(s, actions[..|actions| - 1]), actions[|actions| - 1])
  }

  const EMPTY := State(Clip([], Growing), map[])

  predicate Inv(s: State) { forall id :: id in s.readers ==> ReaderOk(s.clip, s.readers[id]) }

  lemma StepKeeps(s: State, a: Action)
    requires Inv(s)
    ensures Inv(After(s, a))
    ensures s.clip.data <= After(s, a).clip.data
    ensures s.clip.ending != Growing ==> After(s, a).clip == s.clip
  {
    match a
    case Writer(w) =>
      hide ReaderOk;
      forall id | id in s.readers ensures ReaderOk(AfterWriting(s.clip, w), s.readers[id]) {
        WritingKeeps(s.clip, s.readers[id], w);
      }
    case Join(id, head, header) =>
      if ParseByteRange(header).Closed? {
        ClosedInOrder(header);
      }
    case Act(id, step) =>
      hide AfterReading;
      if id in s.readers {
        ReadingKeeps(s.clip, s.readers[id], step);
      }
  }

  lemma {:induction false} RunKeeps(s: State, actions: seq<Action>)
    requires Inv(s)
    ensures var t := RunFrom(s, actions);
            Inv(t) && s.clip.data <= t.clip.data && (s.clip.ending != Growing ==> t.clip == s.clip)
  {
    if actions != [] {
      RunKeeps(s, actions[..|actions| - 1]);
      hide Inv, After;
      StepKeeps(RunFrom(s, actions[..|actions| - 1]), actions[|actions| - 1]);
    }
  }

  // An early answer to a closed range carries exactly those bytes of the clip,
  // whatever is written after it.
  lemma PartialIsExact(before: seq<Action>, later: seq<Action>, id: nat)
    requires var s := RunFrom(EMPTY, before);
             id in s.readers && s.readers[id].phase.PartialEnded? && s.readers[id].phase.last < MAX_INT64
    ensures var r := RunFrom(EMPTY, before).readers[id];
            var data := RunFrom(RunFrom(EMPTY, before), later).clip.data;
            && 0 <= r.phase.first <= r.phase.last < |data|
            && r.range == Closed(r.phase.first, r.phase.last)
            && r.body == data[r.phase.first..r.phase.last + 1]
  {
    RunKeeps(EMPTY, before);
    var s := RunFrom(EMPTY, before);
    assert ReaderOk(s.clip, s.readers[id]);
    hide RunFrom;
    RunKeeps(s, later);
  }

  // What a stream has sent is always a prefix of the clip; it ends cleanly only
  // with the whole of a clip that finished, and is cut only when it failed.
  lemma StreamIsPrefix(before: seq<Action>, later: seq<Action>, id: nat)
    requires id in RunFrom(EMPTY, before).readers
    ensures var r := RunFrom(EMPTY, before).readers[id];
            var clip := RunFrom(RunFrom(EMPTY, before), later).clip;
            && (!r.phase.PartialEnded? ==> r.body <= clip.data)
            && (r.phase.StreamEnded? ==> clip.ending == Whole && r.body == clip.data)
            && (r.phase.Served? ==> clip.ending == Whole)
            && (r.phase.Aborted? || r.phase.Refused? ==> clip.ending == Broken)
  {
    RunKeeps(EMPTY, before);
    var s := RunFrom(EMPTY, before);
    assert ReaderOk(s.clip, s.readers[id]);
    hide RunFrom;
    RunKeeps(s, later);
  }

  // ---- Every reader is answered ----

  predicate IsAnswered(p: Phase) {
    p.Served? || p.PartialEnded? || p.StreamEnded? || p.HeadEnded? || p.Refused? || p.Aborted? || p.Gone?
  }

  function ReadOn(c: Clip, r: Reader, steps: seq<Reading>): Reader
    decreases |steps|
  {
    if steps == [] then r else ReadOn(c, AfterReading(c, r, steps[0]), steps[1..])
  }

  lemma {:induction false} ReadOnTwice(c: Clip, r: Reader, a: seq<Reading>, b: seq<Reading>)
    ensures ReadOn(c, r, a + b) == ReadOn(c, ReadOn(c, r, a), b)
    decreases |a|
  {
    if a == [] {
      assert a + b == b;
    } else {
      ReadOnTwice(c, AfterReading(c, r, a[0]), a[1..], b);
      assert (a + b)[0] == a[0] && (a + b)[1..] == a[1..] + b;
    }
  }

  // What there was at the wait is sent in the end, in as many chunks as it takes.
  lemma {:induction false} SendsAll(c: Clip, r: Reader) returns (steps: seq<Reading>)
    requires ReaderOk(c, r) && r.phase.Streaming?
    ensures var t := ReadOn(c, r, steps); ReaderOk(c, t) && t == r.(body := t.body) && |t.body| == r.phase.size
    decreases r.phase.size - |r.body|
  {
    if |r.body| == r.phase.size {
      return [];
    }
    var n := Min(r.phase.size - |r.body|, CHUNK_SIZE);
    var next := AfterReading(c, r, Send(n));
    ReadingKeeps(c, r, Send(n));
    assert |next.body| == |r.body| + n;
    var more := SendsAll(c, next);
    steps := [Send(n)] + more;
    assert steps[1..] == more;
  }

  // A stream of an ended clip: one wait and all there is, and at most one more.
  lemma {:induction false} StreamAnswers(c: Clip, r: Reader) returns (steps: seq<Reading>)
    requires ReaderOk(c, r) && r.phase.StreamWaiting? && c.ending != Growing
    ensures IsAnswered(ReadOn(c, r, steps).phase)
    decreases |c.data| - |r.body|
  {
    var next := AfterReading(c, r, Waited);
    ReadingKeeps(c, r, Waited);
    if !next.phase.Streaming? {
      steps := [Waited];
      assert steps[1..] == [];
      return;
    }
    var sends := SendsAll(c, next);
    var sent := ReadOn(c, next, sends);
    var turned := AfterReading(c, sent, Round);
    ReadingKeeps(c, sent, Round);
    var more := [];
    if turned.phase.StreamWaiting? {
      more := StreamAnswers(c, turned);
    }
    steps := [Waited] + (sends + ([Round] + more));
    assert steps[1..] == sends + ([Round] + more) && ([Round] + more)[1..] == more;
    ReadOnTwice(c, next, sends, [Round] + more);
  }

  // No reader is left waiting on a clip that has ended: its own steps take it to
  // an answer.
  lemma EndedClipAnswers(c: Clip, r: Reader) returns (steps: seq<Reading>)
    requires ReaderOk(c, r) && c.ending != Growing
    ensures IsAnswered(ReadOn(c, r, steps).phase)
  {
    var now, first := r, [];
    if r.phase.Opening? {
      now, first := AfterReading(c, r, Open), [Open];
      ReadingKeeps(c, r, Open);
      assert first[1..] == [];
    }
    var rest := OpenedAnswers(c, now);
    ReadOnTwice(c, r, first, rest);
    steps := first + rest;
  }

  lemma OpenedAnswers(c: Clip, r: Reader) returns (steps: seq<Reading>)
    requires ReaderOk(c, r) && c.ending != Growing && !r.phase.Opening?
    ensures IsAnswered(ReadOn(c, r, steps).phase)
  {
    steps := [];
    if r.phase.Waiting? {
      var next := AfterReading(c, r, Waited);
      ReadingKeeps(c, r, Waited);
      var more := ChosenAnswers(c, next);
      steps := [Waited] + more;
      assert steps[1..] == more;
    } else {
      steps := ChosenAnswers(c, r);
    }
  }

  lemma ChosenAnswers(c: Clip, r: Reader) returns (steps: seq<Reading>)
    requires ReaderOk(c, r) && c.ending != Growing && !r.phase.Opening? && !r.phase.Waiting?
    ensures IsAnswered(ReadOn(c, r, steps).phase)
  {
    steps := [];
    if r.phase.StreamWaiting? {
      steps := StreamAnswers(c, r);
    } else if r.phase.Streaming? {
      var sends := SendsAll(c, r);
      var sent := ReadOn(c, r, sends);
      var turned := AfterReading(c, sent, Round);
      ReadingKeeps(c, sent, Round);
      var more := [];
      if turned.phase.StreamWaiting? {
        more := StreamAnswers(c, turned);
      }
      assert ([Round] + more)[1..] == more;
      ReadOnTwice(c, r, sends, [Round] + more);
      steps := sends + ([Round] + more);
    } else if r.phase.Partial? {
      steps := [Copy];
      assert steps[1..] == [];
    }
  }

  // ---- The largest last byte ----

  // An early answer is as long as its header says exactly when last + 1 fits 64
  // bits: past that the wait asks for nothing, and returns at once.
  lemma PartialLengthIff(c: Clip, r: Reader)
    requires ReaderOk(c, r) && r.range.Closed? && r.phase.Waiting? && |c.data| <= MAX_INT64
    requires AfterWait(c, r).phase.Partial?
    ensures var t := AfterReading(c, AfterWait(c, r), Copy);
            |t.body| == r.range.last - r.range.first + 1 <==> r.range.last < MAX_INT64
  {
  }

  // Bytes 0 to 2^63 - 1 of a clip that has not begun are answered with none.
  lemma LargestLastIsShort(header: string)
    requires ParseByteRange(header) == Closed(0, MAX_INT64)
    ensures var s := RunFrom(EMPTY, [Join(0, false, header), Act(0, Open), Act(0, Waited), Act(0, Copy)]);
            0 in s.readers && s.readers[0].phase == PartialEnded(0, MAX_INT64) && s.readers[0].body == []
  {
    var a := [Join(0, false, header), Act(0, Open), Act(0, Waited), Act(0, Copy)];
    assert a[..3][..2] == a[..2] && a[..2][..1] == a[..1] && a[..1][..0] == [];
    hide ParseByteRange;
    assert RunFrom(EMPTY, a[..1]) == After(EMPTY, a[0]);
    assert RunFrom(EMPTY, a[..2]) == After(RunFrom(EMPTY, a[..1]), a[1]);
    assert RunFrom(EMPTY, a[..3]) == After(RunFrom(EMPTY, a[..2]), a[2]);
  }

  // ---- The objects ----

  // tts.Pending. end does nothing the second time, so the first ending stays.
  class Pending {
    var data: seq<Byte>
    var done: bool
    var failed: bool

    function Value(): Clip
      reads this
    {
      Clip(data, if !done then Growing else if failed then Broken else Whole)
    }

    constructor ()
      ensures Value() == EMPTY.clip
    {
      data := [];
      done := false;
      failed := false;
    }

    // Only ever called by the one writer, before it ends the clip.
    method Write(bytes: seq<Byte>)
      requires !done
      modifies this
      ensures Value() == AfterWriting(old(Value()), Writing.Write(bytes))
    {
      data := data + bytes;
    }

    method End(fail: bool)
      modifies this
      ensures Value() == AfterWriting(old(Value()), if fail then Fail else Finish)
    {
      if done {
        return;
      }
      done := true;
      failed := fail;
    }

    // One look of Wait's loop: Blocked is where it sleeps until a change.
    method Look(n: int) returns (answer: WaitAnswer)
      ensures answer == Wait(Value(), n)
    {
      var size, whole := |data|, done && !failed;
      if size >= n {
        return Ready(size, whole);
      }
      if done && failed {
        return WaitAnswer.Failed;
      }
      if whole {
        return Ready(size, whole);
      }
      answer := Blocked;
    }
  }

  // One request being answered from a clip.
  class Response {
    const head: bool
    const range: Range
    const clip: Pending
    var phase: Phase
    var body: seq<Byte>

    function Value(): Reader
      reads this
    {
      Reader(head, range, phase, body)
    }

    constructor (clip: Pending, head: bool, header: string)
      ensures this.clip == clip && Value() == Reader(head, ParseByteRange(header), Opening, [])
    {
      this.clip := clip;
      this.head := head;
      range := ParseByteRange(header);
      phase := Opening;
      body := [];
    }

    method OpenFile()
      requires phase.Opening?
      modifies this
      ensures Value() == AfterReading(clip.Value(), old(Value()), Open)
    {
      if clip.done && clip.failed {
        phase := Refused;
      } else if head {
        phase := HeadEnded;
      } else {
        phase := Waiting;
      }
    }

    method AwaitStart()
      requires phase.Waiting?
      modifies this
      ensures Value() == AfterReading(clip.Value(), old(Value()), Waited)
    {
      var answer := clip.Look(Need(range));
      match answer
      case Blocked =>
      case Failed =>
        phase := Refused;
      case Ready(_, done) =>
        if done {
          phase := Served;
        } else if range.Closed? {
          phase := Partial(range.first, range.last);
        } else {
          phase := StreamWaiting;
        }
    }

    // One turn of streamGrowing: wait for a byte more, send all there was at
    // that moment in chunks, and end once the whole clip is sent.
    method StreamTurn()
      requires phase.StreamWaiting? && ReaderOk(clip.Value(), Value())
      modifies this
      ensures ReaderOk(clip.Value(), Value())
      ensures match Wait(clip.Value(), |old(body)| + 1)
              case Blocked => Value() == old(Value())
              case Failed => phase == Aborted && body == old(body)
              case Ready(size, done) => body == clip.data[..size] && phase == if done then StreamEnded else StreamWaiting
    {
      var answer := clip.Look(|body| + 1);
      match answer
      case Blocked =>
      case Failed =>
        phase := Aborted;
      case Ready(size, done) =>
        while |body| < size
          invariant |body| <= size <= |clip.data| && body == clip.data[..|body|] && phase.StreamWaiting?
        {
          var n := Min(CHUNK_SIZE, size - |body|);
          body := body + clip.data[|body|..|body| + n];
        }
        if done {
          phase := StreamEnded;
        }
    }
  }
}
