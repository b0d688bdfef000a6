// The fold from a thread's event log to the state a presenter renders
// (internal/projection/state.go), on values. LiveState holds the same state on
// the heap and is proved to compute this function.
module Projection {
  import opened Prelude
  import opened Protocol

  datatype Phase = Idle | InTurn | Closed | Provisioning | Cleaning | ProvisionFailed | CleanupFailed

  datatype ItemKind = NoItemKind | Message | Tool | Notice | ArtefactItem | CardItem

  // One entry in the timeline. A field its kind does not use stays at zero.
  datatype Item = Item(
    id: string,
    kind: ItemKind,
    turnId: string,
    parentId: string,
    receivedAt: int,
    role: string,
    contentKind: string,
    text: string,
    images: seq<Image>,
    toolKind: string,
    title: string,
    status: Status,
    input: Raw,
    content: seq<ToolContent>,
    noticeKind: string,
    trigger: string,
    preTokens: int,
    postTokens: int,
    artefactId: string,
    mediaType: string,
    size: int,
    card: Raw,
    outcome: Raw)

  function NewItem(id: string): Item {
    Item(id, NoItemKind, "", "", 0, "", "", "", [], "", "", Unset, "", [], "", "", 0, 0, "", "", 0, "", "")
  }

  datatype Job = Job(
    id: string,
    toolCallId: string,
    parentJobId: string,
    depth: int,
    kind: JobKind,
    taskType: string,
    name: string,
    role: string,
    workflowName: string,
    status: JobStatus,
    activity: string,
    usage: JobUsage,
    error: string,
    outputFile: string,
    backgrounded: bool,
    hidden: bool,
    turnId: string,
    startedAt: int,
    finishedAt: int)

  function NewJob(id: string, at: int, turnId: string): Job {
    Job(id, "", "", 0, NoKind, "", "", "", "", JobRunning, "", JobUsage(0, 0, 0, 0.0), "", "", false, false, turnId, at, 0)
  }

  datatype Turn = Turn(
    id: string,
    prompt: string,
    images: seq<Image>,
    stopReason: string,
    error: string,
    failure: string,
    done: bool,
    recovery: Option<Recovery>,
    diff: Option<Raw>,
    startedAt: int,
    finishedAt: int)

  datatype Queued = Queued(queueId: string, prompt: string, images: seq<Image>, queuedAt: int, sent: bool)

  datatype Permission = Permission(
    requestId: string,
    toolCallId: string,
    toolName: string,
    title: string,
    input: Raw,
    options: seq<PermissionOption>)

  datatype Elicitation = Elicitation(requestId: string, prompt: string, schema: Raw, card: Raw)

  datatype Artefact = Artefact(shown: ShownArtefact, shownAt: int)

  datatype Workspace = Workspace(
    phase: string,
    projectId: string,
    projectRoot: string,
    mode: string,
    branch: string,
    baseRef: string,
    hook: string,
    command: string,
    output: string,
    error: string,
    exitCode: int,
    startedAt: int,
    durationMs: int,
    resources: Raw,
    deleteAfterCleanup: bool)

  const NO_WORKSPACE := Workspace("", "", "", "", "", "", "", "", "", "", 0, 0, 0, "", false)

  // The fields of a state that hold no slice Apply writes into.
  datatype Core = Core(
    threadId: string,
    seqNo: int,
    cwd: string,
    harness: string,
    model: string,
    mode: string,
    effort: string,
    title: string,
    harnessSessionId: string,
    phase: Phase,
    closed: bool,
    workspace: Workspace,
    itemsBefore: int,
    plan: seq<PlanEntry>,
    usage: Raw)

  datatype State = State(
    core: Core,
    items: seq<Item>,
    turns: seq<Turn>,
    jobs: seq<Job>,
    pending: seq<Permission>,
    elicitations: seq<Elicitation>,
    queued: seq<Queued>,
    artefacts: seq<Artefact>,
    scheduled: seq<Scheduled>)

  function New(threadId: string): State {
    State(Core(threadId, 0, "", "", "", "", "", "", "", Idle, false, NO_WORKSPACE, 0, [], ""),
          [], [], [], [], [], [], [], [])
  }

  // ---- Lookups ----

  // The position of the item called id, |items| when there is none. The source
  // reads it off its id-to-position index.
  function Position(items: seq<Item>, id: string): (i: nat)
    ensures i <= |items|
    ensures i < |items| ==> items[i].id == id
    ensures forall k :: 0 <= k < i ==> items[k].id != id
  {
    if items == [] then 0
    else if items[0].id == id then 0
    else
      assert forall k :: 0 < k < |items| ==> items[k] == items[1..][k - 1];
      1 + Position(items[1..], id)
  }

  predicate HasItem(items: seq<Item>, id: string) { Position(items, id) < |items| }

  // Writes the item called id, adding it at the end when there is none.
  function Upsert(items: seq<Item>, id: string, at: int, w: ItemWrite): seq<Item> {
    var i := Position(items, id);
    if i < |items| then items[i := Write(items[i], at, w)] else items + [Write(NewItem(id), at, w)]
  }

  function JobPosition(jobs: seq<Job>, id: string): (i: nat)
    ensures i <= |jobs|
    ensures i < |jobs| ==> jobs[i].id == id
    ensures forall k :: 0 <= k < i ==> jobs[k].id != id
  {
    if jobs == [] then 0
    else if jobs[0].id == id then 0
    else
      assert forall k :: 0 < k < |jobs| ==> jobs[k] == jobs[1..][k - 1];
      1 + JobPosition(jobs[1..], id)
  }

  function QueuePosition(queued: seq<Queued>, id: string): (i: nat)
    ensures i <= |queued|
    ensures i < |queued| ==> queued[i].queueId == id
    ensures forall k :: 0 <= k < i ==> queued[k].queueId != id
  {
    if queued == [] then 0
    else if queued[0].queueId == id then 0
    else
      assert forall k :: 0 < k < |queued| ==> queued[k] == queued[1..][k - 1];
      1 + QueuePosition(queued[1..], id)
  }

  function RemoveQueued(queued: seq<Queued>, id: string): seq<Queued> {
    Filter((q: Queued) => q.queueId != id, queued)
  }

  // The id of the last turn that is not done, "" when every turn is.
  function OpenTurn(turns: seq<Turn>): string {
    if turns == [] then ""
    else if !turns[|turns| - 1].done then turns[|turns| - 1].id
    else OpenTurn(turns[..|turns| - 1])
  }

  // ---- Item writes ----

  // What an event writes into one item: a prompt as the user message it is, or
  // what the event itself carries.
  datatype ItemWrite = UserPrompt(prompt: string, images: seq<Image>, turnId: string) | Carried(payload: Payload)

  predicate WritesItem(p: Payload) {
    p.MessageChunk? || p.ToolCallStarted? || p.ToolCallUpdated? || p.ContextCompacted? || p.ThreadAccountChanged? ||
    p.ArtefactShown? || p.ElicitationRequested?
  }

  function Stamp(it: Item, at: int): Item {
    if it.receivedAt == 0 then it.(receivedAt := at) else it
  }

  function WithParent(it: Item, parentId: string): Item {
    if parentId != "" then it.(parentId := parentId) else it
  }

  // A tool update but for the content it adds.
  function UpdateTool(it: Item, status: Status, title: string, input: Raw, parent: string): Item {
    WithParent(it.(kind := Tool,
                   status := if status != Unset then status else it.status,
                   title := if title != "" then title else it.title,
                   input := if input != "" then input else it.input),
               parent)
  }

  function WritePayload(it: Item, p: Payload): Item {
    match p
    case MessageChunk(turn, role, kind, _, delta, parent) =>
      WithParent(it.(kind := Message, role := role, contentKind := kind, turnId := turn, text := it.text + delta), parent)
    case ToolCallStarted(turn, _, kind, title, status, input, parent) =>
      WithParent(it.(kind := Tool, turnId := turn, toolKind := kind, title := title, status := status, input := input),
                 parent)
    case ToolCallUpdated(_, status, title, content, input, parent) =>
      UpdateTool(it, status, title, input, parent).(content := it.content + content)
    case ContextCompacted(trigger, preTokens, postTokens) =>
      it.(kind := Notice, noticeKind := "compaction", trigger := trigger, preTokens := preTokens, postTokens := postTokens)
    case ThreadAccountChanged(to, toName) =>
      it.(kind := Notice, noticeKind := "account", title := if toName == "" then to else toName)
    case ArtefactShown(a) =>
      it.(kind := ArtefactItem, turnId := a.turnId, title := a.name, artefactId := a.artefactId, mediaType := a.mediaType,
          size := a.size)
    case ElicitationRequested(_, turn, _, _, card) =>
      it.(kind := CardItem, turnId := turn, card := card, status := Pending)
    case _ => it
  }

  function Write(it: Item, at: int, w: ItemWrite): Item {
    match w
    case UserPrompt(prompt, images, turnId) =>
      Stamp(it, at).(kind := Message, role := "user", contentKind := "text", text := prompt, images := images,
                     turnId := turnId)
    case Carried(p) => WritePayload(Stamp(it, at), p)
  }

  // The item an event that carries its own write names.
  function WrittenId(ev: Event): string {
    match ev.payload
    case MessageChunk(_, _, _, id, _, _) => id
    case ToolCallStarted(_, id, _, _, _, _, _) => id
    case ToolCallUpdated(id, _, _, _, _, _) => id
    case ContextCompacted(_, _, _) => "compact:" + Decimal(ev.seqNo)
    case ThreadAccountChanged(_, _) => "account:" + Decimal(ev.seqNo)
    case ArtefactShown(a) => "artefact:" + a.artefactId + "@" + Decimal(ev.seqNo)
    case ElicitationRequested(id, _, _, _, _) => CardId(id)
    case _ => ""
  }

  // An upload shows on the message that carried it, and an elicitation that is
  // no card is not part of the timeline.
  predicate AddsLine(p: Payload) {
    WritesItem(p) && (p.ArtefactShown? ==> p.artefact.source != ARTEFACT_FROM_UPLOAD) &&
    (p.ElicitationRequested? ==> p.card != "")
  }

  function WriteItems(items: seq<Item>, ev: Event): seq<Item> {
    if AddsLine(ev.payload) then Upsert(items, WrittenId(ev), ev.timestamp, Carried(ev.payload)) else items
  }

  // ---- Apply ----

  function Digits(n: nat): string {
    if n < 10 then ["0123456789"[n]] else Digits(n / 10) + ["0123456789"[n % 10]]
  }

  function Decimal(n: int): string { if n < 0 then "-" + Digits(-n) else Digits(n) }

  function Truncate(s: string, n: nat): string {
    if |s| <= n then s else s[..n] + "\U{2026}"
  }

  function CountPdfs(images: seq<Image>): nat {
    if images == [] then 0
    else CountPdfs(images[1..]) + (if images[0].mediaType == "application/pdf" then 1 else 0)
  }

  function AttachmentTitle(images: seq<Image>): string {
    var pdfs, n := CountPdfs(images), |images|;
    var noun := if pdfs == 0 then "image" else if pdfs == n then "PDF" else "attachment";
    if n == 1 then "1 " + noun else Decimal(n) + " " + noun + "s"
  }

  function TitleFor(title: string, prompt: string, images: seq<Image>): string {
    if title != "" then title
    else if Truncate(prompt, 60) == "" && images != [] then AttachmentTitle(images)
    else Truncate(prompt, 60)
  }

  function Activate(c: Core): Core { if c.phase == Idle then c.(phase := InTurn) else c }

  // A turn started from a queued prompt takes from the entry what the event
  // does not carry itself.
  function StartPrompt(s: State, p: TurnStart): string {
    var i := QueuePosition(s.queued, p.queueId);
    if p.queueId != "" && i < |s.queued| && p.prompt == "" then s.queued[i].prompt else p.prompt
  }

  function StartImages(s: State, p: TurnStart): seq<Image> {
    var i := QueuePosition(s.queued, p.queueId);
    if p.queueId != "" && i < |s.queued| && p.images == [] then s.queued[i].images else p.images
  }

  function MarkSent(sc: Scheduled, p: TurnStart): Scheduled {
    if sc.id == p.queueId then sc.(status := "sent", turnId := p.turnId, revision := sc.revision + 1) else sc
  }

  function NewTurn(p: TurnStart, prompt: string, images: seq<Image>, at: int): Turn {
    Turn(p.turnId, prompt, images, "", "", "", false, p.recovery, None, at, 0)
  }

  function StartTurn(s: State, p: TurnStart, at: int): State {
    var prompt, images := StartPrompt(s, p), StartImages(s, p);
    s.(core := s.core.(phase := InTurn, title := TitleFor(s.core.title, prompt, images)),
       queued := if p.queueId != "" then RemoveQueued(s.queued, p.queueId) else s.queued,
       scheduled := if p.queueId != "" then MapSeq((sc: Scheduled) => MarkSent(sc, p), s.scheduled) else s.scheduled,
       turns := s.turns + [NewTurn(p, prompt, images, at)],
       items := if prompt != "" || images != []
                then Upsert(s.items, "prompt:" + p.turnId, at, UserPrompt(prompt, images, p.turnId))
                else s.items)
  }

  function MarkFailed(sc: Scheduled, turnId: string, error: string): Scheduled {
    if sc.turnId == turnId then sc.(status := "failed", error := error, revision := sc.revision + 1) else sc
  }

  function CloseTurn(t: Turn, p: Payload, at: int): Turn
    requires p.TurnFinished?
  {
    if t.id == p.turnId
    then t.(stopReason := p.stopReason, error := p.turnError, failure := p.failure, done := true, finishedAt := at)
    else t
  }

  // The tool calls that stand for a live job.
  function LiveCalls(jobs: seq<Job>): set<string> {
    set j | j in jobs && !JobDone(j.status) && j.toolCallId != "" :: j.toolCallId
  }

  predicate InFlight(it: Item) { it.status == InProgress || it.status == Pending }

  function CancelTool(it: Item, turnId: string, live: set<string>): Item {
    if it.kind == Tool && InFlight(it) && (it.turnId == turnId || it.turnId == "") && it.id !in live
    then it.(status := Cancelled)
    else it
  }

  predicate Matches(turns: seq<Turn>, turnId: string) { OpenTurn(turns) == "" || turnId == OpenTurn(turns) }

  function FinishTurn(s: State, p: Payload, at: int): State
    requires p.TurnFinished?
  {
    var live := LiveCalls(s.jobs);
    var s1 := s.(
      scheduled := if p.stopReason == STOP_ERROR
                   then MapSeq((sc: Scheduled) => MarkFailed(sc, p.turnId, p.turnError), s.scheduled)
                   else s.scheduled,
      turns := MapSeq((t: Turn) => CloseTurn(t, p, at), s.turns));
    if Matches(s.turns, p.turnId)
    then s1.(core := s1.core.(phase := Idle), items := MapSeq((it: Item) => CancelTool(it, p.turnId, live), s.items))
    else s1
  }

  function Inject(s: State, p: Payload, at: int): State
    requires p.PromptInjected?
  {
    var i := QueuePosition(s.queued, p.injectedId);
    if i == |s.queued| then s
    else
      var q := s.queued[i];
      s.(queued := RemoveQueued(s.queued, p.injectedId),
         items := Upsert(s.items, "prompt:" + p.injectedId, at, UserPrompt(q.prompt, q.images, p.intoTurn)))
  }

  function Schedule(scheduled: seq<Scheduled>, p: Scheduled): seq<Scheduled> {
    if scheduled == [] then [p]
    else if scheduled[0].id == p.id then [p] + scheduled[1..]
    else [scheduled[0]] + Schedule(scheduled[1..], p)
  }

  function MergeUsage(u: JobUsage, p: JobUsage): JobUsage {
    JobUsage(if p.totalTokens > 0 then p.totalTokens else u.totalTokens,
             if p.toolUses > 0 then p.toolUses else u.toolUses,
             if p.durationMs > 0 then p.durationMs else u.durationMs,
             if p.cost > 0.0 then p.cost else u.cost)
  }

  // One job row merged field by field, before the finish rules.
  function MergeJob(j: Job, p: JobPayload, parentDepth: Option<int>): Job {
    var kind1 := if p.kind != NoKind then p.kind else j.kind;
    j.(toolCallId := if p.toolCallId != "" then p.toolCallId else j.toolCallId,
       parentJobId := if p.parentJobId != "" then p.parentJobId else j.parentJobId,
       depth := if parentDepth.Some? then parentDepth.value + 1 else j.depth,
       kind := if kind1 == NoKind then ClassifyJob(p.taskType) else kind1,
       taskType := if p.taskType != "" then p.taskType else j.taskType,
       name := if p.name != "" then p.name else j.name,
       role := if p.role != "" then p.role else j.role,
       workflowName := if p.workflowName != "" then p.workflowName else j.workflowName,
       activity := if p.activity != "" then p.activity else j.activity,
       usage := if p.usage.Some? then MergeUsage(j.usage, p.usage.value) else j.usage,
       error := if p.error != "" then p.error else j.error,
       outputFile := if p.outputFile != "" then p.outputFile else j.outputFile,
       backgrounded := if p.backgrounded.Some? then p.backgrounded.value else j.backgrounded,
       hidden := p.hidden || j.hidden,
       status := if p.status != JobUnset then p.status else j.status)
  }

  function EndJob(j: Job, finished: bool, at: int): Job {
    var j1 := if finished && !JobDone(j.status) then j.(status := JobCompleted) else j;
    if (finished || JobDone(j.status)) && j1.finishedAt == 0 then j1.(finishedAt := at) else j1
  }

  // How a finished job settles the tool call that stood for it.
  function SettleTool(it: Item, job: JobStatus): Item {
    if !InFlight(it) then it
    else it.(status := if job == JobFailed then Failed else if job == JobCompleted then Completed else Cancelled)
  }

  function SettleItems(items: seq<Item>, j: Job): seq<Item> {
    var i := Position(items, j.toolCallId);
    if j.toolCallId != "" && i < |items| then items[i := SettleTool(items[i], j.status)] else items
  }

  // The jobs with one for id, as its first row creates it.
  function WithJob(s: State, id: string, at: int): seq<Job> {
    if JobPosition(s.jobs, id) < |s.jobs| then s.jobs else s.jobs + [NewJob(id, at, OpenTurn(s.turns))]
  }

  function ParentDepth(jobs: seq<Job>, parentJobId: string): Option<int> {
    var i := JobPosition(jobs, parentJobId);
    if parentJobId != "" && i < |jobs| then Some(jobs[i].depth) else None
  }

  // The job p is about as its row leaves it.
  function UpdatedJob(s: State, p: JobPayload, finished: bool, at: int): Job {
    var jobs := WithJob(s, p.jobId, at);
    EndJob(MergeJob(jobs[JobPosition(s.jobs, p.jobId)], p, ParentDepth(jobs, p.parentJobId)), finished, at)
  }

  function ApplyJob(s: State, p: JobPayload, finished: bool, at: int): State {
    if p.jobId == "" then s
    else
      var j := UpdatedJob(s, p, finished, at);
      s.(jobs := WithJob(s, p.jobId, at)[JobPosition(s.jobs, p.jobId) := j],
         items := if finished then SettleItems(s.items, j) else s.items)
  }

  function ShowArtefact(artefacts: seq<Artefact>, a: Artefact): seq<Artefact> {
    if artefacts == [] then [a]
    else if artefacts[0].shown.artefactId == a.shown.artefactId then [a] + artefacts[1..]
    else [artefacts[0]] + ShowArtefact(artefacts[1..], a)
  }

  function CardId(requestId: string): string { "card:" + requestId }

  function StatusOf(text: string): Status {
    if text == "pending" then Pending
    else if text == "in_progress" then InProgress
    else if text == "completed" then Completed
    else if text == "failed" then Failed
    else if text == "cancelled" then Cancelled
    else OtherStatus(text)
  }

  function CardResult(p: Payload): Status
    requires p.ElicitationResolved?
  {
    if p.result != "" then StatusOf(p.result)
    else if p.action == "accept" then OtherStatus("saved")
    else if p.action == "decline" then OtherStatus("declined")
    else Cancelled
  }

  function AnswerCard(items: seq<Item>, p: Payload): seq<Item>
    requires p.ElicitationResolved?
  {
    var i := Position(items, CardId(p.answeredId));
    if i < |items| && items[i].kind == CardItem
    then items[i := items[i].(status := CardResult(p), outcome := if p.value != "" then p.value else items[i].outcome)]
    else items
  }

  // The events that write only core fields.
  predicate TouchesCoreOnly(p: Payload) {
    p.ThreadCreated? || p.ThreadConfigChanged? || p.ThreadClosed? || p.WorkspaceRequested? || p.WorkspaceHookStarted? ||
    p.WorkspaceHookOutput? || p.WorkspaceHookFinished? || p.WorkspaceReady? || p.WorkspaceFailed? ||
    p.WorkspaceCleanupStarted? || p.WorkspaceCleanupFailed? || p.WorkspaceCleanupFinished? || p.WorkspaceReleased? ||
    p.PlanUpdated? || p.UsageUpdated? || p.UnknownEvent?
  }

  function ApplyCore(c: Core, p: Payload, at: int): Core
    requires TouchesCoreOnly(p)
  {
    var w := c.workspace;
    match p
    case ThreadCreated(cwd, harness, model, mode, effort, title) =>
      c.(cwd := cwd, harness := harness, model := model, mode := mode, effort := effort, title := title)
    case ThreadConfigChanged(replace, model, mode, effort, title, session) =>
      c.(model := if replace || model != "" then model else c.model,
         mode := if replace || mode != "" then mode else c.mode,
         effort := if effort.Some? then effort.value else c.effort,
         title := if title != "" then title else c.title,
         harnessSessionId := if session != "" then session else c.harnessSessionId)
    case ThreadClosed => c.(closed := true, phase := Closed)
    case WorkspaceRequested(projectId, projectRoot, mode, branch, baseRef) =>
      c.(phase := Provisioning,
         workspace := NO_WORKSPACE.(phase := "provisioning", projectId := projectId, projectRoot := projectRoot,
                                   mode := mode, branch := branch, baseRef := baseRef, startedAt := at))
    case WorkspaceHookStarted(hook, command) =>
      var w1 := w.(hook := hook, command := command);
      if hook == "deprovision" then c.(phase := Cleaning, workspace := w1.(phase := "cleaning"))
      else c.(workspace := w1)
    case WorkspaceHookOutput(stream, chunk) =>
      c.(workspace := w.(output := w.output + (if stream == "stderr" then "[stderr] " else "") + chunk))
    case WorkspaceHookFinished(exitCode, durationMs) =>
      c.(workspace := w.(exitCode := exitCode, durationMs := durationMs))
    case WorkspaceReady(cwd, branch, resources) =>
      c.(cwd := cwd, phase := Idle,
         workspace := w.(branch := branch, resources := resources, phase := "ready", error := ""))
    case WorkspaceFailed(error, exitCode) =>
      c.(phase := ProvisionFailed, workspace := w.(phase := "provision_failed", error := error, exitCode := exitCode))
    case WorkspaceCleanupStarted(purge) =>
      c.(phase := Cleaning, workspace := w.(phase := "cleaning", deleteAfterCleanup := purge))
    case WorkspaceCleanupFailed(error, exitCode) =>
      c.(phase := CleanupFailed, workspace := w.(phase := "cleanup_failed", error := error, exitCode := exitCode))
    case WorkspaceCleanupFinished => c.(workspace := w.(phase := "released"))
    case WorkspaceReleased => c.(workspace := w.(phase := "released"))
    case PlanUpdated(entries) => c.(plan := entries)
    case UsageUpdated(usage) => c.(usage := usage)
    case UnknownEvent => c
  }

  function SetDiff(t: Turn, turnId: string, diff: Raw): Turn {
    if t.id == turnId then t.(diff := Some(diff)) else t
  }

  predicate IsTurnEvent(p: Payload) { p.TurnStarted? || p.TurnFinished? || p.TurnDiff? }

  function ApplyTurn(s: State, p: Payload, at: int): State
    requires IsTurnEvent(p)
  {
    match p
    case TurnStarted(start) => StartTurn(s, start, at)
    case TurnFinished(_, _, _, _) => FinishTurn(s, p, at)
    case TurnDiff(turnId, diff) => s.(turns := MapSeq((t: Turn) => SetDiff(t, turnId, diff), s.turns))
  }

  predicate IsPromptEvent(p: Payload) { p.PromptScheduled? || p.PromptQueued? || p.PromptInjected? || p.PromptDequeued? }

  function ApplyPrompt(s: State, p: Payload, at: int): State
    requires IsPromptEvent(p)
  {
    match p
    case PromptScheduled(sc) => s.(scheduled := Schedule(s.scheduled, sc))
    case PromptQueued(queueId, prompt, images, sent) =>
      s.(queued := s.queued + [Queued(queueId, prompt, images, at, sent)])
    case PromptInjected(_, _) => Inject(s, p, at)
    case PromptDequeued(queueId) => s.(queued := RemoveQueued(s.queued, queueId))
  }

  predicate IsJobEvent(p: Payload) { p.JobStarted? || p.JobUpdated? || p.JobFinished? }

  // Streaming, or a tool starting or going active, while idle means a turn is
  // running that the log did not announce.
  predicate ShowsActivity(p: Payload) {
    p.MessageChunk? || p.ToolCallStarted? || (p.ToolCallUpdated? && p.updStatus == InProgress)
  }

  predicate IsAskEvent(p: Payload) { p.PermissionRequested? || p.PermissionResolved? || p.ElicitationResolved? }

  function ApplyAsk(s: State, p: Payload): State
    requires IsAskEvent(p)
  {
    match p
    case PermissionRequested(requestId, toolCall, toolName, title, input, options) =>
      s.(pending := s.pending + [Permission(requestId, toolCall, toolName, title, input, options)])
    case PermissionResolved(requestId) =>
      s.(pending := Filter((x: Permission) => x.requestId != requestId, s.pending))
    case ElicitationResolved(requestId, _, _, _) =>
      s.(elicitations := Filter((x: Elicitation) => x.requestId != requestId, s.elicitations),
         items := AnswerCard(s.items, p))
  }

  function ApplyWrite(s: State, ev: Event): State {
    var p := ev.payload;
    s.(core := if ShowsActivity(p) then Activate(s.core) else s.core,
       items := WriteItems(s.items, ev),
       artefacts := if p.ArtefactShown? then ShowArtefact(s.artefacts, Artefact(p.artefact, ev.timestamp)) else s.artefacts,
       elicitations := if p.ElicitationRequested?
                       then s.elicitations + [Elicitation(p.askId, p.askPrompt, p.schema, p.card)]
                       else s.elicitations)
  }

  function ApplyPayload(s: State, ev: Event): State {
    var p, at := ev.payload, ev.timestamp;
    if IsTurnEvent(p) then ApplyTurn(s, p, at)
    else if IsPromptEvent(p) then ApplyPrompt(s, p, at)
    else if IsJobEvent(p) then ApplyJob(s, p.job, p.JobFinished?, at)
    else if WritesItem(p) then ApplyWrite(s, ev)
    else if IsAskEvent(p) then ApplyAsk(s, p)
    else s.(core := ApplyCore(s.core, p, at))
  }

  // Folds one event, discarding one at or below the sequence already folded.
  function Apply(s: State, ev: Event): State {
    if ev.seqNo <= s.core.seqNo then s
    else ApplyPayload(s.(core := s.core.(seqNo := ev.seqNo)), ev)
  }

  function ApplyAll(s: State, log: seq<Event>): State {
    if log == [] then s else Apply(ApplyAll(s, log[..|log| - 1]), log[|log| - 1])
  }

  // The state of a thread whose whole history is log.
  function Fold(threadId: string, log: seq<Event>): State { ApplyAll(New(threadId), log) }

  lemma {:induction false} ApplyAllConcat(s: State, a: seq<Event>, b: seq<Event>)
    ensures ApplyAll(s, a + b) == ApplyAll(ApplyAll(s, a), b)
  {
    if b == [] {
      assert a + b == a;
    } else {
      var last := |b| - 1;
      ApplyAllConcat(s, a, b[..last]);
      assert (a + b)[..|a + b| - 1] == a + b[..last];
    }
  }
}
