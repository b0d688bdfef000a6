// The canonical event vocabulary (internal/proto/event.go). Payloads arrive
// decoded; raw JSON a projection only stores is kept as text.
module Protocol {
  import opened Prelude

  type Raw = string

  datatype Image = Image(id: string, mediaType: string, path: string)

  datatype ToolContent = ToolContent(kind: string, text: string, path: string, oldText: string, newText: string)

  datatype PermissionOption = PermissionOption(optionId: string, name: string, kind: string)

  datatype PlanEntry = PlanEntry(content: string, status: string, priority: string)

  datatype Status =
    | Unset
    | Pending
    | InProgress
    | Completed
    | Failed
    | Cancelled
    | OtherStatus(text: string)

  datatype JobStatus =
    | JobUnset
    | JobRunning
    | JobPaused
    | JobCompleted
    | JobFailed
    | JobStopped
    | JobInterrupted
    | OtherJobStatus(text: string)

  datatype JobKind =
    | NoKind
    | JobAgent
    | JobShell
    | JobMonitor
    | JobInert
    | OtherJobKind(text: string)

  predicate JobDone(s: JobStatus) {
    s.JobCompleted? || s.JobFailed? || s.JobStopped? || s.JobInterrupted?
  }

  function ClassifyJob(taskType: string): JobKind {
    if taskType == "local_bash" || taskType == "shell" then JobShell
    else if taskType == "monitor" || taskType == "monitor_mcp" then JobMonitor
    else if taskType == "plan" || taskType == "dream" then JobInert
    else JobAgent
  }

  datatype JobUsage = JobUsage(totalTokens: int, toolUses: int, durationMs: int, cost: real)

  datatype JobPayload = JobPayload(
    jobId: string,
    toolCallId: string,
    parentJobId: string,
    kind: JobKind,
    taskType: string,
    name: string,
    role: string,
    workflowName: string,
    status: JobStatus,
    activity: string,
    usage: Option<JobUsage>,
    error: string,
    outputFile: string,
    backgrounded: Option<bool>,
    hidden: bool)

  datatype Scheduled = Scheduled(
    id: string,
    revision: int,
    prompt: string,
    images: seq<Image>,
    dueAt: int,
    timeZone: string,
    model: string,
    mode: string,
    effort: string,
    status: string,
    error: string,
    turnId: string)

  datatype Recovery = Recovery(resumeOf: string, attempt: int, cause: string)

  datatype TurnStart = TurnStart(
    turnId: string,
    prompt: string,
    images: seq<Image>,
    recovery: Option<Recovery>,
    queueId: string)

  datatype ShownArtefact = ShownArtefact(
    artefactId: string,
    name: string,
    path: string,
    dir: bool,
    mediaType: string,
    size: int,
    entry: string,
    files: int,
    modifiedAt: int,
    source: string,
    note: string,
    turnId: string)

  datatype Payload =
    | ThreadCreated(cwd: string, harness: string, model: string, mode: string, effort: string, title: string)
    | ThreadConfigChanged(replaceSettings: bool, newModel: string, newMode: string, newEffort: Option<string>,
                          newTitle: string, harnessSessionId: string)
    | ThreadClosed
    | ThreadAccountChanged(to: string, toName: string)
    | WorkspaceRequested(projectId: string, projectRoot: string, wsMode: string, branch: string, baseRef: string)
    | WorkspaceHookStarted(hook: string, command: string)
    | WorkspaceHookOutput(stream: string, chunk: string)
    | WorkspaceHookFinished(hookExit: int, durationMs: int)
    | WorkspaceReady(readyCwd: string, readyBranch: string, resources: Raw)
    | WorkspaceFailed(failError: string, failExit: int)
    | WorkspaceCleanupStarted(purge: bool)
    | WorkspaceCleanupFailed(cleanupError: string, cleanupExit: int)
    | WorkspaceCleanupFinished
    | WorkspaceReleased
    | TurnStarted(start: TurnStart)
    | TurnFinished(turnId: string, stopReason: string, turnError: string, failure: string)
    | TurnDiff(diffTurn: string, diff: Raw)
    | PromptScheduled(scheduled: Scheduled)
    | PromptQueued(queueId: string, prompt: string, images: seq<Image>, sent: bool)
    | PromptInjected(injectedId: string, intoTurn: string)
    | PromptDequeued(dequeuedId: string)
    | MessageChunk(chunkTurn: string, role: string, chunkKind: string, blockId: string, delta: string, chunkParent: string)
    | ToolCallStarted(callTurn: string, callId: string, callKind: string, callTitle: string, callStatus: Status,
                      callInput: Raw, callParent: string)
    | ToolCallUpdated(updatedId: string, updStatus: Status, updTitle: string, updContent: seq<ToolContent>,
                      updInput: Raw, updParent: string)
    | JobStarted(job: JobPayload)
    | JobUpdated(job: JobPayload)
    | JobFinished(job: JobPayload)
    | PlanUpdated(entries: seq<PlanEntry>)
    | UsageUpdated(usage: Raw)
    | ContextCompacted(trigger: string, preTokens: int, postTokens: int)
    | ArtefactShown(artefact: ShownArtefact)
    | PermissionRequested(requestId: string, permToolCall: string, toolName: string, permTitle: string, permInput: Raw,
                          options: seq<PermissionOption>)
    | PermissionResolved(resolvedId: string)
    | ElicitationRequested(askId: string, askTurn: string, askPrompt: string, schema: Raw, card: Raw)
      // result is what the answer's JSON names as its own result, "" when it names none.
    | ElicitationResolved(answeredId: string, action: string, value: Raw, result: string)
    | UnknownEvent

  // One durable fact about a thread. seqNo is the per-thread sequence number.
  datatype Event = Event(seqNo: int, timestamp: int, payload: Payload)

  const STOP_ERROR: string := "error"
  const ARTEFACT_FROM_UPLOAD: string := "upload"
}
