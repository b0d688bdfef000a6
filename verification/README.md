# Omniplex, modelled and proved in Dafny

A model of the parts of Omniplex whose promises span many calls, runs or
processes, with proofs of those promises. `dafny verify dfyconfig.toml` checks
all of it.

## The parts

**The log and what is shown of it.** `Protocol` is the event vocabulary and
`Projection` the fold of a log into a thread's state, on values. `LiveState`
holds the same state as the server does, in lists over shared backing arrays
(`Slices`) and an id-to-position map, with the in-place appends, filters and
updates; its methods are proved equal to the fold, and a clone of it stays as it
was whatever is applied to the original afterwards. `Timeline`, `Window`,
`TurnLifecycle` and `PromptQueue` prove what holds over whole logs: items keep
their position, paging loses and doubles nothing, one turn is open at a time, a
queued prompt waits until something names it. `Attach` and `Commands` are the two
protocols a socket speaks, as machines over every interleaving of their steps.

**Tokens and secrets.** `TokenRefresh` is the locked refresh against an
authorization server with single-use refresh tokens (section 6 of RFC 6749),
with any number of callers; `SignIn` is the browser flow that may be claimed
once. `Connections` and `ConnectionStore` are the MCP server list and the
secrets beside it, through saves, renames, address changes and deletions.

**Edits that touch nothing else.** `Toml`, `TomlTables` and `TomlDoc` scan and
read the lines of Codex's config.toml; `CodexConfig` edits them, `CodexSwitch`,
`CodexOff`, `CodexReadBack`, `CodexInverse`, `CodexOffReads` and `CodexFrame`
prove read-back, inverse and frame properties of the edit, `CodexLimits` has the
files on which it falls short, and `CodexEditor` is the code's loops.
`JsonScan` and `JsonObject` give JSON text its shape (objects, section 4 of RFC
8259), `JsonEdit`, `JsonMembers` and `JsonSettings` edit one member,
`JsonNested`, `JsonNestedEdit` and `JsonNestedClear` a member of a member, and
`JsonEditor` is the code's loops over offsets.

**Printers and parsers.** `ShellWords` has the shell splitter, a grammar of
command lines (section 2.2 of POSIX.1-2017 XCU) and the shell quoter. `Escapes`
and `Frontmatter` have the YAML scalar printer and the frontmatter parser,
`BlockScalars` what that makes of literal and folded blocks.

**Small machines with bounds.** `Limiter`, `Restart`, `Supervisor`, `ByteRange`,
`GrowingClip` and `Syntheses`.

Where the source changes fields, slices or maps step by step, a class or a
method with a loop does so here, and its postcondition is a function of the old
state; what the source promises is then proved of that function. Protocols that
several goroutines or processes take part in are machines: a step is what one
party does without letting go of its lock, and a theorem is about every run.

## Where the code and its promises part

Each of these is proved, with the input that shows it.

- A window that starts at any moment keeps a peer to attemptBudget exactly when
  no bucket of the peer's is open then with some of its budget left
  (`Limiter.BudgetKeptIff`); otherwise it lets through up to 2 * attemptBudget - 1
  (`Limiter.PeerBound`, `Limiter.PeerBoundIsTight`). From a bucket's opening to
  its reset the budget always holds (`Limiter.BucketBudget`).
- An attachment hears of every later event, or is told to attach again, if and
  only if the actor it subscribed to goes on (`Attach.HeardIffActorGoesOn`). When
  that one ends its subscriptions close without a frame, the next actor knows
  nothing of them, and what it stores passes the presenter by:
  `Attach.AttachmentFallsSilent`.
- A command whose call fails once its actor has it (out of time, or the actor
  closing) may still take effect, and a retry then takes effect again:
  `Commands.RetryRunsTwice`. `Commands.TakesEffectOnceIff` says exactly when a
  retried command takes effect once.
- A clip can be paid for twice: a request that looked in the table before a
  synthesis began, and in the cache before its clip was there, starts another
  once the first is forgotten (`Syntheses.ClipPaidForTwice`).
  `Syntheses.PaidAgainIff` says exactly when that can still happen, and
  `Syntheses.NoGap` that it never does to a request that looks later.
- A closed byte range whose last byte is 2^63 - 1 is answered before its bytes
  exist, with fewer than it announces, and no other range is:
  `GrowingClip.PartialLengthIff`, `GrowingClip.LargestLastIsShort`.
- Taking the Codex switch out does not turn it on when its deciding table says
  `enabled = false` twice: `CodexSwitch.OnReadsBack` has the exact condition,
  `CodexEditor.FalseTwiceStaysOff` an instance.
- Turning it off stays without effect in a file that ends inside a value
  (`CodexLimits.OpenStaysOn`), and where more follows the first word of the value
  there (`CodexLimits.QuotedStaysOn`, with `enabled = "a b"`).
  `CodexOffReads.OffReadsBackExactly` has the exact condition for every file;
  where a value ends on its line before and after, it is that nothing but a
  comment follows its first word (`CodexOffReads.OffReadsBackIff`). Where what is
  left of the value opens a bracket or a string, or the value ran over several
  lines, the lines below are read otherwise and may decide instead, so that such a
  file can read as off all the same (`CodexLimits.OddlyOff`, with `enabled = "a [b"`).
- Off and then on adds a line ending to a file whose last line had none:
  `CodexInverse.OffThenOn`.
- A `[skills.bundled]` table with no other key goes as a whole, comments inside
  it included: `CodexFrame.CommentIsLost`. `CodexFrame.NothingElseLostIff` says
  exactly when nothing but the switch's own lines is lost.
- Clearing the last inner member of an object in a JSON file takes every member
  of the outer name out, not only the one that counts:
  `JsonNestedClear.OthersKeptIff` says exactly when nothing else goes,
  `JsonNestedClear.FirstGoesToo` gives the files in which it does.
- A port that cannot be had is reported as a failure by a spawn attempt of any
  generation, even over a server that is running: `Supervisor.StaleAttempt` says
  it is the only such path, `Supervisor.StalePortFailureIsReported` gives the run.
- Calling start while a child lives starts a second one: `Supervisor.StartKeepsIff`,
  `Supervisor.SecondStartLeavesTwo`.
- A refresh saves the address of the record it read, which only has to have the
  server's origin: after the address moved away and back, the store holds a
  record of another address of that origin (`Connections.AddressMovedBack`). So
  the store's invariant is about origins, and `Connections.TokenWriteKeeps` says
  exactly which writes keep it.
- A tool left in flight for a live job is settled by that job exactly when the
  last row of the job that names any call names that one
  (`TurnLifecycle.JobFinishSettlesIff`); a row that names another, and none
  after it, leaves it in flight with the job finished and no turn open
  (`TurnLifecycle.DisloyalRowLeavesToolInFlight`).

## Model

| member | source | states |
|---|---|---|
| Timeline.UpsertKeeps | internal/projection/state.go:529-541 | writing an item by id leaves every id at its position and ids distinct, and the id is there afterwards |
| Timeline.ApplyAllKeepsTimeline | internal/projection/state.go:545-1000 | no run of events removes, reorders or doubles an item |
| Timeline.PositionIsPermanent | internal/projection/state.go:376-395 | an item of a thread has one position, whatever is folded later |
| Timeline.FoldSeqNo | internal/projection/state.go:545-549 | the sequence number of the fold of a log is that of its last event |
| LiveState.ThreadState.Apply | internal/projection/state.go:545-1000 | folding an event into the shared arrays and the id map gives exactly the value the fold gives, keeps the map equal to the positions, and writes only into arrays the state owned or new ones |
| LiveState.ThreadState.MergeRow | internal/projection/state.go:422-497 | a job row is found or appended in place and merged as the fold merges it, depth taken from its parent |
| LiveState.ThreadState.FinishEvent | internal/projection/state.go:747-804 | a turn's finish, with its loops over turns and items in place, is the fold's |
| LiveState.ItemList.Put | internal/projection/state.go:529-541 | the upsert through the id map is the upsert by a linear search |
| LiveState.AppendContent | internal/projection/state.go:851-881 | appending content in spare capacity changes no element below the old length |
| LiveState.ItemList.Copy | internal/projection/state.go:1119-1172 | a copied timeline shares no cell array and no content array, and has no id map |
| LiveState.ThreadState.Clone | internal/projection/state.go:1119-1172 | a clone has the same value and shares no object that either state writes into |
| LiveState.ApplyLogBeside | internal/projection/state.go:951-960 | a clone keeps its value while any log is applied to the original, compaction of its lists included, and the original is the fold of it all |
| LiveState.ApplyLogApart | internal/projection/state.go:1116-1172 | nor do the two come to share an array that either writes into |
| LiveState.CloneAndGoOn | internal/projection/state.go:1037-1045 | the two together: clone, then go on, and the clone is the state at the moment it was taken |
| LiveState.FromSnapshot | internal/projection/state.go:385-395 | a decoded snapshot with its map rebuilt is a live state of that value |
| Slices.List.Keep | internal/projection/state.go:1037-1045 | filtering into the same backing array leaves exactly the kept elements in order |
| Window.ComputeWindowStart | internal/projection/window.go:42-76 | the nested loops compute the specified start |
| Window.Copy.Window | internal/projection/window.go:15-23 | windowing drops exactly the items before the start and counts them |
| Window.WindowBefore | internal/projection/window.go:28-37 | a page is exactly the items from its start to its cursor, for any cursor |
| Window.PageIsFull | internal/projection/window.go:42-60 | before the walk to a turn's start, a page is the longest run ending at its cursor with at most maxTop top-level items |
| Window.PageStartsATurn | internal/projection/window.go:57-76 | if a page's first item has a turn, the nearest earlier item with a turn has another, and what the walk adds belongs to that turn or none |
| Window.CollectsWhatIsAbove | internal/projection/window.go:28-37 | chained cursors strictly decrease, reach 0, and collect exactly the ids above the first one in order while the timeline grows |
| Window.PagingYieldsEachItemOnce | internal/projection/window.go:15-76 | window and pages together give every item id of the first fetch exactly once, in order, with any events applied between fetches |
| TurnLifecycle.StepKeepsOrderly | internal/projection/state.go:636-683 | an event keeps "at most one turn open, the last, and not idle meanwhile" if and only if it is legal there |
| TurnLifecycle.LegalLogsStayOrderly | internal/projection/state.go:636-804 | that holds over every legal log with stray and repeated finishes mixed in |
| TurnLifecycle.FinishSettlesTools | internal/projection/state.go:747-804 | a matching finish takes the thread idle, cancels every tool of the turn in flight that no live job names, and leaves every other item as it was |
| TurnLifecycle.JobFinishSettlesIff | internal/projection/state.go:500-523 | over any log, an item in flight just before a job's finish is settled by it if and only if the last row of the job that names a call, the finish included, names that item |
| TurnLifecycle.JobFinishSettlesItsTool | internal/projection/state.go:500-523 | so a tool left for a live job is settled by that job's finish whatever comes between, when no row of the job names another call |
| TurnLifecycle.DisloyalRowLeavesToolInFlight | internal/projection/state.go:422-527 | a log of four events, folded from a new thread, in which a row names another call and the tool stays in flight though its job has finished and no turn is open |
| PromptQueue.QueueIsOutstanding | internal/projection/state.go:700-732 | the queue is exactly what the log queued and nothing took out since, in order |
| PromptQueue.PromptStaysUntilTaken | internal/projection/state.go:1028-1045 | with distinct ids a prompt is queued from its event to the first later one naming it, and never again |
| PromptQueue.InjectionShowsPrompt | internal/projection/state.go:705-727 | an injected prompt leaves the queue for a user item with its text and images |
| PromptQueue.StartShowsPrompt | internal/projection/state.go:636-683 | so does one a turn starts from without text or images of its own, unless it held neither |
| Attach.StepKeeps | internal/server/ws.go:183-267 | every step of actor, attach and drain, the end of an actor and an attach to an ended one among them, keeps the protocol's invariant and never takes the presenter back |
| Attach.PresenterConverges | internal/server/ws.go:183-267 | after every frame, in every interleaving, the presenter holds exactly the fold of the log up to its cursor |
| Attach.OneEventAtATime | internal/projection/state.go:543-549 | but for a snapshot, a step moves the presenter by the next event of the log or not at all; stale and repeated events change nothing |
| Attach.NothingIsLost | internal/thread/actor.go:1686-1704 | while the actor attached to goes on, everything fanned out and unseen is in the attachment's queue, or the queue was dropped and resync can be sent; an empty queue means nothing is left to see |
| Attach.HeardIffActorGoesOn | internal/thread/actor.go:1402-1423 | from any reachable state, every way of going on without a new attach or the end of an actor has each later event in the live attachment's queue, or a resync due, if and only if the attachment's own actor has not ended |
| Attach.AttachmentFallsSilent | internal/server/ws.go:243-266 | a run in which the actor ends under an attachment and the next event reaches neither its queue nor the presenter, with no resync due |
| Commands.CommandStore.ClaimCommand | internal/store/store.go:657-681 | a claim answers and changes the ledger as one transaction: claimed, in progress, done with the result, or another thread's |
| Commands.CommandsRunOnce | internal/server/ws.go:356-419 | over any interleaving of retries, failures and late effects, one request at a time has a command, at most one execution of it takes effect without failing, and every answer is that one's result as stored |
| Commands.CompletedStaysCompleted | internal/server/ws.go:356-419 | after completion no request runs the command again and a request of its thread is answered with the stored result |
| Commands.FailureIsRetriable | internal/store/store.go:685-690 | a failed run, released, leaves the id for the next claim, from whatever thread, and none has completed |
| Commands.TakesEffectOnceIff | internal/thread/actor.go:509-533 | a command takes effect once however long it is retried if and only if no failed run of it took effect or still may, or one did and its claim is held by nobody for good |
| Commands.RetryRunsTwice | internal/server/ws.go:405-413 | a run in which a call gives up, its claim is released, and both it and the retry take effect |
| TokenRefresh.StepKeeps | internal/mcp/oauth.go:277-351 | every step of any caller keeps the protocol's invariant |
| TokenRefresh.NoSpentTokenIsPresented | internal/mcp/oauth.go:172-187 | while the lock is free the stored refresh token is the server's current one; one caller at most is refreshing; no spent token is presented, so a refusal means a revocation |
| TokenRefresh.RejectedTokenIsNotReturned | internal/mcp/oauth.go:254-275 | nobody is told the access token they reported as rejected: not by a task that ended, not for want of the lock, not on ceasing to wait |
| TokenRefresh.StoppingCutsNothingOff | internal/mcp/oauth.go:248-275 | a caller that stops waiting leaves its refresh as it was: every run of the rest goes on to the same end |
| TokenRefresh.OneRefreshForAll | internal/mcp/oauth.go:289-351 | however many callers reject one access token, one refresh request is sent, and one more for each that fails on the way, when what comes back outlives the window |
| SignIn.PendingFlows.Take | internal/mcp/oauth.go:372-384 | the callback gets the flow of a state and the state is gone |
| SignIn.PendingFlows.Claim | internal/mcp/oauth.go:387-395 | the paste path wins exactly when the flow is still pending |
| SignIn.ClaimedOnce | internal/mcp/oauth.go:472-534 | however callbacks, pastes and the end race, one claimant wins and one code at most is exchanged |
| SignIn.NoSendBlocks | internal/mcp/oauth.go:561-599 | no send of a code or of a reply finds its channel full |
| SignIn.EveryClaimantHears | internal/mcp/oauth.go:446-468 | once a flow is over every handler that claimed it has a reply or a closed done to hear, and "signed in" is only said when it is true |
| Connections.IdsAreDistinct | internal/mcp/types.go:44-57 | secret ids of different name and project pairs differ, and none is the registrations' id |
| Connections.KeyTextsAreDistinct | internal/mcp/store.go:361-374 | no two secret keys of a server are written alike |
| Connections.StepKeeps | internal/mcp/store.go:307-418 | every operation keeps: scopes unique, each id holds exactly its listed names and at most one sign-in of its address's origin, nothing under any other id |
| Connections.StoresAgree | internal/mcp/store.go:457-501 | the list and the secrets agree after every run from an empty store whose token writes are of the server's origin |
| Connections.CodeKeepsStores | internal/mcp/oauth.go:287-351 | and every run of the code is such: a sign-in writes the address it was for, a refresh the one it read while that had the server's origin |
| Connections.TokenWriteKeeps | internal/mcp/oauth.go:201-212 | a guarded token write keeps the invariant if and only if the record is of the server's origin |
| Connections.AddressMovedBack | internal/mcp/store.go:215-226 | a run of the code, each token written being of the sign-in or the read it comes from, in which the guard lets through a record of another address of the same origin |
| Connections.SavedEnv | internal/mcp/store.go:357-396 | a saved variable holds the given value, or with an empty one what was stored before, across a rename too |
| Connections.SavedHeader | internal/mcp/store.go:357-396 | the same for headers |
| Connections.SavedSignIn | internal/mcp/store.go:397-418 | the sign-in moves with the server exactly when the address stays |
| Connections.OtherSecretsUntouched | internal/mcp/store.go:357-418 | an operation changes no secret but those of the ids it is about |
| ConnectionStore.Store.SaveServer | internal/mcp/store.go:307-352 | a save is refused in exactly the specified cases and otherwise leaves the specified list and secrets |
| ConnectionStore.Store.MoveSecrets | internal/mcp/store.go:357-418 | the loops over names put, move and drop exactly the specified secrets |
| ConnectionStore.Store.SetProjectOff | internal/mcp/store.go:428-439 | only the list of projects of one server changes |
| ConnectionStore.Store.RemoveServer | internal/mcp/store.go:457-467 | the server and everything under its id go |
| ConnectionStore.Store.RemoveProject | internal/mcp/store.go:471-501 | a project's servers go with their secrets and are returned in order, and the rest forget the project |
| ConnectionStore.Store.WriteToken | internal/mcp/store.go:215-226 | a token is written only while the server is at the address the caller saw |
| ConnectionStore.PurgedInOrder | internal/mcp/store.go:471-501 | purging one id after the other removes what purging the project at once does |
| Toml.FindTables | internal/skills/codexconfig.go:75-111 | the scanner's loop finds the tables and keys of the specified automaton, multi-line values included |
| TomlDoc.SaysAll | internal/skills/codexconfig.go:75-111 | tables found by line are what the file says, each key with its table |
| CodexEditor.EditCodexBundled | internal/skills/codexconfig.go:358-383 | the loop over tables, last first, that splices lines in place is the specified edit |
| CodexEditor.ReadCodexBundled | internal/skills/codexconfig.go:345-353 | the reader's loop is the specified reading |
| CodexEditor.FalseTwiceStaysOff | internal/skills/codexconfig.go:366-377 | a file that turning on leaves off |
| CodexSwitch.OnReadsBack | internal/skills/codexconfig.go:358-383 | turned on, the file reads as on if and only if its deciding table does not say false twice |
| CodexSwitch.OnDoc | internal/skills/codexconfig.go:358-383 | turning on takes one false out of each table of the switch and changes nothing else in what the file says, keys before any table included |
| CodexOffReads.OffReadsBackIff | internal/skills/codexconfig.go:240-291 | where a value there ends on its line: turned off, the file reads as off if no value is open at the end of a file without the table and nothing but a comment follows the first word of a value; and only if, unless what is left of the value opens something |
| CodexOffReads.OffReadsBackExactly | internal/skills/codexconfig.go:240-291 | any file turned off reads as off if and only if: with no table, no value is open at its end; with a table and no key, always; with a key, what the lines below it say in the mode the new value leaves is off, and where they say nothing, nothing but a comment follows the value's first word |
| CodexOffReads.OpenValueReadsBack | internal/skills/codexconfig.go:358-373 | a value there that goes on over lines too: it reads off if nothing but a comment follows its first word and no line below is a header of the table |
| CodexLimits.QuotedStaysOn | internal/skills/codexconfig.go:240-256 | a file with a quoted value of two words that turning off leaves on |
| CodexLimits.OpenStaysOn | internal/skills/codexconfig.go:282-291 | a file that ends inside a string and that turning off leaves on |
| CodexLimits.OddlyOff | internal/skills/codexconfig.go:240-256 | a file whose value leaves an open bracket, which reads as off although more follows the first word |
| CodexInverse.OffThenOn | internal/skills/codexconfig.go:269-291 | off then on gives the file back, for files with no such table, if and only if the file is empty or its last line is ended |
| CodexFrame.OnLeavesTheRest | internal/skills/codexconfig.go:358-383 | turning on keeps every line with text that is not in a table that goes, nor a false, byte for byte and in order |
| CodexFrame.NothingElseLostIff | internal/skills/codexconfig.go:266-279 | no line with text but the switch's own is lost if and only if each table that goes holds nothing else |
| CodexFrame.CommentIsLost | internal/skills/codexconfig.go:266-279 | a file in which a comment between header and switch is lost |
| CodexFrame.OffLeavesTheRest | internal/skills/codexconfig.go:240-264 | turning off where there is a table changes one line of the file and not another byte: in the last table's first `enabled` line the value's first word, and only that, becomes false (a space put before it where there was none); without one the switch's line comes after that table's header, ended first if it was not |
| CodexFrame.SwapIsOne | internal/skills/codexconfig.go:240-256 | a line's key, gap, first word and rest are fixed by its text, so the line it becomes is too |
| CodexFrame.AppendLeavesTheRest | internal/skills/codexconfig.go:282-291 | turning off where there is none only adds to the end |
| JsonScan.NameRoundTrip | internal/skills/claudesync.go:301-304 | a printed name reads as the name |
| JsonScan.JsonStringOk | internal/skills/claudesync.go:301-304 | a printed name is a string of the grammar |
| JsonScan.ScanLocal | internal/skills/claudesync.go:167-197 | where a value ends depends on nothing past it but on what could go on with a number |
| JsonObject.ParsesPrint | internal/skills/claudesync.go:167-197 | every well-formed object is read back from its text |
| JsonObject.PrintsParse | internal/skills/claudesync.go:167-197 | reading loses no byte: what is read prints as the text |
| JsonEditor.ParseObject | internal/skills/claudesync.go:167-197 | the decoder loop finds every member's offsets, or fails exactly on text that is no object |
| JsonEditor.EditMember | internal/skills/claudesync.go:208-246 | the loop that rebuilds the text by offsets, last first, is the specified edit |
| JsonEditor.FindLast | internal/skills/claudesync.go:251-268 | the loop finds the member that counts, the last of its name |
| JsonMembers.SetMemberIs | internal/skills/claudesync.go:208-246 | the edit by offset is the edit of the object, and gives well-formed text that reads as it |
| JsonSettings.SetMemberSays | internal/skills/claudesync.go:201-246 | afterwards the name holds the value wherever it stood, once if nowhere, or is gone with its duplicates; other members keep bytes and order |
| JsonSettings.SetChangesValues | internal/skills/claudesync.go:208-246 | setting a name that is there changes its values and not another byte |
| JsonSettings.SetThenClear | internal/skills/claudesync.go:208-246 | setting an absent name in a non-empty object and clearing it gives the exact text back |
| JsonNestedEdit.NestedSets | internal/skills/claudesync.go:251-299 | setting a member of a member changes that object's text only, and the whole reads as it should |
| JsonNestedEdit.NestedSetThenClear | internal/skills/claudesync.go:251-299 | set and clear of an absent inner name gives the exact text back |
| JsonNestedEdit.NestedAddThenClear | internal/skills/claudesync.go:251-299 | where the outer member was absent too, clearing takes it away and gives the exact text back |
| JsonNestedClear.NestedClears | internal/skills/claudesync.go:246-299 | clearing an inner member changes nothing when it is absent, leaves its object without it and all else as it was when something else is in there, and otherwise leaves exactly the members of other names, byte for byte and in order |
| JsonNestedClear.OthersKeptIff | internal/skills/claudesync.go:246-299 | nothing beside the outer member goes or changes if and only if the inner name was absent, or something else is in its object, or the outer name occurs once |
| JsonNestedClear.FirstGoesToo | internal/skills/claudesync.go:289-293 | the files of two members of one name in which clearing the second's one member takes the first out too |
| ShellWords.ShellWords | internal/mcp/parse.go:278-336 | the splitter's loop over builders is the specified splitting |
| ShellWords.SplitIffCommand | internal/mcp/parse.go:278-336 | it succeeds exactly on the lines of a grammar of bare, quoted and escaped parts, with that line's words |
| ShellWords.QuotePrints | internal/server/agenttools.go:362-369 | any value, quoted, is one word of the grammar that reads as the value |
| ShellWords.ShellRoundTrip | internal/server/agenttools.go:362-369 | splitting the quoted values joined by spaces gives the values, whatever they hold |
| Escapes.QuoteRoundTrip | internal/skills/frontmatter.go:139-179 | any text, quoted with escapes, unquotes to itself, whichever characters count as printable |
| Escapes.QuoteIsOneLine | internal/skills/frontmatter.go:167-179 | a quoted text has no line end in it |
| Frontmatter.ParseFrontmatter | internal/skills/frontmatter.go:19-70 | the parser's loops are the specified reading of a document |
| Frontmatter.BlockScalarLines | internal/skills/frontmatter.go:88-137 | the block loops compute the specified reading |
| BlockScalars.LiteralReadsBack | internal/skills/frontmatter.go:88-137 | lines of text written with any indent in a literal block read back as those lines, deeper indents and blank lines included |
| BlockScalars.FoldedReadsBack | internal/skills/frontmatter.go:88-137 | paragraphs written in a folded block, a blank line between each two, read back one to a line, their lines joined by spaces |
| Frontmatter.ScalarReads | internal/skills/frontmatter.go:149-179 | any value printed as a scalar is one line that reads as exactly the value, plain or quoted |
| Frontmatter.DocumentParses | internal/skills/frontmatter.go:19-70 | a fenced block of lines and a body come apart as they were put together |
| Frontmatter.FieldsRoundTrip | internal/skills/frontmatter.go:19-70 | any fields printed one a line read back with their values, and the body with them |
| Frontmatter.NewSkillRoundTrip | internal/skills/edit.go:253-254 | the file of a new skill parses to its name and exactly its description |
| Limiter.RateLimiter.Allow | internal/auth/auth.go:495-514 | an attempt is let through or not, and the table swept, evicted and counted, as specified |
| Limiter.RateLimiter.Evict | internal/auth/auth.go:520-543 | eviction drops the expired, then the soonest to expire until there is room |
| Limiter.EvictionOrder | internal/auth/auth.go:520-543 | nothing is dropped while something that expires strictly earlier stays |
| Limiter.TableStaysSmall | internal/auth/auth.go:495-543 | in no run does the table outgrow its cap |
| Limiter.PeerBound | internal/auth/auth.go:495-514 | in any stretch of one window a peer is let through at most 2 * attemptBudget - 1 times |
| Limiter.PeerBoundIsTight | internal/auth/auth.go:495-514 | a run reaches that number |
| Limiter.BudgetKeptIff | internal/auth/auth.go:468-474 | whatever came before, every way of going on keeps the window from a moment to attemptBudget if and only if no bucket of the peer's is open then with budget left |
| Limiter.BucketBudget | internal/auth/auth.go:468-474 | from a bucket's opening to its reset at most attemptBudget attempts pass |
| Restart.RestartPolicy.OnExit | desktop/src/restart.ts:33-40 | the answer and the counters after an exit are the specified ones |
| Restart.DelaysAre | desktop/src/restart.ts:33-40 | the delays since the last count reset are the doublings of the base, capped |
| Restart.RestartsAreBounded | desktop/src/restart.ts:28-45 | between resets at most maxRestarts restarts, with delays that never shrink nor pass the cap |
| Supervisor.StartKeepsIff | desktop/src/server.ts:64-69 | start keeps the invariant if and only if no child lives |
| Supervisor.StepKeeps | desktop/src/server.ts:64-170 | every other call, await and callback keeps it |
| Supervisor.OneServer | desktop/src/server.ts:90-160 | at most one process is alive, running is only reported while it is, and starting only while something is still to come |
| Supervisor.SecondStartLeavesTwo | desktop/src/server.ts:64-69 | a start beside a live child leaves two |
| Supervisor.StaleAttempt | desktop/src/server.ts:100-107 | an older attempt never changes child, processes, timer or policy, and the status only when its port cannot be had |
| Supervisor.StalePortFailureIsReported | desktop/src/server.ts:73-76 | a run that reports failed over a running server, which no retry clears |
| Supervisor.RestartsAreFew | desktop/src/server.ts:122-144 | over every run at most maxRestarts restarts between resets |
| Supervisor.DataInUseEnds | desktop/src/server.ts:128-135 | an exit for data in use is reported and costs no restart, and whatever comes after, short of a start or a retry, nothing runs |
| Supervisor.StopHolds | desktop/src/server.ts:78-88 | once stopped, only start or retry brings a process |
| Supervisor.ServerSupervisor.OnGone | desktop/src/server.ts:122-144 | the handler's field updates are the machine's step |
| ByteRange.ClosedInOrder | internal/server/tts_synth.go:359-386 | a header taken as closed has its ends in order and within 64 bits |
| ByteRange.ClosedRoundTrip | internal/server/tts_synth.go:359-386 | every printed closed range is read as itself |
| ByteRange.OpenRanges | internal/server/tts_synth.go:359-386 | an open range is the whole clip from 0 and left for later from anywhere else |
| GrowingClip.Pending.Look | internal/tts/cache.go:129-149 | one turn of the wait: bytes there come before a failure, a failure before sleep |
| GrowingClip.Response.StreamTurn | internal/server/tts_synth.go:314-346 | one turn of a stream sends exactly what there was, and ends, goes on or aborts as the wait said |
| GrowingClip.PartialIsExact | internal/server/tts_synth.go:251-309 | an early answer to first-last carries exactly those bytes of the clip, whatever is written later |
| GrowingClip.StreamIsPrefix | internal/server/tts_synth.go:314-346 | what is streamed is always a prefix of the clip; it ends cleanly only with the whole, and is cut only on failure |
| GrowingClip.EndedClipAnswers | internal/tts/cache.go:129-149 | on a clip that has ended every reader, wherever it is, gets by its own steps to an answer |
| GrowingClip.PartialLengthIff | internal/server/tts_synth.go:270-300 | an early answer is as long as announced if and only if last is below 2^63 - 1 |
| GrowingClip.LargestLastIsShort | internal/server/tts_synth.go:270-300 | the run with last 2^63 - 1 that is answered with nothing |
| Syntheses.OneIsMadeAtATime | internal/server/tts_synth.go:108-128 | of one key at most one clip is being made |
| Syntheses.RequestsJoin | internal/server/tts_synth.go:108-128 | a request that starts meanwhile joins it and makes nothing |
| Syntheses.FailedIsNeverJoined | internal/server/tts_synth.go:85-93 | what a request finds has neither failed nor expired |
| Syntheses.NoGap | internal/server/tts.go:139-154 | a request that looks after a synthesis began that has not failed is answered with it or from the cache, whatever happens between its looks, and never starts another |
| Syntheses.PaidAgainIff | internal/server/tts.go:139-175 | a clip in the cache can be made again if and only if some request missed it both times and is about to start |
| Syntheses.ClipPaidForTwice | internal/server/tts.go:139-175 | a run in which that happens |
| Syntheses.Table.StartOne | internal/server/tts_synth.go:108-128 | looking and starting are one step under the lock, and a new one is made exactly when none was live |

## Left out

Assumptions and abstractions:

- Event payloads are a datatype; decoding them from JSON, and what Apply does with a payload that does not decode, is not modelled. Timestamps are integers, costs reals.
- LiveState: values that are written once and then shared (plan entries, images, raw inputs) are values, so aliasing of those is not part of the model.
- Attach: snapshots are taken whole, not windowed; a presenter's cursor is one it had; sockets deliver frames in order and do not fail halfway. One actor of the thread is alive at a time, and the next one starts from the log the last one stored. When a client attaches again is its own choice; that it does so on opening a socket, on a resync and on selecting a thread only is not modelled.
- Commands: a server that dies while executing leaves its claim behind, as the source does; rows that go with a deleted thread are not modelled. What a command does is one effect.
- TokenRefresh: every token response arrives and is saved, and the server is not renamed nor its address changed meanwhile; a spent refresh token is answered with its successor. Discovery and registration are not part of this model. Field updates of the token record are steps of the machine, not of a class.
- SignIn: states are fresh when drawn; the HTTP pages and the exchange itself are outcomes.
- Connections: the lists of harnesses and projects a server is off for are sets, so their order is not modelled; the two stores' files are written in one step each and writes succeed. The CLI accounts beside the servers are left out.
- Connections.StoresAgree: says the origin of a sign-in's address where the source's comments say its address, because the code allows no more.
- CodexOffReads.OffReadsBackIff: is about values that end on their line, and one way only where what is left of one does not; OffReadsBackExactly is about every file.
- CodexFrame.OnLeavesTheRest: blank lines are outside it, since dropTable takes one with a table.
- Codex's per-skill tables (editCodexSkill, parseCodexSkills, codexSkillsElsewhere) use the same scanner and are left out.
- The JSON decoder's limit on nesting depth is not modelled. Text is a sequence of characters; replacement of invalid UTF-8 is not.
- Escapes: characters above 0x7f given byte by byte in \x or octal escapes are not read; the printer writes them for bytes that are not valid UTF-8 only, and text here is valid. Which characters are printable is a parameter.
- GrowingClip: a section whose length has wrapped to zero or less gives no bytes, where Go's io.NewSectionReader goes on to the largest offset when the sum overflows; an Open that fails on a clip kept and then discarded is not modelled, so a request is refused only when the clip is broken.
- Sizes in GrowingClip are unbounded but where the 64-bit end of a range matters. The file under a clip is its bytes; disk failure and the pruning of old clips are left out, so in Syntheses a clip once committed stays in the cache.
- Supervisor: an error event is a spawn that fails, in the same step; a process that is told to terminate has exited by the end of the step; the exit and the end of stop are one step.
- Limiter: the clock does not go back; addresses are keys.
- Filesystem failure and crashes between a temporary file and its rename.

Not modelled, being thin or mostly input and output:

- HTTP handlers, WebSocket framing, the Electron shell, process spawning, network interfaces.
- Parsing of add commands, JSON and TOML snippets for MCP servers beyond the shell splitter.
- Rewriting of artefact URLs, masking of secrets in text, artefacts and attachments.
- Skill fetching, linking and relocation; provider accounts.
