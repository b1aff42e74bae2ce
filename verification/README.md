# A verified model of agentchat's stateful cores

The project models four parts of the agentchat server, in the form the source gives them, and proves what they
promise for all inputs, all interleavings and all runs.

**The busy-session queue (`core/engine.go`).** `SessionQueue` is a state machine for one session key: message
handlers, the event loop, the drain loop, the orphan drain, `/compress`, `/stop` and cleanup are goroutines, and each
section under one mutex is one atomic step. The lookup of the interactive state and the append to its queue are two
steps, as in the code. `SessionCoverage` says exactly which steps leave a queued message with nobody to deliver or
report it; `SessionRuns`, `SessionLedger` and `SessionAgents` prove the lock discipline, conservation of messages and
that every captured agent session is closed once, for every run; `SessionLeaks` says when a live one is lost, and
`SessionProgress` what single steps settle; `SessionOrder` proves that dispatch order is acceptance order in every
run in which no step meets one of two guards; `SessionFifo` proves that
nothing is stranded and nothing skipped while the agent stays up; `SessionWitness` gives a run for each condition that
these results need. `SessionCells` has the mutex sections as methods that change objects in place, proved to take the
steps of the state machine. `SplitMessage` and `TurnText` are the two smaller cores of the same file.

**The surgical TOML editor (`config/config.go`).** `TomlLine` is one line (matchers, quoting, comment scanner,
rewriting), `TomlIndex` the line index as a function of what each line is, `TomlSpans` the loops that build it,
`TomlText` what the index says of the text, `TomlEdit` the upserts, `TomlConfig`, `TomlOptions` and `TomlFile` the edits
of a file through the rebuilt index.
`CommaList`, `GroupModes` and `GroupModeEdit` are the group modes, one list, sequences of calls, and the file;
`FormatToml` is the formatter, which every edit of the file goes through; `TomlOutline` reads the index line by line,
`TomlFormat` says what formatting does to the index, `TomlEdited` that this can be told before an edit.

**Fence-aware splitting (`core/markdown.go`)** is `FenceSplit`.

**Small stateful structures:** `TokenBucket` (`core/outgoing_ratelimit.go`), `CronTable`, `CronJobs` and
`CronScheduler` (`core/cron.go`), `DirHistory` (`core/dir_history.go`), `Dedup` (`core/dedup.go`).

Loops of the source are methods proved equal to a specification function; what the source promises is proved about
these functions and about runs of them. Clocks are parameters, sends are entries of a trace, saves succeed. Text is a
sequence of characters; where the source measures it in bytes, the length of its UTF-8 form is taken.

## What the proofs found

Where the code does not meet a property on all inputs, the model keeps the code as it is and the property is stated
with its exact condition.

- A step leaves a queued message with nobody to deliver or report it exactly under the guard of one of six branches
  (`SessionCoverage.Hazard`): an append to a state that was replaced or stopped after the lookup, a second TryLock that
  fails against a goroutine working for another state or past its last look at the queue, a recycled state whose queue
  was not empty, a failed agent start after a queue was adopted, an early return of `/compress`, and a cleanup that
  unmaps a state that was queued on meanwhile. `SessionWitness` has a run from the start into each of them; a dying
  agent alone is enough for the second.
- A step gives up the order of messages exactly when it appends to a state below one that has a message queued, or when
  a `/compress` locks a state from which on a message is queued that was overtaken (`SessionOrder.OrderStep`). Both
  happen only to a state that was stopped or replaced after its lookup, and there are runs from the start into both
  (`SessionWitness.LateAppendReorders`, `LateCompressReorders`). In every run without such a step the order is kept
  (`SessionOrder.DispatchOrderIsAcceptanceOrder`).
- Recycling a mismatched agent deletes the map entry before the queue could be adopted, so the adoption that follows
  finds nothing (`SessionWitness.RecyclingStrands`).
- A cleanup unmaps a state other than the one it shut down if and only if it was given no expected state and the map
  entry has changed meanwhile (`SessionAgents.CleanupRemovesAnotherState`); that can be the state of a running turn
  (`SessionWitness.UnconditionalCleanupRemovesReplacement`). If that state has a live agent, the agent session is then
  neither mapped nor about to be closed, and no other step loses one (`SessionLeaks.LeakStep`, `LeakIsReached`).
- When the agent process exits, or its result event has no text of its own, text that was surfaced before a thinking or
  permission event is sent a second time if the turn used no tool (`TurnText.ClosedTurnDeliversOnce`,
  `ResultDeliversOnce`).
- Setting a cron job's "enabled" field to something that is no bool fails, but unschedules the job and leaves it
  enabled (`CronTable.StepAgrees`).
- UpdateJob does not look at the sign of a timeout, so it can store a job that AddJob would refuse; no other operation
  does (`CronJobs.StepKeepsGood`).
- A RemoveJob that runs between the lock sections of an EnableJob leaves a timer for a job that is gone
  (`CronTable.RemoveInsideEnableLeavesTimer`).
- Formatting a file removes every header without lines of its own, also of a project or a platform whose settings are
  all in sub-tables; the settings of that platform slide to its neighbour, and the place of those behind it changes
  (`TomlFormat.PlatformIsLost`). The numbers of projects and platforms are kept if and only if no such header is
  removed, the content of the options sections if and only if, besides, no empty options header is removed above
  another one of the same platform (`TomlFormat.FormatKeepsIndex`). As every edit is formatted, this is also what an
  edit of the group modes does (`GroupModeEdit.WrittenFileKeepsCounts`); a header with a key line of its own is safe
  (`TomlFormat.KeyedHeaderIsKept`), and a formatted file loses nothing any more (`TomlFormat.FormattedLosesNothing`).
- A chunk whose last line opens a fence can be 3 bytes over the limit (`FenceSplit.ChunkLength`).
- A group list with a "*" among other ids collapses to "*" and then does not hold the id
  (`CommaList.GroupModeIsExclusive`).
- Merging an id with a comma in it adds it again every time (`CommaList.MergeTwiceIsOnce`).
- When a change to admin empties the public list, the legacy option is read in its place. Its ids become public again
  and are written back by a later call while they stay in the admin list (`GroupModes.SetKeepsExclusive`,
  `LegacyIdReturns`).
- Go's quoting writes the bell and the vertical tab with escapes that TOML does not have (`TomlLine.UnquoteQuote`).

## Model

| member | source | states |
|---|---|---|
| SessionCoverage.CoverageIsExact | core/engine.go:1729-1821 | From any state in which every non-empty queue is minded by some goroutine, a step abandons a queue if and only if the guard of one of six named branches holds; true for all 26 kinds of step |
| SessionCoverage.AcquireCoverage | core/engine.go:2415-2447 | Taking or replacing the mapped state abandons a queue exactly when a live agent is recycled while its state has a queue nobody holds in hand |
| SessionCoverage.UnmapStepCoverage | core/engine.go:2612-2625 | The final delete of a cleanup abandons a queue exactly when it unmaps a state that was queued on after the notification |
| SessionCoverage.TurnCoverage | core/engine.go:3388-3428 | No step of the event loop, the drain loop or the orphan drain abandons a queue |
| SessionFifo.NothingStranded | core/engine.go:1643-1651 | With the agent up, in every interleaving: an unlocked session with a queued message has a handler between its append and its second TryLock |
| SessionFifo.BenignIsSafe | core/engine.go:1748-1766 | With the agent up no step meets a hazard, given that the lock holder works on the mapped state |
| SessionFifo.BenignCovered | core/engine.go:1798-1818 | With the agent up every queued message is minded by a goroutine in every reachable state |
| SessionFifo.AllInAcceptanceOrder | core/engine.go:3205-3213 | With the agent up, log, message in hand and queue are together all accepted messages in acceptance order, none skipped, across both consumers and adoption |
| SessionOrder.OrderStep | core/engine.go:1748-1766 | Every kind of step keeps the order invariant (queues from older to newer states, the message in hand and the dispatched messages are in acceptance order) if and only if it is not an append below a queued message or a /compress lock over an overtaken one |
| SessionOrder.DispatchOrderIsAcceptanceOrder | core/engine.go:3205-3213 | In every run without such a step, in particular when appends and /compress locks find the state of their lookup mapped, with any stops, cleanups, recycling, failed starts and dying agents: messages are dispatched in acceptance order, and the one in hand and the mapped queue come after them |
| SessionRuns.RunsAreWellFormed | core/engine.go:1749-1752 | Every reachable state is well formed; in particular no queue ever holds more than 5 messages |
| SessionRuns.StepMoves | core/engine.go:2087-2092 | A step changes one goroutine only, and the busy flag changes exactly when that goroutine gains or gives up the lock |
| SessionRuns.LockStep | core/engine.go:3388-3395 | The lock is released only by the goroutine that owns it, which owns it no more afterwards |
| SessionRuns.LockDiscipline | core/engine.go:2202-2204 | In every run the session is busy if and only if a goroutine owns the lock, and never do two own it |
| SessionRuns.UnlockedQueueIsMinded | core/engine.go:1643-1651 | In every run whose steps meet no hazard, also with stops, cleanups, recycling and dying agents: a message queued while nobody owns the lock has a handler before its second TryLock on the mapped state, or a stop or cleanup about to report it |
| SessionLedger.StepPlaces | core/engine.go:3396-3409 | A step moves no message to two places or to none; only an append brings a new message, to one place |
| SessionLedger.Conservation | core/engine.go:1748-1766 | In every run each accepted message is exactly once in a queue, in the hand of the drain loop, or in the log of messages dispatched or reported as dropped |
| SessionLedger.SettledOnce | core/engine.go:3374-3382 | No message is dispatched twice, dropped twice, or both |
| SessionAgents.StepAgents | core/engine.go:6478-6500 | Every step keeps: an agent session is reachable through the map, claimed by one closing goroutine, or closed, never two of these |
| SessionAgents.ClosedAtMostOnce | core/engine.go:2589-2612 | In every run, under any interleaving of cleanup, stop, recycling and replacement, no agent session is closed twice |
| SessionAgents.MappedAgentIsCaptured | core/engine.go:6478-6500 | /stop and cleanup capture the agent session of the mapped state, if it has one, and take it from the state |
| SessionAgents.ClaimEndsInClose | core/engine.go:2606-2612 | In every reachable state a goroutine gives up a captured agent session only by a step that closes it, after which it is not alive and was closed once |
| SessionAgents.RecyclingCloses | core/engine.go:2436-2447 | In every reachable state a mismatch stops the mapped state and closes its live agent session, once, and a new state takes the map entry |
| SessionAgents.CapturedIsClosed | core/engine.go:2589-2612 | Over runs: an agent session captured by a stop or a cleanup is at every later state either claimed by that one goroutine, or closed exactly once, not alive and claimed by nobody |
| SessionLeaks.LeakStep | core/engine.go:2614-2625 | In every reachable state in which all live agent sessions are mapped or claimed, a step leaves one that is neither if and only if it is the last step of a cleanup without expected state while a state with a live agent is mapped |
| SessionLeaks.NothingLeaks | core/engine.go:2583-2625 | In every run without such a step every live agent session is mapped or about to be closed |
| SessionLeaks.LeakIsReached | core/engine.go:2614-2625 | A reachable run in which such a step leaks the agent session of a running turn |
| SessionProgress.EveryGoroutineCanMove | core/engine.go:1621-1651 | No goroutine is ever stuck: whatever the others do, it has a step to take until it has finished |
| SessionProgress.StepLeadsOn | core/engine.go:3388-3428 | Every step leads its goroutine on: outside the loop of turns it has finished after at most 7 steps of its own, whatever comes between them |
| SessionProgress.OnlyLiveStatesAreQueuedOn | core/engine.go:1730-1740 | A handler gets a state to queue on if and only if its lookup finds that state mapped with an agent that is starting or alive |
| SessionProgress.AppendAccepts | core/engine.go:1748-1767 | A message is accepted, behind the queued ones, if and only if fewer than 5 are queued; otherwise only its handler ends |
| SessionProgress.StepSettles | core/engine.go:3374-3409 | For every kind of step what it adds to the log: failed turns, early returns, /stop and cleanup report the whole queue in order and empty it, a result dispatches the first message, the message in hand is dispatched if the agent lives and dropped if not, and no other step settles a message |
| SessionProgress.WorkStartsAlive | core/engine.go:3406-3409 | The drain loop after a message in hand, and the orphan drain, work on a state with a live agent only and report its messages as dropped only when it is dead |
| SessionProgress.StopRunsThrough | core/engine.go:6478-6500 | A /stop taken in one go unmaps the state, reports its messages and closes its agent session |
| SessionProgress.CleanupRunsThrough | core/engine.go:2583-2625 | A cleanup taken in one go does the same, with or without expected state, and the state has no agent any more |
| SessionAgents.ExpectedCleanupSparesOthers | core/engine.go:2583-2625 | The steps of a cleanup that expects a state change no other state and remove no other state from the map |
| SessionAgents.CleanupRemovesAnotherState | core/engine.go:2614-2625 | In every reachable state the last step of a cleanup removes a state other than the one it shut down if and only if it has no expected state and the map entry changed |
| SessionWitness.RaceWindowIsReached | core/engine.go:1644-1651 | The window that the second TryLock guards is real: a benign run reaches an unlocked session with a queued message and its handler before that TryLock |
| SessionWitness.LateAppendStrands | core/engine.go:1730-1753 | A reachable run strands a message because the state was replaced between the lookup and the append |
| SessionWitness.RecyclingStrands | core/engine.go:2436-2447 | A reachable run strands a message queued on a state that is then recycled |
| SessionWitness.FailedStartStrands | core/engine.go:2123-2126 | A reachable run strands an adopted queue when the agent does not start |
| SessionWitness.CompressReturnStrands | core/engine.go:6569-6577 | A reachable run strands a message queued while /compress fails to send its command |
| SessionWitness.UnmapStrands | core/engine.go:2614-2625 | A reachable run strands a message queued while a cleanup closes the agent session |
| SessionWitness.RetryStrands | core/engine.go:1644-1651 | A reachable run strands a message queued on a new placeholder while the turn of a stopped state has the lock |
| SessionWitness.DeathStrands | core/engine.go:3406-3409 | A reachable run in which only an agent dies strands a message queued after the drain loop reported the rest |
| SessionWitness.LateAppendReorders | core/engine.go:1730-1753 | A reachable run dispatches message 1 before message 0 because the first was appended to a state stopped after the lookup |
| SessionWitness.LateCompressReorders | core/engine.go:6510-6533 | The same through a /compress that locks after the state of its lookup was stopped |
| SessionWitness.UnconditionalCleanupRemovesReplacement | core/engine.go:2614-2625 | A reachable run in which a cleanup without expected state unmaps the running state that replaced the one it closed |
| SessionCells.Session.TryLock | core/session.go:32-40 | Sets the busy flag and succeeds exactly when it was clear |
| SessionCells.Session.Unlock | core/session.go:50-57 | Clears the busy flag |
| SessionCells.StateCell.Enqueue | core/engine.go:1748-1767 | Appends below the cap of 5 and refuses at it; nothing else of the state changes |
| SessionCells.StateCell.TakeOrUnlock | core/engine.go:3390-3401 | Unlocks the session exactly when the queue is empty, otherwise takes the first message and keeps the lock |
| SessionCells.StateCell.Take | core/engine.go:3205-3213 | Takes the first message and never unlocks |
| SessionCells.StateCell.TakeAll | core/engine.go:3374-3378 | Returns the whole queue in order and leaves it empty |
| SessionCells.StateCell.MarkStopped | core/engine.go:347-357 | The state is stopped afterwards, also when it was before |
| SessionCells.StateCell.AdoptPendingFrom | core/engine.go:2401-2411 | The new state gets the old one's queue and the old one is left empty; nothing happens for the same or no state or an empty queue |
| SessionCells.ReplaceCell | core/engine.go:2549-2557 | A fresh state starts with the queue of the state it replaces |
| SessionCells.Engine.Arrive | core/engine.go:1621 | The objects take the Arrive step: TryLock, and one more goroutine |
| SessionCells.Engine.QueueMessage | core/engine.go:1748-1767 | The append section changes the whole system as the Append step does, and succeeds below the cap |
| SessionCells.Engine.RetryLock | core/engine.go:1648-1650 | The second TryLock is the Retry step |
| SessionCells.Engine.NextAfterResult | core/engine.go:3205-3213 | The event loop's consumer is the Result step: it dispatches the same message the drain loop would take and keeps the lock |
| SessionCells.Engine.DrainNext | core/engine.go:3388-3401 | The head of the drain loop is the Drain step: "empty" and "unlocked" are one section |
| SessionCells.Engine.DropAll | core/engine.go:3374-3382 | Reporting on an early return is the DropAll step, and the senders told are exactly the messages that the step logs as dropped |
| SessionCells.Engine.Replace | core/engine.go:2549-2557 | Replacing a missing or dead state is the Acquire step, on a state object of its own |
| SplitMessage.Split | core/engine.go:11020-11050 | The loop ends and returns the specified chunks, or the text itself when it is short |
| SplitMessage.ChunksConcat | core/engine.go:11020-11050 | The chunks concatenate to the text |
| SplitMessage.ChunkSizes | core/engine.go:11033-11045 | Every chunk has 1 to maxLen runes; a cut is made only where the rest is over maxLen, and then the chunk has more than half of maxLen, ends after a newline when shorter than maxLen, and passes over no newline in the second half of the window |
| SplitMessage.ChunkCount | core/engine.go:11026-11048 | The text stays one chunk if and only if it is within maxLen; the number of chunks is bounded by the text length from both sides |
| TurnText.Turn.OnThinking | core/engine.go:2799-2828 | Refines the step: a pending segment is sent and counted as surfaced in quiet mode always, otherwise only for non-empty thinking |
| TurnText.Turn.OnToolUse | core/engine.go:2841-2871 | Refines the step: the tool is counted and a pending segment is surfaced in both display modes |
| TurnText.Turn.OnText | core/engine.go:2930-2936 | Refines the step: non-empty text is collected |
| TurnText.Turn.OnPermission | core/engine.go:2945-2974 | Refines the step: nothing happens when auto-approved, otherwise a pending segment is surfaced |
| TurnText.Turn.OnResult | core/engine.go:3042-3153 | Sends only the unsent rest when a tool was used and text was surfaced, otherwise the whole chosen response |
| TurnText.Turn.OnChannelClosed | core/engine.go:3331-3364 | The same for an exited agent process, whose response is all collected text |
| TurnText.RunAccounts | core/engine.go:2799-2974 | After any events: what was sent is the surfaced prefix of all text, text was surfaced exactly when a flushing event came after text, and toolCount is positive exactly when a tool was used |
| TurnText.EventSends | core/engine.go:2799-2974 | The messages that one more event sends, for every kind of event: a tool use, a permission request that is not auto-approved, and thinking if it is hidden or says something send the text so far, as one text cut into messages of at most 4000 characters; no other event sends anything |
| TurnText.SentMessagesFit | core/engine.go:3124-3153 | Every message of a turn has 1 to 4000 characters, except that an empty response is sent as one empty message |
| TurnText.ToolTurnDeliversOnce | core/engine.go:3124-3135 | A turn with a tool event and surfaced text delivers the concatenation of all text events exactly once |
| TurnText.OtherTurnSendsResponse | core/engine.go:3146-3153 | Every other turn delivers what was surfaced followed by the whole response |
| TurnText.EndSends | core/engine.go:3124-3153 | The messages that the end of a turn sends: the text not yet sent, if any, when a tool was used and text surfaced; otherwise the response, each cut as one text |
| TurnText.TurnDeliversOnce | core/engine.go:3124-3153 | For any response: the text is delivered exactly once if and only if a tool was used and text surfaced, or the response is exactly the text not yet surfaced |
| TurnText.ResultDeliversOnce | core/engine.go:3060-3153 | For any result event and any footer and indicator: exactly once if and only if a tool was used and text surfaced, or the finished response is exactly the text not yet surfaced; without text of its own and without footer, if and only if a tool was used or nothing was surfaced |
| TurnText.ClosedTurnDeliversOnce | core/engine.go:3331-3364 | When the agent exits the text is delivered exactly once if and only if a tool was used or nothing was surfaced |
| TurnText.ResultDelivers | core/engine.go:3042-3153 | Everything a turn with a result event delivers, in terms of its events: all text once if a tool was used and text surfaced; otherwise what surfaced, followed by the finished response, which is the result's own text, or all text if it has none or nothing surfaced and tool messages are hidden, or the given reply if there is no text |
| TurnText.ClosedDelivers | core/engine.go:3331-3364 | The same when the agent exits: all text once, or what surfaced followed by all text |
| TomlLine.OneKeyPerLine | config/config.go:2704-2714 | A line matches at most one bare key |
| TomlLine.UnquoteQuote | config/config.go:2794-2796 | A TOML reader gets the value back exactly when it has no bell and no vertical tab; otherwise the text is no TOML string |
| TomlLine.QuoteIsNeutral | config/config.go:2794-2796 | A quoted value is one line, trimmed, and the comment scanner passes over it whatever it contains |
| TomlLine.ExtractLineComment | config/config.go:2809-2831 | The scanner loop with its two flags returns the trimmed text from the first '#' outside a quoted string |
| TomlLine.ReplacedLineShape | config/config.go:2750-2758 | A rewritten line is indentation, key, equals sign, value and comment; it matches its key, is no header, keeps indentation and comment, and its value reads back |
| TomlLine.ReplacedTwice | config/config.go:2750-2758 | Put-put on one line, for every line and every value: only the last value counts |
| TomlLine.QuotedValueReadsBack | config/config.go:2750-2758 | The string a key was set to is the string read back from its line, under the same condition |
| TomlLine.BoolIsValueText | config/config.go:2787-2792 | A boolean is written as true or false, a value text, so the laws for raw keys hold for it |
| TomlSpans.HeadersAreExclusive | config/config.go:2687-2697 | No line is read as two different indexed headers, so the agent test's extra conditions exclude nothing |
| TomlSpans.FindSectionEnd | config/config.go:2614-2619 | The inner loop finds the line before the next header, or the default end |
| TomlSpans.ScanPlatform | config/config.go:2651-2678 | The loop over one platform block computes its type line and options section |
| TomlSpans.ScanAgent | config/config.go:2604-2642 | The loop over one project computes agent, agent options and provider sections |
| TomlSpans.BuildRawProjectSpans | config/config.go:2577-2685 | All loops together compute the index specified by TomlIndex.SpansOf |
| TomlIndex.ProjectsTileTheFile | config/config.go:2577-2596 | Project spans are in range, start at their headers, follow each other without gap up to the last line, and hold no other project header |
| TomlIndex.PlatformsAreNested | config/config.go:2644-2681 | Platform spans lie in their project, tile it from the first platform on, and their options section is the first one, holds no header and ends before the next |
| TomlIndex.AgentSectionsAreSound | config/config.go:2604-2623 | Agent and agent options spans are those of the last such header and hold no header |
| TomlIndex.ProvidersAreSound | config/config.go:2624-2641 | There is one provider span per provider header, in order |
| TomlIndex.TypeLineIsSound | config/config.go:2663-2667 | The type line is the first type key before any sub-table of the platform |
| TomlText.HeaderMatches | config/config.go:2687-2702 | A header matches with blanks around it or a comment behind it, and not as the beginning of other text |
| TomlText.KeyMatches | config/config.go:2704-2714 | A key line matches with any blanks before the key and around the equals sign |
| TomlText.MarksAreText | config/config.go:2577-2685 | What the index knows of a line is what the line matches, for the six header texts and the keys "type" and "name" |
| TomlText.ProjectText | config/config.go:2577-2623 | The index over the text: a project starts at a `[[projects]]` line and reaches to the next one; its agent section is its last `[projects.agent]` line with the lines up to the next header, its agent options the last `[projects.agent.options]` likewise |
| TomlText.PlatformText | config/config.go:2644-2681 | A platform starts at a `[[projects.platforms]]` line and reaches to the next one; its options section is its first `[projects.platforms.options]` line with the lines up to the next header, its type line the first "type" key before any header |
| TomlText.ProviderText | config/config.go:2624-2641 | The provider spans are the `[[projects.agent.providers]]` lines of the project in order, each with its first "name" key |
| TomlIndex.InsertKeepsPlatforms | config/config.go:2716-2728 | Inserting lines that are no project or platform header keeps all projects and platforms and moves their bounds with the lines |
| TomlIndex.InsertMovesPlatform | config/config.go:2716-2728 | A platform and its options section move as a whole when plain lines are inserted, or any lines outside its block |
| TomlEdit.InsertLines | config/config.go:2716-2728 | Inserts at the position clamped into the file |
| TomlEdit.LeadingWhitespace | config/config.go:2798-2807 | Returns the longest prefix of blanks and tabs |
| TomlEdit.UpsertTomlRawKey | config/config.go:2762-2785 | For all bounds: the lines of the clamped run become Put of what they were, all other lines stay |
| TomlEdit.UpsertTomlStringKey | config/config.go:2730-2748 | The same with the value quoted |
| TomlEdit.PutLine | config/config.go:2736-2747 | An upsert changes one line or adds one, which is then the first to set the key |
| TomlEdit.PutGet | config/config.go:2730-2748 | Put-get on a run of lines |
| TomlEdit.PutOther | config/config.go:2730-2748 | Every other key of the run keeps its value |
| TomlEdit.PutPut | config/config.go:2730-2748 | Put-put and idempotence on a run of lines |
| TomlConfig.UpsertIsLens | config/config.go:1815-1822 | Upserting in a platform's options section changes that section to Put of it; every line outside the section is kept in order, and so are projects, platforms and every other platform's options |
| TomlConfig.FileIsItsParts | config/config.go:1815-1822 | The file is the lines before the section, its lines and the lines after it, so that nothing is outside what UpsertIsLens speaks of |
| TomlConfig.OptionsAreALens | config/config.go:1815-1822 | Put-get, other keys and put-put for (project, platform, key) on the whole file, through the rebuilt index |
| TomlConfig.EditKeeps | config/config.go:1789-1796 | Any edit inside one platform block below its header keeps the project and platform counts, all other platforms' options, and the surrounding lines in order |
| TomlOptions.OptionsSectionAppears | config/config.go:2116-2128 | Adding the options block gives the platform a section without keys; the lines before it are the old ones and the block's opening, the lines after it are the old ones |
| TomlOptions.MakeOptionsBlock | config/config.go:2117-2125 | The block has a blank line before and after the header exactly where one is missing |
| TomlOptions.ReloadSpan | config/config.go:2111-2114 | The unchecked indexing is in range for a platform that is there, and gives its rebuilt span |
| TomlOptions.WriteGroupLists | config/config.go:2103-2133 | Fails exactly when the platform is not in the raw file; otherwise both lists read as given, every other option as before, and every line outside the options section is kept in order, up to the opening of a new section |
| TomlFile.JoinOfSplit | config/config.go:2557-2575 | Text to lines and back is the identity up to a missing final newline |
| TomlFile.SplitOfJoin | config/config.go:2557-2575 | Lines to text and back is the identity if and only if the file is not one empty line |
| TomlFile.UpsertProjectStringKey | config/config.go:2256-2270 | Out of range leaves the file alone; otherwise the key is upserted before the project's first sub-table |
| TomlFile.ProjectKeyIsLens | config/config.go:2256-2270 | Setting a project key changes the project's own table to Put of it, no line outside that table and no platform's options |
| CommaList.MergeCommaSeparatedValue | config/config.go:2182-2232 | The loop with its closure computes the specified merge |
| CommaList.RemoveCommaSeparatedValue | config/config.go:2234-2254 | The loop computes the specified removal and whether something was removed |
| CommaList.ItemsAre | config/config.go:2182-2254 | The items of any text: commas part them, and between two commas the text without its blanks is one, if anything is left |
| CommaList.DistinctIs | config/config.go:2182-2232 | The distinct items are every item once, in the order in which they first come |
| CommaList.FoldIsLower | config/config.go:2212-2252 | Ids are compared as their lower-case forms |
| CommaList.RemovedFlag | config/config.go:2234-2254 | A removal is reported if and only if the list, not "*" alone, holds the id in either case |
| CommaList.RemovedItems | config/config.go:2234-2254 | After a removal exactly the other items are left, in order; a list of "*" alone is left as it is |
| CommaList.RemovedText | config/config.go:2234-2254 | The items left are written with commas between them; nothing but the blanks around the list is changed when there is no id or the list is "*" |
| CommaList.WithoutIs | config/config.go:2243-2252 | The items left are those that differ from the id in lower case, in their order and with their repetitions |
| CommaList.MergedItems | config/config.go:2182-2232 | After a merge the list is its distinct items, and the new one unless it was there up to case, written with commas between them; a "*" swallows the list |
| CommaList.MergedStar | config/config.go:2182-2232 | Merging "*" leaves "*" alone, reported as added to a blank list only |
| CommaList.MergeTwiceIsOnce | config/config.go:2182-2232 | Merging an id twice is merging it once, with the second merge reporting not added, if and only if the id has no comma or the list has a "*" |
| CommaList.CommaIdGrows | config/config.go:2182-2232 | An input for which it fails |
| CommaList.GroupModeIsExclusive | config/config.go:2088-2101 | The other list never holds the id, the requested one holds it if and only if it had no "*", and every different id stays in both lists |
| GroupModes.SetIsExclusive | config/config.go:2088-2101 | After one call, read as the next call reads it: the requested mode holds the id if and only if its list had no "*"; the other mode holds it if and only if the change was to admin, every public id was that id, and the legacy list holds it |
| GroupModes.SetKeepsExclusive | config/config.go:2088-2101 | A call on lists that share no id leaves them so if and only if it does not empty the public list while a legacy id is, or becomes, an admin group |
| GroupModes.RunIsExclusive | config/config.go:2088-2101 | Through any sequence of calls on any ids the modes stay exclusive if and only if no call does that |
| GroupModes.NoLegacyIsExclusive | config/config.go:2088-2091 | Without an id in the legacy option they stay exclusive for ever |
| GroupModes.LegacyIdReturns | config/config.go:2088-2101 | For any two different ids, one of them in the legacy option only: setting both to admin writes the first into the public list while it stays in the admin list |
| TomlOutline.OutlineReads | config/config.go:2577-2685 | Reading a file line by line gives the projects, platforms and contents of options sections that the index gives |
| TomlFormat.FormatKeepsCounts | config/config.go:1136-1202 | Formatting keeps the numbers of projects and platforms if and only if it removes no project header and no platform header of a project |
| TomlFormat.FormatKeepsOptions | config/config.go:1136-1202 | Then every options section keeps its content, unless it had none |
| TomlFormat.FormatKeepsIndex | config/config.go:1136-1202 | Formatting keeps counts and the content of all options sections if and only if, besides, it removes no empty options header above another one of the same platform |
| TomlFormat.FormatKeepsValues | config/config.go:1136-1202 | Under that condition every key of every options section reads as before through the rebuilt index |
| TomlFormat.KeyedHeaderIsKept | config/config.go:1141-1163 | A header with a key line of its own is not removed |
| TomlFormat.FormattedLosesNothing | config/config.go:1136-1202 | Formatted lines meet the conditions, so that later edits lose nothing |
| TomlFormat.WrittenReadsBack | config/config.go:3134-3135 | Reading the written text gives exactly the formatted lines of the edit |
| TomlFormat.PlatformIsLost | config/config.go:1154-1163 | For any such file of two platforms, the first without lines of its own: the second is found no more at its place |
| TomlEdited.EditKeepsBlocks | config/config.go:2103-2133 | Whether formatting loses a header is the same before and after an edit of a platform's options |
| GroupModeEdit.ModesAreWords | config/config.go:2026-2034 | "public" and "public_group" ask for public, "admin" and "admin_group" for admin, in any case and with blanks around; nothing asks for both |
| GroupModeEdit.ListsHold | config/config.go:2088-2101 | The list of the requested mode holds the id after the call if and only if it had no "*"; the other written list never does |
| GroupModeEdit.AddsIs | config/config.go:2092-2101 | The id is reported as added if and only if the list of the requested mode has no "*" |
| GroupModeEdit.SetFeishuGroupMode | config/config.go:2011-2150 | From file text to written text: error cases in order, for the four words of the two modes; for "public" and "public_group", and for "admin" and "admin_group", which written list holds the id; the lists and flags of one GroupModes.Set, the edited lines of WriteGroupLists, and their formatted text. The next call reads these lists if TOML can express them and no project or platform header of the file is without lines of its own |
| GroupModeEdit.WrittenFileKeepsCounts | config/config.go:2133 | After the call the file has its projects and platforms if and only if formatting removes no header of theirs, which can be told from the file before |
| GroupModeEdit.WrittenListsReadBack | config/config.go:2103-2133 | If so, the formatted file gives both lists back if and only if TOML can express them, and the legacy option reads as before |
| GroupModeEdit.OthersReadBack | config/config.go:2103-2133 | If so, every other platform's options section that says anything says the same in the formatted file |
| GroupModeEdit.EditIsSet | config/config.go:2011-2150 | If so, a call on the lists read from the file leaves a formatted file with the lists of GroupModes.Set, in which nothing can be lost any more |
| GroupModeEdit.FilesFollowRun | config/config.go:2011-2150 | Through any sequence of calls on such a file its lists are those of GroupModes.Run, so that GroupModes.RunIsExclusive holds for the file |
| GroupModeEdit.WrittenListsAreExclusive | config/config.go:2088-2133 | End to end, through the formatter: the lists read back, with the legacy option standing in for a blank public list, hold the id exclusively except in the case that SetIsExclusive names |
| FormatToml.EmptySections | config/config.go:1141-1163 | Pass 1 finds exactly the headers without content before the next header |
| FormatToml.FormatTOML | config/config.go:1136-1202 | Both passes and the trimming loops compute the specified text |
| FormatToml.FormatIsReading | config/config.go:1136-1202 | Both passes and the trims together are one reading: the lines that are not blank, without headers of empty sections, each without trailing blanks, with one blank line before each header and wherever blank lines were, and none at either end |
| FormatToml.FormatKeepsContent | config/config.go:1165-1194 | The sections with content are kept one by one and in order, also under headers that are alike, each with its header and its content lines up to trailing spaces and tabs; above each there are as many array elements less as lost their header above it |
| FormatToml.SectionStaysInElement | config/config.go:1141-1194 | A section stays in its array element if and only if no `[[` header above it is removed |
| FormatToml.FormatIsNormal | config/config.go:1165-1201 | The result has no trailing blanks, single blank lines, a blank line before each header, no empty section, and no blank line at either end |
| FormatToml.NormalIsFixed | config/config.go:1136-1202 | Lines in that normal form are left alone, also with the empty lines that splitting written text adds |
| FormatToml.FormatTwice | config/config.go:1136-1202 | formatTOML is idempotent on all texts |
| FenceSplit.SplitMessageCodeFenceAware | core/markdown.go:59-116 | The loop returns the specified chunks, or the text itself when it fits or there is no limit |
| FenceSplit.ChunksKeepMeaning | core/markdown.go:66-115 | Without the added lines the chunks give the original lines in order, each with the open fence it has in the whole text; a chunk is closed exactly when its last line leaves a fence open |
| FenceSplit.ChunkReadsAlone | core/markdown.go:78-97 | A chunk read on its own shows its lines in these fences and ends with no fence open |
| FenceSplit.ChunksAreReadable | core/markdown.go:80-114 | The text of each chunk splits into the reopened fence, its original lines and the closing fence |
| FenceSplit.ChunkLength | core/markdown.go:72-97 | Chunks of two lines or more are below maxLen, or at most maxLen + 3 when the last line opens a fence; chunks of one line too when every line fits with its fence |
| FenceSplit.OverflowIsReached | core/markdown.go:72-86 | For every maxLen from 10 on, texts whose lines all fit have a chunk of length exactly maxLen + 3 |
| FenceSplit.CutsAreNeeded | core/markdown.go:71-79 | A chunk is cut only where it had to be: with the first line of the next chunk it would have been over maxLen, or over maxLen - 4 with a fence open |
| FenceSplit.ChunkCount | core/markdown.go:66-115 | So the number of chunks is bounded: apart from fences opened again, every two neighbours hold more than maxLen - 4 bytes of the text |
| FenceSplit.FencesAre | core/markdown.go:97-104 | A line is a fence if and only if it begins, after blanks, with three backticks |
| TokenBucket.DefaultBurst | core/outgoing_ratelimit.go:20-25 | Without a configured burst it is the least whole number not below the rate |
| TokenBucket.BurstIsGranted | core/outgoing_ratelimit.go:20-82 | Of n tries at one instant a fresh limiter grants all without a limit, otherwise the burst of the platform's own override, or of the defaults if it has none: the configured one as it is, or else the rate rounded up |
| TokenBucket.TokenBucket.Refill | core/outgoing_ratelimit.go:84-96 | Refines the refill at a given time |
| TokenBucket.OutgoingRateLimiter.Attempt | core/outgoing_ratelimit.go:101-121 | One round of Wait: grants at once without a limit; otherwise makes the bucket if missing, refills, and takes a token or returns the exact waiting time; no other bucket changes |
| TokenBucket.RefillSplits | core/outgoing_ratelimit.go:84-96 | Refilling at any instant in between does not change the result |
| TokenBucket.RunIsSound | core/outgoing_ratelimit.go:68-96 | Over any tries all tokens stay within 0 and the burst |
| TokenBucket.PlatformsAreIsolated | core/outgoing_ratelimit.go:68-82 | In any run a platform is granted exactly what it would be granted if no other platform sent anything, and ends with the same bucket |
| TokenBucket.WaitingSuffices | core/outgoing_ratelimit.go:107-130 | After a refusal an attempt is granted if and only if the returned time has passed |
| TokenBucket.TokensAccount | core/outgoing_ratelimit.go:84-121 | Tokens left and tokens spent come from the tokens at the start and the refill |
| TokenBucket.SendsAreBounded | core/outgoing_ratelimit.go:68-130 | In any interval a platform is granted at most burst plus rate times the length of the interval, with any number of platforms |
| CronScheduler.CronStore.Remove | core/cron.go:144-157 | Removes the first job of that id and says whether there was one |
| CronScheduler.CronStore.SetEnabled | core/cron.go:159-172 | Changes the flag of the first job of that id only |
| CronScheduler.CronStore.Update | core/cron.go:268-288 | Refuses read-only fields, unknown jobs and wrong types, and otherwise changes that job only |
| CronScheduler.CronScheduler.ScheduleJob | core/cron.go:608-626 | The old timer goes first, also when the library then refuses the expression |
| CronScheduler.CronScheduler.Start | core/cron.go:448-460 | Schedules the enabled jobs of the loaded list |
| CronScheduler.CronScheduler.AddJob | core/cron.go:466-481 | Validates, normalizes the session mode, stores, and schedules if enabled |
| CronScheduler.CronScheduler.RemoveJob | core/cron.go:483-491 | Drops the timer and the stored job |
| CronScheduler.CronScheduler.EnableJob | core/cron.go:493-502 | Enables and schedules, or reports that there is no such job |
| CronScheduler.CronScheduler.DisableJob | core/cron.go:504-515 | Disables and drops the timer, or reports that there is no such job |
| CronScheduler.CronScheduler.UpdateJob | core/cron.go:519-586 | Checks, unschedules, updates and reschedules in the order of the source |
| CronTable.UpdatedFieldIs | core/cron.go:291-362 | What an update can change of id, expression and enabled flag, and when it is refused for type |
| CronJobs.UpdateIsLens | core/cron.go:291-362 | An update is accepted if and only if the value fits the field; then the field of that JSON name shows it, a number without its fraction, and all other fields show what they did |
| CronJobs.FieldsAreAll | core/cron.go:20-37 | A job is what its fields show |
| CronJobs.SessionModeIs | core/cron.go:70-81 | Blank and "reuse" are stored as "", "new_per_run" and "new-per-run" as "new_per_run", in any case and with blanks around; anything else is only trimmed |
| CronJobs.GoodJobIs | core/cron.go:83-99 | Which jobs pass validation, in the words of the request |
| CronJobs.StepKeepsGood | core/cron.go:466-586 | An operation leaves only valid jobs stored if and only if it does not set a negative timeout by UpdateJob |
| CronJobs.StepIsPerJob | core/cron.go:466-586 | An operation that keeps the agreement does to the stored list what it says to the job of its id, and nothing to any other |
| CronJobs.RunIsPerJob | core/cron.go:466-586 | Through any sequence of such operations what is stored for an id depends on that id alone |
| CronJobs.StepKeepsOrder | core/cron.go:144-157 | An accepted job goes to the end of the list, a removal takes out the first job of that id and leaves the others in order, no other operation moves a job |
| CronTable.RefusedHasNoTimer | core/cron.go:608-626 | Scheduling with an expression that the library refuses leaves the job without a timer and all other timers alone |
| CronTable.StartAgrees | core/cron.go:448-460 | After Start on valid expressions and unique ids, store and timer table agree |
| CronTable.StepAgrees | core/cron.go:466-586 | An operation keeps the agreement if and only if it is not an Add of a stored id and not an update of "enabled" of an enabled job with a value that is no bool |
| CronTable.RunAgrees | core/cron.go:448-626 | Through any sequence of other operations a job has a timer if and only if it is stored and enabled, and it is the one of its current expression |
| CronTable.TimersFollowJobs | core/cron.go:448-626 | From Start through any such sequence: a stored and enabled job has exactly one timer, with its current expression, and no other id has any |
| CronTable.RemoveInsideEnableLeavesTimer | core/cron.go:483-502 | The interleaving that the atomic operations leave out: a removal between SetEnabled and scheduleJob leaves a timer without a job |
| DirHistory.DirHistory.Add | core/dir_history.go:37-65 | Moves or puts the directory in front and cuts the list; other projects are not touched |
| DirHistory.DirHistory.Get | core/dir_history.go:83-92 | The entry at a 1-based index, "" out of range |
| DirHistory.DirHistory.Previous | core/dir_history.go:95-97 | The directory used before the current one |
| DirHistory.HistoryRefinesFullList | core/dir_history.go:37-65 | After any uses the stored list is the front of the full most-recent-first list, as much of it as fits, never more than maxSize entries |
| DirHistory.HistoryIsDistinct | core/dir_history.go:47-53 | A list without duplicates stays without duplicates |
| DirHistory.FullListIsByLastUse | core/dir_history.go:37-65 | The full list holds exactly the directories used or loaded, ordered by their last use |
| Dedup.MessageDedup.IsDuplicate | core/dedup.go:24-44 | The pruning loop and the lookup compute the answer and the new table |
| Dedup.DuplicateIffAcceptedLately | core/dedup.go:24-44 | A message is called a duplicate if and only if its id was accepted at most 60 seconds before; one without an id never |
| Dedup.AcceptancesAreApart | core/dedup.go:24-44 | Two acceptances of one id are more than 60 seconds apart |
| Dedup.TableIsPruned | core/dedup.go:24-44 | After a message with an id the table holds acceptances of the last 60 seconds only |

## Left out

- SessionFifo.NothingStranded: holds for runs in which the append finds the state of its lookup still mapped, agents
  start and stay alive, /compress drains, and nothing is stopped, cleaned up or recycled;
  `SessionRuns.UnlockedQueueIsMinded` is the statement for all runs without a hazard, and `SessionWitness` has a run
  for each condition given up.
- SessionRuns.LockDiscipline: the auto-compress branch inside a turn, idle auto-reset, /new and /switch with a second
  Session object, /btw, Engine.Stop and the workspace pools are not part of the protocol model.
- SessionAgents.ClosedAtMostOnce: the timeout and the retry of closeAgentSessionWithTimeout are not modelled; a close is
  one step.
- Panics on a nil agent session that is taken away while a turn runs are not modelled; the steps go on with no agent.
- SessionCells.StateCell.Enqueue: a queued message is its acceptance number; platform, reply context, images and files
  that travel with it are left out.
- SplitMessage.Split: does not model maxLen below 1, for which the source's loop does not end; its callers pass 4000.
- SessionProgress.EveryGoroutineCanMove: a step to take is not a promise that the scheduler takes it; fairness is not modelled.
- TurnText.Turn.OnResult: stream preview, compact progress, duplicate suppression by side text and failing sends are
  left out; the reply footer and the context indicator are one function parameter.
- TomlLine.UnquoteQuote: quoting is modelled for printable characters and ASCII control characters, not for unprintable
  characters beyond ASCII or invalid UTF-8; the reader knows the escapes of TOML 1.1 basic strings except \u and \U,
  and no literal or multi-line strings.
- TomlFile.ProjectKeyIsLens: is about the edited lines; what formatting then does to sections and index is
  `FormatToml.FormatKeepsContent` and `TomlFormat.FormatKeepsIndex`.
- TomlConfig.UpsertIsLens: is about the editor's own line model; multi-line strings and nested arrays of TOML are not
  seen by it or by the source.
- The edit of the type line in SaveFeishuPlatformCredentials, and the choice of the project and platform index from the
  parsed configuration, which needs a TOML parser.
- SessionCells.Engine.Replace: recycling, /stop, cleanup and /compress are not written out on the objects; the protocol
  model has them as steps.
- GroupModeEdit.SetFeishuGroupMode: the parsed options are parameters, because the TOML parser is not modelled; its
  contract says what follows when they are the ones the file holds.
- CommaList.MergedItems: strings.EqualFold and strings.ToLower are modelled on ASCII letters.
- TokenBucket.SendsAreBounded: arithmetic is exact; floating-point rounding and the truncation of the waiting time to
  nanoseconds are left out, and so is cancellation of a waiting caller.
- CronTable.StepAgrees: each operation is one step, while the source runs it as several lock sections; the results hold
  for operations that do not overlap (`CronTable.RemoveInsideEnableLeavesTimer` is an overlap that breaks them).
- CronTable.UpdatedFieldIs: the reflection fallback of updateJobField, which can set a string field under another spelling
  of its name, is left out; such an update is refused in the model.
- CronScheduler.CronStore.Update: jobs are values in the store's list, so a caller that keeps a job pointer and changes
  it is not captured.
- executeJob, MarkRun, mute toggles and the human-readable form of cron expressions.
- DirHistory.HistoryRefinesFullList: SetMaxSize during the history is left out.
- Platforms, agents, hooks, HTTP, shell and file I/O, cards, i18n, speech, doctor checks and usage formatting.
