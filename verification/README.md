# A verified model of the agent harness

The harness runs language-model agents. An agent's state (work queue, event history, timers, processes,
memory, hooks, id generator) is shown to a model; the model answers with a Python script; the script runs
on a copy of the state, and the copy is committed or dropped. Around this kernel stand small concurrent and
streaming protocols: subscriptions, the process supervisor, chat sessions, the bridges' event-stream parser
and message chunker, and the watchers' debounce loop.

This project models that behaviour in Dafny and proves what the harness is meant to guarantee: over every
input, every interleaving or every reachable state. Where the code falls short of its intent, the model
keeps the code as it is, a lemma shows the failing case, and the theorem says exactly when the guarantee
holds.

Code that updates state in place is modelled by classes and loops (`WorkQueue`, `EventHistory`,
`TimerManager`, `HookTable`, `AgentRegistry`, `Forker`, `AgentLoop`, `SubscriberRegistry`, `SseParser`, the
renderer's and the debouncer's loops). Each method is proved equal to a function of the old state, and the
theorems are about those functions. Concurrent code is modelled as steps of tasks that interleave freely; a
step that is not enabled changes nothing.

## Files

| file | content |
|---|---|
| Base, Items | options, sequences, the stored values |
| Ids | the id generator |
| WorkQueue, History, CacheTiers, Timers, Hooks | the data structures of the state |
| Registry, Forks, Places | agent names, fork requests, the life of children, and the agent's own places |
| Kernel, Pipeline | one agent's state; hooks, events, timers, telemetry, the compaction trigger |
| Turn, Frames, Interleaving | the script, the commit stage by stage; what looks at channel and registry; a turn in small steps among other agents' |
| Calls | what the calls of a script ask for, read off the list of calls |
| QueuedItems, HookFacts | the item each event becomes, field by field; what a hook leaves behind |
| Passes | what a pass of the loop does before it decides |
| TurnFacts, TurnEffects, TurnOutcome | rollback, loop guards, memory and frozen history; what a turn causes outside; what it leaves of itself |
| Ledger, TurnLedger, KernelRuns | what every step keeps, and theorems about whole runs |
| Steadiness, CompactionMode | compaction mode |
| LaunchRuns, TimerRuns | processes from launch to end, and timers, through an agent's whole life |
| Agent | the agent loop as a class whose methods refine Kernel and Turn |
| Renderer | cache-aware rendering and the request built from it |
| Subscribers, Processes, ChatSessions | concurrent protocols |
| SseParser, Utf8, Telegram, Debounce | streams of text and events |

Other agents act on the shared registry at any time. Between steps of one agent they may change it in any
way; within a turn a response says what they do before each of the turn's own operations on it, and
`Interleavings.TurnIsAtomic` shows that this loses nothing. Hooks, subscribers, process output and the like
(`World`) may be different at every step of a run.

## What turned out not to hold as intended

- A hook that raises repeats an id: the exception item takes its id from the generator as it was before the
  hook, and the commit then puts the hook's copy of that generator back (`KernelRuns.RaiseRepeatsId`). A run
  draws an id twice in a row exactly when some hook in it raised (`KernelRuns.RepeatsIff`); the shortfall of
  the counter is the number of such hooks (`KernelRuns.CounterShortfall`); committing first removes it
  (`KernelRuns.CommitFirstIsFresh`). Only the items that wrap what a hook raised on are affected: within one
  period everything else has ids of its own, whatever hooks do (`KernelRuns.FreshAgentHasDistinctIds`).
- The end of a process can kill the agent instead of being queued: the preview of the output is cut 500 bytes
  before its end, and the program panics if that is within a character. `LaunchRuns.UnreadableOutput` is such
  an output; an agent survives a run exactly if it reads no end of a process with such an output
  (`LaunchRuns.SurvivesIff`), and a launch meets its end exactly then (`LaunchRuns.LaunchMeetsItsEnd`).
- A process's output is lost from the first line on that is not well-formed UTF-8, and its end is reported all
  the same (`Processes.GarbledLineLosesOutput`). What is stored when the end is reported is all of the output
  exactly if every line decodes (`Processes.ProcessProtocol`, `Processes.SignalMeansFlushed`).
- A commit is not one step to the other agents. Of two equal fork requests in one turn the first can be
  refused and the second accepted (`Places.RefusedThenAccepted`), of two messages to one agent the first
  delivered and the second dropped (`Places.DeliveredThenDropped`). But a recipient that was found is never
  lost again (`Places.ValidatedIsNeverNotFound`).
- Completing a compaction removes the Compaction item by its id, and so takes whatever item stands in front
  of it with the same id. `CompactionMode.CompletionTakesTheWrongItem` is a run of a new agent, four steps
  long, that ends with a Compaction item in an agent that is not compacting. Over every run, with any ids
  and hooks, the mode is kept exactly when no completed compaction finds its item so obscured
  (`CompactionMode.ModeHoldsIff`). What matters is the queue the completing turn has made by then: looking
  at the queue before the turn is exact only if script and commit leave it alone
  (`CompactionMode.QuietTurnKeepsModeIff`, `CompactionMode.ScriptCanUnobscure`).
- Nor does it reset the token count that triggered it (`CompactionMode.RetriggersIff`).
- A restart forgets that a compaction is under way but not its item: it keeps the mode exactly when no
  Compaction item is queued (`CompactionMode.RestartKeepsModeIff`, `CompactionMode.RestartBreaksMode`).
- A turn cancelled by a shutdown while it waits is not rolled back: its commit stands, without its history
  entry and what was still to be performed (`Interleavings.CancelledTurnStands`). A turn can be cancelled so
  exactly when its script ends well and it then waits for a process, kills one or writes to one
  (`Interleavings.CancelIff`); with other agents quiet, exactly when it does not fail and does so
  (`Interleavings.UndisturbedCancelIff`).
- `done()` survives a rollback in part: the result is stored before message recipients are validated
  (`TurnFacts.ResultSurvivesRollback`).
- README.md:213-226 of the program calls the history before the window immutable. The window is recomputed on
  the live list, so removals let a script work its way back: with `r` removals the first `L - w - r` entries
  are safe (`Histories.FrozenPrefix`), and for every `r` some script reaches the next one
  (`Histories.FrozenBoundIsTight`). With a repeated id even the prefix can be edited
  (`Histories.RepeatedIdThawsPrefix`).
- A timer waiting for its acknowledgement still counts as the next deadline
  (`Timers.PendingTimerHoldsDeadline`).
- A kill signal alone does not end an idle agent: it goes on waiting until it has work
  (`TurnFacts.KilledIdleWaits`).
- A process can stay in the table of running processes after it has ended, and be reported as timed out
  (`Processes.RaceIsReachable`, `Processes.LateInsertRace`).
- The bridges' parser departs from section 9.2.6 of the WHATWG HTML Standard
  (`SseParsing.ReturnNewlineNeverDispatches`, `SseParsing.LastDataLineWins`). Exactly the frames whose fields
  are single lines without white space around them survive printing and parsing
  (`SseParsing.SurvivesPrintingIff`), and a block's data is the standard's exactly when the standard's is
  such a line (`SseParsing.DataIsStandardIff`).

## Model

| member | source | states |
|---|---|---|
| Ids.IdGenerator.Next | src/types.rs:62-67 | the id of the current counter, and the counter advanced by one |
| Ids.ReadHexInverse | src/types.rs:66 | four hexadecimal digits can be read back: printing loses nothing |
| Ids.IdCollision | src/types.rs:62-67 | two counters give the same id exactly when they agree modulo 65536 |
| Ids.WindowDistinct | src/types.rs:62-67 | any 65536 consecutive ids are pairwise distinct, wherever the counter starts |
| Ids.EveryIdIsDrawn | src/types.rs:60-67 | the shuffle is onto: each period draws every sixteen-bit value |
| Ids.CounterWrapIsHarmless | src/types.rs:62-67 | wrapping the 64-bit counter does not disturb the sequence of ids |
| WorkQueues.WorkQueue.PartitionPoint | src/types.rs:210-216 | the number of leading items that stay ahead of a new one |
| WorkQueues.WorkQueue.Push | src/types.rs:209-218 | the item is inserted behind all that are ahead of it; the queue stays sorted |
| WorkQueues.WorkQueue.Remove | src/types.rs:220-226 | the first item with the id is taken out and returned, nothing else moves |
| WorkQueues.InsertIsStable | src/types.rs:209-218 | a new item goes behind all items of its own priority and time |
| WorkQueues.StableSortUnique | src/types.rs:209-226 | a sorted queue is determined by its classes of equal rank |
| WorkQueues.QueueIsStableSort | src/types.rs:209-226 | after any pushes and removals the queue is the stable sort of what was admitted and not removed |
| Histories.EventHistory.CacheSplits | src/types.rs:332-343 | the loop computes the tier boundaries |
| Histories.EventHistory.IsModifiable | src/types.rs:345-349 | whether the id occurs in the window |
| Histories.EventHistory.Remove | src/types.rs:355-361 | the first entry with the id is removed |
| Histories.EventHistory.ReplaceWithSummary | src/types.rs:363-373 | the first entry with the id becomes a summary that keeps id and time |
| Histories.EditLandsInWindowIff | src/types.rs:345-373 | an allowed edit lands in the window exactly when the id does not also occur before it |
| Histories.RepeatedIdThawsPrefix | src/types.rs:345-361 | with a repeated id a removal allowed by the window takes an immutable entry |
| Histories.FrozenPrefix | src/python.rs:667-683 | over any script with r successful removals the first L-w-r entries are untouched and the length drops by r |
| Histories.SurvivorsKeepStamps | src/python.rs:667-683 | survivors keep order, id and time |
| Histories.ReplacementsKeepPrefix | src/python.rs:667-674 | a script that only replaces leaves the whole immutable prefix as it was |
| Histories.FrozenBoundIsTight | src/python.rs:667-683 | for every r some script with r removals rewrites the entry just past the bound |
| CacheTiers.SplitsShape | src/types.rs:332-343 | boundaries are non-decreasing, at most the immutable count, and leave fewer than a stride uncovered |
| CacheTiers.SplitsAligned | src/types.rs:332-343 | each boundary is a multiple of its tier's alignment |
| CacheTiers.ColderSplitsAgree | src/types.rs:332-343 | if one tier's boundary has not moved, no colder tier's has |
| CacheTiers.TierPeriod | src/types.rs:317-331 | a boundary stays put exactly while the count stays in the same multiple of stride to the power of the tier |
| Renderer.RenderContext | src/renderer.rs:60-163 | the loops produce prefix, merged segments and text as specified |
| Renderer.BuildSegments | src/renderer.rs:122-131 | segment by segment the history between consecutive boundaries |
| Renderer.MergeSegments | src/renderer.rs:146-159 | the greedy merge of small segments |
| Renderer.SegmentedEqualsFlat | src/renderer.rs:108-144 | the segments and the tail together render each entry once, in order, as one flat rendering does |
| Renderer.MergeConserves | src/renderer.rs:146-161 | merging loses no byte; every merged segment reaches the threshold, the first together with the prefix in front of it; the residual stays below it |
| Renderer.TextIsPrefixCachedTail | src/renderer.rs:138-163 | text is prefix, cached segments and the tail recovered by byte offset |
| Renderer.CachedBytesStable | src/renderer.rs:104-163 | if entries are untouched up to an unmoved boundary, every cached segment up to it is byte-identical |
| Renderer.GrowthKeepsTier | src/renderer.rs:104-131 | history that only grows behind the immutable entries meets that condition at every unmoved boundary |
| Renderer.CachedForAPeriod | src/renderer.rs:850-872 | for a whole period of a tier its cached bytes do not change |
| Renderer.TurnKeepsCache | src/renderer.rs:104-163 | a script with r removals and any rewrites, and new entries, keep the cached bytes of every unmoved boundary within the first L-w-r entries |
| Renderer.RewritesKeepCache | src/renderer.rs:104-163 | a script that only rewrites does so at every unmoved boundary |
| Renderer.BuildRequest | src/api_client.rs:355-396 | the request's blocks: prefix, images, cached segments with breakpoints, tail, images |
| Renderer.RequestCarriesText | src/api_client.rs:355-396 | the text blocks concatenate to the text and what text attachments quote; the tail block is residual plus tail; never more than four breakpoints |
| Renderer.RequestPrefixStable | src/api_client.rs:355-396 | the blocks up to an unmoved boundary are the same in the next request, if the attached files are |
| Timers.TimerManager.CheckAndFire | src/types.rs:430-485 | due timers fire once, recurring ones wait for an acknowledgement, one-shots are gone |
| Timers.TimerManager.AcknowledgeTimer | src/types.rs:488-497 | the first timer with the id, if it recurs, no longer waits and is due its period from now |
| Timers.AcknowledgedFires | src/types.rs:430-497 | after a recurring timer is acknowledged at `now`, a check at t fires an item for it exactly if t is at least `now` plus its period; its period and all other timers are as before |
| Timers.FiredTellOfTimers | src/types.rs:439-470 | a check queues exactly one item for each due timer that is not waiting, in their order, with the timer's id, description, priority and period, under one fresh id after the other |
| Timers.TimerManager.CancelTimer | src/types.rs:422-428 | the first timer with the id is removed |
| Timers.NextDeadlineIsMinimum | src/types.rs:505-513 | the deadline is the earliest due time, and there is none exactly when there are no timers |
| Timers.DeadlineIsExact | src/types.rs:430-513 | nothing fires before the deadline; at any time something fires exactly if some due timer is not pending |
| Timers.PendingTimerHoldsDeadline | src/types.rs:461-463 | a pending timer still counts towards the deadline though it cannot fire |
| Timers.TimerDiscipline | src/types.rs:430-497 | over any run a recurring timer's firings are the acknowledgements it waited for, plus one while it waits; a one-shot fires at most once and is then gone |
| TimerRuns.TimersFireInStep | src/agent_loop.rs:767-777 | the same for every timer of a new agent within 65536 ids, through its whole run and whatever its hooks do, rolled-back turns not counting |
| TimerRuns.NextFiringAfterAck | src/types.rs:430-497 | through any run: after an acknowledgement the timer fires at the first check that comes at least its period later, and at none before |
| TimerRuns.AddedTimerFires | src/python.rs:29-40 | a timer added by a call has the call's description and priority, and a check fires it exactly from its period later, from the time given, or from a minute later |
| HookTables.HookTable.Register | src/python.rs:1080-1083 | the hook of that name is replaced and the list sorted, stably, by descending priority |
| HookTables.HookTable.Match | src/python.rs:1225-1231 | the first hook that accepts |
| HookTables.TableIsStableSort | src/python.rs:1080-1092 | after any registrations and removals names are unique and the list is the stable sort of the registrations still in force |
| HookTables.MatchedHookIsBest | src/python.rs:1225-1231 | the matched hook has the highest priority among those that accept, and was registered first among its equals |
| Registries.AgentRegistry.RegisterBatch | src/types.rs:914-950 | all of the batch is registered, or nothing changes and the collisions are reported |
| Registries.AgentRegistry.Register | src/types.rs:896-910 | refused exactly when a running agent holds the name |
| Registries.AgentRegistry.SendTo | src/types.rs:965-979 | delivered, dropped for a completed agent, or not found |
| Registries.BatchAcceptedIff | src/types.rs:919-943 | accepted exactly when the names are distinct and none is held by a running agent |
| Forks.Forker.ForkChildren | src/agent_loop.rs:1262-1340 | the loop over one request, with a channel list popped from the front |
| Forks.ChildrenStayAligned | src/agent_loop.rs:1312-1340 | slots and children stay in step although refused children pop nothing; each child is spawned or reported once |
| Forks.RefusalsAreSuffix | src/agent_loop.rs:1312-1336 | once one child of a request is refused, all later ones are |
| Forks.ForkAligns | src/agent_loop.rs:1262-1340 | a spawned child runs on the channel and lineage registered under its own name; other agents are untouched |
| Forks.RejectedIff | src/agent_loop.rs:1277-1300 | a request is rejected exactly for a repeated name or one held by a running agent |
| Forks.ForkLedger | src/agent_loop.rs:1262-1477 | in every reachable state active children equal unapplied spawns, never exceed the limit, and each accepted child is counted once |
| Forks.EveryChildReported | src/agent_loop.rs:1755-1769 | when all have finished and all completions are applied, each accepted child was reported exactly once |
| Forks.LoopSeesOneRegistry | src/agent_loop.rs:1277-1477 | whatever others do between the steps of the fork loop, its children fare as if they had waited, and then done what was not refused |
| Places.CommitPlace | src/agent_loop.rs:1262-1477 | a commit changes registry and places exactly by its fork requests, each answered by the registry as others have left it by then; hooks, launches and reports do not |
| Places.ValidatedIsNeverNotFound | src/agent_loop.rs:1526-1549 | a recipient found at validation is still known at delivery, whatever others do in between |
| Places.DeliveredThenDropped | src/types.rs:965-979 | two messages to one agent in one turn can fare differently |
| Places.RefusedThenAccepted | src/types.rs:914-949 | so can two equal fork requests |
| Places.ActiveWithinLimit | src/agent_loop.rs:1309-1338 | in every state an agent reaches no more children run than it may have |
| Places.ForksAreAllowed | src/python.rs:947-985 | whatever a script asks, only an agent with depth left requests forks, never an empty list or an invalid name |
| Pipelines.OneFate | src/agent_loop.rs:784-842 | the first hook that accepts decides; an item it hands on has the hook's priority, the id, time and kind it had, and its attachments plus exactly the hook's note; an exception item carries the original, raised to at least priority 8; a swallowed item or a command queues nothing |
| Pipelines.ArrivalsConserved | src/agent_loop.rs:784-842 | the queue gains one item per arrival that was neither command nor swallowed; hook counts grow by the fates they decided |
| Pipelines.MessageIsCommand | src/agent_loop.rs:785-791 | a user's `!hooks` message is a command in its chat, whatever spaces stand around it, and never meets a hook |
| HookFacts.HookWorkIsKept | src/agent_loop.rs:847-876 | whether a hook consumes, hands on or raises, memory and priorities are as its calls left them, its processes are added under consecutive ids, and the log shows each launch's outcome and its messages to reachable chats |
| Pipelines.DisableTakesOne | src/agent_loop.rs:889-896 | disable takes the hook of that name and moves no other, keeps all counts, and says so once |
| Pipelines.DisableNobody | src/agent_loop.rs:889-896 | disabling a name no hook bears changes nothing and says so |
| Pipelines.ClearTakesAll | src/agent_loop.rs:897-901 | clear leaves no hook and no count, and items then pass unhooked |
| Pipelines.OthersOnlyReply | src/agent_loop.rs:881-905 | list and any other text only cause one reply |
| Pipelines.TelemetryReports | src/agent_loop.rs:916-937 | one alert exactly if some hook has fired; then all counts are zero and a second look reports nothing |
| Ledgers.PushItemSound | src/agent_loop.rs:784-842 | a push draws ids in order, keeps counts balanced and hooks sorted, and uses no id that was not drawn for it |
| Ledgers.RaisedSound | src/agent_loop.rs:827-842 | the raising arm keeps everything except that the counter falls one short |
| Ledgers.HookDrawsInOrder | src/python.rs:1240-1345 | a hook's processes carry consecutive ids from where its copy started |
| KernelRuns.FreshIds | src/agent_loop.rs:699-735 | in every reachable state without a raising hook ids are the stream without gap or repeat: equal exactly when positions agree modulo 65536 |
| KernelRuns.RepeatsIff | src/agent_loop.rs:827-851 | in every reachable state two ids drawn in a row, the next one included, are equal exactly when some hook has raised |
| KernelRuns.CounterShortfall | src/agent_loop.rs:827-851 | the counter is short of the ids drawn by exactly the number of raising hooks |
| KernelRuns.CommitFirstIsFresh | src/agent_loop.rs:827-851 | with the commit made before the exception's id is drawn, freshness holds in every run |
| KernelRuns.RaiseRepeatsId | src/agent_loop.rs:827-842 | as written the exception item shares its id with the hook's first process, or with the next id drawn |
| KernelRuns.LiveIdsDistinct | src/types.rs:55-67 | no two things alive in an agent share an id while the ids drawn are distinct |
| KernelRuns.FreshAgentHasDistinctIds | src/types.rs:55-67 | for a new agent, within 65536 ids and whatever its hooks do, each id is borne by at most one history entry, timer, process or queued item, hook-exception items left aside |
| KernelRuns.QueueAndHooksInOrder | src/agent_loop.rs:784-842 | in every reachable state the queue is a stable sort of what was admitted, fired is consumed plus passed plus raised, and hooks are sorted |
| Interleavings.TurnIsAtomic | src/agent_loop.rs:685-735 | in every interleaving with arrivals, and with other agents' forks and completions before, between and after the turn's own operations on the registry, the turn has the effect of the turn taken whole, given what others did before each operation; the other arrivals wait, in order, none lost |
| Interleavings.CancelledTurnStands | src/agent_loop.rs:1656-1684 | a turn cancelled while waiting has done all the turn taken whole does but what was still to be performed and its history entry |
| Interleavings.CancelIff | src/agent_loop.rs:466-473 | some interleaving cancels a turn after its commit exactly when its script ends well and it has a process to wait for, to kill, or to write to |
| Interleavings.UndisturbedCancelIff | src/agent_loop.rs:466-473 | without other agents' acts, exactly when the turn does not fail and has such a thing to do |
| Frames.CommitInbox | src/agent_loop.rs:1165-1655 | a commit neither reads nor changes the event channel |
| TurnFacts.FailsIff | src/agent_loop.rs:1170-1182 | a turn fails exactly when the script aborts or a recipient is not registered at the moment it is looked up |
| TurnFacts.FailedTurnRollsBack | src/agent_loop.rs:699-735 | a failed turn changes only token counts, the turn counter, one error entry and one id; the registry is as others have left it |
| TurnFacts.ResultSurvivesRollback | src/agent_loop.rs:702-722 | done() followed by a message to nobody rolls back but keeps the result |
| Calls.EffectsAreTheCalls | src/python.rs:728-1128 | over every list of calls: what is collected, of each kind, is exactly what the calls contribute, in order: messages to the chats that are reached, fork requests exactly where depth and names allow them, views only of files, launches under the ids next at their calls, and `done`, `compact` and requests exactly when called |
| Calls.ScriptTakes | src/python.rs:371-385 | each call takes from the queue exactly what it asks for: the front, or the first item under an id |
| Calls.ScriptRetimes | src/python.rs:541-583 | each call adds, cancels or acknowledges exactly the timer it asks for, a new one under the id that is next |
| Calls.ProcessesAreTheCalls | src/python.rs:817-832 | the process table gains exactly one running process per launching call, under the id next at that call, with the call's priorities |
| Calls.HooksAreTheCalls | src/python.rs:1052-1092 | the hook table is what the registrations that compile and the removals make of it, in order |
| Calls.HistoryIsTheCalls | src/python.rs:667-699 | the history is what its edits, as far as they are allowed, and in compaction its additions make of it |
| Calls.PrioritiesAreTheCalls | src/python.rs:435-483 | a key's priority is what was given last, 5 if the key is new and none is given, and goes with the key |
| TurnEffects.SucceedsIff | src/agent_loop.rs:1170-1182 | a turn commits exactly when its script ends well and each recipient its calls name is registered when it is looked up |
| TurnEffects.BlocksIff | src/agent_loop.rs:1659-1675 | a turn waits exactly when its calls launch a process that is to be waited for and starts |
| TurnOutcomes.ResultIsTheCalls | src/agent_loop.rs:699-758 | the result is what the calls of `done()` say whenever the script ends well; the agent finishes exactly when `done()` was called in a turn that commits and that it survives |
| TurnOutcomes.EntryIsWritten | src/agent_loop.rs:699-735 | a committed turn's entry is the last of the history, its code with its output, under the id drawn last |
| TurnOutcomes.FailureIsWritten | src/agent_loop.rs:699-735 | a failed turn adds one entry with why it failed: the script's error, or the first recipient that is missing when it is looked up |
| TurnOutcomes.ReadsIffItWaits | src/agent_loop.rs:1659-1675 | a turn reads the channel to its end exactly when it waits for a process |
| TurnOutcomes.CompactionIsTheCalls | src/agent_loop.rs:1586-1650 | compaction begins when the calls request it, ends when they call `compact()` and the accumulated script runs well, and gathers what turns append until then; a failed turn changes none of it |
| TurnEffects.CommittedTurnEmits | src/agent_loop.rs:1206-1583 | from the calls: a turn whose script ends well and names only registered agents causes every launch, child kill, child, message, pin, process kill and input its calls ask for, in order, each addressed by the registry as it then is; without hooks nothing else |
| TurnFacts.ScriptOnlyTakes | src/python.rs:371-385 | a script only removes items, and only of the queue it was shown |
| TurnFacts.MemoryIsLastWrite | src/python.rs:435-478 | after a script each key of memory holds what was last written to it; other keys are as before |
| TurnFacts.HookMemoryIsLastWrite | src/agent_loop.rs:847-851 | likewise for a hook, and its commit makes that the agent's memory |
| LaunchRuns.LaunchMeetsItsEnd | src/agent_loop.rs:970-1036 | a process launched in a committed turn, after any further steps, has its end queued as one item with the launch's description, success or fail priority and a preview, exactly if agent and output allow the preview |
| LaunchRuns.AwaitedLaunchMeetsItsEnd | src/agent_loop.rs:1656-1684 | likewise if the launching turn itself waits for it |
| LaunchRuns.SurvivesIff | src/agent_loop.rs:1146-1157 | an agent survives a run exactly if every output whose end it reads is at most 500 bytes long or has a character boundary there |
| LaunchRuns.UnreadableOutput | src/agent_loop.rs:1146-1157 | 250 two-byte letters and one more are well-formed text that does not |
| LaunchRuns.PreviewIsText | src/agent_loop.rs:1146-1157 | a preview that can be made is well-formed text of at most 503 bytes |
| LaunchRuns.FreshAgentLaunches | src/python.rs:817-831 | in a new agent within 65536 ids every launch has an id no process has, as the two rows above ask |
| TurnFacts.TurnKeepsFrozen | src/python.rs:667-699 | a whole turn outside compaction leaves the first L-w-r entries untouched, committed or not |
| TurnFacts.FreshAgentKeepsFrozen | src/python.rs:667-699 | for a new agent within 65536 ids that needs no assumption about ids or hooks |
| TurnFacts.TurnLimitHolds | src/agent_loop.rs:454-463 | an agent with a limit never takes more turns than that |
| Passes.PassIsSteps | src/agent_loop.rs:355-446 | a living agent's pass is three steps of a run, and on waking with work a fourth: what holds over runs holds over passes |
| Passes.PassSeesToAll | src/agent_loop.rs:355-446 | after a pass, whatever hooks have done, the channel has been read, no timer is up, no compaction is overdue, and after waking with work no hook's firing is unreported |
| TurnFacts.DecidesWhen | src/agent_loop.rs:383-463 | each decision of a pass has its exact condition: it proceeds exactly when the agent has not crashed, no shutdown is asked for, it has work, is not killed, and there is no limit or it is not reached |
| TurnFacts.TakesItsTurns | src/agent_loop.rs:446-463 | an agent that always has work, is not killed and does not crash takes a turn in every pass until its limit |
| TurnFacts.ExitsAfterItsTurns | src/agent_loop.rs:454-463 | and so exactly as many as its limit before it exits for that reason |
| TurnFacts.KilledTakesNoTurn | src/agent_loop.rs:383-452 | a killed agent takes no further turn in any continuation, and exits exactly when it has work |
| TurnFacts.KilledIdleWaits | src/agent_loop.rs:383-452 | kill signals alone leave an idle agent waiting |
| CompactionMode.ModeHoldsIff | src/compaction.rs:31-44 | over every run, any ids and hooks: at most one Compaction item and none when inactive in all states, exactly when no completed compaction found an item with its id in front of it |
| CompactionMode.TurnKeepsModeIff | src/agent_loop.rs:1586-1650 | the same for one turn |
| CompactionMode.QuietTurnKeepsModeIff | src/agent_loop.rs:1586-1650 | where script and commit leave the queue alone, it can be read off the queue before the turn |
| CompactionMode.ScriptCanUnobscure | src/agent_loop.rs:1586-1650 | in general it cannot |
| CompactionMode.CompletionTakesTheWrongItem | src/agent_loop.rs:1635-1646 | a run in which completion takes an exception item and leaves the Compaction item |
| CompactionMode.CompactionDiscipline | src/compaction.rs:31-44 | a new agent within 65536 ids and without a raising hook is always in the mode |
| CompactionMode.RestartKeepsModeIff | src/main.rs:295-345 | a restart keeps the mode exactly when no Compaction item is queued |
| CompactionMode.SucceedingCompaction | src/agent_loop.rs:1626-1650 | a succeeding one replaces only history and id counter and takes one item; the mode then holds exactly if none with its id stood in front of it |
| CompactionMode.ClearedIff | src/agent_loop.rs:1635-1646 | the Compaction item goes exactly when it is the first to bear its id |
| CompactionMode.RetriggersIff | src/agent_loop.rs:363-373 | after any completion the next pass triggers again exactly when the turn's token total is over the threshold |
| Agents.AgentLoop.Push | src/agent_loop.rs:784-842 | the method refines the pipeline, of which Pipelines.OneFate speaks |
| Agents.AgentLoop.QueueRaised | src/agent_loop.rs:827-842 | the raising arm, in the order the code has it |
| Agents.AgentLoop.CommitHook | src/agent_loop.rs:847-876 | memory and generator replaced, processes added, effects out |
| Agents.AgentLoop.Apply | src/agent_loop.rs:939-1157 | each event's item, note and preview, or the crash; QueuedItems.EventMeetsItsFate says what the item is |
| QueuedItems.EventMeetsItsFate | src/agent_loop.rs:939-1157 | for every event that can be read one item meets its fate, field by field: a user message at 9 with its attachments; a child's end, an agent's message and an external event at the priority they come with; a process's end as its table entry says, or at 5 or 7 with no description; a kill signal only marks the agent |
| QueuedItems.EventNotes | src/agent_loop.rs:970-1084 | an end sets the status of the first process under its id, a child's end frees one place, and nothing else changes there |
| QueuedItems.RefusedLaunchMeets | src/agent_loop.rs:1203-1234 | a launch that does not start is queued as failed at the priority its call gave |
| QueuedItems.ViewsMeet | src/agent_loop.rs:1251-1261 | files to be shown are one item of priority 10; none if there are none |
| QueuedItems.ReportMeets | src/agent_loop.rs:1311-1477 | a child that was not started is reported as failed, by name and cause, at priority 7 |
| QueuedItems.RejectionMeets | src/agent_loop.rs:1277-1300 | a rejected request is reported once, at priority 7 |
| QueuedItems.TriggerQueues | src/compaction.rs:31-44 | a trigger queues one Compaction item of priority 10 past the hooks, and compaction begins with an empty script |
| Agents.AgentLoop.FireTimers | src/agent_loop.rs:767-777 | fired items go through the pipeline one by one |
| Agents.AgentLoop.Validate | src/agent_loop.rs:1170-1180 | the first recipient not registered when it is looked up, others having the registry before each look |
| Agents.AgentLoop.ForkRequest | src/agent_loop.rs:1262-1340 | a request against the shared registry, its alert and its reports |
| Agents.AgentLoop.ExecuteCompaction | src/agent_loop.rs:1586-1650 | the compaction script on a copy, committed in part |
| Agents.AgentLoop.ApplySideEffects | src/agent_loop.rs:1165-1655 | nothing applied on an unknown recipient, otherwise all stages in order |
| Agents.AgentLoop.RunTurn | src/agent_loop.rs:602-758 | the method refines the turn, of which the rows under Calls, TurnEffects and TurnOutcomes speak, and reports done only if it committed and the agent survived |
| Agents.AgentLoop.Pass | src/agent_loop.rs:351-463 | one pass of the loop; it proceeds, exits killed, exits at its limit or waits exactly under the condition of each |
| Subscribers.SubscriberRegistry.Register | src/http_server.rs:43-55 | one more holder of the pattern's guard |
| Subscribers.SubscriberRegistry.Drop | src/http_server.rs:86-95 | one holder less, and no zero count left |
| Subscribers.SubscriberRegistry.WouldReach | src/http_server.rs:58-62 | whether some live guard passes the chat |
| Subscribers.GuardOfInjective | src/http_server.rs:44-47 | distinct patterns have distinct guards |
| Subscribers.IndexAgreesWithStreams | src/http_server.rs:421-436 | after any registers and drops a chat is reachable exactly when some open stream's filter passes it, and no count is zero |
| Subscribers.NeverLosesWakeup | src/http_server.rs:66-77 | a parked, unnotified waiter is unreachable or has a registrar between insert and notify |
| Subscribers.ReachableWaiterWakes | src/http_server.rs:66-77 | a reachable parked waiter is notified, or will be by one pending registrar |
| Subscribers.CheckBeforeArmLosesWakeup | src/http_server.rs:69-72 | checking before arming can lose the only notification |
| Processes.ProcessProtocol | src/process.rs:98-220 | in every interleaving at most one terminal event and one timeout; at the terminal event each stream is stored up to its first undecodable line, so all of it exactly if every line decodes |
| Processes.SignalMeansFlushed | src/process.rs:181-203 | a block_for waiter is released only when the readers have ended, likewise |
| Processes.GarbledLineLosesOutput | src/process.rs:136-151 | a process whose first line does not decode is reported ended with nothing stored |
| Processes.LateCheckSeesIffLateInsert | src/process.rs:98-105 | a timeout check after the removal reports one exactly when the insert task ran after the removal |
| Processes.RaceIsReachable | src/process.rs:98-105 | the insert-after-removal race is reachable and leaves a dead process listed |
| Processes.LateInsertRace | src/process.rs:98-105 | wherever the insert comes after the monitor is done, a timeout is reported behind the terminal event |
| ChatSessions.EntryNamesLastInsert | src/feedback.rs:224-229 | a user's entry names the last session to insert, never one that has cleaned up |
| ChatSessions.SupersededIsClosed | src/feedback.rs:299-303 | a superseded session's channel is closed, it accepts nothing more, and its cleanup takes nobody's entry |
| ChatSessions.DeliveredIsPrefix | src/feedback.rs:243-290 | frames delivered are a prefix of those accepted, with at most 32 waiting |
| SseParsing.SseParser.Feed | src/bridges/mod.rs:151-190 | one chunk: every complete block parsed, the rest kept |
| SseParsing.ChunkingIsInvisible | src/bridges/mod.rs:151-190 | any split of a stream gives the events of the whole, and the rest holds no blank line |
| SseParsing.SurvivesPrintingIff | src/http_server.rs:437-454 | printed frames parse back to themselves exactly when all of them are printable |
| SseParsing.ParsedIsPrintable | src/bridges/mod.rs:151-190 | whatever the stream, every frame that comes out is printable |
| SseParsing.FeedUndoesPrint | src/bridges/mod.rs:151-190 | also, and again exactly then, when the printed stream arrives in arbitrary chunks |
| SseParsing.ReturnNewlineNeverDispatches | src/bridges/mod.rs:153-154 | a stream with carriage-return line ends is never dispatched |
| SseParsing.LastDataLineWins | src/bridges/mod.rs:155-161 | of several data lines only the last survives |
| SseParsing.DataIsStandardIff | src/bridges/mod.rs:155-161 | a block's data is the standard's exactly when the standard's is one line without white space around it |
| Utf8.SnapBack | src/bridges/telegram.rs:43-44 | the highest character boundary at or below a position, at most three bytes down |
| Utf8.Trunc | src/renderer.rs:9-17 | the longest whole-character prefix that fits |
| Utf8.CutAtBoundary | src/bridges/telegram.rs:42-47 | cutting well-formed text at a boundary gives two well-formed texts |
| Telegram.ChunkForTelegram | src/bridges/telegram.rs:29-54 | chunks concatenate to the content, are well-formed and at most 4096 bytes, and neighbours total at least 4094 |
| Telegram.HardSplit | src/bridges/telegram.rs:40-48 | a long line is cut into pieces of at least 4093 bytes and a remainder that fits |
| Telegram.ChunkCount | src/bridges/telegram.rs:29-54 | the number of chunks is bounded linearly by the length |
| Debouncing.DebounceLoop | src/watchers/mod.rs:77-124 | what is flushed and what is lost when the channel closes, together all that was received |
| Debouncing.NothingLostNorReordered | src/watchers/mod.rs:88-121 | flushed batches and pending events are the received events, in order |
| Debouncing.DeadlinesOfPending | src/watchers/mod.rs:92-104 | deadlines are set exactly while something is pending, counted from the oldest and newest event, and not yet reached at the end of a pass |
| Debouncing.FlushesExactlyWhenDue | src/watchers/mod.rs:100-103 | a pass flushes exactly when the newest event is debounce old or the oldest force old |
| Debouncing.FlushedInTime | src/watchers/mod.rs:77-124 | under timely wake-ups every event is flushed within force plus slack of its arrival |

## Left out

- Python itself: a script is any finite sequence of calls with an ending; a call that raises and is caught has no effect. What hooks accept and do is an arbitrary function of hook, item and memory.
- Clocks: one reading of `now` per step, where the code may read the clock several times within one.
- Texts: how an entry is rendered is an arbitrary function; alerts, reports and error messages are shortened; command lines, environment, attachments' existence and message references are not stored.
- HTTP, TLS, authentication, SQLite, JSON and operating-system processes: their answers are parameters (`World`), their effects a log.
- Histories.EventHistory.CacheSplits: requires stride^tiers to fit the machine word; `usize::pow` overflows beyond it.
- Agents.AgentLoop.ForkRequest: pushes the reports of refused children after the loop over children; the code pushes them inside it, which pushing cannot observe.
- Forks.ForkLedger: children are tracked from the parent's side; the state a child starts with (a copy of the parent's, ids included) is not modelled, so ids of different agents may coincide.
- KernelRuns.FreshIds: speaks of one agent; a restart, which reloads the saved counter, starts a new run.
- SseParsing.ChunkingIsInvisible: is about characters; the code decodes each chunk's bytes by itself, so a character split between chunks is damaged before the parser sees it.
- Processes.ProcessProtocol: pids are distinct; the stdin tasks and `kill` are not modelled, nor that a process may be stopped or stuck by a reader that has given up.
- Timers.TimerManager.AcknowledgeTimer: instants are unbounded; the date library panics on a period that leads beyond its last year.
- Agents.AgentLoop.Pass: the surroundings `w` are fixed for an object; runs, in which they vary, are about the functions the methods refine.
- LaunchRuns.SurvivesIff: what a crash does to others is not modelled; a child that has crashed stays registered, and its parent is not told.
- ChatSessions.DeliveredIsPrefix: pings, the rate limit and the message size limit are not modelled.
- Pipelines.ArrivalsConserved: hook counts are claimed only when no `!hooks` command comes among the arrivals, since `clear` resets them.
- The change log in the AgentStartup item, sensitive keys, pinned memory's contents, usage logs, snapshots and turn dumps: stored or logged, never decided upon.
- Cost, jitter and token estimates, including the dry run that estimates a compaction's effect.
- Bridges to other services, the file, MQTT and mail watchers, configuration and version handling: they would add only easy members.
