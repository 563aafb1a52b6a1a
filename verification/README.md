# picooraclaw: a model of its protocols and transformations

picooraclaw is a chat agent written in Go. This project models the parts of it that keep state over time
or transform data, and proves what they guarantee:

- the agent's turn: LLM requests with retries and compression, parallel tool calls behind a repeat guard,
  the session store they write to, and the background summariser that truncates the same history;
- the session files: saving by temporary file and rename, loading, and recovery after crashes;
- the cron scheduler, over every interleaving of ticks, executions, client calls, reloads and restarts;
- the web event broker and the message bus, as concurrent protocols over their locks and channels;
- the reassembly of streamed responses, the OneBot duplicate filter, the cutting of mentions, the
  truncation of tool results at UTF-8 boundaries, the extraction of tool calls from text, and the
  migration of a workspace with backups.

## How it is built

An operation that changes state is a method, or a method of a class that has the same fields as the
source, proved against a function from the old state to the new one. What the source promises is then
proved about that function, and stated once more without it: by positions, by literal words and limits, or
by what a later read finds. Where goroutines interleave, the critical sections are the steps of a state
machine (`SummaryRuns`, `Restarts`, `CronRuns`, `CronSolo`, `BrokerRuns`, `Bus`), and the theorems are about every run.

The language model, the tools, JSON decoding, cron expressions, the clock and failing system calls are
parameters: arbitrary functions, or arbitrary faults chosen for each step. No theorem assumes anything
about them that it does not state.

| file | contents |
|---|---|
| `Transcript.dfy` | chat messages, and the rule that pairs tool results with calls |
| `SessionStore.dfy`, `SessionFiles.dfy`, `SessionRecovery.dfy` | sessions in memory, on disk, and after a crash |
| `ContextBuilder.dfy`, `ChatRetry.dfy`, `ToolCalls.dfy`, `TurnEngine.dfy`, `TurnGuarantees.dfy`, `ToolLoop.dfy` | the turn and the sequential loop |
| `RetryOutcomes.dfy`, `TurnAnswers.dfy` | what calls and turns do, told from the outcomes of the model alone |
| `Summariser.dfy`, `SummaryRuns.dfy`, `TurnRuns.dfy` | summaries, summarisers running beside appends, and whole turns beside both |
| `Restarts.dfy`, `TurnEnds.dfy` | turns, summarisers and saves with crashes and restarts in between, and the end of a turn |
| `Cron.dfy`, `CronRuns.dfy`, `CronJobs.dfy`, `CronSolo.dfy` | the scheduler, its runs, what each step does to one job, and runs under a single loop |
| `Broker.dfy`, `BrokerRuns.dfy`, `BrokerFeeds.dfy`, `Bus.dfy` | event broker, its runs, what they deliver, and the message bus |
| `Stream.dfy`, `ToolCallText.dfy`, `Mention.dfy`, `Utf8Cut.dfy`, `Dedup.dfy`, `Strings.dfy` | the text transformations and the duplicate filter |
| `Migration.dfy`, `MigrationSafety.dfy`, `MigrationPlans.dfy`, `MigrationAccounts.dfy`, `MigrationLosses.dfy` | planning and executing a migration, what arrives, what it keeps and what it loses |

## What the code does not guarantee

Some properties that one might expect are false of the code. Each is stated with the exact condition under
which it holds, or with an input that shows it fails:

- Compression can leave an orphaned tool result in a request: `TurnGuarantees.RequestPairedIff` says exactly
  when, and `TurnGuarantees.OrphanedResultIsSent` that it happens.
- Not every context error leads to compression: `ChatRetry.ContextErrorIff` says which do,
  `ChatRetry.GenerateContextError` gives one that does not, and `RetryOutcomes.GenerateIsResent` what happens to
  it: the oversized request is sent again as it is.
- A session saved in the middle of a turn and reloaded after a crash can lead to an unpaired request:
  `Restarts.RequestAfterCrashIff` says exactly when, `Restarts.SummariserSavesOpenCalls` that a summariser can
  do it, and `Restarts.CrashMidTurn` that it happens. All later requests of the session are then unpaired until
  its history is truncated (`Restarts.UnpairedUntilTruncated`).
- Messages that arrive while a summary is made shift the cut (`SummaryRuns.CutDropsArrivals`), and when the
  model fails altogether a long history is cut for a blank summary (`Summariser.TotalFailureStillSummarises`).
- Two session keys can share a file (`SessionRecovery.ShareAFileIff`, `SessionRecovery.RoundTripIff`).
- A period near the largest 64-bit integer wraps around (`CronRuns.WrappedPeriodIsDueAtOnce`), and a
  one-shot job missed while the service is down never fires (`CronRuns.MissedOneShotNeverFires`).
- An event can be delivered twice: `BrokerRuns.TwiceIff` says exactly when, and `BrokerRuns.RacingReplayHappens`
  and `BrokerRuns.ReplayedRacingEventArrivesTwice` that it happens.
- A closed bus hands out empty messages as if they were received (`Bus.EveryRunConserves`).
- A stream whose tool indices have a gap loses calls (`Stream.CallsKeptIff`).
- A repeated OneBot message does not stay known longer (`Dedup.RepeatDoesNotRenew`).
- Overlapping mentions, and mentions listed against their order in the text, are not always cut whole:
  `Mention.OverlapCutIff` and `Mention.DescendingCutIff` say exactly when they are, and
  `Mention.OverlapKeepsText` and `Mention.DescendingCutsOther` give two that are not.
- A read error is reported although the whole answer and its end marker have arrived, if the same read brought
  the marker and the error (`Stream.MarkerInFailedRead`).
- Braces inside JSON strings can end a tool call early: `ToolCallText.ScanFindsObjectIff` says exactly when, and
  `ToolCallText.BraceTextEndsCall` gives an object to which it happens.
- A migration overwrites a backup exactly when both sides have the file (`MigrationPlans.MigrationLosesNothing`,
  `MigrationPlans.BackupsAreOverwritten`), so a second one overwrites the backups of the first
  (`MigrationLosses.SecondMigrationReplacesBackup`).

Where code and comments disagree the model follows the code. The comment of `Emit`
(`pkg/channels/web/broker.go:59-63`) is right about closed channels, but says nothing about the window
between the two locks, in which a new subscriber gets an event that will be sent to it again. The comment
of `sanitizeFilename` (`pkg/session/manager.go:148-152`) says that the key inside the file keeps sessions
apart on loading; it does so only as long as no two keys share the file.

## Model

| member | source | states |
|---|---|---|
| Transcript.ReaderDecidesPairing | pkg/agent/context.go:237-239 | the rule the repair protects, in two independent forms: a reader that walks the messages accepts exactly the lists in which each assistant message with k calls is followed by its k results in order and no result stands elsewhere |
| Transcript.OnlyNewestBlockOpen | pkg/agent/loop.go:751-754 | a history written message by message is open in its newest block only: answering the ids it still owes makes it well formed |
| Transcript.RepairIff | pkg/agent/context.go:240-244 | dropping leading tool results repairs a suffix of a transcript exactly when the transcript owes nothing, or only tool results are left of it |
| SessionStore.SessionManager.GetOrCreate | pkg/session/manager.go:42-60 | yields the session filed under the key, new and empty if there was none, and leaves the others alone |
| SessionStore.SessionManager.AddFullMessage | pkg/session/manager.go:71-87 | appends to the key's session, which is created when missing, and changes no other |
| SessionStore.SessionManager.AddMessage | pkg/session/manager.go:62-67 | appends a message without calls |
| SessionStore.SessionManager.GetHistory | pkg/session/manager.go:89-101 | the messages of the session, none for an unknown key |
| SessionStore.SessionManager.GetSummary | pkg/session/manager.go:103-112 | the summary of the session, empty for an unknown key |
| SessionStore.SessionManager.SetSummaryOf | pkg/session/manager.go:114-123 | replaces the summary of a known session and nothing else |
| SessionStore.SessionManager.TruncateHistory | pkg/session/manager.go:125-146 | keeps the last messages of a known session and nothing else changes |
| SessionStore.HistoryIsSuffix | pkg/session/manager.go:125-146 | after any interleaving of appends, truncations and summaries on any sessions a history is a suffix of all that was appended to it |
| SessionStore.AppliedIs | pkg/session/manager.go:62-146 | how each operation of the store is read back: a summary set is the summary, an appended message is the newest, a truncation keeps the newest so many, and no other session and nothing else changes |
| ContextBuilder.BuildMessages | pkg/agent/context.go:205-261 | system prompt, then the history without its leading tool results, then the current message |
| ContextBuilder.RequestIs | pkg/agent/context.go:240-258 | a request is the system prompt, the history from its first message that is no tool result, and the current message |
| ContextBuilder.PromptTells | pkg/agent/context.go:208-233 | the prompt begins with the base, names channel and chat if both are known, and ends with the summary under its heading if there is one |
| ContextBuilder.SuffixRequestIff | pkg/agent/context.go:240-258 | the request built from a suffix of an unbroken transcript is well paired if and only if nothing is owed or only tool results are left |
| ContextBuilder.RequestsBetweenTurnsArePaired | pkg/agent/context.go:240-258 | between turns no request carries an orphaned tool result or an unanswered call, wherever the history was cut |
| ChatRetry.HandleError | pkg/agent/loop.go:632-696 | whether to try again, and with which messages and tools |
| ChatRetry.ChatWithRetry | pkg/agent/loop.go:619-706 | the outcome, the message list the turn goes on with, and every request sent |
| ChatRetry.CompressKeepsEnds | pkg/agent/loop.go:663-693 | compression keeps the first message and a suffix that still has the newest one |
| ChatRetry.RetrySendsFew | pkg/agent/loop.go:621-697 | one call sends at most four requests, and each keeps the first and the newest message and a suffix in between |
| ChatRetry.LastRequestDecides | pkg/agent/loop.go:622-630 | the outcome of a call is that of its last request |
| ChatRetry.ToolsDroppedIff | pkg/agent/loop.go:664-667 | a retried request lacks tool definitions if and only if the very first attempt failed with a context error |
| ChatRetry.FourthRequestIsMinimal | pkg/agent/loop.go:655-694 | after three context errors the fourth request has at most three messages, among them the first and the newest, and no tools |
| ChatRetry.ContextErrorIff | pkg/agent/loop.go:632-655 | an error leads to compression if and only if its lower-cased text has one of the four words of a context error and none of the six words of a rate limit or transient failure |
| ChatRetry.GenerateErrorsNeverCompress | pkg/agent/loop.go:632-646 | an error text with "generate" in it counts as a rate limit, because "rate" is in it, so it never leads to compression |
| ChatRetry.GenerateContextError | pkg/agent/loop.go:632-646 | an error text that says "context length exceeded" and counts as a rate limit |
| RetryOutcomes.LowerIs | pkg/agent/loop.go:632-632 | lower-casing moves the capital letters of ASCII and nothing else |
| RetryOutcomes.VerdictIs | pkg/agent/loop.go:632-655 | how an error counts, by ten literal words: those of a rate limit or transient failure come before those of a context error |
| RetryOutcomes.CallIs | pkg/agent/loop.go:619-706 | one call told from the errors alone: it begins with the whole list and the tools; a rate limit or transient failure is followed by the very same request, a context error by one without tools, then by one with the first message and the newest quarter, then by one with the first message and the newest two; it ends with the first success, with an error that has none of the words, or with the fourth request |
| RetryOutcomes.ResendsAfter | pkg/agent/loop.go:637-653 | a request that fails with a rate limit or transient failure, unless it is the fourth, is sent again as it is |
| RetryOutcomes.FailsIff | pkg/agent/loop.go:697-706 | a call fails with an error if and only if its last request failed with it and was the fourth or the error has none of the ten words |
| RetryOutcomes.GenerateIsResent | pkg/agent/loop.go:637-646 | after an error with "generate" in it the same request is sent again, also if its text says that the context was too long |
| ChatRetry.EndsPairedIff | pkg/agent/loop.go:670-692 | what keeps the ends of a well-paired list is well paired if and only if its second message is no tool result |
| ChatRetry.CompressionPairedIff | pkg/agent/loop.go:670-692 | so a compressed request is well paired if and only if what is kept behind the system prompt does not begin with a tool result |
| ToolCalls.LaunchCalls | pkg/agent/loop.go:767-779 | counts every call, fills one slot each, and launches exactly the calls the guard lets through |
| ToolCalls.AwaitAll | pkg/agent/loop.go:781-877 | whatever order the goroutines finish in, each result lands in its own slot |
| ToolCalls.CollectResults | pkg/agent/loop.go:880-921 | one tool message for each call in call order, and the user sees what is not silent |
| ToolCalls.ExecuteToolCalls | pkg/agent/loop.go:756-921 | answers, counts, executed calls and published texts do not depend on the completion order |
| ToolCalls.AnswersMatchCalls | pkg/agent/loop.go:880-921 | each call gets exactly one tool message, in call order, under its own id |
| ToolCalls.BlockCloses | pkg/agent/loop.go:736-921 | an assistant message and its answers form a complete block |
| ToolCalls.LaunchingStaysGuarded | pkg/agent/loop.go:770-778 | a pair of name and arguments is executed as often as requested, but at most twice |
| ToolCalls.CountsRequests | pkg/agent/loop.go:770-771 | the count of a pair is how often calls with that name and those arguments have been requested in the turn |
| ToolCalls.StoppedIff | pkg/agent/loop.go:770-778 | a call is stopped if and only if its name and arguments have been requested more than twice in the turn, itself included |
| ToolCalls.AnswerTells | pkg/agent/loop.go:880-921 | what the model is told about each call: a warning with the number of earlier requests if it was stopped, otherwise the text of the result for it, or the error where that is empty |
| ToolCalls.ShownToUser | pkg/agent/loop.go:891-900 | the user is shown the result's text for them exactly if the call was executed, its result is not silent, that text is not empty, and the turn is to respond |
| TurnEngine.HandleCalls | pkg/agent/loop.go:735-921 | what a response with calls does to the turn, and that the session gets the same messages in the same order |
| TurnEngine.RunLlmIteration | pkg/agent/loop.go:569-925 | the loop of requests and tool calls, with its appends to the session |
| TurnEngine.PlayTurn | pkg/agent/loop.go:504-538 | the turn's answer and error, and that the session grows by exactly the user message, the blocks and the final answer |
| TurnEngine.EndTurn | pkg/agent/loop.go:525-553 | a failed turn ends there; otherwise the session is saved, a summary asked for and the answer published, as the options say |
| TurnEngine.RunAgentLoop | pkg/agent/loop.go:504-564 | the whole turn: its answer, its error, what it appends to the session, and what it sets off at its end |
| TurnAnswers.FirstRequestIs | pkg/agent/loop.go:504-519 | the list that a turn begins with: the prompt, ending with the stored summary, the stored history from its first message that is no tool result, and the user's message; without history if the turn takes none |
| TurnAnswers.FirstIsSent | pkg/agent/loop.go:580-624 | the first request of a turn carries this list and the tools |
| TurnAnswers.NextRequestIs | pkg/agent/loop.go:735-922 | what an iteration stores is what it adds to the list, and the whole list is sent next, with the tools |
| TurnAnswers.RepliesAreStored | pkg/agent/loop.go:735-754 | the assistant messages that the iterations of a turn store are, in order, the replies of the model that ask for calls, each with its content and its calls, none left out or stored twice |
| TurnAnswers.ConversationIsStored | pkg/agent/loop.go:751-921 | unless a request fails with a context error, the list at the end of a turn is the first list followed by exactly what the turn stored |
| TurnAnswers.ExecutedAsAsked | pkg/agent/loop.go:770-778 | in a turn a pair of name and arguments is executed as often as the stored messages ask for it, but at most twice |
| TurnAnswers.AnswerIs | pkg/agent/loop.go:520-564 | the returned answer by the last outcome of the model: the content of a reply without calls, its reasoning where that is empty, the default where both are; empty with the error if it failed; the default if the iterations ran out |
| TurnAnswers.AnswerIsStored | pkg/agent/loop.go:532-553 | in a turn without error the newest appended message is the returned text, and the published text is it too, exactly if the turn is to respond |
| TurnAnswers.AnswerIsNewest | pkg/agent/loop.go:532-538 | so the session ends with the returned text behind all it had before |
| TurnAnswers.FailureIsStored | pkg/agent/loop.go:525-530 | a failed turn leaves the user's message and the blocks so far, and answers, saves and publishes nothing |
| TurnGuarantees.ChatCallsBounded | pkg/agent/loop.go:580-622 | a turn sends at most four requests for each iteration, all beginning with its system prompt, for every sequence of outcomes |
| TurnGuarantees.NoCallRunsThrice | pkg/agent/loop.go:573-578 | no pair of name and arguments is executed more than twice in a turn |
| TurnGuarantees.TurnsAreClosed | pkg/agent/loop.go:520-539 | what a turn appends to its session is complete, also when the model fails midway |
| TurnGuarantees.RequestPairedIff | pkg/agent/loop.go:580-922 | for every sequence of outcomes, with any number of compressions: a request of a turn that began with a well-paired list is well paired if and only if the message behind the system prompt is no tool result |
| TurnGuarantees.OrphanedResultIsSent | pkg/agent/loop.go:667-682 | after a response with two calls and two context errors the next request is the system prompt and the second result |
| TurnGuarantees.EveryRequestIsPaired | pkg/agent/loop.go:580-922 | in particular all requests of a turn without context errors are well paired |
| TurnRuns.HistoryAtAnyMoment | pkg/agent/loop.go:520-538 | at any moment of turns played by any models, with truncations in between and also mid-turn, the stored history is a suffix of a transcript that is open in its newest block at most |
| TurnRuns.TurnKeepsHistories | pkg/agent/loop.go:504-538 | a turn played on any store keeps every session's history a suffix of a complete transcript |
| TurnRuns.NextTurnPairedIff | pkg/agent/loop.go:504-564 | from any store that whole turns and truncations can leave, each request of a further turn is well paired if and only if the message behind the system prompt is no tool result, and all are unless one fails with a context error |
| TurnRuns.TurnsBesideSummarisers | pkg/agent/loop.go:541-544 | the same with any number of summarisers beside the turns of any sessions, in every interleaving |
| TurnRuns.HistoryBesideSummarisers | pkg/agent/loop.go:541-544 | the same for the history in the middle of a turn |
| ToolLoop.RunToolLoop | pkg/tools/toolloop.go:36-154 | the sequential loop of requests and tool calls |
| ToolLoop.AnswerInTurn | pkg/tools/toolloop.go:116-147 | the calls of one response answered one after the other |
| ToolLoop.ParallelRefinesSequential | pkg/agent/loop.go:580-924 | without retries and without stopped calls the parallel engine ends with the same messages and error as the sequential loop, and with the same answer, or the last reasoning text where that is empty |
| Summariser.SelectMessages | pkg/agent/loop.go:1035-1050 | the user and assistant messages under the size guard, in order, and whether any was left out |
| Summariser.SummarizeSession | pkg/agent/loop.go:1019-1085 | the summary and the requests made for it |
| Summariser.BatchesCoverEligible | pkg/agent/loop.go:1031-1080 | the batches put together are exactly the eligible messages of the snapshot without its last four; the old summary is passed on only when there are at most ten |
| Summariser.EligibleIs | pkg/agent/loop.go:1039-1050 | a user or assistant message of at most half the window, at four bytes a token, is kept, and no other |
| Summariser.ShortSummaryIs | pkg/agent/loop.go:1078-1084 | for up to ten messages the summary is the answer to one request that passes the old summary on, with the note if a message was too large |
| Summariser.LongSummaryIs | pkg/agent/loop.go:1058-1084 | for more than ten it is the answer to a third request that merges the answers for the two halves, or both answers with a space between them if that fails, with the note if a message was too large |
| Summariser.NothingToSummarise | pkg/agent/loop.go:1026-1054 | nothing is requested if and only if there are at most four messages or none of the others is eligible |
| Strings.BytesOf | pkg/agent/loop.go:1044-1044 | the bytes that each character counts for |
| Summariser.NoSummaryIff | pkg/agent/loop.go:1027-1086 | exactly when no summary comes out, and so nothing is truncated |
| Summariser.TotalFailureStillSummarises | pkg/agent/loop.go:1064-1077 | with more than ten messages a total failure of the model yields a blank summary that is not empty |
| SummaryRuns.OneSummariserPerSession | pkg/agent/loop.go:935-945 | in every run a session has at most one summariser, and is marked exactly while it has one |
| SummaryRuns.CutDropsArrivals | pkg/agent/loop.go:1023-1088 | the cut removes the messages the summary was made from and exactly the first d further ones when d arrived meanwhile |
| SummaryRuns.OnlyCutsDrop | pkg/agent/loop.go:1086-1090 | no other step removes a message |
| SummaryRuns.CutNeedsSummary | pkg/agent/loop.go:1023-1088 | every step of a run that takes messages away is a cut, which a non-empty summary of the summariser's own snapshot precedes, and the taking of that snapshot before it |
| SummaryRuns.StoreFollowsEffects | pkg/agent/loop.go:1086-1088 | every interleaved run changes the store as the sequence of its appends, summaries and cuts does |
| SummaryRuns.EffectsAppendSaved | pkg/agent/loop.go:1086-1088 | of these, the appends to a session are what its turns saved, in order |
| SummaryRuns.StartIs | pkg/agent/loop.go:934-945 | a summariser that is wanted starts exactly if the session has none |
| SummaryRuns.SnapshotIs | pkg/agent/loop.go:1023-1024 | its snapshot is the history and the summary at that moment |
| SummaryRuns.AnswerIs | pkg/agent/loop.go:1086-1087 | a summary that is not empty becomes the summary of its session and no message goes with it; an empty one changes nothing and ends the summariser |
| SummaryRuns.CutIs | pkg/agent/loop.go:1088-1088 | the cut leaves the newest four messages of the session and its summary, and the other sessions alone |
| SessionFiles.FillTemp | pkg/session/manager.go:199-227 | the directory states that creating, writing and syncing the temporary file goes through, for every failing step |
| SessionFiles.WriteSnapshot | pkg/session/manager.go:199-233 | the directory states of a whole save, with the rename last and the cleanup on failure |
| SessionFiles.Save | pkg/session/manager.go:157-234 | no storage, a bad name and an unknown key do nothing; otherwise the session's snapshot is written |
| SessionFiles.LoadFile | pkg/session/manager.go:242-263 | a file that is no JSON file or does not decode is skipped; another is filed under the key inside it |
| SessionFiles.LoadSessions | pkg/session/manager.go:236-266 | the sessions that the files, taken in listing order, leave |
| SessionRecovery.FileNameIs | pkg/session/manager.go:148-198 | the file of a key is named by its characters, with underscores for colons, and .json |
| SessionRecovery.SavableIff | pkg/session/manager.go:162-170 | a key has a file if and only if it is not empty, no name of a directory, and without slashes and backslashes |
| SessionRecovery.SaveLeaves | pkg/session/manager.go:199-234 | a failed save leaves the directory as it was unless its temporary file could not be removed; one that succeeds adds or replaces the session's file alone |
| SessionRecovery.SyncedLast | pkg/session/manager.go:211-224 | while it is filled the temporary file is open to damage by a crash; only the sync, after the whole snapshot was written, makes it safe |
| SessionRecovery.OldOrNew | pkg/session/manager.go:199-233 | wherever a save stops by failure or crash, each session file is as before or holds the complete new snapshot, the latter exactly when the rename was done |
| SessionRecovery.FilesHoldTheLast | pkg/session/manager.go:157-234 | after every run of saves, failures and crashes a file holds the last snapshot saved under its name |
| SessionRecovery.ReloadIs | pkg/session/manager.go:236-266 | a reload has a session if and only if the last save on its file name was its own, with that snapshot; temporary files are ignored |
| SessionRecovery.LaterFileWins | pkg/session/manager.go:242-263 | of two files with the same key inside, the one listed later is loaded, and a file that is no JSON file or does not decode changes nothing |
| SessionRecovery.RoundTripIff | pkg/session/manager.go:153-266 | a reload gives a key its last saved snapshot if and only if no other key with the same file name was saved since |
| SessionRecovery.DistinctNamesAreSafe | pkg/session/manager.go:148-155 | among keys whose file names differ nothing is overwritten |
| SessionRecovery.ShareAFileIff | pkg/session/manager.go:153-155 | two keys share a file if and only if they differ only in colons against underscores |
| Restarts.HistoryAcrossRestarts | pkg/session/manager.go:157-266 | in every run of turns, summarisers, saves, crashes and restarts a history is a suffix of what was said in its session, and what is said after a restart continues something said before |
| Restarts.RestartRestores | pkg/session/manager.go:157-266 | a restart brings a session back exactly as the last save of its file found it, whatever happened in between, failed and crashed saves included |
| Restarts.SavedRequestIff | pkg/agent/context.go:240-258 | the first request after the restart is well paired if and only if the turn takes no history, or at that save the session owed no tool result, or only tool results were stored |
| Restarts.RequestAfterCrashIff | pkg/agent/loop.go:1086-1090 | the same when all that was said comes from turns of the engine, of which the last may be unfinished |
| Restarts.SummariserSavesOpenCalls | pkg/agent/loop.go:1086-1090 | a summariser that cuts and saves while the newest message asks for tools leads to an unpaired request after a crash |
| Restarts.CrashMidTurn | pkg/agent/loop.go:751-754 | a run with any savable key that reaches such a restart |
| Restarts.UnpairedUntilTruncated | pkg/agent/context.go:240-258 | from such a history on, the first request of every later turn is unpaired until the history is truncated |
| TurnEnds.TurnIsSaid | pkg/agent/loop.go:504-538 | a turn that the engine plays on the running process adds just its own appends, and so keeps what was said a list of complete turns |
| TurnEnds.TurnEnd | pkg/agent/loop.go:524-553 | a failed turn saves, starts and publishes nothing; otherwise the save comes first, and a crash in it leaves no summariser started and nothing published; after it the answer is published and a summariser started as the options and marks say |
| TurnEnds.SavedTurnsSurvive | pkg/agent/loop.go:538-553 | after complete turns and a save that took effect, any restart until the file is overwritten brings back all that was in memory, and the next request is well paired |
| Cron.CronService.Start | pkg/cron/service.go:81-103 | reloads, recomputes the enabled jobs and saves; the service runs only if both file operations worked |
| Cron.CronService.Stop | pkg/cron/service.go:105-118 | the service stops and its jobs stay |
| Cron.CronService.LoadStore | pkg/cron/service.go:315-330 | the jobs become those of the file, none when it is missing or unreadable |
| Cron.CronService.SaveStore | pkg/cron/service.go:332-344 | the file becomes the jobs, stays, or is damaged, as the save goes |
| Cron.CronService.RecomputeNextRuns | pkg/cron/service.go:281-289 | every enabled job gets its next run, the others keep theirs |
| Cron.CronService.CollectDue | pkg/cron/service.go:134-168 | the due ids in list order, cleared in memory and saved |
| Cron.CronService.ClearDue | pkg/cron/service.go:153-162 | exactly the jobs with a due id lose their next run |
| Cron.CronService.FindJob | pkg/cron/service.go:204-210 | the position of the first job with the id, or the length of the list |
| Cron.CronService.FinishJob | pkg/cron/service.go:200-243 | the end of an execution: status, next run, removal or disabling, also when the job has gone |
| Cron.CronService.RemoveJobUnsafe | pkg/cron/service.go:404-422 | exactly the jobs with the id go, and the file is saved when one went |
| Cron.CronService.AddJob | pkg/cron/service.go:346-381 | the job is scheduled in memory even when the save fails |
| Cron.CronService.EnableJob | pkg/cron/service.go:424-448 | the first job with the id is switched and its next run computed or cleared |
| Cron.ReloadRepeatsIff | pkg/cron/service.go:164-166 | reloading without recomputing repeats a collected job if and only if the save left the file untouched |
| CronJobs.ComputesNextTime | pkg/cron/service.go:245-279 | the next time of a schedule: the given time if it is ahead, the present plus the period in 64-bit arithmetic, what the cron expression says, or none |
| CronJobs.StepChanges | pkg/cron/service.go:81-448 | in every reachable state each step changes just the jobs it is about, by id, in the way stated for it: a tick takes the next run off due jobs, the end of an execution notes it and retimes, disables or removes the job, switching on retimes, switching off takes the next run away, a start retimes what the file holds |
| CronJobs.FileIs | pkg/cron/service.go:332-344 | the steps that save write the jobs as they leave them, damage the file, or leave it, as their last save goes; no other step touches it |
| CronJobs.SwitchedOffStaysSilent | pkg/cron/service.go:424-448 | a job that was switched off is not collected, whatever follows, until it is switched on again; if the save was not written, at least until a start or restart reads the older file |
| CronJobs.SwitchedOnIsTimed | pkg/cron/service.go:424-448 | a job that is switched on is enabled with the next time of its schedule |
| CronJobs.CollectedIff | pkg/cron/service.go:134-168 | a tick of the running service hands exactly the enabled and due jobs of the list to its executions |
| CronJobs.CollectedInOrder | pkg/cron/service.go:142-151 | a tick collects each due job once, in the order of the list |
| CronJobs.BegunIff | pkg/cron/service.go:176-193 | the handler of a collected job starts exactly if the job is still in the list |
| CronJobs.SwitchedOnIsCollected | pkg/cron/service.go:134-448 | a repeating job that is switched on is collected by the next tick if and only if that comes a period later or after |
| CronJobs.RunsIff | pkg/cron/service.go:81-118 | the service runs after a start that could load and save, and until a stop or restart |
| CronJobs.StoppedIsSilent | pkg/cron/service.go:105-140 | after a stop no job is collected until a further start |
| CronRuns.OneShotStartsOnce | pkg/cron/service.go:134-251 | in every run the handler of an "at" job starts at most once and not before its time |
| CronRuns.OneShotSetBefore | pkg/cron/service.go:245-251 | the next run of an "at" job that has none becomes set only strictly before its time, whether the service runs or not; a restart of the process, which reads the file as it is, is excepted |
| CronRuns.CollectionSpends | pkg/cron/service.go:153-162 | an "at" job that a tick collects can never become due again |
| CronRuns.MissedOneShotNeverFires | pkg/cron/service.go:245-251 | an "at" job that is past its time without a next run never fires, whatever follows |
| CronRuns.CollectionsAreSpaced | pkg/cron/service.go:134-289 | two collections of an "every" job are at least its period apart in every interleaving |
| CronRuns.WrappedPeriodIsDueAtOnce | pkg/cron/service.go:253-259 | a rescheduled job is due at once if and only if time plus period exceeds 64 bits |
| CronSolo.ExecutionsNeverOverlap | pkg/cron/service.go:120-174 | under a single run loop handlers never overlap |
| CronSolo.ExecutionsAreSpaced | pkg/cron/service.go:195-258 | under a single run loop the end of a handler and the next start of the same job are at least its period apart |
| Broker.Subscription.TrySend | pkg/channels/web/broker.go:67-71 | a send on an open channel is taken unless 64 events wait |
| Broker.Subscription.Replay | pkg/channels/web/broker.go:96-101 | the missed events offered to a new channel in order |
| Broker.FindMissed | pkg/channels/web/broker.go:87-96 | exactly the buffered events behind the last one that carries the cursor; none without a cursor, or if no event carries it |
| Broker.MissedIsBehind | pkg/channels/web/broker.go:87-96 | what counts as missed, by position: everything behind the last event with the cursor, or nothing |
| Broker.MissedBehind | pkg/channels/web/broker.go:87-96 | of a buffer made of anything, an event with the cursor, and events without it, exactly the latter are missed |
| Broker.EventBroker.Emit | pkg/channels/web/broker.go:48-73 | the session's buffer keeps its last 1000 events, and each of its subscriptions is offered the event |
| Broker.EventBroker.FanOut | pkg/channels/web/broker.go:64-72 | every subscription of the session and no other is offered the event |
| Broker.EventBroker.Deliver | pkg/channels/web/broker.go:66-71 | one send of a fan-out, which leaves all else in order |
| Broker.EventBroker.Subscribe | pkg/channels/web/broker.go:75-105 | a new open subscription with a fresh id, and in its queue the first 64 of exactly the buffered events behind the last one that carries the cursor |
| Broker.EventBroker.Unsubscribe | pkg/channels/web/broker.go:107-114 | the subscription is closed and gone, the others stay |
| Broker.ReplayTakesFirst | pkg/channels/web/broker.go:96-101 | replay delivers exactly the first min(64, k) of k missed events |
| BrokerRuns.NeverSendsOnClosed | pkg/channels/web/broker.go:59-72 | in every interleaving no send meets a closed channel and no queue exceeds its size |
| BrokerRuns.AtMostTwice | pkg/channels/web/broker.go:48-105 | an event is attempted on a subscription at most once by replay and at most once by fan-out |
| BrokerRuns.TwiceIff | pkg/channels/web/broker.go:48-105 | it is attempted twice if and only if it was replayed, still waited for its fan-out when the subscription began, and had that fan-out before the subscription ended |
| BrokerRuns.FannedOutIff | pkg/channels/web/broker.go:64-72 | a fan-out that is over attempted its event on exactly the subscriptions of the session that want it and had not ended |
| BrokerRuns.AttemptedExactlyOnce | pkg/channels/web/broker.go:48-73 | an event buffered after a subscription began, which may have ended since, is attempted on it exactly once by the end of its fan-out if that began in time, and otherwise never |
| BrokerRuns.NothingAfterTheEnd | pkg/channels/web/broker.go:107-114 | after its end nothing is attempted on a subscription |
| BrokerRuns.FailsOnlyWhenFull | pkg/channels/web/broker.go:67-71 | an attempt fails only on a full queue and changes no other queue |
| BrokerRuns.OnlyOwnSession | pkg/channels/web/broker.go:66-66 | a queue never holds an event of another session |
| BrokerRuns.ReplayedRacingEventArrivesTwice | pkg/channels/web/broker.go:57-72 | a replayed event that still waits for its fan-out is sent again |
| BrokerRuns.RacingReplayHappens | pkg/channels/web/broker.go:57-72 | two overlapping Emits and a subscription reach such a state |
| BrokerFeeds.BufferIsLastEvents | pkg/channels/web/broker.go:50-57 | in every interleaving a session's buffer is exactly the last min(n, 1000) of its n events |
| BrokerFeeds.FeedFollows | pkg/channels/web/broker.go:66-72 | in every interleaving what a subscriber has received and queued is an in-order subsequence of what it was offered, and equals it if and only if no send found the queue full |
| BrokerFeeds.ReplayedIs | pkg/channels/web/broker.go:87-102 | in every interleaving replay offers exactly the events behind the last one with the cursor among the session's last 1000 at that moment, none without a cursor or if none has it |
| BrokerFeeds.FeedIsSubsequence | pkg/channels/web/broker.go:48-105 | with Emits that do not overlap, at any moment, also in the middle of one, what a subscriber has received and queued is an in-order subsequence of the missed events followed by the session's events from its beginning up to the newest one whose fan-out has reached it, or to its end, and equals them if and only if no send found the queue full |
| Bus.MessageBus.StartPublish | pkg/bus/bus.go:24-29 | a publisher is admitted exactly when the bus is open |
| Bus.MessageBus.FinishPublish | pkg/bus/bus.go:30-31 | the blocked message is enqueued and the lock given back |
| Bus.MessageBus.ConsumeInbound | pkg/bus/bus.go:33-40 | the oldest queued message, an empty one after the end, or a refusal when cancelled |
| Bus.MessageBus.SubscribeOutbound | pkg/bus/bus.go:51-58 | the same for the other direction |
| Bus.MessageBus.CloseBus | pkg/bus/bus.go:73-82 | closes once, and only with no publisher holding the lock |
| Bus.EveryRunConserves | pkg/bus/bus.go:24-58 | in every interleaving received plus queued messages are the accepted ones in order, at most 100 wait, no send meets a closed channel, and empty messages come only after everything was received |
| Bus.PublishersKeepOrder | pkg/bus/bus.go:24-49 | what a publisher began before the close is accepted once and in its order, but for the one message still blocked; later ones are dropped |
| Bus.CloseEndsIntake | pkg/bus/bus.go:73-82 | after the close nothing more is accepted and the queues only drain |
| Bus.CloseNeedsAConsumer | pkg/bus/bus.go:73-82 | while a publisher is blocked on a full channel no run without a receive from it closes the bus |
| Bus.NeverBlocks | pkg/bus/bus.go:18-31 | a send into a channel with fewer than a hundred messages, a receive from one that holds a message, and a close without publishers on their way never block |
| Bus.ConsumeIs | pkg/bus/bus.go:33-58 | a receive takes the oldest message, or counts as one after the end |
| Stream.ReadDelta | pkg/providers/http_provider.go:215-234 | one piece of a call: last id and name, joined arguments, and the callbacks |
| Stream.ReadDeltas | pkg/providers/http_provider.go:215-234 | the pieces of one chunk in order |
| Stream.ReadChoice | pkg/providers/http_provider.go:203-238 | the contribution of one choice and its callbacks |
| Stream.ChatStream | pkg/providers/http_provider.go:141-272 | the response and all callbacks of a stream, or an error when a read fails that was made before the end marker was found, even if that read brings the marker |
| Stream.ReadLines | pkg/providers/http_provider.go:154-243 | what the lines up to the end marker add up to, and whether a failing read was made until then |
| Stream.MarkerInFailedRead | pkg/providers/http_provider.go:241-243 | a read that fails while it delivers the marker makes the whole answer an error, though all of its callbacks were made |
| Stream.ParseResponse | pkg/providers/http_provider.go:274-344 | the response for a whole answer |
| Stream.DeltasCollect | pkg/providers/http_provider.go:215-234 | what the pieces leave under an index is the last id, the last name and the joined arguments of that index, whatever lies between |
| Stream.PieceAdds | pkg/providers/http_provider.go:215-234 | what one more piece changes: the text under its own index grows by its text, and an id or a name replaces the former unless it is empty |
| Stream.StreamRefinesParse | pkg/providers/http_provider.go:141-344 | for every split and interleaving of the pieces and any other lines between them, the stream yields what parsing the whole answer yields, if the indices seen are exactly 0 to n-1 |
| Stream.CallsKeptIff | pkg/providers/http_provider.go:246-263 | the response has all the calls if and only if the indices have no gap and start at 0 |
| Stream.StreamedCalls | pkg/providers/http_provider.go:246-263 | each call of a stream whose indices are exactly 0 to n-1: the last id and name under its index, and as arguments nothing for an empty text, what the joined text decodes to, or the text itself if it does not decode |
| Stream.ParsedIs | pkg/providers/http_provider.go:298-344 | a whole answer, field by field, with the same about the arguments of each of its calls |
| Stream.EmptyStreamDiffers | pkg/providers/http_provider.go:298-303 | without any choice the two differ in the finish reason |
| Stream.CallbacksAreContent | pkg/providers/http_provider.go:205-213 | the content callbacks joined are the content of the response, and the reasoning callbacks its reasoning |
| Stream.CallbacksTell | pkg/providers/http_provider.go:205-234 | the callbacks of each kind bring the texts of that kind that are not empty, each once and in order, also if the stream breaks off |
| Dedup.MessageFilter.IsDuplicate | pkg/channels/onebot.go:641-661 | after every sequence of calls the answer is yes if and only if the id is among the last 1024 accepted |
| Dedup.SlotsAreTheMap | pkg/channels/onebot.go:651-658 | the map is the set of the non-empty slots, which are pairwise different |
| Dedup.AcceptedApart | pkg/channels/onebot.go:647-649 | an id is accepted again only after 1024 other acceptances |
| Dedup.RecognisedAfter | pkg/channels/onebot.go:641-661 | for 1023 calls after its acceptance an id is recognised |
| Dedup.RepeatDoesNotRenew | pkg/channels/onebot.go:647-653 | an id repeated at the end of its window is forgotten with the next new id |
| Dedup.NoIdNeverRepeats | pkg/channels/onebot.go:642-644 | the ids "" and "0" are never repeats and are not remembered |
| Dedup.OnlyRepeatsRepeat | pkg/channels/onebot.go:647-661 | no other id is a repeat before it was given, and each is one right after |
| Mention.StripBotMention | pkg/channels/line.go:426-467 | the text after cutting in place from the last mention to the first, or after removing the display name |
| Mention.StripsExactlyTheBot | pkg/channels/line.go:426-467 | for ascending mentions the result is the original text without exactly the characters in mentions of the bot |
| Mention.OneMentionIs | pkg/channels/line.go:426-467 | a single mention goes if it has the bot's user id or the bot's name is in the mentioned text; if not, the name goes wherever it follows an @ |
| Mention.DecisionsAgree | pkg/channels/line.go:434-446 | each decision made on the shortened text is the one the original text calls for |
| Mention.OverlapCutIff | pkg/channels/line.go:432-455 | of two mentions of the bot by user id, listed in ascending order, exactly their characters go if and only if the second begins behind the first, or covers it from its start and leaves too little text for the first to be cut as well |
| Mention.DescendingCutIff | pkg/channels/line.go:432-455 | of two such mentions listed against their order in the text exactly their characters go if and only if, when apart, the range of the first listed still lies inside the shortened text and, for the length of the second, the text reads the same at its start and behind its end, or, when overlapping, the second listed covers it and leaves too little text for it to be cut as well |
| Mention.DescendingCutsOther | pkg/channels/line.go:447-454 | two such mentions for which another character goes than the one mentioned |
| Mention.OverlapKeepsText | pkg/channels/line.go:447-454 | two overlapping mentions of the bot that leave text of the first |
| Utf8Cut.ShortenResult | pkg/agent/loop.go:858-864 | the scan back to the last byte that starts a character |
| Utf8Cut.StartsAreBoundaries | pkg/agent/loop.go:860-862 | in valid UTF-8 a byte starts a character if and only if cutting there leaves valid UTF-8 |
| Utf8Cut.ShortenedIsValid | pkg/agent/loop.go:858-864 | shortening valid UTF-8 gives valid UTF-8 and keeps 4093 to 4096 bytes, up to the last boundary |
| Utf8Cut.ContinuationsAreLost | pkg/agent/loop.go:860-862 | a run of stray continuation bytes is cut whole |
| Utf8Cut.MarkerIs | pkg/agent/loop.go:863-863 | what is put behind the cut is an ellipsis in UTF-8 and the word truncated in brackets |
| ToolCallText.FindMatchingBrace | pkg/providers/claude_cli_provider.go:185-198 | the least end at which a closing brace brings the depth to zero, or the start |
| ToolCallText.ExtractToolCallsFromText | pkg/providers/tool_call_extract.go:11-57 | the calls decoded from the part found, none when nothing is found or decoding fails |
| ToolCallText.ExtractsBalanced | pkg/providers/tool_call_extract.go:11-72 | for text made of anything, balanced text at the first marker, and anything, exactly the balanced part is decoded and removed |
| ToolCallText.ExtractedCalls | pkg/providers/tool_call_extract.go:35-57 | each call of that part comes out with its own id, type, name and argument text, and with what this text decodes to; nothing comes out if the whole does not decode |
| ToolCallText.ExtractsOrLeaves | pkg/providers/tool_call_extract.go:60-72 | every text is of that kind, or nothing is extracted and it stays as it is |
| ToolCallText.MatchIsBalanced | pkg/providers/claude_cli_provider.go:185-198 | what the scan finds at an opening brace is balanced |
| ToolCallText.DepthCounts | pkg/providers/claude_cli_provider.go:185-198 | the depth of the scan counts opening minus closing braces and nothing else |
| ToolCallText.ScanFindsObjectIff | pkg/providers/claude_cli_provider.go:185-198 | the scan finds the end of a JSON object if and only if the braces in its strings balance and never take away the whole depth |
| ToolCallText.PlainStringsAreFound | pkg/providers/claude_cli_provider.go:185-198 | in particular when no string contains a brace |
| ToolCallText.StringBraceEndsCall | pkg/providers/claude_cli_provider.go:185-198 | a closing brace inside a string ends the scan before the object ends, when no other brace stands between it and the marker |
| ToolCallText.BraceTextEndsCall | pkg/providers/claude_cli_provider.go:185-198 | an object of one field whose text is a closing brace, of which the scan finds 16 of 18 characters |
| Strings.TrimCuts | pkg/providers/tool_call_extract.go:71-71 | trimming removes the spaces at both ends and nothing else |
| Strings.SpacesAre | pkg/providers/tool_call_extract.go:71-71 | the characters that count as space |
| Strings.RemovesAll | pkg/channels/line.go:462-464 | removing a name leaves the pieces between its occurrences, found from left to right, and no piece is lost |
| Migration.PlanDirCopy | pkg/migrate/workspace.go:76-106 | one action for each walked entry, in order |
| Migration.PlanWorkspaceMigration | pkg/migrate/workspace.go:21-46 | the listed files, then the directories that exist; no plan when a walk fails |
| Migration.FileSystem.CopyFile | pkg/migrate/migrate.go:366-386 | a copy needs a file and a target that is no directory; it empties its target first, even when the source turns out to be a directory, and can break off anywhere |
| Migration.FileSystem.ConvertConfig | pkg/migrate/migrate.go:210-233 | the configuration becomes the converted text, or stays, or is left partly written |
| Migration.Execute | pkg/migrate/migrate.go:150-208 | the files, directories and counters after all actions, with any fault in each |
| Migration.ExecuteAction | pkg/migrate/migrate.go:153-204 | one action: a backup that fails leaves the destination alone |
| MigrationSafety.ErrorFreeDelivers | pkg/migrate/migrate.go:150-208 | after an error-free execution of independent actions every destination holds its source's old content and every backup its destination's |
| MigrationSafety.NothingIsLost | pkg/migrate/migrate.go:169-190 | whatever fails, the old content of a destination is in it or in its backup |
| MigrationSafety.OthersUnchanged | pkg/migrate/migrate.go:150-208 | files that no action writes stay as they are |
| MigrationPlans.PlanCovers | pkg/migrate/workspace.go:21-106 | a plan has one action for each listed file and walked entry, between the same places on both sides: a directory to make, a skip exactly when the source is missing, a backup exactly when the place is taken and force is off, and otherwise a copy |
| MigrationPlans.PlansAreIndependent | pkg/migrate/workspace.go:21-106 | between separate directories no action of a plan disturbs another, unless a planned file has the place of another's backup |
| MigrationPlans.MigrationDelivers | pkg/migrate/workspace.go:21-46 | an error-free migration, forced or not, delivers every planned file of the source, and if it is not forced with what it replaces in the backup |
| MigrationPlans.MigrationLosesNothing | pkg/migrate/migrate.go:150-208 | whatever fails, a file that was there is unchanged or in its backup, unless it is itself the backup of a planned file that both sides have |
| MigrationPlans.BackupsAreOverwritten | pkg/migrate/migrate.go:169-171 | in that case an error-free migration overwrites it with what the planned file was |
| MigrationAccounts.WorkspaceArrives | pkg/migrate/workspace.go:8-106 | the same by name: the five listed files and every file of the walks of memory and skills arrive, forced or not |
| MigrationAccounts.PlanFailsIff | pkg/migrate/workspace.go:33-43 | there is no plan if and only if the walk of a listed directory that exists fails |
| MigrationAccounts.ForcedKeepsTheRest | pkg/migrate/workspace.go:56-73 | a forced migration writes the places of its planned files and nothing else, and makes no backup, whatever fails |
| MigrationAccounts.ConfigArrives | pkg/migrate/migrate.go:155-162 | without errors a configuration to be converted is what the conversion made of it |
| MigrationAccounts.DirectoriesArrive | pkg/migrate/migrate.go:163-168 | without errors the directories of the walks are there, with all they lie in |
| MigrationAccounts.DirOfIs | pkg/migrate/migrate.go:180-180 | the directory made for a file is what stands before the last component of its path |
| MigrationAccounts.EachCountedOnce | pkg/migrate/migrate.go:150-208 | each action of a workspace plan is counted once, as a copied file, a skipped one, a directory or an error |
| MigrationAccounts.ErrorFreeCounts | pkg/migrate/migrate.go:150-208 | without errors the counters are the numbers of actions of each kind |
| MigrationLosses.SourceExists | pkg/migrate/migrate.go:150-208 | a migration leaves the source side as it was |
| MigrationLosses.MigratesAgain | pkg/migrate/workspace.go:21-46 | so the same migration can be planned again, of the same files |
| MigrationLosses.SecondMigrationReplacesBackup | pkg/migrate/migrate.go:169-171 | after two error-free migrations the backup of every planned file that both sides had holds what the first delivered, and the user's own content is gone |
| MigrationLosses.PlannedBackupIsLost | pkg/migrate/migrate.go:169-171 | with a file and, behind it, its namesake ending in .bak both planned and both on both sides, an error-free migration leaves the old content of the latter in none of the places it writes |

## Left out

- The channels and their networks (Telegram, Discord, Slack, Feishu, DingTalk, WhatsApp, QQ, LINE and OneBot
  apart from the two functions above), voice, OAuth, web search and fetch: input and output over libraries.
- The Oracle stores and their schema: the behaviour lies in the database.
- The command line, configuration, logging, prompts, health endpoints, hardware devices, shell guard, path
  validation, the routing classifier and other short branch code.
- JSON, cron expressions and the texts of warnings are uninterpreted. Of JSON files the model assumes that
  what was encoded decodes to the same snapshot.
- Text is a sequence of characters. Lower-casing of error texts covers ASCII letters. `Utf8Cut` works on bytes,
  and the summariser's size guard counts them. Index and length of a mention do not overflow.
- Created and updated times, log output and agent events are not modelled; back-off is a retry without time.
- The threshold at which a summary is wanted: `SummaryRuns` lets one be wanted at any moment. That `LoadOrStore`
  and `Delete` of the marks are atomic is assumed.
- The asynchronous callback of tools, and a sequential loop without any tool registry.
- CronSolo.ExecutionsAreSpaced: the time at which a handler ends is the clock reading of the state update that
  follows it under the lock, because the program reads no clock at the moment the handler returns.
- CronRuns.OneShotStartsOnce: runs contain neither `UpdateJob` nor `Load`; for `Load` see `Cron.ReloadRepeatsIff`.
- The broker and cron handlers are identified by numbers that the program does not keep (`call` of an event,
  tickets of firings); they only tell apart what would otherwise look equal.
- Mention.StripBotMention: a range of negative length outside the text is a fault, without saying whether the
  program stops or reads stale characters.
- SessionRecovery.ReloadIs: saves do not overlap, files are not changed by others, and a synced file survives a
  crash. The program does not sync the directory: a save whose rename a crash undoes counts as one that failed
  at its rename. Device names reserved by Windows are not checked.
- Restarts.RequestAfterCrashIff: a save is a single step of the run, taken at the moment of its snapshot; this
  loses nothing as long as saves do not overlap. A restart reads the session files only.
- Migration.FileSystem.ConvertConfig: how the converted text comes about, with its merging into an existing
  configuration, which decides field by field and would only add easy members.
- Migration.Execute: symbolic links, file modes and files that change while the migration runs. A walk of a
  directory is a given list of its entries.
- Whether a migration includes the configuration (`pkg/migrate/migrate.go:103-148`): the plans are those of the
  workspace.
- Migration.PlanWorkspaceMigration: a `Stat` that fails for another reason than a missing path, and the
  description texts of actions; as no skipped file lacks a description, every action is kept.
