# Verified model of the ACP runtime, the analytics store, migrations and contracts

A Dafny model of the stateful parts of the platform, and proofs of what they keep.

- **ACP sessions** (`AcpSession`, `AcpWorld`, `AcpInvariants`, `AcpMessages`, `AcpDuplicates`, `AcpRuns`, `AcpOrder`,
  `AcpPrompts`, `AcpClarifications`, `AcpSharing`, `AcpService`). `SendPrompt` is a chain of separate mutex sections
  with variables kept in between. Each section is one step of a state machine, the variables of every call under way are part of the
  state, and any number of calls interleave with provider chunks, deletions and `Close`. The classes of `AcpService` are
  the code: sessions changed in place, loops over messages and request ids, one method for each section, each shown to
  do just what its step does.
- **ACP wire and calls** (`RpcWire`, `RpcStreams`, `RpcHeaders`, `RpcCalls`, `RpcClient`). Two message formats and one
  reader that tells them apart; and the table of pending calls shared by callers and the reader goroutine, again as a state machine
  refined by classes with real channels.
- **Analytics** (`Calendar`, `Buckets`, `Timestamps`, `Kpi`, `Rollups`, `Reporting`, `AnalyticsStore`, `Dashboards`).
  Snapshots are folded into segments, facts and calendar rollups; the stored forms agree with the plain sums.
- **Reports** (`Filters`, `ReportModel`, `ReportInvariants`, `ReportService`). Runs, artifacts, deliveries and dead
  letters as a linked store with cascading cleanup.
- **Migrations** (`Migrations`). The runner as a process that can be cut short anywhere, with faults before, during and
  after a commit.
- **Contracts** (`Contracts`). The schema validator against an inductive relation, with the place of every issue.
- `Text`, `Durations`, `Sets`, `Sorting` and `Counting` hold what the others share.

Conventions. A Go string is a sequence of bytes, one `char` each. Times are nanoseconds, UTC, since the start of year 1.
Clock readings and new ids are parameters of a step, monotone and fresh; a section that reads the clock several times
takes several readings. A map iteration visits its keys in an arbitrary order. A step that cannot happen when its turn
comes is passed over, so every list of steps is a run. The remote agent, a delivery adapter, the content of a report and
a database may fail or succeed at will.

Where the properties one would like are false, the code is kept and the condition is proved:

- Assistant text keeps its order exactly when no chunk comes where the assistant has said something after the message
  that the chunk joins (`AcpOrder.ConservedExactly`). A provider that names no turns of its own out of turn always meets
  that (`AcpRuns.AssistantTextIsConserved`); one that does need not (`AcpOrder.MarkedTurnsReorder`).
- A set of questions can be resolved twice exactly when a prompt is taken while its session has a set pending that another
  call, not failed, has found before (`AcpSharing.SharingExactly`); and it does happen (`AcpSharing.SharingHappens`).
- A call registered when the reader stops can return from then on (`RpcCalls.StopSettlesEveryCall`); one that registers
  later is never answered (`RpcCalls.LateCallNeverReturns`), and it can come to that (`RpcCalls.LateCallHappens`).
- A breakdown has the plain-sum rows, whatever was captured, exactly when the other dimension is not filtered or the
  window is empty (`AnalyticsStore.FilteredBreakdownExactly`); otherwise it is empty (`Reporting.CrossFilterIsEmpty`).
- An undisturbed migration succeeds exactly when no recorded checksum contradicts a file
  (`Migrations.UninterruptedSucceeds`).
- The text of a field names one place when no key is empty, holds a dot or ends in an index
  (`Contracts.FieldNamesOnePlace`); with such keys it need not (`Contracts.FieldsCanCollide`), and a single key of the root
  is misread exactly when it has a dot inside or ends in an index (`Contracts.KeyReadsElseExactly`).

## Model

| member | source | states |
|---|---|---|
| AcpInvariants.SessionsAreCoherent | internal/platform/acp/service.go:304-464 | In every interleaving of prompts, chunks, deletions and Close: sessions and runtimes have the same keys, a session is in a turn exactly when it names one and exactly when its status is running, its questions are all there or all missing (as are those a call has put by), and the turn it names belongs to a call of its own that has yet to end it |
| AcpInvariants.TurnsFollowTheGrammar | internal/platform/acp/service.go:344-446 | In every interleaving: the lifecycle events of a turn are a prefix of started, user message, then failed, or resolved and requested at most once each and completed; the whole word once its call has returned; nothing for a call turned away; and every lifecycle event on a trace is of a turn of that session |
| AcpInvariants.ExecKeepsInv | internal/platform/acp/service.go:226-464 | Every run keeps the invariant over sessions, the variables of calls under way and traces |
| AcpInvariants.PublishedIsPrefix | internal/platform/acp/service.go:344-446 | What a call has published at any point extends to a whole turn story, and is one when it has returned |
| AcpRuns.AssistantTextIsConserved | internal/platform/acp/service.go:689-729 | In every interleaving in which the provider marks no turn of its own out of turn: the contents of a session's assistant messages, in list order, are all assistant chunk texts it received, trimmed, in arrival order |
| AcpOrder.ConservedExactly | internal/platform/acp/service.go:689-729 | The exact condition, over any run: however its latest chunk had been worded at each point, the text is all that was said, in order, if and only if no chunk comes where the assistant has said something after the message that appendChunkMessage joins it to |
| AcpOrder.LostWhenOutOfOrder | internal/platform/acp/service.go:1094-1137 | At the first chunk that comes out of order, some words put the session out of order |
| AcpRuns.LeavingTurnsKeepsOrder | internal/platform/acp/service.go:689-706 | A provider that leaves turns to the session sends every chunk in order, over any run |
| AcpRuns.UserMessagesNeverChange | internal/platform/acp/service.go:304-340 | A session's user messages are the prompts it took, as taken and in that order, and from any point of a run on they only grow |
| AcpRuns.DuplicatesStayOut | internal/platform/acp/service.go:484-538 | In every interleaving: two prompts with the same non-empty request id are more than ten minutes apart, two consecutive user messages with equal text more than ninety seconds |
| AcpRuns.TurnedAwayForCause | internal/platform/acp/service.go:484-538 | In every interleaving: a prompt is turned away only for a request id recorded at most ten minutes ago, with which the session has taken a prompt, or because the latest user message says the same and is at most ninety seconds old |
| AcpRuns.TextOverRun | internal/platform/acp/service.go:689-729 | From any state, a run whose chunks all come in order adds to the assistant text exactly what was said in it |
| AcpRuns.GoneStaysGone | internal/platform/acp/service.go:449-482 | A session that was deleted never comes back under its id |
| AcpMessages.KeepsOrderExactly | internal/platform/acp/service.go:1094-1137 | A chunk is added at the end of the assistant text, whatever it says, exactly when the assistant has said nothing after the message the chunk joins |
| AcpMessages.MergeTargetMeaning | internal/platform/acp/service.go:1106-1128 | The scan from the back finds the last assistant message of the turn that is less than a minute old at the moment it is looked at, or none if there is none |
| AcpMessages.ChunkExactly | internal/platform/acp/service.go:1094-1137 | What becomes of a provider chunk: added to the last message when that is of the same role and less than a minute old; else an assistant's is added to the last assistant message of its turn less than a minute old, which then counts as new; else a message of its own |
| AcpMessages.BlockKeepsOrder | internal/platform/acp/service.go:1094-1137 | While the current turn's messages are the last the assistant sent, oldest first, a chunk can only join the last of them, although the clock moves during the scan |
| AcpMessages.DoKeepsText | internal/platform/acp/service.go:689-723 | Every change of a session keeps turns in blocks and adds to the assistant text just what was said |
| AcpMessages.DoKeepsUsers | internal/platform/acp/service.go:304-340 | No change of a session touches a stored user message; taking a prompt adds one |
| AcpMessages.ChunkKeepsUsers | internal/platform/acp/service.go:1094-1137 | No chunk touches what the user said |
| AcpOrder.MarkedTurnsReorder | internal/platform/acp/service.go:697-729 | From the start of the service: a provider that names turns of its own out of turn can say a, b, c and within a minute have the session hold a, c, b, under any moving clock |
| AcpMessages.EchoIsDropped | internal/platform/acp/service.go:1115-1122 | A user chunk that echoes the latest prompt of its turn leaves the messages as they are |
| AcpDuplicates.ReplayedMeaning | internal/platform/acp/service.go:516-538 | The latest user message alone decides whether a prompt is a replay: equal to the display text or the content, and at most ninety seconds old |
| AcpDuplicates.DuplicateExactly | internal/platform/acp/service.go:304-313 | A prompt is turned away if and only if its request id was recorded at most ten minutes ago, or the latest user message says what it sends or shows and is at most ninety seconds old |
| AcpDuplicates.TakenIsApart | internal/platform/acp/service.go:304-340 | A prompt that is no duplicate keeps both windows against every earlier message, although entries have expired along the way |
| AcpDuplicates.DoKeepsDedup | internal/platform/acp/service.go:484-538 | Every change of a session keeps the windows |
| AcpClarifications.ClarificationsAlternate | internal/platform/acp/service.go:314-445 | With one prompt in flight per session: requests and resolutions alternate on the trace with matching ids, each set is resolved at most once, and the status is running exactly in a turn; between prompts the pending set is the one the trace shows open, and the status is awaiting_input exactly when a set is pending, otherwise error exactly when the last turn that ended failed, and otherwise ready |
| AcpClarifications.FailureRestores | internal/platform/acp/service.go:353-442 | With one prompt in flight: the session holds exactly the set the call found until the provider has taken the prompt and when the turn has failed; the prompt goes out with the session in the mode asked for; a failed turn leaves it awaiting input or in error, and a call about to publish completion leaves it ready with no set, or awaiting input with the set it asked |
| AcpPrompts.PromptCompletes | internal/platform/acp/service.go:283-446 | From any state that accepts it, a prompt whose provider answers well and that nothing disturbs leaves the whole state as stated: the message stored as shown and trimmed, the request ids of the last ten minutes and its own, the mode it wants, the set it found resolved, the session ready or waiting with the questions derived, the turn's events on the trace, the call returned, and nothing else changed |
| AcpPrompts.PromptBreaks | internal/platform/acp/service.go:283-399 | The same for a provider that refuses the mode or the prompt: the questions found are still there, the session waits for an answer to them or is in error, and the call returns an error |
| AcpPrompts.WantsPlanExactly | internal/platform/acp/service.go:289-292 | A prompt asks for a plan exactly when its mode is that word in any letter case, with white space around |
| AcpClarifications.ResolvedOnce | internal/platform/acp/service.go:400-413 | On a trace in step no set is resolved twice |
| AcpClarifications.HeldOverStep | internal/platform/acp/service.go:304-446 | Every step keeps what ties a session's state, its trace and the call in flight on it together |
| AcpSharing.SharingExactly | internal/platform/acp/service.go:314-323 | The exact condition: a run can be continued from some point on, without another prompt, to resolve a set twice if and only if it takes a prompt while its session has a set pending that another call, not failed, has found before |
| AcpSharing.UnsharedResolvesOnce | internal/platform/acp/service.go:314-413 | In every interleaving, overlapping prompts included, in which no prompt shares a set, no set is resolved twice |
| AcpSharing.SharedResolvesTwice | internal/platform/acp/service.go:344-413 | A prompt that shares a set, in any mode, leaves two calls that can both go on to resolve it |
| AcpSharing.ExecKeepsSharing | internal/platform/acp/service.go:304-446 | Without sharing every run keeps one holder for each set, and a pending set is held only by calls the provider has yet to answer |
| AcpSharing.DrivesOn | internal/platform/acp/service.go:344-413 | A call that has found a set and is not answered yet can, from whatever phase and mode, go on to resolve it |
| AcpSharing.SharingHappens | internal/platform/acp/service.go:304-446 | From the start of the service there is a run that resolves one set twice |
| AcpService.SessionRecord.ExpireRequests | internal/platform/acp/service.go:505-514 | Leaves exactly the request ids at most ten minutes old, in whatever order they are visited |
| AcpService.SessionRecord.IsReplay | internal/platform/acp/service.go:516-538 | The scan from the back computes the replay test |
| AcpService.SessionRecord.TakePrompt | internal/platform/acp/service.go:307-338 | Turns a duplicate away with only expiry done, or takes the prompt: turn, status, message and request id; and puts by the questions it finds |
| AcpService.SessionRecord.AppendChunkMessage | internal/platform/acp/service.go:1094-1137 | In-place append, merge or drop of a chunk of any role, equal to the specification that the text results are proved of |
| AcpService.SessionRecord.Fail | internal/platform/acp/service.go:356-367 | Ends the turn and puts the questions back, or marks an error when there were none |
| AcpService.SessionRecord.End | internal/platform/acp/service.go:416-440 | Ends the turn awaiting input with the new set, or ready, as the step does whose effect `AcpPrompts.PromptCompletes` spells out |
| AcpService.Service.AddSession | internal/platform/acp/service.go:226-229 | One step: session and runtime are registered together, the session ready, with no message, set or event |
| AcpService.Service.BeginPrompt | internal/platform/acp/service.go:304-343 | One step; not found exactly for a missing session, which then is untouched, and ignored exactly for a duplicate |
| AcpService.Service.TellNext | internal/platform/acp/service.go:1139-1161 | One step: the event due is appended to the trace if the session is still there |
| AcpService.Service.ModeAnswered | internal/platform/acp/service.go:353-378 | One step: the mode is noted, or the turn fails |
| AcpService.Service.PromptAnswered | internal/platform/acp/service.go:380-408 | One step: the turn fails, or the questions it found are cleared |
| AcpService.Service.FinishPrompt | internal/platform/acp/service.go:414-442 | One step: the turn ends awaiting input with a fresh set if there are questions and the session is still there, and ready if there are none |
| AcpService.Service.HandleUpdate | internal/platform/acp/service.go:689-723 | One step: the chunk is filed under the session's turn or the provider's |
| AcpService.Service.DeleteSession | internal/platform/acp/service.go:449-464 | One step; succeeds exactly for the owner of a stored session, and then that session and its runtime are gone; every other session and runtime stays, and all of them when it fails |
| AcpService.Service.CloseAll | internal/platform/acp/service.go:610-622 | One step: no session and no runtime is left |
| RpcStreams.StreamRoundTrip | internal/platform/acp/rpc_client.go:600-725 | Any list of compact payloads, each written in either format with white space between, is read back exactly, in order, and then the end of the stream |
| RpcStreams.CutStream | internal/platform/acp/rpc_client.go:675-725 | However many bytes of a stream arrive, the reader returns every message that arrived whole, in order, and of the next one nothing, except the start of a JSON line at a clean end of file |
| RpcStreams.WholeMeaning | internal/platform/acp/rpc_client.go:675-725 | The messages counted as whole and the bytes of the next one are together the bytes that arrived |
| RpcStreams.ReadOne | internal/platform/acp/rpc_client.go:675-725 | The reader tells the formats apart and takes exactly one message off the stream |
| RpcStreams.LengthLine | internal/platform/acp/rpc_client.go:709-715 | The Content-Length a writer prints is the one a reader parses, up to the 64-bit maximum |
| RpcStreams.ReadsJsonLine | internal/platform/acp/rpc_client.go:675-697 | After any white space, a line that starts with a brace or a bracket is a payload, trimmed, and exactly that line is taken |
| RpcHeaders.FrameOfAnyHeader | internal/platform/acp/rpc_client.go:698-725 | A frame with any header lines, Content-Length in any letter case, padded, with either line ending, is read as that many bytes after the empty line; the last Content-Length counts, and without a positive one the length is missing |
| RpcHeaders.BadLengthFails | internal/platform/acp/rpc_client.go:709-715 | A Content-Length that writes no 64-bit number fails the reading at that line |
| RpcWire.WriteMessage | internal/platform/acp/rpc_client.go:600-621 | Success writes exactly the payload and a newline, or the Content-Length header, an empty line and the payload; a failed write leaves the first bytes of that, whichever of the two writes fails and wherever |
| RpcStreams.FailedWriteReads | internal/platform/acp/rpc_client.go:600-725 | After a last write that failed before the end of its message, the reader gets every message before it, and of that one nothing, except the start of a JSON line at a clean end of file |
| RpcWire.ReadRPCPayload | internal/platform/acp/rpc_client.go:675-725 | The loops over the buffered reader compute the specification that the round trip is proved of, and consume what it says |
| RpcCalls.TableIsSafe | internal/platform/acp/rpc_client.go:573-673 | In every interleaving: no send or close panics, a pending id's channel is open and empty, each channel gets at most one response, its own, and is closed at most once, a caller is answered only with its own id, and the reader never blocks on a delivery |
| RpcCalls.StopSettlesEveryCall | internal/platform/acp/rpc_client.go:666-673 | When the reader stops, every call registered by then can return from then on, whatever happens next |
| RpcCalls.LateCallNeverReturns | internal/platform/acp/rpc_client.go:573-598 | A call that registers after the reader has stopped is never answered; it returns only if its write fails |
| RpcCalls.LateCallHappens | internal/platform/acp/rpc_client.go:573-598 | From the start there is a run in which a call is made and written after the reader has stopped, and it waits whatever happens next |
| RpcCalls.AnswersComeFromWire | internal/platform/acp/rpc_client.go:642-651 | Every response a caller gets is one the reader took off the wire earlier in the run |
| RpcCalls.AnswerIsDelivered | internal/platform/acp/rpc_client.go:585-651 | From any reachable state with the reader idle: a response for a pending call that waits, once taken, sent, closed and received, is what that call returns; its entry has left the table, and every other entry and call is as it was; one for an unknown id changes nothing |
| RpcCalls.NoAnswerIsLost | internal/platform/acp/rpc_client.go:642-651 | In every interleaving, once the reader has taken a response for a pending id, it holds that response, or the response lies in that call's channel, or it is what that call returned |
| RpcCalls.CallEnds | internal/platform/acp/rpc_client.go:570-598 | What a call comes to from any reachable state: number, entry and request, then the answer it is sent, the write error with its entry dropped, or the closed connection when the reader stops first |
| RpcCalls.ExecKeepsInv | internal/platform/acp/rpc_client.go:573-673 | Every run keeps the invariant over table, channels, callers and reader |
| RpcClient.Client.NumberCall | internal/platform/acp/rpc_client.go:574-575 | One step: a fresh id and an open channel of its own |
| RpcClient.Client.ReceiveAnswer | internal/platform/acp/rpc_client.go:585-588 | One step: the caller takes the buffered response or learns of the close |
| RpcClient.Client.TakeResponse | internal/platform/acp/rpc_client.go:643-648 | One step: lookup and removal under the mutex; that what is taken is delivered is `RpcCalls.AnswerIsDelivered` |
| RpcClient.Client.SendHeld | internal/platform/acp/rpc_client.go:649-649 | One step; the channel is open and empty, so the send neither panics nor blocks |
| RpcClient.Client.CloseServed | internal/platform/acp/rpc_client.go:650-650 | One step; the channel is still open |
| RpcClient.Client.ClosePending | internal/platform/acp/rpc_client.go:666-673 | One step: every channel in the table is closed once, in any order, and the table is empty |
| Calendar.CivilUnique | internal/platform/analytics/service.go:655-669 | Each day number has one date, and each valid date one day number |
| Calendar.CivilIsGregorian | internal/platform/analytics/service.go:655-669 | The date of a day is the proleptic Gregorian one, by a closed form for the first day of any month: leap days every fourth year but three centuries in four, and the month lengths from March on |
| Calendar.DaysAreGregorian | internal/platform/analytics/service.go:655-669 | Counting days year by year and month by month comes to that closed form, for years of any sign |
| Calendar.AddMonth | internal/platform/analytics/service.go:663-664 | Adding a month adds the length of the current month, also when the day overflows |
| Calendar.AddDays | internal/platform/analytics/service.go:661-661 | Adding days adds whole days, across months and years |
| Buckets.BucketsPartition | internal/platform/analytics/service.go:654-671 | start <= t < end; an instant lies in the range exactly when it has the same bucket; and the next bucket starts at end |
| Buckets.DailyBucket | internal/platform/analytics/service.go:667-669 | A daily bucket runs from one midnight to the next |
| Buckets.WeeklyBucket | internal/platform/analytics/service.go:657-662 | A weekly bucket starts on a Monday at midnight, a whole number of weeks from Monday 0001-01-01, and lasts seven days, also across the turn of a year |
| Buckets.MonthlyBucket | internal/platform/analytics/service.go:663-665 | A monthly bucket runs from midnight on the first of the month to midnight on the first of the next, on the days the closed form gives |
| Buckets.NextRunLater | internal/platform/analytics/service.go:734-745 | The next run is strictly later: by one hour, 24 hours or seven days, or by the length of the current Gregorian month, even from the 31st |
| Timestamps.FormatInjective | internal/platform/analytics/service.go:550-550 | Two instants at a whole second with the same RFC 3339 text (section 5.6) are the same instant |
| Timestamps.FormatText | internal/platform/analytics/service.go:549-556 | From year 0 to 9999 the text has the Gregorian date and the time of day in fields of four and two digits, and a rollup key has its granularity in front |
| Timestamps.KeyInjective | internal/platform/analytics/memory_repository.go:97-100 | Two buckets share a rollup key only if they have the same granularity and start |
| AnalyticsStore.MemoryRepository.CaptureSnapshot | internal/platform/analytics/service.go:396-416 | Takes a snapshot of the documents, stores it and its facts, and leaves every bucket that holds a retained snapshot with exactly its plain sum, at all granularities; rollups of other buckets stay as they were |
| AnalyticsStore.MemoryRepository.RefreshRollups | internal/platform/analytics/service.go:503-512 | The same for whatever snapshots are retained, also after a cleanup |
| AnalyticsStore.BuildRollups | internal/platform/analytics/service.go:546-579 | Builds exactly the rollups that the listed snapshots are due, each the plain sum of its bucket |
| AnalyticsStore.MergeSegments | internal/platform/analytics/service.go:581-595 | Merging adds key by key, whatever order the keys are visited in |
| AnalyticsStore.MemoryRepository.DeleteOlderThan | internal/platform/analytics/memory_repository.go:85-95 | Keeps every snapshot at or after the cutoff as often as it was there, in order, and none before it |
| Rollups.RollupOrder | internal/platform/analytics/service.go:546-579 | The sum of a bucket does not depend on the order of the snapshots |
| Rollups.RollupMeaning | internal/platform/analytics/service.go:546-579 | The rollup due to a bucket has the number of snapshots generated in it, and each counter of it, of documents, workflow and reliability, and per type and per location, is the integer sum of that counter over those snapshots |
| Rollups.InBucketCount | internal/platform/analytics/service.go:549-556 | A bucket counts each of its snapshots once and no other |
| Rollups.SameId | internal/platform/analytics/service.go:549-556 | Rollups that share an id are the same rollup |
| Reporting.TakeSnapshot | internal/platform/analytics/service.go:288-394 | The one loop over documents counts them all, and for each of the five statuses the documents with that very status, in total and for each type and each location; a document with another status counts as created only |
| Reporting.GroupedIsTally | internal/platform/analytics/service.go:291-394 | Each segment has the number of documents of its key, with "unscoped" for no location, and of those with each of the five statuses, and it is there exactly when there is such a document |
| Reporting.SegmentsSumToTotals | internal/platform/analytics/service.go:288-307 | Per type and per location, every counter of the segments sums to the document total |
| Reporting.BuildFacts | internal/platform/analytics/service.go:673-698 | One fact for each key of each map and no other, in whatever order the keys are visited |
| Reporting.RowsAgree | internal/platform/analytics/memory_repository.go:172-209 | Unless the query filters the other dimension or another key, the facts selected for a key sum to that key's segments in the window, although each document is stored twice |
| Reporting.RowsPresent | internal/platform/analytics/memory_repository.go:172-209 | And the key has a row exactly when a snapshot in the window has its segment |
| Reporting.CrossFilterIsEmpty | internal/platform/analytics/memory_repository.go:134-149 | A location filter leaves a breakdown by type without rows, and the other way round |
| AnalyticsStore.MemoryRepository.ReportingBreakdown | internal/platform/analytics/memory_repository.go:172-209 | The rows are sorted, one for each key with a selected fact, and each is the sum of its facts |
| AnalyticsStore.BreakdownIsPlainSum | internal/platform/analytics/memory_repository.go:172-209 | End to end: unless the other dimension is filtered, the rows over the stored facts are exactly the keys of the snapshots captured in the window that pass the filter on their own dimension, each the plain sum of its segments |
| AnalyticsStore.FilteredBreakdownExactly | internal/platform/analytics/memory_repository.go:134-209 | Whatever documents were captured and when, the breakdown has those rows, if and only if the other dimension is not filtered or the window is empty |
| AnalyticsStore.RowsCountDocuments | internal/platform/analytics/memory_repository.go:172-209 | From documents to rows, unless the other dimension is filtered: a row has the number of documents of its key and of those with each of the five statuses, once for each capture in the window, and is there exactly when its filter lets the key through and there is such a document |
| Reporting.WindowSumCounts | internal/platform/analytics/service.go:288-394 | The sum over stored segments is the number of documents, and of those with each status, over the captures in the window |
| ReportService.Store.DeliverArtifact | internal/platform/analytics/export.go:195-276 | An unknown artifact changes nothing and asks no adapter; otherwise one delivery is recorded with the next attempt number of its artifact, channel and recipient. It is delivered exactly when the channel is one of the five and the adapter answered no error; else it has the adapter's text, or that of an unsupported channel, for which nobody is asked, and is failed, or from the third attempt on dead, with a dead letter of that text; links, numbers and pairing are kept |
| ReportService.Store.RunReport | internal/platform/analytics/export.go:285-328 | Nothing when the report is not rendered; otherwise one run and one new artifact of the report that name each other, and if there is a channel the first delivery of that artifact there, recorded as the adapter answered; it succeeds exactly when all that was asked answered well and the channel, if any, exists; links stay closed |
| ReportService.Store.RunDueReports | internal/platform/analytics/export.go:330-344 | On success each due definition ran once and moved on to its next run, all others are unchanged; on an error that is true of those done, at most one more report ran, and a report was not rendered, an adapter failed, or a due definition names no channel there is |
| ReportService.NothingDueTwice | internal/platform/analytics/export.go:330-344 | After a success every enabled definition is due later than now, so a second call at the same instant runs nothing |
| ReportService.DueIdsOrder | internal/platform/analytics/export.go:330-344 | What is due does not depend on the order of the list |
| ReportService.DueIdsMeaning | internal/platform/analytics/export.go:330-344 | An id is due as often as an enabled definition with that id has reached its time |
| ReportService.TopAttempt | internal/platform/analytics/export.go:203-208 | In a numbered list, one more than the greatest number found in any order is the next number |
| ReportService.Store.CleanupReportData | internal/platform/analytics/memory_repository.go:417-467 | The four loops compute the cleanup and keep the invariant of the store |
| ReportModel.CleanedMeaning | internal/platform/analytics/memory_repository.go:417-467 | Cleanup keeps exactly the items at or after the cutoff whose whole parent chain is kept |
| ReportModel.CleanTwice | internal/platform/analytics/memory_repository.go:417-467 | Cleaning at two cutoffs in turn is cleaning once at the later |
| ReportInvariants.CleanKeepsInv | internal/platform/analytics/memory_repository.go:417-467 | Cleanup leaves no dangling link, keeps attempts numbered from 1, and dead letters paired with the deliveries that ended dead |
| ReportInvariants.CleanAllOrNothing | internal/platform/analytics/memory_repository.go:417-467 | Cleanup keeps or drops the attempts of an artifact all together |
| Dashboards.DashboardStore.EffectiveDashboard | internal/platform/analytics/authoring.go:196-232 | Returns none exactly when no default dashboard, active or without status, for the surface or for any, covers the viewer, and otherwise the one of the narrowest scope, then latest update, then smallest id |
| Dashboards.EffectiveUnique | internal/platform/analytics/authoring.go:196-232 | The result does not depend on the order of storage |
| Dashboards.ScoreMeaning | internal/platform/analytics/authoring.go:234-270 | A dashboard scores exactly when its scope covers the viewer, and of two that do the narrower scope scores more |
| Dashboards.DashboardStore.DashboardsForSurface | internal/platform/analytics/authoring.go:165-180 | Lists exactly the dashboards of the surface or of no surface, or all when none is asked for, latest first, then by id |
| Migrations.MigrateUp | cmd/migrate/main.go:45-92 | The loop computes the run that the results are proved of, with its early returns |
| Migrations.MigrationFiles | cmd/migrate/main.go:146-160 | Lists exactly the .sql files, in strictly ascending byte order |
| Sorting.StringLessExactly | cmd/migrate/main.go:158-158 | The order of the files is byte order: after the bytes two names share, the first ends or has the lesser byte |
| Migrations.RunCommitsPrefix | cmd/migrate/main.go:57-91 | A run stops at the first file that cannot be read, whose row was missed or tells another checksum, or whose transaction fails; it has then committed exactly the pending files before it, in sorted order, and that file only if the word of its commit was lost; rows that were there stay, each committed file has one with its checksum and there are no others, and it succeeds exactly when no file stops it |
| Migrations.ResumeIsOneRun | cmd/migrate/main.go:45-92 | Any series of runs, under any faults and partial reads, that ends in success leaves the table and the scripts of one uninterrupted run, and a further run changes nothing |
| Migrations.UninterruptedSucceeds | cmd/migrate/main.go:57-70 | Without faults a run succeeds exactly when no recorded checksum contradicts a file |
| Migrations.DeployCommitsOnce | cmd/migrate/main.go:45-92 | No name is committed twice over any series of runs, even when files change and rows are missed |
| Migrations.StageCommits | cmd/migrate/main.go:57-91 | The stages a database goes through commit what was pending, in order, and nothing else |
| Migrations.RunStages | cmd/migrate/main.go:57-91 | Whatever befalls a run, it takes the database from one stage to the same or a later one |
| Contracts.ValidateNode | contracts/contracts.go:91-137 | Reports no issue exactly when the value conforms; every issue is a violation at its place, and every violation is reported, for any nesting and any order of properties |
| Contracts.ValidateObject | contracts/contracts.go:67-72 | The same for a payload; an empty schema asks nothing |
| Contracts.FindViolation | contracts/contracts.go:91-137 | A value that does not conform has a violation |
| Contracts.ConformingIsClean | contracts/contracts.go:91-137 | A value that conforms has none |
| Contracts.TypeMeaning | contracts/contracts.go:149-186 | The values each type name accepts; a float is an integer when it equals its conversion, a number left as digits when it writes a 64-bit integer, and an unknown name accepts everything |
| Contracts.ObjectMeaning | contracts/contracts.go:102-123 | A typed object schema accepts exactly the objects with all required keys that are not blank whose fields conform to the properties of their names; untyped, anything else counts as an object without fields |
| Contracts.ItemsMeaning | contracts/contracts.go:124-134 | A typed array schema accepts exactly the arrays whose items all conform; untyped, also everything that is no array |
| Contracts.PathLeadsToOffender | contracts/contracts.go:94-134 | The path of a violation, followed through the value and through the schema, leads to the sub-value that breaks its type or constant, or to the object that lacks the required key |
| Contracts.FieldNamesOnePlace | contracts/contracts.go:132-147 | With keys that are not empty, hold no dot and do not end in an index, the text of a field names one place only |
| Contracts.FieldsCanCollide | contracts/contracts.go:132-147 | A dotted key reads like two keys, an empty key like none, and a key that ends in an index like a key and an index |
| Contracts.KeyReadsElseExactly | contracts/contracts.go:132-147 | The text of one key of the root reads as another path without empty keys if and only if the key has a dot inside or ends in an index |
| Contracts.ConstMeaning | contracts/contracts.go:98-100 | A constant does not tell a number left as its digits from the text of the same digits; an integer constant accepts of the integers itself only, and of texts and undecoded numbers only those spelled as it prints |
| Contracts.UntypedRequiredWantsObject | contracts/contracts.go:102-114 | An untyped schema with a required key accepts exactly the objects that have it, or anything if the key is blank |
| Text.DecRoundTrip | internal/platform/acp/rpc_client.go:615-615 | The printed length reads back as the same number |
| Text.AtoiDec | internal/platform/acp/rpc_client.go:711-711 | strconv.Atoi accepts every printed length up to the 64-bit maximum |
| Text.AtoiExactly | internal/platform/acp/rpc_client.go:709-713 | strconv.Atoi reads exactly the texts that write a 64-bit integer: an optional sign, any zeros and the decimal digits |
| Text.TrimSpaceExactly | internal/platform/acp/service.go:284-296 | Trimming takes the ASCII white space off both ends and nothing else |

## Left out

- Go integers: counters and calendar arithmetic are unbounded, except `strconv.Atoi`, whose 64-bit range is modelled.
- Text: white space and lower case are the ASCII ones; Unicode is not modelled. Times are UTC only.
- Granularities, schedules and breakdown dimensions are datatypes; the code folds every other text into daily, daily and document type.
- AcpClarifications.ClarificationsAlternate: that requests and resolutions alternate, and that awaiting_input out of a turn means a pending set, is for runs with one prompt in flight per session, as the protocol has it; that no set is resolved twice is proved under the exact condition in `AcpSharing`.
- Contracts.FieldNamesOnePlace: its condition on the keys is sufficient; for whole sets of keys the exact one would be that their texts decode uniquely. For one key `KeyReadsElseExactly` has both directions.
- ACP heuristics: what the text of a turn is taken to ask is arbitrary (some questions or none); dashboard artifacts, tool activity, plans, approvals, context blocks and models are left out, their events count as events of another kind.
- ACP subscribers: channels of the event stream, whose sends happen outside the mutex.
- ACP bookkeeping: update times, last errors, and the ids of messages and events; cloning a session for its reader.
- ACP processes: starting the agent, its environment, MCP discovery and the model lookup. A session is modelled from its registration on.
- JSON: payloads are compact texts; encoding and decoding of their content are not modelled. Writes are one message at a time, and nothing is written after a failed one.
- Analytics captures: dimensions, workflow and reliability facts, float rates, limits and errors of the memory repository, which never fails.
- Rollups of buckets that no longer hold a snapshot stay as they were, as in the code; nothing is claimed of their sums.
- Report content, file formats and delivery adapters are arbitrary outcomes. Creating and deleting report definitions is left out; ids of definitions are taken to be unique.
- The Postgres repository, the scheduler, authoring beyond the effective dashboard (its widget order too), migration status output, event schema lookup, and the frontend.
