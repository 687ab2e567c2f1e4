# Filo: verified core protocols

Filo lets a phone follow and steer coding-agent sessions that run on a computer.
A background service there speaks JSONL and WebSocket to the native agents,
watches their processes and serves conversations page by page. This project is
about the places where one wrong branch would drop a reply, send a command
twice, cut a message in half or stop an agent that is still working: each is
modelled in Dafny, step for step, and theorems over all inputs and all runs say
what it keeps. `dafny verify dfyconfig.toml` checks the whole project.

| file | what it models |
|---|---|
| `Rpc.dfy` | the JSONL RPC transport: calls, the writer, the reader, deadlines and close interleaved one critical section at a time, and the same code on mutable fields |
| `ModWindow.dfy`, `ModBridge.dfy`, `ModView.dfy`, `ModOrigins.dfy` | the Claude Mod bridge: sequenced atomic batches, the bounded observation window, commands and input receipts, and what view and receipts say read from the events of a run alone |
| `Pages.dfy` | the conversation pager: text splitting in UTF-16 units, cursor walks, byte budgets |
| `Lifetime.dfy` | who may release the native process: the executor's fence and idle check, and the guardian |
| `Utf8.dfy`, `NativeText.dfy`, `NativeJson.dfy`, `NativeRoundTrip.dfy`, `NativeCanon.dfy`, `NativeSound.dfy`, `NativeGrammar.dfy`, `NativeDecoder.dfy` | native JSON, whose text may hold unpaired surrogates and whose keys print in the order of ECMA-262: printing, the bounded decoder, the grammar of RFC 8259 it accepts, and what comes back |
| `Patch.dfy`, `PatchCanon.dfy` | copy-on-write patches over ordered JSON with one allocation budget, and undoing them |
| `TaskActivity.dfy` | the live activity buffer and its merge into a persisted page |
| `WebSocket.dfy` | RFC 6455 frames, reassembly, and the reader that discards large messages |
| `Payloads.dfy` | the cache of message bodies and loading by revision |
| `History.dfy` | backward record scan and transcript paging |
| `NativeRows.dfy` | streamed text and thinking blocks over bounded rows |
| `EventStream.dfy` | the streaming UTF-8 decoder and the server-sent event reader |
| `Common.dfy` | small value types, concatenation, distinctness and eviction |

Code that changes state is a class or a method with loops, proved equal to a
specification function; the promises are then proved about that function or
about every run of a step machine built from it. Concurrency is a
nondeterministic choice of the next step: one critical section, one
transmission, one delivery or one timer at a time. Some proofs write `hide F;`
to keep the definition of F out of a step that does not need it.

## Where a promise has a condition

The code is modelled as it is. Where a property fails, one lemma gives an input
or a run that breaks it and another says exactly when it holds.

- A write popped after its deadline stays charged exactly if its key was already taken: `RpcSafety.LateWriteLeak`; a run: `RpcSafety.LateWriteLeakExists`.
- A rejected input receipt changes, while its input is kept, exactly when its own sender times out before it has let go of the command: `ModReceipts.RejectedUntilTimeOut`; a run: `ModReceipts.RejectedIsOverwritten`.
- A generated part id can equal another message's own id: `PageIdentity.SplitIdsDistinct`; an input: `PageIdentity.ClashExists`.
- A page's next cursor can be unreadable, and then a walk stops: `PageWalk.NextReadableIff`, `PageWalk.FollowSucceedsIff`; an input: `PageWalk.UnreadableNextExists`.
- A systemError with a cached terminal turn proves that the task is idle if and only if, when the turn was copied, no start of the task was waiting at native or unread on the executor's connection: `LifetimeLimits.CachedTurnProvesIff` over all continuations, `LifetimeSafety.NothingRunsAtRelease` for one run; a run: `LifetimeLimits.CachedTerminalMayBeOld`. A run in which no turn/start is given up has only such copies: `LifetimeSafety.PatientCopies`, `LifetimeSafety.PatientRunsNothing`.
- Two overlapping thread/start requests may leave the executor with two tasks; what runs at release is always one that it owned besides its own: `LifetimeSafety.NothingRunsAtRelease`; a run: `LifetimeLimits.OverlappingStartsLoseATask`.
- A completion the guardian remembers may be out of date after a lost connection. Across a reconnect it is proof enough if and only if what was discarded since the task was last heard of does not end in a start of it: `LifetimeLimits.RememberedCompletionProvesIff` over all continuations, `LifetimeSafety.NothingRunsAtGuardRelease` for one run; a run: `LifetimeLimits.LostConnectionMayHideATurn`. A guardian that never reconnects while it remembers a completion, which it can see for itself, is safe: `LifetimeSafety.ConnectedGuardIsSafe`.
- Strings at a few paths below `items` are dropped by the decoder: `NativeLaws.RoundTrip`; an input: `NativeLaws.DroppedText`. The comment in `internal/nativejson/projection.go:34` says tool fields arrive intact; the code drops `restoreMessage`, `raw_content`, `result/_meta` and inline image data.
- A document that was read may print to one that is refused for memory, since a number may be printed longer than it was written: `NativeLaws.ReadIsStable`; an input: `NativeLimits.PrintOutgrowsMemory`.
- Removing a member and adding it again moves it last: `PatchLaws.InverseRestores` for the stored order, `PatchCanon.InverseRestoresCanon` for the order in which it prints; inputs: `PatchLaws.ReaddedKeyMoves`, `PatchCanon.OnlyIndexMovesFreely`.
- A record that starts exactly at a positive lower bound is not yielded: `Records.YieldsExactlyTheRecords`; an input: `Records.LowerBoundHidesRecord`.
- A transcript line as long as the window stops the walk unless the first window holds it: `Transcript.WalkSucceedsIff`; a file for every window: `Transcript.WindowLongLine`.
- A row written by another producer under an open block's id replaces its text: `NativeStream.ClashIsRightOnlyIfEqual`; a run: `NativeStream.ClashOverwrites`.
- An event comes back exactly if its text does not start with a newline and none of its lines ends in a carriage return: `EventLines.EventRoundTrip`, which also gives what is delivered otherwise; an input: `EventLines.ReturnIsDropped`.
- The event stream's size check looks at whole chunks: `EventLines.RefusedIff` for one cut, `EventLines.NoCutRefusedIff` for all cuts; an input: `EventLines.CutDecidesNearLimit`.

## Model

| member | source | states |
|---|---|---|
| RpcInvariant.Reachable | internal/codex/rpc_write.go:32-168 | in every interleaving of enqueue, pop, write, response, expiry and close the transport invariant holds: channels, queue, byte count, writer and output fit together |
| RpcSafety.ExactlyOneReply | internal/codex/rpc.go:106-140 | in every run a request channel is sent to at most once, and has its one reply exactly when its key has left `pending` and the reader is not holding the reply |
| RpcSafety.ExpiredCallIsAnswered | internal/codex/rpc_write.go:88-115 | after its own expiry a call finds one reply, at once or from the reader, and in no continuation a second one |
| RpcSafety.GoneStaysGone | internal/codex/rpc.go:273-316 | a key that left `pending` never comes back |
| RpcSafety.TimedOutSendReturns | internal/codex/rpc_write.go:69-84 | a timed-out send always finds exactly one result, through expire or, after any number of other steps, through the close that follows a write under way |
| RpcSafety.Bounded | internal/codex/rpc_write.go:47-56 | `queuedBytes` is the exact sum over `writes` and within 64 MiB; neither `writes` nor `pending` exceeds 64; no write is in the queue twice, and each one there is in `writes` and not yet popped |
| RpcSafety.SentOnceInOrder | internal/codex/rpc_write.go:132-168 | in every run the output is a sequence of whole packets in enqueue order, none of them twice and none that was cancelled before it was popped |
| RpcSafety.RunLater | internal/codex/rpc.go:164-198 | settled writes, sent replies, the output and a close are permanent |
| RpcSafety.LateWriteLeak | internal/codex/rpc_write.go:92-95 | a write popped after its deadline stays in `writes` if and only if it is a request whose key was already taken by a response or a close |
| RpcSafety.LateWriteLeakExists | internal/codex/rpc_write.go:148-152 | a run in which that happens: the transport is idle and open and the write is still charged |
| RpcOrigins.ReplyIsOwn | internal/codex/rpc.go:295-315 | in every run a channel has, or is about to get, the reply r if and only if some action settled it with r: the response that carried its own key, or the cause of its expiry, of a close or of a broken output |
| RpcOrigins.PendingUntilSettled | internal/codex/rpc.go:106-140 | a requested key is pending exactly until an action settles it, and no two actions settle it differently |
| RpcOrigins.BrokenBy | internal/codex/rpc_write.go:155-163 | the cause of a broken output is the error of the output of the write that was being sent |
| RpcOrigins.ClosedByFirst | internal/codex/rpc.go:164-172 | in every run the transport is closed with a cause if and only if the first action to close it gave that one |
| RpcOrigins.ResultIsOwn | internal/codex/rpc_write.go:117-130 | in every run a write has the result r if and only if some action gave it r: no error after the output of its own packet, or the cause of its expiry, of a close or of a broken output |
| RpcOrigins.PacketIsOwn | internal/codex/rpc_write.go:32-60 | every write carries the bytes and the key of one call, and writes are numbered in the order of their calls |
| RpcOrigins.TimelyPopIsSent | internal/codex/rpc_write.go:132-155 | a packet popped in time is the next one to reach the output, whatever happens before that output is done |
| RpcOrigins.LatePopIsNotSent | internal/codex/rpc_write.go:148-152 | a packet popped after its deadline reaches the output in no continuation |
| RpcTransport.Rpc.Enqueue | internal/codex/rpc_write.go:32-60 | the method on mutable fields does exactly the enqueue step, and accepts exactly when the bounds allow |
| RpcTransport.Rpc.Append | internal/codex/rpc_write.go:51-54 | the write joins set, queue and byte count |
| RpcTransport.Rpc.FinishWriteLocked | internal/codex/rpc_write.go:117-130 | the method does exactly the finish step |
| RpcTransport.Rpc.Expire | internal/codex/rpc_write.go:88-115 | the method, with its in-place removal from the queue, does exactly the expire step and reports whether the write was under way |
| RpcTransport.Rpc.Unqueue | internal/codex/rpc_write.go:101-107 | the search loop takes exactly the first occurrence of the write out of the queue |
| RpcTransport.Rpc.CloseWithError | internal/codex/rpc.go:164-198 | the method, with its two loops, does exactly the close step |
| RpcTransport.Rpc.PopWrite | internal/codex/rpc_write.go:132-155 | the method does exactly the pop step |
| RpcTransport.Rpc.TakeResponse | internal/codex/rpc.go:295-315 | the method takes a reply channel out of `pending` at most once |
| RpcTransport.Rpc.RejectPending | internal/codex/rpc.go:174-178 | the loop sends the cause once to every pending channel and to no other |
| RpcTransport.Rpc.FinishAll | internal/codex/rpc.go:179-183 | the loop finishes every write with the cause, once |
| ModWindow.ApplyAllKeeps | internal/claude/live_blocks.go:60-121 | every accepted batch keeps the window: no row id twice, 128 rows at most, `rowBytes` the exact sum and within 8 MiB |
| ModWindow.NewestSurvives | internal/claude/live_blocks.go:101-107 | a valid row or new block is in the window after the eviction it causes, with the event's content |
| ModWindow.OnlyOldestGo | internal/claude/live_blocks.go:60-107 | after a row or block event every row is the event's or an unchanged old one, and exactly the n oldest are gone |
| ModWindow.TrimObservedRows | internal/claude/live_blocks.go:101-107 | the trim loop drops exactly the shortest prefix that brings the rest within both bounds |
| ModWindow.FinishObservedBlocks | internal/claude/live_blocks.go:109-121 | the loop settles exactly the running blocks of the finished turn |
| ModWindow.AppendLocked | internal/claude/bridge.go:420-433 | the method refuses a duplicate id and otherwise appends and trims as specified |
| ModWindow.ProjectBlockLocked | internal/claude/live_blocks.go:60-91 | the method replaces a block of the same shape in place or appends it, as specified |
| ModBatches.ViewIsFold | internal/claude/bridge.go:226-337 | whatever is sent again, out of order or altered and whatever commands interleave, sequence n means that n batches were accepted, and the view is what applying them one after the other gives, within the window's bounds |
| ModBatches.OnlyNextBatchChanges | internal/claude/bridge.go:226-242 | refusing a batch, or seeing the last one again, leaves everything as it was; an accepted one is the next in sequence, and accepting it again is a repeat |
| ModBatches.CommandsKeepView | internal/claude/mod_controls.go:130-208 | nothing but a push touches the view, the sequence or the digest |
| ModView.ViewIsRead | internal/claude/bridge.go:254-311 | in every run the view is what the accepted events say, read without the step: the active turn is that of the last start not completed since, status comes from the last event that decides it, runtime is the last snapshot with the model and effort of later requests of the active turn, discovery and the request count likewise; each row is the last event that wrote it, settled if its turn completed later; `dropped` says exactly whether anything was lost |
| ModView.RefusedIff | internal/claude/bridge.go:420-433 | a row or block event is refused if and only if a row of its identity says something else or has another shape |
| ModView.StopQueuedIff | internal/claude/mod_controls.go:57-117 | in every run a stop is queued if and only if nothing is pending, the named turn started last and has not completed, nothing since made the status unknown, and native said it can be stopped |
| ModView.InputQueuedIff | internal/claude/mod_mutations.go:91-143 | in every run an input is queued, for the turn that is active then, if and only if nothing is pending, native said it takes input, the client id is new and every earlier input has its verdict |
| ModView.HandedIff | internal/claude/mod_controls.go:130-168 | in every run the pending command is handed out if and only if it was not before, its scope holds and the events so far leave it ready for the turn it was queued for |
| ModReceipts.Reachable | internal/claude/mod_mutations.go:68-151 | the receipt invariant holds over every run of one registration |
| ModReceipts.OneInputInDoubt | internal/claude/mod_mutations.go:91-143 | only the newest input may lack a verdict, no client id occurs twice, and each command is delivered at most once |
| ModReceipts.ObservedIsProved | internal/claude/bridge.go:312-324 | an observed receipt rests on an accepting result and on a native event of the same command and text in a batch above its `AfterSequence` |
| ModReceipts.ObservedIsFinal | internal/claude/mod_controls.go:170-208 | an observed input stays observed in every continuation while it is retained |
| ModReceipts.RejectedUntilTimeOut | internal/claude/mod_mutations.go:77-89 | a rejected receipt stays rejected while its input is kept, except for one step: its own sender, still holding the command, times out |
| ModReceipts.RejectedIsOverwritten | internal/claude/mod_mutations.go:77-89 | a run in which an input is rejected, its command is still pending, and the timeout makes the receipt unconfirmed |
| ModOrigins.ReceiptIs | internal/claude/bridge.go:312-324 | in every run each retained input has exactly the receipt that its verdict, the native events after its submission and its timeouts give, and names the last event that shows it |
| ModOrigins.ObservedIff | internal/claude/mod_controls.go:170-208 | in every run an input is observed if and only if the Mod accepted it and an event of a batch after its submission shows it, in whichever order |
| ModOrigins.CompletedIff | internal/claude/bridge.go:326-334 | in every run the pending command is marked completed if and only if a batch accepted since it was handed out ended its turn |
| ModOrigins.RetainedAreNewest | internal/claude/mod_mutations.go:91-143 | in every run the retained inputs are exactly the newest ones submitted, in order |
| ModSession.Session.PushLocked | internal/claude/bridge.go:226-337 | the method applies a batch to a working copy and publishes all of it or nothing, as specified |
| ModSession.ApplyEvent | internal/claude/bridge.go:254-311 | one event on the working copy, as specified |
| ModSession.WorkingCopy | internal/claude/bridge.go:244-311 | the event loop is the fold of the batch, or exactly the error of the first event that is refused |
| ModSession.MatchInputs | internal/claude/bridge.go:312-324 | the matching loops mark exactly the inputs the events observe |
| ModSession.Session.QueueMutation | internal/claude/mod_mutations.go:91-143 | the method admits exactly the specified commands and records the input |
| ModSession.Session.CommandResultLocked | internal/claude/mod_controls.go:170-208 | the method accepts exactly the specified results and moves the receipt |
| ModSession.Session.UnknownInput | internal/claude/mod_mutations.go:77-89 | the method answers observed exactly if the input is, and otherwise puts it in doubt |
| PageSplit.PartsRestoreText | internal/service/pages.go:305-347 | the parts of a message, end to end, are its UTF-16 text |
| PageSplit.PartShape | internal/service/pages.go:305-363 | parts are non-empty and bounded, offsets are contiguous, no cut falls inside a surrogate pair, and only the last part inherits the continuation flag |
| PageSplit.SplitIdempotent | internal/service/pages.go:305-347 | splitting again changes nothing |
| PageSplit.SplitTextParts | internal/service/pages.go:305-347 | the nested loops compute exactly the specified split |
| PageSplit.SplitText | internal/service/pages.go:312-344 | the inner loop computes exactly the parts of one message |
| PageIdentity.SplitIdsDistinct | internal/service/pages.go:322-325 | the split list has distinct ids if and only if the source ids are distinct and none imitates a generated part id |
| PageIdentity.ClashExists | internal/service/pages.go:322-325 | two messages with distinct ids whose parts share one |
| PageWalk.WalkPartitionsPage | internal/service/pages.go:70-205 | following `nextCursor` over an unchanging page ends; it succeeds if and only if every window fits and is named by a usable cursor, and then its pages, oldest last, are the whole split list, each message once and in order |
| PageWalk.FollowPartitions | internal/service/pages.go:159-200 | the same partition from any cursor of a walk that succeeds, with the last page handing on the native cursor |
| PageWalk.FollowSucceedsIff | internal/service/pages.go:159-249 | a walk succeeds if and only if the newest message of each window fits a page alone and each later window starts at a message whose id is non-empty, within 512 units and whose cursor is within 8192 |
| PageWalk.PageCursorRereads | internal/service/pages.go:196-200 | reading a page by its own `pageCursor` returns the same window and cursors if that cursor is one the pager takes back, and an invalid-cursor error if not |
| PageWalk.ReadAt | internal/service/pages.go:164-186 | a cursor that resolves reads the window ending there, and fails if and only if the newest message cannot fit a page alone |
| PageWalk.WindowIsLongest | internal/service/pages.go:159-188 | a window is the longest that makes a page: a start gives at most 128 messages whose bytes with the metadata are within 3 MiB if and only if it is not before the window's |
| PageWalk.PageIsLongestRun | internal/service/pages.go:159-188 | every page that is read, whatever the source answers, is the longest such run of the split list that ends where the cursor says |
| PageWalk.CursorsReplay | internal/service/pages.go:90-94 | both own cursors of a page lead back to the source's replay cursor, if it gave one, and otherwise to the cursor that was read |
| PageWalk.NextReadableIff | internal/service/pages.go:224-249 | the cursor a page hands out can be followed if and only if its anchor is non-empty and within 512 units, the cursor within 8192, and the next older message fits a page alone |
| PageWalk.UnreadableNextExists | internal/service/pages.go:322-325 | a page whose next cursor is refused: a long message with an id of 500 units, whose second part has one of 516 |
| PageWalk.ReadWindow | internal/service/pages.go:159-188 | the backward loop and the reversal produce exactly the window |
| PageWalk.SlicesReverse | internal/service/pages.go:446-450 | the array is reversed in place |
| LifetimeSafety.Reachable | internal/codex/taskexecutor.go:268-647 | in every interleaving of requests, notifications, retries, fences, keeper death and guardian steps the release invariant holds |
| LifetimeSafety.ExecutorReleasesIdleTask | internal/codex/taskexecutor.go:561-647 | when the executor releases, it admits nobody, no request of its own is open, no turn start is waiting, and a read made after the fence showed the owned task inactive |
| LifetimeSafety.GuardianReleasesIdleTask | internal/service/guardianwatch.go:96-179 | when the guardian releases, the keeper is dead, no turn start is waiting, and nothing runs or the bound task was read inactive |
| LifetimeProgress.IdleTaskIsReleased | internal/codex/taskexecutor.go:625-645 | from every reachable fenced executor whose task is idle a run releases on its next read, if native reports idle or notLoaded, or systemError of a task that ever had a turn |
| LifetimeProgress.WatchedTaskIsReleased | internal/service/guardianwatch.go:84-90 | from every reachable guardian that watches an idle task a run releases once the keeper is dead, if native reports idle or notLoaded, or systemError when the last it hears of the task is a completion |
| LifetimeRecord.RecordIsHeard | internal/codex/taskexecutor.go:424-507 | in every run `active`, the settled mark and the cached turn are what the executor last heard of its task |
| LifetimeRecord.FenceIff | internal/codex/taskexecutor.go:561-569 | in every run the fence can be taken if and only if no request is open and no turn was heard to start, or answered, that was not heard to end |
| LifetimeSafety.NothingRunsAtRelease | internal/codex/taskexecutor.go:609-647 | at release the executor's task does not run, on a cached terminal turn if its copy was quiet; whatever runs is a task owned besides, and without one nothing runs |
| LifetimeSafety.HeardExecThroughout | internal/codex/taskexecutor.go:458-507 | in every run the executor's connection tells which threads run, and a terminal turn in its record with what is still unread tells exactly whether its task runs |
| LifetimeLimits.CachedTurnProvesIff | internal/codex/taskexecutor.go:609-633 | no release that rests on a copy finds the task running, if and only if at the copy no start of it waited at native or was unread |
| LifetimeLimits.UnquietCopyReleases | internal/codex/taskexecutor.go:625-633 | from every reachable copy that is not quiet a run releases on the cached turn while the task runs |
| LifetimeSafety.PatientRunsNothing | internal/codex/taskexecutor.go:609-647 | with one thread/start at a time and no turn/start given up, nothing runs at release on any evidence |
| LifetimeSafety.PatientCopies | internal/codex/taskexecutor.go:424-507 | a run in which no turn/start is given up has only quiet copies |
| LifetimeSafety.PatientThroughout | internal/codex/taskexecutor.go:424-507 | while no turn/start is given up, every unserved start and unread reply belongs to a request that still waits for it |
| LifetimeSafety.NothingRunsAtGuardRelease | internal/service/guardianwatch.go:84-90 | the task the guardian read does not run at release, on a remembered completion if what was discarded with connections since it last heard of the task does not end in a start of it; whatever runs is a task the keeper owned besides, and without one nothing runs |
| LifetimeSafety.ConnectedGuardIsSafe | internal/service/guardianwatch.go:233-268 | a guardian that never reconnects while it remembers a completion releases only when its task does not run, and with one thread/start at a time only when nothing runs |
| LifetimeLimits.RememberedCompletionProvesIff | internal/service/guardianwatch.go:233-268 | no release decided on a completion remembered across a reconnect finds the task running, if and only if at the reconnect the items discarded since the task was last heard of did not end in a start of it |
| LifetimeLimits.LostStartReleases | internal/service/guardianwatch.go:233-268 | from every reachable reconnect that discards a start while a completion is remembered, a run releases while the task runs |
| LifetimeSafety.GuardTaskRuns | internal/service/guardianwatch.go:84-90 | at release the task the guardian read runs if and only if it decided on a remembered completion, the items discarded since end in a start, and no completion is unread |
| LifetimeSafety.OneTaskAtGuardRelease | internal/service/guardianwatch.go:84-90 | with one thread/start at a time nothing at all runs then |
| LifetimeSafety.HeardThroughout | internal/service/guardianwatch.go:28-49 | in every run a remembered completion, what was discarded since and what is unread tell exactly whether the bound task runs, and no start is unread behind the answer to a read or once the guardian decided on a completion |
| LifetimeSafety.OwnsOneThroughout | internal/codex/taskexecutor.go:370-405 | with one thread/start past its check at a time the executor only ever owns one task |
| LifetimeSafety.AdmittedStartsNothing | internal/codex/taskexecutor.go:371-383 | an executor that resumed an admitted task never creates another |
| LifetimeLimits.CachedTerminalMayBeOld | internal/codex/taskexecutor.go:629-631 | a run in which systemError with a cached terminal turn releases while a newer turn runs |
| LifetimeLimits.LostConnectionMayHideATurn | internal/service/guardianwatch.go:84-90 | a run in which a start lost with a connection runs while the guardian releases on the completion before it |
| LifetimeLimits.OverlappingStartsLoseATask | internal/codex/taskexecutor.go:371-388 | a run in which two overlapping thread/start requests both pass the check and the forgotten task runs at release |
| LifetimeExecutor.TaskExecutor.Admit | internal/codex/taskexecutor.go:281-287 | admission is refused exactly when retiring or full |
| LifetimeExecutor.TaskExecutor.CheckStart | internal/codex/taskexecutor.go:371-381 | thread/start is refused exactly when a task is owned or one is opening |
| LifetimeExecutor.TaskExecutor.SetOpening | internal/codex/taskexecutor.go:386-388 | the second, separate critical section of thread/start |
| LifetimeExecutor.TaskExecutor.Own | internal/codex/taskexecutor.go:398-405 | an answered thread/start sets the owned task, in a critical section of its own |
| LifetimeExecutor.TaskExecutor.Reopen | internal/codex/taskexecutor.go:389-393 | a thread/start that returns, answered or not, opens the next one |
| LifetimeExecutor.TaskExecutor.TurnStarted | internal/codex/taskexecutor.go:424-431 | an answered turn/start is cached unless a notification already cached the same turn |
| LifetimeExecutor.TaskExecutor.MarkActive | internal/codex/taskexecutor.go:432-440 | the executor becomes active in a second section, never over a terminal notification |
| LifetimeExecutor.TaskExecutor.Settle | internal/codex/taskexecutor.go:300-304 | a request, answered, refused, failed or timed out, leaves the count of admitted ones |
| LifetimeExecutor.TaskExecutor.HandleNotification | internal/codex/taskexecutor.go:458-507 | a start, a completion or a close of the thread changes the fields exactly as the step machine says, and only for the owned task |
| LifetimeExecutor.TaskExecutor.Fence | internal/codex/taskexecutor.go:561-569 | the fence is taken exactly when nothing admitted is outstanding and no turn is known to run |
| LifetimeExecutor.TaskExecutor.Judge | internal/codex/taskexecutor.go:625-645 | the verdict on a thread/read answer is the step machine's |
| LifetimeExecutor.TaskExecutor.RetryRetirement | internal/codex/taskexecutor.go:588-606 | admission opens again after a failed check |
| LifetimeExecutor.GuardianWatch.Notification | internal/service/guardianwatch.go:28-49 | the guardian remembers the last completion of its bound task only |
| LifetimeExecutor.GuardianWatch.Bind | internal/service/guardianwatch.go:57-66 | binding a task forgets any earlier completion |
| LifetimeExecutor.GuardianWatch.Idle | internal/service/guardianwatch.go:84-90 | the guardian decides exactly on idle, notLoaded, or systemError after a completion |
| Utf8.UnitsOfWtf8 | internal/nativejson/string.go:89-104 | WTF-8 text reads back as the same UTF-16 units, lone surrogates included |
| Utf8.Wtf8Injective | internal/nativejson/string.go:96-104 | two unit sequences with the same bytes are the same |
| Utf8.DecodeEncode | internal/nativejson/string.go:62-66 | an encoded point is decoded as itself whatever follows it |
| NativeText.MarshalText | internal/nativejson/string.go:46-87 | the byte loop prints the UTF-16 units of any byte string, well formed or not |
| NativeText.MarshalPiece | internal/nativejson/string.go:51-83 | one turn of the printing loop: a pair, a lone surrogate or a rune, with its escapes |
| NativeText.BodyReads | internal/nativejson/string.go:106-243 | reading a printed text emits exactly its units, whatever follows it |
| NativeText.TextRoundTrip | internal/nativejson/string.go:106-243 | every unit sequence comes back from its printed form, and is refused exactly when the memory bound is passed |
| NativeMarkup.PrintClean | internal/nativejson/object.go:106-124 | whatever texts and keys a value holds, its print by `json.Marshal` has no control byte, no `<`, `>` or `&`, and no script line separator |
| NativeBuilder.WriteUnit | internal/nativejson/string.go:121-144 | the builder with a held-back high surrogate is the WTF-8 form of the units so far |
| NativeBuilder.FinishText | internal/nativejson/string.go:227-242 | the finished text is the WTF-8 form, and is marked as surrogate text exactly if some surrogate has no partner |
| NativeKeys.KeysOrder | internal/nativejson/object.go:61-76 | every key once; array indices first and strictly ascending; the rest in order of insertion |
| NativeKeys.KeysIdempotent | internal/nativejson/object.go:61-76 | keys already in enumeration order do not move |
| NativeKeys.IndexInjective | internal/nativejson/object.go:56-59 | two keys are never the same array index, so sorting is never ambiguous |
| NativeKeys.PartitionKeys | internal/nativejson/object.go:62-69 | the loop separates index keys from the others, keeping their order |
| NativeRoundTrip.ValueReads | internal/nativejson/projection.go:67-199 | a printed value whose numbers are float64s as printed is read back in any context, at its exact charge, if and only if it is within the depth, key, number and memory bounds |
| NativeCanon.PrintCanon | internal/nativejson/object.go:106-127 | printing an object is writing it in enumeration order at every level |
| NativeCanon.CanonKeepsFields | internal/nativejson/object.go:61-76 | enumeration order loses nothing: the same names hold the same values |
| NativeCanon.CanonOrdered | internal/nativejson/object.go:61-76 | in the canonical form every object is in enumeration order |
| NativeCanon.CanonCost | internal/nativejson/object.go:61-76 | enumeration order charges no more memory |
| NativeSound.ValueGot | internal/nativejson/projection.go:67-230 | whatever the decoder returns for any input is well formed with distinct keys, its numbers are float64s as printed, it is within the depth, key and number bounds, and it costs no more than was charged unless a number is printed longer than it was written |
| NativeSound.TextGot | internal/nativejson/string.go:106-243 | any text read is charged two bytes a unit and is within its limit |
| NativeLaws.ReadsPrinted | internal/nativejson/projection.go:35-45 | reading a printed document gives its canonical value without the text at dropped paths, or a refusal exactly when a bound is passed |
| NativeLaws.RoundTrip | internal/nativejson/projection.go:250-287 | the same value comes back if and only if no non-empty string sits at a path the policy drops |
| NativeLaws.ReadIsStable | internal/nativejson/projection.go:35-45 | for every document that is read, its print is read again if and only if its canonical form is within the memory bound, as that form without the dropped text, and from then on printing and reading change nothing |
| NativeLaws.ReadComesBack | internal/nativejson/projection.go:35-53 | if no number is printed longer than it may be written, every document that is read comes back after printing, at no more than its first charge |
| NativeAccepts.CharReads | internal/nativejson/string.go:106-243 | every form in which section 7 of RFC 8259 lets a character be written is read as its UTF-16 units, whatever follows: raw UTF-8, the eight short escapes, and four hex digits of either case by their value |
| NativeAccepts.SpelledIsRead | internal/nativejson/projection.go:67-230 | every document that spells a value, in any layout and any escapes, is read as exactly that value at its exact charge, or refused at a bound |
| NativeRejects.AcceptedIsSpelled | internal/nativejson/projection.go:67-230 | every document that is read spells a value |
| NativeRejects.ReadsExactly | internal/nativejson/projection.go:35-45 | a document is read as a value and a charge if and only if it spells that value within every bound, at that charge |
| NativeLimits.PrintOutgrowsMemory | internal/nativejson/projection.go:226-229 | a million times `1e20` is read within memory and its print is refused |
| NativeLaws.DroppedText | internal/nativejson/projection.go:265-267 | `{"items":[{"restoreMessage":"x"}]}` is within every bound and does not come back |
| NativeValue.StringPolicy | internal/nativejson/projection.go:250-287 | the loop computes the limit of a path, which is none or zero |
| NativePaths.DroppedPaths | internal/nativejson/projection.go:250-287 | a string is dropped if and only if its path, from its first `items` index on, starts with one of four patterns: `restoreMessage`, `raw_content`, `result/_meta`, `result/content/*/data` |
| NativePaths.PatchTrimsAsPlace | internal/nativejson/projection.go:137-142 | below a state patch a string is dropped exactly where it would be at the place that the patch's `path` names |
| NativePaths.RolloutItemTrims | internal/nativejson/projection.go:132-136 | anywhere else a string is dropped by its own path, except that a rollout's payload item counts as a list item |
| NativeDecoder.Decoder.ReadString | internal/nativejson/string.go:106-243 | the string loop follows the specification while keeping only bytes, a held surrogate and a count |
| NativeDecoder.Decoder.EmitUnit | internal/nativejson/string.go:110-144 | one unit: refused or dropped over the limit, else charged and written |
| NativeDecoder.Decoder.EmitPiece | internal/nativejson/string.go:196-224 | one or two units in order |
| NativeDecoder.Decoder.Next | internal/nativejson/projection.go:55-65 | the next byte that is not white space |
| NativeDecoder.Decoder.Literal | internal/nativejson/projection.go:87-101 | exactly the bytes of true, false or null |
| NativeDecoder.Decoder.ReadDigits | internal/nativejson/projection.go:201-230 | the number loop takes the longest run of number bytes, up to 1024, and only valid numbers that a float64 can hold |
| NativeDecoder.Decoder.ReadAny | internal/nativejson/projection.go:67-108 | the recursive decoder follows the specification and its charge |
| NativeDecoder.Decoder.ReadObject | internal/nativejson/projection.go:110-168 | the object loop follows the specification |
| NativeDecoder.Decoder.ReadMember | internal/nativejson/projection.go:120-151 | one member: key, separator, value and the charge for a new key |
| NativeDecoder.Decoder.ReadArray | internal/nativejson/projection.go:170-199 | the array loop follows the specification |
| NativeDecoder.Decoder.ReadAll | internal/nativejson/projection.go:35-45 | one document and nothing after it |
| ActivityBuffer.TaskActivity.Put | internal/codex/taskactivity.go:207-234 | the ids in `order` are those of `entries`, the character total is exact and both bounds hold; a message too large alone clears the buffer |
| ActivityBuffer.TaskActivity.Insert | internal/codex/taskactivity.go:217-227 | a known id is replaced in place, a new one goes last, and the total stays exact |
| ActivityBuffer.TaskActivity.DropOldest | internal/codex/taskactivity.go:229-232 | the oldest entry leaves order, map and total together |
| ActivityBuffer.TaskActivity.Clear | internal/codex/taskactivity.go:237-241 | nothing is kept |
| ActivityBuffer.TaskActivity.Observe | internal/codex/taskactivity.go:99-111 | only its own start opens a later turn, and an overflow closes this one |
| ActivityBuffer.NewMessageSurvives | internal/codex/taskactivity.go:228-233 | an accepted new message survives its own eviction loop, unless no item may be kept |
| Eviction.LongestSuffix | internal/codex/taskactivity.go:228-233 | the eviction loop keeps the longest run of newest elements within the bounds |
| ActivityMerge.MergedDistinct | internal/codex/taskactivity.go:247-310 | the merged page never shows an id twice |
| ActivityMerge.PlanHasPage | internal/codex/taskactivity.go:289-298 | the whole persisted page is in the result, in its order |
| ActivityMerge.PlanHasLive | internal/codex/taskactivity.go:275-288 | a missing live block is shown if and only if it is incomplete, after the last shared anchor, or of a turn with nothing persisted |
| ActivityMerge.PlanKeepsLiveOrder | internal/codex/taskactivity.go:275-298 | if page and buffer agree on the order of what they share, live order is kept among everything the buffer knows |
| ActivityMerge.PlanDistinct | internal/codex/taskactivity.go:275-298 | for a page whose ids are distinct no block is placed twice |
| ActivityMerge.MergedIff | internal/codex/taskactivity.go:247-298 | the merged page shows exactly the persisted messages without a live text to prefer, and exactly the live messages that are unfinished, or whose turn has nothing persisted, or that come after everything shared |
| ActivityMerge.PageTextAt | internal/codex/taskactivity.go:289-298 | at the place of a page message stands its live text if that is unfinished and persisted text is not preferred, and the persisted one otherwise |
| ActivityMerging.Merge | internal/codex/taskactivity.go:247-310 | the loops over positions, anchors, placed blocks and the page compute exactly the specified merge |
| ActivityMerging.Positions | internal/codex/taskactivity.go:254-257 | the map gives each live id its index |
| ActivityMerging.Scan | internal/codex/taskactivity.go:258-269 | anchor, present ids and whether the turn is persisted |
| ActivityMerging.PlaceBlocks | internal/codex/taskactivity.go:273-288 | the blocks before each shared one, and those after the last |
| ActivityMerging.Assemble | internal/codex/taskactivity.go:289-298 | the page with its blocks, then the rest |
| ActivityMerging.Filter | internal/codex/taskactivity.go:299-309 | without the activity channel exactly the activity messages are gone |
| WebSocketFrame.FrameRoundTrip | internal/codex/websocket.go:288-391 | a frame one role writes is read by the other as the same flag, opcode and payload in all three length forms, if and only if it is legal and within the bound |
| WebSocketFrame.HeadForm | internal/codex/websocket.go:348-375 | the octets before a payload are those of section 5.2 of RFC 6455: final bit, zero reserved bits, opcode, mask bit, the shortest length form in network byte order, and the key |
| WebSocketFrame.BodyForm | internal/codex/websocket.go:376-391 | the payload comes last, octet i combined with octet i modulo 4 of the key if the frame is masked (section 5.3 of RFC 6455) |
| WebSocketFrame.WriteFrame | internal/codex/websocket.go:348-391 | the header built up by the method and the masked body are the specified bytes |
| WebSocketFrame.WriteHead | internal/codex/websocket.go:354-368 | flag, opcode, mask bit and the shortest length form |
| WebSocketFrame.WriteMasked | internal/codex/websocket.go:376-379 | the masked copy |
| WebSocketFrame.Unmask | internal/codex/websocket.go:340-344 | the payload is unmasked in place |
| WebSocketFrame.MaskedTwice | internal/codex/websocket.go:340-344 | masking twice with one key restores the payload |
| WebSocketMessages.MessageReads | internal/codex/websocket.go:224-264 | for every legal run of fragments with pings and pongs between and every bound, a message is its fragments joined and each ping is answered in turn; refused are exactly the messages that are over the bound or carry a ping or pong over it |
| WebSocketMessages.SmallReads | internal/codex/websocket_discard.go:8-62 | exactly the messages within the small bound are kept whole; a larger one is consumed and the next begins |
| WebSocketMessages.FirstSmallMessage | internal/codex/websocket_discard.go:8-62 | the result is exactly the first message of the stream within the bound, with every ping up to there answered |
| WebSocketMessages.WebSocket.ReadFrameBounded | internal/codex/websocket.go:288-346 | the method reads header, key and body step by step and gives the specified frame |
| WebSocketMessages.WebSocket.ReadHeader | internal/codex/websocket.go:289-317 | the header is read in its two or three parts |
| WebSocketMessages.WebSocket.ReadBody | internal/codex/websocket.go:324-339 | the key, if the peer masks, and the body as sent |
| WebSocketMessages.WebSocket.ReadWhole | internal/codex/websocket.go:224-264 | the reassembly loop follows the specification |
| WebSocketMessages.WebSocket.ReadSmallMessage | internal/codex/websocket_discard.go:8-62 | the discarding loops follow the specification |
| Patches.ApplyRefines | internal/codex/desktoppatch.go:87-178 | the budgeted recursion computes exactly the meaning of a patch, and is refused for its budget exactly when the containers it copies would pass the bound |
| Patches.Charge | internal/codex/desktoppatch.go:39-45 | the division test refuses exactly the charges that would pass the bound |
| PatchLaws.InverseRestores | internal/codex/desktoppatch.go:87-178 | at any depth the inverse patch is accepted and gives back the identical value, key order included, if and only if it does not re-add a member that was not last |
| PatchCanon.InverseRestoresCanon | internal/nativejson/object.go:61-104 | at any depth the inverse gives back a value with the same canonical form, so the same enumeration and print, if and only if it does not re-add a member that is no array index and was followed by another such member |
| PatchCanon.KeysMoved | internal/nativejson/object.go:61-76 | storing a key last leaves the enumeration as it was if and only if the key is an array index or no other key that is no index follows it |
| PatchCanon.OnlyIndexMovesFreely | internal/nativejson/object.go:56-76 | the key "a" of `{"a":null,"b":null}` cannot move last unseen, the key "1" of `{"1":null,"b":null}` can |
| PatchLaws.PutWithout | internal/nativejson/object.go:80-104 | removing a key and adding it again restores the order if and only if it was last |
| PatchLaws.ReaddedKeyMoves | internal/nativejson/object.go:78-104 | a concrete object whose key order does not come back |
| PatchLaws.OffPathUnchanged | internal/codex/desktoppatch.go:87-178 | every place off the path holds what it held, an array element possibly one slot over |
| PatchLaws.TargetHoldsValue | internal/codex/desktoppatch.go:87-178 | adding or replacing puts exactly the given value at the named place at any depth; removing leaves nothing under a removed name |
| PatchBatch.ApplyDesktopPatches | internal/codex/desktoppatch.go:50-85 | a batch is published exactly when every patch means something, the whole batch fits one budget and the task identity is unchanged; the charge never passes the bound |
| PayloadCache.ConversationPayloads.Store | internal/service/payloads.go:78-114 | whether or not the pager hands in the revision, list and map stay in one-to-one correspondence with an exact byte sum within the bound, and every entry has its id and exact revision |
| PayloadCache.CachePage | internal/service/payloads.go:144-154 | the loop over a page caches every body in turn and gives each node its scoped revision |
| PayloadCache.CacheTopology | internal/service/payloads.go:165-168 | the loop without nodes leaves the same cache and gives the same revisions |
| PayloadCache.ConversationPayloads.Take | internal/service/payloads.go:117-128 | a hit has the requested id and revision and becomes the newest entry |
| PayloadCache.ConversationPayloads.Unlink | internal/service/payloads.go:94-98 | a key leaves list, map and byte count together |
| PayloadCache.ConversationPayloads.PushBack | internal/service/payloads.go:100-101 | a new entry joins all three |
| PayloadCache.ConversationPayloads.DropFront | internal/service/payloads.go:103-110 | the oldest entry leaves all three |
| PayloadCache.NewBodySurvives | internal/service/payloads.go:99-112 | a body that is cached survives its own eviction loop |
| PayloadLoad.LoadIsExact | internal/service/payloads.go:181-245 | with exact revisions every returned body has the revision asked for, in request order, from cache or re-read |
| PayloadLoad.CacheIsTransparent | internal/service/payloads.go:198-236 | a strict load that succeeds without the cache gives the same answer with any cache |
| PayloadLoad.WalkFinds | internal/service/payloads.go:204-233 | a history that still holds every requested revision is read until all are found |
| PayloadLoad.LoadSucceeds | internal/service/payloads.go:181-245 | a strict load of revisions the history still holds is answered, unless the answer is over its size bound |
| PayloadLoad.Load | internal/service/payloads.go:181-245 | whatever other callers do to the cache between its critical sections, the method answers as specified from hits of the requested revisions, and keeps the cache valid; with none, the hits are exactly the cached requests |
| PayloadLoad.TakeHits | internal/service/payloads.go:198-203 | every hit is of its requested revision whatever other callers do; undisturbed, exactly the cached requests are hits |
| PayloadLoad.CollectPage | internal/service/payloads.go:215-228 | every body of a page is cached, and the wanted ones are kept or refused as specified |
| Records.ScanBackward | internal/history/records.go:17-57 | the two nested loops, with a buffer of any size, yield what reading the same range byte by byte yields |
| Records.YieldsExactlyTheRecords | internal/history/records.go:17-57 | exactly the complete non-empty records of the range are yielded, never an unfinished tail |
| Records.ScanDescends | internal/history/records.go:41-50 | records are yielded newest first and never overlap |
| Records.RestartGivesRemainder | internal/history/rollout.go:127-131 | restarting from a yielded record gives exactly the remainder |
| Records.PagesCoverRecords | internal/history/rollout.go:127-179 | following the cursors visits every record once, newest first, whatever decides where a page ends |
| Records.LowerBoundHidesRecord | internal/history/records.go:53-55 | a complete record starting exactly at a positive lower bound is not yielded |
| Transcript.PageHoldsLines | internal/claude/transcript_history.go:80-150 | a page ends strictly before it began, at a line boundary, and holds exactly the lines between |
| Transcript.PagesCoverLines | internal/claude/transcript_history.go:80-150 | following the cursors shows each complete line once, newest first, and never the unfinished last line |
| Transcript.LinesBackExact | internal/claude/transcript_history.go:114-139 | the lines listed are every complete line and nothing else |
| Transcript.WalkSucceedsIff | internal/claude/transcript_history.go:87-97 | a walk succeeds if and only if no line in front of it is too large for a page, or as long as the window and not wholly in the first one |
| Transcript.WindowLongLine | internal/claude/transcript_history.go:87-97 | for every window a file whose second line is as long as the window and stops the walk |
| Transcript.SnapshotReadableIff | internal/claude/transcript_history.go:80-97 | the same for the whole snapshot with its unfinished tail |
| Transcript.ReadTranscript | internal/claude/transcript_history.go:80-139 | the window and line loops compute exactly the specified page |
| Transcript.FillWindow | internal/claude/transcript_history.go:117-139 | the line loop takes lines from the end until the page is full |
| Transcript.AfterLastNewline | internal/claude/transcript_history.go:122 | the start of the last line in a part of the window |
| Transcript.AfterFirstNewline | internal/claude/transcript_history.go:89 | the end of the first line of the window |
| NativeRows.RowBuffer.PutNativeRow | internal/claude/native_rows.go:19-52 | the row list changes as specified, with `rowBytes` the exact sum within both bounds and ids distinct |
| NativeRows.RowBuffer.Trim | internal/claude/native_rows.go:47-50 | the eviction loop keeps the longest run of newest rows within both bounds |
| NativeRows.PutRows | internal/claude/native_rows.go:19-52 | every row after a put is the new one or an old one of another id, and an oversized row leaves nothing under its id |
| NativeStream.Reachable | internal/claude/native_stream.go:51-128 | over every run without an id clash each unfinished block is right: its row, if visible, is the one its events call for |
| NativeStream.VisibleTextIsWhole | internal/claude/native_stream.go:51-128 | the visible row of an unfinished block holds the text its events spoke: that of its first start and of every delta of its kind after it, up to its end, read from the list of events alone |
| NativeStream.RowsFollow | internal/claude/native_stream.go:51-128 | the rows of a run are those that its events call for, one put after the other |
| NativeStream.RowStaysIff | internal/claude/native_rows.go:19-52 | a block's row is there after an event if and only if nothing was written and it was there before, or what was written is within its limit and leaves it within the bounds |
| NativeStream.NoSuffixReappears | internal/claude/native_stream.go:98-126 | a row that was dropped for its size or pushed out by newer ones does not come back, over any further events of the message, before the block is completed |
| NativeStream.ClashIsRightOnlyIfEqual | internal/claude/native_stream.go:159-211 | a row written under an unfinished block's id leaves it right if and only if that row does not stay, or is the block's own row while that was not dropped |
| NativeStream.ClashOverwrites | internal/claude/native_stream.go:159-211 | a run in which a tool row under the id of an open block hides what the block said |
| NativeStream.NativeSession.StreamEvent | internal/claude/native_stream.go:51-128 | block flags, stream and rows change as the step function says |
| NativeStream.NativeSession.FinishBlock | internal/claude/native_stream.go:194-208 | a completed block replaces the row in place |
| EventText.TaskEventDecoder.Decode | internal/service/taskeventstream.go:109-130 | output and held bytes are the input so far, at most three bytes are held, and the output is well formed or refused |
| EventText.HoldIsUnfinished | internal/service/taskeventstream.go:115-125 | on text the backward scan finds exactly the rune the forward reading left unfinished |
| EventText.DecodeText | internal/service/taskeventstream.go:109-130 | a further chunk of a text prefix loses nothing and is never refused |
| EventLines.FeedSplit | internal/service/taskeventstream.go:50-82 | feeding text in two pieces is feeding it at once |
| EventLines.EventRoundTrip | internal/service/taskeventstream.go:57-79 | an event is delivered as its text without the carriage returns that end its lines and without empty first lines, unless nothing is left or its receiver refuses it; it comes back if and only if it starts with no newline and no line of it ends in a carriage return |
| EventLines.ReturnIsDropped | internal/service/taskeventstream.go:54 | `a` with a carriage return after it is delivered as `a` |
| EventLines.EventsRoundTrip | internal/service/taskeventstream.go:50-82 | a stream of events that come back is delivered in order, nothing lost and nothing added |
| EventLines.NamedEvent | internal/service/taskeventstream.go:54-80 | an event named `error`, with any blanks around the name, ends the stream and delivers nothing; any other name is as good as none |
| EventLines.OtherFeed | internal/service/taskeventstream.go:54-80 | a line that is neither a data nor a name field changes nothing |
| EventLines.ChunksDoNotMatter | internal/service/taskeventstream.go:28-92 | delivered values and outcome are those of the undivided stream for every chunking that is not refused for size |
| EventLines.SameForAnyCut | internal/service/taskeventstream.go:28-92 | two ways of cutting the same text that are not refused for size deliver the same values and end the same |
| EventLines.RefusedIff | internal/service/taskeventstream.go:46-49 | a cut is refused for size if and only if, at some chunk reached while still reading, the text held back and the whole characters of that chunk together pass the limit |
| EventLines.NoCutRefusedIff | internal/service/taskeventstream.go:46-49 | no cut into pieces of at most a given size is refused if and only if no stretch of the stream of that size overfills the limit |
| EventLines.CutDecidesNearLimit | internal/service/taskeventstream.go:46-49 | near the limit the same stream is refused or not depending on the cut |
| EventLines.ReadTaskEvents | internal/service/taskeventstream.go:28-92 | the chunk and line loops compute exactly the specified deliveries and outcome, also when the connection fails in the middle |
| EventLines.DrainLines | internal/service/taskeventstream.go:50-82 | the line loop drains exactly the complete lines |

## Left out

- HTTP routing, headers, deadlines, uploads, process launch, named pipes, access checks and SQLite readers: foreign calls and one-branch checks.
- Time: a deadline or a timer is a step that may happen at any moment.
- SHA-256, HMAC and base64 are taken as injective; random ids and masking keys are parameters.
- RPC packets are byte sequences: JSON encoding of a request, the method and the error codes of a reply would only add easy members.
- Mod bridge: title, transcript path and rename fields, which other code also changes (`internal/claude/desktop_metadata.go:115`, `internal/claude/native_title.go:48`, `internal/claude/transcript_discovery.go:34`), and the settings change receipt; client ids are distinct among the retained inputs, at most 128 of them.
- Conversation pager: group ids, runtime flags, excluded turns and layers, which do not move a cursor; `presentationMessage` and byte sizes are parameters.
- Native lifetime: native serves one inbox in arrival order and reports idle or notLoaded only for a thread with no running turn; thread/resume, steering, archive requests and client notifications are not modelled.
- Native JSON numbers are float64s known by their printed text: which float64 a text denotes, and how it is printed, is a parameter, of which only is used that a printed number is short and denotes itself.
- NativeLaws.RoundTrip: objects are ordered objects; plain Go maps, whose order is not defined, are not modelled.
- Patches: coercing a value to an array length and a path element to its name is a parameter of the patch.
- Activity buffer: projecting native items to messages and joining summary paragraphs; a message carries its serialized size.
- ActivityMerge.PlanKeepsLiveOrder: is about order and not about text: a delta that arrives after its entry was evicted starts a new entry without what came before.
- WebSocket: handshake, close reasons and write failures; a reply is the frame handed to writeFrame.
- Payload cache: linked-list nodes are their values, and pages a load reads are one answer per cursor.
- Transcript: tool indexing, cursor signatures and row projection; whether a line is oversized or still fits a page is a parameter, the same on every page, while the program also weighs the tool rows indexed from that page's window.
- Record scan: a file that shrinks during the read.
- Streamed rows: tool blocks, tool results and the end of a turn; they appear only as writes of rows under other ids.
- Event stream: only ASCII white space is trimmed from an event name; decoding the JSON and the receiver's answer are one parameter.
