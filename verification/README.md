# A verified model of webhook execution

The service runs commands when web hooks are triggered, locally or over SSH, and records
each run. A hook may name another hook to run after its success. This project models
the parts of the service whose correctness spans several functions, and proves what they
promise:

- **The execution and handoff protocol.** `HookGraph` is the graph of success targets and
  its validation; `Executions` the executions table, one function per SQL statement or
  transaction, with the invariant that all of them keep; `Retention` the cleanup with its
  recursive query. `Handlers` holds the same operations as the code writes them: classes for
  the runner, the cancel registry and the two tables, with methods that update them in
  place, each proved equal to the function that the proofs use. `Protocol` puts it all
  together as a state machine. A step is one SQL statement, one transaction, one mutex section,
  or an act of the environment: requests, hook edits, cancels, retries with any generation,
  cleanup with any cutoff, statements that fail, panics, a crash followed by a sweep that
  may itself fail. `ProtocolThreads`, `ProtocolRunner` and `ProtocolCancels` prove the invariant;
  `ProtocolTheorems`, `ProtocolChains` and `ProtocolProgress` draw the conclusions;
  `ProtocolRetries` and `ProtocolAnswers` are about what the answer to a retry means,
  `ProtocolHandoffs` about results that stay and handoffs that are not forgotten.
- **The output pipeline.** `Utf8` is the grammar of section 4 of RFC 3629; `OutputCapture`
  the tail buffer and the capture that reassembles cut runes; `Executor` a whole run, from
  reads to report. `LogSinks` is the two logs that roll off their head, `TestRuns` the registry of test
  runs. `LogPolling` is the protocol between a growing log and a client following it,
  `LogPollingTheorems` what it guarantees, `LogStreamView` its two ends as code.
- **Two smaller parts.** `ShellCommand` is the printer of remote command lines against a reader that
  follows sections 2.2.1, 2.2.2 and 2.3 of the Shell Command Language of POSIX.1-2017;
  `RateLimiter` is the lazily swept fixed-window limiter.

Times are integers; the protocol assumes that they do not decrease, the rate limiter does
not. Fields that comments call history record the
past for the proofs; no step depends on them.

Some results differ from what comments in the code or intuition suggest:

- A retry answered with 202 and an execution id need not have started that execution. The row is
  read once more after the dispatch, and another request may have claimed the next generation
  in between. The id is the request's own successor exactly if no later claim was granted.
- The bound on the rate limiter is twice the limit *less one*, and it is reached: the request
  that opened the earlier window lies outside any stretch that reaches into the later one.
- Sweeping can be told from never sweeping when requests arrive out of order, exactly if one comes
  before the end of a window that has been swept.
- The gap flag of a log view reports the chunk past the cursor as lost. The pages of a test run are
  read at one moment, and the flag is exact. The log endpoint of an execution makes its answer of
  separate reads: a raised flag is false exactly if the answer itself starts with that chunk,
  which the view does not check. A hole stays unreported only if the statement for the oldest
  number of a delivered answer fails, which the endpoint does not report.
- A view of a finished log ends with everything received unless the last statement behind its
  last answer fails, which the endpoint does not report either; then exactly the backlog past
  one page is lost from view.
- The limit of three failures in a row does not bound a view whose callback keeps failing: each
  successful fetch resets the count. Polling ends within a bound as soon as callback failures do.

## Model

| member | source | states |
|---|---|---|
| HookGraph.ValidateSuccessTarget | internal/handlers/success_chain.go:145-159 | The walk answers the same as its recursive definition on any graph, malformed ones included, and always ends; on a well-formed graph it accepts exactly the edits whose result is well formed. |
| HookGraph.AcceptsExactlyWellFormedEdits | internal/handlers/success_chain.go:143-159 | Accepted if and only if the edited graph is acyclic and closed, for a new hook and an existing one. |
| HookGraph.SuccessorIsNotOnWalk | internal/handlers/success_chain.go:105-109 | In an acyclic graph the configured successor of the last hook of a walk is not on the walk. |
| HookGraph.HookTable.Create | internal/handlers/hook.go:122-150 | Succeeds exactly when no statement fails, the id is new and the edited graph is well formed; otherwise the table is unchanged; well-formedness is kept. |
| HookGraph.HookTable.Update | internal/handlers/hook.go:173-206 | The same for an existing id. |
| HookGraph.HookTable.Delete | internal/handlers/hook.go:210-242 | Succeeds exactly when the hook exists and no hook points at it, which on a well-formed graph is exactly when the rest is well formed. |
| HookGraph.DeletableIffUnreferenced | internal/handlers/hook.go:218-226 | Deleting keeps the graph well formed if and only if the hook is unreferenced. |
| HookGraph.EditsKeepWellFormed | internal/handlers/hook.go:122-242 | Any sequence of creates, updates and deletes keeps the graph acyclic and closed. |
| Handlers.Database.FinishHookExecution | internal/handlers/success_chain.go:61-69 | A stored result on an active row is the status passed, with its finish time, and a pending handoff in generation 1 exactly for a success with a target, no handoff in generation 0 otherwise; nothing else changes, and nothing at all on a row that is not active. |
| Handlers.Database.AlreadyVisited | internal/handlers/success_chain.go:105-109 | The loop over the chain path finds the target if and only if it is on the path. |
| Handlers.Database.ReadPlan | internal/handlers/success_chain.go:86-109 | Nothing to do exactly if the row is missing, not a success or not pending; a launch of its target exactly if that exists and is not on the path; a missing hook is refused. |
| Handlers.Database.WriteSuccessor | internal/handlers/success_chain.go:120-127 | The two writes of the dispatch: a queued child of the target hook with the extended path and the target's own target, and the reference in the parent; every other row stays. |
| Handlers.Database.DispatchPendingSuccess | internal/handlers/success_chain.go:80-141 | Nothing to do exactly if the row was read and is missing, not a success or not pending. Launches exactly if no statement fails, the row is a pending success, its target exists and is not on its path, is not in flight and capacity is left; otherwise tables and runner are as before, the admission taken inside included. |
| Handlers.Database.LaunchSuccessor | internal/handlers/success_chain.go:110-130 | Admission and writes are all or nothing: a failing statement gives the admission back and leaves tables and runner as they were. |
| Handlers.Database.DispatchSuccess | internal/handlers/success_chain.go:71-78 | The same with its error: a dispatch error leaves a failed handoff in the pending row, or nothing if that statement fails too; the runner is as before. |
| Handlers.Database.ClaimSuccessRetry | internal/handlers/success_chain.go:196-234 | Granted exactly if every statement succeeds and the row is a success with a target, of the generation asked for, whose handoff failed, was interrupted, or went to a row that is failed, canceled, interrupted or timed out; 404, 409 and 500 exactly as the code has them, 409 also when the child's status cannot be read; a grant makes the row pending in the next generation and only a grant changes anything. |
| Handlers.Database.AnswerToRetry | internal/handlers/success_chain.go:183-193 | The closing read answers 202 exactly for a row that is there and dispatched, with the id the row names; 500 exactly when it fails or the row is gone; 409 otherwise. |
| Handlers.Database.LogRefusal | internal/handlers/webhook.go:201-206 | A refused trigger leaves exactly one new row, failed and finished at once, outside any chain. |
| Handlers.Database.SweepInterrupted | internal/handlers/execution.go:208-232 | Row by row: what was running or queued is interrupted and finished now, every other status and finish time stays; a pending handoff is interrupted, every other stays; no other field changes; the count is the number of active rows; a failure changes nothing. |
| Handlers.Database.RetainedIds | internal/handlers/execution.go:297-301 | The rounds of the recursive query end, on cyclic data too, with exactly the ids that are needed. |
| Handlers.Database.CleanupOldExecutions | internal/handlers/execution.go:289-318 | A row goes exactly if neither it nor a descendant is unfinished, recent or pending: those three kinds stay, and whatever else stays has a child that stays; a log chunk goes exactly with its row; nothing else changes, nothing at all if the transaction fails, and the count is the number of rows gone. |
| Executions.InsertRootKeepsTable | internal/handlers/success_chain.go:50-56 | A trigger's row keeps the table invariant. |
| Executions.InsertRefusalKeepsTable | internal/handlers/webhook.go:201-206 | The trace of a refused trigger keeps the table invariant. |
| Executions.MarkRunningKeepsTable | internal/handlers/webhook.go:253-260 | The unguarded update keeps the invariant if the row is still queued. |
| Executions.LogExecutionEndKeepsTable | internal/handlers/webhook.go:195-199 | The unguarded update keeps the invariant if the row is active and the status is a dead one. |
| Executions.FinishExecutionKeepsTable | internal/handlers/success_chain.go:61-69 | The guarded finish keeps the invariant on every row. |
| Executions.CommitSuccessorKeepsTable | internal/handlers/success_chain.go:120-130 | Writing the child and the reference keeps the invariant: path, generation, one live successor, start order. |
| Executions.RecordHandoffFailureKeepsTable | internal/handlers/success_chain.go:72-77 | Recording a failed handoff keeps the invariant. |
| Executions.ClaimRetryKeepsTable | internal/handlers/success_chain.go:212-233 | A granted claim keeps the invariant; the abandoned successor is dead. |
| Executions.SweepKeepsTable | internal/handlers/execution.go:214-221 | The start-up sweep keeps the invariant. |
| Retention.RetainedIsExactlyNeeded | internal/handlers/execution.go:297-301 | The recursive query yields exactly the ids from which an anchor (unfinished, recent or pending) is reached downwards, also on cyclic parent data. |
| Retention.RetainedIsLeast | internal/handlers/execution.go:297-301 | Any set that holds the anchors and is closed under parents holds everything the query retains. |
| Retention.NeedIsByFields | internal/handlers/execution.go:297-299 | Unfinished, recent and pending rows are needed; any other needed row has a needed child. |
| Retention.CleanupIsExact | internal/handlers/execution.go:302-306 | Exactly the rows that are not needed go, and exactly the logs of those rows. |
| Retention.CleanupKeepsAncestors | internal/handlers/execution.go:295-301 | With a row its existing parent survives. |
| Retention.CleanupIsIdempotent | internal/handlers/execution.go:289-318 | A second cleanup with the same cutoff changes nothing. |
| Retention.CleanupAbsorbsEarlier | internal/handlers/execution.go:289-318 | Cleaning with an earlier cutoff first makes no difference, for rows and logs. |
| Retention.RetainedParentKeepsSuccessor | internal/handlers/execution.go:297-301 | A dispatched row that is retained retains the row it refers to: the step from one live successor and start order to no dangling reference. |
| Retention.CleanTableKeepsTable | internal/handlers/execution.go:289-318 | Cleanup with any cutoff keeps the whole table invariant. |
| Retention.CleanTableSparesAnchors | internal/handlers/execution.go:297-299 | No row that somebody still works on or that is pending is deleted. |
| Handlers.Runner.Admit | internal/handlers/runner.go:57-78 | Granted exactly when the hook is not in flight and fewer hooks than the capacity are: then the entry and one unit of the wait group are new; a refusal changes nothing and reports the execution holding the hook. |
| Handlers.Runner.Release | internal/handlers/runner.go:89-94 | Removes the entry and one unit of the wait group, nothing else. |
| Handlers.Runner.Start | internal/handlers/runner.go:100-107 | Without a cancel it ends with a slot taken; with both ready either outcome; a refusal takes no slot. |
| Handlers.Runner.SetExecution | internal/handlers/runner.go:82-86 | Names the execution in the holder's entry and in no other. |
| Handlers.CancelRegistry.Register | internal/handlers/cancel.go:23-29 | A new open switch under the id. |
| Handlers.CancelRegistry.Unregister | internal/handlers/cancel.go:32-36 | Removes the id, closes nothing. |
| Handlers.CancelRegistry.Cancel | internal/handlers/cancel.go:41-54 | Found if and only if registered; exactly that switch is closed, and only while it was open. |
| ProtocolThreads.StepKeepsBase | internal/handlers/webhook.go:238-322 | Every step of every thread and of the environment keeps: the table invariant, a well-formed hook graph, one owner per active row, and what each program counter knows about its row. |
| ProtocolRunner.StepKeepsRunner | internal/handlers/runner.go:57-135 | Every step keeps the runner's accounts: entries, slots and wait group are the sums of what the threads hold. |
| ProtocolCancels.StepKeepsCancels | internal/handlers/cancel.go:23-54 | Every step keeps the switch invariant under any interleaving of register, unregister and cancel. |
| ProtocolTheorems.ReachableIsOk | internal/handlers/webhook.go:273-322 | The whole invariant holds in every reachable state, crashes, failed statements and sweeps included. |
| ProtocolTheorems.AtMostOneLiveSuccessor | internal/handlers/success_chain.go:61-141 | Every successor's parent exists and succeeded; unless it is the one its dispatched parent names, a successor is failed, canceled or interrupted; of two successors one is. |
| ProtocolTheorems.DispatchedSuccessorExists | internal/handlers/success_chain.go:216-222 | The row a dispatched execution names exists and names it as parent, so the child-unavailable branch of a retry is never taken. |
| ProtocolTheorems.HandoffImpliesSuccess | internal/handlers/success_chain.go:61-69 | A handoff state other than none implies success, a target and an attempt of at least 1. |
| ProtocolTheorems.ChainPathGrows | internal/handlers/success_chain.go:101-120 | A chain path has no repeats, ends in the own hook and is the parent's path plus that hook, whatever hooks are edited meanwhile. |
| ProtocolTheorems.ChainDepthIsBounded | internal/handlers/success_chain.go:105-109 | No chain of executions is longer than the number of hook ids that have ever existed. |
| ProtocolTheorems.SuccessorsFitAttempts | internal/handlers/success_chain.go:120-130 | Each attempt bears at most one successor, deleted ones included, so there are never more successors than attempts. |
| ProtocolTheorems.StepAges | internal/handlers/webhook.go:195-260 | No step but cleanup removes a row; none lowers an attempt, changes a terminal status or moves a row within its chain. |
| ProtocolTheorems.TerminalStatusIsAbsorbing | internal/handlers/webhook.go:195-199 | Over any run an ended execution keeps its status as long as its row exists, in spite of the unguarded writes. |
| ProtocolTheorems.ClaimsAreExactlyOnce | internal/handlers/success_chain.go:161-163 | Over any run, later claims of an execution carry strictly greater generations than earlier ones. |
| ProtocolHandoffs.PendingHasAThread | internal/handlers/success_chain.go:71-78 | In every run a pending handoff has a thread in charge of it, unless the run contains the event that left it to nobody: a failure that could not be recorded, or a restart that was not swept. |
| ProtocolHandoffs.NoHandoffIsForgotten | internal/handlers/success_chain.go:71-130 | Without those two events no row is pending once all threads have ended. |
| ProtocolHandoffs.DispatchSkipsExactly | internal/handlers/success_chain.go:86-96 | A dispatch with a free connection has nothing to do if and only if its row is gone, not a success or not pending. |
| ProtocolHandoffs.DispatchAdmitsExactly | internal/handlers/success_chain.go:97-119 | It goes on to its writes if and only if the row is a pending success, its target exists and is not on its path, and the runner has room and does not run the target. |
| ProtocolHandoffs.RetryIsGrantedExactly | internal/handlers/success_chain.go:205-225 | In every reachable state with a free connection a claim is granted if and only if it names the current generation and the handoff failed, was interrupted, or went to a successor that is failed, canceled or interrupted; no execution of a hook is ever timed out. |
| ProtocolHandoffs.SweptRestartLeavesNothingOpen | internal/handlers/execution.go:214-221 | After a restart whose sweep succeeds no row is active and none is pending: each is interrupted, and every other status is as before. |
| ProtocolHandoffs.TriggerReadsItsTarget | internal/handlers/webhook.go:40-49 | A trigger remembers the target its hook has when it is read. |
| ProtocolHandoffs.TriggeredRowIsAsRead | internal/handlers/success_chain.go:50-56 | The row it inserts begins a chain of its own with that target, running if somebody waits for the answer and queued otherwise; no other row changes. |
| ProtocolHandoffs.ExecutedResultStays | internal/handlers/webhook.go:307-317 | What a worker's run came to, once stored, is its status in every later state, whatever the others did before and do after. |
| ProtocolHandoffs.SyncResultStays | internal/handlers/webhook.go:98-104 | The same for a synchronous run. |
| ProtocolHandoffs.LoggedEndStays | internal/handlers/webhook.go:288-302 | A run canceled before it started stays canceled, one that panicked stays failed. |
| ProtocolRetries.StepKeepsRetries | internal/handlers/success_chain.go:177-193 | Every step keeps what a retry's handler knows between claim and answer: its claim stands, no other request has it, and its own successor is the one of the generation it claimed. |
| ProtocolAnswers.AcceptedRetryNamesASuccessor | internal/handlers/success_chain.go:182-193 | In every reachable state: an id answered with 202 is a successor of the retried execution, born in the claimed generation or a later one, and it is the request's own exactly if it is of the claimed generation, exactly if that is still the current one. |
| ProtocolAnswers.RetryIsOwnIffNoLaterClaim | internal/handlers/success_chain.go:164-194 | Over any run from a granted claim to its answer: the id is the successor this request committed if and only if no later claim of the execution was granted in between. |
| ProtocolAnswers.AnswerFollowsClaim | internal/handlers/success_chain.go:177-181 | Whoever answers for a generation has been granted its claim earlier in the run. |
| ProtocolAnswers.AnswerCanNameAnothersSuccessor | internal/handlers/success_chain.go:182-193 | A run in which a request is answered with 202 and the execution another request has started, its own dispatch having been refused. |
| ProtocolTheorems.NoSwitchIsClosedTwice | internal/handlers/cancel.go:38-53 | A switch about to be closed is open, off the registry, and about to be closed by one thread only. |
| ProtocolTheorems.CanceledBeforeStartNeverSucceeds | internal/handlers/webhook.go:297-317 | An execution whose switch is closed when Start returns is never a success and never has a successor, whichever case each select takes and whatever follows. |
| ProtocolTheorems.RunnerIsConserved | internal/handlers/runner.go:57-135 | Admissions within capacity, slots within the limit, the wait group exactly admissions plus releases in progress plus open handoffs; each admission has exactly one holder, each hook one admission. |
| ProtocolTheorems.OpenHandoffBlocksWaitIdle | internal/handlers/runner.go:114-135 | While a handoff is open or an admission held the wait group is not zero. |
| ProtocolTheorems.SuccessorIsAdmittedAfterRelease | internal/handlers/webhook.go:280-320 | When a successor is admitted its parent's success is stored and pending, and nobody holds an admission or a running slot for the parent. |
| ProtocolChains.UneditedChainIsNeverRefused | internal/handlers/success_chain.go:97-109 | If no hook is edited while a chain runs, its dispatches are never refused for a missing hook or a loop, provided only that its own trigger read the current target; the row of that trigger is there as long as the chain is. |
| ProtocolProgress.ThreadStepCosts | internal/handlers/success_chain.go:105-120 | Every step of a thread lowers a potential made of unvisited hook ids and remaining stages. |
| ProtocolProgress.WorkIsBounded | internal/handlers/success_chain.go:105-120 | A run without new requests, retries, hook creations or restarts has at most so many thread steps, however events interleave. |
| ProtocolProgress.SomeThreadGoesOn | internal/handlers/webhook.go:278-320 | In every reachable state with a live thread some thread can take a fault-free step: nothing waits in a circle. |
| ProtocolProgress.NothingLeaks | internal/handlers/webhook.go:278-305 | When all threads have ended, on whatever paths, no admission, slot or wait-group unit is left. |
| Utf8.ValidIsUtf8 | internal/services/logsink.go:135-138 | The validity test of the decoder is the grammar of section 4 of RFC 3629. |
| Utf8.SplitAtRuneStart | internal/services/tailbuffer.go:23-29 | A valid text cut anywhere is cut into two valid texts exactly if the cut is not before a continuation byte. |
| Utf8.ToValidIsIdentityOnValid | internal/services/logsink.go:135-138 | Replacement always yields valid text and leaves valid text alone. |
| OutputCapture.TrimTailIsLongest | internal/services/tailbuffer.go:5-8 | One-shot trimming yields a valid suffix within the limit, and the longest such; no cap leaves everything. |
| OutputCapture.TrimTailIsIncremental | internal/services/tailbuffer.go:18-33 | Trimming what earlier trimming left is trimming the whole history. |
| OutputCapture.AppendAllIsOneTrim | internal/services/tailbuffer.go:18-33 | However a text is cut into valid pieces, the buffer ends as one cut of the whole. |
| OutputCapture.TailBuffer.Append | internal/services/tailbuffer.go:18-33 | After every append the buffer is the one-shot trim of everything ever appended, which is valid. |
| OutputCapture.CutPoint | internal/services/tailbuffer.go:26-29 | The loop stops at the first position at or after the offset that is no continuation byte. |
| OutputCapture.IncompleteTailLen | internal/services/logsink.go:168-181 | The loop computes the backward scan's answer, at most 3 bytes. |
| OutputCapture.ExactlyTheUnfinishedRuneWaits | internal/services/logsink.go:115-121 | Wherever a valid text is cut, exactly the beginning of an unfinished last rune is held back: what is emitted is whole runes, and what is held back is a proper part of the rune that goes on in what is still to come. |
| OutputCapture.HeldBackIsIncomplete | internal/services/logsink.go:187-198 | What is held back is never a complete text by itself. |
| OutputCapture.LaneWriteKeepsOk | internal/services/logsink.go:119-124 | For any bytes: raw text handed on followed by what is held back is what was written, at most 3 bytes wait, everything recorded is valid, and while the stream is the beginning of a valid text the record is the raw text. |
| OutputCapture.LaneFlushKeepsText | internal/services/logsink.go:154-161 | Giving up waiting hands on everything, and a valid stream is recorded as it was written. |
| OutputCapture.ValidStreamIsComplete | internal/services/logsink.go:115-124 | When a stream ends as valid text nothing is held back and the record is the stream. |
| OutputCapture.StreamCapture.Write | internal/services/logsink.go:109-128 | Keeps the stream invariant for both streams, buffers trimmed and sink equal to the record; the sink grows by at most one chunk, of the stream written; once sealed nothing changes. |
| OutputCapture.StreamCapture.Emit | internal/services/logsink.go:131-148 | Appends the cleaned text to one stream's record, in the buffer and, as one chunk behind all that is there, in the sink. |
| OutputCapture.StreamCapture.Result | internal/services/logsink.go:150-164 | Seals; every byte written has been handed on; each result is the trim of the record, which for a valid stream is the stream; in either order of flushing. |
| Executor.Run | internal/services/executor.go:162-249 | For all reads of both streams, interleaved and cut in any way: a valid stream reaches the sink unchanged, the chunks of both streams in the order of the reads that completed them. The output is the longest rune-aligned end of stdout within the cap; the error is that of stderr after a clean exit, that or the message if it is empty after a failed wait, and ends with the reason if the run was stopped or timed out. Success, cancellation and timeout exactly for their endings; late reads change nothing. |
| Executor.Settle | internal/services/executor.go:208-233 | Per case of the select, and for the second look at the switch: which buffer is the output, which text is the error, and the three flags. The select of an SSH session is the same. |
| Executor.AbortResult | internal/services/logsink.go:40-49 | Never a success; stdout as far as it got, stderr with the reason on a new line and no newlines at the head, the flags as given, the capture sealed. |
| Executor.ReasonIsLast | internal/services/logsink.go:47 | Whatever the output, the reason is the end of the text, on a line of its own, and is all of it if there was none. |
| Executor.Pump | internal/services/executor.go:237-249 | Feeding the reads writes exactly their concatenation per stream. |
| Executor.PumpLate | internal/services/logsink.go:113-119 | Reads after the capture was sealed change neither buffers nor sink. |
| LogSinks.KeepIsLongestFit | internal/handlers/testrun.go:76-90 | What rolling off leaves is the longest suffix within both caps, never less than the newest chunk. |
| LogSinks.KeptIsFullest | internal/handlers/testrun.go:83-90 | In plain terms: at least the newest chunk, within the count cap, within the byte cap unless it is one chunk, and one chunk more would break a cap. |
| LogSinks.KeepIsIncremental | internal/handlers/testrun.go:76-90 | Rolling off after every write leaves what rolling off once would. |
| LogSinks.RetainedIsContiguous | internal/handlers/testrun.go:72-82 | Retained sequence numbers have no hole and end with the newest. |
| LogSinks.FittingLogKeepsEverything | internal/handlers/testrun.go:76-90 | A log within its caps has lost nothing at any time on the way. |
| LogSinks.TestRun.WriteChunk | internal/handlers/testrun.go:68-91 | After every write the chunks are an end of all chunks ever written, numbered from 1, with their exact byte total: within the count cap, within the byte cap unless it is a single chunk, and one chunk more would break a cap. |
| LogSinks.TestRun.RollOff | internal/handlers/testrun.go:83-90 | The byte loop followed by the count loop leaves the longest end that fits both caps. |
| LogSinks.TestRun.GetPage | internal/handlers/testrun.go:104-130 | The loop over the chunks computes the page: first 500 unread, their last number, the oldest number, and whether more is waiting. |
| LogSinks.HasMoreMeansSomethingPastThePage | internal/handlers/testrun.go:118-129 | More is reported exactly if a retained chunk lies past the page, and the page leaves nothing out up to its last number. |
| LogSinks.TestRun.RequestCancel | internal/handlers/testrun.go:175-185 | Answers whether the run was unfinished when tested; then the switch closes, once, even if the run finishes between the test and the close. |
| LogSinks.ExecutionLogSink.WriteChunk | internal/handlers/executionlogsink.go:31-47 | Every chunk takes a number; a failed insert stores nothing; whatever fails, the byte total is that of the stored rows, an end of the inserted ones; if no read or delete fails they are within the cap or one chunk, and one more would not fit. |
| LogSinks.ExecutionLogSink.Trim | internal/handlers/executionlogsink.go:52-67 | The loop keeps that invariant when a read or delete fails and reaches the longest fitting end when none does. |
| TestRuns.TestRunRegistry.Start | internal/handlers/testrun.go:202-218 | Refuses exactly when three runs are unfinished; otherwise registers one new run and touches no other. |
| TestRuns.TestRunRegistry.CancelOldestRunning | internal/handlers/testrun.go:226-244 | Answers true exactly if a run was in flight, and asks one that started first; if that one finishes before it is asked its switch stays as it was and the answer is still true. No other run is touched. |
| TestRuns.TestRunRegistry.Sweep | internal/handlers/testrun.go:256-268 | Drops exactly the runs that finished longer ago than the retention, none in flight, and counts them. |
| LogPolling.StepKeepsOk | web/src/components/LogStreamView.tsx:98-138 | Every step of writer, server and view keeps the invariant between log, answer under way and view. |
| LogPolling.DeliveryTells | web/src/components/LogStreamView.tsx:109-112 | An answer settles the chunks it moves past: missed exactly those that were gone when its chunks were read. |
| LogPollingTheorems.EveryChunkIsReceivedOrRolledOff | web/src/components/LogStreamView.tsx:100-113 | Over any run: strictly increasing, no duplicates, only stored chunks; behind the cursor exactly chunks are missing that rolled off unread. |
| LogPollingTheorems.GapFlagMeansHole | web/src/components/LogStreamView.tsx:106-108 | A hole behind a received chunk always raises the flag, unless an answer was delivered whose oldest number could not be read; and the flag means a hole, unless a torn answer was delivered. No other failure matters. |
| LogPollingTheorems.NoHoleIsOneStretch | web/src/components/LogStreamView.tsx:106-112 | Without a hole what was received is one stretch of the log, missing at most its head. |
| LogPollingTheorems.DoneMeansComplete | web/src/components/LogStreamView.tsx:118-127 | A view that stops by itself has received every chunk that is retained, and the whole log if nothing rolled off, unless the last read behind its last answer failed; also over the endpoint with separate reads. |
| LogPollingTheorems.PollingEnds | web/src/components/LogStreamView.tsx:118-137 | After the run has finished only so many steps are possible: backlog, three strikes and the number of callback failures bound them. |
| LogPollingTheorems.ViewCompletes | web/src/components/LogStreamView.tsx:118-127 | From every such state a fault-free continuation ends with the view done. |
| LogPollingTheorems.PageIsOneAnswer | internal/handlers/testrun.go:104-130 | A test run's page, read under one lock, is the answer of a poll that nothing tears. |
| LogPollingTheorems.WriteIsStoreAndRoll | internal/handlers/testrun.go:68-91 | A test run's write is a store step and a roll-off step of the protocol. |
| LogPollingTheorems.TornAnswerReportsAFalseGap | internal/handlers/execution.go:100-124 | A run of the database endpoint in which the flag goes up although every chunk was received. |
| LogPollingTheorems.RaisedFlagIsFalseIffChunkIsThere | web/src/components/LogStreamView.tsx:106-108 | A flag raised by an answer reports the chunk past the cursor as lost: false if and only if the answer's first chunk is that chunk, which the view could check; otherwise the chunk is gone and never received. |
| LogPollingTheorems.RaisedFlagIsVoidIffAnswerIsWhole | web/src/components/LogStreamView.tsx:106-108 | As of the read of the oldest number no chunk past a received one was lost at all if and only if the answer starts right past the cursor and reaches up to the oldest number. |
| LogPollingTheorems.RaisedFlagInAnyNumbering | web/src/components/LogStreamView.tsx:106-108 | Without assuming consecutive numbers: a raised flag implies that a chunk is stored past the cursor, and it is received exactly if the answer starts with it. |
| LogPollingTheorems.SilentFailureStrandsLongBacklogs | internal/handlers/execution.go:126-131 | If the last read fails unnoticed the view of a finished log stops, complete if and only if what was unread fits one page. |
| LogPollingTheorems.FailingCallbackPollsAgain | web/src/components/LogStreamView.tsx:98-138 | With a callback that keeps failing a finished log is polled for ever: a round leads back to the same state, and the failure count never gets past one. |
| LogPollingTheorems.ViewShowsTheOutput | web/src/components/LogStreamView.tsx:109-112 | A view done with a log that never rolled off shows per stream exactly the text the capture recorded. |
| LogStreamView.Logs | internal/handlers/execution.go:80-141 | The page has the first rows past the cursor, its last number, the oldest number and whether more is stored, each as of its own statement; a statement whose error is dropped counts as 0 or false. |
| LogStreamView.LogsServesTheAnswer | internal/handlers/execution.go:80-141 | Whatever writers do between the statements, the page served is the answer that the four reads of the protocol build. |
| LogStreamView.ReadRows | internal/handlers/execution.go:100-117 | The loop over the rows ends with the first unread ones up to the limit and the last number among them. |
| LogStreamView.View.Poll | web/src/components/LogStreamView.tsx:98-138 | One round of poll, with either callback throwing or none: cursor, chunks, gap flag, failure count, and whether the next poll comes at once, after the interval or not at all; it equals the protocol's delivery or failure. |
| ShellCommand.SshScriptCommand | internal/services/ssh.go:225-241 | The text is the same for every order of walking the map, and a POSIX shell's tokenizer reads it as the cd, the assignments, the interpreter with its flags and the arguments. |
| ShellCommand.InterpretersAreCommandNames | internal/services/ssh.go:225-235 | bash, sh and python3 stand for themselves as command names. |
| ShellCommand.CommandReadsBack | internal/services/ssh.go:225-294 | For all argument, value and directory strings the tokenizer returns exactly what was meant. |
| ShellCommand.ReadEscaped | internal/services/ssh.go:292-294 | A quoted string reads back as one word part with exactly its characters, whatever they are. |
| ShellCommand.ReadCd | internal/services/ssh.go:258-263 | The prefix reads as the word cd, the directory and the operator, or as nothing. |
| ShellCommand.AssignmentIsRead | internal/services/ssh.go:272-277 | Each rendered pair is an assignment word with that name and that value. |
| ShellCommand.SortedEnvKeys | internal/services/ssh.go:281-290 | The valid keys, each once, in ascending order, however the map is walked. |
| ShellCommand.LessIsLexicographic | internal/services/ssh.go:288 | The order of the keys is that of strings: by the first character that differs, a prefix first. |
| ShellCommand.NameIsThePattern | internal/services/ssh.go:268 | A key is taken exactly if it matches the pattern for names. |
| ShellCommand.KeyListIsUnique | internal/services/ssh.go:281-290 | There is only one ascending list of given keys. |
| ShellCommand.WriteEnv | internal/services/ssh.go:270-279 | The builder loop writes the concatenated assignments. |
| RateLimiter.Limiter.Allow | internal/middleware/rate_limiter.go:37-55 | The windows and the last sweep are what the history makes of them in any order of times; the answer is that of a limiter that never sweeps as long as no request goes back, in particular while times are in order. |
| RateLimiter.Limiter.Sweep | internal/middleware/rate_limiter.go:42-46 | The deletion loop drops exactly the windows that are a window length old, in any order. |
| RateLimiter.InStepIsTracked | internal/middleware/rate_limiter.go:40-47 | As long as nobody goes back every request is counted as if nothing were swept, and exactly the windows not swept are kept. |
| RateLimiter.InOrderNobodyGoesBack | internal/middleware/rate_limiter.go:40-47 | Times that never go backwards do not go back to before the end of a swept window. |
| RateLimiter.KeysAreIndependent | internal/middleware/rate_limiter.go:48-54 | A key's window depends on that key's requests alone. |
| RateLimiter.AtMostTwiceTheLimit | internal/middleware/rate_limiter.go:48-54 | In any half-open stretch of one window length at most twice the limit less one gets through per key. |
| RateLimiter.BoundIsReached | internal/middleware/rate_limiter.go:48-54 | That many do get through for every limit and every window length of at least two. |
| RateLimiter.SweepShowsExactlyWhenTimeGoesBack | internal/middleware/rate_limiter.go:37-55 | For every history in whatever order of times: all answers agree with a limiter that never sweeps, for every limit, if and only if no request comes, by the times alone, before the end of a window that a sweep has already passed; with a limit of one they differ otherwise. |
| RateLimiter.BackwardsTimeShowsTheSweep | internal/middleware/rate_limiter.go:40-54 | A history in which a request goes back and the answers differ. |

## Left out

- HTTP binding, status texts, sessions, JSON encoding, the payload and environment built from a request: plumbing without protocol content.
- Process spawning, process groups, pipes, SSH dialling and host keys, the guard against signalling a reaped process: foreign calls; an execution is a given sequence of reads and a given outcome.
- HMAC and token comparison, the command whitelist, settings, script and host tables, migrations: they would add only easy members.
- PowerShell and cmd.exe rendering and free-form commands passed through verbatim: their readers' grammars are not fixed by the repository.
- The lookup of an SSH host inside the insert of an execution appears only as a statement that may fail; `success_body`, `exec_target` and error texts are not columns of the model.
- Chain paths are sequences of ids, not JSON text; a stored path that does not parse is not part of the model.
- A row inserted before the success columns existed is modelled as one outside any chain; a run begins with any number of them.
- A failure after the dispatch transaction has committed but before the worker is started (an invalid request object, a panic in between) is not modelled; neither is a driver that reports failure for a statement that took effect, nor a panic inside the store's own calls.
- Logs and executions are cleaned in one transaction; a view that follows an execution while its rows are deleted by retention is not part of `LogPolling`.
- Handlers.Database.RetryUndisturbed: the three sections of a retry with nobody in between; what they mean when others come in between is `ProtocolAnswers`.
- LogPollingTheorems.RaisedFlagIsFalseIffChunkIsThere: for logs numbered without a gap; a failed insert leaves a number unused, which the flag cannot tell from a lost chunk (`RaisedFlagInAnyNumbering` says what holds then).
- RateLimiter.SweepShowsExactlyWhenTimeGoesBack: for one given limit above one the answers can still agree by chance after a request has gone back; the equivalence is for all limits together, and for a limit of one.
- The setters of the runner, of a test run and of the rows (slot given back, handoff tracked, status written) are methods equal to the functions of the protocol model and have no row of their own.
- LogStreamView.Logs: the chunk query is taken to fail as a whole or not at all; an error after some of its rows, which the handler does not look for, is not modelled.
- Of the view only the poll loop is modelled: rendering, unmounting and switching to another source are not.
- The chunk that marks a cancellation in a log is one more write to the sink and has no member of its own.
- Registry look-ups of test runs, the sweep timer and the retention timer: they add nothing to the members they call.
- Handlers.Runner.Release: the class method is both halves of a release at once; the protocol model has them as two steps, with other threads in between.
- launchHook and Trigger exist as program counters of `Protocol`, not as methods: their statements interleave with those of other threads, which a method body cannot show.
- A worker that panics while it holds no statement is modelled at every point of its body; a panic of dispatchSuccess itself, which would end the process, is the same as a restart.
- Strings with a NUL character cannot be passed to a process; the reader of `ShellCommand` treats NUL like any ordinary character.
- Integers are unbounded: sequence numbers, byte totals and counters of the original are 64 bits wide and never come near their ends.
- RateLimiter.Limiter.Allow: the property is conditional on times in order; the original reads the clock before it takes its lock, so two requests can be out of order by a moment.
