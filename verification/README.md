# Verified model of the email-automation platform

The platform reads customer emails, classifies and labels them, routes them, watches their
deadlines, audits what happened, and runs document tools from a job queue. This project models
the parts of it that keep state over time or that carry an algebra, and proves what they keep.

| file | what it models |
|---|---|
| `Audit.dfy` | the audit writer: writer threads and one flush daemon over a buffer, a lock and a flag |
| `RateLimit.dfy`, `Spacing.dfy` | the blocking and the rejecting sliding-window limiter; sequences of instants that keep apart |
| `Sla.dfy` | the SLA monitor: two thresholds, expiring deduplication keys, the summary and the dashboard |
| `JobQueue.dfy` | the Redis job queue and any number of workers with unlocked read-modify-write updates |
| `LabelLease.dfy` | one classification label per message, guarded by a 30-second lease |
| `LabelTree.dfy`, `StableSort.dfy` | creating and deleting a nested label tree; the stable sort two modules share |
| `Pipeline.dfy` | the agent graph in supersteps, with the state reducers |
| `Rules.dfy` | the dynamic rules engine |
| `DeepMerge.dfy` | tenant overrides laid over a base configuration |
| `Retry.dfy` | retry with backoff, the model fallback, and a classification that composes them |
| `FolderMerge.dfy` | merging two folders without overwriting a file |

Code that changes an object or a collection step by step is a class or a method with loops,
proved against a specification function of the old state. Where several threads, workers or
processes interleave, the same operations are also cut into atomic steps (`Action`, `Enabled`,
`Next`), results are about every run of these steps from the start, and a lemma shows that the
steps, undisturbed, are the operation (`Audit.WriteOneIsARun`, `Audit.FlushIsARun`,
`JobQueue.EnqueueIsARun`, `JobQueue.TurnIsARun`, `LabelLease.ApplyIsARun`). What the environment
decides (clocks, network answers, exceptions, LLM replies) is a parameter of the operation or
part of the step.

Where the code does not do what its documentation says, the model follows the code:

- The audit node has two in-edges through `response`, so after routing it runs twice on a growing
  queue and writes earlier events twice (`Pipeline.AuditSeesEverything` says exactly which).
- `run_pipeline` starts with no retries and intake counts one, so the dead-letter branch that
  waits for three is never taken (`Pipeline.NeverDeadLetter`).
- `current_step` is documented as the current step, but its reducer keeps the first value, so it
  never changes in a run (`Pipeline.StepNeverMoves`).
- An email whose classification failed is routed like a confident one (`Pipeline.ReviewedIff`).
- `sla_deadline` depends on the order in which classification and the SLA node are folded in,
  unless one has none or both agree (`Pipeline.DeadlineAgreesIff`).
- A repeated 80 % warning clears the escalation mark of a breached email
  (`Sla.EscalationClearedIffWarned`, `Sla.EscalationIsNotMonotone`).
- A job record can go from COMPLETED to FAILED (`JobQueue.CompletedThenFailed`), but only when a
  COMPLETED write took effect while its reply was lost (`JobQueue.StatusOnlyMovesForward`,
  `JobQueue.LostReplyEndsFailedIff`).
- It can skip RUNNING (`JobQueue.CompletedWithoutRunning`), but only when that update finds no
  Redis client, which it ignores silently.
- The label lease protects only sections that end within it
  (`LabelLease.OneManagedLabel`, `LabelLease.StalledWorkerAddsASecondLabel`).
- Deep merge is not associative; `DeepMerge.AssociativeIff` says when it is.

## Model

| member | source | states |
|---|---|---|
| `Audit.Persist` | agents/audit_agent.py:118-151 | an attempt inserts iff everything answers and the event names no email or a known one, discards iff it looks up an unknown one, and raises otherwise |
| `Audit.RemoveFirst` | agents/audit_agent.py:184-185 | removal by equality takes away exactly one copy, or nothing |
| `Audit.AuditWriter.constructor` | agents/audit_agent.py:58-61 | the writer starts with an empty buffer and believes the database is up |
| `Audit.AuditWriter.PersistToDb` | agents/audit_agent.py:107-151 | an attempt inserts, discards an orphan, or raises and changes nothing |
| `Audit.AuditWriter.Buffer` | agents/audit_agent.py:153-155 | appends one event to the buffer and changes nothing else |
| `Audit.AuditWriter.WriteOne` | agents/audit_agent.py:76-87 | persists or buffers the event, and lowers the flag on a raise |
| `Audit.AuditWriter.Write` | agents/audit_agent.py:68-74 | the loop writes every event of the batch in order, as `WriteSplits` and `WriteKeepsAll` spell out |
| `Audit.WriteKeepsAll` | agents/audit_agent.py:68-87 | whatever happens to any of them, logged + discarded + buffered grow by exactly the events of the batch |
| `Audit.WriteWhenDown` | agents/audit_agent.py:86-87 | with the flag down the whole batch is buffered, in order, and nothing is attempted |
| `Audit.WriteSplits` | agents/audit_agent.py:73-87 | with the flag up, the events before the first that raises are logged or discarded in order, that one and all behind it are buffered in order, and the flag stays up iff none raised |
| `Audit.AuditWriter.AttemptFlush` | agents/audit_agent.py:169-198 | the loop over the snapshot refines the recursive pass, whose meaning is given by `RecoveryEmptiesBuffer` and `PassEnds` |
| `Audit.GuardNeverFails` | agents/audit_agent.py:184 | the membership test before the removal always holds, whatever writers do meanwhile |
| `Audit.StepInvariant` | agents/audit_agent.py:76-198 | every atomic step of any writer or of the flusher keeps the books balanced, per event |
| `Audit.WriterBalances` | agents/audit_agent.py:76-87 | each step of one writer keeps the balance of every event, whatever the others hold |
| `Audit.StepKeepsOrder` | agents/audit_agent.py:169-195 | while nothing was kept, the buffer is the rest of the snapshot followed by what arrived since, in order |
| `Audit.NeverDrops` | agents/audit_agent.py:68-198 | the promise of line 13: in every interleaving of any number of writers with the flusher: logged, discarded, buffered and held events are the submitted ones, plus at most the one the flusher has persisted and not removed; only events with an email id are discarded |
| `Audit.BalancedAtRest` | agents/audit_agent.py:68-198 | at rest the balance is exact as multisets: nothing lost, nothing doubled |
| `Audit.PassEnds` | agents/audit_agent.py:175-198 | when a pass ends in any interleaving, what is left of its snapshot is exactly what raised; with no failure the buffer is what arrived since, in order, and the flag is up; the flag is raised iff an event got through |
| `Audit.WriteOneIsARun` | agents/audit_agent.py:76-87 | the steps of a writer, undisturbed, are the method |
| `Audit.WriteIsARun` | agents/audit_agent.py:68-74 | the steps of a writer for a whole batch, undisturbed, are the method |
| `Audit.FlushIsARun` | agents/audit_agent.py:169-198 | the steps of the flusher, undisturbed, are the method |
| `Audit.RecoveryEmptiesBuffer` | agents/audit_agent.py:169-198 | a pass without a raise empties the buffer, raises the flag if there was anything to flush, and writes or discards every buffered event once, in order |
| `Audit.FlushLeavesFailures` | agents/audit_agent.py:169-198 | a pass, however its attempts end, logs or discards what gets through in order, keeps exactly the events that raised, and the flag then says whether anything got through |
| `Audit.OutcomesSplit` | agents/audit_agent.py:179-195 | inserted, discarded and raised split the events of a batch |
| `RateLimit.PrunedWindowIsFullHistory` | mcp_tools/llm_client.py:40-43 | pruning the kept list gives the same as pruning the full history of grants, which holds at most `rpm` young ones |
| `RateLimit.GrantKeepsSound` | mcp_tools/llm_client.py:43-49 | a grant keeps the kept list the tail of the history, with grants `rpm` places apart a window apart |
| `RateLimit.AcquireStep` | mcp_tools/llm_client.py:38-49 | one call waits iff `rpm` grants lie in the last 60 s, at most 60.1 s, and stays sound although the list is not pruned again after the sleep |
| `RateLimit.RateLimitSafety` | mcp_tools/llm_client.py:31-49 | over every run with a monotone clock, grants `rpm` places apart are 60 s apart and every half-open 60 s interval holds at most `rpm` |
| `RateLimit.RateLimiter.constructor` | mcp_tools/llm_client.py:34-36 | a new limiter has no grants |
| `RateLimit.RateLimiter.Acquire` | mcp_tools/llm_client.py:38-49 | the new list is the young part of the whole history plus this grant, at most `rpm` + 1 entries; it waits until exactly 60.1 s after the grant `rpm` places back if that is less than 60 s old, and otherwise not at all; a quota below one raises and grants nothing |
| `RateLimit.FullIffHeld` | mcp_tools/llm_client.py:42-43 | the window is full iff the grant `rpm` places back is less than 60 s old, and it then holds the `rpm` latest grants |
| `RateLimit.WaitsUntil` | mcp_tools/llm_client.py:43-48 | with a full window a call waits until 60.1 s after the oldest young grant and no longer |
| `RateLimit.ClientLimiter.CheckRateLimit` | enterprise-mcp-server/app/api/routers/mlflow.py:22-29 | admits iff fewer than 20 young entries are listed for the client, and appends only then |
| `RateLimit.CheckedKeepsSound` | enterprise-mcp-server/app/api/routers/mlflow.py:22-29 | a request of any client, admitted or not, keeps every client's list faithful to its history |
| `RateLimit.ClientHistory` | enterprise-mcp-server/app/api/routers/mlflow.py:17-29 | over every run each client's list stands for all instants at which it was admitted |
| `RateLimit.RecentCount` | enterprise-mcp-server/app/api/routers/mlflow.py:26-27 | the pruned list counts exactly the instants less than 60 s old |
| `RateLimit.AdmitsIffUnderQuota` | enterprise-mcp-server/app/api/routers/mlflow.py:22-29 | a request is admitted iff fewer than 20 of the client's admissions lie in the last 60 s, so rejections use no quota; and no 60 s interval holds more than 20 |
| `Spacing.AtMostKPerGap` | mcp_tools/llm_client.py:31-49 | instants `k` places apart by a gap leave at most `k` of them in any half-open interval of that length |
| `Spacing.AtMostPerSpan` | agents/sla_agent.py:278-291 | instants a gap apart leave at most floor(span / gap) + 1 in any span |
| `Sla.Monitor.Mark` | agents/sla_agent.py:278-291 | sets the key with its own time to live, or nothing when Redis fails |
| `Sla.Monitor.UpdateFields` | agents/sla_agent.py:95-119 | overwrites the SLA columns of one row; a missing row or a database error changes nothing |
| `Sla.Monitor.CheckEmailSla` | agents/sla_agent.py:297-454 | one check makes the three-way decision (`EscalatesIff`, `WarnsIff`) and leaves the keys and rows that `KeysAfterCheck`, `RowAfterCheck` and `OtherRowsStay` describe |
| `Sla.WarnsIff` | agents/sla_agent.py:404 | a check warns iff 80 % of a non-empty window have passed, no live warning key is seen, and it does not escalate |
| `Sla.RowAfterCheck` | agents/sla_agent.py:384-451 | every check sets the elapsed time; an escalation marks the row and hands it to the team-lead queue, a warning marks it alerted and not escalated, a plain update keeps both marks, and only an escalation changes the assignee |
| `Sla.OtherRowsStay` | agents/sla_agent.py:95-119 | no other row changes, none appears or goes, and nothing changes when the window is empty or the database refuses |
| `Sla.KeysAfterCheck` | agents/sla_agent.py:278-291 | an escalation sets its breach key for 3600 s, a warning its warning key for 1800 s, and no other key changes |
| `Sla.Monitor.CheckAllOpenEmails` | agents/sla_agent.py:508-575 | one cycle is the checks in order, with the summary tallied and one dashboard tile per email |
| `Sla.BreachIffPastDeadline` | agents/sla_agent.py:327-344 | the 100 % test is the test whether the deadline has passed |
| `Sla.TruncationKeepsThresholds` | agents/sla_agent.py:337 | one-decimal truncation keeps every positive whole threshold, goes toward zero by less than 0.1, and leaves a whole number of tenths |
| `Sla.TileShows` | agents/sla_agent.py:554-575 | a tile names its email, shows the percentage to within 0.1 and the status by the 80 % and 100 % thresholds; an empty window is shown as safe at 0 |
| `Sla.CheckKeepsGuard` | agents/sla_agent.py:344-426 | one check with Redis up keeps alerts of one kind apart and the key alive until the last may repeat |
| `Sla.DashboardAgrees` | agents/sla_agent.py:543-575 | what the cycle escalated is shown as a breach, what it warned about is not shown as safe, and the shown percentage is on the side of both thresholds that the status says |
| `Sla.SummaryAddsUp` | agents/sla_agent.py:508-532 | every open email is counted exactly once unless its window is empty |
| `Sla.SummaryCounts` | agents/sla_agent.py:516-527 | each counter is the number of checks that escalated, warned, only updated or failed |
| `Sla.RunKeepsGuard` | agents/sla_agent.py:260-291 | after any run, from any keys, a key guards every alert of the run still within its time to live |
| `Sla.AlertSpacing` | agents/sla_agent.py:260-291 | over every run of one worker with Redis up, from any keys, breach alerts of an email are 3600 s apart and warnings 1800 s, so a span T holds at most floor(T / ttl) + 1 |
| `Sla.FailsOpen` | agents/sla_agent.py:269-275 | with the lookup failing, every check past the deadline escalates |
| `Sla.FirstBreachIsPrompt` | agents/sla_agent.py:327-344 | the first check of an email at or after its deadline escalates, whatever Redis did before, unless an older breach key of the email still lives |
| `Sla.FirstBreachInEveryRun` | agents/sla_agent.py:327-344 | over every run with checks at most d apart that reaches over the deadline, with no breach key living on past it from before, some check escalates less than d after it and none before |
| `Sla.KeyHolds` | agents/sla_agent.py:286-291 | while a breach key lives, no check of that email sends a breach alert or moves the key |
| `Sla.EscalatesIff` | agents/sla_agent.py:344 | a check escalates exactly past the deadline of a non-empty window with no live key seen |
| `Sla.NextBreachIsPrompt` | agents/sla_agent.py:344-380 | no breach alert goes out before the key expires, and the first check after it escalates |
| `Sla.NextBreachInEveryRun` | agents/sla_agent.py:286-380 | over every run with Redis up and lookups at most d apart, the next escalation comes at or after the expiry of the key, less than 3600 s + d after it was set, and none comes between |
| `Sla.EscalationClearedIffWarned` | agents/sla_agent.py:404-433 | a check clears the escalation mark exactly when it sends an 80 % warning |
| `Sla.EscalationIsNotMonotone` | agents/sla_agent.py:427-433 | the cycle five minutes after a breach clears the mark |
| `JobQueue.JobStore.EnqueueJob` | enterprise-mcp-server/app/core/job_queue.py:23-53 | the record first, then the list; no client, a refused command and a lost answer all raise, with exactly the effect they had |
| `JobQueue.JobStore.GetJobStatus` | enterprise-mcp-server/app/core/job_queue.py:56-69 | the record, unless it is missing, expired, there is no client or the command raises |
| `JobQueue.JobStore.UpdateJobStatus` | enterprise-mcp-server/app/core/job_queue.py:72-99 | overwrites the status, and result or error if not empty, renewing the expiry; a missing record or client changes nothing silently; a raising command with exactly the effect it had |
| `JobQueue.UpdateReadsBack` | enterprise-mcp-server/app/core/job_queue.py:86-99 | read back after an update, a non-empty result replaces only the result and a non-empty error only the error, the rest of the record and every other record stay |
| `JobQueue.EnqueueReadsBack` | enterprise-mcp-server/app/core/job_queue.py:31-46 | read back after an enqueue, the record is PENDING, as asked, without result or error, and its id is last in the list |
| `JobQueue.RaisesIff` | enterprise-mcp-server/app/core/job_queue.py:23-99 | exactly when an enqueue or an update raises, and when it leaves Redis as it was |
| `JobQueue.RecordLivesOneHour` | enterprise-mcp-server/app/core/job_queue.py:18 | a record can be read for exactly 3600 s after it was last written |
| `JobQueue.UpdateRenews` | enterprise-mcp-server/app/core/job_queue.py:99 | an update that takes effect renews the 3600 s |
| `JobQueue.JobStore.DequeueJob` | enterprise-mcp-server/app/core/job_queue.py:102-118 | pops the oldest id, or none; a pop whose answer is lost takes the id away all the same |
| `JobQueue.JobStore.WorkerTurn` | enterprise-mcp-server/app/core/worker.py:19-79 | one turn, however each of its commands ends, calls the tool iff it gets an id with a live record and the RUNNING update does not raise, with that record's tool and arguments |
| `JobQueue.PoppedKeepsFifo` | enterprise-mcp-server/app/core/job_queue.py:110-114 | a pop, also one whose reply is lost, keeps the queue first in first out and every id in it once |
| `JobQueue.ApplyInvariant` | enterprise-mcp-server/app/core/worker.py:25-75 | a worker's legal step keeps the invariant of all jobs, its own and the others' |
| `JobQueue.StepIsOk` | enterprise-mcp-server/app/core/worker.py:25-75 | each step of a worker, from any point of the loop and any outcome of its command, moves its own job along a legal path |
| `JobQueue.StepInvariant` | enterprise-mcp-server/app/core/worker.py:19-79 | every step of every client and worker keeps the whole invariant |
| `JobQueue.HandedOutOnce` | enterprise-mcp-server/app/core/job_queue.py:110-114 | in every interleaving ids are handed out first in first out, each to at most one worker, and each tool runs at most once and as asked |
| `JobQueue.StatusOnlyMovesForward` | enterprise-mcp-server/app/core/job_queue.py:79-99 | the statuses written to a record are a prefix of PENDING, RUNNING, COMPLETED or FAILED despite the unlocked updates; RUNNING is missing only if its update found no client, FAILED follows COMPLETED only after a lost reply |
| `JobQueue.LostReplyEndsFailedIff` | enterprise-mcp-server/app/core/worker.py:70-75 | after a lost reply to COMPLETED the record ends with FAILED iff the next update finds it and its write takes effect |
| `JobQueue.CompletedThenFailed` | enterprise-mcp-server/app/core/worker.py:70-75 | a run of one worker that ends with PENDING, RUNNING, COMPLETED, FAILED |
| `JobQueue.CompletedWithoutRunning` | enterprise-mcp-server/app/core/job_queue.py:76-77 | a run of one worker that ends with PENDING, COMPLETED |
| `JobQueue.RecordTellsWhatHappened` | enterprise-mcp-server/app/core/worker.py:57-75 | in every interleaving a COMPLETED record holds its tool's output and no error, a FAILED one the last error of its tool or of its COMPLETED update, and any other neither |
| `JobQueue.StepSays` | enterprise-mcp-server/app/core/worker.py:25-75 | every step of a worker keeps its record and what it is about to write in agreement with what was said |
| `JobQueue.EveryJobIsSomewhere` | enterprise-mcp-server/app/core/worker.py:19-79 | every job asked for is in exactly one place: with its client, queued, held by the one worker with its id, finished after its tool ran, or dropped without |
| `JobQueue.EnqueueIsARun` | enterprise-mcp-server/app/core/job_queue.py:23-53 | the steps of a client, undisturbed, are the enqueue, however its commands end |
| `JobQueue.MarkIsAnUpdate` | enterprise-mcp-server/app/core/worker.py:43 | the read and write steps of the RUNNING update, undisturbed, are the update, however they end |
| `JobQueue.CloseIsAnUpdate` | enterprise-mcp-server/app/core/worker.py:70-75 | likewise for the final update |
| `JobQueue.TurnIsARun` | enterprise-mcp-server/app/core/worker.py:19-79 | the steps of one worker for one job, undisturbed, are the loop body, however each command ends |
| `LabelLease.SafeIffNothingArrived` | enterprise-mcp-server/app/domains/email_ai/label_manager.py:198-214 | a modification after a stale read leaves at most one managed label iff no managed label but the target arrived since the read |
| `LabelLease.FreshReadIsExact` | enterprise-mcp-server/app/domains/email_ai/label_manager.py:198-214 | after a fresh read it leaves exactly the target and every unmanaged label |
| `LabelLease.TargetsAreManaged` | enterprise-mcp-server/app/domains/email_ai/label_manager.py:128-147 | every label a classification can ask for is managed |
| `LabelLease.ManagedNamesIff` | enterprise-mcp-server/app/domains/email_ai/label_manager.py:128-147 | the managed labels are exactly the categories and their children, four for each |
| `LabelLease.TwentyEightLabels` | enterprise-mcp-server/app/domains/email_ai/label_manager.py:26-31 | there are 28 managed labels, among them every category and every category/priority pair |
| `LabelLease.LabelManager.Ensure` | enterprise-mcp-server/app/domains/email_ai/label_manager.py:141-147 | creates the label only if the mailbox did not list it, and records its id either way |
| `LabelLease.LabelManager.EnsureFamily` | enterprise-mcp-server/app/domains/email_ai/label_manager.py:128-147 | one category: its parent label and its three children exist and are listed as managed, in order |
| `LabelLease.LabelManager.BootstrapLabels` | enterprise-mcp-server/app/domains/email_ai/label_manager.py:106-147 | afterwards all managed labels exist, existing ones keep their ids, and the managed list holds the id of every managed name, in order |
| `LabelLease.LabelManager.ApplyClassificationLabel` | enterprise-mcp-server/app/domains/email_ai/label_manager.py:159-233 | success means the target is the only managed label; failure changes no label; the lease is taken iff the label is known and the lock free |
| `LabelLease.StepInvariant` | enterprise-mcp-server/app/domains/email_ai/label_manager.py:184-214 | every step of any worker within its lease keeps at most one active worker, an exact read and at most one managed label |
| `LabelLease.ApplyIsARun` | enterprise-mcp-server/app/domains/email_ai/label_manager.py:182-233 | the steps of one worker, undisturbed, are the method: same labels, same lease, in time |
| `LabelLease.UnmanagedUntouched` | enterprise-mcp-server/app/domains/email_ai/label_manager.py:202-214 | no step of the system touches an unmanaged label |
| `LabelLease.OneManagedLabel` | enterprise-mcp-server/app/domains/email_ai/label_manager.py:182-215 | in every interleaving in which critical sections end within 30 s a message never has two managed labels, and a completed apply leaves exactly its target |
| `LabelLease.StalledWorkerAddsASecondLabel` | enterprise-mcp-server/app/domains/email_ai/label_manager.py:184-214 | without that bound there is a run that ends with two |
| `LabelTree.Walk` | utils/gmail_label_manager.py:75-82 | the appending walk computes the recursive hierarchy |
| `LabelTree.CollectLabels` | utils/gmail_label_manager.py:143-152 | the loops with the `seen` set compute the first occurrences of the flattened hierarchy |
| `LabelTree.AllLabelNames` | utils/gmail_label_manager.py:319-324 | the set of names the hierarchy mentions |
| `LabelTree.SameNames` | utils/gmail_label_manager.py:65-85 | flattening mentions exactly the labels of the forest |
| `LabelTree.EntriesAreEdges` | utils/gmail_label_manager.py:75-82 | each entry of the hierarchy lists exactly the names of its label's own children |
| `LabelTree.ParentsComeFirst` | utils/gmail_label_manager.py:65-85 | with distinct names every parent stands before each of its children, at any depth |
| `LabelTree.UnseenKeepsPrecedence` | utils/gmail_label_manager.py:144-152 | keeping first occurrences keeps parents before children |
| `LabelTree.CreationOrderIsParentFirst` | utils/gmail_label_manager.py:142-152 | each label is created exactly once, every parent before its children, and the created set is the set of all label names |
| `LabelTree.DeletionOrderIsDeepestFirst` | utils/gmail_label_manager.py:377-382 | the order holds exactly the managed labels, deeper ones first |
| `LabelTree.PrefixesAdd` | utils/gmail_label_manager.py:377-381 | one matching prefix is enough to manage a label, no prefix manages none, and system labels never are |
| `LabelTree.RefusedIffBlocked` | utils/gmail_label_manager.py:384-396 | a deletion is refused iff a system label is nested below, however many managed ones were |
| `LabelTree.Mailbox.Delete` | utils/gmail_label_manager.py:366-370 | Gmail refuses to delete a label that still has labels below it |
| `LabelTree.Mailbox.DeleteManagedLabels` | utils/gmail_label_manager.py:366-399 | what is left is exactly the unmanaged labels and the managed ones with a system label below; only those were refused |
| `LabelTree.Mailbox.Create` | utils/gmail_label_manager.py:327-363 | an existing label is kept and its id answered, otherwise a new one is added |
| `LabelTree.Mailbox.BootstrapLabels` | utils/gmail_label_manager.py:117-166 | every configured label exists afterwards, nothing else is added, what deletion leaves stays, and the answer gives each configured name the id of a label of that name |
| `LabelTree.BootstrapIsIdempotent` | utils/gmail_label_manager.py:140-160 | bootstrapping twice gives the same label names as once, also when deletions are refused |
| `StableSort.SortOrders` | utils/rules_engine.py:120-123 | sorting permutes and orders |
| `StableSort.FirstOfSortIsBest` | utils/rules_engine.py:120-131 | the first match of the sorted list is the least match, earliest among ties |
| `StableSort.SortCommutesWithFilter` | utils/rules_engine.py:120-123 | stable sorting commutes with filtering |
| `Rules.ScanIsBest` | utils/rules_engine.py:119-131 | filter, sort and first match find the best active matching rule, or none iff none matches |
| `Rules.Evaluate` | utils/rules_engine.py:109-145 | the answer is the active matching rule of least rank, earliest among ties; none iff none matches; an error iff the best decisive rule raises |
| `Rules.PriorityDecides` | utils/rules_engine.py:119-123 | a decisive "high" rule wins over any other, then a "medium", then a "low", then the rest, the earliest among equals |
| `Rules.OnlyTheFieldMatters` | utils/rules_engine.py:32-38 | a condition looks only at its own field and fails, under every operator, when that is missing |
| `Rules.NegationsNegate` | utils/rules_engine.py:41-48 | "is_not" and "not_in" negate "is" and "in" on values that are there |
| `Rules.TextOperators` | utils/rules_engine.py:41-52 | equality implies prefix implies containment, and two-way prefix is equality |
| `Rules.ContainsIffBetween` | utils/rules_engine.py:49-50 | "contains" holds iff the text stands between some beginning and some end |
| `Rules.ItemsAdd` | utils/rules_engine.py:45-48 | being in two lists put together is being in one of them, and nothing is in the empty list |
| `Rules.OrderOperators` | utils/rules_engine.py:53-56 | "greater_than" and "less_than" are each other's mirror, monotone and exclusive, and raise iff a side is no number |
| `Rules.ConditionsAdd` | utils/rules_engine.py:126-129 | one more condition narrows a rule of mode "all" and widens any other; no condition matches in mode "all" only |
| `Rules.WinnerIsUnique` | utils/rules_engine.py:119-131 | at most one position holds the winning rule |
| `Rules.WinnerIsScanned` | utils/rules_engine.py:119-131 | the rule that wins by definition is the one the scan finds |
| `Rules.OnlyTheWinnerMatters` | utils/rules_engine.py:119-145 | deleting, deactivating, adding inactive or failing, or moving back any other rules does not change the answer |
| `Pipeline.RunGoesOn` | agents/orchestrator.py:249-286 | a run that has not ended has a next superstep |
| `Pipeline.EveryRunCompletes` | agents/orchestrator.py:217-288 | every run can be continued until it ends |
| `Pipeline.RanksRise` | agents/orchestrator.py:249-286 | every edge of the graph climbs in rank |
| `Pipeline.RunsEnd` | agents/orchestrator.py:217-288 | every run ends after at most six supersteps |
| `Pipeline.RunsHaveThisShape` | agents/orchestrator.py:104-286 | a complete run that intake does not dead-letter labels first and then takes exactly one of routing and human review; audit runs in the fourth superstep and, after routing, again in the last |
| `Pipeline.ParallelMergeIsConfluent` | state/shared_state.py:12-29 | two updates that write fresh status keys give the same statuses, flags and multiset of events in either order, and both statuses survive |
| `Pipeline.StatusSurvivesIffFresh` | state/shared_state.py:12-17 | the status folded in first survives iff the snapshot held no other value for its key |
| `Pipeline.DeadlineConfluentIff` | state/shared_state.py:21-23 | the deadline is independent of the order iff it was set, one update has none, or both agree |
| `Pipeline.DeadlineAgreesIff` | agents/orchestrator.py:40-74 | all runs of `run_pipeline` with one environment end with the same deadline iff classification sets none, the tenant has no default, or both are the same instant; both orders are constructed |
| `Pipeline.DeadlineStays` | state/shared_state.py:21-23 | no superstep after the fan-out changes the deadline |
| `Pipeline.PartnersCommute` | agents/orchestrator.py:249-286 | the updates of two nodes that share a superstep can be folded in in either order, but for the deadline and the order of events |
| `Pipeline.RunsAgree` | agents/orchestrator.py:217-348 | whole-run confluence: with the same environment all runs of `run_pipeline` take the same path and end in the same statuses, flags, error and multiset of events, with the same audit log |
| `Pipeline.RunsGrow` | state/shared_state.py:12-35 | in every run a set deadline, step or error never changes, flags stay up, no event leaves the queue and no status key disappears |
| `Pipeline.NeverDeadLetter` | agents/orchestrator.py:306-343 | a run started by `run_pipeline` never goes to dead letter |
| `Pipeline.StepNeverMoves` | state/shared_state.py:33-35 | `current_step` never changes in a run, whatever it starts from |
| `Pipeline.ReviewedIff` | agents/orchestrator.py:266-274 | human review takes exactly the emails with an empty body or a low confidence |
| `Pipeline.FinalOutcome` | agents/orchestrator.py:306-348 | every run ends with the timer started, no alert, the escalation and review flags classification decided, the error of intake or else of classification, and one retry for each of the two that failed |
| `Pipeline.DeadLetterIff` | agents/orchestrator.py:104-115 | from any start, the run goes to dead letter, and ends there, iff an error that is not empty is in the state after at least three failures |
| `Pipeline.QueueGrowth` | agents/audit_agent.py:225-240 | after the first audit only the routing events are added |
| `Pipeline.QueueConserves` | state/shared_state.py:130 | over every run the queue ends with what it started with and every event any node emitted, each as often as it was emitted |
| `Pipeline.EventsOfARun` | agents/orchestrator.py:249-286 | the queue of a complete run grows by intake's events if it succeeded, classification's, the SLA node's and, without review, routing's |
| `Pipeline.AuditSeesEverything` | agents/audit_agent.py:225-240 | the snapshot of the last audit is, as a multiset, the initial queue and every event any node of the run emitted; under review each is written once, after routing the earlier ones twice |
| `Pipeline.NoStatusIsLost` | agents/orchestrator.py:62-97 | for every folding order, and although each node writes back its snapshot, the final state holds the status every node of the run reported |
| `Pipeline.NoStatusIsInvented` | agents/orchestrator.py:62-97 | every status in the state was reported by a node of the run |
| `Pipeline.NoConflictingWrites` | state/shared_state.py:65-146 | nodes that share a superstep never write the same key without a reducer |
| `DeepMerge.Merge` | utils/domain_loader.py:330-337 | the loop over the copy computes the merge, in whatever order the overrides list their keys |
| `DeepMerge.Merged` | utils/domain_loader.py:330-337 | the keys are the union at each merged level |
| `DeepMerge.MergedByPaths` | utils/domain_loader.py:330-337 | at every path the merge holds the override where it decides, nothing below a plain override, and the base elsewhere |
| `DeepMerge.PathsDetermine` | utils/domain_loader.py:330-337 | a configuration is determined by its paths, so the path law is a complete specification |
| `DeepMerge.EmptyIsIdentity` | utils/domain_loader.py:330-337 | the empty configuration is a two-sided identity |
| `DeepMerge.MergeIsIdempotent` | utils/domain_loader.py:330-337 | merging the same overrides twice is merging once |
| `DeepMerge.LayersByPaths` | utils/domain_loader.py:330-337 | two ways of stacking overrides differ at a path iff it is reopened: the base holds something there, neither layer does, and above it the second layer replaces a plain value of the first by a dictionary |
| `DeepMerge.OpenIff` | utils/domain_loader.py:330-337 | of a path the first layer hides and the second does not, the merge hides it iff no dictionary of the second replaces a plain value of the first above it |
| `DeepMerge.AssociativeIff` | utils/domain_loader.py:330-337 | merging is associative iff no path is reopened, a condition on the three inputs |
| `DeepMerge.NotAssociative` | utils/domain_loader.py:330-337 | a plain value under a reopened dictionary is a counterexample |
| `Retry.Wrapper` | utils/retry_utils.py:46-86 | returns the first value iff one of the first retries + 1 attempts returns before an uncaught exception, after exactly that many calls; sleep is at most the sum of the capped delays |
| `Retry.DelaysDoubleUpToTheCap` | utils/retry_utils.py:57 | the first delay is the base, each doubles the one before, none exceeds the cap |
| `Retry.CappedBackoff` | utils/retry_utils.py:57 | with a base above the cap every delay is the cap |
| `Retry.CallGroq` | mcp_tools/llm_client.py:205-242 | the loop uses the first configured model that works and acquires once per model tried |
| `Retry.Position` | mcp_tools/llm_client.py:208-214 | every model kept stands, not empty, among the candidates |
| `Retry.ConfiguredKeepsOrder` | mcp_tools/llm_client.py:208-214 | the models kept are in the order of the candidates |
| `Retry.ConfiguredKeepsAll` | mcp_tools/llm_client.py:208-214 | no candidate that is there is left out |
| `Retry.FirstWorking` | mcp_tools/llm_client.py:217-237 | the first model that works, or none iff none works |
| `Retry.Tries` | mcp_tools/llm_client.py:217-237 | every model tried before the last failed, and the last worked or was the last there is |
| `Retry.AllFail` | mcp_tools/llm_client.py:217-242 | when no model ever works, every attempt acquires once for each of them |
| `Retry.FirstAlwaysWorks` | mcp_tools/llm_client.py:217-228 | when the first model always works, every attempt acquires once |
| `Retry.SettledIffFirstAnswer` | utils/retry_utils.py:48-68 | the decorated attempts settle exactly at the first one in which a model answers and the reply can be read |
| `Retry.Acquisitions` | mcp_tools/llm_client.py:219 | a number of attempts acquires at most as many slots as there are models for each |
| `Retry.ClassifyAndScore` | agents/classification_agent.py:66-102 | one classification succeeds iff one of four attempts does, with the first that does, acquiring exactly the slots of the attempts made, at most 12, after 0, 1, 3 or 7 s of backoff |
| `FolderMerge.DigitsReadBack` | enterprise-mcp-server/app/domains/document_ai/tools_document.py:483-486 | a counter written in decimal reads back as itself, without a leading zero |
| `FolderMerge.DigitsAreInjective` | enterprise-mcp-server/app/domains/document_ai/tools_document.py:483-486 | different counters give different digits |
| `FolderMerge.CandidatesDiffer` | enterprise-mcp-server/app/domains/document_ai/tools_document.py:476-486 | candidate names are injective in the counter |
| `FolderMerge.TriedAreTaken` | enterprise-mcp-server/app/domains/document_ai/tools_document.py:484-486 | a finite folder cannot hold all candidates, so the search ends |
| `FolderMerge.FreeFrom` | enterprise-mcp-server/app/domains/document_ai/tools_document.py:482-486 | a first free candidate exists in every folder |
| `FolderMerge.KeepsItsName` | enterprise-mcp-server/app/domains/document_ai/tools_document.py:478-486 | a file keeps its name if that is free, gets "_1" before its suffix if only that is taken, and always its directory and stem |
| `FolderMerge.Output.SafeCopy` | enterprise-mcp-server/app/domains/document_ai/tools_document.py:476-489 | terminates on any folder, takes the first free candidate and writes only there |
| `FolderMerge.Output.MergeFolders` | enterprise-mcp-server/app/domains/document_ai/tools_document.py:255-289 | the loop refines the recursive walk, counts and errors included |
| `FolderMerge.MergePlaces` | enterprise-mcp-server/app/domains/document_ai/tools_document.py:268-285 | after every prefix of the walk, no earlier file is touched and every copied source has a place of its own |
| `FolderMerge.MergeCounts` | enterprise-mcp-server/app/domains/document_ai/tools_document.py:279-285 | copied + errors is the number of allowed files walked so far |
| `FolderMerge.PlacedInTurn` | enterprise-mcp-server/app/domains/document_ai/tools_document.py:268-283 | each copied file went to the first of its names that was free when its turn came |
| `FolderMerge.ErrorsNameUnreadable` | enterprise-mcp-server/app/domains/document_ai/tools_document.py:284-285 | the errors name, in order, exactly the allowed files that could not be read |
| `FolderMerge.MergeIsConservative` | enterprise-mcp-server/app/domains/document_ai/tools_document.py:268-285 | no existing file is touched, every copied source has a place of its own with its content under a candidate name, nothing else is added, and copied + errors is the number of allowed files |

## Left out

- HTTP, Slack, Gmail, database, Groq and Gemini calls: each is an answer chosen by the environment.
- A persist that raises is assumed to have inserted nothing, and an email row is found or not by the environment.
- The inside of an audit event: events are compared as wholes, as the dictionaries are.
- `_get_limiter`: one limiter per provider name, the first quota wins; and concurrent callers of one limiter inside `acquire`, which takes no lock.
- RateLimit.ClientHistory: assumes clock readings that do not go backwards, because `time.time()` may; the method itself assumes nothing about the clock.
- `get_cached` of the MLflow router: a single-key cache with a time to live.
- RateLimit.RateLimiter.Acquire: assumes that a sleep lasts at least as long as asked and a monotone clock, as `time.monotonic` and `time.sleep` promise.
- SLA messages, channels and direct messages: only the instant of an alert is modelled; a failing Slack or Gmail call is swallowed by the code.
- Sla.AlertSpacing: one worker, because the lookup and the setting of a key are two commands and two workers can alert together.
- Concurrent edits of the emails table by people and by other agents between the query and an update; the retry loop around the database connection; the time to live of the dashboard snapshot.
- Sla.Monitor.CheckEmailSla: percentages are exact reals, not floating point.
- Job timestamps, logging, and records that do not decode as JSON.
- A worker process that crashes or is cancelled in the middle of a job.
- `ensure_label`, `get_label_name`, `TYPE_MAP` and `PRIORITY_MAP`: the target is given by its category and priority.
- LabelLease.OneManagedLabel: the lease is not cut short, edits by people do not add managed labels, and a message that starts with two managed labels is outside it (Gmail decides what adding and removing one label in one request does).
- `_resolve_label`, `_build_color_map`, aliases and the second `apply_classification_label` in utils/gmail_label_manager.py: table lookups.
- LabelTree.Mailbox.BootstrapLabels: no API failures other than a refused deletion and an existing label.
- The texts of the agents' nodes: a node is what it returns for the keys the graph depends on; keys outside the declared state and exceptions that escape a node, which abort the run, are not modelled.
- Pipeline.RunsHaveThisShape: LangGraph only as supersteps over one snapshot with reducers; checkpoints and streaming are not modelled. What `current_step` holds when intake runs is a parameter, because the library may start that channel with an empty string.
- `load_rules` with its Redis cache: the rules are given. Text is compared after lower-casing, which is done before the model starts.
- `get_domain_config`: keyword detection and file lookup.
- Functions under the retry decorator are synchronous: a coroutine function returns at once and is never retried, so nothing is stated about it. Delays are not negative.
- Directory creation, path validation and the order of `os.walk`: the walk is given as a list; a failed copy leaves no file; the output is disjoint from the sources.
- LLM output normalisation, prompts, PII patterns, the user interface, API wiring and metrics.
