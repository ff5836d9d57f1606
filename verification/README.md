# StartFlow: run events, approvals and the services around them, verified

An AI run in StartFlow emits numbered events. The AI service numbers them and posts them to the
backend over a network that loses, delays, repeats and reorders requests and answers. The backend
appends them to one run's log in a serializable transaction, interleaved with the decisions of an
approver. A server-side stream merges the stored history with live events, a browser client
reads that stream as text, reconnects and removes duplicates, and the run page merges what it
receives with REST snapshots. This project models that path as a chain of step systems, proves
what holds over every schedule, and proves the methods of the services against the step functions
those theorems are about. Beside it stand the next-best-action pipeline, the risk arithmetic and
the synthesised decision, account management mirrored in Keycloak, redaction, and the product
policy.

How the modules build on each other:

- `RunEvents`, `Redaction`, `RunStore`: events and their keys, redaction, the run row with the two
  transactions that write it.
- `ApprovalSafety`, `RowHistory`: every interleaving of those two transactions, and what the row then
  says about its log.
- `Decision`, `RiskBand`, `Runner`: what a run emits and why.
- `Delivery`, `FailedRuns`: producer, network, backend and approver together, and when a failed run
  does not stay failed.
- `SseParser`, `ServerStream`, `StreamClient`, `Timeline`, `PageFlags`: the way to the screen.
- `EndToEnd`, `LivePage`: all of the above composed; the page shows a prefix of what was emitted, and a
  live event does reach it.
- `NbaPipeline`, `Identity`, `Policy`: the other services.
- `Common`, `Text`, `Sorting`: datatypes, string operations, stable sorting.

Where the code differs from what one would expect of it, the model follows the code:

- 409 means both "already stored" and "wrong sequence". While no publish has raised, treating it as
  delivered is sound (`Delivery.AcknowledgedMeansStored`); after one has raised, an acknowledged
  failure event can be missing (`Delivery.AcknowledgedFailureCanBeMissing`), and it is stored exactly
  if it was processed while the event before it was stored (`Delivery.FailureStoredExactly`).
- FAILED is not final: a producer can overtake the dispatch failure
  (`Delivery.DispatchFailureIsOvertaken`), and a failed run can be approved
  (`FailedRuns.FailedRunIsApproved`). `FailedRuns.FailedIsLeftExactly` and
  `FailedRuns.StaysFailedExactly` say when it is left, for every row and every schedule.
- The stream parser normalises its own remainder again, so text with CR CR LF is read differently
  in pieces; this is the only such text (`SseParser.ResumptionExactlyWithoutCrCrLf`).
- A live event published late is dropped for good (`ServerStream.LateEventIsLost`, exactly when:
  `ServerStream.LateEventsAreDropped`).
- The run page does not guard reload answers by a generation (`Timeline.StaleReloadIsShown`, exactly
  when: `Timeline.ShowsAskedExactly`).
- Two drafts for one customer in one commit get the same version
  (`NbaPipeline.TwinDraftsShareVersion`, exactly when: `NbaPipeline.VersionsExactly`).
- Compensating an enable or disable request that changed nothing changes something, a new account
  whose audit entry fails loses its user, and for an account without a name there is none to restore
  (`Identity.MirrorsExactly`); enabling does not look at the branch
  (`Identity.BranchesStayOpenExactly`); a user that cannot be looked up after its creation is never
  removed, nor is one whose removal gets lost (`Identity.CreateCompensates`); compensating an update
  overwrites what Keycloak knew differently (`Identity.UpdateCompensates`); a failed remote update is
  not compensated (`Identity.FailedUpdateUntouchedExactly`).
- After a decision a late completion makes the run PARTIAL or COMPLETED, or has it wait again,
  whatever was decided (`RowHistory.StatusAfterDecision`).
- Rounding moves the written thresholds 0.8, 4 and 3 to 0.795, 4.005 and 3.005
  (`RiskBand.ExactThresholds`).
- Given a partial set of results, the synthesizer alone can answer a further failure with a higher
  confidence (`Decision.FurtherFailureRaisesExactlyWhen`); the confidences its specialists give are
  never that low, so through the workflow it does not happen
  (`Decision.WorkflowNeverRaisesConfidence`).

## Model

| member | source | states |
|---|---|---|
| RunEvents.EventFactory.Create | ai-service/src/api/events.py:23-41 | each call takes the next number and derives key and id from run, number and type |
| RunEvents.KeyDeterminesOrigin | ai-service/src/api/events.py:29-32 | equal idempotency keys mean the same run, the same position and the same event type |
| RunEvents.DispatchKeyIsForeign | backend/src/modules/runs/runs.service.ts:145-157 | the dispatch-failure key never collides with a key of the producer |
| RunEvents.ParseDecimalInverts | backend/src/modules/events/events.controller.ts:25-26 | a sequence number rendered as an id and parsed again is the same number |
| Redaction.RedactIsSafe | backend/src/common/logging/redaction.ts:13-32 | the output holds no unredacted value under a sensitive key at any depth, and its depth is bounded |
| Redaction.RedactScrubs | backend/src/common/logging/redaction.ts:20-22 | with an idempotent scrubber every string in the output is scrubbed |
| Redaction.RedactFixpoints | backend/src/common/logging/redaction.ts:13-32 | redaction leaves a value alone if and only if it is clean and scrubbed |
| Redaction.RedactIdempotent | backend/src/common/logging/redaction.ts:13-32 | redacting twice is redacting once, for every JSON tree and depth |
| Redaction.WordsAreThePattern | backend/src/common/logging/redaction.ts:1-2 | the listed sensitive words are exactly the spellings of the alternatives, with a hyphen, an underscore or nothing between two parts |
| Redaction.AuditEqualsStoredPayload | backend/src/modules/audit/audit.service.ts:26-38 | the second redaction changes nothing: an audit entry is the stored payload with the three keys overridden |
| RunStore.RunServices.Record | backend/src/modules/events/events.service.ts:31-92 | which of 201, 404, 409 and 422 an event gets; it is stored if and only if its run exists, its key and id are new, its number is the next one and, in a multi-agent run, a plan has one task for each specialist; on success row, log, audit and publication change together, otherwise nothing does |
| RunStore.RunServices.ApplyToRow | backend/src/modules/events/events.service.ts:102-186 | the branches of the switch, each written out step by step, compute the effect that the row theorems below are about, and refuse exactly the bad multi-agent plans |
| RunStore.RunServices.UpdateTaskStatus | backend/src/modules/events/events.service.ts:246-259 | only an existing task is updated, and its result only when one is given |
| RunStore.RunServices.UpsertPlanTasks | backend/src/modules/events/events.service.ts:209-244 | the loop of upserts computes the specified task table |
| RunStore.MultiAgentPlanIsPermutation | backend/src/modules/events/events.service.ts:188-207 | the length and set tests accept exactly the permutations of the three specialists |
| RunStore.TakenExactly | backend/src/modules/events/events.service.ts:31-92 | created, refused as a plan or conflicting, each if and only if a condition on the log, the number and the plan's multiset of agents |
| RunStore.RecordedExactly | backend/src/modules/events/events.service.ts:31-92 | the same from the service: event ids are unique over all runs |
| RunStore.UpsertKeepsAndFirstWins | backend/src/modules/events/events.service.ts:209-244 | existing tasks survive a repeated plan, and the first accepted item with a new id creates its task |
| RunStore.AgentNamesAreInverse | backend/src/modules/events/events.service.ts:225-244 | a stored agent name names the agent it was written for, and no other text does |
| RunStore.DecisionFound | backend/src/modules/events/events.service.ts:144-149 | the decision of a synthesis: under its own key, else under the second one, else the whole payload; null counts as missing |
| RunStore.AuditTellsEvent | backend/src/modules/events/events.service.ts:68-79 | the audit entry of a recorded event names its type, id, number and agent |
| RunStore.RunServices.Decide | backend/src/modules/approvals/approvals.service.ts:20-99 | a decision is taken exactly when awaited, at the expected version and, for APPROVE, with a valid proposal; every refusal rolls back completely |
| RunStore.AuditTellsDecision | backend/src/modules/approvals/approvals.service.ts:78-85 | the audit entry of a decision says what the row says: approved or rejected, with the id of the new ticket, or null, and the reason |
| ApprovalSafety.ApprovalSafety | backend/src/modules/approvals/approvals.service.ts:28-87 | over every interleaving: at most one approval and one ticket, a ticket exactly for APPROVE, version equal to the number of approvals, approval only after a request |
| ApprovalSafety.TicketProvenance | backend/src/modules/approvals/approvals.service.ts:67-76 | every ticket carries the proposal of a recorded synthesis event |
| ApprovalSafety.CompletionNeedsHuman | backend/src/modules/events/events.service.ts:159-174 | COMPLETED or PARTIAL without an approval requires a completion recorded before any approval request |
| ApprovalSafety.PrematureCompletionFinishes | backend/src/modules/events/events.service.ts:166-171 | and such a completion does finish the run, exactly when no request was recorded |
| ApprovalSafety.StepPreserves | backend/src/modules/events/events.service.ts:35-83 | each transaction keeps the log, approval, request, provenance and completion invariants |
| ApprovalSafety.StepAppends | backend/src/modules/events/events.service.ts:46-66 | a transaction appends at most one event, carrying the next number, and never rewrites the log |
| ApprovalSafety.DecidedOnce | backend/src/modules/approvals/approvals.service.ts:34-36 | after a decision every further decision is refused, whatever is recorded in between |
| RowHistory.RowIsDictatedByLog | backend/src/modules/events/events.service.ts:102-186 | over every interleaving plan, decision and results are those of the last event carrying one, and until a decision the status is the one the last status event dictates |
| RowHistory.StatusAfterDecision | backend/src/modules/approvals/approvals.service.ts:44-66 | after a decision, whatever is recorded later: its approval stays the only one, with the actor, the trimmed reason and the version; the approval state is its verdict until an approval is requested again; the status is COMPLETED until an event sets another one and then the one the last status event since the decision dictates |
| Text.TrimStrips | backend/src/modules/approvals/approvals.service.ts:62 | the trimmed reason neither begins nor ends with white space, and is what stands between white space in the given one |
| RowHistory.TaskIsDictatedByLog | backend/src/modules/events/events.service.ts:209-259 | a task exists exactly if it was planned; its status is that of the last event naming it since, its result the payload of the last agent completion naming it since |
| Runner.Publish | ai-service/src/clients/callback.py:50-74 | returns normally if and only if some attempt within the limit answers 200, 201, 202, 204 or 409 and every earlier one ended in a transport error, 429 or a code of at least 500; otherwise it stops at the first refusal or at the limit; and how many posts that takes |
| Runner.ReactsExactly | ai-service/src/clients/callback.py:59-74 | an answer counts as delivered exactly if it is one of the five codes, and is tried again exactly on a transport error, 429 or a code of at least 500 |
| Runner.RunExecution.ExecuteRun | ai-service/src/api/runner.py:22-124 | the emitted events are the script, or the script up to the undelivered event followed by one failure event |
| Runner.RunExecution.EmitBlock | ai-service/src/api/runner.py:47-78 | one specialist's events: started, tools, citations, completed, in this order |
| Runner.RunExecution.EmitTools | ai-service/src/api/runner.py:55-60 | one event per tool call, in order |
| Runner.RunExecution.EmitCitations | ai-service/src/api/runner.py:61-70 | one event per distinct citation id, in order of first occurrence |
| Runner.ScriptGrammar | ai-service/src/api/runner.py:32-108 | start first, plan second, synthesis, approval request and completion last and nowhere else |
| Runner.ClosesOnce | ai-service/src/api/runner.py:96-124 | what a run emits closes exactly once and ends there; only a completion that could not be delivered is followed by a failure |
| Runner.ScriptHoldsExecutions | ai-service/src/api/runner.py:47-78 | a script holds exactly one start and one completion of every execution, in order, and all of their tool events and first citations, in order |
| Runner.BlockGrammar | ai-service/src/api/runner.py:47-78 | one execution is its start, its tool events one for one, its citations, its completion |
| Runner.CitationsAreFirsts | ai-service/src/api/runner.py:61-70 | the emitted citations stand at exactly the positions whose id did not occur before, in increasing order |
| Runner.AgentEventsMoveTask | backend/src/modules/events/events.service.ts:246-259 | recording the start and the completion of an execution moves its own task, and no other, to running and to the end that its result names |
| Runner.CompletionSetsStatus | backend/src/modules/events/events.service.ts:159-174 | recording a completion leads to the status that the event itself names, or to AWAITING_APPROVAL while an approval is awaited |
| Runner.RunsApi.StartRun | ai-service/src/api/runs.py:36-51 | a key is bound once; a bound key schedules nothing and answers by comparing run ids |
| Runner.ProducersCountKeys | ai-service/src/api/runs.py:36-51 | a run has exactly as many producers as keys were bound to it |
| Runner.FirstRequestBinds | ai-service/src/api/runs.py:36-51 | a key, given by the caller or naming the run, is bound exactly if some request used it, and to the run of the first one that did |
| Runner.OneProducerPerRun | ai-service/src/api/runs.py:36-51 | without caller-supplied keys a run gets at most one producer |
| Delivery.RealServicesAreFaithful | ai-service/src/api/events.py:29-41 | the event factory and the redacting store meet what the protocol theorems assume of them |
| Delivery.PublishIsTheSteps | ai-service/src/clients/callback.py:59-74 | the protocol steps of one publish acknowledge the event exactly when some attempt within the limit is accepted and every earlier one leaves it open |
| Delivery.PrefixSafety | backend/src/modules/events/events.service.ts:31-92 | under loss, delay, duplication and reordering the log is gap-free and duplicate-free, and a prefix of what was emitted unless a dispatch failure came first |
| Delivery.OnlyFirstPositionMayDiffer | backend/src/modules/runs/runs.service.ts:145-163 | with a dispatch failure only position one may differ from what was emitted |
| Delivery.AcknowledgedMeansStored | ai-service/src/clients/callback.py:59-74 | while every publish has returned normally the log equals the whole emitted sequence |
| Delivery.FailureEventStored | ai-service/src/api/runner.py:109-124 | after an exception at event k: 1 to k-1 are stored, the failure event is stored if and only if it was served while k was, and an acknowledged one is missing only if k itself was undelivered |
| Delivery.FailureStoredExactly | ai-service/src/api/runner.py:109-124 | over every schedule the failure event ends up stored if and only if one of its requests was processed when event k was stored, and so for every single request |
| Delivery.AcknowledgedFailureCanBeMissing | ai-service/src/clients/callback.py:69-74 | a schedule in which the failure event is acknowledged by 409 and the log is empty |
| Delivery.DispatchFailureIsOvertaken | backend/src/modules/runs/runs.service.ts:145-163 | a schedule in which a run goes from FAILED to PLANNING: the dispatch failure holds position one and the producer's second event is accepted |
| FailedRuns.FailedIsLeftExactly | backend/src/modules/events/events.service.ts:102-186 | every row that is FAILED is left by exactly these transactions: an accepted event of five kinds, or a decision that may be taken |
| FailedRuns.StaysFailedExactly | backend/src/modules/runs/runs.service.ts:145-163 | over every schedule of producer, network, backend and approver a failed run stays failed exactly as long as no such transaction goes through |
| FailedRuns.UntroubledRunIsStored | ai-service/src/api/runner.py:22-108 | posting, storing and acknowledging event after event stores the whole script, of a single-agent run and of a multi-agent run |
| FailedRuns.RealPlansSuit | backend/src/modules/events/events.service.ts:188-207 | the plan of a real multi-agent run, redacted, is one the backend takes |
| FailedRuns.FailedRunIsApproved | backend/src/modules/approvals/approvals.service.ts:34-87 | a schedule in which a failed run is approved: its completion could not be acknowledged, its approval is still awaited, and approving it completes the run and creates a ticket |
| Delivery.NoCompletionWithoutHuman | ai-service/src/api/runner.py:85-108 | under every schedule a COMPLETED or PARTIAL run has an approval record |
| Delivery.ProposalSurvivesRedaction | backend/src/modules/approvals/approvals.service.ts:101-113 | the proposal read from the redacted payload is the scrubbed proposed action of the decision, and none exists otherwise |
| Delivery.PlanSurvivesRedaction | backend/src/modules/events/events.service.ts:188-207 | a plan with one task for each specialist is still one after redaction, when the scrubber leaves the three names alone |
| Delivery.TicketComesFromDecision | backend/src/modules/approvals/approvals.service.ts:67-76 | under every schedule a ticket carries the proposed action of this run's own decision |
| Delivery.HardStopNeverGetsTicket | ai-service/src/graph/synthesizer.py:40-43 | a run decided by a compliance hard stop never acquires a ticket |
| Delivery.TicketFollowsStatus | backend/src/modules/approvals/approvals.service.ts:67-76 | under every schedule the ticket of a multi-agent run proposes what its status stands for: the credit proposal only after RECOMMEND, the partial or the ordinary review after NEEDS_REVIEW, nothing after BLOCKED |
| Delivery.BaselineTicketAsksForReview | ai-service/src/graph/workflow.py:101-130 | a single-agent run can only lead to a ticket with the baseline's review action |
| Sorting.SortSorts | backend/src/modules/events/event-stream.service.ts:55 | sorting orders the sequence and permutes it |
| Sorting.SortStable | backend/src/modules/nba/assessment/policy.service.ts:99-102 | elements that compare equal keep their order |
| ServerStream.Subscription.OnLive | backend/src/modules/events/event-stream.service.ts:30-39 | a live event is kept back until the history is loaded, then delivered above the watermark |
| ServerStream.Subscription.OnHistory | backend/src/modules/events/event-stream.service.ts:46-62 | history rows first, then the events kept back in order of sequence, each above the watermark; nothing once closed |
| ServerStream.EventStreamService.Publish | backend/src/modules/events/event-stream.service.ts:13-20 | every attached subscriber gets the event; a terminal event ends and removes the channel |
| ServerStream.EventStreamService.Stream | backend/src/modules/events/event-stream.service.ts:22-41 | a new subscription starts behind the requested position and is attached to the run's channel |
| ServerStream.EventStreamService.Unsubscribe | backend/src/modules/events/event-stream.service.ts:66-69 | the subscription takes no more callbacks and leaves its channel; the other subscriptions stay as they are |
| ServerStream.ResumesBehind | backend/src/modules/events/event-stream.service.ts:80-84 | the id of a frame sent back as Last-Event-ID resumes exactly behind that frame |
| ServerStream.AlwaysOrdered | backend/src/modules/events/event-stream.service.ts:22-70 | under every interleaving of subscribe, query, commit and publish, in any order, deliveries increase strictly above the requested position |
| ServerStream.ReceivesConsecutively | backend/src/modules/events/event-stream.service.ts:22-70 | with publishes in sequence order the deliveries are exactly the consecutive log entries, none missing that was published up to the first terminal event |
| ServerStream.LateEventsAreDropped | backend/src/modules/events/event-stream.service.ts:35-38 | nothing above the watermark is lost if and only if it is published in increasing order |
| ServerStream.LateEventIsLost | backend/src/modules/events/event-stream.service.ts:35-38 | an input on which one is lost: event 2 is published before event 1 and is all that is delivered |
| ServerStream.PendingOrderIsRepaired | backend/src/modules/events/event-stream.service.ts:54-61 | while the history is being read the order of publishing does not matter |
| SseParser.ParseSseFrames | frontend/src/app/core/streaming/run-event-stream.service.ts:57-76 | the loops over chunks and lines compute the specified frames and remainder |
| SseParser.SplitAnywhere | frontend/src/app/core/streaming/run-event-stream.service.ts:167-174 | text without CR CR LF can be split anywhere, also between CR and LF, without changing frames or remainder |
| SseParser.ChunkInvariance | frontend/src/app/core/streaming/run-event-stream.service.ts:167-174 | any number of chunks gives the frames and the remainder of the whole text |
| SseParser.CrCrLfBreaksResumption | frontend/src/app/core/streaming/run-event-stream.service.ts:58 | right behind CR CR LF even an empty chunk changes the remainder |
| SseParser.ResumptionExactlyWithoutCrCrLf | frontend/src/app/core/streaming/run-event-stream.service.ts:57-76 | every split of every beginning of a text is harmless if and only if the text holds no CR CR LF |
| SseParser.WireRoundTrip | frontend/src/app/core/streaming/run-event-stream.service.ts:57-76 | written frames arriving in any chunks, however far, are read back as a beginning of what was written, and as all of it at the end |
| StreamClient.RunEventStream.OnEvent | frontend/src/app/core/streaming/run-event-stream.service.ts:179-193 | resets the retry counter, moves the last event id, and delivers the event unless its id or sequence was seen |
| StreamClient.RunEventStream.OnBody | frontend/src/app/core/streaming/run-event-stream.service.ts:155-217 | the reading loop handles the frames of all chunks up to the first terminal event and then stops, waits or ends with the caller |
| StreamClient.RunEventStream.Try | frontend/src/app/core/streaming/run-event-stream.service.ts:103-227 | one attempt: token, request with its header, status, body, and which failure is retried |
| StreamClient.RunEventStream.Run | frontend/src/app/core/streaming/run-event-stream.service.ts:85-232 | the retry loop computes the specified deliveries, headers, errors, waits and connection states |
| StreamClient.AttemptsAreOneReading | frontend/src/app/core/streaming/run-event-stream.service.ts:99-228 | reconnecting any number of times delivers what one uninterrupted reading of the same frames would deliver |
| StreamClient.DeliversAtMostOnce | frontend/src/app/core/streaming/run-event-stream.service.ts:85-232 | at most one delivery per id and sequence, none of a persisted event, and nothing behind the first terminal event, which need not be new: the deliveries are those of the frames up to any terminal one |
| StreamClient.BackoffIsBounded | frontend/src/app/core/streaming/run-event-stream.service.ts:246-248 | a wait depends only on the failures in a row since an event last came in: 1200, 2400, 4800, then 9600 ms |
| StreamClient.AnnouncesProperly | frontend/src/app/core/streaming/run-event-stream.service.ts:91-100 | announced connection states start with connecting, never repeat, and end with closed, which comes only last |
| StreamClient.RaisesExactly | frontend/src/app/core/streaming/run-event-stream.service.ts:218-227 | the stream raises if and only if a fatal failure comes behind nothing but recoverable ones |
| StreamClient.FirstRequest | frontend/src/app/core/streaming/run-event-stream.service.ts:88-124 | the first request asks for what is behind the given position, or else behind the highest persisted sequence |
| StreamClient.LastEventIdFromServer | frontend/src/app/core/streaming/run-event-stream.service.ts:182-187 | against the server of ServerStream, under any schedule behind every connection and wherever its text is cut, the last event id is the highest sequence seen |
| StreamClient.DeliversConsecutively | frontend/src/app/core/streaming/run-event-stream.service.ts:85-232 | against a gap-free server whose events the client can read the deliveries are the consecutive log entries behind the highest persisted one |
| StreamClient.EveryLogIsReadable | frontend/src/app/core/streaming/run-event-stream.service.ts:179-181 | for every log there are a writer and a reader, one that accepts nothing else, with which its events are read back |
| Timeline.MergeEvents | frontend/src/app/features/runs/run.facade.ts:162-174 | the filter with its two sets computes the specified merge |
| Timeline.MergeIsTimeline | frontend/src/app/features/runs/run.facade.ts:162-174 | merging any two lists gives strictly increasing sequences, distinct ids and nothing new |
| Timeline.MergeIsIdempotent | frontend/src/app/features/runs/run.facade.ts:162-174 | merging again anything merged before changes nothing, for all inputs |
| Timeline.MergeIsUnion | frontend/src/app/features/runs/run.facade.ts:162-174 | of coherent events none is lost: a merge holds exactly the union |
| Timeline.MergeOrderDoesNotMatter | frontend/src/app/features/runs/run.facade.ts:162-174 | the timeline does not depend on batching or order and keeps every existing event |
| Timeline.RunFacade.Load | frontend/src/app/features/runs/run.facade.ts:61-69 | a load takes a new generation, aborts the stream and clears the page |
| Timeline.RunFacade.Loaded | frontend/src/app/features/runs/run.facade.ts:71-84 | only the answer to the latest load is applied; an unfinished run opens one stream, which starts from the events shown (`Timeline.LoadOpensStream`) |
| Timeline.RunFacade.Reloaded | frontend/src/app/features/runs/run.facade.ts:87-102 | a reload answer is applied whatever was loaded in the meantime |
| Timeline.RunFacade.Apply | frontend/src/app/features/runs/run.facade.ts:105-114 | an older version contributes its events only; a finished run aborts the stream |
| Timeline.RunFacade.Event | frontend/src/app/features/runs/run.facade.ts:140-144 | only the live stream's events are merged, and which of them ask for a reload |
| Timeline.RunFacade.ConnectionChanged | frontend/src/app/features/runs/run.facade.ts:132-136 | only the live stream sets the connection state, and going online clears a retryable stream error only |
| Timeline.RunFacade.StreamFailed | frontend/src/app/features/runs/run.facade.ts:137-139 | only the live stream's errors are shown |
| Timeline.RunFacade.OnDestroy | frontend/src/app/features/runs/run.facade.ts:116-121 | the first call takes a new generation and aborts the stream, later ones change nothing |
| Timeline.AlwaysTimeline | frontend/src/app/features/runs/run.facade.ts:105-174 | whatever is called and answered, the shown events are strictly ordered with distinct ids |
| Timeline.AlwaysOneStream | frontend/src/app/features/runs/run.facade.ts:61-134 | a live stream belongs to the latest load of an unfinished run, and the version of a shown run never decreases |
| Timeline.LoadOpensStream | frontend/src/app/features/runs/run.facade.ts:71-84 | after any sequence of calls, an answer with a snapshot to the latest load leaves a live stream of that load if and only if the run shown is not finished |
| Timeline.NewestIsShown | frontend/src/app/features/runs/run.facade.ts:105-114 | while only one run is answered with, the run shown is the newest snapshot brought since the load began, and of equal versions the last |
| Timeline.ShowsWhatWasBrought | frontend/src/app/features/runs/run.facade.ts:162-174 | for coherent events the page shows exactly those that snapshots and the live stream brought since the load began |
| PageFlags.LoadingExactly | frontend/src/app/features/runs/run.facade.ts:61-85 | the page is loading exactly while the latest load has not been answered |
| PageFlags.FailedExactly | frontend/src/app/features/runs/run.facade.ts:61-102 | it shows an error exactly if an answer failed and neither a new load nor a successful reload came since |
| PageFlags.StreamErrorExactly | frontend/src/app/features/runs/run.facade.ts:132-158 | it shows an error of the stream exactly if the live stream reported it and no load, other error or, for an error that can be retried, new connection came since |
| PageFlags.ConnectionExactly | frontend/src/app/features/runs/run.facade.ts:132-136 | it shows a connection exactly if the live stream announced it last and the stream has not ended since |
| Timeline.ShowsAskedExactly | frontend/src/app/features/runs/run.facade.ts:87-114 | the page always shows the run last asked for if and only if no reload or mutation answer arrives for another run |
| Timeline.StaleReloadIsShown | frontend/src/app/features/runs/run.facade.ts:87-102 | an input on which another run is shown: run a is asked for, then run b, and then a reload of run a is answered |
| EndToEnd.TimelineIsPrefixOfLog | frontend/src/app/features/runs/run.facade.ts:105-174 | for every interleaving of emission, retry, commit, publish, text in any chunks, reconnect and snapshot the shown events are a contiguous prefix of the log |
| EndToEnd.TimelineNeverShrinks | frontend/src/app/features/runs/run.facade.ts:162-174 | no step but a new load takes an event off the page |
| EndToEnd.TimelineIsPrefixOfEmitted | ai-service/src/api/runner.py:25-30 | without a dispatch failure in first place the page shows a prefix of what the producer emitted, as stored |
| EndToEnd.CaughtUp | backend/src/modules/events/event-stream.service.ts:46-62 | once a connection has its history and all its text has arrived, everything published up to the first terminal event is shown |
| LivePage.LiveEventReachesPage | frontend/src/app/features/runs/run.facade.ts:61-160 | a schedule on which the conditions of EndToEnd.CaughtUp hold and the page shows an event that was in no snapshot |
| EndToEnd.BackendIsAlone | backend/src/modules/events/events.service.ts:84-85 | publishing, streaming and showing never influence what is stored |
| EndToEnd.EveryRunIsReadable | backend/src/modules/events/event-stream.service.ts:80-91 | every schedule has a setting whose reader reads back all events of its log, so the four theorems above speak about every run |
| NbaPipeline.InMemoryNbaRepository.LoadCustomers | ai-service/src/nba/repository.py:42-45 | all customers by ascending id, or the requested ones that exist in request order |
| NbaPipeline.InMemoryNbaRepository.AddCustomers | ai-service/src/nba/repository.py:39-40 | snapshots are stored one after the other under their customer id |
| NbaPipeline.LatestSnapshotWins | ai-service/src/nba/repository.py:34-40 | the last snapshot given for a customer is the one that is kept |
| NbaPipeline.InMemoryNbaRepository.CommitSuccess | ai-service/src/nba/repository.py:51-68 | the drafts are appended in order with versions counted before the batch, and the run is stored; a commit that raises changes nothing |
| NbaPipeline.MissingExactly | ai-service/src/nba/orchestrator.py:48-51 | the set difference is empty if and only if every requested customer exists |
| NbaPipeline.NbaOrchestrator.RunStage | ai-service/src/nba/orchestrator.py:55-82 | at most two attempts, each logged, with the output of the first that succeeds |
| NbaPipeline.NbaOrchestrator.RunCustomer | ai-service/src/nba/orchestrator.py:52-85 | the stages of one customer, each on the previous output, until one fails twice, and the recommendations collected on the way |
| NbaPipeline.NbaOrchestrator.Run | ai-service/src/nba/orchestrator.py:35-95 | finished if and only if the commit is accepted, nobody is missing and no stage fails twice; then the recommendations of the cells that have one are appended, each once, in the order of customers and stages, with the next version; otherwise none; the result is stored, also of a run that failed, with its number of drafts when the commit raised |
| NbaPipeline.RunExactly | ai-service/src/nba/orchestrator.py:46-95 | status, error code and number of recommendations of a run, from its cells and from who is missing |
| NbaPipeline.DraftsAreRecommended | ai-service/src/nba/orchestrator.py:84-85 | the collected drafts are the recommendations of the cells that have one, one for each, in order |
| NbaPipeline.DraftMembers | ai-service/src/nba/orchestrator.py:84-85 | a draft is collected if and only if some cell of some row recommends it |
| NbaPipeline.CellLogs | ai-service/src/nba/orchestrator.py:55-82 | what the log says of a cell: its attempts, which failed, and whether it was skipped |
| NbaPipeline.RunTrace | ai-service/src/nba/orchestrator.py:52-85 | one success per customer and stage in order, at most one first failure before each; a failed run is such a trace cut short at a second failure; at most 2 * customers * stages executions |
| NbaPipeline.StagesSeePrevious | ai-service/src/nba/orchestrator.py:53-83 | each stage runs on the previous stage's output, the first on the customer's snapshot |
| NbaPipeline.CustomersInOrder | ai-service/src/nba/orchestrator.py:52-54 | customers are handled in order, each from its own snapshot, behind everything executed before |
| NbaPipeline.EveryoneIsServed | ai-service/src/nba/orchestrator.py:52-84 | a run in which no stage failed twice has handled every customer |
| NbaPipeline.CommitKeepsVersions | ai-service/src/nba/repository.py:51-68 | a commit keeps the version numbering if and only if no customer occurs twice in it |
| NbaPipeline.VersionsExactly | ai-service/src/nba/repository.py:51-68 | over any number of commits every customer's versions read 1, 2, 3 and so on if and only if no commit holds two drafts for one customer |
| NbaPipeline.TwinDraftsShareVersion | ai-service/src/nba/repository.py:51-68 | an input on which they do not: both drafts of one commit for one customer get version 1 |
| RiskBand.HundredthsBounds | ai-service/src/tools/financial_calculator.py:9-13 | a rounded ratio is within half a hundredth of the exact one, ties rounded up |
| RiskBand.RatiosExactly | ai-service/src/tools/financial_calculator.py:9-27 | each of the five ratios is missing exactly if its denominator is zero, and otherwise the nearest hundredth to its own quotient |
| RiskBand.ExactThresholds | ai-service/src/tools/financial_calculator.py:28-36 | HIGH and LOW, each if and only if the exact quotients meet 0.795, 4.005 and 3.005 |
| RiskBand.BandMonotone | ai-service/src/tools/financial_calculator.py:16-37 | weaker figures never give a better band, and revenue and requested amount never matter |
| Decision.NormalizeIdempotent | ai-service/src/tools/document_checklist.py:14-15 | a normal form is its own normal form |
| Decision.ChecklistExactly | ai-service/src/tools/document_checklist.py:5-27 | a checklist is complete if and only if each of the five documents is submitted |
| Decision.ScreenedByMarkers | ai-service/src/tools/mock_kyc_aml.py:9-21 | a hard stop, and a clear result, each if and only if a condition on which markers stand in name and registration number, in whatever case |
| Decision.Synthesize | ai-service/src/graph/synthesizer.py:17-93 | the branches and appended lists compute the decision stated by cases |
| Decision.RunGraph | ai-service/src/graph/workflow.py:59-99 | all three specialists are visited, the decision is theirs, and partial holds exactly if one failed |
| Decision.DecisionFromCase | ai-service/src/graph/synthesizer.py:40-67 | RECOMMEND, BLOCKED and partial, each if and only if a condition on the raw case and on who answered |
| Decision.StatusDecidesTheRest | ai-service/src/graph/synthesizer.py:40-67 | which action goes with which status, that a recommendation has no condition and no conflict, and that a rerun is asked for exactly with the partial review |
| Decision.ConditionsFromCase | ai-service/src/graph/synthesizer.py:26-54 | every condition and every conflict, each if and only if a condition on the raw case and on who answered |
| Decision.ConditionsAreDistinct | ai-service/src/graph/synthesizer.py:32-47 | no condition is listed twice |
| Decision.ConfidenceFromCalls | ai-service/src/graph/synthesizer.py:69-90 | the returned confidence, exactly in terms of who answered and who cited something |
| Decision.Round4IsNearest | ai-service/src/graph/synthesizer.py:90 | the rounded confidence is a multiple of a ten-thousandth, none is nearer, and of two as near it is the even one |
| Decision.NoActionExactlyOnHardStop | ai-service/src/graph/synthesizer.py:40-43 | an action is withheld if and only if compliance found a hard stop, and a human is always required |
| Decision.LosingSpecialistsNeverRaisesConfidence | ai-service/src/graph/synthesizer.py:69-76 | from a full set with confidences of at least 0.35, failing or removing specialists never raises the confidence |
| Decision.FurtherFailureRaisesExactlyWhen | ai-service/src/graph/synthesizer.py:69-76 | given a partial set to the synthesizer, a further failure raises the returned confidence if and only if another specialist completed and the failing one allowed less, both after rounding |
| Decision.FurtherFailureRaises | ai-service/src/graph/synthesizer.py:69-76 | an input on which it happens: 0.21 becomes 0.35 |
| Decision.WorkflowNeverRaisesConfidence | ai-service/src/graph/workflow.py:59-99 | through the workflow it cannot happen: the fewer specialists answer, the lower the returned confidence |
| Identity.KeycloakAdminClient.Assign | backend/src/modules/identity/keycloak-admin.client.ts:97-116 | the roles are read, stripped and granted, stopping at the first failure |
| Identity.KeycloakAdminClient.ProvisionAccount | backend/src/modules/identity/keycloak-admin.client.ts:30-54 | the user is created, looked up by name when no location comes back, and furnished, or removed again if the removal gets through |
| Identity.KeycloakAdminClient.UpdateAccount | backend/src/modules/identity/keycloak-admin.client.ts:56-71 | profile first, role second |
| Identity.IdentityService.Create | backend/src/modules/identity/identity.service.ts:196-236 | order of the checks, remote calls, database write and compensation |
| Identity.IdentityService.Update | backend/src/modules/identity/identity.service.ts:238-286 | order of the checks, remote update, database write and compensation |
| Identity.IdentityService.SetEnabled | backend/src/modules/identity/identity.service.ts:288-320 | order of the checks, remote toggle, database write and compensation |
| Identity.IdentityService.Deactivate | backend/src/modules/identity/identity.service.ts:145-160 | a branch with active accounts is refused, an inactive or missing one is not found |
| Identity.AlwaysSound | backend/src/modules/identity/identity.service.ts:330-362 | over every sequence of operations and failures admins have no branch, others an existing one, and an active admin remains |
| Identity.DoneAsAsked | backend/src/modules/identity/identity.service.ts:104-320 | an operation that answers Done has done what was asked for, field by field, in the database and in Keycloak, and nothing else |
| Identity.DoneExactly | backend/src/modules/identity/identity.service.ts:104-320 | while remote calls get through an operation is done if and only if no guard stands in its way and its write and its audit entry succeed |
| Identity.FailureKeepsDatabase | backend/src/modules/identity/identity.service.ts:104-320 | an operation that answers anything else leaves rows and branches alone, unless only its audit entry failed |
| Identity.NobodyDisablesThemselves | backend/src/modules/identity/identity.service.ts:288-300 | an account that is disabled was disabled by somebody else, and has a Keycloak user |
| Identity.PlacementExactly | backend/src/modules/identity/identity.service.ts:330-344 | which answer a role and a branch get: admins have none, others an existing and active one |
| Identity.AnotherAdminIsCounted | backend/src/modules/identity/identity.service.ts:355-362 | another active admin exists exactly if counting them gives at least one |
| Identity.BranchesStayOpenExactly | backend/src/modules/identity/identity.service.ts:288-320 | over every sequence of operations active accounts stay in active branches throughout if and only if nobody is enabled into a closed one |
| Identity.ClosedBranchGetsActiveAccount | backend/src/modules/identity/identity.service.ts:288-311 | an input on which it happens |
| Identity.CreateCompensates | backend/src/modules/identity/identity.service.ts:196-236 | a failed creation leaves nothing behind, with exactly three exceptions known before the call: the new user cannot be looked up, its removal is lost, or its row is written and the audit entry is not |
| Identity.UnlocatedUserStays | backend/src/modules/identity/keycloak-admin.client.ts:43-45 | an input of the first exception |
| Identity.UnremovedUserStays | backend/src/modules/identity/keycloak-admin.client.ts:46-53 | an input of the second exception: the role is missing in Keycloak and the removing call is lost |
| Identity.UpdateCompensates | backend/src/modules/identity/identity.service.ts:253-279 | after a failed write and a successful compensation Keycloak is as before if and only if the compensation writes what was there; for an account with a name that is if and only if its profile was in sync |
| Identity.CompensationOverwritesName | backend/src/modules/identity/identity.service.ts:268-279 | an input on which it is not: Keycloak knew another name than the account |
| Identity.ToggleCompensates | backend/src/modules/identity/identity.service.ts:301-311 | after a failed write and a successful compensation of enabling or disabling, Keycloak is as before if and only if the request really toggled |
| Identity.FailedUpdateUntouchedExactly | backend/src/modules/identity/keycloak-admin.client.ts:56-71 | a failed remote update leaves Keycloak as it was if and only if no request got through or those that did changed nothing |
| Identity.FailedUpdateLosesRoleExactly | backend/src/modules/identity/keycloak-admin.client.ts:97-116 | and it leaves a user without application role if and only if it fails at its very last request |
| Identity.InterruptedUpdateLosesRole | backend/src/modules/identity/keycloak-admin.client.ts:104-115 | an update on which that happens |
| Identity.MirrorsExactly | backend/src/modules/identity/identity.service.ts:196-320 | over every sequence of operations, while remote calls get through, Keycloak mirrors every account throughout with exactly three exceptions known before the operation |
| Identity.EnablingTwiceDisables | backend/src/modules/identity/identity.service.ts:301-311 | an input of the first: enabling an enabled account while the database is down disables its user |
| Identity.UnauditedAccountLosesUser | backend/src/modules/identity/identity.service.ts:199-235 | an input of the second: a new account whose audit entry fails keeps its row and loses its user |
| Identity.NamelessAccountKeepsName | backend/src/modules/identity/identity.service.ts:268-279 | an input of the third: the update of an account without a name fails and Keycloak keeps the new name |
| Policy.EvaluatePackage | backend/src/modules/nba/assessment/policy.service.ts:131-284 | the pushed criteria and the multiplied and rounded factors are the specified ones, and eligibility holds exactly if every blocking rule is met |
| Policy.NearestIsNearest | backend/src/modules/nba/assessment/policy.service.ts:281 | the rounding of the multiplier: no integer is nearer, and in a tie the one farther from zero is taken |
| Policy.EvaluateCatalog | backend/src/modules/nba/assessment/policy.service.ts:59-103 | the ranked assessments of the whole catalog |
| Policy.EligibleExactly | backend/src/modules/nba/assessment/policy.service.ts:273-279 | a package is eligible if and only if it suits the customer; tags and multipliers never decide |
| Policy.LimitsAreInclusive | backend/src/modules/nba/assessment/policy.service.ts:144-178 | a customer exactly at a limit of age or balance meets it, and one just beyond does not |
| Policy.RulesExactly | backend/src/modules/nba/assessment/policy.service.ts:131-283 | a package is blocked by exactly the rules that the customer fails, in order, and the criteria met, of which the ranking counts the number, are exactly those that the customer meets |
| Policy.MultiplierExactly | backend/src/modules/nba/assessment/policy.service.ts:245-281 | the shown multiplier is the month's, halved for insurance paid elsewhere, to the nearest thousandth |
| Policy.RankingIsFair | backend/src/modules/nba/assessment/policy.service.ts:86-102 | a permutation of the assessed catalog, eligible first, then by criteria met, ties in catalog order |
| Policy.MissingDataIsNeverFavourable | backend/src/modules/nba/assessment/policy.service.ts:144-241 | forgetting data or adding a held product or a suppression never makes an ineligible package eligible |
| Policy.HeldKeyExact | backend/src/modules/nba/assessment/policy.service.ts:80-83 | the joined key says exactly "same product and same tier", a missing tier counting as empty |

## Left out

- Transport: HTTP, HMAC signatures, tokens, TLS and timeouts are outcomes chosen by the environment; Prisma and SQL are maps and sequences, a serializable transaction is one atomic step.
- Time stamps, correlation ids, summaries, rationale texts, objectives and other free text that no modelled branch reads.
- The regular expressions that scrub strings: redaction takes the scrubber as a parameter and assumes only what a theorem states (idempotence where needed).
- Unicode case folding and white space: `Text` works on ASCII letters and the four ASCII space characters.
- Decimal context precision and binary floating point: ratios and confidences are exact, followed by the rounding the code performs, also where `toFixed` would see a binary fraction just beside a tie.
- UTF-8 decoding of the byte stream: chunks are chunks of text.
- Last-Event-ID strings other than decimal digits that JavaScript's Number accepts, such as "1e3" or " 5 ", count as absent.
- Delivery.PrefixSafety: one run at a time; an event id that is already used by another run is covered by RunStore.RunServices.Record only.
- EndToEnd.TimelineIsPrefixOfLog: publishes happen in sequence order, as stated; what happens otherwise is ServerStream.LateEventsAreDropped and ServerStream.AlwaysOrdered.
- EndToEnd.CaughtUp: says nothing about when a connection gets its history or its text arrives; no fairness of the environment is assumed.
- JSON: how an event is written and read back is a parameter of `StreamClient` and `EndToEnd`, and must read back the events of the log at hand.
- StreamClient.RunEventStream.Run: the environment is a finite list of attempts, and the end of the list stands for the caller's abort; cancelling and releasing the reader are not modelled.
- NbaPipeline.NbaOrchestrator.Run: one run is one step; concurrent runs meet only in their commits, which NbaPipeline.VersionsExactly covers in any order. What a stage computes is a function of its input and of the number of executions so far.
- Identity.IdentityService.Create: the identifiers that the database and Keycloak generate are inputs, assumed new; a lookup by name that succeeds finds the user just created.
- What Keycloak does with a first name sent as null is a setting of the environment: it clears the name or leaves it.
- Identity.UpdateCompensates: each Keycloak request is atomic; a request that takes effect while its answer is lost is not modelled.
- Identity operations are atomic steps: two of them racing between a check and its write are not modelled.
- Listing and searching of branches, accounts and runs, password reset as an operation of its own, and the current-user view: no state worth a theorem.
- Customer-level contact blocks and the texts shown with each criterion in the policy service.
- Comparison runs, retrieval, embeddings, narrative checks and the language model: outside the modelled services.
- Angular components, Nest modules, decorators, settings, seeds and container files.
