# Verified model of the notification service

A Dafny model of the parts of qeet-notify that decide whether a message goes out, when, and how often: the workflow
engine and its delay scheduler, the delivery policy of channel jobs, event intake under idempotency keys, the rate
limiter, the SMS and email pipelines with their block lists, the consent matrix and ledger, the condition language and
the bus subjects. Everything that updates state in the service is a class here, and each of its methods is proved equal
to a step function on values; the theorems are about those functions, over all runs, interleavings and failures that their
statements admit.

`dafny verify dfyconfig.toml` checks the whole project.

## How it is built

Failures are scripted. `Faults.Fault` is `NoFault`, `Rejected` (the operation did not happen) or `AckLost` (it
happened, its caller saw an error). Every transaction consumes a script with one entry per statement or publish, and a
separate entry for its commit; every theorem quantifies over the scripts. A failed statement aborts its transaction,
as it does in PostgreSQL. Published messages and used ids survive a rollback.

| Files | Part of the service |
|---|---|
| `Walk`, `Workflow`, `Engine`, `RunSemantics`, `Meaning`, `Transparency` | the workflow interpreter: from its control flow alone, through steps with ids and conditions, to transactions on the tables, and what an event does in terms of the stored steps and the payload |
| `Wakeup`, `Tokens`, `Scheduler`, `Lifetimes`, `Hazards` | engine, scheduler, clients and message queue as one state machine; runs through its histories; what its gaps lead to |
| `Disposition`, `Attempts` | what becomes of a channel job over its deliveries; provider fallback |
| `SmsWorker`, `Window`, `EmailWorker`, `Resends` | the two pipelines, the promotional window, bounce callbacks, and a job over its five deliveries |
| `Preferences`, `ConsentLedger` | the opt-in query, and the two writers of matrix and ledger |
| `Idempotency`, `RateLimit` | the two Redis protocols |
| `Condition`, `Subjects`, `Text`, `Faults` | the condition language, bus subjects, and what they rest on |

The walk with delays erased (`Walk.At`) is the reference for the interpreter. `Walk.Segment` is one pass of the engine's
loop, with its counter; `Walk.Play` chains passes by wake-ups; `Engine.Executed` performs a pass inside a transaction with
failures. `ExecuteFrom` (the loop) is proved equal to `Engine.Executed`; `RunSemantics.ExecutedExact` reduces a
successful pass to `Segment`; `Meaning` says what such a pass does in the words of the steps, the payload and the
tables; `Transparency` lifts the theorems about `Play` to one run's wake-ups on the tables, and
`Lifetimes` to whole histories in which other runs, ticks, clients and failures come between.

## Results that hold only under a condition

Each condition is proved in both directions.

- **One wake-up per run.** A history keeps it in every state if and only if every step is sound: a resume message whose
  transaction commits is acknowledged, and a tick that publishes commits (`Tokens.TokenInvariant`). Trigger events may
  be redelivered without harm to it, though each delivery that commits starts another run (`Lifetimes.RunsPerTrigger`).
  Histories from the start that break it: `Hazards.EarlyEndReachable` loses one acknowledgement
  and ends a run most of an hour early, `Hazards.TwoWakeUpsReachable` loses one commit and wakes a run twice. A rejected
  publish strands the run for ever even if every step is sound (`Tokens.RejectedPublishStrands`).
- **No step before its resume time.** In every reachable state, whatever has failed, a run is resumed early if and only if
  its row still shows a resume time that has not come (`Tokens.EarlyIffStillWaiting`); resuming does not look. After sound
  steps that never happens (`Tokens.NeverEarly`).
- **Delay transparency** needs steps that decode and a walk that meets no step the notification table refuses; otherwise
  the run stays as it is for ever (`Transparency.RunTransparency` has all four fates, each exactly). It also needs the
  steps unedited while the run is paused. If they are edited, its fate is that of the
  edited walk from the stored index (`Hazards.EditedRunFate`), which can fail a run that both versions would complete
  (`Hazards.EditFailsReachable`).
- **Every notification row has its job, but not conversely.** In every reachable state the jobs without a row are exactly
  those published by deliveries that did not commit (`Wakeup.OrphansExact`). An event whose pass meets a step the table
  refuses stays queued and adds as many at every delivery, without end (`Hazards.RefusedStepFloods`).
- **At most one publish per idempotency key.** Exact for every step and every failure: from any state under the invariant
  a step leaves the guarantee standing if and only if it is tolerable (`Idempotency.SafeIffTolerable`). A release of the
  key is, as long as no request yet to read it waits together with another (`Idempotency.ReleaseSafeIffHarmless`); a
  publish that lands but is reported failed is, as long as no other request is waiting
  (`Idempotency.LostAckSafeIffQuiet`); a SETNX or GET that fails and lets its request through, and an expiry of the key,
  are under the conditions `MayFailOpen` and `MayExpire`; a failed DEL or SET always is. With nothing failing, the
  guarantee holds for all interleavings exactly when at most two requests share the key
  (`Idempotency.HealthyOnceIffTwo`).
- **Only claimants release the key** exactly as long as no release races with a read
  (`Idempotency.ReleasedByClaimantsIffNoRace`).
- **One acceptance per job.** A provider accepts a job more than once exactly when every acceptance but the last slipped: a
  status update, a commit or an acknowledgement was lost (`Resends.SmsAcceptedTwiceIff`,
  `Resends.EmailAcceptedTwiceIff`).
- **Compliant sends.** A call is compliant if and only if it did not combine a failed category read with a promotional
  template to a registered number or outside the window (`SmsWorker.ComplianceExact`);
  `SmsWorker.FailedCategoryReadSends` shows that send. The outcome also depends on the order in which the database lists
  templates unless all that match agree (`SmsWorker.OrderIndependentIffUnanimous`).
- **Deferral to the next opening** needs no opening to pass between the window test and the last clock read
  (`Window.ThreeReads` is exact; `Window.BoundaryCrossings` gives the two bad cases).

## Where the code and its comments disagree

The model follows the code.

- The rate limiter is described as a sliding window. It is a counter whose expiry each request pushes back, so a slow
  but steady sender is refused for ever (`RateLimit.SteadySenderStarves`, `RateLimit.SlidingWindowWouldAdmit`).
- `Unsubscribe` is described as opting out of all channels. A more specific opt-in survives it
  (`Preferences.GlobalUnsubscribe`, `Preferences.GlobalUnsubscribeSilences`).
- A SES complaint callback yields no message id and is never acted on (`EmailWorker.ActedOnExactly`), and open and click
  events write a status that the notifications table refuses, which loses the event too
  (`EmailWorker.EngagementNeverRecorded`).
- The ledger append is called best-effort, but a failed append aborts the request's transaction: the client is told
  "updated" and nothing is stored (`ConsentLedger.AcceptedButLost`).
- The scheduler clears `resume_at` first so that a run is never published twice; that holds only if the tick commits.

## Model

| member | source | states |
|---|---|---|
| Walk.GuardExact | domains/workflows/engine/engine.go:202-208 | The cycle guard fires exactly on the passes whose walk never reaches the end or a delay, so it never fails a workflow that would have stopped |
| Walk.DelayTransparency | domains/workflows/engine/engine.go:112-259 | A paused-and-resumed run completes iff the walk with delays erased ends, fails iff that walk enters a cycle without a delay, and stays running iff its cycle has one |
| Walk.ErasedTrichotomy | domains/workflows/engine/engine.go:205-251 | The erased walk does exactly one of: end, enter a delay-free cycle, enter a cycle with a delay |
| Walk.CompletedVisits | domains/workflows/engine/engine.go:190-259 | A completed run dispatched exactly the channel steps of the erased walk, in order, paused at exactly its delays, and met no step twice |
| Walk.ForwardRunCompletes | domains/workflows/engine/engine.go:190-270 | If every jump goes forward, the run completes within n jumps over all passes, pausing at most once per delay |
| Workflow.BuildIndex | domains/workflows/engine/engine.go:194-199 | The id table holds exactly the nonempty ids, each at its last position |
| Workflow.FlowLeads | domains/workflows/engine/engine.go:210-250 | Where each step sends control: channel and delay steps to the last step carrying their next id, a condition to the last one carrying its true or its false id as it holds or not, and for an empty target, or a step of another kind, to the step after; an unknown id leads on, or for a condition to the end |
| Workflow.ForwardOnlyCompletes | domains/workflows/engine/engine.go:190-270 | The same for stored steps, any verdicts of the conditions and any stored start index, negative or past the end |
| Hazards.EditedRunFate | platform/api/handler/workflows.go:157-209 | A paused run of an edited workflow completes, fails or stays running exactly as the walk over the edited steps from the stored index does |
| Hazards.EditFailsReachable | platform/api/handler/workflows.go:157-209 | A history from the start in which an edit makes the guard fail a run that the old steps would have completed, and the new ones too from their start |
| Engine.WorkflowEngine.ExecuteFrom | domains/workflows/engine/engine.go:190-259 | The loop with id table, jumps, guard and failing statements is the recursive pass on the control flow, and so, where it succeeds, a path of the stored steps (`Meaning.ExecutedFromMeans`) |
| Engine.WorkflowEngine.ExecuteStep | domains/workflows/engine/engine.go:210-250 | Each kind of step does what its node says and goes where the flow says, which `Workflow.FlowLeads` spells out |
| Engine.WorkflowEngine.DispatchChannel | domains/workflows/engine/engine.go:280-324 | Preference check, insert and publish, with the effect of each failure |
| Engine.WorkflowEngine.ProcessEvent | domains/workflows/engine/engine.go:93-108 | Looks the workflow up, creates a run and executes it from the start; nothing without a match, an error if its steps do not decode |
| Engine.WorkflowEngine.Resume | domains/workflows/engine/engine.go:112-146 | Continues a running run from its stored index on the steps as they are now; nothing for any other run, an error if the steps do not decode |
| Engine.WorkflowEngine.Handle | domains/workflows/engine/engine.go:74-89 | One message: refused if it does not decode, else one event in one tenant transaction, acknowledged iff it committed and the commit was confirmed; a rollback restores the tables but not the queue |
| RunSemantics.ExecutedExact | domains/workflows/engine/engine.go:190-324 | A successful pass leaves exactly the row of the walk's outcome, and one notification and job per opted-in channel step visited, in order |
| RunSemantics.HandledExact | domains/workflows/engine/engine.go:74-146 | The whole effect of an event on the tables: if it commits, exactly the pass it resumes or starts; if not, nothing but published jobs and used ids |
| RunSemantics.HandledRuns | domains/workflows/engine/engine.go:74-146 | The effect on the runs table: nothing unless it commits, then the one run it resumes or starts moves to where the walk takes it |
| RunSemantics.HandledBalanced | domains/workflows/engine/engine.go:65-89 | Whatever fails, ids stay unique, every notification row has a job of its own and a run of its own tenant, and new jobs carry new ids |
| Meaning.ExecutedFromMeans | domains/workflows/engine/engine.go:190-324 | A pass that succeeds took a path of the stored steps from its start: each position sends control to the next on this payload, every channel step on the way for which the subscriber has not opted out queued one row and one job in the event's own fields, and the row ends completed past the last step, paused for the delay's seconds from now at a delay, or failed by the guard after 2n + 11 steps |
| Meaning.TriggerMeans | domains/workflows/engine/engine.go:93-108 | An event that no active workflow of its tenant answers changes nothing; any other that commits starts a run of one that does, which took a path from the first step |
| Meaning.ResumeMeans | domains/workflows/engine/engine.go:112-146 | A committed resume of a running run takes it along a path from its stored position, as the event that started it; a resume of any other run changes nothing |
| Meaning.DispatchSucceedsIff | domains/workflows/engine/engine.go:295-324 | With nothing failing, a wanted channel step succeeds exactly for the six known channels and a named subscriber, and then queues its row and job |
| Transparency.FaultFreePassSucceeds | domains/workflows/engine/engine.go:295-305 | Without failures a pass succeeds exactly when the table accepts every notification it inserts |
| Transparency.ConsentDecidesDispatch | domains/workflows/engine/engine.go:280-305 | After any history of consent, a notification and its job come about exactly when the last ledger entry for the most specific key the ledger mentions is an opt-in, or it mentions none |
| Transparency.ConsentDecidesPass | domains/workflows/engine/engine.go:205-214 | So a whole pass serves exactly the visited channel steps to which the ledger consents |
| ConsentLedger.LookupFollowsLedger | domains/subscribers/preferences/preferences.go:14-32 | After any requests and failures the matrix answers every lookup as the last ledger entries for the four keys do, in order of specificity |
| Transparency.UnbrokenWake | domains/workflows/engine/engine.go:112-146 | What one wake-up does to the tables when only the commit may fail |
| Transparency.WokenFollowsPlay | domains/workflows/engine/engine.go:112-259 | After each wake-up the run's row, notifications and jobs are those of the play on the control flow |
| Transparency.StuckRunsForEver | domains/workflows/engine/engine.go:112-136 | A run whose steps do not decode, or whose walk comes to a step the table refuses, stays running through any number of wake-ups |
| Transparency.RunTransparency | domains/workflows/engine/engine.go:112-259 | The four fates on the tables, each exactly: stuck for ever, eventually completed, eventually failed, or running for ever, according to the erased walk |
| Lifetimes.HistoryFollowsPlay | domains/workflows/engine/engine.go:112-259 | Through any legal history in which its workflow keeps its steps, a run's row after k committed resumptions is that of the play, whatever other runs, ticks, clients and failures do in between |
| Lifetimes.HistoryTransparency | domains/workflows/engine/engine.go:112-259 | Through every such history the run is completed after enough resumptions if the erased walk ends, failed after enough if it enters a cycle without a delay, and running after any number if it enters one with a delay |
| Lifetimes.ResumedAfterPause | domains/workflows/engine/engine.go:216-227 | After sound steps a run paused until some time is next resumed after it, however many other steps come between |
| Lifetimes.RunsAreStarts | domains/workflows/engine/engine.go:93-108 | In every reachable state there is exactly one run for each committed delivery of a trigger event that found an active workflow, made from that event |
| Lifetimes.RunsPerTrigger | domains/workflows/engine/engine.go:65-70 | A trigger message has started exactly as many runs as it had such deliveries |
| Wakeup.AlwaysCoherent | domains/workflows/engine/engine.go:295-324 | In every reachable state, whatever failed, each notification row has its job, and every event and job is on the subject of the tenant owning its run and notification |
| Wakeup.ExactlyOneJob | domains/workflows/engine/engine.go:307-323 | A notification row has exactly one published job, with its id, tenant, channel and template |
| Wakeup.TriggerQueues | platform/api/handler/events.go:91-103 | An accepted trigger puts the event it names on its tenant's subject, unless the publish is rejected |
| Wakeup.OnlyTicksWake | domains/scheduler/scheduler.go:91-106 | Only the scheduler creates resume messages |
| Wakeup.OrphanIffRolledBack | platform/database/querier.go:48-62 | Of the jobs a delivery publishes, all lack a row if its transaction does not commit, and none if it does |
| Wakeup.OrphansExact | platform/database/querier.go:48-62 | In every reachable state the jobs without a row are exactly those published by deliveries that did not commit |
| Wakeup.OrphansStay | domains/workflows/engine/engine.go:297-303 | Once published, a job lacks a row for ever or never |
| Wakeup.RejectedCommitOrphansJobs | platform/database/querier.go:58-61 | A pass whose commit is rejected leaves one orphan per opted-in channel step, the run where it was and its message to be redelivered |
| Hazards.RefusedStepFloods | domains/workflows/engine/engine.go:31-72 | An event whose pass meets a step the table refuses is still queued after any number of deliveries, each of which published the jobs of the steps before it once more, all without rows |
| Tokens.TickRunsExact | domains/scheduler/scheduler.go:91-106 | A tick whose statements succeed clears exactly its batch and publishes one wake-up for each, save the rejected publishes |
| Tokens.StepTokensIff | domains/scheduler/scheduler.go:91-106 | From a state with its tokens right, a step keeps them right if and only if it is sound |
| Tokens.TokenInvariant | domains/scheduler/scheduler.go:91-106 | Through a whole history each running run has exactly one of a resume time and a wake-up in flight, save those whose publish was rejected, and any other run has neither - if and only if every step was sound |
| Tokens.RunningIffOneToken | domains/scheduler/scheduler.go:91-106 | After sound steps a run has one token if it is running and no committed tick had its publish rejected, and none otherwise |
| Tokens.EarlyIffStillWaiting | domains/workflows/engine/engine.go:116-127 | In every reachable state, whatever has failed, a run is resumed before the last resume time written for it iff its row still shows a resume time that has not come |
| Tokens.NeverEarly | domains/workflows/engine/engine.go:216-227 | After sound steps a run is only ever resumed after the last resume time written for it |
| Tokens.RedeliveryCutsDelay | domains/workflows/engine/engine.go:112-127 | A lost acknowledgement makes the steps after the next delay run at redelivery, whatever the delay |
| Hazards.EarlyEndReachable | domains/workflows/engine/engine.go:65-70 | A history from the start in which one lost acknowledgement completes a run most of an hour before its resume time |
| Tokens.FailedCommitWakesTwice | domains/scheduler/scheduler.go:91-111 | A tick that publishes and fails to commit, then one that succeeds, leave two wake-ups in flight |
| Hazards.TwoWakeUpsReachable | domains/scheduler/scheduler.go:91-111 | A history from the start with two wake-ups of one run in flight |
| Tokens.LostIsStranded | domains/scheduler/scheduler.go:103-105 | After sound steps the stranded runs are exactly those whose wake-up a committed tick failed to publish |
| Tokens.StrandedForever | domains/scheduler/scheduler.go:73-79 | A stranded run's row never changes again, whatever happens and whatever fails |
| Tokens.RejectedPublishStrands | domains/scheduler/scheduler.go:94-105 | A rejected publish in a committed tick leaves the run running, without a resume time, for ever |
| Scheduler.DueRuns | domains/scheduler/scheduler.go:73-79 | The due query: distinct due runs of the tenant in order of resume time, at most 50, none later than one left out |
| Scheduler.Ticker.WakeAll | domains/scheduler/scheduler.go:91-106 | The loop over the batch: clear, then publish, going on past failures |
| Scheduler.Ticker.TickTenant | domains/scheduler/scheduler.go:68-111 | One tenant's transaction is one step of the system, whatever fails |
| Scheduler.Ticker.TickAll | domains/scheduler/scheduler.go:53-113 | A whole tick is a legal run of such steps, one per tenant; a tenant's failure does not stop the others |
| Scheduler.SchedulerBound | domains/scheduler/scheduler.go:73-106 | With k of its tenant's other runs due no later, a due run is taken up within k / 50 + 1 committed ticks of its tenant, whatever else happens or fails |
| Scheduler.EveryDueRunIsTakenUp | domains/scheduler/scheduler.go:73-106 | The bound for every due run of every state that sound steps reach |
| Disposition.LifeExact | platform/messaging/consume.go:21-49 | After any deliveries, exactly when a job is pending, acknowledged, terminated or dropped, and exactly its dead letters |
| Disposition.JobSettles | platform/messaging/consume.go:11-49 | Every job is settled within five deliveries, never both acknowledged and dead-lettered, with at most one dead letter, its own subject and data on its tenant's subject; lost iff none succeeds and the fifth is deferred, crashes or is not confirmed dead-lettered |
| Disposition.PoisonNeedsServerLimit | platform/messaging/consume.go:11-14 | A job that always fails is dead-lettered rather than dropped exactly when the server's limit is at least the handler's |
| Disposition.Envelope.HandleFailure | platform/messaging/consume.go:21-49 | The failure policy is its specification |
| Disposition.Envelope.Process | domains/channels/sms/worker.go:75-82 | One turn of the consume loop is one delivery step |
| Attempts.SendInOrder | domains/channels/sms/worker.go:211-224 | Stops at the first provider that accepts; otherwise all were called, or there were none |
| Attempts.TryExact | domains/channels/sms/worker.go:211-224 | Delivered at the first accepting provider and no later, undelivered only after all refuse |
| SmsWorker.LoadApprovedTemplates | domains/compliance/dlt/dlt.go:51-79 | Keeps the tenant's approved SMS rows of the carrier whose patterns compile, in listing order |
| SmsWorker.MatchTemplate | domains/compliance/dlt/dlt.go:82-89 | Returns the first match of the loaded rows |
| SmsWorker.MatchIsCandidate | domains/compliance/dlt/dlt.go:51-89 | A match is the first listed row that is approved, compiles and matches, and there is one whenever any row does |
| SmsWorker.CallCompliance | domains/channels/sms/worker.go:116-183 | A provider call is for an unsuppressed number with a matching approved template, and compliant iff it did not combine a failed category read with a promotional template to a registered number or outside the window |
| SmsWorker.FailedCategoryReadSends | domains/channels/sms/worker.go:154-156 | With the category read failing, the providers are called whatever registry and clock say, and the job then fails and is retried |
| SmsWorker.ComplianceExact | domains/channels/sms/worker.go:86-198 | Over any history of deliveries, redeliveries, suppressions, registrations and template changes, in any listing order, every call was for an unsuppressed number and a matching approved template, and was compliant iff it did not combine a failed category read with a promotional template that should have been held back |
| SmsWorker.EverySendCompliant | domains/channels/sms/worker.go:86-198 | In particular every call was compliant if the category reads succeed |
| SmsWorker.BlockedStaysBlocked | domains/compliance/ndnc/ndnc.go:18-48 | Whatever fails, no later call reaches a suppressed number of the tenant, nor a registered number with promotional traffic save through a failed category read |
| SmsWorker.SuppressionIsPrecise | domains/subscribers/preferences/preferences.go:35-61 | Suppressing a number blocks no other whose hash differs |
| SmsWorker.OrderIndependentIffUnanimous | domains/compliance/dlt/dlt.go:51-89 | Whether a body counts as promotional is independent of the listing order iff all matching templates agree |
| SmsWorker.AckedUnsent | domains/channels/sms/worker.go:101-109 | A deferred job is acknowledged unsent exactly when the window opens between the last two clock reads |
| SmsWorker.CleanJobStops | domains/channels/sms/worker.go:116-150 | With nothing failing, a job without a number or a rendering fails; one to a suppressed number is acknowledged unsent and recorded as suppressed; one with no matching approved template is acknowledged and not recorded |
| SmsWorker.CleanJobGoesOn | domains/channels/sms/worker.go:150-199 | With nothing failing, a message with a matching approved template is recorded as suppressed if promotional and its number registered, put off to the next opening if promotional and outside 10:00 to 21:00 India time, and otherwise sent: recorded as sent by the first provider that accepts, failed if none does |
| SmsWorker.RegistrationIsPrecise | domains/compliance/ndnc/ndnc.go:18-48 | Registering a number registers no other whose hash differs, and unregisters none |
| SmsWorker.AcceptedEnds | domains/channels/sms/worker.go:183-198 | An attempt that a provider accepts ends acknowledged if its status update and commit go through, and is made again if not |
| Resends.SmsAcceptedTwiceIff | domains/channels/sms/worker.go:75-110 | Over the five deliveries of a job, a provider accepts it more than once exactly when each acceptance before the last slipped and nothing else acknowledged it before |
| SmsWorker.Worker.HandleJob | domains/channels/sms/worker.go:116-199 | The pipeline statement by statement is its specification |
| SmsWorker.Worker.Handle | domains/channels/sms/worker.go:86-110 | One message: failed if it does not decode, else one step of the history, and its outcome decides the message's disposition |
| Window.ResumeIsNextOpening | domains/compliance/dlt/dlt.go:26-41 | When it is not between 10:00 and 21:00 India time, the resume instant is the least later one that is, at most 13 hours away |
| Window.OpenInSendingHours | domains/compliance/dlt/dlt.go:26-31 | The window is open exactly from 10 to 21 hours after some India-time midnight |
| Window.ClosingIsThirteenHoursShort | domains/compliance/dlt/dlt.go:33-41 | At the instant it closes the resume instant is exactly 13 hours later |
| Window.ThreeReads | domains/channels/sms/worker.go:168-169 | The delay leads to that instant iff it is still ahead at the last read; exactly what happens otherwise |
| Window.BoundaryCrossings | domains/compliance/dlt/dlt.go:33-41 | An opening just before the second read costs a full day; one just after it makes the delay zero |
| EmailWorker.CallsOnlyUnsuppressed | domains/channels/email/worker.go:93-126 | A provider is only called for a known address that is not suppressed |
| EmailWorker.SuppressedForGood | domains/subscribers/preferences/preferences.go:35-61 | Once an address is suppressed for a tenant no continuation calls a provider for it |
| EmailWorker.BounceStopsMail | platform/api/handler/webhooks.go:95-153 | A bounce or complaint that finds its notification records event, suppression and status together or not at all, and once it does no later job to that address in that tenant reaches a provider |
| EmailWorker.BouncedSendSilences | platform/api/handler/webhooks.go:21-153 | Email sent under a receipt of its own, when a callback's own fields then report it bounced or complained of under that receipt, silences the address it went to for good, unless the callback meets a failure |
| EmailWorker.ActedOnExactly | platform/api/handler/webhooks.go:48-93 | Exactly which SES and Resend callbacks are acted on |
| EmailWorker.ReadsWhatItSays | platform/api/handler/webhooks.go:48-93 | For both providers, a nonempty kind and id are read from a callback exactly when its own fields say so: SES Bounce and Delivery, the five Resend types |
| EmailWorker.CallbackRecords | platform/api/handler/webhooks.go:95-153 | What a callback says is recorded in full or not at all: a bounce or complaint fails the notification and suppresses the address with its reason, a delivery marks it delivered and suppresses nothing, an open or click leaves nothing |
| EmailWorker.EngagementNeverRecorded | platform/api/handler/webhooks.go:112-153 | Of the known kinds, opens and clicks are exactly those that never change anything |
| EmailWorker.ExtractEmailEvent | platform/api/handler/webhooks.go:48-93 | The parser with its reassigned payload is its specification, whose meaning `EmailWorker.ReadsWhatItSays` gives |
| EmailWorker.AcceptedEnds | domains/channels/email/worker.go:126-146 | An attempt that a provider accepts ends acknowledged if its status update and commit go through, and is made again if not |
| EmailWorker.CleanJobEnds | domains/channels/email/worker.go:93-146 | With nothing failing, a job fails without an address or a rendering, is recorded as suppressed to a suppressed address, and otherwise is recorded as sent with the receipt of the first provider that accepts, and fails if none does |
| Resends.EmailAcceptedTwiceIff | domains/channels/email/worker.go:79-146 | The same for email |
| EmailWorker.Mailroom.HandleJob | domains/channels/email/worker.go:93-146 | The pipeline statement by statement is its specification |
| EmailWorker.Mailroom.Handle | domains/channels/email/worker.go:79-89 | One message: failed if it does not decode, else one step of the history |
| EmailWorker.Mailroom.ProcessEmailEvent | platform/api/handler/webhooks.go:95-154 | Lookup by receipt and the callback's transaction are one step of the history |
| EmailWorker.Mailroom.Webhook | platform/api/handler/webhooks.go:21-46 | A callback is answered 400 if it does not decode and 200 otherwise, and does what `EmailWorker.CallbackRecords` says of its fields |
| Preferences.QueryIsMostSpecific | domains/subscribers/preferences/preferences.go:14-32 | Filtering, sorting by two keys and taking the first row is the most-specific-rule lookup, in any row order and with any tie-breaking |
| Preferences.ChannelUnsubscribe | domains/subscribers/preferences/preferences.go:64-73 | After unsubscribing from a channel a lookup there is true exactly when a row for that very category opts in; other channels are untouched |
| Preferences.GlobalUnsubscribe | domains/subscribers/preferences/preferences.go:64-73 | After a global unsubscribe the more specific rows still decide, and false is the default |
| Preferences.GlobalUnsubscribeSilences | domains/subscribers/preferences/preferences.go:63-73 | A global unsubscribe silences a subscriber everywhere iff no other row of theirs opts in |
| ConsentLedger.ReplayIsLastEntry | domains/subscribers/consent/consent.go:31-49 | Replaying the ledger gives each mentioned key the value of its last entry and no other key |
| ConsentLedger.AllOrNothing | platform/api/middleware/tenant_tx.go:20-57 | A request's entries reach matrix and ledger together, exactly when every statement and the commit succeed; otherwise neither changes |
| ConsentLedger.AcceptedButLost | platform/api/handler/subscribers.go:444-473 | Exactly when an update is answered "updated" although nothing was stored |
| ConsentLedger.LedgerDeterminesMatrix | platform/api/handler/subscribers.go:423-474 | After any requests and failures a preference row exists iff the ledger mentions its key, with the last entry's value |
| ConsentLedger.UpdateMeans | platform/api/handler/subscribers.go:423-474 | An update that changes anything gives each preference the choice of the last item that names it, changes no other preference, and appends one ledger row per item with a channel, in order; with nothing failing and known channels it does so |
| ConsentLedger.UpdateRefused | platform/api/handler/subscribers.go:423-462 | A malformed update is refused and one with a channel the table does not accept fails; neither stores anything |
| ConsentLedger.UnsubscribeMeans | platform/api/handler/subscribers.go:21-59 | The link turns off the named channel, or all of them when none is named, in every category, with one ledger row, or changes nothing; it answers 200 only if that is stored |
| ConsentLedger.ConsentStore.UpdatePreferences | platform/api/handler/subscribers.go:423-474 | The endpoint's loop inside its transaction is its specification, whose meaning `ConsentLedger.UpdateMeans` gives |
| ConsentLedger.ConsentStore.UnsubscribeLink | platform/api/handler/subscribers.go:21-59 | The unsubscribe endpoint is its specification, whose meaning `ConsentLedger.UnsubscribeMeans` gives |
| ConsentLedger.ConsentStore.AppendEntry | domains/subscribers/consent/consent.go:31-49 | Fills in the default category and source and appends one row |
| Idempotency.AtMostOnePublish | platform/api/handler/events.go:38-116 | Over every interleaving of any number of requests by tolerable steps, failures included, at most one event is published and every other 202 is a replay of it |
| Idempotency.SafeIffTolerable | platform/api/handler/events.go:46-124 | From any state under the invariant and for any step - an operation that succeeds, fails or loses its reply, or an expiry of the key - every tolerable continuation publishes at most once iff the step is tolerable |
| Idempotency.OnlyClaimantsRelease | platform/api/handler/events.go:74-124 | Over every interleaving without a race, only requests that claimed the key release it |
| Idempotency.ReleasedByClaimantsIffNoRace | platform/api/handler/events.go:52-79 | After a release, all continuations free of further races release only by claimants iff it was free of one itself |
| Idempotency.ReleaseSafeIffHarmless | platform/api/handler/events.go:46-67 | After a release every continuation publishes at most once iff no request yet to read the key waits together with another |
| Idempotency.HealthyOnceIffTwo | platform/api/handler/events.go:46-103 | With nothing failing, at most one event is published over all interleavings exactly when at most two requests share the key |
| Idempotency.LostAckSafeIffQuiet | platform/api/handler/events.go:100-104 | After a publish that lands but is reported failed, no continuation publishes again iff no other request is waiting, new or yet to read the key |
| Idempotency.RepeatsAreReplayed | platform/api/handler/events.go:46-110 | Once a request was accepted, with Redis answering and no expiry, no schedule publishes again, and every later request comes to a replayed 202 and is never answered otherwise |
| Idempotency.ConflictOnlyInFlight | platform/api/handler/events.go:52-79 | With nothing failing, 409 is answered only while another request is between its claim and its answer |
| Idempotency.KeysApart | platform/api/handler/events.go:47-50 | Two requests share a Redis key exactly when they share tenant and idempotency key |
| Idempotency.Intake.Trigger | platform/api/handler/events.go:38-124 | 401 without a tenant; otherwise the uninterrupted schedule of its atomic steps. With nothing failing a valid request that finds no key is queued once, answered 202 and remembered, one that finds it cached is replayed, one that finds it claimed gets 409, and an invalid one leaves no trace |
| RateLimit.CounterIsBurst | platform/api/middleware/ratelimit.go:25-32 | The stored counter is the length of the tenant's current burst, whatever other tenants do |
| RateLimit.BurstIsLongestGapFreeSuffix | platform/api/middleware/ratelimit.go:25-32 | A burst is the requests since the last gap of a window or more |
| RateLimit.AdmittedIffBurstFits | platform/api/middleware/ratelimit.go:34-40 | A request is admitted iff its burst, itself included, has at most `limit` requests |
| RateLimit.RateBound | platform/api/middleware/ratelimit.go:11-43 | Any half-open interval as long as the window admits at most `limit` requests of a tenant |
| RateLimit.SteadySenderStarves | platform/api/middleware/ratelimit.go:25-38 | A sender that never pauses for a window is refused for ever after its first `limit` requests |
| RateLimit.SlidingWindowWouldAdmit | platform/api/middleware/ratelimit.go:11 | Traffic that a sliding window would always admit and this limiter refuses from the third request on |
| RateLimit.Limiter.Admit | platform/api/middleware/ratelimit.go:13-43 | One request: let through without a tenant; counter and verdict; a pipeline that fails lets it through, whichever of INCR and EXPIRE took effect |
| Condition.RoundTripExact | domains/workflows/engine/condition.go:37-49 | Printing and splitting a trimmed comparison is the identity exactly when the path avoids the operator and both sides avoid every operator searched for earlier |
| Condition.RoundTripOperatorFree | domains/workflows/engine/condition.go:37-49 | In particular whenever path and literal have no operator characters |
| Condition.LookupPath | domains/workflows/engine/condition.go:52-65 | The loop over the dotted keys is the recursive descent |
| Condition.LookupFollowsKeys | domains/workflows/engine/condition.go:52-65 | A joined path reaches the value its keys name in turn, save that the empty path is null |
| Condition.PathLeads | domains/workflows/engine/condition.go:52-65 | Its value is the one its keys lead to through object fields, and null as soon as one is missing |
| Condition.ComparisonTrichotomy | domains/workflows/engine/condition.go:67-118 | Exactly one of <, == and > holds, and the other three are complement and unions, on every branch, precisely when no NaN takes part |
| Condition.NumbersCompare | domains/workflows/engine/condition.go:67-97 | A finite number, or text that reads as one, compares with a numeric literal as the numbers do, by all six operators |
| Condition.ExtremesCompare | domains/workflows/engine/condition.go:67-97 | NaN compares with nothing, minus infinity is below and plus infinity above every other number |
| Condition.TextsCompare | domains/workflows/engine/condition.go:99-135 | Texts compare by the first character in which they differ, with the literal freed of one pair of quotes |
| Condition.OthersCompare | domains/workflows/engine/condition.go:99-135 | A boolean equals its own name and a missing value the empty text |
| Condition.BarePathHolds | domains/workflows/engine/condition.go:19-135 | A condition that is only a path holds unless its value is missing, false, zero or empty |
| Condition.OnlyBlankFails | domains/workflows/engine/condition.go:19-32 | A condition cannot be evaluated exactly when it is nothing but white space |
| Condition.EvalPrinted | domains/workflows/engine/condition.go:19-49 | Evaluating a printed unambiguous comparison compares the value at its path with its literal |
| Subjects.SubjectNamesTenant | platform/messaging/streams.go:35-62 | Every built subject parses back to its tenant |
| Subjects.TenantReadExactly | platform/messaging/streams.go:54-62 | A subject is read as a tenant's exactly when it is the prefix and that tenant, and perhaps more |
| Subjects.SubjectsSpelled | platform/messaging/streams.go:12-52 | How the four kinds of subject are spelled, and which channels and streams there are |
| Subjects.ChannelStream | platform/messaging/streams.go:12-42 | A channel job is stored by exactly the stream of its channel, and by none for any other channel name |
| Subjects.TenantStreams | platform/messaging/streams.go:12-52 | Event, delivery and dead-letter subjects are each stored by exactly one stream |

## Left out

- Provider adapters, routing configuration and API clients: a provider call is a boolean, and the configured list is given.
- Regular expressions, template rendering, JSON, hashing and encryption: abstract functions; hashing is assumed injective only where a lemma says so.
- The insides of PostgreSQL, NATS and Redis; row-level security; isolation between concurrent transactions, which are taken one at a time.
- In-app, webhook, WhatsApp and push workers: copies of the modelled pipelines with fewer gates.
- SSE, OIDC, audit, API keys, listings, template versioning, analytics, storage, telemetry, configuration and deployment.
- Delivery telemetry events published by the workers, the error text in dead letters, and log lines.
- 64-bit overflow of a delay: `Engine.SECOND` multiplies unbounded integers.
- Payload numbers are what JSON decoding yields; the integer cases of the type switches never arise from it. Rounding is set aside; NaN and infinities are kept.
- Engine.WorkflowEngine.Resume: the branch for a stored payload that does not decode (engine.go:129-132) is not modelled, because the engine itself encoded it from a decoded one; steps that do not decode are.
- Foreign keys from notifications to subscribers and templates: only the channel check and the missing subscriber can refuse an insert.
- The cancelled status of a run, which nothing sets; deletion of tenants, workflows and subscribers while a run is paused.
- Workflow edits and preference changes enter the state machine of `Wakeup` as atomic steps; their own transactions are not part of it.
- SmsWorker.EverySendCompliant: the window is open at the read that tests it; the provider call comes later and the clock is not read again.
- Idempotency.SafeIffTolerable: a GET, SET or DEL whose reply is lost after it took effect behaves as one that answered or one that failed, and is not a case of its own.
- RateLimit.RateBound: assumes no Redis error.
- Scheduler.SchedulerBound: assumes nonnegative delays and one strictly increasing clock shared by engine and database.
