# Alert notifications, verified

A Dafny model of an alert manager's services, with proofs of what they promise. The model takes the form of the
code: services that change rows are classes whose methods assign fields and loop, each proved to have exactly the
effect of a specification function; string and calendar computations are functions. What is promised is then proved
about the specification functions, for every input, every step or every run.

| files | what they model |
|---|---|
| `Prelude`, `Text`, `Model` | options and results, sorting, decimal text, the rows themselves |
| `Matching`, `BrokenPatterns`, `Routing`, `Outcomes` | rule evaluation, patterns that do not compile, share scopes, and what one event transition stages, reports and records |
| `Staging`, `Dispatch`, `Delivery`, `Retention`, `Effects` | one step each of staging, timers, delivery and purging, and what each does to the tables in their own units |
| `Invariants`, `Runs`, `Carriers`, `RateBound`, `TimerSafety`, `OneTimer`, `Retries`, `Settling`, `Ticks`, `Traps`, `Refires`, `Timely` | what every step keeps, and safety over whole interleaved runs |
| `Purging`, `Alerts`, `Engine` | batched purges, acknowledgement, and the class whose methods are the running services |
| `Ingest`, `Heartbeat`, `Deadman`, `Desk` | webhook ingest, the per-cluster deadman switch against the heartbeats that arrive, and the class that runs them |
| `PromNumber`, `PromExpr`, `PrometheusRule`, `RuleImport`, `ImportedRules` | canonical numbers, PromQL text, rule manifests, batch import and what it leaves in the cluster |
| `Calendar`, `Reports` | the Gregorian calendar, next occurrences and report periods |
| `HistoryExport`, `LiveExport` | the paged history stream, over any changing table and over the tables of real runs |
| `Config`, `Endpoints` | the route and channel endpoints, and what each accepts and stores |

**The central result.** `Invariants.Inv` says: every row is an ordinary notification, a parked one or an aggregate,
and well shaped; (event, channel, trigger) is unique; every linked row is parked and points at an aggregate of its own
channel; every aggregate carries exactly the notifications of the rows linked into it; and while its channel lives, a
parked row has a flush timer waiting or in flight. `Runs.StepKeepsInv` proves it of every committed transaction of
every service, with exceptions striking at any point of a dispatch, and `Runs.RunKeepsInv` of every reachable state.

**Where the code and its own words part.** The model follows the code.

- At most one waiting timer per channel, or per event and rule, is not an invariant: a dispatch that raises or a
  recovered claim puts a second one back, and the lookups then raise. Exactly when:
  `OneTimer.OneFlushUnlessPutBack`, `OneTimer.OneFlushOverRuns`, `OneTimer.OneFollowUpUnlessPutBack`,
  `OneTimer.OneFollowUpOverRuns`,
  `OneTimer.RaisesExactlyWhen`, `Staging.StagingFailsExactlyWhen`. Runs: `Traps.TwoFlushesBlockStaging`,
  `Traps.TwoRenotifyTimersKeepARowInProgress`, `Traps.TwoEscalationsBlockPlanning`.
- `deliver` can leave a row in progress (`Ticks.DeliveryResolvesUnless`; a run:
  `Traps.TwoRenotifyTimersKeepARowInProgress`).
- 'delivered' and 'dead' are absorbing with one worker (`Retries.SettledForGood`), but not with two, since `deliver`
  does not look at the status it overwrites. Exactly when, for any number of workers: `Settling.SettledUnlessRequeued`,
  `Settling.DeliveredUnlessTakenBack`, `Settling.DeadUnlessRevived`, `Settling.SettledOverRuns`,
  `Settling.DeliveredOverRuns`. A run: `Traps.TwoWorkersReopenADelivered`.
- A condition whose pattern does not compile is said to never fire, but it is dropped, so an including one admits more
  instead of nothing (`BrokenPatterns.NeverFiringExactlyWhen`, `BrokenPatterns.WidenedExactlyWhen`; rules:
  `BrokenPatterns.BrokenIncludeAdmitsEveryNamespace`, `BrokenPatterns.BrokenMatcherAdmitsEveryAlert`). In a share one
  such matcher denies everything (`Matching.BrokenMatcherDeniesAll`).
- A re-fired alert's row is reopened so that it is notified on again, and its escalation cycle starts afresh, but the
  unique key still holds its first announcement and its first escalation. A row is staged exactly when its key is free
  (`Refires.SentExactlyWhenFree`, `Refires.FollowsUpExactlyWhenFree`, `Refires.SilentExactlyWhen`,
  `Refires.SentOnceWhileKept`); a run in which the second firing tells nobody: `Refires.RefiredAlertTellsNobody`,
  `Refires.RefireIsRoutedInVain`.
- A dry-run import promises an overwrite that the cluster will refuse when the object is another owner's
  (`RuleImport.PlanPredictsRun`; one: `RuleImport.StrangerBreaksTheForecast`).
- Moving a rule to another team loses an annotation that is present but empty, and a builder state that is out of
  sync or whose threshold is not finite (`PrometheusRule.RetargetCommutes`; rules: `PrometheusRule.MovingLoses`).
- A report dispatched after the schedule's next occurrence leaves a gap (`Reports.DispatchedInTimeTiles`; one:
  `Reports.LateDailyReportSkipsADay`).
- A rule that lost its last ordinary channel cannot be saved as read (`Config.ResaveIsIdentity`; requests:
  `Config.DeletedChannelBlocksResave`).

## Model

| member | source | states |
|---|---|---|
| Matching.CompileMatchers | backend/app/services/routing.py:122-161 | The loop that compiles a rule's matchers yields, per side, exactly the matchers whose pattern compiles, in position order and each with its own regex. |
| Matching.VerdictMeaning | backend/app/services/routing.py:164-292 | Evaluation through compilation and sorting meets the declarative reading of the stored rule: the verdict names the first failing stage (cluster, gate, severity, namespace, include, exclude) and, for a matcher stage, the lowest position that blocks; it matches exactly when nothing blocks. |
| Matching.MatcherMeaning | backend/app/services/routing.py:196-219 | A compiled matcher matches exactly when its pattern is found in the alert's name, in the named label, or in the named annotation, according to its target; without a key, without that label or annotation, or for another target it never does. VerdictMeaning and ShareMeaning are stated on this reading. |
| Matching.SeverityMeaning | backend/app/services/routing.py:251-259 | The severity filter passes exactly when some listed severity is the alert's but for the case of letters, with 'none' for an alert that has none. |
| Matching.BuildTransientMatchers | backend/app/services/routing.py:865-900 | The loop keeps exactly the complete share matchers, each at its stored index. |
| Matching.ShareMeaning | backend/app/services/sharing.py:88-136 | A share admits an alert if and only if every stored matcher is complete, compiles and is satisfied on its own side; no matchers admits everything. |
| Matching.OneMatcherScope | backend/app/services/sharing.py:88-136 | A scope of one matcher, written out: which text the pattern is looked for in, by target and key, and that finding it admits the alert exactly for an including matcher. |
| Matching.AddingAMatcherNeverWidens | backend/app/services/sharing.py:88-118 | Inserting any matcher at any place never admits an alert that was kept out before. |
| Matching.BrokenMatcherDeniesAll | backend/app/services/sharing.py:88-118 | One incomplete or uncompilable matcher denies every alert. |
| BrokenPatterns.BrokenPatternsAreDropped | backend/app/services/routing.py:105-161 | A rule's verdict, down to the blocking position, is that of the rule with its uncompilable namespace patterns and matchers deleted. |
| BrokenPatterns.WidenedExactlyWhen | backend/app/services/routing.py:105-292 | Whatever the author meant by the broken patterns, an alert the rule admits is one the rule as meant keeps out if and only if every pattern of a non-empty namespace include list was lost and none as meant fits, or a lost exclude pattern fits, or a lost matcher blocks. |
| BrokenPatterns.NarrowedExactlyWhen | backend/app/services/routing.py:105-292 | The other way round: an alert the rule as meant admits is kept out if and only if some include pattern compiles and none that compiles fits its namespace. |
| BrokenPatterns.NeverFiringExactlyWhen | backend/app/services/routing.py:122-193 | Against the documented reading, in which a broken condition never fires: an alert is admitted under that reading if and only if the code admits it and the rule has neither a non-empty include list without a pattern that compiles nor a broken include matcher. |
| BrokenPatterns.BrokenIncludeAdmitsEveryNamespace | backend/app/services/routing.py:105-119 | A rule for one namespace whose only pattern is broken admits every namespace, though under the documented reading it admits none. |
| BrokenPatterns.BrokenBesideSound | backend/app/services/routing.py:105-119 | Beside a pattern that compiles, the broken one admits nothing more: only that one pattern is disabled. |
| BrokenPatterns.BrokenMatcherAdmitsEveryAlert | backend/app/services/routing.py:122-161 | A rule whose only include matcher is broken admits every alert, though under the documented reading it admits none. |
| Staging.StageAllAddsKeys | backend/app/services/routing.py:497-587 | Staging for a list of channels adds exactly their (event, channel, trigger) keys; staging that stops early adds a subset and nothing else. |
| Staging.StagingFailsExactlyWhen | backend/app/services/routing.py:470-555 | Staging raises exactly when the key is free, the channel must be parked, and two or more flush timers already wait where the lookup tolerates one. |
| Staging.StageAllFailsExactlyWhen | backend/app/services/routing.py:470-587 | Staging for a list of channels raises if and only if some channel on it would raise alone, before anything was staged. |
| Effects.NewsIsStaged | backend/app/services/routing.py:431-555 | A notification no row announces yet becomes one row, field by field: 'pending' exactly when the channel is 'off', is 'auto' without a limit, or has fewer than its limit of ordinary rows created in the last 3600 seconds, and 'digested' otherwise; nothing else is written when it goes straight out. |
| Effects.ParkedNewsIsAwaited | backend/app/services/routing.py:470-494 | A parked notification finds a waiting flush timer of its channel, or starts one due when the channel's window of minutes ends. |
| Effects.OldNewsIsDropped | backend/app/services/routing.py:536-552 | A notification some row announces already changes nothing. |
| Staging.ParkingDependsOnlyOnCreation | backend/app/services/routing.py:431-467 | Two tables that agree on which ordinary rows of a channel were created when, whatever became of them, give the same park decision. |
| Routing.PlanIsUnion | backend/app/services/routing.py:407-425 | The planned channels are the union over all matching rules of their live channels, and each is attributed to the first rule that offers it. |
| Routing.RoutingMeetsSpec | backend/app/services/routing.py:673-796 | The keys routing adds are exactly: this event and trigger with each channel some enabled matching notify rule of the owner lists, unless an enabled suppress rule of the owner matches; plus the same for every team a matching view_notify share opens, over its include_shared rules. Neither rule order nor share order appears in the condition, and the two reported counts sum to the number of keys added. |
| Routing.EscalationsArePlanned | backend/app/services/routing.py:590-636 | After a firing transition each matching rule that escalates has a waiting timer; only rules that had none gained one, and exactly one. |
| Routing.RoutingKeepsInv | backend/app/services/routing.py:673-796 | Routing keeps the queue invariant even when it raises half-way, and a resolved transition leaves none of the event's timers waiting. |
| Outcomes.RoutingReturns | backend/app/services/routing.py:673-796 | Routing does not raise as long as no channel has two flush timers waiting and the event no two escalations of one rule. |
| Outcomes.RoutingReports | backend/app/services/routing.py:673-796 | What routing reports: unassigned without a team; suppressed, with a matching suppress rule of the owner named and recorded on the event, exactly when there is one; otherwise 'no match' exactly when the owner's rules reach no live channel, and routed exactly when a row was added. Nothing else of any event changes. |
| Invariants.StageRowKeeps | backend/app/services/routing.py:497-555 | Staging keeps the whole queue invariant: shapes, links, unique keys, batch contents, nobody stranded. |
| Invariants.CancelPendingKeeps | backend/app/services/scheduled_actions.py:22-42 | Cancelling an event's timers keeps the invariant and leaves every flush timer untouched. |
| Invariants.FlushEmptiesChannel | backend/app/worker/scheduler.py:347-429 | A completed flush leaves nothing parked on its channel and keeps the invariant, for zero, one or many parked rows. |
| Invariants.DispatchKeeps | backend/app/worker/scheduler.py:439-482 | Dispatching any timer, whatever fails and wherever, keeps the invariant. |
| Invariants.DeliverKeeps | backend/app/worker/outbox.py:162-325 | Every outcome of a delivery keeps the invariant. |
| Invariants.PurgeRowsKeeps | backend/app/services/retention.py:147-195 | A purge batch of any ids keeps the invariant: an aggregate takes its children along, so no surviving row loses its link. |
| Runs.StepKeepsInv | backend/app/worker/scheduler.py:347-482 | Every committed step of any service, in any state that satisfies the invariant, keeps it. |
| Runs.RunKeepsInv | backend/app/worker/scheduler.py:347-482 | The invariant holds in every state of every run of freely interleaved steps. |
| Runs.NoRowIsEverStranded | backend/app/services/routing.py:470-494 | In every reachable state a parked, unlinked row on a live channel has a flush timer of that channel waiting or in flight. |
| Carriers.OneCarrier | backend/app/worker/scheduler.py:381-420 | Once linked, a row stays parked and linked to the same aggregate for the rest of the run; it is never queued on its own and never enters a second digest. |
| Carriers.LinkedIsCarried | backend/app/worker/scheduler.py:396-420 | A linked row is a parked ordinary row, and its aggregate is a digest of the same channel whose payload holds its notification. |
| Carriers.FlushOutcome | backend/app/worker/scheduler.py:347-429 | One flush does nothing, returns the single parked row to the queue, or creates one aggregate whose payload list is exactly the parked rows' payloads in creation order and links exactly those rows. |
| Effects.SmallFlush | backend/app/worker/scheduler.py:347-380 | A flush with nobody waiting changes nothing; one with a single waiter puts that row back in the queue and changes nothing else of it. |
| Effects.DigestIsMade | backend/app/worker/scheduler.py:381-429 | A flush with several waiters adds one digest row, field by field, due at once, that carries their texts in order of creation, their number and the oldest's time; each waiter is marked with it and nothing else changes. |
| RateBound.RateBounded | backend/app/services/routing.py:453-467 | Over any run in which a channel stays on 'auto' with limit L, every closed one-hour window, wherever it starts, holds at most L surviving rows that staging put straight into the queue. |
| RateBound.HourAdmitsAtMostLimit | backend/app/services/routing.py:453-467 | While purges spare the channel's rows created in an hour, at most L rows went straight into the queue in that hour, counting every row ever admitted and whatever became of it. |
| Timely.NoNewsIsHeldBack | backend/app/services/routing.py:453-467 | The other side, over any run: on an 'auto' channel with limit L, a new notification staged after an hour in which fewer than L ordinary notifications of the channel came up goes straight into the queue, whatever became of those. |
| TimerSafety.NothingForClosedAlerts | backend/app/worker/scheduler.py:162-344 | Dispatching a follow-up of an alert that is resolved, acknowledged or gone settles the timer as cancelled and changes nothing else (or requeues it after an early failure): no row, no successor. |
| Effects.HandlesExactlyWork | backend/app/worker/scheduler.py:162-429 | A dispatch is skipped exactly when there is no work, read off the tables: the alert does not fire or is acknowledged, the rule is gone, disabled or no longer asks, no escalation channel is live and its own team's or consenting, or the channel to flush is gone. |
| Effects.TimerIsSettled | backend/app/worker/scheduler.py:439-482 | A dispatched timer ends 'done' or 'cancelled' at that time according to whether it had work, or waits exactly one more minute after an exception. |
| Effects.EscalationIsPlanned | backend/app/services/routing.py:590-636 | An escalation is planned for the rule's number of minutes ahead, unless one waits for that alert and rule already. |
| Effects.LeasesTakenBack | backend/app/worker/outbox.py:328-342 | Recovering leases queues exactly the rows in progress that were locked before the cutoff, with their leases given up and nothing else changed. |
| Timely.NoTimerIsClaimedEarly | backend/app/worker/scheduler.py:96-137 | In every run a timer is claimed no earlier than it was due when it was seen waiting, as long as only claimed timers are dispatched. |
| Timely.EscalationIsNotEarly | backend/app/services/routing.py:590-636 | So an escalation planned for m minutes later is not claimed by any step before those minutes have passed. |
| Timely.ReminderIsNotEarly | backend/app/worker/outbox.py:315-325 | And a reminder started by a delivery not before the rule's interval has passed. |
| TimerSafety.FollowUpsOnlyForOpenAlerts | backend/app/worker/scheduler.py:162-344 | In any step, a new escalation or renotify row comes only from dispatching a timer whose alert is firing and unacknowledged at that moment, for that alert and with that timer's trigger. |
| TimerSafety.DispatchKeys | backend/app/worker/scheduler.py:162-344 | A follow-up dispatch adds only keys of its event, its recipients and its trigger, and all of them when it completes. |
| TimerSafety.RedispatchIsIdempotent | backend/app/worker/scheduler.py:439-482 | Dispatching again after a dispatch that failed part-way leaves the same set of keys as one clean dispatch, when events, rules and channels are unchanged. |
| Effects.FailureKeepsStaged | backend/app/worker/scheduler.py:439-482 | What was staged before an exception stays: exactly the keys of the channels reached by then have been added. |
| TimerSafety.FreshCycle | backend/app/worker/scheduler.py:285-344 | Until a renotify timer is dispatched for the first time no row anywhere carries its trigger, whether the timer waited when the run began or came up on the way. |
| TimerSafety.FirstCycleNotifiesAll | backend/app/worker/scheduler.py:325-343 | So the first completed dispatch of a cycle adds a new key for every live channel of the rule: the unique key swallows none of it. |
| TimerSafety.CompletedRenotifyHasSuccessor | backend/app/worker/scheduler.py:252-344 | A completed renotify dispatch leaves a next cycle waiting for the same event and rule. |
| TimerSafety.SkippedHasNoSuccessor | backend/app/worker/scheduler.py:439-482 | A skipped dispatch, for whatever reason, cancels its own timer and changes nothing else: no row, no successor, every other timer as it was. |
| Retries.WorkerRunIsSole | backend/app/worker/outbox.py:430-480 | One worker that claims and recovers leases only with empty hands, delivers only what it holds, and may drop anything at any moment, never delivers a row whose lease it has lost, however its steps interleave with everything else. |
| Ticks.PollIsWork | backend/app/worker/outbox.py:345-389 | One poll is such a stretch of single steps, from empty hands to empty hands, under any clock that does not go back. |
| Retries.LeasesInOrder | backend/app/worker/outbox.py:52-159 | With one worker, in every reachable state: in progress exactly when both lock fields are set, and fewer than eight failures while still queued. |
| Retries.SettledForGood | backend/app/worker/outbox.py:137-159 | With one worker 'delivered' and 'dead' are absorbing over the whole run: between any two states such a row does not change, except that deleting its rule nulls the reference. |
| Settling.SettledUnlessRequeued | backend/app/worker/outbox.py:145-342 | With any number of workers one step keeps a settled row settled if and only if the step is not a delivery of that row that fails on a usable channel with attempts to spare. |
| Settling.DeliveredUnlessTakenBack | backend/app/worker/outbox.py:162-342 | One step keeps a delivered row 'delivered' if and only if the step is not a late delivery of it that fails or finds the channel unusable, its type unknown or its configuration invalid. |
| Settling.DeadUnlessRevived | backend/app/worker/outbox.py:162-342 | One step keeps a dead row 'dead' if and only if the step is not a late delivery of it, on a usable channel, that fails with attempts to spare or succeeds without its lookup raising. |
| Settling.SettledOverRuns | backend/app/worker/outbox.py:145-342 | Over any run of any workers a row that is settled at one state and there at a later one stays settled in between if and only if no step in between puts it back in the queue. |
| Settling.DeliveredOverRuns | backend/app/worker/outbox.py:162-342 | The same for 'delivered' itself: it lasts if and only if no late outcome in between takes it back. |
| Retries.RetriesAreBounded | backend/app/worker/outbox.py:52-159 | In a one-worker run a row, staged in the run or before it, fails at most eight times, is claimed at most eight times plus once per recovered lease, and failed at most seven times while still queued; what it brought into the run is counted in. |
| Retries.WaitsNeverShrink | backend/app/worker/outbox.py:145-159 | Jitter aside, the wait after a later failure is never shorter, and never longer than half an hour. |
| Effects.FailedRowWaits | backend/app/worker/outbox.py:137-159 | A failed row is queued again after 60, 120, 240, 480, 960, 1800 or 1800 seconds plus the jitter, by its count of failures; the eighth failure makes it dead. |
| Effects.SentRowIsDelivered | backend/app/worker/outbox.py:300-325 | A sent row is 'delivered' at that time with its lease given up, and a firing notification of a rule with an interval starts one reminder that many minutes ahead, unless one waits. |
| Effects.UndeliverableRowDies | backend/app/worker/outbox.py:162-240 | A row whose channel is gone, deleted or disabled, whose type is unknown or whose configuration is invalid is dead, with its failures still counted. |
| Retries.ExhaustionTakes | backend/app/worker/outbox.py:145-159 | Eight failures end in 'dead' and schedule between 5460 and 5565 seconds of waiting in all, for any jitters in range. |
| OneTimer.RaisesExactlyWhen | backend/app/worker/scheduler.py:162-482 | A dispatch ends in an exception if and only if the tables before it and the fault say so: a fault that strikes a handler which does not skip, or a lookup that meets two waiting timers for a recipient to be parked or for the next cycle. |
| OneTimer.OneFlushUnlessPutBack | backend/app/services/routing.py:470-494 | One step keeps at most one waiting flush timer per channel if and only if it puts no second one back to waiting, by a dispatch that raises or by recovering a stale claim. |
| OneTimer.OneFlushOverRuns | backend/app/services/routing.py:470-494 | Over whole runs: at most one flush timer waits per channel up to a state if and only if no step until then put a second one back. |
| OneTimer.OneFollowUpUnlessPutBack | backend/app/worker/scheduler.py:252-282 | The same for at most one waiting escalation or renotify timer per event and rule, over every step: planning an escalation, a firing delivery and the next cycle never add a second; a raised dispatch or a recovered claim does, exactly beside a waiting one. |
| OneTimer.OneFollowUpOverRuns | backend/app/services/routing.py:590-636 | Over whole runs: the promise of one waiting timer per event and rule holds up to a state if and only if no step until then put a second one back. |
| Traps.TwoRenotifyTimersKeepARowInProgress | backend/app/worker/scheduler.py:252-282 | A run in which a failed renotify dispatch leaves two waiting timers for one event and rule, after which a sent notification stays in progress, as if nothing had been sent, whenever it is delivered. |
| Traps.TwoEscalationsBlockPlanning | backend/app/services/routing.py:590-636 | A run in which a failed escalation dispatch leaves two waiting timers for one event and rule, after which planning its escalation raises. |
| Traps.TwoFlushesBlockStaging | backend/app/worker/scheduler.py:466-478 | A run in which a failed flush leaves two waiting flush timers, after which staging a parked notification for the channel raises for any payload and time. |
| Traps.TwoWorkersReopenADelivered | backend/app/worker/outbox.py:162-342 | A run of two workers in which a row goes from 'delivered' back to 'pending'. |
| Traps.AcknowledgedAlertsGetATimerButNoNotification | backend/app/worker/outbox.py:315-325 | A firing delivery for an acknowledged alert still starts a renotify timer; dispatching that timer stages nothing and cancels it. |
| Refires.SentExactlyWhenFree | backend/app/services/routing.py:497-587 | When routing returns, a transition has a new row for a channel if and only if the channel is notified and no row holds (event, channel, trigger). |
| Refires.FollowsUpExactlyWhenFree | backend/app/worker/scheduler.py:162-344 | A completed escalation or renotify has a new row for a channel if and only if the channel is one of its targets and no row holds its key. |
| Refires.SilentExactlyWhen | backend/app/worker/scheduler.py:162-250 | A completed escalation adds no key at all if and only if every target already holds an escalation of that alert, from an earlier firing or from another rule. |
| Refires.SentOnceWhileKept | backend/app/models/outbox.py:33-35 | Over any run: while a row is kept its key stays taken, and staging under that key changes nothing, whatever the trigger. |
| Refires.RefiredAlertTellsNobody | backend/app/services/ingest.py:379-405 | A run in which an alert fires, is announced and escalated, resolves, and fires again: its second announcement and its second escalation, from a timer of its own, leave the outbox as it was. |
| Refires.RefireIsRoutedInVain | backend/app/services/routing.py:673-796 | In that run the re-fired alert, routed with any order of rules and any shares, does reach the channel, and no row is added for it. |
| Ticks.DeliveryResolvesUnless | backend/app/worker/outbox.py:162-389 | The documented promise that delivery never leaves a row in progress fails exactly when something breaks outside its own catch or a successful send's renotify lookup raises; then nothing was changed. Otherwise both lock fields are cleared. |
| Ticks.DispatchNeverLeavesClaimed | backend/app/worker/scheduler.py:439-482 | Dispatch never leaves its timer claimed, and leaves it waiting, one minute later, if and only if the handler raises, which is decided by the tables before and the fault. |
| Ticks.DeliverEachKeeps | backend/app/worker/outbox.py:345-389 | Delivering a claimed batch row by row keeps the invariant and never parks or unlinks a row. |
| Alerts.AckOnce | backend/app/api/alerts.py:868-919 | A second acknowledgement changes nothing, not even the time of the first. |
| Alerts.FirstAckIs | backend/app/api/alerts.py:868-919 | The first acknowledgement marks the alert with its time and cancels its waiting timers at that time, and that is all. |
| Alerts.UnackUndoesAllButTimers | backend/app/api/alerts.py:922-959 | Acknowledging and taking it back equals cancelling the event's waiting timers and nothing else. |
| Alerts.AcknowledgedIsQuiet | backend/app/api/alerts.py:883-892 | After an acknowledgement none of the event's timers waits, and dispatching one already in flight stages no row, whatever fails. |
| Alerts.ResolvedTestIsQuiet | backend/app/api/alerts.py:1340-1349 | Resolving a test alert by hand keeps the queue invariant and leaves none of its timers waiting. |
| Alerts.ResolvedTestIsMarked | backend/app/api/alerts.py:1320-1349 | A test alert resolved by hand is, before it is routed, exactly the alert, resolved and ended at that time. |
| Alerts.NothingToResolve | backend/app/api/alerts.py:1320-1349 | An ordinary alert is refused and a resolved one left as it is. |
| Purging.PurgeRowsTwice | backend/app/services/retention.py:147-195 | Two outbox purge batches amount to one batch of their union. |
| Purging.PurgeRowsCount | backend/app/services/retention.py:185-194 | A batch removes its own rows plus its aggregates' children and no row is counted under both headings. |
| Purging.PurgedRowsAre | backend/app/services/retention.py:147-195 | The purge removes a row exactly when it is delivered or dead and created before the cutoff, or was folded into one that is; every other row is unchanged and no link dangles. |
| Purging.PurgedTimersAre | backend/app/services/retention.py:68-92 | The purge removes exactly the timers done or cancelled before the cutoff. |
| Purging.PurgeEventsTwice | backend/app/services/retention.py:94-144 | Two event purge batches amount to one batch of their union. |
| Purging.PurgedEventsAre | backend/app/services/retention.py:94-144 | An event goes exactly when it expired, a firing event that is not a test never goes, a row goes exactly when its event did, and no row, timer or link is left pointing at something removed. |
| Engine.Store.StageOutboxRow | backend/app/services/routing.py:497-555 | Changes the tables exactly as the staging specification says: duplicate, queued, parked with a flush timer, or raised. |
| Engine.Store.RouteEvent | backend/app/services/routing.py:673-796 | The whole routing pass, with its early returns and loops, has exactly the specified effect and outcome. |
| Engine.Store.RouteOwn | backend/app/services/routing.py:689-733 | The owner's pass cancels timers of a resolved event, records a suppression or schedules escalations, and yields the specified plan, on every path. |
| Engine.Store.FanOut | backend/app/services/routing.py:776-796 | The loop over matching shares has exactly the specified effect and count, including where it raises. |
| Engine.Store.MatchedNotifyChannels | backend/app/services/routing.py:407-425 | The setdefault loops build the specified plan, channel by channel. |
| Engine.Store.ScheduleEscalations | backend/app/services/routing.py:590-636 | The loop over notify rules has exactly the specified effect, including where it raises. |
| Engine.Store.StageOutbox | backend/app/services/routing.py:558-587 | The loop over the plan stages and counts exactly as specified, including where it raises. |
| Engine.Store.RouteSharedView | backend/app/services/routing.py:639-670 | A share target's pass stages that team's plan, or nothing when one of its suppress rules matches. |
| Engine.Store.ClaimDueActions | backend/app/worker/scheduler.py:70-137 | Claims in place exactly the waiting timers that are due and have fewer than `limit` due ones ahead of them, by due time and then id; every other timer is untouched. |
| Engine.Store.RecoverStaleClaims | backend/app/worker/scheduler.py:140-159 | Afterwards no stale claim remains; every timer that was stale waits with nothing else about it changed, every other timer is untouched, the queue invariant is kept, and the number put back is returned. |
| Engine.Store.CancelPendingTimers | backend/app/services/scheduled_actions.py:22-42 | Afterwards none of the event's timers waits; timers of other events, timers no longer waiting and every flush timer are untouched, the queue invariant is kept, and the number cancelled is returned. |
| Engine.Store.RunEscalation | backend/app/worker/scheduler.py:162-249 | The escalation handler's checks, consent filter and staging loop have the specified effect on every path. |
| Engine.Store.RunRenotify | backend/app/worker/scheduler.py:285-344 | The renotify handler stages for the rule's live channels and schedules the next cycle as specified on every path. |
| Engine.Store.RunDigestFlush | backend/app/worker/scheduler.py:347-429 | The linking loop turns the parked rows into one aggregate exactly as specified. |
| Engine.Store.DispatchAction | backend/app/worker/scheduler.py:439-482 | Runs the handler and settles the timer exactly as specified. |
| Engine.Store.ClaimBatch | backend/app/worker/outbox.py:52-130 | Leases in place exactly the queued rows that are due and have fewer than `limit` due ones ahead of them, by time and then id; every other row is untouched. |
| Engine.Store.RecoverStaleLeases | backend/app/worker/outbox.py:328-342 | Afterwards no stale lease remains; every row that held one is queued again with its failures still counted, every other row is untouched, the queue invariant is kept, and the number freed is returned. |
| Engine.Store.DeliverRow | backend/app/worker/outbox.py:137-325 | The state change of one delivery, on every outcome, including the rolled-back one. |
| Engine.Store.RunTick | backend/app/worker/outbox.py:345-389 | Claims a batch and delivers it row by row, each under its own reading of the clock, keeping the invariant. |
| Engine.Store.RunSchedulerTick | backend/app/worker/scheduler.py:485-507 | Claims a batch of timers and dispatches them one by one, each under its own reading of the clock, keeping the invariant. |
| Engine.Store.PurgeNotificationOutbox | backend/app/services/retention.py:147-195 | For any batch size of at least one the loop ends, has the effect of one purge of everything expired, and returns the exact number of rows removed. |
| Engine.Store.PurgeAlertEvents | backend/app/services/retention.py:94-144 | For any batch size of at least one the loop ends, has the effect of one purge of everything expired, and returns the exact number of events removed. |
| Engine.Store.PurgeTimers | backend/app/services/retention.py:68-91 | The shared batch loop, over settled timers: ends, equals one purge, counts exactly. |
| Engine.Store.AckAlert | backend/app/api/alerts.py:868-919 | Afterwards the alert is acknowledged; the first time at that instant and with none of its timers left waiting, later ones change nothing. Nothing else about any event changes, other events' timers and all rows are untouched, and the queue invariant is kept. |
| Engine.Store.UnackAlert | backend/app/api/alerts.py:922-959 | Afterwards the alert is unacknowledged and nothing else has changed: no cancelled timer is restored, and a timer of the alert that is still in flight acts again exactly if the alert is firing; the queue invariant is kept. |
| Engine.Store.ResolveTestAlert | backend/app/api/alerts.py:1320-1374 | Refuses ordinary alerts, ignores resolved ones, and otherwise marks the alert resolved and routes that very alert as 'resolved'. |
| Ingest.CountersAddUp | backend/app/services/ingest.py:408-415 | For any batch the seven counters sum to `received`, which is the number of alerts. |
| Ingest.RecordWrites | backend/app/services/ingest.py:318-405 | Recording an alert writes exactly one row, new only when the identity was unknown; the row takes the alert's status and one more delivery, and a transition is announced exactly when the row starts or stops firing. Identities stay unique and a firing row has no end. |
| Deadman.FirstDeliveryIsStored | backend/app/services/ingest.py:298-376 | A first delivery becomes one row, field by field: labels, annotations, name, lower-cased severity, namespace, team, times and count; it is announced exactly when it fires. |
| Deadman.LaterDeliveryIsFolded | backend/app/services/ingest.py:378-405 | A later delivery changes only when the row was last received, how often, and whether it fires and since when it is over; it is announced exactly when it changes the status. |
| Ingest.CloseIncidentsKeep | backend/app/services/ingest.py:192-247 | Closing incidents resolves exactly the listed rows, at the given time, one transition each, and leaves every other row as it was. |
| Heartbeat.HeartbeatRecovers | backend/app/services/ingest.py:250-295 | A heartbeat makes its cluster healthy and closes the open incident, one transition if it was missing and none otherwise. |
| Heartbeat.OrdinaryAlertKeeps | backend/app/services/ingest.py:298-405 | Any other alert leaves every cluster's incidents and state as they were. |
| Heartbeat.FlipOpensOne | backend/app/worker/heartbeat.py:137-213 | A timeout flips the cluster to missing and opens one new incident, announced as created; every other row and cluster is unchanged. |
| Heartbeat.SweepFlipsTimedOut | backend/app/worker/heartbeat.py:216-275 | One sweep turns missing exactly the clusters that have timed out and keeps the agreement of state and incidents. |
| Deadman.RecordsLastBeat | backend/app/services/ingest.py:273-281 | In every reachable state the time a cluster records is that of the last heartbeat that arrived for it. |
| Deadman.MissingExactlyWhenOverdue | backend/app/worker/heartbeat.py:168-213 | In any run a sweep makes a cluster missing exactly when it is enabled, watched, healthy, does not wait for the switch's own alert, and its last heartbeat arrived more than its timeout in seconds before the sweep. |
| Deadman.PunctualClusterIsNeverMissing | backend/app/worker/heartbeat.py:168-213 | Over any stretch of a run in which every sweep of a cluster finds its last heartbeat young enough, the cluster does not go missing, whatever else happens. |
| Deadman.BeatHeals | backend/app/services/ingest.py:273-281 | A batch with a heartbeat makes its cluster healthy, whatever it was. |
| Heartbeat.UpdateKeeps | backend/app/api/clusters.py:345-386 | Turning a missing cluster (or its heartbeat) off resets it to unknown and closes its incident; any other settings change leaves rows and state alone. |
| Deadman.SettingsAreChanged | backend/app/api/clusters.py:319-390 | A settings change sets exactly the given fields; switching a missing cluster or its watch off resets it and closes exactly its open incidents at that time, and any other change leaves state and events alone. |
| Deadman.BeatCloses | backend/app/services/ingest.py:273-281 | A heartbeat marks its cluster healthy with the time, and of a missing cluster it closes exactly the open incidents; no other event is touched. |
| Deadman.OtherAlertsAreRecorded | backend/app/services/ingest.py:283-300 | An alert that is no heartbeat is recorded when its start is a usable time and skipped otherwise. |
| Deadman.IncidentIsRaised | backend/app/worker/heartbeat.py:95-136 | The incident a sweep raises, field by field: critical, firing since the sweep, under the cluster's own fingerprint, labelled with the cluster's name and the team it is assigned to. |
| Heartbeat.HeartbeatAgreement | backend/app/worker/heartbeat.py:168-213 | In every reachable state a cluster is missing exactly when it has exactly one firing incident, and otherwise has none; one that never sent a heartbeat never had an incident. |
| Heartbeat.OneIncidentPerEdge | backend/app/worker/heartbeat.py:168-213 | A cluster has had exactly as many incidents as it has gone from not missing to missing. |
| Heartbeat.LastWriteWins | backend/app/services/ingest.py:250-405 | In every reachable state each ordinary identity has exactly one row if it was ever delivered and none otherwise; the row has the status of the latest delivery and counts all of them, identities are unique, and a firing row has no end. |
| Heartbeat.TransitionsBalance | backend/app/services/ingest.py:192-405 | In every reachable state each row's transitions alternate beginning with an opening, a row is firing exactly when its last one opened it, and created + reopened - resolved equals the number of firing rows. |
| Desk.Rows.IngestAlert | backend/app/services/ingest.py:250-405 | Processes one alert in place, on every branch, as specified. |
| Desk.Rows.IngestBatch | backend/app/services/ingest.py:408-415 | The batch loop has the specified effect and counters. |
| Desk.Rows.ResolveHeartbeatLostEvent | backend/app/services/ingest.py:192-247 | The loop closes the cluster's firing incidents as specified. |
| Desk.Rows.CheckAndFlipOne | backend/app/worker/heartbeat.py:137-213 | Flips a timed-out cluster and injects its incident through ingest; reports whether it did. |
| Desk.Rows.SweepClusters | backend/app/worker/heartbeat.py:216-275 | The loop over candidates has the effect of the specified sweep and counts the candidates. |
| Desk.Rows.UpdateClusterSettings | backend/app/api/clusters.py:345-386 | Applies a patch field by field and closes the incident when it disables a missing cluster. |
| PromNumber.RoundTrip | backend/app/services/rules.py:62-112 | For every normalised sign, digits and exponent, of any length and size and on both sides of the fixed/scientific switch, parsing the rendered text gives them back. |
| PromNumber.ParseKeepsValue | backend/app/services/rules.py:62-89 | Every text of the float grammar parses, to a normal triple (or zero) that denotes the same number. |
| PromNumber.CanonicalTextKeepsValue | backend/app/services/rules.py:62-112 | Parsing and rendering a text of the grammar gives a text of the grammar that denotes the same number. |
| PromNumber.OneNumberOneText | backend/app/services/rules.py:115-143 | Two texts denote the same number if and only if they are rewritten to the same text. |
| PromExpr.QuoteIsEscape | backend/app/services/rules.py:146-147 | The two whole-string replacements are one per-character escape. |
| PromExpr.DecodeGenerate | backend/app/services/rules.py:150-166 | A decoder recovers metric, filters, comparison and threshold text from the generated expression, for arbitrary quotes and backslashes in values. |
| PromExpr.GenerateInjective | backend/app/services/rules.py:150-166 | Two states with identifier-shaped metric and keys that generate the same text are the same state. |
| PromExpr.SelectorInMetricCollides | backend/app/services/rules.py:150-166 | Without that shape it fails: every state with filters shares its text with a different, filterless one whose metric spells out the whole selector. |
| PrometheusRule.BuildPrometheusRule | backend/app/services/rules.py:205-268 | Filling the dictionaries step by step yields the specified object. |
| PrometheusRule.ParsePrometheusRule | backend/app/services/rules.py:271-332 | Popping the reserved keys step by step yields the specified rule. |
| PrometheusRule.ObjectNameInjective | backend/app/services/rules.py:193-202 | No two (team id, slug) pairs share an object name. |
| PrometheusRule.ParseBuild | backend/app/services/rules.py:205-332 | Parsing what was built gives the rule back if and only if it is in normal form: no reserved keys in its maps, nothing present but empty, builder state in sync exactly in builder mode. |
| PrometheusRule.AnyObjectParses | backend/app/services/rules.py:271-332 | What parsing makes of any object at all, field by field, whatever is missing from it. |
| PrometheusRule.RetargetCommutes | backend/app/services/rules.py:205-332 | Building a parsed rule for another team equals building the original for it if and only if a builder state is in sync and no link annotation is present but empty. |
| PrometheusRule.MovingLoses | backend/app/services/rules.py:205-332 | Three rules that moving changes, for any two teams: one with an empty runbook annotation, one edited by hand in builder mode, one with an infinite threshold. |
| PrometheusRule.BuilderModeIsEarned | backend/app/services/rules.py:305-318 | Builder mode is reported exactly when the stored state is readable and regenerates the rule's expression, and then no other identifier-shaped state generates it. |
| RuleImport.FindFromFinds | backend/app/services/rule_transfer.py:192-211 | The search returns the first free candidate, or nothing only when all of them are taken. |
| RuleImport.CandidateMatchesPattern | backend/app/services/rule_transfer.py:202-205 | A candidate matches the slug pattern its base matched, even when the base was cut to fit 63 characters. |
| RuleImport.PlanPredictsRun | backend/app/services/rule_transfer.py:214-379 | For any batch and strategy the dry run and the real run give the same verdicts if and only if no accepted rule is to overwrite an object that was there before and is not the team's; the dry run changes nothing. |
| RuleImport.StrangerBreaksTheForecast | backend/app/services/rule_transfer.py:214-379 | For any team and slug, a hand-made object of that name: the dry run announces an overwrite, the real run fails and changes nothing. |
| RuleImport.ForeignObjectsAreSafe | backend/app/services/rule_transfer.py:214-379 | No batch, whatever its strategy, changes or removes an object that is not the team's. |
| ImportedRules.OthersKeepTheirObjects | backend/app/services/rule_transfer.py:214-322 | An object without this service's mark or with another team's id is there after any import, dry or real, just as it was. |
| ImportedRules.ForecastFailsExactlyWhen | backend/app/services/rule_transfer.py:214-379 | Dry run and real run differ exactly when the strategy is to overwrite and some accepted rule's name is held by such an object. |
| RuleImport.SkipAndRenameLeaveAlone | backend/app/services/rule_transfer.py:262-285 | With 'skip' or 'rename' every object that was there before is exactly as it was. |
| RuleImport.NewSlugsAreFresh | backend/app/services/rule_transfer.py:192-322 | The slugs under which a batch creates something were not in the cluster before and are pairwise distinct. |
| ImportedRules.WrittenRulesAreThere | backend/app/services/rule_transfer.py:280-322 | After a real import the object of every slug reported as created, overwritten or renamed to is the imported rule: it parses back to that rule under that slug, field by field, and carries the importing team's name and labels. Of several written under one slug it is the last. |
| ImportedRules.OtherObjectsAreUntouched | backend/app/services/rule_transfer.py:280-322 | Every object under any other name is as it was, for every strategy: none has come, gone or changed. |
| ImportedRules.VerdictsAreDeserved | backend/app/services/rule_transfer.py:214-322 | Every verdict of a plan is decided by the cluster and what came before: failed for an invalid rule or a refused expression, created for a free slug, else skipped, overwritten, or renamed to a slug that is free, by strategy. |
| RuleImport.RenamedSlugMatches | backend/app/services/rule_transfer.py:273-287 | A renamed rule's new slug matches the slug pattern. |
| RuleImport.Cluster.ReplaceRule | backend/app/services/k8s.py:323-366 | Replaces an object exactly when it exists and is the team's; no name appears or disappears, and an object that is not the team's is never changed. |
| RuleImport.Cluster.FindRenameSlug | backend/app/services/rule_transfer.py:192-211 | The bounded loop finds what the specification finds. |
| RuleImport.Cluster.ImportRules | backend/app/services/rule_transfer.py:214-322 | The pipeline loop, growing claimed slugs and verdicts while writing to the cluster, has exactly the specified effect. |
| Reports.NextRunIsLeast | backend/app/services/reports.py:84-143 | For every cadence the next run is the least instant strictly after the argument that matches the schedule's local wall-clock pattern. |
| Reports.PeriodShape | backend/app/services/reports.py:149-199 | A period is not empty and ends no later than its reference. |
| Reports.PeriodIsLastComplete | backend/app/services/reports.py:150-199 | A period runs over whole local days from one beginning to the next, any midnight, a Monday or a first of the month, and no later beginning has come by the instant it is computed for. |
| Calendar.OrdinalIs | backend/app/services/reports.py:84-148 | Day numbers in closed form: 365 for every earlier year, one for each leap year among them by the Gregorian rule, and the lengths of the months. |
| Calendar.LengthsAre | backend/app/services/reports.py:84-148 | The lengths of the months, and which years are leap years. |
| Calendar.WeekdayIs | backend/app/services/reports.py:84-148 | Day 1, the first of January of year 1, is a Monday, and weekdays go round by sevens. |
| Reports.PeriodsMeet | backend/app/services/reports.py:149-199 | The period of the next occurrence starts where this one's ends, across months of any length, leap years and December. |
| Reports.DispatchedInTimeTiles | backend/app/worker/scheduler.py:640-689 | The report after one dispatched at some instant continues it without gap or overlap if and only if that instant came before the schedule's next occurrence; a later dispatch leaves a gap, never an overlap. |
| Reports.LateDailyReportSkipsADay | backend/app/worker/scheduler.py:640-689 | A daily report dispatched thirty hours late, on any day: the whole following day is covered by no report. |
| Reports.ReportsTileTime | backend/app/worker/scheduler.py:640-689 | Over a schedule's life, with every dispatch in time, each instant between the first start and the last end lies in exactly one period. |
| HistoryExport.Export | backend/app/api/alerts.py:547-608 | The paging loop emits what the specification says over a table that changes between pages. |
| HistoryExport.NoRowTwice | backend/app/api/alerts.py:571-608 | If a row's timestamp only ever grows, no row is emitted twice, and never more than the cap. |
| LiveExport.ReceiptOnlyMovesOn | backend/app/services/ingest.py:250-405 | In every run of webhooks, sweeps and settings changes under one clock, a row's time of receipt never goes back and the row never goes away. |
| LiveExport.LiveExportNeverRepeats | backend/app/api/alerts.py:547-608 | So an export whose pages are read in states of such a run, with any condition on the rows and any page size, emits no alert twice and never more than the cap. |
| HistoryExport.SteadyRowsAreEmitted | backend/app/api/alerts.py:571-608 | A row that keeps matching with an unchanged timestamp is emitted exactly once, unless the cap stops the stream before reaching it. |
| HistoryExport.StaticExport | backend/app/api/alerts.py:571-608 | On a table that stands still the stream is the sorted list of matching rows cut at the cap, for any page size. |
| Config.ServeKeeps | backend/app/api/channels.py:173-207 | Every accepted request keeps the settings invariant: escalation that is on belongs to a notify rule, waits at least a minute and has a non-empty set of live, same-team or consenting channels; off, it is stored as unset. |
| Endpoints.AcceptedExactlyWhen | backend/app/api/routes.py:207-280 | A route request is accepted exactly when it is well formed and, for a suppress rule, names no channel and asks for nothing to be sent, or, for a notify rule, names own live channels, an interval of at least a minute if any, and for escalation a delay of at least a minute and live channels that are the team's own or consent. |
| Endpoints.StoredRuleIsRequest | backend/app/api/routes.py:376-422 | The stored rule is the request, field by field, with matchers numbered in order, each channel once, and escalation only where it is asked for. |
| Endpoints.RoutesAreServed | backend/app/api/routes.py:376-569 | Creating, replacing and deleting a route touch that route alone; a request that is not accepted changes nothing. |
| Endpoints.ChannelIsPatched | backend/app/api/channels.py:325-424 | A patched channel has exactly the given fields; when it takes its consent back, every other team's rule loses it, and its escalation with the last one. |
| Endpoints.PatchIsRefusedExactlyWhen | backend/app/api/channels.py:325-424 | A channel patch is not found for a missing or deleted channel, and refused exactly when it fails validation or would leave 'auto' without a limit. |
| Endpoints.ChannelIsDeleted | backend/app/api/channels.py:427-480 | A deleted channel stays as a tombstone and every rule loses it, to send to and to escalate to, and its escalation with the last one. |
| Config.RequestsKeepSettings | backend/app/api/routes.py:386-422 | So does any sequence of route and channel requests, accepted or refused. |
| Config.ResaveIsIdentity | backend/app/api/routes.py:207-280 | Saving a rule just as it was read passes escalation validation and changes nothing; the save as a whole is refused exactly for a notify rule that has lost its last channel. |
| Config.DeletedChannelBlocksResave | backend/app/api/channels.py:427-480 | Three accepted requests after which a stored notify rule has no channel left and cannot be saved as read. |
| Config.DispatchDropsNothing | backend/app/worker/scheduler.py:200-222 | The consent filter at dispatch time drops nothing from a stored rule, and escalation that is on always has a recipient. |
| Config.Admin.PostRoute | backend/app/api/routes.py:376-435 | Stores the composed rule, or refuses and changes nothing. |
| Config.Admin.PutRoute | backend/app/api/routes.py:490-549 | Replaces every field of the rule in place, or refuses and changes nothing. |
| Config.Admin.PatchChannel | backend/app/api/channels.py:325-424 | Applies a patch; revoking consent strips the channel from other teams' escalations and clears those it empties; a refusal rolls all of it back. |
| Config.Admin.RemoveChannel | backend/app/api/channels.py:427-498 | Soft-deletes the channel, drops it from every rule and clears escalations it empties. |
| Config.Admin.ClearEscalationForEmptiedRules | backend/app/api/channels.py:173-207 | Clears exactly the candidate rules that escalate and have no escalation channel left, and returns them. |

## Left out

- RateBound.RateBounded: holds for a fixed positive limit, the only kind the endpoints accept, and counts the rows still in the table; `RateBound.HourAdmitsAtMostLimit` counts every row. Report rows, which bypass staging, count toward the rate but are not bounded.
- Retries.RetriesAreBounded: one worker; with several it fails, since a row can be put back after it was settled (`Settling.SettledUnlessRequeued`, `Traps.TwoWorkersReopenADelivered`).
- Ticks.DispatchNeverLeavesClaimed: dispatch's own commit does not fail here. When it does nothing is written, so the timer stays claimed until its claim is recovered as stale; in a run that is the absence of a step.
- TimerSafety.RedispatchIsIdempotent: about the set of keys; which of two waiting successors survives is not fixed.
- LiveExport.LiveExportNeverRepeats: the runs are those of `Heartbeat.IsRun`; rows that retention deletes meanwhile are covered by `HistoryExport.NoRowTwice`, which lets any row come and go.
- Heartbeat.LastWriteWins: webhooks, sweeps, settings changes and new clusters; retention and deleted clusters are not part of these runs, no webhook uses a cluster's own incident fingerprint, and the clock never goes back.
- RuleImport.PlanPredictsRun: calls to the cluster succeed, and nobody else writes to it during the batch.
- Reports.NextRunIsLeast: local time is civil time at a fixed offset, with proleptic years in both directions; time-zone databases, daylight saving and Python's year limits are not modelled.
- Engine.Store.DeliverRow: what a send, the channel registry and the stored configuration do is a parameter, as is jitter; templates and rendered messages are not modelled.
- PromNumber.ParseKeepsValue: `int()` on an exponent also takes blanks and underscores, which float text never has.
- Transactions are atomic steps. An ingest transaction is cut into its single stagings, which only adds interleavings; row creation times are those of the deciding step; the approximate counts that the code accepts under races are not modelled.
- Ties in an ORDER BY are broken by id; a query without one returns any order.
- Regular expressions are uninterpreted: which patterns compile and what they match is a parameter. Lower-casing is ASCII only.
- Deadman.IncidentIsRaised: the incident's descriptive annotation, a sentence for people, is not modelled.
- Notification payloads are opaque text; triggers are a datatype rather than strings; the outbox's team_id and last_error columns are not modelled.
- Builder-state JSON is modelled by what reading it back gives; a threshold is its shortest decimal, so minus zero is zero.
- Alert statuses other than firing and resolved; the race between two inserts of one identity, which a transaction cannot see here.
- The cascade that deletes comments with an event, audit log rows, settings and the daily gate of the purge.
- The crash window between claiming a report and dispatching it, and the report's own queries and text.
- Authorization, the live event stream, statistics, templates, LDAP, plugins, metrics, migrations and the frontend.
