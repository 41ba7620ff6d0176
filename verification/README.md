# Verified model of the account-health notification core

This project models the part of the plugin that decides *when a person is told* about an account, and proves what
that part promises over every run. It covers five state machines and the algorithms between them:

- **the delivery dispatcher** — producers, one worker, stop callers and the resolvers they spawn, one step per critical
  section of the state lock, per channel operation, and per call of a hook, validity check or callback (`Dispatch`):
  what a stop guarantees (`DispatchSafety`, `DispatchStop`, `DispatchTheorems`, `DispatchTermination`,
  `DispatchHookOrder`, `DispatchHooks`), and what the worker guarantees before one, that no job is lost
  (`DispatchFlow`), that every job is served (`DispatchService`), that sends and callbacks are one to one
  (`DispatchReports`) and that a batch goes out in as few and as full messages as it can (`DispatchPlans`); the same
  critical sections as methods of a mutable object (`Dispatchers`);
- **the incident of one account** — health, suspicion clock, generation, alert latch, pending recovery (`Health`,
  `Incident`): what one event does to every field (`IncidentEffects`) and what a whole history does (`IncidentRuns`,
  `IncidentCourse`); as fields of a mutable record object (`Accounts`) inside a monitor (`Monitors`);
- **the state file** — writer lease, decoding, suppression rollbacks, the hand-off from an old monitor to its
  replacement, and what a restart leaves of any reachable account (`Store`, `Rollback`, `HandOff`, `Restarts`);
- **the weekly-usage latches**, over every history of readings and deliveries, and composed with every run of the
  dispatcher (`Quotas`, `QuotaCourse`, `QuotaRuns`);
- **the wake-up of the scan loop** (`Wakeup`);
- **the algorithms**: coalescing under the 1024-rune bound (`Text`, `Coalesce`, `CoalescedText`), discovery and its
  order (`Discovery`), the simultaneous move of replaced accounts (`Moves`) and which accounts move (`Correlations`), the
  second half of a scan (`Scan`): what becomes of the accounts it reads (`Observations`), who leaves with it
  (`Departures`), and what it queues (`ScanNotices`).

Three results span several machines. `HandOff.AlarmRetriedIffUnattempted` goes from a run of the old dispatcher, through
the hooks it ran, the rollbacks they registered and the history of claims and saves of the state file, to the first
notification the replacement queues. `QuotaRuns.OneNoticePerWindow` composes the latches with the dispatcher's re-validation, over every
interleaving. `Scan.ScanRoster` composes discovery, correlation, observation, preservation, removal and pruning over
live objects, and `Monitors.OneIdentityForLife` follows every such object through any number of scans.

Instants are whole seconds with 0 for "not set"; generations and tokens are unbounded; strings are sequences of
characters. A send either is accepted or not; a timer, a flush and the bound of a stop may fire at any moment.

Where the repository's own prose and its code disagree, the model follows the code:

- A comment says that a job's abandonment hook is complete before the validity check of an unattempted job
  (`internal/notifier/pushover.go:219-223`). A stop marks the job, unlocks and only then runs the hook, so the check can
  come first: `DispatchHooks.CheckMayPrecedeHook` is such a run. From the moment the beginning of a stop has returned the
  order does hold (`DispatchHooks.HookBeforeCheck`), and exactly: a check comes before its hook if and only if the
  first stop still has that hook on its list (`DispatchHooks.CheckFirstIffPledged`).
- `AlertSent` is not "the user was told": an alarm accepted while the account is merely suspect leaves no trace
  (`internal/monitor/monitor.go:1260-1263`). `IncidentRuns.AcceptedAlarmIsTold` says exactly when it does.
- A recovery the user receives need not be applied. One that arrives while the account is suspect leaves no trace, and
  the next healthy reading queues another: `IncidentRuns.TwoRecoveriesOneAlarm` is a history with two received
  recoveries and one alarm. `IncidentRuns.AcceptedRecoveryIsApplied` says exactly when one is applied, and
  `IncidentRuns.AlertBetweenRecoveries` is about those that are.
- Removal does not clear the suspicion clock (`internal/monitor/monitor.go:1083-1089`), so a run of suspicions may
  reach across a removal. `IncidentRuns.PromotionIsEarned` counts it so, in every history;
  `IncidentRuns.LongRunConfirms` and `IncidentRuns.ConfirmationIsExact` are about histories without removals, since an
  account that had already failed starts its count again after one.
- A restart drops the suspicion clock of an account that is not suspect (`internal/state/store.go:361-371`), so a failing
  account on its way from one failure state to the other starts its count again:
  `Restarts.RestartIsInvisible` says exactly when nothing is lost.
- A comment says that each weekly window warns and reports exhaustion at most once (`internal/state/store.go:197-200`).
  A reset instant that comes back, or a fall below the warning line, opens the window again and re-arms its notices
  (`internal/monitor/quota.go:275-285`): with readings of 85, 79 and 85 percent in one window a second warning is queued
  and wanted after the first was accepted (`Quotas.OneWindowTwoWarnings`). An accepted notice is wanted again exactly
  when a reading opens a window (`Quotas.NoticeRearmsIffNewWindow`), and the results about one notice per window are for
  windows that are not re-opened after a notice was queued.
- An account object keeps one identity for life as long as what is read has an identity. A credential read once without
  one hands its incident on to whatever identity is read next under its key (`internal/monitor/monitor.go:801-832`):
  `Scan.StatePassesOn`, and `Scan.IdentityLostIffOneEmpty` for the exact condition.

## Model

| member | source | states |
|---|---|---|
| Text.BoundTextIsOneShortLine | internal/notifier/pushover.go:812-821 | bounded text has no control character, so no line break, and fits its bound |
| Text.BoundTextIsTrimmed | internal/notifier/pushover.go:812-821 | bounded text neither begins nor ends with space |
| Text.BoundTextIsExact | internal/notifier/pushover.go:812-846 | control characters become spaces, the ends are trimmed, and only a text over its bound is cut, to one rune less and an ellipsis |
| Text.TrimTakesSpace | internal/notifier/pushover.go:812-821 | trimming takes away nothing but space |
| Text.BoundMessageKeeps | internal/notifier/pushover.go:823-846 | a trimmed message within the bound, without control characters but newlines and tabs, is not changed |
| Coalesce.SplitCoalescedJobs | internal/notifier/pushover.go:763-779 | the loop computes the greedy partition whose properties the next rows state |
| Coalesce.SplitPartitions | internal/notifier/pushover.go:763-779 | the groups concatenate to the input, each is nonempty with a body of at most 1024 runes, and every group but the last has at least four jobs |
| Coalesce.SplitIsMinimal | internal/notifier/pushover.go:763-779 | no contiguous partition into sendable groups has fewer groups |
| Coalesce.SplitIsTight | internal/notifier/pushover.go:763-779 | no message of a split has room, within 1024 runes, for the first job of the next |
| Coalesce.SplitIsUnique | internal/notifier/pushover.go:763-779 | the split is the only partition into sendable groups that have no room for the next job |
| Coalesce.FourJobsFit | internal/notifier/pushover.go:781-810 | any four jobs fit into one message, whatever their texts |
| Coalesce.BodyShrinks | internal/notifier/pushover.go:781-810 | leaving jobs out never makes a body longer |
| CoalescedText.WriteBody | internal/notifier/pushover.go:781-810 | the loop over the jobs writes the body the next row is about |
| CoalescedText.BodyReadsBack | internal/notifier/pushover.go:792-808 | cut at its newlines, a body is its count and one line for every job in order, with the job's bounded provider, name and reason, whatever texts the jobs carry |
| CoalescedText.CountReadsBack | internal/notifier/pushover.go:793 | the count in a body reads back as the number it was, without leading zeros |
| Coalesce.SentBodyIsVerbatim | internal/notifier/pushover.go:735-752 | what re-validation leaves of a group is sent within the bound: several survivors with exactly their coalesced body, a single one with its own message, unchanged if that is trimmed, printable and short enough |
| DispatchSafety.GroupingKeepsJobs | internal/notifier/pushover.go:695-705 | grouping a batch by kind and priority neither loses nor repeats a job |
| Dispatchers.GroupsByKind | internal/notifier/pushover.go:695-705 | every group is of one kind and priority, and different groups differ in one of them |
| DispatchSafety.MarkedJobs | internal/notifier/pushover.go:617-632 | only pending, unclaimed, never attempted jobs are marked, each at most as often as given, and none once stopping |
| DispatchSafety.MarkedExactly | internal/notifier/pushover.go:617-632 | before a stop, exactly the pending, unclaimed, never attempted jobs of a message are marked, once each |
| DispatchFlow.NothingIsLost | internal/notifier/pushover.go:634-755 | before a stop every accepted job is, exactly once, resolved, in the channel, or in the worker's hands: in a batch, in a message about to be sent, or on its way to be resolved |
| DispatchFlow.IdleWorkerServedAll | internal/notifier/pushover.go:634-660 | when the worker is back at its channel and finds nothing there, nothing is pending and every accepted job has been resolved once |
| DispatchService.PendingKeepsWorkerBusy | internal/notifier/pushover.go:634-755 | while a job is pending and no stop has begun, the started worker has a step to take |
| DispatchService.ServiceEnds | internal/notifier/pushover.go:634-755 | and between two arrivals it takes at most as many steps as a measure of its backlog |
| DispatchPlans.SentTogether | internal/notifier/pushover.go:695-752 | what is sent together is one to 32 jobs of one kind and priority, and if more than one, with a body of at most 1024 runes |
| DispatchPlans.NotSentApart | internal/notifier/pushover.go:729-752 | the messages still to be sent of a group have no room for one another, and the groups to come are of other kinds or priorities |
| DispatchPlans.BatchesAreBounded | internal/notifier/pushover.go:664-690 | a batch that is still collecting holds one to 31 jobs |
| DispatchPlans.LiveJobsAreAsked | internal/notifier/pushover.go:601-615 | the validity of exactly the jobs that are pending and unclaimed is asked, in order |
| DispatchReports.AttemptedIsSentOnce | internal/notifier/pushover.go:617-752 | in every run a job is attempted if and only if it is part of one message that was sent or is about to be, and never of two |
| DispatchReports.CallbacksAreTrue | internal/notifier/pushover.go:745-752 | what a callback of a delivery says is what became of a send the job was part of |
| DispatchReports.ResolvedIsReported | internal/notifier/pushover.go:456-464 | every attempted job that is resolved was sent in exactly one message and called back exactly once |
| DispatchSafety.RunInv | internal/notifier/pushover.go:351-632 | the dispatcher's invariant holds in every reachable state, and attempts, claims, hooks, sends and reports only grow |
| DispatchTheorems.SentIsNeverUnattempted | internal/notifier/pushover.go:466-477 | a job that was part of a send is never reported unattempted, before or after it |
| DispatchTheorems.StopEndsAttempts | internal/notifier/pushover.go:617-632 | no job becomes attempted once a stop has begun |
| DispatchTheorems.AttemptedIsNeverHooked | internal/notifier/pushover.go:505-532 | the abandonment hook of an attempted job never runs |
| DispatchTheorems.HooksSettledAtStop | internal/notifier/pushover.go:351-378 | when the beginning of a stop returns, hooks have run for exactly the accepted jobs never attempted |
| DispatchTheorems.ResolvedAtMostOnce | internal/notifier/pushover.go:409-503 | every job is resolved and called back at most once; the pending count, the idle channel and the done channels agree with the pending set; nothing is closed twice |
| DispatchTheorems.DiscardLosesNothing | internal/notifier/pushover.go:590-599 | a job the stop takes out of the channel is resolved, or is in the snapshot and a thread is on its way to resolve it |
| DispatchTheorems.FinalStopSettlesAll | internal/notifier/pushover.go:332-349 | when the final stop returns every accepted job has been resolved exactly once and no thread has a step left |
| DispatchTheorems.StopNeverDeadlocks | internal/notifier/pushover.go:332-349 | while a stop has not returned some thread can take a step |
| DispatchTermination.StopTerminates | internal/notifier/pushover.go:332-349 | from any moment of a stop on the threads take at most as many steps as a measure of the state, whatever is refused or drained in between, short of a new stop call |
| DispatchHooks.CheckMayPrecedeHook | internal/notifier/pushover.go:219-223 | a concrete run in which the worker reaches the validity check of a job whose hook the stop has noted but not yet run |
| DispatchHooks.CheckFirstIffPledged | internal/notifier/pushover.go:351-378 | in every run, the check of an unattempted job comes before its hook if and only if the first stop has noted the job and still has its hook to run |
| DispatchHooks.HookBeforeCheck | internal/notifier/pushover.go:351-378 | once the beginning of a stop has returned, every later check of an unattempted job comes after its hook |
| Dispatchers.GroupBatch | internal/notifier/pushover.go:695-705 | the loop with its map and order list yields the groups in order of first appearance |
| Dispatchers.Dispatcher.Enqueue | internal/notifier/pushover.go:409-432 | admission and the full channel, the pending count and the reopened idle channel, as the protocol step |
| Dispatchers.Dispatcher.ClaimResolution | internal/notifier/pushover.go:466-477 | claims exactly a pending, unclaimed job that is not attempted when claimed as unattempted |
| Dispatchers.Dispatcher.FinishResolution | internal/notifier/pushover.go:479-492 | removal, count, done and idle channels, as the protocol step |
| Dispatchers.Dispatcher.NoteAbandonment | internal/notifier/pushover.go:505-521 | notes a pending, unattempted job once, and tells whether the hook must run |
| Dispatchers.Dispatcher.CompleteAbandonment | internal/notifier/pushover.go:523-532 | the hook has run and is recorded as complete, whoever ran it before |
| Dispatchers.Dispatcher.MarkAttempted | internal/notifier/pushover.go:617-632 | marks, in order, what the protocol step marks |
| Dispatchers.Dispatcher.Snapshot | internal/notifier/pushover.go:351-374 | lists every pending job never attempted, whatever the map order, and the hooks not yet complete |
| Dispatchers.Dispatcher.DiscardQueue | internal/notifier/pushover.go:590-599 | empties the channel and touches nothing else |
| Health.ClassifyIsConservative | internal/health/classifier.go:27-122 | a failure is reported at once only for a definitive rejection of an enabled credential; quota and operator action are never suspicious; only typed suspicions can be confirmed |
| Health.DecidedWithoutDoubt | internal/health/classifier.go:27-46 | disabled exactly when the operator says so, healthy exactly when no current error is shown, quota-limited exactly for a 429 or an exhausted quota with no other failure on record |
| Health.DoubtIsTyped | internal/health/classifier.go:60-122 | of what remains suspect, a residual error and a cooldown of unknown cause can never be confirmed, a refusal only as a sign-in needed, everything else only as an outage |
| Health.ReasonNamesTheCause | internal/health/classifier.go:48-122 | which reason an error is given: definitive rejection first, then the status on record, then the message |
| Health.ConfirmedReasonNamesTheCause | internal/health/types.go:210-239 | a confirmed suspicion goes on naming its cause |
| Accounts.Account.WeighSuspicion | internal/monitor/monitor.go:842-879 | the suspicion clock, in place, is the function the run results are about |
| Accounts.Account.ChangeHealth | internal/monitor/monitor.go:881-917 | the transition branches, in place |
| Accounts.Account.KeepHealth | internal/monitor/monitor.go:918-930 | retries and reminders of an unchanged state, in place |
| Accounts.Account.ObserveHealth | internal/monitor/monitor.go:842-930 | one whole observation, in place |
| Accounts.Account.Deliver | internal/monitor/monitor.go:1224-1276 | the effect of a delivery on a current account, in place |
| Accounts.Account.Leave | internal/monitor/monitor.go:1080-1092 | removal of one account, in place |
| IncidentEffects.ObservedHealth | internal/monitor/monitor.go:842-886 | the state and reason after an observation, and when the change is recorded: only a suspicion can leave the observed state aside, by confirming or by leaving a failing account as it was |
| IncidentEffects.ObservedClock | internal/monitor/monitor.go:842-879 | the suspicion clock after an observation, every field of it |
| IncidentEffects.ObservedIncident | internal/monitor/monitor.go:887-912 | an incident gets its number and date exactly when it begins; the date goes when the account is sound again from no failure with nothing left to tell |
| IncidentEffects.ObservedMessages | internal/monitor/monitor.go:881-930 | a failure, reminder, recovery or disabled notice is queued if and only if it is called for, and never a removal |
| IncidentEffects.ObservedLedger | internal/monitor/monitor.go:899-917 | the latch and the pending recovery after an observation |
| IncidentEffects.ObservedMarkers | internal/monitor/monitor.go:1107-1123 | a marker shows the instant and incident of the last message queued, and a new failure forgets the recovery's |
| IncidentEffects.SettledAlarm | internal/monitor/monitor.go:1255-1268 | an accepted alarm of the current incident, state by state: recorded while failing; on a sound account the recovery from the previous state is pending and queued at once, or the latch released; no trace while suspect |
| IncidentEffects.SettledRecovery | internal/monitor/monitor.go:1277-1282 | an accepted recovery of the current incident closes it if the account is sound with the recovery pending, and queues nothing |
| IncidentEffects.SettledOtherwise | internal/monitor/monitor.go:1224-1254 | an unattempted message takes back exactly its own marker, everything else changes nothing |
| IncidentEffects.LeavesOnce | internal/monitor/monitor.go:1080-1092 | what leaving changes, what is announced, and that it happens once |
| IncidentCourse.IncidentLasts | internal/monitor/monitor.go:842-930 | from a failing state on an account goes on failing if and only if it does not leave and is not seen healthy, quota-limited or disabled; until then it is one incident with one number and one date |
| IncidentCourse.LatchIsExact | internal/monitor/monitor.go:899-1283 | in every history the alert latch is set if and only if an accepted alarm set it and nothing on a closed list has released it since |
| IncidentCourse.SoundIsAnswered | internal/monitor/monitor.go:1096-1104 | in every history an account that is sound while the user has been told of its incident has a recovery pending |
| IncidentCourse.RecoveryIsRetried | internal/monitor/monitor.go:927-929 | so every observation that finds it still sound after 300 seconds queues exactly the recovery |
| IncidentCourse.AlarmValidIffUnbroken | internal/monitor/monitor.go:1202-1203 | at its send an alarm is still valid if and only if the incident it was raised for has gone on without a break |
| IncidentCourse.RecoveryValidIffOwed | internal/monitor/monitor.go:1204-1205 | a recovery is still valid if and only if the account is sound, the user was told and not told back, and no incident has begun since |
| IncidentRuns.LedgerHolds | internal/monitor/monitor.go:801-1290 | in every history: a pending recovery means alerted and healthy, quota-limited or suspect; alerted means at least one incident and neither disabled nor removed; tickets are of incidents that happened |
| IncidentRuns.LedgerFromFresh | internal/monitor/monitor.go:801-1290 | in particular in every history of a fresh account |
| IncidentRuns.RecoveryNeedsAlert | internal/monitor/monitor.go:1096-1123 | a recovery is queued only while the alert is latched |
| IncidentRuns.AlertBetweenRecoveries | internal/monitor/monitor.go:1251-1283 | between two recoveries that are applied lies an accepted failure or reminder that is recorded |
| IncidentRuns.AcceptedRecoveryIsApplied | internal/monitor/monitor.go:1269-1282 | an accepted recovery of the current incident is applied exactly when the account is healthy with a recovery pending, and otherwise leaves no trace |
| IncidentRuns.TwoRecoveriesOneAlarm | internal/monitor/monitor.go:1269-1282 | a possible history in which the user receives two recoveries, each valid when it was queued, with no alarm between them |
| IncidentRuns.AcceptedAlarmIsTold | internal/monitor/monitor.go:1256-1268 | an accepted alarm is recorded exactly when the account is failing or healthy, and leaves no trace while it is suspect |
| IncidentRuns.GenerationCountsIncidents | internal/monitor/monitor.go:887-898 | the generation is the number of changes from not failing to failing |
| IncidentRuns.IncidentIsOne | internal/monitor/monitor.go:869-903 | within one incident its generation and its start stay the same, whatever is observed or delivered |
| IncidentRuns.StaleDelivery | internal/monitor/monitor.go:1255-1276 | a delivery of another generation changes nothing but that a stale recovery re-alerts an unannounced incident |
| IncidentRuns.AlarmsAreSpaced | internal/monitor/monitor.go:918-930 | while an account's health does not change, two alarms for it, whether raised by an observation or by a stale recovery of its own incident, are at least the retry interval apart, unless one was withdrawn as never attempted |
| IncidentRuns.FailureIsRetried | internal/monitor/monitor.go:918-930 | an unannounced failure is queued again by the first observation after the retry interval |
| IncidentRuns.PromotionIsEarned | internal/monitor/monitor.go:842-868 | a suspicion becomes a failure only after an unbroken run of the same class and target of the confirmation length, whose start becomes the start of the incident |
| IncidentRuns.LongRunConfirms | internal/monitor/monitor.go:842-868 | such a run does lead to the state it points to by its end, alternating reason codes notwithstanding |
| IncidentRuns.ConfirmationIsExact | internal/monitor/monitor.go:842-868 | without removals, a suspicious observation puts the account into the state it points to if and only if such a run ends with it; otherwise a failing account stays as it was and any other is suspect |
| IncidentRuns.HarmlessHistoryIsQuiet | internal/monitor/monitor.go:842-930 | a history of observations that are neither failures nor confirmable suspicions makes no failure and announces nothing but operator action and removal |
| IncidentRuns.QuotaNeverAlerts | internal/health/classifier.go:27-122 | from a fresh account, snapshots that are active, disabled, or only about quota never make a failure and never queue a failure, reminder or recovery |
| Rollback.SweepsCompose | internal/state/store.go:118-163 | applying two sets of rollbacks in turn is applying their union, so order and grouping do not matter |
| Rollback.SweepIsIdempotent | internal/state/store.go:118-163 | applying the registered set again changes nothing |
| Rollback.SweepIsExact | internal/state/store.go:118-163 | a marker changes only if a registered rollback names that account, generation and instant; everything else stays |
| Rollback.RegisterKeeps | internal/state/store.go:102-116 | what is registered always has an instant and a generation |
| Rollback.Find | internal/state/store.go:130-148 | the lookup finds the account under the key, or the only one with the identity |
| Rollback.WithdrawMarker | internal/state/store.go:149-161 | clears exactly the named marker of one account |
| Rollback.ApplySuppressionRollbacks | internal/state/store.go:118-163 | the loop over the set, in any order, over live accounts, is the sweep |
| Rollback.RollbackAgreesWithCallback | internal/monitor/monitor.go:1224-1241 | for one job the rollback and the unattempted callback do the same, and both in either order do what one does |
| Restarts.RestartIsInvisible | internal/state/store.go:343-377 | over every history, the state file gives an account's incident back unchanged if and only if the account is suspect or no suspicion of it is being timed; otherwise only that clock is lost |
| Restarts.ForeignStateIsTamed | internal/state/store.go:354-372 | of any file: unknown reason texts become the general reason, and a suspicion is kept only whole and on a suspect account |
| Restarts.MarkedMessagesHaveHooks | internal/monitor/monitor.go:1169-1192 | in every history exactly the alarms and recoveries, the messages that leave a marker, have an abandonment hook |
| Restarts.RollbackFinds | internal/state/store.go:130-148 | which account a rollback is about, in terms of the accounts that bear its identity |
| Restarts.RollbackFollowsAccount | internal/state/store.go:130-148 | an account that a scan moves between attempt and rollback is still found, wherever it lies, and no other |
| Restarts.RegisterForgetsTheOld | internal/state/store.go:102-116 | registering keeps the new rollback and forgets exactly those over a day old |
| Store.DecodingIsIdempotent | internal/state/store.go:354-372 | normalising a normalised file changes nothing |
| Store.LoadAfterSave | internal/state/store.go:321-442 | what is saved under one set of rollbacks and loaded under a later one is the decoded original with both applied |
| Store.RestartKeepsIncident | internal/state/store.go:343-377 | latch, generation, health, start and pending recovery survive a restart; only a live suspicion keeps its clock |
| Store.RestartDoesNotRepeatAlert | internal/monitor/monitor.go:918-930 | an announced, unchanged incident is not announced again after a restart; at most a due reminder is queued |
| Store.Decode | internal/state/store.go:354-372 | the normalising loop over live records |
| Store.PruneRemoved | internal/state/store.go:595-610 | exactly the removed accounts whose retention is over go, and they are counted |
| Store.OwnerIsHolder | internal/state/store.go:253-301 | a token owns the lease if and only if some claim handed it out, nobody claimed since and it was not released since |
| Store.ContentIsLastCommitted | internal/state/store.go:423-441 | the file holds a table if and only if some commit of it came from the holder at its time and no later commit did |
| Store.SupersededNeverCommits | internal/state/store.go:423-429 | after a newer claim no older token ever commits |
| Store.SupersededReleaseIsIdle | internal/state/store.go:291-301 | the release of a superseded writer never revokes the current owner |
| Store.ClaimedContentStands | internal/state/store.go:423-441 | what the file holds at a claim stands until the claimant commits or releases or a newer writer claims |
| Store.ClaimantCommits | internal/state/store.go:423-441 | the current claimant's own commit takes effect |
| Store.Writer.ClaimLease | internal/state/store.go:282-288 | a claim takes a token larger than all before and the ownership |
| Store.Writer.ReleaseLease | internal/state/store.go:291-301 | a release gives up the ownership only if it is held |
| Store.Writer.Save | internal/state/store.go:379-442 | rollbacks first, then the commit if and only if the token is authorized |
| Store.Writer.Load | internal/state/store.go:321-339 | fresh, normalised records with the registered rollbacks; never partial data |
| HandOff.HooksRegister | internal/state/store.go:102-116 | after the hooks ran, every one of their rollbacks is registered and nothing else came in |
| HandOff.MarkerAfterHandOff | internal/state/store.go:102-163 | the replacement finds the marker of a job withdrawn if and only if the old dispatcher never attempted it, whatever part of the rollbacks the old save had applied |
| HandOff.MarkerAfterClaim | internal/state/store.go:253-441 | the same from the history of the file: whatever superseded writers try after the claim, what the claimant loads has the marker withdrawn if and only if the job was never attempted, and the incident goes on |
| HandOff.AlarmRetriedIffUnattempted | internal/monitor/monitor.go:1169-1192 | end to end, for a failure not announced yet and for a reminder that is due: within the retry interval the replacement that claimed the file queues exactly that alarm again if it was never attempted, and nothing if it was |
| HandOff.RecoveryRetriedIffUnattempted | internal/monitor/monitor.go:1169-1192 | the same for a pending recovery |
| Quotas.ApplyQuota | internal/monitor/quota.go:263-301 | one usage reading, in place, and the notice it queues |
| Quotas.DeliverQuota | internal/monitor/quota.go:337-372 | a delivery's effect on the latches, in place |
| QuotaCourse.QuotaShowsLastReading | internal/monitor/quota.go:263-285 | in every history the quota shows the last reading, whose reset instant names the window |
| QuotaCourse.SentLatchIsExact | internal/monitor/quota.go:272-372 | in every history a latch is set if and only if that notice of the current window was accepted and no reading has opened a window since |
| QuotaCourse.NoticeQueuedExactly | internal/monitor/quota.go:287-300 | a reading queues a notice if and only if usage is in its range, neither it nor an exhaustion was accepted since the window opened, the last attempt is long enough ago, and the dispatcher takes it |
| QuotaCourse.MarkersFollow | internal/monitor/quota.go:279-355 | the attempt markers: set by their own notice, forgotten by a new window, taken back by their own unattempted notice |
| Quotas.LatchFallsOnNewWindow | internal/monitor/quota.go:272-285 | a set latch falls exactly when a reading opens a new window, and then both fall |
| Quotas.NoticeRearmsIffNewWindow | internal/monitor/quota.go:272-300 | an accepted notice is wanted again in the window of a reading if and only if the reading opens a window |
| Quotas.OneWindowTwoWarnings | internal/monitor/quota.go:272-300 | readings of 85, 79 and 85 percent with one reset instant warn twice, the first warning having been accepted |
| Quotas.QueuedIsWanted | internal/monitor/quota.go:287-300 | a queued notice is wanted, over its limit, and not within the retry interval of the last attempt in its window |
| Quotas.DeliveryIsFinal | internal/monitor/quota.go:337-372 | an accepted notice is not wanted again, and an accepted exhaustion ends the warning too |
| Quotas.UnattemptedFreesRetry | internal/monitor/quota.go:347-355 | a notice that was never attempted can be queued again at once |
| QuotaRuns.OneNoticePerWindow | internal/monitor/quota.go:263-372 | in every run, after an accepted warning (exhaustion) no later message carries that notice for the window, and after an accepted exhaustion none carries a warning, however many are queued |
| QuotaRuns.SentNoticeIsWanted | internal/notifier/pushover.go:724-752 | at the moment of every send its usage notices are still wanted, or their window has moved on |
| Discovery.Discover | internal/health/discovery.go:11-38 | the loop over the roster yields the kept entries, sorted |
| Discovery.DiscoveredOnce | internal/health/discovery.go:11-38 | the candidates are exactly the first monitored entry of every key, no key twice, in order |
| Discovery.EveryAccountOnce | internal/health/discovery.go:11-38 | under providers without a colon, the candidates are every sign-in account of an enabled provider, once, as the roster first lists it, with its index trimmed, ordered by provider and then index |
| Discovery.KeysAreAccounts | internal/health/types.go:241-243 | under such providers two entries share a key if and only if they share provider and trimmed index |
| Discovery.OrderedUnique | internal/monitor/monitor.go:582-584 | there is only one sorted order of results with distinct keys |
| Discovery.SortedIgnoresOrder | internal/monitor/monitor.go:578-584 | sorting forgets the order results came in |
| Moves.FeasibleIsGreatest | internal/monitor/monitor.go:988-1002 | the moves carried out are the greatest set whose destinations are free or vacated |
| Moves.FeasibleIffNotStuck | internal/monitor/monitor.go:988-1002 | a proposal fails if and only if its chain of destinations ends at an account that stays; swaps and cycles succeed |
| Moves.KeepFeasible | internal/monitor/monitor.go:988-1002 | the fixpoint loop terminates and leaves exactly that set, whatever the map order |
| Moves.ProposeMoves | internal/monitor/monitor.go:948-983 | the search proposes exactly the unique, uncontradicted claims |
| Moves.FindCarrier | internal/monitor/monitor.go:966-979 | finds the one other record with the identity, or none if there are several |
| Moves.CarryOut | internal/monitor/monitor.go:1003-1017 | the two loops move the same objects to their new keys at once |
| Moves.Correlate | internal/monitor/monitor.go:937-1018 | the whole correlation over live objects is the simultaneous move of the greatest feasible set |
| Moves.CorrelationPermutes | internal/monitor/monitor.go:937-1018 | no account is lost, doubled or overwritten, and each keeps everything but key, index and removal time |
| Correlations.RightfulMovesHappen | internal/monitor/monitor.go:937-1018 | records whose only rightful owners are candidates of the scan, and whose new places are free or left by one of them, all move, with nothing changed but key, index and removal time |
| Correlations.OthersStay | internal/monitor/monitor.go:957-1002 | a record that no such set of moves takes along stays as it is |
| Correlations.NothingElseArrives | internal/monitor/monitor.go:1003-1017 | whatever lies under a key afterwards lay there before or came there rightfully |
| Correlations.DoubtfulDrawsNothing | internal/monitor/monitor.go:948-983 | a candidate without identity, counted more than once, contradicted by a read, or with several records, draws no record to its key |
| Correlations.FreePlaceIsTaken | internal/monitor/monitor.go:964-1017 | a replacement under a free key takes its account along |
| Correlations.SwapHappens | internal/monitor/monitor.go:988-1017 | two accounts that have exchanged their keys are exchanged |
| Correlations.CountsAreOfResults | internal/monitor/monitor.go:591-614 | an identity's count is the number of results that show it in the roster, in a read, or in both |
| Correlations.RuntimeIsLastRead | internal/monitor/monitor.go:595-614 | what is known to have been read under a key is what its last read shows |
| Scan.FindHeir | internal/monitor/monitor.go:1050-1068 | finds the one record, out of the roster, that bears the snapshot's unique identity |
| Scan.ApplyObservation | internal/monitor/monitor.go:801-931 | which object an observation lands on, that a taken-over key gets a fresh one, and the whole new table |
| Scan.ObservationKeepsIdentity | internal/monitor/monitor.go:801-840 | identities and keys stay together; a key reused by another identity starts fresh unless that identity's own record is found |
| Scan.IdentityLostIffOneEmpty | internal/monitor/monitor.go:801-832 | a record kept under its key changes identity if and only if exactly one of its own and the observed identity is empty |
| Scan.StatePassesOn | internal/monitor/monitor.go:801-832 | an account read once without identity hands incident and usage latches to whatever identity is read next under its key |
| Observations.OwnRecordGoesOn | internal/monitor/monitor.go:801-840 | a read of an account whose record lies under its key, as far as identities can tell, changes that record alone: the incident goes on, the usage stays, everything else is as read |
| Observations.HeirMovesIn | internal/monitor/monitor.go:809-832 | otherwise the one record off the roster that bears the identity, counted once, moves in and goes on |
| Observations.StrangerStartsAfresh | internal/monitor/monitor.go:820-832 | otherwise the account starts with unknown health, no incident and no usage |
| Observations.ReadAccountAfterScan | internal/monitor/monitor.go:578-646 | at the end of the scan such an account is as its own observation has left it, whatever else the scan did |
| Scan.CountsTally | internal/monitor/monitor.go:591-614 | every identity is counted once per result that shows it |
| Scan.CountIdentities | internal/monitor/monitor.go:595-614 | the counting loop |
| Scan.Preserve | internal/monitor/monitor.go:1020-1048 | spares the one record that may still be the candidate's |
| Scan.MarkAllRemoved | internal/monitor/monitor.go:1070-1094 | every account whose key is not active leaves, and exactly those not marked before are announced, as far as that is configured and taken, in any order |
| Scan.Finish | internal/monitor/monitor.go:578-646 | the second half of a scan, over live objects, from results in any order: the whole new table and every notification queued; every account is an old object or a new one, one object per key, and an old one keeps its identity |
| Scan.DiscoveredScan | internal/monitor/monitor.go:517-584 | what discovery returns, with one result per candidate, has distinct keys, covers every candidate and sorts in one way only |
| Scan.ScanRoster | internal/monitor/monitor.go:517-646 | the same from the roster and one result for each candidate discovered in it |
| Scan.ScanIgnoresOrder | internal/monitor/monitor.go:578-639 | the same results give the same state and the same notifications, whatever their completion order |
| Scan.FailedReadKeepsAccount | internal/monitor/monitor.go:617-639 | an account whose own read failed keeps everything; only the retention of an earlier removal can end it |
| Scan.RemovalsAreExact | internal/monitor/monitor.go:633-646 | no account in the roster is marked removed, and every other is unless it was spared |
| Departures.SparedIsMayBe | internal/monitor/monitor.go:617-629 | the accounts spared are exactly those on the roster and those that one failed candidate may still be |
| Departures.MayBeStays | internal/monitor/monitor.go:624-646 | if a failed candidate's identity counts once and exactly one account off the roster bears it, that account is untouched, up to the retention of an earlier removal, and its removal is not announced |
| Departures.OthersLeave | internal/monitor/monitor.go:1070-1094 | every other account off the roster ends up removed, its alert and recovery closed, announced as configured and taken unless removed before, and forgotten once its retention is over |
| Scan.ScanKeeps | internal/monitor/monitor.go:578-646 | every scan keeps every account's alert ledger and its place under its own key, and leaves no account without identity |
| ScanNotices.RemovalNoticesAreExact | internal/monitor/monitor.go:1070-1094 | a scan announces the removal of exactly the accounts that leave with it, once each, as far as that is configured and the dispatcher takes it |
| ScanNotices.OnlyReadsSpeak | internal/monitor/monitor.go:617-639 | everything else a scan queues is about an account it has read: a failed read says nothing |
| ScanNotices.OneNotificationPerAccount | internal/monitor/monitor.go:578-646 | if every account was read at most once and under a key of the roster, no account is spoken of twice by one scan |
| Monitors.OneIdentityForLife | internal/monitor/monitor.go:801-840 | over any number of scans, an object that is an account at two moments has the same identity at both |
| Monitors.OneKeyAtATime | internal/monitor/monitor.go:937-1018 | at every moment of such a record an object is under one key |
| Monitors.Monitor.IsCurrent | internal/monitor/monitor.go:1157-1167 | whether this very object is still in the map |
| Monitors.Monitor.DeliveryValid | internal/monitor/monitor.go:1194-1214 | a queued notification is valid if and only if its object is current and its reason still holds |
| Monitors.Monitor.DeliveryCallback | internal/monitor/monitor.go:1216-1290 | a delivery for an object out of the map, or in a retiring monitor, changes nothing; otherwise it settles the incident |
| Monitors.Monitor.NoticeValid | internal/monitor/quota.go:317-327 | validity of a usage notice |
| Monitors.Monitor.NoticeCallback | internal/monitor/quota.go:337-372 | a usage delivery in a live monitor for a current object settles its latches, any other changes nothing |
| Monitors.Monitor.Reconcile | internal/monitor/monitor.go:517-646 | the monitor's accounts after a scan and what it queues: their values, which objects they are, that each keeps its identity, key and ledger, and that the scans so far stay a sound record of identities |
| Wakeup.NoLostWakeup | internal/monitor/monitor.go:358-429 | while the loop runs, anything pending means a token, a loop between taking and clearing, or an observer about to send |
| Wakeup.ReportLeadsToScan | internal/monitor/monitor.go:386-429 | a reported failure that is not pruned is followed by a scan within four loop steps |
| Wakeup.Signals.ObserveUsageFailure | internal/monitor/monitor.go:412-429 | what is recorded, that it is the protocol's report step, and whether a send must follow |
| Wakeup.Signals.Signal | internal/monitor/monitor.go:422-427 | the send into the one-slot channel, dropped when it is full, is the protocol step |
| Wakeup.Signals.DrainSignal | internal/monitor/monitor.go:405-410 | at the end of the startup grace an old token is taken out, as in the protocol |
| Wakeup.Signals.ClearPending | internal/monitor/monitor.go:399-403 | nothing is pending afterwards, as in the protocol |
| Wakeup.Signals.PruneEvidence | internal/monitor/monitor.go:446-460 | unlisted and old evidence goes, with its pending mark, as the protocol's pruning step |

## Left out

- HTTP, form encoding, credentials and response parsing of Pushover and of the usage endpoints: a send is accepted or not, a reading is a percentage and an instant.
- File-system detail: temporary files, permissions, path canonicalisation, legacy migration; the rename is one atomic commit and a path is one `StateFile`.
- Plugin and native glue, request routing, configuration parsing, HTML and status views, message titles and time formatting.
- Wall-clock bounds: stop and claim timeouts, tickers and the coalescing timer may fire at any moment, so results are about safety and numbers of steps, not latency.
- Fairness: liveness is stated as absence of deadlock plus a falling measure, and, for the wake-up, as a bound on the loop's own steps.
- Text encoding: a string is a sequence of runes; lower-casing of providers and identity fingerprints are inputs.
- The rewriting of a usage window's reset instant as RFC 3339 text: the instant itself, in whole seconds, is the key of the window.
- Wrap-around of 64-bit generations and tokens.
- The channel status, the count of dropped jobs and the last-error texts, which nothing reads back.
- Dispatch: a batch may close at any moment, which covers a zero window, the timer and the flush; a group's text key is the pair of kind and priority.
- Dispatch.Step: the waits of a bounded stop change nothing and may end at once, so only the final stop's waits are steps.
- Accounts.Account.ObserveHealth: the incident's fields are kept in one value that is updated field by field; aliasing between them cannot occur in the source either.
- Dispatchers.Dispatcher.MarkAttempted: the per-job dispatch state is spread over sets of jobs instead of one record per job.
- Rollback.ApplySuppressionRollbacks: a visited set element is chosen freely, which covers every map order; a null account in the map is not modelled.
- Store.Decode: a file that does not decode is one value, `Garbled`; null entries of the accounts map are not modelled.
- Store.LoadAfterSave: serialisation is taken to be lossless.
- HandOff.MarkerAfterHandOff: assumes, as the code does implicitly, that attempts on one account have distinct instants and that hooks run within a day of the attempts they withdraw; a rollback older than a day is dropped.
- QuotaRuns.OneNoticePerWindow: the account object stays current for the whole run; a fall below the warning line re-arms the notices and is excluded by the definition of a run.
- Discovery.EveryAccountOnce: about provider names without a colon, as all supported ones are; otherwise two entries of different providers could share a key.
- DispatchService.ServiceEnds: counts the worker's steps while no job comes in; how long a send takes, and which thread runs next, is not modelled.
- Observations.ReadAccountAfterScan: about accounts read once under their own key; an account that takes over a record from off the roster is described read by read (`Observations.HeirMovesIn`).
- Scan.ApplyObservation: a state file with an empty account key is excluded; with one, the search for an inherited record would depend on map order.
- ScanNotices.OneNotificationPerAccount: about scans in which no two reads report the same account; a host that answers one candidate with another's entry is not excluded by the source.
- Scan.MarkAllRemoved: whether the dispatcher takes a removal notice is a parameter per account, not the fill of its channel at that moment.
- Scan.Finish: retirement in the middle of a scan, which skips the pruning, is not modelled.
- Monitors.OneIdentityForLife: about scans in which every credential that was read has an identity; `Scan.StatePassesOn` shows what happens otherwise.
- Wakeup.NoLostWakeup: evidence dropped on reading it keeps its pending mark, as in the source, and is not otherwise modelled.
- Accounts: the reading of usage, its error text and the last-poll instant are stored but nothing is stated about them.
