# A verified model of the status server

The repository is a monitor for virtual servers: agents report to a server, which keeps a live map of hosts, publishes a
public list, raises health and expiry alerts, and is configured from an administrator's page. This project models its hard
parts in Dafny and proves what they promise.

`dafny verify dfyconfig.toml` checks everything.

## What is modelled

| files | what they model |
|---|---|
| `runtime_state.dfy` | the versioned store of known hosts and alert timers: mutators, and saves split into snapshot and rename |
| `alerts.dfy`, `alert_runs.dfy` | one pass of the alert rules over a host, and whole runs of passes, reports, prunes and purges |
| `publication.dfy`, `lifecycle.dfy`, `stats.dfy` | the published list; the report thread, timer thread, purges, settings changes, crash and restart as atomic sections of one machine; the class whose methods are those sections |
| `hosts.dfy`, `restarts.dfy` | what configuration, access key and overrides make of a report, live and restored; what a restart gives back over whole runs |
| `locks.dfy` | every thread as nested lock scopes and channel operations |
| `calendar.dfy`, `renewals.dfy`, `expiry.dfy`, `notices.dfy` | dates, renewal cycles and the renewal loop, the cached expiry record, the notices as a due date nears |
| `settings.dfy`, `admin_normalize.dfy`, `admin_replace.dfy` | the administrator's settings: normalising, masking, merging, replacing |
| `settings_round_trip.dfy`, `settled_settings.dfy` | a scoped save from the browser and back; what normalising twice changes |
| `stored_fields.dfy`, `stored_notifiers.dfy` | what an accepted replacement stores, field by field, and which are refused |
| `settings_keys.dfy`, `settings_queue.dfy`, `stale_saves.dfy` | the keys a save names; the page's queue of saves; two pages that save at once |
| `admin_state.dfy`, `admin_runs.dfy`, `credentials.dfy` | the settings store in memory and on disk with all its operations, and whole runs of them; which credential changes are refused |
| `query_string.dfy`, `command_lines.dfy` | the install link's query; quoting for the shell and for systemd |
| `vnstat.dfy` | the client's billing window |
| `login.dfy` | the limiter on failed logins, attempt by attempt and with attempts that overlap |
| `text.dfy`, `payload.dfy`, `wrappers.dfy` | text operations, the reported statistics, options and results |

Each operation the program runs in place is a method of a class with the program's fields, or a method with the program's
loop. It is proved equal to a function on values, and the promises are lemmas about those functions: over every input,
every run or every reachable state.

Threads are modelled as atomic sections between two points where another thread may run, in any order. Time is whole
seconds on a clock that does not run backwards; dates are day numbers at a fixed offset from UTC; metrics are reals.
Random tokens, passwords and iteration orders of maps are parameters, so the lemmas hold for all of them. A hash is an
injective constructor, and serialised text is a constructor applied to the value. A failing file operation is a parameter.

## Where the code does not meet a promise

For each, the condition under which the promise holds is exact; counterexamples are concrete inputs or runs.

- An alert key `host:rule` splits back if and only if the rule id has no colon, which the settings do not enforce; a purge
  removes exactly the hosts' alerts under the same condition (`AlertKeySplits`, `ColonInRuleIdSurvivesPurge`,
  `PurgeRemovesExactlyTheirAlerts`, `PruneKeepsExactlyActive`).
- A host that reports itself offline raises an offline alert that no recovery follows, because recovery looks at staleness
  alone (`DeliveredAlertIsRecoveredExactlyWhenStale`, `SelfReportedOutageIsNotRecovered`).
- A cached expiry record whose timestamp is not positive is not renewed and grows stale
  (`RefreshIsFreshBeforeEpochExactlyWhen`, `EpochDateGoesStale`).
- `shell_quote` of an empty text vanishes from the command line (`QuotedIsOneWordExactlyWhenNotEmpty`).
- An install link on a base address with a query of its own does not give back its parameters (`InstallUrlComesBack`).
- A page with settings read before another page's save puts the old ones back; what is left of the other's save is exact,
  key by key and secret by secret (`StaleSaveLosesAnUpdate`, `OtherSaveSurvivesExactlyWhen`).
- Normalising is not idempotent for odd entry paths, addresses and Bark servers (`OddTextsDoNotSettle`,
  `NormalizeTwiceExactlyWhen`, `AcceptedIsSettledExactlyWhen`).
- The bound of five failures in five minutes holds if and only if no two login attempts of a key overlap
  (`TwoOverlappingAttemptsBreakTheBound`, `OverlappingAttemptsAreNotBounded`, `BoundHoldsExactlyWithoutOverlap`). A slow
  attempt can also move a lock back (`RecordMovesLockBackExactlyWhen`).
- The served list and the served text are written one after the other, so a reader may find the list ahead of the text
  (`ReaderSeesOldText`, `TextFollowsTheList`, `PublishedViewIsConsistent`).
- A session version at the largest 64-bit number no longer ends sessions (`UpdateEndsEarlierSessions`).
- The report thread clears a deleted host's marker before it looks at the group, so a report that is then rejected also
  un-hides the host (`RejectedReportUnhidesHost`, `RejectedReportUnhidesExactlyWhen`, `MarkerClearedExactlyWhen`).

## Model

| member | source | states |
|---|---|---|
| RuntimeState.AlertKeySplits | server/src/runtime_state.rs:208-210 | splitting `host:rule` at the last colon gives back host and rule if and only if the rule id has no colon, whatever the host |
| RuntimeState.ColonInRuleIdSurvivesPurge | server/src/runtime_state.rs:199-263 | counterexample: the alert of rule `cpu:high` on `vps` survives the purge of `vps` and does not survive a prune that should keep it |
| RuntimeState.RuntimeStateStore.UpsertHost | server/src/runtime_state.rs:190-197 | stores a host under its name and moves the generation; a blank name changes nothing |
| RuntimeState.RuntimeStateStore.PurgeHosts | server/src/runtime_state.rs:199-216 | removes the hosts and the alerts whose key ends in one of them; the generation moves, and `changed` is reported, exactly when the state changed |
| RuntimeState.RuntimeStateStore.UpdateAlerts | server/src/runtime_state.rs:227-236 | applies an update to the alerts alone; `changed` if and only if they differ |
| RuntimeState.RuntimeStateStore.MarkAlertEnqueued | server/src/runtime_state.rs:238-249 | stamps an existing alert; `changed` if and only if the state differs |
| RuntimeState.RuntimeStateStore.PruneAlertStates | server/src/runtime_state.rs:251-263 | keeps the alerts of active hosts and rules; `changed` if and only if some were dropped |
| RuntimeState.RuntimeStateStore.PublishSave | server/src/runtime_state.rs:291-304 | the second section of a save: file, result and every I/O fault |
| RuntimeState.RuntimeStateStore.Save | server/src/runtime_state.rs:265-305 | a save with nothing in between is never skipped |
| RuntimeState.ShrunkExactlyWhenChanged | server/src/runtime_state.rs:205-215 | the length-only change tests detect exactly the removals |
| RuntimeState.StepMovesGeneration | server/src/runtime_state.rs:190-263 | generations never go down, every change of state moves them, and only mutators do |
| RuntimeState.SaveIsOneAtomicWrite | server/src/runtime_state.rs:269-305 | in every interleaving of savers and mutators the file changes only by becoming the in-memory state of that instant |
| RuntimeState.NoStaleOverwrite | server/src/runtime_state.rs:269-305 | the generations renamed into place never go down, and the file is always the last of them |
| RuntimeState.SkippedExactlyWhenOvertaken | server/src/runtime_state.rs:289-304 | without faults a save is skipped, leaving the file alone, if and only if a mutator moved the generation since its snapshot; otherwise the file holds the present state |
| RuntimeState.PurgeByKey | server/src/runtime_state.rs:199-216 | a purge takes away an alert if and only if its key up to the last colon is one of the hosts, so keys without a colon stay |
| RuntimeState.PruneByKey | server/src/runtime_state.rs:251-263 | a prune leaves an alert if and only if its key is an active host, a colon and an active rule without one |
| RuntimeState.MemoryAfter | server/src/runtime_state.rs:190-263 | what memory holds after each operation, host by host and alert by alert: stored, taken away, replaced, stamped with its start kept, or as before |
| RuntimeState.PurgeRemovesExactlyTheirAlerts | server/src/runtime_state.rs:199-216 | every purge removes an alert exactly when it names the alert's host, if and only if the rule id has no colon |
| RuntimeState.PruneKeepsExactlyActive | server/src/runtime_state.rs:251-263 | every prune keeps an alert exactly when host and rule are active, if and only if the rule id has no colon |
| Alerts.CollectAlertEvents | server/src/stats.rs:806-891 | the loop over the rules yields the events and timers of the fold of single-rule steps |
| Alerts.TakeOfflineRecoveryRoutes | server/src/stats.rs:893-927 | the loop yields the routes and cleared timers of the fold over the offline rules |
| Alerts.EvaluateHost | server/src/stats.rs:495-533 | one host's pass on the store: collects, then stamps exactly the events the channel accepted; the generation moves whenever the state does |
| Alerts.UsageRuleReadsTheReport | server/src/stats.rs:806-891 | a usage rule starts, keeps or clears its timer and raises its event by the reported fields alone: memory and disk as used * 100 > threshold * total with a total above 0, cpu and load1, load5, load15 as that field; any other name, or a total of 0, clears |
| Alerts.OfflineRuleReadsTheReport | server/src/stats.rs:821-857 | an offline rule does so by the age of the last report and the reported online fields |
| Alerts.AppliesExactlyWhen | server/src/stats.rs:929-953 | a rule applies to a host if and only if it names no servers or groups, names the host, names its access key, or names a server group that lists the host |
| Alerts.CollectByKey | server/src/stats.rs:806-891 | with distinct rule ids a pass acts on each timer as that rule's step alone |
| Alerts.TakeRoutesExact | server/src/stats.rs:893-927 | recovery sends a route if and only if some applicable offline rule has a delivered alert with it, and sends it once |
| AlertRuns.EventByKey | server/src/stats.rs:375-533 | the map of timers is a product: a pass, report, prune or purge acts on each (host, rule) as its own step |
| AlertRuns.OfflineAlertsSpaced | server/src/stats.rs:821-857 | over any run with no end of the outage the k-th alert is at least start + duration + k (repeat + 1) |
| AlertRuns.OfflineAlertsPrompt | server/src/stats.rs:821-857 | while the host stays silent the alert times equal the greedy schedule: each the first evaluated tick that reaches its bound |
| AlertRuns.RecoveryPairsWithDelivery | server/src/stats.rs:375-398 | after any run a report that ends an outage sends a route if and only if an active, applicable offline rule enqueued an alert since its timer was last cleared, and sends it once |
| AlertRuns.StaleAlertIsRecovered | server/src/stats.rs:375-400 | an alert enqueued while the host was stale is followed, at its next report, by exactly one recovery on that rule's route |
| AlertRuns.DeliveredAlertIsRecoveredExactlyWhenStale | server/src/stats.rs:380-387 | a delivered alert is recovered by the next report if and only if the host was stale when that report arrived |
| AlertRuns.SelfReportedOutageIsNotRecovered | server/src/stats.rs:380-387 | for all hosts and times: one that reports itself offline and back online before it was ever stale gets its alert and no recovery, and the next look clears the timer |
| AlertRuns.ReportedOfflineHostIsNeverRecovered | server/src/stats.rs:380-387 | counterexample: such a host, with concrete times |
| AlertRuns.UsageAlertMeansExcursion | server/src/stats.rs:859-888 | a usage alert at t means: since some s at most t - duration the host was online and its reported fields were above the threshold at every evaluation |
| AlertRuns.UsageAlertIsPrompt | server/src/stats.rs:859-888 | the alert comes at the first evaluation duration or more into an excursion that the channel accepts |
| AlertRuns.UsageAlertsOncePerExcursion | server/src/stats.rs:859-888 | between two usage alerts some evaluation was not above the threshold |
| Publication.OrderIsTotalPreorder | server/src/stats.rs:1063-1079 | the comparator is total and transitive |
| Publication.SortIsSorted | server/src/stats.rs:1063-1079 | sorting yields an ordered permutation |
| Publication.SortIsStable | server/src/stats.rs:1063-1079 | hosts that the comparator does not tell apart keep the order in which they came |
| Publication.SortedReadsAs | server/src/stats.rs:1063-1079 | in a sorted list online hosts come first, then weight falls, then position rises, then alias |
| Publication.PublishedListing | server/src/stats.rs:704-717 | a rebuild lists exactly the live hosts not deleted, each once, in order |
| Publication.WithoutKeepsOrder | server/src/stats.rs:674-676 | the in-place `retain` keeps order and distinctness |
| Stats.StatsMgr.PurgeHostsLocked | server/src/stats.rs:646-686 | is the machine's purge sections in a row on every map, the state file, the public list and its text, and succeeds exactly when both saves did |
| Stats.StatsMgr.PublishSnapshotIfCurrent | server/src/stats.rs:1029-1057 | publishes, and saves if asked, if and only if no purge moved the generation |
| Stats.StatsMgr.RebuildCachedResponse | server/src/stats.rs:704-726 | is the machine's rebuild: start, list, write the list, write the text |
| Stats.StatsMgr.InsertStat | server/src/stats.rs:399-400 | is the machine's insertion of a processed report |
| Stats.StatsMgr.AcceptReport | server/src/stats.rs:269-326 | takes in a report under the host's configuration, giving it an entry of its group if it needs one, or rejects it and leaves the configured hosts alone |
| Hosts.OverrideTells | server/src/admin.rs:855-865 | a host's alias and weight are those of its own override, else of its access key's, else of the configuration, and an override changes nothing else |
| Hosts.AcceptedReportIs | server/src/stats.rs:269-326 | a report is rejected if and only if its host has no entry and none can be made, or is disabled; otherwise the live entry has the reported numbers, and alias, access key, weight, notices, position and state as the configuration and the report decide, field by field |
| Stats.StatsMgr.RefreshAdminOverrides | server/src/stats.rs:688-697 | the loop over the configured hosts is the machine's refresh: each gets its override, and its live entry is brought up to date |
| Hosts.ReportComesBack | server/src/runtime_state.rs:60-92 | saved and restored, every report gives an offline entry of the same name and time with no numbers; without configuration its alias, access key, weight and notices are the report's, with it they are merged, field by field |
| Hosts.RestartShowsTheLiveEntryExactlyWhen | server/src/stats.rs:975-988 | a restart shows a live entry as it was if and only if the configuration still says the same of access key, position, state, alias, weight and notices |
| Restarts.RestartShowsTheLastSavedReport | server/src/stats.rs:961-991 | after every run, a restart shows exactly the unmarked hosts of a plain ledger, each as its last report that had been processed when the file was last replaced said it, or as the snapshot said it if there is no file |
| Restarts.SavedReportComesBack | server/src/stats.rs:399-407 | in every run: once a report is processed and the file replaced, every later restart before the host's next report or purge shows the host as that report said it |
| Stats.StatsMgr.RestoreKnownHosts | server/src/stats.rs:961-991 | fills both maps as the fold over the known hosts: own configuration, else the group's, overrides, offline |
| Stats.RestoreAddsExactly | server/src/stats.rs:968-990 | a restore adds exactly the hosts that are neither blank nor deleted, under their own names and offline, and keeps all others |
| Stats.RestoredMatchesMachine | server/src/stats.rs:961-991 | restoring into an empty map, in any iteration order, is what the machine's restart step restores, entry by entry |
| Lifecycle.PurgeSectionsAreSteps | server/src/stats.rs:646-686 | a purge with nothing in between is its four atomic sections |
| Lifecycle.RebuiltIsSteps | server/src/stats.rs:704-726 | a rebuild with nothing in between is its four atomic sections |
| Lifecycle.PublishedViewIsConsistent | server/src/stats.rs:1029-1079 | in every run the served text is the served list serialised whenever the publication lock is free, and whenever both can be read but between the two writes of a publication; the list is always sorted, each host once, online hosts first, and so is what the text shows |
| Lifecycle.TextFollowsTheList | server/src/stats.rs:1046-1056 | what a reader sees between the two writes: the new list and the text of the list served until then, which agree if and only if the two lists do; in a purge the list cannot be read there |
| Lifecycle.ReaderSeesOldText | server/src/stats.rs:1046-1056 | counterexample: a run in which a host is in the list and not yet in the text |
| Lifecycle.ListingAgreesWithLiveMap | server/src/stats.rs:441-536 | a publication lists exactly the live hosts that were not deleted when it began, with their live values |
| Lifecycle.ListedOnlineExactlyWhenFresh | server/src/stats.rs:461-463 | the timer lists a host as online if and only if it was and is disabled or has reported within the threshold, and changes nothing else about it |
| Lifecycle.PurgeOutdatesPreparedLists | server/src/stats.rs:656-1037 | whenever a list was prepared, a purge since then keeps it from being published or saved |
| Lifecycle.SnapshotFollowsTheList | server/src/stats.rs:1037-1057 | in every run the snapshot on disk changes exactly when the timer's publication or a purge is written to it, and is then the served list |
| Lifecycle.FinishedPublicationIsServed | server/src/stats.rs:1037-1056 | in every run a publication that finishes is served, list and text |
| Lifecycle.FaultlessPurgeSucceeds | server/src/stats.rs:646-686 | without faults a purge removes exactly its hosts from list, text, live map and state file, and may clear the markers |
| Lifecycle.PurgeIsNeverOvertaken | server/src/stats.rs:656-672 | under the locks a purge's save is never skipped and a publication never finds the generation moved |
| Lifecycle.LifecycleLockIsGivenBack | server/src/stats.rs:614-686 | every section of a report or purge, whatever fails in it, leaves its holder fewer sections to come, and no other step but a restart touches a held lock |
| Lifecycle.OverridesReachTheLiveMap | server/src/stats.rs:688-697 | a change of overrides brings every live entry of a configured host up to date, field by field, and changes nothing else |
| Lifecycle.ReportPass | server/src/stats.rs:259-411 | an accepted report, from taking the lock to its save: the host is live, known in memory as reported and in the file, unmarked, all else is as it was, and the lock is free |
| Lifecycle.PurgePass | server/src/stats.rs:614-686 | a purge without faults, from taking the lock to clearing the markers: exactly its hosts are neither live, known, listed, saved nor marked, and both locks are free |
| Lifecycle.TimerPass | server/src/stats.rs:441-561 | a timer pass serves and saves exactly the live hosts that were not marked when it began, saves the runtime state, and frees its lock |
| Lifecycle.PurgedHostsStayGone | server/src/stats.rs:614-686 | in every run with crashes and restarts anywhere, a host whose purge finished and which has not reported since is in no published list or text, live map or state file |
| Lifecycle.MarkerClearedExactlyWhen | server/src/stats.rs:259-299 | in every run a step takes a marker off the disk if and only if it starts a report of that host, whatever becomes of it, replaces the settings without the marker, or finishes a purge of the host, which is then absent everywhere |
| Lifecycle.FinishedPurgeLasts | server/src/stats.rs:614-686 | after a finished purge and any run without a processed report of the host, crashes included, the host is unknown everywhere, and not marked unless a settings replacement marks it again |
| Lifecycle.RejectedReportUnhidesExactlyWhen | server/src/stats.rs:264-289 | in every run: a report rejected for its group and the next publication list a marked host if and only if it is live, the report is its own and the marker was written; no report was processed |
| Lifecycle.RejectedReportUnhidesHost | server/src/stats.rs:264-289 | counterexample: a run that serves a live, deleted host again after a rejected report |
| Lifecycle.ShownAgainMeansUnmarked | server/src/stats.rs:704-726 | a hidden host that any run shows again had its marker taken off by some step of the run |
| Lifecycle.RestartListsExactlyTheKnownHosts | server/src/runtime_state.rs:132-184 | a restart lists exactly the hosts of the state file, or without one those migrated from the public snapshot, less blank names and marked hosts |
| Lifecycle.MarkedHostsStayHiddenAfterRestart | server/src/stats.rs:971-974 | a restart never shows a host whose marker is on disk, in list or text, nor does anything after it while the marker stays |
| Lifecycle.MarkedHostsHiddenByNextPublication | server/src/stats.rs:704-726 | once marked, a host is hidden from list and text by the first publication begun after that, for as long as the marker stays |
| Locks.EveryWaitLeadsToMover | server/src/stats.rs:109-110 | for any number of threads that take locks in rising rank, following what a waiting thread waits for always leads to a thread that can move |
| Locks.SomeThreadCanMove | server/src/stats.rs:109-110 | for such threads not all wait at once |
| Locks.NoLockHasTwoHolders | server/src/stats.rs:102-120 | mutual exclusion: whatever the threads are and have done, no lock is held by two of them |
| Locks.ServerThreadsAreRanked | server/src/stats.rs:245-726 | the report, timer and notifier threads and every request, those for settings, logins and rendered pages among them, take locks and use channels in one rising rank |
| Locks.ServerNeverDeadlocks | server/src/stats.rs:245-726 | the server's threads with any number of requests never deadlock, not even a few of them among themselves |
| Calendar.DayNumberOrders | server/src/expiry.rs:313 | day numbers order dates as year, month and day do, and identify them |
| Calendar.AddDaysNumber | server/src/expiry.rs:380 | adding days adds to the day number and fails exactly past the last date |
| Calendar.DateOfInverse | server/src/expiry.rs:385-387 | dates and day numbers convert both ways over the whole calendar |
| Calendar.AddMonths | server/src/expiry.rs:381 | adding months lands that many months on, on the same day or the month's last, and fails exactly past the last year |
| Renewals.CountedCycleComesBack | server/src/expiry.rs:337-376 | a number written before a unit is read back, with every overflow and unknown unit |
| Renewals.AcceptedCyclesAre | server/src/expiry.rs:337-376 | a text is accepted, with its cycle, if and only if it is one of the named cycles or a number from 1 to 2^32 - 1 before a known unit, months within the same limit |
| Renewals.SeparatorsFallAway | server/src/expiry.rs:338 | wherever it stands in such a text a space, underscore or hyphen counts for nothing, and any other character for itself |
| Renewals.AddCycleMovesForward | server/src/expiry.rs:378-383 | such a cycle always leads to a later date |
| Renewals.RenewalIsLeastDueDate | server/src/expiry.rs:313-334 | a renewal settles on the first of start, start + cycle, ... not before today, within the limit, and every earlier one is past |
| Renewals.RenewalFailsExactlyWhen | server/src/expiry.rs:313-328 | too many cycles if and only if the last allowed date is still past and one more exists; an invalid cycle if and only if the calendar runs out at a past date |
| Renewals.DayCyclesClosedForm | server/src/expiry.rs:313-334 | for day cycles the count is the days overdue divided by the cycle, rounded up |
| Renewals.MonthCyclesDrift | server/src/expiry.rs:378-383 | for month cycles the k-th date is k cycles on, on the start's day cut to the shortest month visited |
| Expiry.RenewPastDue | server/src/expiry.rs:309-328 | the loop with its 1200 limit computes that renewal |
| Expiry.ParsedCyclesNeverStandStill | server/src/expiry.rs:318-321 | the loop's guard against a cycle that does not advance is dead for parsed cycles |
| Expiry.ExpireInfo.BuildExpireInfo | server/src/expiry.rs:125-160 | builds the record of that day |
| Expiry.ExpireInfo.ApplyAutoRenewal | server/src/expiry.rs:286-335 | sets the renewal fields and returns the due timestamp, in every renewal status |
| Expiry.ExpireInfo.ApplyTimestamp | server/src/expiry.rs:249-284 | sets the due date, the days left, the status and the label |
| Expiry.ExpireInfo.RefreshExpireInfo | server/src/expiry.rs:162-169 | brings the record up to date in place |
| Expiry.EndOfDayRoundTrip | server/src/expiry.rs:331-334 | a timestamp is of a local day if and only if it is one of the 86400 seconds up to the end of that day |
| Expiry.RecordShowsDueDate | server/src/expiry.rs:125-160 | a fresh record shows the end of the renewed date, never expired, if renewal settles and the original timestamp otherwise, with the days left, status and label they call for |
| Expiry.BuiltStatusTells | server/src/expiry.rs:286-335 | all seven renewal statuses of a fresh record, each if and only if: off, no cycle text, an unaccepted text or a calendar that runs out at a past date, no local date, a past last date with one more to come, not past, past with some date within the limit that is not |
| Expiry.RefreshedStatusTells | server/src/expiry.rs:162-169 | the same of a refreshed record with a positive timestamp; any other keeps its status |
| Expiry.UndatedRecordsStay | server/src/expiry.rs:125-169 | a record without a date never changes, and its status and label say if and only if nothing is configured, the text is unreadable, or it never expires |
| Expiry.CachedEqualsFresh | server/src/expiry.rs:125-169 | for a positive original timestamp any sequence of refreshes ending on a day equals a fresh build on that day |
| Expiry.RefreshIsFreshBeforeEpochExactlyWhen | server/src/expiry.rs:162-169 | for other timestamps a refresh equals a fresh build if and only if the day is the same, the date is not representable, or the cached due date is positive and not past |
| Expiry.EpochDateGoesStale | server/src/expiry.rs:162-169 | counterexample: a date of 1970-01-01 keeps yesterday's count of days |
| Notices.LeastThreshold | server/src/expiry.rs:180-187 | the least non-negative threshold not below the days left, if there is one |
| Notices.MarkerTextInjective | server/src/expiry.rs:171-188 | different due timestamps and different stages have different marker texts |
| Notices.ShouldEmitExpireNotification | server/src/stats.rs:997-1010 | remembers the host's marker and no other, and notifies exactly when it is new |
| Notices.NoticesNeverRepeat | server/src/stats.rs:459-493 | over such checks, whatever the record and its renewals, no notice is repeated, and the notices are exactly the markers that some check finds |
| Notices.StagesComeInOrder | server/src/expiry.rs:171-188 | for one due timestamp the markers of the refreshed records advance from day to day to smaller thresholds, then to past due |
| Notices.NoticesAreBounded | server/src/stats.rs:459-493 | over checks that refresh any record on successive days there are, for each due timestamp it comes to show, at most as many notices as distinct non-negative thresholds, plus one |
| Notices.NoRenewalOneDue | server/src/expiry.rs:162-169 | without automatic renewal there is one due timestamp |
| AdminNormalize.DedupById | server/src/admin.rs:1823-1829 | the loop keeps the first entry of each id |
| AdminNormalize.DedupKeepsFirst | server/src/admin.rs:1823-1829 | an entry is kept if and only if it is the first of its id |
| AdminNormalize.NormalizedHoldsExactly | server/src/admin.rs:1812-1821 | a normalised list is ascending and holds exactly the names that are not blank, trimmed |
| AdminNormalize.NormalizeWebhookOverride | server/src/admin.rs:1566-1579 | the nested loops trim and clear every receiver and header |
| AdminNormalize.NormalizeIsWellFormed | server/src/admin.rs:1399-1482 | normalising any settings makes ids distinct and removes deleted hosts and keys from everything that names them |
| AdminReplace.MergeWebhookSecrets | server/src/admin.rs:1499-1530 | the nested loops merge receivers by id and headers by name |
| SettledSettings.AcceptedIsSettledExactlyWhen | server/src/admin.rs:483-493 | what a replacement accepts is valid and left alone by another normalisation, if and only if no address of it ends in a space and its Bark server and key have settled |
| SettledSettings.NormalizeTwiceExactlyWhen | server/src/admin.rs:1399-1482 | normalising any settings twice is normalising them once, if and only if the normalised path does not end in a slash and the Bark settings have settled |
| SettledSettings.OddTextsDoNotSettle | server/src/admin.rs:1399-1482 | counterexamples: an entry path of `a/ /` and an address of `a /` |
| SettingsRoundTrip.PublicHoldsNoSecrets | server/src/admin.rs:524-566 | the public copy holds no secret, password or token |
| SettingsRoundTrip.FreshSettingsAreSettled | server/src/admin.rs:433-442 | what a fresh installation loads is settled: valid, and left alone by normalising |
| SettingsRoundTrip.WebhookComesBack | server/src/admin.rs:1499-1530 | a webhook sent out masked and back recovers every secret of every receiver and header |
| SettingsRoundTrip.ScopedSaveChangesOnlyItsScope | server/src/admin.rs:483-566 | an accepted scoped save of settled settings changes only the keys it overrides, but for what newly deleted hosts and keys take away and expired tokens |
| SettingsRoundTrip.ScopedSaveStoresItsScope | server/src/admin.rs:483-493 | an accepted scoped save stores every key it overrides, normalised, with every field of a notifier that is not a secret, and drops the notifiers it nulls |
| SettledSettings.ScopedSaveStaysSettled | server/src/admin.rs:483-493 | a scoped save whose addresses and Bark server are written as normalising writes them leaves settled settings settled |
| SettingsRoundTrip.UnchangedSaveStoresTheSame | web/static/js/admin.js:475-498 | reading settled settings and sending them back unedited is accepted and stores the same, but for expired tokens |
| SettingsRoundTrip.OverriddenSecretsAreKept | server/src/admin.rs:1350-1397 | an overridden notifier keeps each stored secret that was left untyped, clears those marked, takes those typed |
| SettingsRoundTrip.OverriddenWebhookSecretsAreKept | server/src/admin.rs:1499-1530 | an overridden webhook does so for each receiver whose id is stored and each header whose name is, in any letter case |
| SettingsQueue.TransactionQueue.Enqueue | web/static/js/admin.js:1-11 | chains a save behind the tail whichever way that settles, and makes the new tail wait for the save |
| SettingsQueue.SavesRunOneAtATime | web/static/js/admin.js:1-11 | at most one save runs at any time, after every earlier one has finished |
| SettingsQueue.QueueNeverStalls | web/static/js/admin.js:1-11 | the first unfinished save is running or can start, whatever failed before it |
| SettingsQueue.EveryStepShortensTheQueue | web/static/js/admin.js:1-11 | every step of the queue lowers what is left to do and only a new save raises it, so the queue, which never stalls, runs dry however its saves turn out |
| SettingsQueue.QueuedSavesAreSequential | web/static/js/admin.js:544-583 | however saves interleave and fail, the server ends as if the posted ones ran one after the other in queue order |
| SettingsQueue.EarlierSavesStand | web/static/js/admin.js:593-606 | from settled settings, what a queued save stored under any key stays until a later one names that key; the saves write addresses as normalising does |
| StaleSaves.StaleSaveRevertsPlainKeys | web/static/js/admin.js:593-599 | a payload read before another page's save puts back the old value of every key without secrets out of its scope: hosts, groups and rules included |
| StaleSaves.StaleSaveMixesSecrets | server/src/admin.rs:1350-1397 | for access keys and notifiers the other fields revert too, and each secret is the other page's, unless it was read with a request to clear it or the other page dropped its owner |
| StaleSaves.OtherSaveSurvivesExactlyWhen | web/static/js/admin.js:593-599 | for every key out of its scope the stale post leaves the other page's save if and only if that changed nothing there but secrets, and undid no request to clear one |
| StaleSaves.StaleSaveLosesAnUpdate | web/static/js/admin.js:593-599 | counterexample: two accepted saves of a fresh installation, of which the first is lost |
| SettingsQueue.MergeScopedSettings | web/static/js/admin.js:608-613 | takes exactly the named keys from the answer |
| AdminStore.AdminState.constructor | server/src/admin.rs:433-447 | start-up yields well-formed settings from any file and leaves the file alone |
| AdminStore.AdminState.Replace | server/src/admin.rs:472-481 | stores the prepared settings in file and memory, or changes nothing and says why |
| StoredFields.ReplacementStoresFields | server/src/admin.rs:1399-1482 | what an accepted replacement stores: each text of a host, access key, group or rule is the submitted text of that same field, trimmed, or none; each number and flag as submitted or within its limits; groups and rules in order, each id once; addresses, notice and log settings as submitted, the path if it is allowed; user, password and session version as they were |
| StoredNotifiers.ReplacementStoresNotifiers | server/src/admin.rs:483-493 | every field of every notifier is stored as submitted or trimmed; a secret is the typed one, or if left alone the stored one, found for receivers by id and for headers by name in any case, or empty if cleared; exactly the complete and unexpired install tokens stay |
| StoredNotifiers.SplitBarkServerTells | server/src/admin.rs:1162-1177 | an address gives up a device key if and only if it is a scheme, a host and a path whose first segment that is not blank is the key, not `push`, and long enough unless the host is Bark's own |
| StoredNotifiers.ReplacementRefusedExactlyWhen | server/src/admin.rs:1593-1708 | each refusal if and only if, in the code's order: a receiver's id or header names are bad or not its own, the entry path is not allowed, or some notifier would not be usable as stored |
| AdminStore.AdminState.PurgeDeletedHosts | server/src/admin.rs:572-601 | loops over groups and rules and stores the settings without the hosts; no names, no write |
| AdminStore.AdminState.ClearDeletedHostMarker | server/src/admin.rs:603-617 | drops one marker, writing only if there was one |
| AdminStore.AdminState.EnsureDefaultAccessKey | server/src/admin.rs:619-649 | stores the settings with a default key and returns its group |
| AdminStore.AdminState.CreateInstallToken | server/src/admin.rs:651-672 | files a token under its hash for fifteen minutes and drops the dead ones |
| AdminStore.AdminState.ConsumeInstallToken | server/src/admin.rs:674-713 | removes the token and returns its group only for a live token, its uid, an existing group and a successful write, under whatever key it is filed |
| AdminStore.AdmittedTokenGivesGroup | server/src/admin.rs:1241-1301 | the group an accepted token gives, field by field: each text, flag and number is the access key's own if set, else that of the base group it names, else the default; a live key gives none if and only if both passwords are empty |
| AdminStore.AdminState.UpdateAdminCredentials | server/src/admin.rs:782-853 | every error in the code's order, or the new credentials with the next session version |
| AdminRuns.RunKeepsSettingsWellFormed | server/src/admin.rs:472-853 | every run of operations, failed writes and restarts keeps ids distinct, names non-blank and deleted hosts and keys unnamed |
| AdminRuns.SessionVersionCountsUpdates | server/src/admin.rs:803-805 | over any run the session version grows by exactly the number of stored credential updates, up to 2^64 - 1 |
| AdminRuns.UpdateEndsEarlierSessions | server/src/jwt.rs:152-154 | a stored update refuses every earlier session for good if and only if the version was below its limit |
| AdminRuns.NewPasswordIsTheOnlyOne | server/src/admin.rs:729-741 | after a password change exactly that password is accepted |
| AdminRuns.CredentialsTakeEffect | server/src/admin.rs:811-853 | after an update the user, entry path and password are those asked for, and those not named stay |
| Credentials.RefusedExactlyWhen | server/src/admin.rs:782-853 | each refusal if and only if, in the code's order: the current password is wrong, the user or the path is not allowed, the new password is under 12 characters, over 256 bytes or unchanged, it cannot be hashed, or nothing is asked for |
| Credentials.PathIsGood | server/src/admin.rs:1853-1880 | an entry path is allowed if and only if, trimmed, it is a slash and one segment of 1 to 63 letters, digits, underscores and hyphens that is not one of the server's own |
| AdminRuns.WrongPasswordChangesNothing | server/src/admin.rs:820-822 | without the current password nothing changes |
| AdminRuns.TokenAcceptedExactlyWhenOutstanding | server/src/admin.rs:651-713 | over any run a token is accepted if and only if a plain ledger of issued and unused tokens has it, unexpired, for that uid and an existing group |
| AdminRuns.AcceptedTokenWasIssued | server/src/admin.rs:651-713 | an accepted token was issued earlier in the run, to the same uid, at most 900 seconds before |
| AdminRuns.IssuedTokenIsAccepted | server/src/admin.rs:651-713 | whatever happens in between, an issued token not used yet is accepted from its uid within 900 seconds, if its group exists then |
| AdminRuns.FreshServerIsStarted | server/src/admin.rs:433-447 | a server that starts on an empty settings file is a start the run lemmas apply to |
| AdminRuns.TokenAcceptedAtMostOnce | server/src/admin.rs:690-713 | between two acceptances of a token it was issued anew: no replacement or restart revives it |
| AdminRuns.MarkerClearedExactlyWhenMarked | server/src/admin.rs:1484-1492 | a marker is cleared if and only if it is there, and nothing else changes |
| AdminRuns.PurgeRemovesExactlyTheHosts | server/src/admin.rs:572-601 | purging settled settings removes exactly the named hosts from markers, overrides, groups and rules |
| AdminRuns.DefaultKeyIsStable | server/src/admin.rs:619-649 | the ensured key exists and is not deleted, and ensuring it again keeps its password |
| QueryString.QueryEncode | server/src/http.rs:735-745 | the loop percent-encodes byte by byte |
| QueryString.InstallQuery | server/src/http.rs:518-542 | pushes one pair at a time and joins them with `&` |
| QueryString.QueryComesBack | server/src/http.rs:695-745 | a form parser gives back every pair in order, whatever bytes it holds (RFC 3986, sections 2.1 and 2.3) |
| QueryString.InstallUrlComesBack | server/src/http.rs:544 | the whole link gives back its pairs if and only if its base has neither query nor fragment, or a fragment before which it asks for the same pairs |
| CommandLines.ExportedIsOneWord | server/src/http.rs:709-711 | the shell reads an exported value as one word, that value, empty ones included (section 2.2 of the POSIX Shell Command Language) |
| CommandLines.QuotedIsOneWordExactlyWhenNotEmpty | server/src/http.rs:699-707 | a quoted value is read back if and only if it is not empty |
| CommandLines.QuotedLineComesBack | server/src/http.rs:699-707 | a line of quoted values gives back all but the empty ones (sections 2.2 and 2.9.2 of the POSIX Shell Command Language) |
| CommandLines.InstallCommandComesBack | server/src/http.rs:545 | the whole install command passes the link to curl unchanged and pipes its output into bash |
| CommandLines.SystemdExecArg | server/src/http.rs:713-733 | the loop escapes character by character |
| CommandLines.ArgumentsComeBack | server/src/http.rs:886-968 | systemd splits the joined arguments back into the original list, empty ones included, with line breaks as spaces |
| CommandLines.SafeArgumentIsItself | server/src/http.rs:713-721 | an argument is written unquoted if and only if it is non-empty and safe |
| Vnstat.CalcTraffic | client/src/vnstat.rs:73-151 | the nested loops compute total and billed traffic of the counted interfaces, or stop as the client does |
| Vnstat.GetTraffic | client/src/vnstat.rs:153-183 | the rotate day chooses monthly or daily rows, and is refused outside 1 to 28 |
| Vnstat.TrafficIsSummed | client/src/vnstat.rs:73-151 | on a report the client accepts, totals and bill are plain sums over the interfaces that the user's list names, or without a list those with none of the ignored words in their names: the bill over all rows of the month, or, if the day rotates, those of the cycle; version 1 counts in kibibytes |
| Vnstat.StopsExactlyWhen | client/src/vnstat.rs:73-151 | the client stops if and only if the version is unknown, or a version 1 report with a counted interface is to be billed by days |
| Vnstat.WindowIsTheCycle | client/src/vnstat.rs:100-127 | a valid date is in the window if and only if it is in today's cycle and not in a later month; for dates up to today, in today's cycle |
| Vnstat.CycleIsHalfOpen | client/src/vnstat.rs:100-127 | a cycle is a half-open interval of days, across year ends too, so cycles are disjoint and tile the calendar |
| Vnstat.CycleLength | client/src/vnstat.rs:100-127 | a cycle is as long as the month it starts in |
| Vnstat.AskedDaysCoverTheCycle | client/src/vnstat.rs:168-172 | the 32 days asked for reach back to the start of the cycle |
| Vnstat.RotatingBillIsTheCycle | client/src/vnstat.rs:97-128 | the bill is the sum over counted interfaces of the rows of today's cycle |
| Vnstat.CyclesAddUp | client/src/vnstat.rs:97-128 | each row is in exactly one cycle: the cycles' sums add up to all rows |
| Vnstat.EarlierTrafficIsNotNegative | client/src/status.rs:409-414 | if each interface's rows add up to at most its total, the later subtraction cannot underflow |
| Login.LoginLimiter.LoginAttemptLimited | server/src/jwt.rs:204-215 | says whether the key is locked and forgets a lock that has run out |
| Login.LoginLimiter.RecordLoginFailure | server/src/jwt.rs:217-223 | counts a failure and locks at the fifth |
| Login.LoginLimiter.Authorize | server/src/jwt.rs:34-53 | one attempt: turned away, failed and recorded, or accepted and cleared |
| Login.LockedExactlyAtFive | server/src/jwt.rs:204-223 | over any run a key has at most five failures and is locked exactly when it has five |
| Login.TurnedAwayExactlyWhen | server/src/jwt.rs:34-53 | an attempt is turned away if and only if the failures since the last success make full fives and the last is under 300 seconds old |
| Login.AtMostFiveFailuresInFiveMinutes | server/src/jwt.rs:204-223 | with no success in between any half-open 300 seconds hold at most five recorded failures of a key |
| Login.KeysAreIndependent | server/src/jwt.rs:204-227 | attempts of one key leave every other alone |
| Login.OverlappingAttemptsAreNotBounded | server/src/jwt.rs:34-53 | for every w there is a run of overlapping attempts, never more than w of them in flight, that records 4 + w failures of one key in one second |
| Login.TwoOverlappingAttemptsBreakTheBound | server/src/jwt.rs:34-53 | counterexample: after four failures two attempts both pass the check and both record: six in one second |
| Login.BoundHoldsExactlyWithoutOverlap | server/src/jwt.rs:34-53 | every interleaved run with at most w attempts of a key in flight keeps every 300 seconds at five failures or fewer, if and only if w is at most one |
| Login.UnbrokenAttemptIsAtomic | server/src/jwt.rs:34-53 | an attempt whose check and record follow each other is the atomic attempt |
| Login.RecordMovesLockBackExactlyWhen | server/src/jwt.rs:217-223 | recording at the time an attempt read moves a lock back if and only if it locks and that time is older than the lock by its length |
| Login.AloneNothingIsLocked | server/src/jwt.rs:34-53 | with one attempt of a key in flight, one that has passed the check never finds a lock |

## Left out

- The generation counters are unbounded numbers: 2^64 changes between a snapshot and its rename are not modelled.
- Times, counters and traffic sums are unbounded numbers: 64-bit overflow of additions is not modelled, except for the
  session version and the 32-bit numbers of a renewal cycle.
- Time zones with changing offsets: one fixed offset from UTC, so no day has a missing or repeated hour.
- Overlapping administrator requests and torn settings files: each operation is one atomic step, and a failed write leaves
  the file as it was.
- A state file edited by hand is taken to be keyed by host name, as the server writes it. The run lemmas on install tokens
  start from tokens filed under their own hash; the store's methods do not need that.
- Library parsers (templates, URLs, mail addresses, header names, date texts, JSON and TOML) are parameters or given values.
- Notifier back ends, templates and scripts: an alert ends with its message in the channel.
- HTTP routing, gRPC, token signing, TLS and assets, geo lookup, system sampling, ping and the page's rendering.
- Parts of a host record with no bearing on what is proved: labels, location, billing details, network baselines, system
  information, uptime text.
- Overlays of notifier and expiry settings over the configuration file, readiness checks and label helpers: settled by reading their branches.
- The base addresses, defaults and number checks of the install request, and the template it fills.
- PBKDF2, SHA-256 and random numbers: hashes are injective and tokens are parameters.
- UpdateAdminCredentials: the length of an admin path is counted in characters, which differs from bytes only for paths that
  are refused anyway.
- EvaluateHost: custom node events and expiry notices are sent in the same pass and have no part in the timers.
- EveryWaitLeadsToMover: a lock that is free may be granted to any waiter, so fairness between waiters is not stated.
- InstallQuery: the pairs are given as bytes; that the text is valid UTF-8 on both sides is not modelled.
- CalcTraffic: rows are counted as they come, so a report that lists a day twice counts it twice, as the client does.
