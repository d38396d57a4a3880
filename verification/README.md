# ShieldPM protocols in Dafny

Models of the stateful parts of the ShieldPM backend, with proofs of what they keep over every run.
Each module is a state machine over events (a client request, a durable write, a committed transaction, a
timer, a crash) or an algorithm, a class whose methods perform the steps the way the service does,
and theorems about all runs. Fields and comments marked *history* only record what happened.

| modules | what they model |
|---|---|
| RelayTypes, RelayProtocol, RelaySafety, RelaySteps, RelayRuns, RelayPromises, RelayRequests, RelayProgress, RelayLeases, RelayQuota, RelayStore, RelayAnswers | resumable uploads: durable metadata and chunk files, per-upload locks, leases, recovery, quota |
| FinalizerScheduler | the bounded background queue of the relay |
| AuthSessions, AuthPromises, SessionService | refresh-token rotation with stale reads (section 5.2.2.3 of RFC 6819), revocation, the expiry cleaner |
| Uptime, HostMonitor, IncidentAnnouncements, HostReport, NotificationOutbox | interval accounting per day, incidents and what subscribers hear of them, the report from two reads, the delivery outbox |
| AnalyticsUpsert, AnalyticsBuffers, AnalyticsCounts, DomainCache | additive upserts, buffers under asynchronous flushes, what the counters mean, the shared domain cache |
| NginxActivation | backup, staging, validation, commit and rollback of configuration batches |
| OAuth2Supervisor, OAuth2Restarts | starts, stops, exits and retries of one proxy process |
| AlertCooldown, CertificateBundle | alert decisions over check sequences, the certificate bundle scanner (section 5 of RFC 7468) |
| VersionText, VersionOrder | version strings and their precedence (SemVer 2.0.0) |
| MaintenanceSchedule, MaintenancePromises | maintenance windows and their durable activation jobs under the configuration lock |
| Wrappers | optional values and results shared by all |

Clocks, random identifiers, origins, databases, X.509 parsing and Nginx itself are parameters or events. Time is
an integer of milliseconds; where a theorem needs a clock that does not run backwards it says so.

Some promises are false of the code on some inputs. Each has its exact condition and a concrete input:

- versions whose numeric identifiers have leading zeros: `VersionOrder.AntisymmetricIffNoClash`, `LeadingZeroClashes`
- batches that name a host twice: `NginxActivation.RestoresIffDistinct`
- alerts across a reset of the monitor: `AlertCooldown.WellPacedIffUndisrupted`, `ResetDisrupts`
- maintenance jobs during which a container label marks the host active again:
  `MaintenancePromises.FaithfulIffNeverEarly`, `LateLabelStartsEarly`
- maintenance windows that open while a job runs and close before the next poll:
  `MaintenancePromises.TrackedIffNeverStrays`, `ShortWindowSticks`
- uptime reports whose two reads are torn apart by a check, or whose clock is behind the last check:
  `HostReport.ReportExactIff`, `TornReadExceedsTheDay`, `ClampNeededWhenClockLags`
- queued uploads after a failed sync or read: `RelayProgress.NoQueuedUploadIsForgotten`, `FailedSyncStrands`, `FailedReadStrands`

That a finalizer without its lease writes nothing rests on the limit of one finalizer
(`RelayLeases.LeaseProtectsIffOneFinalizer`).

## Model

| member | source | states |
|---|---|---|
| RelayPromises.EveryDispatchHasItsOwnRequest | backend/internal/upload-relay.js:577-705 | Over every run with crashes and I/O errors between any two writes: each origin request serves one explicit client request, to the origin and policy that request was queued with; no client request is served twice; only dispatched transfers are accepted |
| RelayRequests.OriginRequestsNeverExceedCalls | backend/internal/upload-relay.js:824-892 | Over every run an upload causes no more origin requests than its clients made append and finalize calls |
| RelayPromises.DispatchesNeverExceedRequests | backend/internal/upload-relay.js:690-705 | An upload causes no more origin requests than there were durable writes that queued it |
| RelayProgress.NoQueuedUploadIsForgotten | backend/internal/upload-relay.js:551-705 | Over every run: after every step a queued upload whose lock is free has a job or a finalizer that will look at it, exactly unless some step is a crash while it is stored as queued, a failed write or sync that leaves it so without a worker, or a failed read by its last finalizer |
| RelayProgress.NextServedIff | backend/internal/upload-relay.js:551-705 | The same for one step from any reachable state |
| RelayProgress.FailedSyncStrands | backend/internal/upload-relay.js:345-356 | A reachable run: the queueing write takes effect but its directory sync fails, and the upload is queued without a worker while asking again does nothing |
| RelayProgress.FailedReadStrands | backend/internal/upload-relay.js:398-402 | A reachable run with the same end: the finalizer cannot read the metadata and its rejection is swallowed |
| RelayProgress.RecoveryTakesItUp | backend/internal/upload-relay.js:707-764 | After a crash at any point of a run the recovery of an upload serves it again, and it stays served through any further run exactly unless that contains a forgetting failure |
| RelayPromises.InterruptedTransferIsNotReplayed | backend/internal/upload-relay.js:707-764 | An upload found forwarding after a crash is never sent again in any continuation, through further recoveries, expiries and crashes, until a client asks explicitly |
| RelayPromises.ReachableUploads | backend/internal/upload-relay.js:358-404 | In every reachable state stored metadata loads, its chunks tile [0, offset) with offset at most the length (or it is completed with its chunks cleared), its offset counts the accepted bytes, and every state but uploading has offset equal to length |
| RelayPromises.StreamedBody | backend/internal/upload-relay.js:491-518 | What a transfer has streamed is a prefix of the accepted bytes in order; a transfer that has streamed every chunk has sent all of them, the declared length |
| RelayPromises.OnlyTheLeaseholderSettles | backend/internal/upload-relay.js:612-687 | In every reachable state a finalizer that writes on settling holds the current lease, cancelled uploads included |
| RelayLeases.LeaseProtectsIffOneFinalizer | backend/internal/upload-relay.js:551-687 | A finalizer that has lost its lease never writes on settling, in any run, exactly when at most one finalizer may run at a time, the limit the source sets |
| RelayQuota.PendingUploadsStayWithinLimits | backend/internal/upload-relay.js:786-817 | In every reachable state the uploads of a host that are not completed stay within maxPendingBytes of declared length and 32 in number, although the scan is not atomic |
| RelayQuota.UnfinishedUploadsStayWithinLimits | backend/internal/upload-relay.js:786-817 | The same, counting every stored upload that is not completed |
| RelayQuota.AdmittedIff | backend/internal/upload-relay.js:786-817 | From every reachable state an undisturbed creation is admitted exactly if its length is allowed, fewer than 32 uploads are unfinished and their declared bytes leave room; it is then stored blank, created now |
| RelayQuota.ScanKeepsQuota | backend/internal/upload-relay.js:406-429 | One step of the unlocked quota scan never undercounts what is still pending |
| RelayQuota.WriteShrinks | backend/internal/upload-relay.js:345-356 | No write of any block makes an upload pending again or changes its declared length |
| RelayRuns.NextInv | backend/internal/upload-relay.js:444-908 | Every step of every interleaving keeps the invariant of disk, lock owners, finalizers and request tickets |
| RelayRuns.RunKeepsInv | backend/internal/upload-relay.js:444-908 | The invariant holds in every reachable state |
| RelaySafety.AppendOk | backend/internal/upload-relay.js:840-881 | Between the two writes of an append, and after them, the directory holds exactly the accepted bytes |
| RelaySafety.RequeueOk | backend/internal/upload-relay.js:690-705 | Queueing keeps the stored upload complete |
| RelaySafety.SettleOk | backend/internal/upload-relay.js:654-687 | Completion, sweep and final write each leave a directory from which a restart is sound |
| RelaySafety.PartialDeleteOk | backend/internal/upload-relay.js:542-549 | A deletion interrupted after any subset of its files leaves such a directory too |
| RelaySafety.PerformOk | backend/internal/upload-relay.js:345-356 | Every planned write, done alone, leaves such a directory, and leaves the rest of its plan sound |
| RelayTypes.TilesAppend | backend/internal/upload-relay.js:876-877 | Appending the next chunk keeps a chunk list acceptable to the loader |
| RelayTypes.TilesAt | backend/internal/upload-relay.js:380-394 | In an accepted list chunk k starts where the first k end, and lies inside the upload |
| RelayStore.Store.Append | backend/internal/upload-relay.js:824-883 | The writes of the plan, in order. An offset conflict is answered exactly to an acceptable request for neither the stored offset nor the last chunk again, and reports the stored offset; success exactly for data that fits there, a last chunk resent in full, or nothing left to send; an error changes nothing; progress is the new stored offset |
| RelayStore.Store.QueueFinalization | backend/internal/upload-relay.js:690-705 | Durable queueing, under the policy of this request, before its one job is enqueued; nothing while a request is pending or done |
| RelayStore.Store.Finalize | backend/internal/upload-relay.js:885-892 | Refused exactly for an incomplete upload; otherwise queued, or the state of the request already pending or done is answered |
| RelayStore.Store.Delete | backend/internal/upload-relay.js:894-908 | A forwarding upload is only marked cancelled; any other is removed; a missing one is reported |
| RelayStore.Store.ExpireOne | backend/internal/upload-relay.js:464-484 | Removes a directory exactly if that holds of it |
| RelayStore.Store.CleanupExpired | backend/internal/upload-relay.js:444-489 | Exactly the directories disappear that are unreadable, or not being sent and older than the hours of their configuration; their number is returned |
| RelayStore.Store.RecoverOne | backend/internal/upload-relay.js:725-760 | Cancelled uploads are removed, forwarding and credentialed queued ones fail with their reasons, other queued ones are enqueued without headers |
| RelayStore.Store.RecoverInterruptedFinalizations | backend/internal/upload-relay.js:707-764 | Afterwards nothing recovered is forwarding or cancelled, exactly the uploads still queued were enqueued, none of them needing the credentials of its caller, and the number found queued or forwarding is returned |
| RelayStore.Store.Prepare | backend/internal/upload-relay.js:579-609 | A lease exactly for an upload still queued under the unchanged policy, after its forwarding write; otherwise the reason of the failure is stored |
| RelayStore.Store.SettleTransfer | backend/internal/upload-relay.js:654-687 | Completed without chunks, failed with the given reason, removed if cancelled, untouched without the lease; if deleting the chunks or the last write fails, completed with its cleanup noted |
| RelayStore.RescuedBlock | backend/internal/upload-relay.js:679-686 | That catch branch is a run of the steps and faults of the lock owner |
| RelayStore.UninterruptedBlock | backend/internal/upload-relay.js:334-343 | The atomic view of a block and its step-by-step view agree: without a fault the steps of a lock owner reach the end of its plan |
| RelayStore.ReadBody | backend/internal/upload-relay.js:491-518 | Either every chunk file is present in full and the body is their concatenation, or nothing is sent |
| RelayStore.ConcatenatedLength | backend/internal/upload-relay.js:519-520 | The body has the total size of its chunks, the content length announced |
| RelayStore.PendingUploadStats | backend/internal/upload-relay.js:406-429 | The loop counts exactly the uploads that are not completed and sums their declared lengths |
| RelayAnswers.ResumeAtStoredOffset | backend/internal/upload-relay.js:840-881 | From every reachable state a client may resume at the stored offset, the one a conflict reports: any data that fits is accepted, the accepted bytes grow by exactly that data, and the write that completes the upload queues one job |
| RelayAnswers.LastChunkRetry | backend/internal/upload-relay.js:840-850 | Sending the last chunk again accepts no byte twice, and queues one job unless a request is pending or done |
| RelayAnswers.RequestsStoreTheirPolicy | backend/internal/upload-relay.js:690-705 | The last write of a queueing request stores the policy of that request, clears the last failure and counts it, on the complete upload |
| RelayAnswers.JobsCarryForwardedHeaders | backend/internal/upload-relay.js:205-213 | Its job carries exactly the named headers with a value, the authorization only if the policy forwards it |
| RelayAnswers.CredentialsAreNotReplayed | backend/internal/upload-relay.js:744-757 | Over every run: once a job with credentials of its caller was queued, no recovery in any continuation enqueues the upload; found queued it fails and says why |
| RelayAnswers.RunFollows | backend/internal/upload-relay.js:690-705 | In every continuation a stored upload keeps its length and creation time, its offset and request counter never fall, and the mark of its credentials and its completion stay |
| RelayAnswers.ExpiresIff | backend/internal/upload-relay.js:464-484 | A cleanup removes a free directory exactly if it is unreadable, or not being sent and its hours since creation have passed |
| RelayAnswers.LifetimeStartsAtCreation | backend/internal/upload-relay.js:444-489 | Over every run those hours count from the moment the upload was created |
| RelayAnswers.StartsTheOldestJob | backend/internal/upload-relay.js:551-570 | A free slot takes the oldest job, with its own headers |
| RelayAnswers.PreparesUnderItsPolicy | backend/internal/upload-relay.js:579-609 | Forwarding only under the policy the upload was queued with; otherwise it fails as disabled or changed |
| RelayAnswers.DispatchesUnderItsPolicy | backend/internal/upload-relay.js:491-500 | The origin is called exactly if the policy is still unchanged and every chunk file is there in full; a changed or disabled policy is the stored reason |
| RelayAnswers.SettlesByOutcome | backend/internal/upload-relay.js:654-687 | Under the current lease: completed if the origin accepted, failed as rejected otherwise |
| FinalizerScheduler.NoLostWakeUp | backend/internal/upload-relay.js:551-575 | Over every run: a non-empty queue has a scheduled callback or a full set of finalizers, the maximum is respected, and started plus queued jobs are the enqueued ones in order |
| FinalizerScheduler.DrainStartsEverything | backend/internal/upload-relay.js:551-570 | From every reachable state firing and finishing alone start every queued job |
| FinalizerScheduler.Scheduler.RunScheduled | backend/internal/upload-relay.js:555-569 | The loop starts as many jobs as there are free slots, oldest first |
| AuthPromises.RunInv | backend/internal/auth-session-service.js:153-229 | The row, snapshot and exchange invariants hold in every interleaving of stale refreshes, revocations and cleaning |
| AuthPromises.SingleLiveSession | backend/internal/auth-session-service.js:186-211 | In every reachable state a family has at most one session that is neither revoked nor rotated |
| AuthPromises.ExchangedAtMostOnce | backend/internal/auth-session-service.js:197-211 | No refresh token is exchanged successfully twice |
| AuthPromises.OnlyUsableTokensAreExchanged | backend/internal/auth-session-service.js:153-229 | Over every run each exchange was committed by a refresh that had read its token unrevoked, unrotated and not past its expiry at that moment, and found it so again; what it handed out is one fresh session of the same user and family |
| AuthPromises.ReplayRevokesFamily | backend/internal/auth-session-service.js:163-211 | A refresh with an unexpired, unrevoked token that has been rotated, even one whose read still saw it unused, exchanges nothing and revokes the whole family |
| AuthPromises.RevokedFamilyStaysRevoked | backend/internal/auth-session-service.js:111-123 | A fully revoked family stays so in every continuation |
| AuthPromises.DeadStep | backend/internal/auth-session-service.js:186-211 | No step exchanges a token of a fully revoked family |
| AuthPromises.SignOutIsFinal | backend/internal/user.js:494-509 | After a password change, a sign-out of the other devices or a logout no token of the families concerned is exchanged in any continuation, whatever refreshes were under way |
| AuthPromises.PruningPreservesVerdicts | backend/internal/auth-session-cleanup.js:24-44 | Cleaning changes the verdict of no surviving session, although links are nulled, and deletes only sessions already refused |
| AuthPromises.NothingIsDeletedEarly | backend/internal/auth-session-cleanup.js:16-44 | No step of any run deletes a session before seven days after its expiry |
| AuthPromises.LinksResolve | backend/internal/auth-session-cleanup.js:32-37 | Over every run no successor link dangles, and a parent link only in the revoked session of a lost race |
| AuthPromises.SurvivorsAreASuffix | backend/internal/auth-session-cleanup.js:25-30 | With a monotone clock the successor of a surviving session survives |
| SessionService.SessionTable.RefreshTokenPair | backend/internal/auth-session-service.js:153-229 | The committed transaction on a possibly stale read. A token pair exactly for a row read unrevoked, unexpired, unrotated and unlinked, with its user available, that is still unused; then one session of the same user and family with a full lifetime and a link to it. An expired token only revokes itself; any other refusal revokes its family and no other |
| SessionService.SessionTable.PruneBatchOnce | backend/internal/auth-session-cleanup.js:24-44 | Nulls the links to, then deletes, one oldest-first batch |
| SessionService.SessionTable.SelectExpired | backend/internal/auth-session-cleanup.js:25-30 | Selects the oldest expired rows, ties by id |
| SessionService.SessionTable.Prune | backend/internal/auth-session-cleanup.js:16-53 | The batches together are one oldest-first batch of up to batchSize * maxBatches rows, and their number is returned |
| SessionService.SessionTable.Clean | backend/internal/auth-session-cleanup.js:16-53 | With the limits clamped, at most ten thousand sessions go, all more than seven days past their expiry; none only if there are none |
| SessionService.ComposeBatches | backend/internal/auth-session-cleanup.js:23-47 | Two successive batches are one larger batch |
| Uptime.StatusIsReference | backend/internal/incidents.js:117-129 | With monotone check times a millisecond is credited up (down) exactly when the latest accepted check at or before it said so, it lies inside the interval of that check, and the next accepted check closed it |
| Uptime.CreditDaysShares | backend/internal/incidents.js:123-129 | Splitting an interval at midnight gives each day the part of the interval inside it, and nothing else |
| Uptime.RollupCountsMilliseconds | backend/internal/incidents.js:66-129 | The stored up (down) time of every day is the number of its milliseconds so credited |
| Uptime.RollupCountsChecks | backend/internal/incidents.js:117-130 | The stored number of checks of every day is the number of checks accepted on it |
| Uptime.CountCloses | backend/internal/incidents.js:117-129 | Accepting a check adds exactly the interval it closes |
| HostMonitor.OneOpenIncident | backend/internal/incidents.js:160-191 | At most one incident is open, exactly during an outage, and its failure count is the down checks of that outage |
| IncidentAnnouncements.QueuedExactly | backend/internal/incidents.js:84-182 | Over every sequence of checks, resets and settings a delivery is queued exactly by a check, with alerts on, that begins the incident it calls opened or closes the one it calls resolved, at the time and with the mute of that check, for a subscribed target |
| IncidentAnnouncements.ToldOnce | backend/internal/incidents.js:84-112 | Of distinct targets each subscribed one gets exactly one such delivery, the others none |
| IncidentAnnouncements.AnnouncementsAlternate | backend/internal/incidents.js:160-191 | A target subscribed throughout, with alerts on, hears opened, then resolved of the same incident exactly unless a reset came between, then opened of a later one |
| IncidentAnnouncements.FirstAnnouncementOpens | backend/internal/incidents.js:160-182 | The first thing it hears is opened |
| IncidentAnnouncements.OutboxComesFromCalls | backend/internal/incidents.js:84-112 | The outbox holds nothing but the deliveries of the calls |
| IncidentAnnouncements.CallsFillTheOutbox | backend/internal/incidents.js:84-112 | and all of them |
| IncidentAnnouncements.OpenIncidentTimes | backend/internal/incidents.js:160-182 | The open incident was opened at the first and last seen at the latest accepted down check of its outage |
| IncidentAnnouncements.ClosedIncidentsStay | backend/internal/incidents.js:185-191 | A closed incident never changes; a reset closes the open one as changed |
| HostReport.ReportExactIff | backend/internal/incidents.js:236-284 | For rows and observation read at two moments of one history and any clock of the report, the report of a day is exact precisely when no check closed an interval of the day that shows and should not, or should and does not |
| HostReport.ReportExactIffNothingClosesBetween | backend/internal/incidents.js:244-252 | With a clock that is not behind: exactly when no check accepted between the two reads closed an up or down interval of the day |
| HostReport.ReportPartitionsTheDay | backend/internal/incidents.js:256-284 | From one snapshot, with monotone check times, none in the future, up + down + unknown is the elapsed time of every day, each part counting its milliseconds, the clamp never acts, and the checks are those accepted that day |
| HostReport.RowsReadFirstNeverExceed | backend/internal/incidents.js:256-284 | Rows read before the observation never exceed the day: the clamp never acts |
| HostReport.TornReadExceedsTheDay | backend/internal/incidents.js:244-252 | With the observation read first, an interval closed in between is counted twice |
| HostReport.ClampNeededWhenClockLags | backend/internal/incidents.js:259-279 | With the clock of the report behind the last check the credited time exceeds the elapsed time |
| HostReport.ReportDay | backend/internal/incidents.js:256-283 | The sums of one day, by branches as in the loop, are those of its rows and the overlap of the observation with it |
| HostReport.HostDetail | backend/internal/incidents.js:254-284 | The loop reports every requested day in order |
| HostMonitor.Monitor.CreditInterval | backend/internal/incidents.js:121-128 | The loop credits the interval day by day |
| HostMonitor.Monitor.RecordCheck | backend/internal/incidents.js:117-182 | A check at or before the stored observation changes nothing; otherwise rollup, observation, incidents and outbox are those of the longer history |
| HostMonitor.Monitor.UpdateIncidents | backend/internal/incidents.js:160-182 | Opens, extends or resolves the incident; exactly opening and recovery queue deliveries |
| HostMonitor.Monitor.Enqueue | backend/internal/incidents.js:84-112 | One delivery for each subscribed target, muted or pending, none when alerts are off |
| NotificationOutbox.BoundedAttempts | backend/internal/incidents.js:448-515 | Over every run with crashes, stale retries and deleted hosts a delivery is sent at most MAX_ATTEMPTS times between explicit retries; a pending one has an attempt left |
| NotificationOutbox.SentIsFinal | backend/internal/incidents.js:419-431 | A sent or cancelled delivery is never claimed, retried or sent again |
| NotificationOutbox.StatusTellsOutcome | backend/internal/incidents.js:448-492 | Over every run a stored delivery is marked sent exactly if the transport accepted it and cancelled exactly if it was found disabled before a call; a failed one has used its five attempts |
| NotificationOutbox.RestsUntilRetried | backend/internal/incidents.js:419-431 | A sent, failed, cancelled or muted delivery changes only by an explicit retry |
| NotificationOutbox.ClaimIsALease | backend/internal/incidents.js:448-457 | A claim protects its delivery for exactly five minutes, also across a crash |
| NotificationOutbox.EnqueuedAs | backend/internal/incidents.js:93-110 | A new delivery is muted exactly if its alarm was, untried, and due at its own moment |
| NotificationOutbox.DelaysDouble | backend/internal/incidents.js:485-490 | The delay after a failed attempt starts at half a minute and doubles up to an hour |
| NotificationOutbox.Worker.SettleDelivery | backend/internal/incidents.js:460-491 | After its claim a delivery is cancelled, muted, sent, or counted as failed, by the first of these that applies |
| NotificationOutbox.Worker.RecordFailure | backend/internal/incidents.js:482-491 | The next attempt is delayed by doubling from 30 seconds up to an hour, or the delivery has failed |
| NotificationOutbox.Worker.RecoverInterrupted | backend/internal/incidents.js:497-510 | Expired leases become pending or, without an attempt left, failed |
| NotificationOutbox.Worker.RetryDelivery | backend/internal/incidents.js:419-431 | Changes the row only if it is still as it was read |
| AnalyticsUpsert.UpsertAnalyticsRows | backend/lib/analytics-upsert.js:18-52 | For every row list, chunk size and table the result is the table plus the sum of the rows, key by key, with no other keys |
| AnalyticsUpsert.Deduplicate | backend/lib/analytics-upsert.js:20-30 | Each key once, the same keys and the same sums |
| AnalyticsUpsert.InsertMerge | backend/lib/analytics-upsert.js:45-49 | One additive statement, for which no key may be named twice |
| AnalyticsBuffers.CountsAreConserved | backend/internal/analytics.js:227-446 | Over every run of lines, flushes and write outcomes, for every key and counter: stored + in flight + buffered + dropped is what was stored at first plus what the lines counted; no detailed line is lost or duplicated; the buffers stay within 500 and 1000 between steps |
| AnalyticsCounts.CountersTellTheLines | backend/internal/analytics.js:242-277 | Over every run, for every host and minute, what is stored, in flight, buffered or given up beyond the initial table is the number of processed lines of that host and minute, of each status class, and the sum of their bytes |
| AnalyticsCounts.KeysAreMinutes | backend/internal/analytics.js:246-255 | Every key the service adds is the start of a minute |
| AnalyticsBuffers.OnlySurplusIsGivenUp | backend/internal/analytics.js:307-332 | A step gives up rows only from a buffer it leaves full, and of the waiting lines keeps the newest, in order |
| AnalyticsBuffers.FullBuffersFlush | backend/internal/analytics.js:307-320 | A line that fills a buffer starts a flush unless one is in progress |
| AnalyticsBuffers.ProcessedIsComplete | backend/internal/analytics.js:227-305 | What counts as processed is exactly the lines of the run |
| AnalyticsBuffers.MergeBackSum | backend/internal/analytics.js:417-433 | Merging a failed batch back keeps every sum, counting what is given up |
| AnalyticsBuffers.AnalyticsService.ProcessLine | backend/internal/analytics.js:253-295 | One step of the buffer machine |
| AnalyticsBuffers.AnalyticsService.AddToBuffer | backend/internal/analytics.js:255-277 | Find or create the aggregate, then add |
| AnalyticsBuffers.AnalyticsService.ApplyBackpressure | backend/internal/analytics.js:307-332 | Flush at the limits, then give up the oldest beyond them |
| AnalyticsBuffers.AnalyticsService.DropOldest | backend/internal/analytics.js:321-328 | The loop drops exactly the oldest surplus |
| AnalyticsBuffers.AnalyticsService.DetailsSettled | backend/internal/analytics.js:401-411 | A failed write puts the batch back in front and keeps the newest 1000 |
| AnalyticsBuffers.AnalyticsService.AggregatesSettled | backend/internal/analytics.js:413-437 | A successful write is the chunked upsert; a failed one merges back |
| AnalyticsBuffers.AnalyticsService.ReturnToBuffer | backend/internal/analytics.js:417-433 | The merge-back loop |
| DomainCache.ReturnsAreFresh | backend/internal/analytics.js:128-172 | In every interleaving of shared loads, notifications, failures and restarts the applied revision never exceeds the announced one, and a load that returns applied in its own generation sees a cache at least as new as its call |
| DomainCache.QuietMeansCurrent | backend/internal/analytics.js:128-142 | Without failures or restarts no announced change is forgotten: when every call has returned, the cache is that of the latest revision |
| DomainCache.OnlyCurrentLoadsPublish | backend/internal/analytics.js:145-167 | The cache changes exactly when rows of a running load of the current generation and revision arrive, to what they were read from; a load from before a restart publishes nothing |
| DomainCache.CallsShareOneLoad | backend/internal/analytics.js:128-141 | Over every run at most one read of the current generation is in progress, and a new call joins it |
| DomainCache.RunInv | backend/internal/analytics.js:91-172 | The invariant of revisions, loads, cache and callers holds in every reachable state |
| DomainCache.Cache.RowsArrived | backend/internal/analytics.js:145-167 | Discard, read again or publish |
| DomainCache.Cache.LoadSettled | backend/internal/analytics.js:133-141 | Clear the promise, then return, always after a failed load, or go round again |
| NginxActivation.FailedBatchRestores | backend/internal/nginx.js:636-688 | A batch of distinct hosts that fails in a backup, a rendering, the validation or a status write leaves every active file, in the batch or not, with exactly the bytes or the absence it had, for any old backups and any interleaving of the rollbacks |
| NginxActivation.FailedBatchKeepsRejected | backend/internal/nginx.js:202-212 | Of every staged host it keeps the new text as the rejected file, leaves no backup, and marks the host rolled back if it can; the status of hosts outside the batch stays |
| NginxActivation.SuccessfulBatchInstalls | backend/internal/nginx.js:636-667 | A batch that succeeds installs every new file and status and changes no other file or status |
| NginxActivation.ActiveIsLastInstalled | backend/internal/nginx.js:636-688 | Over every run of batches, single configurations and removals each active file is the one last installed, or absent after a removal |
| NginxActivation.RestoresIffDistinct | backend/internal/nginx.js:640-675 | Failed batches always restore exactly when their hosts are distinct; a host named twice is backed up from its own new file |
| NginxActivation.ConfiguredHost | backend/internal/nginx.js:110-192 | Alone: the new file and no backup exactly when every step worked, otherwise the old file and a rolled-back status; other hosts untouched |
| NginxActivation.StagedFiles | backend/internal/nginx.js:110-160 | After staging, a host has its new file and a backup of exactly what it had, or what it had if it failed |
| NginxActivation.RollbackHost | backend/internal/nginx.js:202-212 | The rollback of one host, interleaved with any others, goes through its own three steps |
| NginxActivation.Nginx.StageHost | backend/internal/nginx.js:138-160 | Backup and rendering; a host that fails undoes itself |
| NginxActivation.Nginx.ConfigureHost | backend/internal/nginx.js:110-192 | The branches perform the transition of one host alone, and report success exactly when every step worked |
| NginxActivation.Nginx.RollbackAll | backend/internal/nginx.js:670-673 | Performs an interleaving of the rollbacks |
| NginxActivation.Nginx.BulkGenerateConfigs | backend/internal/nginx.js:636-688 | The loops perform the batch transition and report success exactly when every backup, rendering and status write and the validation worked |
| OAuth2Supervisor.AtMostOneAlive | backend/internal/oauth2-proxy.js:20-63 | In every reachable state at most one process of the access list is alive |
| OAuth2Supervisor.StopIsFinal | backend/internal/oauth2-proxy.js:299-303 | Once a stop has resolved, every process alive then or later was started after that stop was called |
| OAuth2Supervisor.NoLateSpawn | backend/internal/oauth2-proxy.js:196-243 | From the call of a stop on, nothing queued or timed by an older generation spawns |
| OAuth2Supervisor.RestartsAreBounded | backend/internal/oauth2-proxy.js:256-283 | One explicit start leads to at most one spawn and three automatic restarts, with increasing retry numbers |
| OAuth2Restarts.RestartsFollowFailures | backend/internal/oauth2-proxy.js:256-283 | Over every run a process spawned as attempt k + 1 follows an earlier one of its start that was attempt k, ran and failed; a clean exit, a signal or an error event restarts nothing |
| OAuth2Restarts.FailuresAreRetried | backend/internal/oauth2-proxy.js:256-283 | A tracked process of the current start that ran and failed with a retry left is followed by the next attempt, whatever else happens, unless a start or stop is called or the preparation fails |
| OAuth2Restarts.StartsAreSpawned | backend/internal/oauth2-proxy.js:192-243 | A start of a list at rest is spawned under the same conditions |
| OAuth2Restarts.StopsResolve | backend/internal/oauth2-proxy.js:30-62 | A stop of a list at rest resolves once its process has reported its exit, and leaves nothing alive, tracked or timed |
| OAuth2Supervisor.TimersNeverOverlap | backend/internal/oauth2-proxy.js:261-275 | A retry timer is never overwritten by another one |
| OAuth2Supervisor.NextOwner | backend/internal/oauth2-proxy.js:192-303 | Every step keeps the one owner of the process |
| OAuth2Supervisor.NextRetry | backend/internal/oauth2-proxy.js:192-303 | Every step keeps each generation on a single line of attempts |
| OAuth2Supervisor.Supervisor.RetryTimerFired | backend/internal/oauth2-proxy.js:267-273 | Queues a retry only for the current generation |
| OAuth2Supervisor.Supervisor.StopChild | backend/internal/oauth2-proxy.js:30-62 | Clears the timer, detaches the child and signals it |
| OAuth2Supervisor.Supervisor.RunNextJob | backend/internal/oauth2-proxy.js:20-28 | The next queued job, superseded starts dropped |
| OAuth2Supervisor.Supervisor.ChildStopped | backend/internal/oauth2-proxy.js:200-202 | Continues only in the current generation |
| OAuth2Supervisor.Supervisor.SpawnChild | backend/internal/oauth2-proxy.js:237-243 | Spawns and tracks only in the current generation |
| OAuth2Supervisor.Supervisor.ChildReported | backend/internal/oauth2-proxy.js:256-288 | A retry timer is set exactly for a tracked process of the current start that ran, failed and has a retry left; a heeded process is no longer tracked; nothing else changes the timer |
| AlertCooldown.SendsAreAnnouncements | backend/internal/proxy-host-monitor.js:389-404 | Over any history of checks, mute windows, settings and resets the alerts sent are exactly those of a definition by the previous announcement alone |
| AlertCooldown.WellPacedIffUndisrupted | backend/internal/proxy-host-monitor.js:675-686 | For every history alerts go down, up, down ... at least the cooldown apart, exactly unless two consecutive ones have a reset or a switching off between them and the earlier is a down alert or less than the cooldown old |
| AlertCooldown.ConsecutiveAlerts | backend/internal/proxy-host-monitor.js:397-402 | Two consecutive alerts keep both promises when nothing was forgotten in between; otherwise the later is a down alert and they do exactly if the earlier was an up alert that far back |
| AlertCooldown.FirstAlertIsDown | backend/internal/proxy-host-monitor.js:394-396 | The first alert, also after a reset or a switching off, is a down alert |
| AlertCooldown.DelayedChangeIsAnnounced | backend/internal/proxy-host-monitor.js:388-404 | A change held back is announced by the first later check that is unmuted, past the cooldown and still sees it, exactly unless it is a recovery and something was forgotten in between |
| AlertCooldown.NothingEarlier | backend/internal/proxy-host-monitor.js:388-404 | No check before that one sends an alert |
| AlertCooldown.ResetDisrupts | backend/internal/proxy-host-monitor.js:970-997 | A reset lets one outage be announced twice within milliseconds, and loses a recovery held back |
| AlertCooldown.AlertsAlternate | backend/internal/proxy-host-monitor.js:675-686 | Without resets and with alerts left on the list of alerts reads down, up, down ... at least the cooldown apart |
| AlertCooldown.MonitorRow.PersistCheck | backend/internal/proxy-host-monitor.js:675-686 | The columns remember the last announcement, untouched by a muted or unknown check and cleared with alerts off; an alert goes out exactly when the definition says so, a change of state exactly from five minutes on |
| AlertCooldown.MonitorRow.Update | backend/internal/proxy-host-monitor.js:735-756 | A changed measurement, or checks or alerts switched on or off, clears the columns; other edits do not |
| AlertCooldown.MonitorRow.ResetHost | backend/internal/proxy-host-monitor.js:970-997 | A changed upstream clears them |
| CertificateBundle.ValidCertificateBundle | backend/internal/proxy-host-monitor.js:83-111 | Accepts exactly one to eight envelopes separated by white space, with non-empty base64 bodies whose certificates all parse |
| CertificateBundle.ScanEnvelope | backend/internal/proxy-host-monitor.js:89-108 | One envelope decides one step of the grammar |
| CertificateBundle.ScanBody | backend/internal/proxy-host-monitor.js:94-101 | Accepts exactly the bodies of the grammar |
| CertificateBundle.IndexOf | backend/internal/proxy-host-monitor.js:92-93 | The first occurrence, or none |
| CertificateBundle.FirstEnvelope | backend/internal/proxy-host-monitor.js:92-93 | An envelope ends at the first END line: the grammar is deterministic |
| VersionText.ParseRender | backend/internal/remote-version.js:8-9 | Every version renders to a string that parses back to it, with or without the leading v |
| VersionText.RenderParse | backend/internal/remote-version.js:8-9 | Only such strings parse |
| VersionOrder.ValueOfDecimal | backend/internal/remote-version.js:21-26 | The number read from the decimal rendering of a number is that number |
| VersionOrder.DecimalOfValue | backend/internal/remote-version.js:21-26 | and rendering what an identifier without leading zeros denotes gives it back |
| VersionOrder.ReleasesCompareByNumbers | backend/internal/remote-version.js:17-43 | Release strings parse to, and compare by, their three numbers |
| VersionOrder.CompareVersions | backend/internal/remote-version.js:17-43 | The order of the two versions, or an error exactly when one string is no version |
| VersionOrder.CompareCore | backend/internal/remote-version.js:21-26 | The first differing number decides |
| VersionOrder.ComparePrerelease | backend/internal/remote-version.js:30-42 | The first differing identifier decides, then length |
| VersionOrder.ZeroIffSamePrecedence | backend/internal/remote-version.js:21-42 | Zero exactly when the versions differ at most in build metadata |
| VersionOrder.ZeroForText | backend/internal/remote-version.js:17-43 | The same for the strings |
| VersionOrder.OrderTransitive | backend/internal/remote-version.js:17-43 | Transitive on all versions, strict if either side is |
| VersionOrder.AntisymmetricIffNoClash | backend/internal/remote-version.js:34-40 | Swapping the arguments negates the result exactly when the first differing identifiers are not one number written in two ways |
| VersionOrder.LeadingZeroClashes | backend/internal/remote-version.js:36-38 | Each of 1.0.0-01 and 1.0.0-1 is greater than the other |
| VersionOrder.CanonicalOrderIsTotal | backend/internal/remote-version.js:17-43 | On versions of item 9 of SemVer 2.0.0 a total preorder, equal to the precedence of item 11 in both directions |
| VersionOrder.NegativeIffPrecedes | backend/internal/remote-version.js:17-43 | Negative exactly when the first version precedes the second by item 11, for all versions the parser accepts |
| MaintenanceSchedule.CompletionPreservesDecisions | backend/internal/maintenance.js:15-24 | Completing a schedule leaves every later decision as it was, exactly unless the row is active with an open-ended window that has not begun |
| MaintenanceSchedule.DecidedRowsComplete | backend/internal/maintenance.js:8-24 | In particular for every row whose active flag was decided at an earlier moment |
| MaintenanceSchedule.WantedWithinItsWindow | backend/internal/maintenance.js:8-13 | No row is wanted at or after its end or before its start; within them exactly with a start or the flag |
| MaintenanceSchedule.CompletionKeepsWhatIsToCome | backend/internal/maintenance.js:15-24 | A completed schedule keeps exactly what is still to come |
| MaintenancePromises.PollFollowsSchedule | backend/internal/maintenance.js:27-38 | Over every run a poll marks the host as its window says, and takes up a job exactly for an enabled host whose mark changed or whose work is unfinished |
| MaintenancePromises.OnlyEditsDecide | backend/internal/maintenance.js:27-98 | With edits under the configuration lock, as the job holds it, the decisions at all later moments are after every step of every run those of the last edit |
| MaintenancePromises.FaithfulIffNeverEarly | backend/internal/maintenance.js:27-98 | With container labels, which take no lock and may set the active flag at any time, this holds exactly unless some completion meets an active row with an open-ended window to come |
| MaintenancePromises.NextFaithful | backend/internal/maintenance.js:41-53 | Step by step: the only harmful step is that completion |
| MaintenancePromises.LateLabelStartsEarly | backend/internal/docker.js:655-676 | A label that sets the active flag again between claim and staging starts a future window at once |
| MaintenanceSchedule.PendingUntilCompleted | backend/internal/maintenance.js:27-98 | Only a completed activation, or a disabled host, clears the pending flag |
| MaintenancePromises.TrackedIffNeverStrays | backend/internal/maintenance.js:55-98 | Over every run with failures, labels and crashes an enabled host never shows another mode than its row says without a pending job, exactly unless an edit, another rendering, or a completed job has installed an open bounded window the row was not marked for |
| MaintenancePromises.NextStray | backend/internal/maintenance.js:41-98 | The same for one step from any reachable state |
| MaintenancePromises.StrayingJob | backend/internal/maintenance.js:55-98 | For a job no label has touched: exactly when it was claimed before its window opened and rendered inside it |
| MaintenancePromises.UnfinishedWorkIsPending | backend/internal/maintenance.js:55-98 | In all other runs such a disagreement has a pending job, which the next poll claims |
| MaintenancePromises.StrayIsTakenUpInItsWindow | backend/internal/maintenance.js:27-38 | A host left so shows maintenance, and the next poll takes it up exactly if the schedule still wants it |
| MaintenancePromises.ShortWindowSticks | backend/internal/nginx.js:454-465 | A window over before the next poll: the host stays in maintenance with no job |
| MaintenanceSchedule.RenderMode | backend/internal/nginx.js:454-465 | The mode rendered is the flag or an open bounded window |
| MaintenanceSchedule.Activation.ClaimMaintenance | backend/internal/maintenance.js:27-38 | Persists the decided state and the job before any file changes |
| MaintenanceSchedule.Activation.FinishMaintenance | backend/internal/maintenance.js:41-53 | Completes the schedule only if the row still is the staged one |

## Left out

- Upload relay: one host is modelled, uploads of different hosts share nothing but the finalizer queue and its one slot; identifiers are fresh counters instead of random values.
- Upload relay: abort signals, `stop()`, time limits of the origin, file names, media types, path and symbolic-link checks, and the attempts and status columns.
- Upload relay: creating a directory and writing its first metadata is one step; temporary files are not modelled. A write is visible or not, and it may be visible although its call failed.
- Upload relay: which credentials a duplicate queued job carries is not part of any statement, only that it dispatches at most once.
- RelayQuota.PendingUploadsStayWithinLimits: for one configuration of the host; lowering the limit later removes nothing.
- Sessions: a transaction is one atomic commit after a possibly stale read; weaker isolation, access tokens, hashing and request metadata are left out, and a caller-supplied family identifier is taken to be fresh.
- Incidents: latency buckets, cleanup of old daily rows, message texts and permissions. The outbox has one worker process; the transport is an event.
- HostReport.ReportPartitionsTheDay: is about one snapshot and a clock that is not behind; `ReportExactIff` covers the two separate reads and any clock.
- Analytics: parsing of log lines, the bounded queue of raw lines, drop logging, retention and summaries. A failed transaction writes nothing.
- DomainCache: the cache is identified by the committed version it was read from; how domain names map to hosts is left out.
- Nginx: template rendering, reload, the retired-host repair, groups of host types (a host is its file name) and a crash of the process in the middle of a batch. Rollback file operations are taken to succeed.
- OAuth2 supervisor: one access list; configuration files and process output. An error event is taken to mean that the process never ran, and a signal that cannot be delivered that it has ended.
- Monitor: probes, pools, target resolution, history pruning and the wording and delivery of alerts. X.509 parsing is an arbitrary predicate.
- Versions: fetching and caching the latest release.
- Maintenance: timers, and what Nginx shows between a container update and its own configuration, which takes the lock later; batches of more than one host; an edit that waits for the configuration lock is an edit after the job; the file operations of an activation are those of NginxActivation.
