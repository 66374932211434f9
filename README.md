# Hevo Android SDK: event buffering and dispatch, modelled in Dafny

This project models the core of the Hevo Android analytics library. The
application calls `HevoAPI` to track events. `track` builds each event's
properties from four layers: referrer properties, super-properties, the
fields the library sets, and the caller's values. The event is then tagged
with session metadata and handed to a single worker thread. The worker
stores events in a SQLite table, uploads them in pages of at most 50, deletes
what the server took, and backs off exponentially after failures.

Around that pipeline the model covers:

- the persistent identity (super-properties, distinct id, opt-out flag, event
  timings, "new version" and "first launch" caches);
- the configuration read from the manifest;
- the activity-lifecycle state machine that turns pauses and resumes into
  sessions;
- the parsing of the Retry-After hint.

Each source component is one module:

| file | module | source |
|---|---|---|
| `event_store.dfy` | `EventStore` | `HDbAdapter` |
| `worker.dfy` | `Messages` | `AnalyticsMessages` |
| `backoff.dfy` | `Backoff` | the retry delay of `sendData` |
| `session_metadata.dfy` | `Session` | `SessionMetadata` |
| `persistent_identity.dfy` | `Identity` | `PersistentIdentity` |
| `hevo_api.dfy` | `Api` | `HevoAPI` |
| `lifecycle.dfy` | `Lifecycle` | `HevoActivityLifecycleCallbacks` |
| `config.dfy` | `Config` | `HevoConfig` |
| `remote_service.dfy` | `RemoteService` | `RemoteService.ServiceUnavailableException` |
| `json.dfy`, `java_int.dfy`, `events.dfy`, `wrappers.dfy` | `Json`, `JavaInt`, `Events`, `Wrappers` | shared values and Java arithmetic |

The Java code changes things in place, and the model keeps that form.
`EventStore.Store`, `Messages.Worker`, `Session.SessionMetadata`,
`Identity.PersistentIdentity`, `Api.Hevo`, `Api.Registry` and
`Lifecycle.LifecycleCallbacks` are classes whose methods update their
fields. The store and the worker are each proved against a pure
specification:

- `Store` against `Add`, `DeleteUpTo`, `ReadBatch` and the other delete
  functions;
- `Worker` against `Handle` and `Drain`.

The properties of the system are proved as lemmas about those
specifications. Pure code is modelled as functions: the property merge, the
backoff rule, the configuration, the parsing and the nullification of JSON.

Values the program takes from its environment are parameters:

- the clock and free disk space;
- storage faults;
- the outcome of each HTTP post and network connectivity;
- UUID and random-id generation;
- whether the database file exists.

## Model

| member | source | states |
|---|---|---|
| EventStore.Where | src/main/java/com/hevodata/android/HDbAdapter.java:178-259 | the rows a `DELETE ... WHERE` leaves: exactly the rows satisfying the predicate, never more rows, and id order is kept |
| EventStore.SortByTime | src/main/java/com/hevodata/android/HDbAdapter.java:291 | the time-ordered read is a permutation of the matching rows (same multiset, same length) |
| EventStore.SortByTimeSorted | src/main/java/com/hevodata/android/HDbAdapter.java:291 | the rows of a page come back in ascending `created_at` order (ties by id) |
| EventStore.SortByTimeOfSorted | src/main/java/com/hevodata/android/HDbAdapter.java:291 | rows already in time order are returned in their stored order |
| EventStore.Matching | src/main/java/com/hevodata/android/HDbAdapter.java:284-289 | the rows the upload query selects: a row is in it iff it is stored and passes the origin filter; id order is kept |
| EventStore.Page | src/main/java/com/hevodata/android/HDbAdapter.java:284-292 | the page holds min(50, number of matching rows) rows, all of them stored rows passing the origin filter, ordered by `created_at` |
| EventStore.PageIsOldest | src/main/java/com/hevodata/android/HDbAdapter.java:291 | the page repeats no matching row, and every matching row left out of it comes after every row in it in `created_at` order: it is the 50 oldest |
| EventStore.Decoded | src/main/java/com/hevodata/android/HDbAdapter.java:300-310 | undecodable rows are skipped: no more events than rows, all of them when every row decodes, at least one iff some row decodes |
| EventStore.DecodedEvents | src/main/java/com/hevodata/android/HDbAdapter.java:304-309 | an event is in the result iff some row of the page parses to it |
| EventStore.DecodedAppend | src/main/java/com/hevodata/android/HDbAdapter.java:300-310 | decoding a page is decoding its parts in order, so the events keep the page order |
| EventStore.DecodedSingle | src/main/java/com/hevodata/android/HDbAdapter.java:304-309 | one row gives its event when its data parses and nothing otherwise |
| EventStore.ReadBatch | src/main/java/com/hevodata/android/HDbAdapter.java:275-338 | `generateDataString`: null on a read error or when nothing matches; a batch holds 1 to 50 events, a count equal to all matching rows, and the id of a stored matching row |
| EventStore.ReadBatchOfPage | src/main/java/com/hevodata/android/HDbAdapter.java:300-337 | a batch is returned iff the read succeeds and some page row parses; its last id is the id of the page's last row and its events are the page's parsed events in page order |
| EventStore.CollectPage | src/main/java/com/hevodata/android/HDbAdapter.java:300-310 | the cursor loop returns the id of the page's last row and exactly the decoded events in page order |
| EventStore.BelowMemThreshold | src/main/java/com/hevodata/android/HDbAdapter.java:89-94 | true when no file exists; otherwise true iff the file length is at most the free space or at most the minimum database limit |
| EventStore.Add | src/main/java/com/hevodata/android/HDbAdapter.java:130-171 | over the threshold: code -2 and the store unchanged; on a storage error: the database deleted and code -1; otherwise exactly one record appended with the next id, the flag and the time, and the total row count returned |
| EventStore.Delete | src/main/java/com/hevodata/android/HDbAdapter.java:178-259 | a failing write deletes the database; a successful one keeps exactly the rows the predicate selects and keeps the id counter |
| EventStore.DeleteAll | src/main/java/com/hevodata/android/HDbAdapter.java:224-239 | `cleanupAllEvents` leaves no row; a failing write deletes the database, a successful one keeps the counter |
| EventStore.DeleteUpTo | src/main/java/com/hevodata/android/HDbAdapter.java:178-198 | `cleanupEvents(lastId, include)`: a failing write deletes the database; otherwise a row is kept iff it is not both at most lastId and passing the origin filter, and the counter is kept |
| EventStore.DeleteOlder | src/main/java/com/hevodata/android/HDbAdapter.java:204-219 | `cleanupEvents(time)`: a failing write deletes the database; otherwise a row is kept iff it was created after `time`, and the counter is kept |
| EventStore.DeleteAutomatic | src/main/java/com/hevodata/android/HDbAdapter.java:244-259 | `cleanupAutomaticEvents`: a failing write deletes the database; otherwise a row is kept iff it is not automatic, and the counter is kept |
| EventStore.DeleteUpToExactly | src/main/java/com/hevodata/android/HDbAdapter.java:178-186 | `cleanupEvents(lastId, include)` removes a row iff its id is at most lastId and it passes the origin filter; the counter is kept |
| EventStore.DeleteOlderExactly | src/main/java/com/hevodata/android/HDbAdapter.java:204-207 | `cleanupEvents(time)` removes a row iff it was created at or before `time`, whatever its origin |
| EventStore.DeleteAutomaticExactly | src/main/java/com/hevodata/android/HDbAdapter.java:244-247 | `cleanupAutomaticEvents` removes a row iff it is automatic |
| EventStore.DeleteShrinks | src/main/java/com/hevodata/android/HDbAdapter.java:178-259 | no delete adds a row or grows the table |
| EventStore.BatchDeletionShrinks | src/main/java/com/hevodata/android/HDbAdapter.java:178-186 | deleting up to a batch's last id strictly shrinks the table, so the upload loop terminates |
| EventStore.WhereDrops | src/main/java/com/hevodata/android/HDbAdapter.java:178-186 | filtering out a present row shortens the sequence |
| EventStore.WhereMonotone | src/main/java/com/hevodata/android/HDbAdapter.java:291 | rows stored in creation order stay in creation order after filtering |
| EventStore.PageUnderMonotoneClock | src/main/java/com/hevodata/android/HDbAdapter.java:284-298 | when rows were stored in creation order, the page is the first min(50, n) matching rows in id order |
| EventStore.BatchDeletesPageUnderMonotoneClock | src/main/java/com/hevodata/android/HDbAdapter.java:178-186 | under a monotone clock, deleting up to the batch's last id removes a row iff it was in the page just sent |
| EventStore.Store.constructor | src/main/java/com/hevodata/android/HDbAdapter.java:100-106 | the adapter opens over the given database state |
| EventStore.Store.AddJSON | src/main/java/com/hevodata/android/HDbAdapter.java:130-171 | the new state and the code are those of `Add` |
| EventStore.Store.CleanupUpTo | src/main/java/com/hevodata/android/HDbAdapter.java:178-198 | the new state is `DeleteUpTo` of the old one |
| EventStore.Store.CleanupOlderThan | src/main/java/com/hevodata/android/HDbAdapter.java:204-219 | the new state is `DeleteOlder` of the old one |
| EventStore.Store.CleanupAll | src/main/java/com/hevodata/android/HDbAdapter.java:224-239 | the new state is `DeleteAll` of the old one |
| EventStore.Store.CleanupAutomatic | src/main/java/com/hevodata/android/HDbAdapter.java:244-259 | the new state is `DeleteAutomatic` of the old one |
| EventStore.Store.DeleteDB | src/main/java/com/hevodata/android/HDbAdapter.java:261-263 | no file, no row, the counter reset |
| EventStore.Store.GenerateDataString | src/main/java/com/hevodata/android/HDbAdapter.java:275-338 | the result is `ReadBatch` of the old rows; the rows are untouched and the file now exists |
| Messages.PrepareEventObject | src/main/java/com/hevodata/android/AnalyticsMessages.java:382-459 | `{event, properties}`: device defaults only for INSTALLATION, overridden by the event's properties, with the session metadata under `$h_metadata` |
| Messages.OrdinaryEventHasNoDefaults | src/main/java/com/hevodata/android/AnalyticsMessages.java:384-386 | an event other than INSTALLATION carries exactly its own keys plus `$h_metadata` |
| Messages.UpdatedFrequency | src/main/java/com/hevodata/android/AnalyticsMessages.java:467-482 | the flush count grows by one and the last flush time becomes now; the first flush leaves the average as it was |
| Messages.AverageStaysBetween | src/main/java/com/hevodata/android/AnalyticsMessages.java:467-482 | the new rolling average lies between the old average and the latest interval |
| Messages.RetryAfterPost | src/main/java/com/hevodata/android/AnalyticsMessages.java:320-358 | a response after failures clears the failure count and the pending retry flush but not the hint; a response with no failure changes nothing; a 503 stores the hint in milliseconds; other outcomes change nothing |
| Messages.RetryAfterFailure | src/main/java/com/hevodata/android/AnalyticsMessages.java:363-373 | the failure count grows by one and exactly one FLUSH is pending at the new delay, which is `NextDelay` of the old count and hint, at most ten minutes |
| Messages.RetryAfterPostAsWritten | src/main/java/com/hevodata/android/AnalyticsMessages.java:351 | the same step with the 503 hint multiplied in `int` arithmetic |
| Messages.RetryAfterFailureAsWritten | src/main/java/com/hevodata/android/AnalyticsMessages.java:363-373 | the same step with the delay computed in `long` arithmetic |
| Messages.RetryAsWrittenAgrees | src/main/java/com/hevodata/android/AnalyticsMessages.java:351-366 | for the first 47 failures and hints whose milliseconds fit in an `int`, the fixed-width steps equal the exact ones |
| Messages.TimeoutsAsWritten | src/main/java/com/hevodata/android/AnalyticsMessages.java:352-373 | the retry fields after n timed-out posts in a row: the failure count grows by n |
| Messages.TimeoutsReachCap | src/main/java/com/hevodata/android/AnalyticsMessages.java:363-373 | from a fresh handler, after 5 to 48 timeouts the stored delay and the pending FLUSH are the ten-minute cap |
| Messages.ZeroDelayAfter48Timeouts | src/main/java/com/hevodata/android/AnalyticsMessages.java:351-369 | after 48 timeouts from a fresh handler, a 503 with a zero hint reschedules the FLUSH with no delay in the program as written, and at ten minutes with exact arithmetic |
| Messages.Drain | src/main/java/com/hevodata/android/AnalyticsMessages.java:307-380 | `sendData` from one read on: the table stays well formed, and a failed read ends the loop with only the file marked present |
| Messages.Continue | src/main/java/com/hevodata/android/AnalyticsMessages.java:316-379 | one round given its batch: no batch or a zero count ends the loop unchanged, and a failed post leaves the table as it was |
| Messages.DrainStops | src/main/java/com/hevodata/android/AnalyticsMessages.java:307-318 | the loop stops when the read yields nothing |
| Messages.ContinueAfterDelete | src/main/java/com/hevodata/android/AnalyticsMessages.java:360-378 | after an accepted post the batch is deleted and the next round reads again |
| Messages.ContinueStops | src/main/java/com/hevodata/android/AnalyticsMessages.java:316 | a missing batch or a zero count ends the loop with nothing changed |
| Messages.ContinueAfterFailure | src/main/java/com/hevodata/android/AnalyticsMessages.java:363-373 | a failed post keeps the store and ends the loop with the backoff applied |
| Messages.DrainReads | src/main/java/com/hevodata/android/AnalyticsMessages.java:310 | every round begins with a read, which creates the database file |
| Messages.SendAll | src/main/java/com/hevodata/android/AnalyticsMessages.java:292-305 | offline or without an endpoint, nothing is read or posted |
| Messages.Opened | src/main/java/com/hevodata/android/AnalyticsMessages.java:216-219 | the first command opens the database (after expiring old rows); later ones leave the state as it is |
| Messages.Handle | src/main/java/com/hevodata/android/AnalyticsMessages.java:187-196 | a dead worker drops the command unchanged |
| Messages.KillEndsWorker | src/main/java/com/hevodata/android/AnalyticsMessages.java:244-250 | KILL deletes every row and makes the worker dead |
| Messages.OtherCommandsKeepWorker | src/main/java/com/hevodata/android/AnalyticsMessages.java:224-243 | ENQUEUE, FLUSH and EMPTY never end a live worker |
| Messages.FlushNow | src/main/java/com/hevodata/android/AnalyticsMessages.java:238-241 | a flush updates the statistics to `UpdatedFrequency` and keeps the worker live and open |
| Messages.AfterCommand | src/main/java/com/hevodata/android/AnalyticsMessages.java:256-272 | the flush decision never kills or closes the worker, and a code that is neither positive, out of memory nor at the bulk limit changes nothing |
| Messages.Dispatched | src/main/java/com/hevodata/android/AnalyticsMessages.java:220-272 | after one command the worker is dead iff it was already or the command was KILL |
| Messages.HandleLive | src/main/java/com/hevodata/android/AnalyticsMessages.java:215-286 | the database is opened; the worker is dead afterwards iff it was, an exception escaped, or the command was KILL; an exception keeps the rows of the opened database and drops the pending flush |
| Messages.CrashKeepsStore | src/main/java/com/hevodata/android/AnalyticsMessages.java:274-285 | an uncaught runtime exception, raised before the command changes anything, ends the worker and leaves the rows as they were |
| Messages.DeadStaysDead | src/main/java/com/hevodata/android/AnalyticsMessages.java:181-196 | once dead, any sequence of commands leaves the worker unchanged |
| Messages.Run | src/main/java/com/hevodata/android/AnalyticsMessages.java:187-196 | a dead worker is still dead after any sequence of commands |
| Messages.EnqueueWithoutCapture | src/main/java/com/hevodata/android/AnalyticsMessages.java:231-233 | with capture off, ENQUEUE stores nothing and schedules nothing |
| Messages.AfterCommandTrigger | src/main/java/com/hevodata/android/AnalyticsMessages.java:256-273 | an immediate flush iff (code >= bulk limit or code == -2) and no failure is pending; otherwise a delayed FLUSH is added iff code > 0, none is pending and the interval is not negative |
| Messages.OfflineFlushTouchesNothing | src/main/java/com/hevodata/android/AnalyticsMessages.java:292-305 | offline or without an endpoint, a flush changes neither store nor retry state |
| Messages.FailedPostBacksOff | src/main/java/com/hevodata/android/AnalyticsMessages.java:363-373 | a failed post keeps the store, adds one failure, and schedules exactly one FLUSH at min(max(2^n minutes, hint), 10 minutes), in exact arithmetic |
| Messages.DrainOnlyDeletes | src/main/java/com/hevodata/android/AnalyticsMessages.java:307-380 | the upload loop never adds a row |
| Messages.DrainEmptiesQueue | src/main/java/com/hevodata/android/AnalyticsMessages.java:307-380 | when every read works and every post is accepted, the loop ends only when no readable batch is left, with no failure pending |
| Messages.Worker.constructor | src/main/java/com/hevodata/android/AnalyticsMessages.java:176-178 | a live worker over the store, with no retry or flush history |
| Messages.Worker.RunMessage | src/main/java/com/hevodata/android/AnalyticsMessages.java:187-196 | the worker's new state is `Handle` of the old one |
| Messages.Worker.FireScheduledFlush | src/main/java/com/hevodata/android/AnalyticsMessages.java:238-241 | the delayed FLUSH leaves the queue and is handled as a FLUSH |
| Messages.Worker.HandleMessage | src/main/java/com/hevodata/android/AnalyticsMessages.java:215-286 | the new state is `HandleLive` of the old one |
| Messages.Worker.OpenAdapter | src/main/java/com/hevodata/android/AnalyticsMessages.java:216-219 | the new state is `Opened` of the old one |
| Messages.Worker.Dispatch | src/main/java/com/hevodata/android/AnalyticsMessages.java:222-273 | the new state is `Dispatched` of the old one |
| Messages.Worker.FlushTrigger | src/main/java/com/hevodata/android/AnalyticsMessages.java:256-273 | the new state is `AfterCommand` of the old one |
| Messages.Worker.UpdateFlushFrequency | src/main/java/com/hevodata/android/AnalyticsMessages.java:467-482 | only the statistics change, to `UpdatedFrequency` |
| Messages.Worker.SendAllData | src/main/java/com/hevodata/android/AnalyticsMessages.java:292-305 | the new state is `SendAll` of the old one |
| Messages.Worker.SendData | src/main/java/com/hevodata/android/AnalyticsMessages.java:307-380 | the loop leaves the store and the retry fields as `Drain` prescribes, and nothing else changes |
| Messages.Worker.Round | src/main/java/com/hevodata/android/AnalyticsMessages.java:316-379 | one round: a post, then a delete and the next read (the store strictly shrinks) or a backoff, as `Continue` prescribes |
| Messages.Worker.DeleteAndReadNext | src/main/java/com/hevodata/android/AnalyticsMessages.java:360-378 | deletes the batch (the store shrinks) and reads the next batch |
| Messages.Worker.PostBatch | src/main/java/com/hevodata/android/AnalyticsMessages.java:320-358 | the batch is to be deleted iff the outcome is a response, an out-of-memory error or a malformed URL; the retry fields follow `RetryAfterPost` |
| Messages.Worker.BackOff | src/main/java/com/hevodata/android/AnalyticsMessages.java:363-373 | the retry fields follow `RetryAfterFailure` |
| Backoff.NextDelay | src/main/java/com/hevodata/android/AnalyticsMessages.java:363-368 | the delay is at most ten minutes and at least min(one minute, cap) and min(hint, cap); it is the cap, 2^n minutes or the hint, and below the cap it covers both of the others |
| Backoff.NextDelayMonotone | src/main/java/com/hevodata/android/AnalyticsMessages.java:363-368 | the delay never decreases from one failure to the next |
| Backoff.NextDelayCapped | src/main/java/com/hevodata/android/AnalyticsMessages.java:363-368 | from the fourth failure on, the delay is the ten-minute cap |
| Backoff.PowAsLong | src/main/java/com/hevodata/android/AnalyticsMessages.java:365 | `(long) Math.pow(2, n)` is a `long` |
| Backoff.DelayAsWritten | src/main/java/com/hevodata/android/AnalyticsMessages.java:365-366 | the `long` expression as written never exceeds the cap |
| Backoff.HintMillisAsWritten | src/main/java/com/hevodata/android/AnalyticsMessages.java:351 | `getRetryAfter() * 1000` is an `int` |
| Backoff.DelayAsWrittenAgreesEarly | src/main/java/com/hevodata/android/AnalyticsMessages.java:365-366 | for the first 47 failures the `long` arithmetic gives the exact delay |
| Backoff.DelayWrapsAt48 | src/main/java/com/hevodata/android/AnalyticsMessages.java:365-366 | at failure count 48 the `long` product is negative: with a stored hint of 0 the delay is 0 instead of ten minutes, while a stored ten-minute delay hides the overflow |
| Backoff.HintWraps | src/main/java/com/hevodata/android/AnalyticsMessages.java:351 | a hint of 4294968 seconds wraps to 704 ms, so the first retry waits one minute instead of ten |
| Session.SessionMetadata.constructor | src/main/java/com/hevodata/android/SessionMetadata.java:17-20 | a new tagger starts a session: counter 0, start in whole seconds (truncated), no random id drawn yet |
| Session.SessionMetadata.InitSession | src/main/java/com/hevodata/android/SessionMetadata.java:22-26 | counter 0, the new session id, and a start of now / 1000 truncated (for a non-negative clock, within the second of now) |
| Session.SessionMetadata.GetMetadataForEvent | src/main/java/com/hevodata/android/SessionMetadata.java:28-41 | exactly the four `h_*` tags; the sequence number is the counter before the call; the counter grows by one; session id and start are unchanged |
| Session.FourEventsInOneSession | src/androidTest/java/com/hevodata/android/HevoBasicTest.java:675-687 | four events after a new session are numbered 0, 1, 2, 3, all with that session's id |
| Json.Nullify | src/main/java/com/hevodata/android/PersistentIdentity.java:277-314 | an object keeps its keys, an array its length, and every other value becomes null |
| Json.NullifyShape | src/main/java/com/hevodata/android/PersistentIdentity.java:277-314 | nullifying keeps every object key and array length and leaves only null leaves |
| Json.NullifyFixpoint | src/main/java/com/hevodata/android/PersistentIdentity.java:277-314 | a value is unchanged by nullifying iff all its leaves are already null |
| Json.NullifyIdempotent | src/main/java/com/hevodata/android/PersistentIdentity.java:277-314 | nullifying twice equals nullifying once |
| Identity.PutAll | src/main/java/com/hevodata/android/PersistentIdentity.java:204-217 | every given key takes its new value and every other key keeps its old one |
| Identity.RegisteredOnce | src/main/java/com/hevodata/android/PersistentIdentity.java:363-378 | only absent keys are added; existing values are never overwritten |
| Identity.RegisterOnceIsReverseUnion | src/main/java/com/hevodata/android/PersistentIdentity.java:363-378 | register-once is the map union in which existing values win |
| Identity.Unregistered | src/main/java/com/hevodata/android/PersistentIdentity.java:258-275 | the key stays; its value becomes a same-shaped value with only null leaves; other keys are untouched |
| Identity.Cleared | src/main/java/com/hevodata/android/PersistentIdentity.java:380-383 | same keys, every value nullified keeping its shape |
| Identity.ClearIdempotent | src/main/java/com/hevodata/android/PersistentIdentity.java:380-383 | clearing twice equals clearing once |
| Identity.UnregisterThenClear | src/main/java/com/hevodata/android/PersistentIdentity.java:258-383 | unregistering and then clearing equals clearing alone |
| Identity.PersistentIdentity.constructor | src/main/java/com/hevodata/android/PersistentIdentity.java:69-86 | over what storage holds; unparsable stored super-properties load as empty; nothing cached yet |
| Identity.PersistentIdentity.RegisterSuperProperties | src/main/java/com/hevodata/android/PersistentIdentity.java:204-217 | every given key is set, every other key kept |
| Identity.PersistentIdentity.RegisterSuperPropertiesOnce | src/main/java/com/hevodata/android/PersistentIdentity.java:363-378 | the result is `RegisteredOnce` of the old properties |
| Identity.PersistentIdentity.UnregisterSuperProperty | src/main/java/com/hevodata/android/PersistentIdentity.java:258-275 | the result is `Unregistered` of the old properties |
| Identity.PersistentIdentity.ClearSuperProperties | src/main/java/com/hevodata/android/PersistentIdentity.java:380-383 | the result is `Cleared` of the old properties |
| Identity.PersistentIdentity.ResetSuperProperties | src/main/java/com/hevodata/android/PersistentIdentity.java:385-388 | no super-property is left |
| Identity.PersistentIdentity.ResetSuperProperty | src/main/java/com/hevodata/android/PersistentIdentity.java:390-394 | exactly that key is removed |
| Identity.PersistentIdentity.AddSuperPropertiesToObject | src/main/java/com/hevodata/android/PersistentIdentity.java:88-103 | the target is unchanged unless the event name is null or INSTALLATION, in which case every super-property is copied over it |
| Identity.PersistentIdentity.ReadIdentities | src/main/java/com/hevodata/android/PersistentIdentity.java:575-608 | the stored id is loaded; with none, the new UUID is used and stored |
| Identity.PersistentIdentity.GetEventsDistinctId | src/main/java/com/hevodata/android/PersistentIdentity.java:156-161 | the loaded id; on first use the stored id, or a generated one that is then stored |
| Identity.PersistentIdentity.SetEventsDistinctId | src/main/java/com/hevodata/android/PersistentIdentity.java:163-170 | the id is replaced in memory and in storage |
| Identity.PersistentIdentity.ClearPreferences | src/main/java/com/hevodata/android/PersistentIdentity.java:172-189 | no super-property, and a newly generated and stored id |
| Identity.PersistentIdentity.SetOptOutTracking | src/main/java/com/hevodata/android/PersistentIdentity.java:486-489 | the flag is cached and stored |
| Identity.PersistentIdentity.GetOptOutTracking | src/main/java/com/hevodata/android/PersistentIdentity.java:491-497 | the cached flag, else the stored flag, else false |
| Identity.PersistentIdentity.AddTimeEvent | src/main/java/com/hevodata/android/PersistentIdentity.java:350-361 | the timing map gains (or updates) that entry |
| Identity.PersistentIdentity.RemoveTimeEvent | src/main/java/com/hevodata/android/PersistentIdentity.java:336-347 | exactly that timing is removed |
| Identity.PersistentIdentity.ClearTimeEvents | src/main/java/com/hevodata/android/PersistentIdentity.java:191-202 | no timing is left |
| Identity.PersistentIdentity.ClearReferrerProperties | src/main/java/com/hevodata/android/PersistentIdentity.java:141-154 | no referrer property is left |
| Identity.PersistentIdentity.IsNewVersion | src/main/java/com/hevodata/android/PersistentIdentity.java:421-452 | null gives false; the first call caches the stored version and, with none stored, records the given one; the answer is cached < given; a newer version is stored but the cache is kept; an unparsable version changes nothing |
| Identity.PersistentIdentity.IsFirstLaunch | src/main/java/com/hevodata/android/PersistentIdentity.java:454-472 | decided once as "not launched before and no database file", then cached whatever the argument |
| Identity.PersistentIdentity.SetHasLaunched | src/main/java/com/hevodata/android/PersistentIdentity.java:474-484 | the launched flag is stored |
| Identity.GeneratedThenSetId | src/androidTest/java/com/hevodata/android/PersistentIdentityTest.java:77-92 | with no stored id a generated id is returned and stored; after setting `x`, `x` is read back |
| Identity.NewVersionReportedTwice | src/main/java/com/hevodata/android/PersistentIdentity.java:439-444 | with version 1 cached, asking twice about version 2 answers true both times |
| Identity.RegisterOnceKeepsExisting | src/androidTest/java/com/hevodata/android/HevoBasicTest.java:221-235 | register-once never overwrites an existing key |
| Api.ReferrerProps | src/main/java/com/hevodata/android/HevoAPI.java:827-832 | the referrer entries, every value as a JSON string |
| Api.NonNull | src/main/java/com/hevodata/android/HevoAPI.java:849-857 | exactly the caller's entries whose value is not JSON null |
| Api.Forced | src/main/java/com/hevodata/android/HevoAPI.java:838-847 | `time` and `distinct_id`, plus `$duration` exactly for a timed event, with their values |
| Api.MergedProperties | src/main/java/com/hevodata/android/HevoAPI.java:827-857 | a key is present iff some layer has it; its value comes from the caller, else the forced fields, else the super-properties, else the referrer |
| Api.CallerOverridesForcedFields | src/main/java/com/hevodata/android/HevoAPI.java:836-857 | non-null caller values for `time` and `distinct_id` replace the library's own |
| Api.NullCallerValueDropped | src/main/java/com/hevodata/android/HevoAPI.java:853 | a caller's null value is not copied |
| Api.ForcedFieldsBeatSuperProperties | src/main/java/com/hevodata/android/HevoAPI.java:834-841 | super-properties and referrer values never displace `time` or `distinct_id` |
| Api.DurationPresence | src/main/java/com/hevodata/android/HevoAPI.java:843-847 | `$duration` is present iff the event was timed or the caller supplied one |
| Api.PutReferrer | src/main/java/com/hevodata/android/HevoAPI.java:827-832 | the loop lays every referrer entry, as a string, over the target |
| Api.PutNonNull | src/main/java/com/hevodata/android/HevoAPI.java:849-857 | the loop lays the caller's non-null entries over the target |
| Api.Trim | src/main/java/com/hevodata/android/HevoAPI.java:314 | `String.trim`: the result is a slice of the input whose removed ends are all at most U+0020 and whose own ends are above it; empty iff every character is at most U+0020 |
| Api.Elapsed | src/main/java/com/hevodata/android/HevoAPI.java:817-822 | a duration iff the event was timed, equal to now minus the start |
| Api.Hevo.HasOptedOutTracking | src/main/java/com/hevodata/android/HevoAPI.java:705-707 | the cached, else stored, else false opt-out flag |
| Api.Hevo.GetDistinctId | src/main/java/com/hevodata/android/HevoAPI.java:462-464 | the distinct id, loaded or generated on first use |
| Api.Hevo.BuildProperties | src/main/java/com/hevodata/android/HevoAPI.java:825-857 | the properties built are `MergedProperties` of the current layers |
| Api.Hevo.Track | src/main/java/com/hevodata/android/HevoAPI.java:812-866 | opted out or with capture off: nothing; otherwise the timing is consumed and one ENQUEUE is appended with the merged properties and the next session sequence number |
| Api.Hevo.Flush | src/main/java/com/hevodata/android/HevoAPI.java:433-436 | a FLUSH message unless opted out |
| Api.Hevo.TimeEvent | src/main/java/com/hevodata/android/HevoAPI.java:341-348 | the start time is recorded unless opted out; nothing is sent |
| Api.Hevo.Identify | src/main/java/com/hevodata/android/HevoAPI.java:313-332 | a blank trimmed id or an opted-out user changes nothing; otherwise the id is set and IDENTITY_CHANGE (old, new) is tracked iff it differs from the current id, consuming only that event's timing; super- and referrer properties are kept |
| Api.Hevo.Alias | src/main/java/com/hevodata/android/HevoAPI.java:269-288 | nothing when opted out or when alias equals the original (by default the current id); else an ALIAS event with both, then a FLUSH |
| Api.Hevo.OptOutTracking | src/main/java/com/hevodata/android/HevoAPI.java:639-648 | EMPTY sent; identity, super-properties, timings and referrer cleared; a new id; the flag set |
| Api.Hevo.OptInTracking | src/main/java/com/hevodata/android/HevoAPI.java:692-697 | the flag cleared; a non-blank trimmed id becomes the distinct id, with IDENTITY_CHANGE sent first exactly when it differs; then `$opt_in`, not automatic, is the last message, carrying the merged properties under the new id and the caller's properties |
| Api.Hevo.OptInIdentify | src/main/java/com/hevodata/android/HevoAPI.java:693-696 | the flag cleared; the distinct id becomes the trimmed id unless it is blank; IDENTITY_CHANGE is the only message, sent exactly when the id changes, and consumes only its own timing |
| Api.Hevo.IdentifyCurrent | src/main/java/com/hevodata/android/HevoAPI.java:618 | identifying the current id only appends; an id that trimming keeps sends nothing and stays the id |
| Api.Hevo.RegisterSuperProperties | src/main/java/com/hevodata/android/HevoAPI.java:515-519 | opted out: nothing; otherwise the super-properties become the old ones overwritten by the given ones, and INSTALLATION is tracked carrying them |
| Api.Hevo.RegisterSuperPropertiesOnce | src/main/java/com/hevodata/android/HevoAPI.java:571-575 | opted out: nothing; otherwise only absent keys are added (existing values win), and INSTALLATION is tracked carrying the result |
| Api.Hevo.UnregisterSuperProperty | src/main/java/com/hevodata/android/HevoAPI.java:531-536 | opted out: nothing; otherwise INSTALLATION is tracked carrying the property nullified, and afterwards the key is gone |
| Api.Hevo.ClearSuperProperties | src/main/java/com/hevodata/android/HevoAPI.java:587-591 | even when opted out, no super-property is left; when not opted out, INSTALLATION is tracked carrying every old property nullified |
| Api.Hevo.UpdateSuperProperties | src/main/java/com/hevodata/android/HevoAPI.java:602-606 | opted out: nothing; otherwise the update's answer (or the old properties for a null answer) replaces them and INSTALLATION is tracked carrying it |
| Api.Hevo.Reset | src/main/java/com/hevodata/android/HevoAPI.java:612-620 | no super-property is left; when not opted out, INSTALLATION with no super-properties under the new id comes first and FLUSH last; a new id that trimming keeps sends no IDENTITY_CHANGE |
| Identity.PersistentIdentity.UpdateSuperProperties | src/main/java/com/hevodata/android/PersistentIdentity.java:105-129 | the update's answer replaces the cache; a null answer keeps it |
| Api.Hevo.OnBackground | src/main/java/com/hevodata/android/HevoAPI.java:753-755 | a flush |
| Api.Hevo.OnForeground | src/main/java/com/hevodata/android/HevoAPI.java:757-759 | a new session: counter 0, the new id, the current start |
| Api.Hevo.constructor | src/main/java/com/hevodata/android/HevoAPI.java:119-178 | with opt-out by default the user is opted out and only EMPTY is sent |
| Api.Hevo.TrackLaunch | src/main/java/com/hevodata/android/HevoAPI.java:151-175 | nothing when opted out; messages are only appended; FIRST_OPEN (automatic) and INSTALLATION come first on a first launch, then `$app_open` unless disabled |
| Api.Hevo.TrackFirstLaunch | src/main/java/com/hevodata/android/HevoAPI.java:151-156 | on a first launch exactly FIRST_OPEN (automatic) then INSTALLATION are enqueued and the launch is recorded; otherwise nothing is sent |
| Api.Hevo.TrackVersionUpdate | src/main/java/com/hevodata/android/HevoAPI.java:168-175 | nothing without a version or when opted out |
| Api.Registry.GetInstance | src/main/java/com/hevodata/android/HevoAPI.java:234-257 | null for a null context; the registered instance of the application context if any; else a new registered instance when the configuration check passes, else null |
| Api.SameInstanceTwice | src/main/java/com/hevodata/android/HevoAPI.java:234-257 | two calls with the same application context return the same instance |
| Api.DurationOnlyOnFirstTrack | src/androidTest/java/com/hevodata/android/OptOutTest.java:225-226 | after `timeEvent`, the first `track` carries `$duration` = elapsed time and the second does not |
| Api.OptOutSilencesTracking | src/androidTest/java/com/hevodata/android/OptOutTest.java:134-138 | after `optOutTracking`, `track` and `flush` send nothing more |
| Api.IdentifyIgnoresBlank | src/main/java/com/hevodata/android/HevoAPI.java:313-317 | `identify` of a blank id sends nothing and keeps the id |
| Lifecycle.LifecycleCallbacks.constructor | src/main/java/com/hevodata/android/HevoActivityLifecycleCallbacks.java:19-34 | starts in the foreground, paused, no check pending |
| Lifecycle.LifecycleCallbacks.IsInForeground | src/main/java/com/hevodata/android/HevoActivityLifecycleCallbacks.java:101-103 | the foreground flag |
| Lifecycle.LifecycleCallbacks.OnActivityPaused | src/main/java/com/hevodata/android/HevoActivityLifecycleCallbacks.java:43-50 | paused, and exactly one check pending |
| Lifecycle.LifecycleCallbacks.OnActivityResumed | src/main/java/com/hevodata/android/HevoActivityLifecycleCallbacks.java:82-96 | not paused, foreground, no check pending; coming back from the background starts a new session |
| Lifecycle.LifecycleCallbacks.RunCheck | src/main/java/com/hevodata/android/HevoActivityLifecycleCallbacks.java:53-70 | acts only when in the foreground and paused: goes to the background, tracks SESSION and INSTALLATION iff the length is in the window, then flushes; the session start and the session id are kept |
| Lifecycle.LifecycleCallbacks.TrackSession | src/main/java/com/hevodata/android/HevoActivityLifecycleCallbacks.java:57-64 | the automatic SESSION event with the formatted length, then INSTALLATION |
| Lifecycle.OneSessionPerForegroundPeriod | src/main/java/com/hevodata/android/HevoActivityLifecycleCallbacks.java:53-54 | two checks with no resume between them send exactly what the first sends: one FLUSH, after at most the one session ending at the first check |
| Lifecycle.QuickResumeKeepsSession | src/main/java/com/hevodata/android/HevoActivityLifecycleCallbacks.java:82-95 | a resume before the check keeps the app in the foreground and the session unchanged |
| Config.GetInt | src/main/java/com/hevodata/android/HevoConfig.java:157-162 | the value only when stored as an `int`, else the default |
| Config.GetLong | src/main/java/com/hevodata/android/HevoConfig.java:166-167 | the value only when stored as a `long`, else the default |
| Config.GetBoolean | src/main/java/com/hevodata/android/HevoConfig.java:152-164 | the value only when stored as a boolean, else the default |
| Config.GetString | src/main/java/com/hevodata/android/HevoConfig.java:169 | the value only when stored as a string, else null |
| Config.FromMetaData | src/main/java/com/hevodata/android/HevoConfig.java:152-174 | no meta-data gives the defaults; the endpoint is set iff a non-empty string is supplied |
| Config.Defaults | src/main/java/com/hevodata/android/HevoConfig.java:157-167 | 40 records, 60000 ms, 20 MiB, app-open disabled, capture on, 10 s minimum session, `Integer.MAX_VALUE` timeout, five days expiration, no endpoint |
| Config.SuppliedIntsOverride | src/main/java/com/hevodata/android/HevoConfig.java:157-162 | in any bundle, an integer setting supplied as an `int` takes that value and no other setting changes |
| Config.SuppliedIntsOverDefaults | src/main/java/com/hevodata/android/HevoConfig.java:157-162 | a bundle holding only the five integer settings gives them and the defaults for the rest |
| Config.SuppliedBooleansOverride | src/main/java/com/hevodata/android/HevoConfig.java:152-164 | in any bundle, a boolean setting supplied as a `boolean` takes that value, whatever its default, and no other setting changes |
| Config.DebugOverride | src/main/java/com/hevodata/android/HevoConfig.java:152 | a supplied debug flag overrides the default `false` and changes nothing else |
| Config.DisableAppOpenEventOverride | src/main/java/com/hevodata/android/HevoConfig.java:160 | a supplied flag overrides the default `true` and changes nothing else |
| Config.TestModeOverride | src/main/java/com/hevodata/android/HevoConfig.java:163 | a supplied test-mode flag overrides the default `false` and changes nothing else |
| Config.CaptureAutomaticEventsOverride | src/main/java/com/hevodata/android/HevoConfig.java:164 | a supplied capture flag overrides the default `true` and changes nothing else |
| Config.MistypedBooleansKeepDefaults | src/main/java/com/hevodata/android/HevoConfig.java:160-164 | a boolean setting stored as an `int` is ignored: capture stays on and the app-open event stays disabled |
| Config.DataExpirationNeedsLong | src/main/java/com/hevodata/android/HevoConfig.java:166-167 | an expiration stored as an `int` is ignored; only a `long` takes effect |
| Config.EmptyEndpointIsNone | src/main/java/com/hevodata/android/HevoConfig.java:169-174 | an empty endpoint counts as none |
| RemoteService.ParseInt | src/main/java/com/hevodata/android/util/RemoteService.java:23 | `Integer.parseInt`: null and empty give no value; a value is always in `int` range |
| RemoteService.ParseShowInt | src/main/java/com/hevodata/android/util/RemoteService.java:21-23 | every `int` numeral parses back to itself |
| RemoteService.ParseShowOutOfRange | src/main/java/com/hevodata/android/util/RemoteService.java:24-26 | a numeral outside `int` range does not parse |
| RemoteService.ParseRejectsNonDigit | src/main/java/com/hevodata/android/util/RemoteService.java:24-26 | a character that is neither a digit nor a leading sign rejects the text |
| RemoteService.RetryAfterSeconds | src/main/java/com/hevodata/android/util/RemoteService.java:19-27 | the parsed hint, else 0 |
| RemoteService.RetryAfterOfNumeral | src/main/java/com/hevodata/android/util/RemoteService.java:21-23 | an `int` numeral gives that many seconds |
| RemoteService.RetryAfterOfHugeNumeral | src/main/java/com/hevodata/android/util/RemoteService.java:24-26 | a numeral out of `int` range gives 0 |
| RemoteService.RetryAfterOfGarbage | src/main/java/com/hevodata/android/util/RemoteService.java:19-27 | a null or non-numeric header gives 0 |
| RemoteService.ServiceUnavailable.constructor | src/main/java/com/hevodata/android/util/RemoteService.java:19-34 | the hint is fixed at construction from the header |
| JavaInt.WrapInt | src/main/java/com/hevodata/android/AnalyticsMessages.java:351 | the 32-bit result congruent to the exact one, equal to it when in range |
| JavaInt.WrapLong | src/main/java/com/hevodata/android/AnalyticsMessages.java:365-366 | the 64-bit result congruent to the exact one, equal to it when in range |
| JavaInt.TruncDiv | src/main/java/com/hevodata/android/SessionMetadata.java:25 | Java's `/`: the quotient truncated toward zero |

## Left out

- SQLite, files and shared preferences are in-memory state. Free space, file length, file presence, storage faults and the clock are parameters.
- The looper, handler threads and `synchronized` blocks are out of scope: the worker handles commands one at a time. The delayed FLUSH message is the `pendingFlush` field, and a fired flush is `FireScheduledFlush`.
- The worker's reference to the database helper, `mDb`, is not modelled. The in-memory queue of messages the API sends to the worker is the `outbox` sequence.
- HTTP posting, `isOnline`, `checkIsHevoBlocked` and SSL are out of scope. Each post is an outcome drawn from an input stream indexed by round: response, null, 503 with hint, timeout, I/O error, out of memory, malformed URL.
- JSON text serialisation is out of scope. A row's `data` column either parses to a value or is recorded as undecodable.
- JSON null is a stored value in the model. Android's `JSONObject.put(k, null)` removes the key instead; `Unregistered` and `Cleared` keep the key with a null value. Because `nullifyJsonObject` calls `put` while iterating `keys()`, the program may also throw ConcurrentModificationException on objects with two or more keys; that is not modelled.
- Device information in `getDefaultEventProperties`, the `Build` fields and the app-links code are parameters or out of scope.
- `ExceptionHandler`, `ConfigurationChecker`, `isFirstIntegration`, push ids and the people queue are outside the modelled core.
- Randomness is not modelled. UUIDs, session ids and event ids are parameters or a stream of strings.
- Floating point is not modelled. `$duration` holds the elapsed milliseconds as a `Frac` value in thousandths of a second, and `eventElapsedTime` is left out.
- `Lifecycle.LifecycleCallbacks.TrackSession`: the session length is formatted by the parameter `formatSeconds`, which stands for `NumberFormat`.
- The statics (`sInstance`, `sStartSessionTime`, `sPreviousVersionCode`, `sIsFirstAppLaunch`) are fields of the objects that use them.
- Lifecycle.LifecycleCallbacks.constructor: sets the session start to now, while the Java static is only set when it is still null.
- The `Future<SharedPreferences>` loading is out of scope: preferences are already loaded.
- Api.Hevo.BuildProperties: calls `getDistinctId` before the super-property layer instead of between the layers. Nothing the other layers read is changed by it.
- Api.Hevo.Track: the public `track(name, props)` tests `hasOptedOutTracking` once more before calling the protected `track`. The model has only the protected one, since the second test gives the same answer.
- Api.Hevo.constructor: states only the opt-out default. The launch events are stated by `TrackLaunch`, which states the order of FIRST_OPEN, INSTALLATION and `$app_open`, and by `TrackVersionUpdate`.
- RetryAfterPost: stores the 503 hint as exact milliseconds, which is the corrected form of the second Findings row. The `int` product of line 351 is `RetryAfterPostAsWritten`. Both agree for hints up to 2147483 seconds.
- RetryAfterFailure: computes the delay in exact arithmetic, which is the corrected form of the first Findings row. The `long` product of line 365 is `RetryAfterFailureAsWritten`. Both agree for the first 47 failures.
- FailedPostBacksOff: like `Drain`, which uses `RetryAfterPost` and `RetryAfterFailure`, it states the corrected delay, not the program's wrapped one. The difference is in the Findings.
- HandleLive: an uncaught exception can happen only after the database is opened and before the command has any effect. In the program, `generateDataString` opens the database outside its `try` (HDbAdapter.java:281). So a storage exception in a later round of an upload can end the worker after earlier rounds have deleted batches and updated the retry fields. Read failures are modelled only as the caught case that yields no batch.
- CrashKeepsStore: for the reason above it covers only an exception raised before the command changes anything. A crash in the middle of an upload keeps the rows the earlier rounds left, and the model does not state that.
- BatchDeletesPageUnderMonotoneClock: needs rows stored in `created_at` order. If the clock went backwards, the page is the oldest rows by time, but `cleanupEvents(_id <= lastId)` deletes by id. It can then delete a matching row that was never sent and keep one that was. No lemma exhibits this case.
- Api.Hevo.TrackVersionUpdate: states only when nothing is sent. The APP_UPDATED event follows `IsNewVersion`, whose contract is stated.
- Session.SessionMetadata.GetMetadataForEvent: the `long` event counter is unbounded. Overflow would need 2^63 events. The tag names are `h_event_id`, `h_session_id`, `h_session_seq_id` and `h_session_start_sec`, as SessionMetadata.java:31-34 writes them; the instrumented test at HevoBasicTest.java:682-686 expects the same names with a `$` prefix. The model follows the code.
- The `Map` variants `trackMap`, `registerSuperPropertiesMap` and `registerSuperPropertiesOnceMap` are not separate members. Properties are already a map in the model, so each one is `Track`, `RegisterSuperProperties` or `RegisterSuperPropertiesOnce` after its own opt-out test. `trackMap` passes a null map on as no properties, which is `Track` with `None`; the two registration variants log and return on a null map, and that case is not modelled. Neither is the caught NullPointerException of a null key, since `Props` has no null key.
- `getDeviceInfo` is not modelled: it returns the device description built from `Build` fields and package information, which are out of scope as said above.
- ParseInt: `RemoteService.ParseInt` accepts only the ASCII digits '0' to '9'. `Integer.parseInt` reads each character with `Character.digit`, which also accepts the other Unicode decimal digits (U+0663 ARABIC-INDIC DIGIT THREE reads as 3). Which characters those are depends on the Unicode version of the runtime, so the model does not state them.
- ParseRejectsNonDigit: for the same reason it is stated for every character outside '0' to '9', so for a non-ASCII decimal digit it claims a rejection the program does not make.
- RetryAfterOfGarbage: likewise, a Retry-After made of non-ASCII decimal digits gives their value in the program, not 0.
- Identity.PersistentIdentity.ClearReferrerProperties: assumes the change listener reloads the emptied cache. Before Android 11 (API level 30), `Editor.clear()` does not notify `OnSharedPreferenceChangeListener`, so the cached referrer properties stay until the next change of that file or the next process. Api.Hevo.OptOutTracking inherits this: its "referrer cleared" holds only where the listener fires.
- The HevoConfig getters are not separate members: they are the fields of the `HevoConfig` datatype.

## Findings

| source | as written | input that shows it | evidently intended | confidence | as-written member | corrected member |
|---|---|---|---|---|---|---|
| src/main/java/com/hevodata/android/AnalyticsMessages.java:365-366 | `(long) Math.pow(2, n) * 60000` overflows `long` before `Math.min` applies the cap | 48 timed-out posts in a row, then a 503 with a missing, zero or unparsable Retry-After: the stored hint is 0, the product is negative, and the FLUSH is rescheduled at 0 ms | the delay stays at the ten-minute cap | not executed | Messages.ZeroDelayAfter48Timeouts | Backoff.NextDelay |
| src/main/java/com/hevodata/android/AnalyticsMessages.java:351 | `getRetryAfter() * 1000` is computed in `int` and wraps | a Retry-After of 4294968 seconds becomes 704 ms, so the retry waits one minute | a long hint gives the ten-minute cap | not executed | Backoff.HintWraps | Backoff.NextDelay |

The model follows the code where it departs from comments or tests:

- The session tags are written as `h_*`, while a test expects `$h_*`.
- Caller properties override `time` and `distinct_id`.
- An out-of-memory error or a malformed URL still deletes the batch.
- A successful post clears the failure count but not the stored Retry-After hint.
- The cached previous version is never refreshed after `isNewVersion` answers true.
- The data expiration is read with `getLong`, so an `int` value in the manifest is ignored.
