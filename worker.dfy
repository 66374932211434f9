/**
 * `AnalyticsMessages`: the dispatch worker.  One consumer thread takes
 * ENQUEUE / FLUSH / EMPTY / KILL commands in order, stores events, uploads
 * them in batches and backs off after failures.  Once dead it drops every
 * further command.
 *
 * The looper is a sequential `RunMessage`; the delayed FLUSH message in the
 * handler's queue is the field `pendingFlush` (its delay in milliseconds).
 * The poster, the connectivity check, storage faults, free space and the
 * clock are inputs gathered in `Env`.  `Handle` and `Drain` specify one
 * command and one upload loop over the pure `WorkerState`; the `Worker`
 * class changes its fields and its `Store` in place and is proved to follow
 * them.
 */
module Messages {
  import opened Wrappers
  import Json
  import opened Events
  import opened Config
  import opened EventStore
  import opened Backoff
  import opened JavaInt

  datatype Command = Enqueue(event: EventDescription) | Flush | EmptyQueues | Kill

  /** What `performRequest` did with one upload. */
  datatype PostOutcome =
    | NullResponse                   // returned null
    | Bytes                          // returned a response body
    | Throttled(retryAfterSeconds: int)  // ServiceUnavailableException
    | Timeout                        // SocketTimeoutException
    | IoError                        // any other IOException
    | OutOfMemory                    // OutOfMemoryError
    | MalformedUrl                   // MalformedURLException

  /** The outcomes after which the batch is deleted rather than retried. */
  predicate DeletesBatch(o: PostOutcome) {
    o.Bytes? || o.OutOfMemory? || o.MalformedUrl?
  }

  /** The inputs of one upload loop, indexed by loop round. */
  datatype Io = Io(post: nat -> PostOutcome, readFault: nat -> bool, writeFault: nat -> bool)

  /** The inputs of one command. */
  datatype Env = Env(
    now: int,
    disk: Disk,
    online: bool,
    crash: bool,          // a RuntimeException escapes the command
    expiryFault: bool,    // storage fault while expiring old rows on first use
    writeFault: bool,     // storage fault while writing
    io: Io)

  /** The fixed inputs of a worker: its settings and what the INSTALLATION event carries. */
  datatype Setup = Setup(config: HevoConfig, installation: string, deviceDefaults: Props)

  /** Retry bookkeeping of the handler, and the delayed FLUSH in its queue. */
  datatype Retry = Retry(failedRetries: nat, retryAfter: int, pendingFlush: Option<int>)

  /** The flush statistics `updateFlushFrequency` keeps. */
  datatype Freq = Freq(flushCount: int, aveFlushFrequency: int, lastFlushTime: int)

  datatype WorkerState = WorkerState(dead: bool, adapterOpen: bool, db: DbState, retry: Retry, freq: Freq)

  // ---------------------------------------------------------------------
  // Building the stored event

  /**
   * `prepareEventObject`: `{event, properties}` where the properties are the
   * device defaults (for the INSTALLATION event only), overridden by the
   * event's own properties, plus the session metadata under `$h_metadata`.
   */
  function PrepareEventObject(setup: Setup, ev: EventDescription): (r: Json.Value)
    ensures r.Obj? && r.fields.Keys == {"event", "properties"}
    ensures r.fields["event"] == Json.Str(ev.eventName)
    ensures r.fields["properties"].Obj?
    ensures var p := r.fields["properties"].fields;
            && p.Keys == (if ev.eventName == setup.installation then setup.deviceDefaults.Keys else {})
                         + ev.properties.Keys + {"$h_metadata"}
            && p["$h_metadata"] == Json.Obj(ev.sessionMetadata)
            && (forall k :: k in ev.properties && k != "$h_metadata" ==> p[k] == ev.properties[k])
            && (forall k :: (k in setup.deviceDefaults && k !in ev.properties && k != "$h_metadata"
                             && ev.eventName == setup.installation) ==> p[k] == setup.deviceDefaults[k])
  {
    var defaults := if ev.eventName == setup.installation then setup.deviceDefaults else map[];
    var sendProperties := (defaults + ev.properties)["$h_metadata" := Json.Obj(ev.sessionMetadata)];
    Json.Obj(map["event" := Json.Str(ev.eventName), "properties" := Json.Obj(sendProperties)])
  }

  /** Events other than INSTALLATION carry exactly the caller's keys and the metadata. */
  lemma OrdinaryEventHasNoDefaults(setup: Setup, ev: EventDescription)
    requires ev.eventName != setup.installation
    ensures PrepareEventObject(setup, ev).fields["properties"].fields.Keys == ev.properties.Keys + {"$h_metadata"}
  {
  }

  // ---------------------------------------------------------------------
  // Flush statistics

  /** `updateFlushFrequency`: a running average of the time between flushes. */
  function UpdatedFrequency(f: Freq, now: int): (g: Freq)
    requires f.flushCount >= 0
    ensures g.flushCount == f.flushCount + 1 && g.lastFlushTime == now
    ensures f.lastFlushTime <= 0 ==> g.aveFlushFrequency == f.aveFlushFrequency
  {
    var newCount := f.flushCount + 1;
    if f.lastFlushTime > 0 then
      var total := (now - f.lastFlushTime) + f.aveFlushFrequency * f.flushCount;
      Freq(newCount, TruncDiv(total, newCount), now)
    else
      Freq(newCount, f.aveFlushFrequency, now)
  }

  /** The new average lies between the old average and the latest interval. */
  lemma AverageStaysBetween(f: Freq, now: int)
    requires f.flushCount >= 0 && f.lastFlushTime > 0
    ensures var g := UpdatedFrequency(f, now);
            var interval := now - f.lastFlushTime;
            Min(f.aveFlushFrequency, interval) <= g.aveFlushFrequency <= Max(f.aveFlushFrequency, interval)
  {
    var n := f.flushCount;
    var ave := f.aveFlushFrequency;
    var interval := now - f.lastFlushTime;
    var lo := Min(ave, interval);
    var hi := Max(ave, interval);
    var total := interval + ave * n;
    MulMonotone(lo, ave, n);
    MulMonotone(ave, hi, n);
    assert lo * (n + 1) == lo * n + lo;
    assert hi * (n + 1) == hi * n + hi;
    TruncDivBetween(total, n + 1, lo, hi);
  }

  lemma MulMonotone(a: int, b: int, n: nat)
    requires a <= b
    ensures a * n <= b * n
  {
  }

  /** A quotient truncated toward zero stays within bounds that bracket the dividend. */
  lemma TruncDivBetween(total: int, d: int, lo: int, hi: int)
    requires d > 0 && lo * d <= total <= hi * d
    ensures lo <= TruncDiv(total, d) <= hi
  {
    var q := TruncDiv(total, d);
    assert q * d - d < total < q * d + d;
    assert (q + 1) * d == q * d + d;
    assert (q - 1) * d == q * d - d;
    if q < lo {
      MulMonotone(q + 1, lo, d);
    }
    if q > hi {
      MulMonotone(hi, q - 1, d);
    }
  }

  // ---------------------------------------------------------------------
  // The upload loop

  /**
   * `sendData` from the read of round `k` on: the store and the retry
   * bookkeeping when the loop stops.
   */
  function Drain(t: DbState, r: Retry, withAutomatic: bool, io: Io, k: nat): (res: (DbState, Retry))
    requires WellFormed(t)
    ensures WellFormed(res.0)
    ensures io.readFault(k) ==> res == (t.(fileExists := true), r)
    decreases |t.rows|, 1
  {
    var t1 := t.(fileExists := true);
    Continue(t1, r, ReadBatch(t1.rows, withAutomatic, io.readFault(k)), withAutomatic, io, k)
  }

  /** The loop body of `sendData` for round `k`, given the batch just read. */
  function Continue(t: DbState, r: Retry, b: Option<Batch>, withAutomatic: bool, io: Io, k: nat): (res: (DbState, Retry))
    requires WellFormed(t) && b == ReadBatch(t.rows, withAutomatic, io.readFault(k))
    ensures WellFormed(res.0)
    ensures b.None? || b.value.count <= 0 ==> res == (t, r)
    ensures b.Some? && b.value.count > 0 && !DeletesBatch(io.post(k)) ==> res.0 == t
    decreases |t.rows|, 0
  {
    if b.None? || b.value.count <= 0 then (t, r)
    else
      var r1 := RetryAfterPost(r, io.post(k));
      if DeletesBatch(io.post(k)) then
        var t2 := DeleteUpTo(t, b.value.lastId, withAutomatic, io.writeFault(k));
        BatchDeletionShrinks(t, withAutomatic, io.writeFault(k));
        Drain(t2, r1, withAutomatic, io, k + 1)
      else
        (t, RetryAfterFailure(r1))
  }

  /** The retry bookkeeping right after the post of one round. */
  function RetryAfterPost(r: Retry, o: PostOutcome): (r1: Retry)
    ensures o.Bytes? ==> r1.failedRetries == 0 && r1.retryAfter == r.retryAfter
    ensures o.Bytes? && r.failedRetries > 0 ==> r1.pendingFlush.None?
    ensures o.Bytes? && r.failedRetries == 0 ==> r1 == r
    ensures o.Throttled? ==> r1 == r.(retryAfter := HintMillis(o.retryAfterSeconds))
    ensures !o.Bytes? && !o.Throttled? ==> r1 == r
  {
    if o.Bytes? && r.failedRetries > 0 then r.(failedRetries := 0, pendingFlush := None)
    else if o.Throttled? then r.(retryAfter := HintMillis(o.retryAfterSeconds))
    else r
  }

  /** A failed round: the one delayed FLUSH now waits for the backoff delay. */
  function RetryAfterFailure(r: Retry): (r1: Retry)
    ensures r1.failedRetries == r.failedRetries + 1
    ensures r1.pendingFlush == Some(r1.retryAfter) && r1.retryAfter <= MAX_DELAY
    ensures r1.retryAfter == NextDelay(r.failedRetries, r.retryAfter)
  {
    var delay := NextDelay(r.failedRetries, r.retryAfter);
    Retry(r.failedRetries + 1, delay, Some(delay))
  }

  // The two steps above with the hint and the delay in Java's `int` and
  // `long` arithmetic, as lines 351 and 365 compute them.

  function RetryAfterPostAsWritten(r: Retry, o: PostOutcome): (r1: Retry)
    ensures o.Throttled? ==> r1 == r.(retryAfter := HintMillisAsWritten(o.retryAfterSeconds))
    ensures !o.Throttled? ==> r1 == RetryAfterPost(r, o)
  {
    if o.Throttled? then r.(retryAfter := HintMillisAsWritten(o.retryAfterSeconds))
    else RetryAfterPost(r, o)
  }

  function RetryAfterFailureAsWritten(r: Retry): (r1: Retry)
    ensures r1.failedRetries == r.failedRetries + 1
    ensures r1.pendingFlush == Some(r1.retryAfter) && r1.retryAfter <= MAX_DELAY
    ensures r1.retryAfter == DelayAsWritten(r.failedRetries, r.retryAfter)
  {
    var delay := DelayAsWritten(r.failedRetries, r.retryAfter);
    Retry(r.failedRetries + 1, delay, Some(delay))
  }

  /**
   * The fixed-width steps agree with the exact ones for the first 47
   * failures and for every hint whose milliseconds fit in an `int`.
   */
  lemma RetryAsWrittenAgrees(r: Retry, o: PostOutcome)
    requires r.failedRetries <= 47
    requires o.Throttled? ==> IsInt(o.retryAfterSeconds * 1000)
    ensures RetryAfterPostAsWritten(r, o) == RetryAfterPost(r, o)
    ensures RetryAfterFailureAsWritten(r) == RetryAfterFailure(r)
  {
    DelayAsWrittenAgreesEarly(r.failedRetries, r.retryAfter);
  }

  /** The retry fields after `n` consecutive timed-out posts, in fixed-width arithmetic. */
  function TimeoutsAsWritten(r: Retry, n: nat): (r1: Retry)
    ensures r1.failedRetries == r.failedRetries + n
  {
    if n == 0 then r
    else RetryAfterFailureAsWritten(RetryAfterPostAsWritten(TimeoutsAsWritten(r, n - 1), Timeout))
  }

  /** From the fifth timeout on, a handler that started with no hint waits the ten-minute cap. */
  lemma {:induction false} TimeoutsReachCap(n: nat)
    requires 5 <= n <= 48
    ensures TimeoutsAsWritten(Retry(0, 0, None), n) == Retry(n, MAX_DELAY, Some(MAX_DELAY))
  {
    var r0 := Retry(0, 0, None);
    if n == 5 {
      DelayAsWrittenAgreesEarly(0, 0);
      assert TimeoutsAsWritten(r0, 1) == Retry(1, 60000, Some(60000));
      DelayAsWrittenAgreesEarly(1, 60000);
      assert TimeoutsAsWritten(r0, 2) == Retry(2, 120000, Some(120000));
      DelayAsWrittenAgreesEarly(2, 120000);
      assert TimeoutsAsWritten(r0, 3) == Retry(3, 240000, Some(240000));
      DelayAsWrittenAgreesEarly(3, 240000);
      assert TimeoutsAsWritten(r0, 4) == Retry(4, 480000, Some(480000));
      DelayAsWrittenAgreesEarly(4, 480000);
    } else {
      TimeoutsReachCap(n - 1);
      DelayAsWrittenAgreesEarly(n - 1, MAX_DELAY);
    }
  }

  /**
   * A reachable collapse of the backoff: a handler that starts with no hint
   * and sees 48 timed-out posts in a row waits ten minutes each time from
   * the fifth on.  If the 49th post is then answered by a 503 whose
   * Retry-After is missing, zero or unparsable (a hint of 0 seconds), the
   * `long` product 2^48 * 60000 has wrapped negative and the FLUSH is
   * rescheduled with no delay at all; the exact computation keeps the cap.
   */
  lemma ZeroDelayAfter48Timeouts()
    ensures var r48 := TimeoutsAsWritten(Retry(0, 0, None), 48);
            && r48 == Retry(48, MAX_DELAY, Some(MAX_DELAY))
            && RetryAfterFailureAsWritten(RetryAfterPostAsWritten(r48, Throttled(0))).pendingFlush == Some(0)
            && RetryAfterFailure(RetryAfterPost(r48, Throttled(0))).pendingFlush == Some(MAX_DELAY)
  {
    TimeoutsReachCap(48);
    DelayWrapsAt48();
  }

  /** The loop stops when the read yields no batch. */
  lemma DrainStops(t: DbState, r: Retry, withAutomatic: bool, io: Io, k: nat)
    requires WellFormed(t) && ReadBatch(t.rows, withAutomatic, io.readFault(k)).None?
    ensures Drain(t, r, withAutomatic, io, k) == (t.(fileExists := true), r)
  {
  }

  /** One round that deletes its batch hands over to the next read. */
  lemma ContinueAfterDelete(t: DbState, r: Retry, b: Option<Batch>, withAutomatic: bool, io: Io, k: nat)
    requires WellFormed(t) && b == ReadBatch(t.rows, withAutomatic, io.readFault(k))
    requires b.Some? && b.value.count > 0 && DeletesBatch(io.post(k))
    ensures Continue(t, r, b, withAutomatic, io, k)
         == Drain(DeleteUpTo(t, b.value.lastId, withAutomatic, io.writeFault(k)),
                  RetryAfterPost(r, io.post(k)), withAutomatic, io, k + 1)
  {
  }

  /** The loop stops when the read yields no batch or an empty count. */
  lemma ContinueStops(t: DbState, r: Retry, b: Option<Batch>, withAutomatic: bool, io: Io, k: nat)
    requires WellFormed(t) && b == ReadBatch(t.rows, withAutomatic, io.readFault(k))
    requires b.None? || b.value.count <= 0
    ensures Continue(t, r, b, withAutomatic, io, k) == (t, r)
  {
  }

  /** A round whose post fails keeps the store and ends the loop with the backoff. */
  lemma ContinueAfterFailure(t: DbState, r: Retry, b: Option<Batch>, withAutomatic: bool, io: Io, k: nat)
    requires WellFormed(t) && b == ReadBatch(t.rows, withAutomatic, io.readFault(k))
    requires b.Some? && b.value.count > 0 && !DeletesBatch(io.post(k))
    ensures Continue(t, r, b, withAutomatic, io, k) == (t, RetryAfterFailure(RetryAfterPost(r, io.post(k))))
  {
  }

  /** Each round starts with a read that marks the database file as present. */
  lemma DrainReads(t: DbState, r: Retry, withAutomatic: bool, io: Io, k: nat)
    requires WellFormed(t)
    ensures Drain(t, r, withAutomatic, io, k)
         == Continue(t.(fileExists := true), r, ReadBatch(t.rows, withAutomatic, io.readFault(k)), withAutomatic, io, k)
  {
  }

  /** `sendAllData`: nothing happens offline or without an endpoint. */
  function SendAll(setup: Setup, s: WorkerState, env: Env): (u: WorkerState)
    requires WellFormed(s.db)
    ensures WellFormed(u.db)
    ensures !env.online || setup.config.eventsEndpoint.None? ==> u == s
  {
    if !env.online || setup.config.eventsEndpoint.None? then s
    else
      var (db, retry) := Drain(s.db, s.retry, setup.config.captureAutomaticEvents, env.io, 0);
      s.(db := db, retry := retry)
  }

  /** A flush: update the statistics, then upload. */
  function FlushNow(setup: Setup, s: WorkerState, env: Env): (u: WorkerState)
    requires WellFormed(s.db) && s.freq.flushCount >= 0
    ensures WellFormed(u.db) && u.freq.flushCount >= 0
    ensures u.freq == UpdatedFrequency(s.freq, env.now)
    ensures u.dead == s.dead && u.adapterOpen == s.adapterOpen
  {
    SendAll(setup, s.(freq := UpdatedFrequency(s.freq, env.now)), env)
  }

  /** The flush decision taken after every command, from the command's return code. */
  function AfterCommand(setup: Setup, s: WorkerState, returnCode: int, env: Env): (u: WorkerState)
    requires WellFormed(s.db) && s.freq.flushCount >= 0
    ensures WellFormed(u.db) && u.freq.flushCount >= 0
    ensures u.dead == s.dead && u.adapterOpen == s.adapterOpen
    ensures returnCode <= 0 && returnCode != DB_OUT_OF_MEMORY_ERROR && returnCode < setup.config.bulkUploadLimit ==> u == s
  {
    if (returnCode >= setup.config.bulkUploadLimit || returnCode == DB_OUT_OF_MEMORY_ERROR)
       && s.retry.failedRetries <= 0 then
      FlushNow(setup, s, env)
    else if returnCode > 0 && s.retry.pendingFlush.None? && setup.config.flushInterval >= 0 then
      s.(retry := s.retry.(pendingFlush := Some(setup.config.flushInterval)))
    else s
  }

  /** The first use of the database deletes the events older than the expiration. */
  function Opened(setup: Setup, s: WorkerState, env: Env): (u: WorkerState)
    requires WellFormed(s.db)
    ensures WellFormed(u.db) && u.adapterOpen
    ensures s.adapterOpen ==> u == s
  {
    if s.adapterOpen then s
    else s.(adapterOpen := true, db := DeleteOlder(s.db, env.now - setup.config.dataExpiration, env.expiryFault))
  }

  /** The command itself, on an opened database, followed by the flush decision. */
  function Dispatched(setup: Setup, s: WorkerState, cmd: Command, env: Env): (u: WorkerState)
    requires WellFormed(s.db) && s.freq.flushCount >= 0
    ensures WellFormed(u.db) && u.freq.flushCount >= 0
    ensures u.dead <==> s.dead || cmd.Kill?
    ensures u.adapterOpen == s.adapterOpen
  {
    match cmd
    case Enqueue(ev) =>
      if !setup.config.captureAutomaticEvents then s
      else
        var (db2, code) := Add(s.db, PrepareEventObject(setup, ev), ev.isAutomatic, env.now, env.disk,
                               setup.config.minimumDatabaseLimit, env.writeFault);
        AfterCommand(setup, s.(db := db2), code, env)
    case Flush =>
      AfterCommand(setup, FlushNow(setup, s, env), DB_UNDEFINED_CODE, env)
    case EmptyQueues =>
      AfterCommand(setup, s.(db := DeleteAll(s.db, env.writeFault)), DB_UNDEFINED_CODE, env)
    case Kill =>
      AfterCommand(setup, s.(dead := true, db := Deleted, retry := s.retry.(pendingFlush := None)),
                   DB_UNDEFINED_CODE, env)
  }

  /**
   * `handleMessage` for a live worker: open the database, then either the
   * uncaught exception, which drops the handler and the pending flush, or
   * the command.
   */
  function HandleLive(setup: Setup, s: WorkerState, cmd: Command, env: Env): (u: WorkerState)
    requires WellFormed(s.db) && s.freq.flushCount >= 0
    ensures WellFormed(u.db) && u.freq.flushCount >= 0
    ensures u.adapterOpen
    ensures u.dead <==> s.dead || env.crash || cmd.Kill?
    ensures env.crash ==> u.db == Opened(setup, s, env).db && u.retry.pendingFlush.None?
  {
    var s1 := Opened(setup, s, env);
    if env.crash then s1.(dead := true, retry := s1.retry.(pendingFlush := None))
    else Dispatched(setup, s1, cmd, env)
  }

  /** `runMessage`: a dead worker drops the command. */
  function Handle(setup: Setup, s: WorkerState, cmd: Command, env: Env): (u: WorkerState)
    requires WellFormed(s.db) && s.freq.flushCount >= 0
    ensures WellFormed(u.db) && u.freq.flushCount >= 0
    ensures s.dead ==> u == s
  {
    if s.dead then s else HandleLive(setup, s, cmd, env)
  }

  /** KILL deletes the database and ends the worker. */
  lemma KillEndsWorker(setup: Setup, s: WorkerState, env: Env)
    requires WellFormed(s.db) && s.freq.flushCount >= 0 && !s.dead && !env.crash
    ensures Handle(setup, s, Kill, env).dead && Handle(setup, s, Kill, env).db.rows == []
  {
  }

  /** Every other command leaves a live worker live. */
  lemma OtherCommandsKeepWorker(setup: Setup, s: WorkerState, cmd: Command, env: Env)
    requires WellFormed(s.db) && s.freq.flushCount >= 0 && !s.dead && !env.crash && !cmd.Kill?
    ensures !Handle(setup, s, cmd, env).dead
  {
  }

  /** An uncaught exception after the first use ends the worker and leaves the rows as they are. */
  lemma CrashKeepsStore(setup: Setup, s: WorkerState, cmd: Command, env: Env)
    requires WellFormed(s.db) && s.freq.flushCount >= 0 && !s.dead && env.crash && s.adapterOpen
    ensures Handle(setup, s, cmd, env).dead && Handle(setup, s, cmd, env).db == s.db
  {
  }

  // ---------------------------------------------------------------------
  // Properties of the specification

  /** Whatever the commands, a dead worker stays dead and unchanged. */
  lemma {:induction false} DeadStaysDead(setup: Setup, s: WorkerState, cmds: seq<Command>, envs: seq<Env>)
    requires WellFormed(s.db) && s.freq.flushCount >= 0 && s.dead && |envs| == |cmds|
    ensures Run(setup, s, cmds, envs) == s
  {
    if cmds != [] {
      DeadStaysDead(setup, s, cmds[1..], envs[1..]);
    }
  }

  /** The worker after a sequence of commands. */
  function Run(setup: Setup, s: WorkerState, cmds: seq<Command>, envs: seq<Env>): (u: WorkerState)
    requires WellFormed(s.db) && s.freq.flushCount >= 0 && |envs| == |cmds|
    ensures WellFormed(u.db) && u.freq.flushCount >= 0
    ensures s.dead ==> u.dead
    decreases |cmds|
  {
    if cmds == [] then s else Run(setup, Handle(setup, s, cmds[0], envs[0]), cmds[1..], envs[1..])
  }

  /** With capture switched off, ENQUEUE stores nothing and schedules nothing. */
  lemma EnqueueWithoutCapture(setup: Setup, s: WorkerState, ev: EventDescription, env: Env)
    requires WellFormed(s.db) && s.freq.flushCount >= 0 && s.adapterOpen && !s.dead && !env.crash
    requires !setup.config.captureAutomaticEvents
    ensures Handle(setup, s, Enqueue(ev), env) == s
  {
  }

  /**
   * The flush trigger after an ENQUEUE: an immediate flush iff the count
   * reached the bulk limit or the disk is full, and no retry is pending;
   * otherwise a delayed flush is scheduled iff rows were stored, none is
   * pending and the interval is not negative.
   */
  lemma AfterCommandTrigger(setup: Setup, s: WorkerState, returnCode: int, env: Env)
    requires WellFormed(s.db) && s.freq.flushCount >= 0
    ensures var u := AfterCommand(setup, s, returnCode, env);
            var immediate := (returnCode >= setup.config.bulkUploadLimit || returnCode == DB_OUT_OF_MEMORY_ERROR)
                             && s.retry.failedRetries == 0;
            && (immediate ==> u == FlushNow(setup, s, env))
            && (!immediate ==> u.db == s.db && u.freq == s.freq)
            && (!immediate ==> (u.retry.pendingFlush != s.retry.pendingFlush
                               <==> returnCode > 0 && s.retry.pendingFlush.None? && setup.config.flushInterval >= 0))
  {
  }

  /** Offline, or without an endpoint, a flush reads and posts nothing. */
  lemma OfflineFlushTouchesNothing(setup: Setup, s: WorkerState, env: Env)
    requires WellFormed(s.db) && s.freq.flushCount >= 0
    requires !env.online || setup.config.eventsEndpoint.None?
    ensures FlushNow(setup, s, env).db == s.db
    ensures FlushNow(setup, s, env).retry == s.retry
  {
  }

  /**
   * A failed post keeps the batch, and reschedules exactly one FLUSH at the
   * backoff delay, which is at most ten minutes; the failure count grows by one.
   */
  lemma FailedPostBacksOff(t: DbState, r: Retry, withAutomatic: bool, io: Io)
    requires WellFormed(t) && t.fileExists
    requires ReadBatch(t.rows, withAutomatic, io.readFault(0)).Some?
    requires !DeletesBatch(io.post(0))
    ensures var (u, r2) := Drain(t, r, withAutomatic, io, 0);
            var hint := if io.post(0).Throttled? then HintMillis(io.post(0).retryAfterSeconds) else r.retryAfter;
            && u == t
            && r2.failedRetries == r.failedRetries + 1
            && r2.pendingFlush == Some(NextDelay(r.failedRetries, hint))
            && r2.retryAfter == NextDelay(r.failedRetries, hint) <= MAX_DELAY
  {
    assert t.(fileExists := true) == t;
  }

  /** The upload loop never adds a row. */
  lemma {:induction false} DrainOnlyDeletes(t: DbState, r: Retry, withAutomatic: bool, io: Io, k: nat)
    requires WellFormed(t)
    ensures forall x :: x in Drain(t, r, withAutomatic, io, k).0.rows ==> x in t.rows
    decreases |t.rows|
  {
    var t1 := t.(fileExists := true);
    var b := ReadBatch(t1.rows, withAutomatic, io.readFault(k));
    DrainReads(t, r, withAutomatic, io, k);
    if b.None? || b.value.count <= 0 {
      ContinueStops(t1, r, b, withAutomatic, io, k);
    } else if !DeletesBatch(io.post(k)) {
      ContinueAfterFailure(t1, r, b, withAutomatic, io, k);
    } else {
      var t2 := DeleteUpTo(t1, b.value.lastId, withAutomatic, io.writeFault(k));
      var r2 := RetryAfterPost(r, io.post(k));
      assert |t2.rows| < |t.rows| by {
        assert b == ReadBatch(t1.rows, withAutomatic, false);
        BatchDeletionShrinks(t1, withAutomatic, io.writeFault(k));
      }
      assert forall x :: x in t2.rows ==> x in t.rows by {
        DeleteShrinks(t1, AfterWatermark(b.value.lastId, withAutomatic), io.writeFault(k));
      }
      ContinueAfterDelete(t1, r, b, withAutomatic, io, k);
      DrainOnlyDeletes(t2, r2, withAutomatic, io, k + 1);
    }
  }

  /**
   * When every read succeeds and every post is accepted, the loop stops only
   * once no readable batch is left, and any failure count is cleared.
   */
  lemma {:induction false} DrainEmptiesQueue(t: DbState, r: Retry, withAutomatic: bool, io: Io, k: nat)
    requires WellFormed(t)
    requires AllAccepted(io)
    ensures ReadBatch(Drain(t, r, withAutomatic, io, k).0.rows, withAutomatic, false).None?
    ensures Drain(t, r, withAutomatic, io, k).1.failedRetries
            == if ReadBatch(t.rows, withAutomatic, false).Some? then 0 else r.failedRetries
    decreases |t.rows|
  {
    var t1 := t.(fileExists := true);
    var b := ReadBatch(t.rows, withAutomatic, false);
    if b.Some? {
      var t2 := DeleteUpTo(t1, b.value.lastId, withAutomatic, io.writeFault(k));
      var r2 := RetryAfterPost(r, io.post(k));
      assert |t2.rows| < |t.rows| && Drain(t, r, withAutomatic, io, k) == Drain(t2, r2, withAutomatic, io, k + 1)
             && r2.failedRetries == 0 by {
        assert !io.readFault(k) && io.post(k).Bytes?;
        BatchDeletionShrinks(t1, withAutomatic, io.writeFault(k));
        ContinueAfterDelete(t1, r, b, withAutomatic, io, k);
      }
      DrainEmptiesQueue(t2, r2, withAutomatic, io, k + 1);
    } else {
      assert !io.readFault(k);
      DrainStops(t, r, withAutomatic, io, k);
    }
  }

  /** Every read of the loop succeeds and every post returns a response. */
  ghost predicate AllAccepted(io: Io) {
    forall j :: !io.readFault(j) && io.post(j).Bytes?
  }

  // ---------------------------------------------------------------------
  // The worker

  class Worker {
    const setup: Setup
    const store: Store
    var dead: bool
    var adapterOpen: bool
    var failedRetries: nat
    var retryAfter: int
    var pendingFlush: Option<int>
    var flushCount: int
    var aveFlushFrequency: int
    var lastFlushTime: int

    function Snapshot(): WorkerState
      reads this, store
    {
      WorkerState(dead, adapterOpen, store.State(), RetryState(),
                  Freq(flushCount, aveFlushFrequency, lastFlushTime))
    }

    function RetryState(): Retry
      reads this
    {
      Retry(failedRetries, retryAfter, pendingFlush)
    }

    ghost predicate Valid()
      reads this, store
    {
      store.Valid() && flushCount >= 0 && store.minimumDatabaseLimit == setup.config.minimumDatabaseLimit
    }

    /** A live worker over `store` that has not opened it yet. */
    constructor (setup: Setup, store: Store)
      requires store.Valid() && store.minimumDatabaseLimit == setup.config.minimumDatabaseLimit
      ensures Valid() && this.setup == setup && this.store == store
      ensures Snapshot() == WorkerState(false, false, old(store.State()), Retry(0, 0, None), Freq(0, 0, -1))
    {
      this.setup := setup;
      this.store := store;
      dead, adapterOpen := false, false;
      failedRetries, retryAfter, pendingFlush := 0, 0, None;
      flushCount, aveFlushFrequency, lastFlushTime := 0, 0, -1;
    }

    /** `isDead`: the handler has been dropped. */
    function IsDead(): (d: bool)
      reads this
    {
      dead
    }

    /** `runMessage`. */
    method RunMessage(cmd: Command, env: Env)
      requires Valid()
      modifies this, store
      ensures Valid()
      ensures Snapshot() == Handle(setup, old(Snapshot()), cmd, env)
    {
      if !dead {
        HandleMessage(cmd, env);
      }
    }

    /** The delayed FLUSH leaves the queue and is handled. */
    method FireScheduledFlush(env: Env)
      requires Valid() && pendingFlush.Some?
      modifies this, store
      ensures Valid()
      ensures Snapshot() == Handle(setup, old(Snapshot()).(retry := old(Snapshot()).retry.(pendingFlush := None)), Flush, env)
    {
      pendingFlush := None;
      RunMessage(Flush, env);
    }

    /** `handleMessage` on a live worker. */
    method HandleMessage(cmd: Command, env: Env)
      requires Valid() && !dead
      modifies this, store
      ensures Valid()
      ensures Snapshot() == HandleLive(setup, old(Snapshot()), cmd, env)
    {
      OpenAdapter(env);
      if env.crash {
        dead := true;
        pendingFlush := None;
        return;
      }
      Dispatch(cmd, env);
    }

    /** The first-use cleanup at the top of `handleMessage`. */
    method OpenAdapter(env: Env)
      requires Valid()
      modifies this, store
      ensures Valid()
      ensures Snapshot() == Opened(setup, old(Snapshot()), env)
    {
      if !adapterOpen {
        adapterOpen := true;
        store.CleanupOlderThan(env.now - setup.config.dataExpiration, env.expiryFault);
      }
    }

    /** The command's branch of `handleMessage`, then the flush decision. */
    method Dispatch(cmd: Command, env: Env)
      requires Valid()
      modifies this, store
      ensures Valid()
      ensures Snapshot() == Dispatched(setup, old(Snapshot()), cmd, env)
    {
      var returnCode := DB_UNDEFINED_CODE;
      match cmd {
        case Enqueue(ev) =>
          if !setup.config.captureAutomaticEvents {
            return;
          }
          var message := PrepareEventObject(setup, ev);
          returnCode := store.AddJSON(message, ev.isAutomatic, env.now, env.disk, env.writeFault);
        case Flush =>
          UpdateFlushFrequency(env.now);
          SendAllData(env);
        case EmptyQueues =>
          store.CleanupAll(env.writeFault);
        case Kill =>
          store.DeleteDB();
          dead := true;
          pendingFlush := None;
      }
      FlushTrigger(returnCode, env);
    }

    /** The flush decision at the end of `handleMessage`. */
    method FlushTrigger(returnCode: int, env: Env)
      requires Valid()
      modifies this, store
      ensures Valid()
      ensures Snapshot() == AfterCommand(setup, old(Snapshot()), returnCode, env)
    {
      if (returnCode >= setup.config.bulkUploadLimit || returnCode == DB_OUT_OF_MEMORY_ERROR)
         && failedRetries <= 0 {
        UpdateFlushFrequency(env.now);
        SendAllData(env);
      } else if returnCode > 0 && pendingFlush.None? {
        if setup.config.flushInterval >= 0 {
          pendingFlush := Some(setup.config.flushInterval);
        }
      }
    }

    method UpdateFlushFrequency(now: int)
      requires Valid()
      modifies this
      ensures Valid()
      ensures Snapshot() == old(Snapshot()).(freq := UpdatedFrequency(old(Snapshot()).freq, now))
    {
      var newFlushCount := flushCount + 1;
      if lastFlushTime > 0 {
        var interval := now - lastFlushTime;
        var totalFlushTime := interval + aveFlushFrequency * flushCount;
        aveFlushFrequency := TruncDiv(totalFlushTime, newFlushCount);
      }
      lastFlushTime := now;
      flushCount := newFlushCount;
    }

    method SendAllData(env: Env)
      requires Valid()
      modifies this, store
      ensures Valid()
      ensures Snapshot() == SendAll(setup, old(Snapshot()), env)
    {
      if !env.online || setup.config.eventsEndpoint.None? {
        return;
      }
      SendData(env.io);
    }

    /** The upload loop: read a batch, post it, delete it or back off; repeat. */
    method SendData(io: Io)
      requires Valid()
      modifies this, store
      ensures Valid()
      ensures var (db, retry) := Drain(old(store.State()), old(RetryState()), setup.config.captureAutomaticEvents, io, 0);
              Snapshot() == old(Snapshot()).(db := db, retry := retry)
    {
      var withAutomatic := setup.config.captureAutomaticEvents;
      var k: nat := 0;
      ghost var goal := Drain(store.State(), RetryState(), withAutomatic, io, 0);
      DrainReads(store.State(), RetryState(), withAutomatic, io, 0);
      var eventsData := store.GenerateDataString(withAutomatic, io.readFault(k));
      var queueCount := if eventsData.Some? then eventsData.value.count else 0;
      var more := true;
      while eventsData.Some? && queueCount > 0
        invariant Valid() && store.State().fileExists
        invariant eventsData == ReadBatch(store.rows, withAutomatic, io.readFault(k))
        invariant eventsData.Some? ==> queueCount == eventsData.value.count
        invariant Continue(store.State(), RetryState(), eventsData, withAutomatic, io, k) == goal
        invariant Snapshot() == old(Snapshot()).(db := store.State(), retry := RetryState())
        decreases |store.rows|
      {
        more, eventsData := Round(io, k, eventsData.value);
        if !more {
          break;
        }
        k := k + 1;
        if eventsData.Some? {
          queueCount := eventsData.value.count;
        }
      }
      if more {
        ContinueStops(store.State(), RetryState(), eventsData, withAutomatic, io, k);
      }
    }

    /**
     * One round of the loop on the batch just read: post it, then either
     * delete it and read the next batch (`more`), or back off and stop.
     * Either way the store and the retry fields advance as `Continue`
     * prescribes.
     */
    method Round(io: Io, k: nat, batch: Batch) returns (more: bool, next: Option<Batch>)
      requires Valid() && store.State().fileExists
      requires Some(batch) == ReadBatch(store.rows, setup.config.captureAutomaticEvents, io.readFault(k))
      requires batch.count > 0
      modifies this, store
      ensures Valid()
      ensures Snapshot() == old(Snapshot()).(db := store.State(), retry := RetryState())
      ensures more ==> store.State().fileExists && |store.rows| < old(|store.rows|)
      ensures more ==> next == ReadBatch(store.rows, setup.config.captureAutomaticEvents, io.readFault(k + 1))
      ensures more ==> old(Continue(store.State(), RetryState(), Some(batch), setup.config.captureAutomaticEvents, io, k))
                       == Continue(store.State(), RetryState(), next, setup.config.captureAutomaticEvents, io, k + 1)
      ensures !more ==> old(Continue(store.State(), RetryState(), Some(batch), setup.config.captureAutomaticEvents, io, k))
                        == (store.State(), RetryState())
    {
      var withAutomatic := setup.config.captureAutomaticEvents;
      ghost var t := store.State();
      ghost var r := RetryState();
      more := PostBatch(io.post(k));
      if !more {
        ContinueAfterFailure(t, r, Some(batch), withAutomatic, io, k);
        BackOff();
        return more, None;
      }
      ContinueAfterDelete(t, r, Some(batch), withAutomatic, io, k);
      next := DeleteAndReadNext(io, k, batch, RetryState());
    }

    /** The delete after an accepted post, then the read that starts round `k + 1`. */
    method DeleteAndReadNext(io: Io, k: nat, batch: Batch, ghost r: Retry) returns (next: Option<Batch>)
      requires Valid() && store.State().fileExists
      requires Some(batch) == ReadBatch(store.rows, setup.config.captureAutomaticEvents, io.readFault(k))
      modifies store
      ensures Valid() && store.State().fileExists && |store.rows| < old(|store.rows|)
      ensures next == ReadBatch(store.rows, setup.config.captureAutomaticEvents, io.readFault(k + 1))
      ensures Drain(DeleteUpTo(old(store.State()), batch.lastId, setup.config.captureAutomaticEvents, io.writeFault(k)),
                    r, setup.config.captureAutomaticEvents, io, k + 1)
              == Continue(store.State(), r, next, setup.config.captureAutomaticEvents, io, k + 1)
    {
      var withAutomatic := setup.config.captureAutomaticEvents;
      BatchDeletionShrinks(store.State(), withAutomatic, io.writeFault(k));
      store.CleanupUpTo(batch.lastId, withAutomatic, io.writeFault(k));
      DrainReads(store.State(), r, withAutomatic, io, k + 1);
      next := store.GenerateDataString(withAutomatic, io.readFault(k + 1));
    }

    /** The `try` around `performRequest`: whether the batch is to be deleted. */
    method PostBatch(o: PostOutcome) returns (deleteEvents: bool)
      requires Valid()
      modifies this
      ensures Valid()
      ensures deleteEvents == DeletesBatch(o)
      ensures Snapshot() == old(Snapshot()).(retry := RetryAfterPost(old(Snapshot()).retry, o))
    {
      deleteEvents := true;
      match o {
        case NullResponse =>
          deleteEvents := false;
        case Bytes =>
          if failedRetries > 0 {
            failedRetries := 0;
            pendingFlush := None;
          }
        case OutOfMemory =>
        case MalformedUrl =>
        case Throttled(seconds) =>
          deleteEvents := false;
          retryAfter := HintMillis(seconds);
        case Timeout =>
          deleteEvents := false;
        case IoError =>
          deleteEvents := false;
      }
    }

    /** The failure branch: replace the delayed FLUSH by one after the backoff delay. */
    method BackOff()
      requires Valid()
      modifies this
      ensures Valid()
      ensures Snapshot() == old(Snapshot()).(retry := RetryAfterFailure(old(Snapshot()).retry))
    {
      pendingFlush := None;
      retryAfter := NextDelay(failedRetries, retryAfter);
      pendingFlush := Some(retryAfter);
      failedRetries := failedRetries + 1;
    }
  }
}
