/**
 * `HevoAPI`: the public entry points.  `track` builds an event's properties
 * in fixed layers and hands the event to the dispatch worker; `identify`,
 * `alias`, `timeEvent` and the opt-out switches guard and update the
 * persistent identity.  The messages sent to the worker are the sequence
 * `outbox`; the clock and UUID generation are parameters.
 */
module Api {
  import opened Wrappers
  import Json
  import opened Events
  import opened Config
  import opened JavaInt
  import RemoteService
  import Messages
  import Identity
  import Session

  const OPT_IN := "$opt_in"
  const APP_OPEN := "$app_open"
  const TIME := "time"
  const DISTINCT_ID := "distinct_id"
  const DURATION := "$duration"

  // ---------------------------------------------------------------------
  // The property layers of `track`

  /** Referrer properties as JSON strings. */
  function ReferrerProps(referrer: map<string, string>): (p: Props)
    ensures p.Keys == referrer.Keys
    ensures forall k :: k in referrer ==> p[k] == Json.Str(referrer[k])
  {
    map k | k in referrer :: Json.Str(referrer[k])
  }

  /** The caller's properties that `isNull` does not reject: present and not JSON null. */
  function NonNull(caller: Option<Props>): (r: Props)
    ensures forall k :: k in r <==> caller.Some? && k in caller.value && caller.value[k] != Json.Null
    ensures forall k :: k in r ==> r[k] == caller.value[k]
  {
    if caller.None? then map[] else map k | k in caller.value && caller.value[k] != Json.Null :: caller.value[k]
  }

  /** The fields `track` itself sets: `time`, `distinct_id` and, for a timed event, `$duration`. */
  function Forced(time: int, distinctId: string, duration: Option<int>): (f: Props)
    ensures f.Keys == {TIME, DISTINCT_ID} + (if duration.Some? then {DURATION} else {})
    ensures f[TIME] == Json.Num(time) && f[DISTINCT_ID] == Json.Str(distinctId)
    ensures duration.Some? ==> f[DURATION] == Json.Frac(duration.value)
  {
    var f := map[TIME := Json.Num(time), DISTINCT_ID := Json.Str(distinctId)];
    if duration.Some? then f[DURATION := Json.Frac(duration.value)] else f
  }

  /**
   * The properties `track` sends, in four layers, each overriding the ones
   * before it: referrer properties, super-properties (only when
   * `withSuper`), the forced fields (`$duration` in thousandths of a
   * second), the caller's non-null properties.
   */
  function MergedProperties(referrer: map<string, string>, superProps: Props, withSuper: bool, time: int,
                            distinctId: string, duration: Option<int>, caller: Option<Props>): (p: Props)
    ensures forall k :: k in p <==>
      (k in referrer || (withSuper && k in superProps) || k in Forced(time, distinctId, duration) || k in NonNull(caller))
    ensures forall k :: k in NonNull(caller) ==> p[k] == caller.value[k]
    ensures forall k :: k in Forced(time, distinctId, duration) && k !in NonNull(caller) ==>
      p[k] == Forced(time, distinctId, duration)[k]
    ensures forall k :: (withSuper && k in superProps && k !in Forced(time, distinctId, duration)
                         && k !in NonNull(caller)) ==> p[k] == superProps[k]
    ensures forall k :: (k in referrer && !(withSuper && k in superProps) && k !in Forced(time, distinctId, duration)
                         && k !in NonNull(caller)) ==> p[k] == Json.Str(referrer[k])
  {
    ReferrerProps(referrer) + (if withSuper then superProps else map[]) + Forced(time, distinctId, duration)
    + NonNull(caller)
  }

  /** Caller properties override the fields the library sets, `time` and `distinct_id` included. */
  lemma CallerOverridesForcedFields(referrer: map<string, string>, superProps: Props, withSuper: bool,
                                    time: int, distinctId: string, duration: Option<int>, caller: Props,
                                    t: Json.Value, d: Json.Value)
    requires TIME in caller && caller[TIME] == t && t != Json.Null
    requires DISTINCT_ID in caller && caller[DISTINCT_ID] == d && d != Json.Null
    ensures var p := MergedProperties(referrer, superProps, withSuper, time, distinctId, duration, Some(caller));
            TIME in p && p[TIME] == t && DISTINCT_ID in p && p[DISTINCT_ID] == d
  {
  }

  /** A caller's null value is dropped: the key then holds whatever the earlier layers put there. */
  lemma NullCallerValueDropped(referrer: map<string, string>, superProps: Props, time: int,
                               distinctId: string, caller: Props, k: string)
    requires k in caller && caller[k] == Json.Null
    requires k !in referrer && k !in superProps && k != TIME && k != DISTINCT_ID && k != DURATION
    ensures k !in MergedProperties(referrer, superProps, true, time, distinctId, None, Some(caller))
  {
  }

  /** Super-properties and referrer values never displace `time` and `distinct_id`. */
  lemma ForcedFieldsBeatSuperProperties(referrer: map<string, string>, superProps: Props, time: int,
                                        distinctId: string, duration: Option<int>, caller: Option<Props>)
    requires TIME !in NonNull(caller) && DISTINCT_ID !in NonNull(caller)
    ensures var p := MergedProperties(referrer, superProps, true, time, distinctId, duration, caller);
            TIME in p && p[TIME] == Json.Num(time) && DISTINCT_ID in p && p[DISTINCT_ID] == Json.Str(distinctId)
  {
  }

  /** `$duration` is present exactly when the event was timed or the caller supplied one. */
  lemma DurationPresence(referrer: map<string, string>, superProps: Props, withSuper: bool, time: int,
                         distinctId: string, duration: Option<int>, caller: Option<Props>)
    requires DURATION !in referrer && !(withSuper && DURATION in superProps)
    ensures DURATION in MergedProperties(referrer, superProps, withSuper, time, distinctId, duration, caller)
            <==> duration.Some? || DURATION in NonNull(caller)
  {
  }

  // ---------------------------------------------------------------------
  // The copying loops of `track`

  /** The referrer loop: every referrer entry is put as a string. */
  method PutReferrer(target: Props, referrer: map<string, string>) returns (r: Props)
    ensures r == target + ReferrerProps(referrer)
  {
    r := target;
    var todo := referrer.Keys;
    while todo != {}
      invariant todo <= referrer.Keys
      invariant forall k :: k in r <==> k in target || (k in referrer && k !in todo)
      invariant forall k :: k in referrer && k !in todo ==> r[k] == Json.Str(referrer[k])
      invariant forall k :: k in target && (k !in referrer || k in todo) ==> r[k] == target[k]
      decreases todo
    {
      var k :| k in todo;
      r := r[k := Json.Str(referrer[k])];
      todo := todo - {k};
    }
  }

  /** The caller loop: only keys `isNull` rejects are skipped. */
  method PutNonNull(target: Props, caller: Props) returns (r: Props)
    ensures r == target + NonNull(Some(caller))
  {
    r := target;
    var todo := caller.Keys;
    while todo != {}
      invariant todo <= caller.Keys
      invariant forall k :: k in r <==> k in target || (k in caller && k !in todo && caller[k] != Json.Null)
      invariant forall k :: k in caller && k !in todo && caller[k] != Json.Null ==> r[k] == caller[k]
      invariant forall k :: k in target && (k !in caller || k in todo || caller[k] == Json.Null) ==> r[k] == target[k]
      decreases todo
    {
      var k :| k in todo;
      if caller[k] != Json.Null {
        r := r[k := caller[k]];
      }
      todo := todo - {k};
    }
  }

  /** The end of the run of characters up to U+0020 that starts at `i`. */
  function BlanksFrom(s: string, i: nat): (j: nat)
    requires i <= |s|
    ensures i <= j <= |s|
    ensures forall k :: i <= k < j ==> s[k] <= ' '
    ensures j < |s| ==> s[j] > ' '
    decreases |s| - i
  {
    if i < |s| && s[i] <= ' ' then BlanksFrom(s, i + 1) else i
  }

  /** The start of the run of characters up to U+0020 that ends before `j`. */
  function BlanksBefore(s: string, j: nat): (i: nat)
    requires j <= |s|
    ensures i <= j
    ensures forall k :: i <= k < j ==> s[k] <= ' '
    ensures i > 0 ==> s[i - 1] > ' '
  {
    if j > 0 && s[j - 1] <= ' ' then BlanksBefore(s, j - 1) else j
  }

  /** Java's `String.trim`: leading and trailing characters up to U+0020 removed. */
  function Trim(s: string): (t: string)
    ensures |t| <= |s|
    ensures t == [] <==> forall i :: 0 <= i < |s| ==> s[i] <= ' '
    ensures t != [] ==> t[0] > ' ' && t[|t| - 1] > ' '
    ensures |s| > 0 && s[0] > ' ' && s[|s| - 1] > ' ' ==> t == s
    ensures exists i, j :: 0 <= i <= j <= |s| && t == s[i..j]
                           && (forall k :: 0 <= k < i ==> s[k] <= ' ')
                           && (forall k :: j <= k < |s| ==> s[k] <= ' ')
  {
    var i := BlanksFrom(s, 0);
    if i == |s| then
      assert s[|s|..|s|] == [];
      []
    else
      s[i..BlanksBefore(s, |s|)]
  }

  // ---------------------------------------------------------------------
  // The instance

  /** What storage holds when an instance is created. */
  datatype Stored = Stored(superProperties: Option<Props>, referrer: map<string, string>,
                           timings: map<string, int>, distinctId: Option<string>, optOut: Option<bool>,
                           versionCode: int, hasLaunched: bool)

  /** The inputs of the constructor. */
  datatype Launch = Launch(config: HevoConfig, reserved: ReservedEvents, stored: Stored, now: int,
                           sessionId: string, random: nat -> string, dbExists: bool,
                           appVersionCode: Option<int>, appVersionName: Option<string>, optOutDefault: bool,
                           uuid: string)

  lemma PlusEmpty(m: Props)
    ensures m + map[] == m && map[] + m == m
  {
  }

  /** The three `put`s of `track` lay the forced fields over what is there. */
  lemma PutsAreForced(m: Props, time: int, distinctId: string, duration: Option<int>)
    ensures var p := m[TIME := Json.Num(time)][DISTINCT_ID := Json.Str(distinctId)];
            (if duration.Some? then p[DURATION := Json.Frac(duration.value)] else p)
            == m + Forced(time, distinctId, duration)
  {
  }

  /** `after` is `before` with one ENQUEUE of the given event appended. */
  predicate EnqueuedLast(before: seq<Messages.Command>, after: seq<Messages.Command>, eventName: string,
                         properties: Props, isAutomatic: bool)
  {
    && |after| == |before| + 1 && after[..|before|] == before
    && after[|before|].Enqueue?
    && after[|before|].event.eventName == eventName
    && after[|before|].event.properties == properties
    && after[|before|].event.isAutomatic == isAutomatic
  }

  /** `after` is `before` with zero or more messages sent after it. */
  predicate Extends(before: seq<Messages.Command>, after: seq<Messages.Command>) {
    |after| >= |before| && after[..|before|] == before
  }

  /** `c` enqueues an event named `eventName` with the given origin. */
  predicate EnqueueOf(c: Messages.Command, eventName: string, isAutomatic: bool) {
    c.Enqueue? && c.event.eventName == eventName && c.event.isAutomatic == isAutomatic
  }

  /**
   * What `track(INSTALLATION, {}, false)` leaves in the outbox, given the
   * state it sees: with capture on, one ENQUEUE whose properties carry the
   * super-properties it is given; with capture off, nothing.
   */
  predicate InstallationSent(before: seq<Messages.Command>, after: seq<Messages.Command>, capture: bool,
                             installation: string, referrer: map<string, string>, superProps: Props,
                             timings: map<string, int>, now: int, distinctId: string)
  {
    if capture then
      EnqueuedLast(before, after, installation,
                   MergedProperties(referrer, superProps, true, TruncDiv(now, 1000), distinctId,
                                    Elapsed(timings, installation, now), Some(map[])),
                   false)
    else after == before
  }

  /** Milliseconds since `timeEvent` was called for the event, if it was. */
  function Elapsed(timings: map<string, int>, eventName: string, now: int): (d: Option<int>)
    ensures d.Some? <==> eventName in timings
    ensures d.Some? ==> now == timings[eventName] + d.value
  {
    if eventName in timings then Some(now - timings[eventName]) else None
  }

  class Hevo {
    const config: HevoConfig
    const reserved: ReservedEvents
    const identity: Identity.PersistentIdentity
    const session: Session.SessionMetadata
    /** `mEventTimings`, kept equal to the stored timings. */
    var eventTimings: map<string, int>
    /** The ENQUEUE, FLUSH and EMPTY messages sent to the worker, oldest first. */
    var outbox: seq<Messages.Command>

    ghost predicate Valid()
      reads this, identity
    {
      identity.Valid() && eventTimings == identity.timeEvents
    }

    /** `hasOptedOutTracking`, as a function of the cached and stored flags. */
    function OptedOut(): bool
      reads this, identity
    {
      identity.optOut.GetOr(identity.storedOptOut.GetOr(false))
    }

    /** The id `getDistinctId` answers: the loaded one, else the stored one, else the UUID it generates. */
    function DistinctId(uuid: string): string
      requires Valid()
      reads this, identity
    {
      if identity.identitiesLoaded then identity.eventsDistinctId.value else identity.storedDistinctId.GetOr(uuid)
    }

    method HasOptedOutTracking() returns (b: bool)
      requires Valid()
      modifies identity
      ensures Valid() && b == old(OptedOut()) && OptedOut() == b
      ensures unchanged(identity`superProperties, identity`referrerProperties, identity`timeEvents,
                        identity`identitiesLoaded, identity`eventsDistinctId, identity`storedDistinctId,
                        identity`storedOptOut)
    {
      b := identity.GetOptOutTracking();
    }

    /** `getDistinctId`: the id, loaded (or generated and stored) on first use. */
    method GetDistinctId(uuid: string) returns (id: string)
      requires Valid()
      modifies identity
      ensures Valid() && id == old(DistinctId(uuid)) && identity.identitiesLoaded && DistinctId(uuid) == id
      ensures unchanged(identity`superProperties, identity`referrerProperties, identity`timeEvents,
                        identity`optOut, identity`storedOptOut)
    {
      id := identity.GetEventsDistinctId(uuid);
    }

    /**
     * The properties `track` builds, from the layers and the id it was
     * given (`getDistinctId` changes nothing the other layers read, so it
     * is called before rather than in between).
     */
    method BuildProperties(eventName: string, properties: Option<Props>, duration: Option<int>, now: int,
                           distinctId: string)
      returns (p: Props)
      ensures p == MergedProperties(identity.referrerProperties, identity.superProperties,
                                    eventName == reserved.installation, TruncDiv(now, 1000), distinctId,
                                    duration, properties)
    {
      p := PutReferrer(map[], identity.referrerProperties);
      PlusEmpty(ReferrerProps(identity.referrerProperties));
      p := identity.AddSuperPropertiesToObject(p, Some(eventName), reserved.installation);
      PlusEmpty(p);
      ghost var layered := p;
      assert layered == ReferrerProps(identity.referrerProperties)
                        + (if eventName == reserved.installation then identity.superProperties else map[]);
      p := p[TIME := Json.Num(TruncDiv(now, 1000))];
      p := p[DISTINCT_ID := Json.Str(distinctId)];
      if duration.Some? {
        p := p[DURATION := Json.Frac(duration.value)];
      }
      PutsAreForced(layered, TruncDiv(now, 1000), distinctId, duration);
      if properties.Some? {
        p := PutNonNull(p, properties.value);
      } else {
        PlusEmpty(p);
      }
    }

    /**
     * `track(name, props, isAutomatic)`.  Opted out, or with capture
     * switched off, nothing happens.  Otherwise the event's timing entry is
     * consumed and one ENQUEUE carrying the merged properties and the next
     * session tags is sent.
     */
    method Track(eventName: string, properties: Option<Props>, isAutomatic: bool, now: int, uuid: string)
      requires Valid()
      modifies this, identity, session
      ensures Valid() && OptedOut() == old(OptedOut())
      ensures old(OptedOut()) || !config.captureAutomaticEvents ==>
                outbox == old(outbox) && eventTimings == old(eventTimings)
                && session.eventsCounter == old(session.eventsCounter)
      ensures !old(OptedOut()) && config.captureAutomaticEvents ==>
                && eventTimings == old(eventTimings) - {eventName}
                && EnqueuedLast(old(outbox), outbox, eventName,
                                MergedProperties(old(identity.referrerProperties), old(identity.superProperties),
                                                 eventName == reserved.installation, TruncDiv(now, 1000),
                                                 old(DistinctId(uuid)), Elapsed(old(eventTimings), eventName, now),
                                                 properties),
                                isAutomatic)
                && Session.SESSION_SEQ_ID in outbox[|outbox| - 1].event.sessionMetadata
                && outbox[|outbox| - 1].event.sessionMetadata[Session.SESSION_SEQ_ID]
                   == Json.Num(old(session.eventsCounter))
                && session.eventsCounter == old(session.eventsCounter) + 1
                && DistinctId(uuid) == old(DistinctId(uuid))
      ensures old(OptedOut()) || !config.captureAutomaticEvents ==> DistinctId(uuid) == old(DistinctId(uuid))
      ensures identity.superProperties == old(identity.superProperties)
      ensures identity.referrerProperties == old(identity.referrerProperties)
      ensures session.sessionId == old(session.sessionId)
    {
      var optedOut := HasOptedOutTracking();
      if optedOut || !config.captureAutomaticEvents {
        return;
      }
      var duration := Elapsed(eventTimings, eventName, now);
      eventTimings := eventTimings - {eventName};
      identity.RemoveTimeEvent(eventName);
      var distinctId := GetDistinctId(uuid);
      var messageProps := BuildProperties(eventName, properties, duration, now, distinctId);
      var metadata := session.GetMetadataForEvent();
      outbox := outbox + [Messages.Enqueue(EventDescription(eventName, messageProps, isAutomatic, metadata))];
    }

    /** `flush`: a FLUSH message unless opted out. */
    method Flush()
      requires Valid()
      modifies this, identity
      ensures Valid() && OptedOut() == old(OptedOut())
      ensures outbox == if old(OptedOut()) then old(outbox) else old(outbox) + [Messages.Flush]
      ensures eventTimings == old(eventTimings)
      ensures unchanged(identity`superProperties, identity`referrerProperties, identity`timeEvents,
                        identity`identitiesLoaded, identity`eventsDistinctId, identity`storedDistinctId)
    {
      var optedOut := HasOptedOutTracking();
      if !optedOut {
        outbox := outbox + [Messages.Flush];
      }
    }

    /** `timeEvent`: record the start time of `eventName`, unless opted out. */
    method TimeEvent(eventName: string, now: int)
      requires Valid()
      modifies this, identity
      ensures Valid() && OptedOut() == old(OptedOut())
      ensures eventTimings == if old(OptedOut()) then old(eventTimings) else old(eventTimings)[eventName := now]
      ensures outbox == old(outbox)
      ensures unchanged(identity`superProperties, identity`referrerProperties, identity`identitiesLoaded,
                        identity`eventsDistinctId, identity`storedDistinctId)
    {
      var optedOut := HasOptedOutTracking();
      if optedOut {
        return;
      }
      eventTimings := eventTimings[eventName := now];
      identity.AddTimeEvent(eventName, now);
    }

    /**
     * `identify`: the trimmed id, unless it is empty or the user opted out,
     * becomes the distinct id; an IDENTITY_CHANGE event carrying the old
     * and the new id is tracked first exactly when it differs from the
     * current one.
     */
    method Identify(distinctId: Option<string>, now: int, uuid: string)
      requires Valid()
      modifies this, identity, session
      ensures Valid() && OptedOut() == old(OptedOut())
      ensures var d := if distinctId.None? then "" else Trim(distinctId.value);
              if old(OptedOut()) || d == [] then
                outbox == old(outbox) && DistinctId(uuid) == old(DistinctId(uuid))
              else
                && DistinctId(uuid) == d && identity.storedDistinctId == Some(d)
                && (old(DistinctId(uuid)) == d || !config.captureAutomaticEvents ==> outbox == old(outbox))
                && (old(DistinctId(uuid)) != d && config.captureAutomaticEvents ==>
                      EnqueuedLast(old(outbox), outbox, reserved.identityChange,
                                   MergedProperties(old(identity.referrerProperties), old(identity.superProperties),
                                                    reserved.identityChange == reserved.installation,
                                                    TruncDiv(now, 1000), old(DistinctId(uuid)),
                                                    Elapsed(old(eventTimings), reserved.identityChange, now),
                                                    Some(map["old_identity" := Json.Str(old(DistinctId(uuid))),
                                                             "new_identity" := Json.Str(d)])),
                                   false))
      ensures var d := if distinctId.None? then "" else Trim(distinctId.value);
              eventTimings == if !old(OptedOut()) && d != [] && old(DistinctId(uuid)) != d
                                 && config.captureAutomaticEvents
                              then old(eventTimings) - {reserved.identityChange} else old(eventTimings)
      ensures identity.superProperties == old(identity.superProperties)
      ensures identity.referrerProperties == old(identity.referrerProperties)
    {
      var d := if distinctId.None? then "" else Trim(distinctId.value);
      var optedOut := HasOptedOutTracking();
      if optedOut || d == [] {
        return;
      }
      var oldIdentity := GetDistinctId(uuid);
      if oldIdentity != d {
        var change := map["old_identity" := Json.Str(oldIdentity), "new_identity" := Json.Str(d)];
        Track(reserved.identityChange, Some(change), false, now, uuid);
      }
      identity.SetEventsDistinctId(d, uuid);
    }

    /**
     * `alias`: nothing when opted out or when the alias equals the original
     * (by default the current distinct id); otherwise an ALIAS event
     * carrying both, then a flush.
     */
    method Alias(alias: string, original: Option<string>, now: int, uuid: string)
      requires Valid()
      modifies this, identity, session
      ensures Valid() && OptedOut() == old(OptedOut())
      ensures var orig := original.GetOr(old(DistinctId(uuid)));
              if old(OptedOut()) || alias == orig then
                outbox == old(outbox)
              else if !config.captureAutomaticEvents then
                outbox == old(outbox) + [Messages.Flush]
              else
                && |outbox| == |old(outbox)| + 2 && outbox[|outbox| - 1] == Messages.Flush
                && EnqueuedLast(old(outbox), outbox[..|outbox| - 1], reserved.alias,
                                MergedProperties(old(identity.referrerProperties), old(identity.superProperties),
                                                 reserved.alias == reserved.installation,
                                                 TruncDiv(now, 1000), old(DistinctId(uuid)),
                                                 Elapsed(old(eventTimings), reserved.alias, now),
                                                 Some(map["alias" := Json.Str(alias), "original" := Json.Str(orig)])),
                                false)
    {
      var optedOut := HasOptedOutTracking();
      if optedOut {
        return;
      }
      var orig: string;
      if original.None? {
        orig := GetDistinctId(uuid);
      } else {
        orig := original.value;
      }
      if alias == orig {
        return;
      }
      var j := map["alias" := Json.Str(alias), "original" := Json.Str(orig)];
      Track(reserved.alias, Some(j), false, now, uuid);
      ghost var tracked := outbox;
      Flush();
      assert outbox[..|outbox| - 1] == tracked;
    }

    /**
     * `optOutTracking`: the worker's queue is emptied, stored identity,
     * super-properties, timings and referrer data are cleared, and the flag
     * is set.
     */
    method OptOutTracking(uuid: string)
      requires Valid()
      modifies this, identity
      ensures Valid() && OptedOut()
      ensures outbox == old(outbox) + [Messages.EmptyQueues]
      ensures eventTimings == map[] && identity.superProperties == map[] && identity.referrerProperties == map[]
      ensures DistinctId(uuid) == uuid && identity.storedDistinctId == Some(uuid)
    {
      outbox := outbox + [Messages.EmptyQueues];
      identity.ClearPreferences(uuid);
      eventTimings := map[];
      identity.ClearTimeEvents();
      identity.ClearReferrerProperties();
      identity.SetOptOutTracking(true);
    }

    /** `optInTracking`: the flag is cleared, the id optionally identified, then `$opt_in` tracked. */
    method OptInTracking(distinctId: Option<string>, properties: Option<Props>, now: int, uuid: string)
      requires Valid()
      modifies this, identity, session
      ensures Valid() && !OptedOut()
      ensures var d := if distinctId.None? then "" else Trim(distinctId.value);
              DistinctId(uuid) == if d == [] then old(DistinctId(uuid)) else d
      ensures !config.captureAutomaticEvents ==> outbox == old(outbox)
      ensures var d := if distinctId.None? then "" else Trim(distinctId.value);
              var changed := d != [] && d != old(DistinctId(uuid));
              config.captureAutomaticEvents ==>
                && Extends(old(outbox), outbox)
                && |outbox| == |old(outbox)| + (if changed then 2 else 1)
                && (changed ==> EnqueueOf(outbox[|old(outbox)|], reserved.identityChange, false))
                && EnqueuedLast(outbox[..|outbox| - 1], outbox, OPT_IN,
                                MergedProperties(old(identity.referrerProperties), old(identity.superProperties),
                                                 OPT_IN == reserved.installation, TruncDiv(now, 1000),
                                                 if d == [] then old(DistinctId(uuid)) else d,
                                                 Elapsed(if changed then old(eventTimings) - {reserved.identityChange}
                                                         else old(eventTimings), OPT_IN, now),
                                                 properties),
                                false)
      ensures identity.superProperties == old(identity.superProperties)
    {
      OptInIdentify(distinctId, now, uuid);
      ghost var identified := outbox;
      Track(OPT_IN, properties, false, now, uuid);
      assert config.captureAutomaticEvents ==> outbox[..|outbox| - 1] == identified;
    }

    /** The first steps of `optInTracking`: the flag is cleared, then the given id, if any, identified. */
    method OptInIdentify(distinctId: Option<string>, now: int, uuid: string)
      requires Valid()
      modifies this, identity, session
      ensures Valid() && !OptedOut()
      ensures identity.superProperties == old(identity.superProperties)
      ensures identity.referrerProperties == old(identity.referrerProperties)
      ensures var d := if distinctId.None? then "" else Trim(distinctId.value);
              DistinctId(uuid) == if d == [] then old(DistinctId(uuid)) else d
      ensures !config.captureAutomaticEvents ==> outbox == old(outbox)
      ensures var d := if distinctId.None? then "" else Trim(distinctId.value);
              var changed := d != [] && d != old(DistinctId(uuid));
              config.captureAutomaticEvents ==>
                && eventTimings == (if changed then old(eventTimings) - {reserved.identityChange}
                                    else old(eventTimings))
                && Extends(old(outbox), outbox)
                && |outbox| == |old(outbox)| + (if changed then 1 else 0)
                && (changed ==> EnqueueOf(outbox[|old(outbox)|], reserved.identityChange, false))
    {
      identity.SetOptOutTracking(false);
      if distinctId.Some? {
        Identify(distinctId, now, uuid);
      }
    }

    /**
     * `registerSuperProperties`: unless opted out, every given property is
     * registered, overwriting, and INSTALLATION is tracked with them.
     */
    method RegisterSuperProperties(props: Props, now: int, uuid: string)
      requires Valid()
      modifies this, identity, session
      ensures Valid() && OptedOut() == old(OptedOut())
      ensures old(OptedOut()) ==> outbox == old(outbox) && identity.superProperties == old(identity.superProperties)
      ensures !old(OptedOut()) ==>
                && identity.superProperties == old(identity.superProperties) + props
                && InstallationSent(old(outbox), outbox, config.captureAutomaticEvents, reserved.installation,
                                    old(identity.referrerProperties), old(identity.superProperties) + props,
                                    old(eventTimings), now, old(DistinctId(uuid)))
    {
      var optedOut := HasOptedOutTracking();
      if optedOut {
        return;
      }
      identity.RegisterSuperProperties(props);
      Track(reserved.installation, Some(map[]), false, now, uuid);
    }

    /**
     * `registerSuperPropertiesOnce`: unless opted out, only the properties
     * not yet registered are added, and INSTALLATION is tracked with the result.
     */
    method RegisterSuperPropertiesOnce(props: Props, now: int, uuid: string)
      requires Valid()
      modifies this, identity, session
      ensures Valid() && OptedOut() == old(OptedOut())
      ensures old(OptedOut()) ==> outbox == old(outbox) && identity.superProperties == old(identity.superProperties)
      ensures !old(OptedOut()) ==>
                && identity.superProperties == props + old(identity.superProperties)
                && InstallationSent(old(outbox), outbox, config.captureAutomaticEvents, reserved.installation,
                                    old(identity.referrerProperties), props + old(identity.superProperties),
                                    old(eventTimings), now, old(DistinctId(uuid)))
    {
      var optedOut := HasOptedOutTracking();
      if optedOut {
        return;
      }
      identity.RegisterSuperPropertiesOnce(props);
      Identity.RegisterOnceIsReverseUnion(old(identity.superProperties), props);
      Track(reserved.installation, Some(map[]), false, now, uuid);
    }

    /**
     * `unregisterSuperProperty`: unless opted out, the property is nullified,
     * INSTALLATION is tracked with that nullified value, and only then is the
     * key removed.
     */
    method UnregisterSuperProperty(name: string, now: int, uuid: string)
      requires Valid()
      modifies this, identity, session
      ensures Valid() && OptedOut() == old(OptedOut())
      ensures old(OptedOut()) ==> outbox == old(outbox) && identity.superProperties == old(identity.superProperties)
      ensures !old(OptedOut()) ==>
                && identity.superProperties == old(identity.superProperties) - {name}
                && InstallationSent(old(outbox), outbox, config.captureAutomaticEvents, reserved.installation,
                                    old(identity.referrerProperties),
                                    Identity.Unregistered(old(identity.superProperties), name),
                                    old(eventTimings), now, old(DistinctId(uuid)))
    {
      var optedOut := HasOptedOutTracking();
      if optedOut {
        return;
      }
      identity.UnregisterSuperProperty(name);
      Track(reserved.installation, Some(map[]), false, now, uuid);
      identity.ResetSuperProperty(name);
    }

    /**
     * `clearSuperProperties`, which does not test the opt-out flag itself:
     * every super-property is removed, and INSTALLATION (which does test it)
     * is tracked with the nullified ones.
     */
    method ClearSuperProperties(now: int, uuid: string)
      requires Valid()
      modifies this, identity, session
      ensures Valid() && OptedOut() == old(OptedOut())
      ensures identity.superProperties == map[]
      ensures old(OptedOut()) ==> outbox == old(outbox)
      ensures !old(OptedOut()) ==>
                InstallationSent(old(outbox), outbox, config.captureAutomaticEvents, reserved.installation,
                                 old(identity.referrerProperties), Identity.Cleared(old(identity.superProperties)),
                                 old(eventTimings), now, old(DistinctId(uuid)))
    {
      identity.ClearSuperProperties();
      Track(reserved.installation, Some(map[]), false, now, uuid);
      identity.ResetSuperProperties();
    }

    /**
     * `updateSuperProperties`: unless opted out, the update's answer replaces
     * the super-properties (a null answer keeps them), and INSTALLATION is
     * tracked with the result.
     */
    method UpdateSuperProperties(update: Props -> Option<Props>, now: int, uuid: string)
      requires Valid()
      modifies this, identity, session
      ensures Valid() && OptedOut() == old(OptedOut())
      ensures old(OptedOut()) ==> outbox == old(outbox) && identity.superProperties == old(identity.superProperties)
      ensures var updated := update(old(identity.superProperties)).GetOr(old(identity.superProperties));
              !old(OptedOut()) ==>
                && identity.superProperties == updated
                && InstallationSent(old(outbox), outbox, config.captureAutomaticEvents, reserved.installation,
                                    old(identity.referrerProperties), updated,
                                    old(eventTimings), now, old(DistinctId(uuid)))
    {
      var optedOut := HasOptedOutTracking();
      if optedOut {
        return;
      }
      identity.UpdateSuperProperties(update);
      Track(reserved.installation, Some(map[]), false, now, uuid);
    }

    /**
     * `reset`: the stored identity and super-properties are erased and a new
     * id generated; then INSTALLATION is tracked with no super-property, the
     * new id is identified, and a flush is asked for.  With an id that
     * trimming leaves unchanged, identifying it sends nothing.
     */
    method Reset(now: int, uuid: string)
      requires Valid()
      modifies this, identity, session
      ensures Valid() && OptedOut() == old(OptedOut())
      ensures identity.superProperties == map[]
      ensures old(OptedOut()) ==> outbox == old(outbox)
      ensures !old(OptedOut()) ==>
                && Extends(old(outbox), outbox)
                && |outbox| >= |old(outbox)| + (if config.captureAutomaticEvents then 2 else 1)
                && outbox[|outbox| - 1] == Messages.Flush
                && (config.captureAutomaticEvents ==>
                      && EnqueueOf(outbox[|old(outbox)|], reserved.installation, false)
                      && outbox[|old(outbox)|].event.properties
                         == MergedProperties(old(identity.referrerProperties), map[], true, TruncDiv(now, 1000),
                                             uuid, Elapsed(old(eventTimings), reserved.installation, now),
                                             Some(map[])))
      ensures uuid != [] && Trim(uuid) == uuid ==>
                && DistinctId(uuid) == uuid
                && (!old(OptedOut()) ==>
                      |outbox| == |old(outbox)| + (if config.captureAutomaticEvents then 2 else 1))
    {
      identity.ClearPreferences(uuid);
      Track(reserved.installation, Some(map[]), false, now, uuid);
      IdentifyCurrent(now, uuid);
      ghost var identified := outbox;
      Flush();
      assert !old(OptedOut()) ==> outbox[..|identified|] == identified;
    }

    /** `identify(getDistinctId())`, as `reset` calls it: an id that trimming keeps sends nothing. */
    method IdentifyCurrent(now: int, uuid: string)
      requires Valid()
      modifies this, identity, session
      ensures Valid() && OptedOut() == old(OptedOut())
      ensures identity.superProperties == old(identity.superProperties)
      ensures Extends(old(outbox), outbox)
      ensures old(OptedOut()) ==> outbox == old(outbox)
      ensures var id := old(DistinctId(uuid));
              id != [] && Trim(id) == id ==> outbox == old(outbox) && DistinctId(uuid) == id
    {
      var id := GetDistinctId(uuid);
      Identify(Some(id), now, uuid);
    }

    /** `onBackground`: flush. */
    method OnBackground()
      requires Valid()
      modifies this, identity
      ensures Valid() && OptedOut() == old(OptedOut())
      ensures outbox == if old(OptedOut()) then old(outbox) else old(outbox) + [Messages.Flush]
    {
      Flush();
    }

    /** `onForeground`: a new session. */
    method OnForeground(now: int, sessionId: string)
      modifies session
      ensures session.eventsCounter == 0 && session.sessionId == sessionId
      ensures session.sessionStartEpoch == TruncDiv(now, 1000)
    {
      session.InitSession(now, sessionId);
    }

    /**
     * The constructor: load the stored state, apply the opt-out default,
     * track the first-launch events, `$app_open` and a version update.
     */
    constructor (l: Launch)
      requires l.appVersionCode.Some? ==> IsInt(l.appVersionCode.value)
      ensures Valid() && fresh(identity) && fresh(session)
      ensures config == l.config && reserved == l.reserved
      ensures l.optOutDefault ==> OptedOut() && outbox == [Messages.EmptyQueues]
    {
      config := l.config;
      reserved := l.reserved;
      var s := l.stored;
      identity := new Identity.PersistentIdentity(s.superProperties, s.referrer, s.timings, s.distinctId,
                                                  s.optOut, s.versionCode, s.hasLaunched);
      session := new Session.SessionMetadata(l.now, l.sessionId, l.random);
      eventTimings := s.timings;
      outbox := [];
      new;
      if l.optOutDefault {
        OptOutTracking(l.uuid);
      }
      TrackLaunch(l);
    }

    /**
     * The launch events of the constructor: FIRST_OPEN and INSTALLATION on
     * the first launch, `$app_open` unless disabled, and APP_UPDATED when
     * the version code is newer than the cached one.
     */
    method TrackLaunch(l: Launch)
      requires Valid()
      requires l.appVersionCode.Some? ==> IsInt(l.appVersionCode.value)
      modifies this, identity, session
      ensures Valid() && OptedOut() == old(OptedOut())
      ensures old(OptedOut()) ==> outbox == old(outbox)
      ensures Extends(old(outbox), outbox)
      ensures var n := |old(outbox)|;
              !old(OptedOut()) && config.captureAutomaticEvents && old(FirstLaunchDue(l.dbExists)) ==>
                n + 1 < |outbox| && EnqueueOf(outbox[n], FIRST_OPEN, true)
                && EnqueueOf(outbox[n + 1], reserved.installation, false)
      ensures var n := |old(outbox)| + (if old(FirstLaunchDue(l.dbExists)) then 2 else 0);
              !old(OptedOut()) && config.captureAutomaticEvents && !config.disableAppOpenEvent ==>
                n < |outbox| && EnqueueOf(outbox[n], APP_OPEN, false)
    {
      ghost var n0 := |outbox|;
      TrackFirstLaunch(l.dbExists, l.now, l.uuid);
      ghost var launched := outbox;
      if !config.disableAppOpenEvent {
        Track(APP_OPEN, None, false, l.now, l.uuid);
      }
      ghost var appOpen := outbox;
      TrackVersionUpdate(l.appVersionCode, l.appVersionName, l.now, l.uuid);
      assert outbox[..|appOpen|] == appOpen;
      assert appOpen[..|launched|] == launched;
      if !old(OptedOut()) && config.captureAutomaticEvents && old(FirstLaunchDue(l.dbExists)) {
        assert outbox[n0] == appOpen[n0] == launched[n0];
        assert outbox[n0 + 1] == appOpen[n0 + 1] == launched[n0 + 1];
      }
    }

    /** Whether `isFirstLaunch` answers true: its cached answer, or no launch recorded and no database file. */
    ghost predicate FirstLaunchDue(dbExists: bool)
      reads identity
    {
      identity.firstLaunch == Some(true) || (identity.firstLaunch.None? && !identity.hasLaunched && !dbExists)
    }

    /** FIRST_OPEN (automatic) and INSTALLATION on the first launch, which is then recorded. */
    method TrackFirstLaunch(dbExists: bool, now: int, uuid: string)
      requires Valid()
      modifies this, identity, session
      ensures Valid() && OptedOut() == old(OptedOut())
      ensures old(OptedOut()) || !old(FirstLaunchDue(dbExists)) ==> outbox == old(outbox)
      ensures old(FirstLaunchDue(dbExists)) ==> identity.hasLaunched
      ensures Extends(old(outbox), outbox)
      ensures var n := |old(outbox)|;
              !old(OptedOut()) && config.captureAutomaticEvents && old(FirstLaunchDue(dbExists)) ==>
                |outbox| == n + 2 && EnqueueOf(outbox[n], FIRST_OPEN, true)
                && EnqueueOf(outbox[n + 1], reserved.installation, false)
    {
      var first := identity.IsFirstLaunch(dbExists);
      if first {
        ghost var before := outbox;
        Track(FIRST_OPEN, None, true, now, uuid);
        ghost var mid := outbox;
        Track(reserved.installation, Some(map[]), false, now, uuid);
        assert outbox[..|mid|] == mid && mid[..|before|] == before;
        identity.SetHasLaunched();
      }
    }

    /** APP_UPDATED (automatic, with the version name) when `isNewVersion` says so. */
    method TrackVersionUpdate(versionCode: Option<int>, versionName: Option<string>, now: int, uuid: string)
      requires Valid()
      requires versionCode.Some? ==> IsInt(versionCode.value)
      modifies this, identity, session
      ensures Valid() && OptedOut() == old(OptedOut())
      ensures old(OptedOut()) || versionCode.None? ==> outbox == old(outbox)
      ensures Extends(old(outbox), outbox)
    {
      var code := if versionCode.Some? then Some(RemoteService.ShowInt(versionCode.value)) else None;
      if versionCode.Some? {
        RemoteService.ParseShowInt(versionCode.value);
      }
      var isNew := identity.IsNewVersion(code);
      if isNew == Some(true) {
        var props := if versionName.Some? then map[VERSION_UPDATED := Json.Str(versionName.value)] else map[];
        Track(APP_UPDATED, Some(props), true, now, uuid);
      }
    }
  }

  // ---------------------------------------------------------------------
  // The instance registry

  /** An application context, identified abstractly. */
  type Context = nat

  /** `sInstance`: one instance per application context. */
  class Registry {
    var instances: map<Context, Hevo>

    constructor ()
      ensures instances == map[]
    {
      instances := map[];
    }

    /**
     * `getInstance`: null for a null context; the registered instance of
     * the application context if there is one; otherwise a new instance,
     * registered, when the configuration check passes, else null.
     */
    method GetInstance(context: Option<Context>, appContext: Context -> Context, configOk: bool, l: Launch)
      returns (r: Option<Hevo>)
      requires l.appVersionCode.Some? ==> IsInt(l.appVersionCode.value)
      modifies this
      ensures context.None? ==> r.None? && instances == old(instances)
      ensures context.Some? && appContext(context.value) in old(instances) ==>
                r == Some(old(instances)[appContext(context.value)]) && instances == old(instances)
      ensures context.Some? && appContext(context.value) !in old(instances) && !configOk ==>
                r.None? && instances == old(instances)
      ensures context.Some? && appContext(context.value) !in old(instances) && configOk ==>
                r.Some? && fresh(r.value) && instances == old(instances)[appContext(context.value) := r.value]
    {
      if context.None? {
        return None;
      }
      var app := appContext(context.value);
      if app in instances {
        return Some(instances[app]);
      }
      if !configOk {
        return None;
      }
      var instance := new Hevo(l);
      instances := instances[app := instance];
      return Some(instance);
    }
  }

  /** Two calls with the same application context return the same instance. */
  method SameInstanceTwice(reg: Registry, context: Context, appContext: Context -> Context, l: Launch, l2: Launch)
    returns (a: Option<Hevo>, b: Option<Hevo>)
    requires l.appVersionCode.Some? ==> IsInt(l.appVersionCode.value)
    requires l2.appVersionCode.Some? ==> IsInt(l2.appVersionCode.value)
    modifies reg
    ensures a.Some? ==> b == a
  {
    a := reg.GetInstance(Some(context), appContext, true, l);
    b := reg.GetInstance(Some(context), appContext, true, l2);
  }

  /** After `timeEvent`, only the first `track` of that event carries `$duration`. */
  method DurationOnlyOnFirstTrack(h: Hevo, name: string, t0: int, t1: int, t2: int, uuid: string)
    requires h.Valid() && !h.OptedOut() && h.config.captureAutomaticEvents
    requires name != h.reserved.installation
    requires DURATION !in h.identity.referrerProperties
    modifies h, h.identity, h.session
    ensures |h.outbox| == |old(h.outbox)| + 2
    ensures h.outbox[|old(h.outbox)|].Enqueue? && h.outbox[|old(h.outbox)| + 1].Enqueue?
    ensures DURATION in h.outbox[|old(h.outbox)|].event.properties
            && h.outbox[|old(h.outbox)|].event.properties[DURATION] == Json.Frac(t1 - t0)
    ensures DURATION !in h.outbox[|old(h.outbox)| + 1].event.properties
  {
    var n := |h.outbox|;
    h.TimeEvent(name, t0);
    assert Elapsed(h.eventTimings, name, t1) == Some(t1 - t0);
    h.Track(name, None, false, t1, uuid);
    assert name !in h.eventTimings;
    ghost var first := h.outbox[n];
    h.Track(name, None, false, t2, uuid);
    assert h.outbox[n] == first;
  }

  /** After `optOutTracking`, neither `track` nor `flush` sends anything more. */
  method OptOutSilencesTracking(h: Hevo, name: string, now: int, uuid: string)
    requires h.Valid()
    modifies h, h.identity, h.session
    ensures h.outbox == old(h.outbox) + [Messages.EmptyQueues]
    ensures h.OptedOut()
  {
    h.OptOutTracking(uuid);
    h.Track(name, None, false, now, uuid);
    h.Flush();
  }

  /** `identify` of a blank id is ignored: no event and no change of id. */
  method IdentifyIgnoresBlank(h: Hevo, now: int, uuid: string)
    requires h.Valid()
    modifies h, h.identity, h.session
    ensures h.outbox == old(h.outbox)
    ensures h.Valid() && h.DistinctId(uuid) == old(h.DistinctId(uuid))
  {
    h.Identify(Some(" \t "), now, uuid);
  }
}
