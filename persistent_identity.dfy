/**
 * `PersistentIdentity`: the state the library keeps across launches —
 * super-properties, the events distinct id, the opt-out flag, pending
 * event timings, referrer properties, and the cached answers to "is this a
 * new app version" and "is this the first launch".
 *
 * Shared preferences are fields holding what is stored; the in-memory
 * caches the source loads lazily are fields beside them.  UUIDs are
 * parameters.
 */
module Identity {
  import opened Wrappers
  import Json
  import opened Events
  import RemoteService

  // ---------------------------------------------------------------------
  // The map operations behind the super-property calls

  /** `ob.put(key, value)` for every key of `source`, in whatever order the keys come. */
  method PutAll(target: Props, source: Props) returns (r: Props)
    ensures r.Keys == target.Keys + source.Keys
    ensures forall k :: k in source ==> r[k] == source[k]
    ensures forall k :: k in target && k !in source ==> r[k] == target[k]
  {
    r := target;
    var todo := source.Keys;
    while todo != {}
      invariant todo <= source.Keys
      invariant r.Keys == target.Keys + (source.Keys - todo)
      invariant forall k :: k in source && k !in todo ==> r[k] == source[k]
      invariant forall k :: k in target && (k !in source || k in todo) ==> r[k] == target[k]
      decreases todo
    {
      var k :| k in todo;
      r := r[k := source[k]];
      todo := todo - {k};
    }
  }

  /** The super-properties after `registerSuperPropertiesOnce(props)`: only absent keys are added. */
  function RegisteredOnce(cache: Props, props: Props): (r: Props)
    ensures r.Keys == cache.Keys + props.Keys
    ensures forall k :: k in cache ==> r[k] == cache[k]
    ensures forall k :: k in props && k !in cache ==> r[k] == props[k]
  {
    map k | k in cache.Keys + props.Keys :: if k in cache then cache[k] else props[k]
  }

  /** Registering once is the union in which the existing values win. */
  lemma RegisterOnceIsReverseUnion(cache: Props, props: Props)
    ensures RegisteredOnce(cache, props) == props + cache
  {
  }

  /** The super-properties after `unregisterSuperProperty(name)`. */
  function Unregistered(cache: Props, name: string): (r: Props)
    ensures r.Keys == cache.Keys
    ensures forall k :: k in cache && k != name ==> r[k] == cache[k]
    ensures name in cache ==> Json.NullLeaves(r[name]) && Json.SameShape(cache[name], r[name])
  {
    if name in cache then
      Json.NullifyShape(cache[name]);
      cache[name := Json.Nullify(cache[name])]
    else cache
  }

  /** The super-properties after `clearSuperProperties`: same keys, every leaf null. */
  function Cleared(cache: Props): (r: Props)
    ensures r.Keys == cache.Keys
    ensures forall k :: k in cache ==> Json.NullLeaves(r[k]) && Json.SameShape(cache[k], r[k])
  {
    NullifyAll(cache);
    map k | k in cache :: Json.Nullify(cache[k])
  }

  lemma NullifyAll(cache: Props)
    ensures forall k :: k in cache ==>
              Json.NullLeaves(Json.Nullify(cache[k])) && Json.SameShape(cache[k], Json.Nullify(cache[k]))
  {
    forall k | k in cache
      ensures Json.NullLeaves(Json.Nullify(cache[k])) && Json.SameShape(cache[k], Json.Nullify(cache[k]))
    {
      Json.NullifyShape(cache[k]);
    }
  }

  /** Clearing twice is clearing once. */
  lemma {:induction false} ClearIdempotent(cache: Props)
    ensures Cleared(Cleared(cache)) == Cleared(cache)
  {
    forall k | k in cache
      ensures Json.Nullify(Json.Nullify(cache[k])) == Json.Nullify(cache[k])
    {
      Json.NullifyShape(cache[k]);
      Json.NullifyFixpoint(Json.Nullify(cache[k]));
    }
  }

  /** Unregistering a property and then clearing gives the same as clearing alone. */
  lemma {:induction false} UnregisterThenClear(cache: Props, name: string)
    ensures Cleared(Unregistered(cache, name)) == Cleared(cache)
  {
    if name in cache {
      Json.NullifyShape(cache[name]);
      Json.NullifyFixpoint(Json.Nullify(cache[name]));
    }
  }

  // ---------------------------------------------------------------------
  // The persistent identity

  class PersistentIdentity {
    /** `mSuperPropertiesCache`, written through to storage on every change. */
    var superProperties: Props
    /** `mReferrerPropertiesCache`. */
    var referrerProperties: map<string, string>
    /** Stored pending timings, event name to start time in milliseconds. */
    var timeEvents: map<string, int>

    /** `mIdentitiesLoaded`, `mEventsDistinctId` and the stored `events_distinct_id`. */
    var identitiesLoaded: bool
    var eventsDistinctId: Option<string>
    var storedDistinctId: Option<string>

    /** `mIsUserOptOut` and the stored `opt_out`. */
    var optOut: Option<bool>
    var storedOptOut: Option<bool>

    /** `sPreviousVersionCode` and the stored `latest_version_code` (-1 when absent). */
    var previousVersionCode: Option<int>
    var storedVersionCode: int

    /** `sIsFirstAppLaunch` and the stored `has_launched`. */
    var firstLaunch: Option<bool>
    var hasLaunched: bool

    ghost predicate Valid()
      reads this
    {
      identitiesLoaded ==> eventsDistinctId.Some?
    }

    /**
     * Over what storage holds; stored super-properties that do not parse
     * (None) load as the empty object.  Nothing is cached yet.
     */
    constructor (storedSuper: Option<Props>, referrer: map<string, string>, timings: map<string, int>,
                 storedDistinctId: Option<string>, storedOptOut: Option<bool>, storedVersionCode: int,
                 hasLaunched: bool)
      ensures Valid()
      ensures superProperties == storedSuper.GetOr(map[])
      ensures referrerProperties == referrer && timeEvents == timings
      ensures !identitiesLoaded && this.storedDistinctId == storedDistinctId
      ensures optOut == None && this.storedOptOut == storedOptOut
      ensures previousVersionCode == None && this.storedVersionCode == storedVersionCode
      ensures firstLaunch == None && this.hasLaunched == hasLaunched
    {
      superProperties := storedSuper.GetOr(map[]);
      referrerProperties := referrer;
      timeEvents := timings;
      identitiesLoaded := false;
      eventsDistinctId := None;
      this.storedDistinctId := storedDistinctId;
      optOut := None;
      this.storedOptOut := storedOptOut;
      previousVersionCode := None;
      this.storedVersionCode := storedVersionCode;
      firstLaunch := None;
      this.hasLaunched := hasLaunched;
    }

    // --- super-properties

    /** `registerSuperProperties`: every given key takes its new value; other keys keep theirs. */
    method RegisterSuperProperties(props: Props)
      modifies this
      ensures superProperties.Keys == old(superProperties).Keys + props.Keys
      ensures forall k :: k in props ==> superProperties[k] == props[k]
      ensures forall k :: k in old(superProperties) && k !in props ==> superProperties[k] == old(superProperties)[k]
      ensures unchanged(this`referrerProperties, this`timeEvents, this`identitiesLoaded,
                        this`eventsDistinctId, this`storedDistinctId, this`optOut, this`storedOptOut,
                        this`previousVersionCode, this`storedVersionCode, this`firstLaunch, this`hasLaunched)
    {
      superProperties := PutAll(superProperties, props);
    }

    /** `registerSuperPropertiesOnce`: the loop adds only the keys not yet present. */
    method RegisterSuperPropertiesOnce(props: Props)
      modifies this
      ensures superProperties == RegisteredOnce(old(superProperties), props)
      ensures unchanged(this`referrerProperties, this`timeEvents, this`identitiesLoaded,
                        this`eventsDistinctId, this`storedDistinctId, this`optOut, this`storedOptOut,
                        this`previousVersionCode, this`storedVersionCode, this`firstLaunch, this`hasLaunched)
    {
      var todo := props.Keys;
      ghost var cache := superProperties;
      while todo != {}
        invariant todo <= props.Keys
        invariant superProperties.Keys == cache.Keys + (props.Keys - todo)
        invariant forall k :: k in cache ==> superProperties[k] == cache[k]
        invariant forall k :: k in props && k !in todo && k !in cache ==> superProperties[k] == props[k]
        invariant unchanged(this`referrerProperties, this`timeEvents, this`identitiesLoaded,
                            this`eventsDistinctId, this`storedDistinctId, this`optOut, this`storedOptOut,
                            this`previousVersionCode, this`storedVersionCode, this`firstLaunch, this`hasLaunched)
        decreases todo
      {
        var k :| k in todo;
        if k !in superProperties {
          superProperties := superProperties[k := props[k]];
        }
        todo := todo - {k};
      }
    }

    /** `unregisterSuperProperty`: the key stays, its value is nullified; a missing key changes nothing. */
    method UnregisterSuperProperty(name: string)
      modifies this
      ensures superProperties == Unregistered(old(superProperties), name)
      ensures unchanged(this`referrerProperties, this`timeEvents, this`identitiesLoaded,
                        this`eventsDistinctId, this`storedDistinctId, this`optOut, this`storedOptOut,
                        this`previousVersionCode, this`storedVersionCode, this`firstLaunch, this`hasLaunched)
    {
      if name in superProperties {
        superProperties := superProperties[name := Json.Nullify(superProperties[name])];
      }
    }

    /** `clearSuperProperties`: every value nullified, the keys kept. */
    method ClearSuperProperties()
      modifies this
      ensures superProperties == Cleared(old(superProperties))
      ensures unchanged(this`referrerProperties, this`timeEvents, this`identitiesLoaded,
                        this`eventsDistinctId, this`storedDistinctId, this`optOut, this`storedOptOut,
                        this`previousVersionCode, this`storedVersionCode, this`firstLaunch, this`hasLaunched)
    {
      superProperties := Cleared(superProperties);
    }

    /**
     * `updateSuperProperties`: the update is given a copy of the cache and
     * its answer replaces the cache; a null answer (None) changes nothing.
     */
    method UpdateSuperProperties(update: Props -> Option<Props>)
      modifies this
      ensures superProperties == if update(old(superProperties)).Some? then update(old(superProperties)).value
                                 else old(superProperties)
      ensures unchanged(this`referrerProperties, this`timeEvents, this`identitiesLoaded,
                        this`eventsDistinctId, this`storedDistinctId, this`optOut, this`storedOptOut,
                        this`previousVersionCode, this`storedVersionCode, this`firstLaunch, this`hasLaunched)
    {
      var copy := PutAll(map[], superProperties);
      assert copy == superProperties;
      var replacement := update(copy);
      if replacement.None? {
        return;
      }
      superProperties := replacement.value;
    }

    /** `resetSuperProperties()`: no super-property is left. */
    method ResetSuperProperties()
      modifies this
      ensures superProperties == map[]
      ensures unchanged(this`referrerProperties, this`timeEvents, this`identitiesLoaded,
                        this`eventsDistinctId, this`storedDistinctId, this`optOut, this`storedOptOut,
                        this`previousVersionCode, this`storedVersionCode, this`firstLaunch, this`hasLaunched)
    {
      superProperties := map[];
    }

    /** `resetSuperProperties(key)`: exactly that key is removed. */
    method ResetSuperProperty(key: string)
      modifies this
      ensures superProperties == old(superProperties) - {key}
      ensures unchanged(this`referrerProperties, this`timeEvents, this`identitiesLoaded,
                        this`eventsDistinctId, this`storedDistinctId, this`optOut, this`storedOptOut,
                        this`previousVersionCode, this`storedVersionCode, this`firstLaunch, this`hasLaunched)
    {
      superProperties := superProperties - {key};
    }

    /**
     * `addSuperPropertiesToObject`: super-properties are copied onto the
     * target, overwriting, only for the INSTALLATION event or a null event
     * name; any other event gets the target back unchanged.
     */
    method AddSuperPropertiesToObject(ob: Props, eventName: Option<string>, installation: string)
      returns (r: Props)
      ensures eventName.Some? && eventName.value != installation ==> r == ob
      ensures eventName.None? || eventName.value == installation ==> r == ob + superProperties
    {
      if eventName.Some? && eventName.value != installation {
        return ob;
      }
      r := PutAll(ob, superProperties);
    }

    // --- identities

    /**
     * `readIdentities`: load the stored id, generating and storing `uuid`
     * when there is none.
     */
    method ReadIdentities(uuid: string)
      modifies this
      ensures Valid() && identitiesLoaded
      ensures old(storedDistinctId).Some? ==> eventsDistinctId == old(storedDistinctId) == storedDistinctId
      ensures old(storedDistinctId).None? ==> eventsDistinctId == Some(uuid) == storedDistinctId
      ensures unchanged(this`superProperties, this`referrerProperties, this`timeEvents, this`optOut,
                        this`storedOptOut, this`previousVersionCode, this`storedVersionCode,
                        this`firstLaunch, this`hasLaunched)
    {
      eventsDistinctId := storedDistinctId;
      if eventsDistinctId.None? {
        eventsDistinctId := Some(uuid);
        storedDistinctId := eventsDistinctId;
      }
      identitiesLoaded := true;
    }

    /** `getEventsDistinctId`: the loaded id, loading (and possibly generating) it on first use. */
    method GetEventsDistinctId(uuid: string) returns (id: string)
      requires Valid()
      modifies this
      ensures Valid() && identitiesLoaded && eventsDistinctId == Some(id)
      ensures old(identitiesLoaded) ==> id == old(eventsDistinctId).value && storedDistinctId == old(storedDistinctId)
      ensures !old(identitiesLoaded) && old(storedDistinctId).Some? ==> id == old(storedDistinctId).value
      ensures !old(identitiesLoaded) && old(storedDistinctId).None? ==> id == uuid && storedDistinctId == Some(uuid)
      ensures unchanged(this`superProperties, this`referrerProperties, this`timeEvents, this`optOut,
                        this`storedOptOut, this`previousVersionCode, this`storedVersionCode,
                        this`firstLaunch, this`hasLaunched)
    {
      if !identitiesLoaded {
        ReadIdentities(uuid);
      }
      id := eventsDistinctId.value;
    }

    /** `setEventsDistinctId`: the id is replaced in memory and in storage. */
    method SetEventsDistinctId(id: string, uuid: string)
      modifies this
      ensures Valid() && identitiesLoaded
      ensures eventsDistinctId == Some(id) && storedDistinctId == Some(id)
      ensures unchanged(this`superProperties, this`referrerProperties, this`timeEvents, this`optOut,
                        this`storedOptOut, this`previousVersionCode, this`storedVersionCode,
                        this`firstLaunch, this`hasLaunched)
    {
      if !identitiesLoaded {
        ReadIdentities(uuid);
      }
      eventsDistinctId := Some(id);
      storedDistinctId := eventsDistinctId;
    }

    /**
     * `clearPreferences`: the stored identity and super-properties are
     * erased and read back: no super-property, and a newly generated id.
     */
    method ClearPreferences(uuid: string)
      modifies this
      ensures Valid() && identitiesLoaded
      ensures superProperties == map[]
      ensures eventsDistinctId == Some(uuid) == storedDistinctId
      ensures unchanged(this`referrerProperties, this`timeEvents, this`optOut, this`storedOptOut,
                        this`previousVersionCode, this`storedVersionCode, this`firstLaunch, this`hasLaunched)
    {
      storedDistinctId := None;
      superProperties := map[];
      ReadIdentities(uuid);
    }

    // --- opt-out flag

    /** `setOptOutTracking`. */
    method SetOptOutTracking(flag: bool)
      modifies this
      ensures optOut == Some(flag) && storedOptOut == Some(flag)
      ensures unchanged(this`superProperties, this`referrerProperties, this`timeEvents,
                        this`identitiesLoaded, this`eventsDistinctId, this`storedDistinctId,
                        this`previousVersionCode, this`storedVersionCode, this`firstLaunch, this`hasLaunched)
    {
      optOut := Some(flag);
      storedOptOut := optOut;
    }

    /** `getOptOutTracking`: the cached flag, else the stored one, else false. */
    method GetOptOutTracking() returns (flag: bool)
      modifies this
      ensures optOut == Some(flag)
      ensures old(optOut).Some? ==> flag == old(optOut).value
      ensures old(optOut).None? ==> flag == old(storedOptOut).GetOr(false)
      ensures unchanged(this`superProperties, this`referrerProperties, this`timeEvents,
                        this`identitiesLoaded, this`eventsDistinctId, this`storedDistinctId,
                        this`storedOptOut, this`previousVersionCode, this`storedVersionCode,
                        this`firstLaunch, this`hasLaunched)
    {
      if optOut.None? {
        optOut := Some(storedOptOut.GetOr(false));
      }
      flag := optOut.value;
    }

    // --- timings and referrer

    /** `addTimeEvent`. */
    method AddTimeEvent(name: string, time: int)
      modifies this
      ensures timeEvents == old(timeEvents)[name := time]
      ensures unchanged(this`superProperties, this`referrerProperties, this`identitiesLoaded,
                        this`eventsDistinctId, this`storedDistinctId, this`optOut, this`storedOptOut,
                        this`previousVersionCode, this`storedVersionCode, this`firstLaunch, this`hasLaunched)
    {
      timeEvents := timeEvents[name := time];
    }

    /** `removeTimeEvent`. */
    method RemoveTimeEvent(name: string)
      modifies this
      ensures timeEvents == old(timeEvents) - {name}
      ensures unchanged(this`superProperties, this`referrerProperties, this`identitiesLoaded,
                        this`eventsDistinctId, this`storedDistinctId, this`optOut, this`storedOptOut,
                        this`previousVersionCode, this`storedVersionCode, this`firstLaunch, this`hasLaunched)
    {
      timeEvents := timeEvents - {name};
    }

    /** `clearTimeEvents`. */
    method ClearTimeEvents()
      modifies this
      ensures timeEvents == map[]
      ensures unchanged(this`superProperties, this`referrerProperties, this`identitiesLoaded,
                        this`eventsDistinctId, this`storedDistinctId, this`optOut, this`storedOptOut,
                        this`previousVersionCode, this`storedVersionCode, this`firstLaunch, this`hasLaunched)
    {
      timeEvents := map[];
    }

    /** `clearReferrerProperties`, with the change listener reloading the now empty cache. */
    method ClearReferrerProperties()
      modifies this
      ensures referrerProperties == map[]
      ensures unchanged(this`superProperties, this`timeEvents, this`identitiesLoaded, this`eventsDistinctId,
                        this`storedDistinctId, this`optOut, this`storedOptOut, this`previousVersionCode,
                        this`storedVersionCode, this`firstLaunch, this`hasLaunched)
    {
      referrerProperties := map[];
    }

    // --- cached launch facts

    /**
     * `isNewVersion`.  A null version is not new.  The first call reads the
     * stored version into the cache, and when none is stored records the
     * given one (so that call answers false).  The answer is whether the
     * cached version is below the given one; a newer version is stored, but
     * the cache keeps its first value.  A version string `parseInt` rejects
     * raises `NumberFormatException` (None) and changes nothing.
     */
    method IsNewVersion(versionCode: Option<string>) returns (r: Option<bool>)
      modifies this
      ensures versionCode.None? ==> r == Some(false) && unchanged(this)
      ensures versionCode.Some? && RemoteService.ParseInt(versionCode).None? ==> r == None && unchanged(this)
      ensures old(previousVersionCode).Some? ==> previousVersionCode == old(previousVersionCode)
      ensures unchanged(this`superProperties, this`referrerProperties, this`timeEvents,
                        this`identitiesLoaded, this`eventsDistinctId, this`storedDistinctId, this`optOut,
                        this`storedOptOut, this`firstLaunch, this`hasLaunched)
      ensures versionCode.Some? && RemoteService.ParseInt(versionCode).Some? ==>
                var version := RemoteService.ParseInt(versionCode).value;
                var cached := if old(previousVersionCode).Some? then old(previousVersionCode).value
                              else if old(storedVersionCode) == -1 then version
                              else old(storedVersionCode);
                && previousVersionCode == Some(cached)
                && r == Some(cached < version)
                && storedVersionCode == (if (old(previousVersionCode).None? && old(storedVersionCode) == -1) || cached < version
                                         then version else old(storedVersionCode))
    {
      if versionCode.None? {
        return Some(false);
      }
      var parsed := RemoteService.ParseInt(versionCode);
      if parsed.None? {
        return None;
      }
      var version := parsed.value;
      if previousVersionCode.None? {
        previousVersionCode := Some(storedVersionCode);
        if previousVersionCode.value == -1 {
          previousVersionCode := Some(version);
          storedVersionCode := version;
        }
      }
      if previousVersionCode.value < version {
        storedVersionCode := version;
        return Some(true);
      }
      return Some(false);
    }

    /** `isFirstLaunch`: decided on the first call from the stored flag and the database file; cached after. */
    method IsFirstLaunch(dbExists: bool) returns (first: bool)
      modifies this
      ensures old(firstLaunch).Some? ==> first == old(firstLaunch).value
      ensures old(firstLaunch).None? ==> first == (!hasLaunched && !dbExists)
      ensures firstLaunch == Some(first)
      ensures unchanged(this`superProperties, this`referrerProperties, this`timeEvents,
                        this`identitiesLoaded, this`eventsDistinctId, this`storedDistinctId, this`optOut,
                        this`storedOptOut, this`previousVersionCode, this`storedVersionCode, this`hasLaunched)
    {
      if firstLaunch.None? {
        firstLaunch := Some(!hasLaunched && !dbExists);
      }
      first := firstLaunch.value;
    }

    /** `setHasLaunched`. */
    method SetHasLaunched()
      modifies this
      ensures hasLaunched
      ensures unchanged(this`superProperties, this`referrerProperties, this`timeEvents,
                        this`identitiesLoaded, this`eventsDistinctId, this`storedDistinctId, this`optOut,
                        this`storedOptOut, this`previousVersionCode, this`storedVersionCode, this`firstLaunch)
    {
      hasLaunched := true;
    }
  }

  // ---------------------------------------------------------------------
  // Scenarios

  /**
   * With no stored id a generated one is returned and stored; after
   * `setEventsDistinctId(x)` the id read back is `x`.
   */
  method GeneratedThenSetId(p: PersistentIdentity, uuid: string, x: string, otherUuid: string)
    returns (first: string, second: string)
    requires p.Valid() && !p.identitiesLoaded && p.storedDistinctId == None
    modifies p
    ensures first == uuid && second == x && p.storedDistinctId == Some(x)
  {
    first := p.GetEventsDistinctId(uuid);
    p.SetEventsDistinctId(x, otherUuid);
    second := p.GetEventsDistinctId(otherUuid);
  }

  /**
   * The version cache is never refreshed: once version 1 is cached, asking
   * twice about version 2 answers true both times.
   */
  method NewVersionReportedTwice(p: PersistentIdentity)
    returns (a: Option<bool>, b: Option<bool>)
    requires p.previousVersionCode == Some(1)
    modifies p
    ensures a == Some(true) && b == Some(true)
  {
    RemoteService.ParseShowInt(2);
    a := p.IsNewVersion(Some("2"));
    b := p.IsNewVersion(Some("2"));
  }

  /** Registering once never overwrites: an existing key keeps its value. */
  method RegisterOnceKeepsExisting(p: PersistentIdentity, key: string, v: Json.Value, w: Json.Value)
    requires key in p.superProperties && p.superProperties[key] == v
    modifies p
    ensures key in p.superProperties && p.superProperties[key] == v
  {
    p.RegisterSuperPropertiesOnce(map[key := w]);
  }
}
