/**
 * `HevoConfig`: the library settings read once from the application's
 * manifest meta-data bundle, each falling back to a documented default.
 */
module Config {
  import opened Wrappers
  import opened JavaInt

  /** A value stored in an Android `Bundle`, tagged with its Java type. */
  datatype MetaValue = MInt(i: int) | MLong(l: int) | MBool(b: bool) | MStr(s: string)

  type Bundle = map<string, MetaValue>

  const KEY_DEBUG := "com.hevodata.android.EnableDebugLogging"
  const KEY_BULK_UPLOAD_LIMIT := "com.hevodata.android.BulkUploadLimit"
  const KEY_FLUSH_INTERVAL := "com.hevodata.android.FlushInterval"
  const KEY_MINIMUM_DATABASE_LIMIT := "com.hevodata.android.MinimumDatabaseLimit"
  const KEY_DISABLE_APP_OPEN_EVENT := "com.hevodata.android.DisableAppOpenEvent"
  const KEY_MIN_SESSION_DURATION := "com.hevodata.android.MinimumSessionDuration"
  const KEY_SESSION_TIMEOUT_DURATION := "com.hevodata.android.SessionTimeoutDuration"
  const KEY_TEST_MODE := "com.hevodata.android.TestMode"
  const KEY_CAPTURE_AUTOMATIC_EVENTS := "com.hevodata.android.CaptureAutomaticEvents"
  const KEY_DATA_EXPIRATION := "com.hevodata.android.DataExpiration"
  const KEY_INTEGRATION_ENDPOINT := "com.hevodata.android.IntegrationEndpoint"

  const DEFAULT_BULK_UPLOAD_LIMIT: int := 40
  const DEFAULT_FLUSH_INTERVAL: int := 60 * 1000
  const DEFAULT_MINIMUM_DATABASE_LIMIT: int := 20 * 1024 * 1024
  const DEFAULT_MIN_SESSION_DURATION: int := 10 * 1000
  const DEFAULT_SESSION_TIMEOUT_DURATION: int := INT_MAX
  const DEFAULT_DATA_EXPIRATION: int := 1000 * 60 * 60 * 24 * 5

  /** `Bundle.getInt`: the value when it is stored as an `int`, otherwise the default. */
  function GetInt(b: Bundle, key: string, default: int): (v: int)
    ensures key in b && b[key].MInt? ==> v == b[key].i
    ensures !(key in b && b[key].MInt?) ==> v == default
  {
    if key in b && b[key].MInt? then b[key].i else default
  }

  /** `Bundle.getLong`: only a value stored as a `long` is returned; an `int` gives the default. */
  function GetLong(b: Bundle, key: string, default: int): (v: int)
    ensures key in b && b[key].MLong? ==> v == b[key].l
    ensures !(key in b && b[key].MLong?) ==> v == default
  {
    if key in b && b[key].MLong? then b[key].l else default
  }

  /** `Bundle.getBoolean`. */
  function GetBoolean(b: Bundle, key: string, default: bool): (v: bool)
    ensures key in b && b[key].MBool? ==> v == b[key].b
    ensures !(key in b && b[key].MBool?) ==> v == default
  {
    if key in b && b[key].MBool? then b[key].b else default
  }

  /** `Bundle.getString`: null when missing or not a string. */
  function GetString(b: Bundle, key: string): (v: Option<string>)
    ensures v.Some? <==> key in b && b[key].MStr?
    ensures v.Some? ==> v.value == b[key].s
  {
    if key in b && b[key].MStr? then Some(b[key].s) else None
  }

  datatype HevoConfig = HevoConfig(
    debug: bool,
    bulkUploadLimit: int,
    flushInterval: int,
    minimumDatabaseLimit: int,
    disableAppOpenEvent: bool,
    minSessionDuration: int,
    sessionTimeoutDuration: int,
    testMode: bool,
    captureAutomaticEvents: bool,
    dataExpiration: int,
    eventsEndpoint: Option<string>)

  /** The settings the constructor derives from the meta-data bundle. */
  function FromMetaData(b: Bundle): (c: HevoConfig)
    ensures b == map[] ==> c == Defaults()
    ensures c.eventsEndpoint.Some? <==> KEY_INTEGRATION_ENDPOINT in b && b[KEY_INTEGRATION_ENDPOINT].MStr?
                                         && b[KEY_INTEGRATION_ENDPOINT].s != ""
    ensures c.eventsEndpoint.Some? ==> c.eventsEndpoint.value == b[KEY_INTEGRATION_ENDPOINT].s
  {
    var endpoint := GetString(b, KEY_INTEGRATION_ENDPOINT);
    HevoConfig(
      debug := GetBoolean(b, KEY_DEBUG, false),
      bulkUploadLimit := GetInt(b, KEY_BULK_UPLOAD_LIMIT, DEFAULT_BULK_UPLOAD_LIMIT),
      flushInterval := GetInt(b, KEY_FLUSH_INTERVAL, DEFAULT_FLUSH_INTERVAL),
      minimumDatabaseLimit := GetInt(b, KEY_MINIMUM_DATABASE_LIMIT, DEFAULT_MINIMUM_DATABASE_LIMIT),
      disableAppOpenEvent := GetBoolean(b, KEY_DISABLE_APP_OPEN_EVENT, true),
      minSessionDuration := GetInt(b, KEY_MIN_SESSION_DURATION, DEFAULT_MIN_SESSION_DURATION),
      sessionTimeoutDuration := GetInt(b, KEY_SESSION_TIMEOUT_DURATION, DEFAULT_SESSION_TIMEOUT_DURATION),
      testMode := GetBoolean(b, KEY_TEST_MODE, false),
      captureAutomaticEvents := GetBoolean(b, KEY_CAPTURE_AUTOMATIC_EVENTS, true),
      dataExpiration := GetLong(b, KEY_DATA_EXPIRATION, DEFAULT_DATA_EXPIRATION),
      eventsEndpoint := if endpoint.Some? && endpoint.value != "" then endpoint else None)
  }

  /** The settings of an application that declares no meta-data at all. */
  function Defaults(): (c: HevoConfig)
    ensures c.bulkUploadLimit == 40 && c.flushInterval == 60000
    ensures c.minimumDatabaseLimit == 20971520
    ensures c.disableAppOpenEvent && c.captureAutomaticEvents
    ensures !c.debug && !c.testMode
    ensures c.minSessionDuration == 10000 && c.sessionTimeoutDuration == 0x7fff_ffff
    ensures c.dataExpiration == 432000000
    ensures c.eventsEndpoint == None
  {
    HevoConfig(false, DEFAULT_BULK_UPLOAD_LIMIT, DEFAULT_FLUSH_INTERVAL, DEFAULT_MINIMUM_DATABASE_LIMIT,
               true, DEFAULT_MIN_SESSION_DURATION, DEFAULT_SESSION_TIMEOUT_DURATION, false, true,
               DEFAULT_DATA_EXPIRATION, None)
  }

  /**
   * In any bundle, an integer setting supplied as an `int` takes effect and
   * changes that setting only; every other setting reads as before.
   */
  lemma SuppliedIntsOverride(b: Bundle, v: int)
    ensures FromMetaData(b[KEY_BULK_UPLOAD_LIMIT := MInt(v)]) == FromMetaData(b).(bulkUploadLimit := v)
    ensures FromMetaData(b[KEY_FLUSH_INTERVAL := MInt(v)]) == FromMetaData(b).(flushInterval := v)
    ensures FromMetaData(b[KEY_MINIMUM_DATABASE_LIMIT := MInt(v)]) == FromMetaData(b).(minimumDatabaseLimit := v)
    ensures FromMetaData(b[KEY_MIN_SESSION_DURATION := MInt(v)]) == FromMetaData(b).(minSessionDuration := v)
    ensures FromMetaData(b[KEY_SESSION_TIMEOUT_DURATION := MInt(v)]) == FromMetaData(b).(sessionTimeoutDuration := v)
  {
    BulkUploadLimitOverride(b, v);
    FlushIntervalOverride(b, v);
    MinimumDatabaseLimitOverride(b, v);
    MinSessionDurationOverride(b, v);
    SessionTimeoutDurationOverride(b, v);
  }

  lemma BulkUploadLimitOverride(b: Bundle, v: int)
    ensures FromMetaData(b[KEY_BULK_UPLOAD_LIMIT := MInt(v)]) == FromMetaData(b).(bulkUploadLimit := v)
  {
  }

  lemma FlushIntervalOverride(b: Bundle, v: int)
    ensures FromMetaData(b[KEY_FLUSH_INTERVAL := MInt(v)]) == FromMetaData(b).(flushInterval := v)
  {
  }

  lemma MinimumDatabaseLimitOverride(b: Bundle, v: int)
    ensures FromMetaData(b[KEY_MINIMUM_DATABASE_LIMIT := MInt(v)]) == FromMetaData(b).(minimumDatabaseLimit := v)
  {
  }

  lemma MinSessionDurationOverride(b: Bundle, v: int)
    ensures FromMetaData(b[KEY_MIN_SESSION_DURATION := MInt(v)]) == FromMetaData(b).(minSessionDuration := v)
  {
  }

  lemma SessionTimeoutDurationOverride(b: Bundle, v: int)
    ensures FromMetaData(b[KEY_SESSION_TIMEOUT_DURATION := MInt(v)]) == FromMetaData(b).(sessionTimeoutDuration := v)
  {
  }

  /**
   * In any bundle, a boolean setting supplied as a `boolean` takes effect
   * and changes that setting only, whatever its default.
   */
  lemma SuppliedBooleansOverride(b: Bundle, v: bool)
    ensures FromMetaData(b[KEY_DEBUG := MBool(v)]) == FromMetaData(b).(debug := v)
    ensures FromMetaData(b[KEY_DISABLE_APP_OPEN_EVENT := MBool(v)]) == FromMetaData(b).(disableAppOpenEvent := v)
    ensures FromMetaData(b[KEY_TEST_MODE := MBool(v)]) == FromMetaData(b).(testMode := v)
    ensures FromMetaData(b[KEY_CAPTURE_AUTOMATIC_EVENTS := MBool(v)]) == FromMetaData(b).(captureAutomaticEvents := v)
  {
    DebugOverride(b, v);
    DisableAppOpenEventOverride(b, v);
    TestModeOverride(b, v);
    CaptureAutomaticEventsOverride(b, v);
  }

  lemma DebugOverride(b: Bundle, v: bool)
    ensures FromMetaData(b[KEY_DEBUG := MBool(v)]) == FromMetaData(b).(debug := v)
  {
  }

  lemma DisableAppOpenEventOverride(b: Bundle, v: bool)
    ensures FromMetaData(b[KEY_DISABLE_APP_OPEN_EVENT := MBool(v)]) == FromMetaData(b).(disableAppOpenEvent := v)
  {
  }

  lemma TestModeOverride(b: Bundle, v: bool)
    ensures FromMetaData(b[KEY_TEST_MODE := MBool(v)]) == FromMetaData(b).(testMode := v)
  {
  }

  lemma CaptureAutomaticEventsOverride(b: Bundle, v: bool)
    ensures FromMetaData(b[KEY_CAPTURE_AUTOMATIC_EVENTS := MBool(v)]) == FromMetaData(b).(captureAutomaticEvents := v)
  {
  }

  /**
   * A boolean setting stored as anything but a `boolean` is ignored, so
   * automatic events stay captured and the app-open event stays disabled.
   */
  lemma MistypedBooleansKeepDefaults(v: int)
    ensures FromMetaData(map[KEY_CAPTURE_AUTOMATIC_EVENTS := MInt(v)]).captureAutomaticEvents
    ensures FromMetaData(map[KEY_DISABLE_APP_OPEN_EVENT := MInt(v)]).disableAppOpenEvent
  {
  }

  /** With only integer settings supplied, those override their defaults and the rest keep theirs. */
  lemma SuppliedIntsOverDefaults(bulk: int, flush: int, minDb: int, minSession: int, timeout: int)
    ensures FromMetaData(map[KEY_BULK_UPLOAD_LIMIT := MInt(bulk), KEY_FLUSH_INTERVAL := MInt(flush),
                             KEY_MINIMUM_DATABASE_LIMIT := MInt(minDb), KEY_MIN_SESSION_DURATION := MInt(minSession),
                             KEY_SESSION_TIMEOUT_DURATION := MInt(timeout)])
            == Defaults().(bulkUploadLimit := bulk, flushInterval := flush, minimumDatabaseLimit := minDb,
                           minSessionDuration := minSession, sessionTimeoutDuration := timeout)
  {
  }

  /**
   * The data expiration is read with `getLong`, so a value the manifest
   * stores as an `int` is ignored and the five-day default applies; only a
   * `long` value takes effect.
   */
  lemma DataExpirationNeedsLong(b: Bundle, ms: int)
    ensures FromMetaData(b[KEY_DATA_EXPIRATION := MInt(ms)]).dataExpiration == 432000000
    ensures FromMetaData(b[KEY_DATA_EXPIRATION := MLong(ms)]).dataExpiration == ms
  {
  }

  /** An empty endpoint string counts as no endpoint. */
  lemma EmptyEndpointIsNone(b: Bundle)
    ensures FromMetaData(b[KEY_INTEGRATION_ENDPOINT := MStr("")]).eventsEndpoint == None
  {
  }
}
