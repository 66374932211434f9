/**
 * What travels from the public API to the dispatch worker: an event
 * description, and the names of the events the library itself reserves.
 */
module Events {
  import Json

  /** A JSON object: its keys and their values. */
  type Props = map<string, Json.Value>

  /**
   * The names of the library's reserved events.  Their string values are
   * defined outside this model, so they are carried as data.
   */
  datatype ReservedEvents = ReservedEvents(installation: string, alias: string, identityChange: string)

  /** Automatic events the library tracks on its own, and their property keys. */
  const FIRST_OPEN := "$hae_first_open"
  const SESSION := "$hae_session"
  const SESSION_LENGTH := "$hae_session_length"
  const APP_UPDATED := "$hae_updated"
  const VERSION_UPDATED := "$hae_updated_version"

  /** An event on its way to the worker, with the session metadata taken at tracking time. */
  datatype EventDescription = EventDescription(
    eventName: string,
    properties: Props,
    isAutomatic: bool,
    sessionMetadata: Props)
}
