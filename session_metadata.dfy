/**
 * `SessionMetadata`: the tags every tracked event carries — a random event
 * id, the session id, the event's sequence number within the session and
 * the session's start in whole seconds.
 *
 * The random generators are inputs: the session id is a parameter of
 * `InitSession`, and the per-event ids are the stream `random`, of which
 * `draws` values have been used.
 */
module Session {
  import Json
  import opened Events
  import opened JavaInt

  const EVENT_ID := "h_event_id"
  const SESSION_ID := "h_session_id"
  const SESSION_SEQ_ID := "h_session_seq_id"
  const SESSION_START_SEC := "h_session_start_sec"

  class SessionMetadata {
    var eventsCounter: int
    var sessionId: string
    var sessionStartEpoch: int
    const random: nat -> string
    var draws: nat

    /** A fresh tagger starts a session at once. */
    constructor (now: int, sessionId: string, random: nat -> string)
      ensures eventsCounter == 0 && this.sessionId == sessionId
      ensures sessionStartEpoch == TruncDiv(now, 1000)
      ensures this.random == random && draws == 0
    {
      this.random := random;
      draws := 0;
      eventsCounter := 0;
      this.sessionId := sessionId;
      sessionStartEpoch := TruncDiv(now, 1000);
    }

    /**
     * `initSession`: a new session with a new id, counting from 0, started
     * at the current time in seconds (truncated).
     */
    method InitSession(now: int, sessionId: string)
      modifies this
      ensures eventsCounter == 0 && this.sessionId == sessionId
      ensures now >= 0 ==> sessionStartEpoch * 1000 <= now < sessionStartEpoch * 1000 + 1000
      ensures sessionStartEpoch == TruncDiv(now, 1000)
      ensures draws == old(draws)
    {
      eventsCounter := 0;
      this.sessionId := sessionId;
      sessionStartEpoch := TruncDiv(now, 1000);
    }

    /**
     * `getMetadataForEvent`: the four tags, the sequence number being the
     * count of events tagged so far in this session; the count then grows
     * by one and the session itself is unchanged.
     */
    method GetMetadataForEvent() returns (m: Props)
      modifies this
      ensures m.Keys == {EVENT_ID, SESSION_ID, SESSION_SEQ_ID, SESSION_START_SEC}
      ensures m[EVENT_ID] == Json.Str(random(old(draws)))
      ensures m[SESSION_ID] == Json.Str(sessionId)
      ensures m[SESSION_SEQ_ID] == Json.Num(old(eventsCounter))
      ensures m[SESSION_START_SEC] == Json.Num(sessionStartEpoch)
      ensures eventsCounter == old(eventsCounter) + 1 && draws == old(draws) + 1
      ensures sessionId == old(sessionId) && sessionStartEpoch == old(sessionStartEpoch)
    {
      m := map[EVENT_ID := Json.Str(random(draws)),
               SESSION_ID := Json.Str(sessionId),
               SESSION_SEQ_ID := Json.Num(eventsCounter),
               SESSION_START_SEC := Json.Num(sessionStartEpoch)];
      draws := draws + 1;
      eventsCounter := eventsCounter + 1;
    }
  }

  /** Four events tagged right after a session starts are numbered 0, 1, 2, 3 in that session. */
  method FourEventsInOneSession(s: SessionMetadata, now: int, sessionId: string)
    returns (tags: seq<Props>)
    modifies s
    ensures |tags| == 4
    ensures forall i :: 0 <= i < 4 ==> SESSION_SEQ_ID in tags[i] && tags[i][SESSION_SEQ_ID] == Json.Num(i)
    ensures forall i :: 0 <= i < 4 ==> SESSION_ID in tags[i] && tags[i][SESSION_ID] == Json.Str(sessionId)
    ensures s.eventsCounter == 4
  {
    s.InitSession(now, sessionId);
    var a := s.GetMetadataForEvent();
    var b := s.GetMetadataForEvent();
    var c := s.GetMetadataForEvent();
    var d := s.GetMetadataForEvent();
    tags := [a, b, c, d];
  }
}
