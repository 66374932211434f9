/**
 * `HevoActivityLifecycleCallbacks`: turns activity pauses and resumes into
 * sessions.  A pause schedules a check 500 ms later; a resume before then
 * cancels it.  When the check runs while the app is still paused in the
 * foreground, the app is marked as in the background, a session of
 * acceptable length is tracked together with the INSTALLATION event, and
 * the instance flushes.  A resume from the background starts a new session.
 *
 * The main-thread handler is modelled by `pendingCheck`: posting the check
 * sets it, removing the callback clears it, and `RunCheck` is the handler
 * running the posted callback.
 */
module Lifecycle {
  import opened Wrappers
  import Json
  import opened Events
  import opened JavaInt
  import Messages
  import Api

  /** Milliseconds between a pause and the check it schedules. */
  const CHECK_DELAY: int := 500

  /** Whether a session of `length` milliseconds is long enough to report and not timed out. */
  predicate InSessionWindow(length: int, minSessionDuration: int, sessionTimeoutDuration: int)
  {
    minSessionDuration <= length < sessionTimeoutDuration
  }

  class LifecycleCallbacks {
    const hevo: Api.Hevo
    /** `NumberFormat` with one fraction digit, applied to the session length in milliseconds / 1000. */
    const formatSeconds: int -> string
    /** `mIsForeground`, `mPaused`. */
    var foreground: bool
    var paused: bool
    /** Whether a check is posted and not yet removed or run. */
    var pendingCheck: bool
    /** `sStartSessionTime`, in milliseconds. */
    var startSessionTime: int

    ghost predicate Valid()
      reads this, hevo, hevo.identity
    {
      hevo.Valid()
    }

    /** A fresh callback object starts in the foreground, paused, with the session started now. */
    constructor (hevo: Api.Hevo, formatSeconds: int -> string, now: int)
      ensures this.hevo == hevo && this.formatSeconds == formatSeconds
      ensures foreground && paused && !pendingCheck && startSessionTime == now
    {
      this.hevo := hevo;
      this.formatSeconds := formatSeconds;
      foreground := true;
      paused := true;
      pendingCheck := false;
      startSessionTime := now;
    }

    /** `isInForeground`. */
    method IsInForeground() returns (b: bool)
      ensures b == foreground
    {
      b := foreground;
    }

    /** `onActivityPaused`: paused, and a single check posted (an earlier one is replaced). */
    method OnActivityPaused()
      modifies this
      ensures paused && pendingCheck
      ensures foreground == old(foreground) && startSessionTime == old(startSessionTime)
    {
      paused := true;
      pendingCheck := true;
    }

    /**
     * `onActivityResumed`: the posted check is removed; coming back from
     * the background restarts the session clock and the session tags.
     */
    method OnActivityResumed(now: int, sessionId: string)
      modifies this, hevo.session
      ensures !paused && foreground && !pendingCheck
      ensures old(foreground) ==> startSessionTime == old(startSessionTime)
                                  && hevo.session.eventsCounter == old(hevo.session.eventsCounter)
                                  && hevo.session.sessionId == old(hevo.session.sessionId)
      ensures !old(foreground) ==> startSessionTime == now
                                   && hevo.session.eventsCounter == 0 && hevo.session.sessionId == sessionId
    {
      paused := false;
      var wasBackground := !foreground;
      foreground := true;
      pendingCheck := false;
      if wasBackground {
        startSessionTime := now;
        hevo.OnForeground(now, sessionId);
      }
    }

    /**
     * The posted check, run by the handler at `now`.  Only while the app
     * is still in the foreground and paused does it act: the app goes to
     * the background, a session in the window is tracked (SESSION with its
     * formatted length, automatic; then INSTALLATION), and the instance
     * flushes.
     */
    method RunCheck(now: int, uuid: string)
      requires pendingCheck && Valid()
      modifies this, hevo, hevo.identity, hevo.session
      ensures Valid() && !pendingCheck && paused == old(paused)
      ensures startSessionTime == old(startSessionTime)
      ensures hevo.session.sessionId == old(hevo.session.sessionId)
      ensures hevo.OptedOut() == old(hevo.OptedOut())
      ensures !(old(foreground) && old(paused)) ==> foreground == old(foreground) && hevo.outbox == old(hevo.outbox)
      ensures old(foreground) && old(paused) ==> !foreground
      ensures old(hevo.OptedOut()) ==> hevo.outbox == old(hevo.outbox)
      ensures var length := now - old(startSessionTime);
              old(foreground) && old(paused) && !old(hevo.OptedOut())
              && !(hevo.config.captureAutomaticEvents
                   && InSessionWindow(length, hevo.config.minSessionDuration, hevo.config.sessionTimeoutDuration))
              ==> hevo.outbox == old(hevo.outbox) + [Messages.Flush]
      ensures var length := now - old(startSessionTime);
              old(foreground) && old(paused) && !old(hevo.OptedOut()) && hevo.config.captureAutomaticEvents
              && InSessionWindow(length, hevo.config.minSessionDuration, hevo.config.sessionTimeoutDuration)
              ==> && |hevo.outbox| == |old(hevo.outbox)| + 3
                  && hevo.outbox[..|old(hevo.outbox)|] == old(hevo.outbox)
                  && SessionEvent(hevo.outbox[|old(hevo.outbox)|], formatSeconds(length))
                  && hevo.outbox[|old(hevo.outbox)| + 1].Enqueue?
                  && hevo.outbox[|old(hevo.outbox)| + 1].event.eventName == hevo.reserved.installation
                  && !hevo.outbox[|old(hevo.outbox)| + 1].event.isAutomatic
                  && hevo.outbox[|old(hevo.outbox)| + 2] == Messages.Flush
    {
      pendingCheck := false;
      if foreground && paused {
        foreground := false;
        var sessionLength := now - startSessionTime;
        if InSessionWindow(sessionLength, hevo.config.minSessionDuration, hevo.config.sessionTimeoutDuration) {
          TrackSession(sessionLength, now, uuid);
        }
        ghost var tracked := hevo.outbox;
        hevo.OnBackground();
        assert hevo.outbox[..|tracked|] == tracked;
      }
    }

    /** The two events a completed session produces. */
    method TrackSession(sessionLength: int, now: int, uuid: string)
      requires Valid()
      modifies hevo, hevo.identity, hevo.session
      ensures Valid() && hevo.OptedOut() == old(hevo.OptedOut())
      ensures hevo.session.sessionId == old(hevo.session.sessionId)
      ensures old(hevo.OptedOut()) || !hevo.config.captureAutomaticEvents ==> hevo.outbox == old(hevo.outbox)
      ensures !old(hevo.OptedOut()) && hevo.config.captureAutomaticEvents ==>
                && |hevo.outbox| == |old(hevo.outbox)| + 2
                && hevo.outbox[..|old(hevo.outbox)|] == old(hevo.outbox)
                && SessionEvent(hevo.outbox[|old(hevo.outbox)|], formatSeconds(sessionLength))
                && hevo.outbox[|old(hevo.outbox)| + 1].Enqueue?
                && hevo.outbox[|old(hevo.outbox)| + 1].event.eventName == hevo.reserved.installation
                && !hevo.outbox[|old(hevo.outbox)| + 1].event.isAutomatic
    {
      var sessionProperties := map[SESSION_LENGTH := Json.Str(formatSeconds(sessionLength))];
      hevo.Track(SESSION, Some(sessionProperties), true, now, uuid);
      ghost var afterSession := hevo.outbox;
      hevo.Track(hevo.reserved.installation, Some(map[]), false, now, uuid);
      assert hevo.outbox[..|afterSession|] == afterSession;
    }
  }

  /** `c` is the automatic SESSION event carrying the session length text. */
  predicate SessionEvent(c: Messages.Command, lengthText: string)
  {
    && c.Enqueue? && c.event.eventName == SESSION && c.event.isAutomatic
    && SESSION_LENGTH in c.event.properties && c.event.properties[SESSION_LENGTH] == Json.Str(lengthText)
  }

  /**
   * A second check, after another pause but with no resume in between,
   * sends nothing: the two checks together send exactly what the first one
   * sends, one FLUSH and at most the one session that ended at `t1`.
   */
  method OneSessionPerForegroundPeriod(cb: LifecycleCallbacks, t1: int, t2: int, uuid: string)
    requires cb.Valid() && cb.foreground && cb.pendingCheck && cb.paused
    modifies cb, cb.hevo, cb.hevo.identity, cb.hevo.session
    ensures !cb.foreground && cb.hevo.OptedOut() == old(cb.hevo.OptedOut())
    ensures old(cb.hevo.OptedOut()) ==> cb.hevo.outbox == old(cb.hevo.outbox)
    ensures var length := t1 - old(cb.startSessionTime);
            var config := cb.hevo.config;
            !old(cb.hevo.OptedOut())
            && !(config.captureAutomaticEvents
                 && InSessionWindow(length, config.minSessionDuration, config.sessionTimeoutDuration))
            ==> cb.hevo.outbox == old(cb.hevo.outbox) + [Messages.Flush]
    ensures var length := t1 - old(cb.startSessionTime);
            var config := cb.hevo.config;
            !old(cb.hevo.OptedOut()) && config.captureAutomaticEvents
            && InSessionWindow(length, config.minSessionDuration, config.sessionTimeoutDuration)
            ==> && |cb.hevo.outbox| == |old(cb.hevo.outbox)| + 3
                && cb.hevo.outbox[..|old(cb.hevo.outbox)|] == old(cb.hevo.outbox)
                && SessionEvent(cb.hevo.outbox[|old(cb.hevo.outbox)|], cb.formatSeconds(length))
                && cb.hevo.outbox[|old(cb.hevo.outbox)| + 2] == Messages.Flush
  {
    cb.RunCheck(t1, uuid);
    ghost var afterFirst := cb.hevo.outbox;
    cb.OnActivityPaused();
    cb.RunCheck(t2, uuid);
    assert cb.hevo.outbox == afterFirst;
  }

  /** A resume before the check runs cancels it: the app never leaves the foreground. */
  method QuickResumeKeepsSession(cb: LifecycleCallbacks, now: int, sessionId: string)
    requires cb.foreground
    modifies cb, cb.hevo.session
    ensures cb.foreground && !cb.pendingCheck
    ensures cb.startSessionTime == old(cb.startSessionTime)
    ensures cb.hevo.session.eventsCounter == old(cb.hevo.session.eventsCounter)
  {
    cb.OnActivityPaused();
    cb.OnActivityResumed(now, sessionId);
  }
}
