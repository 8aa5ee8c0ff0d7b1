/** The connection manager as the object it is, each method run by one thread left to itself. The blocks of
    counter updates are those of `ConnectionMachine`, which has the interleavings. */
module ConnectionManager {
  import opened Json
  import opened ConnectionMachine

  const BACKOFF_JITTER: real := 0.5
  const RECOVERY_TIMEOUT: real := 300.0

  /** What is outside, for one attempt: the probe, the connect callback (a raise counts as failure), and whether
      restarting the supervised threads raises. */
  datatype Attempt = Attempt(internet: bool, connects: bool, restartRaises: bool)

  /** Jitter leaves between half and all of the wait. */
  lemma Jittered(base: real, random: real)
    requires base > 0.0 && 0.0 <= random < 1.0
    ensures base / 2.0 <= base * (BACKOFF_JITTER + random * BACKOFF_JITTER) <= base
  {
    var factor := BACKOFF_JITTER + random * BACKOFF_JITTER;
    assert 0.5 <= factor <= 1.0;
    assert base * (1.0 - factor) >= 0.0 && base * (factor - 0.5) >= 0.0;
  }

  class Manager {
    var connection: Connection
    var failures: nat
    var backoff: real
    var circuitOpen: bool
    var circuitOpenedAt: real
    var lastAttempt: real
    var inProgress: bool
    var shutdown: bool
    var lastSuccess: Option<real>
    var lastFatal: Option<real>

    function Count(): Counters
      reads this
    {
      Counters(failures, backoff, circuitOpen)
    }

    predicate Valid()
      reads this
    {
      && connection != FatalError
      && BACKOFF_BASE <= backoff <= BACKOFF_MAX
      && (circuitOpen ==> failures >= FAILURE_THRESHOLD)
      && (!inProgress && !shutdown ==> AtRest(connection))
    }

    constructor ()
      ensures Valid() && connection == Disconnected && !inProgress && !shutdown && Count() == Counters(0, 30.0, false)
      ensures lastSuccess == None && lastFatal == None
    {
      connection, failures, backoff, circuitOpen, circuitOpenedAt := Disconnected, 0, BACKOFF_BASE, false, 0.0;
      lastAttempt, inProgress, shutdown, lastSuccess, lastFatal := 0.0, false, false, None, None;
    }

    method OnConnectSuccess(now: real)
      modifies `failures, `backoff, `circuitOpen, `lastSuccess, `lastFatal, `connection
      ensures Count() == Counters(0, 30.0, false) && connection == Connected
      ensures lastSuccess == Some(now) && lastFatal == None
    {
      failures, backoff, circuitOpen := 0, BACKOFF_BASE, false;
      lastSuccess, lastFatal := Some(now), None;
      connection := Connected;
    }

    /** The breaker opens at the fifth failure, and keeps the time it first opened. */
    method OnConnectFailure(wall: real)
      modifies `failures, `backoff, `circuitOpen, `circuitOpenedAt, `connection
      ensures Count() == AfterFailure(old(Count())) && connection == Disconnected
      ensures failures == old(failures) + 1 && circuitOpen == (old(circuitOpen) || failures >= 5)
      ensures backoff == if old(backoff) <= 1800.0 then 2.0 * old(backoff) else 3600.0
      ensures circuitOpenedAt == if circuitOpen && !old(circuitOpen) then wall else old(circuitOpenedAt)
    {
      failures := failures + 1;
      backoff := if backoff * 2.0 < BACKOFF_MAX then backoff * 2.0 else BACKOFF_MAX;
      if failures >= FAILURE_THRESHOLD {
        if !circuitOpen {
          circuitOpen, circuitOpenedAt := true, wall;
        }
      }
      connection := Disconnected;
    }

    /** The first connection: already connected is success and changes nothing; otherwise the state ends as the
        callback answered. */
    method Connect(connects: bool, wall: real, now: real) returns (ok: bool)
      requires Valid()
      modifies this
      ensures Valid() && ok == (old(connection) == Connected || connects)
      ensures connection == Settled(ok) && inProgress == old(inProgress) && shutdown == old(shutdown)
      ensures old(connection) == Connected ==>
                Count() == old(Count()) && lastSuccess == old(lastSuccess) && lastFatal == old(lastFatal)
      ensures old(connection) != Connected ==>
                Count() == if ok then Counters(0, 30.0, false) else AfterFailure(old(Count()))
      ensures old(connection) != Connected && ok ==> lastSuccess == Some(now) && lastFatal == None
      ensures !ok ==> lastSuccess == old(lastSuccess) && lastFatal == old(lastFatal)
      ensures circuitOpenedAt == if circuitOpen && !old(circuitOpen) then wall else old(circuitOpenedAt)
      ensures lastAttempt == old(lastAttempt)
    {
      if connection == Connected {
        return true;
      }
      if connection == FatalError {
        assert false;
        return false;
      }
      connection := Connecting;
      if connects {
        OnConnectSuccess(now);
      } else {
        OnConnectFailure(wall);
      }
      ok := connects;
    }

    /** The locked section: takes the flag, unless a sequence has it or a shutdown is under way. */
    method TriggerReconnect() returns (started: bool)
      modifies `inProgress
      ensures started == (!old(inProgress) && !shutdown) && inProgress == (old(inProgress) || started)
    {
      if inProgress || shutdown {
        return false;
      }
      inProgress, started := true, true;
    }

    /** An error is turned away only by an open breaker not yet due for a test; otherwise a connected state is
        dropped, and a sequence is under way afterwards unless a shutdown is. */
    method ReportError(fatal: bool, wall: real, now: real) returns (started: bool)
      requires Valid()
      modifies `backoff, `lastFatal, `circuitOpen, `connection, `inProgress
      ensures Valid()
      ensures var turnedAway := old(circuitOpen) && wall - old(circuitOpenedAt) <= 300.0;
              && started == (!turnedAway && !old(inProgress) && !shutdown)
              && inProgress == (old(inProgress) || started)
              && connection == (if !turnedAway && old(connection) == Connected then Disconnected else old(connection))
              && circuitOpen == turnedAway
      ensures backoff == if fatal then 3600.0 else old(backoff)
      ensures lastFatal == if fatal then Some(now) else old(lastFatal)
    {
      if fatal {
        backoff, lastFatal := FATAL_ERROR_BACKOFF, Some(now);
      }
      if circuitOpen {
        if wall - circuitOpenedAt > RECOVERY_TIMEOUT {
          circuitOpen := false;
        } else {
          return false;
        }
      }
      if connection == Connected {
        connection := Disconnected;
      }
      started := TriggerReconnect();
    }

    method ReportSuccess(now: real)
      requires Valid()
      modifies `failures, `backoff, `circuitOpen, `lastSuccess, `lastFatal, `connection
      ensures Valid() && connection == Connected && Count() == Counters(0, 30.0, false)
      ensures lastSuccess == Some(now) && lastFatal == None
    {
      failures, backoff, circuitOpen := 0, BACKOFF_BASE, false;
      lastSuccess, lastFatal := Some(now), None;
      if connection != Connected && connection != FatalError {
        connection := Connected;
      }
    }

    /** Whatever the breaker says; the next wait is at most the base backoff, and none once the clock is past it. */
    method ForceReconnect() returns (started: bool)
      requires Valid()
      modifies `backoff, `lastAttempt, `connection, `inProgress
      ensures Valid() && backoff == 30.0 && lastAttempt == 0.0
      ensures started == (!old(inProgress) && !shutdown) && inProgress == (old(inProgress) || started)
      ensures connection == if old(connection) == Connected then Disconnected else old(connection)
    {
      backoff, lastAttempt := BACKOFF_BASE, 0.0;
      if connection == Connected {
        connection := Disconnected;
      }
      started := TriggerReconnect();
    }

    /** What is left of the backoff since the last attempt, jittered; none if it has passed. */
    method CalculateBackoffWait(wall: real, random: real) returns (wait: real)
      requires 0.0 <= random < 1.0
      ensures var base := backoff - (wall - lastAttempt);
              if base <= 0.0 then wait == 0.0 else wait == base * (0.5 + 0.5 * random) && base / 2.0 <= wait <= base
    {
      var base := backoff - (wall - lastAttempt);
      if base <= 0.0 {
        return 0.0;
      }
      Jittered(base, random);
      wait := base * (BACKOFF_JITTER + random * BACKOFF_JITTER);
    }

    /** The attempt itself: connected only if the probe, the callback and the restart of the supervised threads all
        went well. A restart that raises after a connection counts as a failure. */
    method AttemptOnce(attempt: Attempt, wall: real, now: real)
      requires Valid()
      modifies `failures, `backoff, `circuitOpen, `circuitOpenedAt, `lastSuccess, `lastFatal, `connection
      ensures Valid()
      ensures var connected := attempt.internet && attempt.connects;
              && connection == Settled(connected && !attempt.restartRaises)
              && Count() == (if !connected then AfterFailure(old(Count()))
                             else if attempt.restartRaises then Counters(1, 60.0, false) else Counters(0, 30.0, false))
              && lastSuccess == (if connected then Some(now) else old(lastSuccess))
              && lastFatal == (if connected then None else old(lastFatal))
              && circuitOpenedAt == (if circuitOpen && (connected || !old(circuitOpen)) then wall
                                     else old(circuitOpenedAt))
    {
      if attempt.internet && attempt.connects {
        OnConnectSuccess(now);
        if !attempt.restartRaises {
          return;
        }
      }
      OnConnectFailure(wall);
    }

    /** A sequence gives the flag back; interrupted by a shutdown during its wait, it attempts nothing. */
    method ReconnectSequence(attempt: Attempt, interrupted: bool, wall: real, random: real, now: real)
      requires Valid() && inProgress && (interrupted ==> shutdown)
      requires 0.0 <= random < 1.0
      modifies this
      ensures Valid() && !inProgress && shutdown == old(shutdown)
      ensures var waits := old(backoff) - (wall - old(lastAttempt)) > 0.0;
              if waits && interrupted then
                && connection == Backoff && Count() == old(Count()) && lastAttempt == old(lastAttempt)
                && lastSuccess == old(lastSuccess) && lastFatal == old(lastFatal)
                && circuitOpenedAt == old(circuitOpenedAt)
              else
                var connected := attempt.internet && attempt.connects;
                && connection == Settled(connected && !attempt.restartRaises)
                && lastAttempt == wall
                && Count() == (if !connected then AfterFailure(old(Count()))
                               else if attempt.restartRaises then Counters(1, 60.0, false)
                               else Counters(0, 30.0, false))
                && lastSuccess == (if connected then Some(now) else old(lastSuccess))
                && lastFatal == (if connected then None else old(lastFatal))
                && circuitOpenedAt == (if circuitOpen && (connected || !old(circuitOpen)) then wall
                                       else old(circuitOpenedAt))
    {
      connection := Reconnecting;
      var wait := CalculateBackoffWait(wall, random);
      if wait > 0.0 {
        connection := Backoff;
        if interrupted {
          inProgress := false;
          return;
        }
      }
      connection, lastAttempt := Reconnecting, wall;
      AttemptOnce(attempt, wall, now);
      inProgress := false;
    }
  }
}
