/** What the connection machine's counters and time stamps mean, and how each single write of them keeps it. */
module ConnectionCounters {
  import opened Json
  import opened ConnectionMachine

  // ---------- counters and stamps ----------

  predicate InBounds(c: Counters) {
    BACKOFF_BASE <= c.backoff <= BACKOFF_MAX
  }

  predicate Newest(times: seq<real>, t: Option<real>) {
    && (t.None? <==> times == [])
    && (t.Some? ==> times[|times| - 1] == t.value && forall x :: x in times ==> x <= t.value)
  }

  predicate NoneAfter(times: seq<real>, now: real) {
    forall x :: x in times ==> x <= now
  }

  /** A step leaves the backoff in its bounds and the clock alone, and appends to a history with its stamp, clears
      it with its stamp, or leaves it alone. */
  ghost predicate Counts(s: State, n: State) {
    && (InBounds(s.counters) ==> InBounds(n.counters)) && n.clock == s.clock
    && ((n.lastSuccess == s.lastSuccess && n.successes == s.successes)
        || (n.lastSuccess == Some(s.clock) && n.successes == s.successes + [s.clock]))
    && ((n.lastFatal == s.lastFatal && n.fatals == s.fatals)
        || (n.lastFatal == Some(s.clock) && n.fatals == s.fatals + [s.clock])
        || (n.lastFatal == None && n.fatals == []))
  }

  lemma FailCounts(s: State, t: Tid)
    requires t in s.threads && s.threads[t].Failing?
    ensures Counts(s, AdvanceFail(s, t))
  {
  }

  lemma ResetCounts(s: State, t: Tid)
    requires t in s.threads && s.threads[t].Resetting?
    ensures Counts(s, AdvanceReset(s, t))
  {
  }

  lemma ErrorCounts(s: State, t: Tid, answer: bool)
    requires t in s.threads && InError(s.threads[t])
    ensures Counts(s, AdvanceError(s, t, answer))
  {
  }

  lemma ConnectCounts(s: State, t: Tid, answer: bool)
    requires t in s.threads && InConnect(s.threads[t])
    ensures Counts(s, AdvanceConnect(s, t, answer))
  {
  }

  lemma ReportCounts(s: State, t: Tid, answer: bool)
    requires t in s.threads && InReport(s.threads[t])
    ensures Counts(s, AdvanceReport(s, t, answer))
  {
  }

  lemma SequenceCounts(s: State, t: Tid, answer: bool)
    requires t in s.threads && InSequence(s.threads[t])
    ensures Counts(s, AdvanceSequence(s, t, answer))
  {
  }

  lemma AdvanceCounts(s: State, t: Tid, answer: bool)
    requires t in s.threads && s.threads[t] != Spawn
    ensures Counts(s, Advance(s, t, answer))
  {
    if s.threads[t].Failing? {
      FailCounts(s, t);
    } else if s.threads[t].Resetting? {
      ResetCounts(s, t);
    } else if InError(s.threads[t]) {
      ErrorCounts(s, t, answer);
    } else if InConnect(s.threads[t]) {
      ConnectCounts(s, t, answer);
    } else if InSequence(s.threads[t]) {
      SequenceCounts(s, t, answer);
    } else {
      ReportCounts(s, t, answer);
    }
  }

  ghost predicate Stamped(s: State) {
    && InBounds(s.counters)
    && Newest(s.successes, s.lastSuccess) && Newest(s.fatals, s.lastFatal)
    && NoneAfter(s.successes, s.clock) && NoneAfter(s.fatals, s.clock)
  }

  lemma NewestNow(times: seq<real>, now: real)
    requires NoneAfter(times, now)
    ensures Newest(times + [now], Some(now)) && NoneAfter(times + [now], now)
  {
  }

  lemma {:induction false} StepKeepsStamps(s: State, step: Step)
    requires Stamped(s) && Enabled(s, step)
    ensures Stamped(Next(s, step))
  {
    if step.Go? {
      AdvanceCounts(s, step.t, step.answer);
      NewestNow(s.successes, s.clock);
      NewestNow(s.fatals, s.clock);
    }
  }

  // ---------- the breaker ----------

  predicate Below(c: Counters) {
    c.circuitOpen && c.failures < FAILURE_THRESHOLD
  }

  /** A thread about to open the breaker saw enough failures, and there still are unless they were zeroed since. */
  predicate Counted(s: State, pc: Pc) {
    Opening(pc) ==>
        pc.fail.checked <= s.resets && (pc.fail.checked == s.resets ==> s.counters.failures >= FAILURE_THRESHOLD)
  }

  /** Below the threshold the breaker is open only while a reset is on its way to closing it, or because it was
      opened on a count that a reset had overtaken. */
  ghost predicate Breaker(s: State) {
    && (forall t :: t in s.threads ==> Counted(s, s.threads[t]))
    && (s.overtaken ==> s.counters.circuitOpen)
    && (Below(s.counters) && !s.overtaken ==> s.resetter in s.threads && MidReset(s.threads[s.resetter]))
  }

  /** What a step does to the count and the breaker. */
  ghost predicate Trips(s: State, t: Tid, n: State)
    requires t in s.threads
  {
    var after := if t in n.threads then Some(n.threads[t]) else None;
    && (after.Some? ==> Counted(n, after.value))
    && (|| (n.resets == s.resets && n.resetter == s.resetter && n.counters.failures >= s.counters.failures)
        || (n.resets > s.resets && n.resetter == t && after.Some? && MidReset(after.value)
            && n.counters.circuitOpen == s.counters.circuitOpen && n.overtaken == s.overtaken))
    && (n.overtaken ==> n.counters.circuitOpen)
    && (|| !n.counters.circuitOpen
        || (n.counters.circuitOpen && s.counters.circuitOpen && n.overtaken == s.overtaken
            && (MidReset(s.threads[t]) ==> after.Some? && MidReset(after.value)))
        || n.overtaken || n.counters.failures >= FAILURE_THRESHOLD)
  }

  lemma FailTrips(s: State, t: Tid)
    requires t in s.threads && s.threads[t].Failing? && Breaker(s)
    ensures Trips(s, t, AdvanceFail(s, t))
  {
    assert Counted(s, s.threads[t]);
  }

  lemma ResetTrips(s: State, t: Tid)
    requires t in s.threads && s.threads[t].Resetting? && Breaker(s)
    ensures Trips(s, t, AdvanceReset(s, t))
  {
  }

  lemma ErrorTrips(s: State, t: Tid, answer: bool)
    requires t in s.threads && InError(s.threads[t]) && Breaker(s)
    ensures Trips(s, t, AdvanceError(s, t, answer))
  {
  }

  lemma ConnectTrips(s: State, t: Tid, answer: bool)
    requires t in s.threads && InConnect(s.threads[t]) && Breaker(s)
    ensures Trips(s, t, AdvanceConnect(s, t, answer))
  {
    assert Counted(s, s.threads[t]);
  }

  lemma ReportTrips(s: State, t: Tid, answer: bool)
    requires t in s.threads && InReport(s.threads[t]) && Breaker(s)
    ensures Trips(s, t, AdvanceReport(s, t, answer))
  {
  }

  lemma SequenceTrips(s: State, t: Tid, answer: bool)
    requires t in s.threads && InSequence(s.threads[t]) && Breaker(s)
    ensures Trips(s, t, AdvanceSequence(s, t, answer))
  {
    assert Counted(s, s.threads[t]);
  }

  lemma TripsKeepBreaker(s: State, t: Tid, n: State)
    requires Breaker(s) && t in s.threads && Moves(s, t, n) && Trips(s, t, n)
    ensures Breaker(n)
  {
    forall u | u in n.threads ensures Counted(n, n.threads[u]) {
      assert u != t ==> u in s.threads && n.threads[u] == s.threads[u] && Counted(s, s.threads[u]);
    }
  }

  lemma {:induction false} StepKeepsBreaker(s: State, step: Step)
    requires Breaker(s) && Enabled(s, step)
    ensures Breaker(Next(s, step))
  {
    match step {
      case Go(t, answer) =>
        AdvanceMoves(s, t, answer);
        if s.threads[t].Failing? {
          FailTrips(s, t);
        } else if s.threads[t].Resetting? {
          ResetTrips(s, t);
        } else if InError(s.threads[t]) {
          ErrorTrips(s, t, answer);
        } else if InConnect(s.threads[t]) {
          ConnectTrips(s, t, answer);
        } else if InSequence(s.threads[t]) {
          SequenceTrips(s, t, answer);
        } else {
          ReportTrips(s, t, answer);
        }
        TripsKeepBreaker(s, t, Advance(s, t, answer));
      case _ => OutsideKeepsBreaker(s, step);
    }
  }

  lemma OutsideKeepsBreaker(s: State, step: Step)
    requires Breaker(s) && Enabled(s, step) && !step.Go?
    ensures Breaker(Next(s, step))
  {
    var n := Next(s, step);
    forall u | u in n.threads ensures Counted(n, n.threads[u]) {
      assert u in s.threads && n.threads[u] == s.threads[u] ==> Counted(s, s.threads[u]);
    }
  }
}
