/** The breaker of the connection machine: a failure or a success counted without interruption does what the
    methods say, and a run in which a success falls into the counting of a failure. */
module ConnectionBreaker {
  import opened Json
  import opened ConnectionMachine

  predicate Counting(s: State, t: Tid) {
    t in s.threads && InCount(s.threads[t])
  }

  // ---------- counting without interruption ----------

  /** `s` with thread `t` at `pc` and the counters `c`. */
  function CountedTo(s: State, t: Tid, pc: Pc, c: Counters): State {
    At(s, t, pc).(counters := c)
  }

  lemma Raised(s: State, t: Tid, of: Purpose)
    requires t in s.threads && s.threads[t] == Failing(of, Increment)
    ensures AdvanceCount(s, t)
         == CountedTo(s, t, Failing(of, Lengthen), s.counters.(failures := s.counters.failures + 1))
  {
  }

  lemma Lengthened(s: State, t: Tid, of: Purpose)
    requires t in s.threads && s.threads[t] == Failing(of, Lengthen)
    ensures AdvanceCount(s, t)
         == CountedTo(s, t, Failing(of, Check), s.counters.(backoff := Min(s.counters.backoff * 2.0, BACKOFF_MAX)))
  {
  }

  lemma Checked(s: State, t: Tid, of: Purpose)
    requires t in s.threads && s.threads[t] == Failing(of, Check)
    ensures AdvanceCount(s, t)
         == At(s, t, if s.counters.failures >= FAILURE_THRESHOLD then Failing(of, Open(s.resets))
                     else AfterCount(of, false))
  {
  }

  /** The writes of a failure that nothing interrupts, up to and including the check. */
  function FailedTo(s: State, t: Tid, of: Purpose): State {
    var c := AfterFailure(s.counters);
    CountedTo(s, t, if c.failures >= FAILURE_THRESHOLD then Failing(of, Open(s.resets)) else AfterCount(of, false),
              c.(circuitOpen := s.counters.circuitOpen))
  }

  lemma FailureChecked(s: State, t: Tid, of: Purpose)
    requires t in s.threads && s.threads[t] == Failing(of, Increment)
    ensures var s1 := AdvanceCount(s, t);
            && Counting(s1, t)
            && var s2 := AdvanceCount(s1, t);
            && Counting(s2, t) && AdvanceCount(s2, t) == FailedTo(s, t, of)
  {
    Raised(s, t, of);
    var s1 := AdvanceCount(s, t);
    Lengthened(s1, t, of);
    var s2 := AdvanceCount(s1, t);
    Checked(s2, t, of);
    assert AdvanceCount(s2, t).threads == FailedTo(s, t, of).threads;
  }

  /** A failure nothing interrupts is counted as `AfterFailure` says, the breaker's write included if it is due. */
  lemma FailureAlone(s: State, t: Tid, of: Purpose)
    requires t in s.threads && s.threads[t] == Failing(of, Increment)
    ensures var checked := AdvanceCount(AdvanceCount(AdvanceCount(s, t), t), t);
            var r := if Counting(checked, t) then AdvanceCount(checked, t) else checked;
            r.counters == AfterFailure(s.counters) && r.threads == s.threads[t := AfterCount(of, false)]
  {
    FailureChecked(s, t, of);
    var checked := FailedTo(s, t, of);
    if Counting(checked, t) {
      assert AdvanceCount(checked, t).threads == s.threads[t := AfterCount(of, false)];
    }
  }

  /** `s` after thread `t` has reset the counters, with its stamps still to come. */
  function ResetTo(s: State, t: Tid, of: Purpose): State {
    At(s, t, Resetting(of, StampSuccess)).(
      counters := FRESH_COUNTERS, overtaken := false, resets := s.resets + 1, resetter := t)
  }

  lemma CountersReset(s: State, t: Tid, of: Purpose)
    requires t in s.threads && s.threads[t] == Resetting(of, Zero)
    ensures var s1 := AdvanceCount(s, t);
            && Counting(s1, t)
            && var s2 := AdvanceCount(s1, t);
            && Counting(s2, t) && AdvanceCount(s2, t) == ResetTo(s, t, of)
  {
    var s1 := AdvanceCount(s, t);
    var s2 := AdvanceCount(s1, t);
    assert AdvanceCount(s2, t).threads == s.threads[t := Resetting(of, StampSuccess)];
  }

  lemma StampsSet(s: State, t: Tid, of: Purpose)
    requires t in s.threads && s.threads[t] == Resetting(of, StampSuccess)
    ensures var s1 := AdvanceCount(s, t);
            && Counting(s1, t)
            && AdvanceCount(s1, t) == At(s, t, AfterCount(of, true)).(
                 lastSuccess := Some(s.clock), successes := s.successes + [s.clock], lastFatal := None, fatals := [])
  {
    assert AdvanceCount(AdvanceCount(s, t), t).threads == s.threads[t := AfterCount(of, true)];
  }

  /** A success nothing interrupts zeroes the count, closes the breaker and stamps the time. */
  lemma SuccessAlone(s: State, t: Tid, of: Purpose)
    requires t in s.threads && s.threads[t] == Resetting(of, Zero)
    ensures var reset := AdvanceCount(AdvanceCount(AdvanceCount(s, t), t), t);
            var r := AdvanceCount(AdvanceCount(reset, t), t);
            && r.counters == FRESH_COUNTERS && r.threads == s.threads[t := AfterCount(of, true)]
            && r.lastSuccess == Some(s.clock) && r.lastFatal == None
  {
    CountersReset(s, t, of);
    var reset := ResetTo(s, t, of);
    StampsSet(reset, t, of);
    assert reset.threads[t := AfterCount(of, true)] == s.threads[t := AfterCount(of, true)];
  }

  // ---------- a breaker open on nothing ----------

  lemma Extend(first: State, path: seq<Step>, s: State, step: Step) returns (steps: seq<Step>, r: State)
    requires Reaches(first, path, s) && Enabled(s, step)
    ensures Reaches(first, steps, r) && r == Next(s, step)
  {
    steps, r := path + [step], Next(s, step);
    assert steps[..|steps| - 1] == path;
  }

  lemma Count(first: State, path: seq<Step>, s: State, t: Tid) returns (steps: seq<Step>, r: State)
    requires Reaches(first, path, s) && Counting(s, t)
    ensures Reaches(first, steps, r) && r == AdvanceCount(s, t)
  {
    steps, r := Extend(first, path, s, Go(t, true));
  }

  lemma AttemptEnters(s: State)
    requires s.threads == map[] && s.connection == Disconnected
    ensures Next(s, Enter(0, Connect)) == s.(threads := map[0 := ConnectCheck])
    ensures Advance(s.(threads := map[0 := ConnectCheck]), 0, true) == s.(threads := map[0 := ConnectSet])
  {
    assert s.threads[0 := ConnectCheck] == map[0 := ConnectCheck];
  }

  lemma AttemptTries(s: State)
    requires s.threads == map[0 := ConnectSet]
    ensures var tried := s.(connection := Connecting, owner := 0, threads := map[0 := ConnectTry]);
            && Advance(s, 0, true) == tried
            && Advance(tried, 0, false) == tried.(threads := map[0 := Failing(OfConnect, Increment)])
  {
  }

  /** A connect() by thread 0 whose callback fails, up to the counting. */
  lemma Attempt(first: State, path: seq<Step>, s: State) returns (steps: seq<Step>, r: State)
    requires Reaches(first, path, s) && s.threads == map[] && s.connection == Disconnected
    ensures Reaches(first, steps, r)
    ensures r == s.(connection := Connecting, owner := 0, threads := map[0 := Failing(OfConnect, Increment)])
  {
    AttemptEnters(s);
    AttemptTries(s.(threads := map[0 := ConnectSet]));
    var s1, s2, s3;
    steps, s1 := Extend(first, path, s, Enter(0, Connect));
    steps, s2 := Extend(first, steps, s1, Go(0, true));
    steps, s3 := Extend(first, steps, s2, Go(0, true));
    steps, r := Extend(first, steps, s3, Go(0, false));
  }

  /** The same, counted up to its check. */
  lemma AttemptChecked(first: State, path: seq<Step>, s: State) returns (steps: seq<Step>, tried: State, r: State)
    requires Reaches(first, path, s) && s.threads == map[] && s.connection == Disconnected
    ensures Reaches(first, steps, r) && r == FailedTo(tried, 0, OfConnect)
    ensures tried == s.(connection := Connecting, owner := 0, threads := map[0 := Failing(OfConnect, Increment)])
  {
    var s1, s2;
    steps, tried := Attempt(first, path, s);
    FailureChecked(tried, 0, OfConnect);
    steps, s1 := Count(first, steps, tried, 0);
    steps, s2 := Count(first, steps, s1, 0);
    steps, r := Count(first, steps, s2, 0);
  }

  /** A thread with only its final write to do. */
  lemma Final(first: State, path: seq<Step>, s: State) returns (steps: seq<Step>, r: State)
    requires Reaches(first, path, s) && s.threads == map[0 := ConnectFinal(false)]
    ensures Reaches(first, steps, r) && r == s.(connection := Disconnected, threads := map[])
  {
    steps, r := Extend(first, path, s, Go(0, true));
    assert s.threads - {0} == map[];
  }

  /** One failed connect() after another. */
  lemma FailOnce(first: State, path: seq<Step>, s: State) returns (steps: seq<Step>, r: State)
    requires Reaches(first, path, s) && s.threads == map[] && s.connection == Disconnected
    requires s.counters.failures + 1 < FAILURE_THRESHOLD && !s.counters.circuitOpen
    ensures Reaches(first, steps, r) && r.threads == map[] && r.connection == Disconnected
    ensures r.counters.failures == s.counters.failures + 1 && !r.counters.circuitOpen
  {
    var tried, checked;
    steps, tried, checked := AttemptChecked(first, path, s);
    assert checked.threads == map[0 := ConnectFinal(false)];
    steps, r := Final(first, steps, checked);
  }

  lemma FourFailures(first: State) returns (steps: seq<Step>, s: State)
    requires Initial(first)
    ensures Reaches(first, steps, s) && s.threads == map[] && s.connection == Disconnected
    ensures s.counters.failures == 4 && !s.counters.circuitOpen
  {
    steps, s := FailOnce(first, [], first);
    steps, s := FailOnce(first, steps, s);
    steps, s := FailOnce(first, steps, s);
    steps, s := FailOnce(first, steps, s);
  }

  /** Four failures, and a fifth counted up to its check. */
  lemma FifthChecked(first: State) returns (steps: seq<Step>, s: State)
    requires Initial(first)
    ensures Reaches(first, steps, s) && s.threads == map[0 := Failing(OfConnect, Open(s.resets))]
    ensures !s.counters.circuitOpen && s.connection == Connecting
  {
    var tried;
    steps, s := FourFailures(first);
    steps, tried, s := AttemptChecked(first, steps, s);
    assert s.threads == map[0 := Failing(OfConnect, Open(s.resets))];
  }

  /** Thread 1 counts a success from its first write to its last. */
  lemma SuccessCounted(first: State, path: seq<Step>, s: State) returns (steps: seq<Step>, r: State)
    requires Reaches(first, path, s) && 1 in s.threads && s.threads[1] == Resetting(OfReport, Zero)
    ensures Reaches(first, steps, r) && r.connection == s.connection && r.counters == FRESH_COUNTERS
    ensures r.resets == s.resets + 1 && r.threads == s.threads[1 := SuccessCheck]
  {
    CountersReset(s, 1, OfReport);
    steps, r := Count(first, path, s, 1);
    steps, r := Count(first, steps, r, 1);
    steps, r := Count(first, steps, r, 1);
    var reset := ResetTo(s, 1, OfReport);
    StampsSet(reset, 1, OfReport);
    steps, r := Count(first, steps, reset, 1);
    steps, r := Count(first, steps, r, 1);
    assert r.threads == s.threads[1 := SuccessCheck];
  }

  /** A success reported by thread 1 while thread 0 is about to open the breaker. */
  lemma SuccessBetween(first: State, path: seq<Step>, s: State) returns (steps: seq<Step>, r: State)
    requires Reaches(first, path, s) && s.connection == Connecting
    requires s.threads == map[0 := Failing(OfConnect, Open(s.resets))]
    ensures Reaches(first, steps, r) && r.counters == FRESH_COUNTERS && r.resets == s.resets + 1
    ensures r.threads == map[0 := Failing(OfConnect, Open(s.resets))]
  {
    steps, r := SuccessEnters(first, path, s);
    steps, r := SuccessCounted(first, steps, r);
    assert r.threads - {1} == map[0 := Failing(OfConnect, Open(s.resets))];
    steps, r := ReportEnds(first, steps, r);
  }

  lemma SuccessEnters(first: State, path: seq<Step>, s: State) returns (steps: seq<Step>, r: State)
    requires Reaches(first, path, s) && 1 !in s.threads
    ensures Reaches(first, steps, r) && r == At(s, 1, Resetting(OfReport, Zero))
  {
    steps, r := Extend(first, path, s, Enter(1, ReportSuccess));
  }

  lemma ReportEnds(first: State, path: seq<Step>, s: State) returns (steps: seq<Step>, r: State)
    requires Reaches(first, path, s) && s.connection == Connecting && 1 in s.threads && s.threads[1] == SuccessCheck
    ensures Reaches(first, steps, r) && r == s.(connection := Connected, threads := s.threads - {1})
  {
    steps, r := Extend(first, path, s, Go(1, true));
    assert r == At(s, 1, SuccessSet);
    steps, r := Extend(first, steps, r, Go(1, true));
    assert r.threads == s.threads - {1};
  }

  /** The run in which a success is reported between the check and the write of the fifth failure: the breaker is
      left open with no failure counted and no thread about. */
  lemma OvertakenBreaker(first: State) returns (steps: seq<Step>, s: State)
    requires Initial(first)
    ensures Reaches(first, steps, s) && s.threads == map[]
    ensures s.counters.circuitOpen && s.counters.failures == 0 && s.overtaken
  {
    steps, s := FifthChecked(first);
    steps, s := SuccessBetween(first, steps, s);
    steps, s := OpensLate(first, steps, s);
  }

  lemma OpensLate(first: State, path: seq<Step>, s: State) returns (steps: seq<Step>, r: State)
    requires Reaches(first, path, s) && s.counters == FRESH_COUNTERS && s.resets > 0
    requires s.threads == map[0 := Failing(OfConnect, Open(s.resets - 1))]
    ensures Reaches(first, steps, r) && r.threads == map[]
    ensures r.counters.circuitOpen && r.counters.failures == 0 && r.overtaken
  {
    steps, r := Count(first, path, s, 0);
    assert r.threads == map[0 := ConnectFinal(false)];
    steps, r := Final(first, steps, r);
  }
}
