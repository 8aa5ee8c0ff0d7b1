/** What holds in every run of the connection machine, and what a forced reconnect or a shutdown leads to. */
module ConnectionRuns {
  import opened Json
  import opened ConnectionMachine
  import opened ConnectionCounters

  // ---------- every run ----------

  ghost predicate Invariant(s: State) {
    OneSequence(s) && Owed(s) && Stamped(s) && Breaker(s)
  }

  lemma {:induction false} RunKeeps(first: State, steps: seq<Step>, s: State)
    requires Initial(first) && Reaches(first, steps, s)
    ensures Invariant(s)
  {
    if steps != [] {
      var n := |steps| - 1;
      var before :| Reaches(first, steps[..n], before) && Enabled(before, steps[n]) && s == Next(before, steps[n]);
      RunKeeps(first, steps[..n], before);
      StepKeepsOneSequence(before, steps[n]);
      StepKeepsOwed(before, steps[n]);
      StepKeepsStamps(before, steps[n]);
      StepKeepsBreaker(before, steps[n]);
    }
  }

  predicate NobodyConnects(s: State) {
    forall t :: t in s.threads ==> !InConnect(s.threads[t]) && !(InCount(s.threads[t]) && s.threads[t].of == OfConnect)
  }

  /** No wedge: in every run, at most one reconnect sequence exists, and with none, no connect() and no shutdown
      the state is connected or disconnected; it is never the fatal one; the backoff stays in its bounds. */
  lemma {:induction false} NoWedge(first: State, steps: seq<Step>, s: State)
    requires Initial(first) && Reaches(first, steps, s)
    ensures s.connection != FatalError
    ensures forall t, u ::
            t in s.threads && u in s.threads && Sequencing(s.threads[t]) && Sequencing(s.threads[u]) ==> t == u
    ensures !s.inProgress && NobodyConnects(s) && !s.shutdown ==> s.connection in {Connected, Disconnected}
    ensures 30.0 <= s.counters.backoff <= 3600.0
  {
    RunKeeps(first, steps, s);
  }

  predicate NobodyResets(s: State) {
    forall t :: t in s.threads ==> !MidReset(s.threads[t])
  }

  /** In every run, with no reset under way, the breaker is open on fewer failures than the threshold only if a
      reset fell between the check of the thread that opened it and its write. Such a write, made on a closed
      breaker, opens it below the threshold only when a reset did; when one did, it opens it below the threshold
      unless as many failures have been counted again since. */
  lemma {:induction false} BreakerBelow(first: State, steps: seq<Step>, s: State, t: Tid, answer: bool)
    requires Initial(first) && Reaches(first, steps, s)
    ensures NobodyResets(s) && Below(s.counters) ==> s.overtaken
    ensures t in s.threads && Opening(s.threads[t]) && !s.counters.circuitOpen ==>
              var n := Advance(s, t, answer);
              && n.counters == s.counters.(circuitOpen := true)
              && (n.overtaken <==> s.threads[t].fail.checked < s.resets)
              && (Below(n.counters) ==> s.threads[t].fail.checked < s.resets)
    ensures (&& t in s.threads && Opening(s.threads[t])
             && s.threads[t].fail.checked < s.resets && s.counters.failures < FAILURE_THRESHOLD) ==>
              Below(Advance(s, t, answer).counters)
  {
    RunKeeps(first, steps, s);
    if t in s.threads {
      assert Counted(s, s.threads[t]);
    }
  }

  // ---------- runs from any state ----------

  /** Carries out `steps` one after another, if each is enabled in its turn. */
  function Run(s: State, steps: seq<Step>): Option<State>
    decreases |steps|
  {
    if steps == [] then Some(s)
    else if Enabled(s, steps[0]) then Run(Next(s, steps[0]), steps[1..])
    else None
  }

  lemma RunTwo(s: State, first: Step, second: Step, between: State, r: State)
    requires Enabled(s, first) && between == Next(s, first) && Enabled(between, second) && r == Next(between, second)
    ensures Run(s, [first, second]) == Some(r)
  {
    assert [first, second][1..] == [second];
    assert Run(between, [second]) == Run(r, []);
  }

  lemma {:induction false} RunConcat(s: State, a: seq<Step>, b: seq<Step>)
    requires Run(s, a).Some?
    ensures Run(s, a + b) == Run(Run(s, a).value, b)
    decreases |a|
  {
    if a == [] {
      assert a + b == b;
    } else {
      assert (a + b)[1..] == a[1..] + b;
      RunConcat(Next(s, a[0]), a[1..], b);
    }
  }

  /** What the metrics loop does on finding the state disconnected: ask, find nothing to drop and take the flag,
      start the thread. */
  function Force(t: Tid, u: Tid): seq<Step> {
    [Enter(t, ForceReconnect), Go(t, true)] + [Go(t, true), Go(t, true)] + [StartThread(t, u)]
  }

  lemma ForceAsks(s: State, t: Tid)
    requires t !in s.threads
    ensures Run(s, [Enter(t, ForceReconnect), Go(t, true)])
         == Some(At(s, t, DropCheck).(counters := s.counters.(backoff := BACKOFF_BASE)))
  {
    var asking := At(s, t, ForceCount);
    var asked := At(s, t, DropCheck).(counters := s.counters.(backoff := BACKOFF_BASE));
    assert asking.threads[t := DropCheck] == asked.threads;
    RunTwo(s, Enter(t, ForceReconnect), Go(t, true), asking, asked);
  }

  lemma ForceTriggers(s: State, t: Tid)
    requires t in s.threads && s.threads[t] == DropCheck && s.connection != Connected && !s.inProgress && !s.shutdown
    ensures Run(s, [Go(t, true), Go(t, true)]) == Some(At(s, t, Spawn).(inProgress := true))
  {
    assert s.threads[t := Trigger][t := Spawn] == s.threads[t := Spawn];
    RunTwo(s, Go(t, true), Go(t, true), At(s, t, Trigger), At(s, t, Spawn).(inProgress := true));
  }

  lemma ForceStarts(s: State, t: Tid, u: Tid)
    requires t in s.threads && s.threads[t] == Spawn && u !in s.threads
    ensures Run(s, [StartThread(t, u)]) == Some(At(Done(s, t), u, SequenceStart))
  {
    assert Run(At(Done(s, t), u, SequenceStart), []) == Some(At(Done(s, t), u, SequenceStart));
  }

  /** What a forced reconnect leaves behind. */
  function Forced(s: State, u: Tid): State {
    s.(inProgress := true, threads := s.threads[u := SequenceStart], counters := s.counters.(backoff := BACKOFF_BASE))
  }

  lemma ForcedState(s: State, t: Tid, u: Tid)
    requires t !in s.threads && u !in s.threads && t != u
    ensures var asked := At(s, t, DropCheck).(counters := s.counters.(backoff := BACKOFF_BASE));
            At(Done(At(asked, t, Spawn).(inProgress := true), t), u, SequenceStart) == Forced(s, u)
  {
    assert (s.threads[t := DropCheck][t := Spawn] - {t})[u := SequenceStart] == s.threads[u := SequenceStart];
  }

  /** From any state with no sequence and no shutdown, a forced reconnect by a thread left to itself starts one
      when the state is not connected, whatever the breaker and the backoff say; it waits no longer than the base
      backoff. */
  lemma CanAlwaysRestart(s: State, t: Tid, u: Tid)
    requires !s.inProgress && !s.shutdown && s.connection != Connected
    requires t !in s.threads && u !in s.threads && t != u
    ensures Run(s, Force(t, u)) == Some(Forced(s, u))
  {
    var asked := At(s, t, DropCheck).(counters := s.counters.(backoff := BACKOFF_BASE));
    var spawning := At(asked, t, Spawn).(inProgress := true);
    ForceAsks(s, t);
    ForceTriggers(asked, t);
    ForceStarts(spawning, t, u);
    ThreeStretches(s, [Enter(t, ForceReconnect), Go(t, true)], asked, [Go(t, true), Go(t, true)], spawning,
                   [StartThread(t, u)]);
    ForcedState(s, t, u);
  }

  lemma ThreeStretches(s: State, a: seq<Step>, s1: State, b: seq<Step>, s2: State, c: seq<Step>)
    requires Run(s, a) == Some(s1) && Run(s1, b) == Some(s2)
    ensures Run(s, a + b + c) == Run(s2, c)
  {
    RunConcat(s, a, b);
    RunConcat(s, a + b, c);
  }

  /** A sequence that wakes from its wait into a shutdown leaves the state where it was, in backoff. */
  lemma {:induction false} ShutdownLeavesBackoff(s: State, t: Tid)
    requires t in s.threads && s.threads[t] == SequenceWait
    ensures Run(s, [Go(t, true), Shutdown] + [Go(t, true), Go(t, true)])
         == Some(s.(connection := Backoff, owner := t, shutdown := true, inProgress := false,
            threads := s.threads - {t}))
  {
    var asleep := Pass(s, t, Backoff, SequenceSleep);
    var woken := asleep.(shutdown := true);
    RunTwo(s, Go(t, true), Shutdown, asleep, woken);
    SleepEnds(woken, t);
    RunConcat(s, [Go(t, true), Shutdown], [Go(t, true), Go(t, true)]);
    assert s.threads[t := SequenceSleep] - {t} == s.threads - {t};
  }

  lemma SleepEnds(s: State, t: Tid)
    requires t in s.threads && s.threads[t] == SequenceSleep && s.shutdown
    ensures Run(s, [Go(t, true), Go(t, true)]) == Some(s.(inProgress := false, threads := s.threads - {t}))
  {
    var leaving := At(s, t, SequenceExit);
    assert leaving.threads - {t} == s.threads - {t};
    RunTwo(s, Go(t, true), Go(t, true), leaving, s.(inProgress := false, threads := s.threads - {t}));
  }
}
