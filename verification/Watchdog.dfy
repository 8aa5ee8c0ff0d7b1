/** The self-restart decision, over runs of the connection machine: when it fires, and that it then keeps
    firing. Times are seconds of the monotonic clock. */
module Watchdog {
  import opened Json
  import opened ConnectionMachine
  import opened ConnectionCounters
  import opened ConnectionRuns

  const COLD_BOOT_WINDOW: real := 600.0
  const COLD_BOOT_GRACE: real := 300.0

  datatype Config = Config(enabled: bool, failureSeconds: real, bootGrace: real, fatalSuppress: real)

  /** The grace after process start, widened on a cold boot; a grace of zero opts out. */
  function Grace(cfg: Config, uptime: Option<real>): real {
    if cfg.bootGrace > 0.0 && uptime.Some? && 0.0 <= uptime.value < COLD_BOOT_WINDOW && cfg.bootGrace < COLD_BOOT_GRACE
    then COLD_BOOT_GRACE
    else cfg.bootGrace
  }

  function ShouldRestart(
      now: real, lastSuccess: Option<real>, start: real, lastFatal: Option<real>, cfg: Config,
      uptime: Option<real>): bool {
    if !cfg.enabled then false
    else if now - start < Grace(cfg, uptime) then false
    else if lastFatal.Some? && now - lastFatal.value < cfg.fatalSuppress then false
    else
      var reference := if lastSuccess.Some? then lastSuccess.value else start;
      now - reference >= cfg.failureSeconds
  }

  predicate Fires(first: State, s: State, cfg: Config, uptime: Option<real>) {
    ShouldRestart(s.clock, s.lastSuccess, first.clock, s.lastFatal, cfg, uptime)
  }

  lemma OldestSuffices(times: seq<real>, newest: Option<real>, now: real, age: real)
    requires Newest(times, newest)
    ensures (newest.Some? ==> now - newest.value >= age) <==> forall x :: x in times ==> now - x >= age
  {
    if times != [] {
      assert times[|times| - 1] in times;
    }
  }

  /** The machine has been up for less than ten minutes, and the grace is not opted out of. */
  predicate ColdBoot(cfg: Config, uptime: Option<real>) {
    cfg.bootGrace > 0.0 && uptime.Some? && 0.0 <= uptime.value && uptime.value < 600.0
  }

  /** In every run, the watchdog fires exactly when it is enabled, the grace since the process start is over, on a
      cold boot one of at least five minutes, every success so far (or the
      process start, if there was none) is at least the threshold ago, and so is every fatal error since the
      last success by the suppression time. */
  lemma {:induction false} FiresExactlyWhenStuck(first: State, steps: seq<Step>, s: State, cfg: Config,
      uptime: Option<real>)
    requires Initial(first) && Reaches(first, steps, s)
    ensures Fires(first, s, cfg, uptime) <==>
            && cfg.enabled
            && s.clock - first.clock >= cfg.bootGrace
            && (ColdBoot(cfg, uptime) ==> s.clock - first.clock >= 300.0)
            && (forall x :: x in s.successes ==> s.clock - x >= cfg.failureSeconds)
            && (s.successes == [] ==> s.clock - first.clock >= cfg.failureSeconds)
            && (forall x :: x in s.fatals ==> s.clock - x >= cfg.fatalSuppress)
  {
    StampsOf(first, steps, s);
    OldestSuffices(s.successes, s.lastSuccess, s.clock, cfg.failureSeconds);
    OldestSuffices(s.fatals, s.lastFatal, s.clock, cfg.fatalSuppress);
  }

  lemma {:induction false} StampsOf(first: State, steps: seq<Step>, s: State)
    requires Initial(first) && Reaches(first, steps, s)
    ensures Newest(s.successes, s.lastSuccess) && Newest(s.fatals, s.lastFatal)
  {
    RunKeeps(first, steps, s);
  }

  lemma {:induction false} TimePasses(s: State, more: seq<Step>, later: State)
    requires Reaches(s, more, later)
    ensures later.clock >= s.clock
  {
    if more != [] {
      var n := |more| - 1;
      var before :| Reaches(s, more[..n], before) && Enabled(before, more[n]) && later == Next(before, more[n]);
      TimePasses(s, more[..n], before);
      ClockStep(before, more[n]);
    }
  }

  lemma ClockStep(s: State, step: Step)
    requires Enabled(s, step)
    ensures Next(s, step).clock >= s.clock
  {
    if step.Go? {
      AdvanceCounts(s, step.t, step.answer);
    }
  }

  /** The machine has been up for some time that only grows, or that is never known. */
  predicate UptimeAdvances(before: Option<real>, after: Option<real>) {
    if before.Some? then 0.0 <= before.value && after.Some? && before.value <= after.value else after.None?
  }

  /** Once it fires it fires at every later point of the run, until a success or a fatal error is recorded. */
  lemma {:induction false} StaysAuthorised(
      first: State, steps: seq<Step>, s: State, more: seq<Step>, later: State, cfg: Config, up: Option<real>,
      laterUp: Option<real>)
    requires Initial(first) && Reaches(first, steps, s) && Reaches(s, more, later)
    requires later.lastSuccess == s.lastSuccess && later.lastFatal == s.lastFatal
    requires UptimeAdvances(up, laterUp)
    requires Fires(first, s, cfg, up)
    ensures Fires(first, later, cfg, laterUp)
  {
    TimePasses(s, more, later);
  }

  /** An agent that is left stuck is restarted in the end: wherever a run has got to, once nothing happens for as long
      as the longest of the thresholds, it fires. */
  lemma FiresInTheEnd(first: State, steps: seq<Step>, s: State, cfg: Config, uptime: Option<real>, elapsed: real)
    requires Initial(first) && Reaches(first, steps, s) && cfg.enabled
    requires elapsed >= 300.0 && elapsed >= cfg.bootGrace
    requires elapsed >= cfg.failureSeconds && elapsed >= cfg.fatalSuppress
    ensures Fires(first, Next(s, Tick(elapsed)), cfg, uptime)
  {
    TimePasses(first, steps, s);
    RunKeeps(first, steps, s);
    assert s.lastSuccess.Some? ==> s.lastSuccess.value in s.successes;
    assert s.lastFatal.Some? ==> s.lastFatal.value in s.fatals;
  }
}
