/** The display manager as the object it is: the display and the sentinel file, the globals of the module, and
    the methods that apply a layout, wait for an acknowledgement, revert, and recover at startup. Its history
    is a run of the revert machine, so whatever holds of every run holds of it. */
module DisplayManager {
  import opened Json
  import opened DisplayConfig
  import opened LayoutRewrite
  import opened DisplayRevert

  /** What one call that installs a configuration reports, and what it installs (None: what was requested). */
  datatype Call = Call(outcome: Outcome, installs: Option<Config>)

  /** How everything outside this module answers during one apply. `turnedAway` is a cooldown still running or a
      layout of the wrong shape; `hashes` are those of the live paths. */
  datatype Surroundings = Surroundings(
    turnedAway: bool,
    session0: bool,
    queried: bool,
    hashes: seq<Option<Hash>>,
    validated: bool,
    sentinelWritable: bool,
    first: Call,
    second: Call,
    restore: Restore)

  /** Whether a restore takes effect, whether it is reported to have, and whether the sentinel is then deleted. */
  datatype Restore = Restore(effect: bool, ok: bool, deletes: bool)

  /** `after` is `before` rewritten into the desired layout. */
  predicate Rewrites(before: Config, after: Config, desired: map<Hash, Desired>, hashes: seq<Option<Hash>>) {
    var matches := Matches(hashes, desired);
    InRange(before, matches) && after == Rewrite(before, matches, OffsetOf(matches)).config
  }

  /** The retry is the last attempt: a second failure of the retryable kind is a failure. */
  function LastCall(c: Call): Call {
    if c.outcome == Retry then c.(outcome := Failure) else c
  }

  /** Every check before the sentinel passes: the display could be queried, every wanted monitor is there, every
      rotation can be converted, a path stays active, and the driver accepts the result. */
  predicate Plannable(before: Config, desired: map<Hash, Desired>, env: Surroundings)
    requires |env.hashes| == |before.paths|
  {
    var matches := Matches(env.hashes, desired);
    && env.queried && env.validated
    && (forall h :: h in desired ==> Some(h) in env.hashes)
    && (forall k :: 0 <= k < |matches| ==> Convertible(matches[k].desired))
    && InRange(before, matches)
    && ActivePaths(Rewrite(before, matches, OffsetOf(matches)).config.paths) > 0
  }

  /** What stands in the way of a layout: the query or the driver's validation, a wanted monitor that is not there, a
      wanted rotation that is null, or no path left with its active bit. */
  lemma Refused(before: Config, desired: map<Hash, Desired>, env: Surroundings)
    requires |env.hashes| == |before.paths|
    ensures var matches := Matches(env.hashes, desired);
            && InRange(before, matches)
            && (!Plannable(before, desired, env)
                <==> || !env.queried || !env.validated || (exists h :: h in desired && Some(h) !in env.hashes)
                     || (exists k :: 0 <= k < |matches| && matches[k].desired.rotation.Null?)
                     || forall p :: p in Rewrite(before, matches, OffsetOf(matches)).config.paths
                                    ==> p.flags & 1 == 0)
  {
    var matches := Matches(env.hashes, desired);
    MatchesInRange(env.hashes, desired);
    var paths := Rewrite(before, matches, OffsetOf(matches)).config.paths;
    ActiveExactly(paths);
    forall p | p in paths ensures p.flags & 1 == 0 || p.flags & 1 == 1 {
      LowestBit(p.flags);
    }
  }

  lemma {:induction false} MatchesInRange(hashes: seq<Option<Hash>>, desired: map<Hash, Desired>)
    ensures forall k :: 0 <= k < |Matches(hashes, desired)| ==> Matches(hashes, desired)[k].path < |hashes|
  {
    if hashes != [] {
      MatchesInRange(hashes[..|hashes| - 1], desired);
    }
  }

  /** The layout that is there once the checks have passed and `call` was the last to install one. */
  function Installed(before: Config, desired: map<Hash, Desired>, env: Surroundings, call: Call): Config
    requires |env.hashes| == |before.paths| && Plannable(before, desired, env)
  {
    var matches := Matches(env.hashes, desired);
    if call.installs.Some? then call.installs.value else Rewrite(before, matches, OffsetOf(matches)).config
  }

  predicate Believable(r: Restore) {
    r.ok ==> r.effect
  }

  class Manager {
    var live: Config
    var sentinel: Option<Snapshot>
    var ackEvent: bool
    var applyInFlight: bool
    var currentApplyId: Id
    ghost var state: State
    ghost var origin: State
    ghost var trace: seq<Step>

    ghost predicate Tied()
      reads this
    {
      && state.live == live && state.sentinel == sentinel && state.ackSet == ackEvent
      && state.inFlight == applyInFlight && state.applyId == currentApplyId
    }

    /** The history is a disciplined run, so the write-ahead invariant holds. */
    ghost predicate Recorded()
      reads `state, `origin, `trace
    {
      Initial(origin) && DisciplinedRun(origin, trace, state)
    }

    ghost predicate Valid()
      reads this
    {
      Tied() && Recorded()
    }

    constructor (live: Config)
      ensures Valid() && this.live == live && state.phase == Idle && state.trials == []
    {
      this.live, sentinel, ackEvent, applyInFlight, currentApplyId := live, None, false, false, "";
      state := State(live, None, Idle, false, false, "", [], false);
      origin := State(live, None, Idle, false, false, "", [], false);
      trace := [];
    }

    ghost method Log(step: Step)
      requires Recorded() && Enabled(state, step) && Disciplined(state, step)
      modifies `state, `trace
      ensures Recorded() && state == Next(old(state), step)
    {
      ghost var before := trace;
      state, trace := Next(state, step), trace + [step];
      assert trace[..|trace| - 1] == before;
    }

    /** What the write-ahead invariant says of the state reached. */
    lemma Facts()
      requires Recorded()
      ensures |state.trials| <= 1
      ensures forall b :: state.trials == [b] ==> state.sentinel == Some(Saved(b))
      ensures state.phase.Returned? ==> state.sentinel == Some(state.phase.snap) && state.trials != []
      ensures state.phase.Waiting? ==> state.sentinel == Some(state.phase.snap)
      ensures state.phase.Idle? ==> !state.inFlight
    {
      WriteAhead(origin, trace, state);
    }

    /** What is to be installed, if every check passes: the live arrays rewritten. */
    method Plan(desired: map<Hash, Desired>, env: Surroundings) returns (requested: Option<Config>)
      requires |env.hashes| == |live.paths|
      ensures requested.Some? <==> Plannable(live, desired, env)
      ensures requested.Some? ==> Rewrites(live, requested.value, desired, env.hashes)
    {
      if !env.queried || !(forall h :: h in desired ==> Some(h) in env.hashes) {
        return None;
      }
      var c := live;
      var paths := new Path[|c.paths|](i requires 0 <= i < |c.paths| => c.paths[i]);
      var modes := new Mode[|c.modes|](i requires 0 <= i < |c.modes| => c.modes[i]);
      assert paths[..] == c.paths && modes[..] == c.modes;
      var converted, changes := ApplyDesiredToPaths(paths, modes, desired, env.hashes);
      if !converted || ActivePaths(paths[..]) == 0 || !env.validated {
        return None;
      }
      return Some(Config(paths[..], modes[..]));
    }

    /** The write sequence: nothing is installed before the old layout is on disk. */
    method ApplyCore(desired: map<Hash, Desired>, env: Surroundings) returns (ok: bool, sentinelWritten: bool)
      requires Valid() && state.phase.Prepared? && state.trials == [] && |env.hashes| == |live.paths|
      modifies `live, `sentinel, `state, `trace
      ensures Valid()
      ensures sentinelWritten ==> (state.phase == Returned(old(state.phase.auto), Saved(old(live)), ok)
                                   && sentinel == Some(Saved(old(live))) && state.trials == [old(live)])
      ensures sentinelWritten <==> Plannable(old(live), desired, env) && env.sentinelWritable
      ensures !sentinelWritten ==> !ok && state == old(state) && live == old(live) && sentinel == old(sentinel)
      ensures sentinelWritten ==>
                var last := if env.first.outcome == Retry then env.second else env.first;
                live == Installed(old(live), desired, env, last) && (ok <==> last.outcome == Success)
    {
      ok, sentinelWritten := false, false;
      var requested := Plan(desired, env);
      if requested.None? || !env.sentinelWritable {
        return;
      }
      sentinel, sentinelWritten := Some(Saved(live)), true;
      Log(WriteSentinel);
      ok := InstallTwice(requested.value, env);
    }

    /** Tried once more if the first call says it may be. */
    method InstallTwice(requested: Config, env: Surroundings) returns (ok: bool)
      requires Valid() && state.phase.Written? && state.trials == []
      modifies `live, `state, `trace
      ensures Valid() && state.phase == Returned(old(state.phase.auto), old(state.phase.snap), ok)
      ensures state.trials == [old(state.live)] && state.sentinel == old(state.sentinel)
      ensures var last := if env.first.outcome == Retry then env.second else env.first;
              && ok == (last.outcome == Success)
              && live == if last.installs.Some? then last.installs.value else requested
    {
      var outcome := Install(requested, env.first);
      if outcome == Retry {
        outcome := Install(requested, LastCall(env.second));
      }
      ok := outcome == Success;
    }

    /** One call to install a configuration; a failed verification afterwards counts as its failure. */
    method Install(requested: Config, call: Call) returns (outcome: Outcome)
      requires Valid() && (state.phase.Written? || state.phase.Retrying?)
      requires state.phase.Retrying? ==> call.outcome != Retry
      modifies `live, `state, `trace
      ensures Valid() && outcome == call.outcome
      ensures state == Next(old(state), CallApply(live, outcome))
      ensures live == if call.installs.Some? then call.installs.value else requested
    {
      live := if call.installs.Some? then call.installs.value else requested;
      Log(CallApply(live, call.outcome));
      outcome := call.outcome;
    }

    /** Restores what the sentinel holds, and deletes it only after a restore that succeeded. */
    method RestoreSentinel(restore: Restore) returns (ok: bool)
      requires Valid() && state.phase == Reverting(sentinel) && sentinel.Some? && Believable(restore)
      modifies `live, `sentinel, `applyInFlight, `state, `trace
      ensures Valid() && state.phase == Idle && !applyInFlight && ok == restore.ok
      ensures live == if restore.effect then Loaded(old(sentinel.value)) else old(live)
      ensures sentinel == if ok && restore.deletes then None else old(sentinel)
      ensures state.trials == if restore.effect then Popped(old(state.trials)) else old(state.trials)
    {
      Reinstall(restore);
      ok := restore.ok;
      if ok {
        Finish(restore.deletes);
      }
    }

    /** The call that reinstalls what the sentinel holds. */
    method Reinstall(restore: Restore)
      requires Valid() && state.phase == Reverting(sentinel) && sentinel.Some? && Believable(restore)
      modifies `live, `applyInFlight, `state, `trace
      ensures Valid() && state == Next(old(state), Revert(restore.effect, restore.ok))
      ensures live == if restore.effect then Loaded(sentinel.value) else old(live)
    {
      if restore.effect {
        live := Loaded(sentinel.value);
      }
      if !restore.ok {
        applyInFlight := false;
      }
      Log(Revert(restore.effect, restore.ok));
    }

    /** The sentinel is deleted (or its deletion fails), and nothing is in flight. */
    method Finish(deletes: bool)
      requires Valid() && state.phase.Cleaning?
      modifies `sentinel, `applyInFlight, `state, `trace
      ensures Valid() && state == Next(old(state), CleanUp(deletes))
      ensures sentinel == if deletes then None else old(sentinel)
    {
      if deletes {
        sentinel := None;
      }
      applyInFlight := false;
      Log(CleanUp(deletes));
    }

    /** After a failed apply: a sentinel written by it is used to revert at once; in session 0 so is one found. */
    method PutBack(sentinelWritten: bool, env: Surroundings)
      requires Valid() && Believable(env.restore)
      requires if sentinelWritten then state.phase.Returned? && !state.phase.ok else state.phase.Prepared?
      modifies `live, `sentinel, `applyInFlight, `state, `trace
      ensures Valid() && state.phase == Idle && !applyInFlight
      ensures live == old(live) || (old(sentinel).Some? && live == Loaded(old(sentinel).value) && state.trials == [])
      ensures state.trials != [] ==> state.trials == old(state.trials) && sentinel == old(sentinel)
      ensures var puts := old(sentinel).Some? && (sentinelWritten || env.session0);
              && live == (if puts && env.restore.effect then Loaded(old(sentinel).value) else old(live))
              && sentinel == (if puts && env.restore.ok && env.restore.deletes then None else old(sentinel))
    {
      Facts();
      if sentinelWritten {
        Log(Defend);
        var restored := RestoreSentinel(env.restore);
      } else if env.session0 && sentinel.Some? {
        Log(GiveUp(true));
        var restored := RestoreSentinel(env.restore);
      } else {
        applyInFlight := false;
        Log(GiveUp(false));
      }
    }

    /** After a successful one: the watchdog waits, or an auto-restore is over. */
    method Succeed(auto: bool, env: Surroundings)
      requires Valid() && state.phase.Returned? && state.phase.ok && state.phase.auto == auto
      modifies `sentinel, `applyInFlight, `state, `trace
      ensures Valid()
      ensures auto ==>
                && state.phase == Idle && state.trials == [] && !applyInFlight
                && sentinel == if env.restore.deletes then None else old(sentinel)
      ensures !auto ==>
                state == Next(old(state), Complete) && sentinel == old(sentinel) && applyInFlight == old(applyInFlight)
    {
      Log(Complete);
      if auto {
        Finish(env.restore.deletes);
      }
    }

    /** The apply ids are threaded through and the acknowledgement of any earlier apply is forgotten. */
    method Start(id: Id, auto: bool)
      requires Valid() && state.phase.Idle? && state.trials == []
      modifies `ackEvent, `applyInFlight, `currentApplyId, `state, `trace
      ensures Valid() && currentApplyId == id && applyInFlight && !ackEvent && state.phase == Prepared(auto)
              && state.trials == []
    {
      ackEvent := false;
      Log(Begin(auto));
      applyInFlight := true;
      Log(RaiseFlag);
      currentApplyId := id;
      Log(TakeId(id));
    }

    /** An apply from start to finish. It succeeds with the watchdog waiting and the old layout on disk, or, as an
        auto-restore, with nothing pending; whatever it fails with on trial, the old layout is on disk. */
    method ApplyTopology(desired: map<Hash, Desired>, id: Id, auto: bool, env: Surroundings) returns (ok: bool)
      requires Valid() && state.phase.Idle? && state.trials == []
      requires |env.hashes| == |live.paths| && Believable(env.restore)
      modifies `live, `sentinel, `ackEvent, `applyInFlight, `currentApplyId, `state, `trace
      ensures Valid() && currentApplyId == id
      ensures ok && !auto ==>
              state.phase == Waiting(Saved(old(live))) && applyInFlight && sentinel == Some(Saved(old(live)))
      ensures ok && auto ==>
                && state.phase == Idle && state.trials == [] && !applyInFlight
                && sentinel == if env.restore.deletes then None else Some(Saved(old(live)))
      ensures !ok ==> state.phase == Idle && !applyInFlight
      ensures var tried := !env.turnedAway && Plannable(old(live), desired, env) && env.sentinelWritable;
              var found := old(sentinel).Some? && !env.turnedAway && env.session0;
              var last := if env.first.outcome == Retry then env.second else env.first;
              && (ok <==> tried && last.outcome == Success)
              && (ok ==> live == Installed(old(live), desired, env, last))
              && (!ok && tried ==>
                    && live == (if env.restore.effect then Loaded(Saved(old(live)))
                                else Installed(old(live), desired, env, last))
                    && sentinel == if env.restore.ok && env.restore.deletes then None else Some(Saved(old(live))))
              && (!ok && !tried ==>
                    && live == (if found && env.restore.effect then Loaded(old(sentinel).value) else old(live))
                    && sentinel == if found && env.restore.ok && env.restore.deletes then None else old(sentinel))
      ensures !ok && state.trials != [] ==> state.trials == [old(live)] && sentinel == Some(Saved(old(live)))
    {
      Start(id, auto);
      ok := false;
      var sentinelWritten := false;
      if !env.turnedAway {
        ok, sentinelWritten := ApplyCore(desired, env);
      }
      if ok {
        Succeed(auto, env);
      } else if env.turnedAway {
        applyInFlight := false;
        Log(GiveUp(false));
      } else {
        PutBack(sentinelWritten, env);
      }
    }

    /** An acknowledgement; only one for the apply in flight, or for no apply in particular, is accepted. */
    method AckApply(named: Option<Id>) returns (accepted: bool)
      requires Valid()
      modifies `live, `sentinel, `ackEvent, `applyInFlight, `currentApplyId, `state, `trace
      ensures Valid() && state == Next(old(state), Ack(named))
      ensures accepted == (old(applyInFlight) && (named.Some? ==> named.value == currentApplyId))
      ensures ackEvent == (old(ackEvent) || accepted)
      ensures live == old(live) && sentinel == old(sentinel) && currentApplyId == old(currentApplyId)
    {
      accepted := false;
      Log(Ack(named));
      if !applyInFlight {
        return;
      }
      if named.Some? && named.value != currentApplyId {
        return;
      }
      ackEvent, accepted := true, true;
    }

    /** The end of the wait: acknowledged, the new layout stays and the sentinel goes; timed out, the old layout
        comes back, or the sentinel stays. */
    method Watchdog(restore: Restore)
      requires Valid() && state.phase.Waiting? && Believable(restore)
      modifies `live, `sentinel, `ackEvent, `applyInFlight, `currentApplyId, `state, `trace
      ensures Valid() && state.phase == Idle && !applyInFlight
      ensures old(ackEvent) ==> live == old(live) && state.trials == []
      ensures old(ackEvent) ==> sentinel == if restore.deletes then None else old(sentinel)
      ensures !old(ackEvent) ==> live == if restore.effect then Loaded(old(state.phase.snap)) else old(live)
      ensures !old(ackEvent) ==>
                sentinel == if restore.ok && restore.deletes then None else Some(old(state.phase.snap))
      ensures !old(ackEvent) && restore.effect ==> state.trials == []
    {
      Facts();
      if ackEvent {
        Log(Settle);
        Finish(restore.deletes);
      } else {
        Log(TimeOut(true));
        var restored := RestoreSentinel(restore);
      }
    }

    /** The process dies: what is in memory is gone, the display and the file remain. */
    method CrashAndRestart()
      requires Valid()
      modifies `live, `sentinel, `ackEvent, `applyInFlight, `currentApplyId, `state, `trace
      ensures Valid() && state.phase == Idle && !applyInFlight
      ensures live == old(live) && sentinel == old(sentinel) && state.trials == old(state.trials)
    {
      ackEvent, applyInFlight := false, false;
      Log(Crash);
    }

    /** Startup recovery: without a readable sentinel or a console session nothing changes; a restore that
        succeeds leaves nothing pending. */
    method ApplyRevertFromSentinel(readable: bool, console: bool, restore: Restore) returns (ok: bool)
      requires Valid() && state.phase.Idle? && Believable(restore)
      modifies `live, `sentinel, `ackEvent, `applyInFlight, `currentApplyId, `state, `trace
      ensures Valid() && state.phase == Idle
      ensures var tried := old(sentinel).Some? && readable && console;
              && (ok <==> tried && restore.ok)
              && live == (if tried && restore.effect then Loaded(old(sentinel).value) else old(live))
              && sentinel == (if ok && restore.deletes then None else old(sentinel))
              && (!tried ==> state == old(state))
      ensures ok ==> state.trials == []
      ensures forall b :: ok && old(state.trials) == [b] ==> live == Loaded(Saved(b))
    {
      Facts();
      if sentinel.None? || !readable || !console {
        return false;
      }
      Log(Recover);
      ok := RestoreSentinel(restore);
    }
  }
}
