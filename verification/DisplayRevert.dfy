/** Applying a display layout as a state machine that may crash between any two steps: the old layout is
    written to a sentinel file before the new one is applied, and the sentinel is deleted only once the new
    layout is acknowledged or the old one is back. */
module DisplayRevert {
  import opened Json
  import opened DisplayConfig

  type Id = string

  /** Where the code that applies, waits or restores has got to; all of it is lost in a crash. */
  datatype Phase =
    | Idle
    | Cleared(auto: bool)
    | Flagged(auto: bool)
    | Prepared(auto: bool)
    | Written(auto: bool, snap: Snapshot)
    | Retrying(auto: bool, snap: Snapshot)
    | Returned(auto: bool, snap: Snapshot, ok: bool)
    | Waiting(snap: Snapshot)
    | Reverting(target: Option<Snapshot>)
    | Cleaning

  /** `trials` is history: the layouts live just before each apply that is neither acknowledged, nor completed
      as an auto-restore, nor reverted, the latest last. `stale` is history too: the sentinel on disk belongs
      to an apply already acknowledged or completed. */
  datatype State = State(
    live: Config,
    sentinel: Option<Snapshot>,
    phase: Phase,
    ackSet: bool,
    inFlight: bool,
    applyId: Id,
    trials: seq<Config>,
    stale: bool)

  datatype Outcome = Success | Retry | Failure

  datatype Step =
    | Begin(auto: bool)
    | RaiseFlag
    | TakeId(id: Id)
    | GiveUp(defend: bool)
    | WriteSentinel
    | CallApply(result: Config, outcome: Outcome)
    | Complete
    | Defend
    | Ack(named: Option<Id>)
    | Settle
    | TimeOut(fromDisk: bool)
    | Revert(effect: bool, ok: bool)
    | CleanUp(deleted: bool)
    | Crash
    | Recover
    | Desktop(result: Config)

  predicate Accepts(s: State, id: Option<Id>) {
    s.inFlight && (id.Some? ==> id.value == s.applyId)
  }

  function Finished(s: State): State {
    s.(phase := Idle, inFlight := false)
  }

  function Popped(trials: seq<Config>): seq<Config> {
    if trials == [] then [] else trials[..|trials| - 1]
  }

  /** An apply begins only when none is under way, recovery runs only when nothing else does, and the display is
      changed by hand only when nothing is pending. */
  predicate Enabled(s: State, step: Step) {
    match step
    case Begin(_) => s.phase.Idle?
    case RaiseFlag => s.phase.Cleared?
    case TakeId(_) => s.phase.Flagged?
    case GiveUp(defend) => s.phase.Prepared? && (defend ==> s.sentinel.Some?)
    case WriteSentinel => s.phase.Prepared?
    case CallApply(_, outcome) => s.phase.Written? || (s.phase.Retrying? && outcome != Retry)
    case Complete => s.phase.Returned? && s.phase.ok
    case Defend => s.phase.Returned? && !s.phase.ok
    case Ack(_) => true
    case Settle => s.phase.Waiting? && s.ackSet
    case TimeOut(_) => s.phase.Waiting? && !s.ackSet
    case Revert(effect, ok) => s.phase.Reverting? && (effect ==> s.phase.target.Some?) && (ok ==> effect)
    case CleanUp(_) => s.phase.Cleaning?
    case Crash => true
    case Recover => s.phase.Idle? && s.sentinel.Some?
    case Desktop(_) => s.phase.Idle? && s.sentinel.None? && s.trials == []
  }

  function Next(s: State, step: Step): State
    requires Enabled(s, step)
  {
    match step
    case Begin(auto) => s.(phase := Cleared(auto), ackSet := false)
    case RaiseFlag => s.(phase := Flagged(s.phase.auto), inFlight := true)
    case TakeId(id) => s.(phase := Prepared(s.phase.auto), applyId := id)
    case GiveUp(defend) => if defend then s.(phase := Reverting(s.sentinel)) else Finished(s)
    case WriteSentinel =>
      var snap := Saved(s.live);
      s.(sentinel := Some(snap), phase := Written(s.phase.auto, snap), stale := false)
    case CallApply(result, outcome) =>
      s.(live := result,
         trials := if s.phase.Written? then s.trials + [s.live] else s.trials,
         phase := if outcome == Retry then Retrying(s.phase.auto, s.phase.snap)
                  else Returned(s.phase.auto, s.phase.snap, outcome == Success))
    case Complete =>
      if s.phase.auto then s.(phase := Cleaning, trials := [], stale := s.sentinel.Some?)
      else s.(phase := Waiting(s.phase.snap))
    case Defend => s.(phase := Reverting(s.sentinel))
    case Ack(id) => if Accepts(s, id) then s.(ackSet := true) else s
    case Settle => s.(phase := Cleaning, trials := [], stale := s.sentinel.Some?)
    case TimeOut(fromDisk) => s.(phase := Reverting(if fromDisk then s.sentinel else Some(s.phase.snap)))
    case Revert(effect, ok) =>
      var t := if effect then s.(live := Loaded(s.phase.target.value), trials := Popped(s.trials), stale := false)
          else s;
      if ok then t.(phase := Cleaning) else Finished(t)
    case CleanUp(deleted) =>
      Finished(if deleted then s.(sentinel := None, stale := false) else s)
    case Crash => Finished(s.(ackSet := false))
    case Recover => s.(phase := Reverting(s.sentinel))
    case Desktop(result) => s.(live := result)
  }

  predicate Initial(s: State) {
    s.sentinel == None && s.phase == Idle && !s.ackSet && !s.inFlight && s.trials == [] && !s.stale
  }

  /** No apply gets as far as writing its sentinel while an earlier one is unresolved, as after a crash whose
      recovery has not succeeded. */
  predicate Disciplined(s: State, step: Step) {
    step.WriteSentinel? ==> s.trials == []
  }

  ghost predicate Reaches(first: State, steps: seq<Step>, s: State) {
    if steps == [] then s == first
    else
      var n := |steps| - 1;
      exists before :: Reaches(first, steps[..n], before) && Enabled(before, steps[n]) && s == Next(before, steps[n])
  }

  ghost predicate DisciplinedRun(first: State, steps: seq<Step>, s: State) {
    if steps == [] then s == first
    else
      var n := |steps| - 1;
      exists before :: && DisciplinedRun(first, steps[..n], before) && Enabled(before, steps[n])
                       && Disciplined(before, steps[n]) && s == Next(before, steps[n])
  }

  /** Carries out `steps` one after another, if each is enabled in its turn. */
  function Run(s: State, steps: seq<Step>): Option<State>
    decreases |steps|
  {
    if steps == [] then Some(s)
    else if Enabled(s, steps[0]) then Run(Next(s, steps[0]), steps[1..])
    else None
  }

  // ---------- the sentinel is written ahead ----------

  /** Whenever the live layout is on trial, the sentinel holds the layout live just before. */
  predicate Guarded(s: State) {
    s.trials != [] ==> s.sentinel == Some(Saved(s.trials[|s.trials| - 1]))
  }

  /** What the sentinel holds was once a layout, and with nothing on trial it is the live one unless stale. */
  predicate SentinelSound(s: State) {
    s.sentinel.Some? ==>
      && Saved(Loaded(s.sentinel.value)) == s.sentinel.value
      && (s.trials == [] && !s.stale ==> s.sentinel.value == Saved(s.live))
  }

  predicate PhaseSound(s: State) {
    match s.phase
    case Idle => !s.inFlight
    case Cleared(_) => true
    case Flagged(_) => true
    case Prepared(_) => true
    case Written(_, snap) => s.trials == [] && s.sentinel == Some(snap) && snap == Saved(s.live) && !s.stale
    case Retrying(_, snap) => s.trials != [] && s.sentinel == Some(snap)
    case Returned(_, snap, _) => s.trials != [] && s.sentinel == Some(snap)
    case Waiting(snap) => s.trials != [] && s.sentinel == Some(snap)
    case Reverting(target) => target.Some? && s.sentinel == target
    case Cleaning => s.trials == []
  }

  predicate Invariant(s: State) {
    |s.trials| <= 1 && Guarded(s) && SentinelSound(s) && PhaseSound(s)
        && (s.stale ==> s.sentinel.Some? && s.trials == [])
  }

  lemma ModeSavedAgain(m: Mode)
    ensures SerializeMode(LoadMode(SerializeMode(m))) == SerializeMode(m)
  {
  }

  lemma PathSavedAgain(p: Path)
    ensures SerializePath(LoadPath(SerializePath(p))) == SerializePath(p)
  {
  }

  lemma {:induction false} SavedAgain(c: Config)
    ensures Saved(Loaded(Saved(c))) == Saved(c)
  {
    var snap, again := Saved(c), Saved(Loaded(Saved(c)));
    forall i | 0 <= i < |c.modes| ensures again.modes[i] == snap.modes[i] {
      ModeSavedAgain(c.modes[i]);
    }
    forall i | 0 <= i < |c.paths| ensures again.paths[i] == snap.paths[i] {
      PathSavedAgain(c.paths[i]);
    }
    assert again.paths == snap.paths && again.modes == snap.modes;
  }

  /** The steps of the write sequence. */
  predicate Writes(step: Step) {
    step.Begin? || step.RaiseFlag? || step.TakeId? || step.GiveUp? || step.WriteSentinel? || step.CallApply?
        || step.Complete? || step.Defend?
  }

  lemma WritesKeep(s: State, step: Step)
    requires Invariant(s) && Enabled(s, step) && Disciplined(s, step) && Writes(step)
    ensures Invariant(Next(s, step))
  {
    if step.WriteSentinel? {
      SavedAgain(s.live);
    }
  }

  lemma OthersKeep(s: State, step: Step)
    requires Invariant(s) && Enabled(s, step) && !Writes(step)
    ensures Invariant(Next(s, step))
  {
  }

  lemma {:induction false} StepKeeps(s: State, step: Step)
    requires Invariant(s) && Enabled(s, step) && Disciplined(s, step)
    ensures Invariant(Next(s, step))
  {
    if Writes(step) {
      WritesKeep(s, step);
    } else {
      OthersKeep(s, step);
    }
  }

  /** From such a state only one step can leave a layout on trial unguarded: writing a new sentinel over it, when
      the two hold different layouts. */
  lemma UnguardedExactly(s: State, step: Step)
    requires Invariant(s) && Enabled(s, step)
    ensures Guarded(Next(s, step))
       <==> !(step.WriteSentinel? && s.trials != [] && Saved(s.live) != Saved(s.trials[|s.trials| - 1]))
  {
    if Disciplined(s, step) {
      StepKeeps(s, step);
    }
  }

  /** Write-ahead: in every disciplined run, crashes and failed reverts included, whenever the live layout comes
      from an apply neither acknowledged nor completed, the sentinel on disk holds the layout it replaced. */
  lemma {:induction false} WriteAhead(first: State, steps: seq<Step>, s: State)
    requires Initial(first) && DisciplinedRun(first, steps, s)
    ensures Invariant(s)
  {
    if steps != [] {
      var n := |steps| - 1;
      var before :| && DisciplinedRun(first, steps[..n], before) && Enabled(before, steps[n])
                    && Disciplined(before, steps[n]) && s == Next(before, steps[n]);
      WriteAhead(first, steps[..n], before);
      StepKeeps(before, steps[n]);
    }
  }

  // ---------- recovery ----------

  const RECOVERY: seq<Step> := [Crash, Recover, Revert(true, true), CleanUp(true)]

  lemma {:induction false} RecoverySteps(s: State)
    requires s.sentinel.Some?
    ensures var up := Finished(s.(ackSet := false));
            && Run(s, RECOVERY) == Run(up, RECOVERY[1..])
            && Run(up, RECOVERY[1..]) == Run(up.(phase := Reverting(s.sentinel)), RECOVERY[2..])
  {
    RunStep(s, RECOVERY);
    RunStep(Next(s, Crash), RECOVERY[1..]);
  }

  lemma RecoveryEnds(s: State)
    requires s.phase.Reverting? && s.phase.target.Some?
    ensures Run(s, RECOVERY[2..])
         == Some(Finished(s.(live := Loaded(s.phase.target.value), sentinel := None, trials := Popped(s.trials),
            stale := false)))
  {
    RunStep(s, RECOVERY[2..]);
    RunStep(Next(s, Revert(true, true)), RECOVERY[3..]);
  }

  lemma {:induction false} RecoveryRuns(s: State)
    requires s.sentinel.Some?
    ensures Run(s, RECOVERY)
         == Some(State(Loaded(s.sentinel.value), None, Idle, false, false, s.applyId, Popped(s.trials), false))
  {
    RecoverySteps(s);
    RecoveryEnds(Finished(s.(ackSet := false)).(phase := Reverting(s.sentinel)));
  }

  /** From any such state, a crash and one successful recovery restore exactly the layout on trial (to what a
      snapshot keeps of it, which is all of it when it is savable); with nothing on trial they leave the live
      layout alone unless the sentinel was stale; nothing stays pending. */
  lemma {:induction false} RecoveryRestores(s: State)
    requires Invariant(s) && s.sentinel.Some?
    ensures Run(s, RECOVERY).Some?
    ensures var r := Run(s, RECOVERY).value;
            && r.trials == [] && r.sentinel == None && r.phase == Idle
            && (forall b :: s.trials == [b] ==> r.live == Loaded(Saved(b)) && (r.live == b <==> Savable(b)))
            && (s.trials == [] && !s.stale ==>
                 r.live == Loaded(Saved(s.live)) && (r.live == s.live <==> Savable(s.live)))
  {
    RecoveryRuns(s);
    RoundTrip(s.live);
    forall b | s.trials == [b] ensures Loaded(Saved(b)) == b <==> Savable(b) {
      RoundTrip(b);
    }
  }

  lemma RunStep(s: State, steps: seq<Step>)
    requires steps != [] && Enabled(s, steps[0])
    ensures Run(s, steps) == Run(Next(s, steps[0]), steps[1..])
    ensures |steps| == 1 ==> Run(s, steps) == Some(Next(s, steps[0]))
  {
  }

  // ---------- what the premises and the ordering do not give ----------

  lemma {:induction false} RunConcat(s: State, a: seq<Step>, b: seq<Step>)
    requires Run(s, a).Some?
    ensures Run(s, a + b) == Run(Run(s, a).value, b)
    decreases |a|
  {
    if a == [] {
      assert a + b == b;
    } else {
      assert (a + b)[1..] == a[1..] + b;
      RunConcat(Next(s, a[0]), a[1..], b);
    }
  }

  /** An apply that goes well and waits. */
  function Apply(id: Id, result: Config): seq<Step> {
    [Begin(false), RaiseFlag, TakeId(id)] + [WriteSentinel, CallApply(result, Success), Complete]
  }

  /** Never acknowledged, it is put back. */
  const PUT_BACK: seq<Step> := [TimeOut(true), Revert(true, true), CleanUp(true)]

  lemma StartRuns(s: State, id: Id)
    requires s.phase.Idle?
    ensures Run(s, [Begin(false), RaiseFlag, TakeId(id)])
         == Some(s.(phase := Prepared(false), ackSet := false, inFlight := true, applyId := id))
  {
    var steps := [Begin(false), RaiseFlag, TakeId(id)];
    var s1 := Next(s, steps[0]);
    var s2 := Next(s1, steps[1]);
    RunStep(s, steps);
    RunStep(s1, steps[1..]);
    RunStep(s2, steps[2..]);
  }

  lemma InstallRuns(s: State, result: Config)
    requires s.phase == Prepared(false)
    ensures Run(s, [WriteSentinel, CallApply(result, Success), Complete])
         == Some(s.(live := result, sentinel := Some(Saved(s.live)), phase := Waiting(Saved(s.live)),
                    trials := s.trials + [s.live], stale := false))
  {
    var steps := [WriteSentinel, CallApply(result, Success), Complete];
    var s1 := Next(s, steps[0]);
    var s2 := Next(s1, steps[1]);
    RunStep(s, steps);
    RunStep(s1, steps[1..]);
    RunStep(s2, steps[2..]);
  }

  lemma ApplyRuns(s: State, id: Id, result: Config)
    requires s.phase.Idle?
    ensures Run(s, Apply(id, result))
         == Some(State(result, Some(Saved(s.live)), Waiting(Saved(s.live)), false, true, id, s.trials + [s.live],
            false))
  {
    StartRuns(s, id);
    RunConcat(s, [Begin(false), RaiseFlag, TakeId(id)], [WriteSentinel, CallApply(result, Success), Complete]);
    InstallRuns(s.(phase := Prepared(false), ackSet := false, inFlight := true, applyId := id), result);
  }

  lemma PutBackRuns(s: State)
    requires s.phase.Waiting? && !s.ackSet && s.sentinel.Some?
    ensures Run(s, PUT_BACK)
            == Some(State(Loaded(s.sentinel.value), None, Idle, false, false, s.applyId, Popped(s.trials), false))
  {
    var s1 := Next(s, PUT_BACK[0]);
    var s2 := Next(s1, PUT_BACK[1]);
    RunStep(s, PUT_BACK);
    RunStep(s1, PUT_BACK[1..]);
    RunStep(s2, PUT_BACK[2..]);
  }

  /** Begun while an earlier layout is on trial, an apply that runs its course and is put back leaves that
      layout on trial with no sentinel: the premise is needed, exactly. */
  lemma UnresolvedIsStranded(s: State, id: Id, result: Config)
    requires Invariant(s) && s.phase.Idle?
    ensures var r := Run(s, Apply(id, result) + PUT_BACK);
            r.Some? && r.value.trials == s.trials && (Guarded(r.value) <==> s.trials == [])
  {
    ApplyRuns(s, id, result);
    RunConcat(s, Apply(id, result), PUT_BACK);
    PutBackRuns(Run(s, Apply(id, result)).value);
    assert Popped(s.trials + [s.live]) == s.trials;
  }

  // ---------- what an acknowledgement is worth ----------

  /** The agent's own steps up to the next apply: nothing begins, and nobody changes the display by hand. */
  predicate Undisturbed(steps: seq<Step>) {
    forall step :: step in steps ==> !step.Begin? && !step.Desktop?
  }

  /** Some restore took effect. */
  predicate Restored(steps: seq<Step>) {
    exists i :: 0 <= i < |steps| && steps[i].Revert? && steps[i].effect
  }

  predicate Recovers(steps: seq<Step>) {
    exists i :: 0 <= i < |steps| && steps[i].Recover?
  }

  /** From here on, without another apply, only the sentinel of the layout before (`b`) can be restored. */
  predicate Settling(s: State, b: Config) {
    && (s.phase.Returned? || s.phase.Waiting? || s.phase.Reverting? || s.phase.Cleaning? || s.phase.Idle?)
    && (s.sentinel.Some? ==> s.sentinel.value == Saved(b))
    && (s.phase.Returned? ==> s.sentinel == Some(s.phase.snap))
    && (s.phase.Waiting? ==> s.sentinel == Some(s.phase.snap))
    && (s.phase.Reverting? ==> s.sentinel.Some? && s.phase.target == s.sentinel)
  }

  lemma SettlingStep(s: State, b: Config, step: Step)
    requires Settling(s, b) && Enabled(s, step) && !step.Begin? && !step.Desktop?
    ensures Settling(Next(s, step), b)
    ensures Next(s, step).live == if step.Revert? && step.effect then Loaded(Saved(b)) else s.live
    ensures s.sentinel == None ==> Next(s, step).sentinel == None && !step.Revert?
  {
  }

  /** Whatever the agent does up to the next apply, the live layout is the one it is, unless a restore takes
      effect, and then it is the one before. */
  lemma {:induction false} OutcomeOfTrial(s: State, b: Config, steps: seq<Step>, t: State)
    requires Settling(s, b) && Reaches(s, steps, t) && Undisturbed(steps)
    ensures Settling(t, b) && t.live == if Restored(steps) then Loaded(Saved(b)) else s.live
    ensures s.sentinel == None ==> t.sentinel == None && !Restored(steps)
  {
    if steps != [] {
      var n := |steps| - 1;
      var before :| Reaches(s, steps[..n], before) && Enabled(before, steps[n]) && t == Next(before, steps[n]);
      assert forall step :: step in steps[..n] ==> step in steps;
      OutcomeOfTrial(s, b, steps[..n], before);
      assert steps[n] in steps;
      SettlingStep(before, b, steps[n]);
      LastRestores(steps);
    }
  }

  lemma LastRestores(steps: seq<Step>)
    requires steps != []
    ensures var n := |steps| - 1;
            Restored(steps) <==> Restored(steps[..n]) || (steps[n].Revert? && steps[n].effect)
  {
    var n := |steps| - 1;
    if Restored(steps[..n]) {
      var i :| 0 <= i < n && steps[..n][i].Revert? && steps[..n][i].effect;
      assert steps[i].Revert? && steps[i].effect;
    }
  }

  /** A restore can still take effect: exactly while the sentinel is on disk. */
  lemma RestorableWhileSentinel(s: State, b: Config)
    requires Settling(s, b)
    ensures (exists steps, t :: Reaches(s, steps, t) && Undisturbed(steps) && Restored(steps)) <==> s.sentinel.Some?
  {
    forall steps, t | Reaches(s, steps, t) && Undisturbed(steps) && Restored(steps) ensures s.sentinel.Some? {
      OutcomeOfTrial(s, b, steps, t);
    }
    if s.sentinel.Some? {
      var steps, t := ARestore(s);
      assert Reaches(s, steps, t) && Undisturbed(steps) && Restored(steps);
    }
  }

  lemma Extend(s: State, path: seq<Step>, before: State, step: Step) returns (steps: seq<Step>, t: State)
    requires Reaches(s, path, before) && Enabled(before, step)
    ensures steps == path + [step] && t == Next(before, step) && Reaches(s, steps, t)
  {
    steps, t := path + [step], Next(before, step);
    assert steps[..|steps| - 1] == path;
  }

  lemma ARestore(s: State) returns (steps: seq<Step>, t: State)
    requires s.sentinel.Some?
    ensures Reaches(s, steps, t) && Undisturbed(steps) && Restored(steps)
  {
    steps, t := Extend(s, [], s, Crash);
    steps, t := Extend(s, steps, t, Recover);
    steps, t := Extend(s, steps, t, Revert(true, true));
    assert steps == [Crash, Recover, Revert(true, true)];
    assert steps[2].Revert? && steps[2].effect;
  }

  /** While the watchdog waits, an accepted acknowledgement ends the wait for good: the layout it is given for is
      kept until a recovery takes effect, and none can once the sentinel is gone. */
  lemma {:induction false} AcknowledgedInTime(s: State, id: Option<Id>, b: Config, steps: seq<Step>, t: State)
    requires Invariant(s) && Accepts(s, id) && s.trials == [b] && s.phase.Waiting?
    requires Reaches(Next(s, Ack(id)), steps, t) && Undisturbed(steps)
    ensures t.live == if Restored(steps) then Loaded(Saved(b)) else s.live
    ensures Restored(steps) ==> Recovers(steps)
    ensures (exists more, u :: Reaches(t, more, u) && Undisturbed(more) && Restored(more)) <==> t.sentinel.Some?
    ensures forall more, u :: t.sentinel == None && Reaches(t, more, u) && Undisturbed(more) ==> u.live == t.live
  {
    var acked := Next(s, Ack(id));
    OutcomeOfTrial(acked, b, steps, t);
    RestoredAfterRecovery(acked, steps, t);
    RestorableWhileSentinel(t, b);
    forall more, u | t.sentinel == None && Reaches(t, more, u) && Undisturbed(more) ensures u.live == t.live {
      OutcomeOfTrial(t, b, more, u);
    }
  }

  lemma {:induction false} RestoredAfterRecovery(s: State, steps: seq<Step>, t: State)
    requires s.phase.Waiting? && s.ackSet && Reaches(s, steps, t) && Undisturbed(steps)
    ensures !Recovers(steps) ==> !Restored(steps)
    ensures !Recovers(steps) ==> (t.phase.Waiting? && t.ackSet) || t.phase.Cleaning? || t.phase.Idle?
  {
    if steps != [] {
      var n := |steps| - 1;
      var before :| Reaches(s, steps[..n], before) && Enabled(before, steps[n]) && t == Next(before, steps[n]);
      assert forall step :: step in steps[..n] ==> step in steps;
      RestoredAfterRecovery(s, steps[..n], before);
      assert steps[n] in steps;
      LastRestores(steps);
      if Recovers(steps[..n]) {
        var i :| 0 <= i < n && steps[..n][i].Recover?;
        assert steps[i].Recover?;
      }
    }
  }

  /** Once the watchdog reverts, an accepted acknowledgement keeps the layout exactly if neither that revert nor
      a later recovery takes effect. */
  lemma {:induction false} AcknowledgedTooLate(s: State, id: Option<Id>, b: Config, steps: seq<Step>, t: State)
    requires Invariant(s) && Accepts(s, id) && s.trials == [b] && s.phase.Reverting?
    requires Reaches(Next(s, Ack(id)), steps, t) && Undisturbed(steps)
    ensures t.live == if Restored(steps) then Loaded(Saved(b)) else s.live
    ensures s.live != Loaded(Saved(b)) ==> (t.live == s.live <==> !Restored(steps))
    ensures (exists more, u :: Reaches(t, more, u) && Undisturbed(more) && Restored(more)) <==> t.sentinel.Some?
  {
    OutcomeOfTrial(Next(s, Ack(id)), b, steps, t);
    RestorableWhileSentinel(t, b);
  }

  /** An acknowledgement the agent has accepted does not survive a crash before the sentinel is deleted: the
      next start puts the old layout back. */
  lemma AcknowledgedThenUndone(s: State, b: Config)
    requires Invariant(s) && s.phase.Waiting? && s.inFlight && s.trials == [b]
    ensures var steps := [Ack(None), Settle] + RECOVERY;
            && Accepts(s, None)
            && Run(s, steps).Some? && Run(s, steps).value.live == Loaded(Saved(b))
  {
    var steps := [Ack(None), Settle] + RECOVERY;
    var s1 := Next(s, Ack(None));
    var s2 := Next(s1, Settle);
    RunStep(s, steps);
    RunStep(s1, steps[1..]);
    assert steps[1..][1..] == RECOVERY;
    RecoveryRuns(s2);
  }

  /** An acknowledgement that arrives once the watchdog has started to revert is accepted, and lost. */
  lemma LateAcknowledgement(s: State, b: Config, fromDisk: bool)
    requires Invariant(s) && s.phase.Waiting? && s.inFlight && !s.ackSet && s.trials == [b]
    ensures var s1 := Next(s, TimeOut(fromDisk));
            && Accepts(s1, Some(s.applyId))
            && Enabled(Next(s1, Ack(Some(s.applyId))), Revert(true, true))
            && Next(Next(s1, Ack(Some(s.applyId))), Revert(true, true)).live == Loaded(Saved(b))
  {
  }

  /** Acknowledgements that name other applies, however many, change nothing; what ends the wait without a
      revert is one that names this apply, or none. */
  lemma {:induction false} OtherAcksChangeNothing(s: State, acks: seq<Step>, named: Option<Id>)
    requires s.phase.Waiting? && s.inFlight && !s.ackSet
    requires forall ack :: ack in acks ==> ack.Ack? && !Accepts(s, ack.named)
    ensures Run(s, acks) == Some(s) && !Enabled(s, Settle)
    ensures Enabled(Next(s, Ack(named)), Settle) <==> named.None? || named.value == s.applyId
  {
    if acks != [] {
      assert acks[0] in acks && Next(s, acks[0]) == s;
      OtherAcksChangeNothing(s, acks[1..], named);
    }
  }

  /** While an apply is being started, between its flag and its id, the id that is accepted is that of the apply
      before it, and the acknowledgement counts for the new one: its wait ends without a revert. */
  lemma OldIdWindow(s: State, id: Id, result: Config)
    requires s.phase.Idle?
    ensures var flagged := Next(Next(s, Begin(false)), RaiseFlag);
            && (forall x :: Accepts(flagged, Some(x)) <==> x == s.applyId)
            && var acked := Next(flagged, Ack(Some(s.applyId)));
            && Enabled(acked, TakeId(id))
            && var r := Run(Next(acked, TakeId(id)), [WriteSentinel, CallApply(result, Success), Complete]);
            && r.Some? && r.value.live == result && r.value.applyId == id
            && Enabled(r.value, Settle) && !Enabled(r.value, TimeOut(true))
  {
    var acked := Next(Next(Next(s, Begin(false)), RaiseFlag), Ack(Some(s.applyId)));
    InstallRuns(Next(acked, TakeId(id)), result);
  }

  /** A layout changed by hand is the one the next apply keeps to go back to. */
  lemma HandChangeIsKept(s: State, result: Config, auto: bool, id: Id)
    requires Enabled(s, Desktop(result))
    ensures var begun := Next(Next(s, Desktop(result)), Begin(auto));
            var ready := Next(Next(begun, RaiseFlag), TakeId(id));
            Next(ready, WriteSentinel).sentinel == Some(Saved(result)) && ready.live == result
  {
  }
}
