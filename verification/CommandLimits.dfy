/** Where command delivery stops promising: for each premise of `AtMostOnce`, a run that keeps to all the others
    and runs a command twice; and the entries a restart leaves without a terminal status. */
module CommandLimits {
  import opened Json
  import opened CommandDelivery

  const START: State := State(map[], map[], {}, [], {}, map[], {}, None, false, 0, map[], [], {})

  ghost predicate Via(premises: set<Premise>, steps: seq<Step>, s: State) {
    RunKeeping(premises, START, steps, s)
  }

  /** A run from a fresh start that keeps to every premise but one, and executes the command twice. */
  ghost predicate RunsTwiceWithout(premise: Premise, steps: seq<Step>, s: State, id: Id) {
    Via(RELIABLE - {premise}, steps, s) && s.executed == [id, id]
  }

  lemma Extend(premises: set<Premise>, steps: seq<Step>, before: State, step: Step) returns (more: seq<Step>)
    requires Via(premises, steps, before) && Enabled(before, step)
    requires forall premise :: premise in premises ==> KeepsTo(before, step, premise)
    ensures Via(premises, more, Next(before, step))
  {
    more := steps + [step];
    assert more[..|more| - 1] == steps;
  }

  /** A step no premise speaks of. */
  predicate Free(step: Step) {
    step.Tick? || step.PollRead? || step.Execute? || step.ReportProgress? || step.Finish? || step.CleanCompleted?
        || step.Crash?
  }

  lemma ExtendFreely(premises: set<Premise>, steps: seq<Step>, before: State, step: Step) returns (more: seq<Step>)
    requires Via(premises, steps, before) && Enabled(before, step) && Free(step)
    ensures Via(premises, more, Next(before, step))
  {
    more := Extend(premises, steps, before, step);
  }

  // ---------- stretches of a run ----------

  /** An agent started, at time 1. */
  lemma StartUp(premises: set<Premise>) returns (steps: seq<Step>, s: State)
    ensures Via(premises, steps, s) && s == START.(up := true, clock := 1)
  {
    steps := Extend(premises, [], START, Restart(true, {}, {}));
    var s1 := Next(START, Restart(true, {}, {}));
    RestartPlain(START, true);
    steps := ExtendFreely(premises, steps, s1, Tick(1));
    s := Next(s1, Tick(1));
  }

  /** A restart with nothing to fail only comes up, seeded or not. */
  lemma RestartPlain(s: State, seeded: bool)
    ensures RestartSpec(s, seeded, {}, {}) == s.(up := true, seen := if seeded then s.completed.Keys else {})
  {
    var r := RestartSpec(s, seeded, {}, {});
    assert r.completed == s.completed && r.pending == s.pending;
  }

  /** A poll that finds one new command. */
  lemma PollOnce(premises: set<Premise>, path: seq<Step>, before: State, id: Id) returns (steps: seq<Step>, s: State)
    requires Via(premises, path, before) && before.up && before.readings == []
    requires before.pending.Keys == {id} && id !in before.seen
    ensures Via(premises, steps, s)
    ensures s == before.(seen := {id}, lane := before.lane + {id})
  {
    steps := ExtendFreely(premises, path, before, PollRead);
    var s1 := Next(before, PollRead);
    assert s1.readings == [{id}] && |{id}| == 1;
    steps := Extend(premises, steps, s1, PollDeliver(0, {}));
    s := Next(s1, PollDeliver(0, {}));
    assert {id} - before.seen == {id};
  }

  /** The marker is tried and the handler called. */
  lemma RunOnce(premises: set<Premise>, path: seq<Step>, before: State, id: Id, marked: bool)
    returns (steps: seq<Step>, s: State)
    requires Via(premises, path, before) && before.up && id in before.lane && id !in before.active
    requires marked || Markers !in premises
    ensures Via(premises, steps, s)
    ensures s == before.(lane := before.lane - {id}, active := before.active[id := Called],
                         executed := before.executed + [id],
                         completed :=
                           if marked then WithRunning(before.completed, id, before.clock) else before.completed)
  {
    steps := Extend(premises, path, before, MarkRunning(id, marked));
    var s1 := Next(before, MarkRunning(id, marked));
    steps := ExtendFreely(premises, steps, s1, Execute(id));
    s := Next(s1, Execute(id));
    assert s1.active[id := Called] == before.active[id := Called];
  }

  /** One command submitted, polled, marked (or not) and handed to its handler. */
  lemma RunOne(premises: set<Premise>, id: Id, stamped: bool, marked: bool) returns (steps: seq<Step>, s: State)
    requires marked || Markers !in premises
    requires stamped || Stamped !in premises
    ensures Via(premises, steps, s)
    ensures var at := if stamped then 1 else 0;
            s == START.(up := true, clock := 1, pending := map[id := at], born := map[id := at], seen := {id},
                        active := map[id := Called], executed := [id],
                        completed := if marked then map[id := Entry(Running, 1, 0)] else map[])
  {
    var s0, s1;
    steps, s0 := StartUp(premises);
    steps := Extend(premises, steps, s0, Submit(id, stamped));
    s0 := Next(s0, Submit(id, stamped));
    assert s0.pending.Keys == {id};
    steps, s1 := PollOnce(premises, steps, s0, id);
    assert s1.lane == {id};
    steps, s := RunOnce(premises, steps, s1, id, marked);
    assert s.lane == {} && s.active == map[id := Called] && s.executed == [id];
  }

  /** A crash, and a startup that finds the completed document as it is (`seeded`) or does not. */
  lemma CrashAndRestart(premises: set<Premise>, path: seq<Step>, before: State, seeded: bool)
    returns (steps: seq<Step>, s: State)
    requires Via(premises, path, before) && before.up && (seeded || Seeded !in premises)
    ensures Via(premises, steps, s)
    ensures s
            == before.(seen := if seeded then before.completed.Keys else {}, readings := [], lane := {},
                       active := map[], cancelled := {}, cleaning := None)
  {
    steps := ExtendFreely(premises, path, before, Crash);
    var s1 := Next(before, Crash);
    steps := Extend(premises, steps, s1, Restart(seeded, {}, {}));
    s := Next(s1, Restart(seeded, {}, {}));
    RestartPlain(s1, seeded);
  }

  lemma PollAndRun(premises: set<Premise>, path: seq<Step>, before: State, id: Id) returns (steps: seq<Step>, s: State)
    requires Via(premises, path, before) && before.up && before.readings == []
    requires before.pending.Keys == {id} && id !in before.seen && id !in before.active
    ensures Via(premises, steps, s) && s.executed == before.executed + [id]
  {
    var s1;
    steps, s1 := PollOnce(premises, path, before, id);
    steps, s := RunOnce(premises, steps, s1, id, true);
  }

  // ---------- each premise is needed ----------

  /** Two polls read, the first before a command has finished and the second after. If the second delivers first,
      the finished command is forgotten, and the first delivers it again. */
  lemma PollsOutOfOrder(id: Id, other: Id) returns (steps: seq<Step>, s: State)
    requires other != id
    ensures RunsTwiceWithout(InOrder, steps, s, id)
  {
    var ps := RELIABLE - {InOrder};
    var s0, s2;
    steps, s0 := RunOne(ps, id, true, true);
    assert s0.pending.Keys == {id};
    steps, s2 := ReadThenFinish(ps, steps, s0, id);
    steps := Extend(ps, steps, s2, Submit(other, true));
    var s3 := Next(s2, Submit(other, true));
    steps := ExtendFreely(ps, steps, s3, PollRead);
    assert s3.pending.Keys == {other} && s3.readings + [{other}] == [{id}, {other}];
    steps, s := DeliverSecondFirst(ps, steps, Next(s3, PollRead), id, other);
    assert s.executed == [id] + [id];
  }

  lemma ReadThenFinish(premises: set<Premise>, path: seq<Step>, before: State, id: Id)
    returns (steps: seq<Step>, s: State)
    requires Via(premises, path, before) && before.up && before.readings == []
    requires before.pending.Keys == {id} && id in before.active
    ensures Via(premises, steps, s)
    ensures s == before.(readings := [{id}], pending := map[], active := before.active - {id},
                         cancelled := before.cancelled - {id}, completed := s.completed)
  {
    steps := ExtendFreely(premises, path, before, PollRead);
    var s1 := Next(before, PollRead);
    steps := ExtendFreely(premises, steps, s1, Finish(id, Completed, true, true));
    s := Next(s1, Finish(id, Completed, true, true));
    assert s.pending == map[];
  }

  lemma DeliverSecondFirst(premises: set<Premise>, path: seq<Step>, before: State, id: Id, other: Id)
    returns (steps: seq<Step>, s: State)
    requires Via(premises, path, before) && InOrder !in premises && other != id
    requires before.up && before.readings == [{id}, {other}] && id !in before.active
    ensures Via(premises, steps, s) && s.executed == before.executed + [id]
  {
    assert |{id}| == 1 && |{other}| == 1;
    steps := Extend(premises, path, before, PollDeliver(1, {}));
    var s1 := Next(before, PollDeliver(1, {}));
    assert s1.readings == [{id}] && s1.seen == {other};
    steps := Extend(premises, steps, s1, PollDeliver(0, {}));
    var s2 := Next(s1, PollDeliver(0, {}));
    assert id in {id} - s1.seen;
    steps, s := RunOnce(premises, steps, s2, id, true);
  }

  lemma ReadThenClean(premises: set<Premise>, path: seq<Step>, before: State, id: Id)
    returns (steps: seq<Step>, s: State)
    requires Via(premises, path, before) && QuietCleanup !in premises
    requires before.up && before.pending == map[id := 1] && before.seen == {id} && before.readings == []
    requires before.clock == PENDING_TTL + 2
    ensures Via(premises, steps, s)
    ensures s.up && s.readings == [{id}] && s.seen == {} && s.active == before.active && s.executed == before.executed
  {
    steps := ExtendFreely(premises, path, before, PollRead);
    var s1 := Next(before, PollRead);
    assert before.pending.Keys == {id};
    assert s1.readings == [{id}] && StalePending(s1) == {id};
    steps := Extend(premises, steps, s1, CleanPending({id}, false));
    s := Next(s1, CleanPending({id}, false));
  }

  /** A poll reads the command after it has been running for an hour, the cleanup runs, the callback runs. */
  lemma ReadCleanDeliver(premises: set<Premise>, path: seq<Step>, before: State, id: Id)
    returns (steps: seq<Step>, s: State)
    requires Via(premises, path, before) && QuietCleanup !in premises
    requires before.up && before.clock == 1 && before.pending == map[id := 1] && before.seen == {id}
    requires before.readings == [] && before.active == map[id := Called]
    ensures Via(premises, steps, s)
    ensures s.up && id in s.lane && s.active == before.active && s.executed == before.executed
  {
    var s2;
    steps := ExtendFreely(premises, path, before, Tick(PENDING_TTL + 1));
    steps, s2 := ReadThenClean(premises, steps, Next(before, Tick(PENDING_TTL + 1)), id);
    assert |{id}| == 1;
    steps := Extend(premises, steps, s2, PollDeliver(0, {}));
    s := Next(s2, PollDeliver(0, {}));
    assert id in {id} - s2.seen;
  }

  /** A cleanup of pending that falls between a poll's read and its callback forgets a command the snapshot
      still holds: one that has been running for an hour is dispatched a second time. */
  lemma CleanupDuringPoll(id: Id) returns (steps: seq<Step>, s: State)
    ensures RunsTwiceWithout(QuietCleanup, steps, s, id)
  {
    var ps := RELIABLE - {QuietCleanup};
    var s0, s1;
    steps, s0 := RunOne(ps, id, true, true);
    steps, s1 := ReadCleanDeliver(ps, steps, s0, id);
    var finish := Finish(id, Completed, true, true);
    steps := ExtendFreely(ps, steps, s1, finish);
    steps, s := RunOnce(ps, steps, Next(s1, finish), id, true);
    assert s.executed == [id] + [id];
  }

  /** A command without a timestamp never goes stale. Finished but not deleted from pending, it outlives its entry
      in the completed document, and the cleanup that expires the entry has it forgotten. */
  lemma Unstamped(id: Id) returns (steps: seq<Step>, s: State)
    ensures RunsTwiceWithout(Stamped, steps, s, id)
  {
    var ps := RELIABLE - {Stamped};
    var s0;
    steps, s0 := RunOne(ps, id, false, true);
    var finish := Finish(id, Completed, true, false);
    steps := ExtendFreely(ps, steps, s0, finish);
    var s1 := Next(s0, finish);
    assert s1.completed == map[id := Entry(Done(Completed), 1, 1)] && s1.pending == map[id := 0];
    var s2;
    steps, s2 := ExpireEntry(ps, steps, s1, id);
    assert s2.pending.Keys == {id};
    steps, s := PollAndRun(ps, steps, s2, id);
    assert s.executed == [id] + [id];
  }

  /** A day after it finished, the cleanup expires a command's entry and has it forgotten. */
  lemma ExpireEntry(premises: set<Premise>, path: seq<Step>, before: State, id: Id) returns (steps: seq<Step>, s: State)
    requires Via(premises, path, before) && before.up && before.readings == []
    requires before.clock == 1 && before.pending == map[id := 0]
    requires before.completed == map[id := Entry(Done(Completed), 1, 1)]
    ensures Via(premises, steps, s)
    ensures s.up && s.readings == [] && s.pending == before.pending && s.active == before.active
    ensures s.executed == before.executed && id !in s.seen
  {
    steps := ExtendFreely(premises, path, before, Tick(COMPLETED_TTL + 1));
    var s1 := Next(before, Tick(COMPLETED_TTL + 1));
    assert StalePending(s1) == {};
    steps := Extend(premises, steps, s1, CleanPending({}, false));
    var s2 := Next(s1, CleanPending({}, false));
    assert s2.pending == s1.pending && s2.cleaning == Some(s1.clock) && OldCompleted(s2, s1.clock) == {id};
    steps := ExtendFreely(premises, steps, s2, CleanCompleted({id}, false));
    s := Next(s2, CleanCompleted({id}, false));
  }

  /** Without its running marker a command that was cut short by a crash runs again. */
  lemma MarkerLost(id: Id) returns (steps: seq<Step>, s: State)
    ensures RunsTwiceWithout(Markers, steps, s, id)
  {
    var ps := RELIABLE - {Markers};
    var s0, s1;
    steps, s0 := RunOne(ps, id, true, false);
    steps, s1 := CrashAndRestart(ps, steps, s0, true);
    assert s1.pending.Keys == {id};
    steps, s := PollAndRun(ps, steps, s1, id);
    assert s.executed == [id] + [id];
  }

  /** Without the seed read at startup so does one whose marker was written. */
  lemma SeedUnread(id: Id) returns (steps: seq<Step>, s: State)
    ensures RunsTwiceWithout(Seeded, steps, s, id)
  {
    var ps := RELIABLE - {Seeded};
    var s0, s1;
    steps, s0 := RunOne(ps, id, true, true);
    steps, s1 := CrashAndRestart(ps, steps, s0, false);
    assert s1.pending.Keys == {id};
    steps, s := PollAndRun(ps, steps, s1, id);
    assert s.executed == [id] + [id];
  }

  // ---------- the cap ----------

  function Name(n: nat): Id {
    seq(n, _ => 'x')
  }

  function Names(n: nat): set<Id> {
    if n == 0 then {} else Names(n - 1) + {Name(n - 1)}
  }

  lemma {:induction false} NamesAre(n: nat)
    ensures |Names(n)| == n
    ensures forall id :: id in Names(n) ==> |id| < n
    ensures forall k :: 0 <= k < n ==> Name(k) in Names(n)
  {
    if n > 0 {
      NamesAre(n - 1);
      assert |Name(n - 1)| == n - 1;
    }
  }

  lemma {:induction false} Subset(ids: set<Id>, n: nat) returns (some: set<Id>)
    requires n <= |ids|
    ensures some <= ids && |some| == n
  {
    if n == 0 {
      some := {};
    } else {
      var id :| id in ids;
      some := Subset(ids - {id}, n - 1);
      some := some + {id};
    }
  }

  function AllAtOne(n: nat): map<Id, nat> {
    if n == 0 then map[] else AllAtOne(n - 1)[Name(n - 1) := 1]
  }

  lemma {:induction false} AllAreNamed(n: nat)
    ensures AllAtOne(n).Keys == Names(n) && Name(n) !in AllAtOne(n)
  {
    NamesAre(n);
    assert |Name(n)| == n;
    if n > 0 {
      AllAreNamed(n - 1);
    }
  }

  /** `n` commands submitted one after another, at time 1. */
  lemma {:induction false} SubmitMany(premises: set<Premise>, n: nat) returns (steps: seq<Step>, s: State)
    ensures Via(premises, steps, s)
    ensures s == START.(up := true, clock := 1, pending := AllAtOne(n), born := AllAtOne(n))
  {
    if n == 0 {
      steps, s := StartUp(premises);
    } else {
      var s0;
      steps, s0 := SubmitMany(premises, n - 1);
      AllAreNamed(n - 1);
      steps := Extend(premises, steps, s0, Submit(Name(n - 1), true));
      s := Next(s0, Submit(Name(n - 1), true));
    }
  }

  /** A poll of more commands than the cap dispatches them all and remembers 500, which ones is not specified. */
  lemma PollMany(premises: set<Premise>, path: seq<Step>, before: State, ids: set<Id>, keep: set<Id>)
    returns (steps: seq<Step>, s: State)
    requires Via(premises, path, before) && UnderCap !in premises
    requires before.up && before.readings == [] && before.pending.Keys == ids
    requires |ids| > SEEN_CAP && keep <= ids && |keep| == SEEN_KEPT
    ensures Via(premises, steps, s)
    ensures s == before.(seen := keep, lane := before.lane + (ids - before.seen))
  {
    steps := ExtendFreely(premises, path, before, PollRead);
    var s1 := Next(before, PollRead);
    ManyDelivered(s1, ids, keep);
    steps := Extend(premises, steps, s1, PollDeliver(0, keep));
    s := Next(s1, PollDeliver(0, keep));
  }

  lemma ManyDelivered(s: State, ids: set<Id>, keep: set<Id>)
    requires s.up && s.readings == [ids] && |ids| > SEEN_CAP && keep <= ids && |keep| == SEEN_KEPT
    ensures Enabled(s, PollDeliver(0, keep))
    ensures Next(s, PollDeliver(0, keep)) == s.(readings := [], seen := keep, lane := s.lane + (ids - s.seen))
  {
  }

  /** A run of one dispatched command to its end, its deletion from pending failing. */
  lemma RunToEnd(premises: set<Premise>, path: seq<Step>, before: State, id: Id) returns (steps: seq<Step>, s: State)
    requires Via(premises, path, before) && before.up && id in before.lane && id !in before.active
    ensures Via(premises, steps, s)
    ensures s == before.(lane := before.lane - {id}, executed := before.executed + [id],
                         cancelled := before.cancelled - {id}, completed := s.completed)
  {
    var s1;
    steps, s1 := RunOnce(premises, path, before, id, true);
    steps := ExtendFreely(premises, steps, s1, Finish(id, Completed, true, false));
    s := Next(s1, Finish(id, Completed, true, false));
    assert before.active[id := Called] - {id} == before.active;
  }

  lemma PollAndEnd(premises: set<Premise>, path: seq<Step>, before: State, ids: set<Id>, keep: set<Id>, id: Id)
    returns (steps: seq<Step>, s: State)
    requires Via(premises, path, before) && UnderCap !in premises
    requires before.up && before.readings == [] && before.pending.Keys == ids
    requires |ids| > SEEN_CAP && keep <= ids - {id} && |keep| == SEEN_KEPT
    requires id in ids - before.seen && id !in before.active
    ensures Via(premises, steps, s)
    ensures s.up && s.readings == [] && s.pending == before.pending && s.active == before.active && s.seen == keep
    ensures s.executed == before.executed + [id]
  {
    var s1;
    steps, s1 := PollMany(premises, path, before, ids, keep);
    steps, s := RunToEnd(premises, steps, s1, id);
  }

  /** With any number of commands pending above the cap, one that has run but could not be deleted is forgotten by
      the poll that dispatched it, and dispatched by the next one again. */
  lemma CapForgets(n: nat) returns (steps: seq<Step>, s: State)
    requires n > SEEN_CAP
    ensures RunsTwiceWithout(UnderCap, steps, s, Name(0))
  {
    var ps, id, ids := RELIABLE - {UnderCap}, Name(0), Names(n);
    var s0, s1;
    NamesAre(n);
    AllAreNamed(n);
    var keep := Subset(ids - {id}, SEEN_KEPT);
    steps, s0 := SubmitMany(ps, n);
    steps, s1 := PollAndEnd(ps, steps, s0, ids, keep, id);
    steps, s := PollAndEnd(ps, steps, s1, ids, keep, id);
    assert s.executed == [id] + [id];
  }

  // ---------- restarts ----------

  /** A command that had reported progress when the agent died is left without a terminal status, and is never
      picked up again: the restart fails only what is still marked running, and the seed hides the rest. */
  lemma ProgressStranded(id: Id) returns (steps: seq<Step>, s: State)
    ensures Via(RELIABLE, steps, s) && s.up
    ensures id in s.completed && s.completed[id].status == Progress
    ensures id in s.pending && id in s.seen && id !in InHand(s)
  {
    var s0;
    steps, s0 := RunOne(RELIABLE, id, true, true);
    steps := ExtendFreely(RELIABLE, steps, s0, ReportProgress(id));
    steps, s := CrashAndRestart(RELIABLE, steps, Next(s0, ReportProgress(id)), true);
  }
}
