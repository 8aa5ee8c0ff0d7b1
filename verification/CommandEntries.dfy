/** What the writes to the completed document leave in it, field by field, and what becomes of a command that was
    cancelled. */
module CommandEntries {
  import opened Json
  import opened CommandDelivery

  /** Only the entry of `id` has changed. */
  predicate OnlyEntry(before: map<Id, Entry>, after: map<Id, Entry>, id: Id) {
    && after.Keys == before.Keys + {id}
    && forall other :: other in before && other != id ==> after[other] == before[other]
  }

  predicate EndedAs(completed: map<Id, Entry>, id: Id, terminal: Terminal) {
    id in completed && completed[id].status == Done(terminal)
  }

  /** A write that lands enters the status it was given at the present time and keeps when the command started;
      the deletion takes this command from pending and no other. One that does not land changes nothing. */
  lemma TerminalWrite(s: State, id: Id, terminal: Terminal, written: bool, deleted: bool)
    ensures var t := MarkTerminal(s, id, terminal, written, deleted);
            && (!written ==> t.completed == s.completed && t.pending == s.pending)
            && (written ==>
                  && OnlyEntry(s.completed, t.completed, id) && EndedAs(t.completed, id, terminal)
                  && t.completed[id].completedAt == s.clock
                  && t.completed[id].startedAt == (if id in s.completed then s.completed[id].startedAt else 0)
                  && (deleted ==> id !in t.pending && forall other ::
                        other != id ==> (other in t.pending <==> other in s.pending)
                                        && (other in s.pending ==> t.pending[other] == s.pending[other]))
                  && (!deleted ==> t.pending == s.pending))
  {
  }

  /** A running marker and a progress report change the status alone, but for the start the marker stamps. */
  lemma OpenWrites(s: State, id: Id, step: Step)
    requires Enabled(s, step) && (step == MarkRunning(id, true) || step == ReportProgress(id))
    ensures var t, was := Next(s, step), if id in s.completed then s.completed[id] else Entry(Running, 0, 0);
            && OnlyEntry(s.completed, t.completed, id) && t.pending == s.pending
            && t.completed[id] == (if step.MarkRunning? then Entry(Running, s.clock, was.completedAt)
                                   else Entry(Progress, was.startedAt, was.completedAt))
  {
  }

  /** What a finished, refused or cancelled command is entered as. */
  lemma EnteredAs(s: State, step: Step)
    requires Enabled(s, step) && (step.Finish? || step.Refuse? || step.CancelEntry?) && step.written
    ensures var t := Next(s, step);
            && OnlyEntry(s.completed, t.completed, step.id)
            && (step.Finish? ==>
                  EndedAs(t.completed, step.id, if step.id in s.cancelled then Cancelled else step.terminal))
            && (step.Refuse? ==> EndedAs(t.completed, step.id, Failed))
            && (step.CancelEntry? ==> EndedAs(t.completed, step.id, Cancelled) && t.pending == s.pending)
            && (!step.CancelEntry? ==> (step.id in t.pending <==> !step.deleted && step.id in s.pending))
  {
  }

  /** A startup that reads the completed document takes every id in it for seen and fails the entries whose write
      goes through, each keeping its start; those it also deletes leave pending. One that cannot read it does
      nothing but come up. */
  lemma RestartWrites(s: State, seeded: bool, failed: set<Id>, dropped: set<Id>, id: Id)
    requires Enabled(s, Restart(seeded, failed, dropped))
    ensures var t := Next(s, Restart(seeded, failed, dropped));
            && t.up && t.completed.Keys == s.completed.Keys && t.executed == s.executed
            && (id in t.seen <==> seeded && id in s.completed)
            && (id in t.pending <==> id in s.pending && !(seeded && id in dropped))
            && (id in s.completed && seeded && id in failed ==>
                  t.completed[id] == Entry(Done(Failed), s.completed[id].startedAt, s.clock))
            && (id in s.completed && !(seeded && id in failed) ==> t.completed[id] == s.completed[id])
  {
    assert failed <= s.completed.Keys;
  }

  /** A cleanup removes commands that have been pending for over an hour, and entries a day past their end or, if
      they have none, their start; it removes all of them unless a write raises, forgets exactly what it removed,
      and then only if none raised. */
  lemma CleanupExactly(s: State, step: Step, id: Id)
    requires Enabled(s, step) && (step.CleanPending? || step.CleanCompleted?)
    ensures var t := Next(s, step);
            && (id in t.seen <==> id in s.seen && (step.raised || id !in step.removed))
            && (step.CleanPending? ==>
                  && t.completed == s.completed
                  && (id in t.pending <==> id in s.pending && id !in step.removed)
                  && (id in step.removed ==> id in s.pending && 0 < s.pending[id] < s.clock - 3_600_000)
                  && (!step.raised && id in s.pending && 0 < s.pending[id] < s.clock - 3_600_000 ==> id !in t.pending)
                  && t.cleaning == (if step.raised then None else Some(s.clock)))
            && (step.CleanCompleted? ==>
                  && t.pending == s.pending
                  && (id in t.completed <==> id in s.completed && id !in step.removed)
                  && (id in step.removed ==> id in s.completed && Aged(s.completed[id], s.cleaning.value))
                  && (!step.raised && id in s.completed && Aged(s.completed[id], s.cleaning.value) ==>
                        id !in t.completed))
  {
  }

  predicate Aged(e: Entry, now: nat) {
    if e.completedAt > 0 then e.completedAt < now - 86_400_000 else 0 < e.startedAt < now - 86_400_000
  }

  /** A poll reads what is pending; its callback dispatches what was not seen and remembers the snapshot, up to a
      thousand ids, and of more than that five hundred. */
  lemma PollExactly(s: State, k: nat, keep: set<Id>)
    requires Enabled(s, PollDeliver(k, keep))
    ensures Next(s, PollRead).readings == s.readings + [s.pending.Keys]
    ensures var t, snapshot := Next(s, PollDeliver(k, keep)), s.readings[k];
            && (snapshot == {} ==> t.seen == s.seen && t.lane == s.lane)
            && (forall id :: id in t.lane <==> id in s.lane || (id in snapshot && id !in s.seen))
            && (0 < |snapshot| <= 1000 ==> t.seen == snapshot)
            && (|snapshot| > 1000 ==> t.seen <= snapshot && |t.seen| == 500)
            && t.pending == s.pending && t.completed == s.completed && t.active == s.active
  {
  }

  // ---------- a cancelled command ----------

  /** A flag set stays set until its command finishes, unless it is taken back or the process dies. */
  lemma {:induction false} FlagLasts(s: State, id: Id, steps: seq<Step>, t: State)
    requires id in s.cancelled && Reaches(s, steps, t)
    requires forall step :: step in steps ==>
               !step.Crash? && step != Unflag(id) && !(step.Finish? && step.id == id)
    ensures id in t.cancelled
    decreases |steps|
  {
    if steps != [] {
      var n := |steps| - 1;
      var before := LastStep({}, s, steps, t);
      assert forall step :: step in steps[..n] ==> step in steps;
      FlagLasts(s, id, steps[..n], before);
      assert steps[n] in steps;
    }
  }

  /** Cancelled by the user, a command ends cancelled: whatever happens in between and whatever its handler
      returns, the entry its finish writes says so. */
  lemma {:induction false} CancelledEndsCancelled(
      s: State, id: Id, steps: seq<Step>, t: State, returned: Terminal, deleted: bool)
    requires s.up && Reaches(Next(s, Flag(id)), steps, t) && Enabled(t, Finish(id, returned, true, deleted))
    requires forall step :: step in steps ==>
               !step.Crash? && step != Unflag(id) && !(step.Finish? && step.id == id)
    ensures EndedAs(Next(t, Finish(id, returned, true, deleted)).completed, id, Cancelled)
  {
    FlagLasts(Next(s, Flag(id)), id, steps, t);
  }

  /** The step has nothing to do with a command that has run and is out of hand. */
  lemma EntryStands(s: State, step: Step, id: Id)
    requires Enabled(s, step) && id !in s.lane && id !in s.active
    requires EndedAs(s.completed, id, Cancelled)
    ensures id in Next(s, step).completed ==> EndedAs(Next(s, step).completed, id, Cancelled)
  {
  }

  lemma OutOfHand(s: State, step: Step, id: Id)
    requires Enabled(s, step) && Once(s) && id in s.executed && id !in s.active
    ensures id !in s.lane && id in Next(s, step).executed && id !in Next(s, step).active
  {
  }

  lemma EntryAbsent(s: State, step: Step, id: Id)
    requires Enabled(s, step) && id !in s.lane && id !in s.active && id !in s.completed
    ensures id !in Next(s, step).completed
  {
  }

  /** And stays so: in every reliable run that goes on from there, until a cleanup expires it. */
  lemma {:induction false} CancelledForGood(
      first: State, path: seq<Step>, s: State, id: Id, steps: seq<Step>, t: State)
    requires Initial(first) && RunKeeping(RELIABLE, first, path, s) && RunKeeping(RELIABLE, s, steps, t)
    requires id in s.executed && id !in s.active && EndedAs(s.completed, id, Cancelled)
    ensures id in t.completed ==> EndedAs(t.completed, id, Cancelled)
    ensures Sound(t) && Once(t) && id in t.executed && id !in t.active
    decreases |steps|
  {
    if steps == [] {
      RunIsOnce(first, path, s);
    } else {
      var n := |steps| - 1;
      var before := LastStep(RELIABLE, s, steps, t);
      CancelledForGood(first, path, s, id, steps[..n], before);
      OutOfHand(before, steps[n], id);
      if id in before.completed {
        EntryStands(before, steps[n], id);
      } else {
        EntryAbsent(before, steps[n], id);
      }
      SoundStep(before, steps[n]);
      OnceStep(before, steps[n]);
    }
  }

  /** A second cancellation that finds nothing left to kill takes the flag back, and the handler's answer then
      goes over the cancelled entry. */
  lemma SecondCancelLoses(s: State, id: Id, returned: Terminal)
    requires s.up && id in s.active
    ensures var cancelled := Next(Next(s, Flag(id)), CancelEntry(id, true));
            var again := Next(Next(cancelled, Flag(id)), Unflag(id));
            && EndedAs(cancelled.completed, id, Cancelled)
            && Enabled(again, Finish(id, returned, true, true))
            && EndedAs(Next(again, Finish(id, returned, true, true)).completed, id, returned)
  {
  }
}
