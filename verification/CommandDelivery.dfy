/** Command delivery as a state machine: a pending document, a completed document, an agent that may crash
    between any two writes, and the dashboard that submits. Times are in milliseconds. */
module CommandDelivery {
  import opened Json

  type Id = string

  const PENDING_TTL: nat := 60 * 60 * 1000
  const COMPLETED_TTL: nat := 24 * 60 * 60 * 1000
  const SEEN_CAP: nat := 1000
  const SEEN_KEPT: nat := 500

  datatype Terminal = Completed | Failed | Cancelled
  datatype Status = Running | Progress | Done(terminal: Terminal)

  /** An entry of the completed document; a time of 0 is a field that is not there. */
  datatype Entry = Entry(status: Status, startedAt: nat, completedAt: nat)

  function Stamp(e: Entry): nat {
    if e.completedAt > 0 then e.completedAt else e.startedAt
  }

  predicate IsTerminal(completed: map<Id, Entry>, id: Id) {
    id in completed && completed[id].status.Done?
  }

  /** A command being executed: its running marker has been tried, its handler has been called. */
  datatype Stage = Marked | Called

  /** `pending` gives each command its timestamp (0: none). `readings` are the snapshots polls have read and
      whose callback has yet to run. `lane` is dispatched: to be executed, or to be failed because the queue was
      full. `cancelled` are flagged as cancelled by the user. `cleaning` is the clock reading of a cleanup between
      its two halves. `born`, `executed` and `expired` are history: the timestamp of every command submitted, the
      ids handed to the handler, and those a cleanup has deleted from either document. */
  datatype State = State(
    pending: map<Id, nat>,
    completed: map<Id, Entry>,
    seen: set<Id>,
    readings: seq<set<Id>>,
    lane: set<Id>,
    active: map<Id, Stage>,
    cancelled: set<Id>,
    cleaning: Option<nat>,
    up: bool,
    clock: nat,
    born: map<Id, nat>,
    executed: seq<Id>,
    expired: set<Id>)

  datatype Step =
    | Submit(id: Id, stamped: bool)
    | Tick(ms: nat)
    | PollRead
    | PollDeliver(k: nat, keep: set<Id>)
    | MarkRunning(id: Id, ok: bool)
    | Execute(id: Id)
    | ReportProgress(id: Id)
    | Flag(id: Id)
    | Unflag(id: Id)
    | CancelEntry(id: Id, written: bool)
    | Finish(id: Id, terminal: Terminal, written: bool, deleted: bool)
    | Refuse(id: Id, written: bool, deleted: bool)
    | CleanPending(removed: set<Id>, raised: bool)
    | CleanCompleted(removed: set<Id>, raised: bool)
    | Crash
    | Restart(seeded: bool, failed: set<Id>, dropped: set<Id>)

  // ---------- the writes ----------

  function WithRunning(completed: map<Id, Entry>, id: Id, now: nat): map<Id, Entry> {
    completed[id := Entry(Running, now, if id in completed then completed[id].completedAt else 0)]
  }

  function WithProgress(completed: map<Id, Entry>, id: Id): map<Id, Entry> {
    completed[id := if id in completed then completed[id].(status := Progress) else Entry(Progress, 0, 0)]
  }

  function WithTerminal(completed: map<Id, Entry>, id: Id, terminal: Terminal, now: nat): map<Id, Entry> {
    completed[id := Entry(Done(terminal), if id in completed then completed[id].startedAt else 0, now)]
  }

  /** The shared terminal write: the completed document first, then the deletion from pending. */
  function MarkTerminal(s: State, id: Id, terminal: Terminal, written: bool, deleted: bool): State {
    if !written then s
    else s.(completed := WithTerminal(s.completed, id, terminal, s.clock),
            pending := if deleted then s.pending - {id} else s.pending)
  }

  /** Terminal writes for every id in `written`, and the deletions that went through. */
  function MarkAllFailed(s: State, written: set<Id>, deleted: set<Id>): State {
    s.(completed := map id | id in s.completed.Keys + written ::
                      if id in written then WithTerminal(s.completed, id, Failed, s.clock)[id] else s.completed[id],
       pending := s.pending - deleted)
  }

  function StalePending(s: State): set<Id> {
    set id | id in s.pending && s.pending[id] > 0 && s.clock - s.pending[id] > PENDING_TTL
  }

  function OldCompleted(s: State, now: nat): set<Id> {
    set id | id in s.completed && Stamp(s.completed[id]) > 0 && now - Stamp(s.completed[id]) > COMPLETED_TTL
  }

  function RunningEntries(s: State): set<Id> {
    set id | id in s.completed && s.completed[id].status == Running
  }

  // ---------- the transitions ----------

  predicate Enabled(s: State, step: Step) {
    match step
    case Submit(id, _) => id !in s.born && s.clock > 0
    case Tick(_) => true
    case PollRead => s.up
    case PollDeliver(k, keep) =>
      && s.up && k < |s.readings|
      && (|s.readings[k]| > SEEN_CAP ==> keep <= s.readings[k] && |keep| == SEEN_KEPT)
    case MarkRunning(id, _) => s.up && id in s.lane && id !in s.active
    case Execute(id) => s.up && id in s.active && s.active[id] == Marked
    case ReportProgress(id) => s.up && id in s.active && s.active[id] == Called
    case Flag(_) => s.up
    case Unflag(_) => s.up
    case CancelEntry(id, _) => s.up && id in s.active
    case Finish(id, _, _, _) => s.up && id in s.active
    case Refuse(id, _, _) => s.up && id in s.lane && id !in s.active
    case CleanPending(removed, raised) =>
      s.up && removed <= StalePending(s) && (!raised ==> removed == StalePending(s))
    case CleanCompleted(removed, raised) =>
      && s.up && s.cleaning.Some? && removed <= OldCompleted(s, s.cleaning.value)
      && (!raised ==> removed == OldCompleted(s, s.cleaning.value))
    case Crash => s.up
    case Restart(_, failed, dropped) => !s.up && failed <= RunningEntries(s) && dropped <= failed
  }

  /** A command flagged as cancelled ends cancelled, whatever its handler returned. */
  function FinalStatus(s: State, id: Id, returned: Terminal): Terminal {
    if id in s.cancelled then Cancelled else returned
  }

  /** What the poll callback does with a snapshot: dispatch what is new, forget what is gone. */
  function DeliverSpec(s: State, snapshot: set<Id>, keep: set<Id>): State {
    if snapshot == {} then s
    else s.(lane := s.lane + (snapshot - s.seen),
            seen := if |snapshot| > SEEN_CAP then keep else snapshot)
  }

  /** The first half of a cleanup; a write that raises ends it, with the chunks before it deleted. */
  function CleanPendingSpec(s: State, removed: set<Id>, raised: bool): State {
    s.(pending := s.pending - removed,
       expired := s.expired + removed,
       seen := if raised then s.seen else s.seen - removed,
       cleaning := if raised then None else Some(s.clock))
  }

  function CleanCompletedSpec(s: State, removed: set<Id>, raised: bool): State {
    s.(completed := s.completed - removed,
       expired := s.expired + removed,
       seen := if raised then s.seen else s.seen - removed,
       cleaning := None)
  }

  function RestartSpec(s: State, seeded: bool, failed: set<Id>, dropped: set<Id>): State {
    MarkAllFailed(s.(up := true, seen := if seeded then s.completed.Keys else {}),
                  if seeded then failed else {}, if seeded then dropped else {})
  }

  function Next(s: State, step: Step): State
    requires Enabled(s, step)
  {
    match step
    case Submit(id, stamped) =>
      var at := if stamped then s.clock else 0;
      s.(pending := s.pending[id := at], born := s.born[id := at])
    case Tick(ms) => s.(clock := s.clock + ms)
    case PollRead => s.(readings := s.readings + [s.pending.Keys])
    case PollDeliver(k, keep) =>
      DeliverSpec(s, s.readings[k], keep).(readings := s.readings[..k] + s.readings[k + 1..])
    case MarkRunning(id, ok) =>
      s.(lane := s.lane - {id}, active := s.active[id := Marked],
         completed := if ok then WithRunning(s.completed, id, s.clock) else s.completed)
    case Execute(id) => s.(active := s.active[id := Called], executed := s.executed + [id])
    case ReportProgress(id) => s.(completed := WithProgress(s.completed, id))
    case Flag(id) => s.(cancelled := s.cancelled + {id})
    case Unflag(id) => s.(cancelled := s.cancelled - {id})
    case CancelEntry(id, written) => MarkTerminal(s, id, Cancelled, written, false)
    case Finish(id, terminal, written, deleted) =>
      MarkTerminal(s, id, FinalStatus(s, id, terminal), written, deleted).(
        active := s.active - {id}, cancelled := s.cancelled - {id})
    case Refuse(id, written, deleted) =>
      MarkTerminal(s, id, Failed, written, deleted).(lane := s.lane - {id})
    case CleanPending(removed, raised) => CleanPendingSpec(s, removed, raised)
    case CleanCompleted(removed, raised) => CleanCompletedSpec(s, removed, raised)
    case Crash =>
      s.(up := false, seen := {}, readings := [], lane := {}, active := map[], cancelled := {},
          cleaning := None)
    case Restart(seeded, failed, dropped) => RestartSpec(s, seeded, failed, dropped)
  }

  ghost predicate Initial(s: State) {
    && s.pending == map[] && s.completed == map[] && s.seen == {} && s.readings == []
    && s.lane == {} && s.active == map[] && s.cancelled == {} && s.cleaning == None && !s.up
    && s.born == map[] && s.executed == [] && s.expired == {}
  }

  /** What a run may be asked to keep to. Several polls may be in flight, as after a restart of the listener. */
  datatype Premise = InOrder | UnderCap | QuietCleanup | Stamped | Markers | Seeded

  /** The step keeps to the premise: polls deliver in the order they read, at most `SEEN_CAP` commands each; no
      cleanup of pending falls between a poll's read and its callback; commands carry a timestamp; running
      markers are written; the restart seed is read. */
  predicate KeepsTo(s: State, step: Step, premise: Premise) {
    match premise
    case InOrder => step.PollDeliver? ==> step.k == 0
    case UnderCap => step.PollDeliver? && step.k < |s.readings| ==> |s.readings[step.k]| <= SEEN_CAP
    case QuietCleanup => step.CleanPending? ==> s.readings == []
    case Stamped => step.Submit? ==> step.stamped
    case Markers => step.MarkRunning? ==> step.ok
    case Seeded => step.Restart? ==> step.seeded
  }

  const DISCIPLINE: set<Premise> := {InOrder, UnderCap, QuietCleanup, Stamped}
  const RELIABLE: set<Premise> := DISCIPLINE + {Markers, Seeded}

  ghost predicate Reaches(first: State, steps: seq<Step>, s: State) {
    RunKeeping({}, first, steps, s)
  }

  /** A run all of whose steps keep to the premises. */
  ghost predicate RunKeeping(premises: set<Premise>, first: State, steps: seq<Step>, s: State)
    decreases |steps|
  {
    if steps == [] then s == first
    else
      var n := |steps| - 1;
      exists before :: && RunKeeping(premises, first, steps[..n], before) && Enabled(before, steps[n])
                       && (forall premise :: premise in premises ==> KeepsTo(before, steps[n], premise))
                       && s == Next(before, steps[n])
  }

  // ---------- nothing is lost ----------

  /** Dispatched and not finished. */
  function InHand(s: State): set<Id> {
    s.lane + s.active.Keys
  }

  // ---------- polls in flight ----------

  predicate Flies(readings: seq<set<Id>>, id: Id) {
    exists i :: 0 <= i < |readings| && id in readings[i]
  }

  /** The readings that hold an id follow one another, and reach to the last one while it is pending. */
  ghost predicate Contiguous(readings: seq<set<Id>>, present: bool, id: Id) {
    && (forall i, j, k :: 0 <= i < j < k < |readings| && id in readings[i] && id in readings[k] ==> id in readings[j])
    && (present ==> forall i, j :: 0 <= i < j < |readings| && id in readings[i] ==> id in readings[j])
  }

  /** An id that can still be delivered is seen, and stays seen through every poll in flight that precedes. */
  ghost predicate Covered(readings: seq<set<Id>>, present: bool, seen: bool, id: Id) {
    && (present || Flies(readings, id) ==> seen)
    && (forall i, j :: 0 <= i < j < |readings| && id in readings[j] ==> id in readings[i])
    && (present ==> forall i :: 0 <= i < |readings| ==> id in readings[i])
  }

  lemma ReadContiguous(readings: seq<set<Id>>, pending: set<Id>, id: Id)
    requires Contiguous(readings, id in pending, id)
    ensures Contiguous(readings + [pending], id in pending, id)
  {
  }

  lemma ReadCovered(readings: seq<set<Id>>, pending: set<Id>, seen: bool, id: Id)
    requires Covered(readings, id in pending, seen, id)
    ensures Covered(readings + [pending], id in pending, seen, id)
  {
    var more := readings + [pending];
    if Flies(more, id) && id !in pending {
      var i :| 0 <= i < |more| && id in more[i];
      assert id in readings[i];
    }
  }

  /** Once the first poll has delivered, its snapshot is what is seen. */
  lemma DeliveredCovered(readings: seq<set<Id>>, present: bool, seen: bool, id: Id)
    requires readings != [] && Contiguous(readings, present, id)
    requires Covered(readings, present, seen, id) || id in readings[0]
    ensures Covered(readings[1..], present, if readings[0] == {} then seen else id in readings[0], id)
  {
    var rest := readings[1..];
    assert forall i :: 0 <= i < |rest| ==> rest[i] == readings[i + 1];
    if Flies(rest, id) {
      var i :| 0 <= i < |rest| && id in rest[i];
      assert id in readings[i + 1];
    }
  }

  lemma RestContiguous(readings: seq<set<Id>>, present: bool, id: Id)
    requires readings != [] && Contiguous(readings, present, id)
    ensures Contiguous(readings[1..], present, id)
  {
    assert forall i :: 0 <= i < |readings| - 1 ==> readings[1..][i] == readings[i + 1];
  }

  lemma GoneCovered(readings: seq<set<Id>>, present: bool, seen: bool, id: Id)
    requires Contiguous(readings, present, id)
    ensures Contiguous(readings, false, id)
    ensures Covered(readings, present, seen, id) ==> Covered(readings, false, seen, id)
  {
  }

  // ---------- the invariant ----------

  predicate InFlight(s: State, id: Id) {
    Flies(s.readings, id)
  }

  ghost predicate Tidy(s: State, id: Id) {
    Contiguous(s.readings, id in s.pending, id)
  }

  ghost predicate Safe(s: State, id: Id) {
    Covered(s.readings, id in s.pending, id in s.seen, id)
  }

  ghost predicate Guarded(s: State, ids: set<Id>) {
    forall id :: id in ids ==> Safe(s, id)
  }

  ghost predicate Times(s: State) {
    && (forall id :: id in s.pending ==> id in s.born && s.pending[id] == s.born[id])
    && (forall id :: id in s.born ==> 0 < s.born[id] <= s.clock)
    && (forall id :: id in s.completed ==> id in s.born)
    && (forall id :: id in s.completed && Stamp(s.completed[id]) > 0 ==> s.born[id] <= Stamp(s.completed[id]))
    && (s.cleaning.Some? ==>
          s.cleaning.value <= s.clock
          && forall id ::
               id in s.pending || InFlight(s, id) ==> id in s.born && s.cleaning.value - s.born[id] <= PENDING_TTL)
  }

  ghost predicate Known(s: State) {
    && InHand(s) <= s.born.Keys && s.seen <= s.born.Keys && s.expired <= s.born.Keys
    && (forall i :: 0 <= i < |s.readings| ==> s.readings[i] <= s.born.Keys)
    && (!s.up ==> s.readings == [] && InHand(s) == {} && s.cleaning.None?)
    && s.lane !! s.active.Keys
  }

  /** Nothing is lost, and what is in flight without being pending or expired has been dealt with. */
  ghost predicate Kept(s: State) {
    && (forall id :: id in s.born ==> id in s.pending || IsTerminal(s.completed, id) || id in s.expired)
    && (forall id :: id in InHand(s) ==> id in s.pending || id in s.expired)
    && (forall id :: InFlight(s, id) ==> id in s.pending || id in s.expired || Safe(s, id))
  }

  ghost predicate Sound(s: State) {
    Times(s) && Known(s) && (forall id :: Tidy(s, id)) && Guarded(s, InHand(s)) && Kept(s)
  }

  lemma SoundInitially(s: State)
    requires Initial(s)
    ensures Sound(s)
  {
  }

  /** A change that leaves pending, readings and seen alone leaves the polls in flight as they were. */
  lemma PollsFramed(s: State, t: State)
    requires t.readings == s.readings && t.pending == s.pending && t.seen == s.seen
    ensures forall id :: Tidy(t, id) == Tidy(s, id)
    ensures forall id :: Safe(t, id) == Safe(s, id)
    ensures forall id :: InFlight(t, id) == InFlight(s, id)
  {
  }

  lemma SubmitFrames(s: State, id: Id, other: Id)
    requires Known(s) && Enabled(s, Submit(id, true)) && Tidy(s, other)
    ensures var t := Next(s, Submit(id, true));
            && Tidy(t, other) && InFlight(t, other) == InFlight(s, other)
            && (other != id ==> Safe(t, other) == Safe(s, other) && (other in t.pending <==> other in s.pending))
            && !InFlight(t, id)
  {
  }

  lemma SubmitKeeps(s: State, id: Id)
    requires Sound(s) && Enabled(s, Submit(id, true))
    ensures Sound(Next(s, Submit(id, true)))
  {
    var t := Next(s, Submit(id, true));
    assert InHand(t) == InHand(s);
    forall other
      ensures Tidy(t, other) && InFlight(t, other) == InFlight(s, other) && !InFlight(t, id)
      ensures other != id ==> Safe(t, other) == Safe(s, other)
    {
      assert Tidy(s, other);
      SubmitFrames(s, id, other);
    }
  }

  lemma ReadFlies(readings: seq<set<Id>>, pending: set<Id>, id: Id)
    ensures Flies(readings + [pending], id) <==> Flies(readings, id) || id in pending
  {
    var more := readings + [pending];
    if Flies(readings, id) {
      var i :| 0 <= i < |readings| && id in readings[i];
      assert id in more[i];
    }
    if id in pending {
      assert id in more[|readings|];
    }
  }

  lemma RestFlies(readings: seq<set<Id>>, id: Id)
    requires readings != []
    ensures Flies(readings[1..], id) ==> Flies(readings, id)
  {
    if i :| 0 <= i < |readings[1..]| && id in readings[1..][i] {
      assert id in readings[i + 1];
    }
  }

  lemma PollReadKeeps(s: State)
    requires Sound(s) && s.up
    ensures Sound(Next(s, PollRead))
    ensures forall id :: Safe(s, id) ==> Safe(Next(s, PollRead), id)
  {
    var t := Next(s, PollRead);
    assert InHand(t) == InHand(s);
    forall id
      ensures Tidy(t, id) && (Safe(s, id) ==> Safe(t, id))
      ensures InFlight(t, id) <==> id in s.pending || InFlight(s, id)
    {
      assert Tidy(s, id);
      ReadContiguous(s.readings, s.pending.Keys, id);
      if Safe(s, id) {
        ReadCovered(s.readings, s.pending.Keys, id in s.seen, id);
      }
      ReadFlies(s.readings, s.pending.Keys, id);
    }
  }

  lemma DeliverFrames(s: State, step: Step)
    requires Sound(s) && step.PollDeliver? && Enabled(s, step) && step.k == 0 && |s.readings[0]| <= SEEN_CAP
    ensures var t := Next(s, step);
            && (forall id :: Tidy(t, id))
            && (forall id :: Safe(s, id) || id in s.readings[0] ==> Safe(t, id))
            && (forall id :: InFlight(t, id) ==> InFlight(s, id))
            && InHand(t) == InHand(s) + (s.readings[0] - s.seen)
            && t.readings == s.readings[1..]
  {
    var t := Next(s, step);
    var snapshot := s.readings[0];
    assert t.readings == s.readings[1..];
    assert t.seen == if snapshot == {} then s.seen else snapshot;
    forall id
      ensures Tidy(t, id) && (Safe(s, id) || id in snapshot ==> Safe(t, id)) && (InFlight(t, id) ==> InFlight(s, id))
    {
      assert Tidy(s, id);
      if Safe(s, id) || id in snapshot {
        DeliveredCovered(s.readings, id in s.pending, id in s.seen, id);
      }
      RestContiguous(s.readings, id in s.pending, id);
      RestFlies(s.readings, id);
    }
  }

  /** What a poll dispatches is pending or expired, and was not in hand. */
  lemma NewlyInHand(s: State)
    requires Sound(s) && s.readings != []
    ensures forall id :: id in s.readings[0] - s.seen ==> (id in s.pending || id in s.expired) && id !in InHand(s)
    ensures s.readings[0] <= s.born.Keys
  {
    forall id | id in s.readings[0] - s.seen
      ensures (id in s.pending || id in s.expired) && id !in InHand(s)
    {
      assert id in s.readings[0] && InFlight(s, id);
    }
  }

  lemma DeliverKeepsKnown(s: State, step: Step)
    requires Known(s) && step.PollDeliver? && Enabled(s, step) && step.k == 0 && |s.readings[0]| <= SEEN_CAP
    requires forall id :: id in s.readings[0] - s.seen ==> id !in InHand(s)
    ensures Known(Next(s, step))
  {
    var t := Next(s, step);
    assert t.readings == s.readings[1..];
    assert InHand(t) == InHand(s) + (s.readings[0] - s.seen);
  }

  lemma DeliverKeepsTimes(s: State, step: Step)
    requires Times(s) && step.PollDeliver? && Enabled(s, step) && step.k == 0
    ensures Times(Next(s, step))
  {
    assert Next(s, step).readings == s.readings[1..];
    forall id ensures InFlight(Next(s, step), id) ==> InFlight(s, id) {
      RestFlies(s.readings, id);
    }
  }

  lemma DeliverKeeps(s: State, step: Step)
    requires Sound(s) && step.PollDeliver? && Enabled(s, step) && step.k == 0 && |s.readings[0]| <= SEEN_CAP
    ensures Sound(Next(s, step))
  {
    DeliverFrames(s, step);
    NewlyInHand(s);
    DeliverKeepsKnown(s, step);
    DeliverKeepsTimes(s, step);
  }

  /** A change to the entry of one submitted command, at the present time. */
  ghost predicate EntryChange(s: State, completed: map<Id, Entry>, id: Id) {
    && id in s.born && id in completed
    && completed.Keys == s.completed.Keys + {id}
    && (forall other :: other in s.completed && other != id ==> completed[other] == s.completed[other])
    && Stamp(completed[id]) in {0, s.clock, if id in s.completed then Stamp(s.completed[id]) else 0}
  }

  lemma EntryChangeKeepsTimes(s: State, completed: map<Id, Entry>, id: Id)
    requires Times(s) && EntryChange(s, completed, id)
    ensures Times(s.(completed := completed))
  {
    PollsFramed(s, s.(completed := completed));
  }

  lemma EntryChangeKeepsKept(s: State, completed: map<Id, Entry>, id: Id)
    requires Kept(s) && EntryChange(s, completed, id)
    requires id in s.pending || id in s.expired || completed[id].status.Done?
    ensures Kept(s.(completed := completed))
  {
    var t := s.(completed := completed);
    PollsFramed(s, t);
    assert InHand(t) == InHand(s);
  }

  lemma EntryChangeKeeps(s: State, completed: map<Id, Entry>, id: Id)
    requires Sound(s) && EntryChange(s, completed, id)
    requires id in s.pending || id in s.expired || completed[id].status.Done?
    ensures Sound(s.(completed := completed))
  {
    var t := s.(completed := completed);
    PollsFramed(s, t);
    assert InHand(t) == InHand(s);
    EntryChangeKeepsTimes(s, completed, id);
    EntryChangeKeepsKept(s, completed, id);
  }

  lemma MoveKeeps(s: State, t: State)
    requires Sound(s) && t == s.(lane := t.lane, active := t.active, cancelled := t.cancelled, executed := t.executed)
    requires InHand(t) <= InHand(s) && s.up && t.lane !! t.active.Keys
    ensures Sound(t)
  {
    PollsFramed(s, t);
  }

  /** The part of a step on one command that moves it from stage to stage. */
  lemma ExecutionMoves(s: State, step: Step)
    requires Sound(s) && Enabled(s, step)
    requires step.MarkRunning? || step.Execute? || step.ReportProgress? || step.CancelEntry?
    ensures var t := Next(s, step);
            var moved := s.(lane := t.lane, active := t.active, executed := t.executed);
            Sound(moved) && t == moved.(completed := t.completed) && step.id in InHand(s)
  {
    var t := Next(s, step);
    var moved := s.(lane := t.lane, active := t.active, executed := t.executed);
    assert InHand(moved) <= InHand(s);
    MoveKeeps(s, moved);
  }

  lemma ExecutionKeeps(s: State, step: Step)
    requires Sound(s) && Enabled(s, step)
    requires step.MarkRunning? || step.Execute? || step.ReportProgress? || step.CancelEntry?
    ensures Sound(Next(s, step))
  {
    var t := Next(s, step);
    ExecutionMoves(s, step);
    if t.completed != s.completed {
      EntryChangeKeeps(s.(lane := t.lane, active := t.active, executed := t.executed), t.completed, step.id);
    }
  }

  lemma DropFromPending(s: State, id: Id)
    requires Sound(s) && IsTerminal(s.completed, id) && id !in InHand(s) && Safe(s, id)
    ensures Sound(s.(pending := s.pending - {id}))
  {
    var t := s.(pending := s.pending - {id});
    assert InHand(t) == InHand(s);
    forall other
      ensures Tidy(t, other) && (Safe(s, other) ==> Safe(t, other)) && InFlight(t, other) == InFlight(s, other)
    {
      assert Tidy(s, other);
      GoneCovered(s.readings, other in s.pending, other in s.seen, other);
    }
  }

  lemma FinishMoves(s: State, step: Step)
    requires Sound(s) && Enabled(s, step) && (step.Finish? || step.Refuse?)
    ensures var t := Next(s, step);
            var moved := s.(lane := t.lane, active := t.active, cancelled := t.cancelled);
            Sound(moved) && step.id in InHand(s) && step.id !in InHand(moved) && Safe(moved, step.id)
  {
    var t := Next(s, step);
    var moved := s.(lane := t.lane, active := t.active, cancelled := t.cancelled);
    assert InHand(moved) == InHand(s) - {step.id};
    MoveKeeps(s, moved);
    PollsFramed(s, moved);
  }

  /** The terminal write, seen apart from the deletion that may follow it. */
  lemma FinishEnters(s: State, step: Step)
    requires Sound(s) && Enabled(s, step) && (step.Finish? || step.Refuse?) && step.written
    requires step.id in s.born
    ensures var t := Next(s, step);
            var moved := s.(lane := t.lane, active := t.active, cancelled := t.cancelled);
            && EntryChange(moved, t.completed, step.id) && t.completed[step.id].status.Done?
            && t == moved.(completed := t.completed,
                           pending := if step.deleted then s.pending - {step.id} else s.pending)
  {
  }

  lemma FinishKeeps(s: State, step: Step)
    requires Sound(s) && Enabled(s, step) && (step.Finish? || step.Refuse?)
    ensures Sound(Next(s, step))
  {
    var t := Next(s, step);
    var moved := s.(lane := t.lane, active := t.active, cancelled := t.cancelled);
    FinishMoves(s, step);
    if step.written {
      var entered := moved.(completed := t.completed);
      FinishEnters(s, step);
      EntryChangeKeeps(moved, t.completed, step.id);
      PollsFramed(moved, entered);
      DropFromPending(entered, step.id);
    }
  }

  lemma CleanPendingKeeps(s: State, step: Step)
    requires Sound(s) && step.CleanPending? && Enabled(s, step) && s.readings == []
    ensures Sound(Next(s, step))
  {
    var t := Next(s, step);
    assert InHand(t) == InHand(s);
    forall id | Safe(s, id) ensures Safe(t, id) {
    }
  }

  /** An entry old enough for the cleanup of completed belongs to a command already gone from pending. */
  lemma OldIsGone(s: State, id: Id)
    requires Times(s) && s.cleaning.Some? && id in OldCompleted(s, s.cleaning.value)
    ensures id !in s.pending && !InFlight(s, id)
  {
  }

  /** Forgetting what is neither pending nor in flight unguards nothing. */
  lemma CleanCompletedFrames(s: State, step: Step)
    requires Times(s) && step.CleanCompleted? && Enabled(s, step)
    ensures var t := Next(s, step);
            && (forall id :: Tidy(t, id) == Tidy(s, id))
            && (forall id :: Safe(s, id) ==> Safe(t, id))
            && (forall id :: InFlight(t, id) == InFlight(s, id))
  {
    var t := Next(s, step);
    forall id | Safe(s, id) ensures Safe(t, id) {
      if id in step.removed {
        OldIsGone(s, id);
      }
    }
  }

  lemma CleanCompletedKeeps(s: State, step: Step)
    requires Sound(s) && step.CleanCompleted? && Enabled(s, step)
    ensures Sound(Next(s, step))
  {
    var t := Next(s, step);
    CleanCompletedFrames(s, step);
    assert InHand(t) == InHand(s);
    forall id | id in step.removed ensures id !in s.pending {
      OldIsGone(s, id);
    }
  }

  lemma RestartKeeps(s: State, step: Step)
    requires Sound(s) && step.Restart? && Enabled(s, step)
    ensures Sound(Next(s, step))
  {
    var t := Next(s, step);
    assert InHand(t) == {} && t.readings == [];
  }

  lemma QuietKeeps(s: State, step: Step)
    requires Sound(s) && Enabled(s, step) && (step.Tick? || step.Flag? || step.Unflag? || step.Crash?)
    ensures Sound(Next(s, step))
  {
    var t := Next(s, step);
    if !step.Crash? {
      PollsFramed(s, t);
      assert InHand(t) == InHand(s);
    } else {
      assert InHand(t) == {} && t.readings == [];
    }
  }

  predicate Disciplined(s: State, step: Step) {
    KeepsTo(s, step, InOrder) && KeepsTo(s, step, UnderCap) && KeepsTo(s, step, QuietCleanup)
        && KeepsTo(s, step, Stamped)
  }

  /** The steps of a poll, of the dashboard and of the process. */
  predicate Outside(step: Step) {
    step.Submit? || step.Tick? || step.PollRead? || step.PollDeliver? || step.Flag? || step.Unflag? || step.Crash?
        || step.Restart?
  }

  lemma OutsideKeeps(s: State, step: Step)
    requires Sound(s) && Enabled(s, step) && Disciplined(s, step) && Outside(step)
    ensures Sound(Next(s, step))
  {
    match step
    case Submit(id, _) => SubmitKeeps(s, id);
    case PollRead => PollReadKeeps(s);
    case PollDeliver(_, _) => DeliverKeeps(s, step);
    case Restart(_, _, _) => RestartKeeps(s, step);
    case _ => QuietKeeps(s, step);
  }

  lemma {:induction false} SoundStep(s: State, step: Step)
    requires Sound(s) && Enabled(s, step) && Disciplined(s, step)
    ensures Sound(Next(s, step))
  {
    if Outside(step) {
      OutsideKeeps(s, step);
    } else {
      match step
      case Finish(_, _, _, _) => FinishKeeps(s, step);
      case Refuse(_, _, _) => FinishKeeps(s, step);
      case CleanPending(_, _) => CleanPendingKeeps(s, step);
      case CleanCompleted(_, _) => CleanCompletedKeeps(s, step);
      case _ => ExecutionKeeps(s, step);
    }
  }

  lemma {:induction false} RunIsSound(first: State, steps: seq<Step>, s: State)
    requires Initial(first) && RunKeeping(DISCIPLINE, first, steps, s)
    ensures Sound(s)
    decreases |steps|
  {
    if steps == [] {
      SoundInitially(s);
    } else {
      var before := LastStep(DISCIPLINE, first, steps, s);
      RunIsSound(first, steps[..|steps| - 1], before);
      SoundStep(before, steps[|steps| - 1]);
    }
  }

  /** The state before the last step of a run. */
  lemma LastStep(premises: set<Premise>, first: State, steps: seq<Step>, s: State) returns (before: State)
    requires steps != [] && RunKeeping(premises, first, steps, s)
    ensures var n := |steps| - 1;
            && RunKeeping(premises, first, steps[..n], before) && Enabled(before, steps[n])
            && (forall premise :: premise in premises ==> KeepsTo(before, steps[n], premise))
            && s == Next(before, steps[n])
  {
    var n := |steps| - 1;
    before :| && RunKeeping(premises, first, steps[..n], before) && Enabled(before, steps[n])
              && (forall premise :: premise in premises ==> KeepsTo(before, steps[n], premise))
              && s == Next(before, steps[n]);
  }

  lemma EntryOrPending(s: State, step: Step, id: Id)
    requires Enabled(s, step) && id in Next(s, step).born
    requires id in s.born ==> id in s.pending || id in s.completed || id in s.expired
    ensures var t := Next(s, step); id in t.pending || id in t.completed || id in t.expired
  {
  }

  /** In every state of every run, whatever it keeps to, each command ever submitted is still pending, has an
      entry, or was expired by a cleanup. */
  lemma {:induction false} NothingIsLost(first: State, steps: seq<Step>, s: State, id: Id)
    requires Initial(first) && Reaches(first, steps, s) && id in s.born
    ensures id in s.pending || id in s.completed || id in s.expired
    decreases |steps|
  {
    if steps != [] {
      var before := LastStep({}, first, steps, s);
      if id in before.born {
        NothingIsLost(first, steps[..|steps| - 1], before, id);
      }
      EntryOrPending(before, steps[|steps| - 1], id);
    }
  }

  /** In every state of every disciplined run, crashes anywhere and writes that fail included, each command
      ever submitted is still pending, has a terminal entry, or was expired by a cleanup. */
  lemma {:induction false} CommandConservation(first: State, steps: seq<Step>, s: State, id: Id)
    requires Initial(first) && RunKeeping(DISCIPLINE, first, steps, s) && id in s.born
    ensures id in s.pending || IsTerminal(s.completed, id) || id in s.expired
  {
    RunIsSound(first, steps, s);
  }

  // ---------- nothing runs twice ----------

  function Executed(s: State): set<Id> {
    set id | id in s.executed
  }

  ghost predicate Distinct(ids: seq<Id>) {
    forall i, j :: 0 <= i < j < |ids| ==> ids[i] != ids[j]
  }

  ghost predicate Once(s: State) {
    && Distinct(s.executed)
    && Executed(s) <= s.born.Keys
    && (forall id ::
         id in s.executed ==> id !in s.lane && (id in s.active ==> s.active[id] == Called))
    && (forall id :: (id in s.executed || id in s.active) && id in s.pending ==> id in s.completed)
    && (s.up ==> Guarded(s, Executed(s)))
  }

  lemma OnceDeliver(s: State, step: Step)
    requires Sound(s) && Once(s) && step.PollDeliver? && Enabled(s, step) && Disciplined(s, step)
    ensures Once(Next(s, step))
  {
    var t := Next(s, step);
    DeliverFrames(s, step);
    forall id | id in s.executed && id in s.readings[0] ensures id in s.seen {
      assert id in Executed(s) && InFlight(s, id);
    }
  }

  lemma OnceClean(s: State, step: Step)
    requires Sound(s) && Once(s) && Enabled(s, step) && Disciplined(s, step)
    requires step.CleanPending? || step.CleanCompleted?
    ensures Once(Next(s, step))
  {
    var t := Next(s, step);
    assert Executed(t) == Executed(s);
    if step.CleanCompleted? {
      CleanCompletedFrames(s, step);
      forall id | id in step.removed ensures id !in s.pending {
        OldIsGone(s, id);
      }
    } else {
      forall id | Safe(s, id) ensures Safe(t, id) {
      }
    }
  }

  lemma OnceExecute(s: State, id: Id)
    requires Sound(s) && Once(s) && Enabled(s, Execute(id))
    ensures Once(Next(s, Execute(id)))
  {
    var t := Next(s, Execute(id));
    PollsFramed(s, t);
    assert Executed(t) == Executed(s) + {id};
    assert id in InHand(s);
  }

  lemma OnceEntry(s: State, step: Step)
    requires Sound(s) && Once(s) && Enabled(s, step) && KeepsTo(s, step, Markers)
    requires step.MarkRunning? || step.ReportProgress? || step.CancelEntry?
    ensures Once(Next(s, step))
  {
    var t := Next(s, step);
    PollsFramed(s, t);
    assert Executed(t) == Executed(s);
    assert t.completed.Keys == s.completed.Keys || t.completed.Keys == s.completed.Keys + {step.id};
  }

  lemma OnceFinish(s: State, step: Step)
    requires Sound(s) && Once(s) && Enabled(s, step) && (step.Finish? || step.Refuse?)
    ensures Once(Next(s, step))
  {
    var t := Next(s, step);
    assert Executed(t) == Executed(s);
    FinishFrames(s, step);
  }

  lemma FinishFrames(s: State, step: Step)
    requires Sound(s) && Enabled(s, step) && (step.Finish? || step.Refuse?)
    ensures var t := Next(s, step);
            && s.completed.Keys <= t.completed.Keys && t.pending.Keys <= s.pending.Keys
            && (forall id :: Safe(s, id) ==> Safe(t, id))
  {
    var t := Next(s, step);
    forall id | Safe(s, id) ensures Safe(t, id) {
      assert Tidy(s, id);
      GoneCovered(s.readings, id in s.pending, id in s.seen, id);
    }
  }

  lemma OnceRestart(s: State, step: Step)
    requires Sound(s) && Once(s) && Enabled(s, step) && step.Restart? && step.seeded
    ensures Once(Next(s, step))
  {
    var t := Next(s, step);
    assert Executed(t) == Executed(s) && t.readings == [];
    assert s.completed.Keys <= t.completed.Keys && t.pending.Keys <= s.pending.Keys;
  }

  lemma OnceQuiet(s: State, step: Step)
    requires Sound(s) && Once(s) && Enabled(s, step) && Disciplined(s, step)
    requires step.Submit? || step.Tick? || step.PollRead? || step.Flag? || step.Unflag? || step.Crash?
    ensures Once(Next(s, step))
  {
    var t := Next(s, step);
    assert Executed(t) == Executed(s);
    match step {
      case PollRead => PollReadKeeps(s);
      case Tick(_) => PollsFramed(s, t);
      case Flag(_) => PollsFramed(s, t);
      case Unflag(_) => PollsFramed(s, t);
      case Submit(id, _) =>
        forall other | other in s.executed ensures Safe(s, other) ==> Safe(t, other) {
          assert Tidy(s, other);
          SubmitFrames(s, id, other);
        }
      case Crash =>
    }
  }

  lemma {:induction false} OnceStep(s: State, step: Step)
    requires Sound(s) && Once(s) && Enabled(s, step) && Disciplined(s, step)
    requires KeepsTo(s, step, Markers) && KeepsTo(s, step, Seeded)
    ensures Once(Next(s, step))
  {
    match step
    case PollDeliver(_, _) => OnceDeliver(s, step);
    case CleanPending(_, _) => OnceClean(s, step);
    case CleanCompleted(_, _) => OnceClean(s, step);
    case Execute(id) => OnceExecute(s, id);
    case Restart(_, _, _) => OnceRestart(s, step);
    case MarkRunning(_, _) => OnceEntry(s, step);
    case ReportProgress(_) => OnceEntry(s, step);
    case CancelEntry(_, _) => OnceEntry(s, step);
    case Finish(_, _, _, _) => OnceFinish(s, step);
    case Refuse(_, _, _) => OnceFinish(s, step);
    case _ => OnceQuiet(s, step);
  }

  lemma {:induction false} RunIsOnce(first: State, steps: seq<Step>, s: State)
    requires Initial(first) && RunKeeping(RELIABLE, first, steps, s)
    ensures Sound(s) && Once(s)
    decreases |steps|
  {
    if steps == [] {
      SoundInitially(s);
    } else {
      var before := LastStep(RELIABLE, first, steps, s);
      RunIsOnce(first, steps[..|steps| - 1], before);
      SoundStep(before, steps[|steps| - 1]);
      OnceStep(before, steps[|steps| - 1]);
    }
  }

  /** In every reliable run, whatever overlapping polls, crashes, failed deletions and cleanups it holds, no
      command is handed to its handler twice. */
  lemma {:induction false} AtMostOnce(first: State, steps: seq<Step>, s: State)
    requires Initial(first) && RunKeeping(RELIABLE, first, steps, s)
    ensures forall i, j :: 0 <= i < j < |s.executed| ==> s.executed[i] != s.executed[j]
  {
    RunIsOnce(first, steps, s);
  }

  // ---------- restarts ----------

  /** A restart whose writes go through leaves no entry running. What it leaves without a terminal status is
      exactly what had already reported progress. */
  lemma RestartSettles(s: State, dropped: set<Id>, id: Id)
    requires Enabled(s, Restart(true, RunningEntries(s), dropped))
    ensures var t := Next(s, Restart(true, RunningEntries(s), dropped));
            && RunningEntries(t) == {}
            && (id in s.completed && s.completed[id].status == Running ==> t.completed[id].status == Done(Failed))
            && (id in t.completed && !IsTerminal(t.completed, id) <==>
                 id in s.completed && s.completed[id].status == Progress)
            && (id in s.completed ==> id in t.seen)
  {
    var t := Next(s, Restart(true, RunningEntries(s), dropped));
    assert t.completed.Keys == s.completed.Keys;
  }
}
