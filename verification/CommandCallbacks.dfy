/** The poll callback step by step. Two pollers are two threads and the ids seen are shared without a lock, so a
    callback can be overtaken between its look at an id and its dispatch. While only one is under way, its steps
    leave the end it is going to as it is. */
module CommandCallbacks {
  import opened Json
  import opened CommandDelivery

  type Tid = nat

  /** A callback under way: the snapshot it was handed, the ids it has yet to look at, and the one it has found
      new and has yet to add and dispatch. */
  datatype Callback = Callback(snapshot: set<Id>, rest: set<Id>, holding: Option<Id>)

  datatype Fine = Fine(core: State, callbacks: map<Tid, Callback>)

  datatype Move =
    | Other(step: Step)
    | Enter(t: Tid, k: nat)
    | Check(t: Tid, id: Id)
    | Add(t: Tid)
    | Drop(t: Tid, keep: set<Id>)

  // ---------- the transitions ----------

  predicate Checks(f: Fine, t: Tid) {
    t in f.callbacks && f.callbacks[t].holding.None?
  }

  predicate Possible(f: Fine, move: Move) {
    match move
    case Other(step) => !step.PollDeliver? && Enabled(f.core, step)
    case Enter(t, k) => t !in f.callbacks && f.core.up && k < |f.core.readings|
    case Check(t, id) => Checks(f, t) && id in f.callbacks[t].rest
    case Add(t) => t in f.callbacks && f.callbacks[t].holding.Some?
    case Drop(t, keep) =>
      && Checks(f, t) && f.callbacks[t].rest == {}
      && var left := f.core.seen * f.callbacks[t].snapshot;
      |left| > SEEN_CAP ==> keep <= left && |keep| == SEEN_KEPT
  }

  function At(f: Fine, t: Tid, b: Callback): Fine {
    f.(callbacks := f.callbacks[t := b])
  }

  function Looked(f: Fine, t: Tid, id: Id): Callback
    requires t in f.callbacks
  {
    var b := f.callbacks[t];
    b.(rest := b.rest - {id}, holding := if id in f.core.seen then None else Some(id))
  }

  /** What is left of the ids seen once those gone from the snapshot are dropped; an empty snapshot is ignored. */
  function Dropped(s: State, snapshot: set<Id>, keep: set<Id>): State {
    if snapshot == {} then s
    else s.(seen := if |s.seen * snapshot| > SEEN_CAP then keep else s.seen * snapshot)
  }

  function Dispatched(s: State, id: Id): State {
    s.(seen := s.seen + {id}, lane := s.lane + {id})
  }

  function After(f: Fine, move: Move): Fine
    requires Possible(f, move)
  {
    match move
    case Other(step) => Fine(Next(f.core, step), if step.Crash? then map[] else f.callbacks)
    case Enter(t, k) =>
      var snapshot := f.core.readings[k];
      Fine(f.core.(readings := f.core.readings[..k] + f.core.readings[k + 1..]),
           f.callbacks[t := Callback(snapshot, snapshot, None)])
    case Check(t, id) => At(f, t, Looked(f, t, id))
    case Add(t) =>
      var b := f.callbacks[t];
      At(f.(core := Dispatched(f.core, b.holding.value)), t, b.(holding := None))
    case Drop(t, keep) => Fine(Dropped(f.core, f.callbacks[t].snapshot, keep), f.callbacks - {t})
  }

  /** The premises of `CommandDelivery`; a callback belongs to the poll that read its snapshot. */
  predicate MoveKeepsTo(f: Fine, move: Move, premise: Premise) {
    match move
    case Other(step) =>
      KeepsTo(f.core, step, premise) && (premise == QuietCleanup && step.CleanPending? ==> f.callbacks == map[])
    case Enter(_, k) => KeepsTo(f.core, PollDeliver(k, {}), premise)
    case _ => true
  }

  /** Callbacks do not overlap. */
  predicate Alone(f: Fine, move: Move) {
    move.Enter? ==> f.callbacks == map[]
  }

  ghost predicate Leads(alone: bool, premises: set<Premise>, before: Fine, move: Move, f: Fine) {
    && Possible(before, move)
    && (alone ==> Alone(before, move))
    && (forall premise :: premise in premises ==> MoveKeepsTo(before, move, premise))
    && f == After(before, move)
  }

  ghost predicate FineRun(alone: bool, premises: set<Premise>, first: State, moves: seq<Move>, f: Fine)
    decreases |moves|
  {
    if moves == [] then f == Fine(first, map[])
    else
      var n := |moves| - 1;
      exists before ::
        FineRun(alone, premises, first, moves[..n], before) && Leads(alone, premises, before, moves[n], f)
  }

  lemma LastMove(alone: bool, premises: set<Premise>, first: State, moves: seq<Move>, f: Fine) returns (before: Fine)
    requires moves != [] && FineRun(alone, premises, first, moves, f)
    ensures var n := |moves| - 1;
            FineRun(alone, premises, first, moves[..n], before) && Leads(alone, premises, before, moves[n], f)
  {
    var n := |moves| - 1;
    before :| FineRun(alone, premises, first, moves[..n], before) && Leads(alone, premises, before, moves[n], f);
  }

  // ---------- callbacks that do not overlap are deliveries ----------

  /** No callback under way, or one. */
  datatype Turn = Nobody | One(t: Tid, b: Callback)

  predicate Only(f: Fine, c: Turn) {
    f.callbacks == match c case Nobody => map[] case One(t, b) => map[t := b]
  }

  function Held(b: Callback): set<Id> {
    if b.holding.Some? then {b.holding.value} else {}
  }

  /** What the callback will still dispatch. */
  function Todo(b: Callback, seen: set<Id>): set<Id> {
    (b.rest - seen) + Held(b)
  }

  /** The state with a callback under way carried to its end. */
  function Ended(s: State, b: Callback): State {
    if b.snapshot == {} then s else s.(seen := b.snapshot, lane := s.lane + Todo(b, s.seen))
  }

  function Through(s: State, c: Turn): State {
    match c
    case Nobody => s
    case One(_, b) => Ended(s, b)
  }

  /** Every id of the snapshot has been seen, is held, or is yet to be looked at; what the callback will still
      dispatch is not in hand. */
  ghost predicate Poised(s: State, b: Callback) {
    && s.up && |b.snapshot| <= SEEN_CAP && b.rest <= b.snapshot
    && (b.holding.Some? ==> b.holding.value in b.snapshot && b.holding.value !in b.rest + s.seen)
    && b.snapshot <= s.seen + b.rest + Held(b)
    && Todo(b, s.seen) !! InHand(s)
  }

  /** A cleanup between its halves found nothing stale in the snapshot. */
  ghost predicate Recent(s: State, snapshot: set<Id>) {
    s.cleaning.Some? ==>
      forall id :: id in snapshot ==> id in s.born && s.cleaning.value - s.born[id] <= PENDING_TTL
  }

  ghost predicate OnTrack(s: State, c: Turn) {
    c.One? ==> Poised(s, c.b) && Recent(s, c.b.snapshot)
  }

  /** Steps of the rest of the agent that have nothing to do with what is seen. */
  predicate Aside(step: Step) {
    !step.PollDeliver? && !step.CleanPending? && !step.CleanCompleted? && !step.Crash? && !step.Restart?
  }

  /** A command in hand is not one the callback will still dispatch. */
  lemma HandCommutes(s: State, b: Callback, step: Step)
    requires Poised(s, b) && Enabled(s, step) && (step.MarkRunning? || step.Refuse?)
    ensures Enabled(Ended(s, b), step)
    ensures Next(Ended(s, b), step) == Ended(Next(s, step), b)
  {
    var todo := Todo(b, s.seen);
    assert step.id in InHand(s);
    assert s.lane + todo - {step.id} == (s.lane - {step.id}) + todo;
  }

  lemma ElsewhereCommutes(s: State, b: Callback, step: Step)
    requires Enabled(s, step) && Aside(step) && !step.MarkRunning? && !step.Refuse?
    ensures Enabled(Ended(s, b), step)
    ensures Next(Ended(s, b), step) == Ended(Next(s, step), b)
  {
  }

  lemma AsideCommutes(s: State, c: Turn, step: Step)
    requires OnTrack(s, c) && Enabled(s, step) && Aside(step)
    ensures Enabled(Through(s, c), step) && Next(Through(s, c), step) == Through(Next(s, step), c)
  {
    if c.One? {
      if step.MarkRunning? || step.Refuse? {
        HandCommutes(s, c.b, step);
      } else {
        ElsewhereCommutes(s, c.b, step);
      }
    }
  }

  lemma AsideMoves(s: State, step: Step)
    requires Enabled(s, step) && Aside(step)
    ensures var t := Next(s, step);
            && t.up == s.up && t.seen == s.seen && t.cleaning == s.cleaning && InHand(t) <= InHand(s)
            && forall id :: id in s.born ==> id in t.born && t.born[id] == s.born[id]
  {
    var t := Next(s, step);
    forall id | id in InHand(t) ensures id in InHand(s) {
    }
  }

  lemma AsideStaysOnTrack(s: State, c: Turn, step: Step)
    requires OnTrack(s, c) && Enabled(s, step) && Aside(step)
    ensures OnTrack(Next(s, step), c)
  {
    AsideMoves(s, step);
  }

  /** A cleanup of completed drops nothing of the snapshot: what it expires is older than anything in it. */
  lemma CleanCompletedSpares(s: State, b: Callback, step: Step)
    requires Recent(s, b.snapshot) && Enabled(s, step) && step.CleanCompleted?
    requires forall id :: id in s.completed && Stamp(s.completed[id]) > 0 && id in s.born ==>
               s.born[id] <= Stamp(s.completed[id])
    ensures step.removed !! b.snapshot
  {
  }

  lemma ForgetsOthers(s: State, t: State, b: Callback, removed: set<Id>)
    requires Poised(s, b) && removed !! b.snapshot
    requires t.up && InHand(t) == InHand(s) && (t.seen == s.seen || t.seen == s.seen - removed)
    ensures Poised(t, b) && Todo(b, t.seen) == Todo(b, s.seen)
  {
    assert b.rest - t.seen == b.rest - s.seen;
  }

  lemma CleanCompletedMoves(s: State, step: Step)
    requires Enabled(s, step) && step.CleanCompleted?
    ensures var t := Next(s, step);
            && t.up && t.cleaning.None? && InHand(t) == InHand(s) && t.lane == s.lane
            && (t.seen == s.seen || t.seen == s.seen - step.removed)
  {
  }

  lemma CleanCompletedThrough(s: State, b: Callback, step: Step)
    requires Enabled(s, step) && step.CleanCompleted? && step.removed !! b.snapshot
    requires Todo(b, Next(s, step).seen) == Todo(b, s.seen)
    ensures var u := Ended(s, b);
            Enabled(u, step) && Next(u, step) == Ended(Next(s, step), b)
  {
    var u := Ended(s, b);
    assert OldCompleted(u, s.cleaning.value) == OldCompleted(s, s.cleaning.value);
    assert b.snapshot - step.removed == b.snapshot;
  }

  lemma CleanCompletedCommutes(s: State, c: Turn, step: Step)
    requires OnTrack(s, c) && Enabled(s, step) && step.CleanCompleted?
    requires c.One? ==> step.removed !! c.b.snapshot
    ensures Enabled(Through(s, c), step) && Next(Through(s, c), step) == Through(Next(s, step), c)
    ensures OnTrack(Next(s, step), c)
  {
    if c.One? {
      CleanCompletedMoves(s, step);
      ForgetsOthers(s, Next(s, step), c.b, step.removed);
      CleanCompletedThrough(s, c.b, step);
    }
  }

  lemma EnterIsOnTrack(s: State)
    requires Sound(s) && s.up && s.readings != [] && |s.readings[0]| <= SEEN_CAP
    ensures var snapshot := s.readings[0];
            var t := s.(readings := s.readings[1..]);
            Poised(t, Callback(snapshot, snapshot, None)) && Recent(t, snapshot)
  {
    var snapshot := s.readings[0];
    NewlyInHand(s);
    assert InHand(s.(readings := s.readings[1..])) == InHand(s);
    forall id | id in snapshot ensures InFlight(s, id) {
    }
  }

  lemma EnterThrough(s: State)
    requires s.up && s.readings != [] && |s.readings[0]| <= SEEN_CAP
    ensures var snapshot := s.readings[0];
            && Enabled(s, PollDeliver(0, {}))
            && Next(s, PollDeliver(0, {}))
               == Ended(s.(readings := s.readings[1..]), Callback(snapshot, snapshot, None))
  {
    var snapshot := s.readings[0];
    assert s.readings[..0] + s.readings[1..] == s.readings[1..];
    assert Todo(Callback(snapshot, snapshot, None), s.seen) == snapshot - s.seen;
  }

  lemma EnterDelivers(f: Fine, t: Tid)
    requires f.callbacks == map[] && Possible(f, Enter(t, 0)) && Sound(f.core) && |f.core.readings[0]| <= SEEN_CAP
    ensures var snapshot := f.core.readings[0];
            var c := One(t, Callback(snapshot, snapshot, None));
            var g := After(f, Enter(t, 0));
            && Only(g, c) && OnTrack(g.core, c)
            && Enabled(f.core, PollDeliver(0, {})) && Next(f.core, PollDeliver(0, {})) == Through(g.core, c)
  {
    var s, g := f.core, After(f, Enter(t, 0));
    var b := Callback(s.readings[0], s.readings[0], None);
    EnterIsOnTrack(s);
    EnterThrough(s);
    assert s.readings[..0] + s.readings[1..] == s.readings[1..];
    assert g == Fine(s.(readings := s.readings[1..]), map[t := b]);
  }

  /** Looking at an id, and adding and dispatching it, leave the end the callback is going to as it is. */
  lemma CheckIsSilent(f: Fine, b: Callback, t: Tid, id: Id)
    requires f.callbacks == map[t := b] && OnTrack(f.core, One(t, b)) && Possible(f, Check(t, id))
    ensures var g, c := After(f, Check(t, id)), One(t, Looked(f, t, id));
            Only(g, c) && OnTrack(g.core, c) && Through(g.core, c) == Ended(f.core, b)
  {
    var d := Looked(f, t, id);
    assert After(f, Check(t, id)).callbacks == map[t := d];
    assert Todo(d, f.core.seen) == Todo(b, f.core.seen);
  }

  lemma AddStaysPoised(s: State, b: Callback)
    requires Poised(s, b) && b.holding.Some?
    ensures var t, d := Dispatched(s, b.holding.value), b.(holding := None);
            && Poised(t, d)
            && t.lane + Todo(d, t.seen) == s.lane + Todo(b, s.seen)
  {
    var t, id := Dispatched(s, b.holding.value), b.holding.value;
    assert b.rest - (s.seen + {id}) == b.rest - s.seen;
    assert InHand(t) == InHand(s) + {id};
  }

  lemma AddLands(f: Fine, b: Callback, t: Tid)
    requires f.callbacks == map[t := b] && b.holding.Some?
    ensures After(f, Add(t)) == Fine(Dispatched(f.core, b.holding.value), map[t := b.(holding := None)])
  {
    assert f.callbacks[t := b.(holding := None)] == map[t := b.(holding := None)];
  }

  lemma AddThrough(s: State, b: Callback)
    requires b.holding.Some? && b.holding.value in b.snapshot
    requires var t, d := Dispatched(s, b.holding.value), b.(holding := None);
             t.lane + Todo(d, t.seen) == s.lane + Todo(b, s.seen)
    ensures Ended(Dispatched(s, b.holding.value), b.(holding := None)) == Ended(s, b)
  {
  }

  lemma AddIsSilent(f: Fine, b: Callback, t: Tid)
    requires f.callbacks == map[t := b] && OnTrack(f.core, One(t, b)) && Possible(f, Add(t))
    ensures var g, c := After(f, Add(t)), One(t, b.(holding := None));
            Only(g, c) && OnTrack(g.core, c) && Through(g.core, c) == Ended(f.core, b)
  {
    AddLands(f, b, t);
    AddStaysPoised(f.core, b);
    AddThrough(f.core, b);
  }

  lemma DropIsSilent(f: Fine, b: Callback, t: Tid, keep: set<Id>)
    requires f.callbacks == map[t := b] && OnTrack(f.core, One(t, b)) && Possible(f, Drop(t, keep))
    ensures var g := After(f, Drop(t, keep));
            Only(g, Nobody) && g.core == Ended(f.core, b)
  {
    assert f.callbacks - {t} == map[];
    assert Todo(b, f.core.seen) == {};
    assert f.core.seen * b.snapshot == b.snapshot;
    assert f.core.lane + {} == f.core.lane;
  }
}
