/** The other direction: every delivery can be carried out callback step by callback step, so the runs of
    `CommandLimits` are runs of the finer machine; and the run that overlapping callbacks add. */
module CommandOverlaps {
  import opened Json
  import opened CommandDelivery
  import opened CommandCallbacks
  import opened CommandLimits

  /** Some run leads from `first` to `f`. */
  ghost predicate Comes(alone: bool, premises: set<Premise>, first: State, f: Fine) {
    exists moves :: FineRun(alone, premises, first, moves, f)
  }

  lemma OneMore(alone: bool, premises: set<Premise>, first: State, f: Fine, move: Move, g: Fine)
    requires Comes(alone, premises, first, f) && Possible(f, move) && (alone ==> Alone(f, move))
    requires forall premise :: premise in premises ==> MoveKeepsTo(f, move, premise)
    requires g == After(f, move)
    ensures Comes(alone, premises, first, g)
  {
    var moves :| FineRun(alone, premises, first, moves, f);
    assert (moves + [move])[..|moves|] == moves;
    assert FineRun(alone, premises, first, moves + [move], g);
  }

  // ---------- a delivery, step by step ----------

  /** A callback with `rest` yet to look at. */
  function Midway(s: State, snapshot: set<Id>, rest: set<Id>): Fine {
    Fine(s, map[0 := Callback(snapshot, rest, None)])
  }

  function Gone(s: State, ids: set<Id>): State {
    s.(seen := s.seen + ids, lane := s.lane + (ids - s.seen))
  }

  lemma GoneOne(s: State, id: Id, rest: set<Id>)
    requires id !in rest
    ensures id in s.seen ==> Gone(s, {id} + rest) == Gone(s, rest)
    ensures id !in s.seen ==> Gone(s, {id} + rest) == Gone(Dispatched(s, id), rest)
  {
    if id in s.seen {
      assert {id} + rest - s.seen == rest - s.seen;
      assert s.seen + ({id} + rest) == s.seen + rest;
    } else {
      assert s.lane + ({id} + rest - s.seen) == s.lane + {id} + (rest - (s.seen + {id}));
      assert s.seen + ({id} + rest) == s.seen + {id} + rest;
    }
  }

  /** An id looked at. */
  function Looking(s: State, snapshot: set<Id>, rest: set<Id>, id: Id): Fine {
    Fine(s, map[0 := Callback(snapshot, rest - {id}, if id in s.seen then None else Some(id))])
  }

  lemma LookStep(s: State, snapshot: set<Id>, rest: set<Id>, id: Id)
    requires id in rest
    ensures After(Midway(s, snapshot, rest), Check(0, id)) == Looking(s, snapshot, rest, id)
    ensures id !in s.seen ==>
              && Possible(Looking(s, snapshot, rest, id), Add(0))
              && After(Looking(s, snapshot, rest, id), Add(0)) == Midway(Dispatched(s, id), snapshot, rest - {id})
  {
    var b := Callback(snapshot, rest - {id}, if id in s.seen then None else Some(id));
    assert Midway(s, snapshot, rest).callbacks[0 := b] == map[0 := b];
    assert map[0 := b][0 := b.(holding := None)] == map[0 := b.(holding := None)];
  }

  /** One id looked at and, if it is new, added and dispatched. */
  lemma LookAndAdd(premises: set<Premise>, first: State, s: State, snapshot: set<Id>, rest: set<Id>, id: Id)
    requires Comes(true, premises, first, Midway(s, snapshot, rest)) && id in rest
    ensures Comes(true, premises, first,
                  Midway(if id in s.seen then s else Dispatched(s, id), snapshot, rest - {id}))
  {
    var looked := Looking(s, snapshot, rest, id);
    LookStep(s, snapshot, rest, id);
    OneMore(true, premises, first, Midway(s, snapshot, rest), Check(0, id), looked);
    if id !in s.seen {
      OneMore(true, premises, first, looked, Add(0), Midway(Dispatched(s, id), snapshot, rest - {id}));
    }
  }

  lemma {:induction false} LookAtAll(premises: set<Premise>, first: State, s: State, snapshot: set<Id>, rest: set<Id>)
    requires Comes(true, premises, first, Midway(s, snapshot, rest))
    ensures Comes(true, premises, first, Midway(Gone(s, rest), snapshot, {}))
    decreases rest
  {
    if rest == {} {
      assert s.seen + {} == s.seen && s.lane + ({} - s.seen) == s.lane;
    } else {
      var id :| id in rest;
      LookAndAdd(premises, first, s, snapshot, rest, id);
      LookAtAll(premises, first, if id in s.seen then s else Dispatched(s, id), snapshot, rest - {id});
      GoneOne(s, id, rest - {id});
      assert {id} + (rest - {id}) == rest;
    }
  }

  /** Its last move done, an uninterrupted callback has come to the delivery. */
  lemma DropDelivers(s: State, snapshot: set<Id>, keep: set<Id>)
    requires |snapshot| > SEEN_CAP ==> keep <= snapshot && |keep| == SEEN_KEPT
    ensures var f := Midway(Gone(s, snapshot), snapshot, {});
            Possible(f, Drop(0, keep)) && After(f, Drop(0, keep)) == Fine(DeliverSpec(s, snapshot, keep), map[])
  {
    var f := Midway(Gone(s, snapshot), snapshot, {});
    assert (s.seen + snapshot) * snapshot == snapshot;
    assert f.callbacks - {0} == map[];
    if snapshot == {} {
      assert Gone(s, {}) == s by {
        assert s.seen + {} == s.seen && s.lane + ({} - s.seen) == s.lane;
      }
    }
  }

  lemma DeliveryComes(premises: set<Premise>, first: State, s: State, k: nat, keep: set<Id>)
    requires Comes(true, premises, first, Fine(s, map[])) && Enabled(s, PollDeliver(k, keep))
    requires forall premise :: premise in premises ==> KeepsTo(s, PollDeliver(k, keep), premise)
    ensures Comes(true, premises, first, Fine(Next(s, PollDeliver(k, keep)), map[]))
  {
    var snapshot := s.readings[k];
    var taken := s.(readings := s.readings[..k] + s.readings[k + 1..]);
    OneMore(true, premises, first, Fine(s, map[]), Enter(0, k), Midway(taken, snapshot, snapshot));
    LookAtAll(premises, first, taken, snapshot, snapshot);
    DropDelivers(taken, snapshot, keep);
    var end := Midway(Gone(taken, snapshot), snapshot, {});
    OneMore(true, premises, first, end, Drop(0, keep), After(end, Drop(0, keep)));
  }

  /** Every run of `CommandDelivery` is a run without overlaps that keeps to the same premises. */
  lemma {:induction false} Embeds(premises: set<Premise>, first: State, steps: seq<Step>, s: State)
    requires RunKeeping(premises, first, steps, s)
    ensures Comes(true, premises, first, Fine(s, map[]))
    decreases |steps|
  {
    if steps == [] {
      assert FineRun(true, premises, first, [], Fine(s, map[]));
    } else {
      var n := |steps| - 1;
      var before := LastStep(premises, first, steps, s);
      Embeds(premises, first, steps[..n], before);
      if steps[n].PollDeliver? {
        DeliveryComes(premises, first, before, steps[n].k, steps[n].keep);
      } else {
        OneMore(true, premises, first, Fine(before, map[]), Other(steps[n]), Fine(s, map[]));
      }
    }
  }

  // ---------- each premise is needed ----------

  /** Each premise of `HandledOnce` but one kept, and no overlap, a command can still run twice. */
  lemma {:induction false} EachIsNeeded(premise: Premise, id: Id, other: Id, n: nat) returns (f: Fine, twice: Id)
    requires other != id && n > SEEN_CAP
    ensures Comes(true, RELIABLE - {premise}, START, f) && f.core.executed == [twice, twice]
  {
    var steps, s;
    twice := id;
    match premise {
      case InOrder => steps, s := PollsOutOfOrder(id, other);
      case UnderCap =>
        twice := Name(0);
        steps, s := CapForgets(n);
      case QuietCleanup => steps, s := CleanupDuringPoll(id);
      case Stamped => steps, s := Unstamped(id);
      case Markers => steps, s := MarkerLost(id);
      case Seeded => steps, s := SeedUnread(id);
    }
    Embeds(RELIABLE - {premise}, START, steps, s);
    f := Fine(s, map[]);
  }

  // ---------- callbacks that overlap ----------

  /** `s` after one of its dispatched commands has been marked and handed to its handler. */
  function Ran(s: State, id: Id): State {
    s.(lane := s.lane - {id}, executed := s.executed + [id], completed := WithRunning(s.completed, id, s.clock),
       active := s.active[id := Called])
  }

  lemma CoreSteps(f: Fine, id: Id)
    requires f.core.up && id in f.core.lane && id !in f.core.active
    requires Comes(false, RELIABLE, START, f)
    ensures Comes(false, RELIABLE, START, f.(core := Ran(f.core, id)))
  {
    var mark, call := MarkRunning(id, true), Execute(id);
    var marked := Fine(Next(f.core, mark), f.callbacks);
    OneMore(false, RELIABLE, START, f, Other(mark), marked);
    var called := Fine(Next(marked.core, call), f.callbacks);
    OneMore(false, RELIABLE, START, marked, Other(call), called);
    assert f.core.active[id := Marked][id := Called] == f.core.active[id := Called];
  }

  lemma {:induction false} Loosen(premises: set<Premise>, first: State, moves: seq<Move>, f: Fine)
    requires FineRun(true, premises, first, moves, f)
    ensures FineRun(false, premises, first, moves, f)
    decreases |moves|
  {
    if moves != [] {
      var before := LastMove(true, premises, first, moves, f);
      Loosen(premises, first, moves[..|moves| - 1], before);
    }
  }

  /** One new command, read by two polls. */
  function ReadTwice(id: Id): State {
    START.(up := true, clock := 1, pending := map[id := 1], born := map[id := 1], readings := [{id}, {id}])
  }

  lemma TwoReadings(id: Id)
    ensures Comes(false, RELIABLE, START, Fine(ReadTwice(id), map[]))
  {
    var steps, s := StartUp(RELIABLE);
    steps := CommandLimits.Extend(RELIABLE, steps, s, Submit(id, true));
    var s1 := Next(s, Submit(id, true));
    assert s1.pending == map[id := 1] && s1.born == map[id := 1];
    steps := ExtendFreely(RELIABLE, steps, s1, PollRead);
    var s2 := Next(s1, PollRead);
    steps := ExtendFreely(RELIABLE, steps, s2, PollRead);
    assert s1.pending.Keys == {id} && [{id}] + [{id}] == [{id}, {id}];
    Embeds(RELIABLE, START, steps, ReadTwice(id));
    var moves :| FineRun(true, RELIABLE, START, moves, Fine(ReadTwice(id), map[]));
    Loosen(RELIABLE, START, moves, Fine(ReadTwice(id), map[]));
  }

  /** Both callbacks entered; `a` and `b` are how far they have got. */
  function Both(s: State, a: Callback, b: Callback): Fine {
    Fine(s, map[0 := a, 1 := b])
  }

  lemma BothEnter(id: Id)
    ensures var b := Callback({id}, {id}, None);
            Comes(false, RELIABLE, START, Both(ReadTwice(id).(readings := []), b, b))
  {
    var s, b := ReadTwice(id), Callback({id}, {id}, None);
    var f := Fine(s.(readings := [{id}]), map[0 := b]);
    TwoReadings(id);
    assert |{id}| == 1;
    OneMore(false, RELIABLE, START, Fine(s, map[]), Enter(0, 0), f);
    OneMore(false, RELIABLE, START, f, Enter(1, 0), Both(s.(readings := []), b, b));
  }

  /** Both find the command new before either has added it. */
  lemma BothLook(id: Id)
    ensures var b := Callback({id}, {}, Some(id));
            Comes(false, RELIABLE, START, Both(ReadTwice(id).(readings := []), b, b))
  {
    var s, a, b := ReadTwice(id).(readings := []), Callback({id}, {id}, None), Callback({id}, {}, Some(id));
    BothEnter(id);
    assert {id} - {id} == {};
    assert Both(s, a, a).callbacks[0 := b] == Both(s, b, a).callbacks;
    OneMore(false, RELIABLE, START, Both(s, a, a), Check(0, id), Both(s, b, a));
    assert Both(s, b, a).callbacks[1 := b] == Both(s, b, b).callbacks;
    OneMore(false, RELIABLE, START, Both(s, b, a), Check(1, id), Both(s, b, b));
  }

  lemma AddStep(s: State, a: Callback, b: Callback)
    requires a.holding.Some?
    requires Comes(false, RELIABLE, START, Both(s, a, b))
    ensures Comes(false, RELIABLE, START, Both(Dispatched(s, a.holding.value), a.(holding := None), b))
  {
    var g := Both(Dispatched(s, a.holding.value), a.(holding := None), b);
    assert Both(s, a, b).callbacks[0 := a.(holding := None)] == g.callbacks;
    OneMore(false, RELIABLE, START, Both(s, a, b), Add(0), g);
  }

  lemma AddOtherStep(s: State, a: Callback, b: Callback)
    requires b.holding.Some?
    requires Comes(false, RELIABLE, START, Both(s, a, b))
    ensures Comes(false, RELIABLE, START, Both(Dispatched(s, b.holding.value), a, b.(holding := None)))
  {
    var g := Both(Dispatched(s, b.holding.value), a, b.(holding := None));
    assert Both(s, a, b).callbacks[1 := b.(holding := None)] == g.callbacks;
    OneMore(false, RELIABLE, START, Both(s, a, b), Add(1), g);
  }

  /** The first of the two adds the command, which is marked, handled and finished. */
  lemma FirstRuns(id: Id)
    ensures var a, b := Callback({id}, {}, None), Callback({id}, {}, Some(id));
            var s := Ran(Dispatched(ReadTwice(id).(readings := []), id), id);
            var finish := Finish(id, Completed, true, true);
            && Enabled(s, finish)
            && Comes(false, RELIABLE, START, Both(Next(s, finish), a, b))
            && Next(s, finish).executed == [id] && id !in Next(s, finish).active && Next(s, finish).up
  {
    var a, b := Callback({id}, {}, None), Callback({id}, {}, Some(id));
    var s := ReadTwice(id).(readings := []);
    BothLook(id);
    AddStep(s, b, b);
    CoreSteps(Both(Dispatched(s, id), a, b), id);
    var ran := Ran(Dispatched(s, id), id);
    var finish := Finish(id, Completed, true, true);
    OneMore(false, RELIABLE, START, Both(ran, a, b), Other(finish), Both(Next(ran, finish), a, b));
  }

  /** Two polls that have read the same new command, both callbacks looking at it before either adds it: every
      premise but this one kept, it is handed to its handler twice. */
  lemma OverlappingCallbacks(id: Id) returns (f: Fine)
    ensures Comes(false, RELIABLE, START, f) && f.core.executed == [id, id]
  {
    var a, b := Callback({id}, {}, None), Callback({id}, {}, Some(id));
    FirstRuns(id);
    var s := Next(Ran(Dispatched(ReadTwice(id).(readings := []), id), id), Finish(id, Completed, true, true));
    AddOtherStep(s, a, b);
    CoreSteps(Both(Dispatched(s, id), a, a), id);
    f := Both(Ran(Dispatched(s, id), id), a, a);
    assert f.core.executed == [id] + [id];
  }
}
