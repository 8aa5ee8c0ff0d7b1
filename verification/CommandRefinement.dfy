/** Callbacks that do not overlap come to the deliveries of `CommandDelivery`, and what is proved of those holds of
    them. */
module CommandRefinement {
  import opened Json
  import opened CommandDelivery
  import opened CommandCallbacks

  lemma OnlyWhenUnderWay(f: Fine, c: Turn)
    requires Only(f, c)
    ensures c.One? <==> f.callbacks != map[]
  {
    assert c.One? ==> c.t in f.callbacks;
  }

  /** A step of the rest of the agent; a crash ends the callback, and a cleanup of pending finds none. */
  lemma OtherRefines(f: Fine, c: Turn, step: Step) returns (d: Turn)
    requires Only(f, c) && OnTrack(f.core, c) && Times(Through(f.core, c))
    requires Possible(f, Other(step)) && MoveKeepsTo(f, Other(step), QuietCleanup)
    ensures var g := After(f, Other(step));
            && Only(g, d) && OnTrack(g.core, d)
            && Enabled(Through(f.core, c), step) && Next(Through(f.core, c), step) == Through(g.core, d)
  {
    d := c;
    OnlyWhenUnderWay(f, c);
    if Aside(step) {
      AsideCommutes(f.core, c, step);
      AsideStaysOnTrack(f.core, c, step);
    } else if step.CleanCompleted? {
      if c.One? {
        CleanCompletedSpares(f.core, c.b, step);
      }
      CleanCompletedCommutes(f.core, c, step);
    } else {
      d := Nobody;
      assert c.One? ==> step.Crash?;
    }
  }

  lemma SilentRefines(f: Fine, t: Tid, b: Callback, move: Move) returns (d: Turn)
    requires Only(f, One(t, b)) && OnTrack(f.core, One(t, b)) && Possible(f, move)
    requires move.Check? || move.Add? || move.Drop?
    ensures var g := After(f, move);
            Only(g, d) && OnTrack(g.core, d) && Through(g.core, d) == Ended(f.core, b)
  {
    assert f.callbacks.Keys == {t};
    match move {
      case Check(_, id) =>
        d := One(t, Looked(f, t, id));
        CheckIsSilent(f, b, t, id);
      case Add(_) =>
        d := One(t, b.(holding := None));
        AddIsSilent(f, b, t);
      case Drop(_, keep) =>
        d := Nobody;
        DropIsSilent(f, b, t, keep);
    }
  }

  /** The delivery, or the step of the rest of the agent, a move comes to; the moves inside a callback come to
      none. */
  function StepOf(move: Move): seq<Step> {
    match move
    case Other(step) => [step]
    case Enter(_, k) => [PollDeliver(k, {})]
    case _ => []
  }

  /** One move of a run without overlaps, seen from the end its callback is going to. */
  lemma MoveRefines(f: Fine, c: Turn, move: Move) returns (d: Turn)
    requires Only(f, c) && OnTrack(f.core, c) && Sound(Through(f.core, c))
    requires Possible(f, move) && Alone(f, move)
    requires forall premise :: premise in DISCIPLINE ==> MoveKeepsTo(f, move, premise)
    ensures var g, u, v := After(f, move), Through(f.core, c), Through(After(f, move).core, d);
            && Only(g, d) && OnTrack(g.core, d)
            && if StepOf(move) == [] then v == u else Enabled(u, StepOf(move)[0]) && Next(u, StepOf(move)[0]) == v
  {
    match move
    case Other(step) =>
      d := OtherRefines(f, c, step);
    case Enter(t, k) =>
      assert MoveKeepsTo(f, move, InOrder) && MoveKeepsTo(f, move, UnderCap);
      OnlyWhenUnderWay(f, c);
      d := One(t, Callback(f.core.readings[0], f.core.readings[0], None));
      EnterDelivers(f, t);
    case _ =>
      OnlyWhenUnderWay(f, c);
      d := SilentRefines(f, c.t, c.b, move);
  }

  lemma StepKeepsTo(f: Fine, c: Turn, move: Move, premise: Premise)
    requires MoveKeepsTo(f, move, premise) && StepOf(move) != []
    ensures KeepsTo(Through(f.core, c), StepOf(move)[0], premise)
  {
  }

  lemma {:induction false} Weaken(premises: set<Premise>, fewer: set<Premise>, first: State, steps: seq<Step>, s: State)
    requires RunKeeping(premises, first, steps, s) && fewer <= premises
    ensures RunKeeping(fewer, first, steps, s)
    decreases |steps|
  {
    if steps != [] {
      var before := LastStep(premises, first, steps, s);
      Weaken(premises, fewer, first, steps[..|steps| - 1], before);
    }
  }

  lemma Grow(premises: set<Premise>, first: State, path: seq<Step>, f: Fine, c: Turn, move: Move, v: State)
    returns (steps: seq<Step>)
    requires RunKeeping(premises, first, path, Through(f.core, c))
    requires forall premise :: premise in premises ==> MoveKeepsTo(f, move, premise)
    requires var u := Through(f.core, c);
             if StepOf(move) == [] then v == u else Enabled(u, StepOf(move)[0]) && Next(u, StepOf(move)[0]) == v
    ensures RunKeeping(premises, first, steps, v)
  {
    steps := path + StepOf(move);
    if StepOf(move) == [] {
      assert steps == path;
    } else {
      forall premise | premise in premises ensures KeepsTo(Through(f.core, c), StepOf(move)[0], premise) {
        StepKeepsTo(f, c, move, premise);
      }
      assert steps[..|steps| - 1] == path;
    }
  }

  /** Every run whose callbacks do not overlap, seen from the end of the callback under way, is a run of
      `CommandDelivery` that keeps to the same premises. */
  lemma {:induction false} Refines(premises: set<Premise>, first: State, moves: seq<Move>, f: Fine)
    returns (steps: seq<Step>, c: Turn)
    requires Initial(first) && DISCIPLINE <= premises && FineRun(true, premises, first, moves, f)
    ensures Only(f, c) && OnTrack(f.core, c) && RunKeeping(premises, first, steps, Through(f.core, c))
    decreases |moves|
  {
    if moves == [] {
      steps, c := [], Nobody;
    } else {
      var n := |moves| - 1;
      var before := LastMove(true, premises, first, moves, f);
      var path, b := Refines(premises, first, moves[..n], before);
      Weaken(premises, DISCIPLINE, first, path, Through(before.core, b));
      RunIsSound(first, path, Through(before.core, b));
      c := MoveRefines(before, b, moves[n]);
      steps := Grow(premises, first, path, before, b, moves[n], Through(f.core, c));
    }
  }

  // ---------- what is kept ----------

  /** In every reliable run whose callbacks do not overlap, whatever else happens inside them, no command is
      handed to its handler twice. */
  lemma {:induction false} HandledOnce(first: State, moves: seq<Move>, f: Fine)
    requires Initial(first) && FineRun(true, RELIABLE, first, moves, f)
    ensures forall i, j :: 0 <= i < j < |f.core.executed| ==> f.core.executed[i] != f.core.executed[j]
  {
    var steps, c := Refines(RELIABLE, first, moves, f);
    AtMostOnce(first, steps, Through(f.core, c));
    assert Through(f.core, c).executed == f.core.executed;
  }

  /** In every disciplined one each command is still pending, has a terminal entry, or was expired. */
  lemma {:induction false} Conserved(first: State, moves: seq<Move>, f: Fine, id: Id)
    requires Initial(first) && FineRun(true, DISCIPLINE, first, moves, f) && id in f.core.born
    ensures id in f.core.pending || IsTerminal(f.core.completed, id) || id in f.core.expired
  {
    var steps, c := Refines(DISCIPLINE, first, moves, f);
    CommandConservation(first, steps, Through(f.core, c), id);
  }

  lemma MoveLosesNone(f: Fine, move: Move, id: Id)
    requires Possible(f, move) && id in After(f, move).core.born
    requires id in f.core.born ==> id in f.core.pending || id in f.core.completed || id in f.core.expired
    ensures var s := After(f, move).core; id in s.pending || id in s.completed || id in s.expired
  {
    if move.Other? {
      EntryOrPending(f.core, move.step, id);
    }
  }

  /** In every run at all, overlapping callbacks included, each is pending, has an entry, or was expired. */
  lemma {:induction false} NoneIsLost(first: State, moves: seq<Move>, f: Fine, id: Id)
    requires Initial(first) && FineRun(false, {}, first, moves, f) && id in f.core.born
    ensures id in f.core.pending || id in f.core.completed || id in f.core.expired
    decreases |moves|
  {
    if moves != [] {
      var n := |moves| - 1;
      var before := LastMove(false, {}, first, moves, f);
      if id in before.core.born {
        NoneIsLost(first, moves[..n], before, id);
      }
      MoveLosesNone(before, moves[n], id);
    }
  }
}
