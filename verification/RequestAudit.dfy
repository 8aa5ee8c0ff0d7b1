/** The audit of privileged requests and the rate limit read back out of it, over runs with rotations, crashes
    and refusals. Times are seconds of a clock that does not go back. */
module RequestAudit {
  import opened Json

  const RATE_LIMIT: real := 300.0

  datatype Verb = Pair | Restart | Reboot
  datatype Outcome = Executed | Failed | RateLimited | InProgress

  datatype Row = Row(verb: Verb, outcome: Outcome, at: real)

  /** Every row ever written, in order. The live file holds the rows from `live` on, the generation behind it
      those from `older` to `live`. */
  datatype Audit = Audit(rows: seq<Row>, older: nat, live: nat)

  /** How many rows the tail of a file holds, and how many a file holds before it is rotated. */
  datatype Limits = Limits(tail: nat, file: nat)

  predicate Sound(l: Limits) {
    0 < l.tail <= l.file
  }

  predicate Limited(v: Verb) {
    v == Restart || v == Reboot
  }

  // ---------- appending and reading back ----------

  /** A file that has grown to its limit becomes the older generation before the row is appended. */
  function Append(a: Audit, row: Row, l: Limits): Audit {
    if |a.rows| - a.live >= l.file then Audit(a.rows + [row], a.live, |a.rows|)
    else a.(rows := a.rows + [row])
  }

  /** An audit of rows appended one after another. */
  function AppendAll(rows: seq<Row>, l: Limits): Audit {
    if rows == [] then Audit([], 0, 0)
    else
      var n := |rows| - 1;
      Append(AppendAll(rows[..n], l), rows[n], l)
  }

  /** A file is rotated when it is full and not before: the live file holds at least one row and no more than its
      limit, and the generation behind it, once there is one, is full. */
  lemma {:induction false} FilesAfter(rows: seq<Row>, l: Limits)
    requires l.file > 0 && rows != []
    ensures var a := AppendAll(rows, l);
            && a.rows == rows && 0 < |rows| - a.live <= l.file
            && a.older == if a.live == 0 then 0 else a.live - l.file
    ensures var a := AppendAll(rows, l);
            a.live == 0 <==> |rows| <= l.file
  {
    var n := |rows| - 1;
    assert rows == rows[..n] + [rows[n]];
    if n > 0 {
      FilesAfter(rows[..n], l);
    }
  }

  predicate Shaped(a: Audit, l: Limits) {
    && a.older <= a.live <= |a.rows|
    && (a.older > 0 ==> a.live - a.older >= l.file)
  }

  /** The last row of `rows[from..to]` that says `verb` was executed. */
  function LastExecuted(rows: seq<Row>, verb: Verb, from: nat, to: nat): (r: Option<nat>)
    requires from <= to <= |rows|
    ensures r.Some? ==> from <= r.value < to && rows[r.value].verb == verb && rows[r.value].outcome == Executed
  {
    if from == to then None
    else if rows[to - 1].verb == verb && rows[to - 1].outcome == Executed then Some(to - 1)
    else LastExecuted(rows, verb, from, to - 1)
  }

  function TailStart(from: nat, to: nat, l: Limits): (start: nat)
    requires from <= to
    ensures from <= start <= to
  {
    if to - from > l.tail then to - l.tail else from
  }

  /** The tail of the live file, and then the tail of the generation behind it. */
  function FindLast(a: Audit, verb: Verb, l: Limits): Option<nat>
    requires a.older <= a.live <= |a.rows|
  {
    var found := LastExecuted(a.rows, verb, TailStart(a.live, |a.rows|, l), |a.rows|);
    if found.Some? then found else LastExecuted(a.rows, verb, TailStart(a.older, a.live, l), a.live)
  }

  /** The scans of the source, row by row from the end. */
  method SecondsSinceLast(a: Audit, verb: Verb, now: real, l: Limits) returns (waited: Option<real>)
    requires Shaped(a, l)
    ensures var found := FindLast(a, verb, l);
            waited == if found.None? then None
                      else Some(if now - a.rows[found.value].at < 0.0 then 0.0 else now - a.rows[found.value].at)
  {
    var found := Scan(a.rows, verb, TailStart(a.live, |a.rows|, l), |a.rows|);
    if found.None? {
      found := Scan(a.rows, verb, TailStart(a.older, a.live, l), a.live);
    }
    if found.None? {
      return None;
    }
    var since := now - a.rows[found.value].at;
    return Some(if since < 0.0 then 0.0 else since);
  }

  method Scan(rows: seq<Row>, verb: Verb, from: nat, to: nat) returns (found: Option<nat>)
    requires from <= to <= |rows|
    ensures found == LastExecuted(rows, verb, from, to)
  {
    var i := to;
    while i > from
      invariant from <= i <= to
      invariant LastExecuted(rows, verb, from, to) == LastExecuted(rows, verb, from, i)
    {
      i := i - 1;
      if rows[i].verb == verb && rows[i].outcome == Executed {
        return Some(i);
      }
    }
    return None;
  }

  lemma {:induction false} LastExecutedIs(rows: seq<Row>, verb: Verb, from: nat, to: nat)
    requires from <= to <= |rows|
    ensures var f := LastExecuted(rows, verb, from, to);
            forall i :: from <= i < to && rows[i].verb == verb && rows[i].outcome == Executed ==>
                f.Some? && i <= f.value
  {
    if from < to && !(rows[to - 1].verb == verb && rows[to - 1].outcome == Executed) {
      LastExecutedIs(rows, verb, from, to - 1);
    }
  }

  /** A row among the last `tail` ever written is found through any rotation. */
  lemma RecentRowsAreFound(a: Audit, verb: Verb, l: Limits, i: nat)
    requires Shaped(a, l) && Sound(l) && i < |a.rows| && |a.rows| - i <= l.tail
    requires a.rows[i].verb == verb && a.rows[i].outcome == Executed
    ensures var f := FindLast(a, verb, l);
            f.Some? && i <= f.value
  {
    LastExecutedIs(a.rows, verb, TailStart(a.live, |a.rows|, l), |a.rows|);
    LastExecutedIs(a.rows, verb, TailStart(a.older, a.live, l), a.live);
  }

  /** Where the scans look: the last `tail` rows of either file. */
  predicate Scanned(a: Audit, l: Limits, i: int) {
    || (a.live <= i < |a.rows| && |a.rows| - i <= l.tail)
    || (a.older <= i < a.live && a.live - i <= l.tail)
  }

  /** They find an execution exactly if there is one where they look, and of those the latest. */
  lemma FoundExactly(a: Audit, verb: Verb, l: Limits, i: nat)
    requires a.older <= a.live <= |a.rows|
    ensures var f := FindLast(a, verb, l);
            && (f.Some? ==> Scanned(a, l, f.value) && a.rows[f.value].verb == verb
                            && a.rows[f.value].outcome == Executed)
            && (i < |a.rows| && Scanned(a, l, i) && a.rows[i].verb == verb && a.rows[i].outcome == Executed ==>
                  f.Some? && i <= f.value)
  {
    LastExecutedIs(a.rows, verb, TailStart(a.live, |a.rows|, l), |a.rows|);
    LastExecutedIs(a.rows, verb, TailStart(a.older, a.live, l), a.live);
  }

  // ---------- runs ----------

  /** The agent between requests, or with a verb running whose row is written. `ran` is history: what was run,
      and when. */
  datatype State = State(audit: Audit, clock: real, running: Option<Verb>, ran: seq<Row>)

  /** `written` is whether the row reaches the file. */
  datatype Step =
    | Tick(elapsed: real)
    | Request(verb: Verb, pairing: bool, delay: real, written: bool)
    | Fail(written: bool)
    | Return
    | Crash

  predicate Enabled(s: State, step: Step) {
    match step
    case Tick(elapsed) => elapsed >= 0.0
    case Request(_, _, delay, _) => s.running.None? && delay >= 0.0
    case Fail(_) => s.running.Some?
    case Return => s.running.Some?
    case Crash => true
  }

  /** What becomes of an accepted request: a pairing waits its turn, a restart or a reboot its window. */
  function OutcomeOf(a: Audit, verb: Verb, pairing: bool, now: real, l: Limits): Outcome
    requires a.older <= a.live <= |a.rows|
  {
    if verb == Pair && pairing then InProgress
    else if !Limited(verb) then Executed
    else
      var found := FindLast(a, verb, l);
      if found.Some? && now - a.rows[found.value].at < RATE_LIMIT then RateLimited else Executed
  }

  function Written(a: Audit, row: Row, written: bool, l: Limits): Audit {
    if written then Append(a, row, l) else a
  }

  /** The row is written `delay` after the check, and before the verb runs. */
  function Next(s: State, step: Step, l: Limits): State
    requires Enabled(s, step) && Shaped(s.audit, l)
  {
    match step
    case Tick(elapsed) => s.(clock := s.clock + elapsed)
    case Request(verb, pairing, delay, written) =>
      var outcome := OutcomeOf(s.audit, verb, pairing, s.clock, l);
      var at := s.clock + delay;
      var row := Row(verb, outcome, at);
      State(Written(s.audit, row, written, l), at, if outcome == Executed then Some(verb) else None,
            s.ran + (if outcome == Executed then [row] else []))
    case Fail(written) =>
      s.(audit := Written(s.audit, Row(s.running.value, Failed, s.clock), written, l), running := None)
    case Return => s.(running := None)
    case Crash => s.(running := None)
  }

  /** Rows reach the file, and the rows of the last five minutes fit the tail that is read back. */
  predicate Disciplined(s: State, step: Step, l: Limits) {
    match step
    case Request(_, _, _, written) => written && FitsTail(s.audit, s.clock, l)
    case _ => true
  }

  /** Every row younger than five minutes is among the last that are read back. */
  predicate FitsTail(a: Audit, now: real, l: Limits) {
    forall i :: 0 <= i < |a.rows| && now - a.rows[i].at < RATE_LIMIT ==> |a.rows| - i <= l.tail
  }

  ghost predicate Reaches(first: State, steps: seq<Step>, s: State, l: Limits) {
    if steps == [] then s == first
    else
      var n := |steps| - 1;
      exists before :: && Reaches(first, steps[..n], before, l) && Enabled(before, steps[n]) && Shaped(before.audit, l)
                       && Disciplined(before, steps[n], l) && s == Next(before, steps[n], l)
  }

  predicate Initial(s: State) {
    s.audit == Audit([], 0, 0) && s.running == None && s.ran == []
  }

  predicate Executions(rows: seq<Row>, verb: Verb, i: int) {
    0 <= i < |rows| && rows[i].verb == verb && rows[i].outcome == Executed
  }

  ghost predicate Spaced(rows: seq<Row>) {
    forall verb, i, j :: Limited(verb) && i < j && Executions(rows, verb, i) && Executions(rows, verb, j) ==>
      rows[j].at - rows[i].at >= RATE_LIMIT
  }

  /** The audit at a time: its executions spaced, its rows in order of time and none of them in the future. */
  ghost predicate Kept(a: Audit, clock: real, l: Limits) {
    && Shaped(a, l) && Spaced(a.rows)
    && (forall i, j :: 0 <= i < j < |a.rows| ==> a.rows[i].at <= a.rows[j].at)
    && (forall i :: 0 <= i < |a.rows| ==> a.rows[i].at <= clock)
  }

  /** The rows of what was executed. */
  function ExecutedRows(rows: seq<Row>): seq<Row> {
    if rows == [] then []
    else
      var n := |rows| - 1;
      ExecutedRows(rows[..n]) + (if rows[n].outcome == Executed then [rows[n]] else [])
  }

  ghost predicate Invariant(s: State, l: Limits) {
    Kept(s.audit, s.clock, l) && s.ran == ExecutedRows(s.audit.rows)
  }

  /** No execution of `verb` on record is younger than five minutes at `at`. */
  ghost predicate WindowOver(rows: seq<Row>, verb: Verb, at: real) {
    forall i :: Executions(rows, verb, i) ==> at - rows[i].at >= 300.0
  }

  /** The decision is exact: a restart or a reboot is executed if and only if every execution of the same verb on
      record is at least five minutes old. Rows that say it was refused do not count. */
  lemma LimitIsExact(s: State, verb: Verb, pairing: bool, l: Limits)
    requires Invariant(s, l) && Sound(l) && verb in {Restart, Reboot}
    requires FitsTail(s.audit, s.clock, l)
    ensures OutcomeOf(s.audit, verb, pairing, s.clock, l) == Executed
       <==> WindowOver(s.audit.rows, verb, s.clock)
  {
    var rows := s.audit.rows;
    LastExecutedIs(rows, verb, TailStart(s.audit.live, |rows|, l), |rows|);
    LastExecutedIs(rows, verb, TailStart(s.audit.older, s.audit.live, l), s.audit.live);
    var found := FindLast(s.audit, verb, l);
    if found.Some? {
      assert Executions(rows, verb, found.value);
    }
    forall i | Executions(rows, verb, i) && s.clock - rows[i].at < RATE_LIMIT
      ensures found.Some? && s.clock - rows[found.value].at < RATE_LIMIT
    {
      RecentRowsAreFound(s.audit, verb, l, i);
    }
  }

  /** The other outcomes: a pairing is held back by one still running and by nothing else, and a failure is never
      decided beforehand. */
  lemma OutcomeExactly(s: State, verb: Verb, pairing: bool, l: Limits)
    requires Invariant(s, l) && Sound(l) && FitsTail(s.audit, s.clock, l)
    ensures var outcome := OutcomeOf(s.audit, verb, pairing, s.clock, l);
            && (outcome == InProgress <==> verb == Pair && pairing)
            && (outcome == RateLimited <==> verb in {Restart, Reboot} && !WindowOver(s.audit.rows, verb, s.clock))
            && outcome != Failed
  {
    if Limited(verb) {
      LimitIsExact(s, verb, pairing, l);
    }
  }

  /** The rows of one request: its outcome at the time of the check and the delay after it, and, if it was executed
      and fails, a row that says so. What is turned away runs nothing. */
  lemma RowsOfRequest(s: State, verb: Verb, pairing: bool, delay: real, l: Limits)
    requires Shaped(s.audit, l) && s.running.None? && delay >= 0.0
    ensures var outcome, at := OutcomeOf(s.audit, verb, pairing, s.clock, l), s.clock + delay;
            var t := Next(s, Request(verb, pairing, delay, true), l);
            && t.audit.rows == s.audit.rows + [Row(verb, outcome, at)] && t.clock == at
            && t.running == (if outcome == Executed then Some(verb) else None)
            && t.ran == s.ran + (if outcome == Executed then [Row(verb, Executed, at)] else [])
            && (outcome == Executed && Shaped(t.audit, l) ==>
                  var u := Next(t, Fail(true), l);
                  u.audit.rows == t.audit.rows + [Row(verb, Failed, at)] && u.ran == t.ran && u.running == None)
  {
  }

  lemma AppendKeeps(s: State, row: Row, l: Limits)
    requires Invariant(s, l) && Sound(l) && row.at >= s.clock
    requires row.outcome == Executed && Limited(row.verb) ==> WindowOver(s.audit.rows, row.verb, row.at)
    ensures Kept(Append(s.audit, row, l), row.at, l)
  {
    var rows, more := s.audit.rows, s.audit.rows + [row];
    assert Append(s.audit, row, l).rows == more;
    forall verb, i, j | Limited(verb) && i < j && Executions(more, verb, i) && Executions(more, verb, j)
      ensures more[j].at - more[i].at >= RATE_LIMIT
    {
      assert Executions(rows, verb, i);
      assert j < |rows| ==> Executions(rows, verb, j);
    }
  }

  lemma ExecutedWhenOver(s: State, verb: Verb, pairing: bool, at: real, l: Limits)
    requires Invariant(s, l) && Sound(l) && FitsTail(s.audit, s.clock, l) && at >= s.clock
    requires Limited(verb) && OutcomeOf(s.audit, verb, pairing, s.clock, l) == Executed
    ensures WindowOver(s.audit.rows, verb, at)
  {
    LimitIsExact(s, verb, pairing, l);
    assert WindowOver(s.audit.rows, verb, s.clock);
  }

  lemma ExecutedOneMore(rows: seq<Row>, row: Row)
    ensures ExecutedRows(rows + [row]) == ExecutedRows(rows) + (if row.outcome == Executed then [row] else [])
  {
    assert (rows + [row])[..|rows|] == rows;
  }

  lemma RequestMoves(s: State, verb: Verb, pairing: bool, delay: real, l: Limits)
    requires Shaped(s.audit, l) && delay >= 0.0 && s.running.None?
    ensures var row := Row(verb, OutcomeOf(s.audit, verb, pairing, s.clock, l), s.clock + delay);
            var t := Next(s, Request(verb, pairing, delay, true), l);
            && t.audit == Append(s.audit, row, l) && t.audit.rows == s.audit.rows + [row] && t.clock == row.at
            && t.ran == s.ran + if row.outcome == Executed then [row] else []
  {
  }

  lemma RequestKeeps(s: State, verb: Verb, pairing: bool, delay: real, l: Limits)
    requires Invariant(s, l) && Sound(l) && delay >= 0.0
    requires FitsTail(s.audit, s.clock, l)
    requires s.running.None?
    ensures Invariant(Next(s, Request(verb, pairing, delay, true), l), l)
  {
    var row := Row(verb, OutcomeOf(s.audit, verb, pairing, s.clock, l), s.clock + delay);
    if Limited(verb) && row.outcome == Executed {
      ExecutedWhenOver(s, verb, pairing, row.at, l);
    }
    RequestMoves(s, verb, pairing, delay, l);
    AppendKeeps(s, row, l);
    ExecutedOneMore(s.audit.rows, row);
  }

  lemma TimeKeeps(a: Audit, clock: real, later: real, l: Limits)
    requires Kept(a, clock, l) && clock <= later
    ensures Kept(a, later, l)
  {
  }

  lemma FailureKeeps(s: State, written: bool, l: Limits)
    requires Invariant(s, l) && Sound(l) && s.running.Some?
    ensures Invariant(Next(s, Fail(written), l), l)
  {
    AppendKeeps(s, Row(s.running.value, Failed, s.clock), l);
    ExecutedOneMore(s.audit.rows, Row(s.running.value, Failed, s.clock));
  }

  lemma QuietStepKeeps(s: State, step: Step, l: Limits)
    requires Invariant(s, l) && Enabled(s, step) && (step.Tick? || step.Return? || step.Crash?)
    ensures Invariant(Next(s, step, l), l)
  {
    TimeKeeps(s.audit, s.clock, Next(s, step, l).clock, l);
  }

  lemma StepKeeps(s: State, step: Step, l: Limits)
    requires Invariant(s, l) && Sound(l) && Enabled(s, step) && Disciplined(s, step, l)
    ensures Invariant(Next(s, step, l), l)
  {
    match step {
      case Request(verb, pairing, delay, _) => RequestKeeps(s, verb, pairing, delay, l);
      case Fail(written) => FailureKeeps(s, written, l);
      case _ => QuietStepKeeps(s, step, l);
    }
  }

  lemma {:induction false} RunKeeps(first: State, steps: seq<Step>, s: State, l: Limits)
    requires Initial(first) && Sound(l) && Reaches(first, steps, s, l)
    ensures Invariant(s, l)
  {
    if steps != [] {
      var n := |steps| - 1;
      var before :| && Reaches(first, steps[..n], before, l) && Enabled(before, steps[n]) && Shaped(before.audit, l)
                    && Disciplined(before, steps[n], l) && s == Next(before, steps[n], l);
      RunKeeps(first, steps[..n], before, l);
      StepKeeps(before, steps[n], l);
    }
  }

  /** Two executions, one after the other, are two rows, one after the other. */
  lemma {:induction false} ExecutedInOrder(rows: seq<Row>, a: nat, b: nat) returns (i: nat, j: nat)
    requires a <= b < |ExecutedRows(rows)|
    ensures i <= j < |rows| && (a < b ==> i < j)
    ensures rows[i] == ExecutedRows(rows)[a] && rows[j] == ExecutedRows(rows)[b]
    ensures rows[i].outcome == Executed && rows[j].outcome == Executed
  {
    var n := |rows| - 1;
    var before := |ExecutedRows(rows[..n])|;
    if b < before {
      i, j := ExecutedInOrder(rows[..n], a, b);
    } else {
      j := n;
      if a < b {
        var same;
        i, same := ExecutedInOrder(rows[..n], a, a);
      } else {
        i := n;
      }
    }
  }

  /** Over any run, crashes and rotations included, two restarts run are at least five minutes apart, and so are
      two reboots. */
  lemma {:induction false} ExecutionsAreSpaced(first: State, steps: seq<Step>, s: State, l: Limits, a: nat, b: nat)
    requires Initial(first) && Sound(l) && Reaches(first, steps, s, l)
    requires a < b < |s.ran| && s.ran[a].verb == s.ran[b].verb && s.ran[a].verb in {Restart, Reboot}
    ensures s.ran[b].at - s.ran[a].at >= 300.0
  {
    RunKeeps(first, steps, s, l);
    var i, j := ExecutedInOrder(s.audit.rows, a, b);
    assert Executions(s.audit.rows, s.ran[a].verb, i) && Executions(s.audit.rows, s.ran[b].verb, j);
  }

  // ---------- what the limit does not cover ----------

  /** The windows are kept verb by verb: a restart does not hold back a reboot that follows at once. */
  lemma RestartThenReboot(first: State, l: Limits)
    requires Initial(first) && Sound(l)
    ensures var s := Next(Next(Next(first, Request(Restart, false, 0.0, true), l), Crash, l),
                          Request(Reboot, false, 0.0, true), l);
            s.audit.rows == [Row(Restart, Executed, first.clock), Row(Reboot, Executed, first.clock)]
  {
    var s1 := Next(first, Request(Restart, false, 0.0, true), l);
    assert s1.audit.rows == [Row(Restart, Executed, first.clock)];
    var s2 := Next(s1, Crash, l);
    LastExecutedIs(s2.audit.rows, Reboot, TailStart(s2.audit.live, 1, l), 1);
    LastExecutedIs(s2.audit.rows, Reboot, TailStart(s2.audit.older, s2.audit.live, l), s2.audit.live);
  }

  /** With rows that do not reach the file nothing is left to limit by: a run that executes the same verb twice
      at once. */
  lemma UnwrittenRow(first: State, verb: Verb, l: Limits)
    requires Initial(first) && Sound(l) && Limited(verb)
    ensures var request := Request(verb, false, 0.0, false);
            var s := Next(Next(Next(first, request, l), Crash, l), request, l);
            s.ran == [Row(verb, Executed, first.clock), Row(verb, Executed, first.clock)]
  {
    var s1 := Next(first, Request(verb, false, 0.0, false), l);
    assert s1.ran == [Row(verb, Executed, first.clock)];
  }
}
