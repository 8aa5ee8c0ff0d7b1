/** The calls of the connection machine, each run by one thread left to itself: what a call comes to, in one
    formula, with nothing of the machine's own steps in it. */
module ConnectionAlone {
  import opened Json
  import opened ConnectionMachine

  /** What the outside answers: whether the sequence has to wait, whether the callback connects, whether an open
      breaker may be tested, whether restarting the supervised threads raises. */
  datatype World = World(waits: bool, connects: bool, testable: bool, raises: bool)

  function Answer(w: World, pc: Pc): bool {
    match pc
    case SequenceWait => w.waits
    case ConnectTry => w.connects
    case SequenceTry => w.connects
    case ErrorRead => w.testable
    case SequenceAfter => w.raises
    case _ => false
  }

  /** At most `n` steps of thread `t`, until it is gone or about to start the reconnect thread. */
  function Alone(s: State, t: Tid, w: World, n: nat): State
    decreases n
  {
    if n == 0 || t !in s.threads || s.threads[t] == Spawn then s
    else Alone(Advance(s, t, Answer(w, s.threads[t])), t, w, n - 1)
  }

  lemma Goes(x: State, t: Tid, pc: Pc, y: State, next: Pc, w: World, n: nat)
    requires n > 0 && pc != Spawn && Advance(At(x, t, pc), t, Answer(w, pc)) == At(y, t, next)
    ensures Alone(At(x, t, pc), t, w, n) == Alone(At(y, t, next), t, w, n - 1)
  {
  }

  lemma Ends(x: State, t: Tid, pc: Pc, y: State, w: World, n: nat)
    requires n > 0 && pc != Spawn && t !in y.threads && Advance(At(x, t, pc), t, Answer(w, pc)) == y
    ensures Alone(At(x, t, pc), t, w, n) == y
  {
  }

  lemma Moved(x: State, t: Tid, pc: Pc, next: Pc)
    ensures x.threads[t := pc][t := next] == x.threads[t := next]
  {
  }

  lemma Gone(x: State, t: Tid, pc: Pc)
    requires t !in x.threads
    ensures x.threads[t := pc] - {t} == x.threads
  {
  }

  // ---------- report_error and force_reconnect ----------

  /** The flag taken and the reconnect thread due, or not. */
  function Triggered(x: State, t: Tid): State {
    if x.inProgress || x.shutdown then x else At(x.(inProgress := true), t, Spawn)
  }

  /** A connected state is dropped. */
  function Dropped(x: State): State {
    x.(connection := if x.connection == Connected then Disconnected else x.connection)
  }

  /** An open breaker is closed. */
  function Closed(x: State): State {
    if x.counters.circuitOpen then x.(counters := x.counters.(circuitOpen := false), overtaken := false) else x
  }

  /** A fatal error lengthens the backoff to an hour and is stamped. */
  function FatallyStamped(x: State): State {
    x.(counters := x.counters.(backoff := 3600.0), lastFatal := Some(x.clock), fatals := x.fatals + [x.clock])
  }

  lemma TriggerAlone(x: State, t: Tid, w: World, n: nat)
    requires t !in x.threads && n > 0
    ensures Alone(At(x, t, Trigger), t, w, n) == Triggered(x, t)
  {
    if x.inProgress || x.shutdown {
      Gone(x, t, Trigger);
      Ends(x, t, Trigger, x, w, n);
    } else {
      Moved(x, t, Trigger, Spawn);
      Goes(x, t, Trigger, x.(inProgress := true), Spawn, w, n);
    }
  }

  lemma DropCheckStep(x: State, t: Tid, w: World, n: nat)
    requires n > 0
    ensures Alone(At(x, t, DropCheck), t, w, n)
         == Alone(At(x, t, if x.connection == Connected then Drop else Trigger), t, w, n - 1)
  {
    var next := if x.connection == Connected then Drop else Trigger;
    Moved(x, t, DropCheck, next);
    Goes(x, t, DropCheck, x, next, w, n);
  }

  lemma DropStep(x: State, t: Tid, w: World, n: nat)
    requires n > 0
    ensures Alone(At(x, t, Drop), t, w, n) == Alone(At(x.(connection := Disconnected), t, Trigger), t, w, n - 1)
  {
    Moved(x, t, Drop, Trigger);
    Goes(x, t, Drop, x.(connection := Disconnected), Trigger, w, n);
  }

  lemma DropAlone(x: State, t: Tid, w: World, n: nat)
    requires t !in x.threads && n >= 3
    ensures Alone(At(x, t, DropCheck), t, w, n) == Triggered(Dropped(x), t)
  {
    hide Alone;
    DropCheckStep(x, t, w, n);
    if x.connection == Connected {
      DropStep(x, t, w, n - 1);
      TriggerAlone(Dropped(x), t, w, n - 2);
    } else {
      assert Dropped(x) == x;
      TriggerAlone(x, t, w, n - 1);
    }
  }

  lemma ErrorCloseStep(x: State, t: Tid, w: World, n: nat)
    requires n > 0 && x.counters.circuitOpen
    ensures Alone(At(x, t, ErrorClose), t, w, n) == Alone(At(Closed(x), t, DropCheck), t, w, n - 1)
  {
    Moved(x, t, ErrorClose, DropCheck);
    Goes(x, t, ErrorClose, Closed(x), DropCheck, w, n);
  }

  lemma ErrorReadStep(x: State, t: Tid, w: World, n: nat)
    requires t !in x.threads && n > 0
    ensures Alone(At(x, t, ErrorRead), t, w, n)
         == if x.counters.circuitOpen && !w.testable then x
            else Alone(At(x, t, if x.counters.circuitOpen then ErrorClose else DropCheck), t, w, n - 1)
  {
    if x.counters.circuitOpen && !w.testable {
      Gone(x, t, ErrorRead);
      Ends(x, t, ErrorRead, x, w, n);
    } else {
      var next := if x.counters.circuitOpen then ErrorClose else DropCheck;
      Moved(x, t, ErrorRead, next);
      Goes(x, t, ErrorRead, x, next, w, n);
    }
  }

  /** An open breaker turns an error away unless it may be tested, and is closed then; a connection is dropped, and a
      reconnect thread is due unless one is under way or the agent stops. */
  lemma ErrorAlone(x: State, t: Tid, w: World, n: nat)
    requires t !in x.threads && n >= 5
    ensures Alone(At(x, t, ErrorRead), t, w, n)
         == if x.counters.circuitOpen && !w.testable then x else Triggered(Dropped(Closed(x)), t)
  {
    hide Alone;
    ErrorReadStep(x, t, w, n);
    if !x.counters.circuitOpen {
      DropAlone(x, t, w, n - 1);
    } else if w.testable {
      ErrorCloseStep(x, t, w, n - 1);
      DropAlone(Closed(x), t, w, n - 2);
    }
  }

  lemma ErrorLengthenStep(x: State, t: Tid, w: World, n: nat)
    requires n > 0
    ensures Alone(At(x, t, ErrorLengthen), t, w, n)
         == Alone(At(x.(counters := x.counters.(backoff := 3600.0)), t, ErrorStamp), t, w, n - 1)
  {
    Moved(x, t, ErrorLengthen, ErrorStamp);
    Goes(x, t, ErrorLengthen, x.(counters := x.counters.(backoff := 3600.0)), ErrorStamp, w, n);
  }

  lemma ErrorStampStep(x: State, t: Tid, w: World, n: nat)
    requires n > 0
    ensures Alone(At(x, t, ErrorStamp), t, w, n)
         == Alone(At(x.(lastFatal := Some(x.clock), fatals := x.fatals + [x.clock]), t, ErrorRead), t, w, n - 1)
  {
    Moved(x, t, ErrorStamp, ErrorRead);
    Goes(x, t, ErrorStamp, x.(lastFatal := Some(x.clock), fatals := x.fatals + [x.clock]), ErrorRead, w, n);
  }

  lemma ReportErrorAlone(s: State, t: Tid, fatal: bool, w: World, n: nat)
    requires t !in s.threads && n >= 7
    ensures var x := if fatal then FatallyStamped(s) else s;
            Alone(Next(s, Enter(t, ReportError(fatal))), t, w, n)
            == if x.counters.circuitOpen && !w.testable then x else Triggered(Dropped(Closed(x)), t)
  {
    hide Alone;
    if fatal {
      ErrorLengthenStep(s, t, w, n);
      ErrorStampStep(s.(counters := s.counters.(backoff := 3600.0)), t, w, n - 1);
      ErrorAlone(FatallyStamped(s), t, w, n - 2);
    } else {
      ErrorAlone(s, t, w, n);
    }
  }

  lemma ForceCountStep(x: State, t: Tid, w: World, n: nat)
    requires n > 0
    ensures Alone(At(x, t, ForceCount), t, w, n)
         == Alone(At(x.(counters := x.counters.(backoff := 30.0)), t, DropCheck), t, w, n - 1)
  {
    Moved(x, t, ForceCount, DropCheck);
    Goes(x, t, ForceCount, x.(counters := x.counters.(backoff := 30.0)), DropCheck, w, n);
  }

  lemma ForceReconnectAlone(s: State, t: Tid, w: World, n: nat)
    requires t !in s.threads && n >= 4
    ensures Alone(Next(s, Enter(t, ForceReconnect)), t, w, n)
         == Triggered(Dropped(s.(counters := s.counters.(backoff := 30.0))), t)
  {
    hide Alone;
    ForceCountStep(s, t, w, n);
    DropAlone(s.(counters := s.counters.(backoff := 30.0)), t, w, n - 1);
  }

  // ---------- counting ----------

  /** A failure counted: one more, the backoff doubled up to an hour, the breaker open from the fifth. */
  function Failed(x: State): State {
    var failures := x.counters.failures + 1;
    var opens := failures >= 5 && !x.counters.circuitOpen;
    x.(counters := Counters(failures, if x.counters.backoff * 2.0 < 3600.0 then x.counters.backoff * 2.0 else 3600.0,
                            x.counters.circuitOpen || opens),
       overtaken := x.overtaken && !opens)
  }

  /** A success counted and stamped. */
  function Succeeded(x: State, t: Tid): State {
    x.(counters := Counters(0, 30.0, false), overtaken := false, resets := x.resets + 1, resetter := t,
       lastSuccess := Some(x.clock), successes := x.successes + [x.clock], lastFatal := None, fatals := [])
  }

  lemma FailStep(x: State, t: Tid, of: Purpose, f: Fail, w: World, n: nat)
    requires n > 0
    ensures var next := FailNext(x, f);
            Alone(At(x, t, Failing(of, f)), t, w, n)
            == Alone(At(FailWrite(x, f), t, if next.Some? then Failing(of, next.value) else AfterCount(of, false)),
                     t, w, n - 1)
  {
    var next := FailNext(x, f);
    var pc := if next.Some? then Failing(of, next.value) else AfterCount(of, false);
    Moved(x, t, Failing(of, f), pc);
    Goes(x, t, Failing(of, f), FailWrite(x, f), pc, w, n);
  }

  lemma ResetStep(x: State, t: Tid, of: Purpose, r: Reset, w: World, n: nat)
    requires n > 0
    ensures var next := ResetNext(r);
            Alone(At(x, t, Resetting(of, r)), t, w, n)
            == Alone(At(ResetWrite(x, t, r), t,
                        if next.Some? then Resetting(of, next.value) else AfterCount(of, true)), t, w, n - 1)
  {
    var next := ResetNext(r);
    var pc := if next.Some? then Resetting(of, next.value) else AfterCount(of, true);
    Moved(x, t, Resetting(of, r), pc);
    Goes(x, t, Resetting(of, r), ResetWrite(x, t, r), pc, w, n);
  }

  function FailSteps(x: State): nat {
    if x.counters.failures + 1 >= 5 then 4 else 3
  }

  lemma FailedAlone(x: State, t: Tid, of: Purpose, w: World, n: nat)
    requires n >= 4
    ensures Alone(At(x, t, Failing(of, Increment)), t, w, n)
         == Alone(At(Failed(x), t, AfterCount(of, false)), t, w, n - FailSteps(x))
  {
    hide Alone;
    var x1 := FailWrite(x, Increment);
    var x2 := FailWrite(x1, Lengthen);
    FailStep(x, t, of, Increment, w, n);
    FailStep(x1, t, of, Lengthen, w, n - 1);
    FailStep(x2, t, of, Check, w, n - 2);
    if FailSteps(x) == 4 {
      FailStep(x2, t, of, Open(x2.resets), w, n - 3);
      assert FailWrite(x2, Open(x2.resets)) == Failed(x);
    } else {
      assert x2 == Failed(x);
    }
  }

  lemma SucceededAlone(x: State, t: Tid, of: Purpose, w: World, n: nat)
    requires n >= 5
    ensures Alone(At(x, t, Resetting(of, Zero)), t, w, n)
         == Alone(At(Succeeded(x, t), t, AfterCount(of, true)), t, w, n - 5)
  {
    hide Alone;
    var x1 := ResetWrite(x, t, Zero);
    var x2 := ResetWrite(x1, t, Restore);
    var x3 := ResetWrite(x2, t, Close);
    var x4 := ResetWrite(x3, t, StampSuccess);
    ResetStep(x, t, of, Zero, w, n);
    ResetStep(x1, t, of, Restore, w, n - 1);
    ResetStep(x2, t, of, Close, w, n - 2);
    ResetStep(x3, t, of, StampSuccess, w, n - 3);
    ResetStep(x4, t, of, ClearFatal, w, n - 4);
    assert ResetWrite(x4, t, ClearFatal) == Succeeded(x, t);
  }

  // ---------- report_success and connect ----------

  lemma SuccessCheckStep(x: State, t: Tid, w: World, n: nat)
    requires t !in x.threads && n > 0
    ensures Alone(At(x, t, SuccessCheck), t, w, n)
         == if x.connection == Connected || x.connection == FatalError then x
            else Alone(At(x, t, SuccessSet), t, w, n - 1)
  {
    if x.connection == Connected || x.connection == FatalError {
      Gone(x, t, SuccessCheck);
      Ends(x, t, SuccessCheck, x, w, n);
    } else {
      Moved(x, t, SuccessCheck, SuccessSet);
      Goes(x, t, SuccessCheck, x, SuccessSet, w, n);
    }
  }

  lemma SuccessSetStep(x: State, t: Tid, w: World, n: nat)
    requires t !in x.threads && n > 0
    ensures Alone(At(x, t, SuccessSet), t, w, n) == x.(connection := Connected)
  {
    Gone(x, t, SuccessSet);
    Ends(x, t, SuccessSet, x.(connection := Connected), w, n);
  }

  /** A reported success is counted, and the agent is connected unless a fatal error stands. */
  lemma ReportSuccessAlone(s: State, t: Tid, w: World, n: nat)
    requires t !in s.threads && n >= 7
    ensures Alone(Next(s, Enter(t, ReportSuccess)), t, w, n)
         == Succeeded(s, t).(connection := if s.connection == FatalError then FatalError else Connected)
  {
    hide Alone;
    SucceededAlone(s, t, OfReport, w, n);
    SuccessCheckStep(Succeeded(s, t), t, w, n - 5);
    if s.connection != Connected && s.connection != FatalError {
      SuccessSetStep(Succeeded(s, t), t, w, n - 6);
    }
  }

  lemma ConnectCheckStep(x: State, t: Tid, w: World, n: nat)
    requires t !in x.threads && n > 0
    ensures Alone(At(x, t, ConnectCheck), t, w, n)
         == if x.connection == Connected || x.connection == FatalError then x
            else Alone(At(x, t, ConnectSet), t, w, n - 1)
  {
    if x.connection == Connected || x.connection == FatalError {
      Gone(x, t, ConnectCheck);
      Ends(x, t, ConnectCheck, x, w, n);
    } else {
      Moved(x, t, ConnectCheck, ConnectSet);
      Goes(x, t, ConnectCheck, x, ConnectSet, w, n);
    }
  }

  lemma ConnectSetStep(x: State, t: Tid, w: World, n: nat)
    requires n > 0
    ensures Alone(At(x, t, ConnectSet), t, w, n)
         == Alone(At(x.(connection := Connecting, owner := t), t, ConnectTry), t, w, n - 1)
  {
    Moved(x, t, ConnectSet, ConnectTry);
    Goes(x, t, ConnectSet, x.(connection := Connecting, owner := t), ConnectTry, w, n);
  }

  lemma ConnectTryStep(x: State, t: Tid, w: World, n: nat)
    requires n > 0
    ensures Alone(At(x, t, ConnectTry), t, w, n)
         == Alone(At(x, t, if w.connects then Resetting(OfConnect, Zero) else Failing(OfConnect, Increment)),
                  t, w, n - 1)
  {
    var next := if w.connects then Resetting(OfConnect, Zero) else Failing(OfConnect, Increment);
    Moved(x, t, ConnectTry, next);
    Goes(x, t, ConnectTry, x, next, w, n);
  }

  lemma ConnectFinalStep(x: State, t: Tid, connected: bool, w: World, n: nat)
    requires t !in x.threads && n > 0
    ensures Alone(At(x, t, ConnectFinal(connected)), t, w, n)
         == x.(connection := if connected then Connected else Disconnected)
  {
    Gone(x, t, ConnectFinal(connected));
    Ends(x, t, ConnectFinal(connected), x.(connection := if connected then Connected else Disconnected), w, n);
  }

  /** How connect() ends: as the callback answered, its failure or success counted. */
  function ConnectEnds(x: State, t: Tid, connects: bool): State {
    (if connects then Succeeded(x, t) else Failed(x)).(
    connection := if connects then Connected else Disconnected, owner := t)
  }

  lemma TriedAlone(x: State, t: Tid, w: World, n: nat)
    requires t !in x.threads && n >= 7
    ensures Alone(At(x.(connection := Connecting, owner := t), t, ConnectTry), t, w, n) == ConnectEnds(x, t, w.connects)
  {
    hide Alone;
    var tried := x.(connection := Connecting, owner := t);
    ConnectTryStep(tried, t, w, n);
    if w.connects {
      SucceededAlone(tried, t, OfConnect, w, n - 1);
      ConnectFinalStep(Succeeded(tried, t), t, true, w, n - 6);
    } else {
      FailedAlone(tried, t, OfConnect, w, n - 1);
      ConnectFinalStep(Failed(tried), t, false, w, n - 1 - FailSteps(tried));
    }
  }

  lemma ConnectAlone(s: State, t: Tid, w: World, n: nat)
    requires t !in s.threads && n >= 9
    ensures Alone(Next(s, Enter(t, Connect)), t, w, n)
         == if s.connection == Connected || s.connection == FatalError then s else ConnectEnds(s, t, w.connects)
  {
    hide Alone;
    ConnectCheckStep(s, t, w, n);
    if s.connection != Connected && s.connection != FatalError {
      ConnectSetStep(s, t, w, n - 1);
      TriedAlone(s, t, w, n - 2);
    }
  }

  // ---------- the reconnect sequence ----------

  lemma StartStep(x: State, t: Tid, w: World, n: nat)
    requires n > 0
    ensures Alone(At(x, t, SequenceStart), t, w, n)
         == Alone(At(x.(connection := Reconnecting, owner := t), t, SequenceWait), t, w, n - 1)
  {
    Moved(x, t, SequenceStart, SequenceWait);
    Goes(x, t, SequenceStart, x.(connection := Reconnecting, owner := t), SequenceWait, w, n);
  }

  lemma WaitStep(x: State, t: Tid, w: World, n: nat)
    requires n > 0
    ensures Alone(At(x, t, SequenceWait), t, w, n)
         == Alone(if w.waits then At(x.(connection := Backoff, owner := t), t, SequenceSleep)
                  else At(x, t, SequenceAttempt), t, w, n - 1)
  {
    Moved(x, t, SequenceWait, if w.waits then SequenceSleep else SequenceAttempt);
    if w.waits {
      Goes(x, t, SequenceWait, x.(connection := Backoff, owner := t), SequenceSleep, w, n);
    } else {
      Goes(x, t, SequenceWait, x, SequenceAttempt, w, n);
    }
  }

  lemma SleepStep(x: State, t: Tid, w: World, n: nat)
    requires n > 0
    ensures Alone(At(x, t, SequenceSleep), t, w, n)
         == Alone(At(x, t, if x.shutdown then SequenceExit else SequenceAttempt), t, w, n - 1)
  {
    var next := if x.shutdown then SequenceExit else SequenceAttempt;
    Moved(x, t, SequenceSleep, next);
    Goes(x, t, SequenceSleep, x, next, w, n);
  }

  lemma AttemptStep(x: State, t: Tid, w: World, n: nat)
    requires n > 0
    ensures Alone(At(x, t, SequenceAttempt), t, w, n)
         == Alone(At(x.(connection := Reconnecting, owner := t), t, SequenceTry), t, w, n - 1)
  {
    Moved(x, t, SequenceAttempt, SequenceTry);
    Goes(x, t, SequenceAttempt, x.(connection := Reconnecting, owner := t), SequenceTry, w, n);
  }

  lemma TryStep(x: State, t: Tid, w: World, n: nat)
    requires n > 0
    ensures Alone(At(x, t, SequenceTry), t, w, n)
         == Alone(At(x, t, if w.connects then Resetting(OfSequence, Zero) else Failing(OfSequence, Increment)),
                  t, w, n - 1)
  {
    var next := if w.connects then Resetting(OfSequence, Zero) else Failing(OfSequence, Increment);
    Moved(x, t, SequenceTry, next);
    Goes(x, t, SequenceTry, x, next, w, n);
  }

  lemma FinalStep(x: State, t: Tid, connected: bool, w: World, n: nat)
    requires n > 0
    ensures Alone(At(x, t, SequenceFinal(connected)), t, w, n)
         == Alone(At(x.(connection := if connected then Connected else Disconnected), t,
                     if connected then SequenceAfter else SequenceExit), t, w, n - 1)
  {
    var next := if connected then SequenceAfter else SequenceExit;
    Moved(x, t, SequenceFinal(connected), next);
    Goes(x, t, SequenceFinal(connected), x.(connection := if connected then Connected else Disconnected), next, w, n);
  }

  lemma AfterStep(x: State, t: Tid, w: World, n: nat)
    requires n > 0
    ensures Alone(At(x, t, SequenceAfter), t, w, n)
         == Alone(At(x, t, if w.raises then Failing(OfSequence, Increment) else SequenceExit), t, w, n - 1)
  {
    var next := if w.raises then Failing(OfSequence, Increment) else SequenceExit;
    Moved(x, t, SequenceAfter, next);
    Goes(x, t, SequenceAfter, x, next, w, n);
  }

  lemma ExitStep(x: State, t: Tid, w: World, n: nat)
    requires t !in x.threads && n > 0
    ensures Alone(At(x, t, SequenceExit), t, w, n) == x.(inProgress := false)
  {
    Gone(x, t, SequenceExit);
    Ends(x, t, SequenceExit, x.(inProgress := false), w, n);
  }

  /** A failure counted for a sequence ends it. */
  lemma FailureEnds(x: State, t: Tid, w: World, n: nat)
    requires t !in x.threads && n >= 6
    ensures Alone(At(x, t, Failing(OfSequence, Increment)), t, w, n)
         == Failed(x).(connection := Disconnected, inProgress := false)
  {
    hide Alone;
    var m := n - FailSteps(x);
    FailedAlone(x, t, OfSequence, w, n);
    FinalStep(Failed(x), t, false, w, m);
    ExitStep(Failed(x).(connection := Disconnected), t, w, m - 1);
  }

  /** A connection stands unless restarting the supervised threads raises, which is a failure of its own. */
  lemma ConnectionEnds(x: State, t: Tid, w: World, n: nat)
    requires t !in x.threads && n >= 8
    ensures Alone(At(x, t, SequenceFinal(true)), t, w, n)
         == if w.raises then Failed(x).(connection := Disconnected, inProgress := false)
            else x.(connection := Connected, inProgress := false)
  {
    hide Alone;
    var connected := x.(connection := Connected);
    FinalStep(x, t, true, w, n);
    AfterStep(connected, t, w, n - 1);
    if w.raises {
      FailureEnds(connected, t, w, n - 2);
    } else {
      ExitStep(connected, t, w, n - 2);
    }
  }

  /** One attempt: its count and the state it ends in, the flag given back. */
  function AttemptEnds(x: State, t: Tid, connects: bool, raises: bool): State {
    var counted := if connects then Succeeded(x, t) else Failed(x);
    (if connects && raises then Failed(counted) else counted).(
    connection := if connects && !raises then Connected else Disconnected, owner := t, inProgress := false)
  }

  lemma AttemptAlone(x: State, t: Tid, w: World, n: nat)
    requires t !in x.threads && n >= 15
    ensures Alone(At(x, t, SequenceAttempt), t, w, n) == AttemptEnds(x, t, w.connects, w.raises)
  {
    hide Alone;
    var tried := x.(connection := Reconnecting, owner := t);
    AttemptStep(x, t, w, n);
    TryStep(tried, t, w, n - 1);
    if w.connects {
      SucceededAlone(tried, t, OfSequence, w, n - 2);
      ConnectionEnds(Succeeded(tried, t), t, w, n - 7);
    } else {
      FailureEnds(tried, t, w, n - 2);
    }
  }

  /** A whole sequence: one attempt, unless a shutdown ends its wait, which leaves the state in backoff. */
  lemma SequenceAlone(x: State, t: Tid, w: World, n: nat)
    requires t !in x.threads && n >= 18
    ensures Alone(At(x, t, SequenceStart), t, w, n)
         == if w.waits && x.shutdown then x.(connection := Backoff, owner := t, inProgress := false)
            else AttemptEnds(x, t, w.connects, w.raises)
  {
    hide Alone;
    var started := x.(connection := Reconnecting, owner := t);
    StartStep(x, t, w, n);
    WaitStep(started, t, w, n - 1);
    if !w.waits {
      AttemptAlone(started, t, w, n - 2);
    } else {
      var waiting := x.(connection := Backoff, owner := t);
      SleepStep(waiting, t, w, n - 2);
      if x.shutdown {
        ExitStep(waiting, t, w, n - 3);
      } else {
        AttemptAlone(waiting, t, w, n - 3);
      }
    }
  }

  // ---------- what is not a thread's doing ----------

  /** Time passes, a stop is asked for, and a thread that was due starts in the place of the one that asked for it. */
  lemma OutsideSteps(s: State, elapsed: real, t: Tid, u: Tid)
    ensures elapsed > 0.0 ==> Next(s, Tick(elapsed)) == s.(clock := s.clock + elapsed)
    ensures Next(s, Shutdown) == s.(shutdown := true)
    ensures t in s.threads && s.threads[t] == Spawn && u !in s.threads ==>
              Next(s, StartThread(t, u)) == s.(threads := (s.threads - {t})[u := SequenceStart])
  {
  }
}
