/** The connection manager under every interleaving of its callers and its reconnect thread. A thread is a
    program counter; each step is one read or write of one shared field (an increment or a doubling is one), or
    one locked section. The state variable is never left where nothing will move it on. */
module ConnectionMachine {
  import opened Json

  const BACKOFF_BASE: real := 30.0
  const BACKOFF_MAX: real := 3600.0
  const FATAL_ERROR_BACKOFF: real := 3600.0
  const FAILURE_THRESHOLD: nat := 5

  datatype Connection = Disconnected | Connecting | Connected | Reconnecting | Backoff | FatalError

  datatype Counters = Counters(failures: nat, backoff: real, circuitOpen: bool)

  const FRESH_COUNTERS := Counters(0, BACKOFF_BASE, false)

  function Min(a: real, b: real): real {
    if a < b then a else b
  }

  /** The counters after a failure that nothing interrupts. */
  function AfterFailure(c: Counters): Counters {
    Counters(c.failures + 1, Min(c.backoff * 2.0, BACKOFF_MAX), c.circuitOpen || c.failures + 1 >= FAILURE_THRESHOLD)
  }

  // ---------- the threads ----------

  /** What a caller may ask for. */
  datatype Call = Connect | ReportError(fatal: bool) | ReportSuccess | ForceReconnect

  /** The writes that count a failure. `checked` is how many resets there had been when the count was checked. */
  datatype Fail = Increment | Lengthen | Check | Open(checked: nat)

  /** The writes that count a success. */
  datatype Reset = Zero | Restore | Close | StampSuccess | ClearFatal

  /** On whose behalf a thread counts: connect(), the reconnect sequence, or report_success(). */
  datatype Purpose = OfConnect | OfSequence | OfReport

  /** Where a thread has got to: in connect(), in a report, in the reconnect sequence, or counting for one of them. */
  datatype Pc =
    | ConnectCheck | ConnectSet | ConnectTry | ConnectFinal(connected: bool)
    | ErrorLengthen | ErrorStamp | ErrorRead | ErrorClose | ForceCount | DropCheck | Drop | Trigger | Spawn
    | SuccessCheck | SuccessSet
    | SequenceStart | SequenceWait | SequenceSleep | SequenceAttempt | SequenceTry
    | SequenceFinal(connected: bool) | SequenceAfter | SequenceExit
    | Failing(of: Purpose, fail: Fail) | Resetting(of: Purpose, reset: Reset)

  predicate InCount(pc: Pc) {
    pc.Failing? || pc.Resetting?
  }

  predicate InConnect(pc: Pc) {
    pc.ConnectCheck? || pc.ConnectSet? || pc.ConnectTry? || pc.ConnectFinal?
  }

  predicate InReport(pc: Pc) {
    pc.ForceCount? || pc.DropCheck? || pc.Drop? || pc.Trigger? || pc.SuccessCheck? || pc.SuccessSet?
  }

  predicate InError(pc: Pc) {
    pc.ErrorLengthen? || pc.ErrorStamp? || pc.ErrorRead? || pc.ErrorClose?
  }

  predicate InSequence(pc: Pc) {
    pc.SequenceStart? || pc.SequenceWait? || pc.SequenceSleep? || pc.SequenceAttempt? || pc.SequenceTry?
    || pc.SequenceFinal? || pc.SequenceAfter? || pc.SequenceExit?
  }

  predicate Opening(pc: Pc) {
    pc.Failing? && pc.fail.Open?
  }

  /** The count is zeroed and the breaker has still to be closed. */
  predicate MidReset(pc: Pc) {
    pc.Resetting? && (pc.reset.Restore? || pc.reset.Close?)
  }

  type Tid = nat

  /** History: `owner` is the thread that last wrote a passing state (connecting, reconnecting, backoff), `resets`
      counts how often the failures were zeroed and `resetter` is the thread that did so last; `overtaken` is set
      when the breaker was opened on a count that a reset had zeroed since it was checked; `successes` and `fatals`
      stand behind the watchdog's stamps `lastSuccess` and `lastFatal`, a success clearing fatal errors. */
  datatype State = State(
    connection: Connection,
    counters: Counters,
    inProgress: bool,
    shutdown: bool,
    threads: map<Tid, Pc>,
    owner: Tid,
    resets: nat,
    resetter: Tid,
    overtaken: bool,
    clock: real,
    lastSuccess: Option<real>,
    lastFatal: Option<real>,
    successes: seq<real>,
    fatals: seq<real>)

  /** `Go` advances a thread by one step; `answer` is what the outside answers it: the connect callback or the
      internet probe, whether there is a wait, whether an open breaker may be tested, whether restarting the
      supervised threads raises. */
  datatype Step =
    | Enter(t: Tid, call: Call)
    | Go(t: Tid, answer: bool)
    | StartThread(t: Tid, u: Tid)
    | Tick(elapsed: real)
    | Shutdown

  function EntryOf(call: Call): Pc {
    match call
    case Connect => ConnectCheck
    case ReportError(fatal) => if fatal then ErrorLengthen else ErrorRead
    case ReportSuccess => Resetting(OfReport, Zero)
    case ForceReconnect => ForceCount
  }

  predicate Enabled(s: State, step: Step) {
    match step
    case Enter(t, _) => t !in s.threads
    case Go(t, _) => t in s.threads && s.threads[t] != Spawn
    case StartThread(t, u) => t in s.threads && s.threads[t] == Spawn && u !in s.threads
    case Tick(elapsed) => elapsed > 0.0
    case Shutdown => true
  }

  function At(s: State, t: Tid, pc: Pc): State {
    s.(threads := s.threads[t := pc])
  }

  function Done(s: State, t: Tid): State {
    s.(threads := s.threads - {t})
  }

  /** A passing state is set, and its setter owes the next one. */
  function Pass(s: State, t: Tid, c: Connection, pc: Pc): State {
    At(s, t, pc).(connection := c, owner := t)
  }

  function Settled(connected: bool): Connection {
    if connected then Connected else Disconnected
  }

  // ---------- counting ----------

  function FailWrite(s: State, f: Fail): State {
    match f
    case Increment => s.(counters := s.counters.(failures := s.counters.failures + 1))
    case Lengthen => s.(counters := s.counters.(backoff := Min(s.counters.backoff * 2.0, BACKOFF_MAX)))
    case Check => s
    case Open(checked) =>
      if s.counters.circuitOpen then s
      else s.(counters := s.counters.(circuitOpen := true), overtaken := checked < s.resets)
  }

  function FailNext(s: State, f: Fail): Option<Fail> {
    match f
    case Increment => Some(Lengthen)
    case Lengthen => Some(Check)
    case Check => if s.counters.failures >= FAILURE_THRESHOLD then Some(Open(s.resets)) else None
    case Open(_) => None
  }

  function ResetWrite(s: State, t: Tid, r: Reset): State {
    match r
    case Zero => s.(counters := s.counters.(failures := 0), resets := s.resets + 1, resetter := t)
    case Restore => s.(counters := s.counters.(backoff := BACKOFF_BASE))
    case Close => s.(counters := s.counters.(circuitOpen := false), overtaken := false)
    case StampSuccess => s.(lastSuccess := Some(s.clock), successes := s.successes + [s.clock])
    case ClearFatal => s.(lastFatal := None, fatals := [])
  }

  function ResetNext(r: Reset): Option<Reset> {
    match r
    case Zero => Some(Restore)
    case Restore => Some(Close)
    case Close => Some(StampSuccess)
    case StampSuccess => Some(ClearFatal)
    case ClearFatal => None
  }

  // ---------- the steps of a thread ----------

  /** A thread in connect(). */
  function AdvanceConnect(s: State, t: Tid, answer: bool): State
    requires t in s.threads && InConnect(s.threads[t])
  {
    match s.threads[t]
    case ConnectCheck =>
      if s.connection == Connected || s.connection == FatalError then Done(s, t) else At(s, t, ConnectSet)
    case ConnectSet => Pass(s, t, Connecting, ConnectTry)
    case ConnectTry => At(s, t, if answer then Resetting(OfConnect, Zero) else Failing(OfConnect, Increment))
    case ConnectFinal(connected) => Done(s.(connection := Settled(connected)), t)
  }

  /** A thread at the start of report_error(): a fatal error lengthens the backoff and is stamped; an open breaker
      turns an error away unless it may be tested. */
  function AdvanceError(s: State, t: Tid, answer: bool): State
    requires t in s.threads && InError(s.threads[t])
  {
    match s.threads[t]
    case ErrorLengthen => At(s.(counters := s.counters.(backoff := FATAL_ERROR_BACKOFF)), t, ErrorStamp)
    case ErrorStamp => At(s.(lastFatal := Some(s.clock), fatals := s.fatals + [s.clock]), t, ErrorRead)
    case ErrorRead =>
      if !s.counters.circuitOpen then At(s, t, DropCheck) else if answer then At(s, t, ErrorClose) else Done(s, t)
    case ErrorClose => At(s.(counters := s.counters.(circuitOpen := false), overtaken := false), t, DropCheck)
  }

  /** A thread in the rest of report_error(), report_success() or force_reconnect(). */
  function AdvanceReport(s: State, t: Tid, answer: bool): State
    requires t in s.threads && InReport(s.threads[t])
  {
    match s.threads[t]
    case ForceCount => At(s.(counters := s.counters.(backoff := BACKOFF_BASE)), t, DropCheck)
    case DropCheck => At(s, t, if s.connection == Connected then Drop else Trigger)
    case Drop => At(s.(connection := Disconnected), t, Trigger)
    case Trigger => if s.inProgress || s.shutdown then Done(s, t) else At(s.(inProgress := true), t, Spawn)
    case SuccessCheck =>
      if s.connection == Connected || s.connection == FatalError then Done(s, t) else At(s, t, SuccessSet)
    case SuccessSet => Done(s.(connection := Connected), t)
  }

  /** The reconnect thread. */
  function AdvanceSequence(s: State, t: Tid, answer: bool): State
    requires t in s.threads && InSequence(s.threads[t])
  {
    match s.threads[t]
    case SequenceStart => Pass(s, t, Reconnecting, SequenceWait)
    case SequenceWait => if answer then Pass(s, t, Backoff, SequenceSleep) else At(s, t, SequenceAttempt)
    case SequenceSleep => At(s, t, if s.shutdown then SequenceExit else SequenceAttempt)
    case SequenceAttempt => Pass(s, t, Reconnecting, SequenceTry)
    case SequenceTry => At(s, t, if answer then Resetting(OfSequence, Zero) else Failing(OfSequence, Increment))
    case SequenceFinal(connected) =>
      At(s.(connection := Settled(connected)), t, if connected then SequenceAfter else SequenceExit)
    case SequenceAfter => At(s, t, if answer then Failing(OfSequence, Increment) else SequenceExit)
    case SequenceExit => Done(s.(inProgress := false), t)
  }

  /** What follows a failure or a success once it is counted. */
  function AfterCount(of: Purpose, connected: bool): Pc {
    match of
    case OfConnect => ConnectFinal(connected)
    case OfSequence => SequenceFinal(connected)
    case OfReport => SuccessCheck
  }

  function AdvanceFail(s: State, t: Tid): State
    requires t in s.threads && s.threads[t].Failing?
  {
    var pc := s.threads[t];
    var next := FailNext(s, pc.fail);
    At(FailWrite(s, pc.fail), t, if next.Some? then Failing(pc.of, next.value) else AfterCount(pc.of, false))
  }

  function AdvanceReset(s: State, t: Tid): State
    requires t in s.threads && s.threads[t].Resetting?
  {
    var pc := s.threads[t];
    var next := ResetNext(pc.reset);
    At(ResetWrite(s, t, pc.reset), t, if next.Some? then Resetting(pc.of, next.value) else AfterCount(pc.of, true))
  }

  /** A thread counting a failure or a success. */
  function AdvanceCount(s: State, t: Tid): State
    requires t in s.threads && InCount(s.threads[t])
  {
    if s.threads[t].Failing? then AdvanceFail(s, t) else AdvanceReset(s, t)
  }

  function Advance(s: State, t: Tid, answer: bool): State
    requires t in s.threads && s.threads[t] != Spawn
  {
    if InCount(s.threads[t]) then AdvanceCount(s, t)
    else if InConnect(s.threads[t]) then AdvanceConnect(s, t, answer)
    else if InSequence(s.threads[t]) then AdvanceSequence(s, t, answer)
    else if InError(s.threads[t]) then AdvanceError(s, t, answer)
    else AdvanceReport(s, t, answer)
  }

  function Next(s: State, step: Step): State
    requires Enabled(s, step)
  {
    match step
    case Enter(t, call) => At(s, t, EntryOf(call))
    case Go(t, answer) => Advance(s, t, answer)
    case StartThread(t, u) => At(Done(s, t), u, SequenceStart)
    case Tick(elapsed) => s.(clock := s.clock + elapsed)
    case Shutdown => s.(shutdown := true)
  }

  ghost predicate Initial(s: State) {
    && s.connection == Disconnected && s.counters == FRESH_COUNTERS && !s.inProgress && !s.shutdown && !s.overtaken
    && s.threads == map[] && s.lastSuccess == None && s.lastFatal == None && s.successes == [] && s.fatals == []
  }

  ghost predicate Reaches(first: State, steps: seq<Step>, s: State) {
    if steps == [] then s == first
    else
      var n := |steps| - 1;
      exists before :: Reaches(first, steps[..n], before) && Enabled(before, steps[n]) && s == Next(before, steps[n])
  }

  // ---------- one sequence at a time ----------

  /** About to start, or running, a reconnect sequence. */
  predicate Sequencing(pc: Pc) {
    pc.Spawn? || InSequence(pc) || (InCount(pc) && pc.of == OfSequence)
  }

  ghost predicate OneSequence(s: State) {
    && (forall t :: t in s.threads && Sequencing(s.threads[t]) ==> s.inProgress)
    && (s.inProgress ==> exists t :: t in s.threads && Sequencing(s.threads[t]))
    && forall t, u ::
         t in s.threads && u in s.threads && Sequencing(s.threads[t]) && Sequencing(s.threads[u]) ==> t == u
  }

  /** One step moves its own thread only, and the flag is taken on the way into a sequence and given back on the
      way out. */
  ghost predicate Moves(s: State, t: Tid, n: State)
    requires t in s.threads
  {
    && (n.threads == s.threads - {t} || (t in n.threads && n.threads == s.threads[t := n.threads[t]]))
    && var before, after := Sequencing(s.threads[t]), t in n.threads && Sequencing(n.threads[t]);
    && (before == after ==> n.inProgress == s.inProgress)
    && (before && !after ==> !n.inProgress)
    && (!before && after ==> !s.inProgress && n.inProgress)
  }

  lemma AdvanceMoves(s: State, t: Tid, answer: bool)
    requires t in s.threads && s.threads[t] != Spawn
    ensures Moves(s, t, Advance(s, t, answer))
  {
    if s.threads[t].Failing? {
      FailMoves(s, t);
    } else if s.threads[t].Resetting? {
      ResetMoves(s, t);
    } else if InError(s.threads[t]) {
      ErrorMoves(s, t, answer);
    } else if InConnect(s.threads[t]) {
      ConnectMoves(s, t, answer);
    } else if InSequence(s.threads[t]) {
      SequenceMoves(s, t, answer);
    } else {
      ReportMoves(s, t, answer);
    }
  }

  lemma FailMoves(s: State, t: Tid)
    requires t in s.threads && s.threads[t].Failing?
    ensures Moves(s, t, AdvanceFail(s, t))
  {
  }

  lemma ResetMoves(s: State, t: Tid)
    requires t in s.threads && s.threads[t].Resetting?
    ensures Moves(s, t, AdvanceReset(s, t))
  {
  }

  lemma ErrorMoves(s: State, t: Tid, answer: bool)
    requires t in s.threads && InError(s.threads[t])
    ensures Moves(s, t, AdvanceError(s, t, answer))
  {
  }

  lemma ConnectMoves(s: State, t: Tid, answer: bool)
    requires t in s.threads && InConnect(s.threads[t])
    ensures Moves(s, t, AdvanceConnect(s, t, answer))
  {
  }

  lemma ReportMoves(s: State, t: Tid, answer: bool)
    requires t in s.threads && InReport(s.threads[t])
    ensures Moves(s, t, AdvanceReport(s, t, answer))
  {
  }

  lemma SequenceMoves(s: State, t: Tid, answer: bool)
    requires t in s.threads && InSequence(s.threads[t])
    ensures Moves(s, t, AdvanceSequence(s, t, answer))
  {
  }

  lemma MovesKeepsOneSequence(s: State, t: Tid, n: State)
    requires OneSequence(s) && t in s.threads && Moves(s, t, n)
    ensures OneSequence(n)
  {
    assert forall u :: u in n.threads && u != t ==> u in s.threads && n.threads[u] == s.threads[u];
    if n.inProgress && s.inProgress {
      var u :| u in s.threads && Sequencing(s.threads[u]);
      assert u in n.threads && Sequencing(n.threads[u]);
    }
  }

  lemma StepKeepsOneSequence(s: State, step: Step)
    requires OneSequence(s) && Enabled(s, step)
    ensures OneSequence(Next(s, step))
  {
    match step {
      case Enter(t, call) =>
        var n := At(s, t, EntryOf(call));
        assert !Sequencing(EntryOf(call));
        assert forall u :: u in s.threads ==> u in n.threads && n.threads[u] == s.threads[u];
      case Go(t, answer) =>
        AdvanceMoves(s, t, answer);
        MovesKeepsOneSequence(s, t, Advance(s, t, answer));
      case StartThread(t, u) =>
        var n := Next(s, step);
        assert u in n.threads && Sequencing(n.threads[u]);
      case _ =>
    }
  }

  // ---------- no wedge ----------

  /** The thread has still to write a settled state after the passing state `c`. */
  predicate Owes(pc: Pc, c: Connection) {
    match c
    case Connecting => pc.ConnectTry? || pc.ConnectFinal? || (InCount(pc) && pc.of == OfConnect)
    case Reconnecting =>
      pc.SequenceWait? || pc.SequenceAttempt? || pc.SequenceTry? || pc.SequenceFinal?
          || (InCount(pc) && pc.of == OfSequence)
    case Backoff =>
      pc.SequenceSleep? || pc.SequenceAttempt?
    case _ => false
  }

  predicate AtRest(c: Connection) {
    c == Connected || c == Disconnected
  }

  ghost predicate Owed(s: State) {
    && s.connection != FatalError
    && (AtRest(s.connection) || s.shutdown || (s.owner in s.threads && Owes(s.threads[s.owner], s.connection)))
  }

  /** A step leaves the state alone and what its thread owes still owed (but for a shutdown), or settles it, or
      passes it on and owes in its turn. */
  ghost predicate Pays(s: State, t: Tid, n: State)
    requires t in s.threads
  {
    && n.shutdown == s.shutdown
    && (|| AtRest(n.connection)
        || (n.owner == t && t in n.threads && Owes(n.threads[t], n.connection) && n.connection != FatalError)
        || (n.connection == s.connection && n.owner == s.owner
            && (Owes(s.threads[t], s.connection) && !s.shutdown ==>
                 t in n.threads && Owes(n.threads[t], s.connection))))
  }

  lemma FailPays(s: State, t: Tid)
    requires t in s.threads && s.threads[t].Failing?
    ensures Pays(s, t, AdvanceFail(s, t))
  {
  }

  lemma ResetPays(s: State, t: Tid)
    requires t in s.threads && s.threads[t].Resetting?
    ensures Pays(s, t, AdvanceReset(s, t))
  {
  }

  lemma ErrorPays(s: State, t: Tid, answer: bool)
    requires t in s.threads && InError(s.threads[t])
    ensures Pays(s, t, AdvanceError(s, t, answer))
  {
  }

  lemma ConnectPays(s: State, t: Tid, answer: bool)
    requires t in s.threads && InConnect(s.threads[t])
    ensures Pays(s, t, AdvanceConnect(s, t, answer))
  {
  }

  lemma ReportPays(s: State, t: Tid, answer: bool)
    requires t in s.threads && InReport(s.threads[t])
    ensures Pays(s, t, AdvanceReport(s, t, answer))
  {
  }

  lemma SequencePays(s: State, t: Tid, answer: bool)
    requires t in s.threads && InSequence(s.threads[t])
    ensures Pays(s, t, AdvanceSequence(s, t, answer))
  {
  }

  lemma PaidKeepsOwed(s: State, t: Tid, n: State)
    requires Owed(s) && t in s.threads && Moves(s, t, n) && Pays(s, t, n)
    ensures Owed(n)
  {
  }

  lemma {:induction false} StepKeepsOwed(s: State, step: Step)
    requires Owed(s) && Enabled(s, step)
    ensures Owed(Next(s, step))
  {
    match step {
      case Go(t, answer) =>
        AdvanceMoves(s, t, answer);
        if s.threads[t].Failing? {
          FailPays(s, t);
        } else if s.threads[t].Resetting? {
          ResetPays(s, t);
        } else if InError(s.threads[t]) {
          ErrorPays(s, t, answer);
        } else if InConnect(s.threads[t]) {
          ConnectPays(s, t, answer);
        } else if InSequence(s.threads[t]) {
          SequencePays(s, t, answer);
        } else {
          ReportPays(s, t, answer);
        }
        PaidKeepsOwed(s, t, Advance(s, t, answer));
      case _ =>
    }
  }
}
