/** The one-shot nonce of the request seam, as a state machine: a drain that accepts requests and rotates the
    nonce before it executes, a poll tick that publishes a nonce when there is none, and crashes anywhere. */
module RequestNonce {
  import opened Json

  type Nonce = string

  /** A drain: at rest; publishing a nonce (for a request it has accepted, or for want of one), before and after
      the old file is removed; ready with the nonce requests must quote (None: none can be honoured); and holding
      an accepted request whose nonce has been retired. */
  datatype Drain =
    | Resting
    | Issuing(accepted: Option<Nonce>, removed: bool)
    | Ready(nonce: Option<Nonce>)
    | Holding(quoted: Nonce, next: Option<Nonce>)

  datatype Poll = Quiet | Publishing(gone: bool)

  /** `file` is the nonce file; `issued` and `executed` are history. */
  datatype State = State(file: Option<Nonce>, drain: Drain, poll: Poll, issued: set<Nonce>, executed: seq<Nonce>)

  datatype Step =
    | BeginDrain
    | Accept(quote: Nonce)
    | Remove(ok: bool)
    | Create(candidate: Nonce, writable: bool)
    | Execute
    | EndDrain
    | PollTick
    | PollRemove(ok: bool)
    | PollCreate(candidate: Nonce, writable: bool)
    | Lose
    | Crash

  /** A candidate drawn at random is one never issued. */
  predicate Enabled(s: State, step: Step) {
    match step
    case BeginDrain => s.drain.Resting?
    case Accept(quote) => s.drain == Ready(Some(quote))
    case Remove(_) => s.drain.Issuing? && !s.drain.removed
    case Create(candidate, _) => s.drain.Issuing? && s.drain.removed && candidate !in s.issued
    case Execute => s.drain.Holding?
    case EndDrain => s.drain.Ready?
    case PollTick => s.poll.Quiet?
    case PollRemove(_) => s.poll.Publishing? && !s.poll.gone
    case PollCreate(candidate, _) => s.poll.Publishing? && s.poll.gone && candidate !in s.issued
    case Lose => true
    case Crash => true
  }

  /** Creation is exclusive: an entry already there, or a tree that cannot be written, leaves the daemon without
      a nonce. */
  predicate Creates(s: State, writable: bool) {
    s.file.None? && writable
  }

  function Published(s: State, candidate: Nonce, writable: bool): State {
    if Creates(s, writable) then s.(file := Some(candidate), issued := s.issued + {candidate}) else s
  }

  function Next(s: State, step: Step): State
    requires Enabled(s, step)
  {
    match step
    case BeginDrain => s.(drain := if s.file.Some? then Ready(s.file) else Issuing(None, false))
    case Accept(quote) => s.(drain := Issuing(Some(quote), false))
    case Remove(ok) => s.(file := if ok then None else s.file, drain := Issuing(s.drain.accepted, true))
    case Create(candidate, writable) =>
      var local := if Creates(s, writable) then Some(candidate) else None;
      Published(s, candidate, writable).(
        drain := if s.drain.accepted.Some? then Holding(s.drain.accepted.value, local) else Ready(local))
    case Execute => s.(executed := s.executed + [s.drain.quoted], drain := Ready(s.drain.next))
    case EndDrain => s.(drain := Resting)
    case PollTick => s.(poll := if s.file.None? then Publishing(false) else Quiet)
    case PollRemove(ok) => s.(file := if ok then None else s.file, poll := Publishing(true))
    case PollCreate(candidate, writable) => Published(s, candidate, writable).(poll := Quiet)
    case Lose => s.(file := None)
    case Crash => s.(drain := Resting, poll := Quiet)
  }

  predicate Initial(s: State) {
    s.file == None && s.drain == Resting && s.poll == Quiet && s.issued == {} && s.executed == []
  }

  /** The old nonce file goes when it is removed. */
  predicate Removes(step: Step) {
    step.Remove? ==> step.ok
  }

  ghost predicate Reaches(first: State, steps: seq<Step>, s: State) {
    if steps == [] then s == first
    else
      var n := |steps| - 1;
      exists before :: Reaches(first, steps[..n], before) && Enabled(before, steps[n]) && s == Next(before, steps[n])
  }

  predicate Distinct(nonces: seq<Nonce>) {
    forall i, j :: 0 <= i < j < |nonces| ==> nonces[i] != nonces[j]
  }

  /** A nonce that is (or may again become) current has executed nothing. */
  ghost predicate Unspent(s: State, n: Option<Nonce>) {
    n.Some? ==> n.value in s.issued && n.value !in s.executed
  }

  ghost predicate OneShot(s: State) {
    && Distinct(s.executed)
    && (forall n :: n in s.executed ==> n in s.issued)
    && Unspent(s, s.file)
    && match s.drain
       case Resting => true
       case Ready(n) => Unspent(s, n)
       case Issuing(accepted, removed) =>
         Unspent(s, accepted) && (removed && accepted.Some? ==> s.file != accepted)
       case Holding(quoted, next) =>
         Unspent(s, Some(quoted)) && Unspent(s, next) && s.file != Some(quoted) && next != Some(quoted)
  }

  lemma StepKeepsOneShot(s: State, step: Step)
    requires OneShot(s) && Enabled(s, step) && Removes(step)
    ensures OneShot(Next(s, step))
  {
  }

  /** One shot: however drains, poll ticks, losses of the file and crashes interleave, each nonce issued leads to
      at most one executed request, for it is retired before the request runs. */
  lemma {:induction false} NonceIsOneShot(first: State, steps: seq<Step>, s: State)
    requires Initial(first) && Reaches(first, steps, s)
    requires forall step :: step in steps ==> Removes(step)
    ensures OneShot(s) && Distinct(s.executed)
  {
    if steps != [] {
      var n := |steps| - 1;
      var before :| Reaches(first, steps[..n], before) && Enabled(before, steps[n]) && s == Next(before, steps[n]);
      assert forall step :: step in steps[..n] ==> step in steps;
      NonceIsOneShot(first, steps[..n], before);
      StepKeepsOneShot(before, steps[n]);
    }
  }

  /** Carries out `steps` one after another, if each is enabled in its turn. */
  function Run(s: State, steps: seq<Step>): Option<State>
    decreases |steps|
  {
    if steps == [] then Some(s)
    else if Enabled(s, steps[0]) then Run(Next(s, steps[0]), steps[1..])
    else None
  }

  lemma RunStep(s: State, steps: seq<Step>)
    requires steps != [] && Enabled(s, steps[0])
    ensures Run(s, steps) == Run(Next(s, steps[0]), steps[1..])
    ensures |steps| == 1 ==> Run(s, steps) == Some(Next(s, steps[0]))
  {
  }

  /** A request accepted and executed in a drain of its own. */
  function Honour(n: Nonce, candidate: Nonce, removes: bool): seq<Step> {
    [BeginDrain, Accept(n), Remove(removes), Create(candidate, true), Execute, EndDrain]
  }

  /** Whether the nonce a request quoted is still current after it has run depends on one thing: whether the file
      it was read from went when it was to be removed. If it did not, the same request can be honoured again. */
  lemma ReplayExactlyWhenNotRemoved(s: State, n: Nonce, candidate: Nonce, removes: bool)
    requires s.file == Some(n) && s.drain.Resting? && n in s.issued && candidate !in s.issued
    ensures var r := Run(s, Honour(n, candidate, removes));
            && r.Some? && r.value.executed == s.executed + [n] && r.value.drain == Resting
            && (r.value.file == Some(n) <==> !removes)
            && (r.value.file == Some(candidate) <==> removes)
  {
    var steps := Honour(n, candidate, removes);
    var s1 := Next(s, steps[0]);
    var s2 := Next(s1, steps[1]);
    var s3 := Next(s2, steps[2]);
    var s4 := Next(s3, steps[3]);
    var s5 := Next(s4, steps[4]);
    RunStep(s, steps);
    RunStep(s1, steps[1..]);
    RunStep(s2, steps[2..]);
    RunStep(s3, steps[3..]);
    RunStep(s4, steps[4..]);
    RunStep(s5, steps[5..]);
  }

  /** A poll tick with no file publishes a nonce if the tree can be written; one with a file leaves it. */
  lemma PollPublishes(s: State, candidate: Nonce, removes: bool, writable: bool)
    requires s.poll.Quiet? && candidate !in s.issued
    ensures var tick := Next(s, PollTick);
            if s.file.Some? then tick == s
            else
              var r := Run(s, [PollTick, PollRemove(removes), PollCreate(candidate, writable)]);
              r == Some(if writable then s.(file := Some(candidate), issued := s.issued + {candidate}) else s)
  {
    if s.file.None? {
      var steps := [PollTick, PollRemove(removes), PollCreate(candidate, writable)];
      RunStep(s, steps);
      RunStep(Next(s, steps[0]), steps[1..]);
      RunStep(Next(Next(s, steps[0]), steps[1]), steps[2..]);
    }
  }

  /** A drain that finds no file publishes a nonce before it looks at any request, so it can honour only what quotes
      that one. */
  lemma DrainPublishes(s: State, candidate: Nonce, removes: bool, writable: bool)
    requires s.drain.Resting? && s.file.None? && candidate !in s.issued
    ensures var r := Run(s, [BeginDrain, Remove(removes), Create(candidate, writable)]);
            r == Some(if writable then s.(file := Some(candidate), issued := s.issued + {candidate},
                                          drain := Ready(Some(candidate)))
                      else s.(drain := Ready(None)))
  {
    var steps := [BeginDrain, Remove(removes), Create(candidate, writable)];
    RunStep(s, steps);
    RunStep(Next(s, steps[0]), steps[1..]);
    RunStep(Next(Next(s, steps[0]), steps[1]), steps[2..]);
  }
}
