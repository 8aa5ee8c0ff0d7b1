/** The config protocol as a state machine: four copies of one document, an agent, and a dashboard that
    may write at any moment. Digests are compared as the documents they digest. */
module ConfigReplication {
  import opened Json
  import opened FieldPaths
  import opened FirestoreCodec
  import opened MergeWrite
  import opened FirestoreServer
  import opened PayloadWrite
  import opened PushPrediction
  import opened ConfigSync

  /** A push whose guard is armed, before its write or between the write and the re-read: the cache snapshot
      taken before, and what is sent. */
  datatype PushInFlight = PushInFlight(baseBefore: Option<Json>, payload: Json, written: bool)

  /** `applying` is a document already cached whose callback has yet to change config.json. `settled` and `sent`
      are history: the documents settled with the local side (handed to the update callback, found in agreement
      with it, or found unusable and seeded over), and what the agent wrote. */
  datatype State = State(
    remote: Option<Json>,
    cache: Option<Json>,
    echo: Option<Json>,
    local: Json,
    push: Option<PushInFlight>,
    applying: Option<Json>,
    settled: set<Json>,
    sent: set<Json>)

  /** The clock readings a write may leave in the document. */
  datatype Clock = Clock(requestTime: string, clientTime: string)

  /** A write lands, or raises, with or without having landed. */
  datatype WriteOutcome = Landed | Raised(landed: bool)

  datatype ReadOutcome = ReadOk | ReadFailed

  datatype Step =
    | LocalEdit(config: Json)
    | DashboardWrite(document: Option<Json>)
    | ArmPush
    | WritePush(write: WriteOutcome, clock: Clock)
    | FinishPush(read: ReadOutcome)
    | Deliver(doc: Json)
    | Apply
    | AutoRestore(statePatch: Json, write: WriteOutcome, clock: Clock)
    | Restart
    | Startup(read: ReadOutcome, write: WriteOutcome, clock: Clock)

  // ---------- the transitions ----------

  predicate Truthy(config: Option<Json>) {
    config.Some? && config.value != EMPTY
  }

  function WriteMerged(remote: Option<Json>, payload: Json, write: WriteOutcome, clock: Clock): Option<Json> {
    if write == Raised(false) then remote
    else Some(Merged(remote, payload, clock.requestTime, clock.clientTime))
  }

  /** What `get_config` returns: the document read, or the cached one. */
  datatype Fetched = Fetched(config: Option<Json>, isFresh: bool)

  function GetConfig(s: State, read: ReadOutcome): Fetched {
    if read == ReadOk && Truthy(s.remote) then Fetched(s.remote, true)
    else if Truthy(s.cache) then Fetched(s.cache, false)
    else Fetched(None, false)
  }

  function CacheAfterGet(s: State, read: ReadOutcome): Option<Json> {
    if read == ReadOk && Truthy(s.remote) then s.remote else s.cache
  }

  /** The update callback: everything but the local-only keys is replaced. */
  function Applied(local: Json, doc: Json): Json {
    Obj((FieldsOf(doc) - LOCAL_ONLY_KEYS)
        + (map k | k in FieldsOf(local) && k in LOCAL_ONLY_KEYS :: FieldsOf(local)[k]))
  }

  function ArmPushSpec(s: State): State {
    var payload := Normalize(s.local);
    if payload == EMPTY then s
    else s.(echo := Some(payload), push := Some(PushInFlight(s.cache, payload, false)))
  }

  function WritePushSpec(s: State, write: WriteOutcome, clock: Clock): State
    requires s.push.Some?
  {
    var p := s.push.value;
    var written := s.(remote := WriteMerged(s.remote, p.payload, write, clock), sent := s.sent + {p.payload});
    if write == Landed then written.(push := Some(p.(written := true)))
    else written.(echo := None, push := None)
  }

  /** A push up to its re-read, undisturbed. */
  function BeginPushSpec(s: State, write: WriteOutcome, clock: Clock): State {
    if Normalize(s.local) == EMPTY then s else WritePushSpec(ArmPushSpec(s), write, clock)
  }

  /** The document the agent expects its push to have produced. */
  function Expected(p: PushInFlight): Json {
    DeepMerge(Normalize(OrEmpty(p.baseBefore)), p.payload)
  }

  function FinishPushSpec(s: State, read: ReadOutcome): State
    requires s.push.Some?
  {
    var p := s.push.value;
    var post := GetConfig(s, read).config;
    var done := s.(cache := CacheAfterGet(s, read), push := None);
    if post.Some? && !ConfigsEqual(post, Some(Expected(p))) then done.(echo := None, cache := p.baseBefore)
    else done.(echo := if post.Some? then post else Some(p.payload))
  }

  /** The listener's callback up to the update callback: the two echo guards, then the cache. */
  function TakeSpec(s: State, doc: Json): State {
    if s.echo == Some(doc) then s.(echo := None)
    else if ConfigsEqual(Some(doc), s.cache) then s
    else s.(cache := Some(doc), applying := Some(doc))
  }

  /** The update callback, for a document already cached. */
  function ApplySpec(s: State): State
    requires s.applying.Some?
  {
    var doc := s.applying.value;
    s.(local := Applied(s.local, doc), applying := None, settled := s.settled + {doc})
  }

  /** A delivery, undisturbed. */
  function DeliverSpec(s: State, doc: Json): State {
    if s.echo == Some(doc) || ConfigsEqual(Some(doc), s.cache) then TakeSpec(s, doc)
    else ApplySpec(TakeSpec(s, doc))
  }

  function BreakerPatch(statePatch: Json): Json {
    Obj(map["displays" := Obj(map["autoRestore" := Obj(map["circuitBreaker" := statePatch])])])
  }

  function AutoRestoreSpec(s: State, statePatch: Json, write: WriteOutcome, clock: Clock): State {
    if statePatch == EMPTY then s
    else
      var patch := BreakerPatch(statePatch);
      var written := s.(remote := WriteMerged(s.remote, patch, write, clock), sent := s.sent + {patch});
      if write != Landed then written
      else written.(cache := Some(DeepMerge(OrEmpty(s.cache), patch)),
                    local := if s.local == EMPTY then EMPTY else DeepMerge(s.local, patch))
  }

  /** What startup decides, once it has read the document. */
  function StartupDecision(s: State): Decision {
    DecideStartupSync(s.cache, Some(s.local), if Truthy(s.remote) then s.remote else None)
  }

  /** A startup, a pull up to the update callback and a push up to its re-read. Nothing listens yet. */
  function ReconcileSpec(s: State, read: ReadOutcome, write: WriteOutcome, clock: Clock): State {
    if read == ReadFailed then s
    else if !Truthy(s.remote) && Truthy(s.cache) then s
    else
      var r := s.(cache := CacheAfterGet(s, read));
      match StartupDecision(s).action
      case Seed =>
        var found := if Truthy(s.remote) then {s.remote.value} else {};
        var seen := r.(settled := r.settled + found);
        if s.local == EMPTY then seen
        else
          var payload := Normalize(s.local);
          var written := seen.(remote := WriteMerged(s.remote, payload, write, clock), sent := s.sent + {payload});
          if write == Landed then written.(echo := Some(payload), cache := Some(payload))
          else written.(echo := None)
      case InSync => r.(echo := s.remote, settled := s.settled + {OrEmpty(s.remote)})
      case Push => BeginPushSpec(r, write, clock)
      case Pull =>
        var doc := OrEmpty(s.remote);
        r.(echo := Some(doc), applying := Some(doc))
  }

  /** A startup up to the re-read of a push, undisturbed. */
  function StartupSpec(s: State, read: ReadOutcome, write: WriteOutcome, clock: Clock): State {
    var t := ReconcileSpec(s, read, write, clock);
    if s.applying.None? && t.applying.Some? then ApplySpec(t) else t
  }

  /** A restart loses what is only in memory; the cache is also on disk. */
  function RestartSpec(s: State): State {
    s.(echo := None, push := None, applying := None)
  }

  predicate Enabled(s: State, step: Step) {
    match step
    case LocalEdit(config) => config.Obj?
    case DashboardWrite(doc) => doc.Some? ==> doc.value.Obj?
    case ArmPush => s.push.None?
    case WritePush(_, _) => s.push.Some? && !s.push.value.written
    case FinishPush(_) => s.push.Some? && s.push.value.written
    case Deliver(doc) => doc.Obj? && s.applying.None?
    case Apply => s.applying.Some?
    case AutoRestore(statePatch, _, _) => statePatch.Obj?
    case Restart => true
    case Startup(_, _, _) => s.push.None? && s.echo.None? && s.applying.None?
  }

  function Next(s: State, step: Step): State
    requires Enabled(s, step)
  {
    match step
    case LocalEdit(config) => s.(local := config)
    case DashboardWrite(doc) => s.(remote := doc)
    case ArmPush => ArmPushSpec(s)
    case WritePush(write, clock) => WritePushSpec(s, write, clock)
    case FinishPush(read) => FinishPushSpec(s, read)
    case Deliver(doc) => TakeSpec(s, doc)
    case Apply => ApplySpec(s)
    case AutoRestore(statePatch, write, clock) => AutoRestoreSpec(s, statePatch, write, clock)
    case Restart => RestartSpec(s)
    case Startup(read, write, clock) => ReconcileSpec(s, read, write, clock)
  }

  /** `s` is reached from `first` by the steps. */
  ghost predicate Reaches(first: State, steps: seq<Step>, s: State) {
    if steps == [] then s == first
    else
      var n := |steps| - 1;
      exists before :: Reaches(first, steps[..n], before) && Enabled(before, steps[n]) && s == Next(before, steps[n])
  }

  /** The premise: the agent does not stop between caching a document and applying it. */
  predicate Intact(s: State, step: Step) {
    step.Restart? ==> s.applying.None?
  }

  ghost predicate IntactRun(first: State, steps: seq<Step>, s: State) {
    if steps == [] then s == first
    else
      var n := |steps| - 1;
      exists before :: && IntactRun(first, steps[..n], before) && Enabled(before, steps[n])
                       && Intact(before, steps[n]) && s == Next(before, steps[n])
  }

  /** A fresh install: nothing cached, nothing settled. */
  predicate Initial(s: State) {
    && s.cache.None? && s.echo.None? && s.push.None? && s.applying.None? && s.settled == {} && s.sent == {}
    && s.local.Obj? && (s.remote.Some? ==> s.remote.value.Obj?)
  }

  // ---------- where the cache comes from ----------

  function MergeAll(base: Json, patches: seq<Json>): Json {
    if patches == [] then base
    else DeepMerge(MergeAll(base, patches[..|patches| - 1]), patches[|patches| - 1])
  }

  /** On every synced field, `doc` is a settled document (or nothing) with writes of the agent merged in. */
  ghost predicate Derived(doc: Json, settled: set<Json>, sent: set<Json>) {
    exists base: Json, patches: seq<Json> ::
      && (base == EMPTY || base in settled)
      && (forall i :: 0 <= i < |patches| ==> patches[i] in sent)
      && Normalize(doc) == Normalize(MergeAll(base, patches))
  }

  /** The documents settled, and the one about to be. */
  function Handed(s: State): set<Json> {
    s.settled + if s.applying.Some? then {s.applying.value} else {}
  }

  ghost predicate PushSound(s: State, p: PushInFlight) {
    && Normal(p.payload) && (p.written ==> p.payload in s.sent)
    && OrEmpty(p.baseBefore).Obj?
    && Derived(OrEmpty(p.baseBefore), Handed(s), s.sent)
  }

  ghost predicate Invariant(s: State) {
    && s.local.Obj? && (s.remote.Some? ==> s.remote.value.Obj?) && (s.cache.Some? ==> s.cache.value.Obj?)
    && (forall d :: d in Handed(s) ==> d.Obj?)
    && (forall d :: d in s.sent ==> Normal(d))
    && Derived(OrEmpty(s.cache), Handed(s), s.sent)
    && (s.push.Some? ==> PushSound(s, s.push.value))
  }

  lemma DerivedGrows(doc: Json, settled: set<Json>, sent: set<Json>, settled': set<Json>, sent': set<Json>)
    requires Derived(doc, settled, sent) && settled <= settled' && sent <= sent'
    ensures Derived(doc, settled', sent')
  {
    var base: Json, patches: seq<Json> :|
      && (base == EMPTY || base in settled)
      && (forall i :: 0 <= i < |patches| ==> patches[i] in sent)
      && Normalize(doc) == Normalize(MergeAll(base, patches));
    assert forall i :: 0 <= i < |patches| ==> patches[i] in sent';
  }

  lemma DerivedSettled(doc: Json, settled: set<Json>, sent: set<Json>)
    requires doc == EMPTY || doc in settled
    ensures Derived(doc, settled, sent)
  {
    assert MergeAll(doc, []) == doc;
  }

  lemma MergeAllObj(base: Json, patches: seq<Json>)
    requires base.Obj? && forall i :: 0 <= i < |patches| ==> patches[i].Obj?
    ensures MergeAll(base, patches).Obj?
  {
  }

  lemma MergeOneMore(base: Json, patches: seq<Json>, patch: Json)
    ensures MergeAll(base, patches + [patch]) == DeepMerge(MergeAll(base, patches), patch)
  {
    assert (patches + [patch])[..|patches|] == patches;
  }

  /** Merging one more write of the agent's into a derived document gives a derived document. */
  lemma DerivedMerge(doc: Json, patch: Json, result: Json, settled: set<Json>, sent: set<Json>)
    requires doc.Obj? && Derived(doc, settled, sent) && patch in sent
    requires (forall d :: d in settled ==> d.Obj?) && (forall d :: d in sent ==> Normal(d))
    requires Normalize(result) == Normalize(DeepMerge(Normalize(doc), patch))
    ensures Derived(result, settled, sent)
  {
    var base: Json, patches: seq<Json> :|
      && (base == EMPTY || base in settled)
      && (forall i :: 0 <= i < |patches| ==> patches[i] in sent)
      && Normalize(doc) == Normalize(MergeAll(base, patches));
    assert base.Obj? && forall i :: 0 <= i < |patches| ==> patches[i].Obj?;
    MergeAllObj(base, patches);
    NormalizeMerge(MergeAll(base, patches), patch);
    MergeOneMore(base, patches, patch);
    var all := patches + [patch];
    assert forall i :: 0 <= i < |all| ==> all[i] in sent;
    assert Normalize(result) == Normalize(MergeAll(base, all));
  }

  lemma BreakerPatchNormal(statePatch: Json)
    ensures Normal(BreakerPatch(statePatch))
  {
    var inner := Obj(map["circuitBreaker" := statePatch]);
    var displays := Obj(map["autoRestore" := inner]);
    var p := BreakerPatch(statePatch);
    assert CAPTURED_AT[1..] == ["assigned", "capturedAt"] && ENABLED_AT[1..] == ["autoRestore", "enabledAt"];
    assert ENABLED_AT[1..][1..] == ["enabledAt"];
    assert StripPath(inner, ["enabledAt"]).fields == inner.fields;
    assert StripPath(displays, ["autoRestore", "enabledAt"]).fields == displays.fields by {
      assert ["autoRestore", "enabledAt"][1..] == ["enabledAt"];
      assert "circuitBreaker" in inner.fields;
    }
    assert StripPath(displays, ["assigned", "capturedAt"]) == displays;
    assert "autoRestore" in displays.fields;
    assert StripPath(p, CAPTURED_AT).fields == p.fields;
    assert StripPath(p, ENABLED_AT).fields == p.fields;
    assert p.fields.Keys == {"displays"};
    NormalParts(p);
  }

  lemma MergedObj(remote: Option<Json>, payload: Json, write: WriteOutcome, clock: Clock)
    requires payload.Obj? && (remote.Some? ==> remote.value.Obj?)
    ensures var r := WriteMerged(remote, payload, write, clock); r.Some? ==> r.value.Obj?
  {
    ResolveCompact(payload, clock.requestTime, clock.clientTime);
  }

  /** What is derived stays derived when more has been handed over or sent. */
  lemma StaysSound(s: State, t: State)
    requires Invariant(s) && Handed(s) <= Handed(t) && s.sent <= t.sent
    ensures Derived(OrEmpty(s.cache), Handed(t), t.sent)
    ensures s.push.Some? ==> PushSound(t, s.push.value)
  {
    DerivedGrows(OrEmpty(s.cache), Handed(s), s.sent, Handed(t), t.sent);
    if s.push.Some? {
      DerivedGrows(OrEmpty(s.push.value.baseBefore), Handed(s), s.sent, Handed(t), t.sent);
    }
  }

  lemma ArmPushKeeps(s: State)
    requires Invariant(s) && s.push.None?
    ensures Invariant(ArmPushSpec(s))
  {
    NormalizeIdempotent(s.local);
    assert Handed(ArmPushSpec(s)) == Handed(s);
  }

  lemma WritePushKeeps(s: State, write: WriteOutcome, clock: Clock)
    requires Invariant(s) && s.push.Some?
    ensures Invariant(WritePushSpec(s, write, clock))
  {
    var t := WritePushSpec(s, write, clock);
    assert Handed(t) == Handed(s);
    MergedObj(s.remote, s.push.value.payload, write, clock);
    StaysSound(s, t);
  }

  lemma BeginPushKeeps(s: State, write: WriteOutcome, clock: Clock)
    requires Invariant(s) && s.push.None?
    ensures Invariant(BeginPushSpec(s, write, clock))
  {
    ArmPushKeeps(s);
    if Normalize(s.local) != EMPTY {
      WritePushKeeps(ArmPushSpec(s), write, clock);
    }
  }

  lemma FinishPushKeeps(s: State, read: ReadOutcome)
    requires Invariant(s) && s.push.Some? && s.push.value.written
    ensures Invariant(FinishPushSpec(s, read))
  {
    var p := s.push.value;
    var post := GetConfig(s, read).config;
    assert Handed(FinishPushSpec(s, read)) == Handed(s);
    if post.Some? && ConfigsEqual(post, Some(Expected(p))) && CacheAfterGet(s, read) == s.remote {
      DerivedMerge(OrEmpty(p.baseBefore), p.payload, OrEmpty(s.remote), Handed(s), s.sent);
    }
  }

  lemma AutoRestoreMoves(s: State, statePatch: Json, write: WriteOutcome, clock: Clock)
    requires statePatch != EMPTY
    ensures var t, patch := AutoRestoreSpec(s, statePatch, write, clock), BreakerPatch(statePatch);
            && t.push == s.push && Handed(t) == Handed(s) && t.sent == s.sent + {patch}
            && t.remote == WriteMerged(s.remote, patch, write, clock)
            && (t.cache == s.cache || t.cache == Some(DeepMerge(OrEmpty(s.cache), patch)))
            && (s.local.Obj? ==> t.local.Obj?)
  {
  }

  /** Writing `patch` to the cloud, and into the cache or not. */
  lemma {:induction false} PatchKeeps(s: State, t: State, patch: Json)
    requires Invariant(s) && Normal(patch)
    requires t.push == s.push && Handed(t) == Handed(s) && t.sent == s.sent + {patch}
    requires t.local.Obj? && (t.remote.Some? ==> t.remote.value.Obj?)
    requires t.cache == s.cache || t.cache == Some(DeepMerge(OrEmpty(s.cache), patch))
    ensures Invariant(t)
  {
    var cached := OrEmpty(s.cache);
    StaysSound(s, t);
    NormalizeMerge(cached, patch);
    DerivedMerge(cached, patch, DeepMerge(cached, patch), Handed(t), t.sent);
  }

  lemma AutoRestoreKeeps(s: State, statePatch: Json, write: WriteOutcome, clock: Clock)
    requires Invariant(s) && statePatch.Obj?
    ensures Invariant(AutoRestoreSpec(s, statePatch, write, clock))
  {
    if statePatch != EMPTY {
      BreakerPatchNormal(statePatch);
      MergedObj(s.remote, BreakerPatch(statePatch), write, clock);
      AutoRestoreMoves(s, statePatch, write, clock);
      PatchKeeps(s, AutoRestoreSpec(s, statePatch, write, clock), BreakerPatch(statePatch));
    }
  }

  lemma SeedKeeps(s: State, read: ReadOutcome, write: WriteOutcome, clock: Clock)
    requires Invariant(s) && s.push.None? && s.applying.None? && read == ReadOk && StartupDecision(s).action == Seed
    requires Truthy(s.remote) || !Truthy(s.cache)
    ensures Invariant(ReconcileSpec(s, read, write, clock))
  {
    var t := ReconcileSpec(s, read, write, clock);
    var payload := Normalize(s.local);
    assert Handed(t) == t.settled && Handed(s) == s.settled;
    NormalizeIdempotent(s.local);
    MergedObj(s.remote, payload, write, clock);
    if s.local != EMPTY && write == Landed {
      SeedDerived(payload, t.settled, t.sent);
    } else if Truthy(s.remote) {
      DerivedSettled(s.remote.value, t.settled, t.sent);
    } else {
      DerivedGrows(OrEmpty(s.cache), s.settled, s.sent, t.settled, t.sent);
    }
  }

  lemma SeedDerived(payload: Json, settled: set<Json>, sent: set<Json>)
    requires payload in sent && (forall d :: d in settled ==> d.Obj?) && (forall d :: d in sent ==> Normal(d))
    ensures Derived(payload, settled, sent)
  {
    DerivedSettled(EMPTY, settled, sent);
    NormalizeOfEmpty();
    DeepMergeEmpty(payload);
    DerivedMerge(EMPTY, payload, payload, settled, sent);
  }

  lemma StartupKeeps(s: State, read: ReadOutcome, write: WriteOutcome, clock: Clock)
    requires Invariant(s) && s.push.None? && s.applying.None?
    ensures Invariant(ReconcileSpec(s, read, write, clock))
  {
    if read == ReadOk && (Truthy(s.remote) || !Truthy(s.cache)) {
      var t := ReconcileSpec(s, read, write, clock);
      match StartupDecision(s).action
      case Seed =>
        SeedKeeps(s, read, write, clock);
      case Push =>
        var r := s.(cache := s.remote);
        SameNormalDerived(OrEmpty(s.cache), OrEmpty(s.remote), Handed(s), s.sent);
        assert Handed(r) == Handed(s);
        BeginPushKeeps(r, write, clock);
      case _ =>
        assert OrEmpty(s.remote) in Handed(t);
        DerivedSettled(OrEmpty(s.remote), Handed(t), t.sent);
    }
  }

  lemma NormalizeOfEmpty()
    ensures Normalize(EMPTY) == EMPTY
  {
    assert EMPTY.fields - LOCAL_ONLY_KEYS == EMPTY.fields;
    StripEmpty(CAPTURED_AT);
    StripEmpty(ENABLED_AT);
  }

  lemma SameNormalDerived(doc: Json, other: Json, settled: set<Json>, sent: set<Json>)
    requires Derived(doc, settled, sent) && Normalize(doc) == Normalize(other)
    ensures Derived(other, settled, sent)
  {
    var base: Json, patches: seq<Json> :|
      && (base == EMPTY || base in settled)
      && (forall i :: 0 <= i < |patches| ==> patches[i] in sent)
      && Normalize(doc) == Normalize(MergeAll(base, patches));
  }

  lemma DeliverKeeps(s: State, doc: Json)
    requires Invariant(s) && doc.Obj? && s.applying.None?
    ensures Invariant(TakeSpec(s, doc))
  {
    var t := TakeSpec(s, doc);
    StaysSound(s, t);
    if t.applying.Some? {
      DerivedSettled(doc, Handed(t), t.sent);
    }
  }

  lemma ApplyKeeps(s: State)
    requires Invariant(s) && s.applying.Some?
    ensures Invariant(ApplySpec(s))
  {
    assert Handed(ApplySpec(s)) == Handed(s);
  }

  lemma RestartKeeps(s: State)
    requires Invariant(s) && s.applying.None?
    ensures Invariant(RestartSpec(s))
  {
    assert Handed(RestartSpec(s)) == Handed(s);
  }

  lemma OutsideKeeps(s: State, local: Json, remote: Option<Json>)
    requires Invariant(s) && local.Obj? && (remote.Some? ==> remote.value.Obj?)
    ensures Invariant(s.(local := local, remote := remote))
  {
    assert Handed(s.(local := local, remote := remote)) == Handed(s);
  }

  /** Every step of the protocol keeps the cache derived. */
  lemma StepKeeps(s: State, step: Step)
    requires Invariant(s) && Enabled(s, step) && Intact(s, step)
    ensures Invariant(Next(s, step))
  {
    match step
    case LocalEdit(config) => OutsideKeeps(s, config, s.remote);
    case DashboardWrite(doc) => OutsideKeeps(s, s.local, doc);
    case ArmPush => ArmPushKeeps(s);
    case WritePush(write, clock) => WritePushKeeps(s, write, clock);
    case FinishPush(read) => FinishPushKeeps(s, read);
    case Deliver(doc) => DeliverKeeps(s, doc);
    case Apply => ApplyKeeps(s);
    case AutoRestore(statePatch, write, clock) => AutoRestoreKeeps(s, statePatch, write, clock);
    case Restart => RestartKeeps(s);
    case Startup(read, write, clock) => StartupKeeps(s, read, write, clock);
  }

  /** In every run that does not stop between caching a document and applying it, whatever the dashboard, the
      network and the restarts do, the cache holds, on every synced field, a document handed over to the local
      side with only the agent's own writes merged in. */
  lemma {:induction false} CacheIsDerived(first: State, steps: seq<Step>, s: State)
    requires Initial(first) && IntactRun(first, steps, s)
    ensures Invariant(s)
    decreases |steps|
  {
    if steps == [] {
      DerivedSettled(EMPTY, Handed(s), s.sent);
    } else {
      var n := |steps| - 1;
      var before :| && IntactRun(first, steps[..n], before) && Enabled(before, steps[n])
                    && Intact(before, steps[n]) && s == Next(before, steps[n]);
      CacheIsDerived(first, steps[..n], before);
      StepKeeps(before, steps[n]);
    }
  }

  /** So when a startup chooses to push, the cloud document shows nothing beyond that. */
  lemma {:induction false} StartupPushIsSafe(first: State, steps: seq<Step>, s: State)
    requires Initial(first) && IntactRun(first, steps, s)
    requires StartupDecision(s).action == Push
    ensures s.remote.Some? && Derived(s.remote.value, Handed(s), s.sent)
  {
    CacheIsDerived(first, steps, s);
    SameNormalDerived(OrEmpty(s.cache), s.remote.value, Handed(s), s.sent);
  }

  /** The premise is needed: stopped in between, the agent has cached a document it never handed over. */
  lemma {:induction false} TornCache(first: State, doc: Json) returns (steps: seq<Step>, s: State)
    requires Initial(first) && doc.Obj? && Normalize(doc) != EMPTY
    ensures Reaches(first, steps, s) && s.applying.None?
    ensures !Derived(OrEmpty(s.cache), Handed(s), s.sent)
  {
    var taken := Next(first, Deliver(doc));
    s := Next(taken, Restart);
    steps := [Deliver(doc), Restart];
    assert steps[..1] == [Deliver(doc)] && [Deliver(doc)][..0] == [];
    assert Reaches(first, [], first) && Reaches(first, [Deliver(doc)], taken);
    if Derived(doc, {}, {}) {
      OnlyEmptyIsDerived(doc, {}, {});
    }
    assert Handed(s) == {} && s.sent == {} && s.cache == Some(doc);
  }

  lemma OnlyEmptyIsDerived(doc: Json, settled: set<Json>, sent: set<Json>)
    requires Derived(doc, settled, sent)
    ensures settled == {} && sent == {} ==> Normalize(doc) == EMPTY
  {
    NormalizeOfEmpty();
    var base: Json, patches: seq<Json> :|
      && (base == EMPTY || base in settled)
      && (forall i :: 0 <= i < |patches| ==> patches[i] in sent)
      && Normalize(doc) == Normalize(MergeAll(base, patches));
    assert patches == [] || patches[0] in sent;
  }
}
