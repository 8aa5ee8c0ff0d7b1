/** How recent the cached document is. Derived allows any settled document and the agent's writes in any
    order; here a run also records which document was settled last and what the agent has written since. */
module ConfigFreshness {
  import opened Json
  import opened FirestoreCodec
  import opened ConfigSync
  import opened ConfigReplication
  import opened ConfigGuarantees

  /** `last` is the document handed over last, `since` the agent's writes after it, oldest first; `overtaken`
      says that the listener has handed a document over since the current push took its snapshot. */
  datatype Watch = Watch(last: Json, since: seq<Json>, overtaken: bool)

  const NOTHING_SETTLED := Watch(EMPTY, [], false)

  /** What the agent writes in a startup. */
  function StartupWrites(s: State): seq<Json> {
    var payload := Normalize(s.local);
    match StartupDecision(s).action
    case Seed => if s.local == EMPTY then [] else [payload]
    case Push => if payload == EMPTY then [] else [payload]
    case _ => []
  }

  /** A seed that lands starts over from nothing. */
  function WatchStartup(s: State, h: Watch, read: ReadOutcome, write: WriteOutcome): Watch {
    var writes := StartupWrites(s);
    if read == ReadFailed || (!Truthy(s.remote) && Truthy(s.cache)) then h
    else
      match StartupDecision(s).action
      case Push => Watch(h.last, h.since + writes, false)
      case Seed =>
        if writes != [] && write == Landed then Watch(EMPTY, writes, false)
        else if Truthy(s.remote) then Watch(s.remote.value, writes, false)
        else Watch(h.last, h.since + writes, false)
      case _ => Watch(OrEmpty(s.remote), [], false)
  }

  function Watched(s: State, h: Watch, step: Step): Watch {
    match step
    case ArmPush => h.(overtaken := false)
    case WritePush(_, _) => if s.push.Some? then h.(since := h.since + [s.push.value.payload]) else h
    case FinishPush(_) => h.(overtaken := false)
    case Restart => h.(overtaken := false)
    case Deliver(doc) =>
      if s.echo == Some(doc) || ConfigsEqual(Some(doc), s.cache) then h
      else Watch(doc, [], s.push.Some?)
    case AutoRestore(statePatch, _, _) =>
      if statePatch == EMPTY then h else h.(since := h.since + [BreakerPatch(statePatch)])
    case Startup(read, write, _) => WatchStartup(s, h, read, write)
    case _ => h
  }

  // ---------- freshness ----------

  /** `ws` is what is left of `all` when some of its entries are dropped. */
  predicate Within(ws: seq<Json>, all: seq<Json>) {
    ws == []
    || (all != []
        && (Within(ws, all[..|all| - 1])
            || (ws[|ws| - 1] == all[|all| - 1] && Within(ws[..|ws| - 1], all[..|all| - 1]))))
  }

  /** On every synced field, `doc` is the document settled last with writes made since merged in, in the
      order they were made. */
  ghost predicate Fresh(doc: Json, h: Watch) {
    exists ws: seq<Json> :: Within(ws, h.since) && Normalize(doc) == Normalize(MergeAll(h.last, ws))
  }

  /** A push in flight: the cache it started from was fresh, and its own write came later. */
  ghost predicate FreshBefore(p: PushInFlight, h: Watch) {
    exists ws: seq<Json> ::
      && Within(if p.written then ws + [p.payload] else ws, h.since)
      && Normalize(OrEmpty(p.baseBefore)) == Normalize(MergeAll(h.last, ws))
  }

  ghost predicate Current(s: State, h: Watch) {
    && h.last.Obj? && (forall w :: w in h.since ==> Normal(w))
    && Fresh(OrEmpty(s.cache), h)
    && (s.push.Some? && !h.overtaken ==> FreshBefore(s.push.value, h))
  }

  lemma WithinMore(ws: seq<Json>, all: seq<Json>, w: Json)
    ensures Within(ws, all) ==> Within(ws, all + [w])
    ensures Within(ws, all) ==> Within(ws + [w], all + [w])
  {
    assert (all + [w])[..|all|] == all && (ws + [w])[..|ws|] == ws;
  }

  lemma {:induction false} WithinMembers(ws: seq<Json>, all: seq<Json>)
    requires Within(ws, all)
    ensures forall w :: w in ws ==> w in all
  {
    if ws != [] {
      if Within(ws, all[..|all| - 1]) {
        WithinMembers(ws, all[..|all| - 1]);
      } else {
        WithinMembers(ws[..|ws| - 1], all[..|all| - 1]);
        assert ws == ws[..|ws| - 1] + [ws[|ws| - 1]];
      }
    }
  }

  lemma {:induction false} WithinDrop(ws: seq<Json>, w: Json, all: seq<Json>)
    requires Within(ws + [w], all)
    ensures Within(ws, all)
  {
    var both := ws + [w];
    assert both[..|both| - 1] == ws;
    if Within(both, all[..|all| - 1]) {
      WithinDrop(ws, w, all[..|all| - 1]);
    }
  }

  lemma FreshSettled(doc: Json, h: Watch)
    requires Normalize(doc) == Normalize(h.last)
    ensures Fresh(doc, h)
  {
    assert MergeAll(h.last, []) == h.last;
  }

  lemma FreshMore(doc: Json, h: Watch, w: Json)
    requires Fresh(doc, h)
    ensures Fresh(doc, h.(since := h.since + [w]))
  {
    var ws :| Within(ws, h.since) && Normalize(doc) == Normalize(MergeAll(h.last, ws));
    WithinMore(ws, h.since, w);
  }

  /** The newest write may also be merged in. */
  lemma {:induction false} FreshMerged(doc: Json, h: Watch, w: Json, result: Json)
    requires doc.Obj? && h.last.Obj? && Normal(w) && (forall v :: v in h.since ==> Normal(v))
    requires Fresh(doc, h) && Normalize(result) == Normalize(DeepMerge(Normalize(doc), w))
    ensures Fresh(result, h.(since := h.since + [w]))
  {
    var ws :| Within(ws, h.since) && Normalize(doc) == Normalize(MergeAll(h.last, ws));
    WithinMore(ws, h.since, w);
    MergedOnto(ws, h, doc, w, result);
  }

  lemma MergedOnto(ws: seq<Json>, h: Watch, doc: Json, w: Json, result: Json)
    requires h.last.Obj? && Normal(w) && (forall v :: v in h.since ==> Normal(v))
    requires Within(ws, h.since) && Normalize(doc) == Normalize(MergeAll(h.last, ws))
    requires Normalize(result) == Normalize(DeepMerge(Normalize(doc), w))
    ensures Normalize(result) == Normalize(MergeAll(h.last, ws + [w]))
  {
    WithinMembers(ws, h.since);
    forall i | 0 <= i < |ws|
      ensures ws[i].Obj?
    {
      assert ws[i] in ws && Normal(ws[i]);
    }
    MergeAllObj(h.last, ws);
    NormalizeMerge(MergeAll(h.last, ws), w);
    MergeOneMore(h.last, ws, w);
  }

  // ---------- deciding freshness ----------

  /** Every normal form the document handed over last can have with some of the writes since merged in. */
  function Versions(last: Json, since: seq<Json>): set<Json> {
    if since == [] then {Normalize(last)}
    else
      var before := Versions(last, since[..|since| - 1]);
      before + (set v | v in before :: DeepMerge(v, since[|since| - 1]))
  }

  lemma {:induction false} VersionsAreMerges(last: Json, since: seq<Json>, v: Json) returns (ws: seq<Json>)
    requires last.Obj? && (forall w :: w in since ==> Normal(w)) && v in Versions(last, since)
    ensures Within(ws, since) && v == Normalize(MergeAll(last, ws))
  {
    if since == [] {
      ws := [];
    } else {
      var n := |since| - 1;
      var before, w := Versions(last, since[..n]), since[n];
      assert since == since[..n] + [w] && w in since;
      if v in before {
        ws := VersionsAreMerges(last, since[..n], v);
        WithinMore(ws, since[..n], w);
      } else {
        var u :| u in before && v == DeepMerge(u, w);
        var some := VersionsAreMerges(last, since[..n], u);
        WithinMore(some, since[..n], w);
        MergeVersion(last, since[..n], some, w);
        ws := some + [w];
      }
    }
  }

  lemma {:induction false} MergeVersion(last: Json, since: seq<Json>, ws: seq<Json>, w: Json)
    requires last.Obj? && Normal(w) && (forall v :: v in since ==> Normal(v)) && Within(ws, since)
    ensures Normalize(MergeAll(last, ws + [w])) == DeepMerge(Normalize(MergeAll(last, ws)), w)
  {
    WithinObj(last, since, ws);
    NormalizeMerge(MergeAll(last, ws), w);
    MergeOneMore(last, ws, w);
  }

  lemma WithinObj(last: Json, since: seq<Json>, ws: seq<Json>)
    requires last.Obj? && (forall v :: v in since ==> Normal(v)) && Within(ws, since)
    ensures MergeAll(last, ws).Obj?
  {
    WithinMembers(ws, since);
    forall i | 0 <= i < |ws|
      ensures ws[i].Obj?
    {
      assert ws[i] in ws && Normal(ws[i]);
    }
    MergeAllObj(last, ws);
  }

  lemma {:induction false} MergesAreVersions(last: Json, since: seq<Json>, ws: seq<Json>)
    requires last.Obj? && (forall w :: w in since ==> Normal(w)) && Within(ws, since)
    ensures Normalize(MergeAll(last, ws)) in Versions(last, since)
    decreases |since|
  {
    if since != [] {
      var n := |since| - 1;
      if Within(ws, since[..n]) {
        MergesAreVersions(last, since[..n], ws);
      } else if ws != [] {
        var some := ws[..|ws| - 1];
        assert ws == some + [since[n]] && since[n] in since;
        MergesAreVersions(last, since[..n], some);
        MergeVersion(last, since[..n], some, since[n]);
      }
    }
  }

  /** Fresh is being one of the versions, of which there are finitely many to compare with. */
  lemma {:induction false} FreshIsVersion(doc: Json, h: Watch)
    requires h.last.Obj? && forall w :: w in h.since ==> Normal(w)
    ensures Fresh(doc, h) <==> Normalize(doc) in Versions(h.last, h.since)
  {
    if Fresh(doc, h) {
      var ws :| Within(ws, h.since) && Normalize(doc) == Normalize(MergeAll(h.last, ws));
      MergesAreVersions(h.last, h.since, ws);
    }
    if Normalize(doc) in Versions(h.last, h.since) {
      var ws := VersionsAreMerges(h.last, h.since, Normalize(doc));
    }
  }

  // ---------- the premises ----------

  /** What the re-read finds in the cloud or, failing that, in the cache. */
  function Found(s: State, read: ReadOutcome): Option<Json> {
    if read == ReadOk && Truthy(s.remote) then s.remote else s.cache
  }

  /** What a push will go by: what it finds, if that is nothing usable or what it expected, and otherwise the
      snapshot it took. */
  function GoesBy(s: State, read: ReadOutcome): Option<Json>
    requires s.push.Some?
  {
    var found := Found(s, read);
    if !Truthy(found) || ConfigsEqual(found, Some(Expected(s.push.value))) then found else s.push.value.baseBefore
  }

  /** A push that a delivery has overtaken finishes only if what it goes by is a version of what was handed over
      last; the agent does not stop between caching a document and applying it. */
  predicate Timely(s: State, h: Watch, step: Step)
    requires Enabled(s, step)
  {
    match step
    case FinishPush(read) =>
      h.overtaken ==> Normalize(OrEmpty(GoesBy(s, read))) in Versions(h.last, h.since)
    case _ => Intact(s, step)
  }

  /** The run leads from `first` to `s` with the record `h`, keeping the premises if that is asked for. */
  ghost predicate Run(timely: bool, first: State, steps: seq<Step>, s: State, h: Watch) {
    if steps == [] then s == first && h == NOTHING_SETTLED
    else
      var n := |steps| - 1;
      exists before, seen ::
        && Run(timely, first, steps[..n], before, seen)
        && Enabled(before, steps[n])
        && (timely ==> Timely(before, seen, steps[n]))
        && s == Next(before, steps[n])
        && h == Watched(before, seen, steps[n])
  }

  // ---------- the steps ----------

  lemma ArmKeeps(s: State, h: Watch)
    requires Invariant(s) && Current(s, h) && s.push.None?
    ensures Current(ArmPushSpec(s), h.(overtaken := false))
  {
    var ws :| Within(ws, h.since) && Normalize(OrEmpty(s.cache)) == Normalize(MergeAll(h.last, ws));
  }

  lemma WriteKeeps(s: State, h: Watch, write: WriteOutcome, clock: Clock)
    requires Invariant(s) && Current(s, h) && s.push.Some? && !s.push.value.written
    ensures Current(WritePushSpec(s, write, clock), h.(since := h.since + [s.push.value.payload]))
  {
    var p := s.push.value;
    FreshMore(OrEmpty(s.cache), h, p.payload);
    if !h.overtaken {
      var ws :| Within(ws, h.since) && Normalize(OrEmpty(p.baseBefore)) == Normalize(MergeAll(h.last, ws));
      WithinMore(ws, h.since, p.payload);
      assert FreshBefore(p.(written := true), h.(since := h.since + [p.payload]));
    }
  }

  lemma BeginKeeps(s: State, h: Watch, write: WriteOutcome, clock: Clock)
    requires Invariant(s) && Current(s, h) && s.push.None?
    ensures var payload := Normalize(s.local);
            Current(BeginPushSpec(s, write, clock),
                    if payload == EMPTY then h else Watch(h.last, h.since + [payload], false))
  {
    if Normalize(s.local) != EMPTY {
      ArmKeeps(s, h);
      ArmPushKeeps(s);
      WriteKeeps(ArmPushSpec(s), h.(overtaken := false), write, clock);
    }
  }

  /** What a push that is not overtaken may go by is fresh: its snapshot, or what it expected to find. */
  lemma FreshAfter(p: PushInFlight, h: Watch, doc: Json)
    requires h.last.Obj? && (forall w :: w in h.since ==> Normal(w)) && Normal(p.payload)
    requires FreshBefore(p, h) && p.written
    requires doc == OrEmpty(p.baseBefore) || Normalize(doc) == Normalize(Expected(p))
    ensures Fresh(doc, h)
  {
    var base := OrEmpty(p.baseBefore);
    var ws :| Within(ws + [p.payload], h.since) && Normalize(base) == Normalize(MergeAll(h.last, ws));
    WithinDrop(ws, p.payload, h.since);
    if doc != base {
      MergedOnto(ws, h, base, p.payload, doc);
    }
  }

  lemma FinishGoesBy(s: State, read: ReadOutcome)
    requires s.push.Some? && s.push.value.written
    ensures var p, chosen := s.push.value, GoesBy(s, read);
            && FinishPushSpec(s, read).cache == chosen
            && (chosen == s.cache || chosen == p.baseBefore || Normalize(OrEmpty(chosen)) == Normalize(Expected(p)))
  {
  }

  /** A push that finishes leaves a fresh cache exactly if nothing has overtaken it or what it goes by is a version
      of what was handed over last. */
  lemma FinishExactlyHere(s: State, h: Watch, read: ReadOutcome)
    requires Invariant(s) && Current(s, h) && Enabled(s, FinishPush(read))
    ensures Fresh(OrEmpty(FinishPushSpec(s, read).cache), h) <==> Timely(s, h, FinishPush(read))
  {
    FinishGoesBy(s, read);
    var chosen := OrEmpty(GoesBy(s, read));
    FreshIsVersion(chosen, h);
    if !h.overtaken && GoesBy(s, read) != s.cache {
      FreshAfter(s.push.value, h, chosen);
    }
  }

  lemma FinishKeeps(s: State, h: Watch, read: ReadOutcome)
    requires Invariant(s) && Current(s, h) && Enabled(s, FinishPush(read)) && Timely(s, h, FinishPush(read))
    ensures Current(FinishPushSpec(s, read), h.(overtaken := false))
  {
    FinishExactlyHere(s, h, read);
    var chosen := OrEmpty(FinishPushSpec(s, read).cache);
    var ws :| Within(ws, h.since) && Normalize(chosen) == Normalize(MergeAll(h.last, ws));
  }

  lemma FreshBeforeMore(p: PushInFlight, h: Watch, w: Json)
    requires FreshBefore(p, h)
    ensures FreshBefore(p, h.(since := h.since + [w]))
  {
    var ws :| && Within(if p.written then ws + [p.payload] else ws, h.since)
              && Normalize(OrEmpty(p.baseBefore)) == Normalize(MergeAll(h.last, ws));
    WithinMore(if p.written then ws + [p.payload] else ws, h.since, w);
  }

  lemma FreshPatched(cached: Json, h: Watch, patch: Json)
    requires cached.Obj? && h.last.Obj? && Normal(patch) && (forall w :: w in h.since ==> Normal(w))
    requires Fresh(cached, h)
    ensures Fresh(cached, h.(since := h.since + [patch]))
    ensures Fresh(DeepMerge(cached, patch), h.(since := h.since + [patch]))
  {
    FreshMore(cached, h, patch);
    NormalizeMerge(cached, patch);
    FreshMerged(cached, h, patch, DeepMerge(cached, patch));
  }

  lemma PatchStepKeeps(s: State, h: Watch, t: State, patch: Json)
    requires Current(s, h) && Normal(patch) && OrEmpty(s.cache).Obj?
    requires t.push == s.push
    requires t.cache == s.cache || t.cache == Some(DeepMerge(OrEmpty(s.cache), patch))
    ensures Current(t, h.(since := h.since + [patch]))
  {
    FreshPatched(OrEmpty(s.cache), h, patch);
    if s.push.Some? && !h.overtaken {
      FreshBeforeMore(s.push.value, h, patch);
    }
  }

  lemma AutoRestoreStepKeeps(s: State, h: Watch, statePatch: Json, write: WriteOutcome, clock: Clock)
    requires Invariant(s) && Current(s, h) && statePatch.Obj?
    ensures Current(AutoRestoreSpec(s, statePatch, write, clock), Watched(s, h, AutoRestore(statePatch, write, clock)))
  {
    if statePatch != EMPTY {
      BreakerPatchNormal(statePatch);
      AutoRestoreMoves(s, statePatch, write, clock);
      PatchStepKeeps(s, h, AutoRestoreSpec(s, statePatch, write, clock), BreakerPatch(statePatch));
    }
  }

  lemma DeliverStepKeeps(s: State, h: Watch, doc: Json)
    requires Current(s, h) && doc.Obj?
    ensures Current(TakeSpec(s, doc), Watched(s, h, Deliver(doc)))
  {
    if s.echo != Some(doc) && !ConfigsEqual(Some(doc), s.cache) {
      FreshSettled(doc, Watched(s, h, Deliver(doc)));
    }
  }

  lemma StartupPushKeeps(s: State, h: Watch, read: ReadOutcome, write: WriteOutcome, clock: Clock)
    requires Invariant(s) && Current(s, h) && s.push.None? && s.applying.None?
    requires read == ReadOk && StartupDecision(s).action == Push
    ensures Current(ReconcileSpec(s, read, write, clock), WatchStartup(s, h, read, write))
  {
    var r := s.(cache := s.remote);
    var ws :| Within(ws, h.since) && Normalize(OrEmpty(s.cache)) == Normalize(MergeAll(h.last, ws));
    assert Truthy(s.remote) && Fresh(OrEmpty(r.cache), h);
    BeginKeeps(r, h, write, clock);
    assert ReconcileSpec(s, read, write, clock) == BeginPushSpec(r, write, clock);
    assert Normalize(s.local) == EMPTY ==> h.since + StartupWrites(s) == h.since;
  }

  lemma FreshSeed(payload: Json)
    requires Normal(payload)
    ensures Fresh(payload, Watch(EMPTY, [payload], false))
  {
    var h := Watch(EMPTY, [], false);
    NormalizeOfEmpty();
    DeepMergeEmpty(payload);
    FreshSettled(EMPTY, h);
    FreshMerged(EMPTY, h, payload, payload);
    assert h.since + [payload] == [payload];
  }

  lemma FreshUnderSeed(doc: Json, payload: Json)
    ensures Fresh(doc, Watch(doc, [], false)) && Fresh(doc, Watch(doc, [payload], false))
  {
    var h := Watch(doc, [], false);
    FreshSettled(doc, h);
    FreshMore(doc, h, payload);
    assert h.since + [payload] == [payload];
  }

  lemma SeedStepKeeps(s: State, h: Watch, read: ReadOutcome, write: WriteOutcome, clock: Clock)
    requires Invariant(s) && Current(s, h) && s.push.None? && s.applying.None?
    requires read == ReadOk && StartupDecision(s).action == Seed
    requires Truthy(s.remote) || !Truthy(s.cache)
    ensures Current(ReconcileSpec(s, read, write, clock), WatchStartup(s, h, read, write))
  {
    var payload := Normalize(s.local);
    NormalizeIdempotent(s.local);
    if s.local != EMPTY && write == Landed {
      FreshSeed(payload);
    } else if Truthy(s.remote) {
      FreshUnderSeed(s.remote.value, payload);
    } else if s.local != EMPTY {
      FreshMore(OrEmpty(s.cache), h, payload);
    } else {
      assert h.since + StartupWrites(s) == h.since;
    }
  }

  lemma StartupStepKeeps(s: State, h: Watch, read: ReadOutcome, write: WriteOutcome, clock: Clock)
    requires Invariant(s) && Current(s, h) && s.push.None? && s.applying.None?
    ensures Current(ReconcileSpec(s, read, write, clock), WatchStartup(s, h, read, write))
  {
    if read == ReadOk && (Truthy(s.remote) || !Truthy(s.cache)) {
      match StartupDecision(s).action
      case Push => StartupPushKeeps(s, h, read, write, clock);
      case Seed => SeedStepKeeps(s, h, read, write, clock);
      case _ => FreshSettled(OrEmpty(s.remote), WatchStartup(s, h, read, write));
    }
  }

  lemma StepKeepsCurrent(s: State, h: Watch, step: Step)
    requires Invariant(s) && Current(s, h) && Enabled(s, step) && Timely(s, h, step)
    ensures Current(Next(s, step), Watched(s, h, step))
  {
    match step
    case LocalEdit(config) =>
    case DashboardWrite(doc) =>
    case ArmPush => ArmKeeps(s, h);
    case WritePush(write, clock) => WriteKeeps(s, h, write, clock);
    case FinishPush(read) => FinishKeeps(s, h, read);
    case Deliver(doc) => DeliverStepKeeps(s, h, doc);
    case Apply =>
    case AutoRestore(statePatch, write, clock) => AutoRestoreStepKeeps(s, h, statePatch, write, clock);
    case Restart =>
    case Startup(read, write, clock) => StartupStepKeeps(s, h, read, write, clock);
  }

  /** In every timely run the cache holds, on every synced field, the document handed over last with the agent's
      writes since, or some of them, merged in in their order. */
  lemma {:induction false} CacheIsFresh(first: State, steps: seq<Step>, s: State, h: Watch)
    requires Initial(first) && Run(true, first, steps, s, h)
    ensures Invariant(s) && Current(s, h)
    decreases |steps|
  {
    if steps == [] {
      DerivedSettled(EMPTY, Handed(s), s.sent);
      FreshSettled(EMPTY, h);
    } else {
      var n := |steps| - 1;
      var before, seen :|
        && Run(true, first, steps[..n], before, seen)
        && Enabled(before, steps[n])
        && Timely(before, seen, steps[n])
        && s == Next(before, steps[n])
        && h == Watched(before, seen, steps[n]);
      CacheIsFresh(first, steps[..n], before, seen);
      StepKeeps(before, steps[n]);
      StepKeepsCurrent(before, seen, steps[n]);
    }
  }

  /** So a startup that chooses to push finds in the cloud no document later than the one handed over last. */
  lemma {:induction false} StartupPushIsCurrent(first: State, steps: seq<Step>, s: State, h: Watch)
    requires Initial(first) && Run(true, first, steps, s, h)
    requires StartupDecision(s).action == Push
    ensures s.remote.Some? && Fresh(s.remote.value, h)
  {
    CacheIsFresh(first, steps, s, h);
    var ws :| Within(ws, h.since) && Normalize(OrEmpty(s.cache)) == Normalize(MergeAll(h.last, ws));
  }

  // ---------- where it ends ----------

  /** The premise on pushes is exact: in every timely run, the push that finishes next leaves a fresh cache if and
      only if it meets it. */
  lemma {:induction false} FinishExactly(first: State, steps: seq<Step>, s: State, h: Watch, read: ReadOutcome)
    requires Initial(first) && Run(true, first, steps, s, h) && Enabled(s, FinishPush(read))
    ensures Fresh(OrEmpty(FinishPushSpec(s, read).cache), h) <==> Timely(s, h, FinishPush(read))
  {
    CacheIsFresh(first, steps, s, h);
    FinishExactlyHere(s, h, read);
  }

  /** What may happen while a push is on its way: edits, dashboard writes, deliveries, auto-restore patches, and
      its own write. */
  predicate OnTheWay(step: Step) {
    Calm(step) || (step.WritePush? && step.write == Landed)
  }

  ghost predicate Meanwhile(s: State, h: Watch, steps: seq<Step>, t: State, g: Watch) {
    if steps == [] then t == s && g == h
    else
      var n := |steps| - 1;
      exists before, seen ::
        && Meanwhile(s, h, steps[..n], before, seen)
        && Enabled(before, steps[n]) && OnTheWay(steps[n])
        && t == Next(before, steps[n])
        && g == Watched(before, seen, steps[n])
  }

  predicate Writes(step: Step) {
    step.AutoRestore? || step.WritePush?
  }

  predicate WellShaped(h: Watch) {
    h.last.Obj? && forall w :: w in h.since ==> Normal(w)
  }

  lemma MeanwhileStep(s: State, h: Watch, step: Step)
    requires s.push.Some? && Normal(s.push.value.payload) && h.overtaken && WellShaped(h)
    requires Enabled(s, step) && OnTheWay(step)
    ensures var t, g := Next(s, step), Watched(s, h, step);
            && t.push.Some? && t.push.value.(written := true) == s.push.value.(written := true)
            && g.overtaken && WellShaped(g)
            && (!Writes(step) && h.since == [] ==> g.since == [])
            && (!step.Deliver? ==> g.last == h.last)
  {
    if step.AutoRestore? {
      BreakerPatchNormal(step.statePatch);
      if step.statePatch != EMPTY {
        AutoRestoreMoves(s, step.statePatch, step.write, step.clock);
      }
    }
  }

  lemma {:induction false} MeanwhileKeeps(s: State, h: Watch, steps: seq<Step>, t: State, g: Watch)
    requires s.push.Some? && Normal(s.push.value.payload) && h.overtaken && WellShaped(h)
    requires Meanwhile(s, h, steps, t, g)
    ensures t.push.Some? && t.push.value.(written := true) == s.push.value.(written := true)
    ensures g.overtaken && WellShaped(g)
    ensures h.since == [] && (forall step :: step in steps ==> !Writes(step)) ==> g.since == []
    ensures (forall step :: step in steps ==> !step.Deliver?) ==> g.last == h.last
  {
    if steps != [] {
      var n := |steps| - 1;
      var before, seen :|
        && Meanwhile(s, h, steps[..n], before, seen)
        && Enabled(before, steps[n]) && OnTheWay(steps[n])
        && t == Next(before, steps[n])
        && g == Watched(before, seen, steps[n]);
      assert forall step :: step in steps[..n] ==> step in steps;
      assert steps[n] in steps;
      MeanwhileKeeps(s, h, steps[..n], before, seen);
      MeanwhileStep(before, seen, steps[n]);
    }
  }

  /** A document is handed over while a push is on its way. However much happens before the push finishes, the
      cache it leaves is fresh exactly if what it goes by is a version of what was handed over last; with no write
      of the agent's in between, exactly if it agrees with that, on every synced field. */
  lemma {:induction false} OvertakenExactly(
      s: State, h: Watch, doc: Json, steps: seq<Step>, t: State, g: Watch, read: ReadOutcome)
    requires s.push.Some? && Normal(s.push.value.payload) && Enabled(s, Deliver(doc))
    requires s.echo != Some(doc) && !ConfigsEqual(Some(doc), s.cache)
    requires Meanwhile(Next(s, Deliver(doc)), Watched(s, h, Deliver(doc)), steps, t, g)
    requires Enabled(t, FinishPush(read))
    ensures var found, p, done := Found(t, read), s.push.value, FinishPushSpec(t, read);
            var expected := !Truthy(found) || ConfigsEqual(found, Some(Expected(p)));
            && (Fresh(OrEmpty(done.cache), g) <==>
                  Normalize(OrEmpty(if expected then found else p.baseBefore)) in Versions(g.last, g.since))
            && ((forall step :: step in steps ==> !Writes(step)) ==>
                  (Fresh(OrEmpty(done.cache), g) <==>
                     ConfigsEqual(if expected then found else p.baseBefore, Some(g.last))))
            && ((forall step :: step in steps ==> !step.Deliver?) ==> g.last == doc)
  {
    var taken, seen := Next(s, Deliver(doc)), Watched(s, h, Deliver(doc));
    MeanwhileKeeps(taken, seen, steps, t, g);
    FinishGoesBy(t, read);
    FreshIsVersion(OrEmpty(GoesBy(t, read)), g);
    assert Expected(t.push.value) == Expected(s.push.value);
  }

  lemma Extend(first: State, steps: seq<Step>, s: State, h: Watch, step: Step)
    requires Run(false, first, steps, s, h) && Enabled(s, step)
    ensures Run(false, first, steps + [step], Next(s, step), Watched(s, h, step))
  {
    assert (steps + [step])[..|steps|] == steps;
  }

  /** Some run leads there. */
  ghost predicate ReachesWith(first: State, s: State, h: Watch) {
    exists steps :: Run(false, first, steps, s, h)
  }

  lemma OneMore(first: State, s: State, h: Watch, step: Step, next: State, seen: Watch)
    requires ReachesWith(first, s, h)
    requires Enabled(s, step) && Next(s, step) == next && Watched(s, h, step) == seen
    ensures ReachesWith(first, next, seen)
  {
    var steps :| Run(false, first, steps, s, h);
    Extend(first, steps, s, h, step);
  }

  /** A first startup that pulls, and the push that follows. */
  ghost function Pulled(first: State, d0: Json): State {
    first.(cache := Some(d0), echo := Some(d0), local := Applied(first.local, d0), settled := {d0})
  }

  ghost function Armed(first: State, d0: Json): State {
    Pulled(first, d0).(echo := Some(Normalize(d0)), push := Some(PushInFlight(Some(d0), Normalize(d0), false)))
  }

  ghost function Pushing(first: State, d0: Json, clock: Clock): State {
    var p := Normalize(d0);
    Armed(first, d0).(
      remote := WriteMerged(Some(d0), p, Landed, clock),
      push := Some(PushInFlight(Some(d0), p, true)),
      sent := {p})
  }

  lemma UsableStays(d: Json)
    requires Usable(Some(d))
    ensures Normalize(d) != EMPTY && d != EMPTY
  {
    assert "processes" in StripLocalOnly(d).fields;
    assert "processes" in Normalize(d).fields;
  }

  lemma PullSteps(first: State, d0: Json, clock: Clock)
    requires Initial(first) && first.remote == Some(d0) && Usable(Some(d0))
             && !ConfigsEqual(Some(first.local), Some(d0))
    ensures ReachesWith(first, Pulled(first, d0), Watch(d0, [], false))
  {
    var startup := Startup(ReadOk, Landed, clock);
    var fetched := first.(cache := Some(d0), echo := Some(d0), applying := Some(d0));
    UsableStays(d0);
    assert {} + {d0} == {d0};
    assert Run(false, first, [], first, NOTHING_SETTLED);
    OneMore(first, first, NOTHING_SETTLED, startup, fetched, Watch(d0, [], false));
    OneMore(first, fetched, Watch(d0, [], false), Apply, Pulled(first, d0), Watch(d0, [], false));
  }

  lemma PushSteps(first: State, d0: Json, clock: Clock)
    requires Initial(first) && first.remote == Some(d0) && Usable(Some(d0))
    ensures Enabled(Pulled(first, d0), ArmPush) && Next(Pulled(first, d0), ArmPush) == Armed(first, d0)
    ensures var write := WritePush(Landed, clock);
            && Enabled(Armed(first, d0), write)
            && Next(Armed(first, d0), write) == Pushing(first, d0, clock)
            && Watched(Armed(first, d0), Watch(d0, [], false), write) == Watch(d0, [Normalize(d0)], false)
  {
    AppliedAgrees(first.local, d0);
    UsableStays(d0);
    assert {} + {Normalize(d0)} == {Normalize(d0)};
    assert [] + [Normalize(d0)] == [Normalize(d0)];
  }

  /** `d1` has been handed over while the push is in flight. */
  ghost function Moved(first: State, d0: Json, d1: Json, clock: Clock): State {
    var s := Pushing(first, d0, clock);
    s.(remote := Some(d1), cache := Some(d1), local := Applied(s.local, d1), settled := {d0} + {d1})
  }

  lemma MoveSteps(first: State, d0: Json, d1: Json, clock: Clock)
    requires Initial(first) && d0.Obj? && d1.Obj? && !ConfigsEqual(Some(d0), Some(d1))
    ensures var written, deliver := Pushing(first, d0, clock).(remote := Some(d1)), Deliver(d1);
            && Enabled(written, deliver)
            && Watched(written, Watch(d0, [Normalize(d0)], false), deliver) == Watch(d1, [], true)
            && Enabled(Next(written, deliver), Apply)
            && Next(Next(written, deliver), Apply) == Moved(first, d0, d1, clock)
  {
    NormalizeIdempotent(d0);
  }

  /** The re-read finds `d1`, not what was expected. */
  ghost function RolledBack(first: State, d0: Json, d1: Json, clock: Clock): State {
    Moved(first, d0, d1, clock).(cache := Some(d0), echo := None, push := None)
  }

  lemma RollBackStep(first: State, d0: Json, d1: Json, clock: Clock)
    requires d0.Obj? && Usable(Some(d1)) && !ConfigsEqual(Some(d0), Some(d1))
    ensures var moved, finish := Moved(first, d0, d1, clock), FinishPush(ReadOk);
            && Enabled(moved, finish)
            && Next(moved, finish) == RolledBack(first, d0, d1, clock)
            && Watched(moved, Watch(d1, [], true), finish) == Watch(d1, [], false)
  {
    var moved := Moved(first, d0, d1, clock);
    UsableStays(d1);
    NormalizeIdempotent(d0);
    DeepMergeSelf(Normalize(d0));
    assert Expected(moved.push.value) == Normalize(d0);
    assert GetConfig(moved, ReadOk) == Fetched(Some(d1), true);
  }

  lemma OvertakenPush(first: State, d0: Json, d1: Json, clock: Clock)
    requires Initial(first) && first.remote == Some(d0) && Usable(Some(d0))
             && !ConfigsEqual(Some(first.local), Some(d0))
    requires d1.Obj? && Usable(Some(d1)) && !ConfigsEqual(Some(d0), Some(d1))
    ensures ReachesWith(first, RolledBack(first, d0, d1, clock), Watch(d1, [], false))
  {
    var pulledAs, before, during := Watch(d0, [], false), Watch(d0, [Normalize(d0)], false), Watch(d1, [], true);
    var pulled, armed, pushing := Pulled(first, d0), Armed(first, d0), Pushing(first, d0, clock);
    var moved := Moved(first, d0, d1, clock);
    var written := pushing.(remote := Some(d1));
    PullSteps(first, d0, clock);
    PushSteps(first, d0, clock);
    OneMore(first, pulled, pulledAs, ArmPush, armed, pulledAs);
    OneMore(first, armed, pulledAs, WritePush(Landed, clock), pushing, before);
    OneMore(first, pushing, before, DashboardWrite(Some(d1)), written, before);
    MoveSteps(first, d0, d1, clock);
    var taken := Next(written, Deliver(d1));
    OneMore(first, written, before, Deliver(d1), taken, during);
    OneMore(first, taken, during, Apply, moved, during);
    RollBackStep(first, d0, d1, clock);
    OneMore(first, moved, during, FinishPush(ReadOk), RolledBack(first, d0, d1, clock), Watch(d1, [], false));
  }

  /** The way back is dropped, and a restart leaves `d1` in config.json over `d0` in the cloud. */
  lemma ReturnSteps(first: State, d0: Json, d1: Json, clock: Clock)
    requires Initial(first) && d0.Obj? && d1.Obj? && !ConfigsEqual(Some(d0), Some(d1)) && Usable(Some(d0))
    ensures var s := RolledBack(first, d0, d1, clock).(remote := Some(d0));
            && Enabled(s, Deliver(d0)) && Next(s, Deliver(d0)) == s && Next(s, Restart) == s
            && ConfigsEqual(Some(s.local), Some(d1))
            && StartupDecision(s).action == Push
  {
    var s := RolledBack(first, d0, d1, clock).(remote := Some(d0));
    AppliedAgrees(Pushing(first, d0, clock).local, d1);
    UsableStays(d0);
  }

  /** Without the premise the startup push can go over a later edit. The dashboard moves from `d0` to `d1`
      while a push is in flight and the listener hands `d1` over; the push rolls the cache back to `d0`. When
      the dashboard then returns to `d0`, the delivery is taken for known, and the startup after a restart
      takes `d1` in config.json for the newer side. */
  lemma {:induction false} StaleRollback(first: State, d0: Json, d1: Json, clock: Clock)
    requires Initial(first) && first.remote == Some(d0) && Usable(Some(d0))
             && !ConfigsEqual(Some(first.local), Some(d0))
    requires d1.Obj? && Usable(Some(d1)) && !ConfigsEqual(Some(d0), Some(d1))
    ensures exists s, h ::
              && ReachesWith(first, s, h)
              && s.remote == Some(d0) && h.last == d1 && ConfigsEqual(Some(s.local), Some(d1))
              && StartupDecision(s).action == Push
              && !Fresh(d0, h)
  {
    var h := Watch(d1, [], false);
    var rolled := RolledBack(first, d0, d1, clock);
    var s := rolled.(remote := Some(d0));
    OvertakenPush(first, d0, d1, clock);
    OneMore(first, rolled, h, DashboardWrite(Some(d0)), s, h);
    ReturnSteps(first, d0, d1, clock);
    OneMore(first, s, h, Deliver(d0), s, h);
    OneMore(first, s, h, Restart, s, h);
    assert forall ws: seq<Json> :: Within(ws, h.since) ==> ws == [] && MergeAll(d1, ws) == d1;
  }
}
