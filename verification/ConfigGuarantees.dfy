/** What the config protocol promises, step by step: when a push recognises its own echo, when a dashboard
    edit is sure to reach config.json, and where startup reconciliation comes to rest. */
module ConfigGuarantees {
  import opened Json
  import opened FieldPaths
  import opened FirestoreCodec
  import opened MergeWrite
  import opened FirestoreServer
  import opened PayloadWrite
  import opened PushPrediction
  import opened ConfigSync
  import opened ConfigReplication

  // ---------- the update callback ----------

  /** After the callback config.json agrees with the document on every synced field and keeps what is local. */
  lemma AppliedAgrees(local: Json, doc: Json)
    ensures Normalize(Applied(local, doc)) == Normalize(doc)
    ensures forall k :: k in LOCAL_ONLY_KEYS ==> Child(Applied(local, doc), k) == Child(Obj(FieldsOf(local)), k)
  {
    assert StripLocalOnly(Applied(local, doc)).fields == StripLocalOnly(doc).fields;
  }

  /** A delivered document reaches the callback exactly when neither echo guard takes it for our own. */
  lemma DeliveryExactly(s: State, doc: Json)
    requires doc.Obj? && doc !in s.settled
    ensures doc in DeliverSpec(s, doc).settled <==> s.echo != Some(doc) && !ConfigsEqual(Some(doc), s.cache)
    ensures doc in DeliverSpec(s, doc).settled ==> ConfigsEqual(Some(DeliverSpec(s, doc).local), Some(doc))
    ensures doc !in DeliverSpec(s, doc).settled ==>
            DeliverSpec(s, doc).local == s.local && DeliverSpec(s, doc).cache == s.cache
  {
    AppliedAgrees(s.local, doc);
  }

  // ---------- pushes ----------

  /** A config that can be pushed: it says something, and mentions no timestamp sentinel. */
  predicate Pushable(local: Json) {
    HasLeaf(Normalize(local)) && Plain(Normalize(local)) && Normalize(local) != EMPTY
  }

  lemma {:induction false} PrunedStripped(p: Json, q: Path)
    requires p.Obj? && q != [] && Stripped(p, q)
    ensures Pruned(p).Obj? && Stripped(Pruned(p), q)
    decreases q
  {
    var k := q[0];
    var r := Pruned(p);
    StrippedHead(p, q);
    if |q| > 1 && k in p.fields && p.fields[k].Obj? {
      PrunedStripped(p.fields[k], q[1..]);
      if k in r.fields {
        assert r.fields[k := r.fields[k]] == r.fields;
      }
    } else if |q| == 1 {
      MapMinusAbsent(r.fields, k);
    }
  }

  lemma PrunedNormal(p: Json)
    requires Normal(p)
    ensures Normal(Pruned(p))
  {
    NormalParts(p);
    PrunedStripped(p, CAPTURED_AT);
    PrunedStripped(p, ENABLED_AT);
    NormalParts(Pruned(p));
  }

  /** What a push leaves in the document, and what it was expected to leave, on the synced fields. */
  lemma PushedDocument(s: State, clock: Clock)
    requires s.local.Obj? && OrEmpty(s.remote).Obj? && Pushable(s.local)
    ensures var payload := Normalize(s.local);
            var t := BeginPushSpec(s, Landed, clock);
            && Normal(payload)
            && t.remote == Some(DeepMerge(OrEmpty(s.remote), Pruned(payload)))
            && Truthy(t.remote) && t.remote.value.Obj?
            && Normalize(t.remote.value) == DeepMerge(Normalize(OrEmpty(s.remote)), Pruned(payload))
  {
    var payload := Normalize(s.local);
    NormalizeIdempotent(s.local);
    PlainResolves(payload, clock.requestTime, clock.clientTime);
    LeafSurvives(payload, clock.requestTime, clock.clientTime);
    PrunedCompact(payload);
    var sent := Pruned(payload);
    var before := OrEmpty(s.remote);
    assert DeepMerge(before, sent).fields.Keys == before.fields.Keys + sent.fields.Keys;
    assert sent.fields.Keys != {} by {
      assert sent.fields != map[];
    }
    PrunedNormal(payload);
    NormalizeMerge(before, sent);
  }

  lemma ExpectedIsNormal(base: Option<Json>, payload: Json)
    requires Normal(payload)
    ensures var e := DeepMerge(Normalize(OrEmpty(base)), payload); Normalize(e) == e
  {
    NormalizeIdempotent(OrEmpty(base));
    NormalMerge(Normalize(OrEmpty(base)), payload);
  }

  /** With the cache in step with the cloud and nobody writing in between, a push recognises the document
      it produced, and anchors both guards on it, exactly when pruning empty objects took nothing from it. */
  lemma UndisturbedPush(s: State, clock: Clock)
    requires s.push.None? && s.local.Obj? && OrEmpty(s.remote).Obj? && Pushable(s.local)
    requires ConfigsEqual(s.remote, s.cache)
    ensures var written := BeginPushSpec(s, Landed, clock);
            var done := FinishPushSpec(written, ReadOk);
            && ((done.cache == written.remote && done.echo == written.remote)
                <==> EmptiesCovered(Normalize(OrEmpty(s.remote)), Normalize(s.local)))
            && (done.echo.None? ==> done.cache == s.cache)
            && done.remote == written.remote
  {
    var payload := Normalize(s.local);
    PushedDocument(s, clock);
    ExpectedIsNormal(s.cache, payload);
    PruningHarmless(Normalize(OrEmpty(s.remote)), payload);
  }

  /** What may happen while no push is started and the agent is not restarted. */
  predicate Calm(step: Step) {
    step.LocalEdit? || step.DashboardWrite? || step.AutoRestore? || step.Deliver? || step.Apply?
  }

  lemma {:induction false} CalmStaysDisarmed(s: State, steps: seq<Step>, t: State)
    requires s.echo.None? && s.push.None? && Reaches(s, steps, t) && forall step :: step in steps ==> Calm(step)
    ensures t.echo.None? && t.push.None?
  {
    if steps != [] {
      var n := |steps| - 1;
      var before :| Reaches(s, steps[..n], before) && Enabled(before, steps[n]) && t == Next(before, steps[n]);
      assert forall step :: step in steps[..n] ==> step in steps;
      CalmStaysDisarmed(s, steps[..n], before);
      assert steps[n] in steps;
    }
  }

  /** A push whose re-read finds a document it did not expect rolls the cache back and disarms the guard, and the
      document is not lost: whenever the listener delivers it, whatever has happened since short of another push
      or a restart, it goes to the update callback, unless it is what the cache holds by then, on every synced
      field. */
  lemma {:induction false} DisturbedPush(s: State, doc: Json, steps: seq<Step>, t: State)
    requires s.push.Some? && s.push.value.written && s.remote == Some(doc) && doc.Obj? && doc != EMPTY
    requires !ConfigsEqual(Some(doc), Some(Expected(s.push.value)))
    requires Reaches(FinishPushSpec(s, ReadOk), steps, t) && (forall step :: step in steps ==> Calm(step))
    requires Enabled(t, Deliver(doc))
    ensures var done := FinishPushSpec(s, ReadOk);
            done.cache == s.push.value.baseBefore && done.echo == None && done.local == s.local
    ensures var taken := Next(t, Deliver(doc));
            if ConfigsEqual(Some(doc), t.cache) then taken == t
            else && Enabled(taken, Apply) && ConfigsEqual(Some(Next(taken, Apply).local), Some(doc))
                 && doc in Next(taken, Apply).settled
  {
    CalmStaysDisarmed(FinishPushSpec(s, ReadOk), steps, t);
    AppliedAgrees(t.local, doc);
  }

  // ---------- startup ----------

  /** After a pull, a sync finds both sides in agreement. */
  lemma SyncAfterPull(s: State, clock: Clock)
    requires StartupDecision(s).action == Pull && s.applying.None?
    ensures var pulled := StartupSpec(s, ReadOk, Landed, clock);
            StartupDecision(RestartSpec(pulled)) == Decision(InSync, None)
  {
    AppliedAgrees(s.local, OrEmpty(s.remote));
  }

  lemma PullLands(s: State, write: WriteOutcome, clock: Clock)
    requires StartupDecision(s).action == Pull && s.applying.None?
    ensures s.remote.Some? && StartupSpec(s, ReadOk, write, clock).local == Applied(s.local, s.remote.value)
  {
    assert Truthy(s.remote);
  }

  /** What a pull discards, in every run. It comes without a summary exactly when config.json agrees with the
      cached document on every synced field, and then holds nothing but a settled document with the agent's
      own writes merged in; otherwise the summary names exactly the synced keys whose value the pull changes.
      What is local stays either way. */
  lemma {:induction false} PullsAnnounced(first: State, steps: seq<Step>, s: State, write: WriteOutcome, clock: Clock)
    requires Initial(first) && IntactRun(first, steps, s) && Enabled(s, Startup(ReadOk, write, clock))
    requires StartupDecision(s).action == Pull
    ensures var pulled := StartupSpec(s, ReadOk, write, clock);
            var names := StartupDecision(s).conflict;
            && (names.None? <==> s.cache.Some? && ConfigsEqual(Some(s.local), s.cache))
            && (names.None? ==> Derived(s.local, s.settled, s.sent))
            && (names.Some? ==> forall k: string ::
                  k in names.value <==> ValueOrNull(Normalize(s.local), k) != ValueOrNull(Normalize(pulled.local), k))
            && forall k :: k in LOCAL_ONLY_KEYS ==> Child(pulled.local, k) == Child(Obj(FieldsOf(s.local)), k)
  {
    CacheIsDerived(first, steps, s);
    PullLands(s, write, clock);
    AppliedAgrees(s.local, s.remote.value);
    if StartupDecision(s).conflict.None? {
      SameNormalDerived(OrEmpty(s.cache), s.local, s.settled, s.sent);
    } else {
      SummaryNames(s.cache, Some(s.local), s.remote);
    }
  }

  /** One startup, its push included, with nobody else about. */
  function SyncRound(s: State, clock: Clock): State {
    var started := StartupSpec(RestartSpec(s), ReadOk, Landed, clock);
    if started.push.Some? && started.push.value.written then FinishPushSpec(started, ReadOk) else started
  }

  lemma {:induction false} MergeTwiceInto(b: Json, p: Json)
    ensures DeepMerge(b, DeepMerge(b, p)) == DeepMerge(b, p)
  {
    if b.Obj? && p.Obj? {
      forall k | k in b.fields
        ensures k in p.fields ==>
                  DeepMerge(b.fields[k], DeepMerge(b.fields[k], p.fields[k])) == DeepMerge(b.fields[k], p.fields[k])
        ensures DeepMerge(b.fields[k], b.fields[k]) == b.fields[k]
      {
        if k in p.fields {
          MergeTwiceInto(b.fields[k], p.fields[k]);
        }
        DeepMergeSelf(b.fields[k]);
      }
      assert DeepMerge(b, DeepMerge(b, p)).fields == DeepMerge(b, p).fields;
    }
  }

  /** A startup that pushes is a push with the cache brought up to date first. */
  lemma StartupIsPush(s: State, clock: Clock)
    requires StartupDecision(s).action == Push && s.applying.None?
    ensures Truthy(s.remote) && Usable(s.remote)
    ensures StartupSpec(s, ReadOk, Landed, clock) == BeginPushSpec(s.(cache := s.remote), Landed, clock)
  {
  }

  /** What an undisturbed startup push leaves behind. */
  lemma PushRound(s: State, clock: Clock)
    requires s.push.None? && s.echo.None? && s.applying.None?
    requires s.local.Obj? && OrEmpty(s.remote).Obj? && Pushable(s.local)
    requires StartupDecision(s).action == Push
    ensures var known, payload := Normalize(OrEmpty(s.remote)), Normalize(s.local);
            var after := SyncRound(s, clock);
            && after.local == s.local && after.push.None?
            && Usable(s.remote) && Usable(after.remote) && after.remote.value.Obj?
            && Normalize(after.remote.value) == DeepMerge(known, Pruned(payload))
            && after.cache == if EmptiesCovered(known, payload) then after.remote else s.remote
  {
    var r := s.(cache := s.remote);
    assert RestartSpec(s) == s;
    StartupIsPush(s, clock);
    UndisturbedPush(r, clock);
    PushedDocument(r, clock);
    var written := BeginPushSpec(r, Landed, clock);
    assert SyncRound(s, clock) == FinishPushSpec(written, ReadOk);
    assert "processes" in written.remote.value.fields;
  }

  lemma NextDecision(cache: Option<Json>, local: Json, remote: Option<Json>)
    requires Usable(remote) && cache.Some?
    ensures DecideStartupSync(cache, Some(local), remote).action in {InSync, Push, Pull}
    ensures DecideStartupSync(cache, Some(local), remote).action == Pull
       <==> Normalize(local) != Normalize(remote.value) && Normalize(remote.value) != Normalize(cache.value)
  {
  }

  /** After an undisturbed startup push, the next startup pulls exactly when the push pruned an empty object
      the cloud did not have and changed something else besides. */
  lemma StartupAfterPush(s: State, clock: Clock)
    requires s.push.None? && s.echo.None? && s.applying.None?
    requires s.local.Obj? && OrEmpty(s.remote).Obj? && Pushable(s.local)
    requires StartupDecision(s).action == Push
    ensures var known, payload := Normalize(OrEmpty(s.remote)), Normalize(s.local);
            var next := StartupDecision(RestartSpec(SyncRound(s, clock))).action;
            && next in {InSync, Push, Pull}
            && (next == Pull <==> !EmptiesCovered(known, payload) && DeepMerge(known, Pruned(payload)) != known)
  {
    var known, payload := Normalize(OrEmpty(s.remote)), Normalize(s.local);
    PushRound(s, clock);
    var after := SyncRound(s, clock);
    NextDecision(after.cache, after.local, after.remote);
    assert StartupDecision(RestartSpec(after)) == DecideStartupSync(after.cache, Some(after.local), after.remote);
    PruningHarmless(known, payload);
    MergeTwiceInto(known, Pruned(payload));
  }

  /** At rest: the cache is the cloud document, and pushing local again would not change it. */
  predicate AtRest(s: State) {
    && s.local.Obj? && Pushable(s.local) && Compact(Normalize(s.local))
    && Usable(s.remote) && s.remote.value.Obj? && s.cache == s.remote
    && DeepMerge(s.remote.value, Normalize(s.local)) == s.remote.value
  }

  lemma {:induction false} CompactIsCovered(b: Json, p: Json)
    requires p.Obj? && Compact(p) && b.Obj?
    ensures EmptiesCovered(b, p) && Pruned(p) == p
  {
    PrunedCompact(p);
    PruningHarmless(b, p);
  }

  /** An undisturbed startup push of a config without empty objects comes to rest. */
  lemma {:induction false} PushComesToRest(s: State, clock: Clock)
    requires s.local.Obj? && OrEmpty(s.remote).Obj? && Pushable(s.local) && Compact(Normalize(s.local))
    requires StartupDecision(RestartSpec(s)).action == Push
    ensures AtRest(SyncRound(s, clock))
    ensures SyncRound(s, clock).remote == Some(DeepMerge(s.remote.value, Normalize(s.local)))
    ensures SyncRound(s, clock).local == s.local
  {
    var r := RestartSpec(s);
    var payload := Normalize(s.local);
    PushRound(r, clock);
    PushedDocument(r.(cache := s.remote), clock);
    CompactIsCovered(Normalize(OrEmpty(s.remote)), payload);
    DeepMergeIdempotent(s.remote.value, payload);
    assert SyncRound(s, clock) == SyncRound(r, clock);
  }

  /** From rest, every further startup is in sync, or pushes and leaves the cloud document as it was. */
  lemma RestIsKept(s: State, clock: Clock)
    requires AtRest(s)
    ensures StartupDecision(RestartSpec(s)).action in {InSync, Push}
    ensures SyncRound(s, clock).remote == s.remote && SyncRound(s, clock).local == s.local
    ensures AtRest(SyncRound(s, clock))
  {
    if StartupDecision(RestartSpec(s)).action == Push {
      PushComesToRest(s, clock);
    }
  }

  function Rounds(s: State, clocks: seq<Clock>): State {
    if clocks == [] then s else SyncRound(Rounds(s, clocks[..|clocks| - 1]), clocks[|clocks| - 1])
  }

  lemma {:induction false} RestForever(s: State, clocks: seq<Clock>)
    requires AtRest(s)
    ensures AtRest(Rounds(s, clocks))
    ensures Rounds(s, clocks).remote == s.remote && Rounds(s, clocks).local == s.local
  {
    if clocks != [] {
      RestForever(s, clocks[..|clocks| - 1]);
      RestIsKept(Rounds(s, clocks[..|clocks| - 1]), clocks[|clocks| - 1]);
    }
  }

  // ---------- where the promises end ----------

  /** The cache is saved before the callback runs. A crash in between leaves the document cached but not
      applied, and the next startup takes the older config.json for the newer side: it pushes, exactly when
      the edit changed anything, and every field config.json still holds goes back over the edit. */
  lemma CrashBeforeCallback(s: State, doc: Json, clock: Clock)
    requires s.local.Obj? && doc.Obj? && Usable(Some(doc)) && Pushable(s.local)
    requires s.applying.None? && s.echo != Some(doc) && !ConfigsEqual(Some(doc), s.cache)
    ensures var torn := Next(Next(Next(s, DashboardWrite(Some(doc))), Deliver(doc)), Restart);
            && (StartupDecision(torn).action == Push <==> !ConfigsEqual(Some(s.local), Some(doc)))
            && (StartupDecision(torn).action == Push ==>
                  Normalize(OrEmpty(StartupSpec(torn, ReadOk, Landed, clock).remote))
                  == DeepMerge(Normalize(doc), Pruned(Normalize(s.local))))
  {
    var torn := Next(Next(Next(s, DashboardWrite(Some(doc))), Deliver(doc)), Restart);
    assert torn == RestartSpec(s.(remote := Some(doc), cache := Some(doc)));
    if StartupDecision(torn).action == Push {
      StartupIsPush(torn, clock);
      PushedDocument(torn, clock);
      assert torn.(cache := torn.remote) == torn;
    }
  }

  /** The one-shot guard armed by a startup pull can outlive the document it was armed on. The dashboard
      moves to another document and back: the way back is taken for an echo, and config.json keeps the other
      document until something else changes or the agent restarts, which then pulls. */
  lemma StaleEchoDropsRevert(s: State, a: Json, b: Json, clock: Clock)
    requires a.Obj? && b.Obj? && Usable(Some(a)) && Usable(Some(b)) && !ConfigsEqual(Some(a), Some(b))
    requires s.applying.None? && s.remote == Some(a) && StartupDecision(s).action == Pull
    ensures var pulled := StartupSpec(s, ReadOk, Landed, clock);
            var moved := DeliverSpec(pulled.(remote := Some(b)), b);
            var reverted := DeliverSpec(moved.(remote := Some(a)), a);
            && ConfigsEqual(Some(pulled.local), Some(a))
            && ConfigsEqual(Some(moved.local), Some(b))
            && ConfigsEqual(Some(reverted.local), Some(b)) && reverted.remote == Some(a)
            && StartupDecision(RestartSpec(reverted)) == Decision(Pull, None)
  {
    var pulled := StartupSpec(s, ReadOk, Landed, clock);
    AppliedAgrees(s.local, a);
    AppliedAgrees(pulled.local, b);
  }
}
