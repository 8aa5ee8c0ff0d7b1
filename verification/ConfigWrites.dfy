/** What the agent's own writes leave in the cloud, in the cache and in config.json: a first seed, a startup that
    does nothing, the circuit breaker's patch, and a push that fails. */
module ConfigWrites {
  import opened Json
  import opened FieldPaths
  import opened FirestoreCodec
  import opened MergeWrite
  import opened FirestoreServer
  import opened PayloadWrite
  import opened PushPrediction
  import opened ConfigSync
  import opened ConfigReplication
  import opened ConfigGuarantees

  // ---------- startup ----------

  /** The read failed, or found no document where the cache has one: which side is newer cannot be told. */
  predicate Undecidable(s: State, read: ReadOutcome) {
    read == ReadFailed || (!Truthy(s.remote) && Truthy(s.cache))
  }

  /** Then startup leaves cloud, cache and config.json as they were, and sends nothing. */
  lemma UndecidedChangesNothing(s: State, read: ReadOutcome, write: WriteOutcome, clock: Clock)
    requires Undecidable(s, read)
    ensures var t := StartupSpec(s, read, write, clock);
            && t.remote == s.remote && t.cache == s.cache && t.local == s.local
            && t.echo == s.echo && t.push == s.push && t.sent == s.sent && t.settled == s.settled
  {
  }

  /** A startup that finds both sides in agreement writes nothing, and knows the document it has read. */
  lemma InSyncChangesNothing(s: State, write: WriteOutcome, clock: Clock)
    requires s.applying.None? && StartupDecision(s).action == InSync
    ensures var t := StartupSpec(s, ReadOk, write, clock);
            && t.remote == s.remote && t.local == s.local && t.sent == s.sent && t.push == s.push
            && t.cache == s.remote && t.echo == s.remote
            && (s.remote.Some? && s.remote.value.Obj? ==> DeliverSpec(t, s.remote.value).local == s.local)
  {
    assert Truthy(s.remote);
  }

  /** What a seed writes, as `PushedDocument` says of a push. */
  lemma SeededDocument(s: State, clock: Clock)
    requires s.local.Obj? && OrEmpty(s.remote).Obj? && Pushable(s.local)
    ensures var payload := Normalize(s.local);
            WriteMerged(s.remote, payload, Landed, clock) == Some(DeepMerge(OrEmpty(s.remote), Pruned(payload)))
  {
    PushedDocument(s.(push := None), clock);
  }

  /** A startup that seeds puts the local config into the cloud document, over whatever unusable document was there,
      and takes what it sent for the cached document and its echo. A write that raises leaves the cache as read
      and nothing to recognise. */
  lemma SeedReachesCloud(s: State, write: WriteOutcome, clock: Clock)
    requires s.local.Obj? && OrEmpty(s.remote).Obj? && Pushable(s.local) && s.applying.None?
    requires StartupDecision(s).action == Seed && !Undecidable(s, ReadOk)
    ensures var t, payload := StartupSpec(s, ReadOk, write, clock), Normalize(s.local);
            && t.local == s.local && t.push == s.push
            && t.remote == (if write == Raised(false) then s.remote
                            else Some(DeepMerge(OrEmpty(s.remote), Pruned(payload))))
            && (write == Landed ==> t.cache == Some(payload) && t.echo == Some(payload))
            && (write != Landed ==> t.echo == None && t.cache == if Truthy(s.remote) then s.remote else s.cache)
  {
    SeededDocument(s, clock);
    NormalizeOfEmpty();
    assert s.local != EMPTY;
  }

  lemma KeepsProcesses(local: Json)
    requires local.Obj? && "processes" in local.fields
    ensures "processes" in Normalize(local).fields
  {
    assert "processes" in StripLocalOnly(local).fields;
  }

  /** After a seed that landed, the next startup is in sync, or pulls, and it pulls exactly if the document that was
      there before adds something of its own. */
  lemma StartupAfterSeed(s: State, clock: Clock)
    requires s.local.Obj? && OrEmpty(s.remote).Obj? && Pushable(s.local) && s.applying.None?
    requires Compact(Normalize(s.local)) && "processes" in s.local.fields
    requires StartupDecision(s).action == Seed && !Undecidable(s, ReadOk)
    ensures var seeded, payload := StartupSpec(s, ReadOk, Landed, clock), Normalize(s.local);
            && Usable(seeded.remote)
            && StartupDecision(RestartSpec(seeded))
               == if DeepMerge(Normalize(OrEmpty(s.remote)), payload) == payload then Decision(InSync, None)
                  else Decision(Pull, None)
  {
    var payload := Normalize(s.local);
    var seeded := StartupSpec(s, ReadOk, Landed, clock);
    SeedReachesCloud(s, Landed, clock);
    CompactIsCovered(Normalize(OrEmpty(s.remote)), payload);
    NormalizeIdempotent(s.local);
    NormalizeMerge(OrEmpty(s.remote), payload);
    KeepsProcesses(s.local);
    assert seeded.remote == Some(DeepMerge(OrEmpty(s.remote), payload));
  }

  /** So a machine new to the cloud is in sync from its second startup. */
  lemma FreshInstallSeeds(s: State, clock: Clock)
    requires Initial(s) && !Truthy(s.remote) && Pushable(s.local)
    requires Compact(Normalize(s.local)) && "processes" in s.local.fields
    ensures var seeded := StartupSpec(s, ReadOk, Landed, clock);
            && seeded.remote == Some(Normalize(s.local))
            && StartupDecision(RestartSpec(seeded)) == Decision(InSync, None)
  {
    var payload := Normalize(s.local);
    assert OrEmpty(s.remote) == EMPTY;
    SeedReachesCloud(s, Landed, clock);
    StartupAfterSeed(s, clock);
    CompactIsCovered(EMPTY, payload);
    DeepMergeEmpty(payload);
    NormalizeOfEmpty();
  }

  /** What a read gives: a document that holds something is new and replaces the cache; otherwise what is cached, if
      that holds something, and the cache stays. */
  lemma FetchedExactly(s: State, read: ReadOutcome)
    ensures var f := GetConfig(s, read);
            && (f.isFresh <==> read == ReadOk && s.remote !in {None, Some(EMPTY)})
            && f.config == (if f.isFresh then s.remote else if s.cache in {None, Some(EMPTY)} then None else s.cache)
            && CacheAfterGet(s, read) == if f.isFresh then s.remote else s.cache
  {
  }

  // ---------- what is sent, and what is not ----------

  /** A config with nothing to sync arms nothing; any other is armed with the cache as it is. An empty patch of the
      circuit breaker goes nowhere. */
  lemma NothingToSend(s: State, write: WriteOutcome, clock: Clock)
    ensures var t, payload := ArmPushSpec(s), Normalize(s.local);
            && (payload == EMPTY ==> t == s && BeginPushSpec(s, write, clock) == s)
            && (payload != EMPTY ==>
                  t == s.(echo := Some(payload), push := Some(PushInFlight(s.cache, payload, false)))
                  && BeginPushSpec(s, write, clock) == WritePushSpec(t, write, clock))
    ensures AutoRestoreSpec(s, EMPTY, write, clock) == s
  {
  }

  // ---------- echoes ----------

  /** The guard on what was sent is spent on the first delivery that matches it: that one changes nothing else, and
      the same document delivered again is judged by the cache. */
  lemma EchoIsSpent(s: State, doc: Json)
    requires s.echo == Some(doc) && s.applying.None?
    ensures var once := TakeSpec(s, doc);
            && once.echo == None && once.cache == s.cache && once.local == s.local && once.applying == None
            && (TakeSpec(once, doc).applying == Some(doc) <==> !ConfigsEqual(Some(doc), s.cache))
  {
  }

  /** How a push ends: with nothing to read, only the guard moves to what was sent; with the document it expected,
      cache and guard are that document; with any other, both go back to before the push. */
  lemma PushEndsExactly(s: State, read: ReadOutcome)
    requires s.push.Some? && s.push.value.written
    ensures var t, p := FinishPushSpec(s, read), s.push.value;
            var fetched := read == ReadOk && Truthy(s.remote);
            var found := if fetched then s.remote else s.cache;
            var sent := DeepMerge(Normalize(OrEmpty(p.baseBefore)), p.payload);
            var expected := Normalize(OrEmpty(found)) == Normalize(sent);
            && t.push == None && t.remote == s.remote && t.local == s.local && t.applying == s.applying
            && (!Truthy(found) ==> t.echo == Some(p.payload) && t.cache == s.cache)
            && (Truthy(found) && expected ==> t.echo == found && t.cache == found)
            && (Truthy(found) && !expected ==> t.echo == None && t.cache == p.baseBefore)
  {
  }

  // ---------- a push that fails ----------

  /** A push whose write raises is given up: nothing is left to recognise, cache and config.json are as they were,
      and the cloud holds the payload only if the write landed all the same. */
  lemma FailedPushGivesUp(s: State, landed: bool, clock: Clock)
    requires s.push.Some? && !s.push.value.written
    ensures var t := WritePushSpec(s, Raised(landed), clock);
            && t.echo.None? && t.push.None? && t.cache == s.cache && t.local == s.local
            && (!landed ==> t.remote == s.remote)
            && (landed ==> t.remote == WritePushSpec(s, Landed, clock).remote)
  {
  }

  // ---------- the circuit breaker ----------

  const BREAKER_AT: Path := ["displays", "autoRestore", "circuitBreaker"]

  /** Merging under one key of an object. */
  lemma MergeUnder(d: Json, k: string, p: Json)
    requires d.Obj?
    ensures var m := DeepMerge(d, Obj(map[k := p]));
            && m.Obj? && m.fields.Keys == d.fields.Keys + {k}
            && m.fields[k] == (if k in d.fields then DeepMerge(d.fields[k], p) else p)
            && forall j :: j in d.fields && j != k ==> m.fields[j] == d.fields[j]
  {
  }

  /** `p` at the end of a path of objects that hold nothing else. */
  function Nested(path: Path, p: Json): Json {
    if path == [] then p else Obj(map[path[0] := Nested(path[1..], p)])
  }

  /** Merging a nested patch changes the value at the end of the path and nothing beside it. */
  lemma {:induction false} MergeNested(d: Json, path: Path, p: Json, q: Path)
    requires d.Obj? && path != [] && PathClear(d, path)
    ensures Lookup(DeepMerge(d, Nested(path, p)), path)
         == Some(match Lookup(d, path) case None => p case Some(was) => DeepMerge(was, p))
    ensures !Comparable(path, q) ==> Lookup(DeepMerge(d, Nested(path, p)), q) == Lookup(d, q)
    decreases path
  {
    hide DeepMerge;
    var k, rest := path[0], path[1..];
    var below := if k in d.fields then d.fields[k] else EMPTY;
    MergeUnder(d, k, Nested(rest, p));
    if rest != [] {
      MergeNested(below, rest, p, if q == [] then [] else q[1..]);
      DeepMergeEmpty(Nested(rest, p));
    }
    if q != [] && q[0] == k && !Comparable(path, q) {
      assert !Comparable(rest, q[1..]) by {
        assert path == [k] + rest && q == [k] + q[1..];
      }
    }
  }

  /** The patch reaches the breaker's state and nothing beside it. */
  lemma BreakerAlone(d: Json, statePatch: Json, q: Path)
    requires d.Obj? && PathClear(d, BREAKER_AT)
    ensures var m := DeepMerge(d, BreakerPatch(statePatch));
            && Lookup(m, BREAKER_AT)
               == Some(match Lookup(d, BREAKER_AT) case None => statePatch case Some(was) => DeepMerge(was, statePatch))
            && (!Comparable(BREAKER_AT, q) ==> Lookup(m, q) == Lookup(d, q))
  {
    assert BREAKER_AT[1..] == ["autoRestore", "circuitBreaker"] && BREAKER_AT[1..][1..] == ["circuitBreaker"];
    assert Nested(["circuitBreaker"], statePatch) == Obj(map["circuitBreaker" := statePatch]);
    assert Nested(BREAKER_AT[1..], statePatch) == Obj(map["autoRestore" := Nested(["circuitBreaker"], statePatch)]);
    assert Nested(BREAKER_AT, statePatch) == Obj(map["displays" := Nested(BREAKER_AT[1..], statePatch)]);
    MergeNested(d, BREAKER_AT, statePatch, q);
  }

  lemma PatchedRemote(remote: Option<Json>, patch: Json, clock: Clock)
    requires Normal(patch) && Compact(patch) && Pushable(patch) && OrEmpty(remote).Obj?
    ensures WriteMerged(remote, patch, Landed, clock) == Some(DeepMerge(OrEmpty(remote), patch))
  {
    SeededDocument(State(remote, None, None, patch, None, None, {}, {}), clock);
    CompactIsCovered(EMPTY, patch);
  }

  lemma AgreeAfter(a: Json, b: Json, patch: Json)
    requires a.Obj? && b.Obj? && Normal(patch) && Normalize(a) == Normalize(b)
    ensures Normalize(DeepMerge(a, patch)) == Normalize(DeepMerge(b, patch))
  {
    NormalizeMerge(a, patch);
    NormalizeMerge(b, patch);
  }

  /** A patch that lands is merged into cloud, cache and config.json alike. */
  lemma BreakerReachesAll(s: State, statePatch: Json, clock: Clock)
    requires statePatch.Obj? && Pushable(BreakerPatch(statePatch)) && Compact(BreakerPatch(statePatch))
    requires OrEmpty(s.remote).Obj? && statePatch != EMPTY
    ensures var t, patch := AutoRestoreSpec(s, statePatch, Landed, clock), BreakerPatch(statePatch);
            && t.remote == Some(DeepMerge(OrEmpty(s.remote), patch))
            && t.cache == Some(DeepMerge(OrEmpty(s.cache), patch))
            && t.local == (if s.local == EMPTY then EMPTY else DeepMerge(s.local, patch))
            && t.echo == s.echo && t.push == s.push && t.applying == s.applying
  {
    BreakerPatchNormal(statePatch);
    PatchedRemote(s.remote, BreakerPatch(statePatch), clock);
  }

  /** So what agreed before agrees after, on every synced field, and the document it produced is not taken for a
      foreign change when it is delivered. */
  lemma BreakerMovesTogether(s: State, statePatch: Json, clock: Clock)
    requires statePatch.Obj? && Pushable(BreakerPatch(statePatch)) && Compact(BreakerPatch(statePatch))
    requires s.local.Obj? && OrEmpty(s.remote).Obj? && OrEmpty(s.cache).Obj? && statePatch != EMPTY
    ensures var t := AutoRestoreSpec(s, statePatch, Landed, clock);
            && (ConfigsEqual(s.remote, s.cache) ==>
                  ConfigsEqual(t.remote, t.cache) && TakeSpec(t, OrEmpty(t.remote)).applying == s.applying)
            && (ConfigsEqual(Some(s.local), s.cache) && s.local != EMPTY ==> ConfigsEqual(Some(t.local), t.cache))
  {
    var patch := BreakerPatch(statePatch);
    BreakerPatchNormal(statePatch);
    BreakerReachesAll(s, statePatch, clock);
    if ConfigsEqual(s.remote, s.cache) {
      AgreeAfter(OrEmpty(s.remote), OrEmpty(s.cache), patch);
    }
    if ConfigsEqual(Some(s.local), s.cache) {
      AgreeAfter(s.local, OrEmpty(s.cache), patch);
    }
  }
}
