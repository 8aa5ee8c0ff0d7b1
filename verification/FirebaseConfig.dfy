/** The config half of the Firebase client, each method proved against its transitions in `ConfigReplication`.
    `push_local_config` is three steps, because the dashboard and the listener may act before its write and before
    its re-read; a delivery is two, because the agent may stop between the cache and the update callback. */
module FirebaseConfig {
  import opened Json
  import opened FieldPaths
  import opened MergeWrite
  import opened FirestoreServer
  import opened FirestoreClient
  import opened PushPrediction
  import opened PayloadWrite
  import opened ConfigSync
  import opened ConfigReplication

  class FirebaseClient {
    const db: FirestoreRestClient
    var cachedConfig: Option<Json>
    var lastUploadedConfigHash: Option<Json>
    /** config.json. */
    var localConfig: Json
    /** The locals of a push whose guard is armed. */
    var push: Option<PushInFlight>
    /** The document of a delivery between its cache and its callback. */
    var applying: Option<Json>
    ghost var settled: set<Json>
    ghost var sent: set<Json>

    ghost function View(): State
      reads this, db
    {
      State(db.stored, cachedConfig, lastUploadedConfigHash, localConfig, push, applying, settled, sent)
    }

    ghost predicate Valid()
      reads this, db
    {
      localConfig.Obj? && OrEmpty(db.stored).Obj? && (cachedConfig.Some? ==> cachedConfig.value.Obj?)
    }

    constructor (db: FirestoreRestClient, localConfig: Json)
      requires localConfig.Obj? && OrEmpty(db.stored).Obj?
      ensures Valid() && this.db == db && Initial(View())
      ensures View() == State(db.stored, None, None, localConfig, None, None, {}, {})
    {
      this.db := db;
      this.localConfig := localConfig;
      cachedConfig, lastUploadedConfigHash, push, applying := None, None, None, None;
      settled, sent := {}, {};
    }

    /** `config_ref.set(payload, merge=True)`, which may raise, having landed or not. */
    method WriteConfig(payload: Json, write: WriteOutcome, clock: Clock) returns (raised: bool)
      requires payload.Obj? && Valid()
      modifies db, `sent
      ensures Valid() && raised == write.Raised?
      ensures View()
              == old(View()).(remote := WriteMerged(old(db.stored), payload, write, clock),
                 sent := old(sent) + {payload})
    {
      sent := sent + {payload};
      if write != Raised(false) {
        var _ := db.SetDocument(payload, true, clock.requestTime, clock.clientTime);
      }
      raised := write.Raised?;
    }

    /** The config and whether it was read just now, or came out of the cache. */
    method FetchConfig(read: ReadOutcome) returns (f: Fetched)
      requires Valid()
      modifies `cachedConfig
      ensures Valid()
      ensures f == GetConfig(old(View()), read)
      ensures View() == old(View()).(cache := CacheAfterGet(old(View()), read))
    {
      if read == ReadOk && db.stored.Some? && db.stored.value != EMPTY {
        cachedConfig := db.stored;
        return Fetched(cachedConfig, true);
      }
      if cachedConfig.Some? && cachedConfig.value != EMPTY {
        return Fetched(cachedConfig, false);
      }
      return Fetched(None, false);
    }

    /** `push_local_config` up to its write: the snapshot of the cache, and the guard on what is to be sent. */
    method ArmPush()
      requires Valid() && push.None?
      modifies `lastUploadedConfigHash, `push
      ensures Valid() && View() == ArmPushSpec(old(View()))
    {
      var payload := Normalize(localConfig);
      if payload == EMPTY {
        return;
      }
      push := Some(PushInFlight(cachedConfig, payload, false));
      lastUploadedConfigHash := Some(payload);
    }

    /** Its write; one that raises disarms the guard. */
    method WritePush(write: WriteOutcome, clock: Clock)
      requires Valid() && push.Some? && push.value.payload.Obj?
      modifies this, db
      ensures Valid() && View() == WritePushSpec(old(View()), write, clock)
    {
      var raised := WriteConfig(push.value.payload, write, clock);
      if raised {
        lastUploadedConfigHash := None;
        push := None;
        return;
      }
      push := Some(push.value.(written := true));
    }

    /** Both, with nothing in between; false when there was nothing to send or it failed. */
    method BeginPush(write: WriteOutcome, clock: Clock) returns (landed: bool)
      requires Valid() && push.None?
      modifies this, db
      ensures Valid() && View() == BeginPushSpec(old(View()), write, clock)
      ensures landed == push.Some?
    {
      ArmPush();
      if push.Some? {
        WritePush(write, clock);
      }
      landed := push.Some?;
    }

    /** The re-read, the comparison and, when the document holds more than was sent, the roll back. */
    method FinishPush(read: ReadOutcome)
      requires Valid() && push.Some? && push.value.written && OrEmpty(push.value.baseBefore).Obj?
      modifies this
      ensures Valid() && View() == FinishPushSpec(old(View()), read)
    {
      var baseBefore, payload := push.value.baseBefore, push.value.payload;
      var fetched := FetchConfig(read);
      var postWrite := fetched.config;
      lastUploadedConfigHash := if postWrite.Some? then postWrite else Some(payload);
      if postWrite.Some? {
        var expected := DeepMerge(Normalize(OrEmpty(baseBefore)), payload);
        if !ConfigsEqual(postWrite, Some(expected)) {
          lastUploadedConfigHash := None;
          RestoreCachedConfig(baseBefore);
        }
      }
      push := None;
    }

    method RestoreCachedConfig(snapshot: Option<Json>)
      requires Valid() && OrEmpty(snapshot).Obj?
      modifies `cachedConfig
      ensures Valid() && View() == old(View()).(cache := snapshot)
    {
      cachedConfig := snapshot;
    }

    /** The listener's callback, for a document that exists. */
    method OnConfigChanged(configData: Json)
      requires Valid() && configData.Obj? && applying.None?
      modifies this
      ensures Valid() && View() == DeliverSpec(old(View()), configData)
    {
      TakeConfig(configData);
      if applying.Some? {
        ConfigUpdateCallback();
      }
    }

    /** Its two echo guards, and the cache. */
    method TakeConfig(configData: Json)
      requires Valid() && configData.Obj?
      modifies `lastUploadedConfigHash, `cachedConfig, `applying
      ensures Valid() && View() == TakeSpec(old(View()), configData)
    {
      if lastUploadedConfigHash == Some(configData) {
        lastUploadedConfigHash := None;
        return;
      }
      if ConfigsEqual(Some(configData), cachedConfig) {
        return;
      }
      cachedConfig := Some(configData);
      applying := Some(configData);
    }

    /** The registered callback: replaces all but the local-only keys of config.json. */
    method ConfigUpdateCallback()
      requires Valid() && applying.Some?
      modifies `localConfig, `applying, `settled
      ensures Valid() && View() == ApplySpec(old(View()))
    {
      localConfig := Applied(localConfig, applying.value);
      settled := settled + {applying.value};
      applying := None;
    }

    method UpdateDisplayAutorestoreState(statePatch: Json, write: WriteOutcome, clock: Clock)
      requires Valid() && statePatch.Obj?
      modifies this, db
      ensures Valid() && View() == AutoRestoreSpec(old(View()), statePatch, write, clock)
    {
      if statePatch == EMPTY {
        return;
      }
      var patch := BreakerPatch(statePatch);
      var raised := WriteConfig(patch, write, clock);
      if raised {
        return;
      }
      MergeIntoCachedConfig(patch);
      MirrorConfigPatchToDisk(patch);
    }

    method MergeIntoCachedConfig(patch: Json)
      requires Valid() && patch.Obj?
      modifies `cachedConfig
      ensures Valid() && View() == old(View()).(cache := Some(DeepMerge(OrEmpty(old(cachedConfig)), patch)))
    {
      cachedConfig := Some(DeepMerge(OrEmpty(cachedConfig), patch));
    }

    method MirrorConfigPatchToDisk(patch: Json)
      requires Valid() && patch.Obj?
      modifies `localConfig
      ensures Valid()
      ensures View()
              == old(View()).(local := if old(localConfig) == EMPTY then EMPTY else DeepMerge(old(localConfig), patch))
    {
      if localConfig == EMPTY {
        return;
      }
      var merged := DeepMerge(localConfig, patch);
      if merged == localConfig {
        return;
      }
      localConfig := merged;
    }

    method UploadConfig(config: Json, write: WriteOutcome, clock: Clock)
      requires Valid() && config.Obj?
      modifies this, db
      ensures Valid()
      ensures var before := old(View()).(remote := WriteMerged(old(db.stored), config, write, clock),
                                          sent := old(sent) + {config});
              View() == if write == Landed then before.(echo := Some(config), cache := Some(config))
                  else before.(echo := None)
    {
      lastUploadedConfigHash := Some(config);
      var raised := WriteConfig(config, write, clock);
      if raised {
        lastUploadedConfigHash := None;
        return;
      }
      cachedConfig := Some(config);
    }

    /** `sync_config_on_startup`; a push it decides on is finished by `FinishPush`. */
    method SyncConfigOnStartup(read: ReadOutcome, write: WriteOutcome, clock: Clock)
      requires Valid() && push.None? && lastUploadedConfigHash.None? && applying.None?
      modifies this, db
      ensures Valid() && View() == StartupSpec(old(View()), read, write, clock)
    {
      if read == ReadFailed {
        return;
      }
      var base := cachedConfig;
      var fetched := FetchConfig(read);
      if base.Some? && !fetched.isFresh && fetched.config.Some? {
        return;
      }
      var remote := if fetched.isFresh then fetched.config else None;
      var decision := DecideStartupSync(base, Some(localConfig), remote);
      match decision.action
      case Seed =>
        settled := settled + if remote.Some? then {remote.value} else {};
        if localConfig != EMPTY {
          UploadConfig(Normalize(localConfig), write, clock);
        }
      case InSync =>
        lastUploadedConfigHash := remote;
        settled := settled + {OrEmpty(remote)};
      case Push =>
        var _ := BeginPush(write, clock);
      case Pull =>
        lastUploadedConfigHash := remote;
        applying := Some(OrEmpty(remote));
        ConfigUpdateCallback();
    }
  }
}
