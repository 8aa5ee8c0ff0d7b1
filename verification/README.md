# Owlette agent: a verified model of its state-keeping code

The Owlette agent runs unattended on kiosk machines and keeps several small protocols going with the cloud, with
the display hardware and with itself. Each carries its safety argument in comments. This project models that code
in Dafny and proves the arguments, or finds exactly when they hold.

* **Config replication.** `Json`, `FieldPaths`, `FirestoreCodec`, `FirestoreServer`: JSON values, paths into them,
  the value codec, and a server that applies a field mask and then the timestamp transforms (a masked path present
  in the body is set, one absent from it is deleted, everything else stays; no mask replaces the document).
  `MergeWrite`, `PayloadWrite`, `UpdateWrite`, `PushPrediction`: what the requests built by the client leave in the
  document. `FirestoreClient` is the client itself. `ConfigSync` is the normalisation algebra,
  `ConfigReplication` the protocol as a state machine with a dashboard that writes whenever it likes,
  `ConfigGuarantees` what it promises, `ConfigWrites` what each of the agent's writes leaves where, `ConfigFreshness`
  how recent the cached document is, `FirebaseConfig` the methods that take its steps. `DocumentListener` is the poll
  loop that delivers documents.
* **Command delivery.** `CommandDelivery` is the crash-restart protocol over the pending and completed documents,
  with any number of polls under way and each callback one step. `CommandCallbacks` takes the callback apart, look
  by look; `CommandRefinement` shows that callbacks that do not overlap come to those steps, `CommandOverlaps` the
  converse. The premises are named, and for each of them `CommandLimits` or `CommandOverlaps` has a run that keeps
  all the others and executes a command twice. `CommandEntries` is about what is stored for a command, a cancelled
  one above all. `CommandClient` has the methods.
* **Display apply-or-revert.** `DisplayConfig` (the path and mode arrays and their saved form), `LayoutValidation`,
  `LayoutRewrite` (the in-place rewrite), `LayoutGuarantees` (what it achieves), `DisplayRevert` (the sentinel
  protocol), `DisplayManager` (the methods; the object's history is a run of that protocol).
* **Reconnection and tokens.** `ConnectionMachine` has every interleaving of the connection manager's threads, the
  writes of its counters included, `ConnectionCounters` what those keep, `ConnectionRuns` what holds in every run,
  `ConnectionBreaker` what the writes of the counters come to undisturbed and disturbed, `ConnectionAlone` what each
  call comes to undisturbed, `ConnectionManager` its methods, `Watchdog` the self-restart decision over those runs,
  `TokenLadder` the retry ladder over runs of token requests, `AuthManager` its methods.
* **Privileged requests.** `RequestNonce` (one-shot nonce), `RequestAudit` (rate limit read back from the audit),
  `PrivilegedRequests` (the drain).

Specifications are functions from state to state; the methods of the source's objects are Dafny methods proved
equal to them, and the theorems are about every run of those functions. What lies outside (HTTP, clocks, file
operations, Windows calls, random numbers) is a parameter of a step: an outcome chosen by nobody. Clock readings
within a run do not go back.

## Where the code differs from what it says

Each of these is stated by the members named.

* A merge write whose payload has no leaf sends no mask and replaces the document (`MergedExactly`, `MergeThatWipes`).
* Empty objects are pruned before a push is sent but kept by its prediction: the push takes its own result for a
  foreign edit exactly when it pruned an object the cloud did not have, and the next startup may then pull
  (`UndisturbedPush`, `StartupAfterPush`).
* The echo guard armed by a startup pull can swallow a later revert to the same document (`StaleEchoDropsRevert`).
* A crash between saving the cache and applying a delivered document makes the next startup push the older local
  config over the edit (`CrashBeforeCallback`, `TornCache`).
* A conflict summary names nothing when all that differs is null on one side and missing on the other (`SummaryNames`).
* A push during which a dashboard edit is delivered can set the cache back behind that edit: it does unless what
  the push goes by, the document it finds or the snapshot it took, is a version of the one delivered last
  (`FinishExactly`, `OvertakenExactly`). If the dashboard then returns to the earlier document, the delivery is
  dropped, and the startup after a restart pushes the undone edit (`StaleRollback`).
* A reconnect starts a second command poller without waiting for the first, and the ids seen are shared without a
  lock. Two callbacks that overlap, two polls that deliver in the reverse order, a cleanup between a poll's read and
  its callback, a command without a timestamp, a lost running marker, an unread seed, and more than a thousand
  pending commands each let a command run twice (`OverlappingCallbacks`, `PollsOutOfOrder`, `CleanupDuringPoll`,
  `Unstamped`, `MarkerLost`, `SeedUnread`, `CapForgets`).
* A command that had reported progress when the agent died never gets a terminal status (`ProgressStranded`).
* A command cancelled twice can lose its cancellation: the second call finds nothing to kill and takes back the flag
  that holds off the handler's answer (`SecondCancelLoses`).
* A null rotation passes the layout check and raises in the rewrite (`ValidateDesiredLayout`, `ApplyDesiredToPaths`);
  a second monitor with the primary's hash leaves no primary (`PrimarySurvives`).
* An acknowledgement accepted while the watchdog waits lasts until a recovery takes effect, which one can exactly
  while the sentinel is on disk; accepted while the revert runs, it lasts exactly if no restore takes effect
  (`AcknowledgedInTime`, `AcknowledgedTooLate`, with the runs `AcknowledgedThenUndone` and `LateAcknowledgement`).
  An acknowledgement of the previous apply counts for the next one if it arrives between its flag and its id
  (`OldIdWindow`). An apply that writes its sentinel over an unresolved one strands the older layout
  (`UnguardedExactly`, `UnresolvedIsStranded`).
* The breaker can be left open with no failure counted, when a success is counted between another thread's
  threshold check and its write, and in no other way (`BreakerBelow`, `OvertakenBreaker`).
* The connection state documents a fatal state that no code enters (`NoWedge`).
* An agent without a cached access token never tries to refresh (`NeverTriedWithoutAccess`).
* If the old nonce file cannot be removed, the request that quoted it can be honoured again
  (`ReplayExactlyWhenNotRemoved`). The comment promises one restart or reboot per five minutes; the code keeps a
  window for each (`RestartThenReboot`), and none for a row that does not reach the file (`UnwrittenRow`).

## Model

| member | source | states |
|---|---|---|
| Json.DeepMergeIdempotent | agent/src/config_sync.py:139-149 | merging the same patch twice is merging it once |
| FirestoreCodec.IntRoundTrip | agent/src/firestore_rest_client.py:141-195 | printing and parsing an unbounded integer gives it back |
| FirestoreCodec.IntDigits | agent/src/firestore_rest_client.py:141-172 | the digits of an integer are '0' to '9', weighed by their places, with a sign in front exactly for a negative one |
| FirestoreCodec.EncodedAs | agent/src/firestore_rest_client.py:141-172 | which kind each value is encoded as, both ways, with its content: a timestamp exactly for the sentinel, a string of the same text exactly for every other string, and so on through objects key by key and lists item by item |
| FirestoreCodec.DecodeEncode | agent/src/firestore_rest_client.py:141-195 | decoding an encoded value never fails and gives the value with its timestamp sentinels read as the client's clock |
| FirestoreCodec.RoundTripExactly | agent/src/firestore_rest_client.py:141-195 | the round trip is the identity exactly for values that hold no sentinel; bool before int, nested lists and maps included |
| MergeWrite.ResolveLeaves | agent/src/firestore_rest_client.py:202-228 | the leaves of a payload after extraction and stamping, path by path |
| MergeWrite.LeavesIncomparable | agent/src/firestore_rest_client.py:237-246 | two leaves of one payload never lie one above the other |
| FirestoreServer.StampsOverDeletes | agent/src/firestore_rest_client.py:248-277 | the transforms restore every timestamp path the mask has just deleted |
| PayloadWrite.MaskIncomparable | agent/src/firestore_rest_client.py:377-389 | the mask of a merge write is duplicate-free and no path in it is a prefix of another |
| PayloadWrite.PayloadLeaves | agent/src/firestore_rest_client.py:202-246 | body leaves and timestamp paths list exactly the leaves of the resolved payload |
| PayloadWrite.StampedBody | agent/src/firestore_rest_client.py:202-235 | stamping the cleaned payload gives the resolved one |
| PayloadWrite.MaskedPayload | agent/src/firestore_rest_client.py:343-391 | mask and transforms applied to any document leave exactly the deep merge of the resolved payload |
| PayloadWrite.MaskEmptiness | agent/src/firestore_rest_client.py:377-389 | the mask is empty exactly when nothing is left of the payload |
| UpdateWrite.AllUpdates | agent/src/firestore_rest_client.py:413-488 | for prefix-free keys, the masked write leaves each update's outcome at its path, whole |
| UpdateWrite.UpdatedAt | agent/src/firestore_rest_client.py:413-488 | at an updated path stands the value written, or nothing for a deletion or an empty map |
| UpdateWrite.UpdatedAway | agent/src/firestore_rest_client.py:413-488 | every path outside the updated ones is as it was |
| UpdateWrite.UpdatedInAnyOrder | agent/src/firestore_rest_client.py:413-488 | the order of the keys does not matter |
| PushPrediction.PruningHarmless | agent/src/firestore_rest_client.py:215-228 | pruning empty objects changes the merge exactly when the base did not hold one of them |
| PushPrediction.MergedExactly | agent/src/firestore_rest_client.py:377-391 | a merge write is a deep merge exactly when the payload has a leaf or there is nothing to lose |
| PushPrediction.MergeThatWipes | agent/src/firestore_rest_client.py:377-391 | a merge write that deletes every field of a document |
| FirestoreClient.FlattenFieldPaths | agent/src/firestore_rest_client.py:237-246 | in any key order, lists every leaf path once and nothing else |
| FirestoreClient.ExtractServerTimestamps | agent/src/firestore_rest_client.py:202-228 | in any key order, returns the payload without sentinels and empty objects, and every sentinel's path once |
| FirestoreClient.FirestoreRestClient.SetDocument | agent/src/firestore_rest_client.py:343-397 | a merge leaves the deep merge (or the replacement of a leafless payload) and an incomparable mask; a plain set replaces |
| FirestoreClient.FirestoreRestClient.UpdateDocument | agent/src/firestore_rest_client.py:413-493 | the stored document becomes the updated one; with no updates it becomes empty |
| FirestoreClient.ExtractFromUpdates | agent/src/firestore_rest_client.py:413-460 | the body value and timestamp paths of every dotted update |
| FirestoreClient.BodyFields | agent/src/firestore_rest_client.py:413-460 | the cursor loop builds a body with leaves exactly at the given paths |
| ConfigSync.StripIdempotent | agent/src/config_sync.py:92-108 | stripping a path twice is stripping it once |
| ConfigSync.StripCommute | agent/src/config_sync.py:111-118 | the two server-owned strips commute, containers they empty included |
| ConfigSync.StripBlindToSet | agent/src/config_sync.py:92-118 | whatever is written at a stripped path is taken away with the containers made for it |
| ConfigSync.NormalizeIdempotent | agent/src/config_sync.py:121-127 | normalising again changes nothing |
| ConfigSync.NormalizeBlindToServer | agent/src/config_sync.py:111-127 | server-owned leaves take no part, nor containers that hold nothing else |
| ConfigSync.NormalMerge | agent/src/config_sync.py:121-149 | two normalised configs merge to a normalised one |
| ConfigSync.NormalizeMerge | agent/src/config_sync.py:121-149 | a normalised patch lands the same on a document and on its normalised form |
| ConfigSync.SummaryNames | agent/src/config_sync.py:178-200 | a summary names every changed key, and is empty exactly when all differences are null against missing |
| ConfigSync.NormalizedKeys | agent/src/config_sync.py:111-127 | the three keys that are local to a machine go, and every other top-level key but `displays` stays as it is |
| ConfigSync.WhoeverMovedWins | agent/src/config_sync.py:203-236 | what startup decides, by which of the two sides has moved since the base, and what a pull announces |
| ConfigReplication.StepKeeps | agent/src/firebase_client.py:2086-2261 | every step keeps the cache derived from documents settled with the local side |
| ConfigReplication.CacheIsDerived | agent/src/firebase_client.py:2017-2050 | in every run that does not stop between cache and callback, the cache holds, on synced fields, a document handed over with only the agent's own writes merged in |
| ConfigReplication.StartupPushIsSafe | agent/src/firebase_client.py:2169-2261 | a startup push is chosen only when the cloud shows nothing beyond that |
| ConfigReplication.TornCache | agent/src/firebase_client.py:997-1008 | stopped between cache and callback, the agent has cached a document it never handed over |
| ConfigGuarantees.AppliedAgrees | agent/src/firebase_client.py:970-1010 | after the callback config.json agrees on every synced field and keeps what is local |
| ConfigGuarantees.DeliveryExactly | agent/src/firebase_client.py:970-1010 | a delivery reaches the callback exactly when neither echo guard takes it for our own |
| ConfigGuarantees.PushedDocument | agent/src/firebase_client.py:2112-2130 | what a push leaves in the cloud, on synced fields |
| ConfigGuarantees.UndisturbedPush | agent/src/firebase_client.py:2112-2160 | undisturbed, a push recognises its document and anchors both guards exactly when pruning took nothing |
| ConfigGuarantees.DisturbedPush | agent/src/firebase_client.py:2131-2160 | a re-read that finds something unexpected rolls cache and hash back, and whatever happens until the document is delivered, it is applied unless the cache agrees with it by then |
| ConfigGuarantees.SyncAfterPull | agent/src/firebase_client.py:2169-2261 | after a pull the next sync is in sync |
| ConfigGuarantees.PullsAnnounced | agent/src/firebase_client.py:2221-2261 | in every run a pull without a summary finds in config.json only a settled document with the agent's writes; one with a summary names exactly the keys it changes |
| ConfigGuarantees.StartupAfterPush | agent/src/firebase_client.py:2169-2261 | after an undisturbed push, the next startup pulls exactly when an object was pruned that the cloud lacked and something changed |
| ConfigGuarantees.PushComesToRest | agent/src/firebase_client.py:2169-2261 | a push of a config without empty objects comes to rest |
| ConfigGuarantees.RestForever | agent/src/firebase_client.py:2169-2261 | from rest, any number of startups leaves cloud and local as they were |
| ConfigGuarantees.CrashBeforeCallback | agent/src/firebase_client.py:997-1008 | a crash between cache and callback makes the next startup push exactly when the edit changed anything, over the edit |
| ConfigGuarantees.StaleEchoDropsRevert | agent/src/firebase_client.py:970-985 | the guard of a startup pull drops a later revert to its document, until a restart pulls it |
| ConfigWrites.UndecidedChangesNothing | agent/src/firebase_client.py:2193-2214 | a failed read, or no document where the cache has one, leaves cloud, cache, guard and config.json as they were |
| ConfigWrites.InSyncChangesNothing | agent/src/firebase_client.py:2230-2236 | agreement writes nothing, caches the document read and recognises its delivery |
| ConfigWrites.SeedReachesCloud | agent/src/firebase_client.py:2219-2223 | a startup that seeds leaves in the cloud what was there with the pruned local config merged over it; cache and guard are what was sent, or as before if the write raised |
| ConfigWrites.StartupAfterSeed | agent/src/firebase_client.py:2169-2261 | after a seed the next startup is in sync, or pulls exactly when the document seeded over adds something of its own |
| ConfigWrites.FreshInstallSeeds | agent/src/firebase_client.py:2169-2261 | a machine new to the cloud has its local config there, and is in sync from its second startup |
| ConfigWrites.FetchedExactly | agent/src/firebase_client.py:2017-2050 | which document a read gives, whether it is new, and what the cache is afterwards |
| ConfigWrites.NothingToSend | agent/src/firebase_client.py:2112-2127 | a config with nothing to sync and an empty patch send nothing; any other config is armed with the cache as it is |
| ConfigWrites.EchoIsSpent | agent/src/firebase_client.py:970-981 | the guard takes one delivery, and the same document delivered again is judged by the cache |
| ConfigWrites.PushEndsExactly | agent/src/firebase_client.py:2131-2160 | which documents a push is compared with, and what cache and guard are after each outcome |
| ConfigWrites.FailedPushGivesUp | agent/src/firebase_client.py:2162-2167 | a push whose write raised leaves nothing armed, cache and config.json as they were, and the cloud written only if the write landed all the same |
| ConfigWrites.BreakerAlone | agent/src/firebase_client.py:1341-1385 | the breaker patch changes the value at displays.autoRestore.circuitBreaker and nothing beside it |
| ConfigWrites.BreakerMovesTogether | agent/src/firebase_client.py:1341-1385 | copies that agreed before the patch agree after it, and its own document is not taken for a foreign change |
| ConfigFreshness.FreshIsVersion | agent/src/firebase_client.py:2017-2050 | a document is recent exactly if it is one of the finitely many versions of the one handed over last |
| ConfigFreshness.StepKeepsCurrent | agent/src/firebase_client.py:2086-2261 | every timely step keeps the cache the document handed over last with later writes of the agent merged in, in their order |
| ConfigFreshness.CacheIsFresh | agent/src/firebase_client.py:2017-2050 | so it is in every run whose overtaken pushes finish only by a version of the document handed over last |
| ConfigFreshness.StartupPushIsCurrent | agent/src/firebase_client.py:2169-2261 | in such a run a startup push goes over no document later than the one settled last |
| ConfigFreshness.FinishExactly | agent/src/firebase_client.py:2131-2160 | that premise is exact: the next push that finishes leaves a recent cache if and only if it meets it |
| ConfigFreshness.OvertakenExactly | agent/src/firebase_client.py:2131-2160 | after a delivery during a push, and any steps since, which document decides whether the cache it leaves is recent |
| ConfigFreshness.StaleRollback | agent/src/firebase_client.py:2131-2160 | a run in which the startup push goes over a later edit of the dashboard |
| FirebaseConfig.FirebaseClient.ArmPush | agent/src/firebase_client.py:2112-2127 | the snapshot of the cache is taken and the guard armed, or nothing is done when there is nothing to send |
| FirebaseConfig.FirebaseClient.WritePush | agent/src/firebase_client.py:2129-2167 | the write is a deep merge, a failure disarms the guard |
| FirebaseConfig.FirebaseClient.FinishPush | agent/src/firebase_client.py:2131-2160 | re-read, comparison with the prediction, anchor or roll back |
| FirebaseConfig.FirebaseClient.OnConfigChanged | agent/src/firebase_client.py:970-1010 | the two echo guards, the cache, the callback |
| FirebaseConfig.FirebaseClient.UpdateDisplayAutorestoreState | agent/src/firebase_client.py:1341-1385 | the breaker patch goes to the cloud, the cache and config.json |
| FirebaseConfig.FirebaseClient.SyncConfigOnStartup | agent/src/firebase_client.py:2169-2261 | seeds, pushes, pulls or settles as decided (`SeedReachesCloud` says where a seed goes); a failed read does nothing |
| DocumentListener.DeliveriesAreChanges | agent/src/firestore_rest_client.py:549-580 | the callbacks that return are the accepted reads with consecutive repeats removed, from "absent" |
| DocumentListener.DestutterKeepsChanges | agent/src/firestore_rest_client.py:560-572 | those are exactly the changes, none repeats the one before, and the last is the current document |
| DocumentListener.Listener.Turn | agent/src/firestore_rest_client.py:549-618 | one poll: a raising callback is not marked delivered, a failed read changes nothing, the interval stays in bounds |
| DocumentListener.Listener.Run | agent/src/firestore_rest_client.py:549-618 | the whole loop makes exactly those calls |
| CommandDelivery.SoundStep | agent/src/firebase_client.py:1615-1942 | every disciplined step, any number of polls under way, keeps each command pending, terminal, expired or in hand |
| CommandDelivery.CommandConservation | agent/src/firebase_client.py:1896-1942 | in every state of every disciplined run each command is pending, has a terminal entry, or expired |
| CommandDelivery.NothingIsLost | agent/src/firebase_client.py:1896-1942 | in every state of every run at all each command is pending, has an entry, or expired |
| CommandDelivery.OldIsGone | agent/src/firebase_client.py:1959-2013 | an entry old enough to be cleaned belongs to a command already gone from pending |
| CommandDelivery.OnceStep | agent/src/firebase_client.py:922-936 | every reliable step, a callback being one, keeps the invariant that forbids a second execution |
| CommandDelivery.AtMostOnce | agent/src/firebase_client.py:669-694 | with callbacks taken as one step, no command is handed to its handler twice in any reliable run of overlapping polls, crashes, restarts, failed deletions and cleanups |
| CommandDelivery.RestartSettles | agent/src/firebase_client.py:669-694 | a restart turns every running entry terminal; what stays open is exactly what had reported progress |
| CommandEntries.TerminalWrite | agent/src/firebase_client.py:1896-1942 | a terminal write that lands changes the status, end and nothing else of that one entry, and its deletion takes that one command from pending |
| CommandEntries.OpenWrites | agent/src/firebase_client.py:1859-1894 | a running marker stamps the start of one entry, a progress report its status alone |
| CommandEntries.EnteredAs | agent/src/firebase_client.py:1694-1717 | the status a finished, refused or cancelled command is stored with |
| CommandEntries.RestartWrites | agent/src/firebase_client.py:669-694 | a startup that reads the document has seen exactly its ids and fails exactly the running entries it could write |
| CommandEntries.CleanupExactly | agent/src/firebase_client.py:1959-2013 | what a cleanup removes and forgets, to the millisecond, with and without a write that raises |
| CommandEntries.PollExactly | agent/src/firebase_client.py:917-936 | what a callback dispatches and remembers, up to the cap and above it |
| CommandEntries.CancelledEndsCancelled | agent/src/firebase_client.py:1706-1711 | whatever happens between a cancellation and the end of the handler, and whatever that returns, the command is stored as cancelled |
| CommandEntries.CancelledForGood | agent/src/firebase_client.py:1741-1790 | in every reliable run from there on its entry says so until a cleanup expires it |
| CommandEntries.SecondCancelLoses | agent/src/firebase_client.py:1764-1768 | a second cancellation that finds nothing to kill takes the flag back, and the handler's answer goes over the cancelled entry |
| CommandRefinement.Refines | agent/src/firebase_client.py:917-936 | a run of callbacks that look at, add and dispatch one id at a time, with the rest of the agent in between, comes to a run of deliveries under the same premises if they do not overlap |
| CommandRefinement.HandledOnce | agent/src/firebase_client.py:917-936 | no command is handed to its handler twice in any reliable run whose callbacks do not overlap |
| CommandRefinement.Conserved | agent/src/firebase_client.py:1896-1942 | in every disciplined one each command is pending, has a terminal entry, or expired |
| CommandRefinement.NoneIsLost | agent/src/firebase_client.py:1896-1942 | in every run, overlapping callbacks included, each command is pending, has an entry, or expired |
| CommandOverlaps.DeliveryComes | agent/src/firebase_client.py:917-936 | an undisturbed callback, id by id in some order, comes to the delivery |
| CommandOverlaps.EachIsNeeded | agent/src/firebase_client.py:917-936 | without any one of the other premises, callbacks that do not overlap can run a command twice |
| CommandOverlaps.OverlappingCallbacks | agent/src/firebase_client.py:917-936 | with all the others kept, two callbacks that overlap run a command twice |
| CommandLimits.PollsOutOfOrder | agent/src/firebase_client.py:917-942 | two polls under way that deliver in the reverse order run a finished command again |
| CommandLimits.CleanupDuringPoll | agent/src/firebase_client.py:1959-2013 | a cleanup between read and callback runs a command twice |
| CommandLimits.Unstamped | agent/src/firebase_client.py:1959-2013 | a command without a timestamp outlives its entry and runs again a day later |
| CommandLimits.MarkerLost | agent/src/firebase_client.py:1859-1894 | without its marker a command runs again after a crash |
| CommandLimits.SeedUnread | agent/src/firebase_client.py:669-683 | without the seed read so does a marked one |
| CommandLimits.CapForgets | agent/src/firebase_client.py:934-936 | with any number of pending commands above the cap, one of them runs twice |
| CommandLimits.ProgressStranded | agent/src/firebase_client.py:684-692 | a command that had reported progress is left open for good |
| CommandClient.FirebaseClient.OnCommandsChanged | agent/src/firebase_client.py:922-936 | in any order, dispatches what is new, refuses what finds no room, forgets what is gone |
| CommandClient.FirebaseClient.ProcessCommand | agent/src/firebase_client.py:1615-1642 | a command goes to a thread of its own if it is fast, to the end of the queue if there is room, and is refused otherwise |
| CommandClient.FirebaseClient.MarkCommandTerminal | agent/src/firebase_client.py:1896-1942 | completed first, then the deletion from pending; the entry has the status given, and no other entry changes |
| CommandClient.FirebaseClient.FinishCommand | agent/src/firebase_client.py:1694-1717 | a cancelled command is stored as cancelled whatever its handler returned, any other as it ended |
| CommandClient.FirebaseClient.HandleCancel | agent/src/firebase_client.py:1741-1790 | flagged before the kill; stored as cancelled if something was killed, unflagged if not |
| CommandClient.FirebaseClient.SeedSeenCommands | agent/src/firebase_client.py:669-694 | seeds from completed and fails every running entry whose write goes through |
| CommandClient.FirebaseClient.CleanStalePending | agent/src/firebase_client.py:1959-1992 | chunk by chunk, deletes the stale commands of the chunks before a failure, all without one |
| DisplayConfig.RoundTrip | agent/src/display_manager.py:1976-2098 | a saved configuration loads as itself exactly when every mode is a source, a target, or empty |
| DisplayConfig.SavedModeHolds | agent/src/display_manager.py:2006-2038 | the saved form of a mode, field by field |
| DisplayConfig.SavedPathHolds | agent/src/display_manager.py:1976-2003 | the saved form of a path, field by field |
| DisplayConfig.LoadedModeHolds | agent/src/display_manager.py:2041-2098 | what a saved mode loads as: its kind by the type number as its field holds it, its body if there is one, and zeros if not |
| DisplayConfig.Wraps | agent/src/display_manager.py:2041-2098 | a field keeps what fits it and any other number modulo its range |
| DisplayConfig.ActiveExactly | agent/src/display_manager.py:2162-2166 | the active paths counted are those whose lowest flag bit is set |
| DisplayConfig.DeserializePathsModes | agent/src/display_manager.py:2041-2098 | the arrays filled entry by entry are the loaded configuration |
| LayoutValidation.ValidateDesiredLayout | agent/src/display_manager.py:2169-2225 | which layouts pass, and which fault is reported, both ways |
| LayoutValidation.ShapeExactly | agent/src/display_manager.py:2169-2225 | what a monitor of a layout must hold, by the kinds and values of its fields |
| LayoutValidation.CanonicalExactly | agent/src/display_manager.py:2169-2225 | a rotation passes as one of the four angles, as an integer or a float, and as false, which counts as 0 |
| LayoutValidation.PrimariesAreCounted | agent/src/display_manager.py:2169-2225 | the count is the number of monitors marked |
| LayoutValidation.ByHashIsLast | agent/src/display_manager.py:2649-2653 | keyed by hash, the last monitor with a hash stands |
| LayoutValidation.PrimarySurvives | agent/src/display_manager.py:2649-2653 | the keyed layout has a primary exactly when no later monitor carries its hash |
| LayoutRewrite.StoredRateSettles | agent/src/display_manager.py:2298-2311 | a rate stored in thousandths reads back within the tolerance |
| LayoutRewrite.WrappedRateNeverSettles | agent/src/display_manager.py:2298-2311 | a rate too large for its field never does |
| LayoutRewrite.RatesRead | agent/src/display_manager.py:1157-1163 | the rate read back is numerator over denominator to the nearest hundredth |
| LayoutRewrite.RotationCodes | agent/src/display_manager.py:244-249 | the codes of the four rotations, both ways, and of no others |
| LayoutRewrite.ApplySource | agent/src/display_manager.py:2257-2285 | position and size of one source mode, and their entries |
| LayoutRewrite.ApplyTarget | agent/src/display_manager.py:2255-2311 | rotation and rate of one path, and their entries; a null rotation raises |
| LayoutRewrite.ApplyDesiredToPaths | agent/src/display_manager.py:2228-2323 | the arrays end as the fold of the matches, and it raises exactly when a matched rotation is null |
| LayoutGuarantees.MatchesAre | agent/src/display_manager.py:2237-2240 | the matches are exactly the wanted paths, in order |
| LayoutGuarantees.OffsetIsPrimary | agent/src/display_manager.py:2242-2247 | with one primary, the offset is its position |
| LayoutGuarantees.EachOnItsOwn | agent/src/display_manager.py:2249-2323 | matches on paths and source modes of their own do not disturb one another |
| LayoutGuarantees.LayoutReached | agent/src/display_manager.py:2228-2323 | primary at the origin, every wanted monitor in place around it with the size, rotation and (if it fits) rate asked for, everything else untouched |
| LayoutGuarantees.SecondRun | agent/src/display_manager.py:2228-2323 | a second run changes nothing, and journals nothing but the primary exactly when all stored values fit |
| LayoutGuarantees.JournalIsTrue | agent/src/display_manager.py:2233-2321 | every entry has the true old and new value, and every changed field has its entry |
| DisplayRevert.StepKeeps | agent/src/display_manager.py:2705-2771 | every step keeps the write-ahead invariant |
| DisplayRevert.WriteAhead | agent/src/display_manager.py:2962-3078 | in every disciplined run, a layout on trial has the one before it in the sentinel |
| DisplayRevert.UnguardedExactly | agent/src/display_manager.py:2705-2730 | the one step that leaves a layout on trial unguarded is a sentinel written over it with another layout |
| DisplayRevert.RecoveryRestores | agent/src/display_manager.py:3154-3276 | from any such state, crash and one successful recovery restore exactly that layout and leave nothing pending |
| DisplayRevert.UnresolvedIsStranded | agent/src/display_manager.py:2919-2943 | an apply run and put back leaves things guarded exactly when nothing was on trial before it |
| DisplayRevert.OutcomeOfTrial | agent/src/display_manager.py:2381-2434 | up to the next apply the live layout changes only by a restore that takes effect, and then to the layout before |
| DisplayRevert.RestorableWhileSentinel | agent/src/display_manager.py:2394-2397 | a restore can still take effect exactly while the sentinel is on disk |
| DisplayRevert.AcknowledgedInTime | agent/src/display_manager.py:3110-3151 | accepted while the watchdog waits, an acknowledgement keeps the layout unless a recovery takes effect, and for good once the sentinel is gone |
| DisplayRevert.AcknowledgedTooLate | agent/src/display_manager.py:3110-3151 | accepted while the watchdog reverts, it keeps the layout exactly if no restore takes effect |
| DisplayRevert.AcknowledgedThenUndone | agent/src/display_manager.py:2394-2397 | a crash between acknowledgement and clean-up brings the old layout back |
| DisplayRevert.LateAcknowledgement | agent/src/display_manager.py:3110-3151 | an acknowledgement during the revert is accepted and lost |
| DisplayRevert.OtherAcksChangeNothing | agent/src/display_manager.py:3110-3151 | while an apply waits, acknowledgements of other applies change nothing; one of this apply, or of none, ends the wait |
| DisplayRevert.OldIdWindow | agent/src/display_manager.py:2928-2931 | between the flag and the new id only the previous id is accepted, and it counts for the new apply |
| DisplayRevert.HandChangeIsKept | agent/src/display_manager.py:2705-2730 | the layout an apply keeps to go back to is the one live when it writes its sentinel, changed by hand or not |
| DisplayManager.Manager.ApplyCore | agent/src/display_manager.py:2609-2809 | nothing is installed before the old layout is on disk; then the rewritten layout is, and it succeeds as the last call to install it did |
| DisplayManager.Refused | agent/src/display_manager.py:2609-2704 | every reason for which a layout is not tried, and no other |
| DisplayManager.Manager.ApplyTopology | agent/src/display_manager.py:2812-3090 | exactly when it succeeds, and what the display and the sentinel hold then; after a failure, what was put back |
| DisplayManager.Manager.AckApply | agent/src/display_manager.py:3110-3151 | accepted exactly for the apply in flight, or for none in particular |
| DisplayManager.Manager.Watchdog | agent/src/display_manager.py:2381-2434 | acknowledged, the layout stays; timed out, the old one comes back or the sentinel stays |
| DisplayManager.Manager.ApplyRevertFromSentinel | agent/src/display_manager.py:3154-3276 | it succeeds exactly when there is a readable sentinel, a console session and a restore that works; what display and sentinel hold then, and that nothing changes without the first two |
| ConnectionMachine.StepKeepsOneSequence | agent/src/connection_manager.py:524-578 | every step keeps at most one reconnect sequence, and the flag set exactly while there is one |
| ConnectionMachine.StepKeepsOwed | agent/src/connection_manager.py:385-447 | every step keeps a passing state owed its successor by a live thread |
| ConnectionCounters.StepKeepsStamps | agent/src/connection_manager.py:597-621 | every step keeps the recorded success and fatal error the latest of the history |
| ConnectionCounters.StepKeepsBreaker | agent/src/connection_manager.py:486-651 | every write of the counters keeps the breaker shut below the threshold, unless overtaken or in the middle of a reset |
| ConnectionRuns.NoWedge | agent/src/connection_manager.py:385-651 | one sequence at most; at rest the state is connected or disconnected, never fatal; the backoff stays in its bounds |
| ConnectionRuns.BreakerBelow | agent/src/connection_manager.py:623-651 | the breaker opens below the threshold only when a success was counted between the check and the write, and does unless as many failures were counted since |
| ConnectionRuns.CanAlwaysRestart | agent/src/firebase_client.py:876-885 | a forced reconnect then starts a sequence whatever the breaker says |
| ConnectionRuns.ShutdownLeavesBackoff | agent/src/connection_manager.py:551-578 | a sequence interrupted by a shutdown leaves the state in backoff |
| ConnectionBreaker.FailureAlone | agent/src/connection_manager.py:623-651 | the writes of a failure nothing interrupts come to what the method says |
| ConnectionBreaker.SuccessAlone | agent/src/connection_manager.py:486-505 | the writes of a success nothing interrupts zero the count, close the breaker and stamp the time |
| ConnectionBreaker.OvertakenBreaker | agent/src/connection_manager.py:623-651 | a run that ends with the breaker open and no failure counted |
| ConnectionAlone.ConnectAlone | agent/src/connection_manager.py:430-447 | connect() run undisturbed: nothing if connected or fatal, else the state the callback answered, one success or failure counted |
| ConnectionAlone.ReportErrorAlone | agent/src/connection_manager.py:449-484 | an error reported undisturbed: the fatal stamp, the breaker that turns it away or is closed, the connection dropped, the flag taken |
| ConnectionAlone.ReportSuccessAlone | agent/src/connection_manager.py:486-505 | a success reported undisturbed: counters, stamps and state |
| ConnectionAlone.ForceReconnectAlone | agent/src/connection_manager.py:507-518 | a forced reconnect undisturbed |
| ConnectionAlone.SequenceAlone | agent/src/connection_manager.py:545-578 | a whole reconnect sequence undisturbed: one attempt and its count, a restart that raises counted as a failure, or a shutdown during the wait |
| ConnectionManager.Manager.OnConnectFailure | agent/src/connection_manager.py:623-651 | one more failure, the backoff doubled up to an hour, the breaker open from the fifth with the time it first opened |
| ConnectionManager.Manager.Connect | agent/src/connection_manager.py:430-447 | ends as the callback answered; already connected changes nothing |
| ConnectionManager.Manager.ReportError | agent/src/connection_manager.py:449-484 | turned away only by an open breaker not due for a test; otherwise a sequence is under way afterwards |
| ConnectionManager.Manager.ReportSuccess | agent/src/connection_manager.py:486-505 | counters reset, stamps set, connected |
| ConnectionManager.Manager.ForceReconnect | agent/src/connection_manager.py:507-518 | bypasses breaker and backoff |
| ConnectionManager.Manager.CalculateBackoffWait | agent/src/connection_manager.py:653-663 | none once the backoff has passed, else what is left of it scaled by the jitter, between half and all of it |
| ConnectionManager.Manager.ReconnectSequence | agent/src/connection_manager.py:545-578 | gives the flag back, connected only if probe, callback and thread restart all went well, with the count, the stamps and the breaker's time that go with it |
| Watchdog.FiresExactlyWhenStuck | agent/src/connection_manager.py:69-128 | over every run, exactly when it is enabled, out of grace, and every success and uncleared fatal error is old enough |
| Watchdog.StaysAuthorised | agent/src/connection_manager.py:69-128 | once it fires it fires at every later point without a new success or fatal error |
| Watchdog.FiresInTheEnd | agent/src/connection_manager.py:69-128 | wherever a run has got to, an enabled watchdog fires once nothing has happened for the longest of its thresholds |
| TokenLadder.AdmittedTokensAreValid | agent/src/auth_manager.py:506-595 | a returned token is not expired at the reading that admitted it unless granted expired; a call fails only without one |
| TokenLadder.AttemptedExactly | agent/src/auth_manager.py:506-595 | a call tries to refresh exactly when its token is within five minutes of expiry and the ladder's wait is over |
| TokenLadder.EndingExactly | agent/src/auth_manager.py:392-504 | how an attempt ends for the ladder |
| TokenLadder.StorageExactly | agent/src/auth_manager.py:392-504 | storage is emptied exactly by a 401 or 403 to a credential that was there; what a granted answer leaves in memory and storage, the rotated refresh token included; any other failure leaves storage as it was |
| TokenLadder.CallKeepsFaithful | agent/src/auth_manager.py:506-595 | every call keeps the ladder's fields equal to what its history says |
| TokenLadder.AttemptsAreSpaced | agent/src/auth_manager.py:528-583 | after k server failures the next attempt is at least min(60 * 2^k, 300) later, after a network failure 10, a success resets |
| TokenLadder.NothingAfterRejection | agent/src/auth_manager.py:427-430 | once storage holds no credential no call brings a new token |
| TokenLadder.RejectedForGood | agent/src/auth_manager.py:427-430 | from a call answered 401 or 403 on, no call brings a new token |
| TokenLadder.NeverTriedWithoutAccess | agent/src/auth_manager.py:512-516 | without an access token no call ever tries to refresh |
| AuthManager.Manager.RefreshAccessToken | agent/src/auth_manager.py:392-504 | what each answer does to the tokens in memory, the two in storage and the counters |
| AuthManager.Manager.GetValidToken | agent/src/auth_manager.py:506-595 | the call whose runs `TokenLadder` is about |
| RequestNonce.StepKeepsOneShot | agent/src/configure_site.py:1372-1439 | every step keeps a nonce that may still be quoted unspent |
| RequestNonce.NonceIsOneShot | agent/src/configure_site.py:1234-1266 | each nonce leads to at most one executed request in every run, crashes and poll ticks included |
| RequestNonce.ReplayExactlyWhenNotRemoved | agent/src/configure_site.py:1411-1439 | a request can be honoured again exactly when the old nonce file was not removed |
| RequestNonce.PollPublishes | agent/src/configure_site.py:1372-1439 | a poll tick publishes a nonce exactly when there is no file and the tree can be written |
| RequestNonce.DrainPublishes | agent/src/configure_site.py:1234-1266 | a drain that finds no file publishes a nonce before it looks at any request |
| RequestAudit.SecondsSinceLast | agent/src/configure_site.py:1592-1613 | the scans of both tails from the end |
| RequestAudit.RecentRowsAreFound | agent/src/configure_site.py:1592-1636 | a row among the last read back is found through any rotation |
| RequestAudit.FoundExactly | agent/src/configure_site.py:1592-1636 | an execution is found exactly if one is in the tail of either file, and the latest there |
| RequestAudit.FilesAfter | agent/src/configure_site.py:1562-1589 | over any rows the live file is rotated when it is full and not before |
| RequestAudit.LimitIsExact | agent/src/configure_site.py:1442-1462 | a restart or reboot is executed exactly when every execution of that verb is at least five minutes old |
| RequestAudit.OutcomeExactly | agent/src/configure_site.py:1442-1482 | a pairing is held back by one still running and by nothing else |
| RequestAudit.RowsOfRequest | agent/src/configure_site.py:1442-1482 | the rows one request leaves, and what runs after it |
| RequestAudit.ExecutionsAreSpaced | agent/src/configure_site.py:1442-1482 | over any run, two restarts run, or two reboots, are at least 300 s apart |
| RequestAudit.RestartThenReboot | agent/src/configure_site.py:1455-1462 | a restart does not hold back a reboot |
| RequestAudit.UnwrittenRow | agent/src/configure_site.py:1562-1589 | a run that executes the same verb twice at once when the row does not reach the file |
| PrivilegedRequests.AcceptRequest | agent/src/configure_site.py:1269-1317 | exactly which requests are honoured, by owner, mode, verb and nonce, and which refusals are answered |
| PrivilegedRequests.Seam.IssueRequestNonce | agent/src/configure_site.py:1411-1439 | a new nonce is published exactly when the old file is gone and the tree can be written; otherwise there is none to quote |
| PrivilegedRequests.Seam.ExecuteRequest | agent/src/configure_site.py:1442-1482 | the row goes in before the verb runs; its outcome is the rate limit's |
| PrivilegedRequests.Seam.DrainPrivilegedRequests | agent/src/configure_site.py:1234-1266 | a batch yields one execution, the first acceptable request, or none |

## Left out

- How path segments are quoted as text (backticks, keys that start with a digit): paths are lists of segments.
- The order of dict keys where the code iterates over one: loops take the keys in any order.
- Float rounding, NaN and infinities: floats are reals, rounding to a number of digits is exact and half-even. The
  float powers of `PushBackoff`, which overflow after a thousand failures, and `PushBackoff` itself.
- Datetime values, and the whitespace, underscores and digit limit Python's int() knows.
- The strips of a config and the cursor of an update work on values here, by copying the path they change.
- DELETE_FIELD inside a dict value; the source writes it only at the top level of an update.
- FirestoreClient.FirestoreRestClient.UpdateDocument: requires prefix-free keys, and no timestamp inside a value under a dotted key, which the mask and the transforms would read as different paths.
- ConfigGuarantees.DisturbedPush: re-read, comparison and roll back are one step; a delivery between them is not modelled.
- ConfigReplication.CacheIsDerived: premises are that the agent does not stop between caching a document and applying it (`TornCache`) and that config callbacks do not overlap; the three writes of an auto-restore patch are one step, and so is a startup, before which nothing listens, but for the update callback of a pull and the re-read of a push.
- The update callback is "replace everything but the local-only keys"; digests are compared as the documents they digest.
- CommandRefinement.HandledOnce: the last lines of a callback, which forget what is gone and cap the rest, are one step.
- CommandDelivery.AtMostOnce: premises are callbacks that do not overlap (`CommandRefinement`), polls that deliver in the order they read, no cleanup between a poll's read and its callback, timestamps on every command, at most 1000 pending, markers and seed that succeed; there is a run without each.
- Throttling of progress reports, a cancelled entry that is written only after its handler has finished (the step is of a command in hand), and the second half of the cleanup as a method (it is a step of the machine). The failed entry of a command the queue has no room for is a step of its own.
- The CCD calls, EDID hashing and the helper process: a call to install a configuration reports and installs what it likes. One abandoned at its timeout has had its effect, or none, by the next step.
- A sentinel file that parses but holds no snapshot, which recovery deletes; it is read as one that is not readable.
- DisplayRevert.WriteAhead: applies do not overlap, recovery does not run beside an apply, and no apply writes its sentinel while an earlier layout is on trial (`UnguardedExactly`); the clean-up after an unexpected exception and changes made by hand while something is pending are not modelled.
- Non-boolean `primary` flags, and positions, sizes and rotations that int() cannot convert, other than a null rotation.
- Validation of layouts beyond their shape, canonical hashes (taken as given), Mosaic, kill switches and the apply cooldown's clock (one answer: limited or not).
- ConnectionRuns.NoWedge: an increment and a doubling are one step each, so a lost update between two failures is not modelled, nor are `reset()` and thread-start failures.
- The watchdog's config merge, kill switches, internet check, restart budget and reboot state.
- A token expiry or attempt time of exactly zero, which the code takes for absent; pairing and code exchange.
- File locking, ownership and modes as the kernel keeps them; the tail read and the file cap count rows, not bytes; the replies written beside a request; a nonce file replaced by somebody else's.
- RequestAudit.ExecutionsAreSpaced: premises are rows that reach the file and a last five minutes of rows that fit the tail read back.
