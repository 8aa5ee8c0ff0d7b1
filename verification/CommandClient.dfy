/** The command half of the Firebase client: its loops over the polled commands, the completed entries and
    the stale ones, each proved against its transition in `CommandDelivery`. */
module CommandClient {
  import opened Json
  import opened CommandDelivery
  import opened CommandEntries

  const QUEUE_SIZE: nat := 50
  const CHUNK: nat := 50

  /** A polled command: whether its type runs on the fast lane. */
  datatype Command = Command(fast: bool)

  function Elements(ids: seq<Id>): set<Id> {
    set id | id in ids
  }

  lemma ElementsAppend(a: seq<Id>, b: seq<Id>)
    ensures Elements(a + b) == Elements(a) + Elements(b)
  {
  }

  class FirebaseClient {
    /** Each pending command's timestamp. */
    var pendingDoc: map<Id, nat>
    var completedDoc: map<Id, Entry>
    var seenCommands: set<Id>
    var cancelledCommands: set<Id>
    var slowQueue: seq<Id>
    var fastThreads: set<Id>
    /** Commands the full queue turned away, their failed entry yet to be written. */
    var turnedAway: set<Id>
    var executing: map<Id, Stage>
    var cleanupAt: Option<nat>
    var running: bool
    var nowMs: nat
    ghost var readings: seq<set<Id>>
    ghost var born: map<Id, nat>
    ghost var executed: seq<Id>
    ghost var expired: set<Id>

    /** Dispatched to be executed. */
    function Accepted(): set<Id>
      reads this
    {
      Elements(slowQueue) + fastThreads
    }

    ghost function View(): State
      reads this
    {
      State(pendingDoc, completedDoc, seenCommands, readings, Accepted() + turnedAway, executing, cancelledCommands,
            cleanupAt, running, nowMs, born, executed, expired)
    }

    /** What the loop over the polled commands has done once it is through with `done`, `full` of them turned away. */
    ghost predicate Dispatched(before: State, accepted: set<Id>, turned: set<Id>, done: set<Id>, full: set<Id>)
      reads this
    {
      && full <= done - before.seen
      && Accepted() == accepted + (done - before.seen - full)
      && turnedAway == turned + full
      && View() == before.(seen := before.seen + done, lane := before.lane + (done - before.seen))
    }

    /** `on_commands_changed`, over the items in any order. `full` are the ids the queue had no room for. */
    method OnCommandsChanged(commands: map<Id, Command>) returns (full: set<Id>, keep: set<Id>)
      modifies this
      ensures full <= commands.Keys - old(seenCommands)
      ensures |commands.Keys| > SEEN_CAP ==> keep <= commands.Keys && |keep| == SEEN_KEPT
      ensures View() == DeliverSpec(old(View()), commands.Keys, keep)
      ensures turnedAway == old(turnedAway) + full
      ensures Accepted() == old(Accepted()) + (commands.Keys - old(seenCommands) - full)
      ensures |slowQueue| <= QUEUE_SIZE || slowQueue == old(slowQueue)
      ensures forall id :: id in full ==> !commands[id].fast
    {
      full, keep := {}, {};
      if commands == map[] {
        assert commands.Keys == {};
        return;
      }
      full := DispatchNew(commands);
      keep := DropGone(commands.Keys);
    }

    /** What is gone from the document is forgotten, and the rest capped. */
    method DropGone(ids: set<Id>) returns (keep: set<Id>)
      requires ids <= seenCommands
      modifies `seenCommands
      ensures |ids| > SEEN_CAP ==> keep <= ids && |keep| == SEEN_KEPT
      ensures seenCommands == if |ids| > SEEN_CAP then keep else ids
    {
      keep := {};
      var gone := seenCommands - ids;
      seenCommands := seenCommands - gone;
      assert seenCommands == ids;
      if |seenCommands| > SEEN_CAP {
        keep := PickSome(seenCommands, SEEN_KEPT);
        seenCommands := keep;
      }
    }

    method DispatchNew(commands: map<Id, Command>) returns (full: set<Id>)
      modifies this
      ensures Dispatched(old(View()), old(Accepted()), old(turnedAway), commands.Keys, full)
      ensures |slowQueue| <= QUEUE_SIZE || slowQueue == old(slowQueue)
      ensures forall id :: id in full ==> !commands[id].fast
    {
      full := {};
      var rest := commands.Keys;
      ghost var done: set<Id> := {};
      ghost var before, accepted, turned := View(), Accepted(), turnedAway;
      assert Dispatched(before, accepted, turned, done, full) by {
        assert before.seen + {} == before.seen && before.lane + ({} - before.seen) == before.lane;
        assert accepted + ({} - before.seen - {}) == accepted && turned + {} == turned;
      }
      while rest != {}
        invariant rest <= commands.Keys && done == commands.Keys - rest
        invariant Dispatched(before, accepted, turned, done, full)
        invariant forall id :: id in full ==> !commands[id].fast
        invariant |slowQueue| <= QUEUE_SIZE || slowQueue == old(slowQueue)
        decreases rest
      {
        var id :| id in rest;
        rest := rest - {id};
        var away := DispatchOne(id, commands[id], before, accepted, turned, done, full);
        full := if away then full + {id} else full;
        done := done + {id};
      }
    }

    method DispatchOne(id: Id, command: Command, ghost before: State, ghost accepted: set<Id>, ghost turned: set<Id>,
                       ghost done: set<Id>, ghost full: set<Id>)
      returns (away: bool)
      requires Dispatched(before, accepted, turned, done, full) && id !in done
      modifies this
      ensures Dispatched(before, accepted, turned, done + {id}, if away then full + {id} else full)
      ensures away ==> !command.fast
      ensures |slowQueue| <= QUEUE_SIZE || slowQueue == old(slowQueue)
    {
      away := false;
      DispatchStep(before, accepted, done, full, id);
      if id !in seenCommands {
        seenCommands := seenCommands + {id};
        var dispatched := ProcessCommand(id, command);
        away := !dispatched;
        if away {
          assert turned + full + {id} == turned + (full + {id});
        }
      }
    }

    /** Fast commands get a thread each; slow ones a place in the queue, while it has one. */
    method ProcessCommand(id: Id, command: Command) returns (dispatched: bool)
      modifies `fastThreads, `slowQueue, `turnedAway
      ensures dispatched <==> command.fast || old(|slowQueue|) < QUEUE_SIZE
      ensures View() == old(View()).(lane := old(View()).lane + {id})
      ensures Accepted() == if dispatched then old(Accepted()) + {id} else old(Accepted())
      ensures turnedAway == if dispatched then old(turnedAway) else old(turnedAway) + {id}
      ensures fastThreads == if command.fast then old(fastThreads) + {id} else old(fastThreads)
      ensures slowQueue == if !command.fast && old(|slowQueue|) < 50 then old(slowQueue) + [id] else old(slowQueue)
      ensures |slowQueue| <= QUEUE_SIZE || slowQueue == old(slowQueue)
    {
      dispatched := true;
      if command.fast {
        fastThreads := fastThreads + {id};
      } else if |slowQueue| < QUEUE_SIZE {
        ElementsAppend(slowQueue, [id]);
        slowQueue := slowQueue + [id];
      } else {
        turnedAway := turnedAway + {id};
        dispatched := false;
      }
      assert View().lane == old(View()).lane + {id};
      assert Accepted() == if dispatched then old(Accepted()) + {id} else old(Accepted());
    }

    /** The terminal write; completed first, so that a failure in between leaves the command pending. */
    method MarkCommandTerminal(id: Id, terminal: Terminal, written: bool, deleted: bool)
      modifies `completedDoc, `pendingDoc
      ensures View() == MarkTerminal(old(View()), id, terminal, written, deleted)
      ensures written ==> EndedAs(completedDoc, id, terminal) && OnlyEntry(old(completedDoc), completedDoc, id)
      ensures !written ==> completedDoc == old(completedDoc)
      ensures pendingDoc == if written && deleted then old(pendingDoc) - {id} else old(pendingDoc)
    {
      if !written {
        return;
      }
      completedDoc := WithTerminal(completedDoc, id, terminal, nowMs);
      if !deleted {
        return;
      }
      pendingDoc := pendingDoc - {id};
    }

    /** `finish_command`: a cancelled command stays cancelled whatever its handler returned. */
    method FinishCommand(id: Id, cancelInstallation: bool, isError: bool, written: bool, deleted: bool)
      returns (terminal: Terminal)
      requires id in executing
      modifies this
      ensures terminal == (if id in old(cancelledCommands) || cancelInstallation then Cancelled
                           else if isError then Failed else Completed)
      ensures cancelledCommands == old(cancelledCommands) - {id} && executing == old(executing) - {id}
      ensures written ==> EndedAs(completedDoc, id, terminal) && OnlyEntry(old(completedDoc), completedDoc, id)
      ensures !written ==> completedDoc == old(completedDoc)
      ensures pendingDoc == if written && deleted then old(pendingDoc) - {id} else old(pendingDoc)
      ensures View() == MarkTerminal(old(View()), id, terminal, written, deleted).(
                          active := old(executing) - {id}, cancelled := old(cancelledCommands) - {id})
    {
      if id in cancelledCommands {
        cancelledCommands := cancelledCommands - {id};
        terminal := Cancelled;
      } else if cancelInstallation {
        terminal := Cancelled;
      } else if isError {
        terminal := Failed;
      } else {
        terminal := Completed;
      }
      MarkCommandTerminal(id, terminal, written, deleted);
      executing := executing - {id};
    }

    /** `_handle_cancel_mcp_tool`: flagged before the kill; a target with nothing left to kill is not cancelled. */
    method HandleCancel(target: Id, killed: bool, written: bool)
      modifies `cancelledCommands, `completedDoc, `pendingDoc
      ensures cancelledCommands == if killed then old(cancelledCommands) + {target}
                                   else old(cancelledCommands) - {target}
      ensures killed && written ==>
                EndedAs(completedDoc, target, Cancelled) && OnlyEntry(old(completedDoc), completedDoc, target)
      ensures !(killed && written) ==> completedDoc == old(completedDoc)
      ensures pendingDoc == old(pendingDoc)
    {
      cancelledCommands := cancelledCommands + {target};
      if !killed {
        cancelledCommands := cancelledCommands - {target};
        return;
      }
      MarkCommandTerminal(target, Cancelled, written, false);
    }

    /** `_seed_seen_commands` at startup. `written` and `deleted` say which of its writes go through. */
    method SeedSeenCommands(readOk: bool, written: set<Id>, deleted: set<Id>)
      requires !running
      modifies this
      ensures var failed := written * RunningEntries(old(View()));
              View() == RestartSpec(old(View()), readOk, failed, failed * deleted)
    {
      running := true;
      seenCommands := {};
      if !readOk {
        MarkNone(View());
        return;
      }
      seenCommands := completedDoc.Keys;
      FailRunning(completedDoc, written, deleted);
    }

    /** Every entry of the data read that is still marked running is failed, write by write. */
    method FailRunning(completedData: map<Id, Entry>, written: set<Id>, deleted: set<Id>)
      requires completedData == completedDoc
      modifies this
      ensures var failed := written * RunningEntries(old(View()));
              View() == MarkAllFailed(old(View()), failed, failed * deleted)
    {
      ghost var up := View();
      ghost var done: set<Id> := {};
      MarkNone(up);
      var rest := completedData.Keys;
      while rest != {}
        invariant rest <= completedData.Keys
        invariant done == written * RunningEntries(up) - rest
        invariant View() == MarkAllFailed(up, done, done * deleted)
        decreases rest
      {
        var id :| id in rest;
        rest := rest - {id};
        if completedData[id].status == Running {
          MarkCommandTerminal(id, Failed, id in written, id in deleted);
          if id in written {
            MarkOneMore(up, done, deleted, id);
            done := done + {id};
          }
        }
      }
    }

    /** The first half of `_cleanup_stale_commands`, in chunks; the write of chunk `failingChunk` raises. */
    method CleanStalePending(failingChunk: nat) returns (removed: set<Id>, raised: bool)
      modifies this
      ensures removed <= StalePending(old(View())) && (!raised ==> removed == StalePending(old(View())))
      ensures View() == CleanPendingSpec(old(View()), removed, raised)
    {
      ghost var before := View();
      cleanupAt := None;
      var stale := CollectStale();
      removed, raised := {}, false;
      var i, chunkIndex := 0, 0;
      assert stale[..0] == [] && before.pending - {} == before.pending;
      while i < |stale|
        invariant 0 <= i <= |stale|
        invariant removed == Elements(stale[..i])
        invariant View()
                  == before.(pending := before.pending - removed, expired := before.expired + removed, cleaning := None)
      {
        if chunkIndex == failingChunk {
          raised := true;
          ElementsAppend(stale[..i], stale[i..]);
          assert stale[..i] + stale[i..] == stale;
          return;
        }
        var upTo := if i + CHUNK <= |stale| then i + CHUNK else |stale|;
        var chunk := Elements(stale[i..upTo]);
        assert stale[..upTo] == stale[..i] + stale[i..upTo];
        ElementsAppend(stale[..i], stale[i..upTo]);
        DeleteChunk(before, removed, chunk);
        removed := removed + chunk;
        i, chunkIndex := upTo, chunkIndex + 1;
      }
      assert stale[..|stale|] == stale;
      seenCommands := seenCommands - removed;
      cleanupAt := Some(nowMs);
    }

    method DeleteChunk(ghost before: State, ghost removed: set<Id>, chunk: set<Id>)
      requires View()
               == before.(pending := before.pending - removed, expired := before.expired + removed, cleaning := None)
      modifies `pendingDoc, `expired
      ensures View()
              == before.(pending := before.pending - (removed + chunk), expired := before.expired + (removed + chunk),
                                cleaning := None)
    {
      assert before.pending - removed - chunk == before.pending - (removed + chunk);
      assert before.expired + removed + chunk == before.expired + (removed + chunk);
      pendingDoc := pendingDoc - chunk;
      expired := expired + chunk;
    }

    method CollectStale() returns (stale: seq<Id>)
      ensures Elements(stale) == StalePending(View())
    {
      stale := [];
      var rest := pendingDoc.Keys;
      ghost var all := StalePending(View());
      while rest != {}
        invariant rest <= pendingDoc.Keys
        invariant Elements(stale) == all - rest
        decreases rest
      {
        var id :| id in rest;
        var timestamp := pendingDoc[id];
        if timestamp > 0 && nowMs - timestamp > PENDING_TTL {
          assert id in all;
          ElementsAppend(stale, [id]);
          stale := stale + [id];
        } else {
          assert id !in all;
        }
        rest := rest - {id};
      }
    }
  }

  lemma MarkNone(s: State)
    ensures MarkAllFailed(s, {}, {}) == s
    ensures MarkAllFailed(s, {}, {} * s.seen) == s
  {
    assert MarkAllFailed(s, {}, {}).completed == s.completed;
    assert MarkAllFailed(s, {}, {}).pending == s.pending;
  }

  lemma MarkOneMore(s: State, done: set<Id>, deleted: set<Id>, id: Id)
    requires id !in done && id in s.completed
    ensures MarkTerminal(MarkAllFailed(s, done, done * deleted), id, Failed, true, id in deleted)
            == MarkAllFailed(s, done + {id}, (done + {id}) * deleted)
  {
    var x := MarkTerminal(MarkAllFailed(s, done, done * deleted), id, Failed, true, id in deleted);
    var y := MarkAllFailed(s, done + {id}, (done + {id}) * deleted);
    assert x.completed == y.completed;
    assert x.pending == y.pending;
  }

  lemma DispatchStep(before: State, accepted: set<Id>, done: set<Id>, full: set<Id>, id: Id)
    requires full <= done && id !in done
    ensures before.seen + done + {id} == before.seen + (done + {id})
    ensures id in before.seen ==>
              && before.seen + (done + {id}) == before.seen + done
              && done + {id} - before.seen == done - before.seen
              && done + {id} - before.seen - full == done - before.seen - full
    ensures id !in before.seen ==>
              && before.lane + (done - before.seen) + {id} == before.lane + (done + {id} - before.seen)
              && accepted + (done - before.seen - full) + {id} == accepted + (done + {id} - before.seen - full)
              && done + {id} - before.seen - (full + {id}) == done - before.seen - full
  {
  }

  /** Any `n` of the ids: the order a set lists its elements in is not specified. */
  method PickSome(ids: set<Id>, n: nat) returns (some: set<Id>)
    requires n <= |ids|
    ensures some <= ids && |some| == n
  {
    some := {};
    var rest := ids;
    while |some| < n
      invariant some <= ids && rest == ids - some && |some| <= n && |rest| == |ids| - |some|
      decreases n - |some|
    {
      var id :| id in rest;
      some, rest := some + {id}, rest - {id};
    }
  }
}
