/** The drain of the request seam as the loop it is: which request files are honoured, with which nonce, and what
    reaches the audit. */
module PrivilegedRequests {
  import opened Json
  import opened RequestAudit

  /** What is found under a request's name: nothing that opens, or an entry with an owner and a mode. */
  datatype Entry = Unopenable | Opened(regular: bool, uid: nat, loose: bool, body: Body)
  datatype Body = Unreadable | NotAnObject | Fields(verb: string, nonce: string)

  /** What answers one honoured request: a fresh nonce, whether the old file goes and the new one can be written,
      the clock, whether a pairing is running, and whether the verb fails. */
  datatype Circumstances = Circumstances(
    candidate: string,
    removes: bool,
    writable: bool,
    now: real,
    pairing: bool,
    fails: bool)

  function VerbOf(s: string): Option<Verb> {
    if s == "pair" then Some(Pair)
    else if s == "restart" then Some(Restart)
    else if s == "reboot" then Some(Reboot)
    else None
  }

  /** The verbs and no others. */
  lemma VerbNames(s: string)
    ensures VerbOf(s) == Some(Pair) <==> s == "pair"
    ensures VerbOf(s) == Some(Restart) <==> s == "restart"
    ensures VerbOf(s) == Some(Reboot) <==> s == "reboot"
  {
  }

  /** The console user's own request, closed to other writers, for a verb there is, and quoting the nonce. */
  predicate Acceptable(e: Entry, owner: Option<nat>, nonce: string) {
    && e.Opened? && e.regular && owner == Some(e.uid) && !e.loose && e.body.Fields? && VerbOf(e.body.verb).Some?
    && nonce != "" && e.body.nonce == nonce
  }

  predicate Quotes(e: Entry, nonce: string) {
    e.Opened? && e.body.Fields? && e.body.nonce == nonce
  }

  /** A refusal is answered exactly when the request is the console user's. */
  method AcceptRequest(e: Entry, owner: Option<nat>, nonce: string) returns (verb: Option<Verb>, answered: bool)
    ensures verb.Some? <==> Acceptable(e, owner, nonce)
    ensures verb.Some? <==>
            && e.Opened? && e.regular && owner == Some(e.uid) && !e.loose
            && e.body.Fields? && e.body.verb in {"pair", "restart", "reboot"} && e.body.nonce == nonce != ""
    ensures verb.Some? ==> verb == VerbOf(e.body.verb)
    ensures answered <==> e.Opened? && e.regular && owner == Some(e.uid) && verb.None?
  {
    match e {
      case Unopenable => return None, false;
      case Opened(regular, uid, loose, body) =>
        if !regular || owner.None? || uid != owner.value {
          return None, false;
        }
        if loose || !body.Fields? {
          return None, true;
        }
        verb := VerbOf(body.verb);
        if verb.None? || nonce == "" || body.nonce != nonce {
          return None, true;
        }
        return verb, false;
    }
  }

  /** What the nonce file holds once a nonce has been issued. */
  function Reissued(was: Option<string>, candidate: string, removes: bool, writable: bool): Option<string> {
    if was.Some? && !removes then was else if writable then Some(candidate) else None
  }

  class Seam {
    /** The nonce file's content, if the file is there and is the daemon's own. */
    var nonceFile: Option<string>
    var audit: Audit
    const limits: Limits

    predicate Valid()
      reads this
    {
      Shaped(audit, limits) && Sound(limits)
    }

    constructor (limits: Limits)
      requires Sound(limits)
      ensures Valid() && nonceFile == None && audit.rows == [] && this.limits == limits
    {
      nonceFile, audit, this.limits := None, Audit([], 0, 0), limits;
    }

    /** Creation is exclusive: an old file that could not be removed stays, and then, as in a tree that cannot be
        written, there is no nonce to quote. */
    method IssueRequestNonce(candidate: string, removes: bool, writable: bool) returns (nonce: string)
      modifies `nonceFile
      ensures nonceFile == Reissued(old(nonceFile), candidate, removes, writable)
      ensures nonceFile == if old(nonceFile).Some? && !removes then old(nonceFile)
                           else if writable then Some(candidate) else None
      ensures nonce == if (removes || old(nonceFile).None?) && writable then candidate else ""
    {
      if removes {
        nonceFile := None;
      }
      if nonceFile.Some? || !writable {
        return "";
      }
      nonceFile := Some(candidate);
      return candidate;
    }

    /** The current nonce; one is published when there is none, or an empty one. */
    method RequestNonce(candidate: string, removes: bool, writable: bool) returns (nonce: string)
      modifies `nonceFile
      ensures var was := old(nonceFile);
              if was.Some? && was.value != "" then nonce == was.value && nonceFile == was
              else && nonceFile == Reissued(was, candidate, removes, writable)
                   && nonce == if (removes || was.None?) && writable then candidate else ""
    {
      if nonceFile.Some? && nonceFile.value != "" {
        return nonceFile.value;
      }
      nonce := IssueRequestNonce(candidate, removes, writable);
    }

    method WriteRow(row: Row)
      requires Valid()
      modifies `audit
      ensures Valid() && audit == Append(old(audit), row, limits) && audit.rows == old(audit.rows) + [row]
    {
      audit := Append(audit, row, limits);
    }

    /** The row of a verb to be run is written before it runs; a pairing in flight and a window still open are
        recorded as what they are, and a failure adds a row of its own. */
    method ExecuteRequest(verb: Verb, c: Circumstances) returns (row: Row)
      requires Valid()
      modifies `audit
      ensures Valid() && row.verb == verb
      ensures var outcome := OutcomeOf(old(audit), verb, c.pairing, c.now, limits);
              && audit.rows == old(audit.rows) + [Row(verb, outcome, c.now)]
                               + (if outcome == Executed && c.fails then [Row(verb, Failed, c.now)] else [])
              && row == audit.rows[|audit.rows| - 1]
    {
      if verb == Pair && c.pairing {
        row := Row(verb, InProgress, c.now);
        WriteRow(row);
        return;
      }
      if Limited(verb) {
        var waited := SecondsSinceLast(audit, verb, c.now, limits);
        if waited.Some? && waited.value < RATE_LIMIT {
          row := Row(verb, RateLimited, c.now);
          WriteRow(row);
          return;
        }
      }
      row := Row(verb, Executed, c.now);
      WriteRow(row);
      if c.fails {
        row := Row(verb, Failed, c.now);
        WriteRow(row);
      }
    }

    /** A batch yields one row at most: the first request acceptable under the nonce that was current is honoured,
        and every request after it is refused, since none can quote the nonces drawn meanwhile. */
    method DrainPrivilegedRequests(
        entries: seq<Entry>, owner: Option<nat>, first: Circumstances, each: seq<Circumstances>)
      returns (rows: seq<Row>)
      requires Valid() && |each| == |entries|
      requires forall e :: e in entries ==> !Quotes(e, first.candidate)
      requires forall e, c :: e in entries && c in each ==> !Quotes(e, c.candidate)
      modifies this
      ensures Valid()
      ensures var n := old(nonceFile);
              && (|rows| == 1 <==>
                    n.Some? && exists i :: 0 <= i < |entries| && Acceptable(entries[i], owner, n.value))
              && |rows| <= 1
              && (rows == [] ==> audit == old(audit))
              && (|rows| == 1 ==> FirstHonoured(entries, owner, n, |entries|, rows[0], each, nonceFile))
    {
      ghost var current := nonceFile;
      var nonce := RequestNonce(first.candidate, first.removes, first.writable);
      rows := [];
      for i := 0 to |entries|
        invariant Valid() && |rows| <= 1
        invariant rows == [] ==> audit == old(audit)
        invariant rows == [] && current.Some? && current.value != "" ==> nonce == current.value && nonceFile == current
        invariant rows == [] && !(current.Some? && current.value != "") ==> nonce == "" || nonce == first.candidate
        invariant rows == [] && current.Some? ==>
                    forall k :: 0 <= k < i ==> !Acceptable(entries[k], owner, current.value)
        invariant |rows| == 1 ==> nonce == "" || exists c :: c in each && c.candidate == nonce
        invariant |rows| == 1 ==> FirstHonoured(entries, owner, current, i, rows[0], each, nonceFile)
      {
        var verb, answered := AcceptRequest(entries[i], owner, nonce);
        assert entries[i] in entries && each[i] in each;
        if verb.Some? {
          nonce := IssueRequestNonce(each[i].candidate, each[i].removes, each[i].writable);
          var row := ExecuteRequest(verb.value, each[i]);
          rows := rows + [row];
        }
      }
    }
  }

  /** Among the first `upTo` entries, the first acceptable one gave the row and its nonce is the one published. */
  ghost predicate FirstHonoured(
      entries: seq<Entry>, owner: Option<nat>, current: Option<string>, upTo: nat, row: Row,
      each: seq<Circumstances>, published: Option<string>)
    requires upTo <= |entries| == |each|
  {
    current.Some? && exists i ::
      && 0 <= i < upTo && Acceptable(entries[i], owner, current.value)
      && (forall k :: 0 <= k < i ==> !Acceptable(entries[k], owner, current.value))
      && Some(row.verb) == VerbOf(entries[i].body.verb)
      && published == Reissued(current, each[i].candidate, each[i].removes, each[i].writable)
  }
}
