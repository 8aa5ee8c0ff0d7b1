/** The polling loop behind a document listener: it delivers the document each time it has changed, and a
    delivery counts only when its callback returns. Digests are compared as the documents they digest. */
module DocumentListener {
  import opened Json

  type Document = Option<Json>

  /** One turn of the loop: the read, whether a callback made in it would return, whether its sleep is cut short. */
  datatype Poll = Poll(read: Read, callbackReturns: bool, woken: bool)
  datatype Read = Success(doc: Document) | Failure

  /** A callback that was made, and whether it returned. */
  datatype Call = Call(doc: Document, returned: bool)

  // ---------- what a run of polls calls ----------

  /** The callbacks of a run, `last` being the last document whose delivery counted. */
  function Calls(last: Document, polls: seq<Poll>): seq<Call>
    decreases polls
  {
    if polls == [] then []
    else
      match polls[0].read
      case Failure => Calls(last, polls[1..])
      case Success(doc) =>
        if doc == last then Calls(last, polls[1..])
        else
          [Call(doc, polls[0].callbackReturns)] + Calls(if polls[0].callbackReturns then doc else last, polls[1..])
  }

  function Returned(calls: seq<Call>): seq<Document> {
    if calls == [] then []
    else (if calls[0].returned then [calls[0].doc] else []) + Returned(calls[1..])
  }

  /** The documents read, leaving out failed reads and those whose callback raises. */
  function Accepted(polls: seq<Poll>): seq<Document> {
    if polls == [] then []
    else (if polls[0].read.Success? && polls[0].callbackReturns then [polls[0].read.doc] else []) + Accepted(polls[1..])
  }

  /** A sequence without the elements equal to the one before, the first being compared with `last`. */
  function Destutter(last: Document, docs: seq<Document>): seq<Document>
    decreases docs
  {
    if docs == [] then []
    else if docs[0] == last then Destutter(last, docs[1..])
    else [docs[0]] + Destutter(docs[0], docs[1..])
  }

  lemma ReturnedFirst(call: Call, calls: seq<Call>)
    ensures Returned([call] + calls) == (if call.returned then [call.doc] else []) + Returned(calls)
  {
    assert ([call] + calls)[1..] == calls;
  }

  lemma DestutterFirst(last: Document, doc: Document, docs: seq<Document>)
    ensures Destutter(last, [doc] + docs) == (if doc == last then [] else [doc]) + Destutter(doc, docs)
  {
    assert ([doc] + docs)[1..] == docs;
  }

  /** The callbacks that return are exactly the changes among the documents accepted. */
  lemma {:induction false} DeliveriesAreChanges(last: Document, polls: seq<Poll>)
    ensures Returned(Calls(last, polls)) == Destutter(last, Accepted(polls))
    decreases polls
  {
    if polls != [] {
      var rest, ok := polls[1..], polls[0].callbackReturns;
      match polls[0].read {
        case Failure =>
          DeliveriesAreChanges(last, rest);
          assert Accepted(polls) == Accepted(rest);
        case Success(doc) =>
          var next := if ok then doc else last;
          DeliveriesAreChanges(next, rest);
          if doc != last {
            ReturnedFirst(Call(doc, ok), Calls(next, rest));
          }
          if ok {
            DestutterFirst(last, doc, Accepted(rest));
          } else {
            assert Accepted(polls) == Accepted(rest);
          }
      }
    }
  }

  /** Element i of the sequence differs from the one before it. */
  ghost predicate Changed(last: Document, docs: seq<Document>, i: int) {
    0 <= i < |docs| && docs[i] != if i == 0 then last else docs[i - 1]
  }

  /** Destuttering keeps the documents that differ from the one before, never repeats one, and ends where the
      sequence ends. */
  lemma {:induction false} DestutterKeepsChanges(last: Document, docs: seq<Document>)
    ensures forall d :: d in Destutter(last, docs) <==> exists i :: Changed(last, docs, i) && docs[i] == d
    ensures forall i :: 0 <= i < |Destutter(last, docs)| ==> Changed(last, Destutter(last, docs), i)
    ensures docs != [] ==> ([last] + Destutter(last, docs))[|Destutter(last, docs)|] == docs[|docs| - 1]
    decreases docs
  {
    if docs != [] {
      var next, rest := docs[0], docs[1..];
      DestutterKeepsChanges(next, rest);
      var out, tail := Destutter(last, docs), Destutter(next, rest);
      forall d ensures d in out <==> exists i :: Changed(last, docs, i) && docs[i] == d {
        ChangesOfRest(last, docs, d);
      }
      if next == last {
        assert out == tail;
      } else {
        assert out == [next] + tail;
        assert forall i :: 0 < i < |out| ==> Changed(next, tail, i - 1) ==> Changed(last, out, i);
        assert ([last] + out)[|out|] == ([next] + tail)[|tail|];
      }
    }
  }

  lemma ChangesOfRest(last: Document, docs: seq<Document>, d: Document)
    requires docs != []
    ensures (exists i :: Changed(last, docs, i) && docs[i] == d)
       <==> (docs[0] != last && docs[0] == d) || exists i :: Changed(docs[0], docs[1..], i) && docs[1..][i] == d
  {
    var rest := docs[1..];
    if i :| Changed(last, docs, i) && docs[i] == d {
      if i > 0 {
        assert Changed(docs[0], rest, i - 1) && rest[i - 1] == d;
      }
    }
    if j :| Changed(docs[0], rest, j) && rest[j] == d {
      assert Changed(last, docs, j + 1) && docs[j + 1] == d;
    }
    if docs[0] != last && docs[0] == d {
      assert Changed(last, docs, 0);
    }
  }

  // ---------- the loop ----------

  /** The last document that counts, after one more poll. */
  function After(last: Document, poll: Poll): Document {
    if poll.read.Success? && poll.callbackReturns then poll.read.doc else last
  }

  lemma FirstCall(last: Document, polls: seq<Poll>)
    requires polls != []
    ensures Calls(last, polls) == Calls(last, [polls[0]]) + Calls(After(last, polls[0]), polls[1..])
  {
    assert [polls[0]][1..] == [];
  }

  lemma CallsStep(made: seq<Call>, last: Document, polls: seq<Poll>, all: seq<Call>)
    requires polls != [] && made + Calls(last, polls) == all
    ensures (made + Calls(last, [polls[0]])) + Calls(After(last, polls[0]), polls[1..]) == all
  {
    FirstCall(last, polls);
    var first, rest := Calls(last, [polls[0]]), Calls(After(last, polls[0]), polls[1..]);
    assert made + (first + rest) == (made + first) + rest;
  }

  /** An idle poll waits longer, up to the longest wait. */
  function Lengthened(interval: real, multiplier: real, longest: real): (r: real)
    requires 0.0 < interval <= longest && 1.0 <= multiplier
    ensures interval <= r <= longest
  {
    assert interval * (multiplier - 1.0) >= 0.0;
    if interval * multiplier < longest then interval * multiplier else longest
  }

  class Listener {
    const minInterval: real
    const maxInterval: real
    const backoffMultiplier: real
    /** None before any document was delivered. */
    var lastData: Option<Document>
    var lastHash: Document
    var currentInterval: real
    var consecutiveErrors: nat

    ghost predicate Valid()
      reads this
    {
      && 0.0 < minInterval <= maxInterval && 1.0 <= backoffMultiplier
      && minInterval <= currentInterval <= maxInterval
      && (lastHash.Some? ==> lastData.Some?)
    }

    constructor (minInterval: real, maxInterval: real, backoffMultiplier: real)
      requires 0.0 < minInterval <= maxInterval && 1.0 <= backoffMultiplier
      ensures Valid() && lastHash == None
    {
      this.minInterval, this.maxInterval, this.backoffMultiplier := minInterval, maxInterval, backoffMultiplier;
      lastData, lastHash, currentInterval, consecutiveErrors := None, None, minInterval, 0;
    }

    /** One turn: at most one callback, and the digest advanced only past a callback that returned. */
    method Turn(poll: Poll) returns (calls: seq<Call>)
      requires Valid()
      modifies this
      ensures Valid()
      ensures calls == Calls(old(lastHash), [poll])
      ensures lastHash == After(old(lastHash), poll)
      ensures consecutiveErrors == if poll.read.Failure? then old(consecutiveErrors) + 1
                                   else if calls != [] && !calls[0].returned then 1 else 0
      ensures poll.read.Success? && poll.read.doc == old(lastHash) && !poll.woken ==>
                currentInterval == if old(currentInterval) * backoffMultiplier < maxInterval
                                   then old(currentInterval) * backoffMultiplier else maxInterval
      ensures calls != [] || poll.read.Failure? || poll.woken ==> currentInterval == minInterval
    {
      calls := [];
      if poll.read.Failure? {
        consecutiveErrors, currentInterval := consecutiveErrors + 1, minInterval;
        return;
      }
      consecutiveErrors := 0;
      var current := poll.read.doc;
      if current != lastHash {
        currentInterval := minInterval;
        if lastData.Some? || current.Some? {
          calls := [Call(current, poll.callbackReturns)];
          if !poll.callbackReturns {
            consecutiveErrors, currentInterval := consecutiveErrors + 1, minInterval;
            return;
          }
        }
        lastData, lastHash := Some(current), current;
      } else {
        currentInterval := Lengthened(currentInterval, backoffMultiplier, maxInterval);
      }
      if poll.woken {
        currentInterval := minInterval;
      }
    }

    /** A whole run of the loop makes exactly the calls of `Calls`, from "absent". */
    method Run(polls: seq<Poll>) returns (calls: seq<Call>)
      requires Valid() && lastHash == None
      modifies this
      ensures Valid()
      ensures calls == Calls(None, polls)
      ensures Returned(calls) == Destutter(None, Accepted(polls))
    {
      calls := [];
      var i := 0;
      assert polls[0..] == polls;
      while i < |polls|
        invariant 0 <= i <= |polls|
        invariant Valid()
        invariant calls + Calls(lastHash, polls[i..]) == Calls(None, polls)
      {
        ghost var before, rest := lastHash, polls[i..];
        var made := Turn(polls[i]);
        CallsStep(calls, before, rest, Calls(None, polls));
        assert rest[0] == polls[i] && rest[1..] == polls[i + 1..];
        calls := calls + made;
        i := i + 1;
      }
      assert polls[|polls|..] == [] && Calls(lastHash, []) == [];
      DeliveriesAreChanges(None, polls);
    }
  }
}
