/** The document server: a write is its field mask, then its transforms. */
module FirestoreServer {
  import opened Json
  import opened FieldPaths

  /** One write request: a body, the mask (none, or empty, means replace the document), the transforms. */
  datatype Write = Write(body: Json, mask: seq<Path>, transforms: seq<Path>)

  /** A masked path present in the body is set, one absent from it is deleted, the rest is untouched. */
  function ApplyMask(d: Json, body: Json, mask: seq<Path>): Json
    requires forall i :: 0 <= i < |mask| ==> mask[i] != []
  {
    if mask == [] then d
    else
      var n := |mask| - 1;
      var before := ApplyMask(d, body, mask[..n]);
      match Lookup(body, mask[n])
      case Some(v) => SetAt(before, mask[n], v)
      case None => DeleteAt(before, mask[n])
  }

  /** REQUEST_TIME transforms, after the update they travel with. */
  function ApplyTransforms(d: Json, paths: seq<Path>, requestTime: string): Json {
    SetAll(d, Entries(paths, requestTime))
  }

  function Entries(paths: seq<Path>, requestTime: string): seq<Entry> {
    seq(|paths|, i requires 0 <= i < |paths| => Entry(paths[i], Str(requestTime)))
  }

  function ServerWrite(stored: Option<Json>, w: Write, requestTime: string): Json
    requires forall i :: 0 <= i < |w.mask| ==> w.mask[i] != []
  {
    var updated := if w.mask == [] then w.body
                   else ApplyMask(match stored case None => EMPTY case Some(d) => d, w.body, w.mask);
    ApplyTransforms(updated, w.transforms, requestTime)
  }

  function Stored(stored: Option<Json>): Json {
    match stored case None => EMPTY case Some(d) => d
  }

  // ---------- masks whose paths are all in the body ----------

  function BodyEntries(body: Json, paths: seq<Path>): seq<Entry> {
    seq(|paths|, i requires 0 <= i < |paths| =>
      Entry(paths[i], match Lookup(body, paths[i]) case None => EMPTY case Some(v) => v))
  }

  lemma {:induction false} MaskIsEntries(d: Json, body: Json, mask: seq<Path>)
    requires forall i :: 0 <= i < |mask| ==> mask[i] != [] && Lookup(body, mask[i]).Some?
    ensures ApplyMask(d, body, mask) == SetAll(d, BodyEntries(body, mask))
  {
    if mask != [] {
      var n := |mask| - 1;
      MaskIsEntries(d, body, mask[..n]);
      assert BodyEntries(body, mask)[..n] == BodyEntries(body, mask[..n]);
    }
  }

  lemma {:induction false} MaskAppend(d: Json, body: Json, a: seq<Path>, b: seq<Path>)
    requires forall i :: 0 <= i < |a| ==> a[i] != []
    requires forall i :: 0 <= i < |b| ==> b[i] != []
    ensures ApplyMask(d, body, a + b) == ApplyMask(ApplyMask(d, body, a), body, b)
  {
    if b == [] {
      assert a + b == a;
    } else {
      assert (a + b)[..|a + b| - 1] == a + b[..|b| - 1];
      MaskAppend(d, body, a, b[..|b| - 1]);
    }
  }

  // ---------- deleting before setting ----------

  lemma SetAfterDelete(d: Json, p: Path, v: Json)
    requires p != []
    ensures SetAt(DeleteAt(d, p), p, v) == SetAt(d, p, v)
  {
    forall q: Path
      ensures SlotAt(SetAt(DeleteAt(d, p), p, v), q) == SlotAt(SetAt(d, p, v), q)
    {
      SlotAfterSet(DeleteAt(d, p), p, v, q);
      SlotAfterDelete(d, p, q);
      SlotAfterSet(d, p, v, q);
    }
    Extensionality(SetAt(DeleteAt(d, p), p, v), SetAt(d, p, v));
  }

  lemma DeleteSetCommute(d: Json, p: Path, q: Path, v: Json)
    requires p != [] && !Comparable(p, q)
    ensures SetAt(DeleteAt(d, p), q, v) == DeleteAt(SetAt(d, q, v), p)
  {
    forall r: Path
      ensures SlotAt(SetAt(DeleteAt(d, p), q, v), r) == SlotAt(DeleteAt(SetAt(d, q, v), p), r)
    {
      SlotAfterSet(DeleteAt(d, p), q, v, r);
      SlotAfterDelete(d, p, r);
      SlotAfterSet(d, q, v, r);
      SlotAfterDelete(SetAt(d, q, v), p, r);
      PrefixOrder(p, r, q);
    }
    Extensionality(SetAt(DeleteAt(d, p), q, v), DeleteAt(SetAt(d, q, v), p));
  }

  lemma {:induction false} DeleteSetAllCommute(d: Json, p: Path, es: seq<Entry>)
    requires p != []
    requires forall i :: 0 <= i < |es| ==> !Comparable(p, es[i].path)
    ensures SetAll(DeleteAt(d, p), es) == DeleteAt(SetAll(d, es), p)
  {
    if es != [] {
      var n := |es| - 1;
      DeleteSetAllCommute(d, p, es[..n]);
      DeleteSetCommute(SetAll(d, es[..n]), p, es[n].path, es[n].value);
    }
  }

  /** Transforms restore every masked timestamp path the mask has just deleted. */
  lemma {:induction false} StampsOverDeletes(d: Json, body: Json, stamps: seq<Path>, requestTime: string)
    requires forall i :: 0 <= i < |stamps| ==> stamps[i] != [] && Lookup(body, stamps[i]).None?
    requires forall i, j :: 0 <= i < j < |stamps| ==> !Comparable(stamps[i], stamps[j])
    ensures ApplyTransforms(ApplyMask(d, body, stamps), stamps, requestTime) == ApplyTransforms(d, stamps, requestTime)
  {
    if stamps != [] {
      var n := |stamps| - 1;
      var early, s := stamps[..n], stamps[n];
      var x := ApplyMask(d, body, early);
      var es := Entries(early, requestTime);
      StampsOverDeletes(d, body, early, requestTime);
      assert Entries(stamps, requestTime)[..n] == es;
      DeleteSetAllCommute(x, s, es);
      SetAfterDelete(SetAll(x, es), s, Str(requestTime));
    }
  }
}
