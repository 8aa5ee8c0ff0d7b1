/** The request a payload becomes, and what the server makes of it. */
module PayloadWrite {
  import opened Json
  import opened FieldPaths
  import opened FirestoreCodec
  import opened MergeWrite
  import opened FirestoreServer

  lemma BodyLeaf(data: Json, p: Path, rt: string, ct: string)
    requires data.Obj? && IsLeaf(Clean(data), p)
    ensures p != [] && IsLeaf(data, p)
    ensures Lookup(ClientStamped(Clean(data), ct), p).Some?
    ensures SlotAt(Resolve(data, rt, ct), p) == Leaf(Lookup(ClientStamped(Clean(data), ct), p).value)
  {
    CleanLeaves(data, p);
    StampedLeaves(Clean(data), ct, p);
    ResolveLeaves(data, rt, ct, p);
  }

  lemma StampedLeaf(data: Json, p: Path, rt: string, ct: string)
    requires data.Obj? && SlotAt(data, p) == Leaf(STAMP)
    ensures p != []
    ensures Lookup(ClientStamped(Clean(data), ct), p).None?
    ensures !IsLeaf(Clean(data), p)
    ensures SlotAt(Resolve(data, rt, ct), p) == Leaf(Str(rt))
  {
    CleanLeaves(data, p);
    StampNotInBody(data, ct, p);
    ResolveLeaves(data, rt, ct, p);
  }

  lemma ResolvedComesFrom(data: Json, p: Path, rt: string, ct: string)
    requires data.Obj? && IsLeaf(Resolve(data, rt, ct), p)
    ensures p != [] && IsLeaf(data, p) && p[0] in data.fields
    ensures SlotAt(data, p) == Leaf(STAMP) || (IsLeaf(Clean(data), p) && p[0] in Clean(data).fields)
  {
    ResolveLeaves(data, rt, ct, p);
    CleanLeaves(data, p);
    SlotStep(data, p);
    SlotStep(Clean(data), p);
  }

  lemma EnumeratedBody(data: Json, flat: seq<Path>, p: Path, rt: string, ct: string)
    requires data.Obj? && Enumerates(flat, [], Clean(data), AnyLeaf, Clean(data).fields.Keys) && p in flat
    ensures p != [] && IsLeaf(data, p) && IsLeaf(Clean(data), p)
    ensures Lookup(ClientStamped(Clean(data), ct), p).Some?
    ensures SlotAt(Resolve(data, rt, ct), p) == Leaf(Lookup(ClientStamped(Clean(data), ct), p).value)
  {
    assert EnumeratedPath(p, [], Clean(data), AnyLeaf, Clean(data).fields.Keys);
    assert p[0..] == p;
    BodyLeaf(data, p, rt, ct);
  }

  lemma EnumeratedStamp(data: Json, stamps: seq<Path>, p: Path, rt: string, ct: string)
    requires data.Obj? && Enumerates(stamps, [], data, StampLeaf, data.fields.Keys) && p in stamps
    ensures p != [] && IsLeaf(data, p) && !IsLeaf(Clean(data), p)
    ensures Lookup(ClientStamped(Clean(data), ct), p).None?
    ensures SlotAt(Resolve(data, rt, ct), p) == Leaf(Str(rt))
  {
    assert EnumeratedPath(p, [], data, StampLeaf, data.fields.Keys);
    assert p[0..] == p;
    StampedLeaf(data, p, rt, ct);
  }

  /** No mask path of a payload, leaf or timestamp, is a prefix of another. */
  lemma MaskIncomparable(data: Json, flat: seq<Path>, stamps: seq<Path>)
    requires data.Obj?
    requires Enumerates(flat, [], Clean(data), AnyLeaf, Clean(data).fields.Keys)
    requires Enumerates(stamps, [], data, StampLeaf, data.fields.Keys)
    ensures Incomparable(flat + stamps)
  {
    var all := flat + stamps;
    forall p | p in flat ensures IsLeaf(data, p) && IsLeaf(Clean(data), p) {
      EnumeratedBody(data, flat, p, "", "");
    }
    forall p | p in stamps ensures IsLeaf(data, p) && !IsLeaf(Clean(data), p) {
      EnumeratedStamp(data, stamps, p, "", "");
    }
    forall i, j | 0 <= i < j < |all| ensures !Comparable(all[i], all[j]) {
      LeavesIncomparable(data, all[i], all[j]);
      assert all[i] == (if i < |flat| then flat[i] else stamps[i - |flat|]);
      assert all[j] == (if j < |flat| then flat[j] else stamps[j - |flat|]);
    }
  }

  lemma ListsByPath(es: seq<Entry>, all: seq<Path>, r: Json)
    requires |es| == |all| && Incomparable(all)
    requires forall i ::
             0 <= i < |es| ==> es[i].path == all[i] && all[i] != [] && SlotAt(r, all[i]) == Leaf(es[i].value)
    requires forall p: Path :: IsLeaf(r, p) ==> p in all
    ensures Lists(es, r)
  {
    forall p: Path | IsLeaf(r, p) ensures exists i :: 0 <= i < |es| && es[i].path == p {
      var i :| 0 <= i < |all| && all[i] == p;
      assert es[i].path == p;
    }
  }

  /** The body leaves and the timestamps of a payload list, together, the leaves of the resolved payload. */
  lemma PayloadLeaves(data: Json, flat: seq<Path>, stamps: seq<Path>, rt: string, ct: string)
    requires data.Obj?
    requires Enumerates(flat, [], Clean(data), AnyLeaf, Clean(data).fields.Keys)
    requires Enumerates(stamps, [], data, StampLeaf, data.fields.Keys)
    ensures Incomparable(flat + stamps)
    ensures forall i :: 0 <= i < |flat| ==> flat[i] != [] && Lookup(ClientStamped(Clean(data), ct), flat[i]).Some?
    ensures forall i :: 0 <= i < |stamps| ==> stamps[i] != [] && Lookup(ClientStamped(Clean(data), ct), stamps[i]).None?
    ensures Lists(BodyEntries(ClientStamped(Clean(data), ct), flat) + Entries(stamps, rt), Resolve(data, rt, ct))
  {
    var body := ClientStamped(Clean(data), ct);
    var all := flat + stamps;
    var r := Resolve(data, rt, ct);
    MaskIncomparable(data, flat, stamps);
    forall i | 0 <= i < |flat|
      ensures flat[i] != [] && Lookup(body, flat[i]).Some? && SlotAt(r, flat[i]) == Leaf(Lookup(body, flat[i]).value)
    {
      EnumeratedBody(data, flat, flat[i], rt, ct);
    }
    forall i | 0 <= i < |stamps|
      ensures stamps[i] != [] && Lookup(body, stamps[i]).None? && SlotAt(r, stamps[i]) == Leaf(Str(rt))
    {
      EnumeratedStamp(data, stamps, stamps[i], rt, ct);
    }
    forall p: Path | IsLeaf(r, p) ensures p in all {
      EveryLeafMasked(data, flat, stamps, p, rt, ct);
    }
    ListsByPath(BodyEntries(body, flat) + Entries(stamps, rt), all, r);
  }

  lemma EveryLeafMasked(data: Json, flat: seq<Path>, stamps: seq<Path>, p: Path, rt: string, ct: string)
    requires data.Obj? && IsLeaf(Resolve(data, rt, ct), p)
    requires Enumerates(flat, [], Clean(data), AnyLeaf, Clean(data).fields.Keys)
    requires Enumerates(stamps, [], data, StampLeaf, data.fields.Keys)
    ensures p in flat + stamps
  {
    ResolvedComesFrom(data, p, rt, ct);
    assert [] + p == p;
  }

  lemma {:induction false} StampNotInBody(data: Json, ct: string, p: Path)
    requires SlotAt(data, p) == Leaf(STAMP) && p != []
    ensures Lookup(ClientStamped(Clean(data), ct), p).None?
    decreases p
  {
    SlotStep(data, p);
    var child := data.fields[p[0]];
    if |p| > 1 {
      StampNotInBody(child, ct, p[1..]);
    } else {
      assert p[1..] == [];
    }
  }

  /** Putting the request time at every timestamp of the cleaned payload gives the resolved payload. */
  lemma StampedBody(data: Json, stamps: seq<Path>, rt: string, ct: string)
    requires data.Obj? && Enumerates(stamps, [], data, StampLeaf, data.fields.Keys)
    ensures SetAll(ClientStamped(Clean(data), ct), Entries(stamps, rt)) == Resolve(data, rt, ct)
  {
    var body, es, r := ClientStamped(Clean(data), ct), Entries(stamps, rt), Resolve(data, rt, ct);
    CleanCompact(data);
    StampedCompact(Clean(data), ct);
    ResolveCompact(data, rt, ct);
    forall i | 0 <= i < |es|
      ensures es[i].path != [] && SlotAt(data, es[i].path) == Leaf(STAMP)
    {
      assert EnumeratedPath(stamps[i], [], data, StampLeaf, data.fields.Keys);
      assert stamps[i][0..] == stamps[i];
    }
    forall i, j | 0 <= i < j < |es|
      ensures !Comparable(es[i].path, es[j].path)
    {
      LeavesIncomparable(data, es[i].path, es[j].path);
    }
    CompactSetAll(body, es);
    forall p: Path
      ensures IsLeaf(SetAll(body, es), p) || IsLeaf(r, p) ==> SlotAt(SetAll(body, es), p) == SlotAt(r, p)
    {
      StampedSlot(data, stamps, rt, ct, p);
    }
    CompactByLeaves(SetAll(body, es), r);
  }

  lemma StampedSlot(data: Json, stamps: seq<Path>, rt: string, ct: string, p: Path)
    requires data.Obj? && Enumerates(stamps, [], data, StampLeaf, data.fields.Keys)
    requires var es := Entries(stamps, rt);
             && PrefixFree(es)
             && forall i :: 0 <= i < |es| ==> es[i].path != [] && SlotAt(data, es[i].path) == Leaf(STAMP)
    ensures SameLeaf(SlotAt(SetAll(ClientStamped(Clean(data), ct), Entries(stamps, rt)), p),
            SlotAt(Resolve(data, rt, ct), p))
  {
    var body, es := ClientStamped(Clean(data), ct), Entries(stamps, rt);
    ResolveLeaves(data, rt, ct, p);
    if SlotAt(data, p) == Leaf(STAMP) {
      SlotStep(data, p);
      assert [] + p == p;
      assert p in stamps;
      var i :| 0 <= i < |stamps| && stamps[i] == p;
      assert es[i].path == p && p[|p|..] == [];
      SlotAtEntry(body, es, i, p);
    } else if i :| 0 <= i < |es| && es[i].path <= p {
      SlotAtEntry(body, es, i, p);
      LeafPath(data, es[i].path, p);
      assert p[|es[i].path|..] != [];
    } else if i :| 0 <= i < |es| && p < es[i].path {
      SlotAboveEntry(body, es, i, p);
      LeafPath(data, p, es[i].path);
    } else {
      SlotAwayFromEntries(body, es, p);
      CleanLeaves(data, p);
      StampedLeaves(Clean(data), ct, p);
    }
  }

  lemma {:induction false} StampedCompact(d: Json, ct: string)
    requires Compact(d)
    ensures Compact(ClientStamped(d, ct)) && ClientStamped(d, ct).Obj? == d.Obj?
            && (ClientStamped(d, ct) == EMPTY <==> d == EMPTY)
  {
    if d.Obj? {
      forall k | k in d.fields
        ensures Compact(ClientStamped(d.fields[k], ct)) && ClientStamped(d.fields[k], ct) != EMPTY
      {
        StampedCompact(d.fields[k], ct);
      }
      assert ClientStamped(d, ct).fields.Keys == d.fields.Keys;
      assert d.fields.Keys == {} ==> d.fields == map[];
    }
  }

  lemma NoLeafNoData(data: Json, flat: seq<Path>, ct: string)
    requires data.Obj? && Enumerates(flat, [], Clean(data), AnyLeaf, Clean(data).fields.Keys)
    ensures flat == [] ==> ClientStamped(Clean(data), ct) == EMPTY
  {
    CleanCompact(data);
    StampedCompact(Clean(data), ct);
    if Clean(data) != EMPTY {
      var p := SomeLeaf(Clean(data));
      SlotStep(Clean(data), p);
      assert [] + p in flat;
    }
  }

  lemma {:induction false} MaskedPayload(d: Json, data: Json, flat: seq<Path>, stamps: seq<Path>, rt: string,
      ct: string)
    requires d.Obj? && data.Obj?
    requires Enumerates(flat, [], Clean(data), AnyLeaf, Clean(data).fields.Keys)
    requires Enumerates(stamps, [], data, StampLeaf, data.fields.Keys)
    ensures forall i :: 0 <= i < |flat + stamps| ==> (flat + stamps)[i] != []
    ensures ApplyTransforms(ApplyMask(d, ClientStamped(Clean(data), ct), flat + stamps), stamps, rt)
            == DeepMerge(d, Resolve(data, rt, ct))
  {
    PayloadLeaves(data, flat, stamps, rt, ct);
    var body := ClientStamped(Clean(data), ct);
    var be, te := BodyEntries(body, flat), Entries(stamps, rt);
    MaskAppend(d, body, flat, stamps);
    MaskIsEntries(d, body, flat);
    assert Incomparable(stamps) by {
      IncomparableSuffix(flat, stamps);
    }
    StampsOverDeletes(SetAll(d, be), body, stamps, rt);
    SetAllAppend(d, be, te);
    ResolveCompact(data, rt, ct);
    Rebuild(Resolve(data, rt, ct), be + te);
    SetAllIsMerge(d, be + te);
  }

  lemma IncomparableSuffix(a: seq<Path>, b: seq<Path>)
    requires Incomparable(a + b)
    ensures Incomparable(b)
  {
    forall i, j | 0 <= i < j < |b|
      ensures !Comparable(b[i], b[j])
    {
      assert (a + b)[|a| + i] == b[i] && (a + b)[|a| + j] == b[j];
    }
  }

  /** The mask is empty exactly when nothing is left of the payload. */
  lemma MaskEmptiness(data: Json, flat: seq<Path>, stamps: seq<Path>, rt: string, ct: string)
    requires data.Obj?
    requires Enumerates(flat, [], Clean(data), AnyLeaf, Clean(data).fields.Keys)
    requires Enumerates(stamps, [], data, StampLeaf, data.fields.Keys)
    ensures flat + stamps == [] <==> Resolve(data, rt, ct) == EMPTY
  {
    PayloadLeaves(data, flat, stamps, rt, ct);
    ResolveCompact(data, rt, ct);
    var es := BodyEntries(ClientStamped(Clean(data), ct), flat) + Entries(stamps, rt);
    if flat + stamps == [] {
      Rebuild(Resolve(data, rt, ct), es);
      assert es == [];
    } else {
      assert |es| > 0;
      assert IsLeaf(Resolve(data, rt, ct), es[0].path);
      NoLeafInEmpty(es[0].path);
    }
  }
}
