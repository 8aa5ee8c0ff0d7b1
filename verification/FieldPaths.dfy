/** Field paths: addressing, setting and deleting one place inside a nested document.

    A path is the list of its segments; how segments are quoted as text is not part of this model. */
module FieldPaths {
  import opened Json

  type Path = seq<string>

  // ---------- looking ----------

  /** What stands at a path: nothing, an object, or a value that is not an object. */
  datatype Slot = Absent | Map | Leaf(value: Json)

  function SlotOf(d: Json): Slot {
    if d.Obj? then Map else Leaf(d)
  }

  function Lookup(d: Json, p: Path): Option<Json> {
    if p == [] then Some(d)
    else if d.Obj? && p[0] in d.fields then Lookup(d.fields[p[0]], p[1..])
    else None
  }

  function SlotAt(d: Json, p: Path): Slot {
    match Lookup(d, p)
    case None => Absent
    case Some(v) => SlotOf(v)
  }

  predicate IsLeaf(d: Json, p: Path) {
    SlotAt(d, p).Leaf?
  }

  predicate Comparable(p: Path, q: Path) {
    p <= q || q <= p
  }

  lemma {:induction false} LookupAppend(d: Json, p: Path, q: Path)
    ensures Lookup(d, p + q) == match Lookup(d, p) case None => None case Some(v) => Lookup(v, q)
  {
    if p == [] {
      assert p + q == q;
    } else {
      assert (p + q)[0] == p[0] && (p + q)[1..] == p[1..] + q;
      if d.Obj? && p[0] in d.fields {
        LookupAppend(d.fields[p[0]], p[1..], q);
      }
    }
  }

  lemma SlotStep(d: Json, q: Path)
    requires q != []
    ensures SlotAt(d, q) == if d.Obj? && q[0] in d.fields then SlotAt(d.fields[q[0]], q[1..]) else Absent
  {
  }

  lemma SlotBelow(d: Json, k: string, q: Path)
    ensures SlotAt(d, [k] + q) == if d.Obj? && k in d.fields then SlotAt(d.fields[k], q) else Absent
  {
    assert ([k] + q)[1..] == q;
  }

  /** A document is determined by what stands at each of its paths. */
  lemma {:induction false} Extensionality(a: Json, b: Json)
    requires forall q: Path :: SlotAt(a, q) == SlotAt(b, q)
    ensures a == b
  {
    assert SlotAt(a, []) == SlotAt(b, []);
    if a.Obj? {
      forall k | k in a.fields || k in b.fields
        ensures k in a.fields && k in b.fields && a.fields[k] == b.fields[k]
      {
        SlotBelow(a, k, []);
        SlotBelow(b, k, []);
        assert SlotAt(a, [k] + []) == SlotAt(b, [k] + []);
        forall q: Path
          ensures SlotAt(a.fields[k], q) == SlotAt(b.fields[k], q)
        {
          SlotBelow(a, k, q);
          SlotBelow(b, k, q);
        }
        Extensionality(a.fields[k], b.fields[k]);
      }
    }
  }

  // ---------- writing ----------

  function FieldsOf(d: Json): map<string, Json> {
    if d.Obj? then d.fields else map[]
  }

  function ChildOr(d: Json, k: string): Json {
    if k in FieldsOf(d) then FieldsOf(d)[k] else EMPTY
  }

  /** Put `v` at `p`, creating objects on the way and replacing what is not one. */
  function SetAt(d: Json, p: Path, v: Json): Json
    decreases p
  {
    if p == [] then v
    else Obj(FieldsOf(d)[p[0] := SetAt(ChildOr(d, p[0]), p[1..], v)])
  }

  /** Remove what stands at `p`; the objects it stood in stay, even when empty. */
  function DeleteAt(d: Json, p: Path): Json
    requires p != []
  {
    if !d.Obj? || p[0] !in d.fields then d
    else if |p| == 1 then Obj(d.fields - {p[0]})
    else Obj(d.fields[p[0] := DeleteAt(d.fields[p[0]], p[1..])])
  }

  lemma {:induction false} SlotAfterSet(d: Json, p: Path, v: Json, q: Path)
    ensures SlotAt(SetAt(d, p, v), q) ==
            if p <= q then SlotAt(v, q[|p|..])
            else if q <= p then Map
            else SlotAt(d, q)
    decreases p
  {
    if p == [] {
      assert q[0..] == q;
    } else if q == [] {
    } else {
      var k := p[0];
      var e := SetAt(d, p, v);
      SlotStep(e, q);
      SlotStep(d, q);
      if k == q[0] {
        SlotAfterSet(ChildOr(d, k), p[1..], v, q[1..]);
        assert p == [k] + p[1..] && q == [k] + q[1..];
        assert p <= q <==> p[1..] <= q[1..];
        assert q <= p <==> q[1..] <= p[1..];
        assert p <= q ==> q[|p|..] == q[1..][|p[1..]|..];
        assert q[1..] != [] ==> SlotAt(EMPTY, q[1..]) == Absent;
      }
    }
  }

  lemma {:induction false} SlotAfterDelete(d: Json, p: Path, q: Path)
    requires p != []
    ensures SlotAt(DeleteAt(d, p), q) == if p <= q then Absent else SlotAt(d, q)
  {
    if !d.Obj? || p[0] !in d.fields {
    } else if q == [] || p[0] != q[0] {
    } else if |p| == 1 {
      assert p <= q;
    } else {
      SlotAfterDelete(d.fields[p[0]], p[1..], q[1..]);
      assert p <= q <==> p[1..] <= q[1..];
    }
  }

  lemma SetAtPrefix(d: Json, p: Path, q: Path, v: Json)
    ensures SetAt(d, p + q, v) == SetAt(d, p, SetAt(match Lookup(d, p) case None => EMPTY case Some(w) => w, q, v))
    decreases p
  {
    if p == [] {
      assert p + q == q;
    } else {
      assert (p + q)[0] == p[0] && (p + q)[1..] == p[1..] + q;
      SetAtPrefix(ChildOr(d, p[0]), p[1..], q, v);
      if p[0] !in FieldsOf(d) {
        assert Lookup(EMPTY, p[1..]) == if p[1..] == [] then Some(EMPTY) else None;
      }
    }
  }

  // ---------- many writes ----------

  datatype Entry = Entry(path: Path, value: Json)

  /** Set every entry, in order. */
  function SetAll(d: Json, es: seq<Entry>): Json {
    if es == [] then d
    else SetAt(SetAll(d, es[..|es| - 1]), es[|es| - 1].path, es[|es| - 1].value)
  }

  ghost predicate PrefixFree(es: seq<Entry>) {
    forall i, j :: 0 <= i < j < |es| ==> !Comparable(es[i].path, es[j].path)
  }

  /** Entries that can be leaves of an object: a place inside it, and not an object there. */
  ghost predicate LeafEntries(es: seq<Entry>) {
    && PrefixFree(es)
    && forall i :: 0 <= i < |es| ==> es[i].path != [] && !es[i].value.Obj?
  }

  lemma SetAllObj(d: Json, es: seq<Entry>)
    requires d.Obj?
    requires forall i :: 0 <= i < |es| ==> es[i].path != []
    ensures SetAll(d, es).Obj?
  {
  }

  lemma {:induction false} SetAllAppend(d: Json, es: seq<Entry>, fs: seq<Entry>)
    ensures SetAll(d, es + fs) == SetAll(SetAll(d, es), fs)
  {
    if fs == [] {
      assert es + fs == es;
    } else {
      assert (es + fs)[..|es + fs| - 1] == es + fs[..|fs| - 1];
      SetAllAppend(d, es, fs[..|fs| - 1]);
    }
  }

  // ---------- the entries of a merge ----------

  /** Nothing on the way to `p` is a value that is not an object. */
  predicate PathClear(d: Json, p: Path) {
    p == [] || (d.Obj? && (p[0] in d.fields && |p| > 1 ==> PathClear(d.fields[p[0]], p[1..])))
  }

  lemma {:induction false} SetKeepsPathClear(d: Json, q: Path, v: Json, p: Path)
    requires PathClear(d, p) && !Comparable(p, q)
    ensures PathClear(SetAt(d, q, v), p)
    decreases p
  {
    if p[0] == q[0] && |p| > 1 {
      assert !Comparable(p[1..], q[1..]) by {
        assert p == [p[0]] + p[1..] && q == [q[0]] + q[1..];
      }
      SetKeepsPathClear(ChildOr(d, p[0]), q[1..], v, p[1..]);
    }
  }

  lemma {:induction false} SetAllPathClear(es: seq<Entry>, p: Path)
    requires forall i :: 0 <= i < |es| ==> !Comparable(es[i].path, p)
    ensures PathClear(SetAll(EMPTY, es), p)
  {
    if es != [] {
      var n := |es| - 1;
      SetAllPathClear(es[..n], p);
      SetKeepsPathClear(SetAll(EMPTY, es[..n]), es[n].path, es[n].value, p);
    }
  }

  lemma SetInNonObject(d: Json, p: Path, v: Json)
    requires !d.Obj? && p != []
    ensures SetAt(d, p, v) == SetAt(EMPTY, p, v)
  {
    assert FieldsOf(d) == FieldsOf(EMPTY);
  }

  lemma {:induction false} MergeSetSlot(d: Json, b: Json, p: Path, v: Json)
    requires d.Obj? && b.Obj? && p != [] && !v.Obj? && PathClear(b, p)
    requires p[1..] != [] && p[0] in d.fields && d.fields[p[0]].Obj? ==>
               DeepMerge(d.fields[p[0]], SetAt(ChildOr(b, p[0]), p[1..], v))
               == SetAt(DeepMerge(d.fields[p[0]], ChildOr(b, p[0])), p[1..], v)
    ensures DeepMerge(d, SetAt(b, p, v)).fields[p[0]] == SetAt(DeepMerge(d, b), p, v).fields[p[0]]
  {
    var k, rest := p[0], p[1..];
    var c := DeepMerge(d, b);
    if rest != [] && k in d.fields {
      if !d.fields[k].Obj? {
        SetInNonObject(d.fields[k], rest, v);
      } else if k !in b.fields {
        DeepMergeEmpty(d.fields[k]);
      }
    }
  }

  lemma SameFields(l: Json, r: Json, k: string)
    requires l.Obj? && r.Obj? && l.fields.Keys == r.fields.Keys && k in l.fields && l.fields[k] == r.fields[k]
    requires forall j :: j in l.fields && j != k ==> l.fields[j] == r.fields[j]
    ensures l == r
  {
    assert l.fields == r.fields;
  }

  lemma MergeSetOthers(d: Json, b: Json, p: Path, v: Json)
    requires d.Obj? && b.Obj? && p != []
    ensures var l, r := DeepMerge(d, SetAt(b, p, v)).fields, SetAt(DeepMerge(d, b), p, v).fields;
            l.Keys == r.Keys && forall j :: j in l && j != p[0] ==> l[j] == r[j]
  {
  }

  /** Setting a value in a patch and then merging is merging and then setting it. */
  lemma {:induction false} MergeSet(d: Json, b: Json, p: Path, v: Json)
    requires d.Obj? && b.Obj? && p != [] && !v.Obj? && PathClear(b, p)
    ensures DeepMerge(d, SetAt(b, p, v)) == SetAt(DeepMerge(d, b), p, v)
  {
    var k, rest := p[0], p[1..];
    if rest != [] && k in d.fields && d.fields[k].Obj? {
      MergeSet(d.fields[k], ChildOr(b, k), rest, v);
    }
    MergeSetSlot(d, b, p, v);
    MergeSetOthers(d, b, p, v);
    SameFields(DeepMerge(d, SetAt(b, p, v)), SetAt(DeepMerge(d, b), p, v), k);
  }

  /** Writing leaves one by one is merging the object those leaves make up. */
  lemma {:induction false} SetAllIsMerge(d: Json, es: seq<Entry>)
    requires d.Obj? && LeafEntries(es)
    ensures SetAll(d, es) == DeepMerge(d, SetAll(EMPTY, es))
  {
    if es == [] {
      DeepMergeEmpty(d);
    } else {
      var n := |es| - 1;
      SetAllIsMerge(d, es[..n]);
      SetAllObj(EMPTY, es[..n]);
      SetAllPathClear(es[..n], es[n].path);
      MergeSet(d, SetAll(EMPTY, es[..n]), es[n].path, es[n].value);
    }
  }

  // ---------- compact objects are the leaves they hold ----------

  /** No object strictly inside `d` is empty. */
  predicate Compact(d: Json) {
    d.Obj? ==> forall k :: k in d.fields ==> d.fields[k] != EMPTY && Compact(d.fields[k])
  }

  lemma {:induction false} SomeLeaf(d: Json) returns (p: Path)
    requires Compact(d) && d != EMPTY
    ensures IsLeaf(d, p)
  {
    if d.Obj? {
      assert d.fields.Keys != {} by {
        assert d.fields != map[];
      }
      var k :| k in d.fields;
      var q := SomeLeaf(d.fields[k]);
      p := [k] + q;
      assert p[1..] == q;
    } else {
      p := [];
    }
  }

  ghost predicate SameLeaves(a: Json, b: Json) {
    forall p: Path :: IsLeaf(a, p) || IsLeaf(b, p) ==> SlotAt(a, p) == SlotAt(b, p)
  }

  lemma {:induction false} CompactByLeaves(a: Json, b: Json)
    requires Compact(a) && Compact(b) && SameLeaves(a, b)
    requires a.Obj? == b.Obj?
    ensures a == b
  {
    if !a.Obj? {
      assert IsLeaf(a, []);
    } else {
      forall k | k in a.fields || k in b.fields
        ensures k in a.fields && k in b.fields && a.fields[k] == b.fields[k]
      {
        var q := SomeLeaf(if k in a.fields then a.fields[k] else b.fields[k]);
        assert ([k] + q)[1..] == q;
        assert SlotAt(a, [k] + q) == SlotAt(b, [k] + q);
        assert SameLeaves(a.fields[k], b.fields[k]) by {
          forall p: Path | IsLeaf(a.fields[k], p) || IsLeaf(b.fields[k], p)
            ensures SlotAt(a.fields[k], p) == SlotAt(b.fields[k], p)
          {
            assert ([k] + p)[1..] == p;
            assert SlotAt(a, [k] + p) == SlotAt(b, [k] + p);
          }
        }
        CompactByLeaves(a.fields[k], b.fields[k]);
      }
    }
  }

  /** `es` lists every leaf of `d`, once, with its value. */
  ghost predicate Lists(es: seq<Entry>, d: Json) {
    && PrefixFree(es)
    && (forall i :: 0 <= i < |es| ==> es[i].path != [] && SlotAt(d, es[i].path) == Leaf(es[i].value))
    && (forall p: Path :: IsLeaf(d, p) ==> exists i :: 0 <= i < |es| && es[i].path == p)
  }

  lemma {:induction false} CompactSet(d: Json, p: Path, v: Json)
    requires Compact(d) && p != [] && !v.Obj?
    ensures Compact(SetAt(d, p, v))
    decreases p
  {
    if |p| > 1 {
      CompactSet(ChildOr(d, p[0]), p[1..], v);
    }
  }

  lemma {:induction false} CompactSetAll(d: Json, es: seq<Entry>)
    requires Compact(d) && d.Obj? && LeafEntries(es)
    ensures Compact(SetAll(d, es)) && SetAll(d, es).Obj?
  {
    if es != [] {
      var n := |es| - 1;
      CompactSetAll(d, es[..n]);
      CompactSet(SetAll(d, es[..n]), es[n].path, es[n].value);
    }
  }

  lemma PrefixOrder(p: Path, q: Path, r: Path)
    ensures p <= q && r <= q ==> Comparable(p, r)
    ensures p <= q && q <= r ==> p <= r
  {
    if p <= q && r <= q {
      if |p| <= |r| {
        assert q[..|p|] == r[..|p|];
      } else {
        assert q[..|r|] == p[..|r|];
      }
    }
  }

  /** At and below a path that was set, the value set there is seen. */
  lemma {:induction false} SlotAtEntry(d: Json, es: seq<Entry>, i: nat, q: Path)
    requires PrefixFree(es) && i < |es| && es[i].path <= q
    ensures SlotAt(SetAll(d, es), q) == SlotAt(es[i].value, q[|es[i].path|..])
  {
    var n := |es| - 1;
    SlotAfterSet(SetAll(d, es[..n]), es[n].path, es[n].value, q);
    if i < n {
      SlotAtEntry(d, es[..n], i, q);
      PrefixOrder(es[i].path, q, es[n].path);
    }
  }

  /** Above a path that was set there is an object. */
  lemma {:induction false} SlotAboveEntry(d: Json, es: seq<Entry>, i: nat, q: Path)
    requires PrefixFree(es) && i < |es| && q < es[i].path
    ensures SlotAt(SetAll(d, es), q) == Map
  {
    var n := |es| - 1;
    SlotAfterSet(SetAll(d, es[..n]), es[n].path, es[n].value, q);
    if i < n {
      SlotAboveEntry(d, es[..n], i, q);
      PrefixOrder(es[n].path, q, es[i].path);
    }
  }

  /** Away from every path that was set, nothing changed. */
  lemma {:induction false} SlotAwayFromEntries(d: Json, es: seq<Entry>, q: Path)
    requires forall i :: 0 <= i < |es| ==> !Comparable(es[i].path, q)
    ensures SlotAt(SetAll(d, es), q) == SlotAt(d, q)
  {
    if es != [] {
      var n := |es| - 1;
      SlotAfterSet(SetAll(d, es[..n]), es[n].path, es[n].value, q);
      SlotAwayFromEntries(d, es[..n], q);
    }
  }

  lemma RebuildSlot(d: Json, es: seq<Entry>, p: Path)
    requires Lists(es, d)
    ensures var b := SetAll(EMPTY, es);
            IsLeaf(b, p) || IsLeaf(d, p) ==> SlotAt(b, p) == SlotAt(d, p)
  {
    if i :| 0 <= i < |es| && es[i].path <= p {
      SlotAtEntry(EMPTY, es, i, p);
      if es[i].path == p {
        assert p[|es[i].path|..] == [];
      } else {
        LeafPath(d, es[i].path, p);
        assert p[|es[i].path|..] != [];
      }
    } else if i :| 0 <= i < |es| && p < es[i].path {
      SlotAboveEntry(EMPTY, es, i, p);
      LeafPath(d, p, es[i].path);
    } else {
      SlotAwayFromEntries(EMPTY, es, p);
    }
  }

  /** Rebuilding a compact object from a list of its leaves gives the object back. */
  lemma {:induction false} Rebuild(d: Json, es: seq<Entry>)
    requires d.Obj? && Compact(d) && Lists(es, d)
    ensures LeafEntries(es)
    ensures SetAll(EMPTY, es) == d
  {
    LeavesNotObj(d, es);
    CompactSetAll(EMPTY, es);
    var b := SetAll(EMPTY, es);
    forall p: Path
      ensures IsLeaf(b, p) || IsLeaf(d, p) ==> SlotAt(b, p) == SlotAt(d, p)
    {
      RebuildSlot(d, es, p);
    }
    CompactByLeaves(b, d);
  }

  /** Nothing stands below a leaf. */
  lemma LeafPath(d: Json, p: Path, q: Path)
    requires p <= q && p != q
    ensures IsLeaf(d, p) ==> SlotAt(d, q) == Absent
  {
    assert q == p + q[|p|..];
    LookupAppend(d, p, q[|p|..]);
  }

  lemma LeavesNotObj(d: Json, es: seq<Entry>)
    requires Lists(es, d)
    ensures LeafEntries(es)
  {
  }
}
