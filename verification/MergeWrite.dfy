/** What a `set_document(merge=True)` of a payload amounts to: the leaves a payload sends,
    the timestamps taken out of it, and the object the two make up again on the server. */
module MergeWrite {
  import opened Json
  import opened FieldPaths
  import opened FirestoreCodec

  const STAMP: Json := Str(SERVER_TIMESTAMP)

  /** The cleaned data of `_extract_server_timestamps`: no sentinel, no object left empty. */
  function Clean(d: Json): Json {
    if d.Obj? then
      Obj(map k | k in d.fields && d.fields[k] != STAMP && Clean(d.fields[k]) != EMPTY :: Clean(d.fields[k]))
    else d
  }

  /** The payload as it is to read back: sentinels replaced by the time of the write (by the client's
      clock where they stand inside a list), empty objects gone. */
  function Resolve(d: Json, requestTime: string, clientTime: string): Json {
    if d.Obj? then
      Obj(map k | k in d.fields && Resolve(d.fields[k], requestTime, clientTime) != EMPTY ::
            Resolve(d.fields[k], requestTime, clientTime))
    else if d == STAMP then Str(requestTime)
    else ClientStamped(d, clientTime)
  }

  /** A leaf of interest: any leaf, or only a timestamp sentinel, or any other. */
  datatype Kind = AnyLeaf | StampLeaf | DataLeaf

  predicate Wanted(s: Slot, kind: Kind) {
    s.Leaf? && match kind case AnyLeaf => true case StampLeaf => s.value == STAMP case DataLeaf => s.value != STAMP
  }

  lemma {:induction false} ResolveCompact(d: Json, rt: string, ct: string)
    ensures Compact(Resolve(d, rt, ct))
    ensures Resolve(d, rt, ct).Obj? == d.Obj?
  {
    if d.Obj? {
      forall k | k in d.fields
        ensures Compact(Resolve(d.fields[k], rt, ct))
      {
        ResolveCompact(d.fields[k], rt, ct);
      }
    } else {
    }
  }

  lemma {:induction false} CleanCompact(d: Json)
    ensures Compact(Clean(d)) && Clean(d).Obj? == d.Obj?
  {
    if d.Obj? {
      forall k | k in d.fields
        ensures Compact(Clean(d.fields[k]))
      {
        CleanCompact(d.fields[k]);
      }
    }
  }

  /** The slot of the resolved payload at a leaf path of the payload. */
  function ResolvedLeaf(s: Slot, rt: string, ct: string): Slot {
    if !s.Leaf? then Absent
    else if s.value == STAMP then Leaf(Str(rt))
    else Leaf(ClientStamped(s.value, ct))
  }

  predicate SameLeaf(a: Slot, b: Slot) {
    a.Leaf? || b.Leaf? ==> a == b
  }

  lemma {:induction false} NoLeafInEmpty(q: Path)
    ensures !SlotAt(EMPTY, q).Leaf?
  {
  }

  lemma {:induction false} ResolveLeaves(d: Json, rt: string, ct: string, q: Path)
    ensures SameLeaf(SlotAt(Resolve(d, rt, ct), q), ResolvedLeaf(SlotAt(d, q), rt, ct))
    decreases d
  {
    var r := Resolve(d, rt, ct);
    if q != [] && d.Obj? {
      SlotStep(d, q);
      SlotStep(r, q);
      if q[0] in d.fields {
        ResolveLeaves(d.fields[q[0]], rt, ct, q[1..]);
        NoLeafInEmpty(q[1..]);
      }
    } else {
      ResolveCompact(d, rt, ct);
    }
  }

  lemma {:induction false} CleanLeaves(d: Json, q: Path)
    requires d != STAMP
    ensures SameLeaf(SlotAt(Clean(d), q), if Wanted(SlotAt(d, q), DataLeaf) then SlotAt(d, q) else Absent)
    decreases d
  {
    var r := Clean(d);
    if q != [] && d.Obj? {
      SlotStep(d, q);
      SlotStep(r, q);
      if q[0] in d.fields {
        if d.fields[q[0]] == STAMP {
          assert q[1..] != [] ==> SlotAt(STAMP, q[1..]) == Absent;
        } else {
          CleanLeaves(d.fields[q[0]], q[1..]);
          NoLeafInEmpty(q[1..]);
        }
      }
    }
  }

  lemma {:induction false} StampedLeaves(d: Json, ct: string, q: Path)
    ensures SameLeaf(SlotAt(ClientStamped(d, ct), q),
                     match SlotAt(d, q) case Leaf(v) => Leaf(ClientStamped(v, ct)) case _ => Absent)
    decreases d
  {
    var r := ClientStamped(d, ct);
    if q != [] && d.Obj? {
      SlotStep(d, q);
      SlotStep(r, q);
      if q[0] in d.fields {
        StampedLeaves(d.fields[q[0]], ct, q[1..]);
      }
    }
  }

  // ---------- lists of paths ----------

  ghost predicate Incomparable(paths: seq<Path>) {
    forall i, j :: 0 <= i < j < |paths| ==> !Comparable(paths[i], paths[j])
  }

  ghost predicate Distinct<T>(xs: seq<T>) {
    forall i, j :: 0 <= i < j < |xs| ==> xs[i] != xs[j]
  }

  /** `paths` lists, once each and behind `prefix`, the leaves of a kind that `d` holds under `keys`. */
  ghost predicate Enumerates(paths: seq<Path>, prefix: Path, d: Json, kind: Kind, keys: set<string>) {
    && Distinct(paths)
    && (forall i :: 0 <= i < |paths| ==> EnumeratedPath(paths[i], prefix, d, kind, keys))
    && (forall q: Path :: q != [] && q[0] in keys && Wanted(SlotAt(d, q), kind) ==> prefix + q in paths)
  }

  predicate EnumeratedPath(p: Path, prefix: Path, d: Json, kind: Kind, keys: set<string>) {
    && |prefix| < |p| && p[..|prefix|] == prefix && p[|prefix|] in keys
    && Wanted(SlotAt(d, p[|prefix|..]), kind)
  }

  lemma LeavesIncomparable(d: Json, p: Path, q: Path)
    requires IsLeaf(d, p) && IsLeaf(d, q)
    ensures Comparable(p, q) ==> p == q
  {
    if p <= q && p != q {
      LeafPath(d, p, q);
    }
    if q <= p && p != q {
      LeafPath(d, q, p);
    }
  }

  lemma EnumerateUnwanted(paths: seq<Path>, prefix: Path, d: Json, kind: Kind, done: set<string>, k: string)
    requires d.Obj? && k in d.fields && Enumerates(paths, prefix, d, kind, done)
    requires !d.fields[k].Obj? && !Wanted(Leaf(d.fields[k]), kind)
    ensures Enumerates(paths, prefix, d, kind, done + {k})
  {
    forall q: Path | q != [] && q[0] in done + {k} && Wanted(SlotAt(d, q), kind)
      ensures prefix + q in paths
    {
      SlotStep(d, q);
    }
  }

  lemma EnumerateLeaf(paths: seq<Path>, prefix: Path, d: Json, kind: Kind, done: set<string>, k: string)
    requires d.Obj? && k in d.fields && k !in done && Enumerates(paths, prefix, d, kind, done)
    requires !d.fields[k].Obj? && Wanted(Leaf(d.fields[k]), kind)
    ensures Enumerates(paths + [prefix + [k]], prefix, d, kind, done + {k})
  {
    var p := prefix + [k];
    assert p[|prefix|..] == [k] && [k][1..] == [];
    SlotStep(d, [k]);
    assert EnumeratedPath(p, prefix, d, kind, done + {k});
    forall q: Path | q != [] && q[0] in done + {k} && Wanted(SlotAt(d, q), kind)
      ensures prefix + q in paths + [p]
    {
      SlotStep(d, q);
      if q[0] == k {
        assert q == [k] + q[1..];
        assert q[1..] == [];
        assert q == [k];
        assert (paths + [p])[|paths|] == p;
      }
    }
  }

  lemma EnumerateNested(paths: seq<Path>, nested: seq<Path>, prefix: Path, d: Json, kind: Kind,
                        done: set<string>, k: string)
    requires d.Obj? && k in d.fields && k !in done && Enumerates(paths, prefix, d, kind, done)
    requires d.fields[k].Obj? && Enumerates(nested, prefix + [k], d.fields[k], kind, d.fields[k].fields.Keys)
    ensures Enumerates(paths + nested, prefix, d, kind, done + {k})
  {
    var all := paths + nested;
    forall i | 0 <= i < |nested|
      ensures EnumeratedPath(nested[i], prefix, d, kind, done + {k})
      ensures nested[i][|prefix|] == k
    {
      var p := nested[i];
      assert EnumeratedPath(p, prefix + [k], d.fields[k], kind, d.fields[k].fields.Keys);
      var n := |prefix|;
      assert (prefix + [k])[n] == k && (prefix + [k])[..n] == prefix;
      assert p[n] == p[..n + 1][n] && p[..n] == p[..n + 1][..n];
      assert p[n..] == [k] + p[n + 1..];
      SlotBelow(d, k, p[n + 1..]);
    }
    forall i, j | 0 <= i < j < |all|
      ensures all[i] != all[j]
    {
      if i < |paths| <= j {
        assert EnumeratedPath(paths[i], prefix, d, kind, done);
        assert all[j] == nested[j - |paths|];
      } else if |paths| <= i {
        assert all[i] == nested[i - |paths|] && all[j] == nested[j - |paths|];
      }
    }
    forall q: Path | q != [] && q[0] in done + {k} && Wanted(SlotAt(d, q), kind)
      ensures prefix + q in all
    {
      if q[0] == k {
        SlotStep(d, q);
        assert q[1..] != [];
        SlotStep(d.fields[k], q[1..]);
        assert prefix + q == (prefix + [k]) + q[1..];
        assert prefix + q in nested;
      } else {
        assert prefix + q in paths;
      }
    }
  }
}
