/** When a merge write leaves exactly the deep merge the agent predicts. */
module PushPrediction {
  import opened Json
  import opened FieldPaths
  import opened FirestoreCodec
  import opened MergeWrite
  import opened FirestoreServer

  /** What a merge write of `data` leaves in the document. */
  function Merged(stored: Option<Json>, data: Json, requestTime: string, clientTime: string): Json {
    var sent := Resolve(data, requestTime, clientTime);
    if sent == EMPTY then EMPTY else DeepMerge(Stored(stored), sent)
  }

  /** The payload as sent, for payloads without timestamps: empty objects gone. */
  function Pruned(d: Json): Json {
    if d.Obj? then Obj(map k | k in d.fields && Pruned(d.fields[k]) != EMPTY :: Pruned(d.fields[k]))
    else d
  }

  lemma {:induction false} PlainResolves(d: Json, rt: string, ct: string)
    requires Plain(d)
    ensures Resolve(d, rt, ct) == Pruned(d)
  {
    if d.Obj? {
      forall k | k in d.fields
        ensures Resolve(d.fields[k], rt, ct) == Pruned(d.fields[k])
      {
        PlainResolves(d.fields[k], rt, ct);
      }
      assert Resolve(d, rt, ct).fields == Pruned(d).fields;
    } else {
      PlainKept(d, ct);
    }
  }

  lemma {:induction false} PrunedCompact(d: Json)
    ensures Compact(Pruned(d)) && Pruned(d).Obj? == d.Obj?
    ensures Pruned(d) == d <==> Compact(d)
  {
    if d.Obj? {
      forall k | k in d.fields
        ensures Compact(Pruned(d.fields[k]))
        ensures Pruned(d.fields[k]) == d.fields[k] <==> Compact(d.fields[k])
      {
        PrunedCompact(d.fields[k]);
      }
      if Compact(d) {
        assert Pruned(d).fields == d.fields;
      }
      if Pruned(d) == d {
        forall k | k in d.fields
          ensures d.fields[k] != EMPTY && Compact(d.fields[k])
        {
          assert Pruned(d).fields[k] == d.fields[k];
        }
      }
    }
  }

  /** Every empty object in the patch stands where the base holds an object already. */
  predicate EmptiesCovered(b: Json, p: Json) {
    p.Obj? ==> forall k :: k in p.fields && p.fields[k].Obj? ==>
      if k in FieldsOf(b) && FieldsOf(b)[k].Obj? then EmptiesCovered(FieldsOf(b)[k], p.fields[k])
      else p.fields[k] != EMPTY && Compact(p.fields[k])
  }

  /** Pruning a patch changes what it merges to exactly when it prunes an object the base did not hold. */
  lemma {:induction false} PruningHarmless(b: Json, p: Json)
    requires b.Obj? && p.Obj?
    ensures DeepMerge(b, Pruned(p)) == DeepMerge(b, p) <==> EmptiesCovered(b, p)
  {
    var x, y := DeepMerge(b, Pruned(p)), DeepMerge(b, p);
    forall k | k in p.fields
      ensures (k in x.fields && x.fields[k] == y.fields[k]) <==>
              (p.fields[k].Obj? ==>
                 if k in b.fields && b.fields[k].Obj? then EmptiesCovered(b.fields[k], p.fields[k])
                 else p.fields[k] != EMPTY && Compact(p.fields[k]))
    {
      var v := p.fields[k];
      PrunedCompact(v);
      assert k in Pruned(p).fields <==> Pruned(v) != EMPTY;
      assert k in y.fields && y.fields[k] == if k in b.fields then DeepMerge(b.fields[k], v) else v;
      if v.Obj? {
        if k in b.fields && b.fields[k].Obj? {
          PruningHarmless(b.fields[k], v);
          DeepMergeEmpty(b.fields[k]);
          assert k in x.fields && x.fields[k] == DeepMerge(b.fields[k], Pruned(v));
        } else if Pruned(v) == EMPTY {
          assert k in x.fields ==> x.fields[k] == b.fields[k];
        } else {
          assert k in x.fields && x.fields[k] == Pruned(v);
        }
      } else {
        assert x.fields[k] == y.fields[k];
      }
    }
    if EmptiesCovered(b, p) {
      assert x.fields == y.fields;
    }
  }

  /** The merge write of a payload is its deep merge unless the payload has no leaf at all: then the
      write carries no mask and replaces the document by nothing. */
  lemma MergedExactly(stored: Option<Json>, data: Json, rt: string, ct: string)
    requires data.Obj? && Stored(stored).Obj?
    ensures Merged(stored, data, rt, ct) == DeepMerge(Stored(stored), Resolve(data, rt, ct))
            <==> HasLeaf(data) || Stored(stored) == EMPTY
  {
    LeafSurvives(data, rt, ct);
    DeepMergeEmpty(Stored(stored));
  }

  predicate HasLeaf(d: Json) {
    !d.Obj? || exists k :: k in d.fields && HasLeaf(d.fields[k])
  }

  lemma {:induction false} LeafSurvives(d: Json, rt: string, ct: string)
    ensures Resolve(d, rt, ct) != EMPTY <==> HasLeaf(d)
  {
    if d.Obj? {
      forall k | k in d.fields
        ensures Resolve(d.fields[k], rt, ct) != EMPTY <==> HasLeaf(d.fields[k])
      {
        LeafSurvives(d.fields[k], rt, ct);
      }
      var r := Resolve(d, rt, ct);
      if HasLeaf(d) {
        var k :| k in d.fields && HasLeaf(d.fields[k]);
        assert k in r.fields;
      } else {
        assert r.fields.Keys == {};
      }
    }
  }

  /** A merge write that deletes every field of the document. */
  lemma MergeThatWipes(rt: string, ct: string)
    ensures Merged(Some(Obj(map["processes" := List([])])), Obj(map["displays" := EMPTY]), rt, ct) == EMPTY
  {
    var data := Obj(map["displays" := EMPTY]);
    assert Resolve(EMPTY, rt, ct) == EMPTY by {
      assert Resolve(EMPTY, rt, ct).fields == map[];
    }
    assert Resolve(data, rt, ct).fields == map[];
  }
}
