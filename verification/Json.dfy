/** JSON values as the agent handles them, and the deep merge every config write is
    explained by.

    An object is a map: digests and comparisons in the agent all serialise with sorted
    keys, so key order never carries meaning. */
module Json {

  datatype Option<+T> = None | Some(value: T)

  datatype Json =
    | Null
    | Bool(b: bool)
    | Int(i: int)
    | Float(r: real)
    | Str(s: string)
    | List(items: seq<Json>)
    | Obj(fields: map<string, Json>)

  const EMPTY: Json := Obj(map[])

  /** Values of `patch` win, except that two objects merge key by key. */
  function DeepMerge(base: Json, patch: Json): (merged: Json)
    ensures patch.Obj? ==> merged.Obj?
  {
    if base.Obj? && patch.Obj? then
      Obj(map k | k in base.fields.Keys + patch.fields.Keys ::
            if k !in patch.fields then base.fields[k]
            else if k !in base.fields then patch.fields[k]
            else DeepMerge(base.fields[k], patch.fields[k]))
    else patch
  }

  lemma {:induction false} DeepMergeSelf(d: Json)
    ensures DeepMerge(d, d) == d
  {
    if d.Obj? {
      forall k | k in d.fields
        ensures DeepMerge(d.fields[k], d.fields[k]) == d.fields[k]
      {
        DeepMergeSelf(d.fields[k]);
      }
      assert DeepMerge(d, d).fields == d.fields;
    }
  }

  /** Sending the same patch again changes nothing. */
  lemma {:induction false} DeepMergeIdempotent(d: Json, p: Json)
    ensures DeepMerge(DeepMerge(d, p), p) == DeepMerge(d, p)
  {
    if d.Obj? && p.Obj? {
      forall k | k in p.fields
        ensures k in d.fields ==>
                DeepMerge(DeepMerge(d.fields[k], p.fields[k]), p.fields[k]) == DeepMerge(d.fields[k], p.fields[k])
        ensures DeepMerge(p.fields[k], p.fields[k]) == p.fields[k]
      {
        if k in d.fields {
          DeepMergeIdempotent(d.fields[k], p.fields[k]);
        }
        DeepMergeSelf(p.fields[k]);
      }
      assert DeepMerge(DeepMerge(d, p), p).fields == DeepMerge(d, p).fields;
    } else {
      DeepMergeSelf(p);
    }
  }


  lemma {:induction false} DeepMergeEmpty(d: Json)
    requires d.Obj?
    ensures DeepMerge(d, EMPTY) == d
    ensures DeepMerge(EMPTY, d) == d
  {
    assert DeepMerge(d, EMPTY).fields == d.fields;
    assert DeepMerge(EMPTY, d).fields == d.fields;
  }
}
