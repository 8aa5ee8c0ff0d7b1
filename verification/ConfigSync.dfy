/** The three-way reconciliation of config.json, the Firestore document and the last-known-remote cache. */
module ConfigSync {
  import opened Json
  import opened FieldPaths

  const LOCAL_ONLY_KEYS: set<string> := {"firebase", "sentry", "environment"}

  const CAPTURED_AT: Path := ["displays", "assigned", "capturedAt"]
  const ENABLED_AT: Path := ["displays", "autoRestore", "enabledAt"]

  function StripLocalOnly(config: Json): Json {
    Obj(FieldsOf(config) - LOCAL_ONLY_KEYS)
  }

  /** Remove one nested leaf, and the containers its removal leaves empty. */
  function StripPath(node: Json, path: Path): (stripped: Json)
    requires node.Obj? && path != []
    ensures stripped.Obj?
    decreases path
  {
    var head := path[0];
    if |path| == 1 then Obj(node.fields - {head})
    else if head !in node.fields || !node.fields[head].Obj? then node
    else
      var child := StripPath(node.fields[head], path[1..]);
      if child == EMPTY then Obj(node.fields - {head}) else Obj(node.fields[head := child])
  }

  function StripServerOwned(config: Json): Json
    requires config.Obj?
  {
    StripPath(StripPath(config, CAPTURED_AT), ENABLED_AT)
  }

  /** Everything that takes part in sync. */
  function Normalize(config: Json): (n: Json)
    ensures n.Obj?
  {
    StripServerOwned(StripLocalOnly(config))
  }

  predicate Normal(config: Json) {
    config.Obj? && Normalize(config) == config
  }

  /** A config that may be missing; a missing one compares as an empty one. */
  function OrEmpty(config: Option<Json>): Json {
    match config case None => EMPTY case Some(c) => c
  }

  predicate ConfigsEqual(a: Option<Json>, b: Option<Json>) {
    Normalize(OrEmpty(a)) == Normalize(OrEmpty(b))
  }

  // ---------- strips ----------

  predicate Stripped(d: Json, q: Path)
    requires d.Obj? && q != []
  {
    StripPath(d, q) == d
  }

  lemma MapMinusAbsent(m: map<string, Json>, k: string)
    ensures k !in m ==> m - {k} == m
  {
  }

  lemma {:induction false} StripIdempotent(d: Json, q: Path)
    requires d.Obj? && q != []
    ensures Stripped(StripPath(d, q), q)
    decreases q
  {
    var k := q[0];
    MapMinusAbsent(d.fields - {k}, k);
    if |q| > 1 && k in d.fields && d.fields[k].Obj? {
      StripIdempotent(d.fields[k], q[1..]);
      var c := StripPath(d.fields[k], q[1..]);
      if c != EMPTY {
        assert d.fields[k := c][k := c] == d.fields[k := c];
      }
    }
  }

  lemma {:induction false} StripEmpty(q: Path)
    requires q != []
    ensures StripPath(EMPTY, q) == EMPTY
  {
    assert EMPTY.fields - {q[0]} == EMPTY.fields;
  }

  lemma {:induction false} StripCommute(d: Json, q: Path, r: Path)
    requires d.Obj? && q != [] && r != [] && !Comparable(q, r)
    ensures StripPath(StripPath(d, q), r) == StripPath(StripPath(d, r), q)
    decreases q
  {
    var k, j := q[0], r[0];
    if k == j {
      assert q == [k] + q[1..] && r == [k] + r[1..];
      if k in d.fields && d.fields[k].Obj? {
        var c := d.fields[k];
        StripCommute(c, q[1..], r[1..]);
        StripEmpty(q[1..]);
        StripEmpty(r[1..]);
        StripSame(d, q, r);
        StripSame(d, r, q);
      }
    } else {
      StripOther(d, q, j);
      StripOther(d, r, k);
      var x, y := StripPath(StripPath(d, q), r), StripPath(StripPath(d, r), q);
      forall h: string
        ensures h in x.fields <==> h in y.fields
        ensures h in x.fields ==> x.fields[h] == y.fields[h]
      {
        StripOther(d, q, h);
        StripOther(d, r, h);
        StripOther(StripPath(d, q), r, h);
        StripOther(StripPath(d, r), q, h);
        if h == k {
          StripHead(d, q);
          StripHead(StripPath(d, r), q);
        } else if h == j {
          StripHead(d, r);
          StripHead(StripPath(d, q), r);
        }
      }
      assert x.fields == y.fields;
    }
  }

  /** A strip touches only the head of its path. */
  lemma StripOther(d: Json, q: Path, h: string)
    requires d.Obj? && q != []
    ensures h != q[0] ==> (h in StripPath(d, q).fields <==> h in d.fields)
    ensures h != q[0] && h in d.fields ==> StripPath(d, q).fields[h] == d.fields[h]
  {
  }

  /** What a strip leaves under the head of its path. */
  function HeadAfterStrip(child: Option<Json>, q: Path): Option<Json>
    requires q != []
  {
    if |q| == 1 then None
    else
      match child
      case None => None
      case Some(c) =>
        if !c.Obj? then Some(c)
        else if StripPath(c, q[1..]) == EMPTY then None
        else Some(StripPath(c, q[1..]))
  }

  function Child(d: Json, k: string): Option<Json>
    requires d.Obj?
  {
    if k in d.fields then Some(d.fields[k]) else None
  }

  lemma StripHead(d: Json, q: Path)
    requires d.Obj? && q != []
    ensures Child(StripPath(d, q), q[0]) == HeadAfterStrip(Child(d, q[0]), q)
  {
  }

  lemma {:induction false} StripSame(d: Json, q: Path, r: Path)
    requires d.Obj? && |q| > 1 && |r| > 1 && q[0] == r[0] && q[0] in d.fields && d.fields[q[0]].Obj?
    ensures var k := q[0];
            var first := StripPath(d.fields[k], q[1..]);
            StripPath(StripPath(d, q), r) ==
            if first == EMPTY || StripPath(first, r[1..]) == EMPTY then Obj(d.fields - {k})
            else Obj(d.fields[k := StripPath(first, r[1..])])
  {
    var k := q[0];
    var first := StripPath(d.fields[k], q[1..]);
    if first == EMPTY {
      assert StripPath(d, q) == Obj(d.fields - {k});
    } else {
      var c := StripPath(first, r[1..]);
      var once := Obj(d.fields[k := first]);
      assert StripPath(d, q) == once && once.fields[k] == first;
      assert once.fields - {k} == d.fields - {k};
      assert once.fields[k := c] == d.fields[k := c];
      assert StripPath(once, r) == if c == EMPTY then Obj(once.fields - {k}) else Obj(once.fields[k := c]);
    }
  }

  // ---------- strips and merges ----------

  lemma MergeChild(b: Json, p: Json, h: string)
    requires b.Obj? && p.Obj?
    ensures Child(DeepMerge(b, p), h) ==
            match Child(p, h)
            case None => Child(b, h)
            case Some(v) => (match Child(b, h) case None => Some(v) case Some(w) => Some(DeepMerge(w, v)))
  {
  }

  lemma SameChildren(x: Json, y: Json)
    requires x.Obj? && y.Obj? && forall h: string :: Child(x, h) == Child(y, h)
    ensures x == y
  {
    forall h: string
      ensures h in x.fields <==> h in y.fields
      ensures h in x.fields ==> x.fields[h] == y.fields[h]
    {
      assert Child(x, h) == Child(y, h);
    }
    assert x.fields == y.fields;
  }

  lemma StrippedHead(p: Json, q: Path)
    requires p.Obj? && q != [] && Stripped(p, q)
    ensures |q| == 1 ==> q[0] !in p.fields
    ensures |q| > 1 && q[0] in p.fields && p.fields[q[0]].Obj? ==>
              Stripped(p.fields[q[0]], q[1..]) && p.fields[q[0]] != EMPTY
  {
    StripHead(p, q);
    if |q| > 1 && q[0] in p.fields && p.fields[q[0]].Obj? {
      StripEmpty(q[1..]);
    }
  }

  /** Under a patch that leaves the path alone, a strip sees only what the base has beside it. */
  lemma {:induction false} StripMerge(b: Json, p: Json, q: Path)
    requires b.Obj? && p.Obj? && q != [] && Stripped(p, q)
    ensures StripPath(DeepMerge(b, p), q) == StripPath(DeepMerge(StripPath(b, q), p), q)
    decreases q
  {
    var k := q[0];
    var b' := StripPath(b, q);
    var x, y := StripPath(DeepMerge(b, p), q), StripPath(DeepMerge(b', p), q);
    StrippedHead(p, q);
    StripMergeHead(b, p, q);
    forall h: string
      ensures Child(x, h) == Child(y, h)
    {
      if h != k {
        StripOther(DeepMerge(b, p), q, h);
        StripOther(DeepMerge(b', p), q, h);
        StripOther(b, q, h);
        MergeChild(b, p, h);
        MergeChild(b', p, h);
      }
    }
    SameChildren(x, y);
  }

  lemma {:induction false} StripMergeHead(b: Json, p: Json, q: Path)
    requires b.Obj? && p.Obj? && q != [] && Stripped(p, q)
    ensures Child(StripPath(DeepMerge(b, p), q), q[0]) == Child(StripPath(DeepMerge(StripPath(b, q), p), q), q[0])
    decreases q, 0
  {
    var k, rest := q[0], q[1..];
    var b' := StripPath(b, q);
    StripHead(DeepMerge(b, p), q);
    StripHead(DeepMerge(b', p), q);
    StripHead(b, q);
    MergeChild(b, p, k);
    MergeChild(b', p, k);
    if |q| > 1 {
      StrippedHead(p, q);
      match Child(b, k) {
        case Some(w) =>
          if w.Obj? {
            match Child(p, k) {
              case Some(v) =>
                if v.Obj? {
                  StripMerge(w, v, rest);
                  DeepMergeEmpty(v);
                }
              case None =>
                StripIdempotent(w, rest);
            }
          }
        case None =>
      }
    }
  }

  /** Two objects that leave the path alone make up one that does. */
  lemma {:induction false} StrippedMerge(a: Json, b: Json, q: Path)
    requires a.Obj? && b.Obj? && q != [] && Stripped(a, q) && Stripped(b, q)
    ensures Stripped(DeepMerge(a, b), q)
    decreases q
  {
    var k := q[0];
    var m := DeepMerge(a, b);
    StrippedHead(a, q);
    StrippedHead(b, q);
    MergeChild(a, b, k);
    if k in m.fields {
      if |q| > 1 && m.fields[k].Obj? {
        if k in a.fields && a.fields[k].Obj? && k in b.fields {
          StrippedMerge(a.fields[k], b.fields[k], q[1..]);
          var h :| h in b.fields[k].fields;
          assert h in DeepMerge(a.fields[k], b.fields[k]).fields;
        }
        assert m.fields[k := m.fields[k]] == m.fields;
      }
    } else {
      MapMinusAbsent(m.fields, k);
    }
  }

  /** Whatever is written at the path, the strip takes away again, with the containers made for it. */
  lemma {:induction false} StripBlindToSet(d: Json, q: Path, v: Json)
    requires d.Obj? && q != [] && PathClear(d, q)
    ensures StripPath(SetAt(d, q, v), q) == StripPath(d, q)
    decreases q
  {
    var k, rest := q[0], q[1..];
    if |q| == 1 {
      assert d.fields[k := SetAt(ChildOr(d, k), rest, v)] - {k} == d.fields - {k};
    } else {
      StripBlindToSet(ChildOr(d, k), rest, v);
      StripEmpty(rest);
      var c, s := SetAt(ChildOr(d, k), rest, v), StripPath(ChildOr(d, k), rest);
      assert d.fields[k := c] - {k} == d.fields - {k};
      assert d.fields[k := c][k := s] == d.fields[k := s];
      MapMinusAbsent(d.fields, k);
    }
  }

  // ---------- normalisation ----------

  lemma ServerPathsApart()
    ensures !Comparable(CAPTURED_AT, ENABLED_AT)
  {
    assert CAPTURED_AT[1] != ENABLED_AT[1];
  }

  lemma StripKeepsLocal(d: Json, q: Path)
    requires d.Obj? && q != [] && FieldsOf(d).Keys !! LOCAL_ONLY_KEYS
    ensures FieldsOf(StripPath(d, q)).Keys !! LOCAL_ONLY_KEYS
  {
  }

  lemma NormalParts(p: Json)
    ensures Normal(p) <==>
            p.Obj? && p.fields.Keys !! LOCAL_ONLY_KEYS && Stripped(p, CAPTURED_AT) && Stripped(p, ENABLED_AT)
  {
    if p.Obj? {
      var l := StripLocalOnly(p);
      var s := StripPath(l, CAPTURED_AT);
      StripKeepsLocal(l, CAPTURED_AT);
      StripKeepsLocal(s, ENABLED_AT);
      StripIdempotent(l, CAPTURED_AT);
      StripIdempotent(s, ENABLED_AT);
      ServerPathsApart();
      StripCommute(l, CAPTURED_AT, ENABLED_AT);
      StripIdempotent(StripPath(l, ENABLED_AT), CAPTURED_AT);
      if p.fields.Keys !! LOCAL_ONLY_KEYS {
        assert p.fields - LOCAL_ONLY_KEYS == p.fields;
      }
    }
  }

  /** Normalising again changes nothing. */
  lemma NormalizeIdempotent(config: Json)
    ensures Normal(Normalize(config))
  {
    var l := StripLocalOnly(config);
    var s := StripPath(l, CAPTURED_AT);
    StripKeepsLocal(l, CAPTURED_AT);
    StripKeepsLocal(s, ENABLED_AT);
    StripIdempotent(s, ENABLED_AT);
    ServerPathsApart();
    StripCommute(l, CAPTURED_AT, ENABLED_AT);
    StripIdempotent(StripPath(l, ENABLED_AT), CAPTURED_AT);
    NormalParts(Normalize(config));
  }

  /** What sync sees of a config: none of the local-only keys, and every other key as it is, `displays` but for what
      the server owns in it. */
  lemma NormalizedKeys(config: Json, k: string)
    requires config.Obj?
    ensures k in ["firebase", "sentry", "environment"] ==> k !in Normalize(config).fields
    ensures k !in ["firebase", "sentry", "environment", "displays"] ==> Child(Normalize(config), k) == Child(config, k)
  {
    var l := StripLocalOnly(config);
    StripElsewhere(l, CAPTURED_AT, k);
    StripElsewhere(StripPath(l, CAPTURED_AT), ENABLED_AT, k);
  }

  lemma StripElsewhere(d: Json, q: Path, k: string)
    requires d.Obj? && q != [] && q[0] == "displays"
    ensures k != "displays" ==> Child(StripPath(d, q), k) == Child(d, k)
    ensures k !in d.fields ==> k !in StripPath(d, q).fields
  {
  }

  lemma SetUnderDisplays(config: Json, q: Path, v: Json)
    requires config.Obj? && q in {CAPTURED_AT, ENABLED_AT}
    ensures StripLocalOnly(SetAt(config, q, v)) == SetAt(StripLocalOnly(config), q, v)
    ensures PathClear(config, q) ==> PathClear(StripLocalOnly(config), q)
  {
    var l := StripLocalOnly(config);
    assert q[0] == "displays";
    assert ChildOr(config, "displays") == ChildOr(l, "displays");
    assert StripLocalOnly(SetAt(config, q, v)).fields == SetAt(l, q, v).fields;
  }

  /** Server-owned leaves take no part, nor the containers that hold nothing else. */
  lemma NormalizeBlindToServer(config: Json, q: Path, v: Json)
    requires config.Obj? && q in {CAPTURED_AT, ENABLED_AT} && PathClear(config, q)
    ensures Normalize(SetAt(config, q, v)) == Normalize(config)
  {
    var l := StripLocalOnly(config);
    SetUnderDisplays(config, q, v);
    StripBlindToSet(l, q, v);
    ServerPathsApart();
    StripCommute(SetAt(l, q, v), CAPTURED_AT, ENABLED_AT);
    StripCommute(l, CAPTURED_AT, ENABLED_AT);
  }

  /** Two normalised configs make up a normalised one. */
  lemma {:induction false} NormalMerge(a: Json, b: Json)
    requires Normal(a) && Normal(b)
    ensures Normal(DeepMerge(a, b))
  {
    NormalParts(a);
    NormalParts(b);
    StrippedMerge(a, b, CAPTURED_AT);
    StrippedMerge(a, b, ENABLED_AT);
    assert DeepMerge(a, b).fields.Keys == a.fields.Keys + b.fields.Keys;
    NormalParts(DeepMerge(a, b));
  }

  /** The law the push prediction rests on: a normalised patch lands the same on a document and on its
      normalised form. */
  lemma {:induction false} NormalizeMerge(b: Json, p: Json)
    requires b.Obj? && Normal(p)
    ensures Normalize(DeepMerge(b, p)) == DeepMerge(Normalize(b), p)
    ensures Normalize(DeepMerge(b, p)) == Normalize(DeepMerge(Normalize(b), p))
  {
    NormalParts(p);
    var l := StripLocalOnly(b);
    assert StripLocalOnly(DeepMerge(b, p)) == DeepMerge(l, p) by {
      assert StripLocalOnly(DeepMerge(b, p)).fields == DeepMerge(l, p).fields;
    }
    var s := StripPath(l, CAPTURED_AT);
    StripMerge(l, p, CAPTURED_AT);
    ServerPathsApart();
    StripCommute(DeepMerge(l, p), CAPTURED_AT, ENABLED_AT);
    StripCommute(DeepMerge(s, p), CAPTURED_AT, ENABLED_AT);
    StripMerge(s, p, ENABLED_AT);
    var n := Normalize(b);
    StripCommute(DeepMerge(n, p), CAPTURED_AT, ENABLED_AT);
    NormalizeIdempotent(b);
    NormalMerge(n, p);
    NormalParts(DeepMerge(n, p));
  }

  // ---------- the startup decision ----------

  datatype Action = Seed | InSync | Push | Pull

  /** The decision; a pull that discards local changes names the top-level keys they are in. */
  datatype Decision = Decision(action: Action, conflict: Option<set<string>>)

  function ValueOrNull(d: Json, k: string): Json {
    if k in FieldsOf(d) then FieldsOf(d)[k] else Null
  }

  /** The top-level keys a pull is about to change. */
  function DifferingKeys(local: Option<Json>, remote: Option<Json>): set<string> {
    var l, r := Normalize(OrEmpty(local)), Normalize(OrEmpty(remote));
    set k | k in l.fields.Keys + r.fields.Keys && ValueOrNull(l, k) != ValueOrNull(r, k)
  }

  /** A remote without `processes`, an empty one included, holds nothing usable. */
  predicate Usable(remote: Option<Json>) {
    remote.Some? && "processes" in FieldsOf(remote.value)
  }

  function DecideStartupSync(base: Option<Json>, local: Option<Json>, remote: Option<Json>): Decision {
    if !Usable(remote) then Decision(Seed, None)
    else if ConfigsEqual(local, remote) then Decision(InSync, None)
    else if base.Some? && ConfigsEqual(remote, base) then Decision(Push, None)
    else if base.Some? && ConfigsEqual(local, base) then Decision(Pull, None)
    else Decision(Pull, Some(DifferingKeys(local, remote)))
  }

  /** Whoever has moved since the last sync wins, and the cloud wins when both have: with a document that holds
      something usable, startup pushes exactly when only the local side has moved, pulls quietly when only the
      cloud has, pulls with a summary when both have gone different ways or the last sync is not known, and finds
      nothing to do when the two agree. */
  lemma WhoeverMovedWins(base: Option<Json>, local: Option<Json>, remote: Option<Json>)
    ensures var d := DecideStartupSync(base, local, remote);
            var agree := ConfigsEqual(local, remote);
            var localMoved := base.None? || !ConfigsEqual(local, base);
            var cloudMoved := base.None? || !ConfigsEqual(remote, base);
            && (d.action == Seed <==> !(remote.Some? && remote.value.Obj? && "processes" in remote.value.fields))
            && (d.action != Seed ==>
                  && (d.action == InSync <==> agree)
                  && (d.action == Push <==> localMoved && !cloudMoved)
                  && (d == Decision(Pull, None) <==> cloudMoved && !localMoved)
                  && (d.action == Pull && d.conflict.Some? <==> cloudMoved && localMoved && !agree))
            && (d.action != Pull ==> d.conflict.None?)
  {
  }

  /** A summary names every top-level key whose value the pull changes; it names none exactly when all
      that differs is a key that is null on one side and missing on the other. */
  lemma SummaryNames(base: Option<Json>, local: Option<Json>, remote: Option<Json>)
    requires DecideStartupSync(base, local, remote).conflict.Some?
    ensures var l, r := Normalize(OrEmpty(local)), Normalize(OrEmpty(remote));
            var names := DecideStartupSync(base, local, remote).conflict.value;
            && l != r
            && (forall k: string :: k in names <==> ValueOrNull(l, k) != ValueOrNull(r, k))
            && (names == {} <==> forall k: string :: Child(l, k) == Child(r, k)
                                   || {Child(l, k), Child(r, k)} == {None, Some(Null)})
  {
    var l, r := Normalize(OrEmpty(local)), Normalize(OrEmpty(remote));
    var names := DifferingKeys(local, remote);
    forall k: string
      ensures ValueOrNull(l, k) == ValueOrNull(r, k) <==>
              Child(l, k) == Child(r, k) || {Child(l, k), Child(r, k)} == {None, Some(Null)}
    {
      if ValueOrNull(l, k) == ValueOrNull(r, k) && Child(l, k) != Child(r, k) {
        assert {Child(l, k), Child(r, k)} == {None, Some(Null)};
      }
      assert None in {None, Some(Null)};
      if {Child(l, k), Child(r, k)} == {None, Some(Null)} {
        assert Child(l, k) in {None, Some(Null)} && Child(r, k) in {None, Some(Null)};
      }
    }
    if forall k: string :: ValueOrNull(l, k) == ValueOrNull(r, k) {
      assert names == {};
    }
  }
}
