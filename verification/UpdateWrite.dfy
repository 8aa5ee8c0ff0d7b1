/** What an `update_document` amounts to: one whole-value replacement, or deletion, per addressed path. */
module UpdateWrite {
  import opened Json
  import opened FieldPaths
  import opened FirestoreCodec
  import opened MergeWrite
  import opened FirestoreServer
  import opened PayloadWrite

  datatype UpdateValue = Put(v: Json) | DeleteField
  datatype Update = Update(path: Path, value: UpdateValue)

  /** What is to stand at the path afterwards; nothing for DELETE_FIELD and for an object without leaves. */
  function Outcome(u: UpdateValue, rt: string, ct: string): Option<Json> {
    match u
    case DeleteField => None
    case Put(v) => if Resolve(v, rt, ct) == EMPTY then None else Some(Resolve(v, rt, ct))
  }

  function Replace(d: Json, p: Path, outcome: Option<Json>): Json
    requires p != []
  {
    match outcome case Some(v) => SetAt(d, p, v) case None => DeleteAt(d, p)
  }

  /** The updates, one after the other. */
  function Updated(d: Json, us: seq<Update>, rt: string, ct: string): Json
    requires forall i :: 0 <= i < |us| ==> us[i].path != []
  {
    if us == [] then d
    else
      var n := |us| - 1;
      Replace(Updated(d, us[..n], rt, ct), us[n].path, Outcome(us[n].value, rt, ct))
  }

  ghost predicate PrefixFreeUpdates(us: seq<Update>) {
    && (forall i :: 0 <= i < |us| ==> us[i].path != [])
    && (forall i, j :: 0 <= i < j < |us| ==> !Comparable(us[i].path, us[j].path))
  }

  // ---------- the pieces of the request ----------

  /** The value the body carries at an update's path. */
  function BodyValue(u: UpdateValue, ct: string): Option<Json> {
    match u
    case DeleteField => None
    case Put(v) => if v == STAMP || Clean(v) == EMPTY then None else Some(ClientStamped(Clean(v), ct))
  }

  /** `group` lists the timestamp paths of one update, in full. */
  ghost predicate StampGroup(group: seq<Path>, u: Update) {
    match u.value
    case DeleteField => group == []
    case Put(v) =>
      if v == STAMP then group == [u.path]
      else if v.Obj? then Enumerates(group, u.path, v, StampLeaf, v.fields.Keys)
      else group == []
  }

  function Concat(groups: seq<seq<Path>>): seq<Path> {
    if groups == [] then [] else Concat(groups[..|groups| - 1]) + groups[|groups| - 1]
  }

  function Paths(us: seq<Update>): seq<Path> {
    seq(|us|, i requires 0 <= i < |us| => us[i].path)
  }

  // ---------- writing below a path ----------

  function Under(p: Path, es: seq<Entry>): seq<Entry> {
    seq(|es|, i requires 0 <= i < |es| => Entry(p + es[i].path, es[i].value))
  }

  lemma SetTwice(d: Json, p: Path, v: Json, w: Json)
    ensures SetAt(SetAt(d, p, v), p, w) == SetAt(d, p, w)
  {
    forall q: Path
      ensures SlotAt(SetAt(SetAt(d, p, v), p, w), q) == SlotAt(SetAt(d, p, w), q)
    {
      SlotAfterSet(SetAt(d, p, v), p, w, q);
      SlotAfterSet(d, p, v, q);
      SlotAfterSet(d, p, w, q);
    }
    Extensionality(SetAt(SetAt(d, p, v), p, w), SetAt(d, p, w));
  }

  lemma {:induction false} LookupAfterSet(d: Json, p: Path, v: Json)
    ensures Lookup(SetAt(d, p, v), p) == Some(v)
    decreases p
  {
    if p != [] {
      LookupAfterSet(ChildOr(d, p[0]), p[1..], v);
    }
  }

  lemma {:induction false} LookupElsewhere(d: Json, p: Path, v: Json, q: Path)
    requires !Comparable(p, q)
    ensures Lookup(SetAt(d, p, v), q) == Lookup(d, q)
    decreases p
  {
    if p[0] == q[0] {
      assert p == [p[0]] + p[1..] && q == [q[0]] + q[1..];
      LookupElsewhere(ChildOr(d, p[0]), p[1..], v, q[1..]);
      assert q[1..] != [] ==> Lookup(EMPTY, q[1..]) == None;
    }
  }

  lemma {:induction false} LookupAfterDelete(d: Json, p: Path)
    requires p != []
    ensures Lookup(DeleteAt(d, p), p) == None
  {
    SlotAfterDelete(d, p, p);
  }

  /** Setting below a value just set is setting inside the value. */
  lemma {:induction false} SetUnder(d: Json, p: Path, c: Json, es: seq<Entry>)
    ensures SetAll(SetAt(d, p, c), Under(p, es)) == SetAt(d, p, SetAll(c, es))
  {
    if es != [] {
      var n := |es| - 1;
      SetUnder(d, p, c, es[..n]);
      assert Under(p, es)[..n] == Under(p, es[..n]);
      var c' := SetAll(c, es[..n]);
      var q, v := es[n].path, es[n].value;
      LookupAfterSet(d, p, c');
      SetAtPrefix(SetAt(d, p, c'), p, q, v);
      SetTwice(d, p, c', SetAt(c', q, v));
    }
  }

  /** The same below a value just deleted, once something is set there. */
  lemma {:induction false} SetUnderDeleted(d: Json, p: Path, es: seq<Entry>)
    requires p != [] && es != []
    ensures SetAll(DeleteAt(d, p), Under(p, es)) == SetAt(d, p, SetAll(EMPTY, es))
  {
    var n := |es| - 1;
    var q, v := es[n].path, es[n].value;
    assert Under(p, es)[..n] == Under(p, es[..n]);
    if n == 0 {
      assert SetAll(DeleteAt(d, p), Under(p, es[..0])) == DeleteAt(d, p);
      assert SetAll(EMPTY, es[..0]) == EMPTY;
      LookupAfterDelete(d, p);
      SetAtPrefix(DeleteAt(d, p), p, q, v);
      SetAfterDelete(d, p, SetAt(EMPTY, q, v));
    } else {
      SetUnderDeleted(d, p, es[..n]);
      var c' := SetAll(EMPTY, es[..n]);
      LookupAfterSet(d, p, c');
      SetAtPrefix(SetAt(d, p, c'), p, q, v);
      SetTwice(d, p, c', SetAt(c', q, v));
    }
  }

  lemma SetSetCommute(d: Json, p: Path, v: Json, q: Path, w: Json)
    requires !Comparable(p, q)
    ensures SetAt(SetAt(d, p, v), q, w) == SetAt(SetAt(d, q, w), p, v)
  {
    forall r: Path
      ensures SlotAt(SetAt(SetAt(d, p, v), q, w), r) == SlotAt(SetAt(SetAt(d, q, w), p, v), r)
    {
      SlotAfterSet(SetAt(d, p, v), q, w, r);
      SlotAfterSet(d, p, v, r);
      SlotAfterSet(SetAt(d, q, w), p, v, r);
      SlotAfterSet(d, q, w, r);
      PrefixOrder(p, r, q);
      PrefixOrder(q, r, p);
    }
    Extensionality(SetAt(SetAt(d, p, v), q, w), SetAt(SetAt(d, q, w), p, v));
  }

  lemma {:induction false} ReplaceCommutes(d: Json, p: Path, outcome: Option<Json>, es: seq<Entry>)
    requires p != [] && forall i :: 0 <= i < |es| ==> !Comparable(p, es[i].path)
    ensures SetAll(Replace(d, p, outcome), es) == Replace(SetAll(d, es), p, outcome)
  {
    if es != [] {
      var n := |es| - 1;
      ReplaceCommutes(d, p, outcome, es[..n]);
      match outcome
      case Some(v) => SetSetCommute(SetAll(d, es[..n]), p, v, es[n].path, es[n].value);
      case None => DeleteSetCommute(SetAll(d, es[..n]), p, es[n].path, es[n].value);
    }
  }

  // ---------- one update ----------

  function Relative(group: seq<Path>, p: Path): seq<Path>
    requires forall i :: 0 <= i < |group| ==> |p| <= |group[i]|
  {
    seq(|group|, i requires 0 <= i < |group| => group[i][|p|..])
  }

  lemma RelativeEnumerates(group: seq<Path>, p: Path, d: Json, kind: Kind, keys: set<string>, rt: string)
    requires Enumerates(group, p, d, kind, keys)
    ensures forall i :: 0 <= i < |group| ==> |p| <= |group[i]|
    ensures Enumerates(Relative(group, p), [], d, kind, keys)
    ensures Entries(group, rt) == Under(p, Entries(Relative(group, p), rt))
  {
    forall i | 0 <= i < |group|
      ensures |p| <= |group[i]| && group[i] == p + group[i][|p|..]
    {
      assert EnumeratedPath(group[i], p, d, kind, keys);
    }
    var rel := Relative(group, p);
    forall i | 0 <= i < |rel|
      ensures EnumeratedPath(rel[i], [], d, kind, keys)
    {
      assert EnumeratedPath(group[i], p, d, kind, keys);
      assert rel[i][0..] == rel[i];
    }
    forall i, j | 0 <= i < j < |rel|
      ensures rel[i] != rel[j]
    {
      assert group[i] == p + rel[i] && group[j] == p + rel[j];
    }
    forall q: Path | q != [] && q[0] in keys && Wanted(SlotAt(d, q), kind)
      ensures [] + q in rel
    {
      assert p + q in group;
      var i :| 0 <= i < |group| && group[i] == p + q;
      assert rel[i] == q && [] + q == q;
    }
    assert forall i :: 0 <= i < |group| ==> Entries(group, rt)[i] == Under(p, Entries(rel, rt))[i];
  }

  lemma GroupBelow(group: seq<Path>, u: Update)
    requires StampGroup(group, u)
    ensures forall i :: 0 <= i < |group| ==> u.path <= group[i]
  {
    if u.value.Put? && u.value.v.Obj? {
      forall i | 0 <= i < |group|
        ensures u.path <= group[i]
      {
        assert EnumeratedPath(group[i], u.path, u.value.v, StampLeaf, u.value.v.fields.Keys);
      }
    }
  }

  /** The body value and then the timestamps of one update put its outcome in place. */
  lemma OneUpdate(d: Json, u: Update, group: seq<Path>, rt: string, ct: string)
    requires u.path != [] && StampGroup(group, u)
    ensures SetAll(Replace(d, u.path, BodyValue(u.value, ct)), Entries(group, rt))
            == Replace(d, u.path, Outcome(u.value, rt, ct))
  {
    var p := u.path;
    if u.value.Put? && u.value.v == STAMP {
      assert Entries(group, rt) == [Entry(p, Str(rt))];
      SetAfterDelete(d, p, Str(rt));
      assert SetAll(DeleteAt(d, p), [Entry(p, Str(rt))]) == SetAt(SetAll(DeleteAt(d, p), []), p, Str(rt)) by {
        assert [Entry(p, Str(rt))][..0] == [];
      }
    } else if u.value.Put? && u.value.v.Obj? {
      var v := u.value.v;
      RelativeEnumerates(group, p, v, StampLeaf, v.fields.Keys, rt);
      var es := Entries(Relative(group, p), rt);
      var c := ClientStamped(Clean(v), ct);
      StampedBody(v, Relative(group, p), rt, ct);
      CleanCompact(v);
      StampedCompact(Clean(v), ct);
      forall i | 0 <= i < |es|
        ensures es[i].path != []
      {
        assert EnumeratedPath(Relative(group, p)[i], [], v, StampLeaf, v.fields.Keys);
      }
      NonEmptyAfterSet(c, es);
      if c != EMPTY {
        SetUnder(d, p, c, es);
      } else if es != [] {
        SetUnderDeleted(d, p, es);
      }
    } else {
      assert Entries(group, rt) == [];
    }
  }

  lemma NonEmptyAfterSet(c: Json, es: seq<Entry>)
    requires forall i :: 0 <= i < |es| ==> es[i].path != []
    ensures es != [] ==> SetAll(c, es) != EMPTY
  {
    if es != [] {
      var n := |es| - 1;
      var p := es[n].path;
      assert p[0] in SetAt(SetAll(c, es[..n]), p, es[n].value).fields;
    }
  }

  lemma {:induction false} ConcatBelow(groups: seq<seq<Path>>, us: seq<Update>, q: Path)
    requires |groups| == |us|
    requires forall i :: 0 <= i < |us| ==> StampGroup(groups[i], us[i]) && !Comparable(us[i].path, q)
    ensures forall i :: 0 <= i < |Concat(groups)| ==> !Comparable(q, Concat(groups)[i])
  {
    if groups != [] {
      var n := |groups| - 1;
      ConcatBelow(groups[..n], us[..n], q);
      GroupBelow(groups[n], us[n]);
      forall i | 0 <= i < |groups[n]|
        ensures !Comparable(q, groups[n][i])
      {
        PrefixOrder(us[n].path, groups[n][i], q);
        PrefixOrder(q, groups[n][i], us[n].path);
        PrefixOrder(us[n].path, q, groups[n][i]);
        NotAbove(us[n].path, groups[n][i], q);
      }
    }
  }

  lemma NotAbove(p: Path, g: Path, q: Path)
    requires p <= g
    ensures g <= q ==> p <= q
  {
  }

  /** `body` and `groups` are the request made of the updates. */
  ghost predicate RequestFor(body: Json, groups: seq<seq<Path>>, us: seq<Update>, ct: string) {
    && |groups| == |us|
    && forall i :: 0 <= i < |us| ==>
         StampGroup(groups[i], us[i]) && Lookup(body, us[i].path) == BodyValue(us[i].value, ct)
  }

  lemma RequestPrefix(body: Json, groups: seq<seq<Path>>, us: seq<Update>, ct: string)
    requires PrefixFreeUpdates(us) && RequestFor(body, groups, us, ct) && us != []
    ensures var n := |us| - 1;
            && PrefixFreeUpdates(us[..n]) && RequestFor(body, groups[..n], us[..n], ct)
            && us[n].path != [] && StampGroup(groups[n], us[n])
                 && Lookup(body, us[n].path) == BodyValue(us[n].value, ct)
            && forall i ::
                 0 <= i < n ==> StampGroup(groups[..n][i], us[..n][i]) && !Comparable(us[..n][i].path, us[n].path)
  {
  }

  /** The whole request leaves the updates' outcomes, one path after the other. */
  lemma {:induction false} AllUpdates(d: Json, body: Json, us: seq<Update>, groups: seq<seq<Path>>, rt: string,
      ct: string)
    requires PrefixFreeUpdates(us) && RequestFor(body, groups, us, ct)
    ensures ApplyTransforms(ApplyMask(d, body, Paths(us)), Concat(groups), rt) == Updated(d, us, rt, ct)
  {
    if us != [] {
      var n := |us| - 1;
      RequestPrefix(body, groups, us, ct);
      AllUpdates(d, body, us[..n], groups[..n], rt, ct);
      var x := ApplyMask(d, body, Paths(us[..n]));
      MaskStep(d, body, us, ct);
      assert ApplyMask(d, body, Paths(us)) == Replace(x, us[n].path, BodyValue(us[n].value, ct));
      assert Concat(groups) == Concat(groups[..n]) + groups[n];
      LastUpdate(x, us[..n], groups[..n], us[n], groups[n], rt, ct);
      assert Updated(d, us, rt, ct) == Replace(Updated(d, us[..n], rt, ct), us[n].path, Outcome(us[n].value, rt, ct));
    } else {
      assert Concat(groups) == [];
    }
  }

  lemma MaskStep(d: Json, body: Json, us: seq<Update>, ct: string)
    requires us != [] && forall i :: 0 <= i < |us| ==> us[i].path != []
    requires Lookup(body, us[|us| - 1].path) == BodyValue(us[|us| - 1].value, ct)
    ensures ApplyMask(d, body, Paths(us)) ==
            Replace(ApplyMask(d, body, Paths(us[..|us| - 1])), us[|us| - 1].path, BodyValue(us[|us| - 1].value, ct))
  {
    var n := |us| - 1;
    assert Paths(us)[..n] == Paths(us[..n]);
  }

  lemma EntriesAppend(a: seq<Path>, b: seq<Path>, rt: string)
    ensures Entries(a + b, rt) == Entries(a, rt) + Entries(b, rt)
  {
  }

  lemma {:induction false} LastUpdate(x: Json, us: seq<Update>, groups: seq<seq<Path>>, u: Update, group: seq<Path>,
      rt: string, ct: string)
    requires |groups| == |us| && u.path != [] && StampGroup(group, u)
    requires forall i :: 0 <= i < |us| ==> StampGroup(groups[i], us[i]) && !Comparable(us[i].path, u.path)
    ensures ApplyTransforms(Replace(x, u.path, BodyValue(u.value, ct)), Concat(groups) + group, rt) ==
            Replace(ApplyTransforms(x, Concat(groups), rt), u.path, Outcome(u.value, rt, ct))
  {
    var stamps := Concat(groups);
    var early := Entries(stamps, rt);
    ConcatBelow(groups, us, u.path);
    assert forall i :: 0 <= i < |early| ==> early[i].path == stamps[i];
    EntriesAppend(stamps, group, rt);
    SetAllAppend(Replace(x, u.path, BodyValue(u.value, ct)), early, Entries(group, rt));
    ReplaceCommutes(x, u.path, BodyValue(u.value, ct), early);
    OneUpdate(SetAll(x, early), u, group, rt, ct);
  }

  // ---------- what the updates leave, path by path ----------

  /** At an updated path stands its outcome, whole. */
  lemma {:induction false} UpdatedAt(d: Json, us: seq<Update>, i: nat, rt: string, ct: string)
    requires PrefixFreeUpdates(us) && i < |us|
    ensures Lookup(Updated(d, us, rt, ct), us[i].path) == Outcome(us[i].value, rt, ct)
  {
    var n := |us| - 1;
    var before := Updated(d, us[..n], rt, ct);
    if i == n {
      match Outcome(us[n].value, rt, ct)
      case Some(v) => LookupAfterSet(before, us[n].path, v);
      case None => LookupAfterDelete(before, us[n].path);
    } else {
      UpdatedAt(d, us[..n], i, rt, ct);
      match Outcome(us[n].value, rt, ct)
      case Some(v) => LookupElsewhere(before, us[n].path, v, us[i].path);
      case None => DeleteElsewhere(before, us[n].path, us[i].path);
    }
  }

  lemma {:induction false} DeleteElsewhere(d: Json, p: Path, q: Path)
    requires p != [] && !Comparable(p, q)
    ensures Lookup(DeleteAt(d, p), q) == Lookup(d, q)
    decreases p
  {
    if d.Obj? && p[0] in d.fields && p[0] == q[0] {
      assert p == [p[0]] + p[1..] && q == [q[0]] + q[1..];
      if |p| > 1 {
        DeleteElsewhere(d.fields[p[0]], p[1..], q[1..]);
      }
    }
  }

  /** Away from every updated path nothing changed. */
  lemma {:induction false} UpdatedAway(d: Json, us: seq<Update>, q: Path, rt: string, ct: string)
    requires PrefixFreeUpdates(us)
    requires forall i :: 0 <= i < |us| ==> !Comparable(us[i].path, q)
    ensures Lookup(Updated(d, us, rt, ct), q) == Lookup(d, q)
  {
    if us != [] {
      var n := |us| - 1;
      var before := Updated(d, us[..n], rt, ct);
      UpdatedAway(d, us[..n], q, rt, ct);
      match Outcome(us[n].value, rt, ct)
      case Some(v) => LookupElsewhere(before, us[n].path, v, q);
      case None => DeleteElsewhere(before, us[n].path, q);
    }
  }

  // ---------- any order ----------

  lemma SlotAfterReplace(d: Json, p: Path, o: Option<Json>, q: Path)
    requires p != []
    ensures SlotAt(Replace(d, p, o), q) ==
            match o
            case Some(v) => if p <= q then SlotAt(v, q[|p|..]) else if q <= p then Map else SlotAt(d, q)
            case None => if p <= q then Absent else SlotAt(d, q)
  {
    match o
    case Some(v) => SlotAfterSet(d, p, v, q);
    case None => SlotAfterDelete(d, p, q);
  }

  lemma ReplaceReplace(d: Json, p: Path, o: Option<Json>, q: Path, w: Option<Json>)
    requires p != [] && q != [] && !Comparable(p, q)
    ensures Replace(Replace(d, p, o), q, w) == Replace(Replace(d, q, w), p, o)
  {
    forall r: Path
      ensures SlotAt(Replace(Replace(d, p, o), q, w), r) == SlotAt(Replace(Replace(d, q, w), p, o), r)
    {
      SlotAfterReplace(Replace(d, p, o), q, w, r);
      SlotAfterReplace(d, p, o, r);
      SlotAfterReplace(Replace(d, q, w), p, o, r);
      SlotAfterReplace(d, q, w, r);
      PrefixOrder(p, r, q);
      PrefixOrder(q, r, p);
    }
    Extensionality(Replace(Replace(d, p, o), q, w), Replace(Replace(d, q, w), p, o));
  }

  lemma LastOf(a: seq<Update>, u: Update, b: seq<Update>)
    requires PrefixFreeUpdates(a + [u] + b) && b != []
    ensures var us, n := a + [u] + b, |b| - 1;
            && us[..|us| - 1] == a + [u] + b[..n] && us[|us| - 1] == b[n]
            && (a + b)[..|a + b| - 1] == a + b[..n] && (a + b)[|a + b| - 1] == b[n]
            && PrefixFreeUpdates(a + [u] + b[..n]) && b[n].path != [] && !Comparable(u.path, b[n].path)
  {
    var us, n := a + [u] + b, |b| - 1;
    assert us[|a|] == u && us[..|us| - 1] == a + [u] + b[..n] && us[|us| - 1] == b[n];
    assert !Comparable(us[|a|].path, us[|us| - 1].path);
  }

  lemma {:induction false} UpdateMovedLast(d: Json, a: seq<Update>, u: Update, b: seq<Update>, rt: string, ct: string)
    requires PrefixFreeUpdates(a + [u] + b)
    ensures PrefixFreeUpdates(a + b) && (a + [u] + b)[|a|] == u && u.path != []
    ensures Updated(d, a + [u] + b, rt, ct) == Replace(Updated(d, a + b, rt, ct), u.path, Outcome(u.value, rt, ct))
  {
    var us := a + [u] + b;
    assert us[|a|] == u;
    DropOne(a, u, b);
    if b == [] {
      assert us[..|us| - 1] == a && a + b == a;
    } else {
      var n := |b| - 1;
      LastOf(a, u, b);
      UpdateMovedLast(d, a, u, b[..n], rt, ct);
      ReplaceReplace(Updated(d, a + b[..n], rt, ct), u.path, Outcome(u.value, rt, ct), b[n].path,
          Outcome(b[n].value, rt, ct));
    }
  }

  lemma DropOne(a: seq<Update>, u: Update, b: seq<Update>)
    requires PrefixFreeUpdates(a + [u] + b)
    ensures PrefixFreeUpdates(a + b)
  {
    var us, vs := a + [u] + b, a + b;
    forall i | 0 <= i < |vs|
      ensures vs[i] == us[if i < |a| then i else i + 1]
    {
    }
  }

  /** The order of the keys does not matter. */
  lemma {:induction false} UpdatedInAnyOrder(d: Json, us: seq<Update>, vs: seq<Update>, rt: string, ct: string)
    requires PrefixFreeUpdates(us) && PrefixFreeUpdates(vs) && multiset(us) == multiset(vs)
    ensures Updated(d, us, rt, ct) == Updated(d, vs, rt, ct)
    decreases |vs|
  {
    if vs == [] {
      assert |us| == |multiset(us)|;
    } else {
      var n := |vs| - 1;
      assert vs == vs[..n] + [vs[n]];
      var a, b := TakeOut(us, vs[n], vs[..n]);
      UpdateMovedLast(d, a, vs[n], b, rt, ct);
      UpdatedInAnyOrder(d, a + b, vs[..n], rt, ct);
    }
  }

  lemma TakeOut(us: seq<Update>, v: Update, rest: seq<Update>) returns (a: seq<Update>, b: seq<Update>)
    requires multiset(us) == multiset(rest + [v])
    ensures us == a + [v] + b && multiset(a + b) == multiset(rest)
  {
    assert v in multiset(us);
    var i :| 0 <= i < |us| && us[i] == v;
    a, b := us[..i], us[i + 1..];
    assert us == a + [v] + b;
    assert multiset(us) == multiset(a) + multiset{v} + multiset(b);
    assert multiset(a + b) == multiset(a) + multiset(b) == multiset(us) - multiset{v};
    assert multiset(rest + [v]) == multiset(rest) + multiset{v};
  }
}
