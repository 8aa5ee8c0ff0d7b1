/** The shape check a desired layout must pass, and what of it survives when the monitors are keyed by hash. */
module LayoutValidation {
  import opened Json
  import opened FieldPaths
  import opened LayoutRewrite

  datatype Code = InvalidInput | InvalidRotation | ZeroPrimary | MultiplePrimary

  predicate Truthy(j: Json) {
    match j
    case Null => false
    case Bool(b) => b
    case Int(i) => i != 0
    case Float(r) => r != 0.0
    case Str(s) => s != ""
    case List(items) => items != []
    case Obj(fields) => fields != map[]
  }

  predicate Has(j: Json, key: string) {
    j.Obj? && key in j.fields
  }

  predicate Identified(m: Json) {
    && Has(m, "edidHash") && Truthy(m.fields["edidHash"])
    && Has(m, "position") && Has(m.fields["position"], "x") && Has(m.fields["position"], "y")
  }

  /** A rotation is compared by value: 90.0 and 90 are the same, and so are false and 0. */
  predicate Canonical(rotation: Json) {
    match rotation
    case Int(i) => i in {0, 90, 180, 270}
    case Float(r) => r in {0.0, 90.0, 180.0, 270.0}
    case Bool(b) => !b
    case _ => false
  }

  /** A rotation that is absent or null passes. */
  predicate Turnable(m: Json) {
    Has(m, "rotation") && m.fields["rotation"] != Json.Null ==> Canonical(m.fields["rotation"])
  }

  predicate WellFormed(m: Json) {
    Identified(m) && Turnable(m)
  }

  predicate MarkedPrimary(m: Json) {
    Has(m, "primary") && m.fields["primary"] == Bool(true)
  }

  function Primaries(monitors: seq<Json>): nat {
    if monitors == [] then 0
    else Primaries(monitors[..|monitors| - 1]) + if MarkedPrimary(monitors[|monitors| - 1]) then 1 else 0
  }

  function MonitorsOf(layout: Json): seq<Json> {
    if Has(layout, "monitors") && layout.fields["monitors"].List? then layout.fields["monitors"].items else []
  }

  lemma TruthyExactly(j: Json)
    ensures Truthy(j) <==>
              j !in [Json.Null, Bool(false), Int(0), Float(0.0), Str(""), List([]), EMPTY]
  {
  }

  lemma CanonicalExactly(j: Json)
    ensures Canonical(j) <==>
              || j == Bool(false)
              || (j.Int? && FromDegrees(j.i).Some?)
              || (j.Float? && j.r == j.r.Floor as real && FromDegrees(j.r.Floor).Some?)
  {
  }

  /** What the check looks at in one monitor: a hash that is not empty in Python's sense, a position with both its
      coordinates, a rotation that is missing, null or one the rewrite knows a code for (see `CanonicalExactly`),
      and a primary mark that is the boolean. */
  lemma ShapeExactly(m: Json)
    ensures Identified(m) <==>
              && Lookup(m, ["edidHash"]).Some? && Truthy(Lookup(m, ["edidHash"]).value)
              && Lookup(m, ["position", "x"]).Some? && Lookup(m, ["position", "y"]).Some?
    ensures var found := Lookup(m, ["rotation"]);
            Turnable(m) <==> found.None? || found.value.Null? || Canonical(found.value)
    ensures WellFormed(m) <==> Identified(m) && (Lookup(m, ["rotation"]) in {None, Some(Json.Null)}
                                                 || Canonical(Lookup(m, ["rotation"]).value))
    ensures MarkedPrimary(m) <==> Lookup(m, ["primary"]) == Some(Bool(true))
  {
    LookupOnce(m, "edidHash");
    LookupOnce(m, "rotation");
    LookupOnce(m, "primary");
    LookupTwice(m, "position", "x");
    LookupTwice(m, "position", "y");
  }

  lemma LookupOnce(j: Json, k: string)
    ensures Lookup(j, [k]) == if Has(j, k) then Some(j.fields[k]) else None
  {
    assert [k][1..] == [];
  }

  lemma LookupTwice(j: Json, k: string, l: string)
    ensures Lookup(j, [k, l]).Some? <==> Has(j, k) && Has(j.fields[k], l)
  {
    assert [k, l][1..] == [l];
    if Has(j, k) {
      LookupOnce(j.fields[k], l);
    }
  }

  lemma MonitorsExactly(layout: Json)
    ensures var found := Lookup(layout, ["monitors"]);
            MonitorsOf(layout) == if found.Some? && found.value.List? then found.value.items else []
  {
    LookupOnce(layout, "monitors");
  }

  /** The monitors marked primary, by their place in the list. */
  ghost function PrimaryPlaces(monitors: seq<Json>): set<nat> {
    set i: nat | i < |monitors| && MarkedPrimary(monitors[i])
  }

  lemma {:induction false} PrimariesAreCounted(monitors: seq<Json>)
    ensures Primaries(monitors) == |PrimaryPlaces(monitors)|
  {
    if monitors != [] {
      var n := |monitors| - 1;
      PrimariesAreCounted(monitors[..n]);
      var before := PrimaryPlaces(monitors[..n]);
      assert PrimaryPlaces(monitors) == before + if MarkedPrimary(monitors[n]) then {n} else {};
    }
  }

  /** Passes exactly the layouts with monitors, all well-formed, and one primary; reports a primary count only of
      a layout otherwise in order, and a bad rotation only when it is the first fault. */
  method ValidateDesiredLayout(layout: Json) returns (fault: Option<Code>)
    ensures var ms := MonitorsOf(layout);
            var sound := ms != [] && forall i :: 0 <= i < |ms| ==> WellFormed(ms[i]);
            && (fault == None <==> sound && Primaries(ms) == 1)
            && (fault == Some(ZeroPrimary) <==> sound && Primaries(ms) == 0)
            && (fault == Some(MultiplePrimary) <==> sound && Primaries(ms) > 1)
            && (fault == Some(InvalidRotation) <==>
                  exists i :: 0 <= i < |ms| && Identified(ms[i]) && !Turnable(ms[i])
                           && forall k :: 0 <= k < i ==> WellFormed(ms[k]))
  {
    var ms := MonitorsOf(layout);
    if ms == [] {
      return Some(InvalidInput);
    }
    var primaryCount := 0;
    for i := 0 to |ms|
      invariant forall k :: 0 <= k < i ==> WellFormed(ms[k])
      invariant primaryCount == Primaries(ms[..i])
    {
      if !Identified(ms[i]) {
        return Some(InvalidInput);
      }
      if !Turnable(ms[i]) {
        return Some(InvalidRotation);
      }
      assert ms[..i + 1][..i] == ms[..i];
      if MarkedPrimary(ms[i]) {
        primaryCount := primaryCount + 1;
      }
    }
    assert ms[..|ms|] == ms;
    if primaryCount == 0 {
      return Some(ZeroPrimary);
    }
    return if primaryCount > 1 then Some(MultiplePrimary) else None;
  }

  // ---------- keyed by hash ----------

  datatype Entry = Entry(hash: Hash, desired: Desired)

  /** A later monitor with the same hash takes the place of an earlier one. */
  function ByHash(entries: seq<Entry>): map<Hash, Desired> {
    if entries == [] then map[]
    else
      var e := entries[|entries| - 1];
      ByHash(entries[..|entries| - 1])[e.hash := e.desired]
  }

  /** Entry `k` is the last with its hash. */
  predicate Survives(entries: seq<Entry>, k: int) {
    0 <= k < |entries| && forall j :: k < j < |entries| ==> entries[j].hash != entries[k].hash
  }

  lemma {:induction false} ByHashIsLast(entries: seq<Entry>, h: Hash)
    ensures h in ByHash(entries) <==> exists k :: Survives(entries, k) && entries[k].hash == h
    ensures forall k ::
            Survives(entries, k) && entries[k].hash == h ==>
                h in ByHash(entries) && ByHash(entries)[h] == entries[k].desired
  {
    if entries != [] {
      var n := |entries| - 1;
      var most := entries[..n];
      ByHashIsLast(most, h);
      assert Survives(entries, n);
      forall k | 0 <= k < n && entries[k].hash == h
        ensures Survives(entries, k) <==> Survives(most, k) && entries[n].hash != h
      {
        assert forall j :: k < j < n ==> most[j] == entries[j];
      }
      assert entries[n].hash != h ==> forall k :: Survives(most, k) && most[k].hash == h ==> Survives(entries, k);
    }
  }

  /** Of a layout with one monitor marked primary, the keyed layout has a primary exactly when no later monitor
      carries the primary's hash: the shape check does not ask for distinct hashes. */
  lemma PrimarySurvives(entries: seq<Entry>, p: nat)
    requires p < |entries|
    requires forall k :: 0 <= k < |entries| ==> (entries[k].desired.primary <==> k == p)
    ensures (exists h :: h in ByHash(entries) && ByHash(entries)[h].primary) <==> Survives(entries, p)
    ensures var keyed := ByHash(entries);
            forall g, h :: g in keyed && h in keyed && keyed[g].primary && keyed[h].primary ==> g == h
  {
    var keyed := ByHash(entries);
    forall h | h in keyed && keyed[h].primary ensures Survives(entries, p) && entries[p].hash == h {
      ByHashIsLast(entries, h);
      var k :| Survives(entries, k) && entries[k].hash == h;
      assert entries[k].desired.primary;
    }
    if Survives(entries, p) {
      ByHashIsLast(entries, entries[p].hash);
    }
  }
}
