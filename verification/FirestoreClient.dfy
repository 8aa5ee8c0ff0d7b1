/** The Firestore client's document writes, against the server's field-mask meaning. */
module FirestoreClient {
  import opened Json
  import opened FieldPaths
  import opened FirestoreCodec
  import opened MergeWrite
  import opened FirestoreServer
  import opened PayloadWrite
  import opened UpdateWrite
  import opened PushPrediction

  // ---------- the client ----------

  method FlattenFieldPaths(data: Json, prefix: Path) returns (paths: seq<Path>)
    requires data.Obj?
    ensures Enumerates(paths, prefix, data, AnyLeaf, data.fields.Keys)
    decreases data
  {
    paths := [];
    var rest := data.fields.Keys;
    assert data.fields.Keys - rest == {};
    while rest != {}
      invariant rest <= data.fields.Keys
      invariant Enumerates(paths, prefix, data, AnyLeaf, data.fields.Keys - rest)
      decreases rest
    {
      var key :| key in rest;
      var value := data.fields[key];
      ghost var done := data.fields.Keys - rest;
      if value.Obj? {
        var nested := FlattenFieldPaths(value, prefix + [key]);
        EnumerateNested(paths, nested, prefix, data, AnyLeaf, done, key);
        paths := paths + nested;
      } else {
        EnumerateLeaf(paths, prefix, data, AnyLeaf, done, key);
        paths := paths + [prefix + [key]];
      }
      rest := rest - {key};
      assert data.fields.Keys - rest == done + {key};
    }
    assert data.fields.Keys - rest == data.fields.Keys;
  }

  method ExtractServerTimestamps(data: Json, prefix: Path) returns (cleaned: Json, fieldPaths: seq<Path>)
    requires data.Obj?
    ensures cleaned == Clean(data)
    ensures Enumerates(fieldPaths, prefix, data, StampLeaf, data.fields.Keys)
    decreases data
  {
    var kept: map<string, Json> := map[];
    fieldPaths := [];
    var rest := data.fields.Keys;
    assert data.fields.Keys - rest == {};
    while rest != {}
      invariant rest <= data.fields.Keys
      invariant forall k :: k in kept <==>
                  k in data.fields.Keys - rest && data.fields[k] != STAMP && Clean(data.fields[k]) != EMPTY
      invariant forall k :: k in kept ==> kept[k] == Clean(data.fields[k])
      invariant Enumerates(fieldPaths, prefix, data, StampLeaf, data.fields.Keys - rest)
      decreases rest
    {
      var key :| key in rest;
      var value := data.fields[key];
      ghost var done := data.fields.Keys - rest;
      if value == STAMP {
        EnumerateLeaf(fieldPaths, prefix, data, StampLeaf, done, key);
        fieldPaths := fieldPaths + [prefix + [key]];
      } else if value.Obj? {
        var nestedCleaned, nestedPaths := ExtractServerTimestamps(value, prefix + [key]);
        if nestedCleaned != EMPTY {
          kept := kept[key := nestedCleaned];
        }
        EnumerateNested(fieldPaths, nestedPaths, prefix, data, StampLeaf, done, key);
        fieldPaths := fieldPaths + nestedPaths;
      } else {
        kept := kept[key := value];
        EnumerateUnwanted(fieldPaths, prefix, data, StampLeaf, done, key);
      }
      rest := rest - {key};
      assert data.fields.Keys - rest == done + {key};
    }
    assert data.fields.Keys - rest == data.fields.Keys;
    cleaned := Obj(kept);
    assert kept == Clean(data).fields;
  }

  /** The client, pointed at one document: `stored` is what the server holds there. */
  class FirestoreRestClient {
    var stored: Option<Json>

    constructor (stored: Option<Json>)
      ensures this.stored == stored
    {
      this.stored := stored;
    }

    method Send(w: Write, requestTime: string)
      requires forall i :: 0 <= i < |w.mask| ==> w.mask[i] != []
      modifies this
      ensures stored == Some(ServerWrite(old(stored), w, requestTime))
    {
      stored := Some(ServerWrite(stored, w, requestTime));
    }

    /** A merge write deep-merges the resolved payload into the document, and a plain one replaces the
        document by it. `sent` is the request: its mask never names a path twice, nor one inside another. */
    method SetDocument(data: Json, merge: bool, requestTime: string, clientTime: string) returns (sent: Write)
      requires data.Obj? && Stored(stored).Obj?
      modifies this
      ensures Stored(stored).Obj?
      ensures merge ==> stored == Some(Merged(old(stored), data, requestTime, clientTime))
      ensures !merge ==> stored == Some(Resolve(data, requestTime, clientTime))
      ensures Incomparable(sent.mask)
    {
      var cleaned, timestampPaths := ExtractServerTimestamps(data, []);
      CleanCompact(data);
      ResolveCompact(data, requestTime, clientTime);
      var body := ClientStamped(cleaned, clientTime);
      StampedBody(data, timestampPaths, requestTime, clientTime);
      if merge {
        var flat := FlattenFieldPaths(cleaned, []);
        PayloadLeaves(data, flat, timestampPaths, requestTime, clientTime);
        MaskedPayload(Stored(stored), data, flat, timestampPaths, requestTime, clientTime);
        MaskEmptiness(data, flat, timestampPaths, requestTime, clientTime);
        NoLeafNoData(data, flat, clientTime);
        sent := Write(body, flat + timestampPaths, timestampPaths);
      } else {
        sent := Write(body, [], timestampPaths);
      }
      Send(sent, requestTime);
    }

    /** Every addressed path holds its outcome afterwards, and nothing else has changed (`Updated`).
        Without any update there is no mask, so the write replaces the document by nothing. */
    method UpdateDocument(updates: seq<Update>, requestTime: string, clientTime: string)
      requires PrefixFreeUpdates(updates) && TimestampsUndotted(updates) && Stored(stored).Obj?
      modifies this
      ensures stored
              == Some(if updates == [] then EMPTY else Updated(Stored(old(stored)), updates, requestTime, clientTime))
    {
      var bodyValues, timestampPaths, groups := ExtractFromUpdates(updates, clientTime);
      var fields := BodyFields(updates, bodyValues, clientTime);
      AllUpdates(Stored(stored), fields, updates, groups, requestTime, clientTime);
      Send(Write(fields, Paths(updates), timestampPaths), requestTime);
    }
  }

  /** A dotted key is one segment to the transforms and several to the mask, so its value must hold no timestamp. */
  predicate TimestampsUndotted(updates: seq<Update>) {
    forall i :: 0 <= i < |updates| && |updates[i].path| > 1 && updates[i].value.Put? ==> !HasStamp(updates[i].value.v)
  }

  predicate HasStamp(v: Json) {
    v == STAMP || (v.Obj? && exists k :: k in v.fields && HasStamp(v.fields[k]))
  }

  /** The extraction of timestamps as it runs over the updates: the value each key sends, if any, and the
      paths to stamp. `groups` says which update each of those paths belongs to. */
  method ExtractFromUpdates(updates: seq<Update>, clientTime: string)
    returns (bodyValues: seq<Option<Json>>, timestampPaths: seq<Path>, ghost groups: seq<seq<Path>>)
    requires PrefixFreeUpdates(updates)
    ensures |bodyValues| == |updates|
    ensures forall i :: 0 <= i < |updates| ==> bodyValues[i] == BodyValue(updates[i].value, clientTime)
    ensures |groups| == |updates| && forall i :: 0 <= i < |updates| ==> StampGroup(groups[i], updates[i])
    ensures timestampPaths == Concat(groups)
  {
    bodyValues, timestampPaths, groups := [], [], [];
    var i := 0;
    while i < |updates|
      invariant 0 <= i <= |updates|
      invariant |bodyValues| == |groups| == i
      invariant forall j :: 0 <= j < i ==>
                  bodyValues[j] == BodyValue(updates[j].value, clientTime) && StampGroup(groups[j], updates[j])
      invariant timestampPaths == Concat(groups)
    {
      var sent, found := ExtractFromUpdate(updates[i], clientTime);
      assert (groups + [found])[..i] == groups;
      bodyValues, timestampPaths, groups := bodyValues + [sent], timestampPaths + found, groups + [found];
      i := i + 1;
    }
  }

  /** One update: what it sends, if anything, and the paths it asks to have stamped. */
  method ExtractFromUpdate(u: Update, clientTime: string) returns (sent: Option<Json>, found: seq<Path>)
    requires u.path != []
    ensures sent == BodyValue(u.value, clientTime) && StampGroup(found, u)
  {
    sent, found := None, [];
    if u.value.Put? {
      var v := u.value.v;
      if v == STAMP {
        found := [u.path];
      } else if v.Obj? {
        var cleaned, nested := ExtractServerTimestamps(v, u.path);
        found := nested;
        if cleaned != EMPTY {
          sent := Some(ClientStamped(cleaned, clientTime));
        }
      } else {
        sent := Some(ClientStamped(v, clientTime));
      }
    }
  }

  /** What the walk over the updates keeps: bodies in place up to `i`, the other paths free and reachable. */
  ghost predicate BodyUpTo(fields: Json, updates: seq<Update>, i: nat, ct: string) {
    && fields.Obj? && i <= |updates|
    && (forall j :: 0 <= j < i ==> Lookup(fields, updates[j].path) == BodyValue(updates[j].value, ct))
    && (forall j :: i <= j < |updates| ==> PathClear(fields, updates[j].path) && Lookup(fields, updates[j].path).None?)
  }

  lemma BodyStep(fields: Json, updates: seq<Update>, i: nat, ct: string)
    requires PrefixFreeUpdates(updates) && i < |updates| && BodyUpTo(fields, updates, i, ct)
    ensures var v := BodyValue(updates[i].value, ct);
            BodyUpTo(if v.Some? then SetAt(fields, updates[i].path, v.value) else fields, updates, i + 1, ct)
  {
    var v, p := BodyValue(updates[i].value, ct), updates[i].path;
    if v.Some? {
      LookupAfterSet(fields, p, v.value);
      forall j | 0 <= j < |updates| && j != i
        ensures Lookup(SetAt(fields, p, v.value), updates[j].path) == Lookup(fields, updates[j].path)
        ensures j > i ==> PathClear(SetAt(fields, p, v.value), updates[j].path)
      {
        assert !Comparable(p, updates[j].path);
        LookupElsewhere(fields, p, v.value, updates[j].path);
        if j > i {
          SetKeepsPathClear(fields, p, v.value, updates[j].path);
        }
      }
    }
  }

  method BodyFields(updates: seq<Update>, bodyValues: seq<Option<Json>>, ghost ct: string) returns (fields: Json)
    requires PrefixFreeUpdates(updates) && |bodyValues| == |updates|
    requires forall i :: 0 <= i < |updates| ==> bodyValues[i] == BodyValue(updates[i].value, ct)
    ensures forall i :: 0 <= i < |updates| ==> Lookup(fields, updates[i].path) == bodyValues[i]
    ensures updates == [] ==> fields == EMPTY
  {
    fields := EMPTY;
    var i := 0;
    while i < |updates|
      invariant 0 <= i <= |updates|
      invariant BodyUpTo(fields, updates, i, ct)
      invariant updates == [] ==> fields == EMPTY
    {
      BodyStep(fields, updates, i, ct);
      if bodyValues[i].Some? {
        fields := PutAtCursor(fields, updates[i].path, bodyValues[i].value);
      }
      i := i + 1;
    }
  }

  /** The cursor walk: down through the objects on the way, made where missing, to the last segment.
      `above` keeps the objects the cursor has passed, to be put back around the one that changed. */
  method PutAtCursor(fields: Json, parts: Path, v: Json) returns (out: Json)
    requires fields.Obj? && parts != [] && PathClear(fields, parts)
    ensures out == SetAt(fields, parts, v)
  {
    var above: seq<Json> := [];
    var current := fields;
    var i := 0;
    while i < |parts| - 1
      invariant 0 <= i < |parts| && |above| == i
      invariant current.Obj? && PathClear(current, parts[i..])
      invariant forall j :: 0 <= j < i ==> above[j].Obj?
      invariant forall w: Json :: Rewrapped(above, parts[..i], SetAt(current, parts[i..], w)) == SetAt(fields, parts, w)
    {
      assert parts[i..][1..] == parts[i + 1..] && parts[..i + 1][..i] == parts[..i];
      assert (above + [current])[..i] == above;
      above := above + [current];
      current := if parts[i] in current.fields then current.fields[parts[i]] else EMPTY;
      i := i + 1;
    }
    assert parts[i..] == [parts[i]];
    out := Obj(current.fields[parts[i] := v]);
    assert out == SetAt(current, parts[i..], v);
    assert Rewrapped(above, parts[..i], SetAt(current, parts[i..], v)) == SetAt(fields, parts, v);
    assert above[..i] == above;
    while i > 0
      invariant 0 <= i <= |above| && |above| < |parts|
      invariant Rewrapped(above[..i], parts[..i], out) == SetAt(fields, parts, v)
    {
      i := i - 1;
      assert above[..i + 1][..i] == above[..i] && parts[..i + 1][..i] == parts[..i];
      out := Obj(above[i].fields[parts[i] := out]);
    }
  }

  /** `inner` put back inside the objects passed on the way to it. */
  ghost function Rewrapped(above: seq<Json>, keys: Path, inner: Json): Json
    requires |above| == |keys|
  {
    if above == [] then inner
    else
      var n := |above| - 1;
      Rewrapped(above[..n], keys[..n], Obj(FieldsOf(above[n])[keys[n] := inner]))
  }
}
