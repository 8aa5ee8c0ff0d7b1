/** The in-place rewrite of the live path and mode arrays into a desired layout, and what it is for: the
    primary at the origin, everything else where it was asked to be relative to it, and nothing else touched.
    Refresh rates are reals; rounding is to nearest, ties to even. */
module LayoutRewrite {
  import opened Json
  import opened DisplayConfig

  type Hash = string

  datatype Resolution = Resolution(width: Option<int>, height: Option<int>)

  /** A key that may be absent, or present and null. */
  datatype Rotation = Absent | Null | Degrees(degrees: int)

  datatype Desired = Desired(
    x: int, y: int, primary: bool, resolution: Option<Resolution>, rotation: Rotation, refreshHz: Option<real>)

  datatype Monitor = Monitor(adapter: Luid, id: uint32)

  datatype Change =
    | PositionChange(monitor: Monitor, fromX: int, fromY: int, toX: int, toY: int)
    | ResolutionChange(monitor: Monitor, fromWidth: int, fromHeight: int, toWidth: int, toHeight: int)
    | RotationChange(monitor: Monitor, fromDegrees: int, toDegrees: int)
    | RefreshChange(monitor: Monitor, fromHz: real, toHz: real)
    | PrimaryChange(monitor: Monitor)

  /** A matched path and the monitor wanted there. */
  datatype Match = Match(path: nat, desired: Desired)

  datatype Offset = Offset(x: int, y: int)

  const NO_OFFSET := Offset(0, 0)

  // ---------- rates and rotations ----------

  function RoundHalfEven(x: real): int {
    var f := x.Floor;
    var d := x - f as real;
    if d < 0.5 then f else if d > 0.5 then f + 1 else if f % 2 == 0 then f else f + 1
  }

  function RoundCents(x: real): real {
    RoundHalfEven(x * 100.0) as real / 100.0
  }

  function Abs(x: real): (r: real)
    ensures r >= 0.0 && (r == x || r == -x)
  {
    if x < 0.0 then -x else x
  }

  function RefreshHz(num: int, den: int): real {
    if den == 0 then 0.0 else RoundCents(num as real / den as real)
  }

  function Thousandths(hz: real): int {
    RoundHalfEven(hz * 1000.0)
  }

  const TOLERANCE: real := 0.01

  /** Rounding is to the nearest integer, and of two equally near to the even one. */
  lemma RoundedExactly(x: real)
    ensures Abs(RoundHalfEven(x) as real - x) < 0.5
            || (Abs(RoundHalfEven(x) as real - x) == 0.5 && RoundHalfEven(x) % 2 == 0)
  {
  }

  /** A rate is read as its quotient in hundredths, and stored in thousandths. */
  lemma RatesRead(num: int, den: int, hz: real) returns (hundredths: int)
    requires den != 0
    ensures RefreshHz(num, den) == hundredths as real / 100.0
    ensures Abs(hundredths as real - 100.0 * (num as real / den as real)) <= 0.5
    ensures RefreshHz(num, 0) == 0.0
    ensures Abs(Thousandths(hz) as real - 1000.0 * hz) <= 0.5
  {
    hundredths := RoundHalfEven(num as real / den as real * 100.0);
    RoundNear(num as real / den as real * 100.0);
    RoundNear(hz * 1000.0);
  }

  lemma RoundNear(x: real)
    ensures Abs(RoundHalfEven(x) as real - x) <= 0.5
  {
  }

  /** A rate stored in thousandths and read back in hundredths is within the tolerance of the rate asked for. */
  lemma StoredRateSettles(hz: real)
    ensures -0.01 <= RefreshHz(Thousandths(hz), 1000) - hz <= 0.01
  {
    RoundNear(hz * 1000.0);
    var n := Thousandths(hz);
    RoundNear((n as real / 1000.0) * 100.0);
  }

  /** A rate too large for the field reads back, after it has wrapped, nowhere near itself. */
  lemma WrappedRateNeverSettles(hz: real)
    requires hz > 0.0 && Thousandths(hz) >= TWO_32
    ensures Abs(RefreshHz(ToUint32(Thousandths(hz)), 1000) - hz) > 0.01
  {
    var n := Thousandths(hz);
    RoundNear(hz * 1000.0);
    var w := ToUint32(n);
    assert w <= n - TWO_32;
    RoundNear((w as real / 1000.0) * 100.0);
  }

  function FromDegrees(degrees: int): Option<uint32> {
    match degrees
    case 0 => Some(1)
    case 90 => Some(2)
    case 180 => Some(3)
    case 270 => Some(4)
    case _ => None
  }

  function ToDegrees(rotation: uint32): int {
    match rotation
    case 2 => 90
    case 3 => 180
    case 4 => 270
    case _ => 0
  }

  /** The codes of the structure: 1 to 4 are no turn and one, two and three quarter turns, and any other code reads
      as no turn. */
  lemma RotationCodes(quarters: nat, degrees: int, code: uint32)
    ensures quarters < 4 ==>
              FromDegrees(90 * quarters) == Some(quarters + 1) && ToDegrees(quarters + 1) == 90 * quarters
    ensures FromDegrees(degrees).Some? <==> 0 <= degrees < 360 && degrees % 90 == 0
    ensures !(1 <= code <= 4) ==> ToDegrees(code) == 0
  {
    if 0 <= degrees < 360 && degrees % 90 == 0 {
      assert degrees / 90 in {0, 1, 2, 3};
    }
  }

  lemma RotationRoundTrip(degrees: int)
    ensures FromDegrees(degrees).Some? ==> ToDegrees(FromDegrees(degrees).value) == degrees
  {
  }

  // ---------- one monitor ----------

  /** Where the monitor is to be, the primary being at the origin. */
  function Target(d: Desired, o: Offset): Offset {
    Offset(d.x - o.x, d.y - o.y)
  }

  function Width(s: Source, r: Resolution): int {
    if r.width.Some? then r.width.value else s.width
  }

  function Height(s: Source, r: Resolution): int {
    if r.height.Some? then r.height.value else s.height
  }

  predicate MovesTo(s: Source, t: Offset) {
    s.x != t.x || s.y != t.y
  }

  predicate Resizes(s: Source, d: Desired) {
    && d.resolution.Some?
    && var r := d.resolution.value;
    Width(s, r) > 0 && Height(s, r) > 0 && (s.width != Width(s, r) || s.height != Height(s, r))
  }

  predicate Rotates(p: Path, d: Desired) {
    && d.rotation.Degrees?
    && var r := FromDegrees(d.rotation.degrees);
    r.Some? && p.target.rotation != r.value
  }

  predicate Retimes(p: Path, d: Desired) {
    && d.refreshHz.Some? && d.refreshHz.value > 0.0
    && Abs(RefreshHz(p.target.refreshNum, p.target.refreshDen) - d.refreshHz.value) > TOLERANCE
  }

  function RewriteSource(s: Source, d: Desired, o: Offset): Source {
    var t := Target(d, o);
    var moved := if MovesTo(s, t) then s.(x := ToInt32(t.x), y := ToInt32(t.y)) else s;
    if Resizes(moved, d) then
      moved.(width := ToUint32(Width(s, d.resolution.value)), height := ToUint32(Height(s, d.resolution.value)))
    else moved
  }

  /** The path made active, with a rotation and a rate in thousandths set if there are any to set. */
  function SetPath(p: Path, rotation: Option<uint32>, rate: Option<uint32>): Path {
    var turned := if rotation.Some? then p.target.(rotation := rotation.value) else p.target;
    var timed := if rate.Some? then turned.(refreshNum := rate.value, refreshDen := 1000) else turned;
    p.(flags := p.flags | ACTIVE, target := timed)
  }

  function RewritePath(p: Path, d: Desired): Path {
    SetPath(p,
            if Rotates(p, d) then FromDegrees(d.rotation.degrees) else None,
            if Retimes(p, d) then Some(ToUint32(Thousandths(d.refreshHz.value))) else None)
  }

  function IdOf(p: Path): Monitor {
    Monitor(p.target.adapter, p.target.id)
  }

  function SourceChanges(m: Monitor, s: Source, d: Desired, o: Offset): seq<Change> {
    var t := Target(d, o);
    (if MovesTo(s, t) then [PositionChange(m, s.x, s.y, t.x, t.y)] else [])
    + (if Resizes(s, d) then
         [ResolutionChange(m, s.width, s.height, Width(s, d.resolution.value), Height(s, d.resolution.value))]
       else [])
  }

  function TargetChanges(p: Path, d: Desired): seq<Change> {
    (if Rotates(p, d) then [RotationChange(IdOf(p), ToDegrees(p.target.rotation), d.rotation.degrees)] else [])
    + (if Retimes(p, d) then
         [RefreshChange(IdOf(p), RefreshHz(p.target.refreshNum, p.target.refreshDen), RoundCents(d.refreshHz.value))]
       else [])
  }

  /** The source mode of a path, if its index leads to one. */
  function SourceIndex(c: Config, p: Path): Option<nat> {
    var j := p.source.modeInfoIdx;
    if j < |c.modes| && c.modes[j].SourceMode? then Some(j) else None
  }

  function ChangesAt(c: Config, m: Match, o: Offset): seq<Change>
    requires m.path < |c.paths|
  {
    var p := c.paths[m.path];
    var j := SourceIndex(c, p);
    (if j.Some? then SourceChanges(IdOf(p), c.modes[j.value].source, m.desired, o) else [])
    + TargetChanges(p, m.desired)
    + (if m.desired.primary then [PrimaryChange(IdOf(p))] else [])
  }

  function RewriteAt(c: Config, m: Match, o: Offset): (r: Config)
    requires m.path < |c.paths|
    ensures |r.paths| == |c.paths| && |r.modes| == |c.modes|
  {
    var p := c.paths[m.path];
    var j := SourceIndex(c, p);
    Config(
      c.paths[m.path := RewritePath(p, m.desired)],
      if j.Some? then
        var mode := c.modes[j.value];
        c.modes[j.value := mode.(source := RewriteSource(mode.source, m.desired, o))]
      else c.modes)
  }

  // ---------- the whole layout ----------

  /** The paths whose hash is wanted, in order. */
  function Matches(hashes: seq<Option<Hash>>, desired: map<Hash, Desired>): seq<Match> {
    if hashes == [] then []
    else
      var n := |hashes| - 1;
      Matches(hashes[..n], desired)
      + (if hashes[n].Some? && hashes[n].value in desired then [Match(n, desired[hashes[n].value])] else [])
  }

  /** The position of the first primary. */
  function OffsetOf(matches: seq<Match>): Offset {
    if matches == [] then NO_OFFSET
    else if matches[0].desired.primary then Offset(matches[0].desired.x, matches[0].desired.y)
    else OffsetOf(matches[1..])
  }

  datatype Rewritten = Rewritten(config: Config, changes: seq<Change>)

  predicate InRange(c: Config, matches: seq<Match>) {
    forall k :: 0 <= k < |matches| ==> matches[k].path < |c.paths|
  }

  function Rewrite(c: Config, matches: seq<Match>, o: Offset): (r: Rewritten)
    requires InRange(c, matches)
    ensures |r.config.paths| == |c.paths| && |r.config.modes| == |c.modes|
  {
    if matches == [] then Rewritten(c, [])
    else
      var n := |matches| - 1;
      assert forall k :: 0 <= k < n ==> matches[..n][k] == matches[k];
      var before := Rewrite(c, matches[..n], o);
      Rewritten(RewriteAt(before.config, matches[n], o), before.changes + ChangesAt(before.config, matches[n], o))
  }

  // ---------- the method ----------

  predicate Convertible(d: Desired) {
    !d.rotation.Null?
  }

  method BuildMatches(hashes: seq<Option<Hash>>, desired: map<Hash, Desired>) returns (matches: seq<Match>)
    ensures matches == Matches(hashes, desired)
    ensures forall k :: 0 <= k < |matches| ==> matches[k].path < |hashes|
  {
    matches := [];
    for i := 0 to |hashes|
      invariant matches == Matches(hashes[..i], desired)
      invariant forall k :: 0 <= k < |matches| ==> matches[k].path < i
    {
      assert hashes[..i + 1][..i] == hashes[..i];
      if hashes[i].Some? && hashes[i].value in desired {
        matches := matches + [Match(i, desired[hashes[i].value])];
      }
    }
    assert hashes[..|hashes|] == hashes;
  }

  method FindOffset(matches: seq<Match>) returns (o: Offset)
    ensures o == OffsetOf(matches)
  {
    for k := 0 to |matches|
      invariant OffsetOf(matches) == OffsetOf(matches[k..])
    {
      assert matches[k..][1..] == matches[k + 1..];
      if matches[k].desired.primary {
        return Offset(matches[k].desired.x, matches[k].desired.y);
      }
    }
    return NO_OFFSET;
  }

  /** The source half of one rewrite, on the mode a path points to. */
  method ApplySource(modes: array<Mode>, j: nat, monitor: Monitor, d: Desired, o: Offset) returns (changes: seq<Change>)
    requires j < modes.Length && modes[j].SourceMode?
    modifies modes
    ensures var s := old(modes[j].source);
            && modes[..] == old(modes[..])[j := old(modes[j]).(source := RewriteSource(s, d, o))]
            && changes == SourceChanges(monitor, s, d, o)
  {
    changes := [];
    var s := modes[j].source;
    var newX, newY := d.x - o.x, d.y - o.y;
    if s.x != newX || s.y != newY {
      changes := changes + [PositionChange(monitor, s.x, s.y, newX, newY)];
      modes[j] := modes[j].(source := s.(x := ToInt32(newX), y := ToInt32(newY)));
    }
    if d.resolution.Some? {
      var newW := if d.resolution.value.width.Some? then d.resolution.value.width.value else s.width;
      var newH := if d.resolution.value.height.Some? then d.resolution.value.height.value else s.height;
      if newW > 0 && newH > 0 && (s.width != newW || s.height != newH) {
        changes := changes + [ResolutionChange(monitor, s.width, s.height, newW, newH)];
        modes[j] := modes[j].(source := modes[j].source.(width := ToUint32(newW), height := ToUint32(newH)));
      }
    }
  }

  /** The rotation to set, if the one asked for is one and is not there already. */
  method ChooseRotation(path: Path, d: Desired) returns (rotation: Option<uint32>, changes: seq<Change>)
    ensures rotation == if Rotates(path, d) then FromDegrees(d.rotation.degrees) else None
    ensures changes == if Rotates(path, d) then
                         [RotationChange(IdOf(path), ToDegrees(path.target.rotation), d.rotation.degrees)]
                       else []
  {
    rotation, changes := None, [];
    if d.rotation.Degrees? {
      var wanted := FromDegrees(d.rotation.degrees);
      if wanted.Some? && path.target.rotation != wanted.value {
        rotation := wanted;
        changes := [RotationChange(IdOf(path), ToDegrees(path.target.rotation), d.rotation.degrees)];
      }
    }
  }

  /** The rate to set, in thousandths, if the one asked for is further than the tolerance from the one there. */
  method ChooseRate(path: Path, d: Desired) returns (rate: Option<uint32>, changes: seq<Change>)
    ensures rate == if Retimes(path, d) then Some(ToUint32(Thousandths(d.refreshHz.value))) else None
    ensures changes == if Retimes(path, d) then
                         [RefreshChange(IdOf(path), RefreshHz(path.target.refreshNum, path.target.refreshDen),
                                        RoundCents(d.refreshHz.value))]
                       else []
  {
    rate, changes := None, [];
    if d.refreshHz.Some? && d.refreshHz.value > 0.0 {
      var hz := d.refreshHz.value;
      var current := RefreshHz(path.target.refreshNum, path.target.refreshDen);
      if Abs(current - hz) > TOLERANCE {
        rate := Some(ToUint32(Thousandths(hz)));
        changes := [RefreshChange(IdOf(path), current, RoundCents(hz))];
      }
    }
  }

  /** The target half: rotation, then refresh rate. A null rotation raises. */
  method ApplyTarget(path: Path, d: Desired) returns (ok: bool, result: Path, changes: seq<Change>)
    ensures ok <==> Convertible(d)
    ensures ok ==> result == RewritePath(path, d) && changes == TargetChanges(path, d)
  {
    if d.rotation.Null? {
      return false, path, [];
    }
    var rotation, turned := ChooseRotation(path, d);
    var rate, timed := ChooseRate(path, d);
    return true, SetPath(path, rotation, rate), turned + timed;
  }

  /** Rewrites one matched path, its source mode first. */
  method ApplyOne(paths: array<Path>, modes: array<Mode>, m: Match, o: Offset, ghost c: Config)
    returns (ok: bool, changes: seq<Change>)
    requires m.path < paths.Length && c == Config(paths[..], modes[..])
    modifies paths, modes
    ensures ok <==> Convertible(m.desired)
    ensures ok ==> Config(paths[..], modes[..]) == RewriteAt(c, m, o)
    ensures ok ==> changes == ChangesAt(c, m, o)
  {
    var path := paths[m.path];
    assert path == c.paths[m.path];
    changes := [];
    var j := path.source.modeInfoIdx;
    if j < modes.Length && modes[j].SourceMode? {
      changes := ApplySource(modes, j, IdOf(path), m.desired, o);
    }
    assert modes[..] == RewriteAt(c, m, o).modes;
    var result, more;
    ok, result, more := ApplyTarget(path, m.desired);
    if ok {
      paths[m.path] := result;
      assert paths[..] == RewriteAt(c, m, o).paths;
      changes := changes + more + if m.desired.primary then [PrimaryChange(IdOf(path))] else [];
    }
  }

  lemma RewriteNext(c: Config, matches: seq<Match>, k: nat, o: Offset)
    requires InRange(c, matches) && k < |matches|
    ensures InRange(c, matches[..k]) && InRange(c, matches[..k + 1]) && matches[k].path < |c.paths|
    ensures var before := Rewrite(c, matches[..k], o);
            Rewrite(c, matches[..k + 1], o)
            == Rewritten(RewriteAt(before.config, matches[k], o),
               before.changes + ChangesAt(before.config, matches[k], o))
  {
    assert matches[..k + 1][..k] == matches[..k];
  }

  method ApplyAll(paths: array<Path>, modes: array<Mode>, matches: seq<Match>, o: Offset, ghost c: Config)
    returns (ok: bool, changes: seq<Change>)
    requires c == Config(paths[..], modes[..]) && InRange(c, matches)
    modifies paths, modes
    ensures ok <==> forall k :: 0 <= k < |matches| ==> Convertible(matches[k].desired)
    ensures ok ==> Rewritten(Config(paths[..], modes[..]), changes) == Rewrite(c, matches, o)
  {
    changes := [];
    for k := 0 to |matches|
      invariant InRange(c, matches[..k])
      invariant Rewritten(Config(paths[..], modes[..]), changes) == Rewrite(c, matches[..k], o)
      invariant forall i :: 0 <= i < k ==> Convertible(matches[i].desired)
    {
      RewriteNext(c, matches, k, o);
      var made;
      ok, made := ApplyOne(paths, modes, matches[k], o, Config(paths[..], modes[..]));
      if !ok {
        return;
      }
      changes := changes + made;
    }
    assert matches[..|matches|] == matches;
    ok := true;
  }

  method ApplyDesiredToPaths(
      paths: array<Path>, modes: array<Mode>, desired: map<Hash, Desired>, hashes: seq<Option<Hash>>)
    returns (ok: bool, changes: seq<Change>)
    requires |hashes| == paths.Length
    modifies paths, modes
    ensures var matches := Matches(hashes, desired);
            ok <==> forall k :: 0 <= k < |matches| ==> Convertible(matches[k].desired)
    ensures var matches := Matches(hashes, desired);
            && InRange(old(Config(paths[..], modes[..])), matches)
            && (ok ==> Rewritten(Config(paths[..], modes[..]), changes)
                       == Rewrite(old(Config(paths[..], modes[..])), matches, OffsetOf(matches)))
  {
    var matches := BuildMatches(hashes, desired);
    var o := FindOffset(matches);
    ok, changes := ApplyAll(paths, modes, matches, o, Config(paths[..], modes[..]));
  }
}
