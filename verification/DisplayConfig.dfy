/** The path and mode arrays of a display configuration, and the JSON-safe form in which the agent keeps a
    copy of them. Fields have the widths of the structures they are stored in; storing wraps. */
module DisplayConfig {
  import opened Json

  const TWO_32: int := 0x1_0000_0000
  const TWO_64: int := 0x1_0000_0000_0000_0000

  type uint32 = x: int | 0 <= x < TWO_32
  type int32 = x: int | -0x8000_0000 <= x < 0x8000_0000
  type uint64 = x: int | 0 <= x < TWO_64

  /** What an unsigned 32-bit field holds after `x` is stored in it. */
  function ToUint32(x: int): uint32 {
    x % TWO_32
  }

  function ToUint64(x: int): uint64 {
    x % TWO_64
  }

  /** What a signed 32-bit field holds after `x` is stored in it. */
  function ToInt32(x: int): int32 {
    var r := x % TWO_32;
    if r < 0x8000_0000 then r else r - TWO_32
  }

  // ---------- the structures ----------

  datatype Luid = Luid(low: uint32, high: int32)

  datatype PathSource = PathSource(adapter: Luid, id: uint32, modeInfoIdx: uint32, statusFlags: uint32)

  datatype PathTarget = PathTarget(
    adapter: Luid, id: uint32, modeInfoIdx: uint32, outputTechnology: uint32, rotation: uint32, scaling: uint32,
    refreshNum: uint32, refreshDen: uint32, scanLineOrdering: uint32, targetAvailable: int32, statusFlags: uint32)

  datatype Path = Path(source: PathSource, target: PathTarget, flags: bv32)

  datatype Source = Source(width: uint32, height: uint32, pixelFormat: uint32, x: int32, y: int32)

  datatype Signal = Signal(
    pixelRate: uint64, hSyncNum: uint32, hSyncDen: uint32, vSyncNum: uint32, vSyncDen: uint32,
    activeCx: uint32, activeCy: uint32, totalCx: uint32, totalCy: uint32,
    videoStandard: uint32, scanLineOrdering: uint32)

  const INFO_TYPE_SOURCE := 1
  const INFO_TYPE_TARGET := 2

  type OtherType = x: uint32 | x != INFO_TYPE_SOURCE && x != INFO_TYPE_TARGET witness 0

  /** A mode is a tagged union; `payload` is the content of a union that is neither a source nor a target. */
  datatype Mode =
    | SourceMode(id: uint32, adapter: Luid, source: Source)
    | TargetMode(id: uint32, adapter: Luid, signal: Signal)
    | OtherMode(id: uint32, adapter: Luid, infoType: OtherType, payload: nat)

  datatype Config = Config(paths: seq<Path>, modes: seq<Mode>)

  const ACTIVE: bv32 := 1

  predicate IsActive(p: Path) {
    p.flags & ACTIVE != 0
  }

  function ActivePaths(paths: seq<Path>): nat {
    if paths == [] then 0 else (if IsActive(paths[0]) then 1 else 0) + ActivePaths(paths[1..])
  }

  /** The paths whose lowest flag bit is set. */
  ghost function ActivePlaces(paths: seq<Path>): set<nat> {
    set k: nat | k < |paths| && paths[k].flags & 1 == 1
  }

  /** Their number is what is counted. */
  lemma {:induction false} ActiveExactly(paths: seq<Path>)
    ensures ActivePaths(paths) == |ActivePlaces(paths)|
    ensures ActivePaths(paths) > 0 <==> exists k :: 0 <= k < |paths| && paths[k].flags & 1 == 1
  {
    if paths != [] {
      var rest := paths[1..];
      ActiveExactly(rest);
      LowestBit(paths[0].flags);
      assert forall k :: 0 <= k < |rest| ==> rest[k] == paths[k + 1];
      var later := set k: nat | k in ActivePlaces(rest) :: k + 1;
      ShiftedSize(ActivePlaces(rest));
      assert ActivePlaces(paths) == later + if paths[0].flags & 1 == 1 then {0} else {} by {
        forall k: nat | 0 < k < |paths| ensures k in ActivePlaces(paths) <==> k - 1 in ActivePlaces(rest) {
          assert rest[k - 1] == paths[k];
        }
      }
      if k :| 0 < k < |paths| && paths[k].flags & 1 == 1 {
        assert rest[k - 1].flags & 1 == 1;
      }
    }
  }

  lemma {:induction false} ShiftedSize(places: set<nat>)
    ensures |set k: nat | k in places :: k + 1| == |places|
    decreases |places|
  {
    var shifted := set k: nat | k in places :: k + 1;
    if places != {} {
      var one :| one in places;
      var fewer := places - {one};
      ShiftedSize(fewer);
      var others := set k: nat | k in fewer :: k + 1;
      forall j: nat ensures j in shifted <==> j in others + {one + 1} {
        if j > 0 {
          assert j in shifted <==> j - 1 in places;
          assert j in others <==> j - 1 in fewer;
        }
      }
      assert shifted == others + {one + 1};
    }
  }

  lemma LowestBit(flags: bv32)
    ensures flags & 1 == 0 || flags & 1 == 1
  {
  }

  // ---------- the saved form ----------

  datatype RawSourceInfo = RawSourceInfo(adapterLow: int, adapterHigh: int, id: int, modeInfoIdx: int, statusFlags: int)

  datatype RawTargetInfo = RawTargetInfo(
    adapterLow: int, adapterHigh: int, id: int, modeInfoIdx: int, outputTechnology: int, rotation: int, scaling: int,
    refreshNum: int, refreshDen: int, scanLineOrdering: int, targetAvailable: int, statusFlags: int)

  datatype RawPath = RawPath(source: RawSourceInfo, target: RawTargetInfo, flags: bv32)

  datatype RawSource = RawSource(width: int, height: int, pixelFormat: int, positionX: int, positionY: int)

  datatype RawSignal = RawSignal(
    pixelRate: int, hSyncNum: int, hSyncDen: int, vSyncNum: int, vSyncDen: int,
    activeCx: int, activeCy: int, totalCx: int, totalCy: int, videoStandard: int, scanLineOrdering: int)

  datatype RawMode = RawMode(
    infoType: int, id: int, adapterLow: int, adapterHigh: int, source: Option<RawSource>, target: Option<RawSignal>)

  datatype Snapshot = Snapshot(paths: seq<RawPath>, modes: seq<RawMode>)

  function SerializePath(p: Path): RawPath {
    RawPath(
      RawSourceInfo(p.source.adapter.low, p.source.adapter.high, p.source.id, p.source.modeInfoIdx,
                    p.source.statusFlags),
      RawTargetInfo(p.target.adapter.low, p.target.adapter.high, p.target.id, p.target.modeInfoIdx,
                    p.target.outputTechnology, p.target.rotation, p.target.scaling, p.target.refreshNum,
                    p.target.refreshDen, p.target.scanLineOrdering, p.target.targetAvailable, p.target.statusFlags),
      p.flags)
  }

  function SerializeMode(m: Mode): RawMode {
    match m
    case SourceMode(id, a, s) =>
      RawMode(INFO_TYPE_SOURCE, id, a.low, a.high, Some(RawSource(s.width, s.height, s.pixelFormat, s.x, s.y)), None)
    case TargetMode(id, a, v) =>
      RawMode(INFO_TYPE_TARGET, id, a.low, a.high, None,
              Some(RawSignal(v.pixelRate, v.hSyncNum, v.hSyncDen, v.vSyncNum, v.vSyncDen, v.activeCx, v.activeCy,
                             v.totalCx, v.totalCy, v.videoStandard, v.scanLineOrdering)))
    case OtherMode(id, a, infoType, _) => RawMode(infoType, id, a.low, a.high, None, None)
  }

  function Saved(c: Config): Snapshot {
    Snapshot(seq(|c.paths|, i requires 0 <= i < |c.paths| => SerializePath(c.paths[i])),
             seq(|c.modes|, i requires 0 <= i < |c.modes| => SerializeMode(c.modes[i])))
  }

  function LoadPath(r: RawPath): Path {
    var s, t := r.source, r.target;
    Path(
      PathSource(Luid(ToUint32(s.adapterLow), ToInt32(s.adapterHigh)), ToUint32(s.id), ToUint32(s.modeInfoIdx),
                 ToUint32(s.statusFlags)),
      PathTarget(Luid(ToUint32(t.adapterLow), ToInt32(t.adapterHigh)), ToUint32(t.id), ToUint32(t.modeInfoIdx),
                 ToUint32(t.outputTechnology), ToUint32(t.rotation), ToUint32(t.scaling), ToUint32(t.refreshNum),
                 ToUint32(t.refreshDen), ToUint32(t.scanLineOrdering), ToInt32(t.targetAvailable),
                 ToUint32(t.statusFlags)),
      r.flags)
  }

  const NO_SOURCE := Source(0, 0, 0, 0, 0)
  const NO_SIGNAL := Signal(0, 0, 0, 0, 0, 0, 0, 0, 0, 0, 0)

  function LoadSource(s: RawSource): Source {
    Source(ToUint32(s.width), ToUint32(s.height), ToUint32(s.pixelFormat), ToInt32(s.positionX), ToInt32(s.positionY))
  }

  function LoadSignal(t: RawSignal): Signal {
    Signal(ToUint64(t.pixelRate), ToUint32(t.hSyncNum), ToUint32(t.hSyncDen), ToUint32(t.vSyncNum),
           ToUint32(t.vSyncDen), ToUint32(t.activeCx), ToUint32(t.activeCy), ToUint32(t.totalCx),
           ToUint32(t.totalCy), ToUint32(t.videoStandard), ToUint32(t.scanLineOrdering))
  }

  /** A saved mode without a body leaves the structure's union as it was created: all zero. */
  function LoadMode(r: RawMode): Mode {
    var id, adapter := ToUint32(r.id), Luid(ToUint32(r.adapterLow), ToInt32(r.adapterHigh));
    if r.infoType == INFO_TYPE_SOURCE then
      SourceMode(id, adapter, if r.source.Some? then LoadSource(r.source.value) else NO_SOURCE)
    else if r.infoType == INFO_TYPE_TARGET then
      TargetMode(id, adapter, if r.target.Some? then LoadSignal(r.target.value) else NO_SIGNAL)
    else
      match ToUint32(r.infoType)
      case 1 => SourceMode(id, adapter, NO_SOURCE)
      case 2 => TargetMode(id, adapter, NO_SIGNAL)
      case other => OtherMode(id, adapter, other, 0)
  }

  function Loaded(s: Snapshot): Config {
    Config(seq(|s.paths|, i requires 0 <= i < |s.paths| => LoadPath(s.paths[i])),
           seq(|s.modes|, i requires 0 <= i < |s.modes| => LoadMode(s.modes[i])))
  }

  /** Every mode is a source or a target, or says nothing beyond its kind. */
  predicate Savable(c: Config) {
    forall m :: m in c.modes && m.OtherMode? ==> m.payload == 0
  }

  lemma ModeRoundTrip(m: Mode)
    ensures LoadMode(SerializeMode(m)) == m <==> (m.OtherMode? ==> m.payload == 0)
  {
  }

  /** What the saved form holds of a mode, under the names of the structure. */
  lemma SavedModeHolds(m: Mode)
    ensures var r := SerializeMode(m);
            && r.id == m.id && r.adapterLow == m.adapter.low && r.adapterHigh == m.adapter.high
            && (m.SourceMode? ==> r.infoType == 1 && r.target == None && r.source.Some?
                                  && var a, s := r.source.value, m.source;
                                  && a.width == s.width && a.height == s.height && a.pixelFormat == s.pixelFormat
                                  && a.positionX == s.x && a.positionY == s.y)
            && (m.TargetMode? ==> r.infoType == 2 && r.source == None && r.target.Some?
                                  && var a, v := r.target.value, m.signal;
                                  && a.pixelRate == v.pixelRate && a.hSyncNum == v.hSyncNum && a.hSyncDen == v.hSyncDen
                                  && a.vSyncNum == v.vSyncNum && a.vSyncDen == v.vSyncDen
                                  && a.activeCx == v.activeCx && a.activeCy == v.activeCy && a.totalCx == v.totalCx
                                  && a.totalCy == v.totalCy && a.videoStandard == v.videoStandard
                                  && a.scanLineOrdering == v.scanLineOrdering)
            && (m.OtherMode? ==> r.infoType == m.infoType && r.source == None && r.target == None)
  {
  }

  /** What it holds of a path. */
  lemma SavedPathHolds(p: Path)
    ensures var r := SerializePath(p);
            && r.flags == p.flags
            && r.source.adapterLow == p.source.adapter.low && r.source.adapterHigh == p.source.adapter.high
            && r.source.id == p.source.id && r.source.modeInfoIdx == p.source.modeInfoIdx
            && r.source.statusFlags == p.source.statusFlags
            && r.target.adapterLow == p.target.adapter.low && r.target.adapterHigh == p.target.adapter.high
            && r.target.id == p.target.id && r.target.modeInfoIdx == p.target.modeInfoIdx
            && r.target.outputTechnology == p.target.outputTechnology && r.target.rotation == p.target.rotation
            && r.target.scaling == p.target.scaling && r.target.refreshNum == p.target.refreshNum
            && r.target.refreshDen == p.target.refreshDen
            && r.target.scanLineOrdering == p.target.scanLineOrdering
            && r.target.targetAvailable == p.target.targetAvailable && r.target.statusFlags == p.target.statusFlags
  {
  }

  /** What a mode is loaded as: its kind by the type number as the field holds it, its body if there is one under that
      number, and zeros if not. */
  lemma LoadedModeHolds(r: RawMode)
    ensures var m, kind := LoadMode(r), ToUint32(r.infoType);
            && m.id == ToUint32(r.id) && m.adapter == Luid(ToUint32(r.adapterLow), ToInt32(r.adapterHigh))
            && (m.SourceMode? <==> kind == 1) && (m.TargetMode? <==> kind == 2)
            && (m.OtherMode? ==> m.infoType == kind && m.payload == 0)
            && (kind == 1 && (r.infoType != 1 || r.source.None?) ==> m.source == Source(0, 0, 0, 0, 0))
            && (kind == 2 && (r.infoType != 2 || r.target.None?) ==>
                  m.signal == Signal(0, 0, 0, 0, 0, 0, 0, 0, 0, 0, 0))
            && (r.infoType == 1 && r.source.Some? ==> m.source == LoadSource(r.source.value))
            && (r.infoType == 2 && r.target.Some? ==> m.signal == LoadSignal(r.target.value))
  {
  }

  /** A field keeps what fits it and any other number modulo its range. */
  lemma Wraps(x: int, turns: int)
    ensures 0 <= x < 0x1_0000_0000 ==> ToUint32(x + turns * 0x1_0000_0000) == x
    ensures -0x8000_0000 <= x < 0x8000_0000 ==> ToInt32(x + turns * 0x1_0000_0000) == x
    ensures 0 <= x < 0x1_0000_0000_0000_0000 ==> ToUint64(x + turns * 0x1_0000_0000_0000_0000) == x
  {
  }

  /** A saved configuration loads as itself exactly when it is savable: the union of any other kind of mode is
      not written down. */
  lemma RoundTrip(c: Config)
    ensures Loaded(Saved(c)) == c <==> Savable(c)
  {
    var back := Loaded(Saved(c));
    forall i | 0 <= i < |c.modes|
      ensures back.modes[i] == c.modes[i] <==> (c.modes[i].OtherMode? ==> c.modes[i].payload == 0)
    {
      ModeRoundTrip(c.modes[i]);
    }
    assert back.paths == c.paths;
    if Savable(c) {
      assert back.modes == c.modes;
    } else {
      var m :| m in c.modes && m.OtherMode? && m.payload != 0;
      var i :| 0 <= i < |c.modes| && c.modes[i] == m;
      assert back.modes[i] != c.modes[i];
    }
  }

  /** The arrays are built zeroed and filled entry by entry. */
  method DeserializePathsModes(snapshot: Snapshot) returns (paths: array<Path>, modes: array<Mode>)
    ensures Config(paths[..], modes[..]) == Loaded(snapshot)
  {
    var noLuid := Luid(0, 0);
    var noPath := Path(PathSource(noLuid, 0, 0, 0), PathTarget(noLuid, 0, 0, 0, 0, 0, 0, 0, 0, 0, 0), 0);
    paths := new Path[|snapshot.paths|](_ => noPath);
    modes := new Mode[|snapshot.modes|](_ => OtherMode(0, noLuid, 0, 0));
    for i := 0 to |snapshot.paths|
      invariant forall k :: 0 <= k < i ==> paths[k] == LoadPath(snapshot.paths[k])
    {
      paths[i] := LoadPath(snapshot.paths[i]);
    }
    for i := 0 to |snapshot.modes|
      invariant forall k :: 0 <= k < |snapshot.paths| ==> paths[k] == LoadPath(snapshot.paths[k])
      invariant forall k :: 0 <= k < i ==> modes[k] == LoadMode(snapshot.modes[k])
    {
      modes[i] := LoadMode(snapshot.modes[i]);
    }
    assert paths[..] == Loaded(snapshot).paths;
    assert modes[..] == Loaded(snapshot).modes;
  }
}
