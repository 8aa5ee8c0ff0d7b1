/** What the rewrite of the live arrays achieves, for matched paths with source modes of their own. */
module LayoutGuarantees {
  import opened Json
  import opened DisplayConfig
  import opened LayoutRewrite

  // ---------- which paths are matched ----------

  /** No two matches share a path or a source mode. */
  predicate Apart(c: Config, matches: seq<Match>)
    requires InRange(c, matches)
  {
    forall a, b :: 0 <= a < |matches| && 0 <= b < |matches| && a != b ==>
      && matches[a].path != matches[b].path
      && (SourceIndex(c, c.paths[matches[a].path]).Some? ==>
            SourceIndex(c, c.paths[matches[a].path]) != SourceIndex(c, c.paths[matches[b].path]))
  }

  predicate Wanted(hashes: seq<Option<Hash>>, desired: map<Hash, Desired>, m: Match) {
    m.path < |hashes| && hashes[m.path].Some? && hashes[m.path].value in desired
    && m.desired == desired[hashes[m.path].value]
  }

  /** The matches are exactly the wanted paths, each with what is wanted there, in order. */
  lemma {:induction false} MatchesAre(hashes: seq<Option<Hash>>, desired: map<Hash, Desired>)
    ensures forall m :: m in Matches(hashes, desired) <==> Wanted(hashes, desired, m)
    ensures forall a, b :: 0 <= a < b < |Matches(hashes, desired)| ==>
              Matches(hashes, desired)[a].path < Matches(hashes, desired)[b].path
  {
    if hashes != [] {
      var n := |hashes| - 1;
      var before, ms := Matches(hashes[..n], desired), Matches(hashes, desired);
      MatchesAre(hashes[..n], desired);
      forall m ensures m in ms <==> Wanted(hashes, desired, m) {
        assert m in before <==> Wanted(hashes[..n], desired, m);
        if m.path < n {
          assert hashes[..n][m.path] == hashes[m.path];
        }
      }
      forall a, b | 0 <= a < b < |ms| ensures ms[a].path < ms[b].path {
        assert ms[a] in before && Wanted(hashes[..n], desired, ms[a]);
      }
    }
  }

  /** With one primary, wherever it comes in the list, the offset is its position. */
  lemma {:induction false} OffsetIsPrimary(matches: seq<Match>, primary: Desired)
    requires exists k :: 0 <= k < |matches| && matches[k].desired.primary
    requires forall k :: 0 <= k < |matches| && matches[k].desired.primary ==> matches[k].desired == primary
    ensures OffsetOf(matches) == Offset(primary.x, primary.y)
  {
    if !matches[0].desired.primary {
      var k :| 0 <= k < |matches| && matches[k].desired.primary;
      assert matches[1..][k - 1] == matches[k];
      OffsetIsPrimary(matches[1..], primary);
    }
  }

  // ---------- what becomes of each path and mode ----------

  function Flatten(lists: seq<seq<Change>>): seq<Change> {
    if lists == [] then [] else Flatten(lists[..|lists| - 1]) + lists[|lists| - 1]
  }

  /** What each match changes, on its own. */
  function Entries(c: Config, matches: seq<Match>, o: Offset): seq<seq<Change>>
    requires InRange(c, matches)
  {
    seq(|matches|, k requires 0 <= k < |matches| => ChangesAt(c, matches[k], o))
  }

  lemma {:induction false} FlattenHolds(lists: seq<seq<Change>>, change: Change)
    ensures change in Flatten(lists) <==> exists k :: 0 <= k < |lists| && change in lists[k]
  {
    if lists != [] {
      var n := |lists| - 1;
      FlattenHolds(lists[..n], change);
      assert forall k :: 0 <= k < n ==> lists[..n][k] == lists[k];
    }
  }

  predicate MatchedPath(matches: seq<Match>, i: nat) {
    exists k :: 0 <= k < |matches| && matches[k].path == i
  }

  predicate MatchedMode(c: Config, matches: seq<Match>, j: nat)
    requires InRange(c, matches)
  {
    exists k :: 0 <= k < |matches| && SourceIndex(c, c.paths[matches[k].path]) == Some(j)
  }

  /** `r` is `c` with each match rewritten on its own, and everything else as it was. */
  ghost predicate RewrittenApart(c: Config, matches: seq<Match>, o: Offset, r: Config)
    requires InRange(c, matches)
  {
    && |r.paths| == |c.paths| && |r.modes| == |c.modes|
    && (forall k :: 0 <= k < |matches| ==>
          r.paths[matches[k].path] == RewritePath(c.paths[matches[k].path], matches[k].desired))
    && (forall i :: 0 <= i < |c.paths| && !MatchedPath(matches, i) ==> r.paths[i] == c.paths[i])
    && (forall k :: 0 <= k < |matches| ==>
          var j := SourceIndex(c, c.paths[matches[k].path]);
          j.Some? ==>
            r.modes[j.value] == c.modes[j.value].(source :=
              RewriteSource(c.modes[j.value].source, matches[k].desired, o)))
    && (forall j :: 0 <= j < |c.modes| && !MatchedMode(c, matches, j) ==> r.modes[j] == c.modes[j])
  }

  lemma SourceIndexKept(c: Config, matches: seq<Match>, o: Offset, r: Config, i: nat)
    requires InRange(c, matches) && RewrittenApart(c, matches, o, r) && i < |c.paths|
    ensures r.paths[i].source == c.paths[i].source
    ensures SourceIndex(r, r.paths[i]) == SourceIndex(c, c.paths[i])
  {
    if MatchedPath(matches, i) {
      var k :| 0 <= k < |matches| && matches[k].path == i;
    }
    var j := c.paths[i].source.modeInfoIdx;
    if j < |c.modes| && MatchedMode(c, matches, j) {
      var k :| 0 <= k < |matches| && SourceIndex(c, c.paths[matches[k].path]) == Some(j);
    }
  }

  /** One more match, on a path and a mode none before it touched. */
  lemma OneMore(c: Config, matches: seq<Match>, o: Offset, before: Config)
    requires matches != [] && InRange(c, matches) && Apart(c, matches)
    requires InRange(c, matches[..|matches| - 1])
    requires RewrittenApart(c, matches[..|matches| - 1], o, before)
    ensures RewrittenApart(c, matches, o, RewriteAt(before, matches[|matches| - 1], o))
    ensures ChangesAt(before, matches[|matches| - 1], o) == ChangesAt(c, matches[|matches| - 1], o)
  {
    var n := |matches| - 1;
    var m, most := matches[n], matches[..n];
    assert !MatchedPath(most, m.path);
    SourceIndexKept(c, most, o, before, m.path);
    var r := RewriteAt(before, m, o);
    var j := SourceIndex(c, c.paths[m.path]);
    if j.Some? {
      assert !MatchedMode(c, most, j.value);
      assert MatchedMode(c, matches, j.value);
    }
    assert MatchedPath(matches, m.path);
    forall i | 0 <= i < |c.paths| && !MatchedPath(matches, i) ensures r.paths[i] == c.paths[i] {
      assert !MatchedPath(most, i);
    }
    forall i | 0 <= i < |c.modes| && !MatchedMode(c, matches, i) ensures r.modes[i] == c.modes[i] {
      assert !MatchedMode(c, most, i);
    }
    forall k | 0 <= k < |matches|
      ensures r.paths[matches[k].path] == RewritePath(c.paths[matches[k].path], matches[k].desired)
      ensures var i := SourceIndex(c, c.paths[matches[k].path]);
              i.Some? ==>
                r.modes[i.value] == c.modes[i.value].(source :=
                  RewriteSource(c.modes[i.value].source, matches[k].desired, o))
    {
      assert k < n ==> most[k] == matches[k];
    }
  }

  /** Matches that are apart do not disturb one another, whatever order they come in. */
  lemma {:induction false} EachOnItsOwn(c: Config, matches: seq<Match>, o: Offset)
    requires InRange(c, matches) && Apart(c, matches)
    ensures RewrittenApart(c, matches, o, Rewrite(c, matches, o).config)
    ensures Rewrite(c, matches, o).changes == Flatten(Entries(c, matches, o))
  {
    hide ChangesAt, RewriteAt, RewritePath, RewriteSource;
    if matches != [] {
      var n := |matches| - 1;
      var most := matches[..n];
      assert forall k :: 0 <= k < n ==> most[k] == matches[k];
      EachOnItsOwn(c, most, o);
      assert Entries(c, matches, o)[..n] == Entries(c, most, o);
      OneMore(c, matches, o, Rewrite(c, most, o).config);
    }
  }

  // ---------- the desired layout is reached ----------

  /** `h` is the one monitor marked primary. */
  predicate IsPrimary(desired: map<Hash, Desired>, h: Hash) {
    h in desired && desired[h].primary && forall g :: g in desired && desired[g].primary ==> g == h
  }

  predicate AllLive(hashes: seq<Option<Hash>>, desired: map<Hash, Desired>) {
    forall h :: h in desired ==> Some(h) in hashes
  }

  lemma PrimaryOffset(hashes: seq<Option<Hash>>, desired: map<Hash, Desired>, h: Hash)
    requires IsPrimary(desired, h) && AllLive(hashes, desired)
    ensures OffsetOf(Matches(hashes, desired)) == Offset(desired[h].x, desired[h].y)
  {
    MatchesAre(hashes, desired);
    var ms := Matches(hashes, desired);
    var i :| 0 <= i < |hashes| && hashes[i] == Some(h);
    assert Wanted(hashes, desired, Match(i, desired[h]));
    forall k | 0 <= k < |ms| && ms[k].desired.primary ensures ms[k].desired == desired[h] {
      assert ms[k] in ms;
    }
    OffsetIsPrimary(ms, desired[h]);
  }

  /** The path is active on its old source, turned as asked or as it was, and at the rate asked for. */
  predicate PathAsAsked(p: Path, d: Desired, q: Path) {
    && q == p.(flags := q.flags, target := p.target.(rotation := q.target.rotation, refreshNum := q.target.refreshNum,
                                                     refreshDen := q.target.refreshDen))
    && IsActive(q)
    && (if d.rotation.Degrees? && FromDegrees(d.rotation.degrees).Some? then
          ToDegrees(q.target.rotation) == d.rotation.degrees
        else q.target.rotation == p.target.rotation)
    && RateAsAsked(p, d, q)
  }

  /** The rate stays if it is within the tolerance of the one asked for, and is that in thousandths if not. */
  predicate RateAsAsked(p: Path, d: Desired, q: Path) {
    if d.refreshHz.None? || d.refreshHz.value <= 0.0
       || -0.01 <= RefreshHz(p.target.refreshNum, p.target.refreshDen) - d.refreshHz.value <= 0.01
    then q.target.refreshNum == p.target.refreshNum && q.target.refreshDen == p.target.refreshDen
    else
      && q.target.refreshNum == ToUint32(Thousandths(d.refreshHz.value)) && q.target.refreshDen == 1000
      && (Thousandths(d.refreshHz.value) < TWO_32 ==>
            -0.01 <= RefreshHz(q.target.refreshNum, q.target.refreshDen) - d.refreshHz.value <= 0.01)
  }

  /** The source mode is where the monitor was asked to be relative to the primary and of the size asked for, as its
      fields hold them, a side not given staying as it was; no positive size asked for is no size asked for. */
  predicate SourceAsAsked(s: Source, d: Desired, o: Offset, t: Source) {
    var asked := if d.resolution.Some? then d.resolution.value else Resolution(None, None);
    var width := if asked.width.Some? then asked.width.value else s.width;
    var height := if asked.height.Some? then asked.height.value else s.height;
    && t == s.(x := ToInt32(d.x - o.x), y := ToInt32(d.y - o.y), width := t.width, height := t.height)
    && (if width > 0 && height > 0 then t.width == ToUint32(width) && t.height == ToUint32(height)
        else t.width == s.width && t.height == s.height)
  }

  /** Path `i` of `r`, and its source mode, are as the desired layout wants them, the primary at the origin; a path
      that is not wanted is as it was. */
  predicate InPlace(c: Config, hashes: seq<Option<Hash>>, desired: map<Hash, Desired>, h: Hash, r: Config, i: nat)
    requires |hashes| == |c.paths| == |r.paths| && |c.modes| == |r.modes| && h in desired && i < |c.paths|
  {
    if hashes[i].Some? && hashes[i].value in desired then
      var d, j := desired[hashes[i].value], c.paths[i].source.modeInfoIdx;
      && PathAsAsked(c.paths[i], d, r.paths[i])
      && (j < |c.modes| && c.modes[j].SourceMode? ==>
            && r.modes[j].SourceMode?
            && SourceAsAsked(c.modes[j].source, d, Offset(desired[h].x, desired[h].y), r.modes[j].source)
            && (hashes[i].value == h ==> r.modes[j].source.x == 0 && r.modes[j].source.y == 0))
    else r.paths[i] == c.paths[i]
  }

  lemma ActiveKept(flags: bv32)
    ensures (flags | ACTIVE) & ACTIVE != 0
  {
  }

  lemma RateSet(p: Path, d: Desired)
    requires Retimes(p, d)
    ensures RewritePath(p, d).target.refreshNum == ToUint32(Thousandths(d.refreshHz.value))
    ensures RewritePath(p, d).target.refreshDen == 1000
  {
  }

  lemma RateIsAsAsked(p: Path, d: Desired)
    ensures RateAsAsked(p, d, RewritePath(p, d))
  {
    if Retimes(p, d) {
      RateSet(p, d);
      if Thousandths(d.refreshHz.value) < TWO_32 {
        StoredRate(d.refreshHz.value);
      }
    } else {
      RateKept(p, d);
    }
  }

  lemma StoredRate(hz: real)
    requires hz > 0.0 && Thousandths(hz) < TWO_32
    ensures Abs(RefreshHz(ToUint32(Thousandths(hz)), 1000) - hz) <= TOLERANCE
  {
    RoundNear(hz * 1000.0);
    assert ToUint32(Thousandths(hz)) == Thousandths(hz);
    StoredRateSettles(hz);
  }

  lemma RateKept(p: Path, d: Desired)
    requires !Retimes(p, d)
    ensures RewritePath(p, d).target.refreshNum == p.target.refreshNum
    ensures RewritePath(p, d).target.refreshDen == p.target.refreshDen
  {
  }

  lemma PathIsAsAsked(p: Path, d: Desired)
    ensures PathAsAsked(p, d, RewritePath(p, d))
  {
    ActiveKept(p.flags);
    if d.rotation.Degrees? {
      RotationRoundTrip(d.rotation.degrees);
    }
    RateIsAsAsked(p, d);
  }

  lemma SourceIsAsAsked(s: Source, d: Desired, o: Offset)
    ensures SourceAsAsked(s, d, o, RewriteSource(s, d, o))
  {
  }

  lemma MatchedIsWanted(hashes: seq<Option<Hash>>, desired: map<Hash, Desired>, i: nat)
    ensures MatchedPath(Matches(hashes, desired), i) ==> i < |hashes| && hashes[i].Some? && hashes[i].value in desired
  {
    var ms := Matches(hashes, desired);
    MatchesAre(hashes, desired);
    if k :| 0 <= k < |ms| && ms[k].path == i {
      assert ms[k] in ms;
    }
  }

  lemma MatchInPlace(c: Config, matches: seq<Match>, o: Offset, r: Config, m: Match)
    requires InRange(c, matches) && RewrittenApart(c, matches, o, r) && m in matches
    ensures m.path < |c.paths| && PathAsAsked(c.paths[m.path], m.desired, r.paths[m.path])
    ensures var j := SourceIndex(c, c.paths[m.path]);
            j.Some? ==>
              && r.modes[j.value].SourceMode?
              && SourceAsAsked(c.modes[j.value].source, m.desired, o, r.modes[j.value].source)
  {
    var k :| 0 <= k < |matches| && matches[k] == m;
    assert r.paths[matches[k].path] == RewritePath(c.paths[m.path], m.desired);
    PathIsAsAsked(c.paths[m.path], m.desired);
    var j := SourceIndex(c, c.paths[m.path]);
    if j.Some? {
      SourceIsAsAsked(c.modes[j.value].source, m.desired, o);
    }
  }

  lemma WantedIsMatched(hashes: seq<Option<Hash>>, desired: map<Hash, Desired>, i: nat)
    requires i < |hashes| && hashes[i].Some? && hashes[i].value in desired
    ensures Match(i, desired[hashes[i].value]) in Matches(hashes, desired)
  {
    MatchesAre(hashes, desired);
    assert Wanted(hashes, desired, Match(i, desired[hashes[i].value]));
  }

  lemma PathInPlace(c: Config, hashes: seq<Option<Hash>>, desired: map<Hash, Desired>, h: Hash, r: Config, i: nat)
    requires |hashes| == |c.paths| && InRange(c, Matches(hashes, desired)) && IsPrimary(desired, h)
    requires RewrittenApart(c, Matches(hashes, desired), Offset(desired[h].x, desired[h].y), r) && i < |c.paths|
    ensures InPlace(c, hashes, desired, h, r, i)
  {
    var ms := Matches(hashes, desired);
    if hashes[i].Some? && hashes[i].value in desired {
      WantedIsMatched(hashes, desired, i);
      MatchInPlace(c, ms, Offset(desired[h].x, desired[h].y), r, Match(i, desired[hashes[i].value]));
    } else {
      MatchedIsWanted(hashes, desired, i);
    }
  }

  /** The primary ends at the origin, every wanted monitor in place around it, and paths and modes that are not
      wanted are not touched. */
  lemma {:induction false} LayoutReached(c: Config, hashes: seq<Option<Hash>>, desired: map<Hash, Desired>, h: Hash)
    requires |hashes| == |c.paths| && InRange(c, Matches(hashes, desired)) && Apart(c, Matches(hashes, desired))
    requires IsPrimary(desired, h) && AllLive(hashes, desired)
    ensures var ms := Matches(hashes, desired);
            var r := Rewrite(c, ms, OffsetOf(ms)).config;
            && (forall i :: 0 <= i < |c.paths| ==> InPlace(c, hashes, desired, h, r, i))
            && (forall j :: 0 <= j < |c.modes| && !MatchedMode(c, ms, j) ==> r.modes[j] == c.modes[j])
  {
    var ms := Matches(hashes, desired);
    PrimaryOffset(hashes, desired, h);
    EachOnItsOwn(c, ms, OffsetOf(ms));
    var r := Rewrite(c, ms, OffsetOf(ms)).config;
    forall i | 0 <= i < |c.paths| ensures InPlace(c, hashes, desired, h, r, i) {
      PathInPlace(c, hashes, desired, h, r, i);
    }
  }

  // ---------- running it again ----------

  /** Every value to be stored for this monitor fits its field. */
  predicate Fits(c: Config, m: Match, o: Offset)
    requires m.path < |c.paths|
  {
    var p := c.paths[m.path];
    var j := SourceIndex(c, p);
    && (j.Some? ==>
          var s := c.modes[j.value].source;
          var t := Target(m.desired, o);
          && ToInt32(t.x) == t.x && ToInt32(t.y) == t.y
          && (Resizes(s, m.desired) ==>
                Width(s, m.desired.resolution.value) < TWO_32 && Height(s, m.desired.resolution.value) < TWO_32))
    && (Retimes(p, m.desired) ==> Thousandths(m.desired.refreshHz.value) < TWO_32)
  }

  lemma RetimedTwice(q: Path, d: Desired, hz: real)
    requires d.refreshHz == Some(hz) && hz > 0.0
    requires q.target.refreshNum == ToUint32(Thousandths(hz)) && q.target.refreshDen == 1000
    ensures Retimes(q, d) <==> Thousandths(hz) >= TWO_32
  {
    RoundNear(hz * 1000.0);
    if Thousandths(hz) < TWO_32 {
      StoredRateSettles(hz);
    } else {
      WrappedRateNeverSettles(hz);
    }
  }

  lemma FlagsTwice(flags: bv32)
    ensures (flags | ACTIVE) | ACTIVE == flags | ACTIVE
  {
  }

  /** Setting again what was set, or less of it, changes nothing. */
  lemma SetTwice(p: Path, rotation: Option<uint32>, rate: Option<uint32>, rateAgain: Option<uint32>)
    requires rateAgain.Some? ==> rateAgain == rate
    ensures var q := SetPath(p, rotation, rate); SetPath(q, None, rateAgain) == q
  {
    FlagsTwice(p.flags);
  }

  lemma PathTwice(p: Path, d: Desired)
    ensures var q := RewritePath(p, d);
            && !Rotates(q, d)
            && (Retimes(q, d) <==> Retimes(p, d) && Thousandths(d.refreshHz.value) >= TWO_32)
            && RewritePath(q, d) == q
  {
    var q := RewritePath(p, d);
    var rotation := if Rotates(p, d) then FromDegrees(d.rotation.degrees) else None;
    var rate := if Retimes(p, d) then Some(ToUint32(Thousandths(d.refreshHz.value))) else None;
    if Retimes(p, d) {
      RetimedTwice(q, d, d.refreshHz.value);
      SetTwice(p, rotation, rate, if Retimes(q, d) then rate else None);
    } else {
      assert q.target.refreshNum == p.target.refreshNum && q.target.refreshDen == p.target.refreshDen;
      SetTwice(p, rotation, rate, None);
    }
  }

  lemma SourceTwice(s: Source, d: Desired, o: Offset, m: Monitor)
    ensures var t := RewriteSource(s, d, o);
            && RewriteSource(t, d, o) == t
            && (SourceChanges(m, t, d, o) == []
                <==> && ToInt32(Target(d, o).x) == Target(d, o).x && ToInt32(Target(d, o).y) == Target(d, o).y
                     && (Resizes(s, d) ==>
                          Width(s, d.resolution.value) < TWO_32 && Height(s, d.resolution.value) < TWO_32))
  {
  }

  predicate OnlyPrimaries(changes: seq<Change>) {
    forall change :: change in changes ==> change.PrimaryChange?
  }

  /** After the first run, the second finds a monitor settled exactly when what it stored fitted. */
  lemma MatchTwice(c: Config, matches: seq<Match>, o: Offset, r: Config, k: nat)
    requires InRange(c, matches) && RewrittenApart(c, matches, o, r) && k < |matches|
    ensures InRange(r, matches) && RewriteAt(r, matches[k], o) == r
    ensures OnlyPrimaries(ChangesAt(r, matches[k], o)) <==> Fits(c, matches[k], o)
  {
    var m := matches[k];
    var p := c.paths[m.path];
    PathTwice(p, m.desired);
    SourceIndexKept(c, matches, o, r, m.path);
    var j := SourceIndex(c, p);
    var told := if j.Some? then SourceChanges(IdOf(r.paths[m.path]), r.modes[j.value].source, m.desired, o) else [];
    if j.Some? {
      SourceTwice(c.modes[j.value].source, m.desired, o, IdOf(r.paths[m.path]));
    }
    var again := RewriteAt(r, m, o);
    assert again.paths == r.paths && again.modes == r.modes;
    var timed := TargetChanges(r.paths[m.path], m.desired);
    assert told != [] ==> told[0] in ChangesAt(r, m, o) && !told[0].PrimaryChange?;
    assert timed != [] ==> timed[0] in ChangesAt(r, m, o) && !timed[0].PrimaryChange?;
  }

  lemma OnlyPrimariesBoth(a: seq<Change>, b: seq<Change>)
    ensures OnlyPrimaries(a + b) <==> OnlyPrimaries(a) && OnlyPrimaries(b)
  {
    assert forall change :: change in a + b <==> change in a || change in b;
  }

  /** Which matches fit, as a list. */
  function Fitting(c: Config, matches: seq<Match>, o: Offset): seq<bool>
    requires InRange(c, matches)
  {
    seq(|matches|, k requires 0 <= k < |matches| => Fits(c, matches[k], o))
  }

  predicate AllFit(c: Config, matches: seq<Match>, o: Offset)
    requires InRange(c, matches)
  {
    forall k :: 0 <= k < |matches| ==> Fits(c, matches[k], o)
  }

  lemma FittingIsAllFit(c: Config, matches: seq<Match>, o: Offset)
    requires InRange(c, matches)
    ensures false !in Fitting(c, matches, o) <==> AllFit(c, matches, o)
  {
    var fits := Fitting(c, matches, o);
    assert forall k :: 0 <= k < |matches| ==> fits[k] == Fits(c, matches[k], o);
  }

  lemma AllBut(fits: seq<bool>, n: nat)
    requires 0 < n <= |fits|
    ensures false !in fits[..n] <==> false !in fits[..n - 1] && fits[n - 1]
  {
    assert fits[..n] == fits[..n - 1] + [fits[n - 1]];
  }

  lemma {:induction false} Again(c: Config, matches: seq<Match>, o: Offset, r: Config, n: nat, fits: seq<bool>)
    requires InRange(c, matches) && RewrittenApart(c, matches, o, r) && n <= |matches|
    requires fits == Fitting(c, matches, o)
    ensures InRange(r, matches[..n])
    ensures Rewrite(r, matches[..n], o).config == r
    ensures OnlyPrimaries(Rewrite(r, matches[..n], o).changes) <==> false !in fits[..n]
  {
    if n > 0 {
      var k := n - 1;
      Again(c, matches, o, r, k, fits);
      MatchTwice(c, matches, o, r, k);
      RewriteNext(r, matches, k, o);
      AllBut(fits, n);
      OnlyPrimariesBoth(Rewrite(r, matches[..k], o).changes, ChangesAt(r, matches[k], o));
    }
  }

  /** A second run changes nothing, and journals nothing but who is primary exactly when every value of the
      first fitted its field: a refresh rate is found again within the tolerance after rounding. */
  lemma {:induction false} SecondRun(c: Config, matches: seq<Match>, o: Offset)
    requires InRange(c, matches) && Apart(c, matches)
    ensures var first := Rewrite(c, matches, o).config;
            && InRange(first, matches)
            && Rewrite(first, matches, o).config == first
            && (OnlyPrimaries(Rewrite(first, matches, o).changes) <==> AllFit(c, matches, o))
  {
    EachOnItsOwn(c, matches, o);
    var fits := Fitting(c, matches, o);
    Again(c, matches, o, Rewrite(c, matches, o).config, |matches|, fits);
    assert matches[..|matches|] == matches && fits[..|matches|] == fits;
    FittingIsAllFit(c, matches, o);
  }

  // ---------- the journal ----------

  /** An entry with the true old value, and the new value as it was asked for and as it was stored. */
  predicate Tells(change: Change, c: Config, r: Config, m: Match)
    requires m.path < |c.paths| == |r.paths| && |c.modes| == |r.modes|
  {
    var p, q := c.paths[m.path], r.paths[m.path];
    var j := SourceIndex(c, p);
    && change.monitor == IdOf(p)
    && (change.PositionChange? || change.ResolutionChange? ==> j.Some? && r.modes[j.value].SourceMode?)
    && match change
       case PositionChange(_, fromX, fromY, toX, toY) =>
         var s, t := c.modes[j.value].source, r.modes[j.value].source;
         s.x == fromX && s.y == fromY && t.x == ToInt32(toX) && t.y == ToInt32(toY) && (fromX != toX || fromY != toY)
       case ResolutionChange(_, fromW, fromH, toW, toH) =>
         var s, t := c.modes[j.value].source, r.modes[j.value].source;
         && s.width == fromW && s.height == fromH && t.width == ToUint32(toW) && t.height == ToUint32(toH)
         && (fromW != toW || fromH != toH)
       case RotationChange(_, fromD, toD) =>
         ToDegrees(p.target.rotation) == fromD && ToDegrees(q.target.rotation) == toD
             && p.target.rotation != q.target.rotation
       case RefreshChange(_, fromHz, toHz) =>
         && RefreshHz(p.target.refreshNum, p.target.refreshDen) == fromHz
         && m.desired.refreshHz.Some? && toHz == RoundCents(m.desired.refreshHz.value)
         && !(-0.01 <= fromHz - m.desired.refreshHz.value <= 0.01)
         && q.target.refreshNum == ToUint32(Thousandths(m.desired.refreshHz.value)) && q.target.refreshDen == 1000
       case PrimaryChange(_) => m.desired.primary
  }

  lemma EntryTells(c: Config, matches: seq<Match>, o: Offset, r: Config, k: nat, change: Change)
    requires InRange(c, matches) && k < |matches| && RewrittenApart(c, matches, o, r)
    requires change in ChangesAt(c, matches[k], o)
    ensures Tells(change, c, r, matches[k])
  {
    var m := matches[k];
    var p, d := c.paths[m.path], m.desired;
    assert r.paths[m.path] == RewritePath(p, d);
    var j := SourceIndex(c, p);
    if j.Some? {
      assert r.modes[j.value] == c.modes[j.value].(source := RewriteSource(c.modes[j.value].source, d, o));
    }
    if change.RotationChange? {
      assert change in TargetChanges(p, d);
      RotationRoundTrip(d.rotation.degrees);
    }
  }

  /** The path of a match differs only in flags, rotation and rate, and the last two have their entries. */
  predicate PathAccounted(p: Path, d: Desired, q: Path, changes: seq<Change>) {
    && q == p.(flags := q.flags, target := p.target.(rotation := q.target.rotation, refreshNum := q.target.refreshNum,
                                                     refreshDen := q.target.refreshDen))
    && (q.target.rotation != p.target.rotation ==>
          d.rotation.Degrees?
          && RotationChange(IdOf(p), ToDegrees(p.target.rotation), d.rotation.degrees) in changes)
    && (q.target.refreshNum != p.target.refreshNum || q.target.refreshDen != p.target.refreshDen ==>
          d.refreshHz.Some?
          && RefreshChange(IdOf(p), RefreshHz(p.target.refreshNum, p.target.refreshDen), RoundCents(d.refreshHz.value))
             in changes)
    && (d.primary ==> PrimaryChange(IdOf(p)) in changes)
  }

  /** The source mode of a match differs only in position and size, and both have their entries. */
  predicate SourceAccounted(monitor: Monitor, s: Source, d: Desired, o: Offset, t: Source, changes: seq<Change>) {
    && t == s.(x := t.x, y := t.y, width := t.width, height := t.height)
    && (s.x != t.x || s.y != t.y ==> PositionChange(monitor, s.x, s.y, d.x - o.x, d.y - o.y) in changes)
    && (s.width != t.width || s.height != t.height ==>
          d.resolution.Some?
          && ResolutionChange(monitor, s.width, s.height, Width(s, d.resolution.value), Height(s, d.resolution.value))
             in changes)
  }

  /** What differs on this match's path and source mode is in the journal. */
  predicate Accounted(c: Config, m: Match, o: Offset, r: Rewritten)
    requires m.path < |c.paths| == |r.config.paths| && |c.modes| == |r.config.modes|
  {
    var p := c.paths[m.path];
    var j := SourceIndex(c, p);
    && PathAccounted(p, m.desired, r.config.paths[m.path], r.changes)
    && (j.Some? ==>
          && r.config.modes[j.value].SourceMode?
          && SourceAccounted(IdOf(p), c.modes[j.value].source, m.desired, o, r.config.modes[j.value].source, r.changes))
  }

  lemma SourceIsAccounted(monitor: Monitor, s: Source, d: Desired, o: Offset, changes: seq<Change>)
    requires forall change :: change in SourceChanges(monitor, s, d, o) ==> change in changes
    ensures SourceAccounted(monitor, s, d, o, RewriteSource(s, d, o), changes)
  {
  }

  lemma PathIsAccounted(p: Path, d: Desired, changes: seq<Change>)
    requires forall change :: change in TargetChanges(p, d) ==> change in changes
    requires d.primary ==> PrimaryChange(IdOf(p)) in changes
    ensures PathAccounted(p, d, RewritePath(p, d), changes)
  {
  }

  lemma AccountedAt(c: Config, matches: seq<Match>, o: Offset, r: Rewritten, k: nat)
    requires InRange(c, matches) && k < |matches|
    requires RewrittenApart(c, matches, o, r.config) && r.changes == Flatten(Entries(c, matches, o))
    ensures Accounted(c, matches[k], o, r)
  {
    var m := matches[k];
    var p := c.paths[m.path];
    var j := SourceIndex(c, p);
    Journalled(c, matches, o, k);
    PathIsAccounted(p, m.desired, r.changes);
    if j.Some? {
      SourceIsAccounted(IdOf(p), c.modes[j.value].source, m.desired, o, r.changes);
    }
  }

  /** All three parts of what a match changes are in the journal. */
  lemma Journalled(c: Config, matches: seq<Match>, o: Offset, k: nat)
    requires InRange(c, matches) && k < |matches|
    ensures var p, d, changes := c.paths[matches[k].path], matches[k].desired, Flatten(Entries(c, matches, o));
            var j := SourceIndex(c, p);
            && (forall change :: change in TargetChanges(p, d) ==> change in changes)
            && (d.primary ==> PrimaryChange(IdOf(p)) in changes)
            && (j.Some? ==> forall change :: change in SourceChanges(IdOf(p), c.modes[j.value].source, d, o) ==>
                              change in changes)
  {
    var entries := Entries(c, matches, o);
    forall change | change in entries[k] ensures change in Flatten(entries) {
      FlattenHolds(entries, change);
    }
  }

  /** Every entry of the journal tells the truth, and every field of a matched path or of its source mode that
      the rewrite changed has its entry. */
  lemma {:induction false} JournalIsTrue(c: Config, matches: seq<Match>, o: Offset)
    requires InRange(c, matches) && Apart(c, matches)
    ensures var r := Rewrite(c, matches, o);
            && (forall change :: change in r.changes ==>
                  exists k :: 0 <= k < |matches| && Tells(change, c, r.config, matches[k]))
            && (forall k :: 0 <= k < |matches| ==> Accounted(c, matches[k], o, r))
  {
    EachOnItsOwn(c, matches, o);
    var r := Rewrite(c, matches, o);
    forall change | change in r.changes
      ensures exists k :: 0 <= k < |matches| && Tells(change, c, r.config, matches[k])
    {
      FlattenHolds(Entries(c, matches, o), change);
      var k :| 0 <= k < |matches| && change in Entries(c, matches, o)[k];
      EntryTells(c, matches, o, r.config, k, change);
    }
    forall k | 0 <= k < |matches| ensures Accounted(c, matches[k], o, r) {
      AccountedAt(c, matches, o, r, k);
    }
  }
}
