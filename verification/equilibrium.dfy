/** The MAST and MAST-U EFIT equilibrium readers
    (cherab/mastu/equilibrium/equilibrium.py): the pulse guards, the
    time-slice lookup of each reader, the boundary-polygon steps and the
    x-point/strike-point table of the MAST-U reader.

    The archive signals the readers fetch are given as an archive record;
    the record each `time` call hands to the equilibrium constructor is a
    `TimeSlice`. */
module Equilibrium {
  import opened Outcomes
  import opened PySeq
  import opened TimeSearch
  import opened BoundaryPolygon

  /** The pulse argument: a shot number, or anything else (a string, say). */
  datatype Pulse = Shot(number: int) | Other(text: string)

  datatype EquilibriumError =
    | MastPulseTooLate              // ValueError: MAST reader asked for pulse >= 40000
    | PulseNotComparable            // TypeError: `pulse >= 40000` on a non-number
    | MastuPulseTooEarly            // ValueError: MAST-U reader asked for pulse < 40000
    | EmptyTimeBase                 // ValueError: `min()` of an empty time array
    | TimeOutsideRange(tmin: real, tmax: real)  // ValueError carrying the time range
    | BoundaryFailure(cause: PolygonError)
  {
    function Exception(): PyException {
      match this
      case PulseNotComparable => TypeError
      case BoundaryFailure(cause) => cause.Exception()
      case _ => ValueError
    }
  }

  /** A 2-D array of `width` columns stored row by row. */
  datatype Grid = Grid(width: nat, rows: seq<seq<real>>) {
    predicate WellFormed() {
      forall k :: 0 <= k < |rows| ==> |rows[k]| == width
    }
  }

  /** `np.transpose` of a 2-D array. */
  function Transpose(g: Grid): (t: Grid)
    requires g.WellFormed()
    ensures t.WellFormed() && t.width == |g.rows| && |t.rows| == g.width
    ensures forall i, j :: 0 <= i < g.width && 0 <= j < |g.rows| ==> t.rows[i][j] == g.rows[j][i]
  {
    Grid(|g.rows|, seq(g.width, i requires 0 <= i < g.width =>
                        seq(|g.rows|, j requires 0 <= j < |g.rows| => g.rows[j][i])))
  }

  /** Transposing twice gives back the array. */
  lemma {:induction false} TransposeTwice(g: Grid)
    requires g.WellFormed()
    ensures Transpose(Transpose(g)) == g
  {
    var t := Transpose(Transpose(g));
    assert |t.rows| == |g.rows|;
    forall j | 0 <= j < |g.rows|
      ensures t.rows[j] == g.rows[j]
    {
    }
  }

  /** A flux-function profile `np.asarray([psin, values])`. */
  datatype Profile = Profile(psin: seq<real>, values: seq<real>)

  /** The arguments each `time` call passes to the equilibrium constructor. */
  datatype TimeSlice = TimeSlice(
    r: seq<real>, z: seq<real>, psi: Grid,
    psiAxis: real, psiLcfs: real, axis: Point2,
    xpoints: seq<Point2>, strikePoints: seq<Point2>,
    fProfile: Profile, qProfile: Profile,
    bVacuumRadius: real, bVacuumMagnitude: real,
    lcfs: Polygon, limiter: Polygon, time: real)

  // ---------------------------------------------------------------------------
  // Pulse guards
  // ---------------------------------------------------------------------------

  /** `if pulse >= 40000: raise ValueError`; comparing a non-number with an
      int raises TypeError. */
  function MastGuard(pulse: Pulse): (e: Option<EquilibriumError>)
    ensures e.None? <==> pulse.Shot? && pulse.number < 40000
  {
    match pulse
    case Shot(n) => if n >= 40000 then Some(MastPulseTooLate) else None
    case Other(_) => Some(PulseNotComparable)
  }

  /** `if isinstance(pulse, int) and pulse < 40000: raise ValueError`. */
  function MastuGuard(pulse: Pulse): (e: Option<EquilibriumError>)
    ensures e.None? <==> !(pulse.Shot? && pulse.number < 40000)
  {
    if pulse.Shot? && pulse.number < 40000 then Some(MastuPulseTooEarly) else None
  }

  /** Every shot number is accepted by exactly one of the two readers; a
      non-numeric pulse only by the MAST-U reader. */
  lemma {:induction false} GuardsPartitionPulses(pulse: Pulse)
    ensures pulse.Shot? ==> (MastGuard(pulse).None? != MastuGuard(pulse).None?)
    ensures pulse.Other? ==> MastGuard(pulse) == Some(PulseNotComparable) && MastuGuard(pulse).None?
  {
  }

  /** The `except IndexError` around the MAST lookups: an out-of-range
      lookup becomes a ValueError carrying the time range; `min()` of an
      empty array already raises ValueError and passes through. */
  function LookupFailure(e: SearchError, tmin: real, tmax: real): (r: EquilibriumError)
    ensures r.Exception() == ValueError
    ensures e.Exception() == IndexError <==> r == TimeOutsideRange(tmin, tmax)
  {
    if e == EmptyArray then EmptyTimeBase else TimeOutsideRange(tmin, tmax)
  }

  // ---------------------------------------------------------------------------
  // MAST
  // ---------------------------------------------------------------------------

  /** The MAST EFIT signals. Arrays indexed by `index` run along the time
      base, arrays indexed by `plasma_index` along the plasma time base. */
  datatype MastArchive = MastArchive(
    timeSlices: seq<real>, psi: seq<Grid>, r: seq<real>, z: seq<real>,
    fPsin: seq<real>, f: seq<seq<real>>, qPsin: seq<real>, q: seq<seq<real>>,
    psiLcfs: seq<real>, psiAxis: seq<real>,
    bVacuumMagnitude: seq<real>, bVacuumRadius: seq<real>,
    axisR: seq<real>, axisZ: seq<real>,
    xpoint1R: seq<real>, xpoint1Z: seq<real>, xpoint2R: seq<real>, xpoint2Z: seq<real>,
    lcfsR: seq<seq<real>>, lcfsZ: seq<seq<real>>, nlcfs: seq<int>,
    limiterR: seq<real>, limiterZ: seq<real>, nlimiter: int,
    plasmaTimes: seq<real>)
  {
    /** Signals of one EFIT run: time-indexed arrays as long as the time base,
        plasma-indexed ones as long as the plasma time base, both time bases
        ascending and the LCFS rows of a slice of equal length. */
    predicate WellFormed() {
      var n, m := |timeSlices|, |plasmaTimes|;
      Ascending(timeSlices) && Ascending(plasmaTimes) &&
      |psi| == n && |bVacuumMagnitude| == n && |bVacuumRadius| == n &&
      (forall k :: 0 <= k < n ==> psi[k].WellFormed()) &&
      |f| == m && |q| == m && |psiLcfs| == m && |psiAxis| == m &&
      |axisR| == m && |axisZ| == m && |lcfsR| == m && |lcfsZ| == m && |nlcfs| == m &&
      |xpoint1R| == m && |xpoint1Z| == m && |xpoint2R| == m && |xpoint2Z| == m &&
      (forall k :: 0 <= k < m ==> |lcfsR[k]| == |lcfsZ[k]|)
    }
  }

  /** The MAST x-point list built in `__init__`: one pair of points per
      plasma time, zipped from four signals (stopping at the shortest). */
  function XpointPairs(r1: seq<real>, z1: seq<real>, r2: seq<real>, z2: seq<real>): (xs: seq<seq<Point2>>)
    ensures |xs| <= |r1| && |xs| <= |z1| && |xs| <= |r2| && |xs| <= |z2|
    ensures |xs| == |r1| || |xs| == |z1| || |xs| == |r2| || |xs| == |z2|
    ensures forall k :: 0 <= k < |xs| ==> xs[k] == [Point2(r1[k], z1[k]), Point2(r2[k], z2[k])]
  {
    if r1 == [] || z1 == [] || r2 == [] || z2 == [] then []
    else [[Point2(r1[0], z1[0]), Point2(r2[0], z2[0])]] + XpointPairs(r1[1..], z1[1..], r2[1..], z2[1..])
  }

  function MastXpoints(a: MastArchive): seq<seq<Point2>> {
    XpointPairs(a.xpoint1R, a.xpoint1Z, a.xpoint2R, a.xpoint2Z)
  }

  /** The two lookups of `MASTEquilibrium.time`: `index` on the time base,
      then `plasma_index` on the plasma time base. */
  function MastIndices(a: MastArchive, t: real): (r: Result<(nat, nat), EquilibriumError>)
    requires a.WellFormed() && |a.timeSlices| > 0
    ensures r.Ok? ==> r.value.0 < |a.timeSlices| && r.value.1 < |a.plasmaTimes|
  {
    var tmin, tmax := Min(a.timeSlices), Max(a.timeSlices);
    match FindNearest(a.timeSlices, t)
    case Err(e) => Err(LookupFailure(e, tmin, tmax))
    case Ok(index) =>
      match FindNearest(a.plasmaTimes, t)
      case Err(e) => Err(LookupFailure(e, tmin, tmax))
      case Ok(plasmaIndex) => Ok((index, plasmaIndex))
  }

  /** The sanitised polygon of the first `count` archive points, as 2 x N. */
  function TrimmedPolygon(rs: seq<real>, zs: seq<real>, count: int): Result<Polygon, PolygonError> {
    match SanitisePolygon(PyPrefix(rs, count), PyPrefix(zs, count))
    case Err(e) => Err(e)
    case Ok(ps) => Ok(PolygonOf(ps))
  }

  function MastLcfs(a: MastArchive, plasmaIndex: nat): Result<Polygon, PolygonError>
    requires a.WellFormed() && plasmaIndex < |a.plasmaTimes|
  {
    TrimmedPolygon(a.lcfsR[plasmaIndex], a.lcfsZ[plasmaIndex], a.nlcfs[plasmaIndex])
  }

  function MastLimiter(a: MastArchive): Result<Polygon, PolygonError> {
    TrimmedPolygon(a.limiterR, a.limiterZ, a.nlimiter)
  }

  /** What `MASTEquilibrium.time(t)` returns. */
  function MastTimeSlice(a: MastArchive, t: real): (r: Result<TimeSlice, EquilibriumError>)
    requires a.WellFormed() && |a.timeSlices| > 0
    ensures r.Ok? ==> MastIndices(a, t).Ok?
  {
    match MastIndices(a, t)
    case Err(e) => Err(e)
    case Ok((index, plasmaIndex)) =>
      match MastLcfs(a, plasmaIndex)
      case Err(e) => Err(BoundaryFailure(e))
      case Ok(lcfs) =>
        match MastLimiter(a)
        case Err(e) => Err(BoundaryFailure(e))
        case Ok(limiter) =>
          Ok(TimeSlice(
            a.r, a.z, Transpose(a.psi[index]),
            a.psiAxis[plasmaIndex], a.psiLcfs[plasmaIndex],
            Point2(a.axisR[plasmaIndex], a.axisZ[plasmaIndex]),
            MastXpoints(a)[plasmaIndex], [],
            Profile(a.fPsin, a.f[plasmaIndex]), Profile(a.qPsin, a.q[plasmaIndex]),
            a.bVacuumRadius[index], a.bVacuumMagnitude[index],
            lcfs, limiter, a.timeSlices[index]))
  }

  /** Reads MAST EFIT equilibrium data; `Time` selects one time-slice. */
  class MASTEquilibrium {
    const archive: MastArchive
    const timeRange: (real, real)
    const xpoints: seq<seq<Point2>>
    var fProfilePsin: Option<seq<real>>
    var lcfsPolygon: Option<Polygon>
    var limiterPolygon: Option<Polygon>

    predicate Valid() {
      archive.WellFormed() && |archive.timeSlices| > 0 &&
      timeRange == (Min(archive.timeSlices), Max(archive.timeSlices)) &&
      xpoints == MastXpoints(archive)
    }

    /** The field set-up of `__init__` once the pulse guard has passed. */
    constructor (archive: MastArchive)
      requires archive.WellFormed() && |archive.timeSlices| > 0
      ensures Valid() && this.archive == archive
      ensures fProfilePsin.None? && lcfsPolygon.None? && limiterPolygon.None?
    {
      this.archive := archive;
      xpoints := MastXpoints(archive);
      timeRange := (Min(archive.timeSlices), Max(archive.timeSlices));
      fProfilePsin := None;
      lcfsPolygon := None;
      limiterPolygon := None;
    }

    /** `MASTEquilibrium(pulse)`: the pulse guard, then the reads; the time
        range of an empty time base cannot be computed. */
    static method Load(pulse: Pulse, archive: MastArchive) returns (r: Result<MASTEquilibrium, EquilibriumError>)
      requires archive.WellFormed()
      ensures r.Err? <==> MastGuard(pulse).Some? || |archive.timeSlices| == 0
      ensures r.Err? ==> r.error == (if MastGuard(pulse).Some? then MastGuard(pulse).value else EmptyTimeBase)
      ensures r.Ok? ==> fresh(r.value) && r.value.Valid() && r.value.archive == archive
    {
      var guard := MastGuard(pulse);
      if guard.Some? {
        return Err(guard.value);
      }
      if |archive.timeSlices| == 0 {
        return Err(EmptyTimeBase);
      }
      var eq := new MASTEquilibrium(archive);
      return Ok(eq);
    }

    /** `MASTEquilibrium.time(t)`. The profile grid, the LCFS polygon and the
        limiter polygon are stored on the object as they are computed, so a
        failure part-way leaves the earlier ones written. */
    method Time(t: real) returns (r: Result<TimeSlice, EquilibriumError>)
      requires Valid()
      modifies this
      ensures r == MastTimeSlice(archive, t)
      ensures fProfilePsin == (if MastIndices(archive, t).Ok? then Some(archive.fPsin) else old(fProfilePsin))
      ensures lcfsPolygon ==
                (if MastIndices(archive, t).Ok? && MastLcfs(archive, MastIndices(archive, t).value.1).Ok?
                 then Some(MastLcfs(archive, MastIndices(archive, t).value.1).value)
                 else old(lcfsPolygon))
      ensures limiterPolygon == (if r.Ok? then Some(r.value.limiter) else old(limiterPolygon))
    {
      var found := FindNearest(archive.timeSlices, t);
      if found.Err? {
        return Err(LookupFailure(found.error, timeRange.0, timeRange.1));
      }
      var plasmaFound := FindNearest(archive.plasmaTimes, t);
      if plasmaFound.Err? {
        return Err(LookupFailure(plasmaFound.error, timeRange.0, timeRange.1));
      }
      var index, plasmaIndex := found.value, plasmaFound.value;
      var bVacuumRadius := archive.bVacuumRadius[index];
      var time := archive.timeSlices[index];
      var psi := Transpose(archive.psi[index]);
      var psiLcfs := archive.psiLcfs[plasmaIndex];
      var psiAxis := archive.psiAxis[plasmaIndex];
      fProfilePsin := Some(archive.fPsin);
      var fProfile := Profile(archive.fPsin, archive.f[plasmaIndex]);
      var qProfile := Profile(archive.qPsin, archive.q[plasmaIndex]);
      var axis := Point2(archive.axisR[plasmaIndex], archive.axisZ[plasmaIndex]);
      var bVacuumMagnitude := archive.bVacuumMagnitude[index];

      var lcfsPoints := archive.nlcfs[plasmaIndex];
      var lcfsR := PyPrefix(archive.lcfsR[plasmaIndex], lcfsPoints);
      var lcfsZ := PyPrefix(archive.lcfsZ[plasmaIndex], lcfsPoints);
      var lcfsCoords := ProcessEfitLcfsPolygon(lcfsR, lcfsZ);
      if lcfsCoords.Err? {
        return Err(BoundaryFailure(lcfsCoords.error));
      }
      TransposedFill(lcfsCoords.value, SanitisePolygon(lcfsR, lcfsZ).value);
      var lcfs := Transposed(lcfsCoords.value);
      lcfsPolygon := Some(lcfs);

      var limiterPoints := archive.nlimiter;
      var limiterR := PyPrefix(archive.limiterR, limiterPoints);
      var limiterZ := PyPrefix(archive.limiterZ, limiterPoints);
      var limiterCoords := ProcessEfitLcfsPolygon(limiterR, limiterZ);
      if limiterCoords.Err? {
        return Err(BoundaryFailure(limiterCoords.error));
      }
      TransposedFill(limiterCoords.value, SanitisePolygon(limiterR, limiterZ).value);
      var limiter := Transposed(limiterCoords.value);
      limiterPolygon := Some(limiter);

      var xpointPair := xpoints[plasmaIndex];
      return Ok(TimeSlice(archive.r, archive.z, psi, psiAxis, psiLcfs, axis,
                          xpointPair, [], fProfile, qProfile,
                          bVacuumRadius, bVacuumMagnitude, lcfs, limiter, time));
    }
  }

  /** The MAST lookup fails exactly when the time lies outside the samples
      `_find_nearest` can answer for on either time base: below the first
      or above the second-to-last sample (the last sample itself included).
      An out-of-range time is reported with the range of the time base, even
      when it is the plasma time base that rejected it. */
  lemma {:induction false} MastIndicesErrors(a: MastArchive, t: real)
    requires a.WellFormed() && |a.timeSlices| > 0
    ensures var ts, pt := a.timeSlices, a.plasmaTimes;
            MastIndices(a, t).Ok? <==>
              |ts| >= 2 && ts[0] <= t <= ts[|ts| - 2] && |pt| >= 2 && pt[0] <= t <= pt[|pt| - 2]
    ensures var ts := a.timeSlices;
            MastIndices(a, t).Err? ==>
              MastIndices(a, t).error ==
                (if FindNearest(ts, t).Ok? && a.plasmaTimes == [] then EmptyTimeBase
                 else TimeOutsideRange(ts[0], ts[|ts| - 1]))
  {
    var ts, pt := a.timeSlices, a.plasmaTimes;
    FindNearestErrors(ts, t);
    AscendingMinMax(ts);
    if pt != [] {
      FindNearestErrors(pt, t);
    }
  }

  /** The selected slice is the ceiling rule of `_find_nearest` on both time
      bases: the first sample at or above `t`, or the one after it when the
      two are equal. */
  lemma {:induction false} MastSliceChoice(a: MastArchive, t: real)
    requires a.WellFormed() && |a.timeSlices| > 0
    requires MastIndices(a, t).Ok?
    ensures var (index, plasmaIndex) := MastIndices(a, t).value;
            var i, j := InsertionPoint(a.timeSlices, t), InsertionPoint(a.plasmaTimes, t);
            index == (if a.timeSlices[i] < a.timeSlices[i + 1] then i else i + 1) &&
            plasmaIndex == (if a.plasmaTimes[j] < a.plasmaTimes[j + 1] then j else j + 1)
  {
    MastIndicesErrors(a, t);
    FindNearestChoice(a.timeSlices, t);
    FindNearestChoice(a.plasmaTimes, t);
  }

  /** The reported time is the selected sample, never earlier than `t`. */
  lemma {:induction false} MastSliceNotEarlier(a: MastArchive, t: real)
    requires a.WellFormed() && |a.timeSlices| > 0
    requires MastTimeSlice(a, t).Ok?
    ensures var slice := MastTimeSlice(a, t).value;
            slice.time == a.timeSlices[MastIndices(a, t).value.0] && slice.time >= t
  {
    FindNearestIsCeiling(a.timeSlices, t);
  }

  /** The boundary polygon keeps only points among the first `count` archive
      points: it fails exactly when fewer than two survive the trim, starts
      with the first archive point and holds no point from the padding. */
  lemma {:induction false} TrimmedPolygonFromFirstPoints(rs: seq<real>, zs: seq<real>, count: int)
    requires |rs| == |zs|
    ensures var n := |PyPrefix(rs, count)|;
            (TrimmedPolygon(rs, zs, count).Err? <==> n < 2) &&
            (TrimmedPolygon(rs, zs, count).Err? ==> TrimmedPolygon(rs, zs, count).error == TooFewPoints) &&
            (0 <= count <= |rs| ==> n == count)
    ensures TrimmedPolygon(rs, zs, count).Ok? ==>
              var pts := TrimmedPolygon(rs, zs, count).value.Points();
              var n := |PyPrefix(rs, count)|;
              pts[0] == Point2(rs[0], zs[0]) &&
              forall q :: q in pts ==> exists k :: 0 <= k < n && q == Point2(rs[k], zs[k])
  {
    var pr, pz := PyPrefix(rs, count), PyPrefix(zs, count);
    if |pr| >= 2 {
      var ps := ZipPoints(pr, pz);
      SanitisedShape(ps);
      var out := Sanitised(ps);
      forall q | q in out
        ensures exists k :: 0 <= k < |pr| && q == Point2(rs[k], zs[k])
      {
        assert multiset(out)[q] > 0;
        assert q in multiset(ps);
        var k :| 0 <= k < |ps| && ps[k] == q;
        assert pr[k] == rs[k] && pz[k] == zs[k];
      }
    }
  }

  // ---------------------------------------------------------------------------
  // MAST-U
  // ---------------------------------------------------------------------------

  /** The MAST-U signals; every time-indexed array runs along the time base.
      A NaN x-point count is `None`. */
  datatype MastuArchive = MastuArchive(
    timeSlices: seq<real>, psi: seq<Grid>, r: seq<real>, z: seq<real>,
    fPsin: seq<real>, f: seq<seq<real>>, qPsin: seq<real>, q: seq<seq<real>>,
    psiLcfs: seq<real>, psiAxis: seq<real>, bVacuumMagnitude: seq<real>,
    axisR: seq<real>, axisZ: seq<real>,
    xpointCount: seq<Option<real>>, xpointR: seq<seq<real>>, xpointZ: seq<seq<real>>,
    strikeR: seq<seq<real>>, strikeZ: seq<seq<real>>,
    lcfsR: seq<seq<real>>, lcfsZ: seq<seq<real>>,
    limiterR: seq<real>, limiterZ: seq<real>)
  {
    predicate WellFormed() {
      var n := |timeSlices|;
      |psi| == n && |f| == n && |q| == n && |psiLcfs| == n && |psiAxis| == n &&
      |bVacuumMagnitude| == n && |axisR| == n && |axisZ| == n &&
      |xpointCount| == n && |xpointR| == n && |xpointZ| == n && |strikeR| == n && |strikeZ| == n &&
      |lcfsR| == n && |lcfsZ| == n
    }
  }

  /** `int(x)`: truncation toward zero. */
  function Truncate(x: real): (i: int)
    ensures 0.0 <= x ==> 0 <= i && i as real <= x < i as real + 1.0
    ensures x < 0.0 ==> i <= 0 && i as real - 1.0 < x <= i as real
  {
    if x >= 0.0 then x.Floor else -((-x).Floor)
  }

  /** The x-point count of one slice: NaN counts as 0. */
  function XpointCount(count: Option<real>): int {
    match count
    case None => 0
    case Some(x) => Truncate(x)
  }

  /** The x-points of one slice: the first n (r, z) pairs. */
  function SliceXpoints(count: Option<real>, rx: seq<real>, zx: seq<real>): seq<Point2> {
    var n := XpointCount(count);
    ZipPoints(PyPrefix(rx, n), PyPrefix(zx, n))
  }

  /** The strike points of one slice: the first 2n (r, z) pairs. */
  function SliceStrikePoints(count: Option<real>, rs: seq<real>, zs: seq<real>): seq<Point2> {
    var n := XpointCount(count);
    ZipPoints(PyPrefix(rs, 2 * n), PyPrefix(zs, 2 * n))
  }

  /** Length of `zip(nxp, rxp, zxp, rsp, zsp)`. */
  function ZipLength(a: MastuArchive): (n: nat)
    ensures n <= |a.xpointCount| && n <= |a.xpointR| && n <= |a.xpointZ| && n <= |a.strikeR| && n <= |a.strikeZ|
    ensures n == |a.xpointCount| || n == |a.xpointR| || n == |a.xpointZ| || n == |a.strikeR| || n == |a.strikeZ|
  {
    var n1 := if |a.xpointCount| <= |a.xpointR| then |a.xpointCount| else |a.xpointR|;
    var n2 := if n1 <= |a.xpointZ| then n1 else |a.xpointZ|;
    var n3 := if n2 <= |a.strikeR| then n2 else |a.strikeR|;
    if n3 <= |a.strikeZ| then n3 else |a.strikeZ|
  }

  function XpointTable(a: MastuArchive): seq<seq<Point2>> {
    seq(ZipLength(a), k requires 0 <= k < ZipLength(a) =>
      SliceXpoints(a.xpointCount[k], a.xpointR[k], a.xpointZ[k]))
  }

  function StrikePointTable(a: MastuArchive): seq<seq<Point2>> {
    seq(ZipLength(a), k requires 0 <= k < ZipLength(a) =>
      SliceStrikePoints(a.xpointCount[k], a.strikeR[k], a.strikeZ[k]))
  }

  lemma {:induction false} TablesStep(a: MastuArchive, k: nat)
    requires k < ZipLength(a)
    ensures XpointTable(a)[..k + 1] ==
            XpointTable(a)[..k] + [SliceXpoints(a.xpointCount[k], a.xpointR[k], a.xpointZ[k])]
    ensures StrikePointTable(a)[..k + 1] ==
            StrikePointTable(a)[..k] + [SliceStrikePoints(a.xpointCount[k], a.strikeR[k], a.strikeZ[k])]
  {
    assert XpointTable(a)[..k + 1] == XpointTable(a)[..k] + [XpointTable(a)[k]];
    assert StrikePointTable(a)[..k + 1] == StrikePointTable(a)[..k] + [StrikePointTable(a)[k]];
  }

  /** A NaN count gives no x-points and no strike points; a count of c, with
      enough samples, gives the first c x-points and the first 2c strike
      points in archive order. */
  lemma {:induction false} SliceXpointsShape(count: Option<real>, rx: seq<real>, zx: seq<real>, rs: seq<real>, zs: seq<real>)
    ensures count.None? ==> SliceXpoints(count, rx, zx) == [] && SliceStrikePoints(count, rs, zs) == []
    ensures forall c: nat | count == Some(c as real) && c <= |rx| && c <= |zx| && 2 * c <= |rs| && 2 * c <= |zs| ::
              var xp, sp := SliceXpoints(count, rx, zx), SliceStrikePoints(count, rs, zs);
              |xp| == c && |sp| == 2 * c &&
              (forall k :: 0 <= k < c ==> xp[k] == Point2(rx[k], zx[k])) &&
              (forall k :: 0 <= k < 2 * c ==> sp[k] == Point2(rs[k], zs[k]))
  {
    forall c: nat | count == Some(c as real) && c <= |rx| && c <= |zx| && 2 * c <= |rs| && 2 * c <= |zs|
      ensures XpointCount(count) == c
    {
      assert (c as real).Floor == c;
    }
  }

  /** `MASTUEquilibrium.time(t)`'s index: the inclusive range check, then
      `np.argmin(abs(time_slices - t))`. */
  function MastuIndex(a: MastuArchive, t: real): (r: Result<nat, EquilibriumError>)
    requires |a.timeSlices| > 0
    ensures r.Ok? ==> r.value < |a.timeSlices|
  {
    var tmin, tmax := Min(a.timeSlices), Max(a.timeSlices);
    if !(tmin <= t <= tmax) then Err(TimeOutsideRange(tmin, tmax))
    else Ok(ArgMinDistance(a.timeSlices, t))
  }

  /** `np.stack` of the two rows, then dropping a repeated closing column. */
  function OpenedPolygon(rs: seq<real>, zs: seq<real>): Result<Polygon, PolygonError> {
    match Stack(rs, zs)
    case Err(e) => Err(e)
    case Ok(p) => OpenIfClosed(p)
  }

  /** What `MASTUEquilibrium.time(t)` returns. */
  function MastuTimeSlice(a: MastuArchive, t: real): (r: Result<TimeSlice, EquilibriumError>)
    requires a.WellFormed() && |a.timeSlices| > 0 && ZipLength(a) == |a.timeSlices|
    ensures r.Ok? ==> MastuIndex(a, t).Ok?
  {
    match MastuIndex(a, t)
    case Err(e) => Err(e)
    case Ok(index) =>
      match OpenedPolygon(a.lcfsR[index], a.lcfsZ[index])
      case Err(e) => Err(BoundaryFailure(e))
      case Ok(lcfs) =>
        match OpenedPolygon(a.limiterR, a.limiterZ)
        case Err(e) => Err(BoundaryFailure(e))
        case Ok(limiter) =>
          Ok(TimeSlice(
            a.r, a.z, a.psi[index], a.psiAxis[index], a.psiLcfs[index],
            Point2(a.axisR[index], a.axisZ[index]),
            XpointTable(a)[index], StrikePointTable(a)[index],
            Profile(a.fPsin, a.f[index]), Profile(a.qPsin, a.q[index]),
            a.axisR[index], a.bVacuumMagnitude[index],
            lcfs, limiter, a.timeSlices[index]))
  }

  /** Reads MAST-U EFIT equilibrium data; `Time` selects one time-slice. */
  class MASTUEquilibrium {
    const archive: MastuArchive
    const timeRange: (real, real)
    var xpoints: seq<seq<Point2>>
    var strikePoints: seq<seq<Point2>>

    predicate Valid()
      reads this
    {
      archive.WellFormed() && |archive.timeSlices| > 0 &&
      timeRange == (Min(archive.timeSlices), Max(archive.timeSlices)) &&
      xpoints == XpointTable(archive) && strikePoints == StrikePointTable(archive)
    }

    /** The field set-up of `__init__` once the pulse guard has passed,
        including the loop that fills the x-point and strike-point lists. */
    constructor (archive: MastuArchive)
      requires archive.WellFormed() && |archive.timeSlices| > 0
      ensures Valid() && this.archive == archive
    {
      this.archive := archive;
      timeRange := (Min(archive.timeSlices), Max(archive.timeSlices));
      new;
      xpoints := [];
      strikePoints := [];
      for k := 0 to ZipLength(archive)
        invariant xpoints == XpointTable(archive)[..k]
        invariant strikePoints == StrikePointTable(archive)[..k]
      {
        var n := archive.xpointCount[k];
        if n.None? {
          n := Some(0.0);
        }
        var count := Truncate(n.value);
        assert count == XpointCount(archive.xpointCount[k]);
        TablesStep(archive, k);
        xpoints := xpoints + [ZipPoints(PyPrefix(archive.xpointR[k], count), PyPrefix(archive.xpointZ[k], count))];
        strikePoints := strikePoints + [ZipPoints(PyPrefix(archive.strikeR[k], 2 * count),
                                                  PyPrefix(archive.strikeZ[k], 2 * count))];
      }
      assert XpointTable(archive)[..ZipLength(archive)] == XpointTable(archive);
      assert StrikePointTable(archive)[..ZipLength(archive)] == StrikePointTable(archive);
    }

    /** `MASTUEquilibrium(pulse)`: the pulse guard, then the reads. */
    static method Load(pulse: Pulse, archive: MastuArchive) returns (r: Result<MASTUEquilibrium, EquilibriumError>)
      requires archive.WellFormed()
      ensures r.Err? <==> MastuGuard(pulse).Some? || |archive.timeSlices| == 0
      ensures r.Err? ==> r.error == (if MastuGuard(pulse).Some? then MastuPulseTooEarly else EmptyTimeBase)
      ensures r.Ok? ==> fresh(r.value) && r.value.Valid() && r.value.archive == archive
    {
      if MastuGuard(pulse).Some? {
        return Err(MastuPulseTooEarly);
      }
      if |archive.timeSlices| == 0 {
        return Err(EmptyTimeBase);
      }
      var eq := new MASTUEquilibrium(archive);
      return Ok(eq);
    }

    /** `MASTUEquilibrium.time(t)`; it changes nothing on the object. */
    method Time(t: real) returns (r: Result<TimeSlice, EquilibriumError>)
      requires Valid()
      ensures r == MastuTimeSlice(archive, t)
    {
      var tmin, tmax := Min(archive.timeSlices), Max(archive.timeSlices);
      if !(tmin <= t <= tmax) {
        return Err(TimeOutsideRange(tmin, tmax));
      }
      var index := ArgMinDistance(archive.timeSlices, t);
      var time := archive.timeSlices[index];
      var psi := archive.psi[index];
      var psiLcfs := archive.psiLcfs[index];
      var psiAxis := archive.psiAxis[index];
      var fProfile := Profile(archive.fPsin, archive.f[index]);
      var qProfile := Profile(archive.qPsin, archive.q[index]);
      var axis := Point2(archive.axisR[index], archive.axisZ[index]);
      var bVacuumMagnitude := archive.bVacuumMagnitude[index];
      var bVacuumRadius := archive.axisR[index];

      var lcfsPolygon := Stack(archive.lcfsR[index], archive.lcfsZ[index]);
      if lcfsPolygon.Err? {
        return Err(BoundaryFailure(lcfsPolygon.error));
      }
      var lcfs := OpenIfClosed(lcfsPolygon.value);
      if lcfs.Err? {
        return Err(BoundaryFailure(lcfs.error));
      }
      var limiterPolygon := Stack(archive.limiterR, archive.limiterZ);
      if limiterPolygon.Err? {
        return Err(BoundaryFailure(limiterPolygon.error));
      }
      var limiter := OpenIfClosed(limiterPolygon.value);
      if limiter.Err? {
        return Err(BoundaryFailure(limiter.error));
      }
      return Ok(TimeSlice(archive.r, archive.z, psi, psiAxis, psiLcfs, axis,
                          xpoints[index], strikePoints[index], fProfile, qProfile,
                          bVacuumRadius, bVacuumMagnitude, lcfs.value, limiter.value, time));
    }
  }

  /** The MAST-U lookup fails exactly outside [min, max] of the time base
      and otherwise picks the sample nearest to `t`, the earliest of equally
      near ones, reporting that sample's time. */
  lemma {:induction false} MastuIndexNearest(a: MastuArchive, t: real)
    requires |a.timeSlices| > 0
    ensures var ts := a.timeSlices;
            MastuIndex(a, t).Err? <==> t < Min(ts) || Max(ts) < t
    ensures MastuIndex(a, t).Err? ==> MastuIndex(a, t).error == TimeOutsideRange(Min(a.timeSlices), Max(a.timeSlices))
    ensures MastuIndex(a, t).Ok? ==>
              var ts, k := a.timeSlices, MastuIndex(a, t).value;
              (forall j :: 0 <= j < |ts| ==> Dist(ts[k], t) <= Dist(ts[j], t)) &&
              (forall j :: 0 <= j < k ==> Dist(ts[k], t) < Dist(ts[j], t))
  {
  }

  /** A boundary whose last vertex repeats the first reaches the equilibrium
      without that vertex; any other boundary reaches it unchanged. This
      holds for the LCFS of the slice and for the limiter alike. */
  lemma {:induction false} MastuBoundaryOpened(a: MastuArchive, t: real)
    requires a.WellFormed() && |a.timeSlices| > 0 && ZipLength(a) == |a.timeSlices|
    requires MastuTimeSlice(a, t).Ok?
    ensures var index := MastuIndex(a, t).value;
            var raw := Polygon(a.lcfsR[index], a.lcfsZ[index]);
            var pts := raw.Points();
            var out := MastuTimeSlice(a, t).value.lcfs.Points();
            raw.WellFormed() && |pts| > 0 &&
            (pts[0] == pts[|pts| - 1] ==> out == pts[..|pts| - 1]) &&
            (pts[0] != pts[|pts| - 1] ==> out == pts)
    ensures var raw := Polygon(a.limiterR, a.limiterZ);
            var pts := raw.Points();
            var out := MastuTimeSlice(a, t).value.limiter.Points();
            raw.WellFormed() && |pts| > 0 &&
            (pts[0] == pts[|pts| - 1] ==> out == pts[..|pts| - 1]) &&
            (pts[0] != pts[|pts| - 1] ==> out == pts)
  {
    var index := MastuIndex(a, t).value;
    OpenIfClosedEffect(Polygon(a.lcfsR[index], a.lcfsZ[index]));
    OpenIfClosedEffect(Polygon(a.limiterR, a.limiterZ));
  }

  /** The two readers pick different slices of the same time base: at 0.12 s
      on samples 0.0, 0.1, 0.2, 0.3 s the MAST rule reads the 0.2 s slice and
      the MAST-U rule the nearer 0.1 s slice. */
  lemma {:induction false} ReadersDisagree()
    ensures FindNearest([0.0, 0.1, 0.2, 0.3], 0.12) == Ok(2)
    ensures ArgMinDistance([0.0, 0.1, 0.2, 0.3], 0.12) == 1
  {
    FindNearestNotNearest();
    var a := [0.0, 0.1, 0.2, 0.3];
    var k := ArgMinDistance(a, 0.12);
    assert Dist(a[k], 0.12) <= Dist(a[1], 0.12);
  }
}
