/** Boundary polygons of an equilibrium time-slice: the EFIT polygon
    sanitiser `_process_efit_lcfs_polygon` of the MAST reader and the "open
    the polygon if closed" step of the MAST-U reader
    (cherab/mastu/equilibrium/equilibrium.py). Coordinates are exact reals. */
module BoundaryPolygon {
  import opened Outcomes

  datatype Point2 = Point2(r: real, z: real)

  /** A polygon as the readers hand it over: a 2 x N array whose row 0 holds
      the radial and row 1 the vertical coordinates. */
  datatype Polygon = Polygon(rs: seq<real>, zs: seq<real>) {
    predicate WellFormed() {
      |rs| == |zs|
    }

    function Points(): seq<Point2>
      requires WellFormed()
    {
      ZipPoints(rs, zs)
    }
  }

  datatype PolygonError =
    | InconsistentLengths   // sanitiser, different coordinate counts: ValueError
    | TooFewPoints          // sanitiser, fewer than 2 points: ValueError
    | StackShapeMismatch    // `np.stack` of rows of different lengths: ValueError
    | NoColumns             // `polygon[:, 0]` of a polygon without vertices: IndexError
  {
    function Exception(): PyException {
      if NoColumns? then IndexError else ValueError
    }
  }

  /** `zip(rs, zs)` as points; stops at the shorter list. */
  function ZipPoints(rs: seq<real>, zs: seq<real>): (ps: seq<Point2>)
    ensures |ps| == (if |rs| <= |zs| then |rs| else |zs|)
    ensures forall k :: 0 <= k < |ps| ==> ps[k] == Point2(rs[k], zs[k])
  {
    var n := if |rs| <= |zs| then |rs| else |zs|;
    seq(n, k requires 0 <= k < n => Point2(rs[k], zs[k]))
  }

  /** The 2 x N polygon whose columns are the given points. */
  function PolygonOf(ps: seq<Point2>): (p: Polygon)
    ensures p.WellFormed() && p.Points() == ps
  {
    var p := Polygon(seq(|ps|, k requires 0 <= k < |ps| => ps[k].r),
                     seq(|ps|, k requires 0 <= k < |ps| => ps[k].z));
    assert p.Points() == ps;
    p
  }

  // ---------------------------------------------------------------------------
  // The EFIT sanitiser
  // ---------------------------------------------------------------------------

  /** `unique = (poly_r != poly_r[0]) | (poly_z != poly_z[0]); unique[0] = True`. */
  function UniqueMask(rs: seq<real>, zs: seq<real>): (m: seq<bool>)
    requires |rs| == |zs| && |rs| >= 1
    ensures |m| == |rs| && m[0]
    ensures forall k :: 1 <= k < |m| ==> m[k] == (Point2(rs[k], zs[k]) != Point2(rs[0], zs[0]))
  {
    seq(|rs|, k requires 0 <= k < |rs| => k == 0 || rs[k] != rs[0] || zs[k] != zs[0])
  }

  /** numpy boolean indexing `xs[mask]`: the entries whose mask is set, in order. */
  function Compress(xs: seq<real>, mask: seq<bool>): (r: seq<real>)
    requires |xs| == |mask|
    decreases |xs|
  {
    if xs == [] then []
    else (if mask[0] then [xs[0]] else []) + Compress(xs[1..], mask[1..])
  }

  /** The points other than `p`, in order. */
  function DropRepeatsOf(p: Point2, ps: seq<Point2>): (r: seq<Point2>)
    ensures |r| <= |ps|
    ensures p !in r
  {
    if ps == [] then []
    else (if ps[0] == p then [] else [ps[0]]) + DropRepeatsOf(p, ps[1..])
  }

  /** What the sanitiser keeps: the first point, then every later point that
      differs from it in r or z. */
  function Sanitised(ps: seq<Point2>): seq<Point2>
    requires |ps| >= 1
  {
    [ps[0]] + DropRepeatsOf(ps[0], ps[1..])
  }

  /** `_process_efit_lcfs_polygon` as a value: its two checks, then the
      filtered points. */
  function SanitisePolygon(rs: seq<real>, zs: seq<real>): (r: Result<seq<Point2>, PolygonError>)
    ensures r.Err? <==> |rs| != |zs| || |rs| < 2
    ensures r.Err? ==> r.error == (if |rs| != |zs| then InconsistentLengths else TooFewPoints)
    ensures r.Ok? ==> 1 <= |r.value| <= |rs| && r.value[0] == Point2(rs[0], zs[0])
  {
    if |rs| != |zs| then Err(InconsistentLengths)
    else if |rs| < 2 then Err(TooFewPoints)
    else Ok(Sanitised(ZipPoints(rs, zs)))
  }

  /** Masking both coordinate arrays with the mask of "differs from `p`" and
      pairing them up drops exactly the repeats of `p`. */
  lemma {:induction false} CompressDropsRepeats(xs: seq<real>, ys: seq<real>, m: seq<bool>, p: Point2)
    requires |xs| == |ys| == |m|
    requires forall k :: 0 <= k < |m| ==> m[k] == (Point2(xs[k], ys[k]) != p)
    ensures |Compress(xs, m)| == |Compress(ys, m)|
    ensures ZipPoints(Compress(xs, m), Compress(ys, m)) == DropRepeatsOf(p, ZipPoints(xs, ys))
    decreases |xs|
  {
    if xs != [] {
      CompressDropsRepeats(xs[1..], ys[1..], m[1..], p);
      assert ZipPoints(xs, ys)[1..] == ZipPoints(xs[1..], ys[1..]);
      var cx, cy := Compress(xs[1..], m[1..]), Compress(ys[1..], m[1..]);
      if m[0] {
        assert ZipPoints([xs[0]] + cx, [ys[0]] + cy) == [Point2(xs[0], ys[0])] + ZipPoints(cx, cy);
      } else {
        assert [] + cx == cx && [] + cy == cy;
      }
    }
  }

  /** The mask-and-compress of the source computes `Sanitised`. */
  lemma {:induction false} CompressIsSanitised(rs: seq<real>, zs: seq<real>)
    requires |rs| == |zs| && |rs| >= 1
    ensures var m := UniqueMask(rs, zs);
            |Compress(rs, m)| == |Compress(zs, m)| &&
            ZipPoints(Compress(rs, m), Compress(zs, m)) == Sanitised(ZipPoints(rs, zs))
  {
    var m := UniqueMask(rs, zs);
    var p := Point2(rs[0], zs[0]);
    CompressDropsRepeats(rs[1..], zs[1..], m[1..], p);
    assert ZipPoints(rs, zs)[1..] == ZipPoints(rs[1..], zs[1..]);
    var cx, cy := Compress(rs[1..], m[1..]), Compress(zs[1..], m[1..]);
    assert ZipPoints([rs[0]] + cx, [zs[0]] + cy) == [p] + ZipPoints(cx, cy);
  }

  /** `_process_efit_lcfs_polygon(poly_r, poly_z)`: the two checks, the mask,
      then `poly_coords = np.zeros((len(poly_r), 2))` filled column by column. */
  method ProcessEfitLcfsPolygon(polyR: seq<real>, polyZ: seq<real>)
    returns (res: Result<array2<real>, PolygonError>)
    ensures res.Err? <==> SanitisePolygon(polyR, polyZ).Err?
    ensures res.Err? ==> res.error == SanitisePolygon(polyR, polyZ).error
    ensures res.Ok? ==>
              var ps := SanitisePolygon(polyR, polyZ).value;
              res.value.Length0 == |ps| && res.value.Length1 == 2 &&
              forall k :: 0 <= k < |ps| ==> res.value[k, 0] == ps[k].r && res.value[k, 1] == ps[k].z
  {
    if |polyR| != |polyZ| {
      return Err(InconsistentLengths);
    }
    var n := |polyR|;
    if n < 2 {
      return Err(TooFewPoints);
    }
    var unique := UniqueMask(polyR, polyZ);
    var r := Compress(polyR, unique);
    var z := Compress(polyZ, unique);
    CompressIsSanitised(polyR, polyZ);
    var coords := new real[|r|, 2];
    for k := 0 to |r|
      invariant forall j :: 0 <= j < k ==> coords[j, 0] == r[j]
    {
      coords[k, 0] := r[k];
    }
    for k := 0 to |z|
      invariant forall j :: 0 <= j < |r| ==> coords[j, 0] == r[j]
      invariant forall j :: 0 <= j < k ==> coords[j, 1] == z[j]
    {
      coords[k, 1] := z[k];
    }
    return Ok(coords);
  }

  /** `np.ascontiguousarray(coords.T)`: the 2 x N copy of an N x 2 array. */
  function Transposed(m: array2<real>): (p: Polygon)
    reads m
    requires m.Length1 == 2
    ensures p.WellFormed() && |p.rs| == m.Length0
    ensures forall k :: 0 <= k < m.Length0 ==> p.rs[k] == m[k, 0] && p.zs[k] == m[k, 1]
  {
    Polygon(seq(m.Length0, k requires 0 <= k < m.Length0 reads m => m[k, 0]),
            seq(m.Length0, k requires 0 <= k < m.Length0 reads m => m[k, 1]))
  }

  /** Transposing the filled N x 2 array gives the 2 x N polygon of the
      points it was filled with. */
  lemma {:induction false} TransposedFill(m: array2<real>, ps: seq<Point2>)
    requires m.Length0 == |ps| && m.Length1 == 2
    requires forall k :: 0 <= k < |ps| ==> m[k, 0] == ps[k].r && m[k, 1] == ps[k].z
    ensures Transposed(m) == PolygonOf(ps)
  {
    var t, p := Transposed(m), PolygonOf(ps);
    assert t.rs == p.rs;
    assert t.zs == p.zs;
  }

  /** Greedy subsequence test: `xs` is `ys` with some elements left out. */
  predicate IsSubsequence(xs: seq<Point2>, ys: seq<Point2>)
    decreases |ys|
  {
    xs == [] ||
    (ys != [] && (if xs[0] == ys[0] then IsSubsequence(xs[1..], ys[1..])
                  else IsSubsequence(xs, ys[1..])))
  }

  /** Dropping `p` removes every copy of it and keeps every other point as
      often as it occurs. */
  lemma {:induction false} DropRepeatsCount(p: Point2, ps: seq<Point2>)
    ensures multiset(DropRepeatsOf(p, ps)) == multiset(ps)[p := 0]
    decreases |ps|
  {
    if ps != [] {
      DropRepeatsCount(p, ps[1..]);
      assert ps == [ps[0]] + ps[1..];
      assert multiset(ps) == multiset([ps[0]]) + multiset(ps[1..]);
    }
  }

  /** Dropping `p` keeps the other points in order. */
  lemma {:induction false} DropRepeatsInOrder(p: Point2, ps: seq<Point2>)
    ensures IsSubsequence(DropRepeatsOf(p, ps), ps)
    decreases |ps|
  {
    if ps != [] {
      DropRepeatsInOrder(p, ps[1..]);
      var rest := DropRepeatsOf(p, ps[1..]);
      if ps[0] != p {
        assert DropRepeatsOf(p, ps) == [ps[0]] + rest;
        assert ([ps[0]] + rest)[1..] == rest;
      } else {
        assert DropRepeatsOf(p, ps) == rest;
        if rest != [] {
          assert rest[0] in rest;
          assert rest[0] != ps[0];
        }
      }
    }
  }

  /** What the sanitiser keeps, exactly: the first point once, at the front,
      then every point that differs from it, each as often as in the input and
      in input order (interior repeats survive); so the length is between 1
      and the input length. */
  lemma {:induction false} SanitisedShape(ps: seq<Point2>)
    requires |ps| >= 1
    ensures var out := Sanitised(ps);
            1 <= |out| <= |ps| && out[0] == ps[0] &&
            (forall k :: 1 <= k < |out| ==> out[k] != ps[0]) &&
            multiset(out) == multiset(ps)[ps[0] := 1] &&
            IsSubsequence(out, ps)
  {
    var rest := DropRepeatsOf(ps[0], ps[1..]);
    DropRepeatsCount(ps[0], ps[1..]);
    DropRepeatsInOrder(ps[0], ps[1..]);
    assert ps == [ps[0]] + ps[1..];
    assert multiset(ps) == multiset([ps[0]]) + multiset(ps[1..]);
    var out := Sanitised(ps);
    assert out[1..] == rest;
    forall k | 1 <= k < |out|
      ensures out[k] != ps[0]
    {
      assert out[k] == rest[k - 1];
    }
  }

  lemma {:induction false} DropRepeatsOfAbsent(p: Point2, ps: seq<Point2>)
    requires p !in ps
    ensures DropRepeatsOf(p, ps) == ps
    decreases |ps|
  {
    if ps != [] {
      assert ps[1..] == ps[1..];
      assert forall x :: x in ps[1..] ==> x in ps;
      DropRepeatsOfAbsent(p, ps[1..]);
    }
  }

  lemma {:induction false} DropRepeatsOfAppend(p: Point2, xs: seq<Point2>, ys: seq<Point2>)
    ensures DropRepeatsOf(p, xs + ys) == DropRepeatsOf(p, xs) + DropRepeatsOf(p, ys)
    decreases |xs|
  {
    if xs == [] {
      assert xs + ys == ys;
    } else {
      assert (xs + ys)[1..] == xs[1..] + ys;
      DropRepeatsOfAppend(p, xs[1..], ys);
    }
  }

  /** A closed ring whose starting point occurs nowhere but at its two ends
      loses exactly its closing point. */
  lemma {:induction false} SanitiseClosedRing(ps: seq<Point2>)
    requires |ps| >= 2 && ps[0] == ps[|ps| - 1]
    requires ps[0] !in ps[1..|ps| - 1]
    ensures Sanitised(ps) == ps[..|ps| - 1]
  {
    var p := ps[0];
    var mid := ps[1..|ps| - 1];
    assert DropRepeatsOf(p, ps[1..]) == mid by {
      assert ps[1..] == mid + [p];
      DropRepeatsOfAppend(p, mid, [p]);
      DropRepeatsOfAbsent(p, mid);
      assert DropRepeatsOf(p, [p]) == [];
    }
    assert Sanitised(ps) == [p] + mid;
    assert ps[..|ps| - 1] == [p] + mid;
  }

  /** Sanitising the sanitiser's output again changes nothing, except that an
      output reduced to its first point is now rejected as too short. */
  lemma {:induction false} SanitiseIdempotent(rs: seq<real>, zs: seq<real>)
    requires SanitisePolygon(rs, zs).Ok?
    ensures var out := SanitisePolygon(rs, zs).value;
            var again := PolygonOf(out);
            SanitisePolygon(again.rs, again.zs) ==
              (if |out| >= 2 then Ok(out) else Err(TooFewPoints))
  {
    var out := SanitisePolygon(rs, zs).value;
    var again := PolygonOf(out);
    assert ZipPoints(again.rs, again.zs) == out;
    if |out| >= 2 {
      SanitisedShape(ZipPoints(rs, zs));
      var p := out[0];
      assert p !in out[1..] by {
        forall k | 0 <= k < |out[1..]|
          ensures out[1..][k] != p
        {
          assert out[1..][k] == out[k + 1];
        }
      }
      DropRepeatsOfAbsent(p, out[1..]);
      assert Sanitised(out) == out;
    }
  }

  /** The closed square (0,0) (1,0) (1,1) (0,1) (0,0) sanitises to the open
      square. */
  lemma {:induction false} SanitiseSquareExample()
    ensures SanitisePolygon([0.0, 1.0, 1.0, 0.0, 0.0], [0.0, 0.0, 1.0, 1.0, 0.0]) ==
            Ok([Point2(0.0, 0.0), Point2(1.0, 0.0), Point2(1.0, 1.0), Point2(0.0, 1.0)])
  {
    var ps := ZipPoints([0.0, 1.0, 1.0, 0.0, 0.0], [0.0, 0.0, 1.0, 1.0, 0.0]);
    assert ps == [Point2(0.0, 0.0), Point2(1.0, 0.0), Point2(1.0, 1.0), Point2(0.0, 1.0), Point2(0.0, 0.0)];
    assert ps[1..4] == [Point2(1.0, 0.0), Point2(1.0, 1.0), Point2(0.0, 1.0)];
    SanitiseClosedRing(ps);
    assert ps[..4] == [Point2(0.0, 0.0), Point2(1.0, 0.0), Point2(1.0, 1.0), Point2(0.0, 1.0)];
  }

  // ---------------------------------------------------------------------------
  // The MAST-U polygon steps
  // ---------------------------------------------------------------------------

  /** `np.stack((r, z), axis=0)`: the rows must have the same length. */
  function Stack(rs: seq<real>, zs: seq<real>): (r: Result<Polygon, PolygonError>)
    ensures r.Ok? <==> |rs| == |zs|
    ensures r.Ok? ==> r.value.WellFormed()
  {
    if |rs| == |zs| then Ok(Polygon(rs, zs)) else Err(StackShapeMismatch)
  }

  /** `if np.all(p[:, 0] == p[:, -1]): p = p[:, :-1]`. */
  function OpenIfClosed(p: Polygon): (r: Result<Polygon, PolygonError>)
    requires p.WellFormed()
    ensures r.Ok? <==> |p.rs| > 0
    ensures r.Ok? ==> r.value.WellFormed()
  {
    if |p.rs| == 0 then Err(NoColumns)
    else
      var n := |p.rs|;
      if p.rs[0] == p.rs[n - 1] && p.zs[0] == p.zs[n - 1] then Ok(Polygon(p.rs[..n - 1], p.zs[..n - 1]))
      else Ok(p)
  }

  /** The opening step removes the last vertex when it repeats the first and
      leaves the polygon alone otherwise; it only ever removes that one
      vertex. */
  lemma {:induction false} OpenIfClosedEffect(p: Polygon)
    requires p.WellFormed() && |p.rs| > 0
    ensures var pts := p.Points();
            var out := OpenIfClosed(p).value.Points();
            (pts[0] == pts[|pts| - 1] ==> out == pts[..|pts| - 1]) &&
            (pts[0] != pts[|pts| - 1] ==> out == pts)
  {
  }

  /** Closing an open polygon (appending its first vertex) and opening it
      again gives back the polygon. */
  lemma {:induction false} CloseThenOpen(p: Polygon)
    requires p.WellFormed() && |p.rs| > 0
    ensures OpenIfClosed(Polygon(p.rs + [p.rs[0]], p.zs + [p.zs[0]])) == Ok(p)
  {
    var c := Polygon(p.rs + [p.rs[0]], p.zs + [p.zs[0]]);
    assert c.rs[..|c.rs| - 1] == p.rs && c.zs[..|c.zs| - 1] == p.zs;
  }

  /** The opening step removes one closing vertex only: a polygon whose
      closing vertex is doubled is still closed afterwards. */
  lemma {:induction false} OpenMayStayClosed()
    ensures OpenIfClosed(Polygon([0.0, 1.0, 0.0, 0.0], [0.0, 1.0, 0.0, 0.0])) ==
            Ok(Polygon([0.0, 1.0, 0.0], [0.0, 1.0, 0.0]))
  {
    var p := Polygon([0.0, 1.0, 0.0, 0.0], [0.0, 1.0, 0.0, 0.0]);
    assert p.rs[..3] == [0.0, 1.0, 0.0] && p.zs[..3] == [0.0, 1.0, 0.0];
  }

  /** On a closed ring whose start occurs only at its two ends, the MAST
      sanitiser and the MAST-U opening step produce the same polygon. */
  lemma {:induction false} SanitiseAgreesWithOpening(rs: seq<real>, zs: seq<real>)
    requires |rs| == |zs| && |rs| >= 2
    requires var ps := ZipPoints(rs, zs); ps[0] == ps[|ps| - 1] && ps[0] !in ps[1..|ps| - 1]
    ensures SanitisePolygon(rs, zs) == Ok(OpenIfClosed(Polygon(rs, zs)).value.Points())
  {
    var ps := ZipPoints(rs, zs);
    SanitiseClosedRing(ps);
    OpenIfClosedEffect(Polygon(rs, zs));
  }
}
