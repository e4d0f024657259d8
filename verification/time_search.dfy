/** Locating a requested time in an archived time base
    (cherab/mastu/equilibrium/equilibrium.py: `_find_nearest` of both reader
    classes, and the argmin rule of `MASTUEquilibrium.time`). Times are exact
    reals; only order, equality and squared differences are involved. */
module TimeSearch {
  import opened Outcomes

  /** Why a lookup by `_find_nearest` fails. */
  datatype SearchError =
    | EmptyArray          // `array.min()` of an empty array: numpy raises ValueError
    | ValueOutsideRange   // the explicit range check raises IndexError
    | IndexPastEnd        // `array[index + 1]` reads past the end: IndexError
  {
    function Exception(): PyException {
      if EmptyArray? then ValueError else IndexError
    }
  }

  predicate Ascending(a: seq<real>) {
    forall i, j :: 0 <= i < j < |a| ==> a[i] <= a[j]
  }

  function Dist(x: real, y: real): real {
    if x <= y then y - x else x - y
  }

  /** `array.min()`. */
  function Min(a: seq<real>): (m: real)
    requires |a| > 0
    ensures m in a
    ensures forall k :: 0 <= k < |a| ==> m <= a[k]
  {
    if |a| == 1 then a[0]
    else
      var m := Min(a[1..]);
      if a[0] <= m then a[0] else m
  }

  /** `array.max()`. */
  function Max(a: seq<real>): (m: real)
    requires |a| > 0
    ensures m in a
    ensures forall k :: 0 <= k < |a| ==> a[k] <= m
  {
    if |a| == 1 then a[0]
    else
      var m := Max(a[1..]);
      if a[0] >= m then a[0] else m
  }

  /** `np.searchsorted(a, v, side="left")`: the number of leading samples
      below `v`, which on an ascending array is the first index whose sample is
      at least `v` (`|a|` when there is none). */
  function InsertionPoint(a: seq<real>, v: real): (i: nat)
    ensures i <= |a|
    ensures forall k :: 0 <= k < i ==> a[k] < v
    ensures i < |a| ==> v <= a[i]
  {
    if a == [] || v <= a[0] then 0 else 1 + InsertionPoint(a[1..], v)
  }

  /** `x` lies strictly nearer to `v` than `y` does. The readers compare
      squared differences; `SquaresAsDistances` shows that this is the same
      test. */
  predicate Nearer(v: real, x: real, y: real) {
    Dist(x, v) < Dist(y, v)
  }

  /** The square the source compares distances with (`(value - x)**2`). */
  function Sq(t: real): real {
    t * t
  }

  lemma {:induction false} SqLess(d: real, e: real)
    requires 0.0 <= d < e
    ensures Sq(d) < Sq(e)
  {
    var p, q, r := d * d, d * e, e * e;
    assert p <= q;
    assert q < r;
  }

  lemma {:induction false} SqDist(v: real, x: real)
    ensures Sq(v - x) == Sq(Dist(x, v))
  {
    if x > v {
      var t := v - x;
      assert Sq(t) == Sq(-t);
    }
  }

  /** The source's comparison `(value - x)**2 < (value - y)**2` is
      `Nearer(v, x, y)`: squared differences order like distances. */
  lemma {:induction false} SquaresAsDistances(v: real, x: real, y: real)
    ensures Sq(v - x) < Sq(v - y) <==> Nearer(v, x, y)
  {
    SqDist(v, x);
    SqDist(v, y);
    var d, e := Dist(x, v), Dist(y, v);
    if d < e {
      SqLess(d, e);
    } else if e < d {
      SqLess(e, d);
    }
  }

  /** `_find_nearest(array, value)` as written: a range check, the leftmost
      insertion point, then a comparison of that sample with the NEXT one. */
  function FindNearest(a: seq<real>, v: real): (r: Result<nat, SearchError>)
    requires Ascending(a)
    ensures r.Ok? ==> r.value < |a| && v <= a[r.value]
  {
    if |a| == 0 then Err(EmptyArray)
    else if v < Min(a) || v > Max(a) then Err(ValueOutsideRange)
    else
      var i := InsertionPoint(a, v);
      if i + 1 >= |a| then Err(IndexPastEnd)
      else if Nearer(v, a[i], a[i + 1]) then Ok(i)
      else Ok(i + 1)
  }

  lemma {:induction false} AscendingMinMax(a: seq<real>)
    requires Ascending(a) && |a| > 0
    ensures Min(a) == a[0] && Max(a) == a[|a| - 1]
  {
  }

  /** The two failures of `_find_nearest` on an ascending, non-empty array:
      the range check rejects exactly the values below the first or above the
      last sample; an in-range value fails anyway exactly when it lies above
      the second-to-last sample (the maximum included), because the
      insertion point is then the last index and `array[index + 1]` does not
      exist. */
  lemma {:induction false} FindNearestErrors(a: seq<real>, v: real)
    requires Ascending(a) && |a| > 0
    ensures FindNearest(a, v) == Err(ValueOutsideRange) <==> v < a[0] || a[|a| - 1] < v
    ensures FindNearest(a, v) == Err(IndexPastEnd)
            <==> a[0] <= v <= a[|a| - 1] && (|a| == 1 || a[|a| - 2] < v)
    ensures FindNearest(a, v).Ok? <==> |a| >= 2 && a[0] <= v <= a[|a| - 2]
  {
    AscendingMinMax(a);
    var i := InsertionPoint(a, v);
    if a[0] <= v <= a[|a| - 1] {
      if |a| >= 2 && v <= a[|a| - 2] {
        assert i <= |a| - 2;
      } else {
        assert i == |a| - 1;
      }
    }
  }

  /** What `_find_nearest` returns: with `i` the first index whose sample is at
      least `v`, it returns `i` when the next sample is larger and `i + 1` when
      the next sample is equal. It never compares with the sample below `v`. */
  lemma {:induction false} FindNearestChoice(a: seq<real>, v: real)
    requires Ascending(a) && |a| >= 2 && a[0] <= v <= a[|a| - 2]
    ensures var i := InsertionPoint(a, v);
            i < |a| - 1 &&
            FindNearest(a, v) == Ok(if a[i] < a[i + 1] then i else i + 1)
  {
    var i := InsertionPoint(a, v);
    AscendingMinMax(a);
    assert i <= |a| - 2;
  }

  /** The sample `_find_nearest` picks is the ceiling of `v`: the least sample
      at or above `v`, whatever samples lie closer below it. */
  lemma {:induction false} FindNearestIsCeiling(a: seq<real>, v: real)
    requires Ascending(a)
    requires FindNearest(a, v).Ok?
    ensures var k := FindNearest(a, v).value;
            v <= a[k] &&
            (forall j :: 0 <= j < |a| && v <= a[j] ==> a[k] <= a[j]) &&
            InsertionPoint(a, v) <= k
  {
    FindNearestErrors(a, v);
    FindNearestChoice(a, v);
  }

  /** The sample times [0.0, 0.1, 0.2, 0.3]: 0.12 resolves to index 2 (0.2,
      not the nearer 0.1), and 0.24 and the maximum 0.3 fail although they
      pass the range check. */
  lemma {:induction false} FindNearestExamples()
    ensures FindNearest([0.0, 0.1, 0.2, 0.3], 0.12) == Ok(2)
    ensures FindNearest([0.0, 0.1, 0.2, 0.3], 0.24) == Err(IndexPastEnd)
    ensures FindNearest([0.0, 0.1, 0.2, 0.3], 0.3) == Err(IndexPastEnd)
    ensures FindNearest([0.0, 0.1, 0.2, 0.3], 0.1) == Ok(1)
  {
    var a := [0.0, 0.1, 0.2, 0.3];
    assert Ascending(a);
    assert FindNearest(a, 0.24) == Err(IndexPastEnd) by {
      FindNearestErrors(a, 0.24);
    }
    assert FindNearest(a, 0.3) == Err(IndexPastEnd) by {
      FindNearestErrors(a, 0.3);
    }
    assert FindNearest(a, 0.12) == Ok(2) by {
      FindNearestChoice(a, 0.12);
      assert InsertionPoint(a, 0.12) == 2;
    }
    assert FindNearest(a, 0.1) == Ok(1) by {
      FindNearestChoice(a, 0.1);
      assert InsertionPoint(a, 0.1) == 1;
    }
  }

  /** The nearest-sample rule `_find_nearest` is meant to implement: the same
      checks, but the insertion point is compared with the sample BEFORE it,
      and an equal distance goes to the later sample. */
  function FindNearestIntended(a: seq<real>, v: real): (r: Result<nat, SearchError>)
    requires Ascending(a)
    ensures r.Ok? ==> r.value < |a|
  {
    if |a| == 0 then Err(EmptyArray)
    else if v < Min(a) || v > Max(a) then Err(ValueOutsideRange)
    else
      var i := InsertionPoint(a, v);
      if i == 0 then Ok(0)
      else if Nearer(v, a[i - 1], a[i]) then Ok(i - 1)
      else Ok(i)
  }

  lemma {:induction false} FindNearestIntendedChoice(a: seq<real>, v: real)
    requires Ascending(a) && |a| > 0 && a[0] <= v <= a[|a| - 1]
    ensures var i := InsertionPoint(a, v);
            i < |a| &&
            FindNearestIntended(a, v) ==
              Ok(if i == 0 then 0 else if Dist(a[i - 1], v) < Dist(a[i], v) then i - 1 else i)
  {
    var i := InsertionPoint(a, v);
    AscendingMinMax(a);
    assert i < |a|;
  }

  /** A distance no larger than those of the two samples around `v` is no
      larger than that of any sample. */
  lemma {:induction false} NeighboursAreNearest(a: seq<real>, v: real, i: nat, d: real)
    requires Ascending(a) && i < |a|
    requires forall k :: 0 <= k < i ==> a[k] < v
    requires v <= a[i]
    requires d <= Dist(a[i], v) && (i > 0 ==> d <= Dist(a[i - 1], v))
    ensures forall j :: 0 <= j < |a| ==> d <= Dist(a[j], v)
  {
    forall j | 0 <= j < |a|
      ensures d <= Dist(a[j], v)
    {
      if j < i {
        assert a[j] <= a[i - 1] < v;
      } else {
        assert v <= a[i] <= a[j];
      }
    }
  }

  /** The corrected rule fails only outside the range. */
  lemma {:induction false} FindNearestIntendedErrors(a: seq<real>, v: real)
    requires Ascending(a) && |a| > 0
    ensures FindNearestIntended(a, v).Err? <==> v < a[0] || a[|a| - 1] < v
  {
    AscendingMinMax(a);
  }

  /** Within the range the corrected rule returns a sample at the least
      distance from `v`. */
  lemma {:induction false} FindNearestIntendedIsNearest(a: seq<real>, v: real)
    requires Ascending(a) && |a| > 0
    ensures FindNearestIntended(a, v).Err? <==> v < a[0] || a[|a| - 1] < v
    ensures FindNearestIntended(a, v).Ok? ==>
              var k := FindNearestIntended(a, v).value;
              forall j :: 0 <= j < |a| ==> Dist(a[k], v) <= Dist(a[j], v)
  {
    FindNearestIntendedErrors(a, v);
    if a[0] <= v <= a[|a| - 1] {
      FindNearestIntendedChoice(a, v);
      var i := InsertionPoint(a, v);
      var k := FindNearestIntended(a, v).value;
      if i == 0 {
        assert k == 0;
      } else if Dist(a[i - 1], v) < Dist(a[i], v) {
        assert k == i - 1;
      } else {
        assert k == i;
      }
      NeighboursAreNearest(a, v, i, Dist(a[k], v));
    }
  }

  /** `np.argmin(abs(a - t))`: the first index of a sample at the least
      distance from `t`. */
  function ArgMinDistance(a: seq<real>, t: real): (k: nat)
    requires |a| > 0
    ensures k < |a|
    ensures forall j :: 0 <= j < |a| ==> Dist(a[k], t) <= Dist(a[j], t)
    ensures forall j :: 0 <= j < k ==> Dist(a[k], t) < Dist(a[j], t)
    decreases |a|
  {
    if |a| == 1 then 0
    else
      var k := ArgMinDistance(a[..|a| - 1], t);
      if Dist(a[|a| - 1], t) < Dist(a[k], t) then |a| - 1 else k
  }

  /** The corrected `_find_nearest` and the argmin rule pick samples at the
      same distance; they differ only in how a tie is broken: [0.0, 1.0] at 0.5
      gives the later index under the first and the earlier under the second. */
  lemma {:induction false} NearestRulesAgree(a: seq<real>, v: real)
    requires Ascending(a) && |a| > 0 && a[0] <= v <= a[|a| - 1]
    ensures FindNearestIntended(a, v).Ok?
    ensures Dist(a[FindNearestIntended(a, v).value], v) == Dist(a[ArgMinDistance(a, v)], v)
  {
    FindNearestIntendedIsNearest(a, v);
  }

  lemma {:induction false} TieBreakExample()
    ensures FindNearestIntended([0.0, 1.0], 0.5) == Ok(1)
    ensures ArgMinDistance([0.0, 1.0], 0.5) == 0
  {
    assert InsertionPoint([0.0, 1.0], 0.5) == 1;
  }

  /** `_find_nearest` as written is not the nearest-sample rule: at 0.12 in
      [0.0, 0.1, 0.2, 0.3] it answers 0.2 where 0.1 is nearer. */
  lemma {:induction false} FindNearestNotNearest()
    ensures FindNearest([0.0, 0.1, 0.2, 0.3], 0.12) == Ok(2)
    ensures FindNearestIntended([0.0, 0.1, 0.2, 0.3], 0.12) == Ok(1)
    ensures Dist(0.1, 0.12) < Dist(0.2, 0.12)
  {
    FindNearestExamples();
    var a := [0.0, 0.1, 0.2, 0.3];
    assert Ascending(a);
    assert InsertionPoint(a, 0.12) == 2;
    FindNearestIntendedChoice(a, 0.12);
    assert Dist(0.1, 0.12) < Dist(0.2, 0.12);
  }
}
