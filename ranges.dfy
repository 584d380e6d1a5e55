/** The stepped range of make_range: Python's range() after a direction correction. */
module Ranges {
  import opened Errors

  /** Python's int() on a float: truncation toward zero. */
  function Trunc(x: real): (n: int)
    ensures x >= 0.0 ==> n as real <= x < n as real + 1.0
    ensures x < 0.0 ==> n as real - 1.0 < x <= n as real
  {
    if x >= 0.0 then x.Floor else -((-x).Floor)
  }

  /** The length CPython gives range(start, stop, step) for a non-zero step. */
  function RangeLength(start: int, stop: int, step: int): nat
    requires step != 0
  {
    if step > 0 && start < stop then (stop - start - 1) / step + 1
    else if step < 0 && stop < start then (start - stop - 1) / (-step) + 1
    else 0
  }

  /** Python's range(start, stop, step), materialised. */
  function PyRange(start: int, stop: int, step: int): (r: Result<seq<int>>)
    ensures r.Err? <==> step == 0
    ensures r.Err? ==> r.error == ZeroStep
    ensures r.Ok? ==> forall k :: 0 <= k < |r.value| ==> r.value[k] == start + k * step
  {
    if step == 0 then Err(ZeroStep)
    else Ok(seq(RangeLength(start, stop, step), k => start + k * step))
  }

  /** The k-th term of an upward progression with stride d is still below stop. */
  ghost predicate Below(start: int, stop: int, d: int, k: int) {
    start + k * d < stop
  }

  /** The k-th term of a downward progression with stride d is still above stop. */
  ghost predicate Above(start: int, stop: int, d: int, k: int) {
    start - k * d > stop
  }

  lemma MulMonotone(x: int, y: int, d: int)
    requires x <= y && d >= 0
    ensures x * d <= y * d
  {
    assert y * d - x * d == (y - x) * d;
  }

  /** For a positive divisor, k is at most a / d exactly when k * d is at most a. */
  lemma DivBound(a: int, d: int, k: int)
    requires d > 0
    ensures k <= a / d <==> k * d <= a
  {
    assert a == (a / d) * d + a % d;
    if k <= a / d {
      MulMonotone(k, a / d, d);
    } else {
      MulMonotone(a / d + 1, k, d);
      assert (a / d + 1) * d == (a / d) * d + d;
    }
  }

  /** With a positive step, range() holds exactly the terms start + k * step below stop. */
  lemma PyRangeUpExact(start: int, stop: int, step: int)
    requires step > 0
    ensures PyRange(start, stop, step).Ok?
    ensures forall k: nat :: k < |PyRange(start, stop, step).value| <==> Below(start, stop, step, k)
  {
    var n := |PyRange(start, stop, step).value|;
    forall k: nat ensures k < n <==> Below(start, stop, step, k) {
      MulMonotone(0, k, step);
      if start < stop {
        DivBound(stop - start - 1, step, k);
      }
    }
  }

  /** With a negative step -d, range() holds exactly the terms start - k * d above stop. */
  lemma PyRangeDownExact(start: int, stop: int, d: int)
    requires d > 0
    ensures PyRange(start, stop, -d).Ok?
    ensures forall k: nat :: k < |PyRange(start, stop, -d).value| <==> Above(start, stop, d, k)
  {
    var n := |PyRange(start, stop, -d).value|;
    forall k: nat ensures k < n <==> Above(start, stop, d, k) {
      MulMonotone(0, k, d);
      if stop < start {
        DivBound(start - stop - 1, d, k);
      }
    }
  }

  /** With a positive step range() increases strictly, with a negative one it decreases strictly. */
  lemma PyRangeMonotone(start: int, stop: int, step: int, i: int, j: int)
    requires step != 0
    requires 0 <= i < j < |PyRange(start, stop, step).value|
    ensures var r := PyRange(start, stop, step).value;
      (step > 0 ==> r[i] < r[j]) && (step < 0 ==> r[i] > r[j])
  {
    var r := PyRange(start, stop, step).value;
    assert r[j] - r[i] == (j - i) * step;
    if step > 0 {
      MulMonotone(1, j - i, step);
    } else {
      MulMonotone(1, j - i, -step);
      assert (j - i) * step == -((j - i) * (-step));
    }
  }

  /** make_range: a begin above end makes the step negative; only begin is truncated. */
  function MakeRange(begin: real, end: int, step: int): (r: Result<seq<int>>)
    ensures r.Err? <==> step == 0
    ensures r.Err? ==> r.error == ZeroStep
  {
    var s := if (end as real) < begin then -step else step;
    PyRange(Trunc(begin), end, s)
  }

  /** Going down: begin above end, positive step. */
  lemma MakeRangeDown(begin: real, end: int, step: int)
    requires step > 0 && (end as real) < begin
    ensures MakeRange(begin, end, step).Ok?
    ensures var r := MakeRange(begin, end, step).value;
      && (forall k :: 0 <= k < |r| ==> r[k] == Trunc(begin) - k * step && r[k] > end)
      && (forall k: nat :: k < |r| <==> Above(Trunc(begin), end, step, k))
      && (forall i, j :: 0 <= i < j < |r| ==> r[i] > r[j])
  {
    var t := Trunc(begin);
    assert MakeRange(begin, end, step) == PyRange(t, end, -step);
    var r := PyRange(t, end, -step).value;
    PyRangeDownExact(t, end, step);
    forall k | 0 <= k < |r| ensures r[k] == t - k * step && r[k] > end {
      assert r[k] == t + k * (-step);
      assert Above(t, end, step, k);
    }
    forall i, j | 0 <= i < j < |r| ensures r[i] > r[j] {
      PyRangeMonotone(t, end, -step, i, j);
    }
  }

  /** Going up: begin at or below end, positive step. */
  lemma MakeRangeUp(begin: real, end: int, step: int)
    requires step > 0 && begin <= end as real
    ensures MakeRange(begin, end, step).Ok?
    ensures var r := MakeRange(begin, end, step).value;
      && (forall k :: 0 <= k < |r| ==> r[k] == Trunc(begin) + k * step && r[k] < end)
      && (forall k: nat :: k < |r| <==> Below(Trunc(begin), end, step, k))
      && (forall i, j :: 0 <= i < j < |r| ==> r[i] < r[j])
  {
    var t := Trunc(begin);
    assert MakeRange(begin, end, step) == PyRange(t, end, step);
    var r := PyRange(t, end, step).value;
    PyRangeUpExact(t, end, step);
    forall k | 0 <= k < |r| ensures r[k] == t + k * step && r[k] < end {
      assert Below(t, end, step, k);
    }
    forall i, j | 0 <= i < j < |r| ensures r[i] < r[j] {
      PyRangeMonotone(t, end, step, i, j);
    }
  }

  /** Equal bounds give nothing to step through. */
  lemma MakeRangeEqualBounds(begin: real, end: int, step: int)
    requires step != 0 && begin == end as real
    ensures MakeRange(begin, end, step) == Ok([])
  {
    assert Trunc(begin) == end;
    assert RangeLength(end, end, step) == 0;
    assert MakeRange(begin, end, step).value == [];
  }

  /** A negative step never yields a sample: it either points away from end or is flipped to do so. */
  lemma MakeRangeNegativeStep(begin: real, end: int, step: int)
    requires step < 0
    ensures MakeRange(begin, end, step) == Ok([])
  {
    var t := Trunc(begin);
    if (end as real) < begin {
      assert end <= t;
      assert MakeRange(begin, end, step) == PyRange(t, end, -step);
      assert RangeLength(t, end, -step) == 0;
      assert MakeRange(begin, end, step).value == [];
    } else {
      assert t <= end;
      assert MakeRange(begin, end, step) == PyRange(t, end, step);
      assert RangeLength(t, end, step) == 0;
      assert MakeRange(begin, end, step).value == [];
    }
  }

  /** The worked examples: down by 2, up by 2, and the zoom from a vertical fov of 60 toward 30. */
  lemma MakeRangeExamples()
    ensures MakeRange(10.0, 0, 2) == Ok([10, 8, 6, 4, 2])
    ensures MakeRange(0.0, 10, 2) == Ok([0, 2, 4, 6, 8])
    ensures MakeRange(5.0, 5, 1) == Ok([])
    ensures MakeRange(60.0, 30, 3) == Ok([60, 57, 54, 51, 48, 45, 42, 39, 36, 33])
    ensures MakeRange(30.5, 30, 1) == Ok([])
  {
    assert MakeRange(10.0, 0, 2).value == [10, 8, 6, 4, 2];
    assert MakeRange(0.0, 10, 2).value == [0, 2, 4, 6, 8];
    assert MakeRange(5.0, 5, 1).value == [];
    assert MakeRange(60.0, 30, 3).value == [60, 57, 54, 51, 48, 45, 42, 39, 36, 33];
    assert Trunc(30.5) == 30;
    assert MakeRange(30.5, 30, 1).value == [];
  }
}
