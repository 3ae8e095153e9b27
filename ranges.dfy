/**
 Python's integer `range(start, stop, step)` for a positive step, and
 `math.floor` / `math.ceil` of a real number, which return integers.
 */
module Ranges {

  /** The integers start, start + step, ... that are below `stop`, in order. */
  function Range(start: int, stop: int, step: int): seq<int>
    requires step > 0
    decreases stop - start
  {
    if start >= stop then [] else [start] + Range(start + step, stop, step)
  }

  /**
   The shape of a range: empty exactly when start >= stop, otherwise starting
   at `start`, going up by `step`, staying below `stop`, and ending within one
   step of it.
   */
  lemma {:induction false} RangeShape(start: int, stop: int, step: int)
    requires step > 0
    ensures var r := Range(start, stop, step);
            && (|r| == 0 <==> start >= stop)
            && (|r| > 0 ==> r[0] == start)
            && (forall k :: 0 < k < |r| ==> r[k] == r[k - 1] + step)
            && (forall k :: 0 <= k < |r| ==> r[k] < stop)
            && (|r| > 0 ==> r[|r| - 1] + step >= stop)
    decreases stop - start
  {
    if start < stop {
      RangeShape(start + step, stop, step);
      var r, tail := Range(start, stop, step), Range(start + step, stop, step);
      assert r == [start] + tail;
      forall k | 1 < k < |r|
        ensures r[k] == r[k - 1] + step
      {
        assert r[k] == tail[k - 1] && r[k - 1] == tail[k - 2];
      }
    }
  }

  /** A non-empty range is its start followed by the range from the next step. */
  lemma RangeUnfold(start: int, stop: int, step: int)
    requires step > 0 && start < stop
    ensures Range(start, stop, step) == [start] + Range(start + step, stop, step)
  {
  }

  /** The range is strictly increasing. */
  lemma {:induction false} RangeIncreasing(start: int, stop: int, step: int, i: int, j: int)
    requires step > 0
    requires 0 <= i < j < |Range(start, stop, step)|
    ensures Range(start, stop, step)[i] < Range(start, stop, step)[j]
    decreases j - i
  {
    RangeShape(start, stop, step);
    if j > i + 1 {
      RangeIncreasing(start, stop, step, i, j - 1);
    }
  }

  lemma {:induction false} MultipleAtLeastStep(d: int, step: int)
    requires step > 0 && d >= 1
    ensures d * step >= step
  {
    if d > 1 {
      MultipleAtLeastStep(d - 1, step);
      assert d * step == (d - 1) * step + step;
    }
  }

  /** Euclidean division leaves a unique remainder in [0, step). */
  lemma RemainderUnique(a: int, step: int, q: int, m: int)
    requires step > 0 && 0 <= m < step && a == q * step + m
    ensures a % step == m
  {
    var q', m' := a / step, a % step;
    assert a == q' * step + m';
    assert (q - q') * step == m' - m;
    if q - q' >= 1 { MultipleAtLeastStep(q - q', step); }
    if q' - q >= 1 { MultipleAtLeastStep(q' - q, step); }
  }

  lemma ShiftByStep(a: int, step: int)
    requires step > 0
    ensures (a + step) % step == a % step
  {
    var q, m := a / step, a % step;
    assert a + step == (q + 1) * step + m;
    RemainderUnique(a + step, step, q + 1, m);
  }

  /** A whole number of steps from `start` is either `start` itself or a whole number of steps from the next element. */
  lemma StepsFromStart(start: int, step: int, n: int)
    requires step > 0
    ensures (start <= n && (n - start) % step == 0)
        <==> (n == start || (start + step <= n && (n - (start + step)) % step == 0))
  {
    if n < start + step {
      if start <= n {
        RemainderUnique(n - start, step, 0, n - start);
      }
    } else {
      ShiftByStep(n - (start + step), step);
      assert n - start == (n - (start + step)) + step;
    }
  }

  /**
   Membership in the range: exactly the integers from `start` below `stop`
   that are a whole number of steps away from `start`.
   */
  lemma {:induction false} RangeMembership(start: int, stop: int, step: int, n: int)
    requires step > 0
    ensures n in Range(start, stop, step) <==> start <= n < stop && (n - start) % step == 0
    decreases stop - start
  {
    StepsFromStart(start, step, n);
    if start < stop {
      var tail := Range(start + step, stop, step);
      assert Range(start, stop, step) == [start] + tail;
      RangeMembership(start + step, stop, step, n);
    }
  }

  /** `math.floor`: the greatest integer not above `r`. */
  function Floor(r: real): (n: int)
    ensures n as real <= r < (n + 1) as real
  {
    r.Floor
  }

  /** `math.ceil`: the least integer not below `r`. */
  function Ceil(r: real): (n: int)
    ensures (n - 1) as real < r <= n as real
  {
    -((-r).Floor)
  }

  /** An integer is below floor(r) exactly when its successor is still at most r. */
  lemma BelowFloor(n: int, r: real)
    ensures n < Floor(r) <==> (n + 1) as real <= r
  {
  }

  /** An integer is below ceil(r) exactly when it is below r. */
  lemma BelowCeil(n: int, r: real)
    ensures n < Ceil(r) <==> n as real < r
  {
  }

  /** Both are the identity on integers. */
  lemma FloorCeilOfInteger(n: int)
    ensures Floor(n as real) == n && Ceil(n as real) == n
  {
  }
}
