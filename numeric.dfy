/** Integer rounding of reals and numpy's `arange`, taken as exact arithmetic. */
module Numeric {

  /** Largest integer not above x (Python's `//` and `np.floor` on exact reals). */
  function Floor(x: real): (n: int)
    ensures n as real <= x < n as real + 1.0
  {
    x.Floor
  }

  /** Least integer not below x (`np.ceil` on exact reals). */
  function Ceil(x: real): (n: int)
    ensures n as real - 1.0 < x <= n as real
  {
    -((-x).Floor)
  }

  lemma FloorMonotone(x: real, y: real)
    requires x <= y
    ensures Floor(x) <= Floor(y)
  {
  }

  lemma CeilOfInt(n: int)
    ensures Ceil(n as real) == n
  {
  }

  /** The ceiling of an integer plus a half is the next integer. */
  lemma CeilPlusHalf(n: int)
    ensures Ceil(n as real + 0.5) == n + 1
  {
  }

  /** How many times `range(n)` iterates: never for `n <= 0`. */
  function RangeLen(n: int): (len: nat)
    ensures n >= 0 ==> len == n
    ensures n < 0 ==> len == 0
  {
    if n > 0 then n else 0
  }

  /** The number of values numpy's `arange(start, stop, step)` yields:
      `max(0, ceil((stop - start) / step))`. */
  function ArangeLen(start: real, stop: real, step: real): (n: nat)
    requires step != 0.0
    ensures n as real >= (stop - start) / step
    ensures n > 0 ==> (n - 1) as real < (stop - start) / step
  {
    var q := (stop - start) / step;
    if q <= 0.0 then 0 else Ceil(q)
  }

  /** With a positive step, the k-th value `start + k * step` is one that
      `arange` yields exactly when it lies below `stop`. */
  lemma {:induction false} ArangeMembers(start: real, stop: real, step: real, k: nat)
    requires step > 0.0
    ensures k < ArangeLen(start, stop, step) <==> start + k as real * step < stop
  {
    var q := (stop - start) / step;
    assert stop - start == q * step;
    var n := ArangeLen(start, stop, step);
    if k < n {
      assert (k as real) <= (n - 1) as real < q;
      assert k as real * step < q * step;
    } else {
      assert k as real >= n as real >= q;
      assert k as real * step >= q * step;
    }
  }

  lemma MulLeft(a: real, b: real, c: real)
    requires a <= b && c >= 0.0
    ensures c * a <= c * b
  {
  }

  lemma MulStrictLeft(a: real, b: real, c: real)
    requires a < b && c > 0.0
    ensures c * a < c * b
  {
  }

  /** Cancelling a positive factor. */
  lemma CancelPositive(a: real, b: real, c: real)
    requires c > 0.0 && a * c <= b * c
    ensures a <= b
  {
    if a > b {
      MulStrictLeft(b, a, c);
    }
  }

  lemma SquareStrict(x: real, y: real)
    requires 0.0 <= x < y
    ensures x * x < y * y
  {
    calc {
      x * x;
    <= x * y;
    <  y * y;
    }
  }

  lemma SquareLe(x: real, y: real)
    requires 0.0 <= x <= y
    ensures x * x <= y * y
  {
    calc {
      x * x;
    <= x * y;
    <= y * y;
    }
  }
}
