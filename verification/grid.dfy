/** `np.linspace(start, stop, num)` over the reals: numpy computes
    `arange(0, num) * step + start` with `step = (stop - start) / (num - 1)`
    and then overwrites the last element with `stop`. */
module Grid {

  /** The common difference of an `n`-point grid over [lo, hi]. */
  function Step(lo: real, hi: real, n: nat): real
    requires n >= 2
  {
    (hi - lo) / ((n - 1) as real)
  }

  function Linspace(lo: real, hi: real, n: nat): (xs: seq<real>)
    requires n >= 2
    ensures |xs| == n
    ensures xs[0] == lo && xs[n - 1] == hi
    ensures forall i :: 0 <= i < n - 1 ==> xs[i + 1] - xs[i] == Step(lo, hi, n)
  {
    var step := Step(lo, hi, n);
    var xs := seq(n, i requires 0 <= i < n => if i == n - 1 then hi else lo + (i as real) * step);
    assert ((n - 1) as real) * step == hi - lo;
    xs
  }

  /** Every grid point, the overwritten last one included, lies on the line
      `lo + k * step`. */
  lemma GridPoint(lo: real, hi: real, n: nat, k: nat)
    requires n >= 2 && k < n
    ensures Linspace(lo, hi, n)[k] == lo + (k as real) * Step(lo, hi, n)
  {
  }

  /** Over a non-empty range the grid is strictly ascending. */
  lemma Ascending(lo: real, hi: real, n: nat)
    requires n >= 2 && lo < hi
    ensures forall i, j :: 0 <= i < j < n ==> Linspace(lo, hi, n)[i] < Linspace(lo, hi, n)[j]
  {
    var xs := Linspace(lo, hi, n);
    var step := Step(lo, hi, n);
    assert step > 0.0;
    forall i, j | 0 <= i < j < n
      ensures xs[i] < xs[j]
    {
      GridPoint(lo, hi, n, i);
      GridPoint(lo, hi, n, j);
      assert xs[j] - xs[i] == ((j - i) as real) * step;
    }
  }

  /** Every grid point lies in the closed range [lo, hi]. */
  lemma WithinRange(lo: real, hi: real, n: nat)
    requires n >= 2 && lo < hi
    ensures forall i :: 0 <= i < n ==> lo <= Linspace(lo, hi, n)[i] <= hi
  {
    Ascending(lo, hi, n);
  }
}
