/** Numeric building blocks the pitch executor borrows from kotlin.math and
    the Kotlin collections library, stated over mathematical reals.

    The transcendental functions `2.0.pow(x)` and `log2(x)` have no useful
    closed form over the reals, so they are passed around as a pair of
    function values; the laws of the real functions that the rest of the model
    relies on are separate predicates, so that each member requires only the
    ones it uses.  Rounding and averaging are defined outright. */
module Numerics {

  /** Absent-or-present value; `None` stands where `average()` gives NaN. */
  datatype Option<+T> = None | Some(value: T)

  /** `2.0.pow(x)` and `log2(x)` of kotlin.math, as values. */
  datatype Transcendentals = Transcendentals(pow2: real -> real, log2: real -> real)

  /** 2^x is positive. */
  ghost predicate PowPositive(t: Transcendentals) {
    forall x :: t.pow2(x) > 0.0
  }

  /** 2^x is strictly increasing. */
  ghost predicate PowIncreasing(t: Transcendentals) {
    forall x, y :: x < y ==> t.pow2(x) < t.pow2(y)
  }

  /** log2 undoes 2^x. */
  ghost predicate LogInvertsPow(t: Transcendentals) {
    forall x :: t.log2(t.pow2(x)) == x
  }

  /** `roundToInt()`: the nearest integer, ties going toward +infinity. */
  function RoundToInt(x: real): (k: int)
    ensures x - 0.5 < k as real <= x + 0.5
  {
    (x + 0.5).Floor
  }

  /** An integral argument is returned unchanged. */
  lemma RoundToIntOfWhole(k: int)
    ensures RoundToInt(k as real) == k
  {
  }

  /** Running total, accumulated front to back as `average()` does. */
  function Sum(xs: seq<real>): real
  {
    if |xs| == 0 then 0.0 else Sum(xs[..|xs| - 1]) + xs[|xs| - 1]
  }

  /** `average()` of a list: the arithmetic mean, or `None` for an empty
      list, where the library returns NaN. */
  function Mean(xs: seq<real>): (m: Option<real>)
    ensures m.None? <==> |xs| == 0
  {
    if |xs| == 0 then None else Some(Sum(xs) / (|xs| as real))
  }

  /** If every entry lies in [lo, hi), the total lies between |xs| * lo and
      |xs| * hi, the upper bound being strict for a non-empty list. */
  lemma {:induction false} SumBounds(xs: seq<real>, lo: real, hi: real)
    requires forall j :: 0 <= j < |xs| ==> lo <= xs[j] < hi
    ensures (|xs| as real) * lo <= Sum(xs)
    ensures |xs| > 0 ==> Sum(xs) < (|xs| as real) * hi
  {
    if |xs| > 0 {
      var init := xs[..|xs| - 1];
      assert forall j :: 0 <= j < |init| ==> init[j] == xs[j];
      SumBounds(init, lo, hi);
      if |init| == 0 {
        assert Sum(init) == 0.0;
      }
    }
  }

  /** The mean of a non-empty list whose entries lie in [lo, hi) lies in [lo, hi). */
  lemma MeanWithinBounds(xs: seq<real>, lo: real, hi: real)
    requires |xs| > 0
    requires forall j :: 0 <= j < |xs| ==> lo <= xs[j] < hi
    ensures lo <= Mean(xs).value < hi
  {
    SumBounds(xs, lo, hi);
    var n := |xs| as real;
    var m := Sum(xs) / n;
    assert m * n == Sum(xs);
    if m < lo {
      assert m * n < lo * n;
    }
    if m >= hi {
      assert m * n >= hi * n;
    }
  }
}
