/** Moving-statistics arithmetic over real numbers: the sum, the arithmetic
    mean (numpy's `mean`) and the extremes of a window. The population
    standard deviation (numpy's `std`, a square root) is not computed: it
    enters the model as a function, constrained where needed by IsStdDev to
    what every standard deviation satisfies. */
module Stats {

  function Sum(s: seq<real>): real
  {
    if s == [] then 0.0 else s[0] + Sum(s[1..])
  }

  /** Arithmetic mean of a non-empty window. */
  function Mean(s: seq<real>): real
    requires s != []
  {
    Sum(s) / (|s| as real)
  }

  /** Smallest element of a non-empty window. */
  function Min(s: seq<real>): (m: real)
    requires s != []
    ensures m in s
    ensures forall i :: 0 <= i < |s| ==> m <= s[i]
  {
    if |s| == 1 then s[0]
    else
      var rest := Min(s[1..]);
      if s[0] <= rest then s[0] else rest
  }

  /** Largest element of a non-empty window. */
  function Max(s: seq<real>): (m: real)
    requires s != []
    ensures m in s
    ensures forall i :: 0 <= i < |s| ==> s[i] <= m
  {
    if |s| == 1 then s[0]
    else
      var rest := Max(s[1..]);
      if s[0] >= rest then s[0] else rest
  }

  /** Every element of the window equals every other one. */
  predicate IsConstant(s: seq<real>)
  {
    forall i, j :: 0 <= i < |s| && 0 <= j < |s| ==> s[i] == s[j]
  }

  /** What every population standard deviation satisfies: it is never
      negative, and it is zero exactly when every element of a non-empty
      window is the same. */
  ghost predicate IsStdDev(f: seq<real> -> real)
  {
    forall s :: f(s) >= 0.0 && (s != [] ==> (f(s) == 0.0 <==> IsConstant(s)))
  }

  /** The sum of a window whose elements lie in [lo, hi] lies in [n*lo, n*hi]. */
  lemma {:induction false} SumBetween(s: seq<real>, lo: real, hi: real)
    requires forall i :: 0 <= i < |s| ==> lo <= s[i] <= hi
    ensures (|s| as real) * lo <= Sum(s) <= (|s| as real) * hi
  {
    if s != [] {
      SumBetween(s[1..], lo, hi);
      assert (|s| as real) * lo == lo + (|s[1..]| as real) * lo;
      assert (|s| as real) * hi == hi + (|s[1..]| as real) * hi;
    }
  }

  /** The mean of a window whose elements lie in [lo, hi] lies in [lo, hi]. */
  lemma MeanBetween(s: seq<real>, lo: real, hi: real)
    requires s != []
    requires forall i :: 0 <= i < |s| ==> lo <= s[i] <= hi
    ensures lo <= Mean(s) <= hi
  {
    SumBetween(s, lo, hi);
    var n := |s| as real;
    assert Mean(s) * n == Sum(s);
  }

  /** The mean of a window lies between its smallest and largest element. */
  lemma MeanWithinExtremes(s: seq<real>)
    requires s != []
    ensures Min(s) <= Mean(s) <= Max(s)
  {
    MeanBetween(s, Min(s), Max(s));
  }

  /** The mean of a constant window is that constant. */
  lemma MeanOfConstant(s: seq<real>)
    requires s != [] && IsConstant(s)
    ensures Mean(s) == s[0]
  {
    MeanBetween(s, s[0], s[0]);
  }
}
