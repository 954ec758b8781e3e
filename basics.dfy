/** Building blocks shared by the whole model: an optional value, sums of
    reals as `reduce((sum, v) => sum + v, 0)` computes them, and
    JavaScript's `Math.round`. */
module Basics {

  datatype Option<T> = None | Some(value: T) {
    /** The value, or `default` when there is none. */
    function GetOr(default: T): T {
      if Some? then value else default
    }
  }

  /** The sum of a sequence of reals, added up from the left. */
  function Sum(s: seq<real>): real {
    if s == [] then 0.0 else s[0] + Sum(s[1..])
  }

  lemma {:induction false} SumAppend(a: seq<real>, b: seq<real>)
    ensures Sum(a + b) == Sum(a) + Sum(b)
  {
    if a != [] {
      assert (a + b)[1..] == a[1..] + b;
      SumAppend(a[1..], b);
    } else {
      assert a + b == b;
    }
  }

  /** Every element in (0, 1] keeps the sum of a non-empty sequence in (0, |s|]. */
  lemma {:induction false} SumOfFractions(s: seq<real>)
    requires s != []
    requires forall i :: 0 <= i < |s| ==> 0.0 < s[i] <= 1.0
    ensures 0.0 < Sum(s) <= |s| as real
  {
    if |s| > 1 {
      SumOfFractions(s[1..]);
    }
  }

  /** The arithmetic mean of a non-empty sequence. */
  function Mean(s: seq<real>): real
    requires s != []
  {
    Sum(s) / |s| as real
  }

  lemma DivideAtMostDivisor(total: real, n: real)
    requires 0.0 < total <= n
    ensures 0.0 < total / n <= 1.0
  {
  }

  /** Values in (0, 1] have a mean in (0, 1]. */
  lemma MeanOfFractions(s: seq<real>)
    requires s != []
    requires forall i :: 0 <= i < |s| ==> 0.0 < s[i] <= 1.0
    ensures 0.0 < Mean(s) <= 1.0
  {
    SumOfFractions(s);
    DivideAtMostDivisor(Sum(s), |s| as real);
  }

  lemma {:induction false} SumConstant(s: seq<real>, c: real)
    requires forall i :: 0 <= i < |s| ==> s[i] == c
    ensures Sum(s) == |s| as real * c
  {
    if s != [] {
      SumConstant(s[1..], c);
    }
  }

  /** The mean of copies of one value is that value. */
  lemma MeanConstant(s: seq<real>, c: real)
    requires s != []
    requires forall i :: 0 <= i < |s| ==> s[i] == c
    ensures Mean(s) == c
  {
    SumConstant(s, c);
  }

  /** `Math.round`: the nearest integer, a half rounded up towards +infinity. */
  function Round(x: real): (n: int)
    ensures n as real - 0.5 <= x < n as real + 0.5
  {
    (x + 0.5).Floor
  }

  /** The nearest integer is unique: any integer within the half-open
      window around `x` is `Round(x)`. */
  lemma RoundUnique(x: real, n: int)
    requires n as real - 0.5 <= x < n as real + 0.5
    ensures Round(x) == n
  {
  }
}
