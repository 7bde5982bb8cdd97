/** Arithmetic on doubles as the model uses it: exact reals, plus the quotient whose divisor may
    be zero, the order that places the infinities and leaves NaN out, and sums. */
module Floats {
  /** An IEEE double quotient: a division by zero gives an infinity or, for `0/0`, NaN. */
  datatype F64 = Finite(value: real) | PosInf | NegInf | NaN

  function Divide(a: real, b: real): (q: F64)
    ensures b != 0.0 ==> q == Finite(a / b)
    ensures b == 0.0 ==> (q == PosInf <==> a > 0.0) && (q == NegInf <==> a < 0.0) && (q == NaN <==> a == 0.0)
  {
    if b != 0.0 then Finite(a / b)
    else if a > 0.0 then PosInf else if a < 0.0 then NegInf else NaN
  }

  /** The order `partial_cmp` gives: infinities at the ends, and NaN unordered. */
  predicate Less(a: F64, b: F64) {
    match (a, b)
      case (NegInf, Finite(_)) => true
      case (NegInf, PosInf) => true
      case (Finite(x), Finite(y)) => x < y
      case (Finite(_), PosInf) => true
      case _ => false
  }

  /** Apart from NaN, `Less` is a strict total order; NaN is comparable with nothing. */
  lemma LessIsStrictTotalOrder(a: F64, b: F64, c: F64)
    ensures !Less(a, a)
    ensures a != NaN && b != NaN ==> Less(a, b) || a == b || Less(b, a)
    ensures Less(a, b) && Less(b, c) ==> Less(a, c)
    ensures Less(a, b) ==> !Less(b, a)
    ensures !Less(a, NaN) && !Less(NaN, a)
  {
  }

  /** The sum of the values, added from the left, as `sum()` and `reduce((a, b) => a + b, 0)`
      add them. */
  function Sum(values: seq<real>): real
    decreases |values|
  {
    if values == [] then 0.0 else Sum(values[..|values| - 1]) + values[|values| - 1]
  }

  lemma {:induction false} SumNonNegative(xs: seq<real>)
    requires forall i :: 0 <= i < |xs| ==> xs[i] >= 0.0
    ensures Sum(xs) >= 0.0
  {
    if xs != [] {
      SumNonNegative(xs[..|xs| - 1]);
    }
  }

  lemma {:induction false} SumConstant(xs: seq<real>, c: real)
    requires forall i :: 0 <= i < |xs| ==> xs[i] == c
    ensures Sum(xs) == |xs| as real * c
  {
    if xs != [] {
      SumConstant(xs[..|xs| - 1], c);
    }
  }

  /** Values between `lo` and `hi` sum to between `n * lo` and `n * hi`. */
  lemma {:induction false} SumBounds(values: seq<real>, lo: real, hi: real)
    requires forall v :: v in values ==> lo <= v <= hi
    ensures lo * (|values| as real) <= Sum(values) <= hi * (|values| as real)
  {
    if values != [] {
      var init := values[..|values| - 1];
      var last := values[|values| - 1];
      assert forall v :: v in init ==> v in values;
      SumBounds(init, lo, hi);
      assert last in values;
      var k := |init| as real;
      assert Sum(values) == Sum(init) + last;
      assert |values| as real == k + 1.0;
      assert lo * (k + 1.0) == lo * k + lo && hi * (k + 1.0) == hi * k + hi;
    }
  }

  lemma ProductNonNegative(a: real, b: real)
    requires a >= 0.0 && b >= 0.0
    ensures a * b >= 0.0
  {
  }

  lemma QuotientNonNegative(a: real, b: real)
    requires a >= 0.0 && b > 0.0
    ensures a / b >= 0.0
  {
  }

  lemma ScaleMonotone(n: real, a: real, b: real)
    requires n >= 0.0 && a <= b
    ensures n * a <= n * b
  {
  }

  /** A total of `n` values, each at most `bound`, has a mean between zero and `bound`. */
  lemma MeanAtMost(total: real, n: real, bound: real)
    requires n > 0.0 && 0.0 <= total <= n * bound
    ensures 0.0 <= total / n <= bound
  {
    var q := total / n;
    assert q * n == total;
    if q > bound {
      assert q * n > bound * n;
    }
  }
}
