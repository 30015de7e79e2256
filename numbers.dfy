/** Real-number helpers: Python's two-argument `min`, sums and means over
    sequences, and `round(x, 2)` on exact values. */
module Numbers {

  type NonNegReal = r: real | 0.0 <= r

  /** Python `min(a, b)`. */
  function Min(a: real, b: real): (m: real)
    ensures m <= a && m <= b && (m == a || m == b)
  {
    if b < a then b else a
  }

  /** Sum of a sequence of reals, added left to right. */
  function Sum(xs: seq<real>): real {
    if xs == [] then 0.0 else Sum(xs[..|xs| - 1]) + xs[|xs| - 1]
  }

  /** A sum of terms in [lo, hi] lies between n * lo and n * hi. */
  lemma {:induction false} SumBounds(xs: seq<real>, lo: real, hi: real)
    requires forall i :: 0 <= i < |xs| ==> lo <= xs[i] <= hi
    ensures |xs| as real * lo <= Sum(xs) <= |xs| as real * hi
  {
    if xs != [] {
      SumBounds(xs[..|xs| - 1], lo, hi);
    }
  }

  /** Arithmetic mean; 0 for an empty sequence. */
  function Mean(xs: seq<real>): real {
    if xs == [] then 0.0 else Sum(xs) / |xs| as real
  }

  /** The mean of terms in [lo, hi] lies in [lo, hi]. */
  lemma MeanBounds(xs: seq<real>, lo: real, hi: real)
    requires xs != []
    requires forall i :: 0 <= i < |xs| ==> lo <= xs[i] <= hi
    ensures lo <= Mean(xs) <= hi
  {
    var n := |xs| as real;
    SumBounds(xs, lo, hi);
    MulDivCancel(n, lo);
    MulDivCancel(n, hi);
    DivMonotone(n * lo, Sum(xs), n);
    DivMonotone(Sum(xs), n * hi, n);
  }

  /** Multiplying by a non-zero `n` and dividing by it again is the identity. */
  lemma MulDivCancel(n: real, w: real)
    requires n != 0.0
    ensures n * w / n == w
    ensures n / n == 1.0
  {
    var q := n * w / n;
    assert q * n == n * w;
    assert (q - w) * n == 0.0;
  }

  lemma DivMonotone(a: real, b: real, n: real)
    requires a <= b && n > 0.0
    ensures a / n <= b / n
  {
  }

  /** The integer nearest to `y`; at an exact tie, the even neighbour. */
  function RoundHalfEven(y: real): (n: int)
    ensures y - 0.5 <= n as real <= y + 0.5
    ensures (n as real - y == 0.5 || y - n as real == 0.5) ==> n % 2 == 0
  {
    var f := y.Floor;
    var d := y - f as real;
    if d < 0.5 then f
    else if d > 0.5 then f + 1
    else if f % 2 == 0 then f
    else f + 1
  }

  /** Python `round(x, 2)` applied to the exact value `x`. */
  function RoundCents(x: real): (r: real)
    ensures x - 0.005 <= r <= x + 0.005
  {
    RoundHalfEven(x * 100.0) as real / 100.0
  }

  /** Rounding never reverses the order of two values. */
  lemma RoundHalfEvenMonotone(a: real, b: real)
    requires a <= b
    ensures RoundHalfEven(a) <= RoundHalfEven(b)
  {
  }

  /** A whole number is its own rounding. */
  lemma RoundHalfEvenWhole(n: int)
    ensures RoundHalfEven(n as real) == n
  {
  }

  /** Rounding to cents keeps a value inside whole-number bounds. */
  lemma RoundCentsWithin(x: real, lo: int, hi: int)
    requires lo as real <= x <= hi as real
    ensures lo as real <= RoundCents(x) <= hi as real
  {
    RoundHalfEvenMonotone((lo * 100) as real, x * 100.0);
    RoundHalfEvenMonotone(x * 100.0, (hi * 100) as real);
    RoundHalfEvenWhole(lo * 100);
    RoundHalfEvenWhole(hi * 100);
  }

  /** Zero rounds to zero. */
  lemma RoundCentsZero()
    ensures RoundCents(0.0) == 0.0
  {
    RoundHalfEvenWhole(0);
  }

  /** Rounding a non-negative value to cents gives a non-negative value. */
  lemma RoundCentsNonNegative(x: real)
    requires 0.0 <= x
    ensures 0.0 <= RoundCents(x)
  {
    RoundHalfEvenMonotone(0.0, x * 100.0);
    RoundHalfEvenWhole(0);
  }
}
