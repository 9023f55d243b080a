/** Root-mean-square arithmetic shared by both acquisition engines.

    Samples are modelled as `real`. The square root the source takes from
    its math library is given a body here (a fixed-depth bisection). Its
    contract states that the result is non-negative and is zero exactly
    when the argument is zero; SqrtSquaresAbove proves from the bisection
    that the result squares to at least its argument. */
module Rms {

  /** Number of halvings in the bisection; a double has a 52-bit fraction. */
  const BisectionSteps: nat := 52

  function Abs(x: real): (r: real)
    ensures r >= 0.0 && (r == x || r == -x)
  {
    if x < 0.0 then -x else x
  }

  /** The state of a bisection: the bracket (lo, hi] and the halvings left. */
  datatype Bracket = Bracket(lo: real, hi: real, steps: nat)

  predicate Proper(b: Bracket)
  {
    0.0 <= b.lo < b.hi
  }

  /** Bisection on (lo, hi]: answers hi when no halvings are left. */
  function Bisect(x: real, b: Bracket): (r: real)
    requires Proper(b)
    ensures b.lo < r <= b.hi
    decreases b.steps, 1
  {
    if b.steps == 0 then b.hi else Halve(x, b)
  }

  /** One halving: keep the half of (lo, hi] whose lower end squares to at
      most x. */
  function Halve(x: real, b: Bracket): (r: real)
    requires Proper(b) && b.steps > 0
    ensures b.lo < r <= b.hi
    decreases b.steps, 0
  {
    var mid := (b.lo + b.hi) / 2.0;
    if mid * mid <= x then Bisect(x, Bracket(mid, b.hi, b.steps - 1))
    else Bisect(x, Bracket(b.lo, mid, b.steps - 1))
  }

  /** The bisection keeps x bracketed: if lo*lo <= x <= hi*hi, its answer r
      squares to at least x. */
  lemma {:induction false} BisectBrackets(x: real, b: Bracket, r: real)
    requires Proper(b) && b.lo * b.lo <= x <= b.hi * b.hi
    requires r == Bisect(x, b)
    ensures x <= r * r
    decreases b.steps
  {
    if b.steps > 0 {
      var mid := (b.lo + b.hi) / 2.0;
      assert r == Halve(x, b);
      if mid * mid <= x {
        BisectBrackets(x, Bracket(mid, b.hi, b.steps - 1), r);
      } else {
        BisectBrackets(x, Bracket(b.lo, mid, b.steps - 1), r);
      }
    }
  }

  /** The square root of a non-negative value: zero for zero, otherwise the
      bisection on (0, x + 1]. */
  function Sqrt(x: real): (r: real)
    requires x >= 0.0
    ensures r >= 0.0
    ensures r == 0.0 <==> x == 0.0
  {
    if x == 0.0 then 0.0 else Bisect(x, Bracket(0.0, x + 1.0, BisectionSteps))
  }

  /** The root of a non-negative value squares to at least that value. */
  lemma SqrtSquaresAbove(x: real, r: real)
    requires x >= 0.0 && r == Sqrt(x)
    ensures x <= r * r
  {
    if x > 0.0 {
      var b := Bracket(0.0, x + 1.0, BisectionSteps);
      SquareAbove(x);
      assert r == Bisect(x, b);
      BisectBrackets(x, b, r);
    }
  }

  lemma SquareAbove(x: real)
    requires x >= 0.0
    ensures x <= (x + 1.0) * (x + 1.0)
  {
    assert x * x >= 0.0;
    assert (x + 1.0) * (x + 1.0) == x * x + 2.0 * x + 1.0;
  }

  /** Sum of s[i]^2 over the half-open range [lo, hi). */
  function SumSquares(s: seq<real>, lo: int, hi: int): (r: real)
    requires 0 <= lo <= hi <= |s|
    ensures r >= 0.0
    decreases hi - lo
  {
    if lo == hi then 0.0 else SumSquares(s, lo, hi - 1) + s[hi - 1] * s[hi - 1]
  }

  /** Accumulating from the low end gives the same sum (used by the loops that walk downwards). */
  lemma {:induction false} SumSquaresPrepend(s: seq<real>, lo: int, hi: int)
    requires 0 <= lo < hi <= |s|
    ensures SumSquares(s, lo, hi) == s[lo] * s[lo] + SumSquares(s, lo + 1, hi)
    decreases hi - lo
  {
    if lo + 1 < hi {
      SumSquaresPrepend(s, lo, hi - 1);
    }
  }

  /** Over a range where every sample has amplitude |a| (DC or a square wave),
      the sum of squares is the range length times a^2. */
  lemma {:induction false} SumSquaresConstantAmplitude(s: seq<real>, lo: int, hi: int, a: real)
    requires 0 <= lo <= hi <= |s|
    requires forall i :: lo <= i < hi ==> s[i] * s[i] == a * a
    ensures SumSquares(s, lo, hi) == (hi - lo) as real * (a * a)
    decreases hi - lo
  {
    if lo < hi {
      SumSquaresConstantAmplitude(s, lo, hi - 1, a);
    }
  }

  /** Mean of squares over a non-empty range: its RMS is Sqrt of this. */
  function MeanSquare(s: seq<real>, lo: int, hi: int): (r: real)
    requires 0 <= lo < hi <= |s|
    ensures r >= 0.0
  {
    SumSquares(s, lo, hi) / (hi - lo) as real
  }

  /** A constant-amplitude range has mean square a^2, so its RMS is Sqrt(a^2). */
  lemma MeanSquareConstantAmplitude(s: seq<real>, lo: int, hi: int, a: real)
    requires 0 <= lo < hi <= |s|
    requires forall i :: lo <= i < hi ==> s[i] * s[i] == a * a
    ensures MeanSquare(s, lo, hi) == a * a
  {
    SumSquaresConstantAmplitude(s, lo, hi, a);
  }
}
