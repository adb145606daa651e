/**
 * normalizeSignal: subtract the mean and divide by the population standard
 * deviation, falling back to a divisor of 1 when the deviation is 0
 * (the `std || 1` guard). Math.sqrt is opaque: a function parameter.
 */
module Normalization {

  import opened Arithmetic

  /** The sum of the samples (the reduce with a + b). */
  function Sum(s: seq<real>): real
  {
    if |s| == 0 then 0.0 else s[0] + Sum(s[1..])
  }

  /** The sum of squared deviations from m (the reduce with sum + Math.pow(val - mean, 2)). */
  function SquaredDeviations(s: seq<real>, m: real): real
  {
    if |s| == 0 then 0.0 else Square(s[0] - m) + SquaredDeviations(s[1..], m)
  }

  function Mean(s: seq<real>): real
    requires |s| > 0
  {
    Sum(s) / (|s| as real)
  }

  /** The population variance: squared deviations divided by the length. */
  function Variance(s: seq<real>): real
    requires |s| > 0
  {
    SquaredDeviations(s, Mean(s)) / (|s| as real)
  }

  /** `std || 1`: a zero deviation is replaced by 1, so the division is always defined. */
  function Divisor(std: real): (d: real)
    ensures d != 0.0
    ensures std != 0.0 ==> d == std
  {
    if std == 0.0 then 1.0 else std
  }

  /**
   * normalizeSignal over the opaque sqrt. An empty signal maps to an empty
   * result (the source's map over no samples never uses its NaN mean).
   */
  function NormalizeSignal(signal: seq<real>, sqrt: real -> real): (r: seq<real>)
    ensures |r| == |signal|
  {
    if |signal| == 0 then []
    else
      var mean := Mean(signal);
      var d := Divisor(sqrt(Variance(signal)));
      seq(|signal|, i requires 0 <= i < |signal| => (signal[i] - mean) / d)
  }

  /** Every sample of a constant signal equals its first. */
  predicate Constant(s: seq<real>)
  {
    forall i :: 0 <= i < |s| ==> s[i] == s[0]
  }

  /** The sum of n copies of c is n * c. */
  lemma {:induction false} SumConstant(s: seq<real>, c: real)
    requires forall i :: 0 <= i < |s| ==> s[i] == c
    ensures Sum(s) == (|s| as real) * c
  {
    if |s| > 0 {
      SumConstant(s[1..], c);
    }
  }

  /** Nothing deviates from the mean of a constant signal. */
  lemma {:induction false} SquaredDeviationsConstant(s: seq<real>, c: real)
    requires forall i :: 0 <= i < |s| ==> s[i] == c
    ensures SquaredDeviations(s, c) == 0.0
  {
    if |s| > 0 {
      SquaredDeviationsConstant(s[1..], c);
    }
  }

  /** A constant signal has its value as mean and zero variance. */
  lemma ConstantStatistics(s: seq<real>)
    requires |s| > 0 && Constant(s)
    ensures Mean(s) == s[0]
    ensures Variance(s) == 0.0
  {
    SumConstant(s, s[0]);
    SquaredDeviationsConstant(s, s[0]);
  }

  /**
   * A constant signal normalizes to all zeros; with sqrt(0) = 0 it is the
   * zero-std guard that supplies the divisor 1.
   */
  lemma ConstantNormalizesToZero(s: seq<real>, sqrt: real -> real)
    requires |s| > 0 && Constant(s)
    ensures forall i :: 0 <= i < |s| ==> NormalizeSignal(s, sqrt)[i] == 0.0
    ensures sqrt(0.0) == 0.0 ==> Divisor(sqrt(Variance(s))) == 1.0
  {
    ConstantStatistics(s);
  }

  /** Subtracting m from each sample and dividing by d divides the sum's excess by d. */
  lemma {:induction false} SumShiftScale(s: seq<real>, t: seq<real>, m: real, d: real)
    requires d != 0.0 && |t| == |s|
    requires forall i :: 0 <= i < |s| ==> t[i] == (s[i] - m) / d
    ensures Sum(t) == (Sum(s) - (|s| as real) * m) / d
  {
    if |s| > 0 {
      SumShiftScale(s[1..], t[1..], m, d);
      assert Sum(t) == (s[0] - m) / d + (Sum(s[1..]) - ((|s| - 1) as real) * m) / d;
    }
  }

  /** The same for squared deviations, which shrink by the factor d * d. */
  lemma {:induction false} SquaredDeviationsScale(s: seq<real>, t: seq<real>, m: real, d: real)
    requires d != 0.0 && |t| == |s|
    requires forall i :: 0 <= i < |s| ==> t[i] == (s[i] - m) / d
    ensures SquaredDeviations(t, 0.0) * Square(d) == SquaredDeviations(s, m)
  {
    if |s| > 0 {
      SquaredDeviationsScale(s[1..], t[1..], m, d);
      QuotientSquareTimes(s[0] - m, d);
      assert t[0] - 0.0 == (s[0] - m) / d;
      Distribute(Square(t[0] - 0.0), SquaredDeviations(t[1..], 0.0), Square(d));
    }
  }

  lemma QuotientSquareTimes(x: real, d: real)
    requires d != 0.0
    ensures Square(x / d) * Square(d) == Square(x)
  {
    var a := x / d;
    assert a * d == x;
    assert (a * a) * (d * d) == (a * d) * (a * d);
  }

  lemma Distribute(a: real, b: real, c: real)
    ensures (a + b) * c == a * c + b * c
  {
  }

  lemma CancelFactor(a: real, b: real, v: real)
    requires v != 0.0 && a * v == b * v
    ensures a == b
  {
    assert (a - b) * v == 0.0;
  }

  /** Multiplying a quotient back by its non-zero divisor recovers the dividend. */
  lemma QuotientTimes(x: real, d: real)
    requires d != 0.0
    ensures (x / d) * d == x
  {
  }

  /** Centring a signal on its mean and dividing it by any non-zero d leaves sum and mean zero. */
  lemma CenteredMeanZero(s: seq<real>, t: seq<real>, d: real)
    requires |s| > 0 && |t| == |s| && d != 0.0
    requires forall i :: 0 <= i < |s| ==> t[i] == (s[i] - Mean(s)) / d
    ensures Sum(t) == 0.0 && Mean(t) == 0.0
  {
    var n := |s| as real;
    SumShiftScale(s, t, Mean(s), d);
    QuotientTimes(Sum(s), n);
    assert Sum(s) - n * Mean(s) == 0.0;
    assert Sum(t) == 0.0 / d;
    assert |t| as real == n;
  }

  /** The normalized signal has mean zero. */
  lemma NormalizedMeanZero(s: seq<real>, sqrt: real -> real)
    requires |s| > 0
    ensures Sum(NormalizeSignal(s, sqrt)) == 0.0
    ensures Mean(NormalizeSignal(s, sqrt)) == 0.0
  {
    CenteredMeanZero(s, NormalizeSignal(s, sqrt), Divisor(sqrt(Variance(s))));
  }

  /**
   * Where sqrt really is the square root of a non-zero variance, the
   * normalized signal has population variance one.
   */
  lemma NormalizedUnitVariance(s: seq<real>, sqrt: real -> real)
    requires |s| > 0
    requires Variance(s) != 0.0 && Square(sqrt(Variance(s))) == Variance(s)
    ensures Variance(NormalizeSignal(s, sqrt)) == 1.0
  {
    var t := NormalizeSignal(s, sqrt);
    var std := sqrt(Variance(s));
    assert Divisor(std) == std;
    ScaledVariance(s, t, std);
    CancelFactor(Variance(t), 1.0, Variance(s));
  }

  /**
   * Centring a signal and dividing it by d divides its variance by d^2:
   * the variance of the result times d^2 is the variance of the original.
   */
  lemma ScaledVariance(s: seq<real>, t: seq<real>, d: real)
    requires |s| > 0 && |t| == |s| && d != 0.0
    requires forall i :: 0 <= i < |s| ==> t[i] == (s[i] - Mean(s)) / d
    ensures Variance(t) * Square(d) == Variance(s)
  {
    CenteredMeanZero(s, t, d);
    SquaredDeviationsScale(s, t, Mean(s), d);
    QuotientScale(SquaredDeviations(t, 0.0), |s| as real, Square(d));
  }

  /** Scaling a quotient scales its dividend. */
  lemma QuotientScale(x: real, n: real, c: real)
    requires n != 0.0
    ensures (x / n) * c == (x * c) / n
  {
  }

  /** When the deviation is zero the divisor is 1 and the result is just the deviations. */
  lemma ZeroStdGuard(s: seq<real>, sqrt: real -> real)
    requires |s| > 0 && sqrt(Variance(s)) == 0.0
    ensures forall i :: 0 <= i < |s| ==> NormalizeSignal(s, sqrt)[i] == s[i] - Mean(s)
  {
  }
}
