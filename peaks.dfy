/**
 * findPeaks: a greedy, earliest-first scan for local maxima of a signal.
 *
 * An interior index is a candidate when its sample is strictly above
 * threshold * max(signal) and strictly above both immediate neighbours.
 * A candidate is kept only when no peak has been kept yet, or when it lies
 * at least minDistance after the last kept peak.
 */
module PeakDetection {

  /** Math.max(...signal) for a non-empty signal. */
  function MaxOf(s: seq<real>): real
    requires |s| > 0
  {
    if |s| == 1 then s[0]
    else
      var rest := MaxOf(s[1..]);
      if s[0] >= rest then s[0] else rest
  }

  /** MaxOf is a sample of the signal and no sample exceeds it. */
  lemma {:induction false} MaxOfIsMaximum(s: seq<real>)
    requires |s| > 0
    ensures MaxOf(s) in s
    ensures forall k :: 0 <= k < |s| ==> s[k] <= MaxOf(s)
  {
    if |s| > 1 {
      MaxOfIsMaximum(s[1..]);
      assert forall k :: 1 <= k < |s| ==> s[k] == s[1..][k - 1];
    }
  }

  /**
   * threshold * max(signal). For an empty signal the source multiplies by
   * -Infinity, but no index is ever examined then, so any value will do.
   */
  function ThresholdValue(s: seq<real>, threshold: real): real
  {
    if |s| == 0 then 0.0 else threshold * MaxOf(s)
  }

  /** Index i passes the three comparisons of the scan. */
  predicate IsCandidate(s: seq<real>, tv: real, i: int)
  {
    1 <= i < |s| - 1 && s[i] > tv && s[i] > s[i - 1] && s[i] > s[i + 1]
  }

  /** The distance test applied to a candidate i against the peaks kept so far. */
  predicate FarEnough(p: seq<int>, i: int, minDistance: real)
  {
    p == [] || ((i - p[|p| - 1]) as real) >= minDistance
  }

  /** The list of kept peaks once the scan has examined the indices 1 .. k-1. */
  function Scan(s: seq<real>, tv: real, minDistance: real, k: int): seq<int>
    decreases k
  {
    if k <= 1 then []
    else
      var p := Scan(s, tv, minDistance, k - 1);
      if IsCandidate(s, tv, k - 1) && FarEnough(p, k - 1, minDistance) then p + [k - 1] else p
  }

  /** The result of findPeaks(signal, threshold, minDistance). */
  function Peaks(s: seq<real>, threshold: real, minDistance: real): seq<int>
  {
    Scan(s, ThresholdValue(s, threshold), minDistance, |s| - 1)
  }

  /** Strictly increasing, with consecutive entries at least minDistance apart. */
  predicate Spaced(p: seq<int>, minDistance: real)
  {
    forall j :: 0 < j < |p| ==> p[j - 1] < p[j] && ((p[j] - p[j - 1]) as real) >= minDistance
  }

  /** Every kept index is a candidate examined before step k. */
  lemma {:induction false} ScanSound(s: seq<real>, tv: real, minDistance: real, k: int)
    ensures forall j :: 0 <= j < |Scan(s, tv, minDistance, k)| ==>
      IsCandidate(s, tv, Scan(s, tv, minDistance, k)[j]) && Scan(s, tv, minDistance, k)[j] < k
  {
    if k > 1 {
      ScanSound(s, tv, minDistance, k - 1);
    }
  }

  /** The kept indices are strictly increasing and spaced by at least minDistance. */
  lemma {:induction false} ScanSpaced(s: seq<real>, tv: real, minDistance: real, k: int)
    ensures Spaced(Scan(s, tv, minDistance, k), minDistance)
  {
    if k > 1 {
      ScanSpaced(s, tv, minDistance, k - 1);
      ScanSound(s, tv, minDistance, k - 1);
    }
  }

  /** Spacing of consecutive entries gives a strict order between all entries. */
  lemma {:induction false} SpacedIncreasing(p: seq<int>, minDistance: real)
    requires Spaced(p, minDistance)
    ensures forall a, b :: 0 <= a < b < |p| ==> p[a] < p[b]
  {
    if |p| > 1 {
      var front := p[..|p| - 1];
      assert Spaced(front, minDistance) by {
        assert forall a :: 0 <= a < |front| ==> front[a] == p[a];
      }
      SpacedIncreasing(front, minDistance);
      forall a, b | 0 <= a < b < |p|
        ensures p[a] < p[b]
      {
        if b < |p| - 1 {
          assert front[a] < front[b];
        } else if a < b - 1 {
          assert front[a] < front[b - 1];
        }
      }
    }
  }

  /** Later steps only append: the list after step i is a prefix of the list after step k. */
  lemma {:induction false} ScanPrefix(s: seq<real>, tv: real, minDistance: real, i: int, k: int)
    requires i <= k
    ensures Scan(s, tv, minDistance, i) <= Scan(s, tv, minDistance, k)
    decreases k - i
  {
    if i < k {
      ScanPrefix(s, tv, minDistance, i, k - 1);
    }
  }

  /** Entries kept at or after step i + 1 are all at least i. */
  lemma {:induction false} ScanTailAbove(s: seq<real>, tv: real, minDistance: real, i: int, k: int)
    requires 1 <= i <= k
    ensures |Scan(s, tv, minDistance, i)| <= |Scan(s, tv, minDistance, k)|
    ensures forall j :: |Scan(s, tv, minDistance, i)| <= j < |Scan(s, tv, minDistance, k)| ==>
      Scan(s, tv, minDistance, k)[j] >= i
    decreases k - i
  {
    ScanPrefix(s, tv, minDistance, i, k);
    if i < k {
      ScanTailAbove(s, tv, minDistance, i, k - 1);
      ScanPrefix(s, tv, minDistance, k - 1, k);
    }
  }

  /**
   * The greedy rule: for an index i examined before step k, i is kept if and
   * only if it is a candidate that passes the distance test against the peaks
   * kept before it.
   */
  lemma {:induction false} ScanKeeps(s: seq<real>, tv: real, minDistance: real, i: int, k: int)
    requires 1 <= i < k
    ensures i in Scan(s, tv, minDistance, k) <==>
      IsCandidate(s, tv, i) && FarEnough(Scan(s, tv, minDistance, i), i, minDistance)
  {
    var before := Scan(s, tv, minDistance, i);
    var after := Scan(s, tv, minDistance, i + 1);
    var whole := Scan(s, tv, minDistance, k);
    ScanSound(s, tv, minDistance, i);
    ScanPrefix(s, tv, minDistance, i + 1, k);
    if IsCandidate(s, tv, i) && FarEnough(before, i, minDistance) {
      assert after == before + [i];
      assert whole[|after| - 1] == i;
    } else {
      assert after == before;
      if i + 1 < k {
        ScanTailAbove(s, tv, minDistance, i + 1, k);
      }
      forall j | 0 <= j < |whole|
        ensures whole[j] != i
      {
        if j < |before| {
          assert whole[j] == before[j];
        }
      }
    }
  }

  /** No candidate below k means nothing was kept. */
  lemma {:induction false} ScanEmpty(s: seq<real>, tv: real, minDistance: real, k: int)
    requires forall j :: 1 <= j < k ==> !IsCandidate(s, tv, j)
    ensures Scan(s, tv, minDistance, k) == []
  {
    if k > 1 {
      ScanEmpty(s, tv, minDistance, k - 1);
    }
  }

  /** Every returned index is an interior strict local maximum above the threshold. */
  lemma PeaksSound(s: seq<real>, threshold: real, minDistance: real)
    ensures forall j :: 0 <= j < |Peaks(s, threshold, minDistance)| ==>
      var i := Peaks(s, threshold, minDistance)[j];
      1 <= i <= |s| - 2 && s[i] > threshold * MaxOf(s) && s[i] > s[i - 1] && s[i] > s[i + 1]
  {
    ScanSound(s, ThresholdValue(s, threshold), minDistance, |s| - 1);
  }

  /** A signal shorter than three samples has no interior index, hence no peak. */
  lemma PeaksShort(s: seq<real>, threshold: real, minDistance: real)
    requires |s| < 3
    ensures Peaks(s, threshold, minDistance) == []
  {
    ScanEmpty(s, ThresholdValue(s, threshold), minDistance, |s| - 1);
  }

  /** The returned indices are strictly increasing and at least minDistance apart. */
  lemma PeaksOrdered(s: seq<real>, threshold: real, minDistance: real)
    ensures Spaced(Peaks(s, threshold, minDistance), minDistance)
    ensures forall a, b :: 0 <= a < b < |Peaks(s, threshold, minDistance)| ==>
      Peaks(s, threshold, minDistance)[a] < Peaks(s, threshold, minDistance)[b]
  {
    ScanSpaced(s, ThresholdValue(s, threshold), minDistance, |s| - 1);
    SpacedIncreasing(Peaks(s, threshold, minDistance), minDistance);
  }

  /** The earliest candidate is always returned, whatever minDistance is. */
  lemma FirstCandidateKept(s: seq<real>, threshold: real, minDistance: real, i: int)
    requires IsCandidate(s, ThresholdValue(s, threshold), i)
    requires forall j :: 1 <= j < i ==> !IsCandidate(s, ThresholdValue(s, threshold), j)
    ensures i in Peaks(s, threshold, minDistance)
  {
    var tv := ThresholdValue(s, threshold);
    ScanEmpty(s, tv, minDistance, i);
    ScanKeeps(s, tv, minDistance, i, |s| - 1);
  }

  /**
   * A later candidate is omitted exactly when it is less than minDistance
   * after the last peak kept before it.
   */
  lemma CandidateDropped(s: seq<real>, threshold: real, minDistance: real, i: int)
    requires IsCandidate(s, ThresholdValue(s, threshold), i)
    ensures var before := Scan(s, ThresholdValue(s, threshold), minDistance, i);
      i !in Peaks(s, threshold, minDistance) <==>
      before != [] && ((i - before[|before| - 1]) as real) < minDistance
  {
    ScanKeeps(s, ThresholdValue(s, threshold), minDistance, i, |s| - 1);
  }

  /** The leading entries of p that are below i: for an increasing p, the peaks found before index i. */
  function PeaksBelow(p: seq<int>, i: int): seq<int>
  {
    if |p| == 0 || p[0] >= i then [] else [p[0]] + PeaksBelow(p[1..], i)
  }

  /** A prefix q of p whose entries are below i, followed only by entries at least i, is PeaksBelow(p, i). */
  lemma {:induction false} PrefixBelow(p: seq<int>, q: seq<int>, i: int)
    requires q <= p
    requires forall j :: 0 <= j < |q| ==> q[j] < i
    requires forall j :: |q| <= j < |p| ==> p[j] >= i
    ensures PeaksBelow(p, i) == q
  {
    if |q| > 0 {
      PrefixBelow(p[1..], q[1..], i);
      assert q == [q[0]] + q[1..];
    }
  }

  /** The scan's list when it reaches a candidate i is exactly the returned peaks below i. */
  lemma ScanIsPeaksBelow(s: seq<real>, threshold: real, minDistance: real, i: int)
    requires 1 <= i <= |s| - 1
    ensures Scan(s, ThresholdValue(s, threshold), minDistance, i) == PeaksBelow(Peaks(s, threshold, minDistance), i)
  {
    var tv := ThresholdValue(s, threshold);
    ScanSound(s, tv, minDistance, i);
    ScanPrefix(s, tv, minDistance, i, |s| - 1);
    ScanTailAbove(s, tv, minDistance, i, |s| - 1);
    PrefixBelow(Peaks(s, threshold, minDistance), Scan(s, tv, minDistance, i), i);
  }

  /**
   * The greedy rule in terms of the result alone: a candidate i is missing
   * from the peaks exactly when some returned peak lies below i and the last
   * such peak is less than minDistance before i.
   */
  lemma CandidateDroppedByPeaks(s: seq<real>, threshold: real, minDistance: real, i: int)
    requires IsCandidate(s, ThresholdValue(s, threshold), i)
    ensures var below := PeaksBelow(Peaks(s, threshold, minDistance), i);
      i !in Peaks(s, threshold, minDistance) <==>
      below != [] && ((i - below[|below| - 1]) as real) < minDistance
  {
    CandidateDropped(s, threshold, minDistance, i);
    ScanIsPeaksBelow(s, threshold, minDistance, i);
  }

  /** The signal used as the worked example: three local maxima 1, 5, 1. */
  const Example: seq<real> := [0.0, 1.0, 0.0, 5.0, 0.0, 1.0, 0.0]

  lemma ExampleThreshold()
    ensures ThresholdValue(Example, 0.1) == 0.5
  {
    assert Example[3] == 5.0;
    assert MaxOf(Example) == 5.0;
  }

  /** The candidates of the example at level 0.5 are exactly 1, 3 and 5. */
  lemma ExampleCandidates()
    ensures IsCandidate(Example, 0.5, 1) && IsCandidate(Example, 0.5, 3) && IsCandidate(Example, 0.5, 5)
    ensures !IsCandidate(Example, 0.5, 2) && !IsCandidate(Example, 0.5, 4)
  {
  }

  lemma ExampleScanOne()
    ensures Scan(Example, 0.5, 1.0, 6) == [1, 3, 5]
  {
    ExampleCandidates();
    assert Scan(Example, 0.5, 1.0, 2) == [1];
    assert Scan(Example, 0.5, 1.0, 3) == [1];
    assert Scan(Example, 0.5, 1.0, 4) == [1, 3];
    assert Scan(Example, 0.5, 1.0, 5) == [1, 3];
  }

  lemma ExampleScanThree()
    ensures Scan(Example, 0.5, 3.0, 6) == [1, 5]
  {
    ExampleCandidates();
    assert Scan(Example, 0.5, 3.0, 2) == [1];
    assert Scan(Example, 0.5, 3.0, 3) == [1];
    assert Scan(Example, 0.5, 3.0, 4) == [1];
    assert Scan(Example, 0.5, 3.0, 5) == [1];
  }

  /** With threshold 0.1 and minDistance 1 all three maxima are kept. */
  lemma ExampleDistanceOne()
    ensures Peaks(Example, 0.1, 1.0) == [1, 3, 5]
  {
    ExampleThreshold();
    ExampleScanOne();
  }

  /** With minDistance 3 the middle maximum is dropped, though it is the highest. */
  lemma ExampleDistanceThree()
    ensures Peaks(Example, 0.1, 3.0) == [1, 5]
  {
    ExampleThreshold();
    ExampleScanThree();
  }

  /** At the default threshold 0.5 the level is 2.5, so only the highest maximum is a candidate. */
  lemma ExampleDefaultThreshold()
    ensures Peaks(Example, 0.5, 3.0) == [3]
  {
    assert Example[3] == 5.0;
    assert MaxOf(Example) == 5.0;
    assert ThresholdValue(Example, 0.5) == 2.5;
    assert Scan(Example, 0.5 * 5.0, 3.0, 2) == [];
    assert Scan(Example, 0.5 * 5.0, 3.0, 4) == [3];
    assert Scan(Example, 0.5 * 5.0, 3.0, 5) == [3];
  }

  /** A fractional minDistance acts as the next integer up: 2.5 drops the peak 2 after the first, like 3. */
  lemma ExampleFractionalDistance()
    ensures Peaks(Example, 0.1, 2.5) == [1, 5]
  {
    ExampleThreshold();
    ExampleCandidates();
    assert Scan(Example, 0.5, 2.5, 2) == [1];
    assert Scan(Example, 0.5, 2.5, 3) == [1];
    assert Scan(Example, 0.5, 2.5, 4) == [1];
    assert Scan(Example, 0.5, 2.5, 5) == [1];
  }

  /** findPeaks as written: one pass that pushes onto the peak list. */
  method FindPeaks(signal: seq<real>, threshold: real := 0.5, minDistance: real := 10.0)
    returns (peaks: seq<int>)
    ensures peaks == Peaks(signal, threshold, minDistance)
    ensures forall j :: 0 <= j < |peaks| ==>
      IsCandidate(signal, ThresholdValue(signal, threshold), peaks[j])
    ensures Spaced(peaks, minDistance)
    ensures |signal| < 3 ==> peaks == []
  {
    peaks := [];
    var thresholdValue := ThresholdValue(signal, threshold);
    var i := 1;
    while i < |signal| - 1
      invariant 1 <= i
      invariant i <= |signal| - 1 || i == 1
      invariant peaks == Scan(signal, thresholdValue, minDistance, i)
    {
      if signal[i] > thresholdValue && signal[i] > signal[i - 1] && signal[i] > signal[i + 1] {
        if |peaks| == 0 || ((i - peaks[|peaks| - 1]) as real) >= minDistance {
          peaks := peaks + [i];
        }
      }
      i := i + 1;
    }
    ScanSound(signal, thresholdValue, minDistance, |signal| - 1);
    ScanSpaced(signal, thresholdValue, minDistance, |signal| - 1);
    if |signal| < 3 {
      PeaksShort(signal, threshold, minDistance);
    }
  }
}
