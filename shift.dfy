/**
 * fftShift: run an FFT over the signal and lay out the magnitudes with the
 * zero-frequency bin in the middle, together with a frequency label per slot.
 *
 * The FFT library and Math.sqrt are opaque here: the transform is a function
 * parameter that fills an output buffer of the same size as its input buffer,
 * and sqrt is a function parameter. Math.pow(x, 2) is modelled exactly, as
 * Square. The index arithmetic and the slot assignments are modelled for an
 * even number of samples.
 */
module SpectrumShift {

  import opened Arithmetic

  /** The slot that FFT bin i is written to: i < n/2 ? i + n/2 : i - n/2. */
  function ShiftIndex(n: nat, i: nat): (j: nat)
    requires n % 2 == 0 && i < n
    ensures j < n
  {
    if i < n / 2 then i + n / 2 else i - n / 2
  }

  /** The rearrangement is the rotation i |-> (i + n/2) mod n. */
  lemma ShiftIsRotation(n: nat, i: nat)
    requires n % 2 == 0 && i < n
    ensures ShiftIndex(n, i) == (i + n / 2) % n
  {
    if i < n / 2 {
      ModSmall(i + n / 2, n);
    } else {
      ModWrap(i + n / 2, n);
    }
  }

  lemma ModSmall(a: int, n: int)
    requires 0 <= a < n
    ensures a % n == a
  {
  }

  lemma ModWrap(a: int, n: int)
    requires n <= a < 2 * n
    ensures a % n == a - n
  {
  }

  /** Shifting twice gives back the bin: the rearrangement is its own inverse. */
  lemma ShiftInvolution(n: nat, i: nat)
    requires n % 2 == 0 && i < n
    ensures ShiftIndex(n, ShiftIndex(n, i)) == i
  {
  }

  /** No two bins share a slot, and every slot receives some bin. */
  lemma ShiftBijection(n: nat)
    requires n % 2 == 0
    ensures forall i, k :: 0 <= i < n && 0 <= k < n && ShiftIndex(n, i) == ShiftIndex(n, k) ==> i == k
    ensures forall j :: 0 <= j < n ==> ShiftIndex(n, ShiftIndex(n, j)) == j
  {
    forall i, k | 0 <= i < n && 0 <= k < n && ShiftIndex(n, i) == ShiftIndex(n, k)
      ensures i == k
    {
      ShiftInvolution(n, i);
      ShiftInvolution(n, k);
    }
    forall j | 0 <= j < n
      ensures ShiftIndex(n, ShiftIndex(n, j)) == j
    {
      ShiftInvolution(n, j);
    }
  }

  /** Magnitude of bin k of an interleaved (re, im) buffer: sqrt(re^2 + im^2). */
  function BinMagnitude(out: seq<real>, k: nat, sqrt: real -> real): real
    requires 2 * k + 1 < |out|
  {
    sqrt(Square(out[2 * k]) + Square(out[2 * k + 1]))
  }

  /**
   * The frequency of DFT bin k of an n-point transform: k * rate / n for the
   * first half and (k - n) * rate / n for the second (the usual fftfreq axis).
   */
  function BinFrequency(n: nat, sampleRate: real, k: nat): real
    requires 0 < n
  {
    if k < n / 2 then (k as real) * sampleRate / (n as real)
    else ((k - n) as real) * sampleRate / (n as real)
  }

  /** The label the relabelling loop computes for bin i: (i - n/2) * (rate / n). */
  function StoredLabel(n: nat, sampleRate: real, i: nat): real
    requires 0 < n
  {
    ((i as int - n / 2) as real) * (sampleRate / (n as real))
  }

  /** The label the loop stores for bin i is the fftfreq frequency of the slot it lands in. */
  lemma LabelAtSlot(n: nat, sampleRate: real, i: nat)
    requires n % 2 == 0 && i < n
    ensures StoredLabel(n, sampleRate, i) == BinFrequency(n, sampleRate, ShiftIndex(n, i))
  {
    var N := n as real;
    assert ((i as int - n / 2) as real) * (sampleRate / N) == ((i as int - n / 2) as real) * sampleRate / N;
  }

  /** Slot j's state after the loop has handled bins 0 .. i-1: written once if its bin is done, else untouched. */
  predicate Slot(n: nat, i: nat, j: nat, count: nat, freq: real, value: real, out: seq<real>, sampleRate: real, sqrt: real -> real)
    requires n % 2 == 0 && j < n && |out| == 2 * n
  {
    if ShiftIndex(n, j) < i then
      count == 1 && freq == BinFrequency(n, sampleRate, j) && value == BinMagnitude(out, ShiftIndex(n, j), sqrt)
    else
      count == 0 && freq == 0.0 && value == 0.0
  }

  /** Every slot is in the state Slot describes after bins 0 .. i-1 were handled. */
  predicate Slots(n: nat, i: nat, writes: seq<nat>, freqs: seq<real>, values: seq<real>,
                  out: seq<real>, sampleRate: real, sqrt: real -> real)
    requires n % 2 == 0 && |out| == 2 * n
  {
    |writes| == n && |freqs| == n && |values| == n &&
    forall j :: 0 <= j < n ==> Slot(n, i, j, writes[j], freqs[j], values[j], out, sampleRate, sqrt)
  }

  /** One iteration of the loop: bin i is stored in slot ShiftIndex(n, i) and nowhere else. */
  lemma SlotsAdvance(n: nat, i: nat, out: seq<real>, sampleRate: real, sqrt: real -> real,
                     w0: seq<nat>, f0: seq<real>, v0: seq<real>, w: seq<nat>, f: seq<real>, v: seq<real>)
    requires n % 2 == 0 && i < n && |out| == 2 * n
    requires Slots(n, i, w0, f0, v0, out, sampleRate, sqrt)
    requires w == w0[ShiftIndex(n, i) := w0[ShiftIndex(n, i)] + 1]
    requires f == f0[ShiftIndex(n, i) := StoredLabel(n, sampleRate, i)]
    requires v == v0[ShiftIndex(n, i) := BinMagnitude(out, i, sqrt)]
    ensures Slots(n, i + 1, w, f, v, out, sampleRate, sqrt)
  {
    ShiftInvolution(n, i);
    LabelAtSlot(n, sampleRate, i);
    forall j | 0 <= j < n
      ensures Slot(n, i + 1, j, w[j], f[j], v[j], out, sampleRate, sqrt)
    {
      ShiftInvolution(n, j);
      assert Slot(n, i, j, w0[j], f0[j], v0[j], out, sampleRate, sqrt);
    }
  }

  /** After the last bin every slot has been written exactly once. */
  lemma SlotsDone(n: nat, writes: seq<nat>, freqs: seq<real>, values: seq<real>,
                  out: seq<real>, sampleRate: real, sqrt: real -> real)
    requires n % 2 == 0 && |out| == 2 * n
    requires Slots(n, n, writes, freqs, values, out, sampleRate, sqrt)
    ensures forall j :: 0 <= j < n ==> writes[j] == 1
    ensures forall j :: 0 <= j < n ==> freqs[j] == BinFrequency(n, sampleRate, j)
    ensures forall j :: 0 <= j < n ==> values[j] == BinMagnitude(out, ShiftIndex(n, j), sqrt)
  {
    forall j | 0 <= j < n
      ensures writes[j] == 1 && freqs[j] == BinFrequency(n, sampleRate, j)
      ensures values[j] == BinMagnitude(out, ShiftIndex(n, j), sqrt)
    {
      assert Slot(n, n, j, writes[j], freqs[j], values[j], out, sampleRate, sqrt);
    }
  }

  /** The complex input buffer: samples at even positions, imaginary zeros at odd ones. */
  method ComplexInput(signal: seq<real>) returns (input: seq<real>)
    ensures |input| == 2 * |signal|
    ensures forall k :: 0 <= k < |input| ==> input[k] == if k % 2 == 0 then signal[k / 2] else 0.0
  {
    var n := |signal|;
    var buffer := new real[n * 2](_ => 0.0);
    for i := 0 to n
      invariant forall k :: 0 <= k < 2 * i ==> buffer[k] == if k % 2 == 0 then signal[k / 2] else 0.0
    {
      buffer[i * 2] := signal[i];
      buffer[i * 2 + 1] := 0.0;
    }
    input := buffer[..];
  }

  /** One pass of the relabelling loop: bin i's label and magnitude go to slot ShiftIndex(n, i). */
  method StoreBin(f: array<real>, v: array<real>, i: nat, out: seq<real>, sampleRate: real, sqrt: real -> real)
    requires f.Length == v.Length && f.Length % 2 == 0 && |out| == 2 * f.Length && i < f.Length && f != v
    modifies f, v
    ensures f[..] == old(f[..])[ShiftIndex(f.Length, i) := StoredLabel(f.Length, sampleRate, i)]
    ensures v[..] == old(v[..])[ShiftIndex(f.Length, i) := BinMagnitude(out, i, sqrt)]
  {
    var n := f.Length;
    var idx := ShiftIndex(n, i);
    var freq := StoredLabel(n, sampleRate, i);
    var magnitude := BinMagnitude(out, i, sqrt);
    f[idx] := freq;
    ghost var written := f[..];
    v[idx] := magnitude;
    assert f[..] == written;
  }

  /**
   * The relabelling loop: slot ShiftIndex(n, i) receives the magnitude of bin i
   * and the label (i - n/2) * rate / n. 'writes' counts the stores to each slot.
   */
  method ShiftSpectrum(out: seq<real>, sampleRate: real, sqrt: real -> real)
    returns (freqs: seq<real>, fftValues: seq<real>, ghost writes: seq<nat>)
    requires |out| % 4 == 0
    ensures var n := |out| / 2;
      |freqs| == n && |fftValues| == n && |writes| == n
    ensures forall j :: 0 <= j < |writes| ==> writes[j] == 1
    ensures forall j :: 0 <= j < |fftValues| ==>
      fftValues[j] == BinMagnitude(out, ShiftIndex(|out| / 2, j), sqrt)
    ensures forall j :: 0 <= j < |freqs| ==> freqs[j] == BinFrequency(|out| / 2, sampleRate, j)
  {
    var n := |out| / 2;
    var f := new real[n](_ => 0.0);
    var v := new real[n](_ => 0.0);
    writes := seq(n, _ => 0);
    for i := 0 to n
      invariant |writes| == n == f.Length == v.Length
      invariant Slots(n, i, writes, f[..], v[..], out, sampleRate, sqrt)
    {
      ghost var f0, v0, w0 := f[..], v[..], writes;
      StoreBin(f, v, i, out, sampleRate, sqrt);
      writes := writes[ShiftIndex(n, i) := writes[ShiftIndex(n, i)] + 1];
      SlotsAdvance(n, i, out, sampleRate, sqrt, w0, f0, v0, writes, f[..], v[..]);
    }
    SlotsDone(n, writes, f[..], v[..], out, sampleRate, sqrt);
    freqs, fftValues := f[..], v[..];
  }

  /**
   * fftShift as written. The transform stands for the FFT library call over the
   * interleaved buffer; it fills a buffer of the same size.
   */
  method FftShift(signal: seq<real>, sampleRate: real, transform: seq<real> -> seq<real>, sqrt: real -> real)
    returns (frequencies: seq<real>, fftValues: seq<real>)
    requires |signal| % 2 == 0
    requires forall x: seq<real> :: |transform(x)| == |x|
    ensures |frequencies| == |signal| && |fftValues| == |signal|
    ensures forall j :: 0 <= j < |signal| ==>
      fftValues[j] == BinMagnitude(transform(Interleaved(signal)), ShiftIndex(|signal|, j), sqrt)
    ensures forall j :: 0 <= j < |signal| ==> frequencies[j] == BinFrequency(|signal|, sampleRate, j)
    ensures multiset(fftValues) == multiset(Magnitudes(transform(Interleaved(signal)), sqrt))
  {
    var input := ComplexInput(signal);
    assert input == Interleaved(signal);
    var out := transform(input);
    ghost var writes;
    frequencies, fftValues, writes := ShiftSpectrum(out, sampleRate, sqrt);
    ShiftedIsRotation(Magnitudes(out, sqrt), fftValues);
  }

  /** The interleaved buffer as a value, for stating what the transform is applied to. */
  function Interleaved(signal: seq<real>): (input: seq<real>)
    ensures |input| == 2 * |signal|
  {
    seq(2 * |signal|, k requires 0 <= k < 2 * |signal| => if k % 2 == 0 then signal[k / 2] else 0.0)
  }

  /** The bin magnitudes in bin order, as the FFT produced them. */
  function Magnitudes(out: seq<real>, sqrt: real -> real): (m: seq<real>)
    ensures |m| == |out| / 2
  {
    seq(|out| / 2, k requires 0 <= k < |out| / 2 => BinMagnitude(out, k, sqrt))
  }

  /**
   * Reading each slot's bin through ShiftIndex swaps the two halves, so the
   * shifted sequence is a permutation of the original one.
   */
  lemma ShiftedIsRotation(bins: seq<real>, shifted: seq<real>)
    requires |bins| == |shifted| && |bins| % 2 == 0
    requires forall j :: 0 <= j < |shifted| ==> shifted[j] == bins[ShiftIndex(|bins|, j)]
    ensures shifted == bins[|bins| / 2..] + bins[..|bins| / 2]
    ensures multiset(shifted) == multiset(bins)
  {
    var h := |bins| / 2;
    assert shifted == bins[h..] + bins[..h];
    calc {
      multiset(shifted);
      multiset(bins[h..]) + multiset(bins[..h]);
      { assert bins == bins[..h] + bins[h..]; }
      multiset(bins);
    }
  }

  /** Bin i's magnitude lands at slot (i + n/2) mod n; in particular DC lands at n/2. */
  lemma MagnitudeSlots(n: nat, out: seq<real>, sqrt: real -> real, fftValues: seq<real>)
    requires n % 2 == 0 && 0 < n && |out| == 2 * n && |fftValues| == n
    requires forall j :: 0 <= j < n ==> fftValues[j] == BinMagnitude(out, ShiftIndex(n, j), sqrt)
    ensures forall i :: 0 <= i < n ==> fftValues[(i + n / 2) % n] == BinMagnitude(out, i, sqrt)
    ensures fftValues[n / 2] == BinMagnitude(out, 0, sqrt)
  {
    forall i | 0 <= i < n
      ensures fftValues[(i + n / 2) % n] == BinMagnitude(out, i, sqrt)
    {
      ShiftInvolution(n, i);
      ShiftIsRotation(n, i);
    }
    ShiftInvolution(n, 0);
  }

  /** Bin i's label (i - n/2) * rate / n lands at slot (i + n/2) mod n. */
  lemma LabelSlots(n: nat, sampleRate: real, freqs: seq<real>)
    requires n % 2 == 0 && 0 < n && |freqs| == n
    requires forall j :: 0 <= j < n ==> freqs[j] == BinFrequency(n, sampleRate, j)
    ensures forall i :: 0 <= i < n ==> freqs[(i + n / 2) % n] == StoredLabel(n, sampleRate, i)
  {
    forall i | 0 <= i < n
      ensures freqs[(i + n / 2) % n] == StoredLabel(n, sampleRate, i)
    {
      ShiftIsRotation(n, i);
      LabelAtSlot(n, sampleRate, i);
    }
  }

  /**
   * The labels are the unshifted axis: slot n/2 carries -rate/2, and the label
   * at every slot differs by exactly rate/2 from the true frequency of the bin
   * whose magnitude sits there.
   */
  lemma LabelMismatch(n: nat, sampleRate: real, j: nat)
    requires n % 2 == 0 && 0 < n && j < n
    ensures BinFrequency(n, sampleRate, n / 2) == -sampleRate / 2.0
    ensures BinFrequency(n, sampleRate, j) - BinFrequency(n, sampleRate, ShiftIndex(n, j)) ==
      if j < n / 2 then sampleRate / 2.0 else -sampleRate / 2.0
  {
    var N := n as real;
    assert (n / 2) as real == N / 2.0;
    assert ((n / 2 - n) as real) * sampleRate / N == -(N / 2.0) * sampleRate / N;
  }

  /** For four samples at rate 4, the DC magnitude sits in slot 2, which is labelled -2. */
  lemma FourPointExample(out: seq<real>, sqrt: real -> real, freqs: seq<real>, fftValues: seq<real>)
    requires |out| == 8 && |freqs| == 4 && |fftValues| == 4
    requires forall j :: 0 <= j < 4 ==> fftValues[j] == BinMagnitude(out, ShiftIndex(4, j), sqrt)
    requires forall j :: 0 <= j < 4 ==> freqs[j] == BinFrequency(4, 4.0, j)
    ensures fftValues[2] == BinMagnitude(out, 0, sqrt) && freqs[2] == -2.0
    ensures freqs == [0.0, 1.0, -2.0, -1.0]
  {
    assert freqs[0] == 0.0 && freqs[1] == 1.0 && freqs[2] == -2.0 && freqs[3] == -1.0;
  }

  /**
   * The evidently intended labelling of a centred spectrum: slot j carries
   * (j - n/2) * rate / n, the frequency of the bin whose magnitude is there.
   */
  function CenteredFrequency(n: nat, sampleRate: real, j: nat): (f: real)
    requires 0 < n && n % 2 == 0 && j < n
    ensures f == BinFrequency(n, sampleRate, ShiftIndex(n, j))
  {
    var N := n as real;
    assert (n / 2) as real == N / 2.0;
    ((j - n / 2) as real) * sampleRate / N
  }

  /**
   * The corrected label array: slot j names the frequency of the bin whose
   * magnitude fftShift stores there, so the axis agrees with the values.
   */
  function CenteredLabels(n: nat, sampleRate: real): (labels: seq<real>)
    requires 0 < n && n % 2 == 0
    ensures |labels| == n
    ensures forall j :: 0 <= j < n ==> labels[j] == BinFrequency(n, sampleRate, ShiftIndex(n, j))
  {
    seq(n, j requires 0 <= j < n => CenteredFrequency(n, sampleRate, j))
  }

  /** With a positive rate the centred labels run strictly upward. */
  lemma CenteredAscending(n: nat, sampleRate: real, j: nat, k: nat)
    requires 0 < n && n % 2 == 0 && j < k < n && sampleRate > 0.0
    ensures CenteredFrequency(n, sampleRate, j) < CenteredFrequency(n, sampleRate, k)
  {
    var a := (j - n / 2) as real;
    var b := (k - n / 2) as real;
    ScaleMonotone(a, b, sampleRate);
    QuotientMonotone(a * sampleRate, b * sampleRate, n as real);
  }

  /** The centred axis starts at -rate/2. */
  lemma CenteredStart(n: nat, sampleRate: real)
    requires 0 < n && n % 2 == 0
    ensures CenteredFrequency(n, sampleRate, 0) == -sampleRate / 2.0
  {
    HalfRate(n, sampleRate);
  }

  lemma ScaleMonotone(a: real, b: real, r: real)
    requires a < b && r > 0.0
    ensures a * r < b * r
  {
    assert (b - a) * r > 0.0;
  }

  lemma QuotientMonotone(x: real, y: real, d: real)
    requires x < y && d > 0.0
    ensures x / d < y / d
  {
  }

  /** -(n/2) * rate / n is -rate/2. */
  lemma HalfRate(n: nat, sampleRate: real)
    requires 0 < n && n % 2 == 0
    ensures ((0 - n / 2) as real) * sampleRate / (n as real) == -sampleRate / 2.0
  {
    var N := n as real;
    assert (0 - n / 2) as real == -(N / 2.0);
  }
}
