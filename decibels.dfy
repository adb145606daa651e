/**
 * toDecibels: 20 * log10 of each sample's magnitude, with the magnitude
 * clamped from below at 10^(minDb / 20) so that silence maps to minDb = -120 dB
 * rather than -Infinity. Math.log10 is opaque: a function parameter.
 */
module Decibels {

  /** The lowest level the conversion produces, in dB. */
  const MinDb: int := -120

  /** 10^e for an integer exponent: Math.pow(10, e). */
  function Pow10(e: int): (r: real)
    ensures r > 0.0
    decreases if e < 0 then -e else e
  {
    if e == 0 then 1.0
    else if e > 0 then 10.0 * Pow10(e - 1)
    else Pow10(e + 1) / 10.0
  }

  /** Math.pow(10, minDb / 20), the smallest magnitude handed to log10. */
  function Floor(): (f: real)
    ensures f > 0.0
  {
    Pow10(MinDb / 20)
  }

  function Abs(x: real): real
  {
    if x < 0.0 then -x else x
  }

  /** Math.max(Math.abs(x), floor). */
  function LogArgument(x: real): (r: real)
    ensures r >= Floor() && r >= Abs(x)
    ensures r == Abs(x) || r == Floor()
  {
    if Abs(x) >= Floor() then Abs(x) else Floor()
  }

  /** toDecibels over the opaque log10. */
  function ToDecibels(signal: seq<real>, log10: real -> real): (r: seq<real>)
    ensures |r| == |signal|
  {
    seq(|signal|, i requires 0 <= i < |signal| => 20.0 * log10(LogArgument(signal[i])))
  }

  /** The floor is exactly one millionth. */
  lemma FloorIsOneMillionth()
    ensures Floor() == 0.000001
  {
    assert MinDb / 20 == -6;
    assert Pow10(-1) == 0.1;
    assert Pow10(-2) == 0.01;
    assert Pow10(-3) == 0.001;
    assert Pow10(-4) == 0.0001;
    assert Pow10(-5) == 0.00001;
    assert Pow10(-6) == 0.000001;
  }

  /** log10 only ever sees arguments of at least 1e-6, and sees |x| itself once |x| reaches 1e-6. */
  lemma LogArgumentClamp(x: real)
    ensures LogArgument(x) >= 0.000001
    ensures Abs(x) >= 0.000001 ==> LogArgument(x) == Abs(x)
    ensures Abs(x) < 0.000001 ==> LogArgument(x) == 0.000001
  {
    FloorIsOneMillionth();
  }

  /** Samples of magnitude at least 1e-6 convert exactly; smaller ones convert as 1e-6 would. */
  lemma DecibelsPerSample(signal: seq<real>, log10: real -> real, i: nat)
    requires i < |signal|
    ensures Abs(signal[i]) >= 0.000001 ==> ToDecibels(signal, log10)[i] == 20.0 * log10(Abs(signal[i]))
    ensures Abs(signal[i]) < 0.000001 ==> ToDecibels(signal, log10)[i] == 20.0 * log10(0.000001)
  {
    LogArgumentClamp(signal[i]);
  }

  /**
   * For a log10 that is monotone on positive arguments and gives -6 at 1e-6,
   * no output falls below MinDb, and silence maps to MinDb exactly.
   */
  lemma DecibelsAtLeastMinDb(signal: seq<real>, log10: real -> real)
    requires forall x, y :: 0.0 < x <= y ==> log10(x) <= log10(y)
    requires log10(0.000001) == -6.0
    ensures forall i :: 0 <= i < |signal| ==> ToDecibels(signal, log10)[i] >= MinDb as real
    ensures forall i :: 0 <= i < |signal| && signal[i] == 0.0 ==> ToDecibels(signal, log10)[i] == MinDb as real
  {
    forall i | 0 <= i < |signal|
      ensures ToDecibels(signal, log10)[i] >= MinDb as real
    {
      LogArgumentClamp(signal[i]);
      assert log10(0.000001) <= log10(LogArgument(signal[i]));
    }
    forall i | 0 <= i < |signal| && signal[i] == 0.0
      ensures ToDecibels(signal, log10)[i] == MinDb as real
    {
      LogArgumentClamp(signal[i]);
    }
  }
}
