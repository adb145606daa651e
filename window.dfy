/**
 * applyWindow: pick a window by name, fill its coefficients, and multiply the
 * signal by it sample by sample.
 *
 * The name is lower-cased and must then be one of hann, hamming or blackman;
 * any other name is an error carrying the message the source throws. The
 * cosine terms are opaque: cosine(m, i, n) stands for Math.cos(m * PI * i / (n - 1)),
 * including whatever that is when n = 1.
 */
module Windowing {

  datatype WindowKind = Hann | Hamming | Blackman

  datatype Option<T> = None | Some(value: T)

  datatype Result<T> = Ok(value: T) | Err(message: string)

  /** The window applied when the caller gives no name. */
  const DefaultWindowType: string := "hann"

  /** String.prototype.toLowerCase on one character, for the ASCII letters. */
  function ToLowerChar(c: char): char
  {
    if 'A' <= c <= 'Z' then (c as int + 32) as char else c
  }

  function ToLower(s: string): (r: string)
    ensures |r| == |s|
  {
    seq(|s|, i requires 0 <= i < |s| => ToLowerChar(s[i]))
  }

  function Name(kind: WindowKind): string
  {
    match kind
    case Hann => "hann"
    case Hamming => "hamming"
    case Blackman => "blackman"
  }

  /** The switch on windowType.toLowerCase(). */
  function ParseWindowType(windowType: string): Option<WindowKind>
  {
    var key := ToLower(windowType);
    if key == "hann" then Some(Hann)
    else if key == "hamming" then Some(Hamming)
    else if key == "blackman" then Some(Blackman)
    else None
  }

  /** The text of the error thrown for an unknown name; it quotes the name as given. */
  function UnknownWindowMessage(windowType: string): (m: string)
    ensures |m| == |windowType| + 60
    ensures m[..21] == "Unknown window type: "
    ensures m[21..21 + |windowType|] == windowType
    ensures m[21 + |windowType|..] == ". Use 'hann', 'hamming', or 'blackman'."
  {
    "Unknown window type: " + windowType + ". Use 'hann', 'hamming', or 'blackman'."
  }

  /** The closed-form coefficient of each window, over the opaque cosine terms. */
  function Coefficient(kind: WindowKind, n: nat, i: nat, cosine: (nat, nat, nat) -> real): real
  {
    match kind
    case Hann => 0.5 * (1.0 - cosine(2, i, n))
    case Hamming => 0.54 - 0.46 * cosine(2, i, n)
    case Blackman => 0.42 - 0.5 * cosine(2, i, n) + 0.08 * cosine(4, i, n)
  }

  /** A lower-cased string has no upper-case ASCII letter left, and lowering again changes nothing. */
  lemma ToLowerIdempotent(s: string)
    ensures |ToLower(s)| == |s|
    ensures forall i :: 0 <= i < |s| ==> !('A' <= ToLower(s)[i] <= 'Z')
    ensures ToLower(ToLower(s)) == ToLower(s)
  {
  }

  /** A name is accepted exactly when its lower-cased form is one of the three names. */
  lemma ParseWindowTypeSpec(windowType: string, kind: WindowKind)
    ensures ParseWindowType(windowType) == Some(kind) <==> ToLower(windowType) == Name(kind)
    ensures ParseWindowType(windowType) == None <==>
      ToLower(windowType) != "hann" && ToLower(windowType) != "hamming" && ToLower(windowType) != "blackman"
  {
  }

  /** Each window's own name selects it. */
  lemma ParseName(kind: WindowKind)
    ensures ParseWindowType(Name(kind)) == Some(kind)
  {
    var name := Name(kind);
    assert ToLower(name) == name;
  }

  /** The match ignores ASCII case. */
  lemma ParseIgnoresCase(windowType: string)
    ensures ParseWindowType(ToLower(windowType)) == ParseWindowType(windowType)
  {
    ToLowerIdempotent(windowType);
  }

  lemma ParseExamples()
    ensures ParseWindowType(DefaultWindowType) == Some(Hann)
    ensures ParseWindowType("Hann") == Some(Hann)
    ensures ParseWindowType("HAMMING") == Some(Hamming)
    ensures ParseWindowType("BlackMan") == Some(Blackman)
    ensures ParseWindowType("flattop") == None
    ensures ParseWindowType("hanning") == None
  {
    assert ToLower(DefaultWindowType) == "hann";
    assert ToLower("Hann") == "hann";
    assert ToLower("HAMMING") == "hamming";
    assert ToLower("BlackMan") == "blackman";
    assert ToLower("flattop") == "flattop";
    assert ToLower("hanning") == "hanning";
  }

  /**
   * Only ASCII letters are lowered: the Kelvin sign U+212A, which full Unicode
   * lowering maps to 'k', stays as it is, so this spelling names no window.
   */
  lemma ParseKeepsNonAscii()
    ensures ToLowerChar('\U{212A}') == '\U{212A}'
    ensures ParseWindowType("blac\U{212A}man") == None
  {
    assert ToLower("blac\U{212A}man") == "blac\U{212A}man";
  }

  /**
   * cos(m * PI * (n - 1 - i) / (n - 1)) = cos(m * PI * i / (n - 1)) for even m,
   * since the two angles add up to m * PI. From that property of the cosine
   * alone, every window is symmetric about its middle.
   */
  lemma CoefficientSymmetric(kind: WindowKind, n: nat, i: nat, cosine: (nat, nat, nat) -> real)
    requires i < n
    requires forall m: nat, k: nat :: m % 2 == 0 && k < n ==> cosine(m, k, n) == cosine(m, n - 1 - k, n)
    ensures Coefficient(kind, n, i, cosine) == Coefficient(kind, n, n - 1 - i, cosine)
  {
    assert cosine(2, i, n) == cosine(2, n - 1 - i, n);
    assert cosine(4, i, n) == cosine(4, n - 1 - i, n);
  }

  /** With cos(0) = 1 the Hann window starts at zero and the Hamming window at 0.08. */
  lemma CoefficientAtZero(n: nat, cosine: (nat, nat, nat) -> real)
    requires cosine(2, 0, n) == 1.0
    ensures Coefficient(Hann, n, 0, cosine) == 0.0
    ensures Coefficient(Hamming, n, 0, cosine) == 0.08
  {
  }

  /** The per-kind loop that fills the window buffer. */
  method FillWindow(window: array<real>, kind: WindowKind, cosine: (nat, nat, nat) -> real)
    modifies window
    ensures forall i :: 0 <= i < window.Length ==> window[i] == Coefficient(kind, window.Length, i, cosine)
  {
    var n := window.Length;
    for i := 0 to n
      invariant forall k :: 0 <= k < i ==> window[k] == Coefficient(kind, n, k, cosine)
    {
      window[i] := Coefficient(kind, n, i, cosine);
    }
  }

  /** applyWindow as written: dispatch on the name, fill the window, multiply elementwise. */
  method ApplyWindow(signal: seq<real>, cosine: (nat, nat, nat) -> real, windowType: string := DefaultWindowType)
    returns (r: Result<seq<real>>)
    ensures r.Err? <==> ParseWindowType(windowType) == None
    ensures r.Err? ==> r.message == UnknownWindowMessage(windowType)
    ensures r.Ok? ==> |r.value| == |signal|
    ensures r.Ok? ==> forall i :: 0 <= i < |signal| ==>
      r.value[i] == signal[i] * Coefficient(ParseWindowType(windowType).value, |signal|, i, cosine)
  {
    var n := |signal|;
    var window := new real[n];
    match ParseWindowType(windowType)
    case None =>
      return Err(UnknownWindowMessage(windowType));
    case Some(kind) =>
      FillWindow(window, kind, cosine);
      r := Ok(seq(n, i requires 0 <= i < n reads window => signal[i] * window[i]));
  }
}
