/**
  `applyBandpassFilter`: windowed-sinc tap design with a Hamming window,
  followed by a causal direct-form convolution of the channel with the taps.

  `sin` and `cos` are parameters (the model does not interpret them); `Pi` is
  the value of `Math.PI`. The index arithmetic and the convolution are exact.
*/
module Bandpass {

  const Pi: real := 3.141592653589793

  // ---------------------------------------------------------------------------
  // Tap design.
  // ---------------------------------------------------------------------------

  /** `m = i - (filterLength - 1) / 2`, a real division in JavaScript. */
  function Offset(filterLength: nat, i: nat): real
  {
    i as real - (filterLength as real - 1.0) / 2.0
  }

  /** The centre branch is taken exactly at the middle index of an odd-length filter. */
  lemma CentreOffset(filterLength: nat, i: nat)
    ensures Offset(filterLength, i) == 0.0 <==> (filterLength % 2 == 1 && i == (filterLength - 1) / 2)
  {
  }

  /** An even-length filter has no centre tap. */
  lemma EvenLengthHasNoCentre(filterLength: nat)
    requires filterLength % 2 == 0
    ensures forall i: nat :: i < filterLength ==> Offset(filterLength, i) != 0.0
  {
    forall i: nat | i < filterLength
      ensures Offset(filterLength, i) != 0.0
    {
      CentreOffset(filterLength, i);
    }
  }

  /** The ideal band-pass impulse response at offset m != 0, band edges
      already divided by the Nyquist frequency. */
  function BandSinc(sin: real -> real, lo: real, hi: real, m: real): real
    requires m != 0.0
  {
    (sin(2.0 * Pi * hi * m) - sin(2.0 * Pi * lo * m)) / (Pi * m)
  }

  /** The Hamming window at index i of a filter of length at least 2. */
  function Hamming(cos: real -> real, filterLength: nat, i: nat): real
    requires filterLength >= 2
  {
    0.54 - 0.46 * cos(2.0 * Pi * i as real / (filterLength as real - 1.0))
  }

  /** Tap i: the centre value 2 * (hi - lo), elsewhere the windowed sinc. */
  function Tap(sin: real -> real, cos: real -> real, filterLength: nat, i: nat, lo: real, hi: real): real
    requires i < filterLength
  {
    var m := Offset(filterLength, i);
    if m == 0.0 then 2.0 * (hi - lo)
    else BandSinc(sin, lo, hi, m) * Hamming(cos, filterLength, i)
  }

  /** The taps `applyBandpassFilter` designs for the band [passbandStart, passbandEnd] Hz. */
  function DesignedTaps(sin: real -> real, cos: real -> real, filterLength: nat,
                        passbandStart: real, passbandEnd: real, sampleRate: real): (taps: seq<real>)
    requires sampleRate > 0.0
    ensures |taps| == filterLength
  {
    var nyquist := sampleRate / 2.0;
    seq(filterLength, i requires 0 <= i < filterLength =>
      Tap(sin, cos, filterLength, i, passbandStart / nyquist, passbandEnd / nyquist))
  }

  /** The tap loop of `applyBandpassFilter`, filling a fresh array. */
  method DesignTaps(sin: real -> real, cos: real -> real, filterLength: nat,
                    passbandStart: real, passbandEnd: real, sampleRate: real) returns (taps: seq<real>)
    requires sampleRate > 0.0
    ensures taps == DesignedTaps(sin, cos, filterLength, passbandStart, passbandEnd, sampleRate)
    ensures filterLength % 2 == 1 ==>
      taps[(filterLength - 1) / 2] == 2.0 * (passbandEnd / (sampleRate / 2.0) - passbandStart / (sampleRate / 2.0))
  {
    var nyquist := sampleRate / 2.0;
    var normalPassbandStart := passbandStart / nyquist;
    var normalPassbandEnd := passbandEnd / nyquist;
    var a := new real[filterLength];
    for i := 0 to filterLength
      invariant forall k :: 0 <= k < i ==>
        a[k] == Tap(sin, cos, filterLength, k, normalPassbandStart, normalPassbandEnd)
    {
      var m := i as real - (filterLength as real - 1.0) / 2.0;
      if m == 0.0 {
        a[i] := 2.0 * (normalPassbandEnd - normalPassbandStart);
      } else {
        a[i] := BandSinc(sin, normalPassbandStart, normalPassbandEnd, m);
        a[i] := a[i] * Hamming(cos, filterLength, i);
      }
    }
    taps := a[..];
    if filterLength % 2 == 1 {
      CentreOffset(filterLength, (filterLength - 1) / 2);
    }
  }

  // ---------------------------------------------------------------------------
  // Convolution.
  // ---------------------------------------------------------------------------

  /** Term j of output i: `channelData[i - j] * taps[j]` when `i - j >= 0`, else nothing. */
  function Term(x: seq<real>, taps: seq<real>, i: nat, j: nat): real
    requires i < |x| && j < |taps|
  {
    if i - j >= 0 then x[i - j] * taps[j] else 0.0
  }

  /** The running `sum` after the first n passes of the inner loop. */
  function PartialSum(x: seq<real>, taps: seq<real>, i: nat, n: nat): real
    requires i < |x| && n <= |taps|
  {
    if n == 0 then 0.0 else PartialSum(x, taps, i, n - 1) + Term(x, taps, i, n - 1)
  }

  /** Output sample i: the sum over j < |taps| with j <= i of taps[j] * x[i - j]. */
  function ConvAt(x: seq<real>, taps: seq<real>, i: nat): real
    requires i < |x|
  {
    PartialSum(x, taps, i, |taps|)
  }

  /** The convolution loop of `applyBandpassFilter`. */
  method Convolve(channelData: seq<real>, taps: seq<real>) returns (out: seq<real>)
    ensures |out| == |channelData|
    ensures forall i :: 0 <= i < |out| ==> out[i] == ConvAt(channelData, taps, i)
  {
    var filteredData := new real[|channelData|];
    for i := 0 to |channelData|
      invariant forall k :: 0 <= k < i ==> filteredData[k] == ConvAt(channelData, taps, k)
    {
      var sum := 0.0;
      for j := 0 to |taps|
        invariant sum == PartialSum(channelData, taps, i, j)
      {
        if i - j >= 0 {
          sum := sum + channelData[i - j] * taps[j];
        }
      }
      filteredData[i] := sum;
    }
    out := filteredData[..];
  }

  /** `applyBandpassFilter(buffer, filterLength, passbandStart, passbandEnd, sampleRate)`
      on the channel's samples. */
  method ApplyBandpassFilter(sin: real -> real, cos: real -> real, channelData: seq<real>,
                             filterLength: nat, passbandStart: real, passbandEnd: real,
                             sampleRate: real) returns (out: seq<real>)
    requires sampleRate > 0.0
    ensures |out| == |channelData|
    ensures forall i :: 0 <= i < |out| ==>
      out[i] == ConvAt(channelData, DesignedTaps(sin, cos, filterLength, passbandStart, passbandEnd, sampleRate), i)
  {
    var taps := DesignTaps(sin, cos, filterLength, passbandStart, passbandEnd, sampleRate);
    out := Convolve(channelData, taps);
  }

  // ---------------------------------------------------------------------------
  // Properties of the convolution.
  // ---------------------------------------------------------------------------

  lemma {:induction false} PartialSumCausal(x: seq<real>, y: seq<real>, taps: seq<real>, i: nat, n: nat)
    requires i < |x| && i < |y| && n <= |taps|
    requires x[..i + 1] == y[..i + 1]
    ensures PartialSum(x, taps, i, n) == PartialSum(y, taps, i, n)
  {
    if n > 0 {
      PartialSumCausal(x, y, taps, i, n - 1);
      if i - (n - 1) >= 0 {
        assert x[i - (n - 1)] == x[..i + 1][i - (n - 1)];
        assert y[i - (n - 1)] == y[..i + 1][i - (n - 1)];
      }
    }
  }

  /** The filter is causal: output i depends only on the samples 0 .. i. */
  lemma ConvolutionIsCausal(x: seq<real>, y: seq<real>, taps: seq<real>, i: nat)
    requires i < |x| && i < |y|
    requires x[..i + 1] == y[..i + 1]
    ensures ConvAt(x, taps, i) == ConvAt(y, taps, i)
  {
    PartialSumCausal(x, y, taps, i, |taps|);
  }

  lemma {:induction false} PartialSumOfSilence(x: seq<real>, taps: seq<real>, i: nat, n: nat)
    requires i < |x| && n <= |taps|
    requires forall k :: 0 <= k < |x| ==> x[k] == 0.0
    ensures PartialSum(x, taps, i, n) == 0.0
  {
    if n > 0 {
      PartialSumOfSilence(x, taps, i, n - 1);
    }
  }

  /** Silence in, silence out, whatever the taps. */
  lemma ConvolutionOfSilence(x: seq<real>, taps: seq<real>)
    requires forall k :: 0 <= k < |x| ==> x[k] == 0.0
    ensures forall i :: 0 <= i < |x| ==> ConvAt(x, taps, i) == 0.0
  {
    forall i | 0 <= i < |x|
      ensures ConvAt(x, taps, i) == 0.0
    {
      PartialSumOfSilence(x, taps, i, |taps|);
    }
  }

  predicate IsUnitImpulse(x: seq<real>)
  {
    |x| > 0 && x[0] == 1.0 && forall k :: 1 <= k < |x| ==> x[k] == 0.0
  }

  lemma {:induction false} PartialSumOfImpulse(x: seq<real>, taps: seq<real>, i: nat, n: nat)
    requires IsUnitImpulse(x) && i < |x| && n <= |taps|
    ensures PartialSum(x, taps, i, n) == if i < n then taps[i] else 0.0
  {
    if n > 0 {
      PartialSumOfImpulse(x, taps, i, n - 1);
    }
  }

  /** The response to a unit impulse is the tap sequence, then zeros. */
  lemma ImpulseResponse(x: seq<real>, taps: seq<real>)
    requires IsUnitImpulse(x)
    ensures forall i :: 0 <= i < |x| ==> ConvAt(x, taps, i) == if i < |taps| then taps[i] else 0.0
  {
    forall i | 0 <= i < |x|
      ensures ConvAt(x, taps, i) == if i < |taps| then taps[i] else 0.0
    {
      PartialSumOfImpulse(x, taps, i, |taps|);
    }
  }
}
