/**
  `applyAdaptiveFilter`: an LMS loop whose desired signal is the input itself.

  For each i with i < length - filterLength the filter predicts y from the
  window x[i .. i + filterLength) with its current weights, takes the error
  e = x[i] - y, moves every weight by 0.0001 * e * window[j], and stores y as
  output i. The last filterLength outputs (all of them for a short input) are
  never written and stay 0.

  `Weights` and `LmsOutput` state the loop's effect as functions; the method
  `ApplyAdaptiveFilter` updates the weight array in place and is proved to
  produce `LmsOutput`.
*/
module Adaptive {

  /** The hard-coded `stepSize`. */
  const StepSize: real := 0.0001

  /** `filterWeights.reduce((sum, weight, j) => sum + weight * x[j], 0)` */
  function Dot(w: seq<real>, x: seq<real>): real
    requires |w| <= |x|
  {
    if |w| == 0 then 0.0 else Dot(w[..|w| - 1], x) + w[|w| - 1] * x[|w| - 1]
  }

  /** The weight update `w[j] += stepSize * e * x[j]` for every j. */
  function Adapt(w: seq<real>, x: seq<real>, e: real): (r: seq<real>)
    requires |w| <= |x|
    ensures |r| == |w|
  {
    seq(|w|, j requires 0 <= j < |w| => w[j] + StepSize * e * x[j])
  }

  function Zeros(n: nat): (z: seq<real>)
    ensures |z| == n
  {
    seq(n, _ => 0.0)
  }

  /** How often the loop body runs: `for (i = 0; i < length - filterLength; i++)`. */
  function Steps(length: nat, filterLength: nat): nat
  {
    if length > filterLength then length - filterLength else 0
  }

  /** The weights after the first k passes of the loop. */
  function Weights(x: seq<real>, filterLength: nat, k: nat): (w: seq<real>)
    requires k <= Steps(|x|, filterLength)
    ensures |w| == filterLength
  {
    if k == 0 then Zeros(filterLength)
    else
      var w := Weights(x, filterLength, k - 1);
      var window := x[k - 1..k - 1 + filterLength];
      Adapt(w, window, x[k - 1] - Dot(w, window))
  }

  lemma WeightsStep(x: seq<real>, filterLength: nat, k: nat)
    requires k < Steps(|x|, filterLength)
    ensures var w := Weights(x, filterLength, k);
      var window := x[k..k + filterLength];
      && LmsSample(x, filterLength, k) == Dot(w, window)
      && Weights(x, filterLength, k + 1) == Adapt(w, window, x[k] - Dot(w, window))
  {
  }

  /** Output i: the prediction of pass i, or 0 where no pass ran. */
  function LmsSample(x: seq<real>, filterLength: nat, i: nat): real
  {
    if i < Steps(|x|, filterLength)
    then Dot(Weights(x, filterLength, i), x[i..i + filterLength])
    else 0.0
  }

  /** The filtered channel. */
  function LmsOutput(x: seq<real>, filterLength: nat): (out: seq<real>)
    ensures |out| == |x|
  {
    seq(|x|, i requires 0 <= i < |x| => LmsSample(x, filterLength, i))
  }

  lemma AdaptAt(w: seq<real>, x: seq<real>, e: real, j: nat)
    requires |w| <= |x| && j < |w|
    ensures Adapt(w, x, e)[j] == w[j] + StepSize * e * x[j]
  {
  }

  /** The inner loop: `filterWeights[j] += stepSize * e * x[j]` for every j. */
  method UpdateWeights(filterWeights: array<real>, x: seq<real>, e: real)
    requires filterWeights.Length <= |x|
    modifies filterWeights
    ensures filterWeights[..] == Adapt(old(filterWeights[..]), x, e)
  {
    ghost var before := filterWeights[..];
    for j := 0 to filterWeights.Length
      invariant forall t :: 0 <= t < j ==> filterWeights[t] == Adapt(before, x, e)[t]
      invariant forall t :: j <= t < filterWeights.Length ==> filterWeights[t] == before[t]
    {
      AdaptAt(before, x, e, j);
      filterWeights[j] := filterWeights[j] + StepSize * e * x[j];
    }
  }

  /** `applyAdaptiveFilter(buffer, filterLength, sampleRate)` on the channel's
      samples (the sample rate is not used by the source). */
  method ApplyAdaptiveFilter(channelData: seq<real>, filterLength: nat) returns (out: seq<real>)
    ensures out == LmsOutput(channelData, filterLength)
    ensures forall k :: Steps(|channelData|, filterLength) <= k < |out| ==> out[k] == 0.0
  {
    var desiredSignal := channelData;
    var filteredData := new real[|channelData|](_ => 0.0);
    var filterWeights := new real[filterLength](_ => 0.0);
    ghost var steps := Steps(|channelData|, filterLength);

    var i := 0;
    while i < |channelData| - filterLength
      invariant 0 <= i <= steps
      invariant filterWeights[..] == Weights(channelData, filterLength, i)
      invariant forall k :: 0 <= k < i ==> filteredData[k] == LmsSample(channelData, filterLength, k)
      invariant forall k :: i <= k < |channelData| ==> filteredData[k] == 0.0
    {
      var x := channelData[i..i + filterLength];
      var y := Dot(filterWeights[..], x);
      var e := desiredSignal[i] - y;
      WeightsStep(channelData, filterLength, i);

      UpdateWeights(filterWeights, x, e);
      filteredData[i] := y;
      i := i + 1;
    }
    out := filteredData[..];
    assert forall k :: 0 <= k < |out| ==> out[k] == LmsSample(channelData, filterLength, k);
  }

  // ---------------------------------------------------------------------------
  // Properties.
  // ---------------------------------------------------------------------------

  lemma {:induction false} DotOfZeros(w: seq<real>, x: seq<real>)
    requires |w| <= |x|
    requires forall j :: 0 <= j < |w| ==> w[j] == 0.0
    ensures Dot(w, x) == 0.0
  {
    if |w| > 0 {
      DotOfZeros(w[..|w| - 1], x);
    }
  }

  lemma {:induction false} DotWithZeros(w: seq<real>, x: seq<real>)
    requires |w| <= |x|
    requires forall j :: 0 <= j < |x| ==> x[j] == 0.0
    ensures Dot(w, x) == 0.0
  {
    if |w| > 0 {
      DotWithZeros(w[..|w| - 1], x);
    }
  }

  /** The weights start at zero, so the first prediction is 0. */
  lemma FirstOutputIsZero(x: seq<real>, filterLength: nat)
    requires |x| > 0
    ensures LmsOutput(x, filterLength)[0] == 0.0
  {
    if 0 < Steps(|x|, filterLength) {
      DotOfZeros(Weights(x, filterLength, 0), x[0..filterLength]);
    }
  }

  lemma {:induction false} WeightsOfSilence(x: seq<real>, filterLength: nat, k: nat)
    requires k <= Steps(|x|, filterLength)
    requires forall j :: 0 <= j < |x| ==> x[j] == 0.0
    ensures Weights(x, filterLength, k) == Zeros(filterLength)
  {
    if k > 0 {
      WeightsOfSilence(x, filterLength, k - 1);
      var window := x[k - 1..k - 1 + filterLength];
      DotWithZeros(Zeros(filterLength), window);
    }
  }

  /** Silence in: the weights never move and every output is 0. */
  lemma LmsOfSilence(x: seq<real>, filterLength: nat)
    requires forall j :: 0 <= j < |x| ==> x[j] == 0.0
    ensures Weights(x, filterLength, Steps(|x|, filterLength)) == Zeros(filterLength)
    ensures forall i :: 0 <= i < |x| ==> LmsOutput(x, filterLength)[i] == 0.0
  {
    WeightsOfSilence(x, filterLength, Steps(|x|, filterLength));
    forall i | 0 <= i < |x|
      ensures LmsOutput(x, filterLength)[i] == 0.0
    {
      if i < Steps(|x|, filterLength) {
        WeightsOfSilence(x, filterLength, i);
        DotOfZeros(Weights(x, filterLength, i), x[i..i + filterLength]);
      }
    }
  }

  lemma DotLast(w: seq<real>, x: seq<real>)
    requires 0 < |w| <= |x|
    ensures Dot(w, x) == Dot(w[..|w| - 1], x) + w[|w| - 1] * x[|w| - 1]
  {
  }

  lemma RegroupStep(a: real, b: real, c: real, wn: real, xn: real)
    ensures a + c * b + (wn + c * xn) * xn == (a + wn * xn) + c * (b + xn * xn)
  {
  }

  /** The update moves the prediction on x by stepSize * e * |x|^2. */
  lemma {:induction false} DotOfAdapt(w: seq<real>, x: seq<real>, e: real)
    requires |w| <= |x|
    ensures Dot(Adapt(w, x, e), x) == Dot(w, x) + StepSize * e * Dot(x[..|w|], x)
  {
    var n := |w|;
    if n > 0 {
      var u := Adapt(w, x, e);
      assert u[..n - 1] == Adapt(w[..n - 1], x, e);
      assert x[..n][..n - 1] == x[..n - 1];
      DotOfAdapt(w[..n - 1], x, e);
      DotLast(u, x);
      DotLast(x[..n], x);
      DotLast(w, x);
      AdaptAt(w, x, e, n - 1);
      RegroupStep(Dot(w[..n - 1], x), Dot(x[..n - 1], x), StepSize * e, w[n - 1], x[n - 1]);
    }
  }
}
