/**
  `applyWienerFilter`: a per-sample gain from a three-sample neighbourhood and
  one noise-power estimate for the whole channel.

  The formula is modelled as JavaScript evaluates it, not as its names suggest:
  - `localMean = prev + value + next / 3` (only `next` is divided by 3);
  - `channelData[index - 1] || 0 - localMean` is `prev || (0 - localMean)`:
    the neighbour itself when it exists and is non-zero, `-localMean` otherwise;
  - only the third squared term of `localVariance` is divided by 3;
  - `noisePower` is the mean square of the whole channel, so a silent channel
    makes every gain `0 / 0`, i.e. NaN. `WienerFilter` returns `None` exactly
    then, standing for a channel of NaN samples.

  `CorrectedWienerFilter` is the evidently intended filter (a true local mean
  and variance, and gain 0 when both powers are 0), kept apart from the model
  of the code.
*/
module Wiener {

  datatype Option<T> = None | Some(value: T)

  function Abs(v: real): real { if v < 0.0 then -v else v }

  /** `Math.max(a, b)` */
  function Max(a: real, b: real): real { if a >= b then a else b }

  /** `Math.pow(v, 2)`, also `val * val` */
  function Sq(v: real): (r: real)
    ensures r >= 0.0
  {
    v * v
  }

  predicate Positive(t: real) { t > 0.0 }

  lemma ProductPositive(v: real)
    requires v != 0.0
    ensures Positive(v * v)
  {
  }

  /** Only 0 squares to 0. */
  lemma SqPositive(v: real)
    requires v != 0.0
    ensures Sq(v) > 0.0
  {
    ProductPositive(v);
    assert Positive(Sq(v));
  }

  lemma MulNonneg(a: real, b: real)
    requires a >= 0.0 && b >= 0.0
    ensures a * b >= 0.0
  {
  }

  lemma MulPos(a: real, b: real)
    requires a > 0.0 && b > 0.0
    ensures a * b > 0.0
  {
  }

  /** `channelData[k]`: `undefined` outside the array. */
  function Read(x: seq<real>, k: int): Option<real>
  {
    if 0 <= k < |x| then Some(x[k]) else None
  }

  /** `a || b` for a Float32Array read: a falsy `a` (undefined or 0) gives `b`. */
  function Or(a: Option<real>, b: real): real
  {
    if a.Some? && a.value != 0.0 then a.value else b
  }

  /** `channelData.reduce((acc, val) => acc + val * val, 0)` */
  function SumSquares(x: seq<real>): real
  {
    if |x| == 0 then 0.0 else SumSquares(x[..|x| - 1]) + Sq(x[|x| - 1])
  }

  lemma {:induction false} SumSquaresSign(x: seq<real>)
    ensures SumSquares(x) >= 0.0
    ensures SumSquares(x) == 0.0 <==> forall i :: 0 <= i < |x| ==> x[i] == 0.0
  {
    if |x| > 0 {
      var init := x[..|x| - 1];
      SumSquaresSign(init);
      if x[|x| - 1] != 0.0 {
        SqPositive(x[|x| - 1]);
      }
      if SumSquares(x) == 0.0 {
        forall i | 0 <= i < |x|
          ensures x[i] == 0.0
        {
          if i < |x| - 1 {
            assert x[i] == init[i];
          }
        }
      }
      if forall i :: 0 <= i < |x| ==> x[i] == 0.0 {
        assert forall i :: 0 <= i < |init| ==> init[i] == x[i];
      }
    }
  }

  /** The global estimate `noisePower`: the mean square of the channel. */
  function NoisePower(x: seq<real>): (p: real)
    requires |x| > 0
    ensures p >= 0.0
    ensures p == 0.0 <==> forall i :: 0 <= i < |x| ==> x[i] == 0.0
  {
    SumSquaresSign(x);
    SumSquares(x) / |x| as real
  }

  /** `localMean`, as written. */
  function LocalMean(x: seq<real>, i: nat): real
    requires i < |x|
  {
    Or(Read(x, i - 1), 0.0) + x[i] + Or(Read(x, i + 1), 0.0) / 3.0
  }

  /** `localVariance`, as written. */
  function LocalVariance(x: seq<real>, i: nat): (v: real)
    requires i < |x|
    ensures v >= 0.0
  {
    var m := LocalMean(x, i);
    Sq(Or(Read(x, i - 1), 0.0 - m)) + Sq(x[i] - m) + Sq(Or(Read(x, i + 1), 0.0 - m)) / 3.0
  }

  /** `signalPower = Math.max(localVariance - noisePower, 0)` */
  function SignalPower(x: seq<real>, i: nat, noisePower: real): (p: real)
    requires i < |x|
    ensures p >= 0.0
    ensures p == 0.0 <==> LocalVariance(x, i) <= noisePower
  {
    Max(LocalVariance(x, i) - noisePower, 0.0)
  }

  lemma FractionBelowOne(a: real, d: real)
    requires 0.0 <= a < d
    ensures 0.0 <= a / d < 1.0
    ensures a / d == 0.0 <==> a == 0.0
  {
    var q := a / d;
    assert q * d == a;
    if q >= 1.0 {
      MulNonneg(q - 1.0, d);
    }
    if q < 0.0 {
      MulPos(-q, d);
    }
  }

  /** `gain = signalPower / (signalPower + noisePower)`, defined when noisePower > 0. */
  function Gain(x: seq<real>, i: nat, noisePower: real): (g: real)
    requires i < |x| && noisePower > 0.0
    ensures 0.0 <= g < 1.0
    ensures g == 0.0 <==> LocalVariance(x, i) <= noisePower
  {
    var sp := SignalPower(x, i, noisePower);
    FractionBelowOne(sp, sp + noisePower);
    sp / (sp + noisePower)
  }

  lemma ScaleShrinks(g: real, v: real)
    requires 0.0 <= g <= 1.0
    ensures Abs(g * v) <= Abs(v)
    ensures g * v == 0.0 || (g * v < 0.0 <==> v < 0.0)
  {
    if v < 0.0 {
      assert g * v >= v;
    } else {
      assert g * v <= v;
    }
  }

  /** `applyWienerFilter(buffer)` on the channel's samples. `None` stands for
      the all-NaN channel produced when every gain is `0 / 0`. */
  function WienerFilter(x: seq<real>): (r: Option<seq<real>>)
    ensures r.None? <==> |x| > 0 && forall i :: 0 <= i < |x| ==> x[i] == 0.0
    ensures r.Some? ==> |r.value| == |x|
  {
    if |x| == 0 then Some([])
    else
      var noisePower := NoisePower(x);
      if noisePower == 0.0 then None
      else Some(seq(|x|, i requires 0 <= i < |x| => Gain(x, i, noisePower) * x[i]))
  }

  /** Each output sample is the input scaled by a gain in [0, 1): no sample
      grows or changes sign, and a sample whose neighbourhood is no louder
      than the noise estimate is silenced. */
  lemma WienerShrinks(x: seq<real>, i: nat)
    requires i < |x| && WienerFilter(x).Some?
    ensures var out := WienerFilter(x).value;
      && Abs(out[i]) <= Abs(x[i])
      && (out[i] == 0.0 || (out[i] < 0.0 <==> x[i] < 0.0))
      && (LocalVariance(x, i) <= NoisePower(x) ==> out[i] == 0.0)
  {
    var g := Gain(x, i, NoisePower(x));
    assert WienerFilter(x).value[i] == g * x[i];
    ScaleShrinks(g, x[i]);
  }

  /** As written, a constant signal is not silenced: [1, 1, 1] comes out as
      [11/20, 19/28, 7/10]. */
  lemma ConstantSignalPassesThrough()
    ensures WienerFilter([1.0, 1.0, 1.0]) == Some([11.0 / 20.0, 19.0 / 28.0, 7.0 / 10.0])
  {
    var x := [1.0, 1.0, 1.0];
    assert SumSquares(x) == 3.0 by {
      assert x[..2] == [1.0, 1.0] && x[..2][..1] == [1.0] && [1.0][..0] == [];
    }
    assert NoisePower(x) == 1.0;
    assert LocalMean(x, 0) == 4.0 / 3.0;
    assert LocalVariance(x, 0) == 20.0 / 9.0;
    assert LocalMean(x, 1) == 7.0 / 3.0;
    assert LocalVariance(x, 1) == 28.0 / 9.0;
    assert LocalMean(x, 2) == 2.0;
    assert LocalVariance(x, 2) == 10.0 / 3.0;
    assert Gain(x, 0, 1.0) == 11.0 / 20.0;
    assert Gain(x, 1, 1.0) == 19.0 / 28.0;
    assert Gain(x, 2, 1.0) == 7.0 / 10.0;
    var out := WienerFilter(x).value;
    assert out[0] == 11.0 / 20.0 && out[1] == 19.0 / 28.0 && out[2] == 7.0 / 10.0;
    assert out == [11.0 / 20.0, 19.0 / 28.0, 7.0 / 10.0];
  }

  // ---------------------------------------------------------------------------
  // The evidently intended filter.
  // ---------------------------------------------------------------------------

  /** A neighbour, 0 outside the channel. */
  function Neighbour(x: seq<real>, k: int): real
  {
    if 0 <= k < |x| then x[k] else 0.0
  }

  /** The variance of the three-sample window around i about its mean. */
  function WindowVariance(x: seq<real>, i: nat): (v: real)
    requires i < |x|
    ensures v >= 0.0
  {
    var p, n := Neighbour(x, i - 1), Neighbour(x, i + 1);
    var m := (p + x[i] + n) / 3.0;
    (Sq(p - m) + Sq(x[i] - m) + Sq(n - m)) / 3.0
  }

  /** The gain with 0 / 0 read as 0. */
  function GuardedGain(signalPower: real, noisePower: real): (g: real)
    requires signalPower >= 0.0 && noisePower >= 0.0
    ensures 0.0 <= g <= 1.0
    ensures signalPower == 0.0 ==> g == 0.0
  {
    if signalPower + noisePower == 0.0 then 0.0 else signalPower / (signalPower + noisePower)
  }

  /** Output sample i of the intended filter, given the channel's noise power. */
  function CorrectedSample(x: seq<real>, noisePower: real, i: nat): (r: real)
    requires i < |x| && noisePower >= 0.0
    ensures Abs(r) <= Abs(x[i])
    ensures WindowVariance(x, i) <= noisePower ==> r == 0.0
  {
    var g := GuardedGain(Max(WindowVariance(x, i) - noisePower, 0.0), noisePower);
    ScaleShrinks(g, x[i]);
    g * x[i]
  }

  function CorrectedWienerFilter(x: seq<real>): (out: seq<real>)
    ensures |out| == |x|
    ensures forall i :: 0 <= i < |x| ==> Abs(out[i]) <= Abs(x[i])
  {
    if |x| == 0 then []
    else
      var noisePower := NoisePower(x);
      seq(|x|, i requires 0 <= i < |x| => CorrectedSample(x, noisePower, i))
  }

  lemma {:induction false} SumSquaresOfConstant(x: seq<real>, c: real)
    requires forall i :: 0 <= i < |x| ==> x[i] == c
    ensures SumSquares(x) == |x| as real * (c * c)
  {
    if |x| > 0 {
      SumSquaresOfConstant(x[..|x| - 1], c);
    }
  }

  /** Around any sample of a constant signal c the window holds c and zeros,
      whose variance is at most 2c^2/9. */
  lemma ConstantWindowVariance(x: seq<real>, i: nat, c: real)
    requires i < |x|
    requires forall k :: 0 <= k < |x| ==> x[k] == c
    ensures WindowVariance(x, i) <= c * c
  {
    var p, n := Neighbour(x, i - 1), Neighbour(x, i + 1);
    assert p == 0.0 || p == c;
    assert n == 0.0 || n == c;
    var m := (p + c + n) / 3.0;
    if p == c && n == c {
      assert m == c;
    } else if p == c || n == c {
      assert m == 2.0 * c / 3.0;
      assert WindowVariance(x, i) == 2.0 * (c * c) / 9.0;
    } else {
      assert m == c / 3.0;
      assert WindowVariance(x, i) == 2.0 * (c * c) / 9.0;
    }
  }

  /** The intended filter silences a constant signal, silence included. */
  lemma CorrectedConstantSignalSilenced(x: seq<real>, c: real)
    requires forall k :: 0 <= k < |x| ==> x[k] == c
    ensures forall i :: 0 <= i < |x| ==> CorrectedWienerFilter(x)[i] == 0.0
  {
    if |x| > 0 {
      SumSquaresOfConstant(x, c);
      assert NoisePower(x) == c * c;
      var noisePower := NoisePower(x);
      forall i | 0 <= i < |x|
        ensures CorrectedWienerFilter(x)[i] == 0.0
      {
        ConstantWindowVariance(x, i, c);
        assert CorrectedWienerFilter(x)[i] == CorrectedSample(x, noisePower, i);
      }
    }
  }
}
