/** `_getBlockGradient(numParams, sample, block)` of `lib/worker.js`: the reward-weighted
    sum of the perturbations a block refers to, rebuilt from their noise indices. */
module BlockGradient {
  import opened JsArray
  import opened JsErrors
  import opened Protocol
  import CachedNoise

  /** `stdev(rewards) || 0.000001`: a zero standard deviation is replaced by the floor 1e-6. */
  function StdFloor(sd: real): (r: real)
    ensures r != 0.0
    ensures sd != 0.0 ==> r == sd
  {
    if sd == 0.0 then 0.000001 else sd
  }

  /** `rewards.map((r, k) => (r - mean) / std)`. */
  function NormalizedReturns(rs: seq<real>, std: real): (nr: seq<real>)
    requires |rs| > 0 && std != 0.0
    ensures |nr| == |rs|
  {
    seq(|rs|, k requires 0 <= k < |rs| => (rs[k] - Mean(rs)) / std)
  }

  /** Entry `j` of a vector, 0 past its end: a short noise vector contributes nothing there. */
  function At(v: seq<real>, j: nat): real
  {
    if j < |v| then v[j] else 0.0
  }

  /** One noise entry scaled by its episode's normalized return (`v * normalizedReturns[k]`). */
  function Weighted(v: real, w: real): real
  {
    v * w
  }

  /** `sum over k of weights[k] * noises[k][j]`, the entry `j` of the gradient. */
  function Contribution(noises: seq<seq<real>>, weights: seq<real>, j: nat): real
    requires |noises| == |weights|
  {
    if weights == [] then 0.0
    else
      var n := |weights| - 1;
      Contribution(noises[..n], weights[..n], j) + Weighted(At(noises[n], j), weights[n])
  }

  /** The perturbation of every episode, as the worker's sampler rebuilds it. */
  function Noises(sampler: CachedNoise.Sampler, block: Block): (ns: seq<seq<real>>)
    ensures |ns| == |block|
  {
    seq(|block|, k requires 0 <= k < |block| => sampler.Sample(block[k].noiseIndex))
  }

  /** What `_getBlockGradient` returns: a `numParams`-long vector whose entry `j` is the
      normalized-return-weighted sum of entry `j` of the episodes' noise vectors; an empty
      block throws, because `reduce` has no initial value. */
  function Gradient(sampler: CachedNoise.Sampler, stdev: seq<real> -> real, block: Block): (r: Result<seq<real>>)
  {
    if block == [] then Throw(ReduceOfEmptyArray)
    else
      var rs := Rewards(block);
      var nr := NormalizedReturns(rs, StdFloor(stdev(rs)));
      Ok(seq(sampler.numParams, j requires 0 <= j => Contribution(Noises(sampler, block), nr, j)))
  }

  /** `gradient.forEach((grad, index) => { gradients[index] += grad })` with
      `gradient = noiseVector.map(v => v * weight)`. */
  method AccumulateScaled(gradients: array<real>, noiseVector: seq<real>, weight: real)
    requires |noiseVector| <= gradients.Length
    modifies gradients
    ensures forall j :: 0 <= j < gradients.Length ==>
      gradients[j] == old(gradients[j]) + Weighted(At(noiseVector, j), weight)
  {
    var index := 0;
    while index < |noiseVector|
      invariant 0 <= index <= |noiseVector|
      invariant forall j :: 0 <= j < index ==> gradients[j] == old(gradients[j]) + Weighted(noiseVector[j], weight)
      invariant forall j :: index <= j < gradients.Length ==> gradients[j] == old(gradients[j])
    {
      gradients[index] := gradients[index] + Weighted(noiseVector[index], weight);
      index := index + 1;
    }
  }

  /** `_getBlockGradient` bound to the worker's sampler: accumulates every episode's
      weighted noise vector into a fresh zero-filled array. */
  method GetBlockGradient(sampler: CachedNoise.Sampler, stdev: seq<real> -> real, block: Block)
    returns (r: Result<seq<real>>)
    requires sampler.Valid()
    ensures r == Gradient(sampler, stdev, block)
    ensures r.Ok? ==> |r.value| == sampler.numParams
    ensures r.Throw? <==> block == []
  {
    var rewards := Rewards(block);
    if |rewards| == 0 {
      return Throw(ReduceOfEmptyArray);
    }
    var std := StdFloor(stdev(rewards));
    var normalizedReturns := NormalizedReturns(rewards, std);
    ghost var noises := Noises(sampler, block);
    var gradients := new real[sampler.numParams](_ => 0.0);
    var k := 0;
    while k < |block|
      invariant 0 <= k <= |block|
      invariant forall j :: 0 <= j < gradients.Length ==>
        gradients[j] == Contribution(noises[..k], normalizedReturns[..k], j)
    {
      var noiseVector := sampler.Sample(block[k].noiseIndex);
      sampler.SampleShort(block[k].noiseIndex);
      AccumulateScaled(gradients, noiseVector, normalizedReturns[k]);
      assert noises[..k + 1][..k] == noises[..k] && normalizedReturns[..k + 1][..k] == normalizedReturns[..k];
      k := k + 1;
    }
    assert noises[..k] == noises && normalizedReturns[..k] == normalizedReturns;
    ghost var expected := seq(sampler.numParams, j requires 0 <= j => Contribution(noises, normalizedReturns, j));
    assert forall j :: 0 <= j < gradients.Length ==> gradients[..][j] == expected[j];
    r := Ok(gradients[..]);
    assert r.value == expected;
    ghost var spec := Gradient(sampler, stdev, block).value;
    assert |spec| == |expected| && forall j :: 0 <= j < |spec| ==> spec[j] == expected[j];
  }

  /** Entry-wise form of the gradient: entry `j` is the plain sum, over the block's
      episodes, of the weighted entries `j` of their noise vectors. */
  lemma {:induction false} ContributionIsSum(noises: seq<seq<real>>, weights: seq<real>, j: nat)
    requires |noises| == |weights|
    ensures Contribution(noises, weights, j)
         == Sum(seq(|weights|, k requires 0 <= k < |weights| => Weighted(At(noises[k], j), weights[k])))
  {
    var terms := seq(|weights|, k requires 0 <= k < |weights| => Weighted(At(noises[k], j), weights[k]));
    if weights != [] {
      var n := |weights| - 1;
      ContributionIsSum(noises[..n], weights[..n], j);
      assert terms[..n] == seq(n, k requires 0 <= k < n => Weighted(At(noises[..n][k], j), weights[..n][k]));
    }
  }

  /** `xs[k] - c` for every `k`. */
  function Centered(xs: seq<real>, c: real): (r: seq<real>)
    ensures |r| == |xs|
  {
    seq(|xs|, k requires 0 <= k < |xs| => xs[k] - c)
  }

  /** `xs[k] / d` for every `k`. */
  function Scaled(xs: seq<real>, d: real): (r: seq<real>)
    requires d != 0.0
    ensures |r| == |xs|
  {
    seq(|xs|, k requires 0 <= k < |xs| => xs[k] / d)
  }

  lemma {:induction false} SumCentered(xs: seq<real>, c: real)
    ensures Sum(Centered(xs, c)) == Sum(xs) - |xs| as real * c
  {
    if xs != [] {
      var n := |xs| - 1;
      SumCentered(xs[..n], c);
      assert Centered(xs, c)[..n] == Centered(xs[..n], c);
    }
  }

  lemma DivAdd(a: real, b: real, d: real)
    requires d != 0.0
    ensures a / d + b / d == (a + b) / d
  {
  }

  lemma {:induction false} SumScaled(xs: seq<real>, d: real)
    requires d != 0.0
    ensures Sum(Scaled(xs, d)) == Sum(xs) / d
  {
    if xs != [] {
      var n := |xs| - 1;
      SumScaled(xs[..n], d);
      assert Scaled(xs, d)[..n] == Scaled(xs[..n], d);
      DivAdd(Sum(xs[..n]), xs[n], d);
    }
  }

  /** The normalized returns of a block sum to zero, whatever the standard deviation used. */
  lemma NormalizedReturnsSumToZero(rs: seq<real>, std: real)
    requires |rs| > 0 && std != 0.0
    ensures Sum(NormalizedReturns(rs, std)) == 0.0
  {
    var m := Mean(rs);
    assert NormalizedReturns(rs, std) == Scaled(Centered(rs, m), std);
    SumScaled(Centered(rs, m), std);
    SumCentered(rs, m);
    assert |rs| as real * m == Sum(rs);
  }

  /** Degenerate block: when every reward is the same, every normalized return is 0. */
  lemma EqualRewardsNormalizeToZero(rs: seq<real>, std: real)
    requires |rs| > 0 && std != 0.0
    requires forall k :: 0 <= k < |rs| ==> rs[k] == rs[0]
    ensures forall k :: 0 <= k < |rs| ==> NormalizedReturns(rs, std)[k] == 0.0
  {
    SumConstant(rs, rs[0]);
    assert Mean(rs) == rs[0];
  }

  /** Zero weights give a zero entry. */
  lemma {:induction false} ZeroWeightsContributeNothing(noises: seq<seq<real>>, weights: seq<real>, j: nat)
    requires |noises| == |weights|
    requires forall k :: 0 <= k < |weights| ==> weights[k] == 0.0
    ensures Contribution(noises, weights, j) == 0.0
  {
    if weights != [] {
      var n := |weights| - 1;
      ZeroWeightsContributeNothing(noises[..n], weights[..n], j);
    }
  }

  /** Degenerate block: all-equal rewards yield no division error and an all-zero gradient. */
  lemma EqualRewardsGiveZeroGradient(sampler: CachedNoise.Sampler, stdev: seq<real> -> real, block: Block)
    requires block != []
    requires forall k :: 0 <= k < |block| ==> block[k].reward == block[0].reward
    ensures Gradient(sampler, stdev, block).Ok?
    ensures forall j :: 0 <= j < sampler.numParams ==> Gradient(sampler, stdev, block).value[j] == 0.0
  {
    var rs := Rewards(block);
    var nr := NormalizedReturns(rs, StdFloor(stdev(rs)));
    EqualRewardsNormalizeToZero(rs, StdFloor(stdev(rs)));
    forall j | 0 <= j < sampler.numParams
      ensures Gradient(sampler, stdev, block).value[j] == 0.0
    {
      ZeroWeightsContributeNothing(Noises(sampler, block), nr, j);
    }
  }
}
