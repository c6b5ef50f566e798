/** The `noise(sharedSeed, uniqueSeed, numParams)` sampler of `lib/worker.js`: a cache
    of standard-normal values computed once from the shared seed, sampled by slicing. */
module CachedNoise {
  import opened JsArray

  /** Number of cached values (`noiseSize = 1e+7`). */
  const NoiseSize: nat := 10000000

  /** The sampler's closure. `cache` stands for the warmed-up `noiseCache`; `uniqueDraw`
      is `seedrandom(sharedSeed + uniqueSeed)()`, which `getNoiseIndex` recomputes on
      every call from the same seed and so is one fixed value in [0, 1). */
  datatype Sampler = Sampler(cache: seq<real>, numParams: nat, uniqueDraw: real)
  {
    ghost predicate Valid()
    {
      |cache| == NoiseSize && numParams < NoiseSize && 0.0 <= uniqueDraw < 1.0
    }

    /** `sample(index)`: `noiseCache.slice(index, numParams)`. The second argument is
        the END of the window, not its length, and any length argument a caller passes
        is ignored. */
    function Sample(index: int): seq<real>
    {
      Slice(cache, index, numParams)
    }

    /** For a non-negative index the slice is `cache[index .. numParams)`, of length
        `max(0, numParams - index)`: a numParams-long window only at index 0. */
    lemma SampleWindow(index: nat)
      requires Valid()
      ensures |Sample(index)| == if index <= numParams then numParams - index else 0
      ensures index <= numParams ==> Sample(index) == cache[index..numParams]
      ensures index > numParams ==> Sample(index) == []
    {
      SliceForward(cache, if index <= numParams then index else numParams, numParams);
    }

    /** A sample is never longer than the parameter vector. */
    lemma SampleShort(index: int)
      requires Valid()
      ensures |Sample(index)| <= numParams
    {
    }

    /** `getNoiseIndex()` with `u` the value of `Math.random()`: the sum of two scaled
        draws, reduced modulo `noiseSize - numParams`. */
    function GetNoiseIndex(u: real): (r: int)
      requires Valid()
      requires 0.0 <= u < 1.0
      ensures 0 <= r < NoiseSize - numParams
    {
      var max := NoiseSize - numParams;
      ((u * max as real).Floor + (uniqueDraw * max as real).Floor) % max
    }
  }
}
