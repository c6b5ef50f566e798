/** `index.js`: the live noise generator. Every element is recomputed from the shared
    seed: element `i` of the vector for `index` is `ppf(seedrandom(seed + i + index)())`.
    The composition of the pseudo-random generator and the inverse normal CDF is not
    modelled; it is the function `draw`, and only its argument matters. The seed is
    numeric, so `seed + i + index` is integer addition. */
module LiveNoise {

  /** Upper bound (exclusive) of the indices handed out by `getNoiseIndex`. */
  const IndexBound: int := 100000000

  /** The generator returned by `noise(seed)`: it holds no mutable state. */
  datatype Generator = Generator(seed: int, draw: int -> real)
  {
    /** The vector `sample(index, length)` builds, element by element, as a pure function. */
    function NoiseVector(index: int, length: int): seq<real>
      decreases if length < 0 then 0 else length
    {
      if length <= 0 then [] else NoiseVector(index, length - 1) + [draw(seed + (length - 1) + index)]
    }

    /** `sample(index, length)`: pushes `length` draws in order (none when `length <= 0`). */
    method Sample(index: int, length: int) returns (v: seq<real>)
      ensures v == NoiseVector(index, length)
      ensures |v| == if length < 0 then 0 else length
      ensures forall i :: 0 <= i < |v| ==> v[i] == draw(seed + i + index)
    {
      v := [];
      var i := 0;
      while i < length
        invariant 0 <= i <= if length < 0 then 0 else length
        invariant v == NoiseVector(index, i)
      {
        v := v + [draw(seed + i + index)];
        i := i + 1;
      }
      NoiseVectorLength(index, length);
      forall i | 0 <= i < |v| ensures v[i] == draw(seed + i + index) {
        NoiseVectorAt(index, length, i);
      }
    }

    /** The vector has exactly `max(0, length)` elements. */
    lemma {:induction false} NoiseVectorLength(index: int, length: int)
      ensures |NoiseVector(index, length)| == if length < 0 then 0 else length
      decreases if length < 0 then 0 else length
    {
      if length > 0 {
        NoiseVectorLength(index, length - 1);
      }
    }

    /** Element `i` depends only on `seed + i + index`. */
    lemma {:induction false} NoiseVectorAt(index: int, length: int, i: int)
      requires 0 <= i < length
      ensures |NoiseVector(index, length)| == length
      ensures NoiseVector(index, length)[i] == draw(seed + i + index)
      decreases length
    {
      NoiseVectorLength(index, length);
      NoiseVectorLength(index, length - 1);
      if i < length - 1 {
        NoiseVectorAt(index, length - 1, i);
      }
    }

    /** Shift: element `i` of the vector for `index` is the one-element vector for `index + i`. */
    lemma Shift(index: int, n: int, i: int)
      requires 0 <= i < n
      ensures |NoiseVector(index, n)| == n && |NoiseVector(index + i, 1)| == 1
      ensures NoiseVector(index, n)[i] == NoiseVector(index + i, 1)[0]
    {
      NoiseVectorAt(index, n, i);
      NoiseVectorAt(index + i, 1, 0);
    }

    /** Prefix: a shorter request is a prefix of a longer one from the same index. */
    lemma {:induction false} Prefix(index: int, n: int, m: int)
      requires 0 <= n <= m
      ensures NoiseVector(index, n) <= NoiseVector(index, m)
      decreases m - n
    {
      if n < m {
        Prefix(index, n, m - 1);
        NoiseVectorLength(index, m - 1);
      }
    }

    /** Overlap: starting one index later drops exactly the first element. */
    lemma Overlap(index: int, n: int)
      requires n >= 1
      ensures NoiseVector(index + 1, n - 1) == NoiseVector(index, n)[1..]
    {
      var a, b := NoiseVector(index + 1, n - 1), NoiseVector(index, n);
      NoiseVectorLength(index + 1, n - 1);
      NoiseVectorLength(index, n);
      forall i | 0 <= i < n - 1 ensures a[i] == b[1..][i] {
        NoiseVectorAt(index + 1, n - 1, i);
        NoiseVectorAt(index, n, i + 1);
      }
    }

    /** `getNoiseIndex()`: `Math.floor(Math.random() * 100000000)` for the draw `u` in [0, 1). */
    function GetNoiseIndex(u: real): (r: int)
      requires 0.0 <= u < 1.0
      ensures 0 <= r < IndexBound
    {
      (u * IndexBound as real).Floor
    }
  }

  /** Determinism: two generators built from the same seed (and the same numeric
      libraries) produce identical vectors for identical arguments. */
  lemma Determinism(g1: Generator, g2: Generator, index: int, length: int)
    requires g1.seed == g2.seed && g1.draw == g2.draw
    ensures g1.NoiseVector(index, length) == g2.NoiseVector(index, length)
  {
  }
}
