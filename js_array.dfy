/** Helpers that give JavaScript array built-ins their exact meaning on sequences. */
module JsArray {

  /** How `Array.prototype.slice` reads one of its bounds: a negative bound
      counts from the end, and every bound is clamped to `[0, len]`. */
  function RelativeIndex(x: int, len: nat): (r: nat)
    ensures r <= len
    ensures 0 <= x <= len ==> r == x
    ensures x < 0 ==> r == if len + x < 0 then 0 else len + x
    ensures x > len ==> r == len
  {
    if x < 0 then (if len + x < 0 then 0 else len + x)
    else if x > len then len
    else x
  }

  /** `s.slice(start, end)` for integer bounds: a fresh copy of the clamped window,
      empty when the window is empty. */
  function Slice<T>(s: seq<T>, start: int, end: int): (r: seq<T>)
  {
    var lo := RelativeIndex(start, |s|);
    var hi := RelativeIndex(end, |s|);
    if lo < hi then s[lo..hi] else []
  }

  /** For non-negative bounds with start <= end, the slice is the window clamped to the array. */
  lemma SliceForward<T>(s: seq<T>, start: nat, end: nat)
    requires start <= end
    ensures start <= |s| ==> Slice(s, start, end) == s[start..if end <= |s| then end else |s|]
    ensures start >= |s| ==> Slice(s, start, end) == []
    ensures |Slice(s, start, end)| == if end <= |s| then end - start else if start <= |s| then |s| - start else 0
  {
  }

  /** Sum of a sequence of reals, left to right (`reduce((a, b) => a + b, 0)`). */
  function Sum(xs: seq<real>): real
  {
    if xs == [] then 0.0 else Sum(xs[..|xs| - 1]) + xs[|xs| - 1]
  }

  /** `xs.reduce((a, b) => a + b) / xs.length`, defined for a nonempty array (on `[]`
      the `reduce` without an initial value throws). */
  function Mean(xs: seq<real>): real
    requires |xs| > 0
  {
    Sum(xs) / |xs| as real
  }

  lemma {:induction false} SumAppend(xs: seq<real>, ys: seq<real>)
    ensures Sum(xs + ys) == Sum(xs) + Sum(ys)
    decreases |ys|
  {
    if ys == [] {
      assert xs + ys == xs;
    } else {
      var n := |ys|;
      assert (xs + ys)[..|xs + ys| - 1] == xs + ys[..n - 1];
      SumAppend(xs, ys[..n - 1]);
    }
  }

  /** Sum of `n` copies of `c` is `n * c`. */
  lemma {:induction false} SumConstant(xs: seq<real>, c: real)
    requires forall i :: 0 <= i < |xs| ==> xs[i] == c
    ensures Sum(xs) == |xs| as real * c
  {
    if xs != [] {
      SumConstant(xs[..|xs| - 1], c);
    }
  }
}

/** JavaScript arrays with holes, as the optimizer's moment arrays use them. */
module JsSparse {

  datatype Option<T> = None | Some(value: T)

  /** A JS array of numbers that may have holes (`None` is an unassigned slot). */
  type Sparse = seq<Option<real>>

  /** `a[k] || 0`: a hole, an index past the end and the value 0 all read as 0. */
  function ReadOrZero(a: Sparse, k: nat): real
  {
    if k < |a| && a[k].Some? then a[k].value else 0.0
  }

  /** `a[k] = x`: writing past the end extends the array with holes. */
  function Store(a: Sparse, k: nat, x: real): (r: Sparse)
    ensures |r| == if k < |a| then |a| else k + 1
    ensures r[k] == Some(x)
    ensures forall j :: 0 <= j < |a| && j != k ==> r[j] == a[j]
    ensures forall j :: |a| <= j < |r| && j != k ==> r[j] == None
  {
    if k < |a| then a[k := Some(x)] else a + seq(k - |a|, _ => None) + [Some(x)]
  }

  /** JavaScript truthiness of a slot: present and not 0. */
  predicate Truthy(o: Option<real>)
  {
    o.Some? && o.value != 0.0
  }

  /** Storing at `k` changes what reads back at `k` and nothing else. */
  lemma ReadAfterStore(a: Sparse, k: nat, x: real, j: nat)
    ensures ReadOrZero(Store(a, k, x), j) == if j == k then x else ReadOrZero(a, j)
  {
  }
}

/** Exceptions the modelled JavaScript code can throw. */
module JsErrors {

  datatype TypeError =
    | ReduceOfEmptyArray   // `[].reduce(f)` without an initial value
    | NotAFunction         // calling a variable that holds `undefined`

  datatype Result<T> = Ok(value: T) | Throw(error: TypeError)

  /** How a handler that returns nothing ends: normally, or by throwing. */
  datatype Outcome = Done | Threw(error: TypeError)
}
