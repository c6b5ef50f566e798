/** `lib/argmax.js`: the index of the first largest entry of a numeric array. */
module Argmax {

  /** `k` is the first index at which `s` reaches its maximum. */
  ghost predicate IsFirstMax(s: seq<real>, k: int)
  {
    && 0 <= k < |s|
    && (forall j :: 0 <= j < |s| ==> s[j] <= s[k])
    && (forall j :: 0 <= j < k ==> s[j] < s[k])
  }

  /** `indexOfMax(arr)`: -1 for an empty array, otherwise the first index of a
      maximal entry (the scan replaces the candidate only on a strict `>`). */
  method IndexOfMax(arr: array<real>) returns (r: int)
    ensures arr.Length == 0 <==> r == -1
    ensures arr.Length > 0 ==> IsFirstMax(arr[..], r)
  {
    if arr.Length == 0 {
      return -1;
    }
    var max := arr[0];
    var maxIndex := 0;
    var i := 1;
    while i < arr.Length
      invariant 1 <= i <= arr.Length
      invariant 0 <= maxIndex < i
      invariant max == arr[maxIndex]
      invariant forall j :: 0 <= j < i ==> arr[j] <= max
      invariant forall j :: 0 <= j < maxIndex ==> arr[j] < max
    {
      if arr[i] > max {
        maxIndex := i;
        max := arr[i];
      }
      i := i + 1;
    }
    return maxIndex;
  }

  /** An n-dimensional array as the library sees it: a flat data buffer. */
  datatype NdArray = NdArray(data: array<real>)

  /** `argmax(nd)`: `indexOfMax` of the flat data; it reads the data and changes nothing. */
  method ArgmaxOf(nd: NdArray) returns (r: int)
    ensures nd.data.Length == 0 <==> r == -1
    ensures nd.data.Length > 0 ==> IsFirstMax(nd.data[..], r)
  {
    r := IndexOfMax(nd.data);
  }

  /** The first maximal index is determined by the array: two candidates agree. */
  lemma FirstMaxUnique(s: seq<real>, k1: int, k2: int)
    requires IsFirstMax(s, k1) && IsFirstMax(s, k2)
    ensures k1 == k2
  {
    var a, b := s[k1], s[k2];
    assert a <= b && b <= a;
  }
}
