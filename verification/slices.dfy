/** `Array.prototype.slice(start, end)` on integer arguments: a negative bound
    counts back from the end, every bound is clamped to the array, and a window
    whose end is not past its start is empty. */
module Slices {

  function Min(a: int, b: int): int { if a <= b then a else b }

  function Max(a: int, b: int): int { if a <= b then b else a }

  /** A bound as `slice` resolves it against an array of length `len`. */
  function Resolve(bound: int, len: nat): (r: nat)
    ensures r <= len
    ensures 0 <= bound ==> r == Min(bound, len)
  {
    if bound < 0 then Max(len + bound, 0) else Min(bound, len)
  }

  /** `s.slice(start, end)`. */
  function Slice<T>(s: seq<T>, start: int, end: int): (r: seq<T>)
    ensures |r| <= |s|
    ensures 0 <= start <= end ==> |r| == Max(0, Min(end, |s|) - start)
    ensures 0 <= start ==> forall k :: 0 <= k < |r| ==> start + k < |s| && r[k] == s[start + k]
  {
    var lo := Resolve(start, |s|);
    var hi := Resolve(end, |s|);
    if lo < hi then s[lo..hi] else []
  }

  /** Whatever the bounds, a slice is one contiguous run of the array. */
  lemma SliceIsContiguous<T>(s: seq<T>, start: int, end: int)
    ensures exists lo, hi :: 0 <= lo <= hi <= |s| && Slice(s, start, end) == s[lo..hi]
  {
    var lo := Resolve(start, |s|);
    var hi := Resolve(end, |s|);
    if lo < hi {
      assert Slice(s, start, end) == s[lo..hi];
    } else {
      assert Slice(s, start, end) == s[lo..lo];
    }
  }

  /** `s.slice(0, n)` for a non-negative `n` is the prefix of length min(n, |s|). */
  lemma SliceFromZero<T>(s: seq<T>, n: int)
    requires 0 <= n
    ensures Slice(s, 0, n) == s[..Min(n, |s|)]
  {
  }
}
