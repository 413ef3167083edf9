/**
 * The Python list and string semantics the browser relies on: negative
 * indices count from the end, slice bounds are clamped, `[::-1]` reverses.
 */
module PySeq {
  import opened Wrappers

  function Min(a: int, b: int): int { if a <= b then a else b }

  function Max(a: int, b: int): int { if a >= b then a else b }

  /**
   * The position that `s[i]` reads in a list of length `n`, or None where
   * Python raises IndexError. A negative `i` counts from the end.
   */
  function ListIndex(i: int, n: nat): (r: Option<nat>)
    ensures r.Some? <==> 0 <= n + i && i < n
    ensures r.Some? ==> r.value < n && (r.value == i || r.value == n + i)
  {
    if 0 <= i < n then Some(i)
    else if 0 <= n + i && i < 0 then Some(n + i)
    else None
  }

  /** `s[start:]`: a suffix of `s`; a negative start keeps that many elements from the end. */
  function SliceFrom<T>(s: seq<T>, start: int): (r: seq<T>)
    ensures |r| == if start >= 0 then Max(0, |s| - start) else Min(-start, |s|)
    ensures r == s[|s| - |r|..]
  {
    if start >= 0 then s[Min(start, |s|)..] else s[Max(0, |s| + start)..]
  }

  /** `s[:end]`: a prefix of `s`; a negative end drops that many elements from the end. */
  function SliceTo<T>(s: seq<T>, end: int): (r: seq<T>)
    ensures |r| == if end >= 0 then Min(end, |s|) else Max(0, |s| + end)
    ensures r == s[..|r|]
  {
    if end >= 0 then s[..Min(end, |s|)] else s[..Max(0, |s| + end)]
  }

  /** `s[begin:end]` for non-negative bounds, which Python reads as `s[:end][begin:]`. */
  function Slice<T>(s: seq<T>, begin: nat, end: nat): (r: seq<T>)
    ensures |r| == Max(0, Min(end, |s|) - begin)
    ensures forall k :: 0 <= k < |r| ==> r[k] == s[begin + k]
  {
    SliceFrom(SliceTo(s, end), begin)
  }

  /** `s[::-1]`. */
  function Reversed<T>(s: seq<T>): (r: seq<T>)
    ensures |r| == |s|
    ensures forall i :: 0 <= i < |s| ==> r[i] == s[|s| - 1 - i]
  {
    if s == [] then [] else [s[|s| - 1]] + Reversed(s[..|s| - 1])
  }
}
