/** The owned heap buffers of the containers: allocation and element-wise copy. */
module Buffers {

  /** `new int[n]` followed by `std::copy(src, src + n, ...)`: a newly
      allocated buffer of `n` elements holding the first `n` elements of
      `src`. A null `src` (a moved-from container) comes with `n == 0`, and
      copying from it copies nothing. */
  method Duplicate(src: array?<int>, n: nat) returns (dst: array<int>)
    requires src == null ==> n == 0
    requires src != null ==> n <= src.Length
    ensures fresh(dst) && dst.Length == n
    ensures src != null ==> dst[..] == src[..n]
  {
    dst := new int[n];
    if src != null {
      for i := 0 to n
        invariant forall j :: 0 <= j < i ==> dst[j] == src[j]
      {
        dst[i] := src[i];
      }
    }
  }
}
