/** Python's slice semantics for the two slice forms whose bounds can fall outside the
    sequence or count from its end, `s[:stop]` and `s[start:]`. */
module Slicing {

  /** The position a slice bound `b` denotes in a sequence of length `n`: a negative
      bound counts from the end, and the position is clamped into `[0, n]`. */
  function Bound(b: int, n: nat): (k: nat)
    ensures k <= n
  {
    if b < 0 then (if b + n < 0 then 0 else b + n)
    else if b > n then n
    else b
  }

  /** `s[:stop]` */
  function SliceTo<T>(s: seq<T>, stop: int): (r: seq<T>)
    ensures r <= s
  {
    s[..Bound(stop, |s|)]
  }

  /** `s[start:]` */
  function SliceFrom<T>(s: seq<T>, start: int): (r: seq<T>)
    ensures |r| <= |s| && r == s[|s| - |r|..]
  {
    s[Bound(start, |s|)..]
  }
}
