/** The JavaScript array and string operations the handlers use, on sequences. */
module Slices {

  function Min(a: int, b: int): int { if a <= b then a else b }

  function Max(a: int, b: int): int { if a <= b then b else a }

  /** `s.slice(-n)` for a positive `n`: the last `n` elements, or all of `s` when
      it is shorter. (`slice(-0)` is the whole array, so `n` must be positive.) */
  function TakeLast<T>(s: seq<T>, n: nat): (r: seq<T>)
    requires n > 0
    ensures |r| == Min(|s|, n)
    ensures r == s[|s| - |r|..]
  {
    s[Max(0, |s| - n)..]
  }

  /** `s.slice(0, n)`: the first `n` elements, or all of `s` when it is shorter. */
  function TakeFirst<T>(s: seq<T>, n: nat): (r: seq<T>)
    ensures |r| == Min(|s|, n)
    ensures r == s[..|r|]
    ensures |s| <= n ==> r == s
  {
    s[..Min(|s|, n)]
  }

  /** `s.reverse()`, as a value. */
  function Reverse<T>(s: seq<T>): (r: seq<T>)
    ensures |r| == |s|
    ensures forall i :: 0 <= i < |s| ==> r[i] == s[|s| - 1 - i]
  {
    if s == [] then [] else Reverse(s[1..]) + [s[0]]
  }

  /** Keeping the last `n` of an already trimmed prefix and then of the whole
      extended sequence gives the same window: eviction can be done step by step. */
  lemma TakeLastAbsorbs<T>(x: seq<T>, y: seq<T>, n: nat)
    requires n > 0
    ensures TakeLast(TakeLast(x, n) + y, n) == TakeLast(x + y, n)
  {
  }
}
