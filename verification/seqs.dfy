/** Sequence operations shared by the client state stores. */
module Seqs {

  /** `[x, ...s]`: `x` first, then every element of `s` in its original order. */
  function Prepend<T>(x: T, s: seq<T>): (r: seq<T>)
    ensures |r| == |s| + 1
    ensures r[0] == x
    ensures forall i :: 0 <= i < |s| ==> r[i + 1] == s[i]
  {
    [x] + s
  }

  /** The number of elements of `s` that satisfy `p`. */
  function Count<T>(s: seq<T>, p: T -> bool): (n: nat)
    ensures n <= |s|
    ensures n == 0 <==> forall i :: 0 <= i < |s| ==> !p(s[i])
  {
    if |s| == 0 then 0
    else (if p(s[0]) then 1 else 0) + Count(s[1..], p)
  }

  /** Prepending adds one to the count exactly when the new element satisfies `p`. */
  lemma CountPrepend<T>(x: T, s: seq<T>, p: T -> bool)
    ensures Count(Prepend(x, s), p) == Count(s, p) + (if p(x) then 1 else 0)
  {
    assert Prepend(x, s)[1..] == s;
  }
}
