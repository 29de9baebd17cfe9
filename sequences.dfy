/** Facts about the order of elements that `filter` and `slice` keep. */
module Sequences {
  /** `a` is `b` with some elements left out, the others in their order. */
  predicate IsSubsequence<T(==)>(a: seq<T>, b: seq<T>)
    decreases |b|
  {
    if a == [] then true
    else if b == [] then false
    else (a[0] == b[0] && IsSubsequence(a[1..], b[1..])) || IsSubsequence(a, b[1..])
  }

  /** Cutting a subsequence short keeps it a subsequence. */
  lemma {:induction false} PrefixOfSubsequence<T>(a: seq<T>, b: seq<T>, n: nat)
    requires IsSubsequence(a, b) && n <= |a|
    ensures IsSubsequence(a[..n], b)
    decreases |b|
  {
    if n > 0 {
      assert a != [] && b != [];
      if a[0] == b[0] && IsSubsequence(a[1..], b[1..]) {
        PrefixOfSubsequence(a[1..], b[1..], n - 1);
        assert a[..n][1..] == a[1..][..n - 1];
      } else {
        PrefixOfSubsequence(a, b[1..], n);
      }
    }
  }
}
