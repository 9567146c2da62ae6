/** Sequence helpers that mirror the Python operations the service uses. */
module Collections {

  function Min(a: int, b: int): int {
    if a <= b then a else b
  }

  function Max(a: int, b: int): int {
    if a <= b then b else a
  }

  /** Python's `s[:k]`: the first `k` elements, the whole sequence when `k`
      is at least its length, and for a negative `k` everything except the
      last `-k` elements. */
  function SliceTo<T>(s: seq<T>, k: int): (r: seq<T>)
    ensures r <= s
    ensures 0 <= k ==> |r| == Min(|s|, k)
    ensures k < 0 ==> |r| == Max(0, |s| + k)
  {
    if k >= |s| then s
    else if k >= 0 then s[..k]
    else if |s| + k >= 0 then s[..|s| + k]
    else []
  }

  /** No element occurs twice. */
  predicate NoDuplicates<T(==)>(s: seq<T>) {
    forall i, j :: 0 <= i < j < |s| ==> s[i] != s[j]
  }

  /** The set of elements of `s`. */
  function Elements<T>(s: seq<T>): set<T> {
    set x | x in s
  }

  /** Two inputs that agree on their first `k` elements have the same `s[:k]`;
      the rest of the sequence is never looked at. */
  lemma SliceToLooksOnlyAtPrefix<T>(s: seq<T>, t: seq<T>, k: nat)
    requires k <= |s| && k <= |t|
    requires s[..k] == t[..k]
    ensures SliceTo(s, k) == SliceTo(t, k)
  {
  }
}
