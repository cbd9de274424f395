/**
 * Sums and listings over a collection whose documents are keyed by ids handed out in
 * increasing order: the sum of a per-document quantity over the ids below a bound, and the
 * documents below that bound in id order.
 */
module Sums {

  /** The sum of `f` over the documents with an id below `n`. */
  function Total<T>(m: map<nat, T>, n: nat, f: T -> int): int
  {
    if n == 0 then 0 else Total(m, n - 1, f) + (if n - 1 in m then f(m[n - 1]) else 0)
  }

  /** The documents with an id below `n`, in id order: what `find()` returns. */
  function Listing<T>(m: map<nat, T>, n: nat): seq<T>
  {
    if n == 0 then []
    else Listing(m, n - 1) + (if n - 1 in m then [m[n - 1]] else [])
  }

  /** Replacing (or adding) the document at `k` changes a sum by the difference it makes. */
  lemma {:induction false} TotalUpdate<T>(m: map<nat, T>, n: nat, k: nat, v: T, f: T -> int)
    ensures Total(m[k := v], n, f)
         == Total(m, n, f) + (if k < n then f(v) - (if k in m then f(m[k]) else 0) else 0)
  {
    if n > 0 {
      TotalUpdate(m, n - 1, k, v, f);
    }
  }

  /** Removing the document at `k` takes its term out of a sum. */
  lemma {:induction false} TotalRemove<T>(m: map<nat, T>, n: nat, k: nat, f: T -> int)
    ensures Total(m - {k}, n, f) == Total(m, n, f) - (if k < n && k in m then f(m[k]) else 0)
  {
    if n > 0 {
      TotalRemove(m, n - 1, k, f);
    }
  }

  /** Every id of the collection is below `n`. */
  predicate KeysBelow<T>(m: map<nat, T>, n: nat)
  {
    forall k :: k in m ==> k < n
  }

  /** The document at every id below `n` is among those listed. */
  lemma {:induction false} ListingContains<T>(m: map<nat, T>, n: nat, k: nat)
    requires k in m && k < n
    ensures m[k] in Listing(m, n)
  {
    if k < n - 1 {
      ListingContains(m, n - 1, k);
    }
  }
}
