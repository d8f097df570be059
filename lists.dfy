/** `Array.prototype.filter`, used by every delete and by the render filters. */
module Lists {

  /** The elements of `s` that `keep` accepts, in their original order. */
  function Filter<T>(s: seq<T>, keep: T -> bool): (r: seq<T>)
    ensures |r| <= |s|
    ensures forall i :: 0 <= i < |r| ==> keep(r[i]) && r[i] in s
  {
    if s == [] then []
    else (if keep(s[0]) then [s[0]] else []) + Filter(s[1..], keep)
  }

  /** An element survives exactly when it was there and is accepted. */
  lemma {:induction false} FilterMembership<T>(s: seq<T>, keep: T -> bool, x: T)
    ensures x in Filter(s, keep) <==> x in s && keep(x)
  {
    if s != [] {
      FilterMembership(s[1..], keep, x);
      assert s == [s[0]] + s[1..];
    }
  }

  /** Filtering distributes over concatenation: the survivors keep their relative order. */
  lemma {:induction false} FilterConcat<T>(a: seq<T>, b: seq<T>, keep: T -> bool)
    ensures Filter(a + b, keep) == Filter(a, keep) + Filter(b, keep)
  {
    if a != [] {
      assert (a + b)[1..] == a[1..] + b;
      FilterConcat(a[1..], b, keep);
    } else {
      assert a + b == b;
    }
  }

  /**
   * The survivors keep their order and their repeats: the filter of a list is
   * the filter of any prefix followed by the filter of the rest, and each
   * element on its own is kept or dropped by the test alone.
   */
  lemma FilterOrder<T>(s: seq<T>, keep: T -> bool)
    ensures forall k :: 0 <= k <= |s| ==> Filter(s, keep) == Filter(s[..k], keep) + Filter(s[k..], keep)
    ensures forall k :: 0 <= k < |s| ==> Filter([s[k]], keep) == (if keep(s[k]) then [s[k]] else [])
  {
    forall k | 0 <= k <= |s|
      ensures Filter(s, keep) == Filter(s[..k], keep) + Filter(s[k..], keep)
    {
      assert s[..k] + s[k..] == s;
      FilterConcat(s[..k], s[k..], keep);
    }
    forall k | 0 <= k < |s|
      ensures Filter([s[k]], keep) == (if keep(s[k]) then [s[k]] else [])
    {
      assert [s[k]][1..] == [];
    }
  }

  /** Nothing is removed when everything is accepted. */
  lemma {:induction false} FilterKeepsAll<T>(s: seq<T>, keep: T -> bool)
    requires forall i :: 0 <= i < |s| ==> keep(s[i])
    ensures Filter(s, keep) == s
  {
    if s != [] {
      FilterKeepsAll(s[1..], keep);
    }
  }

  /** Filtering twice with the same test is filtering once. */
  lemma FilterIdempotent<T>(s: seq<T>, keep: T -> bool)
    ensures Filter(Filter(s, keep), keep) == Filter(s, keep)
  {
    FilterKeepsAll(Filter(s, keep), keep);
  }

  /** What one test keeps and its negation keeps together account for every element. */
  lemma {:induction false} FilterPartition<T>(s: seq<T>, keep: T -> bool, drop: T -> bool)
    requires forall x :: drop(x) == !keep(x)
    ensures |Filter(s, keep)| + |Filter(s, drop)| == |s|
  {
    if s != [] {
      FilterPartition(s[1..], keep, drop);
    }
  }
}
