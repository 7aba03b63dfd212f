/** The client helpers that the crypto-provider request builder relies on:
    the party-id sort (`helpers.sort_ids`), a mutable id array standing for a
    JavaScript array of party ids, and the `Deferred`/promise pair. */
module Helpers {

  /** Ascending order of party ids. */
  ghost predicate Sorted(s: seq<int>) {
    forall i, j | 0 <= i < j < |s| :: s[i] <= s[j]
  }

  /** Inserts one id into an already sorted list of ids. */
  function Insert(x: int, s: seq<int>): (r: seq<int>)
    requires Sorted(s)
    ensures Sorted(r)
    ensures multiset(r) == multiset(s) + multiset{x}
    ensures r[0] == if s == [] || x <= s[0] then x else s[0]
  {
    if s == [] || x <= s[0] then
      [x] + s
    else
      assert s == [s[0]] + s[1..];
      [s[0]] + Insert(x, s[1..])
  }

  /** The ordering `sort_ids` gives a list of party ids: ascending, the same
      ids with the same multiplicities. */
  function SortIds(s: seq<int>): (r: seq<int>)
    ensures Sorted(r)
    ensures multiset(r) == multiset(s)
  {
    if s == [] then
      []
    else
      assert s == [s[0]] + s[1..];
      Insert(s[0], SortIds(s[1..]))
  }

  /** A sorted list is fixed by its multiset of ids: any helper that promises
      "sorted ascending and a permutation" yields exactly what SortIds yields. */
  lemma {:induction false} SortedPermutationUnique(a: seq<int>, b: seq<int>)
    requires Sorted(a) && Sorted(b)
    requires multiset(a) == multiset(b)
    ensures a == b
  {
    if a != [] {
      assert |b| == |multiset(b)| == |multiset(a)| == |a|;
      assert a[0] in multiset(b) && b[0] in multiset(a);
      assert a[0] == b[0];
      assert a == [a[0]] + a[1..];
      assert b == [b[0]] + b[1..];
      assert multiset(a[1..]) == multiset(a) - multiset{a[0]};
      assert multiset(b[1..]) == multiset(b) - multiset{b[0]};
      SortedPermutationUnique(a[1..], b[1..]);
    }
  }

  /** Two call sites that pass the same parties in different orders end up
      with the same normalised receivers list. */
  lemma {:induction false} SortIdsOrderIndependent(a: seq<int>, b: seq<int>)
    requires multiset(a) == multiset(b)
    ensures SortIds(a) == SortIds(b)
  {
    SortedPermutationUnique(SortIds(a), SortIds(b));
  }

  /** Sorting an already sorted list leaves it as it is; in particular a
      second `sort_ids` on the same array changes nothing. */
  lemma {:induction false} SortIdsKeepsSorted(s: seq<int>)
    requires Sorted(s)
    ensures SortIds(s) == s
  {
    SortedPermutationUnique(SortIds(s), s);
  }

  /** A JavaScript array of party ids: a mutable object that the caller and
      the request builder share by reference. */
  class IdArray {
    var elems: seq<int>

    /** `[]` */
    constructor ()
      ensures elems == []
    {
      elems := [];
    }

    /** `Array.prototype.push` */
    method Push(x: int)
      modifies this
      ensures elems == old(elems) + [x]
    {
      elems := elems + [x];
    }
  }

  /** `helpers.sort_ids(ids)`: reorders the caller's array in place. */
  method SortIdsInPlace(ids: IdArray)
    modifies ids
    ensures ids.elems == SortIds(old(ids.elems))
    ensures Sorted(ids.elems) && multiset(ids.elems) == multiset(old(ids.elems))
  {
    ids.elems := SortIds(ids.elems);
  }

  /** The promise handed back to the caller; it is settled by code outside
      this model. */
  class Promise {
    constructor () {}
  }

  /** `new helpers.Deferred()`: a pending entry owning a fresh promise. */
  class Deferred {
    const promise: Promise

    constructor ()
      ensures fresh(promise)
    {
      promise := new Promise();
    }
  }
}
