/** Lists of indices, to say which elements of a sequence another one consists of. */
module Listings {
  predicate Ascending(at: seq<nat>) {
    forall a, b :: 0 <= a < b < |at| ==> at[a] < at[b]
  }

  predicate Within(at: seq<nat>, n: nat) {
    forall k :: 0 <= k < |at| ==> at[k] < n
  }

  /** The elements at these indices. */
  function Pick<T>(xs: seq<T>, at: seq<nat>): seq<T>
    requires Within(at, |xs|)
  {
    seq(|at|, k requires 0 <= k < |at| => xs[at[k]])
  }

  /** Exactly the indices with this property, in order. */
  ghost predicate Lists(at: seq<nat>, n: nat, chosen: nat -> bool) {
    Ascending(at) && Within(at, n) && forall i: nat :: i < n ==> (i in at <==> chosen(i))
  }

  lemma ListsAgree(at: seq<nat>, n: nat, chosen: nat -> bool, other: nat -> bool)
    requires Lists(at, n, chosen) && forall i: nat :: i < n ==> chosen(i) == other(i)
    ensures Lists(at, n, other)
  {
  }

  lemma LastWithin(at: seq<nat>, n: nat)
    requires Within(at, n)
    ensures at == [] || at[|at| - 1] < n
  {
  }

  lemma SnocLists(at: seq<nat>, n: nat, chosen: nat -> bool) returns (more: seq<nat>)
    requires Lists(at, n, chosen)
    ensures Lists(more, n + 1, chosen) && more == if chosen(n) then at + [n] else at
  {
    more := if chosen(n) then at + [n] else at;
    assert n !in at;
  }

  /** There is only one such list. */
  lemma {:induction false} ListsAreUnique(a: seq<nat>, b: seq<nat>, n: nat, chosen: nat -> bool)
    requires Lists(a, n, chosen) && Lists(b, n, chosen)
    ensures a == b
    decreases n
  {
    if n == 0 {
      LastWithin(a, n);
      LastWithin(b, n);
    } else {
      var a1 := BelowLast(a, n - 1, chosen);
      var b1 := BelowLast(b, n - 1, chosen);
      ListsAreUnique(a1, b1, n - 1, chosen);
    }
  }

  lemma BelowLast(at: seq<nat>, n: nat, chosen: nat -> bool) returns (below: seq<nat>)
    requires Lists(at, n + 1, chosen)
    ensures Lists(below, n, chosen) && at == if chosen(n) then below + [n] else below
  {
    if chosen(n) {
      below := at[..|at| - 1];
      LastIs(at, n);
      assert at == below + [n];
      forall i: nat | i < n ensures i in below <==> chosen(i) {
        assert i in at <==> i in below;
      }
    } else {
      below := at;
      forall k | 0 <= k < |at| ensures at[k] < n {
        assert at[k] in at;
      }
    }
  }

  lemma LastIs(at: seq<nat>, n: nat)
    requires Ascending(at) && Within(at, n + 1) && n in at
    ensures at[|at| - 1] == n
  {
    var k :| 0 <= k < |at| && at[k] == n;
    LastWithin(at, n + 1);
  }
}
