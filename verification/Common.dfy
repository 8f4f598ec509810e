/** Result types shared by every module. */
module Common {
  datatype Option<+T> = None | Some(value: T)

  datatype Result<+T, +E> = Success(value: T) | Failure(error: E)
}

/** Sets of numeric ids listed in order. */
module IdLists {
  predicate Ascending(xs: seq<int>) {
    forall i, j :: 0 <= i < j < |xs| ==> xs[i] < xs[j]
  }

  method SortedIds(ids: set<int>) returns (sorted: seq<int>)
    ensures Ascending(sorted)
    ensures forall id :: id in sorted <==> id in ids
  {
    sorted := [];
    var left := ids;
    while exists id :: id in left
      invariant left <= ids && Ascending(sorted)
      invariant forall id :: id in sorted <==> id in ids && id !in left
      invariant forall id, other :: id in sorted && other in left ==> id < other
      decreases left
    {
      var least := Least(left);
      forall i | 0 <= i < |sorted| ensures sorted[i] < least {
        assert sorted[i] in sorted;
      }
      sorted, left := sorted + [least], left - {least};
    }
  }

  method Least(ids: set<int>) returns (least: int)
    requires exists id :: id in ids
    ensures least in ids && forall id :: id in ids ==> least <= id
  {
    var first :| first in ids;
    var left := ids - {first};
    least := first;
    while exists id :: id in left
      invariant least in ids && left <= ids
      invariant forall id :: id in ids ==> id in left || least <= id
      decreases left
    {
      var id :| id in left;
      left := left - {id};
      if id < least {
        least := id;
      }
    }
  }
}

/** Doubling, as the retry delays use it. */
module Backoff {
  function Pow2(n: nat): (p: nat)
    ensures p >= 1
  {
    if n == 0 then 1 else 2 * Pow2(n - 1)
  }

  lemma {:induction false} Pow2Monotone(m: nat, n: nat)
    requires m <= n
    ensures Pow2(m) <= Pow2(n)
  {
    if m < n {
      Pow2Monotone(m, n - 1);
    }
  }

  lemma ScaleKeepsOrder(base: nat, p: nat, q: nat)
    requires p <= q
    ensures base * p <= base * q
  {
  }

  lemma OneIsPow2()
    ensures Pow2(0) == 1
  {
  }
}
