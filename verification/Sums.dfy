/** Sums of a weight over a sequence, and what appending and replacing do to them. */
module Sums {

  /** The sum over the first n elements. */
  function Sum<T>(xs: seq<T>, n: nat, weight: T -> int): int
    requires n <= |xs|
  {
    if n == 0 then 0 else Sum(xs, n - 1, weight) + weight(xs[n - 1])
  }

  function All<T>(xs: seq<T>, weight: T -> int): int {
    Sum(xs, |xs|, weight)
  }

  lemma {:induction false} SumPrefix<T>(xs: seq<T>, more: seq<T>, n: nat, weight: T -> int)
    requires n <= |xs|
    ensures Sum(xs + more, n, weight) == Sum(xs, n, weight)
  {
    if n > 0 {
      SumPrefix(xs, more, n - 1, weight);
    }
  }

  lemma Appended<T>(xs: seq<T>, x: T, weight: T -> int)
    ensures All(xs + [x], weight) == All(xs, weight) + weight(x)
  {
    SumPrefix(xs, [x], |xs|, weight);
  }

  lemma {:induction false} SumReplaced<T>(xs: seq<T>, k: nat, x: T, n: nat, weight: T -> int)
    requires k < |xs| && n <= |xs|
    ensures Sum(xs[k := x], n, weight) == Sum(xs, n, weight) + if k < n then weight(x) - weight(xs[k]) else 0
  {
    if n > 0 {
      SumReplaced(xs, k, x, n - 1, weight);
    }
  }

  lemma Replaced<T>(xs: seq<T>, k: nat, x: T, weight: T -> int)
    requires k < |xs|
    ensures All(xs[k := x], weight) == All(xs, weight) + weight(x) - weight(xs[k])
  {
    SumReplaced(xs, k, x, |xs|, weight);
  }

  lemma {:induction false} SumAtMost<T>(xs: seq<T>, n: nat, small: T -> int, large: T -> int)
    requires n <= |xs| && forall i :: 0 <= i < n ==> small(xs[i]) <= large(xs[i])
    ensures Sum(xs, n, small) <= Sum(xs, n, large)
  {
    if n > 0 {
      SumAtMost(xs, n - 1, small, large);
    }
  }

  lemma {:induction false} SumAgrees<T>(xs: seq<T>, n: nat, a: T -> int, b: T -> int)
    requires n <= |xs| && forall x :: a(x) == b(x)
    ensures Sum(xs, n, a) == Sum(xs, n, b)
  {
    if n > 0 {
      SumAgrees(xs, n - 1, a, b);
    }
  }

  /** The places, among the first n, of what is counted. */
  function Places<T>(xs: seq<T>, n: nat, counted: T -> bool): (places: set<int>)
    requires n <= |xs|
    ensures forall i :: i in places <==> 0 <= i < n && counted(xs[i])
  {
    set i | 0 <= i < n && counted(xs[i])
  }

  /** A sum of ones is the number of places that it counts. */
  lemma {:induction false} CountIsNumber<T>(xs: seq<T>, n: nat, weight: T -> int, counted: T -> bool)
    requires n <= |xs| && forall x :: weight(x) == if counted(x) then 1 else 0
    ensures Sum(xs, n, weight) == |Places(xs, n, counted)|
  {
    var now := Places(xs, n, counted);
    if n == 0 {
      assert now == {};
    } else {
      CountIsNumber(xs, n - 1, weight, counted);
      var before := Places(xs, n - 1, counted);
      assert now == if counted(xs[n - 1]) then before + {n - 1} else before;
    }
  }
}
