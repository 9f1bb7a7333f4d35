/** The set of all ranks, and sums over the ranks, used as measures of the work still to do. */
module Sums {

  function UpTo(n: nat): (s: set<nat>)
    ensures |s| == n
    ensures forall i: nat :: i in s <==> i < n
  {
    if n == 0 then {} else UpTo(n - 1) + {n - 1}
  }

  function Sum(xs: seq<int>): int {
    if xs == [] then 0 else xs[0] + Sum(xs[1..])
  }

  lemma {:induction false} SumUpdate(xs: seq<int>, r: nat, x: int)
    requires r < |xs|
    ensures Sum(xs[r := x]) == Sum(xs) - xs[r] + x
  {
    if r > 0 {
      SumUpdate(xs[1..], r - 1, x);
      assert xs[r := x][1..] == xs[1..][r - 1 := x];
    }
  }

  lemma {:induction false} SumBounds(xs: seq<int>, x: int)
    ensures (forall r :: 0 <= r < |xs| ==> xs[r] == x) ==> Sum(xs) == x * |xs|
    ensures (forall r :: 0 <= r < |xs| ==> xs[r] >= 0) ==> Sum(xs) >= 0
  {
    if xs != [] {
      SumBounds(xs[1..], x);
    }
  }
}
