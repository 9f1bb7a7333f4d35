/** `examples/rpi.rb`: the strided split of the intervals, and the reduced sum.

Rank `r` of `size` adds up the intervals `r + 1, r + 1 + size, ...` up to `n`; the partial
results are reduced by addition.  Arithmetic is over the reals.
*/
module Pi {
  import opened Folds
  import opened Trees
  import opened Slots

  /** The height of the curve over interval `i`. */
  function Height(h: real, i: nat): real {
    var x := h * (i as real - 0.5);
    SquareIsNonNegative(x);
    4.0 / (1.0 + x * x)
  }

  lemma SquareIsNonNegative(x: real)
    ensures x * x >= 0.0
  {
  }

  /** The sum over all intervals `1 .. n`, as one process would compute it. */
  function WholeSum(g: nat -> real, n: nat): real {
    if n == 0 then 0.0 else WholeSum(g, n - 1) + g(n)
  }

  /** The rank the split gives interval `i` to. */
  function Owner(size: nat, i: nat): (r: nat)
    requires size > 0 && i > 0
    ensures r < size
  {
    (i - 1) % size
  }

  /** The part of the sum that belongs to rank `r`. */
  function PartSum(g: nat -> real, r: nat, size: nat, n: nat): real
    requires size > 0
  {
    if n == 0 then 0.0 else PartSum(g, r, size, n - 1) + if Owner(size, n) == r then g(n) else 0.0
  }

  lemma NextMultiple(a: nat, b: nat, size: nat)
    requires a < b
    ensures a * size + size <= b * size
  {
    MulMonotone(a + 1, b, size);
    assert (a + 1) * size == a * size + size;
  }

  lemma ModUnique(x: nat, size: nat, k: nat, r: nat)
    requires r < size && x == k * size + r
    ensures x % size == r
  {
    var q := x / size;
    if q > k {
      NextMultiple(k, q, size);
    } else if q < k {
      NextMultiple(q, k, size);
    }
  }

  /** Before its first interval a rank has nothing. */
  lemma {:induction false} HeadAddsNothing(g: nat -> real, r: nat, size: nat, m: nat)
    requires m <= r < size
    ensures PartSum(g, r, size, m) == 0.0
    decreases m
  {
    if m > 0 {
      HeadAddsNothing(g, r, size, m - 1);
      ModUnique(m - 1, size, 0, m - 1);
    }
  }

  /** Interval `i` is number `k` of the ones rank `r` owns. */
  ghost predicate OnStride(r: nat, size: nat, k: nat, i: nat) {
    i == k * size + r + 1
  }

  lemma StrideOwner(r: nat, size: nat, k: nat, i: nat, m: nat)
    requires r < size && OnStride(r, size, k, i) && i <= m < i + size
    ensures Owner(size, m) == r <==> m == i
  {
    var d := m - i;
    if r + d < size {
      ModUnique(m - 1, size, k, r + d);
    } else {
      assert (k + 1) * size == k * size + size;
      ModUnique(m - 1, size, k + 1, r + d - size);
    }
  }

  /** Between two of a rank's intervals there is nothing that belongs to it. */
  lemma {:induction false} GapAddsNothing(g: nat -> real, r: nat, size: nat, k: nat, i: nat, m: nat)
    requires r < size && OnStride(r, size, k, i) && i <= m < i + size
    ensures PartSum(g, r, size, m) == PartSum(g, r, size, i)
    decreases m
  {
    if m > i {
      GapAddsNothing(g, r, size, k, i, m - 1);
      StrideOwner(r, size, k, i, m);
    }
  }

  /** One turn of the loop: interval `i` counts, the ones up to the next turn do not. */
  lemma VisitOne(g: nat -> real, r: nat, size: nat, k: nat, i: nat)
    requires r < size && OnStride(r, size, k, i)
    ensures OnStride(r, size, k + 1, i + size)
    ensures PartSum(g, r, size, i) == PartSum(g, r, size, i - 1) + g(i)
    ensures forall m: nat :: i <= m < i + size ==> PartSum(g, r, size, m) == PartSum(g, r, size, i)
  {
    StrideOwner(r, size, k, i, i);
    assert (k + 1) * size == k * size + size;
    forall m: nat | i <= m < i + size
      ensures PartSum(g, r, size, m) == PartSum(g, r, size, i)
    {
      GapAddsNothing(g, r, size, k, i, m);
    }
  }

  /** The intervals up to `n` a rank owns. */
  ghost predicate Visits(visited: set<nat>, r: nat, size: nat, n: nat)
    requires size > 0
  {
    forall i: nat :: i in visited <==> 1 <= i <= n && Owner(size, i) == r
  }

  lemma VisitsGrow(visited: set<nat>, r: nat, size: nat, k: nat, i: nat, m: nat)
    requires r < size && OnStride(r, size, k, i) && i <= m < i + size
    requires Visits(visited, r, size, i - 1)
    ensures Visits(visited + {i}, r, size, m)
  {
    forall j: nat | 1 <= j <= m
      ensures j in visited + {i} <==> Owner(size, j) == r
    {
      if j >= i {
        StrideOwner(r, size, k, i, j);
      }
    }
  }

  lemma NothingBefore(g: nat -> real, r: nat, size: nat, m: nat)
    requires m <= r < size
    ensures Visits({}, r, size, m) && PartSum(g, r, size, m) == 0.0
  {
    HeadAddsNothing(g, r, size, m);
    forall i: nat | 1 <= i <= m
      ensures Owner(size, i) != r
    {
      ModUnique(i - 1, size, 0, i - 1);
    }
  }

  /** The loop of one rank.  It visits exactly the intervals the rank owns and sums them up. */
  method Partial(g: nat -> real, rank: nat, size: nat, n: nat) returns (sum: real, ghost visited: set<nat>)
    requires rank < size
    ensures sum == PartSum(g, rank, size, n)
    ensures Visits(visited, rank, size, n)
    ensures forall i: nat :: i in visited <==> 1 <= i <= n && (i - 1) % size == rank
  {
    sum, visited := 0.0, {};
    var i := rank + 1;
    ghost var k, last := 0, if n <= rank then n else rank;
    NothingBefore(g, rank, size, last);
    while i <= n
      invariant k >= 0 && i >= 1 && OnStride(rank, size, k, i)
      invariant last == if n < i then n else i - 1
      invariant sum == PartSum(g, rank, size, last)
      invariant Visits(visited, rank, size, last)
      decreases n + size - i
    {
      VisitOne(g, rank, size, k, i);
      last := if n < i + size then n else i + size - 1;
      VisitsGrow(visited, rank, size, k, i, last);
      visited := visited + {i};
      sum := sum + g(i);
      i := i + size;
      k := k + 1;
    }
  }

  // ---------- All ranks together ----------

  /** The sum of the first `k` ranks' parts. */
  function RankSums(g: nat -> real, size: nat, n: nat, k: nat): real
    requires size > 0
  {
    if k == 0 then 0.0 else RankSums(g, size, n, k - 1) + PartSum(g, k - 1, size, n)
  }

  lemma {:induction false} OneMoreInterval(g: nat -> real, size: nat, n: nat, k: nat)
    requires size > 0 && n > 0 && k <= size
    ensures RankSums(g, size, n, k)
         == RankSums(g, size, n - 1, k) + if Owner(size, n) < k then g(n) else 0.0
  {
    if k > 0 {
      OneMoreInterval(g, size, n, k - 1);
    }
  }

  lemma {:induction false} NoIntervals(g: nat -> real, size: nat, k: nat)
    requires size > 0
    ensures RankSums(g, size, 0, k) == 0.0
  {
    if k > 0 {
      NoIntervals(g, size, k - 1);
    }
  }

  /** Whatever the number of ranks, the parts add up to the whole. */
  lemma {:induction false} PartsMakeTheWhole(g: nat -> real, size: nat, n: nat)
    requires size > 0
    ensures RankSums(g, size, n, size) == WholeSum(g, n)
  {
    if n == 0 {
      NoIntervals(g, size, size);
    } else {
      PartsMakeTheWhole(g, size, n - 1);
      OneMoreInterval(g, size, n, size);
    }
  }

  /** Addition of the partial results along a reduction tree. */
  function TreeSum(t: Tree, parts: seq<real>): real
    requires forall i :: 0 <= i < |Leaves(t)| ==> Leaves(t)[i] < |parts|
  {
    match t
    case Leaf(r) =>
      assert Leaves(t)[0] == r;
      parts[r]
    case Node(_, l, r) =>
      assert forall i :: 0 <= i < |Leaves(l)| ==> Leaves(t)[i] == Leaves(l)[i];
      assert forall i :: 0 <= i < |Leaves(r)| ==> Leaves(t)[|Leaves(l)| + i] == Leaves(r)[i];
      TreeSum(l, parts) + TreeSum(r, parts)
  }

  function Plus(): (real, real) -> real {
    (x, y) => x + y
  }

  lemma PlusLaws()
    ensures Associative(Plus()) && Commutative(Plus())
  {
  }

  lemma {:induction false} TreeSumIsFold(t: Tree, parts: seq<real>)
    requires forall i :: 0 <= i < |Leaves(t)| ==> Leaves(t)[i] < |parts|
    ensures TreeSum(t, parts) == Fold(Plus(), Select(Leaves(t), parts))
  {
    if t.Node? {
      var l, r := t.left, t.right;
      assert forall i :: 0 <= i < |Leaves(l)| ==> Leaves(t)[i] == Leaves(l)[i];
      assert forall i :: 0 <= i < |Leaves(r)| ==> Leaves(t)[|Leaves(l)| + i] == Leaves(r)[i];
      TreeSumIsFold(l, parts);
      TreeSumIsFold(r, parts);
      SelectConcat(Leaves(l), Leaves(r), parts);
      FoldConcat(Plus(), Select(Leaves(l), parts), Select(Leaves(r), parts));
    }
  }

  lemma FoldStep(parts: seq<real>, k: nat)
    requires 0 < k < |parts|
    ensures Fold(Plus(), parts[..k + 1]) == Fold(Plus(), parts[..k]) + parts[k]
  {
    assert parts[..k + 1] == parts[..k] + [parts[k]];
    FoldConcat(Plus(), parts[..k], [parts[k]]);
    assert Fold(Plus(), [parts[k]]) == parts[k];
  }

  function SumTo(parts: seq<real>, k: nat): real
    requires k <= |parts|
  {
    if k == 0 then 0.0 else SumTo(parts, k - 1) + parts[k - 1]
  }

  lemma {:induction false} FoldIsSum(parts: seq<real>, k: nat)
    requires k < |parts|
    ensures Fold(Plus(), parts[..k + 1]) == SumTo(parts, k + 1)
  {
    if k == 0 {
      assert parts[..1] == [parts[0]];
      assert SumTo(parts, 1) == SumTo(parts, 0) + parts[0];
    } else {
      FoldIsSum(parts, k - 1);
      FoldStep(parts, k);
    }
  }

  /** The ranks' results, `h` times each rank's sum. */
  function Scaled(h: real, sums: seq<real>): (parts: seq<real>)
    ensures |parts| == |sums|
  {
    seq(|sums|, r requires 0 <= r < |sums| => h * sums[r])
  }

  lemma Distribute(a: real, b: real, c: real)
    ensures a * (b + c) == a * b + a * c
  {
  }

  lemma {:induction false} ScaledSum(h: real, sums: seq<real>, k: nat)
    requires k <= |sums|
    ensures SumTo(Scaled(h, sums), k) == h * SumTo(sums, k)
  {
    if k > 0 {
      ScaledSum(h, sums, k - 1);
      Distribute(h, SumTo(sums, k - 1), sums[k - 1]);
    }
  }

  lemma {:induction false} SumsAreRankSums(g: nat -> real, size: nat, n: nat, sums: seq<real>, k: nat)
    requires size > 0 && k <= |sums|
    requires forall r :: 0 <= r < |sums| ==> sums[r] == PartSum(g, r, size, n)
    ensures SumTo(sums, k) == RankSums(g, size, n, k)
  {
    if k > 0 {
      SumsAreRankSums(g, size, n, sums, k - 1);
    }
  }

  /** Any tree over all the ranks adds up to the sum in rank order. */
  lemma AnyTreeSums(t: Tree, parts: seq<real>)
    requires parts != [] && multiset(Leaves(t)) == multiset(Range(|parts|))
    ensures forall i :: 0 <= i < |Leaves(t)| ==> Leaves(t)[i] < |parts|
    ensures TreeSum(t, parts) == SumTo(parts, |parts|)
  {
    forall i | 0 <= i < |Leaves(t)|
      ensures Leaves(t)[i] < |parts|
    {
      assert Leaves(t)[i] in multiset(Range(|parts|));
    }
    TreeSumIsFold(t, parts);
    assert Select(Range(|parts|), parts) == parts;
    SelectPermutes(Leaves(t), Range(|parts|), parts);
    PlusLaws();
    FoldPermutation(Plus(), Select(Leaves(t), parts), parts);
    FoldIsSum(parts, |parts| - 1);
    assert parts[..|parts|] == parts;
  }

  /** What the reduction of the ranks' results comes to. */
  lemma ScaledTotal(h: real, g: nat -> real, size: nat, n: nat, sums: seq<real>)
    requires size > 0 && |sums| == size
    requires forall r :: 0 <= r < |sums| ==> sums[r] == PartSum(g, r, size, n)
    ensures SumTo(Scaled(h, sums), size) == h * WholeSum(g, n)
  {
    ScaledSum(h, sums, size);
    SumsAreRankSums(g, size, n, sums, size);
    PartsMakeTheWhole(g, size, n);
  }

  method AllPartials(g: nat -> real, size: nat, n: nat) returns (sums: seq<real>)
    ensures |sums| == size && forall r :: 0 <= r < size ==> sums[r] == PartSum(g, r, size, n)
  {
    sums := [];
    for r := 0 to size
      invariant |sums| == r && forall q :: 0 <= q < r ==> sums[q] == PartSum(g, q, size, n)
    {
      var sum, _ := Partial(g, r, size, n);
      sums := sums + [sum];
    }
  }

  /** Every rank's partial result, reduced along any tree over the ranks, is the one-process
      result. */
  method ReducedSum(h: real, g: nat -> real, size: nat, n: nat, t: Tree) returns (sum: real)
    requires size > 0 && multiset(Leaves(t)) == multiset(Range(size))
    ensures sum == h * WholeSum(g, n)
  {
    var sums := AllPartials(g, size, n);
    var parts := Scaled(h, sums);
    ScaledTotal(h, g, size, n, sums);
    AnyTreeSums(t, parts);
    sum := TreeSum(t, parts);
  }

  /** The example's integrand, interval by interval. */
  function Curve(h: real): nat -> real {
    (i: nat) => Height(h, i)
  }

  function Width(n: nat): real
    requires n > 0
  {
    1.0 / n as real
  }

  // ---------- The number the example computes ----------

  /** The midpoint sum for the integral of `4 / (1 + x * x)` from 0 to 1 with `n` intervals, of which
      the first `k` are counted, written with integers only. */
  function MidpointSum(n: nat, k: nat): real
    requires n > 0
  {
    if k == 0 then 0.0 else MidpointSum(n, k - 1) + Share(n, k)
  }

  function Share(n: nat, i: nat): real
    requires n > 0
  {
    16.0 * n as real / Denominator(n, i) as real
  }

  function Denominator(n: nat, i: nat): (d: int)
    requires n > 0
    ensures d > 0
  {
    SquareOf(2 * i - 1);
    SquareIsPositive(n);
    4 * n * n + (2 * i - 1) * (2 * i - 1)
  }

  lemma SquareOf(a: int)
    ensures a * a >= 0
  {
  }

  lemma SquareIsPositive(n: nat)
    requires n > 0
    ensures 4 * n * n > 0
  {
  }

  lemma Quotient(a: real, b: real, q: real)
    requires b != 0.0 && q * b == a
    ensures a / b == q
  {
  }

  lemma TimesQuotient(a: real, b: real)
    requires b != 0.0
    ensures (a / b) * b == a
  {
  }

  lemma MiddleAlgebra(h: real, m: real, u: real)
    requires h * m == 1.0
    ensures 4.0 * (1.0 + (h * u) * (h * u)) == h * h * (4.0 * m * m + (2.0 * u) * (2.0 * u))
  {
    assert (h * m) * (h * m) == 1.0;
    assert h * h * (4.0 * m * m) == 4.0 * ((h * m) * (h * m));
    assert h * h * ((2.0 * u) * (2.0 * u)) == 4.0 * ((h * u) * (h * u));
    assert h * h * (4.0 * m * m + (2.0 * u) * (2.0 * u)) == h * h * (4.0 * m * m) + h * h * ((2.0 * u) * (2.0 * u));
  }

  lemma ShareAlgebra(h: real, m: real, y: real, d: real, v: real)
    requires h * m == 1.0 && 4.0 * y == h * h * d && v * y == 4.0
    ensures (h * v) * d == 16.0 * m
  {
    assert (h * v) * d * (h * m) == (h * v) * d;
    assert (h * h * d) * (v * m) == (h * v) * d * (h * m);
    assert (4.0 * y) * (v * m) == 4.0 * (v * y) * m;
  }

  lemma ShareOf(h: real, m: real, y: real, d: real)
    requires h * m == 1.0 && 4.0 * y == h * h * d && y != 0.0 && d != 0.0
    ensures h * (4.0 / y) == 16.0 * m / d
  {
    TimesQuotient(4.0, y);
    ShareAlgebra(h, m, y, d, 4.0 / y);
    Quotient(16.0 * m, d, h * (4.0 / y));
  }

  /** The denominator in real terms: `m` intervals, `u` the middle of the `i`-th, counted in widths. */
  lemma DenominatorIs(n: nat, i: nat, m: real, u: real)
    requires n > 0 && m == n as real && u == i as real - 0.5
    ensures Denominator(n, i) as real == 4.0 * m * m + (2.0 * u) * (2.0 * u)
  {
    var a := (2 * i - 1) as real;
    assert a == 2.0 * u;
    assert a * a == ((2 * i - 1) * (2 * i - 1)) as real;
    assert m * m == (n * n) as real;
  }

  lemma HeightOf(h: real, i: nat, y: real)
    requires y == 1.0 + (h * (i as real - 0.5)) * (h * (i as real - 0.5))
    ensures y != 0.0 && Curve(h)(i) == 4.0 / y
  {
    SquareIsNonNegative(h * (i as real - 0.5));
  }

  lemma ShareFrom(h: real, m: real, v: real, y: real, d: real)
    requires h * m == 1.0 && 4.0 * y == h * h * d && y != 0.0 && d != 0.0 && v == 4.0 / y
    ensures h * v == 16.0 * m / d
  {
    ShareOf(h, m, y, d);
  }

  function Shares(n: nat): nat -> real
    requires n > 0
  {
    (i: nat) => Share(n, i)
  }

  lemma ShareValue(n: nat, i: nat, m: real, d: real, x: real)
    requires n > 0 && m == n as real && d == Denominator(n, i) as real && d != 0.0 && x == 16.0 * m / d
    ensures x == Shares(n)(i)
  {
  }

  /** One interval's share of the result. */
  lemma CurveShare(h: real, n: nat, i: nat)
    requires n > 0 && h * n as real == 1.0
    ensures h * Curve(h)(i) == Shares(n)(i)
  {
    var m, u, v := n as real, i as real - 0.5, Curve(h)(i);
    var y, d := 1.0 + (h * u) * (h * u), Denominator(n, i) as real;
    DenominatorIs(n, i, m, u);
    MiddleAlgebra(h, m, u);
    HeightOf(h, i, y);
    ShareFrom(h, m, v, y, d);
    ShareValue(n, i, m, d, h * v);
  }

  lemma {:induction false} SharesAddUp(n: nat, k: nat)
    requires n > 0
    ensures WholeSum(Shares(n), k) == MidpointSum(n, k)
  {
    if k > 0 {
      SharesAddUp(n, k - 1);
    }
  }

  lemma {:induction false} ScaledSums(h: real, g: nat -> real, share: nat -> real, k: nat)
    requires forall i: nat :: h * g(i) == share(i)
    ensures h * WholeSum(g, k) == WholeSum(share, k)
  {
    if k > 0 {
      ScaledSums(h, g, share, k - 1);
      Distribute(h, WholeSum(g, k - 1), g(k));
    }
  }

  lemma CurveShares(h: real, n: nat)
    requires n > 0 && h * n as real == 1.0
    ensures forall i: nat :: h * Curve(h)(i) == Shares(n)(i)
  {
    forall i: nat
      ensures h * Curve(h)(i) == Shares(n)(i)
    {
      CurveShare(h, n, i);
    }
  }

  /** The reduction, when the scaled integrand has a known sum. */
  method ReducedTotal(h: real, g: nat -> real, size: nat, n: nat, t: Tree, ghost share: nat -> real, ghost total: real)
    returns (sum: real)
    requires size > 0 && multiset(Leaves(t)) == multiset(Range(size))
    requires (forall i: nat :: h * g(i) == share(i)) && WholeSum(share, n) == total
    ensures sum == total
  {
    sum := ReducedSum(h, g, size, n, t);
    ScaledSums(h, g, share, n);
  }

  lemma KnownSum(h: real, n: nat) returns (share: nat -> real)
    requires n > 0 && h * n as real == 1.0
    ensures (forall i: nat :: h * Curve(h)(i) == share(i)) && WholeSum(share, n) == MidpointSum(n, n)
  {
    CurveShares(h, n);
    SharesAddUp(n, n);
    share := Shares(n);
  }

  lemma WidthTimes(n: nat)
    requires n > 0
    ensures Width(n) * n as real == 1.0
  {
    TimesQuotient(1.0, n as real);
  }

  /** The whole example. */
  method ComputePi(size: nat, n: nat, t: Tree) returns (pi: real)
    requires size > 0 && n > 0 && multiset(Leaves(t)) == multiset(Range(size))
    ensures pi == MidpointSum(n, n)
  {
    var h := Width(n);
    WidthTimes(n);
    ghost var share := KnownSum(h, n);
    pi := ReducedTotal(h, Curve(h), size, n, t, share, MidpointSum(n, n));
  }
}
