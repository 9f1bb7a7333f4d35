/** `comm_reduce`, `comm_allreduce`, `comm_scan` and `comm_reduce_scatter`.

An array argument is reduced element by element, any other argument as one object.  The ranks
first make sure their arguments have one shape, agree on a slot size that holds every encoding
and its terminator, and then run the retry loop.
*/
module Reductions {
  import opened Marshal
  import opened Slots
  import opened Combine
  import opened Folds
  import opened Trees
  import opened Retry

  /** What a call does on one rank: it raises an argument error or returns an object. */
  datatype Result = ArgError | Value(obj: Obj)

  // ---------- Shapes ----------

  /** The length of an array argument, -1 for anything else. */
  function ArrayLength(x: Obj): int {
    if x.Arr? then |x.elems| else -1
  }

  /** What goes into the slots. */
  function Items(x: Obj): (xs: seq<Obj>)
    ensures x.Arr? ==> |xs| == ArrayLength(x)
    ensures !x.Arr? ==> |xs| == 1
  {
    if x.Arr? then x.elems else [x]
  }

  function Rows(args: seq<Obj>): (c: seq<seq<Obj>>)
    ensures |c| == |args|
  {
    seq(|args|, r requires 0 <= r < |args| => Items(args[r]))
  }

  ghost predicate Uniform(args: seq<Obj>) {
    forall r, q :: 0 <= r < |args| && 0 <= q < |args| ==> ArrayLength(args[r]) == ArrayLength(args[q])
  }

  /** The two integer reductions of `arylen` and each rank's verdict on them: all ranks take the
      same branch, and it is the failing one exactly when two arguments differ in shape. */
  method CheckShapes(args: seq<Obj>) returns (fails: seq<bool>)
    requires |args| > 0
    ensures |fails| == |args|
    ensures forall r :: 0 <= r < |args| ==> (fails[r] <==> !Uniform(args))
  {
    var arymax, arymin := ArrayLength(args[0]), ArrayLength(args[0]);
    for i := 1 to |args|
      invariant forall r :: 0 <= r < i ==> arymin <= ArrayLength(args[r]) <= arymax
      invariant exists r :: 0 <= r < i && ArrayLength(args[r]) == arymax
      invariant exists r :: 0 <= r < i && ArrayLength(args[r]) == arymin
    {
      var arylen := ArrayLength(args[i]);
      if arylen > arymax {
        arymax := arylen;
      }
      if arylen < arymin {
        arymin := arylen;
      }
    }
    fails := seq(|args|, _ => arymin != arymax);
  }

  /** The longest encoding among a rank's items, 0 for an empty array. */
  method LocalLongest(items: seq<Obj>) returns (longest: nat)
    ensures forall e :: 0 <= e < |items| ==> |Dump(items[e])| <= longest
    ensures longest == 0 || exists e :: 0 <= e < |items| && longest == |Dump(items[e])|
  {
    longest := 0;
    for i := 0 to |items|
      invariant forall e :: 0 <= e < i ==> |Dump(items[e])| <= longest
      invariant longest == 0 || exists e :: 0 <= e < i && longest == |Dump(items[e])|
    {
      if |Dump(items[i])| > longest {
        longest := |Dump(items[i])|;
      }
    }
  }

  /** The agreed slot size: every rank's every encoding fits with its terminator, and no smaller
      size would do. */
  method AgreeOnSlot(c: seq<seq<Obj>>) returns (size: nat)
    ensures forall r, e :: 0 <= r < |c| && 0 <= e < |c[r]| ==> |Dump(c[r][e])| + 1 <= size
    ensures size == 1 || exists r, e :: 0 <= r < |c| && 0 <= e < |c[r]| && size == |Dump(c[r][e])| + 1
  {
    var longest := 0;
    for i := 0 to |c|
      invariant longest >= 0
      invariant forall r, e :: 0 <= r < i && 0 <= e < |c[r]| ==> |Dump(c[r][e])| <= longest
      invariant longest == 0 || exists r, e :: 0 <= r < i && 0 <= e < |c[r]| && longest == |Dump(c[r][e])|
    {
      var length := LocalLongest(c[i]);
      if length > longest {
        longest := length;
      }
    }
    size := longest + 1;
  }

  // ---------- The reduction the documentation promises ----------

  /** The reduction over ranks `0 .. hi`: of arrays element by element, else of the objects. */
  ghost function Reduction(f: Proc, args: seq<Obj>, hi: nat): Obj
    requires 0 < hi <= |args| && Uniform(args)
  {
    var xs := FoldedRow(f, Rows(args), |Items(args[0])|, Job(hi, 0, |Items(args[0])|));
    if args[0].Arr? then Arr(xs) else xs[0]
  }

  /** Every rank's job when all get the reduction over the ranks `his[r]` says. */
  function WholeJobs(his: seq<nat>, count: nat): (jobs: seq<Job>)
    ensures |jobs| == |his|
  {
    seq(|his|, j requires 0 <= j < |his| => Job(his[j], 0, count))
  }

  ghost predicate Runs(f: Proc, plan: nat -> seq<Tree>, order: (nat, seq<Raise>) -> seq<Raise>, jobs: seq<Job>, n: nat) {
    Associative(f) && AnyTrees(f, plan, jobs, n) && AnyOrder(order)
  }

  /** The part the four calls share: slots, retry loop and the array or object to return. */
  method ReduceAll(args: seq<Obj>, f: Proc, his: seq<nat>, plan: nat -> seq<Tree>, order: (nat, seq<Raise>) -> seq<Raise>)
    returns (objs: seq<Obj>)
    requires |args| > 0 && Uniform(args) && forall j :: 0 <= j < |his| ==> 0 < his[j] <= |args|
    requires Runs(f, plan, order, WholeJobs(his, |Items(args[0])|), |args|)
    ensures |objs| == |his|
    ensures forall j :: 0 <= j < |his| ==> objs[j] == Reduction(f, args, his[j])
  {
    var c, count := Rows(args), |Items(args[0])|;
    var size := AgreeOnSlot(c);
    var results := ReduceUntilItFits(f, WholeJobs(his, count), c, count, size, plan, order);
    objs := [];
    for j := 0 to |his|
      invariant |objs| == j && forall k :: 0 <= k < j ==> objs[k] == Reduction(f, args, his[k])
    {
      assert results[j] == Somes(FoldedRow(f, c, count, Job(his[j], 0, count)));
      var xs := Values(results[j]);
      SomesInjective(xs, FoldedRow(f, c, count, Job(his[j], 0, count)));
      objs := objs + [if args[0].Arr? then Arr(xs) else xs[0]];
    }
  }

  lemma SomesInjective<T>(xs: seq<T>, ys: seq<T>)
    requires Somes(xs) == Somes(ys)
    ensures xs == ys
  {
    forall k | 0 <= k < |xs|
      ensures xs[k] == ys[k]
    {
      assert Somes(xs)[k] == Somes(ys)[k];
    }
  }

  function Errors(n: nat): (outs: seq<Result>)
    ensures |outs| == n && forall r :: 0 <= r < n ==> outs[r].ArgError?
  {
    seq(n, _ => ArgError)
  }

  /** `comm_reduce`: the root gets the reduction over all ranks, the others `true`. */
  method Reduce(args: seq<Obj>, f: Proc, root: nat, plan: nat -> seq<Tree>, order: (nat, seq<Raise>) -> seq<Raise>)
    returns (outs: seq<Result>)
    requires root < |args|
    requires Uniform(args) ==> Runs(f, plan, order, WholeJobs([|args|], |Items(args[0])|), |args|)
    ensures |outs| == |args|
    ensures !Uniform(args) ==> forall r :: 0 <= r < |args| ==> outs[r] == ArgError
    ensures Uniform(args) ==>
              forall r :: 0 <= r < |args| ==>
                outs[r] == Value(if r == root then Reduction(f, args, |args|) else True)
  {
    var fails := CheckShapes(args);
    if fails[0] {
      return Errors(|args|);
    }
    var objs := ReduceAll(args, f, [|args|], plan, order);
    outs := seq(|args|, r => Value(if r == root then objs[0] else True));
  }

  /** `comm_allreduce`: every rank gets the reduction over all ranks. */
  method Allreduce(args: seq<Obj>, f: Proc, plan: nat -> seq<Tree>, order: (nat, seq<Raise>) -> seq<Raise>)
    returns (outs: seq<Result>)
    requires |args| > 0
    requires Uniform(args) ==>
               Runs(f, plan, order, WholeJobs(seq(|args|, _ => |args|), |Items(args[0])|), |args|)
    ensures |outs| == |args|
    ensures !Uniform(args) ==> forall r :: 0 <= r < |args| ==> outs[r] == ArgError
    ensures Uniform(args) ==> forall r :: 0 <= r < |args| ==> outs[r] == Value(Reduction(f, args, |args|))
  {
    var fails := CheckShapes(args);
    if fails[0] {
      return Errors(|args|);
    }
    var objs := ReduceAll(args, f, seq(|args|, _ => |args|), plan, order);
    outs := seq(|args|, r requires 0 <= r < |objs| => Value(objs[r]));
  }

  /** `y` is `before` with one more rank's argument `x` behind it: element by element for arrays. */
  ghost predicate OneMore(f: Proc, before: Obj, x: Obj, y: Obj) {
    if x.Arr? then
      && before.Arr? && y.Arr? && |before.elems| == |x.elems| == |y.elems|
      && forall e :: 0 <= e < |x.elems| ==> y.elems[e] == f(before.elems[e], x.elems[e])
    else y == f(before, x)
  }

  /** The reduction over one rank is that rank's argument. */
  lemma ReductionStarts(f: Proc, args: seq<Obj>)
    requires |args| > 0 && Uniform(args)
    ensures Reduction(f, args, 1) == args[0]
  {
    var c, count := Rows(args), |Items(args[0])|;
    var xs := FoldedRow(f, c, count, Job(1, 0, count));
    forall e | 0 <= e < count
      ensures xs[e] == c[0][e]
    {
      FoldedRowIs(f, c, count, Job(1, 0, count), e);
      assert Column(c, 1, e) == [c[0][e]];
    }
    assert xs == Items(args[0]);
  }

  /** One more rank in the reduction: the operation is applied to what was there and to that rank's
      argument, in this order. */
  lemma ReductionSteps(f: Proc, args: seq<Obj>, hi: nat)
    requires 0 < hi < |args| && Uniform(args)
    ensures OneMore(f, Reduction(f, args, hi), args[hi], Reduction(f, args, hi + 1))
  {
    var c, count := Rows(args), |Items(args[0])|;
    forall e | 0 <= e < count
      ensures FoldedRow(f, c, count, Job(hi + 1, 0, count))[e]
           == f(FoldedRow(f, c, count, Job(hi, 0, count))[e], Items(args[hi])[e])
    {
      FoldedRowIs(f, c, count, Job(hi, 0, count), e);
      FoldedRowIs(f, c, count, Job(hi + 1, 0, count), e);
      ScanStep(f, c, count, hi, e);
    }
  }

  /** What the reductions over more and more ranks have to do with each other. */
  lemma ScanLaw(f: Proc, args: seq<Obj>, objs: seq<Obj>)
    requires |objs| == |args| > 0 && Uniform(args)
    requires forall r :: 0 <= r < |args| ==> objs[r] == Reduction(f, args, r + 1)
    ensures objs[0] == args[0]
    ensures forall r :: 0 < r < |args| && !args[r].Arr? ==> objs[r] == f(objs[r - 1], args[r])
    ensures forall r :: 0 < r < |args| && args[r].Arr? ==>
              && objs[r - 1].Arr? && objs[r].Arr?
              && |objs[r - 1].elems| == |objs[r].elems| == |args[r].elems|
              && forall e :: 0 <= e < |args[r].elems| ==> objs[r].elems[e] == f(objs[r - 1].elems[e], args[r].elems[e])
  {
    ReductionStarts(f, args);
    forall r | 0 < r < |args|
      ensures OneMore(f, objs[r - 1], args[r], objs[r])
    {
      ReductionSteps(f, args, r);
    }
  }

  /** `comm_scan`: rank 0 gets its own argument back, and every other rank what the rank before it
      got with its own argument behind it; that is the reduction over ranks `0 .. r`. */
  method Scan(args: seq<Obj>, f: Proc, plan: nat -> seq<Tree>, order: (nat, seq<Raise>) -> seq<Raise>)
    returns (outs: seq<Result>)
    requires |args| > 0
    requires Uniform(args) ==>
               Runs(f, plan, order, WholeJobs(seq(|args|, r requires 0 <= r => r + 1), |Items(args[0])|), |args|)
    ensures |outs| == |args|
    ensures !Uniform(args) ==> forall r :: 0 <= r < |args| ==> outs[r] == ArgError
    ensures Uniform(args) ==> outs[0] == Value(args[0]) && forall r :: 0 <= r < |args| ==> outs[r].Value?
    ensures Uniform(args) ==> forall r :: 0 < r < |args| && !args[r].Arr? ==>
              outs[r].obj == f(outs[r - 1].obj, args[r])
    ensures Uniform(args) ==> forall r :: 0 < r < |args| && args[r].Arr? ==>
              && outs[r - 1].obj.Arr? && outs[r].obj.Arr?
              && |outs[r - 1].obj.elems| == |outs[r].obj.elems| == |args[r].elems|
              && forall e :: 0 <= e < |args[r].elems| ==>
                   outs[r].obj.elems[e] == f(outs[r - 1].obj.elems[e], args[r].elems[e])
    ensures Uniform(args) ==> forall r :: 0 <= r < |args| ==> outs[r] == Value(Reduction(f, args, r + 1))
  {
    var fails := CheckShapes(args);
    if fails[0] {
      return Errors(|args|);
    }
    var objs := ReduceAll(args, f, seq(|args|, r requires 0 <= r => r + 1), plan, order);
    ScanLaw(f, args, objs);
    outs := seq(|args|, r requires 0 <= r < |objs| => Value(objs[r]));
  }

  // ---------- Reduce-scatter ----------

  /** Where the block of rank `k` starts: the sum of the counts before it. */
  function Displacement(counts: seq<nat>, k: nat): nat
    requires k <= |counts|
  {
    if k == 0 then 0 else Displacement(counts, k - 1) + counts[k - 1]
  }

  lemma {:induction false} DisplacementGrows(counts: seq<nat>, j: nat, k: nat)
    requires j <= k <= |counts|
    ensures Displacement(counts, j) <= Displacement(counts, k)
    decreases k
  {
    if j < k {
      DisplacementGrows(counts, j, k - 1);
    }
  }

  function Total(counts: seq<nat>): nat {
    Displacement(counts, |counts|)
  }

  /** A rank's own check: its array has as many elements as the counts ask for, or it has one
      object and they ask for one. */
  predicate CountOk(x: Obj, counts: seq<nat>) {
    |Items(x)| == Total(counts)
  }

  ghost predicate ScatterOk(args: seq<Obj>, counts: seq<nat>) {
    |counts| == |args| && forall r :: 0 <= r < |args| ==> CountOk(args[r], counts)
  }

  /** The block of the reduced elements that belongs to rank `r`. */
  ghost function Segment(f: Proc, args: seq<Obj>, counts: seq<nat>, r: nat): (xs: seq<Obj>)
    requires ScatterOk(args, counts) && r < |args|
    ensures |xs| == counts[r]
  {
    DisplacementGrows(counts, r + 1, |counts|);
    FoldedRow(f, Rows(args), Total(counts), Job(|args|, Displacement(counts, r), counts[r]))
  }

  function ScatterJobs(counts: seq<nat>): (jobs: seq<Job>)
    ensures |jobs| == |counts|
  {
    seq(|counts|, r requires 0 <= r < |counts| => Job(|counts|, Displacement(counts, r), counts[r]))
  }

  lemma ScatterJobsOk(counts: seq<nat>)
    ensures JobsOk(ScatterJobs(counts), |counts|, Total(counts))
  {
    forall r | 0 <= r < |counts|
      ensures Displacement(counts, r) + counts[r] <= Total(counts)
    {
      DisplacementGrows(counts, r + 1, |counts|);
    }
  }

  /** The sum of the counts, as the source's loop computes it, and `MPI_LAND` of the ranks' checks. */
  method CheckCounts(args: seq<Obj>, counts: seq<nat>) returns (allOk: bool)
    ensures allOk <==> forall r :: 0 <= r < |args| ==> CountOk(args[r], counts)
  {
    var count := 0;
    for i := 0 to |counts|
      invariant count == Displacement(counts, i)
    {
      count := count + counts[i];
    }
    allOk := true;
    for r := 0 to |args|
      invariant allOk <==> forall q :: 0 <= q < r ==> CountOk(args[q], counts)
    {
      var aryOk := if args[r].Arr? then |args[r].elems| == count else count == 1;
      allOk := allOk && aryOk;
    }
  }

  /** What a rank makes of its block: an array if it passed one, else the object or `nil`. */
  function Block(x: Obj, block: seq<Obj>): Obj {
    if x.Arr? then Arr(block) else if block == [] then Nil else block[0]
  }

  /** `comm_reduce_scatter`. */
  method ReduceScatter(args: seq<Obj>, counts: seq<nat>, f: Proc, plan: nat -> seq<Tree>,
                       order: (nat, seq<Raise>) -> seq<Raise>)
    returns (outs: seq<Result>)
    requires ScatterOk(args, counts) ==> Runs(f, plan, order, ScatterJobs(counts), |args|)
    ensures |outs| == |args|
    ensures !ScatterOk(args, counts) ==> forall r :: 0 <= r < |args| ==> outs[r] == ArgError
    ensures ScatterOk(args, counts) ==>
              forall r :: 0 <= r < |args| ==> outs[r] == Value(Block(args[r], Segment(f, args, counts, r)))
  {
    if |counts| != |args| {
      return Errors(|args|);
    }
    var allOk := CheckCounts(args, counts);
    if !allOk {
      return Errors(|args|);
    }
    var c, count := Rows(args), Total(counts);
    var size := AgreeOnSlot(c);
    ScatterJobsOk(counts);
    var results := ReduceUntilItFits(f, ScatterJobs(counts), c, count, size, plan, order);
    outs := [];
    for r := 0 to |args|
      invariant |outs| == r
      invariant forall q :: 0 <= q < r ==> outs[q] == Value(Block(args[q], Segment(f, args, counts, q)))
    {
      assert results[r] == Somes(Segment(f, args, counts, r));
      var xs := Values(results[r]);
      SomesInjective(xs, Segment(f, args, counts, r));
      outs := outs + [Value(Block(args[r], xs))];
    }
  }

  /** The arguments as arrays, a plain object as an array of one. */
  function AsArrays(args: seq<Obj>): (arys: seq<Obj>)
    ensures |arys| == |args| && forall r :: 0 <= r < |args| ==> arys[r] == Arr(Items(args[r]))
  {
    seq(|args|, r requires 0 <= r < |args| => Arr(Items(args[r])))
  }

  /** `comm_reduce_scatter` accepts plain objects beside arrays of one element, and reduces them as if
      all were arrays. */
  lemma MixedShapes(f: Proc, args: seq<Obj>, counts: seq<nat>, r: nat)
    requires ScatterOk(args, counts) && r < |args|
    ensures ScatterOk(AsArrays(args), counts) && Uniform(AsArrays(args))
    ensures Segment(f, args, counts, r) == Segment(f, AsArrays(args), counts, r)
  {
    assert Rows(AsArrays(args)) == Rows(args);
    forall q | 0 <= q < |args|
      ensures CountOk(AsArrays(args)[q], counts) && ArrayLength(AsArrays(args)[q]) == Total(counts)
    {
      assert CountOk(args[q], counts);
    }
  }

  // ---------- The four agree ----------

  /** The blocks of the first `k` ranks, one after the other. */
  ghost function Blocks(f: Proc, args: seq<Obj>, counts: seq<nat>, k: nat): seq<Obj>
    requires ScatterOk(args, counts) && k <= |args|
  {
    if k == 0 then [] else Blocks(f, args, counts, k - 1) + Segment(f, args, counts, k - 1)
  }

  /** In rank order the blocks are the allreduced array, cut at the prefix sums of the counts. */
  lemma {:induction false} BlocksCoverArray(f: Proc, args: seq<Obj>, counts: seq<nat>, k: nat)
    requires ScatterOk(args, counts) && |args| > 0 && k <= |args|
    ensures Displacement(counts, k) <= Total(counts)
    ensures Blocks(f, args, counts, k)
         == FoldedRow(f, Rows(args), Total(counts), Job(|args|, 0, Total(counts)))[..Displacement(counts, k)]
  {
    DisplacementGrows(counts, k, |counts|);
    if k > 0 {
      BlocksCoverArray(f, args, counts, k - 1);
      var whole := FoldedRow(f, Rows(args), Total(counts), Job(|args|, 0, Total(counts)));
      var from, to := Displacement(counts, k - 1), Displacement(counts, k);
      assert Segment(f, args, counts, k - 1) == whole[from..to];
      assert whole[..to] == whole[..from] + whole[from..to];
    }
  }

  /** One more rank in the scan: its items are combined behind the previous rank's result. */
  lemma ScanStep(f: Proc, c: seq<seq<Obj>>, count: nat, hi: nat, e: nat)
    requires Table(c, count) && 0 < hi < |c| && e < count
    ensures Folded(f, c, hi + 1, e) == f(Folded(f, c, hi, e), c[hi][e])
  {
    var xs := Column(c, hi, e);
    assert Column(c, hi + 1, e) == xs + [c[hi][e]];
    assert (xs + [c[hi][e]])[1..] == xs[1..] + [c[hi][e]];
    FoldFromConcat(f, xs[0], xs[1..], [c[hi][e]]);
    assert [c[hi][e]][1..] == [];
  }

  /** The choices MPI makes in one call. */
  datatype Choice = Choice(plan: nat -> seq<Tree>, order: (nat, seq<Raise>) -> seq<Raise>)

  /** The blocks of reduce-scatter put together: for arrays the joined blocks are the reduced array;
      a plain object goes to the one rank that counts it and the others get `nil`. */
  ghost predicate BlocksMake(args: seq<Obj>, counts: seq<nat>, blocks: seq<Result>, whole: Result)
    requires |args| > 0 && |counts| == |args|
  {
    |blocks| == |args| &&
    if args[0].Arr? then
      && (forall r :: 0 <= r < |args| ==> blocks[r].Value? && blocks[r].obj.Arr?)
      && whole == Value(Arr(Joined(blocks)))
    else
      && Total(counts) == 1
      && forall r :: 0 <= r < |args| ==> blocks[r] == if counts[r] == 1 then whole else Value(Nil)
  }

  /** Block `r` by itself: it is cut out of the reduced array at the sum of the counts before it. */
  lemma BlockOfArray(f: Proc, args: seq<Obj>, counts: seq<nat>, r: nat)
    requires |args| > 0 && Uniform(args) && ScatterOk(args, counts) && args[0].Arr? && r < |args|
    ensures Reduction(f, args, |args|).Arr? && |Reduction(f, args, |args|).elems| == Total(counts)
    ensures Displacement(counts, r) + counts[r] <= Total(counts)
    ensures forall e :: 0 <= e < counts[r] ==>
              Segment(f, args, counts, r)[e] == Reduction(f, args, |args|).elems[Displacement(counts, r) + e]
  {
    assert CountOk(args[0], counts);
    DisplacementGrows(counts, r + 1, |counts|);
  }

  lemma ArrayBlocks(f: Proc, args: seq<Obj>, counts: seq<nat>, blocks: seq<Result>)
    requires |args| > 0 && Uniform(args) && ScatterOk(args, counts) && args[0].Arr? && |blocks| == |args|
    requires forall r :: 0 <= r < |args| ==> blocks[r] == Value(Block(args[r], Segment(f, args, counts, r)))
    ensures BlocksMake(args, counts, blocks, Value(Reduction(f, args, |args|)))
  {
    assert CountOk(args[0], counts);
    BlocksCoverArray(f, args, counts, |args|);
    JoinedIsBlocks(f, args, counts, blocks, |args|);
    assert blocks[..|args|] == blocks;
    var whole := FoldedRow(f, Rows(args), Total(counts), Job(|args|, 0, Total(counts)));
    assert whole[..Total(counts)] == whole;
  }

  lemma PlainBlock(f: Proc, args: seq<Obj>, counts: seq<nat>, r: nat)
    requires |args| > 0 && Uniform(args) && ScatterOk(args, counts) && !args[0].Arr? && r < |args|
    ensures Total(counts) == 1
    ensures Block(args[r], Segment(f, args, counts, r)) == if counts[r] == 1 then Reduction(f, args, |args|) else Nil
  {
    assert CountOk(args[0], counts);
    DisplacementGrows(counts, r + 1, |counts|);
    if counts[r] == 1 {
      FoldedRowIs(f, Rows(args), 1, Job(|args|, 0, 1), 0);
    }
  }

  lemma BlocksMakeTheWhole(f: Proc, args: seq<Obj>, counts: seq<nat>, blocks: seq<Result>)
    requires |args| > 0 && Uniform(args) && ScatterOk(args, counts) && |blocks| == |args|
    requires forall r :: 0 <= r < |args| ==> blocks[r] == Value(Block(args[r], Segment(f, args, counts, r)))
    ensures BlocksMake(args, counts, blocks, Value(Reduction(f, args, |args|)))
  {
    if args[0].Arr? {
      ArrayBlocks(f, args, counts, blocks);
    } else {
      forall r | 0 <= r < |args|
        ensures Block(args[r], Segment(f, args, counts, r)) == if counts[r] == 1 then Reduction(f, args, |args|) else Nil
      {
        PlainBlock(f, args, counts, r);
      }
      PlainBlock(f, args, counts, 0);
    }
  }

  /** `block` is rank `r`'s part of the reduced elements `whole`. */
  ghost predicate BlockIs(counts: seq<nat>, r: nat, block: Result, whole: seq<Obj>)
    requires r < |counts|
  {
    && block.Value? && block.obj.Arr? && |block.obj.elems| == counts[r]
    && Displacement(counts, r) + counts[r] <= |whole|
    && forall e :: 0 <= e < counts[r] ==> block.obj.elems[e] == whole[Displacement(counts, r) + e]
  }

  lemma BlockIsCut(f: Proc, args: seq<Obj>, counts: seq<nat>, r: nat)
    requires |args| > 0 && Uniform(args) && ScatterOk(args, counts) && args[0].Arr? && r < |args|
    ensures Reduction(f, args, |args|).Arr?
    ensures BlockIs(counts, r, Value(Block(args[r], Segment(f, args, counts, r))), Reduction(f, args, |args|).elems)
  {
    BlockOfArray(f, args, counts, r);
  }

  /** For arrays every block is cut out of the reduced array. */
  lemma BlocksAreCut(f: Proc, args: seq<Obj>, counts: seq<nat>, blocks: seq<Result>, whole: Result)
    requires |args| > 0 && Uniform(args) && ScatterOk(args, counts) && args[0].Arr? && |blocks| == |args|
    requires forall r :: 0 <= r < |args| ==> blocks[r] == Value(Block(args[r], Segment(f, args, counts, r)))
    requires whole == Value(Reduction(f, args, |args|))
    ensures whole.obj.Arr? && forall r :: 0 <= r < |args| ==> BlockIs(counts, r, blocks[r], whole.obj.elems)
  {
    forall r | 0 <= r < |args|
      ensures whole.obj.Arr? && BlockIs(counts, r, blocks[r], whole.obj.elems)
    {
      BlockIsCut(f, args, counts, r);
    }
  }

  /** All four calls on any arguments, each with its own trees and flag orders: reduce at the root is
      allreduce everywhere, the last rank's scan is allreduce, and where the counts fit the blocks of
      reduce-scatter make up what allreduce gives. */
  method FourAgree(args: seq<Obj>, counts: seq<nat>, f: Proc, root: nat,
                   a: Choice, b: Choice, s: Choice, t: Choice)
    returns (reduce: seq<Result>, allreduce: seq<Result>, scan: seq<Result>, blocks: seq<Result>)
    requires root < |args|
    requires Uniform(args) ==> Runs(f, a.plan, a.order, WholeJobs([|args|], |Items(args[0])|), |args|)
    requires Uniform(args) ==> Runs(f, b.plan, b.order, WholeJobs(seq(|args|, _ => |args|), |Items(args[0])|), |args|)
    requires Uniform(args) ==>
               Runs(f, s.plan, s.order, WholeJobs(seq(|args|, r requires 0 <= r => r + 1), |Items(args[0])|), |args|)
    requires ScatterOk(args, counts) ==> Runs(f, t.plan, t.order, ScatterJobs(counts), |args|)
    ensures |reduce| == |allreduce| == |scan| == |args|
    ensures forall r :: 0 <= r < |args| ==> reduce[root] == allreduce[r]
    ensures scan[|args| - 1] == allreduce[0]
    ensures Uniform(args) && ScatterOk(args, counts) ==> BlocksMake(args, counts, blocks, allreduce[0])
    ensures Uniform(args) && ScatterOk(args, counts) && args[0].Arr? ==>
              allreduce[0].Value? && allreduce[0].obj.Arr? &&
              forall r :: 0 <= r < |args| ==> BlockIs(counts, r, blocks[r], allreduce[0].obj.elems)
  {
    reduce := Reduce(args, f, root, a.plan, a.order);
    allreduce := Allreduce(args, f, b.plan, b.order);
    scan := Scan(args, f, s.plan, s.order);
    blocks := ReduceScatter(args, counts, f, t.plan, t.order);
    if Uniform(args) && ScatterOk(args, counts) {
      BlocksMakeTheWhole(f, args, counts, blocks);
      if args[0].Arr? {
        BlocksAreCut(f, args, counts, blocks, allreduce[0]);
      }
    }
  }

  /** The elements of the arrays the ranks returned, one after the other. */
  function Joined(outs: seq<Result>): seq<Obj>
    requires forall r :: 0 <= r < |outs| ==> outs[r].Value? && outs[r].obj.Arr?
  {
    if outs == [] then [] else Joined(outs[..|outs| - 1]) + outs[|outs| - 1].obj.elems
  }

  lemma {:induction false} JoinedIsBlocks(f: Proc, args: seq<Obj>, counts: seq<nat>, outs: seq<Result>, k: nat)
    requires ScatterOk(args, counts) && k <= |args| == |outs|
    requires forall r :: 0 <= r < |args| ==> outs[r] == Value(Arr(Segment(f, args, counts, r)))
    ensures Joined(outs[..k]) == Blocks(f, args, counts, k)
  {
    if k > 0 {
      JoinedIsBlocks(f, args, counts, outs, k - 1);
      assert outs[..k][..k - 1] == outs[..k - 1];
    }
  }
}
