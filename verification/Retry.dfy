/** The retry loop of the reductions.

The ranks' arguments go into slots of an agreed size and MPI reduces the buffers.  If a combine
anywhere had a result that did not fit, everything is packed again into slots of the size it
asked for and the reduction is run once more, until a pass goes through without overflow.
*/
module Retry {
  import opened Marshal
  import opened Slots
  import opened Combine
  import opened Folds
  import opened Trees

  /** One receive buffer of the collective: elements `from .. from + len` of the reduction over
      ranks `0 .. hi`. */
  datatype Job = Job(hi: nat, from: nat, len: nat)

  ghost predicate JobsOk(jobs: seq<Job>, n: nat, count: nat) {
    forall j :: 0 <= j < |jobs| ==> 0 < jobs[j].hi <= n && jobs[j].from + jobs[j].len <= count
  }

  /** The trees MPI may pick for the jobs in one pass. */
  ghost predicate PlanOk(f: Proc, trees: seq<Tree>, jobs: seq<Job>, n: nat) {
    |trees| == |jobs| &&
    forall j :: 0 <= j < |jobs| ==> Within(trees[j], n) && Ordered(f, trees[j], jobs[j].hi)
  }

  // ---------- Flags ----------

  ghost function HeldRow(f: Proc, t: Tree, c: seq<seq<Obj>>, count: nat, from: nat, len: nat, size: nat): (xs: seq<Obj>)
    requires Table(c, count) && Within(t, |c|) && from + len <= count
    ensures |xs| == len
  {
    seq(len, e requires 0 <= e < len => Held(f, t, c, count, from + e, size))
  }

  /** Every flag raised while the tree runs on elements `from .. from + len`. */
  ghost function Raises(f: Proc, t: Tree, c: seq<seq<Obj>>, count: nat, from: nat, len: nat, size: nat): seq<Raise>
    requires Table(c, count) && Within(t, |c|) && from + len <= count
  {
    match t
    case Leaf(_) => []
    case Node(at, l, r) =>
      var need := LastNeed(f, HeldRow(f, l, c, count, from, len, size), HeldRow(f, r, c, count, from, len, size), size, len);
      Raises(f, l, c, count, from, len, size) + Raises(f, r, c, count, from, len, size) +
      if need > 0 then [Raise(at, need)] else []
  }

  /** If nobody raised a flag, nothing overflowed. */
  lemma {:induction false} NoRaiseFits(f: Proc, t: Tree, c: seq<seq<Obj>>, count: nat, from: nat, len: nat, size: nat, e: nat)
    requires Table(c, count) && Within(t, |c|) && from + len <= count && e < len
    requires Raises(f, t, c, count, from, len, size) == []
    ensures Fits(f, t, c, count, from + e, size)
  {
    if t.Node? {
      var xs := HeldRow(f, t.left, c, count, from, len, size);
      var ys := HeldRow(f, t.right, c, count, from, len, size);
      LastNeedMeaning(f, xs, ys, size, len);
      assert Needed(f, xs[e], ys[e]) <= size;
      NoRaiseFits(f, t.left, c, count, from, len, size, e);
      NoRaiseFits(f, t.right, c, count, from, len, size, e);
    }
  }

  /** Every flag asks for more than the slots had, and for no more than `bound`. */
  lemma {:induction false} RaisesAreBounded(f: Proc, t: Tree, c: seq<seq<Obj>>, count: nat, from: nat, len: nat, size: nat, bound: nat)
    requires Table(c, count) && Within(t, |c|) && from + len <= count
    requires forall e :: from <= e < from + len ==> NeedsAtMost(f, t, c, count, e, size, bound)
    ensures forall x :: x in Raises(f, t, c, count, from, len, size) ==> size < x.size <= bound && x.rank < |c|
  {
    if t.Node? {
      var xs := HeldRow(f, t.left, c, count, from, len, size);
      var ys := HeldRow(f, t.right, c, count, from, len, size);
      LastNeedMeaning(f, xs, ys, size, len);
      forall e | 0 <= e < len
        ensures Needed(f, xs[e], ys[e]) <= bound
      {
        assert NeedsAtMost(f, t, c, count, from + e, size, bound);
      }
      forall e | from <= e < from + len
        ensures NeedsAtMost(f, t.left, c, count, e, size, bound)
        ensures NeedsAtMost(f, t.right, c, count, e, size, bound)
      {
        assert NeedsAtMost(f, t, c, count, e, size, bound);
      }
      RaisesAreBounded(f, t.left, c, count, from, len, size, bound);
      RaisesAreBounded(f, t.right, c, count, from, len, size, bound);
    }
  }

  /** `resize` on every rank after the raised flags were written in the given order, and the one
      value all ranks go on with, their maximum. */
  method AgreeOnResize(order: seq<Raise>, n: nat) returns (resize: nat)
    requires forall i :: 0 <= i < |order| ==> order[i].rank < n && order[i].size > 0
    ensures order == [] ==> resize == 0
    ensures order != [] ==> exists i :: 0 <= i < |order| && resize == order[i].size
  {
    var flags := new nat[n](_ => 0);
    for i := 0 to |order|
      invariant forall r :: 0 <= r < n && flags[r] != 0 ==> exists k :: 0 <= k < i && flags[r] == order[k].size
      invariant i > 0 ==> flags[order[i - 1].rank] == order[i - 1].size
    {
      flags[order[i].rank] := order[i].size;
    }
    resize := 0;
    for r := 0 to n
      invariant resize != 0 ==> exists k :: 0 <= k < |order| && resize == order[k].size
      invariant forall q :: 0 <= q < r ==> flags[q] <= resize
    {
      if flags[r] > resize {
        resize := flags[r];
      }
    }
    if order != [] {
      assert flags[order[|order| - 1].rank] == order[|order| - 1].size;
    }
  }

  // ---------- One pass ----------

  lemma HeldLeaf(f: Proc, r: nat, c: seq<seq<Obj>>, count: nat, e: nat, size: nat)
    requires Table(c, count) && r < |c| && e < count
    ensures Held(f, Leaf(r), c, count, e, size) == c[r][e]
  {
  }

  lemma HeldNode(f: Proc, t: Tree, c: seq<seq<Obj>>, count: nat, e: nat, size: nat)
    requires Table(c, count) && Within(t, |c|) && e < count && t.Node?
    ensures Held(f, t, c, count, e, size)
         == MergedObj(f, Held(f, t.left, c, count, e, size), Held(f, t.right, c, count, e, size), size)
  {
  }

  lemma HeldRowIs(f: Proc, t: Tree, c: seq<seq<Obj>>, count: nat, from: nat, len: nat, size: nat, e: nat)
    requires Table(c, count) && Within(t, |c|) && from + len <= count && e < len
    ensures HeldRow(f, t, c, count, from, len, size)[e] == Held(f, t, c, count, from + e, size)
  {
  }

  lemma HeldRowAt(f: Proc, t: Tree, c: seq<seq<Obj>>, count: nat, from: nat, len: nat, size: nat, e: nat)
    requires Table(c, count) && Within(t, |c|) && from + len <= count && t.Node? && e < len
    ensures var x := HeldRow(f, t.left, c, count, from, len, size)[e];
            var y := HeldRow(f, t.right, c, count, from, len, size)[e];
            HeldRow(f, t, c, count, from, len, size)[e] == MergedObj(f, x, y, size)
  {
    HeldNode(f, t, c, count, from + e, size);
    HeldRowIs(f, t, c, count, from, len, size, e);
    HeldRowIs(f, t.left, c, count, from, len, size, e);
    HeldRowIs(f, t.right, c, count, from, len, size, e);
  }

  lemma SameRow(f: Proc, xs: seq<Obj>, ys: seq<Obj>, zs: seq<Obj>, size: nat)
    requires |xs| == |ys| == |zs|
    requires forall e :: 0 <= e < |zs| ==> zs[e] == MergedObj(f, xs[e], ys[e], size)
    ensures zs == MergedObjs(f, xs, ys, size)
  {
  }

  lemma HeldRowNode(f: Proc, t: Tree, c: seq<seq<Obj>>, count: nat, from: nat, len: nat, size: nat)
    requires Table(c, count) && Within(t, |c|) && from + len <= count && t.Node?
    ensures HeldRow(f, t, c, count, from, len, size)
         == MergedObjs(f, HeldRow(f, t.left, c, count, from, len, size), HeldRow(f, t.right, c, count, from, len, size), size)
  {
    forall e | 0 <= e < len
      ensures HeldRow(f, t, c, count, from, len, size)[e]
           == MergedObj(f, HeldRow(f, t.left, c, count, from, len, size)[e], HeldRow(f, t.right, c, count, from, len, size)[e], size)
    {
      HeldRowAt(f, t, c, count, from, len, size, e);
    }
    SameRow(f, HeldRow(f, t.left, c, count, from, len, size), HeldRow(f, t.right, c, count, from, len, size),
            HeldRow(f, t, c, count, from, len, size), size);
  }

  lemma HeldRowLeaf(f: Proc, r: nat, c: seq<seq<Obj>>, count: nat, from: nat, len: nat, size: nat)
    requires Table(c, count) && r < |c| && from + len <= count
    ensures HeldRow(f, Leaf(r), c, count, from, len, size) == c[r][from..from + len]
  {
    var row := HeldRow(f, Leaf(r), c, count, from, len, size);
    forall e | 0 <= e < len
      ensures row[e] == c[r][from + e]
    {
      HeldLeaf(f, r, c, count, from + e, size);
    }
  }

  method CopyPart(send: Bytes, ghost objs: seq<Obj>, count: nat, from: nat, len: nat, size: nat) returns (buf: array<Byte>)
    requires |objs| == count && BufferHolds(send, size, objs) && from + len <= count
    ensures fresh(buf) && buf.Length == len * size
    ensures Holds(Row(buf[..], size, len), objs[from..from + len])
  {
    var part := Part(send, size, count, from, len);
    RowOfPart(send, size, count, from, len);
    buf := new Byte[len * size](i requires 0 <= i < |part| => part[i]);
    assert buf[..] == part;
  }

  /** Runs one tree on the packed send buffers. */
  method RunTree(f: Proc, t: Tree, sends: seq<Bytes>, ghost c: seq<seq<Obj>>, count: nat, from: nat, len: nat, size: nat)
    returns (buf: array<Byte>, raised: seq<Raise>)
    requires Table(c, count) && Within(t, |c|) && from + len <= count
    requires |sends| == |c| && forall r :: 0 <= r < |c| ==> BufferHolds(sends[r], size, c[r])
    ensures fresh(buf) && buf.Length == len * size
    ensures Holds(Row(buf[..], size, len), HeldRow(f, t, c, count, from, len, size))
    ensures raised == Raises(f, t, c, count, from, len, size)
    decreases t
  {
    match t {
      case Leaf(r) =>
        HeldRowLeaf(f, r, c, count, from, len, size);
        buf := CopyPart(sends[r], c[r], count, from, len, size);
        raised := [];
      case Node(at, left, right) =>
        ghost var xs := HeldRow(f, left, c, count, from, len, size);
        ghost var ys := HeldRow(f, right, c, count, from, len, size);
        HeldRowNode(f, t, c, count, from, len, size);
        var invec, raisedLeft := RunTree(f, left, sends, c, count, from, len, size);
        var inoutvec, raisedRight := RunTree(f, right, sends, c, count, from, len, size);
        var resize := CombineObjects(f, invec, inoutvec, xs, ys, len, size);
        buf := inoutvec;
        raised := raisedLeft + raisedRight + if resize > 0 then [Raise(at, resize)] else [];
    }
  }

  // ---------- All buffers of one pass ----------

  /** The elements of a job, folded over its ranks in rank order. */
  ghost function FoldedRow(f: Proc, c: seq<seq<Obj>>, count: nat, job: Job): (xs: seq<Obj>)
    requires Table(c, count) && 0 < job.hi <= |c| && job.from + job.len <= count
    ensures |xs| == job.len
  {
    seq(job.len, e requires 0 <= e < job.len => Folded(f, c, job.hi, job.from + e))
  }

  /** One byte more than the longest fold of some of the contributions to the first `k` elements. */
  ghost function Bound(f: Proc, c: seq<seq<Obj>>, count: nat, k: nat): (bound: nat)
    requires Table(c, count) && k <= count
    ensures forall e :: 0 <= e < k ==> 1 + LongestFold(f, c, e) <= bound
  {
    if k == 0 then 1 else Max(Bound(f, c, count, k - 1), 1 + LongestFold(f, c, k - 1))
  }

  lemma {:induction false} NeedsGrow(f: Proc, t: Tree, c: seq<seq<Obj>>, count: nat, e: nat, size: nat, b: nat, b': nat)
    requires Table(c, count) && Within(t, |c|) && e < count && b <= b'
    requires NeedsAtMost(f, t, c, count, e, size, b)
    ensures NeedsAtMost(f, t, c, count, e, size, b')
  {
    if t.Node? {
      NeedsGrow(f, t.left, c, count, e, size, b, b');
      NeedsGrow(f, t.right, c, count, e, size, b, b');
    }
  }

  lemma NeedsAreBounded(f: Proc, t: Tree, c: seq<seq<Obj>>, count: nat, job: Job, size: nat, e: nat)
    requires Associative(f) && Table(c, count) && Within(t, |c|) && Ordered(f, t, job.hi)
    requires job.hi <= |c| && e < count
    ensures NeedsAtMost(f, t, c, count, e, size, Bound(f, c, count, count))
  {
    OverflowIsBounded(f, t, c, count, job.hi, e, size);
    NeedsGrow(f, t, c, count, e, size, 1 + LongestFold(f, c, e), Bound(f, c, count, count));
  }

  /** What the flags of one tree say: none means every element is folded; otherwise each asks for
      more than there was and for no more than the bound. */
  lemma FlagsOfTree(f: Proc, t: Tree, c: seq<seq<Obj>>, count: nat, job: Job, size: nat)
    requires Associative(f) && Table(c, count) && Within(t, |c|) && Ordered(f, t, job.hi)
    requires 0 < job.hi <= |c| && job.from + job.len <= count
    ensures var raised := Raises(f, t, c, count, job.from, job.len, size);
            && (raised == [] ==> HeldRow(f, t, c, count, job.from, job.len, size) == FoldedRow(f, c, count, job))
            && forall x :: x in raised ==> size < x.size <= Bound(f, c, count, count) && x.rank < |c|
  {
    forall e | job.from <= e < job.from + job.len
      ensures NeedsAtMost(f, t, c, count, e, size, Bound(f, c, count, count))
    {
      NeedsAreBounded(f, t, c, count, job, size, e);
    }
    RaisesAreBounded(f, t, c, count, job.from, job.len, size, Bound(f, c, count, count));
    if Raises(f, t, c, count, job.from, job.len, size) == [] {
      FoldedIfQuiet(f, t, c, count, job, size);
    }
  }

  lemma FoldedRowIs(f: Proc, c: seq<seq<Obj>>, count: nat, job: Job, e: nat)
    requires Table(c, count) && 0 < job.hi <= |c| && job.from + job.len <= count && e < job.len
    ensures FoldedRow(f, c, count, job)[e] == Folded(f, c, job.hi, job.from + e)
  {
  }

  lemma FoldedAtIfQuiet(f: Proc, t: Tree, c: seq<seq<Obj>>, count: nat, job: Job, size: nat, e: nat)
    requires Associative(f) && Table(c, count) && Within(t, |c|) && Ordered(f, t, job.hi)
    requires 0 < job.hi <= |c| && job.from + job.len <= count && e < job.len
    requires Raises(f, t, c, count, job.from, job.len, size) == []
    ensures HeldRow(f, t, c, count, job.from, job.len, size)[e] == FoldedRow(f, c, count, job)[e]
  {
    NoRaiseFits(f, t, c, count, job.from, job.len, size, e);
    QuietPassFolds(f, t, c, count, job.hi, job.from + e, size);
    HeldRowIs(f, t, c, count, job.from, job.len, size, e);
    FoldedRowIs(f, c, count, job, e);
  }

  lemma FoldedIfQuiet(f: Proc, t: Tree, c: seq<seq<Obj>>, count: nat, job: Job, size: nat)
    requires Associative(f) && Table(c, count) && Within(t, |c|) && Ordered(f, t, job.hi)
    requires 0 < job.hi <= |c| && job.from + job.len <= count
    requires Raises(f, t, c, count, job.from, job.len, size) == []
    ensures HeldRow(f, t, c, count, job.from, job.len, size) == FoldedRow(f, c, count, job)
  {
    forall e | 0 <= e < job.len
      ensures HeldRow(f, t, c, count, job.from, job.len, size)[e] == FoldedRow(f, c, count, job)[e]
    {
      FoldedAtIfQuiet(f, t, c, count, job, size, e);
    }
  }

  ghost predicate FlagsOk(raised: seq<Raise>, n: nat, size: nat, bound: nat) {
    forall i :: 0 <= i < |raised| ==> size < raised[i].size <= bound && raised[i].rank < n
  }

  /** One job of a pass: its receive buffer, and the flags raised for it. */
  method RunJob(f: Proc, job: Job, t: Tree, sends: seq<Bytes>, ghost c: seq<seq<Obj>>, count: nat, size: nat)
    returns (recv: Bytes, raised: seq<Raise>)
    requires Associative(f) && Table(c, count) && Within(t, |c|) && Ordered(f, t, job.hi)
    requires 0 < job.hi <= |c| && job.from + job.len <= count
    requires |sends| == |c| && forall r :: 0 <= r < |c| ==> BufferHolds(sends[r], size, c[r])
    ensures |recv| == job.len * size
    ensures FlagsOk(raised, |c|, size, Bound(f, c, count, count))
    ensures raised == [] ==> BufferHolds(recv, size, FoldedRow(f, c, count, job))
  {
    var buf;
    buf, raised := RunTree(f, t, sends, c, count, job.from, job.len, size);
    FlagsOfTree(f, t, c, count, job, size);
    recv := buf[..];
  }

  /** The first buffers of a pass: of the right size, and holding the folds unless a flag was raised. */
  ghost predicate PassOk(f: Proc, jobs: seq<Job>, c: seq<seq<Obj>>, count: nat, size: nat, recvs: seq<Bytes>, raised: seq<Raise>)
    requires Table(c, count) && JobsOk(jobs, |c|, count) && |recvs| <= |jobs|
  {
    && (forall j :: 0 <= j < |recvs| ==> |recvs[j]| == jobs[j].len * size)
    && FlagsOk(raised, |c|, size, Bound(f, c, count, count))
    && (raised == [] ==> forall j :: 0 <= j < |recvs| ==> BufferHolds(recvs[j], size, FoldedRow(f, c, count, jobs[j])))
  }

  lemma PassStep(f: Proc, jobs: seq<Job>, c: seq<seq<Obj>>, count: nat, size: nat, recvs: seq<Bytes>, raised: seq<Raise>,
                 recv: Bytes, more: seq<Raise>)
    requires Table(c, count) && JobsOk(jobs, |c|, count) && |recvs| < |jobs|
    requires PassOk(f, jobs, c, count, size, recvs, raised)
    requires |recv| == jobs[|recvs|].len * size && FlagsOk(more, |c|, size, Bound(f, c, count, count))
    requires more == [] ==> BufferHolds(recv, size, FoldedRow(f, c, count, jobs[|recvs|]))
    ensures PassOk(f, jobs, c, count, size, recvs + [recv], raised + more)
  {
  }

  /** Packs every rank's arguments at the given slot size and runs every job's tree once. */
  method Pass(f: Proc, jobs: seq<Job>, trees: seq<Tree>, c: seq<seq<Obj>>, count: nat, size: nat)
    returns (recvs: seq<Bytes>, raised: seq<Raise>)
    requires Associative(f) && Table(c, count) && JobsOk(jobs, |c|, count) && PlanOk(f, trees, jobs, |c|)
    requires forall r, e :: 0 <= r < |c| && 0 <= e < |c[r]| ==> |Dump(c[r][e])| + 1 <= size
    ensures |recvs| == |jobs| && forall j :: 0 <= j < |jobs| ==> |recvs[j]| == jobs[j].len * size
    ensures FlagsOk(raised, |c|, size, Bound(f, c, count, count))
    ensures raised == [] ==>
              forall j :: 0 <= j < |jobs| ==> BufferHolds(recvs[j], size, FoldedRow(f, c, count, jobs[j]))
  {
    var sends := PackedBuffers(c, size, true);
    recvs, raised := [], [];
    for i := 0 to |jobs|
      invariant |recvs| == i && PassOk(f, jobs, c, count, size, recvs, raised)
    {
      var recv, more := RunJob(f, jobs[i], trees[i], sends, c, count, size);
      PassStep(f, jobs, c, count, size, recvs, raised, recv, more);
      recvs, raised := recvs + [recv], raised + more;
    }
  }

  // ---------- The loop ----------

  lemma SameElements<T>(xs: seq<T>, ys: seq<T>)
    requires multiset(xs) == multiset(ys)
    ensures |xs| == |ys|
    ensures forall i :: 0 <= i < |xs| ==> xs[i] in ys
  {
    assert |multiset(xs)| == |xs| && |multiset(ys)| == |ys|;
    forall i | 0 <= i < |xs|
      ensures xs[i] in ys
    {
      assert xs[i] in multiset(xs);
    }
  }

  /** The agreed request: 0 exactly if no flag was raised, else bigger than the slots were. */
  method Request(order: (nat, seq<Raise>) -> seq<Raise>, pass: nat, raised: seq<Raise>, n: nat,
                 ghost size: nat, ghost bound: nat)
    returns (resize: nat)
    requires AnyOrder(order)
    requires FlagsOk(raised, n, size, bound)
    ensures resize == 0 ==> raised == []
    ensures resize > 0 ==> size < resize <= bound
  {
    SameElements(order(pass, raised), raised);
    resize := AgreeOnResize(order(pass, raised), n);
  }

  /** Every job's receive buffer holds the fold of the ranks' arguments. */
  ghost predicate AllFolded(f: Proc, jobs: seq<Job>, c: seq<seq<Obj>>, count: nat, recvs: seq<Bytes>, size: nat)
    requires Table(c, count) && JobsOk(jobs, |c|, count)
  {
    |recvs| == |jobs| &&
    forall j :: 0 <= j < |jobs| ==> BufferHolds(recvs[j], size, FoldedRow(f, c, count, jobs[j]))
  }

  /** `Marshal.load` of every slot of every receive buffer. */
  method Decode(ghost f: Proc, jobs: seq<Job>, ghost c: seq<seq<Obj>>, ghost count: nat, recvs: seq<Bytes>, size: nat)
    returns (results: seq<seq<Option<Obj>>>)
    requires Table(c, count) && JobsOk(jobs, |c|, count) && AllFolded(f, jobs, c, count, recvs, size)
    ensures |results| == |jobs|
    ensures forall j :: 0 <= j < |jobs| ==> results[j] == Somes(FoldedRow(f, c, count, jobs[j]))
  {
    results := [];
    for i := 0 to |jobs|
      invariant |results| == i
      invariant forall j :: 0 <= j < i ==> results[j] == Somes(FoldedRow(f, c, count, jobs[j]))
    {
      assert BufferHolds(recvs[i], size, FoldedRow(f, c, count, jobs[i]));
      var objs := Unpack(recvs[i], size, jobs[i].len);
      assert objs == Somes(FoldedRow(f, c, count, jobs[i]));
      results := results + [objs];
    }
  }

  ghost predicate AnyOrder(order: (nat, seq<Raise>) -> seq<Raise>) {
    forall k: nat, xs {:trigger order(k, xs)} :: multiset(order(k, xs)) == multiset(xs)
  }

  ghost predicate AnyTrees(f: Proc, plan: nat -> seq<Tree>, jobs: seq<Job>, n: nat) {
    forall k: nat :: PlanOk(f, plan(k), jobs, n)
  }

  /** One reduction at one slot size: either every buffer is folded, or somebody asks for more. */
  method Attempt(f: Proc, jobs: seq<Job>, c: seq<seq<Obj>>, count: nat, size: nat, pass: nat,
                 trees: seq<Tree>, order: (nat, seq<Raise>) -> seq<Raise>)
    returns (recvs: seq<Bytes>, resize: nat)
    requires Associative(f) && Table(c, count) && JobsOk(jobs, |c|, count)
    requires PlanOk(f, trees, jobs, |c|) && AnyOrder(order)
    requires forall r, e :: 0 <= r < |c| && 0 <= e < |c[r]| ==> |Dump(c[r][e])| + 1 <= size
    ensures resize == 0 ==> AllFolded(f, jobs, c, count, recvs, size)
    ensures resize > 0 ==> size < resize <= Bound(f, c, count, count)
  {
    var raised;
    recvs, raised := Pass(f, jobs, trees, c, count, size);
    resize := Request(order, pass, raised, |c|, size, Bound(f, c, count, count));
  }

  /** The retry loop.  Which tree each pass uses (`plan`) and in which order its combines leave
      their flags (`order`) is up to MPI.  Whatever it does, the loop ends, and every receive
      buffer then decodes to the fold of the ranks' arguments in rank order. */
  method ReduceUntilItFits(f: Proc, jobs: seq<Job>, c: seq<seq<Obj>>, count: nat, start: nat,
               plan: nat -> seq<Tree>, order: (nat, seq<Raise>) -> seq<Raise>)
    returns (results: seq<seq<Option<Obj>>>)
    requires Associative(f) && Table(c, count) && JobsOk(jobs, |c|, count)
    requires AnyTrees(f, plan, jobs, |c|) && AnyOrder(order)
    requires forall r, e :: 0 <= r < |c| && 0 <= e < |c[r]| ==> |Dump(c[r][e])| + 1 <= start
    ensures |results| == |jobs|
    ensures forall j :: 0 <= j < |jobs| ==> results[j] == Somes(FoldedRow(f, c, count, jobs[j]))
  {
    var size, pass := start, 0;
    var recvs, resize := Attempt(f, jobs, c, count, size, pass, plan(pass), order);
    while resize > 0
      invariant size >= start && resize >= 0
      invariant resize == 0 ==> AllFolded(f, jobs, c, count, recvs, size)
      invariant resize > 0 ==> size < resize <= Bound(f, c, count, count)
      decreases Bound(f, c, count, count) - size
    {
      size, pass := resize, pass + 1;
      recvs, resize := Attempt(f, jobs, c, count, size, pass, plan(pass), order);
    }
    results := Decode(f, jobs, c, count, recvs, size);
  }
}
