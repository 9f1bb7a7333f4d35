/** `op_min` and `op_minloc`: combine functions that copy one of their arguments.

`<=>` is a parameter `cmp`; for `op_minloc` it compares the first entries of two pairs.  The
first argument's slot is copied over the second's only if it is strictly less.  The ops are
registered as commutative, so MPI may combine the ranks in any order; of equal contributions the
one that comes last in that order stays.
*/
module Minimum {
  import opened Marshal
  import opened Slots
  import opened Combine
  import opened Folds
  import opened Trees
  import opened Retry
  import opened Reductions

  type Compare = (Obj, Obj) -> int

  /** What the library's `<=>` gives for objects it can order. */
  ghost predicate TotalPreorder(cmp: Compare) {
    && (forall x, y :: cmp(x, y) < 0 <==> cmp(y, x) > 0)
    && (forall x, y, z {:trigger cmp(x, y), cmp(y, z)} :: cmp(x, y) <= 0 && cmp(y, z) <= 0 ==> cmp(x, z) <= 0)
  }

  /** The operation on objects. */
  function Lesser(cmp: Compare): Proc {
    (x, y) => if cmp(x, y) < 0 then x else y
  }

  lemma CarriedLoads(slot: Bytes, x: Obj)
    requires Image(x, true) <= slot
    ensures Load(slot) == Some(x) && |Image(x, true)| == |Dump(x)| + 1 <= |slot|
    ensures Filled(slot, Image(x, true)) == slot
  {
    var rest := slot[|Image(x, true)|..];
    assert slot == Image(x, true) + rest;
    assert slot == Dump(x) + ([0] + rest);
    LoadIgnoresPadding(x, [0] + rest);
  }

  /** The first `k` slots have been through the loop. */
  ghost predicate MinimisedTo(cmp: Compare, xs: seq<Obj>, ys: seq<Obj>, row: seq<Bytes>, k: nat)
    requires k <= |xs| == |ys|
  {
    |row| == |xs| &&
    forall e :: 0 <= e < |xs| ==>
      Image(if e < k && cmp(xs[e], ys[e]) < 0 then xs[e] else ys[e], true) <= row[e]
  }

  lemma MinimisedStep(cmp: Compare, xs: seq<Obj>, ys: seq<Obj>, row: seq<Bytes>, next: seq<Bytes>, k: nat)
    requires k < |xs| == |ys| && MinimisedTo(cmp, xs, ys, row, k)
    requires |Image(xs[k], true)| <= |row[k]|
    requires next == if cmp(xs[k], ys[k]) < 0 then row[k := Filled(row[k], Image(xs[k], true))] else row
    ensures MinimisedTo(cmp, xs, ys, next, k + 1)
  {
  }

  /** One turn of the loop: the slots load, and the smaller one's bytes stay. */
  method MinSlot(cmp: Compare, invec: array<Byte>, inoutvec: array<Byte>, len: nat, size: nat, i: nat,
                 ghost x: Obj, ghost y: Obj)
    requires invec != inoutvec && invec.Length == inoutvec.Length == len * size && i < len
    requires Image(x, true) <= Row(invec[..], size, len)[i] && Image(y, true) <= Row(inoutvec[..], size, len)[i]
    modifies inoutvec
    ensures |Image(x, true)| <= size
    ensures var was := Row(old(inoutvec[..]), size, len);
            Row(inoutvec[..], size, len) == if cmp(x, y) < 0 then was[i := Filled(was[i], Image(x, true))] else was
  {
    SlotBounds(i, len, size);
    var slot := invec[i * size..(i + 1) * size];
    CarriedLoads(slot, x);
    var receiver := Load(slot).value;
    var other := inoutvec[i * size..(i + 1) * size];
    CarriedLoads(other, y);
    var arg := Load(other).value;
    if cmp(receiver, arg) < 0 {
      var length := |Dump(receiver)|;
      assert slot[..length + 1] == Image(x, true);
      WriteImage(inoutvec, size, len, i, slot[..length + 1]);
    }
  }

  /** `op_min` / `op_minloc`: no slot can overflow, and every slot ends up carrying the smaller
      object, the second argument's on a tie. */
  method OpMin(cmp: Compare, invec: array<Byte>, inoutvec: array<Byte>, len: nat, size: nat,
               ghost xs: seq<Obj>, ghost ys: seq<Obj>)
    requires invec != inoutvec && invec.Length == inoutvec.Length == len * size && |xs| == |ys| == len
    requires Carries(Row(invec[..], size, len), xs, true) && Carries(Row(inoutvec[..], size, len), ys, true)
    modifies inoutvec
    ensures MinimisedTo(cmp, xs, ys, Row(inoutvec[..], size, len), len)
  {
    ghost var now := Row(inoutvec[..], size, len);
    ghost var a := Row(invec[..], size, len);
    for i := 0 to len
      invariant now == Row(inoutvec[..], size, len) && a == Row(invec[..], size, len)
      invariant MinimisedTo(cmp, xs, ys, now, i)
    {
      MinSlot(cmp, invec, inoutvec, len, size, i, xs[i], ys[i]);
      MinimisedStep(cmp, xs, ys, now, Row(inoutvec[..], size, len), i);
      now := Row(inoutvec[..], size, len);
    }
  }

  // ---------- The same as a user op that returns one of its arguments ----------

  lemma LesserIsAssociative(cmp: Compare)
    requires TotalPreorder(cmp)
    ensures Associative(Lesser(cmp))
  {
    var f := Lesser(cmp);
    forall x, y, z
      ensures f(f(x, y), z) == f(x, f(y, z))
    {
      assert cmp(x, y) < 0 <==> cmp(y, x) > 0;
      assert cmp(y, z) < 0 <==> cmp(z, y) > 0;
      assert cmp(x, z) < 0 <==> cmp(z, x) > 0;
    }
  }

  /** Slots that hold the arguments hold every result: the retry loop never runs a second time. */
  lemma {:induction false} LesserNeverOverflows(cmp: Compare, t: Tree, c: seq<seq<Obj>>, count: nat, e: nat, size: nat)
    requires Table(c, count) && Within(t, |c|) && e < count
    requires forall r :: 0 <= r < |c| ==> |Dump(c[r][e])| + 1 <= size
    ensures Fits(Lesser(cmp), t, c, count, e, size)
    ensures |Dump(Held(Lesser(cmp), t, c, count, e, size))| + 1 <= size
  {
    if t.Node? {
      LesserNeverOverflows(cmp, t.left, c, count, e, size);
      LesserNeverOverflows(cmp, t.right, c, count, e, size);
      HeldNode(Lesser(cmp), t, c, count, e, size);
    }
  }

  /** `xs[k]` is least, and strictly less than everything behind it. */
  ghost predicate LastLeast(cmp: Compare, xs: seq<Obj>, k: nat)
    requires k < |xs|
  {
    && (forall j :: 0 <= j < |xs| ==> cmp(xs[k], xs[j]) <= 0)
    && (forall j :: k < j < |xs| ==> cmp(xs[k], xs[j]) < 0)
  }

  lemma LastLeastStep(cmp: Compare, front: seq<Obj>, last: Obj, m: nat) returns (k: nat)
    requires TotalPreorder(cmp) && m < |front| && LastLeast(cmp, front, m)
    ensures k <= |front| && LastLeast(cmp, front + [last], k)
    ensures Lesser(cmp)(front[m], last) == (front + [last])[k]
  {
    k := if cmp(front[m], last) < 0 then m else |front|;
    assert cmp(front[m], last) < 0 <==> cmp(last, front[m]) > 0;
    assert cmp(last, last) < 0 <==> cmp(last, last) > 0;
    forall j | 0 <= j < |front|
      ensures cmp((front + [last])[k], front[j]) <= 0
    {
      assert cmp(front[m], front[j]) <= 0;
    }
  }

  lemma {:induction false} FoldIsLastLeast(cmp: Compare, xs: seq<Obj>) returns (k: nat)
    requires TotalPreorder(cmp) && xs != []
    ensures k < |xs| && LastLeast(cmp, xs, k) && Fold(Lesser(cmp), xs) == xs[k]
    decreases |xs|
  {
    var n := |xs| - 1;
    if n == 0 {
      k := 0;
      assert cmp(xs[0], xs[0]) < 0 <==> cmp(xs[0], xs[0]) > 0;
    } else {
      var front, last := xs[..n], xs[n];
      var m := FoldIsLastLeast(cmp, front);
      assert xs == front + [last];
      LesserIsAssociative(cmp);
      FoldConcat(Lesser(cmp), front, [last]);
      assert Fold(Lesser(cmp), [last]) == last;
      k := LastLeastStep(cmp, front, last, m);
    }
  }

  // ---------- Any order of the ranks ----------

  /** What MPI may use for a commutative op over ranks `0 .. hi`: any tree over all of them. */
  ghost predicate AnyOrderTree(t: Tree, n: nat, hi: nat) {
    Within(t, n) && multiset(Leaves(t)) == multiset(Range(hi))
  }

  ghost predicate SlotsFit(c: seq<seq<Obj>>, count: nat, size: nat) {
    Table(c, count) && forall r, e :: 0 <= r < |c| && 0 <= e < count ==> |Dump(c[r][e])| + 1 <= size
  }

  /** Rank `r` contributes a least object. */
  ghost predicate IsLeast(cmp: Compare, c: seq<seq<Obj>>, count: nat, hi: nat, e: nat, r: nat)
    requires Table(c, count) && hi <= |c| && e < count
  {
    r < hi && forall q :: 0 <= q < hi ==> cmp(c[r][e], c[q][e]) <= 0
  }

  /** Rank `r` contributes the object that stays in tree `t`: a least one, and of these the one at
      the last leaf. */
  ghost predicate LastLeastLeaf(cmp: Compare, t: Tree, c: seq<seq<Obj>>, count: nat, hi: nat, e: nat, k: nat)
    requires Table(c, count) && hi <= |c| && e < count && AnyOrderTree(t, |c|, hi)
  {
    && k < |Leaves(t)| && IsLeast(cmp, c, count, hi, e, Leaves(t)[k])
    && forall j :: k < j < |Leaves(t)| ==> !IsLeast(cmp, c, count, hi, e, Leaves(t)[j])
  }

  lemma SameRanks(t: Tree, n: nat, hi: nat)
    requires AnyOrderTree(t, n, hi)
    ensures forall j :: 0 <= j < |Leaves(t)| ==> Leaves(t)[j] < hi
    ensures forall q :: 0 <= q < hi ==> q in Leaves(t)
  {
    var leaves, ranks := Leaves(t), Range(hi);
    forall j | 0 <= j < |leaves|
      ensures leaves[j] < hi
    {
      assert leaves[j] in multiset(leaves);
      assert leaves[j] in ranks;
    }
    forall q | 0 <= q < hi
      ensures q in leaves
    {
      assert ranks[q] in multiset(ranks);
      assert q in multiset(leaves);
    }
  }

  lemma OfferedAt(t: Tree, c: seq<seq<Obj>>, count: nat, e: nat, j: nat)
    requires Table(c, count) && Within(t, |c|) && e < count && j < |Leaves(t)|
    ensures Leaves(t)[j] < |c| && |Offered(t, c, count, e)| == |Leaves(t)|
    ensures Offered(t, c, count, e)[j] == c[Leaves(t)[j]][e]
  {
    LeavesWithin(t, |c|);
  }

  lemma HeldIsFoldOfAll(cmp: Compare, t: Tree, c: seq<seq<Obj>>, count: nat, e: nat, size: nat)
    requires TotalPreorder(cmp) && SlotsFit(c, count, size) && Within(t, |c|) && e < count
    ensures Held(Lesser(cmp), t, c, count, e, size) == Fold(Lesser(cmp), Offered(t, c, count, e))
    ensures Offered(t, c, count, e) != []
  {
    LesserIsAssociative(cmp);
    LesserNeverOverflows(cmp, t, c, count, e, size);
    HeldIsFold(Lesser(cmp), t, c, count, e, size);
    FitsKeepsAll(Lesser(cmp), t, c, count, e, size);
  }

  lemma OfferedLeast(cmp: Compare, t: Tree, c: seq<seq<Obj>>, count: nat, hi: nat, e: nat, k: nat)
    requires TotalPreorder(cmp) && Table(c, count) && hi <= |c| && e < count && AnyOrderTree(t, |c|, hi)
    requires k < |Offered(t, c, count, e)| && LastLeast(cmp, Offered(t, c, count, e), k)
    ensures LastLeastLeaf(cmp, t, c, count, hi, e, k)
  {
    var leaves, xs := Leaves(t), Offered(t, c, count, e);
    SameRanks(t, |c|, hi);
    OfferedAt(t, c, count, e, k);
    forall q | 0 <= q < hi
      ensures cmp(c[leaves[k]][e], c[q][e]) <= 0
    {
      assert q in leaves;
      var j :| 0 <= j < |leaves| && leaves[j] == q;
      OfferedAt(t, c, count, e, j);
      assert cmp(xs[k], xs[j]) <= 0;
    }
    forall j | k < j < |leaves|
      ensures !IsLeast(cmp, c, count, hi, e, leaves[j])
    {
      OfferedAt(t, c, count, e, j);
      assert cmp(xs[k], xs[j]) < 0;
      assert cmp(xs[j], xs[k]) > 0;
    }
  }

  /** MIN and MINLOC along any tree MPI may use: a least contribution, namely the one at the last
      leaf that has one. */
  lemma HeldIsLastLeastLeaf(cmp: Compare, t: Tree, c: seq<seq<Obj>>, count: nat, hi: nat, e: nat, size: nat)
    returns (k: nat)
    requires TotalPreorder(cmp) && SlotsFit(c, count, size) && hi <= |c| && e < count && AnyOrderTree(t, |c|, hi)
    ensures LastLeastLeaf(cmp, t, c, count, hi, e, k)
    ensures Leaves(t)[k] < |c| && Held(Lesser(cmp), t, c, count, e, size) == c[Leaves(t)[k]][e]
  {
    HeldIsFoldOfAll(cmp, t, c, count, e, size);
    k := FoldIsLastLeast(cmp, Offered(t, c, count, e));
    OfferedLeast(cmp, t, c, count, hi, e, k);
    OfferedAt(t, c, count, e, k);
  }

  /** In rank order that is the highest rank with a least contribution. */
  lemma RankOrderTakesHighest(cmp: Compare, t: Tree, c: seq<seq<Obj>>, count: nat, hi: nat, e: nat, size: nat)
    returns (r: nat)
    requires TotalPreorder(cmp) && SlotsFit(c, count, size) && hi <= |c| && e < count
    requires Within(t, |c|) && Leaves(t) == Range(hi)
    ensures IsLeast(cmp, c, count, hi, e, r) && forall q :: r < q < hi ==> !IsLeast(cmp, c, count, hi, e, q)
    ensures Held(Lesser(cmp), t, c, count, e, size) == c[r][e]
  {
    r := HeldIsLastLeastLeaf(cmp, t, c, count, hi, e, size);
    assert Leaves(t)[r] == r;
    forall q | r < q < hi
      ensures !IsLeast(cmp, c, count, hi, e, q)
    {
      assert Leaves(t)[q] == q;
    }
  }

  // ---------- When the order makes no difference ----------

  /** The ranks combined one by one, in the given order. */
  function Comb(ranks: seq<nat>): Tree
    requires ranks != []
  {
    var n := |ranks| - 1;
    if n == 0 then Leaf(ranks[0]) else Node(0, Comb(ranks[..n]), Leaf(ranks[n]))
  }

  lemma {:induction false} CombLeaves(ranks: seq<nat>, n: nat)
    requires ranks != [] && forall i :: 0 <= i < |ranks| ==> ranks[i] < n
    ensures Leaves(Comb(ranks)) == ranks && Within(Comb(ranks), n)
  {
    if |ranks| > 1 {
      CombLeaves(ranks[..|ranks| - 1], n);
    }
  }

  /** MPI may leave any rank to the end. */
  lemma EndingIn(n: nat, hi: nat, r: nat) returns (t: Tree)
    requires r < hi <= n
    ensures AnyOrderTree(t, n, hi) && Leaves(t)[|Leaves(t)| - 1] == r
  {
    var others := Drop(Range(hi), r);
    t := Comb(others + [r]);
    CombLeaves(others + [r], n);
    assert Range(hi)[r] == r;
    assert r in multiset(Range(hi));
  }

  /** A least contribution at the last leaf is the result. */
  lemma LastLeafWins(cmp: Compare, t: Tree, c: seq<seq<Obj>>, count: nat, hi: nat, e: nat, size: nat)
    requires TotalPreorder(cmp) && SlotsFit(c, count, size) && hi <= |c| && e < count && AnyOrderTree(t, |c|, hi)
    requires IsLeast(cmp, c, count, hi, e, Leaves(t)[|Leaves(t)| - 1])
    ensures Held(Lesser(cmp), t, c, count, e, size) == c[Leaves(t)[|Leaves(t)| - 1]][e]
  {
    var k := HeldIsLastLeastLeaf(cmp, t, c, count, hi, e, size);
  }

  /** All trees MPI may use give the same object. */
  ghost predicate OrderIrrelevant(cmp: Compare, c: seq<seq<Obj>>, count: nat, hi: nat, e: nat, size: nat)
    requires Table(c, count) && e < count
  {
    forall t, t' :: AnyOrderTree(t, |c|, hi) && AnyOrderTree(t', |c|, hi) ==>
      Held(Lesser(cmp), t, c, count, e, size) == Held(Lesser(cmp), t', c, count, e, size)
  }

  /** All least contributions are the same object. */
  ghost predicate OneLeast(cmp: Compare, c: seq<seq<Obj>>, count: nat, hi: nat, e: nat)
    requires Table(c, count) && hi <= |c| && e < count
  {
    forall r: nat, q: nat :: IsLeast(cmp, c, count, hi, e, r) && IsLeast(cmp, c, count, hi, e, q) ==> c[r][e] == c[q][e]
  }

  /** The result does not depend on the order MPI picks exactly if all least contributions are the
      same object: pairs of MINLOC that tie must agree in their second entries, too. */
  lemma OrderIrrelevantIffOneLeast(cmp: Compare, c: seq<seq<Obj>>, count: nat, hi: nat, e: nat, size: nat)
    requires TotalPreorder(cmp) && SlotsFit(c, count, size) && hi <= |c| && e < count
    ensures OrderIrrelevant(cmp, c, count, hi, e, size)
       <==> OneLeast(cmp, c, count, hi, e)
  {
    if OrderIrrelevant(cmp, c, count, hi, e, size) {
      forall r: nat, q: nat | IsLeast(cmp, c, count, hi, e, r) && IsLeast(cmp, c, count, hi, e, q)
        ensures c[r][e] == c[q][e]
      {
        var t := EndingIn(|c|, hi, r);
        var t' := EndingIn(|c|, hi, q);
        LastLeafWins(cmp, t, c, count, hi, e, size);
        LastLeafWins(cmp, t', c, count, hi, e, size);
      }
    }
    if OneLeast(cmp, c, count, hi, e) {
      forall t, t' | AnyOrderTree(t, |c|, hi) && AnyOrderTree(t', |c|, hi)
        ensures Held(Lesser(cmp), t, c, count, e, size) == Held(Lesser(cmp), t', c, count, e, size)
      {
        var k := HeldIsLastLeastLeaf(cmp, t, c, count, hi, e, size);
        var k' := HeldIsLastLeastLeaf(cmp, t', c, count, hi, e, size);
      }
    }
  }

  // ---------- From the arguments to the results ----------

  lemma HeldIsCarried(cmp: Compare, t: Tree, c: seq<seq<Obj>>, count: nat, size: nat, row: seq<Bytes>)
    requires Table(c, count) && Within(t, |c|) && t.Node? && SlotsFit(c, count, size)
    requires MinimisedTo(cmp, HeldRow(Lesser(cmp), t.left, c, count, 0, count, size),
                         HeldRow(Lesser(cmp), t.right, c, count, 0, count, size), row, count)
    ensures Carries(row, HeldRow(Lesser(cmp), t, c, count, 0, count, size), true)
  {
    forall e | 0 <= e < count
      ensures Image(HeldRow(Lesser(cmp), t, c, count, 0, count, size)[e], true) <= row[e]
    {
      LesserNeverOverflows(cmp, t, c, count, e, size);
      HeldRowAt(Lesser(cmp), t, c, count, 0, count, size, e);
    }
  }

  /** Runs one tree of `op_min` or `op_minloc` on the packed send buffers. */
  method RunMinTree(cmp: Compare, t: Tree, sends: seq<Bytes>, ghost c: seq<seq<Obj>>, count: nat, size: nat)
    returns (buf: array<Byte>)
    requires SlotsFit(c, count, size) && Within(t, |c|)
    requires |sends| == |c| && forall r :: 0 <= r < |c| ==> BufferCarries(sends[r], size, c[r], true)
    ensures fresh(buf) && buf.Length == count * size
    ensures Carries(Row(buf[..], size, count), HeldRow(Lesser(cmp), t, c, count, 0, count, size), true)
    decreases t
  {
    match t {
      case Leaf(r) =>
        HeldRowLeaf(Lesser(cmp), r, c, count, 0, count, size);
        assert BufferCarries(sends[r], size, c[r], true);
        var send := sends[r];
        buf := new Byte[count * size](i requires 0 <= i < |send| => send[i]);
        assert buf[..] == send;
        assert c[r][0..count] == c[r];
      case Node(_, left, right) =>
        ghost var xs := HeldRow(Lesser(cmp), left, c, count, 0, count, size);
        ghost var ys := HeldRow(Lesser(cmp), right, c, count, 0, count, size);
        var invec := RunMinTree(cmp, left, sends, c, count, size);
        var inoutvec := RunMinTree(cmp, right, sends, c, count, size);
        OpMin(cmp, invec, inoutvec, count, size, xs, ys);
        HeldIsCarried(cmp, t, c, count, size, Row(inoutvec[..], size, count));
        buf := inoutvec;
    }
  }

  lemma CarriedHolds(row: seq<Bytes>, objs: seq<Obj>)
    requires Carries(row, objs, true)
    ensures Holds(row, objs)
  {
    forall e | 0 <= e < |objs|
      ensures Load(row[e]) == Some(objs[e])
    {
      CarriedLoads(row[e], objs[e]);
    }
  }

  /** `x` is the contribution at leaf `k`, the last leaf that has a least one. */
  ghost predicate TakenFrom(cmp: Compare, t: Tree, c: seq<seq<Obj>>, count: nat, e: nat, k: nat, x: Obj)
    requires Table(c, count) && e < count && AnyOrderTree(t, |c|, |c|)
  {
    LastLeastLeaf(cmp, t, c, count, |c|, e, k) && Leaves(t)[k] < |c| && x == c[Leaves(t)[k]][e]
  }

  ghost predicate AllTakenFrom(cmp: Compare, t: Tree, c: seq<seq<Obj>>, count: nat, at: seq<nat>, row: seq<Obj>)
    requires Table(c, count) && |at| <= |row| <= count && AnyOrderTree(t, |c|, |c|)
  {
    forall e :: 0 <= e < |at| ==> TakenFrom(cmp, t, c, count, e, at[e], row[e])
  }

  lemma ElementTakenFrom(cmp: Compare, t: Tree, c: seq<seq<Obj>>, count: nat, size: nat, e: nat) returns (k: nat)
    requires TotalPreorder(cmp) && SlotsFit(c, count, size) && AnyOrderTree(t, |c|, |c|) && e < count
    ensures TakenFrom(cmp, t, c, count, e, k, HeldRow(Lesser(cmp), t, c, count, 0, count, size)[e])
  {
    k := HeldIsLastLeastLeaf(cmp, t, c, count, |c|, e, size);
    HeldRowIs(Lesser(cmp), t, c, count, 0, count, size, e);
  }

  lemma {:induction false} RowTakenFrom(cmp: Compare, t: Tree, c: seq<seq<Obj>>, count: nat, size: nat, len: nat)
    returns (at: seq<nat>)
    requires TotalPreorder(cmp) && SlotsFit(c, count, size) && AnyOrderTree(t, |c|, |c|) && len <= count
    ensures |at| == len
    ensures AllTakenFrom(cmp, t, c, count, at, HeldRow(Lesser(cmp), t, c, count, 0, count, size))
  {
    at := [];
    if len > 0 {
      var front := RowTakenFrom(cmp, t, c, count, size, len - 1);
      var k := ElementTakenFrom(cmp, t, c, count, size, len - 1);
      RowGrows(cmp, t, c, count, front, k, HeldRow(Lesser(cmp), t, c, count, 0, count, size));
      at := front + [k];
    }
  }

  lemma RowGrows(cmp: Compare, t: Tree, c: seq<seq<Obj>>, count: nat, at: seq<nat>, k: nat, row: seq<Obj>)
    requires Table(c, count) && |at| < |row| == count && AnyOrderTree(t, |c|, |c|)
    requires AllTakenFrom(cmp, t, c, count, at, row) && TakenFrom(cmp, t, c, count, |at|, k, row[|at|])
    ensures AllTakenFrom(cmp, t, c, count, at + [k], row)
  {
  }

  ghost predicate FromLastLeast(cmp: Compare, t: Tree, c: seq<seq<Obj>>, count: nat, e: nat, x: Obj)
    requires Table(c, count) && e < count && AnyOrderTree(t, |c|, |c|)
  {
    exists k :: TakenFrom(cmp, t, c, count, e, k, x)
  }

  /** Every element of the row is somebody's, and nobody's is less. */
  lemma RowIsLeast(cmp: Compare, t: Tree, c: seq<seq<Obj>>, count: nat, at: seq<nat>, row: seq<Obj>)
    requires Table(c, count) && |at| == |row| == count && AnyOrderTree(t, |c|, |c|)
    requires AllTakenFrom(cmp, t, c, count, at, row)
    ensures forall e :: 0 <= e < count ==> FromLastLeast(cmp, t, c, count, e, row[e])
    ensures forall e :: 0 <= e < count ==> row[e] in Column(c, |c|, e)
    ensures forall e, q :: 0 <= e < count && 0 <= q < |c| ==> cmp(row[e], c[q][e]) <= 0
  {
    forall e | 0 <= e < count
      ensures FromLastLeast(cmp, t, c, count, e, row[e]) && row[e] in Column(c, |c|, e)
      ensures forall q :: 0 <= q < |c| ==> cmp(row[e], c[q][e]) <= 0
    {
      assert TakenFrom(cmp, t, c, count, e, at[e], row[e]);
      assert Column(c, |c|, e)[Leaves(t)[at[e]]] == row[e];
      assert IsLeast(cmp, c, count, |c|, e, Leaves(t)[at[e]]);
    }
  }

  /** A whole reduction with MIN or MINLOC: packed at the agreed slot size, combined along any tree
      over all ranks, and unpacked.  Every element decodes to a least contribution, the one at the
      last leaf that has one. */
  method ReduceMin(cmp: Compare, t: Tree, c: seq<seq<Obj>>, count: nat)
    returns (results: seq<Option<Obj>>)
    requires TotalPreorder(cmp) && Table(c, count) && AnyOrderTree(t, |c|, |c|)
    ensures |results| == count
    ensures forall e :: 0 <= e < count ==>
              results[e].Some? && FromLastLeast(cmp, t, c, count, e, results[e].value)
    ensures forall e :: 0 <= e < count ==> results[e].value in Column(c, |c|, e)
    ensures forall e, q :: 0 <= e < count && 0 <= q < |c| ==> cmp(results[e].value, c[q][e]) <= 0
  {
    var size := AgreeOnSlot(c);
    var sends := PackedBuffers(c, size, true);
    var buf := RunMinTree(cmp, t, sends, c, count, size);
    ghost var held := HeldRow(Lesser(cmp), t, c, count, 0, count, size);
    CarriedHolds(Row(buf[..], size, count), held);
    results := Unpack(buf[..], size, count);
    ghost var at := RowTakenFrom(cmp, t, c, count, size, count);
    assert AllTakenFrom(cmp, t, c, count, at, held);
    assert forall e :: 0 <= e < count ==> results[e] == Some(held[e]);
    RowIsLeast(cmp, t, c, count, at, held);
  }
}
