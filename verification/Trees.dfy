/** One pass of a reduction: a tree of combines over the ranks' buffers.

MPI is free to choose the tree (section 4.9 of MPI 1.1).  Its leaves are ranks' send buffers, and
an inner node is one call of `op_i`, on some rank, whose first argument is the left subtree's
buffer and whose second, overwritten, is the right one's.  In a pass with slots of `size` bytes
a combine whose result does not fit leaves the right operand standing.
*/
module Trees {
  import opened Marshal
  import opened Combine
  import opened Folds

  datatype Tree = Leaf(rank: nat) | Node(at: nat, left: Tree, right: Tree)

  /** An overflow flag raised on a rank: its `resize` field after the combine. */
  datatype Raise = Raise(rank: nat, size: nat)

  function Leaves(t: Tree): (ranks: seq<nat>)
    ensures ranks != []
  {
    match t
    case Leaf(r) => [r]
    case Node(_, l, r) => Leaves(l) + Leaves(r)
  }

  ghost predicate Within(t: Tree, n: nat) {
    match t
    case Leaf(r) => r < n
    case Node(at, l, r) => at < n && Within(l, n) && Within(r, n)
  }

  function Range(n: nat): (ranks: seq<nat>)
    ensures |ranks| == n
  {
    seq(n, i => i)
  }

  /** The rank order MPI promises; an op created as commutative lets it use any order. */
  ghost predicate Ordered(f: Proc, t: Tree, hi: nat) {
    Leaves(t) == Range(hi) || (Commutative(f) && multiset(Leaves(t)) == multiset(Range(hi)))
  }

  /** The ranks' arguments: `c[r][e]` is element `e` of rank `r`. */
  ghost predicate Table(c: seq<seq<Obj>>, count: nat) {
    forall r :: 0 <= r < |c| ==> |c[r]| == count
  }

  /** The contributions of ranks `0..hi` to element `e`, in rank order. */
  function Column(c: seq<seq<Obj>>, hi: nat, e: nat): (xs: seq<Obj>)
    requires hi <= |c| && forall r :: 0 <= r < |c| ==> e < |c[r]|
    ensures |xs| == hi
  {
    seq(hi, r requires 0 <= r < hi => c[r][e])
  }

  lemma {:induction false} LeavesWithin(t: Tree, n: nat)
    requires Within(t, n)
    ensures forall i :: 0 <= i < |Leaves(t)| ==> Leaves(t)[i] < n
  {
    if t.Node? {
      LeavesWithin(t.left, n);
      LeavesWithin(t.right, n);
    }
  }

  // ---------- What the slots hold after a pass ----------

  /** The object in slot `e` of the buffer the tree leaves behind. */
  ghost function Held(f: Proc, t: Tree, c: seq<seq<Obj>>, count: nat, e: nat, size: nat): Obj
    requires Table(c, count) && Within(t, |c|) && e < count
  {
    match t
    case Leaf(r) => c[r][e]
    case Node(_, l, r) => MergedObj(f, Held(f, l, c, count, e, size), Held(f, r, c, count, e, size), size)
  }

  /** Which contributions went into it: a combine that overflows loses its left subtree. */
  ghost function Kept(f: Proc, t: Tree, c: seq<seq<Obj>>, count: nat, e: nat, size: nat): (xs: seq<Obj>)
    requires Table(c, count) && Within(t, |c|) && e < count
    ensures xs != []
  {
    match t
    case Leaf(r) => [c[r][e]]
    case Node(_, l, r) =>
      if Needed(f, Held(f, l, c, count, e, size), Held(f, r, c, count, e, size)) > size
      then Kept(f, r, c, count, e, size)
      else Kept(f, l, c, count, e, size) + Kept(f, r, c, count, e, size)
  }

  /** No combine of element `e` overflows. */
  ghost predicate Fits(f: Proc, t: Tree, c: seq<seq<Obj>>, count: nat, e: nat, size: nat)
    requires Table(c, count) && Within(t, |c|) && e < count
  {
    t.Node? ==>
      && Needed(f, Held(f, t.left, c, count, e, size), Held(f, t.right, c, count, e, size)) <= size
      && Fits(f, t.left, c, count, e, size) && Fits(f, t.right, c, count, e, size)
  }

  /** Stale or not, a slot always holds the fold of some of the contributions. */
  lemma {:induction false} HeldIsFold(f: Proc, t: Tree, c: seq<seq<Obj>>, count: nat, e: nat, size: nat)
    requires Associative(f) && Table(c, count) && Within(t, |c|) && e < count
    ensures Held(f, t, c, count, e, size) == Fold(f, Kept(f, t, c, count, e, size))
  {
    if t.Node? {
      HeldIsFold(f, t.left, c, count, e, size);
      HeldIsFold(f, t.right, c, count, e, size);
      FoldConcat(f, Kept(f, t.left, c, count, e, size), Kept(f, t.right, c, count, e, size));
    }
  }

  /** The contributions at the tree's leaves. */
  ghost function Offered(t: Tree, c: seq<seq<Obj>>, count: nat, e: nat): seq<Obj>
    requires Table(c, count) && Within(t, |c|) && e < count
  {
    LeavesWithin(t, |c|);
    Select(Leaves(t), Column(c, |c|, e))
  }

  lemma OfferedConcat(t: Tree, c: seq<seq<Obj>>, count: nat, e: nat)
    requires Table(c, count) && Within(t, |c|) && e < count && t.Node?
    ensures Offered(t, c, count, e) == Offered(t.left, c, count, e) + Offered(t.right, c, count, e)
  {
    LeavesWithin(t.left, |c|);
    LeavesWithin(t.right, |c|);
    SelectConcat(Leaves(t.left), Leaves(t.right), Column(c, |c|, e));
  }

  lemma {:induction false} KeptIsSubseq(f: Proc, t: Tree, c: seq<seq<Obj>>, count: nat, e: nat, size: nat)
    requires Table(c, count) && Within(t, |c|) && e < count
    ensures Subseq(Kept(f, t, c, count, e, size), Offered(t, c, count, e))
  {
    match t
    case Leaf(r) =>
      assert Offered(t, c, count, e) == [c[r][e]];
      SubseqRefl([c[r][e]]);
    case Node(_, l, r) =>
      KeptIsSubseq(f, l, c, count, e, size);
      KeptIsSubseq(f, r, c, count, e, size);
      OfferedConcat(t, c, count, e);
      var xs, ys := Offered(l, c, count, e), Offered(r, c, count, e);
      SubseqConcat(Kept(f, l, c, count, e, size), xs, Kept(f, r, c, count, e, size), ys);
      SubseqSkip(Kept(f, r, c, count, e, size), xs, ys);
  }

  lemma {:induction false} FitsKeepsAll(f: Proc, t: Tree, c: seq<seq<Obj>>, count: nat, e: nat, size: nat)
    requires Table(c, count) && Within(t, |c|) && e < count && Fits(f, t, c, count, e, size)
    ensures Kept(f, t, c, count, e, size) == Offered(t, c, count, e)
  {
    match t
    case Leaf(r) => assert Offered(t, c, count, e) == [c[r][e]];
    case Node(_, l, r) =>
      FitsKeepsAll(f, l, c, count, e, size);
      FitsKeepsAll(f, r, c, count, e, size);
      OfferedConcat(t, c, count, e);
  }

  // ---------- Results and bounds in terms of the contributions alone ----------

  ghost function Folded(f: Proc, c: seq<seq<Obj>>, hi: nat, e: nat): Obj
    requires 0 < hi <= |c| && forall r :: 0 <= r < |c| ==> e < |c[r]|
  {
    Fold(f, Column(c, hi, e))
  }

  lemma OfferedIsColumn(f: Proc, t: Tree, c: seq<seq<Obj>>, count: nat, hi: nat, e: nat)
    requires Table(c, count) && Within(t, |c|) && e < count && hi <= |c| && Ordered(f, t, hi)
    ensures Offered(t, c, count, e) == Column(c, hi, e)
         || (Commutative(f) && multiset(Offered(t, c, count, e)) == multiset(Column(c, hi, e)))
  {
    LeavesWithin(t, |c|);
    assert Select(Range(hi), Column(c, |c|, e)) == Column(c, hi, e);
    if Leaves(t) != Range(hi) {
      SelectPermutes(Leaves(t), Range(hi), Column(c, |c|, e));
    }
  }

  /** A pass without overflow leaves the fold of all contributions, whatever the tree. */
  lemma QuietPassFolds(f: Proc, t: Tree, c: seq<seq<Obj>>, count: nat, hi: nat, e: nat, size: nat)
    requires Associative(f) && Table(c, count) && Within(t, |c|) && e < count
    requires 0 < hi <= |c| && Ordered(f, t, hi) && Fits(f, t, c, count, e, size)
    ensures Held(f, t, c, count, e, size) == Folded(f, c, hi, e)
  {
    HeldIsFold(f, t, c, count, e, size);
    FitsKeepsAll(f, t, c, count, e, size);
    OfferedIsColumn(f, t, c, count, hi, e);
    if Offered(t, c, count, e) != Column(c, hi, e) {
      FoldPermutation(f, Offered(t, c, count, e), Column(c, hi, e));
    }
  }

  ghost function EncodedSize(): (size: Obj -> nat)
    ensures forall x :: size(x) == |Dump(x)|
  {
    x => |Dump(x)|
  }

  /** The longest encoding of any fold of some of the contributions to element `e`. */
  ghost function LongestFold(f: Proc, c: seq<seq<Obj>>, e: nat): nat
    requires forall r :: 0 <= r < |c| ==> e < |c[r]|
  {
    Largest(f, EncodedSize(), Column(c, |c|, e))
  }

  /** Any fold of some of the contributions below `hi`, in an order the op allows, is bounded. */
  lemma FoldIsBounded(f: Proc, c: seq<seq<Obj>>, hi: nat, e: nat, xs: seq<Obj>, part: seq<Obj>)
    requires Associative(f) && hi <= |c| && forall r :: 0 <= r < |c| ==> e < |c[r]|
    requires xs == Column(c, hi, e) || (Commutative(f) && multiset(xs) == multiset(Column(c, hi, e)))
    requires part != [] && Subseq(part, xs)
    ensures |Dump(Fold(f, part))| <= LongestFold(f, c, e)
  {
    var all, low := Column(c, |c|, e), Column(c, hi, e);
    assert all == low + all[hi..];
    var sub := part;
    if xs != low {
      SubseqMultiset(part, xs);
      sub := SubseqOf(part, low);
      FoldPermutation(f, part, sub);
    }
    SubseqPrefix(sub, low, all[hi..]);
    LargestBounds(f, EncodedSize(), all, sub);
  }

  /** What a combine works on is the fold of some of the contributions. */
  lemma CombineIsFold(f: Proc, t: Tree, c: seq<seq<Obj>>, count: nat, e: nat, size: nat)
    requires Associative(f) && Table(c, count) && Within(t, |c|) && e < count && t.Node?
    ensures var both := Kept(f, t.left, c, count, e, size) + Kept(f, t.right, c, count, e, size);
            && Subseq(both, Offered(t, c, count, e))
            && f(Held(f, t.left, c, count, e, size), Held(f, t.right, c, count, e, size)) == Fold(f, both)
  {
    var l, r := t.left, t.right;
    KeptIsSubseq(f, l, c, count, e, size);
    KeptIsSubseq(f, r, c, count, e, size);
    OfferedConcat(t, c, count, e);
    SubseqConcat(Kept(f, l, c, count, e, size), Offered(l, c, count, e),
                 Kept(f, r, c, count, e, size), Offered(r, c, count, e));
    HeldIsFold(f, l, c, count, e, size);
    HeldIsFold(f, r, c, count, e, size);
    FoldConcat(f, Kept(f, l, c, count, e, size), Kept(f, r, c, count, e, size));
  }

  /** No combine in the tree needs more than `bound` bytes for element `e`. */
  ghost predicate NeedsAtMost(f: Proc, t: Tree, c: seq<seq<Obj>>, count: nat, e: nat, size: nat, bound: nat)
    requires Table(c, count) && Within(t, |c|) && e < count
  {
    t.Node? ==>
      && Needed(f, Held(f, t.left, c, count, e, size), Held(f, t.right, c, count, e, size)) <= bound
      && NeedsAtMost(f, t.left, c, count, e, size, bound) && NeedsAtMost(f, t.right, c, count, e, size, bound)
  }

  lemma {:induction false} SubtreesAreBounded(f: Proc, t: Tree, c: seq<seq<Obj>>, count: nat, hi: nat, e: nat,
                                              size: nat, xs: seq<Obj>)
    requires Associative(f) && Table(c, count) && Within(t, |c|) && e < count && hi <= |c|
    requires xs == Column(c, hi, e) || (Commutative(f) && multiset(xs) == multiset(Column(c, hi, e)))
    requires Subseq(Offered(t, c, count, e), xs)
    ensures NeedsAtMost(f, t, c, count, e, size, 1 + LongestFold(f, c, e))
  {
    if t.Node? {
      var both := Kept(f, t.left, c, count, e, size) + Kept(f, t.right, c, count, e, size);
      CombineIsFold(f, t, c, count, e, size);
      SubseqTrans(both, Offered(t, c, count, e), xs);
      FoldIsBounded(f, c, hi, e, xs, both);
      HalvesAreOffered(t, c, count, e, xs);
      SubtreesAreBounded(f, t.left, c, count, hi, e, size, xs);
      SubtreesAreBounded(f, t.right, c, count, hi, e, size, xs);
    }
  }

  lemma HalvesAreOffered(t: Tree, c: seq<seq<Obj>>, count: nat, e: nat, xs: seq<Obj>)
    requires Table(c, count) && Within(t, |c|) && e < count && t.Node?
    requires Subseq(Offered(t, c, count, e), xs)
    ensures Subseq(Offered(t.left, c, count, e), xs) && Subseq(Offered(t.right, c, count, e), xs)
  {
    var a, b := Offered(t.left, c, count, e), Offered(t.right, c, count, e);
    OfferedConcat(t, c, count, e);
    SubseqRefl(a);
    SubseqRefl(b);
    SubseqPrefix(a, a, b);
    SubseqSkip(b, a, b);
    SubseqTrans(a, a + b, xs);
    SubseqTrans(b, a + b, xs);
  }

  /** However many combines overflow and leave stale slots behind, none of them ever needs more
      than one byte beyond the longest fold of some of the contributions. */
  lemma OverflowIsBounded(f: Proc, t: Tree, c: seq<seq<Obj>>, count: nat, hi: nat, e: nat, size: nat)
    requires Associative(f) && Table(c, count) && Within(t, |c|) && e < count
    requires hi <= |c| && Ordered(f, t, hi)
    ensures NeedsAtMost(f, t, c, count, e, size, 1 + LongestFold(f, c, e))
  {
    OfferedIsColumn(f, t, c, count, hi, e);
    SubseqRefl(Offered(t, c, count, e));
    SubtreesAreBounded(f, t, c, count, hi, e, size, Offered(t, c, count, e));
  }
}
