/** Folding contributions in rank order, and how long a fold of some of them can get. */
module Folds {

  /** An associative operation. */
  ghost predicate Associative<T(!new)>(f: (T, T) -> T) {
    forall x, y, z {:trigger f(f(x, y), z)} :: f(f(x, y), z) == f(x, f(y, z))
  }

  ghost predicate Commutative<T(!new)>(f: (T, T) -> T) {
    forall x, y {:trigger f(x, y)} :: f(x, y) == f(y, x)
  }

  function FoldFrom<T>(f: (T, T) -> T, a: T, xs: seq<T>): T {
    if xs == [] then a else FoldFrom(f, f(a, xs[0]), xs[1..])
  }

  /** The value a reduction stands for: the contributions combined from the first to the last. */
  function Fold<T>(f: (T, T) -> T, xs: seq<T>): T
    requires xs != []
  {
    FoldFrom(f, xs[0], xs[1..])
  }

  lemma {:induction false} FoldFromMoves<T(!new)>(f: (T, T) -> T, a: T, b: T, xs: seq<T>)
    requires Associative(f)
    ensures FoldFrom(f, f(a, b), xs) == f(a, FoldFrom(f, b, xs))
    decreases |xs|
  {
    if xs != [] {
      assert f(f(a, b), xs[0]) == f(a, f(b, xs[0]));
      FoldFromMoves(f, a, f(b, xs[0]), xs[1..]);
    }
  }

  lemma {:induction false} FoldFromConcat<T>(f: (T, T) -> T, a: T, xs: seq<T>, ys: seq<T>)
    ensures FoldFrom(f, a, xs + ys) == FoldFrom(f, FoldFrom(f, a, xs), ys)
    decreases |xs|
  {
    if xs == [] {
      assert xs + ys == ys;
    } else {
      assert (xs + ys)[1..] == xs[1..] + ys;
      FoldFromConcat(f, f(a, xs[0]), xs[1..], ys);
    }
  }

  /** Where the contributions are split does not matter. */
  lemma FoldConcat<T(!new)>(f: (T, T) -> T, xs: seq<T>, ys: seq<T>)
    requires Associative(f) && xs != [] && ys != []
    ensures Fold(f, xs + ys) == f(Fold(f, xs), Fold(f, ys))
  {
    assert (xs + ys)[1..] == xs[1..] + ys;
    FoldFromConcat(f, xs[0], xs[1..], ys);
    FoldFromMoves(f, Fold(f, xs), ys[0], ys[1..]);
  }

  // ---------- Subsequences ----------

  ghost predicate Subseq<T>(sub: seq<T>, xs: seq<T>) {
    if sub == [] then true
    else if xs == [] then false
    else (sub[0] == xs[0] && Subseq(sub[1..], xs[1..])) || Subseq(sub, xs[1..])
  }

  lemma {:induction false} SubseqRefl<T>(xs: seq<T>)
    ensures Subseq(xs, xs)
  {
    if xs != [] {
      SubseqRefl(xs[1..]);
    }
  }

  lemma {:induction false} SubseqSkip<T>(sub: seq<T>, xs: seq<T>, ys: seq<T>)
    requires Subseq(sub, ys)
    ensures Subseq(sub, xs + ys)
    decreases |xs|
  {
    if xs == [] {
      assert xs + ys == ys;
    } else {
      SubseqSkip(sub, xs[1..], ys);
      assert (xs + ys)[1..] == xs[1..] + ys;
    }
  }

  lemma {:induction false} SubseqConcat<T>(sub: seq<T>, xs: seq<T>, sub': seq<T>, ys: seq<T>)
    requires Subseq(sub, xs) && Subseq(sub', ys)
    ensures Subseq(sub + sub', xs + ys)
    decreases |xs|
  {
    if sub == [] {
      assert sub + sub' == sub';
      SubseqSkip(sub', xs, ys);
    } else {
      assert (xs + ys)[1..] == xs[1..] + ys;
      if sub[0] == xs[0] && Subseq(sub[1..], xs[1..]) {
        SubseqConcat(sub[1..], xs[1..], sub', ys);
        assert (sub + sub')[1..] == sub[1..] + sub';
      } else {
        SubseqConcat(sub, xs[1..], sub', ys);
      }
    }
  }

  lemma SubseqPrefix<T>(sub: seq<T>, xs: seq<T>, ys: seq<T>)
    requires Subseq(sub, xs)
    ensures Subseq(sub, xs + ys)
  {
    SubseqConcat(sub, xs, [], ys);
    assert sub + [] == sub;
  }

  lemma {:induction false} SubseqTrans<T>(a: seq<T>, b: seq<T>, c: seq<T>)
    requires Subseq(a, b) && Subseq(b, c)
    ensures Subseq(a, c)
    decreases |c|
  {
    if a != [] {
      if b[0] == c[0] && Subseq(b[1..], c[1..]) {
        if a[0] == b[0] && Subseq(a[1..], b[1..]) {
          SubseqTrans(a[1..], b[1..], c[1..]);
        } else {
          SubseqTrans(a, b[1..], c[1..]);
        }
      } else {
        SubseqTrans(a, b, c[1..]);
      }
    }
  }

  // ---------- The largest fold of a subsequence ----------

  function Max(a: nat, b: nat): nat {
    if a >= b then a else b
  }

  /** The largest size of `a` combined with any subsequence of `xs`. */
  function LargestFrom<T>(f: (T, T) -> T, size: T -> nat, a: T, xs: seq<T>): nat
    decreases |xs|
  {
    if xs == [] then size(a)
    else Max(LargestFrom(f, size, a, xs[1..]), LargestFrom(f, size, f(a, xs[0]), xs[1..]))
  }

  /** The largest size of the fold of any non-empty subsequence of `xs`. */
  function Largest<T>(f: (T, T) -> T, size: T -> nat, xs: seq<T>): nat {
    if xs == [] then 0
    else Max(Largest(f, size, xs[1..]), LargestFrom(f, size, xs[0], xs[1..]))
  }

  lemma {:induction false} LargestFromBounds<T>(f: (T, T) -> T, size: T -> nat, a: T, xs: seq<T>, sub: seq<T>)
    requires Subseq(sub, xs)
    ensures size(FoldFrom(f, a, sub)) <= LargestFrom(f, size, a, xs)
    decreases |xs|
  {
    if xs != [] {
      if sub != [] && sub[0] == xs[0] && Subseq(sub[1..], xs[1..]) {
        LargestFromBounds(f, size, f(a, xs[0]), xs[1..], sub[1..]);
      } else {
        LargestFromBounds(f, size, a, xs[1..], sub);
      }
    }
  }

  lemma {:induction false} LargestBounds<T>(f: (T, T) -> T, size: T -> nat, xs: seq<T>, sub: seq<T>)
    requires Subseq(sub, xs) && sub != []
    ensures size(Fold(f, sub)) <= Largest(f, size, xs)
    decreases |xs|
  {
    if sub[0] == xs[0] && Subseq(sub[1..], xs[1..]) {
      LargestFromBounds(f, size, xs[0], xs[1..], sub[1..]);
    } else {
      LargestBounds(f, size, xs[1..], sub);
    }
  }

  lemma {:induction false} LargestFromAttained<T>(f: (T, T) -> T, size: T -> nat, a: T, xs: seq<T>) returns (sub: seq<T>)
    ensures Subseq(sub, xs) && size(FoldFrom(f, a, sub)) == LargestFrom(f, size, a, xs)
    decreases |xs|
  {
    if xs == [] {
      sub := [];
    } else if LargestFrom(f, size, a, xs) == LargestFrom(f, size, a, xs[1..]) {
      sub := LargestFromAttained(f, size, a, xs[1..]);
    } else {
      var rest := LargestFromAttained(f, size, f(a, xs[0]), xs[1..]);
      sub := [xs[0]] + rest;
      assert sub[1..] == rest;
    }
  }

  /** The bound is the size of an actual fold, so no smaller bound would do. */
  lemma {:induction false} LargestAttained<T>(f: (T, T) -> T, size: T -> nat, xs: seq<T>) returns (sub: seq<T>)
    requires xs != []
    ensures sub != [] && Subseq(sub, xs) && size(Fold(f, sub)) == Largest(f, size, xs)
    decreases |xs|
  {
    if |xs| > 1 && Largest(f, size, xs) == Largest(f, size, xs[1..]) {
      sub := LargestAttained(f, size, xs[1..]);
    } else {
      var rest := LargestFromAttained(f, size, xs[0], xs[1..]);
      sub := [xs[0]] + rest;
      assert sub[1..] == rest;
      assert Largest(f, size, []) == 0;
    }
  }

  // ---------- Commutative operations ----------

  function Drop<T>(xs: seq<T>, i: nat): (r: seq<T>)
    requires i < |xs|
    ensures |r| == |xs| - 1
    ensures multiset(r) == multiset(xs) - multiset{xs[i]}
  {
    assert xs == xs[..i] + [xs[i]] + xs[i + 1..];
    xs[..i] + xs[i + 1..]
  }

  /** Any contribution can be moved to the front. */
  lemma FoldPullsOut<T(!new)>(f: (T, T) -> T, xs: seq<T>, i: nat)
    requires Associative(f) && Commutative(f) && i < |xs| && |xs| > 1
    ensures Fold(f, xs) == f(xs[i], Fold(f, Drop(xs, i)))
  {
    var a, b := xs[..i], xs[i + 1..];
    assert xs == a + ([xs[i]] + b);
    assert Fold(f, [xs[i]]) == xs[i];
    if b != [] {
      FoldConcat(f, [xs[i]], b);
    }
    if a == [] {
      assert xs == [xs[i]] + b && Drop(xs, i) == b;
    } else if b == [] {
      assert xs == a + [xs[i]] && Drop(xs, i) == a;
      FoldConcat(f, a, [xs[i]]);
      assert f(Fold(f, a), xs[i]) == f(xs[i], Fold(f, a));
    } else {
      FoldConcat(f, a, [xs[i]] + b);
      FoldConcat(f, a, b);
    }
  }

  lemma IndexOf<T>(x: T, xs: seq<T>) returns (i: nat)
    requires x in multiset(xs)
    ensures i < |xs| && xs[i] == x
  {
    i :| 0 <= i < |xs| && xs[i] == x;
  }

  /** With a commutative operation the order of the contributions does not matter either. */
  lemma {:induction false} FoldPermutation<T(!new)>(f: (T, T) -> T, xs: seq<T>, ys: seq<T>)
    requires Associative(f) && Commutative(f)
    requires multiset(xs) == multiset(ys) && xs != []
    ensures ys != [] && Fold(f, xs) == Fold(f, ys)
    decreases |xs|
  {
    assert |multiset(xs)| == |xs| && |multiset(ys)| == |ys|;
    var i := IndexOf(xs[0], ys);
    if |xs| == 1 {
      assert xs == ys;
    } else {
      FoldPullsOut(f, xs, 0);
      FoldPullsOut(f, ys, i);
      FoldPermutation(f, Drop(xs, 0), Drop(ys, i));
    }
  }

  lemma DropHead<T>(part: seq<T>, i: nat, xs: seq<T>)
    requires xs != [] && i < |part| && part[i] == xs[0] && multiset(part) <= multiset(xs)
    ensures multiset(Drop(part, i)) <= multiset(xs[1..])
  {
    assert xs == [xs[0]] + xs[1..];
  }

  lemma SkipHead<T>(part: seq<T>, xs: seq<T>)
    requires xs != [] && xs[0] !in multiset(part) && multiset(part) <= multiset(xs)
    ensures multiset(part) <= multiset(xs[1..])
  {
    assert xs == [xs[0]] + xs[1..];
  }

  /** Some of the contributions, in any order, are a subsequence of them, reordered. */
  lemma {:induction false} SubseqOf<T>(part: seq<T>, xs: seq<T>) returns (sub: seq<T>)
    requires multiset(part) <= multiset(xs)
    ensures Subseq(sub, xs) && multiset(sub) == multiset(part)
    decreases |xs|
  {
    if xs == [] {
      assert |multiset(part)| == 0;
      sub := [];
    } else {
      if xs[0] in multiset(part) {
        var i := IndexOf(xs[0], part);
        DropHead(part, i, xs);
        var rest := SubseqOf(Drop(part, i), xs[1..]);
        sub := [xs[0]] + rest;
        assert sub[1..] == rest;
      } else {
        SkipHead(part, xs);
        sub := SubseqOf(part, xs[1..]);
      }
    }
  }

  lemma {:induction false} SubseqMultiset<T>(sub: seq<T>, xs: seq<T>)
    requires Subseq(sub, xs)
    ensures multiset(sub) <= multiset(xs)
    decreases |xs|
  {
    if sub != [] {
      assert xs == [xs[0]] + xs[1..];
      if sub[0] == xs[0] && Subseq(sub[1..], xs[1..]) {
        assert sub == [sub[0]] + sub[1..];
        SubseqMultiset(sub[1..], xs[1..]);
      } else {
        SubseqMultiset(sub, xs[1..]);
      }
    }
  }

  // ---------- Contributions selected by a list of ranks ----------

  function Select<T>(ranks: seq<nat>, xs: seq<T>): (r: seq<T>)
    requires forall i :: 0 <= i < |ranks| ==> ranks[i] < |xs|
    ensures |r| == |ranks|
  {
    seq(|ranks|, i requires 0 <= i < |ranks| => xs[ranks[i]])
  }

  lemma SelectConcat<T>(a: seq<nat>, b: seq<nat>, xs: seq<T>)
    requires forall i :: 0 <= i < |a| ==> a[i] < |xs|
    requires forall i :: 0 <= i < |b| ==> b[i] < |xs|
    ensures Select(a + b, xs) == Select(a, xs) + Select(b, xs)
  {
  }

  lemma DropSelect<T>(a: seq<nat>, i: nat, xs: seq<T>)
    requires i < |a| && forall k :: 0 <= k < |a| ==> a[k] < |xs|
    ensures forall k :: 0 <= k < |Drop(a, i)| ==> Drop(a, i)[k] < |xs|
    ensures multiset(Select(a, xs)) == multiset(Select(Drop(a, i), xs)) + multiset{xs[a[i]]}
  {
    assert Select(Drop(a, i), xs) == Drop(Select(a, xs), i);
    assert Select(a, xs)[i] in multiset(Select(a, xs));
  }

  /** The same ranks in another order select the same contributions in another order. */
  lemma {:induction false} SelectPermutes<T>(a: seq<nat>, b: seq<nat>, xs: seq<T>)
    requires forall i :: 0 <= i < |a| ==> a[i] < |xs|
    requires forall i :: 0 <= i < |b| ==> b[i] < |xs|
    requires multiset(a) == multiset(b)
    ensures multiset(Select(a, xs)) == multiset(Select(b, xs))
    decreases |a|
  {
    assert |multiset(a)| == |a| && |multiset(b)| == |b|;
    if a == [] {
      assert Select(a, xs) == Select(b, xs);
    } else {
      var i := IndexOf(a[0], b);
      DropSelect(a, 0, xs);
      DropSelect(b, i, xs);
      SelectPermutes(Drop(a, 0), Drop(b, i), xs);
    }
  }
}
