/** The functions MPI calls to combine two buffers: the generated `op_i` of `src/ops.rb`, and
`op_min` and `op_minloc`.

A buffer is a row of slots of one size.  Element by element, `op_i` loads an object from either
buffer, calls the user's procedure, and writes the marshalled result over the second one's slot.
A result that does not fit is not written: the slot keeps what it held and the size that would
have been enough is left in the op's `resize` field.
*/
module Combine {
  import opened Marshal
  import opened Slots

  type Proc = (Obj, Obj) -> Obj

  /** The slot size a combine of `x` and `y` needs. */
  function Needed(f: Proc, x: Obj, y: Obj): nat {
    |Dump(f(x, y))| + 1
  }

  /** What a slot of `inoutvec` is after the combine. */
  function Merged(f: Proc, a: Bytes, b: Bytes): (s: Bytes)
    requires Load(a).Some? && Load(b).Some?
    ensures |s| == |b|
  {
    var x, y := Load(a).value, Load(b).value;
    if Needed(f, x, y) > |b| then b else Filled(b, Image(f(x, y), true))
  }

  /** The object in that slot: the result, or the second argument if the result did not fit. */
  function MergedObj(f: Proc, x: Obj, y: Obj, size: nat): Obj {
    if Needed(f, x, y) > size then y else f(x, y)
  }

  lemma MergedLoads(f: Proc, a: Bytes, b: Bytes)
    requires Load(a).Some? && Load(b).Some?
    ensures Load(Merged(f, a, b)) == Some(MergedObj(f, Load(a).value, Load(b).value, |b|))
  {
    var x, y := Load(a).value, Load(b).value;
    if Needed(f, x, y) <= |b| {
      FilledLoads(b, f(x, y), true);
    }
  }

  predicate BothLoad(a: Bytes, b: Bytes) {
    Load(a).Some? && Load(b).Some?
  }

  /** The first `k` slots of `inoutvec` are combined, the others as they were. */
  ghost predicate CombinedTo(f: Proc, a: seq<Bytes>, was: seq<Bytes>, now: seq<Bytes>, k: nat)
    requires |a| == |was| == |now| && k <= |a|
  {
    && (forall e :: 0 <= e < k ==> BothLoad(a[e], was[e]) && now[e] == Merged(f, a[e], was[e]))
    && (forall e :: k <= e < |a| ==> now[e] == was[e])
  }

  /** The slot size the combine of two slots needs. */
  function Need(f: Proc, a: Bytes, b: Bytes): nat {
    if BothLoad(a, b) then Needed(f, Load(a).value, Load(b).value) else 0
  }

  /** The `resize` field after the first `k` elements: every overflow overwrites it. */
  ghost function Flagged(f: Proc, a: seq<Bytes>, was: seq<Bytes>, k: nat, flag: nat): nat
    requires |a| == |was| && k <= |a|
  {
    if k == 0 then flag
    else
      var need := Need(f, a[k - 1], was[k - 1]);
      if need > |was[k - 1]| then need else Flagged(f, a, was, k - 1, flag)
  }

  /** One turn of the loop in `op_i`; Ruby raises where an element of either buffer does not load. */
  method CombineSlot(f: Proc, invec: array<Byte>, inoutvec: array<Byte>, len: nat, size: nat, i: nat, flag: nat)
    returns (raised: bool, resize: nat)
    requires invec != inoutvec && invec.Length == inoutvec.Length == len * size && i < len
    modifies inoutvec
    ensures var a, was := Row(invec[..], size, len), Row(old(inoutvec[..]), size, len);
            && raised == !BothLoad(a[i], was[i])
            && (raised ==> inoutvec[..] == old(inoutvec[..]))
            && (!raised ==> Row(inoutvec[..], size, len) == was[i := Merged(f, a[i], was[i])])
            && (!raised ==> resize == if Need(f, a[i], was[i]) > size then Need(f, a[i], was[i]) else flag)
  {
    SlotBounds(i, len, size);
    var arg1 := Load(invec[i * size..(i + 1) * size]);
    var arg2 := Load(inoutvec[i * size..(i + 1) * size]);
    if arg1.None? || arg2.None? {
      return true, flag;
    }
    var data := Dump(f(arg1.value, arg2.value));
    var length := |data|;
    raised, resize := false, flag;
    if length + 1 > size {
      resize := length + 1;
    } else {
      WriteImage(inoutvec, size, len, i, data + [0]);
    }
  }

  lemma CombinedStep(f: Proc, a: seq<Bytes>, was: seq<Bytes>, now: seq<Bytes>, next: seq<Bytes>, k: nat,
                     flag: nat, resize: nat, flagged: nat)
    requires |a| == |was| == |now| && k < |a| && CombinedTo(f, a, was, now, k)
    requires BothLoad(a[k], now[k]) && next == now[k := Merged(f, a[k], now[k])]
    requires resize == Flagged(f, a, was, k, flag)
    requires flagged == if Need(f, a[k], now[k]) > |now[k]| then Need(f, a[k], now[k]) else resize
    ensures CombinedTo(f, a, was, next, k + 1)
    ensures flagged == Flagged(f, a, was, k + 1, flag)
  {
  }

  /** What the combined slots load to. */
  lemma CombinedLoads(f: Proc, a: seq<Bytes>, was: seq<Bytes>, now: seq<Bytes>, k: nat, size: nat)
    requires |a| == |was| == |now| && k <= |a| && CombinedTo(f, a, was, now, k)
    requires forall e :: 0 <= e < |was| ==> |was[e]| == size
    ensures forall e :: 0 <= e < k ==> Load(a[e]).Some? && Load(was[e]).Some?
    ensures forall e :: 0 <= e < k ==>
              var y := f(Load(a[e]).value, Load(was[e]).value);
              if |Dump(y)| + 1 > size then now[e] == was[e] else Load(now[e]) == Some(y)
  {
    forall e | 0 <= e < k
      ensures var y := f(Load(a[e]).value, Load(was[e]).value);
              if |Dump(y)| + 1 > size then now[e] == was[e] else Load(now[e]) == Some(y)
    {
      MergedLoads(f, a[e], was[e]);
    }
  }

  /** `op_i`: combines element by element up to the first that does not load. */
  method OpCombine(f: Proc, invec: array<Byte>, inoutvec: array<Byte>, len: nat, size: nat, flag: nat)
    returns (resize: nat, stop: nat)
    requires invec != inoutvec && invec.Length == inoutvec.Length == len * size
    modifies inoutvec
    ensures stop <= len
    ensures var a, was := Row(invec[..], size, len), Row(old(inoutvec[..]), size, len);
            && (stop < len ==> !BothLoad(a[stop], was[stop]))
            && CombinedTo(f, a, was, Row(inoutvec[..], size, len), stop)
            && resize == Flagged(f, a, was, stop, flag)
    ensures var a, was, now := Row(invec[..], size, len), Row(old(inoutvec[..]), size, len), Row(inoutvec[..], size, len);
            && (forall e :: stop <= e < len ==> now[e] == was[e])
            && (forall e :: 0 <= e < stop ==> Load(a[e]).Some? && Load(was[e]).Some?)
            && (forall e :: 0 <= e < stop ==>
                  var y := f(Load(a[e]).value, Load(was[e]).value);
                  if |Dump(y)| + 1 > size then now[e] == was[e] else Load(now[e]) == Some(y))
  {
    ghost var a, was := Row(invec[..], size, len), Row(inoutvec[..], size, len);
    ghost var now := was;
    resize, stop := flag, 0;
    while stop < len
      invariant stop <= len
      invariant now == Row(inoutvec[..], size, len)
      invariant CombinedTo(f, a, was, now, stop)
      invariant resize == Flagged(f, a, was, stop, flag)
    {
      var raised, flagged := CombineSlot(f, invec, inoutvec, len, size, stop, resize);
      if raised {
        break;
      }
      ghost var next := Row(inoutvec[..], size, len);
      CombinedStep(f, a, was, now, next, stop, flag, resize, flagged);
      now, resize, stop := next, flagged, stop + 1;
    }
    CombinedLoads(f, a, was, now, stop, size);
  }

  // ---------- In terms of objects ----------

  /** The last size asked for by the first `k` elements, or 0. */
  ghost function LastNeed(f: Proc, xs: seq<Obj>, ys: seq<Obj>, size: nat, k: nat): nat
    requires |xs| == |ys| && k <= |xs|
  {
    if k == 0 then 0
    else
      var need := Needed(f, xs[k - 1], ys[k - 1]);
      if need > size then need else LastNeed(f, xs, ys, size, k - 1)
  }

  /** It is 0 exactly when everything fits; otherwise it is more than the slots have, and some
      element did need it. */
  lemma {:induction false} LastNeedMeaning(f: Proc, xs: seq<Obj>, ys: seq<Obj>, size: nat, k: nat)
    requires |xs| == |ys| && k <= |xs|
    ensures LastNeed(f, xs, ys, size, k) == 0 <==> forall e :: 0 <= e < k ==> Needed(f, xs[e], ys[e]) <= size
    ensures var need := LastNeed(f, xs, ys, size, k);
            need != 0 ==> need > size && exists e :: 0 <= e < k && need == Needed(f, xs[e], ys[e])
  {
    if k > 0 {
      LastNeedMeaning(f, xs, ys, size, k - 1);
    }
  }

  function MergedObjs(f: Proc, xs: seq<Obj>, ys: seq<Obj>, size: nat): (zs: seq<Obj>)
    requires |xs| == |ys|
    ensures |zs| == |xs|
  {
    seq(|xs|, e requires 0 <= e < |xs| => MergedObj(f, xs[e], ys[e], size))
  }

  lemma HeldNeed(f: Proc, a: Bytes, b: Bytes, x: Obj, y: Obj)
    requires Load(a) == Some(x) && Load(b) == Some(y)
    ensures BothLoad(a, b) && Need(f, a, b) == Needed(f, x, y)
  {
  }

  lemma {:induction false} FlaggedIsLastNeed(f: Proc, a: seq<Bytes>, was: seq<Bytes>, xs: seq<Obj>, ys: seq<Obj>, size: nat, k: nat)
    requires |a| == |was| == |xs| == |ys| && k <= |xs|
    requires forall e :: 0 <= e < |xs| ==> Need(f, a[e], was[e]) == Needed(f, xs[e], ys[e])
    requires forall e :: 0 <= e < |was| ==> |was[e]| == size
    ensures Flagged(f, a, was, k, 0) == LastNeed(f, xs, ys, size, k)
  {
    if k > 0 {
      FlaggedIsLastNeed(f, a, was, xs, ys, size, k - 1);
    }
  }

  lemma CombinedHolds(f: Proc, a: seq<Bytes>, was: seq<Bytes>, now: seq<Bytes>, xs: seq<Obj>, ys: seq<Obj>, size: nat)
    requires Holds(a, xs) && Holds(was, ys) && |xs| == |ys| == |now|
    requires forall e :: 0 <= e < |was| ==> |was[e]| == size
    requires CombinedTo(f, a, was, now, |xs|)
    ensures Holds(now, MergedObjs(f, xs, ys, size))
  {
    forall e | 0 <= e < |xs|
      ensures Load(now[e]) == Some(MergedObjs(f, xs, ys, size)[e])
    {
      MergedLoads(f, a[e], was[e]);
    }
  }

  /** `op_i` on buffers that load: no exception, and the outcome object by object. */
  method CombineObjects(f: Proc, invec: array<Byte>, inoutvec: array<Byte>, ghost xs: seq<Obj>, ghost ys: seq<Obj>,
                        len: nat, size: nat)
    returns (resize: nat)
    requires invec != inoutvec && invec.Length == inoutvec.Length == len * size && |xs| == |ys| == len
    requires Holds(Row(invec[..], size, len), xs) && Holds(Row(inoutvec[..], size, len), ys)
    modifies inoutvec
    ensures Holds(Row(inoutvec[..], size, len), MergedObjs(f, xs, ys, size))
    ensures resize == LastNeed(f, xs, ys, size, len)
    ensures var now := Row(inoutvec[..], size, len);
            forall e :: 0 <= e < len ==>
              Load(now[e]) == Some(if |Dump(f(xs[e], ys[e]))| + 1 > size then ys[e] else f(xs[e], ys[e]))
    ensures resize == 0 <==> forall e :: 0 <= e < len ==> |Dump(f(xs[e], ys[e]))| + 1 <= size
    ensures resize > 0 ==> resize > size && exists e :: 0 <= e < len && resize == |Dump(f(xs[e], ys[e]))| + 1
  {
    ghost var a, was := Row(invec[..], size, len), Row(inoutvec[..], size, len);
    AllLoad(a, was, xs, ys);
    var stop;
    resize, stop := OpCombine(f, invec, inoutvec, len, size, 0);
    CombineConcludes(f, a, was, Row(inoutvec[..], size, len), xs, ys, size, resize);
  }

  lemma AllLoad(a: seq<Bytes>, was: seq<Bytes>, xs: seq<Obj>, ys: seq<Obj>)
    requires Holds(a, xs) && Holds(was, ys) && |xs| == |ys|
    ensures forall e :: 0 <= e < |a| ==> BothLoad(a[e], was[e])
  {
  }

  lemma FlaggedConcludes(f: Proc, a: seq<Bytes>, was: seq<Bytes>, xs: seq<Obj>, ys: seq<Obj>, size: nat)
    requires Holds(a, xs) && Holds(was, ys) && |xs| == |ys|
    requires forall e :: 0 <= e < |was| ==> |was[e]| == size
    ensures Flagged(f, a, was, |xs|, 0) == LastNeed(f, xs, ys, size, |xs|)
  {
    forall e | 0 <= e < |a|
      ensures Need(f, a[e], was[e]) == Needed(f, xs[e], ys[e])
    {
      HeldNeed(f, a[e], was[e], xs[e], ys[e]);
    }
    FlaggedIsLastNeed(f, a, was, xs, ys, size, |xs|);
  }

  /** What a combine that got through has left, object by object. */
  lemma CombineConcludes(f: Proc, a: seq<Bytes>, was: seq<Bytes>, now: seq<Bytes>, xs: seq<Obj>, ys: seq<Obj>,
                         size: nat, resize: nat)
    requires Holds(a, xs) && Holds(was, ys) && |xs| == |ys| == |now|
    requires forall e :: 0 <= e < |was| ==> |was[e]| == size
    requires CombinedTo(f, a, was, now, |xs|) && resize == Flagged(f, a, was, |xs|, 0)
    ensures Holds(now, MergedObjs(f, xs, ys, size)) && resize == LastNeed(f, xs, ys, size, |xs|)
    ensures forall e :: 0 <= e < |xs| ==>
              Load(now[e]) == Some(if |Dump(f(xs[e], ys[e]))| + 1 > size then ys[e] else f(xs[e], ys[e]))
    ensures resize == 0 <==> forall e :: 0 <= e < |xs| ==> |Dump(f(xs[e], ys[e]))| + 1 <= size
    ensures resize > 0 ==> resize > size && exists e :: 0 <= e < |xs| && resize == |Dump(f(xs[e], ys[e]))| + 1
  {
    FlaggedConcludes(f, a, was, xs, ys, size);
    LastNeedMeaning(f, xs, ys, size, |xs|);
    CombinedHolds(f, a, was, now, xs, ys, size);
  }
}
