/** `comm_scatter`, `comm_alltoall` and `comm_bcast`, and how they fit the gathers.

The collectives of MPI itself are taken by their contracts: `MPI_Scatter` gives rank `r` block
`r` of the root's buffer, `MPI_Alltoall` gives rank `j` block `j` of every rank's buffer in rank
order, `MPI_Bcast` gives everyone the root's bytes (sections 4.4, 4.6 and 4.8 of MPI 1.1).
*/
module Collectives {
  import opened Marshal
  import opened Slots
  import opened Sums
  import E = Entry
  import G = Gather
  import A = RingAllgather

  /** What a call does on one rank: it raises an argument error, it never comes back from a
      collective that some rank it waits for will not enter, or it returns. */
  datatype Outcome<T> = Raised | Blocked | Returned(value: T)

  /** `ok[r]`: rank `r` was passed an array with one element for every rank. */
  function FullArrays(arys: seq<seq<Obj>>): (ok: seq<bool>)
    ensures |ok| == |arys| && forall r :: 0 <= r < |arys| ==> ok[r] == (|arys[r]| == |arys|)
  {
    seq(|arys|, r requires 0 <= r < |arys| => |arys[r]| == |arys|)
  }

  /** A broadcast of the slot size and a scatter: everybody hears from the root. */
  function ScatterSetup(arys: seq<seq<Obj>>, root: nat): E.Setup {
    E.Setup(FullArrays(arys), {root}, 2)
  }

  /** An all-reduce of the slot size and an all-to-all: everybody hears from everybody. */
  function AlltoallSetup(arys: seq<seq<Obj>>): (u: E.Setup)
    ensures E.SetupOk(u)
  {
    E.Setup(FullArrays(arys), UpTo(|arys|), 2)
  }

  // ---------- Blocks of a buffer ----------

  /** Block `j` of each of the first `k` buffers, one after the other. */
  function Column(sends: seq<Bytes>, stride: nat, j: nat, count: nat, k: nat): (b: Bytes)
    requires k <= |sends| && j < count && forall i :: 0 <= i < |sends| ==> |sends[i]| == count * stride
    ensures |b| == k * stride
  {
    if k == 0 then []
    else
      SlotBounds(k - 1, k, stride);
      Column(sends, stride, j, count, k - 1) + Slot(sends[k - 1], stride, j, count)
  }

  lemma {:induction false} ColumnSlot(sends: seq<Bytes>, stride: nat, j: nat, count: nat, k: nat, i: nat)
    requires i < k <= |sends| && j < count && forall i :: 0 <= i < |sends| ==> |sends[i]| == count * stride
    ensures Slot(Column(sends, stride, j, count, k), stride, i, k) == Slot(sends[i], stride, j, count)
  {
    SlotBounds(i, k, stride);
    SlotBounds(k - 1, k, stride);
    if i < k - 1 {
      ColumnSlot(sends, stride, j, count, k - 1, i);
      SlotBounds(i, k - 1, stride);
    }
  }

  // ---------- Scatter ----------

  /** What `comm_scatter` does on rank `r`. */
  function ScatterOutcome(arys: seq<seq<Obj>>, root: nat, r: nat): Outcome<Option<Obj>>
    requires root < |arys| && r < |arys|
  {
    if |arys[r]| != |arys| then Raised
    else if |arys[root]| != |arys| then Blocked
    else Returned(Some(arys[root][r]))
  }

  /** `comm_scatter`: the array given at the root, spread over the ranks.  A rank with an array of
      the wrong length raises; that keeps the others from returning only if it is the root. */
  method Scatter(arys: seq<seq<Obj>>, root: nat) returns (outs: seq<Outcome<Option<Obj>>>)
    requires root < |arys|
    ensures |outs| == |arys|
    ensures forall r :: 0 <= r < |arys| && |arys[r]| != |arys| ==> outs[r] == Raised
    ensures forall r :: 0 <= r < |arys| && |arys[r]| == |arys| && |arys[root]| != |arys| ==> outs[r] == Blocked
    ensures forall r :: 0 <= r < |arys| && |arys[r]| == |arys| && |arys[root]| == |arys| ==>
              outs[r] == Returned(Some(arys[root][r]))
  {
    var fates := E.Settle(ScatterSetup(arys, root));
    var send, longest := [], 0;
    if |arys[root]| == |arys| {
      longest := Longest(arys[root]);
      var buf := PackedBuffer(arys[root], longest, false);
      send := buf[..];
    }
    outs := [];
    for r := 0 to |arys|
      invariant |outs| == r && forall q :: 0 <= q < r ==> outs[q] == ScatterOutcome(arys, root, q)
    {
      var out := ScatterOne(arys, root, r, |arys|, fates[r], send, longest);
      outs := outs + [out];
    }
  }

  /** One rank's part, from what becomes of it and the root's packed buffer. */
  method ScatterOne(ghost arys: seq<seq<Obj>>, ghost root: nat, r: nat, n: nat, fate: E.Fate, send: Bytes, longest: nat)
    returns (out: Outcome<Option<Obj>>)
    requires root < |arys| == n && r < n && fate == E.FateOf(ScatterSetup(arys, root), r)
    requires |arys[root]| == |arys| ==> BufferHolds(send, longest, arys[root])
    ensures out == ScatterOutcome(arys, root, r)
  {
    match fate {
      case Raises => out := Raised;
      case Blocks => out := Blocked;
      case Returns =>
        var recv := Slot(send, longest, r, n);
        assert recv == Row(send, longest, n)[r];
        out := Returned(Load(recv));
    }
  }

  // ---------- All to all ----------

  predicate Matrix<T>(m: seq<seq<T>>) {
    forall r :: 0 <= r < |m| ==> |m[r]| == |m|
  }

  function Transpose<T>(m: seq<seq<T>>): (t: seq<seq<T>>)
    requires Matrix(m)
    ensures |t| == |m| && Matrix(t)
    ensures forall i, j :: 0 <= i < |m| && 0 <= j < |m| ==> t[j][i] == m[i][j]
  {
    seq(|m|, j requires 0 <= j < |m| => seq(|m|, i requires 0 <= i < |m| => m[i][j]))
  }

  lemma TransposeTwice<T>(m: seq<seq<T>>)
    requires Matrix(m)
    ensures Transpose(Transpose(m)) == m
  {
    var t := Transpose(Transpose(m));
    forall i | 0 <= i < |m|
      ensures t[i] == m[i]
    {
    }
  }

  /** The stride all ranks agree on: the largest any of them asks for. */
  method Agreed(arys: seq<seq<Obj>>) returns (glongest: nat)
    ensures forall r, e :: 0 <= r < |arys| && 0 <= e < |arys[r]| ==> |Dump(arys[r][e])| + 1 <= glongest
  {
    glongest := 0;
    for i := 0 to |arys|
      invariant forall r, e :: 0 <= r < i && 0 <= e < |arys[r]| ==> |Dump(arys[r][e])| + 1 <= glongest
    {
      var longest := Longest(arys[i]);
      if longest > glongest {
        glongest := longest;
      }
    }
  }

  /** What one rank makes of its receive buffer. */
  method Received(sends: seq<Bytes>, stride: nat, j: nat, arys: seq<seq<Obj>>) returns (rary: seq<Option<Obj>>)
    requires Matrix(arys) && |sends| == |arys| && j < |arys|
    requires forall r :: 0 <= r < |arys| ==> BufferHolds(sends[r], stride, arys[r])
    ensures rary == Somes(Transpose(arys)[j])
  {
    var n := |arys|;
    var recv := Column(sends, stride, j, n, n);
    rary := Unpack(recv, stride, n);
    forall i | 0 <= i < n
      ensures rary[i] == Some(arys[i][j])
    {
      ColumnSlot(sends, stride, j, n, n, i);
      assert BufferHolds(sends[i], stride, arys[i]);
      assert Row(recv, stride, n)[i] == Slot(recv, stride, i, n);
      assert Row(sends[i], stride, n)[j] == Slot(sends[i], stride, j, n);
    }
  }

  /** What `comm_alltoall` does on rank `j`. */
  function AlltoallOutcome(arys: seq<seq<Obj>>, j: nat): Outcome<seq<Option<Obj>>>
    requires j < |arys|
  {
    if |arys[j]| != |arys| then Raised
    else if !Matrix(arys) then Blocked
    else Returned(Somes(Transpose(arys)[j]))
  }

  /** `comm_alltoall`: object `i` at rank `j` is object `j` of rank `i`.  If one rank's array has the
      wrong length, that rank raises and no other ever returns. */
  method Alltoall(arys: seq<seq<Obj>>) returns (outs: seq<Outcome<seq<Option<Obj>>>>)
    ensures |outs| == |arys|
    ensures forall j :: 0 <= j < |arys| && |arys[j]| != |arys| ==> outs[j] == Raised
    ensures forall j, q :: 0 <= j < |arys| && |arys[j]| == |arys| && 0 <= q < |arys| && |arys[q]| != |arys| ==>
              outs[j] == Blocked
    ensures (forall r :: 0 <= r < |arys| ==> |arys[r]| == |arys|) ==>
              forall j :: 0 <= j < |arys| ==> outs[j].Returned? && |outs[j].value| == |arys|
    ensures (forall r :: 0 <= r < |arys| ==> |arys[r]| == |arys|) ==>
              forall i, j :: 0 <= i < |arys| && 0 <= j < |arys| ==> outs[j].value[i] == Some(arys[i][j])
  {
    var fates := E.Settle(AlltoallSetup(arys));
    var glongest := Agreed(arys);
    var sends := PackedBuffers(arys, glongest, false);
    outs := AlltoallAll(arys, fates, sends, glongest);
  }

  /** Every rank's part. */
  method AlltoallAll(arys: seq<seq<Obj>>, fates: seq<E.Fate>, sends: seq<Bytes>, glongest: nat)
    returns (outs: seq<Outcome<seq<Option<Obj>>>>)
    requires |fates| == |arys| && forall j :: 0 <= j < |arys| ==> fates[j] == E.FateOf(AlltoallSetup(arys), j)
    requires |sends| == |arys| && forall r :: 0 <= r < |arys| ==> BufferHolds(sends[r], glongest, arys[r])
    ensures |outs| == |arys| && forall j :: 0 <= j < |arys| ==> outs[j] == AlltoallOutcome(arys, j)
  {
    outs := [];
    for j := 0 to |arys|
      invariant |outs| == j && forall q :: 0 <= q < j ==> outs[q] == AlltoallOutcome(arys, q)
    {
      var out := AlltoallOne(arys, j, fates[j], sends, glongest);
      outs := outs + [out];
    }
  }

  lemma AllPass(arys: seq<seq<Obj>>)
    ensures Matrix(arys) <==> E.AllSourcesPass(AlltoallSetup(arys))
  {
    if E.AllSourcesPass(AlltoallSetup(arys)) {
      forall r | 0 <= r < |arys|
        ensures |arys[r]| == |arys|
      {
        assert r in AlltoallSetup(arys).sources;
      }
    }
  }

  /** One rank's part, from what becomes of it and everybody's packed buffers. */
  method AlltoallOne(arys: seq<seq<Obj>>, j: nat, fate: E.Fate, sends: seq<Bytes>, glongest: nat)
    returns (out: Outcome<seq<Option<Obj>>>)
    requires j < |arys| && fate == E.FateOf(AlltoallSetup(arys), j)
    requires |sends| == |arys| && forall r :: 0 <= r < |arys| ==> BufferHolds(sends[r], glongest, arys[r])
    ensures out == AlltoallOutcome(arys, j)
  {
    AllPass(arys);
    match fate {
      case Raises => out := Raised;
      case Blocks => out := Blocked;
      case Returns =>
        var rary := Received(sends, glongest, j, arys);
        out := Returned(rary);
    }
  }

  /** Sending back what came in: two calls in a row restore every rank's array. */
  method AlltoallTwice(arys: seq<seq<Obj>>) returns (outs: seq<Outcome<seq<Option<Obj>>>>)
    requires Matrix(arys)
    ensures |outs| == |arys| && forall r :: 0 <= r < |arys| ==> outs[r] == Returned(Somes(arys[r]))
  {
    var n := |arys|;
    var once := Alltoall(arys);
    var back := [];
    for r := 0 to n
      invariant |back| == r && forall q :: 0 <= q < r ==> back[q] == Transpose(arys)[q]
    {
      assert forall i :: 0 <= i < n ==> once[r].value[i] == Some(arys[i][r]);
      var objs := Values(once[r].value);
      assert objs == Transpose(arys)[r];
      back := back + [objs];
    }
    TransposeTwice(arys);
    outs := Alltoall(back);
    forall r | 0 <= r < n
      ensures outs[r].value == Somes(arys[r])
    {
      assert forall i :: 0 <= i < n ==> outs[r].value[i] == Some(back[i][r]);
    }
  }

  // ---------- Broadcast ----------

  /** `comm_bcast`: the length first, then the terminated bytes; the root keeps its object. */
  method Bcast(n: nat, root: nat, obj: Obj) returns (outs: seq<Option<Obj>>)
    requires root < n
    ensures |outs| == n && forall r :: 0 <= r < n ==> outs[r] == Some(obj)
  {
    var dump := Dump(obj);
    var length := |dump|;
    var wire := dump + [0];
    assert wire[..length] == dump;
    LoadExact(obj);
    outs := [];
    for r := 0 to n
      invariant |outs| == r && forall q :: 0 <= q < r ==> outs[q] == Some(obj)
    {
      if r == root {
        outs := outs + [Some(obj)];
      } else {
        var data := wire;
        outs := outs + [Load(data[..length])];
      }
    }
  }

  // ---------- How they fit together ----------

  /** One `comm_gather`: the root's array. */
  method GatherOnce(objs: seq<Obj>, root: nat) returns (ary: seq<Option<Obj>>)
    requires root < |objs|
    ensures ary == Somes(objs)
  {
    var plan := G.Plan(|objs|, [root], [objs]);
    var results := G.GatherAll(plan);
    assert plan.roots[0] == root && plan.objs[0] == objs;
    ary := results[root][0];
  }

  /** Gathering at the root what was scattered from it gives back the array. */
  method ScatterThenGather(ary: seq<Obj>, root: nat) returns (back: seq<Option<Obj>>)
    requires root < |ary|
    ensures back == Somes(ary)
  {
    var n := |ary|;
    var arys := seq(n, _ => ary);
    var outs := Scatter(arys, root);
    var got := seq(n, r requires 0 <= r < n && outs[r] == Returned(Some(ary[r])) => outs[r].value.value);
    assert got == ary;
    back := GatherOnce(got, root);
  }

  /** Scattering from the root what was gathered there gives every rank its object back. */
  method GatherThenScatter(objs: seq<Obj>, root: nat) returns (outs: seq<Outcome<Option<Obj>>>)
    requires root < |objs|
    ensures |outs| == |objs| && forall r :: 0 <= r < |objs| ==> outs[r] == Returned(Some(objs[r]))
  {
    var n := |objs|;
    var gathered := GatherOnce(objs, root);
    var ary := Values(gathered);
    assert ary == objs;
    outs := Scatter(seq(n, _ => ary), root);
  }

  /** Gather, then broadcast from the root: on every rank the array `allgather` returns. */
  method GatherThenBcast(objs: seq<Obj>, root: nat) returns (direct: seq<seq<Option<Obj>>>, viaRoot: seq<Option<Obj>>)
    requires root < |objs|
    ensures |direct| == |viaRoot| == |objs|
    ensures forall r :: 0 <= r < |objs| ==>
              viaRoot[r] == Some(Arr(objs)) && direct[r] == Somes(objs)
  {
    var n := |objs|;
    direct := A.Allgather(objs, seq(n, _ => []));
    var gathered := GatherOnce(objs, root);
    var ary := Values(gathered);
    assert ary == objs;
    viaRoot := Bcast(n, root, Arr(ary));
  }
}
