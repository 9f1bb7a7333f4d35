/** The table of user operations: `op_register`, `op_free`, `op_create` and the generated
`fn_table`.

MPI wants a C function for every op, so a fixed number of them is generated, each tied to one
slot of a table.  Creating an op claims a free slot for its procedure; releasing the op's Ruby
object frees the slot again.
*/
module OpTable {
  import opened Marshal
  import opened Slots
  import opened Sums
  import opened Combine

  datatype OpSlot = OpSlot(proc: Proc, taken: bool, resize: nat)

  // ---------- The table ----------

  /** The first slot that is not assigned, or the length of the table. */
  function FirstFree(table: seq<OpSlot>): (i: nat)
    ensures i <= |table|
    ensures i < |table| ==> !table[i].taken
    ensures forall k :: 0 <= k < i ==> table[k].taken
  {
    if table == [] || !table[0].taken then 0 else 1 + FirstFree(table[1..])
  }

  // ---------- Ops and their table, over any run ----------

  /** A live user op: the slot it was given and the procedure it was created with. */
  datatype Op = Op(idx: nat, proc: Proc)

  datatype State = State(table: seq<OpSlot>, live: map<nat, Op>, created: nat)

  datatype Event =
    | Create(proc: Proc)
    | Release(id: nat)
    | Overflow(idx: nat, size: nat)     // a combine leaves a request
    | ClearResize(idx: nat)             // the retry loop has seen it

  predicate Enabled(s: State, e: Event) {
    match e
    case Create(_) => true
    case Release(id) => id in s.live && s.live[id].idx < |s.table|
    case Overflow(idx, _) => idx < |s.table|
    case ClearResize(idx) => idx < |s.table|
  }

  /** `op_create` fails, and changes nothing, when every slot is assigned. */
  function Next(s: State, e: Event): State
    requires Enabled(s, e)
  {
    match e
    case Create(proc) =>
      var i := FirstFree(s.table);
      if i == |s.table| then s
      else State(s.table[i := OpSlot(proc, true, 0)], s.live[s.created := Op(i, proc)], s.created + 1)
    case Release(id) =>
      var i := s.live[id].idx;
      State(s.table[i := s.table[i].(taken := false)], s.live - {id}, s.created)
    case Overflow(idx, size) => s.(table := s.table[idx := s.table[idx].(resize := size)])
    case ClearResize(idx) => s.(table := s.table[idx := s.table[idx].(resize := 0)])
  }

  function Start(maxOps: nat, junk: Proc): State {
    State(seq(maxOps, _ => OpSlot(junk, false, 0)), map[], 0)
  }

  ghost predicate Inv(s: State) {
    && (forall id :: id in s.live ==>
          && id < s.created && s.live[id].idx < |s.table|
          && s.table[s.live[id].idx].taken && s.table[s.live[id].idx].proc == s.live[id].proc)
    && (forall id, id' :: id in s.live && id' in s.live && id != id' ==> s.live[id].idx != s.live[id'].idx)
    && (forall i :: 0 <= i < |s.table| && s.table[i].taken ==> Owned(s.live, i))
  }

  lemma CreateKeepsInv(s: State, proc: Proc)
    requires Inv(s)
    ensures Inv(Next(s, Create(proc)))
  {
    var i, t := FirstFree(s.table), Next(s, Create(proc));
    if i < |s.table| {
      forall k | 0 <= k < |t.table| && t.table[k].taken
        ensures Owned(t.live, k)
      {
        if k == i {
          OwnedBy(t.live, s.created, k);
        } else {
          assert Owned(s.live, k);
          var id :| id in s.live && s.live[id].idx == k;
          OwnedBy(t.live, id, k);
        }
      }
    }
  }

  /** Some live op has slot `i`. */
  ghost predicate Owned(live: map<nat, Op>, i: nat) {
    exists id :: id in live && live[id].idx == i
  }

  lemma OwnedBy(live: map<nat, Op>, id: nat, i: nat)
    requires id in live && live[id].idx == i
    ensures Owned(live, i)
  {
  }

  lemma ReleaseKeepsInv(s: State, id: nat)
    requires Inv(s) && Enabled(s, Release(id))
    ensures Inv(Next(s, Release(id)))
  {
    var t := Next(s, Release(id));
    forall k | 0 <= k < |t.table| && t.table[k].taken
      ensures Owned(t.live, k)
    {
      assert Owned(s.live, k);
      var x :| x in s.live && s.live[x].idx == k;
      OwnedBy(t.live, x, k);
    }
  }

  lemma NextKeepsInv(s: State, e: Event)
    requires Inv(s) && Enabled(s, e)
    ensures Inv(Next(s, e)) && |Next(s, e).table| == |s.table|
  {
    match e
    case Create(proc) => CreateKeepsInv(s, proc);
    case Release(id) => ReleaseKeepsInv(s, id);
    case Overflow(_, _) =>
    case ClearResize(_) =>
  }

  ghost predicate Run(s: State, events: seq<Event>, t: State)
    decreases |events|
  {
    if events == [] then s == t
    else Enabled(s, events[0]) && Run(Next(s, events[0]), events[1..], t)
  }

  lemma {:induction false} RunKeepsInv(s: State, events: seq<Event>, t: State)
    requires Inv(s) && Run(s, events, t)
    ensures Inv(t) && |t.table| == |s.table|
    decreases |events|
  {
    if events != [] {
      NextKeepsInv(s, events[0]);
      RunKeepsInv(Next(s, events[0]), events[1..], t);
    }
  }

  // ---------- How long an op lives ----------

  /** Nothing but an op's own release touches its slot's procedure, its place or its being live. */
  lemma NextKeepsOp(s: State, e: Event, id: nat)
    requires Inv(s) && Enabled(s, e) && id in s.live && e != Release(id)
    ensures var t := Next(s, e);
            && id in t.live && t.live[id] == s.live[id] && |t.table| == |s.table|
            && t.table[s.live[id].idx].taken && t.table[s.live[id].idx].proc == s.live[id].proc
  {
  }

  lemma {:induction false} RunKeepsOp(s: State, events: seq<Event>, t: State, id: nat)
    requires Inv(s) && Run(s, events, t) && id in s.live
    requires forall i :: 0 <= i < |events| ==> events[i] != Release(id)
    ensures id in t.live && t.live[id] == s.live[id] && |t.table| == |s.table|
    ensures s.live[id].idx < |t.table|
    ensures t.table[s.live[id].idx].taken && t.table[s.live[id].idx].proc == s.live[id].proc
    decreases |events|
  {
    if events != [] {
      NextKeepsInv(s, events[0]);
      NextKeepsOp(s, events[0], id);
      RunKeepsOp(Next(s, events[0]), events[1..], t, id);
    }
  }

  /** An op created when there is room stays live, in one slot and with its procedure, through any run
      up to its own release, whatever other ops come and go. */
  lemma OpsLiveUntilReleased(maxOps: nat, junk: Proc, before: seq<Event>, s: State, proc: Proc, after: seq<Event>, t: State)
    requires Run(Start(maxOps, junk), before, s) && |s.live| < maxOps
    requires Run(Next(s, Create(proc)), after, t)
    requires forall i :: 0 <= i < |after| ==> after[i] != Release(s.created)
    ensures s.created !in s.live && s.created in t.live && t.live[s.created].proc == proc
    ensures var idx := t.live[s.created].idx;
            idx < |t.table| && idx == FirstFree(s.table) && t.table[idx].taken && t.table[idx].proc == proc
  {
    RunKeepsInv(Start(maxOps, junk), before, s);
    LiveCount(s);
    NextKeepsInv(s, Create(proc));
    RunKeepsOp(Next(s, Create(proc)), after, t, s.created);
  }

  /** Creating an op takes one free slot, and nothing else. */
  lemma CreateTakesOne(s: State, proc: Proc)
    requires Inv(s) && FirstFree(s.table) < |s.table|
    ensures var t, i := Next(s, Create(proc)), FirstFree(s.table);
            && s.created !in s.live && t.live == s.live[s.created := Op(i, proc)]
            && |t.table| == |s.table| && !s.table[i].taken && t.table[i] == OpSlot(proc, true, 0)
            && (forall k :: 0 <= k < |s.table| && k != i ==> t.table[k] == s.table[k])
  {
  }

  /** Releasing an op takes it and its slot, and nothing else. */
  lemma ReleaseTakesOne(s: State, id: nat)
    requires Inv(s) && Enabled(s, Release(id))
    ensures var t := Next(s, Release(id));
            && t.live == s.live - {id} && |t.table| == |s.table| && !t.table[s.live[id].idx].taken
            && (forall k :: 0 <= k < |s.table| && k != s.live[id].idx ==> t.table[k] == s.table[k])
  {
  }

  // ---------- Counting ----------

  function AssignedSlots(table: seq<OpSlot>): set<nat> {
    set i: nat | i < |table| && table[i].taken
  }

  function LiveSlots(live: map<nat, Op>): set<nat> {
    set id | id in live :: live[id].idx
  }

  ghost predicate Injective(live: map<nat, Op>) {
    forall id, id' :: id in live && id' in live && id != id' ==> live[id].idx != live[id'].idx
  }

  lemma OneSlotLess(live: map<nat, Op>, id: nat)
    requires Injective(live) && id in live
    ensures live[id].idx !in LiveSlots(live - {id})
    ensures LiveSlots(live) == LiveSlots(live - {id}) + {live[id].idx}
  {
    forall x | x in live && x != id
      ensures live[x].idx in LiveSlots(live - {id})
    {
      assert (live - {id})[x] == live[x];
    }
  }

  lemma OneOpLess(live: map<nat, Op>, id: nat)
    requires id in live
    ensures |live| == |live - {id}| + 1
  {
    assert live == (live - {id})[id := live[id]];
  }

  lemma {:induction false} InjectiveCount(live: map<nat, Op>)
    requires Injective(live)
    ensures |LiveSlots(live)| == |live|
    decreases |live|
  {
    if live == map[] {
      assert LiveSlots(live) == {};
    } else {
      var id :| id in live;
      OneOpLess(live, id);
      InjectiveCount(live - {id});
      OneSlotLess(live, id);
    }
  }

  lemma SubsetCount(a: set<nat>, b: set<nat>)
    requires a <= b
    ensures |a| <= |b| && (|a| == |b| ==> a == b)
  {
    assert b == a + (b - a);
    assert |b| == |a| + |b - a|;
  }

  lemma AssignedIsLive(s: State)
    requires Inv(s)
    ensures AssignedSlots(s.table) == LiveSlots(s.live)
    ensures |s.live| == |AssignedSlots(s.table)|
  {
    forall i: nat | i < |s.table| && s.table[i].taken
      ensures i in LiveSlots(s.live)
    {
      assert Owned(s.live, i);
    }
    InjectiveCount(s.live);
  }

  /** A table without a free slot is one whose assigned slots are all there are. */
  lemma FullTable(table: seq<OpSlot>)
    ensures AssignedSlots(table) <= UpTo(|table|)
    ensures FirstFree(table) == |table| <==> AssignedSlots(table) == UpTo(|table|)
  {
    if FirstFree(table) < |table| {
      assert FirstFree(table) in UpTo(|table|);
    }
  }

  /** As many live user ops as assigned slots; and the table is full exactly when there are
      as many live user ops as the table has slots. */
  lemma LiveCount(s: State)
    requires Inv(s)
    ensures AssignedSlots(s.table) == LiveSlots(s.live)
    ensures |s.live| == |AssignedSlots(s.table)| <= |s.table|
    ensures FirstFree(s.table) == |s.table| <==> |s.live| == |s.table|
  {
    AssignedIsLive(s);
    FullTable(s.table);
    SubsetCount(AssignedSlots(s.table), UpTo(|s.table|));
  }

  /** Over any run of creation, release and use: no two live ops share a slot, a live op's slot
      still holds the procedure it was created with, the assigned slots are the live ops' slots,
      and creation fails exactly when `maxOps` user ops are live. */
  lemma OpsOwnTheirSlots(maxOps: nat, junk: Proc, events: seq<Event>, s: State)
    requires Run(Start(maxOps, junk), events, s)
    ensures |s.table| == maxOps
    ensures forall id, id' :: id in s.live && id' in s.live && s.live[id].idx == s.live[id'].idx ==> id == id'
    ensures forall id :: id in s.live ==>
              s.live[id].idx < maxOps && s.table[s.live[id].idx].proc == s.live[id].proc
    ensures AssignedSlots(s.table) == LiveSlots(s.live)
    ensures forall proc :: Next(s, Create(proc)) == s <==> |s.live| == maxOps
  {
    RunKeepsInv(Start(maxOps, junk), events, s);
    LiveCount(s);
  }

  // ---------- The table in memory ----------

  /** `op_table` and the functions of `fn_table`. */
  class Table {
    const slots: array<OpSlot>
    var live: map<nat, Op>
    var created: nat

    ghost predicate Valid()
      reads this, slots
    {
      Inv(View())
    }

    ghost function View(): State
      reads this, slots
    {
      State(slots[..], live, created)
    }

    /** `Init_Op`: nothing assigned, no requests. */
    constructor (maxOps: nat, junk: Proc)
      ensures Valid() && fresh(slots) && View() == Start(maxOps, junk)
    {
      slots := new OpSlot[maxOps](_ => OpSlot(junk, false, 0));
      live, created := map[], 0;
      new;
      assert slots[..] == Start(maxOps, junk).table;
    }

    /** `op_register`: the slot, or -1. */
    method Register(proc: Proc) returns (idx: int)
      modifies slots
      ensures var i := FirstFree(old(slots[..]));
              if i == slots.Length then idx == -1 && slots[..] == old(slots[..])
              else idx == i && slots[..] == old(slots[..])[i := OpSlot(proc, true, 0)]
    {
      var i := 0;
      while i < slots.Length
        invariant i <= slots.Length && slots[..] == old(slots[..])
        invariant forall k :: 0 <= k < i ==> slots[k].taken
      {
        if !slots[i].taken {
          FirstFreeIs(slots[..], i);
          slots[i] := OpSlot(proc, true, 0);
          return i;
        }
        i := i + 1;
      }
      FirstFreeIs(slots[..], i);
      return -1;
    }

    /** `op_create`: a new op, or an internal error when the table is full. */
    method CreateOp(proc: Proc) returns (id: Option<nat>)
      requires Valid()
      modifies this`live, this`created, slots
      ensures Valid() && View() == Next(old(View()), Create(proc))
      ensures id.None? <==> |old(live)| == slots.Length
      ensures id.Some? ==> id.value !in old(live) && id.value in live && live[id.value].proc == proc
      ensures id.None? ==> live == old(live) && slots[..] == old(slots[..])
      ensures id.Some? ==>
                && live == old(live)[id.value := live[id.value]]
                && slots[live[id.value].idx] == OpSlot(proc, true, 0) && !old(slots[..])[live[id.value].idx].taken
                && (forall k :: 0 <= k < slots.Length && k != live[id.value].idx ==> slots[k] == old(slots[k]))
    {
      if FirstFree(slots[..]) < slots.Length {
        CreateTakesOne(View(), proc);
      }
      LiveCount(View());
      NextKeepsInv(View(), Create(proc));
      var idx := Register(proc);
      if idx < 0 {
        return None;
      }
      live := live[created := Op(idx, proc)];
      id := Some(created);
      created := created + 1;
    }

    /** `op_free`, when the op's Ruby object goes away. */
    method FreeOp(id: nat)
      requires Valid() && id in live
      modifies this`live, slots
      ensures Valid() && View() == Next(old(View()), Release(id))
      ensures live == old(live) - {id}
      ensures var idx := old(live)[id].idx;
              && idx < slots.Length && !slots[idx].taken
              && (forall k :: 0 <= k < slots.Length && k != idx ==> slots[k] == old(slots[k]))
    {
      NextKeepsInv(View(), Release(id));
      var idx := live[id].idx;
      slots[idx] := slots[idx].(taken := false);
      live := live - {id};
    }

    /** `op_get_resize`. */
    method GetResize(id: nat) returns (resize: nat)
      requires Valid() && id in live
      ensures resize == slots[live[id].idx].resize
    {
      resize := slots[live[id].idx].resize;
    }

    /** `op_clear_resize`. */
    method ClearRequest(id: nat)
      requires Valid() && id in live
      modifies slots
      ensures Valid() && View() == Next(old(View()), ClearResize(live[id].idx))
      ensures var idx := live[id].idx;
              && idx < slots.Length && slots[idx] == old(slots[idx]).(resize := 0)
              && (forall k :: 0 <= k < slots.Length && k != idx ==> slots[k] == old(slots[k]))
    {
      NextKeepsInv(View(), ClearResize(live[id].idx));
      var idx := live[id].idx;
      slots[idx] := slots[idx].(resize := 0);
    }

    /** `fn_table[idx]`, the function MPI was given for the op: it runs the procedure the op was
        created with, and leaves its request in the op's own slot. */
    method Call(id: nat, invec: array<Byte>, inoutvec: array<Byte>, len: nat, size: nat) returns (stop: nat)
      requires Valid() && id in live
      requires invec != inoutvec && invec.Length == inoutvec.Length == len * size
      modifies slots, inoutvec
      ensures Valid() && stop <= len
      ensures var a, was, i := Row(invec[..], size, len), Row(old(inoutvec[..]), size, len), live[id].idx;
              && (stop < len ==> !BothLoad(a[stop], was[stop]))
              && CombinedTo(live[id].proc, a, was, Row(inoutvec[..], size, len), stop)
              && View() == Next(old(View()), Overflow(i, Flagged(live[id].proc, a, was, stop, old(slots[i].resize))))
      ensures live == old(live)
      ensures forall k :: 0 <= k < slots.Length && k != live[id].idx ==> slots[k] == old(slots[k])
      ensures var f, now := live[id].proc, Row(inoutvec[..], size, len);
              var a, was := Row(invec[..], size, len), Row(old(inoutvec[..]), size, len);
              forall e :: 0 <= e < stop ==>
                && Load(a[e]).Some? && Load(was[e]).Some?
                && var y := f(Load(a[e]).value, Load(was[e]).value);
                   if |Dump(y)| + 1 > size then now[e] == was[e] else Load(now[e]) == Some(y)
    {
      var idx := live[id].idx;
      var resize;
      resize, stop := OpCombine(slots[idx].proc, invec, inoutvec, len, size, slots[idx].resize);
      NextKeepsInv(View(), Overflow(idx, resize));
      slots[idx] := slots[idx].(resize := resize);
    }

    /** One turn of the retry loop as one combine sees it: the request is cleared, MPI calls the op's
        function, and the loop looks at the request again.  On buffers that load it finds 0 exactly
        if every result fitted, and else more than the slots had. */
    method CombineOnce(id: nat, invec: array<Byte>, inoutvec: array<Byte>, len: nat, size: nat,
                       ghost xs: seq<Obj>, ghost ys: seq<Obj>)
      returns (resize: nat)
      requires Valid() && id in live
      requires invec != inoutvec && invec.Length == inoutvec.Length == len * size && |xs| == |ys| == len
      requires Holds(Row(invec[..], size, len), xs) && Holds(Row(inoutvec[..], size, len), ys)
      modifies slots, inoutvec
      ensures Valid() && live == old(live)
      ensures Holds(Row(inoutvec[..], size, len), MergedObjs(live[id].proc, xs, ys, size))
      ensures resize == 0 <==> forall e :: 0 <= e < len ==> |Dump(live[id].proc(xs[e], ys[e]))| + 1 <= size
      ensures resize > 0 ==> resize > size
    {
      ghost var f := live[id].proc;
      ghost var a, was := Row(invec[..], size, len), Row(inoutvec[..], size, len);
      AllLoad(a, was, xs, ys);
      ClearRequest(id);
      var stop := Call(id, invec, inoutvec, len, size);
      resize := GetResize(id);
      CombineConcludes(f, a, was, Row(inoutvec[..], size, len), xs, ys, size, resize);
    }
  }

  lemma FirstFreeIs(table: seq<OpSlot>, i: nat)
    requires i <= |table| && (i < |table| ==> !table[i].taken)
    requires forall k :: 0 <= k < i ==> table[k].taken
    ensures FirstFree(table) == i
  {
    if FirstFree(table) < i {
      assert false;
    }
  }
}
