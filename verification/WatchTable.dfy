/** `request_watch` and `request_unwatch`: the growable list of requests the polling thread looks at.

A slot is empty or holds a request.  Watching takes the first empty slot; when there is none the
capacity is doubled and the new half, but for its first slot, is empty.
*/
module WatchTable {
  import opened Marshal

  const INITIAL_CAPACITY: nat := 16

  type Slots = seq<Option<nat>>

  /** The slots hold exactly the requests `ids`, each once. */
  ghost predicate Exactly(list: Slots, ids: set<nat>) {
    && (forall i :: 0 <= i < |list| && list[i].Some? ==> list[i].value in ids)
    && (forall id :: id in ids ==> Some(id) in list)
    && (forall i, j :: 0 <= i < j < |list| && list[i].Some? ==> list[i] != list[j])
  }

  /** The first slot with the given content, or the length of the list. */
  function Find(list: Slots, what: Option<nat>): (i: nat)
    ensures i <= |list|
    ensures i < |list| ==> list[i] == what
    ensures forall k :: 0 <= k < i ==> list[k] != what
  {
    if list == [] || list[0] == what then 0 else 1 + Find(list[1..], what)
  }

  function Blank(n: nat): (b: Slots)
    ensures |b| == n && forall k :: 0 <= k < n ==> b[k] == None
  {
    seq(n, _ => None)
  }

  function Watched(list: Slots, id: nat): Slots {
    var i := Find(list, None);
    if i < |list| then list[i := Some(id)]
    else if list == [] then list
    else list + [Some(id)] + Blank(|list| - 1)
  }

  function Unwatched(list: Slots, id: nat): Slots {
    var i := Find(list, Some(id));
    if i < |list| then list[i := None] else list
  }

  lemma WatchAdds(list: Slots, ids: set<nat>, id: nat)
    requires Exactly(list, ids) && id !in ids && list != []
    ensures Exactly(Watched(list, id), ids + {id})
  {
    var i, after := Find(list, None), Watched(list, id);
    assert after[i] == Some(id);
    forall x | x in ids
      ensures Some(x) in after
    {
      var k :| 0 <= k < |list| && list[k] == Some(x);
      assert after[k] == Some(x);
    }
  }

  lemma UnwatchRemoves(list: Slots, ids: set<nat>, id: nat)
    requires Exactly(list, ids)
    ensures Exactly(Unwatched(list, id), ids - {id})
  {
    var i, after := Find(list, Some(id)), Unwatched(list, id);
    forall x | x in ids - {id}
      ensures Some(x) in after
    {
      var k :| 0 <= k < |list| && list[k] == Some(x);
      assert after[k] == Some(x);
    }
  }

  // ---------- Capacity ----------

  /** 16 times the `k`-th power of two. */
  function CapacityAfter(k: nat): (capacity: nat)
    ensures capacity > 0
  {
    if k == 0 then INITIAL_CAPACITY else 2 * CapacityAfter(k - 1)
  }

  ghost predicate Doubled(capacity: nat) {
    exists k: nat :: capacity == CapacityAfter(k)
  }

  lemma TwiceIsDoubled(capacity: nat)
    requires Doubled(capacity)
    ensures Doubled(2 * capacity) && capacity > 0
  {
    var k: nat :| capacity == CapacityAfter(k);
    assert 2 * capacity == CapacityAfter(k + 1);
  }

  /** A list without an empty slot holds as many requests as it has slots. */
  lemma {:induction false} FullCount(list: Slots, ids: set<nat>)
    requires Exactly(list, ids)
    ensures |ids| <= |list|
    ensures Find(list, None) == |list| ==> |ids| == |list|
    decreases |list|
  {
    if list == [] {
      assert ids == {};
    } else {
      var n := |list| - 1;
      var rest := if list[n].Some? then ids - {list[n].value} else ids;
      FullCount(list[..n], rest);
      if Find(list, None) == |list| {
        assert forall k :: 0 <= k < n ==> list[..n][k] == list[k];
      }
    }
  }

  /** A history of the table: what it holds, which requests those are, and the largest number
      that were ever in it at once. */
  datatype History = History(list: Slots, ids: set<nat>, peak: nat)

  datatype Event = Watch(id: nat) | Unwatch(id: nat)

  predicate Enabled(h: History, e: Event) {
    e.Watch? ==> e.id !in h.ids
  }

  function Next(h: History, e: Event): History {
    match e
    case Watch(id) =>
      var ids := h.ids + {id};
      History(Watched(h.list, id), ids, if |ids| > h.peak then |ids| else h.peak)
    case Unwatch(id) => History(Unwatched(h.list, id), h.ids - {id}, h.peak)
  }

  ghost predicate Inv(h: History) {
    && Exactly(h.list, h.ids) && |h.ids| <= h.peak
    && Doubled(|h.list|) && |h.list| > 0
    && (|h.list| <= INITIAL_CAPACITY || |h.list| <= 2 * (h.peak - 1))
  }

  lemma WatchKeepsInv(h: History, id: nat)
    requires Inv(h) && id !in h.ids
    ensures Inv(Next(h, Watch(id)))
  {
    WatchAdds(h.list, h.ids, id);
    FullCount(h.list, h.ids);
    TwiceIsDoubled(|h.list|);
    assert |h.ids + {id}| == |h.ids| + 1;
    if Find(h.list, None) == |h.list| {
      assert |Watched(h.list, id)| == 2 * |h.list|;
    }
  }

  lemma UnwatchKeepsInv(h: History, id: nat)
    requires Inv(h)
    ensures Inv(Next(h, Unwatch(id)))
  {
    UnwatchRemoves(h.list, h.ids, id);
    assert h.ids == (h.ids - {id}) + (h.ids * {id});
  }

  lemma NextKeepsInv(h: History, e: Event)
    requires Inv(h) && Enabled(h, e)
    ensures Inv(Next(h, e))
  {
    match e
    case Watch(id) => WatchKeepsInv(h, id);
    case Unwatch(id) => UnwatchKeepsInv(h, id);
  }

  ghost predicate Run(h: History, events: seq<Event>, k: History)
    decreases |events|
  {
    if events == [] then h == k
    else Enabled(h, events[0]) && Run(Next(h, events[0]), events[1..], k)
  }

  lemma {:induction false} RunKeepsInv(h: History, events: seq<Event>, k: History)
    requires Inv(h) && Run(h, events, k)
    ensures Inv(k)
    decreases |events|
  {
    if events != [] {
      NextKeepsInv(h, events[0]);
      RunKeepsInv(Next(h, events[0]), events[1..], k);
    }
  }

  function Start(): History {
    History(Blank(INITIAL_CAPACITY), {}, 0)
  }

  /** After any run the capacity is 16 times a power of two, and at most 16 or twice one less than
      the largest number of requests ever watched at once. */
  lemma CapacityBound(events: seq<Event>, h: History)
    requires Run(Start(), events, h)
    ensures Exactly(h.list, h.ids)
    ensures Doubled(|h.list|)
    ensures |h.list| <= INITIAL_CAPACITY || |h.list| <= 2 * (h.peak - 1)
  {
    assert Exactly(Blank(INITIAL_CAPACITY), {});
    assert INITIAL_CAPACITY == CapacityAfter(0);
    assert Inv(Start());
    RunKeepsInv(Start(), events, h);
  }

  // ---------- The list in memory ----------

  class Table {
    var rlist: array<Option<nat>>

    constructor ()
      ensures fresh(rlist) && rlist[..] == Blank(INITIAL_CAPACITY)
    {
      rlist := new Option<nat>[INITIAL_CAPACITY](_ => None);
      new;
      assert rlist[..] == Blank(INITIAL_CAPACITY);
    }

    /** `request_watch`. */
    method Add(id: nat)
      requires rlist.Length > 0
      modifies this, rlist
      ensures rlist[..] == Watched(old(rlist[..]), id)
      ensures rlist == old(rlist) || fresh(rlist)
    {
      var i := 0;
      while i < rlist.Length
        invariant i <= rlist.Length && rlist == old(rlist) && rlist[..] == old(rlist[..])
        invariant forall k :: 0 <= k < i ==> rlist[k].Some?
      {
        if rlist[i] == None {
          rlist[i] := Some(id);
          return;
        }
        i := i + 1;
      }
      Grow(id);
    }

    /** Doubles the capacity; the old slots keep their requests. */
    method Grow(id: nat)
      requires rlist.Length > 0
      modifies this
      ensures rlist[..] == old(rlist[..]) + [Some(id)] + Blank(old(rlist.Length) - 1)
      ensures fresh(rlist)
    {
      var was := rlist[..];
      var capacity := 2 * |was|;
      rlist := new Option<nat>[capacity](i requires 0 <= i => if i < |was| then was[i] else None);
      rlist[|was|] := Some(id);
      assert rlist[..] == was + [Some(id)] + Blank(|was| - 1);
    }

    /** `request_unwatch`. */
    method Remove(id: nat)
      modifies rlist
      ensures rlist[..] == Unwatched(old(rlist[..]), id)
    {
      var i := 0;
      while i < rlist.Length
        invariant i <= rlist.Length && rlist[..] == old(rlist[..])
        invariant forall k :: 0 <= k < i ==> rlist[k] != Some(id)
      {
        if rlist[i] == Some(id) {
          rlist[i] := None;
          return;
        }
        i := i + 1;
      }
    }
  }
}
