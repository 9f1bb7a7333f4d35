/** Objects in flight.

An object crosses a channel in two parts, its length and its bytes.  An item stands for one
object on its way: `owner` is the receive that has already taken the length part, and `posted`
says that the bytes have been sent.  What a channel holds is what its items have left in it.
*/
module Frames {
  import opened Marshal
  import opened Transport

  datatype Sent = Sent(tag: nat, obj: Obj)
  datatype Item = Item(sent: Sent, owner: Option<nat>, posted: bool)

  function SizePart(x: Sent): Message {
    Message(x.tag, Size(|Dump(x.obj)|))
  }

  /** The bytes travel with a terminator. */
  function DataPart(x: Sent): Message {
    Message(x.tag, Data(Dump(x.obj) + [0]))
  }

  function Parts(it: Item): Channel {
    (if it.owner.None? then [SizePart(it.sent)] else []) + (if it.posted then [DataPart(it.sent)] else [])
  }

  function Render(items: seq<Item>): Channel {
    if items == [] then [] else Parts(items[0]) + Render(items[1..])
  }

  /** The oldest item a receive with pattern `p` can match. */
  function FirstItem(items: seq<Item>, p: TagPattern): (k: nat)
    ensures k <= |items|
    ensures k < |items| ==> MatchesTag(p, items[k].sent.tag)
    ensures forall i :: 0 <= i < k ==> !MatchesTag(p, items[i].sent.tag)
  {
    if items == [] then 0
    else if MatchesTag(p, items[0].sent.tag) then 0
    else 1 + FirstItem(items[1..], p)
  }

  lemma FirstItemIs(items: seq<Item>, p: TagPattern, k: nat)
    requires k < |items| && MatchesTag(p, items[k].sent.tag)
    requires forall i :: 0 <= i < k ==> !MatchesTag(p, items[i].sent.tag)
    ensures FirstItem(items, p) == k
  {
    if FirstItem(items, p) < k {
      assert false;
    }
  }

  lemma {:induction false} RenderConcat(a: seq<Item>, b: seq<Item>)
    ensures Render(a + b) == Render(a) + Render(b)
  {
    if a == [] {
      assert a + b == b;
    } else {
      RenderConcat(a[1..], b);
      assert (a + b)[1..] == a[1..] + b;
      Assoc(Parts(a[0]), Render(a[1..]), Render(b));
    }
  }

  lemma RenderSplit(items: seq<Item>, k: nat)
    requires k < |items|
    ensures Render(items) == Render(items[..k]) + Parts(items[k]) + Render(items[k + 1..])
  {
    assert items == items[..k] + items[k..];
    RenderConcat(items[..k], items[k..]);
    assert items[k..][1..] == items[k + 1..];
    Assoc(Render(items[..k]), Parts(items[k]), Render(items[k + 1..]));
  }

  lemma {:induction false} RenderedTags(items: seq<Item>, p: TagPattern)
    requires forall i :: 0 <= i < |items| ==> MatchesTag(p, items[i].sent.tag) ==> Parts(items[i]) == []
    ensures forall m :: 0 <= m < |Render(items)| ==> !MatchesTag(p, Render(items)[m].tag)
  {
    if items != [] {
      assert MatchesTag(p, items[0].sent.tag) ==> Parts(items[0]) == [];
      RenderedTags(items[1..], p);
    }
  }

  /** A receive finds the first part its oldest matching item has left in the channel. */
  lemma FirstMatchInRender(items: seq<Item>, p: TagPattern)
    requires FirstItem(items, p) < |items| && Parts(items[FirstItem(items, p)]) != []
    ensures var k := FirstItem(items, p);
            var at := |Render(items[..k])|;
            && FirstMatch(Render(items), p) == at < |Render(items)|
            && Render(items)[at] == Parts(items[k])[0]
  {
    var k := FirstItem(items, p);
    RenderSplit(items, k);
    RenderedTags(items[..k], p);
    FirstMatchIs(Render(items), p, |Render(items[..k])|);
  }

  lemma NoMatchInRender(items: seq<Item>, p: TagPattern)
    requires forall i :: 0 <= i < |items| ==> MatchesTag(p, items[i].sent.tag) ==> Parts(items[i]) == []
    ensures FirstMatch(Render(items), p) == |Render(items)|
  {
    RenderedTags(items, p);
  }

  /** Taking the first part of item `k` out of the channel. */
  lemma TakePart(items: seq<Item>, k: nat, left: Item)
    requires k < |items| && Parts(items[k]) != [] && Parts(left) == Parts(items[k])[1..]
    ensures |Render(items[..k])| < |Render(items)|
    ensures Without(Render(items), |Render(items[..k])|) == Render(items[k := left])
  {
    RenderSplit(items, k);
    RenderSplit(items[k := left], k);
    assert items[k := left][..k] == items[..k] && items[k := left][k + 1..] == items[k + 1..];
    WithoutMiddle(Render(items[..k]), Parts(items[k]), Render(items[k + 1..]));
  }

  /** An item of which nothing is left can be forgotten. */
  lemma DropEmpty(items: seq<Item>, k: nat)
    requires k < |items| && Parts(items[k]) == []
    ensures Render(Without(items, k)) == Render(items)
  {
    var front, back := items[..k], items[k + 1..];
    assert Without(items, k) == front + back;
    RenderSplit(items, k);
    RenderConcat(front, back);
    assert Render(front) + [] == Render(front);
  }

  /** Taking the bytes of an item whose length is gone: the item is delivered. */
  lemma TakeLastPart(items: seq<Item>, k: nat)
    requires k < |items| && items[k].owner.Some? && items[k].posted
    ensures |Render(items[..k])| < |Render(items)|
    ensures Without(Render(items), |Render(items[..k])|) == Render(Without(items, k))
  {
    var gone := items[k].(posted := false);
    TakePart(items, k, gone);
    DropEmpty(items[k := gone], k);
    assert Without(items[k := gone], k) == Without(items, k);
  }

  /** The bytes of the last item are sent. */
  lemma PostLast(items: seq<Item>)
    requires items != [] && !items[|items| - 1].posted
    ensures var last := |items| - 1;
            Render(items[last := items[last].(posted := true)]) == Render(items) + [DataPart(items[last].sent)]
  {
    var last := |items| - 1;
    var posted := items[last := items[last].(posted := true)];
    RenderSplit(items, last);
    RenderSplit(posted, last);
    assert posted[..last] == items[..last];
    assert Parts(posted[last]) == Parts(items[last]) + [DataPart(items[last].sent)];
  }

  // ---------- What was sent and what has arrived, tag by tag ----------

  function Contents(items: seq<Item>): (xs: seq<Sent>)
    ensures |xs| == |items|
  {
    seq(|items|, k requires 0 <= k < |items| => items[k].sent)
  }

  function Objs(xs: seq<Sent>, tag: nat): seq<Obj> {
    if xs == [] then []
    else (if xs[0].tag == tag then [xs[0].obj] else []) + Objs(xs[1..], tag)
  }

  lemma {:induction false} ObjsConcat(a: seq<Sent>, b: seq<Sent>, tag: nat)
    ensures Objs(a + b, tag) == Objs(a, tag) + Objs(b, tag)
  {
    if a == [] {
      assert a + b == b;
    } else {
      ObjsConcat(a[1..], b, tag);
      assert (a + b)[1..] == a[1..] + b;
      Assoc(if a[0].tag == tag then [a[0].obj] else [], Objs(a[1..], tag), Objs(b, tag));
    }
  }

  lemma ObjsAppend(a: seq<Sent>, x: Sent, tag: nat)
    ensures Objs(a + [x], tag) == Objs(a, tag) + if x.tag == tag then [x.obj] else []
  {
    ObjsConcat(a, [x], tag);
    assert [x][1..] == [];
  }

  lemma {:induction false} ObjsNone(a: seq<Sent>, tag: nat)
    requires forall k :: 0 <= k < |a| ==> a[k].tag != tag
    ensures Objs(a, tag) == []
  {
    if a != [] {
      assert a[0].tag != tag;
      ObjsNone(a[1..], tag);
    }
  }

  /** Nothing is lost, doubled or reordered within a tag. */
  ghost predicate Conserved(sent: seq<Sent>, got: seq<Sent>, items: seq<Item>) {
    forall tag: nat :: Objs(sent, tag) == Objs(got, tag) + Objs(Contents(items), tag)
  }

  lemma SendConserves(sent: seq<Sent>, got: seq<Sent>, items: seq<Item>, it: Item)
    requires Conserved(sent, got, items)
    ensures Conserved(sent + [it.sent], got, items + [it])
  {
    assert Contents(items + [it]) == Contents(items) + [it.sent];
    forall tag: nat
      ensures Objs(sent + [it.sent], tag) == Objs(got, tag) + Objs(Contents(items + [it]), tag)
    {
      ObjsAppend(sent, it.sent, tag);
      ObjsAppend(Contents(items), it.sent, tag);
    }
  }

  lemma DeliverOne(got: seq<Sent>, items: seq<Item>, k: nat, tag: nat)
    requires k < |items|
    requires forall i :: 0 <= i < k ==> items[i].sent.tag != items[k].sent.tag
    ensures Objs(got, tag) + Objs(Contents(items), tag)
         == Objs(got + [items[k].sent], tag) + Objs(Contents(Without(items, k)), tag)
  {
    var xs, x := Contents(items), items[k].sent;
    assert xs == xs[..k] + [x] + xs[k + 1..];
    assert Contents(Without(items, k)) == xs[..k] + xs[k + 1..];
    ObjsConcat(xs[..k] + [x], xs[k + 1..], tag);
    ObjsAppend(xs[..k], x, tag);
    ObjsConcat(xs[..k], xs[k + 1..], tag);
    ObjsAppend(got, x, tag);
    if tag == x.tag {
      ObjsNone(xs[..k], tag);
    }
  }

  lemma DeliverConserves(sent: seq<Sent>, got: seq<Sent>, items: seq<Item>, k: nat)
    requires Conserved(sent, got, items) && k < |items|
    requires forall i :: 0 <= i < k ==> items[i].sent.tag != items[k].sent.tag
    ensures Conserved(sent, got + [items[k].sent], Without(items, k))
  {
    forall tag: nat
      ensures Objs(sent, tag)
           == Objs(got + [items[k].sent], tag) + Objs(Contents(Without(items, k)), tag)
    {
      DeliverOne(got, items, k, tag);
    }
  }
}
