/** `comm_send`, `comm_recv` and `comm_sendrecv`: two-part framing.

A send puts the length and then the bytes of a marshalled object into a channel, as two
messages.  A receive takes a length with the caller's source and tag pattern, pins the source
it came from, and takes the bytes with the pinned source and the same tag pattern.  Ranks run
in any interleaving, and a rank may be halfway through a send and a receive at once.
*/
module PointToPoint {
  import opened Marshal
  import opened Transport
  import opened Frames

  /** A send that has sent the length but not the bytes. */
  datatype HalfSend = HalfSend(dest: nat, sent: Sent)

  /** A receive that has the length: the source and tag it will use for the bytes. */
  datatype HalfRecv = HalfRecv(src: SourcePattern, tag: TagPattern, length: nat)

  /** `broken` is set when a receive gets something it cannot use: bytes where it expects a
      length, a length where it expects bytes, or bytes that do not fit or do not load. */
  datatype Rank = Rank(sending: Option<HalfSend>, receiving: Option<HalfRecv>, broken: bool)

  /** One channel.  `items`, `sent` and `got` are its history: what is in flight, every object
      sent into it and every object `recv` returned from it. */
  datatype Link = Link(chan: Channel, items: seq<Item>, sent: seq<Sent>, got: seq<Sent>)

  /** `links[s][d]` is the channel from rank `s` to rank `d`. */
  datatype State = State(ranks: seq<Rank>, links: seq<seq<Link>>)

  datatype Label =
    | SendSize(rank: nat, dest: nat, tag: nat, obj: Obj)
    | SendData(rank: nat)
    | RecvSize(rank: nat, src: SourcePattern, pattern: TagPattern, from: nat, pin: bool)
    | RecvData(rank: nat, from: nat)

  predicate Square(s: State) {
    |s.links| == |s.ranks| && forall r :: 0 <= r < |s.links| ==> |s.links[r]| == |s.ranks|
  }

  predicate Enabled(s: State, l: Label)
    requires Square(s)
  {
    var n := |s.ranks|;
    l.rank < n && !s.ranks[l.rank].broken &&
    match l
    case SendSize(r, dest, _, _) => s.ranks[r].sending.None? && dest < n
    case SendData(r) => s.ranks[r].sending.Some? && s.ranks[r].sending.value.dest < n
    case RecvSize(r, src, tag, from, _) =>
      && s.ranks[r].receiving.None? && from < n && MatchesSource(src, from)
      && FirstMatch(s.links[from][r].chan, tag) < |s.links[from][r].chan|
    case RecvData(r, from) =>
      && s.ranks[r].receiving.Some? && from < n && MatchesSource(s.ranks[r].receiving.value.src, from)
      && FirstMatch(s.links[from][r].chan, s.ranks[r].receiving.value.tag) < |s.links[from][r].chan|
  }

  function WithLink(s: State, src: nat, dst: nat, k: Link): (t: State)
    requires Square(s) && src < |s.ranks| && dst < |s.ranks|
    ensures Square(t) && t.ranks == s.ranks
    ensures forall a, b :: 0 <= a < |s.ranks| && 0 <= b < |s.ranks| ==>
              t.links[a][b] == if a == src && b == dst then k else s.links[a][b]
  {
    s.(links := s.links[src := s.links[src][dst := k]])
  }

  function WithRank(s: State, r: nat, me: Rank): (t: State)
    requires Square(s) && r < |s.ranks|
    ensures Square(t) && t.links == s.links && t.ranks == s.ranks[r := me]
  {
    s.(ranks := s.ranks[r := me])
  }

  // ---------- One channel ----------

  function LinkSendSize(k: Link, x: Sent): Link {
    Link(k.chan + [SizePart(x)], k.items + [Item(x, None, false)], k.sent + [x], k.got)
  }

  function LinkSendData(k: Link, x: Sent): Link {
    k.(chan := k.chan + [DataPart(x)],
       items := if k.items == [] then [] else k.items[|k.items| - 1 := k.items[|k.items| - 1].(posted := true)])
  }

  function LinkTakeSize(k: Link, taker: nat, tag: TagPattern): Link
    requires FirstMatch(k.chan, tag) < |k.chan|
  {
    var i := FirstItem(k.items, tag);
    k.(chan := Without(k.chan, FirstMatch(k.chan, tag)),
       items := if i < |k.items| then k.items[i := k.items[i].(owner := Some(taker))] else k.items)
  }

  function LinkTakeData(k: Link, tag: TagPattern, x: Sent): Link
    requires FirstMatch(k.chan, tag) < |k.chan|
  {
    var i := FirstItem(k.items, tag);
    Link(Without(k.chan, FirstMatch(k.chan, tag)),
         if i < |k.items| then Without(k.items, i) else k.items, k.sent, k.got + [x])
  }

  /** The object in the bytes that have arrived, if they fit the buffer and load. */
  function Unpack(p: Payload, length: nat): Option<Obj> {
    if p.Data? && |p.bytes| <= length + 1 then Load(p.bytes) else None
  }

  function Next(s: State, l: Label): (t: State)
    requires Square(s) && Enabled(s, l)
    ensures Square(t) && |t.ranks| == |s.ranks|
  {
    var r := l.rank;
    var me := s.ranks[r];
    match l
    case SendSize(_, dest, tag, obj) =>
      var x := Sent(tag, obj);
      WithRank(WithLink(s, r, dest, LinkSendSize(s.links[r][dest], x)),
               r, me.(sending := Some(HalfSend(dest, x))))
    case SendData(_) =>
      var HalfSend(dest, x) := me.sending.value;
      WithRank(WithLink(s, r, dest, LinkSendData(s.links[r][dest], x)), r, me.(sending := None))
    case RecvSize(_, src, tag, from, pin) =>
      var k := s.links[from][r];
      var m := k.chan[FirstMatch(k.chan, tag)];
      var half := HalfRecv(if pin then From(from) else src, tag, if m.payload.Size? then m.payload.n else 0);
      WithRank(WithLink(s, from, r, LinkTakeSize(k, r, tag)),
               r, me.(receiving := Some(half), broken := !m.payload.Size?))
    case RecvData(_, from) =>
      var k, half := s.links[from][r], me.receiving.value;
      var m := k.chan[FirstMatch(k.chan, half.tag)];
      match Unpack(m.payload, half.length)
      case None => WithRank(s, r, me.(broken := true))
      case Some(x) =>
        WithRank(WithLink(s, from, r, LinkTakeData(k, half.tag, Sent(m.tag, x))), r, me.(receiving := None))
  }

  function Start(n: nat): (s: State)
    ensures Square(s)
  {
    State(seq(n, _ => Rank(None, None, false)), seq(n, _ => seq(n, _ => Link([], [], [], []))))
  }

  // ---------- What holds of a channel ----------

  /** What the sender of a channel is in the middle of sending into it. */
  function Outgoing(me: Rank, dst: nat): Option<Sent> {
    if me.sending.Some? && me.sending.value.dest == dst then Some(me.sending.value.sent) else None
  }

  /** What the receiver of a channel is in the middle of receiving from it. */
  function Incoming(me: Rank, src: nat): Option<HalfRecv> {
    if me.receiving.Some? && me.receiving.value.src == From(src) then me.receiving else None
  }

  /** Only the last item can lack its bytes, and does exactly while its send is half done. */
  ghost predicate TailInv(out: Option<Sent>, items: seq<Item>) {
    && (forall i :: 0 <= i < |items| - 1 ==> items[i].posted)
    && (out.None? ==> forall i :: 0 <= i < |items| ==> items[i].posted)
    && (out.Some? ==> items != [] && !items[|items| - 1].posted && items[|items| - 1].sent == out.value)
  }

  /** The length part is gone from exactly the item the pending receive is after, which is the
      oldest one its tag pattern can match. */
  ghost predicate HeadInv(inc: Option<HalfRecv>, items: seq<Item>) {
    && (inc.None? ==> forall i :: 0 <= i < |items| ==> items[i].owner.None?)
    && (inc.Some? ==>
          var k := FirstItem(items, inc.value.tag);
          && k < |items|
          && (forall i :: 0 <= i < |items| ==> (items[i].owner.Some? <==> i == k))
          && inc.value.length == |Dump(items[k].sent.obj)|)
  }

  ghost predicate LinkInv(out: Option<Sent>, inc: Option<HalfRecv>, k: Link) {
    && k.chan == Render(k.items)
    && TailInv(out, k.items)
    && HeadInv(inc, k.items)
    && Conserved(k.sent, k.got, k.items)
  }

  lemma AppendKeepsHead(inc: Option<HalfRecv>, items: seq<Item>, it: Item)
    requires HeadInv(inc, items) && it.owner.None?
    ensures HeadInv(inc, items + [it])
  {
    if inc.Some? {
      FirstItemIs(items + [it], inc.value.tag, FirstItem(items, inc.value.tag));
    }
  }

  lemma SendSizeKeepsLink(inc: Option<HalfRecv>, k: Link, x: Sent)
    requires LinkInv(None, inc, k)
    ensures LinkInv(Some(x), inc, LinkSendSize(k, x))
  {
    var it := Item(x, None, false);
    AppendKeepsHead(inc, k.items, it);
    RenderConcat(k.items, [it]);
    SendConserves(k.sent, k.got, k.items, it);
  }

  /** The head of a channel depends on the tags, objects and owners in it only. */
  lemma SameHead(inc: Option<HalfRecv>, items: seq<Item>, items': seq<Item>)
    requires HeadInv(inc, items) && |items'| == |items|
    requires forall i :: 0 <= i < |items| ==> items'[i].sent == items[i].sent && items'[i].owner == items[i].owner
    ensures HeadInv(inc, items')
  {
    if inc.Some? {
      FirstItemIs(items', inc.value.tag, FirstItem(items, inc.value.tag));
    }
  }

  lemma SendDataKeepsLink(inc: Option<HalfRecv>, k: Link, x: Sent)
    requires LinkInv(Some(x), inc, k)
    ensures LinkInv(None, inc, LinkSendData(k, x))
  {
    var items := LinkSendData(k, x).items;
    PostLast(k.items);
    SameHead(inc, k.items, items);
    assert Contents(items) == Contents(k.items);
  }

  lemma FindSize(out: Option<Sent>, k: Link, tag: TagPattern)
    requires LinkInv(out, None, k) && FirstMatch(k.chan, tag) < |k.chan|
    ensures var i := FirstItem(k.items, tag);
            && i < |k.items|
            && FirstMatch(k.chan, tag) == |Render(k.items[..i])|
            && k.chan[FirstMatch(k.chan, tag)] == SizePart(k.items[i].sent)
  {
    var i := FirstItem(k.items, tag);
    if i == |k.items| {
      NoMatchInRender(k.items, tag);
    }
    FirstMatchInRender(k.items, tag);
  }

  lemma HeadTaken(items: seq<Item>, taker: nat, half: HalfRecv)
    requires HeadInv(None, items) && FirstItem(items, half.tag) < |items|
    requires half.length == |Dump(items[FirstItem(items, half.tag)].sent.obj)|
    ensures var i := FirstItem(items, half.tag);
            HeadInv(Some(half), items[i := items[i].(owner := Some(taker))])
  {
    var i := FirstItem(items, half.tag);
    FirstItemIs(items[i := items[i].(owner := Some(taker))], half.tag, i);
  }

  lemma TakeKeepsLink(out: Option<Sent>, k: Link, taker: nat, half: HalfRecv)
    requires LinkInv(out, None, k) && FirstItem(k.items, half.tag) < |k.items|
    requires half.length == |Dump(k.items[FirstItem(k.items, half.tag)].sent.obj)|
    ensures var i := FirstItem(k.items, half.tag);
            var left := k.items[i := k.items[i].(owner := Some(taker))];
            LinkInv(out, Some(half), k.(chan := Render(left), items := left))
  {
    var i := FirstItem(k.items, half.tag);
    HeadTaken(k.items, taker, half);
    assert Contents(k.items[i := k.items[i].(owner := Some(taker))]) == Contents(k.items);
  }

  /** A receive that is not already in the middle of something finds a length. */
  lemma TakeSizeKeepsLink(out: Option<Sent>, k: Link, taker: nat, src: SourcePattern, tag: TagPattern)
    requires LinkInv(out, None, k) && FirstMatch(k.chan, tag) < |k.chan|
    ensures var m := k.chan[FirstMatch(k.chan, tag)];
            && m.payload.Size?
            && LinkInv(out, Some(HalfRecv(src, tag, m.payload.n)), LinkTakeSize(k, taker, tag))
  {
    var i := FirstItem(k.items, tag);
    FindSize(out, k, tag);
    var left := k.items[i].(owner := Some(taker));
    TakePart(k.items, i, left);
    TakeKeepsLink(out, k, taker, HalfRecv(src, tag, |Dump(left.sent.obj)|));
  }

  lemma FindBytes(out: Option<Sent>, half: HalfRecv, k: Link)
    requires LinkInv(out, Some(half), k) && FirstMatch(k.chan, half.tag) < |k.chan|
    ensures var i := FirstItem(k.items, half.tag);
            && i < |k.items| && k.items[i].posted && k.items[i].owner.Some?
            && FirstMatch(k.chan, half.tag) == |Render(k.items[..i])|
            && k.chan[FirstMatch(k.chan, half.tag)] == DataPart(k.items[i].sent)
  {
    var i := FirstItem(k.items, half.tag);
    if !k.items[i].posted {
      NoMatchInRender(k.items, half.tag);
    }
    FirstMatchInRender(k.items, half.tag);
  }

  lemma DeliverKeepsLink(out: Option<Sent>, half: HalfRecv, k: Link, i: nat)
    requires LinkInv(out, Some(half), k) && i == FirstItem(k.items, half.tag) && k.items[i].posted
    ensures LinkInv(out, None, Link(Render(Without(k.items, i)), Without(k.items, i), k.sent, k.got + [k.items[i].sent]))
  {
    DeliverConserves(k.sent, k.got, k.items, i);
  }

  /** A receive that has a length finds the bytes that were sent with it. */
  lemma TakeDataKeepsLink(out: Option<Sent>, half: HalfRecv, k: Link)
    requires LinkInv(out, Some(half), k) && FirstMatch(k.chan, half.tag) < |k.chan|
    ensures var i, m := FirstItem(k.items, half.tag), k.chan[FirstMatch(k.chan, half.tag)];
            && i < |k.items| && m == DataPart(k.items[i].sent)
            && Unpack(m.payload, half.length) == Some(k.items[i].sent.obj)
            && LinkInv(out, None, LinkTakeData(k, half.tag, k.items[i].sent))
  {
    var i := FirstItem(k.items, half.tag);
    FindBytes(out, half, k);
    TakeLastPart(k.items, i);
    LoadIgnoresPadding(k.items[i].sent.obj, [0]);
    DeliverKeepsLink(out, half, k, i);
  }

  // ---------- All channels ----------

  ghost predicate RankInv(me: Rank, n: nat) {
    && !me.broken
    && (me.sending.Some? ==> me.sending.value.dest < n)
    && (me.receiving.Some? ==> me.receiving.value.src.From? && me.receiving.value.src.src < n)
  }

  ghost predicate LinkAt(s: State, a: nat, b: nat)
    requires Square(s) && a < |s.ranks| && b < |s.ranks|
  {
    LinkInv(Outgoing(s.ranks[a], b), Incoming(s.ranks[b], a), s.links[a][b])
  }

  ghost predicate Inv(s: State) {
    && Square(s)
    && (forall r :: 0 <= r < |s.ranks| ==> RankInv(s.ranks[r], |s.ranks|))
    && (forall a, b :: 0 <= a < |s.ranks| && 0 <= b < |s.ranks| ==> LinkAt(s, a, b))
  }

  /** The receive pins its source, or its caller named the source: `comm_recv` pins always,
      `comm_sendrecv` never does. */
  predicate Pinned(l: Label) {
    l.RecvSize? ==> l.pin || l.src.From?
  }

  /** A step of rank `r` that changes one channel, and what `r` has pending, for that channel only. */
  lemma OneChannel(s: State, t: State, r: nat, a: nat, b: nat)
    requires Inv(s) && Square(t) && |t.ranks| == |s.ranks|
    requires r < |s.ranks| && a < |s.ranks| && b < |s.ranks|
    requires t.ranks == s.ranks[r := t.ranks[r]] && RankInv(t.ranks[r], |t.ranks|)
    requires forall c, d :: 0 <= c < |s.ranks| && 0 <= d < |s.ranks| && (c != a || d != b) ==>
               t.links[c][d] == s.links[c][d]
    requires forall d :: d != b || r != a ==> Outgoing(t.ranks[r], d) == Outgoing(s.ranks[r], d)
    requires forall c :: c != a || r != b ==> Incoming(t.ranks[r], c) == Incoming(s.ranks[r], c)
    requires LinkAt(t, a, b)
    ensures Inv(t)
  {
    forall c, d | 0 <= c < |t.ranks| && 0 <= d < |t.ranks|
      ensures LinkAt(t, c, d)
    {
      if c != a || d != b {
        assert LinkAt(s, c, d);
      }
    }
  }

  lemma SendSizeKeepsInv(s: State, l: Label)
    requires Inv(s) && Enabled(s, l) && l.SendSize?
    ensures Inv(Next(s, l))
  {
    var t, r := Next(s, l), l.rank;
    assert LinkAt(s, r, l.dest);
    SendSizeKeepsLink(Incoming(s.ranks[l.dest], r), s.links[r][l.dest], Sent(l.tag, l.obj));
    OneChannel(s, t, r, r, l.dest);
  }

  lemma SendDataKeepsInv(s: State, l: Label)
    requires Inv(s) && Enabled(s, l) && l.SendData?
    ensures Inv(Next(s, l))
  {
    var t, r := Next(s, l), l.rank;
    var HalfSend(dest, x) := s.ranks[r].sending.value;
    assert LinkAt(s, r, dest);
    SendDataKeepsLink(Incoming(s.ranks[dest], r), s.links[r][dest], x);
    OneChannel(s, t, r, r, dest);
  }

  lemma RecvSizeKeepsInv(s: State, l: Label)
    requires Inv(s) && Enabled(s, l) && l.RecvSize? && Pinned(l)
    ensures Inv(Next(s, l))
  {
    var r, k := l.rank, s.links[l.from][l.rank];
    var n := k.chan[FirstMatch(k.chan, l.pattern)].payload;
    assert LinkAt(s, l.from, r);
    TakeSizeKeepsLink(Outgoing(s.ranks[l.from], r), k, r, From(l.from), l.pattern);
    HalfReceived(s, r, l.from, LinkTakeSize(k, r, l.pattern), HalfRecv(From(l.from), l.pattern, n.n));
  }

  /** A receive takes something out of a channel and pins its sender. */
  lemma HalfReceived(s: State, r: nat, from: nat, k: Link, half: HalfRecv)
    requires Inv(s) && r < |s.ranks| && from < |s.ranks| && s.ranks[r].receiving.None? && half.src == From(from)
    requires LinkInv(Outgoing(s.ranks[from], r), Some(half), k)
    ensures Inv(WithRank(WithLink(s, from, r, k), r, s.ranks[r].(receiving := Some(half))))
  {
    var t := WithRank(WithLink(s, from, r, k), r, s.ranks[r].(receiving := Some(half)));
    assert RankInv(s.ranks[r], |s.ranks|);
    assert Outgoing(t.ranks[from], r) == Outgoing(s.ranks[from], r);
    OneChannel(s, t, r, from, r);
  }

  /** The bytes a receive takes are the bytes sent with the length it took: they are the data
      part of the one item whose length part this receive has taken out, they fill the buffer
      exactly, and they load. */
  lemma DataBelongsToLength(s: State, l: Label)
    requires Inv(s) && Enabled(s, l) && l.RecvData?
    ensures var k, half := s.links[l.from][l.rank], s.ranks[l.rank].receiving.value;
            var i, m := FirstItem(k.items, half.tag), k.chan[FirstMatch(k.chan, half.tag)];
            && i < |k.items| && k.items[i].owner.Some?
            && (forall j :: 0 <= j < |k.items| && k.items[j].owner.Some? ==> j == i)
            && m == DataPart(k.items[i].sent)
            && |m.payload.bytes| == half.length + 1
            && Unpack(m.payload, half.length) == Some(k.items[i].sent.obj)
  {
    assert LinkAt(s, l.from, l.rank);
    assert RankInv(s.ranks[l.rank], |s.ranks|);
    TakeDataKeepsLink(Outgoing(s.ranks[l.from], l.rank), s.ranks[l.rank].receiving.value, s.links[l.from][l.rank]);
  }

  lemma RecvDataKeepsInv(s: State, l: Label)
    requires Inv(s) && Enabled(s, l) && l.RecvData?
    ensures Inv(Next(s, l))
  {
    var t, r := Next(s, l), l.rank;
    assert LinkAt(s, l.from, r);
    assert RankInv(s.ranks[r], |s.ranks|);
    TakeDataKeepsLink(Outgoing(s.ranks[l.from], r), s.ranks[r].receiving.value, s.links[l.from][r]);
    OneChannel(s, t, r, l.from, r);
  }

  lemma NextKeepsInv(s: State, l: Label)
    requires Inv(s) && Enabled(s, l) && Pinned(l)
    ensures Inv(Next(s, l))
  {
    match l
    case SendSize(_, _, _, _) => SendSizeKeepsInv(s, l);
    case SendData(_) => SendDataKeepsInv(s, l);
    case RecvSize(_, _, _, _, _) => RecvSizeKeepsInv(s, l);
    case RecvData(_, _) => RecvDataKeepsInv(s, l);
  }

  // ---------- Whole runs ----------

  ghost predicate Run(s: State, labels: seq<Label>, t: State)
    decreases |labels|
  {
    if labels == [] then s == t
    else Square(s) && Enabled(s, labels[0]) && Run(Next(s, labels[0]), labels[1..], t)
  }

  lemma {:induction false} RunKeepsInv(s: State, labels: seq<Label>, t: State)
    requires Inv(s) && Run(s, labels, t)
    requires forall i :: 0 <= i < |labels| ==> Pinned(labels[i])
    ensures Inv(t) && |t.ranks| == |s.ranks|
    decreases |labels|
  {
    if labels != [] {
      NextKeepsInv(s, labels[0]);
      RunKeepsInv(Next(s, labels[0]), labels[1..], t);
    }
  }

  /** A state some run of pinned receives gets to. */
  ghost predicate Reachable(n: nat, labels: seq<Label>, s: State) {
    Run(Start(n), labels, s) && forall i :: 0 <= i < |labels| ==> Pinned(labels[i])
  }

  lemma ReachableInv(n: nat, labels: seq<Label>, s: State)
    requires Reachable(n, labels, s)
    ensures Inv(s) && |s.ranks| == n
  {
    RunKeepsInv(Start(n), labels, s);
  }

  /** What rank `r` takes next from `src` are the bytes of the one object in the channel whose
      length part somebody, so rank `r` itself, has taken. */
  ghost predicate OwnBytes(s: State, r: nat, src: nat)
    requires Square(s) && r < |s.ranks| && src < |s.ranks| && Enabled(s, RecvData(r, src))
  {
    var k, half := s.links[src][r], s.ranks[r].receiving.value;
    var i, m := FirstItem(k.items, half.tag), k.chan[FirstMatch(k.chan, half.tag)];
    && i < |k.items| && k.items[i].owner.Some?
    && (forall j :: 0 <= j < |k.items| && k.items[j].owner.Some? ==> j == i)
    && m == DataPart(k.items[i].sent) && |m.payload.bytes| == half.length + 1
    && Unpack(m.payload, half.length) == Some(k.items[i].sent.obj)
  }

  /** Framing safety, for any number of senders and any mix of wildcards: nobody ever takes a
      length for bytes, bytes for a length, or the bytes of another send. */
  lemma FramingIsSafe(n: nat, labels: seq<Label>, s: State, r: nat)
    requires Reachable(n, labels, s) && r < n
    ensures Square(s) && |s.ranks| == n && !s.ranks[r].broken
    ensures forall src: nat :: src < n && Enabled(s, RecvData(r, src)) ==> OwnBytes(s, r, src)
  {
    ReachableInv(n, labels, s);
    forall src: nat | src < n && Enabled(s, RecvData(r, src))
      ensures OwnBytes(s, r, src)
    {
      DataBelongsToLength(s, RecvData(r, src));
    }
  }

  /** Nobody is left with half an object: the bytes a receive still needs are in the channel, or
      the sender it has pinned is about to send them. */
  lemma ReceiveCanFinish(n: nat, labels: seq<Label>, s: State, r: nat)
    requires Reachable(n, labels, s) && r < n && r < |s.ranks| && s.ranks[r].receiving.Some?
    ensures Square(s) && s.ranks[r].receiving.value.src.From?
    ensures var src := s.ranks[r].receiving.value.src.src;
            src < n && (Enabled(s, RecvData(r, src)) || Enabled(s, SendData(src)))
  {
    ReachableInv(n, labels, s);
    assert RankInv(s.ranks[r], n);
    var src := s.ranks[r].receiving.value.src.src;
    assert LinkAt(s, src, r) && RankInv(s.ranks[src], n);
    var k := s.links[src][r];
    if k.items[FirstItem(k.items, s.ranks[r].receiving.value.tag)].posted {
      FirstMatchInRender(k.items, s.ranks[r].receiving.value.tag);
    }
  }

  /** The objects the program's calls of `send` on rank `src` name for rank `dst` under `tag`. */
  function Called(labels: seq<Label>, src: nat, dst: nat, tag: nat): seq<Obj> {
    if labels == [] then []
    else
      (if labels[0].SendSize? && labels[0].rank == src && labels[0].dest == dst && labels[0].tag == tag
       then [labels[0].obj] else []) + Called(labels[1..], src, dst, tag)
  }

  /** A call of `send` puts its object into the channel to the rank it names, and into no other. */
  lemma NextSends(s: State, l: Label, src: nat, dst: nat, tag: nat)
    requires Square(s) && Enabled(s, l) && src < |s.ranks| && dst < |s.ranks|
    ensures Objs(Next(s, l).links[src][dst].sent, tag)
         == Objs(s.links[src][dst].sent, tag) +
            if l.SendSize? && l.rank == src && l.dest == dst && l.tag == tag then [l.obj] else []
  {
    if l.SendSize? {
      ObjsAppend(s.links[src][dst].sent, Sent(l.tag, l.obj), tag);
    }
  }

  lemma {:induction false} RunSends(s: State, labels: seq<Label>, t: State, src: nat, dst: nat, tag: nat)
    requires Square(s) && Run(s, labels, t) && src < |s.ranks| && dst < |s.ranks|
    ensures Square(t) && |t.ranks| == |s.ranks|
    ensures Objs(t.links[src][dst].sent, tag) == Objs(s.links[src][dst].sent, tag) + Called(labels, src, dst, tag)
    decreases |labels|
  {
    if labels == [] {
      assert Called([], src, dst, tag) == [];
    } else {
      var l := labels[0];
      NextSends(s, l, src, dst, tag);
      RunSends(Next(s, l), labels[1..], t, src, dst, tag);
      Assoc(Objs(s.links[src][dst].sent, tag),
            if l.SendSize? && l.rank == src && l.dest == dst && l.tag == tag then [l.obj] else [],
            Called(labels[1..], src, dst, tag));
    }
  }

  /** What a channel was given is what the program's calls named for it, in order. */
  lemma SendsAreCalls(n: nat, labels: seq<Label>, s: State, src: nat, dst: nat, tag: nat)
    requires Run(Start(n), labels, s) && src < n && dst < n
    ensures Square(s) && |s.ranks| == n
    ensures Objs(s.links[src][dst].sent, tag) == Called(labels, src, dst, tag)
  {
    RunSends(Start(n), labels, s, src, dst, tag);
  }

  /** Delivery: what `recv` returned on rank `dst` from rank `src`, on each tag, is what the calls of
      `send` on `src` named for `dst`, from the first on, in order, each once; the rest is in
      flight. */
  lemma DeliveryInOrder(n: nat, labels: seq<Label>, s: State, src: nat, dst: nat, tag: nat)
    requires Reachable(n, labels, s) && src < n && dst < n
    ensures Square(s) && |s.ranks| == n
    ensures var k := s.links[src][dst];
            && Objs(k.got, tag) <= Called(labels, src, dst, tag)
            && (k.chan == [] && s.ranks[src].sending.None? && s.ranks[dst].receiving.None? ==>
                  Objs(k.got, tag) == Called(labels, src, dst, tag))
  {
    SendsAreCalls(n, labels, s, src, dst, tag);
    ReachableInv(n, labels, s);
    var k := s.links[src][dst];
    assert LinkAt(s, src, dst);
    if k.chan == [] && s.ranks[src].sending.None? && s.ranks[dst].receiving.None? {
      assert Contents(k.items) == [];
    }
  }

  // ---------- Why the source is pinned ----------

  /** The calls a program makes: always pinned or from a named source, or anything at all. */
  predicate Allowed(l: Label, wild: bool) {
    wild || Pinned(l)
  }

  /** No run of `n` ranks that makes only allowed calls breaks a receive. */
  ghost predicate SafeCalls(n: nat, wild: bool) {
    forall labels, s: State, r: nat ::
      Run(Start(n), labels, s) && (forall i :: 0 <= i < |labels| ==> Allowed(labels[i], wild)) && r < |s.ranks| ==>
        !s.ranks[r].broken
  }

  lemma {:induction false} RunExtends(s: State, labels: seq<Label>, t: State, l: Label)
    requires Run(s, labels, t) && Square(t) && Enabled(t, l)
    ensures Run(s, labels + [l], Next(t, l))
    decreases |labels|
  {
    if labels == [] {
      assert Run(Next(t, l), [], Next(t, l));
    } else {
      RunExtends(Next(s, labels[0]), labels[1..], t, l);
      assert (labels + [l])[1..] == labels[1..] + [l];
    }
  }

  /** Ranks 0 and 1 have each sent a length to rank 0. */
  lemma TwoLengthsWaiting(n: nat, tag: nat, x: Obj, y: Obj) returns (labels: seq<Label>, s: State)
    requires n >= 2
    ensures Square(s) && |s.ranks| == n && Run(Start(n), labels, s)
    ensures s.ranks[0].receiving.None? && !s.ranks[0].broken
    ensures s.links[0][0].chan == [SizePart(Sent(tag, x))] && s.links[1][0].chan == [SizePart(Sent(tag, y))]
  {
    var s0 := Start(n);
    var l0 := SendSize(0, 0, tag, x);
    var s1 := Next(s0, l0);
    var l1 := SendSize(1, 0, tag, y);
    s := Next(s1, l1);
    RunExtends(s0, [], s0, l0);
    RunExtends(s0, [] + [l0], s1, l1);
    labels := [] + [l0] + [l1];
    assert s1.links[0][0].chan == [SizePart(Sent(tag, x))];
    assert s.links[0][0] == s1.links[0][0];
  }

  /** Without the pin two senders, one of them the receiver itself, and one wildcard receive are
      enough, on any tag: the receive takes the length of one send and then the length of the
      other where it expects bytes. */
  lemma UnpinnedReceiveMixes(n: nat, tag: nat, x: Obj, y: Obj) returns (labels: seq<Label>, s: State)
    requires n >= 2
    ensures Run(Start(n), labels, s) && |s.ranks| == n && s.ranks[0].broken
  {
    var sends, s2 := TwoLengthsWaiting(n, tag, x, y);
    var l2 := RecvSize(0, AnySource, Tag(tag), 0, false);
    FirstMatchIs(s2.links[0][0].chan, Tag(tag), 0);
    var s3 := Next(s2, l2);
    RunExtends(Start(n), sends, s2, l2);
    FirstMatchIs(s2.links[1][0].chan, Tag(tag), 0);
    assert s3.links[1][0] == s2.links[1][0];
    s := Next(s3, RecvData(0, 1));
    RunExtends(Start(n), sends + [l2], s3, RecvData(0, 1));
    labels := sends + [l2] + [RecvData(0, 1)];
  }

  // A single rank has no other sender to be mixed with: its unpinned receives are pinned ones.

  function PinnedRank(me: Rank): Rank {
    me.(receiving := if me.receiving.Some? then Some(me.receiving.value.(src := From(0))) else None)
  }

  function PinnedState(s: State): (t: State)
    requires Square(s)
    ensures Square(t) && t.links == s.links && |t.ranks| == |s.ranks|
  {
    s.(ranks := seq(|s.ranks|, r requires 0 <= r < |s.ranks| => PinnedRank(s.ranks[r])))
  }

  function PinnedLabel(l: Label): Label {
    if l.RecvSize? then l.(src := From(0)) else l
  }

  lemma PinnedNext(s: State, l: Label)
    requires Square(s) && |s.ranks| == 1 && Enabled(s, l)
    ensures Enabled(PinnedState(s), PinnedLabel(l))
    ensures Next(PinnedState(s), PinnedLabel(l)) == PinnedState(Next(s, l))
  {
    var p := PinnedState(s);
    assert p.ranks[0] == PinnedRank(s.ranks[0]);
    assert Next(p, PinnedLabel(l)).ranks == [PinnedRank(Next(s, l).ranks[0])];
  }

  lemma {:induction false} PinnedRun(s: State, labels: seq<Label>, t: State) returns (pinned: seq<Label>)
    requires Square(s) && |s.ranks| == 1 && Run(s, labels, t)
    ensures Square(t) && |t.ranks| == 1 && Run(PinnedState(s), pinned, PinnedState(t))
    ensures forall i :: 0 <= i < |pinned| ==> Pinned(pinned[i])
    decreases |labels|
  {
    if labels == [] {
      pinned := [];
    } else {
      PinnedNext(s, labels[0]);
      var rest := PinnedRun(Next(s, labels[0]), labels[1..], t);
      pinned := [PinnedLabel(labels[0])] + rest;
    }
  }

  lemma OneRankIsSafe(labels: seq<Label>, s: State)
    requires Run(Start(1), labels, s)
    ensures |s.ranks| == 1 && !s.ranks[0].broken
  {
    var pinned := PinnedRun(Start(1), labels, s);
    assert PinnedState(Start(1)) == Start(1);
    ReachableInv(1, pinned, PinnedState(s));
    assert RankInv(PinnedState(s).ranks[0], 1);
  }

  /** When the framing is safe: exactly if every receive pins its source or names it, as those of
      `recv` do, or there is only one rank to receive from. */
  lemma SafeIffPinned(n: nat, wild: bool)
    ensures SafeCalls(n, wild) <==> !wild || n <= 1
  {
    if wild && n >= 2 {
      var labels, s := UnpinnedReceiveMixes(n, 0, Nil, Nil);
    } else {
      forall labels, s: State, r: nat |
        Run(Start(n), labels, s) && (forall i :: 0 <= i < |labels| ==> Allowed(labels[i], wild)) && r < |s.ranks|
        ensures !s.ranks[r].broken
      {
        SafeRun(n, wild, labels, s, r);
      }
    }
  }

  lemma PinnedIsSafe(n: nat, labels: seq<Label>, s: State, r: nat)
    requires Reachable(n, labels, s) && r < |s.ranks|
    ensures !s.ranks[r].broken
  {
    ReachableInv(n, labels, s);
    assert RankInv(s.ranks[r], n);
  }

  lemma SafeRun(n: nat, wild: bool, labels: seq<Label>, s: State, r: nat)
    requires Run(Start(n), labels, s) && (!wild || n <= 1) && r < |s.ranks|
    requires forall i :: 0 <= i < |labels| ==> Allowed(labels[i], wild)
    ensures !s.ranks[r].broken
  {
    if !wild {
      PinnedIsSafe(n, labels, s, r);
    } else if n == 1 {
      OneRankIsSafe(labels, s);
    } else {
    }
  }

  // ---------- The calls ----------

  /** The ranks and their channels, updated in place; one method for each blocking call inside
      `comm_send` and `comm_recv`. */
  class Network {
    var ranks: seq<Rank>
    var links: seq<seq<Link>>

    ghost function View(): State
      reads this
    {
      State(ranks, links)
    }

    constructor (n: nat)
      ensures View() == Start(n) && Inv(View())
    {
      ranks := seq(n, _ => Rank(None, None, false));
      links := seq(n, _ => seq(n, _ => Link([], [], [], [])));
      new;
      assert ranks == Start(n).ranks && links == Start(n).links;
    }

    /** The channel from `src` to `dst` holds `chan`, and everything else is as it was. */
    twostate predicate OnlyChannel(src: nat, dst: nat, chan: Channel, r: nat)
      reads this
    {
      && Square(View()) && Square(old(View())) && |ranks| == |old(ranks)|
      && src < |ranks| && dst < |ranks| && links[src][dst].chan == chan
      && (forall a, b :: 0 <= a < |ranks| && 0 <= b < |ranks| && (a != src || b != dst) ==>
            links[a][b] == old(links)[a][b])
      && (forall q :: 0 <= q < |ranks| && q != r ==> ranks[q] == old(ranks)[q])
    }

    /** The first `MPI_Send` of `comm_send`: the length goes to `dest`. */
    method SendLength(r: nat, dest: nat, tag: nat, obj: Obj)
      requires Inv(View()) && Enabled(View(), SendSize(r, dest, tag, obj))
      modifies this
      ensures View() == Next(old(View()), SendSize(r, dest, tag, obj)) && Inv(View())
      ensures OnlyChannel(r, dest, old(links[r][dest].chan) + [Message(tag, Size(|Dump(obj)|))], r)
      ensures ranks[r].sending == Some(HalfSend(dest, Sent(tag, obj)))
    {
      NextKeepsInv(View(), SendSize(r, dest, tag, obj));
      var x, k := Sent(tag, obj), links[r][dest];
      var length := |Dump(obj)|;
      var k' := Link(k.chan + [Message(tag, Size(length))], k.items + [Item(x, None, false)], k.sent + [x], k.got);
      links := links[r := links[r][dest := k']];
      ranks := ranks[r := ranks[r].(sending := Some(HalfSend(dest, x)))];
    }

    /** The second: the terminated bytes go after it. */
    method SendBytes(r: nat)
      requires Inv(View()) && Enabled(View(), SendData(r))
      modifies this
      ensures View() == Next(old(View()), SendData(r)) && Inv(View())
      ensures var half := old(ranks[r].sending.value);
              OnlyChannel(r, half.dest, old(links[r][ranks[r].sending.value.dest].chan) +
                                        [Message(half.sent.tag, Data(Dump(half.sent.obj) + [0]))], r)
      ensures ranks[r].sending.None?
    {
      NextKeepsInv(View(), SendData(r));
      var HalfSend(dest, x) := ranks[r].sending.value;
      links := links[r := links[r][dest := LinkSendData(links[r][dest], x)]];
      ranks := ranks[r := ranks[r].(sending := None)];
    }

    /** The first `MPI_Recv` of `comm_recv`; `from` is the sender whose message it matched. */
    method RecvLength(r: nat, src: SourcePattern, tag: TagPattern, from: nat) returns (length: nat)
      requires Inv(View()) && Enabled(View(), RecvSize(r, src, tag, from, true))
      modifies this
      ensures View() == Next(old(View()), RecvSize(r, src, tag, from, true)) && Inv(View())
      ensures ranks[r].receiving == Some(HalfRecv(From(from), tag, length))
      ensures var i := FirstMatch(old(links[from][r].chan), tag);
              && old(links[from][r].chan)[i].payload == Size(length)
              && OnlyChannel(from, r, Without(old(links[from][r].chan), i), r)
    {
      NextKeepsInv(View(), RecvSize(r, src, tag, from, true));
      assert RankInv(Next(View(), RecvSize(r, src, tag, from, true)).ranks[r], |ranks|);
      var k := links[from][r];
      length := k.chan[FirstMatch(k.chan, tag)].payload.n;
      var pinned := if src.AnySource? then From(from) else src;
      links := links[from := links[from][r := LinkTakeSize(k, r, tag)]];
      ranks := ranks[r := ranks[r].(receiving := Some(HalfRecv(pinned, tag, length)))];
    }

    /** The second `MPI_Recv` and the unmarshalling. */
    method RecvBytes(r: nat, from: nat) returns (obj: Obj)
      requires Inv(View()) && Enabled(View(), RecvData(r, from))
      modifies this
      ensures View() == Next(old(View()), RecvData(r, from)) && Inv(View())
      ensures var c, tag := old(links[from][r].chan), old(ranks[r].receiving.value.tag);
              var i := FirstMatch(c, tag);
              && c[i].payload == Data(Dump(obj) + [0])
              && OnlyChannel(from, r, Without(c, i), r)
              && links[from][r].got == old(links[from][r].got) + [Sent(c[i].tag, obj)]
      ensures ranks[r].receiving.None?
    {
      NextKeepsInv(View(), RecvData(r, from));
      DataBelongsToLength(View(), RecvData(r, from));
      var k, half := links[from][r], ranks[r].receiving.value;
      var m := k.chan[FirstMatch(k.chan, half.tag)];
      obj := Load(m.payload.bytes).value;
      links := links[from := links[from][r := LinkTakeData(k, half.tag, Sent(m.tag, obj))]];
      ranks := ranks[r := ranks[r].(receiving := None)];
    }
  }
}
