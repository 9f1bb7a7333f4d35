/** `irecv` requests: `request_start`, `request_thread`, `request_wait`, `request_waitall`,
`request_test` and `request_cancel`.

A request first receives a length (`TxSize`), then the bytes (`TxData`).  While it waits for the
length it is in the watch table, where the polling thread looks after it; `wait` may get there
first.  Whoever finds the length complete posts the receive for the bytes.

One process is modelled with everybody who sends to it.  Requests name their source.
*/
module Requests {
  import opened Marshal
  import opened Transport
  import opened Frames
  import W = WatchTable
  import Folds
  import P = PointToPoint

  datatype Stage = TxSize | TxData

  /** What MPI knows about a request: nothing, or a posted or completed receive of either part. */
  datatype Mpi = Null | PendingSize | DoneSize | PendingData | DoneData

  datatype Buffer = Buffer(capacity: nat, bytes: Bytes)

  /** A `struct mpi_request` of type RECV.  `posts` counts the data receives posted for it and
      `taken` is the send its length came from; both are history. */
  datatype Req = Req(src: nat, tag: TagPattern, stage: Stage, mpi: Mpi, buflen: nat, buf: Option<Buffer>,
                     obj: Option<Obj>, started: bool, cancelled: bool, broken: bool,
                     posts: nat, taken: Option<Sent>)

  /** Everything one rank sends us; `takers[i]` is the request that got `link.got[i]`. */
  datatype Source = Source(link: P.Link, sending: Option<Sent>, takers: seq<nat>)

  datatype State = State(sources: seq<Source>, reqs: seq<Req>, rlist: W.Slots)

  datatype Label =
    | SendSize(src: nat, tag: nat, obj: Obj)    // the sender's first message
    | SendData(src: nat)                        // its second
    | Start(id: nat)
    | Match(id: nat)                            // MPI completes the posted receive
    | Poll(slot: nat)                           // the polling thread looks at one slot
    | WaitSize(id: nat)                         // the first half of wait
    | WaitData(id: nat)                         // the second half of wait
    | Test(id: nat)
    | WaitAllSizes(ids: seq<nat>)               // the first half of waitall
    | WaitAllData(ids: seq<nat>)                // the second half
    | Cancel(id: nat)

  // ---------- Requests, one at a time ----------

  predicate Pending(m: Mpi) {
    m.PendingSize? || m.PendingData?
  }

  /** The receive of the bytes is posted into a buffer of the announced length and a terminator. */
  function PostData(r: Req): Req {
    r.(buf := Some(Buffer(r.buflen + 1, [])), mpi := PendingData, stage := TxData, posts := r.posts + 1)
  }

  /** A posted receive completes with the payload of a message. */
  function Arrived(r: Req, m: Message, from: Option<Sent>): Req {
    match m.payload
    case Size(n) =>
      if r.mpi.PendingSize? then r.(mpi := DoneSize, buflen := n, taken := from) else r.(broken := true)
    case Data(b) =>
      if r.mpi.PendingData? && r.buf.Some? && |b| == r.buf.value.capacity
      then r.(mpi := DoneData, buf := Some(r.buf.value.(bytes := b)))
      else r.(broken := true)
  }

  /** `wait` has the bytes: unmarshal, forget the buffer.  A second `wait` finds no buffer and raises. */
  function Finished(r: Req): Req {
    match r.buf
    case None => r.(mpi := Null)
    case Some(b) =>
      match Load(b.bytes)
      case None => r.(mpi := Null, broken := true)
      case Some(x) => r.(mpi := Null, obj := Some(x), buf := None)
  }

  function Cancelled(r: Req): Req {
    r.(stage := TxSize, buf := None, mpi := Null, cancelled := true)
  }

  // ---------- Steps ----------

  predicate ValidId(s: State, id: nat) {
    id < |s.reqs| && s.reqs[id].src < |s.sources|
  }

  function Chan(s: State, id: nat): Channel
    requires ValidId(s, id)
  {
    s.sources[s.reqs[id].src].link.chan
  }

  predicate Enabled(s: State, l: Label) {
    match l
    case SendSize(src, _, _) => src < |s.sources| && s.sources[src].sending.None?
    case SendData(src) => src < |s.sources| && s.sources[src].sending.Some?
    case Start(id) => ValidId(s, id) && !s.reqs[id].started && !s.reqs[id].cancelled && s.rlist != []
    case Match(id) =>
      ValidId(s, id) && Pending(s.reqs[id].mpi) && FirstMatch(Chan(s, id), s.reqs[id].tag) < |Chan(s, id)|
    case Poll(slot) =>
      slot < |s.rlist| && s.rlist[slot].Some? && ValidId(s, s.rlist[slot].value) &&
      !Pending(s.reqs[s.rlist[slot].value].mpi)
    case WaitSize(id) => ValidId(s, id) && s.reqs[id].started && s.reqs[id].stage == TxSize && !Pending(s.reqs[id].mpi)
    case WaitData(id) => ValidId(s, id) && s.reqs[id].started && s.reqs[id].stage == TxData && !Pending(s.reqs[id].mpi)
    case Test(id) => ValidId(s, id) && s.reqs[id].started
    case WaitAllSizes(ids) =>
      forall i :: 0 <= i < |ids| ==>
        ValidId(s, ids[i]) && s.reqs[ids[i]].started && (s.reqs[ids[i]].stage == TxSize ==> !Pending(s.reqs[ids[i]].mpi))
    case WaitAllData(ids) =>
      forall i :: 0 <= i < |ids| ==>
        ValidId(s, ids[i]) && s.reqs[ids[i]].started && s.reqs[ids[i]].stage == TxData && !Pending(s.reqs[ids[i]].mpi)
    case Cancel(id) => ValidId(s, id)
  }

  function WithReq(s: State, id: nat, r: Req): State
    requires id < |s.reqs|
  {
    s.(reqs := s.reqs[id := r])
  }

  function WithSource(s: State, src: nat, x: Source): State
    requires src < |s.sources|
  {
    s.(sources := s.sources[src := x])
  }

  /** The item the first message matching `tag` belongs to, for the history. */
  function Owner(k: P.Link, tag: TagPattern): Option<Sent> {
    var i := FirstItem(k.items, tag);
    if i < |k.items| then Some(k.items[i].sent) else None
  }

  /** The channel gives the message up. */
  function Delivered(x: Source, id: nat, r: Req): Source
    requires FirstMatch(x.link.chan, r.tag) < |x.link.chan|
  {
    var m := x.link.chan[FirstMatch(x.link.chan, r.tag)];
    if r.mpi.PendingSize? then x.(link := P.LinkTakeSize(x.link, id, r.tag))
    else
      match P.Unpack(m.payload, r.buflen)
      case None => x
      case Some(y) => x.(link := P.LinkTakeData(x.link, r.tag, Sent(m.tag, y)), takers := x.takers + [id])
  }

  /** `wait` posts the data receive for a request and takes it out of the table. */
  function PostAndUnwatch(s: State, id: nat): State
    requires id < |s.reqs|
  {
    WithReq(s, id, PostData(s.reqs[id])).(rlist := W.Unwatched(s.rlist, id))
  }

  function PostAll(s: State, ids: seq<nat>): (t: State)
    requires forall i :: 0 <= i < |ids| ==> ids[i] < |s.reqs|
    ensures |t.reqs| == |s.reqs|
    decreases |ids|
  {
    if ids == [] then s
    else
      var t := if s.reqs[ids[0]].stage == TxSize then PostAndUnwatch(s, ids[0]) else s;
      PostAll(t, ids[1..])
  }

  function CompleteAll(s: State, ids: seq<nat>): (t: State)
    requires forall i :: 0 <= i < |ids| ==> ids[i] < |s.reqs|
    ensures |t.reqs| == |s.reqs|
    decreases |ids|
  {
    if ids == [] then s
    else CompleteAll(WithReq(s, ids[0], s.reqs[ids[0]].(mpi := Null)), ids[1..])
  }

  function Next(s: State, l: Label): State
    requires Enabled(s, l)
  {
    match l
    case SendSize(src, tag, obj) =>
      var x, y := s.sources[src], Sent(tag, obj);
      WithSource(s, src, x.(link := P.LinkSendSize(x.link, y), sending := Some(y)))
    case SendData(src) =>
      var x := s.sources[src];
      WithSource(s, src, x.(link := P.LinkSendData(x.link, x.sending.value), sending := None))
    case Start(id) =>
      WithReq(s, id, s.reqs[id].(mpi := PendingSize, started := true)).(rlist := W.Watched(s.rlist, id))
    case Match(id) =>
      var r := s.reqs[id];
      var x := s.sources[r.src];
      var m := x.link.chan[FirstMatch(x.link.chan, r.tag)];
      WithReq(WithSource(s, r.src, Delivered(x, id, r)), id, Arrived(r, m, Owner(x.link, r.tag)))
    case Poll(slot) =>
      var id := s.rlist[slot].value;
      WithReq(s, id, PostData(s.reqs[id])).(rlist := s.rlist[slot := None])
    case WaitSize(id) => PostAndUnwatch(s, id)
    case WaitData(id) => WithReq(s, id, Finished(s.reqs[id]))
    case Test(id) =>
      var r := s.reqs[id];
      if r.stage == TxData && !Pending(r.mpi) then WithReq(s, id, r.(mpi := Null)) else s
    case WaitAllSizes(ids) => PostAll(s, ids)
    case WaitAllData(ids) => CompleteAll(s, ids)
    case Cancel(id) =>
      WithReq(s, id, Cancelled(s.reqs[id])).(rlist := W.Unwatched(s.rlist, id))
  }

  function NewReq(src: nat, tag: TagPattern): Req {
    Req(src, tag, TxSize, Null, 0, None, None, false, false, false, 0, None)
  }

  /** The program will make these requests; nobody has sent anything. */
  function Init(sources: nat, wanted: seq<(nat, TagPattern)>): State {
    State(seq(sources, _ => Source(P.Link([], [], [], []), None, [])),
          seq(|wanted|, i requires 0 <= i < |wanted| => NewReq(wanted[i].0, wanted[i].1)),
          W.Blank(W.INITIAL_CAPACITY))
  }

  ghost predicate PlanOk(sources: nat, wanted: seq<(nat, TagPattern)>) {
    forall i :: 0 <= i < |wanted| ==> wanted[i].0 < sources
  }

  // ---------- The watch table ----------

  predicate Waiting(r: Req) {
    r.started && !r.cancelled && r.stage == TxSize
  }

  function WaitingIds(reqs: seq<Req>): set<nat> {
    set id: nat | id < |reqs| && Waiting(reqs[id])
  }

  /** The table holds exactly the requests that are started, not cancelled and still waiting for
      their length, each once. */
  ghost predicate TableInv(s: State) {
    && s.rlist != [] && W.Exactly(s.rlist, WaitingIds(s.reqs))
    && (forall id :: 0 <= id < |s.reqs| && !s.reqs[id].started ==> s.reqs[id].stage == TxSize)
  }

  lemma SameWaiting(reqs: seq<Req>, id: nat, r: Req)
    requires id < |reqs| && Waiting(r) == Waiting(reqs[id])
    ensures WaitingIds(reqs[id := r]) == WaitingIds(reqs)
  {
  }

  lemma NoLongerWaiting(reqs: seq<Req>, id: nat, r: Req)
    requires id < |reqs| && !Waiting(r)
    ensures WaitingIds(reqs[id := r]) == WaitingIds(reqs) - {id}
  {
  }

  lemma NowWaiting(reqs: seq<Req>, id: nat, r: Req)
    requires id < |reqs| && Waiting(r)
    ensures WaitingIds(reqs[id := r]) == WaitingIds(reqs) + {id}
  {
  }

  lemma PostKeepsTable(s: State, id: nat)
    requires TableInv(s) && id < |s.reqs| && s.reqs[id].started
    ensures TableInv(PostAndUnwatch(s, id))
  {
    W.UnwatchRemoves(s.rlist, WaitingIds(s.reqs), id);
    NoLongerWaiting(s.reqs, id, PostData(s.reqs[id]));
  }

  lemma {:induction false} PostAllKeepsTable(s: State, ids: seq<nat>)
    requires TableInv(s) && forall i :: 0 <= i < |ids| ==> ids[i] < |s.reqs| && s.reqs[ids[i]].started
    ensures TableInv(PostAll(s, ids))
    decreases |ids|
  {
    if ids != [] {
      PostKeepsTable(s, ids[0]);
      PostAllKeepsTable(if s.reqs[ids[0]].stage == TxSize then PostAndUnwatch(s, ids[0]) else s, ids[1..]);
    }
  }

  lemma {:induction false} CompleteAllKeepsTable(s: State, ids: seq<nat>)
    requires TableInv(s) && forall i :: 0 <= i < |ids| ==> ids[i] < |s.reqs|
    ensures TableInv(CompleteAll(s, ids))
    decreases |ids|
  {
    if ids != [] {
      SameWaiting(s.reqs, ids[0], s.reqs[ids[0]].(mpi := Null));
      CompleteAllKeepsTable(WithReq(s, ids[0], s.reqs[ids[0]].(mpi := Null)), ids[1..]);
    }
  }

  lemma PollKeepsTable(s: State, slot: nat)
    requires TableInv(s) && Enabled(s, Poll(slot))
    ensures TableInv(Next(s, Poll(slot)))
  {
    var id := s.rlist[slot].value;
    W.UnwatchRemoves(s.rlist, WaitingIds(s.reqs), id);
    NoLongerWaiting(s.reqs, id, PostData(s.reqs[id]));
  }

  lemma StartKeepsTable(s: State, id: nat)
    requires TableInv(s) && Enabled(s, Start(id))
    ensures TableInv(Next(s, Start(id)))
  {
    W.WatchAdds(s.rlist, WaitingIds(s.reqs), id);
    NowWaiting(s.reqs, id, s.reqs[id].(mpi := PendingSize, started := true));
  }

  /** A step that changes one request, and not whether it is waiting. */
  lemma SameTable(s: State, t: State, id: nat)
    requires TableInv(s) && id < |s.reqs| == |t.reqs| && t.rlist == s.rlist
    requires t.reqs == s.reqs[id := t.reqs[id]] && Waiting(t.reqs[id]) == Waiting(s.reqs[id])
    requires !t.reqs[id].started ==> t.reqs[id].stage == TxSize
    ensures TableInv(t)
  {
    SameWaiting(s.reqs, id, t.reqs[id]);
  }

  lemma CancelKeepsTable(s: State, id: nat)
    requires TableInv(s) && Enabled(s, Cancel(id))
    ensures TableInv(Next(s, Cancel(id)))
  {
    W.UnwatchRemoves(s.rlist, WaitingIds(s.reqs), id);
    NoLongerWaiting(s.reqs, id, Cancelled(s.reqs[id]));
  }

  /** Every step keeps the table right: starting, polling, waiting for one or all, testing,
      cancelling in any state, and whatever MPI and the senders do meanwhile. */
  lemma NextKeepsTable(s: State, l: Label)
    requires TableInv(s) && Enabled(s, l)
    ensures TableInv(Next(s, l))
  {
    match l
    case SendSize(_, _, _) =>
    case SendData(_) =>
    case Start(id) => StartKeepsTable(s, id);
    case Match(id) => SameTable(s, Next(s, l), id);
    case Poll(slot) => PollKeepsTable(s, slot);
    case WaitSize(id) => PostKeepsTable(s, id);
    case WaitData(id) => SameTable(s, Next(s, l), id);
    case Test(id) => SameTable(s, Next(s, l), id);
    case WaitAllSizes(ids) => PostAllKeepsTable(s, ids);
    case WaitAllData(ids) => CompleteAllKeepsTable(s, ids);
    case Cancel(id) => CancelKeepsTable(s, id);
  }

  // ---------- The protocol, while nothing is cancelled ----------

  predicate Unfinished(r: Req) {
    r.mpi.PendingSize? || r.mpi.DoneSize? || r.mpi.PendingData?
  }

  /** It has taken a length out of the channel and not yet the bytes. */
  predicate HasLength(r: Req) {
    r.mpi.DoneSize? || r.mpi.PendingData?
  }

  predicate HasData(r: Req) {
    r.started && r.stage == TxData && (r.mpi.DoneData? || r.mpi.Null?)
  }

  /** What a request's fields say about each other: at most one data receive is posted for it, into
      a buffer of the announced length plus one, and `wait` leaves the object that was sent. */
  ghost predicate ReqInv(r: Req) {
    && !r.broken && !r.cancelled
    && r.posts == (if r.stage == TxData then 1 else 0)
    && (!r.started ==> r.stage == TxSize && r.mpi.Null? && r.taken.None?)
    && (r.started ==> (r.stage == TxSize <==> r.mpi.PendingSize? || r.mpi.DoneSize?))
    && (r.stage == TxSize ==> r.buf.None? && r.obj.None?)
    && (r.mpi.PendingSize? ==> r.taken.None?)
    && (HasLength(r) || HasData(r) ==> r.taken.Some? && r.buflen == |Dump(r.taken.value.obj)| && MatchesTag(r.tag, r.taken.value.tag))
    && (r.mpi.PendingData? ==> r.obj.None? && r.buf.Some? && r.buf.value.capacity == r.buflen + 1)
    && (r.mpi.DoneData? ==> r.obj.None? && r.buf.Some?)
    && (HasData(r) && r.buf.Some? ==> r.obj.None? && r.buf.value == Buffer(r.buflen + 1, Dump(r.taken.value.obj) + [0]))
    && (HasData(r) && r.buf.None? ==> r.obj == Some(r.taken.value.obj))
  }

  predicate Compete(r: Req, q: Req) {
    r.src == q.src && Unfinished(r) && Unfinished(q) && Overlap(r.tag, q.tag)
  }

  /** No two unfinished receives could match the same message. */
  ghost predicate Apart(reqs: seq<Req>) {
    forall i, j :: 0 <= i < |reqs| && 0 <= j < |reqs| && i != j ==> !Compete(reqs[i], reqs[j])
  }

  /** Request `id` has taken the length of item `k` of the channel from `src`. */
  ghost predicate Holds(reqs: seq<Req>, src: nat, items: seq<Item>, id: nat, k: nat) {
    && id < |reqs| && k < |items| && reqs[id].src == src && HasLength(reqs[id])
    && FirstItem(items, reqs[id].tag) == k && reqs[id].taken == Some(items[k].sent)
  }

  ghost predicate OwnersInv(reqs: seq<Req>, src: nat, items: seq<Item>) {
    && (forall k :: 0 <= k < |items| && items[k].owner.Some? ==> Holds(reqs, src, items, items[k].owner.value, k))
    && (forall id :: 0 <= id < |reqs| && reqs[id].src == src && HasLength(reqs[id]) ==>
          var k := FirstItem(items, reqs[id].tag);
          k < |items| && items[k].owner == Some(id))
  }

  /** Every request that has its bytes took exactly one of the objects the channel delivered. */
  ghost predicate TakersInv(reqs: seq<Req>, src: nat, got: seq<Sent>, takers: seq<nat>) {
    && |takers| == |got|
    && (forall i :: 0 <= i < |takers| ==>
          takers[i] < |reqs| && reqs[takers[i]].src == src && HasData(reqs[takers[i]]) && reqs[takers[i]].taken == Some(got[i]))
    && (forall i, j :: 0 <= i < j < |takers| ==> takers[i] != takers[j])
    && (forall id :: 0 <= id < |reqs| && reqs[id].src == src && HasData(reqs[id]) ==> id in takers)
  }

  ghost predicate SourceInv(reqs: seq<Req>, src: nat, x: Source) {
    && x.link.chan == Render(x.link.items)
    && P.TailInv(x.sending, x.link.items)
    && Conserved(x.link.sent, x.link.got, x.link.items)
    && OwnersInv(reqs, src, x.link.items)
    && TakersInv(reqs, src, x.link.got, x.takers)
  }

  ghost predicate Inv(s: State) {
    && (forall id :: 0 <= id < |s.reqs| ==> ReqInv(s.reqs[id]) && s.reqs[id].src < |s.sources|)
    && Apart(s.reqs)
    && (forall src :: 0 <= src < |s.sources| ==> SourceInv(s.reqs, src, s.sources[src]))
  }

  /** What the caller has to see to: receives in flight at once must not compete for messages,
      and nothing is cancelled. */
  ghost predicate Careful(s: State, l: Label) {
    && !l.Cancel?
    && (l.Start? && l.id < |s.reqs| ==>
          forall j :: 0 <= j < |s.reqs| && j != l.id ==> !Compete(s.reqs[l.id].(mpi := PendingSize), s.reqs[j]))
  }

  // ---------- Steps that leave the channels alone ----------

  /** The parts of a request the channels' invariants look at. */
  ghost predicate SameView(r: Req, r': Req) {
    && r'.src == r.src && r'.tag == r.tag && r'.taken == r.taken
    && HasLength(r') == HasLength(r) && HasData(r') == HasData(r)
  }

  lemma ViewKeepsSource(reqs: seq<Req>, id: nat, r: Req, src: nat, x: Source)
    requires id < |reqs| && SameView(reqs[id], r) && SourceInv(reqs, src, x)
    ensures SourceInv(reqs[id := r], src, x)
  {
    var reqs' := reqs[id := r];
    forall k | 0 <= k < |x.link.items| && x.link.items[k].owner.Some?
      ensures Holds(reqs', src, x.link.items, x.link.items[k].owner.value, k)
    {
      assert Holds(reqs, src, x.link.items, x.link.items[k].owner.value, k);
    }
  }

  lemma ViewKeepsInv(s: State, id: nat, r: Req)
    requires Inv(s) && id < |s.reqs| && SameView(s.reqs[id], r) && ReqInv(r)
    requires Unfinished(r) ==> Unfinished(s.reqs[id])
    ensures Inv(WithReq(s, id, r))
  {
    forall src | 0 <= src < |s.sources|
      ensures SourceInv(s.reqs[id := r], src, s.sources[src])
    {
      ViewKeepsSource(s.reqs, id, r, src, s.sources[src]);
    }
  }

  lemma StartKeepsInv(s: State, id: nat)
    requires Inv(s) && Enabled(s, Start(id)) && Careful(s, Start(id))
    ensures Inv(Next(s, Start(id)))
  {
    var r := s.reqs[id].(mpi := PendingSize, started := true);
    assert ReqInv(s.reqs[id]);
    assert forall j :: 0 <= j < |s.reqs| && j != id ==> !Compete(s.reqs[id].(mpi := PendingSize), s.reqs[j]);
    forall src | 0 <= src < |s.sources|
      ensures SourceInv(s.reqs[id := r], src, s.sources[src])
    {
      StartKeepsSource(s.reqs, id, r, src, s.sources[src]);
    }
  }

  lemma StartKeepsSource(reqs: seq<Req>, id: nat, r: Req, src: nat, x: Source)
    requires id < |reqs| && SourceInv(reqs, src, x)
    requires !HasLength(reqs[id]) && !HasData(reqs[id]) && !HasLength(r) && !HasData(r) && r.src == reqs[id].src
    ensures SourceInv(reqs[id := r], src, x)
  {
    var reqs' := reqs[id := r];
    forall k | 0 <= k < |x.link.items| && x.link.items[k].owner.Some?
      ensures Holds(reqs', src, x.link.items, x.link.items[k].owner.value, k)
    {
      assert Holds(reqs, src, x.link.items, x.link.items[k].owner.value, k);
    }
  }

  /** Whoever finds the length complete, the poller or `wait`, posts the one data receive. */
  lemma PostKeepsInv(s: State, id: nat)
    requires Inv(s) && id < |s.reqs| && s.reqs[id].mpi.DoneSize?
    ensures Inv(WithReq(s, id, PostData(s.reqs[id])))
  {
    assert ReqInv(s.reqs[id]);
    ViewKeepsInv(s, id, PostData(s.reqs[id]));
  }

  lemma FinishKeepsInv(s: State, id: nat)
    requires Inv(s) && id < |s.reqs| && HasData(s.reqs[id])
    ensures Inv(WithReq(s, id, Finished(s.reqs[id])))
    ensures Finished(s.reqs[id]).obj == Some(s.reqs[id].taken.value.obj)
  {
    var r := s.reqs[id];
    assert ReqInv(r);
    LoadIgnoresPadding(r.taken.value.obj, [0]);
    ViewKeepsInv(s, id, Finished(r));
  }

  lemma TestKeepsInv(s: State, id: nat)
    requires Inv(s) && id < |s.reqs| && HasData(s.reqs[id])
    ensures Inv(WithReq(s, id, s.reqs[id].(mpi := Null)))
  {
    assert ReqInv(s.reqs[id]);
    ViewKeepsInv(s, id, s.reqs[id].(mpi := Null));
  }

  // ---------- The senders ----------

  /** What a channel's owners say does not depend on which bytes have been sent, nor on new items
      at its end. */
  lemma OwnersGrow(reqs: seq<Req>, src: nat, items: seq<Item>, items': seq<Item>)
    requires OwnersInv(reqs, src, items) && |items| <= |items'|
    requires forall k :: 0 <= k < |items| ==> items'[k].sent == items[k].sent && items'[k].owner == items[k].owner
    requires forall k :: |items| <= k < |items'| ==> items'[k].owner.None?
    ensures OwnersInv(reqs, src, items')
  {
    forall k | 0 <= k < |items'| && items'[k].owner.Some?
      ensures Holds(reqs, src, items', items'[k].owner.value, k)
    {
      assert Holds(reqs, src, items, items[k].owner.value, k);
      FirstItemIs(items', reqs[items[k].owner.value].tag, k);
    }
    forall id | 0 <= id < |reqs| && reqs[id].src == src && HasLength(reqs[id])
      ensures var k := FirstItem(items', reqs[id].tag);
              k < |items'| && items'[k].owner == Some(id)
    {
      FirstItemIs(items', reqs[id].tag, FirstItem(items, reqs[id].tag));
    }
  }

  lemma SendSizeKeepsInv(s: State, l: Label)
    requires Inv(s) && Enabled(s, l) && l.SendSize?
    ensures Inv(Next(s, l))
  {
    var x, it := s.sources[l.src], Item(Sent(l.tag, l.obj), None, false);
    assert SourceInv(s.reqs, l.src, x);
    RenderConcat(x.link.items, [it]);
    SendConserves(x.link.sent, x.link.got, x.link.items, it);
    OwnersGrow(s.reqs, l.src, x.link.items, x.link.items + [it]);
    assert SourceInv(s.reqs, l.src, Next(s, l).sources[l.src]);
  }

  lemma SendDataKeepsSource(reqs: seq<Req>, src: nat, x: Source)
    requires SourceInv(reqs, src, x) && x.sending.Some?
    ensures SourceInv(reqs, src, x.(link := P.LinkSendData(x.link, x.sending.value), sending := None))
  {
    var items := P.LinkSendData(x.link, x.sending.value).items;
    PostLast(x.link.items);
    assert Contents(items) == Contents(x.link.items);
    OwnersGrow(reqs, src, x.link.items, items);
  }

  lemma SendDataKeepsInv(s: State, l: Label)
    requires Inv(s) && Enabled(s, l) && l.SendData?
    ensures Inv(Next(s, l))
  {
    SendDataKeepsSource(s.reqs, l.src, s.sources[l.src]);
  }

  // ---------- A message arrives ----------

  /** A request of one source is nothing to the channels of the others. */
  lemma OtherSource(reqs: seq<Req>, id: nat, r: Req, src: nat, x: Source)
    requires id < |reqs| && r.src == reqs[id].src != src && SourceInv(reqs, src, x)
    ensures SourceInv(reqs[id := r], src, x)
  {
    var reqs' := reqs[id := r];
    forall k | 0 <= k < |x.link.items| && x.link.items[k].owner.Some?
      ensures Holds(reqs', src, x.link.items, x.link.items[k].owner.value, k)
    {
      assert Holds(reqs, src, x.link.items, x.link.items[k].owner.value, k);
    }
  }

  /** One request and its own channel change. */
  lemma OneRequest(s: State, id: nat, r: Req, x: Source)
    requires Inv(s) && id < |s.reqs| && ReqInv(r)
    requires r.src == s.reqs[id].src && r.tag == s.reqs[id].tag && (Unfinished(r) ==> Unfinished(s.reqs[id]))
    requires SourceInv(s.reqs[id := r], r.src, x)
    ensures r.src < |s.sources| && Inv(WithReq(WithSource(s, r.src, x), id, r))
  {
    forall src | 0 <= src < |s.sources| && src != r.src
      ensures SourceInv(s.reqs[id := r], src, s.sources[src])
    {
      OtherSource(s.reqs, id, r, src, s.sources[src]);
    }
  }

  /** A receive waiting for a length finds one that nobody else is after. */
  lemma FindsLength(s: State, id: nat)
    requires Inv(s) && Enabled(s, Match(id)) && s.reqs[id].mpi.PendingSize?
    ensures var r := s.reqs[id];
            var k := s.sources[r.src].link;
            var i := FirstItem(k.items, r.tag);
            && i < |k.items| && k.items[i].owner.None?
            && FirstMatch(k.chan, r.tag) == |Render(k.items[..i])|
            && k.chan[FirstMatch(k.chan, r.tag)] == SizePart(k.items[i].sent)
  {
    var r := s.reqs[id];
    assert SourceInv(s.reqs, r.src, s.sources[r.src]);
    var k := s.sources[r.src].link;
    var i := FirstItem(k.items, r.tag);
    if i == |k.items| {
      NoMatchInRender(k.items, r.tag);
    }
    if k.items[i].owner.Some? {
      var j := k.items[i].owner.value;
      assert Holds(s.reqs, r.src, k.items, j, i);
      assert Compete(s.reqs[id], s.reqs[j]);
    }
    FirstMatchInRender(k.items, r.tag);
  }

  /** A request takes the length of item `i`. */
  lemma OwnersTake(reqs: seq<Req>, id: nat, r: Req, items: seq<Item>, i: nat)
    requires OwnersInv(reqs, r.src, items) && id < |reqs| && !HasLength(reqs[id])
    requires Holds(reqs[id := r], r.src, items, id, i) && items[i].owner.None?
    ensures OwnersInv(reqs[id := r], r.src, items[i := items[i].(owner := Some(id))])
  {
    var items', reqs' := items[i := items[i].(owner := Some(id))], reqs[id := r];
    FirstItemIs(items', r.tag, i);
    forall k | 0 <= k < |items'| && items'[k].owner.Some?
      ensures Holds(reqs', r.src, items', items'[k].owner.value, k)
    {
      if k != i {
        var j := items[k].owner.value;
        assert Holds(reqs, r.src, items, j, k);
        FirstItemIs(items', reqs[j].tag, k);
      }
    }
    forall j | 0 <= j < |reqs'| && reqs'[j].src == r.src && HasLength(reqs'[j])
      ensures var k := FirstItem(items', reqs'[j].tag);
              k < |items'| && items'[k].owner == Some(j)
    {
      if j != id {
        FirstItemIs(items', reqs[j].tag, FirstItem(items, reqs[j].tag));
      }
    }
  }

  function WithLength(r: Req, x: Sent): Req {
    r.(mpi := DoneSize, buflen := |Dump(x.obj)|, taken := Some(x))
  }

  /** The channel when it has given up the length of item `i`. */
  function LengthTaken(x: Source, id: nat, i: nat): Source
    requires i < |x.link.items|
  {
    var items := x.link.items;
    var left := items[i := items[i].(owner := Some(id))];
    x.(link := x.link.(chan := Render(left), items := left))
  }

  lemma LengthTakenKeepsSource(reqs: seq<Req>, id: nat, r: Req, x: Source, i: nat)
    requires SourceInv(reqs, r.src, x) && id < |reqs|
    requires !HasLength(reqs[id]) && !HasData(reqs[id]) && !HasData(r)
    requires Holds(reqs[id := r], r.src, x.link.items, id, i) && x.link.items[i].owner.None?
    ensures SourceInv(reqs[id := r], r.src, LengthTaken(x, id, i))
  {
    OwnersTake(reqs, id, r, x.link.items, i);
    assert Contents(LengthTaken(x, id, i).link.items) == Contents(x.link.items);
  }

  lemma MatchSizeIs(s: State, id: nat)
    requires Inv(s) && Enabled(s, Match(id)) && s.reqs[id].mpi.PendingSize?
    ensures var r := s.reqs[id];
            var x := s.sources[r.src];
            var i := FirstItem(x.link.items, r.tag);
            && i < |x.link.items|
            && Next(s, Match(id)) == WithReq(WithSource(s, r.src, LengthTaken(x, id, i)), id, WithLength(r, x.link.items[i].sent))
  {
    var r := s.reqs[id];
    var x := s.sources[r.src];
    assert SourceInv(s.reqs, r.src, x);
    var i := FirstItem(x.link.items, r.tag);
    FindsLength(s, id);
    TakePart(x.link.items, i, x.link.items[i].(owner := Some(id)));
  }

  lemma MatchSizeKeepsInv(s: State, id: nat)
    requires Inv(s) && Enabled(s, Match(id)) && s.reqs[id].mpi.PendingSize?
    ensures Inv(Next(s, Match(id)))
  {
    var r := s.reqs[id];
    var x := s.sources[r.src];
    assert ReqInv(r) && SourceInv(s.reqs, r.src, x);
    var i := FirstItem(x.link.items, r.tag);
    FindsLength(s, id);
    MatchSizeIs(s, id);
    var r' := WithLength(r, x.link.items[i].sent);
    LengthTakenKeepsSource(s.reqs, id, r', x, i);
    OneRequest(s, id, r', LengthTaken(x, id, i));
  }

  /** A receive waiting for bytes finds those of the send whose length it took. */
  lemma FindsBytes(s: State, id: nat)
    requires Inv(s) && Enabled(s, Match(id)) && s.reqs[id].mpi.PendingData?
    ensures var r := s.reqs[id];
            var k := s.sources[r.src].link;
            var i := FirstItem(k.items, r.tag);
            && i < |k.items| && k.items[i].owner == Some(id) && k.items[i].posted
            && r.taken == Some(k.items[i].sent)
            && FirstMatch(k.chan, r.tag) == |Render(k.items[..i])|
            && k.chan[FirstMatch(k.chan, r.tag)] == DataPart(k.items[i].sent)
  {
    var r := s.reqs[id];
    assert SourceInv(s.reqs, r.src, s.sources[r.src]);
    var k := s.sources[r.src].link;
    var i := FirstItem(k.items, r.tag);
    assert Holds(s.reqs, r.src, k.items, id, i);
    if !k.items[i].posted {
      NoMatchInRender(k.items, r.tag);
    }
    FirstMatchInRender(k.items, r.tag);
  }

  lemma FirstItemWithout(items: seq<Item>, i: nat, p: TagPattern)
    requires i < |items| && FirstItem(items, p) < |items| && FirstItem(items, p) != i
    ensures var k := FirstItem(items, p);
            FirstItem(Without(items, i), p) == if k < i then k else k - 1
  {
    var k := FirstItem(items, p);
    FirstItemIs(Without(items, i), p, if k < i then k else k - 1);
  }

  lemma HoldsWithout(reqs: seq<Req>, id: nat, r: Req, items: seq<Item>, i: nat, j: nat, k: nat)
    requires id < |reqs| && Holds(reqs, r.src, items, j, k) && j != id && k != i && i < |items|
    ensures Holds(reqs[id := r], r.src, Without(items, i), j, if k < i then k else k - 1)
  {
    FirstItemWithout(items, i, reqs[j].tag);
  }

  /** The item that is delivered takes its owner's claim with it. */
  lemma OwnersGive(reqs: seq<Req>, id: nat, r: Req, items: seq<Item>, i: nat)
    requires OwnersInv(reqs, r.src, items) && Holds(reqs, r.src, items, id, i) && !HasLength(r)
    ensures OwnersInv(reqs[id := r], r.src, Without(items, i))
  {
    var items', reqs' := Without(items, i), reqs[id := r];
    forall k' | 0 <= k' < |items'| && items'[k'].owner.Some?
      ensures Holds(reqs', r.src, items', items'[k'].owner.value, k')
    {
      var k := if k' < i then k' else k' + 1;
      assert Holds(reqs, r.src, items, items[k].owner.value, k);
      HoldsWithout(reqs, id, r, items, i, items[k].owner.value, k);
    }
    forall j | 0 <= j < |reqs'| && reqs'[j].src == r.src && HasLength(reqs'[j])
      ensures var k := FirstItem(items', reqs'[j].tag);
              k < |items'| && items'[k].owner == Some(j)
    {
      var k := FirstItem(items, reqs[j].tag);
      assert items[i].owner == Some(id) && items[k].owner == Some(j);
      FirstItemWithout(items, i, reqs[j].tag);
    }
  }

  lemma TakersAppend(reqs: seq<Req>, id: nat, r: Req, got: seq<Sent>, takers: seq<nat>, x: Sent)
    requires id < |reqs| && TakersInv(reqs, r.src, got, takers) && reqs[id].src == r.src && !HasData(reqs[id])
    requires HasData(r) && r.taken == Some(x)
    ensures TakersInv(reqs[id := r], r.src, got + [x], takers + [id])
  {
    var takers' := takers + [id];
    assert takers'[|takers|] == id;
    forall j | 0 <= j < |reqs| && reqs[id := r][j].src == r.src && HasData(reqs[id := r][j])
      ensures j in takers'
    {
      if j != id {
        assert j in takers;
      }
    }
  }

  function WithBytes(r: Req, x: Sent): Req {
    r.(mpi := DoneData, buf := Some(Buffer(r.buflen + 1, Dump(x.obj) + [0])))
  }

  /** The channel when it has given up the bytes of item `i`, all that was left of it. */
  function BytesTaken(x: Source, id: nat, i: nat): Source
    requires i < |x.link.items|
  {
    var left := Without(x.link.items, i);
    Source(P.Link(Render(left), left, x.link.sent, x.link.got + [x.link.items[i].sent]), x.sending, x.takers + [id])
  }

  lemma BytesTakenKeepsSource(reqs: seq<Req>, id: nat, r: Req, x: Source, i: nat)
    requires SourceInv(reqs, r.src, x) && Holds(reqs, r.src, x.link.items, id, i) && x.link.items[i].posted
    requires !HasData(reqs[id]) && HasData(r) && !HasLength(r) && r.taken == reqs[id].taken
    ensures SourceInv(reqs[id := r], r.src, BytesTaken(x, id, i))
  {
    OwnersGive(reqs, id, r, x.link.items, i);
    TakersAppend(reqs, id, r, x.link.got, x.takers, x.link.items[i].sent);
    DeliverConserves(x.link.sent, x.link.got, x.link.items, i);
  }

  lemma DeliversBytes(x: Source, id: nat, r: Req, i: nat)
    requires i == FirstItem(x.link.items, r.tag) < |x.link.items| && r.mpi.PendingData?
    requires x.link.chan == Render(x.link.items) && x.link.items[i].owner.Some? && x.link.items[i].posted
    requires FirstMatch(x.link.chan, r.tag) == |Render(x.link.items[..i])| < |x.link.chan|
    requires x.link.chan[FirstMatch(x.link.chan, r.tag)] == DataPart(x.link.items[i].sent)
    requires r.buflen == |Dump(x.link.items[i].sent.obj)|
    ensures Delivered(x, id, r) == BytesTaken(x, id, i)
  {
    LoadIgnoresPadding(x.link.items[i].sent.obj, [0]);
    TakeLastPart(x.link.items, i);
  }

  lemma ArrivedBytes(r: Req, x: Sent, from: Option<Sent>)
    requires r.mpi.PendingData? && r.buf.Some? && r.buf.value.capacity == r.buflen + 1 == |Dump(x.obj)| + 1
    ensures Arrived(r, DataPart(x), from) == WithBytes(r, x)
  {
  }

  lemma MatchDataIs(s: State, id: nat)
    requires Inv(s) && Enabled(s, Match(id)) && s.reqs[id].mpi.PendingData?
    ensures var r := s.reqs[id];
            var x := s.sources[r.src];
            var i := FirstItem(x.link.items, r.tag);
            && i < |x.link.items|
            && Next(s, Match(id)) == WithReq(WithSource(s, r.src, BytesTaken(x, id, i)), id, WithBytes(r, x.link.items[i].sent))
  {
    var r := s.reqs[id];
    var x := s.sources[r.src];
    assert ReqInv(r) && SourceInv(s.reqs, r.src, x);
    var i := FirstItem(x.link.items, r.tag);
    FindsBytes(s, id);
    DeliversBytes(x, id, r, i);
    ArrivedBytes(r, x.link.items[i].sent, Owner(x.link, r.tag));
  }

  lemma MatchDataKeepsInv(s: State, id: nat)
    requires Inv(s) && Enabled(s, Match(id)) && s.reqs[id].mpi.PendingData?
    ensures Inv(Next(s, Match(id)))
  {
    var r := s.reqs[id];
    var x := s.sources[r.src];
    assert ReqInv(r) && SourceInv(s.reqs, r.src, x);
    var i := FirstItem(x.link.items, r.tag);
    FindsBytes(s, id);
    MatchDataIs(s, id);
    var r' := WithBytes(r, x.link.items[i].sent);
    assert Holds(s.reqs, r.src, x.link.items, id, i);
    BytesTakenKeepsSource(s.reqs, id, r', x, i);
    OneRequest(s, id, r', BytesTaken(x, id, i));
  }

  // ---------- Waiting for many ----------

  lemma {:induction false} PostAllKeepsInv(s: State, ids: seq<nat>)
    requires Inv(s) && Enabled(s, WaitAllSizes(ids))
    ensures Inv(PostAll(s, ids))
    decreases |ids|
  {
    if ids != [] {
      assert ReqInv(s.reqs[ids[0]]);
      if s.reqs[ids[0]].stage == TxSize {
        PostKeepsInv(s, ids[0]);
        PostAllKeepsInv(PostAndUnwatch(s, ids[0]), ids[1..]);
      } else {
        PostAllKeepsInv(s, ids[1..]);
      }
    }
  }

  lemma {:induction false} CompleteAllKeepsInv(s: State, ids: seq<nat>)
    requires Inv(s) && Enabled(s, WaitAllData(ids))
    ensures Inv(CompleteAll(s, ids))
    decreases |ids|
  {
    if ids != [] {
      assert ReqInv(s.reqs[ids[0]]);
      TestKeepsInv(s, ids[0]);
      CompleteAllKeepsInv(WithReq(s, ids[0], s.reqs[ids[0]].(mpi := Null)), ids[1..]);
    }
  }

  /** Every careful step keeps the protocol. */
  lemma NextKeepsInv(s: State, l: Label)
    requires Inv(s) && TableInv(s) && Enabled(s, l) && Careful(s, l)
    ensures Inv(Next(s, l))
  {
    match l
    case SendSize(_, _, _) => SendSizeKeepsInv(s, l);
    case SendData(_) => SendDataKeepsInv(s, l);
    case Start(id) => StartKeepsInv(s, id);
    case Match(id) =>
      if s.reqs[id].mpi.PendingSize? {
        MatchSizeKeepsInv(s, id);
      } else {
        MatchDataKeepsInv(s, id);
      }
    case Poll(slot) =>
      var id := s.rlist[slot].value;
      assert id in WaitingIds(s.reqs) && ReqInv(s.reqs[id]);
      PostKeepsInv(s, id);
    case WaitSize(id) =>
      assert ReqInv(s.reqs[id]);
      PostKeepsInv(s, id);
    case WaitData(id) =>
      assert ReqInv(s.reqs[id]);
      FinishKeepsInv(s, id);
    case Test(id) =>
      assert ReqInv(s.reqs[id]);
      if s.reqs[id].stage == TxData && !Pending(s.reqs[id].mpi) {
        TestKeepsInv(s, id);
      }
    case WaitAllSizes(ids) => PostAllKeepsInv(s, ids);
    case WaitAllData(ids) => CompleteAllKeepsInv(s, ids);
  }

  // ---------- Whole runs ----------

  ghost predicate Run(s: State, labels: seq<Label>, t: State)
    decreases |labels|
  {
    if labels == [] then s == t
    else Enabled(s, labels[0]) && Run(Next(s, labels[0]), labels[1..], t)
  }

  /** Every step of the run is careful. */
  ghost predicate CarefulRun(s: State, labels: seq<Label>, t: State)
    decreases |labels|
  {
    if labels == [] then s == t
    else Enabled(s, labels[0]) && Careful(s, labels[0]) && CarefulRun(Next(s, labels[0]), labels[1..], t)
  }

  lemma {:induction false} RunKeepsTable(s: State, labels: seq<Label>, t: State)
    requires TableInv(s) && Run(s, labels, t)
    ensures TableInv(t)
    decreases |labels|
  {
    if labels != [] {
      NextKeepsTable(s, labels[0]);
      RunKeepsTable(Next(s, labels[0]), labels[1..], t);
    }
  }

  lemma {:induction false} RunKeepsInv(s: State, labels: seq<Label>, t: State)
    requires Inv(s) && TableInv(s) && CarefulRun(s, labels, t)
    ensures Inv(t) && TableInv(t)
    decreases |labels|
  {
    if labels != [] {
      NextKeepsTable(s, labels[0]);
      NextKeepsInv(s, labels[0]);
      RunKeepsInv(Next(s, labels[0]), labels[1..], t);
    }
  }

  lemma InitInv(sources: nat, wanted: seq<(nat, TagPattern)>)
    requires PlanOk(sources, wanted)
    ensures Inv(Init(sources, wanted)) && TableInv(Init(sources, wanted))
  {
    var s := Init(sources, wanted);
    assert WaitingIds(s.reqs) == {};
    assert Contents([]) == [];
  }

  /** However starting, polling, waiting, testing, cancelling and the messages interleave, the
      table holds exactly the requests that are started, not cancelled and waiting for their
      length, each once. */
  lemma TableIsExact(sources: nat, wanted: seq<(nat, TagPattern)>, labels: seq<Label>, s: State)
    requires PlanOk(sources, wanted)
    requires Run(Init(sources, wanted), labels, s)
    ensures W.Exactly(s.rlist, set id: nat | id < |s.reqs| && s.reqs[id].started && !s.reqs[id].cancelled && s.reqs[id].stage == TxSize)
  {
    InitInv(sources, wanted);
    RunKeepsTable(Init(sources, wanted), labels, s);
    assert WaitingIds(s.reqs)
        == set id: nat | id < |s.reqs| && s.reqs[id].started && !s.reqs[id].cancelled && s.reqs[id].stage == TxSize;
  }

  // The capacity of the table follows from the history of the requests alone.

  ghost function TableHistory(s: State, peak: nat): W.History {
    W.History(s.rlist, WaitingIds(s.reqs), peak)
  }

  /** A step takes requests out of the table, or leaves it. */
  lemma LeavesCapacity(s: State, t: State, id: nat, peak: nat)
    requires W.Inv(TableHistory(s, peak)) && t.rlist == W.Unwatched(s.rlist, id)
    requires WaitingIds(t.reqs) == WaitingIds(s.reqs) - {id}
    ensures W.Inv(TableHistory(t, peak))
  {
    W.UnwatchKeepsInv(TableHistory(s, peak), id);
  }

  lemma PostKeepsCapacity(s: State, id: nat, peak: nat)
    requires W.Inv(TableHistory(s, peak)) && id < |s.reqs|
    ensures W.Inv(TableHistory(PostAndUnwatch(s, id), peak))
  {
    NoLongerWaiting(s.reqs, id, PostData(s.reqs[id]));
    LeavesCapacity(s, PostAndUnwatch(s, id), id, peak);
  }

  lemma {:induction false} PostAllKeepsCapacity(s: State, ids: seq<nat>, peak: nat)
    requires W.Inv(TableHistory(s, peak)) && forall i :: 0 <= i < |ids| ==> ids[i] < |s.reqs|
    ensures W.Inv(TableHistory(PostAll(s, ids), peak))
    decreases |ids|
  {
    if ids != [] {
      PostKeepsCapacity(s, ids[0], peak);
      PostAllKeepsCapacity(if s.reqs[ids[0]].stage == TxSize then PostAndUnwatch(s, ids[0]) else s, ids[1..], peak);
    }
  }

  lemma {:induction false} CompleteAllKeepsCapacity(s: State, ids: seq<nat>, peak: nat)
    requires W.Inv(TableHistory(s, peak)) && forall i :: 0 <= i < |ids| ==> ids[i] < |s.reqs|
    ensures W.Inv(TableHistory(CompleteAll(s, ids), peak))
    decreases |ids|
  {
    if ids != [] {
      SameWaiting(s.reqs, ids[0], s.reqs[ids[0]].(mpi := Null));
      CompleteAllKeepsCapacity(WithReq(s, ids[0], s.reqs[ids[0]].(mpi := Null)), ids[1..], peak);
    }
  }

  lemma StartKeepsCapacity(s: State, id: nat, peak: nat)
    requires TableInv(s) && W.Inv(TableHistory(s, peak)) && Enabled(s, Start(id))
    ensures var t := Next(s, Start(id));
            W.Inv(TableHistory(t, Folds.Max(peak, |WaitingIds(t.reqs)|)))
  {
    NowWaiting(s.reqs, id, s.reqs[id].(mpi := PendingSize, started := true));
    W.WatchKeepsInv(TableHistory(s, peak), id);
  }

  lemma PollKeepsCapacity(s: State, slot: nat, peak: nat)
    requires TableInv(s) && W.Inv(TableHistory(s, peak)) && Enabled(s, Poll(slot))
    ensures W.Inv(TableHistory(Next(s, Poll(slot)), peak))
  {
    var id := s.rlist[slot].value;
    NoLongerWaiting(s.reqs, id, PostData(s.reqs[id]));
    LeavesCapacity(s, Next(s, Poll(slot)), id, peak);
  }

  lemma NextKeepsCapacity(s: State, l: Label, peak: nat)
    requires TableInv(s) && W.Inv(TableHistory(s, peak)) && Enabled(s, l) && !l.Start?
    ensures W.Inv(TableHistory(Next(s, l), peak))
  {
    match l
    case SendSize(_, _, _) =>
    case SendData(_) =>
    case Match(id) =>
      var r := s.reqs[id];
      var x := s.sources[r.src];
      SameWaiting(s.reqs, id, Arrived(r, x.link.chan[FirstMatch(x.link.chan, r.tag)], Owner(x.link, r.tag)));
    case Poll(slot) => PollKeepsCapacity(s, slot, peak);
    case WaitSize(id) => PostKeepsCapacity(s, id, peak);
    case WaitData(id) => SameWaiting(s.reqs, id, Finished(s.reqs[id]));
    case Test(id) => SameWaiting(s.reqs, id, s.reqs[id].(mpi := Null));
    case WaitAllSizes(ids) => PostAllKeepsCapacity(s, ids, peak);
    case WaitAllData(ids) => CompleteAllKeepsCapacity(s, ids, peak);
    case Cancel(id) =>
      NoLongerWaiting(s.reqs, id, Cancelled(s.reqs[id]));
      LeavesCapacity(s, Next(s, l), id, peak);
  }

  lemma StepKeepsCapacity(s: State, l: Label, peak: nat)
    requires TableInv(s) && W.Inv(TableHistory(s, peak)) && Enabled(s, l)
    ensures var t := Next(s, l);
            W.Inv(TableHistory(t, Folds.Max(peak, |WaitingIds(t.reqs)|)))
  {
    if l.Start? {
      StartKeepsCapacity(s, l.id, peak);
    } else {
      NextKeepsCapacity(s, l, peak);
    }
  }

  /** The largest number of requests waiting for a length at once, along a run. */
  ghost function Peak(s: State, labels: seq<Label>, t: State): nat
    requires Run(s, labels, t)
    decreases |labels|
  {
    if labels == [] then |WaitingIds(s.reqs)|
    else Folds.Max(|WaitingIds(s.reqs)|, Peak(Next(s, labels[0]), labels[1..], t))
  }

  lemma {:induction false} RunKeepsCapacity(s: State, labels: seq<Label>, t: State, peak: nat)
    requires TableInv(s) && W.Inv(TableHistory(s, peak)) && Run(s, labels, t)
    ensures W.Inv(TableHistory(t, Folds.Max(peak, Peak(s, labels, t))))
    decreases |labels|
  {
    if labels != [] {
      var next := Next(s, labels[0]);
      NextKeepsTable(s, labels[0]);
      StepKeepsCapacity(s, labels[0], peak);
      RunKeepsCapacity(next, labels[1..], t, Folds.Max(peak, |WaitingIds(next.reqs)|));
      PeakCoversStart(next, labels[1..], t);
    }
  }

  lemma PeakCoversStart(s: State, labels: seq<Label>, t: State)
    requires Run(s, labels, t)
    ensures |WaitingIds(s.reqs)| <= Peak(s, labels, t)
  {
  }

  /** The table never has more room than the program made it need: 16 slots, or at most twice one
      less than the largest number of requests that ever waited for a length at once. */
  lemma CapacityFollowsRequests(sources: nat, wanted: seq<(nat, TagPattern)>, labels: seq<Label>, s: State)
    requires PlanOk(sources, wanted) && Run(Init(sources, wanted), labels, s)
    ensures W.Doubled(|s.rlist|)
    ensures |s.rlist| <= W.INITIAL_CAPACITY || |s.rlist| <= 2 * (Peak(Init(sources, wanted), labels, s) - 1)
  {
    var s0 := Init(sources, wanted);
    InitInv(sources, wanted);
    assert WaitingIds(s0.reqs) == {};
    assert W.INITIAL_CAPACITY == W.CapacityAfter(0);
    RunKeepsCapacity(s0, labels, s, 0);
  }

  /** In any careful run every request posts at most one receive for bytes, into a buffer of the
      announced length and a terminator, and what `wait` loads is the object that was sent: the
      one its request, and no other, took from the channel. */
  lemma RequestsAreServed(sources: nat, wanted: seq<(nat, TagPattern)>, labels: seq<Label>, s: State, id: nat)
    requires PlanOk(sources, wanted)
    requires CarefulRun(Init(sources, wanted), labels, s) && id < |s.reqs|
    ensures var r := s.reqs[id];
            && !r.broken && r.posts <= 1 && (r.posts == 1 <==> r.stage == TxData)
            && (r.stage == TxData ==> r.taken.Some? && MatchesTag(r.tag, r.taken.value.tag))
            && (r.stage == TxData && r.buf.Some? ==> r.buf.value.capacity == |Dump(r.taken.value.obj)| + 1)
            && (r.obj.Some? ==> r.stage == TxData && r.obj == Some(r.taken.value.obj))
  {
    InitInv(sources, wanted);
    RunKeepsInv(Init(sources, wanted), labels, s);
    assert ReqInv(s.reqs[id]);
  }

  /** The objects the sender `src` was told to send under `tag`. */
  function Called(labels: seq<Label>, src: nat, tag: nat): seq<Obj> {
    if labels == [] then []
    else
      (if labels[0].SendSize? && labels[0].src == src && labels[0].tag == tag then [labels[0].obj] else []) +
      Called(labels[1..], src, tag)
  }

  lemma {:induction false} PostAllKeepsSources(s: State, ids: seq<nat>)
    requires forall i :: 0 <= i < |ids| ==> ids[i] < |s.reqs|
    ensures PostAll(s, ids).sources == s.sources
    decreases |ids|
  {
    if ids != [] {
      PostAllKeepsSources(if s.reqs[ids[0]].stage == TxSize then PostAndUnwatch(s, ids[0]) else s, ids[1..]);
    }
  }

  lemma {:induction false} CompleteAllKeepsRest(s: State, ids: seq<nat>)
    requires forall i :: 0 <= i < |ids| ==> ids[i] < |s.reqs|
    ensures CompleteAll(s, ids).sources == s.sources && CompleteAll(s, ids).rlist == s.rlist
    decreases |ids|
  {
    if ids != [] {
      CompleteAllKeepsRest(WithReq(s, ids[0], s.reqs[ids[0]].(mpi := Null)), ids[1..]);
    }
  }

  lemma NextSends(s: State, l: Label, src: nat, tag: nat)
    requires Enabled(s, l) && src < |s.sources|
    ensures |Next(s, l).sources| == |s.sources|
    ensures Objs(Next(s, l).sources[src].link.sent, tag)
         == Objs(s.sources[src].link.sent, tag) +
            if l.SendSize? && l.src == src && l.tag == tag then [l.obj] else []
  {
    match l
    case SendSize(_, t, obj) => ObjsAppend(s.sources[src].link.sent, Sent(t, obj), tag);
    case WaitAllSizes(ids) => PostAllKeepsSources(s, ids);
    case WaitAllData(ids) => CompleteAllKeepsRest(s, ids);
    case _ =>
  }

  lemma {:induction false} RunSends(s: State, labels: seq<Label>, t: State, src: nat, tag: nat)
    requires CarefulRun(s, labels, t) && src < |s.sources|
    ensures |t.sources| == |s.sources|
    ensures Objs(t.sources[src].link.sent, tag) == Objs(s.sources[src].link.sent, tag) + Called(labels, src, tag)
    decreases |labels|
  {
    if labels == [] {
      assert Called([], src, tag) == [];
    } else {
      var l := labels[0];
      NextSends(s, l, src, tag);
      RunSends(Next(s, l), labels[1..], t, src, tag);
      Assoc(Objs(s.sources[src].link.sent, tag),
            if l.SendSize? && l.src == src && l.tag == tag then [l.obj] else [], Called(labels[1..], src, tag));
    }
  }

  lemma SendsAreCalls(sources: nat, wanted: seq<(nat, TagPattern)>, labels: seq<Label>, s: State, src: nat, tag: nat)
    requires CarefulRun(Init(sources, wanted), labels, s) && src < sources
    ensures |s.sources| == sources
    ensures Objs(s.sources[src].link.sent, tag) == Called(labels, src, tag)
  {
    var s0 := Init(sources, wanted);
    assert Objs(s0.sources[src].link.sent, tag) == [];
    RunSends(s0, labels, s, src, tag);
  }

  /** The objects of one tag reach the requests in the order they were sent, each to one request:
      `got` is what has arrived, and `takers` names the requests it arrived at. */
  lemma DeliveryInOrder(sources: nat, wanted: seq<(nat, TagPattern)>, labels: seq<Label>, s: State, src: nat, tag: nat)
    requires PlanOk(sources, wanted)
    requires CarefulRun(Init(sources, wanted), labels, s) && src < sources
    ensures |s.sources| == sources
    ensures Objs(s.sources[src].link.got, tag) <= Called(labels, src, tag)
    ensures TakersInv(s.reqs, src, s.sources[src].link.got, s.sources[src].takers)
  {
    SendsAreCalls(sources, wanted, labels, s, src, tag);
    InitInv(sources, wanted);
    RunKeepsInv(Init(sources, wanted), labels, s);
    assert SourceInv(s.reqs, src, s.sources[src]);
  }

  /** A request whose length has come is in the table, so the polling thread will see to it even if
      nobody waits. */
  lemma PollerSeesIt(s: State, id: nat) returns (slot: nat)
    requires Inv(s) && TableInv(s) && id < |s.reqs| && s.reqs[id].mpi.DoneSize?
    ensures Enabled(s, Poll(slot)) && s.rlist[slot] == Some(id)
    ensures Next(s, Poll(slot)).reqs[id] == PostData(s.reqs[id])
  {
    assert ReqInv(s.reqs[id]);
    assert id in WaitingIds(s.reqs);
    slot :| 0 <= slot < |s.rlist| && s.rlist[slot] == Some(id);
  }

  /** A request that has taken a length can get its bytes: they are in the channel, or its sender is
      about to send them. */
  lemma BytesWillCome(s: State, id: nat)
    requires Inv(s) && id < |s.reqs| && s.reqs[id].mpi.PendingData?
    ensures Enabled(s, Match(id)) || Enabled(s, SendData(s.reqs[id].src))
  {
    var r := s.reqs[id];
    assert ReqInv(r) && SourceInv(s.reqs, r.src, s.sources[r.src]);
    var items := s.sources[r.src].link.items;
    var i := FirstItem(items, r.tag);
    assert Holds(s.reqs, r.src, items, id, i);
    if items[i].posted {
      FirstMatchInRender(items, r.tag);
    }
  }

  /** A request waiting for a length gets one as soon as an object it can match is on its way. */
  lemma LengthWillCome(s: State, id: nat)
    requires Inv(s) && id < |s.reqs| && s.reqs[id].mpi.PendingSize?
    requires s.reqs[id].src < |s.sources|
    requires FirstItem(s.sources[s.reqs[id].src].link.items, s.reqs[id].tag) < |s.sources[s.reqs[id].src].link.items|
    ensures Enabled(s, Match(id))
  {
    var r := s.reqs[id];
    assert ReqInv(r) && SourceInv(s.reqs, r.src, s.sources[r.src]);
    var items := s.sources[r.src].link.items;
    var i := FirstItem(items, r.tag);
    if items[i].owner.Some? {
      var j := items[i].owner.value;
      assert Holds(s.reqs, r.src, items, j, i);
      assert Compete(s.reqs[id], s.reqs[j]);
    }
    FirstMatchInRender(items, r.tag);
  }

  /** Nothing gets stuck: an unfinished request, once an object it can match is on its way, has a
      step that serves it, by MPI, by the polling thread, or by a sender who is halfway. */
  lemma NeverStuck(sources: nat, wanted: seq<(nat, TagPattern)>, labels: seq<Label>, s: State, id: nat) returns (l: Label)
    requires PlanOk(sources, wanted)
    requires CarefulRun(Init(sources, wanted), labels, s) && ValidId(s, id) && Unfinished(s.reqs[id])
    requires FirstItem(s.sources[s.reqs[id].src].link.items, s.reqs[id].tag) < |s.sources[s.reqs[id].src].link.items|
    ensures Enabled(s, l) && Careful(s, l)
    ensures l == Match(id) || l == SendData(s.reqs[id].src) || (l.Poll? && s.rlist[l.slot] == Some(id))
  {
    InitInv(sources, wanted);
    RunKeepsInv(Init(sources, wanted), labels, s);
    match s.reqs[id].mpi
    case PendingSize =>
      LengthWillCome(s, id);
      l := Match(id);
    case PendingData =>
      BytesWillCome(s, id);
      l := if Enabled(s, Match(id)) then Match(id) else SendData(s.reqs[id].src);
    case DoneSize =>
      var slot := PollerSeesIt(s, id);
      l := Poll(slot);
  }

  // ---------- Without care ----------

  lemma {:induction false} RunExtends(s: State, labels: seq<Label>, t: State, l: Label)
    requires Run(s, labels, t) && Enabled(t, l)
    ensures Run(s, labels + [l], Next(t, l))
    decreases |labels|
  {
    if labels == [] {
      assert Run(Next(t, l), [], Next(t, l));
    } else {
      RunExtends(Next(s, labels[0]), labels[1..], t, l);
      assert (labels + [l])[1..] == labels[1..] + [l];
    }
  }

  /** A message tag both patterns match. */
  function CommonTag(p: TagPattern, q: TagPattern): (tag: nat)
    requires Overlap(p, q)
    ensures MatchesTag(p, tag) && MatchesTag(q, tag)
  {
    if p.Tag? then p.tag else if q.Tag? then q.tag else 0
  }

  function StartedReq(w: (nat, TagPattern)): Req {
    NewReq(w.0, w.1).(mpi := PendingSize, started := true)
  }

  /** Two of the receives are started. */
  lemma TwoStarted(sources: nat, wanted: seq<(nat, TagPattern)>, i: nat, j: nat) returns (labels: seq<Label>, s: State)
    requires PlanOk(sources, wanted) && i < |wanted| && j < |wanted| && i != j
    ensures Run(Init(sources, wanted), labels, s) && NoCancel(labels)
    ensures |s.reqs| == |wanted| && s.reqs[i] == StartedReq(wanted[i]) && s.reqs[j] == StartedReq(wanted[j])
    ensures s.sources == Init(sources, wanted).sources
  {
    var s0 := Init(sources, wanted);
    s := Next(Next(s0, Start(i)), Start(j));
    RunExtendsTwice(s0, [], s0, Start(i), Start(j));
    labels := [] + [Start(i)] + [Start(j)];
  }

  /** A sender with nothing in its channel sends one object. */
  lemma OneSent(s0: State, labels: seq<Label>, s: State, src: nat, x: Sent) returns (longer: seq<Label>, t: State)
    requires Run(s0, labels, s) && NoCancel(labels)
    requires src < |s.sources| && s.sources[src].sending.None? && s.sources[src].link.chan == []
    ensures Run(s0, longer, t) && NoCancel(longer) && t.reqs == s.reqs && |t.sources| == |s.sources|
    ensures t.sources[src].link.chan == [SizePart(x), DataPart(x)]
  {
    var l0, l1 := SendSize(src, x.tag, x.obj), SendData(src);
    t := Next(Next(s, l0), l1);
    RunExtendsTwice(s0, labels, s, l0, l1);
    longer := labels + [l0] + [l1];
  }

  /** Of two receives waiting for lengths the first takes the length, and the second takes the bytes
      for a length. */
  lemma SecondTakesBytes(s: State, i: nat, j: nat, x: Sent) returns (t: State, u: State)
    requires ValidId(s, i) && ValidId(s, j) && i != j && s.reqs[i].src == s.reqs[j].src
    requires s.reqs[i].mpi.PendingSize? && s.reqs[j].mpi.PendingSize?
    requires MatchesTag(s.reqs[i].tag, x.tag) && MatchesTag(s.reqs[j].tag, x.tag)
    requires s.sources[s.reqs[i].src].link.chan == [SizePart(x), DataPart(x)]
    ensures Enabled(s, Match(i)) && t == Next(s, Match(i))
    ensures Enabled(t, Match(j)) && u == Next(t, Match(j))
    ensures |u.reqs| == |s.reqs| && u.reqs[j].broken
  {
    FirstMatchIs(s.sources[s.reqs[i].src].link.chan, s.reqs[i].tag, 0);
    t := Next(s, Match(i));
    assert t.reqs[j] == s.reqs[j];
    assert t.sources[s.reqs[j].src].link.chan == [DataPart(x)];
    u := TakesBytes(t, j, x);
  }

  /** A receive that waits for a length is offered bytes. */
  lemma TakesBytes(t: State, j: nat, x: Sent) returns (u: State)
    requires ValidId(t, j) && t.reqs[j].mpi.PendingSize? && MatchesTag(t.reqs[j].tag, x.tag)
    requires t.sources[t.reqs[j].src].link.chan == [DataPart(x)]
    ensures Enabled(t, Match(j)) && u == Next(t, Match(j)) && |u.reqs| == |t.reqs| && u.reqs[j].broken
  {
    FirstMatchIs(t.sources[t.reqs[j].src].link.chan, t.reqs[j].tag, 0);
    u := Next(t, Match(j));
  }

  lemma RunExtendsTwice(s: State, labels: seq<Label>, t: State, l: Label, l': Label)
    requires Run(s, labels, t) && NoCancel(labels) && Enabled(t, l) && Enabled(Next(t, l), l')
    requires !l.Cancel? && !l'.Cancel?
    ensures Run(s, labels + [l] + [l'], Next(Next(t, l), l')) && NoCancel(labels + [l] + [l'])
  {
    RunExtends(s, labels, t, l);
    RunExtends(s, labels + [l], Next(t, l), l');
  }

  /** Two receives for one source whose patterns overlap are enough to break the framing, and one
      object of a tag both match is enough to do it. */
  lemma OverlappingRequestsMix(sources: nat, wanted: seq<(nat, TagPattern)>, i: nat, j: nat, x: Obj)
    returns (labels: seq<Label>, s: State)
    requires PlanOk(sources, wanted) && i < |wanted| && j < |wanted| && i != j
    requires wanted[i].0 == wanted[j].0 && Overlap(wanted[i].1, wanted[j].1)
    ensures Run(Init(sources, wanted), labels, s) && NoCancel(labels)
    ensures |s.reqs| == |wanted| && s.reqs[j].broken
  {
    var s0, y := Init(sources, wanted), Sent(CommonTag(wanted[i].1, wanted[j].1), x);
    var starts, s2 := TwoStarted(sources, wanted, i, j);
    var sends, s4 := OneSent(s0, starts, s2, wanted[i].0, y);
    var s5;
    s5, s := SecondTakesBytes(s4, i, j, y);
    RunExtendsTwice(s0, sends, s4, Match(i), Match(j));
    labels := sends + [Match(i)] + [Match(j)];
  }

  // ---------- Which programs are safe ----------

  ghost predicate NoCancel(labels: seq<Label>) {
    forall i :: 0 <= i < |labels| ==> !labels[i].Cancel?
  }

  /** No two of the receives a program makes could match the same message. */
  ghost predicate PlanApart(wanted: seq<(nat, TagPattern)>) {
    forall i, j :: 0 <= i < |wanted| && 0 <= j < |wanted| && i != j && wanted[i].0 == wanted[j].0 ==>
      !Overlap(wanted[i].1, wanted[j].1)
  }

  /** However starts, polls, waits, tests and messages interleave, no receive breaks. */
  ghost predicate SafePlan(sources: nat, wanted: seq<(nat, TagPattern)>) {
    forall labels, s: State, id: nat ::
      Run(Init(sources, wanted), labels, s) && NoCancel(labels) && id < |s.reqs| ==> !s.reqs[id].broken
  }

  /** The requests are still for what the program wanted. */
  ghost predicate AsWanted(reqs: seq<Req>, wanted: seq<(nat, TagPattern)>) {
    |reqs| == |wanted| && forall i :: 0 <= i < |reqs| ==> reqs[i].src == wanted[i].0 && reqs[i].tag == wanted[i].1
  }

  lemma {:induction false} PostAllAsWanted(s: State, ids: seq<nat>, wanted: seq<(nat, TagPattern)>)
    requires AsWanted(s.reqs, wanted) && forall i :: 0 <= i < |ids| ==> ids[i] < |s.reqs|
    ensures AsWanted(PostAll(s, ids).reqs, wanted)
    decreases |ids|
  {
    if ids != [] {
      PostAllAsWanted(if s.reqs[ids[0]].stage == TxSize then PostAndUnwatch(s, ids[0]) else s, ids[1..], wanted);
    }
  }

  lemma {:induction false} CompleteAllAsWanted(s: State, ids: seq<nat>, wanted: seq<(nat, TagPattern)>)
    requires AsWanted(s.reqs, wanted) && forall i :: 0 <= i < |ids| ==> ids[i] < |s.reqs|
    ensures AsWanted(CompleteAll(s, ids).reqs, wanted)
    decreases |ids|
  {
    if ids != [] {
      CompleteAllAsWanted(WithReq(s, ids[0], s.reqs[ids[0]].(mpi := Null)), ids[1..], wanted);
    }
  }

  lemma OneAsWanted(reqs: seq<Req>, id: nat, r: Req, wanted: seq<(nat, TagPattern)>)
    requires AsWanted(reqs, wanted) && id < |reqs| && r.src == reqs[id].src && r.tag == reqs[id].tag
    ensures AsWanted(reqs[id := r], wanted)
  {
  }

  lemma NextAsWanted(s: State, l: Label, wanted: seq<(nat, TagPattern)>)
    requires AsWanted(s.reqs, wanted) && Enabled(s, l)
    ensures AsWanted(Next(s, l).reqs, wanted)
  {
    match l
    case SendSize(_, _, _) =>
    case SendData(_) =>
    case Start(id) => OneAsWanted(s.reqs, id, Next(s, l).reqs[id], wanted);
    case Match(id) => OneAsWanted(s.reqs, id, Next(s, l).reqs[id], wanted);
    case Poll(slot) => OneAsWanted(s.reqs, s.rlist[slot].value, PostData(s.reqs[s.rlist[slot].value]), wanted);
    case WaitSize(id) => OneAsWanted(s.reqs, id, PostData(s.reqs[id]), wanted);
    case WaitData(id) => OneAsWanted(s.reqs, id, Finished(s.reqs[id]), wanted);
    case Test(id) => OneAsWanted(s.reqs, id, s.reqs[id].(mpi := Null), wanted);
    case WaitAllSizes(ids) => PostAllAsWanted(s, ids, wanted);
    case WaitAllData(ids) => CompleteAllAsWanted(s, ids, wanted);
    case Cancel(id) => OneAsWanted(s.reqs, id, Cancelled(s.reqs[id]), wanted);
  }

  /** If the receives are apart, every run without cancelling is a careful one. */
  lemma {:induction false} ApartIsCareful(s: State, labels: seq<Label>, t: State, wanted: seq<(nat, TagPattern)>)
    requires PlanApart(wanted) && AsWanted(s.reqs, wanted) && Run(s, labels, t) && NoCancel(labels)
    ensures CarefulRun(s, labels, t)
    decreases |labels|
  {
    if labels != [] {
      assert !labels[0].Cancel?;
      NextAsWanted(s, labels[0], wanted);
      ApartIsCareful(Next(s, labels[0]), labels[1..], t, wanted);
    }
  }

  /** When a program's receives are safe: exactly if no two of them, for the same source, overlap. */
  lemma SafeIffApart(sources: nat, wanted: seq<(nat, TagPattern)>)
    requires PlanOk(sources, wanted)
    ensures SafePlan(sources, wanted) <==> PlanApart(wanted)
  {
    if PlanApart(wanted) {
      forall labels, s: State, id: nat | Run(Init(sources, wanted), labels, s) && NoCancel(labels) && id < |s.reqs|
        ensures !s.reqs[id].broken
      {
        ApartIsCareful(Init(sources, wanted), labels, s, wanted);
        RequestsAreServed(sources, wanted, labels, s, id);
      }
    } else {
      var i, j :| 0 <= i < |wanted| && 0 <= j < |wanted| && i != j && wanted[i].0 == wanted[j].0 &&
                  Overlap(wanted[i].1, wanted[j].1);
      var labels, s := OverlappingRequestsMix(sources, wanted, i, j, Nil);
    }
  }

  // ---------- One pass of the polling thread ----------

  /** Every slot from `i` on, looked at in order while nothing else happens. */
  function PolledFrom(s: State, i: nat): State
    requires forall id :: 0 <= id < |s.reqs| ==> s.reqs[id].src < |s.sources|
    requires forall k :: 0 <= k < |s.rlist| && s.rlist[k].Some? ==> s.rlist[k].value < |s.reqs|
    decreases |s.rlist| - i
  {
    if i >= |s.rlist| then s
    else PolledFrom(if Enabled(s, Poll(i)) then Next(s, Poll(i)) else s, i + 1)
  }

  lemma {:induction false} PassIsRun(s: State, i: nat) returns (labels: seq<Label>)
    requires forall id :: 0 <= id < |s.reqs| ==> s.reqs[id].src < |s.sources|
    requires forall k :: 0 <= k < |s.rlist| && s.rlist[k].Some? ==> s.rlist[k].value < |s.reqs|
    ensures CarefulRun(s, labels, PolledFrom(s, i))
    decreases |s.rlist| - i
  {
    if i >= |s.rlist| {
      labels := [];
    } else if Enabled(s, Poll(i)) {
      var rest := PassIsRun(Next(s, Poll(i)), i + 1);
      labels := [Poll(i)] + rest;
      assert labels[1..] == rest;
    } else {
      labels := PassIsRun(s, i + 1);
    }
  }

  /** What a pass does to request `id`: if it is in the table from slot `i` on and its receive is
      complete, its receive for the bytes is posted. */
  lemma {:induction false} PassServes(s: State, i: nat, id: nat)
    requires forall q :: 0 <= q < |s.reqs| ==> s.reqs[q].src < |s.sources|
    requires forall k :: 0 <= k < |s.rlist| && s.rlist[k].Some? ==> s.rlist[k].value < |s.reqs|
    requires id < |s.reqs| && i <= |s.rlist|
    ensures var t := PolledFrom(s, i);
            && |t.reqs| == |s.reqs|
            && t.reqs[id] == if Some(id) in s.rlist[i..] && !Pending(s.reqs[id].mpi)
                             then PostData(s.reqs[id]) else s.reqs[id]
    decreases |s.rlist| - i
  {
    if i < |s.rlist| {
      assert s.rlist[i..] == [s.rlist[i]] + s.rlist[i + 1..];
      if Enabled(s, Poll(i)) {
        var next := Next(s, Poll(i));
        assert next.rlist[i + 1..] == s.rlist[i + 1..];
        PassServes(next, i + 1, id);
      } else {
        PassServes(s, i + 1, id);
      }
    }
  }

  lemma {:induction false} PassKeepsRest(s: State, i: nat)
    requires forall q :: 0 <= q < |s.reqs| ==> s.reqs[q].src < |s.sources|
    requires forall k :: 0 <= k < |s.rlist| && s.rlist[k].Some? ==> s.rlist[k].value < |s.reqs|
    ensures PolledFrom(s, i).sources == s.sources && |PolledFrom(s, i).reqs| == |s.reqs|
    decreases |s.rlist| - i
  {
    if i < |s.rlist| {
      PassKeepsRest(if Enabled(s, Poll(i)) then Next(s, Poll(i)) else s, i + 1);
    }
  }

  /** After a pass the table's requests are still waiting for MPI, and those it served are out. */
  lemma PassEmptiesTable(s: State, t: State)
    requires TableInv(s) && TableInv(t) && |t.reqs| == |s.reqs|
    requires forall id :: 0 <= id < |s.reqs| ==>
               t.reqs[id] == if Some(id) in s.rlist && !Pending(s.reqs[id].mpi) then PostData(s.reqs[id]) else s.reqs[id]
    ensures forall k :: 0 <= k < |t.rlist| && t.rlist[k].Some? ==>
              t.rlist[k].value < |t.reqs| && Pending(t.reqs[t.rlist[k].value].mpi)
    ensures forall id :: 0 <= id < |s.reqs| && Some(id) in s.rlist && !Pending(s.reqs[id].mpi) ==> Some(id) !in t.rlist
  {
    forall k | 0 <= k < |t.rlist| && t.rlist[k].Some?
      ensures t.rlist[k].value < |t.reqs| && Pending(t.reqs[t.rlist[k].value].mpi)
    {
      var id := t.rlist[k].value;
      assert id in WaitingIds(t.reqs);
      assert id in WaitingIds(s.reqs);
    }
  }

  /** What the first half of `waitall` does to request `id`, listed once, often or not at all. */
  lemma {:induction false} PostAllServes(s: State, ids: seq<nat>, id: nat)
    requires id < |s.reqs| && forall i :: 0 <= i < |ids| ==> ids[i] < |s.reqs|
    ensures PostAll(s, ids).reqs[id]
         == if id in ids && s.reqs[id].stage == TxSize then PostData(s.reqs[id]) else s.reqs[id]
    decreases |ids|
  {
    if ids != [] {
      PostAllServes(if s.reqs[ids[0]].stage == TxSize then PostAndUnwatch(s, ids[0]) else s, ids[1..], id);
    }
  }

  lemma AllPosted(s: State, ids: seq<nat>)
    requires forall i :: 0 <= i < |ids| ==> ids[i] < |s.reqs|
    ensures var t := PostAll(s, ids);
            && t.sources == s.sources && |t.reqs| == |s.reqs|
            && forall id :: 0 <= id < |s.reqs| ==>
                 t.reqs[id] == if id in ids && s.reqs[id].stage == TxSize then PostData(s.reqs[id]) else s.reqs[id]
  {
    PostAllKeepsSources(s, ids);
    forall id | 0 <= id < |s.reqs|
      ensures PostAll(s, ids).reqs[id]
           == if id in ids && s.reqs[id].stage == TxSize then PostData(s.reqs[id]) else s.reqs[id]
    {
      PostAllServes(s, ids, id);
    }
  }

  /** And the second half. */
  lemma {:induction false} CompleteAllServes(s: State, ids: seq<nat>, id: nat)
    requires id < |s.reqs| && forall i :: 0 <= i < |ids| ==> ids[i] < |s.reqs|
    ensures CompleteAll(s, ids).reqs[id] == if id in ids then s.reqs[id].(mpi := Null) else s.reqs[id]
    decreases |ids|
  {
    if ids != [] {
      CompleteAllServes(WithReq(s, ids[0], s.reqs[ids[0]].(mpi := Null)), ids[1..], id);
    }
  }

  lemma AllCompleted(s: State, ids: seq<nat>, reqs: seq<Req>)
    requires |reqs| == |s.reqs| && forall i :: 0 <= i < |ids| ==> ids[i] < |s.reqs|
    requires forall id :: 0 <= id < |reqs| ==> reqs[id] == if id in ids then s.reqs[id].(mpi := Null) else s.reqs[id]
    ensures CompleteAll(s, ids) == s.(reqs := reqs)
  {
    CompleteAllKeepsRest(s, ids);
    forall id | 0 <= id < |reqs|
      ensures CompleteAll(s, ids).reqs[id] == reqs[id]
    {
      CompleteAllServes(s, ids, id);
    }
  }

  lemma PostAllStep(s: State, id: nat, others: seq<nat>)
    requires id < |s.reqs| && forall i :: 0 <= i < |others| ==> others[i] < |s.reqs|
    ensures forall i :: 0 <= i < |[id] + others| ==> ([id] + others)[i] < |s.reqs|
    ensures PostAll(s, [id] + others)
         == PostAll(if s.reqs[id].stage == TxSize then PostAndUnwatch(s, id) else s, others)
  {
    assert ([id] + others)[1..] == others;
  }

  lemma OthersEnabled(s: State, id: nat, others: seq<nat>)
    requires id < |s.reqs| && Enabled(s, WaitAllSizes([id] + others))
    ensures ValidId(s, id) && s.reqs[id].started && Enabled(s, WaitAllSizes(others))
    ensures Enabled(if s.reqs[id].stage == TxSize then PostAndUnwatch(s, id) else s, WaitAllSizes(others))
  {
    assert ([id] + others)[0] == id;
    assert forall i :: 0 <= i < |others| ==> ([id] + others)[i + 1] == others[i];
  }

  /** The loop of `waitall` is at index `i` and on its way to the state `done`. */
  ghost predicate LeftToDo(s: State, ids: seq<nat>, i: nat, done: State) {
    i <= |ids| && Enabled(s, WaitAllSizes(ids[i..])) && PostAll(s, ids[i..]) == done
  }

  lemma LoopStep(s: State, ids: seq<nat>, i: nat, done: State)
    requires i < |ids| && LeftToDo(s, ids, i, done)
    ensures ids[i] < |s.reqs| && s.reqs[ids[i]].started
    ensures LeftToDo(if s.reqs[ids[i]].stage == TxSize then PostAndUnwatch(s, ids[i]) else s, ids, i + 1, done)
  {
    assert ids[i..] == [ids[i]] + ids[i + 1..];
    assert ids[i..][0] == ids[i];
    OthersEnabled(s, ids[i], ids[i + 1..]);
    PostAllStep(s, ids[i], ids[i + 1..]);
  }

  // ---------- The calls ----------

  /** The requests of one process and the table of those the polling thread looks at. */
  class Engine {
    var sources: seq<Source>
    var reqs: seq<Req>
    const table: W.Table

    ghost function View(): State
      reads this, table, table.rlist
    {
      State(sources, reqs, table.rlist[..])
    }

    ghost predicate Valid()
      reads this, table, table.rlist
    {
      && TableInv(View())
      && (forall id :: 0 <= id < |reqs| ==> reqs[id].src < |sources|)
    }

    constructor (n: nat, wanted: seq<(nat, TagPattern)>)
      requires forall i :: 0 <= i < |wanted| ==> wanted[i].0 < n
      ensures View() == Init(n, wanted) && Valid() && fresh(table) && fresh(table.rlist)
    {
      InitInv(n, wanted);
      table := new W.Table();
      sources := seq(n, _ => Source(P.Link([], [], [], []), None, []));
      reqs := seq(|wanted|, i requires 0 <= i < |wanted| => NewReq(wanted[i].0, wanted[i].1));
      new;
      assert reqs == Init(n, wanted).reqs && sources == Init(n, wanted).sources;
    }

    /** Request `id` is `r` now, the senders and the other requests are as they were, and the table
        holds `id` if it is `watched` and otherwise what it held. */
    twostate predicate OnlyRequest(id: nat, r: Req, watched: bool)
      reads this, table, table.rlist
    {
      && sources == old(sources) && id < |old(reqs)| && reqs == old(reqs)[id := r]
      && (Some(id) in table.rlist[..] <==> watched)
      && (forall q :: 0 <= q < |reqs| && q != id ==> (Some(q) in table.rlist[..] <==> Some(q) in old(table.rlist[..])))
    }

    /** `request_start`: the receive for the length is posted and the request watched. */
    method StartOne(id: nat)
      requires Valid() && Enabled(View(), Start(id))
      modifies this, table, table.rlist
      ensures View() == Next(old(View()), Start(id)) && Valid()
      ensures OnlyRequest(id, old(reqs[id]).(mpi := PendingSize, started := true), true)
      ensures table.rlist == old(table.rlist) || fresh(table.rlist)
    {
      NextKeepsTable(View(), Start(id));
      reqs := reqs[id := reqs[id].(mpi := PendingSize, started := true)];
      table.Add(id);
    }

    /** One slot of the loop in `request_thread`. */
    method LookAt(slot: nat)
      requires Valid() && slot < table.rlist.Length
      modifies this, table.rlist
      ensures View() == (if Enabled(old(View()), Poll(slot)) then Next(old(View()), Poll(slot)) else old(View()))
      ensures Valid()
      ensures var was := old(table.rlist[slot]);
              if was.Some? && was.value < |old(reqs)| && !Pending(old(reqs)[was.value].mpi)
              then OnlyRequest(was.value, PostData(old(reqs)[was.value]), false)
              else View() == old(View())
    {
      if table.rlist[slot].Some? {
        var id := table.rlist[slot].value;
        if !Pending(reqs[id].mpi) {
          NextKeepsTable(View(), Poll(slot));
          reqs := reqs[id := PostData(reqs[id])];
          table.rlist[slot] := None;
        }
      }
    }

    /** One pass of `request_thread` over the table. */
    method PollPass()
      requires Valid()
      modifies this, table.rlist
      ensures View() == PolledFrom(old(View()), 0) && Valid()
      ensures sources == old(sources) && |reqs| == |old(reqs)|
      ensures forall id :: 0 <= id < |reqs| ==>
                reqs[id] == if Some(id) in old(table.rlist[..]) && !Pending(old(reqs)[id].mpi)
                            then PostData(old(reqs)[id]) else old(reqs)[id]
      ensures forall k :: 0 <= k < table.rlist.Length && table.rlist[k].Some? ==>
                table.rlist[k].value < |reqs| && Pending(reqs[table.rlist[k].value].mpi)
      ensures forall id :: 0 <= id < |reqs| && Some(id) in old(table.rlist[..]) && !Pending(old(reqs)[id].mpi) ==>
                Some(id) !in table.rlist[..]
    {
      ghost var was := View();
      assert was.rlist[0..] == was.rlist;
      PassKeepsRest(was, 0);
      forall id | 0 <= id < |reqs|
        ensures PolledFrom(was, 0).reqs[id] == if Some(id) in was.rlist && !Pending(was.reqs[id].mpi)
                                               then PostData(was.reqs[id]) else was.reqs[id]
      {
        PassServes(was, 0, id);
      }
      var i := 0;
      while i < table.rlist.Length
        invariant i <= table.rlist.Length && Valid()
        invariant PolledFrom(View(), i) == PolledFrom(old(View()), 0)
      {
        LookAt(i);
        i := i + 1;
      }
      PassEmptiesTable(was, View());
    }

    /** The first half of `request_wait`, once MPI has the length. */
    method WaitForLength(id: nat)
      requires Valid() && Enabled(View(), WaitSize(id))
      modifies this, table.rlist
      ensures View() == Next(old(View()), WaitSize(id)) && Valid()
      ensures OnlyRequest(id, PostData(old(reqs[id])), false)
    {
      NextKeepsTable(View(), WaitSize(id));
      reqs := reqs[id := PostData(reqs[id])];
      table.Remove(id);
    }

    /** The second half of `request_wait`, once MPI has the bytes: it leaves the object that was sent. */
    method WaitForBytes(id: nat)
      requires Valid() && Enabled(View(), WaitData(id))
      modifies this
      ensures View() == Next(old(View()), WaitData(id)) && Valid()
      ensures old(Inv(View())) ==>
                Inv(View()) && reqs[id].taken.Some? && reqs[id].obj == Some(reqs[id].taken.value.obj)
      ensures OnlyRequest(id, reqs[id], Some(id) in old(table.rlist[..]))
    {
      NextKeepsTable(View(), WaitData(id));
      if Inv(View()) {
        assert ReqInv(reqs[id]);
        FinishKeepsInv(View(), id);
      }
      var r := reqs[id].(mpi := Null);
      if r.buf.Some? {
        var obj := Load(r.buf.value.bytes);
        r := if obj.Some? then r.(obj := obj, buf := None) else r.(broken := true);
      }
      reqs := reqs[id := r];
    }

    /** The first half of `request_waitall`, once MPI has the lengths. */
    method WaitForLengths(ids: seq<nat>)
      requires Valid() && Enabled(View(), WaitAllSizes(ids))
      modifies this, table.rlist
      ensures View() == Next(old(View()), WaitAllSizes(ids)) && Valid()
      ensures sources == old(sources) && |reqs| == |old(reqs)|
      ensures forall id :: 0 <= id < |reqs| ==>
                reqs[id] == if id in ids && old(reqs)[id].stage == TxSize then PostData(old(reqs)[id]) else old(reqs)[id]
    {
      AllPosted(View(), ids);
      PostLoop(ids);
    }

    /** Its loop that posts the receives for the bytes. */
    method PostLoop(ids: seq<nat>)
      requires Valid() && Enabled(View(), WaitAllSizes(ids))
      modifies this, table.rlist
      ensures View() == PostAll(old(View()), ids) && Valid()
    {
      ghost var done := PostAll(View(), ids);
      var i := 0;
      assert ids[0..] == ids;
      while i < |ids|
        invariant 0 <= i <= |ids| && Valid() && LeftToDo(View(), ids, i, done)
      {
        LoopStep(View(), ids, i, done);
        PostIfWaiting(ids[i]);
        i := i + 1;
      }
      assert ids[i..] == [];
    }

    /** One turn of that loop. */
    method PostIfWaiting(id: nat)
      requires Valid() && id < |reqs| && reqs[id].started
      modifies this, table.rlist
      ensures View() == old(if reqs[id].stage == TxSize then PostAndUnwatch(View(), id) else View())
      ensures Valid()
    {
      if reqs[id].stage == TxSize {
        PostKeepsTable(View(), id);
        reqs := reqs[id := PostData(reqs[id])];
        table.Remove(id);
      }
    }

    /** The loop behind the second `MPI_Waitall`: MPI has forgotten the requests, the buffers stay. */
    method WaitForAllBytes(ids: seq<nat>)
      requires Valid() && Enabled(View(), WaitAllData(ids))
      modifies this
      ensures View() == Next(old(View()), WaitAllData(ids)) && Valid()
      ensures sources == old(sources) && |reqs| == |old(reqs)|
      ensures forall id :: 0 <= id < |reqs| ==> reqs[id] == if id in ids then old(reqs)[id].(mpi := Null) else old(reqs)[id]
    {
      ghost var was := View();
      NextKeepsTable(was, WaitAllData(ids));
      CompleteAllKeepsRest(was, ids);
      var i := 0;
      while i < |ids|
        invariant 0 <= i <= |ids| && sources == was.sources && |reqs| == |was.reqs|
        invariant forall id :: 0 <= id < |reqs| ==>
                    reqs[id] == if id in ids[..i] then was.reqs[id].(mpi := Null) else was.reqs[id]
      {
        assert ids[..i + 1] == ids[..i] + [ids[i]];
        reqs := reqs[ids[i] := reqs[ids[i]].(mpi := Null)];
        i := i + 1;
      }
      assert ids[..i] == ids;
      AllCompleted(was, ids, reqs);
    }

    /** `request_test`. */
    method TestOne(id: nat) returns (flag: bool)
      requires Valid() && Enabled(View(), Test(id))
      modifies this
      ensures View() == Next(old(View()), Test(id)) && Valid()
      ensures OnlyRequest(id, if flag then old(reqs[id]).(mpi := Null) else old(reqs[id]), Some(id) in old(table.rlist[..]))
      ensures flag <==> old(reqs[id].stage) == TxData && !Pending(old(reqs[id].mpi))
    {
      NextKeepsTable(View(), Test(id));
      if reqs[id].stage == TxSize {
        return false;
      }
      flag := !Pending(reqs[id].mpi);
      if flag {
        reqs := reqs[id := reqs[id].(mpi := Null)];
      }
    }

    /** `request_cancel`. */
    method CancelOne(id: nat)
      requires Valid() && Enabled(View(), Cancel(id))
      modifies this, table.rlist
      ensures View() == Next(old(View()), Cancel(id)) && Valid()
      ensures OnlyRequest(id, old(reqs[id]).(stage := TxSize, buf := None, mpi := Null, cancelled := true), false)
    {
      NextKeepsTable(View(), Cancel(id));
      reqs := reqs[id := Cancelled(reqs[id])];
      table.Remove(id);
    }
  }
}
