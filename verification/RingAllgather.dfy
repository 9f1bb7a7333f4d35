/** `comm_allgather`: the hand-written ring.

Every rank marshals its object and stores it under its own number.  In exchange `i` it passes
the string it stored last to its right neighbour and stores what its left neighbour passes,
first the length, then the bytes.  A string travels with its terminator and the terminator is
kept, so a string that has come `k` hops ends in `k` zero bytes.
*/
module RingAllgather {
  import opened Marshal
  import opened Transport
  import opened Sums

  const ALLGATHER_TAG: nat := 43

  /** Which of the two `MPI_Sendrecv` calls of the current exchange a rank is in. */
  datatype Phase = Sizes | Contents

  /** The local variables of one rank inside the loop.  `sent` and `received` say which halves
      of the pending `MPI_Sendrecv` have happened; `broken` records that something arrived that
      does not exactly fill the buffer prepared for it, or that there was nothing to send. */
  datatype Rank = Rank(i: nat, j: nat, jnext: nat, phase: Phase, sent: bool, received: bool,
                       lengthLeft: nat, inbuf: Bytes, ary: seq<Option<Bytes>>, broken: bool)

  /** `wires[r]` is the channel from rank `r` to its right neighbour. */
  datatype State = State(ranks: seq<Rank>, wires: seq<Channel>)

  datatype Action = Send | Receive | Advance
  datatype Label = Label(rank: nat, action: Action)

  function Left(n: nat, r: nat): (l: nat)
    requires r < n
    ensures l == if r == 0 then n - 1 else r - 1
  {
    Modulo(n, n + r - 1);
    (n + r - 1) % n
  }

  function Right(n: nat, r: nat): (q: nat)
    requires r < n
    ensures q == if r == n - 1 then 0 else r + 1
  {
    Modulo(n, r + 1);
    (r + 1) % n
  }

  lemma Modulo(n: nat, x: nat)
    requires 0 < n && x < 2 * n
    ensures x % n == if x < n then x else x - n
  {
    if x >= n {
      assert x == 1 * n + (x - n);
    }
  }

  /** The rank `k` places to the left of `r`. */
  function Back(n: nat, r: nat, k: nat): (b: nat)
    requires r < n && k <= n
    ensures b < n
  {
    if k <= r then r - k else r + n - k
  }

  // ---------- The steps of one rank ----------

  predicate Sane(s: State) {
    |s.wires| == |s.ranks| && forall r :: 0 <= r < |s.ranks| ==> InRange(|s.ranks|, s.ranks[r])
  }

  predicate InRange(n: nat, me: Rank) {
    |me.ary| == n && me.j < n && me.jnext < n
  }

  /** `MPI_Sendrecv` may send and receive in either order and returns after both. */
  predicate Enabled(s: State, l: Label)
    requires Sane(s)
  {
    var n := |s.ranks|;
    l.rank < n &&
    var me := s.ranks[l.rank];
    me.i < n && !me.broken &&
    match l.action
    case Send => !me.sent
    case Receive =>
      var wire := s.wires[Left(n, l.rank)];
      !me.received && FirstMatch(wire, Tag(ALLGATHER_TAG)) < |wire|
    case Advance => me.sent && me.received
  }

  function Outgoing(me: Rank): Payload
    requires me.j < |me.ary| && me.ary[me.j].Some?
  {
    var out := me.ary[me.j].value;
    if me.phase == Sizes then Size(|out|) else Data(out + [0])
  }

  function Accept(me: Rank, p: Payload): Rank {
    match p
    case Size(n) =>
      if me.phase == Sizes then me.(lengthLeft := n, received := true) else me.(broken := true)
    case Data(b) =>
      if me.phase == Contents && |b| == me.lengthLeft + 1
      then me.(inbuf := b, received := true)
      else me.(broken := true)
  }

  function Advanced(n: nat, me: Rank): Rank
    requires me.jnext < n && me.jnext < |me.ary|
  {
    if me.phase == Sizes
    then me.(phase := Contents, sent := false, received := false)
    else me.(phase := Sizes, sent := false, received := false,
             ary := me.ary[me.jnext := Some(me.inbuf)],
             j := me.jnext, jnext := Left(n, me.jnext), i := me.i + 1)
  }

  function Next(s: State, l: Label): (t: State)
    requires Sane(s) && Enabled(s, l)
    ensures Sane(t) && |t.ranks| == |s.ranks|
  {
    var n, r := |s.ranks|, l.rank;
    var me := s.ranks[r];
    match l.action
    case Send =>
      if me.ary[me.j].None? then s.(ranks := s.ranks[r := me.(broken := true)])
      else State(s.ranks[r := me.(sent := true)],
                 s.wires[r := s.wires[r] + [Message(ALLGATHER_TAG, Outgoing(me))]])
    case Receive =>
      var l := Left(n, r);
      var at := FirstMatch(s.wires[l], Tag(ALLGATHER_TAG));
      State(s.ranks[r := Accept(me, s.wires[l][at].payload)],
            s.wires[l := Without(s.wires[l], at)])
    case Advance => s.(ranks := s.ranks[r := Advanced(n, me)])
  }

  /** Every rank has marshalled its object; the wires may carry other traffic. */
  function Start(objs: seq<Obj>, wires: seq<Channel>): (s: State)
    requires |wires| == |objs|
    ensures Sane(s) && |s.ranks| == |objs|
  {
    var n := |objs|;
    State(seq(n, r requires 0 <= r < n =>
            Rank(1, r, Left(n, r), Sizes, false, false, 0, [],
                 seq(n, k requires 0 <= k < n => if k == r then Some(Dump(objs[r])) else None), false)),
          wires)
  }

  predicate Finished(s: State) {
    forall r :: 0 <= r < |s.ranks| ==> s.ranks[r].i >= |s.ranks|
  }

  // ---------- What should travel ----------

  function Zeros(k: nat): (z: Bytes)
    ensures |z| == k
  {
    seq(k, _ => 0)
  }

  /** The string of the rank `k` places to the left of `r`, as it looks when it gets to `r`. */
  function Value(objs: seq<Obj>, r: nat, k: nat): (v: Bytes)
    requires r < |objs| && k <= |objs|
  {
    Dump(objs[Back(|objs|, r, k)]) + Zeros(k)
  }

  /** Message number `m` of the `2 * (n - 1)` messages rank `r` sends. */
  function Sent(objs: seq<Obj>, r: nat, m: nat): Message
    requires r < |objs| && m / 2 < |objs|
  {
    var v := Value(objs, r, m / 2);
    Message(ALLGATHER_TAG, if m % 2 == 0 then Size(|v|) else Data(v + [0]))
  }

  function Stream(objs: seq<Obj>, r: nat, from: nat, to: nat): (c: Channel)
    requires r < |objs| && from <= to <= 2 * |objs|
    ensures |c| == to - from
  {
    seq(to - from, m requires 0 <= m < to - from => Sent(objs, r, from + m))
  }

  function Position(me: Rank): int {
    2 * (me.i - 1) + if me.phase == Contents then 1 else 0
  }

  function SentCount(me: Rank): int {
    Position(me) + if me.sent then 1 else 0
  }

  function ReceivedCount(me: Rank): int {
    Position(me) + if me.received then 1 else 0
  }

  // ---------- The invariant ----------

  ghost predicate ArrayInv(objs: seq<Obj>, r: nat, me: Rank)
    requires r < |objs|
  {
    var n := |objs|;
    |me.ary| == n && 1 <= me.i <= n &&
    forall k :: 0 <= k < n ==>
      me.ary[Back(n, r, k)] == if k < me.i then Some(Value(objs, r, k)) else None
  }

  ghost predicate RankInv(objs: seq<Obj>, r: nat, me: Rank)
    requires r < |objs|
  {
    var n := |objs|;
    && ArrayInv(objs, r, me)
    && me.j == Back(n, r, me.i - 1) && me.jnext == Back(n, r, me.i)
    && !me.broken
    && (me.i == n ==> me.phase == Sizes && !me.sent && !me.received)
    && (me.phase == Contents || me.received ==> me.lengthLeft == |Value(objs, Left(n, r), me.i - 1)|)
    && (me.phase == Contents && me.received ==> me.inbuf == Value(objs, r, me.i))
  }

  ghost predicate WireInv(objs: seq<Obj>, s: State, r: nat)
    requires Sane(s) && r < |s.ranks| == |objs|
  {
    var l := Left(|objs|, r);
    var from, to := ReceivedCount(s.ranks[r]), SentCount(s.ranks[l]);
    0 <= from <= to <= 2 * |objs| && OnTag(s.wires[l], ALLGATHER_TAG) == Stream(objs, l, from, to)
  }

  ghost predicate Inv(objs: seq<Obj>, s: State) {
    && Sane(s) && |s.ranks| == |objs|
    && (forall r :: 0 <= r < |objs| ==> RankInv(objs, r, s.ranks[r]))
    && (forall r :: 0 <= r < |objs| ==> WireInv(objs, s, r))
  }

  /** The rank to whom `r` sends is the one that receives from `r`. */
  lemma LeftOfRight(n: nat, r: nat)
    requires r < n
    ensures Left(n, Right(n, r)) == r && Right(n, Left(n, r)) == r
  {
  }

  lemma LeftOfBack(n: nat, r: nat, k: nat)
    requires r < n && k < n
    ensures Back(n, Left(n, r), k) == Back(n, r, k + 1) == Left(n, Back(n, r, k))
  {
  }

  lemma NextHop(objs: seq<Obj>, r: nat, k: nat)
    requires r < |objs| && k < |objs|
    ensures Value(objs, Left(|objs|, r), k) + [0] == Value(objs, r, k + 1)
  {
    LeftOfBack(|objs|, r, k);
    assert Zeros(k) + [0] == Zeros(k + 1);
  }

  lemma StartInv(objs: seq<Obj>, wires: seq<Channel>)
    requires |wires| == |objs|
    requires forall r :: 0 <= r < |wires| ==> OnTag(wires[r], ALLGATHER_TAG) == []
    ensures Inv(objs, Start(objs, wires))
  {
    var s, n := Start(objs, wires), |objs|;
    forall r | 0 <= r < n
      ensures RankInv(objs, r, s.ranks[r])
    {
      assert Value(objs, r, 0) == Dump(objs[r]);
    }
  }

  lemma Halves(e: nat, bit: nat)
    requires bit <= 1
    ensures (2 * e + bit) / 2 == e && (2 * e + bit) % 2 == bit
  {
  }

  lemma OutgoingIsNext(objs: seq<Obj>, r: nat, me: Rank)
    requires r < |objs| && RankInv(objs, r, me) && me.i < |objs| && !me.sent
    ensures me.j < |objs| && me.ary[me.j].Some?
    ensures SentCount(me) / 2 < |objs|
    ensures Message(ALLGATHER_TAG, Outgoing(me)) == Sent(objs, r, SentCount(me))
  {
    Halves(me.i - 1, if me.phase == Contents then 1 else 0);
    assert me.ary[Back(|objs|, r, me.i - 1)] == Some(Value(objs, r, me.i - 1));
  }

  lemma StreamExtends(objs: seq<Obj>, r: nat, from: nat, to: nat)
    requires r < |objs| && from <= to < 2 * |objs|
    ensures Stream(objs, r, from, to) + [Sent(objs, r, to)] == Stream(objs, r, from, to + 1)
  {
  }

  lemma StreamShrinks(objs: seq<Obj>, r: nat, from: nat, to: nat)
    requires r < |objs| && from < to <= 2 * |objs|
    ensures Stream(objs, r, from, to) == [Sent(objs, r, from)] + Stream(objs, r, from + 1, to)
  {
  }

  lemma WireGrows(objs: seq<Obj>, r: nat, wire: Channel, from: nat, to: nat)
    requires r < |objs| && from <= to < 2 * |objs|
    requires OnTag(wire, ALLGATHER_TAG) == Stream(objs, r, from, to)
    ensures OnTag(wire + [Sent(objs, r, to)], ALLGATHER_TAG) == Stream(objs, r, from, to + 1)
  {
    OnTagSend(wire, Sent(objs, r, to), ALLGATHER_TAG);
    StreamExtends(objs, r, from, to);
  }

  lemma SendKeepsWire(objs: seq<Obj>, s: State, r: nat, q: nat)
    requires Inv(objs, s) && Enabled(s, Label(r, Send)) && q < |objs| && Left(|objs|, q) == r
    ensures WireInv(objs, Next(s, Label(r, Send)), q)
  {
    var me := s.ranks[r];
    assert RankInv(objs, r, me);
    OutgoingIsNext(objs, r, me);
    assert WireInv(objs, s, q);
    var t := Next(s, Label(r, Send));
    assert ReceivedCount(t.ranks[q]) == ReceivedCount(s.ranks[q]);
    assert SentCount(t.ranks[r]) == SentCount(me) + 1;
    WireGrows(objs, r, s.wires[r], ReceivedCount(s.ranks[q]), SentCount(me));
  }

  lemma SendKeepsOtherWires(objs: seq<Obj>, s: State, r: nat, q: nat)
    requires Inv(objs, s) && Enabled(s, Label(r, Send)) && q < |objs| && Left(|objs|, q) != r
    ensures WireInv(objs, Next(s, Label(r, Send)), q)
  {
    SameWire(objs, s, Next(s, Label(r, Send)), q);
  }

  /** A wire's invariant depends on its own messages and on the counts of its two ends. */
  lemma SameWire(objs: seq<Obj>, s: State, t: State, q: nat)
    requires Sane(s) && Sane(t) && q < |s.ranks| == |t.ranks| == |objs| && WireInv(objs, s, q)
    requires t.wires[Left(|objs|, q)] == s.wires[Left(|objs|, q)]
    requires ReceivedCount(t.ranks[q]) == ReceivedCount(s.ranks[q])
    requires SentCount(t.ranks[Left(|objs|, q)]) == SentCount(s.ranks[Left(|objs|, q)])
    ensures WireInv(objs, t, q)
  {
  }

  lemma SendKeepsInv(objs: seq<Obj>, s: State, r: nat)
    requires Inv(objs, s) && Enabled(s, Label(r, Send))
    ensures Inv(objs, Next(s, Label(r, Send)))
  {
    assert RankInv(objs, r, s.ranks[r]);
    OutgoingIsNext(objs, r, s.ranks[r]);
    forall q | 0 <= q < |objs|
      ensures WireInv(objs, Next(s, Label(r, Send)), q)
    {
      if Left(|objs|, q) == r {
        SendKeepsWire(objs, s, r, q);
      } else {
        SendKeepsOtherWires(objs, s, r, q);
      }
    }
  }

  lemma IncomingIsExpected(objs: seq<Obj>, s: State, r: nat)
    requires Inv(objs, s) && Enabled(s, Label(r, Receive))
    ensures var l := Left(|objs|, r);
            var wire := s.wires[l];
            var at := FirstMatch(wire, Tag(ALLGATHER_TAG));
            var from, to := ReceivedCount(s.ranks[r]), SentCount(s.ranks[l]);
            && 0 <= from < to <= 2 * |objs|
            && wire[at] == Sent(objs, l, from)
            && OnTag(Without(wire, at), ALLGATHER_TAG) == Stream(objs, l, from + 1, to)
  {
    var l := Left(|objs|, r);
    var from, to := ReceivedCount(s.ranks[r]), SentCount(s.ranks[l]);
    assert WireInv(objs, s, r);
    ReceiveOnTag(s.wires[l], ALLGATHER_TAG);
    StreamShrinks(objs, l, from, to);
    var at := FirstMatch(s.wires[l], Tag(ALLGATHER_TAG));
    assert OnTag(Without(s.wires[l], at), ALLGATHER_TAG) == OnTag(s.wires[l], ALLGATHER_TAG)[1..];
  }

  /** Where a rank is in its exchange decides what it hears next. */
  lemma NextIncoming(objs: seq<Obj>, r: nat, me: Rank)
    requires r < |objs| && RankInv(objs, r, me) && me.i < |objs| && !me.received
    ensures ReceivedCount(me) >= 0 && ReceivedCount(me) / 2 < |objs|
    ensures Sent(objs, Left(|objs|, r), ReceivedCount(me)).payload
         == if me.phase == Sizes then Size(|Value(objs, Left(|objs|, r), me.i - 1)|) else Data(Value(objs, r, me.i))
  {
    Halves(me.i - 1, if me.phase == Contents then 1 else 0);
    NextHop(objs, r, me.i - 1);
  }

  lemma AcceptKeepsRank(objs: seq<Obj>, r: nat, me: Rank)
    requires r < |objs| && RankInv(objs, r, me) && me.i < |objs| && !me.received
    ensures ReceivedCount(me) / 2 < |objs|
    ensures RankInv(objs, r, Accept(me, Sent(objs, Left(|objs|, r), ReceivedCount(me)).payload))
    ensures Accept(me, Sent(objs, Left(|objs|, r), ReceivedCount(me)).payload).received
  {
    NextIncoming(objs, r, me);
    NextHop(objs, r, me.i - 1);
  }

  lemma ReceiveKeepsOtherWires(objs: seq<Obj>, s: State, r: nat, q: nat)
    requires Inv(objs, s) && Enabled(s, Label(r, Receive)) && q < |objs| && q != r
    ensures WireInv(objs, Next(s, Label(r, Receive)), q)
  {
    LeftOfRight(|objs|, q);
    LeftOfRight(|objs|, r);
    AcceptKeepsSent(s.ranks[r], s.wires[Left(|objs|, r)][FirstMatch(s.wires[Left(|objs|, r)], Tag(ALLGATHER_TAG))].payload);
    SameWire(objs, s, Next(s, Label(r, Receive)), q);
  }

  lemma AcceptKeepsSent(me: Rank, m: Payload)
    ensures SentCount(Accept(me, m)) == SentCount(me)
  {
  }

  lemma ReceiveKeepsWire(objs: seq<Obj>, s: State, r: nat)
    requires Inv(objs, s) && Enabled(s, Label(r, Receive))
    ensures WireInv(objs, Next(s, Label(r, Receive)), r)
  {
    assert RankInv(objs, r, s.ranks[r]);
    IncomingIsExpected(objs, s, r);
    AcceptKeepsRank(objs, r, s.ranks[r]);
    var l, t := Left(|objs|, r), Next(s, Label(r, Receive));
    assert t.ranks[r] == Accept(s.ranks[r], Sent(objs, l, ReceivedCount(s.ranks[r])).payload);
    AcceptKeepsSent(s.ranks[r], Sent(objs, l, ReceivedCount(s.ranks[r])).payload);
    assert SentCount(t.ranks[l]) == SentCount(s.ranks[l]);
    assert ReceivedCount(t.ranks[r]) == ReceivedCount(s.ranks[r]) + 1;
  }

  lemma ReceiveKeepsInv(objs: seq<Obj>, s: State, r: nat)
    requires Inv(objs, s) && Enabled(s, Label(r, Receive))
    ensures Inv(objs, Next(s, Label(r, Receive)))
  {
    assert RankInv(objs, r, s.ranks[r]);
    IncomingIsExpected(objs, s, r);
    AcceptKeepsRank(objs, r, s.ranks[r]);
    forall q | 0 <= q < |objs|
      ensures WireInv(objs, Next(s, Label(r, Receive)), q)
    {
      if q == r {
        ReceiveKeepsWire(objs, s, r);
      } else {
        ReceiveKeepsOtherWires(objs, s, r, q);
      }
    }
  }

  lemma BackInjective(n: nat, r: nat, k: nat, k': nat)
    requires r < n && k < n && k' < n && k != k'
    ensures Back(n, r, k) != Back(n, r, k')
  {
  }

  lemma StoreKeepsArray(objs: seq<Obj>, r: nat, me: Rank, v: Bytes)
    requires r < |objs| && ArrayInv(objs, r, me) && me.i < |objs| && v == Value(objs, r, me.i)
    ensures ArrayInv(objs, r, me.(ary := me.ary[Back(|objs|, r, me.i) := Some(v)], i := me.i + 1))
  {
    forall k | 0 <= k < |objs| && k != me.i
      ensures Back(|objs|, r, k) != Back(|objs|, r, me.i)
    {
      BackInjective(|objs|, r, k, me.i);
    }
  }

  lemma AdvanceKeepsRank(objs: seq<Obj>, r: nat, me: Rank)
    requires r < |objs| && RankInv(objs, r, me) && me.i < |objs| && me.sent && me.received
    ensures RankInv(objs, r, Advanced(|objs|, me))
    ensures SentCount(Advanced(|objs|, me)) == SentCount(me)
    ensures ReceivedCount(Advanced(|objs|, me)) == ReceivedCount(me)
  {
    if me.phase == Contents {
      StoreKeepsArray(objs, r, me, me.inbuf);
      LeftOfBack(|objs|, r, me.i);
      assert ArrayInv(objs, r, Advanced(|objs|, me));
    }
  }

  lemma AdvanceKeepsInv(objs: seq<Obj>, s: State, r: nat)
    requires Inv(objs, s) && Enabled(s, Label(r, Advance))
    ensures Inv(objs, Next(s, Label(r, Advance)))
  {
    assert RankInv(objs, r, s.ranks[r]);
    AdvanceKeepsRank(objs, r, s.ranks[r]);
    forall q | 0 <= q < |objs|
      ensures WireInv(objs, Next(s, Label(r, Advance)), q)
    {
      SameWire(objs, s, Next(s, Label(r, Advance)), q);
    }
  }

  lemma NextKeepsInv(objs: seq<Obj>, s: State, l: Label)
    requires Inv(objs, s) && Enabled(s, l)
    ensures Inv(objs, Next(s, l))
  {
    match l.action
    case Send => SendKeepsInv(objs, s, l.rank);
    case Receive => ReceiveKeepsInv(objs, s, l.rank);
    case Advance => AdvanceKeepsInv(objs, s, l.rank);
  }

  // ---------- Progress ----------

  /** A rank none of the others is behind. */
  function Slowest(ranks: seq<Rank>): (m: nat)
    requires |ranks| > 0
    ensures m < |ranks|
    ensures forall r :: 0 <= r < |ranks| ==> Position(ranks[m]) <= Position(ranks[r])
  {
    if |ranks| == 1 then 0
    else
      var m := Slowest(ranks[1..]) + 1;
      assert forall r :: 1 <= r < |ranks| ==> ranks[r] == ranks[1..][r - 1];
      if Position(ranks[0]) <= Position(ranks[m]) then 0 else m
  }

  lemma AllAtTheEnd(objs: seq<Obj>, s: State, r: nat)
    requires Inv(objs, s) && r < |objs| && s.ranks[r].i == |objs|
    requires forall q :: 0 <= q < |objs| ==> Position(s.ranks[r]) <= Position(s.ranks[q])
    ensures Finished(s)
  {
    assert RankInv(objs, r, s.ranks[r]);
    forall q | 0 <= q < |objs|
      ensures s.ranks[q].i == |objs|
    {
      assert RankInv(objs, q, s.ranks[q]);
    }
  }

  /** While some rank is still in its loop, some rank can take a step. */
  lemma NeverStuck(objs: seq<Obj>, s: State) returns (l: Label)
    requires Inv(objs, s) && !Finished(s)
    ensures Enabled(s, l)
  {
    var n := |objs|;
    var r := Slowest(s.ranks);
    var q := Left(n, r);
    var me := s.ranks[r];
    assert RankInv(objs, r, me) && RankInv(objs, q, s.ranks[q]) && WireInv(objs, s, r);
    if me.i == n {
      AllAtTheEnd(objs, s, r);
      assert false;
    }
    if !me.sent {
      l := Label(r, Send);
    } else if me.received {
      l := Label(r, Advance);
    } else if SentCount(s.ranks[q]) > Position(me) {
      NothingOnTag(s.wires[q], ALLGATHER_TAG);
      l := Label(r, Receive);
    } else {
      l := Label(q, Send);
    }
  }

  /** Sends, receives and returns still to come. */
  function Remaining(n: nat, me: Rank): int {
    3 * (2 * (n - 1) - Position(me)) - (if me.sent then 1 else 0) - if me.received then 1 else 0
  }

  function Rests(s: State): (rests: seq<int>)
    ensures |rests| == |s.ranks|
  {
    seq(|s.ranks|, r requires 0 <= r < |s.ranks| => Remaining(|s.ranks|, s.ranks[r]))
  }

  function Work(s: State): int {
    Sum(Rests(s))
  }

  lemma StepDoesWork(objs: seq<Obj>, s: State, l: Label)
    requires Inv(objs, s) && Enabled(s, l)
    requires RankInv(objs, l.rank, Next(s, l).ranks[l.rank])
    ensures Remaining(|objs|, Next(s, l).ranks[l.rank]) == Remaining(|objs|, s.ranks[l.rank]) - 1
  {
    assert RankInv(objs, l.rank, s.ranks[l.rank]);
  }

  lemma NextDoesWork(objs: seq<Obj>, s: State, l: Label)
    requires Inv(objs, s) && Enabled(s, l)
    ensures Work(Next(s, l)) == Work(s) - 1
  {
    var t, r := Next(s, l), l.rank;
    NextKeepsInv(objs, s, l);
    assert RankInv(objs, r, t.ranks[r]);
    StepDoesWork(objs, s, l);
    OneRankMoves(s, l);
    RestsUpdate(s, t, r);
    SumUpdate(Rests(s), r, Remaining(|s.ranks|, t.ranks[r]));
  }

  lemma OneRankMoves(s: State, l: Label)
    requires Sane(s) && Enabled(s, l)
    ensures Next(s, l).ranks == s.ranks[l.rank := Next(s, l).ranks[l.rank]]
  {
  }

  lemma RestsUpdate(s: State, t: State, r: nat)
    requires r < |s.ranks| == |t.ranks| && t.ranks == s.ranks[r := t.ranks[r]]
    ensures Rests(t) == Rests(s)[r := Remaining(|s.ranks|, t.ranks[r])]
  {
  }

  lemma WorkBounds(objs: seq<Obj>, s: State)
    requires Inv(objs, s)
    ensures Work(s) >= 0
    ensures Finished(s) ==> Work(s) == 0
  {
    forall r | 0 <= r < |objs|
      ensures Rests(s)[r] >= 0
      ensures Finished(s) ==> Rests(s)[r] == 0
    {
      assert RankInv(objs, r, s.ranks[r]);
    }
    SumBounds(Rests(s), 0);
  }

  // ---------- Whole runs ----------

  ghost predicate Run(s: State, labels: seq<Label>, t: State)
    decreases |labels|
  {
    if labels == [] then s == t
    else Sane(s) && Enabled(s, labels[0]) && Run(Next(s, labels[0]), labels[1..], t)
  }

  lemma {:induction false} RunInv(objs: seq<Obj>, s: State, labels: seq<Label>, t: State)
    requires Inv(objs, s) && Run(s, labels, t)
    ensures Inv(objs, t)
    ensures Work(t) + |labels| == Work(s)
    decreases |labels|
  {
    if labels != [] {
      NextKeepsInv(objs, s, labels[0]);
      NextDoesWork(objs, s, labels[0]);
      RunInv(objs, Next(s, labels[0]), labels[1..], t);
    }
  }

  ghost predicate Reachable(objs: seq<Obj>, wires: seq<Channel>, labels: seq<Label>, s: State) {
    && |wires| == |objs|
    && (forall r :: 0 <= r < |wires| ==> OnTag(wires[r], ALLGATHER_TAG) == [])
    && Run(Start(objs, wires), labels, s)
  }

  lemma ReachableInv(objs: seq<Obj>, wires: seq<Channel>, labels: seq<Label>, s: State)
    requires Reachable(objs, wires, labels, s)
    ensures Inv(objs, s)
    ensures Work(s) + |labels| == Work(Start(objs, wires))
  {
    StartInv(objs, wires);
    RunInv(objs, Start(objs, wires), labels, s);
  }

  lemma NextKeepsTraffic(s: State, l: Label, q: nat, other: nat)
    requires Sane(s) && Enabled(s, l) && q < |s.wires| && other != ALLGATHER_TAG
    ensures |Next(s, l).wires| == |s.wires|
    ensures OnTag(Next(s, l).wires[q], other) == OnTag(s.wires[q], other)
  {
    var n, r := |s.ranks|, l.rank;
    match l.action
    case Send =>
      var me := s.ranks[r];
      if me.ary[me.j].Some? {
        OnTagSend(s.wires[r], Message(ALLGATHER_TAG, Outgoing(me)), other);
      }
    case Receive => ReceiveKeepsOthers(s.wires[Left(n, r)], ALLGATHER_TAG, other);
    case Advance =>
  }

  /** Whatever else is in the channels, sent under another tag, is there afterwards as it was. */
  lemma {:induction false} TrafficIsKept(s: State, labels: seq<Label>, t: State, q: nat, other: nat)
    requires Run(s, labels, t) && q < |s.wires| && other != ALLGATHER_TAG
    ensures |t.wires| == |s.wires| && OnTag(t.wires[q], other) == OnTag(s.wires[q], other)
    decreases |labels|
  {
    if labels != [] {
      NextKeepsTraffic(s, labels[0], q, other);
      TrafficIsKept(Next(s, labels[0]), labels[1..], t, q, other);
    }
  }

  lemma BackIsModulo(n: nat, r: nat, k: nat)
    requires r < n && k < n
    ensures Back(n, r, k) == (r - k) % n
  {
    if k > r {
      assert r - k == -1 * n + (r + n - k);
    }
  }

  /** In every reachable state the slot for the rank `k` places to the left is empty, or holds
      that rank's dump followed by exactly `k` zero bytes; and no rank ever received anything
      that did not exactly fill its buffer. */
  lemma SlotContents(objs: seq<Obj>, wires: seq<Channel>, labels: seq<Label>, s: State, r: nat, k: nat)
    requires Reachable(objs, wires, labels, s) && r < |objs| && k < |objs|
    ensures |s.ranks| == |objs| && |s.ranks[r].ary| == |objs| && !s.ranks[r].broken
    ensures var b := (r - k) % |objs|;
            s.ranks[r].ary[b] == if k < s.ranks[r].i then Some(Dump(objs[b]) + Zeros(k)) else None
  {
    ReachableInv(objs, wires, labels, s);
    BackIsModulo(|objs|, r, k);
    assert RankInv(objs, r, s.ranks[r]);
  }

  /** A rank completes at most one exchange more than its left neighbour. */
  lemma AtMostOneAhead(objs: seq<Obj>, wires: seq<Channel>, labels: seq<Label>, s: State, r: nat)
    requires Reachable(objs, wires, labels, s) && r < |objs|
    ensures |s.ranks| == |objs|
    ensures s.ranks[r].i - 1 <= (s.ranks[Left(|objs|, r)].i - 1) + 1
  {
    ReachableInv(objs, wires, labels, s);
    var l := Left(|objs|, r);
    assert RankInv(objs, r, s.ranks[r]) && RankInv(objs, l, s.ranks[l]) && WireInv(objs, s, r);
  }

  /** No run is stuck before the end, and every run that gets to the end has exactly six steps
      for each of the `n * (n - 1)` exchanges: two messages to send, two to receive, two returns. */
  lemma RunsEnd(objs: seq<Obj>, wires: seq<Channel>, labels: seq<Label>, s: State)
    requires Reachable(objs, wires, labels, s)
    ensures Sane(s) && (Finished(s) || exists l :: Enabled(s, l))
    ensures |labels| <= 6 * (|objs| - 1) * |objs|
    ensures Finished(s) ==> |labels| == 6 * (|objs| - 1) * |objs|
  {
    ReachableInv(objs, wires, labels, s);
    WorkBounds(objs, s);
    SumBounds(Rests(Start(objs, wires)), 6 * (|objs| - 1));
    if !Finished(s) {
      var l := NeverStuck(objs, s);
    }
  }

  // ---------- The result ----------

  function Loaded(ary: seq<Option<Bytes>>): (objs: seq<Option<Obj>>)
    ensures |objs| == |ary|
  {
    seq(|ary|, k requires 0 <= k < |ary| => if ary[k].Some? then Load(ary[k].value) else None)
  }

  lemma FinishedArrays(objs: seq<Obj>, s: State, r: nat)
    requires Inv(objs, s) && r < |objs| && s.ranks[r].i >= |objs|
    ensures Loaded(s.ranks[r].ary) == Somes(objs)
  {
    var n, ary := |objs|, s.ranks[r].ary;
    assert RankInv(objs, r, s.ranks[r]);
    forall b | 0 <= b < n
      ensures ary[b].Some? && Load(ary[b].value) == Some(objs[b])
    {
      var k := if b <= r then r - b else r + n - b;
      assert Back(n, r, k) == b;
      LoadIgnoresPadding(objs[b], Zeros(k));
    }
  }

  /** When every rank has left its loop, all of them decode the same array, with the object of
      rank `b` at index `b`. */
  lemma EveryRankHasEverything(objs: seq<Obj>, wires: seq<Channel>, labels: seq<Label>, s: State, r: nat)
    requires Reachable(objs, wires, labels, s) && Finished(s) && r < |objs|
    ensures |s.ranks| == |objs| && Loaded(s.ranks[r].ary) == Somes(objs)
  {
    ReachableInv(objs, wires, labels, s);
    FinishedArrays(objs, s, r);
  }

  // ---------- The ring at work ----------

  /** The ranks and wires, updated in place. */
  class Ring {
    const ranks: array<Rank>
    const wires: array<Channel>

    ghost predicate Valid()
      reads this, ranks, wires
    {
      Sane(View())
    }

    ghost function View(): State
      reads this, ranks, wires
    {
      State(ranks[..], wires[..])
    }

    constructor (objs: seq<Obj>, traffic: seq<Channel>)
      requires |traffic| == |objs|
      ensures Valid() && fresh(ranks) && fresh(wires)
      ensures View() == Start(objs, traffic)
    {
      var s := Start(objs, traffic);
      ranks := new Rank[|objs|](r requires 0 <= r < |objs| => s.ranks[r]);
      wires := new Channel[|objs|](r requires 0 <= r < |objs| => traffic[r]);
      new;
      assert ranks[..] == s.ranks;
      assert wires[..] == s.wires;
    }

    /** The sending half of either `MPI_Sendrecv`. */
    method DoSend(r: nat)
      requires Valid() && Enabled(View(), Label(r, Send))
      modifies ranks, wires
      ensures Valid() && View() == Next(old(View()), Label(r, Send))
    {
      var me := ranks[r];
      match me.ary[me.j] {
        case None => ranks[r] := me.(broken := true);
        case Some(out) =>
          var payload := if me.phase == Sizes then Size(|out|) else Data(out + [0]);
          wires[r] := wires[r] + [Message(ALLGATHER_TAG, payload)];
          ranks[r] := me.(sent := true);
      }
    }

    /** The receiving half: take the first message of the ring's tag off the left wire. */
    method DoReceive(r: nat)
      requires Valid() && Enabled(View(), Label(r, Receive))
      modifies ranks, wires
      ensures Valid() && View() == Next(old(View()), Label(r, Receive))
    {
      var l := Left(ranks.Length, r);
      var at := FirstMatch(wires[l], Tag(ALLGATHER_TAG));
      ranks[r] := Accept(ranks[r], wires[l][at].payload);
      wires[l] := Without(wires[l], at);
    }

    /** What a rank does when `MPI_Sendrecv` returns: make room for the announced string, or
        store the string and turn to the next slot. */
    method DoAdvance(r: nat)
      requires Valid() && Enabled(View(), Label(r, Advance))
      modifies ranks
      ensures Valid() && View() == Next(old(View()), Label(r, Advance))
    {
      var me := ranks[r];
      if me.phase == Sizes {
        ranks[r] := me.(phase := Contents, sent := false, received := false);
      } else {
        ranks[r] := me.(phase := Sizes, sent := false, received := false,
                        ary := me.ary[me.jnext := Some(me.inbuf)],
                        j := me.jnext, jnext := Left(ranks.Length, me.jnext), i := me.i + 1);
      }
    }

    /** Some rank that can move moves; nothing is assumed about which. */
    method Step(ghost objs: seq<Obj>)
      requires Valid() && Inv(objs, View()) && !Finished(View())
      modifies ranks, wires
      ensures Valid() && Inv(objs, View())
      ensures Work(View()) == old(Work(View())) - 1
    {
      ghost var s := View();
      ghost var can := NeverStuck(objs, s);
      var r, a :| 0 <= r < ranks.Length && Enabled(State(ranks[..], wires[..]), Label(r, a));
      NextKeepsInv(objs, s, Label(r, a));
      NextDoesWork(objs, s, Label(r, a));
      match a {
        case Send => DoSend(r);
        case Receive => DoReceive(r);
        case Advance => DoAdvance(r);
      }
    }

    method RunToEnd(ghost objs: seq<Obj>)
      requires Valid() && Inv(objs, View())
      modifies ranks, wires
      ensures Valid() && Inv(objs, View()) && Finished(View())
    {
      WorkBounds(objs, View());
      while exists r :: 0 <= r < ranks.Length && ranks[r].i < ranks.Length
        invariant Valid() && Inv(objs, View())
        invariant Work(View()) >= 0
        decreases Work(View())
      {
        Step(objs);
        WorkBounds(objs, View());
      }
    }
  }

  /** All ranks call `allgather`, in whatever order their steps come. */
  method Allgather(objs: seq<Obj>, traffic: seq<Channel>) returns (results: seq<seq<Option<Obj>>>)
    requires |traffic| == |objs|
    requires forall r :: 0 <= r < |traffic| ==> OnTag(traffic[r], ALLGATHER_TAG) == []
    ensures |results| == |objs|
    ensures forall r :: 0 <= r < |results| ==> results[r] == Somes(objs)
  {
    var ring := new Ring(objs, traffic);
    StartInv(objs, traffic);
    ring.RunToEnd(objs);
    ghost var end := ring.View();
    results := [];
    for r := 0 to |objs|
      invariant |results| == r && ring.View() == end
      invariant forall q :: 0 <= q < r ==> results[q] == Somes(objs)
    {
      FinishedArrays(objs, ring.View(), r);
      results := results + [Loaded(ring.ranks[r].ary)];
    }
  }
}
