/** Any sequence of `comm_allgather`s, one after the other on the same tag.

A rank that has everything returns and may start its next call while its neighbours are still in
this one, so a wire may carry messages of several calls at once.  The proof keeps one ring of
`RingAllgather` for every call, a layer, and shows that the ranks' steps are steps of the layers:
what a wire holds is what the layers' wires hold, one after the other.
*/
module RingCalls {
  import opened Marshal
  import opened Transport
  import opened Sums
  import A = RingAllgather

  /** The program: in call `k` the ranks gather `objs[k]`. */
  datatype Plan = Plan(n: nat, objs: seq<seq<Obj>>)

  /** `local` is the rank inside its current call. */
  datatype Rank = Rank(call: nat, local: A.Rank, results: seq<seq<Option<Obj>>>)

  datatype State = State(ranks: seq<Rank>, wires: seq<Channel>)

  datatype Label =
    | Step(step: A.Label)                 // a step inside a call
    | Return(rank: nat)                   // a rank returns and makes its next call
    | UserSend(wire: nat, m: Message)     // the program's own messages, on other tags
    | UserTake(wire: nat, i: nat)

  ghost predicate PlanOk(p: Plan) {
    forall k :: 0 <= k < |p.objs| ==> |p.objs[k]| == p.n
  }

  /** A rank at the start of call `k`; after the last call it stays idle. */
  function Entered(p: Plan, r: nat, k: nat): A.Rank
    requires PlanOk(p) && r < p.n
  {
    if k < |p.objs| then A.Start(p.objs[k], seq(p.n, _ => [])).ranks[r]
    else A.Rank(p.n, r, r, A.Sizes, false, false, 0, [], seq(p.n, _ => None), false)
  }

  /** What the ranks are doing in their current calls, as one ring. */
  function Now(s: State): A.State {
    A.State(seq(|s.ranks|, r requires 0 <= r < |s.ranks| => s.ranks[r].local), s.wires)
  }

  ghost predicate Shape(p: Plan, s: State) {
    A.Sane(Now(s)) && |s.ranks| == p.n
  }

  ghost predicate Enabled(p: Plan, s: State, l: Label)
    requires Shape(p, s)
  {
    match l
    case Step(step) => step.rank < p.n && s.ranks[step.rank].call < |p.objs| && A.Enabled(Now(s), step)
    case Return(r) => r < p.n && s.ranks[r].call < |p.objs| && s.ranks[r].local.i >= p.n && !s.ranks[r].local.broken
    case UserSend(q, m) => q < p.n && m.tag != A.ALLGATHER_TAG
    case UserTake(q, i) => q < p.n && i < |s.wires[q]| && s.wires[q][i].tag != A.ALLGATHER_TAG
  }

  function Next(p: Plan, s: State, l: Label): State
    requires PlanOk(p) && Shape(p, s) && Enabled(p, s, l)
  {
    match l
    case Step(step) =>
      var t := A.Next(Now(s), step);
      State(s.ranks[step.rank := s.ranks[step.rank].(local := t.ranks[step.rank])], t.wires)
    case Return(r) =>
      var me := s.ranks[r];
      s.(ranks := s.ranks[r := Rank(me.call + 1, Entered(p, r, me.call + 1), me.results + [A.Loaded(me.local.ary)])])
    case UserSend(q, m) => s.(wires := s.wires[q := s.wires[q] + [m]])
    case UserTake(q, i) => s.(wires := s.wires[q := Without(s.wires[q], i)])
  }

  function Start(p: Plan): State
    requires PlanOk(p)
  {
    State(seq(p.n, r requires 0 <= r < p.n => Rank(0, Entered(p, r, 0), [])), seq(p.n, _ => []))
  }

  // ---------- Wires made of layers ----------

  function Flat(parts: seq<Channel>): Channel {
    if parts == [] then [] else parts[0] + Flat(parts[1..])
  }

  /** What is before part `k` is gone: a message taken off the whole is taken off part `k`. */
  lemma {:induction false} FlatTake(parts: seq<Channel>, k: nat, m: Message, rest: Channel)
    requires k < |parts| && parts[k] == [m] + rest
    requires forall j :: 0 <= j < k ==> parts[j] == []
    ensures Flat(parts) == [m] + Flat(parts[k := rest])
  {
    var after := parts[k := rest];
    if k == 0 {
      assert after[1..] == parts[1..];
      Assoc([m], rest, Flat(parts[1..]));
    } else {
      FlatTake(parts[1..], k - 1, m, rest);
      assert after[1..] == parts[1..][k - 1 := rest];
      assert parts[0] == [] && after[0] == [];
    }
  }

  /** What is behind part `k` has not begun: a message added to part `k` is added to the whole. */
  lemma {:induction false} FlatAdd(parts: seq<Channel>, k: nat, m: Message)
    requires k < |parts| && forall j :: k < j < |parts| ==> parts[j] == []
    ensures Flat(parts[k := parts[k] + [m]]) == Flat(parts) + [m]
  {
    var after := parts[k := parts[k] + [m]];
    if k == 0 {
      FlatEmpty(parts[1..]);
      assert after[1..] == parts[1..];
    } else {
      FlatAdd(parts[1..], k - 1, m);
      assert after[1..] == parts[1..][k - 1 := parts[k] + [m]];
      Assoc(parts[0], Flat(parts[1..]), [m]);
    }
  }

  lemma {:induction false} FlatEmpty(parts: seq<Channel>)
    requires forall j :: 0 <= j < |parts| ==> parts[j] == []
    ensures Flat(parts) == []
  {
    if parts != [] {
      FlatEmpty(parts[1..]);
    }
  }

  lemma {:induction false} FlatHas(parts: seq<Channel>, k: nat)
    requires k < |parts| && parts[k] != []
    ensures Flat(parts) != []
  {
    if k > 0 {
      FlatHas(parts[1..], k - 1);
    }
  }

  /** The ring's messages on wire `q`, layer by layer. */
  function Parts(layers: seq<A.State>, q: nat): (parts: seq<Channel>)
    requires forall k :: 0 <= k < |layers| ==> q < |layers[k].wires|
    ensures |parts| == |layers|
  {
    seq(|layers|, k requires 0 <= k < |layers| => OnTag(layers[k].wires[q], A.ALLGATHER_TAG))
  }

  // ---------- The invariant ----------

  /** Rank `r` as layer `k` sees it. */
  ghost predicate RankMatches(p: Plan, me: Rank, r: nat, k: nat, seen: A.Rank)
    requires PlanOk(p) && r < p.n && k < |p.objs|
  {
    && (k < me.call ==> seen.i >= p.n)
    && (k == me.call ==> seen == me.local)
    && (k > me.call ==> seen == Entered(p, r, k))
  }

  ghost predicate LayersOk(p: Plan, layers: seq<A.State>) {
    |layers| == |p.objs| && forall k :: 0 <= k < |layers| ==> A.Inv(p.objs[k], layers[k])
  }

  ghost predicate RanksMatch(p: Plan, layers: seq<A.State>, s: State)
    requires PlanOk(p) && LayersOk(p, layers) && |s.ranks| == p.n
  {
    forall r, k :: 0 <= r < p.n && 0 <= k < |layers| ==> RankMatches(p, s.ranks[r], r, k, layers[k].ranks[r])
  }

  ghost predicate WiresMatch(p: Plan, layers: seq<A.State>, s: State)
    requires PlanOk(p) && LayersOk(p, layers) && |s.wires| == p.n
  {
    forall q :: 0 <= q < p.n ==> OnTag(s.wires[q], A.ALLGATHER_TAG) == Flat(Parts(layers, q))
  }

  ghost predicate ResultsOk(p: Plan, me: Rank) {
    && me.call <= |p.objs| && |me.results| == me.call
    && forall k :: 0 <= k < me.call ==> me.results[k] == Somes(p.objs[k])
  }

  ghost predicate Matches(p: Plan, layers: seq<A.State>, s: State) {
    && PlanOk(p) && Shape(p, s) && LayersOk(p, layers)
    && RanksMatch(p, layers, s) && WiresMatch(p, layers, s)
    && forall r :: 0 <= r < p.n ==> ResultsOk(p, s.ranks[r])
  }

  // ---------- What the layers know about each other ----------

  /** A rank never sends or receives more than its call takes. */
  lemma CountsAreBounded(objs: seq<Obj>, r: nat, me: A.Rank)
    requires r < |objs| && A.RankInv(objs, r, me)
    ensures 0 <= A.SentCount(me) <= 2 * (|objs| - 1)
    ensures 0 <= A.ReceivedCount(me) <= 2 * (|objs| - 1)
    ensures me.i >= |objs| ==> A.SentCount(me) == A.ReceivedCount(me) == 2 * (|objs| - 1)
    ensures me.i < |objs| && !me.received ==> A.ReceivedCount(me) < 2 * (|objs| - 1)
  {
  }

  /** Once a rank is through with a layer, nothing of that layer is left for it. */
  lemma DoneIsEmpty(objs: seq<Obj>, s: A.State, r: nat)
    requires A.Inv(objs, s) && r < |objs| && s.ranks[r].i >= |objs|
    ensures OnTag(s.wires[A.Left(|objs|, r)], A.ALLGATHER_TAG) == []
  {
    var l := A.Left(|objs|, r);
    assert A.WireInv(objs, s, r) && A.RankInv(objs, r, s.ranks[r]) && A.RankInv(objs, l, s.ranks[l]);
    CountsAreBounded(objs, r, s.ranks[r]);
    CountsAreBounded(objs, l, s.ranks[l]);
  }

  /** Before a rank has begun with a layer, nothing of that layer comes from it. */
  lemma UnbegunIsEmpty(objs: seq<Obj>, s: A.State, q: nat)
    requires A.Inv(objs, s) && q < |objs|
    requires A.SentCount(s.ranks[A.Left(|objs|, q)]) == 0
    ensures OnTag(s.wires[A.Left(|objs|, q)], A.ALLGATHER_TAG) == []
  {
    assert A.WireInv(objs, s, q) && A.RankInv(objs, q, s.ranks[q]);
  }

  /** A rank that wants more from a neighbour who is through with the layer finds it. */
  lemma LeftoversAreThere(objs: seq<Obj>, s: A.State, r: nat)
    requires A.Inv(objs, s) && r < |objs| && s.ranks[r].i < |objs| && !s.ranks[r].received
    requires s.ranks[A.Left(|objs|, r)].i >= |objs|
    ensures OnTag(s.wires[A.Left(|objs|, r)], A.ALLGATHER_TAG) != []
  {
    var l := A.Left(|objs|, r);
    assert A.WireInv(objs, s, r) && A.RankInv(objs, r, s.ranks[r]) && A.RankInv(objs, l, s.ranks[l]);
    CountsAreBounded(objs, r, s.ranks[r]);
    CountsAreBounded(objs, l, s.ranks[l]);
  }

  lemma EnteredHasSentNothing(p: Plan, r: nat, k: nat)
    requires PlanOk(p) && r < p.n && k < |p.objs|
    ensures A.SentCount(Entered(p, r, k)) == 0
  {
  }

  /** Parts of earlier calls on the wire a rank receives from are gone. */
  lemma EarlierPartsAreGone(p: Plan, layers: seq<A.State>, s: State, r: nat, j: nat)
    requires Matches(p, layers, s) && r < p.n && j < |layers| && j < s.ranks[r].call
    ensures Parts(layers, A.Left(p.n, r))[j] == []
  {
    assert RankMatches(p, s.ranks[r], r, j, layers[j].ranks[r]);
    DoneIsEmpty(p.objs[j], layers[j], r);
  }

  /** Parts of later calls on the wire a rank sends to have not begun. */
  lemma LaterPartsAreUnbegun(p: Plan, layers: seq<A.State>, s: State, r: nat, j: nat)
    requires Matches(p, layers, s) && r < p.n && s.ranks[r].call < j < |layers|
    ensures Parts(layers, r)[j] == []
  {
    var q := A.Right(p.n, r);
    assert RankMatches(p, s.ranks[r], r, j, layers[j].ranks[r]);
    EnteredHasSentNothing(p, r, j);
    A.LeftOfRight(p.n, r);
    UnbegunIsEmpty(p.objs[j], layers[j], q);
  }

  /** If there is anything on the wire for a rank that is waiting, it is of the rank's own call. */
  lemma FirstPartIsMine(p: Plan, layers: seq<A.State>, s: State, r: nat)
    requires Matches(p, layers, s) && r < p.n && s.ranks[r].call < |layers|
    requires s.ranks[r].local.i < p.n && !s.ranks[r].local.received
    ensures Parts(layers, A.Left(p.n, r))[s.ranks[r].call] != []
       <==> OnTag(s.wires[A.Left(p.n, r)], A.ALLGATHER_TAG) != []
  {
    var l, k := A.Left(p.n, r), s.ranks[r].call;
    var parts := Parts(layers, l);
    if parts[k] != [] {
      FlatHas(parts, k);
    } else {
      forall j | 0 <= j < |parts|
        ensures parts[j] == []
      {
        if j < k {
          EarlierPartsAreGone(p, layers, s, r, j);
        } else if j > k {
          NothingOvertakes(p, layers, s, r, j);
        }
      }
      FlatEmpty(parts);
    }
  }

  /** A neighbour that is ahead has left everything of this call on the wire. */
  lemma NothingOvertakes(p: Plan, layers: seq<A.State>, s: State, r: nat, j: nat)
    requires Matches(p, layers, s) && r < p.n && s.ranks[r].call < j < |layers|
    requires s.ranks[r].local.i < p.n && !s.ranks[r].local.received
    requires Parts(layers, A.Left(p.n, r))[s.ranks[r].call] == []
    ensures Parts(layers, A.Left(p.n, r))[j] == []
  {
    var l, k := A.Left(p.n, r), s.ranks[r].call;
    assert RankMatches(p, s.ranks[r], r, k, layers[k].ranks[r]);
    if s.ranks[l].call > k {
      assert RankMatches(p, s.ranks[l], l, k, layers[k].ranks[l]);
      LeftoversAreThere(p.objs[k], layers[k], r);
      assert false;
    }
    LaterPartsAreUnbegun(p, layers, s, l, j);
  }

  // ---------- A step inside a call is a step of its layer ----------

  lemma StepIsEnabled(p: Plan, layers: seq<A.State>, s: State, l: A.Label)
    requires Matches(p, layers, s) && l.rank < p.n && s.ranks[l.rank].call < |layers|
    ensures A.Enabled(Now(s), l) <==> A.Enabled(layers[s.ranks[l.rank].call], l)
  {
    var r, k := l.rank, s.ranks[l.rank].call;
    assert RankMatches(p, s.ranks[r], r, k, layers[k].ranks[r]);
    if l.action == A.Receive && s.ranks[r].local.i < p.n && !s.ranks[r].local.received {
      FirstPartIsMine(p, layers, s, r);
      NothingOnTag(s.wires[A.Left(p.n, r)], A.ALLGATHER_TAG);
      NothingOnTag(layers[k].wires[A.Left(p.n, r)], A.ALLGATHER_TAG);
    }
  }

  /** The layers after a step inside a call. */
  function Stepped(p: Plan, layers: seq<A.State>, s: State, l: A.Label): seq<A.State>
    requires l.rank < |s.ranks| && s.ranks[l.rank].call < |layers|
    requires A.Sane(layers[s.ranks[l.rank].call]) && A.Enabled(layers[s.ranks[l.rank].call], l)
  {
    layers[s.ranks[l.rank].call := A.Next(layers[s.ranks[l.rank].call], l)]
  }

  lemma SameHead(m: Message, a: Channel, m': Message, b: Channel)
    requires [m] + a == [m'] + b
    ensures m == m' && a == b
  {
    assert ([m] + a)[0] == m && ([m'] + b)[0] == m';
    assert ([m] + a)[1..] == a && ([m'] + b)[1..] == b;
  }

  /** The message a rank receives is the one its layer gives it. */
  lemma SameMessage(p: Plan, layers: seq<A.State>, s: State, r: nat)
    requires Matches(p, layers, s) && r < p.n && s.ranks[r].call < |layers|
    requires A.Enabled(Now(s), A.Label(r, A.Receive)) && A.Enabled(layers[s.ranks[r].call], A.Label(r, A.Receive))
    ensures var q, layer := A.Left(p.n, r), layers[s.ranks[r].call];
            var at, at' := FirstMatch(s.wires[q], Tag(A.ALLGATHER_TAG)), FirstMatch(layer.wires[q], Tag(A.ALLGATHER_TAG));
            && s.wires[q][at] == layer.wires[q][at']
            && OnTag(Without(s.wires[q], at), A.ALLGATHER_TAG)
               == Flat(Parts(layers, q)[s.ranks[r].call := OnTag(Without(layer.wires[q], at'), A.ALLGATHER_TAG)])
  {
    var q, k := A.Left(p.n, r), s.ranks[r].call;
    var parts, layer := Parts(layers, q), layers[k];
    var at := FirstMatch(layer.wires[q], Tag(A.ALLGATHER_TAG));
    forall j | 0 <= j < k
      ensures parts[j] == []
    {
      EarlierPartsAreGone(p, layers, s, r, j);
    }
    ReceiveOnTag(s.wires[q], A.ALLGATHER_TAG);
    ReceiveOnTag(layer.wires[q], A.ALLGATHER_TAG);
    var rest := OnTag(Without(layer.wires[q], at), A.ALLGATHER_TAG);
    FlatTake(parts, k, layer.wires[q][at], rest);
    var here := FirstMatch(s.wires[q], Tag(A.ALLGATHER_TAG));
    SameHead(s.wires[q][here], OnTag(Without(s.wires[q], here), A.ALLGATHER_TAG), layer.wires[q][at], Flat(parts[k := rest]));
  }

  /** The rank that steps ends up the same in its layer. */
  lemma SameLocal(p: Plan, layers: seq<A.State>, s: State, l: A.Label)
    requires Matches(p, layers, s) && l.rank < p.n && s.ranks[l.rank].call < |layers|
    requires A.Enabled(Now(s), l) && A.Enabled(layers[s.ranks[l.rank].call], l)
    ensures A.Next(Now(s), l).ranks[l.rank] == A.Next(layers[s.ranks[l.rank].call], l).ranks[l.rank]
  {
    var r, k := l.rank, s.ranks[l.rank].call;
    assert RankMatches(p, s.ranks[r], r, k, layers[k].ranks[r]);
    if l.action == A.Receive {
      SameMessage(p, layers, s, r);
    }
  }

  lemma StepKeepsLayers(p: Plan, layers: seq<A.State>, s: State, l: A.Label)
    requires Matches(p, layers, s) && Enabled(p, s, Step(l))
    ensures A.Enabled(layers[s.ranks[l.rank].call], l)
    ensures LayersOk(p, Stepped(p, layers, s, l))
  {
    StepIsEnabled(p, layers, s, l);
    A.NextKeepsInv(p.objs[s.ranks[l.rank].call], layers[s.ranks[l.rank].call], l);
  }

  lemma StepKeepsRanks(p: Plan, layers: seq<A.State>, s: State, l: A.Label)
    requires Matches(p, layers, s) && Enabled(p, s, Step(l))
    requires A.Enabled(layers[s.ranks[l.rank].call], l) && LayersOk(p, Stepped(p, layers, s, l))
    ensures RanksMatch(p, Stepped(p, layers, s, l), Next(p, s, Step(l)))
  {
    var r, k := l.rank, s.ranks[l.rank].call;
    SameLocal(p, layers, s, l);
    A.OneRankMoves(layers[k], l);
  }

  lemma PartsUpdate(p: Plan, layers: seq<A.State>, k: nat, x: A.State, q: nat)
    requires PlanOk(p) && LayersOk(p, layers) && k < |layers| && LayersOk(p, layers[k := x])
    requires q < p.n && q < |x.wires|
    ensures Parts(layers[k := x], q) == Parts(layers, q)[k := OnTag(x.wires[q], A.ALLGATHER_TAG)]
  {
  }

  /** A message put on the wire to the right goes to the end of the rank's own part. */
  lemma PartGrows(p: Plan, layers: seq<A.State>, s: State, r: nat, m: Message)
    requires Matches(p, layers, s) && r < p.n && s.ranks[r].call < |layers| && m.tag == A.ALLGATHER_TAG
    ensures OnTag(s.wires[r] + [m], A.ALLGATHER_TAG)
         == Flat(Parts(layers, r)[s.ranks[r].call := OnTag(layers[s.ranks[r].call].wires[r] + [m], A.ALLGATHER_TAG)])
  {
    var k := s.ranks[r].call;
    OnTagSend(s.wires[r], m, A.ALLGATHER_TAG);
    OnTagSend(layers[k].wires[r], m, A.ALLGATHER_TAG);
    forall j | k < j < |layers|
      ensures Parts(layers, r)[j] == []
    {
      LaterPartsAreUnbegun(p, layers, s, r, j);
    }
    FlatAdd(Parts(layers, r), k, m);
  }

  /** Sending: the wire to the right grows at the end of the rank's own part. */
  lemma SendKeepsWires(p: Plan, layers: seq<A.State>, s: State, r: nat)
    requires Matches(p, layers, s) && Enabled(p, s, Step(A.Label(r, A.Send)))
    requires A.Enabled(layers[s.ranks[r].call], A.Label(r, A.Send))
    requires LayersOk(p, Stepped(p, layers, s, A.Label(r, A.Send)))
    ensures WiresMatch(p, Stepped(p, layers, s, A.Label(r, A.Send)), Next(p, s, Step(A.Label(r, A.Send))))
  {
    var k, me := s.ranks[r].call, s.ranks[r].local;
    assert RankMatches(p, s.ranks[r], r, k, layers[k].ranks[r]);
    PartGrows(p, layers, s, r, Message(A.ALLGATHER_TAG, A.Outgoing(me)));
    OneWire(p, layers, s, k, A.Next(layers[k], A.Label(r, A.Send)), r, Next(p, s, Step(A.Label(r, A.Send))));
  }

  /** Receiving: the wire from the left shrinks at the front of the rank's own part. */
  lemma ReceiveKeepsWires(p: Plan, layers: seq<A.State>, s: State, r: nat)
    requires Matches(p, layers, s) && Enabled(p, s, Step(A.Label(r, A.Receive)))
    requires A.Enabled(layers[s.ranks[r].call], A.Label(r, A.Receive))
    requires LayersOk(p, Stepped(p, layers, s, A.Label(r, A.Receive)))
    ensures WiresMatch(p, Stepped(p, layers, s, A.Label(r, A.Receive)), Next(p, s, Step(A.Label(r, A.Receive))))
  {
    var k := s.ranks[r].call;
    SameMessage(p, layers, s, r);
    OneWire(p, layers, s, k, A.Next(layers[k], A.Label(r, A.Receive)), A.Left(p.n, r),
            Next(p, s, Step(A.Label(r, A.Receive))));
  }

  /** One layer and one wire change. */
  lemma OneWire(p: Plan, layers: seq<A.State>, s: State, k: nat, layer: A.State, q: nat, t: State)
    requires Matches(p, layers, s) && k < |layers| && LayersOk(p, layers[k := layer])
    requires |t.wires| == |layer.wires| == p.n && q < p.n
    requires forall w :: 0 <= w < p.n && w != q ==> t.wires[w] == s.wires[w] && layer.wires[w] == layers[k].wires[w]
    requires OnTag(t.wires[q], A.ALLGATHER_TAG)
          == Flat(Parts(layers, q)[k := OnTag(layer.wires[q], A.ALLGATHER_TAG)])
    ensures WiresMatch(p, layers[k := layer], t)
  {
    forall w | 0 <= w < p.n
      ensures OnTag(t.wires[w], A.ALLGATHER_TAG) == Flat(Parts(layers[k := layer], w))
    {
      PartsUpdate(p, layers, k, layer, w);
      if w != q {
        assert Parts(layers, w)[k := OnTag(layer.wires[w], A.ALLGATHER_TAG)] == Parts(layers, w);
      }
    }
  }

  lemma AdvanceKeepsWires(p: Plan, layers: seq<A.State>, s: State, r: nat)
    requires Matches(p, layers, s) && Enabled(p, s, Step(A.Label(r, A.Advance)))
    requires A.Enabled(layers[s.ranks[r].call], A.Label(r, A.Advance))
    requires LayersOk(p, Stepped(p, layers, s, A.Label(r, A.Advance)))
    ensures WiresMatch(p, Stepped(p, layers, s, A.Label(r, A.Advance)), Next(p, s, Step(A.Label(r, A.Advance))))
  {
    var k := s.ranks[r].call;
    var layer := A.Next(layers[k], A.Label(r, A.Advance));
    assert Parts(layers, r)[k := OnTag(layer.wires[r], A.ALLGATHER_TAG)] == Parts(layers, r);
    OneWire(p, layers, s, k, layer, r, Next(p, s, Step(A.Label(r, A.Advance))));
  }

  lemma StepKeepsShape(p: Plan, s: State, l: A.Label)
    requires PlanOk(p) && Shape(p, s) && Enabled(p, s, Step(l))
    ensures Shape(p, Next(p, s, Step(l)))
  {
    var t := Next(p, s, Step(l));
    assert Now(t).ranks == A.Next(Now(s), l).ranks;
  }

  lemma StepMatches(p: Plan, layers: seq<A.State>, s: State, l: A.Label)
    requires Matches(p, layers, s) && Enabled(p, s, Step(l))
    ensures A.Enabled(layers[s.ranks[l.rank].call], l)
    ensures Matches(p, Stepped(p, layers, s, l), Next(p, s, Step(l)))
  {
    StepKeepsLayers(p, layers, s, l);
    StepKeepsRanks(p, layers, s, l);
    StepKeepsShape(p, s, l);
    assert l == A.Label(l.rank, l.action);
    match l.action
    case Send => SendKeepsWires(p, layers, s, l.rank);
    case Receive => ReceiveKeepsWires(p, layers, s, l.rank);
    case Advance => AdvanceKeepsWires(p, layers, s, l.rank);
  }

  // ---------- Returns, and the program's own messages ----------

  lemma ReturnKeepsShape(p: Plan, s: State, r: nat)
    requires PlanOk(p) && Shape(p, s) && Enabled(p, s, Return(r))
    ensures Shape(p, Next(p, s, Return(r)))
  {
    var me := Entered(p, r, s.ranks[r].call + 1);
    assert |me.ary| == p.n && me.j < p.n && me.jnext < p.n;
    assert Now(Next(p, s, Return(r))).ranks == Now(s).ranks[r := me];
  }

  /** A call that returns returns every rank's object. */
  lemma ReturnsAll(p: Plan, layers: seq<A.State>, s: State, r: nat)
    requires Matches(p, layers, s) && Enabled(p, s, Return(r))
    ensures A.Loaded(s.ranks[r].local.ary) == Somes(p.objs[s.ranks[r].call])
  {
    var k := s.ranks[r].call;
    assert RankMatches(p, s.ranks[r], r, k, layers[k].ranks[r]);
    A.FinishedArrays(p.objs[k], layers[k], r);
  }

  lemma ReturnMatches(p: Plan, layers: seq<A.State>, s: State, r: nat)
    requires Matches(p, layers, s) && Enabled(p, s, Return(r))
    ensures Matches(p, layers, Next(p, s, Return(r)))
  {
    ReturnKeepsShape(p, s, r);
    ReturnsAll(p, layers, s, r);
    assert ResultsOk(p, s.ranks[r]);
  }

  lemma UserMatches(p: Plan, layers: seq<A.State>, s: State, l: Label)
    requires Matches(p, layers, s) && Enabled(p, s, l) && (l.UserSend? || l.UserTake?)
    ensures Matches(p, layers, Next(p, s, l))
  {
    match l
    case UserSend(q, m) => OnTagSend(s.wires[q], m, A.ALLGATHER_TAG);
    case UserTake(q, i) => WithoutOnTag(s.wires[q], i, A.ALLGATHER_TAG);
  }

  function FirstLayers(p: Plan): seq<A.State>
    requires PlanOk(p)
  {
    seq(|p.objs|, k requires 0 <= k < |p.objs| => A.Start(p.objs[k], seq(p.n, _ => [])))
  }

  lemma StartMatches(p: Plan)
    requires PlanOk(p)
    ensures Matches(p, FirstLayers(p), Start(p))
  {
    var layers, s := FirstLayers(p), Start(p);
    forall k | 0 <= k < |layers|
      ensures A.Inv(p.objs[k], layers[k])
    {
      A.StartInv(p.objs[k], seq(p.n, _ => []));
    }
    forall q | 0 <= q < p.n
      ensures OnTag(s.wires[q], A.ALLGATHER_TAG) == Flat(Parts(layers, q))
    {
      FlatEmpty(Parts(layers, q));
    }
  }

  // ---------- Work ----------

  predicate OfRing(l: Label) {
    l.Step? || l.Return?
  }

  ghost function LayerWork(layers: seq<A.State>): (work: seq<int>)
    ensures |work| == |layers|
  {
    seq(|layers|, k requires 0 <= k < |layers| => A.Work(layers[k]))
  }

  ghost function CallsLeft(p: Plan, s: State): (left: seq<int>)
    ensures |left| == |s.ranks|
  {
    seq(|s.ranks|, r requires 0 <= r < |s.ranks| => |p.objs| - s.ranks[r].call)
  }

  /** The steps still to take: those left in the layers, and the returns. */
  ghost function Work(p: Plan, layers: seq<A.State>, s: State): int {
    Sum(LayerWork(layers)) + Sum(CallsLeft(p, s))
  }

  lemma StepDoesWork(p: Plan, layers: seq<A.State>, s: State, l: A.Label)
    requires Matches(p, layers, s) && Enabled(p, s, Step(l)) && A.Enabled(layers[s.ranks[l.rank].call], l)
    ensures Work(p, Stepped(p, layers, s, l), Next(p, s, Step(l))) == Work(p, layers, s) - 1
  {
    var k := s.ranks[l.rank].call;
    A.NextDoesWork(p.objs[k], layers[k], l);
    OneLayerWorks(layers, k, A.Next(layers[k], l));
    StepKeepsCalls(p, s, l);
  }

  lemma OneLayerWorks(layers: seq<A.State>, k: nat, layer: A.State)
    requires k < |layers|
    ensures Sum(LayerWork(layers[k := layer])) == Sum(LayerWork(layers)) - A.Work(layers[k]) + A.Work(layer)
  {
    assert LayerWork(layers[k := layer]) == LayerWork(layers)[k := A.Work(layer)];
    SumUpdate(LayerWork(layers), k, A.Work(layer));
  }

  lemma StepKeepsCalls(p: Plan, s: State, l: A.Label)
    requires PlanOk(p) && Shape(p, s) && Enabled(p, s, Step(l))
    ensures CallsLeft(p, Next(p, s, Step(l))) == CallsLeft(p, s)
  {
  }

  lemma ReturnDoesWork(p: Plan, layers: seq<A.State>, s: State, r: nat)
    requires Matches(p, layers, s) && Enabled(p, s, Return(r))
    ensures Work(p, layers, Next(p, s, Return(r))) == Work(p, layers, s) - 1
  {
    OneCallLess(p, s, r);
    SumUpdate(CallsLeft(p, s), r, CallsLeft(p, s)[r] - 1);
  }

  lemma OneCallLess(p: Plan, s: State, r: nat)
    requires PlanOk(p) && Shape(p, s) && Enabled(p, s, Return(r))
    ensures CallsLeft(p, Next(p, s, Return(r))) == CallsLeft(p, s)[r := CallsLeft(p, s)[r] - 1]
  {
  }

  lemma WorkIsPositive(p: Plan, layers: seq<A.State>, s: State)
    requires Matches(p, layers, s)
    ensures Work(p, layers, s) >= 0
    ensures Finished(p, s) ==> Work(p, layers, s) == 0
  {
    forall k | 0 <= k < |layers|
      ensures LayerWork(layers)[k] >= 0 && (Finished(p, s) ==> LayerWork(layers)[k] == 0)
    {
      LayerRest(p, layers, s, k);
    }
    forall r | 0 <= r < p.n
      ensures CallsLeft(p, s)[r] >= 0
    {
      assert ResultsOk(p, s.ranks[r]);
    }
    SumBounds(LayerWork(layers), 0);
    SumBounds(CallsLeft(p, s), 0);
  }

  lemma LayerRest(p: Plan, layers: seq<A.State>, s: State, k: nat)
    requires Matches(p, layers, s) && k < |layers|
    ensures A.Work(layers[k]) >= 0 && (Finished(p, s) ==> A.Work(layers[k]) == 0)
  {
    A.WorkBounds(p.objs[k], layers[k]);
    if Finished(p, s) {
      forall r | 0 <= r < p.n
        ensures layers[k].ranks[r].i >= p.n
      {
        assert RankMatches(p, s.ranks[r], r, k, layers[k].ranks[r]);
      }
    }
  }

  // ---------- Whole runs ----------

  predicate Finished(p: Plan, s: State) {
    forall r :: 0 <= r < |s.ranks| ==> s.ranks[r].call >= |p.objs|
  }

  ghost predicate Run(p: Plan, s: State, labels: seq<Label>, t: State)
    requires PlanOk(p)
    decreases |labels|
  {
    if labels == [] then s == t
    else Shape(p, s) && Enabled(p, s, labels[0]) && Run(p, Next(p, s, labels[0]), labels[1..], t)
  }

  ghost predicate Reachable(p: Plan, labels: seq<Label>, s: State) {
    PlanOk(p) && Run(p, Start(p), labels, s)
  }

  function RingSteps(labels: seq<Label>): nat {
    if labels == [] then 0 else (if OfRing(labels[0]) then 1 else 0) + RingSteps(labels[1..])
  }

  lemma NextMatches(p: Plan, layers: seq<A.State>, s: State, l: Label) returns (layers': seq<A.State>)
    requires Matches(p, layers, s) && Enabled(p, s, l)
    ensures Matches(p, layers', Next(p, s, l))
    ensures Work(p, layers', Next(p, s, l)) == Work(p, layers, s) - if OfRing(l) then 1 else 0
  {
    layers' := layers;
    match l
    case Step(step) =>
      StepMatches(p, layers, s, step);
      StepDoesWork(p, layers, s, step);
      layers' := Stepped(p, layers, s, step);
    case Return(r) =>
      ReturnMatches(p, layers, s, r);
      ReturnDoesWork(p, layers, s, r);
    case _ =>
      UserMatches(p, layers, s, l);
  }

  lemma {:induction false} RunMatches(p: Plan, layers: seq<A.State>, s: State, labels: seq<Label>, t: State)
    returns (layers': seq<A.State>)
    requires Matches(p, layers, s) && Run(p, s, labels, t)
    ensures Matches(p, layers', t)
    ensures Work(p, layers', t) + RingSteps(labels) == Work(p, layers, s)
    decreases |labels|
  {
    if labels == [] {
      layers' := layers;
    } else {
      var next := NextMatches(p, layers, s, labels[0]);
      layers' := RunMatches(p, next, Next(p, s, labels[0]), labels[1..], t);
    }
  }

  /** However far the ranks run ahead of each other, call `k` returns exactly the objects of call
      `k`, each at its rank's index, and nothing ever arrives that does not fit. */
  lemma CallsDoNotMix(p: Plan, labels: seq<Label>, s: State, r: nat, k: nat)
    requires Reachable(p, labels, s) && r < p.n == |s.ranks| && k < |s.ranks[r].results|
    ensures k < |p.objs| && s.ranks[r].results[k] == Somes(p.objs[k])
  {
    StartMatches(p);
    var layers := RunMatches(p, FirstLayers(p), Start(p), labels, s);
    assert ResultsOk(p, s.ranks[r]);
  }

  lemma NothingBreaks(p: Plan, labels: seq<Label>, s: State, r: nat)
    requires Reachable(p, labels, s) && r < p.n
    ensures |s.ranks| == p.n && (s.ranks[r].call < |p.objs| ==> !s.ranks[r].local.broken)
  {
    StartMatches(p);
    var layers := RunMatches(p, FirstLayers(p), Start(p), labels, s);
    var k := s.ranks[r].call;
    if k < |p.objs| {
      assert RankMatches(p, s.ranks[r], r, k, layers[k].ranks[r]);
      assert A.RankInv(p.objs[k], r, layers[k].ranks[r]);
    }
  }

  // ---------- Nobody waits for ever ----------

  function Slowest(ranks: seq<Rank>): (m: nat)
    requires ranks != []
    ensures m < |ranks| && forall r :: 0 <= r < |ranks| ==> ranks[m].call <= ranks[r].call
  {
    if |ranks| == 1 then 0
    else
      var m := Slowest(ranks[..|ranks| - 1]);
      if ranks[|ranks| - 1].call < ranks[m].call then |ranks| - 1 else m
  }

  /** A step the slowest call's ring can take is one the ranks can take. */
  lemma SlowestLayerMoves(p: Plan, layers: seq<A.State>, s: State, l: A.Label, k: nat)
    requires Matches(p, layers, s) && k < |layers| && A.Enabled(layers[k], l)
    requires forall r :: 0 <= r < p.n ==> k <= s.ranks[r].call
    ensures Enabled(p, s, Step(l))
  {
    var r := l.rank;
    assert RankMatches(p, s.ranks[r], r, k, layers[k].ranks[r]);
    assert A.RankInv(p.objs[k], r, layers[k].ranks[r]);
    StepIsEnabled(p, layers, s, l);
  }

  lemma SomebodyMoves(p: Plan, layers: seq<A.State>, s: State) returns (l: Label)
    requires Matches(p, layers, s) && !Finished(p, s)
    ensures Enabled(p, s, l) && OfRing(l)
  {
    var m := Slowest(s.ranks);
    var k := s.ranks[m].call;
    if A.Finished(layers[k]) {
      assert RankMatches(p, s.ranks[m], m, k, layers[k].ranks[m]);
      assert A.RankInv(p.objs[k], m, layers[k].ranks[m]);
      l := Return(m);
    } else {
      var step := A.NeverStuck(p.objs[k], layers[k]);
      SlowestLayerMoves(p, layers, s, step, k);
      l := Step(step);
    }
  }

  /** No run of any sequence of calls is stuck before the end or goes on for ever, and all take the
      same number of steps: six for each exchange of each call, and the returns. */
  lemma RunsEnd(p: Plan, labels: seq<Label>, s: State)
    requires Reachable(p, labels, s)
    ensures Shape(p, s) && (Finished(p, s) || exists l :: Enabled(p, s, l) && OfRing(l))
    ensures RingSteps(labels) <= StepsOf(p.n, |p.objs|)
    ensures Finished(p, s) ==> RingSteps(labels) == StepsOf(p.n, |p.objs|)
  {
    StartMatches(p);
    var layers := RunMatches(p, FirstLayers(p), Start(p), labels, s);
    WorkIsPositive(p, layers, s);
    StartWork(p);
    if !Finished(p, s) {
      var l := SomebodyMoves(p, layers, s);
    }
  }

  /** The steps of `k` calls on `n` ranks. */
  function StepsOf(n: nat, k: nat): int {
    if k == 0 then 0 else StepsOf(n, k - 1) + 6 * (n - 1) * n + n
  }

  lemma {:induction false} StepsAre(n: nat, x: int, k: nat)
    requires x == 6 * (n - 1) * n
    ensures StepsOf(n, k) == x * k + k * n
  {
    if k > 0 {
      StepsAre(n, x, k - 1);
      assert x * (k - 1) == x * k - x && (k - 1) * n == k * n - n;
    }
  }

  lemma LayersToGo(p: Plan)
    requires PlanOk(p)
    ensures Sum(LayerWork(FirstLayers(p))) == 6 * (p.n - 1) * p.n * |p.objs|
  {
    var layers := FirstLayers(p);
    forall k | 0 <= k < |layers|
      ensures LayerWork(layers)[k] == 6 * (p.n - 1) * p.n
    {
      SumBounds(A.Rests(layers[k]), 6 * (p.n - 1));
    }
    SumBounds(LayerWork(layers), 6 * (p.n - 1) * p.n);
  }

  lemma StartWork(p: Plan)
    requires PlanOk(p)
    ensures Work(p, FirstLayers(p), Start(p)) == StepsOf(p.n, |p.objs|)
  {
    LayersToGo(p);
    SumBounds(CallsLeft(p, Start(p)), |p.objs|);
    StepsAre(p.n, 6 * (p.n - 1) * p.n, |p.objs|);
  }
}
