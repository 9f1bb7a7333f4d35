/** `comm_gather`: any sequence of gathers, with any roots, on one shared tag.

A rank that is not the root posts its length and its bytes and goes on to the next gather at
once; the root takes them rank by rank.  Fast ranks run ahead, so a channel may hold the parts
of several rounds, besides whatever the program sends on other tags.
*/
module Gather {
  import opened Marshal
  import opened Transport
  import opened Frames
  import opened Sums

  const GATHER_TAG: nat := 42

  /** The program: in round `k` the ranks gather `objs[k]` at `roots[k]`. */
  datatype Plan = Plan(n: nat, roots: seq<nat>, objs: seq<seq<Obj>>)

  ghost predicate PlanOk(p: Plan) {
    && |p.objs| == |p.roots|
    && (forall k :: 0 <= k < |p.roots| ==> p.roots[k] < p.n)
    && (forall k :: 0 <= k < |p.objs| ==> |p.objs[k]| == p.n)
  }

  /** Where a rank is.  For the root of the current round `at` is the loop counter and `half`
      says that the length from that rank has come; for the others `half` counts posted parts. */
  datatype Rank = Rank(round: nat, at: nat, half: nat, length: nat, ary: seq<Option<Obj>>,
                       results: seq<seq<Option<Obj>>>, broken: bool)

  /** `chans[s][d]` is the channel from rank `s` to rank `d`. */
  datatype State = State(ranks: seq<Rank>, chans: seq<seq<Channel>>)

  datatype Label =
    | Post(rank: nat)                       // a sender posts the next part
    | Return(rank: nat)                     // a sender is through with its round
    | Skip(rank: nat)                       // the root passes its own number
    | Take(rank: nat)                       // the root receives the next part
    | Finish(rank: nat)                     // the root has everybody's object
    | UserSend(src: nat, dst: nat, m: Message)
    | UserTake(src: nat, dst: nat, i: nat)

  predicate Square(p: Plan, s: State) {
    |s.ranks| == p.n && |s.chans| == p.n && forall r :: 0 <= r < p.n ==> |s.chans[r]| == p.n
  }

  predicate IsRoot(p: Plan, s: State, r: nat)
    requires r < |s.ranks|
  {
    s.ranks[r].round < |p.roots| && p.roots[s.ranks[r].round] == r
  }

  predicate IsSender(p: Plan, s: State, r: nat)
    requires r < |s.ranks|
  {
    s.ranks[r].round < |p.roots| && p.roots[s.ranks[r].round] != r
  }

  predicate Enabled(p: Plan, s: State, l: Label)
    requires PlanOk(p) && Square(p, s)
  {
    match l
    case Post(r) => r < p.n && IsSender(p, s, r) && s.ranks[r].half < 2
    case Return(r) => r < p.n && IsSender(p, s, r) && s.ranks[r].half == 2
    case Skip(r) => r < p.n && IsRoot(p, s, r) && s.ranks[r].at == r
    case Take(r) =>
      && r < p.n && IsRoot(p, s, r) && s.ranks[r].at != r && s.ranks[r].at < p.n
      && !s.ranks[r].broken
      && FirstMatch(s.chans[s.ranks[r].at][r], Tag(GATHER_TAG)) < |s.chans[s.ranks[r].at][r]|
    case Finish(r) => r < p.n && IsRoot(p, s, r) && s.ranks[r].at >= p.n
    case UserSend(a, b, m) => a < p.n && b < p.n && m.tag != GATHER_TAG
    case UserTake(a, b, i) =>
      a < p.n && b < p.n && i < |s.chans[a][b]| && s.chans[a][b][i].tag != GATHER_TAG
  }

  function PartOf(x: Obj, half: nat): Message {
    if half == 0 then SizePart(Sent(GATHER_TAG, x)) else DataPart(Sent(GATHER_TAG, x))
  }

  /** A rank enters round `k`; a root stores its own object first. */
  function Entered(p: Plan, r: nat, k: nat, results: seq<seq<Option<Obj>>>): Rank
    requires PlanOk(p) && r < p.n
  {
    var blank := seq(p.n, _ => None);
    Rank(k, 0, 0, 0,
         if k < |p.roots| && p.roots[k] == r then blank[r := Some(p.objs[k][r])] else blank,
         results, false)
  }

  function Taken(me: Rank, payload: Payload): Rank
    requires me.at < |me.ary|
  {
    match payload
    case Size(n) => if me.half == 0 then me.(length := n, half := 1) else me.(broken := true)
    case Data(b) =>
      if me.half == 1 && |b| <= me.length + 1 && Load(b).Some?
      then me.(ary := me.ary[me.at := Some(Load(b).value)], at := me.at + 1, half := 0)
      else me.(broken := true)
  }

  function WithChan(s: State, a: nat, b: nat, c: Channel): State
    requires a < |s.chans| && b < |s.chans[a]|
  {
    s.(chans := s.chans[a := s.chans[a][b := c]])
  }

  function WithRank(s: State, r: nat, me: Rank): State
    requires r < |s.ranks|
  {
    s.(ranks := s.ranks[r := me])
  }

  ghost predicate Wide(p: Plan, s: State) {
    Square(p, s) && forall r :: 0 <= r < p.n ==> |s.ranks[r].ary| == p.n
  }

  function Next(p: Plan, s: State, l: Label): (t: State)
    requires PlanOk(p) && Wide(p, s) && Enabled(p, s, l)
    ensures Wide(p, t)
  {
    match l
    case Post(r) =>
      var me := s.ranks[r];
      var root := p.roots[me.round];
      WithRank(WithChan(s, r, root, s.chans[r][root] + [PartOf(p.objs[me.round][r], me.half)]),
               r, me.(half := me.half + 1))
    case Return(r) =>
      var me := s.ranks[r];
      WithRank(s, r, Entered(p, r, me.round + 1, me.results + [[]]))
    case Skip(r) => WithRank(s, r, s.ranks[r].(at := s.ranks[r].at + 1))
    case Take(r) =>
      var a := s.ranks[r].at;
      var c := s.chans[a][r];
      var i := FirstMatch(c, Tag(GATHER_TAG));
      WithRank(WithChan(s, a, r, Without(c, i)), r, Taken(s.ranks[r], c[i].payload))
    case Finish(r) =>
      var me := s.ranks[r];
      WithRank(s, r, Entered(p, r, me.round + 1, me.results + [me.ary]))
    case UserSend(a, b, m) => WithChan(s, a, b, s.chans[a][b] + [m])
    case UserTake(a, b, i) => WithChan(s, a, b, Without(s.chans[a][b], i))
  }

  function Start(p: Plan): (s: State)
    requires PlanOk(p)
  {
    State(seq(p.n, r requires 0 <= r < p.n => Entered(p, r, 0, [])),
          seq(p.n, _ => seq(p.n, _ => [])))
  }

  // ---------- What passes through a channel ----------

  function Pair(x: Obj): (c: Channel)
    ensures |c| == 2
  {
    [PartOf(x, 0), PartOf(x, 1)]
  }

  /** Everything rank `a` sends to rank `b` in the rounds before round `k`. */
  function Before(p: Plan, a: nat, b: nat, k: nat): Channel
    requires PlanOk(p) && a < p.n && k <= |p.roots|
  {
    if k == 0 then []
    else Before(p, a, b, k - 1) + if p.roots[k - 1] == b then Pair(p.objs[k - 1][a]) else []
  }

  function SentBy(p: Plan, me: Rank, a: nat, b: nat): Channel
    requires PlanOk(p) && a < p.n && me.round <= |p.roots| && me.half <= 2
  {
    Before(p, a, b, me.round) +
    if me.round < |p.roots| && p.roots[me.round] == b then Pair(p.objs[me.round][a])[..me.half] else []
  }

  function TakenBy(p: Plan, me: Rank, a: nat, b: nat): Channel
    requires PlanOk(p) && a < p.n && me.round <= |p.roots| && me.half <= 2
  {
    Before(p, a, b, me.round) +
    if me.round < |p.roots| && p.roots[me.round] == b then
      if a < me.at then Pair(p.objs[me.round][a])
      else if a == me.at then Pair(p.objs[me.round][a])[..me.half]
      else []
    else []
  }

  /** What the call in round `k` returns at rank `r`; `[]` stands for the plain `true`. */
  function Expected(p: Plan, k: nat, r: nat): seq<Option<Obj>>
    requires PlanOk(p) && k < |p.roots|
  {
    if p.roots[k] == r then Somes(p.objs[k]) else []
  }

  ghost predicate RootInv(p: Plan, r: nat, me: Rank)
    requires PlanOk(p) && r < p.n && me.round < |p.roots|
  {
    && me.at <= p.n && me.half <= 1 && |me.ary| == p.n
    && (me.half == 1 ==> me.at < p.n && me.at != r && me.length == |Dump(p.objs[me.round][me.at])|)
    && (forall i :: 0 <= i < p.n ==>
          me.ary[i] == if i < me.at || i == r then Some(p.objs[me.round][i]) else None)
  }

  ghost predicate RankInv(p: Plan, r: nat, me: Rank)
    requires PlanOk(p) && r < p.n
  {
    && me.round <= |p.roots| && me.half <= 2 && !me.broken && |me.ary| == p.n
    && (me.round < |p.roots| && p.roots[me.round] == r ==> RootInv(p, r, me))
    && (me.round < |p.roots| && p.roots[me.round] != r ==> me.at == 0)
    && (me.round == |p.roots| ==> me.half == 0)
    && |me.results| == me.round
    && (forall k :: 0 <= k < me.round ==> me.results[k] == Expected(p, k, r))
  }

  ghost predicate ChanInv(p: Plan, s: State, a: nat, b: nat)
    requires PlanOk(p) && Square(p, s) && a < p.n && b < p.n
    requires s.ranks[a].round <= |p.roots| && s.ranks[a].half <= 2
    requires s.ranks[b].round <= |p.roots| && s.ranks[b].half <= 2
  {
    SentBy(p, s.ranks[a], a, b) == TakenBy(p, s.ranks[b], a, b) + OnTag(s.chans[a][b], GATHER_TAG)
  }

  ghost predicate Inv(p: Plan, s: State)
    requires PlanOk(p)
  {
    && Wide(p, s)
    && (forall r :: 0 <= r < p.n ==> RankInv(p, r, s.ranks[r]))
    && (forall a, b :: 0 <= a < p.n && 0 <= b < p.n && a != b ==> ChanInv(p, s, a, b))
  }

  // ---------- One rank moves ----------

  /** What a step of rank `r` puts into or takes out of the channels. */
  datatype Effect = Quiet | Puts(to: nat, m: Message) | Gets(from: nat, m: Message)

  ghost predicate Moves(p: Plan, r: nat, me: Rank, me': Rank, e: Effect)
    requires PlanOk(p) && r < p.n && RankInv(p, r, me)
  {
    && RankInv(p, r, me')
    && (forall b :: 0 <= b < p.n && b != r ==>
          SentBy(p, me', r, b) == SentBy(p, me, r, b) + if e.Puts? && e.to == b then [e.m] else [])
    && (forall a :: 0 <= a < p.n && a != r ==>
          TakenBy(p, me', a, r) == TakenBy(p, me, a, r) + if e.Gets? && e.from == a then [e.m] else [])
  }

  lemma PostMoves(p: Plan, r: nat, me: Rank)
    requires PlanOk(p) && r < p.n && RankInv(p, r, me)
    requires me.round < |p.roots| && p.roots[me.round] != r && me.half < 2
    ensures Moves(p, r, me, me.(half := me.half + 1),
                  Puts(p.roots[me.round], PartOf(p.objs[me.round][r], me.half)))
  {
    var me' := me.(half := me.half + 1);
    var pair := Pair(p.objs[me.round][r]);
    assert pair[..me.half + 1] == pair[..me.half] + [PartOf(p.objs[me.round][r], me.half)];
    forall b | 0 <= b < p.n && b != r
      ensures SentBy(p, me', r, b) == SentBy(p, me, r, b) +
                if b == p.roots[me.round] then [PartOf(p.objs[me.round][r], me.half)] else []
    {
      if b == p.roots[me.round] {
        Assoc(Before(p, r, b, me.round), pair[..me.half], [PartOf(p.objs[me.round][r], me.half)]);
      }
    }
  }

  /** A fresh round has nothing sent and nothing taken yet. */
  lemma EnteredIsClean(p: Plan, r: nat, k: nat, results: seq<seq<Option<Obj>>>)
    requires PlanOk(p) && r < p.n && k <= |p.roots| && |results| == k
    requires forall i :: 0 <= i < k ==> results[i] == Expected(p, i, r)
    ensures RankInv(p, r, Entered(p, r, k, results))
    ensures forall b :: 0 <= b < p.n ==> SentBy(p, Entered(p, r, k, results), r, b) == Before(p, r, b, k)
    ensures forall a :: 0 <= a < p.n ==> TakenBy(p, Entered(p, r, k, results), a, r) == Before(p, a, r, k)
  {
  }

  lemma ReturnMoves(p: Plan, r: nat, me: Rank)
    requires PlanOk(p) && r < p.n && RankInv(p, r, me)
    requires me.round < |p.roots| && p.roots[me.round] != r && me.half == 2
    ensures Moves(p, r, me, Entered(p, r, me.round + 1, me.results + [[]]), Quiet)
  {
    EnteredIsClean(p, r, me.round + 1, me.results + [[]]);
    forall b | 0 <= b < p.n && b != r
      ensures SentBy(p, me, r, b) == Before(p, r, b, me.round + 1)
    {
      var pair := Pair(p.objs[me.round][r]);
      assert pair[..2] == pair;
    }
    forall a | 0 <= a < p.n && a != r
      ensures TakenBy(p, me, a, r) == Before(p, a, r, me.round + 1)
    {
    }
  }

  lemma FinishMoves(p: Plan, r: nat, me: Rank)
    requires PlanOk(p) && r < p.n && RankInv(p, r, me)
    requires me.round < |p.roots| && p.roots[me.round] == r && me.at >= p.n
    ensures Moves(p, r, me, Entered(p, r, me.round + 1, me.results + [me.ary]), Quiet)
  {
    assert me.ary == Somes(p.objs[me.round]);
    EnteredIsClean(p, r, me.round + 1, me.results + [me.ary]);
  }

  lemma SkipMoves(p: Plan, r: nat, me: Rank)
    requires PlanOk(p) && r < p.n && RankInv(p, r, me)
    requires me.round < |p.roots| && p.roots[me.round] == r && me.at == r
    ensures Moves(p, r, me, me.(at := me.at + 1), Quiet)
  {
  }

  lemma TakeMoves(p: Plan, r: nat, me: Rank)
    requires PlanOk(p) && r < p.n && RankInv(p, r, me)
    requires me.round < |p.roots| && p.roots[me.round] == r && me.at != r && me.at < p.n
    ensures var m := PartOf(p.objs[me.round][me.at], me.half);
            Moves(p, r, me, Taken(me, m.payload), Gets(me.at, m))
  {
    var x := p.objs[me.round][me.at];
    var m := PartOf(x, me.half);
    var me' := Taken(me, m.payload);
    LoadIgnoresPadding(x, [0]);
    assert Pair(x)[..me.half] + [m] == Pair(x)[..me.half + 1];
    assert Pair(x)[..2] == Pair(x);
    forall a | 0 <= a < p.n && a != r
      ensures TakenBy(p, me', a, r) == TakenBy(p, me, a, r) + if a == me.at then [m] else []
    {
      Assoc(Before(p, a, r, me.round), Pair(x)[..me.half], [m]);
    }
  }

  // ---------- What the root finds ----------

  lemma {:induction false} BeforeGrows(p: Plan, a: nat, b: nat, k: nat, k': nat)
    requires PlanOk(p) && a < p.n && k <= k' <= |p.roots|
    ensures Before(p, a, b, k) <= Before(p, a, b, k')
    decreases k'
  {
    if k < k' {
      BeforeGrows(p, a, b, k, k' - 1);
    }
  }

  lemma SentIsPrefix(p: Plan, me: Rank, a: nat, b: nat)
    requires PlanOk(p) && a < p.n && me.round <= |p.roots| && me.half <= 2
    ensures SentBy(p, me, a, b) <= Before(p, a, b, |p.roots|)
  {
    if me.round < |p.roots| && p.roots[me.round] == b {
      BeforeGrows(p, a, b, me.round + 1, |p.roots|);
      var pair := Pair(p.objs[me.round][a]);
      assert SentBy(p, me, a, b) <= Before(p, a, b, me.round + 1);
    } else {
      BeforeGrows(p, a, b, me.round, |p.roots|);
    }
  }

  lemma NextTaken(p: Plan, me: Rank, r: nat)
    requires PlanOk(p) && r < p.n && RankInv(p, r, me)
    requires me.round < |p.roots| && p.roots[me.round] == r && me.at != r && me.at < p.n
    ensures TakenBy(p, me, me.at, r) + [PartOf(p.objs[me.round][me.at], me.half)]
         <= Before(p, me.at, r, |p.roots|)
  {
    var x := p.objs[me.round][me.at];
    BeforeGrows(p, me.at, r, me.round + 1, |p.roots|);
    assert Pair(x)[..me.half] + [PartOf(x, me.half)] <= Pair(x);
    Assoc(Before(p, me.at, r, me.round), Pair(x)[..me.half], [PartOf(x, me.half)]);
  }

  lemma HeadOf(all: Channel, sent: Channel, taken: Channel, rest: Channel, m: Message)
    requires sent <= all && taken + [m] <= all && sent == taken + rest && rest != []
    ensures rest[0] == m
  {
    assert sent[|taken|] == rest[0];
    assert (taken + [m])[|taken|] == m;
  }

  /** The part the root takes is the one its program is waiting for, although the channel may
      hold later rounds and other traffic. */
  lemma TakeFinds(p: Plan, s: State, r: nat)
    requires PlanOk(p) && Inv(p, s) && Enabled(p, s, Take(r))
    ensures var me := s.ranks[r];
            var c := s.chans[me.at][r];
            var i, m := FirstMatch(c, Tag(GATHER_TAG)), PartOf(p.objs[me.round][me.at], me.half);
            c[i] == m && OnTag(c, GATHER_TAG) == [m] + OnTag(Without(c, i), GATHER_TAG)
  {
    var me, a := s.ranks[r], s.ranks[r].at;
    assert RankInv(p, r, me) && RankInv(p, a, s.ranks[a]) && ChanInv(p, s, a, r);
    ReceiveOnTag(s.chans[a][r], GATHER_TAG);
    SentIsPrefix(p, s.ranks[a], a, r);
    NextTaken(p, me, r);
    HeadOf(Before(p, a, r, |p.roots|), SentBy(p, s.ranks[a], a, r), TakenBy(p, me, a, r),
           OnTag(s.chans[a][r], GATHER_TAG), PartOf(p.objs[me.round][a], me.half));
  }

  // ---------- Every step keeps the invariant ----------

  /** What a step of rank `r` means for the channel from `a` to `b`. */
  lemma MovesAt(p: Plan, s: State, r: nat, me': Rank, e: Effect, a: nat, b: nat)
    requires PlanOk(p) && Inv(p, s) && r < p.n && Moves(p, r, s.ranks[r], me', e)
    requires a < p.n && b < p.n && a != b
    ensures RankInv(p, a, s.ranks[a]) && RankInv(p, b, s.ranks[b])
    ensures RankInv(p, a, s.ranks[r := me'][a]) && RankInv(p, b, s.ranks[r := me'][b])
    ensures SentBy(p, s.ranks[r := me'][a], a, b)
         == SentBy(p, s.ranks[a], a, b) + if a == r && e.Puts? && e.to == b then [e.m] else []
    ensures TakenBy(p, s.ranks[r := me'][b], a, b)
         == TakenBy(p, s.ranks[b], a, b) + if b == r && e.Gets? && e.from == a then [e.m] else []
  {
  }

  lemma QuietKeepsChan(p: Plan, s: State, r: nat, me': Rank, a: nat, b: nat)
    requires PlanOk(p) && Inv(p, s) && r < p.n && Moves(p, r, s.ranks[r], me', Quiet)
    requires a < p.n && b < p.n && a != b
    ensures RankInv(p, a, s.ranks[r := me'][a]) && RankInv(p, b, s.ranks[r := me'][b])
    ensures ChanInv(p, WithRank(s, r, me'), a, b)
  {
    MovesAt(p, s, r, me', Quiet, a, b);
    assert ChanInv(p, s, a, b);
  }

  lemma QuietKeepsInv(p: Plan, s: State, r: nat, me': Rank)
    requires PlanOk(p) && Inv(p, s) && r < p.n && Moves(p, r, s.ranks[r], me', Quiet)
    ensures Inv(p, WithRank(s, r, me'))
  {
    var t := WithRank(s, r, me');
    forall a, b | 0 <= a < p.n && 0 <= b < p.n && a != b
      ensures ChanInv(p, t, a, b)
    {
      QuietKeepsChan(p, s, r, me', a, b);
    }
  }

  lemma PutBalances(sent: Channel, taken: Channel, c: Channel, m: Message)
    requires sent == taken + OnTag(c, GATHER_TAG) && m.tag == GATHER_TAG
    ensures sent + [m] == taken + OnTag(c + [m], GATHER_TAG)
  {
    OnTagSend(c, m, GATHER_TAG);
    Assoc(taken, OnTag(c, GATHER_TAG), [m]);
  }

  lemma PutKeepsChan(p: Plan, s: State, r: nat, me': Rank, to: nat, m: Message, a: nat, b: nat)
    requires PlanOk(p) && Inv(p, s) && r < p.n && to < p.n && to != r
    requires m.tag == GATHER_TAG && Moves(p, r, s.ranks[r], me', Puts(to, m))
    requires a < p.n && b < p.n && a != b
    ensures RankInv(p, a, s.ranks[r := me'][a]) && RankInv(p, b, s.ranks[r := me'][b])
    ensures ChanInv(p, WithRank(WithChan(s, r, to, s.chans[r][to] + [m]), r, me'), a, b)
  {
    MovesAt(p, s, r, me', Puts(to, m), a, b);
    assert ChanInv(p, s, a, b);
    if a == r && b == to {
      PutBalances(SentBy(p, s.ranks[a], a, b), TakenBy(p, s.ranks[b], a, b), s.chans[a][b], m);
    }
  }

  lemma PutKeepsInv(p: Plan, s: State, r: nat, me': Rank, to: nat, m: Message)
    requires PlanOk(p) && Inv(p, s) && r < p.n && to < p.n && to != r
    requires m.tag == GATHER_TAG && Moves(p, r, s.ranks[r], me', Puts(to, m))
    ensures Inv(p, WithRank(WithChan(s, r, to, s.chans[r][to] + [m]), r, me'))
  {
    var t := WithRank(WithChan(s, r, to, s.chans[r][to] + [m]), r, me');
    forall a, b | 0 <= a < p.n && 0 <= b < p.n && a != b
      ensures ChanInv(p, t, a, b)
    {
      PutKeepsChan(p, s, r, me', to, m, a, b);
    }
  }

  lemma GetKeepsChan(p: Plan, s: State, r: nat, me': Rank, from: nat, m: Message, c: Channel, a: nat, b: nat)
    requires PlanOk(p) && Inv(p, s) && r < p.n && from < p.n && from != r
    requires Moves(p, r, s.ranks[r], me', Gets(from, m))
    requires OnTag(s.chans[from][r], GATHER_TAG) == [m] + OnTag(c, GATHER_TAG)
    requires a < p.n && b < p.n && a != b
    ensures RankInv(p, a, s.ranks[r := me'][a]) && RankInv(p, b, s.ranks[r := me'][b])
    ensures ChanInv(p, WithRank(WithChan(s, from, r, c), r, me'), a, b)
  {
    MovesAt(p, s, r, me', Gets(from, m), a, b);
    assert ChanInv(p, s, a, b);
    if a == from && b == r {
      Assoc(TakenBy(p, s.ranks[b], a, b), [m], OnTag(c, GATHER_TAG));
    }
  }

  lemma GetKeepsInv(p: Plan, s: State, r: nat, me': Rank, from: nat, m: Message, c: Channel)
    requires PlanOk(p) && Inv(p, s) && r < p.n && from < p.n && from != r
    requires Moves(p, r, s.ranks[r], me', Gets(from, m))
    requires OnTag(s.chans[from][r], GATHER_TAG) == [m] + OnTag(c, GATHER_TAG)
    ensures Inv(p, WithRank(WithChan(s, from, r, c), r, me'))
  {
    var t := WithRank(WithChan(s, from, r, c), r, me');
    forall a, b | 0 <= a < p.n && 0 <= b < p.n && a != b
      ensures ChanInv(p, t, a, b)
    {
      GetKeepsChan(p, s, r, me', from, m, c, a, b);
    }
  }

  lemma UserKeepsInv(p: Plan, s: State, a0: nat, b0: nat, c: Channel)
    requires PlanOk(p) && Inv(p, s) && a0 < p.n && b0 < p.n
    requires OnTag(c, GATHER_TAG) == OnTag(s.chans[a0][b0], GATHER_TAG)
    ensures Inv(p, WithChan(s, a0, b0, c))
  {
    var t := WithChan(s, a0, b0, c);
    forall a, b | 0 <= a < p.n && 0 <= b < p.n && a != b
      ensures ChanInv(p, t, a, b)
    {
      assert RankInv(p, a, s.ranks[a]) && RankInv(p, b, s.ranks[b]) && ChanInv(p, s, a, b);
    }
  }

  lemma PostKeepsInv(p: Plan, s: State, r: nat)
    requires PlanOk(p) && Inv(p, s) && Enabled(p, s, Post(r))
    ensures Inv(p, Next(p, s, Post(r)))
  {
    var me := s.ranks[r];
    assert RankInv(p, r, me);
    var me', to, m := me.(half := me.half + 1), p.roots[me.round], PartOf(p.objs[me.round][r], me.half);
    PostMoves(p, r, me);
    PutKeepsInv(p, s, r, me', to, m);
    assert Next(p, s, Post(r)) == WithRank(WithChan(s, r, to, s.chans[r][to] + [m]), r, me');
  }

  lemma ReturnKeepsInv(p: Plan, s: State, r: nat)
    requires PlanOk(p) && Inv(p, s) && Enabled(p, s, Return(r))
    ensures Inv(p, Next(p, s, Return(r)))
  {
    var me := s.ranks[r];
    assert RankInv(p, r, me);
    var me' := Entered(p, r, me.round + 1, me.results + [[]]);
    ReturnMoves(p, r, me);
    QuietKeepsInv(p, s, r, me');
    assert Next(p, s, Return(r)) == WithRank(s, r, me');
  }

  lemma SkipKeepsInv(p: Plan, s: State, r: nat)
    requires PlanOk(p) && Inv(p, s) && Enabled(p, s, Skip(r))
    ensures Inv(p, Next(p, s, Skip(r)))
  {
    var me := s.ranks[r];
    assert RankInv(p, r, me);
    SkipMoves(p, r, me);
    QuietKeepsInv(p, s, r, me.(at := me.at + 1));
  }

  lemma FinishKeepsInv(p: Plan, s: State, r: nat)
    requires PlanOk(p) && Inv(p, s) && Enabled(p, s, Finish(r))
    ensures Inv(p, Next(p, s, Finish(r)))
  {
    var me := s.ranks[r];
    assert RankInv(p, r, me);
    var me' := Entered(p, r, me.round + 1, me.results + [me.ary]);
    FinishMoves(p, r, me);
    QuietKeepsInv(p, s, r, me');
    assert Next(p, s, Finish(r)) == WithRank(s, r, me');
  }

  lemma TakeKeepsInv(p: Plan, s: State, r: nat)
    requires PlanOk(p) && Inv(p, s) && Enabled(p, s, Take(r))
    ensures Inv(p, Next(p, s, Take(r)))
  {
    var me := s.ranks[r];
    assert RankInv(p, r, me);
    TakeFinds(p, s, r);
    TakeMoves(p, r, me);
    var c := s.chans[me.at][r];
    var i := FirstMatch(c, Tag(GATHER_TAG));
    GetKeepsInv(p, s, r, Taken(me, c[i].payload), me.at, c[i], Without(c, i));
  }

  lemma NextKeepsInv(p: Plan, s: State, l: Label)
    requires PlanOk(p) && Inv(p, s) && Enabled(p, s, l)
    ensures Inv(p, Next(p, s, l))
  {
    match l
    case Take(r) => TakeKeepsInv(p, s, r);
    case UserSend(a, b, m) =>
      OnTagSend(s.chans[a][b], m, GATHER_TAG);
      UserKeepsInv(p, s, a, b, s.chans[a][b] + [m]);
    case UserTake(a, b, i) =>
      WithoutOnTag(s.chans[a][b], i, GATHER_TAG);
      UserKeepsInv(p, s, a, b, Without(s.chans[a][b], i));
    case Post(r) => PostKeepsInv(p, s, r);
    case Return(r) => ReturnKeepsInv(p, s, r);
    case Skip(r) => SkipKeepsInv(p, s, r);
    case Finish(r) => FinishKeepsInv(p, s, r);
  }

  lemma StartInv(p: Plan)
    requires PlanOk(p)
    ensures Inv(p, Start(p))
  {
    var s := Start(p);
    forall r | 0 <= r < p.n
      ensures RankInv(p, r, s.ranks[r])
    {
      EnteredIsClean(p, r, 0, []);
    }
    forall a, b | 0 <= a < p.n && 0 <= b < p.n && a != b
      ensures ChanInv(p, s, a, b)
    {
      EnteredIsClean(p, a, 0, []);
      EnteredIsClean(p, b, 0, []);
    }
  }

  // ---------- Progress ----------

  predicate Finished(p: Plan, s: State)
    requires |s.ranks| == p.n
  {
    forall r :: 0 <= r < p.n ==> s.ranks[r].round >= |p.roots|
  }

  predicate OfGather(l: Label) {
    !l.UserSend? && !l.UserTake?
  }

  /** A rank in the earliest round any rank is in. */
  function Slowest(ranks: seq<Rank>): (m: nat)
    requires |ranks| > 0
    ensures m < |ranks|
    ensures forall r :: 0 <= r < |ranks| ==> ranks[m].round <= ranks[r].round
  {
    if |ranks| == 1 then 0
    else
      var m := Slowest(ranks[1..]) + 1;
      assert forall r :: 1 <= r < |ranks| ==> ranks[r] == ranks[1..][r - 1];
      if ranks[0].round <= ranks[m].round then 0 else m
  }

  /** A rank that is further on than the root has left the root everything of this round. */
  lemma AheadHasSent(p: Plan, s: State, r: nat)
    requires PlanOk(p) && Inv(p, s) && r < p.n && IsRoot(p, s, r)
    requires s.ranks[r].at != r && s.ranks[r].at < p.n
    requires var a := s.ranks[s.ranks[r].at];
             a.round > s.ranks[r].round || (a.round == s.ranks[r].round && a.half > s.ranks[r].half)
    ensures Enabled(p, s, Take(r))
  {
    var me, a := s.ranks[r], s.ranks[r].at;
    assert RankInv(p, r, me) && RankInv(p, a, s.ranks[a]) && ChanInv(p, s, a, r);
    if s.ranks[a].round > me.round {
      BeforeGrows(p, a, r, me.round + 1, s.ranks[a].round);
    }
    assert |SentBy(p, s.ranks[a], a, r)| > |TakenBy(p, me, a, r)|;
    NothingOnTag(s.chans[a][r], GATHER_TAG);
  }

  /** Until every rank is through, some rank can take a step of its gather. */
  lemma NeverStuck(p: Plan, s: State) returns (l: Label)
    requires PlanOk(p) && Inv(p, s) && !Finished(p, s)
    ensures Enabled(p, s, l) && OfGather(l)
  {
    var r := Slowest(s.ranks);
    var me := s.ranks[r];
    assert RankInv(p, r, me);
    if p.roots[me.round] != r {
      l := if me.half < 2 then Post(r) else Return(r);
    } else if me.at >= p.n {
      l := Finish(r);
    } else if me.at == r {
      l := Skip(r);
    } else {
      var a := s.ranks[me.at];
      assert RankInv(p, me.at, a);
      if a.round > me.round || a.half > me.half {
        AheadHasSent(p, s, r);
        l := Take(r);
      } else {
        l := Post(me.at);
      }
    }
  }

  /** The steps of rank `r` in round `k` and later. */
  function Cost(p: Plan, r: nat, k: nat): (c: nat)
    requires k <= |p.roots|
    decreases |p.roots| - k
  {
    if k == |p.roots| then 0 else (if p.roots[k] == r then 2 * p.n else 3) + Cost(p, r, k + 1)
  }

  /** The steps rank `r` still has to take: a root receives two parts from each other rank, passes
      itself and finishes; a sender posts two parts and returns. */
  function Remaining(p: Plan, r: nat, me: Rank): int
    requires me.round <= |p.roots|
  {
    Cost(p, r, me.round) -
    if me.round < |p.roots| && p.roots[me.round] == r
    then 2 * me.at - (if me.at > r then 1 else 0) + me.half
    else me.half
  }

  ghost function Rests(p: Plan, s: State): (rests: seq<int>)
    requires PlanOk(p) && Inv(p, s)
    ensures |rests| == p.n
  {
    seq(p.n, r requires 0 <= r < p.n && RankInv(p, r, s.ranks[r]) => Remaining(p, r, s.ranks[r]))
  }

  ghost function Work(p: Plan, s: State): int
    requires PlanOk(p) && Inv(p, s)
  {
    Sum(Rests(p, s))
  }

  lemma StepRemaining(p: Plan, s: State, l: Label)
    requires PlanOk(p) && Inv(p, s) && Enabled(p, s, l) && OfGather(l)
    requires Inv(p, Next(p, s, l))
    ensures RankInv(p, l.rank, s.ranks[l.rank]) && RankInv(p, l.rank, Next(p, s, l).ranks[l.rank])
    ensures Remaining(p, l.rank, Next(p, s, l).ranks[l.rank]) == Remaining(p, l.rank, s.ranks[l.rank]) - 1
  {
    assert RankInv(p, l.rank, s.ranks[l.rank]) && RankInv(p, l.rank, Next(p, s, l).ranks[l.rank]);
    if l.Take? {
      TakeFinds(p, s, l.rank);
    }
  }

  lemma OneRankMoves(p: Plan, s: State, l: Label)
    requires PlanOk(p) && Wide(p, s) && Enabled(p, s, l) && OfGather(l)
    ensures l.rank < p.n && Next(p, s, l).ranks == s.ranks[l.rank := Next(p, s, l).ranks[l.rank]]
  {
  }

  lemma RestsUpdate(p: Plan, s: State, t: State, r: nat)
    requires PlanOk(p) && Inv(p, s) && Inv(p, t) && r < p.n && t.ranks == s.ranks[r := t.ranks[r]]
    ensures RankInv(p, r, t.ranks[r]) && Rests(p, t) == Rests(p, s)[r := Remaining(p, r, t.ranks[r])]
  {
  }

  lemma NextDoesWork(p: Plan, s: State, l: Label)
    requires PlanOk(p) && Inv(p, s) && Enabled(p, s, l)
    ensures Inv(p, Next(p, s, l))
    ensures Work(p, Next(p, s, l)) == Work(p, s) - if OfGather(l) then 1 else 0
  {
    NextKeepsInv(p, s, l);
    var t := Next(p, s, l);
    if OfGather(l) {
      StepRemaining(p, s, l);
      OneRankMoves(p, s, l);
      RestsUpdate(p, s, t, l.rank);
      SumUpdate(Rests(p, s), l.rank, Remaining(p, l.rank, t.ranks[l.rank]));
    } else {
      assert Rests(p, t) == Rests(p, s);
    }
  }

  lemma WorkBounds(p: Plan, s: State)
    requires PlanOk(p) && Inv(p, s)
    ensures Work(p, s) >= 0
    ensures Finished(p, s) ==> Work(p, s) == 0
  {
    forall r | 0 <= r < p.n
      ensures Rests(p, s)[r] >= 0
      ensures Finished(p, s) ==> Rests(p, s)[r] == 0
    {
      assert RankInv(p, r, s.ranks[r]);
    }
    SumBounds(Rests(p, s), 0);
  }

  // ---------- Whole runs ----------

  ghost predicate Run(p: Plan, s: State, labels: seq<Label>, t: State)
    requires PlanOk(p)
    decreases |labels|
  {
    if labels == [] then s == t
    else Wide(p, s) && Enabled(p, s, labels[0]) && Run(p, Next(p, s, labels[0]), labels[1..], t)
  }

  function GatherSteps(labels: seq<Label>): nat {
    if labels == [] then 0 else (if OfGather(labels[0]) then 1 else 0) + GatherSteps(labels[1..])
  }

  lemma {:induction false} RunInv(p: Plan, s: State, labels: seq<Label>, t: State)
    requires PlanOk(p) && Inv(p, s) && Run(p, s, labels, t)
    ensures Inv(p, t)
    ensures Work(p, t) + GatherSteps(labels) == Work(p, s)
    decreases |labels|
  {
    if labels != [] {
      NextDoesWork(p, s, labels[0]);
      RunInv(p, Next(p, s, labels[0]), labels[1..], t);
    }
  }

  ghost predicate Reachable(p: Plan, labels: seq<Label>, s: State) {
    PlanOk(p) && Run(p, Start(p), labels, s)
  }

  lemma ReachableInv(p: Plan, labels: seq<Label>, s: State)
    requires Reachable(p, labels, s)
    ensures Inv(p, s) && Inv(p, Start(p))
    ensures Work(p, s) + GatherSteps(labels) == Work(p, Start(p))
  {
    StartInv(p);
    RunInv(p, Start(p), labels, s);
  }

  /** Round `k` of any run, whatever the roots and however far ahead the others are, yields
      exactly each rank's object of round `k` at that rank's index at the root, and plain `true`
      elsewhere. */
  lemma RoundsDoNotMix(p: Plan, labels: seq<Label>, s: State, r: nat, k: nat)
    requires Reachable(p, labels, s) && r < p.n == |s.ranks| && k < |s.ranks[r].results|
    ensures k < |p.roots| && !s.ranks[r].broken
    ensures s.ranks[r].results[k] == if p.roots[k] == r then Somes(p.objs[k]) else []
  {
    ReachableInv(p, labels, s);
    assert RankInv(p, r, s.ranks[r]);
  }

  /** A run cannot get stuck, cannot go on for ever, and takes the same number of gather steps
      in whatever order they come. */
  lemma RunsEnd(p: Plan, labels: seq<Label>, s: State)
    requires Reachable(p, labels, s)
    ensures Inv(p, s) && Inv(p, Start(p))
    ensures GatherSteps(labels) <= Work(p, Start(p))
    ensures Finished(p, s) ==> GatherSteps(labels) == Work(p, Start(p))
    ensures !Finished(p, s) ==> exists l :: Enabled(p, s, l) && OfGather(l)
  {
    ReachableInv(p, labels, s);
    WorkBounds(p, s);
    if !Finished(p, s) {
      var l := NeverStuck(p, s);
    }
  }

  // ---------- The calls ----------

  /** The one step rank `r` can be waiting to take. */
  function StepOf(p: Plan, s: State, r: nat): Label
    requires r < |s.ranks|
  {
    var me := s.ranks[r];
    if me.round < |p.roots| && p.roots[me.round] == r then
      if me.at >= p.n then Finish(r) else if me.at == r then Skip(r) else Take(r)
    else if me.half < 2 then Post(r) else Return(r)
  }

  lemma SomebodyCan(p: Plan, s: State) returns (r: nat)
    requires PlanOk(p) && Inv(p, s) && !Finished(p, s)
    ensures r < p.n && Enabled(p, s, StepOf(p, s, r))
  {
    var l := NeverStuck(p, s);
    assert l == StepOf(p, s, l.rank);
    r := l.rank;
  }

  /** The ranks in their calls of `comm_gather`, updated in place. */
  class Ranks {
    const plan: Plan
    const ranks: array<Rank>
    var chans: seq<seq<Channel>>

    ghost predicate Valid()
      reads this, ranks
    {
      PlanOk(plan) && ranks.Length == plan.n && Inv(plan, View())
    }

    ghost function View(): State
      reads this, ranks
    {
      State(ranks[..], chans)
    }

    constructor (plan: Plan)
      requires PlanOk(plan)
      ensures Valid() && this.plan == plan && fresh(ranks) && View() == Start(plan)
    {
      this.plan := plan;
      ranks := new Rank[plan.n](r requires 0 <= r < plan.n && PlanOk(plan) => Entered(plan, r, 0, []));
      chans := seq(plan.n, _ => seq(plan.n, _ => []));
      new;
      assert View() == Start(plan);
      StartInv(plan);
    }

    /** The sender's side: two `MPI_Isend`s, then on to the next call. */
    method Send(r: nat)
      requires Valid() && r < plan.n && Enabled(plan, View(), StepOf(plan, View(), r)) && IsSender(plan, View(), r)
      modifies this`chans, ranks
      ensures Valid() && View() == Next(plan, old(View()), old(StepOf(plan, View(), r)))
    {
      NextKeepsInv(plan, View(), StepOf(plan, View(), r));
      var me := ranks[r];
      if me.half < 2 {
        var root, obj := plan.roots[me.round], plan.objs[me.round][r];
        var payload := if me.half == 0 then Size(|Dump(obj)|) else Data(Dump(obj) + [0]);
        assert Message(GATHER_TAG, payload) == PartOf(obj, me.half);
        chans := chans[r := chans[r][root := chans[r][root] + [Message(GATHER_TAG, payload)]]];
        ranks[r] := me.(half := me.half + 1);
      } else {
        ranks[r] := Entered(plan, r, me.round + 1, me.results + [[]]);
      }
    }

    /** The root's side: one turn of its loop over the ranks, half a turn per message. */
    method Collect(r: nat)
      requires Valid() && r < plan.n && Enabled(plan, View(), StepOf(plan, View(), r)) && IsRoot(plan, View(), r)
      modifies this`chans, ranks
      ensures Valid() && View() == Next(plan, old(View()), old(StepOf(plan, View(), r)))
    {
      NextKeepsInv(plan, View(), StepOf(plan, View(), r));
      var me := ranks[r];
      if me.at >= plan.n {
        ranks[r] := Entered(plan, r, me.round + 1, me.results + [me.ary]);
      } else if me.at == r {
        ranks[r] := me.(at := me.at + 1);
      } else {
        var c := chans[me.at][r];
        var i := FirstMatch(c, Tag(GATHER_TAG));
        chans := chans[me.at := chans[me.at][r := Without(c, i)]];
        ranks[r] := Taken(me, c[i].payload);
      }
    }

    /** Some rank that can move moves; nothing is assumed about which. */
    method Step()
      requires Valid() && !Finished(plan, View())
      modifies this`chans, ranks
      ensures Valid() && Work(plan, View()) == old(Work(plan, View())) - 1
    {
      ghost var can := SomebodyCan(plan, View());
      var r :| 0 <= r < plan.n && Enabled(plan, State(ranks[..], chans), StepOf(plan, State(ranks[..], chans), r));
      NextDoesWork(plan, View(), StepOf(plan, View(), r));
      if ranks[r].round < |plan.roots| && plan.roots[ranks[r].round] == r {
        Collect(r);
      } else {
        Send(r);
      }
    }

    method RunToEnd()
      requires Valid()
      modifies this`chans, ranks
      ensures Valid() && Finished(plan, View())
    {
      WorkBounds(plan, View());
      while exists r :: 0 <= r < plan.n && ranks[r].round < |plan.roots|
        invariant Valid() && Work(plan, View()) >= 0
        decreases Work(plan, View())
      {
        Step();
        WorkBounds(plan, View());
      }
    }
  }

  /** All ranks make all their calls, in whatever order their steps come. */
  method GatherAll(plan: Plan) returns (results: seq<seq<seq<Option<Obj>>>>)
    requires PlanOk(plan)
    ensures |results| == plan.n
    ensures forall r :: 0 <= r < plan.n ==> |results[r]| == |plan.roots|
    ensures forall r, k :: 0 <= r < plan.n && 0 <= k < |plan.roots| ==>
              results[r][k] == if plan.roots[k] == r then Somes(plan.objs[k]) else []
  {
    var all := new Ranks(plan);
    all.RunToEnd();
    forall r | 0 <= r < plan.n
      ensures RankInv(plan, r, all.ranks[r])
    {
      assert RankInv(plan, r, all.View().ranks[r]);
    }
    results := seq(plan.n, r requires 0 <= r < all.ranks.Length reads all.ranks => all.ranks[r].results);
  }
}
