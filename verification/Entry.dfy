/** Who gets into a collective and who gets out of it.

`comm_scatter` and `comm_alltoall` look at the rank's own argument before they talk to anyone: a
rank whose array has the wrong length raises, the others go on into `calls` collectives of MPI,
one after the other.  A rank may leave one of them as soon as the ranks it hears from there, its
`sources`, have entered it too: the root, in a broadcast or a scatter, all ranks in an all-reduce
or an all-to-all (section 4.1 of MPI 1.1).
*/
module Entry {
  import opened Sums

  datatype Place = Checking | Raised | In(call: nat)

  /** `ok[r]` says that rank `r`'s argument passes. */
  datatype Setup = Setup(ok: seq<bool>, sources: set<nat>, calls: nat)

  datatype Label = Check(rank: nat) | Leave(rank: nat)

  type State = seq<Place>

  ghost predicate SetupOk(u: Setup) {
    u.calls > 0 && forall q :: q in u.sources ==> q < |u.ok|
  }

  predicate HasEntered(s: State, q: nat, call: nat) {
    q < |s| && s[q].In? && s[q].call >= call
  }

  predicate Enabled(u: Setup, s: State, l: Label) {
    l.rank < |u.ok| == |s| &&
    match l
    case Check(r) => s[r].Checking?
    case Leave(r) => s[r].In? && s[r].call < u.calls && forall q :: q in u.sources ==> HasEntered(s, q, s[r].call)
  }

  function Next(u: Setup, s: State, l: Label): (t: State)
    requires Enabled(u, s, l)
    ensures |t| == |s|
  {
    match l
    case Check(r) => s[r := if u.ok[r] then In(0) else Raised]
    case Leave(r) => s[r := In(s[r].call + 1)]
  }

  function Start(n: nat): (s: State)
    ensures |s| == n
  {
    seq(n, _ => Checking)
  }

  /** A rank that has left the last collective has returned. */
  predicate Returned(u: Setup, p: Place) {
    p.In? && p.call >= u.calls
  }

  // ---------- What holds of every state ----------

  ghost predicate AllSourcesPass(u: Setup)
    requires SetupOk(u)
  {
    forall q :: q in u.sources ==> u.ok[q]
  }

  /** Only ranks that pass get in, and nobody leaves even the first collective while one of its
      sources has raised. */
  ghost predicate Inv(u: Setup, s: State) {
    && SetupOk(u) && |s| == |u.ok|
    && (forall r :: 0 <= r < |s| ==> match s[r]
          case Checking => true
          case Raised => !u.ok[r]
          case In(call) => u.ok[r] && call <= u.calls && (call > 0 ==> AllSourcesPass(u)))
  }

  lemma NextKeepsInv(u: Setup, s: State, l: Label)
    requires Inv(u, s) && Enabled(u, s, l)
    ensures Inv(u, Next(u, s, l))
  {
    if l.Leave? {
      forall q | q in u.sources
        ensures u.ok[q]
      {
        assert HasEntered(s, q, s[l.rank].call);
      }
    }
  }

  ghost predicate Run(u: Setup, s: State, labels: seq<Label>, t: State)
    decreases |labels|
  {
    if labels == [] then s == t
    else Enabled(u, s, labels[0]) && Run(u, Next(u, s, labels[0]), labels[1..], t)
  }

  // ---------- Every run ends ----------

  function StepsLeft(u: Setup, p: Place): int {
    match p
    case Checking => u.calls + 1
    case Raised => 0
    case In(call) => u.calls - call
  }

  function Rests(u: Setup, s: State): (rests: seq<int>)
    ensures |rests| == |s|
  {
    seq(|s|, r requires 0 <= r < |s| => StepsLeft(u, s[r]))
  }

  function Work(u: Setup, s: State): int {
    Sum(Rests(u, s))
  }

  lemma NextDoesWork(u: Setup, s: State, l: Label)
    requires Inv(u, s) && Enabled(u, s, l)
    ensures Work(u, Next(u, s, l)) < Work(u, s)
  {
    var r, t := l.rank, Next(u, s, l);
    assert Rests(u, t) == Rests(u, s)[r := StepsLeft(u, t[r])];
    SumUpdate(Rests(u, s), r, StepsLeft(u, t[r]));
  }

  lemma WorkIsPositive(u: Setup, s: State)
    requires Inv(u, s)
    ensures 0 <= Work(u, s)
  {
    SumBounds(Rests(u, s), 0);
  }

  lemma {:induction false} RunInv(u: Setup, s: State, labels: seq<Label>, t: State)
    requires Inv(u, s) && Run(u, s, labels, t)
    ensures Inv(u, t) && |labels| <= Work(u, s) - Work(u, t)
    decreases |labels|
  {
    if labels != [] {
      NextKeepsInv(u, s, labels[0]);
      NextDoesWork(u, s, labels[0]);
      RunInv(u, Next(u, s, labels[0]), labels[1..], t);
    }
  }

  // ---------- Where it ends ----------

  /** Nobody can take another step. */
  ghost predicate Stuck(u: Setup, s: State) {
    forall l: Label :: !Enabled(u, s, l)
  }

  datatype Fate = Raises | Blocks | Returns

  function FateAt(u: Setup, p: Place): Fate {
    if p.Raised? then Raises else if Returned(u, p) then Returns else Blocks
  }

  /** What becomes of a rank, from the arguments alone. */
  ghost function FateOf(u: Setup, r: nat): Fate
    requires SetupOk(u) && r < |u.ok|
  {
    if !u.ok[r] then Raises else if AllSourcesPass(u) then Returns else Blocks
  }

  /** The rank that has left the fewest collectives among those inside. */
  lemma {:induction false} Hindmost(s: State, n: nat, r: nat) returns (h: nat)
    requires n <= |s| && r < n && s[r].In?
    ensures h < n && s[h].In? && forall q :: 0 <= q < n && s[q].In? ==> s[h].call <= s[q].call
  {
    if r == n - 1 {
      h := r;
      if k :| 0 <= k < n - 1 && s[k].In? {
        var m := Hindmost(s, n - 1, k);
        h := if s[m].call < s[r].call then m else r;
      }
    } else {
      var m := Hindmost(s, n - 1, r);
      h := if s[n - 1].In? && s[n - 1].call < s[m].call then n - 1 else m;
    }
  }

  /** When all sources pass, a rank that is inside and cannot leave means that somebody can. */
  lemma SomebodyLeaves(u: Setup, s: State, r: nat)
    requires Inv(u, s) && r < |s| && s[r].In? && s[r].call < u.calls && AllSourcesPass(u)
    requires forall q :: 0 <= q < |s| ==> !s[q].Checking?
    ensures !Stuck(u, s)
  {
    var h := Hindmost(s, |s|, r);
    forall q | q in u.sources
      ensures HasEntered(s, q, s[h].call)
    {
      assert u.ok[q] && !s[q].Checking?;
    }
    assert Enabled(u, s, Leave(h));
  }

  /** In whatever order the ranks go, when nobody can go on each has met its fate: a rank that fails
      its check has raised; the others have returned if all sources passed theirs, and sit in the
      first collective for ever if not. */
  lemma StuckIsFate(u: Setup, s: State, r: nat)
    requires Inv(u, s) && Stuck(u, s) && r < |s|
    ensures FateAt(u, s[r]) == FateOf(u, r)
    ensures FateOf(u, r).Blocks? ==> s[r] == In(0)
  {
    forall q | 0 <= q < |s|
      ensures !s[q].Checking?
    {
      assert !Enabled(u, s, Check(q));
    }
    if s[r].In? && s[r].call < u.calls && AllSourcesPass(u) {
      SomebodyLeaves(u, s, r);
    }
  }

  lemma StartInv(u: Setup)
    requires SetupOk(u)
    ensures Inv(u, Start(|u.ok|))
    ensures Work(u, Start(|u.ok|)) == (u.calls + 1) * |u.ok|
  {
    SumBounds(Rests(u, Start(|u.ok|)), u.calls + 1);
  }

  /** Over all runs: nobody returns who is not meant to, not even before the run is over; no run
      goes on for ever; and where it stops everybody has met their fate. */
  lemma FatesAreMet(u: Setup, labels: seq<Label>, s: State, r: nat)
    requires SetupOk(u) && Run(u, Start(|u.ok|), labels, s) && r < |u.ok|
    ensures |s| == |u.ok| && |labels| <= (u.calls + 1) * |u.ok|
    ensures Returned(u, s[r]) ==> FateOf(u, r).Returns?
    ensures Stuck(u, s) ==> FateAt(u, s[r]) == FateOf(u, r)
  {
    StartInv(u);
    RunInv(u, Start(|u.ok|), labels, s);
    WorkIsPositive(u, s);
    if Stuck(u, s) {
      StuckIsFate(u, s, r);
    }
  }

  /** Nobody is left waiting exactly when all sources pass or nobody does. */
  lemma NobodyBlocks(u: Setup)
    requires SetupOk(u)
    ensures (forall r :: 0 <= r < |u.ok| ==> !FateOf(u, r).Blocks?)
       <==> AllSourcesPass(u) || forall r :: 0 <= r < |u.ok| ==> !u.ok[r]
  {
    forall r | 0 <= r < |u.ok|
      ensures FateOf(u, r).Blocks? <==> u.ok[r] && !AllSourcesPass(u)
    {
    }
  }

  // ---------- The ranks on their way ----------

  /** Lets the ranks go, in any order, until nobody can. */
  method Settle(u: Setup) returns (fates: seq<Fate>)
    requires SetupOk(u)
    ensures |fates| == |u.ok| && forall r :: 0 <= r < |u.ok| ==> fates[r] == FateOf(u, r)
  {
    var s := Start(|u.ok|);
    StartInv(u);
    WorkIsPositive(u, s);
    while exists r: nat :: r < |s| && (Enabled(u, s, Check(r)) || Enabled(u, s, Leave(r)))
      invariant Inv(u, s) && Work(u, s) >= 0
      decreases Work(u, s)
    {
      var r: nat :| r < |s| && (Enabled(u, s, Check(r)) || Enabled(u, s, Leave(r)));
      var l := if s[r].Checking? then Check(r) else Leave(r);
      NextKeepsInv(u, s, l);
      NextDoesWork(u, s, l);
      s := Next(u, s, l);
      WorkIsPositive(u, s);
    }
    assert Stuck(u, s) by {
      forall l: Label
        ensures !Enabled(u, s, l)
      {
        assert l == Check(l.rank) || l == Leave(l.rank);
      }
    }
    fates := seq(|s|, r requires 0 <= r < |s| => FateAt(u, s[r]));
    forall r | 0 <= r < |s|
      ensures fates[r] == FateOf(u, r)
    {
      StuckIsFate(u, s, r);
    }
  }
}
