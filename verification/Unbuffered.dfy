/** The unbuffered communicator, which groups by batch: between `start` and `stop` a rank posts several
    messages with one tag to every other rank, and only then waits. */
module Unbuffered {
  import opened Sums
  import opened Wire

  /** `data[r][a][b]` lists what rank `a` sends to rank `b` in round `r`, one message a buffer. */
  datatype Program = Program(n: nat, data: seq<seq<seq<seq<seq<Elem>>>>>)

  ghost predicate Valid(p: Program) {
    forall r :: 0 <= r < |p.data| ==>
      |p.data[r]| == p.n && forall a :: 0 <= a < p.n ==> |p.data[r][a]| == p.n
  }

  /** The messages from `a` to `b` in the rounds before `r`. */
  ghost function Stream(p: Program, a: nat, b: nat, r: nat): seq<seq<Elem>>
    requires Valid(p) && a < p.n && b < p.n && r <= |p.data|
  {
    if r == 0 then [] else Stream(p, a, b, r - 1) + p.data[r - 1][a][b]
  }

  lemma {:induction false} StreamGrows(p: Program, a: nat, b: nat, r: nat, r': nat)
    requires Valid(p) && a < p.n && b < p.n && r <= r' <= |p.data|
    ensures Stream(p, a, b, r) <= Stream(p, a, b, r')
    decreases r' - r
  {
    if r < r' { StreamGrows(p, a, b, r, r' - 1); }
  }

  /** A rank has left `round` rounds and, if `posted`, made the calls of the next one. `sent[b]` are
      the messages it posted to `b`, of which UCX has completed `done[b]`; `slots[a]` is the number of
      receives it posted from `a`, and `got[a]` what the matched ones received. */
  datatype Rank = Rank(round: nat, posted: bool, sent: seq<seq<seq<Elem>>>, done: seq<nat>,
                       slots: seq<nat>, got: seq<seq<seq<Elem>>>)

  /** `Match` pairs the next message from `source` with the next receive for it. A send completes once
      it is matched, or earlier if UCX keeps a copy. */
  datatype Step = Post | Match(source: nat) | Complete(dest: nat) | Leave

  ghost predicate Shape(p: Program, g: seq<Rank>) {
    && Valid(p) && |g| == p.n
    && forall a :: 0 <= a < p.n ==>
         |g[a].sent| == |g[a].done| == |g[a].slots| == |g[a].got| == p.n && g[a].round <= |p.data|
  }

  ghost predicate Enabled(p: Program, g: seq<Rank>, a: nat, s: Step) {
    && Shape(p, g) && a < p.n && g[a].round < |p.data|
    && match s
       case Post => !g[a].posted
       case Match(source) => source < p.n && |g[a].got[source]| < |g[source].sent[a]| && |g[a].got[source]| < g[a].slots[source]
       case Complete(dest) => dest < p.n && g[a].done[dest] < |g[a].sent[dest]|
       case Leave => g[a].posted && forall b :: 0 <= b < p.n ==>
           g[a].done[b] == |g[a].sent[b]| && |g[a].got[b]| == g[a].slots[b]
  }

  /** UCX must complete a send once it is matched; before, it may. */
  ghost predicate Forced(g: seq<Rank>, a: nat, s: Step)
    requires a < |g|
  {
    s.Complete? ==> s.dest < |g| && s.dest < |g[a].done| && a < |g[s.dest].got| && g[a].done[s.dest] < |g[s.dest].got[a]|
  }

  ghost function Do(p: Program, g: seq<Rank>, a: nat, s: Step): Rank
    requires Enabled(p, g, a, s)
  {
    match s
    case Post =>
      g[a].(posted := true,
        sent := seq(p.n, b requires 0 <= b < p.n => g[a].sent[b] + p.data[g[a].round][a][b]),
        slots := seq(p.n, b requires 0 <= b < p.n => g[a].slots[b] + |p.data[g[a].round][b][a]|))
    case Match(source) =>
      var k := |g[a].got[source]|;
      g[a].(got := g[a].got[source := g[a].got[source] + [g[source].sent[a][k]]])
    case Complete(dest) => g[a].(done := g[a].done[dest := g[a].done[dest] + 1])
    case Leave => g[a].(round := g[a].round + 1, posted := false)
  }

  /** The number of rounds whose calls a rank has made. */
  function Started(st: Rank): nat {
    st.round + if st.posted then 1 else 0
  }

  ghost predicate PairInv(p: Program, g: seq<Rank>, a: nat, b: nat)
    requires Shape(p, g) && a < p.n && b < p.n
  {
    && Started(g[a]) <= |p.data| && Started(g[b]) <= |p.data|
    && g[a].sent[b] == Stream(p, a, b, Started(g[a]))
    && g[b].slots[a] == |Stream(p, a, b, Started(g[b]))|
    && |g[b].got[a]| <= g[b].slots[a]
    && g[b].got[a] <= g[a].sent[b]
    && g[a].done[b] <= |g[a].sent[b]|
    && |g[b].got[a]| >= |Stream(p, a, b, g[b].round)|
    && g[a].done[b] >= |Stream(p, a, b, g[a].round)|
  }

  ghost predicate Inv(p: Program, g: seq<Rank>) {
    && Shape(p, g)
    && forall a, b :: 0 <= a < p.n && 0 <= b < p.n ==> PairInv(p, g, a, b)
  }

  ghost predicate Initial(p: Program, g: seq<Rank>) {
    && Valid(p) && |g| == p.n
    && forall a :: 0 <= a < p.n ==>
         g[a] == Rank(0, false, seq(p.n, _ => []), seq(p.n, _ => 0), seq(p.n, _ => 0), seq(p.n, _ => []))
  }

  lemma StepKeeps(p: Program, g: seq<Rank>, c: nat, s: Step)
    requires Inv(p, g) && Enabled(p, g, c, s)
    ensures Inv(p, g[c := Do(p, g, c, s)])
  {
    var g' := g[c := Do(p, g, c, s)];
    forall a, b | 0 <= a < p.n && 0 <= b < p.n ensures PairInv(p, g', a, b) {
      PairKeeps(p, g, c, s, a, b);
    }
  }

  lemma PairKeeps(p: Program, g: seq<Rank>, c: nat, s: Step, a: nat, b: nat)
    requires Inv(p, g) && Enabled(p, g, c, s) && a < p.n && b < p.n
    ensures Shape(p, g[c := Do(p, g, c, s)]) && PairInv(p, g[c := Do(p, g, c, s)], a, b)
  {
    assert PairInv(p, g, a, b);
    hide Inv;
    var g' := g[c := Do(p, g, c, s)];
    if s.Post? && c == a {
      assert g'[a].sent[b] == Stream(p, a, b, g[a].round + 1);
    }
    if s.Leave? {
      if c == a { assert g[a].done[b] == |g[a].sent[b]|; }
      if c == b { assert |g[b].got[a]| == g[b].slots[a]; }
    }
  }

  ghost predicate Next(p: Program, g: seq<Rank>, g': seq<Rank>) {
    exists a: nat, s :: a < |g| && Enabled(p, g, a, s) && g' == g[a := Do(p, g, a, s)]
  }

  ghost predicate Run(p: Program, gs: seq<seq<Rank>>) {
    && gs != [] && Initial(p, gs[0])
    && forall i :: 0 <= i < |gs| - 1 ==> Next(p, gs[i], gs[i + 1])
  }

  lemma {:induction false} Reachable(p: Program, gs: seq<seq<Rank>>, i: nat)
    requires Run(p, gs) && i < |gs|
    ensures Inv(p, gs[i])
    decreases i
  {
    if i > 0 {
      Reachable(p, gs, i - 1);
      assert Next(p, gs[i - 1], gs[i - 1 + 1]);
      hide Inv, Enabled, Do;
      var a: nat, s :| a < |gs[i - 1]| && Enabled(p, gs[i - 1], a, s) && gs[i] == gs[i - 1][a := Do(p, gs[i - 1], a, s)];
      StepKeeps(p, gs[i - 1], a, s);
    }
  }

  /** Rounds never mix although all messages of a pair carry one tag: the receives that rank `b` posted
      for round `r` hold exactly the messages `a` sent in round `r`, buffer by buffer, once `b` has left
      the round, and however many rounds `a` is ahead. */
  lemma RoundsNeverMix(p: Program, gs: seq<seq<Rank>>, i: nat, a: nat, b: nat, r: nat)
    requires Run(p, gs) && i < |gs| && Shape(p, gs[i]) && a < p.n && b < p.n && r < gs[i][b].round
    ensures |Stream(p, a, b, r + 1)| <= |gs[i][b].got[a]|
    ensures gs[i][b].got[a][|Stream(p, a, b, r)|..|Stream(p, a, b, r + 1)|] == p.data[r][a][b]
  {
    Reachable(p, gs, i);
    var g := gs[i];
    assert PairInv(p, g, a, b);
    StreamGrows(p, a, b, r + 1, g[b].round);
    StreamGrows(p, a, b, Started(g[a]), |p.data|);
    StreamGrows(p, a, b, r + 1, |p.data|);
    var whole := Stream(p, a, b, |p.data|);
    assert g[b].got[a] <= whole;
    assert g[b].got[a][..|Stream(p, a, b, r + 1)|] == whole[..|Stream(p, a, b, r + 1)|] == Stream(p, a, b, r + 1);
  }

  // ---------- no deadlock ----------

  ghost predicate Over(p: Program, g: seq<Rank>) {
    forall a :: 0 <= a < |g| ==> g[a].round == |p.data|
  }

  ghost predicate Moves(p: Program, g: seq<Rank>, a: nat) {
    a < |g| && exists s :: Enabled(p, g, a, s) && Forced(g, a, s)
  }

  lemma {:induction false} Slowest(g: seq<Rank>, n: nat) returns (b: nat)
    requires 0 < n <= |g|
    ensures b < n && forall a :: 0 <= a < n ==> g[b].round <= g[a].round
  {
    if n == 1 {
      b := 0;
    } else {
      b := Slowest(g, n - 1);
      if g[n - 1].round < g[b].round { b := n - 1; }
    }
  }

  /** Unless all ranks are through, some rank has a step, even if UCX completes no send before its
      message is matched. */
  lemma NeverStuck(p: Program, g: seq<Rank>)
    requires Inv(p, g) && !Over(p, g)
    ensures exists a :: Moves(p, g, a)
  {
    var b := Slowest(g, p.n);
    assert g[b].round < |p.data|;
    if !g[b].posted {
      assert Enabled(p, g, b, Post) && Forced(g, b, Post);
      assert Moves(p, g, b);
    } else if a :| 0 <= a < p.n && |g[b].got[a]| < g[b].slots[a] {
      ReceiveMoves(p, g, a, b);
    } else if d :| 0 <= d < p.n && g[b].done[d] < |g[b].sent[d]| {
      SendMoves(p, g, b, d);
    } else {
      forall d | 0 <= d < p.n ensures g[b].done[d] == |g[b].sent[d]| && |g[b].got[d]| == g[b].slots[d] {
        assert PairInv(p, g, b, d) && PairInv(p, g, d, b);
      }
      assert Enabled(p, g, b, Leave) && Forced(g, b, Leave);
      assert Moves(p, g, b);
    }
  }

  /** A receive of the slowest rank: its message is there, or the sender has yet to post. */
  lemma ReceiveMoves(p: Program, g: seq<Rank>, a: nat, b: nat)
    requires Inv(p, g) && a < p.n && b < p.n && g[b].round < |p.data| && g[b].posted
    requires forall c :: 0 <= c < p.n ==> g[b].round <= g[c].round
    requires |g[b].got[a]| < g[b].slots[a]
    ensures exists c :: Moves(p, g, c)
  {
    assert PairInv(p, g, a, b);
    if Started(g[a]) > g[b].round {
      StreamGrows(p, a, b, Started(g[b]), Started(g[a]));
      assert Enabled(p, g, b, Match(a)) && Forced(g, b, Match(a));
      assert Moves(p, g, b);
    } else {
      assert Enabled(p, g, a, Post) && Forced(g, a, Post);
      assert Moves(p, g, a);
    }
  }

  /** A send of the slowest rank: it is matched, or can be, or the receiver has yet to post. */
  lemma SendMoves(p: Program, g: seq<Rank>, a: nat, b: nat)
    requires Inv(p, g) && a < p.n && b < p.n && g[a].round < |p.data| && g[a].posted
    requires forall c :: 0 <= c < p.n ==> g[a].round <= g[c].round
    requires g[a].done[b] < |g[a].sent[b]|
    ensures exists c :: Moves(p, g, c)
  {
    assert PairInv(p, g, a, b);
    if g[a].done[b] < |g[b].got[a]| {
      assert Enabled(p, g, a, Complete(b)) && Forced(g, a, Complete(b));
      assert Moves(p, g, a);
    } else if Started(g[b]) > g[a].round {
      StreamGrows(p, a, b, Started(g[a]), Started(g[b]));
      assert |g[b].got[a]| < g[b].slots[a];
      assert Enabled(p, g, b, Match(a)) && Forced(g, b, Match(a));
      assert Moves(p, g, b);
    } else {
      assert Enabled(p, g, b, Post) && Forced(g, b, Post);
      assert Moves(p, g, b);
    }
  }

  // ---------- every run ends ----------

  /** What rank `a` has left to do on its channels with rank `b`: sends to complete, receives to match. */
  ghost function PairLeft(p: Program, a: nat, st: Rank): int -> int
    requires Valid(p) && a < p.n && |st.done| == |st.got| == p.n
  {
    b => if 0 <= b < p.n
         then |Stream(p, a, b, |p.data|)| - st.done[b] + |Stream(p, b, a, |p.data|)| - |st.got[b]| else 0
  }

  /** The steps rank `a` has left: a post and a leave each round, and those on its channels. */
  ghost function RankLeft(p: Program, a: nat, st: Rank): int
    requires Valid(p) && a < p.n && |st.done| == |st.got| == p.n
  {
    2 * (|p.data| - st.round) - (if st.posted then 1 else 0) + Sum(p.n, PairLeft(p, a, st))
  }

  ghost function Lefts(p: Program, g: seq<Rank>): int -> int
    requires Shape(p, g)
  {
    a => if 0 <= a < p.n then RankLeft(p, a, g[a]) else 0
  }

  ghost function StepsLeft(p: Program, g: seq<Rank>): int
    requires Shape(p, g)
  {
    Sum(p.n, Lefts(p, g))
  }

  /** Every step takes exactly one of the steps its rank has left. */
  lemma RankTakes(p: Program, g: seq<Rank>, a: nat, s: Step)
    requires Enabled(p, g, a, s)
    ensures |Do(p, g, a, s).done| == |Do(p, g, a, s).got| == p.n
    ensures RankLeft(p, a, Do(p, g, a, s)) == RankLeft(p, a, g[a]) - 1
  {
    hide Stream;
    var st, st' := g[a], Do(p, g, a, s);
    match s
    case Match(source) => SumChange(p.n, PairLeft(p, a, st), PairLeft(p, a, st'), source);
    case Complete(dest) => SumChange(p.n, PairLeft(p, a, st), PairLeft(p, a, st'), dest);
    case _ => SumEq(p.n, PairLeft(p, a, st), PairLeft(p, a, st'));
  }

  lemma StepTakes(p: Program, g: seq<Rank>, a: nat, s: Step)
    requires Inv(p, g) && Enabled(p, g, a, s)
    ensures Shape(p, g[a := Do(p, g, a, s)])
    ensures StepsLeft(p, g[a := Do(p, g, a, s)]) == StepsLeft(p, g) - 1
  {
    StepKeeps(p, g, a, s);
    hide Do, Inv, RankLeft;
    RankTakes(p, g, a, s);
    InvShape(p, g[a := Do(p, g, a, s)]);
    SumChange(p.n, Lefts(p, g), Lefts(p, g[a := Do(p, g, a, s)]), a);
  }

  lemma InvShape(p: Program, g: seq<Rank>)
    requires Inv(p, g)
    ensures Shape(p, g)
  {
  }

  lemma RankLeftNonNegative(p: Program, g: seq<Rank>, a: nat)
    requires Inv(p, g) && a < p.n
    ensures RankLeft(p, a, g[a]) >= 0
  {
    forall b | 0 <= b < p.n ensures PairLeft(p, a, g[a])(b) >= 0 {
      assert PairInv(p, g, a, b) && PairInv(p, g, b, a);
      StreamGrows(p, a, b, Started(g[a]), |p.data|);
      StreamGrows(p, b, a, Started(g[a]), |p.data|);
    }
    SumNonNegative(p.n, PairLeft(p, a, g[a]));
    assert PairInv(p, g, a, a);
  }

  lemma StepsLeftNonNegative(p: Program, g: seq<Rank>)
    requires Inv(p, g)
    ensures Shape(p, g) && StepsLeft(p, g) >= 0
  {
    InvShape(p, g);
    forall a | 0 <= a < p.n ensures Lefts(p, g)(a) >= 0 { RankLeftNonNegative(p, g, a); }
    hide Inv, RankLeft;
    SumNonNegative(p.n, Lefts(p, g));
  }

  /** Every run ends: it has no more steps than its first state has left. */
  lemma {:induction false} RunsEnd(p: Program, gs: seq<seq<Rank>>, i: nat)
    requires Run(p, gs) && i < |gs|
    ensures Shape(p, gs[0]) && Shape(p, gs[i])
    ensures 0 <= StepsLeft(p, gs[i]) == StepsLeft(p, gs[0]) - i
    decreases i
  {
    hide Inv, Enabled, Do, StepsLeft, Initial;
    Reachable(p, gs, i);
    StepsLeftNonNegative(p, gs[i]);
    if i > 0 {
      RunsEnd(p, gs, i - 1);
      Reachable(p, gs, i - 1);
      assert Next(p, gs[i - 1], gs[i - 1 + 1]);
      var a: nat, s :| a < |gs[i - 1]| && Enabled(p, gs[i - 1], a, s) && gs[i] == gs[i - 1][a := Do(p, gs[i - 1], a, s)];
      StepTakes(p, gs[i - 1], a, s);
    }
  }
}
