/** Whole runs of the protocol: what they deliver, that they cannot get stuck, that they end. */
module Runs {
  import opened Wire
  import opened Endpoint
  import opened Rounds
  import opened RankInvariant
  import opened HandlerFrames
  import opened SendProofs
  import opened RecvProofs
  import opened WaitProofs
  import opened Network

  /** A rank after `setup_cache`: all staging buffers in the cache, with any contents. */
  ghost predicate Initial(p: Program, st: Rank) {
    && st.round == 0 && st.pc == 0 && st.handles == map[] && st.free == {} && st.xfers == map[] && st.got == map[]
    && st.cache == seq(p.buffers, i => i)
    && (forall b: nat :: b in st.staging <==> b < p.buffers)
    && Fits(p, st)
    && st.out == seq(p.n, _ => []) && st.taken == seq(p.n, _ => 0)
  }

  ghost predicate Next(p: Program, g: seq<Rank>, g': seq<Rank>) {
    exists a: nat, s: Step :: a < |g| && Enabled(p, g, a, s) && Outcome(p, g, a, s).Some?
                              && g' == g[a := Outcome(p, g, a, s).value]
  }

  ghost predicate Run(p: Program, gs: seq<seq<Rank>>) {
    && Valid(p)
    && gs != [] && |gs[0]| == p.n
    && (forall a :: 0 <= a < p.n ==> Initial(p, gs[0][a]))
    && (forall i :: 0 <= i < |gs| - 1 ==> Next(p, gs[i], gs[i + 1]))
  }

  lemma InitialInv(p: Program, a: nat, st: Rank)
    requires Valid(p) && a < p.n && Initial(p, st)
    ensures RankInv(p, a, st) && Fits(p, st)
  {
    forall j | 0 <= j < 2 * p.n ensures SlotOk(p, a, st, j) {
    }
  }

  lemma InitialAll(p: Program, g: seq<Rank>)
    requires Valid(p) && |g| == p.n && forall a :: 0 <= a < p.n ==> Initial(p, g[a])
    ensures Inv(p, g)
  {
    hide RankInv, Fits;
    forall a | 0 <= a < p.n ensures RankInv(p, a, g[a]) && Fits(p, g[a]) {
      InitialInv(p, a, g[a]);
    }
  }

  lemma NextKeeps(p: Program, g: seq<Rank>, g': seq<Rank>)
    requires Inv(p, g) && Next(p, g, g')
    ensures Inv(p, g')
  {
    hide RankInv, Outcome, Shape;
    var a: nat, s :| a < |g| && Enabled(p, g, a, s) && Outcome(p, g, a, s).Some? && g' == g[a := Outcome(p, g, a, s).value];
    StepKeeps(p, g, a, s);
  }

  lemma {:induction false} Reachable(p: Program, gs: seq<seq<Rank>>, i: nat)
    requires Run(p, gs) && i < |gs|
    ensures Inv(p, gs[i])
    decreases i
  {
    hide RankInv, Initial, Next;
    if i == 0 {
      InitialAll(p, gs[0]);
    } else {
      Reachable(p, gs, i - 1);
      assert Next(p, gs[i - 1], gs[i - 1 + 1]);
      NextKeeps(p, gs[i - 1], gs[i]);
    }
  }

  ghost predicate Done(p: Program, g: seq<Rank>) {
    forall a :: 0 <= a < |g| ==> g[a].round == |p.rounds|
  }

  /** In every state of every run, what rank `b` received from `a` in a round it has left is what
      `a` sent to `b` in that round, element by element. */
  lemma DeliversEveryRound(p: Program, gs: seq<seq<Rank>>, i: nat, a: nat, b: nat, r: nat)
    requires Run(p, gs) && i < |gs| && a < p.n && b < p.n
    requires r < |p.rounds| && |gs[i]| == p.n && r < gs[i][b].round
    requires p.rounds[r].data[a][b].Some?
    ensures (r, a) in gs[i][b].got && Contents(gs[i][b].got[(r, a)]) == p.rounds[r].data[a][b].value
  {
    Reachable(p, gs, i);
    assert RankInv(p, b, gs[i][b]);
  }

  /** Once the user's handle of a transfer is completed, a send has put all its messages on the
      channel and a receive has its buffer filled, although other transfers are still under way. */
  lemma CompletedMeansTransferred(p: Program, gs: seq<seq<Rank>>, i: nat, a: nat, j: nat)
    requires Run(p, gs) && i < |gs| && a < p.n && |gs[i]| == p.n
    requires j in gs[i][a].xfers && gs[i][a].xfers[j].user in gs[i][a].handles
    requires gs[i][a].handles[gs[i][a].xfers[j].user].completed
    ensures j < 2 * p.n && gs[i][a].round < |p.rounds| && Expected(p, a, j, gs[i][a].round).Some?
    ensures var st := gs[i][a];
            var d := Expected(p, a, j, st.round).value;
            if j < p.n then j < |st.out| && st.out[j] == Stream(p, a, j, st.round) + Transfer(d, p.rounds[st.round].per)
            else st.xfers[j].Incoming? && Contents(st.xfers[j].dst) == d
  {
    Reachable(p, gs, i);
    assert RankInv(p, a, gs[i][a]) && SlotOk(p, a, gs[i][a], j);
    var w := SlotWire(p, a, j, gs[i][a].round);
    assert w[..|w|] == w;
  }

  /** When a run is over, every staging buffer is back in the cache and every handle is free. */
  lemma EndsClean(p: Program, gs: seq<seq<Rank>>, i: nat, a: nat)
    requires Run(p, gs) && i < |gs| && Done(p, gs[i]) && a < p.n && |gs[i]| == p.n
    ensures |gs[i][a].cache| == p.buffers
    ensures forall b :: b in gs[i][a].cache ==> b < p.buffers
    ensures Distinct(gs[i][a].cache)
    ensures gs[i][a].free == gs[i][a].handles.Keys
  {
    Reachable(p, gs, i);
    var st := gs[i][a];
    assert RankInv(p, a, st);
    EnlistedOnly(p, a, st);
    assert forall j :: j !in st.xfers;
    assert st.xfers == map[];
    forall h | h in st.handles ensures h in st.free {
      assert Live(st, h) ==> Owns(st, h);
    }
  }

  /** A transfer is finished when its operation is idle, and in flight otherwise. */
  lemma FinishedOrMoving(p: Program, a: nat, st: Rank, j: nat)
    requires RankInv(p, a, st) && j in st.xfers
    ensures j < 2 * p.n && Member(p, a) && Shape(p, st) && Frame(p, a, st, j)
    ensures st.xfers[j].op == Idle ==> Finished(p, a, st, j)
    ensures st.xfers[j].op != Idle ==> InFlight(p, a, st, j, RequestOf(st.xfers[j]))
  {
    assert SlotOk(p, a, st, j);
  }
}
