/** No deadlock, although UCX does no more than it must: a message is sent only when the receive for it
    is waiting, and nothing completes inside a posting call. */
module Progress {
  import opened Wire
  import opened Endpoint
  import opened Rounds
  import opened RankInvariant
  import opened WaitProofs
  import opened Network
  import opened Runs

  /** The receive for the next message from rank `a` to rank `j` is posted, and all earlier messages
      have been matched. */
  ghost predicate ReceiverWaits(p: Program, g: seq<Rank>, a: nat, j: nat)
    requires Cluster(p, g) && a < p.n && j < p.n
  {
    && p.n + a in g[j].xfers && g[j].xfers[p.n + a].op.Posted?
    && g[j].taken[a] == |g[a].out[j]|
  }

  /** A step UCX cannot put off. It may complete a send before the receiver is there, and post several
      messages at once, but it does not have to. */
  ghost predicate Forced(p: Program, g: seq<Rank>, a: nat, s: Step)
    requires Cluster(p, g) && a < p.n
  {
    match s
    case PostSend(_, immediate, _, stop, _) => !immediate && stop == 0
    case PostRecv(_, _, plan) => plan == []
    case ReadMemory(j) => j < p.n && ReceiverWaits(p, g, a, j)
    case SendCallback(_, stop, _) => stop == 0
    case RecvCallback(_, plan) => |plan| == 1
    case _ => true
  }

  /** Rank `a` has a step that nothing can hold up. */
  ghost predicate Moves(p: Program, g: seq<Rank>, a: nat) {
    exists s :: Enabled(p, g, a, s) && Forced(p, g, a, s)
  }

  lemma {:induction false} Slowest(p: Program, g: seq<Rank>, n: nat) returns (b: nat)
    requires 0 < n <= |g|
    ensures b < n && forall a :: 0 <= a < n ==> g[b].round <= g[a].round
  {
    if n == 1 {
      b := 0;
    } else {
      b := Slowest(p, g, n - 1);
      if g[n - 1].round < g[b].round { b := n - 1; }
    }
  }

  lemma FreshRequest(s: set<nat>) returns (u: nat)
    ensures u !in s
  {
    u := 0;
    var rest := s;
    while u in s
      invariant rest <= s
      invariant forall x :: x in s && x >= u ==> x in rest
      invariant forall x :: x in rest ==> x >= u
      decreases rest
    {
      rest := rest - {u};
      u := u + 1;
    }
  }

  /** While a rank is posting, it can always go on: neither call blocks. */
  lemma PostingMoves(p: Program, g: seq<Rank>, a: nat)
    requires Inv(p, g) && a < p.n && g[a].round < |p.rounds| && g[a].pc < 2 * p.n
    ensures Moves(p, g, a)
  {
    hide RankInv, Fits, Matched;
    InvCluster(p, g);
    PoolLeft(p, g, a);
    var st := g[a];
    var u := FreshRequest(st.handles.Keys);
    var q := FreshRequest(st.handles.Keys + {u});
    var s := if RankInvariant.Expected(p, a, st.pc, st.round).None? then Pass
             else if st.pc < p.n then PostSend(u, false, InitialInfo(), 0, q)
             else PostRecv(None, u, []);
    assert Enabled(p, g, a, s) && Forced(p, g, a, s);
  }

  lemma PoolLeft(p: Program, g: seq<Rank>, a: nat)
    requires Inv(p, g) && a < p.n
    ensures Member(p, a) && Shape(p, g[a])
  {
    assert RankInv(p, a, g[a]);
  }

  /** A finished message waits for its callback only. */
  lemma CallbackMoves(p: Program, g: seq<Rank>, a: nat, j: nat)
    requires Inv(p, g) && a < p.n && j < 2 * p.n && j in g[a].xfers && g[a].xfers[j].op.Landed?
    requires g[a].round < |p.rounds|
    ensures Moves(p, g, a)
  {
    hide RankInv, Fits, Matched;
    InvCluster(p, g);
    var q := FreshRequest(g[a].handles.Keys);
    var s := if j < p.n then SendCallback(j, 0, q) else RecvCallback(j, [q]);
    assert Enabled(p, g, a, s) && Forced(p, g, a, s);
  }

  /** Where rank `a` stands with slot `j` of round `r`, if it has not passed all of it on and cannot
      move: in that round, with an operation posted. */
  lemma SlotPosted(p: Program, g: seq<Rank>, a: nat, j: nat, r: nat)
    requires Inv(p, g) && Cluster(p, g) && a < p.n && j < 2 * p.n && r < |p.rounds| && r <= g[a].round
    requires Channel(p, g[a], j) < |SlotStream(p, a, j, r)| + |SlotWire(p, a, j, r)|
    requires !Moves(p, g, a)
    ensures g[a].round == r && j in g[a].xfers && g[a].xfers[j].op.Posted?
  {
    hide Moves, Fits, Matched, Stream, WireOf;
    assert RankInv(p, a, g[a]);
    StillInRound(p, a, g[a], j, r);
    if g[a].pc < 2 * p.n { PostingMoves(p, g, a); }
    SlotOpen(p, a, g[a], j);
    if g[a].xfers[j].op.Landed? { CallbackMoves(p, g, a, j); }
  }

  /** The messages that went through the channel of slot `j` so far. */
  ghost function Channel(p: Program, st: Rank, j: nat): nat
    requires Shape(p, st) && j < 2 * p.n
  {
    if j < p.n then |st.out[j]| else st.taken[j - p.n]
  }

  lemma StillInRound(p: Program, a: nat, st: Rank, j: nat, r: nat)
    requires RankInv(p, a, st) && Shape(p, st) && j < 2 * p.n && r < |p.rounds| && r <= st.round && Member(p, a)
    requires Channel(p, st, j) < |SlotStream(p, a, j, r)| + |SlotWire(p, a, j, r)|
    ensures st.round == r
  {
    hide RankInv, Stream, WireOf;
    var m := ChannelAt(p, a, st, j);
    if st.round > r {
      StreamStep(p, Source(p, a, j), Target(p, a, j), r);
      StreamGrows(p, Source(p, a, j), Target(p, a, j), r + 1, st.round);
    }
  }

  /** Slot `j` of a rank that has posted everything, when not all of its messages went through. */
  lemma SlotOpen(p: Program, a: nat, st: Rank, j: nat)
    requires RankInv(p, a, st) && Shape(p, st) && j < 2 * p.n && st.round < |p.rounds| && st.pc >= 2 * p.n && Member(p, a)
    requires Channel(p, st, j) < |SlotStream(p, a, j, st.round)| + |SlotWire(p, a, j, st.round)|
    ensures j in st.xfers && (st.xfers[j].op.Posted? || st.xfers[j].op.Landed?)
  {
    hide RankInv, Stream, Valid;
    SlotFact(p, a, st, j);
    StreamStep(p, Source(p, a, j), Target(p, a, j), st.round);
  }

  /** An operation in flight has messages left to pass on. */
  lemma PostedLeft(p: Program, a: nat, st: Rank, j: nat)
    requires RankInv(p, a, st) && j in st.xfers && st.xfers[j].op.Posted? && st.round < |p.rounds|
    ensures Member(p, a) && Shape(p, st) && j < 2 * p.n
    ensures Channel(p, st, j) < |SlotStream(p, a, j, st.round)| + |SlotWire(p, a, j, st.round)|
  {
    hide RankInv, Stream, WireOf, Valid;
    FinishedOrMoving(p, a, st, j);
  }

  /** Both ends of a channel are posted: the message there is matched, or the send is taken up. */
  lemma EndsMeet(p: Program, g: seq<Rank>, s: nat, a: nat)
    requires Inv(p, g) && Cluster(p, g) && s < p.n && a < p.n
    requires g[s].round < |p.rounds| && a in g[s].xfers && g[s].xfers[a].op.Posted?
    requires g[a].round < |p.rounds| && p.n + s in g[a].xfers && g[a].xfers[p.n + s].op.Posted?
    ensures Moves(p, g, s) || Moves(p, g, a)
  {
    hide RankInv, Fits;
    if g[a].taken[s] == |g[s].out[a]| {
      assert Enabled(p, g, s, ReadMemory(a)) && Forced(p, g, s, ReadMemory(a));
    } else {
      assert SlotInbox(p, g, a, p.n + s) != [];
      assert Enabled(p, g, a, Match(p.n + s)) && Forced(p, g, a, Match(p.n + s));
    }
  }

  /** A message sent and not matched, with the receive posted. */
  lemma MessageMoves(p: Program, g: seq<Rank>, s: nat, a: nat)
    requires Inv(p, g) && Cluster(p, g) && s < p.n && a < p.n && g[a].round < |p.rounds|
    requires p.n + s in g[a].xfers && g[a].xfers[p.n + s].op.Posted? && g[a].taken[s] < |g[s].out[a]|
    ensures Moves(p, g, a)
  {
    hide RankInv, Fits, Matched;
    assert SlotInbox(p, g, a, p.n + s) != [];
    assert Enabled(p, g, a, Match(p.n + s)) && Forced(p, g, a, Match(p.n + s));
  }

  /** A transfer in flight at the slowest rank: one of its two ends has a step. */
  lemma TransferMoves(p: Program, g: seq<Rank>, a: nat, j: nat)
    requires Inv(p, g) && Cluster(p, g) && a < p.n && j in g[a].xfers && g[a].xfers[j].op != Idle
    requires g[a].round < |p.rounds|
    requires forall b :: 0 <= b < p.n ==> g[a].round <= g[b].round
    ensures j < 2 * p.n
    ensures Moves(p, g, a) || Moves(p, g, if j < p.n then j else j - p.n)
  {
    hide Moves, Fits, Stream, WireOf;
    assert RankInv(p, a, g[a]);
    SlotBound(p, a, g[a], j);
    if g[a].xfers[j].op.Landed? {
      CallbackMoves(p, g, a, j);
    } else {
      PostedLeft(p, a, g[a], j);
      if j < p.n { SendMoves(p, g, a, j); } else { ReceiveMoves(p, g, a, j - p.n); }
    }
  }

  lemma SlotBound(p: Program, a: nat, st: Rank, j: nat)
    requires RankInv(p, a, st) && j in st.xfers
    ensures j < 2 * p.n
  {
  }

  /** A posted send of the slowest rank. */
  lemma SendMoves(p: Program, g: seq<Rank>, s: nat, a: nat)
    requires Inv(p, g) && Cluster(p, g) && s < p.n && a < p.n && g[s].round < |p.rounds| && g[s].round <= g[a].round
    requires a in g[s].xfers && g[s].xfers[a].op.Posted?
    requires Channel(p, g[s], a) < |SlotStream(p, s, a, g[s].round)| + |SlotWire(p, s, a, g[s].round)|
    ensures Moves(p, g, s) || Moves(p, g, a)
  {
    hide RankInv, Fits, Stream, WireOf, Moves;
    assert g[a].taken[s] <= |g[s].out[a]|;
    if !Moves(p, g, a) {
      SlotPosted(p, g, a, p.n + s, g[s].round);
      EndsMeet(p, g, s, a);
    }
  }

  /** A posted receive of the slowest rank. */
  lemma ReceiveMoves(p: Program, g: seq<Rank>, a: nat, s: nat)
    requires Inv(p, g) && Cluster(p, g) && s < p.n && a < p.n && g[a].round < |p.rounds| && g[a].round <= g[s].round
    requires p.n + s in g[a].xfers && g[a].xfers[p.n + s].op.Posted?
    requires Channel(p, g[a], p.n + s) < |SlotStream(p, a, p.n + s, g[a].round)| + |SlotWire(p, a, p.n + s, g[a].round)|
    ensures Moves(p, g, s) || Moves(p, g, a)
  {
    hide RankInv, Fits, Stream, WireOf, Moves;
    assert g[a].taken[s] <= |g[s].out[a]|;
    if g[a].taken[s] < |g[s].out[a]| {
      MessageMoves(p, g, s, a);
    } else if !Moves(p, g, s) {
      SlotPosted(p, g, s, a, g[a].round);
      EndsMeet(p, g, s, a);
    }
  }

  /** The slowest rank has posted its round and waits. */
  lemma WaitingMoves(p: Program, g: seq<Rank>, a: nat)
    requires Inv(p, g) && Cluster(p, g) && a < p.n && g[a].round < |p.rounds| && g[a].pc >= 2 * p.n
    requires forall b :: 0 <= b < p.n ==> g[a].round <= g[b].round
    ensures exists b: nat :: b < p.n && Moves(p, g, b)
  {
    hide Moves, RankInv, Fits, Matched;
    if j :| j in g[a].xfers && g[a].xfers[j].op != Idle {
      TransferMoves(p, g, a, j);
    } else {
      AllDone(p, g, a);
      ReleasingMoves(p, g, a);
    }
  }

  lemma AllDone(p: Program, g: seq<Rank>, a: nat)
    requires Inv(p, g) && a < p.n
    requires forall j :: j in g[a].xfers ==> g[a].xfers[j].op == Idle
    ensures AllCompleted(g[a])
  {
    assert RankInv(p, a, g[a]);
    hide RankInv, Fits, Matched;
    forall j | j in g[a].xfers
      ensures g[a].xfers[j].user in g[a].handles && g[a].handles[g[a].xfers[j].user].completed
    {
      FinishedOrMoving(p, a, g[a], j);
    }
  }

  lemma ReleasingMoves(p: Program, g: seq<Rank>, a: nat)
    requires Inv(p, g) && Cluster(p, g) && a < p.n && g[a].round < |p.rounds| && g[a].pc >= 2 * p.n
    requires AllCompleted(g[a])
    ensures Moves(p, g, a)
  {
    hide RankInv, Fits, Matched, AllCompleted;
    var st := g[a];
    var per := if st.round + 1 < |p.rounds| then p.rounds[st.round + 1].per else 0;
    var memory := map b | b in st.staging :: seq(per, _ => 0);
    assert memory.Keys == st.staging.Keys;
    var s := if st.pc == 4 * p.n then NextRound(memory)
             else if st.pc - 2 * p.n in st.xfers then Release
             else Pass;
    assert Enabled(p, g, a, s) && Forced(p, g, a, s);
  }

  lemma RoundsBounded(p: Program, g: seq<Rank>)
    requires Inv(p, g)
    ensures forall a :: 0 <= a < p.n ==> g[a].round <= |p.rounds|
  {
    forall a | 0 <= a < p.n ensures g[a].round <= |p.rounds| {
      assert RankInv(p, a, g[a]);
    }
  }

  /** In every unfinished state some rank has a step that does not depend on the good will of UCX. */
  lemma SomeoneMoves(p: Program, g: seq<Rank>)
    requires Inv(p, g) && !Done(p, g)
    ensures exists b: nat :: b < p.n && Moves(p, g, b)
  {
    RoundsBounded(p, g);
    InvCluster(p, g);
    hide RankInv, Moves, Fits, Matched;
    var a := Slowest(p, g, p.n);
    if g[a].pc < 2 * p.n {
      PostingMoves(p, g, a);
    } else {
      WaitingMoves(p, g, a);
    }
  }

  /** UCX, doing only what it must, has nothing left to do, and no rank has a call to make. */
  ghost predicate Stuck(p: Program, g: seq<Rank>) {
    forall b: nat :: b < p.n ==> !Moves(p, g, b)
  }

  /** No deadlock: a run that is stuck is over at every rank, even if UCX completes no send before its
      receive is waiting. */
  lemma NeverStuck(p: Program, gs: seq<seq<Rank>>)
    requires Run(p, gs) && Stuck(p, gs[|gs| - 1])
    ensures Done(p, gs[|gs| - 1])
  {
    Reachable(p, gs, |gs| - 1);
    hide Inv, Run, Moves;
    if !Done(p, gs[|gs| - 1]) {
      SomeoneMoves(p, gs[|gs| - 1]);
    }
  }

  /** A step that is possible is taken without a crash, so that the run goes on. */
  lemma MovesGoOn(p: Program, g: seq<Rank>, a: nat)
    requires Inv(p, g) && a < p.n && Moves(p, g, a)
    ensures exists g' :: Next(p, g, g')
  {
    hide Inv, Enabled, Forced, Outcome;
    InvSize(p, g);
    var s :| Enabled(p, g, a, s) && Forced(p, g, a, s);
    StepKeeps(p, g, a, s);
    assert Next(p, g, g[a := Outcome(p, g, a, s).value]);
  }

  lemma InvSize(p: Program, g: seq<Rank>)
    requires Inv(p, g)
    ensures |g| == p.n && Cluster(p, g)
  {
  }
}
