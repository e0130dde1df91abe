/** What a step at one rank leaves alone: staging buffers with an operation in flight, and handles
    that are already completed. */
module Handles {
  import opened Wire
  import opened Endpoint
  import opened Rounds
  import opened RankInvariant
  import opened HandlerFrames
  import opened SendProofs
  import opened RecvProofs
  import opened WaitProofs
  import opened Network
  import opened Runs
  import opened Termination

  /** The slot a step works on. */
  function SlotOf(p: Program, st: Rank, s: Step): nat {
    match s
    case ReadMemory(j) => j
    case SendCallback(j, _, _) => j
    case Match(j) => j
    case RecvCallback(j, _) => j
    case _ => if st.pc < 2 * p.n then st.pc else st.pc - 2 * p.n
  }

  /** The staging buffer a step may write. */
  function BufferFor(p: Program, st: Rank, s: Step): nat {
    var j := SlotOf(p, st, s);
    if j in st.xfers && BufferOf(st, j).Some? then BufferOf(st, j).value
    else if st.cache != [] then st.cache[0] else 0
  }

  lemma PostAgrees(p: Program, g: seq<Rank>, a: nat, s: Step, st': Rank)
    requires Around(p, g, a, s, st') && (s.PostSend? || s.PostRecv?)
    ensures Agree(g[a], st', SlotOf(p, g[a], s), BufferFor(p, g[a], s))
  {
    var st := g[a];
    hide Send, Recv, PlanReady, Touches, Agree;
    if s.PostSend? {
      SendTouches(st, st.pc, Expected(p, a, st.pc, st.round).value, p.rounds[st.round].per,
                  s.u, s.immediate, s.raw, s.stop, s.q);
    } else {
      RecvTouches(st, st.pc, s.dst, p.rounds[st.round].per, s.u, SlotInbox(p, g, a, st.pc), s.plan);
    }
    PassingAgrees(st, st', st.pc, st.cache[0]);
  }

  lemma PassingAgrees(st: Rank, st': Rank, j: nat, b: nat)
    requires Touches(st, st'.(pc := st.pc), j, b) && st.pc == j < 2 * |st.out| && st'.pc == j + 1
    ensures Agree(st, st', j, b)
  {
  }

  lemma CallbackAgrees(p: Program, g: seq<Rank>, a: nat, s: Step, st': Rank)
    requires Around(p, g, a, s, st') && (s.SendCallback? || s.RecvCallback?)
    requires var h := g[a].xfers[s.j].op.request;
             h in g[a].handles && g[a].handles[h].buffer == BufferOf(g[a], s.j)
    ensures Agree(g[a], st', s.j, BufferFor(p, g[a], s))
  {
    hide SendHandler, RecvHandler, RecvReady, PlanReady, SendReady, SlotInbox, Agree, Touches, Valid;
    var st, j := g[a], s.j;
    var h := st.xfers[j].op.request;
    var st1 := st.(xfers := st.xfers[j := WithOp(st.xfers[j], Idle)]);
    TouchesItself(st, j, st.handles[h].buffer);
    if s.SendCallback? {
      ReadyBuffer(st1, h);
      SendHandlerTouches(st1, h, s.stop, s.q);
      TouchesTrans(st, st1, st', j, st.handles[h].buffer.value);
    } else {
      ResumedTouches(st, j, h, SlotInbox(p, g, a, j), s.plan);
    }
    TouchedAgrees(st, st', j, st.handles[h].buffer.value);
  }

  lemma TouchedAgrees(st: Rank, st': Rank, j: nat, b: nat)
    requires Touches(st, st', j, b)
    ensures Agree(st, st', j, b)
  {
  }

  lemma MemoryAgrees(p: Program, g: seq<Rank>, a: nat, s: Step, st': Rank)
    requires Around(p, g, a, s, st') && (s.ReadMemory? || s.Match?)
    requires BufferOf(g[a], s.j).Some? && (g[a].xfers[s.j].op.place.Staging? ==> g[a].xfers[s.j].op.place.buffer == BufferOf(g[a], s.j).value)
    ensures Agree(g[a], st', s.j, BufferFor(p, g[a], s))
  {
    hide SlotInbox;
  }

  lemma RequestFacts(p: Program, a: nat, st: Rank, j: nat)
    requires RankInv(p, a, st) && j in st.xfers && st.xfers[j].op != Idle
    ensures var h := RequestOf(st.xfers[j]);
            && h in st.handles && BufferOf(st, j).Some? && st.handles[h].buffer == BufferOf(st, j)
            && st.handles[h].slot == j && !st.handles[st.xfers[j].user].completed
    ensures st.xfers[j].op.Posted? && st.xfers[j].op.place.Staging? ==> st.xfers[j].op.place.buffer == BufferOf(st, j).value
  {
    FinishedOrMoving(p, a, st, j);
  }

  /** A step works on one slot and one staging buffer and agrees with the old state on the rest. */
  lemma StepAgrees(p: Program, g: seq<Rank>, a: nat, s: Step)
    requires Inv(p, g) && Enabled(p, g, a, s) && !s.NextRound?
    ensures Outcome(p, g, a, s).Some? && a < |g|
    ensures Agree(g[a], Outcome(p, g, a, s).value, SlotOf(p, g[a], s), BufferFor(p, g[a], s))
  {
    IsAround(p, g, a, s);
    assert RankInv(p, a, g[a]);
    var st, st' := g[a], Outcome(p, g, a, s).value;
    EnlistedOnly(p, a, st);
    hide RankInv, Outcome, Around, Agree;
    match s
    case PostSend(_, _, _, _, _) => PostAgrees(p, g, a, s, st');
    case PostRecv(_, _, _) => PostAgrees(p, g, a, s, st');
    case ReadMemory(j) => RequestFacts(p, a, st, j); MemoryAgrees(p, g, a, s, st');
    case Match(j) => RequestFacts(p, a, st, j); MemoryAgrees(p, g, a, s, st');
    case SendCallback(j, _, _) => RequestFacts(p, a, st, j); CallbackAgrees(p, g, a, s, st');
    case RecvCallback(j, _) => RequestFacts(p, a, st, j); CallbackAgrees(p, g, a, s, st');
    case Pass => WaitAgrees(p, g, a, s, st');
    case Release => WaitAgrees(p, g, a, s, st');
  }

  lemma WaitAgrees(p: Program, g: seq<Rank>, a: nat, s: Step, st': Rank)
    requires Inv(p, g) && Around(p, g, a, s, st') && (s.Pass? || s.Release?)
    ensures Agree(g[a], st', SlotOf(p, g[a], s), BufferFor(p, g[a], s))
  {
    hide RankInv, ReleaseSlot, Stream;
    var st := g[a];
    assert RankInv(p, a, st);
    if s.Release? {
      AllFinished(p, a, st, st.pc - 2 * p.n, st.pc - 2 * p.n);
      ReleaseAgrees(st, st.pc - 2 * p.n);
    }
  }

  /** No staging buffer is overwritten while an operation on it is in flight. Until UCX has read the
      memory of a posted send, and from the landing of a batch to its callback, no step of any kind
      writes the buffer. */
  lemma InFlightUntouched(p: Program, g: seq<Rank>, a: nat, s: Step, j: nat)
    requires Inv(p, g) && Enabled(p, g, a, s) && a < |g| && j in g[a].xfers
    requires (j < p.n && g[a].xfers[j].op.Posted?) || (j >= p.n && g[a].xfers[j].op.Landed? && !(s.RecvCallback? && s.j == j))
    ensures BufferOf(g[a], j).Some? && BufferOf(g[a], j).value in g[a].staging
    ensures Outcome(p, g, a, s).Some? && BufferOf(g[a], j).value in Outcome(p, g, a, s).value.staging
    ensures Outcome(p, g, a, s).value.staging[BufferOf(g[a], j).value] == g[a].staging[BufferOf(g[a], j).value]
  {
    var st := g[a];
    assert RankInv(p, a, st);
    HeldBuffers(p, a, st, j);
    EnlistedOnly(p, a, st);
    RequestFacts(p, a, st, j);
    StepKeeps(p, g, a, s);
    if !s.NextRound? && SlotOf(p, st, s) != j {
      StepAgrees(p, g, a, s);
      hide RankInv, Outcome;
      WritesElsewhere(p, a, st, s, j);
    } else {
      hide RankInv;
      assert s.ReadMemory? || s.NextRound? || s.Pass?;
    }
  }

  lemma HeldBuffers(p: Program, a: nat, st: Rank, j: nat)
    requires RankInv(p, a, st) && j in st.xfers
    ensures BufferOf(st, j).Some? && BufferOf(st, j).value in st.staging && BufferOf(st, j).value !in st.cache
    ensures forall i :: i in st.xfers && i != j ==> BufferOf(st, i) != BufferOf(st, j)
  {
  }

  lemma WritesElsewhere(p: Program, a: nat, st: Rank, s: Step, j: nat)
    requires j in st.xfers && j != SlotOf(p, st, s) && BufferOf(st, j).Some? && BufferOf(st, j).value !in st.cache
    requires forall i :: i in st.xfers && i != j ==> BufferOf(st, i) != BufferOf(st, j)
    requires SlotOf(p, st, s) in st.xfers ==> BufferOf(st, SlotOf(p, st, s)).Some?
    requires SlotOf(p, st, s) !in st.xfers ==> st.cache != []
    ensures BufferFor(p, st, s) != BufferOf(st, j).value
  {
  }

  /** A user handle is completed once: from then on no callback is due for its transfer, and only
      `waitall` touches the handle again. */
  lemma CompletedStays(p: Program, g: seq<Rank>, a: nat, s: Step, j: nat)
    requires Inv(p, g) && Enabled(p, g, a, s) && a < |g| && j in g[a].xfers && g[a].xfers[j].user in g[a].handles
    requires g[a].handles[g[a].xfers[j].user].completed && !(s.Release? && g[a].pc == 2 * p.n + j)
    ensures g[a].xfers[j].op == Idle
    ensures Outcome(p, g, a, s).Some? && j in Outcome(p, g, a, s).value.xfers
    ensures var st, st' := g[a], Outcome(p, g, a, s).value;
            && st'.xfers[j] == st.xfers[j]
            && st.xfers[j].user in st'.handles && st'.handles[st.xfers[j].user] == st.handles[st.xfers[j].user]
  {
    hide RankInv, Outcome, BufferFor, Enabled, SlotOf, Inv;
    CompletedSlot(p, g, a, s, j);
    if s.NextRound? || s.Pass? {
      QuietSteps(p, g, a, s);
    } else {
      StepAgrees(p, g, a, s);
    }
  }

  /** No step but its release works on the slot of a completed transfer. */
  lemma CompletedSlot(p: Program, g: seq<Rank>, a: nat, s: Step, j: nat)
    requires Inv(p, g) && Enabled(p, g, a, s) && a < |g| && j in g[a].xfers && g[a].xfers[j].user in g[a].handles
    requires g[a].handles[g[a].xfers[j].user].completed && !(s.Release? && g[a].pc == 2 * p.n + j)
    ensures g[a].xfers[j].op == Idle
    ensures Live(g[a], g[a].xfers[j].user) && g[a].handles[g[a].xfers[j].user].slot == j
    ensures !s.NextRound? && !s.Pass? ==> j != SlotOf(p, g[a], s)
  {
    hide RankInv, Stream;
    assert RankInv(p, a, g[a]);
    FinishedOrMoving(p, a, g[a], j);
    EnlistedOnly(p, a, g[a]);
  }

  lemma QuietSteps(p: Program, g: seq<Rank>, a: nat, s: Step)
    requires Enabled(p, g, a, s) && a < |g| && (s.NextRound? || s.Pass?)
    ensures Outcome(p, g, a, s).Some? && Outcome(p, g, a, s).value.xfers == g[a].xfers
    ensures Outcome(p, g, a, s).value.handles == g[a].handles
  {
  }
}
