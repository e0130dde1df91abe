/** All ranks together. One step is one call of the communicator, one callback, or one action of UCX
    at one rank; the order of steps and every choice of UCX are arbitrary. Messages from one rank to
    another are matched in the order in which they were sent, because all of them carry one tag. */
module Network {
  import opened Wire
  import opened Endpoint
  import opened Rounds
  import opened RankInvariant
  import opened HandlerFrames
  import opened SendProofs
  import opened RecvProofs
  import opened WaitProofs
  import opened Bounds

  datatype Step =
    | PostSend(u: nat, immediate: bool, raw: Info, stop: nat, q: nat)
    | PostRecv(dst: Option<seq<Elem>>, u: nat, plan: seq<nat>)
    | Pass
    | ReadMemory(j: nat)
    | SendCallback(j: nat, stop: nat, q: nat)
    | Match(j: nat)
    | RecvCallback(j: nat, plan: seq<nat>)
    | Release
    | NextRound(memory: map<nat, seq<Elem>>)

  /** The ranks of a program, well formed enough to speak about steps. */
  ghost predicate Cluster(p: Program, g: seq<Rank>) {
    && Valid(p) && |g| == p.n
    && forall a :: 0 <= a < p.n ==> Shape(p, g[a])
  }

  /** The staging buffers of a rank, measured in elements of its round: they hold one batch each. */
  ghost predicate Fits(p: Program, st: Rank) {
    st.round < |p.rounds| ==> forall b :: b in st.staging ==> |st.staging[b]| == p.rounds[st.round].per
  }

  /** No rank has matched more than was sent to it. */
  ghost predicate Matched(g: seq<Rank>) {
    forall a, s :: 0 <= a < |g| && 0 <= s < |g| && s < |g[a].taken| && a < |g[s].out| ==>
      g[a].taken[s] <= |g[s].out[a]|
  }

  ghost predicate Inv(p: Program, g: seq<Rank>) {
    && Valid(p) && |g| == p.n
    && (forall a :: 0 <= a < p.n ==> RankInv(p, a, g[a]))
    && (forall a :: 0 <= a < p.n ==> Fits(p, g[a]))
    && Matched(g)
  }

  /** What rank `s` has sent to rank `a` and `a` has not matched. */
  function Inbox(g: seq<Rank>, a: nat, s: nat): seq<Message>
    requires a < |g| && s < |g| && a < |g[s].out| && s < |g[a].taken|
  {
    if g[a].taken[s] <= |g[s].out[a]| then g[s].out[a][g[a].taken[s]..] else []
  }

  /** What slot `j` of rank `a` could match. */
  ghost function SlotInbox(p: Program, g: seq<Rank>, a: nat, j: nat): seq<Message>
    requires Cluster(p, g) && a < p.n && p.n <= j < 2 * p.n
  {
    Inbox(g, a, j - p.n)
  }

  /** UCX's side of `PlanReady`: as many early arrivals as there are messages, on distinct requests. */
  ghost predicate PlanPossible(st: Rank, plan: seq<nat>, inbox: seq<Message>) {
    && 0 < |plan| <= |inbox| + 1
    && (forall i :: 0 <= i < |plan| ==> Allocatable(st, plan[i]))
    && (forall i, i' :: 0 <= i < i' < |plan| ==> plan[i] != plan[i'])
  }

  ghost predicate Enabled(p: Program, g: seq<Rank>, a: nat, s: Step) {
    && Cluster(p, g) && a < p.n
    && var st := g[a];
       && st.round < |p.rounds|
       && match s
          case PostSend(u, immediate, raw, stop, q) =>
            && st.pc < p.n && Expected(p, a, st.pc, st.round).Some?
            && (if immediate then u !in st.handles else Allocatable(st, u))
            && Allocatable(st, q) && q != u
          case PostRecv(dst, u, plan) =>
            && p.n <= st.pc < 2 * p.n && Expected(p, a, st.pc, st.round).Some?
            && (dst.Some? ==> |dst.value| == |Expected(p, a, st.pc, st.round).value|)
            && Allocatable(st, u) && u !in plan
            && var inbox := SlotInbox(p, g, a, st.pc);
               plan != [] ==> inbox != [] && PlanPossible(st, plan, inbox[1..])
          case Pass =>
            || (st.pc < 2 * p.n && Expected(p, a, st.pc, st.round).None?)
            || (2 * p.n <= st.pc < 4 * p.n && AllCompleted(st) && st.pc - 2 * p.n !in st.xfers)
          case ReadMemory(j) =>
            j < p.n && j in st.xfers && st.xfers[j].op.Posted?
          case SendCallback(j, stop, q) =>
            j < p.n && j in st.xfers && st.xfers[j].op.Landed? && Allocatable(st, q)
          case Match(j) =>
            && p.n <= j < 2 * p.n && j in st.xfers && st.xfers[j].op.Posted?
            && SlotInbox(p, g, a, j) != []
          case RecvCallback(j, plan) =>
            && p.n <= j < 2 * p.n && j in st.xfers && st.xfers[j].op.Landed?
            && PlanPossible(st, plan, SlotInbox(p, g, a, j))
          case Release =>
            2 * p.n <= st.pc < 4 * p.n && AllCompleted(st) && st.pc - 2 * p.n in st.xfers
          case NextRound(memory) =>
            && st.pc == 4 * p.n && memory.Keys == st.staging.Keys
            && (st.round + 1 < |p.rounds| ==>
                  forall b :: b in memory ==> |memory[b]| == p.rounds[st.round + 1].per)
  }

  /** What the step does; `None` when the communicator would throw, run a handler on a handle or
      buffer it does not own, or read a staging buffer beyond its end. The next round finds the same
      buffers, read as elements of its own width: `memory` holds whatever that gives. */
  ghost function Effect(p: Program, g: seq<Rank>, a: nat, s: Step): Option<Rank>
    requires Enabled(p, g, a, s)
  {
    var st := g[a];
    var n := p.n;
    match s
    case PostSend(u, immediate, raw, stop, q) =>
      var j, per := st.pc, p.rounds[st.round].per;
      if j !in st.xfers && (forall b :: b in st.cache ==> b in st.staging)
      then Send(st, j, Expected(p, a, j, st.round).value, per, u, immediate, raw, stop, q) else None
    case PostRecv(dst, u, plan) =>
      var j, per, inbox := st.pc, p.rounds[st.round].per, SlotInbox(p, g, a, st.pc);
      if && j !in st.xfers && (u in st.free ==> u in st.handles && st.handles[u].orig == Null)
         && (plan != [] ==> PlanReady(st, plan, inbox[1..]))
      then Recv(st, j, dst, per, u, inbox, plan) else None
    case Pass => Some(st.(pc := st.pc + 1))
    case ReadMemory(j) =>
      var place := st.xfers[j].op.place;
      if st.xfers[j].Outgoing? && (place.Staging? ==> place.buffer in st.staging && place.len <= |st.staging[place.buffer]|)
      then Some(ReadOut(st, j, st.xfers[j].op.request, place)) else None
    case SendCallback(j, stop, q) =>
      var h, st1 := st.xfers[j].op.request, st.(xfers := st.xfers[j := WithOp(st.xfers[j], Idle)]);
      if SendReady(st1, h) && st1.handles[h].slot == j then Some(SendHandler(st1, h, stop, q)) else None
    case Match(j) =>
      var place := st.xfers[j].op.place;
      if st.xfers[j].Incoming? && (place.Staging? ==> place.buffer in st.staging)
      then Some(LandOp(st, j, st.xfers[j].op.request, place, SlotInbox(p, g, a, j)[0])) else None
    case RecvCallback(j, plan) =>
      var h, st1 := st.xfers[j].op.request, st.(xfers := st.xfers[j := WithOp(st.xfers[j], Idle)]);
      var inbox := SlotInbox(p, g, a, j);
      if RecvReady(st1, h) && st1.handles[h].slot == j && PlanReady(st1, plan, inbox)
      then Some(RecvHandler(st1, h, inbox, plan)) else None
    case Release =>
      var j := st.pc - 2 * n;
      if Live(st, st.xfers[j].user) && BufferOf(st, j).Some? then Some(ReleaseSlot(st, j)) else None
    case NextRound(memory) => Some(st.(round := st.round + 1, pc := 0, staging := memory))
  }

  /** The rank after the step; `None` also when it writes a staging buffer beyond its end, which
      would make the buffer longer. */
  ghost function Outcome(p: Program, g: seq<Rank>, a: nat, s: Step): Option<Rank>
    requires Enabled(p, g, a, s)
  {
    var r := Effect(p, g, a, s);
    if r.Some? && (s.NextRound? || SameLengths(g[a], r.value)) then r else None
  }

  // ---------- what the other ranks contribute ----------

  /** A rank's channels always carry a prefix of the whole exchange. */
  lemma SentIsPrefix(p: Program, a: nat, b: nat, st: Rank)
    requires RankInv(p, a, st) && b < p.n
    ensures b < |st.out| && st.out[b] <= Whole(p, a, b)
  {
    hide RankInv, Stream, WireOf;
    var m := ChannelAt(p, a, st, b);
    if st.round < |p.rounds| {
      StreamStep(p, a, b, st.round);
      StreamGrows(p, a, b, st.round + 1, |p.rounds|);
    }
  }

  /** Rounds never mix: whatever rank `s` is doing, the next messages that rank `a` finds are those
      that follow message `k` of its own round, as long as that round has any left. */
  lemma InboxContinues(p: Program, g: seq<Rank>, a: nat, j: nat, k: nat)
    requires Inv(p, g) && Cluster(p, g) && a < p.n && p.n <= j < 2 * p.n && g[a].round < |p.rounds|
    requires g[a].taken[j - p.n] == |SlotStream(p, a, j, g[a].round)| + k
    ensures Continues(p, a, j, g[a].round, k, SlotInbox(p, g, a, j))
  {
    var s, r := j - p.n, g[a].round;
    SentIsPrefix(p, s, a, g[s]);
    var inbox := SlotInbox(p, g, a, j);
    forall i | 0 <= i < |inbox| && k + i < |SlotWire(p, a, j, r)| ensures inbox[i] == SlotWire(p, a, j, r)[k + i] {
      RoundOfMessage(p, s, a, r, k + i, g[s].out[a]);
    }
  }

  // ---------- every step keeps the invariant ----------

  lemma InvCluster(p: Program, g: seq<Rank>)
    requires Inv(p, g)
    ensures Cluster(p, g)
  {
  }

  lemma InvOf(p: Program, g: seq<Rank>, a: nat)
    requires Inv(p, g) && a < p.n
    ensures RankInv(p, a, g[a]) && Fits(p, g[a])
  {
  }

  /** A slot about to be posted. */
  lemma DueNow(p: Program, a: nat, st: Rank)
    requires RankInv(p, a, st) && st.pc < 2 * p.n && st.round < |p.rounds| && Expected(p, a, st.pc, st.round).Some?
    ensures Due(p, a, st, st.pc)
  {
    hide RankInv;
  }

  lemma PostSendKeeps(p: Program, g: seq<Rank>, a: nat, s: Step)
    requires Inv(p, g) && Enabled(p, g, a, s) && s.PostSend?
    ensures Effect(p, g, a, s).Some? && RankInv(p, a, Effect(p, g, a, s).value)
  {
    hide Inv, RankInv, Due, Send;
    InvOf(p, g, a);
    DueNow(p, a, g[a]);
    DueFacts(p, a, g[a], g[a].pc);
    SendKeeps(p, a, g[a], g[a].pc, s.u, s.immediate, s.raw, s.stop, s.q);
  }

  lemma PostRecvKeeps(p: Program, g: seq<Rank>, a: nat, s: Step)
    requires Inv(p, g) && Enabled(p, g, a, s) && s.PostRecv?
    ensures Effect(p, g, a, s).Some? && RankInv(p, a, Effect(p, g, a, s).value)
  {
    hide Inv, RankInv, Due, Recv;
    var st, j := g[a], g[a].pc;
    InvOf(p, g, a);
    DueNow(p, a, st);
    DueFacts(p, a, st, j);
    InboxContinues(p, g, a, j, 0);
    RecvKeeps(p, a, st, j, s.dst, s.u, SlotInbox(p, g, a, j), s.plan);
  }

  lemma CleanRequests(p: Program, a: nat, st: Rank)
    requires RankInv(p, a, st)
    ensures forall q :: q in st.free ==> q in st.handles && st.handles[q].orig == Null
  {
  }

  lemma SendCallbackKeeps(p: Program, g: seq<Rank>, a: nat, s: Step)
    requires Inv(p, g) && Enabled(p, g, a, s) && s.SendCallback?
    ensures Effect(p, g, a, s).Some? && RankInv(p, a, Effect(p, g, a, s).value)
  {
    hide Inv, RankInv, Core, SlotsOk, SendHandler, SendReady;
    InvOf(p, g, a);
    var st, h := g[a], g[a].xfers[s.j].op.request;
    var st1 := st.(xfers := st.xfers[s.j := WithOp(st.xfers[s.j], Idle)]);
    ResumeKeeps(p, a, st, s.j, h);
    SendHandlerKeeps(p, a, st1, s.j, h, s.stop, s.q);
    RunningReady(p, a, st1, s.j, h, st.handles[h].ibatch, ExtraOf(st1, s.j, h));
  }

  lemma RecvCallbackKeeps(p: Program, g: seq<Rank>, a: nat, s: Step)
    requires Inv(p, g) && Enabled(p, g, a, s) && s.RecvCallback?
    ensures Effect(p, g, a, s).Some? && RankInv(p, a, Effect(p, g, a, s).value)
  {
    hide Inv, Matched, RankInv, Core, SlotsOk, RecvHandler, RecvReady, Stream, Batches;
    InvOf(p, g, a);
    var st, j, h := g[a], s.j, g[a].xfers[s.j].op.request;
    RunningChannel(p, a, st, j, h);
    InboxContinues(p, g, a, j, st.handles[h].ibatch + 1);
    PlanIsReady(p, a, st, j, h, SlotInbox(p, g, a, j), s.plan);
    ResumedKeeps(p, a, st, j, h, SlotInbox(p, g, a, j), s.plan);
  }

  /** UCX's requests are clean, so that what it may do is what the handler expects. */
  lemma PlanIsReady(p: Program, a: nat, st: Rank, j: nat, h: nat, inbox: seq<Message>, plan: seq<nat>)
    requires RankInv(p, a, st) && j in st.xfers && PlanPossible(st, plan, inbox)
    ensures PlanReady(st.(xfers := st.xfers[j := WithOp(st.xfers[j], Idle)]), plan, inbox)
  {
    hide RankInv;
    CleanRequests(p, a, st);
  }

  /** A landed receive has matched one more message than its batch number says. */
  lemma RunningChannel(p: Program, a: nat, st: Rank, j: nat, h: nat)
    requires RankInv(p, a, st) && p.n <= j < 2 * p.n && j in st.xfers && st.xfers[j].op == Landed(h) && st.round < |p.rounds|
    ensures Member(p, a) && Shape(p, st) && h in st.handles
    ensures st.taken[j - p.n] == |SlotStream(p, a, j, st.round)| + st.handles[h].ibatch + 1
  {
    hide RankInv, Stream, WireOf, Valid;
    SlotFact(p, a, st, j);
  }

  /** The receive callback of one rank. */
  lemma ResumedKeeps(p: Program, a: nat, st: Rank, j: nat, h: nat, inbox: seq<Message>, plan: seq<nat>)
    requires RankInv(p, a, st) && p.n <= j < 2 * p.n && j in st.xfers && st.xfers[j].op == Landed(h) && st.round < |p.rounds|
    requires h in st.handles && Member(p, a) && Continues(p, a, j, st.round, st.handles[h].ibatch + 1, inbox)
    requires PlanReady(st.(xfers := st.xfers[j := WithOp(st.xfers[j], Idle)]), plan, inbox)
    ensures var st1 := st.(xfers := st.xfers[j := WithOp(st.xfers[j], Idle)]);
            RecvReady(st1, h) && st1.handles[h].slot == j && RankInv(p, a, RecvHandler(st1, h, inbox, plan))
  {
    hide RankInv, Core, SlotsOk, RecvHandler, Stream, Batches, PlanReady;
    var st1 := st.(xfers := st.xfers[j := WithOp(st.xfers[j], Idle)]);
    ResumeKeeps(p, a, st, j, h);
    var k, extra := st.handles[h].ibatch, ExtraOf(st1, j, h);
    RunningReady(p, a, st1, j, h, k, extra);
    RecvHandlerKeeps(p, a, st1, j, h, k, extra, inbox, plan);
    assert extra - {h} == {};
    Together(p, a, RecvHandler(st1, h, inbox, plan));
  }

  lemma MatchKeeps(p: Program, g: seq<Rank>, a: nat, s: Step)
    requires Inv(p, g) && Enabled(p, g, a, s) && s.Match?
    ensures Effect(p, g, a, s).Some? && RankInv(p, a, Effect(p, g, a, s).value)
  {
    hide Inv, Matched, RankInv, Core, SlotsOk, Stream, Batches, LandOp;
    InvOf(p, g, a);
    var st, j := g[a], s.j;
    var q, place := st.xfers[j].op.request, st.xfers[j].op.place;
    WaitingFacts(p, a, st, j, q, place);
    InboxContinues(p, g, a, j, st.handles[q].ibatch);
    LandKeeps(p, a, st, j, q, place, SlotInbox(p, g, a, j)[0]);
  }

  lemma ReadMemoryKeeps(p: Program, g: seq<Rank>, a: nat, s: Step)
    requires Inv(p, g) && Enabled(p, g, a, s) && s.ReadMemory?
    ensures Effect(p, g, a, s).Some? && RankInv(p, a, Effect(p, g, a, s).value)
  {
    hide Inv, RankInv, Core, SlotsOk, ReadOut;
    InvOf(p, g, a);
    var st, j := g[a], s.j;
    ReadOutKeeps(p, a, st, j, st.xfers[j].op.request, st.xfers[j].op.place);
    ReadFits(p, a, st, j);
  }

  lemma PassStepKeeps(p: Program, g: seq<Rank>, a: nat, s: Step)
    requires Inv(p, g) && Enabled(p, g, a, s) && s.Pass?
    ensures Effect(p, g, a, s).Some? && RankInv(p, a, Effect(p, g, a, s).value)
  {
    hide Inv, RankInv, Core, SlotsOk, Stream, AllCompleted;
    InvOf(p, g, a);
    var st := g[a];
    EnlistedOnly(p, a, st);
    PassKeeps(p, a, st, if st.pc < 2 * p.n then st.pc else st.pc - 2 * p.n);
  }

  lemma WaitStepKeeps(p: Program, g: seq<Rank>, a: nat, s: Step)
    requires Inv(p, g) && Enabled(p, g, a, s) && (s.Release? || s.NextRound?)
    ensures Effect(p, g, a, s).Some? && RankInv(p, a, Effect(p, g, a, s).value)
  {
    hide Inv, RankInv, ReleaseSlot, Shape, AllCompleted;
    InvOf(p, g, a);
    var st := g[a];
    if s.Release? {
      ReleaseKeeps(p, a, st, st.pc - 2 * p.n);
    } else {
      NextRoundKeeps(p, a, st, s.memory);
    }
  }

  lemma ReadFits(p: Program, a: nat, st: Rank, j: nat)
    requires RankInv(p, a, st) && j < p.n && j in st.xfers && st.xfers[j].op.Posted?
    ensures var place := st.xfers[j].op.place;
            place.Staging? ==> place.buffer in st.staging && place.len <= |st.staging[place.buffer]|
  {
    hide RankInv, Stream, Valid;
    SlotFact(p, a, st, j);
  }

  lemma EffectKeeps(p: Program, g: seq<Rank>, a: nat, s: Step)
    requires Inv(p, g) && Enabled(p, g, a, s)
    ensures Effect(p, g, a, s).Some? && RankInv(p, a, Effect(p, g, a, s).value)
  {
    hide RankInv, Inv, Enabled, Effect;
    match s
    case PostSend(_, _, _, _, _) => PostSendKeeps(p, g, a, s);
    case PostRecv(_, _, _) => PostRecvKeeps(p, g, a, s);
    case ReadMemory(_) => ReadMemoryKeeps(p, g, a, s);
    case SendCallback(_, _, _) => SendCallbackKeeps(p, g, a, s);
    case Match(_) => MatchKeeps(p, g, a, s);
    case RecvCallback(_, _) => RecvCallbackKeeps(p, g, a, s);
    case Pass => PassStepKeeps(p, g, a, s);
    case Release => WaitStepKeeps(p, g, a, s);
    case NextRound(_) => WaitStepKeeps(p, g, a, s);
  }

  // ---------- every step stays within bounds ----------

  /** A step of rank `a` writes within its buffers, extends its channels, and matches no more than
      was sent to it. */
  ghost predicate Within(g: seq<Rank>, a: nat, s: Step, st': Rank)
    requires a < |g|
  {
    && var st := g[a];
       && (!s.NextRound? ==> SameLengths(st, st') && st'.round == st.round)
       && |st'.out| == |st.out| && |st'.taken| == |st.taken|
       && (forall b :: 0 <= b < |st.out| ==> |st.out[b]| <= |st'.out[b]|)
       && (forall s :: 0 <= s < |st.taken| && s < |g| && a < |g[s].out| ==>
             st'.taken[s] <= st.taken[s] || st'.taken[s] <= |g[s].out[a]|)
  }

  lemma BoundedWithin(p: Program, g: seq<Rank>, a: nat, s: Step, st': Rank, j: nat)
    requires Inv(p, g) && Cluster(p, g) && a < p.n && j < 2 * p.n
    requires Bounded(g[a], st', j, if j < p.n then 0 else |SlotInbox(p, g, a, j)|)
    ensures Within(g, a, s, st')
  {
    hide RankInv, Fits, SameLengths;
  }

  /** The slots of a round agree on how many elements a batch has. */
  lemma SlotHolds(p: Program, g: seq<Rank>, a: nat, j: nat)
    requires Inv(p, g) && Cluster(p, g) && a < p.n && g[a].round < |p.rounds|
    ensures AllHold(g[a], p.rounds[g[a].round].per)
    ensures j in g[a].xfers ==> j < 2 * p.n && g[a].xfers[j].per == p.rounds[g[a].round].per
  {
    hide Inv, RankInv;
    InvOf(p, g, a);
    if j in g[a].xfers { FrameFact(p, a, g[a], j); }
  }

  lemma FrameFact(p: Program, a: nat, st: Rank, j: nat)
    requires RankInv(p, a, st) && j in st.xfers && st.round < |p.rounds|
    ensures j < 2 * p.n && st.xfers[j].per == p.rounds[st.round].per
  {
    assert SlotOk(p, a, st, j);
  }

  lemma PostWithin(p: Program, g: seq<Rank>, a: nat, s: Step)
    requires Inv(p, g) && Enabled(p, g, a, s) && Effect(p, g, a, s).Some? && (s.PostSend? || s.PostRecv?)
    ensures Within(g, a, s, Effect(p, g, a, s).value)
  {
    hide Send, Recv, PlanReady, AllHold, Within, Inv, Bounded;
    var st, per := g[a], p.rounds[g[a].round].per;
    SlotHolds(p, g, a, st.pc);
    if s.PostSend? {
      SendBounds(st, st.pc, Expected(p, a, st.pc, st.round).value, per, s.u, s.immediate, s.raw, s.stop, s.q);
    } else {
      RecvBounds(st, st.pc, s.dst, per, s.u, SlotInbox(p, g, a, st.pc), s.plan);
    }
    BoundedWithin(p, g, a, s, Effect(p, g, a, s).value, st.pc);
  }

  lemma CallbackWithin(p: Program, g: seq<Rank>, a: nat, s: Step)
    requires Inv(p, g) && Enabled(p, g, a, s) && Effect(p, g, a, s).Some? && (s.SendCallback? || s.RecvCallback?)
    ensures Within(g, a, s, Effect(p, g, a, s).value)
  {
    hide SendHandler, RecvHandler, HandlerReady, PlanReady, AllHold, Within, Inv, Bounded;
    var st, j := g[a], s.j;
    var st1 := st.(xfers := st.xfers[j := WithOp(st.xfers[j], Idle)]);
    SlotHolds(p, g, a, j);
    BoundedSame(st, st1, j);
    HoldSame(st, st1, p.rounds[st.round].per);
    if s.SendCallback? {
      SendHandlerBounds(st1, st.xfers[j].op.request, s.stop, s.q);
      BoundedTrans(st, st1, Effect(p, g, a, s).value, j, 0, 0);
    } else {
      RecvHandlerBounds(st1, st.xfers[j].op.request, SlotInbox(p, g, a, j), s.plan);
      BoundedTrans(st, st1, Effect(p, g, a, s).value, j, 0, |SlotInbox(p, g, a, j)|);
    }
    BoundedWithin(p, g, a, s, Effect(p, g, a, s).value, j);
  }

  lemma HoldSame(st: Rank, st': Rank, per: nat)
    requires AllHold(st, per) && st'.staging == st.staging
    ensures AllHold(st', per)
  {
  }

  lemma MatchWithin(p: Program, g: seq<Rank>, a: nat, s: Step)
    requires Inv(p, g) && Enabled(p, g, a, s) && Effect(p, g, a, s).Some? && s.Match?
    ensures Within(g, a, s, Effect(p, g, a, s).value)
  {
    hide Within, Inv, Stream, Valid, RankInv;
    InvOf(p, g, a);
    SlotHolds(p, g, a, s.j);
    PlaceLength(p, a, g[a], s.j);
    BoundedWithin(p, g, a, s, Effect(p, g, a, s).value, s.j);
  }

  lemma PlaceLength(p: Program, a: nat, st: Rank, j: nat)
    requires RankInv(p, a, st) && j in st.xfers && st.xfers[j].op.Posted?
    ensures st.xfers[j].op.place.Staging? ==> st.xfers[j].op.place.len <= st.xfers[j].per
  {
    assert j < 2 * p.n && SlotOk(p, a, st, j);
    hide HandlesOk, BuffersOk, GotOk, SlotsOk;
  }

  lemma QuietWithin(p: Program, g: seq<Rank>, a: nat, s: Step)
    requires Enabled(p, g, a, s) && Effect(p, g, a, s).Some?
    requires s.ReadMemory? || s.Pass? || s.Release? || s.NextRound?
    ensures Within(g, a, s, Effect(p, g, a, s).value)
  {
  }

  lemma EffectWithin(p: Program, g: seq<Rank>, a: nat, s: Step)
    requires Inv(p, g) && Enabled(p, g, a, s) && Effect(p, g, a, s).Some?
    ensures a < |g| && Within(g, a, s, Effect(p, g, a, s).value)
  {
    InvCluster(p, g);
    hide Inv, Effect, Within;
    match s
    case PostSend(_, _, _, _, _) => PostWithin(p, g, a, s);
    case PostRecv(_, _, _) => PostWithin(p, g, a, s);
    case SendCallback(_, _, _) => CallbackWithin(p, g, a, s);
    case RecvCallback(_, _) => CallbackWithin(p, g, a, s);
    case Match(_) => MatchWithin(p, g, a, s);
    case _ => QuietWithin(p, g, a, s);
  }

  lemma MatchedKept(g: seq<Rank>, a: nat, s: Step, st': Rank)
    requires Matched(g) && a < |g| && Within(g, a, s, st')
    ensures Matched(g[a := st'])
  {
  }

  lemma FitsKept(p: Program, g: seq<Rank>, a: nat, s: Step)
    requires Enabled(p, g, a, s) && Effect(p, g, a, s).Some? && Fits(p, g[a])
    requires Within(g, a, s, Effect(p, g, a, s).value)
    ensures Fits(p, Effect(p, g, a, s).value)
  {
    if !s.NextRound? { hide Effect; }
  }

  /** No step UCX may take makes the communicator throw, call back on a wrong handle, or read or write
      a staging buffer beyond its end; and every step keeps the invariant. */
  lemma StepKeeps(p: Program, g: seq<Rank>, a: nat, s: Step)
    requires Inv(p, g) && Enabled(p, g, a, s)
    ensures Outcome(p, g, a, s).Some?
    ensures Inv(p, g[a := Outcome(p, g, a, s).value])
  {
    hide Inv, RankInv, Effect, Within, Fits, Matched;
    EffectKeeps(p, g, a, s);
    EffectWithin(p, g, a, s);
    InvOf(p, g, a);
    FitsKept(p, g, a, s);
    WithinLengths(g, a, s, Effect(p, g, a, s).value);
    InvKept(p, g, a, s, Effect(p, g, a, s).value);
  }

  lemma WithinLengths(g: seq<Rank>, a: nat, s: Step, st': Rank)
    requires a < |g| && Within(g, a, s, st')
    ensures !s.NextRound? ==> SameLengths(g[a], st')
  {
  }

  lemma InvKept(p: Program, g: seq<Rank>, a: nat, s: Step, st': Rank)
    requires Inv(p, g) && a < |g| && Within(g, a, s, st') && RankInv(p, a, st') && Fits(p, st')
    ensures Inv(p, g[a := st'])
  {
    hide RankInv, Fits, Within;
    MatchedKept(g, a, s, st');
  }
}
