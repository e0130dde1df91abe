/** Where handles come from and go back to. A handle is a request of UCX, or memory from malloc if the count
    was sent inside the call of `send`. What malloc made goes to `free`, what UCX made goes back to UCX,
    and neither is lost or mistaken for the other. */
module Allocators {
  import opened Wire
  import opened Endpoint
  import opened Rounds
  import opened RankInvariant
  import opened HandlerFrames
  import opened RecvProofs
  import opened WaitProofs
  import opened Bounds
  import opened Network
  import opened Runs
  import opened Termination
  import opened Handles

  /** The handles that say they come from malloc. */
  ghost function Malloced(st: Rank): set<nat> {
    set h | h in st.handles && st.handles[h].custom
  }

  /** Only user handles of sends do. */
  lemma MallocedAre(p: Program, a: nat, st: Rank, h: nat)
    requires RankInv(p, a, st) && h in Malloced(st)
    ensures Live(st, h)
    ensures var j := st.handles[h].slot; j < p.n && j in st.xfers && st.xfers[j].user == h
  {
    assert Live(st, h) ==> Owns(st, h);
    FinishedOrMoving(p, a, st, st.handles[h].slot);
  }

  lemma UserAt(p: Program, a: nat, st: Rank, j: nat)
    requires RankInv(p, a, st) && j in st.xfers
    ensures Live(st, st.xfers[j].user) && st.handles[st.xfers[j].user].slot == j && BufferOf(st, j).Some?
  {
    FinishedOrMoving(p, a, st, j);
  }

  /** User handle `u` of slot `j` is the same handle in both states, and says the same of where it comes from. */
  ghost predicate SameUser(st: Rank, st': Rank, j: nat) {
    && j in st.xfers && j in st'.xfers && st'.xfers[j].user == st.xfers[j].user
    && var u := st.xfers[j].user;
       u in st.handles && u in st'.handles && st'.handles[u].custom == st.handles[u].custom
  }

  lemma SendHandlerUser(st: Rank, h: nat, stop: nat, q: nat)
    requires SendReady(st, h) && Allocatable(st, q)
    ensures SameUser(st, SendHandler(st, h, stop, q), st.handles[h].slot)
    ensures st.handles.Keys <= SendHandler(st, h, stop, q).handles.Keys
  {
    var info := st.handles[h];
    PostBatchesFrame(st, info.slot, info.buffer.value, info.ibatch, stop);
    hide PostBatches;
  }

  lemma SendUser(st: Rank, j: nat, d: seq<Elem>, per: nat, u: nat, immediate: bool, raw: Info, stop: nat, q: nat)
    requires per > 0 && j < |st.out| && j !in st.xfers
    requires if immediate then u !in st.handles else Allocatable(st, u)
    requires Allocatable(st, q) && q != u
    requires forall b :: b in st.cache ==> b in st.staging
    requires u in st.free ==> u in st.handles && Clean(st.handles[u])
    ensures var r := Send(st, j, d, per, u, immediate, raw, stop, q);
            r.Some? ==>
              && j in r.value.xfers && r.value.xfers[j].user == u
              && u in r.value.handles && r.value.handles[u].custom == immediate
              && st.handles.Keys <= r.value.handles.Keys
  {
    hide SendHandler, SendReady;
    if Send(st, j, d, per, u, immediate, raw, stop, q).Some? {
      var st2 := SendStart(st, j, d, per, u, immediate, raw);
      if immediate {
        SendHandlerUser(st2, u, stop, q);
      }
    }
  }

  // ---------- handles are not lost ----------

  lemma PostNextGrows(st: Rank, h: nat, q: nat, len: nat, early: bool, inbox: seq<Message>)
    requires RecvReady(st, h) && Allocatable(st, q)
    requires q in st.free ==> q in st.handles && st.handles[q].orig == Null
    requires early ==> inbox != []
    ensures st.handles.Keys <= PostNext(st, h, q, len, early, inbox).0.handles.Keys
  {
  }

  lemma {:induction false} RecvHandlerGrows(st: Rank, h: nat, inbox: seq<Message>, plan: seq<nat>)
    requires RecvReady(st, h) && PlanReady(st, plan, inbox)
    ensures st.handles.Keys <= RecvHandler(st, h, inbox, plan).handles.Keys
    decreases |plan|
  {
    UnloadReady(st, h);
    var st1, j := Unload(st, h), st.handles[h].slot;
    var len := BatchLength(st1.xfers[j].count, st1.xfers[j].per, st.handles[h].ibatch);
    if len > 0 {
      PostNextReady(st1, h, inbox, plan, len);
      PostNextGrows(st1, h, plan[0], len, |plan| > 1, inbox);
      var (st2, called) := PostNext(st1, h, plan[0], len, |plan| > 1, inbox);
      hide PostNext, RecvReady, PlanReady;
      if called { RecvHandlerGrows(st2, plan[0], inbox[1..], plan[1..]); }
    }
  }

  lemma RecvGrows(st: Rank, j: nat, dst: Option<seq<Elem>>, per: nat, u: nat, inbox: seq<Message>, plan: seq<nat>)
    requires per > 0 && |st.out| <= j < |st.out| + |st.taken| && j !in st.xfers
    requires Allocatable(st, u) && u !in plan
    requires u in st.free ==> u in st.handles && st.handles[u].orig == Null
    requires plan != [] ==> inbox != [] && PlanReady(st, plan, inbox[1..])
    requires Recv(st, j, dst, per, u, inbox, plan).Some?
    ensures st.handles.Keys <= Recv(st, j, dst, per, u, inbox, plan).value.handles.Keys
  {
    hide RecvHandler, RecvReady, PlanReady, EarlyStart;
    if plan != [] {
      RecvStarts(st, j, dst, per, u, inbox, plan);
      EarlyTouches(st, j, dst, per, u, inbox[0]);
      var st' := EarlyStart(st, j, dst, per, u, inbox[0]);
      PlanKept(st, st', u, plan, inbox[1..]);
      RecvIs(st, j, dst, per, u, inbox, plan);
      RecvHandlerGrows(st', u, inbox[1..], plan);
    }
  }

  // ---------- one step ----------

  /** A `Release` step frees user handle `u`. */
  ghost predicate Releases(p: Program, st: Rank, u: nat) {
    st.pc >= 2 * p.n && st.pc - 2 * p.n in st.xfers && st.xfers[st.pc - 2 * p.n].user == u
  }

  /** What a step does to the set of handles made by malloc. */
  ghost function MallocedAfter(p: Program, st: Rank, s: Step, before: set<nat>): set<nat> {
    match s
    case PostSend(u, immediate, _, _, _) => if immediate then before + {u} else before
    case Release => set h | h in before && !Releases(p, st, h)
    case _ => before
  }

  /** Handle `u` is back where it came from, its staging buffer is at the end of the queue, and all other
      handles are left alone. */
  ghost predicate Returned(st: Rank, st': Rank, u: nat) {
    && u in st.handles && u !in st.free
    && (st.handles[u].custom ==> u !in st'.handles && u !in st'.free)
    && (!st.handles[u].custom ==> u in st'.handles && u in st'.free && Clean(st'.handles[u]) && st'.handles[u].buffer == None)
    && st.handles[u].buffer.Some? && st'.cache == st.cache + [st.handles[u].buffer.value]
    && (forall h :: h != u ==> (h in st'.free <==> h in st.free) && (h in st'.handles <==> h in st.handles))
    && (forall h :: h != u && h in st.handles ==> h in st'.handles && st'.handles[h] == st.handles[h])
  }

  /** The invariant of the rank before and after a step. */
  lemma AroundStep(p: Program, g: seq<Rank>, a: nat, s: Step)
    requires Inv(p, g) && Enabled(p, g, a, s)
    ensures a < |g| == p.n && Outcome(p, g, a, s).Some?
    ensures RankInv(p, a, g[a]) && RankInv(p, a, Outcome(p, g, a, s).value)
  {
    hide RankInv, Outcome;
    StepKeeps(p, g, a, s);
    InvOf(p, g, a);
    InvOf(p, g[a := Outcome(p, g, a, s).value], a);
  }

  lemma SlotReturned(st: Rank, j: nat)
    requires j in st.xfers && Live(st, st.xfers[j].user) && BufferOf(st, j).Some?
    ensures Returned(st, ReleaseSlot(st, j), st.xfers[j].user)
  {
  }

  /** In the loop that ends `waitall`, between state `first` before it and `st`. */
  ghost predicate Partway(first: Rank, st: Rank) {
    && st.handles.Keys <= first.handles.Keys
    && (forall h :: h in st.free ==> h in first.handles && !first.handles[h].custom)
    && (forall h :: h in first.handles && !first.handles[h].custom ==> h in st.handles)
    && (forall i :: i in st.xfers ==>
          var u := st.xfers[i].user; u in st.handles && u in first.handles && st.handles[u] == first.handles[u])
    && first.cache <= st.cache
  }

  lemma PartwayStarts(p: Program, a: nat, st: Rank)
    requires RankInv(p, a, st)
    ensures Partway(st, st)
  {
    FreeAreClean(p, a, st);
    forall i | i in st.xfers ensures Live(st, st.xfers[i].user) { UserAt(p, a, st, i); }
    hide RankInv;
  }

  lemma PartwayOn(first: Rank, st: Rank, j: nat)
    requires Partway(first, st) && j in st.xfers && Live(st, st.xfers[j].user) && BufferOf(st, j).Some?
    requires forall i :: i in st.xfers && i != j ==> st.xfers[i].user != st.xfers[j].user
    ensures Partway(first, ReleaseSlot(st, j))
  {
    SlotReturned(st, j);
  }

  lemma ReleaseIs(p: Program, g: seq<Rank>, a: nat, j: nat)
    requires a < |g| && Enabled(p, g, a, Release) && Outcome(p, g, a, Release).Some?
    requires g[a].pc == 2 * p.n + j && j in g[a].xfers && Live(g[a], g[a].xfers[j].user) && BufferOf(g[a], j).Some?
    ensures Outcome(p, g, a, Release).value == ReleaseSlot(g[a], j)
  {
    hide ReleaseSlot, BufferOf, AllCompleted;
  }

  /** What a release does to the handles and to the queue of staging buffers. */
  lemma ReleaseReturns(p: Program, g: seq<Rank>, a: nat, u: nat)
    requires Inv(p, g) && Enabled(p, g, a, Release) && a < |g| && Releases(p, g[a], u)
    ensures Outcome(p, g, a, Release).Some? && Returned(g[a], Outcome(p, g, a, Release).value, u)
  {
    hide Enabled, Inv, RankInv, Outcome, ReleaseSlot, Returned, BufferOf;
    AroundStep(p, g, a, Release);
    UserAt(p, a, g[a], g[a].pc - 2 * p.n);
    ReleaseIs(p, g, a, g[a].pc - 2 * p.n);
    SlotReturned(g[a], g[a].pc - 2 * p.n);
  }

  /** A handle of another slot says the same before and after a step. */
  lemma ElsewhereSame(p: Program, a: nat, st: Rank, st': Rank, j: nat, b: nat, h: nat)
    requires RankInv(p, a, st) && RankInv(p, a, st') && Agree(st, st', j, b)
    ensures h in Malloced(st) && st.handles[h].slot != j ==> h in Malloced(st')
    ensures h in Malloced(st') && st'.handles[h].slot != j ==> h in Malloced(st) && st.handles[h].slot != j
  {
    if h in Malloced(st) { MallocedAre(p, a, st, h); }
    if h in Malloced(st') && st'.handles[h].slot != j {
      MallocedAre(p, a, st', h);
      UserAt(p, a, st, st'.handles[h].slot);
    }
  }

  /** The slot a step works on has the same user handle as before, from the same place. */
  lemma CallbackUser(p: Program, g: seq<Rank>, a: nat, s: Step)
    requires Inv(p, g) && Enabled(p, g, a, s) && (s.ReadMemory? || s.SendCallback?)
    ensures Outcome(p, g, a, s).Some? && a < |g| && SameUser(g[a], Outcome(p, g, a, s).value, s.j)
    ensures g[a].handles.Keys <= Outcome(p, g, a, s).value.handles.Keys
  {
    hide RankInv, Inv, SendHandler;
    AroundStep(p, g, a, s);
    UserAt(p, a, g[a], s.j);
    if s.SendCallback? {
      var st1 := g[a].(xfers := g[a].xfers[s.j := WithOp(g[a].xfers[s.j], Idle)]);
      SendHandlerUser(st1, g[a].xfers[s.j].op.request, s.stop, s.q);
    }
  }

  lemma PostSendUser(p: Program, g: seq<Rank>, a: nat, s: Step)
    requires Inv(p, g) && Enabled(p, g, a, s) && s.PostSend?
    ensures Outcome(p, g, a, s).Some? && a < |g|
    ensures var st' := Outcome(p, g, a, s).value;
            && g[a].pc in st'.xfers && st'.xfers[g[a].pc].user == s.u
            && s.u in st'.handles && st'.handles[s.u].custom == s.immediate
            && g[a].handles.Keys <= st'.handles.Keys
  {
    hide RankInv, Inv, Send;
    AroundStep(p, g, a, s);
    FreeAreClean(p, a, g[a]);
    SendUser(g[a], g[a].pc, Expected(p, a, g[a].pc, g[a].round).value, p.rounds[g[a].round].per,
             s.u, s.immediate, s.raw, s.stop, s.q);
  }

  lemma FreeAreClean(p: Program, a: nat, st: Rank)
    requires RankInv(p, a, st)
    ensures forall h :: h in st.free ==> h in st.handles && Clean(st.handles[h])
  {
  }

  /** The handles made by malloc change by the sends whose count goes out inside the call, and by their
      release. */
  lemma StepMalloced(p: Program, g: seq<Rank>, a: nat, s: Step)
    requires Inv(p, g) && Enabled(p, g, a, s)
    ensures a < |g| && Outcome(p, g, a, s).Some?
    ensures Malloced(Outcome(p, g, a, s).value) == MallocedAfter(p, g[a], s, Malloced(g[a]))
  {
    hide RankInv, Inv, Outcome, Enabled;
    AroundStep(p, g, a, s);
    match s
    case NextRound(_) => QuietSteps(p, g, a, s);
    case Pass => QuietSteps(p, g, a, s);
    case Release => ReleaseMalloced(p, g, a);
    case _ => WorkMalloced(p, g, a, s);
  }

  lemma ReleaseMalloced(p: Program, g: seq<Rank>, a: nat)
    requires Inv(p, g) && Enabled(p, g, a, Release)
    ensures a < |g| && Outcome(p, g, a, Release).Some?
    ensures Malloced(Outcome(p, g, a, Release).value) == MallocedAfter(p, g[a], Release, Malloced(g[a]))
  {
    hide Inv, Outcome, Enabled;
    var u := SomeReleased(p, g, a);
    ReleaseReturns(p, g, a, u);
  }

  lemma SomeReleased(p: Program, g: seq<Rank>, a: nat) returns (u: nat)
    requires Enabled(p, g, a, Release)
    ensures a < |g| == p.n && Releases(p, g[a], u)
  {
    u := g[a].xfers[g[a].pc - 2 * p.n].user;
  }

  lemma WorkMalloced(p: Program, g: seq<Rank>, a: nat, s: Step)
    requires Inv(p, g) && Enabled(p, g, a, s) && !s.NextRound? && !s.Pass? && !s.Release?
    ensures a < |g| && Outcome(p, g, a, s).Some?
    ensures Malloced(Outcome(p, g, a, s).value) == MallocedAfter(p, g[a], s, Malloced(g[a]))
  {
    hide RankInv, Inv, Outcome, Enabled, Agree, SlotOf;
    AroundStep(p, g, a, s);
    StepAgrees(p, g, a, s);
    SlotMalloced(p, g, a, s);
    var st, st', j := g[a], Outcome(p, g, a, s).value, SlotOf(p, g[a], s);
    forall h ensures h in Malloced(st') <==> h in MallocedAfter(p, st, s, Malloced(st)) {
      ElsewhereSame(p, a, st, st', j, BufferFor(p, st, s), h);
    }
  }

  /** The handles of the slot at hand. */
  lemma SlotMalloced(p: Program, g: seq<Rank>, a: nat, s: Step)
    requires Inv(p, g) && Enabled(p, g, a, s) && !s.NextRound? && !s.Pass? && !s.Release?
    ensures a < |g| && Outcome(p, g, a, s).Some?
    ensures var st, st', j := g[a], Outcome(p, g, a, s).value, SlotOf(p, g[a], s);
            && (forall h :: h in Malloced(st) && st.handles[h].slot == j ==> h in Malloced(st'))
            && (forall h :: h in Malloced(st') && st'.handles[h].slot == j ==> h in MallocedAfter(p, st, s, Malloced(st)))
            && (s.PostSend? && s.immediate ==> s.u in Malloced(st'))
  {
    AroundStep(p, g, a, s);
    SlotIs(p, g, a, s);
    var st, st', j := g[a], Outcome(p, g, a, s).value, SlotOf(p, g[a], s);
    if s.PostSend? { PostSendUser(p, g, a, s); }
    if s.ReadMemory? || s.SendCallback? { CallbackUser(p, g, a, s); }
    hide RankInv, Inv, Outcome, Enabled, SlotOf;
    forall h | h in Malloced(st) && st.handles[h].slot == j ensures h in Malloced(st') { MallocedAre(p, a, st, h); }
    forall h | h in Malloced(st') && st'.handles[h].slot == j
      ensures h in MallocedAfter(p, st, s, Malloced(st))
    {
      MallocedAre(p, a, st', h);
    }
  }

  lemma SlotIs(p: Program, g: seq<Rank>, a: nat, s: Step)
    requires Inv(p, g) && Enabled(p, g, a, s) && !s.NextRound? && !s.Pass? && !s.Release?
    ensures var j := SlotOf(p, g[a], s);
            if s.PostSend? then j == g[a].pc < p.n && j !in g[a].xfers
            else if s.PostRecv? then j >= p.n
            else j == s.j && j in g[a].xfers && (s.Match? || s.RecvCallback? ==> j >= p.n)
  {
    InvOf(p, g, a);
    EnlistedOnly(p, a, g[a]);
    hide RankInv, Inv;
  }

  /** Every handle is there after a step, unless it came from malloc and is released. */
  lemma HandlesStay(p: Program, g: seq<Rank>, a: nat, s: Step, h: nat)
    requires Inv(p, g) && Enabled(p, g, a, s) && a < |g| && h in g[a].handles
    ensures Outcome(p, g, a, s).Some?
    ensures h in Outcome(p, g, a, s).value.handles <==> !(s.Release? && Releases(p, g[a], h) && h in Malloced(g[a]))
  {
    StepKeeps(p, g, a, s);
    hide Inv, Enabled, Outcome;
    match s
    case PostSend(_, _, _, _, _) => PostSendUser(p, g, a, s);
    case PostRecv(_, _, _) => StayWithRecv(p, g, a, s);
    case RecvCallback(_, _) => StayWithRecv(p, g, a, s);
    case Release => StayInRelease(p, g, a, h);
    case Match(_) => StayInMatch(p, g, a, s);
    case Pass => QuietSteps(p, g, a, s);
    case NextRound(_) => QuietSteps(p, g, a, s);
    case _ => CallbackUser(p, g, a, s);
  }

  lemma StayInRelease(p: Program, g: seq<Rank>, a: nat, h: nat)
    requires Inv(p, g) && Enabled(p, g, a, Release) && a < |g| && h in g[a].handles
    ensures Outcome(p, g, a, Release).Some?
    ensures h in Outcome(p, g, a, Release).value.handles <==> !(Releases(p, g[a], h) && h in Malloced(g[a]))
  {
    hide Inv, Outcome, Enabled;
    var u := SomeReleased(p, g, a);
    ReleaseReturns(p, g, a, u);
  }

  lemma StayInMatch(p: Program, g: seq<Rank>, a: nat, s: Step)
    requires Enabled(p, g, a, s) && Outcome(p, g, a, s).Some? && s.Match?
    ensures a < |g| && Outcome(p, g, a, s).value.handles == g[a].handles
  {
    hide SlotInbox;
  }

  lemma StayWithRecv(p: Program, g: seq<Rank>, a: nat, s: Step)
    requires Enabled(p, g, a, s) && Outcome(p, g, a, s).Some? && (s.PostRecv? || s.RecvCallback?)
    ensures a < |g| && g[a].handles.Keys <= Outcome(p, g, a, s).value.handles.Keys
  {
    hide RecvHandler, Recv, RecvReady, PlanReady, SlotInbox;
    var st := g[a];
    if s.PostRecv? {
      RecvGrows(st, st.pc, s.dst, p.rounds[st.round].per, s.u, SlotInbox(p, g, a, st.pc), s.plan);
    } else {
      var st1 := st.(xfers := st.xfers[s.j := WithOp(st.xfers[s.j], Idle)]);
      RecvHandlerGrows(st1, st.xfers[s.j].op.request, SlotInbox(p, g, a, s.j), s.plan);
    }
  }

  // ---------- whole runs ----------

  /** A run with the steps it took. */
  ghost predicate Trace(p: Program, gs: seq<seq<Rank>>, steps: seq<(nat, Step)>) {
    && Run(p, gs) && |gs| == |steps| + 1
    && forall i :: 0 <= i < |steps| ==> Took(p, gs[i], gs[i + 1], steps[i])
  }

  ghost predicate Took(p: Program, g: seq<Rank>, g': seq<Rank>, step: (nat, Step)) {
    var (a, s) := step;
    a < |g| && Enabled(p, g, a, s) && Outcome(p, g, a, s).Some? && g' == g[a := Outcome(p, g, a, s).value]
  }

  /** Every run has one. */
  lemma {:induction false} TraceOf(p: Program, gs: seq<seq<Rank>>, n: nat) returns (steps: seq<(nat, Step)>)
    requires Run(p, gs) && n < |gs|
    ensures |steps| == n && forall i :: 0 <= i < n ==> Took(p, gs[i], gs[i + 1], steps[i])
  {
    hide Enabled, Outcome, Initial;
    if n == 0 {
      steps := [];
    } else {
      var front := TraceOf(p, gs, n - 1);
      assert Next(p, gs[n - 1], gs[n - 1 + 1]);
      var a: nat, s :| a < |gs[n - 1]| && Enabled(p, gs[n - 1], a, s) && Outcome(p, gs[n - 1], a, s).Some?
                       && gs[n] == gs[n - 1][a := Outcome(p, gs[n - 1], a, s).value];
      assert Took(p, gs[n - 1], gs[n], (a, s));
      steps := front + [(a, s)];
    }
  }

  /** The handles of rank `a` that malloc has made and `free` has not taken back, by the first `i` steps. */
  ghost function MadeByMalloc(p: Program, gs: seq<seq<Rank>>, steps: seq<(nat, Step)>, a: nat, i: nat): set<nat>
    requires i <= |steps| < |gs|
  {
    if i == 0 then {}
    else
      var before, (b, s) := MadeByMalloc(p, gs, steps, a, i - 1), steps[i - 1];
      if b == a < |gs[i - 1]| then MallocedAfter(p, gs[i - 1][a], s, before) else before
  }

  /** The handles know where they come from. */
  lemma {:induction false} HandlesKnow(p: Program, gs: seq<seq<Rank>>, steps: seq<(nat, Step)>, a: nat, i: nat)
    requires Trace(p, gs, steps) && i < |gs| && a < p.n
    ensures a < |gs[i]| && MadeByMalloc(p, gs, steps, a, i) == Malloced(gs[i][a])
    decreases i
  {
    hide Inv, RankInv, Enabled, Outcome, MallocedAfter, Fits, Next;
    RunSize(p, gs, i);
    if i > 0 {
      HandlesKnow(p, gs, steps, a, i - 1);
      RunSize(p, gs, i - 1);
      assert Took(p, gs[i - 1], gs[i - 1 + 1], steps[i - 1]);
      var (b, s) := steps[i - 1];
      if b == a { StepMalloced(p, gs[i - 1], a, s); }
    } else {
      assert Initial(p, gs[0][a]);
    }
  }

  lemma RunSize(p: Program, gs: seq<seq<Rank>>, i: nat)
    requires Run(p, gs) && i < |gs|
    ensures |gs[i]| == p.n && Inv(p, gs[i])
  {
    Reachable(p, gs, i);
  }

  /** What malloc made is never among the free requests that UCX may hand out, in any state of any run. */
  lemma NeverInThePool(p: Program, gs: seq<seq<Rank>>, steps: seq<(nat, Step)>, a: nat, i: nat)
    requires Trace(p, gs, steps) && i < |gs| && a < p.n
    ensures a < |gs[i]| && MadeByMalloc(p, gs, steps, a, i) !! gs[i][a].free
    ensures MadeByMalloc(p, gs, steps, a, i) <= gs[i][a].handles.Keys
  {
    hide Inv, Trace, MadeByMalloc;
    HandlesKnow(p, gs, steps, a, i);
    TraceRun(p, gs, steps);
    RunSize(p, gs, i);
    InvOf(p, gs[i], a);
    hide RankInv;
    forall h | h in Malloced(gs[i][a]) ensures h !in gs[i][a].free { MallocedAre(p, a, gs[i][a], h); }
  }

  lemma TraceRun(p: Program, gs: seq<seq<Rank>>, steps: seq<(nat, Step)>)
    requires Trace(p, gs, steps)
    ensures Run(p, gs) && |gs| == |steps| + 1
    ensures forall i :: 0 <= i < |steps| ==> Took(p, gs[i], gs[i + 1], steps[i])
  {
  }

  /** Every release in a run gives the handle back to the allocator that made it: memory from malloc is
      gone afterwards, and a request of UCX can be handed out again. */
  lemma ReturnedToMaker(p: Program, gs: seq<seq<Rank>>, steps: seq<(nat, Step)>, a: nat, u: nat, i: nat)
    requires Trace(p, gs, steps) && i < |steps| && a < |gs[i]| && steps[i] == (a, Release) && Releases(p, gs[i][a], u)
    ensures a < |gs[i + 1]|
    ensures if u in MadeByMalloc(p, gs, steps, a, i) then u !in gs[i + 1][a].handles && u !in gs[i + 1][a].free
            else u in gs[i + 1][a].handles && u in gs[i + 1][a].free
  {
    hide Inv, Outcome, Trace, MadeByMalloc, Run, Enabled, Releases;
    TraceRun(p, gs, steps);
    RunSize(p, gs, i);
    assert Took(p, gs[i], gs[i + 1], steps[i]);
    ReleaseReturns(p, gs[i], a, u);
    HandlesKnow(p, gs, steps, a, i);
  }

  /** At the end of a run malloc has got everything back. */
  lemma NothingLeft(p: Program, gs: seq<seq<Rank>>, steps: seq<(nat, Step)>, a: nat, i: nat)
    requires Trace(p, gs, steps) && i < |gs| && a < p.n && Done(p, gs[i])
    ensures MadeByMalloc(p, gs, steps, a, i) == {}
  {
    TraceRun(p, gs, steps);
    RunSize(p, gs, i);
    EndsClean(p, gs, i, a);
    NeverInThePool(p, gs, steps, a, i);
  }
}
