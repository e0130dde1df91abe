/** Every run of the protocol ends: each step uses up a measure of the rounds, slots and messages
    that are left. */
module Termination {
  import opened Wire
  import opened Endpoint
  import opened Rounds
  import opened RankInvariant
  import opened HandlerFrames
  import opened SendProofs
  import opened RecvProofs
  import opened WaitProofs
  import opened Bounds
  import opened Network
  import opened Runs

  /** What a handler for slot `j` may change: its own handles and staging buffer `b`, its operation,
      which is then idle or newly posted, and its channel, which only grows. */
  ghost predicate Touches(st: Rank, st': Rank, j: nat, b: nat) {
    && Agree(st, st', j, b) && st'.pc == st.pc
    && j in st'.xfers && !st'.xfers[j].op.Landed?
    && (j < |st.out| ==> |st.out[j]| <= |st'.out[j]|)
    && (|st.out| <= j < |st.out| + |st.taken| ==> st.taken[j - |st.out|] <= st'.taken[j - |st.out|])
  }

  lemma SendHandlerAgrees(st: Rank, h: nat, stop: nat, q: nat)
    requires SendReady(st, h) && Allocatable(st, q)
    ensures Agree(st, SendHandler(st, h, stop, q), st.handles[h].slot, st.handles[h].buffer.value)
  {
    var info := st.handles[h];
    PostBatchesFrame(st, info.slot, info.buffer.value, info.ibatch, stop);
    hide PostBatches;
  }

  lemma SendHandlerTouches(st: Rank, h: nat, stop: nat, q: nat)
    requires SendReady(st, h) && Allocatable(st, q)
    ensures Touches(st, SendHandler(st, h, stop, q), st.handles[h].slot, st.handles[h].buffer.value)
  {
    var info := st.handles[h];
    SendHandlerAgrees(st, h, stop, q);
    PostBatchesFrame(st, info.slot, info.buffer.value, info.ibatch, stop);
    hide Agree, PostBatches;
  }

  lemma PostNextTouches(st: Rank, h: nat, q: nat, len: nat, early: bool, inbox: seq<Message>)
    requires RecvReady(st, h) && Allocatable(st, q)
    requires q in st.free ==> q in st.handles && st.handles[q].orig == Null
    requires early ==> inbox != []
    ensures Touches(st, PostNext(st, h, q, len, early, inbox).0, st.handles[h].slot, st.handles[h].buffer.value)
  {
    var st', j := PostNext(st, h, q, len, early, inbox).0, st.handles[h].slot;
    PostNextLive(st, h, q, len, early, inbox);
    PostNextAgrees(st, h, q, len, early, inbox);
    hide PostNext, Agree;
    assert Touches(st, st', j, st.handles[h].buffer.value);
  }

  lemma PostNextAgrees(st: Rank, h: nat, q: nat, len: nat, early: bool, inbox: seq<Message>)
    requires RecvReady(st, h) && Allocatable(st, q)
    requires q in st.free ==> q in st.handles && st.handles[q].orig == Null
    requires early ==> inbox != []
    ensures var st', j := PostNext(st, h, q, len, early, inbox).0, st.handles[h].slot;
            && Agree(st, st', j, st.handles[h].buffer.value) && st'.pc == st.pc
            && j in st'.xfers && !st'.xfers[j].op.Landed? && st'.out == st.out
            && st.taken[j - |st.out|] <= st'.taken[j - |st.out|]
  {
    if early { EarlyAgrees(st, h, q, len, inbox); }
  }

  lemma EarlyAgrees(st: Rank, h: nat, q: nat, len: nat, inbox: seq<Message>)
    requires RecvReady(st, h) && Allocatable(st, q)
    requires q in st.free ==> q in st.handles && st.handles[q].orig == Null
    requires inbox != []
    ensures var st', j := PostNext(st, h, q, len, true, inbox).0, st.handles[h].slot;
            && Agree(st, st', j, st.handles[h].buffer.value) && st'.pc == st.pc
            && j in st'.xfers && !st'.xfers[j].op.Landed? && st'.out == st.out
            && st.taken[j - |st.out|] <= st'.taken[j - |st.out|]
  {
    EarlyKeepsOthers(st, h, q, len, inbox);
    hide Put, Take, Agree;
  }

  lemma EarlyKeepsOthers(st: Rank, h: nat, q: nat, len: nat, inbox: seq<Message>)
    requires RecvReady(st, h) && Allocatable(st, q)
    requires q in st.free ==> q in st.handles && st.handles[q].orig == Null
    requires inbox != []
    ensures Agree(st, PostNext(st, h, q, len, true, inbox).0, st.handles[h].slot, st.handles[h].buffer.value)
  {
    hide Put, Take;
  }

  lemma TouchesTrans(st: Rank, st1: Rank, st2: Rank, j: nat, b: nat)
    requires Touches(st, st1, j, b) && Touches(st1, st2, j, b)
    ensures Touches(st, st2, j, b)
  {
  }

  lemma UnloadTouches(st: Rank, h: nat)
    requires RecvReady(st, h)
    ensures Touches(st, Unload(st, h), st.handles[h].slot, st.handles[h].buffer.value)
  {
  }

  lemma FreeTouches(st: Rank, st1: Rank, h: nat, j: nat, b: nat)
    requires Touches(st, st1, j, b) && Live(st1, h) && st1.handles[h].slot == j
    ensures Touches(st, FreeIfInternal(st1, h), j, b)
  {
  }

  lemma {:induction false} RecvHandlerTouches(st: Rank, h: nat, inbox: seq<Message>, plan: seq<nat>)
    requires RecvReady(st, h) && PlanReady(st, plan, inbox)
    ensures Touches(st, RecvHandler(st, h, inbox, plan), st.handles[h].slot, st.handles[h].buffer.value)
    decreases |plan|
  {
    var j, st1 := st.handles[h].slot, Unload(st, h);
    UnloadReady(st, h);
    UnloadTouches(st, h);
    var x := st1.xfers[j];
    if BatchLength(x.count, x.per, st.handles[h].ibatch) > 0 {
      HandlerPosts(st, h, inbox, plan);
      hide RecvReady, PlanReady, Touches, Unload, PostNext, RecvHandler, FreeIfInternal;
      PostedTouches(st, st1, h, j, inbox, plan);
    }
  }

  lemma PostedTouches(st: Rank, st1: Rank, h: nat, j: nat, inbox: seq<Message>, plan: seq<nat>)
    requires RecvReady(st, h) && PlanReady(st, plan, inbox) && st1 == Unload(st, h) && RecvReady(st1, h)
    requires h in st.handles && j == st.handles[h].slot && j in st1.xfers && st1.xfers[j].Incoming?
    requires st.handles[h].buffer.Some? && Touches(st, st1, j, st.handles[h].buffer.value) && BatchDue(st1, h)
    ensures Touches(st, RecvHandler(st, h, inbox, plan), j, st.handles[h].buffer.value)
    decreases |plan|, 0
  {
    hide RecvReady, PlanReady, Touches, Unload, PostNext, RecvHandler, FreeIfInternal;
    HandlerPosts(st, h, inbox, plan);
    var x, b := st1.xfers[j], st.handles[h].buffer.value;
    var len := BatchLength(x.count, x.per, st.handles[h].ibatch);
    var (st2, called) := PostNext(st1, h, plan[0], len, |plan| > 1, inbox);
    PostNextTouches(st1, h, plan[0], len, |plan| > 1, inbox);
    TouchesTrans(st, st1, st2, j, b);
    if called {
      NextSlot(st1, h, plan[0], len, inbox);
      RecvHandlerTouches(st2, plan[0], inbox[1..], plan[1..]);
      TouchesTrans(st, st2, RecvHandler(st2, plan[0], inbox[1..], plan[1..]), j, b);
      FreeTouches(st, RecvHandler(st2, plan[0], inbox[1..], plan[1..]), h, j, b);
    } else {
      FreeTouches(st, st2, h, j, b);
    }
  }

  lemma NextSlot(st: Rank, h: nat, q: nat, len: nat, inbox: seq<Message>)
    requires RecvReady(st, h) && Allocatable(st, q)
    requires q in st.free ==> q in st.handles && st.handles[q].orig == Null
    requires inbox != []
    ensures PostNext(st, h, q, len, true, inbox).0.handles[q].slot == st.handles[h].slot
    ensures PostNext(st, h, q, len, true, inbox).0.handles[q].buffer == st.handles[h].buffer
  {
  }

  // ---------- the measure ----------

  function PassedOn(st: Rank, j: nat): nat
    requires j < |st.out| + |st.taken|
  {
    if j < |st.out| then |st.out[j]| else st.taken[j - |st.out|]
  }

  function Phase(st: Rank, j: nat): nat {
    if j !in st.xfers then 2
    else match st.xfers[j].op
         case Idle => 2
         case Posted(_, _) => 1
         case Landed(_) => 3
  }

  /** Three steps for every message that is left, less those already taken for the next one. */
  ghost function SlotLeft(p: Program, a: nat, st: Rank, j: nat): int
    requires Member(p, a) && Shape(p, st) && j < 2 * p.n
  {
    3 * (|SlotStream(p, a, j, |p.rounds|)| - PassedOn(st, j)) + Phase(st, j)
  }

  ghost function SlotsLeft(p: Program, a: nat, st: Rank, m: nat): int
    requires Member(p, a) && Shape(p, st) && m <= 2 * p.n
  {
    if m == 0 then 0 else SlotsLeft(p, a, st, m - 1) + SlotLeft(p, a, st, m - 1)
  }

  ghost function RankLeft(p: Program, a: nat, st: Rank): int
    requires Member(p, a) && Shape(p, st)
  {
    (4 * p.n + 1) * (|p.rounds| - st.round) - st.pc + SlotsLeft(p, a, st, 2 * p.n)
  }

  ghost function StepsLeft(p: Program, g: seq<Rank>, m: nat): int
    requires Cluster(p, g) && m <= p.n
  {
    if m == 0 then 0 else StepsLeft(p, g, m - 1) + RankLeft(p, m - 1, g[m - 1])
  }

  lemma {:induction false} SlotsLeftChange(p: Program, a: nat, st: Rank, st': Rank, j: nat, m: nat)
    requires Member(p, a) && Shape(p, st) && Shape(p, st') && m <= 2 * p.n && j < 2 * p.n
    requires forall i :: 0 <= i < 2 * p.n && i != j ==> SlotLeft(p, a, st', i) == SlotLeft(p, a, st, i)
    ensures SlotsLeft(p, a, st', m) - SlotsLeft(p, a, st, m)
            == if j < m then SlotLeft(p, a, st', j) - SlotLeft(p, a, st, j) else 0
  {
    if m > 0 {
      SlotsLeftChange(p, a, st, st', j, m - 1);
    }
  }

  lemma OneSlotLeft(p: Program, a: nat, st: Rank, st': Rank, j: nat)
    requires Member(p, a) && Shape(p, st) && Shape(p, st') && j < 2 * p.n
    requires forall i :: 0 <= i < 2 * p.n && i != j ==> SlotLeft(p, a, st', i) == SlotLeft(p, a, st, i)
    requires SlotLeft(p, a, st', j) < SlotLeft(p, a, st, j)
    requires st'.round == st.round && st'.pc == st.pc
    ensures RankLeft(p, a, st') < RankLeft(p, a, st)
  {
    hide SlotLeft, Member, Shape;
    SlotsLeftChange(p, a, st, st', j, 2 * p.n);
  }

  lemma TouchesLeft(p: Program, a: nat, st: Rank, st': Rank, j: nat, b: nat)
    requires Member(p, a) && Shape(p, st) && Shape(p, st') && j < 2 * p.n
    requires Touches(st, st', j, b)
    requires Phase(st, j) == 3
    ensures RankLeft(p, a, st') < RankLeft(p, a, st)
  {
    hide Stream, WireOf, Valid, RankLeft, SlotsLeft;
    forall i | 0 <= i < 2 * p.n && i != j ensures SlotLeft(p, a, st', i) == SlotLeft(p, a, st, i) {
      assert Phase(st', i) == Phase(st, i);
    }
    OneSlotLeft(p, a, st, st', j);
  }

  /** A slot started: the counter passes it, and its measure is no more than before. */
  lemma StartLeft(p: Program, a: nat, st: Rank, st': Rank, j: nat, b: nat)
    requires Member(p, a) && Shape(p, st) && Shape(p, st') && j < 2 * p.n && j !in st.xfers
    requires Touches(st, st'.(pc := st.pc), j, b) && st'.pc == st.pc + 1
    ensures RankLeft(p, a, st') < RankLeft(p, a, st)
  {
    hide Stream, WireOf, Valid;
    forall i | 0 <= i < 2 * p.n && i != j ensures SlotLeft(p, a, st', i) == SlotLeft(p, a, st, i) {
      assert Phase(st', i) == Phase(st, i);
    }
    assert Phase(st', j) <= 2;
    SlotsLeftChange(p, a, st, st', j, 2 * p.n);
  }

  lemma SendTouches(st: Rank, j: nat, d: seq<Elem>, per: nat, u: nat, immediate: bool, raw: Info, stop: nat, q: nat)
    requires per > 0 && j < |st.out| && j !in st.xfers
    requires if immediate then u !in st.handles else Allocatable(st, u)
    requires Allocatable(st, q) && q != u
    requires forall b :: b in st.cache ==> b in st.staging
    ensures var r := Send(st, j, d, per, u, immediate, raw, stop, q);
            r.Some? ==> r.value.pc == st.pc + 1 && st.cache != [] && Touches(st, r.value.(pc := st.pc), j, st.cache[0])
  {
    hide SendHandler, SendReady, Touches;
    var r := Send(st, j, d, per, u, immediate, raw, stop, q);
    if r.Some? {
      var st2 := SendStart(st, j, d, per, u, immediate, raw);
      SendStartTouches(st, j, d, per, u, immediate, raw);
      if st2.handles[u].custom {
        SendHandlerTouches(st2, u, stop, q);
        SamePc(st2, r.value, j, st.cache[0]);
        SetPc(st2, r.value, j, st.cache[0], st.pc);
        TouchesTrans(st, st2.(pc := st.pc), r.value.(pc := st.pc), j, st.cache[0]);
      }
    }
  }

  /** A send up to the manual call of its handler. */
  function SendStart(st: Rank, j: nat, d: seq<Elem>, per: nat, u: nat, immediate: bool, raw: Info): Rank
    requires j < |st.out| && st.cache != [] && (!immediate ==> Allocatable(st, u))
  {
    var st1 := if immediate then st.(out := st.out[j := st.out[j] + [Count(|d|)]],
                                     handles := st.handles[u := raw.(custom := true, completed := false)])
               else Allocate(st, u);
    Enlist(st1, j, u, Outgoing(u, if immediate then Idle else Posted(u, CountCell), per, d))
  }

  lemma SendStartTouches(st: Rank, j: nat, d: seq<Elem>, per: nat, u: nat, immediate: bool, raw: Info)
    requires j < |st.out| && st.cache != [] && j !in st.xfers
    requires if immediate then u !in st.handles else Allocatable(st, u)
    ensures var st' := SendStart(st, j, d, per, u, immediate, raw);
            && st'.pc == st.pc + 1 && Touches(st, st'.(pc := st.pc), j, st.cache[0])
            && st'.handles[u].slot == j && st'.handles[u].buffer == Some(st.cache[0])
  {
  }

  lemma RecvTouches(st: Rank, j: nat, dst: Option<seq<Elem>>, per: nat, u: nat, inbox: seq<Message>, plan: seq<nat>)
    requires per > 0 && |st.out| <= j < |st.out| + |st.taken| && j !in st.xfers
    requires Allocatable(st, u) && u !in plan
    requires u in st.free ==> u in st.handles && st.handles[u].orig == Null
    requires plan != [] ==> inbox != [] && PlanReady(st, plan, inbox[1..])
    ensures var r := Recv(st, j, dst, per, u, inbox, plan);
            r.Some? ==> r.value.pc == st.pc + 1 && st.cache != [] && Touches(st, r.value.(pc := st.pc), j, st.cache[0])
  {
    if plan == [] {
      hide RecvHandler, RecvReady, PlanReady, EarlyStart;
    } else if Recv(st, j, dst, per, u, inbox, plan).Some? {
      RecvNowTouches(st, j, dst, per, u, inbox, plan);
    }
  }

  lemma EarlyStartAgrees(st: Rank, j: nat, dst: Option<seq<Elem>>, per: nat, u: nat, m: Message)
    requires |st.out| <= j < |st.out| + |st.taken| && j !in st.xfers && st.cache != [] && Allocatable(st, u)
    requires u in st.free ==> u in st.handles && st.handles[u].orig == Null
    ensures Agree(st, EarlyStart(st, j, dst, per, u, m).(pc := st.pc), j, st.cache[0])
  {
  }

  lemma EarlyTouches(st: Rank, j: nat, dst: Option<seq<Elem>>, per: nat, u: nat, m: Message)
    requires |st.out| <= j < |st.out| + |st.taken| && j !in st.xfers && st.cache != [] && Allocatable(st, u)
    requires u in st.free ==> u in st.handles && st.handles[u].orig == Null
    ensures var st' := EarlyStart(st, j, dst, per, u, m);
            && st'.pc == st.pc + 1 && Touches(st, st'.(pc := st.pc), j, st.cache[0])
            && st'.free == st.free - {u} && u in st'.handles && st'.handles == st.handles[u := st'.handles[u]]
            && st'.handles[u].slot == j && st'.handles[u].buffer == Some(st.cache[0])
  {
    EarlyStartAgrees(st, j, dst, per, u, m);
    hide Agree;
  }

  lemma RecvNowTouches(st: Rank, j: nat, dst: Option<seq<Elem>>, per: nat, u: nat, inbox: seq<Message>, plan: seq<nat>)
    requires per > 0 && |st.out| <= j < |st.out| + |st.taken| && j !in st.xfers
    requires Allocatable(st, u) && u !in plan
    requires u in st.free ==> u in st.handles && st.handles[u].orig == Null
    requires plan != [] && inbox != [] && PlanReady(st, plan, inbox[1..])
    requires Recv(st, j, dst, per, u, inbox, plan).Some?
    ensures var st' := Recv(st, j, dst, per, u, inbox, plan).value;
            st'.pc == st.pc + 1 && st.cache != [] && Touches(st, st'.(pc := st.pc), j, st.cache[0])
  {
    hide RecvHandler, RecvReady, PlanReady, EarlyStart, Touches;
    RecvStarts(st, j, dst, per, u, inbox, plan);
    var st' := EarlyStart(st, j, dst, per, u, inbox[0]);
    EarlyTouches(st, j, dst, per, u, inbox[0]);
    PlanKept(st, st', u, plan, inbox[1..]);
    RecvHandlerTouches(st', u, inbox[1..], plan);
    RecvIs(st, j, dst, per, u, inbox, plan);
    var st2 := RecvHandler(st', u, inbox[1..], plan);
    SamePc(st', st2, j, st.cache[0]);
    SetPc(st', st2, j, st.cache[0], st.pc);
    TouchesTrans(st, st'.(pc := st.pc), st2.(pc := st.pc), j, st.cache[0]);
  }

  lemma SamePc(st: Rank, st': Rank, j: nat, b: nat)
    requires Touches(st, st', j, b)
    ensures st'.pc == st.pc
  {
  }

  lemma SetPc(st: Rank, st': Rank, j: nat, b: nat, pc: nat)
    requires Touches(st, st', j, b)
    ensures Touches(st.(pc := pc), st'.(pc := pc), j, b)
  {
  }

  // ---------- every step takes from the measure ----------

  /** The states around a step, without the rest of the invariant. */
  ghost predicate Around(p: Program, g: seq<Rank>, a: nat, s: Step, st': Rank) {
    && Enabled(p, g, a, s) && Outcome(p, g, a, s) == Some(st')
    && Shape(p, st')
    && (forall j :: j in g[a].xfers ==> j < 2 * p.n && Enlisted(p, g[a], j))
    && (AllCompleted(g[a]) ==> forall j :: j in g[a].xfers ==> g[a].xfers[j].op == Idle)
  }

  lemma IsAround(p: Program, g: seq<Rank>, a: nat, s: Step)
    requires Inv(p, g) && Enabled(p, g, a, s)
    ensures Outcome(p, g, a, s).Some? && Around(p, g, a, s, Outcome(p, g, a, s).value)
  {
    StepKeeps(p, g, a, s);
    hide Outcome;
    assert RankInv(p, a, g[a := Outcome(p, g, a, s).value][a]);
    assert RankInv(p, a, g[a]);
    hide RankInv;
    ShapeOf(p, a, g[a]);
    ShapeOf(p, a, Outcome(p, g, a, s).value);
  }

  lemma PostTakes(p: Program, g: seq<Rank>, a: nat, s: Step, st': Rank)
    requires Around(p, g, a, s, st') && (s.PostSend? || s.PostRecv?)
    ensures RankLeft(p, a, st') < RankLeft(p, a, g[a])
  {
    var st := g[a];
    hide Send, Recv, PlanReady, RankLeft, Touches;
    if s.PostSend? {
      SendTouches(st, st.pc, Expected(p, a, st.pc, st.round).value, p.rounds[st.round].per,
                  s.u, s.immediate, s.raw, s.stop, s.q);
    } else {
      RecvTouches(st, st.pc, s.dst, p.rounds[st.round].per, s.u, SlotInbox(p, g, a, st.pc), s.plan);
    }
    StartLeft(p, a, st, st', st.pc, st.cache[0]);
  }

  lemma ReadyBuffer(st: Rank, h: nat)
    requires SendReady(st, h)
    ensures h in st.handles && st.handles[h].buffer.Some?
  {
  }

  lemma TouchesItself(st: Rank, j: nat, buffer: Option<nat>)
    requires j in st.xfers
    ensures buffer.Some? ==> Touches(st, st.(xfers := st.xfers[j := WithOp(st.xfers[j], Idle)]), j, buffer.value)
  {
  }

  lemma SendCallbackTakes(p: Program, g: seq<Rank>, a: nat, s: Step, st': Rank)
    requires Around(p, g, a, s, st') && s.SendCallback?
    ensures RankLeft(p, a, st') < RankLeft(p, a, g[a])
  {
    hide Stream, Valid, Touches;
    var st := g[a];
    hide SendHandler, SendReady, RankLeft;
    var st1 := st.(xfers := st.xfers[s.j := WithOp(st.xfers[s.j], Idle)]);
    SendHandlerTouches(st1, st.xfers[s.j].op.request, s.stop, s.q);
    ReadyBuffer(st1, st.xfers[s.j].op.request);
    var b := st.handles[st.xfers[s.j].op.request].buffer.value;
    TouchesItself(st, s.j, Some(b));
    TouchesTrans(st, st1, st', s.j, b);
    TouchesLeft(p, a, st, st', s.j, b);
  }

  lemma RecvCallbackTakes(p: Program, g: seq<Rank>, a: nat, s: Step, st': Rank)
    requires Around(p, g, a, s, st') && s.RecvCallback?
    ensures RankLeft(p, a, st') < RankLeft(p, a, g[a])
  {
    var st, j := g[a], s.j;
    hide RecvHandler, RecvReady, PlanReady, RankLeft, SlotInbox, Touches;
    ResumedTouches(st, j, st.xfers[j].op.request, SlotInbox(p, g, a, j), s.plan);
    TouchesLeft(p, a, st, st', j, st.handles[st.xfers[j].op.request].buffer.value);
  }

  lemma ResumedTouches(st: Rank, j: nat, h: nat, inbox: seq<Message>, plan: seq<nat>)
    requires j in st.xfers
    requires var st1 := st.(xfers := st.xfers[j := WithOp(st.xfers[j], Idle)]);
             RecvReady(st1, h) && st1.handles[h].slot == j && PlanReady(st1, plan, inbox)
    ensures h in st.handles && st.handles[h].buffer.Some?
    ensures var st1 := st.(xfers := st.xfers[j := WithOp(st.xfers[j], Idle)]);
            Touches(st, RecvHandler(st1, h, inbox, plan), j, st.handles[h].buffer.value)
  {
    hide RecvHandler;
    var st1 := st.(xfers := st.xfers[j := WithOp(st.xfers[j], Idle)]);
    var b := st.handles[h].buffer.value;
    RecvHandlerTouches(st1, h, inbox, plan);
    assert Touches(st, st1, j, b);
    TouchesTrans(st, st1, RecvHandler(st1, h, inbox, plan), j, b);
  }

  lemma UcxTakes(p: Program, g: seq<Rank>, a: nat, s: Step, st': Rank)
    requires Around(p, g, a, s, st') && (s.ReadMemory? || s.Match?)
    ensures RankLeft(p, a, st') < RankLeft(p, a, g[a])
  {
    hide RankLeft;
    MoveLeft(p, a, g[a], st', s.j);
  }

  lemma LocalTakes(p: Program, g: seq<Rank>, a: nat, s: Step, st': Rank)
    requires Around(p, g, a, s, st') && (s.Pass? || s.Release? || s.NextRound?)
    ensures RankLeft(p, a, st') < RankLeft(p, a, g[a])
  {
    hide RankLeft, Stream, Valid, AllCompleted, BufferOf;
    if s.Release? {
      ReleaseLeft(p, a, g[a], st', g[a].pc - 2 * p.n);
    } else {
      SameLeft(p, a, g[a], st');
    }
  }

  lemma StepTakes(p: Program, g: seq<Rank>, a: nat, s: Step)
    requires Inv(p, g) && Enabled(p, g, a, s)
    ensures Cluster(p, g) && a < p.n
    ensures Outcome(p, g, a, s).Some? && Shape(p, Outcome(p, g, a, s).value)
    ensures RankLeft(p, a, Outcome(p, g, a, s).value) < RankLeft(p, a, g[a])
  {
    IsAround(p, g, a, s);
    AroundShape(p, g, a, s);
    hide Inv, Enabled, Outcome, Around, RankLeft;
    var st' := Outcome(p, g, a, s).value;
    match s
    case PostSend(_, _, _, _, _) => PostTakes(p, g, a, s, st');
    case PostRecv(_, _, _) => PostTakes(p, g, a, s, st');
    case ReadMemory(_) => UcxTakes(p, g, a, s, st');
    case Match(_) => UcxTakes(p, g, a, s, st');
    case SendCallback(_, _, _) => SendCallbackTakes(p, g, a, s, st');
    case RecvCallback(_, _) => RecvCallbackTakes(p, g, a, s, st');
    case Pass => LocalTakes(p, g, a, s, st');
    case Release => LocalTakes(p, g, a, s, st');
    case NextRound => LocalTakes(p, g, a, s, st');
  }

  lemma AroundShape(p: Program, g: seq<Rank>, a: nat, s: Step)
    requires Enabled(p, g, a, s) && Outcome(p, g, a, s).Some? && Around(p, g, a, s, Outcome(p, g, a, s).value)
    ensures Cluster(p, g) && a < p.n && Shape(p, Outcome(p, g, a, s).value)
  {
    hide Outcome;
  }

  lemma ShapeOf(p: Program, a: nat, st: Rank)
    requires RankInv(p, a, st)
    ensures Member(p, a) && Shape(p, st)
    ensures forall j :: j in st.xfers ==> j < 2 * p.n && Enlisted(p, st, j)
    ensures forall j :: j in st.xfers && st.pc > 2 * p.n ==> st.xfers[j].op == Idle
    ensures AllCompleted(st) ==> forall j :: j in st.xfers ==> st.xfers[j].op == Idle
  {
    EnlistedOnly(p, a, st);
    forall j | j in st.xfers && (st.pc > 2 * p.n || AllCompleted(st)) ensures st.xfers[j].op == Idle {
      assert SlotOk(p, a, st, j);
    }
  }

  lemma MoveLeft(p: Program, a: nat, st: Rank, st': Rank, j: nat)
    requires Member(p, a) && Shape(p, st) && Shape(p, st') && j < 2 * p.n && j in st.xfers && j in st'.xfers
    requires st.xfers[j].op.Posted? && st'.xfers[j].op.Landed?
    requires st' == st.(xfers := st'.xfers, out := st'.out, taken := st'.taken, staging := st'.staging)
    requires st'.xfers == st.xfers[j := st'.xfers[j]]
    requires if j < p.n then st'.taken == st.taken && st'.out == st.out[j := st'.out[j]] && |st'.out[j]| == |st.out[j]| + 1
             else st'.out == st.out && st'.taken == st.taken[j - p.n := st.taken[j - p.n] + 1]
    ensures RankLeft(p, a, st') < RankLeft(p, a, st)
  {
    hide Stream, WireOf, Valid, RankLeft, SlotsLeft;
    forall i | 0 <= i < 2 * p.n && i != j ensures SlotLeft(p, a, st', i) == SlotLeft(p, a, st, i) {
      assert Phase(st', i) == Phase(st, i);
    }
    OneSlotLeft(p, a, st, st', j);
  }

  lemma SameLeft(p: Program, a: nat, st: Rank, st': Rank)
    requires Member(p, a) && Shape(p, st) && Shape(p, st') && st'.xfers == st.xfers && p.n > 0
    requires st'.out == st.out && st'.taken == st.taken
    requires (st'.round == st.round && st'.pc > st.pc) || (st'.round == st.round + 1 && st'.pc == 0)
    ensures RankLeft(p, a, st') < RankLeft(p, a, st)
  {
    hide Stream, WireOf, Valid;
    SlotsLeftChange(p, a, st, st', 0, 2 * p.n);
    assert (4 * p.n + 1) * (|p.rounds| - st.round - 1) == (4 * p.n + 1) * (|p.rounds| - st.round) - (4 * p.n + 1);
  }

  lemma ReleaseLeft(p: Program, a: nat, st: Rank, st': Rank, j: nat)
    requires Member(p, a) && Shape(p, st) && Shape(p, st') && j < 2 * p.n && j in st.xfers && st.xfers[j].op == Idle
    requires st'.xfers == st.xfers - {j} && st'.out == st.out && st'.taken == st.taken
    requires st'.round == st.round && st'.pc == st.pc + 1
    ensures RankLeft(p, a, st') < RankLeft(p, a, st)
  {
    forall i | 0 <= i < 2 * p.n ensures SlotLeft(p, a, st', i) == SlotLeft(p, a, st, i) {
      assert Phase(st', i) == Phase(st, i);
    }
    SlotsLeftChange(p, a, st, st', 0, 2 * p.n);
  }

  lemma {:induction false} StepsLeftChange(p: Program, g: seq<Rank>, a: nat, st: Rank, m: nat)
    requires Cluster(p, g) && a < p.n && Shape(p, st) && m <= p.n
    ensures Cluster(p, g[a := st])
    ensures StepsLeft(p, g[a := st], m) - StepsLeft(p, g, m) == if a < m then RankLeft(p, a, st) - RankLeft(p, a, g[a]) else 0
  {
    if m > 0 {
      StepsLeftChange(p, g, a, st, m - 1);
    }
  }

  // ---------- and the measure is never negative ----------

  lemma PassedOnBounded(p: Program, a: nat, st: Rank, j: nat)
    requires RankInv(p, a, st) && j < 2 * p.n
    ensures Member(p, a) && Shape(p, st) && SlotLeft(p, a, st, j) >= 0
  {
    hide RankInv, Stream, WireOf;
    var m := ChannelAt(p, a, st, j);
    var s, t := Source(p, a, j), Target(p, a, j);
    if st.round < |p.rounds| {
      StreamStep(p, s, t, st.round);
      StreamGrows(p, s, t, st.round + 1, |p.rounds|);
    }
  }

  lemma {:induction false} SlotsLeftNonNegative(p: Program, a: nat, st: Rank, m: nat)
    requires RankInv(p, a, st) && m <= 2 * p.n
    ensures Member(p, a) && Shape(p, st) && SlotsLeft(p, a, st, m) >= 0
  {
    ShapeOf(p, a, st);
    hide RankInv;
    if m > 0 {
      SlotsLeftNonNegative(p, a, st, m - 1);
      PassedOnBounded(p, a, st, m - 1);
    }
  }

  lemma RankLeftNonNegative(p: Program, a: nat, st: Rank)
    requires RankInv(p, a, st)
    ensures Member(p, a) && Shape(p, st) && RankLeft(p, a, st) >= 0
  {
    hide RankInv, SlotsLeft, Valid;
    SlotsLeftNonNegative(p, a, st, 2 * p.n);
    if st.round < |p.rounds| {
      AtLeastOnce(4 * p.n + 1, |p.rounds| - st.round);
    }
  }

  lemma AtLeastOnce(x: nat, y: nat)
    requires y > 0
    ensures x * y >= x
  {
  }

  lemma {:induction false} StepsLeftNonNegative(p: Program, g: seq<Rank>, m: nat)
    requires Inv(p, g) && m <= p.n
    ensures Cluster(p, g) && StepsLeft(p, g, m) >= 0
  {
    hide RankInv;
    InvCluster(p, g);
    if m > 0 {
      StepsLeftNonNegative(p, g, m - 1);
      RankLeftNonNegative(p, m - 1, g[m - 1]);
    }
  }

  lemma NextTakes(p: Program, g: seq<Rank>, g': seq<Rank>)
    requires Inv(p, g) && Next(p, g, g')
    ensures Cluster(p, g) && Cluster(p, g') && StepsLeft(p, g', p.n) < StepsLeft(p, g, p.n)
  {
    hide Inv, Enabled, Outcome, Shape;
    var a: nat, s :| a < |g| && Enabled(p, g, a, s) && Outcome(p, g, a, s).Some? && g' == g[a := Outcome(p, g, a, s).value];
    StepTakes(p, g, a, s);
    StepsLeftChange(p, g, a, Outcome(p, g, a, s).value, p.n);
  }

  /** No run takes more steps than the measure of its first state. */
  lemma {:induction false} RunsEnd(p: Program, gs: seq<seq<Rank>>, i: nat)
    requires Run(p, gs) && i < |gs|
    ensures Cluster(p, gs[0]) && Cluster(p, gs[i])
    ensures 0 <= StepsLeft(p, gs[i], p.n) <= StepsLeft(p, gs[0], p.n) - i
    decreases i
  {
    hide Inv, Next, Cluster, StepsLeft, Initial;
    Reachable(p, gs, i);
    StepsLeftNonNegative(p, gs[i], p.n);
    if i > 0 {
      RunsEnd(p, gs, i - 1);
      Reachable(p, gs, i - 1);
      assert Next(p, gs[i - 1], gs[i - 1 + 1]);
      NextTakes(p, gs[i - 1], gs[i]);
    }
  }
}
