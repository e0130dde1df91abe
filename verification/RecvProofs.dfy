/** `recv_handler` and the start of a receive keep the invariant of the rank, also when UCX calls
    back before the posting call has returned. */
module RecvProofs {
  import opened Wire
  import opened Endpoint
  import opened Rounds
  import opened RankInvariant
  import opened HandlerFrames
  import opened SendProofs

  /** Copying batch `k - 1` to its place makes the first `k` batches complete. */
  lemma UnloadedHolds(st: Rank, x: Xfer, b: nat, d: seq<Elem>, k: nat)
    requires x.Incoming? && x.per > 0 && b in st.staging
    requires Unloadable(st, x, b, d, k)
    ensures var x' := Unloaded(x, k, st.staging[b]);
            && Holds(x', d, k) && (d != [] ==> x'.dst.Some?)
  {
    var x' := Unloaded(x, k, st.staging[b]);
    if k > 0 {
      var first, len := x.per * (k - 1), BatchLength(|d|, x.per, k - 1);
      assert Take(st.staging[b], len) == d[first..first + len];
      assert d[..first] + d[first..first + len] == d[..first + len];
      assert x'.dst.value[..first + len] == x.dst.value[..first] + d[first..first + len];
      assert Min(x.per * k, |d|) == first + len;
    }
  }

  lemma RunningReceives(p: Program, a: nat, st: Rank, j: nat, h: nat, k: nat, extra: set<nat>)
    requires Running(p, a, st, j, h, k, extra) && j >= p.n && st.handles[h].ibatch == k
    requires Unloadable(st, st.xfers[j], BufferOf(st, j).value, Expected(p, a, j, st.round).value, k)
    ensures RecvReady(st, h) && st.handles[h].slot == j
    ensures Unload(st, h) == st.(xfers := st.xfers[j :=
              Unloaded(st.xfers[j], k, st.staging[BufferOf(st, j).value])])
  {
  }

  /** A change of the user's buffer only. */
  lemma BufferKeeps(p: Program, a: nat, st: Rank, j: nat, h: nat, k: nat, extra: set<nat>, x: Xfer)
    requires Running(p, a, st, j, h, k, extra) && j >= p.n
    requires x.Incoming? && x == st.xfers[j].(dst := x.dst)
    ensures Running(p, a, st.(xfers := st.xfers[j := x]), j, h, k, extra)
  {
    hide Core, SlotsOk;
    var st' := st.(xfers := st.xfers[j := x]);
    BufferCore(p, a, st, st', j, extra);
    BufferSlots(p, a, st, st', j, extra);
  }

  lemma BufferCore(p: Program, a: nat, st: Rank, st': Rank, j: nat, extra: set<nat>)
    requires Core(p, a, st, extra) && j in st.xfers
    requires st' == st.(xfers := st'.xfers) && st'.xfers.Keys == st.xfers.Keys
    requires forall i :: i in st.xfers ==> st'.xfers[i].user == st.xfers[i].user && RequestOf(st'.xfers[i]) == RequestOf(st.xfers[i])
    ensures Core(p, a, st', extra) && Shape(p, st')
  {
    hide HandlesOk;
    SameHandles(st, st', j, extra);
    assert forall i :: i in st.xfers ==> BufferOf(st', i) == BufferOf(st, i);
    BuffersFrame(p, st, st');
  }

  lemma BufferSlots(p: Program, a: nat, st: Rank, st': Rank, j: nat, extra: set<nat>)
    requires Core(p, a, st, extra) && SlotsOk(p, a, st, j) && j in st.xfers
    requires j in st'.xfers && st' == st.(xfers := st.xfers[j := st'.xfers[j]])
    ensures Shape(p, st') && SlotsOk(p, a, st', j)
  {
    SlotsFrame(p, a, st, st', j, BufferOf(st, j).value);
  }

  lemma SameHandles(st: Rank, st': Rank, j: nat, extra: set<nat>)
    requires HandlesOk(st, extra) && j in st.xfers
    requires st' == st.(xfers := st'.xfers) && st'.xfers.Keys == st.xfers.Keys
    requires forall i :: i in st.xfers ==> st'.xfers[i].user == st.xfers[i].user && RequestOf(st'.xfers[i]) == RequestOf(st.xfers[i])
    ensures HandlesOk(st', extra)
  {
    assert forall g :: g in st.handles ==> Owns(st', g) == Owns(st, g);
  }

  // ---------- the next batch is not there yet ----------

  /** The handler passes its handle on to a request that waits for batch `k`. */
  lemma WaitKeeps(p: Program, a: nat, st: Rank, j: nat, h: nat, k: nat, extra: set<nat>, q: nat, inbox: seq<Message>)
    requires Running(p, a, st, j, h, k, extra) && j >= p.n && st.handles[h].ibatch == k
    requires Holds(st.xfers[j], Expected(p, a, j, st.round).value, k) && st.xfers[j].dst.Some?
    requires k + 1 < |SlotWire(p, a, j, st.round)| && st.xfers[j].per * k < |Expected(p, a, j, st.round).value|
    requires Allocatable(st, q) && RecvReady(st, h)
    requires q in st.free ==> q in st.handles && st.handles[q].orig == Null
    ensures var x := st.xfers[j];
            var (st', _) := PostNext(st, h, q, BatchLength(x.count, x.per, k), false, inbox);
            && Core(p, a, st', extra) && SlotsOk(p, a, st', 2 * p.n)
  {
    hide Core, SlotsOk, HandlerReady;
    var x := st.xfers[j];
    var next := st.handles[h].(ibatch := k + 1);
    var st1 := st.(handles := st.handles[h := next]);
    NumberKeeps(p, a, st, j, h, k, extra);
    var place := Staging(BufferOf(st, j).value, BatchLength(x.count, x.per, k));
    var (st', _) := PostNext(st, h, q, BatchLength(x.count, x.per, k), false, inbox);
    assert !next.custom;
    assert TookOver(st1, st', j, q, place, next);
    assert BufferOf(st1, j) == BufferOf(st, j);
    PostKeeps(p, a, st1, st', j, h, k, extra, q, next);
  }

  /** The batch number in the running handle is its own affair. */
  lemma NumberKeeps(p: Program, a: nat, st: Rank, j: nat, h: nat, k: nat, extra: set<nat>)
    requires Running(p, a, st, j, h, k, extra)
    ensures Running(p, a, st.(handles := st.handles[h := st.handles[h].(ibatch := k + 1)]), j, h, k, extra)
  {
    hide Core, SlotsOk;
    var st' := st.(handles := st.handles[h := st.handles[h].(ibatch := k + 1)]);
    NumberCore(p, a, st, h, k + 1, extra);
    NumberSlots(p, a, st, st', j, h, extra);
  }

  lemma NumberCore(p: Program, a: nat, st: Rank, h: nat, k: nat, extra: set<nat>)
    requires Core(p, a, st, extra) && Live(st, h)
    ensures Core(p, a, st.(handles := st.handles[h := st.handles[h].(ibatch := k)]), extra)
  {
    hide HandlesOk;
    var st' := st.(handles := st.handles[h := st.handles[h].(ibatch := k)]);
    NumberHandles(st, h, k, extra);
    assert forall i :: i in st.xfers ==> BufferOf(st', i) == BufferOf(st, i);
    BuffersFrame(p, st, st');
  }

  lemma NumberHandles(st: Rank, h: nat, k: nat, extra: set<nat>)
    requires HandlesOk(st, extra) && Live(st, h)
    ensures HandlesOk(st.(handles := st.handles[h := st.handles[h].(ibatch := k)]), extra)
  {
    var st' := st.(handles := st.handles[h := st.handles[h].(ibatch := k)]);
    assert forall g :: g in st.handles ==> Owns(st', g) == Owns(st, g);
  }

  lemma NumberSlots(p: Program, a: nat, st: Rank, st': Rank, j: nat, h: nat, extra: set<nat>)
    requires Core(p, a, st, extra) && SlotsOk(p, a, st, j) && j in st.xfers && BufferOf(st, j).Some?
    requires Live(st, h) && st.handles[h].slot == j
    requires h in st'.handles && st' == st.(handles := st.handles[h := st'.handles[h]])
    ensures Shape(p, st') && SlotsOk(p, a, st', j)
  {
    SlotsFrame(p, a, st, st', j, BufferOf(st, j).value);
  }

  // ---------- the next batch is already there ----------

  /** A request that carries the transfer but has no operation: its callback is running. */
  lemma ExtraKeeps(p: Program, a: nat, st: Rank, st': Rank, j: nat, h: nat, k: nat, extra: set<nat>, q: nat)
    requires Running(p, a, st, j, h, k, extra) && j >= p.n
    requires Allocatable(st, q)
    requires st' == st.(handles := st.handles[q := st.handles[h]], free := st.free - {q})
    ensures Running(p, a, st', j, q, k, extra + {q})
  {
    hide Core, SlotsOk;
    ExtraCore(p, a, st, st', j, h, extra, q);
    ExtraSlots(p, a, st, st', j, h, extra, q);
  }

  lemma ExtraCore(p: Program, a: nat, st: Rank, st': Rank, j: nat, h: nat, extra: set<nat>, q: nat)
    requires Core(p, a, st, extra) && SlotsOk(p, a, st, j)
    requires j in st.xfers && j < 2 * p.n && Frame(p, a, st, j) && st.xfers[j].op == Idle
    requires Carries(st, j, h) && Allocatable(st, q)
    requires st' == st.(handles := st.handles[q := st.handles[h]], free := st.free - {q})
    ensures Core(p, a, st', extra + {q})
  {
    hide SlotsOk, SlotOk, HandlesOk, Stream;
    UsersCarry(p, a, st, j, extra);
    ExtraHandles(st, st', j, h, extra, q);
    forall i | i in st.xfers ensures BufferOf(st', i) == BufferOf(st, i) {
      assert Carries(st, i, st.xfers[i].user);
    }
    BuffersFrame(p, st, st');
  }

  lemma ExtraHandles(st: Rank, st': Rank, j: nat, h: nat, extra: set<nat>, q: nat)
    requires HandlesOk(st, extra) && j in st.xfers && st.xfers[j].op == Idle
    requires Live(st, h) && st.handles[h].slot == j && Live(st, st.xfers[j].user) && Allocatable(st, q)
    requires st' == st.(handles := st.handles[q := st.handles[h]], free := st.free - {q})
    ensures HandlesOk(st', extra + {q})
  {
    assert forall g :: Live(st', g) <==> g == q || Live(st, g);
    assert forall g :: Live(st, g) ==> g != q && Owns(st', g) == Owns(st, g);
    assert !Owns(st', q);
  }

  lemma ExtraSlots(p: Program, a: nat, st: Rank, st': Rank, j: nat, h: nat, extra: set<nat>, q: nat)
    requires Core(p, a, st, extra) && SlotsOk(p, a, st, j) && j in st.xfers && BufferOf(st, j).Some?
    requires Live(st, h) && st.handles[h].slot == j && Allocatable(st, q)
    requires st' == st.(handles := st.handles[q := st.handles[h]], free := st.free - {q})
    ensures Shape(p, st') && SlotsOk(p, a, st', j)
  {
    SlotsFrame(p, a, st, st', j, BufferOf(st, j).value);
  }

  lemma RunningShape(p: Program, a: nat, st: Rank, j: nat, h: nat, k: nat, extra: set<nat>)
    requires Running(p, a, st, j, h, k, extra)
    ensures Member(p, a) && Shape(p, st) && j < 2 * p.n && st.round < |p.rounds|
    ensures BufferOf(st, j).Some? && BufferOf(st, j).value in st.staging
  {
  }

  /** A message matched and written to the staging buffer of the running handler. */
  lemma MatchKeeps(p: Program, a: nat, st: Rank, j: nat, h: nat, k: nat, extra: set<nat>, c: seq<Elem>)
    requires Running(p, a, st, j, h, k, extra) && j >= p.n
    requires k + 1 < |SlotWire(p, a, j, st.round)|
    ensures Running(p, a, st.(taken := st.taken[j - p.n := st.taken[j - p.n] + 1],
                              staging := st.staging[BufferOf(st, j).value := c]), j, h, k + 1, extra)
  {
    hide Core, SlotsOk;
    RunningShape(p, a, st, j, h, k, extra);
    var st' := st.(taken := st.taken[j - p.n := st.taken[j - p.n] + 1],
                   staging := st.staging[BufferOf(st, j).value := c]);
    MatchSlots(p, a, st, st', j, extra);
    assert Passed(p, a, st', j, k + 2);
  }

  lemma MatchSlots(p: Program, a: nat, st: Rank, st': Rank, j: nat, extra: set<nat>)
    requires Core(p, a, st, extra) && SlotsOk(p, a, st, j) && j in st.xfers && BufferOf(st, j).Some? && j >= p.n
    requires st' == st.(taken := st.taken[j - p.n := st.taken[j - p.n] + 1], staging := st'.staging)
    requires st'.staging.Keys == st.staging.Keys
    requires forall b :: b in st.staging && b != BufferOf(st, j).value ==> st'.staging[b] == st.staging[b]
    ensures Core(p, a, st', extra) && Shape(p, st') && SlotsOk(p, a, st', j)
  {
    CoreFrame(p, a, st, st', extra);
    SlotsFrame(p, a, st, st', j, BufferOf(st, j).value);
  }

  /** The handler passes its handle on to a request whose batch arrives in the posting call. */
  lemma EarlyKeeps(p: Program, a: nat, st: Rank, j: nat, h: nat, k: nat, extra: set<nat>, q: nat, inbox: seq<Message>)
    requires Running(p, a, st, j, h, k, extra) && j >= p.n && st.handles[h].ibatch == k
    requires Holds(st.xfers[j], Expected(p, a, j, st.round).value, k) && st.xfers[j].dst.Some?
    requires k + 1 < |SlotWire(p, a, j, st.round)| && st.xfers[j].per * k < |Expected(p, a, j, st.round).value|
    requires Allocatable(st, q) && RecvReady(st, h)
    requires q in st.free ==> q in st.handles && st.handles[q].orig == Null
    requires inbox != [] && inbox[0] == Batch(Piece(Expected(p, a, j, st.round).value, st.xfers[j].per, k))
    ensures var x := st.xfers[j];
            var (st', called) := PostNext(st, h, q, BatchLength(x.count, x.per, k), true, inbox);
            && called && st'.xfers == st.xfers && q in st'.handles && st'.handles[q].ibatch == k + 1 && st'.round == st.round
            && Running(p, a, st', j, q, k + 1, extra + {q})
            && Unloadable(st', x, BufferOf(st', j).value, Expected(p, a, j, st.round).value, k + 1)
  {
    hide Core, SlotsOk, Stream, Batches, Valid;
    RunningShape(p, a, st, j, h, k, extra);
    var x, b := st.xfers[j], BufferOf(st, j).value;
    var d := Expected(p, a, j, st.round).value;
    var len := BatchLength(x.count, x.per, k);
    var piece := Piece(d, x.per, k);
    var st1 := st.(handles := st.handles[h := st.handles[h].(ibatch := k + 1)]);
    var st2 := st1.(handles := st1.handles[q := st1.handles[h]], free := st1.free - {q});
    var st3 := st2.(taken := st2.taken[j - p.n := st2.taken[j - p.n] + 1],
                    staging := st2.staging[b := Put(st2.staging[b], piece)]);
    NumberKeeps(p, a, st, j, h, k, extra);
    ExtraKeeps(p, a, st1, st2, j, h, k, extra, q);
    assert BufferOf(st2, j) == Some(b);
    MatchKeeps(p, a, st2, j, q, k, extra + {q}, Put(st2.staging[b], piece));
    PutStages(st2, b, d, x.per, k);
    EarlyIs(p, a, st, j, h, k, q, inbox, piece);
  }

  lemma EarlyIs(p: Program, a: nat, st: Rank, j: nat, h: nat, k: nat, q: nat, inbox: seq<Message>, piece: seq<Elem>)
    requires Shape(p, st) && RecvReady(st, h) && Allocatable(st, q) && j >= p.n
    requires st.handles[h].slot == j && st.handles[h].ibatch == k
    requires q in st.free ==> q in st.handles && st.handles[q].orig == Null
    requires inbox != [] && inbox[0] == Batch(piece)
    requires |piece| == BatchLength(st.xfers[j].count, st.xfers[j].per, k)
    ensures var b := st.handles[h].buffer.value;
            PostNext(st, h, q, |piece|, true, inbox) ==
            (var next := st.handles[h].(ibatch := k + 1);
             (st.(handles := st.handles[h := next][q := next], free := st.free - {q},
                  taken := st.taken[j - p.n := st.taken[j - p.n] + 1],
                  staging := st.staging[b := Put(st.staging[b], piece)]), true))
  {
    var x := st.xfers[j];
    assert WithOp(x, Idle) == x;
    assert st.xfers[j := WithOp(x, Idle)] == st.xfers;
    assert Take(piece, |piece|) == piece;
    var next := st.handles[h].(ibatch := k + 1);
    var (st', called) := PostNext(st, h, q, |piece|, true, inbox);
    assert called && st'.xfers == st.xfers && st'.free == st.free - {q};
    assert st'.handles == st.handles[h := next][q := next];
  }

  // ---------- the handler ----------

  /** `inbox` continues the wire of slot `j` after message `k`. */
  ghost predicate Continues(p: Program, a: nat, j: nat, r: nat, k: nat, inbox: seq<Message>)
    requires Member(p, a) && j < 2 * p.n && r < |p.rounds|
  {
    var w := SlotWire(p, a, j, r);
    forall i :: 0 <= i < |inbox| && k + i < |w| ==> inbox[i] == w[k + i]
  }

  lemma ContinuesTail(p: Program, a: nat, j: nat, r: nat, k: nat, inbox: seq<Message>)
    requires Member(p, a) && j < 2 * p.n && r < |p.rounds|
    requires Continues(p, a, j, r, k, inbox) && inbox != []
    ensures Continues(p, a, j, r, k + 1, inbox[1..])
  {
    var w := SlotWire(p, a, j, r);
    forall i | 0 <= i < |inbox[1..]| && k + 1 + i < |w| ensures inbox[1..][i] == w[k + 1 + i] {
      assert inbox[i + 1] == w[k + (i + 1)];
    }
  }

  /** The facts the handler's branches rest on. */
  lemma RunningWire(p: Program, a: nat, st: Rank, j: nat, h: nat, k: nat, extra: set<nat>)
    requires Running(p, a, st, j, h, k, extra)
    ensures var d := Expected(p, a, j, st.round).value;
            var w := SlotWire(p, a, j, st.round);
            && st.xfers[j].per > 0
            && (st.xfers[j].per * k < |d| <==> k + 1 < |w|)
            && (k + 1 < |w| ==> w[k + 1] == Batch(Piece(d, st.xfers[j].per, k)))
            && k + 1 <= |w|
    ensures h == st.xfers[j].user <==> st.handles[h].orig == Handle(h)
    ensures h != st.xfers[j].user ==> h in extra
    ensures h == st.xfers[j].user ==> h !in extra
  {
    hide Core, SlotsOk;
    RunningShape(p, a, st, j, h, k, extra);
    NextMessage(Expected(p, a, j, st.round).value, p.rounds[st.round].per, k);
  }

  /** The last call of a receive: nothing is left to post. */
  lemma LastKeeps(p: Program, a: nat, st: Rank, j: nat, h: nat, k: nat, extra: set<nat>)
    requires Running(p, a, st, j, h, k, extra) && j >= p.n
    requires Holds(st.xfers[j], Expected(p, a, j, st.round).value, k)
    requires st.xfers[j].per * k >= |Expected(p, a, j, st.round).value|
    ensures var u := st.xfers[j].user;
            var st' := st.(handles := st.handles[u := st.handles[u].(completed := true)]);
            && Core(p, a, st', extra) && SlotsOk(p, a, st', 2 * p.n)
            && Live(st', h) && st'.handles[h].orig == st.handles[h].orig
  {
    hide Core, SlotsOk;
    RunningShape(p, a, st, j, h, k, extra);
    RunningWire(p, a, st, j, h, k, extra);
    var d := Expected(p, a, j, st.round).value;
    assert d[..Min(st.xfers[j].per * k, |d|)] == d;
    CompleteKeeps(p, a, st, j, h, k, extra);
  }

  lemma {:induction false} RecvHandlerKeeps(p: Program, a: nat, st: Rank, j: nat, h: nat, k: nat, extra: set<nat>,
                                            inbox: seq<Message>, plan: seq<nat>)
    requires Running(p, a, st, j, h, k, extra) && j >= p.n && st.handles[h].ibatch == k
    requires Unloadable(st, st.xfers[j], BufferOf(st, j).value, Expected(p, a, j, st.round).value, k)
    requires PlanReady(st, plan, inbox)
    requires Continues(p, a, j, st.round, k + 1, inbox)
    ensures RecvReady(st, h)
    ensures var st' := RecvHandler(st, h, inbox, plan);
            Core(p, a, st', extra - {h}) && SlotsOk(p, a, st', 2 * p.n)
    decreases |plan|
  {
    hide Core, SlotsOk;
    RunningShape(p, a, st, j, h, k, extra);
    RunningReceives(p, a, st, j, h, k, extra);
    RunningWire(p, a, st, j, h, k, extra);
    var d := Expected(p, a, j, st.round).value;
    UnloadedHolds(st, st.xfers[j], BufferOf(st, j).value, d, k);
    var st1 := Unload(st, h);
    var x := st1.xfers[j];
    BufferKeeps(p, a, st, j, h, k, extra, x);
    UnloadReady(st, h);
    if x.per * k < |d| {
      HandlerTail(p, a, st, st1, j, h, k, extra, inbox, plan);
    } else {
      LastKeeps(p, a, st1, j, h, k, extra);
      var u := x.user;
      FinishRecv(p, a, st1.(handles := st1.handles[u := st1.handles[u].(completed := true)]), h, extra);
    }
  }

  /** The handler's branch that posts the next receive, without the preparation. */
  lemma HandlerPosts(st: Rank, h: nat, inbox: seq<Message>, plan: seq<nat>)
    requires RecvReady(st, h) && RecvReady(Unload(st, h), h) && PlanReady(st, plan, inbox)
    requires BatchDue(Unload(st, h), h)
    ensures var st1 := Unload(st, h);
            var x := st1.xfers[st.handles[h].slot];
            var len := BatchLength(x.count, x.per, st.handles[h].ibatch);
            && st1.handles == st.handles && len >= 0 && plan != [] && Allocatable(st1, plan[0])
            && (plan[0] in st1.free ==> plan[0] in st1.handles && st1.handles[plan[0]].orig == Null)
            && (|plan| > 1 ==> inbox != [])
            && var (st2, called) := PostNext(st1, h, plan[0], len, |plan| > 1, inbox);
            && called == (|plan| > 1)
            && Live(st2, h) && st2.handles[h].orig == st.handles[h].orig && st2.handles[h].slot == st.handles[h].slot
            && (called ==> && RecvReady(st2, plan[0]) && PlanReady(st2, plan[1..], inbox[1..])
                           && Live(RecvHandler(st2, plan[0], inbox[1..], plan[1..]), h)
                           && RecvHandler(st2, plan[0], inbox[1..], plan[1..]).handles[h].orig == st.handles[h].orig
                           && RecvHandler(st2, plan[0], inbox[1..], plan[1..]).handles[h].slot == st.handles[h].slot
                           && plan[0] != h)
            && RecvHandler(st, h, inbox, plan)
               == FreeIfInternal(if called then RecvHandler(st2, plan[0], inbox[1..], plan[1..]) else st2, h)
  {
    var st1 := Unload(st, h);
    var x := st1.xfers[st.handles[h].slot];
    var len := BatchLength(x.count, x.per, st.handles[h].ibatch);
    assert Allocatable(st1, plan[0]);
    PostNextReady(st1, h, inbox, plan, len);
  }

  lemma HandlerTail(p: Program, a: nat, st: Rank, st1: Rank, j: nat, h: nat, k: nat, extra: set<nat>,
                    inbox: seq<Message>, plan: seq<nat>)
    requires RecvReady(st, h) && st1 == Unload(st, h) && RecvReady(st1, h)
    requires st.handles[h].slot == j && st.handles[h].ibatch == k
    requires Running(p, a, st1, j, h, k, extra) && j >= p.n
    requires Holds(st1.xfers[j], Expected(p, a, j, st1.round).value, k) && st1.xfers[j].dst.Some?
    requires st1.xfers[j].per * k < |Expected(p, a, j, st1.round).value|
    requires PlanReady(st, plan, inbox) && BatchDue(st1, h)
    requires Continues(p, a, j, st1.round, k + 1, inbox)
    ensures var st' := RecvHandler(st, h, inbox, plan);
            Core(p, a, st', extra - {h}) && SlotsOk(p, a, st', 2 * p.n)
    decreases |plan|, 0
  {
    hide Core, SlotsOk, RecvReady, Unload, PostNext, RecvHandler, PlanReady, Stream, Batches, Valid;
    RunningShape(p, a, st1, j, h, k, extra);
    RunningWire(p, a, st1, j, h, k, extra);
    HandlerPosts(st, h, inbox, plan);
    var x, q := st1.xfers[j], plan[0];
    var len := BatchLength(x.count, x.per, k);
    var (st2, called) := PostNext(st1, h, q, len, |plan| > 1, inbox);
    if called {
      EarlyKeeps(p, a, st1, j, h, k, extra, q, inbox);
      ContinuesTail(p, a, j, st1.round, k + 1, inbox);
      RecvHandlerKeeps(p, a, st2, j, q, k + 1, extra + {q}, inbox[1..], plan[1..]);
      NotExtra(p, a, st1, extra, q);
      assert extra + {q} - {q} == extra;
      FinishRecv(p, a, RecvHandler(st2, q, inbox[1..], plan[1..]), h, extra);
    } else {
      WaitKeeps(p, a, st1, j, h, k, extra, q, inbox);
      FinishRecv(p, a, st2, h, extra);
    }
  }

  lemma NotExtra(p: Program, a: nat, st: Rank, extra: set<nat>, q: nat)
    requires Core(p, a, st, extra) && Allocatable(st, q)
    ensures q !in extra
  {
  }

  lemma FinishRecv(p: Program, a: nat, st: Rank, h: nat, extra: set<nat>)
    requires Core(p, a, st, extra) && SlotsOk(p, a, st, 2 * p.n) && Live(st, h)
    requires st.handles[h].orig == Handle(h) <==> h !in extra
    ensures Core(p, a, FreeIfInternal(st, h), extra - {h})
    ensures SlotsOk(p, a, FreeIfInternal(st, h), 2 * p.n)
  {
    if h in extra {
      FreeKeeps(p, a, st, h, extra);
    } else {
      assert extra - {h} == extra;
    }
  }

  // ---------- the start of a receive ----------

  lemma RecvDeferredKeeps(p: Program, a: nat, st: Rank, st': Rank, j: nat, u: nat, x: Xfer)
    requires Due(p, a, st, j) && j >= p.n && Joined(st, st', j, u, x) && st'.taken == st.taken
    requires x.Incoming? && x.op == Posted(u, CountCell) && x.per == p.rounds[st.round].per
    requires x.dst.Some? ==> |x.dst.value| == |Expected(p, a, j, st.round).value|
    requires !st'.handles[u].custom
    ensures RankInv(p, a, st')
  {
    DueFacts(p, a, st, j);
    JoinKeeps(p, a, st, st', j, u, x);
    hide Core, SlotsOk;
    assert SlotOk(p, a, st', j) by { assert InFlight(p, a, st', j, u); }
    AllSlots(p, a, st', j);
  }

  lemma RecvEarlyKeeps(p: Program, a: nat, st: Rank, st': Rank, j: nat, u: nat, x: Xfer)
    requires Due(p, a, st, j) && j >= p.n && Joined(st, st', j, u, x)
    requires |st.taken| == p.n && st'.taken == st.taken[j - p.n := st.taken[j - p.n] + 1]
    requires x.Incoming? && x.op == Idle && x.per == p.rounds[st.round].per
    requires x.count == |Expected(p, a, j, st.round).value|
    requires x.dst.Some? ==> |x.dst.value| == |Expected(p, a, j, st.round).value|
    requires !st'.handles[u].custom
    ensures Running(p, a, st', j, u, 0, {})
    ensures Unloadable(st', x, BufferOf(st', j).value, Expected(p, a, j, st.round).value, 0)
  {
    DueFacts(p, a, st, j);
    JoinKeeps(p, a, st, st', j, u, x);
    hide Core, SlotsOk;
    assert Passed(p, a, st', j, 1);
  }

  /** The state in which a receive whose count came early runs its handler. */
  function EarlyStart(st: Rank, j: nat, dst: Option<seq<Elem>>, per: nat, u: nat, m: Message): Rank
    requires |st.out| <= j < |st.out| + |st.taken| && st.cache != [] && Allocatable(st, u)
    requires u in st.free ==> u in st.handles && st.handles[u].orig == Null
  {
    var st1 := MarkEarly(Allocate(st, u), u);
    var st2 := st1.(handles := st1.handles[u := st1.handles[u].(custom := false)]);
    Land(Enlist(st2, j, u, Incoming(u, Idle, per, 0, dst)), j, CountCell, m)
  }

  lemma StartReady(st: Rank, j: nat, dst: Option<seq<Elem>>, per: nat, u: nat, m: Message)
    requires per > 0 && |st.out| <= j < |st.out| + |st.taken| && st.cache != [] && Allocatable(st, u)
    requires u in st.free ==> u in st.handles && st.handles[u].orig == Null
    requires dst.Some? ==> m == Count(|dst.value|)
    requires st.cache[0] in st.staging
    ensures var st' := EarlyStart(st, j, dst, per, u, m);
            && RecvReady(st', u)
            && st'.free == st.free - {u} && u in st'.handles && st'.handles == st.handles[u := st'.handles[u]]
  {
  }

  lemma EarlyJoins(st: Rank, j: nat, dst: Option<seq<Elem>>, per: nat, u: nat, m: Message, n: nat)
    requires |st.out| <= j < |st.out| + |st.taken| && st.cache != [] && Allocatable(st, u)
    requires u in st.free ==> u in st.handles && st.handles[u].orig == Null && !st.handles[u].completed
    requires st.pc == j && j !in st.xfers && m == Count(n)
    ensures var st' := EarlyStart(st, j, dst, per, u, m);
            && Joined(st, st', j, u, Incoming(u, Idle, per, n, dst)) && !st'.handles[u].custom
            && st'.taken == st.taken[j - |st.out| := st.taken[j - |st.out|] + 1]
  {
    var st' := EarlyStart(st, j, dst, per, u, m);
    assert st'.xfers == st.xfers[j := Incoming(u, Idle, per, n, dst)];
    assert st'.handles == st.handles[u := st'.handles[u]];
  }

  lemma RecvWithCountKeeps(p: Program, a: nat, st: Rank, j: nat, dst: Option<seq<Elem>>, u: nat, inbox: seq<Message>, plan: seq<nat>)
    requires Due(p, a, st, j) && j >= p.n
    requires dst.Some? ==> |dst.value| == |Expected(p, a, j, st.round).value|
    requires Allocatable(st, u) && u !in plan
    requires inbox != [] && PlanReady(st, plan, inbox[1..])
    requires Continues(p, a, j, st.round, 0, inbox)
    requires |st.out| <= j < |st.out| + |st.taken| && st.cache != []
    requires u in st.free ==> u in st.handles && st.handles[u].orig == Null && !st.handles[u].completed
    ensures var st' := EarlyStart(st, j, dst, p.rounds[st.round].per, u, inbox[0]);
            RecvReady(st', u) && PlanReady(st', plan, inbox[1..]) && RankInv(p, a, RecvHandler(st', u, inbox[1..], plan))
  {
    hide Core, SlotsOk, RankInv, EarlyStart, RecvHandler, RecvReady, Stream, Batches;
    DueFacts(p, a, st, j);
    var d, per := Expected(p, a, j, st.round).value, p.rounds[st.round].per;
    assert inbox[0] == SlotWire(p, a, j, st.round)[0];
    var st' := EarlyStart(st, j, dst, per, u, inbox[0]);
    EarlyJoins(st, j, dst, per, u, inbox[0], |d|);
    RecvEarlyKeeps(p, a, st, st', j, u, Incoming(u, Idle, per, |d|, dst));
    PlanKept(st, st', u, plan, inbox[1..]);
    ContinuesTail(p, a, j, st.round, 0, inbox);
    RecvHandlerKeeps(p, a, st', j, u, 0, {}, inbox[1..], plan);
    RestInv(p, a, RecvHandler(st', u, inbox[1..], plan), u);
  }

  /** `recv_helper` never finds the pool empty and keeps the invariant, whether the count arrives in
      the posting call or later, and however many batches arrive with it. */
  lemma RecvKeeps(p: Program, a: nat, st: Rank, j: nat, dst: Option<seq<Elem>>, u: nat, inbox: seq<Message>, plan: seq<nat>)
    requires Due(p, a, st, j) && j >= p.n
    requires dst.Some? ==> |dst.value| == |Expected(p, a, j, st.round).value|
    requires Allocatable(st, u) && u !in plan
    requires plan != [] ==> inbox != [] && PlanReady(st, plan, inbox[1..])
    requires Continues(p, a, j, st.round, 0, inbox)
    ensures p.rounds[st.round].per > 0 && |st.out| <= j < |st.out| + |st.taken| && j !in st.xfers
    ensures u in st.free ==> u in st.handles && st.handles[u].orig == Null
    ensures var r := Recv(st, j, dst, p.rounds[st.round].per, u, inbox, plan);
            r.Some? && RankInv(p, a, r.value)
  {
    DueFacts(p, a, st, j);
    hide Core, SlotsOk, RankInv, RecvReady, RecvHandler, PlanReady, EarlyStart, Recv;
    if plan == [] {
      RecvWithoutCountKeeps(p, a, st, j, dst, u, inbox);
    } else {
      RecvWithCountKeeps(p, a, st, j, dst, u, inbox, plan);
      RecvIs(st, j, dst, p.rounds[st.round].per, u, inbox, plan);
    }
  }

  lemma RecvWithoutCountKeeps(p: Program, a: nat, st: Rank, j: nat, dst: Option<seq<Elem>>, u: nat, inbox: seq<Message>)
    requires Due(p, a, st, j) && j >= p.n
    requires dst.Some? ==> |dst.value| == |Expected(p, a, j, st.round).value|
    requires Allocatable(st, u)
    requires |st.out| <= j < |st.out| + |st.taken| && st.cache != [] && j !in st.xfers && p.rounds[st.round].per > 0
    requires u in st.free ==> u in st.handles && Clean(st.handles[u])
    ensures var r := Recv(st, j, dst, p.rounds[st.round].per, u, inbox, []);
            r.Some? && RankInv(p, a, r.value)
  {
    hide Core, SlotsOk, RankInv, Due;
    DuePc(p, a, st, j);
    var st1 := Allocate(st, u);
    var x := Incoming(u, Posted(u, CountCell), p.rounds[st.round].per, 0, dst);
    var st4 := Enlist(st1.(handles := st1.handles[u := st1.handles[u].(custom := false)]), j, u, x);
    RecvDeferredKeeps(p, a, st, st4, j, u, x);
  }

  lemma DuePc(p: Program, a: nat, st: Rank, j: nat)
    requires Due(p, a, st, j)
    ensures st.pc == j && st.round < |p.rounds|
  {
  }

  lemma RecvIs(st: Rank, j: nat, dst: Option<seq<Elem>>, per: nat, u: nat, inbox: seq<Message>, plan: seq<nat>)
    requires per > 0 && |st.out| <= j < |st.out| + |st.taken| && j !in st.xfers
    requires Allocatable(st, u) && u !in plan && st.cache != []
    requires u in st.free ==> u in st.handles && st.handles[u].orig == Null
    requires plan != [] && inbox != [] && PlanReady(st, plan, inbox[1..])
    requires RecvReady(EarlyStart(st, j, dst, per, u, inbox[0]), u)
    requires PlanReady(EarlyStart(st, j, dst, per, u, inbox[0]), plan, inbox[1..])
    ensures Recv(st, j, dst, per, u, inbox, plan)
         == Some(RecvHandler(EarlyStart(st, j, dst, per, u, inbox[0]), u, inbox[1..], plan))
  {
    hide RecvReady, RecvHandler, PlanReady;
  }

  lemma RestInv(p: Program, a: nat, st: Rank, u: nat)
    requires Core(p, a, st, {} - {u}) && SlotsOk(p, a, st, 2 * p.n)
    ensures RankInv(p, a, st)
  {
    assert {} - {u} == {};
  }

  lemma PlanKept(st: Rank, st': Rank, u: nat, plan: seq<nat>, inbox: seq<Message>)
    requires PlanReady(st, plan, inbox) && u !in plan
    requires st'.free == st.free - {u} && u in st'.handles && st'.handles == st.handles[u := st'.handles[u]]
    ensures PlanReady(st', plan, inbox)
  {
    forall i | 0 <= i < |plan| ensures Allocatable(st', plan[i]) {
      assert Allocatable(st, plan[i]) && plan[i] in plan;
    }
  }

  // ---------- events between the calls ----------

  /** An operation moves on within UCX. */
  lemma OpMoves(p: Program, a: nat, st: Rank, st': Rank, j: nat)
    requires Core(p, a, st, {}) && SlotsOk(p, a, st, j)
    requires j < 2 * p.n && Frame(p, a, st, j) && j in st'.xfers
    requires st' == st.(xfers := st.xfers[j := st'.xfers[j]], out := st'.out, taken := st'.taken, staging := st'.staging)
    requires st'.xfers[j].user == st.xfers[j].user && RequestOf(st'.xfers[j]) == RequestOf(st.xfers[j])
    requires |st'.out| == |st.out| && |st'.taken| == |st.taken| && st'.staging.Keys == st.staging.Keys
    requires forall b :: b in st.staging && b != BufferOf(st, j).value ==> st'.staging[b] == st.staging[b]
    requires forall i :: 0 <= i < |st.out| && i != j ==> st'.out[i] == st.out[i]
    requires forall s :: 0 <= s < |st.taken| && |st.out| + s != j ==> st'.taken[s] == st.taken[s]
    ensures Core(p, a, st', {}) && SlotsOk(p, a, st', j)
  {
    hide HandlesOk, BuffersOk, GotOk, SlotsOk, Stream;
    MovedSlots(p, a, st, st', j);
    var st1 := st.(xfers := st'.xfers);
    BufferCore(p, a, st, st1, j, {});
    CoreFrame(p, a, st1, st', {});
  }

  lemma MovedSlots(p: Program, a: nat, st: Rank, st': Rank, j: nat)
    requires Core(p, a, st, {}) && SlotsOk(p, a, st, j)
    requires j < 2 * p.n && Frame(p, a, st, j) && Shape(p, st')
    requires Agree(st, st', j, BufferOf(st, j).value)
    ensures SlotsOk(p, a, st', j)
  {
    SlotsFrame(p, a, st, st', j, BufferOf(st, j).value);
  }

  ghost predicate Waiting(p: Program, a: nat, st: Rank, j: nat, q: nat, place: Place) {
    RankInv(p, a, st) && j in st.xfers && st.xfers[j].op == Posted(q, place)
  }

  lemma WaitingFacts(p: Program, a: nat, st: Rank, j: nat, q: nat, place: Place)
    requires Waiting(p, a, st, j, q, place)
    ensures j < 2 * p.n && Core(p, a, st, {}) && SlotsOk(p, a, st, j)
    ensures Member(p, a) && Shape(p, st) && Frame(p, a, st, j) && InFlight(p, a, st, j, q) && st.pc <= 2 * p.n
    ensures BufferOf(st, j).value in st.staging
  {
    assert SlotOk(p, a, st, j);
  }

  /** UCX reads the memory of a posted send: the message enters the channel. */
  function ReadOut(st: Rank, j: nat, q: nat, place: Place): Rank
    requires j in st.xfers && st.xfers[j].Outgoing? && j < |st.out|
    requires place.Staging? ==> place.buffer in st.staging
  {
    var m := match place
             case CountCell => Count(|st.xfers[j].data|)
             case Staging(b, len) => Batch(Take(st.staging[b], len));
    st.(out := st.out[j := st.out[j] + [m]], xfers := st.xfers[j := WithOp(st.xfers[j], Landed(q))])
  }

  lemma ReadOutKeeps(p: Program, a: nat, st: Rank, j: nat, q: nat, place: Place)
    requires Waiting(p, a, st, j, q, place) && j < p.n
    ensures st.xfers[j].Outgoing? && j < |st.out| && (place.Staging? ==> place.buffer in st.staging)
    ensures RankInv(p, a, ReadOut(st, j, q, place))
  {
    hide Core, SlotsOk, Stream;
    WaitingFacts(p, a, st, j, q, place);
    var st' := ReadOut(st, j, q, place);
    var w, k := SlotWire(p, a, j, st.round), st.handles[q].ibatch;
    OpMoves(p, a, st, st', j);
    if k > 0 {
      NextMessage(st.xfers[j].data, st.xfers[j].per, k - 1);
    }
    assert w[..k + 1] == w[..k] + [w[k]];
    assert SlotStream(p, a, j, st.round) + w[..k + 1] == st.out[j] + [w[k]];
    assert InFlight(p, a, st', j, q);
    AllSlots(p, a, st', j);
  }

  /** UCX matches a message with a posted receive. */
  function LandOp(st: Rank, j: nat, q: nat, place: Place, m: Message): Rank
    requires j in st.xfers && st.xfers[j].Incoming?
    requires |st.out| <= j < |st.out| + |st.taken|
    requires place.Staging? ==> place.buffer in st.staging
  {
    var st1 := Land(st, j, place, m);
    st1.(xfers := st1.xfers[j := WithOp(st1.xfers[j], Landed(q))])
  }

  /** The memory a message lands in is what the handler expects. */
  lemma LandedMemory(p: Program, a: nat, st: Rank, j: nat, q: nat, place: Place, m: Message)
    requires Member(p, a) && Shape(p, st) && p.n <= j < 2 * p.n && Frame(p, a, st, j) && InFlight(p, a, st, j, q)
    requires st.xfers[j].op == Posted(q, place) && BufferOf(st, j).value in st.staging
    requires m == SlotWire(p, a, j, st.round)[st.handles[q].ibatch]
    ensures place.Staging? ==> place.buffer == BufferOf(st, j).value
    ensures var st' := LandOp(st, j, q, place, m);
            Unloadable(st', st'.xfers[j], BufferOf(st, j).value, Expected(p, a, j, st.round).value, st.handles[q].ibatch)
  {
    var d, x, k := Expected(p, a, j, st.round).value, st.xfers[j], st.handles[q].ibatch;
    if k > 0 {
      NextMessage(d, x.per, k - 1);
      PutStages(st, BufferOf(st, j).value, d, x.per, k - 1);
      assert Take(Piece(d, x.per, k - 1), BatchLength(|d|, x.per, k - 1)) == Piece(d, x.per, k - 1);
    }
  }

  lemma LandKeeps(p: Program, a: nat, st: Rank, j: nat, q: nat, place: Place, m: Message)
    requires Waiting(p, a, st, j, q, place) && j >= p.n
    requires st.round < |p.rounds| && q in st.handles && st.handles[q].ibatch < |SlotWire(p, a, j, st.round)|
    requires m == SlotWire(p, a, j, st.round)[st.handles[q].ibatch]
    ensures st.xfers[j].Incoming? && |st.out| <= j < |st.out| + |st.taken|
    ensures place.Staging? ==> place.buffer in st.staging
    ensures RankInv(p, a, LandOp(st, j, q, place, m))
  {
    hide Core, SlotsOk, Unloadable, Stream, Valid;
    WaitingFacts(p, a, st, j, q, place);
    LandedMemory(p, a, st, j, q, place, m);
    var st' := LandOp(st, j, q, place, m);
    OpMoves(p, a, st, st', j);
    assert InFlight(p, a, st', j, q);
    AllSlots(p, a, st', j);
  }
}
