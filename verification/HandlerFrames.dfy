/** What one step inside a callback does to the invariant of the rank: the building blocks of the
    proofs about `send_handler` and `recv_handler`. */
module HandlerFrames {
  import opened Wire
  import opened Endpoint
  import opened Rounds
  import opened RankInvariant

  /** Whatever other slots depend on is the same in both states; slot `j` may use buffer `b`, and
      the program counter may pass `j`. */
  ghost predicate Agree(st: Rank, st': Rank, j: nat, b: nat) {
    && st'.round == st.round
    && (st'.pc == st.pc
        || (st.pc == j < 2 * |st.out| && st'.pc == j + 1)
        || (st.pc == 2 * |st.out| + j && st'.pc == st.pc + 1
            && forall i :: i in st.xfers && i != j ==> st.xfers[i].op == Idle))
    && |st'.out| == |st.out| && |st'.taken| == |st.taken|
    && (forall i :: i != j ==> (i in st.xfers <==> i in st'.xfers))
    && (forall i :: i in st.xfers && i != j ==> st'.xfers[i] == st.xfers[i])
    && (forall g :: Live(st, g) && st.handles[g].slot != j ==> Live(st', g) && st'.handles[g] == st.handles[g])
    && st'.staging.Keys == st.staging.Keys
    && (forall c :: c in st.staging && c != b ==> st'.staging[c] == st.staging[c])
    && (forall i :: 0 <= i < |st.out| && i != j ==> st'.out[i] == st.out[i])
    && (forall s :: 0 <= s < |st.taken| && |st.out| + s != j ==> st'.taken[s] == st.taken[s])
  }

  lemma RestFrame(p: Program, a: nat, st: Rank, st': Rank, j: nat, b: nat, i: nat)
    requires Member(p, a) && Shape(p, st) && i < 2 * p.n && i != j && j < 2 * p.n && Shape(p, st')
    requires i !in st.xfers && AtRest(p, a, st, i)
    requires Agree(st, st', j, b)
    ensures AtRest(p, a, st', i)
  {
    assert st.round < |p.rounds| && Enlisted(p, st', i) ==> Enlisted(p, st, i);
  }

  lemma UserFrame(p: Program, a: nat, st: Rank, st': Rank, j: nat, b: nat, i: nat)
    requires Member(p, a) && Shape(p, st) && i < 2 * p.n && i != j && j < 2 * p.n && Shape(p, st')
    requires Frame(p, a, st, i)
    requires Agree(st, st', j, b)
    ensures Frame(p, a, st', i)
    ensures BufferOf(st', i) == BufferOf(st, i) && st'.xfers[i] == st.xfers[i]
    ensures st'.handles[st'.xfers[i].user] == st.handles[st.xfers[i].user]
  {
    assert Carries(st, i, st.xfers[i].user);
  }

  lemma SlotFrame(p: Program, a: nat, st: Rank, st': Rank, j: nat, b: nat, i: nat)
    requires Member(p, a) && Shape(p, st) && i < 2 * p.n && i != j && j < 2 * p.n && Shape(p, st')
    requires SlotOk(p, a, st, i)
    requires Agree(st, st', j, b)
    requires i in st.xfers ==> BufferOf(st, i) != Some(b)
    ensures SlotOk(p, a, st', i)
  {
    hide Stream, WireOf, Valid;
    if i in st.xfers {
      UserFrame(p, a, st, st', j, b, i);
      if Finished(p, a, st, i) {
        assert Finished(p, a, st', i);
      } else {
        assert InFlight(p, a, st', i, RequestOf(st.xfers[i]));
      }
    } else {
      RestFrame(p, a, st, st', j, b, i);
    }
  }

  lemma SlotsFrame(p: Program, a: nat, st: Rank, st': Rank, j: nat, b: nat)
    requires Member(p, a) && Shape(p, st) && SlotsOk(p, a, st, j)
    requires j < 2 * p.n && Agree(st, st', j, b) && Shape(p, st')
    requires forall i :: i in st.xfers && i != j ==> BufferOf(st, i) != Some(b)
    ensures SlotsOk(p, a, st', j)
  {
    forall i | 0 <= i < 2 * p.n && i != j ensures SlotOk(p, a, st', i) {
      SlotFrame(p, a, st, st', j, b, i);
    }
  }

  /** Staging and channels play no part in who owns what. */
  lemma CoreFrame(p: Program, a: nat, st: Rank, st': Rank, extra: set<nat>)
    requires Core(p, a, st, extra)
    requires st' == st.(staging := st'.staging, out := st'.out, taken := st'.taken)
    requires st'.staging.Keys == st.staging.Keys && |st'.out| == |st.out| && |st'.taken| == |st.taken|
    ensures Core(p, a, st', extra)
  {
    assert forall h :: Live(st', h) <==> Live(st, h);
    assert forall h :: h in st.handles ==> Owns(st', h) == Owns(st, h);
    assert forall j :: j in st.xfers ==> BufferOf(st', j) == BufferOf(st, j);
  }

  lemma StageKeeps(p: Program, a: nat, st: Rank, j: nat, h: nat, k: nat, extra: set<nat>, c: seq<Elem>)
    requires Running(p, a, st, j, h, k, extra)
    ensures Running(p, a, st.(staging := st.staging[BufferOf(st, j).value := c]), j, h, k, extra)
  {
    hide Stream, WireOf, Valid, HandlesOk, GotOk;
    var st' := st.(staging := st.staging[BufferOf(st, j).value := c]);
    CoreFrame(p, a, st, st', extra);
    SlotsFrame(p, a, st, st', j, BufferOf(st, j).value);
  }

  lemma BuffersFrame(p: Program, st: Rank, st': Rank)
    requires BuffersOk(p, st)
    requires st'.cache == st.cache && st'.xfers.Keys == st.xfers.Keys && st'.pc == st.pc
    requires st'.staging.Keys == st.staging.Keys
    requires forall i :: i in st.xfers ==> BufferOf(st', i) == BufferOf(st, i)
    ensures BuffersOk(p, st')
  {
    assert |st'.xfers| == |st'.xfers.Keys| == |st.xfers.Keys| == |st.xfers|;
  }

  lemma UsersCarry(p: Program, a: nat, st: Rank, j: nat, extra: set<nat>)
    requires Core(p, a, st, extra) && SlotsOk(p, a, st, j)
    requires j < 2 * p.n ==> Frame(p, a, st, j)
    ensures forall i :: i in st.xfers ==> Carries(st, i, st.xfers[i].user)
  {
    forall i | i in st.xfers ensures Carries(st, i, st.xfers[i].user) {
      assert i == j || SlotOk(p, a, st, i);
    }
  }

  /** Marking the user's handle completed ends the handler. */
  lemma CompleteKeeps(p: Program, a: nat, st: Rank, j: nat, h: nat, k: nat, extra: set<nat>)
    requires Running(p, a, st, j, h, k, extra)
    requires k + 1 == |SlotWire(p, a, j, st.round)|
    requires j >= p.n ==> Contents(st.xfers[j].dst) == Expected(p, a, j, st.round).value
    ensures var u := st.xfers[j].user;
            var st' := st.(handles := st.handles[u := st.handles[u].(completed := true)]);
            Core(p, a, st', extra) && SlotsOk(p, a, st', 2 * p.n)
  {
    CompleteCore(p, a, st, st.xfers[j].user, extra);
    CompleteSlots(p, a, st, j, h, k, extra);
  }

  lemma CompleteCore(p: Program, a: nat, st: Rank, u: nat, extra: set<nat>)
    requires Core(p, a, st, extra) && Live(st, u)
    ensures Core(p, a, st.(handles := st.handles[u := st.handles[u].(completed := true)]), extra)
  {
    hide Stream, HandlesOk;
    var st' := st.(handles := st.handles[u := st.handles[u].(completed := true)]);
    assert forall i :: i in st.xfers ==> BufferOf(st', i) == BufferOf(st, i);
    BuffersFrame(p, st, st');
    CompleteHandles(st, u, extra);
  }

  lemma CompleteSlots(p: Program, a: nat, st: Rank, j: nat, h: nat, k: nat, extra: set<nat>)
    requires Running(p, a, st, j, h, k, extra)
    requires k + 1 == |SlotWire(p, a, j, st.round)|
    requires j >= p.n ==> Contents(st.xfers[j].dst) == Expected(p, a, j, st.round).value
    ensures var u := st.xfers[j].user;
            var st' := st.(handles := st.handles[u := st.handles[u].(completed := true)]);
            Shape(p, st') && SlotsOk(p, a, st', 2 * p.n)
  {
    hide Stream, WireOf, Valid, HandlesOk, GotOk;
    var u := st.xfers[j].user;
    var st' := st.(handles := st.handles[u := st.handles[u].(completed := true)]);
    SlotsFrame(p, a, st, st', j, BufferOf(st, j).value);
    assert Finished(p, a, st', j);
  }

  lemma CompleteHandles(st: Rank, u: nat, extra: set<nat>)
    requires HandlesOk(st, extra) && Live(st, u)
    ensures HandlesOk(st.(handles := st.handles[u := st.handles[u].(completed := true)]), extra)
  {
    var st' := st.(handles := st.handles[u := st.handles[u].(completed := true)]);
    assert forall g :: g in st.handles ==> Owns(st', g) == Owns(st, g);
  }

  /** The state after request `q` took over transfer `j` with `info`. */
  ghost predicate TookOver(st: Rank, st': Rank, j: nat, q: nat, place: Place, info: Info)
    requires j in st.xfers
  {
    && st'.handles == st.handles[q := info]
    && st'.free == st.free - {q}
    && st'.xfers == st.xfers[j := WithOp(st.xfers[j], Posted(q, place))]
    && st' == st.(handles := st'.handles, free := st'.free, xfers := st'.xfers)
  }

  lemma TakeOverHandles(st: Rank, st': Rank, j: nat, q: nat, place: Place, info: Info, extra: set<nat>)
    requires HandlesOk(st, extra) && Allocatable(st, q)
    requires j in st.xfers && st.xfers[j].op == Idle && info.slot == j
    requires TookOver(st, st', j, q, place, info)
    ensures HandlesOk(st', extra)
  {
    assert forall g :: Live(st', g) <==> g == q || Live(st, g);
    assert q !in extra;
    forall g | Live(st, g) ensures Owns(st', g) == Owns(st, g) {
      assert g != q && st'.handles[g] == st.handles[g];
    }
  }

  lemma TakeOverAgrees(p: Program, a: nat, st: Rank, st': Rank, j: nat, q: nat, place: Place, info: Info)
    requires Allocatable(st, q) && j in st.xfers && BufferOf(st, j).Some?
    requires TookOver(st, st', j, q, place, info)
    requires forall i :: i in st.xfers ==> Carries(st, i, st.xfers[i].user)
    ensures Agree(st, st', j, BufferOf(st, j).value)
    ensures forall i :: i in st.xfers ==> BufferOf(st', i) == BufferOf(st, i)
  {
    forall i | i in st.xfers ensures BufferOf(st', i) == BufferOf(st, i) {
      assert Carries(st, i, st.xfers[i].user);
    }
  }

  lemma TakeOverSlots(p: Program, a: nat, st: Rank, st': Rank, j: nat, q: nat, place: Place, info: Info, extra: set<nat>)
    requires Core(p, a, st, extra) && SlotsOk(p, a, st, j) && Allocatable(st, q)
    requires j < 2 * p.n && Frame(p, a, st, j)
    requires TookOver(st, st', j, q, place, info)
    ensures Shape(p, st') && SlotsOk(p, a, st', j) && Frame(p, a, st', j)
    ensures BuffersOk(p, st') && BufferOf(st', j) == BufferOf(st, j)
  {
    hide Stream, WireOf, Valid, HandlesOk, GotOk;
    UsersCarry(p, a, st, j, extra);
    TakeOverAgrees(p, a, st, st', j, q, place, info);
    BuffersFrame(p, st, st');
    SlotsFrame(p, a, st, st', j, BufferOf(st, j).value);
  }

  /** A new request takes over the transfer with an operation on its staging buffer. */
  lemma PostKeeps(p: Program, a: nat, st: Rank, st': Rank, j: nat, h: nat, k: nat, extra: set<nat>, q: nat, info: Info)
    requires Running(p, a, st, j, h, k, extra)
    requires k + 1 < |SlotWire(p, a, j, st.round)|
    requires var d := Expected(p, a, j, st.round).value;
             var x := st.xfers[j];
             && x.per * k < |d|
             && TookOver(st, st', j, q, Staging(BufferOf(st, j).value, BatchLength(|d|, x.per, k)), info)
             && if j < p.n then Staged(st, BufferOf(st, j).value, d, x.per, k)
                else Holds(x, d, k) && x.dst.Some?
    requires Allocatable(st, q)
    requires info == st.handles[h].(ibatch := k + 1, custom := false)
    ensures Core(p, a, st', extra) && SlotsOk(p, a, st', 2 * p.n)
  {
    hide Core, SlotsOk, Stream, WireOf, InFlight;
    CoreShape(p, a, st, extra);
    var d := Expected(p, a, j, st.round).value;
    var place := Staging(BufferOf(st, j).value, BatchLength(|d|, st.xfers[j].per, k));
    TakeOverSlots(p, a, st, st', j, q, place, info, extra);
    TakeOverCore(p, a, st, st', j, q, place, info, extra);
    PostInFlight(p, a, st, st', j, h, k, extra, q, info);
    FillSlot(p, a, st', j, q);
  }

  lemma CoreShape(p: Program, a: nat, st: Rank, extra: set<nat>)
    requires Core(p, a, st, extra)
    ensures Member(p, a) && Shape(p, st)
  {
  }

  lemma TakeOverCore(p: Program, a: nat, st: Rank, st': Rank, j: nat, q: nat, place: Place, info: Info, extra: set<nat>)
    requires Core(p, a, st, extra) && Allocatable(st, q) && j in st.xfers && st.xfers[j].op == Idle && info.slot == j
    requires TookOver(st, st', j, q, place, info) && BuffersOk(p, st')
    ensures Core(p, a, st', extra)
  {
    hide Stream, HandlesOk, BuffersOk;
    TakeOverHandles(st, st', j, q, place, info, extra);
  }

  lemma PostInFlight(p: Program, a: nat, st: Rank, st': Rank, j: nat, h: nat, k: nat, extra: set<nat>, q: nat, info: Info)
    requires Running(p, a, st, j, h, k, extra) && Allocatable(st, q)
    requires k + 1 < |SlotWire(p, a, j, st.round)|
    requires var d := Expected(p, a, j, st.round).value;
             var x := st.xfers[j];
             && x.per * k < |d|
             && TookOver(st, st', j, q, Staging(BufferOf(st, j).value, BatchLength(|d|, x.per, k)), info)
             && if j < p.n then Staged(st, BufferOf(st, j).value, d, x.per, k)
                else Holds(x, d, k) && x.dst.Some?
    requires info == st.handles[h].(ibatch := k + 1, custom := false)
    requires Shape(p, st') && Frame(p, a, st', j) && BufferOf(st', j) == BufferOf(st, j)
    ensures InFlight(p, a, st', j, q)
  {
    hide Core, SlotsOk, Stream, WireOf, Valid;
    assert q !in extra && !(Live(st, q));
  }

  lemma FillSlot(p: Program, a: nat, st: Rank, j: nat, q: nat)
    requires Member(p, a) && Shape(p, st) && j < 2 * p.n && SlotsOk(p, a, st, j) && Frame(p, a, st, j)
    requires InFlight(p, a, st, j, q) && RequestOf(st.xfers[j]) == q && st.pc <= 2 * p.n
    ensures SlotsOk(p, a, st, 2 * p.n)
  {
    hide Stream, WireOf, Valid, InFlight;
  }

  /** Freeing the handle of a finished batch. */
  lemma FreeKeeps(p: Program, a: nat, st: Rank, h: nat, extra: set<nat>)
    requires Core(p, a, st, extra) && SlotsOk(p, a, st, 2 * p.n)
    requires h in extra && Live(st, h) && st.handles[h].orig != Handle(h)
    ensures Core(p, a, FreeIfInternal(st, h), extra - {h})
    ensures SlotsOk(p, a, FreeIfInternal(st, h), 2 * p.n)
  {
    var st' := FreeIfInternal(st, h);
    UsersCarry(p, a, st, 2 * p.n, extra);
    assert forall i :: i in st.xfers ==> BufferOf(st', i) == BufferOf(st, i);
    BuffersFrame(p, st, st');
    FreeHandles(st, h, extra);
    assert Core(p, a, st', extra - {h});
    forall i | 0 <= i < 2 * p.n ensures SlotOk(p, a, st', i) {
      FreeSlot(p, a, st, h, extra, i);
    }
  }

  lemma FreeHandles(st: Rank, h: nat, extra: set<nat>)
    requires HandlesOk(st, extra) && h in extra && st.handles[h].orig != Handle(h)
    ensures HandlesOk(FreeIfInternal(st, h), extra - {h})
  {
    var st' := FreeIfInternal(st, h);
    assert forall g :: Live(st', g) <==> Live(st, g) && g != h;
    assert forall g :: g in st.handles && g != h ==> Owns(st', g) == Owns(st, g);
  }

  lemma FreeSlot(p: Program, a: nat, st: Rank, h: nat, extra: set<nat>, i: nat)
    requires Core(p, a, st, extra) && i < 2 * p.n && SlotOk(p, a, st, i)
    requires h in extra && st.handles[h].orig != Handle(h)
    ensures SlotOk(p, a, FreeIfInternal(st, h), i)
  {
    hide Stream, WireOf, Valid, BuffersOk, GotOk;
    var st' := FreeIfInternal(st, h);
    if i in st.xfers {
      var x := st.xfers[i];
      assert !Owns(st, h);
      assert h != x.user && st'.handles[x.user] == st.handles[x.user];
      if InFlight(p, a, st, i, RequestOf(x)) {
        assert h != RequestOf(x);
        assert InFlight(p, a, st', i, RequestOf(x));
      } else {
        assert Finished(p, a, st', i);
      }
    }
  }

  ghost function ExtraOf(st: Rank, j: nat, h: nat): set<nat>
    requires j in st.xfers
  {
    if h == st.xfers[j].user then {} else {h}
  }

  /** When UCX calls back for request `h`, the handler starts on a transfer with no operation. */
  lemma ResumeKeeps(p: Program, a: nat, st: Rank, j: nat, h: nat)
    requires RankInv(p, a, st) && j in st.xfers && st.xfers[j].op == Landed(h)
    ensures var st' := st.(xfers := st.xfers[j := WithOp(st.xfers[j], Idle)]);
            && h in st.handles
            && Running(p, a, st', j, h, st.handles[h].ibatch, ExtraOf(st', j, h))
            && (j >= p.n ==> Unloadable(st', st'.xfers[j], BufferOf(st', j).value,
                                        Expected(p, a, j, st.round).value, st.handles[h].ibatch))
  {
    hide Core, SlotsOk;
    ResumeFacts(p, a, st, j, h);
    ResumeCore(p, a, st, j, h);
    ResumeSlots(p, a, st, j, h);
  }

  lemma ResumeFacts(p: Program, a: nat, st: Rank, j: nat, h: nat)
    requires RankInv(p, a, st) && j in st.xfers && st.xfers[j].op == Landed(h)
    ensures Live(st, h) && st.handles[h].slot == j && j < 2 * p.n && Member(p, a) && Shape(p, st)
    ensures Core(p, a, st, {}) && SlotsOk(p, a, st, j)
    ensures Frame(p, a, st, j) && InFlight(p, a, st, j, h) && st.pc <= 2 * p.n
  {
    assert SlotOk(p, a, st, j);
  }

  lemma ResumeSlots(p: Program, a: nat, st: Rank, j: nat, h: nat)
    requires Core(p, a, st, {}) && SlotsOk(p, a, st, j) && j in st.xfers && st.xfers[j].op == Landed(h)
    requires j < 2 * p.n && Frame(p, a, st, j)
    ensures Shape(p, st) && SlotsOk(p, a, st.(xfers := st.xfers[j := WithOp(st.xfers[j], Idle)]), j)
  {
    SlotsFrame(p, a, st, st.(xfers := st.xfers[j := WithOp(st.xfers[j], Idle)]), j, BufferOf(st, j).value);
  }

  lemma ResumeCore(p: Program, a: nat, st: Rank, j: nat, h: nat)
    requires Core(p, a, st, {}) && j in st.xfers && st.xfers[j].op == Landed(h)
    requires Live(st, h) && st.handles[h].slot == j
    ensures Core(p, a, st.(xfers := st.xfers[j := WithOp(st.xfers[j], Idle)]), ExtraOf(st, j, h))
  {
    hide HandlesOk, Stream, Valid;
    var st' := st.(xfers := st.xfers[j := WithOp(st.xfers[j], Idle)]);
    assert forall i :: i in st.xfers ==> BufferOf(st', i) == BufferOf(st, i);
    BuffersFrame(p, st, st');
    ResumeHandles(st, j, h, ExtraOf(st, j, h));
  }

  lemma ResumeHandles(st: Rank, j: nat, h: nat, extra: set<nat>)
    requires HandlesOk(st, {}) && j in st.xfers && st.xfers[j].op == Landed(h)
    requires Live(st, h) && st.handles[h].slot == j
    requires extra == if h == st.xfers[j].user then {} else {h}
    ensures HandlesOk(st.(xfers := st.xfers[j := WithOp(st.xfers[j], Idle)]), extra)
  {
    var st' := st.(xfers := st.xfers[j := WithOp(st.xfers[j], Idle)]);
    forall g | Live(st, g) && g !in extra ensures Owns(st', g) {
      assert Owns(st, g);
    }
  }

  /** `st'` is `st` after slot `j` took the next staging buffer under user handle `u`. */
  ghost predicate Joined(st: Rank, st': Rank, j: nat, u: nat, x: Xfer) {
    && st.cache != [] && st.pc == j && j !in st.xfers && !Live(st, u)
    && u in st'.handles
    && st'.handles == st.handles[u := st'.handles[u]]
    && st'.free == st.free - {u}
    && st'.xfers == st.xfers[j := x]
    && st'.cache == st.cache[1..]
    && st'.round == st.round && st'.pc == j + 1 && st'.staging == st.staging && st'.got == st.got
    && |st'.out| == |st.out| && |st'.taken| == |st.taken|
    && (forall i :: 0 <= i < |st.out| && i != j ==> st'.out[i] == st.out[i])
    && (forall s :: 0 <= s < |st.taken| && |st.out| + s != j ==> st'.taken[s] == st.taken[s])
    && x.user == u && RequestOf(x) == u
    && var info := st'.handles[u];
       !info.completed && info.orig == Handle(u) && info.slot == j && info.ibatch == 0
       && info.buffer == Some(st.cache[0])
  }

  /** While slots are being posted, a staging buffer is left for the next one. */
  lemma CacheLeft(p: Program, a: nat, st: Rank)
    requires Core(p, a, st, {}) && st.pc < 2 * p.n
    ensures st.cache != []
  {
  }

  lemma JoinKeeps(p: Program, a: nat, st: Rank, st': Rank, j: nat, u: nat, x: Xfer)
    requires RankInv(p, a, st) && Joined(st, st', j, u, x) && j < 2 * p.n && st.round < |p.rounds|
    ensures Core(p, a, st', {}) && SlotsOk(p, a, st', j)
    ensures Carries(st', j, u) && BufferOf(st', j).Some? && st'.pc <= 2 * p.n
  {
    JoinSlots(p, a, st, st', j, u, x);
    JoinGot(p, a, st, st', j, u, x);
    JoinUsers(p, a, st, st', j, u, x);
    hide SlotsOk, GotOk, Stream, Carries;
    JoinBuffers(p, st, st', j, u, x);
    JoinHandles(st, st', j, u, x);
  }

  lemma JoinGot(p: Program, a: nat, st: Rank, st': Rank, j: nat, u: nat, x: Xfer)
    requires Member(p, a) && Shape(p, st) && GotOk(p, a, st)
    requires Joined(st, st', j, u, x) && j < 2 * p.n && st.round < |p.rounds|
    ensures Shape(p, st') && GotOk(p, a, st')
  {
  }

  lemma JoinUsers(p: Program, a: nat, st: Rank, st': Rank, j: nat, u: nat, x: Xfer)
    requires Core(p, a, st, {}) && SlotsOk(p, a, st, 2 * p.n) && Joined(st, st', j, u, x)
    ensures forall i :: i in st.xfers ==> BufferOf(st', i) == BufferOf(st, i)
    ensures Carries(st', j, u) && BufferOf(st', j).Some?
  {
    hide Core, SlotsOk;
    UsersCarry(p, a, st, 2 * p.n, {});
    forall i | i in st.xfers ensures BufferOf(st', i) == BufferOf(st, i) {
      assert Carries(st, i, st.xfers[i].user);
    }
  }

  lemma JoinBuffers(p: Program, st: Rank, st': Rank, j: nat, u: nat, x: Xfer)
    requires BuffersOk(p, st) && Joined(st, st', j, u, x)
    requires forall i :: i in st.xfers ==> BufferOf(st', i) == BufferOf(st, i)
    ensures BuffersOk(p, st')
  {
    assert st.cache[0] !in st.cache[1..];
    assert forall b :: b in st.cache[1..] ==> b in st.cache;
    assert |st'.xfers| == |st.xfers| + 1;
    assert BufferOf(st', j) == Some(st.cache[0]) && st.cache[0] in st.cache;
    forall i | i in st'.xfers ensures BufferOf(st', i).Some? && BufferOf(st', i).value < p.buffers
                                      && BufferOf(st', i).value !in st'.cache {
      assert i == j || BufferOf(st', i) == BufferOf(st, i);
    }
  }

  lemma JoinHandles(st: Rank, st': Rank, j: nat, u: nat, x: Xfer)
    requires HandlesOk(st, {}) && Joined(st, st', j, u, x)
    ensures HandlesOk(st', {})
  {
    forall g | Live(st', g) ensures Owns(st', g) {
      assert g == u || (Live(st, g) && Owns(st, g));
    }
  }

  lemma JoinSlots(p: Program, a: nat, st: Rank, st': Rank, j: nat, u: nat, x: Xfer)
    requires RankInv(p, a, st) && Joined(st, st', j, u, x) && j < 2 * p.n && st.round < |p.rounds|
    ensures Shape(p, st') && SlotsOk(p, a, st', j)
  {
    hide Stream, WireOf, Valid, HandlesOk, GotOk;
    SlotsFrame(p, a, st, st', j, st.cache[0]);
  }
}
