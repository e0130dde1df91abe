/** `waitall` and the step to the next round keep the invariant of the rank: buffers go back to the
    cache, user handles are freed, and what was received stays. */
module WaitProofs {
  import opened Wire
  import opened Endpoint
  import opened Rounds
  import opened RankInvariant
  import opened HandlerFrames
  import opened SendProofs

  /** The loop at the end of `waitall` has come to slot `j`. */
  ghost predicate Releasing(p: Program, a: nat, st: Rank, j: nat) {
    && RankInv(p, a, st)
    && AllCompleted(st)
    && st.round < |p.rounds|
    && st.pc == 2 * p.n + j && j < 2 * p.n
  }

  lemma AllFinished(p: Program, a: nat, st: Rank, j: nat, i: nat)
    requires Releasing(p, a, st, j) && i in st.xfers
    ensures Member(p, a) && Shape(p, st) && i < 2 * p.n && Frame(p, a, st, i) && Finished(p, a, st, i)
  {
    assert SlotOk(p, a, st, i);
  }

  lemma ReleaseHandles(st: Rank, j: nat, u: nat)
    requires HandlesOk(st, {}) && j in st.xfers && st.xfers[j].user == u
    requires Live(st, u) && st.handles[u].slot == j && st.handles[u].buffer.Some? && st.xfers[j].op == Idle
    ensures HandlesOk(ReleaseSlot(st, j), {})
  {
    var st' := ReleaseSlot(st, j);
    assert forall g :: Live(st', g) <==> Live(st, g) && g != u;
    forall g | Live(st', g) ensures Owns(st', g) {
      assert Owns(st, g);
    }
  }

  lemma AppendDistinct<T>(s: seq<T>, x: T)
    requires Distinct(s) && x !in s
    ensures Distinct(s + [x])
  {
  }

  lemma OneLess<K, V>(m: map<K, V>, k: K)
    requires k in m
    ensures |m - {k}| == |m| - 1
  {
    assert m.Keys == (m - {k}).Keys + {k};
    assert |m| == |m.Keys| && |m - {k}| == |(m - {k}).Keys|;
  }

  lemma ReleaseBuffers(p: Program, st: Rank, j: nat)
    requires BuffersOk(p, st) && j in st.xfers && Live(st, st.xfers[j].user) && BufferOf(st, j).Some?
    requires forall i :: i in st.xfers && i != j ==> st.xfers[i].user != st.xfers[j].user
    ensures BuffersOk(p, ReleaseSlot(st, j))
  {
    var st', b := ReleaseSlot(st, j), BufferOf(st, j).value;
    OneLess(st.xfers, j);
    AppendDistinct(st.cache, b);
    forall i | i in st'.xfers ensures i in st.xfers && i != j && BufferOf(st', i) == BufferOf(st, i) {
    }
    assert st'.cache == st.cache + [b];
    assert forall c :: c in st'.cache ==> c in st.cache || c == b;
  }

  lemma ReleaseAgrees(st: Rank, j: nat)
    requires j in st.xfers && Live(st, st.xfers[j].user) && BufferOf(st, j).Some?
    requires st.handles[st.xfers[j].user].slot == j
    requires st.pc == 2 * |st.out| + j
    requires forall i :: i in st.xfers ==> st.xfers[i].op == Idle
    ensures Agree(st, ReleaseSlot(st, j), j, BufferOf(st, j).value)
  {
  }

  lemma ReleaseSlots(p: Program, a: nat, st: Rank, j: nat)
    requires Releasing(p, a, st, j) && j in st.xfers
    requires Live(st, st.xfers[j].user) && BufferOf(st, j).Some? && st.handles[st.xfers[j].user].slot == j
    ensures Member(p, a) && Shape(p, ReleaseSlot(st, j)) && SlotsOk(p, a, ReleaseSlot(st, j), j)
  {
    forall i | i in st.xfers ensures st.xfers[i].op == Idle {
      AllFinished(p, a, st, j, i);
    }
    hide HandlesOk, GotOk, SlotOk, Agree;
    ReleaseAgrees(st, j);
    SlotsFrame(p, a, st, ReleaseSlot(st, j), j, BufferOf(st, j).value);
  }

  lemma ReleaseRest(p: Program, a: nat, st: Rank, j: nat)
    requires Releasing(p, a, st, j) && j in st.xfers
    requires Live(st, st.xfers[j].user) && BufferOf(st, j).Some?
    ensures var st' := ReleaseSlot(st, j);
            Member(p, a) && Shape(p, st') && AtRest(p, a, st', j) && GotOk(p, a, st')
  {
    hide HandlesOk, SlotsOk, BuffersOk, GotOk, AllCompleted, Valid, Stream;
    AllFinished(p, a, st, j, j);
    StreamStep(p, Source(p, a, j), Target(p, a, j), st.round);
    var w := SlotWire(p, a, j, st.round);
    assert w[..|w|] == w;
    ReleaseGot(p, a, st, j);
  }

  lemma ReleaseGot(p: Program, a: nat, st: Rank, j: nat)
    requires Member(p, a) && Shape(p, st) && GotOk(p, a, st) && j < 2 * p.n && st.round < |p.rounds|
    requires st.pc == 2 * p.n + j && Frame(p, a, st, j) && Finished(p, a, st, j)
    ensures var st' := ReleaseSlot(st, j);
            Shape(p, st') && GotOk(p, a, st')
  {
    var st' := ReleaseSlot(st, j);
    forall r, s | 0 <= r <= st'.round && 0 <= s < p.n && r < |p.rounds|
                  && (r < st'.round || 3 * p.n + s < st'.pc) && p.rounds[r].data[s][a].Some?
      ensures (r, s) in st'.got && Contents(st'.got[(r, s)]) == p.rounds[r].data[s][a].value
    {
      if r == st.round && 3 * p.n + s == st.pc {
        assert j == p.n + s && Expected(p, a, j, r) == p.rounds[r].data[s][a];
      } else {
        assert (r, s) in st.got;
      }
    }
  }

  lemma ReleaseKeeps(p: Program, a: nat, st: Rank, j: nat)
    requires Releasing(p, a, st, j) && j in st.xfers
    ensures Live(st, st.xfers[j].user) && BufferOf(st, j).Some?
    ensures RankInv(p, a, ReleaseSlot(st, j))
  {
    AllFinished(p, a, st, j, j);
    ReleaseSlots(p, a, st, j);
    ReleaseRest(p, a, st, j);
    DistinctUsers(p, a, st, j);
    ReleaseParts(p, a, st, j);
    hide SlotsOk, SlotOk, Core, AtRest, Releasing, RankInv;
    RestSlot(p, a, ReleaseSlot(st, j), j);
    AllSlots(p, a, ReleaseSlot(st, j), j);
    Together(p, a, ReleaseSlot(st, j));
  }

  lemma RestSlot(p: Program, a: nat, st: Rank, j: nat)
    requires Member(p, a) && Shape(p, st) && j < 2 * p.n && j !in st.xfers && AtRest(p, a, st, j)
    ensures SlotOk(p, a, st, j)
  {
  }

  lemma Together(p: Program, a: nat, st: Rank)
    requires Core(p, a, st, {}) && SlotsOk(p, a, st, 2 * p.n)
    ensures RankInv(p, a, st)
  {
  }

  lemma DistinctUsers(p: Program, a: nat, st: Rank, j: nat)
    requires Releasing(p, a, st, j) && j in st.xfers
    ensures forall i :: i in st.xfers && i != j ==> st.xfers[i].user != st.xfers[j].user
  {
    UsersCarry(p, a, st, 2 * p.n, {});
  }

  lemma ReleaseParts(p: Program, a: nat, st: Rank, j: nat)
    requires Releasing(p, a, st, j) && j in st.xfers
    requires Live(st, st.xfers[j].user) && BufferOf(st, j).Some? && st.handles[st.xfers[j].user].slot == j
    requires st.xfers[j].op == Idle
    requires forall i :: i in st.xfers && i != j ==> st.xfers[i].user != st.xfers[j].user
    requires Member(p, a) && Shape(p, ReleaseSlot(st, j)) && GotOk(p, a, ReleaseSlot(st, j))
    ensures Core(p, a, ReleaseSlot(st, j), {})
  {
    hide HandlesOk, BuffersOk, GotOk, SlotsOk;
    ReleaseHandles(st, j, st.xfers[j].user);
    ReleaseBuffers(p, st, j);
  }

  // ---------- the program counter alone ----------

  /** Passing a slot that has no transfer in this round, while posting or while releasing. */
  lemma PassKeeps(p: Program, a: nat, st: Rank, j: nat)
    requires RankInv(p, a, st) && j < 2 * p.n && st.round < |p.rounds| && j !in st.xfers
    requires (st.pc == j && Expected(p, a, j, st.round).None?) || (st.pc == 2 * p.n + j && AllCompleted(st))
    ensures RankInv(p, a, st.(pc := st.pc + 1))
  {
    var st' := st.(pc := st.pc + 1);
    forall i | 0 <= i < 2 * p.n ensures SlotOk(p, a, st', i) {
      PassSlot(p, a, st, j, i);
    }
    PassCore(p, a, st, j);
  }

  lemma PassSlot(p: Program, a: nat, st: Rank, j: nat, i: nat)
    requires RankInv(p, a, st) && j < 2 * p.n && st.round < |p.rounds| && j !in st.xfers && i < 2 * p.n
    requires (st.pc == j && Expected(p, a, j, st.round).None?) || (st.pc == 2 * p.n + j && AllCompleted(st))
    ensures SlotOk(p, a, st.(pc := st.pc + 1), i)
  {
    hide RankInv, AllCompleted, Stream, Valid;
    SlotFact(p, a, st, i);
    StreamStep(p, Source(p, a, i), Target(p, a, i), st.round);
    if i in st.xfers && st.pc != j {
      AllFinished(p, a, st, j, i);
    }
  }

  lemma PassCore(p: Program, a: nat, st: Rank, j: nat)
    requires RankInv(p, a, st) && j < 2 * p.n && st.round < |p.rounds| && j !in st.xfers
    requires st.pc == j || st.pc == 2 * p.n + j
    ensures Core(p, a, st.(pc := st.pc + 1), {})
  {
    hide SlotsOk, GotOk, HandlesOk, BuffersOk;
    PassGot(p, a, st, j);
    PassOwners(p, st);
  }

  lemma PassOwners(p: Program, st: Rank)
    requires HandlesOk(st, {}) && BuffersOk(p, st)
    ensures HandlesOk(st.(pc := st.pc + 1), {}) && BuffersOk(p, st.(pc := st.pc + 1))
  {
    PassHandles(st);
    PassBuffers(p, st);
  }

  lemma PassHandles(st: Rank)
    requires HandlesOk(st, {})
    ensures HandlesOk(st.(pc := st.pc + 1), {})
  {
    assert forall h :: h in st.handles ==> Owns(st.(pc := st.pc + 1), h) == Owns(st, h);
  }

  lemma PassBuffers(p: Program, st: Rank)
    requires BuffersOk(p, st)
    ensures BuffersOk(p, st.(pc := st.pc + 1))
  {
    assert forall i :: i in st.xfers ==> BufferOf(st.(pc := st.pc + 1), i) == BufferOf(st, i);
  }

  lemma PassGot(p: Program, a: nat, st: Rank, j: nat)
    requires RankInv(p, a, st) && j < 2 * p.n && st.round < |p.rounds| && j !in st.xfers
    requires st.pc == j || st.pc == 2 * p.n + j
    ensures Member(p, a) && Shape(p, st.(pc := st.pc + 1)) && GotOk(p, a, st.(pc := st.pc + 1))
  {
    assert SlotOk(p, a, st, j);
    hide HandlesOk, BuffersOk, SlotsOk;
    var st' := st.(pc := st.pc + 1);
    assert 3 * p.n <= st.pc ==> st.pc - 3 * p.n < p.n && p.rounds[st.round].data[st.pc - 3 * p.n][a].None? by {
      assert Enlisted(p, st, j) ==> Expected(p, a, j, st.round).None?;
    }
    forall r, s | 0 <= r <= st'.round && 0 <= s < p.n && r < |p.rounds|
                  && (r < st'.round || 3 * p.n + s < st'.pc) && p.rounds[r].data[s][a].Some?
      ensures (r, s) in st'.got && Contents(st'.got[(r, s)]) == p.rounds[r].data[s][a].value
    {
      assert r < st.round || 3 * p.n + s < st.pc;
    }
  }

  lemma EnlistedOnly(p: Program, a: nat, st: Rank)
    requires RankInv(p, a, st)
    ensures forall j :: j in st.xfers ==> j < 2 * p.n && Enlisted(p, st, j)
  {
    forall j | j in st.xfers ensures j < 2 * p.n && Enlisted(p, st, j) {
      assert SlotOk(p, a, st, j);
    }
  }

  /** All slots released: the next round starts with every handle free and the cache full. */
  lemma NextRoundKeeps(p: Program, a: nat, st: Rank, memory: map<nat, seq<Elem>>)
    requires RankInv(p, a, st) && st.pc == 4 * p.n && st.round < |p.rounds| && memory.Keys == st.staging.Keys
    ensures RankInv(p, a, st.(round := st.round + 1, pc := 0, staging := memory))
    ensures st.xfers == map[] && |st.cache| == p.buffers && st.free == st.handles.Keys
  {
    hide Stream, WireOf, Valid;
    EnlistedOnly(p, a, st);
    assert forall j :: j !in st.xfers;
    assert st.xfers == map[];
    forall h | h in st.handles ensures h in st.free {
      assert Live(st, h) ==> Owns(st, h);
    }
    var st' := st.(round := st.round + 1, pc := 0, staging := memory);
    forall i | 0 <= i < 2 * p.n ensures SlotOk(p, a, st', i) {
      assert SlotOk(p, a, st, i);
    }
  }

  lemma RankShape(p: Program, a: nat, st: Rank)
    requires RankInv(p, a, st)
    ensures |st.out| == p.n
  {
  }

  lemma TurnFacts(p: Program, a: nat, st: Rank, j: nat)
    requires Releasing(p, a, st, j)
    ensures |st.out| == p.n
  {
    RankShape(p, a, st);
  }

  /** One turn of the loop that ends `waitall`. */
  lemma TurnKeeps(p: Program, a: nat, st: Rank, j: nat)
    requires Releasing(p, a, st, j)
    ensures |st.out| == p.n
    ensures j in st.xfers ==> Live(st, st.xfers[j].user) && st.handles[st.xfers[j].user].buffer.Some?
    ensures var st' := if j in st.xfers then ReleaseSlot(st, j) else st.(pc := st.pc + 1);
            RankInv(p, a, st') && AllCompleted(st') && st'.pc == st.pc + 1
  {
    hide Stream, Valid, Core, SlotsOk;
    TurnFacts(p, a, st, j);
    if j in st.xfers {
      ReleaseKeeps(p, a, st, j);
      DistinctUsers(p, a, st, j);
      hide RankInv;
      assert AllCompleted(ReleaseSlot(st, j));
    } else {
      PassKeeps(p, a, st, j);
    }
  }
}
