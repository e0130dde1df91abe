/** `send_handler` and the events of an outgoing transfer keep the invariant of the rank. */
module SendProofs {
  import opened Arith
  import opened Wire
  import opened Endpoint
  import opened Rounds
  import opened RankInvariant
  import opened HandlerFrames

  lemma SentKeeps(p: Program, a: nat, st: Rank, j: nat, h: nat, k: nat, extra: set<nat>)
    requires Running(p, a, st, j, h, k, extra) && j < p.n
    requires k + 1 < |SlotWire(p, a, j, st.round)|
    ensures Running(p, a, st.(out := st.out[j := st.out[j] + [SlotWire(p, a, j, st.round)[k + 1]]]), j, h, k + 1, extra)
  {
    hide Stream, WireOf, Valid, HandlesOk, GotOk;
    var w := SlotWire(p, a, j, st.round);
    var st' := st.(out := st.out[j := st.out[j] + [w[k + 1]]]);
    CoreFrame(p, a, st, st', extra);
    SlotsFrame(p, a, st, st', j, BufferOf(st, j).value);
    assert w[..k + 2] == w[..k + 1] + [w[k + 1]];
    assert SlotStream(p, a, j, st.round) + w[..k + 2] == st.out[j] + [w[k + 1]];
    assert Passed(p, a, st', j, k + 2);
  }

  /** A batch copied to a staging buffer is there. */
  lemma PutStages(st: Rank, b: nat, d: seq<Elem>, per: nat, k: nat)
    requires b in st.staging && per * k < |d| && per > 0
    ensures Staged(st.(staging := st.staging[b := Put(st.staging[b], Piece(d, per, k))]), b, d, per, k)
  {
    assert |Piece(d, per, k)| == BatchLength(|d|, per, k);
  }

  /** One turn of the loop, with the batch named. */
  lemma LoopTurn(st: Rank, j: nat, b: nat, k: nat, stop: nat)
    requires j in st.xfers && st.xfers[j].Outgoing? && st.xfers[j].per > 0
    requires j < |st.out| && b in st.staging
    requires st.xfers[j].per * k < |st.xfers[j].data|
    ensures var piece := Piece(st.xfers[j].data, st.xfers[j].per, k);
            var st1 := st.(staging := st.staging[b := Put(st.staging[b], piece)]);
            PostBatches(st, j, b, k, stop) ==
              if k < stop then PostBatches(st1.(out := st1.out[j := st1.out[j] + [Batch(piece)]]), j, b, k + 1, stop)
              else Progress(st1, k, true)
  {
    var x := st.xfers[j];
    var remaining := |x.data| - x.per * k;
    var len := if remaining < x.per then remaining else x.per;
    var piece := Piece(x.data, x.per, k);
    assert piece == x.data[x.per * k..x.per * k + len];
    assert Put(st.staging[b], piece)[..len] == piece;
  }

  lemma LoopEnd(st: Rank, j: nat, b: nat, k: nat, stop: nat)
    requires j in st.xfers && st.xfers[j].Outgoing? && st.xfers[j].per > 0
    requires j < |st.out| && b in st.staging
    requires st.xfers[j].per * k >= |st.xfers[j].data|
    ensures PostBatches(st, j, b, k, stop) == Progress(st, k, false)
  {
  }

  /** What the loop of a running handler leaves behind. */
  ghost predicate LoopLeft(p: Program, a: nat, st: Rank, j: nat, h: nat, extra: set<nat>, g: Progress) {
    && j < p.n
    && Running(p, a, g.st, j, h, g.ibatch, extra)
    && g.st == st.(staging := g.st.staging, out := g.st.out)
    && if g.inFlight then Staged(g.st, BufferOf(g.st, j).value, g.st.xfers[j].data, g.st.xfers[j].per, g.ibatch)
       else g.ibatch + 1 == |SlotWire(p, a, j, g.st.round)|
  }

  lemma {:induction false} LoopKeeps(p: Program, a: nat, st: Rank, j: nat, h: nat, k: nat, extra: set<nat>, stop: nat)
    requires Running(p, a, st, j, h, k, extra) && j < p.n
    ensures LoopLeft(p, a, st, j, h, extra, PostBatches(st, j, BufferOf(st, j).value, k, stop))
    decreases |st.xfers[j].data| - st.xfers[j].per * k
  {
    hide Core, SlotsOk, PostBatches, Put, Stream, Batches, Staged;
    CoreShape(p, a, st, extra);
    RunningReady(p, a, st, j, h, k, extra);
    var x, b := st.xfers[j], BufferOf(st, j).value;
    NextMessage(x.data, x.per, k);
    if x.per * k >= |x.data| { LoopEnd(st, j, b, k, stop); }
    if x.per * k < |x.data| {
      var c := Put(st.staging[b], Piece(x.data, x.per, k));
      var st1 := st.(staging := st.staging[b := c]);
      LoopTurn(st, j, b, k, stop);
      StageKeeps(p, a, st, j, h, k, extra, c);
      PutStages(st, b, x.data, x.per, k);
      if k < stop {
        SentKeeps(p, a, st1, j, h, k, extra);
        MulNext(x.per, k);
        LoopKeeps(p, a, st1.(out := st1.out[j := st1.out[j] + [SlotWire(p, a, j, st.round)[k + 1]]]),
                  j, h, k + 1, extra, stop);
      }
    }
  }

  lemma RunningReady(p: Program, a: nat, st: Rank, j: nat, h: nat, k: nat, extra: set<nat>)
    requires Running(p, a, st, j, h, k, extra)
    ensures HandlerReady(st, h) && st.handles[h].slot == j && (j < p.n ==> SendReady(st, h))
    ensures j < 2 * p.n && |st.out| == p.n && BufferOf(st, j).Some? && BufferOf(st, j).value in st.staging
    ensures st.handles[h].buffer == BufferOf(st, j) && st.handles[h].orig == Handle(st.xfers[j].user)
  {
  }

  /** The branch that leaves a batch in flight. */
  lemma DeferKeeps(p: Program, a: nat, st: Rank, j: nat, h: nat, k: nat, extra: set<nat>, q: nat)
    requires Running(p, a, st, j, h, k, extra) && j < p.n && Allocatable(st, q)
    requires Staged(st, BufferOf(st, j).value, st.xfers[j].data, st.xfers[j].per, k)
    ensures var x := st.xfers[j];
            var place := Staging(BufferOf(st, j).value, BatchLength(|x.data|, x.per, k));
            var st2 := Allocate(st.(xfers := st.xfers[j := WithOp(x, Posted(q, place))]), q);
            var st1 := st2.(handles := st2.handles[q := st.handles[h].(ibatch := k + 1, custom := false)]);
            && Core(p, a, st1, extra) && SlotsOk(p, a, st1, 2 * p.n)
            && h != q && st1.handles[h] == st.handles[h] && Live(st1, h)
  {
    hide Stream, BuffersOk, GotOk, SlotsOk;
    var x := st.xfers[j];
    var place := Staging(BufferOf(st, j).value, BatchLength(|x.data|, x.per, k));
    var st2 := Allocate(st.(xfers := st.xfers[j := WithOp(x, Posted(q, place))]), q);
    var next := st.handles[h].(ibatch := k + 1, custom := false);
    var st1 := st2.(handles := st2.handles[q := next]);
    NextMessage(x.data, x.per, k);
    assert TookOver(st, st1, j, q, place, next);
    PostKeeps(p, a, st, st1, j, h, k, extra, q, next);
  }

  /** A callback of a send: it posts the next batches and leaves the rank in order. */
  lemma SendHandlerKeeps(p: Program, a: nat, st: Rank, j: nat, h: nat, stop: nat, q: nat)
    requires j in st.xfers && h in st.handles && j < p.n
    requires Running(p, a, st, j, h, st.handles[h].ibatch, ExtraOf(st, j, h))
    requires Allocatable(st, q)
    ensures SendReady(st, h) && RankInv(p, a, SendHandler(st, h, stop, q))
  {
    hide Core, SlotsOk, PostBatches, Stream;
    var k, u, b := st.handles[h].ibatch, st.xfers[j].user, BufferOf(st, j).value;
    var extra := ExtraOf(st, j, h);
    RunningReady(p, a, st, j, h, k, extra);
    LoopKeeps(p, a, st, j, h, k, extra, stop);
    PostBatchesFrame(st, j, b, k, stop);
    var g := PostBatches(st, j, b, k, stop);
    if g.inFlight {
      DeferKeeps(p, a, g.st, j, h, g.ibatch, extra, q);
      var x := g.st.xfers[j];
      var place := Staging(b, BatchLength(|x.data|, x.per, g.ibatch));
      var st2 := Allocate(g.st.(xfers := g.st.xfers[j := WithOp(x, Posted(q, place))]), q);
      FinishSend(p, a, st2.(handles := st2.handles[q := st.handles[h].(ibatch := g.ibatch + 1, custom := false)]), h, extra);
    } else {
      CompleteKeeps(p, a, g.st, j, h, g.ibatch, extra);
      FinishSend(p, a, g.st.(handles := g.st.handles[u := g.st.handles[u].(completed := true)]), h, extra);
    }
  }

  lemma FinishSend(p: Program, a: nat, st: Rank, h: nat, extra: set<nat>)
    requires Core(p, a, st, extra) && SlotsOk(p, a, st, 2 * p.n) && Live(st, h)
    requires if st.handles[h].orig == Handle(h) then extra == {} else extra == {h}
    ensures RankInv(p, a, FreeIfInternal(st, h))
  {
    if st.handles[h].orig != Handle(h) {
      FreeKeeps(p, a, st, h, extra);
      assert extra - {h} == {};
    }
  }

  /** The transfer that slot `j` is about to start. */
  ghost predicate Due(p: Program, a: nat, st: Rank, j: nat) {
    && RankInv(p, a, st)
    && st.pc == j < 2 * p.n
    && st.round < |p.rounds|
    && Expected(p, a, j, st.round).Some?
  }

  lemma DueFacts(p: Program, a: nat, st: Rank, j: nat)
    requires Due(p, a, st, j)
    ensures Member(p, a) && Shape(p, st) && j !in st.xfers && st.cache != []
    ensures forall b :: b in st.cache ==> b in st.staging
    ensures p.rounds[st.round].per > 0
    ensures forall h :: h in st.free ==> h in st.handles && Clean(st.handles[h])
    ensures Passed(p, a, st, j, 0) && |SlotWire(p, a, j, st.round)| > 0
    ensures SlotWire(p, a, j, st.round)[0] == Count(|Expected(p, a, j, st.round).value|)
  {
    assert SlotOk(p, a, st, j);
    CacheLeft(p, a, st);
  }

  /** `send` whose count is not sent at once. */
  lemma SendDeferredKeeps(p: Program, a: nat, st: Rank, st': Rank, j: nat, u: nat, x: Xfer)
    requires Due(p, a, st, j) && j < p.n && Joined(st, st', j, u, x) && st'.out == st.out
    requires x == Outgoing(u, Posted(u, CountCell), p.rounds[st.round].per, Expected(p, a, j, st.round).value)
    ensures RankInv(p, a, st')
  {
    DueFacts(p, a, st, j);
    JoinKeeps(p, a, st, st', j, u, x);
    hide Core, SlotsOk;
    assert SlotOk(p, a, st', j) by { assert InFlight(p, a, st', j, u); }
    AllSlots(p, a, st', j);
  }

  lemma AllSlots(p: Program, a: nat, st: Rank, j: nat)
    requires Member(p, a) && Shape(p, st) && j < 2 * p.n
    requires SlotsOk(p, a, st, j) && SlotOk(p, a, st, j)
    ensures SlotsOk(p, a, st, 2 * p.n)
  {
    hide SlotOk;
  }

  /** `send` whose count UCX sends inside the call. */
  lemma SendImmediateKeeps(p: Program, a: nat, st: Rank, st': Rank, j: nat, u: nat, x: Xfer)
    requires Due(p, a, st, j) && j < p.n && Joined(st, st', j, u, x)
    requires x == Outgoing(u, Idle, p.rounds[st.round].per, Expected(p, a, j, st.round).value)
    requires st'.out == st.out[j := st.out[j] + [Count(|x.data|)]]
    ensures Running(p, a, st', j, u, 0, {})
  {
    DueFacts(p, a, st, j);
    JoinKeeps(p, a, st, st', j, u, x);
    hide Core, SlotsOk;
    var w := SlotWire(p, a, j, st.round);
    assert w[..1] == w[..0] + [w[0]];
    assert SlotStream(p, a, j, st.round) + w[..1] == st.out[j] + [w[0]];
    assert Passed(p, a, st', j, 1);
  }

  /** `send` never finds the pool empty and keeps the invariant, whatever UCX decides. */
  lemma SendKeeps(p: Program, a: nat, st: Rank, j: nat, u: nat, immediate: bool, raw: Info, stop: nat, q: nat)
    requires Due(p, a, st, j) && j < p.n
    requires if immediate then u !in st.handles else Allocatable(st, u)
    requires Allocatable(st, q) && q != u
    ensures j < |st.out| && j !in st.xfers && p.rounds[st.round].per > 0
            && forall b :: b in st.cache ==> b in st.staging
    ensures var r := Send(st, j, Expected(p, a, j, st.round).value, p.rounds[st.round].per, u, immediate, raw, stop, q);
            r.Some? && RankInv(p, a, r.value)
  {
    hide RankInv, Due, Expected, Send, SendHandler, Stream, Batches;
    DueFacts(p, a, st, j);
    DueInv(p, a, st, j);
    if immediate { SendNowKeeps(p, a, st, j, u, raw, stop, q); } else { SendLaterKeeps(p, a, st, j, u, raw, stop, q); }
  }

  /** UCX sends the count inside the call. */
  lemma SendNowKeeps(p: Program, a: nat, st: Rank, j: nat, u: nat, raw: Info, stop: nat, q: nat)
    requires Due(p, a, st, j) && j < p.n && u !in st.handles && Allocatable(st, q) && q != u
    requires Member(p, a) && Shape(p, st) && st.round < |p.rounds| && Expected(p, a, j, st.round).Some?
    requires j !in st.xfers && p.rounds[st.round].per > 0
    requires st.cache != [] && forall b :: b in st.cache ==> b in st.staging
    ensures var r := Send(st, j, Expected(p, a, j, st.round).value, p.rounds[st.round].per, u, true, raw, stop, q);
            r.Some? && RankInv(p, a, r.value)
  {
    hide RankInv, Core, SlotsOk, Due, Expected, SendHandler, SendReady, Stream, Batches;
    DueInv(p, a, st, j);
    var d, per := Expected(p, a, j, st.round).value, p.rounds[st.round].per;
    var st1 := st.(out := st.out[j := st.out[j] + [Count(|d|)]],
                   handles := st.handles[u := raw.(custom := true, completed := false)]);
    var st2 := Enlist(st1, j, u, Outgoing(u, Idle, per, d));
    FreshNotFree(p, a, st, u);
    SendImmediateKeeps(p, a, st, st2, j, u, Outgoing(u, Idle, per, d));
    SendHandlerKeeps(p, a, st2, j, u, stop, q);
  }

  /** The count stays in flight. */
  lemma SendLaterKeeps(p: Program, a: nat, st: Rank, j: nat, u: nat, raw: Info, stop: nat, q: nat)
    requires Due(p, a, st, j) && j < p.n && Allocatable(st, u) && Allocatable(st, q) && q != u
    requires Member(p, a) && Shape(p, st) && st.round < |p.rounds| && Expected(p, a, j, st.round).Some?
    requires j !in st.xfers && p.rounds[st.round].per > 0
    requires st.cache != [] && forall b :: b in st.cache ==> b in st.staging
    requires forall h :: h in st.free ==> h in st.handles && Clean(st.handles[h])
    ensures var r := Send(st, j, Expected(p, a, j, st.round).value, p.rounds[st.round].per, u, false, raw, stop, q);
            r.Some? && RankInv(p, a, r.value)
  {
    hide RankInv, Core, SlotsOk, Due, Expected, SendHandler, SendReady, Stream, Batches;
    DueInv(p, a, st, j);
    var d, per := Expected(p, a, j, st.round).value, p.rounds[st.round].per;
    var st2 := Enlist(Allocate(st, u), j, u, Outgoing(u, Posted(u, CountCell), per, d));
    SendDeferredKeeps(p, a, st, st2, j, u, Outgoing(u, Posted(u, CountCell), per, d));
  }

  lemma DueInv(p: Program, a: nat, st: Rank, j: nat)
    requires Due(p, a, st, j)
    ensures RankInv(p, a, st) && st.pc == j && st.round < |p.rounds|
    ensures Member(p, a) && j < 2 * p.n && Expected(p, a, j, st.round).Some?
  {
  }

  lemma FreshNotFree(p: Program, a: nat, st: Rank, u: nat)
    requires RankInv(p, a, st) && u !in st.handles
    ensures u !in st.free && st.free == st.free - {u}
  {
  }
}
