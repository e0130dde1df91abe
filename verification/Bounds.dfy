/** What the calls and callbacks of a rank leave within bounds: staging buffers keep their lengths,
    channels only grow, and no more messages are matched than have arrived. */
module Bounds {
  import opened Wire
  import opened Endpoint
  import opened RecvProofs
  import opened SendProofs

  /** Every staging buffer holds a whole batch of `per` elements. */
  ghost predicate AllHold(st: Rank, per: nat) {
    forall b :: b in st.staging ==> |st.staging[b]| >= per
  }

  /** A write beyond the end of a buffer would make it longer. */
  ghost predicate SameLengths(st: Rank, st': Rank) {
    && st'.staging.Keys == st.staging.Keys
    && forall b :: b in st.staging ==> |st'.staging[b]| == |st.staging[b]|
  }

  /** From `st` to `st'` all writes stay within the buffers, channels grow, and slot `j` matches at
      most `m` messages. */
  ghost predicate Bounded(st: Rank, st': Rank, j: nat, m: nat) {
    && SameLengths(st, st')
    && st'.round == st.round && |st'.out| == |st.out| && |st'.taken| == |st.taken|
    && (forall b :: 0 <= b < |st.out| ==> |st.out[b]| <= |st'.out[b]|)
    && (forall s :: 0 <= s < |st.taken| ==> st'.taken[s] <= st.taken[s] + if |st.out| + s == j then m else 0)
  }

  lemma BoundedTrans(st: Rank, st1: Rank, st2: Rank, j: nat, m1: nat, m2: nat)
    requires Bounded(st, st1, j, m1) && Bounded(st1, st2, j, m2)
    ensures Bounded(st, st2, j, m1 + m2)
  {
  }

  /** Everything a bound speaks about is the same. */
  lemma BoundedSame(st: Rank, st': Rank, j: nat)
    requires st'.staging == st.staging && st'.out == st.out && st'.taken == st.taken && st'.round == st.round
    ensures Bounded(st, st', j, 0)
  {
  }

  lemma StillHold(st: Rank, st': Rank, per: nat)
    requires AllHold(st, per) && SameLengths(st, st')
    ensures AllHold(st', per)
  {
  }

  // ---------- sending ----------

  lemma {:induction false} PostBatchesBounds(st: Rank, j: nat, buffer: nat, k: nat, stop: nat)
    requires j in st.xfers && st.xfers[j].Outgoing? && st.xfers[j].per > 0
    requires j < |st.out| && buffer in st.staging && AllHold(st, st.xfers[j].per)
    ensures Bounded(st, PostBatches(st, j, buffer, k, stop).st, j, 0)
    decreases |st.xfers[j].data| - st.xfers[j].per * k
  {
    hide PostBatches, Bounded, Put;
    var x := st.xfers[j];
    if x.per * k < |x.data| {
      LoopTurn(st, j, buffer, k, stop);
      var piece := Piece(x.data, x.per, k);
      assert |piece| <= x.per;
      var staged := st.(staging := st.staging[buffer := Put(st.staging[buffer], piece)]);
      PutBounds(st, j, buffer, piece);
      if k < stop {
        var sent := staged.(out := st.out[j := st.out[j] + [Batch(piece)]]);
        SentBounds(st, staged, sent, j, Batch(piece));
        BoundedLengths(st, sent, j, 0);
        StillHold(st, sent, x.per);
        PostBatchesBounds(sent, j, buffer, k + 1, stop);
        BoundedTrans(st, sent, PostBatches(sent, j, buffer, k + 1, stop).st, j, 0, 0);
      }
    } else {
      LoopEnd(st, j, buffer, k, stop);
      BoundedSame(st, PostBatches(st, j, buffer, k, stop).st, j);
    }
  }

  lemma PutBounds(st: Rank, j: nat, buffer: nat, piece: seq<Elem>)
    requires buffer in st.staging && |piece| <= |st.staging[buffer]|
    ensures Bounded(st, st.(staging := st.staging[buffer := Put(st.staging[buffer], piece)]), j, 0)
  {
  }

  lemma SentBounds(st: Rank, staged: Rank, sent: Rank, j: nat, m: Message)
    requires Bounded(st, staged, j, 0) && j < |staged.out| && sent == staged.(out := staged.out[j := staged.out[j] + [m]])
    ensures Bounded(st, sent, j, 0)
  {
  }

  lemma SendHandlerBounds(st: Rank, h: nat, stop: nat, q: nat)
    requires SendReady(st, h) && Allocatable(st, q) && AllHold(st, st.xfers[st.handles[h].slot].per)
    ensures Bounded(st, SendHandler(st, h, stop, q), st.handles[h].slot, 0)
  {
    hide PostBatches, AllHold;
    var info := st.handles[h];
    PostBatchesFrame(st, info.slot, info.buffer.value, info.ibatch, stop);
    PostBatchesBounds(st, info.slot, info.buffer.value, info.ibatch, stop);
    var p := PostBatches(st, info.slot, info.buffer.value, info.ibatch, stop);
    BoundedSame(p.st, SendHandler(st, h, stop, q), info.slot);
  }

  /** `send` writes batches into buffers that hold them. */
  lemma SendBounds(st: Rank, j: nat, d: seq<Elem>, per: nat, u: nat, immediate: bool, raw: Info, stop: nat, q: nat)
    requires per > 0 && j < |st.out| && j !in st.xfers
    requires if immediate then u !in st.handles else Allocatable(st, u)
    requires Allocatable(st, q) && q != u
    requires forall b :: b in st.cache ==> b in st.staging
    requires AllHold(st, per)
    ensures var r := Send(st, j, d, per, u, immediate, raw, stop, q);
            r.Some? ==> Bounded(st, r.value, j, 0)
  {
    hide SendHandler, SendReady, HandlerReady;
    var st1 :=
      if immediate then
        st.(out := st.out[j := st.out[j] + [Count(|d|)]],
            handles := st.handles[u := raw.(custom := true, completed := false)])
      else Allocate(st, u);
    if st1.cache != [] {
      var st2 := Enlist(st1, j, u, Outgoing(u, if immediate then Idle else Posted(u, CountCell), per, d));
      assert Bounded(st, st2, j, 0);
      if st2.handles[u].custom && SendReady(st2, u) {
        SendReadySlot(st2, u);
        StillHold(st, st2, per);
        SendHandlerBounds(st2, u, stop, q);
        BoundedTrans(st, st2, SendHandler(st2, u, stop, q), j, 0, 0);
      }
    }
  }

  lemma SendReadySlot(st: Rank, h: nat)
    requires SendReady(st, h)
    ensures h in st.handles && st.handles[h].slot in st.xfers
  {
  }

  // ---------- receiving ----------

  lemma UnloadBounds(st: Rank, h: nat)
    requires RecvReady(st, h)
    ensures Bounded(st, Unload(st, h), st.handles[h].slot, 0)
    ensures st.handles[h].slot in Unload(st, h).xfers
    ensures Unload(st, h).xfers[st.handles[h].slot].per == st.xfers[st.handles[h].slot].per
  {
  }

  /** Posting the next batch: an early one lands in a buffer that holds it. */
  lemma PostNextBounds(st: Rank, h: nat, q: nat, len: nat, early: bool, inbox: seq<Message>)
    requires RecvReady(st, h) && Allocatable(st, q)
    requires q in st.free ==> q in st.handles && st.handles[q].orig == Null
    requires early ==> inbox != []
    requires AllHold(st, len)
    ensures Bounded(st, PostNext(st, h, q, len, early, inbox).0, st.handles[h].slot, if early then 1 else 0)
    ensures var st2, j := PostNext(st, h, q, len, early, inbox).0, st.handles[h].slot;
            j in st2.xfers && st2.xfers[j].per == st.xfers[j].per && q in st2.handles && st2.handles[q].slot == j
  {
  }

  lemma LengthAtMost(n: nat, per: nat, k: nat)
    ensures BatchLength(n, per, k) <= per
  {
  }

  /** The receive handler, with every batch that has arrived early. */
  lemma {:induction false} RecvHandlerBounds(st: Rank, h: nat, inbox: seq<Message>, plan: seq<nat>)
    requires RecvReady(st, h) && PlanReady(st, plan, inbox) && AllHold(st, st.xfers[st.handles[h].slot].per)
    ensures Bounded(st, RecvHandler(st, h, inbox, plan), st.handles[h].slot, |inbox|)
    decreases |plan|
  {
    var j, st1 := st.handles[h].slot, Unload(st, h);
    UnloadReady(st, h);
    UnloadBounds(st, h);
    StillHold(st, st1, st.xfers[j].per);
    if BatchLength(st1.xfers[j].count, st1.xfers[j].per, st.handles[h].ibatch) > 0 {
      HandlerPosts(st, h, inbox, plan);
      PostedBounds(st, st1, h, j, inbox, plan);
    }
  }

  lemma PostedBounds(st: Rank, st1: Rank, h: nat, j: nat, inbox: seq<Message>, plan: seq<nat>)
    requires RecvReady(st, h) && PlanReady(st, plan, inbox) && st1 == Unload(st, h) && RecvReady(st1, h)
    requires h in st.handles && j == st.handles[h].slot && j in st1.xfers && st1.xfers[j].Incoming?
    requires Bounded(st, st1, j, 0) && BatchDue(st1, h) && AllHold(st1, st1.xfers[j].per)
    ensures Bounded(st, RecvHandler(st, h, inbox, plan), j, |inbox|)
    decreases |plan|, 0
  {
    hide RecvReady, PlanReady, Bounded, Unload, PostNext, RecvHandler, FreeIfInternal, AllHold;
    HandlerPosts(st, h, inbox, plan);
    var x := st1.xfers[j];
    var len := BatchLength(x.count, x.per, st.handles[h].ibatch);
    LengthAtMost(x.count, x.per, st.handles[h].ibatch);
    HoldLess(st1, x.per, len);
    var (st2, called) := PostNext(st1, h, plan[0], len, |plan| > 1, inbox);
    PostNextBounds(st1, h, plan[0], len, |plan| > 1, inbox);
    var m := if called then 1 else 0;
    BoundedTrans(st, st1, st2, j, 0, m);
    if called {
      BoundedLengths(st1, st2, j, m);
      StillHold(st1, st2, x.per);
      var st3 := RecvHandler(st2, plan[0], inbox[1..], plan[1..]);
      RecvHandlerBounds(st2, plan[0], inbox[1..], plan[1..]);
      BoundedTrans(st, st2, st3, j, 1, |inbox| - 1);
      FreeBounds(st3, h, j);
      BoundedTrans(st, st3, FreeIfInternal(st3, h), j, |inbox|, 0);
    } else {
      FreeBounds(st2, h, j);
      BoundedTrans(st, st2, FreeIfInternal(st2, h), j, 0, 0);
      BoundedMore(st, FreeIfInternal(st2, h), j, 0, |inbox|);
    }
  }

  lemma HoldLess(st: Rank, per: nat, len: int)
    requires AllHold(st, per) && 0 <= len <= per
    ensures AllHold(st, len)
  {
  }

  lemma BoundedLengths(st: Rank, st': Rank, j: nat, m: nat)
    requires Bounded(st, st', j, m)
    ensures SameLengths(st, st')
  {
  }

  lemma BoundedMore(st: Rank, st': Rank, j: nat, m: nat, m': nat)
    requires Bounded(st, st', j, m) && m <= m'
    ensures Bounded(st, st', j, m')
  {
  }

  lemma FreeBounds(st: Rank, h: nat, j: nat)
    requires Live(st, h)
    ensures Bounded(st, FreeIfInternal(st, h), j, 0)
  {
  }

  /** `recv_helper`, with a count and batches that have arrived early. */
  lemma RecvBounds(st: Rank, j: nat, dst: Option<seq<Elem>>, per: nat, u: nat, inbox: seq<Message>, plan: seq<nat>)
    requires per > 0 && |st.out| <= j < |st.out| + |st.taken| && j !in st.xfers
    requires Allocatable(st, u) && u !in plan
    requires u in st.free ==> u in st.handles && st.handles[u].orig == Null
    requires plan != [] ==> inbox != [] && PlanReady(st, plan, inbox[1..])
    requires AllHold(st, per)
    ensures var r := Recv(st, j, dst, per, u, inbox, plan);
            r.Some? ==> Bounded(st, r.value, j, |inbox|)
  {
    if plan == [] {
      hide RecvHandler, RecvReady, PlanReady, EarlyStart;
    } else if Recv(st, j, dst, per, u, inbox, plan).Some? {
      RecvNowBounds(st, j, dst, per, u, inbox, plan);
    }
  }

  lemma StartBounds(st: Rank, j: nat, dst: Option<seq<Elem>>, per: nat, u: nat, m: Message)
    requires |st.out| <= j < |st.out| + |st.taken| && j !in st.xfers && st.cache != [] && Allocatable(st, u)
    requires u in st.free ==> u in st.handles && st.handles[u].orig == Null
    ensures var st' := EarlyStart(st, j, dst, per, u, m);
            && Bounded(st, st', j, 1)
            && st'.free == st.free - {u} && u in st'.handles && st'.handles == st.handles[u := st'.handles[u]]
            && st'.handles[u].slot == j && j in st'.xfers && st'.xfers[j].per == per
  {
  }

  lemma RecvNowBounds(st: Rank, j: nat, dst: Option<seq<Elem>>, per: nat, u: nat, inbox: seq<Message>, plan: seq<nat>)
    requires per > 0 && |st.out| <= j < |st.out| + |st.taken| && j !in st.xfers
    requires Allocatable(st, u) && u !in plan
    requires u in st.free ==> u in st.handles && st.handles[u].orig == Null
    requires plan != [] && inbox != [] && PlanReady(st, plan, inbox[1..])
    requires Recv(st, j, dst, per, u, inbox, plan).Some? && AllHold(st, per)
    ensures Bounded(st, Recv(st, j, dst, per, u, inbox, plan).value, j, |inbox|)
  {
    hide RecvHandler, RecvReady, PlanReady, EarlyStart, Bounded, AllHold;
    RecvStarts(st, j, dst, per, u, inbox, plan);
    var st' := EarlyStart(st, j, dst, per, u, inbox[0]);
    StartBounds(st, j, dst, per, u, inbox[0]);
    BoundedLengths(st, st', j, 1);
    StillHold(st, st', per);
    PlanKept(st, st', u, plan, inbox[1..]);
    RecvHandlerBounds(st', u, inbox[1..], plan);
    RecvIs(st, j, dst, per, u, inbox, plan);
    BoundedTrans(st, st', RecvHandler(st', u, inbox[1..], plan), j, 1, |inbox| - 1);
  }

  lemma RecvStarts(st: Rank, j: nat, dst: Option<seq<Elem>>, per: nat, u: nat, inbox: seq<Message>, plan: seq<nat>)
    requires per > 0 && |st.out| <= j < |st.out| + |st.taken| && j !in st.xfers
    requires Allocatable(st, u) && u !in plan
    requires u in st.free ==> u in st.handles && st.handles[u].orig == Null
    requires plan != [] && inbox != [] && PlanReady(st, plan, inbox[1..])
    requires Recv(st, j, dst, per, u, inbox, plan).Some?
    ensures st.cache != [] && RecvReady(EarlyStart(st, j, dst, per, u, inbox[0]), u)
  {
    hide RecvHandler, RecvReady, PlanReady;
  }
}
