/** One rank of the buffered communicator, at the level of request handles: what `send`, `recv`,
    the two callbacks and `waitall` do to the handles, the staging buffers and the user's buffers.

    UCX is the environment. It appears through the arguments that say which request it hands out,
    whether a posted message completes inside the posting call, and what has already arrived. */
module Endpoint {
  import opened Wire

  /** `orig_info` of a handle: null, the mark left by a callback that ran too early, or the handle
      returned to the user. */
  datatype Orig = Null | Marked | Handle(id: nat)

  /** The fields of a request handle that outlive one call. `slot` stands for the pointers to the
      user's buffer and count, which are kept in the `Xfer` of that slot. */
  datatype Info = Info(completed: bool, orig: Orig, buffer: Option<nat>, custom: bool, slot: nat, ibatch: nat)

  /** The memory a posted UCX operation reads or writes. */
  datatype Place = CountCell | Staging(buffer: nat, len: nat)

  /** The UCX operation outstanding for a transfer. `Landed` means that UCX is done with the memory
      but has not called back yet. */
  datatype Op = Idle | Posted(request: nat, place: Place) | Landed(request: nat)

  /** A transfer of the current round. `user` is the handle returned to the caller. */
  datatype Xfer =
    | Outgoing(user: nat, op: Op, per: nat, data: seq<Elem>)
    | Incoming(user: nat, op: Op, per: nat, count: nat, dst: Option<seq<Elem>>)

  /** Slot `j` below the number of ranks is the send to rank `j`; the slots above are the receives.
      `out[b]` is everything UCX has read for rank `b`, `taken[a]` the number of messages matched
      from rank `a`. The program counter `pc` posts the slots in order, then releases them. */
  datatype Rank = Rank(
    round: nat, pc: nat,
    handles: map<nat, Info>, free: set<nat>,
    cache: seq<nat>, staging: map<nat, seq<Elem>>,
    xfers: map<nat, Xfer>,
    out: seq<seq<Message>>, taken: seq<nat>,
    got: map<(nat, nat), Option<seq<Elem>>>)

  function WithOp(x: Xfer, op: Op): Xfer {
    match x
    case Outgoing(user, _, per, data) => Outgoing(user, op, per, data)
    case Incoming(user, _, per, count, dst) => Incoming(user, op, per, count, dst)
  }

  // ---------- requests ----------

  predicate Live(st: Rank, h: nat) {
    h in st.handles && h !in st.free
  }

  /** UCX hands out a request that is new or was freed. */
  predicate Allocatable(st: Rank, q: nat) {
    q !in st.handles || q in st.free
  }

  /** What `request_init` leaves in a new request. */
  function InitialInfo(): Info {
    Info(false, Null, None, false, 0, 0)
  }

  /** A freed request keeps its fields. */
  function Allocate(st: Rank, q: nat): Rank
    requires Allocatable(st, q)
  {
    if q in st.handles then st.(free := st.free - {q})
    else st.(handles := st.handles[q := InitialInfo()])
  }

  /** UCX initialises a request when it makes it, and not when it hands it out again: what a handler leaves in
      a freed request is what the next user of the request finds. */
  lemma RecycledAsFreed(st: Rank, q: nat)
    requires Allocatable(st, q) && st.free <= st.handles.Keys
    ensures Live(Allocate(st, q), q)
    ensures q in st.handles ==> Allocate(st, q).handles == st.handles
    ensures var info := Allocate(st, q).handles[q];
            q !in st.handles ==> !info.completed && info.orig == Null && !info.custom
  {
  }

  /** Free the handle of a finished batch unless it is the one returned to the user. */
  function FreeIfInternal(st: Rank, h: nat): Rank
    requires Live(st, h)
  {
    var info := st.handles[h];
    if info.orig == Handle(h) then st
    else st.(handles := st.handles[h := info.(completed := false, orig := Null, custom := false)],
             free := st.free + {h})
  }

  // ---------- memory ----------

  /** Copy `piece` to the start of a staging buffer. */
  function Put(memory: seq<Elem>, piece: seq<Elem>): seq<Elem> {
    piece + (if |piece| <= |memory| then memory[|piece|..] else [])
  }

  /** A short batch leaves the end of the buffer as it was. */
  lemma PutAt(memory: seq<Elem>, piece: seq<Elem>, i: nat)
    requires i < |memory| && |piece| <= |memory|
    ensures |Put(memory, piece)| == |memory| && Put(memory, piece)[i] == if i < |piece| then piece[i] else memory[i]
  {
  }

  function Take(s: seq<Elem>, n: nat): seq<Elem> {
    if n <= |s| then s[..n] else s
  }

  /** Copy `piece` into `dst` from position `first` on. */
  function Overlay(dst: seq<Elem>, first: nat, piece: seq<Elem>): seq<Elem>
    requires first + |piece| <= |dst|
  {
    dst[..first] + piece + dst[first + |piece|..]
  }

  function Items(m: Message): seq<Elem> {
    if m.Batch? then m.items else []
  }

  // ---------- sending ----------

  datatype Progress = Progress(st: Rank, ibatch: nat, inFlight: bool)

  /** The loop of `send_handler` from batch `k` on. UCX completes the batches below `stop` inside
      the call; the first other one stays in flight. */
  function PostBatches(st: Rank, j: nat, buffer: nat, k: nat, stop: nat): Progress
    requires j in st.xfers && st.xfers[j].Outgoing? && st.xfers[j].per > 0
    requires j < |st.out| && buffer in st.staging
    decreases |st.xfers[j].data| - st.xfers[j].per * k
  {
    var x := st.xfers[j];
    var remaining := |x.data| - x.per * k;
    if remaining <= 0 then Progress(st, k, false)
    else
      var len := if remaining < x.per then remaining else x.per;
      var piece := x.data[x.per * k..x.per * k + len];
      var staged := st.(staging := st.staging[buffer := Put(st.staging[buffer], piece)]);
      if k < stop
      then PostBatches(staged.(out := st.out[j := st.out[j] + [Batch(staged.staging[buffer][..len])]]),
                       j, buffer, k + 1, stop)
      else Progress(staged, k, true)
  }

  /** The elements of batch `k`, the last one possibly short. */
  function BatchLength(n: nat, per: nat, k: nat): int {
    Min(n - per * k, per)
  }

  predicate HandlerReady(st: Rank, h: nat) {
    && Live(st, h)
    && var info := st.handles[h];
       && info.slot in st.xfers
       && st.xfers[info.slot].op == Idle
       && st.xfers[info.slot].per > 0
       && info.orig == Handle(st.xfers[info.slot].user)
       && Live(st, info.orig.id) && st.handles[info.orig.id].slot == info.slot
       && info.buffer.Some? && info.buffer.value in st.staging
  }

  predicate SendReady(st: Rank, h: nat) {
    && HandlerReady(st, h)
    && st.xfers[st.handles[h].slot].Outgoing?
    && st.handles[h].slot < |st.out|
  }

  /** `send_handler`, called for handle `h`. A batch left in flight gets request `q`. */
  function SendHandler(st: Rank, h: nat, stop: nat, q: nat): Rank
    requires SendReady(st, h)
    requires Allocatable(st, q)
  {
    var info := st.handles[h];
    var p := PostBatches(st, info.slot, info.buffer.value, info.ibatch, stop);
    PostBatchesFrame(st, info.slot, info.buffer.value, info.ibatch, stop);
    var st1 :=
      if p.inFlight then
        var x := p.st.xfers[info.slot];
        var place := Staging(info.buffer.value, BatchLength(|x.data|, x.per, p.ibatch));
        var st2 := Allocate(p.st.(xfers := p.st.xfers[info.slot := WithOp(x, Posted(q, place))]), q);
        st2.(handles := st2.handles[q := info.(ibatch := p.ibatch + 1, custom := false)])
      else
        var user := info.orig.id;
        p.st.(handles := p.st.handles[user := p.st.handles[user].(completed := true)]);
    FreeIfInternal(st1, h)
  }

  /** The send loop touches its staging buffer and its channel, nothing else. */
  lemma {:induction false} PostBatchesFrame(st: Rank, j: nat, buffer: nat, k: nat, stop: nat)
    requires j in st.xfers && st.xfers[j].Outgoing? && st.xfers[j].per > 0
    requires j < |st.out| && buffer in st.staging
    ensures var p := PostBatches(st, j, buffer, k, stop);
            && p.st == st.(staging := p.st.staging, out := p.st.out)
            && p.st.staging.Keys == st.staging.Keys
            && (forall b :: b in st.staging && b != buffer ==> p.st.staging[b] == st.staging[b])
            && |p.st.out| == |st.out|
            && (forall i :: 0 <= i < |st.out| && i != j ==> p.st.out[i] == st.out[i])
            && st.out[j] <= p.st.out[j]
            && p.ibatch >= k
            && (p.inFlight <==> st.xfers[j].per * p.ibatch < |st.xfers[j].data|)
    decreases |st.xfers[j].data| - st.xfers[j].per * k
  {
    var x := st.xfers[j];
    var remaining := |x.data| - x.per * k;
    if remaining > 0 && k < stop {
      var len := if remaining < x.per then remaining else x.per;
      var piece := x.data[x.per * k..x.per * k + len];
      var staged := st.(staging := st.staging[buffer := Put(st.staging[buffer], piece)]);
      var sent := staged.(out := st.out[j := st.out[j] + [Batch(staged.staging[buffer][..len])]]);
      assert PostBatches(st, j, buffer, k, stop) == PostBatches(sent, j, buffer, k + 1, stop);
      hide PostBatches, Put;
      PostBatchesFrame(sent, j, buffer, k + 1, stop);
    }
  }

  /** `UCXBufferCommunicator::send` to rank `j`. `immediate` says that UCX sent the count inside
      the call, so that the handle comes from malloc with contents `raw`. Throws on an empty pool. */
  function Send(st: Rank, j: nat, data: seq<Elem>, per: nat, u: nat, immediate: bool, raw: Info,
                stop: nat, q: nat): Option<Rank>
    requires per > 0 && j < |st.out| && j !in st.xfers
    requires if immediate then u !in st.handles else Allocatable(st, u)
    requires Allocatable(st, q) && q != u
    requires forall b :: b in st.cache ==> b in st.staging
  {
    var st1 :=
      if immediate then
        st.(out := st.out[j := st.out[j] + [Count(|data|)]],
            handles := st.handles[u := raw.(custom := true, completed := false)])
      else Allocate(st, u);
    if st1.cache == [] then None
    else
      var op := if immediate then Idle else Posted(u, CountCell);
      var st2 := Enlist(st1, j, u, Outgoing(u, op, per, data));
      if st2.handles[u].custom
      then if SendReady(st2, u) then Some(SendHandler(st2, u, stop, q)) else None
      else Some(st2)
  }

  /** Take a staging buffer and fill in the handle, as `send` and `recv_helper` both do. */
  function Enlist(st: Rank, j: nat, u: nat, x: Xfer): Rank
    requires st.cache != [] && u in st.handles
  {
    var info := st.handles[u].(buffer := Some(st.cache[0]), slot := j, ibatch := 0, orig := Handle(u));
    st.(cache := st.cache[1..], handles := st.handles[u := info], xfers := st.xfers[j := x], pc := st.pc + 1)
  }

  // ---------- receiving ----------

  /** The early callback: UCX runs `recv_handler` before the handle is filled. */
  function MarkEarly(st: Rank, q: nat): Rank
    requires q in st.handles && st.handles[q].orig == Null
  {
    st.(handles := st.handles[q := st.handles[q].(orig := Marked)])
  }

  predicate RecvReady(st: Rank, h: nat) {
    && HandlerReady(st, h)
    && st.xfers[st.handles[h].slot].Incoming?
    && var x := st.xfers[st.handles[h].slot];
       && |st.out| <= st.handles[h].slot < |st.out| + |st.taken|
       && (x.dst.Some? ==> |x.dst.value| == x.count)
       && (st.handles[h].ibatch > 0 ==>
             x.dst.Some? && x.per * (st.handles[h].ibatch - 1) < x.count)
  }

  /** UCX picks each request among those free at that moment. */
  predicate PlanReady(st: Rank, plan: seq<nat>, inbox: seq<Message>) {
    && 0 < |plan| <= |inbox| + 1
    && (forall i :: 0 <= i < |plan| ==> Allocatable(st, plan[i]))
    && (forall i, i' :: 0 <= i < i' < |plan| ==> plan[i] != plan[i'])
    && (forall q :: q in st.free ==> q in st.handles && st.handles[q].orig == Null)
  }

  /** The user's side of a receive once batch `ibatch - 1` sits in `memory`: allocate the buffer if
      the user gave none, copy the batch to its place. */
  function Unloaded(x: Xfer, ibatch: nat, memory: seq<Elem>): (x': Xfer)
    requires x.Incoming? && x.per > 0
    requires x.dst.Some? ==> |x.dst.value| == x.count
    requires ibatch > 0 ==> x.dst.Some? && x.per * (ibatch - 1) < x.count
    ensures x'.Incoming? && x'.user == x.user && x'.op == x.op && x'.per == x.per && x'.count == x.count
    ensures x'.dst.Some? <==> x.dst.Some? || x.count > 0
    ensures x'.dst.Some? ==> |x'.dst.value| == x.count
  {
    var dst := if x.dst.None? && x.count > 0 then Some(seq(x.count, _ => 0)) else x.dst;
    if ibatch == 0 then x.(dst := dst)
    else
      var first := x.per * (ibatch - 1);
      var piece := Take(memory, BatchLength(x.count, x.per, ibatch - 1));
      x.(dst := Some(Overlay(dst.value, first, piece)))
  }

  function Unload(st: Rank, h: nat): Rank
    requires RecvReady(st, h)
  {
    var info := st.handles[h];
    st.(xfers := st.xfers[info.slot :=
      Unloaded(st.xfers[info.slot], info.ibatch, st.staging[info.buffer.value])])
  }

  /** Post the receive of the next batch under request `q` and pass the handle's fields on. With
      `early`, the message is already there and the callback runs inside the posting call.
      The second result is the handler's test for that. */
  function PostNext(st: Rank, h: nat, q: nat, len: nat, early: bool, inbox: seq<Message>): (Rank, bool)
    requires RecvReady(st, h) && Allocatable(st, q)
    requires q in st.free ==> q in st.handles && st.handles[q].orig == Null
    requires early ==> inbox != []
  {
    var info := st.handles[h];
    var j, b := info.slot, info.buffer.value;
    var op := if early then Idle else Posted(q, Staging(b, len));
    var st1 := Allocate(st.(xfers := st.xfers[j := WithOp(st.xfers[j], op)]), q);
    var st2 := if early then MarkEarly(Land(st1, j, Staging(b, len), inbox[0]), q) else st1;
    var called := st2.handles[q].orig != Null;
    var info' := info.(ibatch := info.ibatch + 1);
    (st2.(handles := st2.handles[h := info'][q := info']), called)
  }

  /** UCX matches a message with a posted receive and writes it to memory. */
  function Land(st: Rank, j: nat, place: Place, m: Message): Rank
    requires j in st.xfers && st.xfers[j].Incoming?
    requires |st.out| <= j < |st.out| + |st.taken|
    requires place.Staging? ==> place.buffer in st.staging
  {
    var s := j - |st.out|;
    var st1 := st.(taken := st.taken[s := st.taken[s] + 1]);
    match place
    case CountCell =>
      st1.(xfers := st.xfers[j := st.xfers[j].(count := if m.Count? then m.n else 0)])
    case Staging(b, len) =>
      st1.(staging := st.staging[b := Put(st.staging[b], Take(Items(m), len))])
  }

  /** `recv_handler`, called for a filled handle `h`. The length of `plan` says how many of the
      following batches arrive inside their posting calls. */
  function RecvHandler(st: Rank, h: nat, inbox: seq<Message>, plan: seq<nat>): (st': Rank)
    requires RecvReady(st, h)
    requires PlanReady(st, plan, inbox)
    ensures LiveKept(st, st', h)
    decreases Left(st, h)
  {
    var info := st.handles[h];
    var st1 := Unload(st, h);
    UnloadReady(st, h);
    var x := st1.xfers[info.slot];
    var len := BatchLength(x.count, x.per, info.ibatch);
    if len > 0 then
      PostNextReady(st1, h, inbox, plan, len);
      var (st2, called) := PostNext(st1, h, plan[0], len, |plan| > 1, inbox);
      var st3 := if called then RecvHandler(st2, plan[0], inbox[1..], plan[1..]) else st2;
      StillLive(st, st2, st3, h, plan[0]);
      FreeIfInternal(st3, h)
    else
      var user := info.orig.id;
      var st2 := st1.(handles := st1.handles[user := st1.handles[user].(completed := true)]);
      FreeIfInternal(st2, h)
  }

  /** The elements still to be received when the handler starts on `h`. */
  function Left(st: Rank, h: nat): int
    requires RecvReady(st, h)
  {
    var x := st.xfers[st.handles[h].slot];
    x.count - x.per * st.handles[h].ibatch
  }

  /** Handles other than `h` stay live and keep pointing to the same user handle and transfer. */
  ghost predicate LiveKept(st: Rank, st': Rank, h: nat) {
    forall g :: Live(st, g) && g != h ==>
      Live(st', g) && st'.handles[g].orig == st.handles[g].orig && st'.handles[g].slot == st.handles[g].slot
  }

  lemma UnloadReady(st: Rank, h: nat)
    requires RecvReady(st, h)
    ensures RecvReady(Unload(st, h), h)
  {
  }

  /** A nested call for a request that was free leaves all handles of the outer call live. */
  lemma StillLive(st: Rank, st2: Rank, st3: Rank, h: nat, q: nat)
    requires LiveKept(st, st2, h) && Live(st2, h) && !Live(st, q) && q != h
    requires LiveKept(st2, st3, q)
    ensures Live(st3, h) && LiveKept(st, FreeIfInternal(st3, h), h)
  {
  }

  /** A batch is due and the user's buffer is there. */
  predicate BatchDue(st: Rank, h: nat) {
    && RecvReady(st, h)
    && var x := st.xfers[st.handles[h].slot];
       x.dst.Some? && x.per * st.handles[h].ibatch < x.count
  }

  lemma PostNextLive(st: Rank, h: nat, q: nat, len: nat, early: bool, inbox: seq<Message>)
    requires RecvReady(st, h) && Allocatable(st, q)
    requires q in st.free ==> q in st.handles && st.handles[q].orig == Null
    requires early ==> inbox != []
    ensures var (st2, called) := PostNext(st, h, q, len, early, inbox);
            && called == early
            && LiveKept(st, st2, h)
            && q != h && q != st.handles[h].orig.id
            && st2.handles[h] == st2.handles[q] == st.handles[h].(ibatch := st.handles[h].ibatch + 1)
            && Live(st2, h) && Live(st2, q)
  {
  }

  lemma PostNextRecvReady(st: Rank, h: nat, q: nat, len: nat, inbox: seq<Message>)
    requires BatchDue(st, h) && Allocatable(st, q)
    requires q in st.free ==> q in st.handles && st.handles[q].orig == Null
    requires inbox != []
    ensures var (st2, _) := PostNext(st, h, q, len, true, inbox);
            RecvReady(st2, q) && Left(st2, q) < Left(st, h)
  {
    var (st2, _) := PostNext(st, h, q, len, true, inbox);
    PostNextLive(st, h, q, len, true, inbox);
    var j, x := st.handles[h].slot, st.xfers[st.handles[h].slot];
    assert st2.handles[q].slot == j && st2.xfers[j] == WithOp(x, Idle);
    assert st2.handles[q].ibatch == st.handles[h].ibatch + 1;
    assert HandlerReady(st2, q);
  }

  lemma PostNextPlanReady(st: Rank, h: nat, inbox: seq<Message>, plan: seq<nat>, len: nat)
    requires RecvReady(st, h)
    requires PlanReady(st, plan, inbox) && |plan| > 1
    ensures var (st2, _) := PostNext(st, h, plan[0], len, true, inbox);
            PlanReady(st2, plan[1..], inbox[1..])
  {
    var (st2, _) := PostNext(st, h, plan[0], len, true, inbox);
    PostNextLive(st, h, plan[0], len, true, inbox);
    assert st2.free == st.free - {plan[0]};
    forall i | 0 <= i < |plan[1..]| ensures Allocatable(st2, plan[1..][i]) {
      assert plan[1..][i] == plan[i + 1];
      assert Allocatable(st, plan[i + 1]);
    }
  }

  /** A nested call of the handler finds everything in place, and less to receive. */
  lemma PostNextReady(st: Rank, h: nat, inbox: seq<Message>, plan: seq<nat>, len: nat)
    requires BatchDue(st, h)
    requires PlanReady(st, plan, inbox)
    ensures var (st2, called) := PostNext(st, h, plan[0], len, |plan| > 1, inbox);
              && Live(st2, h) && LiveKept(st, st2, h) && st2.handles[h].orig == st.handles[h].orig
              && called == (|plan| > 1)
              && (called ==> RecvReady(st2, plan[0]) && PlanReady(st2, plan[1..], inbox[1..])
                             && Left(st2, plan[0]) < Left(st, h))
  {
    assert Allocatable(st, plan[0]);
    PostNextLive(st, h, plan[0], len, |plan| > 1, inbox);
    if |plan| > 1 {
      PostNextRecvReady(st, h, plan[0], len, inbox);
      PostNextPlanReady(st, h, inbox, plan, len);
    }
  }

  /** `recv_helper` from rank `j - n`. With a non-empty `plan` the count arrives inside the call. */
  function Recv(st: Rank, j: nat, dst: Option<seq<Elem>>, per: nat, u: nat,
                inbox: seq<Message>, plan: seq<nat>): Option<Rank>
    requires per > 0 && |st.out| <= j < |st.out| + |st.taken| && j !in st.xfers
    requires Allocatable(st, u) && u !in plan
    requires u in st.free ==> u in st.handles && st.handles[u].orig == Null
    requires plan != [] ==> inbox != [] && PlanReady(st, plan, inbox[1..])
  {
    var early := plan != [];
    var st1 := Allocate(st, u);
    var st2 := if early then MarkEarly(st1, u) else st1;
    if st2.cache == [] then None
    else
      var called := st2.handles[u].orig != Null;
      var op := if early then Idle else Posted(u, CountCell);
      var st3 := st2.(handles := st2.handles[u := st2.handles[u].(custom := false)]);
      var st4 := Enlist(st3, j, u, Incoming(u, op, per, 0, dst));
      var st5 := if early then Land(st4, j, CountCell, inbox[0]) else st4;
      if called
      then if RecvReady(st5, u) then Some(RecvHandler(st5, u, inbox[1..], plan)) else None
      else Some(st5)
  }

  // ---------- the loop that ends waitall ----------

  predicate AllCompleted(st: Rank) {
    forall j :: j in st.xfers ==> st.xfers[j].user in st.handles && st.handles[st.xfers[j].user].completed
  }

  /** Give the staging buffer of slot `j` back and free its user handle. */
  function ReleaseSlot(st: Rank, j: nat): Rank
    requires j in st.xfers && Live(st, st.xfers[j].user)
    requires st.handles[st.xfers[j].user].buffer.Some?
  {
    var x := st.xfers[j];
    var info := st.handles[x.user];
    var cleared := info.(completed := false, orig := Null, buffer := None);
    var st1 := st.(cache := st.cache + [info.buffer.value], xfers := st.xfers - {j}, pc := st.pc + 1);
    var st2 := if x.Incoming? && |st.out| <= j
               then st1.(got := st.got[(st.round, j - |st.out|) := x.dst]) else st1;
    if info.custom then st2.(handles := st.handles - {x.user})
    else st2.(handles := st.handles[x.user := cleared], free := st.free + {x.user})
  }
}
