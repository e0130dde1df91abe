/** The buffered communicator as the object it is: its methods update handles, queue and buffers in
    place. Each is proved against the function of the same step in `Endpoint`. */
module Communicator {
  import opened Wire
  import E = Endpoint
  import opened Rounds
  import R = RankInvariant
  import W = WaitProofs
  import S = SendProofs
  import P = RecvProofs
  import H = HandlerFrames
  import T = Termination
  import A = Arith
  import O = Allocators

  lemma SameRound(st: E.Rank, st': E.Rank, j: nat, b: nat)
    requires T.Touches(st, st'.(pc := st.pc), j, b)
    ensures st'.round == st.round
  {
  }

  class UCXBufferCommunicator {
    var round: nat
    var pc: nat
    var handles: map<nat, E.Info>
    var free: set<nat>
    var bufferCache: seq<nat>
    var staging: map<nat, seq<Elem>>
    var xfers: map<nat, E.Xfer>
    var out: seq<seq<Message>>
    var taken: seq<nat>
    var got: map<(nat, nat), Option<seq<Elem>>>

    function View(): E.Rank
      reads this
    {
      E.Rank(round, pc, handles, free, bufferCache, staging, xfers, out, taken, got)
    }

    /** `setup_cache`: cut the pool into `ncaches` buffers, each of room for `length` elements, and queue
        them in order. */
    constructor SetupCache(n: nat, ncaches: nat, length: nat)
      ensures round == 0 && pc == 0 && handles == map[] && free == {} && xfers == map[] && got == map[]
      ensures bufferCache == seq(ncaches, i => i)
      ensures forall b: nat :: b in staging <==> b < ncaches
      ensures forall b :: b in staging ==> |staging[b]| == length
      ensures out == seq(n, _ => []) && taken == seq(n, _ => 0)
    {
      round, pc, handles, free, xfers, got := 0, 0, map[], {}, map[], map[];
      out, taken := seq(n, _ => []), seq(n, _ => 0);
      bufferCache, staging := [], map[];
      new;
      for icache := 0 to ncaches
        modifies this`bufferCache, this`staging
        invariant bufferCache == seq(icache, i => i)
        invariant forall b: nat :: b in staging <==> b < icache
        invariant forall b :: b in staging ==> |staging[b]| == length
      {
        bufferCache := bufferCache + [icache];
        staging := staging[icache := seq(length, _ => 0)];
      }
    }

    /** The loop of `send_handler`: copy batches to the staging buffer and send them until one stays
        in flight or none is left. */
    method SendBatches(j: nat, buffer: nat, first: nat, stop: nat) returns (ibatch: nat, inFlight: bool)
      requires j in xfers && xfers[j].Outgoing? && xfers[j].per > 0
      requires j < |out| && buffer in staging
      modifies this`staging, this`out
      ensures E.Progress(View(), ibatch, inFlight) == E.PostBatches(old(View()), j, buffer, first, stop)
    {
      hide E.PostBatches;
      var x := xfers[j];
      ibatch, inFlight := first, false;
      var remaining := |x.data| - x.per * ibatch;
      ghost var all := E.PostBatches(View(), j, buffer, first, stop);
      while remaining > 0
        invariant |out| == |old(out)| && buffer in staging
        invariant remaining == |x.data| - x.per * ibatch || (remaining <= 0 && |x.data| <= x.per * ibatch)
        invariant E.PostBatches(View(), j, buffer, ibatch, stop) == all
        decreases remaining
      {
        var len := if remaining < x.per then remaining else x.per;
        var sent := x.per * ibatch;
        S.LoopTurn(View(), j, buffer, ibatch, stop);
        ghost var before, piece := View(), Piece(x.data, x.per, ibatch);
        assert piece == x.data[sent..sent + len];
        staging := staging[buffer := E.Put(staging[buffer], x.data[sent..sent + len])];
        if ibatch >= stop {
          inFlight := true;
          return;
        }
        assert staging[buffer][..len] == piece;
        out := out[j := out[j] + [Batch(staging[buffer][..len])]];
        A.MulNext(x.per, ibatch);
        ibatch := ibatch + 1;
        remaining := remaining - len;
      }
      S.LoopEnd(View(), j, buffer, ibatch, stop);
    }

    /** `send_handler`: hand the transfer on to the request in flight, or complete it. */
    method SendHandler(h: nat, stop: nat, q: nat)
      requires E.SendReady(View(), h) && E.Allocatable(View(), q)
      modifies this
      ensures View() == E.SendHandler(old(View()), h, stop, q)
    {
      var info := handles[h];
      var j, buffer := info.slot, info.buffer.value;
      E.PostBatchesFrame(View(), j, buffer, info.ibatch, stop);
      var ibatch, inFlight := SendBatches(j, buffer, info.ibatch, stop);
      if inFlight {
        var x := xfers[j];
        var place := E.Staging(buffer, E.BatchLength(|x.data|, x.per, ibatch));
        xfers := xfers[j := E.WithOp(x, E.Posted(q, place))];
        Allocate(q);
        handles := handles[q := info.(ibatch := ibatch + 1, custom := false)];
      } else {
        var user := info.orig.id;
        handles := handles[user := handles[user].(completed := true)];
      }
      FreeIfInternal(h);
    }

    method Allocate(q: nat)
      requires E.Allocatable(View(), q)
      modifies this`handles, this`free
      ensures View() == E.Allocate(old(View()), q)
    {
      if q in handles {
        free := free - {q};
      } else {
        handles := handles[q := E.InitialInfo()];
      }
    }

    method FreeIfInternal(h: nat)
      requires E.Live(View(), h)
      modifies this`handles, this`free
      ensures View() == E.FreeIfInternal(old(View()), h)
    {
      var info := handles[h];
      if info.orig != E.Handle(h) {
        handles := handles[h := info.(completed := false, orig := E.Null, custom := false)];
        free := free + {h};
      }
    }

    /** `send`: post the count, take a buffer, and run the handler at once when the count is out.
        `ok` is false when the pool is empty and `send` throws. */
    method Send(j: nat, data: seq<Elem>, per: nat, u: nat, immediate: bool, raw: E.Info, stop: nat, q: nat)
      returns (ok: bool)
      requires per > 0 && j < |out| && j !in xfers
      requires if immediate then u !in handles else E.Allocatable(View(), u)
      requires E.Allocatable(View(), q) && q != u
      requires forall b :: b in bufferCache ==> b in staging
      requires if immediate then u !in free else u in handles ==> !handles[u].custom
      modifies this
      ensures var r := E.Send(old(View()), j, data, per, u, immediate, raw, stop, q);
              ok ==> r == Some(View())
      ensures !ok <==> old(bufferCache) == []
    {
      if immediate {
        out := out[j := out[j] + [Count(|data|)]];
        handles := handles[u := raw.(custom := true, completed := false)];
      } else {
        Allocate(u);
      }
      if bufferCache == [] {
        return false;
      }
      Enlist(j, u, E.Outgoing(u, if immediate then E.Idle else E.Posted(u, E.CountCell), per, data));
      if handles[u].custom {
        SendHandler(u, stop, q);
      }
      ok := true;
    }

    method Enlist(j: nat, u: nat, x: E.Xfer)
      requires bufferCache != [] && u in handles
      modifies this
      ensures View() == E.Enlist(old(View()), j, u, x)
    {
      var info := handles[u].(buffer := Some(bufferCache[0]), slot := j, ibatch := 0, orig := E.Handle(u));
      bufferCache := bufferCache[1..];
      handles := handles[u := info];
      xfers := xfers[j := x];
      pc := pc + 1;
    }

    // ---------- receiving ----------

    /** UCX matches a message with the receive of slot `j`. */
    method Land(j: nat, place: E.Place, m: Message)
      requires j in xfers && xfers[j].Incoming?
      requires |out| <= j < |out| + |taken|
      requires place.Staging? ==> place.buffer in staging
      modifies this`taken, this`xfers, this`staging
      ensures View() == E.Land(old(View()), j, place, m)
    {
      taken := taken[j - |out| := taken[j - |out|] + 1];
      match place
      case CountCell =>
        xfers := xfers[j := xfers[j].(count := if m.Count? then m.n else 0)];
      case Staging(b, len) =>
        staging := staging[b := E.Put(staging[b], E.Take(E.Items(m), len))];
    }

    /** Post the receive of the next batch; `called` is the test whether the callback ran in between. */
    method PostNext(h: nat, q: nat, len: nat, early: bool, inbox: seq<Message>) returns (called: bool)
      requires E.RecvReady(View(), h) && E.Allocatable(View(), q)
      requires q in free ==> q in handles && handles[q].orig == E.Null
      requires early ==> inbox != []
      modifies this
      ensures (View(), called) == E.PostNext(old(View()), h, q, len, early, inbox)
    {
      var info := handles[h];
      var j, b := info.slot, info.buffer.value;
      xfers := xfers[j := E.WithOp(xfers[j], if early then E.Idle else E.Posted(q, E.Staging(b, len)))];
      Allocate(q);
      if early {
        Land(j, E.Staging(b, len), inbox[0]);
        handles := handles[q := handles[q].(orig := E.Marked)];
      }
      called := handles[q].orig != E.Null;
      info := info.(ibatch := info.ibatch + 1);
      handles := handles[h := info][q := info];
    }

    /** `recv_handler`: unload the finished batch, post the next one, and call itself when that one
        has arrived already. */
    method RecvHandler(h: nat, inbox: seq<Message>, plan: seq<nat>)
      requires E.RecvReady(View(), h) && E.PlanReady(View(), plan, inbox)
      modifies this
      ensures View() == E.RecvHandler(old(View()), h, inbox, plan)
      decreases E.Left(View(), h)
    {
      var info := handles[h];
      var j := info.slot;
      E.UnloadReady(View(), h);
      xfers := xfers[j := E.Unloaded(xfers[j], info.ibatch, staging[info.buffer.value])];
      var len := E.BatchLength(xfers[j].count, xfers[j].per, info.ibatch);
      if len > 0 {
        E.PostNextReady(View(), h, inbox, plan, len);
        var called := PostNext(h, plan[0], len, |plan| > 1, inbox);
        if called {
          RecvHandler(plan[0], inbox[1..], plan[1..]);
        }
      } else {
        var user := info.orig.id;
        handles := handles[user := handles[user].(completed := true)];
      }
      FreeIfInternal(h);
    }

    /** `recv_helper` up to the manual call of the handler: post the receive of the count, take a
        buffer, fill in the handle. With `early` the count, `m`, is there already. */
    method PostCount(j: nat, dst: Option<seq<Elem>>, per: nat, u: nat, early: bool, m: Message)
      returns (ok: bool, called: bool)
      requires per > 0 && |out| <= j < |out| + |taken| && j !in xfers
      requires E.Allocatable(View(), u)
      requires u in free ==> u in handles && handles[u].orig == E.Null
      modifies this
      ensures ok <==> old(bufferCache) != []
      ensures ok && early ==> View() == P.EarlyStart(old(View()), j, dst, per, u, m)
      ensures ok && !early ==> E.Recv(old(View()), j, dst, per, u, [], []) == Some(View())
      ensures called == early
    {
      Allocate(u);
      if early {
        handles := handles[u := handles[u].(orig := E.Marked)];
      }
      called := handles[u].orig != E.Null;
      if bufferCache == [] {
        return false, called;
      }
      handles := handles[u := handles[u].(custom := false)];
      Enlist(j, u, E.Incoming(u, if early then E.Idle else E.Posted(u, E.CountCell), per, 0, dst));
      if early {
        Land(j, E.CountCell, m);
      }
      ok := true;
    }

    /** `recv_helper`. `ok` is false when the pool is empty and it throws. */
    method RecvHelper(j: nat, dst: Option<seq<Elem>>, per: nat, u: nat, inbox: seq<Message>, plan: seq<nat>)
      returns (ok: bool)
      requires per > 0 && |out| <= j < |out| + |taken| && j !in xfers
      requires E.Allocatable(View(), u) && u !in plan
      requires u in handles ==> handles[u].orig == E.Null
      requires plan != [] ==> inbox != [] && E.PlanReady(View(), plan, inbox[1..])
      requires plan != [] ==> dst.Some? ==> inbox[0] == Count(|dst.value|)
      requires u in free ==> u in handles
      requires forall b :: b in bufferCache ==> b in staging
      modifies this
      ensures ok ==> E.Recv(old(View()), j, dst, per, u, inbox, plan) == Some(View())
      ensures !ok <==> old(bufferCache) == []
    {
      hide E.RecvHandler, E.PlanReady;
      var called;
      ok, called := PostCount(j, dst, per, u, plan != [], if plan != [] then inbox[0] else Count(0));
      if ok && called {
        P.StartReady(old(View()), j, dst, per, u, inbox[0]);
        P.PlanKept(old(View()), View(), u, plan, inbox[1..]);
        P.RecvIs(old(View()), j, dst, per, u, inbox, plan);
        RecvHandler(u, inbox[1..], plan);
      }
    }

    // ---------- the calls and callbacks of a round ----------

    /** `send` as a round makes it: the pool has a buffer, and the object is in order afterwards. */
    method PostSend(ghost p: Program, ghost a: nat, data: seq<Elem>, per: nat, u: nat, immediate: bool, raw: E.Info,
        stop: nat, q: nat)
      requires S.Due(p, a, View(), pc) && pc < p.n
      requires data == R.Expected(p, a, pc, round).value && per == p.rounds[round].per
      requires if immediate then u !in handles else E.Allocatable(View(), u)
      requires E.Allocatable(View(), q) && q != u
      modifies this
      ensures R.RankInv(p, a, View()) && pc == old(pc) + 1 && round == old(round)
    {
      hide R.RankInv, E.Send, E.SendHandler, E.SendReady, T.Touches, S.Due;
      S.DueFacts(p, a, View(), pc);
      S.SendKeeps(p, a, View(), pc, u, immediate, raw, stop, q);
      T.SendTouches(View(), pc, data, per, u, immediate, raw, stop, q);
      ghost var st := View();
      var ok := Send(pc, data, per, u, immediate, raw, stop, q);
      SameRound(st, View(), st.pc, st.cache[0]);
    }

    /** `recv` as a round makes it, with whatever has arrived early. */
    method PostRecv(ghost p: Program, ghost a: nat, dst: Option<seq<Elem>>, per: nat, u: nat, inbox: seq<Message>, plan: seq<nat>)
      requires S.Due(p, a, View(), pc) && p.n <= pc < 2 * p.n && per == p.rounds[round].per
      requires dst.Some? ==> |dst.value| == |R.Expected(p, a, pc, round).value|
      requires E.Allocatable(View(), u) && u !in plan
      requires plan != [] ==> inbox != [] && E.PlanReady(View(), plan, inbox[1..])
      requires P.Continues(p, a, pc, round, 0, inbox)
      modifies this
      ensures R.RankInv(p, a, View()) && pc == old(pc) + 1 && round == old(round)
    {
      hide R.RankInv, E.Recv, E.RecvHandler, E.PlanReady, E.RecvReady, T.Touches, S.Due;
      S.DueFacts(p, a, View(), pc);
      P.RecvKeeps(p, a, View(), pc, dst, u, inbox, plan);
      T.RecvTouches(View(), pc, dst, per, u, inbox, plan);
      ghost var st := View();
      var ok := RecvHelper(pc, dst, per, u, inbox, plan);
      SameRound(st, View(), st.pc, st.cache[0]);
    }

    /** UCX calls back for the send of slot `j`. */
    method SendCallback(ghost p: Program, ghost a: nat, j: nat, stop: nat, q: nat)
      requires R.RankInv(p, a, View()) && j < p.n && j in xfers && xfers[j].op.Landed? && E.Allocatable(View(), q)
      modifies this
      ensures R.RankInv(p, a, View())
    {
      hide R.RankInv, R.Core, R.SlotsOk, E.SendHandler;
      var h := xfers[j].op.request;
      H.ResumeKeeps(p, a, View(), j, h);
      xfers := xfers[j := E.WithOp(xfers[j], E.Idle)];
      S.SendHandlerKeeps(p, a, View(), j, h, stop, q);
      SendHandler(h, stop, q);
    }

    /** UCX calls back for the receive of slot `j`, and the messages in `inbox` are there already. */
    method RecvCallback(ghost p: Program, ghost a: nat, j: nat, inbox: seq<Message>, plan: seq<nat>)
      requires R.RankInv(p, a, View()) && p.n <= j < 2 * p.n && j in xfers && xfers[j].op.Landed?
      requires round < |p.rounds| && E.PlanReady(View(), plan, inbox)
      requires xfers[j].op.request in handles
               ==> P.Continues(p, a, j, round, handles[xfers[j].op.request].ibatch + 1, inbox)
      modifies this
      ensures R.RankInv(p, a, View())
    {
      hide R.RankInv, R.Core, R.SlotsOk, E.RecvHandler;
      var h := xfers[j].op.request;
      H.ResumeKeeps(p, a, View(), j, h);
      xfers := xfers[j := E.WithOp(xfers[j], E.Idle)];
      ghost var k, extra := handles[h].ibatch, H.ExtraOf(View(), j, h);
      S.RunningReady(p, a, View(), j, h, k, extra);
      P.RecvHandlerKeeps(p, a, View(), j, h, k, extra, inbox, plan);
      assert extra - {h} == {};
      W.Together(p, a, E.RecvHandler(View(), h, inbox, plan));
      RecvHandler(h, inbox, plan);
    }

    // ---------- waitall ----------

    /** One scan of the polling loop of `waitall`. */
    method AllFinished() returns (finished: bool)
      requires forall j :: j in xfers ==> j < 2 * |out| && xfers[j].user in handles
      ensures finished <==> E.AllCompleted(View())
    {
      finished := true;
      var j := 0;
      while j < 2 * |out|
        invariant j <= 2 * |out|
        invariant finished <==> forall i :: i in xfers && i < j ==> handles[xfers[i].user].completed
      {
        if j in xfers && !handles[xfers[j].user].completed {
          finished := false;
          break;
        }
        j := j + 1;
      }
    }

    /** The loop that ends `waitall`: all buffers go back to the end of the queue, and what was received
        stays. Of the handles, those from malloc are gone, and all others are free requests of UCX. */
    method ReleaseAll(ghost p: Program, ghost a: nat)
      requires R.RankInv(p, a, View()) && E.AllCompleted(View()) && pc == 2 * p.n && round < |p.rounds|
      modifies this
      ensures R.RankInv(p, a, View()) && pc == 4 * p.n && round == old(round)
      ensures xfers == map[] && |bufferCache| == p.buffers && free == handles.Keys
      ensures forall h :: h in free <==> h in old(handles) && !old(handles)[h].custom
      ensures old(bufferCache) <= bufferCache
      ensures out == old(out) && taken == old(taken)
    {
      hide R.RankInv, E.AllCompleted, E.ReleaseSlot;
      var j := 0;
      ghost var first := View();
      W.RankShape(p, a, View());
      O.PartwayStarts(p, a, View());
      while j < 2 * |out|
        invariant R.RankInv(p, a, View()) && E.AllCompleted(View())
        invariant out == old(out) && taken == old(taken) && round == old(round)
        invariant j <= 2 * p.n && pc == 2 * p.n + j
        invariant O.Partway(first, View())
      {
        W.TurnKeeps(p, a, View(), j);
        if j in xfers {
          W.DistinctUsers(p, a, View(), j);
          O.PartwayOn(first, View(), j);
          ReleaseSlot(j);
        } else {
          pc := pc + 1;
        }
        j := j + 1;
      }
      W.NextRoundKeeps(p, a, View(), staging);
    }

    method ReleaseSlot(j: nat)
      requires j in xfers && E.Live(View(), xfers[j].user) && handles[xfers[j].user].buffer.Some?
      modifies this
      ensures View() == E.ReleaseSlot(old(View()), j)
      ensures out == old(out) && taken == old(taken) && round == old(round)
    {
      var x := xfers[j];
      var info := handles[x.user];
      bufferCache := bufferCache + [info.buffer.value];
      xfers := xfers - {j};
      pc := pc + 1;
      if x.Incoming? && |out| <= j {
        got := got[(round, j - |out|) := x.dst];
      }
      if info.custom {
        handles := handles - {x.user};
      } else {
        handles := handles[x.user := info.(completed := false, orig := E.Null, buffer := None)];
        free := free + {x.user};
      }
    }
  }
}
