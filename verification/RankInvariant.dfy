/** The invariant of one rank: where every transfer stands, that each handle is owned by exactly one
    transfer or is free and clean, and that each staging buffer is in one place. */
module RankInvariant {
  import opened Wire
  import opened Endpoint
  import opened Rounds

  /** Rank `a` of program `p`. */
  ghost predicate Member(p: Program, a: nat) {
    Valid(p) && a < p.n
  }

  ghost predicate Shape(p: Program, st: Rank) {
    && |st.out| == p.n && |st.taken| == p.n
    && st.round <= |p.rounds|
    && st.pc <= 4 * p.n
    && (st.round == |p.rounds| ==> st.pc == 0)
  }

  /** The pair of ranks slot `j` of rank `a` works for, and its data in round `r`. */
  function Source(p: Program, a: nat, j: nat): nat {
    if j < p.n then a else j - p.n
  }

  function Target(p: Program, a: nat, j: nat): nat {
    if j < p.n then j else a
  }

  ghost function Expected(p: Program, a: nat, j: nat, r: nat): Option<seq<Elem>>
    requires Member(p, a) && j < 2 * p.n && r < |p.rounds|
  {
    p.rounds[r].data[Source(p, a, j)][Target(p, a, j)]
  }

  ghost function SlotWire(p: Program, a: nat, j: nat, r: nat): seq<Message>
    requires Member(p, a) && j < 2 * p.n && r < |p.rounds|
  {
    WireOf(p, Source(p, a, j), Target(p, a, j), r)
  }

  ghost function SlotStream(p: Program, a: nat, j: nat, r: nat): seq<Message>
    requires Member(p, a) && j < 2 * p.n && r <= |p.rounds|
  {
    Stream(p, Source(p, a, j), Target(p, a, j), r)
  }

  /** While posting, the slots below `pc` are enlisted; while releasing, those not yet released. */
  ghost predicate Enlisted(p: Program, st: Rank, j: nat) {
    if st.pc <= 2 * p.n then j < st.pc else st.pc - 2 * p.n <= j
  }

  ghost predicate Clean(info: Info) {
    !info.completed && info.orig == Null && !info.custom
  }

  /** The request a callback for this transfer would come with. */
  function RequestOf(x: Xfer): nat {
    match x.op
    case Idle => x.user
    case Posted(q, _) => q
    case Landed(q) => q
  }

  /** Handle `h` belongs to a transfer: it is the user's handle, or the request in flight. */
  predicate Owns(st: Rank, h: nat)
    requires h in st.handles
  {
    && var j := st.handles[h].slot;
       && j in st.xfers
       && (h == st.xfers[j].user || h == RequestOf(st.xfers[j]))
  }

  /** Free handles are clean, and every other handle has an owner or is in `extra`, the handles of
      handler calls that have not returned. */
  ghost predicate HandlesOk(st: Rank, extra: set<nat>) {
    && (forall h :: h in st.free ==> h in st.handles && Clean(st.handles[h]))
    && (forall h :: Live(st, h) && h !in extra ==> Owns(st, h))
    && (forall h :: h in extra ==> Live(st, h) && !Owns(st, h))
  }

  /** The staging buffer held by slot `j`. */
  function BufferOf(st: Rank, j: nat): Option<nat>
    requires j in st.xfers
  {
    var u := st.xfers[j].user;
    if u in st.handles then st.handles[u].buffer else None
  }

  ghost predicate Distinct<T>(s: seq<T>) {
    forall i, j :: 0 <= i < j < |s| ==> s[i] != s[j]
  }

  /** Every staging buffer is in the cache or with one slot. */
  ghost predicate BuffersOk(p: Program, st: Rank) {
    && (forall b: nat :: b in st.staging <==> b < p.buffers)
    && Distinct(st.cache)
    && (forall b :: b in st.cache ==> b < p.buffers)
    && (forall j :: j in st.xfers ==> BufferOf(st, j).Some? && BufferOf(st, j).value < p.buffers
                                      && BufferOf(st, j).value !in st.cache)
    && (forall i, j :: i in st.xfers && j in st.xfers && i != j ==> BufferOf(st, i) != BufferOf(st, j))
    && |st.cache| + |st.xfers| == p.buffers
    && |st.xfers| <= st.pc
  }

  /** What the receives of earlier rounds left in the user's buffers. */
  ghost predicate GotOk(p: Program, a: nat, st: Rank)
    requires Member(p, a) && Shape(p, st)
  {
    forall r, s :: 0 <= r <= st.round && 0 <= s < p.n && r < |p.rounds|
      && (r < st.round || 3 * p.n + s < st.pc) && p.rounds[r].data[s][a].Some?
      ==> (r, s) in st.got && Contents(st.got[(r, s)]) == p.rounds[r].data[s][a].value
  }

  /** A null buffer holds no elements. */
  function Contents(dst: Option<seq<Elem>>): seq<Elem> {
    match dst
    case None => []
    case Some(d) => d
  }

  ghost predicate Core(p: Program, a: nat, st: Rank, extra: set<nat>) {
    && Member(p, a)
    && Shape(p, st)
    && HandlesOk(st, extra)
    && BuffersOk(p, st)
    && GotOk(p, a, st)
    && (forall j :: j in st.xfers ==> j < 2 * p.n)
  }

  /** Handle `h` carries transfer `j`: it is live and points to the user handle and its buffer. */
  ghost predicate Carries(st: Rank, j: nat, h: nat)
    requires j in st.xfers
  {
    && Live(st, h)
    && st.handles[h].orig == Handle(st.xfers[j].user)
    && st.handles[h].slot == j
    && st.handles[h].buffer == BufferOf(st, j)
  }

  /** Of the messages of this round, `m` went through the channel of slot `j`. */
  ghost predicate Passed(p: Program, a: nat, st: Rank, j: nat, m: nat)
    requires Member(p, a) && Shape(p, st) && j < 2 * p.n && st.round < |p.rounds|
  {
    && m <= |SlotWire(p, a, j, st.round)|
    && if j < p.n then st.out[j] == SlotStream(p, a, j, st.round) + SlotWire(p, a, j, st.round)[..m]
       else st.taken[j - p.n] == |SlotStream(p, a, j, st.round)| + m
  }

  /** The receive buffer holds the elements of the first `k` batches. */
  ghost predicate Holds(x: Xfer, d: seq<Elem>, k: nat)
    requires x.Incoming?
  {
    && x.count == |d|
    && (x.dst.Some? ==> |x.dst.value| == |d|)
    && (k > 0 ==> x.dst.Some?)
    && (x.dst.Some? ==> x.dst.value[..Min(x.per * k, |d|)] == d[..Min(x.per * k, |d|)])
  }

  /** The state of a transfer whose user handle, data and cut are those of the round. */
  ghost predicate Frame(p: Program, a: nat, st: Rank, j: nat)
    requires Member(p, a) && Shape(p, st) && j < 2 * p.n
  {
    && j in st.xfers
    && st.round < |p.rounds|
    && Expected(p, a, j, st.round).Some?
    && Enlisted(p, st, j)
    && Carries(st, j, st.xfers[j].user)
    && BufferOf(st, j).Some?
    && st.xfers[j].per == p.rounds[st.round].per
    && if j < p.n then st.xfers[j].Outgoing? && st.xfers[j].data == Expected(p, a, j, st.round).value
       else st.xfers[j].Incoming? && !st.handles[st.xfers[j].user].custom
  }

  /** Before the count arrives, a receive has the user's buffer and nothing else. */
  ghost predicate Fresh(x: Xfer, d: seq<Elem>) {
    x.Incoming? && (x.dst.Some? ==> |x.dst.value| == |d|)
  }

  /** The memory of an operation in flight. A send keeps its batch in the staging buffer until UCX
      has read it; a landed receive keeps its batch there until the callback. */
  ghost predicate InFlight(p: Program, a: nat, st: Rank, j: nat, h: nat)
    requires Member(p, a) && Shape(p, st) && j < 2 * p.n && Frame(p, a, st, j)
  {
    && Carries(st, j, h)
    && var x := st.xfers[j];
       var d := Expected(p, a, j, st.round).value;
       var b := BufferOf(st, j).value;
       var k := st.handles[h].ibatch;
       var w := SlotWire(p, a, j, st.round);
    && (h != x.user ==> !st.handles[h].custom)
    && !st.handles[x.user].completed
    && k < |w|
    && match x.op
       case Idle => false
       case Posted(q, place) =>
         && q == h
         && Passed(p, a, st, j, k)
         && (if k == 0 then place == CountCell
             else x.per * (k - 1) < |d| && place == Staging(b, BatchLength(|d|, x.per, k - 1)))
         && (j >= p.n ==> if k == 0 then Fresh(x, d) else Holds(x, d, k - 1) && x.dst.Some?)
         && (j < p.n && k > 0 ==> Staged(st, b, d, x.per, k - 1))
       case Landed(q) =>
         && q == h
         && Passed(p, a, st, j, k + 1)
         && (j >= p.n ==> Unloadable(st, x, b, d, k))
  }

  /** Staging buffer `b` starts with batch `k`. */
  ghost predicate Staged(st: Rank, b: nat, d: seq<Elem>, per: nat, k: nat) {
    && per * k < |d|
    && b in st.staging
    && |st.staging[b]| >= BatchLength(|d|, per, k)
    && st.staging[b][..BatchLength(|d|, per, k)] == Piece(d, per, k)
  }

  /** The handler can run for message `k` of a receive: the count is known, or batch `k - 1` is in
      the staging buffer. */
  ghost predicate Unloadable(st: Rank, x: Xfer, b: nat, d: seq<Elem>, k: nat) {
    && x.Incoming?
    && if k == 0 then Holds(x, d, 0)
       else Holds(x, d, k - 1) && x.dst.Some? && Staged(st, b, d, x.per, k - 1)
  }

  ghost predicate Finished(p: Program, a: nat, st: Rank, j: nat)
    requires Member(p, a) && Shape(p, st) && j < 2 * p.n && Frame(p, a, st, j)
  {
    var x := st.xfers[j];
    && x.op == Idle
    && st.handles[x.user].completed
    && Passed(p, a, st, j, |SlotWire(p, a, j, st.round)|)
    && (j >= p.n ==> Contents(x.dst) == Expected(p, a, j, st.round).value)
  }

  /** Slot `j` outside the window of enlisted slots: the channel stands at the edge of a round. */
  ghost predicate AtRest(p: Program, a: nat, st: Rank, j: nat)
    requires Member(p, a) && Shape(p, st) && j < 2 * p.n
  {
    && (st.round < |p.rounds| && Enlisted(p, st, j) ==> Expected(p, a, j, st.round).None?)
    && var r := if st.pc > 2 * p.n && j < st.pc - 2 * p.n then st.round + 1 else st.round;
       if j < p.n then st.out[j] == SlotStream(p, a, j, r)
       else st.taken[j - p.n] == |SlotStream(p, a, j, r)|
  }

  ghost predicate SlotOk(p: Program, a: nat, st: Rank, j: nat)
    requires Member(p, a) && Shape(p, st) && j < 2 * p.n
  {
    if j in st.xfers then
      && Frame(p, a, st, j)
      && (Finished(p, a, st, j) || (InFlight(p, a, st, j, RequestOf(st.xfers[j])) && st.pc <= 2 * p.n))
    else AtRest(p, a, st, j)
  }

  /** Every slot but `skip`. */
  ghost predicate SlotsOk(p: Program, a: nat, st: Rank, skip: nat)
    requires Member(p, a) && Shape(p, st)
  {
    forall j :: 0 <= j < 2 * p.n && j != skip ==> SlotOk(p, a, st, j)
  }

  /** The invariant of rank `a` between calls. */
  ghost predicate RankInv(p: Program, a: nat, st: Rank) {
    Core(p, a, st, {}) && SlotsOk(p, a, st, 2 * p.n)
  }

  lemma SlotFact(p: Program, a: nat, st: Rank, j: nat)
    requires RankInv(p, a, st) && j < 2 * p.n
    ensures Member(p, a) && Shape(p, st) && SlotOk(p, a, st, j)
  {
    hide HandlesOk, BuffersOk, GotOk, SlotOk;
  }

  /** The channel of a slot of a rank that has left all rounds. */
  ghost predicate AtEnd(p: Program, a: nat, st: Rank, j: nat)
    requires Member(p, a) && Shape(p, st) && j < 2 * p.n
  {
    if j < p.n then st.out[j] == SlotStream(p, a, j, |p.rounds|)
    else st.taken[j - p.n] == |SlotStream(p, a, j, |p.rounds|)|
  }

  /** Wherever a transfer stands, its channel carries the earlier rounds and a part of this one. */
  lemma ChannelAt(p: Program, a: nat, st: Rank, j: nat) returns (m: nat)
    requires RankInv(p, a, st) && j < 2 * p.n
    ensures Member(p, a) && Shape(p, st)
    ensures if st.round < |p.rounds| then Passed(p, a, st, j, m) else AtEnd(p, a, st, j)
  {
    hide RankInv, Stream, WireOf, Valid, Carries, BufferOf;
    SlotFact(p, a, st, j);
    m := 0;
    if st.round < |p.rounds| {
      var w := SlotWire(p, a, j, st.round);
      StreamStep(p, Source(p, a, j), Target(p, a, j), st.round);
      assert w[..0] == [] && w[..|w|] == w;
      if j !in st.xfers {
        if st.pc > 2 * p.n && j < st.pc - 2 * p.n { m := |w|; }
      } else if Finished(p, a, st, j) {
        m := |w|;
      } else {
        m := PassedInFlight(p, a, st, j);
      }
    }
  }

  lemma PassedInFlight(p: Program, a: nat, st: Rank, j: nat) returns (m: nat)
    requires Member(p, a) && Shape(p, st) && j < 2 * p.n && Frame(p, a, st, j)
    requires InFlight(p, a, st, j, RequestOf(st.xfers[j]))
    ensures Passed(p, a, st, j, m)
  {
    hide Stream, WireOf, Valid, BufferOf;
    var k := st.handles[RequestOf(st.xfers[j])].ibatch;
    m := if Passed(p, a, st, j, k) then k else k + 1;
  }

  /** The invariant inside a handler that runs for handle `h` of slot `j`, at message `k`. The
      handles in `extra` belong to handler calls around or at this one. */
  ghost predicate Running(p: Program, a: nat, st: Rank, j: nat, h: nat, k: nat, extra: set<nat>) {
    && Core(p, a, st, extra)
    && SlotsOk(p, a, st, j)
    && j < 2 * p.n
    && Frame(p, a, st, j)
    && st.pc <= 2 * p.n
    && Carries(st, j, h)
    && (h != st.xfers[j].user ==> h in extra && !st.handles[h].custom)
    && st.xfers[j].user !in extra
    && st.xfers[j].op == Idle
    && !st.handles[st.xfers[j].user].completed
    && (forall g :: g in extra ==> Carries(st, j, g))
    && k < |SlotWire(p, a, j, st.round)|
    && Passed(p, a, st, j, k + 1)
  }
}
