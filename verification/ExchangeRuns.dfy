/** The exchange on top of the protocol: a round of the buffered communicator, run under any schedule,
    hands every rank the slices it is due. */
module ExchangeRuns {
  import opened Wire
  import opened Endpoint
  import opened Rounds
  import opened RankInvariant
  import opened Runs
  import opened Tables
  import opened Groups
  import opened AllToAll
  import opened AllToAllComm

  /** What `send_data_by_offset` and `recv_data_by_offset` start between every pair of ranks. */
  ghost function RoundOf(tables: seq<seq<Elem>>, offs: seq<seq<nat>>, grid: nat, stride: nat, per: nat, explicitCopy: bool)
    : Round
    requires Collective(tables, offs, grid, stride)
  {
    var n := |tables|;
    Round(per, seq(n, a requires 0 <= a < n =>
      seq(n, b requires 0 <= b < n => SliceFor(tables, offs, grid, stride, explicitCopy, a, b))))
  }

  ghost function SliceFor(tables: seq<seq<Elem>>, offs: seq<seq<nat>>, grid: nat, stride: nat, explicitCopy: bool,
      a: nat, b: nat): Option<seq<Elem>>
    requires Collective(tables, offs, grid, stride) && a < |tables| && b < |tables|
  {
    if SameGroup(a, b, grid, stride) && !(explicitCopy && a == b) then
      MemberOf(b, a, grid, stride, |tables|);
      Some(Slice(tables[a], offs[a], GroupOf(b, grid, stride).LocalIdx()))
    else None
  }

  /** Rank `b` is sent something by rank `a` exactly if it is a member of the group of `a`, other than `a`
      itself if the own slice is copied. */
  lemma SentToMembers(tables: seq<seq<Elem>>, offs: seq<seq<nat>>, grid: nat, stride: nat, explicitCopy: bool, a: nat, b: nat)
    requires Collective(tables, offs, grid, stride) && a < |tables| && b < |tables|
    ensures SliceFor(tables, offs, grid, stride, explicitCopy, a, b).Some? <==>
              exists j :: 0 <= j < grid / stride && GroupOf(a, grid, stride).GlobalRank(j) == b && !(explicitCopy && a == b)
    ensures forall j :: 0 <= j < grid / stride && GroupOf(a, grid, stride).GlobalRank(j) == b && !(explicitCopy && a == b) ==>
              SliceFor(tables, offs, grid, stride, explicitCopy, a, b) == Some(Slice(tables[a], offs[a], j))
  {
    if SameGroup(a, b, grid, stride) { MemberOf(b, a, grid, stride, |tables|); }
    forall j | 0 <= j < grid / stride && GroupOf(a, grid, stride).GlobalRank(j) == b
      ensures SameGroup(a, b, grid, stride) && j == GroupOf(b, grid, stride).LocalIdx()
    {
      GroupsAgree(GroupOf(a, grid, stride), |tables|, j);
    }
  }

  /** The sends of rank `a` are row `a` of the round that the protocol carries: it sends to the ranks that
      have a transfer from it, and to no other rank. */
  method SendRound(tables: seq<seq<Elem>>, offs: seq<seq<nat>>, grid: nat, stride: nat, ghost per: nat, explicitCopy: bool,
      a: nat) returns (mail: map<nat, seq<Elem>>)
    requires Collective(tables, offs, grid, stride) && a < |tables|
    ensures forall b :: b in mail ==> b < |tables|
    ensures forall b :: 0 <= b < |tables| ==>
              RoundOf(tables, offs, grid, stride, per, explicitCopy).data[a][b] == if b in mail then Some(mail[b]) else None
  {
    hide RoundOf, SliceFor, Slice;
    mail := SendDataByOffset(tables[a], offs[a], GroupOf(a, grid, stride), |tables|, !explicitCopy);
    forall j | 0 <= j < grid / stride ensures GroupOf(a, grid, stride).GlobalRank(j) < |tables| {
      GroupsAgree(GroupOf(a, grid, stride), |tables|, j);
    }
    RoundAt(tables, offs, grid, stride, per, explicitCopy, a);
    forall b | 0 <= b < |tables|
      ensures SliceFor(tables, offs, grid, stride, explicitCopy, a, b) == if b in mail then Some(mail[b]) else None
    {
      SentToMembers(tables, offs, grid, stride, explicitCopy, a, b);
    }
  }

  lemma RoundAt(tables: seq<seq<Elem>>, offs: seq<seq<nat>>, grid: nat, stride: nat, per: nat, explicitCopy: bool, a: nat)
    requires Collective(tables, offs, grid, stride) && a < |tables|
    ensures var data := RoundOf(tables, offs, grid, stride, per, explicitCopy).data;
            |data| == |data[a]| == |tables|
            && forall b :: 0 <= b < |tables| ==> data[a][b] == SliceFor(tables, offs, grid, stride, explicitCopy, a, b)
  {
    hide SliceFor;
  }

  /** The buffers rank `b` has received in round `r`, by source. */
  ghost function Arrivals(st: Rank, r: nat, n: nat): map<nat, seq<Elem>> {
    map a: nat | a < n && (r, a) in st.got :: Contents(st.got[(r, a)])
  }

  /** In every state of every run, a rank that has left round `r` has received from every member of
      its group the slice it was due. */
  lemma MemberDelivers(p: Program, gs: seq<seq<Rank>>, i: nat, r: nat, b: nat, m: nat,
      tables: seq<seq<Elem>>, offs: seq<seq<nat>>, grid: nat, stride: nat, explicitCopy: bool)
    requires Collective(tables, offs, grid, stride) && |tables| == p.n
    requires Run(p, gs) && i < |gs| && |gs[i]| == p.n && b < p.n && r < gs[i][b].round && r < |p.rounds|
    requires p.rounds[r] == RoundOf(tables, offs, grid, stride, p.rounds[r].per, explicitCopy)
    requires m < grid / stride && !(explicitCopy && GroupOf(b, grid, stride).GlobalRank(m) == b)
    ensures GroupOf(b, grid, stride).GlobalRank(m) in Arrivals(gs[i][b], r, p.n)
    ensures Arrivals(gs[i][b], r, p.n)[GroupOf(b, grid, stride).GlobalRank(m)] == Due(tables, offs, grid, stride, b)[m]
  {
    GroupsAgree(GroupOf(b, grid, stride), p.n, m);
    var a := GroupOf(b, grid, stride).GlobalRank(m);
    assert SameGroup(a, b, grid, stride);
    assert p.rounds[r].data[a][b] == SliceFor(tables, offs, grid, stride, explicitCopy, a, b);
    hide Run, RoundOf;
    DeliversEveryRound(p, gs, i, a, b, r);
  }

  /** Every slice due, but the own one if it is copied, is among the arrivals. */
  ghost predicate AllArrived(due: seq<seq<Elem>>, arrivals: map<nat, seq<Elem>>, group: CommunicationGroup, explicitCopy: bool)
    requires group.gridSize > 0 && group.stride > 0
  {
    && |due| == group.Size()
    && forall m :: 0 <= m < group.Size() && !(explicitCopy && group.GlobalRank(m) == group.mpiRank) ==>
         group.GlobalRank(m) in arrivals && arrivals[group.GlobalRank(m)] == due[m]
  }

  lemma RunsDeliver(p: Program, gs: seq<seq<Rank>>, i: nat, r: nat, b: nat,
      tables: seq<seq<Elem>>, offs: seq<seq<nat>>, grid: nat, stride: nat, explicitCopy: bool)
    requires Collective(tables, offs, grid, stride) && |tables| == p.n
    requires Run(p, gs) && i < |gs| && |gs[i]| == p.n && b < p.n && r < gs[i][b].round && r < |p.rounds|
    requires p.rounds[r] == RoundOf(tables, offs, grid, stride, p.rounds[r].per, explicitCopy)
    ensures AllArrived(Due(tables, offs, grid, stride, b), Arrivals(gs[i][b], r, p.n), GroupOf(b, grid, stride), explicitCopy)
  {
    hide Run, RoundOf, Arrivals, Slice, AllToAll.Incoming, Flatten;
    var group := GroupOf(b, grid, stride);
    forall m | 0 <= m < grid / stride && !(explicitCopy && group.GlobalRank(m) == b)
      ensures group.GlobalRank(m) in Arrivals(gs[i][b], r, p.n)
      ensures Arrivals(gs[i][b], r, p.n)[group.GlobalRank(m)] == Due(tables, offs, grid, stride, b)[m]
    {
      MemberDelivers(p, gs, i, r, b, m, tables, offs, grid, stride, explicitCopy);
    }
  }

  /** The protocol's half of the exchange: what has arrived is what `RecvDataByOffset` asks for, under
      every schedule and however far ahead or behind the other ranks are. */
  lemma RunsExchange(p: Program, gs: seq<seq<Rank>>, i: nat, r: nat, b: nat,
      tables: seq<seq<Elem>>, offs: seq<seq<nat>>, grid: nat, stride: nat, explicitCopy: bool)
    requires Collective(tables, offs, grid, stride) && |tables| == p.n
    requires Run(p, gs) && i < |gs| && |gs[i]| == p.n && b < p.n && r < gs[i][b].round && r < |p.rounds|
    requires p.rounds[r] == RoundOf(tables, offs, grid, stride, p.rounds[r].per, explicitCopy)
    ensures 0 <= GroupOf(b, grid, stride).LocalIdx() < grid / stride
    ensures AllToAllComm.Expected(Due(tables, offs, grid, stride, b),
              Slice(tables[b], offs[b], GroupOf(b, grid, stride).LocalIdx()),
              Arrivals(gs[i][b], r, p.n), GroupOf(b, grid, stride), explicitCopy)
    ensures Flatten(Due(tables, offs, grid, stride, b)) == Received(tables, offs, grid, stride, b)
  {
    hide Run, RoundOf, Arrivals, Due, Slice, Collective, CommunicationGroup.GlobalRank;
    DueOwn(tables, offs, grid, stride, b);
    RunsDeliver(p, gs, i, r, b, tables, offs, grid, stride, explicitCopy);
  }

  /** Both halves together: the table that rank `b` lays end to end from what the protocol brought it in
      round `r` is the one the exchange specifies. */
  method ReceiveTable(ghost p: Program, ghost gs: seq<seq<Rank>>, ghost i: nat, ghost r: nat, b: nat,
      tables: seq<seq<Elem>>, offs: seq<seq<nat>>, grid: nat, stride: nat, explicitCopy: bool,
      counts: seq<nat>, mail: map<nat, seq<Elem>>) returns (table: seq<Elem>)
    requires Collective(tables, offs, grid, stride) && |tables| == p.n
    requires Run(p, gs) && i < |gs| && |gs[i]| == p.n && b < p.n && r < gs[i][b].round && r < |p.rounds|
    requires p.rounds[r] == RoundOf(tables, offs, grid, stride, p.rounds[r].per, explicitCopy)
    requires Lengths(Due(tables, offs, grid, stride, b), counts)
    requires mail == Arrivals(gs[i][b], r, p.n)
    ensures table == Received(tables, offs, grid, stride, b)
  {
    hide Run, RoundOf, Arrivals, Due, Slice;
    RunsExchange(p, gs, i, r, b, tables, offs, grid, stride, explicitCopy);
    var comm, buf := AllToAllComm.Allocate(tables, offs, grid, stride, explicitCopy, b, counts);
    comm.RecvDataByOffset(buf, mail, Due(tables, offs, grid, stride, b));
    table := buf[..];
  }

  /** The table rank `b` lays end to end from its own slice and what has arrived in round `r`. */
  ghost function Assembly(st: Rank, r: nat, n: nat, own: seq<Elem>, group: CommunicationGroup): seq<Elem>
    requires group.WellFormed(n)
  {
    Flatten(seq(group.Size(), m requires 0 <= m < group.Size() =>
      if group.GlobalRank(m) == group.mpiRank then own
      else if group.GlobalRank(m) in Arrivals(st, r, n) then Arrivals(st, r, n)[group.GlobalRank(m)] else []))
  }

  ghost function OwnSlice(tables: seq<seq<Elem>>, offs: seq<seq<nat>>, grid: nat, stride: nat, b: nat): seq<Elem>
    requires Collective(tables, offs, grid, stride) && b < |tables|
  {
    DueOwn(tables, offs, grid, stride, b);
    Slice(tables[b], offs[b], GroupOf(b, grid, stride).LocalIdx())
  }

  /** The tables of all ranks after round `r`, as each of them lays it end to end. */
  ghost function Assemblies(g: seq<Rank>, r: nat, tables: seq<seq<Elem>>, offs: seq<seq<nat>>, grid: nat, stride: nat)
    : (out: seq<seq<Elem>>)
    requires Collective(tables, offs, grid, stride) && |g| == |tables|
    ensures |out| == |tables|
  {
    seq(|tables|, b requires 0 <= b < |tables| =>
      Assembly(g[b], r, |tables|, OwnSlice(tables, offs, grid, stride, b), GroupOf(b, grid, stride)))
  }

  /** Once all ranks have left round `r`, they hold what the exchange of that round specifies. */
  lemma RoundExchanges(p: Program, gs: seq<seq<Rank>>, i: nat, r: nat,
      tables: seq<seq<Elem>>, offs: seq<seq<nat>>, grid: nat, stride: nat)
    requires Collective(tables, offs, grid, stride) && |tables| == p.n
    requires Run(p, gs) && i < |gs| && |gs[i]| == p.n && r < |p.rounds|
    requires forall b :: 0 <= b < p.n ==> r < gs[i][b].round
    requires p.rounds[r] == RoundOf(tables, offs, grid, stride, p.rounds[r].per, true)
    ensures Assemblies(gs[i], r, tables, offs, grid, stride) == Exchange(tables, offs, grid, stride)
  {
    hide Run, RoundOf, Arrivals, Received, Due;
    forall b | 0 <= b < p.n
      ensures Assemblies(gs[i], r, tables, offs, grid, stride)[b] == Received(tables, offs, grid, stride, b)
    {
      RunsExchange(p, gs, i, r, b, tables, offs, grid, stride, true);
      AssemblyIs(gs[i][b], r, tables, offs, grid, stride, b);
    }
  }

  lemma AssemblyIs(st: Rank, r: nat, tables: seq<seq<Elem>>, offs: seq<seq<nat>>, grid: nat, stride: nat, b: nat)
    requires Collective(tables, offs, grid, stride) && b < |tables|
    requires AllToAllComm.Expected(Due(tables, offs, grid, stride, b), OwnSlice(tables, offs, grid, stride, b),
               Arrivals(st, r, |tables|), GroupOf(b, grid, stride), true)
    ensures Assembly(st, r, |tables|, OwnSlice(tables, offs, grid, stride, b), GroupOf(b, grid, stride))
         == Flatten(Due(tables, offs, grid, stride, b))
  {
    hide OwnSlice, Flatten, Arrivals, AllToAll.Incoming;
    var group, own, n := GroupOf(b, grid, stride), OwnSlice(tables, offs, grid, stride, b), |tables|;
    assert Due(tables, offs, grid, stride, b) ==
      seq(group.Size(), m requires 0 <= m < group.Size() =>
        if group.GlobalRank(m) == group.mpiRank then own
        else if group.GlobalRank(m) in Arrivals(st, r, n) then Arrivals(st, r, n)[group.GlobalRank(m)] else []);
  }
}
