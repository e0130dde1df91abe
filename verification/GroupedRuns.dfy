/** The exchanges on top of the unbuffered communicator: the sizes, which go one message a pair, and the
    columns of a table, which go several messages of one tag a pair when the communicator groups by
    batch. */
module GroupedRuns {
  import opened Wire
  import opened Groups
  import opened AllToAll
  import opened AllToAllComm
  import U = Unbuffered

  /** One of the buffers that `all_to_all_comm` is handed, with its offsets, at every rank. */
  datatype Buffer = Buffer(tables: seq<seq<Elem>>, offs: seq<seq<nat>>)

  ghost predicate AllCollective(buffers: seq<Buffer>, n: nat, grid: nat, stride: nat) {
    && grid > 0 && stride > 0 && grid % stride == 0 && n % grid == 0
    && forall c :: 0 <= c < |buffers| ==> |buffers[c].tables| == n && Collective(buffers[c].tables, buffers[c].offs, grid, stride)
  }

  /** What rank `a` sends to rank `b` between `start` and `stop`: one slice of every buffer, in order. */
  ghost function SlicesFor(buffers: seq<Buffer>, n: nat, grid: nat, stride: nat, explicitCopy: bool, a: nat, b: nat): seq<seq<Elem>>
    requires AllCollective(buffers, n, grid, stride) && a < n && b < n
  {
    if SameGroup(a, b, grid, stride) && !(explicitCopy && a == b) then
      MemberOf(b, a, grid, stride, n);
      seq(|buffers|, c requires 0 <= c < |buffers| =>
        Slice(buffers[c].tables[a], buffers[c].offs[a], GroupOf(b, grid, stride).LocalIdx()))
    else []
  }

  /** Round `r` is the exchange of these buffers. */
  ghost predicate GroupedRound(p: U.Program, r: nat, buffers: seq<Buffer>, grid: nat, stride: nat, explicitCopy: bool) {
    && U.Valid(p) && r < |p.data| && AllCollective(buffers, p.n, grid, stride)
    && forall a, b :: 0 <= a < p.n && 0 <= b < p.n ==>
         p.data[r][a][b] == SlicesFor(buffers, p.n, grid, stride, explicitCopy, a, b)
  }

  lemma SlicesDue(buffers: seq<Buffer>, n: nat, grid: nat, stride: nat, explicitCopy: bool, b: nat, m: nat, c: nat)
    requires AllCollective(buffers, n, grid, stride) && b < n && m < grid / stride && c < |buffers|
    requires !(explicitCopy && GroupOf(b, grid, stride).GlobalRank(m) == b)
    ensures 0 <= GroupOf(b, grid, stride).GlobalRank(m) < n
    ensures var sent := SlicesFor(buffers, n, grid, stride, explicitCopy, GroupOf(b, grid, stride).GlobalRank(m), b);
            |sent| == |buffers| && sent[c] == Due(buffers[c].tables, buffers[c].offs, grid, stride, b)[m]
  {
    hide Slice;
    GroupsAgree(GroupOf(b, grid, stride), n, m);
    assert SameGroup(GroupOf(b, grid, stride).GlobalRank(m), b, grid, stride);
  }

  /** In every state of every run, what rank `b` received in a round it has left from member `m` of its
      group is the slice due to it, buffer by buffer. */
  lemma GroupedArrive(p: U.Program, gs: seq<seq<U.Rank>>, i: nat, r: nat, b: nat, m: nat, c: nat,
      buffers: seq<Buffer>, grid: nat, stride: nat, explicitCopy: bool)
    requires U.Run(p, gs) && i < |gs| && U.Shape(p, gs[i]) && b < p.n && r < gs[i][b].round
    requires GroupedRound(p, r, buffers, grid, stride, explicitCopy) && c < |buffers| && m < grid / stride
    requires !(explicitCopy && GroupOf(b, grid, stride).GlobalRank(m) == b)
    ensures 0 <= GroupOf(b, grid, stride).GlobalRank(m) < p.n
    ensures var a, k := GroupOf(b, grid, stride).GlobalRank(m), |U.Stream(p, GroupOf(b, grid, stride).GlobalRank(m), b, r)| + c;
            k < |gs[i][b].got[a]| && gs[i][b].got[a][k] == Due(buffers[c].tables, buffers[c].offs, grid, stride, b)[m]
  {
    hide U.Run, U.Stream, U.Shape, SlicesFor, Due, SameGroup, Collective, CommunicationGroup.GlobalRank;
    SlicesDue(buffers, p.n, grid, stride, explicitCopy, b, m, c);
    var a := GroupOf(b, grid, stride).GlobalRank(m);
    ShapeSizes(p, gs[i], a, b);
    U.RoundsNeverMix(p, gs, i, a, b, r);
    U.StreamGrows(p, a, b, r, r + 1);
    PartOf(gs[i][b].got[a], |U.Stream(p, a, b, r)|, |U.Stream(p, a, b, r + 1)|, c);
  }

  lemma ShapeSizes(p: U.Program, g: seq<U.Rank>, a: nat, b: nat)
    requires U.Shape(p, g) && a < p.n && b < p.n
    ensures |g| == p.n && |g[b].got| == p.n && g[b].round <= |p.data|
  {
  }

  lemma PartOf<T>(s: seq<T>, lo: nat, hi: nat, c: nat)
    requires lo <= hi <= |s| && c < |s[lo..hi]|
    ensures lo + c < |s| && s[lo + c] == s[lo..hi][c]
  {
  }

  /** Round `r` is the exchange of the sizes of the slices of one buffer: one number a pair. */
  ghost predicate SizesRound(p: U.Program, r: nat, tables: seq<seq<Elem>>, offs: seq<seq<nat>>, grid: nat, stride: nat) {
    && U.Valid(p) && r < |p.data| && |tables| == p.n && Collective(tables, offs, grid, stride)
    && forall a, b :: 0 <= a < p.n && 0 <= b < p.n ==> p.data[r][a][b] == SizeFor(tables, offs, grid, stride, a, b)
  }

  ghost function SizeFor(tables: seq<seq<Elem>>, offs: seq<seq<nat>>, grid: nat, stride: nat, a: nat, b: nat): seq<seq<Elem>>
    requires Collective(tables, offs, grid, stride) && a < |tables| && b < |tables|
  {
    if SameGroup(a, b, grid, stride) then
      MemberOf(b, a, grid, stride, |tables|);
      var j := GroupOf(b, grid, stride).LocalIdx();
      [[offs[a][j + 1] - offs[a][j]]]
    else []
  }

  /** The sends of `communicate_sizes` at rank `a` are row `a` of such a round: one number to every member of
      its group, and nothing to any other rank. */
  method SendSizes(tables: seq<seq<Elem>>, offs: seq<seq<nat>>, grid: nat, stride: nat, a: nat) returns (counts: map<nat, nat>)
    requires Collective(tables, offs, grid, stride) && a < |tables|
    ensures forall b :: b in counts ==> b < |tables|
    ensures forall b :: 0 <= b < |tables| ==>
              SizeFor(tables, offs, grid, stride, a, b) == if b in counts then [[counts[b]]] else []
  {
    hide SizeFor, CommunicationGroup.GlobalRank;
    counts := SendCounts(offs[a], GroupOf(a, grid, stride), |tables|);
    forall j | 0 <= j < grid / stride ensures GroupOf(a, grid, stride).GlobalRank(j) < |tables| {
      GroupsAgree(GroupOf(a, grid, stride), |tables|, j);
    }
    forall b | 0 <= b < |tables|
      ensures SizeFor(tables, offs, grid, stride, a, b) == if b in counts then [[counts[b]]] else []
    {
      SizeSent(tables, offs, grid, stride, a, b);
      if b in counts {
        var j :| 0 <= j < grid / stride && GroupOf(a, grid, stride).GlobalRank(j) == b;
        assert counts[b] == offs[a][j + 1] - offs[a][j];
      }
    }
  }

  lemma SizeSent(tables: seq<seq<Elem>>, offs: seq<seq<nat>>, grid: nat, stride: nat, a: nat, b: nat)
    requires Collective(tables, offs, grid, stride) && a < |tables| && b < |tables|
    ensures SizeFor(tables, offs, grid, stride, a, b) != [] <==>
              exists j :: 0 <= j < grid / stride && GroupOf(a, grid, stride).GlobalRank(j) == b
    ensures forall j :: 0 <= j < grid / stride && GroupOf(a, grid, stride).GlobalRank(j) == b ==>
              offs[a][j] <= offs[a][j + 1] && SizeFor(tables, offs, grid, stride, a, b) == [[offs[a][j + 1] - offs[a][j]]]
  {
    if SameGroup(a, b, grid, stride) { MemberOf(b, a, grid, stride, |tables|); }
    forall j | 0 <= j < grid / stride && GroupOf(a, grid, stride).GlobalRank(j) == b
      ensures SameGroup(a, b, grid, stride) && j == GroupOf(b, grid, stride).LocalIdx()
    {
      GroupsAgree(GroupOf(a, grid, stride), |tables|, j);
    }
  }

  /** However many size exchanges follow each other with one tag, the count a rank receives from a member
      in a round is the length of the slice due to it in that round. */
  lemma SizesArrive(p: U.Program, gs: seq<seq<U.Rank>>, i: nat, r: nat, b: nat, m: nat,
      tables: seq<seq<Elem>>, offs: seq<seq<nat>>, grid: nat, stride: nat)
    requires U.Run(p, gs) && i < |gs| && U.Shape(p, gs[i]) && b < p.n && r < gs[i][b].round
    requires SizesRound(p, r, tables, offs, grid, stride) && m < grid / stride
    ensures 0 <= GroupOf(b, grid, stride).GlobalRank(m) < p.n
    ensures var a := GroupOf(b, grid, stride).GlobalRank(m);
            |U.Stream(p, a, b, r)| <= |U.Stream(p, a, b, r + 1)| <= |gs[i][b].got[a]|
            && gs[i][b].got[a][|U.Stream(p, a, b, r)|..|U.Stream(p, a, b, r + 1)|]
               == [[|Due(tables, offs, grid, stride, b)[m]|]]
  {
    hide U.Run;
    var group := GroupOf(b, grid, stride);
    GroupsAgree(group, p.n, m);
    var a := group.GlobalRank(m);
    U.RoundsNeverMix(p, gs, i, a, b, r);
    assert SameGroup(a, b, grid, stride);
    assert p.data[r][a][b] == SizeFor(tables, offs, grid, stride, a, b);
  }
}
