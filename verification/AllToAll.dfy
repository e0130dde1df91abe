/** All-to-all exchange: what every rank holds afterwards, and that no row is lost or doubled. */
module AllToAll {
  import opened Arith
  import opened Sums
  import opened Tables
  import opened Groups

  /** Offsets of `size` consecutive slices of a table of `n` rows. */
  ghost predicate Offsets(offs: seq<nat>, n: nat, size: nat) {
    && |offs| == size + 1
    && (forall i, j :: 0 <= i <= j <= size ==> offs[i] <= offs[j])
    && offs[size] <= n
  }

  function Slice<T>(t: seq<T>, offs: seq<nat>, j: nat): seq<T>
    requires j + 1 < |offs| && offs[j] <= offs[j + 1] <= |t|
  {
    t[offs[j]..offs[j + 1]]
  }

  function GroupOf(r: nat, grid: nat, stride: nat): CommunicationGroup {
    CommunicationGroup(r, grid, stride)
  }

  /** Every rank has a table and the offsets of one slice for each member of its group. */
  ghost predicate Collective<T>(tables: seq<seq<T>>, offs: seq<seq<nat>>, grid: nat, stride: nat) {
    && grid > 0 && stride > 0 && grid % stride == 0 && |tables| % grid == 0
    && |offs| == |tables|
    && forall a :: 0 <= a < |tables| ==> Offsets(offs[a], |tables[a]|, grid / stride)
  }

  /** The slice that member `i` of the group of rank `b` has for rank `b`. */
  ghost function Incoming<T>(tables: seq<seq<T>>, offs: seq<seq<nat>>, grid: nat, stride: nat, b: nat, i: nat): seq<T>
    requires Collective(tables, offs, grid, stride) && b < |tables| && i < grid / stride
  {
    GroupsAgree(GroupOf(b, grid, stride), |tables|, i);
    var a := GroupOf(b, grid, stride).GlobalRank(i);
    Slice(tables[a], offs[a], GroupOf(b, grid, stride).LocalIdx())
  }

  /** What rank `b` holds after the exchange: the slices of the members for it, in group order. */
  ghost function Received<T>(tables: seq<seq<T>>, offs: seq<seq<nat>>, grid: nat, stride: nat, b: nat): seq<T>
    requires Collective(tables, offs, grid, stride) && b < |tables|
  {
    Flatten(seq(grid / stride, i requires 0 <= i < grid / stride => Incoming(tables, offs, grid, stride, b, i)))
  }

  ghost function Exchange<T>(tables: seq<seq<T>>, offs: seq<seq<nat>>, grid: nat, stride: nat): seq<seq<T>>
    requires Collective(tables, offs, grid, stride)
  {
    seq(|tables|, b requires 0 <= b < |tables| => Received(tables, offs, grid, stride, b))
  }

  // ---------- rows are conserved ----------

  /** Every rank's group, for the ranks of a collective call. */
  ghost predicate SameGroup(a: nat, b: nat, grid: nat, stride: nat)
    requires grid > 0 && stride > 0
  {
    GroupOf(a, grid, stride).Start() == GroupOf(b, grid, stride).Start()
  }

  /** How often `x` travels from rank `a` to rank `b`. */
  ghost function Flow<T>(tables: seq<seq<T>>, offs: seq<seq<nat>>, grid: nat, stride: nat, x: T): (int, int) -> int
    requires Collective(tables, offs, grid, stride)
  {
    (a, b) =>
      if 0 <= a < |tables| && 0 <= b < |tables| && SameGroup(a, b, grid, stride)
      then SliceCount(tables, offs, x, a, GroupOf(b, grid, stride).LocalIdx()) else 0
  }

  ghost function SliceCount<T>(tables: seq<seq<T>>, offs: seq<seq<nat>>, x: T, a: int, j: int): int {
    if 0 <= a < |tables| && a < |offs| && 0 <= j && j + 1 < |offs[a]| && offs[a][j] <= offs[a][j + 1] <= |tables[a]|
    then multiset(Slice(tables[a], offs[a], j))[x] as int else 0
  }

  /** The members of the group of `b` are the ranks of its group, by number. */
  lemma MemberOf(a: nat, b: nat, grid: nat, stride: nat, n: nat)
    requires grid > 0 && stride > 0 && grid % stride == 0 && n % grid == 0 && a < n && b < n
    requires SameGroup(a, b, grid, stride)
    ensures 0 <= GroupOf(a, grid, stride).LocalIdx() < grid / stride
    ensures GroupOf(b, grid, stride).GlobalRank(GroupOf(a, grid, stride).LocalIdx()) == a
  {
    var q, m, s := Coordinates(grid, stride, a);
    CoordinatesGive(grid, stride, a, q, m, s);
    GroupsAgree(GroupOf(a, grid, stride), n, m);
  }

  lemma MembersDiffer(b: nat, grid: nat, stride: nat, n: nat, i: nat, j: nat)
    requires GroupOf(b, grid, stride).WellFormed(n) && i < grid / stride && j < grid / stride && i != j
    ensures GroupOf(b, grid, stride).GlobalRank(i) != GroupOf(b, grid, stride).GlobalRank(j)
  {
    GroupsAgree(GroupOf(b, grid, stride), n, i);
    GroupsAgree(GroupOf(b, grid, stride), n, j);
  }

  /** A sum over all ranks whose terms vanish outside the group of `b` is a sum over its members. */
  lemma SumOverGroup(b: nat, grid: nat, stride: nat, n: nat, h: int -> int)
    requires GroupOf(b, grid, stride).WellFormed(n)
    requires forall a :: 0 <= a < n && h(a) != 0 ==> SameGroup(a, b, grid, stride)
    ensures Sum(n, h) == Sum(grid / stride, i => h(GroupOf(b, grid, stride).GlobalRank(i)))
  {
    var g := GroupOf(b, grid, stride);
    var e := (i: int) => g.GlobalRank(i);
    forall i | 0 <= i < grid / stride ensures 0 <= e(i) < n { GroupsAgree(g, n, i); }
    forall i, j | 0 <= i < j < grid / stride ensures e(i) != e(j) { MembersDiffer(b, grid, stride, n, i, j); }
    forall a | 0 <= a < n && h(a) != 0 ensures exists i :: 0 <= i < grid / stride && e(i) == a {
      MemberOf(a, b, grid, stride, n);
      assert e(GroupOf(a, grid, stride).LocalIdx()) == a;
    }
    SumScatter(n, h, grid / stride, e);
    SumEq(grid / stride, Renumber(h, e), i => h(GroupOf(b, grid, stride).GlobalRank(i)));
  }

  lemma FlowToMember<T>(tables: seq<seq<T>>, offs: seq<seq<nat>>, grid: nat, stride: nat, a: nat, j: nat, x: T)
    requires Collective(tables, offs, grid, stride) && a < |tables| && j < grid / stride
    ensures Flow(tables, offs, grid, stride, x)(a, GroupOf(a, grid, stride).GlobalRank(j))
         == SliceCount(tables, offs, x, a, j)
  {
    GroupsAgree(GroupOf(a, grid, stride), |tables|, j);
  }

  lemma FlowFromMember<T>(tables: seq<seq<T>>, offs: seq<seq<nat>>, grid: nat, stride: nat, b: nat, i: nat, x: T)
    requires Collective(tables, offs, grid, stride) && b < |tables| && i < grid / stride
    ensures Flow(tables, offs, grid, stride, x)(GroupOf(b, grid, stride).GlobalRank(i), b)
         == multiset(Incoming(tables, offs, grid, stride, b, i))[x]
  {
    GroupsAgree(GroupOf(b, grid, stride), |tables|, i);
  }

  lemma FlowStays<T>(tables: seq<seq<T>>, offs: seq<seq<nat>>, grid: nat, stride: nat, a: int, b: int, x: T)
    requires Collective(tables, offs, grid, stride) && 0 <= a < |tables| && 0 <= b < |tables|
    requires Flow(tables, offs, grid, stride, x)(a, b) != 0
    ensures SameGroup(a, b, grid, stride) && SameGroup(b, a, grid, stride)
  {
  }

  /** What leaves rank `a`: the slices of its table, one after the other. */
  lemma Outflow<T>(tables: seq<seq<T>>, offs: seq<seq<nat>>, grid: nat, stride: nat, a: nat, x: T)
    requires Collective(tables, offs, grid, stride) && a < |tables|
    ensures Sum(|tables|, b => Flow(tables, offs, grid, stride, x)(a, b))
         == multiset(tables[a][offs[a][0]..offs[a][grid / stride]])[x]
  {
    hide Flow, SliceCount, SameGroup, Incoming, Slice;
    var n, k := |tables|, grid / stride;
    var h := (b: int) => Flow(tables, offs, grid, stride, x)(a, b);
    forall b | 0 <= b < n && h(b) != 0 ensures SameGroup(b, a, grid, stride) {
      FlowStays(tables, offs, grid, stride, a, b, x);
    }
    SumOverGroup(a, grid, stride, n, h);
    forall j | 0 <= j < k
      ensures h(GroupOf(a, grid, stride).GlobalRank(j)) == SliceCount(tables, offs, x, a, j)
    {
      FlowToMember(tables, offs, grid, stride, a, j, x);
    }
    SumEq(k, j => h(GroupOf(a, grid, stride).GlobalRank(j)), j => SliceCount(tables, offs, x, a, j));
    SlicesTile(tables, offs, grid, stride, a, k, x);
    SumEq(n, b => Flow(tables, offs, grid, stride, x)(a, b), h);
  }

  lemma {:induction false} SlicesTile<T>(tables: seq<seq<T>>, offs: seq<seq<nat>>, grid: nat, stride: nat,
      a: nat, k: nat, x: T)
    requires Collective(tables, offs, grid, stride) && a < |tables| && k <= grid / stride
    ensures Sum(k, j => SliceCount(tables, offs, x, a, j)) == multiset(tables[a][offs[a][0]..offs[a][k]])[x]
  {
    var o, t := offs[a], tables[a];
    if k > 0 {
      SlicesTile(tables, offs, grid, stride, a, k - 1, x);
      assert t[o[0]..o[k]] == t[o[0]..o[k - 1]] + t[o[k - 1]..o[k]];
    }
  }

  /** What reaches rank `b`: the tables it assembles. */
  lemma Inflow<T>(tables: seq<seq<T>>, offs: seq<seq<nat>>, grid: nat, stride: nat, b: nat, x: T)
    requires Collective(tables, offs, grid, stride) && b < |tables|
    ensures Sum(|tables|, a => Flow(tables, offs, grid, stride, x)(a, b))
         == multiset(Received(tables, offs, grid, stride, b))[x]
  {
    hide Flow, SliceCount, SameGroup, Incoming, Slice;
    var n, k := |tables|, grid / stride;
    var h := (a: int) => Flow(tables, offs, grid, stride, x)(a, b);
    var parts := seq(k, i requires 0 <= i < k => Incoming(tables, offs, grid, stride, b, i));
    forall a | 0 <= a < n && h(a) != 0 ensures SameGroup(a, b, grid, stride) {
      FlowStays(tables, offs, grid, stride, a, b, x);
    }
    SumOverGroup(b, grid, stride, n, h);
    forall i | 0 <= i < k
      ensures h(GroupOf(b, grid, stride).GlobalRank(i)) == In(parts, x)(i)
    {
      FlowFromMember(tables, offs, grid, stride, b, i, x);
    }
    SumEq(k, i => h(GroupOf(b, grid, stride).GlobalRank(i)), In(parts, x));
    OccurrencesAre(parts, x);
    assert Received(tables, offs, grid, stride, b) == Flatten(parts);
    SumEq(n, a => Flow(tables, offs, grid, stride, x)(a, b), h);
  }

  /** The rows that the offsets of a rank cover. */
  ghost function Sent<T>(tables: seq<seq<T>>, offs: seq<seq<nat>>, grid: nat, stride: nat): (r: seq<seq<T>>)
    requires Collective(tables, offs, grid, stride)
    ensures |r| == |tables|
  {
    seq(|tables|, a requires 0 <= a < |tables| => tables[a][offs[a][0]..offs[a][grid / stride]])
  }

  /** An exchange loses no row and doubles none: all ranks together hold what they sent. */
  lemma RowsConserved<T>(tables: seq<seq<T>>, offs: seq<seq<nat>>, grid: nat, stride: nat, x: T)
    requires Collective(tables, offs, grid, stride)
    ensures Occurrences(Exchange(tables, offs, grid, stride), x) == Occurrences(Sent(tables, offs, grid, stride), x)
  {
    var n, f := |tables|, Flow(tables, offs, grid, stride, x);
    var out, sent := Exchange(tables, offs, grid, stride), Sent(tables, offs, grid, stride);
    forall b | 0 <= b < n ensures Sum(n, a => f(a, b)) == In(out, x)(b) {
      Inflow(tables, offs, grid, stride, b, x);
    }
    SumEq(n, b => Sum(n, a => f(a, b)), In(out, x));
    forall a | 0 <= a < n ensures Sum(n, b => f(a, b)) == In(sent, x)(a) {
      Outflow(tables, offs, grid, stride, a, x);
    }
    SumEq(n, a => Sum(n, b => f(a, b)), In(sent, x));
    SumSwap(n, n, f);
    OccurrencesAre(out, x);
    OccurrencesAre(sent, x);
  }

  // ---------- the columns of a table ----------

  function Map<T, U>(f: T -> U, s: seq<T>): (r: seq<U>)
    ensures |r| == |s|
  {
    seq(|s|, i requires 0 <= i < |s| => f(s[i]))
  }

  function MapEach<T, U>(f: T -> U, ss: seq<seq<T>>): (r: seq<seq<U>>)
    ensures |r| == |ss|
  {
    seq(|ss|, a requires 0 <= a < |ss| => Map(f, ss[a]))
  }

  lemma {:induction false} FlattenMap<T, U>(f: T -> U, ss: seq<seq<T>>)
    ensures Flatten(MapEach(f, ss)) == Map(f, Flatten(ss))
  {
    if ss != [] {
      var front := ss[..|ss| - 1];
      FlattenMap(f, front);
      assert MapEach(f, ss)[..|ss| - 1] == MapEach(f, front);
      assert Map(f, Flatten(front) + ss[|ss| - 1]) == Map(f, Flatten(front)) + Map(f, ss[|ss| - 1]);
    }
  }

  /** Columns are exchanged one at a time, with the same offsets. The rows stay together: what comes
      out of exchanging a column is that column of the exchanged rows. */
  lemma ColumnsTravelTogether<R, T>(column: R -> T, tables: seq<seq<R>>, offs: seq<seq<nat>>,
      grid: nat, stride: nat, b: nat)
    requires Collective(tables, offs, grid, stride) && b < |tables|
    ensures Collective(MapEach(column, tables), offs, grid, stride)
    ensures Received(MapEach(column, tables), offs, grid, stride, b)
         == Map(column, Received(tables, offs, grid, stride, b))
  {
    var k := grid / stride;
    var rows := seq(k, i requires 0 <= i < k => Incoming(tables, offs, grid, stride, b, i));
    var cells := seq(k, i requires 0 <= i < k => Incoming(MapEach(column, tables), offs, grid, stride, b, i));
    forall i | 0 <= i < k ensures cells[i] == Map(column, rows[i]) {
      GroupsAgree(GroupOf(b, grid, stride), |tables|, i);
    }
    assert cells == MapEach(column, rows);
    FlattenMap(column, rows);
  }
}
