/** The groups of ranks that exchange data, and the size of the NVLink groups. */
module Groups {
  import opened Arith

  /** `CommunicationGroup` of all_to_all_comm.hpp, with the rank that constructs it. */
  datatype CommunicationGroup = CommunicationGroup(mpiRank: nat, gridSize: nat, stride: nat) {

    /** What the class comment asks of the sizes. */
    ghost predicate WellFormed(mpiSize: nat) {
      && gridSize > 0 && stride > 0
      && gridSize % stride == 0
      && mpiSize % gridSize == 0
      && mpiRank < mpiSize
    }

    function Start(): int
      requires gridSize > 0 && stride > 0
    {
      mpiRank / gridSize * gridSize + mpiRank % stride
    }

    function Size(): nat
      requires stride > 0
    {
      gridSize / stride
    }

    function GlobalRank(i: int): int
      requires gridSize > 0 && stride > 0
    {
      Start() + i * stride
    }

    function LocalIdx(): int
      requires gridSize > 0 && stride > 0
    {
      (mpiRank - Start()) / stride
    }
  }

  /** `r` is member number `m` of group `s` in grid `q`. */
  ghost predicate At(grid: nat, stride: nat, r: nat, q: nat, m: nat, s: nat) {
    grid > 0 && stride > 0 && grid % stride == 0 && s < stride && m < grid / stride
    && r == grid * q + stride * m + s
  }

  lemma Coordinates(grid: nat, stride: nat, r: nat) returns (q: nat, m: nat, s: nat)
    requires grid > 0 && stride > 0 && grid % stride == 0
    ensures At(grid, stride, r, q, m, s)
  {
    DivideAgain(r, grid);
    DivideAgain(grid, stride);
    q := r / grid;
    var t := r % grid;
    DivideAgain(t, stride);
    m, s := t / stride, t % stride;
    MulCancel(stride, m, grid / stride);
  }

  /** The fields the class computes from the coordinates of its rank. */
  lemma CoordinatesGive(grid: nat, stride: nat, r: nat, q: nat, m: nat, s: nat)
    requires At(grid, stride, r, q, m, s)
    ensures var g := CommunicationGroup(r, grid, stride);
            g.Start() == grid * q + s && g.LocalIdx() == m && g.Size() == grid / stride
            && r / grid == q && r % stride == s
  {
    var k := grid / stride;
    DivideAgain(grid, stride);
    MulStrict(stride, m, k);
    QuotientIs(r, grid, q, stride * m + s);
    assert r == stride * (k * q + m) + s by {
      assert grid * q == stride * k * q == stride * (k * q);
    }
    QuotientIs(r, stride, k * q + m, s);
    QuotientIs(stride * m, stride, m, 0);
  }

  /** `get_local_idx` and `get_global_rank` are inverse, and every member of a group computes the
      same list of members. */
  lemma GroupsAgree(g: CommunicationGroup, mpiSize: nat, i: nat)
    requires g.WellFormed(mpiSize) && i < g.Size()
    ensures 0 <= g.LocalIdx() < g.Size() && g.GlobalRank(g.LocalIdx()) == g.mpiRank
    ensures 0 <= g.GlobalRank(i) < mpiSize
    ensures var g' := CommunicationGroup(g.GlobalRank(i), g.gridSize, g.stride);
            g'.LocalIdx() == i && g'.Start() == g.Start() && g'.Size() == g.Size()
  {
    hide CommunicationGroup.LocalIdx, CommunicationGroup.Start, CommunicationGroup.GlobalRank;
    var q, m, s := Coordinates(g.gridSize, g.stride, g.mpiRank);
    MemberAt(g, q, m, s, m);
    MemberAt(g, q, m, s, i);
    assert g == CommunicationGroup(g.GlobalRank(m), g.gridSize, g.stride);
    WithinSize(g.gridSize, g.stride, g.GlobalRank(i), q, i, s, g.mpiRank, mpiSize);
  }

  /** Member `i` of the group of a rank with coordinates `q`, `m`, `s`. */
  lemma MemberAt(g: CommunicationGroup, q: nat, m: nat, s: nat, i: nat)
    requires At(g.gridSize, g.stride, g.mpiRank, q, m, s) && i < g.gridSize / g.stride
    ensures g.GlobalRank(i) >= 0 && At(g.gridSize, g.stride, g.GlobalRank(i), q, i, s)
    ensures g.LocalIdx() == m && g.GlobalRank(m) == g.mpiRank && g.mpiRank / g.gridSize == q
    ensures var g' := CommunicationGroup(g.GlobalRank(i), g.gridSize, g.stride);
            g'.LocalIdx() == i && g'.Start() == g.Start()
  {
    hide CommunicationGroup.LocalIdx, CommunicationGroup.Start, CommunicationGroup.GlobalRank;
    CoordinatesGive(g.gridSize, g.stride, g.mpiRank, q, m, s);
    RankIs(g, q, m, s);
    RankIs(g, q, i, s);
    CoordinatesGive(g.gridSize, g.stride, g.GlobalRank(i), q, i, s);
  }

  lemma RankIs(g: CommunicationGroup, q: nat, i: nat, s: nat)
    requires g.gridSize > 0 && g.stride > 0 && g.Start() == g.gridSize * q + s
    ensures g.GlobalRank(i) == g.gridSize * q + g.stride * i + s
  {
    Swap(g.stride, i);
  }

  lemma Swap(a: int, b: int)
    ensures a * b == b * a
  {
  }

  /** Grids are whole: a rank in the same grid as a rank of the program is a rank of the program. */
  lemma WithinSize(grid: nat, stride: nat, r: nat, q: nat, m: nat, s: nat, r': nat, mpiSize: nat)
    requires At(grid, stride, r, q, m, s) && r' / grid == q && r' < mpiSize && mpiSize % grid == 0
    ensures r < mpiSize
  {
    DivideAgain(r', grid);
    DivideAgain(mpiSize, grid);
    DivideAgain(grid, stride);
    MulStrict(stride, m, grid / stride);
    MulCancel(grid, q, mpiSize / grid);
    MulStrict(grid, q, mpiSize / grid);
  }

  /** The groups are a partition: two ranks list the same members, or none in common. */
  lemma GroupsPartition(g: CommunicationGroup, g': CommunicationGroup, mpiSize: nat, i: nat, i': nat)
    requires g.WellFormed(mpiSize) && g'.WellFormed(mpiSize)
    requires g.gridSize == g'.gridSize && g.stride == g'.stride
    requires i < g.Size() && i' < g'.Size() && g.GlobalRank(i) == g'.GlobalRank(i')
    ensures i == i' && g.Start() == g'.Start()
  {
    GroupsAgree(g, mpiSize, i);
    GroupsAgree(g', mpiSize, i');
  }

  /** The strided group of the first shuffle and the contiguous group of the second meet only in
      the rank that constructed them. */
  lemma LevelsMeet(r: nat, mpiSize: nat, nvl: nat, i: nat, i': nat)
    requires nvl > 0 && mpiSize > 0 && mpiSize % nvl == 0 && r < mpiSize
    requires var ib := CommunicationGroup(r, mpiSize, nvl);
             var nv := CommunicationGroup(r, nvl, 1);
             i < ib.Size() && i' < nv.Size() && ib.GlobalRank(i) == nv.GlobalRank(i')
    ensures CommunicationGroup(r, mpiSize, nvl).GlobalRank(i) == r
  {
    var ib, nv := CommunicationGroup(r, mpiSize, nvl), CommunicationGroup(r, nvl, 1);
    var q, m, s := Coordinates(mpiSize, nvl, r);
    CoordinatesGive(mpiSize, nvl, r, q, m, s);
    var q', m', s' := Coordinates(nvl, 1, r);
    CoordinatesGive(nvl, 1, r, q', m', s');
    QuotientIs(r, mpiSize, 0, r);
    assert q == 0;
    SameQuotient(nvl, m, s, q', m');
    SameQuotient(nvl, i, s, q', i');
  }

  // ---------- the size of the NVLink groups ----------

  /** ceil(sqrt(n)), searched upwards from `c`. */
  function CeilSqrtFrom(n: nat, c: nat): (r: nat)
    requires c > 0 ==> (c - 1) * (c - 1) < n
    ensures n <= r * r
    ensures r > 0 ==> (r - 1) * (r - 1) < n
    decreases n - c
  {
    if n <= c * c then c else
      SquareAtLeast(c);
      assert (c + 1 - 1) * (c + 1 - 1) == c * c;
      CeilSqrtFrom(n, c + 1)
  }

  lemma SquareAtLeast(c: nat)
    ensures c <= c * c
  {
  }

  function CeilSqrt(n: nat): (r: nat)
    ensures n <= r * r
    ensures r > 0 ==> (r - 1) * (r - 1) < n
  {
    CeilSqrtFrom(n, 0)
  }

  ghost predicate LargestDivisor(n: nat, bound: int, d: int) {
    && 0 < d <= bound && n % d == 0
    && forall e :: d < e <= bound ==> n % e != 0
  }

  /** `get_nvl_partition_size`: the whole cluster if the domain holds it, else the largest divisor
      among the sizes the loop tries. A domain without a rank gives 1. */
  method GetNvlPartitionSize(mpiSize: nat, domain: int) returns (size: nat)
    requires mpiSize > 0
    ensures domain >= mpiSize ==> size == mpiSize
    ensures 1 <= domain < mpiSize ==>
              LargestDivisor(mpiSize, if domain < CeilSqrt(mpiSize) then domain else CeilSqrt(mpiSize), size)
    ensures domain < 1 ==> size == 1
    ensures 0 < size <= mpiSize && mpiSize % size == 0
  {
    if domain >= mpiSize {
      return mpiSize;
    }
    size := CeilSqrt(mpiSize);
    while size > 0
      invariant size <= CeilSqrt(mpiSize)
      invariant forall e :: size < e <= CeilSqrt(mpiSize) && e <= domain ==> mpiSize % e != 0
    {
      if mpiSize % size == 0 && size <= domain {
        DividesAtMost(mpiSize, size);
        return;
      }
      size := size - 1;
    }
    assert 1 <= CeilSqrt(mpiSize) && mpiSize % 1 == 0;
    size := 1;
  }

  lemma DividesAtMost(n: nat, d: nat)
    requires n > 0 && d > 0 && n % d == 0
    ensures d <= n
  {
  }

  /** When the code keeps its own promise of "the largest integer that divides mpi_size and is not
      larger than the domain": exactly when the domain holds the cluster, or it holds a rank and no
      divisor lies above ceil(sqrt(mpi_size)) and within it. */
  lemma PromiseKeptIff(mpiSize: nat, domain: int, size: nat)
    requires mpiSize > 0
    requires domain >= mpiSize ==> size == mpiSize
    requires domain < 1 ==> size == 1
    requires 1 <= domain < mpiSize ==>
               LargestDivisor(mpiSize, if domain < CeilSqrt(mpiSize) then domain else CeilSqrt(mpiSize), size)
    ensures LargestDivisor(mpiSize, domain, size)
       <==> domain >= mpiSize || (domain >= 1 && forall d :: CeilSqrt(mpiSize) < d <= domain ==> mpiSize % d != 0)
  {
    hide CeilSqrt;
    if domain >= mpiSize {
      NoLargerDivisor(mpiSize, domain);
    }
  }

  lemma NoLargerDivisor(n: nat, bound: int)
    requires 0 < n <= bound
    ensures LargestDivisor(n, bound, n)
  {
    forall e | n < e <= bound ensures n % e != 0 { QuotientIs(n, e, 0, n); }
    QuotientIs(n, n, 1, 0);
  }

  lemma SquareMonotone(a: nat, b: nat)
    requires a <= b
    ensures a * a <= b * b
  {
    MulMonotone(a, a, b);
    MulMonotone(b, a, b);
  }

  /** Sixteen ranks and a domain of eight give groups of four, although eight divides sixteen. */
  lemma PromiseBroken(size: nat)
    requires LargestDivisor(16, if 8 < CeilSqrt(16) then 8 else CeilSqrt(16), size)
    ensures size == 4 && !LargestDivisor(16, 8, size)
  {
    var c := CeilSqrt(16);
    if c <= 3 { SquareMonotone(c, 3); }
    if c >= 5 { SquareMonotone(4, c - 1); }
    assert 16 % 4 == 0 && 16 % 8 == 0;
  }
}
