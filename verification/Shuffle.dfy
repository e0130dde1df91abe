/** Hash partitioning followed by exchanges: where every row ends up, and that none is lost. */
module Shuffle {
  import opened Arith
  import opened Sums
  import opened Tables
  import opened Groups
  import opened AllToAll
  import opened AllToAllComm
  import opened Partitioning

  /** Every rank has partitioned its table into `m` buckets. */
  ghost predicate AllHashed<K, R(!new)>(hashed: seq<seq<R>>, offs: seq<seq<nat>>, tables: seq<seq<R>>,
      key: R -> K, hash: K -> nat, m: nat)
    requires m > 0
  {
    && |hashed| == |offs| == |tables|
    && forall a :: 0 <= a < |tables| ==> IsPartition(hashed[a], offs[a], tables[a], key, hash, m)
  }

  method HashAll<K, R(!new)>(tables: seq<seq<R>>, key: R -> K, hash: K -> nat, m: nat)
    returns (hashed: seq<seq<R>>, offs: seq<seq<nat>>)
    requires m > 0
    ensures AllHashed(hashed, offs, tables, key, hash, m)
  {
    hashed, offs := [], [];
    for a := 0 to |tables|
      invariant |hashed| == |offs| == a
      invariant forall r :: 0 <= r < a ==> IsPartition(hashed[r], offs[r], tables[r], key, hash, m)
    {
      var out, starts := HashPartition(tables[a], key, hash, m);
      hashed, offs := hashed + [out], offs + [starts + [|out|]];
    }
  }

  /** The offsets of batch `i`: those of its `k` buckets, and where the last one ends. Neighbouring
      batches share one offset. */
  function Window(offs: seq<seq<nat>>, i: nat, k: nat): (r: seq<seq<nat>>)
    requires forall a :: 0 <= a < |offs| ==> (i + 1) * k + 1 <= |offs[a]|
    requires i * k <= (i + 1) * k
    ensures |r| == |offs|
  {
    seq(|offs|, a requires 0 <= a < |offs| => offs[a][i * k..(i + 1) * k + 1])
  }

  /** Batch `i` of `f` lies within the buckets. */
  lemma WindowFits(i: nat, k: nat, f: nat)
    requires i < f
    ensures 0 <= i * k && (i + 1) * k == i * k + k <= f * k
  {
    MulMonotone(k, i + 1, f);
    assert k * (i + 1) == (i + 1) * k && k * f == f * k;
  }

  ghost predicate Setting<K, R(!new)>(hashed: seq<seq<R>>, offs: seq<seq<nat>>, tables: seq<seq<R>>,
      key: R -> K, hash: K -> nat, grid: nat, stride: nat, f: nat)
  {
    && grid > 0 && stride > 0 && grid % stride == 0 && |tables| % grid == 0 && f > 0
    && grid / stride * f > 0
    && AllHashed(hashed, offs, tables, key, hash, grid / stride * f)
  }

  lemma WindowOk<K, R(!new)>(hashed: seq<seq<R>>, offs: seq<seq<nat>>, tables: seq<seq<R>>,
      key: R -> K, hash: K -> nat, grid: nat, stride: nat, f: nat, i: nat)
    requires Setting(hashed, offs, tables, key, hash, grid, stride, f) && i < f
    ensures var k := grid / stride;
            0 <= i * k <= (i + 1) * k && (forall a :: 0 <= a < |offs| ==> (i + 1) * k + 1 <= |offs[a]|)
            && Collective(hashed, Window(offs, i, k), grid, stride)
            && forall a, j :: 0 <= a < |offs| && 0 <= j <= k ==> i * k + j < |offs[a]| && Window(offs, i, k)[a][j] == offs[a][i * k + j]
  {
    var k := grid / stride;
    WindowFits(i, k, f);
    forall a | 0 <= a < |offs| ensures |offs[a]| == k * f + 1 && Offsets(offs[a], |hashed[a]|, k * f) {
      assert IsPartition(hashed[a], offs[a], tables[a], key, hash, k * f);
    }
    assert f * k == k * f;
  }

  /** What rank `b` receives in batch `i`. */
  ghost function Batch<K, R(!new)>(hashed: seq<seq<R>>, offs: seq<seq<nat>>, tables: seq<seq<R>>,
      key: R -> K, hash: K -> nat, grid: nat, stride: nat, f: nat, i: nat): (r: seq<seq<R>>)
    requires Setting(hashed, offs, tables, key, hash, grid, stride, f) && i < f
    ensures |r| == |tables|
  {
    WindowOk(hashed, offs, tables, key, hash, grid, stride, f, i);
    Exchange(hashed, Window(offs, i, grid / stride), grid, stride)
  }

  /** The exchange of batch `i`, by all ranks. */
  method ExchangeBatch<K, R(0, !new)>(hashed: seq<seq<R>>, offs: seq<seq<nat>>, ghost tables: seq<seq<R>>,
      ghost key: R -> K, ghost hash: K -> nat, grid: nat, stride: nat, f: nat, i: nat) returns (out: seq<seq<R>>)
    requires Setting(hashed, offs, tables, key, hash, grid, stride, f) && i < f
    ensures out == Batch(hashed, offs, tables, key, hash, grid, stride, f, i)
  {
    WindowOk(hashed, offs, tables, key, hash, grid, stride, f, i);
    out := AllToAllTables(hashed, Window(offs, i, grid / stride), grid, stride, true);
  }

  /** A row that reaches rank `b` in batch `i` has the bucket of that batch and rank, and comes from a
      member of the group of `b`. */
  lemma RowLanded<K, R(!new)>(hashed: seq<seq<R>>, offs: seq<seq<nat>>, tables: seq<seq<R>>,
      key: R -> K, hash: K -> nat, grid: nat, stride: nat, f: nat, i: nat, b: nat, x: R)
    returns (a: nat)
    requires Setting(hashed, offs, tables, key, hash, grid, stride, f) && i < f && b < |tables|
    requires x in Batch(hashed, offs, tables, key, hash, grid, stride, f, i)[b]
    ensures Bucket(key, hash, grid / stride * f, x) == i * (grid / stride) + GroupOf(b, grid, stride).LocalIdx()
    ensures a < |tables| && x in tables[a] && SameGroup(a, b, grid, stride)
  {
    var k := grid / stride;
    WindowOk(hashed, offs, tables, key, hash, grid, stride, f, i);
    var w := Window(offs, i, k);
    var parts := Due(hashed, w, grid, stride, b);
    FlattenIn(parts, x);
    var m :| 0 <= m < |parts| && x in parts[m];
    var group := GroupOf(b, grid, stride);
    GroupsAgree(group, |tables|, m);
    a := group.GlobalRank(m);
    var j := group.LocalIdx();
    WindowSlice(hashed, offs, tables, key, hash, grid, stride, f, i, a, j, x);
  }

  lemma WindowSlice<K, R(!new)>(hashed: seq<seq<R>>, offs: seq<seq<nat>>, tables: seq<seq<R>>,
      key: R -> K, hash: K -> nat, grid: nat, stride: nat, f: nat, i: nat, a: nat, j: nat, x: R)
    requires Setting(hashed, offs, tables, key, hash, grid, stride, f) && i < f && a < |tables| && j < grid / stride
    requires Collective(hashed, Window(offs, i, grid / stride), grid, stride)
    requires x in Slice(hashed[a], Window(offs, i, grid / stride)[a], j)
    ensures Bucket(key, hash, grid / stride * f, x) == i * (grid / stride) + j && x in tables[a]
  {
    var k := grid / stride;
    WindowFits(i, k, f);
    assert f * k == k * f;
    assert IsPartition(hashed[a], offs[a], tables[a], key, hash, k * f);
    assert Slice(hashed[a], Window(offs, i, k)[a], j) == Slice(hashed[a], offs[a], i * k + j);
    assert multiset(Slice(hashed[a], offs[a], i * k + j))[x] > 0;
  }

  // ---------- conservation over the batches ----------

  /** The first `g` batches, one table a rank each. */
  ghost predicate AreBatches<K, R(!new)>(batches: seq<seq<seq<R>>>, hashed: seq<seq<R>>, offs: seq<seq<nat>>, tables: seq<seq<R>>,
      key: R -> K, hash: K -> nat, grid: nat, stride: nat, f: nat)
    requires Setting(hashed, offs, tables, key, hash, grid, stride, f)
  {
    && |batches| <= f
    && forall i :: 0 <= i < |batches| ==> batches[i] == Batch(hashed, offs, tables, key, hash, grid, stride, f, i)
  }

  /** The number of occurrences of `x` in the first `c` buckets of rank `a`. */
  ghost function InBuckets<R>(hashed: seq<seq<R>>, offs: seq<seq<nat>>, x: R, c: int): int -> int {
    a => if 0 <= a < |hashed| && a < |offs| && 0 <= c < |offs[a]| && offs[a][c] <= |hashed[a]|
         then multiset(hashed[a][..offs[a][c]])[x] as int else 0
  }

  lemma OneBatch<K, R(!new)>(hashed: seq<seq<R>>, offs: seq<seq<nat>>, tables: seq<seq<R>>,
      key: R -> K, hash: K -> nat, grid: nat, stride: nat, f: nat, i: nat, x: R)
    requires Setting(hashed, offs, tables, key, hash, grid, stride, f) && i < f
    ensures Sum(|tables|, InBuckets(hashed, offs, x, i * (grid / stride)))
          + Occurrences(Batch(hashed, offs, tables, key, hash, grid, stride, f, i), x)
         == Sum(|tables|, InBuckets(hashed, offs, x, (i + 1) * (grid / stride)))
  {
    hide Occurrences, Sent, Collective, Exchange, InBuckets, Sum, IsPartition;
    WindowOk(hashed, offs, tables, key, hash, grid, stride, f, i);
    var w := Window(offs, i, grid / stride);
    RowsConserved(hashed, w, grid, stride, x);
    OccurrencesAre(Sent(hashed, w, grid, stride), x);
    SentOfBatch(hashed, offs, tables, key, hash, grid, stride, f, i, x);
  }

  /** What the batch takes from the ranks is the difference. */
  lemma SentOfBatch<K, R(!new)>(hashed: seq<seq<R>>, offs: seq<seq<nat>>, tables: seq<seq<R>>,
      key: R -> K, hash: K -> nat, grid: nat, stride: nat, f: nat, i: nat, x: R)
    requires Setting(hashed, offs, tables, key, hash, grid, stride, f) && i < f
    requires var k := grid / stride;
             0 <= i * k <= (i + 1) * k && (forall r :: 0 <= r < |offs| ==> (i + 1) * k + 1 <= |offs[r]|)
             && Collective(hashed, Window(offs, i, k), grid, stride)
    ensures Sum(|tables|, InBuckets(hashed, offs, x, i * (grid / stride)))
          + Sum(|tables|, In(Sent(hashed, Window(offs, i, grid / stride), grid, stride), x))
         == Sum(|tables|, InBuckets(hashed, offs, x, (i + 1) * (grid / stride)))
  {
    hide IsPartition, Collective, Window, Sent, InBuckets, In, Sum;
    var k, n := grid / stride, |tables|;
    var sent := Sent(hashed, Window(offs, i, k), grid, stride);
    var lo, hi := InBuckets(hashed, offs, x, i * k), InBuckets(hashed, offs, x, (i + 1) * k);
    SumPlus(n, lo, In(sent, x));
    forall a | 0 <= a < n ensures lo(a) + In(sent, x)(a) == hi(a) {
      BatchOfRank(hashed, offs, tables, key, hash, grid, stride, f, i, a, x);
    }
    SumEq(n, a => lo(a) + In(sent, x)(a), hi);
  }

  lemma BatchOfRank<K, R(!new)>(hashed: seq<seq<R>>, offs: seq<seq<nat>>, tables: seq<seq<R>>,
      key: R -> K, hash: K -> nat, grid: nat, stride: nat, f: nat, i: nat, a: nat, x: R)
    requires Setting(hashed, offs, tables, key, hash, grid, stride, f) && i < f && a < |tables|
    requires var k := grid / stride;
             0 <= i * k <= (i + 1) * k && (forall r :: 0 <= r < |offs| ==> (i + 1) * k + 1 <= |offs[r]|)
             && Collective(hashed, Window(offs, i, k), grid, stride)
    ensures InBuckets(hashed, offs, x, i * (grid / stride))(a)
          + In(Sent(hashed, Window(offs, i, grid / stride), grid, stride), x)(a)
         == InBuckets(hashed, offs, x, (i + 1) * (grid / stride))(a)
  {
    var k := grid / stride;
    WindowFits(i, k, f);
    var o, t := offs[a], hashed[a];
    assert IsPartition(t, o, tables[a], key, hash, k * f);
    assert o[i * k] <= o[(i + 1) * k] <= o[k * f];
    assert t[..o[(i + 1) * k]] == t[..o[i * k]] + t[o[i * k]..o[(i + 1) * k]];
    assert Window(offs, i, k)[a][0] == o[i * k] && Window(offs, i, k)[a][k] == o[(i + 1) * k];
  }

  /** All batches together hold every row as often as the tables do. */
  lemma BatchesConserve<K, R(!new)>(batches: seq<seq<seq<R>>>, hashed: seq<seq<R>>, offs: seq<seq<nat>>, tables: seq<seq<R>>,
      key: R -> K, hash: K -> nat, grid: nat, stride: nat, f: nat, x: R)
    requires Setting(hashed, offs, tables, key, hash, grid, stride, f)
    requires AreBatches(batches, hashed, offs, tables, key, hash, grid, stride, f) && |batches| == f
    ensures Occurrences(Flatten(batches), x) == Occurrences(tables, x)
  {
    BatchesSoFar(batches, hashed, offs, tables, key, hash, grid, stride, f, x);
    hide Setting, AreBatches, Batch;
    OccurrencesAre(tables, x);
    AllBuckets(hashed, offs, tables, key, hash, grid, stride, f, x);
  }

  lemma AllBuckets<K, R(!new)>(hashed: seq<seq<R>>, offs: seq<seq<nat>>, tables: seq<seq<R>>,
      key: R -> K, hash: K -> nat, grid: nat, stride: nat, f: nat, x: R)
    requires Setting(hashed, offs, tables, key, hash, grid, stride, f)
    ensures Sum(|tables|, InBuckets(hashed, offs, x, f * (grid / stride))) == Sum(|tables|, In(tables, x))
  {
    var k, n := grid / stride, |tables|;
    assert f * k == k * f;
    forall a | 0 <= a < n ensures InBuckets(hashed, offs, x, f * k)(a) == In(tables, x)(a) {
      assert IsPartition(hashed[a], offs[a], tables[a], key, hash, k * f);
      assert hashed[a][..offs[a][k * f]] == hashed[a];
    }
    SumEq(n, InBuckets(hashed, offs, x, f * k), In(tables, x));
  }

  lemma {:induction false} BatchesSoFar<K, R(!new)>(batches: seq<seq<seq<R>>>, hashed: seq<seq<R>>, offs: seq<seq<nat>>, tables: seq<seq<R>>,
      key: R -> K, hash: K -> nat, grid: nat, stride: nat, f: nat, x: R)
    requires Setting(hashed, offs, tables, key, hash, grid, stride, f)
    requires AreBatches(batches, hashed, offs, tables, key, hash, grid, stride, f)
    ensures Occurrences(Flatten(batches), x) == Sum(|tables|, InBuckets(hashed, offs, x, |batches| * (grid / stride)))
    decreases |batches|
  {
    var g, k := |batches|, grid / stride;
    if g == 0 {
      NothingYet(hashed, offs, tables, key, hash, grid, stride, f, x);
    } else {
      hide Setting, Batch;
      var front := batches[..g - 1];
      BatchesSoFar(front, hashed, offs, tables, key, hash, grid, stride, f, x);
      OneBatch(hashed, offs, tables, key, hash, grid, stride, f, g - 1, x);
      FlattenAppend(Flatten(front), batches[g - 1]);
    }
  }

  lemma NothingYet<K, R(!new)>(hashed: seq<seq<R>>, offs: seq<seq<nat>>, tables: seq<seq<R>>,
      key: R -> K, hash: K -> nat, grid: nat, stride: nat, f: nat, x: R)
    requires Setting(hashed, offs, tables, key, hash, grid, stride, f)
    ensures Sum(|tables|, InBuckets(hashed, offs, x, 0)) == 0
  {
    forall a | 0 <= a < |tables| ensures InBuckets(hashed, offs, x, 0)(a) == 0 {
      assert IsPartition(hashed[a], offs[a], tables[a], key, hash, grid / stride * f);
    }
    SumZero(|tables|, InBuckets(hashed, offs, x, 0));
  }

  // ---------- shuffle_on ----------

  /** Some member of the group of rank `b` had row `x`. */
  ghost predicate FromGroup<R>(tables: seq<seq<R>>, grid: nat, stride: nat, b: nat, x: R)
    requires grid > 0 && stride > 0
  {
    exists a: nat :: a < |tables| && SameGroup(a, b, grid, stride) && x in tables[a]
  }

  /** `shuffle_on`: afterwards the rows of a group are at its members by the hash of their key. */
  method ShuffleOn<K, R(0, !new)>(tables: seq<seq<R>>, key: R -> K, hash: K -> nat, grid: nat, stride: nat)
    returns (out: seq<seq<R>>)
    requires grid > 0 && stride > 0 && grid % stride == 0 && |tables| % grid == 0 && grid / stride > 0
    ensures |out| == |tables|
    ensures forall x :: Occurrences(out, x) == Occurrences(tables, x)
    ensures forall b, x :: 0 <= b < |out| && x in out[b] ==>
              hash(key(x)) % (grid / stride) == GroupOf(b, grid, stride).LocalIdx()
    ensures forall b, x :: 0 <= b < |out| && x in out[b] ==> FromGroup(tables, grid, stride, b, x)
  {
    var k := grid / stride;
    var hashed, offs := HashAll(tables, key, hash, k);
    assert Setting(hashed, offs, tables, key, hash, grid, stride, 1);
    out := ExchangeBatch(hashed, offs, tables, key, hash, grid, stride, 1, 0);
    Shuffled(out, hashed, offs, tables, key, hash, grid, stride);
  }

  lemma Shuffled<K, R(!new)>(out: seq<seq<R>>, hashed: seq<seq<R>>, offs: seq<seq<nat>>, tables: seq<seq<R>>,
      key: R -> K, hash: K -> nat, grid: nat, stride: nat)
    requires Setting(hashed, offs, tables, key, hash, grid, stride, 1)
    requires out == Batch(hashed, offs, tables, key, hash, grid, stride, 1, 0)
    ensures |out| == |tables|
    ensures forall x :: Occurrences(out, x) == Occurrences(tables, x)
    ensures forall b, x :: 0 <= b < |out| && x in out[b] ==>
              hash(key(x)) % (grid / stride) == GroupOf(b, grid, stride).LocalIdx()
    ensures forall b, x :: 0 <= b < |out| && x in out[b] ==> FromGroup(tables, grid, stride, b, x)
  {
    hide Batch, SameGroup, Occurrences, AllHashed, CommunicationGroup.LocalIdx;
    var batches := [out];
    assert Flatten(batches) == out by { assert batches[..0] == []; }
    forall x ensures Occurrences(out, x) == Occurrences(tables, x) {
      BatchesConserve(batches, hashed, offs, tables, key, hash, grid, stride, 1, x);
    }
    forall b, x | 0 <= b < |out| && x in out[b]
      ensures hash(key(x)) % (grid / stride) == GroupOf(b, grid, stride).LocalIdx()
      ensures FromGroup(tables, grid, stride, b, x)
    {
      var a := RowLanded(hashed, offs, tables, key, hash, grid, stride, 1, 0, b, x);
      assert grid / stride * 1 == grid / stride && 0 * (grid / stride) == 0;
      assert 0 <= a < |tables| && SameGroup(a, b, grid, stride) && x in tables[a];
    }
  }
}
