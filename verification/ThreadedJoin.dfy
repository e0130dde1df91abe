/** The batches of the distributed join handed from one thread to the other at every rank: under any
    interleaving at each rank, the ranks together still compute the join of the global tables. */
module ThreadedJoin {
  import opened Sums
  import opened Tables
  import opened AllToAll
  import opened Shuffle
  import opened Join
  import opened DistributedJoin
  import opened JoinThreads

  /** Rank `b`'s part of every batch. */
  function Column<T>(batches: seq<seq<T>>, b: nat): (r: seq<T>)
    requires forall i :: 0 <= i < |batches| ==> b < |batches[i]|
    ensures |r| == |batches|
  {
    seq(|batches|, i requires 0 <= i < |batches| => batches[i][b])
  }

  /** The tables rank by rank, each the concatenation of its batches. */
  function Columns<T>(batches: seq<seq<seq<T>>>, n: nat): (r: seq<seq<T>>)
    requires forall i :: 0 <= i < |batches| ==> |batches[i]| == n
    ensures |r| == n
  {
    seq(n, b requires 0 <= b < n => Flatten(Column(batches, b)))
  }

  /** Rank by rank or batch by batch, the rows are the same. */
  lemma {:induction false} SameRowsByRank<T>(batches: seq<seq<seq<T>>>, n: nat, x: T)
    requires forall i :: 0 <= i < |batches| ==> |batches[i]| == n
    ensures Occurrences(Columns(batches, n), x) == Occurrences(Flatten(batches), x)
  {
    if batches == [] {
      assert Columns(batches, n) == seq(n, _ => []);
      NoResults(n, x);
    } else {
      var front, last := batches[..|batches| - 1], batches[|batches| - 1];
      SameRowsByRank(front, n, x);
      forall b | 0 <= b < n ensures Columns(batches, n)[b] == Columns(front, n)[b] + last[b] {
        assert Column(batches, b)[..|batches| - 1] == Column(front, b);
      }
      assert Columns(batches, n) == Zip(Columns(front, n), last);
      MoreOccurrences(Columns(front, n), front, last, x);
      assert front + [last] == batches;
    }
  }

  /** If the local joins of all batches are at the ranks of their keys, so are the results. */
  lemma ColumnsAtRank<K, L(!new), R(!new)>(joins: seq<seq<seq<(L, R)>>>, n: nat,
      keyL: L -> K, hash1: K -> nat, hash2: K -> nat, nvl: nat)
    requires nvl > 0 && n / nvl > 0
    requires forall i :: 0 <= i < |joins| ==> |joins[i]| == n && AtRank(joins[i], keyL, hash1, hash2, nvl)
    ensures AtRank(Columns(joins, n), keyL, hash1, hash2, nvl)
  {
    forall b, x | 0 <= b < n && x in Columns(joins, n)[b]
      ensures hash1(keyL(x.0)) % (n / nvl) == b / nvl && hash2(keyL(x.0)) % nvl == b % nvl
    {
      FlattenIn(Column(joins, b), x);
      var i :| 0 <= i < |joins| && x in Column(joins, b)[i];
      assert AtRank(joins[i], keyL, hash1, hash2, nvl) && x in joins[i][b];
    }
  }

  ghost function JobOf<L, R, O>(lefts: seq<seq<seq<L>>>, rights: seq<seq<seq<R>>>, join: (seq<L>, seq<R>) -> seq<O>, b: nat)
    : Job<L, R, O>
    requires forall i :: 0 <= i < |lefts| ==> b < |lefts[i]|
    requires forall i :: 0 <= i < |rights| ==> b < |rights[i]|
  {
    Job(Column(lefts, b), Column(rights, b), join)
  }

  /** Every rank has run its two threads to the end, in an order of its own, and merged the results. */
  ghost predicate AllRan<L, R, O>(results: seq<seq<O>>, runs: seq<seq<State<L, R, O>>>,
      lefts: seq<seq<seq<L>>>, rights: seq<seq<seq<R>>>, n: nat, join: (seq<L>, seq<R>) -> seq<O>)
  {
    && |results| == |runs| == n && |lefts| == |rights|
    && (forall i :: 0 <= i < |lefts| ==> |lefts[i]| == |rights[i]| == n)
    && forall b :: 0 <= b < n ==>
         && Run(JobOf(lefts, rights, join, b), runs[b])
         && var last := runs[b][|runs[b]| - 1];
            last.joining == |lefts| && results[b] == Flatten(last.results)
  }

  ghost function LocalJoins<L, R, O>(lefts: seq<seq<seq<L>>>, rights: seq<seq<seq<R>>>, n: nat,
      join: (seq<L>, seq<R>) -> seq<O>): (joins: seq<seq<seq<O>>>)
    requires |lefts| == |rights| && forall i :: 0 <= i < |lefts| ==> |lefts[i]| == |rights[i]| == n
    ensures |joins| == |lefts| && forall i :: 0 <= i < |joins| ==> |joins[i]| == n
  {
    seq(|lefts|, i requires 0 <= i < |lefts| =>
      seq(n, b requires 0 <= b < n && i < |lefts| => join(lefts[i][b], rights[i][b])))
  }

  lemma RankResult<L, R, O>(results: seq<seq<O>>, runs: seq<seq<State<L, R, O>>>,
      lefts: seq<seq<seq<L>>>, rights: seq<seq<seq<R>>>, n: nat, join: (seq<L>, seq<R>) -> seq<O>, b: nat)
    requires AllRan(results, runs, lefts, rights, n, join) && b < n
    ensures results[b] == Flatten(Column(LocalJoins(lefts, rights, n, join), b))
  {
    var joins := LocalJoins(lefts, rights, n, join);
    assert Run(JobOf(lefts, rights, join, b), runs[b]);
    hide Run;
    SameAsSequential(JobOf(lefts, rights, join, b), runs[b], |runs[b]| - 1);
    assert BatchResults(JobOf(lefts, rights, join, b)) == Column(joins, b);
  }

  /** The threaded second level of the join. */
  lemma ThreadsComputeTheJoin<K(!new), L(!new), R(!new)>(results: seq<seq<(L, R)>>, runs: seq<seq<State<L, R, (L, R)>>>,
      lefts: seq<seq<seq<L>>>, rights: seq<seq<seq<R>>>,
      hashedLeft: seq<seq<L>>, leftOffsets: seq<seq<nat>>, left: seq<seq<L>>,
      hashedRight: seq<seq<R>>, rightOffsets: seq<seq<nat>>, right: seq<seq<R>>,
      keyL: L -> K, keyR: R -> K, hash1: K -> nat, hash2: K -> nat, nvl: nat, f: nat,
      join: (seq<L>, seq<R>) -> seq<(L, R)>)
    requires |left| == |right| > 0 && nvl > 0 && f > 0 && |left| % nvl == 0 && |left| / nvl > 0
    requires InDomain(left, keyL, hash1, nvl) && InDomain(right, keyR, hash1, nvl)
    requires Setting(hashedLeft, leftOffsets, left, keyL, hash2, nvl, 1, f)
    requires Setting(hashedRight, rightOffsets, right, keyR, hash2, nvl, 1, f)
    requires |lefts| == |rights| == f
    requires AreBatches(lefts, hashedLeft, leftOffsets, left, keyL, hash2, nvl, 1, f)
    requires AreBatches(rights, hashedRight, rightOffsets, right, keyR, hash2, nvl, 1, f)
    requires forall l, r :: IsJoin(join(l, r), l, r, keyL, keyR)
    requires AllRan(results, runs, lefts, rights, |left|, join)
    ensures IsJoin(Flatten(results), Flatten(left), Flatten(right), keyL, keyR)
    ensures |results| == |left| && JoinedByHash(results, Flatten(left), Flatten(right), keyL, keyR, hash1, hash2, nvl)
  {
    var n, joins := |left|, LocalJoins(lefts, rights, |left|, join);
    assert results == Columns(joins, n) by {
      forall b | 0 <= b < n ensures results[b] == Columns(joins, n)[b] {
        RankResult(results, runs, lefts, rights, n, join, b);
      }
    }
    forall x ensures Occurrences(results, x) == Occurrences(Flatten(joins), x) {
      SameRowsByRank(joins, n, x);
    }
    JoinsAreTheJoin(results, joins, lefts, rights, hashedLeft, leftOffsets, left, hashedRight, rightOffsets, right,
                    keyL, keyR, hash1, hash2, nvl, f);
    hide JoinedByHash, AtRank, Batch, Columns, Setting, InDomain, IsJoin;
    forall i | 0 <= i < f ensures AtRank(joins[i], keyL, hash1, hash2, nvl) {
      BatchAtRank(joins[i], lefts[i], rights[i], hashedLeft, leftOffsets, left, keyL, keyR, hash1, hash2, nvl, f, i);
    }
    ColumnsAtRank(joins, n, keyL, hash1, hash2, nvl);
    PairsByHash(results, Flatten(left), Flatten(right), keyL, keyR, hash1, hash2, nvl);
  }
}
