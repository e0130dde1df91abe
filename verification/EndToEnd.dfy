/** The whole stack: the rounds of the distributed join run over the buffered protocol. What a rank sends
    in a later round is made of what earlier rounds brought it, and at the end of any run, under any
    schedule, the local joins of all ranks together are the join of the two global tables. */
module EndToEnd {
  import opened Arith
  import opened Sums
  import W = Wire
  import opened Endpoint
  import opened Rounds
  import opened Runs
  import opened Tables
  import opened AllToAll
  import opened Partitioning
  import opened Shuffle
  import opened Join
  import opened DistributedJoin
  import opened ThreadedJoin
  import E = ExchangeRuns

  type Elem = W.Elem

  /** The tables of all ranks at some point, partitioned by a hash of the key, with their offsets. */
  datatype Hashed = Hashed(tables: seq<seq<Elem>>, offs: seq<seq<nat>>)

  /** Round `r` exchanges batch `i` of `f` of partitioned tables. */
  ghost predicate BatchRound<K>(p: Program, r: nat, hashed: Hashed, tables: seq<seq<Elem>>, key: Elem -> K, hash: K -> nat,
      grid: nat, stride: nat, f: nat, i: nat)
    requires Setting(hashed.tables, hashed.offs, tables, key, hash, grid, stride, f) && i < f
  {
    WindowOk(hashed.tables, hashed.offs, tables, key, hash, grid, stride, f, i);
    && r < |p.rounds| && |tables| == p.n
    && p.rounds[r] == E.RoundOf(hashed.tables, Window(hashed.offs, i, grid / stride), grid, stride, p.rounds[r].per, true)
  }

  /** What the ranks make of round `r` in state `g`. */
  ghost function Landed<K>(g: seq<Rank>, r: nat, hashed: Hashed, tables: seq<seq<Elem>>, key: Elem -> K, hash: K -> nat,
      grid: nat, stride: nat, f: nat, i: nat): (out: seq<seq<Elem>>)
    requires Setting(hashed.tables, hashed.offs, tables, key, hash, grid, stride, f) && i < f && |g| == |tables|
    ensures |out| == |tables|
  {
    WindowOk(hashed.tables, hashed.offs, tables, key, hash, grid, stride, f, i);
    E.Assemblies(g, r, hashed.tables, Window(hashed.offs, i, grid / stride), grid, stride)
  }

  /** Whatever the schedule was, the ranks hold the batch. */
  lemma LandedIsBatch<K>(p: Program, gs: seq<seq<Rank>>, r: nat, hashed: Hashed, tables: seq<seq<Elem>>,
      key: Elem -> K, hash: K -> nat, grid: nat, stride: nat, f: nat, i: nat)
    requires Run(p, gs) && Finished(p, gs)
    requires Setting(hashed.tables, hashed.offs, tables, key, hash, grid, stride, f) && i < f
    requires BatchRound(p, r, hashed, tables, key, hash, grid, stride, f, i)
    ensures |tables| == p.n
    ensures Landed(gs[|gs| - 1], r, hashed, tables, key, hash, grid, stride, f, i)
         == Batch(hashed.tables, hashed.offs, tables, key, hash, grid, stride, f, i)
  {
    hide Run, E.RoundOf, Exchange, E.Assemblies, Collective, IsPartition;
    WindowOk(hashed.tables, hashed.offs, tables, key, hash, grid, stride, f, i);
    E.RoundExchanges(p, gs, |gs| - 1, r, hashed.tables, Window(hashed.offs, i, grid / stride), grid, stride);
  }

  /** The run is over at every rank. */
  ghost predicate Finished(p: Program, gs: seq<seq<Rank>>) {
    gs != [] && |gs[|gs| - 1]| == p.n && Done(p, gs[|gs| - 1])
  }

  // ---------- the first level ----------

  /** The shuffle between domains in round `r`, or no round if one domain holds all ranks: `out` is what
      the ranks go on with. */
  ghost predicate FirstLevel<K>(p: Program, g: seq<Rank>, r: nat, hashed: Hashed, tables: seq<seq<Elem>>, out: seq<seq<Elem>>,
      key: Elem -> K, hash1: K -> nat, nvl: nat)
    requires 0 < nvl <= |tables| && |tables| % nvl == 0
  {
    && |g| == |tables| == p.n
    && if nvl == |tables| then out == tables
       else && Setting(hashed.tables, hashed.offs, tables, key, hash1, |tables|, nvl, 1)
            && BatchRound(p, r, hashed, tables, key, hash1, |tables|, nvl, 1, 0)
            && out == Landed(g, r, hashed, tables, key, hash1, |tables|, nvl, 1, 0)
  }

  lemma FirstLevelShuffles<K>(p: Program, gs: seq<seq<Rank>>, r: nat, hashed: Hashed, tables: seq<seq<Elem>>,
      out: seq<seq<Elem>>, key: Elem -> K, hash1: K -> nat, nvl: nat)
    requires Run(p, gs) && Finished(p, gs) && 0 < nvl <= |tables| && |tables| % nvl == 0
    requires FirstLevel(p, gs[|gs| - 1], r, hashed, tables, out, key, hash1, nvl)
    ensures |out| == |tables| && |tables| / nvl > 0 && InDomain(out, key, hash1, nvl)
    ensures forall x :: Occurrences(out, x) == Occurrences(tables, x)
  {
    hide Run, Occurrences;
    var n := |tables|;
    DivideAgain(n, nvl);
    if nvl != n {
      LandedIsBatch(p, gs, r, hashed, tables, key, hash1, n, nvl, 1, 0);
      ShuffledInDomain(out, hashed, tables, key, hash1, nvl);
    } else {
      OneDomain(tables, key, hash1, nvl);
    }
  }

  lemma OneDomain<K>(tables: seq<seq<Elem>>, key: Elem -> K, hash1: K -> nat, nvl: nat)
    requires |tables| == nvl > 0
    ensures |tables| / nvl > 0 && InDomain(tables, key, hash1, nvl)
  {
    QuotientIs(nvl, nvl, 1, 0);
    forall b | 0 <= b < nvl ensures b / nvl == 0 { QuotientIs(b, nvl, 0, b); }
  }

  lemma ShuffledInDomain<K>(out: seq<seq<Elem>>, hashed: Hashed, tables: seq<seq<Elem>>, key: Elem -> K, hash1: K -> nat, nvl: nat)
    requires 0 < nvl <= |tables| && |tables| % nvl == 0 && |tables| / nvl > 0
    requires Setting(hashed.tables, hashed.offs, tables, key, hash1, |tables|, nvl, 1)
    requires out == Batch(hashed.tables, hashed.offs, tables, key, hash1, |tables|, nvl, 1, 0)
    ensures InDomain(out, key, hash1, nvl)
    ensures forall x :: Occurrences(out, x) == Occurrences(tables, x)
  {
    hide Setting, Batch, Occurrences, FromGroup;
    Shuffled(out, hashed.tables, hashed.offs, tables, key, hash1, |tables|, nvl);
    forall b, x | 0 <= b < |tables| && x in out[b] ensures hash1(key(x)) % (|tables| / nvl) == b / nvl {
      DomainNumber(b, |tables|, nvl);
    }
  }

  // ---------- the second level ----------

  /** Batch `i` of one table goes in round `base + 2 * i`, and `batches` is what the ranks make of them. */
  ghost predicate SecondLevel<K>(p: Program, g: seq<Rank>, base: nat, hashed: Hashed, tables: seq<seq<Elem>>,
      batches: seq<seq<seq<Elem>>>, key: Elem -> K, hash2: K -> nat, nvl: nat, f: nat)
  {
    && |g| == |tables| == p.n && |batches| == f
    && Setting(hashed.tables, hashed.offs, tables, key, hash2, nvl, 1, f)
    && forall i :: 0 <= i < f ==>
         && BatchRound(p, base + 2 * i, hashed, tables, key, hash2, nvl, 1, f, i)
         && batches[i] == Landed(g, base + 2 * i, hashed, tables, key, hash2, nvl, 1, f, i)
  }

  lemma SecondLevelBatches<K>(p: Program, gs: seq<seq<Rank>>, base: nat, hashed: Hashed, tables: seq<seq<Elem>>,
      batches: seq<seq<seq<Elem>>>, key: Elem -> K, hash2: K -> nat, nvl: nat, f: nat)
    requires Run(p, gs) && Finished(p, gs)
    requires SecondLevel(p, gs[|gs| - 1], base, hashed, tables, batches, key, hash2, nvl, f)
    ensures Setting(hashed.tables, hashed.offs, tables, key, hash2, nvl, 1, f)
    ensures AreBatches(batches, hashed.tables, hashed.offs, tables, key, hash2, nvl, 1, f) && |batches| == f
  {
    hide Run, Setting, Finished, BatchRound;
    forall i | 0 <= i < f
      ensures batches[i] == Batch(hashed.tables, hashed.offs, tables, key, hash2, nvl, 1, f, i)
    {
      LandedIsBatch(p, gs, base + 2 * i, hashed, tables, key, hash2, nvl, 1, f, i);
    }
  }

  // ---------- the join ----------

  /** The rounds of one distributed join, with what every rank computes from what has reached it. */
  datatype Course = Course(
    left1: Hashed, right1: Hashed, left: seq<seq<Elem>>, right: seq<seq<Elem>>,
    left2: Hashed, right2: Hashed, lefts: seq<seq<seq<Elem>>>, rights: seq<seq<seq<Elem>>>,
    joins: seq<seq<seq<(Elem, Elem)>>>, results: seq<seq<(Elem, Elem)>>)

  /** Every rank follows `distributed_inner_join` in state `g`: two rounds for the first level unless one
      domain holds all ranks, then either the local join or two rounds a batch. */
  ghost predicate Follows<K>(p: Program, g: seq<Rank>, c: Course, left: seq<seq<Elem>>, right: seq<seq<Elem>>,
      keyL: Elem -> K, keyR: Elem -> K, hash1: K -> nat, hash2: K -> nat, nvl: nat, f: nat)
    requires |left| == |right| && 0 < nvl <= |left| && |left| % nvl == 0 && f > 0
  {
    && FirstLevel(p, g, 0, c.left1, left, c.left, keyL, hash1, nvl)
    && FirstLevel(p, g, 1, c.right1, right, c.right, keyR, hash1, nvl)
    && if nvl == 1 then AreJoins(c.results, c.left, c.right, keyL, keyR)
       else
         && var base := if nvl == |left| then 0 else 2;
            && SecondLevel(p, g, base, c.left2, c.left, c.lefts, keyL, hash2, nvl, f)
            && SecondLevel(p, g, base + 1, c.right2, c.right, c.rights, keyR, hash2, nvl, f)
            && |c.joins| == f
            && (forall i :: 0 <= i < f ==>
                  |c.joins[i]| == |left| && AreJoins(c.joins[i], c.lefts[i], c.rights[i], keyL, keyR))
            && c.results == Columns(c.joins, |left|)
  }

  lemma ResultsAtRank<K(!new)>(c: Course, keyL: Elem -> K, keyR: Elem -> K, hash1: K -> nat, hash2: K -> nat, nvl: nat, f: nat)
    requires nvl > 0 && |c.left| > 0 && |c.left| % nvl == 0 && |c.left| / nvl > 0 && |c.lefts| == |c.rights| == |c.joins| == f
    requires InDomain(c.left, keyL, hash1, nvl)
    requires Setting(c.left2.tables, c.left2.offs, c.left, keyL, hash2, nvl, 1, f)
    requires AreBatches(c.lefts, c.left2.tables, c.left2.offs, c.left, keyL, hash2, nvl, 1, f)
    requires forall i :: 0 <= i < f ==> |c.joins[i]| == |c.left| && AreJoins(c.joins[i], c.lefts[i], c.rights[i], keyL, keyR)
    requires c.results == Columns(c.joins, |c.left|)
    ensures |c.results| == |c.left| && AtRank(c.results, keyL, hash1, hash2, nvl)
  {
    hide AtRank, Batch, Setting, InDomain, AreJoins, Columns;
    forall i | 0 <= i < f ensures AtRank(c.joins[i], keyL, hash1, hash2, nvl) {
      BatchAtRank(c.joins[i], c.lefts[i], c.rights[i], c.left2.tables, c.left2.offs, c.left,
                  keyL, keyR, hash1, hash2, nvl, f, i);
    }
    ColumnsAtRank(c.joins, |c.left|, keyL, hash1, hash2, nvl);
  }

  /** The end of any run of the protocol on these rounds: the results are the join of the global tables. */
  lemma RunsComputeTheJoin<K(!new)>(p: Program, gs: seq<seq<Rank>>, c: Course, left: seq<seq<Elem>>, right: seq<seq<Elem>>,
      keyL: Elem -> K, keyR: Elem -> K, hash1: K -> nat, hash2: K -> nat, nvl: nat, f: nat)
    requires Run(p, gs) && Finished(p, gs)
    requires |left| == |right| && 0 < nvl <= |left| && |left| % nvl == 0 && f > 0
    requires Follows(p, gs[|gs| - 1], c, left, right, keyL, keyR, hash1, hash2, nvl, f)
    ensures IsJoin(Flatten(c.results), Flatten(left), Flatten(right), keyL, keyR)
    ensures |c.results| == |left| && |left| / nvl > 0
    ensures JoinedByHash(c.results, Flatten(left), Flatten(right), keyL, keyR, hash1, hash2, nvl)
  {
    hide Run, Finished, FirstLevel, SecondLevel, Occurrences, InDomain, AreJoins, IsJoin, Flatten, Columns, AtRank, JoinedByHash;
    FirstLevelShuffles(p, gs, 0, c.left1, left, c.left, keyL, hash1, nvl);
    FirstLevelShuffles(p, gs, 1, c.right1, right, c.right, keyR, hash1, nvl);
    if nvl == 1 {
      assert |left| / 1 > 0;
      OneRankDomains(c.results, c.left, c.right, keyL, keyR, hash1);
      OneRankAtRank(c.results, c.left, c.right, keyL, keyR, hash1, hash2);
    } else {
      var base := if nvl == |left| then 0 else 2;
      SecondLevelBatches(p, gs, base, c.left2, c.left, c.lefts, keyL, hash2, nvl, f);
      SecondLevelBatches(p, gs, base + 1, c.right2, c.right, c.rights, keyR, hash2, nvl, f);
      forall x ensures Occurrences(c.results, x) == Occurrences(Flatten(c.joins), x) {
        SameRowsByRank(c.joins, |left|, x);
      }
      JoinsAreTheJoin(c.results, c.joins, c.lefts, c.rights, c.left2.tables, c.left2.offs, c.left,
                      c.right2.tables, c.right2.offs, c.right, keyL, keyR, hash1, hash2, nvl, f);
      ResultsAtRank(c, keyL, keyR, hash1, hash2, nvl, f);
    }
    forall x ensures Occurrences(left, x) == Occurrences(c.left, x) {}
    forall x ensures Occurrences(right, x) == Occurrences(c.right, x) {}
    SameJoin(c.results, c.left, c.right, c.results, left, right, keyL, keyR);
    PairsByHash(c.results, Flatten(left), Flatten(right), keyL, keyR, hash1, hash2, nvl);
  }
}
