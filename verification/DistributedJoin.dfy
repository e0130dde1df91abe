/** `distributed_inner_join`, run by all ranks: two levels of shuffles, over-decomposed batches and a
    local join per batch and rank. Together they are the inner join of the two global tables. */
module DistributedJoin {
  import opened Arith
  import opened Sums
  import opened Tables
  import opened Groups
  import opened AllToAll
  import opened AllToAllComm
  import opened Partitioning
  import opened Shuffle
  import opened Join

  // ---------- where a key is joined ----------

  /** The batch and rank of a key: the first hash picks the NVLink domain, the second the batch and
      the rank within the domain. Batch `i` at rank `b` of `n` is place `i * n + b`. */
  ghost function Home<K>(hash1: K -> nat, hash2: K -> nat, n: nat, nvl: nat, f: nat): K -> int
    requires nvl > 0 && f > 0 && n > 0 && n % nvl == 0
  {
    k => HomeOf(hash1(k), hash2(k), n, nvl, f)
  }

  ghost function HomeOf(h1: nat, h2: nat, n: nat, nvl: nat, f: nat): (p: nat)
    requires nvl > 0 && f > 0 && n > 0 && n % nvl == 0
  {
    PlaceOf(h1 % Domains(n, nvl), h2 % Buckets(nvl, f), n, nvl)
  }

  ghost function Domains(n: nat, nvl: nat): (m: nat)
    requires nvl > 0 && n > 0 && n % nvl == 0
    ensures m > 0 && m == n / nvl
  {
    DivideAgain(n, nvl);
    n / nvl
  }

  ghost function Buckets(nvl: nat, f: nat): (m: nat)
    requires nvl > 0 && f > 0
    ensures m > 0 && m == nvl * f
  {
    MulAtLeast(nvl, f);
    nvl * f
  }

  ghost function PlaceOf(domain: nat, bucket: nat, n: nat, nvl: nat): (p: nat)
    requires nvl > 0
  {
    bucket / nvl * n + (domain * nvl + bucket % nvl)
  }

  /** Rows at place `i * n + b` have their home there. */
  lemma HomeIs(h1: nat, h2: nat, n: nat, nvl: nat, f: nat, i: nat, b: nat)
    requires nvl > 0 && f > 0 && n > 0 && n % nvl == 0 && b < n && n / nvl > 0 && nvl * f > 0
    requires h1 % (n / nvl) == b / nvl
    requires h2 % (nvl * f) == i * nvl + b % nvl
    ensures HomeOf(h1, h2, n, nvl, f) == i * n + b
  {
    QuotientIs(h2 % (nvl * f), nvl, i, b % nvl);
    DivideAgain(b, nvl);
  }

  /** Tables indexed by batch and rank, laid out batch by batch. */
  lemma {:induction false} FlattenUniform<T>(batches: seq<seq<T>>, n: nat, p: nat) returns (i: nat, b: nat)
    requires forall j :: 0 <= j < |batches| ==> |batches[j]| == n
    requires p < |Flatten(batches)|
    ensures i < |batches| && b < n && p == i * n + b && Flatten(batches)[p] == batches[i][b]
  {
    var front, g := batches[..|batches| - 1], |batches|;
    UniformSize(front, n);
    if p < |Flatten(front)| {
      i, b := FlattenUniform(front, n, p);
    } else {
      i, b := g - 1, p - (g - 1) * n;
    }
  }

  lemma OneMore(m: nat, n: nat)
    ensures (m + 1) * n == m * n + n
  {
  }

  lemma {:induction false} UniformSize<T>(batches: seq<seq<T>>, n: nat)
    requires forall j :: 0 <= j < |batches| ==> |batches[j]| == n
    ensures |Flatten(batches)| == |batches| * n
  {
    if batches != [] {
      UniformSize(batches[..|batches| - 1], n);
      OneMore(|batches| - 1, n);
    }
  }

  /** After the first shuffle: rows are in the domain the first hash picks. */
  ghost predicate InDomain<K, R(!new)>(tables: seq<seq<R>>, key: R -> K, hash1: K -> nat, nvl: nat)
    requires nvl > 0 && |tables| / nvl > 0
  {
    forall b, x :: 0 <= b < |tables| && x in tables[b] ==> hash1(key(x)) % (|tables| / nvl) == b / nvl
  }

  /** All rows with one key are in one batch at one rank: a row of batch `i` at rank `b` has its home
      there, whatever tables the two levels started from. */
  lemma CoLocated<K(!new), R(!new)>(batches: seq<seq<seq<R>>>, hashed: seq<seq<R>>, offs: seq<seq<nat>>, tables: seq<seq<R>>,
      key: R -> K, hash1: K -> nat, hash2: K -> nat, nvl: nat, f: nat)
    requires nvl > 0 && |tables| > 0 && |tables| % nvl == 0 && |tables| / nvl > 0
    requires InDomain(tables, key, hash1, nvl)
    requires Setting(hashed, offs, tables, key, hash2, nvl, 1, f)
    requires AreBatches(batches, hashed, offs, tables, key, hash2, nvl, 1, f)
    ensures AtHome(Flatten(batches), key, Home(hash1, hash2, |tables|, nvl, f))
  {
    hide Setting, Batch, HomeOf;
    forall p, x | 0 <= p < |Flatten(batches)| && x in Flatten(batches)[p]
      ensures Home(hash1, hash2, |tables|, nvl, f)(key(x)) == p
    {
      var i, b := FlattenUniform(batches, |tables|, p);
      RowAtHome(hashed, offs, tables, key, hash1, hash2, nvl, f, i, b, x);
    }
  }

  lemma RowAtHome<K(!new), R(!new)>(hashed: seq<seq<R>>, offs: seq<seq<nat>>, tables: seq<seq<R>>,
      key: R -> K, hash1: K -> nat, hash2: K -> nat, nvl: nat, f: nat, i: nat, b: nat, x: R)
    requires nvl > 0 && |tables| > 0 && |tables| % nvl == 0 && |tables| / nvl > 0
    requires InDomain(tables, key, hash1, nvl)
    requires Setting(hashed, offs, tables, key, hash2, nvl, 1, f) && i < f && b < |tables|
    requires x in Batch(hashed, offs, tables, key, hash2, nvl, 1, f, i)[b]
    ensures HomeOf(hash1(key(x)), hash2(key(x)), |tables|, nvl, f) == i * |tables| + b
  {
    hide Batch, HomeOf;
    var a := RowLanded(hashed, offs, tables, key, hash2, nvl, 1, f, i, b, x);
    SameDomain(a, b, nvl);
    assert nvl / 1 == nvl;
    HomeIs(hash1(key(x)), hash2(key(x)), |tables|, nvl, f, i, b);
  }

  /** Contiguous groups are domains, and the local index is the rank within the domain. */
  lemma SameDomain(a: nat, b: nat, nvl: nat)
    requires nvl > 0
    requires SameGroup(a, b, nvl, 1)
    ensures a / nvl == b / nvl && GroupOf(b, nvl, 1).LocalIdx() == b % nvl
  {
    var q, m, s := Coordinates(nvl, 1, a);
    CoordinatesGive(nvl, 1, a, q, m, s);
    var q', m', s' := Coordinates(nvl, 1, b);
    CoordinatesGive(nvl, 1, b, q', m', s');
    SameQuotient(nvl, q, 0, q', 0);
    QuotientIs(b, nvl, q', m');
  }

  /** The local index in the strided group of the first shuffle is the number of the domain. */
  lemma DomainNumber(b: nat, n: nat, nvl: nat)
    requires nvl > 0 && n > 0 && n % nvl == 0 && b < n
    ensures GroupOf(b, n, nvl).LocalIdx() == b / nvl
  {
    var q, m, s := Coordinates(n, nvl, b);
    CoordinatesGive(n, nvl, b, q, m, s);
    QuotientIs(b, n, 0, b);
    QuotientIs(b, nvl, m, s);
  }

  // ---------- which rank returns a pair ----------

  /** The first hash of the key picks the domain, the second the rank within it. */
  ghost predicate AtRank<K, L(!new), R(!new)>(results: seq<seq<(L, R)>>, keyL: L -> K, hash1: K -> nat, hash2: K -> nat, nvl: nat)
    requires nvl > 0 && |results| / nvl > 0
  {
    forall b, x :: 0 <= b < |results| && x in results[b] ==>
      hash1(keyL(x.0)) % (|results| / nvl) == b / nvl && hash2(keyL(x.0)) % nvl == b % nvl
  }

  /** Rank `b` holds all pairs of its keys, as often as the whole join does, and no others. */
  ghost predicate JoinedByHash<K, L(!new), R(!new)>(results: seq<seq<(L, R)>>, left: seq<L>, right: seq<R>,
      keyL: L -> K, keyR: R -> K, hash1: K -> nat, hash2: K -> nat, nvl: nat)
    requires nvl > 0 && |results| / nvl > 0
  {
    forall b, l, r :: 0 <= b < |results| ==>
      multiset(results[b])[(l, r)] ==
        if hash1(keyL(l)) % (|results| / nvl) == b / nvl && hash2(keyL(l)) % nvl == b % nvl
        then Pairs(left, right, keyL, keyR, l, r) else 0
  }

  lemma RankInRange(h1: nat, h2: nat, n: nat, nvl: nat) returns (b: nat)
    requires nvl > 0 && n % nvl == 0 && n / nvl > 0
    ensures b < n
    ensures forall c: nat :: c < n && h1 % (n / nvl) == c / nvl && h2 % nvl == c % nvl <==> c == b
  {
    var d, m := h1 % (n / nvl), h2 % nvl;
    DivideAgain(n, nvl);
    MulStrict(nvl, d, n / nvl);
    b := nvl * d + m;
    QuotientIs(b, nvl, d, m);
    forall c: nat ensures c < n && d == c / nvl && m == c % nvl <==> c == b { DivideAgain(c, nvl); }
  }

  lemma PairsByHash<K(!new), L(!new), R(!new)>(results: seq<seq<(L, R)>>, left: seq<L>, right: seq<R>,
      keyL: L -> K, keyR: R -> K, hash1: K -> nat, hash2: K -> nat, nvl: nat)
    requires nvl > 0 && |results| % nvl == 0 && |results| / nvl > 0
    requires IsJoin(Flatten(results), left, right, keyL, keyR) && AtRank(results, keyL, hash1, hash2, nvl)
    ensures JoinedByHash(results, left, right, keyL, keyR, hash1, hash2, nvl)
  {
    forall b, l, r | 0 <= b < |results|
      ensures multiset(results[b])[(l, r)] ==
        if hash1(keyL(l)) % (|results| / nvl) == b / nvl && hash2(keyL(l)) % nvl == b % nvl
        then Pairs(left, right, keyL, keyR, l, r) else 0
    {
      PairByHash(results, left, right, keyL, keyR, hash1, hash2, nvl, b, l, r);
    }
  }

  lemma PairByHash<K(!new), L(!new), R(!new)>(results: seq<seq<(L, R)>>, left: seq<L>, right: seq<R>,
      keyL: L -> K, keyR: R -> K, hash1: K -> nat, hash2: K -> nat, nvl: nat, b: nat, l: L, r: R)
    requires nvl > 0 && |results| % nvl == 0 && |results| / nvl > 0 && b < |results|
    requires IsJoin(Flatten(results), left, right, keyL, keyR) && AtRank(results, keyL, hash1, hash2, nvl)
    ensures multiset(results[b])[(l, r)] ==
      if hash1(keyL(l)) % (|results| / nvl) == b / nvl && hash2(keyL(l)) % nvl == b % nvl
      then Pairs(left, right, keyL, keyR, l, r) else 0
  {
    var n, x := |results|, (l, r);
    var c := RankInRange(hash1(keyL(l)), hash2(keyL(l)), n, nvl);
    forall p | 0 <= p < n && p != c ensures In(results, x)(p) == 0 { assert x !in results[p]; }
    OccurrencesAre(results, x);
    SumOne(n, In(results, x), c);
    assert Occurrences(results, x) == Pairs(left, right, keyL, keyR, l, r);
  }

  /** A row that reaches rank `b` in some batch has a key of that rank. */
  lemma RowAtRank<K, R(!new)>(hashed: seq<seq<R>>, offs: seq<seq<nat>>, tables: seq<seq<R>>,
      key: R -> K, hash1: K -> nat, hash2: K -> nat, nvl: nat, f: nat, i: nat, b: nat, x: R)
    requires nvl > 0 && |tables| > 0 && |tables| % nvl == 0 && |tables| / nvl > 0
    requires InDomain(tables, key, hash1, nvl)
    requires Setting(hashed, offs, tables, key, hash2, nvl, 1, f) && i < f && b < |tables|
    requires x in Batch(hashed, offs, tables, key, hash2, nvl, 1, f, i)[b]
    ensures hash1(key(x)) % (|tables| / nvl) == b / nvl && hash2(key(x)) % nvl == b % nvl
  {
    hide Batch;
    var a := RowLanded(hashed, offs, tables, key, hash2, nvl, 1, f, i, b, x);
    SameDomain(a, b, nvl);
    assert nvl / 1 == nvl;
    BucketRank(hash2(key(x)), nvl, f, i, b % nvl);
  }

  lemma BucketRank(h: nat, nvl: nat, f: nat, i: nat, m: nat)
    requires nvl * f > 0 && m < nvl && h % (nvl * f) == i * nvl + m
    ensures h % nvl == m
  {
    var q := h / (nvl * f);
    DivideAgain(h, nvl * f);
    assert nvl * f * q == nvl * (f * q);
    assert nvl * (f * q + i) == nvl * (f * q) + i * nvl;
    QuotientIs(h, nvl, f * q + i, m);
  }

  /** A pair of a local join has a row of the left table. */
  lemma LeftOfPair<K, L(!new), R(!new)>(out: seq<(L, R)>, left: seq<L>, right: seq<R>, keyL: L -> K, keyR: R -> K, x: (L, R))
    requires IsJoin(out, left, right, keyL, keyR) && x in out
    ensures x.0 in left
  {
    assert multiset(out)[(x.0, x.1)] > 0;
    assert multiset(left)[x.0] > 0;
  }

  /** The local joins of a batch hold pairs of keys of their rank. */
  lemma BatchAtRank<K, L(!new), R(!new)>(joined: seq<seq<(L, R)>>, lefts: seq<seq<L>>, rights: seq<seq<R>>,
      hashed: seq<seq<L>>, offs: seq<seq<nat>>, tables: seq<seq<L>>,
      keyL: L -> K, keyR: R -> K, hash1: K -> nat, hash2: K -> nat, nvl: nat, f: nat, i: nat)
    requires nvl > 0 && |tables| > 0 && |tables| % nvl == 0 && |tables| / nvl > 0 && |joined| == |tables|
    requires InDomain(tables, keyL, hash1, nvl)
    requires Setting(hashed, offs, tables, keyL, hash2, nvl, 1, f) && i < f
    requires lefts == Batch(hashed, offs, tables, keyL, hash2, nvl, 1, f, i)
    requires AreJoins(joined, lefts, rights, keyL, keyR)
    ensures AtRank(joined, keyL, hash1, hash2, nvl)
  {
    hide Batch, Setting, InDomain, IsJoin;
    forall b, x | 0 <= b < |joined| && x in joined[b]
      ensures hash1(keyL(x.0)) % (|joined| / nvl) == b / nvl && hash2(keyL(x.0)) % nvl == b % nvl
    {
      LeftOfPair(joined[b], lefts[b], rights[b], keyL, keyR, x);
      RowAtRank(hashed, offs, tables, keyL, hash1, hash2, nvl, f, i, b, x.0);
    }
  }

  lemma ZipAtRank<K, L(!new), R(!new)>(results: seq<seq<(L, R)>>, joined: seq<seq<(L, R)>>,
      keyL: L -> K, hash1: K -> nat, hash2: K -> nat, nvl: nat)
    requires |results| == |joined| && nvl > 0 && |results| / nvl > 0
    requires AtRank(results, keyL, hash1, hash2, nvl) && AtRank(joined, keyL, hash1, hash2, nvl)
    ensures AtRank(Zip(results, joined), keyL, hash1, hash2, nvl)
  {
  }

  // ---------- joining place by place ----------

  /** The local joins of one batch, at every rank. */
  ghost predicate AreJoins<K, L(!new), R(!new)>(outs: seq<seq<(L, R)>>, lefts: seq<seq<L>>, rights: seq<seq<R>>,
      keyL: L -> K, keyR: R -> K)
  {
    && |outs| == |lefts| == |rights|
    && forall p :: 0 <= p < |outs| ==> IsJoin(outs[p], lefts[p], rights[p], keyL, keyR)
  }

  method JoinAll<K(==), L(!new), R(!new)>(lefts: seq<seq<L>>, rights: seq<seq<R>>, keyL: L -> K, keyR: R -> K)
    returns (outs: seq<seq<(L, R)>>)
    requires |lefts| == |rights|
    ensures AreJoins(outs, lefts, rights, keyL, keyR)
  {
    outs := [];
    for b := 0 to |lefts|
      invariant |outs| == b
      invariant forall p :: 0 <= p < b ==> IsJoin(outs[p], lefts[p], rights[p], keyL, keyR)
    {
      var out := LocalJoinHelper(lefts[b], rights[b], keyL, keyR);
      outs := outs + [out];
    }
  }

  /** Joins depend on how often rows occur, not on where. */
  lemma SameJoin<K, L(!new), R(!new)>(outs: seq<seq<(L, R)>>, lefts: seq<seq<L>>, rights: seq<seq<R>>,
      outs': seq<seq<(L, R)>>, lefts': seq<seq<L>>, rights': seq<seq<R>>, keyL: L -> K, keyR: R -> K)
    requires IsJoin(Flatten(outs), Flatten(lefts), Flatten(rights), keyL, keyR)
    requires forall x :: Occurrences(outs', x) == Occurrences(outs, x)
    requires forall x :: Occurrences(lefts', x) == Occurrences(lefts, x)
    requires forall x :: Occurrences(rights', x) == Occurrences(rights, x)
    ensures IsJoin(Flatten(outs'), Flatten(lefts'), Flatten(rights'), keyL, keyR)
  {
    forall l, r
      ensures multiset(Flatten(outs'))[(l, r)] == Pairs(Flatten(lefts'), Flatten(rights'), keyL, keyR, l, r)
    {
      assert Occurrences(outs', (l, r)) == Occurrences(outs, (l, r));
      assert Occurrences(lefts', l) == Occurrences(lefts, l);
      assert Occurrences(rights', r) == Occurrences(rights, r);
    }
  }

  /** Batch-wise joins are place-wise joins. */
  lemma PlacesJoined<K, L(!new), R(!new)>(joins: seq<seq<seq<(L, R)>>>, lefts: seq<seq<seq<L>>>, rights: seq<seq<seq<R>>>,
      n: nat, keyL: L -> K, keyR: R -> K)
    requires |joins| == |lefts| == |rights|
    requires forall i :: 0 <= i < |joins| ==> |joins[i]| == n && AreJoins(joins[i], lefts[i], rights[i], keyL, keyR)
    ensures AreJoins(Flatten(joins), Flatten(lefts), Flatten(rights), keyL, keyR)
  {
    UniformSize(joins, n);
    UniformSize(lefts, n);
    UniformSize(rights, n);
    forall p | 0 <= p < |Flatten(joins)|
      ensures IsJoin(Flatten(joins)[p], Flatten(lefts)[p], Flatten(rights)[p], keyL, keyR)
    {
      var i, b := FlattenUniform(joins, n, p);
      FlattenAt(lefts, n, i, b, p);
      FlattenAt(rights, n, i, b, p);
    }
  }

  lemma FlattenAt<T>(batches: seq<seq<T>>, n: nat, i: nat, b: nat, p: nat)
    requires forall j :: 0 <= j < |batches| ==> |batches[j]| == n
    requires i < |batches| && b < n && p == i * n + b && p < |Flatten(batches)|
    ensures Flatten(batches)[p] == batches[i][b]
  {
    var i', b' := FlattenUniform(batches, n, p);
    SameQuotient(n, i, b, i', b');
  }

  // ---------- the results of all batches ----------

  function Zip<T>(a: seq<seq<T>>, b: seq<seq<T>>): (r: seq<seq<T>>)
    requires |a| == |b|
    ensures |r| == |a|
  {
    seq(|a|, i requires 0 <= i < |a| => a[i] + b[i])
  }

  lemma ZipOccurrences<T>(a: seq<seq<T>>, b: seq<seq<T>>, x: T)
    requires |a| == |b|
    ensures Occurrences(Zip(a, b), x) == Occurrences(a, x) + Occurrences(b, x)
  {
    OccurrencesAre(a, x);
    OccurrencesAre(b, x);
    OccurrencesAre(Zip(a, b), x);
    SumPlus(|a|, In(a, x), In(b, x));
    SumEq(|a|, In(Zip(a, b), x), i => In(a, x)(i) + In(b, x)(i));
  }

  lemma MoreOccurrences<T>(results: seq<seq<T>>, joins: seq<seq<seq<T>>>, joined: seq<seq<T>>, x: T)
    requires |results| == |joined| && Occurrences(results, x) == Occurrences(Flatten(joins), x)
    ensures Occurrences(Zip(results, joined), x) == Occurrences(Flatten(joins + [joined]), x)
  {
    ZipOccurrences(results, joined, x);
    FlattenAppend(joins, [joined]);
    assert Flatten([joined]) == joined by { assert [joined][..0] == []; }
    FlattenAppend(Flatten(joins), joined);
  }

  lemma {:induction false} NoResults<T>(n: nat, x: T)
    ensures Occurrences(seq(n, _ => []), x) == Occurrences(Flatten<seq<T>>([]), x)
  {
    var none: seq<seq<T>> := seq(n, _ => []);
    OccurrencesAre(none, x);
    SumZero(n, In(none, x));
  }

  // ---------- the two levels ----------

  /** The shuffle between domains, left out when one domain holds all ranks. */
  method ShuffleBetweenDomains<K, R(0, !new)>(tables: seq<seq<R>>, key: R -> K, hash1: K -> nat, nvl: nat)
    returns (out: seq<seq<R>>)
    requires 0 < nvl <= |tables| && |tables| % nvl == 0
    ensures |out| == |tables| && |tables| / nvl > 0 && InDomain(out, key, hash1, nvl)
    ensures forall x :: Occurrences(out, x) == Occurrences(tables, x)
    ensures nvl == |tables| ==> out == tables
    ensures nvl < |tables| ==> forall b, x :: 0 <= b < |out| && x in out[b] ==> FromGroup(tables, |tables|, nvl, b, x)
  {
    var n := |tables|;
    DivideAgain(n, nvl);
    if nvl != n {
      out := ShuffleOn(tables, key, hash1, n, nvl);
      forall b, x | 0 <= b < n && x in out[b] ensures hash1(key(x)) % (n / nvl) == b / nvl {
        DomainNumber(b, n, nvl);
      }
    } else {
      out := tables;
      QuotientIs(n, n, 1, 0);
      forall b | 0 <= b < n ensures b / n == 0 { QuotientIs(b, n, 0, b); }
    }
  }

  /** The second level: batches of buckets exchanged within the domains and joined one by one. */
  method JoinBatches<K(==, !new), L(0, !new), R(0, !new)>(left: seq<seq<L>>, right: seq<seq<R>>, keyL: L -> K, keyR: R -> K,
      ghost hash1: K -> nat, hash2: K -> nat, nvl: nat, f: nat) returns (results: seq<seq<(L, R)>>)
    requires |left| == |right| > 0 && nvl > 0 && f > 0 && |left| % nvl == 0 && |left| / nvl > 0
    requires InDomain(left, keyL, hash1, nvl) && InDomain(right, keyR, hash1, nvl)
    ensures |results| == |left| && IsJoin(Flatten(results), Flatten(left), Flatten(right), keyL, keyR)
    ensures AtRank(results, keyL, hash1, hash2, nvl)
    ensures JoinedByHash(results, Flatten(left), Flatten(right), keyL, keyR, hash1, hash2, nvl)
  {
    hide AllHashed, Setting, Batch, Occurrences, IsJoin, Flatten, Zip, InDomain, JoinedByHash;
    var n := |left|;
    MulAtLeast(nvl, f);
    var hashedLeft, leftOffsets := HashAll(left, keyL, hash2, nvl * f);
    var hashedRight, rightOffsets := HashAll(right, keyR, hash2, nvl * f);
    WithinDomains(hashedLeft, leftOffsets, left, keyL, hash2, nvl, f);
    WithinDomains(hashedRight, rightOffsets, right, keyR, hash2, nvl, f);
    ghost var lefts: seq<seq<seq<L>>>, rights: seq<seq<seq<R>>>, joins: seq<seq<seq<(L, R)>>> := [], [], [];
    results := seq(n, _ => []);
    forall x ensures Occurrences(results, x) == Occurrences(Flatten(joins), x) { NoResults(n, x); }
    for i := 0 to f
      invariant |joins| == |lefts| == |rights| == i && |results| == n
      invariant AreBatches(lefts, hashedLeft, leftOffsets, left, keyL, hash2, nvl, 1, f)
      invariant AreBatches(rights, hashedRight, rightOffsets, right, keyR, hash2, nvl, 1, f)
      invariant forall j :: 0 <= j < i ==> |joins[j]| == n && AreJoins(joins[j], lefts[j], rights[j], keyL, keyR)
      invariant forall x :: Occurrences(results, x) == Occurrences(Flatten(joins), x)
      invariant AtRank(results, keyL, hash1, hash2, nvl)
    {
      var communicatedLeft := ExchangeBatch(hashedLeft, leftOffsets, left, keyL, hash2, nvl, 1, f, i);
      var communicatedRight := ExchangeBatch(hashedRight, rightOffsets, right, keyR, hash2, nvl, 1, f, i);
      var joined := JoinAll(communicatedLeft, communicatedRight, keyL, keyR);
      forall x ensures Occurrences(Zip(results, joined), x) == Occurrences(Flatten(joins + [joined]), x) {
        MoreOccurrences(results, joins, joined, x);
      }
      BatchAtRank(joined, communicatedLeft, communicatedRight, hashedLeft, leftOffsets, left,
                  keyL, keyR, hash1, hash2, nvl, f, i);
      ZipAtRank(results, joined, keyL, hash1, hash2, nvl);
      lefts, rights, joins := lefts + [communicatedLeft], rights + [communicatedRight], joins + [joined];
      results := Zip(results, joined);
    }
    JoinsAreTheJoin(results, joins, lefts, rights, hashedLeft, leftOffsets, left, hashedRight, rightOffsets, right,
                    keyL, keyR, hash1, hash2, nvl, f);
    PairsByHash(results, Flatten(left), Flatten(right), keyL, keyR, hash1, hash2, nvl);
  }

  /** The second level partitions into a bucket for each batch and rank of a domain. */
  lemma WithinDomains<K, R(!new)>(hashed: seq<seq<R>>, offs: seq<seq<nat>>, tables: seq<seq<R>>, key: R -> K, hash2: K -> nat,
      nvl: nat, f: nat)
    requires nvl > 0 && f > 0 && |tables| % nvl == 0 && nvl * f > 0
    requires AllHashed(hashed, offs, tables, key, hash2, nvl * f)
    ensures Setting(hashed, offs, tables, key, hash2, nvl, 1, f)
  {
    hide AllHashed;
    assert nvl / 1 * f == nvl * f;
  }

  lemma JoinsAreTheJoin<K(!new), L(!new), R(!new)>(results: seq<seq<(L, R)>>,
      joins: seq<seq<seq<(L, R)>>>, lefts: seq<seq<seq<L>>>, rights: seq<seq<seq<R>>>,
      hashedLeft: seq<seq<L>>, leftOffsets: seq<seq<nat>>, left: seq<seq<L>>,
      hashedRight: seq<seq<R>>, rightOffsets: seq<seq<nat>>, right: seq<seq<R>>,
      keyL: L -> K, keyR: R -> K, hash1: K -> nat, hash2: K -> nat, nvl: nat, f: nat)
    requires |left| == |right| > 0 && nvl > 0 && f > 0 && |left| % nvl == 0 && |left| / nvl > 0
    requires InDomain(left, keyL, hash1, nvl) && InDomain(right, keyR, hash1, nvl)
    requires Setting(hashedLeft, leftOffsets, left, keyL, hash2, nvl, 1, f)
    requires Setting(hashedRight, rightOffsets, right, keyR, hash2, nvl, 1, f)
    requires |joins| == |lefts| == |rights| == f
    requires AreBatches(lefts, hashedLeft, leftOffsets, left, keyL, hash2, nvl, 1, f)
    requires AreBatches(rights, hashedRight, rightOffsets, right, keyR, hash2, nvl, 1, f)
    requires forall j :: 0 <= j < f ==> |joins[j]| == |left| && AreJoins(joins[j], lefts[j], rights[j], keyL, keyR)
    requires forall x :: Occurrences(results, x) == Occurrences(Flatten(joins), x)
    ensures IsJoin(Flatten(results), Flatten(left), Flatten(right), keyL, keyR)
  {
    hide Setting, AreBatches, Home, Occurrences, InDomain;
    CoLocated(lefts, hashedLeft, leftOffsets, left, keyL, hash1, hash2, nvl, f);
    CoLocated(rights, hashedRight, rightOffsets, right, keyR, hash1, hash2, nvl, f);
    PlacesJoined(joins, lefts, rights, |left|, keyL, keyR);
    JoinOfPlaces(Flatten(joins), Flatten(lefts), Flatten(rights), keyL, keyR, Home(hash1, hash2, |left|, nvl, f));
    forall x ensures Occurrences(left, x) == Occurrences(Flatten(lefts), x) {
      BatchesConserve(lefts, hashedLeft, leftOffsets, left, keyL, hash2, nvl, 1, f, x);
    }
    forall x ensures Occurrences(right, x) == Occurrences(Flatten(rights), x) {
      BatchesConserve(rights, hashedRight, rightOffsets, right, keyR, hash2, nvl, 1, f, x);
    }
    SameJoin(Flatten(joins), Flatten(lefts), Flatten(rights), results, left, right, keyL, keyR);
  }

  /** For every number of ranks, domain size, over-decomposition, pair of hash functions and placement
      of the rows: the results of all ranks together are the inner join of the two global tables, and
      each rank returns the pairs of its keys. `nvl` is the size of a domain. */
  method DistributedInnerJoin<K(==, !new), L(0, !new), R(0, !new)>(left: seq<seq<L>>, right: seq<seq<R>>,
      keyL: L -> K, keyR: R -> K, hash1: K -> nat, hash2: K -> nat, overDecomFactor: nat, domain: int)
    returns (results: seq<seq<(L, R)>>, ghost nvl: nat)
    requires |left| == |right| > 0 && overDecomFactor > 0
    ensures |results| == |left|
    ensures IsJoin(Flatten(results), Flatten(left), Flatten(right), keyL, keyR)
    ensures 0 < nvl <= |left| && |left| % nvl == 0 && |results| / nvl > 0
    ensures (domain >= |left| ==> nvl == |left|) && (domain < 1 ==> nvl == 1)
    ensures 1 <= domain < |left| ==>
              LargestDivisor(|left|, if domain < CeilSqrt(|left|) then domain else CeilSqrt(|left|), nvl)
    ensures JoinedByHash(results, Flatten(left), Flatten(right), keyL, keyR, hash1, hash2, nvl)
  {
    hide InDomain, Occurrences, IsJoin, Flatten, AtRank, JoinedByHash, CeilSqrt;
    var n := |left|;
    var size := GetNvlPartitionSize(n, domain);
    nvl := size;
    var shuffledLeft := ShuffleBetweenDomains(left, keyL, hash1, size);
    var shuffledRight := ShuffleBetweenDomains(right, keyR, hash1, size);
    if size == 1 {
      results := JoinAll(shuffledLeft, shuffledRight, keyL, keyR);
      OneRankDomains(results, shuffledLeft, shuffledRight, keyL, keyR, hash1);
      OneRankAtRank(results, shuffledLeft, shuffledRight, keyL, keyR, hash1, hash2);
    } else {
      results := JoinBatches(shuffledLeft, shuffledRight, keyL, keyR, hash1, hash2, size, overDecomFactor);
    }
    SameJoin(results, shuffledLeft, shuffledRight, results, left, right, keyL, keyR);
    PairsByHash(results, Flatten(left), Flatten(right), keyL, keyR, hash1, hash2, size);
  }

  lemma OneRankAtRank<K(!new), L(!new), R(!new)>(results: seq<seq<(L, R)>>, left: seq<seq<L>>, right: seq<seq<R>>,
      keyL: L -> K, keyR: R -> K, hash1: K -> nat, hash2: K -> nat)
    requires |left| == |right| > 0 && |left| / 1 > 0
    requires InDomain(left, keyL, hash1, 1) && AreJoins(results, left, right, keyL, keyR)
    ensures |results| == |left| && AtRank(results, keyL, hash1, hash2, 1)
  {
    hide IsJoin;
    forall b, x | 0 <= b < |results| && x in results[b]
      ensures hash1(keyL(x.0)) % (|results| / 1) == b / 1 && hash2(keyL(x.0)) % 1 == b % 1
    {
      LeftOfPair(results[b], left[b], right[b], keyL, keyR, x);
    }
  }

  /** With one rank a domain the first shuffle alone brings equal keys together. */
  lemma OneRankDomains<K(!new), L(!new), R(!new)>(results: seq<seq<(L, R)>>, left: seq<seq<L>>, right: seq<seq<R>>,
      keyL: L -> K, keyR: R -> K, hash1: K -> nat)
    requires |left| == |right| > 0 && |left| / 1 > 0
    requires InDomain(left, keyL, hash1, 1) && InDomain(right, keyR, hash1, 1)
    requires AreJoins(results, left, right, keyL, keyR)
    ensures IsJoin(Flatten(results), Flatten(left), Flatten(right), keyL, keyR)
  {
    var home := (k: K) => hash1(k) % |left|;
    JoinOfPlaces(results, left, right, keyL, keyR, home);
  }
}
