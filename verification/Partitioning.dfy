/** Partitioning a table by a hash of the key, as `cudf::hash_partition` is used: the rows of bucket
    `j` start at offset `j`, and the caller appends the number of rows as the last offset. */
module Partitioning {
  import opened Sums
  import opened Tables
  import opened AllToAll

  function Bucket<K, R>(key: R -> K, hash: K -> nat, n: nat, row: R): (b: nat)
    requires n > 0
    ensures b < n
  {
    hash(key(row)) % n
  }

  /** `out` is `table` sorted by bucket: slice `j` holds every row of bucket `j` as often as the table
      does and no other row. The last offset is the number of rows. */
  ghost predicate IsPartition<K, R(!new)>(out: seq<R>, offsets: seq<nat>, table: seq<R>, key: R -> K, hash: K -> nat, n: nat)
    requires n > 0
  {
    && Offsets(offsets, |out|, n) && offsets[0] == 0 && offsets[n] == |out|
    && multiset(out) == multiset(table)
    && forall j, x :: 0 <= j < n ==>
         multiset(Slice(out, offsets, j))[x] == if Bucket(key, hash, n, x) == j then multiset(table)[x] else 0
  }

  ghost predicate Sorted<K, R(!new)>(buckets: seq<seq<R>>, table: seq<R>, key: R -> K, hash: K -> nat, n: nat)
    requires n > 0
  {
    && |buckets| == n
    && forall j, x :: 0 <= j < n ==>
         multiset(buckets[j])[x] == if Bucket(key, hash, n, x) == j then multiset(table)[x] else 0
  }

  /** Dropping one more row into its bucket. */
  lemma SortOne<K, R(!new)>(buckets: seq<seq<R>>, table: seq<R>, row: R, key: R -> K, hash: K -> nat, n: nat)
    requires n > 0 && Sorted(buckets, table, key, hash, n)
    ensures var b := Bucket(key, hash, n, row);
            Sorted(buckets[b := buckets[b] + [row]], table + [row], key, hash, n)
  {
  }

  /** The buckets together hold the rows of the table. */
  lemma BucketsHoldAll<K, R(!new)>(buckets: seq<seq<R>>, table: seq<R>, key: R -> K, hash: K -> nat, n: nat)
    requires n > 0 && Sorted(buckets, table, key, hash, n)
    ensures multiset(Flatten(buckets)) == multiset(table)
  {
    forall x ensures multiset(Flatten(buckets))[x] == multiset(table)[x] {
      OccurrencesAre(buckets, x);
      SumOne(n, In(buckets, x), Bucket(key, hash, n, x));
    }
    SameRows(Flatten(buckets), table);
  }

  method HashPartition<K, R(!new)>(table: seq<R>, key: R -> K, hash: K -> nat, n: nat)
    returns (out: seq<R>, offsets: seq<nat>)
    requires n > 0
    ensures |offsets| == n && IsPartition(out, offsets + [|out|], table, key, hash, n)
  {
    var buckets: seq<seq<R>> := seq(n, _ => []);
    for i := 0 to |table|
      invariant Sorted(buckets, table[..i], key, hash, n)
    {
      var b := Bucket(key, hash, n, table[i]);
      SortOne(buckets, table[..i], table[i], key, hash, n);
      assert table[..i + 1] == table[..i] + [table[i]];
      buckets := buckets[b := buckets[b] + [table[i]]];
    }
    assert table[..|table|] == table;
    out, offsets := [], [];
    for j := 0 to n
      invariant |offsets| == j
      invariant out == Flatten(buckets[..j])
      invariant forall i :: 0 <= i < j ==> offsets[i] == Starts(buckets, i)
    {
      assert buckets[..j + 1][..j] == buckets[..j];
      offsets := offsets + [|out|];
      out := out + buckets[j];
    }
    assert buckets[..n] == buckets;
    BucketsAreSlices(buckets, offsets + [|out|], table, key, hash, n);
  }

  lemma BucketsAreSlices<K, R(!new)>(buckets: seq<seq<R>>, offsets: seq<nat>, table: seq<R>, key: R -> K, hash: K -> nat, n: nat)
    requires n > 0 && Sorted(buckets, table, key, hash, n)
    requires |offsets| == n + 1 && forall i :: 0 <= i <= n ==> offsets[i] == Starts(buckets, i)
    ensures IsPartition(Flatten(buckets), offsets, table, key, hash, n)
  {
    hide Slice, Flatten, Starts, Offsets, Bucket;
    BucketsHoldAll(buckets, table, key, hash, n);
    StartsAreOffsets(buckets, offsets);
    var out := Flatten(buckets);
    forall j, x | 0 <= j < n
      ensures multiset(Slice(out, offsets, j))[x] == if Bucket(key, hash, n, x) == j then multiset(table)[x] else 0
    {
      assert Slice(out, offsets, j) == buckets[j];
    }
  }

  /** The starts of the parts are the offsets of the parts in their concatenation. */
  lemma StartsAreOffsets<T>(parts: seq<seq<T>>, offsets: seq<nat>)
    requires |offsets| == |parts| + 1 && forall i :: 0 <= i <= |parts| ==> offsets[i] == Starts(parts, i)
    ensures offsets[0] == 0 && offsets[|parts|] == |Flatten(parts)|
    ensures Offsets(offsets, |Flatten(parts)|, |parts|)
    ensures forall j :: 0 <= j < |parts| ==> Slice(Flatten(parts), offsets, j) == parts[j]
  {
    var n := |parts|;
    assert parts[..n] == parts && parts[..0] == [];
    forall i, j | 0 <= i <= j <= n ensures offsets[i] <= offsets[j] { StartsGrow(parts, i, j); }
    assert offsets[n] == |Flatten(parts)|;
    forall j | 0 <= j < n ensures Slice(Flatten(parts), offsets, j) == parts[j] { FlattenSlice(parts, j); }
  }

  lemma {:induction false} StartsGrow<T>(ss: seq<seq<T>>, i: nat, j: nat)
    requires i <= j <= |ss|
    ensures Starts(ss, i) <= Starts(ss, j)
    decreases j - i
  {
    if i < j {
      StartsGrow(ss, i, j - 1);
      FlattenSlice(ss, j - 1);
    }
  }
}
