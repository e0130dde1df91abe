/** Distributing a table from the root in contiguous parts and collecting it again. */
module DistributeTable {
  import opened Arith
  import opened Tables

  /** `get_local_table_size`. */
  function LocalSize(global: nat, rank: nat, ranks: nat): nat
    requires ranks > 0
  {
    global / ranks + if rank < global % ranks then 1 else 0
  }

  /** The closed form of `distribute_cols` for the first row of a rank. */
  function StartIdx(global: nat, rank: nat, ranks: nat): nat
    requires ranks > 0
  {
    DivideAgain(global, ranks);
    (if rank < global % ranks then rank else global % ranks) + global / ranks * rank
  }

  /** The closed form is the prefix sum of the local sizes, and these add up to the whole table. */
  lemma StartIsPrefixSum(global: nat, rank: nat, ranks: nat)
    requires rank < ranks
    ensures StartIdx(global, 0, ranks) == 0
    ensures StartIdx(global, rank + 1, ranks) == StartIdx(global, rank, ranks) + LocalSize(global, rank, ranks)
    ensures StartIdx(global, ranks, ranks) == global
    ensures global / ranks <= LocalSize(global, rank, ranks) <= global / ranks + 1
    ensures LocalSize(global, rank, ranks) == global / ranks + 1 <==> rank < global % ranks
  {
    DivideAgain(global, ranks);
    assert global / ranks * (rank + 1) == global / ranks * rank + global / ranks;
    assert global / ranks * ranks == ranks * (global / ranks);
  }

  /** No rank has two rows more than another, and the ranks with one more come first. With the sum known,
      this fixes all sizes. */
  lemma SizesBalanced(global: nat, rank: nat, rank': nat, ranks: nat)
    requires rank < rank' < ranks
    ensures LocalSize(global, rank', ranks) <= LocalSize(global, rank, ranks) <= LocalSize(global, rank', ranks) + 1
  {
    DivideAgain(global, ranks);
  }

  lemma {:induction false} StartsGrow(global: nat, r: nat, r': nat, ranks: nat)
    requires r <= r' <= ranks && ranks > 0
    ensures StartIdx(global, r, ranks) <= StartIdx(global, r', ranks)
    decreases r' - r
  {
    if r < r' {
      StartsGrow(global, r, r' - 1, ranks);
      StartIsPrefixSum(global, r' - 1, ranks);
    }
  }

  lemma WithinTable(global: nat, rank: nat, ranks: nat)
    requires rank < ranks
    ensures StartIdx(global, rank, ranks) + LocalSize(global, rank, ranks) <= global
  {
    StartIsPrefixSum(global, rank, ranks);
    StartsGrow(global, rank + 1, ranks, ranks);
  }

  /** The part of a column for a rank. */
  ghost function Part<T>(column: seq<T>, rank: nat, ranks: nat): seq<T>
    requires rank < ranks
  {
    WithinTable(|column|, rank, ranks);
    column[StartIdx(|column|, rank, ranks)..StartIdx(|column|, rank, ranks) + LocalSize(|column|, rank, ranks)]
  }

  /** `distribute_cols` at the root: rank 0 copies its part, the others are sent theirs. */
  method DistributeCols<T>(column: seq<T>, ranks: nat) returns (local: seq<seq<T>>)
    requires ranks > 0
    ensures |local| == ranks
    ensures forall r :: 0 <= r < ranks ==> local[r] == Part(column, r, ranks)
    ensures forall r :: 0 <= r < ranks ==> |local[r]| == |column| / ranks || |local[r]| == |column| / ranks + 1
    ensures forall r :: 0 <= r < ranks ==> (|local[r]| == |column| / ranks + 1 <==> r < |column| % ranks)
    ensures forall r, r' :: 0 <= r < r' < ranks ==> |local[r']| <= |local[r]| <= |local[r']| + 1
    ensures Flatten(local) == column
  {
    WithinTable(|column|, 0, ranks);
    StartIsPrefixSum(|column|, 0, ranks);
    local := [column[..LocalSize(|column|, 0, ranks)]];
    for r := 1 to ranks
      invariant |local| == r
      invariant forall k :: 0 <= k < r ==> local[k] == Part(column, k, ranks)
      invariant forall k :: 0 <= k < r ==> |local[k]| == LocalSize(|column|, k, ranks)
    {
      WithinTable(|column|, r, ranks);
      var start := StartIdx(|column|, r, ranks);
      local := local + [column[start..start + LocalSize(|column|, r, ranks)]];
    }
    CollectInvertsDistribute(column, local);
  }

  /** `collect_tables` for one column: the parts are received at the scan of their sizes. */
  method CollectColumn<T(0)>(local: seq<seq<T>>) returns (column: seq<T>)
    requires local != []
    ensures column == Flatten(local)
  {
    var scan := [0];
    for r := 0 to |local|
      invariant |scan| == r + 1
      invariant forall k :: 0 <= k <= r ==> scan[k] == Starts(local, k)
    {
      FlattenSlice(local, r);
      scan := scan + [scan[r] + |local[r]|];
    }
    assert local[..|local|] == local;
    var merged := new T[scan[|local|]];
    FlattenSlice(local, 0);
    for r := 1 to |local|
      invariant scan[1] <= scan[r] <= merged.Length == |Flatten(local)|
      invariant forall k :: scan[1] <= k < scan[r] ==> merged[k] == Flatten(local)[k]
    {
      FlattenSlice(local, r);
      forall k | 0 <= k < |local[r]| {
        merged[scan[r] + k] := local[r][k];
      }
      forall k | 0 <= k < |local[r]| ensures local[r][k] == Flatten(local)[scan[r] + k] {
        assert Flatten(local)[scan[r]..scan[r] + |local[r]|][k] == local[r][k];
      }
    }
    forall k | 0 <= k < |local[0]| {
      merged[k] := local[0][k];
    }
    forall k | 0 <= k < |local[0]| ensures local[0][k] == Flatten(local)[k] {
      assert Flatten(local)[0..0 + |local[0]|][k] == local[0][k];
    }
    column := merged[..];
  }

  /** The parts laid end to end are the column. */
  lemma {:induction false} PartsTile<T>(column: seq<T>, local: seq<seq<T>>, k: nat)
    requires local != [] && k <= |local|
    requires forall r :: 0 <= r < |local| ==> local[r] == Part(column, r, |local|)
    ensures StartIdx(|column|, k, |local|) <= |column|
    ensures Flatten(local[..k]) == column[..StartIdx(|column|, k, |local|)]
  {
    if k == 0 {
      StartIsPrefixSum(|column|, 0, |local|);
    } else {
      PartsTile(column, local, k - 1);
      StartIsPrefixSum(|column|, k - 1, |local|);
      WithinTable(|column|, k - 1, |local|);
      assert local[..k][..k - 1] == local[..k - 1];
      assert local[k - 1] == Part(column, k - 1, |local|);
    }
  }

  /** Collecting what was distributed gives back the column, in row order, for any number of rows and
      ranks. */
  lemma CollectInvertsDistribute<T>(column: seq<T>, local: seq<seq<T>>)
    requires local != []
    requires forall r :: 0 <= r < |local| ==> local[r] == Part(column, r, |local|)
    ensures Flatten(local) == column
  {
    PartsTile(column, local, |local|);
    StartIsPrefixSum(|column|, |local| - 1, |local|);
    assert local[..|local|] == local && column[..|column|] == column;
  }

  /** The round trip of a table of columns. */
  method RoundTrip<T(0)>(table: seq<seq<T>>, ranks: nat) returns (collected: seq<seq<T>>)
    requires ranks > 0
    ensures collected == table
  {
    collected := [];
    for c := 0 to |table|
      invariant collected == table[..c]
    {
      var local := DistributeCols(table[c], ranks);
      var column := CollectColumn(local);
      collected := collected + [column];
    }
  }
}
