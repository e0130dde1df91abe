/** `generate_input_tables` around the lottery: its size, taking the keys of the build table out of
    it, and the probe table with a chosen share of matching keys. */
module InputTables {
  import opened Lottery
  import opened Wire

  /** The number of keys in the lottery, for the largest value of the key type. */
  function LotterySize(randMax: nat, maxKey: nat): (size: nat)
    requires randMax <= maxKey
    ensures randMax <= size <= randMax + 1 && size <= maxKey
    ensures size == randMax + 1 <==> randMax < maxKey - 1
  {
    if randMax < maxKey - 1 then randMax + 1 else randMax
  }

  ghost predicate Ascending(s: seq<int>) {
    forall i, j :: 0 <= i < j < |s| ==> s[i] <= s[j]
  }

  ghost predicate Increasing(s: seq<int>) {
    forall i, j :: 0 <= i < j < |s| ==> s[i] < s[j]
  }

  /** The keys below `v` that the build table uses. */
  ghost function KeysBelow(keys: seq<int>, v: nat): set<int> {
    set k | k in keys && 0 <= k < v
  }

  /** Past the keys up to `v`. */
  method SkipKeys(keys: seq<int>, first: nat, v: int) returns (i: nat)
    requires first <= |keys| && forall j :: 0 <= j < first ==> keys[j] <= v
    ensures first <= i <= |keys| && (forall j :: 0 <= j < i ==> keys[j] <= v) && (i < |keys| ==> keys[i] > v)
  {
    i := first;
    while i < |keys| && keys[i] <= v
      invariant first <= i <= |keys|
      invariant forall j :: 0 <= j < i ==> keys[j] <= v
    {
      i := i + 1;
    }
  }

  /** `thrust::set_difference` of the counting sequence and the sorted build table: every key that the
      table does not use, once, in order. Keys may repeat in the table. */
  method ExcludeKeys(size: nat, keys: seq<int>) returns (rest: seq<int>)
    requires Ascending(keys) && forall k :: k in keys ==> 0 <= k
    ensures forall v :: v in rest <==> 0 <= v < size && v !in keys
    ensures Increasing(rest)
    ensures |rest| + |KeysBelow(keys, size)| == size
  {
    rest := [];
    var i := 0;
    assert KeysBelow(keys, 0) == {};
    assert |keys| > 0 ==> keys[0] in keys;
    for v := 0 to size
      invariant i <= |keys|
      invariant forall j :: 0 <= j < i ==> keys[j] < v
      invariant i < |keys| ==> keys[i] >= v
      invariant forall w :: w in rest <==> 0 <= w < v && w !in keys
      invariant Increasing(rest) && forall j :: 0 <= j < |rest| ==> rest[j] < v
      invariant |rest| + |KeysBelow(keys, v)| == v
    {
      if i == |keys| || v < keys[i] {
        assert v !in keys;
        assert KeysBelow(keys, v + 1) == KeysBelow(keys, v);
        rest := rest + [v];
      } else {
        assert KeysBelow(keys, v + 1) == KeysBelow(keys, v) + {v};
        i := SkipKeys(keys, i, v);
      }
    }
  }

  /** `init_probe_tbl`: with `draws[i]` the two random numbers of row `i`, the row has a key of the build
      table exactly if the first is at most the selectivity. `None` is a read outside of a table: of the
      build table if it is empty, of the remaining lottery if that is empty or the second draw is 1. */
  method InitProbeTable(build: seq<int>, rest: seq<int>, selectivity: real, draws: seq<(real, real)>, size: nat)
    returns (probe: seq<Option<int>>)
    requires forall v :: v in rest <==> 0 <= v < size && v !in build
    requires forall k :: k in build ==> 0 <= k < size
    requires forall d :: d in draws ==> 0.0 < d.0 <= 1.0 && 0.0 < d.1 <= 1.0
    ensures |probe| == |draws|
    ensures forall i :: 0 <= i < |probe| ==>
              (probe[i].None? <==> if draws[i].0 <= selectivity then build == [] else rest == [] || draws[i].1 == 1.0)
    ensures forall i, k :: 0 <= i < |probe| && draws[i].0 <= selectivity && build != [] && Scaled(k, draws[i].1, |build|) ==>
              0 <= k <= |build| && probe[i] == Some(build[if k < |build| then k else |build| - 1])
    ensures forall i, k :: 0 <= i < |probe| && draws[i].0 > selectivity && rest != [] && Scaled(k, draws[i].1, |rest|) ==>
              0 <= k <= |rest| && probe[i] == if k < |rest| then Some(rest[k]) else None
    ensures forall i :: 0 <= i < |probe| && probe[i].Some? ==> 0 <= probe[i].value < size
    ensures forall i :: 0 <= i < |probe| && probe[i].Some? ==> (probe[i].value in build <==> draws[i].0 <= selectivity)
  {
    probe := [];
    for i := 0 to |draws|
      invariant |probe| == i
      invariant forall j :: 0 <= j < i ==> Probed(probe[j], build, rest, selectivity, draws[j], size)
    {
      assert draws[i] in draws;
      var key;
      if draws[i].0 <= selectivity {
        if build != [] { StartInRangeIff(draws[i].1, |build|); }
        var index := StartIndex(draws[i].1, |build|);
        if index >= |build| { index := |build| - 1; }
        key := Read(build, index);
      } else {
        if rest != [] { StartInRangeIff(draws[i].1, |rest|); }
        key := Read(rest, StartIndex(draws[i].1, |rest|));
      }
      probe := probe + [key];
    }
  }

  /** What a row of the probe table is: the key that the second draw picks from its table. */
  ghost predicate Probed(key: Option<int>, build: seq<int>, rest: seq<int>, selectivity: real, draw: (real, real), size: nat) {
    && (key.None? <==> if draw.0 <= selectivity then build == [] else rest == [] || draw.1 == 1.0)
    && (key.Some? ==> 0 <= key.value < size && (key.value in build <==> draw.0 <= selectivity))
    && (draw.0 <= selectivity && build != [] ==> forall k :: Scaled(k, draw.1, |build|) ==>
          0 <= k <= |build| && key == Some(build[if k < |build| then k else |build| - 1]))
    && (draw.0 > selectivity && rest != [] ==> forall k :: Scaled(k, draw.1, |rest|) ==>
          0 <= k <= |rest| && key == if k < |rest| then Some(rest[k]) else None)
  }

  function Read(table: seq<int>, index: int): (key: Option<int>)
    ensures key.Some? ==> key.value in table
  {
    if 0 <= index < |table| then Some(table[index]) else None
  }
}
