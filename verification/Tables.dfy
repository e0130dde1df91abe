/** Tables as sequences of rows, one table a rank, and how often a row occurs in them. */
module Tables {
  import opened Sums

  function Flatten<T>(ss: seq<seq<T>>): seq<T> {
    if ss == [] then [] else Flatten(ss[..|ss| - 1]) + ss[|ss| - 1]
  }

  /** How often `x` occurs in all tables together. */
  ghost function Occurrences<T>(ss: seq<seq<T>>, x: T): nat {
    multiset(Flatten(ss))[x]
  }

  /** The number of times `x` occurs in table `i`, for use in sums. */
  ghost function In<T>(ss: seq<seq<T>>, x: T): int -> int {
    i => if 0 <= i < |ss| then multiset(ss[i])[x] as int else 0
  }

  lemma {:induction false} OccurrencesAre<T>(ss: seq<seq<T>>, x: T)
    ensures Occurrences(ss, x) == Sum(|ss|, In(ss, x))
  {
    if ss != [] {
      var front := ss[..|ss| - 1];
      OccurrencesAre(front, x);
      SumEq(|front|, In(front, x), In(ss, x));
      assert Flatten(ss) == Flatten(front) + ss[|ss| - 1];
    }
  }

  lemma {:induction false} FlattenIn<T>(ss: seq<seq<T>>, x: T)
    ensures x in Flatten(ss) <==> exists i :: 0 <= i < |ss| && x in ss[i]
  {
    if ss != [] {
      var front := ss[..|ss| - 1];
      FlattenIn(front, x);
      assert Flatten(ss) == Flatten(front) + ss[|ss| - 1];
      assert forall i :: 0 <= i < |front| ==> front[i] == ss[i];
      if x in Flatten(ss) && x in Flatten(front) {
        var i :| 0 <= i < |front| && x in front[i];
        assert x in ss[i];
      }
    }
  }

  lemma {:induction false} FlattenAppend<T>(a: seq<seq<T>>, b: seq<seq<T>>)
    ensures Flatten(a + b) == Flatten(a) + Flatten(b)
  {
    if b == [] {
      assert a + b == a;
    } else {
      FlattenAppend(a, b[..|b| - 1]);
      assert (a + b)[..|a + b| - 1] == a + b[..|b| - 1];
    }
  }

  /** Two lists of tables have the same rows when every row occurs equally often. */
  lemma SameRows<T>(a: seq<T>, b: seq<T>)
    requires forall x :: multiset(a)[x] == multiset(b)[x]
    ensures multiset(a) == multiset(b)
  {
  }

  /** The start of every table in the concatenation. */
  function Starts<T>(ss: seq<seq<T>>, i: nat): nat
    requires i <= |ss|
  {
    |Flatten(ss[..i])|
  }

  /** Table `i` sits at its start in the concatenation. */
  lemma {:induction false} FlattenSlice<T>(ss: seq<seq<T>>, i: nat)
    requires i < |ss|
    ensures Starts(ss, i + 1) == Starts(ss, i) + |ss[i]| <= |Flatten(ss)|
    ensures Flatten(ss)[Starts(ss, i)..Starts(ss, i) + |ss[i]|] == ss[i]
  {
    assert ss[..i + 1][..i] == ss[..i];
    assert ss == ss[..i + 1] + ss[i + 1..];
    FlattenAppend(ss[..i + 1], ss[i + 1..]);
  }
}
