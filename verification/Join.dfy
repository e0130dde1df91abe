/** The multiset inner join of two tables, and when joining place by place gives the whole join. */
module Join {
  import opened Sums
  import opened Tables

  /** `out` holds every pair of rows with equal keys as often as the pair occurs in the product of the
      two tables, and nothing else. */
  ghost predicate IsJoin<K, L(!new), R(!new)>(out: seq<(L, R)>, left: seq<L>, right: seq<R>,
      keyL: L -> K, keyR: R -> K) {
    forall l, r :: multiset(out)[(l, r)] == Pairs(left, right, keyL, keyR, l, r)
  }

  ghost function Pairs<K, L, R>(left: seq<L>, right: seq<R>, keyL: L -> K, keyR: R -> K, l: L, r: R): nat {
    if keyL(l) == keyR(r) then multiset(left)[l] * multiset(right)[r] else 0
  }

  lemma PairsMore<K, L, R>(left: seq<L>, right: seq<R>, keyL: L -> K, keyR: R -> K, l: L, r: R, x: L)
    ensures Pairs(left + [x], right, keyL, keyR, l, r)
         == Pairs(left, right, keyL, keyR, l, r) + Pairs([x], right, keyL, keyR, l, r)
  {
    assert multiset(left + [x])[l] == multiset(left)[l] + multiset([x])[l];
    Distribute(multiset(left)[l], multiset([x])[l], multiset(right)[r]);
  }

  lemma Distribute(a: int, b: int, c: int)
    ensures (a + b) * c == a * c + b * c
  {
  }

  /** All matches of one left row. */
  method MatchRow<K(==), L(!new), R(!new)>(x: L, right: seq<R>, keyL: L -> K, keyR: R -> K) returns (out: seq<(L, R)>)
    ensures IsJoin(out, [x], right, keyL, keyR)
  {
    out := [];
    for j := 0 to |right|
      invariant forall l, r :: multiset(out)[(l, r)] ==
                  if l == x && keyL(x) == keyR(r) then multiset(right[..j])[r] else 0
    {
      assert right[..j + 1] == right[..j] + [right[j]];
      if keyL(x) == keyR(right[j]) {
        out := out + [(x, right[j])];
      }
    }
    assert right[..|right|] == right;
  }

  /** The inner join of two tables that both have rows. */
  method InnerJoin<K(==), L(!new), R(!new)>(left: seq<L>, right: seq<R>, keyL: L -> K, keyR: R -> K) returns (out: seq<(L, R)>)
    requires left != [] && right != []
    ensures IsJoin(out, left, right, keyL, keyR)
  {
    out := [];
    for i := 0 to |left|
      invariant IsJoin(out, left[..i], right, keyL, keyR)
    {
      var more := MatchRow(left[i], right, keyL, keyR);
      assert left[..i + 1] == left[..i] + [left[i]];
      JoinMore(out, more, left[..i], left[i], right, keyL, keyR);
      out := out + more;
    }
    assert left[..|left|] == left;
  }

  lemma JoinMore<K, L(!new), R(!new)>(out: seq<(L, R)>, more: seq<(L, R)>, left: seq<L>, x: L, right: seq<R>,
      keyL: L -> K, keyR: R -> K)
    requires IsJoin(out, left, right, keyL, keyR) && IsJoin(more, [x], right, keyL, keyR)
    ensures IsJoin(out + more, left + [x], right, keyL, keyR)
  {
    forall l, r ensures multiset(out + more)[(l, r)] == Pairs(left + [x], right, keyL, keyR, l, r) {
      PairsMore(left, right, keyL, keyR, l, r, x);
      assert multiset(out + more)[(l, r)] == multiset(out)[(l, r)] + multiset(more)[(l, r)];
    }
  }

  /** `local_join_helper`: a place without left or without right rows contributes nothing. */
  method LocalJoinHelper<K(==), L(!new), R(!new)>(left: seq<L>, right: seq<R>, keyL: L -> K, keyR: R -> K)
    returns (out: seq<(L, R)>)
    ensures IsJoin(out, left, right, keyL, keyR)
  {
    if |left| != 0 && |right| != 0 {
      out := InnerJoin(left, right, keyL, keyR);
    } else {
      out := [];
    }
  }

  /** Every row is at the place its key calls home. */
  ghost predicate AtHome<K(!new), R(!new)>(tables: seq<seq<R>>, key: R -> K, home: K -> int) {
    forall p, x :: 0 <= p < |tables| && x in tables[p] ==> home(key(x)) == p
  }

  /** If all rows with one key are at one place, the places together hold each row as often as that
      place does. */
  lemma AllAtHome<K(!new), R(!new)>(tables: seq<seq<R>>, key: R -> K, home: K -> int, x: R)
    requires AtHome(tables, key, home)
    ensures forall p :: 0 <= p < |tables| && p != home(key(x)) ==> multiset(tables[p])[x] == 0
    ensures Occurrences(tables, x) ==
              if 0 <= home(key(x)) < |tables| then multiset(tables[home(key(x))])[x] else 0
  {
    var h := home(key(x));
    forall p | 0 <= p < |tables| && p != h ensures multiset(tables[p])[x] == 0 {
      assert x !in tables[p];
    }
    OccurrencesAre(tables, x);
    if 0 <= h < |tables| { SumOne(|tables|, In(tables, x), h); } else { SumZero(|tables|, In(tables, x)); }
  }

  /** Joining place by place loses no pair and doubles none, if equal keys share a home. */
  lemma JoinOfPlaces<K(!new), L(!new), R(!new)>(outs: seq<seq<(L, R)>>, lefts: seq<seq<L>>, rights: seq<seq<R>>,
      keyL: L -> K, keyR: R -> K, home: K -> int)
    requires |outs| == |lefts| == |rights|
    requires AtHome(lefts, keyL, home) && AtHome(rights, keyR, home)
    requires forall p :: 0 <= p < |outs| ==> IsJoin(outs[p], lefts[p], rights[p], keyL, keyR)
    ensures IsJoin(Flatten(outs), Flatten(lefts), Flatten(rights), keyL, keyR)
  {
    forall l, r ensures multiset(Flatten(outs))[(l, r)] == Pairs(Flatten(lefts), Flatten(rights), keyL, keyR, l, r) {
      JoinOfPair(outs, lefts, rights, keyL, keyR, home, l, r);
    }
  }

  lemma JoinOfPair<K(!new), L(!new), R(!new)>(outs: seq<seq<(L, R)>>, lefts: seq<seq<L>>, rights: seq<seq<R>>,
      keyL: L -> K, keyR: R -> K, home: K -> int, l: L, r: R)
    requires |outs| == |lefts| == |rights|
    requires AtHome(lefts, keyL, home) && AtHome(rights, keyR, home)
    requires forall p :: 0 <= p < |outs| ==> IsJoin(outs[p], lefts[p], rights[p], keyL, keyR)
    ensures Occurrences(outs, (l, r)) == Pairs(Flatten(lefts), Flatten(rights), keyL, keyR, l, r)
  {
    var n, h := |outs|, home(keyL(l));
    AllAtHome(lefts, keyL, home, l);
    AllAtHome(rights, keyR, home, r);
    OccurrencesAre(outs, (l, r));
    forall p | 0 <= p < n ensures In(outs, (l, r))(p) == Pairs(lefts[p], rights[p], keyL, keyR, l, r) {
      assert IsJoin(outs[p], lefts[p], rights[p], keyL, keyR);
    }
    if keyL(l) == keyR(r) && 0 <= h < n {
      SumOne(n, In(outs, (l, r)), h);
    } else {
      SumZero(n, In(outs, (l, r)));
    }
  }
}
