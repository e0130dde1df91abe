/** The key lottery of `init_build_tbl`: threads claim slots by compare-and-swap and linear probing.
    One step is one memory access of one thread; any interleaving may happen. */
module Lottery {
  import opened Arith

  /** `size` keys in the lottery, `rows` keys to draw, `stride` threads in the grid. */
  datatype Setup = Setup(size: nat, rows: nat, stride: nat) {
    ghost predicate Valid() {
      size > 0 && stride > 0
    }
  }

  const USED := -1

  /** Where a thread is in its draw: `start` is the first slot it probed, `failed` the number of slots
      it found used, `seen` the key it loaded before the compare-and-swap. */
  datatype Phase =
    | Drawing
    | Loading(start: nat, failed: nat)
    | Swapping(start: nat, failed: nat, seen: int)
    | Storing(key: int)

  datatype Thread = Thread(row: nat, phase: Phase)

  /** `claims` is the history of successful swaps, by row of the build table. */
  datatype State = State(lottery: seq<int>, build: map<nat, int>, threads: seq<Thread>, claims: map<nat, int>)

  datatype Step = Draw(x: real) | Load | Swap | Put

  ghost predicate Initial(u: Setup, s: State) {
    && u.Valid()
    && s.lottery == seq(u.size, i => i) && s.build == map[] && s.claims == map[]
    && |s.threads| == u.stride
    && forall t :: 0 <= t < u.stride ==> s.threads[t] == Thread(t, Drawing)
  }

  /** `size_type lottery_idx = x * lottery_size` truncates. */
  function StartIndex(x: real, size: nat): int {
    (x * size as real).Floor
  }

  /** `k` is the whole part of `x * size`. */
  ghost predicate Scaled(k: int, x: real, size: nat) {
    k as real <= x * size as real < k as real + 1.0
  }

  /** A draw is in (0, 1]; it starts at the whole part of its multiple of the size, which is within the
      lottery exactly if the draw is not 1. */
  lemma StartInRangeIff(x: real, size: nat)
    requires 0.0 < x <= 1.0 && size > 0
    ensures forall k :: Scaled(k, x, size) <==> k == StartIndex(x, size)
    ensures 0 <= StartIndex(x, size)
    ensures StartIndex(x, size) < size <==> x < 1.0
    ensures x == 1.0 ==> StartIndex(x, size) == size
  {
    if x < 1.0 {
      ScaleReal(x, size as real);
      FloorBelow(x * size as real, size);
    } else {
      OneTimes(x, size as real);
    }
  }

  lemma FloorBelow(y: real, n: nat)
    requires 0.0 <= y < n as real
    ensures 0 <= y.Floor < n
  {
  }

  lemma OneTimes(x: real, s: real)
    requires x == 1.0
    ensures x * s == s
  {
  }

  lemma ScaleReal(x: real, s: real)
    requires 0.0 < x < 1.0 && s > 0.0
    ensures 0.0 < x * s < s
  {
    PositiveProduct(x, s);
    PositiveProduct(1.0 - x, s);
    SplitProduct(x, s);
  }

  lemma PositiveProduct(x: real, s: real)
    requires x > 0.0 && s > 0.0
    ensures x * s > 0.0
  {
  }

  lemma SplitProduct(x: real, s: real)
    ensures (1.0 - x) * s == s - x * s
  {
  }

  function Slot(u: Setup, start: nat, failed: nat): (slot: nat)
    requires u.Valid()
    ensures slot < u.size
  {
    (start + failed) % u.size
  }

  ghost predicate Shape(u: Setup, s: State) {
    u.Valid() && |s.lottery| == u.size && |s.threads| == u.stride
  }

  ghost predicate Enabled(u: Setup, s: State, t: nat, a: Step) {
    && Shape(u, s) && t < u.stride && s.threads[t].row < u.rows
    && match s.threads[t].phase
       case Drawing => a.Draw? && 0.0 < a.x < 1.0
       case Loading(_, _) => a == Load
       case Swapping(_, _, _) => a == Swap
       case Storing(_) => a == Put
  }

  function MoveTo(s: State, t: nat, phase: Phase): State
    requires t < |s.threads|
  {
    s.(threads := s.threads[t := s.threads[t].(phase := phase)])
  }

  /** The loop of one thread. A swap returns what it found; anything but `USED` becomes the key. */
  ghost function Do(u: Setup, s: State, t: nat, a: Step): State
    requires Enabled(u, s, t, a)
  {
    var th := s.threads[t];
    match th.phase
    case Drawing =>
      StartInRangeIff(a.x, u.size);
      MoveTo(s, t, Loading(StartIndex(a.x, u.size), 0))
    case Loading(start, failed) =>
      var seen := s.lottery[Slot(u, start, failed)];
      MoveTo(s, t, if seen == USED then Loading(start, failed + 1) else Swapping(start, failed, seen))
    case Swapping(start, failed, seen) =>
      var slot := Slot(u, start, failed);
      var found := s.lottery[slot];
      var swapped := if found == seen then s.(lottery := s.lottery[slot := USED], claims := s.claims[th.row := found]) else s;
      MoveTo(swapped, t, if found == USED then Loading(start, failed + 1) else Storing(found))
    case Storing(key) =>
      s.(build := s.build[th.row := key], threads := s.threads[t := Thread(th.row + u.stride, Drawing)])
  }

  // ---------- the invariant ----------

  /** A row belongs to one thread of the grid-stride loop: it is stored once that thread is past it,
      and claimed from the swap on. */
  ghost predicate RowOk(u: Setup, s: State, r: nat)
    requires Shape(u, s)
  {
    && var th := s.threads[r % u.stride];
       && (r in s.build <==> r < u.rows && r < th.row)
       && (r in s.claims <==> r in s.build || (r < u.rows && th.row == r && th.phase.Storing?))
       && (r in s.build && r in s.claims ==> s.build[r] == s.claims[r])
  }

  ghost predicate ThreadOk(u: Setup, s: State, t: nat)
    requires Shape(u, s) && t < u.stride
  {
    && var th := s.threads[t];
       && th.row % u.stride == t
       && (th.row >= u.rows ==> th.phase == Drawing)
       && (th.phase.Storing? ==> th.row in s.claims && s.claims[th.row] == th.phase.key)
  }

  ghost predicate RowsOk(u: Setup, s: State)
    requires Shape(u, s)
  {
    && (forall t :: 0 <= t < u.stride ==> ThreadOk(u, s, t))
    && (forall r: nat :: RowOk(u, s, r))
  }

  /** Slots only ever go from their key to `USED`, and exactly the claimed keys are used. */
  ghost predicate SlotsOk(u: Setup, s: State)
    requires Shape(u, s)
  {
    && (forall v :: 0 <= v < u.size ==> s.lottery[v] == v || s.lottery[v] == USED)
    && (forall r :: r in s.claims ==> 0 <= s.claims[r] < u.size && s.lottery[s.claims[r]] == USED)
    && (forall r, r' :: r in s.claims && r' in s.claims && r != r' ==> s.claims[r] != s.claims[r'])
    && Used(s.lottery) == |s.claims|
  }

  /** What a thread knows about the slots it has passed. */
  ghost predicate ProbesOk(u: Setup, s: State, t: nat)
    requires Shape(u, s) && t < u.stride
  {
    match s.threads[t].phase
    case Drawing => true
    case Loading(start, failed) =>
      && start < u.size && Passed(u, s.lottery, start, failed)
    case Swapping(start, failed, seen) =>
      && start < u.size && Passed(u, s.lottery, start, failed)
      && seen != USED && (s.lottery[Slot(u, start, failed)] == seen || s.lottery[Slot(u, start, failed)] == USED)
    case Storing(key) => key != USED
  }

  ghost predicate Passed(u: Setup, lottery: seq<int>, start: nat, failed: nat)
    requires u.Valid() && |lottery| == u.size
  {
    forall q: nat :: q < failed ==> lottery[Slot(u, start, q)] == USED
  }

  ghost predicate Inv(u: Setup, s: State) {
    && Shape(u, s) && RowsOk(u, s) && SlotsOk(u, s)
    && forall t :: 0 <= t < u.stride ==> ProbesOk(u, s, t)
  }

  /** The number of used slots. */
  function Used(lottery: seq<int>): nat {
    if lottery == [] then 0
    else Used(lottery[..|lottery| - 1]) + if lottery[|lottery| - 1] == USED then 1 else 0
  }

  lemma {:induction false} UseOne(lottery: seq<int>, v: nat)
    requires v < |lottery| && lottery[v] != USED
    ensures Used(lottery[v := USED]) == Used(lottery) + 1
  {
    var n := |lottery| - 1;
    if v < n {
      UseOne(lottery[..n], v);
      assert lottery[v := USED][..n] == lottery[..n][v := USED];
    } else {
      assert lottery[v := USED][..n] == lottery[..n];
    }
  }

  lemma {:induction false} UsedBounds(lottery: seq<int>)
    ensures Used(lottery) <= |lottery|
    ensures Used(lottery) == |lottery| <==> forall v :: 0 <= v < |lottery| ==> lottery[v] == USED
  {
    if lottery != [] { UsedBounds(lottery[..|lottery| - 1]); }
  }

  lemma {:induction false} NoneUsed(lottery: seq<int>)
    requires forall v :: 0 <= v < |lottery| ==> lottery[v] != USED
    ensures Used(lottery) == 0
  {
    if lottery != [] { NoneUsed(lottery[..|lottery| - 1]); }
  }

  lemma InitialInv(u: Setup, s: State)
    requires Initial(u, s)
    ensures Inv(u, s)
  {
    NoneUsed(s.lottery);
    forall t | 0 <= t < u.stride ensures ThreadOk(u, s, t) { QuotientIs(t, u.stride, 0, t); }
    forall r: nat ensures RowOk(u, s, r) { DivideAgain(r, u.stride); }
  }

  /** Threads other than `t` know no less after a step of `t`, as slots never refill. */
  lemma OthersKeep(u: Setup, s: State, s': State, t: nat, t': nat)
    requires Shape(u, s) && Shape(u, s') && t < u.stride && t' < u.stride && t != t'
    requires ProbesOk(u, s, t') && s'.threads[t'] == s.threads[t']
    requires forall v :: 0 <= v < u.size ==> s'.lottery[v] == s.lottery[v] || s'.lottery[v] == USED
    ensures ProbesOk(u, s', t')
  {
  }

  lemma OwnProbe(u: Setup, s: State, t: nat, a: Step)
    requires Enabled(u, s, t, a) && ProbesOk(u, s, t) && Do(u, s, t, a).lottery == s.lottery && a != Put
    ensures Shape(u, Do(u, s, t, a)) && ProbesOk(u, Do(u, s, t, a), t)
  {
    if a.Draw? { StartInRangeIff(a.x, u.size); }
  }

  lemma LookMoves(u: Setup, s: State, t: nat, a: Step)
    requires Enabled(u, s, t, a) && ProbesOk(u, s, t) && !s.threads[t].phase.Storing?
    requires Do(u, s, t, a).lottery == s.lottery && !Do(u, s, t, a).threads[t].phase.Storing?
    ensures Do(u, s, t, a) == MoveTo(s, t, Do(u, s, t, a).threads[t].phase)
  {
    if a.Draw? { StartInRangeIff(a.x, u.size); }
  }

  /** Drawing, loading and failed swaps touch nothing but the thread. */
  lemma LookKeeps(u: Setup, s: State, t: nat, a: Step)
    requires Inv(u, s) && Enabled(u, s, t, a) && a != Put
    requires Do(u, s, t, a).lottery == s.lottery && !Do(u, s, t, a).threads[t].phase.Storing?
    ensures Inv(u, Do(u, s, t, a))
  {
    var s' := Do(u, s, t, a);
    assert ProbesOk(u, s, t);
    OwnProbe(u, s, t, a);
    LookMoves(u, s, t, a);
    hide Do, RowsOk, SlotsOk, ProbesOk;
    LookRows(u, s, s', t);
    forall t' | 0 <= t' < u.stride && t' != t ensures ProbesOk(u, s', t') { OthersKeep(u, s, s', t, t'); }
  }

  lemma LookRows(u: Setup, s: State, s': State, t: nat)
    requires Shape(u, s) && Shape(u, s') && RowsOk(u, s) && SlotsOk(u, s) && t < u.stride && s.threads[t].row < u.rows
    requires s' == MoveTo(s, t, s'.threads[t].phase)
    requires !s.threads[t].phase.Storing? && !s'.threads[t].phase.Storing?
    ensures RowsOk(u, s') && SlotsOk(u, s')
  {
    forall r: nat ensures RowOk(u, s', r) { assert RowOk(u, s, r); }
    forall t' | 0 <= t' < u.stride ensures ThreadOk(u, s', t') { assert ThreadOk(u, s, t'); }
  }

  /** A thread that has not claimed a row yet: its row is neither claimed nor stored. */
  lemma RowFree(u: Setup, s: State, t: nat)
    requires Shape(u, s) && RowsOk(u, s) && t < u.stride && s.threads[t].row < u.rows && !s.threads[t].phase.Storing?
    ensures s.threads[t].row !in s.claims && s.threads[t].row !in s.build
  {
    assert ThreadOk(u, s, t) && RowOk(u, s, s.threads[t].row);
  }

  /** A swap that finds the key it loaded claims it: no other row has it. */
  lemma ClaimSlots(u: Setup, s: State, s': State, row: nat, key: nat)
    requires Shape(u, s) && SlotsOk(u, s) && Shape(u, s')
    requires row !in s.claims && key < u.size && s.lottery[key] == key
    requires s'.lottery == s.lottery[key := USED] && s'.claims == s.claims[row := key]
    ensures SlotsOk(u, s')
  {
    UseOne(s.lottery, key);
    OneMore(s.claims, row, key);
  }

  lemma OneMore(claims: map<nat, int>, row: nat, key: int)
    requires row !in claims
    ensures |claims[row := key]| == |claims| + 1
  {
    assert claims[row := key].Keys == claims.Keys + {row};
    assert |claims[row := key]| == |claims[row := key].Keys| && |claims| == |claims.Keys|;
  }

  lemma ClaimRows(u: Setup, s: State, s': State, t: nat, key: int)
    requires Shape(u, s) && RowsOk(u, s) && t < u.stride && s.threads[t].row < u.rows && !s.threads[t].phase.Storing?
    requires Shape(u, s') && s'.build == s.build && s'.claims == s.claims[s.threads[t].row := key]
    requires s'.threads == s.threads[t := s.threads[t].(phase := Storing(key))]
    ensures RowsOk(u, s')
  {
    RowFree(u, s, t);
    assert ThreadOk(u, s, t);
    forall r: nat ensures RowOk(u, s', r) { assert RowOk(u, s, r); }
    forall t' | 0 <= t' < u.stride ensures ThreadOk(u, s', t') {
      assert ThreadOk(u, s, t');
    }
  }

  lemma SwapKeeps(u: Setup, s: State, t: nat)
    requires Inv(u, s) && Enabled(u, s, t, Swap)
    requires s.lottery[Slot(u, s.threads[t].phase.start, s.threads[t].phase.failed)] == s.threads[t].phase.seen
    ensures Inv(u, Do(u, s, t, Swap))
  {
    var s' := Do(u, s, t, Swap);
    var key := Slot(u, s.threads[t].phase.start, s.threads[t].phase.failed);
    assert ProbesOk(u, s, t);
    assert s.lottery[key] == key;
    RowFree(u, s, t);
    ClaimSlots(u, s, s', s.threads[t].row, key);
    ClaimRows(u, s, s', t, key);
    assert ProbesOk(u, s', t);
    forall t' | 0 <= t' < u.stride && t' != t ensures ProbesOk(u, s', t') { OthersKeep(u, s, s', t, t'); }
  }

  /** Rows of one thread are a stride apart. */
  lemma NextRow(row: nat, r: nat, stride: nat)
    requires stride > 0
    ensures (row + stride) % stride == row % stride
    ensures r % stride == row % stride && row <= r < row + stride ==> r == row
  {
    DivideAgain(row, stride);
    DivideAgain(r, stride);
    StrideOn(row, stride, row / stride, row % stride);
    if r % stride == row % stride && row <= r < row + stride {
      SameRow(row, r, stride, row / stride, r / stride, row % stride);
    }
  }

  lemma StrideOn(row: nat, stride: nat, q: nat, m: nat)
    requires row == stride * q + m && m < stride
    ensures (row + stride) % stride == m
  {
    QuotientIs(row + stride, stride, q + 1, m);
  }

  lemma SameRow(row: nat, r: nat, stride: nat, q: nat, q': nat, m: nat)
    requires stride > 0 && row == stride * q + m && r == stride * q' + m && row <= r < row + stride
    ensures r == row
  {
    if q' < q { MulStrict(stride, q', q); }
    if q' > q { MulStrict(stride, q, q'); }
  }

  lemma PutRows(u: Setup, s: State, s': State, t: nat, key: int)
    requires Shape(u, s) && RowsOk(u, s) && t < u.stride && s.threads[t].row < u.rows && s.threads[t].phase == Storing(key)
    requires Shape(u, s') && s'.claims == s.claims && s'.build == s.build[s.threads[t].row := key]
    requires s'.threads == s.threads[t := Thread(s.threads[t].row + u.stride, Drawing)]
    ensures RowsOk(u, s')
  {
    var row := s.threads[t].row;
    assert ThreadOk(u, s, t);
    forall r: nat ensures RowOk(u, s', r) {
      assert RowOk(u, s, r);
      NextRow(row, r, u.stride);
    }
    NextRow(row, row, u.stride);
    forall t' | 0 <= t' < u.stride ensures ThreadOk(u, s', t') { assert ThreadOk(u, s, t'); }
  }

  lemma PutKeeps(u: Setup, s: State, t: nat)
    requires Inv(u, s) && Enabled(u, s, t, Put)
    ensures Inv(u, Do(u, s, t, Put))
  {
    var s' := Do(u, s, t, Put);
    PutRows(u, s, s', t, s.threads[t].phase.key);
    forall t' | 0 <= t' < u.stride && t' != t ensures ProbesOk(u, s', t') { OthersKeep(u, s, s', t, t'); }
  }

  lemma StepKeeps(u: Setup, s: State, t: nat, a: Step)
    requires Inv(u, s) && Enabled(u, s, t, a)
    ensures Inv(u, Do(u, s, t, a))
  {
    assert ProbesOk(u, s, t);
    match s.threads[t].phase
    case Drawing => StartInRangeIff(a.x, u.size); LookKeeps(u, s, t, a);
    case Loading(_, _) => LookKeeps(u, s, t, a);
    case Swapping(start, failed, seen) =>
      if s.lottery[Slot(u, start, failed)] == seen { SwapKeeps(u, s, t); } else { LookKeeps(u, s, t, a); }
    case Storing(_) => PutKeeps(u, s, t);
  }

  // ---------- whole runs ----------

  ghost predicate Next(u: Setup, s: State, s': State) {
    exists t: nat, a :: Enabled(u, s, t, a) && s' == Do(u, s, t, a)
  }

  ghost predicate Run(u: Setup, ss: seq<State>) {
    && ss != [] && Initial(u, ss[0])
    && forall i :: 0 <= i < |ss| - 1 ==> Next(u, ss[i], ss[i + 1])
  }

  lemma {:induction false} Reachable(u: Setup, ss: seq<State>, i: nat)
    requires Run(u, ss) && i < |ss|
    ensures Inv(u, ss[i])
    decreases i
  {
    hide Inv, Enabled, Do, Initial;
    if i == 0 {
      InitialInv(u, ss[0]);
    } else {
      Reachable(u, ss, i - 1);
      assert Next(u, ss[i - 1], ss[i - 1 + 1]);
      var t: nat, a :| Enabled(u, ss[i - 1], t, a) && ss[i] == Do(u, ss[i - 1], t, a);
      StepKeeps(u, ss[i - 1], t, a);
    }
  }

  /** At any time the keys in the build table are in the range of the lottery and pairwise distinct. */
  lemma KeysDistinct(u: Setup, ss: seq<State>, i: nat, r: nat, r': nat)
    requires Run(u, ss) && i < |ss| && r in ss[i].build && r' in ss[i].build
    ensures 0 <= ss[i].build[r] < u.size
    ensures r != r' ==> ss[i].build[r] != ss[i].build[r']
  {
    Reachable(u, ss, i);
    assert RowOk(u, ss[i], r) && RowOk(u, ss[i], r');
  }

  /** Claimed keys and remaining slots add up to the size of the lottery, and a key is claimed by a row
      exactly when its slot is used. */
  lemma Conserved(u: Setup, ss: seq<State>, i: nat)
    requires Run(u, ss) && i < |ss|
    ensures |ss[i].claims| + (|ss[i].lottery| - Used(ss[i].lottery)) == u.size
    ensures forall r :: r in ss[i].claims ==>
              0 <= ss[i].claims[r] < |ss[i].lottery| && ss[i].lottery[ss[i].claims[r]] == USED
    ensures forall r :: r in ss[i].build ==> r in ss[i].claims && ss[i].build[r] == ss[i].claims[r]
  {
    Reachable(u, ss, i);
    forall r | r in ss[i].build ensures r in ss[i].claims && ss[i].build[r] == ss[i].claims[r] {
      assert RowOk(u, ss[i], r);
    }
  }

  ghost predicate Over(u: Setup, s: State) {
    forall t :: 0 <= t < |s.threads| ==> s.threads[t].row >= u.rows
  }

  /** When all threads are through, every row has a key. So they can only all get through if the
      lottery has at least as many keys as the table has rows. */
  lemma AllRowsDrawn(u: Setup, ss: seq<State>, i: nat)
    requires Run(u, ss) && i < |ss| && Over(u, ss[i])
    ensures forall r: nat :: r in ss[i].build <==> r < u.rows
    ensures u.rows <= u.size
  {
    Reachable(u, ss, i);
    var s := ss[i];
    forall r: nat ensures r in s.build <==> r < u.rows {
      DivideAgain(r, u.stride);
      assert RowOk(u, s, r);
    }
    forall r: nat ensures r in s.claims <==> r < u.rows { assert RowOk(u, s, r); DivideAgain(r, u.stride); }
    SizeOfRange(s.claims.Keys, u.rows);
    UsedBounds(s.lottery);
  }

  lemma {:induction false} SizeOfRange(s: set<nat>, n: nat)
    requires forall x: nat :: x in s <==> x < n
    ensures |s| == n
  {
    if n == 0 { assert s == {}; } else { SizeOfRange(s - {n - 1}, n - 1); }
  }

  lemma {:induction false} SizeWithin(s: set<nat>, n: nat, hole: nat)
    requires hole < n && hole !in s && forall x :: x in s ==> x < n
    ensures |s| < n
    decreases n
  {
    if n - 1 == hole {
      SizeAtMost(s, n - 1);
    } else {
      SizeWithin(s - {n - 1}, n - 1, hole);
    }
  }

  lemma {:induction false} SizeAtMost(s: set<nat>, n: nat)
    requires forall x :: x in s ==> x < n
    ensures |s| <= n
  {
    if n == 0 { assert s == {}; } else { SizeAtMost(s - {n - 1}, n - 1); }
  }

  /** Whoever has probed as many slots as there are has seen them all. */
  lemma SeenAll(u: Setup, lottery: seq<int>, start: nat, failed: nat, v: nat)
    requires u.Valid() && |lottery| == u.size && start < u.size && v < u.size
    requires Passed(u, lottery, start, failed) && failed >= u.size
    ensures lottery[v] == USED
  {
    var q := if v >= start then v - start else v + u.size - start;
    QuotientIs(start + q, u.size, if v >= start then 0 else 1, v);
    assert lottery[Slot(u, start, q)] == USED;
  }

  /** If there are enough keys, no draw fails on every slot: it ends within `size` probes, because slots
      that were found used stay used. */
  lemma DrawsEnd(u: Setup, ss: seq<State>, i: nat, t: nat)
    requires Run(u, ss) && i < |ss| && u.rows <= u.size && t < u.stride && |ss[i].threads| == u.stride
    requires ss[i].threads[t].phase.Loading? || ss[i].threads[t].phase.Swapping?
    ensures ss[i].threads[t].phase.failed < u.size
  {
    Reachable(u, ss, i);
    ProbeBound(u, ss[i], t);
  }

  lemma ProbeBound(u: Setup, s: State, t: nat)
    requires Inv(u, s) && u.rows <= u.size && t < u.stride
    requires s.threads[t].phase.Loading? || s.threads[t].phase.Swapping?
    ensures s.threads[t].phase.failed < u.size
  {
    var start, failed := s.threads[t].phase.start, s.threads[t].phase.failed;
    assert ProbesOk(u, s, t) && ThreadOk(u, s, t);
    if failed >= u.size {
      RowFree(u, s, t);
      forall r | r in s.claims ensures r < u.rows { assert RowOk(u, s, r); }
      SizeWithin(s.claims.Keys, u.rows, s.threads[t].row);
      forall v | 0 <= v < u.size ensures s.lottery[v] == USED { SeenAll(u, s.lottery, start, failed, v); }
      UsedBounds(s.lottery);
    }
  }

  // ---------- the key a draw gets ----------

  /** `key` is the first slot that is not used, from slot `start` on upwards and around the end. */
  ghost predicate FirstUnused(lottery: seq<int>, start: int, key: int) {
    && 0 <= start < |lottery| && 0 <= key < |lottery| && lottery[key] == key
    && forall v :: 0 <= v < |lottery| && (if start <= key then start <= v < key else start <= v || v < key) ==>
         lottery[v] == USED
  }

  /** A thread that stands at a slot that is not used has found all slots before it used. */
  lemma FirstOfProbes(u: Setup, lottery: seq<int>, start: nat, failed: nat)
    requires u.Valid() && |lottery| == u.size && start < u.size && Passed(u, lottery, start, failed)
    requires lottery[Slot(u, start, failed)] == Slot(u, start, failed)
    ensures FirstUnused(lottery, start, Slot(u, start, failed))
  {
    var key := Slot(u, start, failed);
    if failed >= u.size { SeenAll(u, lottery, start, failed, key); }
    QuotientIs(start + failed, u.size, if start + failed < u.size then 0 else 1,
               if start + failed < u.size then start + failed else start + failed - u.size);
    forall v | 0 <= v < |lottery| && (if start <= key then start <= v < key else start <= v || v < key)
      ensures lottery[v] == USED
    {
      var q := if v >= start then v - start else v + u.size - start;
      QuotientIs(start + q, u.size, if v >= start then 0 else 1, v);
      assert lottery[Slot(u, start, q)] == USED;
    }
  }

  /** Thread `t` is looking for the key of row `r`, from slot `start` on. */
  ghost predicate Looking(s: State, t: nat, r: nat, start: int) {
    && t < |s.threads| && s.threads[t].row == r && r !in s.claims
    && match s.threads[t].phase
       case Loading(first, _) => first == start
       case Swapping(first, _, _) => first == start
       case _ => false
  }

  /** It goes on looking until it claims the first slot that is not used. */
  lemma LookingGoesOn(u: Setup, s: State, t': nat, a: Step, t: nat, r: nat, start: int)
    requires Inv(u, s) && Enabled(u, s, t', a) && Looking(s, t, r, start)
    ensures var s' := Do(u, s, t', a);
            if r in s'.claims then FirstUnused(s.lottery, start, s'.claims[r]) else Looking(s', t, r, start)
  {
    assert ThreadOk(u, s, t) && ThreadOk(u, s, t');
    if t' == t {
      assert ProbesOk(u, s, t);
      hide RowsOk;
      if a == Swap {
        var failed, seen := s.threads[t].phase.failed, s.threads[t].phase.seen;
        if s.lottery[Slot(u, start, failed)] == seen { FirstOfProbes(u, s.lottery, start, failed); }
      }
    }
  }

  /** A claim is never changed. */
  lemma ClaimStays(u: Setup, s: State, t: nat, a: Step, r: nat)
    requires Inv(u, s) && Enabled(u, s, t, a) && r in s.claims
    ensures r in Do(u, s, t, a).claims && Do(u, s, t, a).claims[r] == s.claims[r]
  {
    if a == Swap { RowFree(u, s, t); }
    if a.Draw? { StartInRangeIff(a.x, u.size); }
  }

  /** In step `c` row `r` claims `key`, the first unused slot from `start` on. */
  ghost predicate ClaimedIn(ss: seq<State>, c: nat, r: nat, start: int, key: int) {
    && c + 1 < |ss| && r !in ss[c].claims && r in ss[c + 1].claims && ss[c + 1].claims[r] == key
    && FirstUnused(ss[c].lottery, start, key)
  }

  lemma {:induction false} LookingEnds(u: Setup, ss: seq<State>, k: nat, t: nat, r: nat, start: int, i: nat) returns (c: nat)
    requires Run(u, ss) && k <= i < |ss| && Looking(ss[k], t, r, start)
    ensures if r in ss[i].claims then k <= c < i && ClaimedIn(ss, c, r, start, ss[i].claims[r])
            else Looking(ss[i], t, r, start)
    decreases i
  {
    hide Inv, Enabled, Do, Initial, FirstUnused, Looking;
    c := k;
    if i == k {
      assert r !in ss[k].claims by { LookingFree(ss[k], t, r, start); }
    } else {
      c := LookingEnds(u, ss, k, t, r, start, i - 1);
      Reachable(u, ss, i - 1);
      assert Next(u, ss[i - 1], ss[i - 1 + 1]);
      var t': nat, a :| Enabled(u, ss[i - 1], t', a) && ss[i] == Do(u, ss[i - 1], t', a);
      if r in ss[i - 1].claims {
        ClaimStays(u, ss[i - 1], t', a, r);
      } else {
        LookingGoesOn(u, ss[i - 1], t', a, t, r, start);
        c := i - 1;
      }
    }
  }

  lemma LookingFree(s: State, t: nat, r: nat, start: int)
    requires Looking(s, t, r, start)
    ensures r !in s.claims
  {
  }

  /** Which key a draw gives: the first one that is unused at the moment of the claim, from the whole part
      of the draw's multiple of the size on, upwards and around the end of the lottery. */
  lemma KeyOfDraw(u: Setup, ss: seq<State>, k: nat, t: nat, x: real, i: nat) returns (c: nat, start: int)
    requires Run(u, ss) && k < i < |ss|
    requires Enabled(u, ss[k], t, Draw(x)) && ss[k + 1] == Do(u, ss[k], t, Draw(x))
    requires ss[k].threads[t].row in ss[i].claims
    ensures Scaled(start, x, u.size)
    ensures k < c < i && ClaimedIn(ss, c, ss[k].threads[t].row, start, ss[i].claims[ss[k].threads[t].row])
  {
    StartInRangeIff(x, u.size);
    start := StartIndex(x, u.size);
    Reachable(u, ss, k);
    RowFree(u, ss[k], t);
    c := LookingEnds(u, ss, k + 1, t, ss[k].threads[t].row, start, i);
  }

  // ---------- the threads end ----------

  /** The steps one thread has left at most: a row takes a draw, two accesses a probe, and a store. */
  ghost function StepsLeft(u: Setup, th: Thread): int {
    if th.row >= u.rows then 0
    else (u.rows - th.row) * (2 * u.size + 3) - Progress(th.phase, u.size)
  }

  /** With enough keys every step uses up one of the steps its thread has left, and leaves the other
      threads theirs. So the loops of all threads end, under any schedule. */
  lemma StepTakes(u: Setup, s: State, t: nat, a: Step)
    requires Inv(u, s) && Enabled(u, s, t, a) && u.rows <= u.size
    ensures 0 <= StepsLeft(u, Do(u, s, t, a).threads[t]) < StepsLeft(u, s.threads[t])
    ensures forall t' :: 0 <= t' < u.stride && t' != t ==> Do(u, s, t, a).threads[t'] == s.threads[t']
  {
    StepKeeps(u, s, t, a);
    var th, th' := s.threads[t], Do(u, s, t, a).threads[t];
    if th.phase.Loading? || th.phase.Swapping? { ProbeBound(u, s, t); }
    if th'.phase.Loading? || th'.phase.Swapping? { ProbeBound(u, Do(u, s, t, a), t); }
    ThreadMoves(u, s, t, a);
    hide Do, Inv, Enabled;
    if th'.row == th.row { SameRowLeft(u, th, th'); } else { NextRowLeft(u, th, th'); }
  }

  /** How far a thread is within its row. */
  ghost function Progress(phase: Phase, size: nat): nat {
    match phase
    case Drawing => 0
    case Loading(_, failed) => 1 + 2 * failed
    case Swapping(_, failed, _) => 2 + 2 * failed
    case Storing(_) => 2 * size + 2
  }

  lemma ThreadMoves(u: Setup, s: State, t: nat, a: Step)
    requires Enabled(u, s, t, a)
    requires var phase := s.threads[t].phase; phase.Loading? || phase.Swapping? ==> phase.failed < u.size
    ensures var th, th' := s.threads[t], Do(u, s, t, a).threads[t];
            if th.phase.Storing? then th'.phase == Drawing && th'.row == th.row + u.stride
            else th'.row == th.row && Progress(th.phase, u.size) < Progress(th'.phase, u.size)
    ensures forall t' :: 0 <= t' < u.stride && t' != t ==> Do(u, s, t, a).threads[t'] == s.threads[t']
  {
    if a.Draw? { StartInRangeIff(a.x, u.size); }
  }

  lemma SameRowLeft(u: Setup, th: Thread, th': Thread)
    requires th'.row == th.row < u.rows && Progress(th.phase, u.size) < Progress(th'.phase, u.size) <= 2 * u.size + 2
    ensures 0 <= StepsLeft(u, th') < StepsLeft(u, th)
  {
    AtLeastOne(u.rows - th.row, 2 * u.size + 3);
  }

  lemma NextRowLeft(u: Setup, th: Thread, th': Thread)
    requires th.row < u.rows && th.row < th'.row && th'.phase == Drawing && Progress(th.phase, u.size) <= 2 * u.size + 2
    ensures 0 <= StepsLeft(u, th') < StepsLeft(u, th)
  {
    if th'.row < u.rows {
      FewerRows(u.rows - th.row, u.rows - th'.row, 2 * u.size + 3);
    } else {
      AtLeastOne(u.rows - th.row, 2 * u.size + 3);
    }
  }

  lemma AtLeastOne(rows: nat, w: nat)
    requires rows > 0
    ensures rows * w >= w
  {
  }

  lemma FewerRows(rows: nat, rows': nat, w: nat)
    requires rows' < rows
    ensures rows' * w + w <= rows * w
  {
    assert rows * w == rows' * w + (rows - rows') * w;
    AtLeastOne(rows - rows', w);
  }

  /** A thread that has rows left can always go on. */
  lemma NeverStuck(u: Setup, s: State, t: nat)
    requires Inv(u, s) && t < u.stride && s.threads[t].row < u.rows
    ensures exists a :: Enabled(u, s, t, a)
  {
    match s.threads[t].phase
    case Drawing => assert Enabled(u, s, t, Draw(0.5));
    case Loading(_, _) => assert Enabled(u, s, t, Load);
    case Swapping(_, _, _) => assert Enabled(u, s, t, Swap);
    case Storing(_) => assert Enabled(u, s, t, Put);
  }
}
