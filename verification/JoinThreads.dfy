/** The communication thread and the join thread of `distributed_inner_join`, step by step. They share
    the batch tables and the flags; any interleaving of their steps may happen. */
module JoinThreads {
  import opened Tables

  /** The tables of every batch as the exchange delivers them, and the local join. */
  datatype Job<!L, !R, O> = Job(left: seq<seq<L>>, right: seq<seq<R>>, join: (seq<L>, seq<R>) -> seq<O>) {
    ghost predicate Valid() {
      |left| == |right|
    }
  }

  datatype CommPhase = Left | Right | Flag
  datatype JoinPhase = Waiting | ReadLeft | ReadRight | Store

  /** `batch`, `phase` and `written` are the communication thread's: the rows of the table of this
      phase that have arrived. `joining`, `step`, `seenLeft` and `seenRight` are the join thread's. */
  datatype State<L, R, O> = State(
    batch: nat, phase: CommPhase, written: set<nat>,
    left: seq<seq<L>>, right: seq<seq<R>>, flags: seq<bool>,
    joining: nat, step: JoinPhase, seenLeft: seq<L>, seenRight: seq<R>, results: seq<seq<O>>)

  datatype Step = Arrive(row: nat) | NextPhase | Spin | Proceed | Read | Finish

  /** All tables allocated, with any contents; all flags down. */
  ghost predicate Initial<L, R, O>(job: Job<L, R, O>, s: State<L, R, O>) {
    && s.batch == 0 && s.phase == Left && s.written == {} && s.joining == 0 && s.step == Waiting
    && |s.left| == |s.right| == |s.flags| == |s.results| == |job.left|
    && (forall i :: 0 <= i < |s.left| ==> |s.left[i]| == |job.left[i]|)
    && (forall i :: 0 <= i < |s.right| && i < |job.right| ==> |s.right[i]| == |job.right[i]|)
    && (forall i :: 0 <= i < |s.flags| ==> !s.flags[i])
  }

  function Expected<L, R, O>(job: Job<L, R, O>, s: State<L, R, O>): nat
    requires job.Valid() && s.batch < |job.left|
  {
    match s.phase
    case Left => |job.left[s.batch]|
    case Right => |job.right[s.batch]|
    case Flag => 0
  }

  ghost predicate Shape<L, R, O>(job: Job<L, R, O>, s: State<L, R, O>) {
    && job.Valid() && |s.left| == |s.right| == |s.flags| == |s.results| == |job.left|
    && (forall i :: 0 <= i < |s.left| ==> |s.left[i]| == |job.left[i]| && |s.right[i]| == |job.right[i]|)
    && s.batch <= |job.left| && s.joining <= |job.left|
  }

  ghost predicate Enabled<L, R, O>(job: Job<L, R, O>, s: State<L, R, O>, a: Step) {
    && Shape(job, s)
    && match a
       case Arrive(row) => s.batch < |job.left| && row < Expected(job, s) && row !in s.written
       case NextPhase => s.batch < |job.left| && forall row: nat :: row < Expected(job, s) ==> row in s.written
       case Spin => s.joining < |job.left| && s.step == Waiting && !s.flags[s.joining]
       case Proceed => s.joining < |job.left| && s.step == Waiting && s.flags[s.joining]
       case Read => s.joining < |job.left| && (s.step == ReadLeft || s.step == ReadRight)
       case Finish => s.joining < |job.left| && s.step == Store
  }

  ghost function Do<L, R, O>(job: Job<L, R, O>, s: State<L, R, O>, a: Step): State<L, R, O>
    requires Enabled(job, s, a)
  {
    match a
    case Arrive(row) =>
      if s.phase == Left then
        s.(left := s.left[s.batch := s.left[s.batch][row := job.left[s.batch][row]]], written := s.written + {row})
      else
        s.(right := s.right[s.batch := s.right[s.batch][row := job.right[s.batch][row]]], written := s.written + {row})
    case NextPhase =>
      (match s.phase
       case Left => s.(phase := Right, written := {})
       case Right => s.(phase := Flag, written := {})
       case Flag => s.(flags := s.flags[s.batch := true], batch := s.batch + 1, phase := Left, written := {}))
    case Spin => s
    case Proceed => s.(step := ReadLeft)
    case Read =>
      if s.step == ReadLeft then s.(seenLeft := s.left[s.joining], step := ReadRight)
      else s.(seenRight := s.right[s.joining], step := Store)
    case Finish =>
      s.(results := s.results[s.joining := job.join(s.seenLeft, s.seenRight)], joining := s.joining + 1, step := Waiting)
  }

  /** Batch `i` is complete in memory. */
  ghost predicate Whole<L, R, O>(job: Job<L, R, O>, s: State<L, R, O>, i: nat)
    requires Shape(job, s) && i < |job.left|
  {
    s.left[i] == job.left[i] && s.right[i] == job.right[i]
  }

  /** The rows of the current table that have arrived. */
  ghost predicate Partial<L, R, O>(job: Job<L, R, O>, s: State<L, R, O>)
    requires Shape(job, s) && s.batch < |job.left|
  {
    && (forall row :: row in s.written ==> row < Expected(job, s))
    && (s.phase == Left ==> forall row :: row in s.written ==> s.left[s.batch][row] == job.left[s.batch][row])
    && (s.phase != Left ==> s.left[s.batch] == job.left[s.batch])
    && (s.phase == Right ==> forall row :: row in s.written ==> s.right[s.batch][row] == job.right[s.batch][row])
    && (s.phase == Flag ==> s.right[s.batch] == job.right[s.batch])
  }

  ghost predicate Inv<L, R, O>(job: Job<L, R, O>, s: State<L, R, O>) {
    && Shape(job, s)
    && (forall i :: 0 <= i < |job.left| ==> (s.flags[i] <==> i < s.batch))
    && (forall i :: 0 <= i < s.batch ==> Whole(job, s, i))
    && (s.batch < |job.left| ==> Partial(job, s))
    && (s.batch == |job.left| ==> s.phase == Left && s.written == {})
    && s.joining <= s.batch
    && (s.step != Waiting ==> s.joining < s.batch)
    && (s.step == ReadRight || s.step == Store ==> s.seenLeft == job.left[s.joining])
    && (s.step == Store ==> s.seenRight == job.right[s.joining])
    && (forall i :: 0 <= i < s.joining ==> s.results[i] == job.join(job.left[i], job.right[i]))
  }

  lemma StepKeeps<L, R, O>(job: Job<L, R, O>, s: State<L, R, O>, a: Step)
    requires Inv(job, s) && Enabled(job, s, a)
    ensures Inv(job, Do(job, s, a))
  {
    match a
    case Arrive(row) => ArriveKeeps(job, s, row);
    case NextPhase => PhaseKeeps(job, s);
    case _ => JoinKeeps(job, s, a);
  }

  lemma ArriveKeeps<L, R, O>(job: Job<L, R, O>, s: State<L, R, O>, row: nat)
    requires Inv(job, s) && Enabled(job, s, Arrive(row))
    ensures Inv(job, Do(job, s, Arrive(row)))
  {
    var s' := Do(job, s, Arrive(row));
    assert Partial(job, s');
    forall i | 0 <= i < s.batch ensures Whole(job, s', i) { assert Whole(job, s, i); }
  }

  lemma PhaseKeeps<L, R, O>(job: Job<L, R, O>, s: State<L, R, O>)
    requires Inv(job, s) && Enabled(job, s, NextPhase)
    ensures Inv(job, Do(job, s, NextPhase))
  {
    var s' := Do(job, s, NextPhase);
    assert Partial(job, s);
    if s.phase == Left { assert s.left[s.batch] == job.left[s.batch]; }
    if s.phase == Right { assert s.right[s.batch] == job.right[s.batch]; }
    forall i | 0 <= i < s'.batch ensures Whole(job, s', i) { assert i < s.batch ==> Whole(job, s, i); }
  }

  lemma JoinKeeps<L, R, O>(job: Job<L, R, O>, s: State<L, R, O>, a: Step)
    requires Inv(job, s) && Enabled(job, s, a) && !a.Arrive? && !a.NextPhase?
    ensures Inv(job, Do(job, s, a))
  {
    var s' := Do(job, s, a);
    if a.Read? { assert Whole(job, s, s.joining); }
    forall i | 0 <= i < s'.batch ensures Whole(job, s', i) { assert Whole(job, s, i); }
    assert s.batch < |job.left| ==> Partial(job, s) && Partial(job, s');
  }

  /** Rows arrive one at a time, and no other step writes the tables: the join thread sees half a table if it
      looks too early. */
  lemma OneRowAtATime<L, R, O>(job: Job<L, R, O>, s: State<L, R, O>, a: Step, i: nat, row: nat)
    requires Enabled(job, s, a) && i < |job.left|
    requires !(a.Arrive? && a.row == row && i == s.batch)
    ensures Shape(job, Do(job, s, a))
    ensures row < |job.left[i]| ==> Do(job, s, a).left[i][row] == s.left[i][row]
    ensures row < |job.right[i]| ==> Do(job, s, a).right[i][row] == s.right[i][row]
  {
  }

  // ---------- whole runs ----------

  ghost predicate Next<L, R, O>(job: Job<L, R, O>, s: State<L, R, O>, s': State<L, R, O>) {
    exists a :: Enabled(job, s, a) && s' == Do(job, s, a)
  }

  ghost predicate Run<L, R, O>(job: Job<L, R, O>, ss: seq<State<L, R, O>>) {
    && job.Valid() && ss != [] && Initial(job, ss[0])
    && forall i :: 0 <= i < |ss| - 1 ==> Next(job, ss[i], ss[i + 1])
  }

  lemma {:induction false} Reachable<L, R, O>(job: Job<L, R, O>, ss: seq<State<L, R, O>>, i: nat)
    requires Run(job, ss) && i < |ss|
    ensures Inv(job, ss[i])
    decreases i
  {
    hide Inv, Enabled, Do, Initial;
    if i == 0 {
      InitialInv(job, ss[0]);
    } else {
      Reachable(job, ss, i - 1);
      assert Next(job, ss[i - 1], ss[i - 1 + 1]);
      var a :| Enabled(job, ss[i - 1], a) && ss[i] == Do(job, ss[i - 1], a);
      StepKeeps(job, ss[i - 1], a);
    }
  }

  lemma InitialInv<L, R, O>(job: Job<L, R, O>, s: State<L, R, O>)
    requires job.Valid() && Initial(job, s)
    ensures Inv(job, s)
  {
  }

  /** In every interleaving a batch is read by the join thread only while both its tables hold all the
      rows the exchange delivers. */
  lemma JoinedOnlyWhenWhole<L, R, O>(job: Job<L, R, O>, ss: seq<State<L, R, O>>, i: nat)
    requires Run(job, ss) && i < |ss| && ss[i].step != Waiting
    ensures Shape(job, ss[i]) && ss[i].joining < |job.left| && ss[i].flags[ss[i].joining]
    ensures Whole(job, ss[i], ss[i].joining)
  {
    Reachable(job, ss, i);
  }

  /** The flag of a batch is up exactly when the exchange of both its tables is over. */
  lemma FlagMeansArrived<L, R, O>(job: Job<L, R, O>, ss: seq<State<L, R, O>>, i: nat, b: nat)
    requires Run(job, ss) && i < |ss| && b < |job.left|
    ensures Shape(job, ss[i]) && (ss[i].flags[b] <==> b < ss[i].batch)
    ensures ss[i].flags[b] ==> Whole(job, ss[i], b)
  {
    Reachable(job, ss, i);
  }

  ghost predicate Over<L, R, O>(job: Job<L, R, O>, s: State<L, R, O>) {
    s.batch == |job.left| && s.joining == |job.left|
  }

  /** What joining batch by batch gives. */
  function BatchResults<L, R, O>(job: Job<L, R, O>): (results: seq<seq<O>>)
    requires job.Valid()
    ensures |results| == |job.left|
  {
    seq(|job.left|, i requires 0 <= i < |job.left| && i < |job.right| => job.join(job.left[i], job.right[i]))
  }

  /** One table of a batch, received row by row into memory that was allocated for it. */
  method ReceiveTable<T(0)>(rows: seq<T>) returns (table: array<T>)
    ensures fresh(table) && table[..] == rows
  {
    table := new T[|rows|];
    for row := 0 to |rows|
      invariant forall k :: 0 <= k < row ==> table[k] == rows[k]
    {
      table[row] := rows[row];
    }
  }

  /** The same work done by one thread: receive a batch, join it, go on to the next. */
  method Sequential<L(0), R(0), O>(job: Job<L, R, O>) returns (results: seq<seq<O>>)
    requires job.Valid()
    ensures results == BatchResults(job)
  {
    results := [];
    for i := 0 to |job.left|
      invariant results == BatchResults(job)[..i]
    {
      var left := ReceiveTable(job.left[i]);
      var right := ReceiveTable(job.right[i]);
      results := results + [job.join(left[..], right[..])];
    }
  }

  /** After the join thread has been joined, every batch has its result. */
  lemma SameAsSequential<L, R, O>(job: Job<L, R, O>, ss: seq<State<L, R, O>>, i: nat)
    requires Run(job, ss) && i < |ss| && ss[i].joining == |job.left|
    ensures job.Valid() && ss[i].results == BatchResults(job) && Over(job, ss[i])
  {
    Reachable(job, ss, i);
  }

  /** The sequential program computes the results of the threads, whatever their interleaving was. */
  method SequentialOf<L(0), R(0), O>(job: Job<L, R, O>, ghost ss: seq<State<L, R, O>>, ghost i: nat)
    returns (results: seq<seq<O>>)
    requires Run(job, ss) && i < |ss| && ss[i].joining == |job.left|
    ensures results == ss[i].results
  {
    SameAsSequential(job, ss, i);
    results := Sequential(job);
  }

  // ---------- the threads do not block each other ----------

  /** Until both threads are through, one of them can do more than spin. */
  lemma NeverStuck<L, R, O>(job: Job<L, R, O>, s: State<L, R, O>)
    requires Inv(job, s) && !Over(job, s)
    ensures exists a :: Enabled(job, s, a) && a != Spin
  {
    if s.batch < |job.left| {
      if row: nat :| row < Expected(job, s) && row !in s.written {
        assert Enabled(job, s, Arrive(row));
      } else {
        assert Enabled(job, s, NextPhase);
      }
    } else {
      match s.step
      case Waiting => assert Enabled(job, s, Proceed);
      case ReadLeft => assert Enabled(job, s, Read);
      case ReadRight => assert Enabled(job, s, Read);
      case Store => assert Enabled(job, s, Finish);
    }
  }

  /** The steps the communication thread has left from batch `b` on. */
  ghost function CommLeft<L, R, O>(job: Job<L, R, O>, b: nat): nat
    requires job.Valid() && b <= |job.left|
    decreases |job.left| - b
  {
    if b == |job.left| then 0 else |job.left[b]| + |job.right[b]| + 3 + CommLeft(job, b + 1)
  }

  ghost function PhaseDone<L, R, O>(job: Job<L, R, O>, s: State<L, R, O>): nat
    requires Shape(job, s) && s.batch < |job.left|
  {
    match s.phase
    case Left => 0
    case Right => |job.left[s.batch]| + 1
    case Flag => |job.left[s.batch]| + |job.right[s.batch]| + 2
  }

  function StepNumber(step: JoinPhase): nat {
    match step
    case Waiting => 0
    case ReadLeft => 1
    case ReadRight => 2
    case Store => 3
  }

  /** The steps left for both threads. */
  ghost function StepsLeft<L, R, O>(job: Job<L, R, O>, s: State<L, R, O>): int
    requires Shape(job, s)
  {
    CommLeft(job, s.batch) - (if s.batch < |job.left| then PhaseDone(job, s) else 0) - |s.written|
    + 4 * (|job.left| - s.joining) - StepNumber(s.step)
  }

  lemma {:induction false} RangeSize(s: set<nat>, n: nat)
    requires forall x :: x in s ==> x < n
    ensures |s| <= n
    ensures |s| == n ==> forall x: nat :: x < n ==> x in s
  {
    if n > 0 { RangeSize(s - {n - 1}, n - 1); }
  }

  lemma AllWritten(s: set<nat>, n: nat)
    requires forall x: nat :: x in s <==> x < n
    ensures |s| == n
    decreases n
  {
    if n > 0 { AllWritten(s - {n - 1}, n - 1); } else { assert s == {}; }
  }

  lemma StepsLeftIsNat<L, R, O>(job: Job<L, R, O>, s: State<L, R, O>)
    requires Inv(job, s)
    ensures StepsLeft(job, s) >= 0
  {
    if s.batch < |job.left| { RangeSize(s.written, Expected(job, s)); }
  }

  /** Every step but a spin uses up one of the steps left, so all but the spins are bounded. */
  lemma StepTakes<L, R, O>(job: Job<L, R, O>, s: State<L, R, O>, a: Step)
    requires Inv(job, s) && Enabled(job, s, a)
    ensures Shape(job, Do(job, s, a))
    ensures StepsLeft(job, Do(job, s, a)) == StepsLeft(job, s) - (if a == Spin then 0 else 1)
  {
    match a
    case Arrive(row) => ArriveKeeps(job, s, row); ArriveTakes(job, s, row);
    case NextPhase => PhaseKeeps(job, s); PhaseTakes(job, s);
    case _ => JoinKeeps(job, s, a); JoinTakes(job, s, a);
  }

  lemma ArriveTakes<L, R, O>(job: Job<L, R, O>, s: State<L, R, O>, row: nat)
    requires Enabled(job, s, Arrive(row)) && Shape(job, Do(job, s, Arrive(row)))
    ensures StepsLeft(job, Do(job, s, Arrive(row))) == StepsLeft(job, s) - 1
  {
    hide CommLeft;
  }

  lemma PhaseTakes<L, R, O>(job: Job<L, R, O>, s: State<L, R, O>)
    requires Inv(job, s) && Enabled(job, s, NextPhase) && Shape(job, Do(job, s, NextPhase))
    ensures StepsLeft(job, Do(job, s, NextPhase)) == StepsLeft(job, s) - 1
  {
    assert Partial(job, s);
    AllWritten(s.written, Expected(job, s));
  }

  lemma JoinTakes<L, R, O>(job: Job<L, R, O>, s: State<L, R, O>, a: Step)
    requires Enabled(job, s, a) && !a.Arrive? && !a.NextPhase? && Shape(job, Do(job, s, a))
    ensures StepsLeft(job, Do(job, s, a)) == StepsLeft(job, s) - (if a == Spin then 0 else 1)
  {
    hide CommLeft;
  }

  /** A run of `k` steps that do something ends within the steps the first state has left. */
  lemma {:induction false} RunsEnd<L, R, O>(job: Job<L, R, O>, ss: seq<State<L, R, O>>, i: nat)
    requires Run(job, ss) && i < |ss|
    requires forall j :: 0 <= j < i ==> ss[j] != ss[j + 1]
    ensures Shape(job, ss[0]) && i <= StepsLeft(job, ss[0])
  {
    Reachable(job, ss, i);
    StepsLeftIsNat(job, ss[i]);
    Countdown(job, ss, i);
  }

  lemma {:induction false} Countdown<L, R, O>(job: Job<L, R, O>, ss: seq<State<L, R, O>>, i: nat)
    requires Run(job, ss) && i < |ss|
    requires forall j :: 0 <= j < i ==> ss[j] != ss[j + 1]
    ensures Shape(job, ss[0]) && Shape(job, ss[i]) && StepsLeft(job, ss[i]) == StepsLeft(job, ss[0]) - i
  {
    Reachable(job, ss, i);
    if i > 0 {
      Countdown(job, ss, i - 1);
      Reachable(job, ss, i - 1);
      assert Next(job, ss[i - 1], ss[i - 1 + 1]);
      var a :| Enabled(job, ss[i - 1], a) && ss[i] == Do(job, ss[i - 1], a);
      StepTakes(job, ss[i - 1], a);
    }
  }
}
