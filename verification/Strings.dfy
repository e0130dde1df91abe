/** String columns: characters and row sizes are exchanged as two buffers, and the receiver rebuilds
    the offsets by a scan over the sizes. */
module Strings {
  import opened Arith
  import opened Tables
  import opened Groups
  import opened AllToAll
  import opened AllToAllComm
  import opened Partitioning

  type Row = seq<char>

  /** A string column of cuDF: row `k` is `chars[offsets[k]..offsets[k + 1]]`. */
  datatype StringColumn = StringColumn(offsets: seq<nat>, chars: seq<char>) {
    ghost predicate Valid() {
      && |offsets| > 0
      && (forall i, j :: 0 <= i <= j < |offsets| ==> offsets[i] <= offsets[j])
      && offsets[|offsets| - 1] <= |chars|
    }

    function Size(): int {
      |offsets| - 1
    }

    ghost function Rows(): (rows: seq<Row>)
      requires Valid()
    {
      seq(Size(), k requires 0 <= k < Size() => chars[offsets[k]..offsets[k + 1]])
    }
  }

  ghost function Lens(rows: seq<Row>): (sizes: seq<nat>)
    ensures |sizes| == |rows|
  {
    seq(|rows|, k requires 0 <= k < |rows| => |rows[k]|)
  }

  // ---------- the three kernels ----------

  /** The gather of `gather_string_offsets`: where the characters of each slice of rows start. */
  method GatherOffsets(column: StringColumn, sendOffsets: seq<nat>) returns (gathered: seq<nat>)
    requires column.Valid() && forall j :: 0 <= j < |sendOffsets| ==> sendOffsets[j] < |column.offsets|
    ensures |gathered| == |sendOffsets|
    ensures forall j :: 0 <= j < |gathered| ==> gathered[j] == column.offsets[sendOffsets[j]]
  {
    gathered := [];
    for j := 0 to |sendOffsets|
      invariant |gathered| == j
      invariant forall i :: 0 <= i < j ==> gathered[i] == column.offsets[sendOffsets[i]]
    {
      gathered := gathered + [column.offsets[sendOffsets[j]]];
    }
  }

  /** `calculate_string_sizes_from_offsets`: the lengths of rows `begin` to `end`. */
  method SizesFromOffsets(column: StringColumn, begin: nat, end: nat) returns (sizes: seq<nat>)
    requires column.Valid() && begin <= end < |column.offsets|
    ensures sizes == Lens(column.Rows()[begin..end])
  {
    sizes := [];
    for k := 0 to end - begin
      invariant |sizes| == k
      invariant forall i :: 0 <= i < k ==> sizes[i] == |column.Rows()[begin + i]|
    {
      sizes := sizes + [column.offsets[begin + k + 1] - column.offsets[begin + k]];
    }
  }

  /** `calculate_string_offsets_from_sizes`: the inclusive scan, after a first offset of 0. */
  method OffsetsFromSizes(sizes: seq<nat>) returns (offsets: seq<nat>)
    ensures Scanned(offsets, sizes)
  {
    var buf := new nat[|sizes| + 1];
    for k := 0 to |sizes|
      invariant forall i :: 1 <= i <= k ==> buf[i] == Scan(sizes, i)
    {
      buf[k + 1] := if k == 0 then sizes[0] else buf[k] + sizes[k];
    }
    buf[0] := 0;
    offsets := buf[..];
  }

  // ---------- decoding what was received ----------

  /** Scanning the lengths of rows and slicing their characters gives back the rows. */
  lemma Rebuilt(offsets: seq<nat>, rows: seq<Row>)
    requires Scanned(offsets, Lens(rows))
    ensures StringColumn(offsets, Flatten(rows)).Valid()
    ensures StringColumn(offsets, Flatten(rows)).Rows() == rows
  {
    forall k | 0 <= k <= |rows| ensures offsets[k] == Starts(rows, k) { ScanStarts(rows, Lens(rows), k); }
    StartsAreOffsets(rows, offsets);
    RowsAre(StringColumn(offsets, Flatten(rows)), rows);
  }

  lemma RowsAre(column: StringColumn, rows: seq<Row>)
    requires Offsets(column.offsets, |column.chars|, |rows|)
    requires forall k :: 0 <= k < |rows| ==> Slice(column.chars, column.offsets, k) == rows[k]
    ensures column.Valid() && column.Rows() == rows
  {
  }

  /** The characters between two row offsets are those of the rows in between. */
  lemma {:induction false} CharsOfRows(column: StringColumn, s: nat, e: nat)
    requires column.Valid() && s <= e < |column.offsets|
    ensures column.chars[column.offsets[s]..column.offsets[e]] == Flatten(column.Rows()[s..e])
  {
    if s < e {
      CharsOfRows(column, s, e - 1);
      OneRowMore(column.Rows(), s, e);
      OneSliceMore(column.chars, column.offsets, s, e);
    }
  }

  lemma OneRowMore(rows: seq<Row>, s: nat, e: nat)
    requires s < e <= |rows|
    ensures Flatten(rows[s..e]) == Flatten(rows[s..e - 1]) + rows[e - 1]
  {
    assert rows[s..e][..e - 1 - s] == rows[s..e - 1];
  }

  lemma OneSliceMore<T>(c: seq<T>, o: seq<nat>, s: nat, e: nat)
    requires s < e < |o| && o[s] <= o[e - 1] <= o[e] <= |c|
    ensures c[o[s]..o[e]] == c[o[s]..o[e - 1]] + c[o[e - 1]..o[e]]
  {
  }

  function FlattenEach<T>(ss: seq<seq<seq<T>>>): (r: seq<seq<T>>)
    ensures |r| == |ss|
  {
    seq(|ss|, i requires 0 <= i < |ss| => Flatten(ss[i]))
  }

  lemma {:induction false} FlattenTwice<T>(ss: seq<seq<seq<T>>>)
    ensures Flatten(FlattenEach(ss)) == Flatten(Flatten(ss))
  {
    if ss != [] {
      var front := ss[..|ss| - 1];
      FlattenTwice(front);
      assert FlattenEach(ss)[..|ss| - 1] == FlattenEach(front);
      FlattenAppend(Flatten(front), ss[|ss| - 1]);
    }
  }

  function LensEach(ss: seq<seq<Row>>): (r: seq<seq<nat>>)
    ensures |r| == |ss|
  {
    seq(|ss|, i requires 0 <= i < |ss| => seq(|ss[i]|, k requires 0 <= k < |ss[i]| => |ss[i][k]|))
  }

  lemma {:induction false} FlattenLens(ss: seq<seq<Row>>)
    ensures Flatten(LensEach(ss)) == Lens(Flatten(ss))
  {
    if ss != [] {
      var front := ss[..|ss| - 1];
      FlattenLens(front);
      assert LensEach(ss)[..|ss| - 1] == LensEach(front);
    }
  }

  // ---------- the exchange ----------

  ghost function RowsOf(columns: seq<StringColumn>): (r: seq<seq<Row>>)
    requires forall a :: 0 <= a < |columns| ==> columns[a].Valid()
    ensures |r| == |columns|
  {
    seq(|columns|, a requires 0 <= a < |columns| => columns[a].Rows())
  }

  /** A collective exchange of string columns. */
  ghost predicate StringsSet(columns: seq<StringColumn>, offs: seq<seq<nat>>, grid: nat, stride: nat) {
    && (forall a :: 0 <= a < |columns| ==> columns[a].Valid())
    && Collective(RowsOf(columns), offs, grid, stride)
  }

  ghost function CharsOf(columns: seq<StringColumn>): (r: seq<seq<char>>)
    ensures |r| == |columns|
  {
    seq(|columns|, a requires 0 <= a < |columns| => columns[a].chars)
  }

  /** The character offsets of a rank: those of the rows where its slices start. */
  ghost predicate Gathered(column: StringColumn, offs: seq<nat>, charOffs: seq<nat>) {
    && column.Valid() && |offs| > 0 && offs[|offs| - 1] < |column.offsets|
    && (forall i, j :: 0 <= i <= j < |offs| ==> offs[i] <= offs[j])
    && |charOffs| == |offs|
    && forall j :: 0 <= j < |offs| ==> offs[j] < |column.offsets| && charOffs[j] == column.offsets[offs[j]]
  }

  /** The characters are cut where the rows are cut. */
  lemma CharSlice(column: StringColumn, offs: seq<nat>, charOffs: seq<nat>, j: nat)
    requires Gathered(column, offs, charOffs) && j + 1 < |offs|
    ensures offs[j] <= offs[j + 1] <= |column.Rows()|
    ensures charOffs[j] <= charOffs[j + 1] <= |column.chars|
    ensures Slice(column.chars, charOffs, j) == Flatten(Slice(column.Rows(), offs, j))
  {
    assert offs[j + 1] <= offs[|offs| - 1];
    CharsOfRows(column, offs[j], offs[j + 1]);
  }

  ghost predicate AllGathered(columns: seq<StringColumn>, offs: seq<seq<nat>>, charOffs: seq<seq<nat>>) {
    && |columns| == |offs| == |charOffs|
    && forall a :: 0 <= a < |columns| ==> Gathered(columns[a], offs[a], charOffs[a])
  }

  lemma CharsCollective(columns: seq<StringColumn>, offs: seq<seq<nat>>, charOffs: seq<seq<nat>>, grid: nat, stride: nat)
    requires StringsSet(columns, offs, grid, stride) && AllGathered(columns, offs, charOffs)
    ensures Collective(CharsOf(columns), charOffs, grid, stride)
  {
    forall a | 0 <= a < |columns| ensures Offsets(charOffs[a], |columns[a].chars|, grid / stride) {
      assert Offsets(offs[a], |RowsOf(columns)[a]|, grid / stride) && Gathered(columns[a], offs[a], charOffs[a]);
    }
  }

  /** `gather_string_offsets`, called by all ranks: the offsets to send characters from, and those to
      receive them at. */
  method GatherStringOffsets(columns: seq<StringColumn>, offs: seq<seq<nat>>, grid: nat, stride: nat)
    returns (charOffs: seq<seq<nat>>, charRecvOffsets: seq<seq<nat>>)
    requires StringsSet(columns, offs, grid, stride)
    ensures AllGathered(columns, offs, charOffs) && Collective(CharsOf(columns), charOffs, grid, stride)
    ensures |charRecvOffsets| == |columns|
    ensures forall b :: 0 <= b < |columns| ==>
              Placements(Due(CharsOf(columns), charOffs, grid, stride, b), charRecvOffsets[b])
  {
    charOffs := [];
    for a := 0 to |columns|
      invariant |charOffs| == a
      invariant forall r :: 0 <= r < a ==> Gathered(columns[r], offs[r], charOffs[r])
    {
      assert Offsets(offs[a], |RowsOf(columns)[a]|, grid / stride);
      var gathered := GatherOffsets(columns[a], offs[a]);
      charOffs := charOffs + [gathered];
    }
    CharsCollective(columns, offs, charOffs, grid, stride);
    var counts := CommunicateSizes(CharsOf(columns), charOffs, grid, stride);
    charRecvOffsets := [];
    for b := 0 to |columns|
      invariant |charRecvOffsets| == b
      invariant forall r :: 0 <= r < b ==>
                  Placements(Due(CharsOf(columns), charOffs, grid, stride, r), charRecvOffsets[r])
    {
      var scanned := PartialSum(counts[b]);
      ScannedPlaces(Due(CharsOf(columns), charOffs, grid, stride, b), counts[b], scanned);
      charRecvOffsets := charRecvOffsets + [scanned];
    }
  }

  /** Where each part starts when all are laid end to end, and where the last one ends. */
  ghost predicate Placements<T>(parts: seq<seq<T>>, offsets: seq<nat>) {
    |offsets| == |parts| + 1 && forall i :: 0 <= i <= |parts| ==> offsets[i] == Starts(parts, i)
  }

  lemma ScannedPlaces<T>(parts: seq<seq<T>>, counts: seq<nat>, offsets: seq<nat>)
    requires Lengths(parts, counts) && Scanned(offsets, counts)
    ensures Placements(parts, offsets)
  {
    forall i | 0 <= i <= |parts| ensures offsets[i] == Starts(parts, i) { ScanStarts(parts, counts, i); }
  }

  /** The characters that arrive at rank `b` are those of the rows due to it. */
  lemma CharsArrive(columns: seq<StringColumn>, offs: seq<seq<nat>>, charOffs: seq<seq<nat>>, grid: nat, stride: nat, b: nat)
    requires StringsSet(columns, offs, grid, stride) && AllGathered(columns, offs, charOffs)
    requires Collective(CharsOf(columns), charOffs, grid, stride) && b < |columns|
    ensures Received(CharsOf(columns), charOffs, grid, stride, b)
         == Flatten(Received(RowsOf(columns), offs, grid, stride, b))
  {
    var due, dueChars := Due(RowsOf(columns), offs, grid, stride, b), Due(CharsOf(columns), charOffs, grid, stride, b);
    forall i | 0 <= i < grid / stride ensures dueChars[i] == Flatten(due[i]) {
      var group := GroupOf(b, grid, stride);
      GroupsAgree(group, |columns|, i);
      CharSlice(columns[group.GlobalRank(i)], offs[group.GlobalRank(i)], charOffs[group.GlobalRank(i)], group.LocalIdx());
    }
    hide Flatten, Incoming;
    assert dueChars == FlattenEach(due);
    FlattenTwice(due);
  }

  // ---------- the sizes, and the memory behind them ----------

  /** The array of sizes holds one entry for each row from the first slice on, but is indexed by the
      number of the row. `beyond[a]` is what the memory behind the array of rank `a` holds. */
  ghost predicate Behind(columns: seq<StringColumn>, offs: seq<seq<nat>>, beyond: seq<seq<nat>>) {
    |beyond| == |columns| == |offs| && forall a :: 0 <= a < |columns| ==> |offs[a]| > 0 && |beyond[a]| >= offs[a][0]
  }

  ghost function SizesMemory(columns: seq<StringColumn>, offs: seq<seq<nat>>, grid: nat, stride: nat, beyond: seq<seq<nat>>)
    : (r: seq<seq<nat>>)
    requires StringsSet(columns, offs, grid, stride) && Behind(columns, offs, beyond)
    ensures |r| == |columns|
  {
    seq(|columns|, a requires 0 <= a < |columns| =>
      assert Offsets(offs[a], |RowsOf(columns)[a]|, grid / stride);
      Lens(columns[a].Rows()[offs[a][0]..offs[a][grid / stride]]) + beyond[a])
  }

  lemma SizesCollective(columns: seq<StringColumn>, offs: seq<seq<nat>>, grid: nat, stride: nat, beyond: seq<seq<nat>>)
    requires StringsSet(columns, offs, grid, stride) && Behind(columns, offs, beyond)
    ensures Collective(SizesMemory(columns, offs, grid, stride, beyond), offs, grid, stride)
  {
    forall a | 0 <= a < |columns|
      ensures Offsets(offs[a], |SizesMemory(columns, offs, grid, stride, beyond)[a]|, grid / stride)
    {
      assert Offsets(offs[a], |RowsOf(columns)[a]|, grid / stride);
    }
  }

  /** What a send of slice `j` reads from the sizes. */
  ghost function SizesRead(column: StringColumn, offs: seq<nat>, beyond: seq<nat>, j: nat): seq<nat>
    requires column.Valid() && |offs| > 1 && Offsets(offs, column.Size(), |offs| - 1) && j + 1 < |offs| && |beyond| >= offs[0]
  {
    var begin, end := offs[0], offs[|offs| - 1];
    assert begin <= end && offs[j] <= offs[j + 1] <= end;
    (Lens(column.Rows()[begin..end]) + beyond)[offs[j]..offs[j + 1]]
  }

  /** Every slice is sent with the lengths of its own rows. */
  ghost predicate SizesRight(column: StringColumn, offs: seq<nat>, beyond: seq<nat>)
    requires column.Valid() && |offs| > 1 && Offsets(offs, column.Size(), |offs| - 1)
  {
    |beyond| >= offs[0] ==> forall j :: 0 <= j < |offs| - 1 ==>
      SizesRead(column, offs, beyond, j) == Lens(Slice(column.Rows(), offs, j))
  }

  /** The first slice starts at row 0, or there is nothing to send. */
  predicate AtFirstRow(offs: seq<nat>)
    requires |offs| > 0
  {
    offs[0] == 0 || offs[0] == offs[|offs| - 1]
  }

  lemma RightAtFirstRow(column: StringColumn, offs: seq<nat>, beyond: seq<nat>)
    requires column.Valid() && |offs| > 1 && Offsets(offs, column.Size(), |offs| - 1) && AtFirstRow(offs)
    ensures SizesRight(column, offs, beyond)
  {
  }

  /** The last slice that has rows. */
  lemma {:induction false} LastSlice(offs: seq<nat>, k: nat) returns (j: nat)
    requires 0 < k < |offs| && forall i, j :: 0 <= i <= j < |offs| ==> offs[i] <= offs[j]
    requires offs[0] < offs[k]
    ensures j < k && offs[j] < offs[j + 1] == offs[k]
    decreases k
  {
    if offs[k - 1] < offs[k] { j := k - 1; } else { j := LastSlice(offs, k - 1); }
  }

  /** Otherwise the memory behind the array decides what is sent. */
  lemma WrongElsewhere(column: StringColumn, offs: seq<nat>) returns (beyond: seq<nat>, j: nat)
    requires column.Valid() && |offs| > 1 && Offsets(offs, column.Size(), |offs| - 1) && !AtFirstRow(offs)
    ensures |beyond| == offs[0] && j + 1 < |offs|
    ensures SizesRead(column, offs, beyond, j) != Lens(Slice(column.Rows(), offs, j))
  {
    var begin, end := offs[0], offs[|offs| - 1];
    j := LastSlice(offs, |offs| - 1);
    var wrong := |column.Rows()[end - 1]| + 1;
    beyond := seq(begin, _ => wrong);
    assert end - 1 - (end - begin) == begin - 1;
    assert SizesRead(column, offs, beyond, j)[end - 1 - offs[j]] == wrong;
    assert Lens(Slice(column.Rows(), offs, j))[end - 1 - offs[j]] == wrong - 1;
  }

  /** The sizes sent are right, whatever the memory behind the array holds, exactly when the first
      slice starts at row 0 or all slices are empty. */
  lemma SizesRightIff(column: StringColumn, offs: seq<nat>)
    requires column.Valid() && |offs| > 1 && Offsets(offs, column.Size(), |offs| - 1)
    ensures (forall beyond :: SizesRight(column, offs, beyond)) <==> AtFirstRow(offs)
  {
    if AtFirstRow(offs) {
      forall beyond ensures SizesRight(column, offs, beyond) { RightAtFirstRow(column, offs, beyond); }
    } else {
      var beyond, j := WrongElsewhere(column, offs);
      assert !SizesRight(column, offs, beyond);
    }
  }

  /** Three rows of lengths 1, 2 and 3, sent in two slices from row 1 on: the slice with row 1 goes
      out with the length of row 2. */
  lemma LaterBatchGoesWrong(column: StringColumn, beyond: seq<nat>)
    requires column == StringColumn([0, 1, 3, 6], "abbccc") && |beyond| >= 1
    ensures column.Valid() && Offsets([1, 2, 3], column.Size(), 2)
    ensures SizesRead(column, [1, 2, 3], beyond, 0) == [3]
    ensures Lens(Slice(column.Rows(), [1, 2, 3], 0)) == [2]
  {
    var rows := column.Rows();
    assert Lens(rows[1..3]) == [2, 3];
  }

  // ---------- what the receiver decodes ----------

  ghost function ReceivedSizes(columns: seq<StringColumn>, offs: seq<seq<nat>>, grid: nat, stride: nat,
      beyond: seq<seq<nat>>, b: nat): seq<nat>
    requires StringsSet(columns, offs, grid, stride) && Behind(columns, offs, beyond) && b < |columns|
  {
    SizesCollective(columns, offs, grid, stride, beyond);
    Received(SizesMemory(columns, offs, grid, stride, beyond), offs, grid, stride, b)
  }

  /** The slice of sizes for slot `i` of rank `b`, against the lengths of the rows due there. */
  lemma SizesDue(columns: seq<StringColumn>, offs: seq<seq<nat>>, grid: nat, stride: nat, beyond: seq<seq<nat>>,
      b: nat, i: nat) returns (a: nat, j: nat)
    requires StringsSet(columns, offs, grid, stride) && Behind(columns, offs, beyond)
    requires Collective(SizesMemory(columns, offs, grid, stride, beyond), offs, grid, stride)
    requires b < |columns| && i < grid / stride
    ensures a < |columns| && j < grid / stride && a == GroupOf(b, grid, stride).GlobalRank(i)
    ensures j == GroupOf(b, grid, stride).LocalIdx()
    ensures Offsets(offs[a], columns[a].Size(), |offs[a]| - 1) && |offs[a]| == grid / stride + 1
    ensures Due(SizesMemory(columns, offs, grid, stride, beyond), offs, grid, stride, b)[i]
         == SizesRead(columns[a], offs[a], beyond[a], j)
    ensures Due(RowsOf(columns), offs, grid, stride, b)[i] == Slice(columns[a].Rows(), offs[a], j)
  {
    var group := GroupOf(b, grid, stride);
    GroupsAgree(group, |columns|, i);
    a, j := group.GlobalRank(i), group.LocalIdx();
    assert Offsets(offs[a], |RowsOf(columns)[a]|, grid / stride);
  }

  ghost predicate AllRight(columns: seq<StringColumn>, offs: seq<seq<nat>>, grid: nat, stride: nat, beyond: seq<seq<nat>>)
    requires StringsSet(columns, offs, grid, stride) && Behind(columns, offs, beyond)
  {
    forall b :: 0 <= b < |columns| ==>
      ReceivedSizes(columns, offs, grid, stride, beyond, b) == Lens(Received(RowsOf(columns), offs, grid, stride, b))
  }

  /** Where every rank sends right sizes, every rank receives the lengths of the rows due to it. */
  lemma RightSizesArrive(columns: seq<StringColumn>, offs: seq<seq<nat>>, grid: nat, stride: nat, beyond: seq<seq<nat>>, b: nat)
    requires StringsSet(columns, offs, grid, stride) && Behind(columns, offs, beyond) && b < |columns|
    requires forall a :: 0 <= a < |offs| ==> AtFirstRow(offs[a])
    ensures ReceivedSizes(columns, offs, grid, stride, beyond, b) == Lens(Received(RowsOf(columns), offs, grid, stride, b))
  {
    SizesCollective(columns, offs, grid, stride, beyond);
    var memory := SizesMemory(columns, offs, grid, stride, beyond);
    var due, dueSizes := Due(RowsOf(columns), offs, grid, stride, b), Due(memory, offs, grid, stride, b);
    forall i | 0 <= i < grid / stride ensures dueSizes[i] == Lens(due[i]) {
      var a, j := SizesDue(columns, offs, grid, stride, beyond, b, i);
      RightAtFirstRow(columns[a], offs[a], beyond[a]);
    }
    hide Flatten, Incoming;
    assert dueSizes == LensEach(due);
    FlattenLens(due);
  }

  /** Parts of the same lengths with the same concatenation are the same. */
  lemma SameParts<T>(parts: seq<seq<T>>, parts': seq<seq<T>>, i: nat)
    requires |parts| == |parts'| && forall k :: 0 <= k < |parts| ==> |parts[k]| == |parts'[k]|
    requires Flatten(parts) == Flatten(parts') && i < |parts|
    ensures parts[i] == parts'[i]
  {
    var counts: seq<nat> := seq(|parts|, k requires 0 <= k < |parts| => |parts[k]|);
    ScanStarts(parts, counts, i);
    ScanStarts(parts', counts, i);
    FlattenSlice(parts, i);
    FlattenSlice(parts', i);
  }

  /** If every rank receives the right sizes, every slice was sent with the right sizes. */
  lemma RightSizesSent(columns: seq<StringColumn>, offs: seq<seq<nat>>, grid: nat, stride: nat, beyond: seq<seq<nat>>,
      a: nat, j: nat)
    requires StringsSet(columns, offs, grid, stride) && Behind(columns, offs, beyond)
    requires AllRight(columns, offs, grid, stride, beyond) && a < |columns| && j < grid / stride
    ensures Offsets(offs[a], columns[a].Size(), |offs[a]| - 1) && |offs[a]| == grid / stride + 1
    ensures SizesRead(columns[a], offs[a], beyond[a], j) == Lens(Slice(columns[a].Rows(), offs[a], j))
  {
    SizesCollective(columns, offs, grid, stride, beyond);
    var group := GroupOf(a, grid, stride);
    GroupsAgree(group, |columns|, j);
    var b, i := group.GlobalRank(j), group.LocalIdx();
    GroupsAgree(GroupOf(b, grid, stride), |columns|, i);
    var memory := SizesMemory(columns, offs, grid, stride, beyond);
    var a', j' := SizesDue(columns, offs, grid, stride, beyond, b, i);
    SameSizes(columns, offs, grid, stride, beyond, b, i);
  }

  lemma SameSizes(columns: seq<StringColumn>, offs: seq<seq<nat>>, grid: nat, stride: nat, beyond: seq<seq<nat>>,
      b: nat, i: nat)
    requires StringsSet(columns, offs, grid, stride) && Behind(columns, offs, beyond)
    requires Collective(SizesMemory(columns, offs, grid, stride, beyond), offs, grid, stride)
    requires AllRight(columns, offs, grid, stride, beyond) && b < |columns| && i < grid / stride
    ensures Due(SizesMemory(columns, offs, grid, stride, beyond), offs, grid, stride, b)[i]
         == Lens(Due(RowsOf(columns), offs, grid, stride, b)[i])
  {
    var memory := SizesMemory(columns, offs, grid, stride, beyond);
    var due, dueSizes := Due(RowsOf(columns), offs, grid, stride, b), Due(memory, offs, grid, stride, b);
    forall k | 0 <= k < grid / stride ensures |dueSizes[k]| == |LensEach(due)[k]| {
      var a, j := SizesDue(columns, offs, grid, stride, beyond, b, k);
    }
    FlattenLens(due);
    assert ReceivedSizes(columns, offs, grid, stride, beyond, b) == Lens(Received(RowsOf(columns), offs, grid, stride, b));
    SameParts(dueSizes, LensEach(due), i);
  }

  /** A column decodes to the rows exactly when its sizes are their lengths. */
  lemma DecodesIff(column: StringColumn, sizes: seq<nat>, rows: seq<Row>)
    requires Scanned(column.offsets, sizes) && column.chars == Flatten(rows)
    ensures column.Valid() && column.Rows() == rows <==> sizes == Lens(rows)
  {
    hide Flatten, Scan, Scanned, Lens, StringColumn.Valid, StringColumn.Rows;
    if sizes == Lens(rows) { Rebuilt(column.offsets, rows); }
    if column.Valid() && column.Rows() == rows { RowLengths(column, sizes); }
  }

  /** The rows of a column with scanned offsets have the lengths that were scanned. */
  lemma RowLengths(column: StringColumn, sizes: seq<nat>)
    requires Scanned(column.offsets, sizes) && column.Valid()
    ensures sizes == Lens(column.Rows())
  {
    ScannedGrow(column.offsets, sizes);
    hide Scanned;
    forall k | 0 <= k < |sizes| ensures sizes[k] == |column.Rows()[k]| {
      assert column.Rows()[k] == column.chars[column.offsets[k]..column.offsets[k + 1]];
    }
  }

  /** The columns of all ranks after the exchange, with `beyond` behind the arrays of sizes. */
  ghost predicate Exchanged(out: seq<StringColumn>, columns: seq<StringColumn>, offs: seq<seq<nat>>, grid: nat, stride: nat,
      beyond: seq<seq<nat>>)
    requires StringsSet(columns, offs, grid, stride) && Behind(columns, offs, beyond)
  {
    && |out| == |columns|
    && forall b :: 0 <= b < |out| ==>
         && Scanned(out[b].offsets, ReceivedSizes(columns, offs, grid, stride, beyond, b))
         && out[b].chars == Flatten(Received(RowsOf(columns), offs, grid, stride, b))
  }

  ghost predicate Decoded(out: seq<StringColumn>, columns: seq<StringColumn>, offs: seq<seq<nat>>, grid: nat, stride: nat)
    requires StringsSet(columns, offs, grid, stride)
  {
    && |out| == |columns|
    && forall b :: 0 <= b < |out| ==>
         out[b].Valid() && out[b].Rows() == Received(RowsOf(columns), offs, grid, stride, b)
  }

  /** All ranks decode the rows due to them exactly when all receive the right sizes. */
  lemma AllDecodeIff(out: seq<StringColumn>, columns: seq<StringColumn>, offs: seq<seq<nat>>, grid: nat, stride: nat,
      beyond: seq<seq<nat>>)
    requires StringsSet(columns, offs, grid, stride) && Behind(columns, offs, beyond)
    requires Exchanged(out, columns, offs, grid, stride, beyond)
    ensures Decoded(out, columns, offs, grid, stride) <==> AllRight(columns, offs, grid, stride, beyond)
  {
    hide Received, ReceivedSizes, Flatten, StringColumn.Rows, StringColumn.Valid;
    forall b | 0 <= b < |out|
      ensures out[b].Valid() && out[b].Rows() == Received(RowsOf(columns), offs, grid, stride, b)
         <==> ReceivedSizes(columns, offs, grid, stride, beyond, b) == Lens(Received(RowsOf(columns), offs, grid, stride, b))
    {
      DecodesIff(out[b], ReceivedSizes(columns, offs, grid, stride, beyond, b), Received(RowsOf(columns), offs, grid, stride, b));
    }
  }

  /** Every string arrives, whatever lies behind the arrays of sizes. */
  ghost predicate StringsSurvive(columns: seq<StringColumn>, offs: seq<seq<nat>>, grid: nat, stride: nat)
    requires StringsSet(columns, offs, grid, stride)
  {
    forall beyond, out :: Behind(columns, offs, beyond) && Exchanged(out, columns, offs, grid, stride, beyond) ==>
      Decoded(out, columns, offs, grid, stride)
  }

  /** When the exchange of a string column preserves every string: exactly when at every rank the first
      slice starts at row 0 or all slices are empty. */
  lemma StringsSurviveIff(columns: seq<StringColumn>, offs: seq<seq<nat>>, grid: nat, stride: nat)
    requires StringsSet(columns, offs, grid, stride)
    ensures forall a :: 0 <= a < |offs| ==> |offs[a]| > 1
    ensures StringsSurvive(columns, offs, grid, stride) <==> forall a :: 0 <= a < |offs| ==> AtFirstRow(offs[a])
  {
    DivideAgain(grid, stride);
    forall a | 0 <= a < |offs| ensures |offs[a]| == grid / stride + 1 > 1 && Offsets(offs[a], columns[a].Size(), grid / stride) {
      assert Offsets(offs[a], |RowsOf(columns)[a]|, grid / stride);
    }
    if forall a :: 0 <= a < |offs| ==> AtFirstRow(offs[a]) {
      Survive(columns, offs, grid, stride);
    } else {
      var a :| 0 <= a < |offs| && !AtFirstRow(offs[a]);
      Lost(columns, offs, grid, stride, a);
    }
  }

  lemma Survive(columns: seq<StringColumn>, offs: seq<seq<nat>>, grid: nat, stride: nat)
    requires StringsSet(columns, offs, grid, stride)
    requires forall a :: 0 <= a < |offs| ==> |offs[a]| > 1 && AtFirstRow(offs[a])
    ensures StringsSurvive(columns, offs, grid, stride)
  {
    hide Received, ReceivedSizes, Exchanged, Decoded, AtFirstRow, AllRight;
    forall beyond, out | Behind(columns, offs, beyond) && Exchanged(out, columns, offs, grid, stride, beyond)
      ensures Decoded(out, columns, offs, grid, stride)
    {
      AllRightAtFirstRow(columns, offs, grid, stride, beyond);
      AllDecodeIff(out, columns, offs, grid, stride, beyond);
    }
  }

  lemma AllRightAtFirstRow(columns: seq<StringColumn>, offs: seq<seq<nat>>, grid: nat, stride: nat, beyond: seq<seq<nat>>)
    requires StringsSet(columns, offs, grid, stride) && Behind(columns, offs, beyond)
    requires forall a :: 0 <= a < |offs| ==> AtFirstRow(offs[a])
    ensures AllRight(columns, offs, grid, stride, beyond)
  {
    hide Received, ReceivedSizes, AtFirstRow;
    forall b | 0 <= b < |columns|
      ensures ReceivedSizes(columns, offs, grid, stride, beyond, b) == Lens(Received(RowsOf(columns), offs, grid, stride, b))
    {
      RightSizesArrive(columns, offs, grid, stride, beyond, b);
    }
  }

  lemma Lost(columns: seq<StringColumn>, offs: seq<seq<nat>>, grid: nat, stride: nat, a: nat)
    requires StringsSet(columns, offs, grid, stride) && a < |offs|
    requires forall r :: 0 <= r < |offs| ==> |offs[r]| > 1
    requires Offsets(offs[a], columns[a].Size(), |offs[a]| - 1) && |offs[a]| == grid / stride + 1 && !AtFirstRow(offs[a])
    ensures !StringsSurvive(columns, offs, grid, stride)
  {
    hide Received, ReceivedSizes, Decoded, SizesRead, Slice, Offsets, StringColumn.Rows;
    var wrong, j := WrongElsewhere(columns[a], offs[a]);
    var beyond := seq(|offs|, r requires 0 <= r < |offs| => if r == a then wrong else seq(offs[r][0], _ => 0));
    var out := SomeColumns(columns, offs, grid, stride, beyond, |columns|);
    if AllRight(columns, offs, grid, stride, beyond) {
      RightSizesSent(columns, offs, grid, stride, beyond, a, j);
    }
    AllDecodeIff(out, columns, offs, grid, stride, beyond);
  }

  /** The receivers rebuild some column from whatever sizes arrive. */
  lemma {:induction false} SomeColumns(columns: seq<StringColumn>, offs: seq<seq<nat>>, grid: nat, stride: nat,
      beyond: seq<seq<nat>>, n: nat) returns (out: seq<StringColumn>)
    requires StringsSet(columns, offs, grid, stride) && Behind(columns, offs, beyond) && n <= |columns|
    ensures |out| == n
    ensures forall b :: 0 <= b < n ==>
              Scanned(out[b].offsets, ReceivedSizes(columns, offs, grid, stride, beyond, b))
              && out[b].chars == Flatten(Received(RowsOf(columns), offs, grid, stride, b))
  {
    hide Received, ReceivedSizes, Flatten;
    if n == 0 {
      out := [];
    } else {
      var front := SomeColumns(columns, offs, grid, stride, beyond, n - 1);
      var sizes := ReceivedSizes(columns, offs, grid, stride, beyond, n - 1);
      var offsets: seq<nat> := seq(|sizes| + 1, k requires 0 <= k <= |sizes| => Scan(sizes, k));
      out := front + [StringColumn(offsets, Flatten(Received(RowsOf(columns), offs, grid, stride, n - 1)))];
    }
  }

  // ---------- the exchange ----------

  /** The constructor's part: the arrays of sizes of all ranks, and what lies behind them. */
  method PrepareSizes(columns: seq<StringColumn>, offs: seq<seq<nat>>, grid: nat, stride: nat, beyond: seq<seq<nat>>)
    returns (sizes: seq<seq<nat>>)
    requires StringsSet(columns, offs, grid, stride) && Behind(columns, offs, beyond)
    ensures sizes == SizesMemory(columns, offs, grid, stride, beyond)
  {
    sizes := [];
    for a := 0 to |columns|
      invariant sizes == SizesMemory(columns, offs, grid, stride, beyond)[..a]
    {
      assert Offsets(offs[a], |RowsOf(columns)[a]|, grid / stride);
      var lengths := SizesFromOffsets(columns[a], offs[a][0], offs[a][|offs[a]| - 1]);
      sizes := sizes + [lengths + beyond[a]];
    }
  }

  /** The exchange of a string column, for any slices and any memory behind the arrays of sizes. If at
      every rank the first slice starts at row 0 or all slices are empty, every string arrives: the rows
      of rank `b` are the slices of rows due to it, in group order. */
  method ExchangeStrings(columns: seq<StringColumn>, offs: seq<seq<nat>>, grid: nat, stride: nat, explicitCopy: bool,
      beyond: seq<seq<nat>>) returns (out: seq<StringColumn>)
    requires StringsSet(columns, offs, grid, stride) && Behind(columns, offs, beyond)
    ensures Exchanged(out, columns, offs, grid, stride, beyond)
    ensures (forall a :: 0 <= a < |offs| ==> AtFirstRow(offs[a])) ==> Decoded(out, columns, offs, grid, stride)
  {
    hide Received, Flatten, Exchanged, Decoded, AllRight, AtFirstRow, Collective, Slice;
    var charOffs, charRecvOffsets := GatherStringOffsets(columns, offs, grid, stride);
    var sizes := PrepareSizes(columns, offs, grid, stride, beyond);
    SizesCollective(columns, offs, grid, stride, beyond);
    var sizesReceived := AllToAllTables(sizes, offs, grid, stride, explicitCopy);
    var chars := GatherChars(columns);
    var charsReceived := AllToAllTables(chars, charOffs, grid, stride, explicitCopy);
    out := RebuildAll(sizesReceived, charsReceived, columns, offs, charOffs, grid, stride, beyond);
    if forall a :: 0 <= a < |offs| ==> AtFirstRow(offs[a]) {
      AllRightAtFirstRow(columns, offs, grid, stride, beyond);
      AllDecodeIff(out, columns, offs, grid, stride, beyond);
    }
  }

  method GatherChars(columns: seq<StringColumn>) returns (chars: seq<seq<char>>)
    ensures chars == CharsOf(columns)
  {
    chars := [];
    for a := 0 to |columns|
      invariant chars == CharsOf(columns)[..a]
    {
      chars := chars + [columns[a].chars];
    }
  }

  /** The scans of all ranks. */
  method RebuildAll(sizes: seq<seq<nat>>, chars: seq<seq<char>>, ghost columns: seq<StringColumn>, ghost offs: seq<seq<nat>>,
      ghost charOffs: seq<seq<nat>>, ghost grid: nat, ghost stride: nat, ghost beyond: seq<seq<nat>>)
    returns (out: seq<StringColumn>)
    requires StringsSet(columns, offs, grid, stride) && Behind(columns, offs, beyond)
    requires AllGathered(columns, offs, charOffs) && Collective(CharsOf(columns), charOffs, grid, stride)
    requires |sizes| == |chars| == |columns|
    requires forall b :: 0 <= b < |columns| ==>
               && sizes[b] == ReceivedSizes(columns, offs, grid, stride, beyond, b)
               && chars[b] == Received(CharsOf(columns), charOffs, grid, stride, b)
    ensures Exchanged(out, columns, offs, grid, stride, beyond)
  {
    hide Received, ReceivedSizes, Flatten, Collective, AllGathered;
    out := [];
    for b := 0 to |sizes|
      invariant |out| == b
      invariant forall r :: 0 <= r < b ==>
                  Scanned(out[r].offsets, ReceivedSizes(columns, offs, grid, stride, beyond, r))
                  && out[r].chars == Flatten(Received(RowsOf(columns), offs, grid, stride, r))
    {
      CharsArrive(columns, offs, charOffs, grid, stride, b);
      var offsets := OffsetsFromSizes(sizes[b]);
      out := out + [StringColumn(offsets, chars[b])];
    }
  }
}
