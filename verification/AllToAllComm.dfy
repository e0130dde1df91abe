/** The exchange as the ranks run it: sizes first, then slices sent and received by offset, with the
    slice a rank has for itself either sent like the others or copied when the table is allocated. */
module AllToAllComm {
  import opened Tables
  import opened Groups
  import opened AllToAll

  /** The partial sum of the first `i` counts. */
  function Scan(counts: seq<nat>, i: nat): nat
    requires i <= |counts|
  {
    if i == 0 then 0 else Scan(counts, i - 1) + counts[i - 1]
  }

  /** Where parts of known lengths start when laid end to end. */
  ghost predicate Lengths<T>(parts: seq<seq<T>>, counts: seq<nat>) {
    |parts| == |counts| && forall i :: 0 <= i < |parts| ==> |parts[i]| == counts[i]
  }

  lemma {:induction false} ScanStarts<T>(parts: seq<seq<T>>, counts: seq<nat>, i: nat)
    requires Lengths(parts, counts) && i <= |counts|
    ensures Starts(parts, i) == Scan(counts, i)
  {
    if i > 0 {
      ScanStarts(parts, counts, i - 1);
      assert parts[..i][..i - 1] == parts[..i - 1];
    }
  }

  lemma {:induction false} ScanGrows(counts: seq<nat>, i: nat, j: nat)
    requires i <= j <= |counts|
    ensures Scan(counts, i) <= Scan(counts, j)
    decreases j - i
  {
    if i < j { ScanGrows(counts, i, j - 1); }
  }

  /** Offsets that are the partial sums of `counts`. */
  ghost predicate Scanned(offsets: seq<nat>, counts: seq<nat>) {
    |offsets| == |counts| + 1 && forall i :: 0 <= i <= |counts| ==> offsets[i] == Scan(counts, i)
  }

  lemma ScannedGrow(offsets: seq<nat>, counts: seq<nat>)
    requires Scanned(offsets, counts)
    ensures forall i, j :: 0 <= i <= j <= |counts| ==> offsets[i] <= offsets[j]
    ensures offsets[0] == 0
    ensures forall i :: 0 <= i < |counts| ==> offsets[i + 1] == offsets[i] + counts[i]
  {
    forall i, j | 0 <= i <= j <= |counts| ensures offsets[i] <= offsets[j] { ScanGrows(counts, i, j); }
  }

  ghost predicate InPlace<T>(buf: seq<T>, offsets: seq<nat>, k: nat, part: seq<T>) {
    k + 1 < |offsets| && offsets[k] <= offsets[k + 1] <= |buf| && buf[offsets[k]..offsets[k + 1]] == part
  }

  /** A buffer with every part in its place is the concatenation of the parts. */
  lemma {:induction false} Assembled<T>(buf: seq<T>, offsets: seq<nat>, parts: seq<seq<T>>, k: nat)
    requires |offsets| == |parts| + 1 && offsets[0] == 0 && k <= |parts|
    requires forall i :: 0 <= i < k ==> InPlace(buf, offsets, i, parts[i])
    ensures offsets[k] <= |buf| && buf[..offsets[k]] == Flatten(parts[..k])
  {
    if k > 0 {
      Assembled(buf, offsets, parts, k - 1);
      assert InPlace(buf, offsets, k - 1, parts[k - 1]);
      PartMore(buf, offsets[k - 1], offsets[k]);
      assert parts[..k][..k - 1] == parts[..k - 1];
    }
  }

  lemma PartMore<T>(buf: seq<T>, a: nat, b: nat)
    requires a <= b <= |buf|
    ensures buf[..b] == buf[..a] + buf[a..b]
  {
  }

  /** The buffer after `data` has been placed at `start`. */
  function Placed<T>(buf: seq<T>, start: nat, data: seq<T>): seq<T>
    requires start + |data| <= |buf|
  {
    buf[..start] + data + buf[start + |data|..]
  }

  /** Placing part `i` puts it in its place and leaves part `k` alone. */
  lemma PlacedKeeps<T>(buf: seq<T>, offsets: seq<nat>, i: nat, data: seq<T>, k: nat, part: seq<T>)
    requires i + 1 < |offsets| && offsets[i] + |data| == offsets[i + 1] <= |buf|
    requires forall a, b :: 0 <= a <= b < |offsets| ==> offsets[a] <= offsets[b]
    requires if k == i then part == data else InPlace(buf, offsets, k, part)
    ensures InPlace(Placed(buf, offsets[i], data), offsets, k, part)
  {
    if k < i { assert offsets[k + 1] <= offsets[i]; } else if k > i { assert offsets[i + 1] <= offsets[k]; }
  }

  /** Rank `b` is among the first `k` members of the group. */
  ghost predicate AmongFirst(group: CommunicationGroup, k: nat, b: int)
    requires group.gridSize > 0 && group.stride > 0
  {
    exists j :: 0 <= j < k && group.GlobalRank(j) == b
  }

  /** Member `k` is a rank, and none of the members before it. */
  lemma NextMember(group: CommunicationGroup, n: nat, k: nat)
    requires group.WellFormed(n) && k < group.Size()
    ensures 0 <= group.GlobalRank(k) < n
    ensures forall i :: 0 <= i < k ==> group.GlobalRank(i) != group.GlobalRank(k)
  {
    GroupsAgree(group, n, k);
    forall i | 0 <= i < k ensures group.GlobalRank(i) != group.GlobalRank(k) {
      MembersDiffer(group.mpiRank, group.gridSize, group.stride, n, i, k);
    }
  }

  lemma AmongNone(group: CommunicationGroup)
    requires group.gridSize > 0 && group.stride > 0
    ensures forall b :: !AmongFirst(group, 0, b)
  {
  }

  lemma AmongNext(group: CommunicationGroup, k: nat)
    requires group.gridSize > 0 && group.stride > 0
    ensures forall b :: AmongFirst(group, k + 1, b) <==> AmongFirst(group, k, b) || b == group.GlobalRank(k)
  {
    forall b ensures AmongFirst(group, k + 1, b) <==> AmongFirst(group, k, b) || b == group.GlobalRank(k) {
      if j :| 0 <= j < k + 1 && group.GlobalRank(j) == b {}
    }
  }

  /** The lengths of consecutive slices. */
  method SliceLengths(offsets: seq<nat>, size: nat) returns (lengths: seq<nat>)
    requires |offsets| == size + 1 && forall i, j :: 0 <= i <= j <= size ==> offsets[i] <= offsets[j]
    ensures |lengths| == size && forall j :: 0 <= j < size ==> offsets[j] + lengths[j] == offsets[j + 1]
  {
    lengths := [];
    for j := 0 to size
      invariant |lengths| == j && forall i :: 0 <= i < j ==> offsets[i] + lengths[i] == offsets[i + 1]
    {
      lengths := lengths + [offsets[j + 1] - offsets[j]];
    }
  }

  /** The sends of `communicate_sizes`: the length of every slice, by target rank. Members are sent
      theirs, and nobody else is sent anything. */
  method SendCounts(offsets: seq<nat>, group: CommunicationGroup, ghost n: nat) returns (counts: map<nat, nat>)
    requires group.WellFormed(n) && |offsets| == group.Size() + 1
    requires forall i, j :: 0 <= i <= j <= group.Size() ==> offsets[i] <= offsets[j]
    ensures forall j :: 0 <= j < group.Size() ==>
              group.GlobalRank(j) in counts && offsets[j] + counts[group.GlobalRank(j)] == offsets[j + 1]
    ensures forall b :: b in counts <==> AmongFirst(group, group.Size(), b)
  {
    var lengths := SliceLengths(offsets, group.Size());
    counts := SendEach(lengths, group, n);
  }

  method SendEach(lengths: seq<nat>, group: CommunicationGroup, ghost n: nat) returns (counts: map<nat, nat>)
    requires group.WellFormed(n) && |lengths| == group.Size()
    ensures forall j :: 0 <= j < group.Size() ==>
              group.GlobalRank(j) in counts && counts[group.GlobalRank(j)] == lengths[j]
    ensures forall b :: b in counts <==> AmongFirst(group, group.Size(), b)
  {
    hide CommunicationGroup.GlobalRank, CommunicationGroup.Size, AmongFirst;
    AmongNone(group);
    counts := map[];
    for j := 0 to group.Size()
      invariant forall b :: b in counts <==> AmongFirst(group, j, b)
      invariant forall i :: 0 <= i < j ==> group.GlobalRank(i) in counts && counts[group.GlobalRank(i)] == lengths[i]
    {
      NextMember(group, n, j);
      AmongNext(group, j);
      counts := counts[group.GlobalRank(j) := lengths[j]];
    }
  }

  /** The receives of `communicate_sizes`, in group order. */
  method RecvCounts(mail: map<nat, nat>, group: CommunicationGroup, ghost n: nat) returns (counts: seq<nat>)
    requires group.WellFormed(n)
    requires forall i :: 0 <= i < group.Size() ==> group.GlobalRank(i) in mail
    ensures |counts| == group.Size()
    ensures forall i :: 0 <= i < group.Size() ==> counts[i] == mail[group.GlobalRank(i)]
  {
    counts := [];
    for i := 0 to group.Size()
      invariant |counts| == i
      invariant forall j :: 0 <= j < i ==> counts[j] == mail[group.GlobalRank(j)]
    {
      counts := counts + [mail[group.GlobalRank(i)]];
    }
  }

  /** `std::partial_sum` of the received counts. */
  method PartialSum(counts: seq<nat>) returns (offsets: seq<nat>)
    ensures Scanned(offsets, counts)
  {
    offsets := [0];
    for i := 0 to |counts|
      invariant |offsets| == i + 1
      invariant forall j :: 0 <= j <= i ==> offsets[j] == Scan(counts, j)
    {
      offsets := offsets + [offsets[i] + counts[i]];
    }
  }

  /** `send_data_by_offset`: what one rank hands to the communicator, by target rank. */
  method SendDataByOffset<T>(data: seq<T>, offsets: seq<nat>, group: CommunicationGroup, ghost n: nat, selfSend: bool)
    returns (mail: map<nat, seq<T>>)
    requires group.WellFormed(n) && Offsets(offsets, |data|, group.Size())
    ensures forall j :: 0 <= j < group.Size() && (selfSend || group.GlobalRank(j) != group.mpiRank) ==>
              group.GlobalRank(j) in mail && mail[group.GlobalRank(j)] == Slice(data, offsets, j)
    ensures forall b :: b in mail <==> AmongFirst(group, group.Size(), b) && (selfSend || b != group.mpiRank)
  {
    hide CommunicationGroup.GlobalRank, CommunicationGroup.Size, AmongFirst, Slice;
    AmongNone(group);
    mail := map[];
    for j := 0 to group.Size()
      invariant forall b :: b in mail <==> AmongFirst(group, j, b) && (selfSend || b != group.mpiRank)
      invariant forall i :: 0 <= i < j && (selfSend || group.GlobalRank(i) != group.mpiRank) ==>
                  group.GlobalRank(i) in mail && mail[group.GlobalRank(i)] == Slice(data, offsets, i)
    {
      NextMember(group, n, j);
      AmongNext(group, j);
      var target := group.GlobalRank(j);
      if selfSend || target != group.mpiRank {
        mail := mail[target := Slice(data, offsets, j)];
      }
    }
  }

  /** One receive of a whole transfer: `data` lands at `start`. */
  method Place<T>(buf: array<T>, start: nat, data: seq<T>)
    requires start + |data| <= buf.Length
    modifies buf
    ensures buf[..] == Placed(old(buf[..]), start, data)
  {
    forall k | 0 <= k < |data| {
      buf[start + k] := data[k];
    }
  }

  /** `parts` is what a rank has to assemble: its own slice if it copies that itself, and otherwise
      what member `i` of its group sent. */
  ghost predicate Expected<T>(parts: seq<seq<T>>, own: seq<T>, mail: map<nat, seq<T>>,
      group: CommunicationGroup, explicitCopy: bool)
    requires group.gridSize > 0 && group.stride > 0
  {
    && |parts| == group.Size()
    && forall i :: 0 <= i < group.Size() ==>
         if explicitCopy && group.GlobalRank(i) == group.mpiRank then parts[i] == own
         else group.GlobalRank(i) in mail && mail[group.GlobalRank(i)] == parts[i]
  }

  /** The test by rank in the send and receive loops is the test by local index. */
  lemma OwnIndex(group: CommunicationGroup, n: nat, i: nat)
    requires group.WellFormed(n) && i < group.Size()
    ensures 0 <= group.LocalIdx() < group.Size()
    ensures group.GlobalRank(i) == group.mpiRank <==> i == group.LocalIdx()
  {
    GroupsAgree(group, n, i);
  }

  /** `AllToAllCommunicator` for one fixed-width column, or for whole rows of such columns. */
  class AllToAllCommunicator<T(0)> {
    const inputTable: seq<T>
    const group: CommunicationGroup
    const explicitCopy: bool
    const sendOffsets: seq<nat>
    ghost const mpiSize: nat
    ghost const recvCounts: seq<nat>
    const recvOffsets: seq<nat>

    ghost predicate Valid() {
      && group.WellFormed(mpiSize)
      && Offsets(sendOffsets, |inputTable|, group.Size())
      && |recvCounts| == group.Size()
      && Scanned(recvOffsets, recvCounts)
    }

    /** The slice of this rank for itself. */
    ghost function Own(): seq<T>
      requires group.WellFormed(mpiSize) && Offsets(sendOffsets, |inputTable|, group.Size())
    {
      OwnIndex(group, mpiSize, 0);
      Slice(inputTable, sendOffsets, group.LocalIdx())
    }

    constructor (inputTable: seq<T>, offsets: seq<nat>, group: CommunicationGroup, ghost n: nat,
        explicitCopy: bool, recvCounts: seq<nat>)
      requires group.WellFormed(n) && Offsets(offsets, |inputTable|, group.Size())
      requires |recvCounts| == group.Size()
      ensures Valid() && this.inputTable == inputTable && sendOffsets == offsets && this.group == group
      ensures mpiSize == n && this.explicitCopy == explicitCopy && this.recvCounts == recvCounts
    {
      var scanned := PartialSum(recvCounts);
      this.inputTable, sendOffsets, this.group := inputTable, offsets, group;
      this.mpiSize, this.explicitCopy, this.recvCounts := n, explicitCopy, recvCounts;
      recvOffsets := scanned;
    }

    ghost function OwnLocal(): (i: nat)
      requires group.WellFormed(mpiSize)
      ensures i < group.Size() && i == group.LocalIdx()
    {
      OwnIndex(group, mpiSize, 0);
      group.LocalIdx()
    }

    /** `allocate_communicated_table`, with `copy_table_to_current_rank` when asked for. */
    method AllocateCommunicatedTable() returns (buf: array<T>)
      requires Valid() && recvCounts[OwnLocal()] == |Own()|
      ensures fresh(buf) && buf.Length == recvOffsets[group.Size()]
      ensures explicitCopy ==> InPlace(buf[..], recvOffsets, OwnLocal(), Own())
    {
      ScannedGrow(recvOffsets, recvCounts);
      OwnIndex(group, mpiSize, 0);
      buf := new T[recvOffsets[group.Size()]];
      if explicitCopy {
        var me := group.LocalIdx();
        assert recvOffsets[me + 1] <= recvOffsets[group.Size()];
        PlacedKeeps(buf[..], recvOffsets, me, Own(), me, Own());
        Place(buf, recvOffsets[me], Slice(inputTable, sendOffsets, me));
      }
    }

    /** `recv_data_by_offset`: every transfer lands at its offset, and the slice already copied stays. */
    method RecvDataByOffset(buf: array<T>, mail: map<nat, seq<T>>, ghost parts: seq<seq<T>>)
      requires Valid() && buf.Length == recvOffsets[group.Size()]
      requires Expected(parts, Own(), mail, group, explicitCopy) && Lengths(parts, recvCounts)
      requires explicitCopy ==> InPlace(buf[..], recvOffsets, OwnLocal(), Own())
      modifies buf
      ensures buf[..] == Flatten(parts)
    {
      ghost var copied := if explicitCopy then OwnLocal() as int else -1;
      ExpectedOwn(parts, mail);
      for i := 0 to group.Size()
        invariant Arrived(buf[..], recvOffsets, parts, i, copied)
      {
        ExpectedAt(parts, mail, i);
        var source := group.GlobalRank(i);
        if !explicitCopy || source != group.mpiRank {
          ArrivedNext(buf[..], recvOffsets, recvCounts, parts, i, copied);
          Place(buf, recvOffsets[i], mail[source]);
        }
      }
      ScannedGrow(recvOffsets, recvCounts);
      Assembled(buf[..], recvOffsets, parts, |parts|);
      assert buf[..][..buf.Length] == buf[..];
      assert parts[..|parts|] == parts;
    }

    lemma ExpectedOwn(parts: seq<seq<T>>, mail: map<nat, seq<T>>)
      requires Valid() && Expected(parts, Own(), mail, group, explicitCopy)
      ensures explicitCopy ==> parts[OwnLocal()] == Own()
    {
      OwnIndex(group, mpiSize, OwnLocal());
    }

    lemma ExpectedAt(parts: seq<seq<T>>, mail: map<nat, seq<T>>, i: nat)
      requires Valid() && Expected(parts, Own(), mail, group, explicitCopy) && i < group.Size()
      ensures 0 <= group.GlobalRank(i)
      ensures group.GlobalRank(i) == group.mpiRank <==> i == OwnLocal()
      ensures !explicitCopy || i != OwnLocal() ==>
                group.GlobalRank(i) in mail && mail[group.GlobalRank(i)] == parts[i]
    {
      OwnIndex(group, mpiSize, i);
      GroupsAgree(group, mpiSize, i);
    }
  }

  /** The parts before `i` are in their places, and so is part `copied`. */
  ghost predicate Arrived<T>(buf: seq<T>, offsets: seq<nat>, parts: seq<seq<T>>, i: int, copied: int) {
    && 0 <= i <= |parts| && copied < |parts|
    && forall k :: 0 <= k < i || 0 <= k == copied ==> InPlace(buf, offsets, k, parts[k])
  }

  lemma ArrivedNext<T>(buf: seq<T>, offsets: seq<nat>, counts: seq<nat>, parts: seq<seq<T>>, i: nat, copied: int)
    requires Arrived(buf, offsets, parts, i, copied) && i < |parts|
    requires Scanned(offsets, counts) && Lengths(parts, counts) && offsets[|counts|] == |buf|
    ensures offsets[i] + |parts[i]| <= |buf|
    ensures Arrived(Placed(buf, offsets[i], parts[i]), offsets, parts, i + 1, copied)
  {
    ScannedGrow(offsets, counts);
    assert offsets[i + 1] <= offsets[|counts|];
    forall k | 0 <= k < i + 1 || 0 <= k == copied
      ensures InPlace(Placed(buf, offsets[i], parts[i]), offsets, k, parts[k])
    {
      PlacedKeeps(buf, offsets, i, parts[i], k, parts[k]);
    }
  }

  /** The channels into rank `b`: from every rank the one thing it sent there. */
  function Delivered<X>(sent: seq<map<nat, X>>, b: nat): map<nat, X> {
    map a: nat | a < |sent| && b in sent[a] :: sent[a][b]
  }

  /** What `SendCounts` and `SendDataByOffset` promise for every rank. */
  ghost predicate CountsSent<T>(counts: map<nat, nat>, tables: seq<seq<T>>, offs: seq<seq<nat>>,
      grid: nat, stride: nat, a: nat)
    requires Collective(tables, offs, grid, stride) && a < |tables|
  {
    var group := GroupOf(a, grid, stride);
    forall j :: 0 <= j < group.Size() ==>
      group.GlobalRank(j) in counts && offs[a][j] + counts[group.GlobalRank(j)] == offs[a][j + 1]
  }

  ghost predicate SlicesSent<T>(slices: map<nat, seq<T>>, tables: seq<seq<T>>, offs: seq<seq<nat>>,
      grid: nat, stride: nat, selfSend: bool, a: nat)
    requires Collective(tables, offs, grid, stride) && a < |tables|
  {
    var group := GroupOf(a, grid, stride);
    forall j :: 0 <= j < group.Size() && (selfSend || group.GlobalRank(j) != a) ==>
      group.GlobalRank(j) in slices && slices[group.GlobalRank(j)] == Slice(tables[a], offs[a], j)
  }

  /** The slices rank `b` is due, in group order. */
  ghost function Due<T>(tables: seq<seq<T>>, offs: seq<seq<nat>>, grid: nat, stride: nat, b: nat): (parts: seq<seq<T>>)
    requires Collective(tables, offs, grid, stride) && b < |tables|
    ensures Flatten(parts) == Received(tables, offs, grid, stride, b)
  {
    seq(grid / stride, i requires 0 <= i < grid / stride => Incoming(tables, offs, grid, stride, b, i))
  }

  /** The counts a rank receives are the lengths of the slices it is due. */
  lemma CountsArrive<T>(sizes: seq<map<nat, nat>>, tables: seq<seq<T>>, offs: seq<seq<nat>>,
      grid: nat, stride: nat, b: nat, i: nat)
    requires Collective(tables, offs, grid, stride) && b < |tables| == |sizes| && i < grid / stride
    requires forall a :: 0 <= a < |tables| ==> CountsSent(sizes[a], tables, offs, grid, stride, a)
    ensures GroupOf(b, grid, stride).GlobalRank(i) in Delivered(sizes, b)
    ensures Delivered(sizes, b)[GroupOf(b, grid, stride).GlobalRank(i)] == |Due(tables, offs, grid, stride, b)[i]|
  {
    var group := GroupOf(b, grid, stride);
    GroupsAgree(group, |tables|, i);
    GroupsAgree(GroupOf(group.GlobalRank(i), grid, stride), |tables|, group.LocalIdx());
    assert CountsSent(sizes[group.GlobalRank(i)], tables, offs, grid, stride, group.GlobalRank(i));
  }

  /** The transfers a rank receives are the slices it is due. */
  lemma SlicesArrive<T>(sent: seq<map<nat, seq<T>>>, tables: seq<seq<T>>, offs: seq<seq<nat>>,
      grid: nat, stride: nat, selfSend: bool, b: nat, i: nat)
    requires Collective(tables, offs, grid, stride) && b < |tables| == |sent| && i < grid / stride
    requires forall a :: 0 <= a < |tables| ==> SlicesSent(sent[a], tables, offs, grid, stride, selfSend, a)
    requires selfSend || GroupOf(b, grid, stride).GlobalRank(i) != b
    ensures GroupOf(b, grid, stride).GlobalRank(i) in Delivered(sent, b)
    ensures Delivered(sent, b)[GroupOf(b, grid, stride).GlobalRank(i)] == Due(tables, offs, grid, stride, b)[i]
  {
    var group := GroupOf(b, grid, stride);
    GroupsAgree(group, |tables|, i);
    GroupsAgree(GroupOf(group.GlobalRank(i), grid, stride), |tables|, group.LocalIdx());
    assert SlicesSent(sent[group.GlobalRank(i)], tables, offs, grid, stride, selfSend, group.GlobalRank(i));
  }

  /** Among the slices a rank is due is its own. */
  lemma DueOwn<T>(tables: seq<seq<T>>, offs: seq<seq<nat>>, grid: nat, stride: nat, b: nat)
    requires Collective(tables, offs, grid, stride) && b < |tables|
    ensures forall i :: 0 <= i < grid / stride && GroupOf(b, grid, stride).GlobalRank(i) == b ==>
              i == GroupOf(b, grid, stride).LocalIdx()
              && Due(tables, offs, grid, stride, b)[i] == Slice(tables[b], offs[b], i)
    ensures 0 <= GroupOf(b, grid, stride).LocalIdx() < grid / stride
    ensures GroupOf(b, grid, stride).GlobalRank(GroupOf(b, grid, stride).LocalIdx()) == b
  {
    var group := GroupOf(b, grid, stride);
    forall i | 0 <= i < grid / stride && group.GlobalRank(i) == b
      ensures i == group.LocalIdx()
    {
      OwnIndex(group, |tables|, i);
    }
    OwnIndex(group, |tables|, 0);
    GroupsAgree(group, |tables|, group.LocalIdx());
  }

  /** `communicate_sizes`, called by all ranks. */
  method CommunicateSizes<T>(ghost tables: seq<seq<T>>, offs: seq<seq<nat>>, grid: nat, stride: nat)
    returns (recvCounts: seq<seq<nat>>)
    requires Collective(tables, offs, grid, stride)
    ensures |recvCounts| == |tables|
    ensures forall b :: 0 <= b < |tables| ==> Lengths(Due(tables, offs, grid, stride, b), recvCounts[b])
  {
    var n := |offs|;
    var sizes: seq<map<nat, nat>> := [];
    for a := 0 to n
      invariant |sizes| == a
      invariant forall r :: 0 <= r < a ==> CountsSent(sizes[r], tables, offs, grid, stride, r)
    {
      var counts := SendCounts(offs[a], GroupOf(a, grid, stride), n);
      sizes := sizes + [counts];
    }
    recvCounts := [];
    for b := 0 to n
      invariant |recvCounts| == b
      invariant forall r :: 0 <= r < b ==> Lengths(Due(tables, offs, grid, stride, r), recvCounts[r])
    {
      var group := GroupOf(b, grid, stride);
      ghost var parts := Due(tables, offs, grid, stride, b);
      forall i | 0 <= i < group.Size()
        ensures group.GlobalRank(i) in Delivered(sizes, b)
        ensures Delivered(sizes, b)[group.GlobalRank(i)] == |parts[i]|
      {
        CountsArrive(sizes, tables, offs, grid, stride, b, i);
      }
      var counts := RecvCounts(Delivered(sizes, b), group, n);
      recvCounts := recvCounts + [counts];
    }
  }

  /** The sends of all ranks. */
  method SendAll<T>(tables: seq<seq<T>>, offs: seq<seq<nat>>, grid: nat, stride: nat, selfSend: bool)
    returns (sent: seq<map<nat, seq<T>>>)
    requires Collective(tables, offs, grid, stride)
    ensures |sent| == |tables|
    ensures forall a :: 0 <= a < |tables| ==> SlicesSent(sent[a], tables, offs, grid, stride, selfSend, a)
  {
    sent := [];
    for a := 0 to |tables|
      invariant |sent| == a
      invariant forall r :: 0 <= r < a ==> SlicesSent(sent[r], tables, offs, grid, stride, selfSend, r)
    {
      var slices := SendDataByOffset(tables[a], offs[a], GroupOf(a, grid, stride), |tables|, selfSend);
      sent := sent + [slices];
    }
  }

  /** Construct the communicator of rank `b` and allocate its table. */
  method Allocate<T(0)>(tables: seq<seq<T>>, offs: seq<seq<nat>>, grid: nat, stride: nat, explicitCopy: bool,
      b: nat, counts: seq<nat>) returns (comm: AllToAllCommunicator<T>, buf: array<T>)
    requires Collective(tables, offs, grid, stride) && b < |tables|
    requires Lengths(Due(tables, offs, grid, stride, b), counts)
    ensures comm.Valid() && comm.inputTable == tables[b] && comm.sendOffsets == offs[b]
    ensures comm.group == GroupOf(b, grid, stride) && comm.mpiSize == |tables|
    ensures comm.explicitCopy == explicitCopy && comm.recvCounts == counts
    ensures fresh(buf) && buf.Length == comm.recvOffsets[grid / stride]
    ensures explicitCopy ==> InPlace(buf[..], comm.recvOffsets, comm.OwnLocal(), comm.Own())
  {
    DueOwn(tables, offs, grid, stride, b);
    comm := new AllToAllCommunicator(tables[b], offs[b], GroupOf(b, grid, stride), |tables|, explicitCopy, counts);
    buf := comm.AllocateCommunicatedTable();
  }

  /** The whole exchange, run by all ranks. Copying the own slice and sending it to oneself give the
      same tables. */
  method AllToAllTables<T(0)>(tables: seq<seq<T>>, offs: seq<seq<nat>>, grid: nat, stride: nat, explicitCopy: bool)
    returns (out: seq<seq<T>>)
    requires Collective(tables, offs, grid, stride)
    ensures out == Exchange(tables, offs, grid, stride)
  {
    var recvCounts := CommunicateSizes(tables, offs, grid, stride);
    var sent := SendAll(tables, offs, grid, stride, !explicitCopy);
    out := [];
    for b := 0 to |tables|
      invariant |out| == b
      invariant forall r :: 0 <= r < b ==> out[r] == Received(tables, offs, grid, stride, r)
    {
      var table := Receive(tables, offs, grid, stride, explicitCopy, b, recvCounts[b], sent);
      out := out + [table];
    }
  }

  /** The part of rank `b` after all have sent. */
  method Receive<T(0)>(tables: seq<seq<T>>, offs: seq<seq<nat>>, grid: nat, stride: nat, explicitCopy: bool,
      b: nat, counts: seq<nat>, sent: seq<map<nat, seq<T>>>) returns (table: seq<T>)
    requires Collective(tables, offs, grid, stride) && b < |tables| == |sent|
    requires Lengths(Due(tables, offs, grid, stride, b), counts)
    requires forall a :: 0 <= a < |tables| ==> SlicesSent(sent[a], tables, offs, grid, stride, !explicitCopy, a)
    ensures table == Received(tables, offs, grid, stride, b)
  {
    var comm, buf := Allocate(tables, offs, grid, stride, explicitCopy, b, counts);
    SlicesExpected(sent, tables, offs, grid, stride, explicitCopy, b);
    comm.RecvDataByOffset(buf, Delivered(sent, b), Due(tables, offs, grid, stride, b));
    table := buf[..];
  }

  lemma SlicesExpected<T>(sent: seq<map<nat, seq<T>>>, tables: seq<seq<T>>, offs: seq<seq<nat>>,
      grid: nat, stride: nat, explicitCopy: bool, b: nat)
    requires Collective(tables, offs, grid, stride) && b < |tables| == |sent|
    requires forall a :: 0 <= a < |tables| ==> SlicesSent(sent[a], tables, offs, grid, stride, !explicitCopy, a)
    ensures 0 <= GroupOf(b, grid, stride).LocalIdx() < grid / stride
    ensures Expected(Due(tables, offs, grid, stride, b), Slice(tables[b], offs[b], GroupOf(b, grid, stride).LocalIdx()),
                     Delivered(sent, b), GroupOf(b, grid, stride), explicitCopy)
  {
    var group := GroupOf(b, grid, stride);
    DueOwn(tables, offs, grid, stride, b);
    forall i | 0 <= i < group.Size() && !(explicitCopy && group.GlobalRank(i) == b)
      ensures group.GlobalRank(i) in Delivered(sent, b)
      ensures Delivered(sent, b)[group.GlobalRank(i)] == Due(tables, offs, grid, stride, b)[i]
    {
      SlicesArrive(sent, tables, offs, grid, stride, !explicitCopy, b, i);
    }
  }
}
