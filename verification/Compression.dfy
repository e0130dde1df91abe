/** The compressed exchange: every slice is compressed by itself, the pieces are merged and exchanged
    by a second set of offsets, and decompressed into the place the direct path would have used. */
module Compression {
  import opened Tables
  import opened Groups
  import opened AllToAll
  import opened AllToAllComm
  import opened Partitioning

  type Byte = bv8

  /** A codec that loses nothing. */
  ghost predicate Lossless<T(!new)>(compress: seq<T> -> seq<Byte>, decompress: seq<Byte> -> seq<T>) {
    forall s :: s != [] ==> decompress(compress(s)) == s
  }

  /** The compressed form of one slice: nothing for an empty slice or a slice that is not sent. */
  function Packed<T>(data: seq<T>, skipped: bool, compress: seq<T> -> seq<Byte>): seq<Byte> {
    if skipped || |data| == 0 then [] else compress(data)
  }

  /** The slice for member `j` stays on this rank and is copied there without the communicator. */
  predicate Skipped(group: CommunicationGroup, explicitCopy: bool, j: int)
    requires group.gridSize > 0 && group.stride > 0
  {
    explicitCopy && group.GlobalRank(j) == group.mpiRank
  }

  ghost predicate Compressed<T>(pieces: seq<seq<Byte>>, data: seq<T>, offsets: seq<nat>, group: CommunicationGroup,
      explicitCopy: bool, compress: seq<T> -> seq<Byte>)
    requires group.gridSize > 0 && group.stride > 0 && Offsets(offsets, |data|, group.Size())
  {
    && |pieces| == group.Size()
    && forall j :: 0 <= j < group.Size() ==>
         pieces[j] == Packed(Slice(data, offsets, j), Skipped(group, explicitCopy, j), compress)
  }

  /** Start and count of slice `j`, with a count of 0 for a skipped one. */
  predicate ViewOf(start: nat, count: nat, offsets: seq<nat>, j: nat, skipped: bool)
    requires j + 1 < |offsets|
  {
    if skipped then count == 0 else start == offsets[j] && start + count == offsets[j + 1]
  }

  /** The send side of one rank: the views of its slices, and `compression_functor` over them. */
  method CompressPartitions<T>(data: seq<T>, offsets: seq<nat>, group: CommunicationGroup, explicitCopy: bool,
      compress: seq<T> -> seq<Byte>) returns (pieces: seq<seq<Byte>>, sizes: seq<nat>)
    requires group.gridSize > 0 && group.stride > 0 && Offsets(offsets, |data|, group.Size())
    ensures Compressed(pieces, data, offsets, group, explicitCopy, compress)
    ensures Lengths(pieces, sizes)
    ensures forall j :: 0 <= j < group.Size() ==>
              if (explicitCopy && group.GlobalRank(j) == group.mpiRank) || offsets[j] == offsets[j + 1]
              then pieces[j] == [] && sizes[j] == 0
              else offsets[j] < offsets[j + 1] <= |data| && pieces[j] == compress(data[offsets[j]..offsets[j + 1]])
  {
    var starts: seq<nat>, counts: seq<nat> := [], [];
    for j := 0 to group.Size()
      invariant |starts| == |counts| == j
      invariant forall i :: 0 <= i < j ==>
                  ViewOf(starts[i], counts[i], offsets, i, Skipped(group, explicitCopy, i))
    {
      if explicitCopy && group.GlobalRank(j) == group.mpiRank {
        starts, counts := starts + [0], counts + [0];
      } else {
        starts, counts := starts + [offsets[j]], counts + [offsets[j + 1] - offsets[j]];
      }
    }
    pieces, sizes := [], [];
    for j := 0 to group.Size()
      invariant |pieces| == j && Lengths(pieces, sizes)
      invariant forall i :: 0 <= i < j ==>
                  pieces[i] == Packed(Slice(data, offsets, i), Skipped(group, explicitCopy, i), compress)
    {
      assert ViewOf(starts[j], counts[j], offsets, j, Skipped(group, explicitCopy, j));
      assert offsets[j + 1] <= |data|;
      if counts[j] == 0 {
        pieces, sizes := pieces + [[]], sizes + [0];
      } else {
        var piece := compress(data[starts[j]..starts[j] + counts[j]]);
        pieces, sizes := pieces + [piece], sizes + [|piece|];
      }
    }
  }

  lemma PlaceNothing<T>(buf: seq<T>, start: nat)
    requires start <= |buf|
    ensures Placed(buf, start, []) == buf
  {
  }

  /** Copying the pieces into one send buffer, at the compressed offsets. A skipped piece has no
      bytes and is not copied. */
  method MergePieces(pieces: seq<seq<Byte>>, sizes: seq<nat>, group: CommunicationGroup, explicitCopy: bool)
    returns (merged: seq<Byte>, offsets: seq<nat>)
    requires group.gridSize > 0 && group.stride > 0 && |pieces| == group.Size() && Lengths(pieces, sizes)
    requires forall j :: 0 <= j < group.Size() && Skipped(group, explicitCopy, j) ==> pieces[j] == []
    ensures Scanned(offsets, sizes) && merged == Flatten(pieces)
  {
    offsets := PartialSum(sizes);
    var buf := new Byte[offsets[group.Size()]];
    for j := 0 to group.Size()
      invariant Arrived(buf[..], offsets, pieces, j, -1)
    {
      ArrivedNext(buf[..], offsets, sizes, pieces, j, -1);
      if explicitCopy && group.GlobalRank(j) == group.mpiRank {
        assert Skipped(group, explicitCopy, j);
        PlaceNothing(buf[..], offsets[j]);
      } else {
        Place(buf, offsets[j], pieces[j]);
      }
    }
    ScannedGrow(offsets, sizes);
    Assembled(buf[..], offsets, pieces, |pieces|);
    merged := buf[..];
    assert merged[..buf.Length] == merged && pieces[..|pieces|] == pieces;
  }

  /** A rank's merged buffer, cut by the compressed offsets, gives back its pieces. */
  ghost predicate PackedRank<T>(bytes: seq<Byte>, byteOffs: seq<nat>, data: seq<T>, offsets: seq<nat>,
      group: CommunicationGroup, explicitCopy: bool, compress: seq<T> -> seq<Byte>)
    requires group.gridSize > 0 && group.stride > 0 && Offsets(offsets, |data|, group.Size())
  {
    && Offsets(byteOffs, |bytes|, group.Size())
    && forall j :: 0 <= j < group.Size() ==>
         Slice(bytes, byteOffs, j) == Packed(Slice(data, offsets, j), Skipped(group, explicitCopy, j), compress)
  }

  lemma MergedIsPacked<T>(pieces: seq<seq<Byte>>, sizes: seq<nat>, byteOffs: seq<nat>, data: seq<T>, offsets: seq<nat>,
      group: CommunicationGroup, explicitCopy: bool, compress: seq<T> -> seq<Byte>)
    requires group.gridSize > 0 && group.stride > 0 && Offsets(offsets, |data|, group.Size())
    requires Compressed(pieces, data, offsets, group, explicitCopy, compress)
    requires Lengths(pieces, sizes) && Scanned(byteOffs, sizes)
    ensures PackedRank(Flatten(pieces), byteOffs, data, offsets, group, explicitCopy, compress)
  {
    forall i | 0 <= i <= |pieces| ensures byteOffs[i] == Starts(pieces, i) { ScanStarts(pieces, sizes, i); }
    StartsAreOffsets(pieces, byteOffs);
  }

  method CompressRank<T>(data: seq<T>, offsets: seq<nat>, group: CommunicationGroup, explicitCopy: bool,
      compress: seq<T> -> seq<Byte>) returns (bytes: seq<Byte>, byteOffs: seq<nat>)
    requires group.gridSize > 0 && group.stride > 0 && Offsets(offsets, |data|, group.Size())
    ensures PackedRank(bytes, byteOffs, data, offsets, group, explicitCopy, compress)
  {
    var pieces, sizes := CompressPartitions(data, offsets, group, explicitCopy, compress);
    bytes, byteOffs := MergePieces(pieces, sizes, group, explicitCopy);
    MergedIsPacked(pieces, sizes, byteOffs, data, offsets, group, explicitCopy, compress);
  }

  /** The send sides of all ranks. */
  method CompressAll<T>(tables: seq<seq<T>>, offs: seq<seq<nat>>, grid: nat, stride: nat, explicitCopy: bool,
      compress: seq<T> -> seq<Byte>) returns (bytes: seq<seq<Byte>>, byteOffs: seq<seq<nat>>)
    requires Collective(tables, offs, grid, stride)
    ensures |bytes| == |byteOffs| == |tables|
    ensures forall a :: 0 <= a < |tables| ==>
              PackedRank(bytes[a], byteOffs[a], tables[a], offs[a], GroupOf(a, grid, stride), explicitCopy, compress)
  {
    bytes, byteOffs := [], [];
    for a := 0 to |tables|
      invariant |bytes| == |byteOffs| == a
      invariant forall r :: 0 <= r < a ==>
                  PackedRank(bytes[r], byteOffs[r], tables[r], offs[r], GroupOf(r, grid, stride), explicitCopy, compress)
    {
      var merged, offsets := CompressRank(tables[a], offs[a], GroupOf(a, grid, stride), explicitCopy, compress);
      bytes, byteOffs := bytes + [merged], byteOffs + [offsets];
    }
  }

  ghost predicate AllPacked<T>(bytes: seq<seq<Byte>>, byteOffs: seq<seq<nat>>, tables: seq<seq<T>>, offs: seq<seq<nat>>,
      grid: nat, stride: nat, explicitCopy: bool, compress: seq<T> -> seq<Byte>)
    requires Collective(tables, offs, grid, stride)
  {
    && Collective(bytes, byteOffs, grid, stride) && |bytes| == |tables|
    && forall a :: 0 <= a < |tables| ==>
         PackedRank(bytes[a], byteOffs[a], tables[a], offs[a], GroupOf(a, grid, stride), explicitCopy, compress)
  }

  /** What arrives for slot `i` of rank `b` is the compressed form of the slice due there. */
  lemma PieceArrives<T>(bytes: seq<seq<Byte>>, byteOffs: seq<seq<nat>>, tables: seq<seq<T>>, offs: seq<seq<nat>>,
      grid: nat, stride: nat, explicitCopy: bool, compress: seq<T> -> seq<Byte>, b: nat, i: nat)
    requires Collective(tables, offs, grid, stride) && b < |tables| && i < grid / stride
    requires AllPacked(bytes, byteOffs, tables, offs, grid, stride, explicitCopy, compress)
    ensures Due(bytes, byteOffs, grid, stride, b)[i]
         == Packed(Due(tables, offs, grid, stride, b)[i], Skipped(GroupOf(b, grid, stride), explicitCopy, i), compress)
  {
    var group := GroupOf(b, grid, stride);
    GroupsAgree(group, |tables|, i);
    var a, j := group.GlobalRank(i), group.LocalIdx();
    GroupsAgree(GroupOf(a, grid, stride), |tables|, j);
    assert PackedRank(bytes[a], byteOffs[a], tables[a], offs[a], GroupOf(a, grid, stride), explicitCopy, compress);
  }

  /** `decompression_functor` and the views `postprocess_all_to_all_comm` prepares for it. */
  method DecompressPartitions<T>(buf: array<T>, recvOffsets: seq<nat>, ghost counts: seq<nat>,
      data: seq<Byte>, offsets: seq<nat>, group: CommunicationGroup, explicitCopy: bool,
      decompress: seq<Byte> -> seq<T>, ghost compress: seq<T> -> seq<Byte>, ghost parts: seq<seq<T>>, ghost own: int)
    requires group.gridSize > 0 && group.stride > 0 && |parts| == group.Size()
    requires Scanned(recvOffsets, counts) && Lengths(parts, counts) && buf.Length == recvOffsets[|counts|]
    requires forall i :: 0 <= i < |parts| ==> (Skipped(group, explicitCopy, i) <==> i == own)
    requires forall i :: 0 <= i < |parts| ==> InPlace(data, offsets, i, Packed(parts[i], i == own, compress))
    requires forall i :: 0 <= i < |parts| && parts[i] != [] ==> decompress(compress(parts[i])) == parts[i]
    requires Arrived(buf[..], recvOffsets, parts, 0, own)
    modifies buf
    ensures buf[..] == Flatten(parts)
  {
    for i := 0 to group.Size()
      invariant Arrived(buf[..], recvOffsets, parts, i, own)
    {
      assert InPlace(data, offsets, i, Packed(parts[i], i == own, compress));
      if !Skipped(group, explicitCopy, i) {
        Decompress(buf, recvOffsets, counts, data[offsets[i]..offsets[i + 1]], decompress, compress, parts, i, own);
      }
    }
    ScannedGrow(recvOffsets, counts);
    Assembled(buf[..], recvOffsets, parts, |parts|);
    assert buf[..][..buf.Length] == buf[..];
    assert parts[..|parts|] == parts;
  }

  /** One partition: nothing to do if no elements are expected. */
  method Decompress<T>(buf: array<T>, recvOffsets: seq<nat>, ghost counts: seq<nat>, piece: seq<Byte>,
      decompress: seq<Byte> -> seq<T>, ghost compress: seq<T> -> seq<Byte>, ghost parts: seq<seq<T>>, i: nat, ghost own: int)
    requires i < |parts| && Scanned(recvOffsets, counts) && Lengths(parts, counts) && buf.Length == recvOffsets[|counts|]
    requires piece == Packed(parts[i], false, compress)
    requires parts[i] != [] ==> decompress(compress(parts[i])) == parts[i]
    requires Arrived(buf[..], recvOffsets, parts, i, own)
    modifies buf
    ensures Arrived(buf[..], recvOffsets, parts, i + 1, own)
  {
    ArrivedNext(buf[..], recvOffsets, counts, parts, i, own);
    var expected := recvOffsets[i + 1] - recvOffsets[i];
    if expected != 0 {
      Place(buf, recvOffsets[i], decompress(piece));
    } else {
      assert Placed(buf[..], recvOffsets[i], parts[i]) == buf[..];
    }
  }

  /** What travels from rank `a` to member `j` of its group is the compressed slice, and no bytes at all if the
      slice is empty or stays on the rank. */
  ghost predicate Travels<T>(bytes: seq<Byte>, byteOffs: seq<nat>, data: seq<T>, offsets: seq<nat>,
      group: CommunicationGroup, explicitCopy: bool, compress: seq<T> -> seq<Byte>)
    requires group.gridSize > 0 && group.stride > 0
  {
    && Offsets(offsets, |data|, group.Size()) && Offsets(byteOffs, |bytes|, group.Size())
    && forall j :: 0 <= j < group.Size() ==>
         Slice(bytes, byteOffs, j) ==
           if (explicitCopy && group.GlobalRank(j) == group.mpiRank) || offsets[j] == offsets[j + 1] then []
           else compress(data[offsets[j]..offsets[j + 1]])
  }

  lemma PackedTravels<T>(bytes: seq<Byte>, byteOffs: seq<nat>, data: seq<T>, offsets: seq<nat>,
      group: CommunicationGroup, explicitCopy: bool, compress: seq<T> -> seq<Byte>)
    requires group.gridSize > 0 && group.stride > 0 && Offsets(offsets, |data|, group.Size())
    requires PackedRank(bytes, byteOffs, data, offsets, group, explicitCopy, compress)
    ensures Travels(bytes, byteOffs, data, offsets, group, explicitCopy, compress)
  {
  }

  /** Compressing changes what travels, which is `bytes` cut by `byteOffs`, and nothing else: every rank ends
      up with the table of the direct exchange, whatever slices are empty and whether or not the own slice
      is skipped. */
  method ExchangeCompressed<T(0, !new)>(tables: seq<seq<T>>, offs: seq<seq<nat>>, grid: nat, stride: nat, explicitCopy: bool,
      compress: seq<T> -> seq<Byte>, decompress: seq<Byte> -> seq<T>)
    returns (out: seq<seq<T>>, bytes: seq<seq<Byte>>, byteOffs: seq<seq<nat>>)
    requires Collective(tables, offs, grid, stride) && Lossless(compress, decompress)
    ensures out == Exchange(tables, offs, grid, stride)
    ensures |bytes| == |byteOffs| == |tables|
    ensures forall a :: 0 <= a < |tables| ==>
              Travels(bytes[a], byteOffs[a], tables[a], offs[a], GroupOf(a, grid, stride), explicitCopy, compress)
  {
    var recvCounts := CommunicateSizes(tables, offs, grid, stride);
    bytes, byteOffs := CompressAll(tables, offs, grid, stride, explicitCopy, compress);
    assert AllPacked(bytes, byteOffs, tables, offs, grid, stride, explicitCopy, compress) by {
      forall a | 0 <= a < |tables| ensures Offsets(byteOffs[a], |bytes[a]|, grid / stride) {
        assert PackedRank(bytes[a], byteOffs[a], tables[a], offs[a], GroupOf(a, grid, stride), explicitCopy, compress);
      }
    }
    forall a | 0 <= a < |tables|
      ensures Travels(bytes[a], byteOffs[a], tables[a], offs[a], GroupOf(a, grid, stride), explicitCopy, compress)
    {
      PackedTravels(bytes[a], byteOffs[a], tables[a], offs[a], GroupOf(a, grid, stride), explicitCopy, compress);
    }
    var byteCounts := CommunicateSizes(bytes, byteOffs, grid, stride);
    var arrived := AllToAllTables(bytes, byteOffs, grid, stride, explicitCopy);
    out := [];
    for b := 0 to |tables|
      invariant |out| == b
      invariant forall r :: 0 <= r < b ==> out[r] == Received(tables, offs, grid, stride, r)
    {
      var table := DecompressRank(bytes, byteOffs, tables, offs, grid, stride, explicitCopy, compress, decompress, b,
                                  recvCounts[b], byteCounts[b], arrived[b]);
      out := out + [table];
    }
  }

  /** The receive side of rank `b`. */
  method DecompressRank<T(0, !new)>(ghost bytes: seq<seq<Byte>>, ghost byteOffs: seq<seq<nat>>,
      tables: seq<seq<T>>, offs: seq<seq<nat>>, grid: nat, stride: nat, explicitCopy: bool,
      ghost compress: seq<T> -> seq<Byte>, decompress: seq<Byte> -> seq<T>, b: nat,
      counts: seq<nat>, byteCounts: seq<nat>, arrived: seq<Byte>) returns (table: seq<T>)
    requires Collective(tables, offs, grid, stride) && Lossless(compress, decompress) && b < |tables|
    requires AllPacked(bytes, byteOffs, tables, offs, grid, stride, explicitCopy, compress)
    requires Lengths(Due(tables, offs, grid, stride, b), counts)
    requires Lengths(Due(bytes, byteOffs, grid, stride, b), byteCounts)
    requires arrived == Received(bytes, byteOffs, grid, stride, b)
    ensures table == Received(tables, offs, grid, stride, b)
  {
    ghost var parts := Due(tables, offs, grid, stride, b);
    ghost var pieces := Due(bytes, byteOffs, grid, stride, b);
    var group := GroupOf(b, grid, stride);
    var comm, buf := Allocate(tables, offs, grid, stride, explicitCopy, b, counts);
    var offsets := PartialSum(byteCounts);
    PiecesInPlace(pieces, byteCounts, offsets);
    ghost var own := if explicitCopy then comm.OwnLocal() as int else -1;
    OwnSlice(tables, offs, grid, stride, explicitCopy, b);
    forall i | 0 <= i < |parts| ensures pieces[i] == Packed(parts[i], i == own, compress) {
      PieceArrives(bytes, byteOffs, tables, offs, grid, stride, explicitCopy, compress, b, i);
    }
    DecompressPartitions(buf, comm.recvOffsets, counts, arrived, offsets, group, explicitCopy,
                         decompress, compress, parts, own);
    table := buf[..];
  }

  lemma PiecesInPlace<T>(pieces: seq<seq<T>>, counts: seq<nat>, offsets: seq<nat>)
    requires Lengths(pieces, counts) && Scanned(offsets, counts)
    ensures forall i :: 0 <= i < |pieces| ==> InPlace(Flatten(pieces), offsets, i, pieces[i])
  {
    forall i | 0 <= i <= |pieces| ensures offsets[i] == Starts(pieces, i) { ScanStarts(pieces, counts, i); }
    StartsAreOffsets(pieces, offsets);
    forall i | 0 <= i < |pieces| ensures InPlace(Flatten(pieces), offsets, i, pieces[i]) {
      assert Slice(Flatten(pieces), offsets, i) == pieces[i];
    }
  }

  /** The skipped slice is the own one. */
  lemma OwnSlice<T>(tables: seq<seq<T>>, offs: seq<seq<nat>>, grid: nat, stride: nat, explicitCopy: bool, b: nat)
    requires Collective(tables, offs, grid, stride) && b < |tables|
    ensures forall i :: 0 <= i < grid / stride ==>
              (Skipped(GroupOf(b, grid, stride), explicitCopy, i)
               <==> explicitCopy && i == GroupOf(b, grid, stride).LocalIdx())
    ensures 0 <= GroupOf(b, grid, stride).LocalIdx() < grid / stride
    ensures Due(tables, offs, grid, stride, b)[GroupOf(b, grid, stride).LocalIdx()]
         == Slice(tables[b], offs[b], GroupOf(b, grid, stride).LocalIdx())
  {
    DueOwn(tables, offs, grid, stride, b);
  }
}
