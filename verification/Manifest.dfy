/** The assembly part of `parse_body`: chunk offsets in bundles, the shared chunk list, files and their paths. */
module Manifest {
  import opened Common
  import opened Ordering
  import opened Lists
  import opened MergeSort
  import opened RangePlan
  import opened Repair

  datatype ChunkEntry = ChunkEntry(chunkId: uint64, compressedSize: uint32, uncompressedSize: uint32)
  datatype BundleEntry = BundleEntry(bundleId: uint64, chunks: seq<ChunkEntry>)

  function ChunkIdOf(c: Chunk): int { c.chunkId }

  /** The chunks of a bundle lie one behind the other; the sum is a 32-bit one. */
  ghost predicate LaidOut(chunks: seq<Chunk>, entry: BundleEntry) {
    && |chunks| == |entry.chunks|
    && (forall i :: 0 <= i < |chunks| ==>
          && chunks[i].chunkId == entry.chunks[i].chunkId && chunks[i].bundleId == entry.bundleId
          && chunks[i].compressedSize == entry.chunks[i].compressedSize
          && chunks[i].uncompressedSize == entry.chunks[i].uncompressedSize)
    && (chunks != [] ==> chunks[0].bundleOffset == 0)
    && (forall i :: 0 < i < |chunks| ==>
          chunks[i].bundleOffset == Add32(chunks[i - 1].bundleOffset, chunks[i - 1].compressedSize))
  }

  method LayOut(entry: BundleEntry) returns (chunks: List<Chunk>)
    ensures fresh(chunks) && fresh(chunks.objects) && chunks.Valid() && LaidOut(chunks.Contents(), entry)
  {
    chunks := new List<Chunk>(|entry.chunks|);
    for i := 0 to |entry.chunks|
      invariant fresh(chunks) && fresh(chunks.objects) && chunks.Valid() && chunks.length == i
      invariant chunks.allocatedLength == |entry.chunks|
      invariant LaidOut(chunks.Contents(), BundleEntry(entry.bundleId, entry.chunks[..i]))
    {
      var e := entry.chunks[i];
      var offset := if i == 0 then 0 else Add32(chunks.objects[i - 1].bundleOffset,
          chunks.objects[i - 1].compressedSize);
      chunks.Add(Chunk(e.compressedSize, e.uncompressedSize, e.chunkId, entry.bundleId, offset, 0, UnknownHash(0)));
    }
    assert entry.chunks[..|entry.chunks|] == entry.chunks;
  }

  function Total(chunks: seq<ChunkEntry>): nat {
    if chunks == [] then 0 else Total(chunks[..|chunks| - 1]) + chunks[|chunks| - 1].compressedSize
  }

  /** In a bundle of less than 4 GiB no offset wraps, so different chunks never overlap. */
  lemma LaidOutAscends(chunks: seq<Chunk>, entry: BundleEntry, i: nat, j: nat)
    requires LaidOut(chunks, entry) && Total(entry.chunks) < TWO_TO_THE_32 && i < j < |chunks|
    ensures End(chunks[i]) <= chunks[j].bundleOffset && End(chunks[j]) <= Total(entry.chunks)
  {
    EndIsTotal(chunks, entry, i);
    EndIsTotal(chunks, entry, j);
    OffsetIsTotal(chunks, entry, j);
    hide LaidOut, Total;
    TotalGrows(entry.chunks, i + 1, j);
    TotalGrows(entry.chunks, j + 1, j + 1);
  }

  lemma EndIsTotal(chunks: seq<Chunk>, entry: BundleEntry, j: nat)
    requires LaidOut(chunks, entry) && Total(entry.chunks) < TWO_TO_THE_32 && j < |chunks|
    ensures j < |entry.chunks| && End(chunks[j]) == Total(entry.chunks[..j + 1])
  {
    OffsetIsTotal(chunks, entry, j);
    TotalSnoc(entry.chunks, j);
  }

  lemma OffsetIsTotal(chunks: seq<Chunk>, entry: BundleEntry, j: nat)
    requires LaidOut(chunks, entry) && Total(entry.chunks) < TWO_TO_THE_32 && j < |chunks|
    ensures chunks[j].bundleOffset == Total(entry.chunks[..j])
  {
    OffsetWraps(chunks, entry, j);
    TotalGrows(entry.chunks, j, j);
  }

  /** In a bundle of any size the offset is the sum of the compressed sizes before, modulo 2^32. */
  lemma {:induction false} OffsetWraps(chunks: seq<Chunk>, entry: BundleEntry, j: nat)
    requires LaidOut(chunks, entry) && j < |chunks|
    ensures chunks[j].bundleOffset == Total(entry.chunks[..j]) % 0x1_0000_0000
  {
    if j > 0 {
      OffsetWraps(chunks, entry, j - 1);
      TotalSnoc(entry.chunks, j - 1);
      assert chunks[j].bundleOffset == Add32(chunks[j - 1].bundleOffset, chunks[j - 1].compressedSize);
      hide Total, Add32;
      SumWraps(Total(entry.chunks[..j - 1]), chunks[j - 1].compressedSize);
    }
  }

  lemma SumWraps(n: nat, size: uint32)
    ensures Add32(n % 0x1_0000_0000, size) == (n + size) % 0x1_0000_0000
  {
  }

  lemma TotalSnoc(chunks: seq<ChunkEntry>, j: nat)
    requires j < |chunks|
    ensures Total(chunks[..j + 1]) == Total(chunks[..j]) + chunks[j].compressedSize
  {
    assert chunks[..j + 1][..j] == chunks[..j];
  }

  lemma {:induction false} TotalGrows(chunks: seq<ChunkEntry>, i: nat, j: nat)
    requires i <= j <= |chunks|
    ensures Total(chunks[..i]) <= Total(chunks[..j]) <= Total(chunks)
    decreases |chunks| - i
  {
    assert chunks[..|chunks|] == chunks;
    if i < |chunks| {
      assert chunks[..i + 1][..i] == chunks[..i];
      if i < j {
        TotalGrows(chunks, i + 1, j);
      } else {
        TotalGrows(chunks, i + 1, i + 1);
      }
    }
  }

  function Flatten(parts: seq<seq<Chunk>>): seq<Chunk> {
    if parts == [] then [] else Flatten(parts[..|parts| - 1]) + parts[|parts| - 1]
  }

  /** The bundles of the manifest, and how many chunks they have. */
  method LayOutAll(entries: seq<BundleEntry>) returns (bundles: seq<seq<Chunk>>, totalChunks: nat)
    ensures |bundles| == |entries| && forall i :: 0 <= i < |entries| ==> LaidOut(bundles[i], entries[i])
    ensures totalChunks == CountEntries(entries) == |Flatten(bundles)|
  {
    hide LaidOut, Flatten;
    totalChunks, bundles := 0, [];
    assert |Flatten(bundles)| == 0 by { FlattenNothing(); }
    for i := 0 to |entries|
      invariant |bundles| == i && totalChunks == CountEntries(entries[..i]) == |Flatten(bundles)|
      invariant forall k :: 0 <= k < i ==> LaidOut(bundles[k], entries[k])
    {
      var bundle := LayOut(entries[i]);
      LaidOutLength(bundle.Contents(), entries[i]);
      var contents := bundle.objects[..bundle.length];
      FlattenSnoc(bundles, contents);
      assert entries[..i + 1][..i] == entries[..i];
      bundles := bundles + [contents];
      totalChunks := totalChunks + |entries[i].chunks|;
    }
    assert entries[..|entries|] == entries;
  }

  lemma FlattenNothing()
    ensures Flatten([]) == []
  {
  }

  /** All chunks of the manifest in one list, sorted by id. Chunks with the same id keep their order. */
  method CollectChunks(entries: seq<BundleEntry>) returns (chunks: List<Chunk>, ghost parts: seq<seq<Chunk>>)
    requires CountEntries(entries) <= 0x4000_0000
    ensures fresh(chunks) && fresh(chunks.objects) && chunks.Valid()
    ensures |parts| == |entries| && forall i :: 0 <= i < |entries| ==> LaidOut(parts[i], entries[i])
    ensures StableSort(Flatten(parts), chunks.Contents(), ChunkIdOf)
  {
    hide StableSort, LaidOut;
    var bundles, totalChunks := LayOutAll(entries);
    parts := bundles;
    chunks := new List<Chunk>(totalChunks);
    for i := 0 to |bundles|
      invariant fresh(chunks) && fresh(chunks.objects) && chunks.Valid()
      invariant chunks.Contents() == Flatten(bundles[..i])
    {
      assert bundles[..i + 1] == bundles[..i] + [bundles[i]];
      FlattenSnoc(bundles[..i], bundles[i]);
      chunks.AddAll(bundles[i]);
    }
    assert bundles[..|bundles|] == bundles;
    SortList(chunks, ChunkIdOf);
  }

  function CountEntries(entries: seq<BundleEntry>): nat {
    if entries == [] then 0 else CountEntries(entries[..|entries| - 1]) + |entries[|entries| - 1].chunks|
  }

  lemma FlattenSnoc(parts: seq<seq<Chunk>>, part: seq<Chunk>)
    ensures Flatten(parts + [part]) == Flatten(parts) + part
  {
    assert (parts + [part])[..|parts|] == parts;
  }

  lemma LaidOutLength(chunks: seq<Chunk>, entry: BundleEntry)
    requires LaidOut(chunks, entry)
    ensures |chunks| == |entry.chunks|
  {
  }

  // Files.

  /** The two fields that the assembly of a file overwrites in the shared entry. */
  function Placed(c: Chunk, offset: uint64, hashType: HashType): Chunk {
    c.(fileOffset := offset, hashType := hashType)
  }

  /** Two states of the same shared entry. */
  predicate SameEntry(c: Chunk, d: Chunk) {
    c == Placed(d, c.fileOffset, c.hashType)
  }

  ghost predicate SameEntries(s: seq<Chunk>, r: seq<Chunk>) {
    |s| == |r| && forall i :: 0 <= i < |s| ==> SameEntry(s[i], r[i])
  }

  /** Overwriting never disturbs the order that the lookups rely on. */
  lemma SameEntriesStaySorted(s: seq<Chunk>, r: seq<Chunk>)
    requires SameEntries(s, r) && Sorted(r, ChunkIdOf)
    ensures Sorted(s, ChunkIdOf)
  {
    forall i, j | 0 <= i < j < |s| ensures ChunkIdOf(s[i]) <= ChunkIdOf(s[j]) {
      assert SameEntry(s[i], r[i]) && SameEntry(s[j], r[j]);
      assert ChunkIdOf(r[i]) <= ChunkIdOf(r[j]);
    }
  }

  lemma SameKeys(s: seq<Chunk>, r: seq<Chunk>, value: int)
    requires SameEntries(s, r)
    ensures HasKey(s, ChunkIdOf, value) <==> HasKey(r, ChunkIdOf, value)
  {
    if HasKey(s, ChunkIdOf, value) {
      var i :| 0 <= i < |s| && ChunkIdOf(s[i]) == value;
      assert SameEntry(s[i], r[i]) && ChunkIdOf(r[i]) == value;
    }
    if HasKey(r, ChunkIdOf, value) {
      var i :| 0 <= i < |r| && ChunkIdOf(r[i]) == value;
      assert SameEntry(s[i], r[i]) && ChunkIdOf(s[i]) == value;
    }
  }

  /** The file's chunks are copies of shared entries, one for each id. */
  ghost predicate CopiesOf(file: seq<Chunk>, shared: seq<Chunk>, ids: seq<uint64>, hashType: HashType) {
    && |file| == |ids|
    && forall j :: 0 <= j < |ids| ==> CopyOf(file[j], shared, ids[j], hashType)
  }

  ghost predicate CopyOf(c: Chunk, shared: seq<Chunk>, id: uint64, hashType: HashType) {
    && c.chunkId == id && c.hashType == hashType
    && exists i :: 0 <= i < |shared| && SameEntry(c, shared[i])
  }

  /** The size of the file that the chunks make up so far. */
  function SizeOf(chunks: seq<Chunk>): nat {
    if chunks == [] then 0 else FileEnd(chunks[|chunks| - 1])
  }

  /** Look a chunk up, stage the file's offset and hash type in the shared entry, and copy the entry. */
  method PlaceChunk(shared: List<Chunk>, id: uint64, offset: uint64, hashType: HashType, ghost before: seq<Chunk>)
    returns (chunk: Option<Chunk>)
    requires shared.Valid() && SameEntries(shared.Contents(), before) && Sorted(before, ChunkIdOf)
    modifies shared.objects
    ensures shared.Valid() && SameEntries(shared.Contents(), before)
    ensures chunk.Some? <==> HasKey(before, ChunkIdOf, id)
    ensures chunk.Some? ==> chunk.value.fileOffset == offset && CopyOf(chunk.value, before, id, hashType)
  {
    SameEntriesStaySorted(shared.Contents(), before);
    SameKeys(shared.Contents(), before, id);
    hide Sorted, HasKey;
    var found := shared.FindSorted(ChunkIdOf, id);
    if found == None {
      return None;
    }
    var at := found.value;
    assert SameEntry(shared.Contents()[at], before[at]);
    shared.objects[at] := Placed(shared.objects[at], offset, hashType);
    assert SameEntry(shared.objects[at], before[at]);
    chunk := Some(shared.objects[at]);
  }

  lemma TilesSnoc(s: seq<Chunk>, c: Chunk)
    requires Tiles(s, SizeOf(s)) && c.fileOffset == SizeOf(s) && FileEnd(c) < TWO_TO_THE_64
    ensures Tiles(s + [c], SizeOf(s + [c])) && SizeOf(s + [c]) == FileEnd(c)
  {
  }

  lemma CopiesSnoc(s: seq<Chunk>, c: Chunk, shared: seq<Chunk>, ids: seq<uint64>, j: nat, hashType: HashType)
    requires j < |ids| && CopiesOf(s, shared, ids[..j], hashType) && CopyOf(c, shared, ids[j], hashType)
    ensures CopiesOf(s + [c], shared, ids[..j + 1], hashType)
  {
    hide CopyOf;
  }

  /** The chunk loop of one file. None stands for the null dereference on an id that the manifest does not have. */
  method AssembleFile(shared: List<Chunk>, ids: seq<uint64>, hashType: HashType, ghost before: seq<Chunk>)
    returns (file: Option<seq<Chunk>>)
    requires shared.Valid() && SameEntries(shared.Contents(), before) && Sorted(before, ChunkIdOf)
    requires |ids| < TWO_TO_THE_32
    modifies shared.objects
    ensures shared.Valid() && SameEntries(shared.Contents(), before)
    ensures file.Some? <==> forall j :: 0 <= j < |ids| ==> HasKey(before, ChunkIdOf, ids[j])
    ensures file.Some? ==> Tiles(file.value, SizeOf(file.value)) && CopiesOf(file.value, before, ids, hashType)
  {
    hide Sorted, HasKey, CopyOf, CopiesOf, Tiles, SameEntries;
    var chunks := new List<Chunk>(|ids|);
    var fileOffset: uint64 := 0;
    NoChunks(before, ids, hashType);
    for j := 0 to |ids|
      invariant shared.Valid() && SameEntries(shared.Contents(), before)
      invariant fresh(chunks) && fresh(chunks.objects) && chunks.Valid() && chunks.length == j &&
               chunks.allocatedLength == |ids|
      invariant fileOffset == SizeOf(chunks.Contents()) <= j * (TWO_TO_THE_32 - 1)
      invariant Tiles(chunks.Contents(), fileOffset) && CopiesOf(chunks.Contents(), before, ids[..j], hashType)
      invariant forall k :: 0 <= k < j ==> HasKey(before, ChunkIdOf, ids[k])
    {
      var chunk := PlaceChunk(shared, ids[j], fileOffset, hashType, before);
      if chunk == None {
        return None;
      }
      TilesSnoc(chunks.Contents(), chunk.value);
      CopiesSnoc(chunks.Contents(), chunk.value, before, ids, j, hashType);
      chunks.Add(chunk.value);
      fileOffset := Add64(fileOffset, chunk.value.uncompressedSize);
    }
    assert ids[..|ids|] == ids;
    file := Some(chunks.objects[..chunks.length]);
  }

  lemma NoChunks(shared: seq<Chunk>, ids: seq<uint64>, hashType: HashType)
    ensures Tiles([], 0) && CopiesOf([], shared, ids[..0], hashType)
  {
  }

  datatype FileEntry = FileEntry(chunkIds: seq<uint64>, hashType: HashType)

  /** The outer loop over the files. All of them stage their offsets in the same shared entries, and still every
      file comes out tiled from its first byte, whatever chunks it shares with itself or with other files. */
  method AssembleFiles(shared: List<Chunk>, entries: seq<FileEntry>) returns (files: Option<seq<seq<Chunk>>>)
    requires shared.Valid() && Sorted(shared.Contents(), ChunkIdOf)
    requires forall f :: 0 <= f < |entries| ==> |entries[f].chunkIds| < TWO_TO_THE_32
    modifies shared.objects
    ensures shared.Valid() && SameEntries(shared.Contents(), old(shared.Contents())) &&
            Sorted(shared.Contents(), ChunkIdOf)
    ensures files.Some? <==> forall f, j :: 0 <= f < |entries| && 0 <= j < |entries[f].chunkIds| ==>
                               HasKey(old(shared.Contents()), ChunkIdOf, entries[f].chunkIds[j])
    ensures files.Some? ==> |files.value| == |entries| && forall f :: 0 <= f < |entries| ==>
              && Tiles(files.value[f], SizeOf(files.value[f]))
              && CopiesOf(files.value[f], old(shared.Contents()), entries[f].chunkIds, entries[f].hashType)
  {
    hide Sorted, HasKey, CopiesOf, Tiles;
    ghost var before := shared.Contents();
    var result: seq<seq<Chunk>> := [];
    for f := 0 to |entries|
      invariant shared.Valid() && SameEntries(shared.Contents(), before) && |result| == f
      invariant forall g :: 0 <= g < f ==>
                  && Tiles(result[g], SizeOf(result[g]))
                  && CopiesOf(result[g], before, entries[g].chunkIds, entries[g].hashType)
      invariant forall g, j :: 0 <= g < f && 0 <= j < |entries[g].chunkIds| ==>
                HasKey(before, ChunkIdOf, entries[g].chunkIds[j])
    {
      var file := AssembleFile(shared, entries[f].chunkIds, entries[f].hashType, before);
      SameEntriesStaySorted(shared.Contents(), before);
      if file == None {
        return None;
      }
      result := result + [file.value];
    }
    SameEntriesStaySorted(shared.Contents(), before);
    files := Some(result);
  }

  // What the assembly says about the manifest itself.

  lemma {:induction false} FlattenMember(parts: seq<seq<Chunk>>, c: Chunk) returns (b: nat, k: nat)
    requires c in Flatten(parts)
    ensures b < |parts| && k < |parts[b]| && parts[b][k] == c
  {
    var l := |parts| - 1;
    if c in parts[l] {
      b := l;
      k :| 0 <= k < |parts[l]| && parts[l][k] == c;
    } else {
      b, k := FlattenMember(parts[..l], c);
    }
  }

  /** Every chunk of a file is an entry of the manifest: one with the id that the file names, in the bundle that the
      chunk names, with both its sizes, and at its place in that bundle. */
  lemma ChunkIsEntry(file: seq<Chunk>, shared: seq<Chunk>, parts: seq<seq<Chunk>>, entries: seq<BundleEntry>,
                     ids: seq<uint64>, hashType: HashType, j: nat) returns (e: nat, k: nat)
    requires |parts| == |entries| && forall i :: 0 <= i < |entries| ==> LaidOut(parts[i], entries[i])
    requires StableSort(Flatten(parts), shared, ChunkIdOf) && CopiesOf(file, shared, ids, hashType) && j < |ids|
    ensures |file| == |ids| && e < |entries| && k < |entries[e].chunks|
    ensures entries[e].chunks[k] == ChunkEntry(ids[j], file[j].compressedSize, file[j].uncompressedSize)
    ensures file[j].bundleId == entries[e].bundleId && file[j].hashType == hashType
    ensures file[j].bundleOffset == Total(entries[e].chunks[..k]) % 0x1_0000_0000
  {
    hide Total, StableSort;
    assert CopyOf(file[j], shared, ids[j], hashType);
    var i :| 0 <= i < |shared| && SameEntry(file[j], shared[i]);
    StableSortPermutes(Flatten(parts), shared, ChunkIdOf);
    assert shared[i] in multiset(shared);
    e, k := FlattenMember(parts, shared[i]);
    assert LaidOut(parts[e], entries[e]);
    OffsetWraps(parts[e], entries[e], k);
  }

  /** The sizes of these entries when unpacked. */
  function UnpackedTotal(chunks: seq<ChunkEntry>): nat {
    if chunks == [] then 0 else UnpackedTotal(chunks[..|chunks| - 1]) + chunks[|chunks| - 1].uncompressedSize
  }

  ghost predicate InManifest(entry: ChunkEntry, bundleId: uint64, entries: seq<BundleEntry>) {
    exists e :: 0 <= e < |entries| && entries[e].bundleId == bundleId && entry in entries[e].chunks
  }

  /** So a file is as the manifest says: it consists of the entries with its ids, one behind the other. */
  lemma FileFollowsManifest(file: seq<Chunk>, shared: seq<Chunk>, parts: seq<seq<Chunk>>, entries: seq<BundleEntry>,
                            ids: seq<uint64>, hashType: HashType) returns (picked: seq<ChunkEntry>)
    requires |parts| == |entries| && forall i :: 0 <= i < |entries| ==> LaidOut(parts[i], entries[i])
    requires StableSort(Flatten(parts), shared, ChunkIdOf) && CopiesOf(file, shared, ids, hashType)
    requires Tiles(file, SizeOf(file))
    ensures |file| == |picked| == |ids|
    ensures forall j :: 0 <= j < |ids| ==>
              && picked[j] == ChunkEntry(ids[j], file[j].compressedSize, file[j].uncompressedSize)
              && InManifest(picked[j], file[j].bundleId, entries)
    ensures forall j :: 0 <= j < |ids| ==> file[j].fileOffset == UnpackedTotal(picked[..j])
    ensures SizeOf(file) == UnpackedTotal(picked)
  {
    hide InManifest, CopiesOf, StableSort, LaidOut, Tiles, UnpackedTotal;
    picked := PickEntries(file, shared, parts, entries, ids, hashType);
    forall j | 0 <= j < |ids| ensures file[j].fileOffset == UnpackedTotal(picked[..j]) {
      EndsAdd(file, picked, j);
      BeginsAtEnd(file, j);
    }
    EndsAdd(file, picked, |ids|);
    assert picked[..|ids|] == picked;
  }

  lemma PickEntries(file: seq<Chunk>, shared: seq<Chunk>, parts: seq<seq<Chunk>>, entries: seq<BundleEntry>,
                    ids: seq<uint64>, hashType: HashType) returns (picked: seq<ChunkEntry>)
    requires |parts| == |entries| && forall i :: 0 <= i < |entries| ==> LaidOut(parts[i], entries[i])
    requires StableSort(Flatten(parts), shared, ChunkIdOf) && CopiesOf(file, shared, ids, hashType)
    ensures |file| == |picked| == |ids|
    ensures forall j :: 0 <= j < |ids| ==>
              && picked[j] == ChunkEntry(ids[j], file[j].compressedSize, file[j].uncompressedSize)
              && InManifest(picked[j], file[j].bundleId, entries)
  {
    assert |file| == |ids|;
    hide CopiesOf, StableSort, LaidOut, Total;
    picked := [];
    for j := 0 to |ids|
      invariant |picked| == j
      invariant forall i :: 0 <= i < j ==>
                  && picked[i] == ChunkEntry(ids[i], file[i].compressedSize, file[i].uncompressedSize)
                  && InManifest(picked[i], file[i].bundleId, entries)
    {
      var e, k := ChunkIsEntry(file, shared, parts, entries, ids, hashType, j);
      assert entries[e].chunks[k] in entries[e].chunks;
      picked := picked + [entries[e].chunks[k]];
    }
  }

  lemma BeginsAtEnd(file: seq<Chunk>, j: nat)
    requires Tiles(file, SizeOf(file)) && j < |file|
    ensures file[j].fileOffset == if j == 0 then 0 else FileEnd(file[j - 1])
  {
  }

  lemma {:induction false} EndsAdd(file: seq<Chunk>, picked: seq<ChunkEntry>, j: nat)
    requires Tiles(file, SizeOf(file)) && |picked| == |file| && j <= |file|
    requires forall i :: 0 <= i < |file| ==> picked[i].uncompressedSize == file[i].uncompressedSize
    ensures UnpackedTotal(picked[..j]) == if j == 0 then 0 else FileEnd(file[j - 1])
  {
    if j > 0 {
      EndsAdd(file, picked, j - 1);
      assert picked[..j][..j - 1] == picked[..j - 1];
      assert j > 1 ==> file[j - 1].fileOffset == FileEnd(file[j - 2]);
    }
  }
}
