/** From the manifest and whatever is on disk to the plan that the workers carry out, and to the files' bytes. */
module Pipeline {
  import opened Common
  import opened Ordering
  import opened Lists
  import opened Grouping
  import opened RangePlan
  import opened Request
  import opened RangeDownload
  import opened Manifest
  import opened Repair
  import opened Workers
  import opened WorkerFiles
  import opened WorkerInvariant
  import opened WorkerTheorems

  // What the assembly hands to the planner.

  /** The chunks of a manifest's bundles: bundle ids are unique, no chunk is empty, and no bundle has 4 GiB. */
  ghost predicate IsCatalogue(parts: seq<seq<Chunk>>, entries: seq<BundleEntry>) {
    && |parts| == |entries|
    && (forall b :: 0 <= b < |parts| ==> LaidOut(parts[b], entries[b]) && Total(entries[b].chunks) < TWO_TO_THE_32)
    && (forall b, k :: 0 <= b < |parts| && 0 <= k < |parts[b]| ==> 0 < parts[b][k].compressedSize)
    && (forall a, b :: 0 <= a < b < |entries| ==> entries[a].bundleId != entries[b].bundleId)
  }

  ghost predicate InBundles(c: Chunk, parts: seq<seq<Chunk>>) {
    exists b, k :: 0 <= b < |parts| && 0 <= k < |parts[b]| && SameEntry(c, parts[b][k])
  }

  /** A file's copy of a chunk still says where the chunk lies in its bundle. */
  lemma CopyIsInBundles(c: Chunk, shared: seq<Chunk>, parts: seq<seq<Chunk>>, id: uint64, hashType: HashType)
    requires CopyOf(c, shared, id, hashType) && StableSort(Flatten(parts), shared, ChunkIdOf)
    ensures InBundles(c, parts)
  {
    StableSortPermutes(Flatten(parts), shared, ChunkIdOf);
    var i :| 0 <= i < |shared| && SameEntry(c, shared[i]);
    assert shared[i] in multiset(shared);
    var b, k := FlattenMember(parts, shared[i]);
    assert SameEntry(c, parts[b][k]);
  }

  /** Two chunks of one bundle are the same or lie apart. */
  lemma Apart(c: Chunk, d: Chunk, parts: seq<seq<Chunk>>, entries: seq<BundleEntry>)
    requires IsCatalogue(parts, entries) && InBundles(c, parts) && InBundles(d, parts) && c.bundleId == d.bundleId
    ensures Follows(c, d) || Follows(d, c)
  {
    var a, i :| 0 <= a < |parts| && 0 <= i < |parts[a]| && SameEntry(c, parts[a][i]);
    var b, j :| 0 <= b < |parts| && 0 <= j < |parts[b]| && SameEntry(d, parts[b][j]);
    assert entries[a].bundleId == c.bundleId && entries[b].bundleId == c.bundleId;
    assert a == b;
    hide IsCatalogue, LaidOut;
    if i < j {
      LaidOutAscends(parts[a], entries[a], i, j);
    } else if j < i {
      LaidOutAscends(parts[a], entries[a], j, i);
    }
  }

  lemma InsideItsBundle(c: Chunk, parts: seq<seq<Chunk>>, entries: seq<BundleEntry>, e: nat)
    requires IsCatalogue(parts, entries) && InBundles(c, parts) && e < |entries| && entries[e].bundleId == c.bundleId
    ensures 0 < c.compressedSize && End(c) <= Total(entries[e].chunks)
  {
    var a, i :| 0 <= a < |parts| && 0 <= i < |parts[a]| && SameEntry(c, parts[a][i]);
    assert entries[a].bundleId == c.bundleId;
    assert a == e;
    OffsetIsTotal(parts[a], entries[a], i);
    TotalGrows(entries[a].chunks, i + 1, i + 1);
    assert entries[a].chunks[..i + 1][..i] == entries[a].chunks[..i];
  }

  /** Whichever chunks are selected, each bundle's group is what the range planner demands. */
  lemma GroupIsFetchable(g: Group, selected: seq<Chunk>, parts: seq<seq<Chunk>>, entries: seq<BundleEntry>, e: nat,
                         size: nat)
    requires IsGroup(g, selected) && IsCatalogue(parts, entries)
    requires forall i :: 0 <= i < |selected| ==> InBundles(selected[i], parts)
    requires e < |entries| && entries[e].bundleId == g.bundleId && Total(entries[e].chunks) <= size < TWO_TO_THE_32
    ensures Fetchable(g.chunks, size)
  {
    hide IsCatalogue, InBundles, Follows;
    forall i | 0 <= i < |g.chunks|
      ensures InBundles(g.chunks[i], parts) && g.chunks[i].bundleId == g.bundleId
      ensures 0 < g.chunks[i].compressedSize && End(g.chunks[i]) <= size
    {
      GroupMembers(g, selected, g.chunks[i]);
      InsideItsBundle(g.chunks[i], parts, entries, e);
    }
    forall i, j | 0 <= i < j < |g.chunks|
      ensures g.chunks[i].bundleOffset <= g.chunks[j].bundleOffset
      ensures Follows(g.chunks[i], g.chunks[j]) || Follows(g.chunks[j], g.chunks[i])
    {
      assert OffsetOf(g.chunks[i]) <= OffsetOf(g.chunks[j]);
      Apart(g.chunks[i], g.chunks[j], parts, entries);
    }
    SortedIsFetchable(g.chunks, size);
  }

  // What a worker does with one bundle.

  datatype Source =
    | Local(file: Option<seq<byte>>)
    | Remote(server: (nat, string) -> Option<Reply>, prefix: string)

  ghost predicate Serves(source: Source, bundle: seq<byte>) {
    match source
    case Local(file) => file.Some? ==> file.value == bundle
    case Remote(server, prefix) => |prefix| <= MAX_PREFIX && Conforms(server, prefix, bundle)
  }

  /** The bundle cannot be had: it is not on disk, or the server failed some request. */
  ghost predicate Unavailable(source: Source) {
    match source
    case Local(file) => file == None
    case Remote(server, prefix) => exists n, request :: Failed(server(n, request))
  }

  ghost function WritesOf(target: seq<byte>, chunks: seq<Chunk>): seq<Write>
    requires InTarget(chunks, target)
  {
    seq(|chunks|, j requires 0 <= j < |chunks| => WriteOf(target, chunks[j]))
  }

  /** The bundle holds the compressed form of the chunks' part of the target. */
  ghost predicate Packs(bundle: seq<byte>, target: seq<byte>, chunks: seq<Chunk>, decompress: seq<byte> -> seq<byte>)
    requires Fetchable(chunks, |bundle|) && InTarget(chunks, target)
  {
    forall i :: 0 <= i < |chunks| ==> decompress(ChunkBytes(bundle, chunks[i])) == Piece(target, chunks[i])
  }

  /** Either way of getting at a bundle. The two promise the same, so a worker need not care. */
  method GetBundle(source: Source, chunks: seq<Chunk>, ghost bundle: seq<byte>) returns (ranges: Option<seq<seq<byte>>>)
    requires Fetchable(chunks, |bundle|) && Serves(source, bundle)
    ensures ranges.Some? ==> |ranges.value| == |chunks| && Filled(ranges.value, bundle, chunks, 0, |chunks|)
    ensures ranges == None ==> Unavailable(source)
  {
    hide Conforms, Fetchable, Batches, Replies;
    match source {
      case Local(file) =>
        FetchableIsReadable(chunks, |bundle|);
        ranges := GetRanges(file, chunks);
      case Remote(server, prefix) =>
        ghost var log, batches;
        ranges, log, batches := DownloadRanges(server, prefix, chunks, bundle);
    }
  }

  /** Some chunk does not decompress to the size that the manifest states. */
  ghost predicate Mispacked(bundle: seq<byte>, chunks: seq<Chunk>, decompress: seq<byte> -> seq<byte>)
    requires Fetchable(chunks, |bundle|)
  {
    exists i :: 0 <= i < |chunks| && |decompress(ChunkBytes(bundle, chunks[i]))| != chunks[i].uncompressedSize
  }

  /** Each chunk's bytes, as the bundle has them, decompressed and put where the chunk belongs in the file. */
  ghost function FetchedWrites(bundle: seq<byte>, chunks: seq<Chunk>, decompress: seq<byte> -> seq<byte>): seq<Write>
    requires Fetchable(chunks, |bundle|)
  {
    seq(|chunks|, j requires 0 <= j < |chunks| =>
      Write(chunks[j].fileOffset, decompress(ChunkBytes(bundle, chunks[j]))))
  }

  /** The body of the worker's loop: fetch the claimed bundle and decompress it, chunk by chunk. None stands for
      ending the program. */
  method FetchBundle(source: Source, chunks: seq<Chunk>, decompress: seq<byte> -> seq<byte>, ghost bundle: seq<byte>)
    returns (writes: Option<seq<Write>>)
    requires Fetchable(chunks, |bundle|) && Serves(source, bundle)
    ensures writes.Some? ==> writes.value == FetchedWrites(bundle, chunks, decompress)
    ensures writes.Some? ==> !Mispacked(bundle, chunks, decompress)
    ensures writes == None ==> Unavailable(source) || Mispacked(bundle, chunks, decompress)
  {
    hide Serves, Unavailable;
    var ranges := GetBundle(source, chunks, bundle);
    if ranges == None {
      return None;
    }
    var result: seq<Write> := [];
    for j := 0 to |chunks|
      invariant |result| == j
      invariant forall k :: 0 <= k < j ==>
                  && result[k] == Write(chunks[k].fileOffset, decompress(ChunkBytes(bundle, chunks[k])))
                  && |decompress(ChunkBytes(bundle, chunks[k]))| == chunks[k].uncompressedSize
    {
      assert ranges.value[j] == ChunkBytes(bundle, chunks[j]);
      var toWrite := decompress(ranges.value[j]);
      if |toWrite| != chunks[j].uncompressedSize {
        return None;
      }
      result := result + [Write(chunks[j].fileOffset, toWrite)];
    }
    writes := Some(result);
  }

  /** When the bundle packs the target, what a worker writes is what the job promised, whichever way it was fetched. */
  lemma FetchedAsPromised(bundle: seq<byte>, target: seq<byte>, chunks: seq<Chunk>, decompress: seq<byte> -> seq<byte>)
    requires Fetchable(chunks, |bundle|) && InTarget(chunks, target) && Packs(bundle, target, chunks, decompress)
    ensures FetchedWrites(bundle, chunks, decompress) == WritesOf(target, chunks)
    ensures !Mispacked(bundle, chunks, decompress)
  {
    var writes := FetchedWrites(bundle, chunks, decompress);
    forall j | 0 <= j < |chunks| ensures writes[j] == WriteOf(target, chunks[j]) {
      assert decompress(ChunkBytes(bundle, chunks[j])) == Piece(target, chunks[j]);
    }
  }

  // What main does with one file.

  lemma GroupInTarget(groups: seq<Group>, selected: seq<Chunk>, target: seq<byte>, i: nat)
    requires Grouped(groups, selected) && InTarget(selected, target) && i < |groups|
    ensures InTarget(groups[i].chunks, target)
  {
    assert IsGroup(groups[i], selected);
    forall k | 0 <= k < |groups[i].chunks| ensures FileEnd(groups[i].chunks[k]) <= |target| {
      GroupMembers(groups[i], selected, groups[i].chunks[k]);
    }
  }

  /** The writes of the groups, bundle by bundle. */
  ghost function BundleWrites(groups: seq<Group>, selected: seq<Chunk>, target: seq<byte>): (bundles: seq<seq<Write>>)
    requires Grouped(groups, selected) && InTarget(selected, target)
    ensures |bundles| == |groups|
    ensures forall i :: 0 <= i < |groups| ==>
              InTarget(groups[i].chunks, target) && bundles[i] == WritesOf(target, groups[i].chunks)
  {
    assert forall i :: 0 <= i < |groups| ==> InTarget(groups[i].chunks, target) by {
      forall i | 0 <= i < |groups| ensures InTarget(groups[i].chunks, target) {
        GroupInTarget(groups, selected, target, i);
      }
    }
    seq(|groups|, i requires 0 <= i < |groups| => WritesOf(target, groups[i].chunks))
  }

  /** Grouping loses no write and adds none. */
  lemma GroupsBring(groups: seq<Group>, selected: seq<Chunk>, target: seq<byte>)
    requires Grouped(groups, selected) && InTarget(selected, target)
    ensures Brings(BundleWrites(groups, selected, target), target, selected)
  {
    hide IsGroup;
    var bundles := BundleWrites(groups, selected, target);
    forall i | 0 <= i < |selected| ensures HasWrite(bundles, WriteOf(target, selected[i])) {
      var b :| 0 <= b < |groups| && groups[b].bundleId == selected[i].bundleId;
      GroupMembers(groups[b], selected, selected[i]);
      var k :| 0 <= k < |groups[b].chunks| && groups[b].chunks[k] == selected[i];
      assert bundles[b][k] == WriteOf(target, selected[i]);
    }
    forall b, k | 0 <= b < |bundles| && 0 <= k < |bundles[b]| ensures IsWriteOf(bundles[b][k], target, selected) {
      var c := groups[b].chunks[k];
      GroupMembers(groups[b], selected, c);
      var i :| 0 <= i < |selected| && selected[i] == c;
      assert bundles[b][k] == WriteOf(target, selected[i]);
    }
  }

  datatype Options = Options(skipExisting: bool, existingOnly: bool, verifyOnly: bool)

  /** The cases in which a file is left as it is. */
  ghost predicate LeftAlone(existing: Option<seq<byte>>, options: Options, target: seq<byte>) {
    match existing
    case None => options.existingOnly || options.verifyOnly
    case Some(file) => options.verifyOnly || file == target || (options.skipExisting && |file| == |target|)
  }

  /** What main selects: the wrong chunks of a file that exists, and all chunks of one that does not. */
  ghost function Selected(existing: Option<seq<byte>>, target: seq<byte>, chunks: seq<Chunk>): seq<Chunk>
    requires InTarget(chunks, target)
  {
    if existing.Some? then Wrong(existing.value, target, chunks) else chunks
  }

  lemma SelectedAreChunks(existing: Option<seq<byte>>, target: seq<byte>, chunks: seq<Chunk>, c: Chunk)
    requires InTarget(chunks, target) && c in Selected(existing, target, chunks)
    ensures c in chunks && FileEnd(c) <= |target|
  {
    if existing.Some? {
      WrongAreChunks(existing.value, target, chunks, c);
    }
  }

  /** From the manifest to the planner: whatever is on disk, every group of a file belongs to a bundle of the
      manifest, and is a list of chunks as the planner demands it for that bundle. */
  lemma ManifestIsFetchable(existing: Option<seq<byte>>, target: seq<byte>, file: seq<Chunk>, shared: seq<Chunk>,
                            parts: seq<seq<Chunk>>, entries: seq<BundleEntry>, ids: seq<uint64>, hashType: HashType,
                            groups: seq<Group>, i: nat) returns (e: nat)
    requires IsCatalogue(parts, entries) && StableSort(Flatten(parts), shared, ChunkIdOf)
    requires CopiesOf(file, shared, ids, hashType) && InTarget(file, target)
    requires Grouped(groups, Selected(existing, target, file)) && i < |groups|
    ensures e < |entries| && entries[e].bundleId == groups[i].bundleId
    ensures forall size :: Total(entries[e].chunks) <= size < TWO_TO_THE_32 ==> Fetchable(groups[i].chunks, size)
  {
    hide Wrong, StableSort, CopyOf, SameEntry, LaidOut, Fetchable;
    var selected := Selected(existing, target, file);
    assert IsGroup(groups[i], selected);
    forall k | 0 <= k < |selected| ensures InBundles(selected[k], parts) {
      SelectedAreChunks(existing, target, file, selected[k]);
      var j :| 0 <= j < |file| && file[j] == selected[k];
      CopyIsInBundles(file[j], shared, parts, ids[j], hashType);
    }
    var c := groups[i].chunks[0];
    GroupMembers(groups[i], selected, c);
    e := BundleOf(c, parts, entries);
    forall size | Total(entries[e].chunks) <= size < TWO_TO_THE_32 ensures Fetchable(groups[i].chunks, size) {
      GroupIsFetchable(groups[i], selected, parts, entries, e, size);
    }
  }

  lemma BundleOf(c: Chunk, parts: seq<seq<Chunk>>, entries: seq<BundleEntry>) returns (e: nat)
    requires IsCatalogue(parts, entries) && InBundles(c, parts)
    ensures e < |entries| && entries[e].bundleId == c.bundleId
  {
    var k: int;
    e, k :| 0 <= e < |parts| && 0 <= k < |parts[e]| && SameEntry(c, parts[e][k]);
    assert LaidOut(parts[e], entries[e]);
  }

  /** The content a file starts from: what is there, or nothing. */
  function Start(existing: Option<seq<byte>>): seq<byte> {
    if existing.Some? then existing.value else []
  }

  /** The job for one file keeps its promise to the workers. */
  lemma DispatchRepairs(existing: Option<seq<byte>>, target: seq<byte>, chunks: seq<Chunk>, groups: seq<Group>)
    requires Tiles(chunks, |target|) && InTarget(chunks, target)
    requires Grouped(groups, Selected(existing, target, chunks))
    ensures InTarget(Selected(existing, target, chunks), target)
    ensures Repairs(Dispatch(target, Resize(Start(existing), |target| + 1),
                             BundleWrites(groups, Selected(existing, target, chunks), target)))
  {
    hide Wrong, Tiles, Grouped, Brings, BundleWrites;
    var selected := Selected(existing, target, chunks);
    forall i | 0 <= i < |selected| ensures FileEnd(selected[i]) <= |target| {
      SelectedAreChunks(existing, target, chunks, selected[i]);
    }
    forall c | c in Wrong(Start(existing), target, chunks) ensures c in selected {
      WrongAreChunks(Start(existing), target, chunks, c);
    }
    GroupsBring(groups, selected, target);
    SelectionRepairs(Start(existing), target, chunks, selected, BundleWrites(groups, selected, target));
  }

  /** What main makes of a file: leave it alone, cut it to size if nothing has to be fetched for it, or dispatch it
      with bundles that repair it. Only a file without chunks is dispatched without bundles. */
  ghost predicate IsJob(job: Job, existing: Option<seq<byte>>, options: Options, target: seq<byte>, chunks: seq<Chunk>)
    requires InTarget(chunks, target)
  {
    && (job.Skip? <==> LeftAlone(existing, options, target))
    && (job.Truncate? <==> !LeftAlone(existing, options, target) && IsCut(existing, target, chunks))
    && (job.Truncate? ==> Resize(existing.value, |target|) == target)
    && (job.Dispatch? ==> job.target == target && job.initial == Resize(Start(existing), |target| + 1) && Repairs(job))
    && (job.Dispatch? ==> (job.bundles == [] <==> chunks == []))
  }

  /** The file exists, and no chunk of it is wrong. */
  ghost predicate IsCut(existing: Option<seq<byte>>, target: seq<byte>, chunks: seq<Chunk>)
    requires InTarget(chunks, target)
  {
    existing.Some? && Wrong(existing.value, target, chunks) == []
  }

  lemma GroupsIffSelected(groups: seq<Group>, selected: seq<Chunk>)
    requires Grouped(groups, selected)
    ensures groups == [] <==> selected == []
  {
    if groups != [] {
      assert IsGroup(groups[0], selected);
      GroupMembers(groups[0], selected, groups[0].chunks[0]);
    }
    if selected != [] {
      SomeGroup(groups, selected);
    }
  }

  lemma SomeGroup(groups: seq<Group>, selected: seq<Chunk>)
    requires Grouped(groups, selected) && selected != []
    ensures groups != []
  {
    assert selected[0] in selected;
  }

  lemma SelectedIffChunks(existing: Option<seq<byte>>, target: seq<byte>, chunks: seq<Chunk>)
    requires InTarget(chunks, target) && !IsCut(existing, target, chunks)
    ensures Selected(existing, target, chunks) == [] <==> chunks == []
  {
  }

  lemma NothingSelected(file: seq<byte>, target: seq<byte>, chunks: seq<Chunk>)
    requires Tiles(chunks, |target|) && InTarget(chunks, target) && Wrong(file, target, chunks) == []
    ensures Resize(file, |target|) == target
  {
    TruncateRepairs(file, target, chunks);
  }

  /** The part of the main loop that opens a file and groups what is to be fetched for it. */
  method OpenFile(existing: Option<seq<byte>>, fileSize: nat, selected: seq<Chunk>, chunks: seq<Chunk>,
                  ghost target: seq<byte>)
    returns (content: seq<byte>, uniqueBundles: List<Bundle>, ghost groups: seq<Group>, ghost job: Job)
    requires Tiles(chunks, |target|) && InTarget(chunks, target) && fileSize == |target|
    requires selected == Selected(existing, target, chunks) && !IsCut(existing, target, chunks)
    ensures job.Dispatch? && job.target == target && job.initial == content == Resize(Start(existing), |target| + 1)
    ensures Repairs(job) && (job.bundles == [] <==> chunks == [])
    ensures fresh(uniqueBundles) && uniqueBundles.Valid()
    ensures Separate(uniqueBundles.Contents()) && Shows(uniqueBundles.Contents(), groups)
    ensures Grouped(groups, selected) && InTarget(selected, target) &&
            job.bundles == BundleWrites(groups, selected, target)
  {
    hide Repairs, Wrong, Tiles, Grouped, Separate, Shows, BundleWrites, IsGroup;
    content := Resize(Start(existing), fileSize + 1);
    uniqueBundles, groups := GroupByBundles(selected);
    DispatchRepairs(existing, target, chunks, groups);
    job := Dispatch(target, content, BundleWrites(groups, selected, target));
    GroupsIffSelected(groups, selected);
    SelectedIffChunks(existing, target, chunks);
  }

  /** The main loop's treatment of one file. The content is the one after this step, None if there is no file. */
  method PlanFile(existing: Option<seq<byte>>, fileSize: nat, chunks: seq<Chunk>, options: Options,
                  blake3: seq<byte> -> uint64,
                  ghost target: seq<byte>)
    returns (content: Option<seq<byte>>, uniqueBundles: List?<Bundle>, ghost groups: seq<Group>, ghost job: Job)
    requires Checkable(target, chunks, blake3) && fileSize == |target|
    ensures InTarget(chunks, target) && IsJob(job, existing, options, target, chunks)
    ensures LeftAlone(existing, options, target) ==> content == existing && uniqueBundles == null
    ensures !LeftAlone(existing, options, target) && IsCut(existing, target, chunks) ==>
              content == Some(target) && uniqueBundles == null
    ensures !LeftAlone(existing, options, target) && !IsCut(existing, target, chunks) ==>
              content == Some(Resize(Start(existing), |target| + 1)) && uniqueBundles != null
    ensures options.verifyOnly ==> content == existing && job.Skip?
    ensures existing == None && options.existingOnly ==> content == existing && job.Skip?
    ensures existing.Some? && options.skipExisting && |existing.value| == |target| ==> content == existing && job.Skip?
    ensures !options.verifyOnly && existing.Some? && !(options.skipExisting && |existing.value| == |target|) ==>
              && (job.Skip? <==> existing.value == target)
              && (content == existing <==> existing.value == target
                                           || (|existing.value| == |target| + 1 && !IsCut(existing, target, chunks)))
    ensures !options.verifyOnly && existing == None && !options.existingOnly ==>
              content.Some? && |content.value| == |target| + 1 && job.Dispatch?
    ensures content.Some? && content != existing && content != Some(target) ==> |content.value| == |target| + 1
    ensures job.Dispatch? <==> uniqueBundles != null
    ensures uniqueBundles != null ==>
              && uniqueBundles.Valid() && Separate(uniqueBundles.Contents()) && Shows(uniqueBundles.Contents(), groups)
              && Grouped(groups, Selected(existing, target, chunks)) &&
                  InTarget(Selected(existing, target, chunks), target)
              && job.bundles == BundleWrites(groups, Selected(existing, target, chunks), target)
  {
    hide Repairs, Wrong, Tiles, Grouped, Separate, Shows, Distinguishes, BundleWrites, IsGroup;
    content, uniqueBundles, groups, job := existing, null, [], Skip;
    var selected := chunks;
    if existing.Some? {
      var file := existing.value;
      if options.skipExisting && |file| == fileSize {
        return;
      }
      var correct, toDownload := VerifyFile(file, fileSize, chunks, options.verifyOnly, blake3, target);
      if correct || options.verifyOnly {
        return;
      }
      if toDownload.length == 0 {
        NothingSelected(file, target, chunks);
        content, job := Some(Resize(file, fileSize)), Truncate;
        return;
      }
      selected := toDownload.objects[..toDownload.length];
    } else if options.existingOnly || options.verifyOnly {
      return;
    }
    var initial;
    ResizeSame(Start(existing), |target| + 1);
    initial, uniqueBundles, groups, job := OpenFile(existing, fileSize, selected, chunks, target);
    content := Some(initial);
  }

  /** What a worker does with the bundle it has claimed. When the bundle packs the target, the writes are exactly
      those of the job, which the protocol is about. */
  method FetchClaimed(source: Source, chunks: seq<Chunk>, decompress: seq<byte> -> seq<byte>, ghost bundle: seq<byte>,
                      ghost b: nat, ghost groups: seq<Group>, ghost selected: seq<Chunk>, ghost job: Job)
    returns (writes: Option<seq<Write>>)
    requires job.Dispatch? && Grouped(groups, selected) && InTarget(selected, job.target)
    requires job.bundles == BundleWrites(groups, selected, job.target) && b < |groups| && chunks == groups[b].chunks
    requires Fetchable(chunks, |bundle|) && Serves(source, bundle) && Packs(bundle, job.target, chunks, decompress)
    ensures writes.Some? ==> b < |job.bundles| && writes.value == job.bundles[b]
    ensures writes == None ==> Unavailable(source)
  {
    hide Grouped, Serves, Unavailable, FetchedWrites, Mispacked;
    FetchedAsPromised(bundle, job.target, chunks, decompress);
    writes := FetchBundle(source, chunks, decompress, bundle);
  }
}
