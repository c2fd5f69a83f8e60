/** The whole of it: what the files hold when the download is over. */
module Outcome {
  import opened Common
  import opened Ordering
  import opened Grouping
  import opened RangePlan
  import opened RangeDownload
  import opened Manifest
  import opened Repair
  import opened Pipeline
  import opened Workers
  import opened WorkerFiles
  import opened WorkerInvariant
  import opened WorkerTheorems
  import opened WorkerProgress
  import opened WorkerTermination
  import opened WorkerRuns
  import opened WorkerSettings
  import opened WorkerEndless

  datatype FilePlan = FilePlan(existing: Option<seq<byte>>, target: seq<byte>, chunks: seq<Chunk>)

  /** The jobs are the ones that main derives from the files. */
  ghost predicate JobsFor(jobs: seq<Job>, plans: seq<FilePlan>, options: Options) {
    && |jobs| == |plans|
    && forall f :: 0 <= f < |plans| ==>
         && InTarget(plans[f].chunks, plans[f].target)
         && IsJob(jobs[f], plans[f].existing, options, plans[f].target, plans[f].chunks)
  }

  /** What a file holds in the end, given the job that main made of it and what its workers left behind; None if there
      is no file. */
  function FinalContent(plan: FilePlan, job: Job, fs: FileState): Option<seq<byte>> {
    match job
    case Skip => plan.existing
    case Truncate => Some(Resize(Start(plan.existing), |plan.target|))
    case Dispatch(_, _, _) => Some(fs.content)
  }

  /** A complete run over a manifest, whatever was on disk before. Where the options forbid any change, the file stays
      what it was: with verifyOnly every file, with existingOnly one that is missing, with skipExisting one that has the
      right size.
      Any other file that has chunks comes out as its target if and only if no worker was let into it after another one
      had passed the test before cleanup, or the target is empty.
      A file without chunks comes out as its target, the empty file, if and only if it was there already. */
  lemma EndToEnd(plans: seq<FilePlan>, options: Options, jobs: seq<Job>, threads: nat, run: seq<State>, f: nat)
    requires threads > 0 && JobsFor(jobs, plans, options) && IsCompleteRun(jobs, threads, run)
    requires f < |plans| && Tiles(plans[f].chunks, |plans[f].target|)
    ensures forall j :: 0 <= j < |run| ==> |run[j].files| == |jobs|
    ensures var plan, final := plans[f], FinalContent(plans[f], jobs[f], Last(run).files[f]);
            var kept := || options.verifyOnly
                        || (plan.existing == None && options.existingOnly)
                        || (plan.existing.Some? && options.skipExisting && |plan.existing.value| == |plan.target|);
            && (kept ==> final == plan.existing)
            && (!kept ==> (final == Some(plan.target) <==>
                  if plan.chunks == [] then plan.existing.Some?
                  else plan.target == [] ||
                       !exists j :: 0 <= j < |run| - 1 && EntersLate(jobs, run[j], run[j + 1], f)))
  {
    assert IsJob(jobs[f], plans[f].existing, options, plans[f].target, plans[f].chunks);
    if LeftAlone(plans[f].existing, options, plans[f].target) {
      AloneToEnd(plans, options, jobs, threads, run, f);
    } else {
      WorkedToEnd(plans, options, jobs, threads, run, f);
    }
  }

  lemma AloneToEnd(plans: seq<FilePlan>, options: Options, jobs: seq<Job>, threads: nat, run: seq<State>, f: nat)
    requires threads > 0 && |jobs| == |plans| && IsCompleteRun(jobs, threads, run) && f < |plans| && jobs[f].Skip?
    ensures forall j :: 0 <= j < |run| ==> |run[j].files| == |jobs|
    ensures FinalContent(plans[f], jobs[f], Last(run).files[f]) == plans[f].existing
    ensures !exists j :: 0 <= j < |run| - 1 && EntersLate(jobs, run[j], run[j + 1], f)
  {
    hide Inv, EntersLate, Terminal;
    NeverEntered(jobs, threads, run, f);
  }

  lemma WorkedToEnd(plans: seq<FilePlan>, options: Options, jobs: seq<Job>, threads: nat, run: seq<State>, f: nat)
    requires threads > 0 && JobsFor(jobs, plans, options) && IsCompleteRun(jobs, threads, run)
    requires f < |plans| && Tiles(plans[f].chunks, |plans[f].target|)
    requires !LeftAlone(plans[f].existing, options, plans[f].target)
    ensures forall j :: 0 <= j < |run| ==> |run[j].files| == |jobs|
    ensures FinalContent(plans[f], jobs[f], Last(run).files[f]) == Some(plans[f].target)
       <==> if plans[f].chunks == [] then plans[f].existing.Some?
            else plans[f].target == [] || !exists j :: 0 <= j < |run| - 1 && EntersLate(jobs, run[j], run[j + 1], f)
  {
    hide Inv, EntersLate, Repairs, LeftAlone, Terminal, Wrong;
    var l := |run| - 1;
    RunKeeps(jobs, threads, run, l);
    LateMeansEntered(jobs, threads, run, l, f);
    JobOfFile(plans, options, jobs, f);
    if !jobs[f].Dispatch? {
      NeverEntered(jobs, threads, run, f);
    } else if plans[f].chunks == [] {
      EmptyFileStaysTooLong(jobs, threads, run, l, f);
    } else {
      FilesAreFinished(jobs, run[l], f);
      if plans[f].target == [] {
        EmptyAfterCleanup(jobs, run[l], f);
      }
    }
  }

  lemma JobOfFile(plans: seq<FilePlan>, options: Options, jobs: seq<Job>, f: nat)
    requires JobsFor(jobs, plans, options) && f < |plans| && Tiles(plans[f].chunks, |plans[f].target|)
    requires !LeftAlone(plans[f].existing, options, plans[f].target)
    ensures |jobs| == |plans| && !jobs[f].Skip?
    ensures jobs[f].Dispatch? ==> jobs[f].target == plans[f].target && Repairs(jobs[f])
    ensures jobs[f].Dispatch? && plans[f].chunks != [] ==> Real(jobs, f)
    ensures jobs[f].Truncate? ==> Resize(Start(plans[f].existing), |plans[f].target|) == plans[f].target
    ensures jobs[f].Truncate? ==> plans[f].existing.Some?
    ensures plans[f].chunks == [] ==> plans[f].target == [] && (jobs[f].Truncate? <==> plans[f].existing.Some?)
    ensures jobs[f].Dispatch? && plans[f].chunks == [] ==> jobs[f].bundles == []
  {
    hide Repairs, LeftAlone;
    assert IsJob(jobs[f], plans[f].existing, options, plans[f].target, plans[f].chunks);
  }

  /** Cleaning up takes the only byte of a file whose target is empty, and then there is nothing left to take. */
  lemma EmptyAfterCleanup(jobs: seq<Job>, s: State, f: nat)
    requires Inv(jobs, s) && Real(jobs, f) && Repairs(jobs[f]) && jobs[f].target == [] && |s.files| == |jobs|
    requires s.files[f].cleaned >= 1
    ensures s.files[f].content == []
  {
    assert FileInv(jobs[f], s.files[f], s.workers, f);
    assert ContentOk(jobs[f], s.files[f]);
  }

  /** Workers enter only files that have something to download. */
  lemma NeverEntered(jobs: seq<Job>, threads: nat, run: seq<State>, f: nat)
    requires threads > 0 && IsRun(jobs, threads, run) && f < |jobs| && !jobs[f].Dispatch?
    ensures !exists j :: 0 <= j < |run| - 1 && EntersLate(jobs, run[j], run[j + 1], f)
  {
    forall j | 0 <= j < |run| - 1 ensures !EntersLate(jobs, run[j], run[j + 1], f) {
      RunKeeps(jobs, threads, run, j);
      NobodyThere(jobs, run[j], run[j + 1], f);
    }
  }

  lemma NobodyThere(jobs: seq<Job>, s: State, t: State, f: nat)
    requires Inv(jobs, s) && f < |jobs| && !jobs[f].Dispatch?
    ensures !EntersLate(jobs, s, t, f)
  {
    forall w | 0 <= w < |s.workers| ensures s.workers[w] != AtLock(f, false) {
      assert FileOf(s.workers[w]).Some? ==> Real(jobs, FileOf(s.workers[w]).value);
    }
  }

  /** A dispatched file without a single bundle is never touched, so the byte it was given too many stays. */
  lemma {:induction false} EmptyFileStaysTooLong(jobs: seq<Job>, threads: nat, run: seq<State>, i: nat, f: nat)
    requires threads > 0 && IsRun(jobs, threads, run) && i < |run|
    requires f < |jobs| && jobs[f].Dispatch? && jobs[f].bundles == [] && Repairs(jobs[f])
    ensures run[i].files[f].content == jobs[f].initial && |run[i].files[f].content| == |jobs[f].target| + 1
  {
    hide Inv, Next;
    if i > 0 {
      EmptyFileStaysTooLong(jobs, threads, run, i - 1, f);
      RunKeeps(jobs, threads, run, i - 1);
      ContentStays(jobs, run[i - 1], run[i], f);
    }
  }

  lemma ContentStays(jobs: seq<Job>, s: State, t: State, f: nat)
    requires Inv(jobs, s) && Next(jobs, s, t) && f < |jobs| && Bundles(jobs[f]) == 0 && |t.files| == |jobs|
    ensures t.files[f].content == s.files[f].content
  {
    hide TokensOk, NullsOk, FilesOk, FinishedOk, StartedOk, Claim, Put, Cleanup, Create;
    if MainNext(jobs, s) != Some(t) {
      var w :| 0 <= w < |s.workers| && WorkerNext(jobs, s, w) == Some(t);
      assert FileOf(s.workers[w]).Some? ==> Real(jobs, FileOf(s.workers[w]).value);
    } else {
      MainShape(jobs, s, t);
    }
  }

  /** An empty file that is not there yet: main gives it one byte, and nobody ever takes that byte away. */
  lemma NewEmptyFile(threads: nat) returns (jobs: seq<Job>, run: seq<State>)
    requires threads > 0
    ensures var plan := FilePlan(None, [], []);
            && JobsFor(jobs, [plan], Options(false, false, false)) && IsCompleteRun(jobs, threads, run)
            && |Last(run).files| == 1 && FinalContent(plan, jobs[0], Last(run).files[0]) == Some([0])
  {
    jobs := [Dispatch([], [0], [])];
    NewEmptyJob(jobs);
    hide IsRun, Terminal, Inv, JobsFor, Repairs;
    run := SomeCompleteRun(jobs, threads);
    EmptyFileStaysTooLong(jobs, threads, run, |run| - 1, 0);
  }

  lemma NewEmptyJob(jobs: seq<Job>)
    requires jobs == [Dispatch([], [0], [])]
    ensures JobsFor(jobs, [FilePlan(None, [], [])], Options(false, false, false)) && Repairs(jobs[0])
  {
    assert Repairs(jobs[0]) && Resize([], 1) == [0];
  }

  /** What can be known before the download begins: a file with chunks that is dispatched is sure to come out right
      if and only if there is one thread, or all it needs lies in one bundle, or it is empty. */
  lemma SureToComeOut(plans: seq<FilePlan>, options: Options, jobs: seq<Job>, threads: nat, f: nat)
    requires threads > 0 && JobsFor(jobs, plans, options) && f < |plans| && Tiles(plans[f].chunks, |plans[f].target|)
    requires plans[f].chunks != [] && jobs[f].Dispatch?
    ensures (forall run :: IsCompleteRun(jobs, threads, run) ==>
               && |Last(run).files| == |jobs|
               && FinalContent(plans[f], jobs[f], Last(run).files[f]) == Some(plans[f].target))
       <==> threads == 1 || |jobs[f].bundles| == 1 || plans[f].target == []
  {
    hide IsRun, Inv, EntersLate, Terminal, Repairs, LeftAlone, Wrong;
    assert IsJob(jobs[f], plans[f].existing, options, plans[f].target, plans[f].chunks);
    JobOfFile(plans, options, jobs, f);
    if plans[f].target != [] {
      SafeContent(jobs, threads, f);
    } else {
      forall run | IsCompleteRun(jobs, threads, run)
        ensures |Last(run).files| == |jobs|
        ensures FinalContent(plans[f], jobs[f], Last(run).files[f]) == Some(plans[f].target)
      {
        WorkedToEnd(plans, options, jobs, threads, run, f);
      }
    }
  }

  // From the manifest and the bundles to the files.

  /** What a download is about: the manifest's bundles and its chunk list, the files, and the bytes of every bundle. */
  datatype Download = Download(
    entries: seq<BundleEntry>,
    parts: seq<seq<Chunk>>,
    shared: seq<Chunk>,
    ids: seq<seq<uint64>>,
    hashTypes: seq<HashType>,
    plans: seq<FilePlan>,
    store: uint64 -> seq<byte>,
    decompress: seq<byte> -> seq<byte>)

  /** The chunk lists are those that the manifest's assembly makes, and the bundles hold what it says: all their chunks,
      and for every chunk of a file the compressed form of its part of the target. */
  ghost predicate Sound(d: Download) {
    && IsCatalogue(d.parts, d.entries) && StableSort(Flatten(d.parts), d.shared, ChunkIdOf)
    && (forall e :: 0 <= e < |d.entries| ==>
          Total(d.entries[e].chunks) <= |d.store(d.entries[e].bundleId)| < TWO_TO_THE_32)
    && |d.ids| == |d.hashTypes| == |d.plans|
    && (forall f :: 0 <= f < |d.plans| ==> SoundFile(d, f))
  }

  ghost predicate SoundFile(d: Download, f: nat)
    requires f < |d.plans| == |d.ids| == |d.hashTypes|
  {
    var plan := d.plans[f];
    && Tiles(plan.chunks, |plan.target|) && CopiesOf(plan.chunks, d.shared, d.ids[f], d.hashTypes[f])
    && (forall c :: c in plan.chunks ==> HoldsPiece(d, plan.target, c))
  }

  ghost predicate HoldsPiece(d: Download, target: seq<byte>, c: Chunk) {
    var bundle := d.store(c.bundleId);
    End(c) <= |bundle| && FileEnd(c) <= |target| ==> d.decompress(ChunkBytes(bundle, c)) == Piece(target, c)
  }

  /** The writes of the worker that claims the group, as `FetchBundle` returns them for every conforming source. */
  ghost function Fetched(d: Download, g: Group): seq<Write> {
    var bundle := d.store(g.bundleId);
    if Fetchable(g.chunks, |bundle|) then FetchedWrites(bundle, g.chunks, d.decompress) else []
  }

  /** What main and the workers make of a file: the decision as `PlanFile` takes it, and one bundle of writes for each
      group of the selected chunks. */
  ghost predicate MadeOf(job: Job, d: Download, options: Options, plan: FilePlan, groups: seq<Group>) {
    && InTarget(plan.chunks, plan.target)
    && (job.Skip? <==> LeftAlone(plan.existing, options, plan.target))
    && (job.Truncate? <==> !LeftAlone(plan.existing, options, plan.target)
                           && IsCut(plan.existing, plan.target, plan.chunks))
    && (job.Dispatch? ==>
          && Grouped(groups, Selected(plan.existing, plan.target, plan.chunks))
          && job.target == plan.target && job.initial == Resize(Start(plan.existing), |plan.target| + 1)
          && |job.bundles| == |groups| && forall b :: 0 <= b < |groups| ==> job.bundles[b] == Fetched(d, groups[b]))
  }

  /** The writes fetched for one group are the promised ones. */
  lemma FetchedIsPromised(d: Download, f: nat, groups: seq<Group>, b: nat)
    requires Sound(d) && f < |d.plans| && InTarget(d.plans[f].chunks, d.plans[f].target)
    requires Grouped(groups, Selected(d.plans[f].existing, d.plans[f].target, d.plans[f].chunks)) && b < |groups|
    ensures InTarget(groups[b].chunks, d.plans[f].target)
    ensures Fetched(d, groups[b]) == WritesOf(d.plans[f].target, groups[b].chunks)
  {
    var plan := d.plans[f];
    var selected := Selected(plan.existing, plan.target, plan.chunks);
    var bundle := d.store(groups[b].bundleId);
    assert SoundFile(d, f);
    var e := ManifestIsFetchable(plan.existing, plan.target, plan.chunks, d.shared, d.parts, d.entries, d.ids[f],
                                 d.hashTypes[f], groups, b);
    assert Fetchable(groups[b].chunks, |bundle|);
    assert IsGroup(groups[b], selected);
    hide IsCatalogue, StableSort, CopiesOf, Wrong, IsGroup, Grouped;
    forall k | 0 <= k < |groups[b].chunks|
      ensures FileEnd(groups[b].chunks[k]) <= |plan.target|
      ensures d.decompress(ChunkBytes(bundle, groups[b].chunks[k])) == Piece(plan.target, groups[b].chunks[k])
    {
      var c := groups[b].chunks[k];
      GroupMembers(groups[b], selected, c);
      SelectedAreChunks(plan.existing, plan.target, plan.chunks, c);
      assert HoldsPiece(d, plan.target, c);
    }
    FetchedAsPromised(bundle, plan.target, groups[b].chunks, d.decompress);
  }

  lemma MadeIsJob(d: Download, options: Options, job: Job, f: nat, groups: seq<Group>)
    requires Sound(d) && f < |d.plans| && MadeOf(job, d, options, d.plans[f], groups)
    ensures InTarget(d.plans[f].chunks, d.plans[f].target)
    ensures IsJob(job, d.plans[f].existing, options, d.plans[f].target, d.plans[f].chunks)
  {
    TilesMade(d, f);
    hide Sound, Tiles, Wrong, Repairs, LeftAlone, Grouped, Fetched;
    if job.Dispatch? {
      DispatchIsJob(d, options, job, f, groups);
    } else if job.Truncate? {
      NothingSelected(d.plans[f].existing.value, d.plans[f].target, d.plans[f].chunks);
    }
  }

  lemma DispatchIsJob(d: Download, options: Options, job: Job, f: nat, groups: seq<Group>)
    requires Sound(d) && f < |d.plans| && MadeOf(job, d, options, d.plans[f], groups) && job.Dispatch?
    ensures Repairs(job) && (job.bundles == [] <==> d.plans[f].chunks == [])
  {
    TilesMade(d, f);
    hide Sound, Tiles, Wrong, Repairs, LeftAlone, Grouped, Fetched, IsCut;
    MadePromised(d, options, job, f, groups);
    var plan := d.plans[f];
    DispatchRepairs(plan.existing, plan.target, plan.chunks, groups);
    GroupsIffSelected(groups, Selected(plan.existing, plan.target, plan.chunks));
    SelectedIffChunks(plan.existing, plan.target, plan.chunks);
  }

  lemma MadePromised(d: Download, options: Options, job: Job, f: nat, groups: seq<Group>)
    requires Sound(d) && f < |d.plans| && MadeOf(job, d, options, d.plans[f], groups) && job.Dispatch?
    ensures InTarget(Selected(d.plans[f].existing, d.plans[f].target, d.plans[f].chunks), d.plans[f].target)
    ensures job.bundles == BundleWrites(groups,
              Selected(d.plans[f].existing, d.plans[f].target, d.plans[f].chunks), d.plans[f].target)
  {
    var plan := d.plans[f];
    TilesMade(d, f);
    hide Sound, Tiles, Wrong, Repairs, LeftAlone, Grouped, Fetched, IsCut;
    var selected := Selected(plan.existing, plan.target, plan.chunks);
    DispatchRepairs(plan.existing, plan.target, plan.chunks, groups);
    var bundles := BundleWrites(groups, selected, plan.target);
    forall b | 0 <= b < |groups| ensures job.bundles[b] == bundles[b] {
      FetchedIsPromised(d, f, groups, b);
    }
    hide BundleWrites;
    assert job.bundles == bundles;
  }

  lemma TilesMade(d: Download, f: nat)
    requires Sound(d) && f < |d.plans|
    ensures Tiles(d.plans[f].chunks, |d.plans[f].target|)
  {
    assert SoundFile(d, f);
  }

  /** The whole download: from a manifest whose bundles pack the files, whatever was on disk before, and for any number
      of threads and any interleaving of their steps. A file that the options protect stays what it was; every other one
      comes out as its target under exactly the condition of `EndToEnd`. */
  lemma WholeDownload(d: Download, options: Options, jobs: seq<Job>, groups: seq<seq<Group>>, threads: nat,
                      run: seq<State>, f: nat)
    requires Sound(d) && threads > 0 && |jobs| == |groups| == |d.plans|
    requires forall f :: 0 <= f < |jobs| ==> MadeOf(jobs[f], d, options, d.plans[f], groups[f])
    requires IsCompleteRun(jobs, threads, run) && f < |jobs|
    ensures forall j :: 0 <= j < |run| ==> |run[j].files| == |jobs|
    ensures var plan, final := d.plans[f], FinalContent(d.plans[f], jobs[f], Last(run).files[f]);
            var kept := || options.verifyOnly
                        || (plan.existing == None && options.existingOnly)
                        || (plan.existing.Some? && options.skipExisting && |plan.existing.value| == |plan.target|);
            && (kept ==> final == plan.existing)
            && (!kept ==> (final == Some(plan.target) <==>
                  if plan.chunks == [] then plan.existing.Some?
                  else plan.target == [] ||
                       !exists j :: 0 <= j < |run| - 1 && EntersLate(jobs, run[j], run[j + 1], f)))
  {
    hide Sound, MadeOf, IsJob, EntersLate, LeftAlone, IsCompleteRun;
    forall f | 0 <= f < |jobs|
      ensures InTarget(d.plans[f].chunks, d.plans[f].target)
      ensures IsJob(jobs[f], d.plans[f].existing, options, d.plans[f].target, d.plans[f].chunks)
    {
      MadeIsJob(d, options, jobs[f], f, groups[f]);
    }
    TilesMade(d, f);
    EndToEnd(d.plans, options, jobs, threads, run, f);
  }
}
