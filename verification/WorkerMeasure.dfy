/** A measure that every step makes smaller, except main's test when it misses that a file is finished. */
module WorkerMeasure {
  import opened Common
  import opened Workers
  import opened WorkerFiles
  import opened WorkerInvariant
  import opened WorkerTheorems
  import opened WorkerProgress

  // The parts of the measure are compared in this order: how far main is from the end; how many claims and notes are
  // left; where main stands in its loop for a file, if it sends a single message or the file's last claim is noted;
  // and the energy of workers, messages and tokens.

  function Distance(jobs: seq<Job>, s: State): (d: nat)
    requires ShapeOk(jobs, s)
  {
    var shutdown := 2 * |s.workers| + 2;
    match s.main
    case NextFile(i) => shutdown + 3 * (|jobs| - i)
    case Opened(i) => shutdown + 3 * (|jobs| - i) - 1
    case Take(i) => shutdown + 3 * (|jobs| - i) - 2
    case Check(i) => shutdown + 3 * (|jobs| - i) - 2
    case Send(i) => shutdown + 3 * (|jobs| - i) - 2
    case ShutTake(k) => 2 * (s.created - k) + 1
    case ShutSend(k) => 2 * (s.created - k)
    case Joining => 0
  }

  function Left(job: Job, fs: FileState): nat {
    if |fs.claims| < Bundles(job) then Bundles(job) - |fs.claims| else 0
  }

  function Unclaimed(jobs: seq<Job>, files: seq<FileState>): nat
    requires |files| == |jobs|
  {
    if jobs == [] then 0
    else var n := |jobs| - 1; Unclaimed(jobs[..n], files[..n]) + Left(jobs[n], files[n])
  }

  lemma {:induction false} UnclaimedUpdate(jobs: seq<Job>, files: seq<FileState>, f: nat, fs: FileState)
    requires |files| == |jobs| && f < |jobs|
    ensures Unclaimed(jobs, files[f := fs]) + Left(jobs[f], files[f]) == Unclaimed(jobs, files) + Left(jobs[f], fs)
  {
    var n := |jobs| - 1;
    if f == n {
      assert files[f := fs][..n] == files[..n];
    } else {
      UnclaimedUpdate(jobs[..n], files[..n], f, fs);
      assert files[f := fs][..n] == files[..n][f := fs];
    }
  }

  /** A claim counts twice, because it may leave a note to be made. */
  function Work(jobs: seq<Job>, s: State): nat
    requires |s.files| == |jobs|
  {
    2 * Unclaimed(jobs, s.files) + Count(IsNoting, s.workers)
  }

  function NotedFiles(jobs: seq<Job>, s: State): set<nat>
    requires |s.files| == |jobs|
  {
    set f | 0 <= f < |jobs| && Noted(jobs, s, f)
  }

  function Phase(jobs: seq<Job>, s: State): nat
    requires |s.files| == |jobs|
  {
    match s.main
    case Send(i) => if Once(jobs, |s.workers|, i) then 1 else if Noted(jobs, s, i) then 3 else 0
    case Take(i) => if Once(jobs, |s.workers|, i) then 3 else if Noted(jobs, s, i) then 2 else 0
    case Check(i) => if Once(jobs, |s.workers|, i) then 2 else if Noted(jobs, s, i) then 1 else 0
    case _ => 0
  }

  /** How many steps are left to a worker until it waits, without a claim or a note; a token is worth 5. */
  function Rank(jobs: seq<Job>, noted: set<nat>, w: Worker): nat {
    match w
    case AtLock(f, _) => if f in noted then 9 else 1
    case Writing(f, b, c) =>
      10 + if f < |jobs| && b < Bundles(jobs[f]) && c <= |jobs[f].bundles[b]| then |jobs[f].bundles[b]| - c else 0
    case Leaving(_, _) => 8
    case Cleaning(_) => 7
    case Replying => 6
    case _ => 0
  }

  function Ranks(jobs: seq<Job>, noted: set<nat>, ws: seq<Worker>): nat {
    if ws == [] then 0
    else var n := |ws| - 1; Ranks(jobs, noted, ws[..n]) + Rank(jobs, noted, ws[n])
  }

  function MessageRank(noted: set<nat>, m: Option<nat>): nat {
    match m
    case None => 1
    case Some(f) => if f in noted then 10 else 2
  }

  function MessageRanks(noted: set<nat>, work: seq<Option<nat>>): nat {
    if work == [] then 0 else MessageRank(noted, work[0]) + MessageRanks(noted, work[1..])
  }

  function TokenRanks(s: State): nat {
    5 * (s.replies + Bit(!s.doRead)) + (if s.main.Check? then 4 else if s.main.Send? then 3 else 0)
  }

  function Energy(jobs: seq<Job>, s: State): nat
    requires |s.files| == |jobs|
  {
    var noted := NotedFiles(jobs, s);
    Ranks(jobs, noted, s.workers) + MessageRanks(noted, s.work) + TokenRanks(s)
  }

  lemma {:induction false} RanksUpdate(jobs: seq<Job>, noted: set<nat>, ws: seq<Worker>, i: nat, x: Worker)
    requires i < |ws|
    ensures Ranks(jobs, noted, ws[i := x]) + Rank(jobs, noted, ws[i]) == Ranks(jobs, noted, ws) + Rank(jobs, noted, x)
  {
    var n := |ws| - 1;
    if i == n {
      assert ws[i := x][..n] == ws[..n];
    } else {
      RanksUpdate(jobs, noted, ws[..n], i, x);
      assert ws[i := x][..n] == ws[..n][i := x];
    }
  }

  lemma {:induction false} MessageRanksSnoc(noted: set<nat>, work: seq<Option<nat>>, m: Option<nat>)
    ensures MessageRanks(noted, work + [m]) == MessageRanks(noted, work) + MessageRank(noted, m)
  {
    if work == [] {
      assert work + [m] == [m];
    } else {
      MessageRanksSnoc(noted, work[1..], m);
      assert (work + [m])[1..] == work[1..] + [m];
    }
  }

  ghost predicate Less(jobs: seq<Job>, t: State, s: State)
    requires ShapeOk(jobs, s) && ShapeOk(jobs, t)
  {
    || Distance(jobs, t) < Distance(jobs, s)
    || (Distance(jobs, t) == Distance(jobs, s) && Work(jobs, t) < Work(jobs, s))
    || (Distance(jobs, t) == Distance(jobs, s) && Work(jobs, t) == Work(jobs, s) &&
        (Phase(jobs, t) < Phase(jobs, s) || (Phase(jobs, t) == Phase(jobs, s) && Energy(jobs, t) < Energy(jobs, s))))
  }

  /** A worker that claims a bundle, or makes a note. */
  predicate Works(jobs: seq<Job>, s: State, w: nat)
    requires |s.files| == |jobs| && w < |s.workers|
  {
    match s.workers[w]
    case AtLock(f, _) => !Noted(jobs, s, f)
    case Noting(_, _, _) => true
    case _ => false
  }

  /** A worker's step changes at most its own file, of which only a claim takes a bundle. */
  lemma OneFileMoves(jobs: seq<Job>, s: State, w: nat, t: State)
    requires |s.files| == |jobs| && w < |s.workers| && WorkerNext(jobs, s, w) == Some(t)
    ensures |t.files| == |jobs|
    ensures var f := FileOf(s.workers[w]);
            if f == None then t.files == s.files
            else if s.workers[w].Noting? then t.files == s.files
            else
              && f.value < |jobs| && t.files == s.files[f.value := t.files[f.value]]
              && Left(jobs[f.value], t.files[f.value])
                   + Bit(s.workers[w].AtLock? && Left(jobs[f.value], s.files[f.value]) > 0)
                 == Left(jobs[f.value], s.files[f.value])
  {
  }

  lemma UnclaimedMoves(jobs: seq<Job>, s: State, w: nat, t: State)
    requires |s.files| == |jobs| && w < |s.workers| && WorkerNext(jobs, s, w) == Some(t)
    ensures |t.files| == |jobs|
    ensures Unclaimed(jobs, t.files) + Bit(s.workers[w].AtLock? && s.workers[w].file < |jobs| &&
                                           Left(jobs[s.workers[w].file], s.files[s.workers[w].file]) > 0)
         == Unclaimed(jobs, s.files)
  {
    OneFileMoves(jobs, s, w, t);
    hide WorkerNext, Left;
    var f := FileOf(s.workers[w]);
    if f.Some? && !s.workers[w].Noting? {
      UnclaimedUpdate(jobs, s.files, f.value, t.files[f.value]);
    }
  }

  lemma WorkDone(jobs: seq<Job>, s: State, w: nat, t: State)
    requires ShapeOk(jobs, s) && PlacesOk(jobs, s) && w < |s.workers| && WorkerNext(jobs, s, w) == Some(t)
    ensures |t.files| == |jobs|
    ensures if Works(jobs, s, w) then Work(jobs, t) < Work(jobs, s) else Work(jobs, t) == Work(jobs, s)
  {
    WorkerShape(jobs, s, w, t);
    FinishedMoves(jobs, s, w, t);
    UnclaimedMoves(jobs, s, w, t);
    CountUpdate(IsNoting, s.workers, w, t.workers[w]);
    if s.workers[w].AtLock? {
      assert FileOf(s.workers[w]).Some? && !Held(s.workers, s.workers[w].file);
    }
    hide WorkerNext, ShapeOk, Held;
  }

  /** Only claims and notes change what is noted. */
  lemma NotedFilesStay(jobs: seq<Job>, s: State, w: nat, t: State)
    requires ShapeOk(jobs, s) && w < |s.workers| && WorkerNext(jobs, s, w) == Some(t) && !Works(jobs, s, w)
    ensures |t.files| == |jobs| && NotedFiles(jobs, t) == NotedFiles(jobs, s)
  {
    WorkerShape(jobs, s, w, t);
    forall f: nat | f < |jobs| ensures Noted(jobs, t, f) == Noted(jobs, s, f) {
      if Noted(jobs, s, f) {
        NotedStays(jobs, s, w, t, f);
      } else {
        StaysUnnoted(jobs, s, w, t, f);
      }
    }
  }

  lemma StaysUnnoted(jobs: seq<Job>, s: State, w: nat, t: State, f: nat)
    requires ShapeOk(jobs, s) && w < |s.workers| && WorkerNext(jobs, s, w) == Some(t) && !Works(jobs, s, w)
    requires !Noted(jobs, s, f)
    ensures |t.files| == |jobs| && !Noted(jobs, t, f)
  {
    WorkerShape(jobs, s, w, t);
    FinishedMoves(jobs, s, w, t);
    if f < |jobs| {
      ClaimsMove(jobs, s, w, t, f);
    }
    CountUpdate(NotingIn(f), s.workers, w, t.workers[w]);
    hide ShapeOk, WorkerNext;
  }

  /** What any other step does to the worker itself and to the pipes. */
  lemma WorkerMoves(jobs: seq<Job>, s: State, w: nat, t: State)
    requires |s.files| == |jobs| && w < |s.workers| && WorkerNext(jobs, s, w) == Some(t) && !Works(jobs, s, w)
    ensures |t.workers| == |s.workers| && t.main == s.main && t.doRead == s.doRead
    ensures t.work == if s.workers[w].Waiting? && s.work != [] then s.work[1..] else s.work
    ensures t.replies == if s.workers[w].Replying? then s.replies + 1 else s.replies
    ensures match s.workers[w]
      case NotCreated => false
      case AtLock(f, visited) => t.workers[w].Leaving? && Noted(jobs, s, f)
      case Noting(_, _, _) => false
      case Writing(f, b, c) =>
        f < |jobs| && b < Bundles(jobs[f]) &&
        t.workers[w] == if c < |jobs[f].bundles[b]| then Writing(f, b, c + 1) else AtLock(f, true)
      case Leaving(f, e) => t.workers[w] == Cleaning(f) || t.workers[w] == Replying
      case Cleaning(f) => t.workers[w] == Replying
      case Replying => t.workers[w] == Waiting
      case Waiting => s.work != [] && t.workers[w] ==
                      (if s.work[0].Some? then AtLock(s.work[0].value, false) else Worker.Done)
      case Done => false
  {
    hide Claim, Put, PassTest, Cleanup;
  }

  /** Such a step costs energy, counting what it puts into or takes from the pipes. */
  lemma WorkerPays(jobs: seq<Job>, s: State, w: nat, t: State, noted: set<nat>)
    requires |s.files| == |jobs| && w < |s.workers| && WorkerNext(jobs, s, w) == Some(t) && |t.workers| == |s.workers|
    requires !Works(jobs, s, w) && noted == NotedFiles(jobs, s)
    ensures Rank(jobs, noted, t.workers[w]) + MessageRanks(noted, t.work) + TokenRanks(t)
          < Rank(jobs, noted, s.workers[w]) + MessageRanks(noted, s.work) + TokenRanks(s)
  {
    WorkerMoves(jobs, s, w, t);
    if s.workers[w].AtLock? {
      assert s.workers[w].file in noted;
    }
    hide WorkerNext, Noted, NotedFiles;
  }

  lemma WorkerEnergy(jobs: seq<Job>, s: State, w: nat, t: State)
    requires ShapeOk(jobs, s) && w < |s.workers| && WorkerNext(jobs, s, w) == Some(t) && !Works(jobs, s, w)
    ensures |t.files| == |jobs| && Energy(jobs, t) < Energy(jobs, s)
  {
    WorkerShape(jobs, s, w, t);
    NotedFilesStay(jobs, s, w, t);
    var noted := NotedFiles(jobs, s);
    WorkerPays(jobs, s, w, t, noted);
    RanksUpdate(jobs, noted, s.workers, w, t.workers[w]);
    hide WorkerNext, ShapeOk, Rank, MessageRank, TokenRanks, NotedFiles;
  }

  lemma SamePhase(jobs: seq<Job>, s: State, t: State)
    requires |s.files| == |jobs| == |t.files| && t.main == s.main && |t.workers| == |s.workers|
    requires NotedFiles(jobs, t) == NotedFiles(jobs, s)
    ensures Phase(jobs, t) == Phase(jobs, s)
  {
    forall f: nat ensures Noted(jobs, t, f) == Noted(jobs, s, f) {
      assert Noted(jobs, t, f) <==> f in NotedFiles(jobs, t);
      assert Noted(jobs, s, f) <==> f in NotedFiles(jobs, s);
    }
    hide Noted;
  }

  lemma WorkerLess(jobs: seq<Job>, s: State, w: nat, t: State)
    requires ShapeOk(jobs, s) && PlacesOk(jobs, s) && w < |s.workers| && WorkerNext(jobs, s, w) == Some(t)
    ensures ShapeOk(jobs, t) && Less(jobs, t, s)
  {
    WorkerShape(jobs, s, w, t);
    WorkDone(jobs, s, w, t);
    assert t.created == s.created;
    if !Works(jobs, s, w) {
      WorkerEnergy(jobs, s, w, t);
      NotedFilesStay(jobs, s, w, t);
      SamePhase(jobs, s, t);
    }
    hide WorkerNext, ShapeOk, Noted, Energy, Work, Phase;
  }

  /** Where main tests whether it may leave its loop, it does leave if the file's last claim is noted. */
  ghost predicate Sees(jobs: seq<Job>, s: State)
    requires |s.files| == |jobs|
  {
    s.main.Check? && !Once(jobs, |s.workers|, s.main.i) && Noted(jobs, s, s.main.i) ==> s.finished == s.main.i
  }

  lemma MainWork(jobs: seq<Job>, s: State, t: State)
    requires ShapeOk(jobs, s) && MainNext(jobs, s) == Some(t)
    ensures |t.files| == |jobs| && Work(jobs, t) == Work(jobs, s) && NotedFiles(jobs, t) == NotedFiles(jobs, s)
  {
    MainShape(jobs, s, t);
    CountSame(IsNoting, s.workers, t.workers);
    hide ShapeOk, MainNext, Noted;
    forall f: nat | f < |jobs| ensures Noted(jobs, t, f) == Noted(jobs, s, f) {
      NotedSame(jobs, s, t, f);
    }
  }

  /** Inside its loop, where main neither creates workers nor leaves the file. */
  lemma LoopLess(jobs: seq<Job>, s: State, t: State, j: nat)
    requires ShapeOk(jobs, s) && Sees(jobs, s) && MainNext(jobs, s) == Some(t)
    requires InLoop(s.main, j) && InLoop(t.main, j)
    requires |t.files| == |jobs| && NotedFiles(jobs, t) == NotedFiles(jobs, s)
    ensures Phase(jobs, t) < Phase(jobs, s) || (Phase(jobs, t) == Phase(jobs, s) && Energy(jobs, t) < Energy(jobs, s))
  {
    var noted := NotedFiles(jobs, s);
    assert Noted(jobs, s, j) <==> j in noted;
    assert Noted(jobs, t, j) <==> j in NotedFiles(jobs, t);
    if s.main.Send? {
      MessageRanksSnoc(noted, s.work, Some(j));
    }
    hide ShapeOk, Noted, NotedFiles, Ranks, MessageRanks;
  }

  lemma MainLess(jobs: seq<Job>, s: State, t: State)
    requires ShapeOk(jobs, s) && Sees(jobs, s) && MainNext(jobs, s) == Some(t)
    ensures ShapeOk(jobs, t) && Less(jobs, t, s)
  {
    MainShape(jobs, s, t);
    MainWork(jobs, s, t);
    if Distance(jobs, t) >= Distance(jobs, s) {
      SameDistance(jobs, s, t);
      LoopLess(jobs, s, t, CurrentFile(jobs, s.main));
    }
    hide ShapeOk, MainNext, Work, Phase, Energy;
  }

  lemma SameDistance(jobs: seq<Job>, s: State, t: State)
    requires ShapeOk(jobs, s) && ShapeOk(jobs, t) && MainNext(jobs, s) == Some(t)
    requires Distance(jobs, t) >= Distance(jobs, s)
    ensures Distance(jobs, t) == Distance(jobs, s)
    ensures InLoop(s.main, CurrentFile(jobs, s.main)) && InLoop(t.main, CurrentFile(jobs, s.main))
  {
    MainGoesOn(jobs, s, t);
    hide MainNext;
  }

  /** Where main gets by a step. */
  lemma MainGoesOn(jobs: seq<Job>, s: State, t: State)
    requires ShapeOk(jobs, s) && MainNext(jobs, s) == Some(t)
    ensures (!s.main.Opened? ==> t.created == s.created) && |t.workers| == |s.workers|
    ensures match s.main
      case NextFile(i) =>
        t.main == (if i >= |jobs| then ShutTake(0) else if jobs[i].Skip? then NextFile(i + 1) else Opened(i))
      case Opened(i) => t.main == NextFile(i + 1) || t.main == Take(i)
      case Take(i) => t.main == Check(i)
      case Check(i) => t.main == NextFile(i + 1) || t.main == Send(i)
      case Send(i) => t.main == NextFile(i + 1) || t.main == Take(i)
      case ShutTake(k) => t.main == (if k >= s.created then Joining else ShutSend(k))
      case ShutSend(k) => t.main == ShutTake(k + 1)
      case Joining => false
  {
    hide Create;
  }

  /** Every step of every thread makes the measure smaller, as long as main sees what it has to. */
  lemma StepLess(jobs: seq<Job>, s: State, t: State)
    requires Inv(jobs, s) && Sees(jobs, s) && Next(jobs, s, t)
    ensures ShapeOk(jobs, t) && Less(jobs, t, s)
  {
    hide MainNext, WorkerNext, Less, Sees, TokensOk, PlacesOk, NullsOk, FilesOk, FinishedOk, StartedOk;
    if MainNext(jobs, s) == Some(t) {
      MainLess(jobs, s, t);
    } else {
      var w :| 0 <= w < |s.workers| && WorkerNext(jobs, s, w) == Some(t);
      WorkerLess(jobs, s, w, t);
    }
  }
}
