/** The settings in which every run of the worker protocol comes to an end, however the threads are scheduled. */
module WorkerTermination {
  import opened Common
  import opened Workers
  import opened WorkerFiles
  import opened WorkerInvariant
  import opened WorkerTheorems
  import opened WorkerProgress
  import opened WorkerMeasure

  /** Main may leave file i behind while a worker has still to store that the last bundle of i is claimed, and some
      other worker is free then. */
  predicate Outrun(jobs: seq<Job>, threads: nat, i: nat) {
    && Real(jobs, i)
    && (|| Bundles(jobs[i]) == 1
        || (Sum(jobs, i) + Bundles(jobs[i]) <= threads && Bundles(jobs[i]) < threads))
  }

  /** Main sends messages for file j until it sees that the last bundle of j is claimed. */
  predicate Awaited(jobs: seq<Job>, threads: nat, j: nat) {
    j < |jobs| && Bundles(jobs[j]) > 1 && Sum(jobs, j) + Bundles(jobs[j]) > threads
  }

  /** The store for file i can come after the one for file j and hide it from main. */
  predicate Strands(jobs: seq<Job>, threads: nat, i: nat, j: nat) {
    threads > 1 && i < j && Outrun(jobs, threads, i) && Awaited(jobs, threads, j)
  }

  ghost predicate Safe(jobs: seq<Job>, threads: nat) {
    forall i: nat, j: nat :: !Strands(jobs, threads, i, j)
  }

  /** While main waits for file j, nobody has a store for an earlier file pending. */
  lemma NoStray(jobs: seq<Job>, s: State, j: nat, w: nat)
    requires Good(jobs, s) && Safe(jobs, |s.workers|)
    requires j < |jobs| && InLoop(s.main, j) && !Once(jobs, |s.workers|, j)
    requires w < |s.workers| && s.workers[w].Noting?
    ensures s.workers[w].file == j
  {
    var i := s.workers[w].file;
    CountSome(NotingIn(i), s.workers, w);
    assert FileOf(s.workers[w]) == Some(i);
    assert i <= j && Real(jobs, i) && !Noted(jobs, s, i);
    hide FilesOk, FinishedOk, StartedOk, Noted;
    if i < j {
      assert !Strands(jobs, |s.workers|, i, j) && Passable(jobs, |s.workers|, i);
      SumIsTaken(jobs, |s.workers|, i);
      MainIsHeldBack(jobs, s, i);
    }
  }

  lemma MainIsHeldBack(jobs: seq<Job>, s: State, i: nat)
    requires Good(jobs, s) && TakesAll(jobs, |s.workers|, i) && |s.files| == |jobs| && !Noted(jobs, s, i)
    requires i < Frontier(jobs, s.main)
    ensures s.main.NextFile? || s.main == ShutTake(0)
  {
    assert Captured(s, i);
  }

  lemma SumIsTaken(jobs: seq<Job>, threads: nat, i: nat)
    requires Real(jobs, i) && Passable(jobs, threads, i) && !Outrun(jobs, threads, i) && threads > 1
    ensures TakesAll(jobs, threads, i)
  {
  }

  /** While main waits for file j, `file_index_finished` is j as soon as the last claim of j is stored. */
  ghost predicate Waits(jobs: seq<Job>, s: State)
    requires |s.files| == |jobs|
  {
    forall j :: 0 <= j < |jobs| && InLoop(s.main, j) && !Once(jobs, |s.workers|, j) && Noted(jobs, s, j) ==>
      s.finished == j
  }

  lemma NoteIsSeen(jobs: seq<Job>, s: State, w: nat, t: State, j: nat)
    requires Good(jobs, s) && Safe(jobs, |s.workers|) && w < |s.workers| && WorkerNext(jobs, s, w) == Some(t)
    requires j < |jobs| && InLoop(s.main, j) && !Once(jobs, |s.workers|, j) && s.workers[w].Noting?
    ensures t.finished == j
  {
    NoStray(jobs, s, j, w);
    assert IsNoted(jobs, s, s.workers[w].seen);
    hide TokensOk, NullsOk, FilesOk, StartedOk, MainOk, CaptureOk;
    assert s.workers[w].seen >= 0 ==> s.files[s.workers[w].seen].claims != [];
  }

  lemma WorkerWaits(jobs: seq<Job>, s: State, w: nat, t: State)
    requires Good(jobs, s) && Safe(jobs, |s.workers|) && Waits(jobs, s)
    requires w < |s.workers| && WorkerNext(jobs, s, w) == Some(t)
    ensures |t.files| == |jobs| && Waits(jobs, t)
  {
    WorkerShape(jobs, s, w, t);
    FinishedMoves(jobs, s, w, t);
    hide BehindMain, MainOk, CaptureOk, Noted, Safe, WorkerNext;
    hide ShapeOk, TokensOk, NullsOk, FilesOk, FinishedOk, StartedOk;
    forall j: nat | j < |jobs| && InLoop(t.main, j) && !Once(jobs, |t.workers|, j) && Noted(jobs, t, j)
      ensures t.finished == j
    {
      if s.workers[w].Noting? {
        NoteIsSeen(jobs, s, w, t, j);
      } else if !Noted(jobs, s, j) {
        NotNotedByOthers(jobs, s, w, t, j);
      }
    }
  }

  /** A claim never makes a file noted, because the worker that claims the last bundle holds the lock until it has
      stored that it did. */
  lemma NotNotedByOthers(jobs: seq<Job>, s: State, w: nat, t: State, j: nat)
    requires ShapeOk(jobs, s) && w < |s.workers| && WorkerNext(jobs, s, w) == Some(t) && !s.workers[w].Noting?
    requires !Noted(jobs, s, j)
    ensures |t.files| == |jobs| && !Noted(jobs, t, j)
  {
    WorkerShape(jobs, s, w, t);
    if j < |jobs| {
      ClaimsMove(jobs, s, w, t, j);
    }
    CountUpdate(NotingIn(j), s.workers, w, t.workers[w]);
    hide ShapeOk;
  }

  lemma MainWaits(jobs: seq<Job>, s: State, t: State)
    requires Good(jobs, s) && Waits(jobs, s) && MainNext(jobs, s) == Some(t)
    ensures |t.files| == |jobs| && Waits(jobs, t)
  {
    MainShape(jobs, s, t);
    hide MainOk, CaptureOk, TokensOk, PlacesOk, NullsOk, FilesOk, FinishedOk, StartedOk, Noted;
    forall j: nat | j < |jobs| && InLoop(t.main, j) && !Once(jobs, |t.workers|, j) && Noted(jobs, t, j)
      ensures t.finished == j
    {
      NotedSame(jobs, s, t, j);
      if !InLoop(s.main, j) {
        LoopBegins(jobs, s, t, j);
        NothingNoted(jobs, s, j);
      }
    }
  }

  lemma LoopBegins(jobs: seq<Job>, s: State, t: State, j: nat)
    requires ShapeOk(jobs, s) && MainNext(jobs, s) == Some(t) && InLoop(t.main, j) && !InLoop(s.main, j)
    ensures s.main == Opened(j)
  {
    hide Create;
  }

  lemma NothingNoted(jobs: seq<Job>, s: State, j: nat)
    requires |s.files| == |jobs| && BehindMain(jobs, s) && Noted(jobs, s, j)
    ensures j < Frontier(jobs, s.main)
  {
    assert s.files[j].claims != [];
  }

  /** All that a safe run keeps. */
  ghost predicate Settled(jobs: seq<Job>, s: State) {
    Good(jobs, s) && |s.files| == |jobs| && Safe(jobs, |s.workers|) && Waits(jobs, s)
  }

  lemma SettledStays(jobs: seq<Job>, s: State, t: State)
    requires Settled(jobs, s) && Next(jobs, s, t)
    ensures Settled(jobs, t) && |t.workers| == |s.workers|
    ensures ShapeOk(jobs, s) && ShapeOk(jobs, t) && Less(jobs, t, s)
  {
    hide MainNext, WorkerNext, Less, Good, Safe, Waits;
    GoodStays(jobs, s, t);
    GoodIsInv(jobs, s);
    GoodIsInv(jobs, t);
    SettledSees(jobs, s);
    StepLess(jobs, s, t);
    if MainNext(jobs, s) == Some(t) {
      MainWaits(jobs, s, t);
    } else {
      var w :| 0 <= w < |s.workers| && WorkerNext(jobs, s, w) == Some(t);
      WorkerWaits(jobs, s, w, t);
    }
  }

  lemma GoodIsInv(jobs: seq<Job>, s: State)
    requires Good(jobs, s)
    ensures Inv(jobs, s) && ShapeOk(jobs, s)
  {
  }

  lemma SettledSees(jobs: seq<Job>, s: State)
    requires Settled(jobs, s)
    ensures Sees(jobs, s)
  {
    hide MainOk, CaptureOk, BehindMain, Noted, Safe;
  }

  lemma SettledStart(jobs: seq<Job>, threads: nat)
    requires threads > 0 && Safe(jobs, threads)
    ensures Settled(jobs, Init(jobs, threads))
  {
    GoodStart(jobs, threads);
    hide Safe;
  }

  lemma {:induction false} EndsFrom(jobs: seq<Job>, run: nat -> State, k: nat) returns (n: nat)
    requires Settled(jobs, run(k)) && ShapeOk(jobs, run(k))
    ensures n >= k && Settled(jobs, run(n)) && !Next(jobs, run(n), run(n + 1))
    ensures forall j :: k <= j < n ==> Next(jobs, run(j), run(j + 1))
    decreases Distance(jobs, run(k)), Work(jobs, run(k)), Phase(jobs, run(k)), Energy(jobs, run(k))
  {
    hide Settled, Next, ShapeOk, Distance, Work, Phase, Energy;
    n := k;
    if Next(jobs, run(k), run(k + 1)) {
      SettledStays(jobs, run(k), run(k + 1));
      n := EndsFrom(jobs, run, k + 1);
    }
  }

  /** Without a stranding pair of files there is no endless run: in any sequence of states that begins with the
      initial one, the steps stop. */
  lemma SafeRunsEnd(jobs: seq<Job>, threads: nat, run: nat -> State) returns (n: nat)
    requires threads > 0 && Safe(jobs, threads) && run(0) == Init(jobs, threads)
    ensures Inv(jobs, run(n)) && !Next(jobs, run(n), run(n + 1))
    ensures forall j :: 0 <= j < n ==> Next(jobs, run(j), run(j + 1))
  {
    hide Safe, Next;
    SettledStart(jobs, threads);
    GoodIsInv(jobs, run(0));
    n := EndsFrom(jobs, run, 0);
  }

  ghost predicate CanStep(jobs: seq<Job>, s: State) {
    exists t :: Next(jobs, s, t)
  }

  /** And a run that goes on while any thread can take a step arrives at its proper end, whichever thread that is. */
  lemma SafeRunsComplete(jobs: seq<Job>, threads: nat, run: nat -> State) returns (n: nat)
    requires threads > 0 && Safe(jobs, threads) && run(0) == Init(jobs, threads)
    requires forall j: nat :: CanStep(jobs, run(j)) ==> Next(jobs, run(j), run(j + 1))
    ensures Terminal(run(n))
    ensures forall j :: 0 <= j < n ==> Next(jobs, run(j), run(j + 1))
  {
    hide Next, Terminal, Safe, Inv;
    n := SafeRunsEnd(jobs, threads, run);
    OverOrNot(jobs, run(n));
  }

  lemma OverOrNot(jobs: seq<Job>, s: State)
    requires Inv(jobs, s)
    ensures Terminal(s) || CanStep(jobs, s)
  {
    if !Terminal(s) {
      NeverStuck(jobs, s);
    }
  }
}
