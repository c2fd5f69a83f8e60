/** In all other settings some run has no end: a stale value of `file_index_finished` is stored while main waits for a
    later file, and main goes on sending messages for that file for ever. */
module WorkerEndless {
  import opened Common
  import opened Workers
  import opened WorkerFiles
  import opened WorkerInvariant
  import opened WorkerTheorems
  import opened WorkerProgress
  import opened WorkerMeasure
  import opened WorkerTermination
  import opened WorkerRuns

  // A state that main cannot leave.

  /** Main waits for file j, whose last claim has been stored and overwritten. */
  ghost predicate Doomed(jobs: seq<Job>, s: State, j: nat) {
    && |s.files| == |jobs| && j < |jobs| && InLoop(s.main, j) && !Once(jobs, |s.workers|, j)
    && Noted(jobs, s, j) && s.finished != j
    && (forall w :: 0 <= w < |s.workers| && s.workers[w].Noting? ==> s.workers[w].seen != j)
  }

  lemma WorkerStaysDoomed(jobs: seq<Job>, s: State, w: nat, t: State, j: nat)
    requires ShapeOk(jobs, s) && Doomed(jobs, s, j) && w < |s.workers| && WorkerNext(jobs, s, w) == Some(t)
    ensures Doomed(jobs, t, j)
  {
    WorkerShape(jobs, s, w, t);
    NotedStays(jobs, s, w, t, j);
    FinishedMoves(jobs, s, w, t);
    if s.workers[w].Noting? && s.workers[w].file == j {
      CountSome(NotingIn(j), s.workers, w);
    }
    hide ShapeOk, WorkerNext, Noted;
  }

  lemma MainStaysDoomed(jobs: seq<Job>, s: State, t: State, j: nat)
    requires ShapeOk(jobs, s) && Doomed(jobs, s, j) && MainNext(jobs, s) == Some(t)
    ensures Doomed(jobs, t, j)
  {
    MainShape(jobs, s, t);
    NotedSame(jobs, s, t, j);
    hide ShapeOk, Noted;
  }

  lemma StaysDoomed(jobs: seq<Job>, s: State, t: State, j: nat)
    requires Inv(jobs, s) && Doomed(jobs, s, j) && Next(jobs, s, t)
    ensures Inv(jobs, t) && Doomed(jobs, t, j)
  {
    StepKeeps(jobs, s, t);
    hide MainNext, WorkerNext, Doomed, ShapeOk, TokensOk, PlacesOk, NullsOk, FilesOk, FinishedOk, StartedOk;
    if MainNext(jobs, s) == Some(t) {
      MainStaysDoomed(jobs, s, t, j);
    } else {
      var w :| 0 <= w < |s.workers| && WorkerNext(jobs, s, w) == Some(t);
      WorkerStaysDoomed(jobs, s, w, t, j);
    }
  }

  lemma DoomedGoesOn(jobs: seq<Job>, s: State, j: nat)
    requires Inv(jobs, s) && Doomed(jobs, s, j)
    ensures !Terminal(s) && CanStep(jobs, s)
  {
    hide Inv, Noted;
    NeverStuck(jobs, s);
  }

  // The way there, first part: a worker makes the last claim of file i while main goes on.

  /** The workers from lo to hi have file i, and nobody else has or will. */
  ghost predicate Entered(jobs: seq<Job>, s: State, i: nat, lo: nat, hi: nat, a: nat) {
    && |s.files| == |jobs| && Real(jobs, i) && s.main == NextFile(i + 1) && |s.files[i].claims| < Bundles(jobs[i])
    && lo <= a < hi <= |s.workers| && hi - lo < |s.workers|
    && InFile(s.workers[a], i)
    && (forall w :: lo <= w < hi && w != a ==> s.workers[w] == AtLock(i, false))
    && (forall w :: 0 <= w < |s.workers| && !(lo <= w < hi) ==> FileOf(s.workers[w]) != Some(i))
    && s.work == []
  }

  lemma EnteredMoves(jobs: seq<Job>, s: State, i: nat, lo: nat, hi: nat, a: nat)
    requires Fine(jobs, s, Free) && Entered(jobs, s, i, lo, hi, a)
    ensures WorkerNext(jobs, s, a).Some? && s.finished <= i
  {
    FineBasics(jobs, s, Free);
    assert FileInv(jobs[i], s.files[i], s.workers, i);
    assert IsNoted(jobs, s, s.finished);
    CountNone(NotingIn(i), s.workers);
    hide TokensOk, NullsOk, StartedOk, MainOk, CaptureOk;
    if s.finished >= 0 {
      assert s.files[s.finished].claims != [];
    }
  }

  /** Its next step, if it is not the last claim. */
  lemma StillEntered(jobs: seq<Job>, s: State, i: nat, lo: nat, hi: nat, a: nat, t: State)
    requires Entered(jobs, s, i, lo, hi, a) && WorkerNext(jobs, s, a) == Some(t) && !s.workers[a].Noting?
    requires a < |t.workers| && !t.workers[a].Noting?
    ensures Entered(jobs, t, i, lo, hi, a)
  {
    hide Held;
  }

  /** And if it is. */
  lemma NowStuck(jobs: seq<Job>, s: State, i: nat, lo: nat, hi: nat, a: nat, t: State)
    requires Fine(jobs, s, Free) && Entered(jobs, s, i, lo, hi, a) && WorkerNext(jobs, s, a) == Some(t)
    requires a < |t.workers| && t.workers[a].Noting? && s.finished <= i
    requires Good(jobs, t) && |t.files| == |jobs|
    ensures Fine(jobs, t, Stuck(i, lo, hi, a)) && t.main == s.main
  {
    FineBasics(jobs, s, Free);
    WorkerShape(jobs, s, a, t);
    FinishedMoves(jobs, s, a, t);
    WorkerStaysPrompt(jobs, s, a, t, Free);
    WorkerTakes(jobs, s, a, t);
    hide WorkerNext, Good, Noted, ShapeOk, Inv;
    assert FileOf(s.workers[a]) == Some(i);
  }

  lemma {:induction false} RunToLock(jobs: seq<Job>, threads: nat, run: seq<State>, i: nat, lo: nat, hi: nat, a: nat)
    returns (longer: seq<State>)
    requires Going(jobs, threads, run, Free) && Entered(jobs, Last(run), i, lo, hi, a) && ShapeOk(jobs, Last(run))
    ensures Going(jobs, threads, longer, Stuck(i, lo, hi, a)) && Last(longer).main == NextFile(i + 1)
    decreases Distance(jobs, Last(run)), Work(jobs, Last(run)), Phase(jobs, Last(run)), Energy(jobs, Last(run))
  {
    GoingBasics(jobs, threads, run, Free);
    var s := Last(run);
    EnteredMoves(jobs, s, i, lo, hi, a);
    NoLocks(jobs, s, i);
    var t := WorkerNext(jobs, s, a).value;
    WorkerStepFine(jobs, s, a, t, Free);
    hide WorkerNext, Fine, Inv, Good, IsRun, Next, Entered, ShapeOk, Distance, Work, Phase, Energy;
    if t.workers[a].Noting? {
      NowStuck(jobs, s, i, lo, hi, a, t);
      longer := Append(jobs, threads, run, t);
    } else {
      StillEntered(jobs, s, i, lo, hi, a, t);
      longer := SimpleMove(jobs, threads, run, a, t, Free);
      longer := RunToLock(jobs, threads, longer, i, lo, hi, a);
    }
  }

  /** Main gives the file to workers and goes on. */
  lemma EnterAndPass(jobs: seq<Job>, threads: nat, run: seq<State>, i: nat)
    returns (longer: seq<State>, lo: nat, hi: nat)
    requires Going(jobs, threads, run, Free) && threads > 1 && Outrun(jobs, threads, i)
    requires Last(run).main == NextFile(i) && |Last(run).files| == |jobs| && Quiet(jobs, Last(run), Free)
    ensures Going(jobs, threads, longer, Free) && Entered(jobs, Last(longer), i, lo, hi, lo)
  {
    GoingBasics(jobs, threads, run, Free);
    var s := Last(run);
    FineBasics(jobs, s, Free);
    IsReady(jobs, s, i);
    CreatedAt(jobs, s, i);
    hide Fine, Good, IsRun, Quiet, Inv, ShapeOk, Going, Sum, Entered, Ready;
    assert s.created <= threads;
    if s.created < threads {
      lo, hi := s.created, s.created + Bundles(jobs[i]);
      longer := EnterNew(jobs, threads, run, i);
    } else {
      lo, hi := 0, 1;
      longer := EnterByMessage(jobs, threads, run, i);
    }
  }

  lemma EnterNew(jobs: seq<Job>, threads: nat, run: seq<State>, i: nat) returns (longer: seq<State>)
    requires Going(jobs, threads, run, Free) && threads > 1 && Real(jobs, i) && Bundles(jobs[i]) < threads
    requires |Last(run).files| == |jobs| && |Last(run).workers| == threads && Ready(Last(run), i)
    requires Last(run).created < threads && Last(run).created + Bundles(jobs[i]) <= threads
    ensures Going(jobs, threads, longer, Free)
    ensures var c := Last(run).created; Entered(jobs, Last(longer), i, c, c + Bundles(jobs[i]), c)
  {
    hide Fine, IsRun, Entered, Create;
    longer := Enter(jobs, threads, run, i, Free);
    JustEntered(jobs, Last(run), Last(longer), i);
  }

  lemma EnterByMessage(jobs: seq<Job>, threads: nat, run: seq<State>, i: nat) returns (longer: seq<State>)
    requires Going(jobs, threads, run, Free) && threads > 1 && Real(jobs, i) && Bundles(jobs[i]) == 1
    requires |Last(run).files| == |jobs| && |Last(run).workers| == threads && Ready(Last(run), i)
    requires Last(run).created == threads
    ensures Going(jobs, threads, longer, Free) && Entered(jobs, Last(longer), i, 0, 1, 0)
  {
    hide Fine, IsRun, Entered;
    longer := Enter(jobs, threads, run, i, Free);
    assert Last(longer).workers == Last(run).workers;
    longer := Deliver(jobs, threads, longer, i, 0, Free);
    JustReceived(jobs, Last(run), Last(longer), i);
  }

  /** New workers for every bundle of the file. */
  lemma JustEntered(jobs: seq<Job>, s: State, t: State, i: nat)
    requires |s.files| == |jobs| && Real(jobs, i) && Untouched(s, i) && s.created < |s.workers|
    requires s.created + Bundles(jobs[i]) <= |s.workers| && Bundles(jobs[i]) < |s.workers|
    requires forall w :: 0 <= w < |s.workers| ==> s.workers[w] == if w < s.created then Waiting else NotCreated
    requires t.workers == Create(s.workers, s.created, Bundles(jobs[i]), i)
    requires t.files == s.files && t.work == [] && t.main == NextFile(i + 1)
    ensures Entered(jobs, t, i, s.created, s.created + Bundles(jobs[i]), s.created)
  {
    CreatedWorkers(s.workers, s.created, Bundles(jobs[i]), i);
    hide Create;
  }

  /** A message for the file's only bundle. */
  lemma JustReceived(jobs: seq<Job>, s: State, t: State, i: nat)
    requires |s.files| == |jobs| && Real(jobs, i) && Untouched(s, i) && |s.workers| > 1
    requires forall w :: 0 <= w < |s.workers| ==> s.workers[w] == Waiting
    requires t.workers == s.workers[0 := AtLock(i, false)]
    requires t.files == s.files && t.work == [] && t.main == NextFile(i + 1)
    ensures Entered(jobs, t, i, 0, 1, 0)
  {
  }

  // Second part: main reaches file j, and another worker claims all of it.

  /** Between the files, with some workers kept: the pipes are empty but for tokens that main can take. */
  lemma QuietPipes(jobs: seq<Job>, s: State, block: Blockage, j: nat)
    requires Fine(jobs, s, block) && Quiet(jobs, s, block) && j < |jobs| && s.main == NextFile(j)
    ensures s.work == [] && s.created <= |s.workers|
    ensures s.created == |s.workers| ==> Tokens(s) > 0
  {
    FineBasics(jobs, s, block);
    assert TokensOk(s) && ShapeOk(jobs, s);
    var free := NotAllKept(jobs, s, block);
    hide Quiet, FilesOk, FinishedOk, StartedOk, BehindMain, MainOk, CaptureOk, Prompt;
    if u :| 0 <= u < s.created && !Kept(block, u) {
      OthersWait(jobs, s, block, u);
      CountSome(IsWaiting, s.workers, u);
    } else {
      forall w | 0 <= w < |s.workers| ensures !s.workers[w].Waiting? {
        assert w < s.created ==> Kept(block, w);
      }
      CountNone(IsWaiting, s.workers);
    }
  }

  lemma NotAllKept(jobs: seq<Job>, s: State, block: Blockage) returns (u: nat)
    requires Fine(jobs, s, block)
    ensures u < |s.workers| && !Kept(block, u)
  {
    u := if block.Stuck? && block.lo == 0 then block.hi else 0;
  }

  /** Worker b has file j, which nobody else works on. */
  ghost predicate Claims(jobs: seq<Job>, s: State, j: nat, b: nat, block: Blockage) {
    && |s.files| == |jobs| && Real(jobs, j) && s.main == Take(j) && b < |s.workers| && !Holds(block, b)
    && InFile(s.workers[b], j) && (block.Stuck? ==> block.file != j)
  }

  lemma ReachLoop(jobs: seq<Job>, threads: nat, run: seq<State>, j: nat, block: Blockage)
    returns (longer: seq<State>, b: nat)
    requires Going(jobs, threads, run, block) && threads > 1 && Awaited(jobs, threads, j)
    requires Last(run).main == NextFile(j) && |Last(run).files| == |jobs| && Quiet(jobs, Last(run), block)
    requires block.Stuck? && block.file != j
    ensures Going(jobs, threads, longer, block) && Claims(jobs, Last(longer), j, b, block)
  {
    GoingBasics(jobs, threads, run, block);
    var s := Last(run);
    FineBasics(jobs, s, block);
    FrontierIsUntouched(jobs, s, j);
    QuietPipes(jobs, s, block, j);
    CreatedAt(jobs, s, j);
    if s.created < threads {
      b := s.created;
      NotKept(jobs, s, block, b);
      hide Fine, Good, IsRun, Quiet, Inv, ShapeOk, Sum, Claims;
      longer := LoopByNew(jobs, threads, run, j, block);
    } else {
      b := if block.lo == 0 then block.hi else 0;
      OneIsFree(jobs, s, block);
      OthersWait(jobs, s, block, b);
      hide Fine, Good, IsRun, Quiet, Inv, ShapeOk, Sum, Claims;
      longer := LoopByMessage(jobs, threads, run, j, b, block);
    }
  }

  lemma LoopByNew(jobs: seq<Job>, threads: nat, run: seq<State>, j: nat, block: Blockage) returns (longer: seq<State>)
    requires Going(jobs, threads, run, block) && threads > 1 && Real(jobs, j) && (block.Stuck? ==> block.file != j)
    requires Last(run).main == NextFile(j) && Last(run).work == [] && |Last(run).files| == |jobs|
    requires Last(run).created < threads && Last(run).created + Bundles(jobs[j]) > threads
    requires !Holds(block, Last(run).created)
    ensures Going(jobs, threads, longer, block) && Claims(jobs, Last(longer), j, Last(run).created, block)
  {
    hide Fine, IsRun, Create;
    var s := Last(run);
    longer := Enter(jobs, threads, run, j, block);
    CreatedWorkers(s.workers, s.created, threads - s.created, j);
  }

  lemma LoopByMessage(jobs: seq<Job>, threads: nat, run: seq<State>, j: nat, b: nat, block: Blockage)
    returns (longer: seq<State>)
    requires Going(jobs, threads, run, block) && threads > 1 && Real(jobs, j) && (block.Stuck? ==> block.file != j)
    requires Last(run).main == NextFile(j) && Last(run).work == [] && |Last(run).files| == |jobs|
    requires Last(run).created == threads && Tokens(Last(run)) > 0 && Bundles(jobs[j]) > 1 && Untouched(Last(run), j)
    requires |Last(run).workers| == threads && b < threads && Last(run).workers[b] == Waiting && !Holds(block, b)
    ensures Going(jobs, threads, longer, block) && Claims(jobs, Last(longer), j, b, block)
  {
    hide Fine, IsRun, Create;
    var s := Last(run);
    longer := Enter(jobs, threads, run, j, block);
    CreatedWorkers(s.workers, s.created, 0, j);
    longer := Deliver(jobs, threads, longer, j, b, block);
  }

  lemma NotKept(jobs: seq<Job>, s: State, block: Blockage, b: nat)
    requires Fine(jobs, s, block) && b < |s.workers| && s.workers[b] == NotCreated
    ensures !Holds(block, b)
  {
  }

  lemma OneIsFree(jobs: seq<Job>, s: State, block: Blockage)
    requires Fine(jobs, s, block) && block.Stuck?
    ensures var b := if block.lo == 0 then block.hi else 0; b < |s.workers| && !Kept(block, b) && !Holds(block, b)
  {
  }

  lemma ClaimsMoves(jobs: seq<Job>, s: State, j: nat, b: nat, block: Blockage)
    requires Fine(jobs, s, block) && Claims(jobs, s, j, b, block) && !Noted(jobs, s, j)
    ensures WorkerNext(jobs, s, b).Some?
    ensures !Held(s.workers, j) && |s.files[j].claims| < Bundles(jobs[j])
    ensures !s.workers[b].Noting?
  {
    FineBasics(jobs, s, block);
    assert FileInv(jobs[j], s.files[j], s.workers, j);
    CountNone(NotingIn(j), s.workers);
    hide TokensOk, PlacesOk, NullsOk, FinishedOk, StartedOk, BehindMain, MainOk, CaptureOk, ShapeOk;
  }

  lemma ClaimsGoOn(jobs: seq<Job>, s: State, j: nat, b: nat, block: Blockage)
    requires Fine(jobs, s, block) && Claims(jobs, s, j, b, block) && !Noted(jobs, s, j)
    ensures WorkerNext(jobs, s, b).Some?
    ensures Claims(jobs, After(jobs, s, b), j, b, block)
  {
    ClaimsMoves(jobs, s, j, b, block);
    FineBasics(jobs, s, block);
    AfterIs(jobs, s, b);
    InFileMoves(jobs, s, b, j);
    hide Fine, Noted, Held, After, Inv, ShapeOk, WorkerNext;
  }

  lemma {:induction false} ClaimAll(jobs: seq<Job>, threads: nat, run: seq<State>, j: nat, b: nat, block: Blockage)
    returns (longer: seq<State>)
    requires Going(jobs, threads, run, block) && Claims(jobs, Last(run), j, b, block) && ShapeOk(jobs, Last(run))
    ensures Going(jobs, threads, longer, block) && Claims(jobs, Last(longer), j, b, block)
    ensures |Last(longer).files| == |jobs| && Noted(jobs, Last(longer), j)
    decreases Distance(jobs, Last(run)), Work(jobs, Last(run)), Phase(jobs, Last(run)), Energy(jobs, Last(run))
  {
    hide Fine, IsRun, WorkerNext, After, Inv, InFile, ShapeOk, Distance, Work, Phase, Energy;
    GoingBasics(jobs, threads, run, block);
    longer := run;
    if !Noted(jobs, Last(run), j) {
      ClaimsGoOn(jobs, Last(run), j, b, block);
      longer := WorkerMove(jobs, threads, run, b, block);
      longer := ClaimAll(jobs, threads, longer, j, b, block);
    }
  }

  // Third part: the store that had to wait.

  lemma StaleStore(jobs: seq<Job>, s: State, i: nat, lo: nat, hi: nat, a: nat, j: nat, t: State)
    requires Fine(jobs, s, Stuck(i, lo, hi, a)) && s.main == Take(j) && i < j && Real(jobs, j)
    requires !Once(jobs, |s.workers|, j) && Noted(jobs, s, j)
    requires a < |s.workers| && WorkerNext(jobs, s, a) == Some(t)
    ensures Doomed(jobs, t, j) && Next(jobs, s, t) && Sane(jobs, t)
  {
    FineBasics(jobs, s, Stuck(i, lo, hi, a));
    assert Next(jobs, s, t) && s.workers[a].Noting? && s.workers[a].seen <= i && s.workers[a].file == i;
    WorkerShape(jobs, s, a, t);
    NotedStays(jobs, s, a, t, j);
    FinishedMoves(jobs, s, a, t);
    hide WorkerNext, Good, Noted, ShapeOk, Next;
  }

  /** In any setting with a stranding pair of files some run dooms main. */
  lemma DoomedRun(jobs: seq<Job>, threads: nat, i: nat, j: nat) returns (run: seq<State>)
    requires Strands(jobs, threads, i, j)
    ensures run != [] && IsRun(jobs, threads, run) && Doomed(jobs, Last(run), j)
  {
    hide IsRun, Fine, Inv, ShapeOk, WorkerNext, Good, Entered, Claims, Quiet, Noted, Doomed, Awaited, Outrun;
    run := StartRun(jobs, threads);
    GoingBasics(jobs, threads, run, Free);
    assert i < j < |jobs| by { StrandsInside(jobs, threads, i, j); }
    run := Approach(jobs, threads, run, i, Free);
    var lo, hi;
    run, lo, hi := EnterAndPass(jobs, threads, run, i);
    GoingBasics(jobs, threads, run, Free);
    run := RunToLock(jobs, threads, run, i, lo, hi, lo);
    var block := Stuck(i, lo, hi, lo);
    GoingBasics(jobs, threads, run, block);
    run := Approach(jobs, threads, run, j, block);
    var b;
    run, b := ReachLoop(jobs, threads, run, j, block);
    GoingBasics(jobs, threads, run, block);
    run := ClaimAll(jobs, threads, run, j, b, block);
    run := LetGo(jobs, threads, run, i, lo, hi, lo, j, b);
  }

  lemma StrandsInside(jobs: seq<Job>, threads: nat, i: nat, j: nat)
    requires Strands(jobs, threads, i, j)
    ensures i < j < |jobs| && Real(jobs, j) && !Once(jobs, threads, j)
  {
  }

  lemma LetGo(jobs: seq<Job>, threads: nat, run: seq<State>, i: nat, lo: nat, hi: nat, a: nat, j: nat, b: nat)
    returns (longer: seq<State>)
    requires Going(jobs, threads, run, Stuck(i, lo, hi, a)) && Claims(jobs, Last(run), j, b, Stuck(i, lo, hi, a))
    requires Strands(jobs, threads, i, j) && |Last(run).files| == |jobs| && Noted(jobs, Last(run), j)
    ensures longer != [] && IsRun(jobs, threads, longer) && Doomed(jobs, Last(longer), j)
  {
    var block := Stuck(i, lo, hi, a);
    GoingBasics(jobs, threads, run, block);
    StrandsInside(jobs, threads, i, j);
    HolderMoves(jobs, Last(run), block);
    var t := WorkerNext(jobs, Last(run), a).value;
    StaleStore(jobs, Last(run), i, lo, hi, a, j, t);
    hide Fine, WorkerNext, Next, Sane, Doomed, Inv;
    longer := Append(jobs, threads, run, t);
  }

  lemma HolderMoves(jobs: seq<Job>, s: State, block: Blockage)
    requires Fine(jobs, s, block) && block.Stuck?
    ensures block.holder < |s.workers| && WorkerNext(jobs, s, block.holder).Some?
  {
  }

  // What follows for whole runs.

  ghost function Chosen(jobs: seq<Job>, s: State): State {
    if CanStep(jobs, s) then var t :| Next(jobs, s, t); t else s
  }

  /** A run carried on for ever. */
  ghost function Endless(jobs: seq<Job>, run: seq<State>, n: nat): State
    requires run != []
  {
    if n < |run| then run[n] else Chosen(jobs, Endless(jobs, run, n - 1))
  }

  lemma {:induction false} EndlessIsDoomed(jobs: seq<Job>, threads: nat, run: seq<State>, j: nat, n: nat)
    requires threads > 0 && run != [] && IsRun(jobs, threads, run) && Doomed(jobs, Last(run), j) && n + 1 >= |run|
    ensures Inv(jobs, Endless(jobs, run, n)) && Doomed(jobs, Endless(jobs, run, n), j)
    ensures Next(jobs, Endless(jobs, run, n), Endless(jobs, run, n + 1))
  {
    hide Inv, Doomed, Next, IsRun;
    if n + 1 == |run| {
      RunKeeps(jobs, threads, run, n);
    } else {
      EndlessIsDoomed(jobs, threads, run, j, n - 1);
      StaysDoomed(jobs, Endless(jobs, run, n - 1), Endless(jobs, run, n), j);
    }
    DoomedGoesOn(jobs, Endless(jobs, run, n), j);
  }

  ghost predicate Starts(jobs: seq<Job>, threads: nat, run: nat -> State) {
    run(0) == Init(jobs, threads)
  }

  /** The sequence of states goes on only so far by steps. */
  ghost predicate Ends(jobs: seq<Job>, run: nat -> State) {
    exists n: nat :: !Next(jobs, run(n), run(n + 1))
  }

  lemma SomeRunIsEndless(jobs: seq<Job>, threads: nat, i: nat, j: nat) returns (run: nat -> State)
    requires Strands(jobs, threads, i, j)
    ensures Starts(jobs, threads, run) && !Ends(jobs, run)
  {
    hide Strands, Doomed, Next;
    var finite := DoomedRun(jobs, threads, i, j);
    assert threads > 0 by { ManyThreads(jobs, threads, i, j); }
    run := (n: nat) => Endless(jobs, finite, n);
    forall n: nat ensures Next(jobs, run(n), run(n + 1)) {
      if n + 1 < |finite| {
        assert Next(jobs, finite[n + 1 - 1], finite[n + 1]);
      } else {
        EndlessIsDoomed(jobs, threads, finite, j, n);
      }
    }
  }

  lemma ManyThreads(jobs: seq<Job>, threads: nat, i: nat, j: nat)
    requires Strands(jobs, threads, i, j)
    ensures threads > 1
  {
  }

  /** Every run of the protocol ends if and only if there is no stranding pair of files: which can be checked before
      the download begins. */
  lemma EveryRunEnds(jobs: seq<Job>, threads: nat)
    requires threads > 0
    ensures (forall run: nat -> State :: Starts(jobs, threads, run) ==> Ends(jobs, run)) <==> Safe(jobs, threads)
  {
    hide Strands, Next;
    if Safe(jobs, threads) {
      forall run: nat -> State | Starts(jobs, threads, run) ensures Ends(jobs, run) {
        var n := SafeRunsEnd(jobs, threads, run);
      }
    } else {
      var i: nat, j: nat :| Strands(jobs, threads, i, j);
      var run := SomeRunIsEndless(jobs, threads, i, j);
    }
  }

  ghost predicate CanComplete(jobs: seq<Job>, threads: nat, run: seq<State>) {
    exists full :: run <= full && IsCompleteRun(jobs, threads, full)
  }

  lemma {:induction false} RunIsSettled(jobs: seq<Job>, threads: nat, run: seq<State>, i: nat)
    requires threads > 0 && Safe(jobs, threads) && IsRun(jobs, threads, run) && i < |run|
    ensures Settled(jobs, run[i])
  {
    hide Settled, Safe, Next;
    if i == 0 {
      SettledStart(jobs, threads);
    } else {
      RunIsSettled(jobs, threads, run, i - 1);
      SettledStays(jobs, run[i - 1], run[i]);
    }
  }

  lemma SettledBasics(jobs: seq<Job>, s: State)
    requires Settled(jobs, s)
    ensures Inv(jobs, s) && ShapeOk(jobs, s) && Sane(jobs, s)
  {
  }

  lemma {:induction false} SafeCompletes(jobs: seq<Job>, threads: nat, run: seq<State>) returns (full: seq<State>)
    requires threads > 0 && run != [] && IsRun(jobs, threads, run)
    requires Settled(jobs, Last(run)) && ShapeOk(jobs, Last(run))
    ensures run <= full && IsCompleteRun(jobs, threads, full)
    decreases Distance(jobs, Last(run)), Work(jobs, Last(run)), Phase(jobs, Last(run)), Energy(jobs, Last(run))
  {
    SettledBasics(jobs, Last(run));
    hide Settled, Next, Terminal, Inv, IsRun, ShapeOk, Distance, Work, Phase, Energy;
    full := run;
    if !Terminal(Last(run)) {
      NeverStuck(jobs, Last(run));
      var t :| Next(jobs, Last(run), t);
      SettledStays(jobs, Last(run), t);
      SettledBasics(jobs, t);
      full := Append(jobs, threads, run, t);
      full := SafeCompletes(jobs, threads, full);
    }
  }

  /** A doomed run never gets to the joins. */
  lemma {:induction false} DoomedStaysDoomed(jobs: seq<Job>, threads: nat, run: seq<State>, full: seq<State>, j: nat,
                                             n: nat)
    requires threads > 0 && run != [] && IsRun(jobs, threads, full) && run <= full && Doomed(jobs, Last(run), j)
    requires |run| - 1 <= n < |full|
    ensures Doomed(jobs, full[n], j)
    decreases n
  {
    hide Doomed, Inv, Next;
    if n >= |run| {
      DoomedStaysDoomed(jobs, threads, run, full, j, n - 1);
      RunKeeps(jobs, threads, full, n - 1);
      assert Next(jobs, full[n - 1], full[n]);
      StaysDoomed(jobs, full[n - 1], full[n], j);
    }
  }

  lemma DoomedCannotComplete(jobs: seq<Job>, threads: nat, run: seq<State>, j: nat)
    requires threads > 0 && run != [] && Doomed(jobs, Last(run), j)
    ensures !CanComplete(jobs, threads, run)
  {
    hide IsRun;
    forall full | run <= full && IsRun(jobs, threads, full) ensures !IsCompleteRun(jobs, threads, full) {
      DoomedStaysDoomed(jobs, threads, run, full, j, |full| - 1);
    }
  }

  /** And under the same condition, every run, wherever it stands, can be carried on to its proper end. */
  lemma EveryRunCanComplete(jobs: seq<Job>, threads: nat)
    requires threads > 0
    ensures (forall run :: run != [] && IsRun(jobs, threads, run) ==> CanComplete(jobs, threads, run))
       <==> Safe(jobs, threads)
  {
    hide Strands, Next, Settled, Doomed, IsCompleteRun;
    if Safe(jobs, threads) {
      forall run | run != [] && IsRun(jobs, threads, run) ensures CanComplete(jobs, threads, run) {
        RunIsSettled(jobs, threads, run, |run| - 1);
        SettledBasics(jobs, Last(run));
        var full := SafeCompletes(jobs, threads, run);
      }
    } else {
      var i: nat, j: nat :| Strands(jobs, threads, i, j);
      var run := DoomedRun(jobs, threads, i, j);
      DoomedCannotComplete(jobs, threads, run, j);
    }
  }

  /** A file with one bundle, and then one with two. */
  const TWO_FILES: seq<Job> :=
    [Dispatch([5], [0, 0], [[Write(0, [5])]]),
     Dispatch([7, 9], [0, 0, 0], [[Write(0, [7])], [Write(1, [9])]])]

  /** The smallest case: two threads are enough. */
  lemma TwoThreadsTwoFiles() returns (run: nat -> State)
    ensures Starts(TWO_FILES, 2, run) && !Ends(TWO_FILES, run)
  {
    assert Sum(TWO_FILES, 1) == Sum(TWO_FILES, 0) + 1;
    run := SomeRunIsEndless(TWO_FILES, 2, 0, 1);
  }
}
