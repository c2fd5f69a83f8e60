/** Building runs step by step: every worker that claims a last bundle stores that at once, except one that may be
    kept waiting inside its locked section. */
module WorkerRuns {
  import opened Common
  import opened Workers
  import opened WorkerFiles
  import opened WorkerInvariant
  import opened WorkerTheorems
  import opened WorkerProgress
  import opened WorkerMeasure
  import opened WorkerTermination

  /** Which workers are kept waiting: nobody, or the workers from lo to hi, all of them in one file. One of these
      holds the file's lock, and the others wait for it. */
  datatype Blockage = Free | Stuck(file: nat, lo: nat, hi: nat, holder: nat)

  predicate Kept(block: Blockage, w: nat) {
    block.Stuck? && block.lo <= w < block.hi
  }

  predicate Holds(block: Blockage, w: nat) {
    block.Stuck? && block.holder == w
  }

  ghost predicate Blocked(jobs: seq<Job>, s: State, block: Blockage) {
    match block
    case Free => true
    case Stuck(i, lo, hi, a) =>
      && lo <= a < hi <= |s.workers| && hi - lo < |s.workers| && i < CurrentFile(jobs, s.main)
      && Fits(NotingIn(i), s.workers[a]) && s.workers[a].seen <= i
      && (forall w :: lo <= w < hi && w != a ==> s.workers[w] == AtLock(i, false))
      && (forall w :: 0 <= w < |s.workers| && !(lo <= w < hi) ==> FileOf(s.workers[w]) != Some(i))
      && (forall m :: 0 <= m < |s.work| ==> s.work[m] != Some(i))
  }

  /** Nobody else has a store pending, and so `file_index_finished` is the greatest noted file. */
  ghost predicate Prompt(jobs: seq<Job>, s: State, block: Blockage)
    requires |s.files| == |jobs|
  {
    && (forall f: nat :: Noted(jobs, s, f) ==> f <= s.finished)
    && (forall w :: 0 <= w < |s.workers| && s.workers[w].Noting? ==> Holds(block, w))
  }

  ghost predicate Fine(jobs: seq<Job>, s: State, block: Blockage) {
    Good(jobs, s) && |s.files| == |jobs| && Blocked(jobs, s, block) && Prompt(jobs, s, block)
  }

  ghost predicate Going(jobs: seq<Job>, threads: nat, run: seq<State>, block: Blockage) {
    && threads > 0 && run != [] && IsRun(jobs, threads, run) && |Last(run).workers| == threads
    && Fine(jobs, Last(run), block)
  }

  lemma FineBasics(jobs: seq<Job>, s: State, block: Blockage)
    requires Fine(jobs, s, block)
    ensures Inv(jobs, s) && ShapeOk(jobs, s) && Sane(jobs, s) && Good(jobs, s)
  {
  }

  lemma GoingBasics(jobs: seq<Job>, threads: nat, run: seq<State>, block: Blockage)
    requires Going(jobs, threads, run, block)
    ensures Fine(jobs, Last(run), block) && Inv(jobs, Last(run)) && ShapeOk(jobs, Last(run)) && Sane(jobs, Last(run))
    ensures |Last(run).workers| == threads && |Last(run).files| == |jobs|
  {
  }

  /** Main sees what it has to. */
  lemma PromptSees(jobs: seq<Job>, s: State, block: Blockage)
    requires Fine(jobs, s, block)
    ensures Sees(jobs, s)
  {
    hide MainOk, CaptureOk, Blocked, TokensOk, NullsOk, FilesOk, PlacesOk, StartedOk;
    if s.finished >= 0 {
      assert s.files[s.finished].claims != [];
    }
  }

  lemma StartRun(jobs: seq<Job>, threads: nat) returns (run: seq<State>)
    requires threads > 0
    ensures Going(jobs, threads, run, Free) && Last(run).main == NextFile(0)
  {
    GoodStart(jobs, threads);
    hide Good;
    run := [Init(jobs, threads)];
  }

  /** One step more, to a state of which everything is known. */
  lemma Append(jobs: seq<Job>, threads: nat, run: seq<State>, t: State) returns (longer: seq<State>)
    requires run != [] && IsRun(jobs, threads, run) && Next(jobs, Last(run), t) && Sane(jobs, t)
    ensures longer == run + [t] && IsRun(jobs, threads, longer)
  {
    hide Next, Sane;
    longer := run + [t];
  }

  // Steps of main.

  lemma MainKeepsBlock(jobs: seq<Job>, s: State, t: State, block: Blockage)
    requires ShapeOk(jobs, s) && Blocked(jobs, s, block) && MainNext(jobs, s) == Some(t)
    ensures Blocked(jobs, t, block)
  {
    MainShape(jobs, s, t);
    MainMessages(jobs, s, t);
    hide MainNext;
    match block
    case Free =>
    case Stuck(i, lo, hi, a) =>
      forall w | 0 <= w < |t.workers| && !(lo <= w < hi) ensures FileOf(t.workers[w]) != Some(i) {
        assert FileOf(s.workers[w]) != Some(i);
      }
  }

  lemma MainMessages(jobs: seq<Job>, s: State, t: State)
    requires ShapeOk(jobs, s) && MainNext(jobs, s) == Some(t)
    ensures CurrentFile(jobs, s.main) <= CurrentFile(jobs, t.main)
    ensures t.work == s.work || t.work == s.work + [None] || (s.main.Send? && t.work == s.work + [Some(s.main.i)])
  {
    hide Create;
  }

  lemma MainStaysPrompt(jobs: seq<Job>, s: State, t: State, block: Blockage)
    requires ShapeOk(jobs, s) && Prompt(jobs, s, block) && MainNext(jobs, s) == Some(t)
    ensures |t.files| == |jobs| && Prompt(jobs, t, block)
  {
    MainShape(jobs, s, t);
    hide MainNext, ShapeOk, Noted;
    forall f: nat | Noted(jobs, t, f) ensures f <= t.finished {
      NotedSame(jobs, s, t, f);
    }
  }

  lemma MainMove(jobs: seq<Job>, threads: nat, run: seq<State>, block: Blockage) returns (longer: seq<State>)
    requires Going(jobs, threads, run, block) && Sane(jobs, Last(run)) && MainNext(jobs, Last(run)).Some?
    ensures Going(jobs, threads, longer, block) && Last(longer) == MainNext(jobs, Last(run)).value
    ensures longer == run + [Last(longer)]
    ensures ShapeOk(jobs, Last(run)) && ShapeOk(jobs, Last(longer)) && Less(jobs, Last(longer), Last(run))
  {
    var t := MainNext(jobs, Last(run)).value;
    MainStepFine(jobs, Last(run), t, block);
    hide MainNext, Fine, Less, Next, ShapeOk, Sane;
    longer := Append(jobs, threads, run, t);
  }

  lemma MainStepFine(jobs: seq<Job>, s: State, t: State, block: Blockage)
    requires Fine(jobs, s, block) && Sane(jobs, s) && MainNext(jobs, s) == Some(t)
    ensures Next(jobs, s, t) && Fine(jobs, t, block) && Sane(jobs, t) && |t.workers| == |s.workers|
    ensures ShapeOk(jobs, s) && ShapeOk(jobs, t) && Less(jobs, t, s)
  {
    assert Next(jobs, s, t);
    FineBasics(jobs, s, block);
    PromptSees(jobs, s, block);
    hide MainNext, Less, Blocked, Prompt, BehindMain, MainOk, CaptureOk, Inv, Sees;
    GoodStays(jobs, s, t);
    StepLess(jobs, s, t);
    MainKeepsBlock(jobs, s, t, block);
    MainStaysPrompt(jobs, s, t, block);
    FineBasics(jobs, t, block);
  }

  // Steps of a worker.

  lemma OthersAreFree(jobs: seq<Job>, s: State, w: nat, block: Blockage)
    requires Blocked(jobs, s, block) && w < |s.workers| && |s.files| == |jobs|
    requires WorkerNext(jobs, s, w).Some? && !Holds(block, w)
    ensures !Kept(block, w)
  {
    if Kept(block, w) {
      CountSome(NotingIn(block.file), s.workers, block.holder);
    }
  }

  lemma WorkerKeepsBlock(jobs: seq<Job>, s: State, w: nat, t: State, block: Blockage)
    requires ShapeOk(jobs, s) && Blocked(jobs, s, block)
    requires w < |s.workers| && WorkerNext(jobs, s, w) == Some(t) && !Holds(block, w)
    ensures Blocked(jobs, t, block)
  {
    WorkerShape(jobs, s, w, t);
    OthersAreFree(jobs, s, w, block);
    WorkerTakes(jobs, s, w, t);
    hide WorkerNext, ShapeOk;
  }

  /** A worker enters a file only on a message, and stays in it until it leaves. */
  lemma WorkerTakes(jobs: seq<Job>, s: State, w: nat, t: State)
    requires |s.files| == |jobs| && w < |s.workers| && WorkerNext(jobs, s, w) == Some(t)
    ensures |t.workers| == |s.workers| && (t.work == s.work || (s.work != [] && t.work == s.work[1..]))
    ensures FileOf(t.workers[w]).Some? ==>
              || FileOf(s.workers[w]) == FileOf(t.workers[w])
              || (s.work != [] && s.work[0] == FileOf(t.workers[w]))
  {
    hide Claim, Put, PassTest, Cleanup, Held;
  }

  /** A step that is no store leaves the run prompt, except that it may leave a store to be made. */
  lemma WorkerStaysPrompt(jobs: seq<Job>, s: State, w: nat, t: State, block: Blockage)
    requires ShapeOk(jobs, s) && Prompt(jobs, s, block)
    requires w < |s.workers| && WorkerNext(jobs, s, w) == Some(t) && !s.workers[w].Noting?
    ensures |t.files| == |jobs| && t.finished == s.finished && |t.workers| == |s.workers|
    ensures forall f: nat :: Noted(jobs, t, f) ==> f <= t.finished
    ensures forall v :: 0 <= v < |t.workers| && v != w && t.workers[v].Noting? ==> Holds(block, v)
  {
    WorkerShape(jobs, s, w, t);
    FinishedMoves(jobs, s, w, t);
    hide WorkerNext, ShapeOk, Noted;
    forall f: nat | Noted(jobs, t, f) ensures f <= t.finished {
      if !Noted(jobs, s, f) {
        NotNotedByOthers(jobs, s, w, t, f);
      }
    }
  }

  /** And the store makes it prompt again. */
  lemma StoreIsPrompt(jobs: seq<Job>, s: State, w: nat, t: State, block: Blockage)
    requires ShapeOk(jobs, s) && w < |s.workers| && WorkerNext(jobs, s, w) == Some(t) && s.workers[w].Noting?
    requires s.workers[w].seen == s.finished && forall f: nat :: Noted(jobs, s, f) ==> f <= s.finished
    requires forall v :: 0 <= v < |s.workers| && v != w && s.workers[v].Noting? ==> Holds(block, v)
    ensures |t.files| == |jobs| && Prompt(jobs, t, block) && t.finished == Max(s.finished, s.workers[w].file)
    ensures t.files == s.files
  {
    WorkerShape(jobs, s, w, t);
    FinishedMoves(jobs, s, w, t);
    assert t.files == s.files && t.workers[w].Writing?;
    hide WorkerNext, ShapeOk;
    forall f: nat | Noted(jobs, t, f) ensures f <= t.finished {
      CountUpdate(NotingIn(f), s.workers, w, t.workers[w]);
      if f != s.workers[w].file {
        assert Noted(jobs, s, f);
      }
    }
  }

  /** A worker's step, with the store that ends the locked section if it is a last claim. */
  function After(jobs: seq<Job>, s: State, w: nat): State
    requires |s.files| == |jobs| && w < |s.workers| && WorkerNext(jobs, s, w).Some?
  {
    var t := WorkerNext(jobs, s, w).value;
    if |t.files| == |jobs| && w < |t.workers| && t.workers[w].Noting? && WorkerNext(jobs, t, w).Some?
    then WorkerNext(jobs, t, w).value else t
  }

  lemma AfterIs(jobs: seq<Job>, s: State, w: nat)
    requires ShapeOk(jobs, s) && w < |s.workers| && WorkerNext(jobs, s, w).Some?
    ensures var t := WorkerNext(jobs, s, w).value;
            && |t.files| == |jobs| && |t.workers| == |s.workers|
            && After(jobs, s, w) ==
                 (if t.workers[w].Noting?
                  then t.(workers := t.workers[w := Writing(t.workers[w].file, t.workers[w].bundle, 0)],
                          finished := Max(t.workers[w].seen, t.workers[w].file))
                  else t)
  {
    WorkerShape(jobs, s, w, WorkerNext(jobs, s, w).value);
    FinishedMoves(jobs, s, w, WorkerNext(jobs, s, w).value);
  }

  /** A worker in a file that takes the lock, or goes on writing. */
  lemma InFileMoves(jobs: seq<Job>, s: State, w: nat, f: nat)
    requires ShapeOk(jobs, s) && w < |s.workers| && f < |jobs| && WorkerNext(jobs, s, w).Some?
    requires InFile(s.workers[w], f) && !s.workers[w].Noting?
    ensures var t := WorkerNext(jobs, s, w).value;
            && t.main == s.main && t.work == s.work && |t.files| == |jobs| && |t.workers| == |s.workers|
            && t.workers == s.workers[w := t.workers[w]] && t.files[f].passed == s.files[f].passed
            && if s.workers[w].AtLock? then
                 && t.workers[w] == Claimed(f, |s.files[f].claims|, Bundles(jobs[f]), s.finished)
                 && |t.files[f].claims| == |s.files[f].claims| + 1
                 && t.files[f].visitors == s.files[f].visitors + Bit(!s.workers[w].visited)
               else
                 && (t.workers[w] == AtLock(f, true) || (t.workers[w].Writing? && t.workers[w].file == f))
                 && |t.files[f].claims| == |s.files[f].claims| && t.files[f].visitors == s.files[f].visitors
  {
    hide Held;
  }

  lemma LessIsTransitive(jobs: seq<Job>, s: State, t: State, u: State)
    requires ShapeOk(jobs, s) && ShapeOk(jobs, t) && ShapeOk(jobs, u) && Less(jobs, t, s) && Less(jobs, u, t)
    ensures Less(jobs, u, s)
  {
    hide Distance, Work, Phase, Energy, ShapeOk;
  }

  /** A step without a store to follow. */
  lemma SimpleMove(jobs: seq<Job>, threads: nat, run: seq<State>, w: nat, t: State, block: Blockage)
    returns (longer: seq<State>)
    requires Going(jobs, threads, run, block) && |Last(run).files| == |jobs| && w < |Last(run).workers|
    requires WorkerNext(jobs, Last(run), w) == Some(t) && !Holds(block, w)
    requires w < |t.workers| && !t.workers[w].Noting?
    ensures Going(jobs, threads, longer, block) && longer == run + [t]
    ensures ShapeOk(jobs, Last(run)) && ShapeOk(jobs, t) && Less(jobs, t, Last(run))
  {
    WorkerStepFine(jobs, Last(run), w, t, block);
    NowPrompt(jobs, Last(run), w, t, block);
    FineBasics(jobs, t, block);
    hide WorkerNext, Fine, Less, Next, ShapeOk, Sane;
    longer := Append(jobs, threads, run, t);
  }

  lemma WorkerStepFine(jobs: seq<Job>, s: State, w: nat, t: State, block: Blockage)
    requires Fine(jobs, s, block) && |s.files| == |jobs| && w < |s.workers|
    requires WorkerNext(jobs, s, w) == Some(t) && !Holds(block, w)
    ensures Next(jobs, s, t) && Good(jobs, t) && Blocked(jobs, t, block) && |t.files| == |jobs|
    ensures |t.workers| == |s.workers| && t.finished == (if s.workers[w].Noting? then t.finished else s.finished)
    ensures ShapeOk(jobs, s) && ShapeOk(jobs, t) && Less(jobs, t, s)
  {
    FineBasics(jobs, s, block);
    assert Next(jobs, s, t);
    PromptSees(jobs, s, block);
    FinishedMoves(jobs, s, w, t);
    WorkerKeepsBlock(jobs, s, w, t, block);
    hide WorkerNext, Less, Blocked, Prompt, BehindMain, MainOk, CaptureOk, Inv, Sees;
    GoodStays(jobs, s, t);
    StepLess(jobs, s, t);
    GoodShape(jobs, t);
  }

  lemma GoodShape(jobs: seq<Job>, s: State)
    requires Good(jobs, s)
    ensures Inv(jobs, s) && ShapeOk(jobs, s) && Sane(jobs, s)
  {
  }

  lemma NowPrompt(jobs: seq<Job>, s: State, w: nat, t: State, block: Blockage)
    requires Fine(jobs, s, block) && |s.files| == |jobs| && w < |s.workers|
    requires WorkerNext(jobs, s, w) == Some(t) && !Holds(block, w) && w < |t.workers| && !t.workers[w].Noting?
    requires Good(jobs, t) && Blocked(jobs, t, block) && |t.files| == |jobs|
    ensures Fine(jobs, t, block)
  {
    FineBasics(jobs, s, block);
    assert !s.workers[w].Noting?;
    WorkerStaysPrompt(jobs, s, w, t, block);
    hide WorkerNext, Good, Blocked, Noted;
  }

  /** A last claim, and its store. */
  lemma DoubleMove(jobs: seq<Job>, threads: nat, run: seq<State>, w: nat, t: State, block: Blockage)
    returns (longer: seq<State>)
    requires Going(jobs, threads, run, block) && |Last(run).files| == |jobs| && w < |Last(run).workers|
    requires WorkerNext(jobs, Last(run), w) == Some(t) && !Holds(block, w)
    requires w < |t.workers| && t.workers[w].Noting?
    ensures Going(jobs, threads, longer, block) && Last(longer) == After(jobs, Last(run), w)
    ensures longer == run + [t] + [Last(longer)]
    ensures ShapeOk(jobs, Last(run)) && ShapeOk(jobs, Last(longer)) && Less(jobs, Last(longer), Last(run))
  {
    var s := Last(run);
    FineBasics(jobs, s, block);
    WorkerStepFine(jobs, s, w, t, block);
    FinishedMoves(jobs, s, w, t);
    WorkerStaysPrompt(jobs, s, w, t, block);
    AfterIs(jobs, s, w);
    GoodShape(jobs, t);
    StoreFine(jobs, w, t, block);
    hide WorkerNext, After, Fine, Good, Less, Next, ShapeOk, Sane, Noted, Blocked, IsRun;
    longer := TwoSteps(jobs, threads, run, t, After(jobs, s, w), block);
  }

  lemma TwoSteps(jobs: seq<Job>, threads: nat, run: seq<State>, t: State, u: State, block: Blockage)
    returns (longer: seq<State>)
    requires threads > 0 && run != [] && IsRun(jobs, threads, run) && |Last(run).workers| == threads
    requires Next(jobs, Last(run), t) && Next(jobs, t, u) && Fine(jobs, u, block) && |u.workers| == threads
    requires ShapeOk(jobs, Last(run)) && ShapeOk(jobs, t) && ShapeOk(jobs, u)
    requires Sane(jobs, t) && Less(jobs, t, Last(run)) && Less(jobs, u, t)
    ensures longer == run + [t] + [u] && Going(jobs, threads, longer, block) && Less(jobs, u, Last(run))
  {
    LessIsTransitive(jobs, Last(run), t, u);
    FineBasics(jobs, u, block);
    hide Fine, Less, Next, ShapeOk, Sane;
    longer := Append(jobs, threads, run, t);
    longer := Append(jobs, threads, longer, u);
  }

  /** The store after a last claim. */
  lemma StoreFine(jobs: seq<Job>, w: nat, t: State, block: Blockage)
    requires Good(jobs, t) && |t.files| == |jobs| && w < |t.workers| && t.workers[w].Noting?
    requires t.workers[w].seen == t.finished && !Holds(block, w) && Blocked(jobs, t, block)
    requires forall f: nat :: Noted(jobs, t, f) ==> f <= t.finished
    requires forall v :: 0 <= v < |t.workers| && v != w && t.workers[v].Noting? ==> Holds(block, v)
    ensures WorkerNext(jobs, t, w).Some? && var u := WorkerNext(jobs, t, w).value;
            && Next(jobs, t, u) && Fine(jobs, u, block) && |u.workers| == |t.workers|
            && ShapeOk(jobs, t) && ShapeOk(jobs, u) && Less(jobs, u, t)
  {
    GoodShape(jobs, t);
    var u := WorkerNext(jobs, t, w).value;
    assert Next(jobs, t, u);
    StoreSees(jobs, t);
    WorkerKeepsBlock(jobs, t, w, u, block);
    StoreIsPrompt(jobs, t, w, u, block);
    hide WorkerNext, Less, Blocked, Prompt, BehindMain, MainOk, CaptureOk, Inv, Sees;
    GoodStays(jobs, t, u);
    StepLess(jobs, t, u);
    GoodShape(jobs, u);
  }

  lemma StoreSees(jobs: seq<Job>, s: State)
    requires Good(jobs, s) && |s.files| == |jobs| && forall f: nat :: Noted(jobs, s, f) ==> f <= s.finished
    ensures Sees(jobs, s)
  {
    hide MainOk, CaptureOk, TokensOk, NullsOk, FilesOk, PlacesOk, StartedOk;
    if s.finished >= 0 {
      assert s.files[s.finished].claims != [];
    }
  }

  lemma WorkerMove(jobs: seq<Job>, threads: nat, run: seq<State>, w: nat, block: Blockage) returns (longer: seq<State>)
    requires Going(jobs, threads, run, block) && |Last(run).files| == |jobs| && w < |Last(run).workers|
    requires WorkerNext(jobs, Last(run), w).Some? && !Holds(block, w)
    ensures Going(jobs, threads, longer, block) && Last(longer) == After(jobs, Last(run), w)
    ensures |longer| > |run| + 1 || longer == run + [Last(longer)]
    ensures run <= longer && |longer| > |run| && longer[|run|] == WorkerNext(jobs, Last(run), w).value
    ensures ShapeOk(jobs, Last(run)) && ShapeOk(jobs, Last(longer)) && Less(jobs, Last(longer), Last(run))
  {
    var t := WorkerNext(jobs, Last(run), w).value;
    GoingBasics(jobs, threads, run, block);
    WorkerShape(jobs, Last(run), w, t);
    if t.workers[w].Noting? {
      longer := DoubleMove(jobs, threads, run, w, t, block);
    } else {
      longer := SimpleMove(jobs, threads, run, w, t, block);
    }
  }

  // The way to a file: workers first, main only when no worker can do anything.

  ghost predicate Quiet(jobs: seq<Job>, s: State, block: Blockage)
    requires |s.files| == |jobs|
  {
    forall w :: 0 <= w < |s.workers| && !Holds(block, w) ==> WorkerNext(jobs, s, w) == None
  }

  /** When nothing moves before the shutdown, all created workers that are not kept wait for a message. */
  lemma OthersWait(jobs: seq<Job>, s: State, block: Blockage, w: nat)
    requires Fine(jobs, s, block) && Quiet(jobs, s, block) && CurrentFile(jobs, s.main) < |jobs|
    requires w < s.created <= |s.workers| && !Kept(block, w)
    ensures s.workers[w] == Waiting && s.work == []
  {
    assert !Holds(block, w);
    assert WorkerNext(jobs, s, w) == None && ShapeOk(jobs, s) && Sent(s) == 0;
    hide FilesOk, FinishedOk, StartedOk, BehindMain, MainOk, CaptureOk, ShapeOk;
    if s.workers[w].Done? {
      CountSome(IsDone, s.workers, w);
    } else if s.workers[w].AtLock? && Held(s.workers, s.workers[w].file) {
      NobodyHolds(jobs, s, block, w);
    } else if !s.workers[w].Waiting? || s.work != [] {
      WorkerCanStep(jobs, s, w);
    }
  }

  lemma NobodyHolds(jobs: seq<Job>, s: State, block: Blockage, w: nat)
    requires Fine(jobs, s, block) && w < |s.workers| && !Kept(block, w) && s.workers[w].AtLock?
    ensures !Held(s.workers, s.workers[w].file)
  {
    if Held(s.workers, s.workers[w].file) {
      var v := CountFind(NotingIn(s.workers[w].file), s.workers);
    }
  }

  /** So main is not blocked. */
  lemma MainIsFree(jobs: seq<Job>, s: State, block: Blockage)
    requires Fine(jobs, s, block) && Quiet(jobs, s, block) && CurrentFile(jobs, s.main) < |jobs|
    ensures Sane(jobs, s) && MainNext(jobs, s).Some?
  {
    FineBasics(jobs, s, block);
    if s.created == |s.workers| {
      var u := if block.Stuck? && block.lo == 0 then block.hi else 0;
      OthersWait(jobs, s, block, u);
      CountSome(IsWaiting, s.workers, u);
      assert TokensOk(s);
    }
    hide FilesOk, FinishedOk, StartedOk, BehindMain, MainOk, CaptureOk, Blocked, Prompt, Quiet, Create;
  }

  ghost predicate OnTheWay(jobs: seq<Job>, main: Main, f: nat) {
    CurrentFile(jobs, main) < f || main == NextFile(f)
  }

  lemma MainApproaches(jobs: seq<Job>, s: State, f: nat)
    requires ShapeOk(jobs, s) && f < |jobs| && CurrentFile(jobs, s.main) < f && MainNext(jobs, s).Some?
    ensures OnTheWay(jobs, MainNext(jobs, s).value.main, f)
  {
    hide Create;
  }

  lemma AfterLeavesMain(jobs: seq<Job>, s: State, w: nat)
    requires |s.files| == |jobs| && w < |s.workers| && WorkerNext(jobs, s, w).Some?
    ensures After(jobs, s, w).main == s.main
  {
    hide Claim, Put, PassTest, Cleanup, Held;
  }

  lemma {:induction false} Approach(jobs: seq<Job>, threads: nat, run: seq<State>, f: nat, block: Blockage)
    returns (longer: seq<State>)
    requires Going(jobs, threads, run, block) && f < |jobs| && OnTheWay(jobs, Last(run).main, f)
    requires ShapeOk(jobs, Last(run))
    ensures Going(jobs, threads, longer, block) && Last(longer).main == NextFile(f)
    ensures |Last(longer).files| == |jobs| && Quiet(jobs, Last(longer), block)
    decreases Distance(jobs, Last(run)), Work(jobs, Last(run)), Phase(jobs, Last(run)), Energy(jobs, Last(run))
  {
    hide IsRun, MainNext, WorkerNext, Fine, After, Inv, ShapeOk, Distance, Work, Phase, Energy;
    GoingBasics(jobs, threads, run, block);
    var s := Last(run);
    if w :| 0 <= w < |s.workers| && !Holds(block, w) && WorkerNext(jobs, s, w).Some? {
      AfterLeavesMain(jobs, s, w);
      var more := WorkerMove(jobs, threads, run, w, block);
      longer := Approach(jobs, threads, more, f, block);
    } else if s.main == NextFile(f) {
      longer := run;
    } else {
      MainIsFree(jobs, s, block);
      MainApproaches(jobs, s, f);
      var more := MainMove(jobs, threads, run, block);
      longer := Approach(jobs, threads, more, f, block);
    }
  }

  ghost predicate IsCompleteRun(jobs: seq<Job>, threads: nat, run: seq<State>) {
    run != [] && IsRun(jobs, threads, run) && Terminal(Last(run))
  }

  /** Such a run can be carried on to its proper end. */
  lemma {:induction false} Complete(jobs: seq<Job>, threads: nat, run: seq<State>) returns (full: seq<State>)
    requires Going(jobs, threads, run, Free) && ShapeOk(jobs, Last(run))
    ensures Going(jobs, threads, full, Free) && IsCompleteRun(jobs, threads, full) && run <= full
    decreases Distance(jobs, Last(run)), Work(jobs, Last(run)), Phase(jobs, Last(run)), Energy(jobs, Last(run))
  {
    hide IsRun, Terminal, MainNext, WorkerNext, Fine, After, Inv, ShapeOk, Distance, Work, Phase, Energy;
    GoingBasics(jobs, threads, run, Free);
    var s := Last(run);
    full := run;
    if w :| 0 <= w < |s.workers| && WorkerNext(jobs, s, w).Some? {
      var more := WorkerMove(jobs, threads, run, w, Free);
      full := Complete(jobs, threads, more);
    } else if !Terminal(s) {
      NeverStuck(jobs, s);
      var more := MainMove(jobs, threads, run, Free);
      full := Complete(jobs, threads, more);
    }
  }

  /** There is always a run that comes to its end. */
  lemma SomeCompleteRun(jobs: seq<Job>, threads: nat) returns (run: seq<State>)
    requires threads > 0
    ensures IsCompleteRun(jobs, threads, run) && |Last(run).files| == |jobs|
  {
    hide IsRun, Fine, Terminal, Inv;
    run := StartRun(jobs, threads);
    GoingBasics(jobs, threads, run, Free);
    run := Complete(jobs, threads, run);
    GoingBasics(jobs, threads, run, Free);
  }

  // At a file nobody has touched yet.

  predicate Untouched(s: State, f: nat)
    requires f < |s.files|
  {
    s.files[f].claims == [] && s.files[f].visitors == 0 && s.files[f].passed == 0
  }

  lemma FrontierIsUntouched(jobs: seq<Job>, s: State, f: nat)
    requires Good(jobs, s) && Real(jobs, f) && |s.files| == |jobs| && s.main == NextFile(f)
    ensures Untouched(s, f) && s.finished < f
  {
    assert FileInv(jobs[f], s.files[f], s.workers, f);
    forall w | 0 <= w < |s.workers| ensures !Fits(ActiveIn(f), s.workers[w]) {
      assert FileOf(s.workers[w]).Some? ==> FileOf(s.workers[w]).value < f;
    }
    CountNone(ActiveIn(f), s.workers);
    if s.finished >= 0 {
      assert s.files[s.finished].claims != [];
    }
  }

  /** Tokens that main can take without waiting. */
  function Tokens(s: State): nat {
    s.replies + Bit(!s.doRead)
  }

  lemma NotFinished(jobs: seq<Job>, s: State, f: nat)
    requires Good(jobs, s) && Real(jobs, f) && |s.files| == |jobs| && Untouched(s, f)
    ensures s.finished != f
  {
    hide ShapeOk, TokensOk, PlacesOk, NullsOk, FilesOk, StartedOk, BehindMain, MainOk, CaptureOk;
  }

  /** When nobody is kept, all created workers wait, and main can have as many tokens. */
  lemma AllWait(jobs: seq<Job>, s: State, f: nat)
    requires Fine(jobs, s, Free) && Quiet(jobs, s, Free) && f < |jobs| && s.main == NextFile(f)
    ensures s.work == [] && Tokens(s) == s.created <= |s.workers|
    ensures forall w :: 0 <= w < s.created ==> s.workers[w] == Waiting
  {
    FineBasics(jobs, s, Free);
    assert ShapeOk(jobs, s) && TokensOk(s);
    hide Quiet, Fine, FilesOk, FinishedOk, StartedOk;
    forall w | 0 <= w < s.created ensures s.workers[w] == Waiting && s.work == [] {
      OthersWait(jobs, s, Free, w);
    }
    CountFirst(IsWaiting, s.workers, s.created);
    assert s.created > 0 ==> s.workers[0] == Waiting;
    assert s.created == 0 ==> |s.work| == 0;
  }

  lemma {:induction false} CountFirst(q: Query, ws: seq<Worker>, n: nat)
    requires n <= |ws| && forall w :: 0 <= w < |ws| ==> (Fits(q, ws[w]) <==> w < n)
    ensures Count(q, ws) == n
  {
    hide Fits;
    if ws != [] {
      var l := |ws| - 1;
      CountFirst(q, ws[..l], if n > l then l else n);
    }
  }

  /** Nobody holds a lock between the moves of such a run. */
  lemma NoLocks(jobs: seq<Job>, s: State, f: nat)
    requires Fine(jobs, s, Free)
    ensures !Held(s.workers, f) && forall w :: 0 <= w < |s.workers| ==> !s.workers[w].Noting?
  {
    CountNone(NotingIn(f), s.workers);
  }

  /** Between the files, when all created workers wait. */
  ghost predicate Ready(s: State, i: nat) {
    && i < |s.files| && Untouched(s, i) && s.main == NextFile(i)
    && s.work == [] && Tokens(s) == s.created <= |s.workers|
    && forall w :: 0 <= w < |s.workers| ==> s.workers[w] == if w < s.created then Waiting else NotCreated
  }

  lemma NotYetCreated(jobs: seq<Job>, s: State)
    requires ShapeOk(jobs, s)
    ensures forall w :: s.created <= w < |s.workers| ==> s.workers[w] == NotCreated
  {
  }

  lemma CreatedAt(jobs: seq<Job>, s: State, i: nat)
    requires Good(jobs, s) && |s.files| == |jobs| && s.main == NextFile(i)
    ensures s.created == Min(|s.workers|, Sum(jobs, i))
  {
  }

  lemma IsReady(jobs: seq<Job>, s: State, i: nat)
    requires Fine(jobs, s, Free) && Quiet(jobs, s, Free) && Real(jobs, i) && s.main == NextFile(i)
    ensures Ready(s, i) && s.created <= |s.workers| && |s.files| == |jobs|
  {
    FineBasics(jobs, s, Free);
    FrontierIsUntouched(jobs, s, i);
    AllWait(jobs, s, i);
    NotYetCreated(jobs, s);
    hide Fine, Good, Quiet, Inv, ShapeOk;
  }

  // Main's steps for one file, one by one.

  lemma TakeStep(jobs: seq<Job>, s: State, f: nat)
    requires ShapeOk(jobs, s) && s.main == Take(f) && Tokens(s) > 0
    ensures Sane(jobs, s) && MainNext(jobs, s).Some?
    ensures var t := MainNext(jobs, s).value;
            && t.main == Check(f) && Tokens(t) == Tokens(s) - 1
            && t == s.(main := t.main, doRead := t.doRead, replies := t.replies)
  {
  }

  lemma CheckStep(jobs: seq<Job>, s: State, f: nat)
    requires ShapeOk(jobs, s) && s.main == Check(f) && s.finished != f
    ensures Sane(jobs, s) && MainNext(jobs, s) == Some(s.(main := Send(f)))
  {
  }

  lemma SendStep(jobs: seq<Job>, s: State, f: nat)
    requires ShapeOk(jobs, s) && s.main == Send(f) && |s.workers| > 1 && f < |jobs|
    ensures Sane(jobs, s)
    ensures MainNext(jobs, s) == Some(s.(main := if Bundles(jobs[f]) == 1 then NextFile(f + 1) else Take(f),
                                         work := s.work + [Some(f)]))
  {
  }

  lemma ReceiveStep(jobs: seq<Job>, s: State, f: nat, w: nat)
    requires |s.files| == |jobs| && w < |s.workers| && s.workers[w] == Waiting && s.work == [Some(f)]
    ensures WorkerNext(jobs, s, w).Some?
    ensures After(jobs, s, w) == s.(workers := s.workers[w := AtLock(f, false)], work := [])
  {
  }

  /** Main takes a token and sends the file to a waiting worker, and goes on if that was its only message. */
  lemma Deliver(jobs: seq<Job>, threads: nat, run: seq<State>, f: nat, w: nat, block: Blockage)
    returns (longer: seq<State>)
    requires Going(jobs, threads, run, block) && Real(jobs, f) && threads > 1 && !Holds(block, w)
    requires var s := Last(run);
             && s.main == Take(f) && Tokens(s) > 0 && s.work == [] && |s.files| == |jobs| && Untouched(s, f)
             && w < threads && |s.workers| == threads && s.workers[w] == Waiting
    ensures Going(jobs, threads, longer, block)
    ensures var s, t := Last(run), Last(longer);
            && t.main == (if Bundles(jobs[f]) == 1 then NextFile(f + 1) else Take(f))
            && Tokens(t) == Tokens(s) - 1 && t.work == [] && t.files == s.files && t.finished == s.finished
            && t.workers == s.workers[w := AtLock(f, false)]
  {
    hide Fine, IsRun, Less, MainNext, WorkerNext, After;
    GoingBasics(jobs, threads, run, block);
    TakeStep(jobs, Last(run), f);
    var taken := MainMove(jobs, threads, run, block);
    GoingBasics(jobs, threads, taken, block);
    FineBasics(jobs, Last(taken), block);
    NotFinished(jobs, Last(taken), f);
    CheckStep(jobs, Last(taken), f);
    var checked := MainMove(jobs, threads, taken, block);
    SendStep(jobs, Last(checked), f);
    var sent := MainMove(jobs, threads, checked, block);
    ReceiveStep(jobs, Last(sent), f, w);
    longer := WorkerMove(jobs, threads, sent, w, block);
  }

  lemma OpenStep(jobs: seq<Job>, s: State, f: nat)
    requires ShapeOk(jobs, s) && s.main == NextFile(f) && Real(jobs, f)
    requires s.created == |s.workers| ==> Tokens(s) > 0
    ensures Sane(jobs, s) && MainNext(jobs, s).Some?
    ensures var t := MainNext(jobs, s).value;
            && t.main == Opened(f) && Tokens(t) == Tokens(s)
            && t == s.(main := t.main, doRead := t.doRead, replies := t.replies)
  {
  }

  lemma CreateStep(jobs: seq<Job>, s: State, f: nat)
    requires ShapeOk(jobs, s) && s.main == Opened(f) && Real(jobs, f) && |s.workers| > 1
    ensures Sane(jobs, s)
    ensures var k := Min(|s.workers| - s.created, Bundles(jobs[f]));
            MainNext(jobs, s) == Some(s.(
              main := if s.created + k == |s.workers| && k < Bundles(jobs[f]) then Take(f) else NextFile(f + 1),
              workers := Create(s.workers, s.created, k, f), created := s.created + k))
  {
    hide Create;
  }

  /** From between the files to the file's workers. */
  lemma Enter(jobs: seq<Job>, threads: nat, run: seq<State>, f: nat, block: Blockage) returns (longer: seq<State>)
    requires Going(jobs, threads, run, block) && Real(jobs, f) && threads > 1
    requires Last(run).main == NextFile(f) && Last(run).work == [] && Last(run).created <= threads
    requires Last(run).created == threads ==> Tokens(Last(run)) > 0
    ensures Going(jobs, threads, longer, block) && |Last(run).workers| == threads
    ensures var s, t := Last(run), Last(longer);
            var k := Min(threads - s.created, Bundles(jobs[f]));
            && t.files == s.files && t.finished == s.finished && t.work == [] && t.created == s.created + k
            && t.workers == Create(s.workers, s.created, k, f) && Tokens(t) == Tokens(s)
            && t.main == (if s.created + k == threads && k < Bundles(jobs[f]) then Take(f) else NextFile(f + 1))
  {
    hide Fine, IsRun, Less, Create, MainNext;
    GoingBasics(jobs, threads, run, block);
    OpenStep(jobs, Last(run), f);
    var begun := MainMove(jobs, threads, run, block);
    CreateStep(jobs, Last(begun), f);
    longer := MainMove(jobs, threads, begun, block);
  }
}
