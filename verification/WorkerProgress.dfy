/** Where main stands among the files, and what it and the workers leave behind. */
module WorkerProgress {
  import opened Common
  import opened Workers
  import opened WorkerFiles
  import opened WorkerInvariant
  import opened WorkerTheorems

  // Where main stands.

  /** The first file that main has not given to any worker yet. */
  function Frontier(jobs: seq<Job>, main: Main): nat {
    match main
    case Take(i) => i + 1
    case Check(i) => i + 1
    case Send(i) => i + 1
    case _ => CurrentFile(jobs, main)
  }

  /** Main is in the loop that sends messages for file j. */
  predicate InLoop(main: Main, j: nat) {
    main == Take(j) || main == Check(j) || main == Send(j)
  }

  /** How many bundles the first n files have. */
  function Sum(jobs: seq<Job>, n: nat): nat {
    if n == 0 then 0 else Sum(jobs, n - 1) + if n <= |jobs| then Bundles(jobs[n - 1]) else 0
  }

  lemma {:induction false} SumGrows(jobs: seq<Job>, m: nat, n: nat)
    requires m <= n
    ensures Sum(jobs, m) <= Sum(jobs, n)
  {
    if m < n {
      SumGrows(jobs, m, n - 1);
    }
  }

  /** Main sends at most one message for the file. */
  predicate Once(jobs: seq<Job>, threads: nat, f: nat) {
    threads == 1 || (f < |jobs| && Bundles(jobs[f]) == 1)
  }

  /** Main may go on to later files before the last claim in this one is noted. */
  predicate Passable(jobs: seq<Job>, threads: nat, f: nat) {
    Once(jobs, threads, f) || (f < |jobs| && Sum(jobs, f) + Bundles(jobs[f]) <= threads)
  }

  /** Nobody is ahead of main: no file beyond the frontier has been touched. */
  ghost predicate BehindMain(jobs: seq<Job>, s: State)
    requires |s.files| == |jobs|
  {
    var frontier := Frontier(jobs, s.main);
    && (forall w :: 0 <= w < |s.workers| && FileOf(s.workers[w]).Some? ==> FileOf(s.workers[w]).value < frontier)
    && (forall m :: 0 <= m < |s.work| && s.work[m].Some? ==> s.work[m].value < frontier)
    && (forall f :: 0 <= f < |jobs| && s.files[f].claims != [] ==> f < frontier)
  }

  /** Main has created a worker for every bundle so far, or all that it may; it is in a loop only for a file that has
      more bundles than there were workers left to create; and it has left a file behind only if that may be done
      early, or the file's last claim is noted. */
  ghost predicate MainOk(jobs: seq<Job>, s: State)
    requires |s.files| == |jobs|
  {
    && s.created == Min(|s.workers|, Sum(jobs, Frontier(jobs, s.main)))
    && (forall j :: 0 <= j < |jobs| && InLoop(s.main, j) ==> Sum(jobs, j) + Bundles(jobs[j]) > |s.workers|)
    && (forall f :: 0 <= f < CurrentFile(jobs, s.main) && Real(jobs, f) ==>
          Passable(jobs, |s.workers|, f) || Noted(jobs, s, f))
  }

  predicate InFile(w: Worker, f: nat) {
    w == AtLock(f, false) || Fits(ActiveIn(f), w)
  }

  /** The file's bundles are as many as the threads, and no earlier file has any. */
  predicate TakesAll(jobs: seq<Job>, threads: nat, f: nat) {
    Real(jobs, f) && Sum(jobs, f) == 0 && Bundles(jobs[f]) == threads
  }

  /** Until the last claim in such a file is noted, all workers stay in it, and main has no token to go on with. */
  ghost predicate CaptureOk(jobs: seq<Job>, s: State)
    requires |s.files| == |jobs|
  {
    forall f: nat :: f < Frontier(jobs, s.main) && TakesAll(jobs, |s.workers|, f) && !Noted(jobs, s, f) ==>
      Captured(s, f)
  }

  ghost predicate Captured(s: State, f: nat) {
    && (s.main.NextFile? || s.main == ShutTake(0))
    && (forall w :: 0 <= w < |s.workers| ==> InFile(s.workers[w], f))
  }

  ghost predicate Good(jobs: seq<Job>, s: State) {
    Inv(jobs, s) && BehindMain(jobs, s) && MainOk(jobs, s) && CaptureOk(jobs, s)
  }

  lemma GoodStart(jobs: seq<Job>, threads: nat)
    requires threads > 0
    ensures Good(jobs, Init(jobs, threads))
  {
    InitInv(jobs, threads);
  }

  lemma WorkerStaysBehind(jobs: seq<Job>, s: State, w: nat, t: State)
    requires ShapeOk(jobs, s) && BehindMain(jobs, s) && w < |s.workers| && WorkerNext(jobs, s, w) == Some(t)
    ensures |t.files| == |jobs| && BehindMain(jobs, t)
  {
    WorkerShape(jobs, s, w, t);
    hide ShapeOk;
    forall f | 0 <= f < |jobs| && t.files[f].claims != [] ensures f < Frontier(jobs, t.main) {
      ClaimsMove(jobs, s, w, t, f);
    }
    forall v | 0 <= v < |t.workers| && FileOf(t.workers[v]).Some?
      ensures FileOf(t.workers[v]).value < Frontier(jobs, t.main)
    {
      if v != w {
        assert t.workers[v] == s.workers[v];
      }
    }
  }

  lemma MainStaysAhead(jobs: seq<Job>, s: State, t: State)
    requires ShapeOk(jobs, s) && BehindMain(jobs, s) && MainNext(jobs, s) == Some(t)
    ensures |t.files| == |jobs| && BehindMain(jobs, t)
  {
    MainShape(jobs, s, t);
    hide Create;
    assert Frontier(jobs, s.main) <= Frontier(jobs, t.main);
    forall v | 0 <= v < |t.workers| && FileOf(t.workers[v]).Some?
      ensures FileOf(t.workers[v]).value < Frontier(jobs, t.main)
    {
      assert t.workers[v] == s.workers[v] || t.workers[v] == AtLock(s.main.i, false);
    }
  }

  /** What a worker does leaves main's position alone, and what is noted stays so. */
  lemma WorkerKeepsMain(jobs: seq<Job>, s: State, w: nat, t: State)
    requires ShapeOk(jobs, s) && MainOk(jobs, s) && w < |s.workers| && WorkerNext(jobs, s, w) == Some(t)
    ensures |t.files| == |jobs| && MainOk(jobs, t)
  {
    WorkerShape(jobs, s, w, t);
    assert t.created == s.created;
    hide ShapeOk, WorkerNext, Noted, Passable;
    forall f | 0 <= f < CurrentFile(jobs, t.main) && Real(jobs, f) && Noted(jobs, s, f) ensures Noted(jobs, t, f) {
      NotedStays(jobs, s, w, t, f);
    }
  }

  lemma NotedSame(jobs: seq<Job>, s: State, t: State, f: nat)
    requires ShapeOk(jobs, s) && MainNext(jobs, s) == Some(t)
    ensures |t.files| == |jobs| && (Noted(jobs, t, f) <==> Noted(jobs, s, f))
  {
    MainShape(jobs, s, t);
    CountSame(NotingIn(f), s.workers, t.workers);
  }

  lemma MainCreates(jobs: seq<Job>, s: State, t: State)
    requires ShapeOk(jobs, s) && MainOk(jobs, s) && MainNext(jobs, s) == Some(t)
    ensures t.created == Min(|t.workers|, Sum(jobs, Frontier(jobs, t.main)))
    ensures forall j :: 0 <= j < |jobs| && InLoop(t.main, j) ==> Sum(jobs, j) + Bundles(jobs[j]) > |t.workers|
  {
    MainShape(jobs, s, t);
    if s.main.Opened? {
      Creates(jobs, s, t);
    } else {
      CreatesNone(jobs, s, t);
    }
    hide ShapeOk, MainNext, Noted, Passable;
  }

  lemma Creates(jobs: seq<Job>, s: State, t: State)
    requires ShapeOk(jobs, s) && MainNext(jobs, s) == Some(t) && s.main.Opened?
    requires s.created == Min(|s.workers|, Sum(jobs, s.main.i))
    ensures t.created == Min(|s.workers|, Sum(jobs, s.main.i + 1)) && Frontier(jobs, t.main) == s.main.i + 1
    ensures t.main == NextFile(s.main.i + 1) || t.main == Take(s.main.i)
    ensures t.main == Take(s.main.i) ==> Sum(jobs, s.main.i) + Bundles(jobs[s.main.i]) > |s.workers|
  {
    hide Create;
  }

  lemma CreatesNone(jobs: seq<Job>, s: State, t: State)
    requires ShapeOk(jobs, s) && MainNext(jobs, s) == Some(t) && !s.main.Opened?
    ensures t.created == s.created && Sum(jobs, Frontier(jobs, t.main)) == Sum(jobs, Frontier(jobs, s.main))
    ensures forall j :: 0 <= j < |jobs| && InLoop(t.main, j) ==> InLoop(s.main, j)
  {
    hide Create;
  }

  lemma MainPasses(jobs: seq<Job>, s: State, t: State, f: nat)
    requires ShapeOk(jobs, s) && MainOk(jobs, s) && FinishedOk(jobs, s) && MainNext(jobs, s) == Some(t)
    requires CurrentFile(jobs, s.main) <= f < CurrentFile(jobs, t.main) && Real(jobs, f)
    ensures Passable(jobs, |s.workers|, f) || Noted(jobs, s, f)
  {
    hide Create, Noted;
  }

  lemma MainKeepsMain(jobs: seq<Job>, s: State, t: State)
    requires ShapeOk(jobs, s) && MainOk(jobs, s) && FinishedOk(jobs, s) && MainNext(jobs, s) == Some(t)
    ensures |t.files| == |jobs| && MainOk(jobs, t)
  {
    MainShape(jobs, s, t);
    MainCreates(jobs, s, t);
    hide ShapeOk, MainNext, FinishedOk, Noted, Passable;
    forall f | 0 <= f < CurrentFile(jobs, t.main) && Real(jobs, f)
      ensures Passable(jobs, |t.workers|, f) || Noted(jobs, t, f)
    {
      NotedSame(jobs, s, t, f);
      if f >= CurrentFile(jobs, s.main) {
        MainPasses(jobs, s, t, f);
      }
    }
  }

  /** A captured worker stays captured until the last claim is noted. */
  lemma WorkerStaysCaptured(jobs: seq<Job>, s: State, w: nat, t: State, f: nat)
    requires ShapeOk(jobs, s) && w < |s.workers| && WorkerNext(jobs, s, w) == Some(t)
    requires Captured(s, f) && Real(jobs, f) && !Noted(jobs, s, f)
    ensures Captured(t, f)
  {
    WorkerShape(jobs, s, w, t);
    hide ShapeOk;
  }

  lemma WorkerCaptures(jobs: seq<Job>, s: State, w: nat, t: State)
    requires ShapeOk(jobs, s) && CaptureOk(jobs, s) && w < |s.workers| && WorkerNext(jobs, s, w) == Some(t)
    ensures |t.files| == |jobs| && CaptureOk(jobs, t)
  {
    WorkerShape(jobs, s, w, t);
    hide ShapeOk, WorkerNext, Noted, Captured;
    forall f: nat | f < Frontier(jobs, t.main) && TakesAll(jobs, |t.workers|, f) && !Noted(jobs, t, f)
      ensures Captured(t, f)
    {
      if Noted(jobs, s, f) {
        NotedStays(jobs, s, w, t, f);
      } else {
        WorkerStaysCaptured(jobs, s, w, t, f);
      }
    }
  }

  /** As long as all workers are captured, nobody has paid main a token. */
  lemma NoTokens(jobs: seq<Job>, s: State, f: nat)
    requires ShapeOk(jobs, s) && TokensOk(s) && MainOk(jobs, s) && Captured(s, f)
    requires f < Frontier(jobs, s.main) && TakesAll(jobs, |s.workers|, f)
    ensures s.created == |s.workers| && s.doRead && s.replies == 0
  {
    CountNone(IsWaiting, s.workers);
    SumGrows(jobs, f + 1, Frontier(jobs, s.main));
  }

  lemma MainStaysCaptured(jobs: seq<Job>, s: State, t: State, f: nat)
    requires ShapeOk(jobs, s) && TokensOk(s) && MainOk(jobs, s) && MainNext(jobs, s) == Some(t)
    requires f < Frontier(jobs, s.main) && TakesAll(jobs, |s.workers|, f) && Captured(s, f)
    ensures Captured(t, f)
  {
    NoTokens(jobs, s, f);
    hide Create;
  }

  /** All workers are created for such a file. */
  lemma CaptureBegins(jobs: seq<Job>, s: State, t: State, f: nat)
    requires ShapeOk(jobs, s) && MainOk(jobs, s) && MainNext(jobs, s) == Some(t)
    requires Frontier(jobs, s.main) <= f < Frontier(jobs, t.main) && TakesAll(jobs, |s.workers|, f)
    ensures Captured(t, f)
  {
    if s.main.Opened? {
      CreatedWorkers(s.workers, s.created, Min(|s.workers| - s.created, Bundles(jobs[s.main.i])), s.main.i);
    }
    hide Create;
  }

  lemma MainCaptures(jobs: seq<Job>, s: State, t: State)
    requires ShapeOk(jobs, s) && TokensOk(s) && MainOk(jobs, s) && CaptureOk(jobs, s) && MainNext(jobs, s) == Some(t)
    ensures |t.files| == |jobs| && CaptureOk(jobs, t)
  {
    MainShape(jobs, s, t);
    hide ShapeOk, TokensOk, MainOk, MainNext, Noted, Captured, TakesAll;
    forall f: nat | f < Frontier(jobs, t.main) && TakesAll(jobs, |t.workers|, f) && !Noted(jobs, t, f)
      ensures Captured(t, f)
    {
      NotedSame(jobs, s, t, f);
      if f < Frontier(jobs, s.main) {
        MainStaysCaptured(jobs, s, t, f);
      } else {
        CaptureBegins(jobs, s, t, f);
      }
    }
  }

  lemma GoodStays(jobs: seq<Job>, s: State, t: State)
    requires Good(jobs, s) && Next(jobs, s, t)
    ensures Good(jobs, t) && |t.workers| == |s.workers|
  {
    hide MainNext, WorkerNext, BehindMain, MainOk, CaptureOk;
    hide TokensOk, PlacesOk, NullsOk, FilesOk, FinishedOk, StartedOk;
    StepKeeps(jobs, s, t);
    ThreadsStay(jobs, s, t);
    if MainNext(jobs, s) == Some(t) {
      MainStaysAhead(jobs, s, t);
      MainKeepsMain(jobs, s, t);
      MainCaptures(jobs, s, t);
    } else {
      var w :| 0 <= w < |s.workers| && WorkerNext(jobs, s, w) == Some(t);
      WorkerStaysBehind(jobs, s, w, t);
      WorkerKeepsMain(jobs, s, w, t);
      WorkerCaptures(jobs, s, w, t);
    }
  }

}
