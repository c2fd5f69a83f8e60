/** The settings in which every run cleans a file up exactly once, and for all others a run that does it twice. */
module WorkerSettings {
  import opened Common
  import opened Workers
  import opened WorkerFiles
  import opened WorkerInvariant
  import opened WorkerTheorems
  import opened WorkerProgress
  import opened WorkerMeasure
  import opened WorkerRaces
  import opened WorkerRuns

  // Two workers before the file, and nobody in it.

  ghost predicate Before(jobs: seq<Job>, s: State, f: nat, u: nat, v: nat) {
    && |s.files| == |jobs| && f < |jobs| && Untouched(s, f) && u < |s.workers| && v < |s.workers| && u != v
    && s.workers[u] == AtLock(f, false) && s.workers[v] == AtLock(f, false)
  }

  lemma TwoBefore(jobs: seq<Job>, threads: nat, run: seq<State>, f: nat) returns (longer: seq<State>, u: nat, v: nat)
    requires Going(jobs, threads, run, Free) && Real(jobs, f) && threads > 1 && Bundles(jobs[f]) > 1
    requires |Last(run).files| == |jobs| && |Last(run).workers| == threads && Ready(Last(run), f)
    requires Last(run).created <= threads
    ensures Going(jobs, threads, longer, Free) && Before(jobs, Last(longer), f, u, v)
  {
    hide Fine, IsRun, Ready, Before;
    var s := Last(run);
    if s.created + 1 < threads {
      u, v := s.created, s.created + 1;
      longer := TwoNew(jobs, threads, run, f);
    } else if s.created + 1 == threads {
      u, v := s.created, 0;
      longer := OneNew(jobs, threads, run, f);
    } else {
      u, v := 0, 1;
      longer := NoneNew(jobs, threads, run, f);
    }
  }

  lemma TwoNew(jobs: seq<Job>, threads: nat, run: seq<State>, f: nat) returns (longer: seq<State>)
    requires Going(jobs, threads, run, Free) && Real(jobs, f) && threads > 1 && Bundles(jobs[f]) > 1
    requires |Last(run).files| == |jobs| && |Last(run).workers| == threads && Ready(Last(run), f)
    requires Last(run).created + 1 < threads
    ensures Going(jobs, threads, longer, Free)
    ensures Before(jobs, Last(longer), f, Last(run).created, Last(run).created + 1)
  {
    hide Fine, IsRun, Create;
    var s := Last(run);
    longer := Enter(jobs, threads, run, f, Free);
    CreatedWorkers(s.workers, s.created, Min(threads - s.created, Bundles(jobs[f])), f);
  }

  lemma OneNew(jobs: seq<Job>, threads: nat, run: seq<State>, f: nat) returns (longer: seq<State>)
    requires Going(jobs, threads, run, Free) && Real(jobs, f) && threads > 1 && Bundles(jobs[f]) > 1
    requires |Last(run).files| == |jobs| && |Last(run).workers| == threads && Ready(Last(run), f)
    requires Last(run).created + 1 == threads
    ensures Going(jobs, threads, longer, Free) && Before(jobs, Last(longer), f, Last(run).created, 0)
  {
    hide Fine, IsRun, Create;
    var s := Last(run);
    longer := Enter(jobs, threads, run, f, Free);
    CreatedWorkers(s.workers, s.created, 1, f);
    longer := Deliver(jobs, threads, longer, f, 0, Free);
  }

  lemma NoneNew(jobs: seq<Job>, threads: nat, run: seq<State>, f: nat) returns (longer: seq<State>)
    requires Going(jobs, threads, run, Free) && Real(jobs, f) && threads > 1 && Bundles(jobs[f]) > 1
    requires |Last(run).files| == |jobs| && |Last(run).workers| == threads && Ready(Last(run), f)
    requires Last(run).created == threads
    ensures Going(jobs, threads, longer, Free) && Before(jobs, Last(longer), f, 0, 1)
  {
    hide Fine, IsRun, Create, Before;
    var s := Last(run);
    longer := Enter(jobs, threads, run, f, Free);
    CreatedWorkers(s.workers, s.created, 0, f);
    longer := DeliverTwo(jobs, threads, longer, f);
  }

  lemma DeliverTwo(jobs: seq<Job>, threads: nat, run: seq<State>, f: nat) returns (longer: seq<State>)
    requires Going(jobs, threads, run, Free) && Real(jobs, f) && threads > 1 && Bundles(jobs[f]) > 1
    requires var s := Last(run);
             && s.main == Take(f) && Tokens(s) > 1 && s.work == [] && |s.files| == |jobs| && Untouched(s, f)
             && |s.workers| == threads && s.workers[0] == s.workers[1] == Waiting
    ensures Going(jobs, threads, longer, Free) && Before(jobs, Last(longer), f, 0, 1)
  {
    hide Fine, IsRun;
    longer := Deliver(jobs, threads, run, f, 0, Free);
    longer := Deliver(jobs, threads, longer, f, 1, Free);
  }

  // One of them does all the work and passes the test before cleanup, before the other has taken the lock.

  ghost predicate Alone(jobs: seq<Job>, s: State, f: nat, u: nat, v: nat) {
    && |s.files| == |jobs| && f < |jobs| && s.files[f].visitors == 1 && s.files[f].passed == 0
    && u < |s.workers| && v < |s.workers| && u != v && s.workers[v] == AtLock(f, false)
    && (Fits(ActiveIn(f), s.workers[u]) || s.workers[u] == Leaving(f, Bundles(jobs[f])))
  }

  lemma FirstClaim(jobs: seq<Job>, s: State, f: nat, u: nat, v: nat)
    requires Fine(jobs, s, Free) && Before(jobs, s, f, u, v) && Real(jobs, f) && Bundles(jobs[f]) > 1
    ensures |s.files| == |jobs| && u < |s.workers| && WorkerNext(jobs, s, u).Some?
    ensures Alone(jobs, After(jobs, s, u), f, u, v)
  {
    NoLocks(jobs, s, f);
    hide Fine, Held;
  }

  /** What the worker that is alone does next. */
  lemma AloneMoves(jobs: seq<Job>, s: State, f: nat, u: nat, v: nat)
    requires Fine(jobs, s, Free) && Real(jobs, f) && Alone(jobs, s, f, u, v)
    ensures |s.files| == |jobs| && u < |s.workers| && WorkerNext(jobs, s, u).Some?
    ensures s.workers[u] == AtLock(f, true) ==> |s.files[f].claims| <= Bundles(jobs[f])
  {
    FineBasics(jobs, s, Free);
    NoLocks(jobs, s, f);
    assert FileInv(jobs[f], s.files[f], s.workers, f);
    hide Fine, Inv, Held;
    if s.workers[u] == AtLock(f, true) {
      CountSome(ActiveIn(f), s.workers, u);
    }
  }

  lemma AloneGoesOn(jobs: seq<Job>, s: State, f: nat, u: nat, v: nat)
    requires Fine(jobs, s, Free) && Real(jobs, f) && Alone(jobs, s, f, u, v)
    ensures |s.files| == |jobs| && u < |s.workers| && WorkerNext(jobs, s, u).Some?
    ensures var t := After(jobs, s, u);
            && |t.files| == |jobs| && |t.workers| == |s.workers| && t.workers[v] == AtLock(f, false)
            && (Alone(jobs, t, f, u, v) || t.files[f].passed > 0)
  {
    AloneMoves(jobs, s, f, u, v);
    NoLocks(jobs, s, f);
    FineBasics(jobs, s, Free);
    AfterIs(jobs, s, u);
    if s.workers[u].Leaving? {
      AlonePasses(jobs, s, f, u, v);
    } else {
      InFileMoves(jobs, s, u, f);
    }
    hide Fine, Held, After, Inv, ShapeOk, WorkerNext;
  }

  lemma AlonePasses(jobs: seq<Job>, s: State, f: nat, u: nat, v: nat)
    requires Alone(jobs, s, f, u, v) && s.workers[u].Leaving? && WorkerNext(jobs, s, u).Some?
    ensures var t := WorkerNext(jobs, s, u).value;
            && |t.files| == |jobs| && t.workers == s.workers[u := Cleaning(f)] && t.files[f].passed > 0
  {
  }

  lemma {:induction false} RunsAlone(jobs: seq<Job>, threads: nat, run: seq<State>, f: nat, u: nat, v: nat)
    returns (longer: seq<State>)
    requires Going(jobs, threads, run, Free) && Real(jobs, f) && Alone(jobs, Last(run), f, u, v)
    requires ShapeOk(jobs, Last(run))
    ensures Going(jobs, threads, longer, Free) && |Last(longer).files| == |jobs| && |Last(longer).workers| == threads
    ensures v < threads && Last(longer).workers[v] == AtLock(f, false) && Last(longer).files[f].passed > 0
    decreases Distance(jobs, Last(run)), Work(jobs, Last(run)), Phase(jobs, Last(run)), Energy(jobs, Last(run))
  {
    hide Fine, IsRun, WorkerNext, After, Inv, Fits, ShapeOk, Distance, Work, Phase, Energy;
    GoingBasics(jobs, threads, run, Free);
    AloneGoesOn(jobs, Last(run), f, u, v);
    longer := WorkerMove(jobs, threads, run, u, Free);
    if Alone(jobs, Last(longer), f, u, v) {
      longer := RunsAlone(jobs, threads, longer, f, u, v);
    }
  }

  /** The other one comes too late. */
  lemma ComesLate(jobs: seq<Job>, threads: nat, run: seq<State>, f: nat, v: nat) returns (full: seq<State>)
    requires Going(jobs, threads, run, Free) && Real(jobs, f) && v < threads
    requires |Last(run).files| == |jobs| && |Last(run).workers| == threads
    requires Last(run).workers[v] == AtLock(f, false) && Last(run).files[f].passed > 0
    ensures Going(jobs, threads, full, Free) && IsCompleteRun(jobs, threads, full)
    ensures exists j :: 0 <= j < |full| - 1 && |full[j].files| == |jobs| && EntersLate(jobs, full[j], full[j + 1], f)
  {
    hide IsRun, Less, Terminal;
    var j := |run| - 1;
    GoingBasics(jobs, threads, run, Free);
    NoLocks(jobs, Last(run), f);
    hide Fine, Inv, After, Held;
    var longer := WorkerMove(jobs, threads, run, v, Free);
    assert longer[j] == run[j];
    assert EntersLate(jobs, longer[j], longer[j + 1], f);
    hide EntersLate, WorkerNext;
    full := Complete(jobs, threads, longer);
    assert full[j] == longer[j] && full[j + 1] == longer[j + 1];
  }

  lemma LateRun(jobs: seq<Job>, threads: nat, f: nat) returns (run: seq<State>)
    requires threads > 1 && Real(jobs, f) && Bundles(jobs[f]) > 1
    ensures Going(jobs, threads, run, Free) && IsCompleteRun(jobs, threads, run)
    ensures exists j :: 0 <= j < |run| - 1 && |run[j].files| == |jobs| && EntersLate(jobs, run[j], run[j + 1], f)
  {
    hide Fine, IsRun, Quiet, Terminal, Alone, Before, EntersLate, Next, Inv, WorkerNext, After;
    run := StartRun(jobs, threads);
    GoingBasics(jobs, threads, run, Free);
    run := Approach(jobs, threads, run, f, Free);
    GoingBasics(jobs, threads, run, Free);
    IsReady(jobs, Last(run), f);
    hide Ready;
    var u, v;
    run, u, v := TwoBefore(jobs, threads, run, f);
    FirstClaim(jobs, Last(run), f, u, v);
    run := WorkerMove(jobs, threads, run, u, Free);
    run := RunsAlone(jobs, threads, run, f, u, v);
    run := ComesLate(jobs, threads, run, f, v);
  }

  /** With two threads or more, and two bundles or more, some complete run cleans the file up more than once. */
  lemma SomeRunCleansTwice(jobs: seq<Job>, threads: nat, f: nat) returns (run: seq<State>)
    requires threads > 1 && Real(jobs, f) && Bundles(jobs[f]) > 1
    ensures IsCompleteRun(jobs, threads, run) && |Last(run).files| == |jobs| && Last(run).files[f].cleaned > 1
    ensures Repairs(jobs[f]) && jobs[f].target != [] ==> Last(run).files[f].content != jobs[f].target
  {
    hide IsRun, Terminal, EntersLate, Inv, Repairs, Fine;
    run := LateRun(jobs, threads, f);
    GoingBasics(jobs, threads, run, Free);
    RunKeeps(jobs, threads, run, |run| - 1);
    LateMeansEntered(jobs, threads, run, |run| - 1, f);
    FilesAreFinished(jobs, Last(run), f);
  }

  /** A file is sure to be cleaned up exactly once if and only if there is one thread, or the file has one bundle.
      Both can be checked before the download begins. */
  lemma SafeSettings(jobs: seq<Job>, threads: nat, f: nat)
    requires threads > 0 && Real(jobs, f)
    ensures (forall run :: IsCompleteRun(jobs, threads, run) ==>
              |Last(run).files| == |jobs| && Last(run).files[f].cleaned == 1)
       <==> threads == 1 || Bundles(jobs[f]) == 1
  {
    hide IsRun, Terminal, Repairs;
    if threads == 1 || Bundles(jobs[f]) == 1 {
      forall run | IsCompleteRun(jobs, threads, run)
        ensures |Last(run).files| == |jobs| && Last(run).files[f].cleaned == 1
      {
        RunKeeps(jobs, threads, run, |run| - 1);
        SoloIsSafe(jobs, threads, run, f);
      }
    } else {
      var run := SomeRunCleansTwice(jobs, threads, f);
      assert IsCompleteRun(jobs, threads, run);
    }
  }

  /** And so, in terms of bytes: a file that its bundles repair is sure to come out right. */
  lemma SafeContent(jobs: seq<Job>, threads: nat, f: nat)
    requires threads > 0 && Real(jobs, f) && Repairs(jobs[f]) && jobs[f].target != []
    ensures (forall run :: IsCompleteRun(jobs, threads, run) ==>
               |Last(run).files| == |jobs| && Last(run).files[f].content == jobs[f].target)
       <==> threads == 1 || Bundles(jobs[f]) == 1
  {
    hide IsRun, Terminal, Repairs;
    if threads == 1 || Bundles(jobs[f]) == 1 {
      forall run | IsCompleteRun(jobs, threads, run)
        ensures |Last(run).files| == |jobs| && Last(run).files[f].content == jobs[f].target
      {
        RunKeeps(jobs, threads, run, |run| - 1);
        SoloIsSafe(jobs, threads, run, f);
      }
    } else {
      var run := SomeRunCleansTwice(jobs, threads, f);
      assert IsCompleteRun(jobs, threads, run);
    }
  }
}
