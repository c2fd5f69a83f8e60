/** When a file can be cleaned up twice: an exact example, and the settings in which it cannot happen. */
module WorkerRaces {
  import opened Common
  import opened Workers
  import opened WorkerFiles
  import opened WorkerInvariant
  import opened WorkerTheorems

  /** One file of two bytes in two bundles. */
  const EXAMPLE: seq<Job> := [Dispatch([7, 9], [0, 0, 0], [[Write(0, [7])], [Write(1, [9])]])]

  lemma ExampleIsPlanned()
    ensures Repairs(EXAMPLE[0]) && Real(EXAMPLE, 0)
  {
    var bundles := EXAMPLE[0].bundles;
    assert Covers(bundles[0][0], 0) && Covers(bundles[1][0], 1);
    assert Repairs(EXAMPLE[0]);
  }

  lemma Extend(run: seq<State>, t: State)
    requires IsRun(EXAMPLE, 2, run) && Next(EXAMPLE, Last(run), t) && Sane(EXAMPLE, t)
    ensures IsRun(EXAMPLE, 2, run + [t])
  {
    hide Next;
  }

  /** Main creates both workers under the file's lock. */
  lemma BothCreated() returns (run: seq<State>)
    ensures IsRun(EXAMPLE, 2, run)
    ensures var s := run[|run| - 1];
            && Sane(EXAMPLE, s) && s.workers == [AtLock(0, false), AtLock(0, false)]
            && s.files == [InitFile(EXAMPLE[0])]
  {
    var s0 := Init(EXAMPLE, 2);
    var s1 := MainNext(EXAMPLE, s0).value;
    assert Next(EXAMPLE, s0, s1);
    var s2 := MainNext(EXAMPLE, s1).value;
    assert Next(EXAMPLE, s1, s2);
    run := [s0, s1, s2];
  }

  /** Worker w takes the lock. */
  lemma OneClaim(run: seq<State>, w: nat, visited: bool) returns (longer: seq<State>)
    requires IsRun(EXAMPLE, 2, run) && w < |Last(run).workers| && Last(run).workers[w] == AtLock(0, visited)
    requires forall v :: 0 <= v < |Last(run).workers| ==> !Last(run).workers[v].Noting?
    ensures IsRun(EXAMPLE, 2, longer)
    ensures var s, t := Last(run), Last(longer);
            && |s.files| == 1 && t.workers == s.workers[w := Claimed(0, |s.files[0].claims|, 2, s.finished)]
            && t.files == [Claim(s.files[0], w, visited)] && WorkerNext(EXAMPLE, s, w) == Some(t)
    ensures |longer| == |run| + 1 && longer[..|run|] == run
  {
    var s := Last(run);
    CountNone(NotingIn(0), s.workers);
    var t := WorkerNext(EXAMPLE, s, w).value;
    assert Next(EXAMPLE, s, t);
    Extend(run, t);
    longer := run + [t];
  }

  /** Worker 0 stores that the last bundle is claimed. */
  lemma OneNote(run: seq<State>) returns (longer: seq<State>)
    requires IsRun(EXAMPLE, 2, run) && |Last(run).workers| > 0
    requires Last(run).workers[0].Noting? && Last(run).workers[0].bundle == 1 && Last(run).workers[0].file == 0
    ensures IsRun(EXAMPLE, 2, longer)
    ensures Last(longer).workers == Last(run).workers[0 := Writing(0, 1, 0)] && Last(longer).files == Last(run).files
  {
    var s := Last(run);
    var t := WorkerNext(EXAMPLE, s, 0).value;
    assert Next(EXAMPLE, s, t);
    Extend(run, t);
    longer := run + [t];
  }

  /** Worker 0 writes the bundle it has claimed and goes back for another. */
  lemma OneBundle(run: seq<State>, b: nat) returns (longer: seq<State>)
    requires IsRun(EXAMPLE, 2, run) && b < 2 && |Last(run).workers| == 2 && Last(run).workers[0] == Writing(0, b, 0)
    ensures IsRun(EXAMPLE, 2, longer)
    ensures var s, t := Last(run), Last(longer);
            && |s.files| == 1 && t.workers == s.workers[0 := AtLock(0, true)]
            && t.files == [Put(s.files[0], b, 0, EXAMPLE[0].bundles[b][0])]
  {
    var s := Last(run);
    var t := WorkerNext(EXAMPLE, s, 0).value;
    assert Next(EXAMPLE, s, t);
    Extend(run, t);
    assert t.workers[0] == Writing(0, b, 1);
    var u := WorkerNext(EXAMPLE, t, 0).value;
    assert Next(EXAMPLE, t, u);
    Extend(run + [t], u);
    longer := run + [t] + [u];
  }

  /** A worker whose exit index passes the test. */
  lemma OnePass(run: seq<State>, w: nat) returns (longer: seq<State>)
    requires IsRun(EXAMPLE, 2, run) && w < |Last(run).workers| && |Last(run).files| == 1
    requires Last(run).workers[w] == Leaving(0, 1 + Last(run).files[0].visitors)
    ensures IsRun(EXAMPLE, 2, longer)
    ensures var s, t := Last(run), Last(longer);
            t.workers == s.workers[w := Cleaning(0)] && t.files == [PassTest(s.files[0])]
    ensures |longer| == |run| + 1 && longer[..|run|] == run
  {
    var s := Last(run);
    var t := WorkerNext(EXAMPLE, s, w).value;
    assert Next(EXAMPLE, s, t);
    Extend(run, t);
    longer := run + [t];
  }

  lemma OneCleanup(run: seq<State>, w: nat) returns (longer: seq<State>)
    requires IsRun(EXAMPLE, 2, run) && w < |Last(run).workers| && Last(run).workers[w] == Cleaning(0)
    ensures IsRun(EXAMPLE, 2, longer)
    ensures var s, t := Last(run), Last(longer);
            && |s.files| == 1 && t.workers == s.workers[w := Replying] && t.files == [Cleanup(s.files[0])]
    ensures |longer| == |run| + 1 && longer[..|run|] == run
  {
    var s := Last(run);
    var t := WorkerNext(EXAMPLE, s, w).value;
    assert Next(EXAMPLE, s, t);
    Extend(run, t);
    longer := run + [t];
  }

  /** Worker 0 claims and writes the first bundle. */
  lemma FirstBundle() returns (run: seq<State>)
    ensures IsRun(EXAMPLE, 2, run) && Last(run).workers == [AtLock(0, true), AtLock(0, false)]
    ensures |Last(run).files| == 1
    ensures Last(run).files[0] == FileState([0], 1, [7, 0, 0], {(0, 0)}, 0, 0, 0, false)
  {
    run := BothCreated();
    run := OneClaim(run, 0, false);
    run := OneBundle(run, 0);
    assert WriteAt([0, 0, 0], Write(0, [7])) == [7, 0, 0];
  }

  /** And the second one. */
  lemma SecondBundle() returns (run: seq<State>)
    ensures IsRun(EXAMPLE, 2, run) && Last(run).workers == [AtLock(0, true), AtLock(0, false)]
    ensures |Last(run).files| == 1
    ensures Last(run).files[0] == FileState([0, 0], 1, [7, 9, 0], {(0, 0), (1, 0)}, 0, 0, 0, false)
  {
    run := FirstBundle();
    run := OneClaim(run, 0, true);
    run := OneNote(run);
    run := OneBundle(run, 1);
    assert WriteAt([7, 0, 0], Write(1, [9])) == [7, 9, 0];
  }

  /** It finds nothing left and passes the test before cleanup. Only then worker 1 gets the lock. */
  lemma LateClaim() returns (run: seq<State>, j: nat)
    ensures IsRun(EXAMPLE, 2, run) && |run| == j + 2 && EntersLate(EXAMPLE, run[j], run[j + 1], 0)
    ensures |run[j].files| == 1 && run[j].files[0].cleaned == 0
    ensures Last(run).workers == [Cleaning(0), Leaving(0, 3)]
    ensures |Last(run).files| == 1
    ensures Last(run).files[0] == FileState([0, 0, 0, 1], 2, [7, 9, 0], {(0, 0), (1, 0)}, 1, 1, 0, true)
  {
    hide IsRun;
    run := SecondBundle();
    run := OneClaim(run, 0, true);
    run := OnePass(run, 0);
    j := |run| - 1;
    var s := run[j];
    assert s.files[0] == FileState([0, 0, 0], 1, [7, 9, 0], {(0, 0), (1, 0)}, 1, 1, 0, false);
    run := OneClaim(run, 1, false);
    assert run[j] == s && WorkerNext(EXAMPLE, s, 1) == Some(run[j + 1]);
  }

  /** Two workers and one file are enough. Worker 0 claims and writes both bundles and passes the test before cleanup
      before worker 1, created together with it, first gets the lock. Worker 1 is then counted as a visitor after all,
      its exit index passes the test as well, and the file loses a byte that belongs to it. Neither of the two makes
      its first claim after a cleanup. */
  lemma CleanupCanHappenTwice() returns (run: seq<State>, j: nat)
    ensures Repairs(EXAMPLE[0]) && Real(EXAMPLE, 0) && IsRun(EXAMPLE, 2, run)
    ensures |Last(run).files| == 1 && Last(run).files[0].cleaned == 2 && Last(run).files[0].content == [7]
    ensures j + 2 < |run| && |run[j].files| == 1 && EntersLate(EXAMPLE, run[j], run[j + 1], 0)
    ensures run[j].files[0].cleaned == 0
  {
    ExampleIsPlanned();
    hide IsRun, EntersLate, Repairs;
    run, j := LateClaim();
    var passed := OnePass(run, 1);
    var once := OneCleanup(passed, 0);
    var twice := OneCleanup(once, 1);
    assert twice[..|run|] == twice[..|once|][..|passed|][..|run|] == run;
    assert twice[j] == twice[..|run|][j] && twice[j + 1] == twice[..|run|][j + 1];
    run := twice;
  }

  // Where it cannot happen.

  function Messages(work: seq<Option<nat>>, f: nat): nat {
    if work == [] then 0 else Bit(work[0] == Some(f)) + Messages(work[1..], f)
  }

  lemma {:induction false} MessagesSnoc(work: seq<Option<nat>>, m: Option<nat>, f: nat)
    ensures Messages(work + [m], f) == Messages(work, f) + Bit(m == Some(f))
  {
    if work == [] {
      assert work + [m] == [m];
    } else {
      MessagesSnoc(work[1..], m, f);
      assert (work + [m])[1..] == work[1..] + [m];
    }
  }

  /** Everybody who has entered the file, is about to, or has been sent a message to do so. */
  function Entries(s: State, f: nat): nat
    requires f < |s.files|
  {
    s.files[f].visitors + Count(EnteringIn(f), s.workers) + Messages(s.work, f)
  }

  /** With one thread, or for a file with one bundle, main sends exactly one worker. */
  predicate Solo(jobs: seq<Job>, threads: nat, f: nat) {
    Real(jobs, f) && (threads == 1 || Bundles(jobs[f]) == 1)
  }

  lemma SoloWorker(jobs: seq<Job>, s: State, w: nat, t: State, f: nat)
    requires ShapeOk(jobs, s) && f < |jobs| && w < |s.workers| && WorkerNext(jobs, s, w) == Some(t)
    ensures |t.files| == |jobs| && Entries(t, f) == Entries(s, f) && t.main == s.main
  {
    WorkerShape(jobs, s, w, t);
    CountUpdate(EnteringIn(f), s.workers, w, t.workers[w]);
    SoloMoves(jobs, s, w, t, f);
    hide ShapeOk, WorkerNext;
  }

  /** Only a first claim is a visit, and only a message makes a worker enter. */
  lemma SoloMoves(jobs: seq<Job>, s: State, w: nat, t: State, f: nat)
    requires |s.files| == |jobs| && f < |jobs| && w < |s.workers| && WorkerNext(jobs, s, w) == Some(t)
    ensures |t.files| == |jobs| && |t.workers| == |s.workers|
    ensures t.files[f].visitors == s.files[f].visitors + Bit(s.workers[w] == AtLock(f, false))
    ensures if s.workers[w].Waiting?
            then s.work != [] && t.work == s.work[1..] && (t.workers[w] == AtLock(f, false) <==> s.work[0] == Some(f))
            else t.work == s.work && t.workers[w] != AtLock(f, false)
  {
    hide Held;
  }

  lemma {:induction false} CountCreated(ws: seq<Worker>, from: nat, k: nat, file: nat, f: nat)
    requires from + k <= |ws| && forall w :: from <= w < from + k ==> ws[w].NotCreated?
    ensures Count(EnteringIn(f), Create(ws, from, k, file)) == Count(EnteringIn(f), ws) + (if f == file then k else 0)
  {
    if k == 0 {
      assert Create(ws, from, 0, file) == ws;
    } else {
      CountCreated(ws, from, k - 1, file, f);
      var r := Create(ws, from, k - 1, file);
      assert Create(ws, from, k, file) == r[from + k - 1 := AtLock(file, false)];
      CountUpdate(EnteringIn(f), r, from + k - 1, AtLock(file, false));
    }
  }

  lemma SoloOpened(jobs: seq<Job>, s: State, t: State, f: nat)
    requires ShapeOk(jobs, s) && s.main.Opened? && MainNext(jobs, s) == Some(t) && Solo(jobs, |s.workers|, f)
    requires Entries(s, f) <= Bit(f < CurrentFile(jobs, s.main))
    ensures |t.files| == |jobs| && Entries(t, f) <= Bit(f < CurrentFile(jobs, t.main))
  {
    var i := s.main.i;
    if jobs[i].Dispatch? {
      var k := Min(|s.workers| - s.created, Bundles(jobs[i]));
      CountCreated(s.workers, s.created, k, i, f);
      hide Create;
      assert f == i && k > 0 ==> k == 1 && t.main == NextFile(i + 1);
    }
  }

  lemma SoloMain(jobs: seq<Job>, s: State, t: State, f: nat)
    requires ShapeOk(jobs, s) && !s.main.Opened? && MainNext(jobs, s) == Some(t) && Solo(jobs, |s.workers|, f)
    requires Entries(s, f) <= Bit(f < CurrentFile(jobs, s.main))
    ensures |t.files| == |jobs| && Entries(t, f) <= Bit(f < CurrentFile(jobs, t.main))
  {
    hide Create;
    assert t.workers == s.workers && t.files == s.files;
    if s.main.Send? {
      MessagesSnoc(s.work, Some(s.main.i), f);
    } else if s.main.ShutSend? {
      MessagesSnoc(s.work, None, f);
    }
  }

  lemma SoloStep(jobs: seq<Job>, s: State, t: State, f: nat)
    requires ShapeOk(jobs, s) && Next(jobs, s, t) && Solo(jobs, |s.workers|, f)
    requires Entries(s, f) <= Bit(f < CurrentFile(jobs, s.main))
    ensures |t.files| == |jobs| && Entries(t, f) <= Bit(f < CurrentFile(jobs, t.main))
  {
    if MainNext(jobs, s) == Some(t) {
      if s.main.Opened? {
        SoloOpened(jobs, s, t, f);
      } else {
        SoloMain(jobs, s, t, f);
      }
    } else {
      var w :| 0 <= w < |s.workers| && WorkerNext(jobs, s, w) == Some(t);
      SoloWorker(jobs, s, w, t, f);
    }
  }

  lemma SoloStepInRun(jobs: seq<Job>, s: State, t: State, f: nat)
    requires Inv(jobs, s) && Next(jobs, s, t) && Solo(jobs, |s.workers|, f)
    requires Entries(s, f) <= Bit(f < CurrentFile(jobs, s.main))
    ensures |t.files| == |jobs| && Entries(t, f) <= Bit(f < CurrentFile(jobs, t.main))
  {
    SoloStep(jobs, s, t, f);
  }

  lemma {:induction false} SoloEntries(jobs: seq<Job>, threads: nat, run: seq<State>, i: nat, f: nat)
    requires threads > 0 && IsRun(jobs, threads, run) && i < |run| && Solo(jobs, threads, f)
    ensures Entries(run[i], f) <= Bit(f < CurrentFile(jobs, run[i].main))
  {
    hide Inv, Next;
    if i == 0 {
      CountNone(EnteringIn(f), run[0].workers);
    } else {
      SoloEntries(jobs, threads, run, i - 1, f);
      RunKeeps(jobs, threads, run, i - 1);
      SoloStepInRun(jobs, run[i - 1], run[i], f);
    }
  }

  lemma NoLateStep(jobs: seq<Job>, s: State, t: State, f: nat)
    requires Inv(jobs, s) && Real(jobs, f) && Entries(s, f) <= 1
    ensures !EntersLate(jobs, s, t, f)
  {
    if s.files[f].passed > 0 {
      assert FileInv(jobs[f], s.files[f], s.workers, f);
      assert s.files[f].visitors > 0;
      forall w | 0 <= w < |s.workers| ensures s.workers[w] != AtLock(f, false) {
        if s.workers[w] == AtLock(f, false) {
          CountSome(EnteringIn(f), s.workers, w);
          assert false;
        }
      }
    }
  }

  /** With a single thread, or for a file whose chunks all lie in one bundle, there is exactly one cleanup, always. */
  lemma SoloIsSafe(jobs: seq<Job>, threads: nat, run: seq<State>, f: nat)
    requires threads > 0 && IsRun(jobs, threads, run) && Terminal(run[|run| - 1]) && Solo(jobs, threads, f)
    ensures run[|run| - 1].files[f].cleaned == 1
    ensures Repairs(jobs[f]) ==> run[|run| - 1].files[f].content == jobs[f].target
  {
    hide Inv, EntersLate, Next, Terminal;
    forall j | 0 <= j < |run| - 1 ensures !EntersLate(jobs, run[j], run[j + 1], f) {
      SoloEntries(jobs, threads, run, j, f);
      RunKeeps(jobs, threads, run, j);
      NoLateStep(jobs, run[j], run[j + 1], f);
    }
    ExactlyOneCleanup(jobs, threads, run, f);
  }
}
