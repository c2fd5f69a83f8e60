/** What the worker protocol guarantees in every run. */
module WorkerTheorems {
  import opened Common
  import opened Workers
  import opened WorkerFiles
  import opened WorkerInvariant

  /** The conservation law of the two pipes: every waiting worker is paid for by exactly one token. */
  lemma TokensAreConserved(jobs: seq<Job>, threads: nat, run: seq<State>, i: nat)
    requires threads > 0 && IsRun(jobs, threads, run) && i < |run|
    ensures var s := run[i];
            Count(IsWaiting, s.workers) == s.replies + |s.work| + (if s.doRead then 0 else 1) + Hand(s.main)
  {
    RunKeeps(jobs, threads, run, i);
  }

  /** The worker is about to pass the test before cleanup, or has passed it and not cleaned up yet. */
  ghost predicate CleansUp(jobs: seq<Job>, s: State, w: nat, f: nat)
    requires |s.files| == |jobs|
  {
    && w < |s.workers| && f < |jobs|
    && (|| s.workers[w] == Cleaning(f)
        || (s.workers[w].Leaving? && s.workers[w].file == f
            && s.workers[w].exit + 1 == Bundles(jobs[f]) + s.files[f].visitors))
  }

  /** That is: its next step makes the cleanup, or makes it succeed in the test before. */
  lemma CleansUpNext(jobs: seq<Job>, s: State, w: nat, f: nat)
    requires |s.files| == |jobs| && w < |s.workers| && f < |jobs|
    ensures CleansUp(jobs, s, w, f) <==>
            || s.workers[w] == Cleaning(f)
            || (&& s.workers[w].Leaving? && WorkerNext(jobs, s, w).Some?
                && WorkerNext(jobs, s, w).value.workers[w] == Cleaning(f))
  {
  }

  /** A worker about to clean up is the last one: every bundle is claimed and written, every visitor has its exit
      index, and the file, once shortened by its spare byte, is the target, provided that its bundles repair it. */
  lemma CleanupIsSafe(jobs: seq<Job>, threads: nat, run: seq<State>, i: nat, w: nat, f: nat)
    requires threads > 0 && IsRun(jobs, threads, run) && i < |run|
    requires |run[i].files| == |jobs| && CleansUp(jobs, run[i], w, f)
    ensures jobs[f].Dispatch? && |run[i].files[f].claims| == |jobs[f].bundles| + run[i].files[f].visitors
    ensures forall v :: 0 <= v < |run[i].workers| ==> !Fits(ActiveIn(f), run[i].workers[v])
    ensures forall b, c :: 0 <= b < |jobs[f].bundles| && 0 <= c < |jobs[f].bundles[b]| ==>
              (b, c) in run[i].files[f].written
    ensures run[i].files[f].cleaned == 0 && Repairs(jobs[f]) ==> Cleanup(run[i].files[f]).content == jobs[f].target
  {
    RunKeeps(jobs, threads, run, i);
    var s := run[i];
    assert Real(jobs, FileOf(s.workers[w]).value);
    assert FileInv(jobs[f], s.files[f], s.workers, f);
    hide FileInv;
    if s.workers[w].Leaving? {
      PassIsLast(jobs[f], s.files[f], s.workers, f, w, s.workers[w].exit);
    } else {
      CleanupIsLast(jobs[f], s.files[f], s.workers, f, w);
    }
    AllHaveLeft(jobs[f], s.files[f], s.workers, f);
    if s.files[f].cleaned == 0 && Repairs(jobs[f]) {
      FirstCleanup(jobs[f], s.files[f], s.workers, f);
    }
  }

  /** The end of a run: main waits in the joins, and there is nobody left to wait for. */
  ghost predicate Terminal(s: State) {
    s.main.Joining? && forall w :: 0 <= w < |s.workers| ==> s.workers[w].Done? || s.workers[w].NotCreated?
  }

  lemma {:induction false} DoneAtMostCreated(ws: seq<Worker>, created: nat)
    requires created <= |ws| && forall w :: 0 <= w < |ws| ==> (ws[w].NotCreated? <==> w >= created)
    ensures Count(IsDone, ws) <= created
    ensures Count(IsDone, ws) == created <==> forall w :: 0 <= w < created ==> ws[w].Done?
  {
    if ws != [] {
      var n := |ws| - 1;
      DoneAtMostCreated(ws[..n], if created > n then n else created);
    }
  }

  /** A created worker that has neither to wait for a message nor for a lock can always take a step. */
  lemma WorkerCanStep(jobs: seq<Job>, s: State, w: nat)
    requires Inv(jobs, s) && w < s.created && !s.workers[w].Done? && (s.workers[w].Waiting? ==> s.work != [])
    requires s.workers[w].AtLock? ==> !Held(s.workers, s.workers[w].file)
    ensures WorkerNext(jobs, s, w).Some? && Next(jobs, s, WorkerNext(jobs, s, w).value)
  {
    assert ShapeOk(jobs, s);
    if FileOf(s.workers[w]).Some? {
      var f := FileOf(s.workers[w]).value;
      assert Real(jobs, f);
      assert FileInv(jobs[f], s.files[f], s.workers, f);
      assert ClaimsOk(jobs[f], s.files[f], s.workers, f);
    }
    assert Next(jobs, s, WorkerNext(jobs, s, w).value);
  }

  /** Whoever waits for a lock waits for a worker that can take a step. */
  lemma HolderCanStep(jobs: seq<Job>, s: State, f: nat) returns (w: nat)
    requires Inv(jobs, s) && Held(s.workers, f)
    ensures w < |s.workers| && Fits(NotingIn(f), s.workers[w])
    ensures WorkerNext(jobs, s, w).Some? && Next(jobs, s, WorkerNext(jobs, s, w).value)
  {
    w := CountFind(NotingIn(f), s.workers);
    assert !s.workers[w].NotCreated? && ShapeOk(jobs, s);
    WorkerCanStep(jobs, s, w);
  }

  /** While main is blocked, some created worker is not: the tokens say so. */
  lemma SomeWorkerIsFree(jobs: seq<Job>, s: State) returns (w: nat)
    requires Inv(jobs, s) && !Terminal(s) && MainNext(jobs, s) == None
    ensures w < s.created && !s.workers[w].Done? && (s.workers[w].Waiting? ==> s.work != [])
  {
    DoneAtMostCreated(s.workers, s.created);
    assert Nulls(s.work) + Count(IsDone, s.workers) == Sent(s);
    assert exists v :: 0 <= v < s.created && !s.workers[v].Done?;
    w :| 0 <= w < s.created && !s.workers[w].Done?;
    if s.workers[w].Waiting? {
      CountSome(IsWaiting, s.workers, w);
      if s.main.Joining? {
        assert Nulls(s.work) > 0;
      }
    }
  }

  /** No deadlock: as long as the run is not over, some thread can take a step. */
  lemma NeverStuck(jobs: seq<Job>, s: State)
    requires Inv(jobs, s) && !Terminal(s)
    ensures exists t :: Next(jobs, s, t)
  {
    if MainNext(jobs, s) != None {
      assert Next(jobs, s, MainNext(jobs, s).value);
    } else {
      var w := SomeWorkerIsFree(jobs, s);
      if s.workers[w].AtLock? && Held(s.workers, s.workers[w].file) {
        w := HolderCanStep(jobs, s, s.workers[w].file);
      } else {
        WorkerCanStep(jobs, s, w);
      }
    }
  }

  /** At the end both pipes are empty, and as many null messages were sent, and taken, as workers were created. */
  lemma ShutdownIsClean(jobs: seq<Job>, s: State)
    requires Inv(jobs, s) && Terminal(s)
    ensures s.replies == 0 && s.work == [] && s.doRead
    ensures Sent(s) == s.created == Count(IsDone, s.workers)
  {
    DoneAtMostCreated(s.workers, s.created);
    CountNone(IsWaiting, s.workers);
  }

  /** At the end every file with something to download has been cleaned up, and exactly once if and only if no
      worker entered it after another one had passed the test before cleanup. If its bundles repair it, it then, and
      only then, holds the target. */
  lemma FilesAreFinished(jobs: seq<Job>, s: State, f: nat)
    requires Inv(jobs, s) && Terminal(s) && Real(jobs, f)
    ensures s.files[f].cleaned == s.files[f].passed >= 1
    ensures s.files[f].cleaned == 1 <==> !s.files[f].lateEntry
    ensures Repairs(jobs[f]) && !s.files[f].lateEntry ==> s.files[f].content == jobs[f].target
    ensures Repairs(jobs[f]) && s.files[f].lateEntry && jobs[f].target != [] ==> s.files[f].content != jobs[f].target
  {
    var fs, job := s.files[f], jobs[f];
    ShutdownIsClean(jobs, s);
    assert Started(s, f);
    assert FileInv(job, fs, s.workers, f);
    CountNone(ActiveIn(f), s.workers);
    CountNone(CleaningIn(f), s.workers);
    if fs.cleaned == 1 && Repairs(job) {
      forall b, c | 0 <= b < |job.bundles| && 0 <= c < |job.bundles[b]| ensures (b, c) in fs.written {
        assert ChunkOk(fs, s.workers, f, b, c);
      }
      AllWritten(job, fs);
    }
  }

  /** Worker w makes its first claim in file f, where some worker has already passed the test before cleanup. */
  ghost predicate EntersLate(jobs: seq<Job>, s: State, t: State, f: nat)
    requires |s.files| == |jobs|
  {
    && f < |jobs| && s.files[f].passed > 0
    && exists w :: 0 <= w < |s.workers| && s.workers[w] == AtLock(f, false) && WorkerNext(jobs, s, w) == Some(t)
  }

  /** A worker that enters a file before its last bundle is claimed, as main's test of `file_index_finished` is
      meant to ensure, is never late. */
  lemma EarlyEntryIsNotLate(jobs: seq<Job>, s: State, f: nat)
    requires Inv(jobs, s) && Real(jobs, f) && |s.files[f].claims| < Bundles(jobs[f])
    ensures s.files[f].passed == 0
  {
    assert FileInv(jobs[f], s.files[f], s.workers, f);
  }

  lemma LateStep(jobs: seq<Job>, s: State, t: State, f: nat)
    requires ShapeOk(jobs, s) && Next(jobs, s, t) && f < |jobs|
    ensures |t.files| == |jobs|
    ensures t.files[f].lateEntry <==> s.files[f].lateEntry || EntersLate(jobs, s, t, f)
  {
    if MainNext(jobs, s) == Some(t) {
      MainShape(jobs, s, t);
    }
  }

  /** The recorded flag is what it says: a late entry happened in this run. */
  lemma {:induction false} LateMeansEntered(jobs: seq<Job>, threads: nat, run: seq<State>, i: nat, f: nat)
    requires threads > 0 && IsRun(jobs, threads, run) && i < |run| && f < |jobs|
    ensures run[i].files[f].lateEntry <==> exists j :: 0 <= j < i && EntersLate(jobs, run[j], run[j + 1], f)
  {
    hide Inv, EntersLate, Next;
    if i > 0 {
      LateMeansEntered(jobs, threads, run, i - 1, f);
      RunKeeps(jobs, threads, run, i - 1);
      LateStepInRun(jobs, run[i - 1], run[i], f);
      if j :| 0 <= j < i - 1 && EntersLate(jobs, run[j], run[j + 1], f) {
      }
    }
  }

  lemma LateStepInRun(jobs: seq<Job>, s: State, t: State, f: nat)
    requires Inv(jobs, s) && Next(jobs, s, t) && f < |jobs| && |t.files| == |jobs|
    ensures t.files[f].lateEntry <==> s.files[f].lateEntry || EntersLate(jobs, s, t, f)
  {
    LateStep(jobs, s, t, f);
  }

  /** Over a whole run: exactly one worker cleans a file up, and leaves the target behind, if and only if no worker
      makes its first claim in the file after another one has passed the test before cleanup. */
  lemma ExactlyOneCleanup(jobs: seq<Job>, threads: nat, run: seq<State>, f: nat)
    requires threads > 0 && IsRun(jobs, threads, run) && Terminal(run[|run| - 1]) && Real(jobs, f)
    ensures run[|run| - 1].files[f].cleaned == 1
       <==> !exists j :: 0 <= j < |run| - 1 && EntersLate(jobs, run[j], run[j + 1], f)
    ensures run[|run| - 1].files[f].cleaned == 1 && Repairs(jobs[f]) ==>
              run[|run| - 1].files[f].content == jobs[f].target
  {
    var l := |run| - 1;
    RunKeeps(jobs, threads, run, l);
    LateMeansEntered(jobs, threads, run, l, f);
    FilesAreFinished(jobs, run[l], f);
  }

  // Claims.

  /** Step j of the run claims index b of file f. */
  ghost predicate ClaimsIndex(run: seq<State>, j: nat, f: nat, b: nat)
    requires j + 1 < |run| && f < |run[j].files| && f < |run[j + 1].files|
  {
    |run[j].files[f].claims| == b && |run[j + 1].files[f].claims| == b + 1
  }

  lemma ClaimsStep(jobs: seq<Job>, s: State, t: State, f: nat)
    requires ShapeOk(jobs, s) && Next(jobs, s, t) && f < |jobs|
    ensures |t.files| == |jobs|
    ensures |s.files[f].claims| <= |t.files[f].claims| <= |s.files[f].claims| + 1
  {
    if MainNext(jobs, s) == Some(t) {
      MainShape(jobs, s, t);
    }
  }

  lemma ClaimsStepInRun(jobs: seq<Job>, s: State, t: State, f: nat)
    requires Inv(jobs, s) && Next(jobs, s, t) && f < |jobs| && |t.files| == |jobs|
    ensures |s.files[f].claims| <= |t.files[f].claims| <= |s.files[f].claims| + 1
  {
    ClaimsStep(jobs, s, t, f);
  }

  lemma {:induction false} ClaimsAscend(jobs: seq<Job>, threads: nat, run: seq<State>, i: nat, k: nat, f: nat)
    requires threads > 0 && IsRun(jobs, threads, run) && i <= k < |run| && f < |jobs|
    ensures |run[i].files[f].claims| <= |run[k].files[f].claims|
    decreases k
  {
    hide Inv, Next;
    if i < k {
      ClaimsAscend(jobs, threads, run, i, k - 1, f);
      RunKeeps(jobs, threads, run, k - 1);
      ClaimsStepInRun(jobs, run[k - 1], run[k], f);
    }
  }

  /** No index is skipped, and none is claimed twice: each is taken by exactly one step. */
  lemma {:induction false} ClaimedExactlyOnce(jobs: seq<Job>, threads: nat, run: seq<State>, f: nat, b: nat)
    returns (j: nat)
    requires threads > 0 && IsRun(jobs, threads, run) && f < |jobs|
    requires b < |run[|run| - 1].files[f].claims|
    ensures j + 1 < |run| && ClaimsIndex(run, j, f, b)
    ensures forall k :: 0 <= k < |run| - 1 && k != j ==> !ClaimsIndex(run, k, f, b)
  {
    hide Inv, Next;
    j := 0;
    assert run[0].files[f].claims == [];
    while |run[j + 1].files[f].claims| <= b
      invariant j + 1 < |run| && |run[j].files[f].claims| <= b
      decreases |run| - j
    {
      j := j + 1;
    }
    RunKeeps(jobs, threads, run, j);
    ClaimsStepInRun(jobs, run[j], run[j + 1], f);
    forall k | 0 <= k < |run| - 1 && k != j ensures !ClaimsIndex(run, k, f, b) {
      if k < j {
        ClaimsAscend(jobs, threads, run, k + 1, j, f);
      } else {
        ClaimsAscend(jobs, threads, run, j + 1, k, f);
      }
    }
  }
}
