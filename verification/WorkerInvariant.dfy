/** The invariant of the whole protocol, and that every step keeps it. */
module WorkerInvariant {
  import opened Common
  import opened Workers
  import opened WorkerFiles

  /** A file that has something to download. */
  predicate Real(jobs: seq<Job>, f: nat) {
    f < |jobs| && Bundles(jobs[f]) > 0
  }

  ghost predicate ShapeOk(jobs: seq<Job>, s: State) {
    && |s.files| == |jobs| && |s.workers| > 0 && s.created <= |s.workers|
    && (forall w :: 0 <= w < |s.workers| ==> (s.workers[w].NotCreated? <==> w >= s.created))
    && match s.main
       case NextFile(i) => i <= |jobs|
       case Opened(i) => i < |jobs| && !jobs[i].Skip?
       case Take(i) => Real(jobs, i) && s.created == |s.workers|
       case Check(i) => Real(jobs, i) && s.created == |s.workers| && s.doRead
       case Send(i) => Real(jobs, i) && s.created == |s.workers| && s.doRead
       case ShutTake(k) => k <= s.created
       case ShutSend(k) => k < s.created && s.doRead
       case Joining => true
  }

  /** A token that main has read but not yet answered with a message. */
  function Hand(main: Main): nat {
    if main.Check? || main.Send? || main.ShutSend? then 1 else 0
  }

  /** Workers waiting for a message == tokens written and not yet answered, wherever they are. */
  ghost predicate TokensOk(s: State) {
    Count(IsWaiting, s.workers) == s.replies + |s.work| + (if s.doRead then 0 else 1) + Hand(s.main)
  }

  function FileOf(w: Worker): Option<nat> {
    match w
    case AtLock(f, _) => Some(f)
    case Noting(f, _, _) => Some(f)
    case Writing(f, _, _) => Some(f)
    case Leaving(f, _) => Some(f)
    case Cleaning(f) => Some(f)
    case _ => None
  }

  ghost predicate PlacesOk(jobs: seq<Job>, s: State) {
    && (forall w :: 0 <= w < |s.workers| && FileOf(s.workers[w]).Some? ==> Real(jobs, FileOf(s.workers[w]).value))
    && (forall m :: 0 <= m < |s.work| && s.work[m].Some? ==> Real(jobs, s.work[m].value))
  }

  function Nulls(work: seq<Option<nat>>): nat {
    if work == [] then 0 else Bit(work[0] == None) + Nulls(work[1..])
  }

  /** How many null messages main has written. */
  function Sent(s: State): nat {
    match s.main
    case ShutTake(k) => k
    case ShutSend(k) => k
    case Joining => s.created
    case _ => 0
  }

  ghost predicate NullsOk(s: State) {
    Nulls(s.work) + Count(IsDone, s.workers) == Sent(s)
  }

  ghost predicate FilesOk(jobs: seq<Job>, s: State)
    requires |s.files| == |jobs|
  {
    forall f :: 0 <= f < |jobs| && jobs[f].Dispatch? ==> FileInv(jobs[f], s.files[f], s.workers, f)
  }

  /** All bundles of the file have been claimed, and the last claim has been stored in `file_index_finished`,
      whatever has been stored there since. */
  predicate Noted(jobs: seq<Job>, s: State, f: nat)
    requires |s.files| == |jobs|
  {
    Real(jobs, f) && |s.files[f].claims| >= Bundles(jobs[f]) && !Held(s.workers, f)
  }

  ghost predicate IsNoted(jobs: seq<Job>, s: State, value: int)
    requires |s.files| == |jobs|
  {
    value == -1 || (value >= 0 && Noted(jobs, s, value))
  }

  /** `file_index_finished`, and what workers have read from it, is some file that is finished. It need not be the
      greatest one. */
  ghost predicate FinishedOk(jobs: seq<Job>, s: State)
    requires |s.files| == |jobs|
  {
    && IsNoted(jobs, s, s.finished)
    && (forall w :: 0 <= w < |s.workers| && s.workers[w].Noting? ==> IsNoted(jobs, s, s.workers[w].seen))
  }

  /** Somebody has entered the file, or is sure to. */
  ghost predicate Started(s: State, f: nat)
    requires f < |s.files|
  {
    || s.files[f].claims != []
    || (exists m :: 0 <= m < |s.work| && s.work[m] == Some(f))
    || (exists w :: 0 <= w < |s.workers| && s.workers[w] == AtLock(f, false))
  }

  function CurrentFile(jobs: seq<Job>, main: Main): nat {
    match main
    case NextFile(i) => i
    case Opened(i) => i
    case Take(i) => i
    case Check(i) => i
    case Send(i) => i
    case _ => |jobs|
  }

  ghost predicate StartedOk(jobs: seq<Job>, s: State)
    requires |s.files| == |jobs|
  {
    forall f :: 0 <= f < CurrentFile(jobs, s.main) && Real(jobs, f) ==> Started(s, f)
  }

  ghost predicate Inv(jobs: seq<Job>, s: State) {
    && ShapeOk(jobs, s) && TokensOk(s) && PlacesOk(jobs, s) && NullsOk(s)
    && FilesOk(jobs, s) && FinishedOk(jobs, s) && StartedOk(jobs, s)
  }

  lemma InitInv(jobs: seq<Job>, threads: nat)
    requires threads > 0
    ensures Inv(jobs, Init(jobs, threads))
  {
    var s := Init(jobs, threads);
    CountNone(IsWaiting, s.workers);
    CountNone(IsDone, s.workers);
    forall f | 0 <= f < |jobs| && jobs[f].Dispatch? ensures FileInv(jobs[f], s.files[f], s.workers, f) {
      FileInit(jobs[f], s.workers, f);
    }
  }

  lemma {:induction false} NullsSnoc(work: seq<Option<nat>>, m: Option<nat>)
    ensures Nulls(work + [m]) == Nulls(work) + Bit(m == None)
  {
    if work == [] {
      assert work + [m] == [m];
    } else {
      NullsSnoc(work[1..], m);
      assert (work + [m])[1..] == work[1..] + [m];
    }
  }

  // Steps of a worker.

  lemma WorkerShape(jobs: seq<Job>, s: State, w: nat, t: State)
    requires ShapeOk(jobs, s) && w < |s.workers| && WorkerNext(jobs, s, w) == Some(t)
    ensures ShapeOk(jobs, t)
    ensures t.workers == s.workers[w := t.workers[w]] && t.main == s.main && t.doRead == s.doRead
  {
    assert !s.workers[w].NotCreated?;
  }

  lemma WorkerTokens(jobs: seq<Job>, s: State, w: nat, t: State)
    requires ShapeOk(jobs, s) && TokensOk(s) && w < |s.workers| && WorkerNext(jobs, s, w) == Some(t)
    ensures TokensOk(t)
  {
    WorkerShape(jobs, s, w, t);
    hide ShapeOk, Claim, Put, PassTest, Cleanup, Held;
    CountUpdate(IsWaiting, s.workers, w, t.workers[w]);
  }

  lemma WorkerPlaces(jobs: seq<Job>, s: State, w: nat, t: State)
    requires ShapeOk(jobs, s) && PlacesOk(jobs, s) && w < |s.workers| && WorkerNext(jobs, s, w) == Some(t)
    ensures PlacesOk(jobs, t)
  {
    WorkerShape(jobs, s, w, t);
    hide ShapeOk, Claim, Put, PassTest, Cleanup, Held;
    forall v | 0 <= v < |t.workers| && FileOf(t.workers[v]).Some? ensures Real(jobs, FileOf(t.workers[v]).value) {
      if v != w {
        assert t.workers[v] == s.workers[v];
      }
    }
  }

  lemma WorkerNulls(jobs: seq<Job>, s: State, w: nat, t: State)
    requires ShapeOk(jobs, s) && NullsOk(s) && w < |s.workers| && WorkerNext(jobs, s, w) == Some(t)
    ensures NullsOk(t)
  {
    WorkerShape(jobs, s, w, t);
    assert t.created == s.created;
    hide ShapeOk, Claim, Put, PassTest, Cleanup, Held;
    CountUpdate(IsDone, s.workers, w, t.workers[w]);
  }

  lemma ClaimsMove(jobs: seq<Job>, s: State, w: nat, t: State, g: nat)
    requires |s.files| == |jobs| && w < |s.workers| && WorkerNext(jobs, s, w) == Some(t) && g < |jobs|
    ensures |t.files| == |jobs|
    ensures t.files[g].claims == if s.workers[w].AtLock? && s.workers[w].file == g
            then s.files[g].claims + [w] else s.files[g].claims
  {
  }

  lemma FinishedMoves(jobs: seq<Job>, s: State, w: nat, t: State)
    requires |s.files| == |jobs| && w < |s.workers| && WorkerNext(jobs, s, w) == Some(t)
    ensures t.finished == if s.workers[w].Noting? then Max(s.workers[w].seen, s.workers[w].file) else s.finished
    ensures |t.workers| == |s.workers|
    ensures t.workers[w].Noting? ==>
              && s.workers[w].AtLock? && t.workers[w].file == s.workers[w].file && t.workers[w].file < |jobs|
              && |s.files[t.workers[w].file].claims| + 1 == Bundles(jobs[t.workers[w].file])
              && t.workers[w].seen == s.finished && t.workers[w].bundle + 1 == Bundles(jobs[t.workers[w].file])
  {
    hide Claim, Put, PassTest, Cleanup;
  }

  /** What is noted stays so. */
  lemma NotedStays(jobs: seq<Job>, s: State, w: nat, t: State, g: nat)
    requires ShapeOk(jobs, s) && w < |s.workers| && WorkerNext(jobs, s, w) == Some(t) && Noted(jobs, s, g)
    ensures |t.files| == |jobs| && Noted(jobs, t, g)
  {
    WorkerShape(jobs, s, w, t);
    ClaimsMove(jobs, s, w, t, g);
    FinishedMoves(jobs, s, w, t);
    hide WorkerNext, ShapeOk;
    CountUpdate(NotingIn(g), s.workers, w, t.workers[w]);
  }

  /** The store of the last claim. */
  lemma NowNoted(jobs: seq<Job>, s: State, w: nat, t: State)
    requires ShapeOk(jobs, s) && PlacesOk(jobs, s) && FilesOk(jobs, s)
    requires w < |s.workers| && WorkerNext(jobs, s, w) == Some(t) && s.workers[w].Noting?
    ensures |t.files| == |jobs| && Noted(jobs, t, s.workers[w].file)
  {
    var f := s.workers[w].file;
    assert FileOf(s.workers[w]).Some?;
    assert FileInv(jobs[f], s.files[f], s.workers, f);
    NoteKeeps(jobs[f], s.files[f], s.workers, f, w, s.workers[w].bundle, s.workers[w].seen);
  }

  lemma WorkerFinished(jobs: seq<Job>, s: State, w: nat, t: State)
    requires ShapeOk(jobs, s) && PlacesOk(jobs, s) && FilesOk(jobs, s) && FinishedOk(jobs, s)
    requires w < |s.workers| && WorkerNext(jobs, s, w) == Some(t)
    ensures |t.files| == |jobs| && FinishedOk(jobs, t)
  {
    WorkerShape(jobs, s, w, t);
    FinishedMoves(jobs, s, w, t);
    if s.workers[w].Noting? {
      NowNoted(jobs, s, w, t);
    }
    hide WorkerNext, FilesOk, PlacesOk, ShapeOk, Noted;
    forall g: nat | Noted(jobs, s, g) ensures Noted(jobs, t, g) {
      NotedStays(jobs, s, w, t, g);
    }
    forall v | 0 <= v < |t.workers| && t.workers[v].Noting? ensures IsNoted(jobs, t, t.workers[v].seen) {
      if v != w {
        assert t.workers[v] == s.workers[v];
      }
    }
  }

  lemma WorkerStarted(jobs: seq<Job>, s: State, w: nat, t: State)
    requires ShapeOk(jobs, s) && StartedOk(jobs, s) && w < |s.workers| && WorkerNext(jobs, s, w) == Some(t)
    ensures |t.files| == |jobs| && StartedOk(jobs, t)
  {
    WorkerShape(jobs, s, w, t);
    forall f | 0 <= f < CurrentFile(jobs, t.main) && Real(jobs, f) ensures Started(t, f) {
      OneStarted(jobs, s, w, t, f);
    }
  }

  lemma OneStarted(jobs: seq<Job>, s: State, w: nat, t: State, f: nat)
    requires |s.files| == |jobs| && f < |jobs| && Started(s, f) && w < |s.workers| && WorkerNext(jobs, s, w) == Some(t)
    requires t.workers == s.workers[w := t.workers[w]]
    ensures |t.files| == |jobs| && Started(t, f)
  {
    ClaimsMove(jobs, s, w, t, f);
    if s.files[f].claims == [] {
      if m :| 0 <= m < |s.work| && s.work[m] == Some(f) {
        if s.workers[w].Waiting? {
          if m == 0 {
            assert t.workers[w] == AtLock(f, false);
          } else {
            assert t.work[m - 1] == Some(f);
          }
        } else {
          assert t.work[m] == Some(f);
        }
      } else {
        var v :| 0 <= v < |s.workers| && s.workers[v] == AtLock(f, false);
        if v != w {
          assert t.workers[v] == AtLock(f, false);
        }
      }
    }
  }

  lemma WorkerFileStates(jobs: seq<Job>, s: State, w: nat, t: State)
    requires ShapeOk(jobs, s) && PlacesOk(jobs, s) && FilesOk(jobs, s)
    requires w < |s.workers| && WorkerNext(jobs, s, w) == Some(t)
    ensures |t.files| == |jobs| && FilesOk(jobs, t)
  {
    WorkerShape(jobs, s, w, t);
    forall g | 0 <= g < |jobs| && jobs[g].Dispatch? ensures FileInv(jobs[g], t.files[g], t.workers, g) {
      assert FileInv(jobs[g], s.files[g], s.workers, g);
      if FileOf(s.workers[w]) == Some(g) {
        OwnFile(jobs, s, w, t, g);
      } else {
        OtherFile(jobs, s, w, t, g);
      }
    }
  }

  lemma OtherFile(jobs: seq<Job>, s: State, w: nat, t: State, g: nat)
    requires |s.files| == |jobs| && w < |s.workers| && WorkerNext(jobs, s, w) == Some(t)
    requires g < |jobs| && jobs[g].Dispatch? && FileInv(jobs[g], s.files[g], s.workers, g) &&
             FileOf(s.workers[w]) != Some(g)
    requires t.workers == s.workers[w := t.workers[w]]
    ensures |t.files| == |jobs| && FileInv(jobs[g], t.files[g], t.workers, g)
  {
    hide FileInv;
    assert t.files[g] == s.files[g];
    assert !Engaged(s.workers[w], g) && !Engaged(t.workers[w], g);
    FileFrame(jobs[g], s.files[g], s.workers, t.workers, g);
  }

  lemma OwnFile(jobs: seq<Job>, s: State, w: nat, t: State, g: nat)
    requires |s.files| == |jobs| && w < |s.workers| && WorkerNext(jobs, s, w) == Some(t)
    requires g < |jobs| && jobs[g].Dispatch? && FileInv(jobs[g], s.files[g], s.workers, g) &&
             FileOf(s.workers[w]) == Some(g)
    ensures |t.files| == |jobs| && FileInv(jobs[g], t.files[g], t.workers, g)
  {
    hide FileInv, Claim, Put, PassTest, Cleanup;
    match s.workers[w] {
      case AtLock(f, visited) => ClaimKeeps(jobs[g], s.files[g], s.workers, g, w, visited, s.finished);
      case Noting(f, b, seen) => NoteKeeps(jobs[g], s.files[g], s.workers, g, w, b, seen);
      case Writing(f, b, c) =>
        if c < |jobs[g].bundles[b]| {
          WriteKeeps(jobs[g], s.files[g], s.workers, g, w, b, c);
        } else {
          FinishKeeps(jobs[g], s.files[g], s.workers, g, w, b, c);
        }
      case Leaving(f, e) => LeaveKeeps(jobs[g], s.files[g], s.workers, g, w, e);
      case Cleaning(f) => CleanKeeps(jobs[g], s.files[g], s.workers, g, w);
    }
  }

  lemma WorkerKeeps(jobs: seq<Job>, s: State, w: nat, t: State)
    requires Inv(jobs, s) && w < |s.workers| && WorkerNext(jobs, s, w) == Some(t)
    ensures Inv(jobs, t)
  {
    hide WorkerNext, TokensOk, PlacesOk, NullsOk, FilesOk, FinishedOk, StartedOk;
    WorkerShape(jobs, s, w, t);
    WorkerTokens(jobs, s, w, t);
    WorkerPlaces(jobs, s, w, t);
    WorkerNulls(jobs, s, w, t);
    WorkerFinished(jobs, s, w, t);
    WorkerStarted(jobs, s, w, t);
    WorkerFileStates(jobs, s, w, t);
  }

  // Steps of the main thread.

  lemma CreatedWorkers(ws: seq<Worker>, from: nat, k: nat, file: nat)
    requires from + k <= |ws|
    ensures forall w :: 0 <= w < |ws| ==>
              Create(ws, from, k, file)[w] == if from <= w < from + k then AtLock(file, false) else ws[w]
  {
  }

  lemma MainShape(jobs: seq<Job>, s: State, t: State)
    requires ShapeOk(jobs, s) && MainNext(jobs, s) == Some(t)
    ensures ShapeOk(jobs, t) && t.files == s.files && t.finished == s.finished && |t.workers| == |s.workers|
    ensures forall w :: 0 <= w < |s.workers| ==>
              || t.workers[w] == s.workers[w]
              || (s.workers[w].NotCreated? && s.main.Opened? && Real(jobs, s.main.i)
                  && t.workers[w] == AtLock(s.main.i, false))
  {
    hide Create;
    if s.main.Opened? {
      CreatedWorkers(s.workers, s.created, Min(|s.workers| - s.created, Bundles(jobs[s.main.i])), s.main.i);
    }
  }

  lemma MainTokens(jobs: seq<Job>, s: State, t: State)
    requires ShapeOk(jobs, s) && TokensOk(s) && MainNext(jobs, s) == Some(t)
    ensures TokensOk(t)
  {
    MainShape(jobs, s, t);
    CountSame(IsWaiting, s.workers, t.workers);
    MainPipes(jobs, s, t);
    hide MainNext, ShapeOk, Hand;
  }

  /** Main turns tokens into messages, and a token in its hand is still one. */
  lemma MainPipes(jobs: seq<Job>, s: State, t: State)
    requires ShapeOk(jobs, s) && MainNext(jobs, s) == Some(t)
    ensures t.replies + |t.work| + (if t.doRead then 0 else 1) + Hand(t.main)
         == s.replies + |s.work| + (if s.doRead then 0 else 1) + Hand(s.main)
  {
    hide Create, Real, Bundles;
  }

  lemma MainPlaces(jobs: seq<Job>, s: State, t: State)
    requires ShapeOk(jobs, s) && PlacesOk(jobs, s) && MainNext(jobs, s) == Some(t)
    ensures PlacesOk(jobs, t)
  {
    MainShape(jobs, s, t);
    hide Create;
  }

  lemma MainNulls(jobs: seq<Job>, s: State, t: State)
    requires ShapeOk(jobs, s) && NullsOk(s) && MainNext(jobs, s) == Some(t)
    ensures NullsOk(t)
  {
    MainShape(jobs, s, t);
    CountSame(IsDone, s.workers, t.workers);
    MainSends(jobs, s, t);
    hide MainNext, ShapeOk, Nulls, Sent;
    if |t.work| > |s.work| {
      NullsSnoc(s.work, t.work[|s.work|]);
    }
  }

  /** Main sends null messages only at the end, and counts them. */
  lemma MainSends(jobs: seq<Job>, s: State, t: State)
    requires ShapeOk(jobs, s) && MainNext(jobs, s) == Some(t)
    ensures t.work == s.work || (|t.work| == |s.work| + 1 && t.work == s.work + [t.work[|s.work|]])
    ensures Sent(t) == Sent(s) + Bit(|t.work| > |s.work| && t.work[|s.work|] == None)
  {
    hide Create;
  }

  lemma MainFiles(jobs: seq<Job>, s: State, t: State)
    requires ShapeOk(jobs, s) && FilesOk(jobs, s) && MainNext(jobs, s) == Some(t)
    ensures |t.files| == |jobs| && FilesOk(jobs, t)
  {
    MainShape(jobs, s, t);
    hide FileInv, MainNext, ShapeOk;
    forall f | 0 <= f < |jobs| && jobs[f].Dispatch? ensures FileInv(jobs[f], t.files[f], t.workers, f) {
      FileFrame(jobs[f], s.files[f], s.workers, t.workers, f);
    }
  }

  lemma MainFinished(jobs: seq<Job>, s: State, t: State)
    requires ShapeOk(jobs, s) && FinishedOk(jobs, s) && MainNext(jobs, s) == Some(t)
    ensures |t.files| == |jobs| && FinishedOk(jobs, t)
  {
    MainShape(jobs, s, t);
    hide MainNext, ShapeOk;
    forall f: nat ensures Noted(jobs, t, f) == Noted(jobs, s, f) {
      CountSame(NotingIn(f), s.workers, t.workers);
    }
  }

  lemma StillStarted(jobs: seq<Job>, s: State, t: State, f: nat)
    requires ShapeOk(jobs, s) && MainNext(jobs, s) == Some(t) && f < |jobs| && Started(s, f)
    ensures |t.files| == |jobs| && Started(t, f)
  {
    MainShape(jobs, s, t);
    hide Create, ShapeOk;
    if s.files[f].claims == [] {
      if m :| 0 <= m < |s.work| && s.work[m] == Some(f) {
        assert t.work[m] == Some(f);
      } else {
        var v :| 0 <= v < |s.workers| && s.workers[v] == AtLock(f, false);
        assert t.workers[v] == AtLock(f, false);
      }
    }
  }

  lemma JustStarted(jobs: seq<Job>, s: State, t: State, f: nat)
    requires ShapeOk(jobs, s) && FinishedOk(jobs, s) && MainNext(jobs, s) == Some(t) && Real(jobs, f)
    requires CurrentFile(jobs, s.main) <= f < CurrentFile(jobs, t.main)
    ensures |t.files| == |jobs| && Started(t, f)
  {
    match s.main {
      case Opened(i) =>
        assert f == i && s.created < |s.workers|;
        assert t.workers[s.created] == AtLock(i, false);
      case Check(i) =>
        assert Noted(jobs, s, i);
      case Send(i) =>
        assert t.work[|s.work|] == Some(i);
      case _ => assert false;
    }
  }

  lemma MainStarted(jobs: seq<Job>, s: State, t: State)
    requires ShapeOk(jobs, s) && StartedOk(jobs, s) && FinishedOk(jobs, s) && MainNext(jobs, s) == Some(t)
    ensures |t.files| == |jobs| && StartedOk(jobs, t)
  {
    MainShape(jobs, s, t);
    hide ShapeOk, MainNext, Started;
    forall f | 0 <= f < CurrentFile(jobs, t.main) && Real(jobs, f) ensures Started(t, f) {
      if f < CurrentFile(jobs, s.main) {
        StillStarted(jobs, s, t, f);
      } else {
        JustStarted(jobs, s, t, f);
      }
    }
  }

  lemma MainKeeps(jobs: seq<Job>, s: State, t: State)
    requires Inv(jobs, s) && MainNext(jobs, s) == Some(t)
    ensures Inv(jobs, t)
  {
    hide MainNext, TokensOk, PlacesOk, NullsOk, FilesOk, FinishedOk, StartedOk;
    MainShape(jobs, s, t);
    MainTokens(jobs, s, t);
    MainPlaces(jobs, s, t);
    MainNulls(jobs, s, t);
    MainFiles(jobs, s, t);
    MainFinished(jobs, s, t);
    MainStarted(jobs, s, t);
  }

  /** Every step of every thread keeps the invariant. */
  lemma StepKeeps(jobs: seq<Job>, s: State, t: State)
    requires Inv(jobs, s) && Next(jobs, s, t)
    ensures Inv(jobs, t)
  {
    hide MainNext, WorkerNext, TokensOk, PlacesOk, NullsOk, FilesOk, FinishedOk, StartedOk;
    if MainNext(jobs, s) == Some(t) {
      MainKeeps(jobs, s, t);
    } else {
      var w :| 0 <= w < |s.workers| && WorkerNext(jobs, s, w) == Some(t);
      WorkerKeeps(jobs, s, w, t);
    }
  }

  /** A run: the initial state, and then one step after another. */
  ghost predicate IsRun(jobs: seq<Job>, threads: nat, run: seq<State>) {
    && run != [] && run[0] == Init(jobs, threads)
    && (forall i :: 0 <= i < |run| ==> Sane(jobs, run[i]))
    && forall i :: 0 < i < |run| ==> Next(jobs, run[i - 1], run[i])
  }

  function Last(run: seq<State>): State
    requires run != []
  {
    run[|run| - 1]
  }

  lemma {:induction false} RunKeeps(jobs: seq<Job>, threads: nat, run: seq<State>, i: nat)
    requires threads > 0 && IsRun(jobs, threads, run) && i < |run|
    ensures Inv(jobs, run[i]) && |run[i].workers| == threads
  {
    if i == 0 {
      InitInv(jobs, threads);
    } else {
      RunKeeps(jobs, threads, run, i - 1);
      StepKeeps(jobs, run[i - 1], run[i]);
      ThreadsStay(jobs, run[i - 1], run[i]);
    }
  }

  lemma ThreadsStay(jobs: seq<Job>, s: State, t: State)
    requires ShapeOk(jobs, s) && Next(jobs, s, t)
    ensures |t.workers| == |s.workers|
  {
  }
}
