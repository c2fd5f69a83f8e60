/** What every step keeps of one file: claims, exits, visits, written chunks, content and cleanups. */
module WorkerFiles {
  import opened Common
  import opened Workers

  ghost predicate Covers(w: Write, p: nat) {
    w.offset <= p < w.offset + |w.data|
  }

  ghost predicate Planned(bundles: seq<seq<Write>>, p: nat) {
    exists b, c :: 0 <= b < |bundles| && 0 <= c < |bundles[b]| && Covers(bundles[b][c], p)
  }

  /** Every chunk holds what the target has in its place, and what no chunk covers was right already. */
  ghost predicate Repairs(job: Job)
    requires job.Dispatch?
  {
    && |job.initial| == |job.target| + 1
    && (forall b, c :: 0 <= b < |job.bundles| && 0 <= c < |job.bundles[b]| ==>
          var w := job.bundles[b][c];
          w.offset + |w.data| <= |job.target| && job.target[w.offset..w.offset + |w.data|] == w.data)
    && (forall p :: 0 <= p < |job.target| && !Planned(job.bundles, p) ==> job.initial[p] == job.target[p])
  }

  /** How many exit indices have been taken. */
  function Exits(n: nat, length: nat): nat {
    if n >= length then n - length else 0
  }

  /** What a worker holds it has claimed. */
  ghost predicate ClaimsOk(job: Job, fs: FileState, ws: seq<Worker>, f: nat)
    requires job.Dispatch?
  {
    forall w :: 0 <= w < |ws| ==>
      match ws[w]
      case Noting(g, b, _) => g == f ==>
           b + 1 == |job.bundles| && |fs.claims| == |job.bundles| && fs.claims[b] == w
      case Writing(g, b, c) => g == f ==>
           b < |job.bundles| && b < |fs.claims| && fs.claims[b] == w && c <= |job.bundles[b]|
      case Leaving(g, e) => g == f ==> |job.bundles| <= e < |fs.claims| && fs.claims[e] == w
      case _ => true
  }

  /** Every visit is either over, with an exit index taken, or still going on. */
  ghost predicate VisitsOk(job: Job, fs: FileState, ws: seq<Worker>, f: nat)
    requires job.Dispatch?
  {
    && fs.visitors == Exits(|fs.claims|, |job.bundles|) + Count(ActiveIn(f), ws)
    && (fs.claims != [] ==> fs.visitors > 0)
    && Count(NotingIn(f), ws) <= 1
  }

  /** A claimed chunk has been written, or its worker has yet to come to it. */
  ghost predicate ChunkOk(fs: FileState, ws: seq<Worker>, f: nat, b: nat, c: nat)
    requires b < |fs.claims|
  {
    var w := fs.claims[b];
    && w < |ws|
    && (|| (b, c) in fs.written
        || (ws[w].Noting? && ws[w].file == f && ws[w].bundle == b)
        || (ws[w].Writing? && ws[w].file == f && ws[w].bundle == b && ws[w].chunk <= c))
  }

  /** The claims below the length are written, up to where their workers stand. */
  ghost predicate WrittenOk(job: Job, fs: FileState, ws: seq<Worker>, f: nat)
    requires job.Dispatch?
  {
    forall b, c :: 0 <= b < |job.bundles| && b < |fs.claims| && 0 <= c < |job.bundles[b]| ==>
      ChunkOk(fs, ws, f, b, c)
  }

  ghost predicate InWritten(job: Job, fs: FileState, p: nat)
    requires job.Dispatch?
  {
    exists b, c :: (b, c) in fs.written && b < |job.bundles| && c < |job.bundles[b]| && Covers(job.bundles[b][c], p)
  }

  /** What was written, and what needed no writing, is right; only cleanups change the length. */
  ghost predicate ContentOk(job: Job, fs: FileState)
    requires job.Dispatch?
  {
    && |fs.content| == (if fs.cleaned <= |job.initial| then |job.initial| - fs.cleaned else 0)
    && |job.initial| == |job.target| + 1
    && forall p :: 0 <= p < |fs.content| && p < |job.target| && (!Planned(job.bundles, p) || InWritten(job, fs, p)) ==>
         fs.content[p] == job.target[p]
  }

  /** The worker that took the last exit index will pass the test before cleanup, unless it has done so already;
      and each worker that has passed it has cleaned up, or is about to. */
  ghost predicate CleanupOk(job: Job, fs: FileState, ws: seq<Worker>, f: nat)
    requires job.Dispatch?
  {
    var n, length := |fs.claims|, |job.bundles|;
    && fs.lastPass <= Exits(n, length) && (fs.passed == 0 <==> fs.lastPass == 0)
    && (fs.passed > 0 ==> Count(ActiveIn(f), ws) == 0)
    && fs.cleaned + Count(CleaningIn(f), ws) == fs.passed
    && (Exits(n, length) == fs.visitors >= 1 && fs.lastPass != fs.visitors ==>
          n > 0 && fs.claims[n - 1] < |ws| && ws[fs.claims[n - 1]] == Leaving(f, n - 1))
    && (forall w :: 0 <= w < |ws| && ws[w].Leaving? && ws[w].file == f && ws[w].exit + 1 == length + fs.visitors ==>
          fs.lastPass < fs.visitors)
    && (!fs.lateEntry ==> fs.passed <= 1 && (fs.passed == 1 ==> fs.lastPass == fs.visitors))
    && (fs.lateEntry ==> fs.passed >= 1 && (fs.passed >= 2 || fs.lastPass < fs.visitors))
  }

  ghost predicate FileInv(job: Job, fs: FileState, ws: seq<Worker>, f: nat)
    requires job.Dispatch?
  {
    && ClaimsOk(job, fs, ws, f) && VisitsOk(job, fs, ws, f) && WrittenOk(job, fs, ws, f)
    && CleanupOk(job, fs, ws, f) && (Repairs(job) ==> ContentOk(job, fs))
  }

  /** Whether a worker holds anything of the file's shared state. */
  predicate Engaged(w: Worker, f: nat) {
    w == AtLock(f, true) || ((w.Noting? || w.Writing? || w.Leaving? || w.Cleaning?) && w.file == f)
  }

  /** A file does not notice what workers do elsewhere. */
  lemma FileFrame(job: Job, fs: FileState, ws: seq<Worker>, r: seq<Worker>, f: nat)
    requires job.Dispatch? && FileInv(job, fs, ws, f) && |r| == |ws|
    requires forall w :: 0 <= w < |ws| && (Engaged(ws[w], f) || Engaged(r[w], f)) ==> ws[w] == r[w]
    ensures FileInv(job, fs, r, f)
  {
    CountSame(ActiveIn(f), ws, r);
    CountSame(NotingIn(f), ws, r);
    CountSame(CleaningIn(f), ws, r);
    forall b, c | 0 <= b < |job.bundles| && b < |fs.claims| && 0 <= c < |job.bundles[b]|
      ensures ChunkOk(fs, r, f, b, c)
    {
      assert ChunkOk(fs, ws, f, b, c);
    }
  }

  /** A file nobody has touched yet. */
  lemma FileInit(job: Job, ws: seq<Worker>, f: nat)
    requires job.Dispatch? && forall w :: 0 <= w < |ws| ==> ws[w].NotCreated?
    ensures FileInv(job, InitFile(job), ws, f)
  {
    CountNone(ActiveIn(f), ws);
    CountNone(NotingIn(f), ws);
    CountNone(CleaningIn(f), ws);
  }

  /** The locked section keeps the file's invariant. */
  lemma ClaimKeeps(job: Job, fs: FileState, ws: seq<Worker>, f: nat, w: nat, visited: bool, finished: int)
    requires job.Dispatch? && FileInv(job, fs, ws, f) && w < |ws| && ws[w] == AtLock(f, visited) && !Held(ws, f)
    ensures FileInv(job, Claim(fs, w, visited), ws[w := Claimed(f, |fs.claims|, |job.bundles|, finished)], f)
  {
    var n, length := |fs.claims|, |job.bundles|;
    var x := Claimed(f, n, length, finished);
    var r, gs := ws[w := x], Claim(fs, w, visited);
    CountUpdate(ActiveIn(f), ws, w, x);
    CountUpdate(NotingIn(f), ws, w, x);
    CountUpdate(CleaningIn(f), ws, w, x);
    NobodyNotes(ws, f);
    if visited {
      CountSome(ActiveIn(f), ws, w);
    }
    if Repairs(job) {
      ClaimContent(job, fs, w, visited);
    }
    assert ClaimsOk(job, gs, r, f);
    assert VisitsOk(job, gs, r, f);
    forall b, c | 0 <= b < length && b < |gs.claims| && 0 <= c < |job.bundles[b]| ensures ChunkOk(gs, r, f, b, c) {
      if b < n {
        assert ChunkOk(fs, ws, f, b, c);
      }
    }
    assert CleanupOk(job, gs, r, f);
  }

  lemma ClaimContent(job: Job, fs: FileState, w: nat, visited: bool)
    requires job.Dispatch? && ContentOk(job, fs)
    ensures ContentOk(job, Claim(fs, w, visited))
  {
    var gs := Claim(fs, w, visited);
    forall p | 0 <= p < |gs.content| && p < |job.target| && (!Planned(job.bundles, p) || InWritten(job, gs, p))
      ensures gs.content[p] == job.target[p]
    {
      assert InWritten(job, gs, p) ==> InWritten(job, fs, p);
    }
  }

  lemma NobodyNotes(ws: seq<Worker>, f: nat)
    requires !Held(ws, f)
    ensures forall w :: 0 <= w < |ws| ==> !Fits(NotingIn(f), ws[w])
  {
    forall w | 0 <= w < |ws| ensures !Fits(NotingIn(f), ws[w]) {
      if Fits(NotingIn(f), ws[w]) {
        CountSome(NotingIn(f), ws, w);
      }
    }
  }

  /** The end of the locked section of the last claim: the lock is free again. */
  lemma NoteKeeps(job: Job, fs: FileState, ws: seq<Worker>, f: nat, w: nat, b: nat, seen: int)
    requires job.Dispatch? && FileInv(job, fs, ws, f) && w < |ws| && ws[w] == Noting(f, b, seen)
    ensures FileInv(job, fs, ws[w := Writing(f, b, 0)], f) && !Held(ws[w := Writing(f, b, 0)], f)
  {
    var r := ws[w := Writing(f, b, 0)];
    CountUpdate(ActiveIn(f), ws, w, r[w]);
    CountUpdate(NotingIn(f), ws, w, r[w]);
    CountUpdate(CleaningIn(f), ws, w, r[w]);
    forall b', c' | 0 <= b' < |job.bundles| && b' < |fs.claims| && 0 <= c' < |job.bundles[b']|
      ensures ChunkOk(fs, r, f, b', c')
    {
      assert ChunkOk(fs, ws, f, b', c');
    }
  }

  /** Writing a chunk keeps the file's invariant, whatever else is being written. */
  lemma WriteKeeps(job: Job, fs: FileState, ws: seq<Worker>, f: nat, w: nat, b: nat, c: nat)
    requires job.Dispatch? && FileInv(job, fs, ws, f) && w < |ws| && ws[w] == Writing(f, b, c)
    requires b < |job.bundles| && c < |job.bundles[b]|
    ensures FileInv(job, Put(fs, b, c, job.bundles[b][c]), ws[w := Writing(f, b, c + 1)], f)
  {
    var r, gs := ws[w := Writing(f, b, c + 1)], Put(fs, b, c, job.bundles[b][c]);
    CountUpdate(ActiveIn(f), ws, w, Writing(f, b, c + 1));
    CountUpdate(NotingIn(f), ws, w, Writing(f, b, c + 1));
    CountUpdate(CleaningIn(f), ws, w, Writing(f, b, c + 1));
    CountSome(ActiveIn(f), ws, w);
    if Repairs(job) {
      WriteContent(job, fs, b, c);
    }
    assert ClaimsOk(job, gs, r, f);
    forall b', c' | 0 <= b' < |job.bundles| && b' < |gs.claims| && 0 <= c' < |job.bundles[b']|
      ensures ChunkOk(gs, r, f, b', c')
    {
      assert ChunkOk(fs, ws, f, b', c');
    }
    assert CleanupOk(job, gs, r, f);
  }

  lemma WriteContent(job: Job, fs: FileState, b: nat, c: nat)
    requires job.Dispatch? && ContentOk(job, fs) && Repairs(job) && b < |job.bundles| && c < |job.bundles[b]|
    requires fs.cleaned == 0
    ensures ContentOk(job, Put(fs, b, c, job.bundles[b][c]))
  {
    var w := job.bundles[b][c];
    var gs := Put(fs, b, c, w);
    assert w.offset + |w.data| <= |job.target| && job.target[w.offset..w.offset + |w.data|] == w.data;
    forall p | 0 <= p < |gs.content| && p < |job.target| && (!Planned(job.bundles, p) || InWritten(job, gs, p))
      ensures gs.content[p] == job.target[p]
    {
      if Covers(w, p) {
        assert job.target[p] == w.data[p - w.offset];
      } else if InWritten(job, gs, p) {
        assert InWritten(job, fs, p);
      }
    }
  }

  /** Going back for the next bundle. */
  lemma FinishKeeps(job: Job, fs: FileState, ws: seq<Worker>, f: nat, w: nat, b: nat, c: nat)
    requires job.Dispatch? && FileInv(job, fs, ws, f) && w < |ws| && ws[w] == Writing(f, b, c)
    requires b < |job.bundles| && c >= |job.bundles[b]|
    ensures FileInv(job, fs, ws[w := AtLock(f, true)], f)
  {
    var r := ws[w := AtLock(f, true)];
    CountUpdate(ActiveIn(f), ws, w, AtLock(f, true));
    CountUpdate(NotingIn(f), ws, w, AtLock(f, true));
    CountUpdate(CleaningIn(f), ws, w, AtLock(f, true));
    forall b', c' | 0 <= b' < |job.bundles| && b' < |fs.claims| && 0 <= c' < |job.bundles[b']|
      ensures ChunkOk(fs, r, f, b', c')
    {
      assert ChunkOk(fs, ws, f, b', c');
    }
  }

  /** Once all exit indices have been taken, every visitor has left and every bundle is written. */
  lemma AllHaveLeft(job: Job, fs: FileState, ws: seq<Worker>, f: nat)
    requires job.Dispatch? && FileInv(job, fs, ws, f) && Count(ActiveIn(f), ws) == 0 && |fs.claims| >= |job.bundles|
    ensures |fs.claims| == |job.bundles| + fs.visitors
    ensures forall v :: 0 <= v < |ws| ==> !Fits(ActiveIn(f), ws[v])
    ensures forall b, c :: 0 <= b < |job.bundles| && 0 <= c < |job.bundles[b]| ==> (b, c) in fs.written
  {
    forall v | 0 <= v < |ws| ensures !Fits(ActiveIn(f), ws[v]) {
      if Fits(ActiveIn(f), ws[v]) {
        CountSome(ActiveIn(f), ws, v);
      }
    }
    forall b, c | 0 <= b < |job.bundles| && 0 <= c < |job.bundles[b]| ensures (b, c) in fs.written {
      assert ChunkOk(fs, ws, f, b, c);
    }
  }

  /** The unlocked test before cleanup: when it succeeds, all have left. */
  lemma PassIsLast(job: Job, fs: FileState, ws: seq<Worker>, f: nat, w: nat, e: nat)
    requires job.Dispatch? && FileInv(job, fs, ws, f) && w < |ws| && ws[w] == Leaving(f, e)
    requires e == |job.bundles| + fs.visitors - 1
    ensures fs.visitors > 0 && Count(ActiveIn(f), ws) == 0 && |fs.claims| > |job.bundles|
  {
    assert |fs.claims| > e;
  }

  /** And once it has succeeded, it stays so. */
  lemma CleanupIsLast(job: Job, fs: FileState, ws: seq<Worker>, f: nat, w: nat)
    requires job.Dispatch? && FileInv(job, fs, ws, f) && w < |ws| && ws[w] == Cleaning(f)
    ensures fs.passed > 0 && Count(ActiveIn(f), ws) == 0 && |fs.claims| > |job.bundles|
  {
    CountSome(CleaningIn(f), ws, w);
  }

  /** With everything written the content is the target. */
  lemma AllWritten(job: Job, fs: FileState)
    requires job.Dispatch? && ContentOk(job, fs) && |fs.content| >= |job.target|
    requires forall b, c :: 0 <= b < |job.bundles| && 0 <= c < |job.bundles[b]| ==> (b, c) in fs.written
    ensures fs.content[..|job.target|] == job.target
  {
    forall p | 0 <= p < |job.target| ensures fs.content[p] == job.target[p] {
      if Planned(job.bundles, p) {
        var b, c :| 0 <= b < |job.bundles| && 0 <= c < |job.bundles[b]| && Covers(job.bundles[b][c], p);
        assert (b, c) in fs.written;
        assert InWritten(job, fs, p);
      }
    }
  }

  /** Leaving a file, with or without a cleanup to come. */
  lemma LeaveKeeps(job: Job, fs: FileState, ws: seq<Worker>, f: nat, w: nat, e: nat)
    requires job.Dispatch? && FileInv(job, fs, ws, f) && w < |ws| && ws[w] == Leaving(f, e)
    ensures if e == |job.bundles| + fs.visitors - 1 then FileInv(job, PassTest(fs), ws[w := Cleaning(f)], f)
            else FileInv(job, fs, ws[w := Replying], f)
  {
    if e == |job.bundles| + fs.visitors - 1 {
      PassTestKeeps(job, fs, ws, f, w, e);
    } else {
      GoKeeps(job, fs, ws, f, w, e);
    }
  }

  lemma PassTestKeeps(job: Job, fs: FileState, ws: seq<Worker>, f: nat, w: nat, e: nat)
    requires job.Dispatch? && FileInv(job, fs, ws, f) && w < |ws| && ws[w] == Leaving(f, e)
    requires e == |job.bundles| + fs.visitors - 1
    ensures FileInv(job, PassTest(fs), ws[w := Cleaning(f)], f)
  {
    var gs, r := PassTest(fs), ws[w := Cleaning(f)];
    CountUpdate(ActiveIn(f), ws, w, Cleaning(f));
    CountUpdate(NotingIn(f), ws, w, Cleaning(f));
    CountUpdate(CleaningIn(f), ws, w, Cleaning(f));
    PassIsLast(job, fs, ws, f, w, e);
    if Repairs(job) {
      PassContent(job, fs);
    }
    StillWritten(job, fs, ws, gs, r, f, w);
    hide ContentOk, Repairs;
    assert ClaimsOk(job, gs, r, f);
    assert CleanupOk(job, gs, r, f);
  }

  lemma GoKeeps(job: Job, fs: FileState, ws: seq<Worker>, f: nat, w: nat, e: nat)
    requires job.Dispatch? && FileInv(job, fs, ws, f) && w < |ws| && ws[w] == Leaving(f, e)
    requires e != |job.bundles| + fs.visitors - 1
    ensures FileInv(job, fs, ws[w := Replying], f)
  {
    var r := ws[w := Replying];
    CountUpdate(ActiveIn(f), ws, w, Replying);
    CountUpdate(NotingIn(f), ws, w, Replying);
    CountUpdate(CleaningIn(f), ws, w, Replying);
    StillWritten(job, fs, ws, fs, r, f, w);
    hide ContentOk, Repairs;
    assert ClaimsOk(job, fs, r, f);
    assert CleanupOk(job, fs, r, f);
  }

  /** A worker that leaves has no chunk still to write. */
  lemma StillWritten(job: Job, fs: FileState, ws: seq<Worker>, gs: FileState, r: seq<Worker>, f: nat, w: nat)
    requires job.Dispatch? && WrittenOk(job, fs, ws, f) && gs.claims == fs.claims && gs.written == fs.written
    requires w < |ws| && (ws[w].Leaving? || ws[w].Cleaning?) && |r| == |ws| && r == ws[w := r[w]]
    ensures WrittenOk(job, gs, r, f)
  {
    forall b, c | 0 <= b < |job.bundles| && b < |gs.claims| && 0 <= c < |job.bundles[b]|
      ensures ChunkOk(gs, r, f, b, c)
    {
      assert ChunkOk(fs, ws, f, b, c);
    }
  }

  lemma PassContent(job: Job, fs: FileState)
    requires job.Dispatch? && ContentOk(job, fs)
    ensures ContentOk(job, PassTest(fs))
  {
    var gs := PassTest(fs);
    forall p | 0 <= p < |gs.content| && p < |job.target| && (!Planned(job.bundles, p) || InWritten(job, gs, p))
      ensures gs.content[p] == job.target[p]
    {
      assert InWritten(job, gs, p) ==> InWritten(job, fs, p);
    }
  }

  /** The cleanup itself. */
  lemma CleanKeeps(job: Job, fs: FileState, ws: seq<Worker>, f: nat, w: nat)
    requires job.Dispatch? && FileInv(job, fs, ws, f) && w < |ws| && ws[w] == Cleaning(f)
    ensures FileInv(job, Cleanup(fs), ws[w := Replying], f)
  {
    var gs, r := Cleanup(fs), ws[w := Replying];
    CountUpdate(ActiveIn(f), ws, w, Replying);
    CountUpdate(NotingIn(f), ws, w, Replying);
    CountUpdate(CleaningIn(f), ws, w, Replying);
    if Repairs(job) {
      CleanupContent(job, fs);
    }
    forall b, c | 0 <= b < |job.bundles| && b < |gs.claims| && 0 <= c < |job.bundles[b]|
      ensures ChunkOk(gs, r, f, b, c)
    {
      assert ChunkOk(fs, ws, f, b, c);
    }
    assert CleanupOk(job, gs, r, f);
  }

  lemma CleanupContent(job: Job, fs: FileState)
    requires job.Dispatch? && ContentOk(job, fs)
    ensures ContentOk(job, Cleanup(fs))
  {
    var gs := Cleanup(fs);
    forall p | 0 <= p < |gs.content| && p < |job.target| && (!Planned(job.bundles, p) || InWritten(job, gs, p))
      ensures gs.content[p] == job.target[p]
    {
      assert InWritten(job, gs, p) ==> InWritten(job, fs, p);
    }
  }

  /** The first cleanup leaves exactly the target. */
  lemma FirstCleanup(job: Job, fs: FileState, ws: seq<Worker>, f: nat)
    requires job.Dispatch? && FileInv(job, fs, ws, f) && fs.cleaned == 0 && Repairs(job)
    requires Count(ActiveIn(f), ws) == 0 && |fs.claims| >= |job.bundles|
    ensures Cleanup(fs).content == job.target
  {
    AllHaveLeft(job, fs, ws, f);
    AllWritten(job, fs);
  }
}
