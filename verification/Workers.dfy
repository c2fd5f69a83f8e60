/** The worker protocol of download.c as a state machine: any number of threads, any interleaving of their steps.

    Every file has its own lock. It protects `*index`, and the writes to `*threads_visited`, which is also read
    without it. It does not protect `*file_index_finished`, which all files share: two workers that hold the locks of
    different files may update it at the same time, and main reads it without a lock. So a step is a locked section
    up to and including its read of `*file_index_finished`; the store that ends the section of the last claim; one
    pipe operation; one chunk written; the unlocked test before cleanup; or the cleanup itself. */
module Workers {
  import opened Common

  /** One chunk that a worker has decompressed: its bytes, and where they go. */
  datatype Write = Write(offset: nat, data: seq<byte>)

  /** What the main loop decides about one file: leave it alone, only cut it to size, or have its bundles
      downloaded into the content that it has after being resized. */
  datatype Job =
    | Skip
    | Truncate
    | Dispatch(target: seq<byte>, initial: seq<byte>, bundles: seq<seq<Write>>)

  /** Noting: the last bundle is claimed, the lock still held, and `*file_index_finished` read but not yet stored.
      Leaving: the exit index is taken. Cleaning: the test before cleanup has succeeded. */
  datatype Worker =
    | NotCreated
    | AtLock(file: nat, visited: bool)
    | Noting(file: nat, bundle: nat, seen: int)
    | Writing(file: nat, bundle: nat, chunk: nat)
    | Leaving(file: nat, exit: nat)
    | Cleaning(file: nat)
    | Replying
    | Waiting
    | Done

  /** What the workers of one file share. `*index` is the number of claims; the other fields but
      `visitors` and `content` only record what happened. */
  datatype FileState = FileState(
    claims: seq<nat>,
    visitors: nat,
    content: seq<byte>,
    written: set<(nat, nat)>,
    passed: nat,
    lastPass: nat,
    cleaned: nat,
    lateEntry: bool)

  /** The main thread's program counter. */
  datatype Main =
    | NextFile(i: nat)
    | Opened(i: nat)
    | Take(i: nat)
    | Check(i: nat)
    | Send(i: nat)
    | ShutTake(k: nat)
    | ShutSend(k: nat)
    | Joining

  datatype State = State(
    main: Main,
    created: nat,
    doRead: bool,
    finished: int,
    replies: nat,
    work: seq<Option<nat>>,
    workers: seq<Worker>,
    files: seq<FileState>)

  function Max(a: int, b: int): int {
    if a > b then a else b
  }

  function Bundles(job: Job): nat {
    if job.Dispatch? then |job.bundles| else 0
  }

  /** Main gives worker threads created..created + k their first file, under the file's lock. */
  function Create(ws: seq<Worker>, from: nat, k: nat, file: nat): (r: seq<Worker>)
    requires from + k <= |ws|
    ensures |r| == |ws|
  {
    ws[..from] + seq(k, _ => AtLock(file, false)) + ws[from + k..]
  }

  /** One step of the main thread; None when it is blocked or has come to the joins. */
  function MainNext(jobs: seq<Job>, s: State): Option<State>
    requires |s.workers| > 0 && s.created <= |s.workers|
  {
    match s.main
    case NextFile(i) =>
      if i >= |jobs| then Some(s.(main := ShutTake(0)))
      else if jobs[i].Skip? then Some(s.(main := NextFile(i + 1)))
      else if s.created == |s.workers| && s.doRead then
        if s.replies == 0 then None else Some(s.(main := Opened(i), replies := s.replies - 1, doRead := false))
      else Some(s.(main := Opened(i)))
    case Opened(i) =>
      if i >= |jobs| || !jobs[i].Dispatch? then Some(s.(main := NextFile(i + 1)))
      else
        var k := Min(|s.workers| - s.created, Bundles(jobs[i]));
        var t := s.(workers := Create(s.workers, s.created, k, i), created := s.created + k);
        if s.created < |s.workers| && |s.workers| == 1 then Some(t.(main := NextFile(i + 1)))
        else if t.created == |s.workers| && k < Bundles(jobs[i]) then Some(t.(main := Take(i)))
        else Some(t.(main := NextFile(i + 1)))
    case Take(i) =>
      if !s.doRead then Some(s.(main := Check(i), doRead := true))
      else if s.replies == 0 then None
      else Some(s.(main := Check(i), replies := s.replies - 1))
    case Check(i) =>
      if s.finished == i then Some(s.(main := NextFile(i + 1), doRead := false)) else Some(s.(main := Send(i)))
    case Send(i) =>
      var t := s.(work := s.work + [Some(i)]);
      if |s.workers| == 1 || (i < |jobs| && Bundles(jobs[i]) == 1) then Some(t.(main := NextFile(i + 1)))
      else Some(t.(main := Take(i)))
    case ShutTake(k) =>
      if k >= s.created then Some(s.(main := Joining))
      else if !s.doRead then Some(s.(main := ShutSend(k), doRead := true))
      else if s.replies == 0 then None
      else Some(s.(main := ShutSend(k), replies := s.replies - 1))
    case ShutSend(k) => Some(s.(main := ShutTake(k + 1), work := s.work + [None]))
    case Joining => None
  }

  /** The locked section: take the next index, and count the first visit. A first visit is late if some worker has
      already passed the test before cleanup. */
  function Claim(fs: FileState, w: nat, visited: bool): FileState {
    fs.(claims := fs.claims + [w],
        visitors := if visited then fs.visitors else fs.visitors + 1,
        lateEntry := fs.lateEntry || (!visited && fs.passed > 0))
  }

  /** fseeko and fwrite of one chunk. */
  function WriteAt(content: seq<byte>, w: Write): (r: seq<byte>)
    ensures |r| == |content|
  {
    if w.offset + |w.data| <= |content| then content[..w.offset] + w.data + content[w.offset + |w.data|..] else content
  }

  function Put(fs: FileState, bundle: nat, chunk: nat, w: Write): FileState {
    fs.(content := WriteAt(fs.content, w), written := fs.written + {(bundle, chunk)})
  }

  /** The test before cleanup succeeds. */
  function PassTest(fs: FileState): FileState {
    fs.(passed := fs.passed + 1, lastPass := fs.visitors)
  }

  /** `cleanup_variable_bundle_args`: the file loses its last byte. */
  function Cleanup(fs: FileState): FileState {
    fs.(content := if fs.content == [] then [] else fs.content[..|fs.content| - 1], cleaned := fs.cleaned + 1)
  }

  /** Some worker holds the file's lock. */
  predicate Held(ws: seq<Worker>, f: nat) {
    Count(NotingIn(f), ws) > 0
  }

  /** What a worker does next that has just claimed this index. */
  function Claimed(f: nat, index: nat, length: nat, finished: int): Worker {
    if index >= length then Leaving(f, index)
    else if index + 1 == length then Noting(f, index, finished)
    else Writing(f, index, 0)
  }

  /** One step of worker w; None when it is blocked, finished or not yet created. */
  function WorkerNext(jobs: seq<Job>, s: State, w: nat): Option<State>
    requires w < |s.workers| && |s.files| == |jobs|
  {
    match s.workers[w]
    case NotCreated => None
    case AtLock(f, visited) =>
      if f >= |jobs| || Held(s.workers, f) then None
      else
        Some(s.(workers := s.workers[w := Claimed(f, |s.files[f].claims|, Bundles(jobs[f]), s.finished)],
                files := s.files[f := Claim(s.files[f], w, visited)]))
    case Noting(f, b, seen) => Some(s.(workers := s.workers[w := Writing(f, b, 0)], finished := Max(seen, f)))
    case Writing(f, b, c) =>
      if f >= |jobs| || b >= Bundles(jobs[f]) then None
      else if c < |jobs[f].bundles[b]| then
        Some(s.(workers := s.workers[w := Writing(f, b, c + 1)],
                files := s.files[f := Put(s.files[f], b, c, jobs[f].bundles[b][c])]))
      else Some(s.(workers := s.workers[w := AtLock(f, true)]))
    case Leaving(f, e) =>
      if f >= |jobs| then None
      else if e == Bundles(jobs[f]) + s.files[f].visitors - 1 then
        Some(s.(workers := s.workers[w := Cleaning(f)], files := s.files[f := PassTest(s.files[f])]))
      else Some(s.(workers := s.workers[w := Replying]))
    case Cleaning(f) =>
      if f >= |jobs| then None
      else Some(s.(workers := s.workers[w := Replying], files := s.files[f := Cleanup(s.files[f])]))
    case Replying => Some(s.(workers := s.workers[w := Waiting], replies := s.replies + 1))
    case Waiting =>
      if s.work == [] then None
      else
        Some(s.(workers := s.workers[w := match s.work[0] case Some(f) => AtLock(f, false) case None => Done],
                work := s.work[1..]))
    case Done => None
  }

  predicate Sane(jobs: seq<Job>, s: State) {
    |s.files| == |jobs| && |s.workers| > 0 && s.created <= |s.workers|
  }

  ghost predicate Next(jobs: seq<Job>, s: State, t: State) {
    && Sane(jobs, s)
    && (MainNext(jobs, s) == Some(t) || exists w :: 0 <= w < |s.workers| && WorkerNext(jobs, s, w) == Some(t))
  }

  function InitFile(job: Job): FileState {
    FileState([], 0, if job.Dispatch? then job.initial else [], {}, 0, 0, 0, false)
  }

  function Init(jobs: seq<Job>, threads: nat): State {
    State(NextFile(0), 0, true, -1, 0, [], seq(threads, _ => NotCreated), seq(|jobs|,
        f requires 0 <= f < |jobs| => InitFile(jobs[f])))
  }

  // Counting workers.

  datatype Query =
    | ActiveIn(file: nat)
    | NotingIn(file: nat)
    | CleaningIn(file: nat)
    | EnteringIn(file: nat)
    | IsNoting
    | IsWaiting
    | IsDone

  /** A worker is active in a file from its first claim until it has taken its exit index. */
  predicate Fits(q: Query, w: Worker) {
    match q
    case ActiveIn(f) => w == AtLock(f, true) || ((w.Noting? || w.Writing?) && w.file == f)
    case NotingIn(f) => w.Noting? && w.file == f
    case CleaningIn(f) => w == Cleaning(f)
    case IsNoting => w.Noting?
    case EnteringIn(f) => w == AtLock(f, false)
    case IsWaiting => w.Waiting?
    case IsDone => w.Done?
  }

  function Count(q: Query, ws: seq<Worker>): nat {
    if ws == [] then 0 else Count(q, ws[..|ws| - 1]) + if Fits(q, ws[|ws| - 1]) then 1 else 0
  }

  function Bit(b: bool): nat {
    if b then 1 else 0
  }

  lemma {:induction false} CountUpdate(q: Query, ws: seq<Worker>, i: nat, x: Worker)
    requires i < |ws|
    ensures Count(q, ws[i := x]) + Bit(Fits(q, ws[i])) == Count(q, ws) + Bit(Fits(q, x))
  {
    var n := |ws| - 1;
    if i == n {
      assert ws[i := x][..n] == ws[..n];
    } else {
      CountUpdate(q, ws[..n], i, x);
      assert ws[i := x][..n] == ws[..n][i := x];
    }
  }

  lemma {:induction false} CountSame(q: Query, ws: seq<Worker>, r: seq<Worker>)
    requires |ws| == |r| && forall i :: 0 <= i < |ws| ==> Fits(q, ws[i]) == Fits(q, r[i])
    ensures Count(q, ws) == Count(q, r)
  {
    if ws != [] {
      CountSame(q, ws[..|ws| - 1], r[..|r| - 1]);
    }
  }

  lemma {:induction false} CountSome(q: Query, ws: seq<Worker>, i: nat)
    requires i < |ws| && Fits(q, ws[i])
    ensures Count(q, ws) > 0
  {
    if i < |ws| - 1 {
      CountSome(q, ws[..|ws| - 1], i);
    }
  }

  lemma {:induction false} CountFind(q: Query, ws: seq<Worker>) returns (i: nat)
    requires Count(q, ws) > 0
    ensures i < |ws| && Fits(q, ws[i])
  {
    i := |ws| - 1;
    if !Fits(q, ws[i]) {
      i := CountFind(q, ws[..|ws| - 1]);
    }
  }

  lemma CountNone(q: Query, ws: seq<Worker>)
    requires forall w :: 0 <= w < |ws| ==> !Fits(q, ws[w])
    ensures Count(q, ws) == 0
  {
    if Count(q, ws) > 0 {
      var i := CountFind(q, ws);
      assert false;
    }
  }
}
