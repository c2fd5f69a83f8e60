/** Verifying a file on disk against its chunks, and what has to be downloaded to repair it. */
module Repair {
  import opened Common
  import opened ChunkHash
  import opened Ordering
  import opened Lists
  import opened Workers
  import opened WorkerFiles

  function FileEnd(c: Chunk): nat { c.fileOffset + c.uncompressedSize }

  /** The chunks tile the file from its first byte on, in order and without a gap. */
  ghost predicate Tiles(chunks: seq<Chunk>, size: nat) {
    && size < TWO_TO_THE_64
    && (chunks != [] ==> chunks[0].fileOffset == 0)
    && (forall i :: 0 < i < |chunks| ==> chunks[i].fileOffset == FileEnd(chunks[i - 1]))
    && size == (if chunks == [] then 0 else FileEnd(chunks[|chunks| - 1]))
  }

  lemma {:induction false} TilesAscend(chunks: seq<Chunk>, size: nat, i: nat, j: nat)
    requires Tiles(chunks, size) && i <= j < |chunks|
    ensures chunks[i].fileOffset <= chunks[j].fileOffset && FileEnd(chunks[i]) <= FileEnd(chunks[j]) <= size
    decreases |chunks| - i, j - i
  {
    if i < j {
      assert chunks[j].fileOffset == FileEnd(chunks[j - 1]);
      TilesAscend(chunks, size, i, j - 1);
    }
    if j < |chunks| - 1 {
      TilesAscend(chunks, size, j + 1, |chunks| - 1);
      assert chunks[j + 1].fileOffset == FileEnd(chunks[j]);
    }
  }

  /** Every byte of the file lies in a chunk. */
  lemma {:induction false} ChunkAt(chunks: seq<Chunk>, size: nat, p: nat, n: nat) returns (i: nat)
    requires Tiles(chunks, size) && n <= |chunks| && p < (if n == 0 then 0 else FileEnd(chunks[n - 1]))
    ensures i < n && chunks[i].fileOffset <= p < FileEnd(chunks[i])
  {
    if chunks[n - 1].fileOffset <= p {
      i := n - 1;
    } else {
      assert n > 1 && chunks[n - 1].fileOffset == FileEnd(chunks[n - 2]);
      i := ChunkAt(chunks, size, p, n - 1);
    }
  }

  ghost predicate InTarget(chunks: seq<Chunk>, target: seq<byte>) {
    forall i :: 0 <= i < |chunks| ==> FileEnd(chunks[i]) <= |target|
  }

  function Piece(content: seq<byte>, c: Chunk): seq<byte>
    requires FileEnd(c) <= |content|
  {
    content[c.fileOffset..FileEnd(c)]
  }

  /** The chunk is on disk as it should be. */
  ghost predicate OnDisk(file: seq<byte>, target: seq<byte>, c: Chunk)
    requires FileEnd(c) <= |target|
  {
    FileEnd(c) <= |file| && Piece(file, c) == Piece(target, c)
  }

  /** The chunk checksum accepts the right bytes and no others. */
  ghost predicate Distinguishes(target: seq<byte>, c: Chunk, blake3: seq<byte> -> uint64)
    requires FileEnd(c) <= |target|
  {
    forall data: seq<byte> :: |data| == c.uncompressedSize ==>
      (ExpectedId(data, c.hashType, blake3) == Some(c.chunkId) <==> data == Piece(target, c))
  }

  ghost predicate Checkable(target: seq<byte>, chunks: seq<Chunk>, blake3: seq<byte> -> uint64) {
    && Tiles(chunks, |target|) && InTarget(chunks, target)
    && forall i :: 0 <= i < |chunks| ==> Distinguishes(target, chunks[i], blake3)
  }

  /** The chunks that are not right on disk, in file order. */
  ghost function Wrong(file: seq<byte>, target: seq<byte>, chunks: seq<Chunk>): seq<Chunk>
    requires InTarget(chunks, target)
  {
    if chunks == [] then []
    else
      var l := |chunks| - 1;
      Wrong(file, target, chunks[..l]) + if OnDisk(file, target, chunks[l]) then [] else [chunks[l]]
  }

  /** When all chunks from some point on are wrong, all of them are selected. */
  lemma {:induction false} AllWrong(file: seq<byte>, target: seq<byte>, chunks: seq<Chunk>, i: nat)
    requires InTarget(chunks, target) && i <= |chunks|
    requires forall k :: i <= k < |chunks| ==> !OnDisk(file, target, chunks[k])
    ensures Wrong(file, target, chunks) == Wrong(file, target, chunks[..i]) + chunks[i..]
  {
    hide OnDisk;
    var l := |chunks| - 1;
    if i <= l {
      AllWrong(file, target, chunks[..l], i);
      assert chunks[..l][..i] == chunks[..i];
      Reassociate(Wrong(file, target, chunks[..i]), chunks[..l][i..], [chunks[l]]);
      assert chunks[..l][i..] + [chunks[l]] == chunks[i..];
    } else {
      assert chunks[..i] == chunks;
    }
  }

  lemma BehindTheEnd(file: seq<byte>, target: seq<byte>, chunks: seq<Chunk>, i: nat, j: nat)
    requires Tiles(chunks, |target|) && i <= j < |chunks| && |file| < FileEnd(chunks[i])
    requires InTarget(chunks, target)
    ensures !OnDisk(file, target, chunks[j])
  {
    TilesAscend(chunks, |target|, i, j);
  }

  /** The file is right exactly when nothing is wrong with its chunks or its size. */
  lemma RightWhenNothingWrong(file: seq<byte>, target: seq<byte>, chunks: seq<Chunk>)
    requires Tiles(chunks, |target|)
    requires InTarget(chunks, target)
    ensures Wrong(file, target, chunks) == [] && |file| == |target| <==> file == target
  {
    if Wrong(file, target, chunks) == [] && |file| == |target| {
      forall p | 0 <= p < |target| ensures file[p] == target[p] {
        RightByte(file, target, chunks, p);
      }
    }
    if file == target {
      NothingWrong(target, chunks);
    }
  }

  /** A byte is right unless it lies in a wrong chunk. */
  lemma RightByte(file: seq<byte>, target: seq<byte>, chunks: seq<Chunk>, p: nat)
    requires Tiles(chunks, |target|) && p < |target|
    requires InTarget(chunks, target)
    requires forall c :: c in Wrong(file, target, chunks) ==> !(c.fileOffset <= p < FileEnd(c))
    ensures p < |file| && file[p] == target[p]
  {
    hide Wrong;
    var i := ChunkAt(chunks, |target|, p, |chunks|);
    NotWrong(file, target, chunks, i);
    var c := chunks[i];
    assert Piece(file, c)[p - c.fileOffset] == Piece(target, c)[p - c.fileOffset];
  }

  lemma {:induction false} NotWrong(file: seq<byte>, target: seq<byte>, chunks: seq<Chunk>, i: nat)
    requires InTarget(chunks, target)
    requires i < |chunks|
    ensures OnDisk(file, target, chunks[i]) || chunks[i] in Wrong(file, target, chunks)
  {
    if i < |chunks| - 1 {
      NotWrong(file, target, chunks[..|chunks| - 1], i);
    }
  }

  lemma {:induction false} NothingWrong(target: seq<byte>, chunks: seq<Chunk>)
    requires InTarget(chunks, target)
    ensures Wrong(target, target, chunks) == []
  {
    if chunks != [] {
      NothingWrong(target, chunks[..|chunks| - 1]);
    }
  }

  lemma {:induction false} WrongAreChunks(file: seq<byte>, target: seq<byte>, chunks: seq<Chunk>, c: Chunk)
    requires InTarget(chunks, target)
    ensures c in Wrong(file, target, chunks) ==> c in chunks && !OnDisk(file, target, c)
  {
    if chunks != [] {
      WrongAreChunks(file, target, chunks[..|chunks| - 1], c);
    }
  }

  /** The next chunk's bytes are read, and their checksum is compared. */
  method ReadAndCheck(file: seq<byte>, pos: nat, c: Chunk, blake3: seq<byte> -> uint64,
                      ghost target: seq<byte>) returns (valid: bool)
    requires pos == c.fileOffset && FileEnd(c) <= |file| && FileEnd(c) <= |target| && Distinguishes(target, c, blake3)
    ensures valid <==> OnDisk(file, target, c)
  {
    hide ExpectedId;
    var currentChunk := file[pos..pos + c.uncompressedSize];
    valid := ChunkValid(currentChunk, c.chunkId, c.hashType, blake3);
  }

  /** The verification of `download_files`, for a file that exists. With verifyOnly it stops at the first fault. */
  method VerifyFile(file: seq<byte>, fileSize: nat, chunks: seq<Chunk>, verifyOnly: bool, blake3: seq<byte> -> uint64,
                    ghost target: seq<byte>)
    returns (correct: bool, toDownload: List<Chunk>)
    requires Checkable(target, chunks, blake3) && fileSize == |target|
    ensures correct <==> file == target
    ensures fresh(toDownload) && fresh(toDownload.objects) && toDownload.Valid()
    ensures !verifyOnly ==> toDownload.Contents() == Wrong(file, target, chunks)
  {
    hide ExpectedId, OnDisk, Wrong, Tiles, Distinguishes;
    toDownload := new List<Chunk>(16);
    RightWhenNothingWrong(file, target, chunks);
    if verifyOnly && |file| != fileSize {
      return false, toDownload;
    }
    var pos := 0;
    var i := 0;
    WrongOfNothing(file, target);
    while i < |chunks|
      invariant 0 <= i <= |chunks| && pos == Reached(chunks, i) <= |file|
      invariant fresh(toDownload) && fresh(toDownload.objects) && toDownload.Valid() && toDownload.allocatedLength >= 16
      invariant toDownload.Contents() == Wrong(file, target, chunks[..i])
      invariant verifyOnly ==> Wrong(file, target, chunks[..i]) == []
    {
      NextPosition(chunks, |target|, i);
      if |file| < chunks[i].fileOffset + chunks[i].uncompressedSize {
        RestIsWrong(file, target, chunks, i);
        if verifyOnly {
          return false, toDownload;
        }
        toDownload.AddAll(chunks[i..]);
        return false, toDownload;
      } else {
        var valid := CheckNext(file, pos, chunks, i, blake3, target);
        if !valid {
          if verifyOnly {
            return false, toDownload;
          }
          toDownload.Add(chunks[i]);
        }
        pos := pos + chunks[i].uncompressedSize;
      }
      i := i + 1;
    }
    assert chunks[..|chunks|] == chunks;
    correct := toDownload.length == 0 && |file| == fileSize;
  }

  /** Where reading stands before chunk i. */
  function Reached(chunks: seq<Chunk>, i: nat): nat
    requires i <= |chunks|
  {
    if i == 0 then 0 else FileEnd(chunks[i - 1])
  }

  lemma NextPosition(chunks: seq<Chunk>, size: nat, i: nat)
    requires Tiles(chunks, size) && i < |chunks|
    ensures chunks[i].fileOffset == Reached(chunks, i)
  {
  }

  /** When the file ends inside a chunk, that chunk and all later ones are wrong. */
  lemma RestIsWrong(file: seq<byte>, target: seq<byte>, chunks: seq<Chunk>, i: nat)
    requires Tiles(chunks, |target|) && i < |chunks| && |file| < FileEnd(chunks[i])
    requires InTarget(chunks, target)
    ensures Wrong(file, target, chunks) == Wrong(file, target, chunks[..i]) + chunks[i..]
    ensures Wrong(file, target, chunks) != []
  {
    forall k | i <= k < |chunks| ensures !OnDisk(file, target, chunks[k]) {
      BehindTheEnd(file, target, chunks, i, k);
    }
    AllWrong(file, target, chunks, i);
  }

  /** One turn of the loop, when the file reaches that far. */
  method CheckNext(file: seq<byte>, pos: nat, chunks: seq<Chunk>, i: nat, blake3: seq<byte> -> uint64,
                   ghost target: seq<byte>)
    returns (valid: bool)
    requires Checkable(target, chunks, blake3) && i < |chunks| && pos == chunks[i].fileOffset &&
             FileEnd(chunks[i]) <= |file|
    ensures Wrong(file, target, chunks[..i + 1]) == Wrong(file, target, chunks[..i]) + if valid then [] else [chunks[i]]
    ensures !valid ==> Wrong(file, target, chunks) != []
  {
    hide ExpectedId, OnDisk, Wrong, Tiles, Distinguishes;
    valid := ReadAndCheck(file, pos, chunks[i], blake3, target);
    WrongSnoc(file, target, chunks, i);
    if !valid {
      WrongStays(file, target, chunks, i);
    }
  }

  lemma WrongOfNothing(file: seq<byte>, target: seq<byte>)
    ensures Wrong(file, target, []) == []
  {
  }

  lemma WrongSnoc(file: seq<byte>, target: seq<byte>, chunks: seq<Chunk>, i: nat)
    requires InTarget(chunks, target)
    requires i < |chunks|
    ensures Wrong(file, target, chunks[..i + 1])
         == Wrong(file, target, chunks[..i]) + if OnDisk(file, target, chunks[i]) then [] else [chunks[i]]
  {
    assert chunks[..i + 1][..i] == chunks[..i];
  }

  lemma WrongStays(file: seq<byte>, target: seq<byte>, chunks: seq<Chunk>, i: nat)
    requires InTarget(chunks, target)
    requires i < |chunks| && Wrong(file, target, chunks[..i + 1]) != []
    ensures Wrong(file, target, chunks) != []
  {
    var c := Wrong(file, target, chunks[..i + 1])[0];
    WrongAreChunks(file, target, chunks[..i + 1], c);
    var k :| 0 <= k < i + 1 && chunks[k] == c;
    NotWrong(file, target, chunks, k);
  }

  // The repair itself.

  /** ftruncate: cut the file, or fill it up with zero bytes. */
  function Resize(file: seq<byte>, size: nat): (r: seq<byte>)
    ensures |r| == size
  {
    if |file| >= size then file[..size] else file + seq(size - |file|, _ => 0)
  }

  lemma ResizeSame(file: seq<byte>, size: nat)
    ensures Resize(file, size) == file <==> |file| == size
  {
  }

  /** Nothing to download but not yet right: the file is only too long. */
  lemma TruncateRepairs(file: seq<byte>, target: seq<byte>, chunks: seq<Chunk>)
    requires Tiles(chunks, |target|)
    requires InTarget(chunks, target)
    requires Wrong(file, target, chunks) == []
    ensures Resize(file, |target|) == target
  {
    if chunks == [] {
      assert target == [];
    } else {
      forall p | 0 <= p < |target| ensures p < |file| && file[p] == target[p] {
        RightByte(file, target, chunks, p);
      }
      NotWrong(file, target, chunks, |chunks| - 1);
    }
  }

  /** The write that puts a chunk in its place. */
  function WriteOf(target: seq<byte>, c: Chunk): Write
    requires FileEnd(c) <= |target|
  {
    Write(c.fileOffset, Piece(target, c))
  }

  ghost predicate HasWrite(bundles: seq<seq<Write>>, w: Write) {
    exists b, k :: 0 <= b < |bundles| && 0 <= k < |bundles[b]| && bundles[b][k] == w
  }

  ghost predicate IsWriteOf(w: Write, target: seq<byte>, selected: seq<Chunk>)
    requires InTarget(selected, target)
  {
    exists i :: 0 <= i < |selected| && w == WriteOf(target, selected[i])
  }

  /** The bundles bring exactly the selected chunks. */
  ghost predicate Brings(bundles: seq<seq<Write>>, target: seq<byte>, selected: seq<Chunk>)
    requires InTarget(selected, target)
  {
    && (forall i :: 0 <= i < |selected| ==> HasWrite(bundles, WriteOf(target, selected[i])))
    && (forall b, k :: 0 <= b < |bundles| && 0 <= k < |bundles[b]| ==> IsWriteOf(bundles[b][k], target, selected))
  }

  lemma UnplannedIsRight(file: seq<byte>, target: seq<byte>, chunks: seq<Chunk>, selected: seq<Chunk>,
                         bundles: seq<seq<Write>>, p: nat)
    requires Tiles(chunks, |target|) && p < |target| && !Planned(bundles, p)
    requires InTarget(chunks, target)
    requires InTarget(selected, target)
    requires forall c :: c in Wrong(file, target, chunks) ==> c in selected
    requires Brings(bundles, target, selected)
    ensures p < |file| && file[p] == target[p]
  {
    hide Wrong, Tiles;
    forall c | c in Wrong(file, target, chunks) ensures !(c.fileOffset <= p < FileEnd(c)) {
      var i :| 0 <= i < |selected| && selected[i] == c;
      assert HasWrite(bundles, WriteOf(target, selected[i]));
      var b, k :| 0 <= b < |bundles| && 0 <= k < |bundles[b]| && bundles[b][k] == WriteOf(target, c);
      assert !Covers(bundles[b][k], p);
    }
    RightByte(file, target, chunks, p);
  }

  lemma WritesAreRight(target: seq<byte>, selected: seq<Chunk>, bundles: seq<seq<Write>>, b: nat, k: nat)
    requires InTarget(selected, target)
    requires Brings(bundles, target, selected) && b < |bundles| && k < |bundles[b]|
    ensures var w := bundles[b][k]; w.offset + |w.data| <= |target| && target[w.offset..w.offset + |w.data|] == w.data
  {
    assert IsWriteOf(bundles[b][k], target, selected);
  }

  /** Whatever was on disk before: with the wrong chunks selected, what is not written is right already, so the
      file can be repaired by writing its chunks in any order. */
  lemma SelectionRepairs(file: seq<byte>, target: seq<byte>, chunks: seq<Chunk>, selected: seq<Chunk>,
                         bundles: seq<seq<Write>>)
    requires Tiles(chunks, |target|)
    requires InTarget(chunks, target)
    requires InTarget(selected, target)
    requires forall c :: c in Wrong(file, target, chunks) ==> c in selected
    requires Brings(bundles, target, selected)
    ensures Repairs(Dispatch(target, Resize(file, |target| + 1), bundles))
  {
    hide Wrong, Tiles, Brings, Planned;
    var initial := Resize(file, |target| + 1);
    forall b, k | 0 <= b < |bundles| && 0 <= k < |bundles[b]|
      ensures var w := bundles[b][k]; w.offset + |w.data| <= |target| && target[w.offset..w.offset + |w.data|] == w.data
    {
      WritesAreRight(target, selected, bundles, b, k);
    }
    forall p | 0 <= p < |target| && !Planned(bundles, p) ensures initial[p] == target[p] {
      UnplannedIsRight(file, target, chunks, selected, bundles, p);
    }
  }
}
