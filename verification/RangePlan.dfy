/** How `download_ranges` coalesces the sorted chunks of one bundle into byte ranges. */
module RangePlan {
  import opened Common
  import opened Ordering

  /** An inclusive byte range, as a Range header writes it. */
  datatype Range = Range(first: int, last: int)

  /** One past the last byte, without wrap-around. */
  function End(c: Chunk): nat { c.bundleOffset + c.compressedSize }

  /** Two chunks that stand next to each other in bundle order: the same chunk again, or one that lies behind. */
  predicate Follows(c: Chunk, d: Chunk) {
    || (c.bundleOffset == d.bundleOffset && c.compressedSize == d.compressedSize)
    || End(c) <= d.bundleOffset
  }

  /** The chunks to fetch from a bundle of the given size: at least one, in bundle order. */
  ghost predicate Fetchable(chunks: seq<Chunk>, size: nat) {
    && size < TWO_TO_THE_32 && chunks != []
    && (forall i :: 0 <= i < |chunks| ==> 0 < chunks[i].compressedSize && End(chunks[i]) <= size)
    && (forall i :: 0 < i < |chunks| ==> Follows(chunks[i - 1], chunks[i]))
  }

  /** The test that starts a new range between two neighbours. The sum is a 32-bit one. */
  predicate Breaks(c: Chunk, d: Chunk) {
    Add32(c.bundleOffset, c.compressedSize) != d.bundleOffset && c.bundleOffset != d.bundleOffset
  }

  /** With everything inside a bundle of less than 4 GiB nothing wraps: a range breaks exactly at a gap. */
  lemma BreaksAtGaps(chunks: seq<Chunk>, size: nat, i: nat)
    requires Fetchable(chunks, size) && 0 < i < |chunks|
    ensures Breaks(chunks[i - 1], chunks[i]) <==> End(chunks[i - 1]) < chunks[i].bundleOffset
  {
    assert Follows(chunks[i - 1], chunks[i]);
  }

  /** No range breaks between the chunks from lo to hi. */
  ghost predicate OneRun(chunks: seq<Chunk>, lo: nat, hi: nat)
    requires hi <= |chunks|
  {
    forall i :: lo < i < hi ==> !Breaks(chunks[i - 1], chunks[i])
  }

  /** One past the last chunk of the run that chunk lo belongs to. */
  function RunEnd(chunks: seq<Chunk>, lo: nat): (hi: nat)
    requires lo < |chunks|
    ensures lo < hi <= |chunks|
    ensures hi < |chunks| ==> Breaks(chunks[hi - 1], chunks[hi])
    ensures OneRun(chunks, lo, hi)
    decreases |chunks| - lo
  {
    if lo + 1 < |chunks| && !Breaks(chunks[lo], chunks[lo + 1]) then RunEnd(chunks, lo + 1) else lo + 1
  }

  /** Ranges can only start and end at the borders between runs. */
  predicate Border(chunks: seq<Chunk>, i: nat)
    requires i <= |chunks|
  {
    i == 0 || i == |chunks| || Breaks(chunks[i - 1], chunks[i])
  }

  lemma ShorterRun(chunks: seq<Chunk>, lo: nat, hi: nat)
    requires lo < hi <= |chunks| && OneRun(chunks, lo, hi)
    ensures OneRun(chunks, lo, hi - 1)
  {
  }

  lemma {:induction false} RunEndUnique(chunks: seq<Chunk>, lo: nat, hi: nat)
    requires lo < hi <= |chunks| && Border(chunks, hi)
    requires OneRun(chunks, lo, hi)
    ensures RunEnd(chunks, lo) == hi
  {
  }

  lemma RunEndBeforeBorder(chunks: seq<Chunk>, lo: nat, hi: nat)
    requires lo < hi <= |chunks| && Border(chunks, hi)
    ensures RunEnd(chunks, lo) <= hi
  {
  }

  /** The range of one run. */
  function RunRange(chunks: seq<Chunk>, lo: nat, hi: nat): Range
    requires lo < hi <= |chunks|
  {
    Range(chunks[lo].bundleOffset, End(chunks[hi - 1]) - 1)
  }

  /** The ranges of the runs in chunks[lo..hi]. */
  ghost function RangesOf(chunks: seq<Chunk>, lo: nat, hi: nat): (rs: seq<Range>)
    requires lo <= hi <= |chunks| && Border(chunks, hi)
    ensures |rs| <= hi - lo && (rs == [] <==> lo == hi)
    decreases hi - lo
  {
    if lo == hi then []
    else
      RunEndBeforeBorder(chunks, lo, hi);
      [RunRange(chunks, lo, RunEnd(chunks, lo))] + RangesOf(chunks, RunEnd(chunks, lo), hi)
  }

  lemma {:induction false} RangesSplit(chunks: seq<Chunk>, lo: nat, mid: nat, hi: nat)
    requires lo <= mid <= hi <= |chunks| && Border(chunks, mid) && Border(chunks, hi)
    ensures RangesOf(chunks, lo, hi) == RangesOf(chunks, lo, mid) + RangesOf(chunks, mid, hi)
    decreases mid - lo
  {
    if lo < mid {
      RunEndBeforeBorder(chunks, lo, mid);
      RunEndBeforeBorder(chunks, lo, hi);
      RangesSplit(chunks, RunEnd(chunks, lo), mid, hi);
    }
  }

  lemma {:induction false} OffsetsAscend(chunks: seq<Chunk>, size: nat, i: nat, j: nat)
    requires Fetchable(chunks, size) && i <= j < |chunks|
    ensures chunks[i].bundleOffset <= chunks[j].bundleOffset && End(chunks[i]) <= End(chunks[j])
    decreases j - i
  {
    if i < j {
      OffsetsAscend(chunks, size, i, j - 1);
    }
  }

  /** What the coalesced ranges of a batch are: ascending, disjoint, not even adjacent, inside the bundle. */
  ghost predicate WellFormed(rs: seq<Range>, size: nat) {
    && rs != []
    && (forall i :: 0 <= i < |rs| ==> 0 <= rs[i].first <= rs[i].last < size)
    && (forall i :: 0 < i < |rs| ==> rs[i - 1].last + 1 < rs[i].first)
  }

  lemma {:induction false} RangesAreWellFormed(chunks: seq<Chunk>, size: nat, lo: nat, hi: nat)
    requires Fetchable(chunks, size) && lo < hi <= |chunks| && Border(chunks, hi)
    ensures WellFormed(RangesOf(chunks, lo, hi), size)
    ensures RangesOf(chunks, lo, hi)[0].first == chunks[lo].bundleOffset
    decreases hi - lo
  {
    hide Breaks, WellFormed, Fetchable;
    var e := RunEnd(chunks, lo);
    RunEndBeforeBorder(chunks, lo, hi);
    var r := RunRange(chunks, lo, e);
    RunInBundle(chunks, size, lo, e);
    if e < hi {
      RangesAreWellFormed(chunks, size, e, hi);
      BreaksAtGaps(chunks, size, e);
      PrependRange(r, RangesOf(chunks, e, hi), size);
    } else {
      SingleRange(r, size);
      assert RangesOf(chunks, lo, hi) == [r];
    }
  }

  lemma RunInBundle(chunks: seq<Chunk>, size: nat, lo: nat, hi: nat)
    requires Fetchable(chunks, size) && lo < hi <= |chunks|
    ensures RunRange(chunks, lo, hi).first <= RunRange(chunks, lo, hi).last < size
  {
    OffsetsAscend(chunks, size, lo, hi - 1);
  }

  lemma SingleRange(r: Range, size: nat)
    requires 0 <= r.first <= r.last < size
    ensures WellFormed([r], size)
  {
  }

  lemma PrependRange(r: Range, rest: seq<Range>, size: nat)
    requires WellFormed(rest, size) && rest != [] && 0 <= r.first <= r.last && r.last + 1 < rest[0].first
    ensures WellFormed([r] + rest, size)
  {
  }

  predicate InRange(r: Range, p: nat) {
    r.first <= p <= r.last
  }

  ghost predicate Requested(rs: seq<Range>, p: nat) {
    exists k :: 0 <= k < |rs| && InRange(rs[k], p)
  }

  ghost predicate Wanted(chunks: seq<Chunk>, lo: nat, hi: nat, p: nat)
    requires lo <= hi <= |chunks|
  {
    exists i :: lo <= i < hi && chunks[i].bundleOffset <= p < End(chunks[i])
  }

  lemma {:induction false} RunCovers(chunks: seq<Chunk>, size: nat, lo: nat, hi: nat, p: nat)
    requires Fetchable(chunks, size) && lo < hi <= |chunks| && OneRun(chunks, lo, hi)
    ensures chunks[lo].bundleOffset <= p < End(chunks[hi - 1]) <==> Wanted(chunks, lo, hi, p)
    decreases hi - lo
  {
    hide Fetchable, Wanted, OneRun;
    var last := chunks[hi - 1];
    WantedLast(chunks, lo, hi, p);
    if lo + 1 < hi {
      ShorterRun(chunks, lo, hi);
      RunCovers(chunks, size, lo, hi - 1, p);
      NoGap(chunks, size, lo, hi);
      OffsetsAscend(chunks, size, lo, hi - 1);
      OffsetsAscend(chunks, size, hi - 2, hi - 1);
    } else {
      NoneWanted(chunks, lo, p);
    }
  }

  lemma WantedLast(chunks: seq<Chunk>, lo: nat, hi: nat, p: nat)
    requires lo < hi <= |chunks|
    ensures Wanted(chunks, lo, hi, p) <==>
            Wanted(chunks, lo, hi - 1, p) || chunks[hi - 1].bundleOffset <= p < End(chunks[hi - 1])
  {
  }

  lemma NoneWanted(chunks: seq<Chunk>, lo: nat, p: nat)
    requires lo <= |chunks|
    ensures !Wanted(chunks, lo, lo, p)
  {
  }

  /** Inside a run the next chunk begins at the latest where the one before it ends. */
  lemma NoGap(chunks: seq<Chunk>, size: nat, lo: nat, hi: nat)
    requires Fetchable(chunks, size) && lo + 1 < hi <= |chunks| && OneRun(chunks, lo, hi)
    ensures chunks[hi - 1].bundleOffset <= End(chunks[hi - 2])
  {
    assert Follows(chunks[hi - 1 - 1], chunks[hi - 1]) && !Breaks(chunks[hi - 1 - 1], chunks[hi - 1]);
  }

  lemma RequestedCons(r: Range, rest: seq<Range>, p: nat)
    ensures Requested([r] + rest, p) <==> InRange(r, p) || Requested(rest, p)
  {
    var rs := [r] + rest;
    if Requested(rest, p) {
      var k :| 0 <= k < |rest| && InRange(rest[k], p);
      assert InRange(rs[k + 1], p);
    }
    assert rs[0] == r;
  }

  lemma WantedSplit(chunks: seq<Chunk>, lo: nat, mid: nat, hi: nat, p: nat)
    requires lo <= mid <= hi <= |chunks|
    ensures Wanted(chunks, lo, hi, p) <==> Wanted(chunks, lo, mid, p) || Wanted(chunks, mid, hi, p)
  {
  }

  /** The bytes requested for a batch are exactly the bytes of its chunks. */
  lemma {:induction false} RangesCoverChunks(chunks: seq<Chunk>, size: nat, lo: nat, hi: nat, p: nat)
    requires Fetchable(chunks, size) && lo <= hi <= |chunks| && Border(chunks, hi)
    ensures Requested(RangesOf(chunks, lo, hi), p) <==> Wanted(chunks, lo, hi, p)
    decreases hi - lo
  {
    hide Breaks, Fetchable, Wanted, Requested, RangesOf, RunEnd;
    if lo == hi {
      NothingCovered(chunks, hi, p);
    } else {
      RunEndBeforeBorder(chunks, lo, hi);
      RangesCoverChunks(chunks, size, RunEnd(chunks, lo), hi, p);
      RunThenRest(chunks, size, lo, hi, p);
    }
  }

  lemma RunThenRest(chunks: seq<Chunk>, size: nat, lo: nat, hi: nat, p: nat)
    requires Fetchable(chunks, size) && lo < hi <= |chunks| && Border(chunks, hi) && RunEnd(chunks, lo) <= hi
    requires Requested(RangesOf(chunks, RunEnd(chunks, lo), hi), p) <==> Wanted(chunks, RunEnd(chunks, lo), hi, p)
    ensures Requested(RangesOf(chunks, lo, hi), p) <==> Wanted(chunks, lo, hi, p)
  {
    hide *;
    RangesOfUnfolds(chunks, lo, hi);
    var e := RunEnd(chunks, lo);
    RunIsCovered(chunks, size, lo, e, p);
    RequestedCons(RunRange(chunks, lo, e), RangesOf(chunks, e, hi), p);
    WantedSplit(chunks, lo, e, hi, p);
  }

  lemma RunIsCovered(chunks: seq<Chunk>, size: nat, lo: nat, hi: nat, p: nat)
    requires Fetchable(chunks, size) && lo < hi <= |chunks| && OneRun(chunks, lo, hi)
    ensures InRange(RunRange(chunks, lo, hi), p) <==> Wanted(chunks, lo, hi, p)
  {
    hide Fetchable, OneRun, Wanted;
    RunCovers(chunks, size, lo, hi, p);
  }

  lemma RangesOfUnfolds(chunks: seq<Chunk>, lo: nat, hi: nat)
    requires lo < hi <= |chunks| && Border(chunks, hi) && RunEnd(chunks, lo) <= hi
    ensures RangesOf(chunks, lo, hi)
         == [RunRange(chunks, lo, RunEnd(chunks, lo))] + RangesOf(chunks, RunEnd(chunks, lo), hi)
  {
  }

  lemma NothingCovered(chunks: seq<Chunk>, hi: nat, p: nat)
    requires hi <= |chunks| && Border(chunks, hi)
    ensures !Requested(RangesOf(chunks, hi, hi), p) && !Wanted(chunks, hi, hi, p)
  {
  }

  /** `chunk_to_range_map`: the number of the range that each chunk belongs to. */
  ghost predicate IsRangeMap(rangeMap: seq<nat>, chunks: seq<Chunk>) {
    && |rangeMap| == |chunks| && (chunks != [] ==> rangeMap[0] == 0)
    && forall i :: 0 < i < |chunks| ==>
      rangeMap[i] == if Breaks(chunks[i - 1], chunks[i]) then rangeMap[i - 1] + 1 else rangeMap[i - 1]
  }

  method MakeRangeMap(chunks: seq<Chunk>) returns (chunkToRangeMap: seq<nat>)
    requires chunks != []
    ensures IsRangeMap(chunkToRangeMap, chunks)
  {
    chunkToRangeMap := [0];
    var lastRange := 0;
    for i := 1 to |chunks|
      invariant |chunkToRangeMap| == i && chunkToRangeMap[i - 1] == lastRange
      invariant IsRangeMap(chunkToRangeMap, chunks[..i])
    {
      if Add32(chunks[i - 1].bundleOffset, chunks[i - 1].compressedSize) != chunks[i].bundleOffset
         && chunks[i - 1].bundleOffset != chunks[i].bundleOffset {
        lastRange := lastRange + 1;
      }
      chunkToRangeMap := chunkToRangeMap + [lastRange];
    }
  }

  lemma {:induction false} RangeMapAscends(rangeMap: seq<nat>, chunks: seq<Chunk>, i: nat, j: nat)
    requires IsRangeMap(rangeMap, chunks) && i <= j < |chunks|
    ensures rangeMap[i] <= rangeMap[j]
    ensures rangeMap[i] == rangeMap[j] <==> OneRun(chunks, i, j + 1)
    decreases j - i
  {
    if i < j {
      RangeMapAscends(rangeMap, chunks, i, j - 1);
    }
  }

  /** The order in which `group_by_bundles` leaves a bundle's chunks is the order wanted here. */
  lemma SortedIsFetchable(chunks: seq<Chunk>, size: nat)
    requires chunks != [] && size < TWO_TO_THE_32
    requires forall i :: 0 <= i < |chunks| ==> 0 < chunks[i].compressedSize && End(chunks[i]) <= size
    requires forall i, j :: 0 <= i < j < |chunks| ==> chunks[i].bundleOffset <= chunks[j].bundleOffset
    requires forall i, j :: 0 <= i < j < |chunks| ==> Follows(chunks[i], chunks[j]) || Follows(chunks[j], chunks[i])
    ensures Fetchable(chunks, size)
  {
  }
}
