/** `get_ranges` and `download_ranges`: the same chunks, read from a file or fetched in batches from a server. */
module RangeDownload {
  import opened Common
  import opened RangePlan
  import opened Request
  import opened Multipart

  function ChunkBytes(bundle: seq<byte>, c: Chunk): (bytes: seq<byte>)
    requires End(c) <= |bundle|
    ensures |bytes| == c.compressedSize
  {
    bundle[c.bundleOffset..End(c)]
  }

  /** Every slot holds the bytes of its chunk. */
  ghost predicate Filled(slots: seq<seq<byte>>, bundle: seq<byte>, chunks: seq<Chunk>, lo: nat, hi: nat)
    requires lo <= hi <= |chunks| == |slots|
    requires forall i :: 0 <= i < |chunks| ==> End(chunks[i]) <= |bundle|
  {
    forall i :: lo <= i < hi ==> slots[i] == ChunkBytes(bundle, chunks[i])
  }

  /** What reading a chunk from a bundle file demands: it must be there, and not empty. */
  ghost predicate Readable(chunks: seq<Chunk>, size: nat) {
    forall i :: 0 <= i < |chunks| ==> 0 < chunks[i].compressedSize && End(chunks[i]) <= size
  }

  lemma FetchableIsReadable(chunks: seq<Chunk>, size: nat)
    requires Fetchable(chunks, size)
    ensures Readable(chunks, size)
  {
  }

  /** `get_ranges`, for chunks in any order and number: None when the bundle file cannot be opened. */
  method GetRanges(file: Option<seq<byte>>, chunks: seq<Chunk>) returns (ranges: Option<seq<seq<byte>>>)
    requires file.Some? ==> Readable(chunks, |file.value|)
    ensures ranges.Some? <==> file.Some?
    ensures ranges.Some? ==> |ranges.value| == |chunks| && Filled(ranges.value, file.value, chunks, 0, |chunks|)
  {
    if file == None {
      return None;
    }
    var slots := new seq<byte>[|chunks|];
    for i := 0 to |chunks|
      invariant Filled(slots[..], file.value, chunks, 0, i)
    {
      var at := chunks[i].bundleOffset;
      slots[i] := file.value[at..at + chunks[i].compressedSize];
    }
    ranges := Some(slots[..]);
  }

  datatype Reply = Reply(status: int, data: seq<byte>)

  /** What a server that does not coalesce ranges may answer: an error, the whole bundle, or the ranges. */
  ghost predicate Answers(reply: Reply, bundle: seq<byte>, rs: seq<Range>)
    requires WellFormed(rs, |bundle|)
  {
    || reply.status >= 400
    || (reply.status == 200 && reply.data == bundle)
    || (reply.status == 206 && |rs| == 1 && reply.data == Slice(bundle, rs[0]))
    || (reply.status == 206 && |rs| > 1 && exists f :: ValidFraming(f, |rs|) && reply.data == Body(bundle, rs, f))
  }

  predicate Failed(reply: Option<Reply>) {
    reply == None || reply.value.status >= 400
  }

  /** A server is given by its reply to the n-th request text; it may fail or change its mind at any time. */
  ghost predicate Conforms(server: (nat, string) -> Option<Reply>, prefix: string, bundle: seq<byte>) {
    forall n: nat, rs: seq<Range> {:trigger server(n, RequestText(prefix, rs))} ::
      WellFormed(rs, |bundle|) && server(n, RequestText(prefix, rs)).Some? ==>
        Answers(server(n, RequestText(prefix, rs)).value, bundle, rs)
  }

  ghost function CommaText(rs: seq<Range>): string
    requires Writable(rs)
  {
    if rs == [] then "" else CommaText(rs[..|rs| - 1]) + RangeText(rs[|rs| - 1]) + ","
  }

  lemma {:induction false} CommaTextIsPrefix(done: seq<Range>, rs: seq<Range>)
    requires Writable(done) && Writable(rs) && rs != []
    ensures Writable(done + rs) && RangesText(done + rs) == CommaText(done) + RangesText(rs)
    decreases |done|
  {
    if done == [] {
      assert done + rs == rs;
    } else {
      var l := done[|done| - 1];
      var init := done[..|done| - 1];
      assert done + rs == init + ([l] + rs);
      CommaTextIsPrefix(init, [l] + rs);
      assert ([l] + rs)[1..] == rs;
    }
  }

  /** sprintf("%u-%u", ...), with the 32-bit arithmetic of its arguments. */
  method PrintRange(start: Chunk, end: Chunk) returns (currentRange: string)
    requires 0 < End(end) < TWO_TO_THE_32
    ensures currentRange == RangeText(Range(start.bundleOffset, End(end) - 1))
    ensures |currentRange + ","| + 1 <= RANGE_SIZE
  {
    hide Decimal;
    var last := Add32(Add32(end.bundleOffset, end.compressedSize), TWO_TO_THE_32 - 1);
    MinusOne(End(end));
    currentRange := Decimal(start.bundleOffset) + "-" + Decimal(last);
    RangeFits(Range(start.bundleOffset, End(end) - 1));
  }

  /** Subtracting one is adding 2^32 - 1. */
  lemma MinusOne(n: nat)
    requires 0 < n < TWO_TO_THE_32
    ensures Add32(n, TWO_TO_THE_32 - 1) == n - 1
  {
  }

  lemma WellFormedIsWritable(rs: seq<Range>, size: nat)
    requires WellFormed(rs, size)
    ensures Writable(rs) && (size <= TWO_TO_THE_32 ==> Small(rs)) && Inside(rs, size)
  {
  }

  /** The ranges of a stretch of chunks, and that they can be written. */
  ghost function Plan(chunks: seq<Chunk>, size: nat, lo: nat, hi: nat): (rs: seq<Range>)
    requires Fetchable(chunks, size) && lo <= hi <= |chunks| && Border(chunks, hi)
    ensures Writable(rs) && (rs == [] <==> lo == hi)
    ensures lo < hi ==> WellFormed(rs, size)
  {
    if lo < hi then
      RangesAreWellFormed(chunks, size, lo, hi);
      WellFormedIsWritable(RangesOf(chunks, lo, hi), size);
      RangesOf(chunks, lo, hi)
    else []
  }

  lemma PlanSplit(chunks: seq<Chunk>, size: nat, lo: nat, mid: nat, hi: nat)
    requires Fetchable(chunks, size) && lo <= mid <= hi <= |chunks| && Border(chunks, mid) && Border(chunks, hi)
    ensures Plan(chunks, size, lo, hi) == Plan(chunks, size, lo, mid) + Plan(chunks, size, mid, hi)
  {
    RangesSplit(chunks, lo, mid, hi);
  }

  lemma PlanRun(chunks: seq<Chunk>, size: nat, lo: nat, hi: nat)
    requires Fetchable(chunks, size) && lo < hi <= |chunks| && Border(chunks, hi)
    requires OneRun(chunks, lo, hi)
    ensures Plan(chunks, size, lo, hi) == [RunRange(chunks, lo, hi)]
  {
    RunEndUnique(chunks, lo, hi);
  }

  /** Taking one more range than the ranges already written. */
  lemma TakenCons(h: nat, r: Range, rest: seq<Range>)
    requires 0 <= r.first && 0 <= r.last && Writable(rest)
    ensures Writable([r] + rest)
    ensures Taken(h, [r] + rest) == if rest == [] || h + |RangeText(r)| > THRESHOLD then 1
                                    else 1 + Taken(h + |RangeText(r)| + 1, rest)
    ensures ([r] + rest)[1..] == rest
  {
    assert forall i :: 0 <= i < |rest| ==> ([r] + rest)[i + 1] == rest[i];
  }

  /** The range map changes exactly at the borders. */
  lemma AtBorder(chunks: seq<Chunk>, rangeMap: seq<nat>, i: nat)
    requires IsRangeMap(rangeMap, chunks) && i < |chunks|
    ensures Border(chunks, i + 1) <==> i == |chunks| - 1 || rangeMap[i + 1] != rangeMap[i]
  {
    if i < |chunks| - 1 {
      assert rangeMap[i + 1] == if Breaks(chunks[i + 1 - 1], chunks[i + 1]) then rangeMap[i + 1 - 1] + 1
          else rangeMap[i + 1 - 1];
    }
  }

  /** At the end of a run the plan falls into what is written, the run's range, and what is left. */
  lemma PlanAround(chunks: seq<Chunk>, size: nat, first: nat, lo: nat, hi: nat)
    requires Fetchable(chunks, size) && first <= lo < hi <= |chunks| && Border(chunks, lo) && Border(chunks, hi)
    requires OneRun(chunks, lo, hi)
    ensures Plan(chunks, size, lo, |chunks|) == [RunRange(chunks, lo, hi)] + Plan(chunks, size, hi, |chunks|)
    ensures Plan(chunks, size, first, hi) == Plan(chunks, size, first, lo) + [RunRange(chunks, lo, hi)]
    ensures 0 <= RunRange(chunks, lo, hi).first && 0 <= RunRange(chunks, lo, hi).last < TWO_TO_THE_32
    ensures 0 < End(chunks[hi - 1]) < TWO_TO_THE_32
  {
    hide Plan, Breaks;
    PlanRun(chunks, size, lo, hi);
    PlanSplit(chunks, size, lo, hi, |chunks|);
    PlanSplit(chunks, size, first, lo, hi);
  }

  lemma CommaTextSnoc(done: seq<Range>, r: Range)
    requires Writable(done) && 0 <= r.first && 0 <= r.last
    ensures Writable(done + [r]) && CommaText(done + [r]) == CommaText(done) + RangeText(r) + ","
  {
    assert (done + [r])[..|done + [r]| - 1] == done;
  }

  lemma RangeMapLength(rangeMap: seq<nat>, chunks: seq<Chunk>)
    requires IsRangeMap(rangeMap, chunks)
    ensures |rangeMap| == |chunks|
  {
  }

  lemma OneRangeText(r: Range)
    requires 0 <= r.first && 0 <= r.last
    ensures RangesText([r]) == RangeText(r)
  {
  }

  /** One turn of the outer loop, as the server sees it. */
  datatype Batch = Batch(first: nat, count: nat)

  /** A batch is not empty, and ends where a range ends. */
  predicate IsBatch(b: Batch, chunks: seq<Chunk>) {
    0 < b.count && b.first + b.count <= |chunks| && Border(chunks, b.first + b.count)
  }

  ghost function BatchRanges(b: Batch, chunks: seq<Chunk>, size: nat): (rs: seq<Range>)
    requires Fetchable(chunks, size) && IsBatch(b, chunks)
    ensures Writable(rs) && WellFormed(rs, size)
  {
    Plan(chunks, size, b.first, b.first + b.count)
  }

  /** A request for a non-empty batch between borders, with as many ranges as the threshold allows. */
  ghost predicate IsNextRequest(b: Batch, request: string, prefix: string, chunks: seq<Chunk>, size: nat)
    requires Fetchable(chunks, size)
  {
    && IsBatch(b, chunks) && Border(chunks, b.first)
    && request == RequestText(prefix, BatchRanges(b, chunks, size))
    && BatchRanges(b, chunks, size) == Greedy(|prefix|, Plan(chunks, size, b.first, |chunks|))
  }

  /** The inner loop of `download_ranges`: one request for as many ranges as the header will hold. */
  method BuildRequest(prefix: string, chunks: seq<Chunk>, rangeMap: seq<nat>, first: nat, ghost size: nat)
    returns (header: string, count: nat)
    requires Fetchable(chunks, size) && IsRangeMap(rangeMap, chunks)
    requires first < |chunks| && Border(chunks, first)
    ensures IsNextRequest(Batch(first, count), header, prefix, chunks, size)
  {
    hide Breaks, Fetchable, RangeText, IsRangeMap, Building, IsNextRequest;
    var n := |chunks|;
    RangeMapLength(rangeMap, chunks);
    header := prefix;
    count := 0;
    var i, rangeStart := first, first;
    BuildingStarts(prefix, chunks, size, first);
    while true
      invariant first <= rangeStart <= i < n && Border(chunks, rangeStart)
      invariant OneRun(chunks, rangeStart, i + 1)
      invariant Building(prefix, chunks, size, first, rangeStart, header)
      decreases n - i
    {
      AtBorder(chunks, rangeMap, i);
      if i == n - 1 || rangeMap[i + 1] != rangeMap[i] {
        EndInRange(chunks, size, i);
        var currentRange := PrintRange(chunks[rangeStart], chunks[i]);
        if i == n - 1 || |header| + |currentRange| > THRESHOLD {
          BuildingEnds(prefix, chunks, size, first, rangeStart, i + 1, header, currentRange);
          header := header + currentRange;
          count := i - first + 1;
          break;
        }
        BuildingGoesOn(prefix, chunks, size, first, rangeStart, i + 1, header, currentRange);
        rangeStart := i + 1;
        currentRange := currentRange + ",";
        header := header + currentRange;
      }
      i := i + 1;
    }
    header := header + BLANK_LINE;
  }

  /** How far the header has got: the ranges up to some border, each with its comma, and the rest still to be
      taken or not. */
  ghost predicate Building(prefix: string, chunks: seq<Chunk>, size: nat, first: nat, lo: nat, header: string)
    requires Fetchable(chunks, size) && first <= lo < |chunks| && Border(chunks, lo)
  {
    && header == prefix + CommaText(Plan(chunks, size, first, lo))
    && Taken(|prefix|, Plan(chunks, size, first, |chunks|))
         == |Plan(chunks, size, first, lo)| + Taken(|header|, Plan(chunks, size, lo, |chunks|))
  }

  lemma BuildingStarts(prefix: string, chunks: seq<Chunk>, size: nat, first: nat)
    requires Fetchable(chunks, size) && first < |chunks| && Border(chunks, first)
    ensures Building(prefix, chunks, size, first, first, prefix)
  {
    hide Taken, Fetchable, Breaks;
    assert Plan(chunks, size, first, first) == [] && prefix + CommaText([]) == prefix;
  }

  /** The run from lo to hi has been printed as text. */
  ghost predicate IsPrinted(chunks: seq<Chunk>, lo: nat, hi: nat, text: string)
    requires lo < hi <= |chunks|
  {
    && Border(chunks, lo) && Border(chunks, hi) && OneRun(chunks, lo, hi)
    && 0 <= RunRange(chunks, lo, hi).last && text == RangeText(RunRange(chunks, lo, hi))
  }

  lemma BuildingGoesOn(prefix: string, chunks: seq<Chunk>, size: nat, first: nat, lo: nat, hi: nat, header: string,
                       text: string)
    requires Fetchable(chunks, size) && first <= lo < hi < |chunks| && Border(chunks, first)
    requires IsPrinted(chunks, lo, hi, text)
    requires Building(prefix, chunks, size, first, lo, header) && |header| + |text| <= THRESHOLD
    ensures Building(prefix, chunks, size, first, hi, header + (text + ","))
  {
    hide Breaks, Fetchable, RangeText, RangesText, Taken, CommaText, Plan, RunRange;
    var r := RunRange(chunks, lo, hi);
    PlanAround(chunks, size, first, lo, hi);
    TakenCons(|header|, r, Plan(chunks, size, hi, |chunks|));
    CommaTextSnoc(Plan(chunks, size, first, lo), r);
    JoinText(prefix, CommaText(Plan(chunks, size, first, lo)), text, ",");
  }

  lemma JoinText(a: string, b: string, c: string, d: string)
    ensures a + (b + c + d) == (a + b) + (c + d)
    ensures a + (b + c) + d == (a + b) + c + d
  {
  }

  lemma BuildingEnds(prefix: string, chunks: seq<Chunk>, size: nat, first: nat, lo: nat, hi: nat, header: string,
                     text: string)
    requires Fetchable(chunks, size) && first <= lo < hi <= |chunks| && Border(chunks, first)
    requires IsPrinted(chunks, lo, hi, text)
    requires Building(prefix, chunks, size, first, lo, header)
    requires hi == |chunks| || |header| + |text| > THRESHOLD
    ensures IsNextRequest(Batch(first, hi - first), header + text + BLANK_LINE, prefix, chunks, size)
  {
    hide Breaks, Fetchable, RangeText, RangesText, Taken, CommaText, Plan, RunRange;
    var r, done := RunRange(chunks, lo, hi), Plan(chunks, size, first, lo);
    PlanAround(chunks, size, first, lo, hi);
    PlanSplit(chunks, size, first, hi, |chunks|);
    TakenCons(|header|, r, Plan(chunks, size, hi, |chunks|));
    CommaTextIsPrefix(done, [r]);
    OneRangeText(r);
    JoinText(prefix, CommaText(done), text, BLANK_LINE);
    TakeFront(Plan(chunks, size, first, hi), Plan(chunks, size, hi, |chunks|));
  }

  lemma TakeFront(a: seq<Range>, b: seq<Range>)
    ensures (a + b)[..|a|] == a
  {
  }

  lemma EndInRange(chunks: seq<Chunk>, size: nat, i: nat)
    requires Fetchable(chunks, size) && i < |chunks|
    ensures 0 < End(chunks[i]) < TWO_TO_THE_32
  {
  }

  /** The rest of the run from chunk i on, as the bundle has it. */
  ghost function RunBytes(bundle: seq<byte>, chunks: seq<Chunk>, i: nat): seq<byte>
    requires i < |chunks|
  {
    var lo, hi := chunks[i].bundleOffset, End(chunks[RunEnd(chunks, i) - 1]);
    if lo <= hi <= |bundle| then bundle[lo..hi] else []
  }

  /** The front of a run is its first chunk. */
  lemma RunFront(bundle: seq<byte>, chunks: seq<Chunk>, i: nat)
    requires Fetchable(chunks, |bundle|) && i < |chunks|
    ensures chunks[i].compressedSize <= |RunBytes(bundle, chunks, i)|
    ensures RunBytes(bundle, chunks, i)[..chunks[i].compressedSize] == ChunkBytes(bundle, chunks[i])
  {
    RunBytesAre(bundle, chunks, i);
    var lo, hi := chunks[i].bundleOffset, End(chunks[RunEnd(chunks, i) - 1]);
    assert bundle[lo..hi][..chunks[i].compressedSize] == bundle[lo..End(chunks[i])];
  }

  /** How far the cut moves on from a chunk to the next one of the same run. */
  function StepTo(c: Chunk, d: Chunk): (n: nat)
    ensures n <= c.compressedSize
  {
    if d.bundleOffset > c.bundleOffset then c.compressedSize else 0
  }

  /** How one chunk is followed by the next: behind a gap by another run. */
  lemma RunStops(bundle: seq<byte>, chunks: seq<Chunk>, i: nat)
    requires Fetchable(chunks, |bundle|) && i + 1 < |chunks| && Breaks(chunks[i], chunks[i + 1])
    ensures RunEnd(chunks, i) == i + 1 && |RunBytes(bundle, chunks, i)| == chunks[i].compressedSize
    ensures chunks[i].bundleOffset < chunks[i + 1].bundleOffset
  {
    Neighbours(chunks, |bundle|, i);
    RunEndNext(chunks, i);
    RunBytesAre(bundle, chunks, i);
    hide Fetchable, RunBytes, RunEnd;
  }

  /** Or else by the rest of the same run, which begins behind it unless it is the same chunk again. */
  lemma RunGoesOn(bundle: seq<byte>, chunks: seq<Chunk>, i: nat)
    requires Fetchable(chunks, |bundle|) && i + 1 < |chunks| && !Breaks(chunks[i], chunks[i + 1])
    ensures RunEnd(chunks, i + 1) == RunEnd(chunks, i)
    ensures chunks[i].compressedSize <= |RunBytes(bundle, chunks, i)|
    ensures RunBytes(bundle, chunks, i + 1)
         == RunBytes(bundle, chunks, i)[StepTo(chunks[i], chunks[i + 1])..]
  {
    Neighbours(chunks, |bundle|, i);
    RunEndNext(chunks, i);
    RunBytesAre(bundle, chunks, i);
    RunBytesAre(bundle, chunks, i + 1);
    hide Breaks, Fetchable, RunBytes, RunEnd;
    SliceBehind(bundle, chunks[i].bundleOffset, StepTo(chunks[i], chunks[i + 1]), End(chunks[RunEnd(chunks, i) - 1]));
  }

  lemma RunEndNext(chunks: seq<Chunk>, i: nat)
    requires i + 1 < |chunks|
    ensures RunEnd(chunks, i) == if Breaks(chunks[i], chunks[i + 1]) then i + 1 else RunEnd(chunks, i + 1)
  {
  }

  lemma RunBytesAre(bundle: seq<byte>, chunks: seq<Chunk>, i: nat)
    requires Fetchable(chunks, |bundle|) && i < |chunks|
    ensures chunks[i].bundleOffset <= End(chunks[i]) <= End(chunks[RunEnd(chunks, i) - 1]) <= |bundle|
    ensures RunBytes(bundle, chunks, i) == bundle[chunks[i].bundleOffset..End(chunks[RunEnd(chunks, i) - 1])]
  {
    OffsetsAscend(chunks, |bundle|, i, RunEnd(chunks, i) - 1);
  }

  lemma SliceBehind(s: seq<byte>, lo: nat, n: nat, hi: nat)
    requires lo + n <= hi <= |s|
    ensures s[lo..hi][n..] == s[lo + n..hi]
  {
  }

  /** Two neighbours have a gap between them, or touch, or are the same. */
  lemma Neighbours(chunks: seq<Chunk>, size: nat, i: nat)
    requires Fetchable(chunks, size) && i + 1 < |chunks|
    ensures Breaks(chunks[i], chunks[i + 1]) ==> chunks[i].bundleOffset < chunks[i + 1].bundleOffset
    ensures !Breaks(chunks[i], chunks[i + 1]) && chunks[i].bundleOffset < chunks[i + 1].bundleOffset ==>
              End(chunks[i]) == chunks[i + 1].bundleOffset
    ensures !Breaks(chunks[i], chunks[i + 1]) ==>
              chunks[i].bundleOffset == chunks[i + 1].bundleOffset || End(chunks[i]) == chunks[i + 1].bundleOffset
  {
    assert Follows(chunks[i + 1 - 1], chunks[i + 1]);
    BreaksAtGaps(chunks, size, i + 1);
  }

  /** The parts for the chunks from i on, when a part for i is still to come. */
  ghost function Later(bundle: seq<byte>, chunks: seq<Chunk>, i: nat, hi: nat, boundary: seq<byte>,
                       fields: seq<seq<seq<byte>>>): seq<byte>
    requires Fetchable(chunks, |bundle|) && i <= hi <= |chunks| && Border(chunks, hi)
  {
    var rs := Plan(chunks, |bundle|, i, hi);
    if |fields| == |rs| then Parts(bundle, rs, boundary, fields) else []
  }

  /** The next part begins with its head, and behind the head lies its run. */
  lemma LaterUnfolds(bundle: seq<byte>, chunks: seq<Chunk>, i: nat, hi: nat, boundary: seq<byte>,
                     fields: seq<seq<seq<byte>>>)
    requires Fetchable(chunks, |bundle|) && i < hi <= |chunks| && Border(chunks, hi)
    requires |fields| == |Plan(chunks, |bundle|, i, hi)|
    ensures |fields| > 0 && RunEnd(chunks, i) <= hi
    ensures |fields[1..]| == |Plan(chunks, |bundle|, RunEnd(chunks, i), hi)|
    ensures Later(bundle, chunks, i, hi, boundary, fields)
         == CRLF + (PartHead(boundary, fields[0])
                    + (RunBytes(bundle, chunks, i)
                       + Later(bundle, chunks, RunEnd(chunks, i), hi, boundary, fields[1..])))
  {
    hide Parts, PartHead, RunBytes, Fetchable, Breaks, Plan, RunEnd;
    RunEndBeforeBorder(chunks, i, hi);
    var e := RunEnd(chunks, i);
    PlanOfRun(chunks, |bundle|, i);
    PlanSplit(chunks, |bundle|, i, e, hi);
    RunBytesAre(bundle, chunks, i);
    PartsCons(bundle, RunRange(chunks, i, e), Plan(chunks, |bundle|, e, hi), boundary, fields);
  }

  lemma PartsCons(bundle: seq<byte>, r: Range, rest: seq<Range>, boundary: seq<byte>, fields: seq<seq<seq<byte>>>)
    requires Inside([r] + rest, |bundle|) && |fields| == 1 + |rest|
    ensures Inside(rest, |bundle|) && 0 <= r.first <= r.last < |bundle|
    ensures Parts(bundle, [r] + rest, boundary, fields)
         == CRLF + (PartHead(boundary, fields[0]) + (Slice(bundle, r) + Parts(bundle, rest, boundary, fields[1..])))
  {
    hide PartHead;
    var rs := [r] + rest;
    assert rs[0] == r && rs[1..] == rest;
    assert forall k :: 0 <= k < |rest| ==> rest[k] == rs[k + 1];
  }

  /** The body of a 206 reply. */
  ghost predicate IsBody(data: seq<byte>, bundle: seq<byte>, rs: seq<Range>)
    requires WellFormed(rs, |bundle|)
  {
    if |rs| == 1 then data == Slice(bundle, rs[0])
    else exists f :: ValidFraming(f, |rs|) && data == Body(bundle, rs, f)
  }

  /** `pos = strstr(pos, "\r\n\r\n") + 4` */
  method Skip(data: seq<byte>, pos: nat, ghost lead: bool, ghost boundary: seq<byte>, ghost fields: seq<seq<byte>>,
              ghost rest: seq<byte>)
    returns (pos': nat)
    requires ValidHead(boundary, fields) && pos <= |data|
    requires data[pos..] == (if lead then CRLF else []) + (PartHead(boundary, fields) + rest)
    ensures pos' <= |data| && data[pos'..] == rest
  {
    hide PartHead, FindBlankLine, ValidHead;
    ghost var head := PartHead(boundary, fields);
    assert data == data[..pos] + data[pos..];
    if lead {
      SkipBreakAndHead(data[..pos], boundary, fields, rest);
    } else {
      assert data[pos..] == head + rest;
      SkipHead(data[..pos], boundary, fields, rest);
    }
    var found := FindBlankLine(data, pos);
    pos' := found.value + 4;
    assert data[pos'..] == data[pos..][pos' - pos..];
  }

  /** Where the cut stands: inside a run, with the later parts behind it, or in front of the next part. */
  ghost predicate InRun(ahead: seq<byte>, bundle: seq<byte>, chunks: seq<Chunk>, i: nat, hi: nat,
                        boundary: seq<byte>, fields: seq<seq<seq<byte>>>)
    requires Fetchable(chunks, |bundle|) && i < hi <= |chunks| && Border(chunks, hi)
  {
    exists rest ::
      && ahead == RunBytes(bundle, chunks, i) + rest && RunEnd(chunks, i) <= hi
      && (RunEnd(chunks, i) < hi ==> AtPart(rest, bundle, chunks, RunEnd(chunks, i), hi, boundary, fields))
  }

  ghost predicate AtPart(ahead: seq<byte>, bundle: seq<byte>, chunks: seq<Chunk>, i: nat, hi: nat,
                         boundary: seq<byte>, fields: seq<seq<seq<byte>>>)
    requires Fetchable(chunks, |bundle|) && i < hi <= |chunks| && Border(chunks, hi)
  {
    && |fields| == |Plan(chunks, |bundle|, i, hi)|
    && (forall k :: 0 <= k < |fields| ==> ValidHead(boundary, fields[k]))
    && ahead == Later(bundle, chunks, i, hi, boundary, fields)
  }

  /** From in front of a part into its run. */
  method EnterPart(data: seq<byte>, pos: nat, ghost lead: bool, ghost bundle: seq<byte>, ghost chunks: seq<Chunk>,
                   ghost i: nat, ghost hi: nat,
                   ghost boundary: seq<byte>, ghost fields: seq<seq<seq<byte>>>)
    returns (pos': nat)
    requires Fetchable(chunks, |bundle|) && i < hi <= |chunks| && Border(chunks, hi) && pos <= |data|
    requires AtPart((if lead then [] else CRLF) + data[pos..], bundle, chunks, i, hi, boundary, fields)
    ensures pos' <= |data| && |fields| > 0 && InRun(data[pos'..], bundle, chunks, i, hi, boundary, fields[1..])
  {
    hide PartHead, Later, RunBytes, Plan, Fetchable, Breaks, ValidHead;
    LaterUnfolds(bundle, chunks, i, hi, boundary, fields);
    ghost var rest := Later(bundle, chunks, RunEnd(chunks, i), hi, boundary, fields[1..]);
    ghost var run := RunBytes(bundle, chunks, i);
    if !lead {
      assert data[pos..] == (CRLF + data[pos..])[2..];
    } else {
      assert [] + data[pos..] == data[pos..];
    }
    assert data[pos..] == (if lead then CRLF else []) + (PartHead(boundary, fields[0]) + (run + rest));
    pos' := Skip(data, pos, lead, boundary, fields[0], run + rest);
    if RunEnd(chunks, i) < hi {
      assert AtPart(rest, bundle, chunks, RunEnd(chunks, i), hi, boundary, fields[1..]);
    }
  }

  /** Behind a chunk: the same run, or the next part. */
  lemma StepOver(ahead: seq<byte>, chunks: seq<Chunk>, i: nat, hi: nat, bundle: seq<byte>, boundary: seq<byte>,
                 fields: seq<seq<seq<byte>>>)
    requires Fetchable(chunks, |bundle|) && i < hi <= |chunks| && Border(chunks, hi)
    requires InRun(ahead, bundle, chunks, i, hi, boundary, fields)
    ensures chunks[i].compressedSize <= |ahead| && ahead[..chunks[i].compressedSize] == ChunkBytes(bundle, chunks[i])
    ensures i + 1 < hi && Breaks(chunks[i], chunks[i + 1]) ==>
              && chunks[i].bundleOffset < chunks[i + 1].bundleOffset
              && AtPart(ahead[chunks[i].compressedSize..], bundle, chunks, i + 1, hi, boundary, fields)
    ensures i + 1 < hi && !Breaks(chunks[i], chunks[i + 1]) ==>
              InRun(ahead[StepTo(chunks[i], chunks[i + 1])..], bundle, chunks, i + 1, hi, boundary, fields)
  {
    hide RunBytes, AtPart, Breaks, Border, Fetchable;
    var run, size := RunBytes(bundle, chunks, i), chunks[i].compressedSize;
    var rest :| ahead == run + rest
      && RunEnd(chunks, i) <= hi && (RunEnd(chunks, i) < hi ==>
           AtPart(rest, bundle, chunks, RunEnd(chunks, i), hi, boundary, fields));
    RunFront(bundle, chunks, i);
    assert run[..size] == ahead[..size];
    if i + 1 < hi {
      if Breaks(chunks[i], chunks[i + 1]) {
        RunStops(bundle, chunks, i);
        assert ahead[size..] == rest;
      } else {
        RunGoesOn(bundle, chunks, i);
        var step := StepTo(chunks[i], chunks[i + 1]);
        assert ahead[step..] == run[step..] + rest;
      }
    }
  }

  /** Copy one chunk out of its run, and step on to where the next chunk's search begins. */
  method TakeChunk(data: seq<byte>, pos: nat, chunks: seq<Chunk>, i: nat, hi: nat, ghost bundle: seq<byte>,
                   ghost boundary: seq<byte>, ghost fields: seq<seq<seq<byte>>>)
    returns (slot: seq<byte>, pos': nat)
    requires Fetchable(chunks, |bundle|) && i < hi <= |chunks| && Border(chunks, hi) && pos <= |data|
    requires InRun(data[pos..], bundle, chunks, i, hi, boundary, fields)
    ensures slot == ChunkBytes(bundle, chunks[i]) && pos' <= |data|
    ensures i + 1 < hi && Breaks(chunks[i], chunks[i + 1]) ==>
              AtPart(data[pos'..], bundle, chunks, i + 1, hi, boundary, fields)
    ensures i + 1 < hi && !Breaks(chunks[i], chunks[i + 1]) ==>
              InRun(data[pos'..], bundle, chunks, i + 1, hi, boundary, fields)
  {
    hide InRun, AtPart, Breaks, Border, Fetchable;
    var size := chunks[i].compressedSize;
    StepOver(data[pos..], chunks, i, hi, bundle, boundary, fields);
    slot := data[pos..pos + size];
    assert slot == data[pos..][..size];
    pos' := pos;
    if i != hi - 1 && chunks[i + 1].bundleOffset > chunks[i].bundleOffset {
      pos' := pos + size;
      assert data[pos'..] == data[pos..][size..];
    }
    assert data[pos..] == data[pos..][0..];
  }

  /** From the range map the client can tell whether a batch has more than one range. */
  lemma OneRange(chunks: seq<Chunk>, size: nat, rangeMap: seq<nat>, first: nat, hi: nat)
    requires Fetchable(chunks, size) && IsRangeMap(rangeMap, chunks)
    requires first < hi <= |chunks| && Border(chunks, hi)
    ensures rangeMap[hi - 1] == rangeMap[first] <==> |Plan(chunks, size, first, hi)| == 1
    ensures rangeMap[hi - 1] == rangeMap[first] <==> RunEnd(chunks, first) == hi
  {
    hide Breaks, Fetchable, Plan, RunEnd, OneRun, IsRangeMap, Border;
    SameRange(rangeMap, chunks, first, hi);
    if OneRun(chunks, first, hi) {
      SingleRun(chunks, size, first, hi);
    } else {
      SeveralRuns(chunks, size, first, hi);
    }
  }

  lemma SameRange(rangeMap: seq<nat>, chunks: seq<Chunk>, first: nat, hi: nat)
    requires IsRangeMap(rangeMap, chunks) && first < hi <= |chunks|
    ensures |rangeMap| == |chunks|
    ensures rangeMap[hi - 1] == rangeMap[first] <==> OneRun(chunks, first, hi)
  {
    RangeMapLength(rangeMap, chunks);
    hide IsRangeMap, OneRun;
    RangeMapAscends(rangeMap, chunks, first, hi - 1);
  }

  lemma SingleRun(chunks: seq<Chunk>, size: nat, first: nat, hi: nat)
    requires Fetchable(chunks, size) && first < hi <= |chunks| && Border(chunks, hi) && OneRun(chunks, first, hi)
    ensures RunEnd(chunks, first) == hi && |Plan(chunks, size, first, hi)| == 1
  {
    hide Breaks, Fetchable, Plan, RunEnd, OneRun;
    RunEndUnique(chunks, first, hi);
    PlanOfRun(chunks, size, first);
  }

  lemma SeveralRuns(chunks: seq<Chunk>, size: nat, first: nat, hi: nat)
    requires Fetchable(chunks, size) && first < hi <= |chunks| && Border(chunks, hi) && !OneRun(chunks, first, hi)
    ensures RunEnd(chunks, first) < hi && |Plan(chunks, size, first, hi)| > 1
  {
    hide Breaks, Fetchable, Plan, RunEnd, OneRun;
    RunEndBeforeBorder(chunks, first, hi);
    PlanOfRun(chunks, size, first);
    PlanSplit(chunks, size, first, RunEnd(chunks, first), hi);
  }

  // Where the cut stands before anything is read.

  lemma StartOfOneRange(data: seq<byte>, bundle: seq<byte>, chunks: seq<Chunk>, first: nat, hi: nat)
    requires Fetchable(chunks, |bundle|) && first < hi <= |chunks| && Border(chunks, hi) && RunEnd(chunks, first) == hi
    requires IsBody(data, bundle, Plan(chunks, |bundle|, first, hi))
    ensures InRun(data, bundle, chunks, first, hi, [], [])
  {
    hide Plan, Breaks, AtPart, RunBytes, RunEnd;
    PlanOfRun(chunks, |bundle|, first);
    RunBytesAre(bundle, chunks, first);
    hide Fetchable;
    assert data == Slice(bundle, RunRange(chunks, first, hi)) == RunBytes(bundle, chunks, first);
    assert data == RunBytes(bundle, chunks, first) + [];
  }

  lemma PlanOfRun(chunks: seq<Chunk>, size: nat, first: nat)
    requires Fetchable(chunks, size) && first < |chunks|
    ensures Border(chunks, RunEnd(chunks, first))
    ensures Plan(chunks, size, first, RunEnd(chunks, first)) == [RunRange(chunks, first, RunEnd(chunks, first))]
  {
    hide Plan, Breaks;
    PlanRun(chunks, size, first, RunEnd(chunks, first));
  }

  lemma StartOfParts(data: seq<byte>, bundle: seq<byte>, chunks: seq<Chunk>, first: nat, hi: nat)
    requires Fetchable(chunks, |bundle|) && first < hi <= |chunks| && Border(chunks, hi)
    requires |Plan(chunks, |bundle|, first, hi)| > 1 && IsBody(data, bundle, Plan(chunks, |bundle|, first, hi))
    ensures exists f: Framing :: AtPart((if f.leadingCrlf then []
            else CRLF) + data, bundle, chunks, first, hi, f.boundary, f.fields)
  {
    hide Plan, Breaks, Parts, PartHead, RunBytes, RunEnd;
    var rs := Plan(chunks, |bundle|, first, hi);
    var f :| ValidFraming(f, |rs|) && data == Body(bundle, rs, f);
    LaterUnfolds(bundle, chunks, first, hi, f.boundary, f.fields);
    var all := Later(bundle, chunks, first, hi, f.boundary, f.fields);
    assert all[..2] == CRLF && all == all[..2] + all[2..];
    assert (if f.leadingCrlf then [] else CRLF) + data == all;
  }

  /** Before chunk i is copied the cut stands inside its run or in front of its part. */
  ghost predicate Stands(data: seq<byte>, pos: nat, bundle: seq<byte>, chunks: seq<Chunk>, first: nat, i: nat, hi: nat,
                         boundary: seq<byte>, fields: seq<seq<seq<byte>>>)
    requires Fetchable(chunks, |bundle|) && first <= i <= hi <= |chunks| && Border(chunks, hi)
  {
    && pos <= |data|
    && (i < hi ==>
          if i == first || !Breaks(chunks[i - 1], chunks[i])
          then InRun(data[pos..], bundle, chunks, i, hi, boundary, fields)
          else AtPart(data[pos..], bundle, chunks, i, hi, boundary, fields))
  }

  /** The first part head is skipped unless only one range was requested. */
  method EnterBatch(data: seq<byte>, chunks: seq<Chunk>, first: nat, count: nat, rangeMap: seq<nat>,
                    ghost bundle: seq<byte>)
    returns (pos: nat, ghost boundary: seq<byte>, ghost fields: seq<seq<seq<byte>>>)
    requires Fetchable(chunks, |bundle|) && IsRangeMap(rangeMap, chunks)
    requires count > 0 && first + count <= |chunks| && Border(chunks, first + count)
    requires IsBody(data, bundle, Plan(chunks, |bundle|, first, first + count))
    ensures Stands(data, pos, bundle, chunks, first, first, first + count, boundary, fields)
  {
    hide Breaks, Plan, IsBody, InRun, AtPart;
    ghost var hi := first + count;
    OneRange(chunks, |bundle|, rangeMap, first, hi);
    pos, boundary, fields := 0, [], [];
    assert data[0..] == data;
    if rangeMap[first + count - 1] != rangeMap[first] {
      StartOfParts(data, bundle, chunks, first, hi);
      ghost var f: Framing :| AtPart((if f.leadingCrlf then [] else CRLF) + data, bundle, chunks, first, hi,
                                     f.boundary, f.fields);
      boundary := f.boundary;
      pos := EnterPart(data, pos, f.leadingCrlf, bundle, chunks, first, hi, boundary, f.fields);
      fields := f.fields[1..];
    } else {
      StartOfOneRange(data, bundle, chunks, first, hi);
    }
  }

  /** The loop body of the multipart case. */
  method NextSlot(data: seq<byte>, pos: nat, chunks: seq<Chunk>, first: nat, i: nat, hi: nat, rangeMap: seq<nat>,
                  ghost bundle: seq<byte>, ghost boundary: seq<byte>, ghost fields: seq<seq<seq<byte>>>)
    returns (slot: seq<byte>, pos': nat, ghost fields': seq<seq<seq<byte>>>)
    requires Fetchable(chunks, |bundle|) && IsRangeMap(rangeMap, chunks) && first <= i < hi <= |chunks| &&
             Border(chunks, hi)
    requires Stands(data, pos, bundle, chunks, first, i, hi, boundary, fields)
    ensures slot == ChunkBytes(bundle, chunks[i])
    ensures Stands(data, pos', bundle, chunks, first, i + 1, hi, boundary, fields')
  {
    hide Breaks, InRun, AtPart;
    pos', fields' := pos, fields;
    if i != first {
      RangeMapStep(rangeMap, chunks, i);
    }
    if i != first && rangeMap[i] > rangeMap[i - 1] {
      assert [] + data[pos..] == data[pos..];
      pos' := EnterPart(data, pos, true, bundle, chunks, i, hi, boundary, fields);
      fields' := fields[1..];
    }
    slot, pos' := TakeChunk(data, pos', chunks, i, hi, bundle, boundary, fields');
  }

  /** The multipart case of `response_to_ranges`: the parts are cut back into chunks. */
  method SplitParts(data: seq<byte>, chunks: seq<Chunk>, ranges: array<seq<byte>>, first: nat, count: nat,
                    rangeMap: seq<nat>, ghost bundle: seq<byte>)
    requires Fetchable(chunks, |bundle|) && IsRangeMap(rangeMap, chunks) && ranges.Length == |chunks|
    requires count > 0 && first + count <= |chunks| && Border(chunks, first + count)
    requires IsBody(data, bundle, Plan(chunks, |bundle|, first, first + count))
    modifies ranges
    ensures Filled(ranges[..], bundle, chunks, first, first + count)
    ensures forall k :: 0 <= k < |chunks| && !(first <= k < first + count) ==> ranges[k] == old(ranges[k])
  {
    hide Stands, Breaks, Plan, IsBody;
    var pos, boundary, fields := EnterBatch(data, chunks, first, count, rangeMap, bundle);
    var i := first;
    while i < first + count
      invariant first <= i <= first + count
      invariant Stands(data, pos, bundle, chunks, first, i, first + count, boundary, fields)
      invariant Filled(ranges[..], bundle, chunks, first, i)
      invariant forall k :: 0 <= k < |chunks| && !(first <= k < i) ==> ranges[k] == old(ranges[k])
    {
      var slot;
      slot, pos, fields := NextSlot(data, pos, chunks, first, i, first + count, rangeMap, bundle, boundary, fields);
      ranges[i] := slot;
      i := i + 1;
    }
  }

  lemma RangeMapStep(rangeMap: seq<nat>, chunks: seq<Chunk>, i: nat)
    requires IsRangeMap(rangeMap, chunks) && 0 < i < |chunks|
    ensures rangeMap[i] > rangeMap[i - 1] <==> Breaks(chunks[i - 1], chunks[i])
  {
  }

  /** `response_to_ranges` */
  method ResponseToRanges(reply: Reply, chunks: seq<Chunk>, ranges: array<seq<byte>>, first: nat, count: nat,
                          rangeMap: seq<nat>, ghost bundle: seq<byte>)
    returns (chunksHandled: nat)
    requires Fetchable(chunks, |bundle|) && IsRangeMap(rangeMap, chunks) && ranges.Length == |chunks|
    requires IsBatch(Batch(first, count), chunks)
    requires reply.status < 400 && Answers(reply, bundle, BatchRanges(Batch(first, count), chunks, |bundle|))
    modifies ranges
    ensures chunksHandled == if reply.status == 200 then |chunks| - first else count
    ensures Filled(ranges[..], bundle, chunks, first, first + chunksHandled)
    ensures forall k :: 0 <= k < first ==> ranges[k] == old(ranges[k])
  {
    hide Breaks, Plan;
    if reply.status == 200 {
      for i := first to |chunks|
        invariant Filled(ranges[..], bundle, chunks, first, i)
        invariant forall k :: 0 <= k < first ==> ranges[k] == old(ranges[k])
      {
        ranges[i] := reply.data[chunks[i].bundleOffset..chunks[i].bundleOffset + chunks[i].compressedSize];
      }
      chunksHandled := |chunks| - first;
    } else if count == 1 {
      PlanRun(chunks, |bundle|, first, first + 1);
      ranges[first] := reply.data;
      chunksHandled := 1;
    } else {
      SplitParts(reply.data, chunks, ranges, first, count, rangeMap, bundle);
      chunksHandled := count;
    }
  }

  /** A request for a non-empty batch that fits into the header buffer, and has no room left for another range unless
      it brings the last chunk. */
  ghost predicate GoodRequest(b: Batch, request: string, prefix: string, chunks: seq<Chunk>, size: nat)
    requires Fetchable(chunks, size)
  {
    && IsBatch(b, chunks)
    && request == RequestText(prefix, BatchRanges(b, chunks, size))
    && |request| + 1 <= 8000
    && (b.first + b.count < |chunks| ==> !OneMoreFits(|prefix|, BatchRanges(b, chunks, size)))
  }

  /** The k-th batch is not empty, and begins where the one before it ended. */
  ghost predicate InPlace(batches: seq<Batch>, k: nat)
    requires k < |batches|
  {
    0 < batches[k].count && batches[k].first == if k == 0 then 0 else batches[k - 1].first + batches[k - 1].count
  }

  ghost predicate Chained(batches: seq<Batch>) {
    forall k {:trigger InPlace(batches, k)} :: 0 <= k < |batches| ==> InPlace(batches, k)
  }

  lemma ChainSnoc(batches: seq<Batch>, b: Batch)
    requires Chained(batches) && b.count > 0
    requires b.first == if batches == [] then 0 else batches[|batches| - 1].first + batches[|batches| - 1].count
    ensures Chained(batches + [b])
  {
    var bs := batches + [b];
    forall k {:trigger InPlace(bs, k)} | 0 <= k < |bs| ensures InPlace(bs, k) {
      if k < |batches| {
        assert InPlace(batches, k);
      }
    }
  }

  /** The requests sent so far. Each batch begins where the last one ended. */
  ghost predicate Batches(batches: seq<Batch>, log: seq<string>, prefix: string, chunks: seq<Chunk>, size: nat)
    requires Fetchable(chunks, size)
  {
    && |batches| == |log| && Chained(batches)
    && (forall k :: 0 <= k < |batches| ==> GoodRequest(batches[k], log[k], prefix, chunks, size))
  }

  /** The replies so far: partial ones, and possibly the whole bundle as the last one. */
  ghost predicate Replies(server: (nat, string) -> Option<Reply>, log: seq<string>) {
    forall j :: 0 <= j < |log| ==>
      server(j, log[j]).Some? && (server(j, log[j]).value.status == 206 || (j == |log| - 1 &&
          server(j, log[j]).value.status == 200))
  }

  /** The first chunk that these requests have not brought yet. */
  ghost function NextChunk(server: (nat, string) -> Option<Reply>, log: seq<string>, batches: seq<Batch>, n: nat): nat
    requires |batches| == |log| && Replies(server, log)
  {
    if log == [] then 0
    else if server(|log| - 1, log[|log| - 1]).value.status == 200 then n
    else batches[|log| - 1].first + batches[|log| - 1].count
  }

  lemma RequestIsForBatch(b: Batch, request: string, prefix: string, chunks: seq<Chunk>, size: nat)
    requires Fetchable(chunks, size) && GoodRequest(b, request, prefix, chunks, size)
    ensures IsBatch(b, chunks)
  {
  }

  lemma SendBatch(server: (nat, string) -> Option<Reply>, log: seq<string>, batches: seq<Batch>, prefix: string,
                  chunks: seq<Chunk>, size: nat, b: Batch, request: string)
    requires Fetchable(chunks, size) && Batches(batches, log, prefix, chunks, size) && Replies(server, log)
    requires b.first == NextChunk(server, log, batches, |chunks|) < |chunks| &&
             GoodRequest(b, request, prefix, chunks, size)
    ensures Batches(batches + [b], log + [request], prefix, chunks, size)
    ensures server(|log|, request).Some? && server(|log|, request).value.status in {200, 206} ==>
              && Replies(server, log + [request])
              && NextChunk(server, log + [request], batches + [b], |chunks|)
                   == if server(|log|, request).value.status == 200 then |chunks| else b.first + b.count
    ensures forall j :: 0 <= j < |log| ==> server(j, log[j]).Some? && server(j, log[j]).value.status == 206
  {
    assert |batches| == |log|;
    hide Fetchable, Batches, NextChunk, Replies;
    EndOfBatches(server, log, batches, |chunks|);
    BatchesSnoc(batches, log, prefix, chunks, size, b, request);
    if server(|log|, request).Some? && server(|log|, request).value.status in {200, 206} {
      RepliesSnoc(server, log, batches, |chunks|, b, request);
    }
  }

  /** A batch is sent only if no reply so far was the whole bundle, so it begins where the last one ended. */
  lemma EndOfBatches(server: (nat, string) -> Option<Reply>, log: seq<string>, batches: seq<Batch>, n: nat)
    requires |batches| == |log| && Replies(server, log) && NextChunk(server, log, batches, n) < n
    ensures forall j :: 0 <= j < |log| ==> server(j, log[j]).Some? && server(j, log[j]).value.status == 206
    ensures NextChunk(server, log, batches, n) == if batches == [] then 0
            else batches[|batches| - 1].first + batches[|batches| - 1].count
  {
  }

  lemma BatchesSnoc(batches: seq<Batch>, log: seq<string>, prefix: string, chunks: seq<Chunk>, size: nat, b: Batch,
                    request: string)
    requires Fetchable(chunks, size) && Batches(batches, log, prefix, chunks, size) &&
             GoodRequest(b, request, prefix, chunks, size)
    requires b.first == if batches == [] then 0 else batches[|batches| - 1].first + batches[|batches| - 1].count
    ensures Batches(batches + [b], log + [request], prefix, chunks, size)
  {
    RequestIsForBatch(b, request, prefix, chunks, size);
    ChainSnoc(batches, b);
    hide Fetchable, GoodRequest, Chained;
  }

  lemma RepliesSnoc(server: (nat, string) -> Option<Reply>, log: seq<string>, batches: seq<Batch>, n: nat, b: Batch,
                    request: string)
    requires |batches| == |log| && server(|log|, request).Some? && server(|log|, request).value.status in {200, 206}
    requires forall j :: 0 <= j < |log| ==> server(j, log[j]).Some? && server(j, log[j]).value.status == 206
    ensures Replies(server, log + [request])
    ensures NextChunk(server, log + [request], batches + [b], n)
         == if server(|log|, request).value.status == 200 then n else b.first + b.count
  {
  }

  /** What has been sent and received when all chunks before `first` have arrived. */
  ghost predicate Progress(server: (nat, string) -> Option<Reply>, log: seq<string>, batches: seq<Batch>,
                           prefix: string, chunks: seq<Chunk>, size: nat, first: nat)
    requires Fetchable(chunks, size)
  {
    && first <= |chunks| && Border(chunks, first) && |batches| == |log|
    && Batches(batches, log, prefix, chunks, size) && Replies(server, log)
    && first == NextChunk(server, log, batches, |chunks|)
  }

  /** One turn of the loop of `download_ranges`: a request, and the reply cut into slots. */
  method FetchBatch(server: (nat, string) -> Option<Reply>, k: nat, prefix: string, chunks: seq<Chunk>,
                    ranges: array<seq<byte>>, first: nat, rangeMap: seq<nat>,
                    ghost bundle: seq<byte>, ghost log: seq<string>, ghost batches: seq<Batch>)
    returns (handled: nat, ghost log': seq<string>, ghost batches': seq<Batch>)
    requires Fetchable(chunks, |bundle|) && IsRangeMap(rangeMap, chunks) && ranges.Length == |chunks|
    requires |prefix| <= MAX_PREFIX && Conforms(server, prefix, bundle)
    requires first < |chunks| && k == |log| && Progress(server, log, batches, prefix, chunks, |bundle|, first)
    modifies ranges
    ensures first + handled <= |chunks| && Filled(ranges[..], bundle, chunks, first, first + handled)
    ensures forall i :: 0 <= i < first ==> ranges[i] == old(ranges[i])
    ensures |log'| == k + 1 && |batches'| == k + 1 && Batches(batches', log', prefix, chunks, |bundle|)
    ensures handled == 0 ==> Failed(server(k, log'[k]))
    ensures handled > 0 ==> Progress(server, log', batches', prefix, chunks, |bundle|, first + handled)
  {
    hide Breaks, BatchRanges, Conforms, Answers, RequestText, Batches, Replies, GoodRequest, IsNextRequest;
    hide Fetchable, IsRangeMap;
    var header, count := BuildRequest(prefix, chunks, rangeMap, first, |bundle|);
    ghost var batch := Batch(first, count);
    RequestFits(batch, header, prefix, chunks, |bundle|);
    SendBatch(server, log, batches, prefix, chunks, |bundle|, batch, header);
    log', batches' := log + [header], batches + [batch];
    var body := server(k, header);
    if body == None || body.value.status >= 400 {
      return 0, log', batches';
    }
    ServerAnswers(server, k, prefix, bundle, batch, header, chunks);
    handled := ResponseToRanges(body.value, chunks, ranges, first, count, rangeMap, bundle);
    assert handled >= count;
  }

  /** `download_ranges`. None stands for the null pointer it returns after a failed request. */
  method DownloadRanges(server: (nat, string) -> Option<Reply>, prefix: string, chunks: seq<Chunk>,
                        ghost bundle: seq<byte>)
    returns (result: Option<seq<seq<byte>>>, ghost log: seq<string>, ghost batches: seq<Batch>)
    requires Fetchable(chunks, |bundle|) && |prefix| <= MAX_PREFIX
    requires Conforms(server, prefix, bundle)
    ensures result.Some? ==> |result.value| == |chunks| && Filled(result.value, bundle, chunks, 0, |chunks|)
    ensures Batches(batches, log, prefix, chunks, |bundle|)
    ensures result.Some? ==> Replies(server, log) && NextChunk(server, log, batches, |chunks|) == |chunks|
    ensures result == None ==> log != [] && Failed(server(|log| - 1, log[|log| - 1]))
  {
    hide Breaks, Conforms, Batches, Replies, IsRangeMap;
    var n := |chunks|;
    var chunkToRangeMap := MakeRangeMap(chunks);
    var firstChunk := 0;
    var ranges := new seq<byte>[n];
    log, batches := [], [];
    NothingSent(server, prefix, chunks, |bundle|);
    var k := 0;
    while firstChunk < n
      invariant 0 <= firstChunk <= n && k == |log|
      invariant Filled(ranges[..], bundle, chunks, 0, firstChunk)
      invariant Progress(server, log, batches, prefix, chunks, |bundle|, firstChunk)
      decreases n - firstChunk
    {
      var chunksHandled;
      chunksHandled, log, batches := FetchBatch(server, k, prefix, chunks, ranges, firstChunk, chunkToRangeMap,
                                                bundle, log, batches);
      if chunksHandled == 0 {
        return None, log, batches;
      }
      firstChunk := firstChunk + chunksHandled;
      k := k + 1;
    }
    result := Some(ranges[..]);
  }

  lemma NothingSent(server: (nat, string) -> Option<Reply>, prefix: string, chunks: seq<Chunk>, size: nat)
    requires Fetchable(chunks, size)
    ensures Progress(server, [], [], prefix, chunks, size, 0)
  {
  }

  lemma RequestFits(b: Batch, request: string, prefix: string, chunks: seq<Chunk>, size: nat)
    requires Fetchable(chunks, size) && |prefix| <= MAX_PREFIX
    requires IsNextRequest(b, request, prefix, chunks, size)
    ensures GoodRequest(b, request, prefix, chunks, size)
  {
    hide Plan, Taken, RangesText, Breaks, OneMoreFits;
    var all := Plan(chunks, size, b.first, |chunks|);
    WellFormedIsWritable(all, size);
    BatchFits(|prefix|, all);
    if b.first + b.count < |chunks| {
      PlanSplit(chunks, size, b.first, b.first + b.count, |chunks|);
      StopsWhenFull(|prefix|, all, Taken(|prefix|, all));
    }
  }

  lemma ServerAnswers(server: (nat, string) -> Option<Reply>, k: nat, prefix: string, bundle: seq<byte>, b: Batch,
                      request: string, chunks: seq<Chunk>)
    requires Conforms(server, prefix, bundle) && Fetchable(chunks, |bundle|)
    requires GoodRequest(b, request, prefix, chunks, |bundle|) && server(k, request).Some?
    ensures IsBatch(b, chunks) && Answers(server(k, request).value, bundle, BatchRanges(b, chunks, |bundle|))
    ensures server(k, request).value.status < 400 ==> server(k, request).value.status in {200, 206}
  {
    hide BatchRanges, Fetchable;
  }

  /** What one request asks for: ascending ranges with gaps between them, which the server can read back. */
  lemma BatchIsWellFormed(b: Batch, request: string, prefix: string, chunks: seq<Chunk>, size: nat)
    returns (text: string)
    requires Fetchable(chunks, size) && GoodRequest(b, request, prefix, chunks, size)
    ensures IsBatch(b, chunks) && WellFormed(BatchRanges(b, chunks, size), size)
    ensures forall i :: 0 < i < |BatchRanges(b, chunks, size)| ==>
              BatchRanges(b, chunks, size)[i - 1].last + 1 < BatchRanges(b, chunks, size)[i].first
    ensures request == prefix + text + "\r\n\r\n" && ReadRanges(text) == Some(BatchRanges(b, chunks, size))
  {
    hide ReadRanges, RangesText, BatchRanges;
    var rs := BatchRanges(b, chunks, size);
    RangesReadBack(rs);
    text := RangesText(rs);
  }

  /** A request is one header: in its bytes the first empty line is the one at its end, where a reader stops. */
  lemma RequestEndsOnce(b: Batch, request: string, prefix: string, chunks: seq<Chunk>, size: nat)
    requires Fetchable(chunks, size) && GoodRequest(b, request, prefix, chunks, size) && IsClean(Bytes(prefix))
    ensures var data := Bytes(request);
            && |data| >= 4 && EmptyLineAt(data, |data| - 4)
            && (forall k :: 0 <= k < |data| - 4 ==> !EmptyLineAt(data, k))
            && FindBlankLine(data, 0) == Some(|data| - 4)
  {
    hide RangesText, BatchRanges, IsClean, FindBlankLine, Bytes, OneMoreFits, EmptyLineAt;
    var rs := BatchRanges(b, chunks, size);
    RangesArePlain(rs);
    RangesTextIsLong(rs);
    EndsOnce(prefix, RangesText(rs));
  }

  lemma RangesTextIsLong(rs: seq<Range>)
    requires Writable(rs) && rs != []
    ensures RangesText(rs) != ""
  {
  }

  /** What stands in front of the ranges, for the path and the host of a URL. */
  function Prefix(path: string, host: string): string {
    "GET " + path + " HTTP/1.1\r\nHost: " + host + "\r\nRange: bytes="
  }

  /** It is clean if the URL has neither NUL nor carriage return, and leaves room for every request if and only if path
      and host have at most 7938 characters. */
  lemma PrefixIsClean(path: string, host: string)
    ensures 0 !in Bytes(path) && 13 !in Bytes(path) && 0 !in Bytes(host) && 13 !in Bytes(host) ==>
              IsClean(Bytes(Prefix(path, host)))
    ensures |path| + |host| <= 7938 <==>
            forall rs :: Small(rs) && rs != [] ==>
              |RequestText(Prefix(path, host), Greedy(|Prefix(path, host)|, rs))| + 1 <= 8000
  {
    hide RequestText, Greedy, Bytes, IsClean;
    PrefixBoundIsTight(Prefix(path, host));
    var a, b, c := "GET " + path + " HTTP/1.1", "Host: " + host, "Range: bytes=";
    assert Prefix(path, host) == a + "\r\n" + b + "\r\n" + c;
    BytesConcat("GET " + path, " HTTP/1.1");
    BytesConcat("GET ", path);
    BytesConcat("Host: ", host);
    PrintableBytes("GET ");
    PrintableBytes(" HTTP/1.1");
    PrintableBytes("Host: ");
    PrintableBytes(c);
    if 0 !in Bytes(path) && 13 !in Bytes(path) && 0 !in Bytes(host) && 13 !in Bytes(host) {
      LinesAreClean(a, b, c);
    }
  }

  /** And no byte is requested but those of the batch's chunks. */
  lemma BatchCoversItsChunks(b: Batch, chunks: seq<Chunk>, size: nat, p: nat)
    requires Fetchable(chunks, size) && IsBatch(b, chunks)
    ensures Requested(BatchRanges(b, chunks, size), p) <==> Wanted(chunks, b.first, b.first + b.count, p)
  {
    hide BatchRanges, RangesOf, Breaks, Fetchable, Requested, Wanted;
    RangesOfBatch(b, chunks, size);
    RangesCoverChunks(chunks, size, b.first, b.first + b.count, p);
  }

  lemma RangesOfBatch(b: Batch, chunks: seq<Chunk>, size: nat)
    requires Fetchable(chunks, size) && IsBatch(b, chunks)
    ensures BatchRanges(b, chunks, size) == RangesOf(chunks, b.first, b.first + b.count)
  {
    hide Breaks, Fetchable, RangesOf;
  }

  /** The last batch ends with the last chunk, so together the batches are a partition of the chunk list. */
  lemma BatchesPartition(batches: seq<Batch>, log: seq<string>, prefix: string, chunks: seq<Chunk>, size: nat, i: nat)
    requires Fetchable(chunks, size) && Batches(batches, log, prefix, chunks, size) && batches != []
    requires i < batches[|batches| - 1].first + batches[|batches| - 1].count
    ensures exists k :: 0 <= k < |batches| && batches[k].first <= i < batches[k].first + batches[k].count
    ensures forall j, k :: 0 <= j < k < |batches| ==> batches[j].first + batches[j].count <= batches[k].first
  {
    hide Fetchable, GoodRequest, Chained;
    var k := BatchOf(batches, i, |batches| - 1);
    forall j, k | 0 <= j < k < |batches| ensures batches[j].first + batches[j].count <= batches[k].first {
      BatchesAscend(batches, j, k);
    }
  }

  lemma {:induction false} BatchOf(batches: seq<Batch>, i: nat, n: nat) returns (k: nat)
    requires Chained(batches)
    requires n < |batches| && i < batches[n].first + batches[n].count
    ensures k < |batches| && batches[k].first <= i < batches[k].first + batches[k].count
  {
    assert InPlace(batches, n);
    k := n;
    if i < batches[n].first {
      k := BatchOf(batches, i, n - 1);
    }
  }

  lemma {:induction false} BatchesAscend(batches: seq<Batch>, j: nat, k: nat)
    requires Chained(batches)
    requires j < k < |batches|
    ensures batches[j].first + batches[j].count <= batches[k].first
  {
    assert InPlace(batches, k);
    if j < k - 1 {
      BatchesAscend(batches, j, k - 1);
    }
  }

  /** A server that really parses the request, and that may fall back to the whole bundle whenever it likes. */
  ghost function ReferenceReply(bundle: seq<byte>, prefix: string, whole: nat -> bool, f: Framing, n: nat,
                                request: string): Reply
    requires IsLine(f.boundary) && |f.fields| == 1 && ValidHead(f.boundary, f.fields[0])
  {
    if !(prefix <= request && |prefix| + 4 <= |request| && request[|request| - 4..] == BLANK_LINE) then Reply(400, [])
    else
      match ReadRanges(request[|prefix|..|request| - 4])
      case None => Reply(400, [])
      case Some(rs) =>
        if !WellFormed(rs, |bundle|) then Reply(416, [])
        else if whole(n) then Reply(200, bundle)
        else if |rs| == 1 then Reply(206, Slice(bundle, rs[0]))
        else Reply(206, Body(bundle, rs, f.(fields := seq(|rs|, _ => f.fields[0]))))
  }

  /** Such servers meet the assumption under which the download is proved correct. */
  lemma ReferenceConforms(server: (nat, string) -> Option<Reply>, bundle: seq<byte>, prefix: string,
                          whole: nat -> bool, f: Framing)
    requires IsLine(f.boundary) && |f.fields| == 1 && ValidHead(f.boundary, f.fields[0])
    requires forall n: nat, request :: server(n, request).Some? ==>
               server(n, request).value == ReferenceReply(bundle, prefix, whole, f, n, request)
    ensures Conforms(server, prefix, bundle)
  {
    hide ReadRanges, RangesText, Body, Answers, ValidHead;
    forall n: nat, rs | WellFormed(rs, |bundle|) && server(n, RequestText(prefix, rs)).Some?
      ensures Answers(server(n, RequestText(prefix, rs)).value, bundle, rs)
    {
      var request := RequestText(prefix, rs);
      assert request[|request| - 4..] == BLANK_LINE;
      assert request[|prefix|..|request| - 4] == RangesText(rs);
      RangesReadBack(rs);
      var g := f.(fields := seq(|rs|, _ => f.fields[0]));
      assert ValidFraming(g, |rs|);
      ReferenceAnswers(server(n, request).value, bundle, rs, g);
    }
  }

  lemma ReferenceAnswers(reply: Reply, bundle: seq<byte>, rs: seq<Range>, g: Framing)
    requires WellFormed(rs, |bundle|) && ValidFraming(g, |rs|)
    requires reply == Reply(200, bundle) || reply == (if |rs| == 1 then Reply(206, Slice(bundle, rs[0]))
             else Reply(206, Body(bundle, rs, g)))
    ensures Answers(reply, bundle, rs)
  {
  }
}
