/** What a server sends for a set of ranges, and the search with which the client skips part headers. */
module Multipart {
  import opened Common
  import opened RangePlan

  const CRLF: seq<byte> := [13, 10]
  const DASHES: seq<byte> := [45, 45]

  /** A line: not empty, free of NUL, and without a line break. A carriage return alone is no line break. */
  predicate IsLine(line: seq<byte>) {
    line != [] && 0 !in line && forall k :: 0 <= k < |line| ==> !CrlfAt(line, k)
  }

  predicate CrlfAt(s: seq<byte>, k: nat) {
    k + 2 <= |s| && s[k] == 13 && s[k + 1] == 10
  }

  function Lines(lines: seq<seq<byte>>): seq<byte> {
    if lines == [] then [] else lines[0] + CRLF + Lines(lines[1..])
  }

  /** How a server frames the parts of one reply: the boundary, each part's header fields, and whether
      an additional CRLF precedes the first boundary (RFC 7233, appendix A). */
  datatype Framing = Framing(boundary: seq<byte>, fields: seq<seq<seq<byte>>>, leadingCrlf: bool)

  ghost predicate ValidFraming(f: Framing, parts: nat) {
    && IsLine(f.boundary) && |f.fields| == parts
    && forall i :: 0 <= i < parts ==> ValidHead(f.boundary, f.fields[i])
  }

  /** The delimiter line, the header fields of a part and the empty line that ends them. */
  function PartHead(boundary: seq<byte>, fields: seq<seq<byte>>): seq<byte> {
    Lines([DASHES + boundary] + fields) + CRLF
  }

  function Slice(bundle: seq<byte>, r: Range): seq<byte>
    requires 0 <= r.first <= r.last + 1 <= |bundle|
  {
    bundle[r.first..r.last + 1]
  }

  ghost predicate Inside(rs: seq<Range>, size: nat) {
    forall i :: 0 <= i < |rs| ==> 0 <= rs[i].first <= rs[i].last < size
  }

  /** The parts from some part on, each preceded by the line break that belongs to its delimiter. */
  ghost function Parts(bundle: seq<byte>, rs: seq<Range>, boundary: seq<byte>, fields: seq<seq<seq<byte>>>): seq<byte>
    requires Inside(rs, |bundle|) && |fields| == |rs|
  {
    if rs == [] then CRLF + DASHES + boundary + DASHES + CRLF
    else CRLF + (PartHead(boundary, fields[0]) + (Slice(bundle, rs[0]) + Parts(bundle, rs[1..], boundary, fields[1..])))
  }

  /** A multipart/byteranges body (RFC 7233, section 4.1). */
  ghost function Body(bundle: seq<byte>, rs: seq<Range>, f: Framing): seq<byte>
    requires Inside(rs, |bundle|) && ValidFraming(f, |rs|)
  {
    var all := Parts(bundle, rs, f.boundary, f.fields);
    if f.leadingCrlf || |all| < 2 then all else all[2..]
  }

  /** strstr(pos, "\r\n\r\n"): the search ends at a NUL byte. */
  function FindBlankLine(body: seq<byte>, pos: nat): (found: Option<nat>)
    requires pos <= |body|
    ensures found.Some? ==> pos <= found.value && found.value + 4 <= |body|
    decreases |body| - pos
  {
    if pos + 4 > |body| then None
    else if body[pos..pos + 4] == CRLF + CRLF then Some(pos)
    else if body[pos] == 0 then None
    else FindBlankLine(body, pos + 1)
  }

  lemma TwoBreaksAt(body: seq<byte>, pos: nat)
    requires pos + 4 <= |body|
    ensures body[pos..pos + 4] == CRLF + CRLF <==> CrlfAt(body, pos) && CrlfAt(body, pos + 2)
  {
    assert body[pos..pos + 4] == [body[pos], body[pos + 1], body[pos + 2], body[pos + 3]];
    assert CRLF + CRLF == [13, 10, 13, 10];
  }

  /** One step of the search. */
  lemma Look(body: seq<byte>, pos: nat)
    requires pos <= |body|
    ensures FindBlankLine(body, pos)
         == if pos + 4 > |body| then None
            else if CrlfAt(body, pos) && CrlfAt(body, pos + 2) then Some(pos)
            else if body[pos] == 0 then None
            else FindBlankLine(body, pos + 1)
  {
    if pos + 4 <= |body| {
      TwoBreaksAt(body, pos);
    }
  }

  /** Where the search cannot stop, it goes on. */
  lemma {:induction false} SearchGoesOn(body: seq<byte>, pos: nat, stop: nat)
    requires pos <= stop && stop + 4 <= |body|
    requires forall k :: pos <= k < stop ==> body[k] != 0 && !CrlfAt(body, k)
    ensures FindBlankLine(body, pos) == FindBlankLine(body, stop)
    decreases stop - pos
  {
    if pos < stop {
      Look(body, pos);
      hide FindBlankLine;
      SearchGoesOn(body, pos + 1, stop);
    }
  }

  /** Searching behind a prefix. */
  lemma {:induction false} SearchBehind(before: seq<byte>, body: seq<byte>, pos: nat)
    requires pos <= |body|
    ensures FindBlankLine(before + body, |before| + pos)
         == match FindBlankLine(body, pos) case None => None case Some(k) => Some(|before| + k)
    decreases |body| - pos
  {
    if pos + 4 <= |body| {
      assert (before + body)[|before| + pos..|before| + pos + 4] == body[pos..pos + 4];
      if body[pos..pos + 4] != CRLF + CRLF && body[pos] != 0 {
        SearchBehind(before, body, pos + 1);
      }
    }
  }

  /** The search passes over a line, if another line follows, or stops at the blank line behind it. */
  lemma PassLine(line: seq<byte>, rest: seq<byte>)
    requires IsLine(line) && |rest| >= 2
    ensures FindBlankLine(line + CRLF + rest, 0)
         == if CrlfAt(rest, 0) then Some(|line|) else FindBlankLine(line + CRLF + rest, |line| + 2)
  {
    var body, n := line + CRLF + rest, |line|;
    forall k | 0 <= k < n ensures body[k] != 0 && !CrlfAt(body, k) {
      NoBreakInLine(line, rest, k);
    }
    SearchGoesOn(body, 0, n);
    AtLineEnd(line, rest);
  }

  lemma NoBreakInLine(line: seq<byte>, rest: seq<byte>, k: nat)
    requires IsLine(line) && k < |line|
    ensures (line + CRLF + rest)[k] != 0 && !CrlfAt(line + CRLF + rest, k)
  {
    var body := line + CRLF + rest;
    assert body[k] == line[k] && line[k] in line && !CrlfAt(line, k);
    assert body[k + 1] == if k < |line| - 1 then line[k + 1] else 13;
  }

  /** At the line break behind a line. */
  lemma AtLineEnd(line: seq<byte>, rest: seq<byte>)
    requires |rest| >= 2
    ensures FindBlankLine(line + CRLF + rest, |line|)
         == if CrlfAt(rest, 0) then Some(|line|) else FindBlankLine(line + CRLF + rest, |line| + 2)
  {
    assert line + CRLF + rest == line + (CRLF + rest);
    SearchBehind(line, CRLF + rest, 0);
    SearchBehind(line, CRLF + rest, 2);
    AtBreak(rest);
  }

  lemma AtBreak(rest: seq<byte>)
    requires |rest| >= 2
    ensures FindBlankLine(CRLF + rest, 0) == if CrlfAt(rest, 0) then Some(0) else FindBlankLine(CRLF + rest, 2)
  {
    hide FindBlankLine, CrlfAt;
    var body := CRLF + rest;
    BreaksBehindBreak(rest);
    Look(body, 0);
    Look(body, 1);
    Look(body, 2);
  }

  lemma BreaksBehindBreak(rest: seq<byte>)
    ensures var body := CRLF + rest;
            && body[0] == 13 && body[1] == 10 && CrlfAt(body, 0) && !CrlfAt(body, 1)
            && (CrlfAt(body, 2) <==> CrlfAt(rest, 0))
  {
    var body := CRLF + rest;
    assert forall k :: 0 <= k < |rest| ==> rest[k] == body[k + 2];
  }

  /** The search over the lines of a part head ends at the empty line behind the last of them. */
  lemma {:induction false} PassLines(lines: seq<seq<byte>>, rest: seq<byte>)
    requires lines != [] && forall k :: 0 <= k < |lines| ==> IsLine(lines[k])
    ensures |Lines(lines)| >= 2
    ensures FindBlankLine(Lines(lines) + (CRLF + rest), 0) == Some(|Lines(lines)| - 2)
  {
    hide FindBlankLine, IsLine;
    var line, tail := lines[0], Lines(lines[1..]) + (CRLF + rest);
    assert Lines(lines) + (CRLF + rest) == line + CRLF + tail;
    PassLine(line, tail);
    if |lines| == 1 {
      assert CrlfAt(tail, 0);
    } else {
      LinesBegin(lines[1..], CRLF + rest);
      PassLines(lines[1..], rest);
      SearchBehind(line + CRLF, tail, 0);
    }
  }

  /** No line begins with a line break. */
  lemma LinesBegin(lines: seq<seq<byte>>, rest: seq<byte>)
    requires lines != [] && IsLine(lines[0])
    ensures |Lines(lines) + rest| >= 2 && !CrlfAt(Lines(lines) + rest, 0)
  {
    var line, all := lines[0], Lines(lines) + rest;
    assert all == line + CRLF + (Lines(lines[1..]) + rest);
    NoBreakInLine(line, Lines(lines[1..]) + rest, 0);
  }

  ghost predicate ValidHead(boundary: seq<byte>, fields: seq<seq<byte>>) {
    IsLine(boundary) && forall k :: 0 <= k < |fields| ==> IsLine(fields[k])
  }

  /** A part begins with two hyphens and the boundary. */
  lemma HeadBegins(boundary: seq<byte>, fields: seq<seq<byte>>)
    ensures [45, 45] + boundary + [13, 10] <= PartHead(boundary, fields)
  {
    var lines := [DASHES + boundary] + fields;
    assert Lines(lines) == lines[0] + CRLF + Lines(lines[1..]);
  }

  lemma FindHeadEnd(boundary: seq<byte>, fields: seq<seq<byte>>, rest: seq<byte>)
    requires ValidHead(boundary, fields)
    ensures |PartHead(boundary, fields)| >= 4 && (PartHead(boundary, fields) + rest)[0] == 45
    ensures FindBlankLine(PartHead(boundary, fields) + rest, 0) == Some(|PartHead(boundary, fields)| - 4)
  {
    hide FindBlankLine, IsLine;
    var line, lines := DASHES + boundary, [DASHES + boundary] + fields;
    DelimiterIsLine(boundary);
    PassLines(lines, rest);
    assert Lines(lines) == line + CRLF + Lines(lines[1..]);
    assert PartHead(boundary, fields) + rest == Lines(lines) + (CRLF + rest);
  }

  lemma DelimiterIsLine(boundary: seq<byte>)
    requires IsLine(boundary)
    ensures IsLine(DASHES + boundary)
  {
    var line := DASHES + boundary;
    forall k | 0 <= k < |line| ensures !CrlfAt(line, k) {
      if k >= 2 {
        assert !CrlfAt(boundary, k - 2) && line[k] == boundary[k - 2];
      }
    }
  }

  /** From wherever a part's delimiter begins, the search finds where the part's data begins. */
  lemma SkipHead(before: seq<byte>, boundary: seq<byte>, fields: seq<seq<byte>>, rest: seq<byte>)
    requires ValidHead(boundary, fields)
    ensures FindBlankLine(before + (PartHead(boundary, fields) + rest), |before|)
              == Some(|before| + |PartHead(boundary, fields)| - 4)
  {
    hide PartHead, FindBlankLine, ValidHead;
    var y := PartHead(boundary, fields) + rest;
    FindHeadEnd(boundary, fields, rest);
    SearchBehind(before, y, 0);
  }

  lemma SkipBreakAndHead(before: seq<byte>, boundary: seq<byte>, fields: seq<seq<byte>>, rest: seq<byte>)
    requires ValidHead(boundary, fields)
    ensures FindBlankLine(before + (CRLF + (PartHead(boundary, fields) + rest)), |before|)
              == Some(|before| + 2 + |PartHead(boundary, fields)| - 4)
  {
    hide PartHead, FindBlankLine, ValidHead;
    var y := PartHead(boundary, fields) + rest;
    FindHeadEnd(boundary, fields, rest);
    LeadingBreak(y);
    SearchBehind(before, CRLF + y, 0);
  }

  lemma LeadingBreak(y: seq<byte>)
    requires |y| >= 4 && y[0] != 13
    ensures FindBlankLine(CRLF + y, 0) == match FindBlankLine(y, 0) case None => None case Some(k) => Some(2 + k)
  {
    assert !CrlfAt(y, 0);
    AtBreak(y);
    SearchBehind(CRLF, y, 0);
  }

  // Request headers end with an empty line, too.

  /** The byte of a character of the request. */
  function ByteOf(c: char): byte {
    (c as int % 256) as byte
  }

  function Bytes(s: string): (data: seq<byte>)
    ensures |data| == |s|
  {
    seq(|s|, i requires 0 <= i < |s| => ByteOf(s[i]))
  }

  predicate EmptyLineAt(data: seq<byte>, k: nat) {
    k + 4 <= |data| && data[k] == 13 && data[k + 1] == 10 && data[k + 2] == 13 && data[k + 3] == 10
  }

  /** No NUL, which would end the text, and no empty line. */
  ghost predicate IsClean(data: seq<byte>) {
    0 !in data && forall k :: 0 <= k < |data| ==> !EmptyLineAt(data, k)
  }

  ghost predicate IsPlain(s: string) {
    forall i :: 0 <= i < |s| ==> s[i] in "0123456789-,"
  }

  lemma PlainByte(c: char)
    requires c in "0123456789-,"
    ensures ByteOf(c) !in {0, 10, 13}
  {
  }

  lemma BreakBytes()
    ensures Bytes("\r\n\r\n") == [13, 10, 13, 10]
  {
  }

  lemma BytesConcat(a: string, b: string)
    ensures Bytes(a + b) == Bytes(a) + Bytes(b)
  {
    hide ByteOf;
  }

  /** The first place where the search can stop is where it stops. */
  lemma {:induction false} SearchStops(data: seq<byte>, pos: nat, stop: nat)
    requires pos <= stop && EmptyLineAt(data, stop)
    requires forall k :: pos <= k < stop ==> data[k] != 0 && !EmptyLineAt(data, k)
    ensures FindBlankLine(data, pos) == Some(stop)
    decreases stop - pos
  {
    Look(data, pos);
    hide FindBlankLine;
    if pos < stop {
      assert !EmptyLineAt(data, pos);
      SearchStops(data, pos + 1, stop);
    }
  }

  lemma EndsOnce(prefix: string, text: string)
    requires IsClean(Bytes(prefix)) && IsPlain(text) && text != ""
    ensures var data := Bytes(prefix + text + "\r\n\r\n");
            && EmptyLineAt(data, |data| - 4) && (forall k :: 0 <= k < |data| - 4 ==> !EmptyLineAt(data, k))
            && FindBlankLine(data, 0) == Some(|data| - 4)
  {
    BytesConcat(prefix, text);
    BytesConcat(prefix + text, "\r\n\r\n");
    BreakBytes();
    forall i | 0 <= i < |text| ensures Bytes(text)[i] !in {0, 10, 13} {
      PlainByte(text[i]);
    }
    hide Bytes, IsPlain, FindBlankLine, IsClean, EmptyLineAt;
    NoEarlierBreak(Bytes(prefix), Bytes(text));
    var data := Bytes(prefix) + Bytes(text) + [13, 10, 13, 10];
    SearchStops(data, 0, |data| - 4);
  }

  lemma NoEarlierBreak(a: seq<byte>, b: seq<byte>)
    requires IsClean(a) && b != [] && forall i :: 0 <= i < |b| ==> b[i] !in {0, 10, 13}
    ensures var data := a + b + [13, 10, 13, 10];
            && EmptyLineAt(data, |data| - 4)
            && forall k :: 0 <= k < |data| - 4 ==> data[k] != 0 && !EmptyLineAt(data, k)
  {
    var data := a + b + [13, 10, 13, 10];
    forall k | 0 <= k < |data| - 4 ensures data[k] != 0 && !EmptyLineAt(data, k) {
      if k < |a| {
        assert data[k] == a[k] && a[k] in a;
        assert !EmptyLineAt(a, k);
        assert data[|a|] == b[0];
      } else {
        assert data[k] == b[k - |a|];
      }
    }
  }

  lemma PrintableBytes(s: string)
    requires forall i :: 0 <= i < |s| ==> ' ' <= s[i] <= '~'
    ensures 0 !in Bytes(s) && 13 !in Bytes(s)
  {
    forall i | 0 <= i < |s| ensures Bytes(s)[i] !in {0, 13} {
      PrintableByte(s[i]);
    }
    hide Bytes;
  }

  lemma PrintableByte(c: char)
    requires ' ' <= c <= '~'
    ensures ByteOf(c) !in {0, 13}
  {
  }

  /** Three lines without NUL and carriage return, joined by line breaks. */
  lemma LinesAreClean(a: string, b: string, c: string)
    requires 0 !in Bytes(a) && 0 !in Bytes(b) && 0 !in Bytes(c) && b != ""
    requires 13 !in Bytes(a) && 13 !in Bytes(b) && 13 !in Bytes(c)
    ensures IsClean(Bytes(a + "\r\n" + b + "\r\n" + c))
  {
    BytesConcat(a, "\r\n");
    BytesConcat(a + "\r\n", b);
    BytesConcat(a + "\r\n" + b, "\r\n");
    BytesConcat(a + "\r\n" + b + "\r\n", c);
    OneBreak();
    hide Bytes, IsClean;
    JoinedIsClean(Bytes(a), Bytes(b), Bytes(c));
  }

  lemma OneBreak()
    ensures Bytes("\r\n") == [13, 10]
  {
  }

  lemma JoinedIsClean(a: seq<byte>, b: seq<byte>, c: seq<byte>)
    requires 0 !in a && 0 !in b && 0 !in c && 13 !in a && 13 !in b && 13 !in c && b != []
    ensures IsClean(a + [13, 10] + b + [13, 10] + c)
  {
    var data := a + [13, 10] + b + [13, 10] + c;
    var i, j := |a|, |a| + 2 + |b|;
    forall k | 0 <= k < |data| ensures data[k] != 0 && (data[k] == 13 ==> k in {i, j}) {
      assert k < i ==> data[k] == a[k];
      assert i + 2 <= k < j ==> data[k] == b[k - i - 2];
      assert j + 2 <= k ==> data[k] == c[k - j - 2];
    }
    assert data[i + 2] == b[0];
  }

  function LineBreaks(n: nat): seq<byte> {
    if n == 0 then [] else CRLF + LineBreaks(n - 1)
  }

  /** RFC 7233, appendix A, allows additional line breaks before the first boundary. The search copes with
      exactly one of them: two already look like the end of a part head. */
  lemma ExtraLineBreaks(before: seq<byte>, n: nat, boundary: seq<byte>, fields: seq<seq<byte>>, rest: seq<byte>)
    requires ValidHead(boundary, fields)
    ensures n <= 1 <==>
            FindBlankLine(before + (LineBreaks(n) + (PartHead(boundary, fields) + rest)), |before|)
              == Some(|before| + |LineBreaks(n)| + |PartHead(boundary, fields)| - 4)
  {
    hide *;
    FindHeadEnd(boundary, fields, rest);
    BehindBreaks(before, n, PartHead(boundary, fields) + rest, |PartHead(boundary, fields)|);
  }

  lemma BehindBreaks(before: seq<byte>, n: nat, y: seq<byte>, h: nat)
    requires 4 <= h <= |y| && y[0] != 13 && FindBlankLine(y, 0) == Some(h - 4)
    ensures n <= 1 <==>
            FindBlankLine(before + (LineBreaks(n) + y), |before|) == Some(|before| + |LineBreaks(n)| + h - 4)
  {
    hide FindBlankLine, LineBreaks;
    BreaksBefore(n, y);
    if n <= 1 {
      if n == 1 {
        LeadingBreak(y);
      }
      SearchBehind(before, LineBreaks(n) + y, 0);
    } else {
      StopAtTwoBreaks(before, LineBreaks(n - 2) + y);
    }
  }

  lemma BreaksBefore(n: nat, y: seq<byte>)
    ensures n == 0 ==> |LineBreaks(n)| == 0 && LineBreaks(n) + y == y
    ensures n == 1 ==> |LineBreaks(n)| == 2 && LineBreaks(n) + y == CRLF + y
    ensures n >= 2 ==> LineBreaks(n) + y == CRLF + CRLF + (LineBreaks(n - 2) + y) && |LineBreaks(n)| >= 4
  {
    if n == 1 {
      assert LineBreaks(1) == CRLF + LineBreaks(0) == CRLF;
    } else if n >= 2 {
      assert LineBreaks(n) == CRLF + (CRLF + LineBreaks(n - 2));
    }
  }

  lemma StopAtTwoBreaks(before: seq<byte>, y: seq<byte>)
    ensures FindBlankLine(before + (CRLF + CRLF + y), |before|) == Some(|before|)
  {
    var body, p := before + (CRLF + CRLF + y), |before|;
    assert body[p..] == CRLF + CRLF + y;
    assert body[p..p + 4] == body[p..][..4] == CRLF + CRLF;
  }
}
