/** The text of a Range header: how it is written, how a server reads it back, and how long it gets. */
module Request {
  import opened Common
  import opened RangePlan

  const DIGITS: string := "0123456789"

  /** %u: decimal digits without leading zeros. */
  function Decimal(n: nat): (s: string)
    ensures |s| > 0
  {
    if n < 10 then [DIGITS[n]] else Decimal(n / 10) + [DIGITS[n % 10]]
  }

  predicate IsDigit(c: char) {
    '0' <= c <= '9'
  }

  function DigitValue(c: char): (d: nat)
    requires IsDigit(c)
    ensures d < 10
  {
    c as int - '0' as int
  }

  function Value(s: string): nat
    requires forall i :: 0 <= i < |s| ==> IsDigit(s[i])
  {
    if s == "" then 0 else 10 * Value(s[..|s| - 1]) + DigitValue(s[|s| - 1])
  }

  lemma {:induction false} DecimalReadsBack(n: nat)
    ensures forall i :: 0 <= i < |Decimal(n)| ==> IsDigit(Decimal(n)[i])
    ensures Value(Decimal(n)) == n
  {
    if n < 10 {
      DigitReadsBack(n);
      assert Decimal(n)[..0] == "";
    } else {
      DecimalReadsBack(n / 10);
      DigitReadsBack(n % 10);
      assert Decimal(n)[..|Decimal(n)| - 1] == Decimal(n / 10);
    }
  }

  lemma DigitReadsBack(d: nat)
    requires d < 10
    ensures IsDigit(DIGITS[d]) && DigitValue(DIGITS[d]) == d
  {
  }

  function TenTo(e: nat): (t: nat)
    ensures t >= 1
  {
    if e == 0 then 1 else 10 * TenTo(e - 1)
  }

  lemma {:induction false} DecimalLength(n: nat, e: nat)
    requires e > 0
    ensures |Decimal(n)| <= e <==> n < TenTo(e)
  {
    if n >= 10 {
      if e > 1 {
        DecimalLength(n / 10, e - 1);
      }
    }
  }

  /** A 32-bit number has at most ten digits. */
  lemma DecimalFits(n: nat)
    requires n < TWO_TO_THE_32
    ensures |Decimal(n)| <= 10
  {
    assert TenTo(5) == 100000;
    assert TenTo(10) == 10000000000;
    DecimalLength(n, 10);
  }

  // One range is written as "first-last", and several are joined by commas (section 2.1 of RFC 7233).

  function RangeText(r: Range): (s: string)
    requires 0 <= r.first && 0 <= r.last
  {
    Decimal(r.first) + "-" + Decimal(r.last)
  }

  ghost predicate Writable(rs: seq<Range>) {
    forall i :: 0 <= i < |rs| ==> 0 <= rs[i].first && 0 <= rs[i].last
  }

  ghost function RangesText(rs: seq<Range>): string
    requires Writable(rs) && rs != []
  {
    if |rs| == 1 then RangeText(rs[0]) else RangeText(rs[0]) + "," + RangesText(rs[1..])
  }

  const BLANK_LINE: string := "\r\n\r\n"

  ghost function RequestText(prefix: string, rs: seq<Range>): string
    requires Writable(rs) && rs != []
  {
    prefix + RangesText(rs) + BLANK_LINE
  }

  // The server's side: reading the ranges back.

  /** The position of the first character, from i on, that is no digit. */
  function SkipDigits(s: string, i: nat): (j: nat)
    requires i <= |s|
    ensures i <= j <= |s|
    ensures forall k :: i <= k < j ==> IsDigit(s[k])
    ensures j < |s| ==> !IsDigit(s[j])
    decreases |s| - i
  {
    if i < |s| && IsDigit(s[i]) then SkipDigits(s, i + 1) else i
  }

  lemma {:induction false} SkipDigitsStops(s: string, i: nat, j: nat)
    requires i <= j <= |s| && (j < |s| ==> !IsDigit(s[j]))
    requires forall k :: i <= k < j ==> IsDigit(s[k])
    ensures SkipDigits(s, i) == j
    decreases j - i
  {
    if i < j {
      SkipDigitsStops(s, i + 1, j);
    }
  }

  /** One "first-last" from the front, and what follows it. */
  function ReadRange(s: string): (r: Option<(Range, string)>)
    ensures r.Some? ==> |r.value.1| < |s|
  {
    var i := SkipDigits(s, 0);
    if i == 0 || i >= |s| || s[i] != '-' then None
    else
      var j := SkipDigits(s, i + 1);
      if j == i + 1 then None
      else Some((Range(Value(s[..i]), Value(s[i + 1..j])), s[j..]))
  }

  function ReadRanges(s: string): Option<seq<Range>>
    decreases |s|
  {
    match ReadRange(s)
    case None => None
    case Some((r, tail)) =>
      if tail == "" then Some([r])
      else if tail[0] != ',' then None
      else
        match ReadRanges(tail[1..])
        case None => None
        case Some(rest) => Some([r] + rest)
  }

  /** A server that reads the header sees the very ranges that were written. */
  lemma {:induction false} RangesReadBack(rs: seq<Range>)
    requires Writable(rs) && rs != []
    ensures ReadRanges(RangesText(rs)) == Some(rs)
  {
    hide ReadRanges, ReadRange, RangeText;
    var r, s := rs[0], RangesText(rs);
    var tail := if |rs| == 1 then "" else "," + RangesText(rs[1..]);
    assert s == RangeText(r) + tail;
    ReadFront(s, r, tail);
    ReadRangesUnfolds(s, r, tail);
    if |rs| > 1 {
      RangesReadBack(rs[1..]);
      assert tail[1..] == RangesText(rs[1..]);
      assert rs == [r] + rs[1..];
    } else {
      assert rs == [r];
    }
  }

  lemma ReadFront(s: string, r: Range, tail: string)
    requires 0 <= r.first && 0 <= r.last && s == RangeText(r) + tail && (tail == "" || tail[0] == ',')
    ensures ReadRange(s) == Some((r, tail))
  {
    hide ReadRange, Decimal, Value;
    DecimalReadsBack(r.first);
    DecimalReadsBack(r.last);
    ReadOne(s, Decimal(r.first), Decimal(r.last), tail);
  }

  lemma ReadRangesUnfolds(s: string, r: Range, tail: string)
    requires ReadRange(s) == Some((r, tail)) && (tail == "" || tail[0] == ',')
    ensures tail == "" ==> ReadRanges(s) == Some([r])
    ensures tail != "" && ReadRanges(tail[1..]).Some? ==> ReadRanges(s) == Some([r] + ReadRanges(tail[1..]).value)
  {
    hide ReadRange;
  }

  predicate AllDigits(s: string) {
    forall i :: 0 <= i < |s| ==> IsDigit(s[i])
  }

  lemma ReadOne(s: string, a: string, b: string, tail: string)
    requires a != "" && b != "" && AllDigits(a) && AllDigits(b)
    requires s == a + "-" + b + tail && (tail == "" || tail[0] == ',')
    ensures var r := Range(Value(a), Value(b));
            ReadRange(s) == Some((r, tail))
  {
    hide IsDigit, Value;
    Separators();
    var i, j := |a|, |a| + 1 + |b|;
    Pieces(s, a, b, tail);
    forall k | 0 <= k < i ensures IsDigit(s[k]) {
      assert s[k] == s[..i][k];
    }
    SkipDigitsStops(s, 0, i);
    forall k | i + 1 <= k < j ensures IsDigit(s[k]) {
      assert s[k] == s[i + 1..j][k - i - 1];
    }
    if tail != "" {
      assert s[j] == s[j..][0];
      assert s[j + 1..] == s[j..][1..];
    }
    SkipDigitsStops(s, i + 1, j);
  }

  lemma Separators()
    ensures !IsDigit('-') && !IsDigit(',')
  {
  }

  lemma Pieces(s: string, a: string, b: string, tail: string)
    requires s == a + "-" + b + tail
    ensures s[..|a|] == a && s[|a|] == '-' && s[|a| + 1..|a| + 1 + |b|] == b && s[|a| + 1 + |b|..] == tail
  {
  }

  /** The text consists of digits, hyphens and commas. */
  lemma {:induction false} RangesArePlain(rs: seq<Range>)
    requires Writable(rs) && rs != []
    ensures forall i :: 0 <= i < |RangesText(rs)| ==> RangesText(rs)[i] in "0123456789-,"
  {
    DecimalIsPlain(rs[0].first);
    DecimalIsPlain(rs[0].last);
    hide Decimal;
    if |rs| > 1 {
      RangesArePlain(rs[1..]);
    }
  }

  lemma {:induction false} DecimalIsPlain(n: nat)
    ensures forall i :: 0 <= i < |Decimal(n)| ==> Decimal(n)[i] in "0123456789-,"
  {
    PlainDigit(n % 10);
    if n >= 10 {
      DecimalIsPlain(n / 10);
    }
  }

  lemma PlainDigit(d: nat)
    requires d < 10
    ensures DIGITS[d] in "0123456789-,"
  {
  }

  // How many ranges fit into one request.

  const HEADER_SIZE: nat := 8000
  const RANGE_SIZE: nat := 23
  const THRESHOLD: nat := HEADER_SIZE - RANGE_SIZE - 4

  /** The longest prefix after which everything still fits. */
  const MAX_PREFIX: nat := THRESHOLD + 1

  /** The number of ranges that the batching loop puts behind a header that already has length h. */
  ghost function Taken(h: nat, rs: seq<Range>): (k: nat)
    requires Writable(rs) && rs != []
    ensures 0 < k <= |rs|
    decreases |rs|
  {
    if |rs| == 1 || h + |RangeText(rs[0])| > THRESHOLD then 1
    else 1 + Taken(h + |RangeText(rs[0])| + 1, rs[1..])
  }

  /** The ranges of the next batch. */
  ghost function Greedy(h: nat, rs: seq<Range>): seq<Range>
    requires Writable(rs) && rs != []
  {
    rs[..Taken(h, rs)]
  }

  predicate IsSmall(r: Range) {
    0 <= r.first < TWO_TO_THE_32 && 0 <= r.last < TWO_TO_THE_32
  }

  ghost predicate Small(rs: seq<Range>) {
    forall i :: 0 <= i < |rs| ==> IsSmall(rs[i])
  }

  /** Each range with its comma and terminating NUL fits into the 23 bytes of `current_range`. */
  lemma RangeFits(r: Range)
    requires IsSmall(r)
    ensures |RangeText(r) + ","| + 1 <= RANGE_SIZE
  {
    DecimalFits(r.first);
    DecimalFits(r.last);
  }

  /** The buffer is not larger than it has to be. */
  lemma RangeSizeIsTight(size: nat)
    ensures size >= 23 <==> forall r :: IsSmall(r) ==> |RangeText(r) + ","| + 1 <= size
  {
    hide Decimal;
    forall r | IsSmall(r) ensures |RangeText(r) + ","| + 1 <= RANGE_SIZE {
      RangeFits(r);
    }
    var widest := Range(4000000000, 4000000000);
    TenDigits(4000000000);
    assert IsSmall(widest) && |RangeText(widest) + ","| + 1 == RANGE_SIZE;
  }

  /** A batch never overruns `request_header`, and it stops early only when it is nearly full. */
  lemma {:induction false} BatchFits(h: nat, rs: seq<Range>)
    requires Small(rs) && rs != []
    ensures var text := RangesText(Greedy(h, rs));
            && (h <= 7974 ==> h + |text + BLANK_LINE| + 1 <= 8000)
            && (Taken(h, rs) < |rs| ==> h + |text| > 8000 - 23 - 4)
    decreases |rs|
  {
    RangeFits(rs[0]);
    var k := Taken(h, rs);
    if k == 1 {
      assert rs[..1] == [rs[0]];
    } else {
      BatchFits(h + |RangeText(rs[0])| + 1, rs[1..]);
      assert rs[..k][1..] == rs[1..][..k - 1];
      assert RangesText(rs[..k]) == RangeText(rs[0]) + "," + RangesText(rs[1..][..k - 1]);
    }
  }

  /** Behind the ranges rs another one would be sure to fit, with its comma, the blank line and the terminating NUL. */
  ghost predicate OneMoreFits(h: nat, rs: seq<Range>)
    requires Writable(rs) && rs != []
  {
    forall r :: IsSmall(r) ==> h + |RangesText(rs) + "," + RangeText(r)| + 4 + 1 <= 8000
  }

  /** A batch goes on exactly as long as one more range is sure to fit, whatever its numbers. */
  lemma StopsWhenFull(h: nat, rs: seq<Range>, k: nat)
    requires Small(rs) && 0 < k < |rs|
    ensures k < Taken(h, rs) ==> OneMoreFits(h, rs[..k])
    ensures k == Taken(h, rs) ==> !OneMoreFits(h, rs[..k])
  {
    hide Taken, Decimal, RangesText;
    WidestRange();
    if k < Taken(h, rs) {
      GoesOn(h, rs, k);
      forall r | IsSmall(r) ensures h + |RangesText(rs[..k]) + "," + RangeText(r)| + 4 + 1 <= 8000 {
        RangeFits(r);
      }
    } else if k == Taken(h, rs) {
      BatchFits(h, rs);
      var r := Range(4000000000, 4000000000);
      assert IsSmall(r) && h + |RangesText(rs[..k]) + "," + RangeText(r)| + 4 + 1 > 8000;
    }
  }

  lemma WidestRange()
    ensures |RangeText(Range(4000000000, 4000000000))| == 21
  {
    hide Decimal;
    TenDigits(4000000000);
  }

  lemma {:induction false} GoesOn(h: nat, rs: seq<Range>, k: nat)
    requires Small(rs) && 0 < k < |rs| && k < Taken(h, rs)
    ensures h + |RangesText(rs[..k])| <= 8000 - 23 - 4
    decreases k
  {
    hide RangeText;
    if k == 1 {
      assert rs[..1] == [rs[0]];
    } else {
      GoesOn(h + |RangeText(rs[0])| + 1, rs[1..], k - 1);
      assert rs[..k][1..] == rs[1..][..k - 1];
      assert RangesText(rs[..k]) == RangeText(rs[0]) + "," + RangesText(rs[1..][..k - 1]);
    }
  }

  /** The bound on the prefix is exact: one character more and some request overruns the buffer. */
  lemma PrefixBoundIsTight(prefix: string)
    ensures |prefix| <= 7974 <==>
            forall rs :: Small(rs) && rs != [] ==> |RequestText(prefix, Greedy(|prefix|, rs))| + 1 <= 8000
  {
    hide Taken, Decimal, RangesText;
    if |prefix| <= MAX_PREFIX {
      forall rs | Small(rs) && rs != []
        ensures |RequestText(prefix, Greedy(|prefix|, rs))| + 1 <= HEADER_SIZE
      {
        BatchFits(|prefix|, rs);
      }
    } else {
      var rs := LongRange(prefix);
      assert Small(rs) && |RequestText(prefix, Greedy(|prefix|, rs))| + 1 > HEADER_SIZE;
    }
  }

  /** A single range of two ten-digit numbers. */
  lemma LongRange(prefix: string) returns (rs: seq<Range>)
    ensures Small(rs) && rs != []
    ensures |RequestText(prefix, Greedy(|prefix|, rs))| == |prefix| + 21 + 4
  {
    hide Decimal;
    TenDigits(4000000000);
    rs := [Range(4000000000, 4000000000)];
    assert Greedy(|prefix|, rs) == rs;
  }

  lemma TenDigits(n: nat)
    requires 1000000000 <= n < TWO_TO_THE_32
    ensures |Decimal(n)| == 10
  {
    DecimalFits(n);
    assert TenTo(5) == 100000;
    assert TenTo(9) == 1000000000;
    DecimalLength(n, 9);
  }
}
