/** `sort_list`: a bottom-up merge sort that passes the elements back and forth between two arrays. */
module MergeSort {
  import opened Common
  import opened Ordering
  import opened Lists

  /** Two runs merged; of two elements with the same key, the one from the left run comes first. */
  function Merge<T>(a: seq<T>, b: seq<T>, key: T -> int): (c: seq<T>)
    ensures |c| == |a| + |b|
  {
    if a == [] then b
    else if b == [] then a
    else if key(a[0]) <= key(b[0]) then [a[0]] + Merge(a[1..], b, key)
    else [b[0]] + Merge(a, b[1..], key)
  }

  lemma {:induction false} MergeFrom<T>(a: seq<T>, b: seq<T>, key: T -> int, low: int)
    requires Sorted(a, key) && Sorted(b, key)
    requires forall i :: 0 <= i < |a| ==> low <= key(a[i])
    requires forall i :: 0 <= i < |b| ==> low <= key(b[i])
    ensures Sorted(Merge(a, b, key), key)
    ensures forall i :: 0 <= i < |a| + |b| ==> low <= key(Merge(a, b, key)[i])
  {
    if a != [] && b != [] {
      if key(a[0]) <= key(b[0]) {
        MergeFrom(a[1..], b, key, key(a[0]));
      } else {
        MergeFrom(a, b[1..], key, key(b[0]));
      }
    }
  }

  /** What a merge begins with, and what it goes on with. */
  lemma MergeUnfolds<T>(a: seq<T>, b: seq<T>, key: T -> int)
    ensures a == [] ==> Merge(a, b, key) == b
    ensures b == [] ==> Merge(a, b, key) == a
    ensures a != [] && b != [] ==>
              var c, first := Merge(a, b, key), key(a[0]) <= key(b[0]);
              c != [] && c[0] == (if first then a[0] else b[0]) &&
                  c[1..] == (if first then Merge(a[1..], b, key) else Merge(a, b[1..], key))
  {
  }

  lemma {:induction false} MergeKeeps<T>(a: seq<T>, b: seq<T>, key: T -> int, k: int)
    requires Sorted(a, key) && Sorted(b, key)
    ensures WithKey(Merge(a, b, key), key, k) == WithKey(a, key, k) + WithKey(b, key, k)
  {
    MergeUnfolds(a, b, key);
    hide Merge;
    if a != [] && b != [] {
      var wa, wb := WithKey(a, key, k), WithKey(b, key, k);
      if key(a[0]) <= key(b[0]) {
        var head := if key(a[0]) == k then [a[0]] else [];
        MergeKeeps(a[1..], b, key, k);
        Reassociate(head, WithKey(a[1..], key, k), wb);
      } else {
        var head := if key(b[0]) == k then [b[0]] else [];
        MergeKeeps(a, b[1..], key, k);
        if k == key(b[0]) {
          WithKeyNone(a, key, k);
          assert wa == [];
        } else {
          assert wb == WithKey(b[1..], key, k);
        }
      }
    }
  }

  lemma MergeIsStable<T>(a: seq<T>, b: seq<T>, key: T -> int)
    requires Sorted(a, key) && Sorted(b, key)
    ensures StableSort(a + b, Merge(a, b, key), key)
  {
    var low := if a == [] then (if b == [] then 0 else key(b[0]))
               else if b == [] || key(a[0]) <= key(b[0]) then key(a[0]) else key(b[0]);
    MergeFrom(a, b, key, low);
    forall k: int ensures WithKey(Merge(a, b, key), key, k) == WithKey(a + b, key, k) {
      MergeKeeps(a, b, key, k);
      WithKeyConcat(a, b, key, k);
    }
  }

  /** Every run of the given width, counted from the front, is in order. */
  ghost predicate RunsSorted<T>(s: seq<T>, width: nat, key: T -> int)
    requires width > 0
  {
    if |s| <= width then Sorted(s, key)
    else Sorted(s[..width], key) && RunsSorted(s[width..], width, key)
  }

  /** One pass: neighbouring runs are merged in pairs. */
  ghost function Pass<T>(s: seq<T>, width: nat, key: T -> int): (r: seq<T>)
    requires width > 0
    ensures |r| == |s|
  {
    if s == [] then []
    else
      var mid, end := Min(width, |s|), Min(2 * width, |s|);
      Merge(s[..mid], s[mid..end], key) + Pass(s[end..], width, key)
  }

  lemma SingleRuns<T>(s: seq<T>, key: T -> int)
    ensures RunsSorted(s, 1, key)
  {
  }

  /** A pass doubles the width of the sorted runs. */
  lemma {:induction false} PassDoubles<T>(s: seq<T>, width: nat, key: T -> int)
    requires width > 0 && RunsSorted(s, width, key)
    ensures RunsSorted(Pass(s, width, key), 2 * width, key)
  {
    if s != [] {
      var mid, end := Min(width, |s|), Min(2 * width, |s|);
      RunPair(s, width, key);
      MergeIsStable(s[..mid], s[mid..end], key);
      PassDoubles(s[end..], width, key);
      var r := Pass(s, width, key);
      if |s| > 2 * width {
        assert r[..2 * width] == Merge(s[..mid], s[mid..end], key);
        assert r[2 * width..] == Pass(s[end..], width, key);
      } else {
        assert r == Merge(s[..mid], s[mid..end], key);
      }
    }
  }

  lemma FirstRunSorted<T>(s: seq<T>, width: nat, key: T -> int)
    requires width > 0 && RunsSorted(s, width, key)
    ensures var end := Min(width, |s|); Sorted(s[..end], key) && RunsSorted(s[end..], width, key)
  {
    assert |s| <= width ==> s[..|s|] == s;
  }

  lemma RunPair<T>(s: seq<T>, width: nat, key: T -> int)
    requires width > 0 && s != [] && RunsSorted(s, width, key)
    ensures var mid, end := Min(width, |s|), Min(2 * width, |s|);
            Sorted(s[..mid], key) && Sorted(s[mid..end], key) && RunsSorted(s[end..], width, key)
  {
    hide RunsSorted, Sorted;
    var mid, end := Min(width, |s|), Min(2 * width, |s|);
    var t := s[mid..];
    FirstRunSorted(s, width, key);
    FirstRunSorted(t, width, key);
    assert s[mid..end] == t[..Min(width, |t|)] && s[end..] == t[Min(width, |t|)..];
  }

  /** A pass never exchanges two elements with the same key. */
  lemma {:induction false} PassKeeps<T>(s: seq<T>, width: nat, key: T -> int, k: int)
    requires width > 0 && RunsSorted(s, width, key)
    ensures WithKey(Pass(s, width, key), key, k) == WithKey(s, key, k)
  {
    hide WithKey, Merge, RunsSorted, Sorted;
    if s == [] {
      assert Pass(s, width, key) == s;
    } else {
      var mid, end := Min(width, |s|), Min(2 * width, |s|);
      RunPair(s, width, key);
      MergeIsStable(s[..mid], s[mid..end], key);
      PassKeeps(s[end..], width, key, k);
      assert s[..mid] + s[mid..end] == s[..end] && s == s[..end] + s[end..];
      WithKeyConcat(s[..end], s[end..], key, k);
      WithKeyConcat(Merge(s[..mid], s[mid..end], key), Pass(s[end..], width, key), key, k);
    }
  }

  /** `sortHelper`: merge two neighbouring runs of the left array into the right one. */
  method SortHelper<T>(left: array<T>, iLeft: int32, iRight: int32, iEnd: int32, right: array<T>, key: T -> int)
    requires 0 <= iLeft <= iRight <= iEnd <= left.Length == right.Length && left != right
    modifies right
    ensures right[..iLeft] == old(right[..iLeft]) && right[iEnd..] == old(right[iEnd..])
    ensures left[..] == old(left[..])
    ensures right[iLeft..iEnd] == Merge(old(left[iLeft..iRight]), old(left[iRight..iEnd]), key)
  {
    hide Merge, Overlay;
    ghost var l, before := left[..], right[..];
    ghost var merged := Merge(l[iLeft..iRight], l[iRight..iEnd], key);
    NothingLaid(before, merged, iLeft);
    var i, j := iLeft, iRight;
    var k := iLeft;
    while k < iEnd
      invariant iLeft <= i <= iRight <= j <= iEnd && k == i + j - iRight && left[..] == l
      invariant right[..] == Overlay(before, merged, iLeft, k)
      invariant merged[k - iLeft..] == Merge(l[i..iRight], l[j..iEnd], key)
    {
      MergeNext(l, iRight, iEnd, i, j, merged, k - iLeft, key);
      OneMoreLaid(before, merged, iLeft, k);
      if i < iRight && (j >= iEnd || key(left[i]) <= key(left[j])) {
        right[k] := left[i];
        i := i + 1;
      } else {
        right[k] := left[j];
        j := j + 1;
      }
      k := k + 1;
    }
    AllLaid(before, merged, iLeft);
    assert left[iLeft..iRight] == l[iLeft..iRight] && left[iRight..iEnd] == l[iRight..iEnd];
    assert right[iLeft..iEnd] == right[..][iLeft..iEnd] && right[..iLeft] == right[..][..iLeft];
    assert right[iEnd..] == right[..][iEnd..];
  }

  /** The old elements, with those of the merge laid over them from `lo` up to `hi`. */
  ghost function Overlay<T>(before: seq<T>, merged: seq<T>, lo: nat, hi: nat): (s: seq<T>)
    requires lo <= hi <= lo + |merged| <= |before|
    ensures |s| == |before|
  {
    before[..lo] + merged[..hi - lo] + before[hi..]
  }

  lemma NothingLaid<T>(before: seq<T>, merged: seq<T>, lo: nat)
    requires lo + |merged| <= |before|
    ensures Overlay(before, merged, lo, lo) == before
  {
  }

  lemma OneMoreLaid<T>(before: seq<T>, merged: seq<T>, lo: nat, hi: nat)
    requires lo <= hi < lo + |merged| <= |before|
    ensures Overlay(before, merged, lo, hi + 1) == Overlay(before, merged, lo, hi)[hi := merged[hi - lo]]
  {
  }

  lemma AllLaid<T>(before: seq<T>, merged: seq<T>, lo: nat)
    requires lo + |merged| <= |before|
    ensures var hi := lo + |merged|; var s := Overlay(before, merged, lo, hi);
            s[..lo] == before[..lo] && s[lo..hi] == merged && s[hi..] == before[hi..]
  {
  }

  /** The next element of the merge is the one that the comparison picks. */
  lemma MergeNext<T>(l: seq<T>, iRight: nat, iEnd: nat, i: nat, j: nat, merged: seq<T>, n: nat, key: T -> int)
    requires i <= iRight <= j <= iEnd <= |l| && n + (iRight - i) + (iEnd - j) == |merged| && n < |merged|
    requires merged[n..] == Merge(l[i..iRight], l[j..iEnd], key)
    ensures if i < iRight && (j >= iEnd || key(l[i]) <= key(l[j]))
            then merged[n] == l[i] && merged[n + 1..] == Merge(l[i + 1..iRight], l[j..iEnd], key)
            else j < iEnd && merged[n] == l[j] && merged[n + 1..] == Merge(l[i..iRight], l[j + 1..iEnd], key)
  {
    hide Merge;
    MergeStep(l[i..iRight], l[j..iEnd], key);
    Advance(merged, n);
    assert i < iRight ==> l[i..iRight][1..] == l[i + 1..iRight];
    assert j < iEnd ==> l[j..iEnd][1..] == l[j + 1..iEnd];
  }

  lemma Advance<T>(s: seq<T>, n: nat)
    requires n < |s|
    ensures s[n..][0] == s[n] && s[n..][1..] == s[n + 1..]
  {
  }

  lemma MergeStep<T>(a: seq<T>, b: seq<T>, key: T -> int)
    requires a != [] || b != []
    ensures a != [] && (b == [] || key(a[0]) <= key(b[0])) ==> Merge(a, b, key) == [a[0]] + Merge(a[1..], b, key)
    ensures !(a != [] && (b == [] || key(a[0]) <= key(b[0]))) ==> Merge(a, b, key) == [b[0]] + Merge(a, b[1..], key)
  {
    if b == [] {
      assert a == [a[0]] + a[1..];
    } else if a == [] {
      assert b == [b[0]] + b[1..];
    }
  }

  /** One turn of the inner loop of `sort_list`: the runs at i are merged behind what the pass has written. */
  method MergePair<T>(left: array<T>, n: int32, i: int32, width: int32, right: array<T>, key: T -> int)
    requires 0 <= i < n <= left.Length == right.Length && left != right
    requires 0 < width <= 0x2000_0000 && n <= 0x4000_0000
    modifies right
    ensures left[..] == old(left[..])
    ensures var s, mid, end := old(left[..n]), Min(i + width, n), Min(i + 2 * width, n);
            right[..end] == old(right[..i]) + Merge(s[i..mid], s[mid..end], key)
  {
    hide Merge;
    ghost var s, done := left[..n], right[..i];
    var iRight, iEnd := Min(i + width, n), Min(i + 2 * width, n);
    assert left[i..iRight] == s[i..iRight] && left[iRight..iEnd] == s[iRight..iEnd];
    SortHelper(left, i, iRight, iEnd, right, key);
    assert right[..iEnd] == done + right[i..iEnd];
  }

  /** The inner loop of `sort_list`: one pass over all pairs of runs. */
  method RunPass<T>(left: array<T>, n: int32, width: int32, right: array<T>, key: T -> int)
    requires 0 <= n <= left.Length == right.Length && left != right
    requires 0 < width <= 0x2000_0000 && n <= 0x4000_0000
    modifies right
    ensures right[..n] == Pass(left[..n], width, key)
  {
    hide Merge, Pass;
    ghost var all, s := left[..], left[..n];
    PassEnd<T>(width, key);
    var i: int32 := 0;
    while i < n
      invariant 0 <= i && left[..] == all
      invariant right[..Min(i, n)] + Pass(s[Min(i, n)..], width, key) == Pass(s, width, key)
    {
      ghost var done, mid, end := right[..i], Min(i + width, n), Min(i + 2 * width, n);
      assert left[..n] == left[..][..n];
      MergePair(left, n, i, width, right, key);
      PassStep(s, i, width, key);
      Reassociate(done, Merge(s[i..mid], s[mid..end], key), Pass(s[end..], width, key));
      i := i + 2 * width;
    }
    assert left[..n] == left[..][..n];
  }

  lemma PassEnd<T>(width: nat, key: T -> int)
    requires width > 0
    ensures Pass([], width, key) == []
  {
  }

  lemma PassStep<T>(s: seq<T>, i: nat, width: nat, key: T -> int)
    requires width > 0 && i < |s|
    ensures var mid, end := Min(i + width, |s|), Min(i + 2 * width, |s|);
            Pass(s[i..], width, key) == Merge(s[i..mid], s[mid..end], key) + Pass(s[end..], width, key)
  {
    var t := s[i..];
    assert t[..Min(width, |t|)] == s[i..Min(i + width, |s|)];
    assert t[Min(width, |t|)..Min(2 * width, |t|)] == s[Min(i + width, |s|)..Min(i + 2 * width, |s|)];
    assert t[Min(2 * width, |t|)..] == s[Min(i + 2 * width, |s|)..];
  }

  function PowerOfTwo(e: nat): (p: nat)
    ensures p > e
  {
    if e == 0 then 1 else 2 * PowerOfTwo(e - 1)
  }

  lemma {:induction false} PowersGrow(d: nat, e: nat)
    requires d <= e
    ensures PowerOfTwo(d) <= PowerOfTwo(e)
  {
    if d < e {
      PowersGrow(d, e - 1);
    }
  }

  lemma LargestWidth(e: nat)
    requires PowerOfTwo(e) < 0x4000_0000
    ensures PowerOfTwo(e) <= 0x2000_0000 && PowerOfTwo(e + 1) == 2 * PowerOfTwo(e)
  {
    TwoToThe30();
    if e >= 30 {
      PowersGrow(30, e);
      assert false;
    }
    PowersGrow(e, 29);
  }

  /** In every pass over n elements, the end of the second run, and the next width, fit in a C int. */
  ghost predicate CountersFit(n: nat) {
    forall e, k {:trigger PowerOfTwo(e), FirstRun(e, k)} :: PowerOfTwo(e) < n && FirstRun(e, k) < n ==>
      FirstRun(e, k) + 2 * PowerOfTwo(e) < TWO_TO_THE_31
  }

  /** Where the k-th pair of runs begins in the pass with width 2^e. */
  function FirstRun(e: nat, k: nat): nat {
    k * (2 * PowerOfTwo(e))
  }

  /** The pairs follow one another, two widths apart. */
  lemma RunsFollow(e: nat, k: nat)
    ensures FirstRun(e, 0) == 0 && FirstRun(e, k + 1) == FirstRun(e, k) + 2 * PowerOfTwo(e)
  {
    hide PowerOfTwo;
  }

  /** That is so exactly for lists of up to 2^30 elements. */
  lemma SortLengthIsTight(n: nat)
    ensures CountersFit(n) <==> n <= 0x4000_0000
  {
    hide PowerOfTwo;
    if n <= 0x4000_0000 {
      forall e, k {:trigger PowerOfTwo(e), FirstRun(e, k)} | PowerOfTwo(e) < n && FirstRun(e, k) < n
        ensures FirstRun(e, k) + 2 * PowerOfTwo(e) < TWO_TO_THE_31
      {
        LargestWidth(e);
      }
    } else {
      TwoToThe30();
      assert FirstRun(30, 0) == 0;
    }
  }

  lemma TwoToThe30()
    ensures PowerOfTwo(30) == 0x4000_0000
  {
    assert PowerOfTwo(10) == 0x400;
    assert PowerOfTwo(20) == 0x10_0000;
  }

  /** `sort_list`. Its counters are C ints, and 2^30 is the greatest length for which none of them overflows. */
  method SortList<T(0)>(list: List<T>, key: T -> int)
    requires list.Valid() && list.length <= 0x4000_0000
    modifies list, list.objects
    ensures list.Valid() && list.length == old(list.length) && list.allocatedLength == old(list.allocatedLength)
    ensures list.objects == old(list.objects) || fresh(list.objects)
    ensures StableSort(old(list.Contents()), list.Contents(), key)
  {
    hide Pass, StableSort, SortedSoFar, PowerOfTwo;
    ghost var input := list.Contents();
    var n: int32 := list.length;
    var temp := Copy(list);
    var parity := 0;
    var width: int32 := 1;
    ghost var current, e := input, 0;
    PowerOfZero();
    BeforePasses(input, key);
    while width < n
      invariant 0 < width == PowerOfTwo(e) && parity >= 0
      invariant list.Valid() && list.objects == old(list.objects) && list.length == n == |input|
      invariant list.allocatedLength == old(list.allocatedLength)
      invariant temp.Valid() && fresh(temp) && fresh(temp.objects) && temp.length == n
      invariant temp.allocatedLength == list.allocatedLength
      invariant current == (if parity % 2 == 0 then temp else list).Contents()
      invariant SortedSoFar(input, current, width, key)
    {
      ghost var before := current;
      LargestWidth(e);
      parity := parity + 1;
      if parity % 2 == 0 {
        RunPass(list.objects, n, width, temp.objects, key);
      } else {
        RunPass(temp.objects, n, width, list.objects, key);
      }
      current := Pass(before, width, key);
      AfterPass(input, before, width, key);
      width, e := 2 * width, e + 1;
    }
    AfterPasses(input, current, width, key);
    if parity % 2 == 0 {
      list.objects := temp.objects;
    }
  }

  /** The second buffer, with the same capacity and elements. */
  method Copy<T(0)>(list: List<T>) returns (temp: List<T>)
    requires list.Valid()
    ensures fresh(temp) && fresh(temp.objects) && temp.Valid()
    ensures temp.allocatedLength == list.allocatedLength && temp.Contents() == list.Contents()
  {
    temp := new List<T>(list.allocatedLength);
    temp.AddAll(list.objects[..list.length]);
  }

  lemma PowerOfZero()
    ensures PowerOfTwo(0) == 1
  {
  }

  /** What a pass leaves: sorted runs, and the elements of each key in their old order. */
  ghost predicate SortedSoFar<T>(input: seq<T>, current: seq<T>, width: nat, key: T -> int) {
    width > 0 && RunsSorted(current, width, key) && forall k: int :: WithKey(current, key, k) == WithKey(input, key, k)
  }

  lemma BeforePasses<T>(input: seq<T>, key: T -> int)
    ensures SortedSoFar(input, input, 1, key)
  {
    SingleRuns(input, key);
  }

  lemma AfterPass<T>(input: seq<T>, current: seq<T>, width: nat, key: T -> int)
    requires SortedSoFar(input, current, width, key)
    ensures SortedSoFar(input, Pass(current, width, key), 2 * width, key)
  {
    hide WithKey, Pass, RunsSorted;
    PassDoubles(current, width, key);
    forall k: int ensures WithKey(Pass(current, width, key), key, k) == WithKey(input, key, k) {
      PassKeeps(current, width, key, k);
    }
  }

  lemma AfterPasses<T>(input: seq<T>, current: seq<T>, width: nat, key: T -> int)
    requires SortedSoFar(input, current, width, key) && |current| <= width
    ensures StableSort(input, current, key)
  {
  }
}
